/** The limits a suggested problem must respect, and the error list built
    from them. */
module ProblemValidation {
  import opened Text
  import Lists

  const TitleLimit: int := 200
  const StatementLimit: int := 10000
  const CodeLimit: int := 50000
  const TestCaseLimit: int := 10
  const TestCaseSizeLimit: int := 100000

  const TitleError: string := "Title is required and must be under 200 characters."
  const StatementError: string := "Problem statement is required."
  const SolutionError: string := "Reference solution is required."
  const CountError: string := "You must provide between 1 and 10 test cases."
  const SizeError: string := "Test cases must not exceed 100000 characters."

  /** The checks, in the order they are made. */
  datatype Check = TitleCheck | StatementCheck | SolutionCheck | CountCheck | SizeCheck

  function Rank(c: Check): nat {
    match c
    case TitleCheck => 0
    case StatementCheck => 1
    case SolutionCheck => 2
    case CountCheck => 3
    case SizeCheck => 4
  }

  function Message(c: Check): string {
    match c
    case TitleCheck => TitleError
    case StatementCheck => StatementError
    case SolutionCheck => SolutionError
    case CountCheck => CountError
    case SizeCheck => SizeError
  }

  /** A JavaScript-truthy string: present and non-empty. */
  predicate Present(s: Option<string>) { s.Some? && s.value != "" }

  predicate TitleOk(title: Option<string>) { Present(title) && JsLength(title.value) <= TitleLimit }
  predicate StatementOk(statement: Option<string>) { Present(statement) && JsLength(statement.value) <= StatementLimit }
  predicate SolutionOk(code: Option<string>) { Present(code) && JsLength(code.value) <= CodeLimit }
  predicate CountOk(n: int) { 1 <= n <= TestCaseLimit }
  predicate Oversized(input: string) { JsLength(input) > TestCaseSizeLimit }
  predicate NoneOversized(inputs: seq<string>) { forall i :: 0 <= i < |inputs| ==> !Oversized(inputs[i]) }

  /** Whether check `c` fails on the given data. */
  predicate Fails(c: Check, title: Option<string>, statement: Option<string>, solutionCode: Option<string>,
                  testInputs: seq<string>)
  {
    match c
    case TitleCheck => !TitleOk(title)
    case StatementCheck => !StatementOk(statement)
    case SolutionCheck => !SolutionOk(solutionCode)
    case CountCheck => !CountOk(|testInputs|)
    case SizeCheck => !NoneOversized(testInputs)
  }

  function CheckIf(failed: bool, c: Check): seq<Check> {
    if failed then [c] else []
  }

  /** The failed checks in the order they are made. */
  function FailedChecks(title: Option<string>, statement: Option<string>, solutionCode: Option<string>,
                        testInputs: seq<string>): seq<Check>
  {
    CheckIf(!TitleOk(title), TitleCheck) + CheckIf(!StatementOk(statement), StatementCheck)
    + CheckIf(!SolutionOk(solutionCode), SolutionCheck) + CheckIf(!CountOk(|testInputs|), CountCheck)
    + CheckIf(!NoneOversized(testInputs), SizeCheck)
  }

  /** The message of each failed check, in order. */
  function Messages(cs: seq<Check>): seq<string> {
    Lists.Map(cs, Message)
  }

  /** `testCases.find(tc => tc.input.length > limit)`: the first oversized
      input, if any. */
  method FindOversized(inputs: seq<string>) returns (found: Option<nat>)
    ensures found.None? <==> NoneOversized(inputs)
    ensures found.Some? ==>
      found.value < |inputs| && Oversized(inputs[found.value])
      && NoneOversized(inputs[..found.value])
  {
    var i := 0;
    while i < |inputs|
      invariant 0 <= i <= |inputs|
      invariant NoneOversized(inputs[..i])
    {
      if Oversized(inputs[i]) {
        return Some(i);
      }
      assert inputs[..i + 1] == inputs[..i] + [inputs[i]];
      i := i + 1;
    }
    assert inputs[..i] == inputs;
    return None;
  }

  /** `validateProblemData`: one message per failed check, in the order
      title, statement, solution, count, size. The checks that fail are
      collected first and turned into their messages at the end. */
  method ValidateProblemData(title: Option<string>, statement: Option<string>, solutionCode: Option<string>,
                             testInputs: seq<string>)
    returns (errors: seq<string>)
    ensures errors == Messages(FailedChecks(title, statement, solutionCode, testInputs))
  {
    // Each check contributes its own entry, or none; the list keeps their order.
    var titleFailed: seq<Check> := [];
    if !Present(title) || JsLength(title.value) > TitleLimit {
      titleFailed := [TitleCheck];
    }
    assert titleFailed == CheckIf(!TitleOk(title), TitleCheck);
    var statementFailed: seq<Check> := [];
    if !Present(statement) || JsLength(statement.value) > StatementLimit {
      statementFailed := [StatementCheck];
    }
    assert statementFailed == CheckIf(!StatementOk(statement), StatementCheck);
    var solutionFailed: seq<Check> := [];
    if !Present(solutionCode) || JsLength(solutionCode.value) > CodeLimit {
      solutionFailed := [SolutionCheck];
    }
    assert solutionFailed == CheckIf(!SolutionOk(solutionCode), SolutionCheck);
    var countFailed: seq<Check> := [];
    if |testInputs| == 0 || |testInputs| > TestCaseLimit {
      countFailed := [CountCheck];
    }
    assert countFailed == CheckIf(!CountOk(|testInputs|), CountCheck);
    var sizeFailed: seq<Check> := [];
    var oversized := FindOversized(testInputs);
    if oversized.Some? {
      sizeFailed := [SizeCheck];
    }
    assert sizeFailed == CheckIf(!NoneOversized(testInputs), SizeCheck);
    var failed := titleFailed + statementFailed + solutionFailed + countFailed + sizeFailed;
    FailedChecksJoined(titleFailed, statementFailed, solutionFailed, countFailed, sizeFailed,
      title, statement, solutionCode, testInputs);
    errors := Messages(failed);
  }

  /** The five contributions, joined in order, are the failed checks. */
  lemma FailedChecksJoined(t: seq<Check>, st: seq<Check>, so: seq<Check>, n: seq<Check>, z: seq<Check>,
                           title: Option<string>, statement: Option<string>, solutionCode: Option<string>,
                           testInputs: seq<string>)
    requires t == CheckIf(!TitleOk(title), TitleCheck) && st == CheckIf(!StatementOk(statement), StatementCheck)
    requires so == CheckIf(!SolutionOk(solutionCode), SolutionCheck) && n == CheckIf(!CountOk(|testInputs|), CountCheck)
    requires z == CheckIf(!NoneOversized(testInputs), SizeCheck)
    ensures t + st + so + n + z == FailedChecks(title, statement, solutionCode, testInputs)
  {
  }

  /** What the list means: the failed checks, each once, in the fixed
      order; so at most five messages, and none at all exactly when the
      data is acceptable. */
  lemma FailedChecksMeaning(title: Option<string>, statement: Option<string>,
                            solutionCode: Option<string>, testInputs: seq<string>)
    ensures var cs := FailedChecks(title, statement, solutionCode, testInputs);
      |cs| <= 5
      && (forall c :: c in cs <==> Fails(c, title, statement, solutionCode, testInputs))
      && (forall i, j :: 0 <= i < j < |cs| ==> Rank(cs[i]) < Rank(cs[j]))
      && (cs == [] <==>
            TitleOk(title) && StatementOk(statement) && SolutionOk(solutionCode)
            && CountOk(|testInputs|) && NoneOversized(testInputs))
  {
    var cs := FailedChecks(title, statement, solutionCode, testInputs);
    forall c ensures c in cs <==> Fails(c, title, statement, solutionCode, testInputs) {
      FailedCheckListed(c, title, statement, solutionCode, testInputs);
    }
    FailedChecksRanked(CheckIf(!TitleOk(title), TitleCheck), CheckIf(!StatementOk(statement), StatementCheck),
      CheckIf(!SolutionOk(solutionCode), SolutionCheck), CheckIf(!CountOk(|testInputs|), CountCheck),
      CheckIf(!NoneOversized(testInputs), SizeCheck));
  }

  lemma FailedCheckListed(c: Check, title: Option<string>, statement: Option<string>,
                          solutionCode: Option<string>, testInputs: seq<string>)
    ensures c in FailedChecks(title, statement, solutionCode, testInputs) <==> Fails(c, title, statement, solutionCode, testInputs)
  {
  }

  /** Five optional checks in rank order give a list in rank order. */
  lemma FailedChecksRanked(c1: seq<Check>, c2: seq<Check>, c3: seq<Check>, c4: seq<Check>, c5: seq<Check>)
    requires c1 == [] || c1 == [TitleCheck]
    requires c2 == [] || c2 == [StatementCheck]
    requires c3 == [] || c3 == [SolutionCheck]
    requires c4 == [] || c4 == [CountCheck]
    requires c5 == [] || c5 == [SizeCheck]
    ensures var cs := c1 + c2 + c3 + c4 + c5;
      |cs| <= 5 && forall i, j :: 0 <= i < j < |cs| ==> Rank(cs[i]) < Rank(cs[j])
  {
  }


}
