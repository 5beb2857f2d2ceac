/** The "test cases" tab of the suggest-problem wizard: editing the list
    and running the reference solution on it. */
module TestCases {
  import opened Text
  import Lists
  import Api

  datatype TestCase = TestCase(id: string, input: string, actualOutput: Option<string>, visible: bool)

  const DefaultError: string := "An unexpected error occurred."
  const MissingInfoError: string := "Missing Problem Info. Please save it first."
  const EmptySolutionError: string := "Solution code is empty. Please go back and write your solution."
  const RunSucceeded: string := "Test cases executed successfully!"
  const SaveSucceeded: string := "Test cases saved successfully!"

  /** The first output reporting a compilation error, if any. */
  function CompilationErrorOf(outputs: seq<string>): (r: Option<string>)
    ensures r.None? <==> forall i :: 0 <= i < |outputs| ==> !IsCompilationError(outputs[i])
    ensures r.Some? ==> IsCompilationError(r.value) && r.value in outputs
  {
    if outputs == [] then None
    else if IsCompilationError(outputs[0]) then Some(outputs[0])
    else CompilationErrorOf(outputs[1..])
  }

  /** `addTestCase`: one new visible case with empty input at the end. */
  function AddTestCase(cases: seq<TestCase>, freshId: string): (r: seq<TestCase>)
    ensures |r| == |cases| + 1 && r[..|cases|] == cases
    ensures r[|cases|] == TestCase(freshId, "", None, true)
  {
    cases + [TestCase(freshId, "", None, true)]
  }

  function HasOtherId(id: string): TestCase -> bool {
    (tc: TestCase) => tc.id != id
  }

  /** `removeTestCase`: every case with the id goes; the rest stay, in
      order. */
  function RemoveTestCase(cases: seq<TestCase>, id: string): (r: seq<TestCase>)
    ensures forall i :: 0 <= i < |r| ==> r[i].id != id
    ensures forall tc: TestCase :: tc.id != id ==> multiset(r)[tc] == multiset(cases)[tc]
    ensures Lists.SubsequenceOf(r, cases)
  {
    Lists.FilterKeepsExactly(cases, HasOtherId(id));
    Lists.FilterIsSubsequence(cases, HasOtherId(id));
    Lists.Filter(cases, HasOtherId(id))
  }

  /** `updateTestCase`: only the input of the cases with the id changes. */
  function UpdateTestCase(cases: seq<TestCase>, id: string, value: string): (r: seq<TestCase>)
    ensures |r| == |cases|
    ensures forall i :: 0 <= i < |r| ==>
      r[i].id == cases[i].id && r[i].visible == cases[i].visible && r[i].actualOutput == cases[i].actualOutput
      && r[i].input == (if cases[i].id == id then value else cases[i].input)
  {
    seq(|cases|, i requires 0 <= i < |cases| =>
      if cases[i].id == id then cases[i].(input := value) else cases[i])
  }

  /** `toggleVisibility`: only the visibility of the cases with the id
      flips. */
  function ToggleVisibility(cases: seq<TestCase>, id: string): (r: seq<TestCase>)
    ensures |r| == |cases|
    ensures forall i :: 0 <= i < |r| ==>
      r[i].id == cases[i].id && r[i].input == cases[i].input && r[i].actualOutput == cases[i].actualOutput
      && r[i].visible == (if cases[i].id == id then !cases[i].visible else cases[i].visible)
  {
    seq(|cases|, i requires 0 <= i < |cases| =>
      if cases[i].id == id then cases[i].(visible := !cases[i].visible) else cases[i])
  }

  lemma ToggleTwice(cases: seq<TestCase>, id: string)
    ensures ToggleVisibility(ToggleVisibility(cases, id), id) == cases
  {
    var r := ToggleVisibility(ToggleVisibility(cases, id), id);
    assert forall i :: 0 <= i < |r| ==> r[i] == cases[i];
  }

  /** Updating a case that was just added fills in its input and nothing
      else. */
  lemma UpdateAfterAdd(cases: seq<TestCase>, freshId: string, value: string)
    requires forall i :: 0 <= i < |cases| ==> cases[i].id != freshId
    ensures UpdateTestCase(AddTestCase(cases, freshId), freshId, value)
            == cases + [TestCase(freshId, value, None, true)]
  {
  }

  // ---------------------------------------------------------------------------
  // running the reference solution

  predicate IsCompilationError(output: string) { StartsWith(output, "Compilation Error") }

  /** The `for ... break` scan: the first output that reports a compilation
      error. */
  method FirstCompilationError(outputs: seq<string>) returns (found: Option<string>)
    ensures found == CompilationErrorOf(outputs)
    ensures found.None? <==> forall i :: 0 <= i < |outputs| ==> !IsCompilationError(outputs[i])
    ensures found.Some? ==>
      exists k :: (0 <= k < |outputs| && outputs[k] == found.value && IsCompilationError(outputs[k])
                   && forall i :: 0 <= i < k ==> !IsCompilationError(outputs[i]))
  {
    found := None;
    var i := 0;
    while i < |outputs|
      invariant 0 <= i <= |outputs|
      invariant forall j :: 0 <= j < i ==> !IsCompilationError(outputs[j])
      invariant CompilationErrorOf(outputs[i..]) == CompilationErrorOf(outputs)
    {
      assert outputs[i..][1..] == outputs[i + 1..];
      if IsCompilationError(outputs[i]) {
        found := Some(outputs[i]);
        break;
      }
      i := i + 1;
    }
  }

  /** Case `i` gets the compilation error when there is one, otherwise the
      `i`-th output (missing when the service returned fewer). */
  function MergeOutputs(cases: seq<TestCase>, compilationError: Option<string>, outputs: seq<string>): (r: seq<TestCase>)
    ensures |r| == |cases|
    ensures forall i :: 0 <= i < |r| ==>
      r[i].id == cases[i].id && r[i].input == cases[i].input && r[i].visible == cases[i].visible
    ensures compilationError.Some? ==> forall i :: 0 <= i < |r| ==> r[i].actualOutput == compilationError
    ensures compilationError.None? ==> forall i :: 0 <= i < |r| ==>
      r[i].actualOutput == if i < |outputs| then Some(outputs[i]) else None
  {
    seq(|cases|, i requires 0 <= i < |cases| =>
      cases[i].(actualOutput := if compilationError.Some? then compilationError
                                else if i < |outputs| then Some(outputs[i]) else None))
  }

  /** The saved problem-info draft, as far as running the cases needs it. */
  datatype InfoDraft = InfoDraft(solutionCode: Option<string>)

  datatype ServiceResult = Outputs(outputs: seq<string>) | ServiceFailed(error: Api.Thrown)

  /** The page's message for what the HTTP client threw, as written:
      `error.response?.data?.message || error.message || default`. A thrown
      string has neither property, so the default is always shown; reading
      a property of `undefined` throws (`None`). */
  function ServiceErrorTextAsWritten(e: Api.Thrown): (m: Option<string>)
    ensures e.Thrown? ==> m == Some(DefaultError)
    ensures e.ThrownUndefined? ==> m.None?
  {
    match e
    case Thrown(_) => Some(DefaultError)
    case ThrownUndefined => None
  }

  /** The server's text is never shown as written, whatever it says. */
  lemma ServerTextLost(text: string)
    requires text != "" && text != DefaultError
    ensures ServiceErrorTextAsWritten(Api.Thrown(text)) != Some(text)
  {
  }

  /** The message as intended: the thrown text, or the default when empty. */
  function ServiceErrorText(e: Api.Thrown): (m: Option<string>)
    ensures e.Thrown? && e.text != "" ==> m == Some(e.text)
    ensures e.Thrown? && e.text == "" ==> m == Some(DefaultError)
    ensures e.ThrownUndefined? ==> m.None?
  {
    match e
    case Thrown(text) => Some(if text != "" then text else DefaultError)
    case ThrownUndefined => None
  }

  /** The server's message reaches the user, and the shown text is never
      empty. */
  lemma ServerTextShown(e: Api.Thrown)
    requires e.Thrown?
    ensures ServiceErrorText(e).Some? && ServiceErrorText(e).value != ""
    ensures e.text != "" ==> ServiceErrorText(e).value == e.text
  {
  }

  class TestCasesPanel {
    var testCases: seq<TestCase>
    var saveMessage: string
    var errorMessage: string
    var runningTests: bool
    var lastCompiledCode: Option<string>
    var savedDraft: Option<seq<TestCase>>
    var runRequests: seq<string>

    constructor()
      ensures testCases == [] && saveMessage == "" && errorMessage == "" && !runningTests
      ensures lastCompiledCode == None && savedDraft == None && runRequests == []
    {
      testCases := [];
      saveMessage := "";
      errorMessage := "";
      runningTests := false;
      lastCompiledCode := None;
      savedDraft := None;
      runRequests := [];
    }

    /** The add button: a fresh case at the end of the list. */
    method AddCase(freshId: string)
      modifies this`testCases
      ensures testCases == AddTestCase(old(testCases), freshId)
    {
      testCases := AddTestCase(testCases, freshId);
    }

    method RemoveCase(id: string)
      modifies this`testCases
      ensures testCases == RemoveTestCase(old(testCases), id)
    {
      testCases := RemoveTestCase(testCases, id);
    }

    method UpdateCase(id: string, value: string)
      modifies this`testCases
      ensures testCases == UpdateTestCase(old(testCases), id, value)
    {
      testCases := UpdateTestCase(testCases, id, value);
    }

    method ToggleCase(id: string)
      modifies this`testCases
      ensures testCases == ToggleVisibility(old(testCases), id)
    {
      testCases := ToggleVisibility(testCases, id);
    }

    /** `handleSave`: the list is stored as it is and the success message
        shown; nothing else changes. */
    method HandleSave()
      modifies this`errorMessage, this`saveMessage, this`savedDraft
      ensures errorMessage == "" && saveMessage == SaveSucceeded && savedDraft == Some(testCases)
    {
      errorMessage := "";
      saveMessage := "";
      savedDraft := Some(testCases);
      saveMessage := SaveSucceeded;
    }

    /** `runTestCases`. Without saved info, or with a blank solution, only
        the error is set and nothing is sent. Otherwise the inputs are
        sent; on success every case gets its output (or the compilation
        error), the list is saved and the solution becomes the last
        compiled code; on failure only the error is set. */
    method RunTestCases(info: Option<InfoDraft>, result: ServiceResult) returns (threw: bool)
      modifies this
      ensures !runningTests
      ensures info.None? ==>
        !threw && errorMessage == MissingInfoError && saveMessage == "" && unchanged(this`testCases, this`lastCompiledCode, this`savedDraft, this`runRequests)
      ensures info.Some? && (info.value.solutionCode.None? || IsBlank(info.value.solutionCode.value)) ==>
        !threw && errorMessage == EmptySolutionError && saveMessage == "" && unchanged(this`testCases, this`lastCompiledCode, this`savedDraft, this`runRequests)
      ensures info.Some? && info.value.solutionCode.Some? && !IsBlank(info.value.solutionCode.value) ==>
        (runRequests == old(runRequests) + [info.value.solutionCode.value]
         && (result.Outputs? ==>
               !threw && errorMessage == "" && saveMessage == RunSucceeded
               && lastCompiledCode == info.value.solutionCode && savedDraft == Some(testCases)
               && |testCases| == |old(testCases)|
               && testCases == MergeOutputs(old(testCases), CompilationErrorOf(result.outputs), result.outputs))
         && (result.ServiceFailed? ==>
               (threw <==> result.error.ThrownUndefined?) && saveMessage == ""
               && (threw ==> errorMessage == "")
               && (!threw ==> errorMessage == ServiceErrorText(result.error).value)
               && unchanged(this`testCases, this`lastCompiledCode, this`savedDraft)))
    {
      runningTests := true;
      saveMessage := "";
      errorMessage := "";
      threw := false;
      if info.None? {
        errorMessage := MissingInfoError;
      } else if info.value.solutionCode.None? || IsBlank(info.value.solutionCode.value) {
        errorMessage := EmptySolutionError;
      } else {
        var code := info.value.solutionCode.value;
        runRequests := runRequests + [code];
        match result {
          case Outputs(outputs) =>
            var compilationError := FirstCompilationError(outputs);
            var updated := MergeOutputs(testCases, compilationError, outputs);
            testCases := updated;
            saveMessage := RunSucceeded;
            lastCompiledCode := Some(code);
            savedDraft := Some(updated);
          case ServiceFailed(e) =>
            var msg := ServiceErrorText(e);
            if msg.None? {
              threw := true;
            } else {
              errorMessage := msg.value;
            }
        }
      }
      runningTests := false;
    }
  }
}
