/** The "problem info" tab of the suggest-problem wizard: topic toggling,
    tag-name formatting, and the checks run before a suggestion is sent. */
module ProblemInfo {
  import opened Text
  import Lists
  import NotificationFormat

  /** `handleTopicToggle`: drop the tag everywhere if it is selected,
      append it otherwise. */
  function ToggleTopic(prev: seq<string>, tag: string): (r: seq<string>)
    ensures tag in r <==> tag !in prev
    ensures forall t :: t != tag ==> multiset(r)[t] == multiset(prev)[t]
  {
    if tag in prev then
      Lists.RemoveAllFacts(prev, tag);
      Lists.RemoveAll(prev, tag)
    else
      assert multiset(prev + [tag]) == multiset(prev) + multiset{tag};
      prev + [tag]
  }

  /** Selecting a topic and then deselecting it restores the list. */
  lemma ToggleTopicTwice(prev: seq<string>, tag: string)
    requires tag !in prev
    ensures ToggleTopic(ToggleTopic(prev, tag), tag) == prev
  {
    FilterDropsLast(prev, tag);
  }

  lemma {:induction false} FilterDropsLast(s: seq<string>, x: string)
    requires x !in s
    ensures Lists.RemoveAll(s + [x], x) == s
    decreases |s|
  {
    if s == [] {
      assert Lists.Filter([x], Lists.Different(x)) == Lists.Filter([], Lists.Different(x));
    } else {
      assert (s + [x])[1..] == s[1..] + [x];
      FilterDropsLast(s[1..], x);
    }
  }

  /** `formatTagName`: a space for each underscore, each word's first
      character kept and the rest lower-cased. */
  function FormatTagName(tag: string): (r: string)
    ensures |r| == |tag|
    ensures forall i :: 0 <= i < |tag| ==> r[i] == NotificationFormat.LabelChar(tag, i)
  {
    NotificationFormat.FormatTypeLabelPointwise(tag);
    NotificationFormat.FormatTypeLabel(tag)
  }

  // ---------------------------------------------------------------------------
  // the checks made before a suggestion is sent

  /** The statement tab's saved draft; a missing field is `None`. */
  datatype StatementDraft = StatementDraft(title: Option<string>, statement: Option<string>,
                                           inputFormat: Option<string>, outputFormat: Option<string>,
                                           notes: Option<string>)

  /** A saved test case: its input and the output of the last run, if any. */
  datatype TestCaseDraft = TestCaseDraft(input: Option<string>, actualOutput: Option<string>)

  /** One reason not to send the suggestion; `Message` gives its text. */
  datatype Issue =
    | TitleRequired | TitleTooLong | StatementRequired | StatementTooLong
    | InputFormatRequired | InputFormatTooLong | OutputFormatRequired | OutputFormatTooLong
    | NotesTooLong | SolutionRequired | SolutionTooLong
    | NoTestCases | TooManyTestCases | TestCaseTooLarge(index: nat)
    | NotRun | CodeChanged | CompilationFailed

  function Message(issue: Issue): string {
    match issue
    case TitleRequired => "Title is required."
    case TitleTooLong => "Title exceeds 200 characters."
    case StatementRequired => "Problem statement is required."
    case StatementTooLong => "Statement exceeds 10,000 characters."
    case InputFormatRequired => "Input Format description is required."
    case InputFormatTooLong => "Input Format exceeds 2000 chars."
    case OutputFormatRequired => "Output Format description is required."
    case OutputFormatTooLong => "Output Format exceeds 2000 chars."
    case NotesTooLong => "Notes exceed 5000 chars."
    case SolutionRequired => "Solution code is required."
    case SolutionTooLong => "Solution code exceeds 50,000 characters."
    case NoTestCases => "At least one test case is required."
    case TooManyTestCases => "Maximum 10 test cases allowed."
    case TestCaseTooLarge(index) => "Test case " + NatToString(index + 1) + " exceeds size limit (10^5)."
    case NotRun => "You must 'Run Test Cases' in the Test Cases tab before suggesting the problem."
    case CodeChanged => "The code in the editor has changed since your last test run."
    case CompilationFailed => "Reference solution has compilation errors in Test Cases. Please fix before submitting."
  }

  /** The message of each issue, in order. */
  function Messages(issues: seq<Issue>): seq<string> {
    Lists.Map(issues, Message)
  }

  /** `!x?.trim()`: missing or only whitespace. */
  predicate Blank(s: Option<string>) { s.None? || IsBlank(s.value) }

  /** `x?.length > n`: present and longer than `n`. */
  predicate Longer(s: Option<string>, n: int) { s.Some? && JsLength(s.value) > n }

  predicate Unrun(tc: TestCaseDraft) { tc.actualOutput.None? || tc.actualOutput.value == "" }

  predicate CompileFailed(tc: TestCaseDraft) {
    tc.actualOutput.Some? && StartsWith(tc.actualOutput.value, "Compilation Error")
  }

  predicate AnyUnrun(cases: seq<TestCaseDraft>) { exists j :: 0 <= j < |cases| && Unrun(cases[j]) }

  predicate AnyCompileFailed(cases: seq<TestCaseDraft>) { exists j :: 0 <= j < |cases| && CompileFailed(cases[j]) }

  function IssueIf(failed: bool, issue: Issue): (r: seq<Issue>)
    ensures |r| <= 1 && (issue in r <==> failed) && forall x :: x in r ==> x == issue
  {
    if failed then [issue] else []
  }

  /** An input or output format: 'required' when blank, otherwise the
      length check. */
  function FormatIssue(field: Option<string>, required: Issue, tooLong: Issue): (r: seq<Issue>)
    ensures |r| <= 1 && forall x :: x in r ==> x == required || x == tooLong
    ensures required != tooLong ==>
      (required in r <==> Blank(field)) && (tooLong in r <==> !Blank(field) && JsLength(field.value) > 2000)
  {
    if Blank(field) then [required] else if JsLength(field.value) > 2000 then [tooLong] else []
  }

  /** The statement and solution checks, in the order they are made. */
  function DraftIssues(d: StatementDraft, code: string): (r: seq<Issue>)
    ensures NoTestCases !in r && TooManyTestCases !in r
  {
    TextIssues(d) + FormatIssues(d) + SolutionIssues(code)
  }

  function TextIssues(d: StatementDraft): (r: seq<Issue>)
    ensures NoTestCases !in r && TooManyTestCases !in r
  {
    IssueIf(Blank(d.title), TitleRequired) + IssueIf(Longer(d.title, 200), TitleTooLong)
    + IssueIf(Blank(d.statement), StatementRequired) + IssueIf(Longer(d.statement, 10000), StatementTooLong)
  }

  function FormatIssues(d: StatementDraft): (r: seq<Issue>)
    ensures NoTestCases !in r && TooManyTestCases !in r
  {
    FormatIssue(d.inputFormat, InputFormatRequired, InputFormatTooLong)
    + FormatIssue(d.outputFormat, OutputFormatRequired, OutputFormatTooLong)
    + IssueIf(Longer(d.notes, 5000), NotesTooLong)
  }

  function SolutionIssues(code: string): (r: seq<Issue>)
    ensures NoTestCases !in r && TooManyTestCases !in r
  {
    IssueIf(IsBlank(code), SolutionRequired) + IssueIf(JsLength(code) > 50000, SolutionTooLong)
  }

  /** The count check as intended: one message for none, one for too many. */
  function CountIssues(n: nat): seq<Issue> {
    if n == 0 then [NoTestCases] else if n > 10 then [TooManyTestCases] else []
  }

  /** The count checks as the page makes them: the pair of single checks
      followed by the same test again as an if/else. */
  function CountIssuesAsWritten(n: nat): seq<Issue> {
    IssueIf(n == 0, NoTestCases) + IssueIf(n > 10, TooManyTestCases) + CountIssues(n)
  }

  /** The size messages for the first `k` cases, in index order. */
  function SizeIssues(cases: seq<TestCaseDraft>, k: nat): seq<Issue>
    requires k <= |cases|
  {
    if k == 0 then [] else SizeIssues(cases, k - 1) + IssueIf(Longer(cases[k - 1].input, 100000), TestCaseTooLarge(k - 1))
  }

  /** At most one run-state message: unrun cases first, then a solution
      edited since the last run, then a compilation error. */
  function RunIssues(cases: seq<TestCaseDraft>, code: string, lastTestedCode: string): (r: seq<Issue>)
    ensures NoTestCases !in r && TooManyTestCases !in r
  {
    if AnyUnrun(cases) && |cases| > 0 then [NotRun]
    else if |cases| > 0 && Trim(code) != Trim(lastTestedCode) then [CodeChanged]
    else if AnyCompileFailed(cases) then [CompilationFailed]
    else []
  }

  function SuggestionIssues(d: StatementDraft, code: string, cases: seq<TestCaseDraft>, lastTestedCode: string): seq<Issue> {
    DraftIssues(d, code) + CountIssues(|cases|) + SizeIssues(cases, |cases|) + RunIssues(cases, code, lastTestedCode)
  }

  function SuggestionIssuesAsWritten(d: StatementDraft, code: string, cases: seq<TestCaseDraft>,
                                     lastTestedCode: string): seq<Issue>
  {
    DraftIssues(d, code) + CountIssuesAsWritten(|cases|) + SizeIssues(cases, |cases|)
    + RunIssues(cases, code, lastTestedCode)
  }

  /** The statement and solution checks, pushed one by one. */
  method CheckDraft(d: StatementDraft, code: string) returns (issues: seq<Issue>)
    ensures issues == DraftIssues(d, code)
  {
    var text := CheckText(d);
    var formats := CheckFormats(d);
    var solution := CheckSolution(code);
    issues := text + formats + solution;
  }

  method CheckText(d: StatementDraft) returns (issues: seq<Issue>)
    ensures issues == TextIssues(d)
  {
    issues := [];
    if Blank(d.title) { issues := issues + [TitleRequired]; }
    assert issues == IssueIf(Blank(d.title), TitleRequired);
    if d.title.Some? && JsLength(d.title.value) > 200 { issues := issues + [TitleTooLong]; }
    assert issues == IssueIf(Blank(d.title), TitleRequired) + IssueIf(Longer(d.title, 200), TitleTooLong);
    if Blank(d.statement) { issues := issues + [StatementRequired]; }
    assert issues == IssueIf(Blank(d.title), TitleRequired) + IssueIf(Longer(d.title, 200), TitleTooLong)
      + IssueIf(Blank(d.statement), StatementRequired);
    if d.statement.Some? && JsLength(d.statement.value) > 10000 { issues := issues + [StatementTooLong]; }
  }

  method CheckFormats(d: StatementDraft) returns (issues: seq<Issue>)
    ensures issues == FormatIssues(d)
  {
    issues := [];
    if Blank(d.inputFormat) {
      issues := issues + [InputFormatRequired];
    } else if JsLength(d.inputFormat.value) > 2000 {
      issues := issues + [InputFormatTooLong];
    }
    assert issues == FormatIssue(d.inputFormat, InputFormatRequired, InputFormatTooLong);
    if Blank(d.outputFormat) {
      issues := issues + [OutputFormatRequired];
    } else if JsLength(d.outputFormat.value) > 2000 {
      issues := issues + [OutputFormatTooLong];
    }
    assert issues == FormatIssue(d.inputFormat, InputFormatRequired, InputFormatTooLong)
      + FormatIssue(d.outputFormat, OutputFormatRequired, OutputFormatTooLong);
    if d.notes.Some? && JsLength(d.notes.value) > 5000 { issues := issues + [NotesTooLong]; }
  }

  method CheckSolution(code: string) returns (issues: seq<Issue>)
    ensures issues == SolutionIssues(code)
  {
    issues := [];
    if IsBlank(code) { issues := issues + [SolutionRequired]; }
    if JsLength(code) > 50000 { issues := issues + [SolutionTooLong]; }
  }

  /** The `forEach` over the test cases: size messages in index order, and
      whether some case is unrun or failed to compile. */
  method ScanTestCases(cases: seq<TestCaseDraft>) returns (sizeIssues: seq<Issue>, hasUnrun: bool, hasCompilationError: bool)
    ensures sizeIssues == SizeIssues(cases, |cases|)
    ensures hasUnrun <==> AnyUnrun(cases)
    ensures hasCompilationError <==> AnyCompileFailed(cases)
  {
    sizeIssues, hasUnrun, hasCompilationError := [], false, false;
    var i := 0;
    while i < |cases|
      invariant 0 <= i <= |cases|
      invariant sizeIssues == SizeIssues(cases, i)
      invariant hasUnrun <==> exists j :: 0 <= j < i && Unrun(cases[j])
      invariant hasCompilationError <==> exists j :: 0 <= j < i && CompileFailed(cases[j])
    {
      var tc := cases[i];
      if tc.input.Some? && JsLength(tc.input.value) > 100000 {
        sizeIssues := sizeIssues + [TestCaseTooLarge(i)];
      }
      if tc.actualOutput.None? || tc.actualOutput.value == "" {
        hasUnrun := true;
      }
      if tc.actualOutput.Some? && StartsWith(tc.actualOutput.value, "Compilation Error") {
        hasCompilationError := true;
      }
      i := i + 1;
    }
  }

  /** The run-state message, chosen from the flags the scan set. */
  method CheckRunState(n: nat, hasUnrun: bool, hasCompilationError: bool, code: string, lastTestedCode: string)
    returns (issues: seq<Issue>)
    ensures |issues| <= 1
    ensures forall x :: x in issues ==> x == NotRun || x == CodeChanged || x == CompilationFailed
    ensures NotRun in issues <==> hasUnrun && n > 0
    ensures CodeChanged in issues <==> !(hasUnrun && n > 0) && n > 0 && Trim(code) != Trim(lastTestedCode)
    ensures CompilationFailed in issues <==>
      !(hasUnrun && n > 0) && !(n > 0 && Trim(code) != Trim(lastTestedCode)) && hasCompilationError
  {
    issues := [];
    if hasUnrun && n > 0 {
      issues := issues + [NotRun];
    } else if n > 0 && Trim(code) != Trim(lastTestedCode) {
      issues := issues + [CodeChanged];
    } else if hasCompilationError {
      issues := issues + [CompilationFailed];
    }
  }

  /** The validation block of `handleSuggestProblem` as the page has it. */
  method ValidateSuggestionAsWritten(d: StatementDraft, code: string, cases: seq<TestCaseDraft>, lastTestedCode: string)
    returns (issues: seq<Issue>)
    ensures issues == SuggestionIssuesAsWritten(d, code, cases, lastTestedCode)
  {
    issues := CheckDraft(d, code);
    if |cases| == 0 { issues := issues + [NoTestCases]; }
    if |cases| > 10 { issues := issues + [TooManyTestCases]; }
    if |cases| == 0 {
      issues := issues + [NoTestCases];
    } else if |cases| > 10 {
      issues := issues + [TooManyTestCases];
    }
    assert issues == DraftIssues(d, code) + CountIssuesAsWritten(|cases|);
    var sizeIssues, hasUnrun, hasCompilationError := ScanTestCases(cases);
    var runIssues := CheckRunState(|cases|, hasUnrun, hasCompilationError, code, lastTestedCode);
    RunIssuesUnique(cases, code, lastTestedCode, runIssues);
    issues := issues + sizeIssues + runIssues;
  }

  /** The validation block with the count checked once. */
  method ValidateSuggestion(d: StatementDraft, code: string, cases: seq<TestCaseDraft>, lastTestedCode: string)
    returns (issues: seq<Issue>)
    ensures issues == SuggestionIssues(d, code, cases, lastTestedCode)
  {
    issues := CheckDraft(d, code);
    if |cases| == 0 {
      issues := issues + [NoTestCases];
    } else if |cases| > 10 {
      issues := issues + [TooManyTestCases];
    }
    assert issues == DraftIssues(d, code) + CountIssues(|cases|);
    var sizeIssues, hasUnrun, hasCompilationError := ScanTestCases(cases);
    var runIssues := CheckRunState(|cases|, hasUnrun, hasCompilationError, code, lastTestedCode);
    RunIssuesUnique(cases, code, lastTestedCode, runIssues);
    issues := issues + sizeIssues + runIssues;
  }

  /** A list of at most one run-state message determined by membership is
      the run-state message list. */
  lemma RunIssuesUnique(cases: seq<TestCaseDraft>, code: string, lastTestedCode: string, issues: seq<Issue>)
    requires |issues| <= 1
    requires NotRun in issues <==> AnyUnrun(cases) && |cases| > 0
    requires CodeChanged in issues <==> !(AnyUnrun(cases) && |cases| > 0) && |cases| > 0 && Trim(code) != Trim(lastTestedCode)
    requires CompilationFailed in issues <==>
      !(AnyUnrun(cases) && |cases| > 0) && !(|cases| > 0 && Trim(code) != Trim(lastTestedCode)) && AnyCompileFailed(cases)
    requires forall x :: x in issues ==> x == NotRun || x == CodeChanged || x == CompilationFailed
    ensures issues == RunIssues(cases, code, lastTestedCode)
  {
    if issues != [] {
      assert issues[0] in issues;
    }
  }

  /** The size messages name exactly the oversized cases, by index. */
  lemma {:induction false} SizeIssuesFacts(cases: seq<TestCaseDraft>, k: nat)
    requires k <= |cases|
    ensures forall x :: x in SizeIssues(cases, k) ==> x.TestCaseTooLarge? && x.index < k
    ensures forall j: nat :: TestCaseTooLarge(j) in SizeIssues(cases, k) <==> j < k && Longer(cases[j].input, 100000)
    ensures SizeIssues(cases, k) == [] <==> forall j :: 0 <= j < k ==> !Longer(cases[j].input, 100000)
    decreases k
  {
    if k > 0 {
      SizeIssuesFacts(cases, k - 1);
    }
  }

  /** The count messages come only from the count checks. */
  lemma CountMessagesFromCountChecks(d: StatementDraft, code: string, cases: seq<TestCaseDraft>, lastTestedCode: string)
    ensures var all := SuggestionIssues(d, code, cases, lastTestedCode); var n := CountIssues(|cases|);
      multiset(all)[NoTestCases] == multiset(n)[NoTestCases]
      && multiset(all)[TooManyTestCases] == multiset(n)[TooManyTestCases]
    ensures var all := SuggestionIssuesAsWritten(d, code, cases, lastTestedCode); var n := CountIssuesAsWritten(|cases|);
      multiset(all)[NoTestCases] == multiset(n)[NoTestCases]
      && multiset(all)[TooManyTestCases] == multiset(n)[TooManyTestCases]
  {
    SizeIssuesFacts(cases, |cases|);
    var a, b, c := DraftIssues(d, code), SizeIssues(cases, |cases|), RunIssues(cases, code, lastTestedCode);
    var n, w := CountIssues(|cases|), CountIssuesAsWritten(|cases|);
    CountInMiddle(a, n, b, c, NoTestCases);
    CountInMiddle(a, n, b, c, TooManyTestCases);
    CountInMiddle(a, w, b, c, NoTestCases);
    CountInMiddle(a, w, b, c, TooManyTestCases);
  }

  lemma CountInMiddle(a: seq<Issue>, n: seq<Issue>, b: seq<Issue>, c: seq<Issue>, x: Issue)
    requires x !in a && x !in b && x !in c
    ensures multiset(a + n + b + c)[x] == multiset(n)[x]
  {
    assert multiset(a + n + b + c) == multiset(a) + multiset(n) + multiset(b) + multiset(c);
  }

  /** As written, a list with no test cases reports "At least one test case
      is required." twice, and one with more than ten reports "Maximum 10
      test cases allowed." twice. */
  lemma CountMessageDuplicated(d: StatementDraft, code: string, cases: seq<TestCaseDraft>, lastTestedCode: string)
    ensures |cases| == 0 ==> multiset(SuggestionIssuesAsWritten(d, code, cases, lastTestedCode))[NoTestCases] == 2
    ensures |cases| > 10 ==> multiset(SuggestionIssuesAsWritten(d, code, cases, lastTestedCode))[TooManyTestCases] == 2
  {
    CountMessagesFromCountChecks(d, code, cases, lastTestedCode);
  }

  /** With the count checked once, each count message appears once exactly
      when its condition holds. */
  lemma CountMessageOnce(d: StatementDraft, code: string, cases: seq<TestCaseDraft>, lastTestedCode: string)
    ensures multiset(SuggestionIssues(d, code, cases, lastTestedCode))[NoTestCases] == if |cases| == 0 then 1 else 0
    ensures multiset(SuggestionIssues(d, code, cases, lastTestedCode))[TooManyTestCases] == if |cases| > 10 then 1 else 0
  {
    CountMessagesFromCountChecks(d, code, cases, lastTestedCode);
  }

  /** Everything a suggestion must satisfy to be sent. */
  predicate Acceptable(d: StatementDraft, code: string, cases: seq<TestCaseDraft>, lastTestedCode: string) {
    !Blank(d.title) && JsLength(d.title.value) <= 200
    && !Blank(d.statement) && JsLength(d.statement.value) <= 10000
    && !Blank(d.inputFormat) && JsLength(d.inputFormat.value) <= 2000
    && !Blank(d.outputFormat) && JsLength(d.outputFormat.value) <= 2000
    && !Longer(d.notes, 5000)
    && !IsBlank(code) && JsLength(code) <= 50000
    && 1 <= |cases| <= 10
    && (forall j :: 0 <= j < |cases| ==> !Longer(cases[j].input, 100000))
    && (forall j :: 0 <= j < |cases| ==> !Unrun(cases[j]))
    && Trim(code) == Trim(lastTestedCode)
    && !AnyCompileFailed(cases)
  }

  /** The suggestion is held back exactly when one of the checks fails. */
  lemma NoIssuesIffAcceptable(d: StatementDraft, code: string, cases: seq<TestCaseDraft>, lastTestedCode: string)
    ensures SuggestionIssues(d, code, cases, lastTestedCode) == [] <==> Acceptable(d, code, cases, lastTestedCode)
  {
    SizeIssuesFacts(cases, |cases|);
  }

  /** At most one run-state message is ever reported, and a case that was
      never run hides the other two. */
  lemma OneRunStateMessage(cases: seq<TestCaseDraft>, code: string, lastTestedCode: string)
    ensures |RunIssues(cases, code, lastTestedCode)| <= 1
    ensures AnyUnrun(cases) ==> RunIssues(cases, code, lastTestedCode) == [NotRun]
  {
  }

  /** The error line the form shows: every issue's message, joined with
      spaces; nothing when there is no issue. */
  function ShownError(issues: seq<Issue>): (r: string)
    ensures issues == [] ==> r == ""
    ensures issues != [] ==> r == Join(Messages(issues), " ")
  {
    if issues == [] then "" else Join(Messages(issues), " ")
  }

  /** The suggest-problem form's own state. */
  class ProblemInfoForm {
    var selectedTopics: seq<string>
    var solutionCode: string
    var errorMessage: string
    var saveMessage: string
    var isSubmitting: bool
    var sent: nat

    constructor()
      ensures selectedTopics == [] && solutionCode == "" && errorMessage == "" && saveMessage == ""
      ensures !isSubmitting && sent == 0
    {
      selectedTopics := [];
      solutionCode := "";
      errorMessage := "";
      saveMessage := "";
      isSubmitting := false;
      sent := 0;
    }

    method HandleTopicToggle(tag: string)
      modifies this`selectedTopics
      ensures selectedTopics == ToggleTopic(old(selectedTopics), tag)
    {
      selectedTopics := ToggleTopic(selectedTopics, tag);
    }

    /** `handleSuggestProblem` up to the service call: any issue is shown,
        joined with spaces, and nothing is sent; otherwise the suggestion
        is sent. The submitting flag is off when the handler ends. */
    method HandleSuggestProblem(d: StatementDraft, cases: seq<TestCaseDraft>, lastTestedCode: string)
      returns (issues: seq<Issue>)
      modifies this`errorMessage, this`saveMessage, this`isSubmitting, this`sent
      ensures issues == SuggestionIssues(d, old(solutionCode), cases, lastTestedCode)
      ensures errorMessage == ShownError(issues) && sent == old(sent) + (if issues == [] then 1 else 0)
      ensures saveMessage == "" && !isSubmitting
    {
      var code := solutionCode;
      issues := ValidateSuggestion(d, code, cases, lastTestedCode);
      Respond(issues);
    }

    /** The handler's effect on the form once the issues are known: the
        messages are cleared and the submitting flag raised; then any
        issue is shown and nothing is sent, or the suggestion is sent. */
    method Respond(issues: seq<Issue>)
      modifies this`errorMessage, this`saveMessage, this`isSubmitting, this`sent
      ensures errorMessage == ShownError(issues) && sent == old(sent) + (if issues == [] then 1 else 0)
      ensures saveMessage == "" && !isSubmitting
    {
      errorMessage := "";
      saveMessage := "";
      isSubmitting := true;
      if |issues| > 0 {
        errorMessage := Join(Messages(issues), " ");
        isSubmitting := false;
        return;
      }
      sent := sent + 1;
      isSubmitting := false;
    }
  }
}
