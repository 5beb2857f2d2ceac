/** The live match-state page: the id guard, each player's submissions
    sorted newest first, the left/right pairing of the two players' logs and
    the status text of a submission row. Submission times are given as
    millisecond timestamps (date parsing is not modelled). */
module MatchState {
  import opened Text

  datatype Outcome<T> = Ok(value: T) | Failed

  datatype Submission = Submission(
    submissionId: int,
    submittedAt: int,
    status: string,
    numberOfCurrentTestCase: Option<nat>,
    numberOfTotalTestCases: Option<nat>)

  /** A player's log; `username` is optional in the response. */
  datatype PlayerLog = PlayerLog(username: Option<string>, rank: string, submissions: seq<Submission>)

  /** The id the page fetches for, or `None` when the route id is missing,
      not a number or zero (no fetch is made and loading ends). */
  function FetchTarget(matchIdString: Option<string>): (r: Option<int>)
    ensures r.Some? <==> matchIdString.Some? && matchIdString.value != ""
                         && ToNumber(matchIdString.value).Some? && ToNumber(matchIdString.value).value != 0
    ensures r.Some? ==> r == ToNumber(matchIdString.value) && r.value != 0
  {
    if matchIdString.None? || matchIdString.value == "" then None
    else
      var n := ToNumber(matchIdString.value);
      if n.None? || n.value == 0 then None else n
  }

  /** Newest first: no submission precedes a later one. */
  predicate NewestFirst(s: seq<Submission>) {
    forall k, l :: 0 <= k < l < |s| ==> s[k].submittedAt >= s[l].submittedAt
  }

  method Swap(a: array<Submission>, i: int, j: int)
    requires 0 <= i < a.Length && 0 <= j < a.Length
    modifies a
    ensures a[..] == old(a[..])[i := old(a[j])][j := old(a[i])]
    ensures multiset(a[..]) == multiset(old(a[..]))
  {
    a[i], a[j] := a[j], a[i];
  }

  /** The in-place `sort` of one player's submissions, newest first. */
  method SortNewestFirst(a: array<Submission>)
    modifies a
    ensures NewestFirst(a[..])
    ensures multiset(a[..]) == multiset(old(a[..]))
  {
    var i := 0;
    while i < a.Length
      invariant 0 <= i <= a.Length
      invariant forall k, l :: 0 <= k < l < i ==> a[k].submittedAt >= a[l].submittedAt
      invariant multiset(a[..]) == multiset(old(a[..]))
    {
      var j := i;
      while j > 0 && a[j - 1].submittedAt < a[j].submittedAt
        invariant 0 <= j <= i
        invariant forall k, l :: 0 <= k < l <= i && l != j ==> a[k].submittedAt >= a[l].submittedAt
        invariant 0 < j < i ==> a[j - 1].submittedAt >= a[j + 1].submittedAt
        invariant multiset(a[..]) == multiset(old(a[..]))
      {
        Swap(a, j - 1, j);
        j := j - 1;
      }
      i := i + 1;
    }
  }

  /** `log.username?.trim().toLowerCase() === cleanMe`: an absent username
      never matches. */
  predicate IsMine(log: PlayerLog, cleanMe: string) {
    log.username.Some? && ToLower(Trim(log.username.value)) == cleanMe
  }

  function FirstMine(logs: seq<PlayerLog>, cleanMe: string): (r: Option<nat>)
    ensures r.Some? ==> (r.value < |logs| && IsMine(logs[r.value], cleanMe)
                         && forall i :: 0 <= i < r.value ==> !IsMine(logs[i], cleanMe))
    ensures r.None? ==> forall i :: 0 <= i < |logs| ==> !IsMine(logs[i], cleanMe)
  {
    if logs == [] then None
    else if IsMine(logs[0], cleanMe) then Some(0)
    else match FirstMine(logs[1..], cleanMe)
      case None => None
      case Some(k) => Some(k + 1)
  }

  function FirstOther(logs: seq<PlayerLog>, cleanMe: string): (r: Option<nat>)
    ensures r.Some? ==> (r.value < |logs| && !IsMine(logs[r.value], cleanMe)
                         && forall i :: 0 <= i < r.value ==> IsMine(logs[i], cleanMe))
    ensures r.None? ==> forall i :: 0 <= i < |logs| ==> IsMine(logs[i], cleanMe)
  {
    if logs == [] then None
    else if !IsMine(logs[0], cleanMe) then Some(0)
    else match FirstOther(logs[1..], cleanMe)
      case None => None
      case Some(k) => Some(k + 1)
  }

  function At(logs: seq<PlayerLog>, i: Option<nat>): Option<PlayerLog> {
    if i.Some? && i.value < |logs| then Some(logs[i.value]) else None
  }

  /** The `[leftPlayer, rightPlayer]` memo, as indices into `logs`. */
  function PairIndices(logs: seq<PlayerLog>, myUsername: Option<string>): (r: (Option<nat>, Option<nat>))
    ensures logs == [] ==> r == (None, None)
    ensures r.0.Some? ==> r.0.value < |logs|
    ensures r.1.Some? ==> r.1.value < |logs|
  {
    if logs == [] then (None, None)
    else
      var cleanMe := if myUsername.Some? then ToLower(Trim(myUsername.value)) else [];
      if myUsername.Some? && myUsername.value != "" && FirstMine(logs, cleanMe).Some? then
        (FirstMine(logs, cleanMe), FirstOther(logs, cleanMe))
      else (Some(0), if |logs| > 1 then Some(1) else None)
  }

  function Pair(logs: seq<PlayerLog>, myUsername: Option<string>): (Option<PlayerLog>, Option<PlayerLog>) {
    var p := PairIndices(logs, myUsername);
    (At(logs, p.0), At(logs, p.1))
  }

  /** When the user's own log is present it is on the left, and the right is
      a different log whose normalised name differs, or nothing. */
  lemma {:induction false} PairPutsUserLeft(logs: seq<PlayerLog>, me: string)
    requires me != ""
    requires exists i :: 0 <= i < |logs| && IsMine(logs[i], ToLower(Trim(me)))
    ensures var p := PairIndices(logs, Some(me));
      p.0.Some? && IsMine(logs[p.0.value], ToLower(Trim(me)))
      && (p.1.Some? ==> p.1.value != p.0.value && !IsMine(logs[p.1.value], ToLower(Trim(me))))
      && (p.1.None? ==> forall i :: 0 <= i < |logs| ==> IsMine(logs[i], ToLower(Trim(me))))
  {
    var cleanMe := ToLower(Trim(me));
    var i :| 0 <= i < |logs| && IsMine(logs[i], cleanMe);
    assert FirstMine(logs, cleanMe).Some?;
  }

  /** Without the user's log, or without a user, the first two logs are
      shown in order. */
  lemma PairFallsBackToOrder(logs: seq<PlayerLog>, myUsername: Option<string>)
    requires |logs| >= 2
    requires myUsername.None? || myUsername.value == ""
             || forall i :: 0 <= i < |logs| ==> !IsMine(logs[i], ToLower(Trim(myUsername.value)))
    ensures Pair(logs, myUsername) == (Some(logs[0]), Some(logs[1]))
  {
  }

  datatype StatusText = Running(text: string) | Displayed(status: string)

  const RunningOnTest: string := "RUNNING_ON_TEST"
  const RunningPrefix: string := "Running on Test "

  /** The status cell: RUNNING_ON_TEST shows the current and total test
      counts, 0 when missing; any other status shows its display name, a
      table lookup not modelled here. */
  function StatusTextOf(s: Submission): (t: StatusText)
    ensures t.Running? <==> s.status == RunningOnTest
    ensures t.Displayed? ==> t.status == s.status
    ensures t.Running? ==> StartsWith(t.text, RunningPrefix)
  {
    if s.status == RunningOnTest then
      Running(RunningPrefix + NatToString(s.numberOfCurrentTestCase.GetOr(0)) + " / "
              + NatToString(s.numberOfTotalTestCases.GetOr(0)))
    else Displayed(s.status)
  }

  /** Reading the number after the prefix gives the current test case, 0
      when it is missing. */
  lemma {:induction false} RunningTextReadsBack(s: Submission)
    requires s.status == RunningOnTest
    ensures ParseIntOrZero(StatusTextOf(s).text[|RunningPrefix|..]) == s.numberOfCurrentTestCase.GetOr(0)
  {
    var c := NatToString(s.numberOfCurrentTestCase.GetOr(0));
    var rest := " / " + NatToString(s.numberOfTotalTestCases.GetOr(0));
    assert StatusTextOf(s).text[|RunningPrefix|..] == c + rest;
    ParseIntOfNatToString(s.numberOfCurrentTestCase.GetOr(0), rest);
  }

  /** The text holds one slash; after it and a space comes the total test
      count, 0 when it is missing. */
  lemma {:induction false} RunningTextReadsBackTotal(s: Submission)
    requires s.status == RunningOnTest
    ensures var parts := Split(StatusTextOf(s).text, '/');
      |parts| == 2 && |parts[1]| >= 1 && parts[1][0] == ' '
      && ParseIntOrZero(parts[1][1..]) == s.numberOfTotalTestCases.GetOr(0)
  {
    assert '/' !in RunningPrefix;
    TotalAfterSlash(RunningPrefix, s.numberOfCurrentTestCase.GetOr(0), s.numberOfTotalTestCases.GetOr(0));
  }

  lemma {:induction false} TotalAfterSlash(prefix: string, current: nat, total: nat)
    requires '/' !in prefix
    ensures var parts := Split(prefix + NatToString(current) + " / " + NatToString(total), '/');
      |parts| == 2 && |parts[1]| >= 1 && parts[1][0] == ' '
      && ParseIntOrZero(parts[1][1..]) == total
  {
    var c := NatToString(current);
    var t := NatToString(total);
    var a := prefix + c + " ";
    var b := " " + t;
    assert prefix + c + " / " + t == a + ['/'] + b;
    DigitsLackSlash(c);
    DigitsLackSlash(t);
    SplitAtFirst(a, '/', b);
    SplitWithoutSeparator(b, '/');
    assert b[1..] == t + [];
    ParseIntOfNatToString(total, []);
  }

  lemma DigitsLackSlash(s: string)
    requires AllDigits(s)
    ensures '/' !in s
  {
    forall i | 0 <= i < |s| ensures s[i] != '/' {
      assert IsDigit(s[i]);
    }
  }

  class MatchStatePage {
    var logs: seq<PlayerLog>
    var loading: bool
    var fetches: seq<int>

    constructor()
      ensures logs == [] && loading && fetches == []
    {
      logs := [];
      loading := true;
      fetches := [];
    }

    /** The fetch effect's guard; `target` is the id fetched for, if any. */
    method Start(matchIdString: Option<string>) returns (target: Option<int>)
      modifies this
      ensures target == FetchTarget(matchIdString)
      ensures target.None? ==> !loading && fetches == old(fetches)
      ensures target.Some? ==> loading == old(loading) && fetches == old(fetches) + [target.value]
      ensures logs == old(logs)
    {
      target := FetchTarget(matchIdString);
      if target.None? {
        loading := false;
        return;
      }
      fetches := fetches + [target.value];
    }

    /** One `fetchLogs` response: an array response replaces the logs with
        each player's submissions sorted newest first; a non-array response
        (`Ok(None)`) or a failure keeps them. Loading ends either way. */
    method ReceiveLogs(data: Outcome<Option<seq<PlayerLog>>>)
      modifies this
      ensures !loading && fetches == old(fetches)
      ensures data.Failed? || data.value.None? ==> logs == old(logs)
      ensures data.Ok? && data.value.Some? ==>
        |logs| == |data.value.value|
        && forall k :: 0 <= k < |logs| ==>
             logs[k].username == data.value.value[k].username && logs[k].rank == data.value.value[k].rank
             && NewestFirst(logs[k].submissions)
             && multiset(logs[k].submissions) == multiset(data.value.value[k].submissions)
    {
      if data.Ok? && data.value.Some? {
        var incoming := data.value.value;
        var sorted: seq<PlayerLog> := [];
        var i := 0;
        while i < |incoming|
          invariant 0 <= i <= |incoming| && |sorted| == i
          invariant fetches == old(fetches)
          invariant forall k :: 0 <= k < i ==>
            sorted[k].username == incoming[k].username && sorted[k].rank == incoming[k].rank
            && NewestFirst(sorted[k].submissions)
            && multiset(sorted[k].submissions) == multiset(incoming[k].submissions)
        {
          var a := new Submission[|incoming[i].submissions|](k requires 0 <= k < |incoming[i].submissions| => incoming[i].submissions[k]);
          assert a[..] == incoming[i].submissions;
          SortNewestFirst(a);
          sorted := sorted + [incoming[i].(submissions := a[..])];
          i := i + 1;
        }
        logs := sorted;
      }
      loading := false;
    }
  }
}
