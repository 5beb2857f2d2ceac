/** The match page: the match's state as the page sees it, the reaction to
    match-ending notifications, the results overlay and resigning. REST
    outcomes are parameters; the one-second delay before the results fetch
    that a MATCH_COMPLETED notification schedules is a counter of pending
    fetches, each run later by `RunScheduledFetch`. */
module PlayGameMatch {
  import opened Text
  import Notifications
  import SessionStore
  import MatchResults

  datatype Outcome<T> = Ok(value: T) | Failed

  datatype MatchData = MatchData(startAt: string, duration: int, state: string, problemId: Option<int>)

  datatype MatchDetails = MatchDetails(startAt: string, duration: int, matchState: string, problemId: Option<int>)

  /** Outbound requests; the id is `Number(id)`, `None` for NaN. */
  datatype Request =
    | UpdateStatusToInMatch | UpdateStatusToOnline
    | GetMatchDetails(id: Option<int>) | GetMatchResults(id: Option<int>) | ResignMatch(id: Option<int>)

  const ResignFailedAlert: string := "Failed to resign."

  /** The functional update `prev ? { ...prev, state: "COMPLETED" } : null`. */
  function MarkCompleted(d: Option<MatchData>): (r: Option<MatchData>)
    ensures r.Some? <==> d.Some?
    ensures r.Some? ==> (r.value.state == "COMPLETED" && r.value.startAt == d.value.startAt
                         && r.value.duration == d.value.duration && r.value.problemId == d.value.problemId)
  {
    match d
    case None => None
    case Some(m) => Some(m.(state := "COMPLETED"))
  }

  /** Every handler but the initial load leaves the state as it was or sets it
      to COMPLETED. */
  predicate CompletesOrKeeps(before: Option<MatchData>, after: Option<MatchData>) {
    after == before || after == MarkCompleted(before)
  }

  /** The notifications the page reacts to: unread, for the match whose id
      is `target` (`Number` of the route id, `None` for NaN, which equals
      nothing), and of type MATCH_COMPLETED or USER_RESIGNED. */
  predicate Relevant(n: Notifications.Notification, target: Option<int>) {
    n.metadata.matchId.Some? && target == Some(n.metadata.matchId.value) && !n.read
    && (n.metadata.notificationType == Some("MATCH_COMPLETED") || n.metadata.notificationType == Some("USER_RESIGNED"))
  }

  function RelevantOf(list: seq<Notifications.Notification>, target: Option<int>): (r: seq<Notifications.Notification>)
    ensures |r| <= |list|
    ensures forall k :: 0 <= k < |r| ==> r[k] in list && Relevant(r[k], target)
    ensures forall n :: n in list && Relevant(n, target) ==> n in r
  {
    if list == [] then []
    else (if Relevant(list[0], target) then [list[0]] else []) + RelevantOf(list[1..], target)
  }

  function CountCompleted(list: seq<Notifications.Notification>): nat {
    if list == [] then 0
    else (if list[0].metadata.notificationType == Some("MATCH_COMPLETED") then 1 else 0) + CountCompleted(list[1..])
  }

  lemma CountCompletedPrefix(list: seq<Notifications.Notification>, i: nat)
    requires i < |list|
    ensures CountCompleted(list[..i + 1]) ==
      CountCompleted(list[..i]) + (if list[i].metadata.notificationType == Some("MATCH_COMPLETED") then 1 else 0)
  {
    assert list[..i + 1] == list[..i] + [list[i]];
    CountCompletedSnoc(list[..i], list[i]);
  }

  lemma CountCompletedSnoc(list: seq<Notifications.Notification>, n: Notifications.Notification)
    ensures CountCompleted(list + [n]) ==
      CountCompleted(list) + (if n.metadata.notificationType == Some("MATCH_COMPLETED") then 1 else 0)
  {
    if list != [] {
      assert (list + [n])[1..] == list[1..] + [n];
    }
  }

  /** USER_RESIGNED never schedules a results fetch. */
  lemma {:induction false} ResignedSchedulesNothing(list: seq<Notifications.Notification>)
    requires forall k :: 0 <= k < |list| ==> list[k].metadata.notificationType == Some("USER_RESIGNED")
    ensures CountCompleted(list) == 0
  {
    if list != [] {
      ResignedSchedulesNothing(list[1..]);
    }
  }

  function Truthy(id: Option<string>): bool { id.Some? && id.value != "" }

  class MatchPage {
    const id: Option<string>
    const session: SessionStore.SessionStorage
    var matchData: Option<MatchData>
    var matchResults: Option<MatchResults.MatchResultDto>
    var showResultOverlay: bool
    var isResignModalOpen: bool
    var isProcessing: bool
    var pendingResultFetches: nat
    /** The value of `isMatchActive` the current mount effect was run with,
        which its cleanup reads; `None` before the first run. */
    var effectSawActive: Option<bool>
    var requests: seq<Request>
    var alerts: seq<string>

    constructor(id: Option<string>, session: SessionStore.SessionStorage)
      ensures this.id == id && this.session == session
      ensures matchData == None && matchResults == None && !showResultOverlay
      ensures !isResignModalOpen && !isProcessing && pendingResultFetches == 0 && effectSawActive == None
      ensures requests == [] && alerts == []
    {
      this.id := id;
      this.session := session;
      matchData := None;
      matchResults := None;
      showResultOverlay := false;
      isResignModalOpen := false;
      isProcessing := false;
      pendingResultFetches := 0;
      effectSawActive := None;
      requests := [];
      alerts := [];
    }

    /** `isMatchActive`. */
    function IsMatchActive(): (b: bool)
      reads this
      ensures b <==> matchData.Some? && matchData.value.state == "ONGOING"
    {
      matchData.Some? && matchData.value.state == "ONGOING"
    }

    /** `Number(id)`, `None` for NaN (an absent id included). */
    function NumericId(): Option<int>
    {
      if id.Some? then ToNumber(id.value) else None
    }

    /** A run of the mount effect: the previous run's cleanup clears the
        active match unless that run saw the match active; then a truthy id
        marks the user in a match and records the active match. */
    method RunMountEffect()
      modifies this`requests, this`effectSawActive, session
      ensures Truthy(id) ==>
        session.entries == old(session.entries)[SessionStore.ActiveMatchKey := id.value]
        && requests == old(requests) + [UpdateStatusToInMatch]
      ensures !Truthy(id) && old(effectSawActive) == Some(false) ==>
        session.entries == old(session.entries) - {SessionStore.ActiveMatchKey} && requests == old(requests)
      ensures !Truthy(id) && old(effectSawActive) != Some(false) ==>
        session.entries == old(session.entries) && requests == old(requests)
      ensures effectSawActive == Some(IsMatchActive())
    {
      if effectSawActive == Some(false) {
        session.ClearActiveMatch();
      }
      if Truthy(id) {
        requests := requests + [UpdateStatusToInMatch];
        session.SetActiveMatch(id.value);
      }
      effectSawActive := Some(IsMatchActive());
    }

    /** The mount effect's cleanup on leaving the page. */
    method Unmount()
      modifies this`effectSawActive, session
      ensures old(effectSawActive) == Some(false) ==> session.entries == old(session.entries) - {SessionStore.ActiveMatchKey}
      ensures old(effectSawActive) != Some(false) ==> session.entries == old(session.entries)
      ensures effectSawActive == None
    {
      if effectSawActive == Some(false) {
        session.ClearActiveMatch();
      }
      effectSawActive := None;
    }

    /** `fetchAndShowResults`: on success the results are stored and shown,
        the match is COMPLETED, the active match is cleared and the user is
        set online; on failure nothing changes but the request. */
    method FetchAndShowResults(results: Outcome<MatchResults.MatchResultDto>)
      modifies this`requests, this`matchResults, this`showResultOverlay, this`matchData, session
      ensures !Truthy(id) ==> unchanged(this) && session.entries == old(session.entries)
      ensures Truthy(id) && results.Ok? ==>
        matchResults == Some(results.value) && showResultOverlay && matchData == MarkCompleted(old(matchData))
        && session.entries == old(session.entries) - {SessionStore.ActiveMatchKey}
        && requests == old(requests) + [GetMatchResults(NumericId()), UpdateStatusToOnline]
      ensures Truthy(id) && results.Failed? ==>
        matchResults == old(matchResults) && showResultOverlay == old(showResultOverlay) && matchData == old(matchData)
        && session.entries == old(session.entries) && requests == old(requests) + [GetMatchResults(NumericId())]
      ensures CompletesOrKeeps(old(matchData), matchData)
    {
      if !Truthy(id) {
        return;
      }
      requests := requests + [GetMatchResults(NumericId())];
      if results.Failed? {
        return;
      }
      matchResults := Some(results.value);
      showResultOverlay := true;
      matchData := MarkCompleted(matchData);
      session.ClearActiveMatch();
      requests := requests + [UpdateStatusToOnline];
    }

    /** `fetchInitialData`: the only writer of a state other than COMPLETED;
        a finished or resigned match goes on to fetch its results. */
    method FetchInitialData(details: Outcome<MatchDetails>, results: Outcome<MatchResults.MatchResultDto>)
      modifies this`requests, this`matchData, this`matchResults, this`showResultOverlay, session
      ensures !Truthy(id) ==> unchanged(this) && session.entries == old(session.entries)
      ensures Truthy(id) && details.Failed? ==>
        matchData == old(matchData) && requests == old(requests) + [GetMatchDetails(NumericId())]
        && matchResults == old(matchResults) && showResultOverlay == old(showResultOverlay)
        && session.entries == old(session.entries)
      ensures Truthy(id) && details.Ok? && details.value.matchState != "COMPLETED" && details.value.matchState != "RESIGNED" ==>
        matchData == Some(MatchData(details.value.startAt, details.value.duration, details.value.matchState, details.value.problemId))
        && matchResults == old(matchResults) && showResultOverlay == old(showResultOverlay)
        && session.entries == old(session.entries) && requests == old(requests) + [GetMatchDetails(NumericId())]
      ensures Truthy(id) && details.Ok? && (details.value.matchState == "COMPLETED" || details.value.matchState == "RESIGNED") ==>
        (results.Ok? ==>
           matchData == Some(MatchData(details.value.startAt, details.value.duration, "COMPLETED", details.value.problemId))
           && matchResults == Some(results.value) && showResultOverlay
           && session.entries == old(session.entries) - {SessionStore.ActiveMatchKey}
           && requests == old(requests) + [GetMatchDetails(NumericId()), GetMatchResults(NumericId()), UpdateStatusToOnline])
        && (results.Failed? ==>
              matchData == Some(MatchData(details.value.startAt, details.value.duration, details.value.matchState, details.value.problemId))
              && matchResults == old(matchResults) && showResultOverlay == old(showResultOverlay)
              && session.entries == old(session.entries)
              && requests == old(requests) + [GetMatchDetails(NumericId()), GetMatchResults(NumericId())])
    {
      if !Truthy(id) {
        return;
      }
      requests := requests + [GetMatchDetails(NumericId())];
      if details.Failed? {
        return;
      }
      var d := details.value;
      matchData := Some(MatchData(d.startAt, d.duration, d.matchState, d.problemId));
      if d.matchState == "COMPLETED" || d.matchState == "RESIGNED" {
        FetchAndShowResults(results);
      }
    }

    /** The notification effect: each relevant notification marks the match
        COMPLETED, and each MATCH_COMPLETED among them schedules a results
        fetch. The state updates of one run are batched, so they are made
        on locals and stored when the run ends. */
    method OnNotifications(list: seq<Notifications.Notification>)
      modifies this`matchData, this`pendingResultFetches
      ensures var relevant := RelevantOf(list, NumericId());
        matchData == (if |relevant| > 0 then MarkCompleted(old(matchData)) else old(matchData))
        && pendingResultFetches == old(pendingResultFetches) + CountCompleted(relevant)
      ensures CompletesOrKeeps(old(matchData), matchData)
    {
      var relevant := RelevantOf(list, NumericId());
      var data, fetches := matchData, pendingResultFetches;
      var i := 0;
      while i < |relevant|
        invariant 0 <= i <= |relevant|
        invariant data == (if i > 0 then MarkCompleted(old(matchData)) else old(matchData))
        invariant fetches == old(pendingResultFetches) + CountCompleted(relevant[..i])
      {
        var n := relevant[i];
        MarkCompletedIdempotent(old(matchData));
        CountCompletedPrefix(relevant, i);
        if n.metadata.notificationType == Some("MATCH_COMPLETED") {
          data := MarkCompleted(data);
          fetches := fetches + 1;
        } else if n.metadata.notificationType == Some("USER_RESIGNED") {
          data := MarkCompleted(data);
        }
        i := i + 1;
      }
      assert relevant[..i] == relevant;
      matchData, pendingResultFetches := data, fetches;
    }

    /** A scheduled results fetch coming due. */
    method RunScheduledFetch(results: Outcome<MatchResults.MatchResultDto>)
      requires pendingResultFetches > 0
      modifies this`pendingResultFetches, this`requests, this`matchResults, this`showResultOverlay, this`matchData, session
      ensures pendingResultFetches == old(pendingResultFetches) - 1
      ensures !Truthy(id) ==>
        requests == old(requests) && matchData == old(matchData) && matchResults == old(matchResults)
        && showResultOverlay == old(showResultOverlay) && session.entries == old(session.entries)
      ensures Truthy(id) && results.Ok? ==>
        matchResults == Some(results.value) && showResultOverlay && matchData == MarkCompleted(old(matchData))
        && session.entries == old(session.entries) - {SessionStore.ActiveMatchKey}
        && requests == old(requests) + [GetMatchResults(NumericId()), UpdateStatusToOnline]
      ensures Truthy(id) && results.Failed? ==>
        matchResults == old(matchResults) && showResultOverlay == old(showResultOverlay) && matchData == old(matchData)
        && session.entries == old(session.entries) && requests == old(requests) + [GetMatchResults(NumericId())]
      ensures CompletesOrKeeps(old(matchData), matchData)
    {
      pendingResultFetches := pendingResultFetches - 1;
      FetchAndShowResults(results);
    }

    /** `handleResignFromMatch`, the resign callback the navigation guard
        calls; `threw` is the rethrown failure. */
    method HandleResignFromMatch(resignSucceeds: bool) returns (threw: bool)
      modifies this`requests, this`matchData, session
      ensures !Truthy(id) ==> !threw && unchanged(this) && session.entries == old(session.entries)
      ensures Truthy(id) ==> threw == !resignSucceeds && requests == old(requests) + [ResignMatch(NumericId())]
      ensures Truthy(id) && resignSucceeds ==>
        matchData == MarkCompleted(old(matchData)) && session.entries == old(session.entries) - {SessionStore.ActiveMatchKey}
      ensures !resignSucceeds ==> matchData == old(matchData) && session.entries == old(session.entries)
      ensures CompletesOrKeeps(old(matchData), matchData)
    {
      threw := false;
      if !Truthy(id) {
        return;
      }
      requests := requests + [ResignMatch(NumericId())];
      if resignSucceeds {
        matchData := MarkCompleted(matchData);
        session.ClearActiveMatch();
      } else {
        threw := true;
      }
    }

    /** `handleResignClick`. */
    method HandleResignClick()
      modifies this`isResignModalOpen
      ensures isResignModalOpen
    {
      isResignModalOpen := true;
    }

    /** `handleConfirmResign`: success completes the match and closes the
        modal, failure alerts and keeps it open; processing ends either way. */
    method HandleConfirmResign(resignSucceeds: bool)
      modifies this`isProcessing, this`requests, this`matchData, this`isResignModalOpen, this`alerts, session
      ensures !Truthy(id) ==> unchanged(this) && session.entries == old(session.entries)
      ensures Truthy(id) ==> !isProcessing && requests == old(requests) + [ResignMatch(NumericId())]
      ensures Truthy(id) && resignSucceeds ==>
        matchData == MarkCompleted(old(matchData)) && !isResignModalOpen && alerts == old(alerts)
        && session.entries == old(session.entries) - {SessionStore.ActiveMatchKey}
      ensures Truthy(id) && !resignSucceeds ==>
        matchData == old(matchData) && isResignModalOpen == old(isResignModalOpen)
        && alerts == old(alerts) + [ResignFailedAlert] && session.entries == old(session.entries)
      ensures CompletesOrKeeps(old(matchData), matchData)
    {
      if !Truthy(id) {
        return;
      }
      isProcessing := true;
      requests := requests + [ResignMatch(NumericId())];
      if resignSucceeds {
        matchData := MarkCompleted(matchData);
        session.ClearActiveMatch();
        isResignModalOpen := false;
      } else {
        alerts := alerts + [ResignFailedAlert];
      }
      isProcessing := false;
    }
  }

  /** Marking a match completed twice is marking it once. */
  lemma MarkCompletedIdempotent(d: Option<MatchData>)
    ensures MarkCompleted(MarkCompleted(d)) == MarkCompleted(d)
  {
  }

  /** Once a handler has completed the match it is no longer active, and no
      later handler but the initial load makes it active again. */
  lemma {:induction false} CompletedStaysInactive(before: Option<MatchData>, after: Option<MatchData>)
    requires before.Some? ==> before.value.state == "COMPLETED"
    requires CompletesOrKeeps(before, after)
    ensures after.Some? ==> after.value.state == "COMPLETED"
  {
  }
}
