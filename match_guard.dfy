/** The hook that keeps a player on the match page: a router blocker
    predicate, the resign modal it opens, and the confirm and cancel
    handlers. */
module MatchGuard {
  import opened Text

  /** The router's blocker: idle, or holding the pathname of a blocked
      transition. */
  datatype BlockerState = Unblocked | Blocked(target: string)

  const PlayGamePrefix: string := "/play-game/"
  const ResignFailedAlert: string := "Failed to resign from match. Please try again."
  const UnloadWarning: string := "You have an active match. Are you sure you want to leave?"

  /** The blocker predicate: nothing is blocked while disabled or resigning;
      otherwise a transition is blocked when it changes the pathname to one
      outside `/play-game/<matchId>`. */
  function ShouldBlock(enabled: bool, isResigning: bool, matchId: string, current: string, next: string): (b: bool)
    ensures !enabled || isResigning ==> !b
    ensures enabled && !isResigning ==>
      (b <==> current != next && !StartsWith(next, PlayGamePrefix + matchId))
  {
    if !enabled || isResigning then false
    else current != next && !StartsWith(next, PlayGamePrefix + matchId)
  }

  /** Moving within the match's own pages, or staying on the same path, is
      never blocked. */
  lemma NeverBlocksInsideMatch(enabled: bool, isResigning: bool, matchId: string, current: string, rest: string)
    ensures !ShouldBlock(enabled, isResigning, matchId, current, PlayGamePrefix + matchId + rest)
    ensures !ShouldBlock(enabled, isResigning, matchId, current, current)
  {
    var next := PlayGamePrefix + matchId + rest;
    assert next[..|PlayGamePrefix + matchId|] == PlayGamePrefix + matchId;
  }

  class Guard {
    const matchId: string
    const enabled: bool
    var showResignModal: bool
    var pendingNavigation: Option<string>
    var isResigning: bool
    var blocker: BlockerState
    /** The current pathname. */
    var location: string
    /** Every `navigate(path)` call the handlers made. */
    var navigations: seq<string>
    var alerts: seq<string>
    /** How many times the resign callback was awaited. */
    var resignCalls: nat

    ghost predicate Valid()
      reads this
    {
      pendingNavigation.Some? ==> pendingNavigation.value != ""
    }

    constructor(matchId: string, enabled: bool, location: string)
      ensures Valid()
      ensures this.matchId == matchId && this.enabled == enabled && this.location == location
      ensures !showResignModal && pendingNavigation == None && !isResigning && blocker == Unblocked
      ensures navigations == [] && alerts == [] && resignCalls == 0
    {
      this.matchId := matchId;
      this.enabled := enabled;
      this.location := location;
      showResignModal := false;
      pendingNavigation := None;
      isResigning := false;
      blocker := Unblocked;
      navigations := [];
      alerts := [];
      resignCalls := 0;
    }

    /** The router consulting the blocker for a transition to `next`: a
        blocked transition is held in the blocker, any other one happens. */
    method RequestNavigation(next: string) returns (blocked: bool)
      requires Valid()
      modifies this`blocker, this`location
      ensures Valid()
      ensures blocked == ShouldBlock(enabled, isResigning, matchId, old(location), next)
      ensures blocked ==> blocker == Blocked(next) && location == old(location)
      ensures !blocked ==> location == next && blocker == old(blocker)
    {
      blocked := ShouldBlock(enabled, isResigning, matchId, location, next);
      if blocked {
        blocker := Blocked(next);
      } else {
        location := next;
      }
    }

    /** The effect on a blocker change: a blocked transition opens the modal
        and records its target (an empty pathname records nothing). */
    method OnBlockerChange()
      requires Valid()
      modifies this`showResignModal, this`pendingNavigation
      ensures Valid()
      ensures old(blocker).Blocked? ==>
        showResignModal
        && pendingNavigation == (if old(blocker).target != "" then Some(old(blocker).target) else None)
      ensures !old(blocker).Blocked? ==>
        showResignModal == old(showResignModal) && pendingNavigation == old(pendingNavigation)
    {
      if blocker.Blocked? {
        showResignModal := true;
        pendingNavigation := if blocker.target != "" then Some(blocker.target) else None;
      }
    }

    /** `handleResignConfirm`, with the outcome of the awaited resign call as
        a parameter. */
    method HandleResignConfirm(resignSucceeds: bool)
      requires Valid()
      modifies this
      ensures Valid()
      ensures resignCalls == old(resignCalls) + 1
      ensures !isResigning && pendingNavigation == None
      ensures resignSucceeds ==> !showResignModal && alerts == old(alerts)
      ensures resignSucceeds && old(blocker).Blocked? ==>
        location == old(blocker).target && blocker == Unblocked && navigations == old(navigations)
      ensures resignSucceeds && !old(blocker).Blocked? && old(pendingNavigation).Some? ==>
        navigations == old(navigations) + [old(pendingNavigation).value]
        && location == old(pendingNavigation).value && blocker == old(blocker)
      ensures resignSucceeds && !old(blocker).Blocked? && old(pendingNavigation).None? ==>
        navigations == old(navigations) && location == old(location) && blocker == old(blocker)
      ensures !resignSucceeds ==>
        showResignModal == old(showResignModal) && alerts == old(alerts) + [ResignFailedAlert]
        && location == old(location) && blocker == old(blocker) && navigations == old(navigations)
    {
      isResigning := true;
      resignCalls := resignCalls + 1;
      if resignSucceeds {
        showResignModal := false;
        if blocker.Blocked? {
          location := blocker.target;
          blocker := Unblocked;
        } else if pendingNavigation.Some? {
          navigations := navigations + [pendingNavigation.value];
          location := pendingNavigation.value;
        }
      } else {
        alerts := alerts + [ResignFailedAlert];
      }
      isResigning := false;
      pendingNavigation := None;
    }

    /** `handleResignCancel`: the modal closes, nothing is pending and a held
        transition is dropped. */
    method HandleResignCancel()
      requires Valid()
      modifies this`showResignModal, this`pendingNavigation, this`blocker
      ensures Valid()
      ensures !showResignModal && pendingNavigation == None && blocker == Unblocked
    {
      showResignModal := false;
      pendingNavigation := None;
      if blocker.Blocked? {
        blocker := Unblocked;
      }
    }

    /** The `beforeunload` prompt, present only while the guard is enabled. */
    function UnloadPrompt(): (p: Option<string>)
      reads this
      ensures p.Some? <==> enabled
      ensures p.Some? ==> p.value == UnloadWarning
    {
      if enabled then Some(UnloadWarning) else None
    }
  }
}
