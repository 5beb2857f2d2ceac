/** The route-level navigation guard keyed on the session entry
    `currentMatchId`: its block predicate, the resign modal and its two
    handlers. */
module MatchNavigationGuard {
  import opened Text
  import opened SessionStore
  import opened MatchGuard

  const GuardUnloadWarning: string :=
    "You are currently in a match. Are you sure you want to leave? You will need to resign first."

  function Truthy(v: Option<string>): bool {
    v.Some? && v.value != ""
  }

  /** `isInMatch()`: a non-empty stored id and a match route. */
  function IsInMatchAt(stored: Option<string>, path: string): (b: bool)
    ensures b <==> Truthy(stored) && Contains(path, PlayGamePrefix)
  {
    Truthy(stored) && Includes(path, PlayGamePrefix)
  }

  /** `shouldBlockNavigation`: leaving a match route for a non-match route
      while an id is stored. */
  function ShouldBlockNavigation(stored: Option<string>, current: string, next: string): (b: bool)
    ensures b <==> Truthy(stored) && Contains(current, PlayGamePrefix) && !Contains(next, PlayGamePrefix)
  {
    Truthy(stored) && Includes(current, PlayGamePrefix) && !Includes(next, PlayGamePrefix)
  }

  /** The few JavaScript values the router hands the blocker function:
      `undefined`, a string, or a plain object with named properties. */
  datatype JsValue = Undefined | Str(text: string) | Obj(props: map<string, JsValue>)

  /** Property access `v.name`: `undefined` when the property is missing;
      reading a property of `undefined` throws (None). No string property
      the guard could read (such as `length`) is modelled. */
  function Get(v: JsValue, name: string): (r: Option<JsValue>)
    ensures r == None <==> v.Undefined?
    ensures v.Obj? && name in v.props ==> r == Some(v.props[name])
    ensures v.Obj? && name !in v.props ==> r == Some(Undefined)
  {
    match v
    case Undefined => None
    case Str(_) => Some(Undefined)
    case Obj(props) => Some(if name in props then props[name] else Undefined)
  }

  /** A router location object with its `pathname`. */
  function LocationValue(path: string): JsValue {
    Obj(map["pathname" := Str(path)])
  }

  /** The one argument the router passes a blocker function. */
  function BlockerArgument(current: string, next: string, historyAction: string): JsValue {
    Obj(map["currentLocation" := LocationValue(current), "nextLocation" := LocationValue(next),
            "historyAction" := Str(historyAction)])
  }

  /** `loc.pathname.includes(needle)`: throws (None) when `loc` is
      `undefined` or its `pathname` is not a string. */
  function PathnameIncludes(loc: JsValue, needle: string): (r: Option<bool>)
    ensures loc == Undefined ==> r == None
    ensures forall path :: loc == LocationValue(path) ==> r == Some(Contains(path, needle))
  {
    match Get(loc, "pathname")
    case None => None
    case Some(p) => if p.Str? then Some(Includes(p.text, needle)) else None
  }

  /** `shouldBlockNavigation` as written: its parameter is the router's
      argument object, and it reads `.location.pathname` of it. None stands
      for the thrown TypeError. */
  function ShouldBlockNavigationAsWritten(stored: Option<string>, current: string, arg: JsValue): Option<bool> {
    match Get(arg, "location")
    case None => None
    case Some(loc) =>
      match PathnameIncludes(loc, PlayGamePrefix)
      case None => None
      case Some(toMatch) => Some(Truthy(stored) && Includes(current, PlayGamePrefix) && !toMatch)
  }

  /** As written, the blocker throws for every transition the router asks
      about, whether or not a match is stored: the argument has no
      `location` property. */
  lemma BlockerThrowsAsWritten(stored: Option<string>, current: string, next: string, historyAction: string)
    ensures ShouldBlockNavigationAsWritten(stored, current, BlockerArgument(current, next, historyAction)) == None
  {
    var arg := BlockerArgument(current, next, historyAction);
    assert "location" !in arg.props;
    assert Get(arg, "location") == Some(Undefined);
  }

  /** The evidently intended blocker: it reads `.nextLocation.pathname`. */
  function ShouldBlockNavigationOnArgument(stored: Option<string>, current: string, arg: JsValue): Option<bool> {
    match Get(arg, "nextLocation")
    case None => None
    case Some(loc) =>
      match PathnameIncludes(loc, PlayGamePrefix)
      case None => None
      case Some(toMatch) => Some(Truthy(stored) && Includes(current, PlayGamePrefix) && !toMatch)
  }

  /** The corrected blocker never throws on the router's argument and
      decides exactly as `ShouldBlockNavigation` on the target pathname. */
  lemma CorrectedBlockerDecides(stored: Option<string>, current: string, next: string, historyAction: string)
    ensures ShouldBlockNavigationOnArgument(stored, current, BlockerArgument(current, next, historyAction))
      == Some(ShouldBlockNavigation(stored, current, next))
  {
    var arg := BlockerArgument(current, next, historyAction);
    assert "nextLocation" in arg.props && arg.props["nextLocation"] == LocationValue(next);
  }

  /** The guard is keyed on `currentMatchId`, which the active-match helpers
      never write: starting from a session without that key, no run of
      those helpers makes the guard block any transition. */
  lemma NeverBlocksOnActiveMatchHelpers(m: map<string, string>, ops: seq<ActiveMatchOp>, current: string, next: string)
    requires CurrentMatchKey !in m
    ensures var s := ApplyOps(m, ops);
      !ShouldBlockNavigation(if CurrentMatchKey in s then Some(s[CurrentMatchKey]) else None, current, next)
  {
    OpsTouchOnlyActiveKey(m, ops, CurrentMatchKey);
  }

  class NavigationGuard {
    const session: SessionStorage
    var location: string
    var showResignModal: bool
    var pendingNavigation: Option<string>
    var blocker: BlockerState
    var navigations: seq<string>
    var alerts: seq<string>
    /** The stored id each resign request was made with. */
    var resignRequests: seq<Option<string>>

    constructor(session: SessionStorage, location: string)
      ensures this.session == session && this.location == location
      ensures !showResignModal && pendingNavigation == None && blocker == Unblocked
      ensures navigations == [] && alerts == [] && resignRequests == []
    {
      this.session := session;
      this.location := location;
      showResignModal := false;
      pendingNavigation := None;
      blocker := Unblocked;
      navigations := [];
      alerts := [];
      resignRequests := [];
    }

    function IsInMatch(): bool
      reads this, session
    {
      IsInMatchAt(session.GetItem(CurrentMatchKey), location)
    }

    /** The router consulting the blocker for a transition to `next`. */
    method RequestNavigation(next: string) returns (blocked: bool)
      modifies this`blocker, this`location
      ensures blocked == ShouldBlockNavigation(session.GetItem(CurrentMatchKey), old(location), next)
      ensures blocked ==> blocker == Blocked(next) && location == old(location)
      ensures !blocked ==> location == next && blocker == old(blocker)
    {
      blocked := ShouldBlockNavigation(session.GetItem(CurrentMatchKey), location, next);
      if blocked {
        blocker := Blocked(next);
      } else {
        location := next;
      }
    }

    /** The effect on a blocker change: records the blocked pathname and
        shows the modal. */
    method OnBlockerChange()
      modifies this`pendingNavigation, this`showResignModal
      ensures old(blocker).Blocked? ==> showResignModal && pendingNavigation == Some(old(blocker).target)
      ensures !old(blocker).Blocked? ==>
        showResignModal == old(showResignModal) && pendingNavigation == old(pendingNavigation)
    {
      if blocker.Blocked? {
        pendingNavigation := Some(blocker.target);
        showResignModal := true;
      }
    }

    /** `handleResign`, with the outcome of the resign request as a
        parameter. On failure only an alert is added. */
    method HandleResign(resignSucceeds: bool)
      modifies this, session
      ensures resignRequests == old(resignRequests) + [old(session.GetItem(CurrentMatchKey))]
      ensures resignSucceeds ==>
        session.entries == old(session.entries) - {CurrentMatchKey}
        && !showResignModal && pendingNavigation == None && alerts == old(alerts)
      ensures resignSucceeds && old(blocker).Blocked? ==>
        location == old(blocker).target && blocker == Unblocked && navigations == old(navigations)
      ensures resignSucceeds && !old(blocker).Blocked? && Truthy(old(pendingNavigation)) ==>
        navigations == old(navigations) + [old(pendingNavigation).value] && location == old(pendingNavigation).value
        && blocker == old(blocker)
      ensures resignSucceeds && !old(blocker).Blocked? && !Truthy(old(pendingNavigation)) ==>
        navigations == old(navigations) && location == old(location) && blocker == old(blocker)
      ensures !resignSucceeds ==>
        session.entries == old(session.entries) && showResignModal == old(showResignModal)
        && pendingNavigation == old(pendingNavigation) && blocker == old(blocker)
        && location == old(location) && navigations == old(navigations)
        && alerts == old(alerts) + [ResignFailedAlert]
    {
      var matchId := session.GetItem(CurrentMatchKey);
      resignRequests := resignRequests + [matchId];
      if !resignSucceeds {
        alerts := alerts + [ResignFailedAlert];
        return;
      }
      session.RemoveItem(CurrentMatchKey);
      showResignModal := false;
      if blocker.Blocked? {
        location := blocker.target;
        blocker := Unblocked;
      } else if Truthy(pendingNavigation) {
        navigations := navigations + [pendingNavigation.value];
        location := pendingNavigation.value;
      }
      pendingNavigation := None;
    }

    /** `handleCancel`. */
    method HandleCancel()
      modifies this`showResignModal, this`pendingNavigation, this`blocker
      ensures !showResignModal && pendingNavigation == None && blocker == Unblocked
    {
      showResignModal := false;
      pendingNavigation := None;
      if blocker.Blocked? {
        blocker := Unblocked;
      }
    }

    /** The `beforeunload` prompt fires only while in a match. */
    function UnloadPrompt(): (p: Option<string>)
      reads this, session
      ensures p.Some? <==> IsInMatch()
      ensures p.Some? ==> p.value == GuardUnloadWarning
    {
      if IsInMatch() then Some(GuardUnloadWarning) else None
    }
  }
}
