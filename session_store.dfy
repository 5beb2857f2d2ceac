/** The browser's per-tab session key-value store and the active-match
    helpers built on its `activeMatchId` entry. */
module SessionStore {
  import opened Text

  const ActiveMatchKey: string := "activeMatchId"
  /** The key the route-level navigation guard reads; no helper here writes
      it. */
  const CurrentMatchKey: string := "currentMatchId"

  class SessionStorage {
    var entries: map<string, string>

    constructor()
      ensures entries == map[]
    {
      entries := map[];
    }

    /** `getItem(key)`: null (`None`) for an absent key. */
    function GetItem(key: string): (v: Option<string>)
      reads this
      ensures v.Some? <==> key in entries
      ensures v.Some? ==> v.value == entries[key]
    {
      if key in entries then Some(entries[key]) else None
    }

    method SetItem(key: string, value: string)
      modifies this
      ensures entries == old(entries)[key := value]
    {
      entries := entries[key := value];
    }

    method RemoveItem(key: string)
      modifies this
      ensures entries == old(entries) - {key}
    {
      entries := entries - {key};
    }

    /** `setActiveMatch(matchId)`: afterwards the active match is that id;
        every other key keeps its value. */
    method SetActiveMatch(matchId: string)
      modifies this
      ensures GetActiveMatch() == Some(matchId) && HasActiveMatch()
      ensures forall k :: k != ActiveMatchKey ==> GetItem(k) == old(GetItem(k))
      ensures entries == old(entries)[ActiveMatchKey := matchId]
    {
      SetItem(ActiveMatchKey, matchId);
    }

    /** `getActiveMatch()`. */
    function GetActiveMatch(): (v: Option<string>)
      reads this
      ensures v == GetItem(ActiveMatchKey)
    {
      GetItem(ActiveMatchKey)
    }

    /** `clearActiveMatch()`: afterwards there is no active match; every
        other key keeps its value. */
    method ClearActiveMatch()
      modifies this
      ensures GetActiveMatch() == None && !HasActiveMatch()
      ensures forall k :: k != ActiveMatchKey ==> GetItem(k) == old(GetItem(k))
      ensures entries == old(entries) - {ActiveMatchKey}
    {
      RemoveItem(ActiveMatchKey);
    }

    /** `hasActiveMatch()`: the stored value is not null, even when it is the
        empty string. */
    function HasActiveMatch(): (b: bool)
      reads this
      ensures b <==> GetActiveMatch().Some?
    {
      GetItem(ActiveMatchKey) != None
    }
  }

  // ---------------------------------------------------------------------------
  // the helpers as values: a run of active-match operations

  datatype ActiveMatchOp = SetActive(matchId: string) | ClearActive

  function ApplyOp(m: map<string, string>, op: ActiveMatchOp): map<string, string> {
    match op
    case SetActive(id) => m[ActiveMatchKey := id]
    case ClearActive => m - {ActiveMatchKey}
  }

  function ApplyOps(m: map<string, string>, ops: seq<ActiveMatchOp>): map<string, string>
    decreases |ops|
  {
    if ops == [] then m else ApplyOps(ApplyOp(m, ops[0]), ops[1..])
  }

  /** The active-match helpers touch only their own key: any run of them
      leaves every other entry, `currentMatchId` included, as it was. */
  lemma {:induction false} OpsTouchOnlyActiveKey(m: map<string, string>, ops: seq<ActiveMatchOp>, k: string)
    requires k != ActiveMatchKey
    ensures (k in ApplyOps(m, ops)) == (k in m)
    ensures k in m ==> ApplyOps(m, ops)[k] == m[k]
    decreases |ops|
  {
    if ops != [] {
      OpsTouchOnlyActiveKey(ApplyOp(m, ops[0]), ops[1..], k);
    }
  }

  /** The last operation decides the active match: the id of the last set,
      or none after a clear. */
  lemma {:induction false} LastOpDecides(m: map<string, string>, ops: seq<ActiveMatchOp>)
    requires |ops| >= 1
    ensures var r := ApplyOps(m, ops);
      match ops[|ops| - 1]
      case SetActive(id) => ActiveMatchKey in r && r[ActiveMatchKey] == id
      case ClearActive => ActiveMatchKey !in r
    decreases |ops|
  {
    if |ops| > 1 {
      LastOpDecides(ApplyOp(m, ops[0]), ops[1..]);
      assert ops[1..][|ops[1..]| - 1] == ops[|ops| - 1];
    }
  }
}
