/** The notification store of the WebSocket provider: the newest-first list
    and the window of recently seen fingerprints, updated in place. Every
    update is the matching rule of `Notifications` applied to the current
    state. */
module NotificationStore {
  import opened Text
  import opened Notifications

  /** `s` without any occurrence of `x` (`Set.delete` on the
      insertion-ordered window). */
  function Without(s: seq<string>, x: string): (r: seq<string>)
    ensures x !in r
    ensures forall y :: y in r <==> y in s && y != x
  {
    if s == [] then [] else if s[0] == x then Without(s[1..], x) else [s[0]] + Without(s[1..], x)
  }

  /** Deleting the oldest entry of a window without repeats drops exactly
      that entry. */
  lemma {:induction false} WithoutFirst(s: seq<string>)
    requires |s| > 0 && Distinct(s)
    ensures Without(s, s[0]) == s[1..]
  {
    NotInWithout(s[1..], s[0]);
  }

  lemma {:induction false} NotInWithout(s: seq<string>, x: string)
    requires x !in s
    ensures Without(s, x) == s
  {
    if s != [] {
      NotInWithout(s[1..], x);
    }
  }

  class Store {
    var notifications: seq<Notification>
    var processed: seq<string>
    /** Every id ever handed to the store; ids come from the clock and a
        random number and are taken to be unique. */
    ghost var issued: set<string>

    ghost predicate Valid()
      reads this
    {
      Bounded(State())
      && IdsDistinct(notifications)
      && (forall i :: 0 <= i < |notifications| ==> notifications[i].id in issued)
    }

    function State(): StoreState
      reads this
    {
      StoreState(notifications, processed)
    }

    constructor()
      ensures Valid()
      ensures notifications == [] && processed == [] && issued == {}
    {
      notifications := [];
      processed := [];
      issued := {};
    }

    /** `handleWebSocketMessage`, with the clock reading and the generated id
        as parameters. */
    method HandleWebSocketMessage(m: RawMessage, now: int, freshId: string)
      requires Valid() && freshId !in issued
      modifies this
      ensures Valid()
      ensures State() == Ingest(old(State()), m, now, freshId)
      ensures issued == old(issued) + {freshId}
    {
      issued := issued + {freshId};
      var fp := Fingerprint(m, now);
      if fp in processed {
        return;
      }
      RememberFingerprint(fp);
      var n := MapMessage(m, freshId, now);
      if !IsRecentDuplicate(notifications, n, now) {
        PrependKeepsDistinct(notifications, n);
        notifications := Prepend(notifications, n);
      }
    }

    /** Adds a fingerprint to the window and, once it holds more than 100,
        deletes its 50 oldest entries one by one. */
    method RememberFingerprint(fp: string)
      requires |processed| <= MaxFingerprints && Distinct(processed) && fp !in processed
      modifies this
      ensures processed == RecordFingerprint(old(processed), fp)
      ensures |processed| <= MaxFingerprints && Distinct(processed) && fp in processed
      ensures notifications == old(notifications) && issued == old(issued)
    {
      RecordFingerprintFacts(processed, fp);
      ghost var before := processed;
      processed := processed + [fp];
      assert Distinct(processed) by {
        assert forall i :: 0 <= i < |before| ==> processed[i] == before[i];
      }
      if |processed| > MaxFingerprints {
        var entries := processed;
        var i := 0;
        while i < FingerprintsEvicted
          invariant 0 <= i <= FingerprintsEvicted
          invariant processed == entries[i..]
          invariant notifications == old(notifications) && issued == old(issued)
        {
          WithoutFirst(entries[i..]);
          processed := Without(processed, entries[i]);
          i := i + 1;
        }
      }
    }

    /** `markAsRead(id)`. */
    method MarkAsRead(id: string)
      requires Valid()
      modifies this
      ensures Valid()
      ensures notifications == MarkRead(old(notifications), id)
      ensures UnreadCount(notifications) == UnreadCount(old(notifications)) - UnreadWithId(old(notifications), id)
      ensures processed == old(processed) && issued == old(issued)
    {
      MarkReadUnread(notifications, id);
      notifications := MarkRead(notifications, id);
    }

    /** `markAllAsRead()`. */
    method MarkAllAsRead()
      requires Valid()
      modifies this
      ensures Valid()
      ensures notifications == MarkAllRead(old(notifications))
      ensures UnreadCount(notifications) == 0
      ensures processed == old(processed) && issued == old(issued)
    {
      MarkAllReadClearsUnread(notifications);
      notifications := MarkAllRead(notifications);
    }

    /** `removeNotification(id)`. */
    method RemoveNotification(id: string)
      requires Valid()
      modifies this
      ensures Valid()
      ensures notifications == Remove(old(notifications), id)
      ensures UnreadCount(notifications) == UnreadCount(old(notifications)) - UnreadWithId(old(notifications), id)
      ensures processed == old(processed) && issued == old(issued)
    {
      RemoveKeepsDistinct(notifications, id);
      RemoveUnread(notifications, id);
      notifications := Remove(notifications, id);
    }

    /** `clearAll()`: empties the list only; the fingerprint window stays, so
        a replay in the same second is still dropped. */
    method ClearAll()
      requires Valid()
      modifies this
      ensures Valid()
      ensures notifications == [] && processed == old(processed) && issued == old(issued)
    {
      notifications := [];
    }

    /** The provider's teardown: the fingerprint window is cleared, the list
        is kept. */
    method ClearProcessed()
      requires Valid()
      modifies this
      ensures Valid()
      ensures processed == [] && notifications == old(notifications) && issued == old(issued)
    {
      processed := [];
    }
  }
}
