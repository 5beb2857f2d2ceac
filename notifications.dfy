/** The live notification layer's value types and its pure rules: the
    event-to-notification mapper, the de-duplication fingerprint, and the
    ingest, mark, remove and count operations of the store, stated on values.
    The class `NotificationStore.Store` applies these rules in place. */
module Notifications {
  import opened Text

  /** A raw server event as parsed from a frame body: every field the front
      end reads, `None` when the JSON object does not carry it. */
  datatype RawMessage = RawMessage(
    notificationType: Option<string>,
    matchId: Option<int>,
    problemId: Option<int>,
    senderUsername: Option<string>,
    accepterUsername: Option<string>,
    submissionStatus: Option<string>,
    passedCases: Option<int>,
    totalCases: Option<int>,
    title: Option<string>,
    message: Option<string>)

  datatype Category = Success | Error | Warning | Info

  /** A store entry; `timestamp` is in milliseconds and `metadata` is the raw
      event it was made from. */
  datatype Notification = Notification(
    id: string,
    category: Category,
    title: string,
    message: string,
    timestamp: int,
    read: bool,
    metadata: RawMessage)

  /** The store's two pieces of state: the newest-first list and the
      insertion-ordered window of recently seen fingerprints. */
  datatype StoreState = StoreState(notifications: seq<Notification>, processed: seq<string>)

  const MaxNotifications: nat := 50
  const MaxFingerprints: nat := 100
  const FingerprintsEvicted: nat := 50
  const DuplicateWindowMs: int := 2000

  // ---------------------------------------------------------------------------
  // JavaScript string conversions used by the templates

  /** `${v}`: a missing field prints as "undefined". */
  function Show(v: Option<string>): string {
    match v
    case Some(s) => s
    case None => "undefined"
  }

  function ShowNumber(v: Option<int>): string {
    match v
    case Some(i) => IntToString(i)
    case None => "undefined"
  }

  /** `v || fallback` on a string field: missing and "" are falsy. */
  function TextOr(v: Option<string>, fallback: string): string {
    match v
    case Some(s) => if s != "" then s else fallback
    case None => fallback
  }

  /** `${v || ''}` on a numeric field: missing and 0 are falsy. */
  function NumberOrEmpty(v: Option<int>): string {
    match v
    case Some(i) => if i != 0 then IntToString(i) else ""
    case None => ""
  }

  // ---------------------------------------------------------------------------
  // fingerprint

  /** The de-duplication key: type, match id, sender and submission status
      (falsy ones as "") and the whole second of `now`. */
  function Fingerprint(m: RawMessage, now: int): string {
    Show(m.notificationType) + "-" + NumberOrEmpty(m.matchId) + "-"
    + TextOr(m.senderUsername, "") + "-" + TextOr(m.submissionStatus, "") + "-"
    + IntToString(now / 1000)
  }

  /** Two events that agree on the key fields, seen within the same whole
      second, share a fingerprint. */
  lemma SameKeySameSecond(m1: RawMessage, m2: RawMessage, now1: int, now2: int)
    requires m1.notificationType == m2.notificationType
    requires NumberOrEmpty(m1.matchId) == NumberOrEmpty(m2.matchId)
    requires TextOr(m1.senderUsername, "") == TextOr(m2.senderUsername, "")
    requires TextOr(m1.submissionStatus, "") == TextOr(m2.submissionStatus, "")
    requires now1 / 1000 == now2 / 1000
    ensures Fingerprint(m1, now1) == Fingerprint(m2, now2)
  {
  }

  // ---------------------------------------------------------------------------
  // mapper

  predicate IsKnownType(t: Option<string>) {
    t == Some("MATCH_STARTED") || t == Some("MATCH_COMPLETED") || t == Some("USER_RESIGNED")
    || t == Some("SUBMISSION_RECEIVED") || t == Some("SUBMISSION_RESULT")
    || t == Some("FRIEND_REQUEST_RECEIVED") || t == Some("FRIEND_REQUEST_ACCEPTED")
  }

  /** The total classification of a raw event into a fresh, unread
      notification that keeps the event as its metadata. */
  function MapMessage(m: RawMessage, id: string, now: int): (n: Notification)
    ensures n.id == id && n.timestamp == now && !n.read && n.metadata == m
    ensures n.category != Warning
    ensures m.notificationType == Some("SUBMISSION_RESULT") ==>
      (n.category == Success <==> m.submissionStatus == Some("ACCEPTED"))
      && (n.category == Error <==> m.submissionStatus != Some("ACCEPTED"))
      && (n.title == "Solution Accepted" <==> m.submissionStatus == Some("ACCEPTED"))
      && (n.title == "Submission Failed" <==> m.submissionStatus != Some("ACCEPTED"))
    ensures !IsKnownType(m.notificationType) ==>
      n.category == Info && n.title == TextOr(m.title, "Notification")
      && n.message == TextOr(m.message, "You have a new notification")
  {
    var sender := Show(m.senderUsername);
    var content: (Category, string, string) :=
      match m.notificationType
      case Some("MATCH_STARTED") =>
        (Success, "Match Started!", "Your match has begun. Good luck!")
      case Some("MATCH_COMPLETED") =>
        (Info, "Match Completed", "The match has ended. Check your results!")
      case Some("USER_RESIGNED") =>
        (Success, "Opponent Resigned", sender + " has resigned from the match.")
      case Some("SUBMISSION_RECEIVED") =>
        (Info, "Code Submitted", sender + " submitted a solution")
      case Some("SUBMISSION_RESULT") =>
        var ok := m.submissionStatus == Some("ACCEPTED");
        (if ok then Success else Error,
         if ok then "Solution Accepted" else "Submission Failed",
         sender + " " + (if ok then "passed" else "failed") + " "
         + ShowNumber(m.passedCases) + "/" + ShowNumber(m.totalCases) + " test cases")
      case Some("FRIEND_REQUEST_RECEIVED") =>
        (Info, "New Friend Request", sender + " sent you a friend request")
      case Some("FRIEND_REQUEST_ACCEPTED") =>
        (Success, "Friend Request Accepted", Show(m.accepterUsername) + " accepted your friend request")
      case _ =>
        (Info, TextOr(m.title, "Notification"), TextOr(m.message, "You have a new notification"));
    Notification(id, content.0, content.1, content.2, now, false, m)
  }

  /** The title and message depend only on the event, never on the id or the
      clock. */
  lemma MapMessageTextIgnoresIdAndClock(m: RawMessage, id1: string, id2: string, now1: int, now2: int)
    ensures MapMessage(m, id1, now1).title == MapMessage(m, id2, now2).title
    ensures MapMessage(m, id1, now1).message == MapMessage(m, id2, now2).message
    ensures MapMessage(m, id1, now1).category == MapMessage(m, id2, now2).category
  {
  }

  // ---------------------------------------------------------------------------
  // list operations

  function Ids(list: seq<Notification>): seq<string>
    ensures |Ids(list)| == |list|
    ensures forall i :: 0 <= i < |list| ==> Ids(list)[i] == list[i].id
  {
    if list == [] then [] else [list[0].id] + Ids(list[1..])
  }

  predicate Distinct<T(==)>(s: seq<T>) {
    forall i, j :: 0 <= i < j < |s| ==> s[i] != s[j]
  }

  predicate IdsDistinct(list: seq<Notification>) {
    forall i, j :: 0 <= i < j < |list| ==> list[i].id != list[j].id
  }

  /** `markAsRead(id)`: every entry with that id becomes read. */
  function MarkRead(list: seq<Notification>, id: string): (r: seq<Notification>)
    ensures |r| == |list|
    ensures forall i :: 0 <= i < |list| ==>
      r[i] == if list[i].id == id then list[i].(read := true) else list[i]
  {
    if list == [] then [] else
      [if list[0].id == id then list[0].(read := true) else list[0]] + MarkRead(list[1..], id)
  }

  /** `markAllAsRead()`. */
  function MarkAllRead(list: seq<Notification>): (r: seq<Notification>)
    ensures |r| == |list|
    ensures forall i :: 0 <= i < |list| ==> r[i] == list[i].(read := true)
  {
    if list == [] then [] else [list[0].(read := true)] + MarkAllRead(list[1..])
  }

  /** `removeNotification(id)`: drops the entries with that id, keeping the
      order of the rest. */
  function Remove(list: seq<Notification>, id: string): (r: seq<Notification>)
    ensures |r| <= |list|
    ensures forall i :: 0 <= i < |r| ==> r[i].id != id && r[i] in list
  {
    if list == [] then []
    else if list[0].id == id then Remove(list[1..], id)
    else [list[0]] + Remove(list[1..], id)
  }

  /** The number of entries with read = false; the only source of the
      unread count. */
  function UnreadCount(list: seq<Notification>): (c: nat)
    ensures c <= |list|
  {
    if list == [] then 0 else (if list[0].read then 0 else 1) + UnreadCount(list[1..])
  }

  /** Unread entries carrying the given id. */
  function UnreadWithId(list: seq<Notification>, id: string): nat {
    if list == [] then 0
    else (if !list[0].read && list[0].id == id then 1 else 0) + UnreadWithId(list[1..], id)
  }

  lemma {:induction false} MarkAllReadClearsUnread(list: seq<Notification>)
    ensures UnreadCount(MarkAllRead(list)) == 0
  {
    if list != [] {
      MarkAllReadClearsUnread(list[1..]);
      assert MarkAllRead(list)[1..] == MarkAllRead(list[1..]);
    }
  }

  lemma {:induction false} MarkReadUnread(list: seq<Notification>, id: string)
    ensures UnreadCount(MarkRead(list, id)) == UnreadCount(list) - UnreadWithId(list, id)
    ensures UnreadWithId(MarkRead(list, id), id) == 0
  {
    if list != [] {
      MarkReadUnread(list[1..], id);
      assert MarkRead(list, id)[1..] == MarkRead(list[1..], id);
    }
  }

  lemma {:induction false} RemoveUnread(list: seq<Notification>, id: string)
    ensures UnreadCount(Remove(list, id)) == UnreadCount(list) - UnreadWithId(list, id)
  {
    if list != [] {
      RemoveUnread(list[1..], id);
    }
  }

  /** Marking or removing an id that is not present changes nothing. */
  lemma {:induction false} AbsentIdIsNoOp(list: seq<Notification>, id: string)
    requires forall i :: 0 <= i < |list| ==> list[i].id != id
    ensures MarkRead(list, id) == list
    ensures Remove(list, id) == list
  {
    if list != [] {
      AbsentIdIsNoOp(list[1..], id);
    }
  }

  /** Removing a present id of a list with distinct ids removes exactly that
      entry: the others keep their order. */
  lemma {:induction false} RemoveAt(list: seq<Notification>, k: nat)
    requires k < |list| && IdsDistinct(list)
    ensures Remove(list, list[k].id) == list[..k] + list[k + 1..]
  {
    if k == 0 {
      AbsentIdIsNoOp(list[1..], list[0].id);
    } else {
      RemoveAt(list[1..], k - 1);
      assert list[1..][k - 1] == list[k];
      assert list[1..][..k - 1] == list[1..k];
      assert list[1..][k..] == list[k + 1..];
      assert [list[0]] + list[1..k] == list[..k];
    }
  }

  lemma {:induction false} RemoveKeepsDistinct(list: seq<Notification>, id: string)
    requires IdsDistinct(list)
    ensures IdsDistinct(Remove(list, id))
    ensures forall x :: x in Remove(list, id) ==> x in list
  {
    if list != [] {
      RemoveKeepsDistinct(list[1..], id);
      var rest := Remove(list[1..], id);
      if list[0].id != id {
        forall j | 0 <= j < |rest| ensures rest[j].id != list[0].id {
          var k :| 0 <= k < |list[1..]| && list[1..][k] == rest[j];
          assert list[k + 1] == rest[j];
        }
      }
    }
  }

  // ---------------------------------------------------------------------------
  // ingest

  /** Records a new fingerprint: appended last; once the window would hold
      101 entries, its 50 oldest are dropped. */
  function RecordFingerprint(processed: seq<string>, fp: string): (r: seq<string>)
  {
    var p := processed + [fp];
    if |p| > MaxFingerprints then p[FingerprintsEvicted..] else p
  }

  /** Some entry has the same title and message and is less than 2 s old. */
  predicate IsRecentDuplicate(list: seq<Notification>, n: Notification, now: int) {
    exists k :: 0 <= k < |list| && list[k].title == n.title && list[k].message == n.message
      && now - list[k].timestamp < DuplicateWindowMs
  }

  /** Puts an accepted notification first and keeps the first 50 entries. */
  function Prepend(list: seq<Notification>, n: Notification): (r: seq<Notification>)
  {
    var l := [n] + list;
    if |l| > MaxNotifications then l[..MaxNotifications] else l
  }

  /** Whether an event arriving at `now` would be added to the list. */
  predicate Accepted(s: StoreState, m: RawMessage, now: int) {
    Fingerprint(m, now) !in s.processed
    && !IsRecentDuplicate(s.notifications, MapMessage(m, "", now), now)
  }

  /** `handleWebSocketMessage`: drop a seen fingerprint; otherwise record it,
      map the event, and add it unless a recent twin is in the list. */
  function Ingest(s: StoreState, m: RawMessage, now: int, id: string): StoreState {
    var fp := Fingerprint(m, now);
    if fp in s.processed then s
    else
      var processed := RecordFingerprint(s.processed, fp);
      var n := MapMessage(m, id, now);
      if IsRecentDuplicate(s.notifications, n, now) then StoreState(s.notifications, processed)
      else StoreState(Prepend(s.notifications, n), processed)
  }

  /** The store's invariant: both bounds hold and the fingerprint window has
      no repeats. */
  predicate Bounded(s: StoreState) {
    |s.notifications| <= MaxNotifications
    && |s.processed| <= MaxFingerprints
    && Distinct(s.processed)
  }

  lemma RecordFingerprintFacts(processed: seq<string>, fp: string)
    requires |processed| <= MaxFingerprints && Distinct(processed) && fp !in processed
    ensures var r := RecordFingerprint(processed, fp);
      |r| <= MaxFingerprints && Distinct(r) && fp in r && r[|r| - 1] == fp
      && (|processed| < MaxFingerprints ==> r == processed + [fp])
      && (|processed| == MaxFingerprints ==> r == processed[FingerprintsEvicted..] + [fp])
  {
    var p := processed + [fp];
    assert forall i :: 0 <= i < |processed| ==> p[i] == processed[i];
    if |p| > MaxFingerprints {
      assert p[FingerprintsEvicted..] == processed[FingerprintsEvicted..] + [fp];
    }
  }

  /** Ingest never breaks the bounds: at most 50 entries, at most 100
      fingerprints, none repeated. */
  lemma IngestBounded(s: StoreState, m: RawMessage, now: int, id: string)
    requires Bounded(s)
    ensures Bounded(Ingest(s, m, now, id))
  {
    var fp := Fingerprint(m, now);
    if fp !in s.processed {
      RecordFingerprintFacts(s.processed, fp);
    }
  }

  /** Whatever happens to the event, its fingerprint is in the window
      afterwards, also when the notification itself was rejected. */
  lemma IngestRecordsFingerprint(s: StoreState, m: RawMessage, now: int, id: string)
    requires Bounded(s)
    ensures Fingerprint(m, now) in Ingest(s, m, now, id).processed
  {
    var fp := Fingerprint(m, now);
    if fp !in s.processed {
      RecordFingerprintFacts(s.processed, fp);
    }
  }

  /** Idempotent ingestion: the same event again within the same whole second
      changes nothing, whatever id it would get. */
  lemma IngestTwiceSameSecond(s: StoreState, m: RawMessage, now1: int, now2: int, id1: string, id2: string)
    requires Bounded(s)
    requires now1 / 1000 == now2 / 1000
    ensures Ingest(Ingest(s, m, now1, id1), m, now2, id2) == Ingest(s, m, now1, id1)
  {
    IngestRecordsFingerprint(s, m, now1, id1);
    SameKeySameSecond(m, m, now1, now2);
  }

  /** The same event handed in once per id, all within one second (as
      happens when several live subscriptions carry it). */
  function IngestEach(s: StoreState, m: RawMessage, now: int, ids: seq<string>): StoreState
    decreases |ids|
  {
    if ids == [] then s else IngestEach(Ingest(s, m, now, ids[0]), m, now, ids[1..])
  }

  /** However many times one event is handed in within a second, the store
      ends as after the first time. */
  lemma {:induction false} IngestEachOnce(s: StoreState, m: RawMessage, now: int, ids: seq<string>)
    requires Bounded(s) && |ids| >= 1
    ensures IngestEach(s, m, now, ids) == Ingest(s, m, now, ids[0])
    decreases |ids|
  {
    if |ids| > 1 {
      var s1 := Ingest(s, m, now, ids[0]);
      IngestBounded(s, m, now, ids[0]);
      IngestEachOnce(s1, m, now, ids[1..]);
      IngestTwiceSameSecond(s, m, now, now, ids[0], ids[1]);
    }
  }

  /** An accepted event is put first, the previous entries follow in their
      order, and the list is cut to 50 (dropping the oldest). */
  lemma IngestAccepted(s: StoreState, m: RawMessage, now: int, id: string)
    requires Accepted(s, m, now)
    ensures var r := Ingest(s, m, now, id).notifications;
      |r| == (if |s.notifications| < MaxNotifications then |s.notifications| + 1 else MaxNotifications)
      && r[0] == MapMessage(m, id, now)
      && r[1..] == s.notifications[..|r| - 1]
  {
    MapMessageTextIgnoresIdAndClock(m, id, "", now, now);
    var n := MapMessage(m, id, now);
    assert !IsRecentDuplicate(s.notifications, n, now);
    assert Ingest(s, m, now, id).notifications == Prepend(s.notifications, n);
    PrependShape(s.notifications, n);
  }

  lemma PrependShape(list: seq<Notification>, n: Notification)
    ensures var r := Prepend(list, n);
      |r| == (if |list| < MaxNotifications then |list| + 1 else MaxNotifications)
      && r[0] == n && r[1..] == list[..|r| - 1]
  {
    var l := [n] + list;
    assert l[1..] == list;
    if |l| > MaxNotifications {
      assert l[..MaxNotifications][1..] == list[..MaxNotifications - 1];
    }
  }

  /** A rejected event leaves the list as it was. */
  lemma IngestRejected(s: StoreState, m: RawMessage, now: int, id: string)
    requires !Accepted(s, m, now)
    ensures Ingest(s, m, now, id).notifications == s.notifications
  {
    MapMessageTextIgnoresIdAndClock(m, id, "", now, now);
  }

  /** The same event ingested again less than 2 s after it was added is
      rejected by the title/message check, even in a new second. */
  lemma IngestTwiceWithinWindow(s: StoreState, m: RawMessage, now1: int, now2: int, id1: string, id2: string)
    requires Bounded(s) && Accepted(s, m, now1)
    requires now1 <= now2 < now1 + DuplicateWindowMs
    ensures Ingest(Ingest(s, m, now1, id1), m, now2, id2).notifications
         == Ingest(s, m, now1, id1).notifications
  {
    var s1 := Ingest(s, m, now1, id1);
    IngestAccepted(s, m, now1, id1);
    MapMessageTextIgnoresIdAndClock(m, id1, id2, now1, now2);
    var n2 := MapMessage(m, id2, now2);
    assert s1.notifications[0].title == n2.title && s1.notifications[0].message == n2.message;
    assert IsRecentDuplicate(s1.notifications, n2, now2);
  }

  /** A notification with an id the list does not hold keeps the ids
      distinct, and brings no other entry with it. */
  lemma PrependKeepsDistinct(list: seq<Notification>, n: Notification)
    requires IdsDistinct(list)
    requires forall i :: 0 <= i < |list| ==> list[i].id != n.id
    ensures IdsDistinct(Prepend(list, n))
    ensures forall x :: x in Prepend(list, n) ==> x == n || x in list
  {
    var l := [n] + list;
    assert forall i :: 1 <= i < |l| ==> l[i] == list[i - 1];
  }

  /** Unread bookkeeping of an accepted event: one more unread entry, less
      the dropped 51st entry when it was unread. */
  lemma {:induction false} PrependUnread(list: seq<Notification>, n: Notification)
    requires |list| <= MaxNotifications && !n.read
    ensures UnreadCount(Prepend(list, n)) ==
      UnreadCount(list) + 1 - (if |list| == MaxNotifications && !list[|list| - 1].read then 1 else 0)
  {
    var l := [n] + list;
    assert l[1..] == list;
    if |l| > MaxNotifications {
      UnreadSnoc(l[..MaxNotifications], l[MaxNotifications]);
      assert l[..MaxNotifications] + [l[MaxNotifications]] == l;
    }
  }

  lemma {:induction false} UnreadSnoc(list: seq<Notification>, x: Notification)
    ensures UnreadCount(list + [x]) == UnreadCount(list) + (if x.read then 0 else 1)
  {
    if list != [] {
      UnreadSnoc(list[1..], x);
      assert (list + [x])[1..] == list[1..] + [x];
    }
  }

  /** Eviction: with 50 entries present, an accepted event keeps the length at
      50, every kept entry moves one place back, and the oldest entry is no
      longer in the list. */
  lemma EvictsOldest(s: StoreState, m: RawMessage, now: int, id: string)
    requires Accepted(s, m, now)
    requires |s.notifications| == MaxNotifications && IdsDistinct(s.notifications)
    requires forall i :: 0 <= i < |s.notifications| ==> s.notifications[i].id != id
    ensures |Ingest(s, m, now, id).notifications| == MaxNotifications
    ensures Ingest(s, m, now, id).notifications[0] == MapMessage(m, id, now)
    ensures Ingest(s, m, now, id).notifications[1..] == s.notifications[..MaxNotifications - 1]
    ensures forall i :: 0 <= i < MaxNotifications ==>
      Ingest(s, m, now, id).notifications[i].id != s.notifications[MaxNotifications - 1].id
  {
    IngestAccepted(s, m, now, id);
    var r := Ingest(s, m, now, id).notifications;
    forall i | 0 <= i < MaxNotifications
      ensures r[i].id != s.notifications[MaxNotifications - 1].id
    {
      if i > 0 {
        assert r[i] == r[1..][i - 1] == s.notifications[i - 1];
      }
    }
  }

  // ---------------------------------------------------------------------------
  // worked scenarios

  function FriendAccepted(accepter: string): RawMessage {
    RawMessage(Some("FRIEND_REQUEST_ACCEPTED"), None, None, None, Some(accepter),
               None, None, None, None, None)
  }

  /** Two identical friend-request-accepted events in immediate succession
      leave exactly one notification, titled "Friend Request Accepted". */
  lemma ScenarioDuplicateFriendAccepted(now: int, id1: string, id2: string)
    ensures var s0 := StoreState([], []);
      var s2 := Ingest(Ingest(s0, FriendAccepted("alice"), now, id1), FriendAccepted("alice"), now, id2);
      |s2.notifications| == 1 && s2.notifications[0].title == "Friend Request Accepted"
  {
    var s0 := StoreState([], []);
    IngestTwiceSameSecond(s0, FriendAccepted("alice"), now, now, id1, id2);
  }

  /** An unknown event type becomes an `info` notification carrying the
      event's own title and message. */
  lemma ScenarioUnknownType(now: int, id: string)
    ensures var m := RawMessage(Some("SOMETHING_NEW"), None, None, None, None, None, None, None,
                                Some("X"), Some("Y"));
      var s := Ingest(StoreState([], []), m, now, id);
      |s.notifications| == 1 && s.notifications[0].category == Info
      && s.notifications[0].title == "X" && s.notifications[0].message == "Y"
  {
  }
}
