/** The global notification widgets: the connection indicator, the toast
    feed fed from the head of the notification list, and the bell badge. */
module ToastFeed {
  import opened Text
  import opened Notifications
  import NotificationStore
  import WsService
  import Lists

  // ---------------------------------------------------------------------------
  // connection indicator

  /** The indicator is hidden exactly while connected. */
  function IndicatorVisible(status: WsService.ConnectionStatus): (shown: bool)
    ensures shown <==> status != WsService.Connected
  {
    match status
    case Connected => false
    case _ => true
  }

  /** The indicator's text for each status: a status still being reached
      trails off with "...", the others do not. */
  function IndicatorText(status: WsService.ConnectionStatus): (t: string)
    ensures status == WsService.Disconnected ==> t == "Disconnected"
    ensures status == WsService.Error ==> t == "Connection Error"
    ensures (|t| >= 3 && t[|t| - 3..] == "...") <==> IndicatorPulses(status)
  {
    match status
    case Connected => "Connected"
    case Connecting => "Connecting..."
    case Reconnecting => "Reconnecting..."
    case Error => "Connection Error"
    case Disconnected => "Disconnected"
  }

  /** The icon pulses while a connection is being made. */
  predicate IndicatorPulses(status: WsService.ConnectionStatus) {
    status == WsService.Connecting || status == WsService.Reconnecting
  }

  /** No two statuses share a text, so the text alone tells which one is
      shown. */
  lemma IndicatorTextsDistinct(a: WsService.ConnectionStatus, b: WsService.ConnectionStatus)
    ensures IndicatorText(a) == IndicatorText(b) <==> a == b
  {
  }

  // ---------------------------------------------------------------------------
  // toasts

  datatype Toast = Toast(id: int, title: string, message: string, sender: string, category: Category)

  /** The sum of `parseInt(part) || 0` over the dash-separated parts. */
  function SumParsed(parts: seq<string>): int {
    if parts == [] then 0 else ParseIntOrZero(parts[0]) + SumParsed(parts[1..])
  }

  /** The numeric toast id derived from a notification id. */
  function ToastId(id: string): int {
    SumParsed(Split(id, '-'))
  }

  /** For an id made of a millisecond clock reading, a dash and a random
      fraction `0.…`, the toast id is the clock reading. */
  lemma ToastIdOfGeneratedId(ms: nat, frac: string)
    requires '-' !in frac && |frac| >= 2 && frac[0] == '0' && frac[1] == '.'
    ensures ToastId(NatToString(ms) + "-" + frac) == ms
  {
    var a := NatToString(ms);
    SplitAtFirst(a, '-', frac);
    SplitWithoutSeparator(frac, '-');
    assert Split(a + "-" + frac, '-') == [a, frac];
    ParseIntOfNatToString(ms, []);
    assert a + [] == a;
    ParseIntOfNatToString(0, frac[1..]);
    assert NatToString(0) + frac[1..] == frac;
    assert SumParsed([a, frac]) == ParseIntOrZero(a) + ParseIntOrZero(frac) + SumParsed([]);
  }

  /** Two notifications made in the same millisecond share a toast id,
      whatever their random parts. */
  lemma SameMillisecondSameToast(ms: nat, frac1: string, frac2: string)
    requires '-' !in frac1 && |frac1| >= 2 && frac1[0] == '0' && frac1[1] == '.'
    requires '-' !in frac2 && |frac2| >= 2 && frac2[0] == '0' && frac2[1] == '.'
    ensures ToastId(NatToString(ms) + "-" + frac1) == ToastId(NatToString(ms) + "-" + frac2)
  {
    ToastIdOfGeneratedId(ms, frac1);
    ToastIdOfGeneratedId(ms, frac2);
  }

  /** `mapGlobalToToast`: a warning shows as info; the sender falls back from
      the sender to the accepter to "System". */
  function ToToast(n: Notification): (t: Toast)
    ensures t.id == ToastId(n.id) && t.title == n.title && t.message == n.message
    ensures t.category != Warning
    ensures n.category != Warning ==> t.category == n.category
    ensures t.sender != ""
    ensures TextOr(n.metadata.senderUsername, "") != "" ==> t.sender == n.metadata.senderUsername.value
    ensures TextOr(n.metadata.senderUsername, "") == "" && TextOr(n.metadata.accepterUsername, "") != "" ==>
      t.sender == n.metadata.accepterUsername.value
    ensures TextOr(n.metadata.senderUsername, "") == "" && TextOr(n.metadata.accepterUsername, "") == "" ==>
      t.sender == "System"
  {
    var category := if n.category == Warning then Info else n.category;
    var sender := TextOr(n.metadata.senderUsername, TextOr(n.metadata.accepterUsername, "System"));
    Toast(ToastId(n.id), n.title, n.message, sender, category)
  }

  predicate QueuedId(displayed: seq<Toast>, id: int) {
    exists k :: 0 <= k < |displayed| && displayed[k].id == id
  }

  predicate ToastIdsDistinct(displayed: seq<Toast>) {
    forall i, j :: 0 <= i < j < |displayed| ==> displayed[i].id != displayed[j].id
  }

  /** Appends a toast unless one with the same numeric id is queued. */
  function Enqueue(displayed: seq<Toast>, t: Toast): (r: seq<Toast>)
    ensures QueuedId(r, t.id)
    ensures ToastIdsDistinct(displayed) ==> ToastIdsDistinct(r)
    ensures r == displayed || r == displayed + [t]
  {
    if QueuedId(displayed, t.id) then displayed
    else
      var r := displayed + [t];
      assert r[|displayed|].id == t.id;
      r
  }

  /** The queue after the effect has walked `batch`: every entry whose id is
      not yet processed is enqueued, in list order. */
  function ShowAll(displayed: seq<Toast>, processed: set<string>, batch: seq<Notification>): seq<Toast>
    decreases |batch|
  {
    if batch == [] then displayed
    else
      var next := if batch[0].id in processed then displayed else Enqueue(displayed, ToToast(batch[0]));
      ShowAll(next, processed + {batch[0].id}, batch[1..])
  }

  /** The effect never queues two toasts with one numeric id. */
  lemma {:induction false} ShowAllDistinct(displayed: seq<Toast>, processed: set<string>, batch: seq<Notification>)
    decreases |batch|
    requires ToastIdsDistinct(displayed)
    ensures ToastIdsDistinct(ShowAll(displayed, processed, batch))
  {
    if batch != [] {
      var next := if batch[0].id in processed then displayed else Enqueue(displayed, ToToast(batch[0]));
      ShowAllDistinct(next, processed + {batch[0].id}, batch[1..]);
    }
  }

  /** Every entry of the batch whose id was not processed has a queued
      toast afterwards, and the toasts queued before stay first. */
  lemma {:induction false} ShowAllShows(displayed: seq<Toast>, processed: set<string>, batch: seq<Notification>)
    decreases |batch|
    ensures var r := ShowAll(displayed, processed, batch);
      |displayed| <= |r| && r[..|displayed|] == displayed
      && forall i :: 0 <= i < |batch| && batch[i].id !in processed ==> QueuedId(r, ToastId(batch[i].id))
  {
    if batch != [] {
      var next := if batch[0].id in processed then displayed else Enqueue(displayed, ToToast(batch[0]));
      ShowAllShows(next, processed + {batch[0].id}, batch[1..]);
      var r := ShowAll(displayed, processed, batch);
      assert r == ShowAll(next, processed + {batch[0].id}, batch[1..]);
      assert r[..|displayed|] == displayed by {
        assert r[..|next|][..|displayed|] == next[..|displayed|];
      }
      if batch[0].id !in processed {
        QueuedStays(next, r, ToastId(batch[0].id));
      }
      forall i | 1 <= i < |batch| && batch[i].id !in processed
        ensures QueuedId(r, ToastId(batch[i].id))
      {
        assert batch[1..][i - 1] == batch[i];
      }
    }
  }

  lemma QueuedStays(prefix: seq<Toast>, r: seq<Toast>, id: int)
    requires |prefix| <= |r| && r[..|prefix|] == prefix && QueuedId(prefix, id)
    ensures QueuedId(r, id)
  {
    var k :| 0 <= k < |prefix| && prefix[k].id == id;
    assert r[k] == prefix[k];
  }

  function IdsOf(batch: seq<Notification>): set<string> {
    if batch == [] then {} else {batch[0].id} + IdsOf(batch[1..])
  }

  lemma {:induction false} IdsOfSnoc(batch: seq<Notification>, n: Notification)
    ensures IdsOf(batch + [n]) == IdsOf(batch) + {n.id}
  {
    if batch == [] {
      assert batch + [n] == [n];
    } else {
      IdsOfSnoc(batch[1..], n);
      assert (batch + [n])[1..] == batch[1..] + [n];
    }
  }

  lemma {:induction false} NotInIdsOf(batch: seq<Notification>, id: string)
    requires forall j :: 0 <= j < |batch| ==> batch[j].id != id
    ensures id !in IdsOf(batch)
  {
    if batch != [] {
      NotInIdsOf(batch[1..], id);
    }
  }

  /** In a list with distinct ids, entry `i` of a prefix has an id that no
      earlier entry of it has, so the walk has not yet processed it. */
  lemma FreshInPrefix(original: seq<Notification>, k: nat, i: nat)
    requires IdsDistinct(original) && i < k <= |original|
    ensures original[..k][i].id !in IdsOf(original[..k][..i])
  {
    var batch := original[..k];
    forall j | 0 <= j < |batch[..i]| ensures batch[..i][j].id != batch[i].id {
      assert batch[..i][j] == original[j] && batch[i] == original[i];
    }
    NotInIdsOf(batch[..i], batch[i].id);
  }

  /** The list once the walk has reached position `i` of the head: each
      entry before `i` that was not yet processed is marked read, every
      other entry is as it was. */
  ghost predicate MarkedUpTo(before: seq<Notification>, after: seq<Notification>, processed: set<string>, i: nat) {
    |after| == |before|
    && forall j :: 0 <= j < |before| ==>
      after[j] == if j < i && before[j].id !in processed then before[j].(read := true) else before[j]
  }

  /** The first entry whose toast id is `numericId`. */
  function FindByToastId(list: seq<Notification>, numericId: int): (r: Option<nat>)
    ensures r.Some? ==> (r.value < |list| && ToastId(list[r.value].id) == numericId
      && forall i :: 0 <= i < r.value ==> ToastId(list[i].id) != numericId)
    ensures r.None? ==> forall i :: 0 <= i < |list| ==> ToastId(list[i].id) != numericId
  {
    if list == [] then None
    else if ToastId(list[0].id) == numericId then Some(0)
    else match FindByToastId(list[1..], numericId)
      case None => None
      case Some(k) => Some(k + 1)
  }

  function WithoutToast(displayed: seq<Toast>, numericId: int): (r: seq<Toast>)
    ensures !QueuedId(r, numericId)
    ensures forall t :: t in r <==> t in displayed && t.id != numericId
  {
    if displayed == [] then []
    else if displayed[0].id == numericId then WithoutToast(displayed[1..], numericId)
    else [displayed[0]] + WithoutToast(displayed[1..], numericId)
  }

  /** The toast component's state over the shared notification store. */
  class Feed {
    const store: NotificationStore.Store
    var displayed: seq<Toast>
    var processedIds: set<string>

    ghost predicate Valid()
      reads this, store
    {
      store.Valid() && ToastIdsDistinct(displayed)
    }

    constructor(s: NotificationStore.Store)
      requires s.Valid()
      ensures Valid() && store == s && displayed == [] && processedIds == {}
    {
      store := s;
      displayed := [];
      processedIds := {};
    }

    /** The effect run on every change of the list: the first three entries
        not yet processed are marked read, remembered and queued. */
    method ShowNewest()
      requires Valid()
      modifies this, store
      ensures Valid()
      ensures var batch := old(store.notifications)[..if |old(store.notifications)| < 3 then |old(store.notifications)| else 3];
        displayed == ShowAll(old(displayed), old(processedIds), batch)
        && processedIds == old(processedIds) + IdsOf(batch)
      ensures |store.notifications| == |old(store.notifications)|
      ensures forall i :: 0 <= i < |store.notifications| ==>
        store.notifications[i] ==
          if i < 3 && old(store.notifications)[i].id !in old(processedIds)
          then old(store.notifications)[i].(read := true)
          else old(store.notifications)[i]
      ensures store.processed == old(store.processed) && store.issued == old(store.issued)
    {
      var k := if |store.notifications| < 3 then |store.notifications| else 3;
      var batch := store.notifications[..k];
      ghost var original := store.notifications;
      ghost var startDisplayed := displayed;
      ghost var startProcessed := processedIds;
      assert IdsDistinct(original);
      var i := 0;
      while i < k
        invariant 0 <= i <= k
        invariant Valid()
        invariant ShowAll(displayed, processedIds, batch[i..]) == ShowAll(startDisplayed, startProcessed, batch)
        invariant processedIds == startProcessed + IdsOf(batch[..i])
        invariant MarkedUpTo(original, store.notifications, startProcessed, i)
        invariant store.processed == old(store.processed) && store.issued == old(store.issued)
      {
        WalkStep(batch, i, original, startDisplayed, startProcessed);
        i := i + 1;
      }
      Lists.SliceEnds(batch);
    }

    /** One turn of the effect's loop, with the loop's invariant before and
        after it. */
    method WalkStep(batch: seq<Notification>, i: nat, ghost original: seq<Notification>,
                    ghost startDisplayed: seq<Toast>, ghost startProcessed: set<string>)
      requires i < |batch| <= |original| && batch == original[..|batch|] && IdsDistinct(original)
      requires Valid()
      requires ShowAll(displayed, processedIds, batch[i..]) == ShowAll(startDisplayed, startProcessed, batch)
      requires processedIds == startProcessed + IdsOf(batch[..i])
      requires MarkedUpTo(original, store.notifications, startProcessed, i)
      modifies this, store
      ensures Valid()
      ensures ShowAll(displayed, processedIds, batch[i + 1..]) == ShowAll(startDisplayed, startProcessed, batch)
      ensures processedIds == startProcessed + IdsOf(batch[..i + 1])
      ensures MarkedUpTo(original, store.notifications, startProcessed, i + 1)
      ensures store.processed == old(store.processed) && store.issued == old(store.issued)
    {
      var n := batch[i];
      Lists.SliceStep(batch, i);
      IdsOfSnoc(batch[..i], n);
      FreshInPrefix(original, |batch|, i);
      ConsiderOne(n);
    }

    /** One step of the effect's walk. */
    method ConsiderOne(n: Notification)
      requires Valid()
      modifies this, store
      ensures Valid()
      ensures processedIds == old(processedIds) + {n.id}
      ensures displayed == if n.id in old(processedIds) then old(displayed) else Enqueue(old(displayed), ToToast(n))
      ensures store.notifications ==
        if n.id in old(processedIds) || n.read then old(store.notifications)
        else MarkRead(old(store.notifications), n.id)
      ensures store.processed == old(store.processed) && store.issued == old(store.issued)
    {
      if n.id !in processedIds {
        if !n.read {
          store.MarkAsRead(n.id);
        }
        displayed := Enqueue(displayed, ToToast(n));
      }
      processedIds := processedIds + {n.id};
    }

    /** `handleClose(numericId)`: the toast leaves the queue and the first
        entry with that toast id leaves the store and the processed set. */
    method HandleClose(numericId: int)
      requires Valid()
      modifies this, store
      ensures Valid()
      ensures displayed == WithoutToast(old(displayed), numericId)
      ensures match FindByToastId(old(store.notifications), numericId)
        case None =>
          store.notifications == old(store.notifications) && processedIds == old(processedIds)
        case Some(k) =>
          store.notifications == Remove(old(store.notifications), old(store.notifications)[k].id)
          && processedIds == old(processedIds) - {old(store.notifications)[k].id}
      ensures store.processed == old(store.processed)
    {
      displayed := WithoutToast(displayed, numericId);
      assert ToastIdsDistinct(displayed) by {
        WithoutKeepsDistinct(old(displayed), numericId);
      }
      var found := FindByToastId(store.notifications, numericId);
      if found.Some? {
        var id := store.notifications[found.value].id;
        store.RemoveNotification(id);
        processedIds := processedIds - {id};
      }
    }
  }

  lemma {:induction false} WithoutKeepsDistinct(displayed: seq<Toast>, numericId: int)
    requires ToastIdsDistinct(displayed)
    ensures ToastIdsDistinct(WithoutToast(displayed, numericId))
  {
    if displayed != [] {
      WithoutKeepsDistinct(displayed[1..], numericId);
      var rest := WithoutToast(displayed[1..], numericId);
      forall j | 0 <= j < |rest| ensures rest[j].id != displayed[0].id {
        assert rest[j] in displayed[1..];
        var m :| 0 <= m < |displayed[1..]| && displayed[1..][m] == rest[j];
        assert displayed[m + 1] == rest[j];
      }
    }
  }

  // ---------------------------------------------------------------------------
  // bell

  /** The badge over the bell: absent with nothing unread, the count up to
      nine, "9+" above. */
  function BadgeText(unread: nat): (b: Option<string>)
    ensures b.None? <==> unread == 0
    ensures b.Some? ==> 1 <= |b.value| <= 2
    ensures unread > 9 ==> b == Some("9+")
    ensures 0 < unread <= 9 ==> b == Some([DigitChar(unread)])
  {
    if unread == 0 then None
    else if unread > 9 then Some("9+")
    else Some(NatToString(unread))
  }

  /** The bell's accessible label. */
  function BellLabel(unread: nat): (aria: string)
    ensures unread == 0 ==> aria == "Notifications "
    ensures unread > 0 ==> aria == "Notifications (" + NatToString(unread) + " unread)"
  {
    "Notifications " + (if unread > 0 then "(" + NatToString(unread) + " unread)" else "")
  }
}
