/** The STOMP-over-WebSocket service: one broker client, the subscriptions it
    holds by destination, a bounded reconnection counter and the two
    callbacks a caller installs on connect. The broker's asynchronous events
    (connected, disconnected, errors, an incoming frame) are methods the
    environment calls. */
module WsService {
  import opened Text
  import Notifications

  datatype ConnectionStatus = Disconnected | Connecting | Connected | Error | Reconnecting

  const MaxReconnectAttempts: nat := 5
  const ReconnectDelayMs: nat := 5000
  const HeartbeatMs: nat := 20000

  /** A broker subscription: the handle the library returned and the
      destination it listens on. */
  datatype Subscription = Subscription(handle: nat, destination: string)

  /** One callback invocation caused by an incoming frame: the installed
      message callback (the funnel into the notification store) or the
      callback of the subscription itself. */
  datatype Call = Funnel(payload: Notifications.RawMessage) | Own(handle: nat, payload: Notifications.RawMessage)

  function CountOn(subs: seq<Subscription>, dest: string): nat {
    if subs == [] then 0
    else (if subs[0].destination == dest then 1 else 0) + CountOn(subs[1..], dest)
  }

  function CountFunnels(calls: seq<Call>): nat {
    if calls == [] then 0 else (if calls[0].Funnel? then 1 else 0) + CountFunnels(calls[1..])
  }

  /** The calls a parsed frame on `dest` makes: for each live subscription on
      that destination, in subscription order, first the message callback
      (when one is installed) and then the subscription's own callback. */
  function DispatchAll(subs: seq<Subscription>, dest: string, p: Notifications.RawMessage, funnel: bool): (calls: seq<Call>)
    ensures forall i :: 0 <= i < |calls| ==> calls[i].payload == p
    ensures forall i :: 0 <= i < |calls| && calls[i].Funnel? ==>
      funnel && i + 1 < |calls| && calls[i + 1].Own?
  {
    if subs == [] then []
    else
      var here := if subs[0].destination == dest
        then (if funnel then [Funnel(p)] else []) + [Own(subs[0].handle, p)]
        else [];
      here + DispatchAll(subs[1..], dest, p, funnel)
  }

  /** Each live subscription on the destination hands the payload to the
      store once: a destination subscribed twice feeds every event in twice. */
  lemma {:induction false} DispatchCounts(subs: seq<Subscription>, dest: string, p: Notifications.RawMessage, funnel: bool)
    ensures |DispatchAll(subs, dest, p, funnel)| == (if funnel then 2 else 1) * CountOn(subs, dest)
    ensures CountFunnels(DispatchAll(subs, dest, p, funnel)) == (if funnel then CountOn(subs, dest) else 0)
  {
    if subs != [] {
      DispatchCounts(subs[1..], dest, p, funnel);
      var here := if subs[0].destination == dest
        then (if funnel then [Funnel(p)] else []) + [Own(subs[0].handle, p)]
        else [];
      CountFunnelsAppend(here, DispatchAll(subs[1..], dest, p, funnel));
    }
  }

  lemma {:induction false} CountFunnelsAppend(a: seq<Call>, b: seq<Call>)
    ensures CountFunnels(a + b) == CountFunnels(a) + CountFunnels(b)
  {
    if a == [] {
      assert a + b == b;
    } else {
      CountFunnelsAppend(a[1..], b);
      assert (a + b)[1..] == a[1..] + b;
    }
  }

  /** The live subscriptions whose handle is not in `gone`. */
  function Drop(subs: seq<Subscription>, gone: set<nat>): (r: seq<Subscription>)
    ensures forall s :: s in r <==> s in subs && s.handle !in gone
  {
    if subs == [] then []
    else if subs[0].handle in gone then Drop(subs[1..], gone)
    else [subs[0]] + Drop(subs[1..], gone)
  }

  lemma {:induction false} DropUnion(subs: seq<Subscription>, a: set<nat>, b: set<nat>)
    ensures Drop(Drop(subs, a), b) == Drop(subs, a + b)
  {
    if subs != [] {
      DropUnion(subs[1..], a, b);
    }
  }

  lemma {:induction false} DropNothing(subs: seq<Subscription>)
    ensures Drop(subs, {}) == subs
  {
    if subs != [] {
      DropNothing(subs[1..]);
    }
  }

  /** `subscriptions.forEach(sub => sub.unsubscribe())`: ends the tracked
      handles one at a time, in whatever order the map yields them. */
  method EndTracked(live: seq<Subscription>, tracked: set<nat>) returns (rest: seq<Subscription>)
    ensures rest == Drop(live, tracked)
  {
    var pending := tracked;
    rest := live;
    ghost var ended: set<nat> := {};
    DropNothing(live);
    while pending != {}
      invariant pending + ended == tracked
      invariant rest == Drop(live, ended)
      decreases pending
    {
      var h :| h in pending;
      DropUnion(live, ended, {h});
      rest := Drop(rest, {h});
      ended := ended + {h};
      pending := pending - {h};
    }
  }

  class WebSocketService {
    /** Whether a client object exists (`client !== null`). */
    var hasClient: bool
    /** The client's `connected` flag; only meaningful with a client. */
    var connected: bool
    /** The tracked subscriptions, by destination. */
    var subscriptions: map<string, nat>
    /** Every subscription the broker still delivers to: only the current
        client's, and only while its session lasts. */
    var live: seq<Subscription>
    var nextHandle: nat
    var reconnectAttempts: nat
    var hasCallbacks: bool
    /** The connect header the current client was built with. */
    var authorization: Option<string>
    /** Every status handed to the status callback, oldest first. */
    var reported: seq<ConnectionStatus>
    /** Every frame published, as destination and serialised body. */
    var published: seq<(string, string)>

    ghost predicate Valid()
      reads this
    {
      reconnectAttempts <= MaxReconnectAttempts
      && (connected ==> hasClient)
      && (forall d :: d in subscriptions ==> subscriptions[d] < nextHandle)
      && (forall i :: 0 <= i < |live| ==> live[i].handle < nextHandle)
      && (!connected ==> live == [])
    }

    constructor()
      ensures Valid()
      ensures !hasClient && !connected && subscriptions == map[] && live == []
      ensures reconnectAttempts == 0 && !hasCallbacks && reported == [] && published == []
      ensures authorization == None && nextHandle == 0
    {
      hasClient := false;
      connected := false;
      subscriptions := map[];
      live := [];
      nextHandle := 0;
      reconnectAttempts := 0;
      hasCallbacks := false;
      authorization := None;
      reported := [];
      published := [];
    }

    /** `isConnected()`. */
    function IsConnected(): bool
      reads this
    {
      hasClient && connected
    }

    /** `statusCallback?.(status)`. */
    method Report(status: ConnectionStatus)
      modifies this`reported
      ensures reported == old(reported) + (if old(hasCallbacks) then [status] else [])
    {
      if hasCallbacks {
        reported := reported + [status];
      }
    }

    /** `connect(token, …)`: a no-op while connected; otherwise installs the
        callbacks, reports `connecting` and builds a fresh, not yet connected
        client whose header carries the bearer token when there is one; the
        new client holds no subscription. */
    method Connect(token: string)
      requires Valid()
      modifies this`hasCallbacks, this`reported, this`hasClient, this`connected, this`live, this`authorization
      ensures Valid()
      ensures old(IsConnected()) ==> unchanged(this)
      ensures !old(IsConnected()) ==>
        hasCallbacks && hasClient && !connected
        && reported == old(reported) + [Connecting]
        && authorization == (if token != "" then Some("Bearer " + token) else None)
        && subscriptions == old(subscriptions) && live == []
        && reconnectAttempts == old(reconnectAttempts) && published == old(published)
    {
      if hasClient && connected {
        return;
      }
      hasCallbacks := true;
      reported := reported + [Connecting];
      hasClient := true;
      connected := false;
      live := [];
      authorization := if token != "" then Some("Bearer " + token) else None;
    }

    /** The broker accepted the connection. */
    method OnConnect()
      requires Valid() && hasClient
      modifies this`reconnectAttempts, this`connected, this`reported
      ensures Valid()
      ensures connected && reconnectAttempts == 0
      ensures reported == old(reported) + (if old(hasCallbacks) then [Connected] else [])
    {
      reconnectAttempts := 0;
      connected := true;
      Report(Connected);
    }

    /** The session ended: the tracked subscriptions are forgotten and the
        broker delivers to none of them any more. */
    method OnDisconnect()
      requires Valid()
      modifies this`connected, this`live, this`reported, this`subscriptions
      ensures Valid()
      ensures !connected && subscriptions == map[] && live == []
      ensures reported == old(reported) + (if old(hasCallbacks) then [Disconnected] else [])
    {
      connected := false;
      live := [];
      Report(Disconnected);
      subscriptions := map[];
    }

    /** A STOMP ERROR frame: reports `error`, then, while fewer than five
        attempts have been made, counts one more and reports `reconnecting`. */
    method OnStompError()
      requires Valid()
      modifies this`reported, this`reconnectAttempts
      ensures Valid()
      ensures old(reconnectAttempts) < MaxReconnectAttempts ==>
        reconnectAttempts == old(reconnectAttempts) + 1
        && reported == old(reported) + (if old(hasCallbacks) then [Error, Reconnecting] else [])
      ensures old(reconnectAttempts) >= MaxReconnectAttempts ==>
        reconnectAttempts == old(reconnectAttempts)
        && reported == old(reported) + (if old(hasCallbacks) then [Error] else [])
    {
      Report(Error);
      if reconnectAttempts < MaxReconnectAttempts {
        reconnectAttempts := reconnectAttempts + 1;
        Report(Reconnecting);
      }
    }

    /** A transport error: reported, nothing else changes. */
    method OnWebSocketError()
      requires Valid()
      modifies this`reported
      ensures Valid()
      ensures reported == old(reported) + (if old(hasCallbacks) then [Error] else [])
    {
      Report(Error);
    }

    /** `subscribe(destination, callback)`: refused (None) without a
        connected client; otherwise a new live subscription whose handle
        replaces any earlier one tracked for that destination. */
    method Subscribe(destination: string) returns (h: Option<nat>)
      requires Valid()
      modifies this`live, this`subscriptions, this`nextHandle
      ensures Valid()
      ensures !old(IsConnected()) ==> h == None && unchanged(this)
      ensures old(IsConnected()) ==>
        h == Some(old(nextHandle)) && nextHandle == old(nextHandle) + 1
        && live == old(live) + [Subscription(old(nextHandle), destination)]
        && subscriptions == old(subscriptions)[destination := old(nextHandle)]
    {
      if !hasClient || !connected {
        return None;
      }
      h := Some(nextHandle);
      live := live + [Subscription(nextHandle, destination)];
      subscriptions := subscriptions[destination := nextHandle];
      nextHandle := nextHandle + 1;
    }

    /** The function `subscribe` returned: ends that one subscription and
        deletes the destination's entry, whichever handle it now holds. */
    method Unsubscribe(handle: nat, destination: string)
      requires Valid()
      modifies this`live, this`subscriptions
      ensures Valid()
      ensures live == Drop(old(live), {handle})
      ensures subscriptions == old(subscriptions) - {destination}
    {
      live := Drop(live, {handle});
      subscriptions := subscriptions - {destination};
    }

    /** The callbacks an incoming frame on `destination` runs; a body that
        does not parse as JSON (`None`) runs none of them. */
    function Dispatch(destination: string, parsed: Option<Notifications.RawMessage>): (calls: seq<Call>)
      reads this
      ensures parsed == None ==> calls == []
      ensures parsed != None ==>
        CountFunnels(calls) == (if hasCallbacks then CountOn(live, destination) else 0)
    {
      match parsed
      case None => []
      case Some(p) =>
        DispatchCounts(live, destination, p, hasCallbacks);
        DispatchAll(live, destination, p, hasCallbacks)
    }

    /** Nothing reaches the store while the session is down. */
    lemma NothingDeliveredWhileDown(destination: string, parsed: Option<Notifications.RawMessage>)
      requires Valid() && !connected
      ensures Dispatch(destination, parsed) == []
    {
    }

    /** `send(destination, body)`: published only while connected. */
    method Send(destination: string, body: string)
      requires Valid()
      modifies this`published
      ensures Valid()
      ensures old(IsConnected()) ==> published == old(published) + [(destination, body)]
      ensures !old(IsConnected()) ==> published == old(published)
    {
      if !hasClient || !connected {
        return;
      }
      published := published + [(destination, body)];
    }

    /** `disconnect()`: ends every tracked subscription, forgets them,
        deactivates and drops the client (which ends the session, and with it
        any subscription the map no longer tracked) and reports
        `disconnected`. */
    method Disconnect()
      requires Valid()
      modifies this`live, this`subscriptions, this`hasClient, this`connected, this`reported
      ensures Valid()
      ensures live == []
      ensures subscriptions == map[] && !hasClient && !connected && !IsConnected()
      ensures reported == old(reported) + (if old(hasCallbacks) then [Disconnected] else [])
    {
      live := EndTracked(live, subscriptions.Values);
      // `deactivate()` then ends the session and every untracked subscription
      subscriptions := map[];
      live := [];
      hasClient := false;
      connected := false;
      Report(Disconnected);
    }
  }

  /** Reconnection safety: after `disconnect()` and a fresh `connect`, a
      frame runs no callback at all until something subscribes again,
      however many subscriptions the earlier session held or lost track of. */
  method ReconnectDeliversNothing(ws: WebSocketService, token: string, destination: string, p: Notifications.RawMessage)
    returns (calls: seq<Call>)
    requires ws.Valid()
    modifies ws
    ensures ws.Valid() && ws.IsConnected() && ws.live == []
    ensures calls == ws.Dispatch(destination, Some(p)) && calls == []
  {
    ws.Disconnect();
    ws.Connect(token);
    ws.OnConnect();
    calls := ws.Dispatch(destination, Some(p));
  }
}
