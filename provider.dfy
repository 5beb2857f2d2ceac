/** The WebSocket provider that owns one service and one notification store:
    it connects on mount when a usable token and a user are present,
    subscribes to the user's notification topic one second later, and on
    teardown disconnects and forgets the fingerprint window. */
module Provider {
  import opened Text
  import opened WsService
  import NotificationStore

  const TopicPrefix: string := "/topic/match-pop/"

  /** The per-user notification destination. */
  function TopicFor(user: string): (d: string)
    ensures StartsWith(d, TopicPrefix) && d[|TopicPrefix|..] == user
  {
    TopicPrefix + user
  }

  /** The mount guard: a missing token, the empty token, the literal string
      "undefined" and a missing or empty user all stop the provider. */
  predicate CanStart(token: Option<string>, user: Option<string>) {
    token.Some? && token.value != "" && token.value != "undefined"
    && user.Some? && user.value != ""
  }

  class WebSocketProvider {
    const ws: WebSocketService
    const store: NotificationStore.Store

    ghost predicate Valid()
      reads this, ws, store
    {
      ws.Valid() && store.Valid()
    }

    constructor()
      ensures Valid() && fresh(ws) && fresh(store)
      ensures !ws.IsConnected() && ws.reported == []
      ensures store.notifications == [] && store.processed == []
    {
      ws := new WebSocketService();
      store := new NotificationStore.Store();
    }

    /** `connectionStatus`: the last status the service reported, or
        `disconnected` before any. */
    function Status(): (st: ConnectionStatus)
      reads this, ws
      ensures ws.reported == [] ==> st == Disconnected
      ensures ws.reported != [] ==> st == ws.reported[|ws.reported| - 1]
    {
      if ws.reported == [] then Disconnected else ws.reported[|ws.reported| - 1]
    }

    /** The mount effect, up to the delayed subscription: connects exactly
        when the guard passes. */
    method Mount(token: Option<string>, user: Option<string>) returns (started: bool)
      requires Valid()
      modifies ws`hasCallbacks, ws`reported, ws`hasClient, ws`connected, ws`live, ws`authorization
      ensures Valid()
      ensures started <==> CanStart(token, user)
      ensures !started ==> unchanged(ws)
      ensures started && !old(ws.IsConnected()) ==>
        ws.hasClient && !ws.connected && ws.hasCallbacks && ws.live == []
        && ws.reported == old(ws.reported) + [Connecting]
        && ws.authorization == Some("Bearer " + token.value)
      ensures started && old(ws.IsConnected()) ==> unchanged(ws)
    {
      if token == None || token.value == "" || token.value == "undefined" || user == None || user.value == "" {
        return false;
      }
      ws.Connect(token.value);
      started := true;
    }

    /** The timer callback one second after mount: subscribes to the user's
        topic only if the service is connected by then. */
    method SubscribeAfterDelay(user: Option<string>) returns (h: Option<nat>)
      requires Valid()
      modifies ws`live, ws`subscriptions, ws`nextHandle
      ensures Valid()
      ensures h.Some? <==> old(ws.IsConnected()) && user.Some? && user.value != ""
      ensures h.Some? ==>
        ws.live == old(ws.live) + [Subscription(h.value, TopicFor(user.value))]
        && ws.subscriptions == old(ws.subscriptions)[TopicFor(user.value) := h.value]
        && ws.nextHandle == h.value + 1
      ensures h.None? ==> unchanged(ws)
    {
      if ws.IsConnected() && user.Some? && user.value != "" {
        h := ws.Subscribe(TopicFor(user.value));
      } else {
        h := None;
      }
    }

    /** Mount, the broker's acceptance and the delayed timer, in that order:
        from a disconnected service the user's topic ends up subscribed,
        and a frame on it reaches the store exactly once. */
    method MountThenSubscribe(token: Option<string>, user: Option<string>, p: Notifications.RawMessage)
      returns (h: Option<nat>, calls: seq<Call>)
      requires Valid() && !ws.IsConnected() && CanStart(token, user)
      modifies ws`hasCallbacks, ws`reported, ws`hasClient, ws`connected, ws`live, ws`authorization
      modifies ws`reconnectAttempts, ws`subscriptions, ws`nextHandle
      ensures Valid() && ws.IsConnected()
      ensures h.Some? && ws.live == [Subscription(h.value, TopicFor(user.value))]
      ensures ws.reported == old(ws.reported) + [Connecting, Connected]
      ensures calls == ws.Dispatch(TopicFor(user.value), Some(p))
        && CountFunnels(calls) == 1
    {
      var started := Mount(token, user);
      ws.OnConnect();
      h := SubscribeAfterDelay(user);
      assert ws.hasCallbacks && ws.live[1..] == [];
      assert CountOn(ws.live, TopicFor(user.value)) == 1;
      calls := ws.Dispatch(TopicFor(user.value), Some(p));
    }

    /** The effect's cleanup. */
    method Unmount()
      requires Valid()
      modifies ws`live, ws`subscriptions, ws`hasClient, ws`connected, ws`reported, store
      ensures Valid()
      ensures !ws.IsConnected() && ws.subscriptions == map[] && ws.live == []
      ensures store.processed == [] && store.notifications == old(store.notifications)
      ensures ws.reported == old(ws.reported) + (if old(ws.hasCallbacks) then [Disconnected] else [])
    {
      ws.Disconnect();
      store.ClearProcessed();
    }
  }
}
