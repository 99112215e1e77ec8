/**
 * `FinanceWebSocket` (src/lib/api/websocket.js): one streaming connection, a registry of
 * per-symbol listeners, a bounded reconnect counter.  The browser socket and the timers are
 * not run: every callback the source installs (`onopen`, the 100 ms settle timer,
 * `onmessage`, `onerror`, `onclose`, the 3000 ms reconnect timer) is an event method here,
 * every `ws.send` is appended to `outbox` and every listener call to `deliveries`.
 */
module WebSocketFeed {
  import opened Wrappers
  import opened Feed
  import opened Sequences

  /** `readyState` of the socket held in `ws`. CLOSING is not modelled: a held socket is Open
      until its close event. */
  datatype ReadyState = Connecting | Open | Closed

  /** The `ws` field: `null`, or a socket created by `connect(token)`. */
  datatype Socket = NoSocket | Socket(token: string, state: ReadyState)

  /** An inbound frame after `JSON.parse`: a trade batch, a ping, any other type, or text
      that does not parse. A `trade` message whose `data` is missing is `TradeBatch([])`;
      a `null` or `undefined` element of `data` is `None`. */
  datatype Inbound = TradeBatch(data: seq<Option<Trade>>) | Ping | OtherType | Unparseable

  /** The function `subscribe` returns; calling it is `unsubscribe(symbol, listener)`. */
  datatype Handle = Handle(symbol: Symbol, listener: Listener)

  const FeedUrl := "wss://ws.finnhub.io?token="

  /** `subscribe`'s two registry steps (create the set if missing, then add) are `Feed.Add`. */
  lemma AddSteps(r: Registry, s: Symbol, l: Listener)
    ensures var r1 := if s !in r.listeners then Registry(r.listeners[s := []], r.order + [s]) else r;
      var callbacks := r1.listeners[s];
      Add(r, s, l) == if l !in callbacks then r1.(listeners := r1.listeners[s := callbacks + [l]]) else r1
  {
  }

  /** `unsubscribe`'s registry steps (delete the callback, then drop an emptied key) are `Feed.Remove`. */
  lemma RemoveSteps(r: Registry, s: Symbol, l: Listener)
    requires s in r.listeners
    ensures var callbacks := Without(r.listeners[s], l);
      var r1 := r.(listeners := r.listeners[s := callbacks]);
      Remove(r, s, l) == if callbacks == [] then Registry(r1.listeners - {s}, Without(r1.order, s)) else r1
  {
    var callbacks := Without(r.listeners[s], l);
    assert r.listeners[s := callbacks] - {s} == r.listeners - {s};
  }

  class FinanceWebSocket {
    var ws: Socket
    var subscribers: Registry
    var reconnectAttempts: nat
    var isConnecting: bool

    /** URL of every socket constructed, in order. */
    var created: seq<string>
    /** Tokens of sockets no longer held in `ws` whose `close` event is still to come; their
        `onclose` handler still runs and still calls `reconnect`. */
    var detached: seq<string>
    /** Settle timers set by `onopen` and not yet fired. */
    var settleTimers: nat
    /** Reconnect timers not yet fired, in firing order, each with the token it reconnects with. */
    var reconnectTimers: seq<string>
    /** Every message passed to `ws.send`, in order. */
    var outbox: seq<Outbound>
    /** Every listener invocation, in order. */
    var deliveries: seq<Call>

    ghost predicate Valid()
      reads this
    {
      && Clean(subscribers)
      && reconnectAttempts <= MaxReconnectAttempts
      && (isConnecting ==> ws.Socket? && ws.state == Connecting)
    }

    predicate IsOpen()
      reads this
    {
      ws.Socket? && ws.state == Open
    }

    constructor ()
      ensures Valid()
      ensures ws == NoSocket && subscribers == EmptyRegistry && reconnectAttempts == 0 && !isConnecting
      ensures created == [] && detached == [] && settleTimers == 0 && reconnectTimers == []
      ensures outbox == [] && deliveries == []
    {
      ws := NoSocket;
      subscribers := EmptyRegistry;
      reconnectAttempts := 0;
      isConnecting := false;
      created, detached, settleTimers, reconnectTimers := [], [], 0, [];
      outbox, deliveries := [], [];
    }

    /** The effect of `connect(apiKey)`: nothing when the socket is open or a connect is
        pending; otherwise a new socket in `ws` (the replaced one, if it was still
        connecting, keeps its pending close), or, if the constructor throws, only
        `isConnecting` cleared. */
    twostate predicate Connected(apiKey: string, constructorThrows: bool)
      reads this
    {
      if old(IsOpen() || isConnecting) then
        ws == old(ws) && isConnecting == old(isConnecting) && created == old(created) && detached == old(detached)
      else if constructorThrows then
        ws == old(ws) && !isConnecting && created == old(created) && detached == old(detached)
      else
        && ws == Socket(apiKey, Connecting) && isConnecting
        && created == old(created) + [FeedUrl + apiKey]
        && detached == old(detached) + (if old(ws).Socket? && old(ws).state == Connecting then [old(ws).token] else [])
    }

    method Connect(apiKey: string, constructorThrows: bool)
      requires Valid()
      modifies this`ws, this`isConnecting, this`created, this`detached
      ensures Valid()
      ensures Connected(apiKey, constructorThrows)
    {
      if IsOpen() {
        return;
      }
      if isConnecting {
        return;
      }
      isConnecting := true;
      if constructorThrows {
        isConnecting := false;
      } else {
        if ws.Socket? && ws.state == Connecting {
          detached := detached + [ws.token];
        }
        ws := Socket(apiKey, Connecting);
        created := created + [FeedUrl + apiKey];
      }
    }

    /** `onopen`: the handshake completed. */
    method OnOpen()
      requires Valid()
      requires ws.Socket? && ws.state == Connecting
      modifies this`ws, this`isConnecting, this`reconnectAttempts, this`settleTimers
      ensures Valid()
      ensures ws == old(ws).(state := Open) && !isConnecting && reconnectAttempts == 0
      ensures settleTimers == old(settleTimers) + 1
    {
      ws := ws.(state := Open);
      isConnecting := false;
      reconnectAttempts := 0;
      settleTimers := settleTimers + 1;
    }

    /** The settle timer set by `onopen` fires: if the socket is open, one subscribe
        message per registry key, in key order (see `Feed.ReplayExactlyOnce`). */
    method SettleTimerFires()
      requires Valid()
      requires settleTimers > 0
      modifies this`settleTimers, this`outbox
      ensures Valid()
      ensures settleTimers == old(settleTimers) - 1
      ensures outbox == old(outbox) + (if IsOpen() then SubscribeAll(subscribers.order) else [])
    {
      settleTimers := settleTimers - 1;
      if IsOpen() {
        var keys := subscribers.order;
        var i := 0;
        while i < |keys|
          invariant 0 <= i <= |keys|
          invariant settleTimers == old(settleTimers) - 1
          invariant outbox == old(outbox) + SubscribeAll(keys[..i])
        {
          outbox := outbox + [SubscribeMsg(keys[i])];
          i := i + 1;
          assert keys[..i][..i - 1] == keys[..i - 1];
        }
        assert keys[..i] == keys;
      }
    }

    /** `onmessage`: a trade batch is fanned out to the listeners of each trade's symbol,
        each call isolated by its own try/catch (`raises` says which calls throw); a ping is
        answered with one pong if the socket is open; anything else is ignored. */
    method OnMessage(msg: Inbound, raises: (Listener, Trade) -> bool)
      modifies this`outbox, this`deliveries
      ensures deliveries == old(deliveries) + (if msg.TradeBatch? then Dispatch(subscribers.listeners, TradesBeforeNull(msg.data), raises) else [])
      ensures outbox == old(outbox) + (if msg.Ping? && IsOpen() then [Pong] else [])
    {
      match msg
      case TradeBatch(items) =>
        DeliverBatch(items, raises);
      case Ping =>
        if IsOpen() {
          outbox := outbox + [Pong];
        }
      case OtherType =>
      case Unparseable =>
    }

    /** `message.data?.forEach(...)`: trade after trade until the end or a `null` element. */
    method DeliverBatch(items: seq<Option<Trade>>, raises: (Listener, Trade) -> bool)
      modifies this`deliveries
      ensures deliveries == old(deliveries) + Dispatch(subscribers.listeners, TradesBeforeNull(items), raises)
    {
      ghost var trades := TradesBeforeNull(items);
      var i := 0;
      while i < |items| && items[i].Some?
        invariant 0 <= i <= |trades|
        invariant deliveries == old(deliveries) + Dispatch(subscribers.listeners, trades[..i], raises)
      {
        assert i < |trades|;
        DeliverTrade(items[i].value, raises);
        i := i + 1;
        assert trades[..i][..i - 1] == trades[..i - 1];
      }
      assert trades[..i] == trades;
    }

    /** One trade of a batch: every listener of its symbol is called, each in its own try/catch. */
    method DeliverTrade(trade: Trade, raises: (Listener, Trade) -> bool)
      modifies this`deliveries
      ensures deliveries == old(deliveries) + TradeCalls(subscribers.listeners, trade, raises)
    {
      if trade.s in subscribers.listeners {
        var callbacks := subscribers.listeners[trade.s];
        var j := 0;
        while j < |callbacks|
          invariant 0 <= j <= |callbacks|
          invariant deliveries == old(deliveries) + Calls(callbacks[..j], trade, raises)
        {
          deliveries := deliveries + [Call(callbacks[j], trade, raises(callbacks[j], trade))];
          j := j + 1;
          assert callbacks[..j][..j - 1] == callbacks[..j - 1];
        }
        assert callbacks[..j] == callbacks;
      }
    }

    /** `onerror`: only clears `isConnecting`. */
    method OnError()
      requires Valid()
      modifies this`isConnecting
      ensures Valid() && !isConnecting
    {
      isConnecting := false;
    }

    /** `reconnect(apiKey)`: schedule a retry unless the budget of attempts is used up. */
    method Reconnect(apiKey: string)
      requires Valid()
      modifies this`reconnectAttempts, this`reconnectTimers
      ensures Valid()
      ensures var (scheduled, next) := ReconnectStep(old(reconnectAttempts));
        && reconnectAttempts == next
        && reconnectTimers == old(reconnectTimers) + (if scheduled then [apiKey] else [])
    {
      if reconnectAttempts >= MaxReconnectAttempts {
        return;
      }
      reconnectAttempts := reconnectAttempts + 1;
      reconnectTimers := reconnectTimers + [apiKey];
    }

    /** `onclose` of the socket held in `ws`. */
    method OnClose()
      requires Valid()
      requires ws.Socket? && ws.state != Closed
      modifies this`ws, this`isConnecting, this`reconnectAttempts, this`reconnectTimers
      ensures Valid()
      ensures ws == old(ws).(state := Closed) && !isConnecting
      ensures var (scheduled, next) := ReconnectStep(old(reconnectAttempts));
        && reconnectAttempts == next
        && reconnectTimers == old(reconnectTimers) + (if scheduled then [old(ws).token] else [])
    {
      ws := ws.(state := Closed);
      isConnecting := false;
      Reconnect(ws.token);
    }

    /** `onclose` of the `i`-th detached socket: its handler still clears `isConnecting`
        and calls `reconnect`, whatever socket `ws` now holds. */
    method DetachedSocketClosed(i: nat)
      requires Valid()
      requires i < |detached|
      modifies this`detached, this`isConnecting, this`reconnectAttempts, this`reconnectTimers
      ensures Valid() && !isConnecting
      ensures detached == old(detached[..i] + detached[i + 1..])
      ensures var (scheduled, next) := ReconnectStep(old(reconnectAttempts));
        && reconnectAttempts == next
        && reconnectTimers == old(reconnectTimers) + (if scheduled then [old(detached[i])] else [])
    {
      var token := detached[i];
      detached := detached[..i] + detached[i + 1..];
      isConnecting := false;
      Reconnect(token);
    }

    /** The earliest reconnect timer fires and calls `connect` with its token. */
    method ReconnectTimerFires(constructorThrows: bool)
      requires Valid()
      requires reconnectTimers != []
      modifies this`reconnectTimers, this`ws, this`isConnecting, this`created, this`detached
      ensures Valid()
      ensures reconnectTimers == old(reconnectTimers[1..])
      ensures Connected(old(reconnectTimers[0]), constructorThrows)
    {
      var token := reconnectTimers[0];
      reconnectTimers := reconnectTimers[1..];
      Connect(token, constructorThrows);
    }

    /** `subscribe(symbol, callback)`: register the listener; if the socket is open, send a
        subscribe message, on every call, even when the symbol already had listeners. */
    method Subscribe(symbol: Symbol, callback: Listener) returns (h: Handle)
      requires Valid()
      modifies this`subscribers, this`outbox
      ensures Valid()
      ensures subscribers == Add(old(subscribers), symbol, callback)
      ensures symbol in subscribers.listeners && callback in subscribers.listeners[symbol]
      ensures outbox == old(outbox) + (if IsOpen() then [SubscribeMsg(symbol)] else [])
      ensures h == Handle(symbol, callback)
    {
      ghost var r0 := subscribers;
      if symbol !in subscribers.listeners {
        subscribers := Registry(subscribers.listeners[symbol := []], subscribers.order + [symbol]);
      }
      var callbacks := subscribers.listeners[symbol];
      if callback !in callbacks {
        subscribers := subscribers.(listeners := subscribers.listeners[symbol := callbacks + [callback]]);
      }
      AddSteps(r0, symbol, callback);
      AddSpec(r0, symbol, callback);
      if IsOpen() {
        outbox := outbox + [SubscribeMsg(symbol)];
      }
      h := Handle(symbol, callback);
    }

    /** `unsubscribe(symbol, callback)`: delete the listener; when that empties the set, drop
        the symbol and, if the socket is open, send one unsubscribe message. */
    method Unsubscribe(symbol: Symbol, callback: Listener)
      requires Valid()
      modifies this`subscribers, this`outbox
      ensures Valid()
      ensures subscribers == Remove(old(subscribers), symbol, callback)
      ensures outbox == old(outbox) + (if EmptiesSymbol(old(subscribers), symbol, callback) && IsOpen() then [UnsubscribeMsg(symbol)] else [])
    {
      ghost var r0 := subscribers;
      RemoveSpec(r0, symbol, callback);
      if symbol in subscribers.listeners {
        RemoveSteps(r0, symbol, callback);
        var callbacks := Without(subscribers.listeners[symbol], callback);
        subscribers := subscribers.(listeners := subscribers.listeners[symbol := callbacks]);
        if callbacks == [] {
          subscribers := Registry(subscribers.listeners - {symbol}, Without(subscribers.order, symbol));
          if IsOpen() {
            outbox := outbox + [UnsubscribeMsg(symbol)];
          }
        }
      }
    }

    /** Calling the handle `subscribe` returned. */
    method Dispose(h: Handle)
      requires Valid()
      modifies this`subscribers, this`outbox
      ensures Valid()
      ensures subscribers == Remove(old(subscribers), h.symbol, h.listener)
      ensures outbox == old(outbox) + (if EmptiesSymbol(old(subscribers), h.symbol, h.listener) && IsOpen() then [UnsubscribeMsg(h.symbol)] else [])
    {
      Unsubscribe(h.symbol, h.listener);
    }

    /** `disconnect()`: close and drop the socket (its close event still comes, and still
        calls `reconnect`), clear the registry and `isConnecting`; `reconnectAttempts` and
        pending timers are left as they are. */
    method Disconnect()
      requires Valid()
      modifies this`ws, this`detached, this`subscribers, this`isConnecting
      ensures Valid()
      ensures ws == NoSocket && subscribers == EmptyRegistry && !isConnecting
      ensures detached == old(detached) + (if old(ws).Socket? && old(ws).state != Closed then [old(ws).token] else [])
      ensures reconnectAttempts == old(reconnectAttempts) && reconnectTimers == old(reconnectTimers)
    {
      if ws.Socket? {
        if ws.state != Closed {
          detached := detached + [ws.token];
        }
        ws := NoSocket;
      }
      subscribers := EmptyRegistry;
      isConnecting := false;
    }
  }

  // ---------------------------------------------------------------------------
  // Scenarios: what a client observes from a fresh manager

  /** A listener that throws does not keep the next listener of the same symbol from
      receiving the trade. */
  method ThrowingListenerIsolated(t: Trade, first: Listener, second: Listener) returns (calls: seq<Call>)
    requires first != second
    ensures |calls| == 2
    ensures calls[0] == Call(first, t, true) && calls[1] == Call(second, t, false)
  {
    var m := new FinanceWebSocket();
    var _ := m.Subscribe(t.s, first);
    var _ := m.Subscribe(t.s, second);
    var raises := (l: Listener, tr: Trade) => l == first;
    SubscribedPairDispatch(t, first, second, raises);
    assert TradesBeforeNull([Some(t)]) == [t];
    m.OnMessage(TradeBatch([Some(t)]), raises);
    calls := m.deliveries;
  }

  /** Two callbacks subscribed to a trade's symbol are called for it in subscription order. */
  lemma SubscribedPairDispatch(t: Trade, first: Listener, second: Listener, raises: (Listener, Trade) -> bool)
    requires first != second
    ensures Dispatch(Add(Add(EmptyRegistry, t.s, first), t.s, second).listeners, [t], raises)
         == [Call(first, t, raises(first, t)), Call(second, t, raises(second, t))]
  {
    var reg := Add(Add(EmptyRegistry, t.s, first), t.s, second).listeners;
    assert reg[t.s] == [first, second];
    TwoListenersDispatch(reg, t, first, second, raises);
  }

  lemma TwoListenersDispatch(reg: map<Symbol, seq<Listener>>, t: Trade, first: Listener, second: Listener,
                             raises: (Listener, Trade) -> bool)
    requires t.s in reg && reg[t.s] == [first, second]
    ensures Dispatch(reg, [t], raises) == [Call(first, t, raises(first, t)), Call(second, t, raises(second, t))]
  {
    assert [t][..0] == [];
    assert Dispatch(reg, [t], raises) == Calls([first, second], t, raises);
    assert [first, second][..1] == [first];
    assert [first][..0] == [];
    assert Calls([first], t, raises) == [Call(first, t, raises(first, t))];
  }

  /** A ping on the open socket is answered by exactly one pong and reaches no listener. */
  method PingAnswered(s: Symbol, l: Listener) returns (sent: seq<Outbound>, calls: seq<Call>)
    ensures sent == [SubscribeMsg(s), Pong] && calls == []
  {
    var m := OpenManager("demo");
    var _ := m.Subscribe(s, l);
    assert m.IsOpen() && m.outbox == [SubscribeMsg(s)] && m.deliveries == [];
    m.OnMessage(Ping, (l, tr) => false);
    sent, calls := m.outbox, m.deliveries;
  }

  /** A fresh manager whose first socket has opened. */
  method OpenManager(token: string) returns (m: FinanceWebSocket)
    ensures fresh(m) && m.Valid() && m.ws == Socket(token, Open)
    ensures m.subscribers == EmptyRegistry && m.outbox == [] && m.deliveries == []
    ensures m.created == [FeedUrl + token] && m.detached == [] && m.reconnectTimers == [] && m.reconnectAttempts == 0
  {
    m := new FinanceWebSocket();
    m.Connect(token, false);
    m.OnOpen();
  }

  /** A socket that never opens is retried five times and then left closed. */
  method RetriesExhausted(token: string) returns (attempts: nat, sockets: nat, pending: nat)
    ensures attempts == MaxReconnectAttempts && sockets == MaxReconnectAttempts + 1 && pending == 0
  {
    var m := new FinanceWebSocket();
    m.Connect(token, false);
    FailAndRetry(m, token);
    FailAndRetry(m, token);
    FailAndRetry(m, token);
    FailAndRetry(m, token);
    FailAndRetry(m, token);
    m.OnError();
    m.OnClose();
    attempts, sockets, pending := m.reconnectAttempts, |m.created|, |m.reconnectTimers|;
  }

  /** A connecting socket errors and closes; the retry timer this schedules fires and connects again. */
  method FailAndRetry(m: FinanceWebSocket, token: string)
    requires m.Valid() && m.ws == Socket(token, Connecting)
    requires m.reconnectTimers == [] && m.reconnectAttempts < MaxReconnectAttempts
    modifies m
    ensures m.Valid() && m.ws == Socket(token, Connecting) && m.reconnectTimers == []
    ensures m.reconnectAttempts == old(m.reconnectAttempts) + 1 && |m.created| == old(|m.created|) + 1
  {
    m.OnError();
    m.OnClose();
    m.ReconnectTimerFires(false);
  }

  /** `disconnect()` does not stop reconnection: the dropped socket's close event still
      schedules a retry, and that retry opens a new socket. */
  method ReconnectsAfterDisconnect(token: string) returns (sockets: nat, connecting: bool)
    ensures sockets == 2 && connecting
  {
    var m := OpenManager(token);
    m.Disconnect();
    m.DetachedSocketClosed(0);
    m.ReconnectTimerFires(false);
    sockets, connecting := |m.created|, m.isConnecting;
  }
}
