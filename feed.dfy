/**
 * The value-level model behind `FinanceWebSocket` (src/lib/api/websocket.js): the
 * subscriber registry (a `Map` from symbol to a `Set` of callbacks), the messages the
 * manager sends upstream, trade dispatch and the reconnect-attempt policy.  The class in
 * websocket.dfy performs these steps in place; this module states what they mean.
 */
module Feed {
  import opened Wrappers
  import opened Sequences

  type Symbol = string

  /** A listener is known to the manager only by identity, as a callback reference. */
  type Listener = nat

  const MaxReconnectAttempts: nat := 5

  /**
   * The `subscribers` map: `listeners[s]` is the callback set of `s` in insertion order
   * (JavaScript `Set` iteration order) and `order` lists the keys in `Map` insertion order.
   */
  datatype Registry = Registry(listeners: map<Symbol, seq<Listener>>, order: seq<Symbol>)

  const EmptyRegistry := Registry(map[], [])

  /** The registry invariant: a symbol is a key iff it has at least one listener. */
  ghost predicate Clean(r: Registry)
  {
    && NoDup(r.order)
    && (forall s :: s in r.listeners <==> s in r.order)
    && (forall s :: s in r.listeners ==> r.listeners[s] != [] && NoDup(r.listeners[s]))
  }

  /** `subscribe`'s registry step: create the set if missing, then `add` the callback. */
  function Add(r: Registry, s: Symbol, l: Listener): (r': Registry)
    ensures s in r'.listeners && l in r'.listeners[s]
    ensures r'.listeners.Keys == r.listeners.Keys + {s}
  {
    var existing := if s in r.listeners then r.listeners[s] else [];
    Registry(r.listeners[s := if l in existing then existing else existing + [l]],
             if s in r.listeners then r.order else r.order + [s])
  }

  /** `unsubscribe`'s registry step: `delete` the callback and drop the key once its set is empty. */
  function Remove(r: Registry, s: Symbol, l: Listener): (r': Registry)
    ensures r'.listeners.Keys <= r.listeners.Keys
    ensures s in r'.listeners ==> l !in r'.listeners[s]
  {
    if s !in r.listeners then r
    else
      var rest := Without(r.listeners[s], l);
      if rest == [] then Registry(r.listeners - {s}, Without(r.order, s))
      else Registry(r.listeners[s := rest], r.order)
  }

  /** Whether `unsubscribe(s, l)` empties the set of `s` (and so tells the feed to stop). */
  predicate EmptiesSymbol(r: Registry, s: Symbol, l: Listener)
  {
    s in r.listeners && Without(r.listeners[s], l) == []
  }

  /** Subscribing keeps the registry clean, registers the listener at the end of its
      symbol's set (or leaves the set alone if it was already there) and touches no other symbol. */
  lemma AddSpec(r: Registry, s: Symbol, l: Listener)
    requires Clean(r)
    ensures var r' := Add(r, s, l);
      && Clean(r')
      && s in r'.listeners && l in r'.listeners[s]
      && (s in r.listeners && l in r.listeners[s] ==> r' == r)
      && (!(s in r.listeners && l in r.listeners[s]) ==>
            r'.listeners[s] == (if s in r.listeners then r.listeners[s] else []) + [l])
      && (forall t :: t != s ==> (t in r'.listeners <==> t in r.listeners))
      && (forall t :: t != s && t in r.listeners ==> r'.listeners[t] == r.listeners[t])
      && r'.order == (if s in r.listeners then r.order else r.order + [s])
  {
    var r' := Add(r, s, l);
    if s in r.listeners {
      var ls := r.listeners[s];
      if l !in ls {
        forall i, j | 0 <= i < j < |ls + [l]| ensures (ls + [l])[i] != (ls + [l])[j] {
          if j == |ls| { assert (ls + [l])[i] == ls[i] && ls[i] in ls; }
        }
      } else {
        assert r'.listeners == r.listeners;
      }
    } else {
      forall i, j | 0 <= i < j < |r.order + [s]| ensures (r.order + [s])[i] != (r.order + [s])[j] {
        if j == |r.order| { assert (r.order + [s])[i] == r.order[i] && r.order[i] in r.order; }
      }
    }
  }

  /** Unsubscribing keeps the registry clean, removes exactly that listener of that symbol,
      drops the key precisely when the set becomes empty, and touches no other symbol. */
  lemma RemoveSpec(r: Registry, s: Symbol, l: Listener)
    requires Clean(r)
    ensures var r' := Remove(r, s, l);
      && Clean(r')
      && (s in r'.listeners ==> l !in r'.listeners[s])
      && (s in r'.listeners <==> s in r.listeners && !EmptiesSymbol(r, s, l))
      && (EmptiesSymbol(r, s, l) <==> s in r.listeners && r.listeners[s] == [l])
      && (s in r'.listeners ==> r'.listeners[s] == Without(r.listeners[s], l))
      && (s in r'.listeners ==> Subsequence(r'.listeners[s], r.listeners[s]))
      && Subsequence(r'.order, r.order)
      && (forall t :: t != s ==> (t in r'.listeners <==> t in r.listeners))
      && (forall t :: t != s && t in r.listeners ==> r'.listeners[t] == r.listeners[t])
  {
    SubsequenceOfItself(r.order);
    if s in r.listeners {
      var ls := r.listeners[s];
      WithoutKeepsNoDup(ls, l);
      if Without(ls, l) == [] {
        WithoutKeepsNoDup(r.order, s);
        assert ls == [l] by {
          assert l in ls by { assert ls[0] in ls; }
          WithoutLength(ls, l);
          assert ls[0] == l;
        }
      }
    }
  }

  /** Calling the unsubscribe handle a second time changes nothing and sends nothing. */
  lemma {:induction false} RemoveIdempotent(r: Registry, s: Symbol, l: Listener)
    ensures Remove(Remove(r, s, l), s, l) == Remove(r, s, l)
    ensures !EmptiesSymbol(Remove(r, s, l), s, l)
  {
    if s in r.listeners {
      var rest := Without(r.listeners[s], l);
      if rest != [] {
        var r1 := Remove(r, s, l);
        assert Without(rest, l) == rest;
        assert r1.listeners[s := rest] == r1.listeners;
      }
    }
  }

  /** The handle returned by `subscribe` undoes it when the listener was new. */
  lemma {:induction false} RemoveUndoesAdd(r: Registry, s: Symbol, l: Listener)
    requires Clean(r)
    requires !(s in r.listeners && l in r.listeners[s])
    ensures Remove(Add(r, s, l), s, l) == r
  {
    if s in r.listeners {
      var ls := r.listeners[s];
      WithoutAppended(ls, l);
      assert Without(ls + [l], l) == ls != [];
      assert r.listeners[s := ls] == r.listeners;
    } else {
      assert s !in r.order;
      WithoutAppended(r.order, s);
      WithoutAppended([], l);
      assert r.listeners[s := [l]] - {s} == r.listeners;
    }
  }

  // ---------------------------------------------------------------------------
  // Messages

  /** A trade event `{s, p, v, t}` of the inbound feed. */
  datatype Trade = Trade(s: Symbol, p: real, v: int, t: int)

  /** The messages the manager sends upstream. */
  datatype Outbound = SubscribeMsg(symbol: Symbol) | UnsubscribeMsg(symbol: Symbol) | Pong

  /** One listener invocation: which listener, on which trade, and whether it threw. */
  datatype Call = Call(listener: Listener, trade: Trade, raised: bool)

  /** The subscribe messages of the settle timer's replay: one per key, in key order. */
  function SubscribeAll(symbols: seq<Symbol>): (r: seq<Outbound>)
    ensures |r| == |symbols|
  {
    if symbols == [] then []
    else SubscribeAll(symbols[..|symbols| - 1]) + [SubscribeMsg(symbols[|symbols| - 1])]
  }

  lemma {:induction false} SubscribeAllCount(symbols: seq<Symbol>, s: Symbol)
    requires NoDup(symbols)
    ensures multiset(SubscribeAll(symbols))[SubscribeMsg(s)] == if s in symbols then 1 else 0
    ensures forall m :: m in SubscribeAll(symbols) ==> m.SubscribeMsg? && m.symbol in symbols
  {
    if symbols != [] {
      var init := symbols[..|symbols| - 1];
      var last := symbols[|symbols| - 1];
      assert NoDup(init) by {
        forall i, j | 0 <= i < j < |init| ensures init[i] != init[j] {
          assert init[i] == symbols[i] && init[j] == symbols[j];
        }
      }
      SubscribeAllCount(init, s);
      assert last !in init by {
        forall k | 0 <= k < |init| ensures init[k] != last { assert init[k] == symbols[k]; }
      }
      assert symbols == init + [last];
      assert s in symbols <==> s in init || s == last;
    }
  }

  /** Replay on open: exactly one subscribe message per registered symbol and nothing else. */
  lemma ReplayExactlyOnce(r: Registry, s: Symbol)
    requires Clean(r)
    ensures multiset(SubscribeAll(r.order))[SubscribeMsg(s)] == if s in r.listeners then 1 else 0
    ensures forall m :: m in SubscribeAll(r.order) ==> m.SubscribeMsg? && m.symbol in r.listeners
  {
    SubscribeAllCount(r.order, s);
  }

  // ---------------------------------------------------------------------------
  // Trade dispatch

  /** The calls `callbacks.forEach(cb => cb(trade))` makes, each wrapped in its own try/catch. */
  function Calls(ls: seq<Listener>, t: Trade, raises: (Listener, Trade) -> bool): (r: seq<Call>)
    ensures |r| == |ls|
  {
    if ls == [] then []
    else Calls(ls[..|ls| - 1], t, raises) + [Call(ls[|ls| - 1], t, raises(ls[|ls| - 1], t))]
  }

  /** The calls one trade causes: all listeners of its symbol, or none for an unknown symbol. */
  function TradeCalls(reg: map<Symbol, seq<Listener>>, t: Trade, raises: (Listener, Trade) -> bool): (r: seq<Call>)
    ensures |r| == if t.s in reg then |reg[t.s]| else 0
    ensures t.s !in reg ==> r == []
  {
    if t.s in reg then Calls(reg[t.s], t, raises) else []
  }

  /** The calls a `trade` message with batch `trades` causes, trade after trade. */
  function Dispatch(reg: map<Symbol, seq<Listener>>, trades: seq<Trade>, raises: (Listener, Trade) -> bool): seq<Call>
  {
    if trades == [] then []
    else Dispatch(reg, trades[..|trades| - 1], raises) + TradeCalls(reg, trades[|trades| - 1], raises)
  }

  /** Every call of a batch is to a listener registered for the symbol of one of its trades. */
  lemma {:induction false} DispatchTargets(reg: map<Symbol, seq<Listener>>, trades: seq<Trade>, raises: (Listener, Trade) -> bool)
    ensures forall c :: c in Dispatch(reg, trades, raises) ==>
      c.trade in trades && c.trade.s in reg && c.listener in reg[c.trade.s]
    decreases |trades|
  {
    if trades != [] {
      var init := trades[..|trades| - 1];
      var last := trades[|trades| - 1];
      DispatchTargets(reg, init, raises);
      if last.s in reg {
        CallsTargets(reg[last.s], last, raises);
      }
      assert forall t :: t in init ==> t in trades;
    }
  }

  /** Every call for one trade is with that trade, to one of the listeners given. */
  lemma {:induction false} CallsTargets(ls: seq<Listener>, t: Trade, raises: (Listener, Trade) -> bool)
    ensures forall c :: c in Calls(ls, t, raises) ==> c.trade == t && c.listener in ls
    decreases |ls|
  {
    if ls != [] {
      CallsTargets(ls[..|ls| - 1], t, raises);
      assert forall l :: l in ls[..|ls| - 1] ==> l in ls;
    }
  }

  /**
   * The trades `message.data?.forEach` gets through: a `null` or `undefined` element (`None`)
   * makes `trade.s` throw, the handler's outer try/catch swallows the error, and the rest of
   * the batch is never looked at.
   */
  function TradesBeforeNull(items: seq<Option<Trade>>): (r: seq<Trade>)
    ensures |r| <= |items|
    ensures forall i :: 0 <= i < |r| ==> items[i] == Some(r[i])
    ensures |r| < |items| ==> items[|r|] == None
  {
    if items == [] || items[0].None? then [] else [items[0].value] + TradesBeforeNull(items[1..])
  }

  /** A null element ends the batch: in `[t1, null, t2]` only `t1` reaches its listeners. */
  lemma NullEndsBatch(reg: map<Symbol, seq<Listener>>, t1: Trade, t2: Trade, raises: (Listener, Trade) -> bool)
    ensures Dispatch(reg, TradesBeforeNull([Some(t1), None, Some(t2)]), raises) == TradeCalls(reg, t1, raises)
  {
    assert TradesBeforeNull([Some(t1), None, Some(t2)]) == [t1];
    assert [t1][..0] == [];
  }

  lemma {:induction false} CallsAt(ls: seq<Listener>, t: Trade, raises: (Listener, Trade) -> bool, i: nat)
    requires i < |ls|
    ensures Calls(ls, t, raises)[i] == Call(ls[i], t, raises(ls[i], t))
  {
    if i < |ls| - 1 {
      CallsAt(ls[..|ls| - 1], t, raises, i);
    }
  }

  /** Fan-out: a trade for a registered symbol reaches each of its listeners exactly once,
      in registration order, whether or not any of them throws; other trades reach nobody. */
  lemma FanOut(reg: map<Symbol, seq<Listener>>, t: Trade, raises: (Listener, Trade) -> bool)
    ensures var d := Dispatch(reg, [t], raises);
      && (t.s !in reg ==> d == [])
      && (t.s in reg ==> |d| == |reg[t.s]|)
      && (t.s in reg ==> forall i :: 0 <= i < |d| ==> d[i].listener == reg[t.s][i] && d[i].trade == t)
  {
    assert [t][..0] == [];
    var d := Dispatch(reg, [t], raises);
    assert d == Dispatch(reg, [], raises) + TradeCalls(reg, t, raises);
    if t.s in reg {
      assert d == Calls(reg[t.s], t, raises);
      forall i | 0 <= i < |d| ensures d[i].listener == reg[t.s][i] && d[i].trade == t {
        CallsAt(reg[t.s], t, raises, i);
      }
    }
  }

  /** Trades are handled in the order received: a batch's calls are its parts' calls in sequence. */
  lemma {:induction false} DispatchAppend(reg: map<Symbol, seq<Listener>>, a: seq<Trade>, b: seq<Trade>, raises: (Listener, Trade) -> bool)
    ensures Dispatch(reg, a + b, raises) == Dispatch(reg, a, raises) + Dispatch(reg, b, raises)
    decreases |b|
  {
    if b == [] {
      assert a + b == a;
    } else {
      var b' := b[..|b| - 1];
      assert (a + b)[..|a + b| - 1] == a + b';
      DispatchAppend(reg, a, b', raises);
    }
  }

  /** Listener isolation: which listener is called on which trade does not depend on which
      listeners throw; only the recorded `raised` flags differ. */
  lemma {:induction false} DispatchIgnoresFailures(reg: map<Symbol, seq<Listener>>, trades: seq<Trade>,
                                                   f: (Listener, Trade) -> bool, g: (Listener, Trade) -> bool)
    ensures |Dispatch(reg, trades, f)| == |Dispatch(reg, trades, g)|
    ensures forall i :: 0 <= i < |Dispatch(reg, trades, f)| ==>
      Dispatch(reg, trades, f)[i].listener == Dispatch(reg, trades, g)[i].listener &&
      Dispatch(reg, trades, f)[i].trade == Dispatch(reg, trades, g)[i].trade
  {
    if trades != [] {
      var init := trades[..|trades| - 1];
      var t := trades[|trades| - 1];
      DispatchIgnoresFailures(reg, init, f, g);
      if t.s in reg {
        forall i | 0 <= i < |reg[t.s]|
          ensures Calls(reg[t.s], t, f)[i].listener == Calls(reg[t.s], t, g)[i].listener
          ensures Calls(reg[t.s], t, f)[i].trade == Calls(reg[t.s], t, g)[i].trade
        {
          CallsAt(reg[t.s], t, f, i);
          CallsAt(reg[t.s], t, g, i);
        }
      }
    }
  }

  // ---------------------------------------------------------------------------
  // Reconnect policy

  /** One `reconnect()`: whether a retry is scheduled, and the new attempt count. */
  function ReconnectStep(attempts: nat): (r: (bool, nat))
    ensures r.0 <==> attempts < MaxReconnectAttempts
    ensures r.1 == if r.0 then attempts + 1 else attempts
  {
    if attempts >= MaxReconnectAttempts then (false, attempts) else (true, attempts + 1)
  }

  /** `k` closes in a row with no successful open in between, starting from `attempts`:
      the final attempt count and the number of retries scheduled. */
  function FailedCloses(attempts: nat, k: nat): (r: (nat, nat))
    ensures r.0 == attempts + r.1 && r.1 <= k
    decreases k
  {
    if k == 0 then (attempts, 0)
    else
      var (scheduled, next) := ReconnectStep(attempts);
      var (final, count) := FailedCloses(next, k - 1);
      (final, count + if scheduled then 1 else 0)
  }

  /** Reconnect bound: a connection that keeps failing is retried until the budget of
      five attempts is used up, and never again. */
  lemma {:induction false} FailedClosesBound(attempts: nat, k: nat)
    requires attempts <= MaxReconnectAttempts
    ensures var (final, count) := FailedCloses(attempts, k);
      && final == (if attempts + k <= MaxReconnectAttempts then attempts + k else MaxReconnectAttempts)
      && count == final - attempts
    decreases k
  {
    if k > 0 {
      FailedClosesBound(ReconnectStep(attempts).1, k - 1);
    }
  }

  lemma RetriesFromFreshStart(k: nat)
    ensures FailedCloses(0, k).1 == if k <= MaxReconnectAttempts then k else MaxReconnectAttempts
  {
    FailedClosesBound(0, k);
  }
}
