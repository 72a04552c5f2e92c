/** Batch subscribe and unsubscribe: preparing each request's connection, the map of
    connections whose opening is delayed until the batch is prepared, the one-shot
    acknowledgement listeners that flip a slot's flags, and the futures they settle.
    Opening, connecting, sending and waiting are abstract steps: each is logged, and
    its outcome comes from an environment. */
module Subscriptions {
  import opened Common
  import opened Dicts
  import opened Contexts
  import opened Resolver

  /** An entry of `websocketDelayedConnections`. */
  datatype Delayed = Delayed(conxtpl: Option<string>, reset: bool)

  /** An asyncio future: pending, or settled with a result or an exception. */
  datatype FutureState = Unresolved | Resolved(value: Json) | Raised(error: Error)

  datatype AckKind = SubscribeAck | UnsubscribeAck

  /** A once-listener registered under a request's nonce. */
  datatype Listener = Listener(kind: AckKind, conxid: string, event: string, symbol: string, params: Params, future: nat)

  /** One request of a batch. */
  datatype Request = Request(event: string, symbol: string, params: Params)

  /** What the exchange does while a request's future is awaited: it acknowledges the
      nonce, or stays silent until the timer fires. */
  datatype Response = Answer(success: bool, ex: Option<Error>) | Silence

  /** Transport steps, in the order they happen. */
  datatype Step =
    | Closed(conxid: string)
    | Connected(conxid: string)
    | Sent(kind: AckKind, conxid: string, event: string, symbol: string, oid: nat)

  /** What the model does not see: template filling, the exchange's URL builder, the
      connection object and its liveness, the outcome of connecting and sending, the
      nonce source, and the exchange's answer to a request. */
  datatype Env = Env(
    implode: Implode,
    urlStream: UrlStream,
    open: (Config, string) -> Connection,
    isActive: Connection -> bool,
    connect: string -> Outcome,
    send: (AckKind, string, string, string, nat, Params) -> Outcome,
    nonce: nat -> nat,
    respond: nat -> Response)

  // ----- connections -----

  /** The connection types `_websocket_initialize` can open. */
  const InitTypes: set<string> := {"signalr", "ws", "ws-s"}

  /** `_websocket_initialize`: new, unauthenticated, not ready connection info for the
      types it can open, NotSupported for the others. */
  function Initialize(config: Config, conxid: string, open: (Config, string) -> Connection): (r: Result<ConnectionInfo>)
    requires "type" in config
    ensures r.Ok? <==> config["type"] in InitTypes
    ensures r.Ok? ==> r.value == ConnectionInfo(false, false, open(config, conxid))
    ensures r.Err? ==> r.error == NotSupported(InvalidConnectionType(config["type"]))
  {
    if config["type"] in InitTypes then Ok(ConnectionInfo(false, false, open(config, conxid)))
    else Err(NotSupported(InvalidConnectionType(config["type"])))
  }

  /** The resolver accepts `ws-io` and `pusher` connections with a plain connect, but
      no connection of those types can be opened. */
  lemma ConnectTypesBeyondInitialize(config: Config, conxid: string, open: (Config, string) -> Connection)
    requires "type" in config && config["type"] in {"ws-io", "pusher"}
    ensures config["type"] in ConnectTypes
    ensures Initialize(config, conxid, open) == Err(NotSupported(InvalidConnectionType(config["type"])))
  {
  }

  // ----- flushing delayed connections -----

  /** The number of connections that succeed before the first failure. */
  function FirstFailure(ids: seq<string>, connect: string -> Outcome): (n: nat)
    ensures n <= |ids|
    ensures forall j :: 0 <= j < n ==> connect(ids[j]).Pass?
    ensures n < |ids| ==> connect(ids[n]).Fail?
  {
    if |ids| == 0 then 0
    else if connect(ids[0]).Fail? then 0
    else 1 + FirstFailure(ids[1..], connect)
  }

  lemma FirstFailureUnique(ids: seq<string>, connect: string -> Outcome, n: nat)
    requires n <= |ids|
    requires forall j :: 0 <= j < n ==> connect(ids[j]).Pass?
    requires n < |ids| ==> connect(ids[n]).Fail?
    ensures FirstFailure(ids, connect) == n
  {
  }

  /** The connection ids a flush tries: all of them, or up to the first failure. */
  function Attempted(ids: seq<string>, connect: string -> Outcome): seq<string> {
    var n := FirstFailure(ids, connect);
    if n < |ids| then ids[..n + 1] else ids
  }

  function ConnectSteps(ids: seq<string>): (steps: seq<Step>)
    ensures |steps| == |ids|
    ensures forall i :: 0 <= i < |ids| ==> steps[i] == Connected(ids[i])
  {
    seq(|ids|, i requires 0 <= i < |ids| => Connected(ids[i]))
  }

  /** A flush connects each queued connection at most once, and every one of them
      when no connection fails. */
  lemma FlushConnectsOnce(d: Dict<string, Delayed>, connect: string -> Outcome, conxid: string)
    requires Distinct(d)
    ensures var steps := ConnectSteps(Attempted(Keys(d), connect));
      && (forall i, j :: 0 <= i < j < |steps| ==> steps[i] != steps[j])
      && (Connected(conxid) in steps ==> Has(d, conxid))
      && (FirstFailure(Keys(d), connect) == |d| ==> (Connected(conxid) in steps <==> Has(d, conxid)))
  {
    var ids := Keys(d);
    var steps := ConnectSteps(Attempted(ids, connect));
    var a := Attempted(ids, connect);
    assert forall i :: 0 <= i < |a| ==> a[i] == ids[i];
    if Connected(conxid) in steps {
      var i :| 0 <= i < |steps| && steps[i] == Connected(conxid);
      HasIff(d, conxid);
      assert d[i].0 == conxid;
    }
    if FirstFailure(ids, connect) == |d| && Has(d, conxid) {
      var i := Find(d, conxid);
      assert steps[i] == Connected(conxid);
    }
  }

  // ----- acknowledgements -----

  /** `future.done() or future.set_...(...)`: only the first resolution takes effect. */
  function SettleOnce(fs: seq<FutureState>, f: nat, st: FutureState): (r: seq<FutureState>)
    requires f < |fs|
    ensures |r| == |fs|
    ensures forall j :: 0 <= j < |fs| && !fs[j].Unresolved? ==> r[j] == fs[j]
    ensures forall j :: 0 <= j < |fs| && j != f ==> r[j] == fs[j]
    ensures fs[f].Unresolved? ==> r[f] == st
  {
    if fs[f].Unresolved? then fs[f := st] else fs
  }

  /** A second resolution of a settled future changes nothing. */
  lemma SettleFirstWins(fs: seq<FutureState>, f: nat, a: FutureState, b: FutureState)
    requires f < |fs| && fs[f].Unresolved? && !a.Unresolved?
    ensures SettleOnce(SettleOnce(fs, f, a), f, b) == SettleOnce(fs, f, a)
    ensures SettleOnce(SettleOnce(fs, f, a), f, b)[f] == a
  {
  }

  /** Every future settled in `before` keeps its result in `after`, which may have
      registered more futures. */
  predicate KeepsSettled(before: seq<FutureState>, after: seq<FutureState>) {
    |before| <= |after| && forall j :: 0 <= j < |before| && !before[j].Unresolved? ==> after[j] == before[j]
  }

  /** The `n` futures registered from position `base` on were all resolved. */
  predicate ResolvedFrom(fs: seq<FutureState>, base: nat, n: nat) {
    base + n <= |fs| && forall j :: base <= j < base + n ==> fs[j].Resolved?
  }

  /** The flags and params an acknowledgement leaves on its slot. The failure paths
      and the unsubscribe success pass no params, so the default `{}` is stored. */
  function AckedSlot(sc: SymbolContext, kind: AckKind, success: bool, params: Params): SymbolContext {
    match kind
    case SubscribeAck =>
      if success then sc.(subscribed := true, params := Some(params), subscribing := false)
      else sc.(subscribed := false, params := Some(map[]), subscribing := false)
    case UnsubscribeAck =>
      if success then sc.(subscribed := false, params := Some(map[]), subscribing := false)
      else sc
  }

  /** The resolution an acknowledgement asks for. */
  function AckResolution(l: Listener, success: bool, ex: Option<Error>): FutureState {
    match l.kind
    case SubscribeAck =>
      if success then Resolved(JStr(l.conxid))
      else Raised(if ex.Some? then ex.value else ExchangeError(SubscribeFailed(l.event, l.symbol)))
    case UnsubscribeAck =>
      if success then Resolved(JBool(true))
      else Raised(if ex.Some? then ex.value else ExchangeError(UnsubscribeFailed(l.event, l.symbol)))
  }

  /** The key whose absence makes a slot write raise KeyError. */
  function MissingKey(cs: Store, conxid: string, event: string, symbol: string): string {
    if conxid !in cs then conxid
    else if !Has(cs[conxid].events, event) then event
    else symbol
  }

  /** The state a listener reads and writes. */
  datatype AckState = AckState(cs: Store, futures: seq<FutureState>)

  /** One listener run: the slot write (which raises KeyError for a missing slot, before
      anything changes), then the future's resolution. A failed unsubscribe touches no
      slot. */
  function Ack(st: AckState, l: Listener, success: bool, ex: Option<Error>): (r: (Outcome, AckState))
    requires l.future < |st.futures|
    ensures |r.1.futures| == |st.futures|
  {
    if l.kind == UnsubscribeAck && !success then
      (Pass, st.(futures := SettleOnce(st.futures, l.future, AckResolution(l, success, ex))))
    else if !(l.conxid in st.cs && Present(st.cs[l.conxid].events, l.event, l.symbol)) then
      (Fail(KeyError(MissingKey(st.cs, l.conxid, l.event, l.symbol))), st)
    else
      var sc := Lookup(st.cs[l.conxid].events, l.event, l.symbol).value;
      var cs := WithSymbol(st.cs, l.conxid, l.event, l.symbol, AckedSlot(sc, l.kind, success, l.params));
      (Pass, AckState(cs, SettleOnce(st.futures, l.future, AckResolution(l, success, ex))))
  }

  /** The flag transitions of an acknowledgement, and its KeyError. */
  lemma AckFlags(st: AckState, l: Listener, success: bool, ex: Option<Error>, e: string, s: string)
    requires l.future < |st.futures|
    ensures var (o, st') := Ack(st, l, success, ex);
      var c := l.conxid;
      && (o.Fail? <==> !(l.kind == UnsubscribeAck && !success) && !(c in st.cs && Present(st.cs[c].events, l.event, l.symbol)))
      && (o.Fail? ==> o.error == KeyError(MissingKey(st.cs, c, l.event, l.symbol)) && st' == st)
      && (l.kind == UnsubscribeAck && !success ==> st'.cs == st.cs)
      && (o.Pass? ==> st'.futures == SettleOnce(st.futures, l.future, AckResolution(l, success, ex)))
      && (o.Pass? && !(l.kind == UnsubscribeAck && !success) ==>
            && c in st'.cs && Present(st'.cs[c].events, l.event, l.symbol)
            && IsSubscribed(st'.cs, c, l.event, l.symbol) == (l.kind == SubscribeAck && success)
            && !IsSubscribing(st'.cs, c, l.event, l.symbol)
            && Lookup(st'.cs[c].events, l.event, l.symbol).value.params
               == Some(if l.kind == SubscribeAck && success then l.params else map[])
            && ((e, s) != (l.event, l.symbol) ==>
                  IsSubscribed(st'.cs, c, e, s) == IsSubscribed(st.cs, c, e, s)
                  && IsSubscribing(st'.cs, c, e, s) == IsSubscribing(st.cs, c, e, s)))
  {
    var c := l.conxid;
    if !(l.kind == UnsubscribeAck && !success) && c in st.cs && Present(st.cs[c].events, l.event, l.symbol) {
      var sc := Lookup(st.cs[c].events, l.event, l.symbol).value;
      WithSymbolReads(st.cs, c, l.event, l.symbol, AckedSlot(sc, l.kind, success, l.params), e, s);
    }
  }

  /** An acknowledgement that arrives after its future was settled (by the timer, say)
      still rewrites the slot's flags, but leaves the future as it was. */
  lemma LateAck(st: AckState, l: Listener, success: bool, ex: Option<Error>)
    requires l.future < |st.futures| && !st.futures[l.future].Unresolved?
    requires l.kind == SubscribeAck && l.conxid in st.cs && Present(st.cs[l.conxid].events, l.event, l.symbol)
    ensures Ack(st, l, success, ex).1.futures == st.futures
    ensures IsSubscribed(Ack(st, l, success, ex).1.cs, l.conxid, l.event, l.symbol) == success
    ensures !IsSubscribing(Ack(st, l, success, ex).1.cs, l.conxid, l.event, l.symbol)
  {
    AckFlags(st, l, success, ex, l.event, l.symbol);
  }

  /** The result of emitting a nonce: how many listeners ran, the outcome, the state. */
  datatype Emitted = Emitted(ran: nat, outcome: Outcome, state: AckState)

  predicate ListenersFit(ls: seq<Listener>, n: nat) {
    forall i :: 0 <= i < |ls| ==> ls[i].future < n
  }

  /** `emit(oid, success, ex)`: the listeners run in registration order; a listener that
      raises stops the rest. */
  function AckAll(st: AckState, ls: seq<Listener>, success: bool, ex: Option<Error>): (e: Emitted)
    requires ListenersFit(ls, |st.futures|)
    ensures |e.state.futures| == |st.futures|
    ensures e.ran <= |ls|
    ensures e.outcome.Pass? ==> e.ran == |ls|
    ensures e.outcome.Fail? ==> 1 <= e.ran
    decreases |ls|
  {
    if |ls| == 0 then Emitted(0, Pass, st)
    else
      var (o, st1) := Ack(st, ls[0], success, ex);
      if o.Fail? then Emitted(1, o, st1)
      else
        var rest := AckAll(st1, ls[1..], success, ex);
        Emitted(1 + rest.ran, rest.outcome, rest.state)
  }

  /** Acknowledgements settle only pending futures: a settled future keeps its result. */
  lemma {:induction false} AckAllKeepsSettled(st: AckState, ls: seq<Listener>, success: bool, ex: Option<Error>)
    requires ListenersFit(ls, |st.futures|)
    ensures forall j :: 0 <= j < |st.futures| && !st.futures[j].Unresolved? ==>
      AckAll(st, ls, success, ex).state.futures[j] == st.futures[j]
    decreases |ls|
  {
    if |ls| > 0 {
      var (o, st1) := Ack(st, ls[0], success, ex);
      if o.Pass? {
        AckAllKeepsSettled(st1, ls[1..], success, ex);
      }
    }
  }

  /** Running the listeners `ls[i..]` after `ls[..i]` all passed. */
  lemma AckAllStep(st: AckState, ls: seq<Listener>, i: nat, success: bool, ex: Option<Error>)
    requires i < |ls| && ListenersFit(ls[i..], |st.futures|)
    ensures ListenersFit(ls[i + 1..], |st.futures|)
    ensures var p := Ack(st, ls[i], success, ex);
      AckAll(st, ls[i..], success, ex) ==
        if p.0.Fail? then Emitted(1, p.0, p.1)
        else
          var rest := AckAll(p.1, ls[i + 1..], success, ex);
          Emitted(1 + rest.ran, rest.outcome, rest.state)
  {
    assert ls[i..][0] == ls[i];
    assert ls[i..][1..] == ls[i + 1..];
  }

  /** A listener changes no future but its own, and one that raises changes nothing. */
  lemma AckOthers(st: AckState, l: Listener, success: bool, ex: Option<Error>, f: nat)
    requires l.future < |st.futures| && f < |st.futures| && f != l.future
    ensures Ack(st, l, success, ex).1.futures[f] == st.futures[f]
    ensures Ack(st, l, success, ex).0.Fail? ==> Ack(st, l, success, ex).1 == st
  {
  }

  /** A listener run alone resolves its pending future only when it ran with `success`;
      its slot then reads as the acknowledgement leaves it. */
  lemma AckLast(st: AckState, l: Listener, success: bool, ex: Option<Error>)
    requires l.future < |st.futures| && st.futures[l.future].Unresolved?
    requires AckAll(st, [l], success, ex).state.futures[l.future].Resolved?
    ensures success
    ensures var cs := AckAll(st, [l], success, ex).state.cs;
      && l.conxid in cs && Present(cs[l.conxid].events, l.event, l.symbol)
      && IsSubscribed(cs, l.conxid, l.event, l.symbol) == (l.kind == SubscribeAck)
      && !IsSubscribing(cs, l.conxid, l.event, l.symbol)
      && Lookup(cs[l.conxid].events, l.event, l.symbol).value.params == Some(if l.kind == SubscribeAck then l.params else map[])
  {
    assert [l][0] == l && [l][1..] == [];
    AckFlags(st, l, success, ex, l.event, l.symbol);
  }

  /** The listener registered last under a nonce resolves its pending future only if
      every earlier listener passed and it ran with `success`: the slot it
      acknowledges then reads as the acknowledgement leaves it. */
  lemma {:induction false} AckAllLast(st: AckState, pre: seq<Listener>, l: Listener, success: bool, ex: Option<Error>)
    requires l.future < |st.futures| && st.futures[l.future].Unresolved?
    requires ListenersFit(pre, l.future)
    requires AckAll(st, pre + [l], success, ex).state.futures[l.future].Resolved?
    ensures success
    ensures var cs := AckAll(st, pre + [l], success, ex).state.cs;
      && l.conxid in cs && Present(cs[l.conxid].events, l.event, l.symbol)
      && IsSubscribed(cs, l.conxid, l.event, l.symbol) == (l.kind == SubscribeAck)
      && !IsSubscribing(cs, l.conxid, l.event, l.symbol)
      && Lookup(cs[l.conxid].events, l.event, l.symbol).value.params == Some(if l.kind == SubscribeAck then l.params else map[])
    decreases |pre|
  {
    if |pre| == 0 {
      assert pre + [l] == [l];
      AckLast(st, l, success, ex);
    } else {
      var ls := pre + [l];
      assert ls[0] == pre[0] && ls[1..] == pre[1..] + [l];
      AckOthers(st, pre[0], success, ex, l.future);
      var (o, st1) := Ack(st, pre[0], success, ex);
      if o.Pass? {
        AckAllLast(st1, pre[1..], l, success, ex);
      }
    }
  }

  /** The once-listeners registered under `oid`. */
  function ListenersOf(m: map<nat, seq<Listener>>, oid: nat): seq<Listener> {
    if oid in m then m[oid] else []
  }

  /** The listener map once the first `i` listeners of `oid` have been removed. */
  function Dequeued(m: map<nat, seq<Listener>>, oid: nat, ls: seq<Listener>, i: nat): map<nat, seq<Listener>>
    requires i <= |ls|
  {
    if i == 0 then m else if i < |ls| then m[oid := ls[i..]] else m - {oid}
  }

  lemma DequeuedStep(m: map<nat, seq<Listener>>, oid: nat, ls: seq<Listener>, i: nat)
    requires i < |ls|
    ensures Dequeued(m, oid, ls, i + 1) ==
      if i + 1 < |ls| then Dequeued(m, oid, ls, i)[oid := ls[i + 1..]] else Dequeued(m, oid, ls, i) - {oid}
  {
  }

  /** Advancing the emit loop by one listener. */
  lemma AckAllAdvance(st0: AckState, ls: seq<Listener>, i: nat, st: AckState, o: Outcome, st1: AckState, success: bool, ex: Option<Error>)
    requires i < |ls| && ListenersFit(ls, |st0.futures|) && ListenersFit(ls[i..], |st.futures|)
    requires ListenersFit(ls[i + 1..], |st1.futures|)
    requires var rest := AckAll(st, ls[i..], success, ex);
      AckAll(st0, ls, success, ex) == Emitted(i + rest.ran, rest.outcome, rest.state)
    requires AckAll(st, ls[i..], success, ex) ==
        if o.Fail? then Emitted(1, o, st1)
        else
          var rest := AckAll(st1, ls[i + 1..], success, ex);
          Emitted(1 + rest.ran, rest.outcome, rest.state)
    ensures o.Fail? ==> AckAll(st0, ls, success, ex) == Emitted(i + 1, o, st1)
    ensures o.Pass? ==> var rest := AckAll(st1, ls[i + 1..], success, ex);
      AckAll(st0, ls, success, ex) == Emitted(i + 1 + rest.ran, rest.outcome, rest.state)
  {
  }

  /** The first-invalid request of a batch, `|reqs|` when all are valid. */
  function FirstInvalid(wsconf: WsConf, reqs: seq<Request>): (n: nat)
    ensures n <= |reqs|
    ensures forall j :: 0 <= j < n ==> ValidEvent(wsconf, reqs[j].event)
    ensures n < |reqs| ==> !ValidEvent(wsconf, reqs[n].event)
  {
    if |reqs| == 0 then 0
    else if !ValidEvent(wsconf, reqs[0].event) then 0
    else 1 + FirstInvalid(wsconf, reqs[1..])
  }

  lemma FirstInvalidUnique(wsconf: WsConf, reqs: seq<Request>, n: nat)
    requires n <= |reqs|
    requires forall j :: 0 <= j < n ==> ValidEvent(wsconf, reqs[j].event)
    requires n < |reqs| ==> !ValidEvent(wsconf, reqs[n].event)
    ensures FirstInvalid(wsconf, reqs) == n
  {
  }

  /** The check both batch operations start with. */
  function Validation(wsconf: WsConf, reqs: seq<Request>): Outcome {
    var n := FirstInvalid(wsconf, reqs);
    if n < |reqs| then Fail(ExchangeError(InvalidEvent(reqs[n].event))) else Pass
  }

  /** The exchange's websocket state. */
  class Exchange {
    const store: ContextStore
    const wsconf: WsConf
    var delayed: Dict<string, Delayed>
    var listeners: map<nat, seq<Listener>>
    var futures: seq<FutureState>
    var nonces: nat
    ghost var log: seq<Step>

    ghost predicate Valid()
      reads this, store
    {
      store.Valid() && Distinct(delayed)
      && forall oid :: oid in listeners ==> |listeners[oid]| > 0 && ListenersFit(listeners[oid], |futures|)
    }

    constructor (wsconf: WsConf)
      ensures Valid()
      ensures this.wsconf == wsconf && store.contexts == map[] && fresh(store)
      ensures delayed == [] && listeners == map[] && futures == [] && log == []
    {
      this.wsconf := wsconf;
      store := new ContextStore();
      delayed := [];
      listeners := map[];
      futures := [];
      nonces := 0;
      log := [];
    }

    /** The batch validation loop: the first request whose event is not declared raises. */
    method CheckAll(reqs: seq<Request>) returns (r: Outcome)
      ensures r == Validation(wsconf, reqs)
    {
      var i := 0;
      while i < |reqs|
        invariant i <= |reqs|
        invariant forall j :: 0 <= j < i ==> ValidEvent(wsconf, reqs[j].event)
      {
        if !ValidEvent(wsconf, reqs[i].event) {
          FirstInvalidUnique(wsconf, reqs, i);
          return Fail(ExchangeError(InvalidEvent(reqs[i].event)));
        }
        i := i + 1;
      }
      FirstInvalidUnique(wsconf, reqs, i);
      return Pass;
    }

    /** `timeout_future`'s timer firing: the future fails unless already settled. */
    method OnTimeout(f: nat, scope: string)
      requires Valid() && f < |futures|
      modifies this
      ensures Valid()
      ensures futures == SettleOnce(old(futures), f, Raised(TimeoutError(scope)))
      ensures delayed == old(delayed) && listeners == old(listeners) && nonces == old(nonces) && log == old(log)
    {
      futures := SettleOnce(futures, f, Raised(TimeoutError(scope)));
    }

    /** One acknowledgement listener, as `wait4obsubscribe` and `wait4obunsubscribe`. */
    method Acknowledge(l: Listener, success: bool, ex: Option<Error>) returns (o: Outcome)
      requires Valid() && l.future < |futures|
      modifies this, store
      ensures Valid()
      ensures (o, AckState(store.contexts, futures)) == Ack(AckState(old(store.contexts), old(futures)), l, success, ex)
      ensures delayed == old(delayed) && listeners == old(listeners) && nonces == old(nonces) && log == old(log)
    {
      if l.kind == UnsubscribeAck && !success {
        futures := SettleOnce(futures, l.future, AckResolution(l, success, ex));
        return Pass;
      }
      var cs := store.contexts;
      if !(l.conxid in cs && Present(cs[l.conxid].events, l.event, l.symbol)) {
        return Fail(KeyError(MissingKey(cs, l.conxid, l.event, l.symbol)));
      }
      var sc := Lookup(cs[l.conxid].events, l.event, l.symbol).value;
      var subscribed := l.kind == SubscribeAck && success;
      store.SetSubscribed(l.conxid, l.event, l.symbol, subscribed, if subscribed then l.params else map[]);
      var sc1 := sc.(subscribed := subscribed, params := Some(if subscribed then l.params else map[]));
      WithSymbolReads(cs, l.conxid, l.event, l.symbol, sc1, l.event, l.symbol);
      store.SetSubscribing(l.conxid, l.event, l.symbol, false);
      WithSymbolTwice(cs, l.conxid, l.event, l.symbol, sc1, sc1.(subscribing := false));
      futures := SettleOnce(futures, l.future, AckResolution(l, success, ex));
      o := Pass;
    }

    /** Removes the `i`-th once-listener of `oid` and runs it. */
    method Dispatch(oid: nat, ls: seq<Listener>, i: nat, ghost m0: map<nat, seq<Listener>>, success: bool, ex: Option<Error>)
      returns (o: Outcome)
      requires Valid() && i < |ls| && ListenersFit(ls, |futures|)
      requires listeners == Dequeued(m0, oid, ls, i)
      requires forall k :: k in m0 && k != oid ==> |m0[k]| > 0 && ListenersFit(m0[k], |futures|)
      modifies this, store
      ensures Valid() && |futures| == |old(futures)|
      ensures listeners == Dequeued(m0, oid, ls, i + 1)
      ensures (o, AckState(store.contexts, futures)) == Ack(AckState(old(store.contexts), old(futures)), ls[i], success, ex)
      ensures delayed == old(delayed) && nonces == old(nonces) && log == old(log)
    {
      DequeuedStep(m0, oid, ls, i);
      listeners := if i + 1 < |ls| then listeners[oid := ls[i + 1..]] else listeners - {oid};
      o := Acknowledge(ls[i], success, ex);
    }

    /** `emit(str(oid), success, ex)`: every once-listener of the nonce is removed as it
        runs; a listener that raises leaves the later ones registered. */
    method Emit(oid: nat, success: bool, ex: Option<Error>) returns (r: Outcome)
      requires Valid()
      modifies this, store
      ensures Valid()
      ensures var ls := ListenersOf(old(listeners), oid);
        var e := AckAll(AckState(old(store.contexts), old(futures)), ls, success, ex);
        && r == e.outcome && store.contexts == e.state.cs && futures == e.state.futures
        && listeners == Dequeued(old(listeners), oid, ls, e.ran)
      ensures delayed == old(delayed) && nonces == old(nonces) && log == old(log)
    {
      var ls := ListenersOf(listeners, oid);
      ghost var st0 := AckState(store.contexts, futures);
      var i := 0;
      while i < |ls|
        invariant 0 <= i <= |ls| && Valid() && |futures| == |st0.futures|
        invariant ListenersFit(ls, |futures|)
        invariant ListenersFit(ls[i..], |futures|)
        invariant listeners == Dequeued(old(listeners), oid, ls, i)
        invariant forall k :: k in old(listeners) && k != oid ==> |old(listeners)[k]| > 0 && ListenersFit(old(listeners)[k], |futures|)
        invariant delayed == old(delayed) && nonces == old(nonces) && log == old(log)
        invariant var rest := AckAll(AckState(store.contexts, futures), ls[i..], success, ex);
          AckAll(st0, ls, success, ex) == Emitted(i + rest.ran, rest.outcome, rest.state)
      {
        ghost var st := AckState(store.contexts, futures);
        AckAllStep(st, ls, i, success, ex);
        var o := Dispatch(oid, ls, i, old(listeners), success, ex);
        AckAllAdvance(st0, ls, i, st, o, AckState(store.contexts, futures), success, ex);
        if o.Fail? {
          assert AckAll(st0, ls, success, ex) == Emitted(i + 1, o, AckState(store.contexts, futures));
          return o;
        }
        i := i + 1;
      }
      assert ls[i..] == [];
      assert AckAll(st0, ls, success, ex) == Emitted(|ls|, Pass, AckState(store.contexts, futures));
      return Pass;
    }

    /** One queued connection of the flush: reset its context if asked, then connect. */
    method ConnectOne(conxid: string, entry: Delayed, env: Env) returns (o: Outcome)
      requires Valid()
      modifies this, store
      ensures Valid()
      ensures o == env.connect(conxid) && log == old(log) + [Connected(conxid)]
      ensures !entry.reset ==> store.contexts == old(store.contexts)
      ensures entry.reset ==> store.contexts == AfterReset(old(store.contexts), conxid, entry.conxtpl)
      ensures delayed == old(delayed) && listeners == old(listeners) && futures == old(futures) && nonces == old(nonces)
    {
      if entry.reset {
        store.ResetContext(conxid, entry.conxtpl);
      }
      log := log + [Connected(conxid)];
      o := env.connect(conxid);
    }

    /** The flush `_websocket_connect_delayed`: connect every queued connection in
        order, stop at the first that fails, and empty the map in every case. */
    method ConnectDelayed(env: Env) returns (r: Outcome)
      requires Valid()
      modifies this, store
      ensures Valid()
      ensures delayed == []
      ensures var ids := Keys(old(delayed));
        var n := FirstFailure(ids, env.connect);
        && r == (if n < |ids| then env.connect(ids[n]) else Pass)
        && log == old(log) + ConnectSteps(Attempted(ids, env.connect))
      ensures (forall j :: 0 <= j < |old(delayed)| ==> !old(delayed)[j].1.reset) ==> store.contexts == old(store.contexts)
      ensures listeners == old(listeners) && futures == old(futures) && nonces == old(nonces)
    {
      var entries := delayed;
      ghost var ids := Keys(entries);
      var i := 0;
      r := Pass;
      while i < |entries|
        invariant i <= |entries| && Valid()
        invariant forall j :: 0 <= j < i ==> env.connect(ids[j]).Pass?
        invariant log == old(log) + ConnectSteps(ids[..i])
        invariant (forall j :: 0 <= j < |entries| ==> !entries[j].1.reset) ==> store.contexts == old(store.contexts)
        invariant delayed == old(delayed) && listeners == old(listeners) && futures == old(futures) && nonces == old(nonces)
      {
        var (conxid, entry) := entries[i];
        var o := ConnectOne(conxid, entry, env);
        assert ConnectSteps(ids[..i + 1]) == ConnectSteps(ids[..i]) + [Connected(conxid)];
        if o.Fail? {
          FirstFailureUnique(ids, env.connect, i);
          r := o;
          break;
        }
        i := i + 1;
      }
      if r.Pass? {
        FirstFailureUnique(ids, env.connect, i);
        assert ids[..i] == ids;
      }
      delayed := [];
    }

    /** Closes a connection if there is one. */
    method CloseConnection(conxid: string)
      requires conxid in store.contexts
      modifies this
      ensures log == old(log) + (if ConnectionOf(store.contexts, conxid).Some? then [Closed(conxid)] else [])
      ensures delayed == old(delayed) && listeners == old(listeners) && futures == old(futures) && nonces == old(nonces)
    {
      if ConnectionOf(store.contexts, conxid).Some? {
        log := log + [Closed(conxid)];
      }
    }

    /** Creates the event's symbol table and the symbol's slot when missing. */
    method PrepareSlot(conxid: string, event: string, symbol: string)
      requires Valid() && conxid in store.contexts
      modifies store
      ensures Valid() && conxid in store.contexts && Present(store.contexts[conxid].events, event, symbol)
      ensures Present(old(store.contexts)[conxid].events, event, symbol) ==> store.contexts == old(store.contexts)
      ensures store.contexts.Keys == old(store.contexts).Keys
      ensures forall c :: c in old(store.contexts) && c != conxid ==> store.contexts[c] == old(store.contexts)[c]
      ensures !Present(old(store.contexts)[conxid].events, event, symbol) ==>
        Lookup(store.contexts[conxid].events, event, symbol) == Some(FreshSymbol)
    {
      if !Has(store.contexts[conxid].events, event) {
        WithEventReads(store.contexts, conxid, event, [], event);
        store.ResetEvent(conxid, event);
      }
      if !Has(Get(store.contexts[conxid].events, event), symbol) {
        ResetSymbolReads(store.contexts, conxid, event, symbol, event, symbol);
        store.ResetSymbol(conxid, event, symbol);
      }
    }

    /** The `reconnect` action: close, reset the slot unless delayed, open anew. */
    method Reopen(conxid: string, event: string, symbol: string, config: Config, resetSlot: bool, env: Env) returns (r: Outcome)
      requires Valid() && conxid in store.contexts && Present(store.contexts[conxid].events, event, symbol) && "type" in config
      modifies this, store
      ensures Valid() && conxid in store.contexts && Present(store.contexts[conxid].events, event, symbol)
      ensures r.Fail? ==> r.error == NotSupported(InvalidConnectionType(config["type"]))
      ensures r.Pass? <==> config["type"] in InitTypes
      ensures r.Pass? ==> store.contexts[conxid].conx == Some(Initialize(config, conxid, env.open).value)
      ensures resetSlot ==> Lookup(store.contexts[conxid].events, event, symbol) == Some(FreshSymbol)
      ensures !resetSlot ==> store.contexts[conxid].events == old(store.contexts)[conxid].events
      ensures log == old(log) + (if ConnectionOf(old(store.contexts), conxid).Some? then [Closed(conxid)] else [])
      ensures delayed == old(delayed) && listeners == old(listeners) && futures == old(futures) && nonces == old(nonces)
    {
      CloseConnection(conxid);
      if resetSlot {
        ResetSymbolReads(store.contexts, conxid, event, symbol, event, symbol);
        store.ResetSymbol(conxid, event, symbol);
      }
      var info := Initialize(config, conxid, env.open);
      if info.Err? {
        return Fail(info.error);
      }
      store.SetConnectionInfo(conxid, Some(info.value));
      return Pass;
    }

    /** The `connect` action: a missing or inactive connection is closed, its context
        reset and a new one opened; an active one is kept. */
    method Refresh(conxid: string, conxtpl: string, event: string, symbol: string, config: Config, env: Env) returns (r: Outcome)
      requires Valid() && conxid in store.contexts && Present(store.contexts[conxid].events, event, symbol) && "type" in config
      modifies this, store
      ensures Valid() && conxid in store.contexts && Present(store.contexts[conxid].events, event, symbol)
      ensures var conx := ConnectionOf(old(store.contexts), conxid);
        conx.Some? && env.isActive(conx.value) ==> r == Pass && store.contexts == old(store.contexts) && log == old(log)
      ensures var conx := ConnectionOf(old(store.contexts), conxid);
        !(conx.Some? && env.isActive(conx.value)) ==>
          && log == old(log) + (if conx.Some? then [Closed(conxid)] else [])
          && (r.Pass? <==> config["type"] in InitTypes)
          && !IsSubscribed(store.contexts, conxid, event, symbol) && !IsSubscribing(store.contexts, conxid, event, symbol)
          && (r.Pass? ==> store.contexts[conxid].conx == Some(Initialize(config, conxid, env.open).value))
      ensures r.Fail? ==> r.error == NotSupported(InvalidConnectionType(config["type"]))
      ensures delayed == old(delayed) && listeners == old(listeners) && futures == old(futures) && nonces == old(nonces)
    {
      var conx := ConnectionOf(store.contexts, conxid);
      if conx.Some? && env.isActive(conx.value) {
        return Pass;
      }
      CloseConnection(conxid);
      AfterResetFacts(store.contexts, conxid, Some(conxtpl), event, symbol);
      store.ResetContext(conxid, Some(conxtpl));
      var info := Initialize(config, conxid, env.open);
      if info.Err? {
        return Fail(info.error);
      }
      store.SetConnectionInfo(conxid, Some(info.value));
      return Pass;
    }

    /** The `disconnect` action: close and reset an existing connection, and drop the
        connection from the delayed map. */
    method Drop(conxid: string, conxtpl: string, isDelayed: bool)
      requires Valid() && conxid in store.contexts
      modifies this, store
      ensures Valid() && conxid in store.contexts
      ensures delayed == if isDelayed then Remove(old(delayed), conxid) else old(delayed)
      ensures var had := ConnectionOf(old(store.contexts), conxid).Some?;
        && store.contexts == (if had then AfterReset(old(store.contexts), conxid, Some(conxtpl)) else old(store.contexts))
        && log == old(log) + (if had then [Closed(conxid)] else [])
      ensures listeners == old(listeners) && futures == old(futures) && nonces == old(nonces)
    {
      var conx := ConnectionOf(store.contexts, conxid);
      if conx.Some? {
        CloseConnection(conxid);
        store.ResetContext(conxid, Some(conxtpl));
      }
      if isDelayed && Has(delayed, conxid) {
        RemoveFacts(delayed, conxid, conxid);
        delayed := Remove(delayed, conxid);
      }
    }

    /** After a connect or reconnect: queue a delayed connection once, or connect now. */
    method Activate(conxid: string, conxtpl: string, isDelayed: bool, env: Env) returns (r: Outcome)
      requires Valid()
      modifies this
      ensures Valid()
      ensures delayed == if isDelayed then SetDefault(old(delayed), conxid, Delayed(Some(conxtpl), false)) else old(delayed)
      ensures r == if isDelayed then Pass else env.connect(conxid)
      ensures log == old(log) + (if isDelayed then [] else [Connected(conxid)])
      ensures listeners == old(listeners) && futures == old(futures) && nonces == old(nonces)
    {
      if isDelayed {
        SetDefaultFacts(delayed, conxid, Delayed(Some(conxtpl), false));
        delayed := SetDefault(delayed, conxid, Delayed(Some(conxtpl), false));
        return Pass;
      }
      log := log + [Connected(conxid)];
      return env.connect(conxid);
    }

    /** Carries out a resolved action on an existing context. */
    method Apply(conxid: string, conxtpl: string, event: string, symbol: string, a: Action, isDelayed: bool, env: Env)
      returns (r: Result<string>)
      requires Valid() && conxid in store.contexts && Complete(a.conxConfig)
      modifies this, store
      ensures Valid() && conxid in store.contexts
      ensures listeners == old(listeners) && futures == old(futures) && nonces == old(nonces)
      ensures r.Ok? ==> r.value == conxid
      ensures !isDelayed ==> delayed == old(delayed)
      ensures a.action == Disconnect ==>
        r == Ok(conxid) && delayed == (if isDelayed then Remove(old(delayed), conxid) else old(delayed))
      ensures a.action != Disconnect && r.Ok? ==>
        Present(store.contexts[conxid].events, event, symbol)
        && delayed == (if isDelayed then SetDefault(old(delayed), conxid, Delayed(Some(conxtpl), false)) else old(delayed))
      ensures a.action == Reconnect && r.Ok? ==>
        Initialize(a.conxConfig, conxid, env.open).Ok? && store.contexts[conxid].conx == Some(Initialize(a.conxConfig, conxid, env.open).value)
      ensures a.action != Disconnect && r.Ok? && !isDelayed ==>
        env.connect(conxid).Pass? && |log| > 0 && log[|log| - 1] == Connected(conxid)
      ensures a.action != Disconnect && r.Err? ==>
        r.error == NotSupported(InvalidConnectionType(a.conxConfig["type"]))
        || (!isDelayed && env.connect(conxid) == Fail(r.error))
    {
      PrepareSlot(conxid, event, symbol);
      var o: Outcome;
      match a.action {
        case Reconnect =>
          o := Reopen(conxid, event, symbol, a.conxConfig, !isDelayed && a.resetContext == OnReconnect, env);
        case Connect =>
          o := Refresh(conxid, conxtpl, event, symbol, a.conxConfig, env);
        case Disconnect =>
          Drop(conxid, conxtpl, isDelayed);
          return Ok(conxid);
      }
      if o.Fail? {
        return Err(o.error);
      }
      o := Activate(conxid, conxtpl, isDelayed, env);
      if o.Fail? {
        return Err(o.error);
      }
      return Ok(conxid);
    }

    /** `_websocket_ensure_conx_active`: create the connection's context if needed,
        resolve the action, make sure the slot exists, and carry the action out; a
        delayed connection is queued once rather than connected. */
    method EnsureConxActive(event: string, symbol: string, subscribe: bool, subscriptionParams: Params,
                            isDelayed: bool, env: Env) returns (r: Result<string>)
      requires Valid()
      modifies this, store
      ensures Valid()
      ensures listeners == old(listeners) && futures == old(futures) && nonces == old(nonces)
      ensures !isDelayed ==> delayed == old(delayed)
      ensures GetConxid4Event(wsconf, event, symbol, env.implode).Err? ==>
        r == Err(GetConxid4Event(wsconf, event, symbol, env.implode).error)
        && store.contexts == old(store.contexts) && delayed == old(delayed) && log == old(log)
      ensures GetConxid4Event(wsconf, event, symbol, env.implode).Ok? ==>
        var (conxid, conxtpl) := GetConxid4Event(wsconf, event, symbol, env.implode).value;
        var cs0 := if conxid in old(store.contexts) then old(store.contexts) else AfterReset(old(store.contexts), conxid, Some(conxtpl));
        var action := GetActionForEvent(cs0, wsconf, conxid, event, symbol, subscribe, subscriptionParams, env.implode, env.urlStream);
        && (action.Err? ==> r == Err(action.error) && store.contexts == cs0 && delayed == old(delayed) && log == old(log))
        && (action == Ok(None) ==> r == Ok(conxid) && store.contexts == cs0 && delayed == old(delayed) && log == old(log))
        && (r.Ok? ==> r.value == conxid)
        && (action.Ok? && action.value.Some? && action.value.value.action == Disconnect ==>
              r == Ok(conxid) && delayed == (if isDelayed then Remove(old(delayed), conxid) else old(delayed)))
        && (action.Ok? && action.value.Some? && action.value.value.action != Disconnect && r.Ok? ==>
              conxid in store.contexts && Present(store.contexts[conxid].events, event, symbol)
              && delayed == (if isDelayed then SetDefault(old(delayed), conxid, Delayed(Some(conxtpl), false)) else old(delayed)))
      ensures r.Ok? ==> r.value in store.contexts
      ensures r.Ok? && subscribe ==> Present(store.contexts[r.value].events, event, symbol)
    {
      var ids := GetConxid4Event(wsconf, event, symbol, env.implode);
      if ids.Err? {
        return Err(ids.error);
      }
      var (conxid, conxtpl) := ids.value;
      if conxid !in store.contexts {
        store.ResetContext(conxid, Some(conxtpl));
      }
      var action := GetActionForEvent(store.contexts, wsconf, conxid, event, symbol, subscribe, subscriptionParams, env.implode, env.urlStream);
      if action.Err? {
        return Err(action.error);
      }
      if action.value.None? {
        return Ok(conxid);
      }
      r := Apply(conxid, conxtpl, event, symbol, action.value.value, isDelayed, env);
    }

    /** Registers a pending future and a once-listener for it under the nonce `oid`. */
    method Register(kind: AckKind, conxid: string, req: Request, oid: nat) returns (f: nat)
      requires Valid()
      modifies this
      ensures Valid()
      ensures f == |old(futures)| && futures == old(futures) + [Unresolved]
      ensures listeners == old(listeners)[oid := ListenersOf(old(listeners), oid) + [Listener(kind, conxid, req.event, req.symbol, req.params, f)]]
      ensures delayed == old(delayed) && nonces == old(nonces) && log == old(log)
    {
      f := |futures|;
      futures := futures + [Unresolved];
      assert forall k :: k in listeners ==> ListenersFit(listeners[k], |futures|);
      listeners := listeners[oid := ListenersOf(listeners, oid) + [Listener(kind, conxid, req.event, req.symbol, req.params, f)]];
    }

    /** Awaiting the future `f`: the exchange's answer to `oid`, if any, is emitted, and
        then the timer fires, so the future is settled either way. */
    method Settle(oid: nat, f: nat, answer: Response, scope: string)
      requires Valid() && f < |futures|
      modifies this, store
      ensures Valid() && |futures| == |old(futures)|
      ensures KeepsSettled(old(futures), futures) && !futures[f].Unresolved?
      ensures answer.Answer? ==>
        var e := AckAll(AckState(old(store.contexts), old(futures)), ListenersOf(old(listeners), oid), answer.success, answer.ex);
        store.contexts == e.state.cs && futures == SettleOnce(e.state.futures, f, Raised(TimeoutError(scope)))
      ensures answer.Silence? ==>
        store.contexts == old(store.contexts) && futures == SettleOnce(old(futures), f, Raised(TimeoutError(scope)))
      ensures delayed == old(delayed) && nonces == old(nonces) && log == old(log)
    {
      if answer.Answer? {
        AckAllKeepsSettled(AckState(store.contexts, futures), ListenersOf(listeners, oid), answer.success, answer.ex);
        var _ := Emit(oid, answer.success, answer.ex);
      }
      OnTimeout(f, scope);
    }

    /** One request of a batch: take a nonce, register the listener and the future,
        send the request and await the future; a future that failed fails the request. */
    method AwaitAck(kind: AckKind, conxid: string, req: Request, env: Env, scope: string) returns (r: Outcome)
      requires Valid()
      modifies this, store
      ensures Valid()
      ensures delayed == old(delayed) && nonces == old(nonces) + 1
      ensures KeepsSettled(old(futures), futures) && |futures| == |old(futures)| + 1
      ensures var sent := env.send(kind, conxid, req.event, req.symbol, env.nonce(old(nonces)), req.params);
        && (sent.Fail? ==> r == sent)
        && (sent.Pass? ==> (r.Pass? <==> futures[|old(futures)|].Resolved?))
      ensures r.Pass? ==>
        && conxid in store.contexts && Present(store.contexts[conxid].events, req.event, req.symbol)
        && IsSubscribed(store.contexts, conxid, req.event, req.symbol) == (kind == SubscribeAck)
        && !IsSubscribing(store.contexts, conxid, req.event, req.symbol)
        && Lookup(store.contexts[conxid].events, req.event, req.symbol).value.params
           == Some(if kind == SubscribeAck then req.params else map[])
      ensures log == old(log) + [Sent(kind, conxid, req.event, req.symbol, env.nonce(old(nonces)))]
    {
      var oid := env.nonce(nonces);
      nonces := nonces + 1;
      ghost var pre := ListenersOf(listeners, oid);
      assert ListenersFit(pre, |futures|);
      var f := Register(kind, conxid, req, oid);
      ghost var l := Listener(kind, conxid, req.event, req.symbol, req.params, f);
      assert ListenersOf(listeners, oid) == pre + [l];
      ghost var st := AckState(store.contexts, futures);
      log := log + [Sent(kind, conxid, req.event, req.symbol, oid)];
      var sent := env.send(kind, conxid, req.event, req.symbol, oid, req.params);
      if sent.Fail? {
        return sent;
      }
      var answer := env.respond(oid);
      Settle(oid, f, answer, scope);
      if !futures[f].Resolved? {
        return Fail(futures[f].error);
      }
      if answer.Answer? {
        AckAllLast(st, pre, l, answer.success, answer.ex);
      }
      return Pass;
    }

    /** `websocket_subscribe_all`: validate every event, prepare every connection as
        delayed and mark its slot subscribing, flush the delayed connections, then send
        and await the requests one at a time; the first failure ends the batch. */
    method SubscribeAll(reqs: seq<Request>, env: Env) returns (r: Outcome)
      requires Valid()
      modifies this, store
      ensures Valid()
      ensures Validation(wsconf, reqs).Fail? ==>
        r == Validation(wsconf, reqs) && store.contexts == old(store.contexts) && delayed == old(delayed)
        && listeners == old(listeners) && futures == old(futures) && log == old(log)
      ensures r.Pass? ==> delayed == [] && |futures| == |old(futures)| + |reqs| && ResolvedFrom(futures, |old(futures)|, |reqs|)
      ensures KeepsSettled(old(futures), futures)
    {
      r := CheckAll(reqs);
      if r.Fail? {
        return;
      }
      var conxIds: seq<string> := [];
      var i := 0;
      while i < |reqs|
        invariant Valid() && i <= |reqs| && |conxIds| == i
        invariant futures == old(futures)
      {
        var c := EnsureConxActive(reqs[i].event, reqs[i].symbol, true, reqs[i].params, true, env);
        if c.Err? {
          return Fail(c.error);
        }
        store.SetSubscribing(c.value, reqs[i].event, reqs[i].symbol, true);
        conxIds := conxIds + [c.value];
        i := i + 1;
      }
      r := ConnectDelayed(env);
      if r.Fail? {
        return;
      }
      i := 0;
      while i < |reqs|
        invariant Valid() && i <= |reqs| && delayed == []
        invariant |futures| == |old(futures)| + i && ResolvedFrom(futures, |old(futures)|, i)
        invariant KeepsSettled(old(futures), futures)
      {
        var o := AwaitAck(SubscribeAck, conxIds[i], reqs[i], env, "websocket_subscribe");
        if o.Fail? {
          return o;
        }
        i := i + 1;
      }
      return Pass;
    }

    /** One request of `websocket_unsubscribe_all`: prepare its connection as delayed,
        then send it and await it. */
    method UnsubscribeOne(req: Request, env: Env) returns (o: Outcome)
      requires Valid()
      modifies this, store
      ensures Valid() && KeepsSettled(old(futures), futures)
      ensures o.Pass? ==> |futures| == |old(futures)| + 1 && futures[|old(futures)|].Resolved?
      ensures o.Pass? ==> exists c :: (c in store.contexts && Present(store.contexts[c].events, req.event, req.symbol)
        && !IsSubscribed(store.contexts, c, req.event, req.symbol) && !IsSubscribing(store.contexts, c, req.event, req.symbol))
    {
      var c := EnsureConxActive(req.event, req.symbol, false, req.params, true, env);
      if c.Err? {
        return Fail(c.error);
      }
      o := AwaitAck(UnsubscribeAck, c.value, req, env, "websocket_unsubscribe");
    }

    /** `websocket_unsubscribe_all`: validate every event, then for each request
        prepare its connection as delayed, send it and await it; the delayed
        connections are flushed however the loop ends, and a failing flush replaces
        the loop's own failure. */
    method UnsubscribeAll(reqs: seq<Request>, env: Env) returns (r: Outcome)
      requires Valid()
      modifies this, store
      ensures Valid()
      ensures Validation(wsconf, reqs).Fail? ==>
        r == Validation(wsconf, reqs) && store.contexts == old(store.contexts) && delayed == old(delayed)
        && listeners == old(listeners) && futures == old(futures) && log == old(log)
      ensures Validation(wsconf, reqs).Pass? ==> delayed == []
      ensures r.Pass? ==> |futures| == |old(futures)| + |reqs| && ResolvedFrom(futures, |old(futures)|, |reqs|)
      ensures KeepsSettled(old(futures), futures)
    {
      r := CheckAll(reqs);
      if r.Fail? {
        return;
      }
      var body := Pass;
      var i := 0;
      while i < |reqs| && body.Pass?
        invariant Valid() && i <= |reqs| && KeepsSettled(old(futures), futures)
        invariant body.Pass? ==> |futures| == |old(futures)| + i && ResolvedFrom(futures, |old(futures)|, i)
        decreases |reqs| - i, if body.Pass? then 1 else 0
      {
        var o := UnsubscribeOne(reqs[i], env);
        if o.Fail? {
          body := o;
        } else {
          i := i + 1;
        }
      }
      var flushed := ConnectDelayed(env);
      r := if flushed.Fail? then flushed else body;
    }
  }
}
