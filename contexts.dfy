/** The per-connection websocket contexts of an exchange: for every connection id, a
    scratch area, the connection template it was created from, the per-event and
    per-symbol subscription state, and the live connection information. */
module Contexts {
  import opened Common
  import opened Dicts

  /** One `(event, symbol)` slot. `params` is absent until the slot is first marked
      subscribed (a freshly reset symbol has no `params` key). */
  datatype SymbolContext = SymbolContext(subscribed: bool, subscribing: bool, params: Option<Params>, data: Json)

  type Symbols = Dict<string, SymbolContext>
  type Events = Dict<string, Symbols>

  /** A live connection: an opaque handle and the configuration it was built from. */
  datatype Connection = Connection(handle: nat, config: map<string, string>)

  /** What `conx` holds once a connection exists. */
  datatype ConnectionInfo = ConnectionInfo(auth: bool, ready: bool, conx: Connection)

  datatype Context = Context(scratch: map<string, Json>, conxTpl: Option<string>, events: Events, conx: Option<ConnectionInfo>)

  /** `websocketContexts`, keyed by connection id. */
  type Store = map<string, Context>

  /** The slot `_contextResetSymbol` writes. */
  const FreshSymbol: SymbolContext := SymbolContext(false, false, None, EmptyData)

  /** The context `_websocket_reset_context` creates for an unknown connection id. */
  function FreshContext(conxtpl: Option<string>): Context {
    Context(map[], conxtpl, [], None)
  }

  predicate ContextValid(c: Context) {
    Distinct(c.events) && forall i :: 0 <= i < |c.events| ==> Distinct(c.events[i].1)
  }

  predicate StoreValid(cs: Store) {
    forall conxid :: conxid in cs ==> ContextValid(cs[conxid])
  }

  /** Whether the `(event, symbol)` slot exists. */
  predicate Present(events: Events, event: string, symbol: string) {
    Has(events, event) && Has(Get(events, event), symbol)
  }

  /** The `(event, symbol)` slot, if it exists. */
  function Lookup(events: Events, event: string, symbol: string): (r: Option<SymbolContext>)
    ensures r.Some? <==> Present(events, event, symbol)
  {
    if Present(events, event, symbol) then Some(Get(Get(events, event), symbol)) else None
  }

  /** `_contextIsSubscribed`: an unknown event or symbol reads as not subscribed. */
  function IsSubscribed(cs: Store, conxid: string, event: string, symbol: string): (b: bool)
    requires conxid in cs
    ensures b ==> Present(cs[conxid].events, event, symbol)
    ensures Present(cs[conxid].events, event, symbol) ==> b == Get(Get(cs[conxid].events, event), symbol).subscribed
  {
    var slot := Lookup(cs[conxid].events, event, symbol);
    slot.Some? && slot.value.subscribed
  }

  /** `_contextIsSubscribing`: an unknown event or symbol reads as not subscribing. */
  function IsSubscribing(cs: Store, conxid: string, event: string, symbol: string): (b: bool)
    requires conxid in cs
    ensures b ==> Present(cs[conxid].events, event, symbol)
    ensures Present(cs[conxid].events, event, symbol) ==> b == Get(Get(cs[conxid].events, event), symbol).subscribing
  {
    var slot := Lookup(cs[conxid].events, event, symbol);
    slot.Some? && slot.value.subscribing
  }

  /** One entry of the list `_websocketContextGetSubscribedEventSymbols` returns. */
  datatype EventSymbol = EventSymbol(event: string, symbol: string, params: Option<Params>)

  predicate Active(sc: SymbolContext) {
    sc.subscribed || sc.subscribing
  }

  /** The entry reported for an active slot: its params, or `{}` when it has none. */
  function Entry(event: string, symbol: string, sc: SymbolContext): EventSymbol {
    EventSymbol(event, symbol, Some(if sc.params.Some? then sc.params.value else map[]))
  }

  function CollectSymbols(event: string, syms: Symbols): seq<EventSymbol> {
    if |syms| == 0 then []
    else
      (if Active(syms[0].1) then [Entry(event, syms[0].0, syms[0].1)] else [])
      + CollectSymbols(event, syms[1..])
  }

  function CollectEvents(events: Events): seq<EventSymbol> {
    if |events| == 0 then []
    else CollectSymbols(events[0].0, events[0].1) + CollectEvents(events[1..])
  }

  /** `_websocketContextGetSubscribedEventSymbols`: every active slot, events in key
      order and symbols in key order within each event. */
  function SubscribedEventSymbols(cs: Store, conxid: string): seq<EventSymbol>
    requires conxid in cs
  {
    CollectEvents(cs[conxid].events)
  }

  /** No `(event, symbol)` pair is listed twice. */
  predicate DistinctPairs(l: seq<EventSymbol>) {
    forall i, j :: 0 <= i < j < |l| ==> l[i].event != l[j].event || l[i].symbol != l[j].symbol
  }

  lemma {:induction false} CollectSymbolsExact(event: string, syms: Symbols, x: EventSymbol)
    requires Distinct(syms)
    ensures x in CollectSymbols(event, syms) <==>
      x.event == event && Has(syms, x.symbol) && Active(Get(syms, x.symbol))
      && x == Entry(event, x.symbol, Get(syms, x.symbol))
  {
    if |syms| > 0 {
      var rest := syms[1..];
      assert Distinct(rest);
      CollectSymbolsExact(event, rest, x);
      if syms[0].0 == x.symbol {
        assert Find(syms, x.symbol) == 0;
        assert !Has(rest, x.symbol) by {
          assert forall j :: 0 <= j < |rest| ==> rest[j].0 != x.symbol;
          FindUnique(rest, x.symbol, |rest|);
        }
      } else {
        assert Find(syms, x.symbol) == 1 + Find(rest, x.symbol);
      }
    }
  }

  lemma {:induction false} CollectSymbolsKeys(event: string, syms: Symbols)
    ensures forall k :: 0 <= k < |CollectSymbols(event, syms)| ==> CollectSymbols(event, syms)[k].event == event
    ensures Distinct(syms) ==> DistinctPairs(CollectSymbols(event, syms))
  {
    if |syms| > 0 {
      var rest := syms[1..];
      CollectSymbolsKeys(event, rest);
      if Distinct(syms) {
        assert Distinct(rest);
        assert forall i :: 0 <= i < |rest| ==> rest[i] == syms[i + 1];
        var head := if Active(syms[0].1) then [Entry(event, syms[0].0, syms[0].1)] else [];
        var tail := CollectSymbols(event, rest);
        forall x | x in tail
          ensures x.symbol != syms[0].0
        {
          CollectSymbolsExact(event, rest, x);
        }
        assert CollectSymbols(event, syms) == head + tail;
      }
    }
  }

  lemma {:induction false} CollectEventsExact(events: Events, x: EventSymbol)
    requires Distinct(events) && forall i :: 0 <= i < |events| ==> Distinct(events[i].1)
    ensures x in CollectEvents(events) <==>
      Present(events, x.event, x.symbol)
      && var sc := Get(Get(events, x.event), x.symbol);
         Active(sc) && x == Entry(x.event, x.symbol, sc)
  {
    if |events| > 0 {
      var rest := events[1..];
      assert forall i :: 0 <= i < |rest| ==> rest[i] == events[i + 1];
      HeadTail(events, x.event);
      CollectEventsExact(rest, x);
      CollectSymbolsExact(events[0].0, events[0].1, x);
      assert CollectEvents(events) == CollectSymbols(events[0].0, events[0].1) + CollectEvents(rest);
      if events[0].0 != x.event {
        CollectSymbolsKeys(events[0].0, events[0].1);
      }
    }
  }

  lemma {:induction false} CollectEventsDistinct(events: Events)
    requires Distinct(events) && forall i :: 0 <= i < |events| ==> Distinct(events[i].1)
    ensures DistinctPairs(CollectEvents(events))
  {
    if |events| > 0 {
      var rest := events[1..];
      assert Distinct(rest);
      assert forall i :: 0 <= i < |rest| ==> rest[i] == events[i + 1];
      CollectEventsDistinct(rest);
      CollectSymbolsKeys(events[0].0, events[0].1);
      var head := CollectSymbols(events[0].0, events[0].1);
      var tail := CollectEvents(rest);
      forall x | x in tail
        ensures x.event != events[0].0
      {
        CollectEventsExact(rest, x);
      }
      assert CollectEvents(events) == head + tail;
    }
  }

  /** An entry is listed exactly when its slot is subscribed or subscribing, and it
      carries that slot's params (or `{}`); no pair is listed twice. */
  lemma SubscribedEventSymbolsExact(cs: Store, conxid: string, x: EventSymbol)
    requires conxid in cs && ContextValid(cs[conxid])
    ensures x in SubscribedEventSymbols(cs, conxid) <==>
      (IsSubscribed(cs, conxid, x.event, x.symbol) || IsSubscribing(cs, conxid, x.event, x.symbol))
      && x == Entry(x.event, x.symbol, Get(Get(cs[conxid].events, x.event), x.symbol))
    ensures DistinctPairs(SubscribedEventSymbols(cs, conxid))
  {
    CollectEventsExact(cs[conxid].events, x);
    CollectEventsDistinct(cs[conxid].events);
  }

  // ----- reset -----

  /** What the reset loop does to one slot: flags cleared and data emptied; params kept. */
  function Cleared(sc: SymbolContext): SymbolContext {
    sc.(subscribed := false, subscribing := false, data := EmptyData)
  }

  function ClearedSymbols(syms: Symbols): Symbols {
    seq(|syms|, i requires 0 <= i < |syms| => (syms[i].0, Cleared(syms[i].1)))
  }

  function ClearedEvents(events: Events): Events {
    seq(|events|, i requires 0 <= i < |events| => (events[i].0, ClearedSymbols(events[i].1)))
  }

  /** `_websocket_reset_context` on the store: a fresh context for an unknown id,
      otherwise every slot of the existing context cleared. */
  function AfterReset(cs: Store, conxid: string, conxtpl: Option<string>): Store {
    if conxid !in cs then cs[conxid := FreshContext(conxtpl)]
    else cs[conxid := cs[conxid].(events := ClearedEvents(cs[conxid].events))]
  }

  lemma ClearedSymbolsKeys(syms: Symbols, s: string)
    ensures Keys(ClearedSymbols(syms)) == Keys(syms)
    ensures Has(ClearedSymbols(syms), s) == Has(syms, s)
    ensures Has(syms, s) ==> Get(ClearedSymbols(syms), s) == Cleared(Get(syms, s))
  {
    assert Keys(ClearedSymbols(syms)) == Keys(syms);
    FindSameKeys(ClearedSymbols(syms), syms, s);
  }

  lemma ClearedEventsKeys(events: Events, e: string)
    ensures Keys(ClearedEvents(events)) == Keys(events)
    ensures Has(ClearedEvents(events), e) == Has(events, e)
    ensures Has(events, e) ==> Get(ClearedEvents(events), e) == ClearedSymbols(Get(events, e))
  {
    assert Keys(ClearedEvents(events)) == Keys(events);
    FindSameKeys(ClearedEvents(events), events, e);
  }

  /** After a reset no slot of the context is subscribed or subscribing and nothing is
      listed as subscribed; an existing context keeps its events, symbols, params,
      template, scratch area and connection; every other context is untouched. */
  lemma {:induction false} AfterResetFacts(cs: Store, conxid: string, conxtpl: Option<string>, e: string, s: string)
    ensures conxid in AfterReset(cs, conxid, conxtpl)
    ensures !IsSubscribed(AfterReset(cs, conxid, conxtpl), conxid, e, s)
    ensures !IsSubscribing(AfterReset(cs, conxid, conxtpl), conxid, e, s)
    ensures SubscribedEventSymbols(AfterReset(cs, conxid, conxtpl), conxid) == []
    ensures conxid !in cs ==> AfterReset(cs, conxid, conxtpl)[conxid] == FreshContext(conxtpl)
    ensures conxid in cs ==>
      var before, after := cs[conxid], AfterReset(cs, conxid, conxtpl)[conxid];
      && after.scratch == before.scratch && after.conxTpl == before.conxTpl && after.conx == before.conx
      && Keys(after.events) == Keys(before.events)
      && (Present(after.events, e, s) <==> Present(before.events, e, s))
      && (Present(before.events, e, s) ==>
            Lookup(after.events, e, s).value == Cleared(Lookup(before.events, e, s).value))
    ensures forall c :: c in cs && c != conxid ==> AfterReset(cs, conxid, conxtpl)[c] == cs[c]
    ensures StoreValid(cs) ==> StoreValid(AfterReset(cs, conxid, conxtpl))
  {
    var r := AfterReset(cs, conxid, conxtpl);
    if conxid in cs {
      var events := cs[conxid].events;
      ClearedEventsKeys(events, e);
      if Has(events, e) {
        ClearedSymbolsKeys(Get(events, e), s);
      }
      NothingActive(ClearedEvents(events));
      if StoreValid(cs) {
        forall i | 0 <= i < |ClearedEvents(events)|
          ensures Distinct(ClearedEvents(events)[i].1)
        {
          assert ContextValid(cs[conxid]);
          assert Keys(ClearedSymbols(events[i].1)) == Keys(events[i].1);
        }
        assert Keys(ClearedEvents(events)) == Keys(events);
      }
    }
  }

  /** A context whose slots are all inactive lists nothing. */
  lemma {:induction false} NothingActive(events: Events)
    requires forall i, j :: 0 <= i < |events| && 0 <= j < |events[i].1| ==> !Active(events[i].1[j].1)
    ensures CollectEvents(events) == []
  {
    if |events| > 0 {
      NoActiveSymbols(events[0].0, events[0].1);
      NothingActive(events[1..]);
    }
  }

  lemma {:induction false} NoActiveSymbols(event: string, syms: Symbols)
    requires forall j :: 0 <= j < |syms| ==> !Active(syms[j].1)
    ensures CollectSymbols(event, syms) == []
  {
    if |syms| > 0 {
      NoActiveSymbols(event, syms[1..]);
    }
  }

  // ----- single-slot updates -----

  /** The store with slot `(event, symbol)` of `conxid` set to `sc`. */
  function WithSymbol(cs: Store, conxid: string, event: string, symbol: string, sc: SymbolContext): Store
    requires conxid in cs && Has(cs[conxid].events, event)
  {
    var events := cs[conxid].events;
    cs[conxid := cs[conxid].(events := Put(events, event, Put(Get(events, event), symbol, sc)))]
  }

  /** The store with event `event` of `conxid` set to the symbol table `syms`. */
  function WithEvent(cs: Store, conxid: string, event: string, syms: Symbols): Store
    requires conxid in cs
  {
    cs[conxid := cs[conxid].(events := Put(cs[conxid].events, event, syms))]
  }

  /** Writing a slot makes it read back as written and leaves every other slot, every
      other context and the rest of this context as they were. */
  lemma WithSymbolReads(cs: Store, conxid: string, event: string, symbol: string, sc: SymbolContext, e: string, s: string)
    requires conxid in cs && Has(cs[conxid].events, event)
    ensures Lookup(WithSymbol(cs, conxid, event, symbol, sc)[conxid].events, event, symbol) == Some(sc)
    ensures (e, s) != (event, symbol) ==>
      Lookup(WithSymbol(cs, conxid, event, symbol, sc)[conxid].events, e, s) == Lookup(cs[conxid].events, e, s)
    ensures Keys(WithSymbol(cs, conxid, event, symbol, sc)[conxid].events) == Keys(cs[conxid].events)
    ensures var after := WithSymbol(cs, conxid, event, symbol, sc)[conxid];
      after.scratch == cs[conxid].scratch && after.conxTpl == cs[conxid].conxTpl && after.conx == cs[conxid].conx
    ensures StoreValid(cs) ==> StoreValid(WithSymbol(cs, conxid, event, symbol, sc))
  {
    var events := cs[conxid].events;
    var syms := Get(events, event);
    var syms' := Put(syms, symbol, sc);
    PutSame(events, event, syms');
    PutSame(syms, symbol, sc);
    if e != event {
      PutOther(events, event, syms', e);
    } else if s != symbol {
      PutOther(syms, symbol, sc, s);
    }
    if StoreValid(cs) {
      WithSymbolValid(cs, conxid, event, symbol, sc);
    }
  }

  /** A slot write keeps every key table of the store distinct. */
  lemma WithSymbolValid(cs: Store, conxid: string, event: string, symbol: string, sc: SymbolContext)
    requires conxid in cs && Has(cs[conxid].events, event) && StoreValid(cs)
    ensures StoreValid(WithSymbol(cs, conxid, event, symbol, sc))
  {
    var events := cs[conxid].events;
    var syms := Get(events, event);
    var syms' := Put(syms, symbol, sc);
    var events' := Put(events, event, syms');
    assert ContextValid(cs[conxid]);
    PutSame(events, event, syms');
    PutSame(syms, symbol, sc);
    forall i | 0 <= i < |events'|
      ensures Distinct(events'[i].1)
    {
      if i != Find(events, event) {
        assert events'[i] == events[i];
      }
    }
  }

  /** Writing the same slot twice is the second write alone. */
  lemma WithSymbolTwice(cs: Store, conxid: string, event: string, symbol: string, a: SymbolContext, b: SymbolContext)
    requires conxid in cs && Has(cs[conxid].events, event)
    ensures Has(WithSymbol(cs, conxid, event, symbol, a)[conxid].events, event)
    ensures WithSymbol(WithSymbol(cs, conxid, event, symbol, a), conxid, event, symbol, b) == WithSymbol(cs, conxid, event, symbol, b)
  {
    var events := cs[conxid].events;
    var syms := Get(events, event);
    PutSame(events, event, Put(syms, symbol, a));
    PutPut(syms, symbol, a, b);
    PutPut(events, event, Put(syms, symbol, a), Put(syms, symbol, b));
  }

  /** Writing an event's symbol table leaves every other event as it was. */
  lemma WithEventReads(cs: Store, conxid: string, event: string, syms: Symbols, e: string)
    requires conxid in cs
    ensures Has(WithEvent(cs, conxid, event, syms)[conxid].events, event)
    ensures Get(WithEvent(cs, conxid, event, syms)[conxid].events, event) == syms
    ensures e != event ==>
      Has(WithEvent(cs, conxid, event, syms)[conxid].events, e) == Has(cs[conxid].events, e)
      && (Has(cs[conxid].events, e) ==>
            Get(WithEvent(cs, conxid, event, syms)[conxid].events, e) == Get(cs[conxid].events, e))
    ensures StoreValid(cs) && Distinct(syms) ==> StoreValid(WithEvent(cs, conxid, event, syms))
  {
    var events := cs[conxid].events;
    var events' := Put(events, event, syms);
    PutSame(events, event, syms);
    if e != event {
      PutOther(events, event, syms, e);
    }
    if StoreValid(cs) && Distinct(syms) {
      assert ContextValid(cs[conxid]);
      forall i | 0 <= i < |events'|
        ensures Distinct(events'[i].1)
      {
        if i < |events| && i != Find(events, event) {
          assert events'[i] == events[i];
        }
      }
    }
  }

  /** `_contextGetConnection`: the live connection, if any. */
  function ConnectionOf(cs: Store, conxid: string): (r: Option<Connection>)
    requires conxid in cs
    ensures r.Some? <==> cs[conxid].conx.Some?
    ensures r.Some? ==> r.value == cs[conxid].conx.value.conx
  {
    if cs[conxid].conx.None? then None else Some(cs[conxid].conx.value.conx)
  }

  /** `_contextGetConnectionInfo`: NotSupported when no connection info is stored. */
  function ConnectionInfoOf(cs: Store, conxid: string): (r: Result<ConnectionInfo>)
    requires conxid in cs
    ensures r.Err? <==> cs[conxid].conx.None?
    ensures r.Err? ==> r.error == NotSupported(ConnectionNotFound(conxid))
    ensures r.Ok? ==> Some(r.value) == cs[conxid].conx
  {
    if cs[conxid].conx.None? then Err(NotSupported(ConnectionNotFound(conxid))) else Ok(cs[conxid].conx.value)
  }

  /** `_contextGet`: a scratch value, `None` for a missing key. */
  function ScratchOf(cs: Store, conxid: string, key: string): (r: Option<Json>)
    requires conxid in cs
    ensures r.Some? <==> key in cs[conxid].scratch
    ensures r.Some? ==> r.value == cs[conxid].scratch[key]
  {
    if key in cs[conxid].scratch then Some(cs[conxid].scratch[key]) else None
  }

  /** The mutable store of contexts, as the exchange holds it. */
  class ContextStore {
    var contexts: Store

    ghost predicate Valid()
      reads this
    {
      StoreValid(contexts)
    }

    constructor ()
      ensures Valid() && contexts == map[]
    {
      contexts := map[];
    }

    /** `_websocket_reset_context`: the loops over events and symbols that clear every
        slot of an existing context. */
    method ResetContext(conxid: string, conxtpl: Option<string>)
      requires Valid()
      modifies this
      ensures contexts == AfterReset(old(contexts), conxid, conxtpl)
      ensures Valid()
    {
      AfterResetFacts(contexts, conxid, conxtpl, "", "");
      if conxid !in contexts {
        contexts := contexts[conxid := FreshContext(conxtpl)];
        return;
      }
      var ctx := contexts[conxid];
      var events := ctx.events;
      var i := 0;
      while i < |events|
        invariant 0 <= i <= |events| == |ctx.events|
        invariant forall k :: 0 <= k < i ==> events[k] == (ctx.events[k].0, ClearedSymbols(ctx.events[k].1))
        invariant forall k :: i <= k < |events| ==> events[k] == ctx.events[k]
      {
        var symbols := events[i].1;
        var j := 0;
        while j < |symbols|
          invariant 0 <= j <= |symbols| == |ctx.events[i].1|
          invariant forall k :: 0 <= k < j ==> symbols[k] == (ctx.events[i].1[k].0, Cleared(ctx.events[i].1[k].1))
          invariant forall k :: j <= k < |symbols| ==> symbols[k] == ctx.events[i].1[k]
        {
          var symbolContext := symbols[j].1;
          symbolContext := symbolContext.(subscribed := false, subscribing := false, data := EmptyData);
          symbols := symbols[j := (symbols[j].0, symbolContext)];
          j := j + 1;
        }
        assert symbols == ClearedSymbols(ctx.events[i].1);
        events := events[i := (events[i].0, symbols)];
        i := i + 1;
      }
      assert events == ClearedEvents(ctx.events);
      contexts := contexts[conxid := ctx.(events := events)];
    }

    /** `_contextResetEvent`: the event's symbol table becomes empty. */
    method ResetEvent(conxid: string, event: string)
      requires conxid in contexts && Valid()
      modifies this
      ensures contexts == WithEvent(old(contexts), conxid, event, [])
      ensures Valid()
    {
      WithEventReads(contexts, conxid, event, [], event);
      contexts := WithEvent(contexts, conxid, event, []);
    }

    /** `_contextResetSymbol`: the slot becomes unsubscribed, not subscribing, with
        empty data and no params. */
    method ResetSymbol(conxid: string, event: string, symbol: string)
      requires conxid in contexts && Has(contexts[conxid].events, event) && Valid()
      modifies this
      ensures contexts == WithSymbol(old(contexts), conxid, event, symbol, FreshSymbol)
      ensures Valid()
    {
      WithSymbolReads(contexts, conxid, event, symbol, FreshSymbol, event, symbol);
      contexts := WithSymbol(contexts, conxid, event, symbol, FreshSymbol);
    }

    /** `_contextSetSubscribed`: sets the flag and replaces the slot's params. */
    method SetSubscribed(conxid: string, event: string, symbol: string, subscribed: bool, params: Params)
      requires conxid in contexts && Present(contexts[conxid].events, event, symbol) && Valid()
      modifies this
      ensures contexts == WithSymbol(old(contexts), conxid, event, symbol,
        Lookup(old(contexts)[conxid].events, event, symbol).value.(subscribed := subscribed, params := Some(params)))
      ensures Valid()
    {
      var sc := Lookup(contexts[conxid].events, event, symbol).value.(subscribed := subscribed, params := Some(params));
      WithSymbolReads(contexts, conxid, event, symbol, sc, event, symbol);
      contexts := WithSymbol(contexts, conxid, event, symbol, sc);
    }

    /** `_contextSetSubscribing`. */
    method SetSubscribing(conxid: string, event: string, symbol: string, subscribing: bool)
      requires conxid in contexts && Present(contexts[conxid].events, event, symbol) && Valid()
      modifies this
      ensures contexts == WithSymbol(old(contexts), conxid, event, symbol,
        Lookup(old(contexts)[conxid].events, event, symbol).value.(subscribing := subscribing))
      ensures Valid()
    {
      var sc := Lookup(contexts[conxid].events, event, symbol).value.(subscribing := subscribing);
      WithSymbolReads(contexts, conxid, event, symbol, sc, event, symbol);
      contexts := WithSymbol(contexts, conxid, event, symbol, sc);
    }

    /** `_contextSetSymbolData`. */
    method SetSymbolData(conxid: string, event: string, symbol: string, data: Json)
      requires conxid in contexts && Present(contexts[conxid].events, event, symbol) && Valid()
      modifies this
      ensures contexts == WithSymbol(old(contexts), conxid, event, symbol,
        Lookup(old(contexts)[conxid].events, event, symbol).value.(data := data))
      ensures Valid()
    {
      var sc := Lookup(contexts[conxid].events, event, symbol).value.(data := data);
      WithSymbolReads(contexts, conxid, event, symbol, sc, event, symbol);
      contexts := WithSymbol(contexts, conxid, event, symbol, sc);
    }

    /** `_contextSetConnectionInfo`. */
    method SetConnectionInfo(conxid: string, info: Option<ConnectionInfo>)
      requires conxid in contexts && Valid()
      modifies this
      ensures contexts == old(contexts)[conxid := old(contexts)[conxid].(conx := info)]
      ensures Valid()
    {
      contexts := contexts[conxid := contexts[conxid].(conx := info)];
    }

    /** `_contextSet`: writes one key of the scratch area. */
    method SetScratch(conxid: string, key: string, data: Json)
      requires conxid in contexts && Valid()
      modifies this
      ensures contexts == old(contexts)[conxid := old(contexts)[conxid].(scratch := old(contexts)[conxid].scratch[key := data])]
      ensures Valid()
    {
      contexts := contexts[conxid := contexts[conxid].(scratch := contexts[conxid].scratch[key := data])];
    }
  }

  /** Marking a slot subscribed makes `_contextIsSubscribed` true or false as asked,
      keeps its subscribing flag, and changes no other slot's flags. */
  lemma SetSubscribedReads(cs: Store, conxid: string, event: string, symbol: string, subscribed: bool, params: Params, e: string, s: string)
    requires conxid in cs && Present(cs[conxid].events, event, symbol)
    ensures var cs' := WithSymbol(cs, conxid, event, symbol,
        Lookup(cs[conxid].events, event, symbol).value.(subscribed := subscribed, params := Some(params)));
      && IsSubscribed(cs', conxid, event, symbol) == subscribed
      && IsSubscribing(cs', conxid, event, symbol) == IsSubscribing(cs, conxid, event, symbol)
      && Lookup(cs'[conxid].events, event, symbol).value.params == Some(params)
      && ((e, s) != (event, symbol) ==>
            IsSubscribed(cs', conxid, e, s) == IsSubscribed(cs, conxid, e, s)
            && IsSubscribing(cs', conxid, e, s) == IsSubscribing(cs, conxid, e, s))
  {
    var sc := Lookup(cs[conxid].events, event, symbol).value.(subscribed := subscribed, params := Some(params));
    WithSymbolReads(cs, conxid, event, symbol, sc, e, s);
  }

  /** The same for the subscribing flag. */
  lemma SetSubscribingReads(cs: Store, conxid: string, event: string, symbol: string, subscribing: bool, e: string, s: string)
    requires conxid in cs && Present(cs[conxid].events, event, symbol)
    ensures var cs' := WithSymbol(cs, conxid, event, symbol,
        Lookup(cs[conxid].events, event, symbol).value.(subscribing := subscribing));
      && IsSubscribing(cs', conxid, event, symbol) == subscribing
      && IsSubscribed(cs', conxid, event, symbol) == IsSubscribed(cs, conxid, event, symbol)
      && ((e, s) != (event, symbol) ==>
            IsSubscribed(cs', conxid, e, s) == IsSubscribed(cs, conxid, e, s)
            && IsSubscribing(cs', conxid, e, s) == IsSubscribing(cs, conxid, e, s))
  {
    var sc := Lookup(cs[conxid].events, event, symbol).value.(subscribing := subscribing);
    WithSymbolReads(cs, conxid, event, symbol, sc, e, s);
  }

  /** A reset slot is present, neither subscribed nor subscribing, and has no params;
      every other slot of the context and every other context read as before. */
  lemma ResetSymbolReads(cs: Store, conxid: string, event: string, symbol: string, e: string, s: string)
    requires conxid in cs && Has(cs[conxid].events, event)
    ensures var cs' := WithSymbol(cs, conxid, event, symbol, FreshSymbol);
      && Present(cs'[conxid].events, event, symbol)
      && !IsSubscribed(cs', conxid, event, symbol) && !IsSubscribing(cs', conxid, event, symbol)
      && Lookup(cs'[conxid].events, event, symbol).value.params.None?
      && ((e, s) != (event, symbol) ==> Lookup(cs'[conxid].events, e, s) == Lookup(cs[conxid].events, e, s))
      && cs'.Keys == cs.Keys
      && (forall c :: c in cs && c != conxid ==> cs'[c] == cs[c])
  {
    WithSymbolReads(cs, conxid, event, symbol, FreshSymbol, e, s);
  }
}
