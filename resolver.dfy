/** The subscription action resolver: from the flags of an `(event, symbol)` slot, the
    exchange's websocket configuration and the connection type of the event's template,
    decide whether to connect, reconnect, disconnect or do nothing, and with which
    connection configuration. It reads the context store and changes nothing. */
module Resolver {
  import opened Common
  import opened Dicts
  import opened Contexts

  /** A connection template or a built connection configuration. */
  type Config = map<string, string>

  /** `implode_params`: fills `{name}` placeholders of a template from a map. */
  type Implode = (string, map<string, string>) -> string

  /** `_websocket_generate_url_stream`: the exchange's URL for a list of streams. */
  type UrlStream = (seq<EventSymbol>, Config, Params) -> string

  /** One entry of `wsconf['events']`: its template name and connection parameters. */
  datatype EventConf = EventConf(conxTpl: Option<string>, conxParam: Option<map<string, string>>)

  /** `wsconf`: the declared events and the connection templates. */
  datatype WsConf = WsConf(events: Option<map<string, EventConf>>, conxTpls: Option<map<string, Config>>)

  /** `_websocketValidEvent`. */
  predicate ValidEvent(wsconf: WsConf, event: string): (b: bool)
    ensures wsconf.events.None? ==> !b
    ensures b ==> wsconf.events.value != map[]
  {
    wsconf.events.Some? && event in wsconf.events.value
  }

  // ----- connection id of an event -----

  /** `_websocketGetConxid4Event`: the connection id is the event's `id` parameter
      (by default `{id}`) filled with the event, the symbol and the template name. */
  function GetConxid4Event(wsconf: WsConf, event: string, symbol: string, implode: Implode): (r: Result<(string, string)>)
    ensures wsconf.events.None? ==> r == Err(KeyError("events"))
    ensures wsconf.events.Some? && event !in wsconf.events.value ==> r == Err(TypeError("conx-tpl"))
    ensures r.Ok? <==>
      ValidEvent(wsconf, event)
      && var ec := wsconf.events.value[event];
         ec.conxTpl.Some? && (ec.conxParam.None? || "id" in ec.conxParam.value)
    ensures r.Ok? ==> Some(r.value.1) == wsconf.events.value[event].conxTpl
  {
    if wsconf.events.None? then Err(KeyError("events"))
    else if event !in wsconf.events.value then Err(TypeError("conx-tpl"))
    else
      var ec := wsconf.events.value[event];
      var conxParam := if ec.conxParam.Some? then ec.conxParam.value else map["id" := "{id}"];
      if "id" !in conxParam then Err(KeyError("id"))
      else if ec.conxTpl.None? then Err(KeyError("conx-tpl"))
      else
        var args := map["event" := event, "symbol" := symbol, "id" := ec.conxTpl.value];
        Ok((implode(conxParam["id"], args), ec.conxTpl.value))
  }

  // ----- template and configuration -----

  datatype ActionKind = Connect | Reconnect | Disconnect

  /** When the connection's context is reset: `onconnect`, `onreconnect`, `always`. */
  datatype ResetPolicy = OnConnect | OnReconnect | Always

  /** The action dictionary the resolver returns. */
  datatype Action = Action(action: ActionKind, conxConfig: Config, resetContext: ResetPolicy, conxTpl: string)

  /** The event's template name, `default` when none is given. */
  function TemplateName(ec: EventConf): string {
    if ec.conxTpl.Some? then ec.conxTpl.value else "default"
  }

  /** The connection parameters used when an event declares none. */
  const DefaultConxParam: map<string, string> := map["url" := "{baseurl}", "id" := "{id}", "stream" := "{symbol}"]

  /** The connection types served by a plain connect. */
  const ConnectTypes: set<string> := {"signalr", "ws-io", "pusher", "ws"}

  /** The event's template: its name and its configuration. */
  function Template(wsconf: WsConf, event: string): (r: Result<(string, Config)>)
    ensures wsconf.events.None? ==> r == Err(KeyError("events"))
    ensures wsconf.events.Some? && event !in wsconf.events.value ==> r == Err(ExchangeError(MissingEventConfig(event)))
    ensures ValidEvent(wsconf, event) && wsconf.conxTpls.None? ==> r == Err(KeyError("conx-tpls"))
    ensures (ValidEvent(wsconf, event) && wsconf.conxTpls.Some?
             && TemplateName(wsconf.events.value[event]) !in wsconf.conxTpls.value) ==>
        r == Err(ExchangeError(MissingTemplate(TemplateName(wsconf.events.value[event]))))
    ensures r.Ok? ==>
      ValidEvent(wsconf, event) && wsconf.conxTpls.Some?
      && r.value.0 == TemplateName(wsconf.events.value[event])
      && r.value.0 in wsconf.conxTpls.value && r.value.1 == wsconf.conxTpls.value[r.value.0]
  {
    if wsconf.events.None? then Err(KeyError("events"))
    else if event !in wsconf.events.value then Err(ExchangeError(MissingEventConfig(event)))
    else
      var name := TemplateName(wsconf.events.value[event]);
      if wsconf.conxTpls.None? then Err(KeyError("conx-tpls"))
      else if name !in wsconf.conxTpls.value then Err(ExchangeError(MissingTemplate(name)))
      else Ok((name, wsconf.conxTpls.value[name]))
  }

  /** The connection configuration: the template, with every connection parameter
      replaced by its imploded value. Placeholders see the template's entries and
      `event`, `symbol` and `id` (the template name). */
  function BuildConfig(tpl: Config, conxParam: map<string, string>, tplName: string, event: string, symbol: string, implode: Implode): (config: Config)
    ensures config.Keys == tpl.Keys + conxParam.Keys
    ensures forall k :: k in conxParam ==>
      config[k] == implode(conxParam[k], tpl["event" := event]["symbol" := symbol]["id" := tplName])
    ensures forall k :: k in tpl && k !in conxParam ==> config[k] == tpl[k]
  {
    var args := tpl["event" := event]["symbol" := symbol]["id" := tplName];
    tpl + map k | k in conxParam :: implode(conxParam[k], args)
  }

  /** The configuration built for an event whose template exists. */
  function ConfigOf(wsconf: WsConf, event: string, symbol: string, implode: Implode): Config
    requires Template(wsconf, event).Ok?
  {
    var ec := wsconf.events.value[event];
    var (name, tpl) := Template(wsconf, event).value;
    BuildConfig(tpl, if ec.conxParam.Some? then ec.conxParam.value else DefaultConxParam, name, event, symbol, implode)
  }

  predicate Complete(config: Config) {
    "id" in config && "url" in config && "type" in config
  }

  // ----- removing an entry from the active list -----

  /** The position of the first entry for `(event, symbol)`, `|l|` when there is none. */
  function PairIndex(l: seq<EventSymbol>, event: string, symbol: string): (i: nat)
    ensures i <= |l|
    ensures i < |l| ==> l[i].event == event && l[i].symbol == symbol
    ensures forall j :: 0 <= j < i ==> l[j].event != event || l[j].symbol != symbol
  {
    if |l| == 0 then 0
    else if l[0].event == event && l[0].symbol == symbol then 0
    else 1 + PairIndex(l[1..], event, symbol)
  }

  /** The search loop of the unsubscribe branch: the first matching position. */
  method FindPair(l: seq<EventSymbol>, event: string, symbol: string) returns (index: nat)
    ensures index == PairIndex(l, event, symbol)
  {
    index := 0;
    while index < |l|
      invariant index <= |l|
      invariant forall j :: 0 <= j < index ==> l[j].event != event || l[j].symbol != symbol
    {
      if l[index].event == event && l[index].symbol == symbol {
        PairIndexUnique(l, event, symbol, index);
        return;
      }
      index := index + 1;
    }
    PairIndexUnique(l, event, symbol, index);
  }

  lemma PairIndexUnique(l: seq<EventSymbol>, event: string, symbol: string, i: nat)
    requires i <= |l|
    requires i < |l| ==> l[i].event == event && l[i].symbol == symbol
    requires forall j :: 0 <= j < i ==> l[j].event != event || l[j].symbol != symbol
    ensures PairIndex(l, event, symbol) == i
  {
  }

  /** The list with its first `(event, symbol)` entry deleted. */
  function RemoveFirst(l: seq<EventSymbol>, event: string, symbol: string): seq<EventSymbol> {
    var i := PairIndex(l, event, symbol);
    if i < |l| then l[..i] + l[i + 1..] else l
  }

  /** On a list without repeated pairs, deleting the first entry for a pair removes that
      pair entirely and keeps every other entry. */
  lemma RemoveFirstExact(l: seq<EventSymbol>, event: string, symbol: string, x: EventSymbol)
    requires DistinctPairs(l)
    ensures x in RemoveFirst(l, event, symbol) <==> x in l && (x.event != event || x.symbol != symbol)
    ensures |RemoveFirst(l, event, symbol)| ==
      if exists k :: 0 <= k < |l| && l[k].event == event && l[k].symbol == symbol then |l| - 1 else |l|
  {
    var i := PairIndex(l, event, symbol);
    if i < |l| {
      var r := l[..i] + l[i + 1..];
      assert forall k :: 0 <= k < i ==> r[k] == l[k];
      assert forall k :: i < k < |l| ==> r[k - 1] == l[k];
      if x in l && (x.event != event || x.symbol != symbol) {
        var k :| 0 <= k < |l| && l[k] == x;
        if k < i {
          assert r[k] == x;
        } else {
          assert r[k - 1] == x;
        }
      }
    }
  }

  // ----- the decision -----

  /** The decision once the configuration is complete, by connection type. */
  function Decide(cs: Store, config: Config, tplName: string, event: string, symbol: string,
                  subscription: bool, subscriptionParams: Params, urlStream: UrlStream): Result<Option<Action>>
    requires Complete(config)
  {
    var kind := config["type"];
    if kind in ConnectTypes then Ok(Some(Action(Connect, config, OnConnect, tplName)))
    else if kind == "ws-s" then
      if config["id"] !in cs then Err(KeyError(config["id"]))
      else
        var subscribed := SubscribedEventSymbols(cs, config["id"]);
        if subscription then
          var streams := subscribed + [EventSymbol(event, symbol, None)];
          Ok(Some(Action(Reconnect, config["url" := urlStream(streams, config, subscriptionParams)], OnReconnect, tplName)))
        else
          var remaining := RemoveFirst(subscribed, event, symbol);
          if |remaining| == 0 then Ok(Some(Action(Disconnect, config, Always, tplName)))
          else Ok(Some(Action(Reconnect, config["url" := urlStream(remaining, config, subscriptionParams)], OnReconnect, tplName)))
    else Err(NotSupported(InvalidConnectionType(kind)))
  }

  /** Whether the slot is subscribed or subscribing. */
  predicate SlotActive(cs: Store, conxid: string, event: string, symbol: string)
    requires conxid in cs
  {
    IsSubscribed(cs, conxid, event, symbol) || IsSubscribing(cs, conxid, event, symbol)
  }

  /** `_websocket_get_action_for_event`. */
  function GetActionForEvent(cs: Store, wsconf: WsConf, conxid: string, event: string, symbol: string,
                             subscription: bool, subscriptionParams: Params,
                             implode: Implode, urlStream: UrlStream): (r: Result<Option<Action>>)
    ensures conxid !in cs ==> r == Err(KeyError(conxid))
    ensures (r.Ok? && r.value.None?) <==> conxid in cs && subscription == SlotActive(cs, conxid, event, symbol)
    ensures conxid in cs && subscription != SlotActive(cs, conxid, event, symbol) && Template(wsconf, event).Err? ==>
      r == Err(Template(wsconf, event).error)
    ensures r.Ok? && r.value.Some? ==>
      Template(wsconf, event).Ok? && r.value.value.conxTpl == Template(wsconf, event).value.0
      && Complete(r.value.value.conxConfig)
    ensures r.Ok? && r.value.Some? && r.value.value.action == Disconnect ==> !subscription
  {
    if conxid !in cs then Err(KeyError(conxid))
    else if subscription == SlotActive(cs, conxid, event, symbol) then Ok(None)
    else if Template(wsconf, event).Err? then Err(Template(wsconf, event).error)
    else
      var config := ConfigOf(wsconf, event, symbol, implode);
      if !Complete(config) then Err(ExchangeError(InvalidConfiguration))
      else Decide(cs, config, Template(wsconf, event).value.0, event, symbol, subscription, subscriptionParams, urlStream)
  }

  /** The requests that reach the connection-type switch: the slot's state calls for
      an action, the template exists, and the built configuration has an id, a URL
      and a type. */
  predicate Reaches(cs: Store, wsconf: WsConf, conxid: string, event: string, symbol: string, subscription: bool, implode: Implode) {
    conxid in cs && subscription != SlotActive(cs, conxid, event, symbol)
    && Template(wsconf, event).Ok? && Complete(ConfigOf(wsconf, event, symbol, implode))
  }

  /** A configuration lacking `id`, `url` or `type` is rejected. */
  lemma IncompleteConfigRejected(cs: Store, wsconf: WsConf, conxid: string, event: string, symbol: string,
                                 subscription: bool, subscriptionParams: Params, implode: Implode, urlStream: UrlStream)
    requires conxid in cs && subscription != SlotActive(cs, conxid, event, symbol) && Template(wsconf, event).Ok?
    requires !Complete(ConfigOf(wsconf, event, symbol, implode))
    ensures GetActionForEvent(cs, wsconf, conxid, event, symbol, subscription, subscriptionParams, implode, urlStream)
      == Err(ExchangeError(InvalidConfiguration))
  {
  }

  /** signalr, ws-io, pusher and ws connections are always (re)connected with
      `onconnect`, on subscribe and on unsubscribe alike; an unknown type is
      NotSupported. */
  lemma ConnectTypesConnect(cs: Store, wsconf: WsConf, conxid: string, event: string, symbol: string,
                            subscription: bool, subscriptionParams: Params, implode: Implode, urlStream: UrlStream)
    requires Reaches(cs, wsconf, conxid, event, symbol, subscription, implode)
    ensures var config := ConfigOf(wsconf, event, symbol, implode);
      var r := GetActionForEvent(cs, wsconf, conxid, event, symbol, subscription, subscriptionParams, implode, urlStream);
      && (config["type"] in ConnectTypes ==>
            r == Ok(Some(Action(Connect, config, OnConnect, Template(wsconf, event).value.0))))
      && (config["type"] !in ConnectTypes && config["type"] != "ws-s" ==>
            r == Err(NotSupported(InvalidConnectionType(config["type"]))))
      && (r.Ok? && r.value.Some? && r.value.value.action != Connect ==> config["type"] == "ws-s")
  {
  }

  /** Subscribing on a `ws-s` connection reconnects with the URL built from every
      active pair of the connection named by the config's id, plus the new pair. */
  lemma StreamSubscribe(cs: Store, wsconf: WsConf, conxid: string, event: string, symbol: string,
                        subscriptionParams: Params, implode: Implode, urlStream: UrlStream)
    requires Reaches(cs, wsconf, conxid, event, symbol, true, implode)
    requires ConfigOf(wsconf, event, symbol, implode)["type"] == "ws-s"
    ensures var config := ConfigOf(wsconf, event, symbol, implode);
      var r := GetActionForEvent(cs, wsconf, conxid, event, symbol, true, subscriptionParams, implode, urlStream);
      && (config["id"] !in cs ==> r == Err(KeyError(config["id"])))
      && (config["id"] in cs ==>
            var streams := SubscribedEventSymbols(cs, config["id"]) + [EventSymbol(event, symbol, None)];
            && r == Ok(Some(Action(Reconnect, config["url" := urlStream(streams, config, subscriptionParams)],
                                   OnReconnect, Template(wsconf, event).value.0)))
            && streams[|streams| - 1] == EventSymbol(event, symbol, None)
            && streams[..|streams| - 1] == SubscribedEventSymbols(cs, config["id"]))
  {
  }

  /** Unsubscribing on a `ws-s` connection drops the pair from the active list; the
      connection is disconnected (`always`) exactly when no other pair remains, and
      otherwise reconnected (`onreconnect`) with the URL of the remaining pairs. */
  lemma {:induction false} StreamUnsubscribe(cs: Store, wsconf: WsConf, conxid: string, event: string, symbol: string,
                          subscriptionParams: Params, implode: Implode, urlStream: UrlStream)
    requires Reaches(cs, wsconf, conxid, event, symbol, false, implode)
    requires ConfigOf(wsconf, event, symbol, implode)["type"] == "ws-s"
    requires var id := ConfigOf(wsconf, event, symbol, implode)["id"]; id in cs && ContextValid(cs[id])
    ensures var config := ConfigOf(wsconf, event, symbol, implode);
      var subscribed := SubscribedEventSymbols(cs, config["id"]);
      var remaining := RemoveFirst(subscribed, event, symbol);
      var r := GetActionForEvent(cs, wsconf, conxid, event, symbol, false, subscriptionParams, implode, urlStream);
      && (forall x :: x in remaining <==> x in subscribed && (x.event != event || x.symbol != symbol))
      && r.Ok? && r.value.Some?
      && (r.value.value.action == Disconnect <==>
            forall x :: x in subscribed ==> x.event == event && x.symbol == symbol)
      && (r.value.value.action == Disconnect ==> r.value.value == Action(Disconnect, config, Always, Template(wsconf, event).value.0))
      && (r.value.value.action != Disconnect ==>
            r.value.value == Action(Reconnect, config["url" := urlStream(remaining, config, subscriptionParams)],
                                    OnReconnect, Template(wsconf, event).value.0))
  {
    var config := ConfigOf(wsconf, event, symbol, implode);
    var subscribed := SubscribedEventSymbols(cs, config["id"]);
    var remaining := RemoveFirst(subscribed, event, symbol);
    SubscribedEventSymbolsExact(cs, config["id"], EventSymbol(event, symbol, None));
    forall x
      ensures x in remaining <==> x in subscribed && (x.event != event || x.symbol != symbol)
    {
      RemoveFirstExact(subscribed, event, symbol, x);
    }
    if |remaining| != 0 {
      assert remaining[0] in remaining;
    }
  }

  /** The connection id of an event and the resolver agree on its template whenever the
      template exists. */
  lemma ConxidTemplateAgrees(wsconf: WsConf, event: string, symbol: string, implode: Implode)
    requires GetConxid4Event(wsconf, event, symbol, implode).Ok?
    ensures Template(wsconf, event).Ok? ==>
      Template(wsconf, event).value.0 == GetConxid4Event(wsconf, event, symbol, implode).value.1
    ensures Template(wsconf, event).Err? ==>
      Template(wsconf, event).error == KeyError("conx-tpls")
      || Template(wsconf, event).error == ExchangeError(MissingTemplate(GetConxid4Event(wsconf, event, symbol, implode).value.1))
  {
  }

  // ----- markets -----

  datatype Market = Market(id: string, symbol: string)

  /** `_websocket_find_symbol`: the unified symbol of a market id, or the id itself
      when no market has it. */
  function FindSymbol(marketsById: map<string, Market>, marketId: string): (symbol: string)
    ensures marketId in marketsById ==> symbol == marketsById[marketId].symbol
    ensures marketId !in marketsById ==> symbol == marketId
  {
    if marketId in marketsById then marketsById[marketId].symbol else marketId
  }

  /** The two market indexes describe the same markets. */
  predicate MarketsAgree(markets: map<string, Market>, marketsById: map<string, Market>) {
    (forall s :: s in markets ==> markets[s].symbol == s && markets[s].id in marketsById && marketsById[markets[s].id] == markets[s])
    && (forall i :: i in marketsById ==> marketsById[i].id == i && marketsById[i].symbol in markets && markets[marketsById[i].symbol] == marketsById[i])
  }

  /** Mapping a known market id to its symbol and back returns the id; a known symbol's
      id maps back to the symbol. */
  lemma FindSymbolRoundTrip(markets: map<string, Market>, marketsById: map<string, Market>, marketId: string, symbol: string)
    requires MarketsAgree(markets, marketsById)
    ensures marketId in marketsById ==>
      FindSymbol(marketsById, marketId) in markets && markets[FindSymbol(marketsById, marketId)].id == marketId
    ensures symbol in markets ==> FindSymbol(marketsById, markets[symbol].id) == symbol
  {
  }
}
