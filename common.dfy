/** Values shared by every component of the websocket core: optional values, results,
    the error classes the exchange raises, and the JSON-like payloads it receives. */
module Common {

  datatype Option<T> = None | Some(value: T)

  /** Which check raised: one constructor per `raise` in the core. */
  datatype Reason =
    | InvalidEvent(event: string)             // event not declared in the websocket configuration
    | MissingEventConfig(event: string)       // no configuration for the event
    | MissingTemplate(name: string)           // the connection template does not exist
    | InvalidConfiguration                    // the built connection config lacks id, url or type
    | InvalidConnectionType(kind: string)     // a connection type the core cannot serve
    | ConnectionNotFound(conxid: string)      // no connection info stored for the connection id
    | UnrecognizedBidAskFormat                // the first bid/ask entry is neither a list nor a dict
    | SubscribeFailed(event: string, symbol: string)
    | UnsubscribeFailed(event: string, symbol: string)

  /** The exception classes of the core: ExchangeError and NotSupported from the
      exchange's error hierarchy, Python's KeyError for a missing dictionary key and
      TypeError for subscripting `None`, and the TimeoutError set on a future whose deadline passed. */
  datatype Error =
    | ExchangeError(reason: Reason)
    | NotSupported(reason: Reason)
    | KeyError(key: string)
    | TypeError(what: string)
    | TimeoutError(scope: string)

  datatype Result<T> = Ok(value: T) | Err(error: Error)

  datatype Outcome = Pass | Fail(error: Error)

  /** A dictionary key or list index as used by `price_key` and `amount_key`. */
  datatype Key = IntKey(index: int) | StrKey(name: string)

  /** A decoded wire value. */
  datatype Json =
    | JNull
    | JBool(b: bool)
    | JNum(n: real)
    | JStr(s: string)
    | JList(items: seq<Json>)
    | JDict(fields: map<Key, Json>)

  /** Opaque request parameters of a subscription. */
  type Params = map<string, Json>

  /** The `{}` that the core stores as a symbol's cached data after a reset. */
  const EmptyData: Json := JDict(map[])
}
