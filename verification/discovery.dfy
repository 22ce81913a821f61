/** The relay port lookup with its fallback (index.js:10, index.js:137-148). */
module Discovery {
  import opened Wrappers

  const DefaultWsPort: int := 5050

  /**
   * What `response.json()` gives: an object whose `port` property may be
   * absent (`None`), or something that cannot be read as one (a body that
   * does not parse, or `null`), which throws inside the same `try`.
   */
  datatype PortBody = Json(port: Option<int>) | Unreadable

  /** The `fetch` of the port endpoint: a response, or a rejected request. */
  datatype PortResponse = Response(ok: bool, body: PortBody) | FetchFailed

  predicate Answered(r: PortResponse) {
    r.Response? && r.ok && r.body.Json?
  }

  /**
   * The relay's own `port` on an ok, readable response (possibly undefined),
   * and the default port in every other case.
   */
  function WebSocketPort(r: PortResponse): (port: Option<int>)
    ensures Answered(r) ==> port == r.body.port
    ensures !Answered(r) ==> port == Some(DefaultWsPort)
  {
    match r
    case FetchFailed => Some(DefaultWsPort)
    case Response(ok, body) =>
      if ok then
        match body
        case Json(p) => p
        case Unreadable => Some(DefaultWsPort)
      else Some(DefaultWsPort)
  }

  /**
   * A port the socket URL `ws://host:port` accepts. An undefined port
   * becomes the text `undefined` in the URL, and a number outside 0..65535
   * is out of range; in both cases the URL does not parse and the
   * `WebSocket` constructor throws.
   */
  predicate UrlPort(port: Option<int>) {
    port.Some? && 0 <= port.value <= 65535
  }

  /** A port other than the default can only come from an ok response. */
  lemma OtherPortOnlyFromRelay(r: PortResponse)
    requires WebSocketPort(r) != Some(DefaultWsPort)
    ensures r.Response? && r.ok && r.body == Json(WebSocketPort(r))
  {
  }
}
