/**
 * The wire envelopes: the inbound frames the `onmessage` switch dispatches on
 * (index.js:174-197) and the outbound notify frame (index.js:125-129).
 */
module Envelope {
  import opened Wrappers

  /**
   * One inbound frame after `JSON.parse`. `Unparseable` when parsing throws
   * or yields `null` (reading `type` of `null` throws in the same `try`);
   * otherwise the string-valued properties `type`, `clientId` and `event`,
   * each `None` when absent.
   */
  datatype Frame =
    | Unparseable
    | Parsed(kind: Option<string>, clientId: Option<string>, event: Option<string>)

  /** The handler's reading of a frame: one case per branch of the switch. */
  datatype Inbound =
    | Welcome(clientId: Option<string>)
    | Notification(event: Option<string>)
    | Pong
    | UnknownType(kind: Option<string>)
    | Malformed

  function Classify(f: Frame): (m: Inbound)
    ensures m.Malformed? <==> f.Unparseable?
    ensures m.Welcome? <==> f.Parsed? && f.kind == Some("welcome")
    ensures m.Notification? <==> f.Parsed? && f.kind == Some("notification")
    ensures m.Pong? <==> f.Parsed? && f.kind == Some("pong")
    ensures m.Welcome? ==> m.clientId == f.clientId
    ensures m.Notification? ==> m.event == f.event
    ensures m.UnknownType? ==> m.kind == f.kind
  {
    match f
    case Unparseable => Malformed
    case Parsed(kind, id, event) =>
      if kind == Some("welcome") then Welcome(id)
      else if kind == Some("notification") then Notification(event)
      else if kind == Some("pong") then Pong
      else UnknownType(kind)
  }

  /** The outbound frame `{type: 'notify', event, data}`. */
  datatype Notify = Notify(event: string, data: map<string, string>)
}
