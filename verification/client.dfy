/**
 * The relay client's connection lifecycle (index.js:11-15, index.js:123-132,
 * index.js:153-249): the module-level socket, client id and attempt counter,
 * and the socket callbacks and calls that change them, taken one at a time.
 */
module RelayClient {
  import opened Wrappers
  import Backoff
  import Discovery
  import Envelope
  import Permission
  import Presentation

  /** `WebSocket.readyState`. */
  datatype ReadyState = Connecting | Open | Closing | Closed

  /** The guard of `connectWebSocket`: a socket that is open or still connecting is kept. */
  predicate IsLive(ws: Option<ReadyState>) {
    ws == Some(Open) || ws == Some(Connecting)
  }

  /** One incoming notification: the sound always plays; the desktop notification shows when `desktop`. */
  datatype Alert = Alert(text: Presentation.AlertText, desktop: bool)

  /** How a `connectWebSocket` call ended, with the port it looked up. */
  datatype ConnectOutcome =
    | AlreadyLive
    | Created(port: Option<int>)
    | ConstructFailed(port: Option<int>)

  class Client {
    /** The socket `ws`, by its ready state; `None` before the first socket exists. */
    var ws: Option<ReadyState>
    var clientId: Option<string>
    var reconnectAttempts: nat
    /** The delays handed to `setTimeout(connectWebSocket, ...)`, in call order. */
    var timers: seq<nat>
    /** The notify frames written to the socket, in order. */
    var sent: seq<Envelope.Notify>
    /** The alerts raised for incoming notifications, in order. */
    var alerts: seq<Alert>
    /** The browser's `Notification.permission`. */
    var permission: Permission.NotificationPermission

    /** The counter never passes the maximum, and every timer waits a backoff delay. */
    ghost predicate Valid()
      reads this
    {
      && reconnectAttempts <= Backoff.MaxReconnectAttempts
      && forall i :: 0 <= i < |timers| ==> Backoff.IsBackoffDelay(timers[i])
    }

    /** Module load: no socket, no id, a fresh counter. */
    constructor (permission: Permission.NotificationPermission)
      ensures Valid()
      ensures ws == None && clientId == None && reconnectAttempts == 0
      ensures timers == [] && sent == [] && alerts == [] && this.permission == permission
    {
      ws := None;
      clientId := None;
      reconnectAttempts := 0;
      timers := [];
      sent := [];
      alerts := [];
      this.permission := permission;
    }

    /**
     * `scheduleReconnect`: at the maximum it gives up and changes nothing;
     * otherwise it counts one more attempt and schedules one reconnect after
     * 3000 ms times the new count.
     */
    method ScheduleReconnect()
      requires Valid()
      modifies this`reconnectAttempts, this`timers
      ensures Valid()
      ensures old(reconnectAttempts) >= Backoff.MaxReconnectAttempts ==>
        reconnectAttempts == old(reconnectAttempts) && timers == old(timers)
      ensures old(reconnectAttempts) < Backoff.MaxReconnectAttempts ==>
        reconnectAttempts == old(reconnectAttempts) + 1 &&
        timers == old(timers) + [Backoff.ReconnectDelayMs * reconnectAttempts]
      ensures var step := Backoff.Run(old(reconnectAttempts), 1);
        reconnectAttempts == step.attempts && timers == old(timers) + step.delays
    {
      if reconnectAttempts >= Backoff.MaxReconnectAttempts {
        return;
      }
      reconnectAttempts := reconnectAttempts + 1;
      var delay := Backoff.ReconnectDelayMs * reconnectAttempts;
      timers := timers + [delay];
    }

    /**
     * `connectWebSocket`, run to completion. `response` is what the port
     * lookup got; `constructs` says whether `new WebSocket(...)` returns for
     * a well-formed URL. A live socket is kept. Otherwise a new socket starts
     * connecting, or construction throws (because the looked-up port does
     * not fit in the URL, or for a reason of the browser's own), which
     * schedules a reconnect and leaves `ws` as it was.
     */
    method Connect(response: Discovery.PortResponse, constructs: bool) returns (outcome: ConnectOutcome)
      requires Valid()
      modifies this`ws, this`reconnectAttempts, this`timers
      ensures Valid()
      ensures IsLive(old(ws)) ==>
        outcome == AlreadyLive && ws == old(ws) &&
        reconnectAttempts == old(reconnectAttempts) && timers == old(timers)
      ensures !IsLive(old(ws)) && constructs && Discovery.UrlPort(Discovery.WebSocketPort(response)) ==>
        outcome == Created(Discovery.WebSocketPort(response)) && ws == Some(Connecting) &&
        reconnectAttempts == old(reconnectAttempts) && timers == old(timers)
      ensures !IsLive(old(ws)) && !(constructs && Discovery.UrlPort(Discovery.WebSocketPort(response))) ==>
        outcome == ConstructFailed(Discovery.WebSocketPort(response)) && ws == old(ws) &&
        var step := Backoff.Run(old(reconnectAttempts), 1);
        reconnectAttempts == step.attempts && timers == old(timers) + step.delays
      ensures outcome.Created? ==> Discovery.UrlPort(outcome.port)
    {
      if ws == Some(Open) || ws == Some(Connecting) {
        return AlreadyLive;
      }
      var port := Discovery.WebSocketPort(response);
      if constructs && Discovery.UrlPort(port) {
        ws := Some(Connecting);
        outcome := Created(port);
      } else {
        ScheduleReconnect();
        outcome := ConstructFailed(port);
      }
    }

    /**
     * `onopen`: the browser has moved the socket to OPEN; the counter
     * restarts from 0 whatever it was. The client id is left alone.
     */
    method OnOpen()
      requires Valid()
      requires ws == Some(Connecting)
      modifies this`ws, this`reconnectAttempts
      ensures Valid()
      ensures ws == Some(Open) && reconnectAttempts == 0
    {
      ws := Some(Open);
      reconnectAttempts := 0;
    }

    /** `handleIncomingNotification`: exactly one alert, its text chosen by the event kind. */
    method HandleIncomingNotification(event: Option<string>)
      modifies this`alerts
      ensures alerts == old(alerts) + [Alert(Presentation.AlertTextFor(event), permission == Permission.Granted)]
    {
      var text := Presentation.AlertTextFor(event);
      alerts := alerts + [Alert(text, permission == Permission.Granted)];
    }

    /**
     * `onmessage`: a welcome sets the client id, a notification raises one
     * alert; a pong, an unknown type or an unparseable frame changes nothing.
     */
    method OnMessage(frame: Envelope.Frame)
      requires ws == Some(Open)
      modifies this`clientId, this`alerts
      ensures match Envelope.Classify(frame)
        case Welcome(id) => clientId == id && alerts == old(alerts)
        case Notification(event) =>
          clientId == old(clientId) &&
          alerts == old(alerts) + [Alert(Presentation.AlertTextFor(event), permission == Permission.Granted)]
        case _ => clientId == old(clientId) && alerts == old(alerts)
    {
      match Envelope.Classify(frame)
      case Welcome(id) =>
        clientId := id;
      case Notification(event) =>
        HandleIncomingNotification(event);
      case Pong =>
      case UnknownType(_) =>
      case Malformed =>
    }

    /**
     * `onclose`: the browser has moved the socket to CLOSED; the client id is
     * cleared and exactly one `scheduleReconnect` follows.
     */
    method OnClose()
      requires Valid()
      requires ws.Some?
      modifies this`ws, this`clientId, this`reconnectAttempts, this`timers
      ensures Valid()
      ensures ws == Some(Closed) && clientId == None
      ensures var step := Backoff.Run(old(reconnectAttempts), 1);
        reconnectAttempts == step.attempts && timers == old(timers) + step.delays
    {
      ws := Some(Closed);
      clientId := None;
      ScheduleReconnect();
    }

    /**
     * `onerror`: only reports the error; the id, the counter and the timers
     * stay as they are, and no reconnect is scheduled.
     */
    method OnError()
      requires ws.Some?
      ensures ws == old(ws) && clientId == old(clientId)
      ensures reconnectAttempts == old(reconnectAttempts) && timers == old(timers)
    {
    }

    /**
     * `notifyOtherClients`: one notify frame when the socket is OPEN, whether
     * or not an id has been assigned; nothing in any other state.
     */
    method NotifyOtherClients(event: string, data: map<string, string>)
      modifies this`sent
      ensures ws == Some(Open) ==> sent == old(sent) + [Envelope.Notify(event, data)]
      ensures ws != Some(Open) ==> sent == old(sent)
    {
      if ws == Some(Open) {
        sent := sent + [Envelope.Notify(event, data)];
      }
    }

    /** The host's "character message rendered" event: notify with `character_message` and no data. */
    method CharacterMessageRendered()
      modifies this`sent
      ensures ws == Some(Open) ==> sent == old(sent) + [Envelope.Notify(Presentation.CharacterMessage, map[])]
      ensures ws != Some(Open) ==> sent == old(sent)
    {
      NotifyOtherClients(Presentation.CharacterMessage, map[]);
    }

    /**
     * `requestNotificationPermission`: `answer` is what the user would pick
     * at a prompt; the browser keeps what was decided.
     */
    method RequestNotificationPermission(answer: Permission.PromptAnswer) returns (granted: bool)
      modifies this`permission
      ensures var d := Permission.Decide(old(permission), answer);
        granted == d.granted && permission == d.after
    {
      var d := Permission.Decide(permission, answer);
      granted := d.granted;
      permission := d.after;
    }
  }

  /**
   * Three connections in a row that fail to open (error, then close) from a
   * fresh start schedule reconnects after 3000, 6000 and 9000 ms.
   */
  method ThreeRefusedConnections() returns (delays: seq<nat>, attempts: nat)
    ensures delays == [3000, 6000, 9000] && attempts == 3
  {
    var c := new Client(Permission.Default);
    var outcome := c.Connect(Discovery.FetchFailed, true);
    c.OnError();
    c.OnClose();
    outcome := c.Connect(Discovery.FetchFailed, true);
    c.OnError();
    c.OnClose();
    outcome := c.Connect(Discovery.FetchFailed, true);
    c.OnError();
    c.OnClose();
    delays, attempts := c.timers, c.reconnectAttempts;
  }

  /**
   * The relay answers ok but without a `port`: the socket URL ends in
   * `:undefined`, construction throws, and the first reconnect is
   * scheduled after 3000 ms.
   */
  method PortlessReply() returns (outcome: ConnectOutcome, delays: seq<nat>, attempts: nat)
    ensures outcome == ConstructFailed(None) && delays == [3000] && attempts == 1
  {
    var c := new Client(Permission.Default);
    outcome := c.Connect(Discovery.Response(true, Discovery.Json(None)), true);
    delays, attempts := c.timers, c.reconnectAttempts;
  }

  /**
   * `k` connections in a row that fail to open (error, then close) from a
   * fresh start: while `k <= 10` they schedule 3000, 6000, ..., 3000 * k in
   * that order and leave the counter at `k`; beyond ten nothing more is
   * scheduled and the counter stays at 10.
   */
  method RefusedConnections(k: nat) returns (delays: seq<nat>, attempts: nat)
    ensures k <= Backoff.MaxReconnectAttempts ==>
      delays == Backoff.LinearDelays(k) && attempts == k
    ensures k >= Backoff.MaxReconnectAttempts ==>
      delays == Backoff.LinearDelays(Backoff.MaxReconnectAttempts) && attempts == Backoff.MaxReconnectAttempts
  {
    var c := new Client(Permission.Default);
    var i := 0;
    while i < k
      invariant 0 <= i <= k
      invariant c.Valid() && !IsLive(c.ws)
      invariant c.timers == Backoff.Run(0, i).delays
      invariant c.reconnectAttempts == Backoff.Run(0, i).attempts
    {
      var outcome := c.Connect(Discovery.FetchFailed, true);
      c.OnError();
      c.OnClose();
      Backoff.RunSplit(0, i, 1);
      i := i + 1;
    }
    if k <= Backoff.MaxReconnectAttempts {
      Backoff.FailuresFromZero(k);
    } else {
      Backoff.FailuresBeyondMax(k);
    }
    delays, attempts := c.timers, c.reconnectAttempts;
  }

  /**
   * Permission granted, a character message rendered before the socket
   * opens (nothing sent), then open, welcome "abc", another rendered
   * message (one frame) and an incoming character-message notification
   * (one "New Bot Message" alert with a desktop notification).
   */
  method RelayRoundTrip() returns (id: Option<string>, frames: seq<Envelope.Notify>, raised: seq<Alert>)
    ensures id == Some("abc")
    ensures frames == [Envelope.Notify("character_message", map[])]
    ensures raised == [Alert(Presentation.AlertText("New Bot Message", "A character has responded in the chat"), true)]
  {
    var c := new Client(Permission.Default);
    var granted := c.RequestNotificationPermission(Permission.Granted);
    var outcome := c.Connect(Discovery.Response(true, Discovery.Json(Some(5050))), true);
    c.CharacterMessageRendered();
    c.OnOpen();
    c.OnMessage(Envelope.Parsed(Some("welcome"), Some("abc"), None));
    c.CharacterMessageRendered();
    c.OnMessage(Envelope.Parsed(Some("notification"), None, Some("character_message")));
    id, frames, raised := c.clientId, c.sent, c.alerts;
  }
}
