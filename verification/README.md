# Message Ding relay client — a Dafny model

Message Ding is a SillyTavern extension that tells every other browser tab
attached to the same SillyTavern server that a character has replied. Each
tab keeps one WebSocket to a relay plugin. It announces a rendered character
message with a `notify` frame. It alerts its user when a `notification` frame
arrives: a sound, plus a desktop notification when permission allows one.

This project models the client side of that relay in `index.js`:

- the connection lifecycle: the module-level socket, client id and
  reconnect counter, and the events that change them
  (`connectWebSocket`, `onopen`, `onmessage`, `onclose`, `onerror`,
  `scheduleReconnect`);
- the outbound gate `notifyOtherClients`;
- the pure decisions around them: the alert title and body per event kind,
  the notification-permission decision, and the relay-port fallback.

Layout:

- `wrappers.dfy` — `Option` (`None` is JavaScript's `null`/`undefined`).
- `presentation.dfy` — event kinds and the alert text table.
- `permission.dfy` — `requestNotificationPermission` as a decision function.
- `discovery.dfy` — `getWebSocketPort`: the relay's port or 5050.
- `envelope.dfy` — inbound frame classification and the outbound notify frame.
- `backoff.dfy` — linear backoff: one `scheduleReconnect` decision, runs of
  consecutive failures, and their closed forms.
- `client.dfy` — class `Client`: the state and one method per event, plus two
  end-to-end scenarios.

Modelling choices:

- `setTimeout(connectWebSocket, delay)` is recorded by appending `delay` to
  `Client.timers`. A timer firing is the caller invoking `Client.Connect`.
- Callbacks run one at a time as method calls. The browser's ready-state
  change is folded into the event that reports it: `OnOpen` sets OPEN and
  `OnClose` sets CLOSED. Each event method requires the ready state in which
  the browser fires that event.
- The network is abstracted to parameters. `Connect` takes the port
  lookup's response (`Discovery.PortResponse`) and whether the `WebSocket`
  constructor returns or throws. `OnMessage` takes the frame as
  `JSON.parse` left it (`Envelope.Frame`).
- An alert records its text and whether a desktop notification is shown.
  A desktop notification is shown exactly when `Notification.permission` is
  `granted`. The sound is always played.

The model follows the code on these points:

- Sending is gated on the socket being OPEN, not on holding a client id.
- The attempt counter is reset by `onopen`, not by `welcome`.
- `onerror` schedules nothing. Only `onclose` and a throwing constructor do.
- Exhausting the attempts only logs. It does not set a terminal status.
- There is no `stop()`, no timer cancellation and no push-stream transport.

## Model

| member | source | states |
|---|---|---|
| `Presentation.AlertTextFor` | index.js:104-113 | a recognised event kind gets its entry of the kind table (character message: "New Bot Message"/"A character has responded in the chat"; user message: "New User Message"/"Someone sent a message in the chat"); anything else, including a missing event, gets "SillyTavern"/"New message received" |
| `Presentation.FallbackExactlyWhenUnrecognised` | index.js:104-113 | the generic text appears if and only if the event kind is not recognised |
| `Presentation.RecognisedKindsDistinguishable` | index.js:107-113 | two recognised kinds with the same text are the same kind |
| `Permission.Decide` | index.js:51-67 | the user is prompted if and only if the permission is still default; the request resolves true if and only if permission was already granted or the prompt was granted; unsupported and denied never prompt and resolve false; the result is true exactly when the browser's permission ends up granted |
| `Permission.DecisionIsStable` | index.js:57-66 | once granted or denied, a second request prompts nobody and resolves the same way |
| `Discovery.WebSocketPort` | index.js:137-148 | an ok response with a readable body yields its `port` (possibly undefined); a non-ok response, an unreadable body or a failed fetch yields 5050 |
| `Discovery.OtherPortOnlyFromRelay` | index.js:140-147 | any port other than 5050 comes from an ok response carrying exactly that port |
| `Envelope.Classify` | index.js:174-197 | unparseable data is malformed; type `welcome`, `notification` and `pong` select their branches (both directions) carrying `clientId`/`event`; every other type is unknown |
| `Backoff.Reschedule` | index.js:238-249 | one `scheduleReconnect` decision: a delay is scheduled exactly when the counter is below 10, the counter grows by exactly the number of delays scheduled (at most one), and the delay is 3000 × the new counter |
| `Backoff.Run` | index.js:238-249 | k consecutive `scheduleReconnect` calls: the counter grows by exactly the number of delays scheduled, at most one per call; its exact values are given by `RunBelowMax`, `ExhaustedIsFinal`, `RunSplit`, `FailuresFromZero` and `FailuresBeyondMax` |
| `Backoff.LinearDelays` | index.js:244-248 | the reference sequence 3000, 6000, ..., 3000·n, element by element |
| `Backoff.RunBelowMax` | index.js:244-248 | while the counter stays at most 10, k consecutive calls add exactly k to the counter and schedule delays 3000·(a+1), ..., 3000·(a+k) in order |
| `Backoff.ExhaustedIsFinal` | index.js:239-242 | at or above 10 attempts any number of calls schedule nothing and leave the counter unchanged |
| `Backoff.RunSplit` | index.js:238-249 | j calls followed by k calls have the same effect as j+k calls, so one-call method contracts compose into runs |
| `Backoff.FailuresFromZero` | index.js:13-15 | from 0, k ≤ 10 failures schedule exactly 3000, ..., 3000·k in order and leave the counter at k |
| `Backoff.FailuresBeyondMax` | index.js:239-242 | from 0, k ≥ 10 failures leave the counter at 10 with exactly the ten delays 3000, ..., 30000 |
| `Backoff.RunKeepsBounds` | index.js:239-248 | starting within the bound, the counter never exceeds 10 and every scheduled delay is a multiple of 3000 between 3000 and 30000 |
| `RelayClient.Client.constructor` | index.js:11-13 | no socket, no client id, counter 0, nothing scheduled, sent or alerted |
| `RelayClient.Client.ScheduleReconnect` | index.js:238-249 | at ≥ 10 attempts nothing changes; otherwise the counter grows by exactly 1 and one timer of 3000 × the new counter is appended; the class invariant (counter ≤ 10, backoff delays only) is kept |
| `RelayClient.Client.Connect` | index.js:153-216 | an OPEN or CONNECTING socket is kept and nothing changes; otherwise, when the looked-up port is a number in 0..65535 and the constructor returns, a new socket starts CONNECTING; when the port is undefined or out of range (the URL does not parse) or the constructor throws, `ws` is left alone and exactly one `scheduleReconnect` takes effect |
| `RelayClient.Client.OnOpen` | index.js:168-172 | the socket is OPEN and the counter is 0 whatever it was |
| `RelayClient.Client.HandleIncomingNotification` | index.js:97-116 | exactly one alert with the text of the event kind, shown on the desktop exactly when permission is granted |
| `RelayClient.Client.OnMessage` | index.js:174-198 | welcome sets the client id to the message's id; notification appends exactly one alert; pong, unknown types and unparseable data change nothing |
| `RelayClient.Client.OnClose` | index.js:200-205 | the socket is CLOSED, the client id is cleared, and exactly one `scheduleReconnect` takes effect |
| `RelayClient.Client.OnError` | index.js:207-210 | socket, client id, counter and timers are all unchanged |
| `RelayClient.Client.NotifyOtherClients` | index.js:123-132 | one frame `{type:'notify', event, data}` is sent exactly when the socket is OPEN, whether or not an id is held; nothing otherwise |
| `RelayClient.Client.CharacterMessageRendered` | index.js:264-267 | a rendered character message sends one `character_message` notify with empty data when OPEN, nothing otherwise |
| `RelayClient.Client.RequestNotificationPermission` | index.js:51-67 | returns the decision's result and leaves the browser permission at the decided value |
| `RelayClient.ThreeRefusedConnections` | index.js:200-249 | three connections that fail to open from a fresh start schedule 3000, 6000 and 9000 ms and leave the counter at 3 |
| `RelayClient.PortlessReply` | index.js:140-166 | an ok reply without a `port` makes construction fail, and the first reconnect is scheduled after 3000 ms with the counter at 1 |
| `RelayClient.RefusedConnections` | index.js:200-249 | k connections that fail to open in a row from a fresh start schedule exactly 3000, …, 3000·k with the counter at k while k ≤ 10, and stop at ten delays with the counter at 10 beyond that; proved on the class by composing the one-call contracts |
| `RelayClient.RelayRoundTrip` | index.js:123-198 | before OPEN nothing is sent; after open and welcome "abc" the id is "abc", a rendered message sends one `character_message` frame, and an incoming one raises one "New Bot Message" alert with a desktop notification |

## Left out

- Status rendering (`updateStatusDisplay` and its icons): user interface only; the status messages are not modelled.
- Audio creation and playback: browser media calls; an alert's sound is implied by the alert itself.
- Desktop `Notification` construction, its tag, the 5-second close timer and the click-to-focus handler: browser calls; only "shown when permission is granted" is kept.
- The `fetch`, the URL built from the page location, and `WebSocket` construction: network I/O; they appear only as the `PortResponse` and `constructs` parameters of `Connect`.
- The jQuery start-up sequence, the settings panel and registration with the host's event source: host plumbing; only the rendered-message trigger is modelled, by `CharacterMessageRendered`.
- Real time and asynchrony: timers are a list of delays and never fire by themselves. The `await` of the port lookup inside `connectWebSocket` is treated as atomic, so two overlapping calls that both pass the guard are not modelled.
- Callbacks of a superseded socket: the model holds one socket at a time, so a late `onclose` from an earlier socket is not modelled.
- RelayClient.Client.Connect: the relay's `port` is modelled as an optional integer; a string `port` (such as "6060", which the URL would take as it is) or a fractional number cannot be represented, and apart from an undefined or out-of-range port the constructor's success is the `constructs` parameter.
- JSON values of other types: a non-string `type`, `clientId` or `event` is treated as absent; the relay's `data` object is abstracted to a string-to-string map.
- Console logging throughout.
