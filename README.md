# WebRTC signaling relay — a Dafny model

The server in `server/signaling-server.js` relays WebRTC signaling traffic over
WebSockets. It keeps one module-level, ordered list of live connections,
`clients`, and four event handlers act on it:

- **connection** appends the new socket and sends it
  `{type: 'connected', clientCount}`, where the count is the list length after
  the append;
- **message** parses the frame with `JSON.parse`. A frame that fails to parse is
  dropped. A log line then reads `data.type` and converts it to a string. This
  throws when the frame is `null`, and also when `type` is an object that has its
  own `toString` member, or an array holding such an object at some depth.
  Every other value that stays within the engine's limits is re-serialised and
  sent to every other client whose `readyState` is OPEN, in list order,
  whatever its fields are;
- **close** filters the socket out of the list and sends
  `{type: 'peer-disconnected'}` to every remaining OPEN client;
- **error** filters the socket out of the list and tells no one.

There are no rooms, no pairing, no `NoPeer` or `RoomFull` errors and no
anti-spoofing in this code. This model follows the code: one global broadcast list.

Files:

- `json.dfy`: `Wrappers.Option`, the JSON values a frame parses to
  (`Json.Value`), property access, the string conversion of a value and when it
  throws, and the two notices the server composes.
- `seqs.dfy`: `Seqs.Filter` (what `Array.prototype.filter` and a guarded
  `forEach` select), `IsSubsequence` (order kept), `Distinct`, and their
  lemmas.
- `relay.dfy`: the server as a state machine. `State` is the list plus the log
  of every `send`. `Event` is one of the four handler invocations. `Step` runs
  one event, `Run` runs a trace from start. The lemmas state what each
  handler guarantees.
- `server.dfy`: class `SignalingServer`. Its fields `clients` and `outbox`
  are updated in place by `OnConnect`, `OnMessage`, `OnClose` and `OnError`.
  The `filter` and `forEach` calls become loops. Each handler is proved to
  perform exactly `Relay.Step` for its event, so every lemma about `Step`
  also holds of the class.

Environment inputs are parameters: what `JSON.parse` made of a frame
(`Option<Value>`, `None` when it threw), and the set `open` of connections
whose `readyState === WebSocket.OPEN` when the event is handled.

## Model

| member | source | states |
|---|---|---|
| `Json.Lookup` | server/signaling-server.js:17-23 | a member read from a parsed object is the value of the LAST field with that name, as `JSON.parse` keeps it; it is absent exactly when no field has the name |
| `Json.NoticeFields` | server/signaling-server.js:12-39 | the greeting is an object whose `type` is `'connected'` and whose `clientCount` is the given count; the departure notice has `type` `'peer-disconnected'` and no count |
| `Relay.SelfNamedObject` | server/signaling-server.js:23 | the object `{"toString":1}` cannot be converted to a string |
| `Relay.MessageAsWritten` | server/signaling-server.js:14-30 | as written, the handler throws exactly when the frame parsed and the log line throws on it. When it completes, every send carries the parsed value and goes to a listed, OPEN connection other than the sender; a frame that failed to parse sends nothing |
| `Relay.NextClients` | server/signaling-server.js:9-46 | an event grows the list by at most one, and only a connect adds to it, and only its own socket; after close or error the socket is not in the list |
| `Relay.Emitted` | server/signaling-server.js:12-46 | every send an event makes goes to a connection that is in the list once the event is handled |
| `Relay.Step` | server/signaling-server.js:7-47 | handling one event only appends to the send log, and everything appended goes to a connection in the new list |
| `Relay.Run` | server/signaling-server.js:5-47 | over any trace from server start, the list is no longer than the trace, and both the list and every send ever made involve only accepted connections |
| `Relay.ConnectAppendsAndAnnounces` | server/signaling-server.js:9-12 | connect appends the socket at the end and keeps the earlier list; the socket alone receives one `connected` notice; its `clientCount` is the new list length, so the count includes itself |
| `Relay.MalformedIgnored` | server/signaling-server.js:15-21 | a frame that fails to parse leaves the list and the send log unchanged |
| `Relay.RelayDelivery` | server/signaling-server.js:23-30 | a parsed frame on which the log line does not throw goes out unchanged. Each client that is not the sender and is OPEN receives it as many times as it occurs in the list; no other connection receives it. The recipients follow list order, and the list is unchanged |
| `Relay.RelayExactlyOnce` | server/signaling-server.js:23-30 | with no duplicate in the list, a frame on which the log line does not throw reaches each OPEN non-sender client in the list exactly once; the sender, non-OPEN clients and absent connections receive nothing |
| `Relay.RelayIgnoresContent` | server/signaling-server.js:23-30 | among values the log line does not throw on, forwarding is blind to content: any two reach the same recipients in the same order, each forwarded verbatim |
| `Relay.StaleSenderStillRelayed` | server/signaling-server.js:23-27 | a frame from a connection no longer in the list is still relayed, unless the log line throws on it, to exactly the OPEN clients in list order |
| `Relay.RemovalKeepsOthers` | server/signaling-server.js:35-46 | the `filter` used by close and error drops every occurrence of the socket, keeps every occurrence of every other connection, adds none, and keeps their order |
| `Relay.CloseRemovesAndNotifies` | server/signaling-server.js:33-42 | after close the socket is gone, every other connection keeps its occurrences and order, and each remaining OPEN occurrence gets one `peer-disconnected`; recipients follow the new list's order |
| `Relay.CloseNotifiesWhomMessagesReach` | server/signaling-server.js:23-41 | the clients told that a socket closed are exactly, in the same order, those its frames would have reached, for any frame the log line does not throw on |
| `Relay.ErrorRemovesSilently` | server/signaling-server.js:44-47 | after error the socket is gone, the others keep their occurrences and order, and nothing is sent |
| `Relay.RemovalIdempotent` | server/signaling-server.js:35-46 | closing or erroring a socket that is not in the list leaves the list as it is |
| `Relay.ErrorThenClose` | server/signaling-server.js:33-47 | after an error, the following close leaves the list unchanged and keeps the log as it was. It still sends `peer-disconnected`, and only that, to every OPEN client in the list, in order |
| `Relay.RunKeepsClientsDistinct` | server/signaling-server.js:5-47 | over any trace in which every accepted socket is new, the list never holds a socket twice and holds only sockets that were accepted |
| `Relay.UnloggableFrameThrows` | server/signaling-server.js:16-23 | as written, the frames `null`, `{"type":{"toString":1}}` and `{"type":[{"toString":1}]}` make the handler throw at its log line, while a frame that fails to parse is dropped |
| `Relay.UnloggableFrameDropped` | server/signaling-server.js:15-30 | the model drops every frame the log line throws on exactly like a malformed one, and agrees with the handler as written on every frame that does not throw |
| `Server.SignalingServer.constructor` | server/signaling-server.js:5 | the server starts with an empty list and nothing sent |
| `Server.SignalingServer.Without` | server/signaling-server.js:35 | the filter loop returns the list without the socket, the rest in order |
| `Server.SignalingServer.SendWhere` | server/signaling-server.js:26-30 | the guarded `forEach` leaves the list alone and appends one send of the value to each client the guard accepts, in list order |
| `Server.SignalingServer.OnConnect` | server/signaling-server.js:7-12 | the socket is pushed, the greeting with the new length is sent to it, and the new state is `Step` of a connect event |
| `Server.SignalingServer.OnMessage` | server/signaling-server.js:14-31 | the list is unchanged; a frame that failed to parse, or that the log line throws on, sends nothing, and any other frame is sent to every OPEN client but the sender, in list order; the new state is `Step` of the message event |
| `Server.SignalingServer.OnClose` | server/signaling-server.js:33-42 | the new state is `Step` of the close event: filter out, then notify OPEN clients |
| `Server.SignalingServer.OnError` | server/signaling-server.js:44-47 | nothing is sent and the new state is `Step` of the error event |
| `Server.TwoPeerSession` | server/signaling-server.js:7-47 | A and B connect, A sends an offer that the log line does not throw on, A errors and then closes. The whole send log is then A's greeting (count 1), B's greeting (count 2), the offer to B, and one `peer-disconnected` to B |

## Left out

- Console logging and the ISO timestamps in it (lines 8, 19, 23, 34, 45): output only, no effect on state or sends.
- The `ws` library, the port binding and the startup message (lines 1-3, 50): a connection is an opaque `ConnId`, and `readyState` is the `open` set given with each event.
- `JSON.parse` and `JSON.stringify` as text: parsing is an input (`Option<Value>`), and a send carries the value it would serialise. JSON numbers are modelled as integers, since the relay never inspects them.
- Binary frames and the Buffer-to-string conversion before parsing: `ws` delivers them to the same handler, and they reach the model only through what parsing made of them.
- The process crash that follows the uncaught TypeError at the log line: the model records the throw (`Relay.MessageAsWritten`) and drops the frame (see Findings).
- Frames large or deep enough to exceed the engine's limits (stack depth, heap, maximum string length) at lines 17, 23 or 28: the model bounds none of them. For instance, a top-level array frame of tens of millions of elements has no `type`, so the fallback at line 23 stringifies one key per element; that string can pass the maximum string length, or the heap can run out, and the handler then throws outside the `try` as it does for `null`. The model relays such a frame.
- Transport delivery, back-pressure and `send` callbacks: a `send` is recorded in the log and assumed fire-and-forget.
- Concurrency: Node runs each handler to completion, so events are applied one at a time.
- client/client.js: browser media capture, peer connection, data channel and DOM code, which consume the relay as an opaque pipe.

## Findings

| source | as written | input that shows it | evidently intended | confidence | as-written member | corrected member |
|---|---|---|---|---|---|---|
| server/signaling-server.js:23 | the log line reads `data.type` and converts it to a string outside the `try`. When the frame parses to `null`, reading `.type` throws a TypeError. When `type` is an object with its own `toString` member, or an array holding one, the conversion finds no callable `toString` and throws a TypeError. Nothing in the handler catches either | the text frames `null`, `{"type":{"toString":1}}` and `{"type":[{"toString":1}]}` | drop the frame as the `catch` drops unparseable input, and keep the server up | medium, not executed | `Relay.UnloggableFrameThrows` | `Relay.UnloggableFrameDropped` |
