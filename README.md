# WebSocket transport of socket.io 0.9: write buffering and connection lifecycle

This project models the core of socket.io's `websocket` transport
(`lib/transports/websocket.js`). It covers the state the transport object keeps
for outbound data and for its connection, and what each operation does to it:

- `write(data)` looks at two flags. `open` belongs to the Transport base class and `buffer` to this file. Depending on them the payload is queued in `buffered`, handed to `sendUTF`, or dropped.
- `flush()` clears `buffer`. It then splices the head off `buffered` and writes it, once per element the queue held when the loop began.
- `payload(msgs)` writes each message in index order.
- `onSocketConnect()` arms buffering with an empty queue and reads the handshake. On failure it rejects the request with a status code. On success it accepts the first requested sub-protocol, stores the connection, flushes, and registers the `message`, `close` and `error` handlers.
- `doClose()` closes the connection if one was stored.

There are three files:

- `transport_state.dfy` (module `TransportState`) holds the transport's state as a value (`Conn`) and one effect function per operation (`WriteEffect`, `FlushEffect` over `DrainEffect`, `PayloadEffect`, `ConnectEffect`, `CloseEffect`). It also holds lemmas on what those effects mean: order is kept, each payload is sent exactly once, rejection never sends, and so on.
- `inbound.dfy` (module `Inbound`) models the three event handlers as `Dispatch`, which takes the packet decoder as a parameter. It proves that onMessage receives every utf8 message in order and nothing else.
- `websocket.dfy` (module `WebSocketTransport`) holds class `WebSocket`. Its fields `open`, `buffer`, `buffered` and `drained` are the source's own. `hasConnection` stands for `this.wsConnection` being set. `listening` has no counterpart field in the source: it stands for the three `.on(...)` handler registrations at lines 161-174. The class also has two ghost logs: `sent` records the `sendUTF` calls and `closeCalls` counts the `close()` calls. Each method ends in the state the matching effect function gives for the state it started in. Its postconditions then spell that out case by case.

Behaviour of the code that the model keeps:

- `write` drops data exactly when the base class's `open` flag is false. No other flag of this file stops a write.
- If the transport is open, not buffering and has no stored connection, `write` calls `sendUTF` on `undefined`. That throws after `drained` has already been set false. The model gives the exception back as `threw`, and `flush` and `payload` stop at it, as the exception would stop them.
- `onSocketConnect` resets `buffered` to empty before the handshake, and the handshake runs synchronously. So the flush inside it has nothing to send, and `ConnectEffect` leaves `sent` unchanged. `QueuedWritesPrecedeLaterWrites` and `QueuedThenFlushedScenario` prove what `flush` does for any queue: queued payloads reach the socket before later writes. Their starting state cannot arise through `onSocketConnect` in this code. That would need buffering on, a non-empty queue, and then a stored connection. But the only store of `wsConnection` (line 158) comes right after the reset at lines 144-145, with only the synchronous `readHandshake` in between, and nothing else in this file calls `flush`. The scenario stands for the accept step by setting `hasConnection` directly.
- A rejected handshake does not close the transport. `buffer` stays true and no handlers are registered. Later writes made while `open` pile up in `buffered` and are never sent (`RejectedHandshakeNeverSends`).
- `doClose` issues one `close()` request every time it is called while a connection is stored. It keeps no flag of its own, so two calls issue two requests.
- `drained` becomes true as soon as `sendUTF` has been called, not when the send has completed.

## Model

| member | source | states |
|---|---|---|
| TransportState.WriteEffect | lib/transports/websocket.js:183-197 | write never changes the flags; it either adds `data` to the end of `sent` or to the end of `buffered`, never both; a throw leaves both unchanged with `drained` false |
| TransportState.DrainEffect | lib/transports/websocket.js:208-210 | the splice-and-write loop keeps the flags and removes at most one queued payload per round |
| TransportState.DrainSendsInOrder | lib/transports/websocket.js:208-210 | while writing directly through a stored connection, n rounds send exactly the first n queued payloads, in order, and leave the rest queued |
| TransportState.DrainDiscardsWhenClosed | lib/transports/websocket.js:208-210 | when not open, n rounds drop the first n queued payloads and send nothing |
| TransportState.DrainWhileBufferingRotates | lib/transports/websocket.js:206-209 | if `buffer` were still set, a full pass would only rotate the queue and send nothing, which is why flush clears the flag first |
| TransportState.FlushEffect | lib/transports/websocket.js:205-211 | flush ends with `buffer` false; open with a connection, the whole queue is sent once each in insertion order and the queue ends empty; not open, the queue is dropped unsent; open without a connection, the first write throws after its payload was spliced off |
| TransportState.PayloadEffect | lib/transports/websocket.js:220-226 | a batch of writes never changes the flags |
| TransportState.PayloadConcat | lib/transports/websocket.js:220-226 | payload of a + b has the same effect as payload of a followed by payload of b, or stops at a's exception |
| TransportState.PayloadWhileClosed | lib/transports/websocket.js:220-226 | payload on a transport that is not open changes nothing |
| TransportState.PayloadWhileBuffering | lib/transports/websocket.js:220-226 | while buffering, payload appends the batch to the queue in order and sends nothing |
| TransportState.PayloadSendsInOrder | lib/transports/websocket.js:220-226 | writing directly, payload extends `sent` by exactly the batch, in order |
| TransportState.RejectStatus | lib/transports/websocket.js:152 | the reject status is never 0: it is the exception's code when that code is present and non-zero, otherwise 400 |
| TransportState.ConnectEffect | lib/transports/websocket.js:141-175 | connect ends with an empty queue, sends nothing and leaves `drained` as it was; it rejects exactly when the handshake is invalid; on rejection with `RejectStatus` of the code, keeping `buffer` set, storing no connection and registering no handlers; on success it accepts `requestedProtocols[0]` (none when no protocol was requested) with the request's origin, clears `buffer`, stores the connection and registers the handlers |
| TransportState.CloseEffect | lib/transports/websocket.js:234-238 | doClose adds one close request exactly when a connection is stored and changes nothing else |
| TransportState.QueuedWritesPrecedeLaterWrites | lib/transports/websocket.js:158-159 | payloads queued while buffering, then accept and flush, then later writes: the socket receives the earlier queue, the queued batch and the later batch, in that order, each exactly once, and nothing stays queued |
| TransportState.RejectedHandshakeNeverSends | lib/transports/websocket.js:148-155 | after a rejected handshake no later batch is ever sent; it is queued when open and dropped otherwise; without an earlier connection, doClose then does nothing |
| TransportState.AcceptedHandshakeSendsDirectly | lib/transports/websocket.js:158-159 | after an accepted handshake on an open transport, later writes go straight to the socket in order and nothing is queued |
| Inbound.Dispatch | lib/transports/websocket.js:161-174 | onMessage(decode(utf8Data)) happens exactly for utf8 messages; a warning happens exactly for binary messages and error events; onClose happens exactly for close events; an error never closes |
| Inbound.DispatchAll | lib/transports/websocket.js:161-168 | a stream of events yields one effect per event, in emission order |
| Inbound.DeliveredInOrder | lib/transports/websocket.js:161-164 | the packets given to onMessage are exactly the decoded texts of the utf8 messages, in emission order, each once |
| Inbound.HandlersActiveExactlyAfterAccept | lib/transports/websocket.js:148-174 | on a transport that never listened, the handlers are wired up exactly when the handshake is accepted: afterwards every event is dispatched as `Dispatch` says, and after a rejection no event reaches onMessage or onClose |
| WebSocketTransport.WebSocket.constructor | lib/transports/websocket.js:118 | a new transport is not buffering, has nothing queued or sent, and has no connection |
| WebSocketTransport.WebSocket.Write | lib/transports/websocket.js:183-197 | not open: nothing changes; open and buffering: `data` is appended to `buffered`, `drained` becomes false and nothing is sent; open and not buffering: `sent` grows by exactly `[data]`, `buffered` is unchanged and `drained` ends true; without a connection the call throws instead |
| WebSocketTransport.WebSocket.Flush | lib/transports/websocket.js:205-211 | the fields end as `FlushEffect` says: `buffer` false, and with a connection the old queue is appended to `sent`, each payload once and in order, leaving `buffered` empty; when not open the queue is dropped unsent |
| WebSocketTransport.WebSocket.Payload | lib/transports/websocket.js:220-226 | the fields end as writing each message in index order would leave them: queued in order while buffering, sent in order when writing directly, no change when not open |
| WebSocketTransport.WebSocket.Connect | lib/transports/websocket.js:141-175 | the fields and the answer to the peer are as `ConnectEffect` says: the queue is emptied, nothing is sent and `drained` is unchanged; rejection keeps `buffer` set and stores nothing; acceptance stores the connection, flushes and listens |
| WebSocketTransport.WebSocket.DoClose | lib/transports/websocket.js:234-238 | one close request is logged exactly when a connection is stored; nothing else changes |
| WebSocketTransport.QueuedThenFlushedScenario | lib/transports/websocket.js:158-159 | writes of a and b while buffering, then accept and flush, then a write of x: the socket receives a, b, x in that order |

## Left out

- The websocket library (`WebSocketRequest`, `readHandshake`, `accept`, `reject`, `sendUTF`, `wsConnection.close`) is not modelled. It owns framing, masking, ping/pong, close timeouts and keepalive. The handshake's result is an input (`Handshake`), `sendUTF` is the ghost log `sent`, and `close` is the ghost counter `closeCalls`.
- The headers of a rejection (`e.headers`) are not modelled. The request's origin is carried through unchanged, and no validation of it is modelled, since the code does none.
- `parser.decodePacket` is a parameter `decode` of the dispatch functions, so nothing is assumed about the codec.
- The Transport base class is not part of this model. It sets `open` (a public field the caller assigns) and the initial `drained` (a constructor parameter), and it implements `onMessage` and `onClose`, which appear only as the effects `Deliver` and `CallOnClose`.
- WebSocketTransport.WebSocket.constructor: before onSocketConnect the source leaves `buffer` and `buffered` undefined. The model starts them as false and empty. A flush in that state would throw in JavaScript, and the model does not capture that.
- TransportState.RejectStatus: `e.httpCode` is modelled as an optional integer. A present, non-zero value counts as truthy. Other falsy JavaScript values (NaN, the empty string) are not distinguished.
- The `websocketConfig` literal (lib/transports/websocket.js:35-116) is not modelled. It is constant data passed to the library and has no logic here.
- Logging is not modelled. The warnings of the binary-message and error handlers appear as the `Warn` effect. The warning on the rejection path (line 153) is dropped, and so is `log.debug` in write.
- Event-emitter registration and asynchrony are not modelled. Handlers are represented by the `listening` flag, and each event is dispatched by a pure function.
- The unused `crypto` import is not modelled.
- Return values used for chaining are not modelled. `write` returns `this` only on the buffering path (line 189) and `undefined` otherwise, and `payload` always returns `this` (line 225).
