# Real-time push channel of the campus-security front-end, in Dafny

This project models the client side of the front-end's server-push channel. It has two layers.

- **The connection engine** (`WebSocketService`, `engine.dfy`) owns one socket at a time and remembers the subject (`userId`). It queues sends made while the socket is not open and drains that queue in order on open. It stamps outbound objects that have no `id` with a `timestamp` and an `id`, and it runs a 30-second heartbeat while the socket is open. Heartbeat replies from the server are swallowed. After a close, it reconnects with linear backoff (5000 ms × attempt number), up to 5 attempts. Only a successful open resets the attempt counter.
- **The channel manager** (`WebSocketManager`, `manager.dfy`) sits on top of the engine. It keeps an observable connection status, a reconnect counter and a registry that maps each message type to its callbacks (`registry.dfy`). It routes each parsed inbound message to the callbacks registered for that message's type. Only the message's `data` is passed on, and a callback that throws does not stop the ones after it. Its `send` and `sendMessage` only go through when the engine is connected.

`wire.dfy` holds the values that cross the channel: outbound payloads, inbound frames and the stamping rule.

The model works like this:

- Each event is an atomic method call on a class whose fields are the source's fields. The events are the caller's `connect`, `send`, `sendMessage` and `close`, the transport's open, message, error and close events, and the firing of the heartbeat and reconnect timers.
- A timer is an optional pending record that holds its delay. The reconnect timer also holds the subject and options its callback passes back to `connect`.
- `Date.now()` and `generateId()` become parameters. A generated id is a non-empty string.
- The engine does not run the consumer's callbacks. Each event returns a `Notice` naming the callback it invoked. The manager always supplies all four callbacks, and it applies the effect of its wrapped callbacks to each notice it receives.
- `scenarios.dfy` drives both classes through sequences of events and proves the outcomes from the method contracts alone.

The model follows the code as written; points worth knowing:

- `close()` cancels the pending reconnect timer only when a socket exists (`src/web/api/websocket.ts:228-236`). If the first socket cannot be built, the retry armed by the catch path survives `close()` and later connects again (`Scenarios.RetrySurvivesClose`).
- Every retry goes through `connect`, which closes the dead socket still held in `ws` and so empties the queue (`src/web/api/websocket.ts:56-58, 239`). A payload queued after the connection dropped is never transmitted (`Scenarios.SendAfterDropIsLost`). Only payloads queued while a socket is CONNECTING, or while there is no socket at all, reach the next open.
- `connect` does not reset the attempt counter; only the open event does (`src/web/api/websocket.ts:74`). After five failures, a manual `connect` gets no further automatic retry until an open succeeds.
- A socket dropped by `close()` still delivers its own close event later, and its handler (`src/web/api/websocket.ts:108-118`) retries the subject it captured whenever the counter is below 5. After an open the counter is 0, so a `close()` or `disconnect()` after an open is followed by a reconnect 5000 ms later (`Scenarios.CloseAfterOpenIsRetried`, `Scenarios.DisconnectIsUndone`).
- The flush skips falsy queued values (`if (message)`, `src/web/api/websocket.ts:216`), so a queued `null`, `""`, `0` or `false` is dropped.
- The manager's `connect` guards only against OPEN (`src/web/utils/websocketManager.ts:36`). A second `connect` while CONNECTING replaces the socket being opened.

## Model

| member | source | states |
|---|---|---|
| `Wire.Stamp` | src/web/api/websocket.ts:171-178 | an object without a truthy id is sent as a copy with the current `timestamp` and a fresh non-empty `id`, keeping its `type` and `data`; an identified object or a primitive is sent unchanged |
| `Wire.Envelope` | src/web/api/websocket.ts:193-201 | the message `sendMessage` builds carries its type, data, the current time as `timestamp` and an id, so no later stamping changes it |
| `Wire.HeartbeatMessage` | src/web/api/websocket.ts:138-142 | the keep-alive message is an object of type `heartbeat` whose data is the current time, without an id, so `send` stamps it |
| `Engine.Endpoint` | src/web/api/websocket.ts:63-66 | the endpoint is the fixed path `/api/websocket/` followed by the subject, which can be read back from it |
| `Engine.EndpointInjective` | src/web/api/websocket.ts:63-66 | two subjects share an endpoint exactly when they are equal |
| `Engine.AfterFailure` | src/web/api/websocket.ts:116-121 | a failure counts an attempt and arms a retry at 5000 × the new counter exactly when the counter is below 5, never taking the counter past 5; otherwise counter and pending retry are unchanged |
| `Engine.RetriesFollowAfterFailure` | src/web/api/websocket.ts:116-121 | the delay sequence `Retries` is what repeated `AfterFailure` steps arm: one step contributes its retry's delay, if any, ahead of the schedule from its new counter |
| `Engine.RetriesSchedule` | src/web/api/websocket.ts:116-122 | starting from counter `a`, consecutive failures schedule min(failures, 5 − a) retries, the i-th after 5000 × (a + i + 1) ms |
| `Engine.AtMostFiveRetries` | src/web/api/websocket.ts:246-261 | between two opens at most five retries are scheduled, at 5000, 10000, 15000, 20000 and 25000 ms, and every delay lies in 5000..25000 |
| `Engine.Flushed` | src/web/api/websocket.ts:213-220 | a flush transmits at most as many frames as were queued |
| `Engine.FlushedAppend` | src/web/api/websocket.ts:213-220 | flushing a concatenation transmits the first part's frames and then the second's: enqueue order is transmission order |
| `Engine.FlushedDelivers` | src/web/api/websocket.ts:213-220 | a queue of truthy payloads is transmitted whole, each payload exactly once, in order, stamped as `send` stamps it |
| `Engine.FlushedIdentified` | src/web/api/websocket.ts:193-220 | payloads that already carry an id, as `sendMessage` builds them, come out of the flush exactly as queued |
| `Engine.WebSocketService.constructor` | src/web/api/websocket.ts:28-37 | a new engine has no socket, no subject, an empty queue, a zero counter and no timers |
| `Engine.WebSocketService.IsConnected` | src/web/api/websocket.ts:266-268 | connected exactly when a socket exists and its readiness code is OPEN (1) |
| `Engine.WebSocketService.GetReadyState` | src/web/api/websocket.ts:266-275 | null exactly when there is no socket; the OPEN code exactly when `isConnected()` holds |
| `Engine.WebSocketService.GetCurrentUserId` | src/web/api/websocket.ts:280-282 | whenever a socket exists, a subject is remembered |
| `Engine.WebSocketService.Connect` | src/web/api/websocket.ts:54-133 | an existing socket is closed first, which empties the queue and cancels the retry; the subject and options are remembered; a CONNECTING socket is built and the counter is left alone; if construction throws there is no socket, `onError` is reported and the bounded retry path is taken |
| `Engine.WebSocketService.SendHeartbeat` | src/web/api/websocket.ts:138-142 | while open, one stamped heartbeat frame is transmitted; otherwise nothing happens; the queue never changes |
| `Engine.WebSocketService.StartHeartbeat` | src/web/api/websocket.ts:147-152 | exactly one heartbeat timer is pending, with the 30000 ms period |
| `Engine.WebSocketService.StopHeartbeat` | src/web/api/websocket.ts:157-162 | no heartbeat timer is pending |
| `Engine.WebSocketService.Send` | src/web/api/websocket.ts:168-186 | on an open socket, exactly one frame (`Stamp` of the payload) is appended to the transmitted frames and the queue is untouched; otherwise nothing is transmitted and the payload is appended unchanged to the queue |
| `Engine.WebSocketService.SendMessage` | src/web/api/websocket.ts:193-201 | the built message is transmitted or queued exactly as built, never re-stamped |
| `Engine.WebSocketService.FlushMessageQueue` | src/web/api/websocket.ts:213-220 | the queue ends empty and the socket's transmitted frames grow by `Flushed` of the old queue |
| `Engine.WebSocketService.Close` | src/web/api/websocket.ts:225-241 | the heartbeat stops, the queue is emptied and the subject is cleared in every case; only when a socket existed is it dropped and the retry cancelled |
| `Engine.WebSocketService.Reconnect` | src/web/api/websocket.ts:246-261 | the counter goes up by one and a single retry is pending with delay 5000 × the new counter, replacing any earlier one |
| `Engine.WebSocketService.OnOpen` | src/web/api/websocket.ts:72-80 | the socket is OPEN, the counter is 0, the heartbeat is pending, the old queue has been transmitted in order (`Flushed`) and is empty, and then `onOpen` is reported |
| `Engine.WebSocketService.OnMessage` | src/web/api/websocket.ts:82-99 | `onMessage` receives the frame exactly when one was supplied and the frame is not a parsed heartbeat; frames that do not parse are forwarded |
| `Engine.WebSocketService.OnClosing` | src/web/api/websocket.ts:266-275 | the transport moves an open socket to CLOSING: it is no longer connected and its readiness code is 2, so `send` queues and the heartbeat sends nothing until the close event |
| `Engine.WebSocketService.OnError` | src/web/api/websocket.ts:101-106 | only `onError` is reported; the transport has marked the socket CLOSED |
| `Engine.WebSocketService.OnClose` | src/web/api/websocket.ts:108-122 | the heartbeat stops and `onClose` is reported; below 5 attempts the counter goes up and a retry is armed at 5000 × counter ms, otherwise the counter and timer are unchanged; the dead socket stays in `ws` |
| `Engine.WebSocketService.OnStaleClose` | src/web/api/websocket.ts:108-122 | the close handler of a socket already dropped stops the heartbeat, reports `onClose`, and below 5 attempts arms a retry of the subject and options it captured |
| `Engine.WebSocketService.ReconnectTimerFires` | src/web/api/websocket.ts:257-260 | the retry calls `connect` with its own subject and options: a queue waiting behind the dead socket is emptied, and the counter is not reset |
| `Registry.IndexOf` | src/web/utils/websocketManager.ts:132 | -1 exactly when the callback is absent, else the position of its first occurrence |
| `Registry.RemoveFirst` | src/web/utils/websocketManager.ts:132-135 | an absent callback leaves the list; otherwise exactly its first occurrence is removed, the rest kept in order, and the multiset loses one copy |
| `Registry.Subscribe` | src/web/utils/websocketManager.ts:116-122 | the type gets an entry if it had none, the callback goes last, and every other type's list is unchanged |
| `Registry.Unsubscribe` | src/web/utils/websocketManager.ts:129-137 | the type's list loses the first occurrence of the callback; other lists and the key set are unchanged; an absent type or callback is a no-op |
| `Registry.RemoveFirstUndoesAppend` | src/web/utils/websocketManager.ts:121-135 | removing a callback pushed onto a list that did not hold it gives back the original list |
| `Registry.UnsubscribeUndoesSubscribe` | src/web/utils/websocketManager.ts:116-137 | removing a callback just added, and not present before, restores every list |
| `Registry.UnsubscribeRemovesOne` | src/web/utils/websocketManager.ts:129-137 | after adding a callback twice and removing it once, one more copy remains than before |
| `Manager.StatusText` | src/web/utils/websocketManager.ts:190-203 | the four status codes map to four distinct texts, and any other code to the fallback |
| `Manager.WebSocketManager.constructor` | src/web/utils/websocketManager.ts:18-28 | a new manager reports CLOSED, has no subject, a zero counter and no listeners |
| `Manager.WebSocketManager.IsConnected` | src/web/utils/websocketManager.ts:168-170 | connected exactly when the engine's socket reports OPEN |
| `Manager.WebSocketManager.GetConnectionStatus` | src/web/utils/websocketManager.ts:175-177 | the status is one of the four codes and its text is never the fallback; it is the status `getConnectionStatusText` describes |
| `Manager.WebSocketManager.GetCurrentUserId` | src/web/utils/websocketManager.ts:182-184 | the subject the manager holds, set by a `connect` that went through and cleared by `disconnect` |
| `Manager.WebSocketManager.GetConnectionStatusText` | src/web/utils/websocketManager.ts:190-203 | a typed status never yields the fallback text; the OPEN and CLOSED texts match those statuses exactly |
| `Manager.WebSocketManager.Connect` | src/web/utils/websocketManager.ts:35-71 | when already connected nothing changes; otherwise the subject is set, the status is CONNECTING and the engine connects with the wrapped callbacks, closing any dead socket first (which empties its queue and cancels its retry) and keeping its attempt counter; a construction failure leaves the status CLOSED, the manager's counter one higher and the engine on its bounded retry path |
| `Manager.WebSocketManager.Wrappers` | src/web/utils/websocketManager.ts:47-63 | open reports OPEN and zeroes the counter; close reports CLOSED; error reports CLOSED and adds one to the counter |
| `Manager.WebSocketManager.Disconnect` | src/web/utils/websocketManager.ts:76-80 | the engine is closed and the manager reports CLOSED with no subject, whatever the previous state; the engine's pending retry is cancelled only when a socket existed |
| `Manager.WebSocketManager.Send` | src/web/utils/websocketManager.ts:87-94 | returns whether the engine was connected; if so exactly one frame is transmitted, otherwise the engine is untouched; nothing is ever queued |
| `Manager.WebSocketManager.SendMessage` | src/web/utils/websocketManager.ts:102-109 | as `Send`, with the message `sendMessage` builds |
| `Manager.WebSocketManager.OnMessage` | src/web/utils/websocketManager.ts:116-122 | the registry becomes `Subscribe` of the old one |
| `Manager.WebSocketManager.OffMessage` | src/web/utils/websocketManager.ts:129-137 | the registry becomes `Unsubscribe` of the old one |
| `Manager.WebSocketManager.HandleMessage` | src/web/utils/websocketManager.ts:143-164 | a parsed frame with a type invokes every callback registered for it, in registration order, each with the frame's `data`, whether or not earlier ones threw; any other frame invokes none |
| `Manager.WebSocketManager.TransportOpen` | src/web/utils/websocketManager.ts:47-52 | after the engine's open, the socket is OPEN, the heartbeat is pending, the status is OPEN, both counters are 0 and the queue has been flushed in order |
| `Manager.WebSocketManager.TransportMessage` | src/web/utils/websocketManager.ts:64-67 | a heartbeat reply reaches no callback; any other frame is dispatched as `HandleMessage` states |
| `Manager.WebSocketManager.TransportClosing` | src/web/utils/websocketManager.ts:87-94 | while the engine's socket is CLOSING the manager is not connected, so its `send` fails, yet its status stays as it was (OPEN), since no wrapped callback runs |
| `Manager.WebSocketManager.TransportError` | src/web/utils/websocketManager.ts:58-63 | the status is CLOSED, the counter one higher, and the engine's socket is CLOSED and otherwise unchanged |
| `Manager.WebSocketManager.TransportClose` | src/web/utils/websocketManager.ts:53-57 | the status is CLOSED, the manager's counter is unchanged, the engine's socket is CLOSED, its heartbeat stopped, and it takes its bounded retry step |
| `Manager.WebSocketManager.TransportStaleClose` | src/web/utils/websocketManager.ts:53-57 | the close event of a socket already dropped still reports CLOSED through the wrapped `onClose`, stops the heartbeat, and arms a retry of the captured subject below 5 attempts |
| `Manager.WebSocketManager.ReconnectTimerFires` | src/web/api/websocket.ts:257-260 | the engine reconnects without the manager's `connect`: the status only changes (to CLOSED) when the socket cannot be built; the engine takes the retry's subject, a queue behind a dead socket is emptied, and the engine's state after its `connect` is stated in full |
| `Scenarios.QueuedSendsArriveInOrder` | src/web/api/websocket.ts:168-220 | A, B, C sent while CONNECTING are transmitted on open as exactly A, B, C, stamped, in that order |
| `Scenarios.BackoffGivesUp` | src/web/api/websocket.ts:108-132 | a socket that keeps closing is retried after 5000, 10000, 15000, 20000 and 25000 ms, and a sixth retry is never scheduled |
| `Scenarios.OpenRestartsBackoff` | src/web/api/websocket.ts:72-74 | after three failures and one open, the next close retries after 5000 ms, not 20000 |
| `Scenarios.CloseTwice` | src/web/api/websocket.ts:225-241 | a second `close` leaves no socket, subject, queue or heartbeat, and changes nothing the first left |
| `Scenarios.SendAfterDropIsLost` | src/web/api/websocket.ts:56-58 | a payload sent after the connection dropped is never transmitted, even after the retry's socket opens |
| `Scenarios.RetrySurvivesClose` | src/web/api/websocket.ts:228-236 | after a failed construction, `close` leaves the retry armed, and its firing connects the same subject again |
| `Scenarios.CloseAfterOpenIsRetried` | src/web/api/websocket.ts:108-122 | after an open, `close` is followed by the dropped socket's close event, which arms a 5000 ms retry that connects the old subject again |
| `Scenarios.DisconnectIsUndone` | src/web/utils/websocketManager.ts:76-80 | after an open and `disconnect`, the manager reports CLOSED with no subject while the engine is connecting to the old subject again |
| `Scenarios.ThrowingCallbackIsIsolated` | src/web/utils/websocketManager.ts:153-159 | with two "alarm" callbacks of which the first throws, both run in order and the second still receives the data |
| `Scenarios.SendWhileClosingIsLost` | src/web/api/websocket.ts:168-186 | while the socket is CLOSING the readiness code is 2 and a `send` is queued; the retry after the close event discards it, so it is transmitted on neither socket |
| `Scenarios.HeartbeatReplyIsSwallowed` | src/web/api/websocket.ts:86-89 | a heartbeat reply reaches no subscriber, not even one registered for the heartbeat type |

## Left out

- JSON text encoding: `JSON.stringify` and `JSON.parse` are not modelled. A frame is the value before encoding or after parsing. A frame that is not a JSON object is `Raw`.
- Payload shapes: arrays, functions and non-string `id` values are not modelled. An object's fields other than `type`, `timestamp` and `id` are folded into `data`.
- Numbers in payloads are integers, so fractions and `NaN` are not modelled, and there is no `undefined` payload. `NaN` and `undefined` are falsy too and would be dropped by the flush like `0` and `null`.
- The endpoint keeps only the path `/api/websocket/<userId>`. The scheme and host come from `window.location`, which is browser state.
- The clock and the id generator (`Date.now()`, `Math.random()`) are parameters. One event gets one clock value, although the source reads the clock separately for each stamp in that event.
- The consumer's callbacks are not run: the engine reports which callback it invoked. The user callbacks that the manager's `connect` forwards (`options?.onOpen` and the others) are user code. Callbacks that re-enter the manager during dispatch are not modelled either.
- Each event is atomic; interleavings inside one event are not modelled. A close event may come from a socket the engine has already dropped (`OnStaleClose`); every other transport event is assumed to arrive on the current socket, the CLOSING state is entered only from OPEN (`OnClosing`), and the error event is assumed to come after the transport marks the socket CLOSED and before the close event.
- Engine.WebSocketService.ReconnectTimerFires: after its timer fires, the field is cleared. The source keeps a stale handle there, but every later use of that handle is a `clearTimeout` or an overwrite, so the model behaves the same.
- Real elapsed time: a timer's delay is stored, and its firing is an event that can happen at any time.
- Console logging, Vue `ref`/`computed` reactivity, the `useWebSocket` hook, and the singleton caching in `getInstance` and the module-level manager instance. The manager receives its engine as a constructor argument.
- The manager's `maxReconnectAttempts` field is declared but never read, so it is not modelled.
