# xbox-rta session core in Dafny

This project models the real-time-activity (RTA) client of `xbox-rta`. The client keeps one
WebSocket to `wss://rta.xboxlive.com/connect`. Over it, it sends Subscribe and Unsubscribe
requests as small JSON-array frames and routes the service's replies and events back to the
callers.

Two implementations are modelled, each as a Dafny class whose fields the methods update in place:

- `Session.XboxRTA` (src/index.ts) is the current session. Its state:
  - a sequence counter starting at 0;
  - an outbound `queue` of encoded frames, held while the socket is not open;
  - the module-level pending-request table `promiseMap`;
  - the `subscriptions` table keyed by sequence id;
  - the two timer handles.
  `promiseMap` is a separate `Session.PromiseMap` object, because in the source one table is shared by every session.
- `LegacyClient.Client` (src/client.js) is the older client. It has the same queue and counter
  shape, with these differences:
  - the counter starts at 1;
  - `mapper` goes from sequence number to the resolver;
  - subscriptions are keyed by the server's subscription id;
  - it makes no status checks.

Supporting modules:

- `Json`: decoded frame values, and the string a JavaScript template literal makes of an
  interpolated value (`Text`).
- `JsMap`: a JavaScript `Map` as an insertion-ordered list of pairs.
- `Constants`: `MessageType`, `StatusCode` and `convertRTAStatus` from src/common/constants.ts.
- `Frames`: the frame encodings, each paired with a reference decoder.
- `Scenarios`: five worked runs of the session.

The socket is modelled as its ready state plus whether the session's handlers are still attached.
Frames handed to the socket are appended to `sent`. Emitted notifications go to `emitted`.
Promises are a list of settlements in which only the first resolve or reject takes effect.
Each timer firing is a method the environment may call: an expired request timer, the heartbeat
timer, the 90-minute refresh timer, an arriving pong, a close event, and an inbound message.

Places where the code behaves in ways a reader might not expect, all modelled as written:

- On open, each stored subscription is resent under its **old** sequence id (index.ts:217),
  not under a fresh one. The counter is not advanced. `Scenarios.ReconnectResubscribes` shows this.
- Pending entries are never removed from `promiseMap` once they settle.
- `connect` refuses only when the socket is OPEN, not whenever it is not closed.
- A close with a code other than 1006 neither reconnects nor disarms the timers. A socket error is only logged.
- `destroy` detaches the message and close handlers but not the open handler. It does not detach
  the pong handler either: index.ts:89 removes a newly created function, which was never
  registered. This is why `OnPong` takes effect whatever the socket.
- A successful unsubscribe removes the entry under the unsubscribe request's **own** sequence id
  (index.ts:131, 286), not the entry of the subscription it names. That subscription stays in
  the table and is resent on every reconnect. `Scenarios.UnsubscribeKeepsTarget` shows this.
- A subscription whose `uri` is the empty string is skipped on resubscription, as is one whose
  `uri` is null, because the source tests the value's truthiness.

## Model

| member | source | states |
|---|---|---|
| Json.Decimal | src/index.ts:140-141 | the decimal spelling of a sequence id is non-empty, all digits, has more than one digit exactly when the id is at least 10, and has no leading zero |
| Json.DecimalRoundTrip | src/index.ts:140-141 | reading the decimal spelling of an id back gives the same id |
| Json.DecimalInjective | src/index.ts:140-141 | distinct ids have distinct spellings |
| Json.TextOfNat | src/index.ts:140 | interpolating a non-negative number gives its decimal spelling |
| JsMap.Set | src/index.ts:267 | `Map.set`: the key maps to the new value and every other key is unchanged; an existing key keeps its position and a new key is appended at the end; distinct keys stay distinct |
| JsMap.Delete | src/index.ts:286 | `Map.delete`: the key is gone and every other key maps to what it did; the entries left are exactly those with another key; deleting an absent key changes nothing; distinct keys stay distinct |
| JsMap.DeleteRemovesOne | src/index.ts:286 | in a table with distinct keys, deleting the key of entry i removes exactly that entry and keeps the entries before and after it in their order |
| JsMap.SetSameValue | src/index.ts:267 | storing a key's current value again leaves the map as it was |
| JsMap.DeleteUndoesNewSet | src/index.ts:267-286 | deleting a key that was just added restores the previous map |
| Constants.MessageTypeTags | src/common/constants.ts:1-6 | the message types are numbered 1 to 4 from Subscribe upwards, and the reverse mapping inverts the numbering |
| Constants.StatusCodesRoundTrip | src/common/constants.ts:8-15 | each status code's number is found again by the reverse mapping, and distinct codes have distinct numbers |
| Constants.ConvertRTAStatus | src/common/constants.ts:17-34 | the name is "Unknown" exactly when the number is none of the six codes |
| Constants.ConvertKnownCodes | src/common/constants.ts:17-30 | 0, 1, 2, 3, 1001 and 1002 are named Success, UnknownResource, SubscriptionLimitReached, NoResourceData, Throttled and ServiceUnavailable |
| Constants.ConvertRTAStatusInjective | src/common/constants.ts:19-30 | two numbers with the same name other than "Unknown" are equal, so the six names are pairwise distinct |
| Frames.SplitFrameRoundTrip | src/index.ts:139-143 | a frame built from a prefix, an id, a separator starting with a comma, any payload and a suffix splits back into that id and payload |
| Frames.SubscribeFrameRoundTrip | src/index.ts:140 | a Subscribe frame is exactly `[1,<seq>,"<payload>"]` and decodes back to its id and payload |
| Frames.UnsubscribeFrameRoundTrip | src/index.ts:141 | an Unsubscribe frame is exactly `[2,<seq>,<payload>]`, the payload unquoted, and decodes back to its id and payload |
| Frames.EncodeRequestInjective | src/index.ts:139-143 | two frames of the same type that are equal have the same id and payload |
| Frames.FrameKindsDiffer | src/index.ts:140-141 | no Subscribe frame equals an Unsubscribe frame |
| Frames.ClientSubscribeFrameRoundTrip | src/client.js:73 | the older subscribe frame is exactly `[1, <seqN>, "<uri>"]`, with spaces, and decodes to its number and uri |
| Frames.ClientUnsubscribeFrameRoundTrip | src/client.js:88 | the older unsubscribe frame is exactly `[2, <seqN>, <subId>]` and decodes to its number and the id's text |
| Session.Settle | src/index.ts:154-157 | settling changes only the promise named, and only while it is still waiting |
| Session.SettleOnce | src/index.ts:154-157 | once a promise has settled, a later resolve or reject changes nothing |
| Session.ResubscribeFramesComplete | src/index.ts:215-220 | a frame is resent exactly when it is the Subscribe frame of some stored subscription with a truthy uri |
| Session.ResubscribeFramesAppend | src/index.ts:215-220 | resends follow the table's order: the frames for two concatenated tables are the two lists of frames concatenated |
| Session.ResubscribeFramesDecode | src/index.ts:215-217 | for a table with non-negative numeric ids, every resent frame is a Subscribe frame decoding to the key and uri of a stored subscription, so the old id is reused |
| Session.ResubscribeFrameKeys | src/index.ts:215-217 | for a table with non-negative numeric ids, every resent frame decodes to an id under which the table holds a subscription |
| Session.ResubscribeFramesDistinct | src/index.ts:215-220 | for a table with distinct non-negative numeric ids, no frame is resent twice, so each subscription is resubmitted once per open |
| Session.ResubscribeEntriesSpec | src/index.ts:215-220 | after the resends every subscription with a truthy uri has a pending entry under its key holding that uri, every other pending entry is as before, and no other key appears |
| Session.SuccessNeedsStatus | src/index.ts:254-262 | a reply counts as a success exactly when its third element is the number 0; a reply shorter than three elements has status undefined, named "Unknown", so `OnMessage`'s status test fails for it |
| Session.PromiseMap.constructor | src/index.ts:40 | the shared pending-request table starts empty |
| Session.XboxRTA.constructor | src/index.ts:44-66 | a new session has no socket, no subscriptions, an empty queue, counter 0 and no timers |
| Session.XboxRTA.Connect | src/index.ts:68-71 | fails with "Already connected to wss://rta.xboxlive.com/connect" exactly when the socket is open; otherwise a new socket starts connecting |
| Session.XboxRTA.Init | src/index.ts:169-200 | a new connecting socket with the session's handlers attached replaces the old one |
| Session.XboxRTA.Destroy | src/index.ts:73-118 | both timer handles become null; the message and close handlers are detached and an open socket is closed; with resume a new socket is connecting; the tables, queue and counter are unchanged |
| Session.XboxRTA.Send | src/index.ts:136-160 | the encoded frame is sent when the socket is open and the queue is left alone; otherwise the frame is appended to the queue and nothing is sent; either way a new waiting promise and a pending entry under the id holding the raw payload are added |
| Session.XboxRTA.Subscribe | src/index.ts:120-126 | uses the current counter as the id, then increments it by exactly one; the id was never issued before; the frame is `[1,<id>,"<uri>"]` |
| Session.XboxRTA.Unsubscribe | src/index.ts:128-134 | as Subscribe, with the frame `[2,<id>,<subscriptionId>]` |
| Session.XboxRTA.OnOpen | src/index.ts:202-222 | the refresh timer is armed; the old queue is sent in order, each frame once, followed by the resend frames; the queue is left empty; the pending table and promises are extended as the resends dictate; the counter is not advanced |
| Session.XboxRTA.FlushQueue | src/index.ts:211-213 | every queued frame is sent once, in the queue's order, and the queue is left empty |
| Session.XboxRTA.Resubscribe | src/index.ts:215-220 | over an open socket: one Subscribe frame is sent per subscription with a truthy uri, in table order, and the pending table and promises grow accordingly; the subscriptions, queue and counter are unchanged |
| Session.XboxRTA.OnClose | src/index.ts:228-240 | while the handlers are attached: code 1006 nulls both timers and reconnects, and any other code only closes the socket |
| Session.XboxRTA.OnPong | src/index.ts:309-320 | a pong re-arms the heartbeat timer |
| Session.XboxRTA.OnHeartbeatTimeout | src/index.ts:316-319 | the heartbeat timer firing disarms both timers and reconnects, keeping tables, queue and counter |
| Session.XboxRTA.OnRefreshTimeout | src/index.ts:205-209 | the 90-minute timer firing reconnects whatever the socket's health, keeping tables, queue and counter |
| Session.XboxRTA.OnRequestTimeout | src/index.ts:155 | the request's promise is rejected with "Timeout" unless it has already settled |
| Session.XboxRTA.OnMessage | src/index.ts:242-307 | a Subscribe reply with status 0 stores, emits and resolves the record, whose uri comes from the pending entry or is null; any other status rejects with "Subscribe failed with status code <s> <name>", emits an error and keeps the table; an Unsubscribe reply on status 0 removes the id, and otherwise rejects and emits an error; an Event is emitted whatever the table holds; binary data, Resync and unknown tags change nothing; a missing pending entry never fails |
| Scenarios.LimitReachedStatus | src/index.ts:260 | in the refusal message, status 2 is written "2" and named SubscriptionLimitReached |
| LegacyClient.SettleCall | src/client.js:92-93 | settling changes only the call named, and only while it is still waiting |
| LegacyClient.AfterResolveKeysBySubId | src/client.js:75-77 | a resolved subscribe call's Subscription is stored under the subscription id the server sent, not the sequence number |
| LegacyClient.Client.constructor | src/client.js:14-23 | a new client has `sequenceN` 1, empty maps and an empty send queue |
| LegacyClient.Client.Connect | src/client.js:25-28 | a new socket starts connecting |
| LegacyClient.Client.OnOpen | src/client.js:30-38 | the open handler sends every queued frame in order and empties the queue |
| LegacyClient.Client.Send | src/client.js:62-66 | sends when the socket is OPEN; otherwise appends to the end of the send queue |
| LegacyClient.Client.AwaitResponse | src/client.js:91-97 | registers a new waiting call under the number in `mapper`, then sends or queues the frame |
| LegacyClient.Client.Subscribe | src/client.js:68-81 | uses the current `sequenceN`, then increments it by one; the number was never issued before; awaits `[1, <seqN>, "<uri>"]` |
| LegacyClient.Client.Unsubscribe | src/client.js:83-89 | as Subscribe, awaiting `[2, <seqN>, <subId>]` |
| LegacyClient.Client.OnRequestTimeout | src/client.js:93 | the call's promise is rejected with "Timeout" unless it has already settled |
| LegacyClient.Client.HandleMessage | src/client.js:103-169 | type 1 and 2 replies resolve the registered call with the renamed fields whatever their code, and a subscribe call then stores its Subscription under the subId; a number with no registered resolver throws a TypeError and changes nothing; type 3 emits an event and changes no map; other tags change nothing |

## Left out

- Credentials: fetching the Xbox token and building the authorization header (index.ts:171-179; client.js:26-28) are a networked foreign call. `Init` and `Client.Connect` only create the socket.
- The WebSocket transport: it is reduced to its ready state, the attached-handler flag and the log of sent frames.
- `ws.close` completes at once in `Destroy`. The await on the close promise is not modelled.
- Timer durations (30 s per request, 30 s heartbeat, 90 min refresh) are not modelled; each firing is a method the environment may call. Timers armed per request are not tracked one by one.
- Session.XboxRTA.OnOpen: a refresh timer that is still armed from an earlier open is overwritten without being cleared in the source. The model keeps one timer handle, so the leaked timer is not represented.
- Session.XboxRTA.Connect: a call while the socket is still connecting creates a second socket in the source. The old socket's handlers stay attached to it. The model keeps one socket.
- Session.XboxRTA.Destroy: `destroy(true)` on a socket that is still connecting does not close it (index.ts:94) and leaves its open and pong handlers attached (index.ts:181-185), while `init` replaces `this.ws`. When that old socket opens later, its `onOpen` runs against the new socket. It arms a second refresh timer, and it flushes or queues the resend frames a second time. The model has one socket, so this second run is not represented. In the source, a subscription can then be sent twice per reconnect, which `Session.ResubscribeFramesDistinct` does not rule out. The case is reachable: after a close with a code other than 1006 the timers stay armed, and one can fire while a later `connect` is still in progress.
- LegacyClient.Client.Connect: a second `connect()` (client.js:28) leaves the old socket with its `message` and `close` listeners attached (client.js:42-51), so its replies are still dispatched and its close still reconnects. The model keeps one socket, so these overlapping generations are not represented.
- Asynchronous interleaving: `init` awaits the token, `subscribe` awaits its reply, and `destroy` awaits the close. Each operation is modelled as one atomic step.
- LegacyClient.Client.HandleMessage: the `subscribe` continuation that stores the Subscription runs in a later microtask in the source. It is folded into the reply's handling.
- `JSON.parse`: inbound text frames arrive as already-parsed arrays. Malformed text and non-array JSON are not modelled.
- Json.Text: numbers are integers and are written in plain decimal. Fractions, exponent notation and precision beyond 2^53 are not modelled.
- JsMap.Set: keys are compared structurally. A JavaScript `Map` compares object and array keys by identity, and such keys do not occur for well-formed replies.
- Session.XboxRTA.OnMessage: emitting `error` with no listener throws in Node. The model records the notification instead. Exceptions thrown by listeners are not modelled either.
- `onError` in index.ts only logs.
- src/client.js `reconnect`, the `close` and `error` handlers, and `_heartbeat` are left out. `_heartbeat` runs with the socket as `this` (client.js:40 registers it unbound): it keeps a 31-second timer on the socket and terminates the socket when it fires, the close listener then reconnects, and `reconnect`'s `clearTimeout` (client.js:56) reads the client's own field, which is never set, so it misses that timer. It is left out with `reconnect`.
- src/classes/Subscription.js is kept only as the copied record `LegacyClient.Subscription`. Its `unsubscribe` delegation is left out.
- src/index.js (a factory wrapper), index.d.ts (type declarations) and the example scripts are not part of this model.
- `debug` and `console.log` output is not modelled.
