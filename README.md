# Session logic of the AttackForge self-service events client

This project models the core of a Node.js client for the AttackForge
self-service events API (`index.js`). The client keeps one WebSocket connection
to the event service. It subscribes to a configured list of event types,
starting from a stored replay timestamp. It hands each event notification to a
user-supplied handler, stores the notification's timestamp, and answers the
server's heartbeat requests. After the heartbeat deadline passes, it drops the
connection and reconnects.

The model covers:

- **Frame classification** (`Frames`). A parsed payload is a value of the
  `Json` datatype. `Classify` picks one of seven routes by field presence,
  with the source's precedence: not JSON-RPC 2.0, notification, peer request,
  success response, error response, unsupported, or malformed. Malformed means
  `JSON.parse` threw or the payload was `null`.
- **The session** (`Client.Connection`). This class holds the state that
  `index.js` attaches to the socket: `pendingRequests` as a `map`, the
  heartbeat timer as a deadline, whether `process.exit` was called, and the
  life of the socket (connecting, open, closed with a reconnect scheduled).
  Each handler is a method whose contract gives the new state and the
  effects appended to an ordered trace. The trace records sends, sink calls,
  issued stores, callback outcomes, console reports, termination, scheduled
  reconnects and exits. The class invariant says that no pending request ever
  has more than one outcome: success, failure or timeout. It also says that a
  request still in the table has had none.
- **Heartbeat** (`Heartbeat`). Each arm replaces the previous deadline with
  `now + 31000`. Heartbeats that arrive less than a deadline apart keep the
  connection alive. A full deadline without one terminates it. The
  session's invariant ties this to the class: the live
  `heartbeatDeadline` is that of the latest `Armed` effect in the trace.
  The keep-alive lemmas are stated over the times of those arms, as a plain
  sequence. No lemma derives that sequence from a trace.
- **Replay timestamp** (`ReplayStore`). Loading picks between the file, the
  `FROM` override and "now". Storing truncates the file and then writes the
  first 24 characters. The store/load round trip is proved.
- **Subscribe construction** (`Text`). The EVENTS setting is split on commas
  and every piece is trimmed. Split and join are proved inverse in both
  directions. Trim is characterised as the infix between two runs of
  whitespace.

Time is a logical clock in milliseconds (`now`). The ISO 8601 text of "now"
(`nowIso`) is a separate input. The file's state, the `FROM` override, the
EVENTS setting and the id `uuidv4()` returns are parameters. The id must have
the shape of a version-4 UUID.

Behaviour of the code that the model keeps, where one might expect otherwise:

- the timestamp store is issued but not awaited before the sink is called;
- the close handler does not cancel the socket's heartbeat timer, because its
  `clearTimeout(this.heartbeatTimeout)` reads the enclosing function's `this`;
- the close handler does not cancel the subscribe timeout either, so a
  connection that closes before the subscription is answered still exits
  the process 5000 ms after the subscribe request was registered;
- a peer request with a method other than `heartbeat` is neither answered nor
  reported;
- a file shorter than 24 characters falls back to "now", not to the override;
- only a heartbeat request re-arms the heartbeat, not any other frame;
- a response id is looked up with JavaScript's property-key coercion, and the
  `in` operator also sees the keys every object inherits (`toString`,
  `constructor`, ...). For those keys, calling the missing callback throws and
  the handler reports "error parsing message". The same report follows an id
  whose coercion to a key throws: an object with its own `toString`, or an
  array holding one.

## Model

| member | source | states |
|---|---|---|
| `Json.Truthy` | index.js:65 | a value is falsy exactly when it is `null`, `false`, `0` or the empty string |
| `Json.NatText` | index.js:83 | the decimal text of a number: digits only, denoting the number, with no leading zero |
| `Json.KeyOf` | index.js:83-91 | coercing a response id to a key throws exactly when it is, or an array inside it holds, an object with an own `toString`; otherwise a string is itself, a number its exact decimal text (`NatText`, no leading zeros), preceded by "-" when negative (exact for integers up to 2^53; see Left out), `null` "null", a boolean "true"/"false", an object "[object Object]", an empty array "", a one-element array its element's key ("" for `null`) |
| `Frames.ReplayTimestamp` | index.js:65-67 | a timestamp is stored exactly when `params` and `params.timestamp` are both present and truthy, and it is `params.timestamp` |
| `Frames.Classify` | index.js:60-101 | each route holds exactly under its field-presence condition, in the source's precedence; malformed iff the parse failed or the payload is null; ignored iff `jsonrpc` is not "2.0"; the route carries the frame's fields |
| `Frames.MethodOutranksResult` | index.js:64-82 | a 2.0 frame with `method`, `id` and `result` is a peer request |
| `Frames.ResultOutranksError` | index.js:82-93 | a 2.0 frame with `result`, `error` and `id` and no `method` is a success response |
| `Text.Split` | index.js:170 | `split(',')` yields at least one piece and no piece contains the separator |
| `Text.JoinSplit` | index.js:170 | joining the pieces of a split with the separator gives back the string |
| `Text.SplitJoin` | index.js:170 | splitting a join of separator-free pieces gives back the pieces |
| `Text.TrimStart` | index.js:170 | the result is a suffix of the input preceded only by whitespace, and it does not start with whitespace |
| `Text.TrimEnd` | index.js:170 | the result is a prefix of the input followed only by whitespace, and it does not end with whitespace |
| `Text.Trim` | index.js:170 | the result is an infix of the input between two runs of whitespace, and neither starts nor ends with whitespace |
| `Text.TrimIdempotent` | index.js:170 | trimming twice equals trimming once |
| `Text.EventList` | index.js:170 | the events list has one entry per comma-separated piece, each piece trimmed and comma-free |
| `ReplayStore.Load` | index.js:121-150 | 24 or more characters in the file give the first 24; a shorter file gives "now" whatever the override; an open or read failure gives a non-empty override, otherwise "now"; there is no error result |
| `ReplayStore.Store` | index.js:152-167 | an unwritable file is unchanged; otherwise the file holds exactly the first 24 characters of a string of at least 24, and is empty for a shorter string or any non-string |
| `ReplayStore.StoreThenLoad` | index.js:121-167 | storing a 24-character timestamp and then loading returns it |
| `ReplayStore.StoreOutranksOverride` | index.js:125-142 | after a successful store, the override plays no part in the next load |
| `ReplayStore.ShortStoreLoadsNow` | index.js:156-157 | storing a string shorter than 24 characters makes the next load return "now" |
| `ReplayStore.LastStoreWins` | index.js:156-157 | only the latest completed store determines the file |
| `Heartbeat.LatestArm` | index.js:113-118 | the deadline in force at time t comes from the latest arm at or before t, which is one of the arms; none is in force before the first |
| `Heartbeat.FrequentHeartbeatsKeepAlive` | index.js:113-119 | with arms less than 31000 ms apart, the timer never expires between the first arm and 31000 ms after the last |
| `Heartbeat.SilenceExpires` | index.js:116-118 | with no arm in the 31000 ms up to t (and one before), the timer has expired at t |
| `Client.AppendOutcome` | index.js:184-203 | recording an outcome for a request that had none keeps every request at no more than one outcome, and adds exactly that request to those with an outcome |
| `Client.UuidIsOwnKey` | index.js:179-182 | a UUID request id is never a key inherited from `Object.prototype` |
| `Client.QuietKeepsLatest` | index.js:113-119 | effects other than arms leave the latest arm the one whose deadline is in force |
| `Client.ArmBecomesLatest` | index.js:114-118 | an arm makes its own deadline the one in force, whatever was armed before |
| `Client.Connection.constructor` | index.js:41-45 | a new socket is connecting, with no pending requests, no heartbeat timer and no effects |
| `Client.Connection.Arm` | index.js:113-119 | the heartbeat deadline becomes now + 31000 whatever it was before; nothing else changes |
| `Client.Connection.Subscribe` | index.js:169-207 | the pending table gains the request under its fresh id with a deadline of now + 5000; the registration precedes the send; the request's events are the trimmed comma-split setting and `from` is the loaded timestamp |
| `Client.Connection.HandleOpen` | index.js:105-110 | the connection opens with a table holding only the subscribe request, a heartbeat deadline of now + 31000, and the effects arm, register, send in that order |
| `Client.Connection.Report` | index.js:94-101 | one "error parsing message" or "unsupported message format" report is appended to the trace and nothing else changes |
| `Client.Connection.Resolve` | index.js:83-92 | clearing the entry's timeout and running its callback or timeout removes exactly that entry and records its single outcome, followed by the given effects (the exit, for failure and timeout) |
| `Client.Connection.HandleMessage` | index.js:59-103 | per route: a malformed frame or an unsupported one is reported and nothing else changes; a non-2.0 frame has no effect; a notification issues the store before calling the sink; a heartbeat request sends one reply with the current time and the peer's id and then re-arms; other peer requests have no effect; a response whose id cannot be coerced to a key is reported and changes no state; a response for a pending key deletes that entry and records only the matching outcome (failure also exits with 1); a response for any other key changes no state, and is reported when the key is inherited from `Object.prototype`; the invariant keeps at most one outcome per id |
| `Client.Connection.HeartbeatExpired` | index.js:116-118 | an expired heartbeat terminates an open connection and schedules a reconnect 1000 ms later; on a closed socket it does nothing |
| `Client.Connection.SubscribeTimedOut` | index.js:197-203 | a due subscribe timeout deletes the entry, records the timeout as its only outcome and exits with status 1, whether or not the socket has closed |
| `Client.Connection.HandleClose` | index.js:51-57 | a close schedules a reconnect 1000 ms later and leaves the heartbeat deadline and the pending table unchanged |
| `Scenarios.AcknowledgedOnce` | index.js:182-204 | after an acknowledged subscription, a duplicate acknowledgement and a late error response for the same id have no effect, and the process does not exit |
| `Scenarios.UnansweredSubscribeExits` | index.js:197-203 | a connection that closes before its subscription is answered still exits when the subscribe timeout fires |
| `Scenarios.HeartbeatThenSilence` | index.js:72-80 | a heartbeat request is answered under the peer's id and moves the deadline on; silence after it terminates the connection at the new deadline |
| `Scenarios.ThrowingIdIsReported` | index.js:82-101 | a response whose id is an object with its own `toString` is reported as "error parsing message" and leaves the subscription pending |

## Left out

- Transport: the `wss://` URL, the port default, TLS and the `X-SSAPI-KEY` header (index.js:35-45) are I/O. The `error` handler (index.js:47-49) only logs, and the close that follows it is `HandleClose`.
- Configuration checks: the exits for a missing HOSTNAME, EVENTS or X_SSAPI_KEY (index.js:20-33) happen before any connection exists. They are not part of this model. EVENTS and FROM are inputs.
- The reconnect loop: `connect()` re-entered from the close handler is modelled only as the `Closed(reconnectAt)` state that a close leaves.
- JSON text: `JSON.parse` and `JSON.stringify` are replaced by the `Json` datatype and the `Outbound` frames. The field order of sent frames is not modelled. Numbers are unbounded integers, so fractions, the exponent notation `String` uses from 1e21, and the rounding of integers beyond 2^53 to the nearest double are left out.
- Clock and ids: `new Date().toISOString()` is the input `nowIso`, not computed from `now`. `uuidv4()` is an input whose shape is required.
- Asynchrony: the model has no event-loop interleaving. Messages that arrive while `loadReplayTimestamp` is awaited, completion order of the stores, which are not awaited, and rejections of the user's sink (caught and logged at index.js:99-101) are not modelled.
- ReplayStore.Load: characters count as bytes, so the UTF-8 encoding done by `Buffer` (a non-ASCII timestamp) is not modelled. A failure of `filehandle.close()` in the `finally` block is not modelled either.
- ReplayStore.Store: a timestamp that `Buffer.from` accepts without being a string (an array of numbers, a Buffer-like object) is treated like any other non-string value, i.e. as a write that fails after truncation.
- Console output other than the two reports of the message handler ("error parsing message", "unsupported message format") is not recorded.
- Json.KeyOf: the key of an array with two or more elements (its elements' keys joined with commas) is defined but not stated in the contract. The contract pins the key of every other value.
- Json.KeyOf: a number's key is the exact decimal text of the integer. JavaScript's `String(n)` gives the text of the double `JSON.parse` produced, so for integers above 2^53 the source's key is the rounded value (`2**64` gives "18446744073709552000") while the model's is exact. The message handler is unaffected: a string of digits is never a UUID request id or a key of `Object.prototype`.
