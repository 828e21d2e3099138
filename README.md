# RemoteLogger, modelled in Dafny

`RemoteLogger` is a client-side log shipper. Callers `log` entries; the logger buffers them
and ships the buffer as one batch to an ingest service, either as soon as the buffer reaches
`bufferSize` entries or when a `flushInterval` timer fires. When a password is configured it
first authenticates and sends the returned bearer token with every batch. A failed
authentication disables the logger for good. A 401 on a batch forgets the token and
authenticates again. Batches whose delivery fails are dropped, never requeued.

The model has two layers:

- `LoggerSpec` (logger_spec.dfy) describes the logger as pure transition functions over a
  `State`, one per synchronous stretch of code: `Connect`, `OnAuth` (connect's continuation),
  `Log`, `Flush` (up to the network call), `OnTimer` and `OnDelivery` (flush's continuation).
  Each returns the next state and the request it hands to the network (`Output`).
  Besides the logger's own fields, the state carries what the runtime keeps track of:
  - timers still pending, kept apart from the `flushTimer` handle field so that a stale handle is visible;
  - auth requests and submissions awaiting their outcome;
  - two histories, the entries `log` accepted and the batches sent.

  `Inv` holds in every reachable state. At most one timer is pending, and only while its handle is held.
  The sent batches followed by the buffer equal the accepted entries.
  Without a password the logger holds no token and is never disabled.
  `Step` and `Run` lift the transitions to sequences of events.
- `Logger.RemoteLogger` (remote_logger.dfy) is the class itself. It has the same fields (`token`, `buffer`,
  `flushTimer`, `disabled`, with the configuration as constants), and the runtime bookkeeping and
  histories are ghost fields. Each method changes the fields step by step, as the source does.
  Each is proved to perform its `LoggerSpec` transition and to keep `Valid()`.

`LoggerProperties` (logger_properties.dfy) proves the properties over whole event sequences.
`Settings` models the constructor's defaults, and `Protocol` the requests and the outcomes the logger can observe.

Three behaviours of the code are easy to miss:
- In anonymous mode (no password) the Authorization header is not omitted. It is always
  `Bearer ${token}`, which reads `Bearer null` when no token is held (src/index.ts:156).
- A disabled logger is not entirely inert. A submission already in flight when the logger was
  disabled can still come back with a 401, and that clears the token and issues a new auth
  request. It never submits a batch again (`DisabledIsTerminal`).
- After a timer-triggered flush is skipped for want of a token, the timer callback leaves the
  handle set. `log` then schedules no new timer until a flush actually drains
  (`StaleHandleBlocksTimer`). So buffered entries wait for the size threshold rather than
  "the next tick".

## Model

| member | source | states |
|---|---|---|
| Settings.OrDefault | src/index.ts:36-37 | the JavaScript default `x or d` on a numeric option: an omitted value and 0 both yield the default; any other value is kept; a non-zero default gives a non-zero result |
| Settings.Resolve | src/index.ts:31-37 | the stored configuration: name and password as given, isNewAccount true only when given as true, bufferSize defaulting to 10 and flushInterval to 5000 when omitted or 0, never 0 |
| Protocol.AuthorizationHeader | src/index.ts:156 | the header always starts with "Bearer ", followed by the held token, or the word "null" when none is held |
| Protocol.HeaderRoundTrip | src/index.ts:156 | the token can be read back from the header, but an anonymous header equals one carrying the token "null" |
| LoggerSpec.Connect | src/index.ts:43-55 | with a falsy password (absent or empty) nothing happens; otherwise exactly one auth request carrying packageName, password and isNewAccount is issued and nothing else changes; keeps Inv |
| LoggerSpec.Initial | src/index.ts:24-40 | a new logger has no token, an empty buffer, no handle, no pending timer, no submission awaiting a reply, empty histories, is enabled, satisfies Inv, and has issued (and awaits) one auth request exactly when the password is truthy |
| LoggerSpec.OnAuth | src/index.ts:57-70 | a non-ok status or a fault sets disabled; an ok reply stores its token; disabled is never cleared; buffer, timer and histories unchanged; no request issued; keeps Inv |
| LoggerSpec.Flush | src/index.ts:133-159 | a batch is submitted exactly when not disabled, the buffer is non-empty and a token is held or no password is set; otherwise nothing changes; a submitted batch is the whole buffer in order under the current header, the buffer becomes empty, the handle is cleared and the pending timer cancelled, the batch is appended to the sent history; keeps Inv |
| LoggerSpec.Log | src/index.ts:73-91 | disabled: no change at all; otherwise the entry is accepted at the tail; a flush of the extended buffer is requested exactly when its length reaches bufferSize (and no timer is then scheduled); below the threshold nothing is sent, the handle is held afterwards and a timer is scheduled exactly when none was held; token and disabled unchanged; keeps Inv |
| LoggerSpec.OnTimer | src/index.ts:89 | the pending timer is consumed and flush runs; the handle stays held unless the flush drains; keeps Inv with no timer pending afterwards |
| LoggerSpec.OnDelivery | src/index.ts:161-172 | a 401 clears the token and runs connect; any other status or a fault changes nothing; never submits, never touches buffer, disabled, timers or histories (the batch is not requeued); keeps Inv |
| LoggerSpec.Step | src/index.ts:43-172 | every event keeps Inv; from a disabled state every event leaves it disabled, submits nothing and leaves buffer and histories unchanged; the histories only grow |
| LoggerProperties.RunKeepsInv | src/index.ts:83-91 | Inv holds after any sequence of events |
| LoggerProperties.Conservation | src/index.ts:144-149 | from construction on, the batches sent concatenated and followed by the buffer are exactly the accepted entries in order, and at most one timer is pending |
| LoggerProperties.HistoryOnlyExtends | src/index.ts:161-172 | sent batches and accepted entries are only ever extended, never revised or put back |
| LoggerProperties.DisabledIsTerminal | src/index.ts:74 | once disabled, no sequence of events re-enables the logger, submits a batch, or changes the buffer or histories |
| LoggerProperties.RejectedAuthSilences | src/index.ts:57-70 | an auth reply with a non-ok status, or an auth fault, disables the logger and nothing afterwards is submitted |
| LoggerProperties.AnonymousBufferBelowThreshold | src/index.ts:134-149 | without a password the buffer always holds fewer than bufferSize entries or none |
| LoggerProperties.AnonymousUnitBatches | src/index.ts:85-86 | with bufferSize 1 and no password each log call submits exactly its own entry under "Bearer null", and no other event submits anything |
| LoggerProperties.UnauthorizedDropsBatch | src/index.ts:161-166 | a 401 on a submission clears the token, issues a new auth request, and leaves buffer, sent batches and disabled as they were |
| LoggerProperties.StaleHandleBlocksTimer | src/index.ts:138-142 | a timer firing while waiting for a token skips the flush and leaves the handle held; the next log below the threshold then schedules no timer, so none is pending |
| LoggerProperties.ThresholdSkipSchedulesNothing | src/index.ts:85-90 | a log reaching the threshold while waiting for a token sends nothing, keeps the entry buffered and schedules no timer |
| Logger.RemoteLogger.constructor | src/index.ts:31-41 | fields hold the resolved configuration and the initial state, connect has been started, Valid holds |
| Logger.RemoteLogger.Connect | src/index.ts:43-55 | performs LoggerSpec.Connect on the fields and returns the auth request issued |
| Logger.RemoteLogger.OnAuthResponse | src/index.ts:57-70 | performs LoggerSpec.OnAuth on the fields |
| Logger.RemoteLogger.Log | src/index.ts:73-91 | performs LoggerSpec.Log on the fields and returns the submission issued, if any |
| Logger.RemoteLogger.Info | src/index.ts:93-95 | log at level info |
| Logger.RemoteLogger.Warn | src/index.ts:97-99 | log at level warn |
| Logger.RemoteLogger.Error | src/index.ts:101-103 | log at level error |
| Logger.RemoteLogger.Debug | src/index.ts:105-107 | log at level debug |
| Logger.RemoteLogger.Flush | src/index.ts:133-159 | performs LoggerSpec.Flush on the fields and returns the submission issued, if any |
| Logger.RemoteLogger.OnTimer | src/index.ts:89 | performs LoggerSpec.OnTimer on the fields |
| Logger.RemoteLogger.OnDeliveryResponse | src/index.ts:161-172 | performs LoggerSpec.OnDelivery on the fields and returns the new auth request after a 401 |

## Left out

- overrideConsole (src/index.ts:109-131): it only patches the global console functions to call `log` with stringified arguments.
- The HTTP exchanges (the ingest URL, fetch, JSON encoding, the Content-Type header, reading the response body): a request is the `Output` a method returns, a response is the outcome its continuation takes.
- An ok auth response whose body has no `token` field, which would store `undefined`: a reply always carries a string token.
- Console diagnostics (src/index.ts:59, 68, 167, 170): they change no state.
- Wall-clock timestamps: an entry's timestamp is a parameter.
- Timer durations: `flushInterval` is stored but only the pending timer and the handle are modelled, and a timer fires when the `OnTimer` event is delivered.
- `bufferSize` and `flushInterval` are integers: fractional numbers and NaN are not modelled (0 is, as falsy).
- `tableName` is accepted in `Options` and ignored, as the source ignores it; `meta` is an opaque type parameter.
- Ordering between concurrent continuations: each continuation is one atomic step, and any interleaving is a sequence of events.
- Logger.RemoteLogger.constructor: does not return the auth request that its call to connect issues, because a constructor has no results; `LoggerSpec.Initial` states it.
- Logger.RemoteLogger.OnAuthResponse, Logger.RemoteLogger.OnTimer, Logger.RemoteLogger.OnDeliveryResponse: each requires a pending request or timer. The runtime guarantees that a continuation runs only after its request was issued, and a timer callback only while the timer is pending.
