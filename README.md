# F-Log client: a Dafny model

F-Log is a browser telemetry collector. The `FLog` client object
(`src/client/index.ts`) captures log records into an in-memory queue while it
is initialised. On every flush it enriches the queued records with the current
properties, user, session id and tab id. It hands them to a transport as one
batch and empties the queue.

This project models that object in two layers:

- `spec.dfy` (module `FLogSpec`) is the client as a state machine on values.
  A `State` datatype holds the object's fields, the cookie jar, the transport
  calls made so far (`sent`) and the host hooks installed. Each operation is a
  function from the state before the call to the state after it.
- `client.dfy` (module `FLogClient`) is the class `FLog`. Its fields and
  method bodies follow the TypeScript. The constructor and the methods a page
  calls (`Init`, `SetUser`, `SetProperty`, `SendLogs`, `PushLogToQueue`,
  `Destroy`, `CallLogger`) are proved to produce exactly the state their
  `FLogSpec` function gives, and to keep the invariant `FLogSpec.Consistent`.
- The helpers `Init` calls part-way through (`SetTabId`, `SetSessionId`,
  `SetSendLogsInterval`, `MountUnloadListener`, `InterceptNativeConsoleLogs`)
  run while that invariant is briefly broken. Each states the fields it sets,
  and its `modifies` clause frames the rest.
- `properties.dfy` (module `FLogProperties`) states properties of whole call
  sequences. These include exactly-once delivery of accepted records,
  consistency of every reachable state, session stability across init/destroy
  cycles, and last-write-wins properties.
- `findings.dfy` (module `SessionFinding`) shows the session-id defect below.
- `types.dfy` (module `FLogTypes`) holds the records, configuration and batches.

Three things outside the object are abstracted:

- `uuid()` becomes the parameters `freshTabId` and `freshSessionId` of `Init`.
- The `js-cookie` store becomes the field `cookies: map<string, string>`. The
  constructor receives it, which models storage that persists across page loads.
- The HTTP transport becomes the ghost field `sent: seq<Batch>`, which records
  each call (endpoint and batch).

Where the code and the intended design differ, the model follows the code:

- `init` installs console interception on every successful call, whatever
  `interceptNativeConsoleLogs` says (src/client/index.ts:40). The stored flag is
  never read. `consoleInstalls` counts the installations.
- `setSessionId` assigns the client's `sessionId` only when it creates the
  cookie (src/client/index.ts:65-72). See "Findings".
- JavaScript truthiness is modelled. An endpoint that is missing or `""` is
  rejected. A session cookie that is missing or `""` counts as unset.
- The queue is emptied after the transport call, not before it
  (src/client/index.ts:75-77). This only matters if the transport throws, and
  that case is not modelled (see "Left out").

## Model

| member | source | states |
|---|---|---|
| FLogSpec.Enrich | src/client/index.ts:51-59 | an enriched record is the captured record plus the given context: stripping the context gives back the record and the context it carries is the one given |
| FLogSpec.EnrichAll | src/client/index.ts:76 | mapping `processLog` over the queue keeps its length and order and enriches every record with the same context |
| FLogSpec.BasesOfEnrichAll | src/client/index.ts:76 | stripping the enrichment from a batch gives back exactly the queue it was built from |
| FLogSpec.ResolveSession | src/client/index.ts:65-72 | a set cookie leaves the jar and the session id untouched; an unset one stores the fresh id under `flog_session_id` and assigns it; other cookies never change |
| FLogSpec.Init | src/client/index.ts:27-41 | a second call while initialised changes nothing; a missing or empty endpoint throws with no field changed; otherwise the client is initialised with the endpoint, the flag defaulting to true, the fresh tab id, the resolved session, its hooks, and queue, batches, user and properties unchanged; keeps `Consistent` |
| FLogSpec.SetUser | src/client/index.ts:43-45 | the user is replaced and nothing else changes; keeps `Consistent` |
| FLogSpec.SetProperty | src/client/index.ts:47-49 | upsert: the named key maps to the new value, every other key is unchanged, nothing else changes; keeps `Consistent` |
| FLogSpec.Push | src/client/index.ts:88-91 | while initialised the record is appended at the end of the queue; otherwise the state is unchanged; nothing but the queue ever changes |
| FLogSpec.Flush | src/client/index.ts:74-78 | the queue is empty afterwards; an empty queue sends nothing; a non-empty one adds exactly one batch to the configured endpoint, of the same length and order, each record enriched with the current context; the records delivered grow by exactly the queue |
| FLogSpec.Destroy | src/client/index.ts:93-101 | sends what one flush sends, then leaves the client uninitialised with empty config, queue and properties, no user and no timer; ids, cookies and interception stay; a later flush sends nothing and a later capture is dropped |
| FLogSpec.InitialConsistent | src/client/index.ts:14-25 | a new client satisfies the invariant |
| FLogClient.FLog.constructor | src/client/index.ts:14-25 | a new client is uninitialised with `{ endpoint: "" }`, an empty queue and properties, no user, no ids and no batches sent |
| FLogClient.FLog.Init | src/client/index.ts:27-41 | the client's new state and outcome are those of `FLogSpec.Init` |
| FLogClient.FLog.SetUser | src/client/index.ts:43-45 | the new state is that of `FLogSpec.SetUser` |
| FLogClient.FLog.SetProperty | src/client/index.ts:47-49 | the new state is that of `FLogSpec.SetProperty` |
| FLogClient.FLog.SetTabId | src/client/index.ts:61-63 | the tab id is the freshly generated one |
| FLogClient.FLog.SetSessionId | src/client/index.ts:65-72 | the cookie jar and session id become those of `FLogSpec.ResolveSession` |
| FLogClient.FLog.SendLogs | src/client/index.ts:74-78 | the new state is that of `FLogSpec.Flush` |
| FLogClient.FLog.SetSendLogsInterval | src/client/index.ts:80-82 | the periodic flush is armed |
| FLogClient.FLog.MountUnloadListener | src/client/index.ts:84-86 | the unload flush is installed |
| FLogClient.FLog.InterceptNativeConsoleLogs | src/client/index.ts:104-106 | one more console interception is installed |
| FLogClient.FLog.PushLogToQueue | src/client/index.ts:88-91 | the new state is that of `FLogSpec.Push` |
| FLogClient.FLog.Destroy | src/client/index.ts:93-101 | the new state is that of `FLogSpec.Destroy` |
| FLogClient.FLog.CallLogger | src/client/index.ts:110-116 | each `Logger` entry point pushes a record at its own level, `log` at `info` |
| FLogProperties.StepConservesRecords | src/client/index.ts:74-101 | one call extends delivered-then-queued records by exactly the record it accepted |
| FLogProperties.DeliveredExactlyOnce | src/client/index.ts:74-101 | over any call sequence, delivered-then-queued records grow by exactly the records captured while initialised, in capture order: none lost, duplicated or reordered |
| FLogProperties.AllAcceptedRecordsDelivered | src/client/index.ts:88-101 | from a new client, after a final flush the transport has received exactly the records captured while initialised; a capture before `init` or after `destroy` never arrives |
| FLogProperties.StepPreservesConsistent | src/client/index.ts:27-101 | every call keeps the invariant |
| FLogProperties.RunPreservesConsistent | src/client/index.ts:27-101 | every reachable state is consistent, so every batch sent is non-empty and goes to a non-empty endpoint |
| FLogProperties.SessionStable | src/client/index.ts:65-72 | once the session cookie is set, no call sequence changes the cookie jar or the session id |
| FLogProperties.SessionCreatedOnFirstInit | src/client/index.ts:65-72 | a successful first `init` without a cookie persists the fresh id and assigns it |
| FLogProperties.TwoCycles | src/client/index.ts:27-101 | across init, any calls, destroy and init again, the session id and cookie jar are the same, the tab id is the one each `init` minted, and the two tab ids differ |
| FLogProperties.InitTwiceIsIdempotent | src/client/index.ts:28 | after a successful `init`, a second one changes nothing and returns normally |
| FLogProperties.LastPropertyWriteWins | src/client/index.ts:47-59 | after two writes to one key, every flushed record, including those queued earlier, carries the second value |
| FLogProperties.PropertyHeldUntilOverwritten | src/client/index.ts:47-59 | while no call writes the property or destroys the client, the property keeps its value, earlier batches stay as they were and every batch sent carries that value |
| FLogProperties.StepKeepsProperty | src/client/index.ts:47-59 | one call that neither writes the property nor destroys keeps its value, keeps earlier batches, and any batch it sends carries that value |
| FLogProperties.LaterFlushesCarryLastWrite | src/client/index.ts:47-59 | after two writes to one key, every batch any later sequence of calls sends (until the key is written again or the client destroyed) carries the second value, including records captured after the writes |
| FLogProperties.LastWriteReachesFinalDestroy | src/client/index.ts:93-97 | after two writes to one key and any calls that neither write it nor destroy, a final `destroy` flushes before it clears the properties: every batch sent, the last one included, carries the second value, and the properties are empty afterwards |
| FLogProperties.ErrorScenario | src/client/index.ts:27-91 | init with an endpoint, one `Logger.error`, one flush: exactly one batch of one error record with no properties, no user and the minted session and tab ids |
| SessionFinding.ReloadLeavesSessionIdUnset | src/client/index.ts:65-72 | with a session cookie already present, the first flushed record carries no session id |
| SessionFinding.ResolveSessionIntended | src/client/index.ts:65-72 | corrected resolution: the jar changes as in the code, and the session id always equals the cookie |
| SessionFinding.InitIntended | src/client/index.ts:27-41 | corrected `init`: same outcome and state as the code's except the session id, which after a successful call is the one the cookie jar holds |
| SessionFinding.IntendedReloadKeepsSessionId | src/client/index.ts:65-72 | with the corrected `init`, a reload's init, capture and flush deliver a record carrying the session id the cookie already held, and the jar is unchanged |

## Findings

| source | as written | input that shows it | evidently intended | confidence | as-written member | corrected member |
|---|---|---|---|---|---|---|
| src/client/index.ts:65-72 | `this.sessionId = sessionId` sits inside `if (!sessionId)`, so a session id read from the cookie is never assigned | a cookie jar holding `flog_session_id` (any page load after the first), then `init` with an endpoint, one capture, one flush: the record's `sessionId` is undefined | assign the cookie's value to `this.sessionId` in both branches | high, not executed | SessionFinding.ReloadLeavesSessionIdUnset | SessionFinding.InitIntended |

The class `FLogClient.FLog` follows the code as written, so every property
above that mentions the session id holds of the code's behaviour. The corrected
resolution (`ResolveSessionIntended`) and the `init` that uses it
(`InitIntended`) are stated and proved separately, in `SessionFinding`.

## Left out

- `uuid()` is not modelled as an algorithm. Its results are the parameters
  `freshTabId` and `freshSessionId`, so "each tab id differs" holds only when
  the caller supplies different ids (`TwoCycles` requires it).
- The `js-cookie` store is a plain key/value map. Cookie attributes, expiry and
  scope are not modelled.
- The transport `sendLogs` from `./utils/send` is not part of this model. Its
  calls are recorded in the ghost `sent`. Serialisation, failure and a
  synchronous throw are not modelled. If it threw, the code would skip
  `this.logs = []` (and the rest of `destroy`); the model always empties the
  queue.
- Timers and `window.onbeforeunload` are kept only as the flags `timerArmed` and
  `unloadHooked`. The 5000 ms interval is not modelled. A timer tick or an
  unload is an explicit `SendLogs` call.
- `overWriteConsoleFunctions` and `generateManualLoggingFunction` are not part
  of this model. An intercepted console call is a `PushLogToQueue` call. A
  `Logger` call is `CallLogger`, which takes the message, timestamp and
  arguments from its caller. Each installation is counted in `consoleInstalls`,
  but what repeated installations do to the console is not modelled.
- Message formatting of console arguments and timestamp generation are not
  modelled. Both live in the logging helpers and depend on the clock.
- The shared `properties` object is treated as a value. In the code, a batch
  holds a reference to it, so a later `setProperty` also changes batches whose
  serialisation is still pending. The model does not capture this.
- `userInfo` starts as `undefined` and `destroy` sets it to `null`. Both are
  `None`, since `processLog` turns both into `null`. The shallow copy of the
  user is the value itself.
- FLogSpec.SetProperty: properties are a plain map from any string key. The
  key `__proto__` is outside the model: on a plain object the code's
  assignment (src/client/index.ts:48) invokes the prototype setter and never
  stores `__proto__` as a key, while the model stores it like any other. The
  same holds of `FLogClient.FLog.SetProperty` and of the lemmas about property
  writes (`LastPropertyWriteWins`, `PropertyHeldUntilOverwritten`,
  `StepKeepsProperty`, `LaterFlushesCarryLastWrite`,
  `LastWriteReachesFinalDestroy`).
- `unknown` property and user values are `Value` (null, boolean, integer,
  string). Nested objects and floating-point numbers are not modelled.
- The exported module-level singleton (src/client/index.ts:120) is not
  modelled. One `FLog` object is one client.
