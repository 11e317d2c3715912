# ndc-sdk-rs core, modelled in Dafny

A model of the parts of the Rust SDK for Hasura NDC connectors (`ndc-sdk-rs`) that make
decisions of their own. Every request reaches a connector through these parts:

- **Throttle** (`throttle.rs`): coalesces calls of one operation. The first caller after an
  idle period drives a new batch, sleeping until `last_run + interval` first. Callers that
  arrive while the batch is pending queue a one-shot channel. The code's third arm, which
  hands out the value of a batch already finished (throttle.rs:155-163), is modelled as
  written; in the code it is reached only through a lock-order deadlock or a dropped driver
  future, as "## Left out" says under `Throttle.DecideStep`.
  The model is a value-level `Snapshot` with one step function per atomic step, plus a
  `Throttle` class whose fields the methods overwrite in place. Waiter channels are tickets;
  delivered values sit in an `inbox` map.
- **Lazy connector state** (`sdk-core/src/state.rs`): a `ServerState` whose clones share one
  once-cell. `state()` returns the cached value, or calls `try_init_state` and caches only a
  success, so a failure is retried by the next call.
- **Errors** (`connector/error.rs`):
  - the result-carrying error enums, their constructors, which default the details to `null`;
  - `with_details`;
  - the HTTP status of `into_response`, as defined in section 15 of RFC 9110;
  - the `Display` text of the configuration errors: `LocatedError`, `InvalidNode`,
    `InvalidNodes`, `KeyOrIndex` and `ParseError`. Each text is stated part by part. A
    `KeyOrIndex` segment is proved to read back as itself, and so is a `LocatedError` whose
    path holds no colon. An `InvalidNode` or `InvalidNodes` text has no parser in the model:
    its layout is stated instead, and how it extends under concatenation. A `ParseError`
    text is proved to name its kind. An I/O error and any other error with the same message
    render alike, so these two are told apart only as one kind.
- **Default main** (`default_main.rs`):
  - the exact match of the `Authorization` header against `Bearer <secret>`;
  - the router: every request but those to `/health`, routed or not, passes the auth check
    and the 100 MiB body limit, in that order, before axum routes it;
  - the eager `init_server_state`.
- **JSON envelope** (`json_response.rs`, `sdk-core/src/schema.rs`): `JsonResponse` is a value
  or pre-serialised bytes. The schema printer writes `{"schema":…,"capabilities":…}` and a
  newline as five writes, and passes pre-serialised bytes through untouched. The writer is a
  class whose content the writes extend. Its capacity is the only way a write can fail.

serde is a pair of function parameters throughout: `ser` is what is written for a value, and
`deser` is what is read back from bytes. So are `HeaderValue::from_str`, `ndc_models::VERSION`,
`parse_configuration`, `try_init_state` and `get_schema`. Time is a `nat` clock.

The code and the module documentation of `throttle.rs` disagree in two places. The model
follows the code in both:

- The driver's `start` is taken when it decides, before it sleeps (throttle.rs:104). So the
  interval separates decisions, not executions. `Throttle.ExecutionsCanBeCloserThanInterval`
  shows two executions 500 ms apart under a 1000 ms interval.
- The `Finished` arm of `decide` (throttle.rs:155-163) hands out the value of a batch that
  has already finished; the comment at throttle.rs:43-49 says a finished result will not be
  handed out. The model computes that arm as written. In the code the arm is reached only in
  two ways. A caller that takes the outer lock between the driver's finish and settle waits
  for the batch lock the driver still holds, while the driver waits for the outer lock, so
  both hang. Or the driver's future is dropped while it waits at throttle.rs:134: the state
  then stays `Running` over a finished batch, every later caller gets that stale value, and
  no batch runs again.

`crates/sdk/src/default_main.rs` builds its server state eagerly: it calls `try_init_state`
at start-up. `crates/sdk-core/src/state.rs` builds it lazily. Both are modelled:
`DefaultMain.InitServerState` for the first, and `LazyState` for the second.

## Model

| member | source | states |
|---|---|---|
| Throttle.Initial | crates/sdk/src/throttle.rs:67-73 | a new throttle is `NeverRun` with no batch and no delivered value, and satisfies the invariant |
| Throttle.WakeAt | crates/sdk/src/throttle.rs:93-99 | the driver wakes at once after `NeverRun`; after `Idle{last_run}` it wakes at `last_run + interval`, or at once if that deadline has passed; it never wakes before now |
| Throttle.DecideStep | crates/sdk/src/throttle.rs:86-167 | from `NeverRun`/`Idle` the caller drives a fresh batch with no waiters, started now, and the state is `Running` of it; on a pending batch it appends exactly one fresh channel and leaves the state and the other batches alone; on a finished batch it takes the value and changes nothing; only the first case starts the operation, and the state is `Running` afterwards |
| Throttle.Deliver | crates/sdk/src/throttle.rs:123-125 | every waiter's channel receives the value; channels not in the list keep what they had |
| Throttle.FinishStep | crates/sdk/src/throttle.rs:120-131 | completing a pending batch makes it `Finished(value)` and gives every queued waiter that value, changing nothing else; completing a finished batch is flagged ("completed twice") and changes nothing |
| Throttle.SettleStep | crates/sdk/src/throttle.rs:133-135 | the throttle becomes `Idle` with `last_run` equal to the driver's decision time; nothing else changes |
| Throttle.Await | crates/sdk/src/throttle.rs:79-81 | a taken value is ready at once; a joiner is ready exactly when its channel has received; a driver is ready exactly when its batch has finished |
| Throttle.DecidePreservesInv | crates/sdk/src/throttle.rs:86-167 | deciding keeps the invariant: one start per batch, `NeverRun` exactly before the first batch, only the latest batch pending, fresh and distinct waiter channels |
| Throttle.FinishPreservesInv | crates/sdk/src/throttle.rs:120-131 | completion keeps the invariant |
| Throttle.SettlePreservesInv | crates/sdk/src/throttle.rs:133-135 | settling the finished running batch keeps the invariant |
| Throttle.JoinersGetTheDriversValue | crates/sdk/src/throttle.rs:119-153 | a caller that joins a pending batch waits until the driver completes, and then it and the driver both have the driver's value |
| Throttle.NextDriverWaitsForInterval | crates/sdk/src/throttle.rs:93-111 | from `Idle`, the next caller drives, and it runs no earlier than `interval` after the previous driver's decision |
| Throttle.ExecutionsCanBeCloserThanInterval | crates/sdk/src/throttle.rs:95-135 | with a 1000 ms interval, batches decided at 0, 500 and 1200 ms run at 1000 and 1500 ms: two executions closer than the interval |
| Throttle.Apply | crates/sdk/src/throttle.rs:86-167 | any step the code can take keeps the invariant and never removes a batch; a decision always leaves the throttle `Running` |
| Throttle.Run | crates/sdk/src/throttle.rs:86-167 | every schedule of decide/finish/settle steps keeps the invariant |
| Throttle.NeverReturnsToNeverRun | crates/sdk/src/throttle.rs:34-36 | once a throttle has left `NeverRun`, no schedule of steps brings it back |
| Throttle.NeverRunUntilFirstDecision | crates/sdk/src/throttle.rs:34-36 | from a new throttle the state is `NeverRun` exactly as long as no caller has decided |
| Throttle.Throttle.constructor | crates/sdk/src/throttle.rs:67-73 | the fields hold the initial snapshot and the given interval |
| Throttle.Throttle.Decide | crates/sdk/src/throttle.rs:86-166 | overwrites the state in place exactly as `DecideStep` describes, keeping the invariant |
| Throttle.Throttle.Finish | crates/sdk/src/throttle.rs:120-131 | drains the waiter list in a loop, sending the value to each channel, then marks the batch `Finished`, exactly as `FinishStep` describes |
| Throttle.Throttle.Settle | crates/sdk/src/throttle.rs:133-135 | sets the state to `Idle{last_run: start}` as `SettleStep` describes |
| Throttle.DecisionsKeepTheBatchPending | crates/sdk/src/throttle.rs:140-153 | while a batch is pending, any run of other callers' decisions leaves it running and pending |
| Throttle.DriverFinishesItsBatchOnce | crates/sdk/src/throttle.rs:104-131 | a caller that finds the throttle not running drives a batch that is still running and pending when it completes, whatever others decide meanwhile, so the completed-twice branch is never taken |
| Throttle.Throttle.Complete | crates/sdk/src/throttle.rs:119-137 | the driver's whole completion block: the batch ends `Finished(value)` and the throttle `Idle` at its start; the completed-twice case cannot occur |
| Throttle.FirstTwoCallers | crates/sdk/src/throttle.rs:221-230 | the first caller runs at once and gets 0; the second drives the next batch, due at 1000 ms |
| Throttle.ThrottlesRequests | crates/sdk/src/throttle.rs:199-231 | two simultaneous callers get 0 and 1, and the second execution happens at 1000 ms |
| Throttle.RequestsArePooledDuringThrottling | crates/sdk/src/throttle.rs:233-271 | five simultaneous callers get `[0, 1, 1, 1, 1]`, and the operation runs exactly twice |
| LazyState.ConnectorState.constructor | crates/sdk-core/src/state.rs:42-55 | a connector state starts with an empty cell and no attempt, holding the given setup |
| LazyState.ServerState.constructor | crates/sdk-core/src/state.rs:42-55 | a new server state holds the configuration and registry given, and a fresh, empty cell |
| LazyState.ServerState.Configuration | crates/sdk-core/src/state.rs:57-60 | returns exactly the configuration passed to `new`; it reads no mutable state |
| LazyState.ServerState.Metrics | crates/sdk-core/src/state.rs:79-82 | returns the registry passed to `new` |
| LazyState.ServerState.State | crates/sdk-core/src/state.rs:62-77 | on a set cell, returns the cached value without calling `try_init_state`; on an empty cell, calls it once with the stored configuration and registry, caches a success and leaves the cell empty on failure |
| LazyState.ServerState.Clone | crates/sdk-core/src/state.rs:23-38 | a clone shares the cell and the registry and copies the configuration |
| LazyState.InitServerState | crates/sdk-core/src/state.rs:85-93 | propagates the parse error; on success the server state holds the parsed configuration and an empty cell, and `try_init_state` has not been called |
| LazyState.GetOrTryInit | crates/sdk-core/src/state.rs:66-77 | one call calls `try_init_state` exactly when the cell is empty; a set cell answers its value and stays; an empty cell returns the outcome; afterwards the cell holds a value exactly when the call succeeded, and it is the returned one |
| LazyState.Serve | crates/sdk-core/src/state.rs:62-77 | a run of calls returns one result per call, and makes no more attempts than calls |
| LazyState.ClonesShareTheCell | crates/sdk-core/src/state.rs:23-77 | once one clone has initialised the state, another clone returns the same value |
| LazyState.RetryAfterFailure | crates/sdk-core/src/state.rs:66-77 | a failed initialisation is returned and retried by the next call; after a success later calls return it without trying again |
| LazyState.FirstOk | crates/sdk-core/src/state.rs:66-77 | the index of the first successful outcome: every outcome before it failed |
| LazyState.CachedValueNeverChanges | crates/sdk-core/src/state.rs:67-76 | over any run of calls on a set cell, the cell never changes, every call returns the cached value, and nothing is retried |
| LazyState.RetryUntilFirstSuccess | crates/sdk-core/src/state.rs:62-77 | from an empty cell every call up to the first success makes one attempt and returns its error; the first success is cached and returned by all later calls; the attempts number the failures plus one |
| ConnectorErrors.InitializationError.Display | crates/sdk/src/connector/error.rs:109-113 | the text is `error initializing connector state: ` followed by the boxed error's message, and nothing else |
| ConnectorErrors.FetchMetricsError.New | crates/sdk/src/connector/error.rs:125-127 | the new error holds the boxed error and `null` details |
| ConnectorErrors.FetchMetricsError.WithDetails | crates/sdk/src/connector/error.rs:128-133 | keeps the boxed error, replaces the details |
| ConnectorErrors.FetchMetricsError.IntoResponse | crates/sdk/src/connector/error.rs:136-149 | status 500; the body is the error's message with the stored details |
| ConnectorErrors.FetchMetricsError.Display | crates/sdk/src/connector/error.rs:119-121 | `error fetching metrics: ` followed by the message the response carries |
| ConnectorErrors.HealthError.New | crates/sdk/src/connector/error.rs:161-163 | the new error holds the boxed error and `null` details |
| ConnectorErrors.HealthError.WithDetails | crates/sdk/src/connector/error.rs:164-169 | keeps the boxed error, replaces the details |
| ConnectorErrors.HealthError.IntoResponse | crates/sdk/src/connector/error.rs:172-185 | status 503; the body is the error's message with the stored details |
| ConnectorErrors.HealthError.Display | crates/sdk/src/connector/error.rs:155-157 | `error checking health status: ` followed by the message the response carries |
| ConnectorErrors.SchemaError.New | crates/sdk/src/connector/error.rs:197-199 | the new error (also `From<Box<dyn Error>>`) holds the boxed error and `null` details |
| ConnectorErrors.SchemaError.WithDetails | crates/sdk/src/connector/error.rs:200-205 | keeps the boxed error, replaces the details |
| ConnectorErrors.SchemaError.IntoResponse | crates/sdk/src/connector/error.rs:214-227 | status 500; the body is the error's message with the stored details |
| ConnectorErrors.SchemaError.Display | crates/sdk/src/connector/error.rs:191-193 | `error retrieving the schema: ` followed by the message the response carries |
| ConnectorErrors.QueryError.New | crates/sdk/src/connector/error.rs:254-256 | `Other` around the boxed error with `null` details |
| ConnectorErrors.QueryError.NewInvalidRequest | crates/sdk/src/connector/error.rs:257-262 | `InvalidRequest` with the message and `null` details |
| ConnectorErrors.QueryError.NewUnprocessableContent | crates/sdk/src/connector/error.rs:263-268 | `UnprocessableContent` with the message and `null` details |
| ConnectorErrors.QueryError.NewUnsupportedOperation | crates/sdk/src/connector/error.rs:269-274 | `UnsupportedOperation` with the message and `null` details |
| ConnectorErrors.QueryError.WithDetails | crates/sdk/src/connector/error.rs:276-289 | same variant, same message or boxed error, and the new details |
| ConnectorErrors.QueryError.IntoResponse | crates/sdk/src/connector/error.rs:298-313 | 400, 422, 501, 500 per variant; a structured variant's stored response is the body unchanged; `Other`'s body is its message with the stored details |
| ConnectorErrors.QueryError.Display | crates/sdk/src/connector/error.rs:233-251 | the variant's prefix followed by the message the response carries |
| ConnectorErrors.ExplainError.New | crates/sdk/src/connector/error.rs:341-343 | `Other` around the boxed error with `null` details |
| ConnectorErrors.ExplainError.NewInvalidRequest | crates/sdk/src/connector/error.rs:344-349 | `InvalidRequest` with the message and `null` details |
| ConnectorErrors.ExplainError.NewUnprocessableContent | crates/sdk/src/connector/error.rs:350-355 | `UnprocessableContent` with the message and `null` details |
| ConnectorErrors.ExplainError.NewUnsupportedOperation | crates/sdk/src/connector/error.rs:356-361 | `UnsupportedOperation` with the message and `null` details |
| ConnectorErrors.ExplainError.WithDetails | crates/sdk/src/connector/error.rs:362-376 | same variant, same message or boxed error, and the new details |
| ConnectorErrors.ExplainError.IntoResponse | crates/sdk/src/connector/error.rs:385-400 | 400, 422, 501, 500 per variant; a structured variant's stored response is the body unchanged; `Other`'s body is its message with the stored details |
| ConnectorErrors.ExplainError.Display | crates/sdk/src/connector/error.rs:320-338 | the variant's prefix followed by the message the response carries |
| ConnectorErrors.MutationError.New | crates/sdk/src/connector/error.rs:436-438 | `Other` around the boxed error with `null` details |
| ConnectorErrors.MutationError.NewInvalidRequest | crates/sdk/src/connector/error.rs:439-444 | `InvalidRequest` with the message and `null` details |
| ConnectorErrors.MutationError.NewUnprocessableContent | crates/sdk/src/connector/error.rs:445-450 | `UnprocessableContent` with the message and `null` details |
| ConnectorErrors.MutationError.NewUnsupportedOperation | crates/sdk/src/connector/error.rs:451-456 | `UnsupportedOperation` with the message and `null` details |
| ConnectorErrors.MutationError.NewConflict | crates/sdk/src/connector/error.rs:457-462 | `Conflict` with the message and `null` details |
| ConnectorErrors.MutationError.NewConstraintNotMet | crates/sdk/src/connector/error.rs:463-468 | `ConstraintNotMet` with the message and `null` details |
| ConnectorErrors.MutationError.WithDetails | crates/sdk/src/connector/error.rs:469-489 | same variant, same message or boxed error, and the new details |
| ConnectorErrors.MutationError.IntoResponse | crates/sdk/src/connector/error.rs:498-515 | 400, 422, 501, 409, 403, 500 per variant; a structured variant's stored response is the body unchanged; `Other`'s body is its message with the stored details |
| ConnectorErrors.MutationError.Display | crates/sdk/src/connector/error.rs:407-432 | the variant's prefix followed by the message the response carries |
| ConnectorErrors.QueryWithDetailsLastWins | crates/sdk/src/connector/error.rs:276-289 | setting the details twice keeps only the second; setting back the old details restores the error |
| ConnectorErrors.ExplainWithDetailsLastWins | crates/sdk/src/connector/error.rs:362-376 | setting the details twice keeps only the second; setting back the old details restores the error |
| ConnectorErrors.MutationWithDetailsLastWins | crates/sdk/src/connector/error.rs:469-489 | setting the details twice keeps only the second; setting back the old details restores the error |
| ConnectorErrors.QueryStatusIgnoresDetails | crates/sdk/src/connector/error.rs:298-313 | details never change the status and always reach the body; the status is a server error exactly for `Other` and `UnsupportedOperation`, a client error otherwise |
| ConnectorErrors.ExplainStatusIgnoresDetails | crates/sdk/src/connector/error.rs:385-400 | details never change the status and always reach the body; the status is a server error exactly for `Other` and `UnsupportedOperation`, a client error otherwise |
| ConnectorErrors.MutationStatusIgnoresDetails | crates/sdk/src/connector/error.rs:498-515 | details never change the status and always reach the body; the status is a server error exactly for `Other` and `UnsupportedOperation`, a client error otherwise |
| Text.NatToString | crates/sdk/src/connector/error.rs:100 | the decimal text of a number is non-empty, all digits, and has no leading zero unless the number is 0 |
| Text.DecimalRoundTrip | crates/sdk/src/connector/error.rs:100 | reading the decimal text back gives the number |
| Text.NatToStringInjective | crates/sdk/src/connector/error.rs:100 | different numbers render differently |
| Text.EscapeChar | crates/sdk/src/connector/error.rs:99 | a character is escaped (begins with a backslash) exactly when it is a quote, a backslash, or one of the escaped controls; an escape never begins with a bare quote |
| Text.EscapedChar | crates/sdk/src/connector/error.rs:99 | the character after a backslash names the character whose escape it is |
| Text.Escape | crates/sdk/src/connector/error.rs:99 | the escaped text is never shorter, and every quote in it follows a backslash |
| Text.Quoted | crates/sdk/src/connector/error.rs:99 | the `Debug` text of a string begins and ends with a double quote |
| Text.UnescapeEscape | crates/sdk/src/connector/error.rs:99 | reading the escaped text back gives the original string |
| Text.QuotedInjective | crates/sdk/src/connector/error.rs:99 | different keys quote differently |
| ConfigErrors.SegmentText | crates/sdk/src/connector/error.rs:96-103 | a segment renders inside `[` and `]` |
| ConfigErrors.QuotedRoundTrip | crates/sdk/src/connector/error.rs:99 | a quoted key reads back as the key |
| ConfigErrors.ParseDecimal | crates/sdk/src/connector/error.rs:100 | a number read back is below its bound |
| ConfigErrors.DecimalParseRoundTrip | crates/sdk/src/connector/error.rs:100 | the text of an index below the bound reads back as that index |
| ConfigErrors.SegmentRoundTrip | crates/sdk/src/connector/error.rs:96-103 | every rendered segment, key or index, reads back as itself |
| ConfigErrors.LocatedText | crates/sdk/src/connector/error.rs:38-50 | the text is the file path and a colon, the line's digits, a colon and the column's digits, then `: ` and the message, and nothing else |
| ConfigErrors.SplitAt | crates/sdk/src/connector/error.rs:39-50 | a split is the text before and after one separator |
| ConfigErrors.SplitAtFirst | crates/sdk/src/connector/error.rs:39-50 | the split falls at the first separator |
| ConfigErrors.LocatedRoundTrip | crates/sdk/src/connector/error.rs:39-50 | `path:line:column: message` reads back as the located error when the path holds no colon |
| ConfigErrors.PathText | crates/sdk/src/connector/error.rs:63-65 | every segment adds at least four characters; a non-empty path text opens with a dot and closes with a bracket |
| ConfigErrors.PathTextSnoc | crates/sdk/src/connector/error.rs:63-65 | one more segment adds its dot and its text at the end |
| ConfigErrors.NodeText | crates/sdk/src/connector/error.rs:60-69 | the text is the file path and `, at `, then the path text, then `: ` and the message, and nothing else |
| ConfigErrors.NodesText | crates/sdk/src/connector/error.rs:75-86 | the text of a list of nodes is empty exactly when the list is |
| ConfigErrors.NodesTextStartsWithFirst | crates/sdk/src/connector/error.rs:75-80 | the text of a non-empty list opens with the first node's text |
| ConfigErrors.NodesTextSnoc | crates/sdk/src/connector/error.rs:75-86 | one more node adds `, ` and its text at the end |
| ConfigErrors.WriteNode | crates/sdk/src/connector/error.rs:60-69 | the loop writes `path, at `, then `.segment` for each segment, then `: message` |
| ConfigErrors.WriteNodes | crates/sdk/src/connector/error.rs:75-86 | the loop writes the nodes separated by `, `, with nothing before the first or after the last; no nodes give the empty text |
| ConfigErrors.PathTextAppend | crates/sdk/src/connector/error.rs:63-65 | the path text of a concatenation is the concatenation of the path texts |
| ConfigErrors.PathTextOfOne | crates/sdk/src/connector/error.rs:63-65 | each segment contributes exactly a dot and its own text |
| ConfigErrors.EmptyPathNode | crates/sdk/src/connector/error.rs:60-69 | a node with an empty path still renders `, at ` directly followed by `: ` |
| ConfigErrors.NodesTextAppend | crates/sdk/src/connector/error.rs:75-86 | two non-empty lists of nodes render as their texts joined by a single `, ` |
| ConfigErrors.ParseErrorText | crates/sdk/src/connector/error.rs:16-28 | the text is its kind's prefix (`error parsing configuration: `, `error validating configuration: `, `could not find configuration file: `, or `error processing configuration: ` for an I/O or other error) followed by exactly the payload's own text: the located error's, the invalid nodes', the path, or the error's display |
| ConfigErrors.TextOpensWithKind | crates/sdk/src/connector/error.rs:16-28 | the first eight characters of a text are those of its kind's prefix |
| ConfigErrors.FirstEightNameTheKind | crates/sdk/src/connector/error.rs:16-28 | two prefixes that agree on their first eight characters belong to the same kind, an I/O error and any other error counting as one |
| ConfigErrors.ParseErrorKindIsVisible | crates/sdk/src/connector/error.rs:16-28 | two equal texts come from the same kind of configuration error, except that an I/O error and any other error look alike |
| ConfigErrors.IoAndOtherRenderAlike | crates/sdk/src/connector/error.rs:24-27 | an I/O error and any other error with the same message render alike |
| DefaultMain.ExpectedAuthHeader | crates/sdk/src/default_main.rs:341-345 | there is an expected header exactly when a secret is set and `Bearer <secret>` is a valid header value, and it is that text |
| DefaultMain.Authorize | crates/sdk/src/default_main.rs:347-375 | a request passes exactly when its header, present or absent, equals the expected one; otherwise it gets 401 `Internal error` with cause `Bearer token does not match.` |
| DefaultMain.SecretAdmitsExactlyItsBearer | crates/sdk/src/default_main.rs:341-353 | with a usable secret, exactly the header `Bearer <secret>` passes |
| DefaultMain.NoUsableSecretAdmitsOnlyMissingHeader | crates/sdk/src/default_main.rs:341-352 | with no secret, or one that is not a valid header value, only requests without an `Authorization` header pass |
| DefaultMain.NoWhitespaceOrCaseTolerance | crates/sdk/src/default_main.rs:351-353 | a lower-case scheme, a doubled space or a trailing space is rejected |
| DefaultMain.LookupPath | crates/sdk/src/default_main.rs:307-319 | a route found for a path has that path and is in the table; none is found only if no route has the path |
| DefaultMain.LookupNeedsThePath | crates/sdk/src/default_main.rs:307-319 | a path with no route has no route for any method |
| DefaultMain.AddRoute | crates/sdk/src/default_main.rs:308-319 | for a path not routed before (the only kind `create_router` adds): every lookup, by path or by path and method, finds the earlier routes first, and the new route only when none of them matches and it serves the method; the new route sits under no layer; the fallback keeps its layers |
| DefaultMain.NewPathIsUnlayered | crates/sdk/src/default_main.rs:319 | a route for a new path is found for exactly the methods it serves, `GET` and `HEAD` for a `get` route, and a request for that path passes no layer |
| DefaultMain.AddRouteKeepsTheRest | crates/sdk/src/default_main.rs:308-319 | adding a route keeps the layers of every other path and every route found before |
| DefaultMain.LookupWrap | crates/sdk/src/default_main.rs:315-318 | wrapping every route in a layer that keeps paths and methods wraps exactly what each lookup finds |
| DefaultMain.LimitBodies | crates/sdk/src/default_main.rs:315 | every request, routed or not, passes the body limit afterwards, and keeps its auth layer; the paths and methods routed stay the same, in both directions |
| DefaultMain.RequireAuth | crates/sdk/src/default_main.rs:316-318 | every request, routed or not, passes the auth check afterwards, and keeps its body limit; the paths and methods routed stay the same, in both directions |
| DefaultMain.AddRoutesKeeps | crates/sdk/src/default_main.rs:308-314 | routes found before a run of `.route` calls are still found, unchanged |
| DefaultMain.AddRoutesFinds | crates/sdk/src/default_main.rs:308-314 | routes for distinct new paths are each found afterwards for every method they serve, and every other new path stays unrouted |
| DefaultMain.ApiRoutesAreRouted | crates/sdk/src/default_main.rs:307-314 | the seven API routes answer their paths for every method they serve, `HEAD` included for the `GET` routes, and none of them is `/health` |
| DefaultMain.LayeredApiFacts | crates/sdk/src/default_main.rs:307-318 | after both layers every path, routed or not, sits behind the auth check and the 100 MiB limit, and the API routes are still found for every method they serve |
| DefaultMain.CreateRouter | crates/sdk/src/default_main.rs:307-319 | every path but `/health`, routed or not, sits behind the auth check and the 100 MiB limit, and `/health` behind neither; the seven API routes are found for every method they serve; `/health` answers `GET` and `HEAD` and no other method |
| DefaultMain.Lookup | crates/sdk/src/default_main.rs:307-319 | a found route has the requested path and serves the method, a `GET` route also serving `HEAD`; none is found only if no route for the path serves it |
| DefaultMain.LookupFinds | crates/sdk/src/default_main.rs:307-319 | the first route that has the path and serves the method is the one found |
| DefaultMain.Admit | crates/sdk/src/default_main.rs:307-319 | a request is rejected with the 401 reply exactly when its path sits behind the auth check and its header is wrong; otherwise it is too large exactly when its path has a limit it exceeds; only then is it routed: 404 for a path with no route, 405 for a routed path without that method, and dispatch to the route found otherwise |
| DefaultMain.HealthIsNeverAuthenticated | crates/sdk/src/default_main.rs:319 | `GET` and `HEAD /health` are dispatched with any header or none and any body size; any other method on `/health` gets 405 without any check |
| DefaultMain.OnlyHealthWithoutTheToken | crates/sdk/src/default_main.rs:307-319 | without the expected header every request but those to `/health`, whether to an API route, with the wrong method, or to an unknown path, is rejected with 401 whatever its size |
| DefaultMain.UnknownPathsAreLayered | crates/sdk/src/default_main.rs:315-318 | with the token, a request for an unknown path gets 413 when it exceeds the limit and 404 otherwise |
| DefaultMain.InitServerState | crates/sdk/src/default_main.rs:288-296 | a parse error is returned before `try_init_state` runs; an initialisation error is returned as such; otherwise the state holds exactly the parsed configuration, the produced state and the registry `try_init_state` left |
| DefaultMain.ParseFailureSkipsInit | crates/sdk/src/default_main.rs:293 | after a parse failure the outcome does not depend on `try_init_state` |
| DefaultMain.StartsIffBothSucceed | crates/sdk/src/default_main.rs:293-295 | the server starts exactly when parsing and initialisation both succeed |
| JsonResponses.From | crates/sdk/src/json_response.rs:19-23 | `From` wraps the value unserialised |
| JsonResponses.IntoValue | crates/sdk/src/json_response.rs:30-39 | a value is returned unchanged; bytes are deserialised, and a failure becomes the caller's error |
| JsonResponses.Body | crates/sdk/src/json_response.rs:44-54 | pre-serialised bytes are the body verbatim; a value's body is its serialisation |
| JsonResponses.IntoResponse | crates/sdk/src/json_response.rs:42-56 | both forms answer 200 with `Content-Type: application/json` and that body |
| JsonResponses.ServedBodyReadsBack | crates/sdk/src/json_response.rs:30-56 | reading a served body back gives what `into_value` gives, provided serde reads back what it writes |
| JsonResponses.ServedVerbatim | crates/sdk/src/json_response.rs:46-53 | a pre-serialised response carries exactly its bytes, and differs from a value response only in its body |
| Schema.GetCapabilities | crates/sdk-core/src/schema.rs:9-16 | an unserialised response holding the SDK's version and the connector's own capabilities (the same as crates/sdk/src/default_main.rs:382-389) |
| Schema.Truncate | crates/sdk-core/src/schema.rs:48-52 | the stored bytes are a prefix of the input whose length is the capacity, or the whole input when it fits: the longest prefix that fits |
| Schema.Writer.constructor | crates/sdk-core/src/schema.rs:43-44 | an empty sink of the given capacity |
| Schema.Writer.WriteAll | crates/sdk-core/src/schema.rs:48-63 | the sink holds the old content and the new bytes up to its capacity; the write succeeds exactly when they all fit, and fails with the sink's error otherwise |
| Schema.Attempted | crates/sdk-core/src/schema.rs:48-52 | no more writes are attempted than there are pieces, and at least one when fewer |
| Schema.FewerAttemptsOnlyAfterAFailure | crates/sdk-core/src/schema.rs:48-52 | fewer writes than pieces are attempted only when one of them failed |
| Schema.TruncateFull | crates/sdk-core/src/schema.rs:48-52 | once the sink is full, writing more changes nothing |
| Schema.WriteEachTruncates | crates/sdk-core/src/schema.rs:48-52 | stopping at the first failed write leaves exactly the prefix of the whole output that fits, and every write succeeds exactly when the whole output fits |
| Schema.WriteJsonResponse | crates/sdk-core/src/schema.rs:57-65 | a value is written as its serialisation, pre-serialised bytes as they are, in one write |
| Schema.PrintJsonSchemaAndCapabilities | crates/sdk-core/src/schema.rs:43-55 | the five pieces are written in order; the first failed write stops the rest; the sink and the outcome are those of writing the pieces one at a time |
| Schema.LiteralPiecesAreTheirText | crates/sdk-core/src/schema.rs:48-52 | the literal pieces are `{"schema":`, `,"capabilities":` and `}` followed by a newline |
| Schema.ConcatOfFive | crates/sdk-core/src/schema.rs:48-52 | five written pieces form their concatenation |
| Schema.Output | crates/sdk-core/src/schema.rs:48-52 | the full output is 28 bytes of keys and braces longer than the two bodies |
| Schema.OutputLayout | crates/sdk-core/src/schema.rs:48-52 | the output opens with `{"schema":` and the schema's body, then `,"capabilities":`; it ends with the capabilities' body and then `}` and a newline |
| Schema.OutputIsConcat | crates/sdk-core/src/schema.rs:48-52 | the five pieces, the keys, bodies and closing in writing order, concatenate to the output |
| Schema.PrintedPrefix | crates/sdk-core/src/schema.rs:43-55 | the sink ends holding the prefix of that output that fits, and the printer succeeds exactly when all of it fits |
| Schema.PrintSchemaAndCapabilities | crates/sdk-core/src/schema.rs:19-38 | a parse or schema failure is returned with nothing written; otherwise the sink holds what fits of the full output, and a failed write is returned as the boxed error |

## Left out

- Throttle.DecideStep: the lock order of throttle.rs:120-135 is not modelled. The driver
  keeps the batch guard of :120 while it waits for the outer lock at :134, and `decide`
  keeps the outer guard of :87 while it waits for the batch lock at :145. So a caller
  arriving between the finish and the settle deadlocks with the driver, and no later caller
  returns. A dropped driver future leaves the state `Running` over a finished batch for good.
  The model lets such a caller take the finished value instead. That is sound for the
  invariant lemmas, and it is the `Finished` arm as written.
- Concurrency in the throttle: the tokio `Mutex`es, task scheduling, the `oneshot` channels
  and lock ordering. Each decide, finish and settle is one atomic step. Of the interleavings,
  only the window between finish and settle is modelled.
- The `receiver.await.unwrap()` panic at throttle.rs:153, and sends to dropped waiters
  (throttle.rs:124). Every channel is modelled as receiving its value.
- Real clocks: `Instant` and `sleep_until` are a `nat` clock and a wake-up time. The
  `Throttle.Throttle` methods take the time as a parameter.
- The single-flight concurrency of `OnceCell::get_or_try_init`: only the sequential cache and
  retry are modelled.
- LazyState.ServerState.State: the setup object is a function of the configuration, the
  registry and an abstract world value, not an `async` trait object. Metrics registered
  through the cloned registry are not tracked.
- serde and axum encoding: `ser` and `deser` are total function parameters. The encoding
  of error bodies and the failure of `serde_json::to_writer` itself are not modelled.
- Schema.WriteJsonResponse: `serde_json::to_writer` is modelled as a single `write_all` of
  the serialised value. The partial writes it may issue internally are not modelled.
- Schema.Writer.WriteAll: the sink fails only by running out of capacity. Its ghost `writes`
  counts calls without recording the bytes requested.
- Text.EscapeChar: Rust's `Debug` escapes other control and non-printable characters as
  `\u{…}`. Only `\"`, `\\`, `\n`, `\r`, `\t` and `\0` are modelled.
- `HeaderValue::from_str` is a predicate parameter, and `ndc_models::VERSION` a string
  parameter.
- HTTP methods in `DefaultMain`: they are `GET`, `HEAD`, `POST` and one `Other` standing for
  every other method, which no route of `create_router` serves. That axum's answer to `HEAD`
  drops the body of the `GET` handler is not modelled.
- The responses of routing: axum's 404 and 405 bodies, tower-http's 413 response, and the
  tracing layer. `DefaultMain.Admit` gives only the decision.
- DefaultMain.Admit: the body size is the declared `Content-Length`. A body with no declared
  length that outgrows the limit while it is read, and fails then, is not modelled.
- ConfigErrors.NodesText: does not state in its own contract that the text ends with the last
  node's; `ConfigErrors.NodesTextSnoc` states it.
- The conversion of `ParseError` and `InitializationError` into the SDK's own error in
  `DefaultMain.InitServerState`. `StartupError` only says which step failed.
- The three-argument `try_init_state` of crates/sdk/src/connector.rs:147-152. Its callers
  pass two arguments, and the two-argument form is modelled.
- `ErrorResponse` of crates/sdk/src/default_main.rs is not defined in the files modelled.
  The rejection in `DefaultMain.Rejection` holds only its status, message and details.
- The formatter's own `fmt::Error`: it never fires when writing into a `String`.
- `serve`, the CLI, the `ndc-test` adapters, `check_health`, `fetch_metrics`, the tracing
  set-up, and the fixture connectors: these are I/O and configuration, not decisions.
- A `Registry` in `DefaultMain` is a value listing the metrics registered in it. The
  registration side effects of `prometheus` are not modelled.
