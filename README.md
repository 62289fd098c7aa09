# peeky runner: event relay, handler registry and result post-processing

This project models the bookkeeping part of the peeky test runner's
`setupRunner` (packages/peeky-runner/src/runner.ts). The worker pool is not
modelled. Three stateful pieces are:

- the per-job event relay: the `on` callback that `runTestFileWorker` gives
  to the pool, together with the job-local `suiteMap` it closes over;
- the handler registry: `onEvent` appends to `eventHandlers`, and `close`
  empties it;
- `runTestFile`: it looks up the file index, runs the job and rewrites each
  suite's `filePath` relative to the target directory.

Files:

- `types.dfy` (module `Types`): suites, tests, the six worker event kinds,
  the console line written for each event, run results, file index entries
  and handler identities.
- `relay_spec.dfy` (module `RelaySpec`): the specification of the relay.
  It covers how one event changes the suite map (`Step`), the map after a
  job's events (`Replay`), when an event can be resolved without crashing
  (`Resolvable`), the start-before-reference protocol (`Ordered`), the
  `tests.find` lookup (`FindTest`) and the line written to the console
  (`Resolve`).
- `dispatch_spec.dfy` (module `DispatchSpec`): the log of handler calls that
  forwarding one event (`Dispatch`) or a whole job (`DispatchAll`) produces,
  and what a single handler receives from it (`Received`).
- `runner.dfy` (module `Runner`): the imperative model.
  - Class `Runner` holds the target directory, the file index, the path
    library's `relative`, the handler list, and two ghost logs. The
    `dispatched` log records handler calls. The `console` log records the
    lines the relays write.
  - Class `Relay` holds one job's `suiteMap`.
  - The methods are proved against the specification functions above.

Two external pieces are passed in as parameters rather than modelled:

- The worker pool: `worker(entry)` is the events the worker emits for the
  file at `entry`, in order, together with the result it returns.
- `path.relative`: a function value that the model never interprets.

Behaviour of the code that the model keeps as written:

- An event whose suite id was never started, or whose test id is not in the
  stored suite, is not a reported protocol error. The code dereferences
  `undefined` and throws. Here that is a precondition: `Resolvable` for one
  event, `JobResolvable` for a job. `OrderedIffJobResolvable` proves this is
  exactly the start-before-reference protocol.
- The handler list is not append-only for the runner's lifetime, because
  `close` empties it. `close` has no guard and no "closed" state, so nothing
  about idempotence or calls after close is stated.
- A path missing from the file index makes `runTestFile` return nothing
  (`None`), not an error.

## Model

| member | source | states |
|---|---|---|
| RelaySpec.FindTest | packages/peeky-runner/src/runner.ts:52 | `tests.find` returns nothing exactly when no test has the id. Otherwise it returns the first test with that id. |
| RelaySpec.Step | packages/peeky-runner/src/runner.ts:35-60 | `SUITE_START` stores its suite under its own id and leaves every other entry unchanged. The other five kinds leave the suite map unchanged. |
| RelaySpec.ReplayKeys | packages/peeky-runner/src/runner.ts:32-44 | After a job's events, an id is in the map exactly when it was there before or one of those events started it. From the empty map a job starts with, these are only the job's own starts. |
| RelaySpec.ReplayLatest | packages/peeky-runner/src/runner.ts:44 | The suite stored under an id is the one carried by the last `SUITE_START` of that id. |
| RelaySpec.ReplayUntouched | packages/peeky-runner/src/runner.ts:41-60 | An entry that no event of the job restarts keeps its suite through every other event. |
| RelaySpec.StartedBeforeIffResolvable | packages/peeky-runner/src/runner.ts:45-60 | At each event of a job, the lookups at lines 47, 51-52 and 57-58 succeed exactly when the protocol holds there. The protocol: the suite was started earlier, and for a test event, the last start of that suite lists the test. |
| RelaySpec.OrderedIffJobResolvable | packages/peeky-runner/src/runner.ts:31-60 | A relay whose map starts empty handles a whole job without a failed lookup exactly when the job's events follow the start-before-reference protocol. |
| RelaySpec.ResolveLine | packages/peeky-runner/src/runner.ts:35-60 | `BUILD_FAILED`, and only it, prints a build-failure line, which carries the payload's message. `BUILD_COMPLETED` prints its path relative to the target directory, and `SUITE_START` prints the suite title. `SUITE_COMPLETED` prints the stored suite's title and its test count as total, with passed = total - payload errors, marked failed exactly when errors is non-zero. A test event prints the title of the first test with its id in the stored suite. `TEST_ERROR` also prints its message and stack. |
| RelaySpec.JobReportsAt | packages/peeky-runner/src/runner.ts:31-60 | Line k of a job is event k resolved against the suites that the same job's earlier events stored. |
| DispatchSpec.Dispatch | packages/peeky-runner/src/runner.ts:62-64 | Forwarding one event calls each registered handler once, in registration order, with that event. |
| DispatchSpec.ReceivedDispatch | packages/peeky-runner/src/runner.ts:62-64 | A handler receives one event once for each time it is registered. |
| DispatchSpec.ObserverSeesStream | packages/peeky-runner/src/runner.ts:62-64 | A handler registered once receives every event of a job in the worker's order. A handler that is not registered receives none. |
| DispatchSpec.ReceivedAppend | packages/peeky-runner/src/runner.ts:62-64 | What a handler receives from two consecutive stretches of calls is what it receives from the first, then from the second. |
| Runner.Relativized | packages/peeky-runner/src/runner.ts:81-83 | Every suite is kept, in the same order, with `filePath` replaced by `relative(target, filePath)`. Every other field is unchanged. |
| Runner.Runner.constructor | packages/peeky-runner/src/runner.ts:21-29 | Setup stores the target directory and file index, with no handler registered. |
| Runner.Runner.OnEvent | packages/peeky-runner/src/runner.ts:69-71 | The handler is appended after all earlier handlers, which stay in place. |
| Runner.Runner.Close | packages/peeky-runner/src/runner.ts:89-93 | The handler list is empty afterwards. |
| Runner.Runner.Forward | packages/peeky-runner/src/runner.ts:62-64 | The dispatch log grows by exactly the current handlers, each paired with the event, in order. |
| Runner.Runner.RelayJob | packages/peeky-runner/src/runner.ts:32-66 | Over one job with a fresh relay, the dispatch log grows by every event forwarded to all handlers. The console grows by the job's resolved lines. |
| Runner.Runner.RunTestFileWorker | packages/peeky-runner/src/runner.ts:31-67 | The method returns the worker's result unchanged. Meanwhile its events are relayed and forwarded as in `RelayJob`. |
| Runner.Runner.RunTestFile | packages/peeky-runner/src/runner.ts:73-87 | If the path is not in the file index, it returns nothing and calls nothing. Otherwise it returns the worker's result with the suites relativized, after relaying the job's events. |
| Runner.Relay.constructor | packages/peeky-runner/src/runner.ts:32 | Each job's relay starts with an empty suite map. |
| Runner.Relay.On | packages/peeky-runner/src/runner.ts:34-65 | `On` requires the event's lookups to succeed. The suite map becomes `Step` of the old map, and the console gains the event's resolved line. The event is forwarded to every handler in order. |
| Runner.CollidingSuiteIds | packages/peeky-runner/src/runner.ts:31-48 | Two interleaved jobs that use the same suite id each resolve their summary line against their own suite. |

## Left out

- The worker pool (`workerpool`): `pool.exec`, `pool.terminate`, worker isolation, queueing and parallelism. A job is its worker's event sequence and result, given as a parameter. Each job's events are handled one after the other, with no other job and no `onEvent` call in between. So the case of a handler registered while a job is running is not modelled.
- A worker that throws or a build that rejects the `pool.exec` promise: the `worker` parameter always returns a result.
- Runner.Runner.Forward: handlers are modelled only by their identity, so each call is one entry of the `dispatched` log and always returns. Three cases are not modelled. A handler that throws stops the `for … of` loop at lines 62-64, so the later handlers are skipped. A handler can mutate the shared `payload` object, which for `SUITE_START` is also the suite stored in the suite map. A handler can register another handler during dispatch, and the live loop would then reach it for the current event. Runner.Runner.Forward, Runner.Relay.On and DispatchSpec.ObserverSeesStream hold only for handlers that do none of these.
- Console output formatting (`consola`, `chalk`, the emoji and colours): each printed line is the `Report` value it is built from.
- Durations: they are only passed through and printed.
- `testFiles.destroy()` and `pool.terminate()` in `close`, and file discovery: these are I/O. Only the index lookup `testFiles.files[relativePath]` is kept, as a map.
- The meaning of `path.relative` and `path.join`: `relative` is an uninterpreted parameter, so the model cannot show that the rewritten paths are relative rather than absolute.
- Runner.Relativized: the source assigns each suite object's `filePath` in place. The model rebuilds the suites as values. No other part of the runner holds these objects, so no aliasing is lost.
- `runAllTests` and run-wide aggregation of `errorSuiteCount`: this code is not part of this model. packages/peeky-cli/src/bin.ts, the command line that reads it, is not part of this model either.
