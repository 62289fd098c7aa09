/**
 The data exchanged between the peeky test runner, its workers and the
 observers registered with `onEvent`. Durations are omitted: the runner only
 passes them through to the console.
 */
module Types {

  datatype Option<+T> = None | Some(value: T)

  /** One test of a suite, as enumerated by the worker when the suite starts. */
  datatype TestInfo = TestInfo(id: string, title: string)

  /** A suite as reported by the worker (`TestSuiteInfo`). */
  datatype SuiteInfo = SuiteInfo(
    id: string,
    title: string,
    filePath: string,
    tests: seq<TestInfo>,
    errors: int)

  /** The six kinds of worker events, each with the payload fields the runner reads. */
  datatype Event =
    | BuildFailed(message: string)
    | BuildCompleted(testFilePath: string)
    | SuiteStart(suite: SuiteInfo)
    | SuiteCompleted(suiteId: string, errors: int)
    | TestError(suiteId: string, testId: string, message: string, stack: string)
    | TestSuccess(suiteId: string, testId: string)

  /** The line the runner writes to the console for one event, once ids are resolved. */
  datatype Report =
    | BuildFailedLine(message: string)
    | BuiltLine(relativePath: string)
    | SuiteStartLine(title: string)
    | SuiteSummaryLine(passed: int, total: nat, title: string, failed: bool)
    | TestErrorLine(title: string, message: string, stack: string)
    | TestSuccessLine(title: string)

  datatype Stats = Stats(errorSuiteCount: int)

  /** What a worker returns for one test file. */
  datatype RunResult = RunResult(suites: seq<SuiteInfo>, stats: Stats)

  /** One job as seen from the runner: the events the worker emits, in order, then its result. */
  datatype WorkerRun = WorkerRun(events: seq<Event>, result: RunResult)

  /** An entry of the test file index, keyed by path relative to the target directory. */
  datatype TestFile = TestFile(absolutePath: string)

  /** The identity of a function registered with `onEvent`. */
  datatype HandlerId = HandlerId(n: nat)
}
