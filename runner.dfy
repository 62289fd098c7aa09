/**
 The bookkeeping of the peeky test runner (`setupRunner`): the list of
 registered event handlers, the per-job event relay with its suite map, and
 the post-processing of a worker's result in `runTestFile`.

 The worker pool is a parameter: `worker(entry)` is what the pool's worker
 emits (the events, in order) and returns for the test file at `entry`. The
 path library's `relative` is the constant `relative` fixed at setup. The
 calls made to handlers and the lines written to the console are recorded in
 two ghost logs, `dispatched` and `console`.
 */
module Runner {
  import opened Types
  import opened RelaySpec
  import opened DispatchSpec

  /** Every suite of `suites`, in order, with its file path made relative to `target`. */
  function Relativized(target: string, rel: (string, string) -> string, suites: seq<SuiteInfo>): (r: seq<SuiteInfo>)
    ensures |r| == |suites|
    ensures forall i :: 0 <= i < |suites| ==>
      && r[i].filePath == rel(target, suites[i].filePath)
      && r[i].(filePath := suites[i].filePath) == suites[i]
  {
    if suites == [] then []
    else
      var n := |suites| - 1;
      Relativized(target, rel, suites[..n]) + [suites[n].(filePath := rel(target, suites[n].filePath))]
  }

  /**
   Sequence concatenation is associative. Dafny knows this; stating it as a
   lemma and calling it in `RelayNext` only keeps that proof cheap for the solver.
   */
  lemma AppendAssoc<T>(a: seq<T>, b: seq<T>, c: seq<T>)
    ensures (a + b) + c == a + (b + c)
  {
  }

  class Runner {
    const targetDirectory: string
    /** The test file index, by path relative to the target directory. */
    const files: map<string, TestFile>
    const relative: (string, string) -> string
    var handlers: seq<HandlerId>
    /** Every call `handler(eventType, payload)` made so far, in order. */
    ghost var dispatched: seq<(HandlerId, Event)>
    /** Every line written to the console by a relay so far, in order. */
    ghost var console: seq<Report>

    /** `setupRunner`: no handler is registered yet. */
    constructor (targetDirectory: string, files: map<string, TestFile>, relative: (string, string) -> string)
      ensures this.targetDirectory == targetDirectory && this.files == files && this.relative == relative
      ensures handlers == [] && dispatched == [] && console == []
    {
      this.targetDirectory := targetDirectory;
      this.files := files;
      this.relative := relative;
      handlers := [];
      dispatched := [];
      console := [];
    }

    /** `onEvent`: registers `h` after every handler registered before it. */
    method OnEvent(h: HandlerId)
      modifies this`handlers
      ensures handlers == old(handlers) + [h]
    {
      handlers := handlers + [h];
    }

    /** The handler-clearing part of `close`: afterwards no handler is registered. */
    method Close()
      modifies this`handlers
      ensures handlers == []
    {
      handlers := [];
    }

    /** The end of the `on` callback: calls every registered handler with `e`, in registration order. */
    method Forward(e: Event)
      modifies this`dispatched
      ensures dispatched == old(dispatched) + Dispatch(handlers, e)
    {
      var i := 0;
      while i < |handlers|
        invariant 0 <= i <= |handlers|
        invariant dispatched == old(dispatched) + Dispatch(handlers[..i], e)
      {
        assert handlers[..i + 1][..i] == handlers[..i];
        dispatched := dispatched + [(handlers[i], e)];
        i := i + 1;
      }
      assert handlers[..i] == handlers;
    }

    /**
     `runTestFileWorker`: runs one job and returns the worker's result; the
     events the worker emits meanwhile go through a relay of the job's own.
     */
    method RunTestFileWorker(entry: string, worker: string -> WorkerRun) returns (result: RunResult)
      requires JobResolvable(worker(entry).events)
      modifies this`dispatched, this`console
      ensures result == worker(entry).result
      ensures dispatched == old(dispatched) + DispatchAll(handlers, worker(entry).events)
      ensures console == old(console) + JobReports(worker(entry).events, targetDirectory, relative)
    {
      var run := worker(entry);
      RelayJob(run.events);
      result := run.result;
    }

    /** The `on` callback of one job, called for each event `es` in the order the worker emits them. */
    method RelayJob(es: seq<Event>)
      requires JobResolvable(es)
      modifies this`dispatched, this`console
      ensures dispatched == old(dispatched) + DispatchAll(handlers, es)
      ensures console == old(console) + JobReports(es, targetDirectory, relative)
    {
      var relay := new Relay(this);
      var k := 0;
      while k < |es|
        invariant 0 <= k <= |es|
        invariant JobInvariant(relay, es, k, old(dispatched), old(console))
      {
        RelayNext(relay, es, k, old(dispatched), old(console));
        k := k + 1;
      }
      assert es[..k] == es;
    }

    /** After the first `k` events of job `es`, relay and logs agree with the specification. */
    ghost predicate JobInvariant(relay: Relay, es: seq<Event>, k: int, d0: seq<(HandlerId, Event)>, c0: seq<Report>)
      reads this, relay
    {
      && 0 <= k <= |es|
      && JobResolvable(es)
      && relay.runner == this && relay.Valid() && relay.received == es[..k]
      && JobResolvable(es[..k])
      && dispatched == d0 + DispatchAll(handlers, es[..k])
      && console == c0 + JobReports(es[..k], targetDirectory, relative)
    }

    /** The worker reports event `k` of job `es` to the job's relay. */
    method RelayNext(relay: Relay, es: seq<Event>, k: int, ghost d0: seq<(HandlerId, Event)>, ghost c0: seq<Report>)
      requires k < |es| && JobInvariant(relay, es, k, d0, c0)
      modifies relay`suiteMap, relay`received, this`dispatched, this`console
      ensures JobInvariant(relay, es, k + 1, d0, c0)
    {
      JobReportsSnoc(es, k, targetDirectory, relative);
      DispatchAllSnoc(handlers, es, k);
      assert ResolvableAt(es, k);
      AppendAssoc(d0, DispatchAll(handlers, es[..k]), Dispatch(handlers, es[k]));
      AppendAssoc(c0, JobReports(es[..k], targetDirectory, relative), [Resolve(Replay(map[], es[..k]), es[k], targetDirectory, relative)]);
      relay.On(es[k]);
      assert relay.received == es[..k + 1];
    }

    /**
     `runTestFile`: nothing when `relativePath` is not in the file index;
     otherwise the job's result with every suite's file path made relative
     to the target directory.
     */
    method RunTestFile(relativePath: string, worker: string -> WorkerRun) returns (r: Option<RunResult>)
      requires relativePath in files ==> JobResolvable(worker(files[relativePath].absolutePath).events)
      modifies this`dispatched, this`console
      ensures relativePath !in files ==> r == None && dispatched == old(dispatched) && console == old(console)
      ensures relativePath in files ==>
        var run := worker(files[relativePath].absolutePath);
        && r == Some(run.result.(suites := Relativized(targetDirectory, relative, run.result.suites)))
        && dispatched == old(dispatched) + DispatchAll(handlers, run.events)
        && console == old(console) + JobReports(run.events, targetDirectory, relative)
    {
      if relativePath !in files {
        return None;
      }
      var file := files[relativePath];
      var result := RunTestFileWorker(file.absolutePath, worker);
      var suites := result.suites;
      var i := 0;
      while i < |suites|
        invariant 0 <= i <= |suites| == |result.suites|
        invariant forall j :: 0 <= j < i ==>
          suites[j] == result.suites[j].(filePath := relative(targetDirectory, result.suites[j].filePath))
        invariant forall j :: i <= j < |suites| ==> suites[j] == result.suites[j]
      {
        suites := suites[i := suites[i].(filePath := relative(targetDirectory, suites[i].filePath))];
        i := i + 1;
      }
      assert suites == Relativized(targetDirectory, relative, result.suites);
      r := Some(result.(suites := suites));
    }
  }

  /** The relay of one job: the `on` callback and the `suiteMap` it closes over. */
  class Relay {
    const runner: Runner
    var suiteMap: map<string, SuiteInfo>
    /** The events of this job handled so far. */
    ghost var received: seq<Event>

    /** The suite map is the one the events of this job alone produce from an empty map. */
    ghost predicate Valid()
      reads this
    {
      suiteMap == Replay(map[], received)
    }

    /** A job's suite map starts empty. */
    constructor (runner: Runner)
      ensures this.runner == runner && suiteMap == map[] && received == [] && Valid()
    {
      this.runner := runner;
      suiteMap := map[];
      received := [];
    }

    /** Handles one event of this job, then forwards it to every registered handler. */
    method On(e: Event)
      requires Valid() && Resolvable(suiteMap, e)
      modifies this`suiteMap, this`received, runner`dispatched, runner`console
      ensures Valid() && received == old(received) + [e]
      ensures suiteMap == Step(old(suiteMap), e)
      ensures runner.console == old(runner.console) + [Resolve(old(suiteMap), e, runner.targetDirectory, runner.relative)]
      ensures runner.dispatched == old(runner.dispatched) + Dispatch(runner.handlers, e)
    {
      ghost var before := suiteMap;
      var line: Report;
      match e {
        case BuildFailed(message) =>
          line := BuildFailedLine(message);
        case BuildCompleted(path) =>
          line := BuiltLine(runner.relative(runner.targetDirectory, path));
        case SuiteStart(suite) =>
          line := SuiteStartLine(suite.title);
          suiteMap := suiteMap[suite.id := suite];
        case SuiteCompleted(sid, errors) =>
          var suite := suiteMap[sid];
          line := SuiteSummaryLine(|suite.tests| - errors, |suite.tests|, suite.title, errors != 0);
        case TestError(sid, tid, message, stack) =>
          var suite := suiteMap[sid];
          var test := FindTest(suite.tests, tid);
          line := TestErrorLine(test.value.title, message, stack);
        case TestSuccess(sid, tid) =>
          var suite := suiteMap[sid];
          var test := FindTest(suite.tests, tid);
          line := TestSuccessLine(test.value.title);
      }
      assert line == Resolve(before, e, runner.targetDirectory, runner.relative);
      assert suiteMap == Step(before, e);
      runner.console := runner.console + [line];
      received := received + [e];
      assert received[..|received| - 1] == old(received);
      runner.Forward(e);
    }
  }

  /**
   Two jobs whose workers use the same suite id, handled in interleaved
   order: each job's summary line resolves to its own suite.
   */
  method CollidingSuiteIds(runner: Runner, a: SuiteInfo, b: SuiteInfo)
    requires a.id == b.id
    modifies runner`dispatched, runner`console
    ensures |runner.console| == |old(runner.console)| + 4
    ensures runner.console[|old(runner.console)| + 2] == SuiteSummaryLine(|a.tests| - a.errors, |a.tests|, a.title, a.errors != 0)
    ensures runner.console[|old(runner.console)| + 3] == SuiteSummaryLine(|b.tests| - b.errors, |b.tests|, b.title, b.errors != 0)
  {
    var jobA := new Relay(runner);
    var jobB := new Relay(runner);
    jobA.On(SuiteStart(a));
    jobB.On(SuiteStart(b));
    jobA.On(SuiteCompleted(a.id, a.errors));
    jobB.On(SuiteCompleted(b.id, b.errors));
  }
}
