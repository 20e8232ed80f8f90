/** The master together with its worker processes, as asynchronous steps: every worker has a queue of
    commands and a queue of messages, and each step moves one worker or delivers one message. */
module SchedulerProtocol {
  import opened Collections
  import opened SchedulerMaster

  datatype Command = RunTests(files: seq<Test>)
  datatype Message = Ready | TestResult(test: Test) | TestsFinished

  /** A worker is starting up, waits for a command, or is about to run files[next]. */
  datatype Phase = Booting | Idle | Running(files: seq<Test>, next: nat)

  datatype Proc = Proc(phase: Phase, inbox: seq<Command>, outbox: seq<Message>)

  /** `batches` is the batch that each live worker holds from dispatch until the master has seen
      tests_finished ([] for none), `results` the recorded results and `log` all dispatched tests;
      `batches` and `log` are history that no step reads. */
  datatype System = System(
    master: MasterState,
    procs: map<Worker, Proc>,
    results: seq<Test>,
    batches: map<Worker, seq<Test>>,
    log: seq<Test>)

  datatype Step = Boot(w: Worker) | Receive(w: Worker) | RunTest(w: Worker) | Finish(w: Worker) | Deliver(w: Worker)

  predicate Enabled(s: System, step: Step) {
    && step.w in s.procs
    && step.w in s.batches
    && var p := s.procs[step.w];
       match step
       case Boot(_) => p.phase.Booting?
       case Receive(_) => p.phase.Idle? && p.inbox != []
       case RunTest(_) => p.phase.Running? && p.phase.next < |p.phase.files|
       case Finish(_) => p.phase.Running? && p.phase.next == |p.phase.files|
       case Deliver(_) => p.outbox != [] && (p.outbox[0].TestResult? || step.w in s.master.workers)
  }

  function MoveWorker(p: Proc, step: Step): Proc
    requires !step.Deliver?
    requires step.Receive? ==> p.inbox != []
    requires step.RunTest? ==> p.phase.Running? && p.phase.next < |p.phase.files|
  {
    match step
    case Boot(_) => p.(phase := Idle, outbox := p.outbox + [Ready])
    case Receive(_) => p.(phase := Running(p.inbox[0].files, 0), inbox := p.inbox[1..])
    case RunTest(_) => p.(phase := Running(p.phase.files, p.phase.next + 1),
                          outbox := p.outbox + [TestResult(p.phase.files[p.phase.next])])
    case Finish(_) => p.(phase := Idle, outbox := p.outbox + [TestsFinished])
  }

  /** Takes the oldest message of worker w and, for tests_finished, releases what the worker held. */
  function Taken(s: System, w: Worker): System
    requires w in s.procs && s.procs[w].outbox != []
  {
    var p := s.procs[w];
    var s' := s.(procs := s.procs[w := p.(outbox := p.outbox[1..])]);
    match p.outbox[0]
    case Ready => s'
    case TestResult(t) => s'.(results := s.results + [t])
    case TestsFinished => s'.(master := Released(s.master, w), batches := s.batches[w := []])
  }

  /** Gives worker w its next batch, or dismisses it. */
  function Answered(c: Conflicts, l: Limits, s: System, w: Worker): System
    requires w in s.procs && w in s.master.workers
  {
    var a := Schedule(c, l, s.master, w);
    if a.files == [] then
      s.(master := a.master, procs := s.procs - {w}, batches := s.batches - {w})
    else
      var p := s.procs[w];
      s.(master := a.master,
         procs := s.procs[w := p.(inbox := p.inbox + [RunTests(a.files)])],
         batches := s.batches[w := a.files],
         log := s.log + a.files)
  }

  function Next(c: Conflicts, l: Limits, s: System, step: Step): System
    requires Enabled(s, step)
  {
    var p := s.procs[step.w];
    if !step.Deliver? then s.(procs := s.procs[step.w := MoveWorker(p, step)])
    else if p.outbox[0].TestResult? then Taken(s, step.w)
    else
      assert Taken(s, step.w).master.workers == s.master.workers by {
        ReleaseKeysFrame(s.master, s.master.activeConflicts, step.w);
      }
      Answered(c, l, Taken(s, step.w), step.w)
  }

  /** The start of a run on `tests`; with --shuffle the ordinary tests come in any order. */
  ghost predicate Init(c: Conflicts, l: Limits, tests: seq<Test>, requested: int, s: System) {
    var m := Initial(c, tests, requested);
    && l.totalFileCount == |Ordinary(c, tests)|
    && multiset(s.master.testFiles) == multiset(m.testFiles)
    && (!l.shuffle ==> s.master.testFiles == m.testFiles)
    && s.master == m.(testFiles := s.master.testFiles)
    && s.procs == (map w | w in m.workers :: Proc(Booting, [], []))
    && s.results == [] && s.log == []
    && s.batches == map w | w in m.workers :: []
  }

  /** A run: every state follows from the one before it by an enabled step. */
  ghost predicate IsRun(c: Conflicts, l: Limits, run: seq<System>, steps: seq<Step>) {
    && |run| == |steps| + 1
    && forall i :: 0 <= i < |steps| ==> Enabled(run[i], steps[i]) && run[i + 1] == Next(c, l, run[i], steps[i])
  }

  // ---------------------------------------------------------------- what a worker still owes

  function Reported(outbox: seq<Message>): seq<Test> {
    if outbox == [] then []
    else (if outbox[0].TestResult? then [outbox[0].test] else []) + Reported(outbox[1..])
  }

  function Results(tests: seq<Test>): seq<Message> {
    if tests == [] then [] else [TestResult(tests[0])] + Results(tests[1..])
  }

  /** The dispatched tests of a worker whose results are not recorded yet, in order. */
  function Outstanding(p: Proc): seq<Test> {
    Reported(p.outbox)
    + (if p.phase.Running? && p.phase.next <= |p.phase.files| then p.phase.files[p.phase.next..] else [])
    + (if p.inbox == [] then [] else p.inbox[0].files)
  }

  /** A worker that holds a non-empty `batch`, of which the master has recorded the first k results. */
  predicate WorksOn(p: Proc, batch: seq<Test>, k: nat) {
    && k <= |batch|
    && match p.phase
       case Booting => false
       case Running(files, next) =>
         && files == batch && k <= next <= |batch| && p.inbox == []
         && p.outbox == Results(batch[k..next])
       case Idle =>
         || (k == 0 && p.inbox == [RunTests(batch)] && p.outbox == [])
         || (p.inbox == [] && p.outbox == Results(batch[k..]) + [TestsFinished])
  }

  /** The states a worker can be in while it holds `batch`; an idle worker that owes nothing
      (`asked`) is one the master is about to answer. */
  ghost predicate ProcOk(p: Proc, batch: seq<Test>, asked: bool) {
    if asked then
      p == Proc(Idle, [], []) && batch == []
    else if batch == [] then
      p == Proc(Booting, [], []) || p == Proc(Idle, [], [Ready])
    else
      exists k :: WorksOn(p, batch, k)
  }

  lemma {:induction false} ReportedConcat(a: seq<Message>, b: seq<Message>)
    ensures Reported(a + b) == Reported(a) + Reported(b)
  {
    if a == [] {
      assert a + b == b;
    } else {
      assert (a + b)[1..] == a[1..] + b;
      ReportedConcat(a[1..], b);
    }
  }

  lemma {:induction false} ReportedResults(tests: seq<Test>)
    ensures Reported(Results(tests)) == tests
    ensures |Results(tests)| == |tests|
    ensures tests != [] ==> Results(tests)[0] == TestResult(tests[0]) && Results(tests)[1..] == Results(tests[1..])
  {
    if tests != [] {
      ReportedResults(tests[1..]);
    }
  }

  lemma {:induction false} ResultsConcat(a: seq<Test>, b: seq<Test>)
    ensures Results(a + b) == Results(a) + Results(b)
  {
    if a == [] {
      assert a + b == b;
    } else {
      assert (a + b)[1..] == a[1..] + b;
      ResultsConcat(a[1..], b);
    }
  }

  lemma OutstandingWorksOn(p: Proc, batch: seq<Test>, k: nat)
    requires WorksOn(p, batch, k)
    ensures Outstanding(p) == batch[k..]
  {
    match p.phase
    case Running(files, next) =>
      ReportedResults(batch[k..next]);
      assert batch[k..] == batch[k..next] + batch[next..];
    case Idle =>
      if p.inbox == [] {
        ReportedConcat(Results(batch[k..]), [TestsFinished]);
        ReportedResults(batch[k..]);
        assert Reported([TestsFinished]) == [];
      }
  }

  /** A worker's own steps keep it in a legal state and change nothing it owes. */
  lemma WorkerStepOk(p: Proc, batch: seq<Test>, k: nat, step: Step)
    requires WorksOn(p, batch, k)
    requires match step
             case Receive(_) => p.phase.Idle? && p.inbox != []
             case RunTest(_) => p.phase.Running? && p.phase.next < |p.phase.files|
             case Finish(_) => p.phase.Running? && p.phase.next == |p.phase.files|
             case _ => false
    ensures WorksOn(MoveWorker(p, step), batch, k)
  {
    match step
    case Receive(_) => assert batch[0..0] == [];
    case RunTest(_) =>
      var t := batch[p.phase.next];
      ResultsConcat(batch[k..p.phase.next], [t]);
      assert batch[k..p.phase.next + 1] == batch[k..p.phase.next] + [t];
      assert Results([t]) == [TestResult(t)] + Results([]);
    case Finish(_) => assert batch[k..|batch|] == batch[k..];
  }

  /** What the oldest message of a working worker says about what it owes. */
  lemma MessageOk(p: Proc, batch: seq<Test>, k: nat)
    requires WorksOn(p, batch, k) && p.outbox != []
    ensures match p.outbox[0]
            case TestResult(t) => k < |batch| && t == batch[k] && WorksOn(p.(outbox := p.outbox[1..]), batch, k + 1)
            case Ready => false
            case TestsFinished => k == |batch| && p == Proc(Idle, [], [TestsFinished])
  {
    match p.phase
    case Running(_, next) =>
      ReportedResults(batch[k..next]);
      assert batch[k..next][1..] == batch[k + 1..next];
    case Idle =>
      ReportedResults(batch[k..]);
      if k < |batch| {
        assert batch[k..][1..] == batch[k + 1..];
        assert p.outbox[1..] == Results(batch[k..])[1..] + [TestsFinished];
      } else {
        assert batch[k..] == [];
        assert p.outbox == [TestsFinished];
      }
  }
}
