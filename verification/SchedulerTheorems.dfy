/** The guarantees of a parallel test run, for every suite, every number of workers and every
    interleaving of the workers' steps and messages. */
module SchedulerTheorems {
  import opened Collections
  import opened SchedulerMaster
  import opened SchedulerProtocol
  import opened SchedulerSafety

  // ---------------------------------------------------------------- the start

  lemma MultisetCommutes(a: seq<Test>, b: seq<Test>)
    ensures multiset(a) + multiset(b) == multiset(b) + multiset(a)
  {
  }

  lemma AddToPart(a: seq<Test>, b: seq<Test>, whole: seq<Test>, t: Test)
    ensures multiset(a) + multiset(b) == multiset(whole) ==> multiset(a + [t]) + multiset(b) == multiset(whole + [t])
  {
    assert multiset(a + [t]) == multiset(a) + multiset{t};
    assert multiset(whole + [t]) == multiset(whole) + multiset{t};
  }

  lemma {:induction false} SuiteSplits(c: Conflicts, tests: seq<Test>)
    ensures multiset(Ordinary(c, tests)) + multiset(Sequential(c, tests)) == multiset(tests)
  {
    if tests != [] {
      var front, t := Front(tests), Last(tests);
      SuiteSplits(c, front);
      Snoc(tests);
      AddToPart(Ordinary(c, front), Sequential(c, front), front, t);
      AddToPart(Sequential(c, front), Ordinary(c, front), front, t);
      EmptyConcat(Ordinary(c, front));
      EmptyConcat(Sequential(c, front));
      MultisetCommutes(Ordinary(c, front), Sequential(c, tests));
      MultisetCommutes(Ordinary(c, front), Sequential(c, front));
    }
  }

  lemma {:induction false} SuiteParts(c: Conflicts, tests: seq<Test>)
    ensures forall t :: t in Ordinary(c, tests) ==> !IsSequential(c, t)
    ensures forall t :: t in Sequential(c, tests) ==> IsSequential(c, t)
  {
    if tests != [] {
      SuiteParts(c, Front(tests));
    }
  }

  lemma SameMembers(a: seq<Test>, b: seq<Test>)
    requires multiset(a) == multiset(b)
    ensures forall t :: t in a <==> t in b
  {
    forall t ensures t in a <==> t in b {
      assert t in a <==> t in multiset(a);
      assert t in b <==> t in multiset(b);
    }
  }

  lemma InitKeeps(c: Conflicts, l: Limits, tests: seq<Test>, requested: int, s: System)
    requires Init(c, l, tests, requested, s)
    ensures Inv(c, s, {})
  {
    var ordinary := Ordinary(c, tests);
    SuiteParts(c, tests);
    ReverseIsPermutation(ordinary);
    SameMembers(s.master.testFiles, ordinary);
    assert Busy(s.batches) == {};
    assert 1 in s.master.workers;
  }

  lemma InitHasTests(c: Conflicts, l: Limits, tests: seq<Test>, requested: int, s: System)
    requires Init(c, l, tests, requested, s)
    ensures Everything(s) == multiset(tests)
  {
    SuiteSplits(c, tests);
    ReverseIsPermutation(Ordinary(c, tests));
    TotalOfEmpty(Owed(s.procs));
    assert Total(s.master.waitingTests) == multiset{};
  }

  /** Every state of a run satisfies the invariant, and holds every test of the suite once. */
  lemma {:induction false} RunKeeps(c: Conflicts, l: Limits, tests: seq<Test>, requested: int,
                                    run: seq<System>, steps: seq<Step>, i: nat)
    requires IsRun(c, l, run, steps) && Init(c, l, tests, requested, run[0]) && i < |run|
    ensures Inv(c, run[i], {}) && Everything(run[i]) == multiset(tests)
  {
    hide Inv, Everything, Next, Enabled, Init;
    if i == 0 {
      InitKeeps(c, l, tests, requested, run[0]);
      InitHasTests(c, l, tests, requested, run[0]);
    } else {
      RunKeeps(c, l, tests, requested, run, steps, i - 1);
      StepKeeps(c, l, run[i - 1], steps[i - 1]);
      StepKeepsTests(c, l, run[i - 1], steps[i - 1]);
    }
  }

  // ---------------------------------------------------------------- exclusion

  /** Worker w is in the middle of test t. */
  predicate Executing(s: System, w: Worker, t: Test) {
    && w in s.procs && s.procs[w].phase.Running?
    && s.procs[w].phase.next < |s.procs[w].phase.files|
    && s.procs[w].phase.files[s.procs[w].phase.next] == t
  }

  lemma ExecutingInBatch(c: Conflicts, s: System, w: Worker, t: Test)
    requires Inv(c, s, {}) && Executing(s, w, t)
    ensures w in s.batches && t in s.batches[w]
  {
    var k: nat :| WorksOn(s.procs[w], s.batches[w], k);
  }

  lemma ExecutingHolds(c: Conflicts, s: System, w: Worker, t: Test)
    requires Inv(c, s, {}) && Executing(s, w, t)
    ensures forall k :: k in c(t) ==> Binding(k, w) in s.master.activeConflicts
    ensures ALL in c(t) ==> s.procs.Keys == {w}
  {
    ExecutingInBatch(c, s, w, t);
    forall k | k in c(t) ensures Binding(k, w) in s.master.activeConflicts {
      assert HasKey(c, s.batches[w], k);
    }
    assert ALL in c(t) ==> IsSequential(c, t);
  }

  /** Two tests with a common key never execute on different workers, a test with key "all" executes
      only when no other worker is left, and the keys of a test in execution belong to its worker. */
  lemma ConflictExclusion(c: Conflicts, l: Limits, tests: seq<Test>, requested: int,
                          run: seq<System>, steps: seq<Step>, i: nat, w: Worker, t: Test)
    requires IsRun(c, l, run, steps) && Init(c, l, tests, requested, run[0]) && i < |run|
    requires Executing(run[i], w, t)
    ensures forall v, u, k :: Executing(run[i], v, u) && k in c(t) && k in c(u) ==> v == w
    ensures ALL in c(t) ==> run[i].procs.Keys == {w}
    ensures forall k :: k in c(t) ==> Binding(k, w) in run[i].master.activeConflicts
  {
    RunKeeps(c, l, tests, requested, run, steps, i);
    ExecutingHolds(c, run[i], w, t);
    forall v, u, k | Executing(run[i], v, u) && k in c(t) && k in c(u) ensures v == w {
      ExecutingHolds(c, run[i], v, u);
      assert Binding(k, v).key == Binding(k, w).key;
    }
  }

  // ---------------------------------------------------------------- completeness

  lemma IdleOwesNothing(c: Conflicts, s: System)
    requires Inv(c, s, {}) && Busy(s.batches) == {}
    ensures Total(Owed(s.procs)) == multiset{}
  {
    forall w | w in s.procs ensures Owed(s.procs)[w] == [] {
      assert w !in Busy(s.batches);
      assert Reported([Ready]) == [] + Reported([]);
    }
    TotalOfEmpty(Owed(s.procs));
  }

  lemma NoQueueWithoutBatch(c: Conflicts, s: System)
    requires Inv(c, s, {}) && Busy(s.batches) == {}
    ensures s.master.waitingTests == map[]
  {
    forall b ensures b !in s.master.activeConflicts {
      if b.worker in s.batches {
        assert b.worker !in Busy(s.batches);
        assert !HasKey(c, s.batches[b.worker], b.key);
      }
    }
    forall k ensures k !in s.master.waitingTests {
      ActiveIsMember(s.master.activeConflicts, k);
    }
  }

  /** When the master leaves its loop, every test has been run and its result recorded once. */
  lemma AllResultsAtExit(c: Conflicts, l: Limits, tests: seq<Test>, requested: int,
                         run: seq<System>, steps: seq<Step>, i: nat)
    requires IsRun(c, l, run, steps) && Init(c, l, tests, requested, run[0]) && i < |run|
    requires !Unfinished(run[i].master)
    ensures multiset(run[i].results) == multiset(tests)
  {
    hide Total, Keys, Queues, Alone, Workers;
    var s := run[i];
    RunKeeps(c, l, tests, requested, run, steps, i);
    assert Busy(s.batches) == {};
    IdleOwesNothing(c, s);
    NoQueueWithoutBatch(c, s);
    hide Inv, Busy;
    assert Total(s.master.waitingTests) == multiset{} by { TotalOfEmpty(s.master.waitingTests); }
  }

  // ---------------------------------------------------------------- no deadlock

  /** A live worker always has something to do, or has a message for the master. */
  lemma LiveWorkerMoves(c: Conflicts, s: System, w: Worker)
    requires Inv(c, s, {}) && w in s.procs
    ensures exists step: Step :: step.w == w && Enabled(s, step)
  {
    var p := s.procs[w];
    if s.batches[w] != [] {
      var k: nat :| WorksOn(p, s.batches[w], k);
    }
    assert Enabled(s, Boot(w)) || Enabled(s, Receive(w)) || Enabled(s, RunTest(w)) || Enabled(s, Finish(w))
        || Enabled(s, Deliver(w));
  }

  /** The run cannot get stuck: while there is work, some worker is live and can move. */
  lemma NoDeadlock(c: Conflicts, l: Limits, tests: seq<Test>, requested: int,
                   run: seq<System>, steps: seq<Step>, i: nat)
    requires IsRun(c, l, run, steps) && Init(c, l, tests, requested, run[0]) && i < |run|
    requires Unfinished(run[i].master)
    ensures run[i].master.workers != {}
    ensures exists step :: Enabled(run[i], step)
  {
    var s := run[i];
    RunKeeps(c, l, tests, requested, run, steps, i);
    assert s.procs.Keys == {} ==> Busy(s.batches) == {};
    var w :| w in s.procs;
    LiveWorkerMoves(c, s, w);
  }

  // ---------------------------------------------------------------- termination

  /** How much is left to do for a worker: its own steps and the deliveries of its messages. */
  ghost function Weight(p: Proc): nat {
    |p.outbox|
    + (match p.phase
       case Booting => 2
       case Idle => 0
       case Running(files, next) => if next <= |files| then 2 * (|files| - next) + 2 else 0)
    + (if p.inbox == [] then 0 else 2 * |p.inbox[0].files| + 3)
  }

  ghost function Weights(procs: map<Worker, Proc>): map<Worker, nat> {
    map w | w in procs :: Weight(procs[w])
  }

  ghost function Work(s: System): nat {
    5 * |Undispatched(s.master)| + Sum(Weights(s.procs))
  }

  lemma WeightUpdate(procs: map<Worker, Proc>, w: Worker, p: Proc)
    requires w in procs
    ensures Sum(Weights(procs[w := p])) + Weight(procs[w]) == Sum(Weights(procs)) + Weight(p)
    ensures Sum(Weights(procs - {w})) + Weight(procs[w]) == Sum(Weights(procs))
  {
    SumChange(Weights(procs), Weights(procs[w := p]), w);
    SumExtract(Weights(procs), w);
    assert Weights(procs - {w}) == Weights(procs) - {w};
  }

  lemma TakenWork(s: System, w: Worker)
    requires w in s.procs && s.procs[w].outbox != []
    ensures Work(Taken(s, w)) + 1 == Work(s)
  {
    var p := s.procs[w];
    var p' := p.(outbox := p.outbox[1..]);
    WeightUpdate(s.procs, w, p');
    ReleaseKeepsTests(s.master, w);
    assert Weight(p') + 1 == Weight(p);
    assert Taken(s, w).procs == s.procs[w := p'];
    assert Undispatched(Taken(s, w).master) == Undispatched(s.master);
  }

  /** An answer hands out between one and batchSize + 1 tests, or dismisses the worker: either way
      the undispatched tests and live workers get fewer. */
  lemma AnswerProgress(c: Conflicts, l: Limits, m: MasterState, w: Worker)
    requires w in m.workers
    ensures var a := Schedule(c, l, m, w);
            && |a.files| <= BatchSize(l, |m.workers|) + 1
            && |Undispatched(a.master)| + |a.files| == |Undispatched(m)|
            && a.master.workers == (if a.files == [] then m.workers - {w} else m.workers)
            && |Undispatched(a.master)| + |a.master.workers| < |Undispatched(m)| + |m.workers|
  {
    AnsweredPending(c, l, m, w);
    var a := Schedule(c, l, m, w);
    assert |multiset(a.files) + Undispatched(a.master)| == |a.files| + |Undispatched(a.master)|;
  }

  lemma AnsweredWork(c: Conflicts, l: Limits, s: System, w: Worker)
    requires Inv(c, s, {w}) && w in s.procs
    ensures Work(Answered(c, l, s, w)) <= Work(s)
  {
    hide Schedule, Undispatched, Keys, Queues, Alone, Sum;
    AnswerProgress(c, l, s.master, w);
    var files := Schedule(c, l, s.master, w).files;
    assert [] + [RunTests(files)] == [RunTests(files)];
    WeightUpdate(s.procs, w, Proc(Idle, [RunTests(files)], []));
  }

  lemma WorkerStepWork(c: Conflicts, l: Limits, s: System, step: Step)
    requires Inv(c, s, {}) && Enabled(s, step) && !step.Deliver?
    ensures Work(Next(c, l, s, step)) < Work(s)
  {
    hide Undispatched, Keys, Queues, Alone, Sum;
    var p := s.procs[step.w];
    if s.batches[step.w] != [] {
      var k: nat :| WorksOn(p, s.batches[step.w], k);
    }
    WeightUpdate(s.procs, step.w, MoveWorker(p, step));
  }

  lemma StepWork(c: Conflicts, l: Limits, s: System, step: Step)
    requires Inv(c, s, {}) && Enabled(s, step)
    ensures Work(Next(c, l, s, step)) < Work(s)
  {
    hide Work, Inv, Answered;
    if !step.Deliver? {
      WorkerStepWork(c, l, s, step);
    } else {
      TakenWork(s, step.w);
      if s.procs[step.w].outbox[0].Ready? {
        TakeReadyKeeps(c, s, step.w);
        AnsweredWork(c, l, Taken(s, step.w), step.w);
      } else if s.procs[step.w].outbox[0].TestsFinished? {
        TakeFinishedKeeps(c, s, step.w);
        AnsweredWork(c, l, Taken(s, step.w), step.w);
      }
    }
  }

  lemma {:induction false} RunWork(c: Conflicts, l: Limits, tests: seq<Test>, requested: int,
                                   run: seq<System>, steps: seq<Step>, i: nat)
    requires IsRun(c, l, run, steps) && Init(c, l, tests, requested, run[0]) && i < |run|
    ensures Work(run[i]) + i <= Work(run[0])
  {
    hide Work, Inv, Everything, Next, Enabled, Init;
    if i > 0 {
      RunWork(c, l, tests, requested, run, steps, i - 1);
      RunKeeps(c, l, tests, requested, run, steps, i - 1);
      StepWork(c, l, run[i - 1], steps[i - 1]);
    }
  }

  lemma InitWork(c: Conflicts, l: Limits, tests: seq<Test>, requested: int, s: System)
    requires Init(c, l, tests, requested, s)
    ensures Work(s) <= 5 * |tests| + 2 * |s.master.workers|
  {
    InitHasTests(c, l, tests, requested, s);
    PartSize(Undispatched(s.master), Total(Owed(s.procs)) + multiset(s.results), multiset(tests));
    BootingWork(s.procs, s.master.workers);
  }

  lemma BootingWork(procs: map<Worker, Proc>, workers: set<Worker>)
    requires procs == map w | w in workers :: Proc(Booting, [], [])
    ensures Sum(Weights(procs)) == 2 * |workers|
  {
    assert Weight(Proc(Booting, [], [])) == 2;
    SumOfConstant(Weights(procs), 2);
    assert Weights(procs).Keys == workers;
    assert |Weights(procs)| == |Weights(procs).Keys|;
  }

  lemma PartSize(part: multiset<Test>, rest: multiset<Test>, whole: multiset<Test>)
    requires part + rest == whole
    ensures |part| <= |whole|
  {
    assert |part + rest| == |part| + |rest|;
  }

  /** Every run ends: with n tests and w workers it has at most 5n + 2w steps. */
  lemma RunsEnd(c: Conflicts, l: Limits, tests: seq<Test>, requested: int, run: seq<System>, steps: seq<Step>)
    requires IsRun(c, l, run, steps) && Init(c, l, tests, requested, run[0])
    ensures |steps| <= 5 * |tests| + 2 * |run[0].master.workers|
  {
    RunWork(c, l, tests, requested, run, steps, |steps|);
    InitWork(c, l, tests, requested, run[0]);
  }

  /** A run that cannot go on has recorded every result, whatever the order of its steps was. */
  lemma StuckMeansDone(c: Conflicts, l: Limits, tests: seq<Test>, requested: int, run: seq<System>, steps: seq<Step>)
    requires IsRun(c, l, run, steps) && Init(c, l, tests, requested, run[0])
    requires forall step :: !Enabled(run[|steps|], step)
    ensures multiset(run[|steps|].results) == multiset(tests)
  {
    if Unfinished(run[|steps|].master) {
      NoDeadlock(c, l, tests, requested, run, steps, |steps|);
    }
    AllResultsAtExit(c, l, tests, requested, run, steps, |steps|);
  }

  // ---------------------------------------------------------------- answers

  /** How many messages of the run up to state i asked for work: ready and tests_finished. */
  ghost function Answers(run: seq<System>, steps: seq<Step>, i: nat): nat
    requires i <= |steps| < |run|
  {
    if i == 0 then 0 else Answers(run, steps, i - 1) + if Asks(run[i - 1], steps[i - 1]) then 1 else 0
  }

  predicate Asks(s: System, step: Step) {
    step.Deliver? && step.w in s.procs && s.procs[step.w].outbox != [] && !s.procs[step.w].outbox[0].TestResult?
  }

  lemma StepAnswers(c: Conflicts, l: Limits, s: System, step: Step)
    requires Inv(c, s, {}) && Enabled(s, step)
    ensures var s' := Next(c, l, s, step);
            |Undispatched(s'.master)| + |s'.master.workers| + (if Asks(s, step) then 1 else 0)
            <= |Undispatched(s.master)| + |s.master.workers|
  {
    hide Inv, Undispatched, Schedule, Released;
    if Asks(s, step) {
      var m := Taken(s, step.w).master;
      ReleaseKeepsTests(s.master, step.w);
      ReleasedWorkers(s.master, step.w);
      AnswerProgress(c, l, m, step.w);
    }
  }

  lemma ReleasedWorkers(m: MasterState, w: Worker)
    ensures Released(m, w).workers == m.workers
  {
    ReleaseKeysFrame(m, m.activeConflicts, w);
  }

  /** The master answers at most once per test and once per worker: every answer hands out a test or
      dismisses a worker. */
  lemma {:induction false} AnswersAreBounded(c: Conflicts, l: Limits, tests: seq<Test>, requested: int,
                                             run: seq<System>, steps: seq<Step>, i: nat)
    requires IsRun(c, l, run, steps) && Init(c, l, tests, requested, run[0]) && i < |run|
    ensures Answers(run, steps, i) + |Undispatched(run[i].master)| + |run[i].master.workers|
         <= |tests| + |run[0].master.workers|
  {
    hide Inv, Undispatched, Next, Enabled, Init, Asks;
    if i > 0 {
      AnswersAreBounded(c, l, tests, requested, run, steps, i - 1);
      RunKeeps(c, l, tests, requested, run, steps, i - 1);
      StepAnswers(c, l, run[i - 1], steps[i - 1]);
    } else {
      InitTests(c, l, tests, requested, run[0]);
    }
  }

  lemma InitTests(c: Conflicts, l: Limits, tests: seq<Test>, requested: int, s: System)
    requires Init(c, l, tests, requested, s)
    ensures |Undispatched(s.master)| <= |tests|
  {
    InitHasTests(c, l, tests, requested, s);
    PartSize(Undispatched(s.master), Total(Owed(s.procs)) + multiset(s.results), multiset(tests));
  }

  /** The last worker is dismissed only when every test has its result. */
  lemma LastWorkerLeavesNothing(c: Conflicts, l: Limits, tests: seq<Test>, requested: int,
                                run: seq<System>, steps: seq<Step>, i: nat)
    requires IsRun(c, l, run, steps) && Init(c, l, tests, requested, run[0]) && i < |run|
    requires run[i].master.workers == {}
    ensures !Unfinished(run[i].master) && multiset(run[i].results) == multiset(tests)
  {
    if Unfinished(run[i].master) {
      NoDeadlock(c, l, tests, requested, run, steps, i);
    }
    AllResultsAtExit(c, l, tests, requested, run, steps, i);
  }

  // ---------------------------------------------------------------- the size of a batch

  /** The pending tests without a key in use. */
  function CountFree(c: Conflicts, active: seq<Binding>, tests: seq<Test>): nat {
    if tests == [] then 0
    else CountFree(c, active, Front(tests)) + if Blocking(c(Last(tests)), active).None? then 1 else 0
  }

  lemma {:induction false} FillCounts(c: Conflicts, active: seq<Binding>, n: nat, f: Filling)
    requires |f.files| <= n + 1
    ensures var free := |f.files| + CountFree(c, active, f.testFiles);
            |Fill(c, active, n, f).files| == if free <= n then free else n + 1
    decreases |f.testFiles|
  {
    hide Blocking;
    if |f.files| <= n && f.testFiles != [] {
      FillCounts(c, active, n, FillStep(c, active, f));
    }
  }

  /** A batch takes all tests without a key in use if they are no more than the batch size, and otherwise
      one more than the batch size. */
  lemma BatchExceedsIff(c: Conflicts, l: Limits, m: MasterState, w: Worker)
    requires w in m.workers
    ensures var n, pending := BatchSize(l, |m.workers|), AdmitSequential(m);
            var free, files := CountFree(c, pending.activeConflicts, pending.testFiles), Schedule(c, l, m, w).files;
            && (|files| == n + 1 <==> free > n)
            && (free <= n ==> |files| == free)
  {
    hide Fill, Blocking, BatchSize, CountFree;
    var pending := AdmitSequential(m);
    FillCounts(c, pending.activeConflicts, BatchSize(l, |m.workers|), Filling([], pending.testFiles, pending.waitingTests));
  }

  /** Under valgrind, for which the batch size is 1, a batch has two tests as soon as two are free. */
  lemma ValgrindBatchOfTwo(c: Conflicts, l: Limits, m: MasterState, w: Worker)
    requires w in m.workers && l.valgrind
    ensures var pending := AdmitSequential(m);
            |Schedule(c, l, m, w).files| == 2 <==> CountFree(c, pending.activeConflicts, pending.testFiles) > 1
  {
    hide Fill, Blocking, CountFree, Schedule;
    assert BatchSize(l, |m.workers|) == 1;
    BatchExceedsIff(c, l, m, w);
  }
}
