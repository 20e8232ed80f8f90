/** Tests with key "all" run one after the other, in the opposite of their original order. */
module SchedulerSequential {
  import opened Collections
  import opened SchedulerMaster
  import opened SchedulerProtocol
  import opened SchedulerSafety
  import opened SchedulerTheorems
  import opened SchedulerOrder

  /** Dispatched, pending and unscheduled tests with key "all" are together the reversed list. */
  ghost predicate AllsReversed(c: Conflicts, tests: seq<Test>, m: MasterState, log: seq<Test>) {
    && (m.sequentialTests == [] || Pick(c, Has(ALL), m.testFiles) == [])
    && Pick(c, Has(ALL), log) + Reverse(Pick(c, Has(ALL), m.testFiles)) + Reverse(m.sequentialTests)
       == Reverse(Sequential(c, tests))
  }

  ghost predicate NoneWaits(c: Conflicts, waiting: Waiting) {
    forall k, t :: k in waiting && t in waiting[k] ==> !IsSequential(c, t)
  }

  lemma ReleaseKeyAlls(c: Conflicts, m: MasterState, b: Binding, w: Worker)
    requires NoneWaits(c, m.waitingTests)
    ensures Pick(c, Has(ALL), ReleaseKey(m, b, w).testFiles) == Pick(c, Has(ALL), m.testFiles)
    ensures NoneWaits(c, ReleaseKey(m, b, w).waitingTests)
  {
    if b.worker == w && b.key in m.waitingTests {
      var queue := m.waitingTests[b.key];
      PickConcat(c, Has(ALL), m.testFiles, Reverse(queue));
      PickReverse(c, Has(ALL), queue);
      forall t | t in queue ensures !Selects(c, Has(ALL), t) {
        assert !IsSequential(c, t);
      }
      PickAll(c, Has(ALL), queue);
    }
  }

  lemma {:induction false} ReleaseKeepsAlls(c: Conflicts, m: MasterState, snapshot: seq<Binding>, w: Worker)
    requires NoneWaits(c, m.waitingTests)
    ensures Pick(c, Has(ALL), ReleaseKeys(m, snapshot, w).testFiles) == Pick(c, Has(ALL), m.testFiles)
    ensures NoneWaits(c, ReleaseKeys(m, snapshot, w).waitingTests)
  {
    if snapshot != [] {
      ReleaseKeepsAlls(c, m, Front(snapshot), w);
      ReleaseKeyAlls(c, ReleaseKeys(m, Front(snapshot), w), Last(snapshot), w);
    }
  }

  lemma {:induction false} FillKeepsAlls(c: Conflicts, active: seq<Binding>, n: nat, f: Filling)
    requires forall t :: t in f.testFiles && IsSequential(c, t) ==> Blocking(c(t), active).None?
    ensures var r := Fill(c, active, n, f);
            Pick(c, Has(ALL), r.files) + Reverse(Pick(c, Has(ALL), r.testFiles))
            == Pick(c, Has(ALL), f.files) + Reverse(Pick(c, Has(ALL), f.testFiles))
    decreases |f.testFiles|
  {
    if |f.files| <= n && f.testFiles != [] {
      var t, rest, g := Last(f.testFiles), Front(f.testFiles), FillStep(c, active, f);
      assert f.testFiles == rest + [t];
      FillKeepsAlls(c, active, n, g);
      PickConcat(c, Has(ALL), rest, [t]);
      PickConcat(c, Has(ALL), f.files, [t]);
      PickOne(c, Has(ALL), t);
      ReverseConcat(Pick(c, Has(ALL), rest), Pick(c, Has(ALL), [t]));
      ReverseOne(Pick(c, Has(ALL), [t]));
      Assoc(Pick(c, Has(ALL), f.files), Pick(c, Has(ALL), [t]), Reverse(Pick(c, Has(ALL), rest)));
      assert Blocking(c(t), active).Some? ==> Pick(c, Has(ALL), [t]) == [];
      EmptyConcat(Reverse(Pick(c, Has(ALL), rest)));
    }
  }

  lemma AdmitKeepsAlls(c: Conflicts, tests: seq<Test>, m: MasterState, log: seq<Test>)
    requires AllsReversed(c, tests, m, log) && forall t :: t in m.sequentialTests ==> IsSequential(c, t)
    ensures AllsReversed(c, tests, AdmitSequential(m), log)
  {
    PickConcat(c, Has(ALL), m.testFiles, m.sequentialTests);
    PickAll(c, Has(ALL), m.sequentialTests);
    EmptyConcat(m.sequentialTests);
    EmptyConcat(Pick(c, Has(ALL), log));
    EmptyConcat(Reverse(m.sequentialTests));
    EmptyConcat(Pick(c, Has(ALL), log) + Reverse(m.sequentialTests));
  }

  lemma FilledAlls(c: Conflicts, tests: seq<Test>, m: MasterState, log: seq<Test>, files: seq<Test>, rest: seq<Test>)
    requires AllsReversed(c, tests, m, log)
    requires Pick(c, Has(ALL), files) + Reverse(Pick(c, Has(ALL), rest)) == Reverse(Pick(c, Has(ALL), m.testFiles))
    ensures AllsReversed(c, tests, m.(testFiles := rest), log + files)
  {
    var picked, left := Pick(c, Has(ALL), files), Pick(c, Has(ALL), rest);
    PickConcat(c, Has(ALL), log, files);
    ReverseIsPermutation(left);
    Regroup(Pick(c, Has(ALL), log), picked, Reverse(left), Reverse(Pick(c, Has(ALL), m.testFiles)), Reverse(m.sequentialTests));
    EmptyRest(picked, left, Pick(c, Has(ALL), m.testFiles));
  }

  lemma Regroup<T>(a: seq<T>, b: seq<T>, d: seq<T>, bd: seq<T>, e: seq<T>)
    requires b + d == bd
    ensures (a + b) + d + e == a + bd + e
  {
    assert (a + b) + d == a + (b + d);
  }

  lemma EmptyRest<T>(picked: seq<T>, left: seq<T>, whole: seq<T>)
    requires picked + Reverse(left) == Reverse(whole)
    ensures whole == [] ==> left == []
  {
    ReverseIsPermutation(left);
  }

  /** A test with key "all" is never blocked when it can be taken. */
  lemma AllsAreFree(c: Conflicts, s: System, w: Worker)
    requires Inv(c, s, {w}) && w in s.procs
    ensures forall t :: t in s.master.testFiles && IsSequential(c, t) ==> Blocking(c(t), s.master.activeConflicts).None?
  {
    if |s.master.workers| <= 1 {
      OneLeftNoneActive(c, s.master, s.batches, w);
      assert forall k :: !IsActive(s.master.activeConflicts, k);
    }
  }

  lemma AllsSame(c: Conflicts, tests: seq<Test>, m: MasterState, m': MasterState, log: seq<Test>)
    requires m'.sequentialTests == m.sequentialTests && m'.testFiles == m.testFiles
    ensures AllsReversed(c, tests, m, log) ==> AllsReversed(c, tests, m', log)
  {
  }

  lemma ScheduledAlls(c: Conflicts, tests: seq<Test>, m: MasterState, log: seq<Test>, n: nat)
    requires AllsReversed(c, tests, m, log)
    requires forall t :: t in m.testFiles && IsSequential(c, t) ==> Blocking(c(t), m.activeConflicts).None?
    ensures var f := Fill(c, m.activeConflicts, n, Filling([], m.testFiles, m.waitingTests));
            AllsReversed(c, tests, m.(testFiles := f.testFiles), log + f.files)
  {
    hide AllsReversed, Reverse, Fill, Blocking;
    var f0 := Filling([], m.testFiles, m.waitingTests);
    var f := Fill(c, m.activeConflicts, n, f0);
    FillKeepsAlls(c, m.activeConflicts, n, f0);
    EmptyConcat(Reverse(Pick(c, Has(ALL), m.testFiles)));
    FilledAlls(c, tests, m, log, f.files, f.testFiles);
  }

  lemma AnsweredAlls(c: Conflicts, l: Limits, tests: seq<Test>, s: System, w: Worker)
    requires Inv(c, s, {w}) && w in s.procs && AllsReversed(c, tests, s.master, s.log)
    ensures AllsReversed(c, tests, Answered(c, l, s, w).master, Answered(c, l, s, w).log)
  {
    hide AllsReversed, Reverse, Fill, Blocking, Keys, Queues, Workers, BindFiles;
    AdmitKeeps(c, s, w);
    AdmitKeepsAlls(c, tests, s.master, s.log);
    var m := AdmitSequential(s.master);
    assert m.workers == s.master.workers;
    hide AdmitSequential;
    var n := BatchSize(l, |m.workers|);
    AllsAreFree(c, s.(master := m), w);
    ScheduledAlls(c, tests, m, s.log, n);
    var f := Fill(c, m.activeConflicts, n, Filling([], m.testFiles, m.waitingTests));
    var s' := Answered(c, l, s, w);
    EmptyConcat(s.log);
    assert s'.log == s.log + f.files;
    AllsSame(c, tests, m.(testFiles := f.testFiles), s'.master, s'.log);
  }

  lemma TakenAlls(c: Conflicts, tests: seq<Test>, s: System, w: Worker)
    requires Inv(c, s, {}) && w in s.procs && s.procs[w].outbox != [] && AllsReversed(c, tests, s.master, s.log)
    ensures AllsReversed(c, tests, Taken(s, w).master, Taken(s, w).log)
  {
    ReleaseKeepsAlls(c, s.master, s.master.activeConflicts, w);
    ReleaseKeysFrame(s.master, s.master.activeConflicts, w);
  }

  lemma InitAlls(c: Conflicts, l: Limits, tests: seq<Test>, requested: int, s: System)
    requires Init(c, l, tests, requested, s)
    ensures AllsReversed(c, tests, s.master, s.log)
  {
    SuiteParts(c, tests);
    ReverseIsPermutation(Ordinary(c, tests));
    SameMembers(s.master.testFiles, Ordinary(c, tests));
    PickAll(c, Has(ALL), s.master.testFiles);
  }

  lemma StepAlls(c: Conflicts, l: Limits, tests: seq<Test>, s: System, step: Step)
    requires Inv(c, s, {}) && Enabled(s, step) && AllsReversed(c, tests, s.master, s.log)
    ensures AllsReversed(c, tests, Next(c, l, s, step).master, Next(c, l, s, step).log)
  {
    hide AllsReversed;
    if step.Deliver? {
      TakenAlls(c, tests, s, step.w);
      if s.procs[step.w].outbox[0].Ready? {
        TakeReadyKeeps(c, s, step.w);
        AnsweredAlls(c, l, tests, Taken(s, step.w), step.w);
      } else if s.procs[step.w].outbox[0].TestsFinished? {
        TakeFinishedKeeps(c, s, step.w);
        AnsweredAlls(c, l, tests, Taken(s, step.w), step.w);
      }
    }
  }

  lemma {:induction false} RunAlls(c: Conflicts, l: Limits, tests: seq<Test>, requested: int,
                                   run: seq<System>, steps: seq<Step>, i: nat)
    requires IsRun(c, l, run, steps) && Init(c, l, tests, requested, run[0]) && i < |run|
    ensures AllsReversed(c, tests, run[i].master, run[i].log)
  {
    hide AllsReversed, Inv, Everything, Next, Enabled, Init;
    if i == 0 {
      InitAlls(c, l, tests, requested, run[0]);
    } else {
      RunAlls(c, l, tests, requested, run, steps, i - 1);
      RunKeeps(c, l, tests, requested, run, steps, i - 1);
      StepAlls(c, l, tests, run[i - 1], steps[i - 1]);
    }
  }

  lemma {:induction false} PickSequential(c: Conflicts, tests: seq<Test>)
    ensures Pick(c, Has(ALL), tests) == Sequential(c, tests)
  {
    if tests != [] {
      PickSequential(c, Front(tests));
      assert tests == Front(tests) + [Last(tests)];
      PickConcat(c, Has(ALL), Front(tests), [Last(tests)]);
      PickOne(c, Has(ALL), Last(tests));
    }
  }

  /** Tests with key "all" are run last to first. */
  lemma AllsRunInReverse(c: Conflicts, l: Limits, tests: seq<Test>, requested: int,
                         run: seq<System>, steps: seq<Step>, i: nat)
    requires IsRun(c, l, run, steps) && Init(c, l, tests, requested, run[0]) && i < |run|
    ensures Pick(c, Has(ALL), run[i].results) <= Reverse(Pick(c, Has(ALL), tests))
    ensures !Unfinished(run[i].master) ==> Pick(c, Has(ALL), run[i].results) == Reverse(Pick(c, Has(ALL), tests))
  {
    RunAlls(c, l, tests, requested, run, steps, i);
    ExecutionFollowsDispatch(c, l, tests, requested, run, steps, i, ALL);
    PickSequential(c, tests);
    if !Unfinished(run[i].master) {
      AllResultsAtExit(c, l, tests, requested, run, steps, i);
      PickSize(c, Has(ALL), run[i].results, tests);
      ReverseIsPermutation(Pick(c, Has(ALL), tests));
    }
  }

  /** So a finished run has kept the order of the tests with key "all" only if there is at most one. */
  lemma AllsKeepOrderIff(c: Conflicts, l: Limits, tests: seq<Test>, requested: int, run: seq<System>, steps: seq<Step>)
    requires IsRun(c, l, run, steps) && Init(c, l, tests, requested, run[0])
    requires !Unfinished(run[|steps|].master)
    requires forall i, j :: 0 <= i < j < |Sequential(c, tests)| ==> Sequential(c, tests)[i] != Sequential(c, tests)[j]
    ensures Pick(c, Has(ALL), run[|steps|].results) == Pick(c, Has(ALL), tests) <==> |Sequential(c, tests)| <= 1
  {
    var alls := Sequential(c, tests);
    AllsRunInReverse(c, l, tests, requested, run, steps, |steps|);
    PickSequential(c, tests);
    if |alls| <= 1 {
      ReverseOne(alls);
    } else {
      ReverseAt(alls, 0);
    }
  }
}
