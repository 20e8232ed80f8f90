/** Without agreement on first keys, the order of tests that share a key can be lost. */
module SchedulerOrderLimits {
  import opened Collections
  import opened SchedulerMaster
  import opened SchedulerProtocol
  import opened SchedulerOrder

  /** Whatever key lists two tests with a common key have, if their first keys differ there is a suite
      with a run in which the later one has its result first: both wait for a test that holds the two
      first keys, and when it ends the queue of the later test is refilled on top. */
  lemma LeadsMustAgree(early: Test, late: Test, holder: Test, filler: Test, c: Conflicts, k: Key)
      returns (l: Limits, run: seq<System>, steps: seq<Step>)
    requires k in c(early) && k in c(late) && c(early)[0] != c(late)[0]
    requires !IsSequential(c, early) && !IsSequential(c, late) && c(filler) == []
    requires c(holder) == [c(early)[0], c(late)[0]]
    ensures var tests := [holder, filler, early, late];
            && IsRun(c, l, run, steps) && Init(c, l, tests, 2, run[0]) && !l.shuffle
            && Last(run).results == [holder, filler, late, early]
            && Pick(c, Shares(k), Last(run).results) != Pick(c, Shares(k), tests)
  {
    hide Schedule, Released, IsRun, Answered, Init, Pick, Initial;
    StartIsInitial(c, holder, filler, early, late);
    l := Limits(true, false, 4);
    run, steps := FirstHalf(c, l, early, late, holder, filler);
    var m := Last(run).master;
    LastBatch(c, l, m, early, late);
    run, steps := Work(c, l, run, steps, 1, [holder, filler]);
    EmptyConcat([holder, filler]);
    SingleChanges(m, Proc(Idle, [RunTests([holder, filler])], []), Proc(Idle, [], [TestsFinished]), [], [holder, filler],
                  [holder, filler], [holder, filler], [holder, filler]);
    SingleChanges(m, Proc(Idle, [], [TestsFinished]), Proc(Idle, [], []), [holder, filler], [holder, filler],
                  [holder, filler], [], [holder, filler]);
    run, steps := AskAgain(c, l, run, steps, 1);
    var s := Single(Released(m, 1), Proc(Idle, [], []), [holder, filler], [], [holder, filler]);
    AnsweredFiles(c, l, s, 1, [late, early]);
    run, steps := Work(c, l, run, steps, 1, [late, early]);
    assert [holder, filler] + [late, early] == [holder, filler, late, early];
    assert [holder, filler] + [early, late] == [holder, filler, early, late];
    LastTwoDiffer(c, k, [holder, filler], early, late);
  }

  /** The state with worker 1 alone. */
  function Single(m: MasterState, p: Proc, results: seq<Test>, batch: seq<Test>, log: seq<Test>): System {
    System(m, map[1 := p], results, map[1 := batch], log)
  }

  lemma SingleChanges(m: MasterState, p: Proc, p': Proc, results: seq<Test>, results': seq<Test>, batch: seq<Test>,
                      batch': seq<Test>, log: seq<Test>)
    ensures Single(m, p, results, batch, log).(procs := map[1 := p][1 := p'], results := results', batches := map[1 := batch][1 := batch'])
         == Single(m, p', results', batch', log)
  {
  }

  /** Both workers have asked: the first has the holder and the filler, the other is dismissed. */
  lemma FirstHalf(c: Conflicts, l: Limits, early: Test, late: Test, holder: Test, filler: Test)
      returns (run: seq<System>, steps: seq<Step>)
    requires l == Limits(true, false, 4) && c(early) != [] && c(late) != [] && c(early)[0] != c(late)[0]
    requires !IsSequential(c, early) && !IsSequential(c, late) && c(filler) == []
    requires c(holder) == [c(early)[0], c(late)[0]]
    ensures IsRun(c, l, run, steps) && run != [] && run[0] == StartOf(c, [holder, filler, early, late])
    ensures var k, j := c(early)[0], c(late)[0];
            var m := MasterState([], [], map[k := [early], j := [late]], [Binding(k, 1), Binding(j, 1)], 1, {1});
            Last(run) == Single(m, Proc(Idle, [RunTests([holder, filler])], []), [], [holder, filler], [holder, filler])
  {
    hide Schedule, IsRun, Answered, Initial, Taken;
    StartIsInitial(c, holder, filler, early, late);
    var s0 := StartOf(c, [holder, filler, early, late]);
    hide StartOf;
    OneState(c, l, s0);
    run, steps := [s0], [];
    FirstBatch(c, l, s0.master, holder, filler, early, late);
    var m1 := Schedule(c, l, s0.master, 1).master;
    run, steps := Ask(c, l, run, steps, 1);
    AnsweredFiles(c, l, Idled(s0, 1, []), 1, [holder, filler]);
    SecondAnswer(c, l, m1, early, late);
    var p := Proc(Idle, [RunTests([holder, filler])], []);
    var s1 := System(m1, map[1 := p, 2 := Proc(Booting, [], [])], [], map[1 := [holder, filler], 2 := []], [holder, filler]);
    assert Last(run) == s1 by {
      assert [] + [holder, filler] == [holder, filler];
      assert s0.procs[1 := Proc(Idle, [], [])][1 := p] == s1.procs;
      assert s0.batches[1 := [holder, filler]] == s1.batches;
    }
    run, steps := Ask(c, l, run, steps, 2);
    assert map[1 := p, 2 := Proc(Booting, [], [])][2 := Proc(Idle, [], [])] == map[1 := p, 2 := Proc(Idle, [], [])];
    assert map[1 := p, 2 := Proc(Booting, [], [])][2 := Proc(Idle, [], [])] - {2} == map[1 := p];
    assert map[1 := [holder, filler], 2 := []] - {2} == map[1 := [holder, filler]];
    AnsweredNone(c, l, System(m1, map[1 := p, 2 := Proc(Idle, [], [])], [], map[1 := [holder, filler], 2 := []], [holder, filler]), 2);
  }

  lemma AnsweredFiles(c: Conflicts, l: Limits, s: System, w: Worker, files: seq<Test>)
    requires w in s.procs && w in s.master.workers && Schedule(c, l, s.master, w).files == files != []
    requires s.procs[w] == Proc(Idle, [], [])
    ensures Answered(c, l, s, w)
         == s.(master := Schedule(c, l, s.master, w).master, procs := s.procs[w := Proc(Idle, [RunTests(files)], [])],
               batches := s.batches[w := files], log := s.log + files)
  {
    hide Schedule;
    assert [] + [RunTests(files)] == [RunTests(files)];
  }

  lemma AnsweredNone(c: Conflicts, l: Limits, s: System, w: Worker)
    requires w in s.procs && w in s.master.workers && Schedule(c, l, s.master, w).files == []
    ensures Answered(c, l, s, w)
         == s.(master := Schedule(c, l, s.master, w).master, procs := s.procs - {w}, batches := s.batches - {w})
  {
    hide Schedule;
  }

  // ---------------------------------------------------------------- building a run

  function StartOf(c: Conflicts, tests: seq<Test>): System {
    var m := Initial(c, tests, 2);
    System(m, map w | w in m.workers :: Proc(Booting, [], []), [], map w | w in m.workers :: [], [])
  }

  lemma StartIsInitial(c: Conflicts, t0: Test, t1: Test, t2: Test, t3: Test)
    requires !IsSequential(c, t0) && !IsSequential(c, t1) && !IsSequential(c, t2) && !IsSequential(c, t3)
    ensures Init(c, Limits(true, false, 4), [t0, t1, t2, t3], 2, StartOf(c, [t0, t1, t2, t3]))
    ensures var s := StartOf(c, [t0, t1, t2, t3]);
            && s.master == MasterState([t3, t2, t1, t0], [], map[], [], 0, {1, 2})
            && s.procs == map[1 := Proc(Booting, [], []), 2 := Proc(Booting, [], [])]
            && s.batches == map[1 := [], 2 := []] && s.results == []
  {
    InitialOfFour(c, t0, t1, t2, t3);
    hide Initial, Ordinary;
    var s := StartOf(c, [t0, t1, t2, t3]);
    assert s.procs == map[1 := Proc(Booting, [], []), 2 := Proc(Booting, [], [])];
    assert s.batches == map[1 := [], 2 := []];
  }

  lemma OneState(c: Conflicts, l: Limits, s: System)
    ensures IsRun(c, l, [s], [])
  {
  }

  /** One more step. */
  lemma Step1(c: Conflicts, l: Limits, run: seq<System>, steps: seq<Step>, step: Step)
      returns (run': seq<System>, steps': seq<Step>)
    requires run != [] && IsRun(c, l, run, steps) && Enabled(Last(run), step)
    ensures IsRun(c, l, run', steps') && run' != [] && run'[0] == run[0] && Last(run') == Next(c, l, Last(run), step)
  {
    hide Next, Enabled;
    run', steps' := run + [Next(c, l, Last(run), step)], steps + [step];
    forall i | 0 <= i < |steps'| ensures Enabled(run'[i], steps'[i]) && run'[i + 1] == Next(c, l, run'[i], steps'[i]) {
      if i < |steps| {
        assert run'[i] == run[i] && run'[i + 1] == run[i + 1] && steps'[i] == steps[i];
      }
    }
  }

  /** A worker starts up and is answered. */
  lemma Ask(c: Conflicts, l: Limits, run: seq<System>, steps: seq<Step>, w: Worker)
      returns (run': seq<System>, steps': seq<Step>)
    requires run != [] && IsRun(c, l, run, steps)
    requires var s := Last(run);
             w in s.procs && w in s.batches && w in s.master.workers && s.procs[w] == Proc(Booting, [], [])
    ensures IsRun(c, l, run', steps') && run' != [] && run'[0] == run[0]
    ensures Last(run') == Answered(c, l, Idled(Last(run), w, []), w)
  {
    hide IsRun, Schedule;
    run', steps' := Step1(c, l, run, steps, Boot(w));
    assert [] + [Ready] == [Ready] && [Ready][1..] == [];
    var s := Last(run');
    assert s == Idled(Last(run), w, [Ready]);
    assert Taken(s, w) == Idled(Last(run), w, []);
    run', steps' := Step1(c, l, run', steps', Deliver(w));
  }

  /** Worker w waits for a command, with these messages out. */
  function Idled(s: System, w: Worker, outbox: seq<Message>): System {
    s.(procs := s.procs[w := Proc(Idle, [], outbox)])
  }

  /** A worker that has finished its batch is answered. */
  lemma AskAgain(c: Conflicts, l: Limits, run: seq<System>, steps: seq<Step>, w: Worker)
      returns (run': seq<System>, steps': seq<Step>)
    requires run != [] && IsRun(c, l, run, steps)
    requires var s := Last(run);
             w in s.procs && w in s.batches && w in s.master.workers && s.procs[w] == Proc(Idle, [], [TestsFinished])
             && w in Released(s.master, w).workers
    ensures IsRun(c, l, run', steps') && run' != [] && run'[0] == run[0]
    ensures var s := Last(run);
            Last(run') == Answered(c, l, Idled(s, w, []).(master := Released(s.master, w), batches := s.batches[w := []]), w)
  {
    hide IsRun, Schedule, Released;
    assert [TestsFinished][1..] == [];
    run', steps' := Step1(c, l, run, steps, Deliver(w));
  }

  /** A worker receives a batch and works through it, and all its results are recorded. */
  lemma Work(c: Conflicts, l: Limits, run: seq<System>, steps: seq<Step>, w: Worker, batch: seq<Test>)
      returns (run': seq<System>, steps': seq<Step>)
    requires run != [] && IsRun(c, l, run, steps)
    requires var s := Last(run); w in s.procs && w in s.batches && s.procs[w] == Proc(Idle, [RunTests(batch)], [])
    ensures IsRun(c, l, run', steps') && run' != [] && run'[0] == run[0]
    ensures Last(run') == Idled(Last(run), w, [TestsFinished]).(results := Last(run).results + batch)
  {
    hide IsRun;
    assert [RunTests(batch)][1..] == [];
    run', steps' := Step1(c, l, run, steps, Receive(w));
    run', steps' := RunRest(c, l, run', steps', w, batch, 0);
    assert batch[0..] == batch;
    assert [] + [TestsFinished] == [TestsFinished];
    run', steps' := Step1(c, l, run', steps', Finish(w));
  }

  lemma {:induction false} RunRest(c: Conflicts, l: Limits, run: seq<System>, steps: seq<Step>, w: Worker,
                                   batch: seq<Test>, i: nat)
      returns (run': seq<System>, steps': seq<Step>)
    requires run != [] && IsRun(c, l, run, steps) && i <= |batch|
    requires var s := Last(run); w in s.procs && w in s.batches && s.procs[w] == Proc(Running(batch, i), [], [])
    ensures IsRun(c, l, run', steps') && run' != [] && run'[0] == run[0]
    ensures var s := Last(run);
            Last(run') == s.(procs := s.procs[w := Proc(Running(batch, |batch|), [], [])], results := s.results + batch[i..])
    decreases |batch| - i
  {
    hide IsRun;
    var s := Last(run);
    if i == |batch| {
      assert s.results + [] == s.results && s.procs[w := s.procs[w]] == s.procs;
      run', steps' := run, steps;
    } else {
      var t := batch[i];
      run', steps' := Step1(c, l, run, steps, RunTest(w));
      assert [] + [TestResult(t)] == [TestResult(t)] && [TestResult(t)][1..] == [];
      run', steps' := Step1(c, l, run', steps', Deliver(w));
      run', steps' := RunRest(c, l, run', steps', w, batch, i + 1);
      assert s.results + [t] + batch[i + 1..] == s.results + batch[i..];
    }
  }

  lemma LastTwoDiffer(c: Conflicts, k: Key, before: seq<Test>, early: Test, late: Test)
    requires k in c(early) && k in c(late) && early != late && !IsSequential(c, early) && !IsSequential(c, late)
    ensures Pick(c, Shares(k), before + [late, early]) != Pick(c, Shares(k), before + [early, late])
  {
    PickConcat(c, Shares(k), before, [late, early]);
    PickConcat(c, Shares(k), before, [early, late]);
    var p := Pick(c, Shares(k), before);
    PickPair(c, k, late, early);
    PickPair(c, k, early, late);
    assert (p + [late, early])[|p|] == late && (p + [early, late])[|p|] == early;
  }

  lemma PickPair(c: Conflicts, k: Key, t: Test, u: Test)
    requires k in c(t) && k in c(u) && !IsSequential(c, t) && !IsSequential(c, u)
    ensures Pick(c, Shares(k), [t, u]) == [t, u]
  {
    PickOne(c, Shares(k), t);
    PickOne(c, Shares(k), u);
    PickConcat(c, Shares(k), [t], [u]);
    assert [t] + [u] == [t, u];
  }

  lemma InitialOfFour(c: Conflicts, t0: Test, t1: Test, t2: Test, t3: Test)
    requires !IsSequential(c, t0) && !IsSequential(c, t1) && !IsSequential(c, t2) && !IsSequential(c, t3)
    ensures Initial(c, [t0, t1, t2, t3], 2) == MasterState([t3, t2, t1, t0], [], map[], [], 0, {1, 2})
    ensures |Ordinary(c, [t0, t1, t2, t3])| == 4
  {
    assert Front([t0]) == [] && Front([t0, t1]) == [t0] && Front([t0, t1, t2]) == [t0, t1];
    assert Front([t0, t1, t2, t3]) == [t0, t1, t2];
    assert Ordinary(c, [t0]) == [t0] && Sequential(c, [t0]) == [];
    assert Ordinary(c, [t0, t1]) == [t0, t1] && Sequential(c, [t0, t1]) == [];
    assert Ordinary(c, [t0, t1, t2]) == [t0, t1, t2] && Sequential(c, [t0, t1, t2]) == [];
    assert Ordinary(c, [t0, t1, t2, t3]) == [t0, t1, t2, t3] && Sequential(c, [t0, t1, t2, t3]) == [];
    ReverseSuffix([t0, t1, t2, t3], 0);
    ReverseSuffix([t0, t1, t2, t3], 1);
    ReverseSuffix([t0, t1, t2, t3], 2);
    ReverseSuffix([t0, t1, t2, t3], 3);
    assert [t0, t1, t2, t3][0..] == [t0, t1, t2, t3];
    assert WorkerIds(2) == {1, 2};
  }

  lemma FirstBatch(c: Conflicts, l: Limits, m: MasterState, holder: Test, filler: Test, early: Test, late: Test)
    requires m == MasterState([late, early, filler, holder], [], map[], [], 0, {1, 2})
    requires l == Limits(true, false, 4) && c(filler) == [] && |c(holder)| == 2 && c(holder)[0] != c(holder)[1]
    ensures var k, j := c(holder)[0], c(holder)[1];
            Schedule(c, l, m, 1)
            == Answer(MasterState([late, early], [], map[], [Binding(k, 1), Binding(j, 1)], 1, {1, 2}), [holder, filler])
  {
    hide Fill, BindFiles;
    assert |m.workers| == 2 && BatchSize(l, 2) == 1;
    assert m.testFiles == [late, early] + [filler, holder];
    FillTwo(c, [late, early], filler, holder);
    BindTwo(c, holder, filler);
  }

  /** With no key in use, the two tests on top make a batch. */
  lemma FillTwo(c: Conflicts, rest: seq<Test>, second: Test, first: Test)
    ensures Fill(c, [], 1, Filling([], rest + [second, first], map[])) == Filling([first, second], rest, map[])
  {
    var tests := rest + [second, first];
    var f0 := Filling([], tests, map[]);
    assert Last(tests) == first && Front(tests) == rest + [second] && Front(rest + [second]) == rest;
    assert Blocking(c(first), []).None? && Blocking(c(second), []).None?;
    var f1 := FillStep(c, [], f0);
    assert f1 == Filling([first], rest + [second], map[]);
    var f2 := FillStep(c, [], f1);
    assert f2 == Filling([first, second], rest, map[]);
    assert Fill(c, [], 1, f0) == Fill(c, [], 1, f1) == Fill(c, [], 1, f2) == f2;
  }

  lemma BindTwo(c: Conflicts, holder: Test, filler: Test)
    requires c(filler) == [] && |c(holder)| == 2 && c(holder)[0] != c(holder)[1]
    ensures BindFiles(c, [], [holder, filler], 1) == [Binding(c(holder)[0], 1), Binding(c(holder)[1], 1)]
  {
    assert Front([holder, filler]) == [holder] && Front([holder]) == [];
    var keys := c(holder);
    assert Front(keys) == [keys[0]] && Front([keys[0]]) == [];
    assert BindKeys([], [keys[0]], 1) == [Binding(keys[0], 1)];
    var first := [Binding(keys[0], 1)];
    assert first[1..] == [] && Bind(first, keys[1], 1) == first + Bind(first[1..], keys[1], 1);
    assert BindFiles(c, [], [holder], 1) == BindKeys([], keys, 1);
    assert BindFiles(c, [], [holder, filler], 1) == BindFiles(c, [], [holder], 1);
  }

  lemma SecondAnswer(c: Conflicts, l: Limits, m: MasterState, early: Test, late: Test)
    requires c(early) != [] && c(late) != [] && c(early)[0] != c(late)[0] && l == Limits(true, false, 4)
    requires m == MasterState([late, early], [], map[], [Binding(c(early)[0], 1), Binding(c(late)[0], 1)], 1, {1, 2})
    ensures Schedule(c, l, m, 2)
         == Answer(m.(testFiles := [], waitingTests := map[c(early)[0] := [early], c(late)[0] := [late]], workers := {1}), [])
  {
    var k, j, active := c(early)[0], c(late)[0], m.activeConflicts;
    assert active[0].key == k && active[1].key == j;
    assert Blocking(c(early), active) == Some(k) && Blocking(c(late), active) == Some(j);
    assert [] + [early] == [early] && [] + [late] == [late];
    var f0 := Filling([], [late, early], map[]);
    assert Front([late, early]) == [late] && Front([late]) == [];
    var f1 := FillStep(c, active, f0);
    assert f1 == Filling([], [late], map[k := [early]]);
    var f2 := FillStep(c, active, f1);
    assert f2 == Filling([], [], map[k := [early], j := [late]]);
    assert |m.workers| == 2 && BatchSize(l, 2) == 1;
    assert Fill(c, active, 1, f0) == Fill(c, active, 1, f1) == Fill(c, active, 1, f2) == f2;
    assert {1, 2} - {2} == {1};
  }

  lemma LastBatch(c: Conflicts, l: Limits, m: MasterState, early: Test, late: Test)
    requires c(early) != [] && c(late) != [] && c(early)[0] != c(late)[0] && l == Limits(true, false, 4)
    requires var k, j := c(early)[0], c(late)[0];
             m == MasterState([], [], map[k := [early], j := [late]], [Binding(k, 1), Binding(j, 1)], 1, {1})
    ensures 1 in Released(m, 1).workers && Schedule(c, l, Released(m, 1), 1).files == [late, early]
  {
    hide Fill;
    ReleaseTwo(c, m, early, late);
    assert |{1}| == 1 && BatchSize(l, 1) == 1;
    FillTwo(c, [], early, late);
    EmptyConcat([early, late]);
  }

  /** The queue that is released last is refilled on top. */
  lemma ReleaseTwo(c: Conflicts, m: MasterState, early: Test, late: Test)
    requires c(early) != [] && c(late) != [] && c(early)[0] != c(late)[0]
    requires var k, j := c(early)[0], c(late)[0];
             m == MasterState([], [], map[k := [early], j := [late]], [Binding(k, 1), Binding(j, 1)], 1, {1})
    ensures Released(m, 1) == MasterState([early, late], [], map[], [], 0, {1})
  {
    var k, j, active := c(early)[0], c(late)[0], m.activeConflicts;
    assert Front(active) == [Binding(k, 1)] && Front([Binding(k, 1)]) == [];
    ReverseOne([early]);
    ReverseOne([late]);
    var r1 := ReleaseKeys(m, [Binding(k, 1)], 1);
    assert Last([Binding(k, 1)]) == Binding(k, 1) && ReleaseKeys(m, [], 1) == m;
    assert r1 == ReleaseKey(m, Binding(k, 1), 1);
    assert r1 == m.(testFiles := [early], waitingTests := map[j := [late]]) by {
      assert m.waitingTests - {k} == map[j := [late]];
      assert [] + [early] == [early];
    }
    var r2 := ReleaseKeys(m, active, 1);
    assert r2 == ReleaseKey(r1, Binding(j, 1), 1);
    assert r2 == m.(testFiles := [early, late], waitingTests := map[]) by {
      assert r1.waitingTests - {j} == map[];
      assert [early] + [late] == [early, late];
    }
    assert Without(active[1..], 1) == Without(active[1..][1..], 1) == [];
    assert Without(active, 1) == [];
  }
}
