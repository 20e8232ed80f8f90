/** The size of batches: what it is for, and the first batch of a run. */
module SchedulerBatches {
  import opened Collections
  import opened SchedulerMaster
  import opened SchedulerProtocol
  import opened SchedulerSafety
  import opened SchedulerTheorems

  /** A batch size is at most 1 under valgrind, 4 with shuffle and 32 otherwise. Within that limit it
      is the least size with which one batch for every worker takes all tests of the suite. */
  ghost predicate SizeFits(l: Limits, live: nat, n: nat) {
    && 1 <= n && n <= 32
    && (l.valgrind ==> n == 1)
    && (!l.valgrind && l.shuffle ==> n <= 4)
    && (n == 1 || live * (n - 1) < l.totalFileCount)
    && (live * n >= l.totalFileCount || l.valgrind || (l.shuffle && n == 4) || (!l.shuffle && n == 32))
  }

  /** A smaller product has a smaller factor. */
  lemma {:induction false} Factor(live: nat, n: nat, k: nat)
    requires n < k
    ensures live * n <= live * (k - 1)
    decreases k
  {
    if n < k - 1 {
      Factor(live, n, k - 1);
      assert live * (k - 1) == live * (k - 2) + live;
    }
  }

  /** There is one such size, and it is the one the master uses. */
  lemma BatchSizeIff(l: Limits, live: nat, n: nat)
    requires live > 0
    ensures SizeFits(l, live, n) <==> n == BatchSize(l, live)
  {
    BatchSizeFits(l, live);
    var m := BatchSize(l, live);
    if SizeFits(l, live, n) {
      if n < m {
        Factor(live, n, m);
      } else if m < n {
        Factor(live, m, n);
      }
    }
  }

  lemma BatchSizeFits(l: Limits, live: nat)
    requires live > 0
    ensures SizeFits(l, live, BatchSize(l, live))
  {
    var n, q := BatchSize(l, live), CeilDiv(l.totalFileCount, live);
    if 0 < n < q {
      Factor(live, n - 1, q);
    }
  }

  // ---------------------------------------------------------------- the first batch

  lemma NothingBlocks(keys: seq<Key>)
    ensures Blocking(keys, []) == None
  {
  }

  /** With no key in use a batch takes tests from the end of the list up to its size. */
  lemma {:induction false} FillFree(c: Conflicts, n: nat, f: Filling)
    requires |f.files| <= n + 1
    ensures var all := f.files + Reverse(f.testFiles);
            Fill(c, [], n, f).files == if |all| <= n + 1 then all else all[..n + 1]
    decreases |f.testFiles|
  {
    hide Blocking;
    var all := f.files + Reverse(f.testFiles);
    if f.testFiles == [] {
      assert all == f.files;
    } else {
      var file := Last(f.testFiles);
      assert f.testFiles == Front(f.testFiles) + [file];
      ReverseConcat(Front(f.testFiles), [file]);
      ReverseOne([file]);
      if |f.files| <= n {
        NothingBlocks(c(file));
        FillFree(c, n, FillStep(c, [], f));
        assert all == (f.files + [file]) + Reverse(Front(f.testFiles));
      } else {
        assert all[..n + 1] == f.files;
      }
    }
  }

  /** No answer was given yet: the master is as it was at the start. */
  lemma {:induction false} BeforeFirst(c: Conflicts, l: Limits, tests: seq<Test>, requested: int,
                                       run: seq<System>, steps: seq<Step>, i: nat)
    requires IsRun(c, l, run, steps) && Init(c, l, tests, requested, run[0]) && i < |run|
    requires Answers(run, steps, i) == 0
    ensures run[i].master == run[0].master && run[i].batches == run[0].batches && run[i].log == []
  {
    hide Schedule, Released;
    if i > 0 {
      BeforeFirst(c, l, tests, requested, run, steps, i - 1);
      assert run[i] == Next(c, l, run[i - 1], steps[i - 1]);
    }
  }

  /** The order in which tests are taken at the start: with a single worker the tests with key "all"
      come first, from the last on. */
  function StartOrder(c: Conflicts, tests: seq<Test>, single: bool): seq<Test> {
    (if single then Reverse(Sequential(c, tests)) else []) + Ordinary(c, tests)
  }

  /** The first answer of a run hands out one test more than the batch size for the number of tests and
      workers, or all there are. Without shuffle these are the first ones of the suite, in order. */
  lemma FirstBatch(c: Conflicts, l: Limits, tests: seq<Test>, requested: int,
                   run: seq<System>, steps: seq<Step>, i: nat, n: nat)
    requires IsRun(c, l, run, steps) && Init(c, l, tests, requested, run[0]) && i < |steps|
    requires Answers(run, steps, i) == 0 && Asks(run[i], steps[i])
    requires SizeFits(l, WorkerCount(requested, |Ordinary(c, tests)|), n)
    ensures var order := StartOrder(c, tests, WorkerCount(requested, |Ordinary(c, tests)|) == 1);
            var size := if |order| <= n + 1 then |order| else n + 1;
            |run[i + 1].log| == size && (!l.shuffle ==> run[i + 1].log == order[..size])
  {
    hide Schedule, Inv, BatchSize;
    BeforeFirst(c, l, tests, requested, run, steps, i);
    RunKeeps(c, l, tests, requested, run, steps, i);
    var w := steps[i].w;
    AsksReady(c, run[i], w);
    BatchSizeIff(l, WorkerCount(requested, |Ordinary(c, tests)|), n);
    FirstAnswer(c, l, tests, requested, run[0], w, n);
    assert run[i + 1] == Next(c, l, run[i], steps[i]);
    assert run[i + 1].log == [] + Schedule(c, l, run[0].master, w).files;
  }

  lemma AsksReady(c: Conflicts, s: System, w: Worker)
    requires Inv(c, s, {}) && w in s.procs && w in s.batches && s.batches[w] == [] && s.procs[w].outbox != []
    ensures s.procs[w].outbox[0].Ready?
  {
  }

  lemma FirstAnswer(c: Conflicts, l: Limits, tests: seq<Test>, requested: int, s: System, w: Worker, n: nat)
    requires Init(c, l, tests, requested, s) && w in s.master.workers && n == BatchSize(l, |s.master.workers|)
    ensures |s.master.workers| == WorkerCount(requested, |Ordinary(c, tests)|)
    ensures var order := StartOrder(c, tests, |s.master.workers| == 1);
            var size := if |order| <= n + 1 then |order| else n + 1;
            var files := Schedule(c, l, s.master, w).files;
            |files| == size && (!l.shuffle ==> files == order[..size])
  {
    hide BatchSize, Fill, Blocking;
    var m, ordinary := AdmitSequential(s.master), Ordinary(c, tests);
    FillFree(c, n, Filling([], m.testFiles, m.waitingTests));
    StartReversed(c, l, tests, requested, s);
    EmptyConcat(Reverse(m.testFiles));
  }

  lemma StartReversed(c: Conflicts, l: Limits, tests: seq<Test>, requested: int, s: System)
    requires Init(c, l, tests, requested, s)
    ensures var all, order := Reverse(AdmitSequential(s.master).testFiles), StartOrder(c, tests, |s.master.workers| == 1);
            |all| == |order| && (!l.shuffle ==> all == order)
  {
    var ordinary, sequential := Ordinary(c, tests), Sequential(c, tests);
    ReverseTwice(ordinary);
    ReverseConcat(s.master.testFiles, sequential);
    ReverseIsPermutation(s.master.testFiles);
    ReverseIsPermutation(sequential);
    ReverseIsPermutation(ordinary);
    assert |s.master.testFiles| == |multiset(s.master.testFiles)| == |ordinary|;
    if sequential == [] {
      EmptyConcat(ordinary);
    }
  }
}
