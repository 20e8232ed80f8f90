/** The master of the parallel test run: its bookkeeping as a value (MasterState and the functions
    on it) and the object that updates that bookkeeping in place (Master). */
module SchedulerMaster {
  import opened Collections

  type Test = string
  type Key = string
  type Worker = int

  /** The conflict keys of every test file, in the order they are listed for it. */
  type Conflicts = Test -> seq<Key>

  /** The key of a test that must run while nothing else does. */
  const ALL: Key := "all"

  predicate IsSequential(c: Conflicts, t: Test) {
    ALL in c(t)
  }

  /** One entry of the map from conflict keys to workers, which keeps insertion order. */
  datatype Binding = Binding(key: Key, worker: Worker)

  predicate IsActive(active: seq<Binding>, k: Key) {
    exists i :: 0 <= i < |active| && active[i].key == k
  }

  /** The first of the keys that some running batch holds. */
  function Blocking(keys: seq<Key>, active: seq<Binding>): (r: Option<Key>)
    ensures r.None? <==> forall k :: k in keys ==> !IsActive(active, k)
    ensures r.Some? ==> r.value in keys && IsActive(active, r.value)
  {
    if keys == [] then None
    else if IsActive(active, keys[0]) then Some(keys[0])
    else Blocking(keys[1..], active)
  }

  type Waiting = map<Key, seq<Test>>

  function Enqueue(waiting: Waiting, k: Key, t: Test): Waiting {
    waiting[k := (if k in waiting then waiting[k] else []) + [t]]
  }

  /** Key k now belongs to worker w; an existing entry keeps its place. */
  function Bind(active: seq<Binding>, k: Key, w: Worker): seq<Binding> {
    if active == [] then [Binding(k, w)]
    else if active[0].key == k then [Binding(k, w)] + active[1..]
    else [active[0]] + Bind(active[1..], k, w)
  }

  function BindKeys(active: seq<Binding>, keys: seq<Key>, w: Worker): seq<Binding> {
    if keys == [] then active else Bind(BindKeys(active, Front(keys), w), Last(keys), w)
  }

  function BindFiles(c: Conflicts, active: seq<Binding>, files: seq<Test>, w: Worker): seq<Binding> {
    if files == [] then active
    else BindKeys(BindFiles(c, active, Front(files), w), c(Last(files)), w)
  }

  /** What the master knows. The list of pending tests is popped from its end. */
  datatype MasterState = MasterState(
    testFiles: seq<Test>,
    sequentialTests: seq<Test>,
    waitingTests: Waiting,
    activeConflicts: seq<Binding>,
    testsInProgress: int,
    workers: set<Worker>)

  /** The entries of other workers. */
  function Without(active: seq<Binding>, w: Worker): (r: seq<Binding>)
    ensures forall b :: b in r <==> b in active && b.worker != w
  {
    if active == [] then []
    else if active[0].worker == w then Without(active[1..], w)
    else [active[0]] + Without(active[1..], w)
  }

  /** Drops worker w's entry at the head of `snapshot`, if it is one: the tests that waited for its
      key become pending again. */
  function ReleaseKey(m: MasterState, b: Binding, w: Worker): MasterState {
    if b.worker == w && b.key in m.waitingTests then
      m.(testFiles := m.testFiles + Reverse(m.waitingTests[b.key]),
         waitingTests := m.waitingTests - {b.key})
    else
      m
  }

  function ReleaseKeys(m: MasterState, snapshot: seq<Binding>, w: Worker): MasterState {
    if snapshot == [] then m
    else ReleaseKey(ReleaseKeys(m, Front(snapshot), w), Last(snapshot), w)
  }

  /** The effect of a tests_finished message of worker w, before new work is handed out. */
  function Released(m: MasterState, w: Worker): MasterState {
    var r := ReleaseKeys(m, m.activeConflicts, w);
    r.(activeConflicts := Without(m.activeConflicts, w), testsInProgress := m.testsInProgress - 1)
  }

  /** A batch under construction. */
  datatype Filling = Filling(files: seq<Test>, testFiles: seq<Test>, waiting: Waiting)

  /** One turn of the loop that fills a batch: the test on top joins the batch or waits. */
  function FillStep(c: Conflicts, active: seq<Binding>, f: Filling): Filling
    requires f.testFiles != []
  {
    var file := Last(f.testFiles);
    match Blocking(c(file), active)
    case None => Filling(f.files + [file], Front(f.testFiles), f.waiting)
    case Some(k) => Filling(f.files, Front(f.testFiles), Enqueue(f.waiting, k, file))
  }

  function Fill(c: Conflicts, active: seq<Binding>, batchSize: nat, f: Filling): (r: Filling)
    ensures |f.files| <= batchSize + 1 ==> |r.files| <= batchSize + 1
    ensures r.testFiles == [] || |r.files| > batchSize
    decreases |f.testFiles|
  {
    if |f.files| <= batchSize && f.testFiles != [] then
      Fill(c, active, batchSize, FillStep(c, active, f))
    else
      f
  }

  /** The options that bound a batch. */
  datatype Limits = Limits(valgrind: bool, shuffle: bool, totalFileCount: nat)

  function CeilDiv(a: nat, b: nat): (q: nat)
    requires b > 0
    ensures b * q >= a
    ensures q > 0 ==> b * (q - 1) < a
  {
    (a + b - 1) / b
  }

  function BatchSize(l: Limits, live: nat): (n: nat)
    requires live > 0
    ensures 1 <= n <= 32
  {
    var maxBatchSize := if l.valgrind then 1 else if l.shuffle then 4 else 32;
    var perWorker := CeilDiv(l.totalFileCount, live);
    var average := if perWorker < 1 then 1 else perWorker;
    if maxBatchSize < average then maxBatchSize else average
  }

  /** Sequential tests become pending once a single worker is left. */
  function AdmitSequential(m: MasterState): MasterState {
    if |m.workers| == 1 && m.sequentialTests != [] then
      m.(testFiles := m.testFiles + m.sequentialTests, sequentialTests := [])
    else
      m
  }

  /** The answer to a worker that has nothing to do: a batch, or (for the empty batch) dismissal. */
  datatype Answer = Answer(master: MasterState, files: seq<Test>)

  function Schedule(c: Conflicts, l: Limits, m0: MasterState, w: Worker): (a: Answer)
    requires w in m0.workers
  {
    var m := AdmitSequential(m0);
    var f := Fill(c, m.activeConflicts, BatchSize(l, |m.workers|), Filling([], m.testFiles, m.waitingTests));
    var m' := m.(testFiles := f.testFiles, waitingTests := f.waiting);
    if f.files != [] then
      Answer(m'.(activeConflicts := BindFiles(c, m.activeConflicts, f.files, w),
                 testsInProgress := m.testsInProgress + 1), f.files)
    else
      Answer(m'.(workers := m.workers - {w}), [])
  }

  /** Ordinary tests of a suite, and the tests with key "all". */
  function Ordinary(c: Conflicts, tests: seq<Test>): seq<Test> {
    if tests == [] then []
    else Ordinary(c, Front(tests)) + if IsSequential(c, Last(tests)) then [] else [Last(tests)]
  }

  function Sequential(c: Conflicts, tests: seq<Test>): seq<Test> {
    if tests == [] then []
    else Sequential(c, Front(tests)) + if IsSequential(c, Last(tests)) then [Last(tests)] else []
  }

  /** The number of workers that are started. */
  function WorkerCount(requested: int, files: nat): (n: nat)
    ensures n >= 1
    ensures n > 1 ==> n <= files && n <= requested
  {
    var n := if requested < files then requested else files;
    if n < 1 then 1 else n
  }

  function WorkerIds(n: nat): (ws: set<Worker>)
    ensures forall w :: w in ws <==> 1 <= w <= n
    ensures |ws| == n
  {
    if n == 0 then {} else WorkerIds(n - 1) + {n}
  }

  /** The master before the first message, for a run whose test order is not shuffled. */
  function Initial(c: Conflicts, tests: seq<Test>, requested: int): MasterState {
    var ordinary := Ordinary(c, tests);
    MasterState(Reverse(ordinary), Sequential(c, tests), map[], [], 0,
                WorkerIds(WorkerCount(requested, |ordinary|)))
  }

  /** The master's loop goes on while this holds. */
  predicate Unfinished(m: MasterState) {
    m.testFiles != [] || m.sequentialTests != [] || m.testsInProgress > 0
  }

  /** The master process: the variables of its main loop, updated in place. */
  class Master {
    var testFiles: seq<Test>
    var sequentialTests: seq<Test>
    var waitingTests: Waiting
    var activeConflicts: seq<Binding>
    var testsInProgress: int
    var workerProcs: set<Worker>
    var limits: Limits
    const fileConflictsWith: Conflicts

    ghost function State(): MasterState
      reads this
    {
      MasterState(testFiles, sequentialTests, waitingTests, activeConflicts, testsInProgress, workerProcs)
    }

    /** Separates the sequential tests, reverses the rest and starts the workers. */
    constructor (conflicts: Conflicts, tests: seq<Test>, requested: int, valgrind: bool)
      ensures fileConflictsWith == conflicts
      ensures State() == Initial(conflicts, tests, requested)
      ensures limits == Limits(valgrind, false, |Ordinary(conflicts, tests)|)
    {
      fileConflictsWith := conflicts;
      waitingTests := map[];
      activeConflicts := [];
      testsInProgress := 0;
      var remaining, sequential := [], [];
      for i := 0 to |tests|
        invariant remaining == Ordinary(conflicts, tests[..i])
        invariant sequential == Sequential(conflicts, tests[..i])
      {
        assert Front(tests[..i + 1]) == tests[..i];
        if ALL in conflicts(tests[i]) {
          sequential := sequential + [tests[i]];
        } else {
          remaining := remaining + [tests[i]];
        }
      }
      assert tests[..|tests|] == tests;
      sequentialTests := sequential;
      testFiles := Reverse(remaining);
      var n := WorkerCount(requested, |remaining|);
      limits := Limits(valgrind, false, |remaining|);
      workerProcs := WorkerIds(n);
    }

    /** Handles tests_finished up to the point where it goes on like ready. */
    method FinishTests(w: Worker)
      modifies this
      ensures State() == Released(old(State()), w)
      ensures limits == old(limits)
    {
      testsInProgress := testsInProgress - 1;
      var snapshot, kept := activeConflicts, [];
      ghost var m := old(State());
      ReleaseKeysFrame(m, snapshot, w);
      for i := 0 to |snapshot|
        invariant testFiles == ReleaseKeys(m, snapshot[..i], w).testFiles
        invariant waitingTests == ReleaseKeys(m, snapshot[..i], w).waitingTests
        invariant kept == Without(snapshot[..i], w)
        invariant testsInProgress == m.testsInProgress - 1
        invariant unchanged(`sequentialTests) && unchanged(`workerProcs) && unchanged(`limits)
      {
        DropBinding(snapshot, i, w);
        if snapshot[i].worker != w {
          kept := kept + [snapshot[i]];
        } else if snapshot[i].key in waitingTests {
          Requeue(snapshot[i].key);
        }
      }
      assert snapshot[..|snapshot|] == snapshot;
      activeConflicts := kept;
    }

    /** Makes the tests that wait for a key pending again. */
    method Requeue(k: Key)
      requires k in waitingTests
      modifies this
      ensures State() == old(State()).(testFiles := old(testFiles) + Reverse(old(waitingTests)[k]),
                                       waitingTests := old(waitingTests) - {k})
      ensures limits == old(limits)
    {
      var queue := waitingTests[k];
      ghost var all, before := queue, testFiles;
      while queue != []
        invariant |queue| <= |all| && queue == all[..|queue|]
        invariant testFiles == before + Reverse(all[|queue|..])
        invariant unchanged(`sequentialTests) && unchanged(`waitingTests) && unchanged(`activeConflicts)
        invariant unchanged(`testsInProgress) && unchanged(`workerProcs) && unchanged(`limits)
      {
        ReverseSuffix(all, |queue| - 1);
        testFiles := testFiles + [Last(queue)];
        queue := Front(queue);
      }
      assert all[0..] == all;
      waitingTests := waitingTests - {k};
    }

    /** Handles ready: fills a batch for worker w, or dismisses the worker. */
    method HandOut(w: Worker) returns (files: seq<Test>)
      requires w in workerProcs
      modifies this
      ensures Answer(State(), files) == Schedule(fileConflictsWith, limits, old(State()), w)
      ensures limits == old(limits)
    {
      if |workerProcs| == 1 && sequentialTests != [] {
        testFiles := testFiles + sequentialTests;
        sequentialTests := [];
      }
      var maxBatchSize := if limits.valgrind then 1 else if limits.shuffle then 4 else 32;
      var perWorker := CeilDiv(limits.totalFileCount, |workerProcs|);
      var average := if perWorker < 1 then 1 else perWorker;
      files := FillBatch(if maxBatchSize < average then maxBatchSize else average);
      if files != [] {
        Activate(files, w);
        testsInProgress := testsInProgress + 1;
      } else {
        workerProcs := workerProcs - {w};
      }
    }

    /** Pops pending tests into a batch; a test with a key in use is put aside. */
    method FillBatch(batchSize: nat) returns (files: seq<Test>)
      modifies this
      ensures limits == old(limits)
      ensures var f := Fill(fileConflictsWith, old(activeConflicts), batchSize,
                            Filling([], old(testFiles), old(waitingTests)));
              && files == f.files
              && State() == old(State()).(testFiles := f.testFiles, waitingTests := f.waiting)
    {
      files := [];
      ghost var goal := Fill(fileConflictsWith, activeConflicts, batchSize, Filling(files, testFiles, waitingTests));
      while |files| <= batchSize && testFiles != []
        invariant State() == old(State()).(testFiles := testFiles, waitingTests := waitingTests)
        invariant limits == old(limits)
        invariant goal == Fill(fileConflictsWith, activeConflicts, batchSize, Filling(files, testFiles, waitingTests))
        decreases |testFiles|
      {
        var file := Last(testFiles);
        testFiles := Front(testFiles);
        var blocked := FindActive(fileConflictsWith(file));
        match blocked {
          case Some(k) => waitingTests := Enqueue(waitingTests, k, file);
          case None => files := files + [file];
        }
      }
    }

    /** The scan of a test's keys for one that is in use. */
    method FindActive(keys: seq<Key>) returns (r: Option<Key>)
      ensures r == Blocking(keys, activeConflicts)
    {
      for i := 0 to |keys|
        invariant Blocking(keys, activeConflicts) == Blocking(keys[i..], activeConflicts)
      {
        if IsActive(activeConflicts, keys[i]) {
          return Some(keys[i]);
        }
      }
      r := None;
    }

    /** Gives every key of the batch to worker w. */
    method Activate(files: seq<Test>, w: Worker)
      modifies this`activeConflicts
      ensures activeConflicts == BindFiles(fileConflictsWith, old(activeConflicts), files, w)
    {
      var start := activeConflicts;
      for i := 0 to |files|
        invariant activeConflicts == BindFiles(fileConflictsWith, start, files[..i], w)
      {
        var before := activeConflicts;
        var keys := fileConflictsWith(files[i]);
        for j := 0 to |keys|
          invariant activeConflicts == BindKeys(before, keys[..j], w)
        {
          assert Front(keys[..j + 1]) == keys[..j];
          activeConflicts := Bind(activeConflicts, keys[j], w);
        }
        assert keys[..|keys|] == keys;
        assert Front(files[..i + 1]) == files[..i];
      }
      assert files[..|files|] == files;
    }
  }

  /** Releasing keys touches only the pending and the waiting tests. */
  lemma {:induction false} ReleaseKeysFrame(m: MasterState, snapshot: seq<Binding>, w: Worker)
    ensures var r := ReleaseKeys(m, snapshot, w);
            r == m.(testFiles := r.testFiles, waitingTests := r.waitingTests)
  {
    if snapshot != [] {
      ReleaseKeysFrame(m, Front(snapshot), w);
    }
  }

  lemma DropBinding(s: seq<Binding>, i: nat, w: Worker)
    requires i < |s|
    ensures Front(s[..i + 1]) == s[..i]
    ensures Without(s[..i + 1], w) == Without(s[..i], w) + if s[i].worker == w then [] else [s[i]]
  {
    assert s[..i + 1] == s[..i] + [s[i]];
    WithoutConcat(s[..i], [s[i]], w);
  }

  lemma {:induction false} WithoutConcat(a: seq<Binding>, b: seq<Binding>, w: Worker)
    ensures Without(a + b, w) == Without(a, w) + Without(b, w)
  {
    if a == [] {
      assert a + b == b;
    } else {
      assert (a + b)[1..] == a[1..] + b;
      WithoutConcat(a[1..], b, w);
    }
  }
}
