/** What every reachable state of a parallel test run satisfies: no test is lost or duplicated, tests
    that share a conflict key never run on different workers, and the run cannot get stuck. */
module SchedulerSafety {
  import opened Collections
  import opened SchedulerMaster
  import opened SchedulerProtocol

  // ---------------------------------------------------------------- the invariant

  type Batches = map<Worker, seq<Test>>

  /** Every live worker is in a state that fits its batch; `asked` workers await an answer. */
  ghost predicate Workers(s: System, asked: set<Worker>) {
    && s.procs.Keys == s.master.workers && s.batches.Keys == s.master.workers
    && forall w :: w in s.procs ==> ProcOk(s.procs[w], s.batches[w], w in asked)
  }

  /** The entries of activeConflicts are exactly the keys of the batches in progress. */
  ghost predicate Keys(c: Conflicts, active: seq<Binding>, batches: Batches) {
    && (forall b, d :: b in active && d in active && b.key == d.key ==> b == d)
    && (forall b :: b in active ==> b.worker in batches && HasKey(c, batches[b.worker], b.key))
    && (forall w, k :: w in batches && HasKey(c, batches[w], k) ==> Binding(k, w) in active)
  }

  ghost predicate HasKey(c: Conflicts, tests: seq<Test>, k: Key) {
    exists t :: t in tests && k in c(t)
  }

  /** Tests wait only for keys in use that they have. */
  ghost predicate Queues(c: Conflicts, active: seq<Binding>, waiting: Waiting) {
    forall k :: k in waiting ==>
      waiting[k] != [] && IsActive(active, k) && forall t :: t in waiting[k] ==> k in c(t)
  }

  /** Tests with key "all" stay out of the way until one worker is left. */
  ghost predicate Alone(c: Conflicts, m: MasterState, batches: Batches) {
    && (forall t :: t in m.sequentialTests ==> IsSequential(c, t))
    && (forall t :: t in m.testFiles && IsSequential(c, t) ==> |m.workers| <= 1)
    && (forall k, t :: k in m.waitingTests && t in m.waitingTests[k] ==> !IsSequential(c, t))
    && (forall w, t :: w in batches && t in batches[w] && IsSequential(c, t) ==> m.workers == {w})
  }

  ghost function Busy(batches: Batches): set<Worker> {
    set w | w in batches && batches[w] != []
  }

  ghost predicate NothingLeft(m: MasterState) {
    m.testFiles == [] && m.sequentialTests == [] && m.waitingTests == map[]
  }

  ghost function Owed(procs: map<Worker, Proc>): map<Worker, seq<Test>> {
    map w | w in procs :: Outstanding(procs[w])
  }

  /** The tests no worker has been given yet. */
  ghost function Undispatched(m: MasterState): multiset<Test> {
    multiset(m.sequentialTests) + (multiset(m.testFiles) + Total(m.waitingTests))
  }

  /** Every test of the suite, wherever it is at the moment. */
  ghost function Everything(s: System): multiset<Test> {
    Undispatched(s.master) + (Total(Owed(s.procs)) + multiset(s.results))
  }

  ghost predicate Inv(c: Conflicts, s: System, asked: set<Worker>) {
    && Workers(s, asked)
    && Keys(c, s.master.activeConflicts, s.batches)
    && Queues(c, s.master.activeConflicts, s.master.waitingTests)
    && Alone(c, s.master, s.batches)
    && s.master.testsInProgress == |Busy(s.batches)|
    && (s.master.workers == {} ==> NothingLeft(s.master))
  }

  // ---------------------------------------------------------------- the parts of a master step

  lemma ActiveIsMember(active: seq<Binding>, k: Key)
    ensures IsActive(active, k) <==> exists w :: Binding(k, w) in active
  {
    if IsActive(active, k) {
      var i :| 0 <= i < |active| && active[i].key == k;
      assert Binding(k, active[i].worker) in active;
    }
  }

  lemma {:induction false} BindMembers(active: seq<Binding>, k: Key, w: Worker)
    requires forall b, d :: b in active && d in active && b.key == d.key ==> b == d
    requires !IsActive(active, k)
    ensures Bind(active, k, w) == active + [Binding(k, w)]
  {
    if active != [] {
      assert active[0].key != k;
      assert forall i :: 0 <= i < |active| - 1 ==> active[1..][i] == active[i + 1];
      BindMembers(active[1..], k, w);
    }
  }

  /** A key of worker w may be given to w again. */
  lemma {:induction false} BindAgain(active: seq<Binding>, k: Key, w: Worker)
    requires forall b, d :: b in active && d in active && b.key == d.key ==> b == d
    requires Binding(k, w) in active
    ensures Bind(active, k, w) == active
  {
    if active[0].key == k {
      assert active[0] in active;
      assert active == [active[0]] + active[1..];
    } else {
      assert active == [active[0]] + active[1..];
      BindAgain(active[1..], k, w);
    }
  }

  /** `after` adds to `before` exactly the given keys, all for worker w. */
  ghost predicate Adds(before: seq<Binding>, after: seq<Binding>, keys: iset<Key>, w: Worker) {
    && (forall b, d :: b in after && d in after && b.key == d.key ==> b == d)
    && (forall b :: b in after <==> b in before || (b.worker == w && b.key in keys))
  }

  lemma BindAdds(before: seq<Binding>, active: seq<Binding>, keys: iset<Key>, k: Key, w: Worker)
    requires Adds(before, active, keys, w)
    requires forall b :: b in before ==> b.key != k
    ensures Adds(before, Bind(active, k, w), keys + iset{k}, w)
  {
    if k in keys {
      assert Binding(k, w) in active;
      BindAgain(active, k, w);
      assert keys + iset{k} == keys;
    } else {
      ActiveIsMember(active, k);
      BindMembers(active, k, w);
    }
  }

  ghost function AsSet(keys: seq<Key>): iset<Key> {
    iset k | k in keys
  }

  lemma {:induction false} BindKeysAdds(before: seq<Binding>, active: seq<Binding>, keys: iset<Key>, more: seq<Key>, w: Worker)
    requires Adds(before, active, keys, w)
    requires forall b :: b in before ==> b.key !in more
    ensures Adds(before, BindKeys(active, more, w), keys + AsSet(more), w)
  {
    if more == [] {
      assert keys + AsSet(more) == keys;
    } else {
      var front := Front(more);
      BindKeysAdds(before, active, keys, front, w);
      BindAdds(before, BindKeys(active, front, w), keys + AsSet(front), Last(more), w);
      assert more == front + [Last(more)];
      assert keys + AsSet(more) == keys + AsSet(front) + iset{Last(more)};
    }
  }

  ghost function KeysOf(c: Conflicts, files: seq<Test>): iset<Key> {
    iset k | HasKey(c, files, k)
  }

  lemma {:induction false} BindFilesAdds(c: Conflicts, before: seq<Binding>, files: seq<Test>, w: Worker)
    requires Adds(before, before, iset{}, w)
    requires forall b :: b in before ==> b.key !in KeysOf(c, files)
    ensures Adds(before, BindFiles(c, before, files, w), KeysOf(c, files), w)
  {
    if files == [] {
      assert KeysOf(c, files) == iset{};
    } else {
      var front, t := Front(files), Last(files);
      assert files == front + [t];
      assert forall k :: HasKey(c, files, k) <==> HasKey(c, front, k) || k in c(t);
      BindFilesAdds(c, before, front, w);
      BindKeysAdds(before, BindFiles(c, before, front, w), KeysOf(c, front), c(t), w);
      assert KeysOf(c, files) == KeysOf(c, front) + AsSet(c(t));
    }
  }

  /** In `r`, exactly the queues of m for worker w's keys in `snapshot` were released; no test is lost. */
  ghost predicate Releases(m: MasterState, snapshot: seq<Binding>, w: Worker, r: MasterState) {
    && (forall k :: k in r.waitingTests <==> k in m.waitingTests && Binding(k, w) !in snapshot)
    && (forall k :: k in r.waitingTests ==> r.waitingTests[k] == m.waitingTests[k])
    && multiset(r.testFiles) + Total(r.waitingTests) == multiset(m.testFiles) + Total(m.waitingTests)
    && (forall t :: t in r.testFiles ==>
          t in m.testFiles || exists k :: k in m.waitingTests && t in m.waitingTests[k])
  }

  lemma ReleasedTotal(r: MasterState, k: Key)
    requires k in r.waitingTests
    ensures multiset(r.testFiles + Reverse(r.waitingTests[k])) + Total(r.waitingTests - {k})
         == multiset(r.testFiles) + Total(r.waitingTests)
  {
    hide Total, Reverse;
    TotalExtract(r.waitingTests, k);
    ReverseIsPermutation(r.waitingTests[k]);
  }

  lemma ReleaseOneMore(m: MasterState, front: seq<Binding>, b: Binding, w: Worker, r: MasterState)
    requires Releases(m, front, w, r)
    ensures Releases(m, front + [b], w, ReleaseKey(r, b, w))
  {
    hide Total, Reverse;
    if b.worker == w && b.key in r.waitingTests {
      var queue := r.waitingTests[b.key];
      ReleasedTotal(r, b.key);
      ReverseIsPermutation(queue);
      forall t | t in Reverse(queue) ensures t in m.waitingTests[b.key] {
        assert t in multiset(Reverse(queue));
      }
    }
  }

  lemma {:induction false} ReleaseFacts(m: MasterState, snapshot: seq<Binding>, w: Worker)
    ensures Releases(m, snapshot, w, ReleaseKeys(m, snapshot, w))
  {
    if snapshot != [] {
      hide Releases, ReleaseKey;
      ReleaseFacts(m, Front(snapshot), w);
      ReleaseOneMore(m, Front(snapshot), Last(snapshot), w, ReleaseKeys(m, Front(snapshot), w));
      Snoc(snapshot);
    }
  }

  ghost function Content(f: Filling): multiset<Test> {
    multiset(f.files) + multiset(f.testFiles) + Total(f.waiting)
  }

  lemma EnqueueTotal(waiting: Waiting, k: Key, t: Test)
    ensures Total(Enqueue(waiting, k, t)) == Total(waiting) + multiset{t}
  {
    hide Total;
    var q := if k in waiting then waiting[k] else [];
    TotalUpdate(waiting, k, q + [t]);
    assert multiset(q + [t]) == multiset(q) + multiset{t};
    if k in waiting {
      TotalExtract(waiting, k);
    } else {
      assert waiting - {k} == waiting;
    }
  }

  /** A test moves from the list to the batch, or to the waiting tests. */
  lemma MoveOne(files: seq<Test>, rest: seq<Test>, waiting: multiset<Test>, t: Test)
    ensures multiset(files + [t]) + multiset(rest) + waiting == multiset(files) + multiset(rest + [t]) + waiting
    ensures multiset(files) + multiset(rest) + (waiting + multiset{t}) == multiset(files) + multiset(rest + [t]) + waiting
  {
    assert multiset(files + [t]) == multiset(files) + multiset{t};
    assert multiset(rest + [t]) == multiset(rest) + multiset{t};
  }

  lemma FillStepKeepsTests(c: Conflicts, active: seq<Binding>, f: Filling)
    requires f.testFiles != []
    ensures Content(FillStep(c, active, f)) == Content(f)
  {
    hide Total, Enqueue, Blocking;
    var file := Last(f.testFiles);
    Snoc(f.testFiles);
    MoveOne(f.files, Front(f.testFiles), Total(f.waiting), file);
    var blocked := Blocking(c(file), active);
    if blocked.Some? {
      EnqueueTotal(f.waiting, blocked.value, file);
    }
  }

  lemma {:induction false} FillKeepsTests(c: Conflicts, active: seq<Binding>, n: nat, f: Filling)
    ensures Content(Fill(c, active, n, f)) == Content(f)
    decreases |f.testFiles|
  {
    if |f.files| <= n && f.testFiles != [] {
      FillStepKeepsTests(c, active, f);
      FillKeepsTests(c, active, n, FillStep(c, active, f));
    }
  }

  /** Where the tests of `r` come from when it is filled from `f`. */
  ghost predicate FilledFrom(c: Conflicts, active: seq<Binding>, f: Filling, r: Filling) {
    && (forall t :: t in r.testFiles ==> t in f.testFiles)
    && (forall t :: t in r.files ==> t in f.files || (t in f.testFiles && Blocking(c(t), active).None?))
    && (forall k, t :: k in r.waiting && t in r.waiting[k] ==>
          (k in f.waiting && t in f.waiting[k]) || (t in f.testFiles && Blocking(c(t), active).Some?))
  }

  /** A batch takes tests whose keys are free; the others wait for a key of theirs that is not. */
  lemma {:induction false} FillFacts(c: Conflicts, active: seq<Binding>, n: nat, f: Filling)
    requires Queues(c, active, f.waiting)
    ensures Queues(c, active, Fill(c, active, n, f).waiting)
    ensures FilledFrom(c, active, f, Fill(c, active, n, f))
    decreases |f.testFiles|
  {
    if |f.files| <= n && f.testFiles != [] {
      hide FilledFrom, Queues, FillStep;
      var g := FillStep(c, active, f);
      FillStepFacts(c, active, f);
      FillFacts(c, active, n, g);
      FilledFromTransitive(c, active, f, g, Fill(c, active, n, g));
    } else {
      hide Queues;
    }
  }

  lemma FillStepFacts(c: Conflicts, active: seq<Binding>, f: Filling)
    requires f.testFiles != [] && Queues(c, active, f.waiting)
    ensures Queues(c, active, FillStep(c, active, f).waiting)
    ensures FilledFrom(c, active, f, FillStep(c, active, f))
  {
    Snoc(f.testFiles);
  }

  lemma FilledFromTransitive(c: Conflicts, active: seq<Binding>, f: Filling, g: Filling, r: Filling)
    requires FilledFrom(c, active, f, g) && FilledFrom(c, active, g, r)
    ensures FilledFrom(c, active, f, r)
  {
  }

  // ---------------------------------------------------------------- every step keeps the invariant

  lemma WorkerStepKeeps(c: Conflicts, l: Limits, s: System, step: Step)
    requires Inv(c, s, {}) && Enabled(s, step) && !step.Deliver?
    ensures Inv(c, Next(c, l, s, step), {})
  {
    var p, batch := s.procs[step.w], s.batches[step.w];
    if batch != [] {
      var k: nat :| WorksOn(p, batch, k);
      WorkerStepOk(p, batch, k, step);
    }
    assert ProcOk(MoveWorker(p, step), batch, false);
  }

  lemma TakeResultKeeps(c: Conflicts, s: System, w: Worker)
    requires Inv(c, s, {}) && w in s.procs && s.procs[w].outbox != []
    requires s.procs[w].outbox[0].TestResult?
    ensures Inv(c, Taken(s, w), {})
  {
    var k: nat :| WorksOn(s.procs[w], s.batches[w], k);
    MessageOk(s.procs[w], s.batches[w], k);
  }

  lemma ReleasedKeys(c: Conflicts, active: seq<Binding>, batches: Batches, w: Worker)
    requires Keys(c, active, batches) && w in batches
    ensures Keys(c, Without(active, w), batches[w := []])
  {
    forall v, k | v in batches[w := []] && HasKey(c, batches[w := []][v], k)
      ensures Binding(k, v) in Without(active, w)
    {
      assert HasKey(c, batches[v], k);
    }
  }

  lemma ReleasedQueues(c: Conflicts, m: MasterState, batches: Batches, w: Worker)
    requires Keys(c, m.activeConflicts, batches)
    requires Queues(c, m.activeConflicts, m.waitingTests)
    ensures Queues(c, Without(m.activeConflicts, w), Released(m, w).waitingTests)
  {
    ReleaseFacts(m, m.activeConflicts, w);
    forall k | k in Released(m, w).waitingTests
      ensures IsActive(Without(m.activeConflicts, w), k)
    {
      ActiveIsMember(m.activeConflicts, k);
      ActiveIsMember(Without(m.activeConflicts, w), k);
    }
  }

  lemma TakeFinishedKeeps(c: Conflicts, s: System, w: Worker)
    requires Inv(c, s, {}) && w in s.procs && s.procs[w].outbox != []
    requires s.procs[w].outbox[0].TestsFinished?
    ensures Inv(c, Taken(s, w), {w})
  {
    hide ReleaseKeys, Keys, Queues;
    var m, s' := s.master, Taken(s, w);
    FinishedFacts(s.procs[w], s.batches[w]);
    ReleaseKeysFrame(m, m.activeConflicts, w);
    ReleasedKeys(c, m.activeConflicts, s.batches, w);
    ReleasedQueues(c, m, s.batches, w);
    ReleasedAlone(c, m, s.batches, w);
    assert Busy(s'.batches) == Busy(s.batches) - {w};
    assert Workers(s', {w}) by { hide WorksOn; }
  }

  lemma FinishedFacts(p: Proc, batch: seq<Test>)
    requires ProcOk(p, batch, false) && p.outbox != [] && p.outbox[0].TestsFinished?
    ensures batch != [] && p == Proc(Idle, [], [TestsFinished]) && p.outbox[1..] == []
  {
    var k: nat :| WorksOn(p, batch, k);
    MessageOk(p, batch, k);
  }

  lemma ReleasedAlone(c: Conflicts, m: MasterState, batches: Batches, w: Worker)
    requires Alone(c, m, batches) && w in batches
    ensures Alone(c, Released(m, w), batches[w := []])
    ensures NothingLeft(m) ==> NothingLeft(Released(m, w))
  {
    hide ReleaseKeys, Total;
    ReleaseFacts(m, m.activeConflicts, w);
    ReleaseKeysFrame(m, m.activeConflicts, w);
    SomeMember(Released(m, w).testFiles);
  }

  lemma TakeReadyKeeps(c: Conflicts, s: System, w: Worker)
    requires Inv(c, s, {}) && w in s.procs && s.procs[w].outbox != []
    requires s.procs[w].outbox[0].Ready?
    ensures Inv(c, Taken(s, w), {w})
  {
    if s.batches[w] != [] {
      var k: nat :| WorksOn(s.procs[w], s.batches[w], k);
      MessageOk(s.procs[w], s.batches[w], k);
    }
    assert s.procs[w].outbox[1..] == [];
  }

  /** Once one worker is left and it asks for work, no key is in use. */
  lemma OneLeftNoneActive(c: Conflicts, m: MasterState, batches: Batches, w: Worker)
    requires Keys(c, m.activeConflicts, batches) && batches.Keys == m.workers
    requires w in m.workers && batches[w] == [] && |m.workers| <= 1
    ensures m.workers == {w} && m.activeConflicts == []
  {
    assert |m.workers - {w}| == |m.workers| - 1;
    assert m.workers == (m.workers - {w}) + {w};
    forall b ensures b !in m.activeConflicts {
      assert !HasKey(c, batches[w], b.key);
    }
    SomeMember(m.activeConflicts);
  }

  lemma SomeMember<T>(s: seq<T>)
    ensures s == [] || exists x :: x in s
  {
    if s != [] {
      assert s[0] in s;
    }
  }

  lemma AdmitKeeps(c: Conflicts, s: System, w: Worker)
    requires Inv(c, s, {w}) && w in s.procs
    ensures Inv(c, s.(master := AdmitSequential(s.master)), {w})
    ensures w in s.master.workers && |s.master.workers| > 0
  {
  }

  lemma FreeKeys(c: Conflicts, active: seq<Binding>, files: seq<Test>)
    requires forall t :: t in files ==> Blocking(c(t), active).None?
    ensures forall b :: b in active ==> b.key !in KeysOf(c, files)
  {
    forall b | b in active ensures IsActive(active, b.key) {
      ActiveIsMember(active, b.key);
    }
  }

  lemma DispatchKeys(c: Conflicts, active: seq<Binding>, batches: Batches, w: Worker, files: seq<Test>)
    requires Keys(c, active, batches) && w in batches && batches[w] == []
    requires forall t :: t in files ==> Blocking(c(t), active).None?
    ensures Keys(c, BindFiles(c, active, files, w), batches[w := files])
  {
    var active' := BindFiles(c, active, files, w);
    FreeKeys(c, active, files);
    BindFilesAdds(c, active, files, w);
    forall b | b in active'
      ensures b.worker in batches[w := files] && HasKey(c, batches[w := files][b.worker], b.key)
    {
      assert b in active ==> HasKey(c, batches[b.worker], b.key);
    }
    forall v, k | v in batches[w := files] && HasKey(c, batches[w := files][v], k)
      ensures Binding(k, v) in active'
    {
      if v == w {
        assert k in KeysOf(c, files);
      } else {
        assert HasKey(c, batches[v], k);
      }
    }
  }

  /** More keys in use keep every queue legal. */
  lemma DispatchQueues(c: Conflicts, active: seq<Binding>, files: seq<Test>, w: Worker, waiting: Waiting, batches: Batches)
    requires Queues(c, active, waiting)
    requires Keys(c, active, batches)
    requires forall t :: t in files ==> Blocking(c(t), active).None?
    ensures Queues(c, BindFiles(c, active, files, w), waiting)
  {
    FreeKeys(c, active, files);
    BindFilesAdds(c, active, files, w);
    forall k | k in waiting ensures IsActive(BindFiles(c, active, files, w), k) {
      ActiveIsMember(active, k);
      ActiveIsMember(BindFiles(c, active, files, w), k);
    }
  }

  /** Worker w takes the batch. */
  lemma DispatchKeeps(c: Conflicts, s: System, f: Filling, w: Worker, s': System)
    requires Inv(c, s, {w}) && w in s.procs && f.files != []
    requires FilledFrom(c, s.master.activeConflicts, Filling([], s.master.testFiles, s.master.waitingTests), f)
    requires Queues(c, s.master.activeConflicts, f.waiting)
    requires s'.master == s.master.(testFiles := f.testFiles, waitingTests := f.waiting,
                                    activeConflicts := BindFiles(c, s.master.activeConflicts, f.files, w),
                                    testsInProgress := s.master.testsInProgress + 1)
    requires s'.procs == s.procs[w := s.procs[w].(inbox := s.procs[w].inbox + [RunTests(f.files)])]
    requires s'.batches == s.batches[w := f.files]
    ensures Inv(c, s', {})
  {
    hide Blocking, BindFiles, Queues, Keys, NothingLeft;
    var active := s.master.activeConflicts;
    DispatchKeys(c, active, s.batches, w, f.files);
    DispatchQueues(c, active, f.files, w, f.waiting, s.batches);
    FillAlone(c, s, f, w);
    hide Alone, FilledFrom;
    assert Busy(s'.batches) == Busy(s.batches) + {w};
    assert [] + [RunTests(f.files)] == [RunTests(f.files)];
    assert WorksOn(s'.procs[w], f.files, 0);
  }

  lemma AnsweredKeeps(c: Conflicts, l: Limits, s0: System, w: Worker)
    requires Inv(c, s0, {w}) && w in s0.procs
    ensures Inv(c, Answered(c, l, s0, w), {})
  {
    hide Fill, FilledFrom, Blocking, BindFiles, Queues, Keys, Workers, Alone;
    AdmitKeeps(c, s0, w);
    var m := AdmitSequential(s0.master);
    var s := s0.(master := m);
    var f0 := Filling([], m.testFiles, m.waitingTests);
    var n := BatchSize(l, |m.workers|);
    var f := Fill(c, m.activeConflicts, n, f0);
    FillFacts(c, m.activeConflicts, n, f0);
    var s' := Answered(c, l, s0, w);
    if f.files == [] {
      DismissKeeps(c, s, f, w);
    } else {
      DispatchKeeps(c, s, f, w, s');
    }
  }

  /** What is left of the sequential tests' isolation after a batch was filled. */
  lemma FillAlone(c: Conflicts, s: System, f: Filling, w: Worker)
    requires Inv(c, s, {w}) && w in s.procs
    requires FilledFrom(c, s.master.activeConflicts, Filling([], s.master.testFiles, s.master.waitingTests), f)
    ensures Alone(c, s.master.(testFiles := f.testFiles, waitingTests := f.waiting), s.batches[w := f.files])
  {
    hide Blocking, Keys;
    if |s.master.workers| <= 1 {
      OneLeftNoneActive(c, s.master, s.batches, w);
      assert forall k :: !IsActive(s.master.activeConflicts, k);
    }
  }

  lemma DismissKeeps(c: Conflicts, s: System, f: Filling, w: Worker)
    requires Inv(c, s, {w}) && w in s.procs
    requires FilledFrom(c, s.master.activeConflicts, Filling([], s.master.testFiles, s.master.waitingTests), f)
    requires Queues(c, s.master.activeConflicts, f.waiting)
    requires f.files == [] && f.testFiles == []
    requires |s.master.workers| == 1 ==> s.master.sequentialTests == []
    ensures Inv(c, s.(master := s.master.(testFiles := [], waitingTests := f.waiting, workers := s.master.workers - {w}),
                      procs := s.procs - {w}, batches := s.batches - {w}), {})
  {
    var m' := s.master.(testFiles := [], waitingTests := f.waiting, workers := s.master.workers - {w});
    FillAlone(c, s, f, w);
    assert Busy(s.batches - {w}) == Busy(s.batches);
    assert Keys(c, m'.activeConflicts, s.batches - {w}) by {
      forall b | b in m'.activeConflicts ensures b.worker != w {
        assert HasKey(c, s.batches[b.worker], b.key);
      }
    }
    if m'.workers == {} {
      assert s.master.workers == {w};
      OneLeftNoneActive(c, s.master, s.batches, w);
      assert forall k :: !IsActive(m'.activeConflicts, k);
      assert m'.waitingTests.Keys == {};
    }
  }

  lemma StepKeeps(c: Conflicts, l: Limits, s: System, step: Step)
    requires Inv(c, s, {}) && Enabled(s, step)
    ensures Inv(c, Next(c, l, s, step), {})
  {
    if !step.Deliver? {
      WorkerStepKeeps(c, l, s, step);
    } else {
      match s.procs[step.w].outbox[0]
      case TestResult(_) => TakeResultKeeps(c, s, step.w);
      case Ready =>
        TakeReadyKeeps(c, s, step.w);
        AnsweredKeeps(c, l, Taken(s, step.w), step.w);
      case TestsFinished =>
        TakeFinishedKeeps(c, s, step.w);
        AnsweredKeeps(c, l, Taken(s, step.w), step.w);
    }
  }

  // ---------------------------------------------------------------- no test is lost or duplicated

  /** What the workers other than w owe. */
  ghost function OthersOwe(procs: map<Worker, Proc>, w: Worker): multiset<Test> {
    Total(Owed(procs) - {w})
  }

  lemma OwedSplit(procs: map<Worker, Proc>, w: Worker)
    requires w in procs
    ensures Total(Owed(procs)) == multiset(Outstanding(procs[w])) + OthersOwe(procs, w)
  {
    TotalExtract(Owed(procs), w);
  }

  lemma OthersOweSame(procs: map<Worker, Proc>, w: Worker, p: Proc)
    requires w in procs
    ensures OthersOwe(procs[w := p], w) == OthersOwe(procs, w)
    ensures Total(Owed(procs - {w})) == OthersOwe(procs, w)
  {
    assert Owed(procs[w := p]) - {w} == Owed(procs) - {w};
    assert Owed(procs - {w}) == Owed(procs) - {w};
  }

  /** If worker w's state becomes p, what is owed changes by what w owes. */
  lemma OwedUpdate(procs: map<Worker, Proc>, w: Worker, p: Proc)
    requires w in procs
    ensures Total(Owed(procs)) == multiset(Outstanding(procs[w])) + OthersOwe(procs, w)
    ensures Total(Owed(procs[w := p])) == multiset(Outstanding(p)) + OthersOwe(procs, w)
  {
    OwedSplit(procs, w);
    OwedSplit(procs[w := p], w);
    OthersOweSame(procs, w, p);
  }

  function Carried(m: Message): seq<Test> {
    if m.TestResult? then [m.test] else []
  }

  /** A message takes what it reports off what its sender owes. */
  lemma MessageOwes(p: Proc, batch: seq<Test>)
    requires ProcOk(p, batch, false) && p.outbox != []
    ensures Outstanding(p) == Carried(p.outbox[0]) + Outstanding(p.(outbox := p.outbox[1..]))
  {
    if batch != [] {
      var k: nat :| WorksOn(p, batch, k);
      MessageOk(p, batch, k);
      OutstandingWorksOn(p, batch, k);
      if p.outbox[0].TestResult? {
        OutstandingWorksOn(p.(outbox := p.outbox[1..]), batch, k + 1);
      }
    }
  }

  lemma WorkerStepOwes(p: Proc, batch: seq<Test>, step: Step)
    requires ProcOk(p, batch, false) && !step.Deliver?
    requires step.Boot? <==> p.phase.Booting?
    requires step.Receive? ==> p.phase.Idle? && p.inbox != []
    requires step.RunTest? ==> p.phase.Running? && p.phase.next < |p.phase.files|
    requires step.Finish? ==> p.phase.Running? && p.phase.next == |p.phase.files|
    ensures Outstanding(MoveWorker(p, step)) == Outstanding(p)
  {
    if batch == [] {
      assert [] + [Ready] == [Ready];
      assert Reported([Ready]) == [] + Reported([]);
    } else {
      var k: nat :| WorksOn(p, batch, k);
      WorkerStepOk(p, batch, k, step);
      OutstandingWorksOn(p, batch, k);
      OutstandingWorksOn(MoveWorker(p, step), batch, k);
    }
  }

  lemma OneMessage(owed: seq<Test>, carried: seq<Test>, rest: seq<Test>, others: multiset<Test>, results: seq<Test>)
    requires owed == carried + rest
    ensures multiset(rest) + others + multiset(results + carried) == multiset(owed) + others + multiset(results)
  {
  }

  lemma TakenOwed(s: System, w: Worker, p: Proc, p': Proc)
    requires w in s.procs && s.procs[w] == p && p.outbox != [] && p' == p.(outbox := p.outbox[1..])
    requires Outstanding(p) == Carried(p.outbox[0]) + Outstanding(p')
    ensures Total(Owed(s.procs[w := p'])) + multiset(s.results + Carried(p.outbox[0]))
         == Total(Owed(s.procs)) + multiset(s.results)
  {
    OwedUpdate(s.procs, w, p');
    OneMessage(Outstanding(p), Carried(p.outbox[0]), Outstanding(p'), OthersOwe(s.procs, w), s.results);
  }

  lemma ReleaseKeepsTests(m: MasterState, w: Worker)
    ensures Undispatched(Released(m, w)) == Undispatched(m)
  {
    ReleaseFacts(m, m.activeConflicts, w);
    ReleaseKeysFrame(m, m.activeConflicts, w);
  }

  lemma TakenKeepsTests(s: System, w: Worker)
    requires w in s.procs && w in s.batches && s.procs[w].outbox != []
    requires ProcOk(s.procs[w], s.batches[w], false)
    ensures Everything(Taken(s, w)) == Everything(s)
  {
    var p := s.procs[w];
    MessageOwes(p, s.batches[w]);
    TakenOwed(s, w, p, p.(outbox := p.outbox[1..]));
    assert Taken(s, w).results == s.results + Carried(p.outbox[0]);
    ReleaseKeepsTests(s.master, w);
  }

  lemma AnsweredOwed(c: Conflicts, l: Limits, s: System, w: Worker)
    requires Inv(c, s, {w}) && w in s.procs
    ensures Total(Owed(Answered(c, l, s, w).procs)) == Total(Owed(s.procs)) + multiset(Schedule(c, l, s.master, w).files)
  {
    hide Schedule, Total, Keys, Queues, Alone, OthersOwe;
    var files := Schedule(c, l, s.master, w).files;
    var p := Proc(Idle, [RunTests(files)], []);
    assert Outstanding(s.procs[w]) == [];
    assert [] + [RunTests(files)] == [RunTests(files)];
    OwedUpdate(s.procs, w, p);
    OthersOweSame(s.procs, w, p);
    assert Outstanding(p) == files;
  }

  lemma AdmitKeepsTests(m: MasterState)
    ensures Undispatched(AdmitSequential(m)) == Undispatched(m)
  {
  }

  lemma AnsweredPending(c: Conflicts, l: Limits, m0: MasterState, w: Worker)
    requires w in m0.workers
    ensures var a := Schedule(c, l, m0, w);
            multiset(a.files) + Undispatched(a.master) == Undispatched(m0)
  {
    var m := AdmitSequential(m0);
    AdmitKeepsTests(m0);
    var f0 := Filling([], m.testFiles, m.waitingTests);
    var f := Fill(c, m.activeConflicts, BatchSize(l, |m.workers|), f0);
    FillKeepsTests(c, m.activeConflicts, BatchSize(l, |m.workers|), f0);
    assert Content(f0) + multiset(m.sequentialTests) == Undispatched(m);
    assert Content(f) + multiset(m.sequentialTests)
        == multiset(f.files) + (multiset(m.sequentialTests) + (multiset(f.testFiles) + Total(f.waiting)));
  }

  lemma AnsweredKeepsTests(c: Conflicts, l: Limits, s: System, w: Worker)
    requires Inv(c, s, {w}) && w in s.procs
    ensures Everything(Answered(c, l, s, w)) == Everything(s)
  {
    AnsweredPending(c, l, s.master, w);
    AnsweredOwed(c, l, s, w);
  }

  lemma WorkerStepKeepsTests(c: Conflicts, l: Limits, s: System, step: Step)
    requires Inv(c, s, {}) && Enabled(s, step) && !step.Deliver?
    ensures Everything(Next(c, l, s, step)) == Everything(s)
  {
    WorkerStepOwes(s.procs[step.w], s.batches[step.w], step);
    OwedUpdate(s.procs, step.w, MoveWorker(s.procs[step.w], step));
  }

  lemma StepKeepsTests(c: Conflicts, l: Limits, s: System, step: Step)
    requires Inv(c, s, {}) && Enabled(s, step)
    ensures Everything(Next(c, l, s, step)) == Everything(s)
  {
    if !step.Deliver? {
      WorkerStepKeepsTests(c, l, s, step);
    } else {
      TakenKeepsTests(s, step.w);
      if s.procs[step.w].outbox[0].Ready? {
        TakeReadyKeeps(c, s, step.w);
        AnsweredKeepsTests(c, l, Taken(s, step.w), step.w);
      } else if s.procs[step.w].outbox[0].TestsFinished? {
        TakeFinishedKeeps(c, s, step.w);
        AnsweredKeepsTests(c, l, Taken(s, step.w), step.w);
      }
    }
  }
}
