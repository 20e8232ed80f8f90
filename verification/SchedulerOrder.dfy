/** In which order tests with a common conflict key are run. The list of tests is reversed, popped,
    put aside and refilled in reverse, and tests are spread over workers; still, without --shuffle,
    tests that share a key run in their original order whenever tests that share a key agree on the
    first key they list. */
module SchedulerOrder {
  import opened Collections
  import opened SchedulerMaster
  import opened SchedulerProtocol
  import opened SchedulerSafety
  import opened SchedulerTheorems

  /** Ordinary tests whose first key is k; ordinary tests with key k; all tests with key k. */
  datatype Selector = Leads(k: Key) | Shares(k: Key) | Has(k: Key)

  predicate Selects(c: Conflicts, sel: Selector, t: Test) {
    match sel
    case Leads(k) => !IsSequential(c, t) && c(t) != [] && c(t)[0] == k
    case Shares(k) => !IsSequential(c, t) && k in c(t)
    case Has(k) => k in c(t)
  }

  /** The selected tests, in order. */
  function Pick(c: Conflicts, sel: Selector, tests: seq<Test>): (r: seq<Test>) {
    if tests == [] then []
    else (if Selects(c, sel, tests[0]) then [tests[0]] else []) + Pick(c, sel, tests[1..])
  }

  lemma {:induction false} PickConcat(c: Conflicts, sel: Selector, a: seq<Test>, b: seq<Test>)
    ensures Pick(c, sel, a + b) == Pick(c, sel, a) + Pick(c, sel, b)
  {
    if a == [] {
      EmptyConcat(b);
      EmptyConcat(Pick(c, sel, b));
    } else {
      ConsConcat(a, b);
      PickConcat(c, sel, a[1..], b);
      Assoc(if Selects(c, sel, a[0]) then [a[0]] else [], Pick(c, sel, a[1..]), Pick(c, sel, b));
    }
  }

  lemma PickNothing(c: Conflicts, sel: Selector)
    ensures Pick(c, sel, []) == []
  {
  }

  lemma PickOne(c: Conflicts, sel: Selector, t: Test)
    ensures Pick(c, sel, [t]) == if Selects(c, sel, t) then [t] else []
  {
    assert Pick(c, sel, [t][1..]) == [];
  }

  lemma {:induction false} PickReverse(c: Conflicts, sel: Selector, a: seq<Test>)
    ensures Pick(c, sel, Reverse(a)) == Reverse(Pick(c, sel, a))
  {
    if a != [] {
      PickConcat(c, sel, Reverse(a[1..]), [a[0]]);
      PickOne(c, sel, a[0]);
      PickReverse(c, sel, a[1..]);
      ReverseConcat(Pick(c, sel, [a[0]]), Pick(c, sel, a[1..]));
      ReverseOne(Pick(c, sel, [a[0]]));
    }
  }

  lemma {:induction false} PickAll(c: Conflicts, sel: Selector, a: seq<Test>)
    ensures (forall t :: t in a ==> Selects(c, sel, t)) ==> Pick(c, sel, a) == a
    ensures (forall t :: t in a ==> !Selects(c, sel, t)) ==> Pick(c, sel, a) == []
  {
    if a != [] {
      PickAll(c, sel, a[1..]);
    }
  }

  /** Selecting in two stages, the first of which keeps everything the second wants. */
  lemma {:induction false} PickTwice(c: Conflicts, outer: Selector, inner: Selector, a: seq<Test>)
    requires forall t :: t in a && Selects(c, inner, t) ==> Selects(c, outer, t)
    ensures Pick(c, inner, Pick(c, outer, a)) == Pick(c, inner, a)
  {
    if a != [] {
      PickTwice(c, outer, inner, a[1..]);
      PickConcat(c, inner, if Selects(c, outer, a[0]) then [a[0]] else [], Pick(c, outer, a[1..]));
      PickOne(c, inner, a[0]);
    }
  }

  lemma PickPrefix(c: Conflicts, sel: Selector, a: seq<Test>, b: seq<Test>)
    requires a <= b
    ensures Pick(c, sel, a) <= Pick(c, sel, b)
  {
    assert b == a + b[|a|..];
    PickConcat(c, sel, a, b[|a|..]);
  }

  // ---------------------------------------------------------------- which suites keep their order

  /** Ordinary tests of the suite that share a key list the same key first. */
  ghost predicate LeadsAgree(c: Conflicts, tests: seq<Test>) {
    forall t, u, k ::
      (t in tests && u in tests && !IsSequential(c, t) && !IsSequential(c, u) && k in c(t) && k in c(u)) ==>
        c(t)[0] == c(u)[0]
  }

  function QueueOf(m: MasterState, k: Key): seq<Test> {
    if k in m.waitingTests then m.waitingTests[k] else []
  }

  /** The tests with first key k that are not dispatched, next one first. */
  function Line(c: Conflicts, m: MasterState, k: Key): seq<Test> {
    QueueOf(m, k) + Reverse(Pick(c, Leads(k), m.testFiles))
  }

  /** Tests wait for the key they list first. */
  ghost predicate QueuesLead(c: Conflicts, m: MasterState) {
    WaitersLead(c, m.waitingTests)
  }

  ghost predicate Known(s: System, tests: seq<Test>) {
    && (forall t :: t in s.master.testFiles ==> t in tests)
    && (forall t :: t in s.master.sequentialTests ==> t in tests)
    && (forall k, t :: k in s.master.waitingTests && t in s.master.waitingTests[k] ==> t in tests)
    && (forall w, t :: w in s.batches && t in s.batches[w] ==> t in tests)
  }

  /** Per first key, the dispatched tests followed by those in line are the suite in its order. */
  ghost predicate InLine(c: Conflicts, tests: seq<Test>, s: System) {
    && Known(s, tests) && QueuesLead(c, s.master)
    && forall k :: Pick(c, Leads(k), s.log) + Line(c, s.master, k) == Pick(c, Leads(k), Ordinary(c, tests))
  }

  lemma ReleaseKeyLine(c: Conflicts, m: MasterState, b: Binding, w: Worker, k: Key)
    requires QueuesLead(c, m)
    ensures QueuesLead(c, ReleaseKey(m, b, w))
    ensures Line(c, ReleaseKey(m, b, w), k) == Line(c, m, k)
  {
    hide Pick, Reverse;
    if b.worker == w && b.key in m.waitingTests {
      var queue, picked := m.waitingTests[b.key], Pick(c, Leads(k), m.testFiles);
      PickConcat(c, Leads(k), m.testFiles, Reverse(queue));
      PickReverse(c, Leads(k), queue);
      PickAll(c, Leads(k), queue);
      ReverseConcat(picked, Pick(c, Leads(k), Reverse(queue)));
      ReverseTwice(queue);
      ReverseOne<Test>([]);
      EmptyConcat(queue);
      EmptyConcat(picked);
      EmptyConcat(Reverse(picked));
    }
  }

  lemma {:induction false} ReleaseLine(c: Conflicts, m: MasterState, snapshot: seq<Binding>, w: Worker, k: Key)
    requires QueuesLead(c, m)
    ensures QueuesLead(c, ReleaseKeys(m, snapshot, w))
    ensures Line(c, ReleaseKeys(m, snapshot, w), k) == Line(c, m, k)
  {
    if snapshot != [] {
      ReleaseLine(c, m, Front(snapshot), w, k);
      ReleaseKeyLine(c, ReleaseKeys(m, Front(snapshot), w), Last(snapshot), w, k);
    }
  }

  /** If a test is blocked at all, its first key blocks it. */
  ghost predicate LeadBlocks(c: Conflicts, active: seq<Binding>, tests: seq<Test>) {
    forall t :: t in tests && Blocking(c(t), active).Some? ==>
      !IsSequential(c, t) && Blocking(c(t), active) == Some(c(t)[0])
  }

  lemma LeadsBlock(c: Conflicts, tests: seq<Test>, s: System, w: Worker)
    requires Inv(c, s, {w}) && w in s.procs && Known(s, tests) && LeadsAgree(c, tests)
    ensures LeadBlocks(c, s.master.activeConflicts, s.master.testFiles)
  {
    var active := s.master.activeConflicts;
    forall t | t in s.master.testFiles && Blocking(c(t), active).Some?
      ensures !IsSequential(c, t) && Blocking(c(t), active) == Some(c(t)[0])
    {
      var k := Blocking(c(t), active).value;
      ActiveIsMember(active, k);
      var v :| Binding(k, v) in active;
      assert HasKey(c, s.batches[v], k);
      var u :| u in s.batches[v] && k in c(u);
      assert v != w;
      assert !IsSequential(c, t) by {
        if IsSequential(c, t) {
          OneLeftNoneActive(c, s.master, s.batches, w);
        }
      }
      assert !IsSequential(c, u);
      assert HasKey(c, s.batches[v], c(u)[0]);
      ActiveIsMember(active, c(t)[0]);
    }
  }

  /** The line of first key k, when a batch is being filled. */
  function FillLine(c: Conflicts, f: Filling, k: Key): seq<Test> {
    Pick(c, Leads(k), f.files) + (Waiters(f, k) + Reverse(Pick(c, Leads(k), f.testFiles)))
  }

  function Waiters(f: Filling, k: Key): seq<Test> {
    if k in f.waiting then f.waiting[k] else []
  }

  /** Popping the list takes the first of its line. */
  lemma PopLine(c: Conflicts, tests: seq<Test>, k: Key)
    requires tests != []
    ensures Reverse(Pick(c, Leads(k), tests)) == Pick(c, Leads(k), [Last(tests)]) + Reverse(Pick(c, Leads(k), Front(tests)))
  {
    assert tests == Front(tests) + [Last(tests)];
    PickConcat(c, Leads(k), Front(tests), [Last(tests)]);
    PickOne(c, Leads(k), Last(tests));
    ReverseConcat(Pick(c, Leads(k), Front(tests)), Pick(c, Leads(k), [Last(tests)]));
    ReverseOne(Pick(c, Leads(k), [Last(tests)]));
  }

  /** What happens to the queue of first key k when test t is taken off the list. */
  lemma QueueStep(c: Conflicts, active: seq<Binding>, f: Filling, k: Key)
    requires f.testFiles != [] && Queues(c, active, f.waiting) && LeadBlocks(c, active, f.testFiles)
    ensures var g, t := FillStep(c, active, f), Last(f.testFiles);
            var q, q' := Waiters(f, k), Waiters(g, k);
            if Blocking(c(t), active).None? then
              q' == q && g.files == f.files + [t] && (Selects(c, Leads(k), t) ==> q == [])
            else
              q' == q + Pick(c, Leads(k), [t]) && g.files == f.files
  {
    var t := Last(f.testFiles);
    PickOne(c, Leads(k), t);
    if Blocking(c(t), active).None? && Selects(c, Leads(k), t) {
      assert k in c(t) && !IsActive(active, k);
    }
  }

  lemma FillStepLine(c: Conflicts, active: seq<Binding>, f: Filling, k: Key)
    requires f.testFiles != [] && Queues(c, active, f.waiting) && LeadBlocks(c, active, f.testFiles)
    ensures FillLine(c, FillStep(c, active, f), k) == FillLine(c, f, k)
  {
    var t, g := Last(f.testFiles), FillStep(c, active, f);
    QueueStep(c, active, f, k);
    PopLine(c, f.testFiles, k);
    PickOne(c, Leads(k), t);
    PickConcat(c, Leads(k), f.files, [t]);
    LineStep(Pick(c, Leads(k), f.files), Pick(c, Leads(k), g.files), Waiters(f, k), Waiters(g, k),
             Pick(c, Leads(k), [t]), Reverse(Pick(c, Leads(k), g.testFiles)));
  }

  /** One test moves from the list to the batch, or from the list to its queue. */
  lemma LineStep<T>(files: seq<T>, files': seq<T>, queue: seq<T>, queue': seq<T>, one: seq<T>, rest: seq<T>)
    requires (files' == files + one && queue' == queue && (one == [] || queue == []))
          || (files' == files && queue' == queue + one)
    ensures files' + (queue' + rest) == files + (queue + (one + rest))
  {
  }

  ghost predicate WaitersLead(c: Conflicts, waiting: Waiting) {
    forall k, t :: k in waiting && t in waiting[k] ==> Selects(c, Leads(k), t)
  }

  lemma FillStepKeeps(c: Conflicts, active: seq<Binding>, f: Filling)
    requires f.testFiles != [] && Queues(c, active, f.waiting) && LeadBlocks(c, active, f.testFiles)
    requires WaitersLead(c, f.waiting)
    ensures var g := FillStep(c, active, f);
            Queues(c, active, g.waiting) && LeadBlocks(c, active, g.testFiles) && WaitersLead(c, g.waiting)
  {
    assert f.testFiles == Front(f.testFiles) + [Last(f.testFiles)];
  }

  lemma {:induction false} FillKeepsLine(c: Conflicts, active: seq<Binding>, n: nat, f: Filling, k: Key)
    requires Queues(c, active, f.waiting) && LeadBlocks(c, active, f.testFiles) && WaitersLead(c, f.waiting)
    ensures FillLine(c, Fill(c, active, n, f), k) == FillLine(c, f, k)
    ensures WaitersLead(c, Fill(c, active, n, f).waiting)
    decreases |f.testFiles|
  {
    if |f.files| <= n && f.testFiles != [] {
      FillStepLine(c, active, f, k);
      FillStepKeeps(c, active, f);
      FillKeepsLine(c, active, n, FillStep(c, active, f), k);
    }
  }

  // ---------------------------------------------------------------- dispatch order

  lemma TakenInLine(c: Conflicts, tests: seq<Test>, s: System, w: Worker)
    requires Inv(c, s, {}) && w in s.procs && s.procs[w].outbox != [] && InLine(c, tests, s)
    ensures InLine(c, tests, Taken(s, w))
  {
    hide Keys, Queues, Alone, Workers, Total, ReleaseKeys, Pick, Ordinary;
    if s.procs[w].outbox[0].TestsFinished? {
      ReleaseFacts(s.master, s.master.activeConflicts, w);
      ReleaseKeysFrame(s.master, s.master.activeConflicts, w);
      forall k ensures Line(c, Released(s.master, w), k) == Line(c, s.master, k) && QueuesLead(c, Released(s.master, w)) {
        ReleaseLine(c, s.master, s.master.activeConflicts, w, k);
      }
    }
  }

  lemma AnsweredKnown(c: Conflicts, l: Limits, tests: seq<Test>, s: System, w: Worker)
    requires Inv(c, s, {w}) && w in s.procs && Known(s, tests)
    ensures Known(Answered(c, l, s, w), tests)
  {
    hide Blocking, Fill, BindFiles, Keys, Alone, ProcOk;
    var m := AdmitSequential(s.master);
    assert w in s.master.workers;
    FillFacts(c, m.activeConflicts, BatchSize(l, |m.workers|), Filling([], m.testFiles, m.waitingTests));
  }

  lemma AdmitLine(c: Conflicts, m: MasterState, batches: Batches, k: Key)
    requires Alone(c, m, batches)
    ensures Line(c, AdmitSequential(m), k) == Line(c, m, k)
  {
    PickAll(c, Leads(k), m.sequentialTests);
    PickConcat(c, Leads(k), m.testFiles, m.sequentialTests);
    assert Pick(c, Leads(k), m.testFiles) + [] == Pick(c, Leads(k), m.testFiles);
  }

  /** What an answer does to the line of a first key. */
  lemma AnsweredLine(c: Conflicts, l: Limits, tests: seq<Test>, s: System, w: Worker, k: Key)
    requires Inv(c, s, {w}) && w in s.procs && Known(s, tests) && LeadsAgree(c, tests)
    requires QueuesLead(c, s.master)
    ensures var a := Schedule(c, l, s.master, w);
            && QueuesLead(c, a.master)
            && Pick(c, Leads(k), a.files) + Line(c, a.master, k) == Line(c, s.master, k)
  {
    var m := AdmitSequential(s.master);
    AdmitKeeps(c, s, w);
    AdmitLine(c, s.master, s.batches, k);
    LeadsBlock(c, tests, s.(master := m), w);
    FilledLine(c, m, BatchSize(l, |m.workers|), k);
  }

  lemma FilledLine(c: Conflicts, m: MasterState, n: nat, k: Key)
    requires Queues(c, m.activeConflicts, m.waitingTests) && QueuesLead(c, m)
    requires LeadBlocks(c, m.activeConflicts, m.testFiles)
    ensures var f := Fill(c, m.activeConflicts, n, Filling([], m.testFiles, m.waitingTests));
            WaitersLead(c, f.waiting) && FillLine(c, f, k) == Line(c, m, k)
  {
    FillKeepsLine(c, m.activeConflicts, n, Filling([], m.testFiles, m.waitingTests), k);
    EmptyConcat(Line(c, m, k));
  }

  lemma AnsweredInLine(c: Conflicts, l: Limits, tests: seq<Test>, s: System, w: Worker)
    requires Inv(c, s, {w}) && w in s.procs && InLine(c, tests, s) && LeadsAgree(c, tests)
    ensures InLine(c, tests, Answered(c, l, s, w))
  {
    hide Schedule, Line, Pick, Keys, Queues, Alone, Known, LeadsAgree, QueuesLead;
    var a, s' := Schedule(c, l, s.master, w), Answered(c, l, s, w);
    AnsweredKnown(c, l, tests, s, w);
    forall k ensures Pick(c, Leads(k), s'.log) + Line(c, s'.master, k) == Pick(c, Leads(k), Ordinary(c, tests)) {
      AnsweredLine(c, l, tests, s, w, k);
      PickConcat(c, Leads(k), s.log, a.files);
      EmptyConcat(s.log);
      assert s'.log == s.log + a.files && s'.master == a.master;
      Assoc(Pick(c, Leads(k), s.log), Pick(c, Leads(k), a.files), Line(c, a.master, k));
    }
    AnsweredLine(c, l, tests, s, w, ALL);
  }

  lemma StepInLine(c: Conflicts, l: Limits, tests: seq<Test>, s: System, step: Step)
    requires Inv(c, s, {}) && Enabled(s, step) && InLine(c, tests, s) && LeadsAgree(c, tests)
    ensures InLine(c, tests, Next(c, l, s, step))
  {
    if step.Deliver? {
      TakenInLine(c, tests, s, step.w);
      if s.procs[step.w].outbox[0].Ready? {
        TakeReadyKeeps(c, s, step.w);
        AnsweredInLine(c, l, tests, Taken(s, step.w), step.w);
      } else if s.procs[step.w].outbox[0].TestsFinished? {
        TakeFinishedKeeps(c, s, step.w);
        AnsweredInLine(c, l, tests, Taken(s, step.w), step.w);
      }
    }
  }

  lemma InitInLine(c: Conflicts, l: Limits, tests: seq<Test>, requested: int, s: System)
    requires Init(c, l, tests, requested, s) && !l.shuffle
    ensures InLine(c, tests, s)
  {
    hide Ordinary, Sequential, Reverse;
    var ordinary := Ordinary(c, tests);
    PartsKnown(c, tests);
    ReverseIsPermutation(ordinary);
    SameMembers(s.master.testFiles, ordinary);
    forall k ensures Pick(c, Leads(k), s.log) + Line(c, s.master, k) == Pick(c, Leads(k), ordinary) {
      PickReverse(c, Leads(k), ordinary);
      ReverseTwice(Pick(c, Leads(k), ordinary));
      EmptyConcat(Pick(c, Leads(k), ordinary));
    }
  }

  lemma PartsKnown(c: Conflicts, tests: seq<Test>)
    ensures forall t :: t in Ordinary(c, tests) || t in Sequential(c, tests) ==> t in tests
  {
    hide Ordinary, Sequential;
    SuiteSplits(c, tests);
    forall t | t in Ordinary(c, tests) || t in Sequential(c, tests) ensures t in tests {
      assert t in multiset(Ordinary(c, tests)) + multiset(Sequential(c, tests));
    }
  }

  lemma {:induction false} RunInLine(c: Conflicts, l: Limits, tests: seq<Test>, requested: int,
                                     run: seq<System>, steps: seq<Step>, i: nat)
    requires IsRun(c, l, run, steps) && Init(c, l, tests, requested, run[0]) && i < |run|
    requires !l.shuffle && LeadsAgree(c, tests)
    ensures InLine(c, tests, run[i])
  {
    hide InLine, Inv, Everything, Next, Enabled, Init, LeadsAgree;
    if i == 0 {
      InitInLine(c, l, tests, requested, run[0]);
    } else {
      RunInLine(c, l, tests, requested, run, steps, i - 1);
      RunKeeps(c, l, tests, requested, run, steps, i - 1);
      StepInLine(c, l, tests, run[i - 1], steps[i - 1]);
    }
  }

  // ---------------------------------------------------------------- execution follows dispatch

  /** The worker that holds key k, if any, owes the end of what was dispatched with that key. */
  ghost predicate Serial(c: Conflicts, s: System) {
    forall k :: SerialFor(c, s, k)
  }

  ghost predicate SerialFor(c: Conflicts, s: System, k: Key) {
    || (exists v :: Holds(s, k, v) && SerialWith(c, s, k, Outstanding(s.procs[v])))
    || (!IsActive(s.master.activeConflicts, k) && SerialWith(c, s, k, []))
  }

  ghost predicate Holds(s: System, k: Key, v: Worker) {
    v in s.procs && Binding(k, v) in s.master.activeConflicts
  }

  ghost predicate SerialWith(c: Conflicts, s: System, k: Key, owed: seq<Test>) {
    Pick(c, Has(k), s.log) == Pick(c, Has(k), s.results) + Pick(c, Has(k), owed)
  }

  lemma OwedInBatch(p: Proc, batch: seq<Test>, asked: bool)
    requires ProcOk(p, batch, asked)
    ensures forall t :: t in Outstanding(p) ==> t in batch
  {
    if batch == [] {
      assert Reported([Ready]) == [] + Reported([]);
    } else {
      var k: nat :| WorksOn(p, batch, k);
      OutstandingWorksOn(p, batch, k);
    }
  }

  /** A worker without key k owes no test with key k. */
  lemma OwesOnlyHeldKeys(c: Conflicts, s: System, asked: set<Worker>, w: Worker, k: Key)
    requires Inv(c, s, asked) && w in s.procs && !Holds(s, k, w)
    ensures Pick(c, Has(k), Outstanding(s.procs[w])) == []
  {
    OwedInBatch(s.procs[w], s.batches[w], w in asked);
    assert !HasKey(c, s.batches[w], k);
    PickAll(c, Has(k), Outstanding(s.procs[w]));
  }

  /** The only worker that holds k, or none; what it owes is as far as the records lag behind. */
  lemma SerialCases(c: Conflicts, s: System, asked: set<Worker>, k: Key) returns (holder: Option<Worker>)
    requires Inv(c, s, asked) && SerialFor(c, s, k)
    ensures holder.Some? ==> Holds(s, k, holder.value) && SerialWith(c, s, k, Outstanding(s.procs[holder.value]))
    ensures holder.None? ==> !IsActive(s.master.activeConflicts, k) && SerialWith(c, s, k, [])
    ensures forall v :: Holds(s, k, v) ==> holder == Some(v)
  {
    ActiveIsMember(s.master.activeConflicts, k);
    if v :| Holds(s, k, v) && SerialWith(c, s, k, Outstanding(s.procs[v])) {
      holder := Some(v);
      forall u | Holds(s, k, u) ensures u == v {
        assert Binding(k, u).key == Binding(k, v).key;
      }
    } else {
      holder := None;
    }
  }

  lemma WorkerStepSerial(c: Conflicts, l: Limits, s: System, step: Step)
    requires Inv(c, s, {}) && Enabled(s, step) && !step.Deliver? && Serial(c, s)
    ensures Serial(c, Next(c, l, s, step))
  {
    var s' := Next(c, l, s, step);
    WorkerStepOwes(s.procs[step.w], s.batches[step.w], step);
    forall k ensures SerialFor(c, s', k) {
      var holder := SerialCases(c, s, {}, k);
      if holder.Some? {
        assert Holds(s', k, holder.value);
      }
    }
  }

  /** A worker whose key k is not affected, or that is the holder of k, reports a result. */
  lemma ReportSerial(c: Conflicts, k: Key, results: seq<Test>, carried: seq<Test>, rest: seq<Test>)
    ensures Pick(c, Has(k), results + carried) + Pick(c, Has(k), rest)
         == Pick(c, Has(k), results) + Pick(c, Has(k), carried + rest)
  {
    PickConcat(c, Has(k), results, carried);
    PickConcat(c, Has(k), carried, rest);
  }

  lemma ResultOwes(c: Conflicts, s: System, w: Worker, k: Key)
    requires Inv(c, s, {}) && w in s.procs && s.procs[w].outbox != []
    ensures var p := s.procs[w];
            Outstanding(p) == Carried(p.outbox[0]) + Outstanding(p.(outbox := p.outbox[1..]))
  {
    MessageOwes(s.procs[w], s.batches[w]);
  }

  lemma HolderSerial(c: Conflicts, s: System, k: Key, v: Worker)
    requires Holds(s, k, v) && SerialWith(c, s, k, Outstanding(s.procs[v]))
    ensures SerialFor(c, s, k)
  {
  }

  lemma NobodySerial(c: Conflicts, s: System, k: Key)
    requires !IsActive(s.master.activeConflicts, k) && SerialWith(c, s, k, [])
    ensures SerialFor(c, s, k)
  {
  }

  lemma ResultSerial(c: Conflicts, s: System, w: Worker, k: Key)
    requires Inv(c, s, {}) && w in s.procs && s.procs[w].outbox != [] && SerialFor(c, s, k)
    requires !s.procs[w].outbox[0].TestsFinished?
    ensures SerialFor(c, Taken(s, w), k)
  {
    hide Inv, SerialFor, Pick;
    var s', p := Taken(s, w), s.procs[w];
    var p', carried := p.(outbox := p.outbox[1..]), Carried(p.outbox[0]);
    var holder := SerialCases(c, s, {}, k);
    ResultOwes(c, s, w, k);
    ReportSerial(c, k, s.results, carried, Outstanding(p'));
    assert s'.results == s.results + carried by { EmptyConcat(s.results); }
    if holder == Some(w) {
      HolderSerial(c, s', k, w);
    } else {
      OwesOnlyHeldKeys(c, s, {}, w, k);
      PickConcat(c, Has(k), carried, Outstanding(p'));
      PickConcat(c, Has(k), s.results, carried);
      EmptyConcat(Pick(c, Has(k), s.results));
      if holder.Some? {
        HolderSerial(c, s', k, holder.value);
      } else {
        NobodySerial(c, s', k);
      }
    }
  }

  lemma FinishedSerial(c: Conflicts, s: System, w: Worker, k: Key)
    requires Inv(c, s, {}) && w in s.procs && s.procs[w].outbox != [] && SerialFor(c, s, k)
    requires s.procs[w].outbox[0].TestsFinished?
    ensures SerialFor(c, Taken(s, w), k)
  {
    var s' := Taken(s, w);
    var holder := SerialCases(c, s, {}, k);
    ActiveIsMember(s.master.activeConflicts, k);
    ActiveIsMember(s'.master.activeConflicts, k);
    FinishedOwesNothing(s.procs[w], s.batches[w]);
    if holder.Some? && holder.value != w {
      assert Holds(s', k, holder.value);
      assert s'.procs[holder.value] == s.procs[holder.value];
    }
  }

  lemma TakenSerial(c: Conflicts, s: System, w: Worker)
    requires Inv(c, s, {}) && w in s.procs && s.procs[w].outbox != [] && Serial(c, s)
    ensures Serial(c, Taken(s, w))
  {
    forall k ensures SerialFor(c, Taken(s, w), k) {
      if s.procs[w].outbox[0].TestsFinished? {
        FinishedSerial(c, s, w, k);
      } else {
        ResultSerial(c, s, w, k);
      }
    }
  }

  lemma FinishedOwesNothing(p: Proc, batch: seq<Test>)
    requires ProcOk(p, batch, false) && p.outbox != [] && p.outbox[0].TestsFinished?
    ensures Outstanding(p) == []
  {
    if batch != [] {
      var k: nat :| WorksOn(p, batch, k);
      MessageOk(p, batch, k);
      OutstandingWorksOn(p, batch, k);
    }
  }

  /** After an answer, the keys in use are those from before and those of the new batch. */
  lemma AnsweredKeys(c: Conflicts, l: Limits, s: System, w: Worker)
    requires Inv(c, s, {w}) && w in s.procs
    ensures var files, s' := Schedule(c, l, s.master, w).files, Answered(c, l, s, w);
            && (forall b :: b in s'.master.activeConflicts <==>
                  b in s.master.activeConflicts || (b.worker == w && b.key in KeysOf(c, files)))
            && (forall b :: b in s.master.activeConflicts ==> b.worker != w && b.key !in KeysOf(c, files))
  {
    var m := AdmitSequential(s.master);
    var f0 := Filling([], m.testFiles, m.waitingTests);
    var files := Schedule(c, l, s.master, w).files;
    FillFacts(c, m.activeConflicts, BatchSize(l, |m.workers|), f0);
    FreeKeys(c, m.activeConflicts, files);
    BindFilesAdds(c, m.activeConflicts, files, w);
    forall b | b in s.master.activeConflicts ensures b.worker != w {
      assert HasKey(c, s.batches[b.worker], b.key);
    }
  }

  /** What an answer with this batch changes, as far as the order of tests is concerned. */
  ghost predicate Dispatches(c: Conflicts, s: System, s': System, w: Worker, files: seq<Test>) {
    && s'.log == s.log + files && s'.results == s.results
    && (forall v :: v in s.procs && v != w ==> v in s'.procs && s'.procs[v] == s.procs[v])
    && (files != [] ==> w in s'.procs && Outstanding(s'.procs[w]) == files)
    && (forall b :: b in s'.master.activeConflicts <==>
          b in s.master.activeConflicts || (b.worker == w && b.key in KeysOf(c, files)))
    && (forall b :: b in s.master.activeConflicts ==> b.worker != w && b.key !in KeysOf(c, files))
  }

  lemma AnswerDispatches(c: Conflicts, l: Limits, s: System, w: Worker)
    requires Inv(c, s, {w}) && w in s.procs
    ensures Dispatches(c, s, Answered(c, l, s, w), w, Schedule(c, l, s.master, w).files)
  {
    var files := Schedule(c, l, s.master, w).files;
    AnsweredKeys(c, l, s, w);
    assert [] + [RunTests(files)] == [RunTests(files)];
  }

  lemma DispatchSerialFor(c: Conflicts, s: System, s': System, w: Worker, files: seq<Test>, k: Key)
    requires Inv(c, s, {w}) && w in s.procs && SerialFor(c, s, k) && Dispatches(c, s, s', w, files)
    ensures SerialFor(c, s', k)
  {
    hide Inv, SerialFor, Pick;
    var holder := SerialCases(c, s, {w}, k);
    PickConcat(c, Has(k), s.log, files);
    ActiveIsMember(s.master.activeConflicts, k);
    ActiveIsMember(s'.master.activeConflicts, k);
    if k in KeysOf(c, files) {
      EmptyConcat(Pick(c, Has(k), s.results));
      PickNothing(c, Has(k));
      HolderSerial(c, s', k, w);
    } else {
      assert forall t :: t in files ==> !Selects(c, Has(k), t);
      PickAll(c, Has(k), files);
      EmptyConcat(Pick(c, Has(k), s.log));
      if holder.Some? {
        HolderSerial(c, s', k, holder.value);
      } else {
        NobodySerial(c, s', k);
      }
    }
  }

  lemma AnsweredSerial(c: Conflicts, l: Limits, s: System, w: Worker)
    requires Inv(c, s, {w}) && w in s.procs && Serial(c, s)
    ensures Serial(c, Answered(c, l, s, w))
  {
    AnswerDispatches(c, l, s, w);
    forall k ensures SerialFor(c, Answered(c, l, s, w), k) {
      DispatchSerialFor(c, s, Answered(c, l, s, w), w, Schedule(c, l, s.master, w).files, k);
    }
  }

  lemma {:induction false} RunSerial(c: Conflicts, l: Limits, tests: seq<Test>, requested: int,
                                     run: seq<System>, steps: seq<Step>, i: nat)
    requires IsRun(c, l, run, steps) && Init(c, l, tests, requested, run[0]) && i < |run|
    ensures Serial(c, run[i])
  {
    if i > 0 {
      var s, step := run[i - 1], steps[i - 1];
      RunSerial(c, l, tests, requested, run, steps, i - 1);
      RunKeeps(c, l, tests, requested, run, steps, i - 1);
      if !step.Deliver? {
        WorkerStepSerial(c, l, s, step);
      } else {
        TakenSerial(c, s, step.w);
        if s.procs[step.w].outbox[0].Ready? {
          TakeReadyKeeps(c, s, step.w);
          AnsweredSerial(c, l, Taken(s, step.w), step.w);
        } else if s.procs[step.w].outbox[0].TestsFinished? {
          TakeFinishedKeeps(c, s, step.w);
          AnsweredSerial(c, l, Taken(s, step.w), step.w);
        }
      }
    } else {
      assert forall k :: SerialWith(c, run[0], k, []);
    }
  }

  /** In every state, the results of the tests with a given key come in the order of dispatch. */
  lemma ExecutionFollowsDispatch(c: Conflicts, l: Limits, tests: seq<Test>, requested: int,
                                 run: seq<System>, steps: seq<Step>, i: nat, k: Key)
    requires IsRun(c, l, run, steps) && Init(c, l, tests, requested, run[0]) && i < |run|
    ensures Pick(c, Has(k), run[i].results) <= Pick(c, Has(k), run[i].log)
  {
    RunSerial(c, l, tests, requested, run, steps, i);
    RunKeeps(c, l, tests, requested, run, steps, i);
    var holder := SerialCases(c, run[i], {}, k);
  }

  // ---------------------------------------------------------------- the order of results

  /** Ordinary tests that share key k have their results recorded in their original order. */
  lemma OrderPreserved(c: Conflicts, l: Limits, tests: seq<Test>, requested: int,
                       run: seq<System>, steps: seq<Step>, i: nat, k: Key)
    requires IsRun(c, l, run, steps) && Init(c, l, tests, requested, run[0]) && i < |run|
    requires !l.shuffle && LeadsAgree(c, tests)
    ensures Pick(c, Shares(k), run[i].results) <= Pick(c, Shares(k), tests)
    ensures !Unfinished(run[i].master) ==> Pick(c, Shares(k), run[i].results) == Pick(c, Shares(k), tests)
  {
    var s := run[i];
    DispatchedInOrder(c, l, tests, requested, run, steps, i, k);
    ExecutionFollowsDispatch(c, l, tests, requested, run, steps, i, k);
    PickPrefix(c, Shares(k), Pick(c, Has(k), s.results), Pick(c, Has(k), s.log));
    PickTwice(c, Has(k), Shares(k), s.results);
    PickTwice(c, Has(k), Shares(k), s.log);
    if !Unfinished(s.master) {
      AllResultsAtExit(c, l, tests, requested, run, steps, i);
      PickSize(c, Shares(k), s.results, tests);
    }
  }

  lemma {:induction false} PickOrdinary(c: Conflicts, tests: seq<Test>, k: Key)
    ensures Pick(c, Shares(k), Ordinary(c, tests)) == Pick(c, Shares(k), tests)
  {
    if tests != [] {
      PickOrdinary(c, Front(tests), k);
      assert tests == Front(tests) + [Last(tests)];
      PickConcat(c, Shares(k), Front(tests), [Last(tests)]);
      PickConcat(c, Shares(k), Ordinary(c, Front(tests)), if IsSequential(c, Last(tests)) then [] else [Last(tests)]);
      PickOne(c, Shares(k), Last(tests));
    }
  }

  lemma DispatchedInOrder(c: Conflicts, l: Limits, tests: seq<Test>, requested: int,
                          run: seq<System>, steps: seq<Step>, i: nat, k: Key)
    requires IsRun(c, l, run, steps) && Init(c, l, tests, requested, run[0]) && i < |run|
    requires !l.shuffle && LeadsAgree(c, tests)
    ensures Pick(c, Shares(k), run[i].log) <= Pick(c, Shares(k), tests)
  {
    var s, ordinary := run[i], Ordinary(c, tests);
    RunInLine(c, l, tests, requested, run, steps, i);
    LogKnown(c, l, tests, requested, run, steps, i);
    PickOrdinary(c, tests, k);
    if u :| u in tests && Selects(c, Shares(k), u) {
      var lead := c(u)[0];
      PartsKnown(c, tests);
      PickTwice(c, Leads(lead), Shares(k), s.log);
      PickTwice(c, Leads(lead), Shares(k), ordinary);
      PickPrefix(c, Shares(k), Pick(c, Leads(lead), s.log), Pick(c, Leads(lead), ordinary));
    } else {
      PickAll(c, Shares(k), s.log);
    }
  }

  lemma {:induction false} LogKnown(c: Conflicts, l: Limits, tests: seq<Test>, requested: int,
                                    run: seq<System>, steps: seq<Step>, i: nat)
    requires IsRun(c, l, run, steps) && Init(c, l, tests, requested, run[0]) && i < |run|
    requires !l.shuffle && LeadsAgree(c, tests)
    ensures forall t :: t in run[i].log ==> t in tests
  {
    if i > 0 {
      LogKnown(c, l, tests, requested, run, steps, i - 1);
      RunInLine(c, l, tests, requested, run, steps, i);
      assert forall t :: t in run[i].log ==> t in run[i - 1].log || (steps[i - 1].w in run[i].batches && t in run[i].batches[steps[i - 1].w]);
    }
  }

  lemma {:induction false} PickCount(c: Conflicts, sel: Selector, a: seq<Test>, t: Test)
    ensures multiset(Pick(c, sel, a))[t] == if Selects(c, sel, t) then multiset(a)[t] else 0
  {
    if a != [] {
      PickCount(c, sel, a[1..], t);
      assert a == [a[0]] + a[1..];
    }
  }

  lemma PickSize(c: Conflicts, sel: Selector, a: seq<Test>, b: seq<Test>)
    requires multiset(a) == multiset(b)
    ensures |Pick(c, sel, a)| == |Pick(c, sel, b)|
  {
    forall t ensures multiset(Pick(c, sel, a))[t] == multiset(Pick(c, sel, b))[t] {
      PickCount(c, sel, a, t);
      PickCount(c, sel, b, t);
    }
    assert multiset(Pick(c, sel, a)) == multiset(Pick(c, sel, b));
    assert |multiset(Pick(c, sel, a))| == |Pick(c, sel, a)|;
  }
}
