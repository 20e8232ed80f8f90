/** Why error recovery makes progress: a token is found to be wrong twice at most, after which it is
    dropped. */
module YaccProgress {
  import opened Collections
  import LrTables
  import opened LrAutomaton
  import opened YaccMachine
  import YaccErrors

  /** The step finds that the lookahead is an error. */
  predicate Fails<V>(p: Parser<V>, s: Status<V>)
    requires s.Running? ==> s.c.stack != [] && IsState(p.a, Last(s.c.stack))
  {
    s.Running? && s.c.yychar != YYEMPTY && Decide(p, s.c).Error?
  }

  ghost predicate FailsAt<V>(p: Parser<V>, initial: V, input: Input<V>, i: nat)
    requires 0 < p.initDepth
  {
    var s := PullRun(p, initial, input, i).status;
    YaccErrors.ProperTop(p, s);
    Fails(p, s)
  }

  /** How many of the steps from the i-th up to the j-th do. */
  ghost function FailCount<V>(p: Parser<V>, initial: V, input: Input<V>, i: nat, j: nat): nat
    requires 0 < p.initDepth
    decreases j
  {
    if j <= i then 0
    else FailCount(p, initial, input, i, j - 1) + if FailsAt(p, initial, input, j - 1) then 1 else 0
  }

  /** How often the lookahead can still be found wrong. */
  function Chances<V>(s: Status<V>): nat {
    if s.Done? || s.c.yychar == YYEMPTY then 0 else if s.c.errstatus == 3 then 1 else 2
  }

  // ---------------------------------------------------------------- one step

  lemma RecoverChances<V>(p: Parser<V>, c: Config<V>)
    requires IsPath(p.a, c.stack) && |c.values| == |c.stack| < c.size && Fitting(p, c.size) && InRange(c)
    ensures Chances(Recover(p, c)) <= if c.yychar == YYEMPTY then 0 else 1
  {
    hide LrTables.Valid, IsPath;
  }

  lemma FailedChances<V>(p: Parser<V>, c: Config<V>)
    requires Ready(p, c)
    ensures Chances(Failed(p, c)) + (if c.yychar == YYEMPTY then 0 else 1) <= Chances(Running(c))
  {
    hide LrTables.Valid, Recover, IsPath, TokenOf;
    var c' := Reported(p, c);
    RecoverChances(p, c');
    RecoverChances(p, c'.(yychar := YYEMPTY));
  }

  lemma ReduceChances<V>(p: Parser<V>, c: Config<V>, r: int)
    requires Ready(p, c) && Complete(p.a, Last(c.stack), r)
    ensures Chances(AfterReduce(p, c, r)) <= Chances(Running(c))
  {
    hide LrTables.Valid, Recover, Symbols, Steps;
    ReducePath(p.a, c.stack, r);
    var n := Length(p.a, r);
    BelowPath(p.a, c.stack, |c.stack| - n);
    RecoverChances(p, Popped(c, n));
  }

  /** No step but the reading of a token adds to the chances, and an error takes one. */
  lemma AdvanceChances<V>(p: Parser<V>, c: Config<V>)
    requires Ready(p, c)
    ensures Chances(Advance(p, c)) + (if c.yychar != YYEMPTY && Decide(p, c).Error? then 1 else 0) <= Chances(Running(c))
  {
    hide LrTables.Valid, Steps, TokenOf, LrTables.LrAction, LrTables.HasEntry, AfterReduce, Failed;
    DecideFacts(p, c);
    var c' := c.(lac := c.lac || Establishes(p, c));
    match Decide(p, c)
    case Error => FailedChances(p, c');
    case Reduce(r) => ReduceChances(p, c', r);
    case _ =>
  }

  // ---------------------------------------------------------------- runs

  /** In any part of a run, each token that is read is found to be wrong twice at most. */
  lemma {:induction false} FailsAreBounded<V>(p: Parser<V>, initial: V, input: Input<V>, i: nat, n: nat)
    requires 0 < p.initDepth && i <= n
    ensures var s, t := PullRun(p, initial, input, i), PullRun(p, initial, input, n);
            && s.pos <= t.pos
            && FailCount(p, initial, input, i, n) + Chances(t.status) <= Chances(s.status) + 2 * (t.pos - s.pos)
    decreases n
  {
    hide LrTables.Valid, Advance, Decide, Fails, Steps, Chances;
    if i < n {
      FailsAreBounded(p, initial, input, i, n - 1);
      StepChances(p, input, PullRun(p, initial, input, n - 1));
    }
  }

  lemma StepChances<V>(p: Parser<V>, input: Input<V>, s: Pull<V>)
    requires Proper(p, s.status)
    ensures s.status.Running? ==> s.status.c.stack != [] && IsState(p.a, Last(s.status.c.stack))
    ensures var s' := PullStep(p, input, s);
            && (s'.pos == s.pos || s'.pos == s.pos + 1)
            && Chances(s'.status) + (if Fails(p, s.status) then 1 else 0) <= Chances(s.status) + 2 * (s'.pos - s.pos)
  {
    hide LrTables.Valid, Advance, Decide, Steps;
    YaccErrors.ProperTop(p, s.status);
    if s.status.Running? {
      AdvanceChances(p, s.status.c);
    }
  }

  /** The tokens found wrong, counted as often as they are, are at most twice as many as were read. */
  lemma RecoveryMakesProgress<V>(p: Parser<V>, initial: V, input: Input<V>, n: nat)
    requires 0 < p.initDepth
    ensures FailCount(p, initial, input, 0, n) <= 2 * PullRun(p, initial, input, n).pos
  {
    hide LrTables.Valid, FailCount;
    FailsAreBounded(p, initial, input, 0, n);
    NoChance(p, initial);
  }

  lemma NoChance<V>(p: Parser<V>, initial: V)
    requires 0 < p.initDepth
    ensures Chances(Start(p, initial)) == 0
  {
    hide LrTables.Valid, Steps;
  }

  lemma {:induction false} CountParts<V>(p: Parser<V>, initial: V, input: Input<V>, i: nat, j: nat, k: nat)
    requires 0 < p.initDepth && i <= j <= k
    ensures FailCount(p, initial, input, i, k) == FailCount(p, initial, input, i, j) + FailCount(p, initial, input, j, k)
    decreases k
  {
    hide LrTables.Valid, FailsAt;
    if j < k {
      CountParts(p, initial, input, i, j, k - 1);
    }
  }

  lemma CountOne<V>(p: Parser<V>, initial: V, input: Input<V>, i: nat, j: nat)
    requires 0 < p.initDepth && i < j && FailsAt(p, initial, input, i)
    ensures FailCount(p, initial, input, i, j) >= 1
  {
    hide LrTables.Valid, FailsAt;
    CountParts(p, initial, input, i, i + 1, j);
  }

  /** If a lookahead is found wrong, and found wrong again before another token is read, then it is
      dropped, or the parse is over. */
  lemma SecondFailureDrops<V>(p: Parser<V>, initial: V, input: Input<V>, i: nat, j: nat)
    requires 0 < p.initDepth && i < j && FailsAt(p, initial, input, i) && FailsAt(p, initial, input, j)
    requires PullRun(p, initial, input, i).pos == PullRun(p, initial, input, j).pos
    ensures var s := PullRun(p, initial, input, j + 1).status; s.Done? || s.c.yychar == YYEMPTY
    ensures PullRun(p, initial, input, j + 1).pos == PullRun(p, initial, input, i).pos
  {
    hide LrTables.Valid, FailsAt, FailCount, PullRun;
    FailsAreBounded(p, initial, input, i, j + 1);
    CountParts(p, initial, input, i, j, j + 1);
    CountOne(p, initial, input, i, j);
    CountOne(p, initial, input, j, j + 1);
    FailReadsNothing(p, initial, input, j);
  }

  lemma FailReadsNothing<V>(p: Parser<V>, initial: V, input: Input<V>, j: nat)
    requires 0 < p.initDepth && FailsAt(p, initial, input, j)
    ensures PullRun(p, initial, input, j + 1).pos == PullRun(p, initial, input, j).pos
  {
    hide LrTables.Valid, Advance, Steps;
  }

  /** Of three steps that find an error, the last comes with another token than the first. */
  lemma ThirdFailureIsLater<V>(p: Parser<V>, initial: V, input: Input<V>, i: nat, j: nat, k: nat)
    requires 0 < p.initDepth && i < j < k
    requires FailsAt(p, initial, input, i) && FailsAt(p, initial, input, j) && FailsAt(p, initial, input, k)
    ensures PullRun(p, initial, input, i).pos < PullRun(p, initial, input, k).pos
  {
    hide LrTables.Valid, FailsAt, FailCount, PullRun;
    FailsAreBounded(p, initial, input, i, k + 1);
    CountParts(p, initial, input, i, j, k + 1);
    CountParts(p, initial, input, j, k, k + 1);
    CountOne(p, initial, input, i, j);
    CountOne(p, initial, input, j, k);
    CountOne(p, initial, input, k, k + 1);
    FailReadsNothing(p, initial, input, k);
  }

  /** The first time, the lookahead is kept for another try. */
  lemma FirstFailureKeeps<V>(p: Parser<V>, c: Config<V>)
    requires Ready(p, c) && Decide(p, c).Error? && c.errstatus < 3
    ensures var s := Advance(p, c); s.Running? ==> s.c.yychar == c.yychar && s.c.lval == c.lval && s.c.errstatus == 3
  {
    hide LrTables.Valid, Steps, TokenOf, LrTables.LrAction, LrTables.HasEntry, IsPath;
    DecideFacts(p, c);
  }

  /** Every state that acts without a lookahead has a reduction to do, as in generated tables. */
  ghost predicate DefaultsReduce(a: Lalr) {
    forall q :: IsState(a, q) && q != a.t.final && Defaulted(a, q) ==> DefaultAction(a, q).Reduce?
  }

  /** Then an error always has a lookahead. */
  lemma ErrorsHaveLookaheads<V>(p: Parser<V>, c: Config<V>)
    requires Ready(p, c) && DefaultsReduce(p.a) && Decide(p, c).Error?
    ensures Fails(p, Running(c))
  {
    hide LrTables.Valid, Steps, TokenOf, LrTables.LrAction, LrTables.HasEntry;
  }
}
