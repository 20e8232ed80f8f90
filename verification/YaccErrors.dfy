/** When syntax errors are reported and how they are counted: three tokens are shifted between two
    reports, and yynerrs counts each report once or, in one situation, twice. */
module YaccErrors {
  import opened Collections
  import LrTables
  import opened LrAutomaton
  import opened YaccMachine
  import opened YaccLac

  // ---------------------------------------------------------------- distance between reports

  predicate ShiftsNext<V>(p: Parser<V>, s: Status<V>)
    requires s.Running? ==> s.c.stack != [] && IsState(p.a, Last(s.c.stack))
  {
    s.Running? && Decide(p, s.c).Shift?
  }

  lemma ProperTop<V>(p: Parser<V>, s: Status<V>)
    requires Proper(p, s)
    ensures s.Running? ==> s.c.stack != [] && IsState(p.a, Last(s.c.stack))
  {
    hide LrTables.Valid;
  }

  /** How many of the steps from the i-th up to the j-th shift a token. */
  ghost function ShiftCount<V>(p: Parser<V>, initial: V, input: Input<V>, i: nat, j: nat): nat
    requires 0 < p.initDepth
    decreases j
  {
    if j <= i then 0
    else
      var s := PullRun(p, initial, input, j - 1).status;
      ProperTop(p, s);
      ShiftCount(p, initial, input, i, j - 1) + if ShiftsNext(p, s) then 1 else 0
  }

  /** The error status goes down with shifts only. */
  lemma AdvanceStatus<V>(p: Parser<V>, c0: Config<V>)
    requires Ready(p, c0)
    ensures var s := Advance(p, c0);
            s.Running? ==> s.c.errstatus + (if Decide(p, c0).Shift? then 1 else 0) >= c0.errstatus
  {
    hide LrTables.Valid, Steps, Recover, TokenOf, LrTables.LrAction, LrTables.HasEntry, AfterReduce, Failed;
    DecideFacts(p, c0);
    var c := c0.(lac := c0.lac || Establishes(p, c0));
    match Decide(p, c0)
    case Error => FailedDiscards(p, c);
    case Reduce(r) => ReduceStatus(p, c, r);
    case _ =>
  }

  lemma ReduceStatus<V>(p: Parser<V>, c: Config<V>, r: int)
    requires Ready(p, c) && Complete(p.a, Last(c.stack), r)
    ensures AfterReduce(p, c, r).Running? ==> AfterReduce(p, c, r).c.errstatus >= c.errstatus
    ensures AfterReduce(p, c, r).c.reports == c.reports && AfterReduce(p, c, r).c.nerrs == c.nerrs
  {
    hide LrTables.Valid, Recover, Symbols;
    ReducePath(p.a, c.stack, r);
    var n := Length(p.a, r);
    BelowPath(p.a, c.stack, |c.stack| - n);
    RecoverDiscards(p, Popped(c, n));
  }

  lemma {:induction false} RunStatus<V>(p: Parser<V>, initial: V, input: Input<V>, i: nat, j: nat)
    requires 0 < p.initDepth && i <= j
    requires PullRun(p, initial, input, j).status.Running?
    ensures PullRun(p, initial, input, i).status.Running?
    ensures PullRun(p, initial, input, j).status.c.errstatus + ShiftCount(p, initial, input, i, j)
         >= PullRun(p, initial, input, i).status.c.errstatus
    decreases j
  {
    hide LrTables.Valid, Advance, Decide;
    if i < j {
      var s := PullRun(p, initial, input, j - 1).status;
      RunStatus(p, initial, input, i, j - 1);
      AdvanceStatus(p, s.c);
    }
  }

  /** The i-th step reports a syntax error. */
  ghost predicate Reports<V>(p: Parser<V>, initial: V, input: Input<V>, i: nat)
    requires 0 < p.initDepth
  {
    && PullRun(p, initial, input, i).status.Running?
    && PullRun(p, initial, input, i + 1).status.c.reports > PullRun(p, initial, input, i).status.c.reports
  }

  lemma AdvanceReports<V>(p: Parser<V>, c0: Config<V>)
    requires Ready(p, c0)
    ensures var s := Advance(p, c0);
            && (s.c.reports > c0.reports ==> Decide(p, c0).Error? && c0.errstatus == 0)
            && (s.c.reports > c0.reports && s.Running? ==> s.c.errstatus == 3)
            && c0.reports <= s.c.reports <= c0.reports + 1
  {
    hide LrTables.Valid, Steps, Recover, TokenOf, LrTables.LrAction, LrTables.HasEntry, AfterReduce, Failed;
    DecideFacts(p, c0);
    var c := c0.(lac := c0.lac || Establishes(p, c0));
    match Decide(p, c0)
    case Error => FailedDiscards(p, c); FailedCounts(p, c);
    case Reduce(r) => ReduceStatus(p, c, r);
    case _ =>
  }

  /** Between two reports of syntax errors, at least three tokens are shifted. */
  lemma ReportsAreApart<V>(p: Parser<V>, initial: V, input: Input<V>, i: nat, j: nat)
    requires 0 < p.initDepth && i < j && Reports(p, initial, input, i) && Reports(p, initial, input, j)
    ensures ShiftCount(p, initial, input, i + 1, j) >= 3
  {
    hide LrTables.Valid, Advance, Decide;
    var s, t := PullRun(p, initial, input, i).status, PullRun(p, initial, input, j).status;
    AdvanceReports(p, s.c);
    AdvanceReports(p, t.c);
    RunStatus(p, initial, input, i + 1, j);
  }

  // ---------------------------------------------------------------- counting

  /** A report counts the error twice exactly if it is the report that establishes the context of a
      lookahead, which is then rejected. */
  lemma FailedCounts<V>(p: Parser<V>, c: Config<V>)
    requires Ready(p, c)
    ensures var s := Failed(p, c);
            if c.errstatus > 0 then s.c.nerrs == c.nerrs && s.c.reports == c.reports
            else if ReportEstablishes(p, c) && p.lac(c.stack, TokenOf(p, c.yychar)) == NoMemory then
              s.Done? && s.result == Exhausted && s.c.reports == c.reports
            else
              s.c.reports == c.reports + 1
              && s.c.nerrs == c.nerrs + if ReportEstablishes(p, c) && p.lac(c.stack, TokenOf(p, c.yychar)) == NotViable then 2 else 1
  {
    hide LrTables.Valid, IsPath, Recover, TokenOf;
    RecoverDiscards(p, Reported(p, c));
    RecoverDiscards(p, Reported(p, c).(yychar := YYEMPTY));
  }

  /** An error in the tables is one for the lookahead correction, too. */
  lemma ErrorIsRejected<V>(p: Parser<V>, c: Config<V>)
    requires Ready(p, c) && Decide(p, c).Error? && !Establishes(p, c) && c.yychar != YYEMPTY
    ensures !Shiftable(p.a, c.stack, TokenOf(p, c.yychar))
  {
    hide LrTables.Valid, Shiftable, LrTables.LrAction, TokenOf;
    var token := TokenOf(p, c.yychar);
    ShiftableAction(p.a, c.stack, token);
    NextIsAction(p.a, c.stack, token);
    if Defaulted(p.a, Last(c.stack)) {
      DefaultIsAction(p.a, Last(c.stack), token);
    }
  }

  /** Each report counts once, if and only if it does not establish the lookahead's context for a
      verbose message itself. */
  lemma CountedOnceIff<V>(p: Parser<V>, c0: Config<V>)
    requires Ready(p, c0) && LacSound(p) && Decide(p, c0).Error? && Advance(p, c0).c.reports > c0.reports
    ensures Advance(p, c0).c.nerrs == c0.nerrs + 1 <==> !ReportEstablishes(p, c0) || Establishes(p, c0)
    ensures Advance(p, c0).c.nerrs == c0.nerrs + 1 || Advance(p, c0).c.nerrs == c0.nerrs + 2
  {
    hide LrTables.Valid, Steps, Shiftable, TokenOf, LrTables.LrAction, LrTables.HasEntry, Failed;
    var c := c0.(lac := c0.lac || Establishes(p, c0));
    FailedCounts(p, c);
    if ReportEstablishes(p, c) {
      ErrorIsRejected(p, c0);
      assert AnswerSound(p, c.stack, TokenOf(p, c.yychar));
    }
  }

  /** Without verbose messages or without lookahead correction, yynerrs is the number of reports. */
  lemma {:induction false} CountsReports<V>(p: Parser<V>, initial: V, input: Input<V>, n: nat)
    requires 0 < p.initDepth && !(p.useLac && p.verbose)
    ensures var c := PullRun(p, initial, input, n).status.c; c.nerrs == c.reports
  {
    hide LrTables.Valid, Advance, Decide;
    if n > 0 {
      CountsReports(p, initial, input, n - 1);
      var s := PullRun(p, initial, input, n - 1).status;
      if s.Running? {
        AdvanceCounts(p, s.c);
      }
    }
  }

  lemma AdvanceCounts<V>(p: Parser<V>, c0: Config<V>)
    requires Ready(p, c0) && !(p.useLac && p.verbose)
    ensures Advance(p, c0).c.nerrs - c0.nerrs == Advance(p, c0).c.reports - c0.reports
  {
    hide LrTables.Valid, Steps, Recover, TokenOf, LrTables.LrAction, LrTables.HasEntry, AfterReduce, Failed;
    DecideFacts(p, c0);
    var c := c0.(lac := c0.lac || Establishes(p, c0));
    match Decide(p, c0)
    case Error => FailedCounts(p, c);
    case Reduce(r) => ReduceStatus(p, c, r);
    case _ =>
  }

  // ---------------------------------------------------------------- an error that counts twice

  const EXAMPLE: Lalr := (LrTables.ExampleIsValid(); Automaton(LrTables.EXAMPLE, LrTables.EXAMPLE_GRAMMAR))

  /** The example tables with lookahead correction and verbose messages. */
  function DoubleCounter(): Parser<int> {
    Parser(EXAMPLE, (_, _) => Ok(0), [0, 1, 2, 3], true, true,
           (stack, x) => if x == 0 || (x == 3 && stack == [0, 2]) then Viable else NotViable,
           200, 10000, _ => true)
  }

  lemma ExampleStacks(stack: seq<int>)
    requires Live(EXAMPLE, stack)
    ensures stack == [0] || stack == [0, 1] || stack == [0, 2] || stack == [0, 2, 4]
  {
    hide LrTables.Valid, Links;
    if |stack| > 1 {
      ExampleLinks(stack[0], stack[1]);
    }
    if |stack| > 2 {
      ExampleLinks(stack[1], stack[2]);
    }
    if |stack| > 3 {
      ExampleLinks(stack[2], stack[3]);
    }
  }

  lemma ExampleLinks(p: int, q: int)
    requires IsState(EXAMPLE, p) && IsState(EXAMPLE, q)
    ensures Links(EXAMPLE, p, q) && q != 0 ==> (p == 0 && q in {1, 2}) || (p == 1 && q == 3) || (p == 2 && q == 4)
  {
    assert LrTables.Item(1, 1) in LrTables.EXAMPLE_GRAMMAR.items[1];
    assert LrTables.Item(2, 1) in LrTables.EXAMPLE_GRAMMAR.items[2];
    assert LrTables.Item(1, 2) in LrTables.EXAMPLE_GRAMMAR.items[3];
    assert LrTables.Item(3, 2) in LrTables.EXAMPLE_GRAMMAR.items[4];
  }

  lemma ExampleSteps(token: int)
    requires 0 <= token < 4
    ensures Live(EXAMPLE, [0]) && NextAction(EXAMPLE, [0], token) == LrTables.ExampleAction(0, token)
    ensures token != 3 ==> NextStack(EXAMPLE, [0], token) == [0, 2]
  {
    hide LrTables.Valid;
    LrTables.ExampleActions();
  }

  lemma ExampleStepsHigher(token: int)
    requires 0 <= token < 4
    ensures Live(EXAMPLE, [0, 1]) && NextAction(EXAMPLE, [0, 1], token) == LrTables.ExampleAction(1, token)
    ensures Live(EXAMPLE, [0, 2]) && NextAction(EXAMPLE, [0, 2], token) == LrTables.ExampleAction(2, token)
    ensures token != 3 ==> NextStack(EXAMPLE, [0, 2], token) == [0, 1]
  {
    hide LrTables.Valid;
    LrTables.ExampleActions();
  }

  lemma ExampleStepsTop(token: int)
    requires 0 <= token < 4
    ensures Live(EXAMPLE, [0, 2, 4]) && NextAction(EXAMPLE, [0, 2, 4], token) == LrTables.ExampleAction(4, token)
    ensures NextStack(EXAMPLE, [0, 2, 4], token) == [0, 1]
  {
    hide LrTables.Valid;
    LrTables.ExampleActions();
  }

  /** The answers of lookahead correction assumed in the example are true. */
  lemma DoubleCounterIsSound()
    ensures LacSound(DoubleCounter())
  {
    hide LrTables.Valid, LrTables.LrAction, Live, NextAction, NextStack;
    var p := DoubleCounter();
    forall stack, token | Live(EXAMPLE, stack) && IsToken(EXAMPLE, token) ensures AnswerSound(p, stack, token) {
      ExampleStacks(stack);
      ExampleSteps(token);
      ExampleStepsHigher(token);
      ExampleStepsTop(token);
      ShiftableAction(EXAMPLE, [0], token);
      ShiftableAction(EXAMPLE, [0, 1], token);
      ShiftableAction(EXAMPLE, [0, 2], token);
      ShiftableAction(EXAMPLE, [0, 2, 4], token);
    }
  }

  /** With these tables the input "<" is one error, reported once, and yynerrs is 2. */
  lemma CountedTwice()
    ensures var s := PullRun(DoubleCounter(), 7, _ => Lexeme(3, 7), 2).status;
            s.Done? && s.result == Aborted && s.c.reports == 1 && s.c.nerrs == 2
    ensures LacSound(DoubleCounter())
  {
    hide LrTables.Valid, Advance, Decide, Ready, LacSound;
    DoubleCounterIsSound();
    var p, input := DoubleCounter(), (_: nat) => Lexeme(3, 7);
    TheStep();
    var c := Config([0], [7], 200, YYEMPTY, 7, 0, 0, false, 0, 0);
    assert PullRun(p, 7, input, 0) == Pull(Running(c), 0);
    assert PullRun(p, 7, input, 1) == Pull(Running(c.(yychar := 3)), 1);
  }

  lemma TheStep()
    ensures var p, c := DoubleCounter(), Config([0], [7], 200, YYEMPTY, 7, 0, 0, false, 0, 0);
            && Start(p, 7) == Running(c) && Ready(p, c) && Decide(p, c).Read?
            && Ready(p, c.(yychar := 3)) && !Decide(p, c.(yychar := 3)).Read?
            && var s := Advance(p, c.(yychar := 3));
               s.Done? && s.result == Aborted && s.c.reports == 1 && s.c.nerrs == 2
  {
    hide LrTables.Valid, Links;
    LrTables.ExampleActions();
    ExampleSteps(3);
    var p, c := DoubleCounter(), Config([0], [7], 200, 3, 7, 0, 0, false, 0, 0);
    assert Decide(p, c).Error?;
  }
}
