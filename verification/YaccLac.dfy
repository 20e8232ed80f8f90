/** What lookahead correction gives the parser: once a lookahead has been accepted only reductions
    come before it is shifted, and a lookahead that cannot be shifted is an error before any reduction. */
module YaccLac {
  import opened Collections
  import LrTables
  import opened LrAutomaton
  import opened YaccMachine
  import Lac

  ghost predicate Shiftable(a: Lalr, stack: seq<int>, token: int)
    requires Live(a, stack) && IsToken(a, token)
  {
    exists fuel: nat :: Plain(a, stack, token, fuel) == Shifts
  }

  /** The check answers whether the plain parser would shift the token, unless memory runs out. */
  ghost predicate LacSound<V>(p: Parser<V>) {
    forall stack, token :: Live(p.a, stack) && IsToken(p.a, token) ==> AnswerSound(p, stack, token)
  }

  ghost predicate AnswerSound<V>(p: Parser<V>, stack: seq<int>, token: int)
    requires Live(p.a, stack) && IsToken(p.a, token)
  {
    match p.lac(stack, token)
    case Viable => Shiftable(p.a, stack, token)
    case NotViable => !Shiftable(p.a, stack, token)
    case NoMemory => true
  }

  /** The answers of yy_lac are sound in this sense, for tables without entries for the undefined token. */
  lemma CheckIsSound(a: Lalr, stack: seq<int>, token: int, fuel: nat, status: Lac.LacStatus)
    requires Live(a, stack) && IsToken(a, token) && Lac.NoUndefEntry(a)
    requires status == if token == a.t.undef then Lac.Rejects else Lac.StatusOf(Plain(a, stack, token, fuel))
    ensures status == Lac.Accepts ==> Shiftable(a, stack, token)
    ensures status == Lac.Rejects ==> !Shiftable(a, stack, token)
  {
    hide LrTables.Valid, Live, Plain, Lac.NoUndefEntry;
    if status == Lac.Rejects {
      forall more: nat ensures Plain(a, stack, token, more) != Shifts {
        if token == a.t.undef {
          Lac.UndefIsNeverShifted(a, stack, more);
        } else if more <= fuel && Plain(a, stack, token, more) == Shifts {
          PlainMonotone(a, stack, token, more, fuel);
        } else if fuel <= more {
          PlainMonotone(a, stack, token, fuel, more);
        }
      }
    }
  }

  /** The answers of a check that is followed to its end. */
  ghost predicate LacIsPlain<V>(p: Parser<V>) {
    && Lac.NoUndefEntry(p.a)
    && forall stack, token :: Live(p.a, stack) && IsToken(p.a, token) ==> p.lac(stack, token) == PlainAnswer(p.a, stack, token)
  }

  ghost function PlainAnswer(a: Lalr, stack: seq<int>, token: int): LacAnswer
    requires Live(a, stack) && IsToken(a, token)
  {
    if Shiftable(a, stack, token) then Viable else NotViable
  }

  /** A parser with lookahead correction asks the check. */
  ghost predicate Checks<V>(p: Parser<V>) {
    p.useLac ==> LacIsPlain(p)
  }

  lemma PlainIsSound<V>(p: Parser<V>)
    requires LacIsPlain(p)
    ensures LacSound(p)
  {
    hide LrTables.Valid, Live, Shiftable;
    forall stack, token | Live(p.a, stack) && IsToken(p.a, token) ensures AnswerSound(p, stack, token) {
      assert p.lac(stack, token) == PlainAnswer(p.a, stack, token);
    }
  }

  /** Every parser can be given these answers, if no table entry is for the undefined token. */
  lemma PlainExists<V>(p: Parser<V>) returns (p': Parser<V>)
    requires Lac.NoUndefEntry(p.a)
    ensures p' == p.(lac := p'.lac) && LacIsPlain(p')
  {
    hide LrTables.Valid, Live, Shiftable;
    var answer := (stack: seq<int>, token: int) =>
      if Live(p.a, stack) && IsToken(p.a, token) && Shiftable(p.a, stack, token) then Viable else NotViable;
    p' := p.(lac := answer);
  }

  /** The answer of the extension's check, if it comes to one. */
  lemma CheckAnswers<V>(p: Parser<V>, stack: seq<int>, token: int, fuel: nat, status: Lac.LacStatus)
    requires LacIsPlain(p) && Live(p.a, stack) && IsToken(p.a, token)
    requires status == if token == p.a.t.undef then Lac.Rejects else Lac.StatusOf(Plain(p.a, stack, token, fuel))
    ensures status == Lac.Accepts ==> p.lac(stack, token) == Viable
    ensures status == Lac.Rejects ==> p.lac(stack, token) == NotViable
  {
    hide LrTables.Valid, Live, Shiftable, Plain, Lac.NoUndefEntry;
    CheckIsSound(p.a, stack, token, fuel, status);
    assert p.lac(stack, token) == PlainAnswer(p.a, stack, token);
  }

  /** An established context is one from which the lookahead will be shifted. */
  ghost predicate Accepting<V>(p: Parser<V>, c: Config<V>)
    requires Live(p.a, c.stack)
  {
    c.lac ==> Shiftable(p.a, c.stack, TokenOf(p, c.yychar))
  }

  // ---------------------------------------------------------------- one decision

  lemma DefaultIsAction(a: Lalr, q: int, token: int)
    requires IsState(a, q) && Defaulted(a, q)
    ensures DefaultAction(a, q) == Action(a, q, token)
  {
  }

  lemma ShiftableAction(a: Lalr, stack: seq<int>, token: int)
    requires Live(a, stack) && IsToken(a, token)
    ensures NextAction(a, stack, token).Error? ==> !Shiftable(a, stack, token)
    ensures NextAction(a, stack, token).Shift? ==> Shiftable(a, stack, token)
    ensures NextAction(a, stack, token).Reduce? ==>
              (Shiftable(a, stack, token) <==> Shiftable(a, NextStack(a, stack, token), token))
  {
    hide LrTables.Valid, Live, NextAction, NextStack;
    var act := NextAction(a, stack, token);
    if act.Shift? {
      assert Plain(a, stack, token, 0) == Shifts;
    } else if act.Reduce? {
      var later := NextStack(a, stack, token);
      if fuel: nat :| Plain(a, later, token, fuel) == Shifts {
        assert Plain(a, stack, token, fuel + 1) == Shifts;
      }
      if fuel: nat :| Plain(a, stack, token, fuel) == Shifts {
        assert Plain(a, later, token, fuel - 1) == Shifts;
      }
    }
  }

  lemma NextIsAction(a: Lalr, stack: seq<int>, token: int)
    requires Live(a, stack) && IsToken(a, token)
    ensures NextAction(a, stack, token) == Action(a, Last(stack), token)
    ensures var act := NextAction(a, stack, token); act.Reduce? ==> NextStack(a, stack, token) == Reduced(a, stack, act.rule)
  {
  }

  /** With an accepted lookahead, the parser reduces or shifts. */
  lemma AcceptedGoesOn<V>(p: Parser<V>, c: Config<V>)
    requires Ready(p, c) && Accepting(p, c) && c.lac
    ensures Decide(p, c).Shift? || Decide(p, c).Reduce?
    ensures Decide(p, c) == ActionDecision(Action(p.a, Last(c.stack), TokenOf(p, c.yychar)))
  {
    hide LrTables.Valid, Shiftable, LrTables.LrAction, TokenOf;
    var token := TokenOf(p, c.yychar);
    ShiftableAction(p.a, c.stack, token);
    NextIsAction(p.a, c.stack, token);
    if Defaulted(p.a, Last(c.stack)) {
      DefaultIsAction(p.a, Last(c.stack), token);
    }
  }

  /** Where a lookahead is first examined, it is an error exactly if it could never be shifted. */
  lemma RejectedAtOnce<V>(p: Parser<V>, c: Config<V>)
    requires Ready(p, c) && LacSound(p) && p.useLac && !c.lac
    requires c.yychar != YYEMPTY && !Defaulted(p.a, Last(c.stack))
    requires p.lac(c.stack, TokenOf(p, c.yychar)) != NoMemory
    ensures Decide(p, c).Error? <==> !Shiftable(p.a, c.stack, TokenOf(p, c.yychar))
  {
    hide LrTables.Valid, Shiftable, LrTables.LrAction, TokenOf, LrTables.HasEntry;
    var token := TokenOf(p, c.yychar);
    assert AnswerSound(p, c.stack, token);
    ShiftableAction(p.a, c.stack, token);
    NextIsAction(p.a, c.stack, token);
    EntryOrNoShift(p.a, Last(c.stack), token);
  }

  lemma EntryOrNoShift(a: Lalr, q: int, token: int)
    requires IsState(a, q)
    ensures !LrTables.HasEntry(a.t, q, token) ==> !Action(a, q, token).Shift?
  {
  }

  // ---------------------------------------------------------------- every step

  /** A reduction, with or without the context being established just before it, keeps the guarantee. */
  lemma ReduceKeepsAccepting<V>(p: Parser<V>, c0: Config<V>, r: int)
    requires Ready(p, c0) && Accepting(p, c0) && LacSound(p) && Decide(p, c0) == Reduce(r) && Complete(p.a, Last(c0.stack), r)
    ensures var c := c0.(lac := c0.lac || Establishes(p, c0));
            AfterReduce(p, c, r).Running? ==> Accepting(p, AfterReduce(p, c, r).c)
  {
    hide LrTables.Valid, Shiftable, LrTables.LrAction, TokenOf, LrTables.HasEntry, Recover, Symbols;
    var token := TokenOf(p, c0.yychar);
    var c := c0.(lac := c0.lac || Establishes(p, c0));
    ReducePath(p.a, c.stack, r);
    assert AnswerSound(p, c.stack, token);
    ShiftableAction(p.a, c.stack, token);
    NextIsAction(p.a, c.stack, token);
    if c0.lac {
      AcceptedGoesOn(p, c0);
    }
    assert c.lac ==> Shiftable(p.a, Reduced(p.a, c.stack, r), token);
    var n := Length(p.a, r);
    if p.action(r, c.values[|c.values| - n..]).Raise? {
      BelowPath(p.a, c.stack, |c.stack| - n);
      RecoverDiscards(p, Popped(c, n));
    }
  }

  lemma RecoverDiscards<V>(p: Parser<V>, c: Config<V>)
    requires IsPath(p.a, c.stack) && |c.values| == |c.stack| < c.size && Fitting(p, c.size) && InRange(c)
    ensures Recover(p, c).Running? ==> !Recover(p, c).c.lac && Recover(p, c).c.errstatus == 3
    ensures Recover(p, c).c.nerrs == c.nerrs && Recover(p, c).c.reports == c.reports
    ensures Recover(p, c).c.recoveries == c.recoveries + 1
  {
    hide LrTables.Valid, IsPath, CatchesErrors, ErrorState;
    TablesSized(p.a);
    var n := ErrorDepth(p.a.t, c.stack, |c.stack|);
    if n > 0 {
      RecoverPath(p.a, c.stack, n);
    }
  }

  lemma FailedDiscards<V>(p: Parser<V>, c: Config<V>)
    requires Ready(p, c)
    ensures Failed(p, c).Running? ==> !Failed(p, c).c.lac && Failed(p, c).c.errstatus == 3
  {
    hide LrTables.Valid, IsPath, Recover, TokenOf;
    RecoverDiscards(p, Reported(p, c));
    RecoverDiscards(p, Reported(p, c).(yychar := YYEMPTY));
  }

  lemma AdvanceKeepsAccepting<V>(p: Parser<V>, c0: Config<V>)
    requires Ready(p, c0) && Accepting(p, c0) && LacSound(p)
    ensures Advance(p, c0).Running? ==> Accepting(p, Advance(p, c0).c)
  {
    hide LrTables.Valid, Shiftable, LacSound, TokenOf, AfterReduce, Failed;
    DecideFacts(p, c0);
    var c := c0.(lac := c0.lac || Establishes(p, c0));
    match Decide(p, c0)
    case Reduce(r) => ReduceKeepsAccepting(p, c0, r);
    case Error => FailedDiscards(p, c);
    case Shift(q) => ShiftPath(p.a, c.stack, TokenOf(p, c.yychar));
    case _ =>
  }

  /** Every state of every run keeps the guarantee. */
  lemma {:induction false} RunAccepting<V>(p: Parser<V>, initial: V, input: Input<V>, n: nat)
    requires 0 < p.initDepth && LacSound(p)
    ensures var s := PullRun(p, initial, input, n).status;
            s.Running? ==> Accepting(p, s.c)
  {
    hide LrTables.Valid, Shiftable, LacSound, TokenOf, Advance;
    if n > 0 {
      RunAccepting(p, initial, input, n - 1);
      var s := PullRun(p, initial, input, n - 1).status;
      if s.Running? {
        DecideFacts(p, s.c);
        AdvanceKeepsAccepting(p, s.c);
      }
    }
  }

  // ---------------------------------------------------------------- the guarantee

  /** n steps that read nothing. */
  function After<V>(p: Parser<V>, c: Config<V>, n: nat): (s: Status<V>)
    requires Ready(p, c)
    ensures Proper(p, s)
    decreases n
  {
    if n == 0 then Running(c)
    else
      var s := Advance(p, c);
      if s.Running? then After(p, s.c, n - 1) else s
  }

  ghost predicate ActionsOk<V(!new)>(p: Parser<V>) {
    forall r, values :: p.action(r, values).Ok?
  }

  /** From an accepted lookahead, there are k reductions and then the lookahead is shifted, unless
      memory runs out on the way. */
  lemma {:induction false} ShiftFollows<V(!new)>(p: Parser<V>, c: Config<V>, fuel: nat) returns (k: nat)
    requires Ready(p, c) && c.lac && Plain(p.a, c.stack, TokenOf(p, c.yychar), fuel) == Shifts && ActionsOk(p)
    ensures forall j :: 0 <= j < k ==> After(p, c, j).Running? && Decide(p, After(p, c, j).c).Reduce?
    ensures var s := After(p, c, k);
            if s.Done? then s.result == Exhausted
            else Decide(p, s.c).Shift? && s.c.yychar == c.yychar && s.c.lval == c.lval
    decreases fuel
  {
    hide LrTables.Valid, LrTables.LrAction, TokenOf, AfterReduce, Reduced;
    var token := TokenOf(p, c.yychar);
    assert Shiftable(p.a, c.stack, token);
    AcceptedGoesOn(p, c);
    NextIsAction(p.a, c.stack, token);
    k := 0;
    if Decide(p, c).Reduce? {
      var r := Decide(p, c).rule;
      DecideFacts(p, c);
      ReducedConfig(p, c, r);
      var s := Advance(p, c);
      k := 1;
      if s.Running? {
        assert s.c.stack == NextStack(p.a, c.stack, token);
        k := ShiftFollows(p, s.c, fuel - 1);
        k := k + 1;
        forall j | 0 <= j < k ensures After(p, c, j).Running? && Decide(p, After(p, c, j).c).Reduce? {
          if j > 0 {
            assert After(p, c, j) == After(p, s.c, j - 1);
          }
        }
      }
    }
  }

  lemma ReducedConfig<V(!new)>(p: Parser<V>, c: Config<V>, r: int)
    requires Ready(p, c) && c.lac && Decide(p, c) == Reduce(r) && Complete(p.a, Last(c.stack), r) && ActionsOk(p)
    ensures Length(p.a, r) < |c.stack|
    ensures var s := Advance(p, c);
            if s.Done? then s.result == Exhausted
            else s.c.stack == Reduced(p.a, c.stack, r) && s.c.lac && s.c.yychar == c.yychar && s.c.lval == c.lval
  {
    hide LrTables.Valid, LrTables.LrAction, TokenOf, Reduced, Symbols;
    ReducePath(p.a, c.stack, r);
  }

  /** The guarantee: a reduction in a state that looks at the lookahead is part of a series of
      reductions after which the lookahead is shifted. */
  lemma NoIdleReduction<V(!new)>(p: Parser<V>, c: Config<V>) returns (k: nat)
    requires Ready(p, c) && Accepting(p, c) && LacSound(p) && ActionsOk(p) && p.useLac
    requires Decide(p, c).Reduce? && !Defaulted(p.a, Last(c.stack))
    ensures forall j :: 0 <= j < k ==> After(p, c, j).Running? && Decide(p, After(p, c, j).c).Reduce?
    ensures var s := After(p, c, k);
            if s.Done? then s.result == Exhausted
            else Decide(p, s.c).Shift? && s.c.yychar == c.yychar && s.c.lval == c.lval
  {
    hide LrTables.Valid, LrTables.LrAction, LrTables.HasEntry, TokenOf, AfterReduce;
    var token := TokenOf(p, c.yychar);
    var c' := c.(lac := true);
    assert AnswerSound(p, c.stack, token);
    assert Shiftable(p.a, c.stack, token);
    var fuel: nat :| Plain(p.a, c.stack, token, fuel) == Shifts;
    k := ShiftFollows(p, c', fuel);
    AcceptedGoesOn(p, c');
    assert Decide(p, c') == Decide(p, c) && Advance(p, c') == Advance(p, c);
    assert k > 0;
    forall j | 0 < j <= k ensures After(p, c, j) == After(p, c', j) {
    }
  }
}
