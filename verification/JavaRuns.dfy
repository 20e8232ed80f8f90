/** The Java parser and the C parser go through the same states. */
module JavaRuns {
  import opened Collections
  import LrTables
  import opened LrAutomaton
  import opened JavaMachine
  import Y = YaccMachine
  import YaccParser

  /** The Java parser's fields and the variables of yyparse say the same. */
  ghost predicate Agrees<V>(j: Fields<V>, c: Y.Config<V>) {
    && j.stack == c.stack && j.values == c.values && j.yychar == c.yychar && j.yylval == c.lval
    && j.yyerrstatus == c.errstatus && j.yynerrs == c.nerrs && !c.lac
  }

  /** k turns of the switch, or fewer if a token is needed. */
  function Turns<V>(p: Y.Parser<V>, j: Fields<V>, k: nat): (j': Fields<V>)
    requires Fits(p, j)
    ensures Fits(p, j')
    decreases k
  {
    if k == 0 || Needs(j) then j else Turns(p, Step(p, j), k - 1)
  }

  lemma {:induction false} TurnsAdd<V>(p: Y.Parser<V>, j: Fields<V>, k: nat, n: nat)
    requires Fits(p, j)
    ensures Turns(p, j, k + n) == Turns(p, Turns(p, j, k), n)
    decreases k
  {
    hide LrTables.Valid, Fits, Step;
    if k > 0 && !Needs(j) {
      TurnsAdd(p, Step(p, j), k - 1, n);
    } else if Needs(j) {
      TurnsStay(p, j, k);
      TurnsStay(p, j, n);
      TurnsStay(p, j, k + n);
    }
  }

  lemma TurnsStay<V>(p: Y.Parser<V>, j: Fields<V>, k: nat)
    requires Fits(p, j) && Needs(j)
    ensures Turns(p, j, k) == j
  {
    hide LrTables.Valid, Fits;
  }

  lemma OneTurn<V>(p: Y.Parser<V>, j: Fields<V>)
    requires Fits(p, j) && !Needs(j)
    ensures Turns(p, j, 1) == Step(p, j)
  {
    hide LrTables.Valid, Fits, Step;
    assert Turns(p, Step(p, j), 0) == Step(p, j);
  }

  // ---------------------------------------------------------------- from one state to the next

  /** At a state, or where its lookahead is to be examined. */
  ghost predicate AtState<V>(p: Y.Parser<V>, j: Fields<V>, c: Y.Config<V>) {
    Fits(p, j) && (j.yylabel == YYNEWSTATE || j.yylabel == YYGETTOKEN) && Agrees(j, c)
  }

  /** Where the Java parser is when the C parser has come to s. */
  ghost predicate Matches<V>(p: Y.Parser<V>, j: Fields<V>, s: Y.Status<V>) {
    && Fits(p, j)
    && match s
       case Running(c) => AtState(p, j, c)
       case Done(Accepted, c) => j.yylabel == YYACCEPT && Agrees(j, c)
       case Done(AcceptedByAction, _) => j.yylabel == YYACCEPT
       case Done(Aborted, _) => j.yylabel == YYABORT
       case Done(Exhausted, _) => true
  }

  /** A state was pushed; the final state is noticed at YYNEWSTATE. */
  lemma Entered<V>(p: Y.Parser<V>, j: Fields<V>, c: Y.Config<V>) returns (k: nat)
    requires AtState(p, j, c) && j.yylabel == YYNEWSTATE
    requires IsPath(p.a, c.stack) && |c.values| == |c.stack| <= c.size && Y.Fitting(p, c.size) && Y.Tidy(c)
    ensures Matches(p, Turns(p, j, k), Y.Enter(p, c))
  {
    hide LrTables.Valid, Steps;
    k := 0;
    if Last(c.stack) == p.a.t.final {
      k := 1;
      OneTurn(p, j);
    }
  }

  /** Two steps at most show what is to be done. */
  lemma Decided<V>(p: Y.Parser<V>, j: Fields<V>, c: Y.Config<V>) returns (k: nat)
    requires !p.useLac && Y.Ready(p, c) && AtState(p, j, c)
    ensures var j', d := Turns(p, j, k), Y.Decide(p, c);
            && Fits(p, j')
            && (d.Read? ==> Needs(j') && Agrees(j', c))
            && (d.Error? ==> j'.yylabel == YYERRLAB && Agrees(j', c))
            && (d.Reduce? ==> j'.yylabel == YYREDUCE && j'.yyn == d.rule && Agrees(j', c))
            && (d.Shift? ==> j'.yylabel == YYNEWSTATE && Agrees(j', Y.Shifted(c, d.state)))
            && d != Y.OutOfMemory
  {
    hide LrTables.Valid, Steps, Y.TokenOf;
    var j1 := j;
    k := 0;
    if j.yylabel == YYNEWSTATE {
      j1 := Step(p, j);
      k := 1;
      OneTurn(p, j);
    }
    if j1.yylabel == YYDEFAULT {
      DefaultTurn(p, j1);
      TurnsAdd(p, j, k, 1);
      k := k + 1;
    } else if !Needs(j1) {
      var n := TokenTurns(p, j1, c);
      TurnsAdd(p, j, k, n);
      k := k + n;
    }
  }

  lemma DefaultTurn<V>(p: Y.Parser<V>, j: Fields<V>)
    requires Fits(p, j) && j.yylabel == YYDEFAULT
    ensures var j', act := Turns(p, j, 1), DefaultAction(p.a, j.yystate);
            && Fits(p, j') && j' == j.(yyn := j'.yyn, yylabel := j'.yylabel)
            && (if act.Reduce? then j'.yylabel == YYREDUCE && j'.yyn == act.rule else j'.yylabel == YYERRLAB)
            && !act.Shift?
  {
    hide LrTables.Valid, Steps;
    OneTurn(p, j);
  }

  /** The steps that look at the lookahead. */
  lemma TokenTurns<V>(p: Y.Parser<V>, j: Fields<V>, c: Y.Config<V>) returns (k: nat)
    requires Fits(p, j) && j.yylabel == YYGETTOKEN && !Needs(j) && Agrees(j, c)
    ensures var j', act := Turns(p, j, k), Action(p.a, j.yystate, Y.TokenOf(p, c.yychar));
            && Fits(p, j')
            && (act.Error? ==> j'.yylabel == YYERRLAB && Agrees(j', c))
            && (act.Reduce? ==> j'.yylabel == YYREDUCE && j'.yyn == act.rule && Agrees(j', c))
            && (act.Shift? ==> j'.yylabel == YYNEWSTATE && Agrees(j', Y.Shifted(c, act.state)))
  {
    hide LrTables.Valid, Steps, Y.TokenOf;
    OneTurn(p, j);
    k := 1;
    var j1 := Step(p, j);
    if j1.yylabel == YYDEFAULT {
      DefaultTurn(p, j1);
      TurnsAdd(p, j, 1, 1);
      k := 2;
    }
  }

  /** yyerrlab1 */
  lemma Recovered<V>(p: Y.Parser<V>, j: Fields<V>, c: Y.Config<V>) returns (k: nat)
    requires Fits(p, j) && j.yylabel == YYERRLAB1 && Agrees(j, c)
    requires IsPath(p.a, c.stack) && |c.values| == |c.stack| < c.size && Y.Fitting(p, c.size) && Y.InRange(c)
    ensures Matches(p, Turns(p, j, k), Y.Recover(p, c))
  {
    hide LrTables.Valid, Steps, Y.CatchesErrors, Y.ErrorState, Y.Enter;
    TablesSized(p.a);
    var j1 := Step(p, j);
    OneTurn(p, j);
    k := 1;
    var n := Y.ErrorDepth(p.a.t, c.stack, |c.stack|);
    if n > 0 {
      Y.RecoverPath(p.a, c.stack, n);
      var c1 := Y.Caught(c.(errstatus := 3, recoveries := c.recoveries + 1), n, Y.ErrorState(p.a.t, c.stack[n - 1]));
      var m := Entered(p, j1, c1);
      TurnsAdd(p, j, 1, m);
      k := 1 + m;
    }
  }

  /** yyerrlab */
  lemma ErrorHandled<V>(p: Y.Parser<V>, j: Fields<V>, c: Y.Config<V>) returns (k: nat)
    requires !p.useLac && Y.Ready(p, c) && Fits(p, j) && j.yylabel == YYERRLAB && Agrees(j, c)
    ensures Matches(p, Turns(p, j, k), Y.Failed(p, c))
  {
    hide LrTables.Valid, Steps, Y.Recover;
    var j1 := Step(p, j);
    OneTurn(p, j);
    k := 1;
    if j1.yylabel == YYERRLAB1 {
      var c1 := Y.Reported(p, c);
      var m := Recovered(p, j1, if c.errstatus == 3 && c.yychar > Y.YYEOF then c1.(yychar := Y.YYEMPTY) else c1);
      TurnsAdd(p, j, 1, m);
      k := 1 + m;
    }
  }

  /** yyreduce */
  lemma ActionDone<V>(p: Y.Parser<V>, j: Fields<V>, c: Y.Config<V>) returns (k: nat)
    requires Y.Ready(p, c) && Fits(p, j) && j.yylabel == YYREDUCE && Agrees(j, c)
    ensures Complete(p.a, Last(c.stack), j.yyn) && Matches(p, Turns(p, j, k), Y.AfterReduce(p, c, j.yyn))
  {
    hide LrTables.Valid, Steps, Y.Recover, Y.Enter, Y.AfterReduce, Symbols, Step, Turns, Matches;
    YaccParser.ReducePushes(p, c, j.yyn);
    ReduceTurn(p, j);
    OneTurn(p, j);
    k := 1;
    var j1, n := Step(p, j), Length(p.a, j.yyn);
    var below := Y.Popped(c, n);
    match p.action(j.yyn, c.values[|c.values| - n..])
    case Ok(v) =>
      var m := Entered(p, j1, YaccParser.Pushed(below, GotoRule(p.a, Last(below.stack), j.yyn), v));
      TurnsAdd(p, j, 1, m);
      k := 1 + m;
    case Raise =>
      RaiseTurn(p, j1);
      OneTurn(p, j1);
      TurnsAdd(p, j, 1, 1);
      var m := Recovered(p, Step(p, j1), below);
      TurnsAdd(p, j, 2, m);
      k := 2 + m;
    case _ => Stopped(p, j1, Y.AfterReduce(p, c, j.yyn));
  }

  lemma ReduceTurn<V>(p: Y.Parser<V>, j: Fields<V>)
    requires Fits(p, j) && j.yylabel == YYREDUCE && IsRule(p.a, j.yyn) && Length(p.a, j.yyn) < |j.stack|
    requires IsPath(p.a, Popped(j, Length(p.a, j.yyn)).stack)
    ensures var j', n := Step(p, j), Length(p.a, j.yyn);
            && Fits(p, j')
            && match p.action(j.yyn, j.values[|j.values| - n..])
               case Ok(v) =>
                 var below := Popped(j, n);
                 j' == Pushed(below, GotoRule(p.a, below.yystate, j.yyn), v).(yylen := n)
               case Accept => j' == j.(yylen := n, yylabel := YYACCEPT)
               case Abort => j' == j.(yylen := n, yylabel := YYABORT)
               case Raise => j' == j.(yylen := n, yylabel := YYERROR)
  {
    hide LrTables.Valid, Steps;
  }

  lemma RaiseTurn<V>(p: Y.Parser<V>, j: Fields<V>)
    requires Fits(p, j) && j.yylabel == YYERROR
    ensures Fits(p, Step(p, j)) && Step(p, j) == Popped(j, j.yylen).(yylen := 0, yylabel := YYERRLAB1)
  {
    hide LrTables.Valid, Steps;
  }

  lemma Stopped<V>(p: Y.Parser<V>, j: Fields<V>, s: Y.Status<V>)
    requires Fits(p, j) && s.Done?
    requires (s.result == Y.AcceptedByAction && j.yylabel == YYACCEPT) || (s.result == Y.Aborted && j.yylabel == YYABORT)
    ensures Matches(p, j, s)
  {
    hide LrTables.Valid, IsPath;
  }

  /** From one state to the next, the Java parser does what the C parser does. */
  lemma Follows<V>(p: Y.Parser<V>, j: Fields<V>, c: Y.Config<V>) returns (k: nat)
    requires !p.useLac && Y.Ready(p, c) && AtState(p, j, c)
    ensures var j' := Turns(p, j, k);
            if Y.Decide(p, c).Read? then Needs(j') && AtState(p, j', c) else Matches(p, j', Y.Advance(p, c))
  {
    hide LrTables.Valid, Steps, Y.Failed, Y.AfterReduce, Y.Enter, Y.Decide, Matches, Turns, Fits;
    Y.DecideFacts(p, c);
    AdvanceIs(p, c);
    k := Decided(p, j, c);
    var j1 := Turns(p, j, k);
    var m := 0;
    var d := Y.Decide(p, c);
    if d.Shift? {
      m := Entered(p, j1, Y.Shifted(c, d.state));
    } else if d.Reduce? {
      m := ActionDone(p, j1, c);
    } else if d.Error? {
      m := ErrorHandled(p, j1, c);
    }
    TurnsAdd(p, j, k, m);
    TurnsNone(p, j1);
    k := k + m;
  }

  lemma TurnsNone<V>(p: Y.Parser<V>, j: Fields<V>)
    requires Fits(p, j)
    ensures Turns(p, j, 0) == j
  {
    hide LrTables.Valid, Fits;
  }

  lemma AdvanceIs<V>(p: Y.Parser<V>, c: Y.Config<V>)
    requires !p.useLac && Y.Ready(p, c) && !c.lac
    ensures match Y.Decide(p, c)
            case Shift(q) =>
              && IsPath(p.a, c.stack + [q]) && Y.Advance(p, c) == Y.Enter(p, Y.Shifted(c, q))
            case Reduce(r) => Complete(p.a, Last(c.stack), r) && Y.Advance(p, c) == Y.AfterReduce(p, c, r)
            case Error => Y.Advance(p, c) == Y.Failed(p, c)
            case _ => true
  {
    hide LrTables.Valid, Steps, Y.Failed, Y.AfterReduce, Y.Enter, LrTables.HasEntry, LrTables.LrAction;
    Y.DecideFacts(p, c);
    if Y.Decide(p, c).Shift? {
      ShiftPath(p.a, c.stack, Y.TokenOf(p, c.yychar));
    }
  }

  // ---------------------------------------------------------------- whole runs

  function Start<V>(p: Y.Parser<V>, nil: V): (j: Fields<V>)
    ensures Fits(p, j)
  {
    StartIsLive(p.a);
    Fields(YYNEWSTATE, 0, 0, 0, Y.YYEMPTY, 0, nil, [0], [nil], 0, 0)
  }

  /** The fields, and how many tokens were read. */
  datatype Pull<+V> = Pull(j: Fields<V>, pos: nat)

  function PullStep<V>(p: Y.Parser<V>, input: Y.Input<V>, s: Pull<V>): (s': Pull<V>)
    requires Fits(p, s.j)
    ensures Fits(p, s'.j)
  {
    if Needs(s.j) then Pull(ReadToken(s.j, input(s.pos)), s.pos + 1) else Pull(Step(p, s.j), s.pos)
  }

  function PullRun<V>(p: Y.Parser<V>, nil: V, input: Y.Input<V>, n: nat): (s: Pull<V>)
    ensures Fits(p, s.j)
  {
    if n == 0 then Pull(Start(p, nil), 0) else PullStep(p, input, PullRun(p, nil, input, n - 1))
  }

  /** Turns without a token are part of the run. */
  lemma {:induction false} TurnsInRun<V>(p: Y.Parser<V>, nil: V, input: Y.Input<V>, n: nat, k: nat) returns (m: nat)
    ensures var s := PullRun(p, nil, input, n); PullRun(p, nil, input, m) == Pull(Turns(p, s.j, k), s.pos)
    ensures n <= m && (!Needs(PullRun(p, nil, input, m).j) ==> m == n + k)
    decreases k
  {
    hide LrTables.Valid, Fits, Step, Start;
    var s := PullRun(p, nil, input, n);
    m := n;
    if k > 0 && !Needs(s.j) {
      assert PullRun(p, nil, input, n + 1) == Pull(Step(p, s.j), s.pos);
      m := TurnsInRun(p, nil, input, n + 1, k - 1);
    }
  }

  /** Every state of a run of the C parser, up to where its stacks are exhausted, is a state of the run
      of the Java parser, with as many tokens read. */
  lemma {:induction false} RunFollows<V>(p: Y.Parser<V>, nil: V, input: Y.Input<V>, n: nat) returns (m: nat)
    requires !p.useLac && 0 < p.initDepth
    requires var s := Y.PullRun(p, nil, input, n).status; s.Done? ==> s.result != Y.Exhausted
    ensures Matches(p, PullRun(p, nil, input, m).j, Y.PullRun(p, nil, input, n).status)
    ensures PullRun(p, nil, input, m).pos == Y.PullRun(p, nil, input, n).pos
  {
    hide LrTables.Valid, Steps, Fits, Y.Ready, Y.Decide, Y.Advance, PullRun, Y.Start, Y.Proper, Turns;
    if n == 0 {
      m := StartFollows(p, nil, input);
    } else {
      LastStep(p, nil, input, n);
      var s := Y.PullRun(p, nil, input, n - 1);
      m := RunFollows(p, nil, input, n - 1);
      if s.status.Running? {
        m := StepFollows(p, nil, input, s, m);
      }
    }
  }

  lemma LastStep<V>(p: Y.Parser<V>, nil: V, input: Y.Input<V>, n: nat)
    requires 0 < p.initDepth && 0 < n
    ensures var s := Y.PullRun(p, nil, input, n - 1);
            && Y.Proper(p, s.status) && Y.PullRun(p, nil, input, n) == Y.PullStep(p, input, s)
            && (s.status.Done? ==> Y.PullRun(p, nil, input, n) == s)
            && (s.status.Running? ==> Y.Ready(p, s.status.c))
  {
    hide LrTables.Valid, Y.Ready, Y.Decide, Y.Advance;
  }

  lemma StartFollows<V>(p: Y.Parser<V>, nil: V, input: Y.Input<V>) returns (m: nat)
    requires 0 < p.initDepth
    ensures Matches(p, PullRun(p, nil, input, m).j, Y.Start(p, nil)) && PullRun(p, nil, input, m).pos == 0
  {
    hide LrTables.Valid, Steps, Y.Enter;
    StartIsLive(p.a);
    var j := Start(p, nil);
    assert PullRun(p, nil, input, 0) == Pull(j, 0);
    var k := Entered(p, j, Y.Config([0], [nil], p.initDepth, Y.YYEMPTY, nil, 0, 0, false, 0, 0));
    m := TurnsInRun(p, nil, input, 0, k);
  }

  lemma StepFollows<V>(p: Y.Parser<V>, nil: V, input: Y.Input<V>, s: Y.Pull<V>, n: nat) returns (m: nat)
    requires !p.useLac && s.status.Running? && Y.Ready(p, s.status.c)
    requires AtState(p, PullRun(p, nil, input, n).j, s.status.c) && PullRun(p, nil, input, n).pos == s.pos
    ensures var s' := Y.PullStep(p, input, s);
            Matches(p, PullRun(p, nil, input, m).j, s'.status) && PullRun(p, nil, input, m).pos == s'.pos
  {
    hide LrTables.Valid, Steps, Y.Ready, Y.Advance, Y.Decide, Turns, Start, Step;
    var c := s.status.c;
    var k := Follows(p, PullRun(p, nil, input, n).j, c);
    m := TurnsInRun(p, nil, input, n, k);
    ProperRunning(p, c);
    if Y.Decide(p, c).Read? {
      assert PullRun(p, nil, input, m + 1) == PullStep(p, input, PullRun(p, nil, input, m));
      m := m + 1;
    }
  }

  lemma ProperRunning<V>(p: Y.Parser<V>, c: Y.Config<V>)
    requires Y.Ready(p, c)
    ensures Y.Proper(p, Y.Running(c)) && c.stack != [] && IsState(p.a, Last(c.stack))
  {
    hide LrTables.Valid, Steps;
  }

  // ---------------------------------------------------------------- the push parser

  /** A call of push_parse on fields that wait for a token, and on a parser that was not initialized:
      then the fields are brought to where they need a token first. */
  function PushParse<V>(p: Y.Parser<V>, nil: V, held: Option<Fields<V>>, x: Y.Lexeme<V>, fuel: nat): (j: Fields<V>)
    requires held.Some? ==> Fits(p, held.value) && Needs(held.value)
    ensures Fits(p, j)
  {
    var j := if held.Some? then held.value else Turns(p, Start(p, nil), fuel);
    if Needs(j) then Turns(p, ReadToken(j, x), fuel) else j
  }

  /** Up to k calls: the fields after the last one, and the number of calls. */
  datatype Calls<+V> = Calls(j: Fields<V>, count: nat)

  /** Only a call that asks for more is followed by another one. */
  function Fed<V>(p: Y.Parser<V>, nil: V, input: Y.Input<V>, k: nat, fuel: nat): (f: Calls<V>)
    requires 0 < k
    ensures Fits(p, f.j) && 0 < f.count <= k
  {
    if k == 1 then Calls(PushParse(p, nil, None, input(0), fuel), 1)
    else
      var f := Fed(p, nil, input, k - 1, fuel);
      if Needs(f.j) then Calls(PushParse(p, nil, Some(f.j), input(f.count), fuel), f.count + 1) else f
  }

  /** After every number of calls the push parser's fields, with the label that is its result, are those
      of the pull parser at some point of its run, and the pull parser has read as many tokens as there
      were calls, unless the first call stopped before it needed its token. */
  lemma {:induction false} PushIsPull<V>(p: Y.Parser<V>, nil: V, input: Y.Input<V>, k: nat, fuel: nat) returns (n: nat)
    requires 0 < k
    ensures var s := PullRun(p, nil, input, n);
            var f := Fed(p, nil, input, k, fuel);
            && s.j == f.j && (if Needs(s.j) then s.pos == f.count == k else n >= fuel)
            && (s.pos == f.count || (s.pos == 0 && f.count == 1))
  {
    hide LrTables.Valid, Fits, Step, Start, Turns;
    if k == 1 {
      n := TurnsInRun(p, nil, input, 0, fuel);
    } else {
      n := PushIsPull(p, nil, input, k - 1, fuel);
    }
    var s := PullRun(p, nil, input, n);
    if Needs(s.j) {
      assert PullRun(p, nil, input, n + 1) == Pull(ReadToken(s.j, input(s.pos)), s.pos + 1);
      n := TurnsInRun(p, nil, input, n + 1, fuel);
    }
  }

  lemma EndedStays<V>(p: Y.Parser<V>, j: Fields<V>)
    requires Fits(p, j) && Ended(j)
    ensures !Needs(j) && Step(p, j) == j
  {
    hide LrTables.Valid, Fits, NewState, GetToken, Default, Reduce, ErrLab, Raised, ErrLab1;
  }

  lemma {:induction false} RunGoesOn<V>(p: Y.Parser<V>, nil: V, input: Y.Input<V>, n: nat, m: nat)
    requires n <= m
    ensures Ended(PullRun(p, nil, input, n).j) ==> PullRun(p, nil, input, m) == PullRun(p, nil, input, n)
    ensures PullRun(p, nil, input, n).pos <= PullRun(p, nil, input, m).pos
    decreases m
  {
    hide LrTables.Valid, Fits, Start, Step, Ended, Needs;
    if n < m {
      RunGoesOn(p, nil, input, n, m - 1);
      if Ended(PullRun(p, nil, input, n).j) {
        EndedStays(p, PullRun(p, nil, input, n).j);
      }
    }
  }

  /** A pull run that ends after reading j tokens is what j calls of the push parser do (one call, if
      it ends without reading), given the fuel. */
  lemma PullIsPush<V>(p: Y.Parser<V>, nil: V, input: Y.Input<V>, n: nat, fuel: nat)
    requires Ended(PullRun(p, nil, input, n).j) && n < fuel
    ensures var s := PullRun(p, nil, input, n);
            var k := if s.pos == 0 then 1 else s.pos;
            Fed(p, nil, input, k, fuel) == Calls(s.j, k)
  {
    hide LrTables.Valid, Fits, Step, Start, Turns, Fed;
    var s := PullRun(p, nil, input, n);
    var k := if s.pos == 0 then 1 else s.pos;
    var m := PushIsPull(p, nil, input, k, fuel);
    if n <= m {
      RunGoesOn(p, nil, input, n, m);
    } else {
      RunGoesOn(p, nil, input, m + 1, n);
    }
  }
}
