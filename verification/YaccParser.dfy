/** The parser object: yyparse and yypush_parse over two arrays that grow together, step by step the
    same as the configurations of YaccMachine. */
module YaccParser {
  import opened Collections
  import LrTables
  import opened LrAutomaton
  import opened YaccMachine
  import YaccPush
  import YaccLac
  import Lac

  /** The state stack and the value stack, which share a size and grow together. */
  class Stacks<V> {
    var yyss: array<int>
    var yyvs: array<V>
    var yyssp: nat
    var yyvsp: nat
    var yystacksize: nat

    ghost predicate Valid()
      reads this
    {
      yyss.Length == yyvs.Length && yyssp < yyss.Length && yyvsp < yyvs.Length && (yyss as object) != (yyvs as object)
    }

    /** The stacks agree in height, and the arrays have the recorded size. */
    ghost predicate Even()
      reads this
    {
      Valid() && yyssp == yyvsp && yyss.Length == yystacksize
    }

    ghost function Objects(): set<object>
      reads this
    {
      {this, yyss, yyvs}
    }

    ghost function States(): (s: seq<int>)
      requires Valid()
      reads this, yyss
      ensures |s| == yyssp + 1
    {
      yyss[..yyssp + 1]
    }

    ghost function Values(): (s: seq<V>)
      requires Valid()
      reads this, yyvs
      ensures |s| == yyvsp + 1
    {
      yyvs[..yyvsp + 1]
    }

    constructor (initial: V, initDepth: nat)
      requires 0 < initDepth
      ensures Even() && yystacksize == initDepth && States() == [0] && Values() == [initial]
      ensures fresh(Objects())
    {
      yyss, yyvs := new int[initDepth](_ => 0), new V[initDepth](_ => initial);
      yyssp, yyvsp, yystacksize := 0, 0, initDepth;
    }

    /** YYSTACK_RELOCATE of both stacks, into arrays of the size recorded last. */
    method RelocateAll(yysize: nat)
      requires Valid() && yyssp == yyvsp && yysize == yyssp + 1 <= yystacksize
      modifies this`yyss, this`yyvs
      ensures Even() && States() == old(States()) && Values() == old(Values())
      ensures fresh(Objects() - {this})
    {
      var ss := Relocate(yyss, yysize, yystacksize, 0);
      var vs := Relocate(yyvs, yysize, yystacksize, yyvs[yyvsp]);
      yyss, yyvs := ss, vs;
    }

    /** The extension at yysetstate: every full stack is moved to a larger array, with its contents. */
    method Extend(maxDepth: nat, canAlloc: nat -> bool) returns (ok: bool)
      requires Even()
      modifies this`yyss, this`yyvs, this`yystacksize
      ensures Valid() && States() == old(States()) && Values() == old(Values()) && yyssp == yyvsp
      ensures Room(ok, yystacksize) == MakeRoom(maxDepth, canAlloc, yyssp + 1, old(yystacksize))
      ensures ok ==> Even() && yyssp < yystacksize - 1
      ensures fresh(Objects() - old(Objects()))
    {
      if yystacksize - 1 <= yyssp {
        var yysize := yyssp + 1;
        if maxDepth <= yystacksize {
          return false;
        }
        yystacksize := 2 * yystacksize;
        if maxDepth < yystacksize {
          yystacksize := maxDepth;
        }
        if !canAlloc(yystacksize) {
          return false;
        }
        RelocateAll(yysize);
        if yystacksize - 1 <= yyssp {
          assert false;
        }
      }
      ok := true;
    }

    /** Pushes a value and a state, and makes room for the next ones. Both stores are in bounds. */
    method Push(q: int, v: V, maxDepth: nat, canAlloc: nat -> bool) returns (ok: bool)
      requires Even() && yyssp + 1 < yystacksize
      modifies this, yyss, yyvs
      ensures Valid() && States() == old(States()) + [q] && Values() == old(Values()) + [v]
      ensures Room(ok, yystacksize) == MakeRoom(maxDepth, canAlloc, yyssp + 1, old(yystacksize))
      ensures ok ==> Even()
      ensures fresh(Objects() - old(Objects()))
    {
      yyvsp := yyvsp + 1;
      yyvs[yyvsp] := v;
      yyssp := yyssp + 1;
      yyss[yyssp] := q;
      assert States() == old(States()) + [q] && Values() == old(Values()) + [v];
      ok := Extend(maxDepth, canAlloc);
    }

    /** YYPOPSTACK */
    method Pop(n: nat)
      requires Even() && n <= yyssp
      modifies this`yyssp, this`yyvsp
      ensures Even() && yyssp == old(yyssp) - n
      ensures States() == old(States())[..yyssp + 1] && Values() == old(Values())[..yyssp + 1]
    {
      yyvsp, yyssp := yyvsp - n, yyssp - n;
    }

    /** Pops states that cannot shift the error token, one at a time, but not the first state. */
    method PopToCatcher(t: LrTables.Tables) returns (found: bool)
      requires Even() && LrTables.Sized(t)
      modifies this`yyssp, this`yyvsp
      ensures Even()
      ensures var n := ErrorDepth(t, old(States()), |old(States())|);
              found == (n > 0) && yyssp == if n > 0 then n - 1 else 0
      ensures States() == old(States())[..yyssp + 1] && Values() == old(Values())[..yyssp + 1]
    {
      hide CatchesErrors;
      ghost var states := States();
      while !CatchesErrors(t, yyss[yyssp])
        invariant yyssp == yyvsp < |states|
        invariant ErrorDepth(t, states, yyssp + 1) == ErrorDepth(t, states, |states|)
        decreases yyssp
      {
        assert yyss[yyssp] == states[yyssp];
        if yyssp == 0 {
          return false;
        }
        yyvsp, yyssp := yyvsp - 1, yyssp - 1;
      }
      assert yyss[yyssp] == states[yyssp];
      found := true;
    }

    /** The state at the top. */
    method Top() returns (q: int)
      requires Valid()
      ensures q == Last(States())
    {
      q := yyss[yyssp];
    }

    /** The n values at the top. */
    method TopValues(n: nat) returns (s: seq<V>)
      requires Even() && n <= yyssp
      ensures s == Values()[|Values()| - n..]
    {
      s := yyvs[yyvsp + 1 - n..yyvsp + 1];
    }
  }

  /** Where control is after a step: at yybackup, or at yyreturn with a result. */
  function StatusOf<V>(end: Option<Result>, c: Config<V>): Status<V> {
    match end
    case None => Running(c)
    case Some(result) => Done(result, c)
  }

  function Pushed<V>(c: Config<V>, q: int, v: V): Config<V> {
    c.(stack := c.stack + [q], values := c.values + [v])
  }

  /** The configuration at the end of the popping loop of yyerrlab1. */
  function Uncovered<V>(c: Config<V>, top: nat, found: bool): Config<V>
    requires top < |c.stack| == |c.values|
  {
    c.(stack := c.stack[..top + 1], values := c.values[..top + 1], lac := c.lac && !found)
  }

  /** Error recovery is at c and will end in `s`: the error token is to be shifted in state q. */
  ghost predicate GoesOn<V>(p: Parser<V>, s: Status<V>, c: Config<V>, q: int) {
    && LrTables.Sized(p.a.t) && CatchesErrors(p.a.t, q)
    && |c.values| == |c.stack| < c.size && Fitting(p, c.size) && Tidy(c)
    && IsPath(p.a, c.stack + [ErrorState(p.a.t, q)])
    && s == Enter(p, Pushed(c, ErrorState(p.a.t, q), c.lval))
  }

  /** Recovery as popping and pushing. */
  lemma RecoverPushes<V>(p: Parser<V>, c0: Config<V>)
    requires IsPath(p.a, c0.stack) && |c0.values| == |c0.stack| < c0.size && Fitting(p, c0.size) && InRange(c0)
    ensures LrTables.Sized(p.a.t)
    ensures var n := ErrorDepth(p.a.t, c0.stack, |c0.stack|);
            var c := c0.(errstatus := 3, recoveries := c0.recoveries + 1);
            if n > 0 then GoesOn(p, Recover(p, c0), Uncovered(c, n - 1, true), c0.stack[n - 1])
            else Recover(p, c0) == Done(Aborted, Uncovered(c, 0, false))
  {
    hide LrTables.Valid, CatchesErrors, ErrorState, Steps, Enter;
    TablesSized(p.a);
    var n := ErrorDepth(p.a.t, c0.stack, |c0.stack|);
    if n > 0 {
      RecoverPath(p.a, c0.stack, n);
      var c, q := c0.(errstatus := 3, recoveries := c0.recoveries + 1), ErrorState(p.a.t, c0.stack[n - 1]);
      assert Caught(c, n, q) == Pushed(Uncovered(c, n - 1, true), q, c.lval);
    }
  }

  /** A reduction as popping and pushing. */
  lemma ReducePushes<V>(p: Parser<V>, c: Config<V>, r: int)
    requires Ready(p, c) && Complete(p.a, Last(c.stack), r)
    ensures Length(p.a, r) < |c.stack|
    ensures var n := Length(p.a, r);
            var below := Popped(c, n);
            && IsPath(p.a, below.stack) && IsState(p.a, Last(below.stack))
            && match p.action(r, c.values[|c.values| - n..])
               case Ok(v) =>
                 var q := GotoRule(p.a, Last(below.stack), r);
                 && IsPath(p.a, below.stack + [q])
                 && AfterReduce(p, c, r) == Enter(p, Pushed(below, q, v))
               case Accept => AfterReduce(p, c, r) == Done(AcceptedByAction, below)
               case Abort => AfterReduce(p, c, r) == Done(Aborted, below)
               case Raise => AfterReduce(p, c, r) == Recover(p, below)
  {
    hide LrTables.Valid, Recover, Symbols, Enter;
    ReducePath(p.a, c.stack, r);
    BelowPath(p.a, c.stack, |c.stack| - Length(p.a, r));
    assert IsState(p.a, Last(Popped(c, Length(p.a, r)).stack));
  }

  /** The variables of yyparse besides the stacks. */
  class Parse<V> {
    const p: Parser<V>
    var stacks: Stacks<V>
    var yychar: int
    var yylval: V
    var yyerrstatus: nat
    var yynerrs: nat
    var lacEstablished: bool
    var extension: Lac.Extension
    const esInitial: nat
    const lacFuel: nat
    ghost var recoveries: nat
    ghost var reports: nat
    ghost var lacStopped: bool

    /** The objects that belong to the parser. */
    ghost function Parts(): set<object>
      reads this, stacks, extension
    {
      stacks.Objects() + {extension, extension.es}
    }

    /** The lookahead correction is ready for use: its answers are those of the plain check, its buffer
        is its own, and no check ran out of memory, or was followed for too few reductions. */
    ghost predicate CanCheck()
      reads this, stacks, extension
    {
      && YaccLac.Checks(p) && extension.Valid() && 0 < esInitial && !lacStopped
      && (extension.es as object) != (stacks.yyss as object) && (extension.es as object) != (stacks.yyvs as object)
    }

    /** The configuration that the variables hold. */
    ghost function Now(): Config<V>
      requires stacks.Valid()
      reads this, stacks, stacks.yyss, stacks.yyvs
    {
      Config(stacks.States(), stacks.Values(), stacks.yystacksize, yychar, yylval,
             yyerrstatus, yynerrs, lacEstablished, recoveries, reports)
    }

    /** As at yybackup. */
    ghost predicate Valid()
      reads this, stacks, stacks.yyss, stacks.yyvs, extension
    {
      stacks.Even() && Ready(p, Now()) && CanCheck()
    }

    constructor (parser: Parser<V>, initial: V, esInitial: nat, lacFuel: nat)
      requires 0 < parser.initDepth && 0 < esInitial && YaccLac.Checks(parser)
      ensures p == parser && stacks.Even() && fresh(Parts()) && CanCheck() && this.lacFuel == lacFuel
      ensures Now() == Config([0], [initial], parser.initDepth, YYEMPTY, initial, 0, 0, false, 0, 0)
    {
      p := parser;
      stacks := new Stacks(initial, parser.initDepth);
      yychar, yylval, yyerrstatus, yynerrs, lacEstablished := YYEMPTY, initial, 0, 0, false;
      recoveries, reports, lacStopped := 0, 0, false;
      extension := new Lac.Extension(esInitial, parser.maxDepth, parser.canAlloc);
      this.esInitial, this.lacFuel := esInitial, lacFuel;
    }

    /** yy_lac on the parser's own stack. */
    method CheckLookahead(token: int) returns (answer: LacAnswer)
      requires stacks.Valid() && CanCheck() && p.useLac && Live(p.a, stacks.States()) && IsToken(p.a, token)
      modifies this`lacStopped, extension, extension.es
      ensures stacks.Valid() && Now() == old(Now()) && extension.Valid()
      ensures extension.es == old(extension.es) || fresh(extension.es)
      ensures !lacStopped ==> answer == p.lac(stacks.States(), token) && CanCheck()
      ensures lacStopped ==> answer == NoMemory && !Answered(stacks.States(), token)
    {
      hide LrTables.Valid, Live, YaccLac.LacIsPlain, Plain, Lac.Peak, Lac.Refused;
      var status := extension.Check(p.a, stacks.yyss, stacks.yyssp, token, lacFuel);
      if status == Lac.Accepts || status == Lac.Rejects {
        YaccLac.CheckAnswers(p, stacks.States(), token, lacFuel, status);
      }
      lacStopped := status == Lac.OutOfMemory || status == Lac.OutOfFuel;
      answer := match status
        case Accepts => Viable
        case Rejects => NotViable
        case _ => NoMemory;
    }

    /** The check of a token from this stack comes to an answer: within the given number of reductions,
        and without an extension that is too long or whose array is refused. */
    ghost predicate Answered(stack: seq<int>, token: int)
      requires Live(p.a, stack) && IsToken(p.a, token)
      reads this, extension
    {
      token == p.a.t.undef
      || (&& Plain(p.a, stack, token, lacFuel) != Unfinished
          && Lac.Peak(p.a, stack, |stack|, token, lacFuel) <= extension.maxDepth
          && !Lac.Refused(p.a, stack, |stack|, token, lacFuel, extension.maxDepth, extension.canAlloc))
    }

    /** yynewstate and yysetstate, with the value to push. */
    method NewState(q: int, v: V) returns (end: Option<Result>)
      requires stacks.Even() && stacks.yyssp + 1 < stacks.yystacksize && Fitting(p, stacks.yystacksize)
      requires IsPath(p.a, Now().stack + [q]) && Tidy(Now()) && CanCheck()
      modifies stacks, stacks.yyss, stacks.yyvs
      ensures stacks.Valid() && fresh(stacks.Objects() - old(stacks.Objects()))
      ensures StatusOf(end, Now()) == Enter(p, Pushed(old(Now()), q, v))
      ensures CanCheck() && (end.None? ==> Valid())
    {
      hide LrTables.Valid, IsPath, MakeRoom, YaccLac.Checks;
      var ok := stacks.Push(q, v, p.maxDepth, p.canAlloc);
      end := if !ok then Some(Exhausted) else if q == p.a.t.final then Some(Accepted) else None;
    }

    /** yyerrlab1 */
    method RecoverFromError() returns (end: Option<Result>)
      requires stacks.Even() && stacks.yyssp + 1 < stacks.yystacksize && Fitting(p, stacks.yystacksize)
      requires IsPath(p.a, Now().stack) && InRange(Now()) && CanCheck()
      modifies this`yyerrstatus, this`recoveries, this`lacEstablished, stacks, stacks.yyss, stacks.yyvs
      ensures stacks.Valid() && fresh(stacks.Objects() - old(stacks.Objects()))
      ensures StatusOf(end, Now()) == Recover(p, old(Now()))
      ensures CanCheck() && (end.None? ==> Valid())
    {
      hide LrTables.Valid, YaccLac.Checks, CatchesErrors, ErrorState, IsPath, Recover, Enter, Ready, InRange, Tidy, Stacks.States,
        Stacks.Values;
      RecoverPushes(p, Now());
      StartRecovery();
      var found, yystate := PopForError();
      if found {
        end := NewState(ErrorState(p.a.t, yystate), yylval);
      } else {
        end := Some(Aborted);
      }
    }

    method StartRecovery()
      requires stacks.Valid()
      modifies this`yyerrstatus, this`recoveries
      ensures stacks.Valid() && Now() == old(Now()).(errstatus := 3, recoveries := old(recoveries) + 1)
    {
      yyerrstatus, recoveries := 3, recoveries + 1;
    }

    /** Pops the states that cannot shift the error token, and discards the context of the lookahead. */
    method PopForError() returns (found: bool, yystate: int)
      requires stacks.Even() && LrTables.Sized(p.a.t)
      modifies this`lacEstablished, stacks`yyssp, stacks`yyvsp
      ensures stacks.Even() && stacks.yyssp <= old(stacks.yyssp)
      ensures var n := ErrorDepth(p.a.t, old(Now()).stack, |old(Now()).stack|);
              found == (n > 0) && (found ==> yystate == old(Now()).stack[n - 1])
              && Now() == Uncovered(old(Now()), if found then n - 1 else 0, found)
    {
      hide LrTables.Valid, CatchesErrors, Stacks.States, Stacks.Values;
      found := stacks.PopToCatcher(p.a.t);
      yystate := stacks.Top();
      if found {
        lacEstablished := false;
      }
    }

    /** Before a verbose report: the lookahead is checked unless it was checked before. */
    method EstablishForReport() returns (answer: LacAnswer)
      requires Valid()
      modifies this`lacEstablished, this`lacStopped, extension, extension.es
      ensures stacks.Even() && (extension.es == old(extension.es) || fresh(extension.es))
      ensures lacStopped ==> answer == NoMemory
      ensures !lacStopped ==>
                && CanCheck() && answer != NoMemory
                && (answer == NotViable <==> ReportEstablishes(p, old(Now())) && p.lac(old(Now()).stack, TokenOf(p, yychar)) == NotViable)
      ensures Now() == old(Now()).(lac := old(lacEstablished) || ReportEstablishes(p, old(Now())))
    {
      hide LrTables.Valid, TokenOf, Stacks.States, Stacks.Values, YaccLac.Checks, Live;
      answer := Viable;
      if p.verbose && p.useLac && yychar != YYEMPTY && !lacEstablished {
        lacEstablished := true;
        NeverNoMemory(p, Now().stack, TokenOf(p, yychar));
        answer := CheckLookahead(TokenOf(p, yychar));
      }
    }

    /** yyerrlab, when no error was reported yet: counts and reports it. */
    method ReportError() returns (end: Option<Result>)
      requires Valid() && yyerrstatus == 0
      modifies this`yynerrs, this`lacEstablished, this`reports, this`lacStopped, extension, extension.es
      ensures stacks.Even() && (extension.es == old(extension.es) || fresh(extension.es))
      ensures lacStopped ==> end == Some(Exhausted)
      ensures !lacStopped ==> CanCheck() && end == None && Now() == Reported(p, old(Now())) && !LacFails(old(Now()))
    {
      hide LrTables.Valid, TokenOf, Stacks.States, Stacks.Values, YaccLac.Checks, Live, Steps;
      NeverNoMemory(p, Now().stack, TokenOf(p, yychar));
      yynerrs := yynerrs + 1;
      var answer := EstablishForReport();
      match answer {
        case NoMemory => return Some(Exhausted);
        case NotViable => yynerrs := yynerrs + 1;
        case Viable =>
      }
      reports := reports + 1;
      end := None;
    }

    /** The report of an error would stop for lack of memory. */
    ghost predicate LacFails(c: Config<V>) {
      c.errstatus == 0 && ReportEstablishes(p, c) && p.lac(c.stack, TokenOf(p, c.yychar)) == NoMemory
    }

    /** yyerrlab */
    method HandleError() returns (end: Option<Result>)
      requires Valid()
      modifies this, stacks, stacks.yyss, stacks.yyvs, extension, extension.es
      ensures stacks == old(stacks) && extension == old(extension) && stacks.Valid() && fresh(Parts() - old(Parts()))
      ensures !lacStopped ==> StatusOf(end, Now()) == Failed(p, old(Now())) && CanCheck()
      ensures lacStopped ==> end == Some(Exhausted)
      ensures end.None? ==> Valid()
    {
      hide LrTables.Valid, Recover, TokenOf, Steps, Stacks.States, Stacks.Values, ReportEstablishes, YaccLac.Checks;
      end := None;
      if yyerrstatus == 0 {
        end := ReportError();
        if end.Some? {
          return;
        }
      }
      if yyerrstatus == 3 {
        if yychar <= YYEOF {
          if yychar == YYEOF {
            return Some(Aborted);
          }
        } else {
          yychar := YYEMPTY;
        }
      }
      end := RecoverFromError();
    }

    /** Takes the n values of a right-hand side off the stacks. */
    method PopHandle(n: nat) returns (values: seq<V>, yystate: int)
      requires stacks.Even() && n <= stacks.yyssp
      modifies stacks`yyssp, stacks`yyvsp
      ensures stacks.Even() && stacks.yyssp <= old(stacks.yyssp) && Now() == Popped(old(Now()), n)
      ensures values == old(Now()).values[|old(Now()).values| - n..] && yystate == Last(Now().stack)
    {
      hide LrTables.Valid, Stacks.States, Stacks.Values;
      values := stacks.TopValues(n);
      stacks.Pop(n);
      yystate := stacks.Top();
    }

    /** yyreduce */
    method ReduceBy(rule: int) returns (end: Option<Result>)
      requires Valid() && Complete(p.a, Last(Now().stack), rule)
      modifies this`yyerrstatus, this`recoveries, this`lacEstablished, stacks, stacks.yyss, stacks.yyvs
      ensures stacks.Valid() && fresh(stacks.Objects() - old(stacks.Objects()))
      ensures StatusOf(end, Now()) == AfterReduce(p, old(Now()), rule)
      ensures CanCheck() && (end.None? ==> Valid())
    {
      hide LrTables.Valid, YaccLac.Checks, Recover, IsPath, Enter, AfterReduce, Stacks.States, Stacks.Values;
      ghost var c := Now();
      ReducePushes(p, c, rule);
      var values, yystate := PopHandle(Length(p.a, rule));
      match p.action(rule, values) {
        case Ok(yyval) => end := NewState(GotoRule(p.a, yystate, rule), yyval);
        case Accept => end := Some(AcceptedByAction);
        case Abort => end := Some(Aborted);
        case Raise => end := RecoverFromError();
      }
    }

    /** Shifts the lookahead. */
    method ShiftTo(q: int) returns (end: Option<Result>)
      requires Valid() && IsPath(p.a, Now().stack + [q])
      modifies this`yyerrstatus, this`yychar, this`lacEstablished, stacks, stacks.yyss, stacks.yyvs
      ensures stacks.Valid() && fresh(stacks.Objects() - old(stacks.Objects()))
      ensures StatusOf(end, Now()) == Enter(p, Shifted(old(Now()), q))
      ensures CanCheck() && (end.None? ==> Valid())
    {
      hide LrTables.Valid, YaccLac.Checks, Steps, IsPath, Enter, Stacks.States, Stacks.Values;
      ghost var c := Now();
      if yyerrstatus > 0 {
        yyerrstatus := yyerrstatus - 1;
      }
      yychar, lacEstablished := YYEMPTY, false;
      assert Pushed(Now(), q, yylval) == Shifted(c, q);
      end := NewState(q, yylval);
    }

    /** yybackup, up to the point where it is clear what to do: looks at the lookahead only if the
        state needs one, and lets lookahead correction check it first. */
    method Examine() returns (d: Decision)
      requires Valid()
      modifies this`lacEstablished, this`lacStopped, extension, extension.es
      ensures stacks.Even() && (extension.es == old(extension.es) || fresh(extension.es))
      ensures lacStopped ==> d == OutOfMemory
      ensures !lacStopped ==> d == Decide(p, old(Now())) && CanCheck()
      ensures Now() == old(Now()).(lac := old(lacEstablished) || Establishes(p, old(Now())))
    {
      hide LrTables.Valid, Steps, TokenOf, Stacks.States, Stacks.Values, LrTables.HasEntry, LrTables.LrAction, YaccLac.Checks;
      TablesSized(p.a);
      var yystate := stacks.Top();
      if Defaulted(p.a, yystate) {
        return ActionDecision(DefaultAction(p.a, yystate));
      }
      if yychar == YYEMPTY {
        return Read;
      }
      var yytoken := TokenOf(p, yychar);
      var action := Action(p.a, yystate, yytoken);
      if p.useLac && (!LrTables.HasEntry(p.a.t, yystate, yytoken) || action.Reduce?) && !lacEstablished {
        lacEstablished := true;
        var answer := CheckLookahead(yytoken);
        match answer {
          case NoMemory => return OutOfMemory;
          case NotViable => return Error;
          case Viable =>
        }
      }
      d := ActionDecision(action);
    }

    /** From one yybackup to the next, or to where a token is needed. */
    method Turn() returns (needsToken: bool, end: Option<Result>)
      requires Valid()
      modifies this, stacks, stacks.yyss, stacks.yyvs, extension, extension.es
      ensures stacks == old(stacks) && extension == old(extension) && stacks.Valid() && fresh(Parts() - old(Parts()))
      ensures needsToken ==> Decide(p, old(Now())).Read? && end == None && Now() == old(Now())
      ensures !lacStopped ==> StatusOf(end, Now()) == Advance(p, old(Now())) && needsToken == Decide(p, old(Now())).Read?
      ensures lacStopped ==> end == Some(Exhausted)
      ensures end.None? ==> Valid()
    {
      hide LrTables.Valid, YaccLac.Checks, Steps, TokenOf, Decide, AfterReduce, Failed, Enter, Shifted, Stacks.States, Stacks.Values;
      ghost var c := Now();
      DecideFacts(p, c);
      var d := Examine();
      needsToken := d.Read?;
      match d {
        case Read => end := None;
        case Shift(q) =>
          ShiftPath(p.a, c.stack, TokenOf(p, c.yychar));
          end := ShiftTo(q);
        case Reduce(rule) => end := ReduceBy(rule);
        case Error => end := HandleError();
        case OutOfMemory => end := Some(Exhausted);
      }
    }

    /** Whether the state needs a token that was not read yet. */
    method NeedsToken() returns (b: bool)
      requires Valid()
      ensures b == Decide(p, Now()).Read?
    {
      hide LrTables.Valid, Steps, TokenOf, Stacks.States, Stacks.Values, LrTables.HasEntry, LrTables.LrAction, YaccLac.Checks;
      var yystate := stacks.Top();
      b := !Defaulted(p.a, yystate) && yychar == YYEMPTY;
    }

    /** Turns until a token is needed or parsing ends, at most `fuel` of them. */
    method RunOn(fuel: nat) returns (needsToken: bool, end: Option<Result>)
      requires Valid()
      modifies this, stacks, stacks.yyss, stacks.yyvs, extension, extension.es
      ensures stacks == old(stacks) && extension == old(extension) && stacks.Valid() && fresh(Parts() - old(Parts()))
      ensures lacStopped ==> !needsToken && end == Some(Exhausted)
      ensures !lacStopped ==>
              match YaccPush.RunOn(p, old(Now()), fuel)
              case Asks(c) => needsToken && end == None && Now() == c && Valid()
              case Stops(result, c) => !needsToken && end == Some(result) && Now() == c
              case Tired => !needsToken && end == None
    {
      hide LrTables.Valid, Ready, Decide, Advance, Stacks.States, Stacks.Values, YaccLac.Checks;
      needsToken, end := false, None;
      var k := 0;
      while true
        invariant stacks == old(stacks) && extension == old(extension) && Valid() && fresh(Parts() - old(Parts())) && k <= fuel
        invariant YaccPush.RunOn(p, Now(), fuel - k) == YaccPush.RunOn(p, old(Now()), fuel)
        decreases fuel - k
      {
        DecideFacts(p, Now());
        if k == fuel {
          needsToken := NeedsToken();
          return needsToken, None;
        }
        needsToken, end := Turn();
        if needsToken || end.Some? {
          return;
        }
        k := k + 1;
      }
    }

    /** The initialisation of the variables. */
    method Reset(initial: V)
      requires 0 < p.initDepth && 0 < esInitial && YaccLac.Checks(p)
      modifies this
      ensures stacks.Even() && fresh(Parts()) && CanCheck()
      ensures Now() == Config([0], [initial], p.initDepth, YYEMPTY, initial, 0, 0, false, 0, 0)
    {
      hide LrTables.Valid, Stacks.States, Stacks.Values, YaccLac.Checks;
      stacks := new Stacks(initial, p.initDepth);
      extension := new Lac.Extension(esInitial, p.maxDepth, p.canAlloc);
      ClearVariables(initial);
    }

    method ClearVariables(initial: V)
      requires stacks.Even()
      modifies this`yychar, this`yylval, this`yyerrstatus, this`yynerrs, this`lacEstablished, this`recoveries, this`reports, this`lacStopped
      ensures stacks.Even() && !lacStopped
      ensures Now() == Config(stacks.States(), stacks.Values(), stacks.yystacksize, YYEMPTY, initial, 0, 0, false, 0, 0)
    {
      hide LrTables.Valid, Stacks.States, Stacks.Values;
      yychar, yylval, yyerrstatus, yynerrs, lacEstablished := YYEMPTY, initial, 0, 0, false;
      recoveries, reports, lacStopped := 0, 0, false;
    }

    /** The initialisation and the first yysetstate. */
    method Begin(initial: V) returns (end: Option<Result>)
      requires 0 < p.initDepth && 0 < esInitial && YaccLac.Checks(p)
      modifies this
      ensures stacks.Valid() && fresh(Parts())
      ensures StatusOf(end, Now()) == Start(p, initial)
      ensures CanCheck() && (end.None? ==> Valid())
    {
      hide LrTables.Valid, YaccLac.Checks, IsPath, MakeRoom, Stacks.States, Stacks.Values;
      StartIsLive(p.a);
      Reset(initial);
      var ok := stacks.Extend(p.maxDepth, p.canAlloc);
      end := if !ok then Some(Exhausted) else if 0 == p.a.t.final then Some(Accepted) else None;
    }

    /** yyparse: reads from the scanner when a token is needed, for at most `fuel` steps. */
    method Pull(initial: V, input: Input<V>, fuel: nat) returns (end: Option<Result>, pos: nat, steps: nat)
      requires 0 < p.initDepth && 0 < esInitial && YaccLac.Checks(p)
      modifies this, stacks, stacks.yyss, stacks.yyvs
      ensures stacks.Valid()
      ensures RunIs(p, initial, input, steps, lacStopped, end, Now(), pos)
      ensures end.None? ==> steps == fuel
    {
      hide LrTables.Valid, YaccLac.Checks, Ready, Decide, Advance, Start, Stacks.States, Stacks.Values, PullStep, RunIs, Proper;
      end := Begin(initial);
      pos, steps := 0, 0;
      FirstRun(p, initial, input, end, Now());
      while end.None? && steps < fuel
        invariant stacks.Valid() && fresh(Parts()) && steps <= fuel && (end.None? ==> Valid())
        invariant end.None? ==> !lacStopped
        invariant RunIs(p, initial, input, steps, lacStopped, end, Now(), pos)
        decreases fuel - steps
      {
        ghost var c0, pos0 := Now(), pos;
        end, pos := PullTurn(input, pos);
        NextRun(p, initial, input, steps, c0, pos0, lacStopped, end, Now(), pos);
        steps := steps + 1;
      }
    }

    /** With lookahead correction, in every state the parser goes through, an established context is one
        from which the lookahead will be shifted. If the check itself runs out of memory, the last step
        is not one of the run. */
    method PullCorrected(initial: V, input: Input<V>, fuel: nat) returns (end: Option<Result>, ghost pos: nat, ghost steps: nat)
      requires 0 < p.initDepth && 0 < esInitial && YaccLac.Checks(p) && p.useLac
      modifies this, stacks, stacks.yyss, stacks.yyvs
      ensures stacks.Valid() && (end.None? ==> steps == fuel)
      ensures RunIs(p, initial, input, steps, lacStopped, end, Now(), pos)
      ensures forall m: nat :: m <= steps ==> Corrected(p, PullRun(p, initial, input, m).status)
    {
      hide LrTables.Valid, YaccLac.Checks, Ready, Start, Stacks.States, Stacks.Values, PullRun, Proper, Corrected, RunIs;
      end, pos, steps := Pull(initial, input, fuel);
      forall m: nat | m <= steps ensures Corrected(p, PullRun(p, initial, input, m).status) {
        Guaranteed(p, initial, input, m);
      }
    }

    /** A turn, and the token if it needs one. */
    method PullTurn(input: Input<V>, pos0: nat) returns (end: Option<Result>, pos: nat)
      requires Valid()
      modifies this, stacks, stacks.yyss, stacks.yyvs, extension, extension.es
      ensures stacks == old(stacks) && extension == old(extension) && stacks.Valid() && fresh(Parts() - old(Parts()))
      ensures !lacStopped ==>
                YaccMachine.Pull(StatusOf(end, Now()), pos) == PullStep(p, input, YaccMachine.Pull(Running(old(Now())), pos0))
      ensures lacStopped ==> end == Some(Exhausted)
      ensures end.None? ==> Valid()
    {
      hide LrTables.Valid, Live, Decide, Advance, Stacks.States, Stacks.Values, YaccLac.Checks;
      var needsToken;
      needsToken, end := Turn();
      pos := pos0;
      if needsToken {
        YaccPush.ResumeSaved(p, Now(), input(pos));
        ReadToken(input(pos));
        pos := pos + 1;
      }
    }

    method ReadToken(x: Lexeme<V>)
      requires stacks.Valid()
      modifies this`yychar, this`yylval
      ensures stacks.Valid() && Now() == ReadInto(old(Now()), x)
    {
      yychar, yylval := if x.kind <= YYEOF then YYEOF else x.kind, x.value;
    }

    /** yyread_pushed_token */
    method TakePushed(x: Lexeme<V>)
      requires stacks.Valid()
      modifies this`yychar, this`yylval, this`lacEstablished
      ensures stacks.Valid() && Now() == YaccPush.Resume(YaccPush.Save(old(Now())), x)
    {
      lacEstablished := false;
      yychar, yylval := if x.kind <= YYEOF then YYEOF else x.kind, x.value;
    }
  }

  /** yypstate with yypush_parse: what is lost between two calls is assigned anew by TakePushed. */
  class PushParser<V> {
    const parse: Parse<V>
    var yynew: bool

    /** What is kept between two calls. */
    ghost function Held(): YaccPush.State<V>
      requires parse.stacks.Valid()
      reads this, parse, parse.stacks, parse.stacks.yyss, parse.stacks.yyvs
    {
      if yynew then YaccPush.New else YaccPush.Waiting(YaccPush.Save(parse.Now()))
    }

    constructor (p: Parser<V>, initial: V, esInitial: nat, lacFuel: nat)
      requires 0 < p.initDepth && 0 < esInitial && YaccLac.Checks(p)
      ensures parse.p == p && parse.stacks.Even() && Held() == YaccPush.New && fresh(parse) && fresh(parse.Parts())
      ensures parse.CanCheck()
    {
      parse := new Parse(p, initial, esInitial, lacFuel);
      yynew := true;
    }

    /** Runs on from the pushed token; YYPUSH_MORE is `end` None, unless the fuel ran out. */
    method Continue(x: Lexeme<V>, fuel: nat) returns (end: Option<Result>, tired: bool)
      requires parse.stacks.Even() && parse.CanCheck() && YaccPush.Resumable(parse.p, YaccPush.Save(parse.Now()))
      modifies this, parse, parse.stacks, parse.stacks.yyss, parse.stacks.yyvs, parse.extension, parse.extension.es
      ensures parse.stacks.Valid() && fresh(parse.Parts() - old(parse.Parts()))
      ensures var c := YaccPush.Resume(YaccPush.Save(old(parse.Now())), x);
              Ready(parse.p, c) && Agrees(YaccPush.Conclude(YaccPush.RunOn(parse.p, c, fuel)), end, tired)
    {
      hide LrTables.Valid, Live, YaccPush.RunOn, Stacks.States, Stacks.Values, YaccLac.Checks;
      ReadyToTake(parse.p, parse.Now(), x);
      parse.TakePushed(x);
      var needsToken;
      needsToken, end := parse.RunOn(fuel);
      yynew := !needsToken;
      tired := !needsToken && end.None?;
    }

    /** The call ended as the outcome says, unless a check of the lookahead ran out of memory. */
    ghost predicate Agrees(o: YaccPush.Outcome<V>, end: Option<Result>, tired: bool)
      requires parse.stacks.Valid()
      reads this, parse, parse.stacks, parse.stacks.yyss, parse.stacks.yyvs, parse.extension
    {
      if parse.lacStopped then !tired && end == Some(Exhausted) && yynew
      else
        match o
        case More(saved) =>
          !tired && end == None && Held() == YaccPush.Waiting(saved) && parse.stacks.Even() && parse.CanCheck()
        case Returned(result, c) => !tired && end == Some(result) && parse.Now() == c && yynew
        case OutOfFuel => tired
    }

    /** The part of the first call before it needs a token. */
    method FirstNeed(initial: V, fuel: nat) returns (needsToken: bool, end: Option<Result>)
      requires parse.stacks.Even() && yynew && 0 < parse.p.initDepth && 0 < parse.esInitial && YaccLac.Checks(parse.p)
      modifies parse, parse.stacks, parse.stacks.yyss, parse.stacks.yyvs
      ensures parse.stacks.Valid() && fresh(parse.Parts())
      ensures parse.lacStopped ==> !needsToken && end == Some(Exhausted)
      ensures !parse.lacStopped ==>
              match Start(parse.p, initial)
              case Done(result, c) => !needsToken && end == Some(result) && parse.Now() == c
              case Running(c0) =>
                match YaccPush.RunOn(parse.p, c0, fuel)
                case Asks(c) => needsToken && parse.Now() == c && parse.Valid()
                case Stops(result, c) => !needsToken && end == Some(result) && parse.Now() == c
                case Tired => !needsToken && end == None
    {
      hide LrTables.Valid, Live, Start, YaccPush.RunOn, Stacks.States, Stacks.Values, YaccLac.Checks;
      needsToken := false;
      end := parse.Begin(initial);
      if end.None? {
        needsToken, end := parse.RunOn(fuel);
      }
    }

    /** yypush_parse */
    method PushParse(initial: V, x: Lexeme<V>, fuel: nat) returns (end: Option<Result>, tired: bool)
      requires parse.stacks.Even() && YaccPush.Valid(parse.p, Held())
      requires 0 < parse.esInitial && YaccLac.Checks(parse.p) && (!yynew ==> parse.CanCheck())
      modifies this, parse, parse.stacks, parse.stacks.yyss, parse.stacks.yyvs, parse.extension, parse.extension.es
      ensures parse.stacks.Valid() && fresh(parse.Parts() - old(parse.Parts()))
      ensures Agrees(YaccPush.PushParse(parse.p, initial, old(Held()), x, fuel), end, tired)
    {
      hide LrTables.Valid, Live, Start, YaccPush.RunOn, Stacks.States, Stacks.Values, YaccLac.Checks;
      if yynew {
        var needsToken;
        needsToken, end := FirstNeed(initial, fuel);
        tired := !needsToken && end.None?;
        if needsToken {
          ReadyToTake(parse.p, parse.Now(), x);
          yynew := false;
          end, tired := Continue(x, fuel);
        }
      } else {
        end, tired := Continue(x, fuel);
      }
    }
  }

  /** If parsing goes on with an established context, the lookahead will be shifted. */
  ghost predicate Corrected<V>(p: Parser<V>, s: Status<V>) {
    s.Running? ==> Ready(p, s.c) && YaccLac.Accepting(p, s.c)
  }

  lemma Guaranteed<V>(p: Parser<V>, initial: V, input: Input<V>, n: nat)
    requires 0 < p.initDepth && YaccLac.Checks(p) && p.useLac
    ensures Corrected(p, PullRun(p, initial, input, n).status)
  {
    hide LrTables.Valid, YaccLac.LacIsPlain, YaccLac.LacSound;
    YaccLac.PlainIsSound(p);
    YaccLac.RunAccepting(p, initial, input, n);
  }

  /** After these steps the parser is where the specified run is, with as many tokens read, unless the
      check of the last step ran out of memory: up to that step it was. */
  ghost predicate RunIs<V>(
      p: Parser<V>, initial: V, input: Input<V>, steps: nat, stopped: bool, end: Option<Result>, c: Config<V>, pos: nat)
    requires 0 < p.initDepth
  {
    if stopped then end == Some(Exhausted) && 0 < steps && PullRun(p, initial, input, steps - 1).status.Running?
    else PullRun(p, initial, input, steps) == YaccMachine.Pull(StatusOf(end, c), pos)
  }

  lemma FirstRun<V>(p: Parser<V>, initial: V, input: Input<V>, end: Option<Result>, c: Config<V>)
    requires 0 < p.initDepth && StatusOf(end, c) == Start(p, initial)
    ensures RunIs(p, initial, input, 0, false, end, c, 0)
  {
    hide LrTables.Valid;
  }

  lemma NextRun<V>(p: Parser<V>, initial: V, input: Input<V>, n: nat, c0: Config<V>, pos0: nat,
                   stopped: bool, end: Option<Result>, c: Config<V>, pos: nat)
    requires 0 < p.initDepth && RunIs(p, initial, input, n, false, None, c0, pos0) && Ready(p, c0)
    requires if stopped then end == Some(Exhausted)
             else YaccMachine.Pull(StatusOf(end, c), pos) == PullStep(p, input, YaccMachine.Pull(Running(c0), pos0))
    ensures RunIs(p, initial, input, n + 1, stopped, end, c, pos)
  {
    hide LrTables.Valid, Ready, Decide, Advance;
  }

  /** A plain answer is always an answer. */
  lemma NeverNoMemory<V>(p: Parser<V>, stack: seq<int>, token: int)
    requires YaccLac.Checks(p) && Live(p.a, stack) && IsToken(p.a, token)
    ensures p.useLac ==> p.lac(stack, token) != NoMemory
  {
    hide LrTables.Valid, Live;
    if p.useLac {
      assert p.lac(stack, token) == YaccLac.PlainAnswer(p.a, stack, token);
    }
  }

  lemma ReadyToTake<V>(p: Parser<V>, c: Config<V>, x: Lexeme<V>)
    requires YaccPush.Resumable(p, YaccPush.Save(c))
    ensures Ready(p, YaccPush.Resume(YaccPush.Save(c), x))
    ensures Ready(p, c) && Decide(p, c).Read? ==> YaccPush.Resume(YaccPush.Save(c), x) == ReadInto(c, x)
  {
    hide LrTables.Valid;
    if Ready(p, c) {
      YaccPush.ResumeSaved(p, c, x);
    }
  }
}
