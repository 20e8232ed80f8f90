/** The Java parser object: the fields that parse and push_parse share, and the switch over the label
    that changes them in place. */
module JavaParser {
  import opened Collections
  import LrTables
  import opened LrAutomaton
  import opened JavaStack
  import opened JavaMachine
  import JavaRuns
  import Y = YaccMachine

  class Parser<V> {
    const p: Y.Parser<V>
    const nil: V
    var yylabel: Label
    var yyn: int
    var yylen: nat
    var yystate: int
    var yychar: int
    var yytoken: int
    var yylval: V
    var yystack: YYStack<V>
    var yyerrstatus: nat
    var yynerrs: nat
    var initialized: bool

    ghost function Now(): Fields<V>
      requires yystack.Valid()
      reads this, yystack, yystack.stateStack, yystack.valueStack
    {
      Fields(yylabel, yyn, yylen, yystate, yychar, yytoken, yylval, yystack.States(), yystack.Values(), yyerrstatus, yynerrs)
    }

    ghost predicate HasStack()
      reads this, yystack, yystack.stateStack, yystack.valueStack
    {
      yystack.Valid() && yystack.nil == nil
    }

    ghost predicate Valid()
      reads this, yystack, yystack.stateStack, yystack.valueStack
    {
      HasStack() && Fits(p, Now())
    }

    constructor (p: Y.Parser<V>, nil: V)
      ensures Valid() && !initialized && this.p == p && this.nil == nil && fresh(yystack.Objects())
    {
      this.p, this.nil := p, nil;
      yylabel, yyn, yylen, yystate, yychar, yytoken, yylval := YYNEWSTATE, 0, 0, 0, Y.YYEMPTY, 0, nil;
      yyerrstatus, yynerrs, initialized := 0, 0, false;
      yystack := new YYStack(nil);
      new;
      PushFirst();
    }

    /** push_parse_initialize, and the start of parse */
    method Initialize()
      requires Valid()
      modifies this
      ensures Valid() && fresh(yystack.Objects()) && initialized && Now() == JavaRuns.Start(p, nil)
    {
      hide LrTables.Valid, Fits, YYStack.States, YYStack.Values, JavaRuns.Start;
      yystack := new YYStack(nil);
      ClearFields();
      initialized := true;
      PushFirst();
    }

    method ClearFields()
      requires HasStack()
      modifies this`yylabel, this`yyn, this`yylen, this`yystate, this`yychar, this`yytoken, this`yylval, this`yyerrstatus, this`yynerrs
      ensures HasStack()
      ensures Now() == Fields(YYNEWSTATE, 0, 0, 0, Y.YYEMPTY, 0, nil, yystack.States(), yystack.Values(), 0, 0)
    {
      hide YYStack.States, YYStack.Values;
      yylabel, yyn, yylen, yystate, yychar, yytoken, yylval := YYNEWSTATE, 0, 0, 0, Y.YYEMPTY, 0, nil;
      yyerrstatus, yynerrs := 0, 0;
    }

    method PushFirst()
      requires HasStack() && Now() == Fields(YYNEWSTATE, 0, 0, 0, Y.YYEMPTY, 0, nil, [], [], 0, 0)
      modifies yystack, yystack.stateStack, yystack.valueStack
      ensures Valid() && Now() == JavaRuns.Start(p, nil) && fresh(yystack.Objects() - old(yystack.Objects()))
    {
      hide LrTables.Valid, Fits, YYStack.States, YYStack.Values;
      StartFits(p, nil);
      yystack.Push(yystate, yylval);
      assert [] + [0] == [0] && [] + [nil] == [nil];
    }

    /** A state and a value go on the stack. */
    method PushState(state: int, value: V)
      requires HasStack()
      modifies this`yystate, this`yylabel, yystack, yystack.stateStack, yystack.valueStack
      ensures HasStack() && Now() == Pushed(old(Now()), state, value) && fresh(yystack.Objects() - old(yystack.Objects()))
    {
      hide LrTables.Valid, YYStack.States, YYStack.Values;
      yystate := state;
      yystack.Push(yystate, value);
      yylabel := YYNEWSTATE;
    }

    /** n states are taken off, but not all. */
    method PopStates(n: nat)
      requires HasStack() && n < |Now().stack|
      modifies this`yystate, yystack`height, yystack.valueStack
      ensures HasStack() && |Now().values| == |Now().stack| && Now() == Popped(old(Now()), n)
    {
      hide LrTables.Valid, YYStack.States, YYStack.Values;
      yystack.Pop(n);
      yystate := yystack.StateAt(0);
    }

    /** One turn of the switch. */
    method Turn()
      requires Valid() && !Needs(Now()) && !Ended(Now())
      modifies this, yystack, yystack.stateStack, yystack.valueStack
      ensures Valid() && Now() == Step(p, old(Now())) && yystack == old(yystack) && initialized == old(initialized)
      ensures fresh(yystack.Objects() - old(yystack.Objects()))
    {
      hide LrTables.Valid, Fits, NewState, GetToken, Default, Reduce, ErrLab, Raised, ErrLab1, YYStack.States, YYStack.Values;
      match yylabel {
        case YYNEWSTATE => AtNewState();
        case YYGETTOKEN => AtGetToken();
        case YYDEFAULT => AtDefault();
        case YYREDUCE => AtReduce();
        case YYERRLAB => AtErrLab();
        case YYERROR => AtError();
        case YYERRLAB1 => AtErrLab1();
      }
    }

    method AtNewState()
      requires Valid() && yylabel == YYNEWSTATE
      modifies this`yylabel, this`yyn
      ensures Valid() && Now() == NewState(p, old(Now()))
    {
      hide LrTables.Valid, Steps, YYStack.States, YYStack.Values;
      if yystate == p.a.t.final {
        yylabel := YYACCEPT;
        return;
      }
      yyn := p.a.t.pact[yystate];
      yylabel := if yyn == p.a.t.pactNinf then YYDEFAULT else YYGETTOKEN;
    }

    method AtGetToken()
      requires Valid() && yylabel == YYGETTOKEN && yychar != Y.YYEMPTY
      modifies this, yystack, yystack.stateStack, yystack.valueStack
      ensures Valid() && Now() == GetToken(p, old(Now())) && yystack == old(yystack) && initialized == old(initialized)
      ensures fresh(yystack.Objects() - old(yystack.Objects()))
    {
      hide LrTables.Valid, Fits, Y.TokenOf, YYStack.States, YYStack.Values, Pushed, GetToken;
      GetTokenIs(p, Now());
      yytoken := Y.TokenOf(p, yychar);
      yyn := yyn + yytoken;
      if yyn < 0 || |p.a.t.table| <= yyn || p.a.t.check[yyn] != yytoken {
        yylabel := YYDEFAULT;
        return;
      }
      yyn := p.a.t.table[yyn];
      if yyn <= 0 {
        if yyn == p.a.t.tableNinf {
          yylabel := YYERRLAB;
        } else {
          yyn := -yyn;
          yylabel := YYREDUCE;
        }
      } else {
        ShiftToken();
      }
    }

    method ShiftToken()
      requires HasStack()
      modifies this`yychar, this`yyerrstatus, this`yystate, this`yylabel, yystack, yystack.stateStack, yystack.valueStack
      ensures HasStack() && fresh(yystack.Objects() - old(yystack.Objects()))
      ensures Now() == Pushed(old(Now()).(yychar := Y.YYEMPTY, yyerrstatus := if old(yyerrstatus) > 0 then old(yyerrstatus) - 1 else 0),
                              yyn, yylval)
    {
      hide YYStack.States, YYStack.Values, Pushed;
      yychar := Y.YYEMPTY;
      if yyerrstatus > 0 {
        yyerrstatus := yyerrstatus - 1;
      }
      PushState(yyn, yylval);
    }

    method AtDefault()
      requires Valid() && yylabel == YYDEFAULT
      modifies this`yylabel, this`yyn
      ensures Valid() && Now() == Default(p, old(Now()))
    {
      hide LrTables.Valid, Complete, YYStack.States, YYStack.Values;
      DefaultFits(p, Now());
      yyn := p.a.t.defact[yystate];
      yylabel := if yyn == 0 then YYERRLAB else YYREDUCE;
    }

    method AtReduce()
      requires Valid() && yylabel == YYREDUCE
      modifies this, yystack, yystack.stateStack, yystack.valueStack
      ensures Valid() && Now() == Reduce(p, old(Now())) && yystack == old(yystack) && initialized == old(initialized)
      ensures fresh(yystack.Objects() - old(yystack.Objects()))
    {
      hide LrTables.Valid, Fits, YYStack.States, YYStack.Values, Reduce, Pushed, Popped;
      ReduceIs(p, Now());
      ghost var j := Now();
      yylen := Length(p.a, yyn);
      var values := yystack.TopValues(yylen);
      match p.action(yyn, values) {
        case Ok(yyval) =>
          PopStates(yylen);
          PushState(GotoRule(p.a, yystate, yyn), yyval);
        case Accept => yylabel := YYACCEPT;
        case Abort => yylabel := YYABORT;
        case Raise => yylabel := YYERROR;
      }
    }

    method AtErrLab()
      requires Valid() && yylabel == YYERRLAB
      modifies this`yylabel, this`yynerrs, this`yytoken, this`yychar
      ensures Valid() && Now() == ErrLab(p, old(Now()))
    {
      hide LrTables.Valid, Steps, Complete, YYStack.States, YYStack.Values;
      if yyerrstatus == 0 {
        yynerrs := yynerrs + 1;
        if yychar == Y.YYEMPTY {
          yytoken := Y.YYEMPTY;
        }
      }
      yylabel := YYERRLAB1;
      if yyerrstatus == 3 {
        if yychar <= Y.YYEOF {
          if yychar == Y.YYEOF {
            yylabel := YYABORT;
          }
        } else {
          yychar := Y.YYEMPTY;
        }
      }
    }

    method AtError()
      requires Valid() && yylabel == YYERROR
      modifies this`yylabel, this`yylen, this`yystate, yystack`height, yystack.valueStack
      ensures Valid() && Now() == Raised(p, old(Now()))
    {
      hide LrTables.Valid, Fits, YYStack.States, YYStack.Values, Popped;
      RaisedFits(p, Now());
      PopStates(yylen);
      yylen := 0;
      yylabel := YYERRLAB1;
    }

    method AtErrLab1()
      requires Valid() && yylabel == YYERRLAB1
      modifies this, yystack, yystack.stateStack, yystack.valueStack
      ensures Valid() && Now() == ErrLab1(p, old(Now())) && yystack == old(yystack) && initialized == old(initialized)
      ensures fresh(yystack.Objects() - old(yystack.Objects()))
    {
      hide LrTables.Valid, Fits, YYStack.States, YYStack.Values, Y.ErrorDepth, Y.CatchesErrors, Y.ErrorState, Probe, Pushed, Popped, ErrLab1;
      ErrorIs(p, Now());
      yyerrstatus := 3;
      var found := PopForError();
      if found {
        PushState(yyn, yylval);
      } else {
        yylabel := YYABORT;
      }
    }

    /** The loop of yyerrlab1. */
    method PopForError() returns (found: bool)
      requires HasStack() && CanProbe(p.a.t, Now())
      modifies this`yyn, this`yystate, yystack`height, yystack.valueStack
      ensures HasStack()
      ensures var j, n := old(Now()), Y.ErrorDepth(p.a.t, old(Now()).stack, |old(Now()).stack|);
              && found == (n > 0)
              && Now() == Popped(j, |j.stack| - if found then n else 1)
                          .(yyn := if found then Y.ErrorState(p.a.t, j.stack[n - 1]) else Probe(p.a.t, j.stack[0]))
    {
      hide LrTables.Valid, Y.ErrorDepth, Popped, YYStack.States, YYStack.Values, CanProbe, Y.CatchesErrors, Y.ErrorState, Probe;
      ghost var j := Now();
      ghost var n := 0;
      PoppedNone(p.a.t, j);
      while true
        invariant HasStack() && 0 <= n < |j.stack| == |j.values| && Now() == Popped(j, n).(yyn := yyn)
        invariant Y.ErrorDepth(p.a.t, j.stack, |j.stack| - n) == Y.ErrorDepth(p.a.t, j.stack, |j.stack|)
        decreases |j.stack| - n
      {
        PoppedFacts(p.a.t, j, n);
        ErrorDepthStep(p.a.t, j.stack, |j.stack| - n);
        found := ProbeState();
        if found {
          return;
        }
        if yystack.height == 0 {
          return;
        }
        PopStates(1);
        n := n + 1;
      }
    }

    /** The test of the state on top: whether it shifts the error token. */
    method ProbeState() returns (found: bool)
      requires LrTables.Sized(p.a.t) && LrTables.IsState(p.a.t, yystate)
      modifies this`yyn
      ensures found == Y.CatchesErrors(p.a.t, yystate)
      ensures yyn == if found then Y.ErrorState(p.a.t, yystate) else Probe(p.a.t, yystate)
    {
      yyn := p.a.t.pact[yystate];
      if yyn != p.a.t.pactNinf {
        yyn := yyn + LrTables.TERROR;
        if 0 <= yyn < |p.a.t.table| && p.a.t.check[yyn] == LrTables.TERROR {
          yyn := p.a.t.table[yyn];
          if 0 < yyn {
            return true;
          }
        }
      }
      found := false;
    }

    /** Turns until a token is needed or parsing ends, at most `fuel` of them. */
    method RunOn(fuel: nat)
      requires Valid()
      modifies this, yystack, yystack.stateStack, yystack.valueStack
      ensures Valid() && Now() == JavaRuns.Turns(p, old(Now()), fuel) && yystack == old(yystack)
      ensures initialized == old(initialized) && fresh(yystack.Objects() - old(yystack.Objects()))
    {
      hide LrTables.Valid, Fits, Step, YYStack.States, YYStack.Values;
      var k := 0;
      while k < fuel && !(yylabel == YYGETTOKEN && yychar == Y.YYEMPTY) && yylabel != YYACCEPT && yylabel != YYABORT
        invariant k <= fuel && Valid() && yystack == old(yystack) && initialized == old(initialized)
        invariant fresh(yystack.Objects() - old(yystack.Objects()))
        invariant JavaRuns.Turns(p, Now(), fuel - k) == JavaRuns.Turns(p, old(Now()), fuel)
        decreases fuel - k
      {
        TurnsStep(p, Now(), fuel - k);
        Turn();
        k := k + 1;
      }
      TurnsEnd(p, Now(), fuel - k);
    }

    method TakeToken(x: Y.Lexeme<V>)
      requires Valid() && Needs(Now())
      modifies this`yychar, this`yylval
      ensures Valid() && Now() == ReadToken(old(Now()), x)
    {
      hide LrTables.Valid, Steps, YYStack.States, YYStack.Values;
      yychar, yylval := if x.kind <= Y.YYEOF then Y.YYEOF else x.kind, x.value;
    }

    /** A parser that was not initialized runs to where it needs its first token. */
    method Prepare(fuel: nat)
      requires Valid()
      modifies this, yystack, yystack.stateStack, yystack.valueStack
      ensures Valid() && fresh(yystack.Objects() - old(yystack.Objects())) && initialized
      ensures Now() == if old(initialized) then old(Now()) else JavaRuns.Turns(p, JavaRuns.Start(p, nil), fuel)
    {
      hide LrTables.Valid, Fits, Step, YYStack.States, YYStack.Values, JavaRuns.Turns, JavaRuns.Start;
      if !initialized {
        Initialize();
        RunOn(fuel);
      }
    }

    method Continue(x: Y.Lexeme<V>, fuel: nat)
      requires Valid()
      modifies this, yystack, yystack.stateStack, yystack.valueStack
      ensures Valid() && fresh(yystack.Objects() - old(yystack.Objects())) && initialized == old(initialized)
      ensures Now() == if Needs(old(Now())) then JavaRuns.Turns(p, ReadToken(old(Now()), x), fuel) else old(Now())
    {
      hide LrTables.Valid, Fits, Step, YYStack.States, YYStack.Values, JavaRuns.Turns;
      if yylabel == YYGETTOKEN && yychar == Y.YYEMPTY {
        TakeToken(x);
        RunOn(fuel);
      }
    }

    /** push_parse: the result is YYPUSH_MORE if the parser needs another token. */
    method PushParse(x: Y.Lexeme<V>, fuel: nat) returns (at: Label)
      requires Valid() && (initialized ==> Needs(Now()))
      modifies this, yystack, yystack.stateStack, yystack.valueStack
      ensures Valid() && fresh(yystack.Objects() - old(yystack.Objects()))
      ensures Now() == JavaRuns.PushParse(p, nil, if old(initialized) then Some(old(Now())) else None, x, fuel)
      ensures at == yylabel && (Ended(Now()) ==> !initialized) && (Needs(Now()) ==> initialized)
    {
      hide LrTables.Valid, Fits, Step, YYStack.States, YYStack.Values, JavaRuns.Turns, JavaRuns.Start, ReadToken;
      Prepare(fuel);
      Continue(x, fuel);
      if yylabel == YYACCEPT || yylabel == YYABORT {
        initialized := false;
      }
      at := yylabel;
    }

    /** parse: reads from the lexer when a token is needed, for at most `fuel` turns. */
    method ParseInput(input: Y.Input<V>, fuel: nat) returns (pos: nat, turns: nat)
      requires Valid()
      modifies this, yystack, yystack.stateStack, yystack.valueStack
      ensures Valid() && JavaRuns.PullRun(p, nil, input, turns) == JavaRuns.Pull(Now(), pos)
      ensures Ended(Now()) || turns == fuel
    {
      hide LrTables.Valid, Fits, Step, YYStack.States, YYStack.Values, JavaRuns.Start;
      Initialize();
      pos, turns := 0, 0;
      while turns < fuel && yylabel != YYACCEPT && yylabel != YYABORT
        invariant turns <= fuel && Valid() && fresh(yystack.Objects())
        invariant JavaRuns.PullRun(p, nil, input, turns) == JavaRuns.Pull(Now(), pos)
      {
        if yylabel == YYGETTOKEN && yychar == Y.YYEMPTY {
          TakeToken(input(pos));
          pos := pos + 1;
        } else {
          Turn();
        }
        turns := turns + 1;
      }
    }

    /** Whether error recovery is being done, by its documentation; in fact, whether it is not. */
    method Recovering() returns (b: bool)
      ensures b == (yyerrstatus == 0)
    {
      b := yyerrstatus == 0;
    }
  }

  lemma StartFits<V>(p: Y.Parser<V>, nil: V)
    ensures Fits(p, JavaRuns.Start(p, nil))
  {
  }

  lemma GetTokenIs<V>(p: Y.Parser<V>, j: Fields<V>)
    requires Fits(p, j) && j.yylabel == YYGETTOKEN && j.yychar != Y.YYEMPTY
    ensures Fits(p, GetToken(p, j)) && |p.a.t.check| == |p.a.t.table|
    ensures var token := Y.TokenOf(p, j.yychar);
            var i := j.yyn + token;
            GetToken(p, j) ==
            if i < 0 || |p.a.t.table| <= i || p.a.t.check[i] != token then j.(yytoken := token, yyn := i, yylabel := YYDEFAULT)
            else
              var v, j' := p.a.t.table[i], j.(yytoken := token, yyn := p.a.t.table[i]);
              if v > 0 then
                Pushed(j'.(yychar := Y.YYEMPTY, yyerrstatus := if j.yyerrstatus > 0 then j.yyerrstatus - 1 else 0), v, j.yylval)
              else if v == p.a.t.tableNinf then j'.(yylabel := YYERRLAB)
              else j'.(yyn := -v, yylabel := YYREDUCE)
  {
    hide Fits, Pushed;
    TablesSized(p.a);
  }

  lemma DefaultFits<V>(p: Y.Parser<V>, j: Fields<V>)
    requires Fits(p, j) && j.yylabel == YYDEFAULT
    ensures Fits(p, Default(p, j)) && |p.a.t.defact| == |p.a.t.pact| && IsState(p.a, j.yystate)
  {
    hide LrTables.Valid, Steps;
    TablesSized(p.a);
  }

  lemma ReduceIs<V>(p: Y.Parser<V>, j: Fields<V>)
    requires Fits(p, j) && j.yylabel == YYREDUCE
    ensures Fits(p, Reduce(p, j)) && IsRule(p.a, j.yyn) && Length(p.a, j.yyn) < |j.stack| == |j.values|
    ensures var j', n := Reduce(p, j), Length(p.a, j.yyn);
            match p.action(j.yyn, j.values[|j.values| - n..])
            case Ok(v) =>
              var below := Popped(j.(yylen := n), n);
              IsState(p.a, below.yystate) && j' == Pushed(below, GotoRule(p.a, below.yystate, j.yyn), v)
            case Accept => j' == j.(yylen := n, yylabel := YYACCEPT)
            case Abort => j' == j.(yylen := n, yylabel := YYABORT)
            case Raise => j' == j.(yylen := n, yylabel := YYERROR)
  {
    hide LrTables.Valid;
    ReducePath(p.a, j.stack, j.yyn);
    BelowPath(p.a, j.stack, |j.stack| - Length(p.a, j.yyn));
  }

  lemma RaisedFits<V>(p: Y.Parser<V>, j: Fields<V>)
    requires Fits(p, j) && j.yylabel == YYERROR
    ensures Fits(p, Raised(p, j)) && j.yylen < |j.stack| == |j.values|
  {
    hide LrTables.Valid, Steps;
  }

  /** All states on the stack can be tested. */
  ghost predicate CanProbe<V>(t: LrTables.Tables, j: Fields<V>) {
    && LrTables.Sized(t) && j.stack != [] && |j.values| == |j.stack| && j.yystate == Last(j.stack)
    && forall i :: 0 <= i < |j.stack| ==> LrTables.IsState(t, j.stack[i])
  }

  lemma PoppedNone<V>(t: LrTables.Tables, j: Fields<V>)
    requires CanProbe(t, j)
    ensures LrTables.Sized(t) && 0 < |j.stack| == |j.values| && Popped(j, 0) == j
  {
  }

  lemma PoppedFacts<V>(t: LrTables.Tables, j: Fields<V>, n: nat)
    requires CanProbe(t, j) && n < |j.stack| == |j.values|
    ensures LrTables.Sized(t) && LrTables.IsState(t, Popped(j, n).yystate) && Popped(j, n).yystate == j.stack[|j.stack| - n - 1]
    ensures |Popped(j, n).stack| == |j.stack| - n
    ensures n + 1 < |j.stack| ==> forall yyn: int :: Popped(Popped(j, n).(yyn := yyn), 1) == Popped(j, n + 1).(yyn := yyn)
  {
    if n + 1 < |j.stack| {
      assert j.stack[..|j.stack| - n][..|j.stack| - n - 1] == j.stack[..|j.stack| - n - 1];
      assert j.values[..|j.stack| - n][..|j.stack| - n - 1] == j.values[..|j.stack| - n - 1];
    }
  }

  lemma ErrorIs<V>(p: Y.Parser<V>, j: Fields<V>)
    requires Fits(p, j) && j.yylabel == YYERRLAB1
    ensures Fits(p, ErrLab1(p, j)) && CanProbe(p.a.t, j.(yyerrstatus := 3)) && LrTables.Sized(p.a.t)
    ensures |j.values| == |j.stack| > 0 && LrTables.IsState(p.a.t, j.stack[0])
    ensures var n, j' := Y.ErrorDepth(p.a.t, j.stack, |j.stack|), j.(yyerrstatus := 3);
            ErrLab1(p, j) == if n == 0 then Popped(j', |j.stack| - 1).(yyn := Probe(p.a.t, j.stack[0]), yylabel := YYABORT)
                             else
                               var q := Y.ErrorState(p.a.t, j.stack[n - 1]);
                               Pushed(Popped(j', |j.stack| - n).(yyn := q), q, j.yylval)
  {
    hide LrTables.Valid, Steps, Y.CatchesErrors, Y.ErrorState, Probe;
    TablesSized(p.a);
  }

  lemma ErrorDepthStep(t: LrTables.Tables, stack: seq<int>, top: nat)
    requires LrTables.Sized(t) && 0 < top <= |stack| && LrTables.IsState(t, stack[top - 1])
    ensures Y.ErrorDepth(t, stack, top) == if Y.CatchesErrors(t, stack[top - 1]) then top else Y.ErrorDepth(t, stack, top - 1)
    ensures Y.ErrorDepth(t, stack, 0) == 0
  {
  }

  lemma TurnsStep<V>(p: Y.Parser<V>, j: Fields<V>, k: nat)
    requires Fits(p, j) && !Needs(j) && 0 < k
    ensures JavaRuns.Turns(p, j, k) == JavaRuns.Turns(p, Step(p, j), k - 1)
  {
    hide LrTables.Valid, Fits, Step;
  }

  lemma {:induction false} TurnsEnd<V>(p: Y.Parser<V>, j: Fields<V>, k: nat)
    requires Fits(p, j) && (k == 0 || Needs(j) || Ended(j))
    ensures JavaRuns.Turns(p, j, k) == j
    decreases k
  {
    hide LrTables.Valid, Fits;
    if k > 0 && Ended(j) {
      TurnsEnd(p, j, k - 1);
    }
  }
}
