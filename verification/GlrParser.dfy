/** A whole GLR parse: rounds in which all stacks reduce until they can shift, the return to
    deterministic operation, and error recovery, on one stack object. */
module GlrParser {
  import opened Collections
  import LrTables
  import opened LrAutomaton
  import opened GlrShape
  import opened GlrOps
  import opened GlrReduce
  import opened GlrOptions
  import opened GlrCompress
  import opened GlrStack
  import opened GlrSentences
  import opened GlrInvariant
  import opened GlrResolve
  import opened GlrValues
  import opened GlrRounds
  import opened GlrDistinct
  import opened GlrComplete
  import opened GlrSearch
  import Y = YaccMachine

  /** How a parse ends. Besides the results of yyparse: an assertion that fails, the resolution of a
      state that has lost its alternatives, and a run that was followed for too few steps. */
  datatype Outcome = Accepted | AcceptedByAction | Aborted | NoMemory | AssertionFails | Undefined | Unfinished

  datatype Next = Proceed | Halt(outcome: Outcome)

  /** Where control goes from one mode: to the other, or to yyuser_error. */
  datatype Turn = Switch | UserError | Stop(outcome: Outcome)

  /** What an action that does not return normally makes of the parse. */
  function Ending(flag: Flag): Outcome {
    if flag == YyAccept then AcceptedByAction else Aborted
  }

  /** The resolution ends the parse: all that fails does, except for YYERROR. */
  predicate Ends(res: Resolution) {
    !res.Resolves? && res != ActionFails(YyErr)
  }

  function EndOf(res: Resolution): Outcome {
    match res
    case ActionFails(flag) => Ending(flag)
    case Tired => Outcome.Unfinished
    case _ => Aborted
  }

  class Parse<V(!new)> {
    const p: Glr<V>
    const s: Stack<V>
    var yychar: int
    var yylval: V
    var yyread: nat
    var yyerrState: nat
    var yynerrs: nat
    var yyposn: nat
    var actionFailed: bool
    ghost var recovered: bool
    ghost var seen: set<seq<int>>
    ghost var turns: nat
    ghost var tired: bool

    constructor (p: Glr<V>, s: Stack<V>, v: V)
      ensures this.p == p && this.s == s && yychar == Y.YYEMPTY && yyread == 0 && yyerrState == 0 && yyposn == 0
      ensures yynerrs == 0 && !actionFailed && !recovered && seen == {[0]} && turns == 0 && !tired
    {
      this.p, this.s := p, s;
      yychar, yylval, yyread, yyerrState, yynerrs, yyposn := Y.YYEMPTY, v, 0, 0, 0, 0;
      actionFailed, recovered, seen := false, false, {[0]};
      turns, tired := 0, false;
    }

    ghost function Past(): History
      reads this`actionFailed, this`recovered
    {
      History(actionFailed, if recovered then None else Some(p.token))
    }

    /** Before the first recovery, the tokens read are those shifted and the lookahead. */
    ghost predicate Aligned()
      reads this`yychar, this`yyread, this`yyposn, this`recovered
    {
      recovered || if yychar == Y.YYEMPTY then yyread == yyposn else yyread == yyposn + 1 && yychar == p.token(yyposn)
    }

    /** What holds of the stack until the parse is over. */
    ghost predicate Kept()
      reads this, s, s.yyitems
    {
      && Fits(p) && s.Valid() && Sound(p.a, s.Now(), Past())
      && (yychar == Y.YYEMPTY || IsToken(p.a, yychar)) && Aligned()
    }

    /** There is also room for the next operation. */
    ghost predicate Holds()
      reads this, s, s.yyitems
    {
      Kept() && HEADROOM <= s.yyspaceLeft
    }

    /** The items fill what there is of the array, and no larger one can be had. */
    ghost predicate NoRoom()
      reads s
    {
      !HasRoom(s.maxDepth, s.canAlloc, s.yyitems.Length, s.yynextFree)
    }

    /** A parse ends for want of memory only if there is none. */
    ghost predicate Halted(o: Outcome)
      reads this, s, s.yyitems
    {
      if o == NoMemory then NoRoom() else Holds()
    }

    /** Unless rules are immediate, live stacks do not repeat states; stack k may have been split off. */
    ghost predicate Neat(k: int)
      requires s.Allocated()
      reads this, s, s.yyitems
    {
      AllDeferred(p) ==> Distinct(p.a, s.Now(), k)
    }

    /** How a round or a recovery may end the parse. */
    ghost predicate Abandons(o: Outcome)
    {
      o != Undefined && o != Accepted && (o == AssertionFails ==> !AllDeferred(p)) && Failing(o)
    }

    /** If all actions return normally, a parse is only given up for want of a run to the final state, or
        for alternatives that cannot be decided between. */
    ghost predicate Failing(o: Outcome)
    {
      Regular(p) ==> o != AcceptedByAction && (o == Aborted ==> NeverAccepts(SearchOf(p)) || Undecided(ActionsOf(p).r))
    }

    /** All stacks that can be built from the tokens so far have been tried; what can be built from them
        has been tried as well, except from those that are open, and those that shift are live. No
        resolution has failed before the first recovery. */
    ghost predicate Searched(open: set<seq<int>>)
      requires s.Allocated()
      reads this`yyposn, this`actionFailed, this`recovered, this`seen, s, s.yyitems
    {
      Explores(p, s.Now(), yyposn, recovered, seen, open) && (actionFailed ==> recovered)
    }

    /** Stack k is open, and its state offers the rule. */
    ghost predicate Offered(k: int, rule: int, open: set<seq<int>>)
      requires s.Allocated()
      reads this`yyposn, this`recovered, s, s.yyitems
    {
      Regular(p) && !recovered ==> Offering(p, s.Now(), k, rule, yyposn, open)
    }

    /** More has been tried, among it what the rule makes of the stack. */
    ghost predicate Tried(was: set<seq<int>>, stack: seq<int>, rule: int)
      reads this`recovered, this`seen
    {
      was <= seen && (Regular(p) && !recovered ==> After(p.a, stack, rule) in seen)
    }

    /** The action is the one of the state, and the rules in conflict with it have been tried. */
    ghost predicate Prepares(stack: seq<int>, q: int, action: LrTables.Action)
      requires IsState(p.a, q)
      reads this`yyposn, this`recovered, this`seen
    {
      Regular(p) && !recovered ==> Prepared(p, stack, q, yyposn, seen, action)
    }

    ghost predicate StacksEven()
      requires s.Allocated()
      reads this, s, s.yyitems
    {
      Even(p.a, s.Now(), yyposn, Past())
    }

    /** yygetToken */
    method GetToken()
      requires Fits(p)
      modifies this`yychar, this`yylval, this`yyread
      ensures old(yychar) != Y.YYEMPTY ==> yychar == old(yychar) && yyread == old(yyread) && yylval == old(yylval)
      ensures old(yychar) == Y.YYEMPTY ==> yychar == p.token(old(yyread)) && IsToken(p.a, yychar)
                                           && yyread == old(yyread) + 1 && yylval == p.value(old(yyread))
      ensures old(Aligned()) ==> Aligned()
    {
      hide Fits;
      if yychar == Y.YYEMPTY {
        TokenFits(p, yyread);
        yychar, yylval, yyread := p.token(yyread), p.value(yyread), yyread + 1;
      }
    }

    /** The LR state on top of stack k. */
    method TopState(k: nat) returns (q: int)
      requires Kept() && k < |s.yytops| && s.yytops[k] != NONE
      ensures StateAt(s.Now().items, s.yytops[k]) && q == s.Now().items[s.yytops[k]].lr && IsState(p.a, q)
    {
      hide LrTables.Valid, Fits, Sound, Shape;
      LiveTop(s.Now(), k);
      q := s.yyitems[s.yytops[k]].lr;
      TopIsState(p.a, s.Now(), s.yytops[k], Past());
    }

    // -------------------------------------------------------------- nondeterministic operation

    /** One call of yyglrReduce in nondeterministic operation. If the action ends in YYERROR, the stack
        is to be given up. */
    method ReduceStack(k: nat, rule: int, ghost open: set<seq<int>>) returns (flag: Flag, ok: bool)
      requires Holds() && StacksEven() && s.yysplitPoint != NONE && CanReduce(p.a, s.Now(), k, rule) && Neat(k)
      requires Searched(open) && Offered(k, rule, open)
      modifies s, s.yyitems, this`seen
      ensures s.yyitems == old(s.yyitems) || fresh(s.yyitems)
      ensures Kept() && (if ok then Holds() else NoRoom()) && (flag != YyOk ==> !Regular(p))
      ensures Tried(old(seen), StackOf(old(s.Now()), k), rule)
      ensures flag == YyOk ==> Reworked(p, old(s.Now()), k, s.Now(), yyposn, Past(), recovered, seen, open)
      ensures flag == YyErr ==> RejectedIn(old(s.Now()), k, open)
    {
      hide LrTables.Valid, Fits, Sound, Shape, InStep, CanReduce, Reduces, Distinct, AllDeferred, Regular, Explores, Offering, Reworked,
        StackOf, After, RunsAction, ReduceLater, MarkDeleted;
      NeedsFit(s.Now());
      CanReduceFacts(p.a, s.Now(), k, rule);
      ghost var g := s.Now();
      ghost var raw := Raw(s.yylookaheadNeeds[k], yylval);
      flag, ok := s.GlrReduce(p.a, k, rule, p.immediate(rule), p.action, yylval);
      GlrReduced(p.a, g, k, rule, p.immediate(rule), p.action, raw, flag, s.Now());
      ReductionKeeps(p, g, k, rule, raw, flag, s.Now(), yyposn, Past(), recovered, seen, open);
      seen := seen + {After(p.a, StackOf(g, k), rule)};
    }

    /** The stack may be given up. */
    ghost predicate RejectedIn(g: Gss<V>, k: nat, open: set<seq<int>>)
      requires s.Allocated()
      reads this, s, s.yyitems
    {
      && k < |s.yytops| && s.yysplitPoint != NONE
      && var g' := MarkDeleted(s.Now(), k);
         && g'.tops[k] == NONE && Sound(p.a, g', Past())
         && Reworked(p, g, k, g', yyposn, Past(), recovered, seen, open)
    }

    /** Stack k has conflicts on the lookahead, so it will be split. */
    ghost predicate Forks(k: nat)
      requires s.Allocated()
      reads this, s, s.yyitems
    {
      var g := s.Now();
      && k < |g.tops| && StateAt(g.items, g.tops[k]) && IsState(p.a, g.items[g.tops[k]].lr)
      && var q := g.items[g.tops[k]].lr;
         q != p.a.t.final && !Defaulted(p.a, q) && IsToken(p.a, yychar) && p.conflicts(q, yychar) != []
    }

    /** A reduction of stack k while it is processed; the stack may end, or the parse. */
    method ReduceOn(k: nat, rule: int, ghost open: set<seq<int>>) returns (over: bool, r: Next)
      requires Holds() && StacksEven() && s.yysplitPoint != NONE && CanReduce(p.a, s.Now(), k, rule) && Neat(k)
      requires Searched(open) && Offered(k, rule, open)
      modifies s, s.yyitems, this`yyerrState, this`seen
      ensures s.yyitems == old(s.yyitems) || fresh(s.yyitems)
      ensures Kept() && (r.Halt? ==> Halted(r.outcome))
      ensures r.Proceed? ==>
                && Holds() && Reworked(p, old(s.Now()), k, s.Now(), yyposn, Past(), recovered, seen, open)
                && Tried(old(seen), StackOf(old(s.Now()), k), rule) && (over ==> k < |s.yytops| && s.yytops[k] == NONE)
      ensures r.Halt? ==> Abandons(r.outcome)
      ensures r != Halt(Outcome.Unfinished)
    {
      hide LrTables.Valid, Fits, Sound, Shape, InStep, CanReduce, Distinct, AllDeferred, Regular, Explores, Offering, Reworked,
        StackOf, After, Undecided;
      var flag, ok := ReduceStack(k, rule, open);
      if !ok {
        return true, Halt(NoMemory);
      }
      if flag == YyErr {
        yyerrState := 0;
        s.MarkStackDeleted(k);
        return true, Proceed;
      }
      if flag == YyOk {
        return false, Proceed;
      }
      return true, Halt(Ending(flag));
    }

    /** yysplitStack: a copy of stack k, which is to be reduced by the rule. */
    method SplitFor(k: nat, ghost rule: int, ghost open: set<seq<int>>) returns (new_: nat)
      requires Holds() && StacksEven() && k < |s.yytops| && StateAt(s.Now().items, s.yytops[k])
      requires IsState(p.a, s.Now().items[s.yytops[k]].lr) && Complete(p.a, s.Now().items[s.yytops[k]].lr, rule)
      requires Neat(-1) && Searched(open) && Offered(k, rule, open)
      modifies s
      ensures Holds() && StacksEven() && s.yysplitPoint != NONE && s.yyitems == old(s.yyitems) && Neat(new_)
      ensures new_ == |old(s.yytops)| == |s.yytops| - 1 && Extends(old(s.Now()), -1, s.Now())
      ensures CanReduce(p.a, s.Now(), new_, rule) && StackOf(s.Now(), new_) == StackOf(old(s.Now()), k)
      ensures Searched(open) && Offered(new_, rule, open)
    {
      hide LrTables.Valid, Fits, Sound, Shape, InStep, CanReduce, Extends, Complete, Distinct, AllDeferred, Regular, Explores, Offering,
        StackOf;
      ghost var g := s.Now();
      SplitWorks(p.a, g, k, yyposn, Past());
      if AllDeferred(p) {
        SplitDistinct(p.a, g, k);
      }
      SplitOffers(p, g, k, rule, yyposn, recovered, seen, open);
      new_ := s.SplitOffStack(k);
      CanReduceTop(p.a, s.Now(), new_, rule, Past());
    }

    /** One conflict of stack k: a copy of it is reduced by the other rule, and then processed. */
    method TryRule(k: nat, rule: int, fuel: nat, ghost open: set<seq<int>>) returns (r: Next)
      requires Holds() && StacksEven() && k < |s.yytops| && StateAt(s.Now().items, s.yytops[k])
      requires IsState(p.a, s.Now().items[s.yytops[k]].lr) && Complete(p.a, s.Now().items[s.yytops[k]].lr, rule)
      requires IsToken(p.a, yychar) && Neat(-1) && Searched(open) && Offered(k, rule, open)
      modifies s, s.yyitems, this`yyerrState, this`yychar, this`yylval, this`yyread, this`seen, this`turns
      ensures s.yyitems == old(s.yyitems) || fresh(s.yyitems)
      ensures Kept() && yychar == old(yychar) && (r.Halt? ==> Halted(r.outcome))
      ensures r.Proceed? ==>
                && Holds() && StacksEven() && s.yysplitPoint != NONE && Extends(old(s.Now()), -1, s.Now())
                && DoneFrom(p.a, s.Now(), |old(s.yytops)|, yychar) && Neat(-1)
                && Searched(open) && Tried(old(seen), StackOf(old(s.Now()), k), rule)
      ensures r.Halt? ==> Abandons(r.outcome)
      ensures old(turns) <= turns && (r == Halt(Outcome.Unfinished) ==> old(turns) + fuel <= turns)
      decreases fuel, 1
    {
      hide LrTables.Valid, Fits, Sound, Shape, InStep, CanReduce, Extends, Complete, Done, Distinct, AllDeferred, Regular,
        Explores, Offering, TopOf, StackOf, After, Abandons, Halted;
      ghost var g0 := s.Now();
      var new_ := SplitFor(k, rule, open);
      ghost var g1 := s.Now();
      var over;
      over, r := ReduceOn(new_, rule, open);
      if r.Halt? {
        return;
      }
      ghost var g2 := s.Now();
      ExtendsTransitive(g0, -1, g1, new_, g2);
      if !over {
        r := ProcessOneStack(new_, fuel, open);
        if r.Halt? {
          return;
        }
        ExtendsTransitive(g0, -1, g2, new_, s.Now());
        DoneTail(p.a, s.Now(), new_, yychar);
      } else {
        DoneDead(p.a, g2, new_, yychar);
        DeadExplores(p, g2, new_, yyposn, recovered, seen, open);
      }
    }

    /** The first n rules in conflict have been tried on the stack. */
    ghost predicate TriedTo(stack: seq<int>, q: int, n: int)
      reads this`yychar, this`recovered, this`seen
    {
      Regular(p) && !recovered ==> forall i :: 0 <= i < n && i < |p.conflicts(q, yychar)| ==> After(p.a, stack, p.conflicts(q, yychar)[i]) in seen
    }

    /** The loop over the conflicts of stack k on the lookahead. */
    method TryConflicts(k: nat, q: int, fuel: nat, ghost open: set<seq<int>>) returns (r: Next)
      requires Holds() && StacksEven() && k < |s.yytops| && StateAt(s.Now().items, s.yytops[k])
      requires q == s.Now().items[s.yytops[k]].lr && IsState(p.a, q) && q != p.a.t.final && IsToken(p.a, yychar)
      requires (s.yysplitPoint != NONE || p.conflicts(q, yychar) != []) && Neat(-1)
      requires Searched(open) && TopOf(s.Now(), k) <= open && !Defaulted(p.a, q)
      modifies s, s.yyitems, this`yyerrState, this`yychar, this`yylval, this`yyread, this`seen, this`turns
      ensures s.yyitems == old(s.yyitems) || fresh(s.yyitems)
      ensures Kept() && yychar == old(yychar) && (r.Halt? ==> Halted(r.outcome))
      ensures r.Proceed? ==>
                && Holds() && StacksEven() && s.yysplitPoint != NONE && Extends(old(s.Now()), -1, s.Now())
                && DoneFrom(p.a, s.Now(), |old(s.yytops)|, yychar) && Neat(-1)
                && Searched(open) && Prepares(StackOf(old(s.Now()), k), q, Action(p.a, q, yychar))
      ensures r.Proceed? ==> old(seen) <= seen
      ensures r.Halt? ==> Abandons(r.outcome)
      ensures old(turns) <= turns && (r == Halt(Outcome.Unfinished) ==> old(turns) + fuel <= turns)
      decreases fuel, 2
    {
      hide LrTables.Valid, Fits, Sound, Shape, InStep, Extends, Complete, Done, Distinct, AllDeferred, Regular, Explores,
        TopOf, StackOf, After, LrTables.LrAction, Abandons, Halted, Offering, NeverAccepts, Undecided;
      ghost var g := s.Now();
      var yyconflicts := p.conflicts(q, yychar);
      var i := 0;
      ExtendsSelf(g, -1);
      while i < |yyconflicts|
        invariant i <= |yyconflicts| && (s.yyitems == old(s.yyitems) || fresh(s.yyitems))
        invariant Holds() && StacksEven() && yychar == old(yychar) && Extends(g, -1, s.Now()) && Neat(-1)
        invariant DoneFrom(p.a, s.Now(), |g.tops|, yychar) && (i > 0 || g.split != NONE ==> s.yysplitPoint != NONE)
        invariant Searched(open) && TriedTo(StackOf(g, k), q, i) && old(seen) <= seen && old(turns) <= turns
      {
        ghost var g1, was := s.Now(), seen;
        NextConflict(p, g, g1, k, q, i, yychar, yyposn, open);
        r := TryRule(k, yyconflicts[i], fuel, open);
        if r.Halt? {
          return;
        }
        ExtendsTransitive(g, -1, g1, -1, s.Now());
        DoneFromStays(p.a, g1, -1, s.Now(), |g.tops|, yychar, yychar);
        i := i + 1;
      }
      r := Proceed;
    }

    /** One turn of the loop of yyprocessOneStack. */
    method ProcessTurn(k: nat, fuel: nat, ghost open: set<seq<int>>) returns (over: bool, r: Next)
      requires Holds() && StacksEven() && k < |s.yytops| && s.yytops[k] != NONE
      requires (s.yysplitPoint != NONE || Forks(k)) && Neat(-1) && Searched(open + TopOf(s.Now(), k))
      modifies s, s.yyitems, this`yyerrState, this`yychar, this`yylval, this`yyread, this`seen, this`turns
      ensures s.yyitems == old(s.yyitems) || fresh(s.yyitems)
      ensures Kept() && Keeps(old(yychar), yychar) && (r.Halt? ==> Halted(r.outcome))
      ensures r.Proceed? ==>
                && Holds() && StacksEven() && s.yysplitPoint != NONE && Extends(old(s.Now()), k, s.Now()) && Neat(-1)
                && DoneFrom(p.a, s.Now(), |old(s.yytops)|, yychar) && (over ==> Done(p.a, s.Now(), k, yychar))
                && Searched(if over then open else open + TopOf(s.Now(), k))
      ensures r.Proceed? ==> old(seen) <= seen
      ensures r.Halt? ==> Abandons(r.outcome)
      ensures old(turns) <= turns && (r == Halt(Outcome.Unfinished) ==> old(turns) + fuel <= turns)
      decreases fuel, 4
    {
      hide LrTables.Valid, Fits, Sound, Shape, InStep, Extends, Complete, Done, CanReduce, Distinct, AllDeferred, Regular,
        Explores, TopOf, StackOf, After, Prepared, LrTables.LrAction, NeverAccepts, Undecided;
      ghost var g := s.Now();
      var yystate := TopState(k);
      if AllDeferred(p) {
        DescendingIn(p.a, g, Past());
        DistinctWeaker(p.a, g, k);
      }
      if yystate == p.a.t.final {
        return true, Halt(AssertionFails);
      }
      if Defaulted(p.a, yystate) {
        ReduceFacts(p.a, yystate);
        DefaultNeverShifts(p.a, yystate);
        ExtendsSelf(g, -1);
        DefaultPrepares(p, StackOf(g, k), yystate, yyposn, seen);
        over, r := TakeAction(k, yystate, DefaultAction(p.a, yystate), g, open);
      } else {
        over, r := TurnOnToken(k, yystate, fuel, open);
      }
    }

    /** The same, in a state that looks at the token. */
    method TurnOnToken(k: nat, q: int, fuel: nat, ghost open: set<seq<int>>) returns (over: bool, r: Next)
      requires Holds() && StacksEven() && k < |s.yytops| && StateAt(s.Now().items, s.yytops[k])
      requires q == s.Now().items[s.yytops[k]].lr && IsState(p.a, q) && q != p.a.t.final && !Defaulted(p.a, q)
      requires (s.yysplitPoint != NONE || Forks(k)) && Neat(-1) && Searched(open + TopOf(s.Now(), k))
      modifies s, s.yyitems, this`yyerrState, this`yychar, this`yylval, this`yyread, this`seen, this`turns
      ensures s.yyitems == old(s.yyitems) || fresh(s.yyitems)
      ensures Kept() && Keeps(old(yychar), yychar) && (r.Halt? ==> Halted(r.outcome))
      ensures r.Proceed? ==>
                && Holds() && StacksEven() && s.yysplitPoint != NONE && Extends(old(s.Now()), k, s.Now()) && Neat(-1)
                && DoneFrom(p.a, s.Now(), |old(s.yytops)|, yychar) && (over ==> Done(p.a, s.Now(), k, yychar))
                && Searched(if over then open else open + TopOf(s.Now(), k))
      ensures r.Proceed? ==> old(seen) <= seen
      ensures r.Halt? ==> Abandons(r.outcome)
      ensures old(turns) <= turns && (r == Halt(Outcome.Unfinished) ==> old(turns) + fuel <= turns)
      decreases fuel, 3
    {
      hide LrTables.Valid, Fits, Sound, Shape, InStep, Extends, Complete, Done, CanReduce, Distinct, AllDeferred, Regular, Explores,
        TopOf, StackOf, After, Prepared, LrTables.LrAction, NeverAccepts, Abandons, Halted;
      ghost var g := s.Now();
      s.Need(k);
      NeedWorks(p.a, g, s.yylookaheadNeeds, yyposn, Past());
      if AllDeferred(p) {
        DistinctSame(p.a, g, s.Now(), -1);
      }
      GetToken();
      ghost var g1 := s.Now();
      NeedExplores(p, g, g1, k, yyposn, recovered, seen, open + TopOf(g, k));
      r := TryConflicts(k, q, fuel, open + TopOf(g, k));
      if r.Halt? {
        return true, r;
      }
      ExtendsTransitive(g, -1, g1, -1, s.Now());
      ReduceFacts(p.a, q);
      over, r := TakeAction(k, q, Action(p.a, q, yychar), g, open);
    }

    /** The action of the table itself: the stack is done if it is to shift, dies on an error, and is
        reduced otherwise. */
    method TakeAction(k: nat, q: int, action: LrTables.Action, ghost g: Gss<V>, ghost open: set<seq<int>>)
      returns (over: bool, r: Next)
      requires Holds() && StacksEven() && s.yysplitPoint != NONE && Extends(g, -1, s.Now()) && Neat(-1)
      requires k < |g.tops| && StateAt(g.items, g.tops[k]) && q == g.items[g.tops[k]].lr && IsState(p.a, q)
      requires action.Reduce? ==> Complete(p.a, q, action.rule)
      requires action.Shift? ==> IsToken(p.a, yychar) && action == Action(p.a, q, yychar)
      requires DoneFrom(p.a, s.Now(), |g.tops|, yychar)
      requires q != p.a.t.final && Searched(open + TopOf(g, k)) && Prepares(StackOf(g, k), q, action)
      modifies s, s.yyitems, this`yyerrState, this`seen
      ensures s.yyitems == old(s.yyitems) || fresh(s.yyitems)
      ensures Kept() && (r.Halt? ==> Halted(r.outcome))
      ensures r.Proceed? ==>
                && Holds() && StacksEven() && s.yysplitPoint != NONE && Extends(g, k, s.Now()) && Neat(-1)
                && DoneFrom(p.a, s.Now(), |g.tops|, yychar) && (over ==> Done(p.a, s.Now(), k, yychar))
                && Searched(if over then open else open + TopOf(s.Now(), k))
      ensures r.Proceed? ==> old(seen) <= seen
      ensures r.Halt? ==> Abandons(r.outcome)
      ensures r != Halt(Outcome.Unfinished)
    {
      hide LrTables.Valid, Fits, Sound, Shape, InStep, Extends, Complete, CanReduce, DoneFrom, Distinct, AllDeferred, Regular,
        Explores, TopOf, StackOf, After, Prepared, Offering, Goes, NeverAccepts, Abandons, Halted;
      ghost var g1, was := s.Now(), seen;
      if AllDeferred(p) {
        DescendingIn(p.a, g1, Past());
        DistinctWeaker(p.a, g1, k);
      }
      ExtendsSize(g, -1, g1);
      SameTop(g, -1, g1, k);
      ExtendsWeaker(g, k, g1);
      SearchStays(g, g1, k);
      StackGoes(p, g1, k, q, yyposn, Past());
      match action {
        case Shift(_) =>
          ShiftCloses(p, g1, k, q, yyposn, recovered, seen, open, action);
          over, r := true, Proceed;
        case Error =>
          DeleteWorks(p.a, g1, k, yyposn, Past());
          ErrorCloses(p, g1, k, q, yyposn, recovered, seen, open, action);
          if AllDeferred(p) {
            DeleteDistinct(p.a, g1, k);
          }
          s.MarkStackDeleted(k);
          over, r := true, Proceed;
          ExtendsTransitive(g, k, g1, k, s.Now());
          DoneNew(p.a, g1, k, s.Now(), |g.tops|, yychar);
        case Reduce(rule) =>
          CanReduceTop(p.a, g1, k, rule, Past());
          if Regular(p) && !recovered {
            PreparedOffers(p, g1, k, q, yyposn, seen, rule, open + TopOf(g, k));
          }
          over, r := ReduceOn(k, rule, open + TopOf(g, k));
          if r.Proceed? {
            ExtendsTransitive(g, k, g1, k, s.Now());
            DoneNew(p.a, g1, k, s.Now(), |g.tops|, yychar);
            ReduceEnds(p, g1, k, q, s.Now(), yyposn, recovered, was, seen, open, rule);
            if over {
              DeadExplores(p, s.Now(), k, yyposn, recovered, seen, open);
            }
          }
      }
    }

    /** yyprocessOneStack: stack k, and all stacks that split off from it, reduce until they die or are
        to shift the lookahead. The other stacks stay. */
    method ProcessOneStack(k: nat, fuel: nat, ghost open: set<seq<int>>) returns (r: Next)
      requires Holds() && StacksEven() && k < |s.yytops| && Neat(-1)
      requires (s.yysplitPoint != NONE || Forks(k)) && Searched(open + TopOf(s.Now(), k))
      modifies s, s.yyitems, this`yyerrState, this`yychar, this`yylval, this`yyread, this`seen, this`turns
      ensures s.yyitems == old(s.yyitems) || fresh(s.yyitems)
      ensures Kept() && Keeps(old(yychar), yychar) && (r.Halt? ==> Halted(r.outcome))
      ensures r.Proceed? ==>
                && Holds() && StacksEven() && s.yysplitPoint != NONE && Extends(old(s.Now()), k, s.Now()) && Neat(-1)
                && DoneFrom(p.a, s.Now(), |old(s.yytops)|, yychar) && Done(p.a, s.Now(), k, yychar) && Searched(open)
      ensures r.Proceed? ==> old(seen) <= seen
      ensures r.Halt? ==> Abandons(r.outcome)
      ensures old(turns) <= turns && (r == Halt(Outcome.Unfinished) ==> old(turns) + fuel <= turns)
      decreases fuel, 0
    {
      hide LrTables.Valid, Fits, Sound, Shape, InStep, Extends, Done, Distinct, AllDeferred, Regular, Explores, TopOf, NeverAccepts;
      ghost var g := s.Now();
      ExtendsSelf(g, k);
      var n: nat := fuel;
      while s.yytops[k] != NONE
        invariant n <= fuel && (s.yyitems == old(s.yyitems) || fresh(s.yyitems)) && k < |s.yytops|
        invariant Holds() && StacksEven() && Keeps(old(yychar), yychar) && Extends(g, k, s.Now()) && Neat(-1)
        invariant (s.yysplitPoint != NONE || (Forks(k) && s.Now() == g)) && DoneFrom(p.a, s.Now(), |g.tops|, yychar)
        invariant Searched(open + TopOf(s.Now(), k)) && old(seen) <= seen && old(turns) + fuel <= turns + n
        decreases n
      {
        if n == 0 {
          return Halt(Outcome.Unfinished);
        }
        n, turns := n - 1, turns + 1;
        ghost var g1, c := s.Now(), yychar;
        var over;
        over, r := ProcessTurn(k, n, open);
        if r.Halt? {
          return;
        }
        ExtendsTransitive(g, k, g1, k, s.Now());
        ExtendsSize(g, k, s.Now());
        ExtendsSize(g, k, g1);
        DoneFromStays(p.a, g1, k, s.Now(), |g.tops|, c, yychar);
        if over {
          return Proceed;
        }
      }
      DoneDead(p.a, s.Now(), k, yychar);
      DeadExplores(p, s.Now(), k, yyposn, recovered, seen, open);
      r := Proceed;
    }

    /** What holds when a round begins. */
    ghost predicate Starts()
      requires s.Allocated()
      reads this, s, s.yyitems
    {
      StacksEven() && (s.yysplitPoint != NONE || (|s.yytops| == 1 && Forks(0))) && Neat(-1) && Searched(OpenFrom(s.Now(), 0))
    }

    /** All stacks are processed, also those that split off on the way. */
    method ProcessAllStacks(fuel: nat) returns (r: Next)
      requires Holds() && Starts()
      modifies s, s.yyitems, this`yyerrState, this`yychar, this`yylval, this`yyread, this`seen, this`turns
      ensures s.yyitems == old(s.yyitems) || fresh(s.yyitems)
      ensures Kept() && (r.Halt? ==> Halted(r.outcome))
      ensures r.Proceed? ==>
                && Holds() && StacksEven() && s.yysplitPoint != NONE && DoneTo(p.a, s.Now(), |s.yytops|, yychar) && Neat(-1)
                && Searched({})
      ensures r.Halt? ==> Abandons(r.outcome)
      ensures old(turns) <= turns && (r == Halt(Outcome.Unfinished) ==> old(turns) + fuel <= turns)
    {
      hide LrTables.Valid, Fits, Sound, Shape, InStep, Extends, Done, Distinct, AllDeferred, Regular, Explores, TopOf, OpenFrom,
        NeverAccepts;
      var yys := 0;
      var n: nat := fuel;
      while yys < |s.yytops|
        invariant yys <= |s.yytops| && (s.yyitems == old(s.yyitems) || fresh(s.yyitems))
        invariant Holds() && StacksEven() && DoneTo(p.a, s.Now(), yys, yychar) && Neat(-1)
        invariant s.yysplitPoint != NONE || (yys == 0 && |s.yytops| == 1 && Forks(0))
        invariant Searched(OpenFrom(s.Now(), yys)) && n <= fuel && old(turns) + fuel <= turns + n
        decreases n
      {
        if n == 0 {
          return Halt(Outcome.Unfinished);
        }
        n, turns := n - 1, turns + 1;
        ghost var g, c := s.Now(), yychar;
        ghost var open := OpenFrom(g, yys + 1);
        OpenTop(p.a, g, yys, Past());
        r := ProcessOneStack(yys, n, open);
        if r.Halt? {
          return;
        }
        OpenLater(g, yys, s.Now(), yys + 1);
        OpenedExplores(p, s.Now(), yyposn, recovered, seen, open, OpenFrom(s.Now(), yys + 1));
        ExtendsSize(g, yys, s.Now());
        DoneToStays(p.a, g, yys, s.Now(), c, yychar);
        yys := yys + 1;
      }
      NothingOpen(s.Now());
      r := Proceed;
    }

    /** The token is shifted on one of the stacks; those before it have shifted it. */
    method ShiftStack(yys: nat, token: int, ghost g: Gss<V>, ghost posn: nat, ghost several: bool) returns (ok: bool)
      requires Holds() && yyposn == posn + 1 && yys < |s.yytops| == |g.tops|
      requires Shifting(p.a, g, s.Now(), yys, token, posn, Past()) && AllReady(p.a, g, token, posn)
      requires Past().input.Some? ==> Past().input.value(posn) == token
      requires several ==> token != LrTables.EOF_TOKEN && Advancing(p.a, g, s.Now(), yys, posn)
      modifies s, s.yyitems
      ensures s.yyitems == old(s.yyitems) || fresh(s.yyitems)
      ensures Kept() && (if ok then Holds() else NoRoom()) && |s.yytops| == |g.tops|
      ensures Shifting(p.a, g, s.Now(), yys + 1, token, posn, Past())
      ensures several ==> Advancing(p.a, g, s.Now(), yys + 1, posn)
    {
      hide LrTables.Valid, Fits, Sound, Shape, Shifting, Ready, AllReady, CanPush, ShiftTo, Advancing, LrTables.LrAction;
      ghost var g', h := s.Now(), Past();
      ShiftFits(p.a, g, g', yys, token, posn, h);
      ReadyFacts(p.a, g'.items, s.yytops[yys], token);
      var q := Action(p.a, s.yyitems[s.yytops[yys]].lr, token).state;
      ok := s.GlrShift(yys, q, yyposn, yylval);
      ShiftOne(p.a, g, g', yys, token, posn, yylval, h, s.stale);
      ShiftingSound(p.a, g, s.Now(), yys + 1, token, posn, h);
      if several {
        OtherToken(p.a, g'.items[g'.tops[yys]].lr, token);
        AdvanceOne(p.a, g, g', yys, q, posn, Resolved(yylval));
        AdvancingSame(p.a, g, PushState(g', yys, q, posn + 1, Resolved(yylval)), s.Now(), yys + 1, posn);
      }
    }

    /** The token is shifted on all stacks. */
    method ShiftAllStacks() returns (ok: bool)
      requires Holds() && AllReady(p.a, s.Now(), yychar, yyposn) && s.yytops != [] && Neat(-1) && Searched({})
      modifies s, s.yyitems, this`yychar, this`yyposn, this`seen
      ensures s.yyitems == old(s.yyitems) || fresh(s.yyitems)
      ensures Kept() && (if ok then Holds() else NoRoom())
      ensures ok ==> StacksEven() && |s.yytops| == |old(s.yytops)| && s.yysplitPoint == old(s.yysplitPoint)
      ensures ok ==> forall i :: 0 <= i < |s.yytops| ==> StateAt(s.Now().items, s.yytops[i])
      ensures ok && |s.yytops| > 1 ==> Neat(-1)
      ensures ok ==> Searched(OpenFrom(s.Now(), 0)) && yychar == Y.YYEMPTY && yyposn == old(yyposn) + 1
    {
      hide LrTables.Valid, Fits, Sound, Shape, InStep, Shifting, Ready, AllReady, CanPush, ShiftTo, Distinct, AllDeferred, Advancing,
        Explores, Regular, OpenFrom, NeverAccepts;
      ghost var g, posn, h := s.Now(), yyposn, Past();
      ReadyToken(p.a, g, yychar, yyposn);
      var token := yychar;
      yychar := Y.YYEMPTY;
      yyposn := yyposn + 1;
      ShiftStart(p.a, g, token, posn, h);
      ghost var several := AllDeferred(p) && token != LrTables.EOF_TOKEN;
      if AllDeferred(p) {
        AdvanceStarts(p, g, token, posn, h);
      }
      for yys := 0 to |s.yytops|
        invariant (s.yyitems == old(s.yyitems) || fresh(s.yyitems)) && |s.yytops| == |g.tops|
        invariant Holds() && yychar == Y.YYEMPTY && yyposn == posn + 1 && Shifting(p.a, g, s.Now(), yys, token, posn, h)
        invariant (several ==> Advancing(p.a, g, s.Now(), yys, posn)) && seen == old(seen)
      {
        ok := ShiftStack(yys, token, g, posn, several);
        if !ok {
          return;
        }
      }
      ShiftingSound(p.a, g, s.Now(), |g.tops|, token, posn, h);
      ShiftEnd(p.a, g, s.Now(), token, posn, h);
      ShiftedSearch(p, g, s.Now(), token, posn, h, recovered, seen);
      seen := OpenFrom(s.Now(), 0);
      if several {
        AdvancedDistinct(p.a, g, s.Now(), posn);
      }
      ok := true;
    }

    // -------------------------------------------------------------- resolution

    /** yyresolveStates for the n topmost states from t down, over the items of the stack. */
    method ResolveAbove(t: int, n: nat, fuel: nat) returns (res: Resolution)
      requires Kept() && !actionFailed && RhsFits(s.Now().items, t, n)
      modifies s.yyitems, this`yyerrState, this`actionFailed
      ensures Kept() && SameFrame(old(s.Now().items), s.Now().items) && s.Now() == old(s.Now()).(items := s.Now().items)
      ensures actionFailed == !res.Resolves? && Blamed(ActionsOf(p), res)
      ensures yyerrState == if res == ActionFails(YyErr) then 0 else old(yyerrState)
      ensures RhsFits(s.Now().items, t, n) && (res.Resolves? ==> TopResolved(s.Now().items, t, n))
    {
      hide LrTables.Valid, Fits, Sound, Shape, Within, Went, Covered, RhsFits, TopResolved, WholeScope, Blamed;
      ghost var g := s.Now();
      var m := ActionsOf(p);
      ghost var k := WholeScope(g.items);
      SoundParts(p.a, g, Past());
      WholeWithin(p.a, g.items, m.r);
      WholeCovers(g.items, t, n);
      res := ResolveStates(s.yyitems, s.yynextFree, t, n, m, fuel, k);
      ResolutionSound(p.a, g, s.yyitems[..s.yynextFree], m.r, k, res, Past());
      FrameShape(g, s.yyitems[..s.yynextFree]);
      if !res.Resolves? {
        actionFailed := true;
        if res == ActionFails(YyErr) {
          yyerrState := 0;
        }
      }
    }

    /** Whether one of the n topmost states from t down has no value. */
    method AnyOpen(t: int, n: nat) returns (b: bool)
      requires Kept() && RhsFits(s.Now().items, t, n)
    {
      hide LrTables.Valid, Fits, Sound, Shape, Descending;
      ghost var items := s.Now().items;
      var yys := t;
      for i := 0 to n
        invariant RhsFits(items, yys, n - i)
      {
        if s.yyitems[yys].sem.Unresolved? {
          return true;
        }
        PathStep(items, yys);
        yys := s.yyitems[yys].pred;
      }
      b := false;
    }

    /** yyresolveStack: the states above the split point. `lost` is set if there is something to resolve
        after an action has failed, as the alternatives may be gone. */
    method ResolveStack(fuel: nat) returns (res: Resolution, lost: bool)
      requires Kept() && Standard(p.a, s.Now(), Past())
      modifies s.yyitems, this`yyerrState, this`actionFailed
      ensures Kept() && SameFrame(old(s.Now().items), s.Now().items) && s.Now() == old(s.Now()).(items := s.Now().items)
      ensures lost ==> old(actionFailed) && actionFailed
      ensures !lost ==> Resting(p.a, s.Now(), Past())
      ensures (if res.Resolves? then actionFailed == old(actionFailed) else actionFailed) && Blamed(ActionsOf(p), res)
      ensures yyerrState == if res == ActionFails(YyErr) then 0 else old(yyerrState)
    {
      hide LrTables.Valid, Fits, Sound, Shape, Descending, SameFrame, Path, StackSettled, TopResolved, Undecided;
      ghost var g := s.Now();
      DescendingIn(p.a, g, Past());
      res, lost := Resolves, false;
      FrameSelf(g.items);
      if s.yysplitPoint != NONE {
        LiveTop(g, 0);
        var n := CountAbove(s.yytops[0]);
        if actionFailed {
          lost := AnyOpen(s.yytops[0], n);
        } else {
          res := ResolveAbove(s.yytops[0], n, fuel);
          FrameAt(g.items, s.Now().items, s.yytops[0]);
          if res.Resolves? {
            FrameChains(g.items, s.Now().items);
            SamePath(g.items, s.Now().items, s.yytops[0]);
            ResolvedRests(p.a, s.Now(), n, Past());
          }
        }
      } else if !actionFailed {
        SingleSettled(p.a, g, Past());
      }
    }

    /** The number of states from t down to the split point. */
    method CountAbove(t: int) returns (n: nat)
      requires Kept() && s.yysplitPoint != NONE && IsTop(s.Now().items, s.yysplitPoint, t)
      ensures Descending(s.Now().items) && n < |Path(s.Now().items, t)| == s.yysplitPoint + 1 + n
    {
      hide LrTables.Valid, Fits, Sound, Shape, Descending, Path;
      ghost var g := s.Now();
      SplitFacts(g, t);
      n := 0;
      var yys := t;
      while yys != s.yysplitPoint
        invariant IsTop(g.items, g.split, yys) && n + |Path(g.items, yys)| == |Path(g.items, t)|
        decreases yys
      {
        SplitFacts(g, yys);
        PathStep(g.items, yys);
        yys := s.yyitems[yys].pred;
        n := n + 1;
      }
      SplitFacts(g, yys);
    }

    /** yycompressStack, with one stack left. */
    method Compressed()
      requires Holds() && Resting(p.a, s.Now(), Past())
      modifies s, s.yyitems
      ensures Holds() && Resting(p.a, s.Now(), Past()) && s.yysplitPoint == NONE && s.yyitems == old(s.yyitems)
      ensures s.Now().items[s.yytops[0]].posn == old(s.Now().items[s.yytops[0]].posn)
      ensures SingleSpine(s.Now()) == old(SingleSpine(s.Now()))
    {
      hide LrTables.Valid, Fits, Sound, Shape, Descending, Compress, StackSettled, SingleSpine;
      ghost var g := s.Now();
      DescendingIn(p.a, g, Past());
      CompressSound(p.a, g, Past());
      CompressSpine(p.a, g, Past());
      CompressShrinks(g);
      s.CompressStack();
      if !actionFailed {
        SingleSettled(p.a, s.Now(), Past());
      }
    }

    // -------------------------------------------------------------- the two modes

    /** yyreportSyntaxError; a verbose message names the state on top of the first stack. */
    method ReportSyntaxError()
      requires s.yytops != [] && s.yytops[0] != NONE
      modifies this`yynerrs
      ensures yynerrs == old(yynerrs) + if yyerrState == 0 then 1 else 0
    {
      if yyerrState != 0 {
        return;
      }
      yynerrs := yynerrs + 1;
    }

    /** What holds when control leaves a mode. If all actions return normally, there is no syntax error
        as long as some run comes to the final state, and the parse is accepted where one does. */
    ghost predicate Leaves(turn: Turn)
      reads this, s, s.yyitems
    {
      match turn
      case Switch => Holds()
      case UserError => Holds() && Resting(p.a, s.Now(), Past()) && (Regular(p) ==> NeverAccepts(SearchOf(p)))
      case Stop(o) =>
        && Kept() && Halted(o) && (o == AssertionFails ==> !AllDeferred(p)) && (o == Undefined ==> recovered) && Failing(o)
        && (Regular(p) && recovered ==> NeverAccepts(SearchOf(p)))
        && (o == Accepted ==> Calm(p.a, s.Now(), yyposn, Past()) && s.Now().items[s.yytops[0]].lr == p.a.t.final)
        && (o == Accepted && Regular(p) && !recovered ==> AcceptsAt(SearchOf(p), yyposn))
    }

    /** The single stack is resolved, or the parse is over; otherwise an action may have ended in YYERROR. */
    method ResolveOrStop(fuel: nat) returns (res: Resolution, end: Next)
      requires Holds() && Standard(p.a, s.Now(), Past()) && (actionFailed ==> recovered)
      requires Regular(p) && recovered ==> NeverAccepts(SearchOf(p))
      modifies s.yyitems, this`yyerrState, this`actionFailed, this`tired
      ensures Kept() && SameFrame(old(s.Now().items), s.Now().items) && s.Now() == old(s.Now()).(items := s.Now().items)
      ensures end.Halt? ==> Leaves(Stop(end.outcome)) && (end.outcome == Outcome.Unfinished ==> tired)
      ensures end.Proceed? ==> Holds() && Resting(p.a, s.Now(), Past()) && (!res.Resolves? ==> !Regular(p))
      ensures res.Resolves? ==> actionFailed == old(actionFailed) && yyerrState == old(yyerrState)
      ensures old(tired) ==> tired
    {
      hide LrTables.Valid, Fits, Sound, Shape, Descending, StackSettled, SameFrame, Regular, NeverAccepts, Blamed, Undecided, AllDeferred,
        Standard;
      var lost;
      res, lost := ResolveStack(fuel);
      BlameFits(p, res);
      tired := tired || res.Tired?;
      if lost {
        return res, Halt(Undefined);
      }
      end := if Ends(res) then Halt(EndOf(res)) else Proceed;
    }

    /** All stacks have died: the last one is brought back and resolved, and the error is reported. The
        pointer to it is never a stale one, and it is never missing. */
    method AllDied(fuel: nat) returns (turn: Turn)
      requires Holds() && s.yysplitPoint != NONE && s.yytops == [] && Searched({})
      modifies s, s.yyitems, this`yyerrState, this`actionFailed, this`yynerrs, this`tired
      ensures s.yyitems == old(s.yyitems) && Leaves(turn) && turn != Switch
      ensures turn == UserError && Regular(p) ==> yynerrs == old(yynerrs) + if old(yyerrState) == 0 then 1 else 0
      ensures (old(tired) ==> tired) && (turn == Stop(Outcome.Unfinished) ==> tired)
    {
      hide LrTables.Valid, Fits, Sound, Shape, Descending, StackSettled, SameFrame, Explores, Regular, NeverAccepts, Undecided, AllDeferred;
      if Regular(p) {
        AllDeadExplores(p, s.Now(), yyposn, recovered, seen);
      }
      UndeleteSound(p.a, s.Now(), Past());
      s.UndeleteLastStack();
      var res, end := ResolveOrStop(fuel);
      if end.Halt? {
        return Stop(end.outcome);
      }
      if res.Resolves? {
        ReportSyntaxError();
      }
      turn := UserError;
    }

    /** One stack is left after a shift: it is resolved, and becomes a stack without gaps. */
    method Rejoin(fuel: nat) returns (turn: Turn)
      requires Holds() && Standard(p.a, s.Now(), Past()) && s.Now().items[s.yytops[0]].posn == yyposn
      requires Searched(OpenFrom(s.Now(), 0))
      modifies s, s.yyitems, this`yyerrState, this`actionFailed, this`tired
      ensures s.yyitems == old(s.yyitems) && Leaves(turn)
      ensures turn == Switch ==> Calm(p.a, s.Now(), yyposn, Past()) && s.yysplitPoint == NONE && Searched(OpenFrom(s.Now(), 0))
      ensures (old(tired) ==> tired) && (turn == Stop(Outcome.Unfinished) ==> tired)
    {
      hide LrTables.Valid, Fits, Sound, Shape, Descending, StackSettled, SameFrame, Explores, Regular, NeverAccepts, Undecided, AllDeferred,
        OpenFrom, SingleSpine;
      ghost var g := s.Now();
      RecoveredRejects(p, g, yyposn, recovered, seen, OpenFrom(g, 0));
      var res, end := ResolveOrStop(fuel);
      if end.Halt? {
        return Stop(end.outcome);
      }
      if !res.Resolves? {
        return UserError;
      }
      FrameAt(g.items, s.Now().items, s.yytops[0]);
      FrameSpine(g, s.Now());
      Compressed();
      SingleExplores(p, g, s.Now(), yyposn, recovered, seen);
      turn := Switch;
    }

    /** The flags for the lookahead are set at the start of a round. */
    method StartRound()
      requires Holds() && Starts()
      modifies s
      ensures s.yyitems == old(s.yyitems) && Holds() && Starts()
    {
      hide LrTables.Valid, Fits, Sound, Shape, InStep, Descending, Distinct, AllDeferred, Explores, OpenFrom;
      ghost var g := s.Now();
      s.SetNeeds(yychar != Y.YYEMPTY);
      NeedWorks(p.a, g, s.yylookaheadNeeds, yyposn, Past());
      OpenSame(g, s.Now(), 0);
      SameExplores(p, g, s.Now(), yyposn, recovered, seen, OpenFrom(g, 0));
      if AllDeferred(p) {
        DistinctSame(p.a, g, s.Now(), -1);
      }
    }

    /** The stacks that died are taken out. */
    method DropDead()
      requires Holds() && StacksEven() && s.yysplitPoint != NONE && DoneTo(p.a, s.Now(), |s.yytops|, yychar) && Neat(-1) && Searched({})
      modifies s
      ensures s.yyitems == old(s.yyitems) && Holds() && s.yysplitPoint != NONE && AllReady(p.a, s.Now(), yychar, yyposn)
      ensures Neat(-1) && Searched({})
    {
      hide LrTables.Valid, Fits, Sound, Shape, InStep, Descending, DoneTo, AllReady, RemoveDeletes, Distinct, AllDeferred, Explores;
      NeedsFit(s.Now());
      RemoveReady(p.a, s.Now(), yychar, yyposn, Past());
      RemoveExplores(p, s.Now(), yyposn, recovered, seen, {});
      if AllDeferred(p) {
        RemoveDistinct(p.a, s.Now());
      }
      s.RemoveDeletedStacks();
    }

    /** The first part of a round: all stacks are processed, and those that died are taken out. */
    method ProcessRound(fuel: nat) returns (r: Next)
      requires Holds() && Starts()
      modifies s, s.yyitems, this`yyerrState, this`yychar, this`yylval, this`yyread, this`seen, this`turns
      ensures s.yyitems == old(s.yyitems) || fresh(s.yyitems)
      ensures Kept() && (r.Halt? ==> Halted(r.outcome) && Abandons(r.outcome))
      ensures r.Proceed? ==>
                Holds() && s.yysplitPoint != NONE && AllReady(p.a, s.Now(), yychar, yyposn) && Neat(-1) && Searched({})
      ensures old(turns) <= turns && (r == Halt(Outcome.Unfinished) ==> old(turns) + fuel <= turns)
    {
      hide LrTables.Valid, Fits, Sound, Shape, InStep, DoneTo, AllReady, Explores, Distinct, AllDeferred, Starts, Abandons, Halted;
      StartRound();
      r := ProcessAllStacks(fuel);
      if r.Proceed? {
        DropDead();
      }
    }

    /** One round of nondeterministic operation, up to the next token. */
    method Round(fuel: nat) returns (over: bool, turn: Turn)
      requires Holds() && Starts()
      modifies this, s, s.yyitems
      ensures s.yyitems == old(s.yyitems) || fresh(s.yyitems)
      ensures over ==> Leaves(turn)
      ensures over && turn == Switch ==>
                Calm(p.a, s.Now(), yyposn, Past()) && s.yysplitPoint == NONE && Searched(OpenFrom(s.Now(), 0))
      ensures !over ==>
                && Holds() && StacksEven() && s.yysplitPoint != NONE && Neat(-1) && Searched(OpenFrom(s.Now(), 0))
                && |s.yytops| > 1 && yyposn == old(yyposn) + 1
      ensures old(turns) <= turns && (old(tired) ==> tired) && (turn == Stop(Outcome.Unfinished) ==> old(turns) + fuel <= turns || tired)
    {
      hide LrTables.Valid, Fits, Sound, Shape, InStep, Descending, AllReady, Resting, Distinct, AllDeferred, Explores, OpenFrom,
        NeverAccepts, Regular, Undecided;
      RecoveredRejects(p, s.Now(), yyposn, recovered, seen, OpenFrom(s.Now(), 0));
      var r := ProcessRound(fuel);
      if r.Halt? {
        return true, Stop(r.outcome);
      }
      if |s.yytops| == 0 {
        turn := AllDied(fuel);
        return true, turn;
      }
      var ok := ShiftAllStacks();
      if !ok {
        return true, Stop(NoMemory);
      }
      if |s.yytops| == 1 {
        EvenTop(p.a, s.Now(), yyposn, Past());
        turn := Rejoin(fuel);
        return true, turn;
      }
      over, turn := false, Switch;
    }

    /** The inner loop for several stacks. */
    method SeveralStacks(fuel: nat) returns (turn: Turn)
      requires Holds() && Starts()
      modifies this, s, s.yyitems
      ensures s.yyitems == old(s.yyitems) || fresh(s.yyitems)
      ensures Leaves(turn)
      ensures turn == Switch ==> Calm(p.a, s.Now(), yyposn, Past()) && s.yysplitPoint == NONE && Searched(OpenFrom(s.Now(), 0))
      ensures old(turns) <= turns && (old(tired) ==> tired) && (turn == Stop(Outcome.Unfinished) ==> old(turns) + fuel <= turns || tired)
    {
      hide LrTables.Valid, Fits, Sound, Shape, InStep, Calm, Resting, Explores, OpenFrom, NeverAccepts, Regular;
      for i := 0 to fuel
        invariant s.yyitems == old(s.yyitems) || fresh(s.yyitems)
        invariant Holds() && Starts() && old(turns) + i <= turns && (old(tired) ==> tired)
      {
        turns := turns + 1;
        var over;
        over, turn := Round(fuel);
        if over {
          return;
        }
      }
      RecoveredRejects(p, s.Now(), yyposn, recovered, seen, OpenFrom(s.Now(), 0));
      turn := Stop(Outcome.Unfinished);
    }

    /** yyglrReduce in standard mode. */
    method RunSingle(rule: int, ghost q: int) returns (flag: Flag, ok: bool)
      requires Holds() && Calm(p.a, s.Now(), yyposn, Past()) && CanReduce(p.a, s.Now(), 0, rule)
      requires Searched(OpenFrom(s.Now(), 0)) && q == s.Now().items[s.yytops[0]].lr && IsState(p.a, q) && q != p.a.t.final
      requires Prepares(StackOf(s.Now(), 0), q, LrTables.Reduce(rule))
      modifies s, s.yyitems, this`seen
      ensures s.yyitems == old(s.yyitems) || fresh(s.yyitems)
      ensures Kept() && (if ok then Holds() else NoRoom()) && (flag != YyOk ==> !Regular(p) && Resting(p.a, s.Now(), Past()))
      ensures flag == YyOk ==> Calm(p.a, s.Now(), yyposn, Past()) && Searched(OpenFrom(s.Now(), 0))
    {
      hide LrTables.Valid, Fits, Sound, Shape, CanReduce, RunsAction, StackSettled, Explores, OpenFrom, NeverAccepts, Regular, Prepared,
        StackOf, After;
      ghost var g := s.Now();
      flag, ok := s.GlrReduce(p.a, 0, rule, true, p.action, yylval);
      CalmReduction(p.a, g, rule, p.action, flag, s.Now(), yyposn, Past());
      SingleReduction(p, g, q, rule, flag, s.Now(), yyposn, Past(), recovered, seen);
      seen := seen + {After(p.a, StackOf(g, 0), rule)};
    }

    /** A reduction in standard mode. */
    method ReduceSingle(rule: int, ghost q: int) returns (over: bool, turn: Turn)
      requires Holds() && Calm(p.a, s.Now(), yyposn, Past()) && CanReduce(p.a, s.Now(), 0, rule)
      requires Searched(OpenFrom(s.Now(), 0)) && q == s.Now().items[s.yytops[0]].lr && IsState(p.a, q) && q != p.a.t.final
      requires Prepares(StackOf(s.Now(), 0), q, LrTables.Reduce(rule))
      modifies s, s.yyitems, this`yyerrState, this`seen
      ensures s.yyitems == old(s.yyitems) || fresh(s.yyitems)
      ensures over ==> Leaves(turn) && turn != Switch
      ensures !over ==> Holds() && Calm(p.a, s.Now(), yyposn, Past()) && Searched(OpenFrom(s.Now(), 0))
      ensures turn != Stop(Outcome.Unfinished)
    {
      hide LrTables.Valid, Fits, Sound, Shape, CanReduce, StackSettled, Explores, OpenFrom, NeverAccepts, Regular, Prepared, StackOf,
        Undecided, AllDeferred;
      RecoveredRejects(p, s.Now(), yyposn, recovered, seen, OpenFrom(s.Now(), 0));
      var flag, ok := RunSingle(rule, q);
      if !ok {
        return true, Stop(NoMemory);
      }
      match flag {
        case YyOk => over, turn := false, Switch;
        case YyErr =>
          yyerrState := 0;
          over, turn := true, UserError;
        case _ => over, turn := true, Stop(Ending(flag));
      }
    }

    /** A shift on the single stack. */
    method ShiftSingle(q: int, posn: nat) returns (ok: bool)
      requires Holds() && Standard(p.a, s.Now(), Past()) && s.Now().items[s.yytops[0]].posn <= posn
      requires Calm(p.a, s.Now(), s.Now().items[s.yytops[0]].posn, Past())
      requires IsState(p.a, s.Now().items[s.yytops[0]].lr) && IsState(p.a, q) && q != 0
      requires Links(p.a, s.Now().items[s.yytops[0]].lr, q)
      requires StandsFor(p.a, Past(), q, s.Now().items[s.yytops[0]].posn, posn)
      modifies s, s.yyitems
      ensures s.yyitems == old(s.yyitems) || fresh(s.yyitems)
      ensures Kept() && Calm(p.a, s.Now(), posn, Past()) && (if ok then Holds() else NoRoom())
      ensures SingleSpine(s.Now()) == old(SingleSpine(s.Now())) + [Node(q, posn)]
    {
      hide LrTables.Valid, Fits, Sound, Shape, StackSettled, Links, SingleSpine;
      ghost var g := s.Now();
      SinglePush(p.a, g, posn, Past());
      PushedSpine(p.a, g, q, posn, yylval, Past());
      ok := s.GlrShift(0, q, posn, yylval);
      SingleSame(PushState(g, 0, q, posn, Resolved(yylval)), s.Now());
      CalmPush(p.a, g, q, g.items[g.tops[0]].posn, yylval, posn, Past(), s.stale);
    }

    /** The shift of the lookahead on the single stack. */
    method ShiftToken(q: int) returns (ok: bool)
      requires Holds() && Calm(p.a, s.Now(), yyposn, Past()) && IsToken(p.a, yychar)
      requires q == s.Now().items[s.yytops[0]].lr && IsState(p.a, q) && Action(p.a, q, yychar).Shift?
      requires q != p.a.t.final && Searched(OpenFrom(s.Now(), 0)) && Prepares(StackOf(s.Now(), 0), q, Action(p.a, q, yychar))
      modifies s, s.yyitems, this`yychar, this`yyposn, this`yyerrState, this`seen
      ensures s.yyitems == old(s.yyitems) || fresh(s.yyitems)
      ensures Kept() && (if ok then Holds() && Calm(p.a, s.Now(), yyposn, Past()) else NoRoom())
      ensures ok ==> Searched(OpenFrom(s.Now(), 0))
      ensures yychar == Y.YYEMPTY && yyposn == old(yyposn) + 1 && yyerrState == (if 0 < old(yyerrState) then old(yyerrState) - 1 else 0)
      ensures SingleSpine(s.Now()) == old(SingleSpine(s.Now())) + [Node(Action(p.a, q, old(yychar)).state, yyposn)]
    {
      hide LrTables.Valid, Fits, Sound, Shape, StackSettled, Links, LrTables.LrAction, Explores, OpenFrom, NeverAccepts,
        Regular, Prepared, StackOf, SingleSpine, StandsFor, Standard;
      ghost var g, token, posn := s.Now(), yychar, yyposn;
      ShiftFacts(p.a, q, yychar);
      var state := Action(p.a, q, yychar).state;
      ShiftTells(p.a, state, yychar, yyposn, Past());
      yychar := Y.YYEMPTY;
      yyposn := yyposn + 1;
      ok := ShiftSingle(state, yyposn);
      SingleShift(p, g, q, token, s.Now(), posn, Past(), recovered, seen);
      seen := OpenFrom(s.Now(), 0);
      if 0 < yyerrState {
        yyerrState := yyerrState - 1;
      }
    }

    /** The next token, which need not have been read. */
    ghost function Ahead(): int
      reads this`yychar, this`yyread
    {
      if yychar == Y.YYEMPTY then p.token(yyread) else yychar
    }

    /** The state has conflicts on the token. */
    ghost predicate Disputed(q: int, token: int) {
      IsState(p.a, q) && q != p.a.t.final && !Defaulted(p.a, q) && p.conflicts(q, token) != []
    }

    /** One turn of the loop for a single stack. It ends in a split exactly if the state has conflicts on
        the next token. */
    method SingleTurn() returns (over: bool, turn: Turn)
      requires Holds() && Calm(p.a, s.Now(), yyposn, Past()) && Searched(OpenFrom(s.Now(), 0))
      modifies this, s, s.yyitems
      ensures s.yyitems == old(s.yyitems) || fresh(s.yyitems)
      ensures over ==> Leaves(turn) && (turn == Switch ==> StacksEven() && |s.yytops| == 1 && Forks(0) && Searched(OpenFrom(s.Now(), 0)))
      ensures !over ==> Holds() && Calm(p.a, s.Now(), yyposn, Past()) && Searched(OpenFrom(s.Now(), 0))
      ensures over && turn == Switch <==> Disputed(old(s.Now().items[s.yytops[0]].lr), old(Ahead()))
      ensures (over ==> turn != Stop(Outcome.Unfinished)) && turns == old(turns) && tired == old(tired)
    {
      hide LrTables.Valid, Fits, Sound, Shape, StackSettled, Complete, CanReduce, Links, Explores, OpenFrom, NeverAccepts, Regular,
        Prepared, StackOf, LrTables.LrAction;
      ghost var g := s.Now();
      RecoveredRejects(p, g, yyposn, recovered, seen, OpenFrom(g, 0));
      var yystate := TopState(0);
      if yystate == p.a.t.final {
        SingleEnds(p, g, yyposn, Past(), recovered, seen);
        return true, Stop(Accepted);
      }
      if Defaulted(p.a, yystate) {
        ReduceFacts(p.a, yystate);
        DefaultNeverShifts(p.a, yystate);
        DefaultPrepares(p, StackOf(g, 0), yystate, yyposn, seen);
        over, turn := SingleAction(DefaultAction(p.a, yystate), yystate);
      } else {
        over, turn := SingleOnToken(yystate);
      }
    }

    /** The same, in a state that looks at the token. */
    method SingleOnToken(q: int) returns (over: bool, turn: Turn)
      requires Holds() && Calm(p.a, s.Now(), yyposn, Past()) && Searched(OpenFrom(s.Now(), 0))
      requires q == s.Now().items[s.yytops[0]].lr && IsState(p.a, q) && q != p.a.t.final && !Defaulted(p.a, q)
      modifies this, s, s.yyitems
      ensures s.yyitems == old(s.yyitems) || fresh(s.yyitems)
      ensures over ==> Leaves(turn) && (turn == Switch ==> StacksEven() && |s.yytops| == 1 && Forks(0) && Searched(OpenFrom(s.Now(), 0)))
      ensures !over ==> Holds() && Calm(p.a, s.Now(), yyposn, Past()) && Searched(OpenFrom(s.Now(), 0))
      ensures over && turn == Switch <==> p.conflicts(q, old(Ahead())) != []
      ensures (over ==> turn != Stop(Outcome.Unfinished)) && turns == old(turns) && tired == old(tired)
    {
      hide LrTables.Valid, Fits, Sound, Shape, StackSettled, Complete, CanReduce, Links, Explores, OpenFrom, NeverAccepts, Regular,
        Prepared, StackOf, LrTables.LrAction;
      ghost var g := s.Now();
      GetToken();
      if p.conflicts(q, yychar) != [] {
        CalmIsEven(p.a, g, yyposn, Past());
        return true, Switch;
      }
      PlainPrepares(p, StackOf(g, 0), q, yychar, yyposn, seen);
      over, turn := TableTurn(q);
    }

    /** The action of the table on the lookahead. */
    method TableTurn(q: int) returns (over: bool, turn: Turn)
      requires Holds() && Calm(p.a, s.Now(), yyposn, Past()) && Searched(OpenFrom(s.Now(), 0)) && IsToken(p.a, yychar)
      requires q == s.Now().items[s.yytops[0]].lr && IsState(p.a, q) && q != p.a.t.final
      requires Prepares(StackOf(s.Now(), 0), q, Action(p.a, q, yychar))
      modifies s, s.yyitems, this`yychar, this`yyposn, this`yyerrState, this`yynerrs, this`seen
      ensures s.yyitems == old(s.yyitems) || fresh(s.yyitems)
      ensures over ==> Leaves(turn) && turn != Switch && turn != Stop(Outcome.Unfinished)
      ensures !over ==> Holds() && Calm(p.a, s.Now(), yyposn, Past()) && Searched(OpenFrom(s.Now(), 0))
    {
      hide LrTables.Valid, Fits, Sound, Shape, StackSettled, Complete, CanReduce, Links, Explores, OpenFrom, NeverAccepts, Regular,
        Prepared, StackOf, LrTables.LrAction, Undecided, AllDeferred, AcceptsAt;
      if Action(p.a, q, yychar).Shift? {
        RecoveredRejects(p, s.Now(), yyposn, recovered, seen, OpenFrom(s.Now(), 0));
        var ok := ShiftToken(q);
        return !ok, Stop(NoMemory);
      }
      ReduceFacts(p.a, q);
      over, turn := SingleAction(Action(p.a, q, yychar), q);
    }

    /** A reduction, or an error. */
    method SingleAction(action: LrTables.Action, q: int) returns (over: bool, turn: Turn)
      requires Holds() && Calm(p.a, s.Now(), yyposn, Past()) && !action.Shift?
      requires q == s.Now().items[s.yytops[0]].lr && IsState(p.a, q) && (action.Reduce? ==> Complete(p.a, q, action.rule))
      requires q != p.a.t.final && Searched(OpenFrom(s.Now(), 0)) && Prepares(StackOf(s.Now(), 0), q, action)
      modifies s, s.yyitems, this`yyerrState, this`yynerrs, this`seen
      ensures s.yyitems == old(s.yyitems) || fresh(s.yyitems)
      ensures over ==> Leaves(turn) && turn != Switch
      ensures action.Error? ==> over && yynerrs == old(yynerrs) + (if old(yyerrState) == 0 then 1 else 0) && turn == UserError
      ensures !action.Error? ==> yynerrs == old(yynerrs)
      ensures !over ==> Holds() && Calm(p.a, s.Now(), yyposn, Past()) && Searched(OpenFrom(s.Now(), 0))
      ensures over ==> turn != Stop(Outcome.Unfinished)
    {
      hide LrTables.Valid, Fits, Sound, Shape, StackSettled, Complete, CanReduce, Explores, OpenFrom, NeverAccepts, Regular, Prepared,
        StackOf, Goes;
      if action.Reduce? {
        CanReduceTop(p.a, s.Now(), 0, action.rule, Past());
        over, turn := ReduceSingle(action.rule, q);
      } else {
        StackGoes(p, s.Now(), 0, q, yyposn, Past());
        if Regular(p) {
          ErrorExplores(p, s.Now(), q, yyposn, recovered, seen, action);
        }
        ReportSyntaxError();
        over, turn := true, UserError;
      }
    }

    /** The inner loop for a single stack. */
    method SingleStack(fuel: nat) returns (turn: Turn)
      requires Holds() && Calm(p.a, s.Now(), yyposn, Past()) && Searched(OpenFrom(s.Now(), 0))
      modifies this, s, s.yyitems
      ensures s.yyitems == old(s.yyitems) || fresh(s.yyitems)
      ensures Leaves(turn) && (turn == Switch ==> StacksEven() && |s.yytops| == 1 && Forks(0) && Searched(OpenFrom(s.Now(), 0)))
      ensures old(turns) <= turns && (old(tired) ==> tired) && (turn == Stop(Outcome.Unfinished) ==> old(turns) + fuel <= turns || tired)
    {
      hide LrTables.Valid, Fits, Sound, Shape, InStep, Calm, Resting, Explores, OpenFrom, NeverAccepts, Regular;
      for i := 0 to fuel
        invariant s.yyitems == old(s.yyitems) || fresh(s.yyitems)
        invariant Holds() && Calm(p.a, s.Now(), yyposn, Past()) && Searched(OpenFrom(s.Now(), 0))
        invariant old(turns) + i <= turns && (old(tired) ==> tired)
      {
        turns := turns + 1;
        var over;
        over, turn := SingleTurn();
        if over {
          return;
        }
      }
      RecoveredRejects(p, s.Now(), yyposn, recovered, seen, OpenFrom(s.Now(), 0));
      turn := Stop(Outcome.Unfinished);
    }

    // -------------------------------------------------------------- error recovery

    /** The state has something to do on the token. */
    predicate Acts(q: int, token: int)
      requires IsState(p.a, q)
    {
      Defaulted(p.a, q) || Action(p.a, q, token) != LrTables.Error
    }

    /** From the lookahead on, tokens were dropped up to the first one on which the state acts. */
    ghost predicate Skipped(q: int, token: int, from: nat)
      requires IsState(p.a, q)
      reads this`yychar, this`yyread
    {
      && token != LrTables.EOF_TOKEN && from < yyread && yychar == p.token(yyread - 1) && Acts(q, yychar)
      && forall n :: from <= n < yyread - 1 ==> p.token(n) != LrTables.EOF_TOKEN && !Acts(q, p.token(n))
    }

    /** After i turns that dropped a token, on which the state does not act either. */
    ghost predicate Dropping(q: int, token: int, from: nat, i: nat)
      requires IsState(p.a, q)
      reads this`yychar, this`yyread
    {
      && (if i == 0 then yychar == token && yyread == from
          else token != LrTables.EOF_TOKEN && from < yyread && yychar == p.token(yyread - 1) && !Acts(q, yychar))
      && forall n :: from <= n < yyread - 1 ==> p.token(n) != LrTables.EOF_TOKEN && !Acts(q, p.token(n))
    }

    /** The lookahead is dropped, and the next token read. */
    method DropToken(q: int, ghost token: int, ghost from: nat, ghost i: nat) returns (acts: bool)
      requires Kept() && IsState(p.a, q) && Dropping(q, token, from, i) && from <= yyread && yychar != LrTables.EOF_TOKEN && recovered
      modifies this`yychar, this`yylval, this`yyread
      ensures Kept() && from <= yyread
      ensures if acts then Skipped(q, token, from) else Dropping(q, token, from, i + 1)
    {
      hide LrTables.Valid, Fits, Sound, Shape, Acts;
      yychar := Y.YYEMPTY;
      GetToken();
      acts := Acts(q, yychar);
    }

    /** After an error in an error: tokens are dropped until the state has an action for one. */
    method SkipTokens(fuel: nat) returns (r: Next)
      requires Holds() && Standard(p.a, s.Now(), Past()) && recovered
      modifies this`yychar, this`yylval, this`yyread, this`turns
      ensures Holds() && IsState(p.a, s.Now().items[s.yytops[0]].lr)
      ensures r.Proceed? ==> Skipped(s.Now().items[s.yytops[0]].lr, old(yychar), old(yyread))
      ensures r.Halt? ==> (r.outcome == Aborted && yychar == LrTables.EOF_TOKEN) || r.outcome == Outcome.Unfinished
      ensures old(turns) <= turns && (r == Halt(Outcome.Unfinished) ==> old(turns) + fuel <= turns)
    {
      hide LrTables.Valid, Fits, Sound, Shape, Skipped, Acts;
      var yystate := TopState(0);
      for i := 0 to fuel
        invariant Kept() && old(yyread) <= yyread && Dropping(yystate, old(yychar), old(yyread), i) && old(turns) + i <= turns
      {
        turns := turns + 1;
        if yychar == LrTables.EOF_TOKEN {
          return Halt(Aborted);
        }
        var acts := DropToken(yystate, old(yychar), old(yyread), i);
        if acts {
          return Proceed;
        }
      }
      r := Halt(Outcome.Unfinished);
    }

    /** All stacks but the first live one are given up. */
    method ReduceToOneStack() returns (ok: bool)
      requires Holds() && (s.yysplitPoint == NONE ==> s.Now().items != [])
      modifies s
      ensures ok == exists i :: 0 <= i < |old(s.yytops)| && old(s.yytops)[i] != NONE
      ensures s.yyitems == old(s.yyitems)
      ensures Holds() && s.Now().items == old(s.Now().items) && s.yysplitPoint == old(s.yysplitPoint)
      ensures ok ==> exists i :: FirstLive(old(s.yytops), i) && s.yytops == [old(s.yytops)[i]]
    {
      hide LrTables.Valid, Fits, Sound, Shape, LiveEntries;
      ghost var g := s.Now();
      var yyk := 0;
      while yyk < |s.yytops| && s.yytops[yyk] == NONE
        invariant yyk <= |s.yytops| && forall i :: 0 <= i < yyk ==> s.yytops[i] == NONE
      {
        yyk := yyk + 1;
      }
      if yyk >= |s.yytops| {
        return false;
      }
      ghost var first := yyk;
      yyk := yyk + 1;
      while yyk < |s.yytops|
        invariant first < yyk <= |s.yytops| == |g.tops| && s.yytops[first] == g.tops[first] && Holds()
        invariant s.Now().items == g.items && s.yysplitPoint == g.split && s.yyitems == old(s.yyitems)
        invariant forall i :: 0 <= i < yyk && i != first ==> s.yytops[i] == NONE
      {
        SeveralSplit(s.Now());
        DeleteSound(p.a, s.Now(), yyk, first, Past());
        DeletedTops(s.Now(), yyk);
        s.MarkStackDeleted(yyk);
        yyk := yyk + 1;
      }
      NeedsFit(s.Now());
      RemoveSound(p.a, s.Now(), Past());
      OneLiveLeft(s.yytops, first);
      s.RemoveDeletedStacks();
      assert FirstLive(g.tops, first);
      ok := true;
    }

    /** yyrecoverSyntaxError. It is only called with one stack, and that one is live. */
    method RecoverSyntaxError(fuel: nat) returns (r: Next)
      requires Holds() && Resting(p.a, s.Now(), Past()) && recovered && (Regular(p) ==> NeverAccepts(SearchOf(p)))
      modifies this, s, s.yyitems
      ensures s.yyitems == old(s.yyitems) || fresh(s.yyitems)
      ensures Kept() && (r.Halt? ==> Halted(r.outcome)) && recovered
      ensures r.Proceed? ==> Holds() && Resting(p.a, s.Now(), Past()) && yyerrState == 3 && IsState(p.a, s.Now().items[s.yytops[0]].lr)
      ensures r.Proceed? ==>
                if old(yyerrState) == 3 then
                  SingleSpine(s.Now()) == old(SingleSpine(s.Now())) && Skipped(s.Now().items[s.yytops[0]].lr, old(yychar), old(yyread))
                else
                  && CaughtOn(p.a, old(SingleSpine(s.Now())), SingleSpine(s.Now()))
                  && yychar == old(yychar) && yyread == old(yyread) && yylval == old(yylval)
      ensures r.Halt? ==> Abandons(r.outcome)
      ensures old(turns) <= turns && (r == Halt(Outcome.Unfinished) ==> old(turns) + fuel <= turns) && tired == old(tired)
    {
      hide LrTables.Valid, Fits, Sound, Shape, StackSettled, Descending, Regular, NeverAccepts, SingleSpine, CaughtOn, Skipped, Undecided;
      if yyerrState == 3 {
        r := SkipTokens(fuel);
        return;
      }
      ghost var g := s.Now();
      assert g.items != [] && g.tops[0] != NONE;
      var ok := ReduceToOneStack();
      ghost var i :| FirstLive(g.tops, i) && s.yytops == [g.tops[i]];
      assert s.yytops == g.tops;
      StillRests(p.a, g, s.Now(), Past());
      SingleSame(g, s.Now());
      Compressed();
      yyerrState := 3;
      r := ShiftErrorToken();
      if r.Proceed? {
        var q := TopState(0);
      }
    }

    /** The error token that goes on the single stack. */
    ghost function ErrorNode(): Node
      requires s.Allocated() && |s.yytops| == 1 && StateAt(s.Now().items, s.yytops[0])
      requires LrTables.Sized(p.a.t) && Y.CatchesErrors(p.a.t, s.Now().items[s.yytops[0]].lr)
      reads this, s, s.yyitems
    {
      Node(Y.ErrorState(p.a.t, s.Now().items[s.yytops[0]].lr), s.Now().items[s.yytops[0]].posn)
    }

    /** The stack is popped down to a state that shifts the error token. */
    method PopForError() returns (found: bool)
      requires Holds() && Resting(p.a, s.Now(), Past()) && s.yysplitPoint == NONE
      modifies s, this`actionFailed
      ensures s.yyitems == old(s.yyitems) && Holds()
      ensures found ==>
                && Standard(p.a, s.Now(), Past()) && Calm(p.a, s.Now(), s.Now().items[s.yytops[0]].posn, Past())
                && LrTables.Sized(p.a.t) && Y.CatchesErrors(p.a.t, s.Now().items[s.yytops[0]].lr)
                && CaughtOn(p.a, old(SingleSpine(s.Now())), SingleSpine(s.Now()) + [ErrorNode()])
      ensures !found ==> LrTables.Sized(p.a.t) && Y.ErrorDepth(p.a.t, Lrs(old(SingleSpine(s.Now()))), |old(SingleSpine(s.Now()))|) == 0
    {
      hide LrTables.Valid, Fits, Sound, Shape, StackSettled, Descending, SingleSpine, Y.CatchesErrors, Y.ErrorState,
        Y.ErrorDepth, CaughtOn, Undecided;
      ghost var g := s.Now();
      TablesSized(p.a);
      StackSize(p.a, g, Past());
      PoppedSpine(g, |g.items|);
      found := s.PopToErrorState(p.a.t);
      PoppedSound(p.a, g, s.yynextFree, Past());
      if found {
        Regain(g.items[s.yynextFree - 1].posn);
        SingleState(g, s.yynextFree);
        CaughtThere(p.a, g, s.yynextFree);
      }
    }

    /** The error token is shifted, or recovery fails. */
    method ShiftErrorToken() returns (r: Next)
      requires Holds() && Resting(p.a, s.Now(), Past()) && s.yysplitPoint == NONE && recovered
      requires Regular(p) ==> NeverAccepts(SearchOf(p))
      modifies s, s.yyitems, this`actionFailed
      ensures s.yyitems == old(s.yyitems) || fresh(s.yyitems)
      ensures Kept() && (r.Halt? ==> Halted(r.outcome))
      ensures r.Proceed? ==>
                Holds() && Resting(p.a, s.Now(), Past()) && CaughtOn(p.a, old(SingleSpine(s.Now())), SingleSpine(s.Now()))
      ensures r.Halt? ==> Abandons(r.outcome)
      ensures r == Halt(Aborted) ==>
                LrTables.Sized(p.a.t) && Y.ErrorDepth(p.a.t, Lrs(old(SingleSpine(s.Now()))), |old(SingleSpine(s.Now()))|) == 0
      ensures r != Halt(Outcome.Unfinished)
    {
      hide LrTables.Valid, Fits, Sound, Shape, StackSettled, Descending, Regular, NeverAccepts, SingleSpine, Y.CatchesErrors, Y.ErrorState,
        Y.ErrorDepth, Undecided, AllDeferred, CaughtOn;
      var found := PopForError();
      if !found {
        return Halt(Aborted);
      }
      var ok := PushErrorToken();
      r := if ok then Proceed else Halt(NoMemory);
    }

    /** The error token goes on the state that shifts it. */
    method PushErrorToken() returns (ok: bool)
      requires Holds() && Standard(p.a, s.Now(), Past()) && Calm(p.a, s.Now(), s.Now().items[s.yytops[0]].posn, Past()) && recovered
      requires LrTables.Sized(p.a.t) && Y.CatchesErrors(p.a.t, s.Now().items[s.yytops[0]].lr)
      modifies s, s.yyitems
      ensures s.yyitems == old(s.yyitems) || fresh(s.yyitems)
      ensures Kept() && Resting(p.a, s.Now(), Past()) && (if ok then Holds() else NoRoom())
      ensures SingleSpine(s.Now()) == old(SingleSpine(s.Now()))
                                      + [Node(Y.ErrorState(p.a.t, old(s.Now().items[s.yytops[0]].lr)), old(s.Now().items[s.yytops[0]].posn))]
    {
      hide LrTables.Valid, Fits, Sound, Shape, StackSettled, Links, SingleSpine, Y.CatchesErrors, Y.ErrorState;
      var yystate := TopState(0);
      ErrorLinks(p.a, yystate);
      ok := ShiftSingle(Y.ErrorState(p.a.t, yystate), s.yyitems[s.yytops[0]].posn);
    }

    /** Whether all states of the single stack have their values. */
    method AllValued() returns (b: bool)
      requires s.Valid() && s.yysplitPoint == NONE
      ensures b ==> forall i :: 0 <= i < |s.Now().items| ==> StateAt(s.Now().items, i) && s.Now().items[i].sem.Resolved?
      ensures !b ==> exists i :: StateAt(s.Now().items, i) && s.Now().items[i].sem.Unresolved?
    {
      hide Descending, Fans;
      for i := 0 to s.yynextFree
        invariant forall j :: 0 <= j < i ==> StateAt(s.Now().items, j) && s.Now().items[j].sem.Resolved?
      {
        assert s.Now().items[i].State? && s.yyitems[i] == s.Now().items[i];
        if s.yyitems[i].sem.Unresolved? {
          assert StateAt(s.Now().items, i) && s.Now().items[i].sem.Unresolved?;
          return false;
        }
      }
      b := true;
    }

    /** If what an action that failed has left without a value is popped, the stack is as good as new. */
    method Regain(ghost posn: nat)
      requires Holds() && Calm(p.a, s.Now(), posn, Past()) && s.yysplitPoint == NONE
      modifies this`actionFailed
      ensures Holds() && Calm(p.a, s.Now(), posn, Past())
      ensures actionFailed ==> old(actionFailed) && exists i :: StateAt(s.Now().items, i) && s.Now().items[i].sem.Unresolved?
    {
      hide LrTables.Valid, Fits, Sound, Shape, StackSettled;
      var b := AllValued();
      if b {
        RegainSound(p.a, s.Now(), posn, Past());
        actionFailed := false;
      }
    }

    // -------------------------------------------------------------- the whole parse

    /** yyuser_error */
    method GoOnAfterError(fuel: nat) returns (r: Next)
      requires Holds() && Resting(p.a, s.Now(), Past()) && (Regular(p) ==> NeverAccepts(SearchOf(p)))
      modifies this, s, s.yyitems
      ensures s.yyitems == old(s.yyitems) || fresh(s.yyitems)
      ensures r.Halt? ==> Leaves(Stop(r.outcome))
      ensures r.Proceed? ==> Holds() && Calm(p.a, s.Now(), yyposn, Past()) && Searched(OpenFrom(s.Now(), 0))
      ensures old(turns) <= turns && (r == Halt(Outcome.Unfinished) ==> old(turns) + fuel <= turns) && (old(tired) ==> tired)
    {
      hide LrTables.Valid, Fits, Sound, Shape, StackSettled, Regular, NeverAccepts, OpenFrom, SingleSpine, CaughtOn, Skipped, Undecided,
        AllDeferred, Explores;
      ForgetInput(p.a, s.Now(), Past());
      recovered := true;
      r := RecoverSyntaxError(fuel);
      if r.Proceed? {
        yyposn := s.yyitems[s.yytops[0]].posn;
        RecoveredSearch(p, s.Now(), yyposn, seen, OpenFrom(s.Now(), 0));
      }
    }

    /** The main loop of yyparse. */
    method Run(fuel: nat) returns (o: Outcome)
      requires Holds() && Calm(p.a, s.Now(), yyposn, Past()) && Searched(OpenFrom(s.Now(), 0))
      modifies this, s, s.yyitems
      ensures s.yyitems == old(s.yyitems) || fresh(s.yyitems)
      ensures Leaves(Stop(o))
      ensures old(turns) <= turns && (o == Outcome.Unfinished ==> old(turns) + fuel <= turns || tired)
    {
      hide LrTables.Valid, Fits, Sound, Shape, InStep, Calm, Resting, Explores, OpenFrom, NeverAccepts, Regular, Undecided, AllDeferred,
        AcceptsAt, Distinct;
      for i := 0 to fuel
        invariant s.yyitems == old(s.yyitems) || fresh(s.yyitems)
        invariant Holds() && Calm(p.a, s.Now(), yyposn, Past()) && Searched(OpenFrom(s.Now(), 0)) && old(turns) + i <= turns
      {
        turns := turns + 1;
        var turn := SingleStack(fuel);
        if turn == Switch {
          DescendingIn(p.a, s.Now(), Past());
          SingleDistinct(p.a, s.Now());
          turn := SeveralStacks(fuel);
        }
        match turn {
          case Switch =>
          case Stop(outcome) => return outcome;
          case UserError =>
            var r := GoOnAfterError(fuel);
            if r.Halt? {
              return r.outcome;
            }
        }
      }
      RecoveredRejects(p, s.Now(), yyposn, recovered, seen, OpenFrom(s.Now(), 0));
      o := Outcome.Unfinished;
    }
  }

  lemma GlrReduced<V>(a: Lalr, g: Gss<V>, k: nat, rule: int, now: bool, act: (int, seq<Semantics<V>>) -> ActionResult<V>,
                      raw: Option<V>, flag: Flag, g': Gss<V>)
    requires CanReduce(a, g, k, rule)
    requires if now || g.split == NONE then RunsAction(a, g, k, rule, act, flag, g')
             else
               flag == YyOk && k < |g'.tops| && (g'.tops[k] == NONE ==> !g'.stale)
               && g' == ReduceLater(a, g, k, rule, raw).(stale := g'.stale)
    ensures Reduces(a, g, k, rule, now, act, raw, flag, g')
  {
  }

  lemma SomeAccept(m: Search)
    ensures NeverAccepts(m) <==> !exists n: nat :: AcceptsAt(m, n)
  {
    hide AcceptsAt;
  }

  /** Stack k is still what it was when its conflicts were looked up. */
  lemma NextConflict<V>(p: Glr<V>, g: Gss<V>, g': Gss<V>, k: int, q: int, i: nat, x: int, posn: nat, open: set<seq<int>>)
    requires Extends(g, -1, g') && 0 <= k < |g.tops| && StateAt(g.items, g.tops[k]) && q == g.items[g.tops[k]].lr
    requires Fits(p) && IsState(p.a, q) && q != p.a.t.final && !Defaulted(p.a, q) && IsToken(p.a, x) && i < |p.conflicts(q, x)|
    requires TopOf(g, k) <= open
    ensures |g.tops| <= |g'.tops| && StateAt(g'.items, g'.tops[k]) && g'.items[g'.tops[k]].lr == q
    ensures Complete(p.a, q, p.conflicts(q, x)[i]) && StackOf(g', k) == StackOf(g, k)
    ensures x == p.token(posn) ==> Offering(p, g', k, p.conflicts(q, x)[i], posn, open)
  {
    hide LrTables.Valid, Fits, Extends, Complete, TopOf, StackOf, Offering;
    SameTop(g, -1, g', k);
    StackStays(g, -1, g', k);
    ConflictFits(p, q, x, i);
    ExtendsSize(g, -1, g');
    ConflictOffered(p, g, g', k, q, i, x, posn, open);
  }

  lemma CanReduceTop<V>(a: Lalr, g: Gss<V>, k: int, rule: int, h: History)
    requires Sound(a, g, h) && 0 <= k < |g.tops| && StateAt(g.items, g.tops[k]) && IsState(a, g.items[g.tops[k]].lr)
    requires Complete(a, g.items[g.tops[k]].lr, rule)
    ensures CanReduce(a, g, k, rule)
  {
    hide LrTables.Valid, Linked, Supported, Telling, Shape, Complete;
  }

  lemma ExtendsSize<V>(g: Gss<V>, k: int, g': Gss<V>)
    requires Extends(g, k, g')
    ensures |g.tops| <= |g'.tops|
  {
    hide Shape;
  }

  lemma ExtendsWeaker<V>(g: Gss<V>, k: int, g': Gss<V>)
    requires Extends(g, -1, g')
    ensures Extends(g, k, g')
  {
    hide Descending, Contiguous, Fans, Spine;
  }

  lemma DoneDead<V>(a: Lalr, g: Gss<V>, i: int, token: int)
    requires 0 <= i < |g.tops| && g.tops[i] == NONE
    ensures Done(a, g, i, token) && (i == |g.tops| - 1 ==> DoneFrom(a, g, i, token))
  {
  }

  lemma DoneTail<V>(a: Lalr, g: Gss<V>, i: int, token: int)
    requires Done(a, g, i, token) && DoneFrom(a, g, i + 1, token)
    ensures DoneFrom(a, g, i, token)
  {
    hide Done;
  }

  /** After work on stack k without new stacks. */
  lemma DoneNew<V>(a: Lalr, g: Gss<V>, k: int, g': Gss<V>, from: int, token: int)
    requires Extends(g, k, g') && |g'.tops| == |g.tops| && 0 <= k < from && DoneFrom(a, g, from, token)
    ensures DoneFrom(a, g', from, token)
  {
    hide LrTables.Valid, Extends, Done;
    DoneFromStays(a, g, k, g', from, token, token);
  }

  lemma ReadyFacts<V>(a: Lalr, items: seq<Item<V>>, t: int, token: int)
    requires Ready(a, items, t, token)
    ensures StateAt(items, t) && IsState(a, items[t].lr) && IsToken(a, token) && Action(a, items[t].lr, token).Shift?
    ensures ShiftTo(a, items, t, token) == Action(a, items[t].lr, token).state
  {
    hide LrTables.Valid, LrTables.LrAction;
  }

  lemma ReadyToken<V>(a: Lalr, g: Gss<V>, token: int, posn: nat)
    requires AllReady(a, g, token, posn) && g.tops != []
    ensures IsToken(a, token) && token != Y.YYEMPTY
  {
    hide LrTables.Valid;
    var t := g.tops[0];
    assert t in g.tops;
    assert Ready(a, g.items, t, token);
  }

  lemma AdvanceStarts<V>(p: Glr<V>, g: Gss<V>, token: int, posn: nat, h: History)
    requires AllDeferred(p) && Sound(p.a, g, h) && Distinct(p.a, g, -1) && AllReady(p.a, g, token, posn)
    ensures if token == LrTables.EOF_TOKEN then |g.tops| <= 1 else Advancing(p.a, g, g, 0, posn)
  {
    hide LrTables.Valid, Distinct, AllReady, EndsOnce, Advancing;
    DescendingIn(p.a, g, h);
    if token == LrTables.EOF_TOKEN {
      EndAlone(p.a, g, posn);
    } else {
      StartAdvancing(p.a, g, token, posn);
    }
  }

  lemma AdvancingSame<V>(a: Lalr, g: Gss<V>, g': Gss<V>, g2: Gss<V>, i: nat, posn: nat)
    requires Advancing(a, g, g', i, posn) && g2 == g'.(stale := g2.stale)
    ensures Advancing(a, g, g2, i, posn)
  {
    hide LrTables.Valid, Descending, Path;
    forall x, y | OnLive(g2, x) && OnLive(g2, y) && Alike(g2.items, x, y) ensures x == y {
      var i :| 0 <= i < |g2.tops| && On(g2, i, x);
      var j :| 0 <= j < |g2.tops| && On(g2, j, y);
      assert On(g', i, x) && On(g', j, y);
    }
    forall j | 0 <= j < i ensures ShiftedAt(a, g, g2, j, posn) {
      assert ShiftedAt(a, g, g', j, posn);
    }
  }

  lemma FrameSelf<V>(items: seq<Item<V>>)
    ensures SameFrame(items, items)
  {
  }

  lemma SoundParts<V>(a: Lalr, g: Gss<V>, h: History)
    requires Sound(a, g, h) && !h.lost
    ensures Shape(g) && Supported(a, g.items) && Chained(g.items) && AllOwn(g.items) && Filled(g.items)
  {
    hide LrTables.Valid, Shape, Linked, Supported, Telling, Chained, AllOwn, Filled;
  }

  lemma FrameAt<V>(items: seq<Item<V>>, now: seq<Item<V>>, t: int)
    requires SameFrame(items, now) && StateAt(items, t)
    ensures StateAt(now, t) && now[t] == items[t].(sem := now[t].sem)
  {
  }

  lemma ResolvedRests<V>(a: Lalr, g: Gss<V>, n: nat, h: History)
    requires Standard(a, g, h) && !h.lost && g.split != NONE && Descending(g.items)
    requires |Path(g.items, g.tops[0])| == g.split + 1 + n
    requires n < |Path(g.items, g.tops[0])| && TopResolved(g.items, g.tops[0], n)
    ensures StackSettled(g, g.tops[0])
  {
    hide LrTables.Valid, Linked, Supported, Telling, Contiguous, Fans, Path, Chained, AllOwn;
    LiveTop(g, 0);
    ResolvedSettles(g, g.tops[0], n);
  }

  lemma CompressShrinks<V>(g: Gss<V>)
    requires Shape(g) && |g.tops| == 1 && g.tops[0] != NONE
    ensures |Compress(g).items| <= |g.items|
  {
    hide Descending, Contiguous, Fans, Content;
    LiveTop(g, 0);
    if g.split != NONE {
      PathIsAscending(g.items, g.tops[0]);
    }
  }

  /** The single stack of an even state is at its position. */
  lemma EvenTop<V>(a: Lalr, g: Gss<V>, posn: nat, h: History)
    requires Even(a, g, posn, h) && |g.tops| == 1 && StateAt(g.items, g.tops[0])
    ensures Standard(a, g, h) && g.items[g.tops[0]].posn == posn
  {
    hide Sound;
  }

  lemma CalmIsEven<V>(a: Lalr, g: Gss<V>, posn: nat, h: History)
    requires Calm(a, g, posn, h)
    ensures Even(a, g, posn, h)
  {
    hide Sound, StackSettled;
  }

  /** The first live stack. */
  ghost predicate FirstLive(tops: seq<int>, i: int) {
    0 <= i < |tops| && tops[i] != NONE && forall j :: 0 <= j < i ==> tops[j] == NONE
  }

  lemma SeveralSplit<V>(g: Gss<V>)
    requires Shape(g) && |g.tops| > 1
    ensures g.split != NONE
  {
    hide Descending, Contiguous, Fans;
  }

  lemma DeletedTops<V>(g: Gss<V>, k: int)
    requires 0 <= k < |g.tops|
    ensures MarkDeleted(g, k).tops == g.tops[k := NONE] && MarkDeleted(g, k).items == g.items && MarkDeleted(g, k).split == g.split
  {
  }

  lemma StillRests<V>(a: Lalr, g: Gss<V>, g': Gss<V>, h: History)
    requires Resting(a, g, h) && Sound(a, g', h) && g'.items == g.items && g'.split == g.split && g'.tops == g.tops
    ensures Resting(a, g', h)
  {
    hide Sound;
  }

  lemma RegainSound<V>(a: Lalr, g: Gss<V>, posn: nat, h: History)
    requires Calm(a, g, posn, h) && g.split == NONE
    requires forall i :: 0 <= i < |g.items| ==> StateAt(g.items, i) && g.items[i].sem.Resolved?
    ensures Calm(a, g, posn, h.(lost := false))
  {
    hide LrTables.Valid, Linked, Supported, Spans, Descending, Contiguous, Fans, Path;
    AllResolved(g.items);
    SingleSettled(a, g, h.(lost := false));
  }

  lemma AllResolved<V>(items: seq<Item<V>>)
    requires forall i :: 0 <= i < |items| ==> StateAt(items, i) && items[i].sem.Resolved?
    ensures Chained(items) && AllOwn(items) && Filled(items)
    ensures forall i :: 0 <= i < |items| ==> Settled(items, i)
  {
  }

  lemma ForgetInput<V>(a: Lalr, g: Gss<V>, h: History)
    requires Resting(a, g, h)
    ensures Resting(a, g, h.(input := None))
  {
    hide LrTables.Valid, Shape, Linked, Supported, Owned, Filled, StackSettled;
  }

  lemma StackSize<V>(a: Lalr, g: Gss<V>, h: History)
    requires Standard(a, g, h) && g.split == NONE
    ensures 0 < |g.items|
  {
    hide Sound;
  }

  lemma ErrorLinks(a: Lalr, q: int)
    requires LrTables.Sized(a.t) && IsState(a, q) && Y.CatchesErrors(a.t, q)
    ensures var q' := Y.ErrorState(a.t, q); IsState(a, q') && q' != 0 && Links(a, q, q')
  {
    hide LrTables.Valid, LrTables.LrAction, Y.CatchesErrors, Links;
    Y.ErrorAction(a, q);
    ErrorIsToken(a);
    ShiftFacts(a, q, LrTables.TERROR);
  }

  /** yyparse: a GLR parse on a new stack. In every state that it goes through, at least two items are
      free before each operation, all stacks are stacks of the automaton with the shape of a
      graph-structured stack, the last deleted stack can be found if all have died, and unless an
      action failed during a resolution, all alternatives are legal and no state lacks any. The search for
      runs of the automaton with its conflicts is complete up to the first recovery: if all actions return
      normally, the input has no syntax error if some run accepts it, and is accepted where one does. */
  method YyParse<V(!new)>(p: Glr<V>, init: nat, max: nat, alloc: nat -> bool, v: V, fuel: nat)
    returns (o: Outcome, run: Parse<V>)
    requires Fits(p) && 3 <= init && HEADROOM <= max
    ensures run.p == p && run.Leaves(Stop(o)) && run.s.maxDepth == max && run.s.canAlloc == alloc
    ensures o == Accepted && !run.recovered ==> run.yyposn <= run.yyread && Sentence(p.a, p.token, run.yyposn)
    ensures o == Outcome.Unfinished ==> fuel <= run.turns || run.tired
    ensures Regular(p) && o == Accepted && !run.recovered ==> AcceptsAt(SearchOf(p), run.yyposn)
    ensures Regular(p) && (exists n: nat :: AcceptsAt(SearchOf(p), n)) ==>
              && !run.recovered
              && (o == Accepted || o == NoMemory || o == Outcome.Unfinished
                  || (o == AssertionFails && !AllDeferred(p)) || (o == Aborted && Undecided(ActionsOf(p).r)))
  {
    hide LrTables.Valid, Fits, Sound, Shape, StackSettled, Sentence, Explores, OpenFrom, NeverAccepts, Regular, AcceptsAt, Undecided,
      AllDeferred;
    var s, ok := Begin(init, max, alloc, v);
    run := new Parse(p, s, v);
    BeginCalm(p.a, v, s.stale, p.token);
    BeginSearch(p, s.Now(), v);
    SomeAccept(SearchOf(p));
    if ok {
      o := run.Run(fuel);
      if o == Accepted && !run.recovered {
        CalmSentence(p.a, run.s.Now(), run.yyposn, run.Past());
      }
    } else {
      o := NoMemory;
    }
  }

  lemma CalmSentence<V>(a: Lalr, g: Gss<V>, posn: nat, h: History)
    requires Calm(a, g, posn, h) && g.items[g.tops[0]].lr == a.t.final && h.input.Some?
    ensures Sentence(a, h.input.value, posn)
  {
    hide LrTables.Valid, Linked, Supported, Owned, Filled, StackSettled, Contiguous, Fans, Spans, Sentence;
    GlrSentences.AcceptedIsSentence(a, g.items, g.tops[0], h.input.value);
  }

  lemma BeginCalm<V>(a: Lalr, v: V, stale: bool, input: Input)
    ensures Calm(a, Gss([State(0, NONE, 0, Resolved(v))], NONE, [0], [false], NONE, stale), 0, History(false, Some(input)))
  {
    var g := Gss([State(0, NONE, 0, Resolved(v))], NONE, [0], [false], NONE, stale);
    StartIsLive(a);
    assert LinkedAt(a, g.items, 0);
    hide LrTables.Valid, Links;
    var h := History(false, Some(input));
    assert Sound(a, g, h);
    SingleSettled(a, g, h);
  }
}
