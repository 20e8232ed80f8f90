/** A generated GLR parser, and what its operations do to the set of stacks that have been tried. */
module GlrSearch {
  import opened Collections
  import LrTables
  import opened LrAutomaton
  import opened GlrShape
  import opened GlrOps
  import opened GlrReduce
  import opened GlrOptions
  import opened GlrCompress
  import opened GlrStack
  import opened GlrInvariant
  import opened GlrResolve
  import opened GlrValues
  import opened GlrRounds
  import opened GlrDistinct
  import opened GlrComplete
  import Y = YaccMachine

  /** A generated GLR parser with its input. The conflicts of a state and a token are the other rules
      it could reduce; immediate rules are run at once. Rules have dynamic precedences and mergers. */
  datatype Glr<!V> = Glr(
    a: Lalr,
    conflicts: (int, int) -> seq<int>, immediate: int -> bool,
    action: (int, seq<Semantics<V>>) -> ActionResult<V>,
    dprec: int -> int, merger: int -> int, userMerge: (int, V, V) -> V,
    token: nat -> int, value: nat -> V)

  /** The rules in the conflict table are complete where they stand. */
  ghost predicate Fits<V>(p: Glr<V>) {
    && (forall q, x, i :: IsState(p.a, q) && q != p.a.t.final && IsToken(p.a, x) && 0 <= i < |p.conflicts(q, x)| ==>
          Complete(p.a, q, p.conflicts(q, x)[i]))
    && (forall n: nat :: IsToken(p.a, p.token(n)))
  }

  lemma ConflictFits<V>(p: Glr<V>, q: int, x: int, i: nat)
    requires Fits(p) && IsState(p.a, q) && q != p.a.t.final && IsToken(p.a, x) && i < |p.conflicts(q, x)|
    ensures Complete(p.a, q, p.conflicts(q, x)[i])
  {
  }

  lemma TokenFits<V>(p: Glr<V>, n: nat)
    requires Fits(p)
    ensures IsToken(p.a, p.token(n))
  {
  }

  /** No rule is immediate, and the tables are as the generator writes them. */
  ghost predicate AllDeferred<V>(p: Glr<V>) {
    (forall rule :: !p.immediate(rule)) && EndsOnce(p.a)
  }

  /** All actions return normally. */
  ghost predicate Regular<V(!new)>(p: Glr<V>) {
    forall rule, rhs :: p.action(rule, rhs).Returns?
  }

  function ActionsOf<V>(p: Glr<V>): Actions<V> {
    Actions(RulesOf(p.a, p.dprec, p.merger), p.action, p.userMerge)
  }

  ghost function SearchOf<V>(p: Glr<V>): Search {
    Search(p.a, p.conflicts, p.token)
  }

  /** The search so far: before the first recovery from an error, all that can be built has been tried
      or is open; and a recovery is only begun when there is nothing to find. */
  ghost predicate Explores<V(!new)>(p: Glr<V>, g: Gss<V>, posn: nat, recovered: bool, seen: set<seq<int>>, open: set<seq<int>>) {
    Regular(p) ==> if recovered then NeverAccepts(SearchOf(p)) else Explored(SearchOf(p), g, posn, seen, open)
  }

  /** Stack k is open, and its state offers the rule. */
  ghost predicate Offering<V>(p: Glr<V>, g: Gss<V>, k: int, rule: int, posn: nat, open: set<seq<int>>) {
    && Descending(g.items) && 0 <= k < |g.tops| && StateAt(g.items, g.tops[k]) && IsState(p.a, g.items[g.tops[k]].lr)
    && g.items[g.tops[k]].lr != p.a.t.final && TopOf(g, k) <= open
    && Offers(SearchOf(p), g.items[g.tops[k]].lr, p.token(posn), rule)
  }

  /** The action is the one of the state, and the rules in conflict with it have been tried. */
  ghost predicate Prepared<V>(p: Glr<V>, stack: seq<int>, q: int, posn: nat, seen: set<seq<int>>, action: LrTables.Action)
    requires IsState(p.a, q)
  {
    if Defaulted(p.a, q) then action == DefaultAction(p.a, q)
    else
      && action == Action(p.a, q, p.token(posn))
      && forall rule :: rule in p.conflicts(q, p.token(posn)) ==> After(p.a, stack, rule) in seen
  }

  // ---------------------------------------------------------------- reductions

  lemma ReductionReplaces<V>(a: Lalr, g: Gss<V>, k: nat, rule: int, now: bool, act: (int, seq<Semantics<V>>) -> ActionResult<V>,
                             raw: Option<V>, g': Gss<V>, posn: nat)
    requires CanReduce(a, g, k, rule) && Reduces(a, g, k, rule, now, act, raw, YyOk, g') && InStep(g, posn) && Shape(g')
    ensures Replaced(a, g, k, rule, g') && Descending(g.items) && Descending(g'.items)
    ensures Extends(g, k, g') && |g'.tops| == |g.tops|
  {
    hide LrTables.Valid, Linked, Spine, ReduceNow, ReduceLater, ReducedSpine, Uncovered, Contiguous, Fans, Descending;
    if now || g.split == NONE {
      RunsEffect(a, g, k, rule, act, g');
    } else {
      ReduceLaterEffect(a, g, k, rule, raw);
      LaterReplaces(a, g, k, rule, ReduceLater(a, g, k, rule, raw), g');
    }
  }

  lemma RunsEffect<V>(a: Lalr, g: Gss<V>, k: nat, rule: int, act: (int, seq<Semantics<V>>) -> ActionResult<V>, g': Gss<V>)
    requires CanReduce(a, g, k, rule) && RunsAction(a, g, k, rule, act, YyOk, g') && Shape(g')
    ensures Replaced(a, g, k, rule, g') && Descending(g.items) && Descending(g'.items)
    ensures Extends(g, k, g') && |g'.tops| == |g.tops|
  {
    hide LrTables.Valid, Linked, Spine, ReduceNow, ReducedSpine, Uncovered, Contiguous, Fans, Descending;
    Reducible(a, g, k, rule);
    var result := act(rule, Handle(g.items, g.tops[k], Length(a, rule)));
    ReduceNowEffect(a, g, k, rule, result.value);
    var later := ReduceNow(a, g, k, rule, result.value);
    if g.split != NONE {
      NowTops(a, g, k, rule, result.value);
    } else {
      OneStack(g);
    }
    assert HasStack(g', k, ReducedSpine(a, g, k, rule));
    forall i | 0 <= i < |g.tops| && i != k ensures g'.tops[i] == g.tops[i] && SameStack(g, g', i) {
      assert SameStack(g, later, i);
    }
  }

  lemma OneStack<V>(g: Gss<V>)
    requires Shape(g) && g.split == NONE
    ensures |g.tops| == 1
  {
    hide Descending, Contiguous, Fans;
  }

  lemma LaterReplaces<V>(a: Lalr, g: Gss<V>, k: nat, rule: int, later: Gss<V>, g': Gss<V>)
    requires CanReduce(a, g, k, rule) && Others(a, g, k, later) && g' == later.(stale := g'.stale) && Shape(g')
    requires (later.tops[k] == NONE && exists i: nat :: Covers(g, k, i, ReducedSpine(a, g, k, rule)))
             || (StateAt(later.items, later.tops[k]) && Spine(later.items, later.tops[k]) == ReducedSpine(a, g, k, rule))
    ensures Replaced(a, g, k, rule, g') && Extends(g, k, g') && |g'.tops| == |g.tops|
  {
    hide LrTables.Valid, Linked, Spine, ReducedSpine, Contiguous, Fans, Descending, Covers;
    forall i | 0 <= i < |g.tops| && i != k ensures g'.tops[i] == g.tops[i] && SameStack(g, g', i) {
      assert SameStack(g, later, i);
    }
  }

  /** A reduction that runs no action, or one that returns. */
  lemma ReductionExplores<V(!new)>(p: Glr<V>, g: Gss<V>, k: nat, rule: int, now: bool, raw: Option<V>, flag: Flag, g': Gss<V>,
                                   posn: nat, recovered: bool, seen: set<seq<int>>, open: set<seq<int>>)
    requires CanReduce(p.a, g, k, rule) && Reduces(p.a, g, k, rule, now, p.action, raw, flag, g') && InStep(g, posn) && Shape(g')
    requires Explores(p, g, posn, recovered, seen, open) && (Regular(p) && !recovered ==> Offering(p, g, k, rule, posn, open))
    ensures flag != YyOk ==> !Regular(p)
    ensures flag == YyOk ==> Descending(g'.items)
    ensures flag == YyOk ==>
              Explores(p, g', posn, recovered, seen + {After(p.a, StackOf(g, k), rule)}, open + TopOf(g', k))
  {
    hide LrTables.Valid, Linked, Explored, Spine, ReduceNow, ReduceLater, ReducedSpine, Uncovered, Replaced, Extends, Offers,
      TopOf, After, CanReduce, NeverAccepts;
    CanReduceFacts(p.a, g, k, rule);
    if flag == YyOk {
      ReductionReplaces(p.a, g, k, rule, now, p.action, raw, g', posn);
      if Regular(p) && !recovered {
        ReductionExplored(SearchOf(p), g, k, rule, g', posn, seen, open);
      }
    }
  }

  // ---------------------------------------------------------------- other operations

  lemma SplitExplores<V(!new)>(p: Glr<V>, g: Gss<V>, k: int, posn: nat, recovered: bool, seen: set<seq<int>>, open: set<seq<int>>)
    requires Explores(p, g, posn, recovered, seen, open) && Descending(g.items)
    requires 0 <= k < |g.tops| <= |g.needs| && StateAt(g.items, g.tops[k])
    ensures var g' := SplitStack(g, k);
            && Explores(p, g', posn, recovered, seen, open)
            && StackOf(g', |g.tops|) == StackOf(g, k) && TopOf(g', |g.tops|) == TopOf(g, k)
  {
    hide LrTables.Valid, Explored, Spine, Descending, NeverAccepts;
    if Regular(p) && !recovered {
      SplitExplored(SearchOf(p), g, k, posn, seen, open);
    }
  }

  lemma SameExplores<V(!new)>(p: Glr<V>, g: Gss<V>, g': Gss<V>, posn: nat, recovered: bool, seen: set<seq<int>>, open: set<seq<int>>)
    requires Explores(p, g, posn, recovered, seen, open) && g'.items == g.items && g'.tops == g.tops
    ensures Explores(p, g', posn, recovered, seen, open)
  {
    hide LrTables.Valid, Explored, NeverAccepts;
    if Regular(p) && !recovered {
      SameExplored(SearchOf(p), g, g', posn, seen, open);
    }
  }

  lemma RemoveExplores<V(!new)>(p: Glr<V>, g: Gss<V>, posn: nat, recovered: bool, seen: set<seq<int>>, open: set<seq<int>>)
    requires Explores(p, g, posn, recovered, seen, open) && |g.tops| <= |g.needs|
    ensures Explores(p, RemoveDeletes(g), posn, recovered, seen, open)
  {
    hide LrTables.Valid, Explored, NeverAccepts, RemoveDeletes;
    if Regular(p) && !recovered {
      RemoveExplored(SearchOf(p), g, posn, seen, open);
    }
  }

  /** A single stack that is somewhere else, or whose states have other values. */
  lemma MovedExplores<V(!new)>(p: Glr<V>, g: Gss<V>, g': Gss<V>, posn: nat, recovered: bool, seen: set<seq<int>>, open: set<seq<int>>)
    requires Explores(p, g, posn, recovered, seen, open) && Descending(g.items) && Descending(g'.items) && |g.tops| == |g'.tops| == 1
    requires StateAt(g.items, g.tops[0]) && StateAt(g'.items, g'.tops[0])
    requires Spine(g'.items, g'.tops[0]) == Spine(g.items, g.tops[0])
    ensures Explores(p, g', posn, recovered, seen, open) && OpenFrom(g', 0) == OpenFrom(g, 0)
  {
    hide LrTables.Valid, Explored, NeverAccepts, Descending, Spine;
    OpenSingle(g);
    OpenSingle(g');
    if Regular(p) && !recovered {
      MovedExplored(SearchOf(p), g, g', posn, seen, open);
    }
  }

  lemma OpenedExplores<V(!new)>(p: Glr<V>, g: Gss<V>, posn: nat, recovered: bool, seen: set<seq<int>>, open: set<seq<int>>,
                                more: set<seq<int>>)
    requires Explores(p, g, posn, recovered, seen, open) && open <= more
    ensures Explores(p, g, posn, recovered, seen, more)
  {
    hide LrTables.Valid, Explored, NeverAccepts;
    if Regular(p) && !recovered {
      Opened(SearchOf(p), g, posn, seen, open, more);
    }
  }

  // ---------------------------------------------------------------- a stack that is done

  /** A stack of the automaton that is not at its end, with its open set. */
  ghost predicate Goes<V>(p: Glr<V>, g: Gss<V>, k: int, q: int, posn: nat) {
    && Shape(g) && Linked(p.a, g.items) && 0 <= k < |g.tops| && StateAt(g.items, g.tops[k]) && q == g.items[g.tops[k]].lr
    && IsState(p.a, q) && q != p.a.t.final && IsToken(p.a, p.token(posn))
  }

  lemma GoesOn<V>(p: Glr<V>, g: Gss<V>, k: int, q: int, posn: nat, seen: set<seq<int>>, action: LrTables.Action)
    requires Goes(p, g, k, q, posn) && Prepared(p, StackOf(g, k), q, posn, seen, action)
    requires action.Reduce? ==> After(p.a, StackOf(g, k), action.rule) in seen
    ensures var m, stack := SearchOf(p), StackOf(g, k);
            && Live(p.a, stack) && TopOf(g, k) == {stack} && Descending(g.items) && IsLive(g, stack)
            && (forall rule :: Moves(m, m.token(posn), stack, rule) ==> After(m.a, stack, rule) in seen)
            && (Onward(m, m.token(posn), stack) <==> action.Shift?)
  {
    hide LrTables.Valid, Linked, Contiguous, Fans, Descending, IsPath, After, LrTables.LrAction, LrTables.DefaultAction;
    var stack := StackOf(g, k);
    StackIsLive(p.a, g, k);
    DefaultNeverShifts(p.a, q);
    if Defaulted(p.a, q) {
      DefaultedActs(p.a, q, p.token(posn));
    }
    TriedAll(SearchOf(p), p.token(posn), stack, seen);
  }

  lemma DefaultedActs(a: Lalr, q: int, x: int)
    requires IsState(a, q) && Defaulted(a, q)
    ensures Action(a, q, x) == DefaultAction(a, q)
  {
    hide LrTables.Valid;
    TablesSized(a);
  }

  /** The stack is to shift. */
  lemma ShiftCloses<V(!new)>(p: Glr<V>, g: Gss<V>, k: int, q: int, posn: nat, recovered: bool, seen: set<seq<int>>, open: set<seq<int>>,
                             action: LrTables.Action)
    requires Goes(p, g, k, q, posn) && Descending(g.items) && Explores(p, g, posn, recovered, seen, open + TopOf(g, k))
    requires action.Shift? && (Regular(p) && !recovered ==> Prepared(p, StackOf(g, k), q, posn, seen, action))
    ensures Explores(p, g, posn, recovered, seen, open)
  {
    hide LrTables.Valid, Explored, NeverAccepts, Goes, Prepared, Moves, Onward, IsLive, TopOf, StackOf, Live, Descending;
    if Regular(p) && !recovered {
      GoesOn(p, g, k, q, posn, seen, action);
      ClosesOne(SearchOf(p), g, posn, seen, open, StackOf(g, k));
    }
  }

  /** The stack dies of an error. */
  lemma ErrorCloses<V(!new)>(p: Glr<V>, g: Gss<V>, k: int, q: int, posn: nat, recovered: bool, seen: set<seq<int>>, open: set<seq<int>>,
                             action: LrTables.Action)
    requires Goes(p, g, k, q, posn) && Descending(g.items) && Explores(p, g, posn, recovered, seen, open + TopOf(g, k))
    requires Extends(g, k, MarkDeleted(g, k)) && |MarkDeleted(g, k).tops| == |g.tops| && MarkDeleted(g, k).tops[k] == NONE
    requires action.Error? && (Regular(p) && !recovered ==> Prepared(p, StackOf(g, k), q, posn, seen, action))
    ensures Explores(p, MarkDeleted(g, k), posn, recovered, seen, open)
  {
    hide LrTables.Valid, Explored, NeverAccepts, Goes, Prepared, Moves, Onward, IsLive, TopOf, StackOf, Live, Descending, Extends, MarkDeleted;
    if Regular(p) && !recovered {
      TopAmong(g, k, q, posn, p);
      GoesOn(p, g, k, q, posn, seen, action);
      DeleteExplored(SearchOf(p), g, k, posn, seen, open + TopOf(g, k));
      ClosesOne(SearchOf(p), MarkDeleted(g, k), posn, seen, open, StackOf(g, k));
    }
  }

  lemma TopAmong<V>(g: Gss<V>, k: int, q: int, posn: nat, p: Glr<V>)
    requires Goes(p, g, k, q, posn)
    ensures 0 <= k < |g.tops|
  {
  }

  /** The stack was reduced by its action. */
  lemma ReduceCloses<V(!new)>(p: Glr<V>, g: Gss<V>, k: int, q: int, g': Gss<V>, posn: nat, recovered: bool, seen: set<seq<int>>,
                              open: set<seq<int>>, rule: int)
    requires Goes(p, g, k, q, posn) && Descending(g'.items)
    requires Explores(p, g', posn, recovered, seen, open + {StackOf(g, k)} + TopOf(g', k))
    requires Regular(p) && !recovered ==>
               Prepared(p, StackOf(g, k), q, posn, seen, LrTables.Reduce(rule)) && After(p.a, StackOf(g, k), rule) in seen
    ensures Explores(p, g', posn, recovered, seen, open + TopOf(g', k))
  {
    hide LrTables.Valid, Explored, NeverAccepts, Goes, Prepared, Moves, Onward, IsLive, TopOf, StackOf, Live, Descending, After;
    if Regular(p) && !recovered {
      GoesOn(p, g, k, q, posn, seen, LrTables.Reduce(rule));
      assert open + {StackOf(g, k)} + TopOf(g', k) == open + TopOf(g', k) + {StackOf(g, k)};
      ClosesOne(SearchOf(p), g', posn, seen, open + TopOf(g', k), StackOf(g, k));
    }
  }

  // ---------------------------------------------------------------- the ends of rounds

  /** All stacks have shifted the token. */
  lemma ShiftExplores<V(!new)>(p: Glr<V>, g: Gss<V>, g': Gss<V>, posn: nat, recovered: bool, seen: set<seq<int>>)
    requires Explores(p, g, posn, recovered, seen, {}) && Descending(g'.items)
    requires Regular(p) && !recovered ==> AllShift(SearchOf(p), g, g', posn)
    ensures Explores(p, g', posn + 1, recovered, OpenFrom(g', 0), OpenFrom(g', 0))
  {
    hide LrTables.Valid, Explored, NeverAccepts, AllShift, Descending, OpenFrom;
    if Regular(p) && !recovered {
      ShiftExplored(SearchOf(p), g, g', posn, seen);
    }
  }

  /** No stack is left. */
  lemma AllDeadExplores<V(!new)>(p: Glr<V>, g: Gss<V>, posn: nat, recovered: bool, seen: set<seq<int>>)
    requires Explores(p, g, posn, recovered, seen, {}) && g.tops == [] && Regular(p)
    ensures NeverAccepts(SearchOf(p))
  {
    hide LrTables.Valid, Explored, NeverAccepts, Onward, Spine, Descending;
    if !recovered {
      NothingGoesOn(SearchOf(p), g, posn, seen);
    }
  }

  /** The single stack has an error. */
  lemma ErrorExplores<V(!new)>(p: Glr<V>, g: Gss<V>, q: int, posn: nat, recovered: bool, seen: set<seq<int>>, action: LrTables.Action)
    requires Goes(p, g, 0, q, posn) && Descending(g.items) && |g.tops| == 1 && Explores(p, g, posn, recovered, seen, OpenFrom(g, 0))
    requires action.Error? && (Regular(p) && !recovered ==> Prepared(p, StackOf(g, 0), q, posn, seen, action)) && Regular(p)
    ensures NeverAccepts(SearchOf(p))
  {
    hide LrTables.Valid, Explored, NeverAccepts, Goes, Prepared, Moves, Onward, TopOf, Live, Descending, Spine;
    if !recovered {
      OpenSingle(g);
      GoesOn(p, g, 0, q, posn, seen, action);
      assert {} + {StackOf(g, 0)} == {StackOf(g, 0)};
      ClosesOne(SearchOf(p), g, posn, seen, {}, StackOf(g, 0));
      NothingGoesOn(SearchOf(p), g, posn, seen);
    }
  }

  /** The single stack is at its end. */
  lemma EndExplores<V(!new)>(p: Glr<V>, g: Gss<V>, posn: nat, seen: set<seq<int>>)
    requires Shape(g) && Linked(p.a, g.items) && |g.tops| == 1 && StateAt(g.items, g.tops[0]) && g.items[g.tops[0]].posn == posn
    requires g.items[g.tops[0]].lr == p.a.t.final && Descending(g.items)
    requires Explores(p, g, posn, false, seen, OpenFrom(g, 0)) && Regular(p)
    ensures AcceptsAt(SearchOf(p), posn)
  {
    hide LrTables.Valid, Linked, Contiguous, Fans, Descending, IsPath, Shifted, Built, Spine, AllHandled;
    StackIsLive(p.a, g, 0);
    var spine := Spine(g.items, g.tops[0]);
    assert HasStack(g, 0, spine) && spine != [];
    MetTop(spine, posn, seen);
    BuiltFinished(SearchOf(p), posn, StackOf(g, 0));
  }

  lemma BeginExplores<V(!new)>(p: Glr<V>, g: Gss<V>)
    requires Descending(g.items) && |g.tops| == 1 && g.tops[0] == 0 && StateAt(g.items, 0) && g.items[0].lr == 0
    ensures Explores(p, g, 0, false, {[0]}, OpenFrom(g, 0))
  {
    hide LrTables.Valid, Explored, Descending;
    StartExplored(SearchOf(p), g);
    OpenSingle(g);
    assert Spine(g.items, 0) == [Node(0, g.items[0].posn)];
    assert Lrs(Spine(g.items, 0)) == [0];
  }

  /** Nothing is said if an action does not return. */
  lemma IrregularExplores<V(!new)>(p: Glr<V>, g: Gss<V>, posn: nat, recovered: bool, seen: set<seq<int>>, open: set<seq<int>>)
    requires !Regular(p)
    ensures Explores(p, g, posn, recovered, seen, open)
  {
  }

  lemma SplitOffers<V(!new)>(p: Glr<V>, g: Gss<V>, k: int, rule: int, posn: nat, recovered: bool, seen: set<seq<int>>, open: set<seq<int>>)
    requires Explores(p, g, posn, recovered, seen, open) && Shape(g)
    requires 0 <= k < |g.tops| && StateAt(g.items, g.tops[k])
    ensures |g.tops| <= |g.needs|
    ensures var g' := SplitStack(g, k);
            && Explores(p, g', posn, recovered, seen, open) && StackOf(g', |g.tops|) == StackOf(g, k)
            && (Offering(p, g, k, rule, posn, open) ==> Offering(p, g', |g.tops|, rule, posn, open))
  {
    hide LrTables.Valid, Explores, Offers, Descending, Contiguous, Fans, Spine;
    SplitExplores(p, g, k, posn, recovered, seen, open);
  }

  lemma DeadExplores<V(!new)>(p: Glr<V>, g: Gss<V>, k: int, posn: nat, recovered: bool, seen: set<seq<int>>, open: set<seq<int>>)
    requires Shape(g) && 0 <= k < |g.tops| && g.tops[k] == NONE
    requires Explores(p, g, posn, recovered, seen, open + TopOf(g, k))
    ensures Explores(p, g, posn, recovered, seen, open)
  {
    hide LrTables.Valid, Explores, Descending, Contiguous, Fans;
    NoTop(g, k);
    assert open + {} == open;
  }

  /** A conflict of the state of stack k, which is still what it was. */
  lemma ConflictOffered<V>(p: Glr<V>, g: Gss<V>, g': Gss<V>, k: int, q: int, i: nat, x: int, posn: nat, open: set<seq<int>>)
    requires Extends(g, -1, g') && 0 <= k < |g.tops| && StateAt(g.items, g.tops[k]) && StateAt(g'.items, g'.tops[k])
    requires TopOf(g, k) <= open
    requires q == g.items[g.tops[k]].lr == g'.items[g'.tops[k]].lr && IsState(p.a, q) && q != p.a.t.final && !Defaulted(p.a, q)
    requires i < |p.conflicts(q, x)|
    ensures x == p.token(posn) ==> Offering(p, g', k, p.conflicts(q, x)[i], posn, open)
  {
    hide LrTables.Valid, Contiguous, Fans, Spine;
    assert SameStack(g, g', k);
  }

  // ---------------------------------------------------------------- the steps of a round

  lemma DefaultPrepares<V>(p: Glr<V>, stack: seq<int>, q: int, posn: nat, seen: set<seq<int>>)
    requires IsState(p.a, q) && Defaulted(p.a, q)
    ensures Prepared(p, stack, q, posn, seen, DefaultAction(p.a, q))
  {
  }

  lemma PreparedMore<V>(p: Glr<V>, stack: seq<int>, q: int, posn: nat, seen: set<seq<int>>, more: set<seq<int>>, action: LrTables.Action)
    requires IsState(p.a, q) && Prepared(p, stack, q, posn, seen, action) && seen <= more
    ensures Prepared(p, stack, q, posn, more, action)
  {
    hide LrTables.Valid, LrTables.LrAction, LrTables.DefaultAction, After;
  }

  lemma PreparedOffers<V>(p: Glr<V>, g: Gss<V>, k: int, q: int, posn: nat, seen: set<seq<int>>, rule: int, open: set<seq<int>>)
    requires Goes(p, g, k, q, posn) && Descending(g.items)
    requires Prepared(p, StackOf(g, k), q, posn, seen, LrTables.Reduce(rule)) && TopOf(g, k) <= open
    ensures Offering(p, g, k, rule, posn, open)
  {
    hide LrTables.Valid, LrTables.LrAction, LrTables.DefaultAction, After, Linked, Shape, Descending, Spine;
  }

  /** The reduction by the action of the state. */
  lemma ReduceEnds<V(!new)>(p: Glr<V>, g: Gss<V>, k: int, q: int, g': Gss<V>, posn: nat, recovered: bool, was: set<seq<int>>,
                            seen: set<seq<int>>, open: set<seq<int>>, rule: int)
    requires Goes(p, g, k, q, posn) && Shape(g') && was <= seen
    requires Explores(p, g', posn, recovered, seen, open + TopOf(g, k) + TopOf(g', k))
    requires Regular(p) && !recovered ==>
               Prepared(p, StackOf(g, k), q, posn, was, LrTables.Reduce(rule)) && After(p.a, StackOf(g, k), rule) in seen
    ensures Explores(p, g', posn, recovered, seen, open + TopOf(g', k))
  {
    hide LrTables.Valid, Explores, Prepared, Regular, After, Linked, Contiguous, Fans, Spine;
    StackIsLive(p.a, g, k);
    hide Goes, TopOf, StackOf, Shape, Descending;
    if Regular(p) && !recovered {
      PreparedMore(p, StackOf(g, k), q, posn, was, seen, LrTables.Reduce(rule));
    }
    ReduceCloses(p, g, k, q, g', posn, recovered, seen, open, rule);
  }

  lemma SearchStays<V>(g: Gss<V>, g': Gss<V>, k: int)
    requires Extends(g, -1, g') && 0 <= k < |g.tops| && StateAt(g.items, g.tops[k])
    ensures TopOf(g', k) == TopOf(g, k) && StackOf(g', k) == StackOf(g, k)
  {
    hide Contiguous, Fans, Spine;
    assert SameStack(g, g', k);
  }

  /** All live stacks have shifted, none of which was at its end. */
  lemma ShiftedSearch<V(!new)>(p: Glr<V>, g: Gss<V>, g': Gss<V>, token: int, posn: nat, h: History, recovered: bool, seen: set<seq<int>>)
    requires Shifting(p.a, g, g', |g.tops|, token, posn, h) && AllReady(p.a, g, token, posn) && Sound(p.a, g, h)
    requires Explores(p, g, posn, recovered, seen, {}) && (recovered || token == p.token(posn))
    ensures Explores(p, g', posn + 1, recovered, OpenFrom(g', 0), OpenFrom(g', 0))
  {
    hide LrTables.Valid, Shifting, AllReady, Sound, Explored, NeverAccepts, AllShift, Linked, Descending;
    DescendingIn(p.a, g, h);
    ShiftingSound(p.a, g, g', |g.tops|, token, posn, h);
    DescendingIn(p.a, g', h);
    if Regular(p) && !recovered {
      var m := SearchOf(p);
      forall i: nat | i < |g.tops| ensures ShiftsAt(m, g, g', posn, i) {
        ShiftedSpine(p.a, g, g', i, token, posn, h);
        LiveShifts(m, g, g', posn, i, seen);
      }
      assert AllShift(m, g, g', posn) by {
        AllShiftIs(m, g, g', posn);
      }
    }
    ShiftExplores(p, g, g', posn, recovered, seen);
  }

  lemma AllShiftIs<V>(m: Search, g: Gss<V>, g': Gss<V>, posn: nat)
    requires Descending(g.items) && Descending(g'.items) && |g'.tops| == |g.tops|
    requires forall i :: 0 <= i < |g.tops| ==> ShiftsAt(m, g, g', posn, i)
    ensures AllShift(m, g, g', posn)
  {
  }

  lemma LiveShifts<V>(m: Search, g: Gss<V>, g': Gss<V>, posn: nat, i: nat, seen: set<seq<int>>)
    requires Descending(g.items) && Descending(g'.items) && i < |g.tops| == |g'.tops| && Linked(m.a, g.items)
    requires StateAt(g.items, g.tops[i]) && StateAt(g'.items, g'.tops[i]) && g.items[g.tops[i]].posn == posn
    requires Ready(m.a, g.items, g.tops[i], m.token(posn)) && Explored(m, g, posn, seen, {})
    requires Spine(g'.items, g'.tops[i]) == Spine(g.items, g.tops[i]) + [Node(ShiftTo(m.a, g.items, g.tops[i], m.token(posn)), posn + 1)]
    ensures ShiftsAt(m, g, g', posn, i)
  {
    hide LrTables.Valid, LrTables.LrAction, Linked, Descending, Spine, Met, Exact, Moves, IsPath;
    var spine := Spine(g.items, g.tops[i]);
    StackIsPath(m.a, g.items, g.tops[i]);
    assert HasStack(g, i, spine) && spine != [];
    MetTop(spine, posn, seen);
    assert Handled(m, g, posn, seen, Lrs(spine));
  }

  lemma StackGoes<V>(p: Glr<V>, g: Gss<V>, k: int, q: int, posn: nat, h: History)
    requires Sound(p.a, g, h) && Fits(p) && 0 <= k < |g.tops| && StateAt(g.items, g.tops[k]) && q == g.items[g.tops[k]].lr
    requires IsState(p.a, q) && q != p.a.t.final
    ensures Goes(p, g, k, q, posn) && Descending(g.items)
  {
    hide LrTables.Valid, Sound, Fits, Shape, Linked;
    DescendingIn(p.a, g, h);
    TokenFits(p, posn);
  }

  lemma NeedExplores<V(!new)>(p: Glr<V>, g: Gss<V>, g': Gss<V>, k: int, posn: nat, recovered: bool, seen: set<seq<int>>,
                              open: set<seq<int>>)
    requires Explores(p, g, posn, recovered, seen, open) && g'.items == g.items && g'.tops == g.tops
    ensures Explores(p, g', posn, recovered, seen, open) && TopOf(g', k) == TopOf(g, k) && StackOf(g', k) == StackOf(g, k)
  {
    hide LrTables.Valid, Explores, Descending, Spine;
    SameExplores(p, g, g', posn, recovered, seen, open);
  }

  lemma OpenTop<V>(a: Lalr, g: Gss<V>, i: nat, h: History)
    requires Sound(a, g, h) && i < |g.tops|
    ensures OpenFrom(g, i) == OpenFrom(g, i + 1) + TopOf(g, i)
  {
    hide LrTables.Valid, Sound, OpenFrom, TopOf;
    DescendingIn(a, g, h);
    OpenStep(g, i);
  }

  lemma OpenLater<V>(g: Gss<V>, k: nat, g': Gss<V>, next: nat)
    requires Extends(g, k, g') && next == k + 1
    ensures OpenFrom(g, next) <= OpenFrom(g', next)
  {
    hide OpenFrom, Descending, Contiguous, Fans;
    OpenStays(g, k, g', next);
  }

  lemma NothingOpen<V>(g: Gss<V>)
    ensures OpenFrom(g, |g.tops|) == {}
  {
    hide Descending, Spine;
  }

  /** A reduction of stack k in nondeterministic operation keeps everything; a stack whose action ended
      in YYERROR is then given up. */
  lemma ReductionKeeps<V(!new)>(p: Glr<V>, g: Gss<V>, k: nat, rule: int, raw: Option<V>, flag: Flag, g': Gss<V>, posn: nat, h: History,
                                recovered: bool, seen: set<seq<int>>, open: set<seq<int>>)
    requires CanReduce(p.a, g, k, rule) && Working(p.a, g, posn, h) && Shape(g') && (AllDeferred(p) ==> Distinct(p.a, g, k))
    requires Reduces(p.a, g, k, rule, p.immediate(rule), p.action, raw, flag, g')
    requires Explores(p, g, posn, recovered, seen, open) && (Regular(p) && !recovered ==> Offering(p, g, k, rule, posn, open))
    ensures Sound(p.a, g', h) && (flag != YyOk ==> !Regular(p)) && (flag == YyErr ==> k < |g'.tops|)
    ensures flag == YyOk || flag == YyErr ==>
              Reworked(p, g, k, if flag == YyErr then MarkDeleted(g', k) else g', posn, h, recovered,
                       seen + {After(p.a, StackOf(g, k), rule)}, open)
    ensures flag == YyErr ==> g'.split != NONE && MarkDeleted(g', k).tops[k] == NONE && Sound(p.a, MarkDeleted(g', k), h)
  {
    hide LrTables.Valid, Sound, Shape, InStep, CanReduce, ReduceLater, RunsAction, Extends, Distinct, AllDeferred, Regular, Explores,
      Offering, TopOf, StackOf, After, MarkDeleted, Reduces;
    ReductionExplores(p, g, k, rule, p.immediate(rule), raw, flag, g', posn, recovered, seen, open);
    if AllDeferred(p) {
      NotImmediate(p, rule);
      ReductionDistinct(p.a, g, k, rule, p.action, raw, flag, g', posn);
    }
    if flag == YyOk {
      ReductionWorks(p.a, g, k, rule, p.immediate(rule), p.action, raw, flag, g', posn, h);
    } else {
      StopSound(p.a, g, k, rule, p.immediate(rule), p.action, raw, flag, g', h);
    }
    if flag == YyErr {
      RejectionWorks(p.a, g, k, rule, p.immediate(rule), p.action, raw, flag, g', posn, h);
      IrregularExplores(p, MarkDeleted(g', k), posn, recovered, seen + {After(p.a, StackOf(g, k), rule)}, open + TopOf(MarkDeleted(g', k), k));
    }
  }

  lemma NotImmediate<V>(p: Glr<V>, rule: int)
    requires AllDeferred(p)
    ensures !p.immediate(rule)
  {
  }

  /** What holds after work on stack k. */
  ghost predicate Reworked<V(!new)>(p: Glr<V>, g: Gss<V>, k: int, g': Gss<V>, posn: nat, h: History, recovered: bool, seen: set<seq<int>>,
                                    open: set<seq<int>>) {
    && Working(p.a, g', posn, h) && Extends(g, k, g') && |g'.tops| == |g.tops| && (AllDeferred(p) ==> Distinct(p.a, g', -1))
    && Explores(p, g', posn, recovered, seen, open + TopOf(g', k))
  }

  // ---------------------------------------------------------------- one stack

  lemma RecoveredRejects<V(!new)>(p: Glr<V>, g: Gss<V>, posn: nat, recovered: bool, seen: set<seq<int>>, open: set<seq<int>>)
    requires Explores(p, g, posn, recovered, seen, open)
    ensures Regular(p) && recovered ==> NeverAccepts(SearchOf(p))
  {
    hide NeverAccepts, Regular, Explored;
  }

  lemma RecoveredSearch<V(!new)>(p: Glr<V>, g: Gss<V>, posn: nat, seen: set<seq<int>>, open: set<seq<int>>)
    requires Regular(p) ==> NeverAccepts(SearchOf(p))
    ensures Explores(p, g, posn, true, seen, open)
  {
    hide NeverAccepts, Regular, Explored;
  }

  /** What a failed resolution tells of the grammar. */
  lemma BlameFits<V(!new)>(p: Glr<V>, res: Resolution)
    requires Blamed(ActionsOf(p), res)
    ensures (Regular(p) ==> !res.ActionFails?) && (res.IsAmbiguous? ==> Undecided(ActionsOf(p).r))
  {
    hide Undecided;
  }

  lemma SingleSame<V>(g: Gss<V>, g': Gss<V>)
    requires g'.items == g.items && g'.tops == g.tops
    ensures SingleSpine(g') == SingleSpine(g)
  {
    hide Descending, Spine;
  }

  lemma CompressSpine<V>(a: Lalr, g: Gss<V>, h: History)
    requires Standard(a, g, h)
    ensures SingleSpine(Compress(g)) == SingleSpine(g)
  {
    hide LrTables.Valid, Linked, Supported, Telling, Owned, Filled, Descending, Contiguous, Fans, Spine, Compress;
    CompressKeepsStack(a, g);
  }

  lemma FrameSpine<V>(g: Gss<V>, g': Gss<V>)
    requires Shape(g) && Shape(g') && SameFrame(g.items, g'.items) && g'.tops == g.tops
    ensures SingleSpine(g') == SingleSpine(g)
  {
    hide Contiguous, Fans, SameFrame, Descending, Spine;
    FrameTops(g, g'.items);
    FrameChains(g.items, g'.items);
    if |g.tops| == 1 && StateAt(g.items, g.tops[0]) {
      SameSpine(g.items, g'.items, g.tops[0]);
    }
  }

  lemma SingleExplores<V(!new)>(p: Glr<V>, g: Gss<V>, g': Gss<V>, posn: nat, recovered: bool, seen: set<seq<int>>)
    requires Shape(g) && Shape(g') && |g.tops| == |g'.tops| == 1 && SingleSpine(g') == SingleSpine(g)
    requires StateAt(g.items, g.tops[0]) && StateAt(g'.items, g'.tops[0])
    requires Explores(p, g, posn, recovered, seen, OpenFrom(g, 0))
    ensures Explores(p, g', posn, recovered, seen, OpenFrom(g', 0))
  {
    hide LrTables.Valid, Contiguous, Fans, Descending, Spine, Explores, OpenFrom;
    MovedExplores(p, g, g', posn, recovered, seen, OpenFrom(g, 0));
  }

  lemma PushedSpine<V>(a: Lalr, g: Gss<V>, q: int, posn: nat, v: V, h: History)
    requires Standard(a, g, h) && g.items[g.tops[0]].posn <= posn
    ensures SingleSpine(PushState(g, 0, q, posn, Resolved(v))) == SingleSpine(g) + [Node(q, posn)]
  {
    hide LrTables.Valid, Linked, Supported, Telling, Owned, Filled, Descending, Contiguous, Fans, Spine, PushState;
    SinglePush(a, g, posn, h);
    PushEffect(g, 0, q, posn, Resolved(v));
    PushedTops(g, q, posn, v);
  }

  lemma PushedTops<V>(g: Gss<V>, q: int, posn: nat, v: V)
    requires |g.tops| == 1
    ensures |PushState(g, 0, q, posn, Resolved(v)).tops| == 1
  {
  }

  lemma SinglePush<V>(a: Lalr, g: Gss<V>, posn: nat, h: History)
    requires Standard(a, g, h) && g.items[g.tops[0]].posn <= posn
    ensures CanPush(g, 0, posn) && g.items != []
  {
    hide Sound;
  }

  lemma PlainPrepares<V>(p: Glr<V>, stack: seq<int>, q: int, x: int, posn: nat, seen: set<seq<int>>)
    requires IsState(p.a, q) && !Defaulted(p.a, q) && p.conflicts(q, x) == []
    ensures x == p.token(posn) ==> Prepared(p, stack, q, posn, seen, Action(p.a, q, x))
  {
    hide LrTables.LrAction;
  }

  /** A reduction in deterministic operation is the only move there is. */
  lemma SingleReduction<V(!new)>(p: Glr<V>, g: Gss<V>, q: int, rule: int, flag: Flag, g': Gss<V>, posn: nat, h: History,
                                 recovered: bool, seen: set<seq<int>>)
    requires Calm(p.a, g, posn, h) && CanReduce(p.a, g, 0, rule) && RunsAction(p.a, g, 0, rule, p.action, flag, g') && Shape(g')
    requires q == g.items[g.tops[0]].lr && IsState(p.a, q) && q != p.a.t.final && Fits(p)
    requires Explores(p, g, posn, recovered, seen, OpenFrom(g, 0))
    requires Regular(p) && !recovered ==> Prepared(p, StackOf(g, 0), q, posn, seen, LrTables.Reduce(rule))
    ensures flag != YyOk ==> !Regular(p)
    ensures flag == YyOk ==>
              Explores(p, g', posn, recovered, seen + {After(p.a, StackOf(g, 0), rule)}, OpenFrom(g', 0))
  {
    hide LrTables.Valid, Fits, Sound, StackSettled, CanReduce, RunsAction, Regular, Explores, Prepared, OpenFrom, TopOf, StackOf, After,
      Goes, Offering, Shape, Spine;
    DescendingIn(p.a, g, h);
    StackGoes(p, g, 0, q, posn, h);
    OpenSingle(g);
    if Regular(p) && !recovered {
      PreparedOffers(p, g, 0, q, posn, seen, rule, OpenFrom(g, 0));
    }
    RunsReduces(p.a, g, rule, p.action, flag, g');
    CalmInStep(p.a, g, posn, h);
    ReductionExplores(p, g, 0, rule, true, None, flag, g', posn, recovered, seen, OpenFrom(g, 0));
    if flag == YyOk {
      RunsSingle(p.a, g, rule, p.action, g');
      var now := seen + {After(p.a, StackOf(g, 0), rule)};
      assert {} + TopOf(g, 0) + TopOf(g', 0) == OpenFrom(g, 0) + TopOf(g', 0);
      ReduceEnds(p, g, 0, q, g', posn, recovered, seen, now, {}, rule);
      OpenSingle(g');
      assert {} + TopOf(g', 0) == OpenFrom(g', 0);
    }
  }

  lemma RunsReduces<V>(a: Lalr, g: Gss<V>, rule: int, act: (int, seq<Semantics<V>>) -> ActionResult<V>, flag: Flag, g': Gss<V>)
    requires CanReduce(a, g, 0, rule) && RunsAction(a, g, 0, rule, act, flag, g')
    ensures Reduces(a, g, 0, rule, true, act, None, flag, g')
  {
  }

  lemma RunsSingle<V>(a: Lalr, g: Gss<V>, rule: int, act: (int, seq<Semantics<V>>) -> ActionResult<V>, g': Gss<V>)
    requires CanReduce(a, g, 0, rule) && RunsAction(a, g, 0, rule, act, YyOk, g') && Shape(g') && |g.tops| == 1
    ensures |g'.tops| == 1 && Descending(g'.items)
  {
    hide LrTables.Valid, CanReduce, RunsAction, Contiguous, Fans, Descending;
    RunsEffect(a, g, 0, rule, act, g');
  }

  lemma CalmInStep<V>(a: Lalr, g: Gss<V>, posn: nat, h: History)
    requires Calm(a, g, posn, h)
    ensures InStep(g, posn) && |g.tops| == 1
  {
    hide Sound, StackSettled;
  }

  /** A shift in deterministic operation is. */
  lemma SingleShift<V(!new)>(p: Glr<V>, g: Gss<V>, q: int, token: int, g': Gss<V>, posn: nat, h: History, recovered: bool,
                             seen: set<seq<int>>)
    requires Calm(p.a, g, posn, h) && Calm(p.a, g', posn + 1, h) && Fits(p) && IsToken(p.a, token)
    requires q == g.items[g.tops[0]].lr && IsState(p.a, q) && q != p.a.t.final && Action(p.a, q, token).Shift?
    requires SingleSpine(g') == SingleSpine(g) + [Node(Action(p.a, q, token).state, posn + 1)]
    requires Explores(p, g, posn, recovered, seen, OpenFrom(g, 0)) && (recovered || token == p.token(posn))
    requires Regular(p) && !recovered ==> Prepared(p, StackOf(g, 0), q, posn, seen, Action(p.a, q, token))
    ensures Explores(p, g', posn + 1, recovered, OpenFrom(g', 0), OpenFrom(g', 0))
  {
    hide LrTables.Valid, LrTables.LrAction, Fits, Sound, StackSettled, Regular, Explores, Prepared, OpenFrom, TopOf, Goes, Shape, Spine,
      Descending, Linked, ShiftsAt;
    DescendingIn(p.a, g, h);
    DescendingIn(p.a, g', h);
    StackGoes(p, g, 0, q, posn, h);
    OpenSingle(g);
    assert {} + TopOf(g, 0) == OpenFrom(g, 0);
    ShiftCloses(p, g, 0, q, posn, recovered, seen, {}, Action(p.a, q, token));
    if !recovered {
      StackIsPath(p.a, g.items, g.tops[0]);
      assert ShiftsAt(SearchOf(p), g, g', posn, 0) by {
        OneShifts(SearchOf(p), g, g', q, posn);
      }
      AllShiftIs(SearchOf(p), g, g', posn);
    }
    ShiftExplores(p, g, g', posn, recovered, seen);
  }

  lemma OneShifts<V>(m: Search, g: Gss<V>, g': Gss<V>, q: int, posn: nat)
    requires Descending(g.items) && Descending(g'.items) && |g.tops| == |g'.tops| == 1 && IsToken(m.a, m.token(posn))
    requires StateAt(g.items, g.tops[0]) && StateAt(g'.items, g'.tops[0]) && g.items[g.tops[0]].posn == posn
    requires IsPath(m.a, Lrs(Spine(g.items, g.tops[0]))) && Last(Lrs(Spine(g.items, g.tops[0]))) == q != m.a.t.final
    requires IsState(m.a, q) && Action(m.a, q, m.token(posn)).Shift?
    requires SingleSpine(g') == SingleSpine(g) + [Node(Action(m.a, q, m.token(posn)).state, posn + 1)]
    ensures ShiftsAt(m, g, g', posn, 0)
  {
    hide LrTables.Valid, LrTables.LrAction, Descending, Spine, IsPath;
  }

  lemma SingleEnds<V(!new)>(p: Glr<V>, g: Gss<V>, posn: nat, h: History, recovered: bool, seen: set<seq<int>>)
    requires Calm(p.a, g, posn, h) && g.items[g.tops[0]].lr == p.a.t.final
    requires Explores(p, g, posn, recovered, seen, OpenFrom(g, 0))
    ensures Regular(p) && !recovered ==> AcceptsAt(SearchOf(p), posn)
  {
    hide LrTables.Valid, Sound, StackSettled, Regular, Explores, OpenFrom, Shape, Descending, Linked, AcceptsAt;
    DescendingIn(p.a, g, h);
    if Regular(p) && !recovered {
      EndExplores(p, g, posn, seen);
    }
  }

  lemma BeginSearch<V(!new)>(p: Glr<V>, g: Gss<V>, v: V)
    requires g.items == [State(0, NONE, 0, Resolved(v))] && g.tops == [0]
    ensures Explores(p, g, 0, false, {[0]}, OpenFrom(g, 0))
  {
    hide LrTables.Valid, Explores, OpenFrom;
    BeginExplores(p, g);
  }

  // ---------------------------------------------------------------- error recovery

  /** The topmost state that shifts the error token is uncovered, and the error token is on it. */
  ghost predicate CaughtOn(a: Lalr, before: seq<Node>, after: seq<Node>) {
    && LrTables.Sized(a.t)
    && var n := Y.ErrorDepth(a.t, Lrs(before), |before|);
       && 0 < n && Y.CatchesErrors(a.t, before[n - 1].lr)
       && after == before[..n] + [Node(Y.ErrorState(a.t, before[n - 1].lr), before[n - 1].posn)]
  }

  lemma {:induction false} ContiguousSpine<V>(items: seq<Item<V>>, t: int)
    requires Descending(items) && Contiguous(items, |items|) && StateAt(items, t)
    ensures |Spine(items, t)| == t + 1 && forall j :: 0 <= j <= t ==> Spine(items, t)[j] == Node(items[j].lr, items[j].posn)
    decreases t
  {
    if t != 0 {
      assert Below(items, t);
      ContiguousSpine(items, t - 1);
    }
  }

  /** A single stack without its topmost states. */
  lemma PoppedSpine<V>(g: Gss<V>, n: nat)
    requires Shape(g) && g.split == NONE && 0 < n <= |g.items|
    ensures |SingleSpine(g)| == |g.items| && Lrs(SingleSpine(g)) == LrsOf(g.items)
    ensures SingleSpine(g.(items := g.items[..n], tops := [n - 1])) == SingleSpine(g)[..n]
    ensures SingleSpine(g)[n - 1] == Node(g.items[n - 1].lr, g.items[n - 1].posn) && g.items[n - 1].State?
  {
    hide Descending, Fans, Spine;
    assert StateAt(g.items, |g.items| - 1);
    ContiguousSpine(g.items, |g.items| - 1);
    PrefixShape(g.items, n);
    ContiguousSpine(g.items[..n], n - 1);
    assert SingleSpine(g.(items := g.items[..n], tops := [n - 1])) == SingleSpine(g)[..n];
  }

  lemma CaughtThere<V>(a: Lalr, g: Gss<V>, n: nat)
    requires Shape(g) && g.split == NONE && 0 < n <= |g.items| && LrTables.Sized(a.t)
    requires n == Y.ErrorDepth(a.t, LrsOf(g.items), |g.items|)
    ensures Y.CatchesErrors(a.t, g.items[n - 1].lr)
    ensures CaughtOn(a, SingleSpine(g), SingleSpine(g.(items := g.items[..n], tops := [n - 1]))
                                        + [Node(Y.ErrorState(a.t, g.items[n - 1].lr), g.items[n - 1].posn)])
  {
    hide LrTables.Valid, Descending, Fans, Contiguous, Spine, SingleSpine, Y.ErrorState;
    PoppedSpine(g, n);
    assert LrsOf(g.items)[n - 1] == g.items[n - 1].lr;
  }
}
