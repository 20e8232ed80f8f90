/** Why a GLR parse misses nothing: of the stacks that the automaton with its conflicts can build from
    the tokens so far all are tried, and those that shift the next token are kept. */
module GlrComplete {
  import opened Collections
  import LrTables
  import opened LrAutomaton
  import opened GlrShape
  import opened GlrOps
  import opened GlrReduce
  import opened GlrInvariant

  /** The automaton, the conflicts of its states, and the input. */
  datatype Search = Search(a: Lalr, conflicts: (int, int) -> seq<int>, token: nat -> int)

  // ---------------------------------------------------------------- the automaton with its conflicts

  /** The rules by which a state may reduce on the token: that of the table, and those in conflict. A
      state with only a default action does not look at the token. */
  ghost predicate Offers(m: Search, q: int, x: int, rule: int)
    requires IsState(m.a, q)
  {
    if Defaulted(m.a, q) then DefaultAction(m.a, q) == LrTables.Reduce(rule)
    else Action(m.a, q, x) == LrTables.Reduce(rule) || rule in m.conflicts(q, x)
  }

  ghost predicate Moves(m: Search, x: int, stack: seq<int>, rule: int) {
    Live(m.a, stack) && Offers(m, Last(stack), x, rule) && Complete(m.a, Last(stack), rule)
  }

  /** The stack after a reduction. */
  ghost function After(a: Lalr, stack: seq<int>, rule: int): seq<int> {
    if IsPath(a, stack) && IsRule(a, rule) && Length(a, rule) < |stack| then Reduced(a, stack, rule) else []
  }

  /** The stack shifts the token. */
  ghost predicate Onward(m: Search, x: int, stack: seq<int>) {
    Live(m.a, stack) && IsToken(m.a, x) && Action(m.a, Last(stack), x).Shift?
  }

  ghost function ShiftedOn(m: Search, x: int, stack: seq<int>): seq<int>
    requires Onward(m, x, stack)
  {
    stack + [Action(m.a, Last(stack), x).state]
  }

  /** n reductions on the token lead from one stack to the other. */
  ghost predicate Reaches(m: Search, x: int, from: seq<int>, to: seq<int>, n: nat)
    decreases n
  {
    if n == 0 then from == to
    else exists mid, rule :: Reaches(m, x, from, mid, n - 1) && Moves(m, x, mid, rule) && to == After(m.a, mid, rule)
  }

  /** A stack that has just shifted the n-th token, or the one at the start. */
  ghost predicate Shifted(m: Search, n: nat, stack: seq<int>)
    decreases n
  {
    if n == 0 then stack == [0]
    else exists from, to, k: nat :: Shifted(m, n - 1, from) && Reaches(m, Before(m, n), from, to, k) && ShiftsTo(m, Before(m, n), to, stack)
  }

  /** The token before the n-th position. */
  ghost function Before(m: Search, n: nat): int
    requires n > 0
  {
    m.token(n - 1)
  }

  ghost predicate ShiftsTo(m: Search, x: int, to: seq<int>, stack: seq<int>) {
    Onward(m, x, to) && stack == ShiftedOn(m, x, to)
  }

  /** A stack that can be built from the first n tokens, with the next one as lookahead. */
  ghost predicate Built(m: Search, n: nat, stack: seq<int>) {
    exists from, k: nat :: Shifted(m, n, from) && Reaches(m, m.token(n), from, stack, k)
  }

  /** Some run comes to the final state with the n-th token. */
  ghost predicate AcceptsAt(m: Search, n: nat) {
    exists stack :: Shifted(m, n, stack) && Finished(m.a, stack)
  }

  ghost predicate Finished(a: Lalr, stack: seq<int>) {
    stack != [] && Last(stack) == a.t.final
  }

  /** No run ever comes to the final state. */
  ghost predicate NeverAccepts(m: Search) {
    forall n: nat :: !AcceptsAt(m, n)
  }

  // ---------------------------------------------------------------- what has been tried

  /** Stack i of g. */
  ghost predicate HasStack<V>(g: Gss<V>, i: int, spine: seq<Node>) {
    && Descending(g.items) && 0 <= i < |g.tops| && StateAt(g.items, g.tops[i])
    && Spine(g.items, g.tops[i]) == spine
  }

  /** Some stack of g is this one. */
  ghost predicate IsLive<V>(g: Gss<V>, stack: seq<int>) {
    exists i, spine :: HasStack(g, i, spine) && Lrs(spine) == stack
  }

  /** Every part of the stack that ends at the position has been tried as a stack of its own. */
  ghost predicate Met(spine: seq<Node>, posn: nat, seen: set<seq<int>>) {
    forall j :: 0 <= j < |spine| && spine[j].posn == posn ==> Lrs(spine[..j + 1]) in seen
  }

  /** Nothing remains to be done for the stack: what it reduces to has been tried, and if it shifts the
      lookahead, it is kept. */
  ghost predicate Handled<V>(m: Search, g: Gss<V>, posn: nat, seen: set<seq<int>>, stack: seq<int>) {
    && Live(m.a, stack)
    && (forall rule :: Moves(m, m.token(posn), stack, rule) ==> After(m.a, stack, rule) in seen)
    && (Onward(m, m.token(posn), stack) ==> IsLive(g, stack))
  }

  /** Only stacks that can be built have been tried, among them all that have shifted the last token;
      and no run is at its end before. */
  ghost predicate Exact(m: Search, posn: nat, seen: set<seq<int>>) {
    && (forall stack :: stack in seen ==> Built(m, posn, stack))
    && (forall stack :: Shifted(m, posn, stack) ==> stack in seen)
    && (forall n: nat :: n < posn ==> !AcceptsAt(m, n))
  }

  /** All that has been tried is settled, except for what is open. */
  ghost predicate AllHandled<V>(m: Search, g: Gss<V>, posn: nat, seen: set<seq<int>>, open: set<seq<int>>) {
    forall stack :: stack in seen && stack !in open ==> Handled(m, g, posn, seen, stack)
  }

  ghost predicate AllMet<V>(g: Gss<V>, posn: nat, seen: set<seq<int>>) {
    forall i, spine :: HasStack(g, i, spine) ==> Met(spine, posn, seen)
  }

  ghost predicate Explored<V>(m: Search, g: Gss<V>, posn: nat, seen: set<seq<int>>, open: set<seq<int>>) {
    AllMet(g, posn, seen) && AllHandled(m, g, posn, seen, open) && Exact(m, posn, seen)
  }

  /** Stack k, if it is live. */
  ghost function TopOf<V>(g: Gss<V>, k: int): set<seq<int>> {
    if Descending(g.items) && 0 <= k < |g.tops| && StateAt(g.items, g.tops[k]) then {Lrs(Spine(g.items, g.tops[k]))} else {}
  }

  /** The live stacks from the i-th on. */
  ghost function OpenFrom<V>(g: Gss<V>, i: nat): set<seq<int>> {
    set j | Descending(g.items) && i <= j < |g.tops| && StateAt(g.items, g.tops[j]) :: Lrs(Spine(g.items, g.tops[j]))
  }

  // ---------------------------------------------------------------- changes of the stacks

  /** If no stack is new, and those that are not open stay. */
  lemma Carried<V>(m: Search, g: Gss<V>, g': Gss<V>, posn: nat, seen: set<seq<int>>, open: set<seq<int>>)
    requires Explored(m, g, posn, seen, open)
    requires forall i, spine :: HasStack(g', i, spine) ==> exists j :: HasStack(g, j, spine)
    requires forall stack :: IsLive(g, stack) && stack !in open ==> IsLive(g', stack)
    ensures Explored(m, g', posn, seen, open)
  {
    hide LrTables.Valid, HasStack, IsLive, Met, Moves, Onward, Exact;
    forall stack | stack in seen && stack !in open ensures Handled(m, g', posn, seen, stack) {
      assert Handled(m, g, posn, seen, stack);
    }
  }

  lemma Opened<V>(m: Search, g: Gss<V>, posn: nat, seen: set<seq<int>>, open: set<seq<int>>, more: set<seq<int>>)
    requires Explored(m, g, posn, seen, open) && open <= more
    ensures Explored(m, g, posn, seen, more)
  {
    hide LrTables.Valid, AllMet, Handled, Exact;
  }

  /** A stack that is settled need not be open. */
  lemma ClosesOne<V>(m: Search, g: Gss<V>, posn: nat, seen: set<seq<int>>, open: set<seq<int>>, stack: seq<int>)
    requires Explored(m, g, posn, seen, open + {stack}) && Handled(m, g, posn, seen, stack)
    ensures Explored(m, g, posn, seen, open)
  {
    hide LrTables.Valid, AllMet, Handled, Exact;
  }

  /** One more stack has been tried. */
  lemma SeenMore<V>(m: Search, g: Gss<V>, posn: nat, seen: set<seq<int>>, open: set<seq<int>>, next: seq<int>)
    requires Explored(m, g, posn, seen, open) && Built(m, posn, next) && (next in seen || next in open)
    ensures Explored(m, g, posn, seen + {next}, open)
  {
    hide LrTables.Valid, HasStack, IsLive, Moves, Onward, Built, Shifted;
    forall stack | stack in seen + {next} && stack !in open ensures Handled(m, g, posn, seen + {next}, stack) {
      assert Handled(m, g, posn, seen, stack);
    }
    forall i, spine | HasStack(g, i, spine) ensures Met(spine, posn, seen + {next}) {
      assert Met(spine, posn, seen);
    }
  }

  /** The stacks besides the k-th stay. */
  lemma OtherHas<V>(g: Gss<V>, k: int, g': Gss<V>, i: int, spine: seq<Node>)
    requires Extends(g, k, g') && i != k && HasStack(g, i, spine)
    ensures HasStack(g', i, spine)
  {
    hide Contiguous, Fans, Spine;
    assert SameStack(g, g', i);
  }

  lemma OtherHad<V>(g: Gss<V>, k: int, g': Gss<V>, i: int, spine: seq<Node>)
    requires Extends(g, k, g') && |g'.tops| == |g.tops| && i != k && HasStack(g', i, spine)
    ensures HasStack(g, i, spine)
  {
    hide Contiguous, Fans, Spine;
    assert SameStack(g, g', i);
    TopKind(g, i);
  }

  lemma TopHas<V>(g: Gss<V>, k: int, spine: seq<Node>)
    requires HasStack(g, k, spine)
    ensures TopOf(g, k) == {Lrs(spine)}
  {
  }

  /** Stack k is open, and becomes one whose parts have been tried, or none. */
  lemma Changed<V>(m: Search, g: Gss<V>, k: int, g': Gss<V>, posn: nat, seen: set<seq<int>>, open: set<seq<int>>)
    requires Explored(m, g, posn, seen, open) && Extends(g, k, g') && |g'.tops| == |g.tops| && 0 <= k < |g.tops|
    requires Descending(g.items) && TopOf(g, k) <= open && forall spine :: HasStack(g', k, spine) ==> Met(spine, posn, seen)
    ensures Explored(m, g', posn, seen, open)
  {
    hide LrTables.Valid, Met, Moves, Onward, Exact, HasStack, Extends, TopOf;
    forall i, spine | HasStack(g', i, spine) ensures Met(spine, posn, seen) {
      if i != k {
        OtherHad(g, k, g', i, spine);
      }
    }
    forall stack | stack in seen && stack !in open ensures Handled(m, g', posn, seen, stack) {
      assert Handled(m, g, posn, seen, stack);
      if IsLive(g, stack) {
        var i, spine :| HasStack(g, i, spine) && Lrs(spine) == stack;
        if i != k {
          OtherHas(g, k, g', i, spine);
        } else {
          TopHas(g, k, spine);
        }
      }
    }
  }

  // ---------------------------------------------------------------- reductions

  /** Stack k is reduced in g', or merged into another stack. */
  ghost predicate Replaced<V>(a: Lalr, g: Gss<V>, k: int, rule: int, g': Gss<V>)
    requires CanReduce(a, g, k, rule)
  {
    HasStack(g', k, ReducedSpine(a, g, k, rule))
    || (0 <= k < |g'.tops| && g'.tops[k] == NONE && exists i: nat :: Covers(g, k, i, ReducedSpine(a, g, k, rule)))
  }

  /** The stack that the reduction leads to. */
  lemma AfterReduction<V>(a: Lalr, g: Gss<V>, k: int, rule: int)
    requires CanReduce(a, g, k, rule)
    ensures Descending(g.items) && After(a, Lrs(Spine(g.items, g.tops[k])), rule) == Lrs(ReducedSpine(a, g, k, rule))
    ensures IsPath(a, Lrs(Spine(g.items, g.tops[k]))) && Last(Lrs(Spine(g.items, g.tops[k]))) == g.items[g.tops[k]].lr
    ensures IsRule(a, rule) && Length(a, rule) < |Lrs(Spine(g.items, g.tops[k]))|
    ensures HasStack(g, k, Spine(g.items, g.tops[k]))
  {
    hide LrTables.Valid, Linked, Spine, ReducedSpine, Contiguous, Fans;
    ReducesLikeAutomaton(a, g, k, rule);
    StackIsPath(a, g.items, g.tops[k]);
  }

  lemma BuiltMore(m: Search, posn: nat, stack: seq<int>, rule: int)
    requires Built(m, posn, stack) && Moves(m, m.token(posn), stack, rule)
    ensures Built(m, posn, After(m.a, stack, rule))
  {
    hide LrTables.Valid, Moves, After, Shifted;
    var from, k: nat :| Shifted(m, posn, from) && Reaches(m, m.token(posn), from, stack, k);
    assert Reaches(m, m.token(posn), from, After(m.a, stack, rule), k + 1);
  }

  lemma MetTop(spine: seq<Node>, posn: nat, seen: set<seq<int>>)
    requires Met(spine, posn, seen) && spine != [] && Last(spine).posn == posn
    ensures Lrs(spine) in seen
  {
    assert spine[..|spine| - 1 + 1] == spine;
  }

  lemma MetPart(spine: seq<Node>, part: seq<Node>, posn: nat, seen: set<seq<int>>)
    requires Met(spine, posn, seen) && part <= spine
    ensures Met(part, posn, seen)
  {
    forall j | 0 <= j < |part| && part[j].posn == posn ensures Lrs(part[..j + 1]) in seen {
      assert part[..j + 1] == spine[..j + 1];
    }
  }

  lemma MetPush(spine: seq<Node>, x: Node, posn: nat, seen: set<seq<int>>)
    requires Met(spine, posn, seen) && Lrs(spine + [x]) in seen
    ensures Met(spine + [x], posn, seen)
  {
    var more := spine + [x];
    forall j | 0 <= j < |more| && more[j].posn == posn ensures Lrs(more[..j + 1]) in seen {
      if j < |spine| {
        assert more[..j + 1] == spine[..j + 1];
      } else {
        assert more[..j + 1] == more;
      }
    }
  }

  lemma MetMore(spine: seq<Node>, posn: nat, seen: set<seq<int>>, more: set<seq<int>>)
    requires Met(spine, posn, seen) && seen <= more
    ensures Met(spine, posn, more)
  {
  }

  /** The reduced stack keeps a part of the stack it came from. */
  lemma ReducedParts<V>(a: Lalr, g: Gss<V>, k: int, rule: int) returns (below: seq<Node>, x: Node)
    requires CanReduce(a, g, k, rule)
    ensures Descending(g.items) && below <= Spine(g.items, g.tops[k]) && ReducedSpine(a, g, k, rule) == below + [x]
    ensures x.posn == g.items[g.tops[k]].posn
  {
    hide LrTables.Valid, Linked, Spine, Contiguous, Fans;
    Reducible(a, g, k, rule);
    BackSpine(g.items, g.tops[k], Length(a, rule));
    below := Spine(g.items, Uncovered(a, g, k, rule));
    x := Node(GotoRule(a, g.items[Uncovered(a, g, k, rule)].lr, rule), g.items[g.tops[k]].posn);
  }

  /** A reduction tries one more stack, or one that has been tried on another stack. */
  lemma ReductionExplored<V>(m: Search, g: Gss<V>, k: int, rule: int, g': Gss<V>, posn: nat, seen: set<seq<int>>, open: set<seq<int>>)
    requires CanReduce(m.a, g, k, rule) && Extends(g, k, g') && |g'.tops| == |g.tops| && InStep(g, posn)
    requires Replaced(m.a, g, k, rule, g') && Descending(g.items) && Descending(g'.items)
    requires Explored(m, g, posn, seen, open) && TopOf(g, k) <= open
    requires var q := g.items[g.tops[k]].lr; q != m.a.t.final && Offers(m, q, m.token(posn), rule)
    ensures var next := After(m.a, Lrs(Spine(g.items, g.tops[k])), rule);
            Explored(m, g', posn, seen + {next}, open + TopOf(g', k))
  {
    hide LrTables.Valid, Linked, Spine, ReducedSpine, Extends, Offers, Met, Built, Handled, After, Covers, Descending, Contiguous, Fans, Uncovered;
    AfterReduction(m.a, g, k, rule);
    var spine, reduced := Spine(g.items, g.tops[k]), ReducedSpine(m.a, g, k, rule);
    var stack, next := Lrs(spine), Lrs(reduced);
    assert Met(spine, posn, seen);
    TopIsInStep(g, k, posn, spine);
    MetTop(spine, posn, seen);
    BuiltMore(m, posn, stack, rule);
    var below, x := ReducedParts(m.a, g, k, rule);
    var open' := open + TopOf(g', k);
    if HasStack(g', k, reduced) {
      TopHas(g', k, reduced);
    } else {
      var i: nat :| Covers(g, k, i, reduced);
      CoveredSeen(g, k, i, reduced, posn, seen);
    }
    Opened(m, g, posn, seen, open, open');
    SeenMore(m, g, posn, seen, open', next);
    MetPart(spine, below, posn, seen);
    MetMore(below, posn, seen, seen + {next});
    MetPush(below, x, posn, seen + {next});
    forall sp | HasStack(g', k, sp) ensures Met(sp, posn, seen + {next}) {
      ReplacedBy(m.a, g, k, rule, g', sp);
    }
    Changed(m, g, k, g', posn, seen + {next}, open');
  }

  lemma ReplacedBy<V>(a: Lalr, g: Gss<V>, k: int, rule: int, g': Gss<V>, spine: seq<Node>)
    requires CanReduce(a, g, k, rule) && Replaced(a, g, k, rule, g') && HasStack(g', k, spine)
    ensures spine == ReducedSpine(a, g, k, rule)
  {
    hide LrTables.Valid, Linked, Spine, ReducedSpine, Contiguous, Fans, Descending;
  }

  lemma TopIsInStep<V>(g: Gss<V>, k: int, posn: nat, spine: seq<Node>)
    requires InStep(g, posn) && HasStack(g, k, spine)
    ensures spine != [] && Last(spine).posn == posn
  {
  }

  lemma CoveredSeen<V>(g: Gss<V>, k: int, i: nat, part: seq<Node>, posn: nat, seen: set<seq<int>>)
    requires Covers(g, k, i, part) && AllMet(g, posn, seen) && part != [] && Last(part).posn == posn
    ensures Lrs(part) in seen
  {
    hide Descending, Spine, Met;
    var spine := Spine(g.items, g.tops[i]);
    assert HasStack(g, i, spine);
    MetPart(spine, part, posn, seen);
    MetTop(part, posn, seen);
  }

  /** Every rule that the top state offers has been tried. */
  lemma TriedAll(m: Search, x: int, stack: seq<int>, seen: set<seq<int>>)
    requires Live(m.a, stack)
    requires var q := Last(stack);
             if Defaulted(m.a, q) then DefaultAction(m.a, q).Reduce? ==> After(m.a, stack, DefaultAction(m.a, q).rule) in seen
             else
               && (Action(m.a, q, x).Reduce? ==> After(m.a, stack, Action(m.a, q, x).rule) in seen)
               && (forall rule :: rule in m.conflicts(q, x) ==> After(m.a, stack, rule) in seen)
    ensures forall rule :: Moves(m, x, stack, rule) ==> After(m.a, stack, rule) in seen
  {
    hide LrTables.Valid, IsPath, After;
  }

  // ---------------------------------------------------------------- shifting

  /** Reductions lead from what has been tried to what has been tried. */
  lemma {:induction false} StaysSeen<V>(m: Search, g: Gss<V>, posn: nat, seen: set<seq<int>>, from: seq<int>, to: seq<int>, n: nat)
    requires AllHandled(m, g, posn, seen, {}) && from in seen && Reaches(m, m.token(posn), from, to, n)
    ensures to in seen
    decreases n
  {
    hide LrTables.Valid, Moves, After, Onward, IsLive;
    if n > 0 {
      var mid, rule :| Reaches(m, m.token(posn), from, mid, n - 1) && Moves(m, m.token(posn), mid, rule) && to == After(m.a, mid, rule);
      StaysSeen(m, g, posn, seen, from, mid, n - 1);
      assert Handled(m, g, posn, seen, mid);
    }
  }

  /** When nothing is open, all stacks that shift the next token are live. */
  lemma NothingMissed<V>(m: Search, g: Gss<V>, posn: nat, seen: set<seq<int>>, stack: seq<int>)
    requires Explored(m, g, posn, seen, {}) && Shifted(m, posn + 1, stack)
    ensures exists to :: IsLive(g, to) && ShiftsTo(m, m.token(posn), to, stack)
  {
    hide LrTables.Valid, Moves, After, Reaches, IsLive, AllMet, Live, LrTables.LrAction;
    var from, to, k: nat :| Shifted(m, posn, from) && Reaches(m, Before(m, posn + 1), from, to, k)
                            && ShiftsTo(m, Before(m, posn + 1), to, stack);
    StaysSeen(m, g, posn, seen, from, to, k);
    assert Handled(m, g, posn, seen, to);
  }

  lemma NotFinished<V>(m: Search, g: Gss<V>, posn: nat, seen: set<seq<int>>)
    requires Explored(m, g, posn, seen, {})
    ensures forall n: nat :: n < posn + 1 ==> !AcceptsAt(m, n)
  {
    hide LrTables.Valid, Moves, After, Onward, IsLive, AllMet, Shifted, IsPath;
    forall n: nat | n < posn + 1 ensures !AcceptsAt(m, n) {
      if n == posn {
        forall stack | Shifted(m, n, stack) ensures !Finished(m.a, stack) {
          assert Handled(m, g, posn, seen, stack);
        }
      }
    }
  }

  /** Without a stack that goes on there is no run to the final state. */
  lemma NothingGoesOn<V>(m: Search, g: Gss<V>, posn: nat, seen: set<seq<int>>)
    requires Explored(m, g, posn, seen, {})
    requires forall stack :: IsLive(g, stack) ==> !Onward(m, m.token(posn), stack)
    ensures NeverAccepts(m)
  {
    hide LrTables.Valid, IsLive, AllMet, Explored, Onward;
    NotFinished(m, g, posn, seen);
    NoneShifts(m, g, posn, seen, posn + 1);
    forall n: nat | n > posn ensures !AcceptsAt(m, n) {
      NoneLater(m, posn + 1, n);
    }
  }

  lemma NoneShifts<V>(m: Search, g: Gss<V>, posn: nat, seen: set<seq<int>>, n: nat)
    requires Explored(m, g, posn, seen, {}) && n == posn + 1
    requires forall stack :: IsLive(g, stack) ==> !Onward(m, m.token(posn), stack)
    ensures NoneAt(m, n)
  {
    hide LrTables.Valid, IsLive, Explored, Onward, Shifted;
    forall stack | Shifted(m, n, stack) ensures false {
      NothingMissed(m, g, posn, seen, stack);
    }
  }

  /** No run gets as far. */
  ghost predicate NoneAt(m: Search, n: nat) {
    forall stack :: !Shifted(m, n, stack)
  }

  lemma {:induction false} NoneLater(m: Search, n: nat, n': nat)
    requires n <= n' && NoneAt(m, n)
    ensures NoneAt(m, n')
    decreases n'
  {
    hide LrTables.Valid, Reaches, ShiftsTo;
    if n < n' {
      var before: nat := n' - 1;
      NoneLater(m, n, before);
      forall stack | Shifted(m, n', stack) ensures false {
        SomeBefore(m, before, n', stack);
      }
    }
  }

  lemma SomeBefore(m: Search, n: nat, n': nat, stack: seq<int>)
    requires n' == n + 1 && Shifted(m, n', stack)
    ensures !NoneAt(m, n)
  {
    hide LrTables.Valid, Reaches, ShiftsTo;
    var from, to, k: nat :| Shifted(m, n' - 1, from) && Reaches(m, Before(m, n'), from, to, k) && ShiftsTo(m, Before(m, n'), to, stack);
    assert Shifted(m, n, from);
  }

  /** Each stack of g is in g' with the state that the token leads to on top. */
  ghost predicate AllShift<V>(m: Search, g: Gss<V>, g': Gss<V>, posn: nat) {
    && Descending(g.items) && Descending(g'.items) && |g'.tops| == |g.tops|
    && forall i :: 0 <= i < |g.tops| ==> ShiftsAt(m, g, g', posn, i)
  }

  ghost predicate ShiftsAt<V>(m: Search, g: Gss<V>, g': Gss<V>, posn: nat, i: int)
    requires Descending(g.items) && Descending(g'.items) && 0 <= i < |g.tops| == |g'.tops|
  {
    && StateAt(g.items, g.tops[i]) && StateAt(g'.items, g'.tops[i]) && g.items[g.tops[i]].posn == posn
    && var stack := Lrs(Spine(g.items, g.tops[i]));
    && Onward(m, m.token(posn), stack)
    && var q := Action(m.a, Last(stack), m.token(posn)).state;
       Spine(g'.items, g'.tops[i]) == Spine(g.items, g.tops[i]) + [Node(q, posn + 1)]
  }

  lemma {:induction false} SpinePosns<V>(items: seq<Item<V>>, t: int)
    requires Descending(items) && StateAt(items, t)
    ensures forall j :: 0 <= j < |Spine(items, t)| ==> Spine(items, t)[j].posn <= items[t].posn
    decreases t
  {
    if t != 0 {
      assert Below(items, t);
      SpinePosns(items, items[t].pred);
    }
  }

  lemma MetAtTop(spine: seq<Node>, x: Node, seen: set<seq<int>>)
    requires (forall j :: 0 <= j < |spine| ==> spine[j].posn < x.posn) && Lrs(spine + [x]) in seen
    ensures Met(spine + [x], x.posn, seen)
  {
    var more := spine + [x];
    forall j | 0 <= j < |more| && more[j].posn == x.posn ensures Lrs(more[..j + 1]) in seen {
      assert j == |spine| && more[..j + 1] == more;
    }
  }

  /** The stacks after the shift are all there are. */
  lemma ShiftExplored<V>(m: Search, g: Gss<V>, g': Gss<V>, posn: nat, seen: set<seq<int>>)
    requires Explored(m, g, posn, seen, {}) && AllShift(m, g, g', posn)
    ensures Explored(m, g', posn + 1, OpenFrom(g', 0), OpenFrom(g', 0))
  {
    hide LrTables.Valid, Met, Onward, Descending, Spine, Shifted, Reaches, Live, LrTables.LrAction, ShiftedOn;
    var now := OpenFrom(g', 0);
    NotFinished(m, g, posn, seen);
    forall i, spine | HasStack(g', i, spine) ensures Met(spine, posn + 1, now) {
      assert ShiftsAt(m, g, g', posn, i);
      MetShifted(m, g, g', posn, i);
    }
    forall stack | stack in now ensures Built(m, posn + 1, stack) {
      var i :| 0 <= i < |g'.tops| && StateAt(g'.items, g'.tops[i]) && stack == Lrs(Spine(g'.items, g'.tops[i]));
      assert ShiftsAt(m, g, g', posn, i);
      ShiftedOne(m, g, g', posn, seen, i);
    }
    forall stack | Shifted(m, posn + 1, stack) ensures stack in now {
      NothingMissed(m, g, posn, seen, stack);
      var to :| IsLive(g, to) && ShiftsTo(m, m.token(posn), to, stack);
      var i, spine :| HasStack(g, i, spine) && Lrs(spine) == to;
      assert ShiftsAt(m, g, g', posn, i);
      ShiftedIs(m, g, g', posn, i);
    }
  }

  lemma MetShifted<V>(m: Search, g: Gss<V>, g': Gss<V>, posn: nat, i: int)
    requires AllShift(m, g, g', posn) && 0 <= i < |g.tops| && ShiftsAt(m, g, g', posn, i)
    ensures Met(Spine(g'.items, g'.tops[i]), posn + 1, OpenFrom(g', 0))
  {
    hide LrTables.Valid, Met, Onward, Descending, Spine;
    SpinePosns(g.items, g.tops[i]);
    var spine := Spine(g'.items, g'.tops[i]);
    MetAtTop(Spine(g.items, g.tops[i]), Last(spine), OpenFrom(g', 0));
  }

  lemma ShiftedIs<V>(m: Search, g: Gss<V>, g': Gss<V>, posn: nat, i: int)
    requires AllShift(m, g, g', posn) && 0 <= i < |g.tops| && ShiftsAt(m, g, g', posn, i)
    ensures ShiftsTo(m, m.token(posn), Lrs(Spine(g.items, g.tops[i])), Lrs(Spine(g'.items, g'.tops[i])))
    ensures Lrs(Spine(g'.items, g'.tops[i])) in OpenFrom(g', 0)
  {
    hide LrTables.Valid, Live, Descending, Spine, LrTables.LrAction;
    LrsPush(Spine(g.items, g.tops[i]), Last(Spine(g'.items, g'.tops[i])));
  }

  lemma ShiftedOne<V>(m: Search, g: Gss<V>, g': Gss<V>, posn: nat, seen: set<seq<int>>, i: int)
    requires Explored(m, g, posn, seen, {}) && AllShift(m, g, g', posn) && 0 <= i < |g.tops| && ShiftsAt(m, g, g', posn, i)
    ensures Built(m, posn + 1, Lrs(Spine(g'.items, g'.tops[i])))
  {
    hide LrTables.Valid, Live, Descending, Spine, ShiftsTo, LrTables.LrAction, Met;
    ShiftedIs(m, g, g', posn, i);
    var spine, next := Spine(g.items, g.tops[i]), Lrs(Spine(g'.items, g'.tops[i]));
    assert HasStack(g, i, spine);
    MetTop(spine, posn, seen);
    var from, k: nat :| Shifted(m, posn, from) && Reaches(m, m.token(posn), from, Lrs(spine), k);
    assert m.token(posn) == Before(m, posn + 1);
    assert Shifted(m, posn + 1, next);
    assert Reaches(m, m.token(posn + 1), next, next, 0);
  }

  // ---------------------------------------------------------------- the start

  lemma StartExplored<V>(m: Search, g: Gss<V>)
    requires Descending(g.items) && |g.tops| == 1 && g.tops[0] == 0 && StateAt(g.items, 0) && g.items[0].lr == 0
    ensures Explored(m, g, 0, {[0]}, {[0]})
  {
    hide LrTables.Valid, Descending;
    assert Spine(g.items, 0) == [Node(0, g.items[0].posn)];
    assert Lrs(Spine(g.items, 0)) == [0];
    assert Shifted(m, 0, [0]) && Reaches(m, m.token(0), [0], [0], 0);
    forall i, spine: seq<Node> | HasStack(g, i, spine) ensures Met(spine, 0, {[0]}) {
      forall j | 0 <= j < |spine| && spine[j].posn == 0 ensures Lrs(spine[..j + 1]) in {[0]} {
        assert spine[..j + 1] == spine;
      }
    }
  }

  // ---------------------------------------------------------------- operations that reduce nothing

  /** Stack k as a stack of the automaton. */
  ghost function StackOf<V>(g: Gss<V>, k: int): seq<int> {
    if Descending(g.items) && 0 <= k < |g.tops| && StateAt(g.items, g.tops[k]) then Lrs(Spine(g.items, g.tops[k])) else []
  }

  lemma StackIsLive<V>(a: Lalr, g: Gss<V>, k: int)
    requires Shape(g) && Linked(a, g.items) && 0 <= k < |g.tops| && StateAt(g.items, g.tops[k])
    ensures HasStack(g, k, Spine(g.items, g.tops[k])) && TopOf(g, k) == {StackOf(g, k)} && IsLive(g, StackOf(g, k))
    ensures IsPath(a, StackOf(g, k)) && Last(StackOf(g, k)) == g.items[g.tops[k]].lr
  {
    hide LrTables.Valid, Linked, Contiguous, Fans;
    StackIsPath(a, g.items, g.tops[k]);
  }

  lemma NoTop<V>(g: Gss<V>, k: int)
    requires Descending(g.items) && 0 <= k < |g.tops| && g.tops[k] == NONE
    ensures TopOf(g, k) == {}
  {
  }

  /** Stack k stays. */
  lemma StackStays<V>(g: Gss<V>, k: int, g': Gss<V>, i: int)
    requires Extends(g, k, g') && 0 <= i < |g.tops| && i != k && StateAt(g.items, g.tops[i])
    ensures StateAt(g'.items, g'.tops[i]) && StackOf(g', i) == StackOf(g, i)
  {
    hide Contiguous, Fans, Spine;
    assert SameStack(g, g', i);
  }

  lemma SameExplored<V>(m: Search, g: Gss<V>, g': Gss<V>, posn: nat, seen: set<seq<int>>, open: set<seq<int>>)
    requires Explored(m, g, posn, seen, open) && g'.items == g.items && g'.tops == g.tops
    ensures Explored(m, g', posn, seen, open)
  {
    hide LrTables.Valid, Met, Moves, Onward, Exact, Explored, Spine, Descending;
    assert forall i, spine :: HasStack(g', i, spine) ==> HasStack(g, i, spine);
    forall stack | IsLive(g, stack) ensures IsLive(g', stack) {
      var i, spine :| HasStack(g, i, spine) && Lrs(spine) == stack;
      assert HasStack(g', i, spine);
    }
    Carried(m, g, g', posn, seen, open);
  }

  lemma SplitExplored<V>(m: Search, g: Gss<V>, k: int, posn: nat, seen: set<seq<int>>, open: set<seq<int>>)
    requires Explored(m, g, posn, seen, open) && 0 <= k < |g.tops| <= |g.needs| && StateAt(g.items, g.tops[k]) && Descending(g.items)
    ensures var g' := SplitStack(g, k);
            Explored(m, g', posn, seen, open) && StackOf(g', |g.tops|) == StackOf(g, k) && TopOf(g', |g.tops|) == TopOf(g, k)
  {
    hide LrTables.Valid, Met, Moves, Onward, Exact, Explored, Spine, Descending;
    var g' := SplitStack(g, k);
    forall i, spine | HasStack(g', i, spine) ensures exists j :: HasStack(g, j, spine) {
      assert HasStack(g, if i < |g.tops| then i else k, spine);
    }
    forall stack | IsLive(g, stack) ensures IsLive(g', stack) {
      var i, spine :| HasStack(g, i, spine) && Lrs(spine) == stack;
      assert HasStack(g', i, spine);
    }
    Carried(m, g, g', posn, seen, open);
  }

  /** A stack that is open may be given up. */
  lemma DeleteExplored<V>(m: Search, g: Gss<V>, k: int, posn: nat, seen: set<seq<int>>, open: set<seq<int>>)
    requires Explored(m, g, posn, seen, open) && Descending(g.items) && 0 <= k < |g.tops| && TopOf(g, k) <= open
    requires Extends(g, k, MarkDeleted(g, k)) && |MarkDeleted(g, k).tops| == |g.tops| && MarkDeleted(g, k).tops[k] == NONE
    ensures Explored(m, MarkDeleted(g, k), posn, seen, open)
  {
    hide LrTables.Valid, Explored, TopOf, Extends, Descending, Met, MarkDeleted;
    Changed(m, g, k, MarkDeleted(g, k), posn, seen, open);
  }

  lemma RemoveExplored<V>(m: Search, g: Gss<V>, posn: nat, seen: set<seq<int>>, open: set<seq<int>>)
    requires Explored(m, g, posn, seen, open) && |g.tops| <= |g.needs|
    ensures Explored(m, RemoveDeletes(g), posn, seen, open)
  {
    hide LrTables.Valid, Met, Moves, Onward, Exact, Explored, Spine, Descending, LiveEntries;
    var g' := RemoveDeletes(g);
    LiveFacts(g.tops, g.needs[..|g.tops|]);
    forall i, spine | HasStack(g', i, spine) ensures exists j :: HasStack(g, j, spine) {
      assert g'.tops[i] in g'.tops;
      var j :| 0 <= j < |g.tops| && g.tops[j] == g'.tops[i];
      assert HasStack(g, j, spine);
    }
    forall stack | IsLive(g, stack) ensures IsLive(g', stack) {
      var i, spine :| HasStack(g, i, spine) && Lrs(spine) == stack;
      assert g.tops[i] in g'.tops;
      var j :| 0 <= j < |g'.tops| && g'.tops[j] == g.tops[i];
      assert HasStack(g', j, spine);
    }
    Carried(m, g, g', posn, seen, open);
  }

  /** Other items below the same tops, or a single stack that is somewhere else. */
  lemma MovedExplored<V>(m: Search, g: Gss<V>, g': Gss<V>, posn: nat, seen: set<seq<int>>, open: set<seq<int>>)
    requires Explored(m, g, posn, seen, open) && Descending(g.items) && Descending(g'.items) && |g.tops| == |g'.tops| == 1
    requires StateAt(g.items, g.tops[0]) && StateAt(g'.items, g'.tops[0])
    requires Spine(g'.items, g'.tops[0]) == Spine(g.items, g.tops[0])
    ensures Explored(m, g', posn, seen, open) && OpenFrom(g', 0) == OpenFrom(g, 0)
  {
    hide LrTables.Valid, Met, Moves, Onward, Exact, Explored, Spine, Descending;
    forall i, spine | HasStack(g', i, spine) ensures exists j :: HasStack(g, j, spine) {
      assert HasStack(g, 0, spine);
    }
    forall stack | IsLive(g, stack) ensures IsLive(g', stack) {
      var i, spine :| HasStack(g, i, spine) && Lrs(spine) == stack;
      assert HasStack(g', 0, spine);
    }
    Carried(m, g, g', posn, seen, open);
    OpenSingle(g);
    OpenSingle(g');
  }

  // ---------------------------------------------------------------- what is open

  lemma OpenSame<V>(g: Gss<V>, g': Gss<V>, i: nat)
    requires g'.items == g.items && g'.tops == g.tops
    ensures OpenFrom(g', i) == OpenFrom(g, i)
  {
    hide Descending, Spine;
  }

  /** The single stack. */
  ghost function SingleSpine<V>(g: Gss<V>): seq<Node> {
    if Descending(g.items) && |g.tops| == 1 && StateAt(g.items, g.tops[0]) then Spine(g.items, g.tops[0]) else []
  }

  lemma OpenSingle<V>(g: Gss<V>)
    requires Descending(g.items) && |g.tops| == 1
    ensures OpenFrom(g, 0) == TopOf(g, 0)
  {
    hide Descending, Spine;
    if StateAt(g.items, g.tops[0]) {
      assert Lrs(Spine(g.items, g.tops[0])) in OpenFrom(g, 0);
    }
  }

  lemma OpenStep<V>(g: Gss<V>, i: nat)
    requires Descending(g.items) && i < |g.tops|
    ensures OpenFrom(g, i) == OpenFrom(g, i + 1) + TopOf(g, i)
  {
    hide Descending, Spine;
    forall stack | stack in OpenFrom(g, i) ensures stack in OpenFrom(g, i + 1) + TopOf(g, i) {
      var j :| i <= j < |g.tops| && StateAt(g.items, g.tops[j]) && stack == Lrs(Spine(g.items, g.tops[j]));
    }
  }

  /** Work on stack k leaves the stacks after it. */
  lemma OpenStays<V>(g: Gss<V>, k: nat, g': Gss<V>, next: nat)
    requires Extends(g, k, g') && Descending(g.items) && Descending(g'.items) && next == k + 1
    ensures OpenFrom(g, next) <= OpenFrom(g', next)
  {
    hide Descending, Spine, Shape, Contiguous, Fans;
    forall stack | stack in OpenFrom(g, next) ensures stack in OpenFrom(g', next) {
      var j :| next <= j < |g.tops| && StateAt(g.items, g.tops[j]) && stack == Lrs(Spine(g.items, g.tops[j]));
      assert SameStack(g, g', j);
    }
  }

  // ---------------------------------------------------------------- the end

  /** A stack that can be built and is at its end has just shifted. */
  lemma BuiltFinished(m: Search, n: nat, stack: seq<int>)
    requires Built(m, n, stack) && Finished(m.a, stack)
    ensures AcceptsAt(m, n)
  {
    hide LrTables.Valid, Shifted, IsPath, Reduced;
    var from, k: nat :| Shifted(m, n, from) && Reaches(m, m.token(n), from, stack, k);
    if k > 0 {
      var mid, rule :| Reaches(m, m.token(n), from, mid, k - 1) && Moves(m, m.token(n), mid, rule) && stack == After(m.a, mid, rule);
      ReducePath(m.a, mid, rule);
    }
  }
}
