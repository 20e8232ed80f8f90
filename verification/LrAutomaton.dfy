/** The automaton of checked tables: its actions, the stacks it builds and what a reduction does. */
module LrAutomaton {
  import opened Collections
  import T = LrTables

  datatype Automaton = Automaton(t: T.Tables, g: T.Grammar)

  /** Tables together with the grammar they were checked against. */
  type Lalr = a: Automaton | T.Valid(a.t, a.g) ghost witness (T.ExampleIsValid(); Automaton(T.EXAMPLE, T.EXAMPLE_GRAMMAR))

  predicate IsState(a: Lalr, q: int) {
    T.IsState(a.t, q)
  }

  predicate IsToken(a: Lalr, x: int) {
    T.IsToken(a.t, x)
  }

  predicate Defaulted(a: Lalr, q: int)
    requires IsState(a, q)
  {
    T.Defaulted(a.t, q)
  }

  function DefaultAction(a: Lalr, q: int): T.Action
    requires IsState(a, q)
  {
    T.DefaultAction(a.t, q)
  }

  function Action(a: Lalr, q: int, token: int): T.Action
    requires IsState(a, q)
  {
    T.LrAction(a.t, q, token)
  }

  /** A rule that a reduction may use. */
  predicate IsRule(a: Lalr, r: int) {
    1 < r < |a.t.r1|
  }

  function Length(a: Lalr, r: int): (n: nat)
    requires IsRule(a, r)
    ensures n == |a.g.rhs[r]|
  {
    assert T.IsRule(a.t, r);
    a.t.r2[r]
  }

  function Lhs(a: Lalr, r: int): int
    requires IsRule(a, r)
  {
    a.t.r1[r]
  }

  function Rhs(a: Lalr, r: int): seq<int>
    requires IsRule(a, r)
  {
    a.g.rhs[r]
  }

  function GotoRule(a: Lalr, q: int, r: int): int
    requires IsState(a, q) && IsRule(a, r)
  {
    assert T.IsRule(a.t, r);
    T.Goto(a.t, q, a.t.r1[r])
  }

  /** The symbol that leads into a state. */
  function Symbol(a: Lalr, q: int): int
    requires IsState(a, q)
  {
    a.t.stos[q]
  }

  ghost predicate Links(a: Lalr, p: int, q: int)
    requires IsState(a, p) && IsState(a, q)
  {
    T.Links(a.g, p, q)
  }

  ghost predicate Steps(a: Lalr, stack: seq<int>)
    requires forall i :: 0 <= i < |stack| ==> IsState(a, stack[i])
  {
    forall i :: 1 <= i < |stack| ==> stack[i] != 0 && Links(a, stack[i - 1], stack[i])
  }

  /** A state stack that transitions of the automaton can build. */
  ghost predicate IsPath(a: Lalr, stack: seq<int>) {
    && stack != [] && stack[0] == 0
    && (forall i :: 0 <= i < |stack| ==> IsState(a, stack[i]))
    && Steps(a, stack)
  }

  /** A stack on which the parser can go on. */
  ghost predicate Live(a: Lalr, stack: seq<int>) {
    IsPath(a, stack) && Last(stack) != a.t.final
  }

  lemma StartIsLive(a: Lalr)
    ensures Live(a, [0])
  {
  }

  lemma BelowPath(a: Lalr, stack: seq<int>, n: nat)
    requires IsPath(a, stack) && 0 < n <= |stack|
    ensures IsPath(a, stack[..n])
  {
  }

  /** The grammar symbols of a stretch of the stack. */
  function Symbols(a: Lalr, states: seq<int>): (r: seq<int>)
    requires forall i :: 0 <= i < |states| ==> IsState(a, states[i])
    ensures |r| == |states|
  {
    if states == [] then []
    else
      assert IsState(a, states[|states| - 1]);
      Symbols(a, Front(states)) + [Symbol(a, Last(states))]
  }

  /** The stretch of d states at the top. */
  function Top(stack: seq<int>, d: nat): seq<int>
    requires d <= |stack|
  {
    stack[|stack| - d..]
  }

  lemma SpellStep(a: Lalr, stack: seq<int>, d: nat, rhs: seq<int>)
    requires 0 < d <= |stack| && d <= |rhs| && forall i :: 0 <= i < |stack| ==> IsState(a, stack[i])
    requires Symbols(a, Top(Front(stack), d - 1)) == rhs[..d - 1] && Symbol(a, Last(stack)) == rhs[d - 1]
    ensures Symbols(a, Top(stack, d)) == rhs[..d]
  {
    hide T.Valid;
    var top := Top(stack, d);
    assert Last(top) == Last(stack) && Front(top) == Top(Front(stack), d - 1);
    assert rhs[..d] == rhs[..d - 1] + [rhs[d - 1]];
  }

  /** What an item of a state says about the state and its predecessors. */
  lemma ItemFacts(a: Lalr, q: int, it: T.Item)
    requires IsState(a, q) && it in a.g.items[q]
    ensures 1 <= it.rule < |a.t.r1| && it.dot <= |a.g.rhs[it.rule]|
    ensures it.dot > 0 ==> q != 0 && Symbol(a, q) == a.g.rhs[it.rule][it.dot - 1]
  {
  }

  lemma ItemBelow(a: Lalr, stack: seq<int>, it: T.Item)
    requires IsPath(a, stack) && it in a.g.items[Last(stack)] && it.dot > 0 && Last(stack) != 0
    ensures |stack| > 1 && IsPath(a, Front(stack)) && T.Item(it.rule, it.dot - 1) in a.g.items[Last(Front(stack))]
  {
    var n := |stack| - 1;
    BelowPath(a, stack, n);
    assert Links(a, stack[n - 1], stack[n]);
  }

  /** An item of the top state reaches down to the state where its rule starts. */
  lemma {:induction false} ItemReachesDown(a: Lalr, stack: seq<int>, it: T.Item)
    requires IsPath(a, stack) && it in a.g.items[Last(stack)]
    ensures it.dot < |stack| && T.Item(it.rule, 0) in a.g.items[stack[|stack| - 1 - it.dot]]
    decreases it.dot
  {
    hide T.Valid, T.Links;
    ItemFacts(a, Last(stack), it);
    if it.dot > 0 {
      ItemBelow(a, stack, it);
      ItemReachesDown(a, Front(stack), T.Item(it.rule, it.dot - 1));
    }
  }

  /** The states in between spell the part of the right-hand side before the dot. */
  lemma {:induction false} ItemSpellsStack(a: Lalr, stack: seq<int>, it: T.Item)
    requires IsPath(a, stack) && it in a.g.items[Last(stack)] && it.dot < |stack|
    ensures 1 <= it.rule < |a.t.r1| && it.dot <= |a.g.rhs[it.rule]|
    ensures Symbols(a, Top(stack, it.dot)) == a.g.rhs[it.rule][..it.dot]
    decreases it.dot
  {
    hide T.Links, Symbols;
    ItemFacts(a, Last(stack), it);
    if it.dot > 0 {
      ItemBelow(a, stack, it);
      ItemSpellsStack(a, Front(stack), T.Item(it.rule, it.dot - 1));
      SpellStep(a, stack, it.dot, a.g.rhs[it.rule]);
    } else {
      NoSymbols(a, stack, a.g.rhs[it.rule]);
    }
  }

  lemma NoSymbols(a: Lalr, stack: seq<int>, rhs: seq<int>)
    requires forall i :: 0 <= i < |stack| ==> IsState(a, stack[i])
    ensures Symbols(a, Top(stack, 0)) == rhs[..0]
  {
    assert Top(stack, 0) == [];
  }

  lemma PushPath(a: Lalr, stack: seq<int>, q: int)
    requires IsPath(a, stack) && IsState(a, q) && q != 0 && Links(a, Last(stack), q)
    ensures IsPath(a, stack + [q])
  {
    var s := stack + [q];
    forall i | 1 <= i < |s| ensures s[i] != 0 && Links(a, s[i - 1], s[i]) {
      assert s[i - 1] == stack[i - 1];
      assert i < |stack| ==> s[i] == stack[i];
    }
  }

  lemma ShiftFacts(a: Lalr, q: int, token: int)
    requires IsState(a, q) && IsToken(a, token) && Action(a, q, token).Shift?
    ensures var p := Action(a, q, token).state;
            IsState(a, p) && p != 0 && Links(a, q, p) && Symbol(a, p) == token
  {
  }

  lemma ShiftPath(a: Lalr, stack: seq<int>, token: int)
    requires IsPath(a, stack) && IsToken(a, token) && Action(a, Last(stack), token).Shift?
    ensures IsPath(a, stack + [Action(a, Last(stack), token).state])
    ensures IsState(a, Action(a, Last(stack), token).state)
    ensures Symbol(a, Action(a, Last(stack), token).state) == token
  {
    ShiftFacts(a, Last(stack), token);
    PushPath(a, stack, Action(a, Last(stack), token).state);
  }

  /** Rule r is complete in state q. */
  ghost predicate Complete(a: Lalr, q: int, r: int)
    requires IsState(a, q)
  {
    IsRule(a, r) && T.Item(r, |a.g.rhs[r]|) in a.g.items[q]
  }

  lemma ReduceFacts(a: Lalr, q: int)
    requires IsState(a, q) && q != a.t.final
    ensures forall x :: IsToken(a, x) && Action(a, q, x).Reduce? ==> Complete(a, q, Action(a, q, x).rule)
    ensures DefaultAction(a, q).Reduce? ==> Complete(a, q, DefaultAction(a, q).rule)
  {
    var t, g := a.t, a.g;
    assert T.ReductionsFit(t, g);
    forall x | IsToken(a, x) && Action(a, q, x).Reduce? ensures Complete(a, q, Action(a, q, x).rule) {
      assert T.ReducesWell(t, g, q, T.LrAction(t, q, x));
    }
    assert T.ReducesWell(t, g, q, T.DefaultAction(t, q));
  }

  function Reduced(a: Lalr, stack: seq<int>, r: int): seq<int>
    requires IsRule(a, r) && Length(a, r) < |stack|
    requires forall i :: 0 <= i < |stack| ==> IsState(a, stack[i])
  {
    var below := stack[..|stack| - Length(a, r)];
    below + [GotoRule(a, Last(below), r)]
  }

  lemma GotoFacts(a: Lalr, p: int, r: int)
    requires IsState(a, p) && IsRule(a, r) && T.Item(r, 0) in a.g.items[p]
    ensures var q := GotoRule(a, p, r);
            IsState(a, q) && q != 0 && q != a.t.final && Links(a, p, q) && Symbol(a, q) == Lhs(a, r)
  {
    T.GotoFits(a.t, a.g, p, r);
  }

  lemma RuleFacts(a: Lalr, r: int)
    requires IsRule(a, r)
    ensures r < |a.g.rhs| == |a.t.r1| && |a.g.rhs[r]| == Length(a, r)
  {
  }

  /** A reduction never takes more than there is, takes exactly the right-hand side of its rule, and
      leads to a proper state for the left-hand side. */
  lemma ReducePath(a: Lalr, stack: seq<int>, r: int)
    requires IsPath(a, stack) && Complete(a, Last(stack), r)
    ensures Length(a, r) < |stack| && Symbols(a, Top(stack, Length(a, r))) == Rhs(a, r)
    ensures Live(a, Reduced(a, stack, r)) && Symbol(a, Last(Reduced(a, stack, r))) == Lhs(a, r)
  {
    hide T.Valid, Symbols, T.Goto, T.Links;
    RuleFacts(a, r);
    ItemReachesDown(a, stack, T.Item(r, |a.g.rhs[r]|));
    ItemSpellsStack(a, stack, T.Item(r, |a.g.rhs[r]|));
    assert a.g.rhs[r][..|a.g.rhs[r]|] == a.g.rhs[r];
    var n := |stack| - Length(a, r);
    var p := stack[n - 1];
    BelowPath(a, stack, n);
    GotoFacts(a, p, r);
    PushPath(a, stack[..n], GotoRule(a, p, r));
  }

  /** The stack that is complete when the final state is reached. */
  lemma AcceptStack(a: Lalr, stack: seq<int>)
    requires IsPath(a, stack) && Last(stack) == a.t.final
    ensures |stack| == 3 && |a.g.rhs[1]| == 2 && a.g.rhs[1][1] == T.EOF_TOKEN && Symbols(a, stack[1..]) == a.g.rhs[1]
  {
    ItemReachesDown(a, stack, T.Item(1, 2));
    ItemSpellsStack(a, stack, T.Item(1, 2));
    assert stack[|stack| - 3] == 0;
    assert Top(stack, 2) == stack[1..] && a.g.rhs[1][..2] == a.g.rhs[1];
  }

  lemma UndefIsToken(a: Lalr)
    ensures IsToken(a, a.t.undef) && IsToken(a, T.EOF_TOKEN)
  {
  }

  lemma TablesSized(a: Lalr)
    ensures T.Sized(a.t)
  {
  }

  lemma ErrorIsToken(a: Lalr)
    ensures IsToken(a, T.TERROR)
  {
  }

  lemma DefaultNeverShifts(a: Lalr, q: int)
    requires IsState(a, q)
    ensures !DefaultAction(a, q).Shift?
  {
  }

  // ---------------------------------------------------------------- the plain loop

  datatype Verdict = Shifts | Errs | Unfinished

  /** What the next action on this token is, for a stack the parser can go on with. */
  ghost function NextAction(a: Lalr, stack: seq<int>, token: int): (act: T.Action)
    requires Live(a, stack) && IsToken(a, token)
    ensures act.Reduce? ==> IsRule(a, act.rule) && Length(a, act.rule) < |stack| && Live(a, Reduced(a, stack, act.rule))
  {
    var act := Action(a, Last(stack), token);
    ReduceFacts(a, Last(stack));
    assert act.Reduce? ==> Length(a, act.rule) < |stack| && Live(a, Reduced(a, stack, act.rule)) by {
      if act.Reduce? {
        ReducePath(a, stack, act.rule);
      }
    }
    act
  }

  /** The stack after the reduction that this token asks for. */
  ghost function NextStack(a: Lalr, stack: seq<int>, token: int): (later: seq<int>)
    requires Live(a, stack) && IsToken(a, token) && NextAction(a, stack, token).Reduce?
    ensures Live(a, later)
  {
    Reduced(a, stack, NextAction(a, stack, token).rule)
  }

  /** The plain LR loop on one token: reduce while the table says so, at most `fuel` times. */
  ghost function Plain(a: Lalr, stack: seq<int>, token: int, fuel: nat): Verdict
    requires Live(a, stack) && IsToken(a, token)
    decreases fuel
  {
    match NextAction(a, stack, token)
    case Shift(_) => Shifts
    case Error => Errs
    case Reduce(_) => if fuel == 0 then Unfinished else Plain(a, NextStack(a, stack, token), token, fuel - 1)
  }

  /** More fuel does not change a verdict. */
  lemma {:induction false} PlainMonotone(a: Lalr, stack: seq<int>, token: int, fuel: nat, more: nat)
    requires Live(a, stack) && IsToken(a, token) && fuel <= more
    requires Plain(a, stack, token, fuel) != Unfinished
    ensures Plain(a, stack, token, more) == Plain(a, stack, token, fuel)
    decreases fuel
  {
    hide Live, NextAction, NextStack;
    if NextAction(a, stack, token).Reduce? {
      PlainMonotone(a, NextStack(a, stack, token), token, fuel - 1, more - 1);
    }
  }
}
