/** The tables of a generated LALR(1) parser, the actions they encode, and what it means for tables
    to belong to a grammar. */
module LrTables {
  import opened Collections

  /** Internal numbers of the end marker and of the error token. */
  const EOF_TOKEN := 0
  const TERROR := 1

  /** The b4_* tables. `pactNinf` marks states with only a default action, `tableNinf` explicit errors. */
  datatype Tables = Tables(
    pact: seq<int>, defact: seq<int>, stos: seq<int>,
    table: seq<int>, check: seq<int>,
    pgoto: seq<int>, defgoto: seq<int>,
    r1: seq<int>, r2: seq<int>,
    ntokens: int, pactNinf: int, tableNinf: int, undef: int, final: int)

  datatype Action = Shift(state: int) | Reduce(rule: int) | Error

  predicate Sized(t: Tables) {
    && 0 < |t.pact| == |t.defact| == |t.stos| <= 0x8000
    && |t.table| == |t.check|
    && |t.pgoto| == |t.defgoto|
    && 1 < |t.r1| == |t.r2|
    && TERROR < t.ntokens && 0 <= t.undef < t.ntokens
    && t.tableNinf <= 0 && 0 <= t.final < |t.pact|
  }

  predicate IsState(t: Tables, q: int) {
    0 <= q < |t.pact|
  }

  /** yypact_value_is_default: the state acts without a lookahead. */
  predicate Defaulted(t: Tables, q: int)
    requires Sized(t) && IsState(t, q)
  {
    t.pact[q] == t.pactNinf
  }

  function DefaultAction(t: Tables, q: int): Action
    requires Sized(t) && IsState(t, q)
  {
    if t.defact[q] == 0 then Error else Reduce(t.defact[q])
  }

  /** Whether the table has an entry of its own for this token in this state. */
  predicate HasEntry(t: Tables, q: int, token: int)
    requires Sized(t) && IsState(t, q)
  {
    var i := t.pact[q] + token;
    !Defaulted(t, q) && 0 <= i < |t.table| && t.check[i] == token
  }

  function EntryAction(t: Tables, v: int): Action {
    if v > 0 then Shift(v) else if v == t.tableNinf then Error else Reduce(-v)
  }

  /** What the parser does in a state on a lookahead. */
  function LrAction(t: Tables, q: int, token: int): Action
    requires Sized(t) && IsState(t, q)
  {
    if HasEntry(t, q, token) then EntryAction(t, t.table[t.pact[q] + token]) else DefaultAction(t, q)
  }

  /** The state after a reduction to nonterminal `sym` that uncovered state q. */
  function Goto(t: Tables, q: int, sym: int): int
    requires Sized(t) && 0 <= sym - t.ntokens < |t.pgoto|
  {
    var i := t.pgoto[sym - t.ntokens] + q;
    if 0 <= i < |t.table| && t.check[i] == q then t.table[i] else t.defgoto[sym - t.ntokens]
  }

  // ---------------------------------------------------------------- tables of a grammar

  /** A rule with a position in its right-hand side. */
  datatype Item = Item(rule: int, dot: nat)

  /** Right-hand sides by rule number (rule 0 is unused, rule 1 is the accepting rule), and for every
      state the set of its LR(0) items. */
  datatype Grammar = Grammar(rhs: seq<seq<int>>, items: seq<set<Item>>)

  predicate IsRule(t: Tables, r: int) {
    1 <= r < |t.r1|
  }

  predicate IsToken(t: Tables, x: int) {
    0 <= x < t.ntokens
  }

  /** Every item of q with its dot not at the start comes from the item before it in p. */
  ghost predicate Links(g: Grammar, p: int, q: int)
    requires 0 <= p < |g.items| && 0 <= q < |g.items|
  {
    forall it :: it in g.items[q] && it.dot > 0 ==> Item(it.rule, it.dot - 1) in g.items[p]
  }

  ghost predicate RulesFit(t: Tables, g: Grammar) {
    && Sized(t)
    && |g.rhs| == |t.r1| && |g.items| == |t.pact|
    && forall r :: IsRule(t, r) ==> |g.rhs[r]| == t.r2[r] && 0 <= t.r1[r] - t.ntokens < |t.pgoto|
  }

  ghost predicate ItemsFit(t: Tables, g: Grammar)
    requires RulesFit(t, g)
  {
    && (forall q, it :: IsState(t, q) && it in g.items[q] ==>
          IsRule(t, it.rule) && it.dot <= |g.rhs[it.rule]|
          && (it.dot > 0 ==> t.stos[q] == g.rhs[it.rule][it.dot - 1]))
    && (forall it :: it in g.items[0] ==> it.dot == 0)
  }

  /** State p has an item whose next symbol is `sym`. */
  ghost predicate Expects(t: Tables, g: Grammar, p: int, sym: int)
    requires RulesFit(t, g) && IsState(t, p)
  {
    exists it :: it in g.items[p] && IsRule(t, it.rule) && it.dot < |g.rhs[it.rule]| && g.rhs[it.rule][it.dot] == sym
  }

  /** q is a proper successor of p on `sym`. */
  ghost predicate Successor(t: Tables, g: Grammar, p: int, sym: int, q: int)
    requires RulesFit(t, g) && IsState(t, p)
  {
    0 < q < |t.pact| && t.stos[q] == sym && Links(g, p, q)
  }

  ghost predicate ReducesWell(t: Tables, g: Grammar, q: int, a: Action)
    requires RulesFit(t, g) && IsState(t, q)
  {
    a.Reduce? ==> 1 < a.rule < |t.r1| && Item(a.rule, |g.rhs[a.rule]|) in g.items[q]
  }

  ghost predicate ShiftsFit(t: Tables, g: Grammar)
    requires RulesFit(t, g)
  {
    forall p, x :: IsState(t, p) && IsToken(t, x) && LrAction(t, p, x).Shift? ==>
      Successor(t, g, p, x, LrAction(t, p, x).state)
  }

  ghost predicate GotosFit(t: Tables, g: Grammar)
    requires RulesFit(t, g)
  {
    forall p, r :: IsState(t, p) && IsRule(t, r) && Expects(t, g, p, t.r1[r]) ==>
      Successor(t, g, p, t.r1[r], Goto(t, p, t.r1[r])) && Goto(t, p, t.r1[r]) != t.final
  }

  ghost predicate ReductionsFit(t: Tables, g: Grammar)
    requires RulesFit(t, g)
  {
    && (forall q, x :: IsState(t, q) && q != t.final && IsToken(t, x) ==> ReducesWell(t, g, q, LrAction(t, q, x)))
    && (forall q :: IsState(t, q) && q != t.final ==> ReducesWell(t, g, q, DefaultAction(t, q)))
  }

  /** Where a rule may start, its left-hand side is expected. */
  ghost predicate ClosureFits(t: Tables, g: Grammar)
    requires RulesFit(t, g)
  {
    forall p, it :: IsState(t, p) && it in g.items[p] && it.dot == 0 && it.rule > 1 ==>
      IsRule(t, it.rule) && Expects(t, g, p, t.r1[it.rule])
  }

  /** Rule 1 is "$accept: start $end"; it starts in state 0 only, and ends in the final state. */
  ghost predicate AcceptFits(t: Tables, g: Grammar)
    requires RulesFit(t, g)
  {
    && |g.rhs[1]| == 2 && g.rhs[1][1] == EOF_TOKEN
    && t.final != 0 && t.stos[t.final] == EOF_TOKEN && Item(1, 2) in g.items[t.final]
    && forall q :: IsState(t, q) && Item(1, 0) in g.items[q] ==> q == 0
  }

  /** A finite check on generated tables: the actions agree with the items of the states. */
  ghost predicate Valid(t: Tables, g: Grammar) {
    && RulesFit(t, g) && ItemsFit(t, g)
    && ShiftsFit(t, g) && GotosFit(t, g) && ReductionsFit(t, g) && ClosureFits(t, g)
    && AcceptFits(t, g)
  }

  /** The goto after a complete rule is a proper transition. */
  lemma GotoFits(t: Tables, g: Grammar, p: int, r: int)
    requires Valid(t, g) && IsState(t, p) && 1 < r < |t.r1| && Item(r, 0) in g.items[p]
    ensures Successor(t, g, p, t.r1[r], Goto(t, p, t.r1[r])) && Goto(t, p, t.r1[r]) != t.final
  {
    assert Expects(t, g, p, t.r1[r]);
  }

  // ---------------------------------------------------------------- an example

  /** The tables of the grammar "r: s | s '<'; s: %prec '<' | '<';" where '<' is not associative: rules
      "$accept: r $end", "r: s", "r: s '<'", "s:" and "s: '<'". Token 2 is the undefined token, token 3
      is '<'. The conflict in state 0 makes '<' an explicit error there; on everything else, state 0
      reduces by default. */
  const EXAMPLE := Tables(
    [-2, 0, -1, -10, -10], [4, 0, 2, 1, 3], [0, 5, 6, 0, 3],
    [3, -1, 4], [0, 3, 3],
    [-10, -10, -10], [0, 1, 2],
    [0, 4, 5, 5, 6, 6], [0, 2, 1, 2, 0, 1],
    4, -10, -1, 2, 3)

  const EXAMPLE_GRAMMAR := Grammar(
    [[], [5, 0], [6], [6, 3], [], [3]],
    [{Item(1, 0), Item(2, 0), Item(3, 0), Item(4, 0), Item(5, 0)}, {Item(1, 1)}, {Item(2, 1), Item(3, 1)},
     {Item(1, 2)}, {Item(3, 2)}])

  function ExampleAction(q: int, x: int): Action {
    if q == 0 then if x == 3 then Error else Reduce(4)
    else if q == 1 then if x == 0 then Shift(3) else Error
    else if q == 2 then if x == 3 then Shift(4) else Reduce(2)
    else if q == 3 then Reduce(1)
    else Reduce(3)
  }

  lemma ExampleActions()
    ensures Sized(EXAMPLE)
    ensures forall q, x :: 0 <= q < 5 && 0 <= x < 4 ==> LrAction(EXAMPLE, q, x) == ExampleAction(q, x)
    ensures forall q :: 0 <= q < 5 ==> Goto(EXAMPLE, q, 5) == 1 && Goto(EXAMPLE, q, 6) == 2
  {
  }

  lemma ExampleRules()
    ensures RulesFit(EXAMPLE, EXAMPLE_GRAMMAR)
  {
    assert EXAMPLE.r1[1] == 4 && EXAMPLE.r1[2] == 5 && EXAMPLE.r1[3] == 5 && EXAMPLE.r1[4] == 6 && EXAMPLE.r1[5] == 6;
  }

  lemma ExampleItems()
    ensures RulesFit(EXAMPLE, EXAMPLE_GRAMMAR) && ItemsFit(EXAMPLE, EXAMPLE_GRAMMAR)
  {
    ExampleRules();
  }

  lemma ExampleExpects()
    ensures RulesFit(EXAMPLE, EXAMPLE_GRAMMAR)
    ensures forall p :: 0 <= p < 5 ==> !Expects(EXAMPLE, EXAMPLE_GRAMMAR, p, 4)
    ensures forall p :: 0 <= p < 5 ==> (Expects(EXAMPLE, EXAMPLE_GRAMMAR, p, 5) <==> p == 0)
    ensures forall p :: 0 <= p < 5 ==> (Expects(EXAMPLE, EXAMPLE_GRAMMAR, p, 6) <==> p == 0)
  {
    ExampleRules();
    assert Item(1, 0) in EXAMPLE_GRAMMAR.items[0];
    assert Item(2, 0) in EXAMPLE_GRAMMAR.items[0];
  }

  lemma ExampleShifts()
    requires RulesFit(EXAMPLE, EXAMPLE_GRAMMAR)
    ensures ShiftsFit(EXAMPLE, EXAMPLE_GRAMMAR)
  {
    ExampleActions();
    assert Successor(EXAMPLE, EXAMPLE_GRAMMAR, 1, 0, 3);
    assert Successor(EXAMPLE, EXAMPLE_GRAMMAR, 2, 3, 4);
  }

  lemma ExampleSuccessors()
    requires RulesFit(EXAMPLE, EXAMPLE_GRAMMAR)
    ensures Successor(EXAMPLE, EXAMPLE_GRAMMAR, 0, 5, 1) && Successor(EXAMPLE, EXAMPLE_GRAMMAR, 0, 6, 2)
  {
  }

  lemma ExampleGotos()
    requires RulesFit(EXAMPLE, EXAMPLE_GRAMMAR)
    ensures GotosFit(EXAMPLE, EXAMPLE_GRAMMAR)
  {
    hide Goto, Successor, Expects, ItemsFit, LrAction;
    var t, g := EXAMPLE, EXAMPLE_GRAMMAR;
    ExampleActions();
    ExampleExpects();
    ExampleSuccessors();
    forall p, r | IsState(t, p) && IsRule(t, r) && Expects(t, g, p, t.r1[r])
      ensures Successor(t, g, p, t.r1[r], Goto(t, p, t.r1[r])) && Goto(t, p, t.r1[r]) != t.final
    {
      assert (t.r1[r] == 5 || t.r1[r] == 6) && p == 0;
    }
  }

  lemma ExampleReductions()
    requires RulesFit(EXAMPLE, EXAMPLE_GRAMMAR)
    ensures ReductionsFit(EXAMPLE, EXAMPLE_GRAMMAR)
  {
    ExampleActions();
    assert ReducesWell(EXAMPLE, EXAMPLE_GRAMMAR, 0, Reduce(4));
    assert ReducesWell(EXAMPLE, EXAMPLE_GRAMMAR, 2, Reduce(2));
    assert ReducesWell(EXAMPLE, EXAMPLE_GRAMMAR, 4, Reduce(3));
    assert DefaultAction(EXAMPLE, 0) == Reduce(4) && DefaultAction(EXAMPLE, 1) == Error;
    assert DefaultAction(EXAMPLE, 2) == Reduce(2) && DefaultAction(EXAMPLE, 4) == Reduce(3);
  }

  /** The check can be passed. */
  lemma ExampleIsValid()
    ensures Valid(EXAMPLE, EXAMPLE_GRAMMAR)
  {
    hide ShiftsFit, GotosFit, ReductionsFit, ItemsFit, ClosureFits, AcceptFits, RulesFit;
    ExampleItems();
    ExampleShifts();
    ExampleGotos();
    ExampleReductions();
    ExampleClosure();
  }

  lemma ExampleClosure()
    ensures RulesFit(EXAMPLE, EXAMPLE_GRAMMAR)
    ensures ClosureFits(EXAMPLE, EXAMPLE_GRAMMAR) && AcceptFits(EXAMPLE, EXAMPLE_GRAMMAR)
  {
    hide Expects;
    ExampleExpects();
  }
}
