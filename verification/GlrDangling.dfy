/** A stack on which an action that fails during resolution leaves alternatives behind that are given
    back by the compression that follows. */
module GlrDangling {
  import opened Collections
  import opened GlrShape
  import opened GlrOptions
  import opened GlrCompress
  import GlrResolve
  import V = GlrValues
  import Stk = GlrStack

  /** Two deferred states on the first one, each with one alternative, of an empty rule. */
  const STACK: seq<Item<int>> :=
    [State(0, NONE, 0, Resolved(0)), State(1, 0, 0, Unresolved(3)), State(2, 1, 0, Unresolved(4)),
     Choice(2, 0, NONE, None), Choice(3, 1, NONE, None)]

  /** The stack after the lower action has failed. */
  const LEFT: seq<Item<int>> := STACK[1 := State(1, 0, 0, Unresolved(NONE))]

  /** The action of rule 2 ends in YYERROR. */
  function Failing(): V.Actions<int> {
    V.Actions(GlrResolve.Rules(_ => 0, _ => 0, _ => 0),
              (rule, rhs) => if rule == 2 then Stk.Rejects else Stk.Returns(0), (_, v, _) => v)
  }

  function Whole(): GlrResolve.Scope {
    GlrResolve.Scope({3, 4}, {0, 1, 2}, {3, 4}, {0, 1, 2})
  }

  /** The stack is legal: it has the shape of one with split point 0 and one live stack, its alternatives
      are legal, no state lacks any, and their right-hand sides are on the stack. */
  lemma StackIsLegal()
    ensures Shape(Gss(STACK, 0, [2], [false], NONE, false))
    ensures Chained(STACK) && AllOwn(STACK) && Filled(STACK) && GlrResolve.Within(STACK, Failing().r, Whole())
    ensures Descending(STACK) && StateAt(STACK, 2) && Path(STACK, 2) == [0, 1, 2]
  {
  }

  lemma StackIsDoomed()
    ensures GlrResolve.RhsFits(STACK, 2, 2) && Back(STACK, 2, 1) == 1
    ensures GlrResolve.Covered(STACK, 2, 2, Whole().states)
    ensures V.Doomed(STACK, Failing(), 2, 2) && V.Ran(STACK, Failing(), 1) == Stk.Rejects && V.RunOn(STACK, Failing(), 1) == LEFT
  {
    StackIsLegal();
    assert Back(STACK, 2, 0) == 2 && Back(STACK, 2, 1) == 1;
  }

  /** The upper state still refers to its alternative, whose item is not part of the compressed stack. */
  lemma LeftDangles()
    ensures Shape(Gss(LEFT, 0, [2], [false], NONE, false))
    ensures !AllOwn(Compress(Gss(LEFT, 0, [2], [false], NONE, false)).items)
  {
    var g := Gss(LEFT, 0, [2], [false], NONE, false);
    assert Path(LEFT, 2) == [0, 1, 2];
    NoDanglingIff(LEFT, 2);
    assert 2 in Path(LEFT, 2) && !Settled(LEFT, 2);
  }

  /** yyresolveStates fails on the stack, and yycompressStack then leaves a state with a pointer to an
      alternative that is no more. */
  method DanglingAlternatives() returns (a: array<Item<int>>, res: V.Resolution)
    ensures res == V.ActionFails(Stk.YyErr) && a[..] == LEFT
    ensures var g := Gss(a[..], 0, [2], [false], NONE, false); Shape(g) && !AllOwn(Compress(g).items)
  {
    hide Chained, AllOwn, Filled, Shape, Path, Back, Compress, Descending, GlrResolve.Within, GlrResolve.RhsFits, GlrResolve.Covered,
      V.Doomed, V.Ran, V.RunOn, V.Went, V.AtOnce;
    StackIsLegal();
    StackIsDoomed();
    LeftDangles();
    a := new Item<int>[5](i requires 0 <= i < 5 => STACK[i]);
    assert a[..5] == STACK == a[..];
    res := V.ResolveStates(a, 5, 2, 2, Failing(), 1, Whole());
    assert a[..5] == a[..];
  }
}
