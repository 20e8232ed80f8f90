/** What the states of the graph-structured stack stand for: each derives the tokens between its
    predecessor's position and its own. */
module GlrSentences {
  import opened Collections
  import LrTables
  import opened LrAutomaton
  import opened GlrShape
  import opened GlrOps
  import opened GlrReduce
  import opened GlrCompress
  import S = YaccSoundness
  import Y = YaccMachine

  /** The input as token numbers; trees and tokens carry no values here. */
  type Input = nat -> int

  function Unit(): S.Action<()> {
    (_, _) => Y.Ok(())
  }

  /** The tokens from the i-th up to the j-th. */
  function Slice(input: Input, i: nat, j: nat): seq<S.Token<()>>
    decreases j
  {
    if j <= i then [] else Slice(input, i, j - 1) + [S.Token(input(j - 1), ())]
  }

  lemma {:induction false} SliceConcat(input: Input, i: nat, j: nat, k: nat)
    requires i <= j <= k
    ensures Slice(input, i, k) == Slice(input, i, j) + Slice(input, j, k)
    decreases k
  {
    if j < k {
      SliceConcat(input, i, j, k - 1);
      Assoc(Slice(input, i, j), Slice(input, j, k - 1), [S.Token(input(k - 1), ())]);
    } else {
      EmptyConcat(Slice(input, i, j));
    }
  }

  /** The word has a parse tree for the symbol. */
  ghost predicate Derives(a: Lalr, sym: int, word: seq<S.Token<()>>) {
    exists tree: S.Tree<()> :: TreeFor(a, sym, tree) && S.Yield(tree) == word
  }

  ghost predicate TreeFor(a: Lalr, sym: int, tree: S.Tree<()>) {
    S.Parses(a.g, a.t, Unit(), tree) && S.Root(a.t, tree) == sym
  }

  /** The first n tokens are a sentence of the grammar, followed by the end marker. */
  ghost predicate Sentence(a: Lalr, input: Input, n: nat) {
    && 0 < n && input(n - 1) == LrTables.EOF_TOKEN && 1 < |a.g.rhs| && a.g.rhs[1] != []
    && Derives(a, a.g.rhs[1][0], Slice(input, 0, n - 1))
  }

  /** A state with this number is right between these positions. */
  ghost predicate SpanFits(a: Lalr, input: Input, lr: int, from: nat, to: nat) {
    IsState(a, lr) && Derives(a, Symbol(a, lr), Slice(input, from, to))
  }

  ghost predicate Spans<V>(a: Lalr, items: seq<Item<V>>, input: Input) {
    && (StateAt(items, 0) ==> items[0].posn == 0)
    && forall i :: StateAt(items, i) && i != 0 ==> SpanAt(a, items, input, i)
  }

  ghost predicate SpanAt<V>(a: Lalr, items: seq<Item<V>>, input: Input, i: int)
    requires StateAt(items, i)
  {
    StateAt(items, items[i].pred) && SpanFits(a, input, items[i].lr, items[items[i].pred].posn, items[i].posn)
  }

  // ---------------------------------------------------------------- shifting

  lemma TokenSpan(a: Lalr, input: Input, q: int, posn: nat)
    requires IsState(a, q) && Symbol(a, q) == input(posn)
    ensures SpanFits(a, input, q, posn, posn + 1)
  {
    hide LrTables.Valid;
    var leaf := S.Leaf(S.Token(input(posn), ()));
    assert Slice(input, posn, posn + 1) == [leaf.token];
    assert TreeFor(a, input(posn), leaf) && S.Yield(leaf) == [leaf.token];
  }

  // ---------------------------------------------------------------- reducing

  /** Trees for the n topmost states of a stack. */
  ghost predicate ForestFits(a: Lalr, stack: seq<int>, forest: seq<S.Tree<()>>) {
    && |forest| <= |stack|
    && forall i :: 0 <= i < |forest| ==> TreeAt(a, stack[|stack| - |forest| + i], forest[i])
  }

  ghost predicate TreeAt(a: Lalr, q: int, tree: S.Tree<()>) {
    IsState(a, q) && TreeFor(a, Symbol(a, q), tree)
  }

  lemma {:induction false} TopForest<V>(a: Lalr, items: seq<Item<V>>, input: Input, t: int, n: nat)
    returns (forest: seq<S.Tree<()>>)
    requires Descending(items) && StateAt(items, t) && n < |Path(items, t)| && Spans(a, items, input)
    ensures |forest| == n && ForestFits(a, Lrs(Spine(items, t)), forest)
    ensures var s := Back(items, t, n);
            items[s].posn <= items[t].posn && S.YieldAll(forest) == Slice(input, items[s].posn, items[t].posn)
    decreases n
  {
    hide LrTables.Valid, Descending, Path, Spine, Lrs, S.YieldAll, S.Yield, TreeFor, Spans, ForestFits;
    BackPath(items, t, n);
    if n == 0 {
      forest := [];
      NoYield();
      NoForest(a, Lrs(Spine(items, t)));
    } else {
      PathStep(items, t);
      BottomPath(items, t, n);
      var p := items[t].pred;
      var below := TopForest(a, items, input, p, n - 1);
      SpanIs(a, items, input, t);
      var tree :| TreeFor(a, Symbol(a, items[t].lr), tree) && S.Yield(tree) == Slice(input, items[p].posn, items[t].posn);
      forest := below + [tree];
      SpineStep(items, t);
      LrsPush(Spine(items, p), Node(items[t].lr, items[t].posn));
      ForestPush(a, Lrs(Spine(items, p)), below, items[t].lr, tree);
      S.YieldConcat(below, [tree]);
      S.YieldOne(tree);
      SliceConcat(input, items[Back(items, p, n - 1)].posn, items[p].posn, items[t].posn);
    }
  }

  lemma SpanIs<V>(a: Lalr, items: seq<Item<V>>, input: Input, t: int)
    requires Spans(a, items, input) && StateAt(items, t) && t != 0
    ensures SpanAt(a, items, input, t)
  {
  }

  lemma NoForest(a: Lalr, stack: seq<int>)
    ensures ForestFits(a, stack, [])
  {
  }

  lemma NoYield()
    ensures S.YieldAll<()>([]) == []
  {
  }

  lemma BottomPath<V>(items: seq<Item<V>>, t: int, n: nat)
    requires Descending(items) && StateAt(items, t) && 0 < n < |Path(items, t)|
    ensures t != 0 && Below(items, t) && Back(items, t, n) == Back(items, items[t].pred, n - 1)
    ensures StateAt(items, items[t].pred) && n - 1 < |Path(items, items[t].pred)| && items[items[t].pred].posn <= items[t].posn
  {
    hide Descending;
    PathStep(items, t);
  }

  lemma ForestPush(a: Lalr, stack: seq<int>, forest: seq<S.Tree<()>>, q: int, tree: S.Tree<()>)
    requires ForestFits(a, stack, forest) && TreeAt(a, q, tree)
    ensures ForestFits(a, stack + [q], forest + [tree])
  {
    hide LrTables.Valid, TreeAt;
  }

  /** The trees for a complete right-hand side make a tree for the left-hand side. */
  lemma RuleDerives(a: Lalr, stack: seq<int>, forest: seq<S.Tree<()>>, rule: int)
    requires IsRule(a, rule) && |forest| == Length(a, rule) < |stack| && ForestFits(a, stack, forest)
    requires forall i :: 0 <= i < |stack| ==> IsState(a, stack[i])
    requires Symbols(a, Top(stack, Length(a, rule))) == Rhs(a, rule)
    ensures Derives(a, Lhs(a, rule), S.YieldAll(forest))
  {
    hide LrTables.Valid, Symbols, S.YieldAll;
    var n := Length(a, rule);
    var top, tree := Top(stack, n), S.Node(rule, forest, ());
    RuleFacts(a, rule);
    forall i | 0 <= i < n ensures TreeFor(a, a.g.rhs[rule][i], forest[i]) {
      assert TreeAt(a, stack[|stack| - n + i], forest[i]);
      S.SymbolsAt(a, top, i);
    }
    assert TreeFor(a, Lhs(a, rule), tree) && S.Yield(tree) == S.YieldAll(forest);
  }

  /** The state that a reduction pushes stands for what the reduced states stand for. */
  lemma ReducedSpan<V>(a: Lalr, g: Gss<V>, k: int, rule: int, input: Input)
    requires CanReduce(a, g, k, rule) && Spans(a, g.items, input)
    ensures var s := Uncovered(a, g, k, rule);
            SpanFits(a, input, GotoRule(a, g.items[s].lr, rule), g.items[s].posn, g.items[g.tops[k]].posn)
  {
    hide LrTables.Valid, Linked, Path, Spans, Symbols, Spine, Lrs, Descending, Contiguous, Fans, ForestFits;
    Reducible(a, g, k, rule);
    var t, n := g.tops[k], Length(a, rule);
    var stack := Lrs(Spine(g.items, t));
    var forest := TopForest(a, g.items, input, t, n);
    StackIsPath(a, g.items, t);
    ReducePath(a, stack, rule);
    PathStates(a, stack);
    RuleDerives(a, stack, forest, rule);
    ReducesLikeAutomaton(a, g, k, rule);
    var s := Uncovered(a, g, k, rule);
    LastOfReduced(a, g, k, rule);
  }

  lemma PathStates(a: Lalr, stack: seq<int>)
    requires IsPath(a, stack)
    ensures forall i :: 0 <= i < |stack| ==> IsState(a, stack[i])
  {
    hide LrTables.Valid, Steps;
  }

  lemma LastOfReduced<V>(a: Lalr, g: Gss<V>, k: int, rule: int)
    requires CanReduce(a, g, k, rule)
    ensures var s := Uncovered(a, g, k, rule);
            var stack := Lrs(Spine(g.items, g.tops[k]));
            && IsPath(a, stack) && Length(a, rule) < |stack|
            && Last(Reduced(a, stack, rule)) == GotoRule(a, g.items[s].lr, rule)
  {
    hide LrTables.Valid, Linked, Spine, Lrs, Symbols;
    ReducesLikeAutomaton(a, g, k, rule);
    var s := Uncovered(a, g, k, rule);
    LrsPush(Spine(g.items, s), Node(GotoRule(a, g.items[s].lr, rule), g.items[g.tops[k]].posn));
  }

  // ---------------------------------------------------------------- what keeps it

  lemma SpansSame<V>(a: Lalr, items: seq<Item<V>>, now: seq<Item<V>>, input: Input)
    requires Spans(a, items, input) && |now| == |items| && SameChains(items, now)
    ensures Spans(a, now, input)
  {
    hide LrTables.Valid, SpanFits;
    forall i | StateAt(now, i) && i != 0 ensures SpanAt(a, now, input, i) {
      assert StateAt(items, i) && SpanAt(a, items, input, i);
    }
  }

  lemma SpansMore<V>(a: Lalr, items: seq<Item<V>>, x: Item<V>, input: Input)
    requires Spans(a, items, input)
    requires items != []
    requires x.State? ==> StateAt(items, x.pred) && SpanFits(a, input, x.lr, items[x.pred].posn, x.posn)
    ensures Spans(a, items + [x], input)
  {
    hide LrTables.Valid, SpanFits;
    var more := items + [x];
    forall i | StateAt(more, i) && i != 0 ensures SpanAt(a, more, input, i) {
      if i < |items| {
        assert StateAt(items, i) && SpanAt(a, items, input, i);
      }
    }
  }

  lemma SpansPrefix<V>(a: Lalr, items: seq<Item<V>>, n: nat, input: Input)
    requires Spans(a, items, input) && Descending(items) && n <= |items|
    ensures Spans(a, items[..n], input)
  {
    hide LrTables.Valid, SpanFits;
    var less := items[..n];
    forall i | StateAt(less, i) && i != 0 ensures SpanAt(a, less, input, i) {
      assert StateAt(items, i) && SpanAt(a, items, input, i) && Below(items, i);
    }
  }

  lemma SpansChoice<V>(a: Lalr, g: Gss<V>, p: int, rhs: int, rule: int, raw: Option<V>, input: Input)
    requires Spans(a, g.items, input) && StateAt(g.items, p)
    ensures Spans(a, AddChoice(g, p, rhs, rule, raw).items, input)
  {
    hide LrTables.Valid, Spans;
    var now := g.items[p := g.items[p].(sem := Unresolved(|g.items|))];
    SpansSame(a, g.items, now, input);
    SpansMore(a, now, Choice(rule, rhs, FirstChoice(g.items[p]), raw), input);
  }

  lemma SpansDefer<V>(a: Lalr, g: Gss<V>, k: int, s: int, q: int, posn: nat, rule: int, raw: Option<V>, input: Input)
    requires Shape(g) && Spans(a, g.items, input) && g.split != NONE && 0 <= k < |g.tops| && StateAt(g.items, s)
    requires SpanFits(a, input, q, g.items[s].posn, posn)
    ensures Spans(a, Defer(g, k, s, q, posn, rule, raw).items, input)
  {
    hide LrTables.Valid, Shape, FindFrom, Spans, SpanFits;
    UpdateSplitKeepsShape(g, s);
    var g1 := UpdateSplit(g, s);
    var p := FindFrom(g1, k, s, posn, q, 0);
    if p != NONE {
      SpansChoice(a, g1, p, g.tops[k], rule, raw, input);
    } else {
      var g2 := PushState(g1.(tops := g.tops[k := s]), k, q, posn, Unresolved(NONE));
      SpansMore(a, g.items, State(q, s, posn, Unresolved(NONE)), input);
      SpansChoice(a, g2, |g.items|, g.tops[k], rule, raw, input);
    }
  }

  /** A reduction that is put off. */
  lemma SpansLater<V>(a: Lalr, g: Gss<V>, k: int, rule: int, raw: Option<V>, input: Input)
    requires CanReduce(a, g, k, rule) && Spans(a, g.items, input) && g.split != NONE
    ensures Spans(a, ReduceLater(a, g, k, rule, raw).items, input)
  {
    hide LrTables.Valid, Linked, Shape, Spans, SpanFits, Defer;
    ReducedSpan(a, g, k, rule, input);
    var s := Uncovered(a, g, k, rule);
    SpansDefer(a, g, k, s, GotoRule(a, g.items[s].lr, rule), g.items[g.tops[k]].posn, rule, raw, input);
  }

  lemma SpansPop<V>(a: Lalr, g: Gss<V>, k: int, n: nat, input: Input)
    requires Shape(g) && Spans(a, g.items, input) && 0 <= k < |g.tops| && StateAt(g.items, g.tops[k]) && n < |Path(g.items, g.tops[k])|
    ensures Spans(a, PopStack(g, k, n).items, input)
  {
    hide LrTables.Valid, Fans, Contiguous, Path, Back, Spans, Descending;
    if g.split == NONE {
      PopSingle(g, n);
      SpansPrefix(a, g.items, |g.items| - n, input);
    }
  }

  /** A reduction whose action is run at once. */
  lemma SpansNow<V>(a: Lalr, g: Gss<V>, k: int, rule: int, v: V, input: Input)
    requires CanReduce(a, g, k, rule) && Spans(a, g.items, input)
    ensures Spans(a, ReduceNow(a, g, k, rule, v).items, input)
  {
    hide LrTables.Valid, Linked, Fans, Contiguous, Path, Back, Spans, SpanFits, Descending, Spine, Uncovered;
    Reducible(a, g, k, rule);
    ReducedSpan(a, g, k, rule, input);
    var n, s := Length(a, rule), Uncovered(a, g, k, rule);
    SpansPop(a, g, k, n, input);
    PopEffect(g, k, n);
    var g' := PopStack(g, k, n);
    UncoveredStays(a, g, k, rule);
    SpansMore(a, g'.items, State(GotoRule(a, g.items[s].lr, rule), g'.tops[k], g.items[g.tops[k]].posn, Resolved(v)), input);
  }

  lemma UncoveredStays<V>(a: Lalr, g: Gss<V>, k: int, rule: int)
    requires CanReduce(a, g, k, rule)
    ensures Length(a, rule) < |Path(g.items, g.tops[k])|
    ensures var s, g' := Uncovered(a, g, k, rule), PopStack(g, k, Length(a, rule));
            0 <= k < |g'.tops| && g'.tops[k] == s && StateAt(g'.items, s) && g'.items[s] == g.items[s]
  {
    hide LrTables.Valid, Linked, Fans, Contiguous, Descending, Path;
    Reducible(a, g, k, rule);
    var n := Length(a, rule);
    BackPath(g.items, g.tops[k], n);
    PopKeepsShape(g, k, n);
    if g.split == NONE {
      PopSingle(g, n);
    }
  }

  lemma SpansContent<V>(a: Lalr, items: seq<Item<V>>, t: int, input: Input)
    requires Descending(items) && StateAt(items, t) && Spans(a, items, input)
    ensures Spans(a, Content(items, t), input)
  {
    hide LrTables.Valid, Descending, Content, Path, SpanFits, Contiguous;
    var c, path := Content(items, t), Path(items, t);
    ContentKeepsStack(items, t);
    ContentAt(items, t, 0);
    PathAscends(items, t, 0);
    forall i | StateAt(c, i) && i != 0 ensures SpanAt(a, c, input, i) {
      ContentAt(items, t, i);
      ContentAt(items, t, i - 1);
      PathAscends(items, t, i);
      ContiguousAt(c, |c|, i - 1);
      assert SpanAt(a, items, input, path[i]);
    }
  }

  /** The accepted stack holds the start symbol and the end marker, and nothing else. */
  lemma AcceptedIsSentence<V>(a: Lalr, items: seq<Item<V>>, t: int, input: Input)
    requires Descending(items) && Linked(a, items) && StateAt(items, t) && Spans(a, items, input)
    requires items[t].lr == a.t.final
    ensures Sentence(a, input, items[t].posn)
  {
    hide LrTables.Valid, Linked, Spine, Lrs, Symbols, Path, TreeFor, S.YieldAll, S.Yield, Slice;
    var stack := Lrs(Spine(items, t));
    StackIsPath(a, items, t);
    HasRules(a);
    AcceptStack(a, stack);
    SpineLength(items, t);
    BottomIs(items, t, 2);
    var forest := TopForest(a, items, input, t, 2);
    PathStates(a, stack);
    S.SymbolsAt(a, stack[1..], 0);
    S.SymbolsAt(a, stack[1..], 1);
    assert TreeAt(a, stack[1], forest[0]) && TreeAt(a, stack[2], forest[1]);
    assert forest == [forest[0]] + [forest[1]];
    S.YieldConcat([forest[0]], [forest[1]]);
    S.YieldOne(forest[0]);
    S.YieldOne(forest[1]);
    EndLeaf(a, forest[1]);
    SplitLast(input, items[t].posn, S.Yield(forest[0]), S.Yield(forest[1]));
  }

  lemma HasRules(a: Lalr)
    ensures 1 < |a.g.rhs|
  {
  }

  lemma SpineLength<V>(items: seq<Item<V>>, t: int)
    requires Descending(items) && StateAt(items, t)
    ensures |Lrs(Spine(items, t))| == |Path(items, t)|
  {
  }

  lemma BottomIs<V>(items: seq<Item<V>>, t: int, n: nat)
    requires Descending(items) && StateAt(items, t) && |Path(items, t)| == n + 1
    ensures Back(items, t, n) == 0
  {
    hide Descending, Path, Back;
    BackPath(items, t, n);
    PathAscends(items, t, 0);
    assert Path(items, Back(items, t, n)) == [0];
    PathAscends(items, Back(items, t, n), 0);
  }

  /** A tree whose root is a token is that token. */
  lemma EndLeaf(a: Lalr, tree: S.Tree<()>)
    requires TreeFor(a, LrTables.EOF_TOKEN, tree)
    ensures tree.Leaf? && S.Yield(tree) == [S.Token(LrTables.EOF_TOKEN, ())]
  {
    S.RootOfNode(a, Unit(), tree);
    assert tree.token.value == ();
  }

  lemma SplitLast(input: Input, n: nat, word: seq<S.Token<()>>, end: seq<S.Token<()>>)
    requires Slice(input, 0, n) == word + end && end == [S.Token(LrTables.EOF_TOKEN, ())]
    ensures 0 < n && input(n - 1) == LrTables.EOF_TOKEN && word == Slice(input, 0, n - 1)
  {
    if n > 0 {
      var all := Slice(input, 0, n);
      assert Front(all) == Slice(input, 0, n - 1) && Last(all) == S.Token(input(n - 1), ());
      assert Front(word + end) == word && Last(word + end) == end[0];
    }
  }
}
