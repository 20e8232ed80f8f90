/** What the parser loop computes: behind every stack there is a forest of parse trees for the tokens
    shifted so far, whose values are those the semantic actions give, and an accepted input without
    errors is a sentence of the grammar. */
module YaccSoundness {
  import opened Collections
  import LrTables
  import opened LrAutomaton
  import opened YaccMachine

  datatype Token<+V> = Token(symbol: int, value: V)

  /** Parse trees with the value of every node. */
  datatype Tree<+V> = Leaf(token: Token<V>) | Node(rule: int, children: seq<Tree<V>>, value: V)

  function Root<V>(t: LrTables.Tables, tree: Tree<V>): int {
    match tree
    case Leaf(x) => x.symbol
    case Node(r, _, _) => if 0 <= r < |t.r1| then t.r1[r] else -1
  }

  function ValueOf<V>(tree: Tree<V>): V {
    match tree
    case Leaf(x) => x.value
    case Node(_, _, v) => v
  }

  function ValuesOf<V>(trees: seq<Tree<V>>): seq<V> {
    seq(|trees|, i requires 0 <= i < |trees| => ValueOf(trees[i]))
  }

  function Yield<V>(tree: Tree<V>): seq<Token<V>> {
    match tree
    case Leaf(x) => [x]
    case Node(_, children, _) => YieldAll(children)
  }

  function YieldAll<V>(trees: seq<Tree<V>>): seq<Token<V>> {
    if trees == [] then [] else Yield(trees[0]) + YieldAll(trees[1..])
  }

  type Action<!V> = (int, seq<V>) -> ActionResult<V>

  /** Every node is an instance of its rule, and carries the value its action gives it. */
  ghost predicate Parses<V>(g: LrTables.Grammar, t: LrTables.Tables, action: Action<V>, tree: Tree<V>) {
    match tree
    case Leaf(_) => true
    case Node(r, children, v) =>
      && Derives(g, t, r, children) && action(r, ValuesOf(children)) == Ok(v)
      && forall i :: 0 <= i < |children| ==> Parses(g, t, action, children[i])
  }

  /** The children spell the right-hand side of the rule. */
  predicate Derives<V>(g: LrTables.Grammar, t: LrTables.Tables, r: int, children: seq<Tree<V>>) {
    && 1 < r < |g.rhs| && |children| == |g.rhs[r]|
    && forall i :: 0 <= i < |children| ==> Root(t, children[i]) == g.rhs[r][i]
  }

  /** One tree for every state above the first. */
  ghost predicate Fits<V>(p: Parser<V>, stack: seq<int>, values: seq<V>, forest: seq<Tree<V>>) {
    && |stack| == |values| == |forest| + 1
    && forall i :: 0 <= i < |forest| ==> FitsAt(p, stack[i + 1], values[i + 1], forest[i])
  }

  ghost predicate FitsAt<V>(p: Parser<V>, q: int, v: V, tree: Tree<V>) {
    && IsState(p.a, q) && Root(p.a.t, tree) == Symbol(p.a, q) && ValueOf(tree) == v
    && Parses(p.a.g, p.a.t, p.action, tree)
  }

  // ---------------------------------------------------------------- forests

  lemma {:induction false} YieldConcat<V>(a: seq<Tree<V>>, b: seq<Tree<V>>)
    ensures YieldAll(a + b) == YieldAll(a) + YieldAll(b)
  {
    if a == [] {
      EmptyConcat(b);
      EmptyConcat(YieldAll(b));
    } else {
      ConsConcat(a, b);
      YieldConcat(a[1..], b);
      Assoc(Yield(a[0]), YieldAll(a[1..]), YieldAll(b));
    }
  }

  lemma YieldOne<V>(tree: Tree<V>)
    ensures YieldAll([tree]) == Yield(tree)
  {
    assert [tree][1..] == [];
    EmptyConcat(Yield(tree));
  }

  lemma PushTree<V>(p: Parser<V>, stack: seq<int>, values: seq<V>, forest: seq<Tree<V>>, q: int, tree: Tree<V>)
    requires Fits(p, stack, values, forest) && FitsAt(p, q, ValueOf(tree), tree)
    ensures Fits(p, stack + [q], values + [ValueOf(tree)], forest + [tree])
  {
    hide FitsAt;
  }

  lemma CutForest<V>(p: Parser<V>, stack: seq<int>, values: seq<V>, forest: seq<Tree<V>>, n: nat)
    requires Fits(p, stack, values, forest) && 0 < n <= |stack|
    ensures Fits(p, stack[..n], values[..n], forest[..n - 1])
    ensures YieldAll(forest) == YieldAll(forest[..n - 1]) + YieldAll(forest[n - 1..])
  {
    hide FitsAt, YieldAll;
    YieldConcat(forest[..n - 1], forest[n - 1..]);
    assert forest == forest[..n - 1] + forest[n - 1..];
  }

  lemma {:induction false} SymbolsAt(a: Lalr, states: seq<int>, i: nat)
    requires i < |states| && forall j :: 0 <= j < |states| ==> IsState(a, states[j])
    ensures Symbols(a, states)[i] == Symbol(a, states[i])
  {
    hide LrTables.Valid;
    if i < |states| - 1 {
      SymbolsAt(a, Front(states), i);
    }
  }

  /** The trees of a complete right-hand side make a tree of the rule. */
  lemma ReduceTree<V>(p: Parser<V>, stack: seq<int>, values: seq<V>, forest: seq<Tree<V>>, r: int, v: V)
    requires Fits(p, stack, values, forest) && IsRule(p.a, r) && Length(p.a, r) < |stack|
    requires forall i :: 0 <= i < |stack| ==> IsState(p.a, stack[i])
    requires Symbols(p.a, Top(stack, Length(p.a, r))) == Rhs(p.a, r)
    requires p.action(r, values[|values| - Length(p.a, r)..]) == Ok(v)
    ensures var n := Length(p.a, r);
            var tree := Node(r, forest[|forest| - n..], v);
            Parses(p.a.g, p.a.t, p.action, tree) && Root(p.a.t, tree) == Lhs(p.a, r)
  {
    hide LrTables.Valid, Symbols;
    var n := Length(p.a, r);
    var top, children := Top(stack, n), forest[|forest| - n..];
    RuleFacts(p.a, r);
    forall i | 0 <= i < n ensures FitsAt(p, top[i], values[|values| - n + i], children[i]) {
      assert children[i] == forest[|forest| - n + i];
    }
    forall i | 0 <= i < n ensures Root(p.a.t, children[i]) == p.a.g.rhs[r][i] {
      SymbolsAt(p.a, top, i);
    }
    assert ValuesOf(children) == values[|values| - n..];
  }

  // ---------------------------------------------------------------- the tokens of the input

  /** The first n tokens of the input, with the values the scanner gave them. */
  function Consumed<V>(p: Parser<V>, input: Input<V>, n: nat): seq<Token<V>> {
    if n == 0 then [] else Consumed(p, input, n - 1) + [Token(TokenOf(p, input(n - 1).kind), input(n - 1).value)]
  }

  /** `a` is `b` with some elements left out. */
  ghost predicate Sub<T>(a: seq<T>, b: seq<T>) {
    if a == [] then true
    else b != [] && (if Last(a) == Last(b) then Sub(Front(a), Front(b)) else Sub(a, Front(b)))
  }

  lemma {:induction false} SubFront<T>(a: seq<T>, b: seq<T>)
    requires a != [] && Sub(a, b)
    ensures Sub(Front(a), b)
  {
    if Last(a) != Last(b) {
      SubFront(a, Front(b));
    }
    if |a| > 1 && Last(Front(a)) == Last(b) {
      SubFront(Front(a), Front(b));
    }
  }

  lemma SubLonger<T>(a: seq<T>, b: seq<T>, x: T)
    requires Sub(a, b)
    ensures Sub(a + [x], b + [x]) && Sub(a, b + [x])
  {
    hide Sub;
    SubSnoc(a, b, x);
    if a != [] {
      SubFront(a, b);
    }
    SubSkip(a, b, x);
  }

  lemma SubSnoc<T>(a: seq<T>, b: seq<T>, x: T)
    ensures Sub(a, b) ==> Sub(a + [x], b + [x])
  {
    assert Front(a + [x]) == a && Front(b + [x]) == b;
  }

  lemma SubSkip<T>(a: seq<T>, b: seq<T>, x: T)
    requires Sub(a, b) && (a != [] ==> Sub(Front(a), b))
    ensures Sub(a, b + [x])
  {
    assert Front(b + [x]) == b;
  }

  lemma {:induction false} SubCut<T>(a: seq<T>, more: seq<T>, b: seq<T>)
    requires Sub(a + more, b)
    ensures Sub(a, b)
    decreases |more|
  {
    hide Sub;
    if more == [] {
      EmptyConcat(a);
    } else {
      SubFront(a + more, b);
      assert Front(a + more) == a + Front(more);
      SubCut(a, Front(more), b);
    }
  }

  /** The tokens that are not the error token. */
  function Genuine<V>(tokens: seq<Token<V>>): seq<Token<V>> {
    if tokens == [] then []
    else (if tokens[0].symbol == LrTables.TERROR then [] else [tokens[0]]) + Genuine(tokens[1..])
  }

  lemma {:induction false} GenuineConcat<V>(a: seq<Token<V>>, b: seq<Token<V>>)
    ensures Genuine(a + b) == Genuine(a) + Genuine(b)
  {
    if a == [] {
      EmptyConcat(b);
      EmptyConcat(Genuine(b));
    } else {
      ConsConcat(a, b);
      GenuineConcat(a[1..], b);
      Assoc(if a[0].symbol == LrTables.TERROR then [] else [a[0]], Genuine(a[1..]), Genuine(b));
    }
  }

  lemma GenuineOne<V>(x: Token<V>)
    ensures Genuine([x]) == if x.symbol == LrTables.TERROR then [] else [x]
  {
    assert [x][1..] == [];
    EmptyConcat([x]);
  }

  // ---------------------------------------------------------------- the invariant of a run

  /** How many of the tokens read so far are shifted or discarded. */
  function Settled<V>(s: Pull<V>): int {
    s.pos - if s.status.c.yychar == YYEMPTY then 0 else 1
  }

  /** The lookahead is the last token that was read. */
  ghost predicate Pending<V>(p: Parser<V>, input: Input<V>, s: Pull<V>) {
    var c := s.status.c;
    c.yychar != YYEMPTY ==>
      s.pos > 0 && c.lval == input(s.pos - 1).value && TokenOf(p, c.yychar) == TokenOf(p, input(s.pos - 1).kind)
  }

  /** The forest fits the stacks; its leaves are the settled tokens, some of which are lost to error
      recovery, and all of them if there was none. */
  ghost predicate Grown<V>(p: Parser<V>, input: Input<V>, c: Config<V>, settled: nat, forest: seq<Tree<V>>) {
    && Fits(p, c.stack, c.values, forest)
    && Sub(Genuine(YieldAll(forest)), Consumed(p, input, settled))
    && (c.recoveries == 0 ==> YieldAll(forest) == Consumed(p, input, settled))
  }

  ghost predicate Going<V>(s: Status<V>) {
    s.Running? || s.result == Accepted
  }

  ghost predicate Sound<V>(p: Parser<V>, input: Input<V>, s: Pull<V>, forest: seq<Tree<V>>) {
    Pending(p, input, s) && Grown(p, input, s.status.c, Settled(s), forest)
  }

  /** Pushing the next input token. */
  lemma ShiftGrows<V>(p: Parser<V>, input: Input<V>, c: Config<V>, settled: nat, forest: seq<Tree<V>>, q: int)
    requires Grown(p, input, c, settled, forest)
    requires IsState(p.a, q) && Symbol(p.a, q) == TokenOf(p, input(settled).kind) && c.lval == input(settled).value
    ensures Grown(p, input, Shifted(c, q), settled + 1, forest + [Leaf(Token(Symbol(p.a, q), c.lval))])
  {
    hide LrTables.Valid, Genuine, YieldAll, Sub, TokenOf;
    var x := Token(Symbol(p.a, q), c.lval);
    PushTree(p, c.stack, c.values, forest, q, Leaf(x));
    YieldConcat(forest, [Leaf(x)]);
    YieldOne(Leaf(x));
    GenuineConcat(YieldAll(forest), [x]);
    GenuineOne(x);
    EmptyConcat(Genuine(YieldAll(forest)));
    SubLonger(Genuine(YieldAll(forest)), Consumed(p, input, settled), x);
  }

  /** Cutting the stacks and pushing the error token, which ends the correspondence with the input. */
  lemma CatchGrows<V>(p: Parser<V>, input: Input<V>, c: Config<V>, settled: nat, forest: seq<Tree<V>>, n: nat, q: int)
    requires Grown(p, input, c, settled, forest) && 0 < n <= |c.stack| && c.recoveries > 0
    requires IsState(p.a, q) && Symbol(p.a, q) == LrTables.TERROR
    ensures Grown(p, input, Caught(c, n, q), settled, forest[..n - 1] + [Leaf(Token(LrTables.TERROR, c.lval))])
  {
    hide LrTables.Valid, Genuine, YieldAll, Sub, Consumed;
    var x, kept := Token(LrTables.TERROR, c.lval), forest[..n - 1];
    CutForest(p, c.stack, c.values, forest, n);
    PushTree(p, c.stack[..n], c.values[..n], kept, q, Leaf(x));
    YieldConcat(kept, [Leaf(x)]);
    YieldOne(Leaf(x));
    GenuineConcat(YieldAll(kept), [x]);
    GenuineOne(x);
    EmptyConcat(Genuine(YieldAll(kept)));
    GenuineConcat(YieldAll(kept), YieldAll(forest[n - 1..]));
    SubCut(Genuine(YieldAll(kept)), Genuine(YieldAll(forest[n - 1..])), Consumed(p, input, settled));
  }

  /** Discarding a token. */
  lemma DropGrows<V>(p: Parser<V>, input: Input<V>, c: Config<V>, settled: nat, forest: seq<Tree<V>>)
    requires Grown(p, input, c, settled, forest) && c.recoveries > 0
    ensures Grown(p, input, c, settled + 1, forest)
  {
    hide Genuine, YieldAll, Sub, Fits, TokenOf;
    SubLonger(Genuine(YieldAll(forest)), Consumed(p, input, settled), Last(Consumed(p, input, settled + 1)));
  }

  /** Replacing a complete right-hand side by its left-hand side. */
  lemma ReduceGrows<V>(p: Parser<V>, input: Input<V>, c: Config<V>, settled: nat, forest: seq<Tree<V>>, r: int, v: V)
    requires Grown(p, input, c, settled, forest) && IsPath(p.a, c.stack) && Complete(p.a, Last(c.stack), r)
    requires Length(p.a, r) < |c.stack|
    requires p.action(r, c.values[|c.values| - Length(p.a, r)..]) == Ok(v)
    ensures var n := |forest| - Length(p.a, r);
            Grown(p, input,
                  c.(stack := Reduced(p.a, c.stack, r), values := c.values[..|c.values| - Length(p.a, r)] + [v]),
                  settled, forest[..n] + [Node(r, forest[n..], v)])
  {
    hide LrTables.Valid, Genuine, YieldAll, Sub, Consumed, Parses;
    var n := |forest| - Length(p.a, r);
    var tree := Node(r, forest[n..], v);
    ReducePath(p.a, c.stack, r);
    ReduceTree(p, c.stack, c.values, forest, r, v);
    CutForest(p, c.stack, c.values, forest, n + 1);
    PushTree(p, c.stack[..n + 1], c.values[..n + 1], forest[..n], Last(Reduced(p.a, c.stack, r)), tree);
    YieldConcat(forest[..n], [tree]);
    YieldOne(tree);
  }

  lemma CutGrows<V>(p: Parser<V>, input: Input<V>, c: Config<V>, settled: nat, forest: seq<Tree<V>>, k: nat)
    requires Grown(p, input, c, settled, forest) && k < |c.stack| && c.recoveries > 0
    ensures Grown(p, input, Popped(c, k), settled, forest[..|forest| - k])
  {
    hide Genuine, YieldAll, Sub, Consumed, FitsAt;
    var n := |forest| - k;
    CutForest(p, c.stack, c.values, forest, n + 1);
    GenuineConcat(YieldAll(forest[..n]), YieldAll(forest[n..]));
    SubCut(Genuine(YieldAll(forest[..n])), Genuine(YieldAll(forest[n..])), Consumed(p, input, settled));
  }

  lemma GrownHeights<V>(p: Parser<V>, input: Input<V>, c: Config<V>, settled: nat, forest: seq<Tree<V>>)
    requires Grown(p, input, c, settled, forest)
    ensures |forest| + 1 == |c.stack| == |c.values|
  {
  }

  // ---------------------------------------------------------------- every step keeps it

  lemma RecoverSound<V>(p: Parser<V>, input: Input<V>, c0: Config<V>, pos: nat, forest: seq<Tree<V>>)
      returns (forest': seq<Tree<V>>)
    requires IsPath(p.a, c0.stack) && |c0.values| == |c0.stack| < c0.size && Fitting(p, c0.size) && InRange(c0)
    requires var c := c0.(recoveries := c0.recoveries + 1);
             Pending(p, input, Pull(Running(c), pos)) && Grown(p, input, c, Settled(Pull(Running(c), pos)), forest)
    ensures Going(Recover(p, c0)) ==> Sound(p, input, Pull(Recover(p, c0), pos), forest')
  {
    hide LrTables.Valid, IsPath, CatchesErrors, ErrorState, Sub, Genuine, YieldAll, Consumed, TokenOf;
    var c := c0.(errstatus := 3, recoveries := c0.recoveries + 1);
    TablesSized(p.a);
    var n := ErrorDepth(p.a.t, c.stack, |c.stack|);
    forest' := forest;
    if n > 0 {
      var q := ErrorState(p.a.t, c.stack[n - 1]);
      RecoverPath(p.a, c.stack, n);
      forest' := forest[..n - 1] + [Leaf(Token(LrTables.TERROR, c.lval))];
      CatchGrows(p, input, c, Settled(Pull(Running(c), pos)), forest, n, q);
    }
  }

  lemma FailSound<V>(p: Parser<V>, input: Input<V>, c: Config<V>, pos: nat, forest: seq<Tree<V>>)
      returns (forest': seq<Tree<V>>)
    requires Ready(p, c) && Sound(p, input, Pull(Running(c), pos), forest)
    ensures Going(Failed(p, c)) ==> Sound(p, input, Pull(Failed(p, c), pos), forest')
  {
    hide LrTables.Valid, IsPath, Recover, Fits, Sub, Genuine, YieldAll, Consumed, TokenOf;
    var c' := Reported(p, c);
    forest' := forest;
    if Going(Failed(p, c)) {
      if c.errstatus == 3 && c.yychar > YYEOF {
        DropGrows(p, input, c'.(recoveries := c'.recoveries + 1), Settled(Pull(Running(c), pos)), forest);
        forest' := RecoverSound(p, input, c'.(yychar := YYEMPTY), pos, forest);
      } else {
        forest' := RecoverSound(p, input, c', pos, forest);
      }
    }
  }

  lemma ReduceSound<V>(p: Parser<V>, input: Input<V>, c: Config<V>, pos: nat, forest: seq<Tree<V>>, r: int)
      returns (forest': seq<Tree<V>>)
    requires Ready(p, c) && Sound(p, input, Pull(Running(c), pos), forest) && Complete(p.a, Last(c.stack), r)
    ensures Going(AfterReduce(p, c, r)) ==> Sound(p, input, Pull(AfterReduce(p, c, r), pos), forest')
  {
    hide LrTables.Valid, Recover, Fits, Sub, Genuine, YieldAll, Consumed, TokenOf, Symbols;
    ReducePath(p.a, c.stack, r);
    var n := Length(p.a, r);
    assert |forest| + 1 == |c.stack| by { GrownHeights(p, input, c, Settled(Pull(Running(c), pos)), forest); }
    forest' := forest;
    var result := p.action(r, c.values[|c.values| - n..]);
    if result.Ok? {
      ReduceGrows(p, input, c, Settled(Pull(Running(c), pos)), forest, r, result.value);
      hide IsPath;
      forest' := forest[..|forest| - n] + [Node(r, forest[|forest| - n..], result.value)];
    } else if result.Raise? {
      BelowPath(p.a, c.stack, |c.stack| - n);
      hide IsPath;
      var c' := c.(recoveries := c.recoveries + 1);
      CutGrows(p, input, c', Settled(Pull(Running(c), pos)), forest, n);
      forest' := RecoverSound(p, input, Popped(c, n), pos, forest[..|forest| - n]);
    }
  }

  lemma StepSound<V>(p: Parser<V>, input: Input<V>, s: Pull<V>, forest: seq<Tree<V>>)
      returns (forest': seq<Tree<V>>)
    requires s.status.Running? && Proper(p, s.status) && Sound(p, input, s, forest)
    ensures Going(PullStep(p, input, s).status) ==> Sound(p, input, PullStep(p, input, s), forest')
  {
    hide LrTables.Valid, Recover, Fits, Sub, Genuine, YieldAll, Consumed, AfterReduce, Failed;
    var c0 := s.status.c;
    DecideFacts(p, c0);
    var c := c0.(lac := c0.lac || Establishes(p, c0));
    forest' := forest;
    match Decide(p, c0) {
      case Read =>
      case Shift(q) =>
        ShiftPath(p.a, c.stack, TokenOf(p, c.yychar));
        hide IsPath, TokenOf;
        ShiftGrows(p, input, c, s.pos - 1, forest, q);
        forest' := forest + [Leaf(Token(Symbol(p.a, q), c.lval))];
      case Reduce(r) => hide TokenOf; forest' := ReduceSound(p, input, c, s.pos, forest, r);
      case Error => hide TokenOf; forest' := FailSound(p, input, c, s.pos, forest);
      case OutOfMemory =>
    }
  }

  /** After every number of steps there is such a forest. */
  lemma {:induction false} RunSound<V>(p: Parser<V>, initial: V, input: Input<V>, n: nat) returns (forest: seq<Tree<V>>)
    requires 0 < p.initDepth
    ensures var s := PullRun(p, initial, input, n);
            Going(s.status) ==> Sound(p, input, s, forest)
  {
    hide LrTables.Valid, Fits, Sub, Genuine, YieldAll, Consumed, Advance;
    if n == 0 {
      forest := [];
      StartSound(p, initial, input);
    } else {
      var s := PullRun(p, initial, input, n - 1);
      forest := RunSound(p, initial, input, n - 1);
      if s.status.Running? {
        forest := StepSound(p, input, s, forest);
      }
    }
  }

  lemma StartSound<V>(p: Parser<V>, initial: V, input: Input<V>)
    requires 0 < p.initDepth
    ensures Sound(p, input, Pull(Start(p, initial), 0), [])
  {
  }

  ghost predicate AcceptsClean<V>(s: Status<V>) {
    s.Done? && s.result == Accepted ==> s.c.yychar == YYEMPTY
  }

  lemma ReduceNeverAccepts<V>(p: Parser<V>, c: Config<V>, r: int)
    requires Ready(p, c) && Complete(p.a, Last(c.stack), r)
    ensures AfterReduce(p, c, r).Done? ==> AfterReduce(p, c, r).result != Accepted
  {
    hide LrTables.Valid, Recover;
    ReducePath(p.a, c.stack, r);
    var n := Length(p.a, r);
    if p.action(r, c.values[|c.values| - n..]).Raise? {
      BelowPath(p.a, c.stack, |c.stack| - n);
      RecoverNeverAccepts(p, Popped(c, n));
    }
  }

  lemma RecoverNeverAccepts<V>(p: Parser<V>, c: Config<V>)
    requires IsPath(p.a, c.stack) && |c.values| == |c.stack| < c.size && Fitting(p, c.size) && InRange(c)
    ensures Recover(p, c).Done? ==> Recover(p, c).result != Accepted
  {
    hide LrTables.Valid, IsPath, CatchesErrors, ErrorState;
    FinalSymbol(p.a);
    TablesSized(p.a);
    var n := ErrorDepth(p.a.t, c.stack, |c.stack|);
    if n > 0 {
      RecoverPath(p.a, c.stack, n);
    }
  }

  lemma FinalSymbol(a: Lalr)
    ensures IsState(a, a.t.final) && a.t.final != 0 && Symbol(a, a.t.final) == LrTables.EOF_TOKEN
  {
  }

  /** The parser accepts right after it shifted the end marker. */
  lemma AdvanceAccepts<V>(p: Parser<V>, c0: Config<V>)
    requires Ready(p, c0)
    ensures AcceptsClean(Advance(p, c0))
  {
    hide LrTables.Valid, Recover, AfterReduce, TokenOf;
    DecideFacts(p, c0);
    var c := c0.(lac := c0.lac || Establishes(p, c0));
    match Decide(p, c0) {
      case Reduce(r) => ReduceNeverAccepts(p, c, r);
      case Error =>
        var c' := Reported(p, c);
        RecoverNeverAccepts(p, c');
        RecoverNeverAccepts(p, c'.(yychar := YYEMPTY));
      case _ =>
    }
  }

  lemma {:induction false} RunAccepts<V>(p: Parser<V>, initial: V, input: Input<V>, n: nat)
    requires 0 < p.initDepth
    ensures AcceptsClean(PullRun(p, initial, input, n).status)
  {
    FinalSymbol(p.a);
    hide LrTables.Valid, Advance;
    if n > 0 {
      RunAccepts(p, initial, input, n - 1);
      var s := PullRun(p, initial, input, n - 1);
      if s.status.Running? {
        AdvanceAccepts(p, s.status.c);
      }
    }
  }

  lemma RootOfNode<V>(a: Lalr, action: Action<V>, tree: Tree<V>)
    requires Parses(a.g, a.t, action, tree) && Root(a.t, tree) == LrTables.EOF_TOKEN
    ensures tree.Leaf?
  {
    if tree.Node? {
      RuleFacts(a, tree.rule);
      LhsIsNoToken(a, tree.rule);
    }
  }

  lemma LhsIsNoToken(a: Lalr, r: int)
    requires IsRule(a, r)
    ensures Lhs(a, r) >= a.t.ntokens > 0
  {
    assert LrTables.IsRule(a.t, r);
  }

  /** An accepted input without a syntax error is a sentence: the tokens read, up to and including the
      end marker, are the leaves of a parse tree for the start symbol and the end marker. */
  lemma AcceptedIsSentence<V>(p: Parser<V>, initial: V, input: Input<V>, n: nat) returns (tree: Tree<V>, end: Token<V>)
    requires 0 < p.initDepth
    requires var s := PullRun(p, initial, input, n).status; s.Done? && s.result == Accepted && s.c.recoveries == 0
    ensures Parses(p.a.g, p.a.t, p.action, tree) && Root(p.a.t, tree) == p.a.g.rhs[1][0]
    ensures end.symbol == LrTables.EOF_TOKEN
    ensures var s := PullRun(p, initial, input, n);
            && Consumed(p, input, s.pos) == Yield(tree) + [end]
            && |s.status.c.values| == 3 && s.status.c.values[1] == ValueOf(tree)
  {
    var s := PullRun(p, initial, input, n);
    var forest := RunSound(p, initial, input, n);
    RunAccepts(p, initial, input, n);
    var stack := s.status.c.stack;
    AcceptStack(p.a, stack);
    SymbolsAt(p.a, stack[1..], 0);
    SymbolsAt(p.a, stack[1..], 1);
    hide LrTables.Valid, Parses, Symbols, PullRun, Sub, Genuine;
    assert FitsAt(p, stack[1], s.status.c.values[1], forest[0]) && FitsAt(p, stack[2], s.status.c.values[2], forest[1]);
    RootOfNode(p.a, p.action, forest[1]);
    tree, end := forest[0], forest[1].token;
    assert forest == [tree] + [forest[1]];
    YieldConcat([tree], [forest[1]]);
    YieldOne(tree);
    YieldOne(forest[1]);
  }
}
