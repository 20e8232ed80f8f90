/** What the graph-structured stack satisfies between any two operations of a parse. */
module GlrInvariant {
  import opened Collections
  import LrTables
  import opened LrAutomaton
  import opened GlrShape
  import opened GlrOps
  import opened GlrReduce
  import opened GlrOptions
  import opened GlrCompress
  import opened GlrSentences

  /** All chains of alternatives are legal; states at or below the split point have none. */
  ghost predicate Owned<V>(g: Gss<V>) {
    && Chained(g.items) && AllOwn(g.items)
    && forall i :: 0 <= i <= Base(g) && StateAt(g.items, i) ==> Settled(g.items, i)
  }

  /** The last state on which all stacks stand. */
  ghost function Base<V>(g: Gss<V>): int {
    if g.split == NONE then |g.items| - 1 else g.split
  }

  ghost predicate AllDead<V>(g: Gss<V>) {
    forall k :: 0 <= k < |g.tops| ==> g.tops[k] == NONE
  }

  /** When no stack is left, the last one that was deleted can still be found. */
  ghost predicate Recoverable<V>(g: Gss<V>) {
    g.split != NONE && AllDead(g) ==> !g.stale && g.lastDeleted != NONE
  }

  /** The right-hand side of every alternative is on the stack. */
  ghost predicate Supported<V>(a: Lalr, items: seq<Item<V>>) {
    Descending(items) && forall y :: ChoiceAt(items, y) ==> SupportedAt(a, items, y)
  }

  ghost predicate SupportedAt<V>(a: Lalr, items: seq<Item<V>>, y: int)
    requires Descending(items) && ChoiceAt(items, y)
  {
    Supports(a, items, items[y].rhs, items[y].rule)
  }

  /** The right-hand side of the rule is on the stack with top t. */
  ghost predicate Supports<V>(a: Lalr, items: seq<Item<V>>, t: int, rule: int)
    requires Descending(items)
  {
    IsRule(a, rule) && StateAt(items, t) && Length(a, rule) < |Path(items, t)|
  }

  /** What has happened: `lost` says that an action failed while a stack was resolved, after which
      nothing is said of the alternatives. `input` is known until the first recovery from an error. */
  datatype History = History(lost: bool, input: Option<Input>)

  ghost predicate Sound<V>(a: Lalr, g: Gss<V>, h: History) {
    Shape(g) && Linked(a, g.items) && Supported(a, g.items) && Recoverable(g) && Telling(a, g.items, h)
    && (!h.lost ==> Owned(g) && Filled(g.items))
  }

  /** Every state stands for the part of the input between its predecessor's position and its own. */
  ghost predicate Telling<V>(a: Lalr, items: seq<Item<V>>, h: History) {
    h.input.Some? ==> Spans(a, items, h.input.value)
  }

  // ---------------------------------------------------------------- right-hand sides

  /** Right-hand sides stay where the chains of states do. */
  lemma SupportedSame<V>(a: Lalr, items: seq<Item<V>>, now: seq<Item<V>>)
    requires Supported(a, items) && Descending(now) && SameChains(items, now)
    requires forall y :: ChoiceAt(now, y) ==> ChoiceAt(items, y) && now[y].rule == items[y].rule && now[y].rhs == items[y].rhs
    ensures Supported(a, now)
  {
    hide LrTables.Valid, Descending, Path, SameChains;
    forall y | ChoiceAt(now, y) ensures SupportedAt(a, now, y) {
      assert ChoiceAt(items, y) && SupportedAt(a, items, y);
      SamePath(items, now, items[y].rhs);
    }
  }

  lemma SupportedMore<V>(a: Lalr, items: seq<Item<V>>, x: Item<V>)
    requires Supported(a, items)
    requires match x
             case State(_, pred, posn, _) => if items == [] then pred == NONE else StateAt(items, pred) && items[pred].posn <= posn
             case Choice(rule, rhs, _, _) => Supports(a, items, rhs, rule)
    ensures Supported(a, items + [x])
  {
    hide LrTables.Valid, Path, SameChains;
    PushDescends(items, x);
    hide Descending;
    var more := items + [x];
    forall y | ChoiceAt(more, y) ensures SupportedAt(a, more, y) {
      if y < |items| {
        assert ChoiceAt(items, y) && SupportedAt(a, items, y);
        SamePath(items, more, items[y].rhs);
      } else {
        SamePath(items, more, x.rhs);
      }
    }
  }

  /** A stack without gaps has no alternatives. */
  lemma SupportedSingle<V>(a: Lalr, items: seq<Item<V>>)
    requires Descending(items) && Contiguous(items, |items|)
    ensures Supported(a, items)
  {
  }

  lemma PushSupported<V>(a: Lalr, g: Gss<V>, k: int, lr: int, posn: nat, sem: Semantics<V>)
    requires Supported(a, g.items) && CanPush(g, k, posn) && (g.tops[k] == NONE || g.items != [])
    ensures Supported(a, PushState(g, k, lr, posn, sem).items)
  {
    hide LrTables.Valid, Supported;
    SupportedMore(a, g.items, State(lr, g.tops[k], posn, sem));
  }

  lemma ChoiceSupported<V>(a: Lalr, g: Gss<V>, p: int, rhs: int, rule: int, raw: Option<V>)
    requires Supported(a, g.items) && StateAt(g.items, p) && Supports(a, g.items, rhs, rule)
    ensures Supported(a, AddChoice(g, p, rhs, rule, raw).items)
  {
    hide LrTables.Valid, Path, Supported;
    SupportedDescends(a, g.items);
    ChoiceChains(g, p, rhs, rule, raw);
    var now := g.items[p := g.items[p].(sem := Unresolved(|g.items|))];
    SetDescends(g.items, p, Unresolved(|g.items|));
    SupportedSame(a, g.items, now);
    SamePath(g.items, now, rhs);
    SupportedMore(a, now, Choice(rule, rhs, FirstChoice(g.items[p]), raw));
  }

  lemma SupportedDescends<V>(a: Lalr, items: seq<Item<V>>)
    requires Supported(a, items)
    ensures Descending(items)
  {
  }

  lemma SetDescends<V>(items: seq<Item<V>>, p: int, sem: Semantics<V>)
    requires Descending(items) && StateAt(items, p)
    ensures var now := items[p := items[p].(sem := sem)]; Descending(now) && SameChains(items, now)
  {
    var now := items[p := items[p].(sem := sem)];
    forall i | StateAt(now, i) ensures Stands(now, i) {
      assert StateAt(items, i);
      assert i != 0 ==> Below(items, i);
    }
  }

  lemma PopSupported<V>(a: Lalr, g: Gss<V>, k: int, n: nat)
    requires Shape(g) && Supported(a, g.items) && 0 <= k < |g.tops| && StateAt(g.items, g.tops[k]) && n < |Path(g.items, g.tops[k])|
    ensures Supported(a, PopStack(g, k, n).items)
  {
    hide LrTables.Valid, Descending, Fans, Contiguous, Path, Back, Supported;
    if g.split == NONE {
      PopSingle(g, n);
      PrefixSupported(a, g.items, |g.items| - n);
    }
  }

  lemma PrefixSupported<V>(a: Lalr, items: seq<Item<V>>, n: nat)
    requires Descending(items) && Contiguous(items, |items|) && n <= |items|
    ensures Supported(a, items[..n])
  {
    hide LrTables.Valid, Descending, Contiguous, Supported;
    PrefixShape(items, n);
    SupportedSingle(a, items[..n]);
  }

  lemma DeferSupported<V>(a: Lalr, g: Gss<V>, k: int, s: int, q: int, posn: nat, rule: int, raw: Option<V>)
    requires Shape(g) && Supported(a, g.items) && g.split != NONE && 0 <= k < |g.tops| && StateAt(g.items, s) && g.items[s].posn <= posn
    requires Descending(g.items) && Supports(a, g.items, g.tops[k], rule)
    ensures Supported(a, Defer(g, k, s, q, posn, rule, raw).items)
  {
    hide LrTables.Valid, Shape, FindFrom, Supported, Path, Descending;
    UpdateSplitKeepsShape(g, s);
    var g1 := UpdateSplit(g, s);
    var p := FindFrom(g1, k, s, posn, q, 0);
    if p != NONE {
      ChoiceSupported(a, g1, p, g.tops[k], rule, raw);
    } else {
      var g2 := g1.(tops := g.tops[k := s]);
      var g3 := PushState(g2, k, q, posn, Unresolved(NONE));
      PushSupported(a, g2, k, q, posn, Unresolved(NONE));
      SupportedDescends(a, g3.items);
      MoreChains(g.items, State(q, s, posn, Unresolved(NONE)));
      SamePath(g.items, g3.items, g.tops[k]);
      ChoiceSupported(a, g3, |g.items|, g.tops[k], rule, raw);
    }
  }

  lemma MoreChains<V>(items: seq<Item<V>>, x: Item<V>)
    ensures SameChains(items, items + [x])
  {
  }

  // ---------------------------------------------------------------- alternatives

  lemma PushOwned<V>(items: seq<Item<V>>, x: Item<V>)
    requires Chained(items) && AllOwn(items)
    requires match x
             case State(_, _, _, sem) => sem.Unresolved? ==> HeadAt(items, sem.first)
             case Choice(_, _, next, _) => HeadAt(items, next)
    ensures Chained(items + [x]) && AllOwn(items + [x])
  {
    var more := items + [x];
    forall i | ChoiceAt(more, i) ensures NextBelow(more, i) {
      if i < |items| {
        assert ChoiceAt(items, i) && NextBelow(items, i);
      }
    }
    forall i | StateAt(more, i) && more[i].sem.Unresolved? ensures HeadAt(more, more[i].sem.first) {
      if i < |items| {
        assert StateAt(items, i);
      }
    }
  }

  lemma PushStateOwned<V>(g: Gss<V>, k: int, lr: int, posn: nat, sem: Semantics<V>)
    requires Shape(g) && Owned(g) && 0 <= k < |g.tops| && (sem.Unresolved? ==> sem.first == NONE)
    ensures Owned(PushState(g, k, lr, posn, sem))
  {
    hide Chained, AllOwn, Shape;
    var g' := PushState(g, k, lr, posn, sem);
    PushOwned(g.items, State(lr, g.tops[k], posn, sem));
    forall i | 0 <= i <= Base(g') && StateAt(g'.items, i) ensures Settled(g'.items, i) {
      if i < |g.items| {
        BaseInside(g);
        assert StateAt(g.items, i);
        assert Settled(g.items, i);
      }
    }
  }

  lemma BaseInside<V>(g: Gss<V>)
    requires Shape(g)
    ensures Base(g) < |g.items|
  {
    hide Descending, Fans, Contiguous;
  }

  lemma AddChoiceOwned<V>(g: Gss<V>, p: int, rhs: int, rule: int, raw: Option<V>)
    requires Shape(g) && Owned(g) && g.split != NONE && StateAt(g.items, p) && p > g.split
    ensures Owned(AddChoice(g, p, rhs, rule, raw))
  {
    hide Shape;
    BaseInside(g);
    var x := Choice(rule, rhs, FirstChoice(g.items[p]), raw);
    PushOwned(g.items, x);
    var more, g' := g.items + [x], AddChoice(g, p, rhs, rule, raw);
    assert g'.items == more[p := more[p].(sem := Unresolved(|g.items|))];
    forall i | ChoiceAt(g'.items, i) ensures NextBelow(g'.items, i) {
      assert ChoiceAt(more, i) && NextBelow(more, i);
    }
    forall i | StateAt(g'.items, i) && g'.items[i].sem.Unresolved? ensures HeadAt(g'.items, g'.items[i].sem.first) {
      if i != p {
        assert StateAt(more, i) && HeadAt(more, more[i].sem.first);
      }
    }
    forall i | 0 <= i <= Base(g') && StateAt(g'.items, i) ensures Settled(g'.items, i) {
      assert StateAt(g.items, i) && Settled(g.items, i);
    }
  }

  lemma SplitLowerOwned<V>(g: Gss<V>, split: int, tops: seq<int>)
    requires Owned(g) && g.split != NONE && split <= g.split && split != NONE
    ensures Owned(g.(split := split, tops := tops))
  {
  }

  /** A single stack has no alternatives. */
  lemma SingleOwned<V>(items: seq<Item<V>>)
    requires Contiguous(items, |items|) && forall i :: 0 <= i < |items| && StateAt(items, i) ==> Settled(items, i)
    ensures Chained(items) && AllOwn(items)
  {
  }

  lemma PopOwned<V>(g: Gss<V>, k: int, n: nat)
    requires Shape(g) && Owned(g) && 0 <= k < |g.tops| && StateAt(g.items, g.tops[k]) && n < |Path(g.items, g.tops[k])|
    ensures Owned(PopStack(g, k, n))
  {
    hide Descending, Fans, Contiguous, Path, Back, Chained, AllOwn;
    if g.split == NONE {
      PopSingle(g, n);
      PrefixOwned(g, n);
    } else {
      var s := Back(g.items, g.tops[k], n);
      SplitLowerOwned(g, UpdateSplit(g, s).split, g.tops[k := s]);
    }
  }

  lemma PrefixOwned<V>(g: Gss<V>, n: nat)
    requires Shape(g) && Owned(g) && g.split == NONE && n < |g.items|
    ensures Owned(g.(items := g.items[..|g.items| - n], tops := [|g.items| - n - 1]))
  {
    hide Descending, Fans, Chained, AllOwn;
    var less := g.items[..|g.items| - n];
    forall i | 0 <= i < |less| && StateAt(less, i) ensures Settled(less, i) {
      assert StateAt(g.items, i) && Settled(g.items, i);
    }
    SingleOwned(less);
  }

  // ---------------------------------------------------------------- nondeterministic operation

  /** All live stacks are at the same position. */
  ghost predicate Even<V>(a: Lalr, g: Gss<V>, posn: nat, h: History) {
    Sound(a, g, h) && InStep(g, posn)
  }

  ghost predicate Working<V>(a: Lalr, g: Gss<V>, posn: nat, h: History) {
    Even(a, g, posn, h) && g.split != NONE
  }

  lemma FilledMore<V>(items: seq<Item<V>>, x: Item<V>)
    requires Filled(items) && (x.State? && x.sem.Unresolved? ==> x.sem.first != NONE)
    ensures Filled(items + [x])
  {
    forall i | StateAt(items + [x], i) ensures FilledAt(items + [x], i) {
      assert i < |items| ==> StateAt(items, i) && FilledAt(items, i);
    }
  }

  lemma FilledPrefix<V>(items: seq<Item<V>>, n: nat)
    requires Filled(items) && n <= |items|
    ensures Filled(items[..n])
  {
    forall i | StateAt(items[..n], i) ensures FilledAt(items[..n], i) {
      assert StateAt(items, i) && FilledAt(items, i);
    }
  }

  /** The state that gets an alternative may be one that had none. */
  lemma FilledChoice<V>(g: Gss<V>, p: int, rhs: int, rule: int, raw: Option<V>)
    requires StateAt(g.items, p) && forall i :: StateAt(g.items, i) && i != p ==> FilledAt(g.items, i)
    ensures Filled(AddChoice(g, p, rhs, rule, raw).items)
  {
    var more := AddChoice(g, p, rhs, rule, raw).items;
    forall i | StateAt(more, i) ensures FilledAt(more, i) {
      assert StateAt(g.items, i);
      assert i != p ==> FilledAt(g.items, i);
    }
  }

  lemma DeferFilled<V>(g: Gss<V>, k: int, s: int, q: int, posn: nat, rule: int, raw: Option<V>)
    requires Shape(g) && Filled(g.items) && g.split != NONE && 0 <= k < |g.tops| && StateAt(g.items, s)
    ensures Filled(Defer(g, k, s, q, posn, rule, raw).items)
  {
    hide Filled, Shape, FindFrom;
    UpdateSplitKeepsShape(g, s);
    var g1 := UpdateSplit(g, s);
    var p := FindFrom(g1, k, s, posn, q, 0);
    if p != NONE {
      FilledAll(g.items);
      FilledChoice(g1, p, g.tops[k], rule, raw);
    } else {
      var g2 := PushState(g1.(tops := g.tops[k := s]), k, q, posn, Unresolved(NONE));
      FilledAll(g.items);
      forall i | StateAt(g2.items, i) && i != |g.items| ensures FilledAt(g2.items, i) {
        assert StateAt(g.items, i) && FilledAt(g.items, i);
      }
      FilledChoice(g2, |g.items|, g.tops[k], rule, raw);
    }
  }

  lemma FilledAll<V>(items: seq<Item<V>>)
    requires Filled(items)
    ensures forall i :: StateAt(items, i) ==> FilledAt(items, i)
  {
  }

  lemma PopFilled<V>(g: Gss<V>, k: int, n: nat)
    requires Shape(g) && Filled(g.items) && 0 <= k < |g.tops| && StateAt(g.items, g.tops[k]) && n < |Path(g.items, g.tops[k])|
    ensures Filled(PopStack(g, k, n).items)
  {
    hide Descending, Fans, Contiguous, Path, Back, Filled;
    if g.split == NONE {
      PopSingle(g, n);
      FilledPrefix(g.items, |g.items| - n);
    }
  }

  /** The stacks of g other than the k-th are still there. */
  ghost predicate Extends<V>(g: Gss<V>, k: int, g': Gss<V>) {
    && Shape(g) && Shape(g') && |g.tops| <= |g'.tops|
    && forall i :: 0 <= i < |g.tops| && i != k ==> g'.tops[i] == g.tops[i] && SameStack(g, g', i)
  }

  lemma ExtendsTransitive<V>(g: Gss<V>, k: int, g1: Gss<V>, j: int, g2: Gss<V>)
    requires Extends(g, k, g1) && Extends(g1, j, g2) && (j == k || j >= |g.tops|)
    ensures Extends(g, k, g2)
  {
    hide Descending, Contiguous, Fans, Spine;
    forall i | 0 <= i < |g.tops| && i != k ensures g2.tops[i] == g.tops[i] && SameStack(g, g2, i) {
      assert g1.tops[i] == g.tops[i] && g2.tops[i] == g1.tops[i] && SameStack(g, g1, i) && SameStack(g1, g2, i);
    }
  }

  /** What is seen of a stack from above: the same top state. */
  lemma SameTop<V>(g: Gss<V>, k: int, g': Gss<V>, i: int)
    requires Extends(g, k, g') && 0 <= i < |g.tops| && i != k && StateAt(g.items, g.tops[i])
    ensures StateAt(g'.items, g'.tops[i]) && g'.items[g'.tops[i]].lr == g.items[g.tops[i]].lr
    ensures g'.items[g'.tops[i]].posn == g.items[g.tops[i]].posn
  {
    hide Descending, Contiguous, Fans;
    assert SameStack(g, g', i);
    assert Last(Spine(g'.items, g'.tops[i])) == Last(Spine(g.items, g.tops[i]));
  }

  lemma DeadStays<V>(g: Gss<V>, k: int, g': Gss<V>, i: int)
    requires Extends(g, k, g') && 0 <= i < |g.tops| && i != k
    ensures g'.tops[i] == g.tops[i]
  {
  }

  /** If the stacks besides the k-th stay and the k-th is dead or has such a top, the rest follows. */
  lemma KeepsWorking<V>(g: Gss<V>, k: int, g': Gss<V>, posn: nat)
    requires Extends(g, k, g') && |g'.tops| == |g.tops| && InStep(g, posn) && 0 <= k < |g.tops|
    requires StateAt(g'.items, g'.tops[k]) ==> g'.items[g'.tops[k]].posn == posn
    ensures InStep(g', posn)
  {
    hide Descending, Contiguous, Fans, SameStack, Shape;
    forall i | 0 <= i < |g'.tops| && StateAt(g'.items, g'.tops[i]) ensures g'.items[g'.tops[i]].posn == posn {
      if i != k {
        DeadStays(g, k, g', i);
        TopKind(g, i);
        if g.tops[i] != NONE {
          SameTop(g, k, g', i);
        }
      }
    }
  }

  lemma TopKind<V>(g: Gss<V>, i: int)
    requires Shape(g) && 0 <= i < |g.tops|
    ensures g.tops[i] == NONE || StateAt(g.items, g.tops[i])
  {
    hide Descending, Contiguous, Fans;
    if g.tops[i] != NONE {
      LiveTop(g, i);
    }
  }

  /** Some stack is live, or what was deleted last can be found. */
  lemma LiveRecovers<V>(g: Gss<V>, i: int)
    requires 0 <= i < |g.tops| && g.tops[i] != NONE
    ensures Recoverable(g)
  {
  }

  lemma OwnedSame<V>(g: Gss<V>, g': Gss<V>)
    requires Owned(g) && g'.items == g.items && g'.split == g.split
    ensures Owned(g')
  {
  }

  lemma DeleteWorks<V>(a: Lalr, g: Gss<V>, k: int, posn: nat, h: History)
    requires Working(a, g, posn, h) && 0 <= k < |g.tops|
    ensures var g' := MarkDeleted(g, k);
            Working(a, g', posn, h) && Extends(g, k, g') && |g'.tops| == |g.tops| && g'.tops[k] == NONE
  {
    hide LrTables.Valid, Descending, Contiguous, Fans, Linked, Supported, Telling, Owned, Spine;
    var g' := MarkDeleted(g, k);
    DeleteKeepsShape(g, k);
    KeepsWorking(g, k, g', posn);
    if !h.lost {
      OwnedSame(g, g');
    }
  }

  lemma TopOfSpine<V>(items: seq<Item<V>>, t: int, below: seq<Node>, x: Node)
    requires Descending(items) && StateAt(items, t) && Spine(items, t) == below + [x]
    ensures items[t].lr == x.lr && items[t].posn == x.posn
  {
    assert Last(Spine(items, t)) == x;
  }

  lemma DeferOwned<V>(g: Gss<V>, k: int, s: int, q: int, posn: nat, rule: int, raw: Option<V>)
    requires Shape(g) && Owned(g) && g.split != NONE && 0 <= k < |g.tops| && StateAt(g.items, s) && g.items[s].posn <= posn
    ensures Owned(Defer(g, k, s, q, posn, rule, raw))
  {
    hide Descending, Contiguous, Fans, Chained, AllOwn;
    var g1 := UpdateSplit(g, s);
    UpdateSplitKeepsShape(g, s);
    SplitLowerOwned(g, g1.split, g.tops);
    FindFromFacts(g1, k, s, posn, q, 0);
    var p := FindFrom(g1, k, s, posn, q, 0);
    hide FindFrom, Owned;
    if p != NONE {
      var i: nat :| Twin(g1, k, s, posn, q, i, p);
      TwinAbove(g1.items, p);
      AddChoiceOwned(g1, p, g.tops[k], rule, raw);
      var g2 := AddChoice(g1, p, g.tops[k], rule, raw);
      OwnedSame(g2, MarkDeleted(g2, k));
    } else {
      var g2 := g1.(tops := g.tops[k := s]);
      RetopKeepsShape(g1, k, s);
      OwnedSame(g1, g2);
      PushKeepsShape(g2, k, q, posn, Unresolved(NONE));
      PushStateOwned(g2, k, q, posn, Unresolved(NONE));
      BaseInside(g2);
      AddChoiceOwned(PushState(g2, k, q, posn, Unresolved(NONE)), |g.items|, g.tops[k], rule, raw);
    }
  }

  lemma TwinAbove<V>(items: seq<Item<V>>, p: int)
    requires Descending(items) && StateAt(items, p) && items[p].pred >= 0
    ensures p > items[p].pred
  {
    assert p != 0 ==> Below(items, p);
  }

  lemma RetopKeepsShape<V>(g: Gss<V>, k: int, s: int)
    requires Shape(g) && g.split != NONE && 0 <= k < |g.tops| && IsTop(g.items, g.split, s)
    ensures Shape(g.(tops := g.tops[k := s]))
  {
    hide Descending, Contiguous, Fans;
  }

  /** A reduction that is put off keeps everything. */
  lemma LaterWorks<V>(a: Lalr, g: Gss<V>, k: int, rule: int, raw: Option<V>, posn: nat, h: History)
    requires CanReduce(a, g, k, rule) && Working(a, g, posn, h)
    ensures var g' := ReduceLater(a, g, k, rule, raw);
            Working(a, g', posn, h) && Extends(g, k, g') && |g'.tops| == |g.tops|
    ensures var g' := ReduceLater(a, g, k, rule, raw);
            exists i :: 0 <= i < |g'.tops| && g'.tops[i] != NONE
  {
    hide LrTables.Valid, Descending, Contiguous, Fans, Linked, Supported, Telling, Spine, Defer, Owned;
    var g', s := ReduceLater(a, g, k, rule, raw), Uncovered(a, g, k, rule);
    ReduceLaterEffect(a, g, k, rule, raw);
    UncoveredPosn(a, g, k, rule);
    if StateAt(g'.items, g'.tops[k]) {
      TopOfSpine(g'.items, g'.tops[k], Spine(g.items, s), Node(GotoRule(a, g.items[s].lr, rule), posn));
      LiveRecovers(g', k);
    } else {
      var i: nat :| Covers(g, k, i, ReducedSpine(a, g, k, rule));
      LiveRecovers(g', i);
    }
    KeepsWorking(g, k, g', posn);
    LaterSupported(a, g, k, rule, raw);
    LaterTells(a, g, k, rule, raw, h);
    if !h.lost {
      DeferOwned(g, k, s, GotoRule(a, g.items[s].lr, rule), posn, rule, raw);
      DeferFilled(g, k, s, GotoRule(a, g.items[s].lr, rule), posn, rule, raw);
    }
  }

  lemma LaterTells<V>(a: Lalr, g: Gss<V>, k: int, rule: int, raw: Option<V>, h: History)
    requires CanReduce(a, g, k, rule) && Telling(a, g.items, h) && g.split != NONE
    ensures Telling(a, ReduceLater(a, g, k, rule, raw).items, h)
  {
    hide LrTables.Valid, Linked, Shape, Spans, Defer;
    if h.input.Some? {
      SpansLater(a, g, k, rule, raw, h.input.value);
    }
  }

  lemma NowTells<V>(a: Lalr, g: Gss<V>, k: int, rule: int, v: V, h: History)
    requires CanReduce(a, g, k, rule) && Telling(a, g.items, h)
    ensures Telling(a, ReduceNow(a, g, k, rule, v).items, h)
  {
    hide LrTables.Valid, Linked, Shape, Spans, PopStack;
    if h.input.Some? {
      SpansNow(a, g, k, rule, v, h.input.value);
    }
  }

  lemma PopTells<V>(a: Lalr, g: Gss<V>, k: int, n: nat, h: History)
    requires Shape(g) && Telling(a, g.items, h) && 0 <= k < |g.tops| && StateAt(g.items, g.tops[k]) && n < |Path(g.items, g.tops[k])|
    ensures Telling(a, PopStack(g, k, n).items, h)
  {
    hide LrTables.Valid, Descending, Fans, Contiguous, Path, Back, Spans;
    if h.input.Some? {
      SpansPop(a, g, k, n, h.input.value);
    }
  }

  lemma PrefixTells<V>(a: Lalr, items: seq<Item<V>>, n: nat, h: History)
    requires Telling(a, items, h) && Descending(items) && n <= |items|
    ensures Telling(a, items[..n], h)
  {
    hide LrTables.Valid, Descending, Spans;
    if h.input.Some? {
      SpansPrefix(a, items, n, h.input.value);
    }
  }

  /** What a state that is pushed stands for. */
  ghost predicate StandsFor(a: Lalr, h: History, lr: int, from: nat, to: nat) {
    h.input.Some? ==> SpanFits(a, h.input.value, lr, from, to)
  }

  lemma PushTells<V>(a: Lalr, g: Gss<V>, k: int, lr: int, posn: nat, sem: Semantics<V>, h: History)
    requires Telling(a, g.items, h) && 0 <= k < |g.tops| && StateAt(g.items, g.tops[k])
    requires StandsFor(a, h, lr, g.items[g.tops[k]].posn, posn)
    ensures Telling(a, PushState(g, k, lr, posn, sem).items, h)
  {
    hide LrTables.Valid, Spans, SpanFits;
    if h.input.Some? {
      SpansMore(a, g.items, State(lr, g.tops[k], posn, sem), h.input.value);
    }
  }

  lemma CompressTells<V>(a: Lalr, g: Gss<V>, h: History)
    requires Shape(g) && Telling(a, g.items, h)
    ensures Telling(a, Compress(g).items, h)
  {
    hide LrTables.Valid, Descending, Contiguous, Fans, Content, Spans;
    if h.input.Some? && |g.tops| == 1 && g.split != NONE && g.tops[0] != NONE {
      LiveTop(g, 0);
      SpansContent(a, g.items, g.tops[0], h.input.value);
    }
  }

  lemma LaterSupported<V>(a: Lalr, g: Gss<V>, k: int, rule: int, raw: Option<V>)
    requires CanReduce(a, g, k, rule) && Supported(a, g.items) && g.split != NONE
    ensures Supported(a, ReduceLater(a, g, k, rule, raw).items)
  {
    hide LrTables.Valid, Linked, Supported, Telling, Defer, Contiguous, Fans, Path;
    var s := Uncovered(a, g, k, rule);
    Reducible(a, g, k, rule);
    UncoveredPosn(a, g, k, rule);
    DeferSupported(a, g, k, s, GotoRule(a, g.items[s].lr, rule), g.items[g.tops[k]].posn, rule, raw);
  }

  lemma UncoveredPosn<V>(a: Lalr, g: Gss<V>, k: int, rule: int)
    requires CanReduce(a, g, k, rule)
    ensures g.items[Uncovered(a, g, k, rule)].posn <= g.items[g.tops[k]].posn
  {
    hide LrTables.Valid, Linked, Supported, Telling;
    Reducible(a, g, k, rule);
    BackPath(g.items, g.tops[k], Length(a, rule));
  }

  lemma NowOwned<V>(a: Lalr, g: Gss<V>, k: int, rule: int, v: V)
    requires CanReduce(a, g, k, rule) && Owned(g) && Filled(g.items)
    ensures Owned(ReduceNow(a, g, k, rule, v)) && Filled(ReduceNow(a, g, k, rule, v).items)
  {
    hide LrTables.Valid, Linked, Supported, Telling, Owned, Filled, Shape, PopStack;
    Reducible(a, g, k, rule);
    PopKeepsShape(g, k, Length(a, rule));
    PopTops(g, k, Length(a, rule));
    PopOwned(g, k, Length(a, rule));
    PopFilled(g, k, Length(a, rule));
    var g', q, posn := PopStack(g, k, Length(a, rule)), GotoRule(a, g.items[Uncovered(a, g, k, rule)].lr, rule),
                       g.items[g.tops[k]].posn;
    PushStateOwned(g', k, q, posn, Resolved(v));
    FilledMore(g'.items, State(q, g'.tops[k], posn, Resolved(v)));
  }

  lemma PopTops<V>(g: Gss<V>, k: int, n: nat)
    requires Shape(g) && 0 <= k < |g.tops| && StateAt(g.items, g.tops[k]) && n < |Path(g.items, g.tops[k])|
    ensures |PopStack(g, k, n).tops| == |g.tops|
  {
    hide Descending, Fans, Contiguous, Path, Back;
    PopEffect(g, k, n);
  }

  /** A reduction whose action is run at once keeps everything. */
  lemma NowWorks<V>(a: Lalr, g: Gss<V>, k: int, rule: int, v: V, posn: nat, h: History)
    requires CanReduce(a, g, k, rule) && Working(a, g, posn, h)
    ensures var g' := ReduceNow(a, g, k, rule, v);
            Working(a, g', posn, h) && Extends(g, k, g') && |g'.tops| == |g.tops| && g'.tops[k] != NONE
  {
    hide LrTables.Valid, Descending, Contiguous, Fans, Linked, Supported, Telling, Spine, Owned, PopStack;
    var g', s := ReduceNow(a, g, k, rule, v), Uncovered(a, g, k, rule);
    ReduceNowEffect(a, g, k, rule, v);
    NowTops(a, g, k, rule, v);
    TopOfSpine(g'.items, g'.tops[k], Spine(g.items, s), Node(GotoRule(a, g.items[s].lr, rule), posn));
    LiveRecovers(g', k);
    KeepsWorking(g, k, g', posn);
    NowSupported(a, g, k, rule, v);
    NowTells(a, g, k, rule, v, h);
    if !h.lost {
      NowOwned(a, g, k, rule, v);
    }
  }

  lemma NowSupported<V>(a: Lalr, g: Gss<V>, k: int, rule: int, v: V)
    requires CanReduce(a, g, k, rule) && Supported(a, g.items) && g.split != NONE
    ensures Supported(a, ReduceNow(a, g, k, rule, v).items)
  {
    hide LrTables.Valid, Linked, Supported, Telling, Contiguous, Fans, Path, Descending;
    Reducible(a, g, k, rule);
    UncoveredPosn(a, g, k, rule);
    var s := Uncovered(a, g, k, rule);
    SupportedMore(a, g.items, State(GotoRule(a, g.items[s].lr, rule), s, g.items[g.tops[k]].posn, Resolved(v)));
  }

  lemma NowTops<V>(a: Lalr, g: Gss<V>, k: int, rule: int, v: V)
    requires CanReduce(a, g, k, rule) && g.split != NONE
    ensures var g' := ReduceNow(a, g, k, rule, v);
            && |g'.tops| == |g.tops| && g'.split != NONE && g'.tops[k] == |g.items|
            && forall i :: 0 <= i < |g.tops| && i != k ==> g'.tops[i] == g.tops[i]
  {
    hide LrTables.Valid, Linked, Supported, Telling, Descending, Contiguous, Fans;
    Reducible(a, g, k, rule);
    PopEffect(g, k, Length(a, rule));
  }

  /** A stack whose action failed is popped and then given up. */
  lemma RejectWorks<V>(a: Lalr, g: Gss<V>, k: int, rule: int, posn: nat, h: History)
    requires CanReduce(a, g, k, rule) && Working(a, g, posn, h)
    ensures Length(a, rule) < |Path(g.items, g.tops[k])|
    ensures var g' := MarkDeleted(PopStack(g, k, Length(a, rule)), k);
            Working(a, g', posn, h) && Extends(g, k, g') && |g'.tops| == |g.tops| && g'.tops[k] == NONE
  {
    hide LrTables.Valid, Linked, Supported, Telling, Descending, Contiguous, Fans, Spine, Owned, Path;
    Reducible(a, g, k, rule);
    var n := Length(a, rule);
    var g1 := PopStack(g, k, n);
    PopEffect(g, k, n);
    if !h.lost {
      PopOwned(g, k, n);
      PopFilled(g, k, n);
      OwnedSame(g1, MarkDeleted(g1, k));
    }
    PopLinks(a, g, k, n);
    assert g1.split != NONE && g1.items == g.items;
    hide PopStack;
    DeleteKeepsShape(g1, k);
    KeepsWorking(g, k, MarkDeleted(g1, k), posn);
  }

  /** Splitting a stack in deterministic or nondeterministic operation. */
  lemma SplitWorks<V>(a: Lalr, g: Gss<V>, k: int, posn: nat, h: History)
    requires Even(a, g, posn, h) && 0 <= k < |g.tops| && StateAt(g.items, g.tops[k])
    ensures var g' := SplitStack(g, k);
            && Working(a, g', posn, h) && Extends(g, k, g') && |g'.tops| == |g.tops| + 1
            && g'.tops[|g.tops|] == g.tops[k] == g'.tops[k] && g'.items == g.items && Extends(g, -1, g')
  {
    hide LrTables.Valid, Linked, Supported, Telling, Descending, Contiguous, Fans, Spine;
    SplitKeepsShape(g, k);
    LiveRecovers(SplitStack(g, k), k);
    var g' := SplitStack(g, k);
    if !h.lost {
      SplitOwned(g, k);
    }
    forall i | 0 <= i < |g'.tops| && StateAt(g'.items, g'.tops[i]) ensures g'.items[g'.tops[i]].posn == posn {
      if i < |g.tops| {
        assert g'.tops[i] == g.tops[i];
      }
    }
  }

  lemma SplitOwned<V>(g: Gss<V>, k: int)
    requires Shape(g) && Owned(g) && 0 <= k < |g.tops| && StateAt(g.items, g.tops[k])
    ensures Owned(SplitStack(g, k))
  {
    hide Descending, Contiguous, Fans, Chained, AllOwn;
    SingleBase(g, k);
  }

  lemma SingleBase<V>(g: Gss<V>, k: int)
    requires Shape(g) && 0 <= k < |g.tops|
    ensures g.split == NONE ==> g.tops[k] == |g.items| - 1
  {
    hide Descending, Contiguous, Fans;
  }

  /** A move of the items does no harm while a stack is live. */
  lemma MovedWorks<V>(a: Lalr, g: Gss<V>, stale: bool, i: int, posn: nat, h: History)
    requires Working(a, g, posn, h) && 0 <= i < |g.tops| && g.tops[i] != NONE && Shape(g.(stale := stale))
    ensures Working(a, g.(stale := stale), posn, h)
  {
    hide LrTables.Valid, Linked, Supported, Telling, Descending, Contiguous, Fans;
    LiveRecovers(g.(stale := stale), i);
    if !h.lost {
      OwnedSame(g, g.(stale := stale));
    }
  }

  /** Noting that a stack has needed the lookahead. */
  lemma NeedWorks<V>(a: Lalr, g: Gss<V>, needs: seq<bool>, posn: nat, h: History)
    requires Even(a, g, posn, h) && |needs| == |g.needs|
    ensures Even(a, g.(needs := needs), posn, h) && Extends(g, -1, g.(needs := needs))
  {
    hide LrTables.Valid, Linked, Supported, Telling, Descending, Contiguous, Fans;
    if !h.lost {
      OwnedSame(g, g.(needs := needs));
    }
  }

  // ---------------------------------------------------------------- standard mode and recovery

  /** One live stack. */
  ghost predicate Standard<V>(a: Lalr, g: Gss<V>, h: History) {
    Sound(a, g, h) && |g.tops| == 1 && StateAt(g.items, g.tops[0])
  }

  lemma StandardPops<V>(a: Lalr, g: Gss<V>, rule: int, h: History)
    requires Standard(a, g, h) && CanReduce(a, g, 0, rule)
    ensures Length(a, rule) < |Path(g.items, g.tops[0])| && Standard(a, PopStack(g, 0, Length(a, rule)), h)
  {
    hide LrTables.Valid, Descending, Contiguous, Fans, Linked, Supported, Telling, Spine, Owned, Path;
    Reducible(a, g, 0, rule);
    var n := Length(a, rule);
    PopEffect(g, 0, n);
    PopLinks(a, g, 0, n);
    LiveRecovers(PopStack(g, 0, n), 0);
    PopSupported(a, g, 0, n);
    PopTells(a, g, 0, n, h);
    if !h.lost {
      PopOwned(g, 0, n);
      PopFilled(g, 0, n);
    }
  }

  /** Pushing a successor of the top state of a live stack. */
  lemma PushSound<V>(a: Lalr, g: Gss<V>, k: int, lr: int, posn: nat, v: V, h: History)
    requires Sound(a, g, h) && 0 <= k < |g.tops| && StateAt(g.items, g.tops[k]) && g.items[g.tops[k]].posn <= posn
    requires IsState(a, g.items[g.tops[k]].lr) && IsState(a, lr) && lr != 0 && Links(a, g.items[g.tops[k]].lr, lr)
    requires StandsFor(a, h, lr, g.items[g.tops[k]].posn, posn)
    ensures var g' := PushState(g, k, lr, posn, Resolved(v));
            && Sound(a, g', h) && StateAt(g'.items, g'.tops[k]) && g'.items[g'.tops[k]].lr == lr
            && g'.items[g'.tops[k]].posn == posn && CanPush(g, k, posn) && g'.split == g.split
            && (forall t :: StateAt(g.items, t) ==> StateAt(g'.items, t) && g'.items[t] == g.items[t])
  {
    hide LrTables.Valid, Descending, Contiguous, Fans, Linked, Supported, Telling, Links, Owned, StandsFor;
    PushKeepsShape(g, k, lr, posn, Resolved(v));
    PushLinks(a, g, k, lr, posn, Resolved(v));
    LiveRecovers(PushState(g, k, lr, posn, Resolved(v)), k);
    PushSupported(a, g, k, lr, posn, Resolved(v));
    PushTells(a, g, k, lr, posn, Resolved(v), h);
    if !h.lost {
      PushStateOwned(g, k, lr, posn, Resolved(v));
      FilledMore(g.items, State(lr, g.tops[k], posn, Resolved(v)));
    }
  }

  /** Whether compressing the stack leaves no state with a pointer to alternatives. */
  ghost predicate StackSettled<V>(g: Gss<V>, t: int)
    requires Descending(g.items) && StateAt(g.items, t)
  {
    forall x :: x in Path(g.items, t) ==> Settled(g.items, x)
  }

  /** The return to one stack without gaps. */
  lemma CompressSound<V>(a: Lalr, g: Gss<V>, h: History)
    requires Standard(a, g, h) && Descending(g.items)
    ensures var g' := Compress(g);
            var h' := h.(lost := h.lost || (g.split != NONE && !StackSettled(g, g.tops[0])));
            && Standard(a, g', h') && g'.split == NONE
            && g'.items[g'.tops[0]].lr == g.items[g.tops[0]].lr && g'.items[g'.tops[0]].posn == g.items[g.tops[0]].posn
  {
    hide LrTables.Valid, Descending, Contiguous, Fans, Linked, Supported, Spans, Content, AllOwn, Path;
    CompressKeepsStack(a, g);
    var g' := Compress(g);
    SpinesEnd(g.items, g.tops[0], g'.items, g'.tops[0]);
    SupportedSingle(a, g'.items);
    CompressTells(a, g, h);
    if g.split != NONE && !h.lost && StackSettled(g, g.tops[0]) {
      NoDanglingIff(g.items, g.tops[0]);
      ContentKeepsStack(g.items, g.tops[0]);
      AllSettled(g'.items);
      ContentFilled(g.items, g.tops[0]);
    }
  }

  lemma ContentFilled<V>(items: seq<Item<V>>, t: int)
    requires Descending(items) && StateAt(items, t) && Filled(items)
    ensures Filled(Content(items, t))
  {
    hide Descending, Content, Path, Filled;
    var c := Content(items, t);
    FilledAll(items);
    forall i | StateAt(c, i) ensures FilledAt(c, i) {
      ContentAt(items, t, i);
    }
    AllFilled(c);
  }

  lemma AllFilled<V>(items: seq<Item<V>>)
    requires forall i :: StateAt(items, i) ==> FilledAt(items, i)
    ensures Filled(items)
  {
  }

  lemma SpinesEnd<V>(items: seq<Item<V>>, t: int, now: seq<Item<V>>, t': int)
    requires Descending(items) && Descending(now) && StateAt(items, t) && StateAt(now, t') && Spine(now, t') == Spine(items, t)
    ensures now[t'].lr == items[t].lr && now[t'].posn == items[t].posn
  {
    assert Last(Spine(now, t')) == Last(Spine(items, t));
  }

  lemma AllSettled<V>(items: seq<Item<V>>)
    requires Contiguous(items, |items|) && AllOwn(items)
    ensures Chained(items) && forall i :: 0 <= i < |items| && StateAt(items, i) ==> Settled(items, i)
  {
    forall i | 0 <= i < |items| && StateAt(items, i) ensures Settled(items, i) {
      assert items[i].sem.Unresolved? ==> HeadAt(items, items[i].sem.first);
    }
  }

  lemma RemoveSound<V>(a: Lalr, g: Gss<V>, h: History)
    requires Sound(a, g, h) && (g.split == NONE ==> g.items != []) && |g.tops| <= |g.needs|
    ensures var g' := RemoveDeletes(g);
            && Sound(a, g', h) && g'.items == g.items && g'.split == g.split
            && (forall t :: t in g'.tops <==> t in g.tops && t != NONE)
  {
    hide LrTables.Valid, Descending, Contiguous, Fans, Linked, Supported, Telling, LiveEntries;
    RemoveKeepsShape(g);
    var g' := RemoveDeletes(g);
    if !AllDead(g) {
      var k :| 0 <= k < |g.tops| && g.tops[k] != NONE;
      assert g.tops[k] in g'.tops;
      var j :| 0 <= j < |g'.tops| && g'.tops[j] == g.tops[k];
      LiveRecovers(g', j);
    }
    if !h.lost {
      OwnedSame(g, g');
    }
  }

  /** The pointer that is restored when all stacks have died is not a stale one. */
  lemma UndeleteSound<V>(a: Lalr, g: Gss<V>, h: History)
    requires Sound(a, g, h) && g.split != NONE && g.tops == []
    ensures !g.stale && Standard(a, Undelete(g), h) && Undelete(g).items == g.items
  {
    hide LrTables.Valid, Descending, Contiguous, Fans, Linked, Supported, Telling;
    UndeleteKeepsShape(g);
    LiveRecovers(Undelete(g), 0);
    if !h.lost {
      OwnedSame(g, Undelete(g));
    }
  }

  /** The stacks after the first live one are given up. */
  lemma DeleteSound<V>(a: Lalr, g: Gss<V>, k: int, i: int, h: History)
    requires Sound(a, g, h) && g.split != NONE && 0 <= k < |g.tops| && 0 <= i < |g.tops| && i != k && g.tops[i] != NONE
    ensures Sound(a, MarkDeleted(g, k), h)
  {
    hide LrTables.Valid, Descending, Contiguous, Fans, Linked, Supported, Telling;
    DeleteKeepsShape(g, k);
    LiveRecovers(MarkDeleted(g, k), i);
    if !h.lost {
      OwnedSame(g, MarkDeleted(g, k));
    }
  }

  /** Popping a single stack to a state that shifts the error token. */
  lemma ErrorPopSound<V>(a: Lalr, g: Gss<V>, n: nat, h: History)
    requires Standard(a, g, h) && g.split == NONE && 0 < n <= |g.items|
    ensures Standard(a, g.(items := g.items[..n], tops := [n - 1]), h) && g.items[n - 1].State?
  {
    hide LrTables.Valid, Linked, Supported, Telling, Owned, Descending, Fans;
    PrefixShape(g.items, n);
    PrefixLinks(a, g.items, n);
    PrefixSupported(a, g.items, n);
    PrefixTells(a, g.items, n, h);
    if !h.lost {
      PrefixOwned(g, |g.items| - n);
      FilledPrefix(g.items, n);
    }
  }
}
