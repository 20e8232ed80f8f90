/** Chains of deferred reductions: the in-place merge of two chains that may share a tail. */
module GlrOptions {
  import opened Collections
  import opened GlrShape

  ghost predicate ChoiceAt<V>(items: seq<Item<V>>, i: int) {
    0 <= i < |items| && items[i].Choice?
  }

  /** A chain head: null, or a choice. */
  ghost predicate HeadAt<V>(items: seq<Item<V>>, z: int) {
    z == NONE || ChoiceAt(items, z)
  }

  /** Choices are chained in decreasing order. */
  ghost predicate Chained<V>(items: seq<Item<V>>) {
    forall i :: ChoiceAt(items, i) ==> NextBelow(items, i)
  }

  ghost predicate NextBelow<V>(items: seq<Item<V>>, i: int)
    requires ChoiceAt(items, i)
  {
    items[i].next == NONE || (0 <= items[i].next < i && items[items[i].next].Choice?)
  }

  /** The choices of the chain that starts at z. */
  ghost function Chain<V>(items: seq<Item<V>>, z: int): (c: seq<int>)
    requires Chained(items) && HeadAt(items, z)
    ensures z == NONE <==> c == []
    ensures z != NONE ==> c[0] == z
    decreases z + 1
  {
    if z == NONE then []
    else
      assert NextBelow(items, z);
      [z] + Chain(items, items[z].next)
  }

  ghost predicate Decreasing(c: seq<int>) {
    forall i, j :: 0 <= i < j < |c| ==> c[i] > c[j]
  }

  lemma {:induction false} ChainDecreases<V>(items: seq<Item<V>>, z: int)
    requires Chained(items) && HeadAt(items, z)
    ensures Decreasing(Chain(items, z)) && forall x :: x in Chain(items, z) ==> 0 <= x <= z && ChoiceAt(items, x)
    decreases z + 1
  {
    if z != NONE {
      assert NextBelow(items, z);
      ChainDecreases(items, items[z].next);
      DecreasingCons(z, Chain(items, items[z].next));
    }
  }

  lemma DecreasingCons(x: int, c: seq<int>)
    requires Decreasing(c) && forall y :: y in c ==> y < x
    ensures Decreasing([x] + c)
  {
    assert forall j :: 0 < j < |[x] + c| ==> ([x] + c)[j] == c[j - 1] && c[j - 1] in c;
  }

  /** A chain is read off the choices up to its head. */
  lemma {:induction false} ChainFrame<V>(items: seq<Item<V>>, items': seq<Item<V>>, z: int)
    requires Chained(items) && Chained(items') && HeadAt(items, z) && |items'| == |items|
    requires forall i :: ChoiceAt(items, i) && i <= z ==> items'[i] == items[i]
    ensures HeadAt(items', z) && Chain(items', z) == Chain(items, z)
    decreases z + 1
  {
    if z != NONE {
      assert NextBelow(items, z);
      ChainFrame(items, items', items[z].next);
    }
  }

  // ---------------------------------------------------------------- the sorted union

  /** The union of two decreasing chains, decreasing. */
  function Union(a: seq<int>, b: seq<int>): seq<int>
    decreases |a| + |b|
  {
    if a == [] then b
    else if b == [] then a
    else if a[0] == b[0] then [a[0]] + Union(a[1..], b[1..])
    else if a[0] < b[0] then [b[0]] + Union(a, b[1..])
    else [a[0]] + Union(a[1..], b)
  }

  lemma {:induction false} UnionMembers(a: seq<int>, b: seq<int>, x: int)
    ensures x in Union(a, b) <==> x in a || x in b
    decreases |a| + |b|
  {
    if a != [] && b != [] {
      Cons(a);
      Cons(b);
      if a[0] == b[0] {
        UnionMembers(a[1..], b[1..], x);
      } else if a[0] < b[0] {
        UnionMembers(a, b[1..], x);
      } else {
        UnionMembers(a[1..], b, x);
      }
    }
  }

  lemma DecreasingTail(a: seq<int>)
    requires Decreasing(a) && a != []
    ensures Decreasing(a[1..]) && forall y :: y in a[1..] ==> y < a[0]
  {
  }

  /** The union is decreasing, so it has every element once. */
  lemma {:induction false} UnionDecreases(a: seq<int>, b: seq<int>)
    requires Decreasing(a) && Decreasing(b)
    ensures Decreasing(Union(a, b))
    decreases |a| + |b|
  {
    if a != [] && b != [] {
      hide Decreasing;
      DecreasingTail(a);
      DecreasingTail(b);
      var x, rest := if a[0] < b[0] then b[0] else a[0],
                     if a[0] == b[0] then Union(a[1..], b[1..]) else if a[0] < b[0] then Union(a, b[1..]) else Union(a[1..], b);
      if a[0] == b[0] {
        UnionDecreases(a[1..], b[1..]);
      } else if a[0] < b[0] {
        UnionDecreases(a, b[1..]);
      } else {
        UnionDecreases(a[1..], b);
      }
      forall y | y in rest ensures y < x {
        UnionBelow(a, b, y);
      }
      DecreasingCons(x, rest);
    }
  }

  lemma UnionBelow(a: seq<int>, b: seq<int>, y: int)
    requires a != [] && b != []
    requires (forall z :: z in a[1..] ==> z < a[0]) && (forall z :: z in b[1..] ==> z < b[0])
    ensures a[0] == b[0] && y in Union(a[1..], b[1..]) ==> y < a[0]
    ensures a[0] < b[0] && y in Union(a, b[1..]) ==> y < b[0]
    ensures a[0] > b[0] && y in Union(a[1..], b) ==> y < a[0]
  {
    Cons(a);
    Cons(b);
    UnionMembers(a[1..], b[1..], y);
    UnionMembers(a, b[1..], y);
    UnionMembers(a[1..], b, y);
  }

  lemma {:induction false} UnionSame(a: seq<int>)
    ensures Union(a, a) == a && Union(a, []) == a && Union([], a) == a
  {
    if a != [] {
      UnionSame(a[1..]);
    }
  }

  // ---------------------------------------------------------------- merging in place

  ghost predicate OwnsChain<V>(items: seq<Item<V>>, s: int) {
    StateAt(items, s) && items[s].sem.Unresolved? && HeadAt(items, items[s].sem.first)
  }

  /** The chain of state s begins with `done`, after which the cell that yyz0p points to holds `cur`. */
  ghost predicate Strung<V>(items: seq<Item<V>>, s: int, done: seq<int>, cur: int) {
    && OwnsChain(items, s) && (forall i :: 0 <= i < |done| ==> ChoiceAt(items, done[i]))
    && items[s].sem.first == (if done == [] then cur else done[0])
    && (forall i :: 0 <= i < |done| - 1 ==> items[done[i]].next == done[i + 1])
    && (done != [] ==> items[Last(done)].next == cur)
  }

  lemma {:induction false} StrungSuffix<V>(items: seq<Item<V>>, s: int, done: seq<int>, cur: int, i: nat)
    requires Chained(items) && Strung(items, s, done, cur) && HeadAt(items, cur) && i <= |done|
    ensures var z := if i < |done| then done[i] else cur;
            HeadAt(items, z) && Chain(items, z) == done[i..] + Chain(items, cur)
    decreases |done| - i
  {
    if i < |done| {
      assert ChoiceAt(items, done[i]) && NextBelow(items, done[i]);
      StrungSuffix(items, s, done, cur, i + 1);
      assert done[i..] == [done[i]] + done[i + 1..];
      if i == |done| - 1 {
        assert Last(done) == done[i];
      } else {
        assert items[done[i]].next == done[i + 1];
      }
      Assoc([done[i]], done[i + 1..], Chain(items, cur));
    } else {
      EmptyConcat(Chain(items, cur));
    }
  }

  lemma StrungChain<V>(items: seq<Item<V>>, s: int, done: seq<int>, cur: int)
    requires Chained(items) && Strung(items, s, done, cur) && HeadAt(items, cur)
    ensures Chain(items, items[s].sem.first) == done + Chain(items, cur)
  {
    StrungSuffix(items, s, done, cur, 0);
    assert done[0..] == done;
  }

  /** Where the merge stands: `done` is in place, what is left to merge is below it. */
  ghost predicate Merging<V>(items: seq<Item<V>>, s: int, done: seq<int>, cur: int, z1: int, goal: seq<int>) {
    && Chained(items) && Strung(items, s, done, cur) && HeadAt(items, cur) && HeadAt(items, z1)
    && (forall i :: 0 <= i < |done| ==> done[i] > cur && done[i] > z1)
    && goal == done + Union(Chain(items, cur), Chain(items, z1))
  }

  /** The cell that yyz0p points to. */
  function CellOf(done: seq<int>): int {
    if done == [] then NONE else Last(done)
  }

  /** The array after a store through yyz0p. */
  ghost function Store<V>(items: seq<Item<V>>, s: int, cell: int, z: int): seq<Item<V>>
    requires if cell == NONE then StateAt(items, s) else ChoiceAt(items, cell)
  {
    if cell == NONE then items[s := items[s].(sem := Unresolved(z))] else items[cell := items[cell].(next := z)]
  }

  lemma Advance<V>(items: seq<Item<V>>, s: int, done: seq<int>, cur: int, z1: int, goal: seq<int>)
    requires Merging(items, s, done, cur, z1, goal) && cur > z1 && z1 != NONE
    ensures ChoiceAt(items, cur) && items[cur].next < cur && Merging(items, s, done + [cur], items[cur].next, z1, goal)
  {
    assert NextBelow(items, cur);
    ChainStep(items, cur);
    ChainStep(items, z1);
    Assoc(done, [cur], Union(Chain(items, items[cur].next), Chain(items, z1)));
  }

  lemma ChainStep<V>(items: seq<Item<V>>, z: int)
    requires Chained(items) && ChoiceAt(items, z)
    ensures NextBelow(items, z) && Chain(items, z) == [z] + Chain(items, items[z].next)
    ensures Chain(items, z)[0] == z && Chain(items, z)[1..] == Chain(items, items[z].next)
  {
    assert NextBelow(items, z);
  }

  /** A store through yyz0p to a lower choice keeps all chains legal, and those below it the same. */
  lemma StoreFrame<V>(items: seq<Item<V>>, s: int, done: seq<int>, cur: int, z: int)
    requires Chained(items) && Strung(items, s, done, cur) && HeadAt(items, z)
    requires forall i :: 0 <= i < |done| ==> done[i] > z
    ensures var items' := Store(items, s, CellOf(done), z);
            && |items'| == |items| && Chained(items') && Strung(items', s, done, z)
            && (forall i :: ChoiceAt(items, i) <==> ChoiceAt(items', i))
            && (forall i :: ChoiceAt(items, i) && i != CellOf(done) ==> items'[i] == items[i])
  {
    var cell, items' := CellOf(done), Store(items, s, CellOf(done), z);
    forall i | ChoiceAt(items', i) ensures NextBelow(items', i) {
      assert ChoiceAt(items, i) && NextBelow(items, i);
    }
    forall i | 0 <= i < |done| - 1 ensures items'[done[i]].next == done[i + 1] {
      if done[i] == cell {
        NoRepeat(items, s, done, cur, i);
      }
    }
  }

  lemma {:induction false} StrungDescends<V>(items: seq<Item<V>>, s: int, done: seq<int>, cur: int, i: nat, j: nat)
    requires Chained(items) && Strung(items, s, done, cur) && i < j < |done|
    ensures done[i] > done[j]
    decreases j
  {
    assert ChoiceAt(items, done[j - 1]) && NextBelow(items, done[j - 1]);
    if i < j - 1 {
      StrungDescends(items, s, done, cur, i, j - 1);
    }
  }

  lemma NoRepeat<V>(items: seq<Item<V>>, s: int, done: seq<int>, cur: int, i: nat)
    requires Chained(items) && Strung(items, s, done, cur) && i < |done| - 1
    ensures done[i] != Last(done)
  {
    StrungDescends(items, s, done, cur, i, |done| - 1);
  }

  /** The array after a choice of the second chain is put in front of the rest of the first. */
  ghost function Inserted<V>(items: seq<Item<V>>, s: int, cell: int, z1: int, cur: int): seq<Item<V>>
    requires (if cell == NONE then StateAt(items, s) else ChoiceAt(items, cell)) && ChoiceAt(items, z1)
  {
    var items' := Store(items, s, cell, z1);
    items'[z1 := items'[z1].(next := cur)]
  }

  lemma Insert<V>(items: seq<Item<V>>, s: int, done: seq<int>, cur: int, z1: int, goal: seq<int>)
    requires Merging(items, s, done, cur, z1, goal) && cur < z1 && cur != NONE
    ensures ChoiceAt(items, z1) && items[z1].next < z1
    ensures Merging(Inserted(items, s, CellOf(done), z1, cur), s, done + [z1], cur, items[z1].next, goal)
  {
    var next := items[z1].next;
    var items1 := Store(items, s, CellOf(done), z1);
    var items2 := Inserted(items, s, CellOf(done), z1, cur);
    ChainStep(items, z1);
    ChainStep(items, cur);
    StoreFrame(items, s, done, cur, z1);
    InsertString(items1, s, done, z1, cur);
    assert forall i :: ChoiceAt(items, i) && i < z1 ==> items2[i] == items[i];
    ChainFrame(items, items2, cur);
    ChainFrame(items, items2, next);
    Assoc(done, [z1], Union(Chain(items, cur), Chain(items, next)));
  }

  lemma InsertString<V>(items: seq<Item<V>>, s: int, done: seq<int>, z1: int, cur: int)
    requires Chained(items) && Strung(items, s, done, z1) && ChoiceAt(items, z1) && HeadAt(items, cur) && cur < z1
    requires forall i :: 0 <= i < |done| ==> done[i] > z1
    ensures var items' := items[z1 := items[z1].(next := cur)];
            Chained(items') && Strung(items', s, done + [z1], cur)
  {
    var items', more := items[z1 := items[z1].(next := cur)], done + [z1];
    forall i | ChoiceAt(items', i) ensures NextBelow(items', i) {
      assert ChoiceAt(items, i) && NextBelow(items, i);
    }
    forall i | 0 <= i < |more| - 1 ensures items'[more[i]].next == more[i + 1] {
      assert more[i] == done[i] > z1;
    }
  }

  /** The rest of the second chain is appended. */
  lemma Append<V>(items: seq<Item<V>>, s: int, done: seq<int>, z1: int, goal: seq<int>)
    requires Merging(items, s, done, NONE, z1, goal) && z1 != NONE
    ensures var items' := Store(items, s, CellOf(done), z1);
            && Chained(items') && OwnsChain(items', s) && Chain(items', items'[s].sem.first) == goal
  {
    StoreFrame(items, s, done, NONE, z1);
    var items' := Store(items, s, CellOf(done), z1);
    ChainFrame(items, items', z1);
    StrungChain(items', s, done, z1);
  }

  /** Both chains have come to the same choice, or the second one has ended. */
  lemma Finish<V>(items: seq<Item<V>>, s: int, done: seq<int>, cur: int, z1: int, goal: seq<int>)
    requires Merging(items, s, done, cur, z1, goal) && (z1 == cur || z1 == NONE)
    ensures Chain(items, items[s].sem.first) == goal
  {
    StrungChain(items, s, done, cur);
    UnionSame(Chain(items, cur));
  }

  /** A set of choices that no chain leaves. */
  ghost predicate Closed<V>(items: seq<Item<V>>, u: set<int>) {
    forall i :: i in u ==> ChoiceAt(items, i) && In(u, items[i].next)
  }

  predicate In(u: set<int>, z: int) {
    z == NONE || z in u
  }

  /** Only choices in u and the state s are different. */
  ghost predicate OnlyIn<V>(before: seq<Item<V>>, now: seq<Item<V>>, u: set<int>, s: int) {
    |now| == |before| && forall i :: 0 <= i < |before| && i !in u && i != s ==> now[i] == before[i]
  }

  /** The merge has stayed inside u. */
  ghost predicate Inside<V>(before: seq<Item<V>>, now: seq<Item<V>>, u: set<int>, s: int, cell: int, cur: int, z1: int) {
    && Closed(now, u) && In(u, cell) && In(u, cur) && In(u, z1) && OnlyIn(before, now, u, s)
    && StateAt(now, s) && now[s].sem.Unresolved? && In(u, now[s].sem.first)
  }

  lemma AdvanceInside<V>(before: seq<Item<V>>, now: seq<Item<V>>, u: set<int>, s: int, cell: int, cur: int, z1: int)
    requires Inside(before, now, u, s, cell, cur, z1) && cur != NONE
    ensures ChoiceAt(now, cur) && Inside(before, now, u, s, cur, now[cur].next, z1)
  {
  }

  lemma StoreInside<V>(before: seq<Item<V>>, now: seq<Item<V>>, u: set<int>, s: int, cell: int, cur: int, z1: int)
    requires Inside(before, now, u, s, cell, cur, z1) && z1 != NONE
    requires if cell == NONE then StateAt(now, s) else ChoiceAt(now, cell)
    ensures ChoiceAt(now, z1) && Inside(before, Store(now, s, cell, z1), u, s, cell, cur, z1)
    ensures Inside(before, Inserted(now, s, cell, z1, cur), u, s, z1, cur, now[z1].next)
  {
    var now1 := Store(now, s, cell, z1);
    var now2 := Inserted(now, s, cell, z1, cur);
    forall i | i in u ensures ChoiceAt(now1, i) && In(u, now1[i].next) && ChoiceAt(now2, i) && In(u, now2[i].next) {
      assert ChoiceAt(now, i) && In(u, now[i].next);
    }
  }

  /** The inner loop of yymergeOptionSets: the options of state s1 are merged into the chain of s0. Of
      the choices, only those of a set that both chains are in are touched. */
  method MergeChains<V>(a: array<Item<V>>, used: nat, s0: nat, s1: nat, ghost u: set<int>)
    requires used <= a.Length
    requires Chained(a[..used]) && OwnsChain(a[..used], s0) && OwnsChain(a[..used], s1) && s0 != s1
    requires Closed(a[..used], u) && In(u, a[s0].sem.first) && In(u, a[s1].sem.first)
    modifies a
    ensures SameButLinks(old(a[..used]), a[..used], s0) && Chained(a[..used]) && OwnsChain(a[..used], s0)
    ensures Closed(a[..used], u) && In(u, a[s0].sem.first) && OnlyIn(old(a[..used]), a[..used], u, s0)
    ensures Chain(a[..used], a[s0].sem.first)
         == old(Union(Chain(a[..used], a[s0].sem.first), Chain(a[..used], a[s1].sem.first)))
  {
    hide Chained, Strung, Merging, Union, Chain, NextBelow, Closed, OnlyIn;
    ghost var goal := Union(Chain(a[..used], a[s0].sem.first), Chain(a[..used], a[s1].sem.first));
    ghost var done: seq<int> := [];
    var z0p, yyz1 := NONE, a[s1].sem.first;
    StartMerge(a[..used], s0, a[s0].sem.first, yyz1, u);
    ghost var cur := a[s0].sem.first;
    while true
      invariant z0p == CellOf(done) && Merging(a[..used], s0, done, cur, yyz1, goal)
      invariant SameButLinks(old(a[..used]), a[..used], s0) && Inside(old(a[..used]), a[..used], u, s0, z0p, cur, yyz1)
      decreases cur + yyz1 + 2
    {
      CellFacts(a[..used], s0, done, cur, yyz1, goal);
      var content := if z0p == NONE then a[s0].sem.first else a[z0p].next;
      if yyz1 == content || yyz1 == NONE {
        Finish(a[..used], s0, done, cur, yyz1, goal);
        return;
      }
      StoreInside(old(a[..used]), a[..used], u, s0, z0p, cur, yyz1);
      if content == NONE {
        Append(a[..used], s0, done, yyz1, goal);
        StoreCell(a, used, s0, z0p, yyz1);
        return;
      }
      if content < yyz1 {
        Insert(a[..used], s0, done, cur, yyz1, goal);
        StoreCell(a, used, s0, z0p, yyz1);
        var next := a[yyz1].next;
        a[yyz1] := a[yyz1].(next := content);
        z0p := yyz1;
        done := done + [yyz1];
        yyz1 := next;
      } else {
        Advance(a[..used], s0, done, cur, yyz1, goal);
        AdvanceInside(old(a[..used]), a[..used], u, s0, z0p, cur, yyz1);
        z0p := content;
        done := done + [content];
        cur := a[content].next;
      }
    }
  }

  method StoreCell<V>(a: array<Item<V>>, used: nat, s: nat, cell: int, z: int)
    requires used <= a.Length
    requires if cell == NONE then StateAt(a[..used], s) else ChoiceAt(a[..used], cell)
    modifies a
    ensures a[..used] == Store(old(a[..used]), s, cell, z)
  {
    if cell == NONE {
      a[s] := a[s].(sem := Unresolved(z));
    } else {
      a[cell] := a[cell].(next := z);
    }
  }

  /** Nothing but links between choices, and the head of state s, is different. */
  ghost predicate SameButLinks<V>(before: seq<Item<V>>, now: seq<Item<V>>, s: int) {
    && |now| == |before|
    && forall i :: 0 <= i < |before| ==>
         if before[i].Choice? then now[i].Choice? && now[i] == before[i].(next := now[i].next)
         else if i == s then now[i].State? && now[i] == before[i].(sem := now[i].sem)
         else now[i] == before[i]
  }

  lemma StartMerge<V>(items: seq<Item<V>>, s: int, cur: int, z1: int, u: set<int>)
    requires Chained(items) && OwnsChain(items, s) && cur == items[s].sem.first && HeadAt(items, z1)
    ensures Merging(items, s, [], cur, z1, Union(Chain(items, cur), Chain(items, z1)))
    ensures SameButLinks(items, items, s) && OnlyIn(items, items, u, s)
  {
    EmptyConcat(Union(Chain(items, cur), Chain(items, z1)));
  }

  /** What the cell that yyz0p points to holds. */
  lemma CellFacts<V>(items: seq<Item<V>>, s: int, done: seq<int>, cur: int, z1: int, goal: seq<int>)
    requires Merging(items, s, done, cur, z1, goal)
    ensures Chained(items) && OwnsChain(items, s) && StateAt(items, s) && HeadAt(items, cur) && HeadAt(items, z1)
    ensures CellOf(done) == NONE <==> done == []
    ensures done != [] ==> ChoiceAt(items, CellOf(done)) && items[CellOf(done)].next == cur && CellOf(done) != z1
    ensures done == [] ==> items[s].sem.Unresolved? && items[s].sem.first == cur
  {
    assert done != [] ==> ChoiceAt(items, done[|done| - 1]);
  }

  // ---------------------------------------------------------------- whole right-hand sides

  /** Every deferred state has a chain. */
  ghost predicate AllOwn<V>(items: seq<Item<V>>) {
    forall i :: StateAt(items, i) && items[i].sem.Unresolved? ==> HeadAt(items, items[i].sem.first)
  }

  /** Links and semantics may differ, the rest is the same. */
  ghost predicate SameFrame<V>(before: seq<Item<V>>, now: seq<Item<V>>) {
    && |now| == |before|
    && forall i :: 0 <= i < |before| ==>
         if before[i].Choice? then now[i].Choice? && now[i] == before[i].(next := now[i].next)
         else now[i].State? && now[i] == before[i].(sem := now[i].sem)
  }

  /** What options may be merged: chains are legal, and u holds those of the states at hand. */
  ghost predicate Mergeable<V>(items: seq<Item<V>>, u: set<int>, states: set<int>) {
    && Chained(items) && AllOwn(items) && Closed(items, u)
    && forall i :: i in states ==> StateAt(items, i) && (items[i].sem.Unresolved? ==> In(u, items[i].sem.first))
  }

  /** Only the given states and choices in u are different. */
  ghost predicate Changes<V>(before: seq<Item<V>>, now: seq<Item<V>>, u: set<int>, states: set<int>) {
    SameFrame(before, now) && forall i :: 0 <= i < |before| && i !in u && i !in states ==> now[i] == before[i]
  }

  /** Every state has its value, or alternatives. */
  ghost predicate Filled<V>(items: seq<Item<V>>) {
    forall i :: StateAt(items, i) ==> FilledAt(items, i)
  }

  ghost predicate FilledAt<V>(items: seq<Item<V>>, i: int)
    requires StateAt(items, i)
  {
    items[i].sem.Unresolved? ==> items[i].sem.first != NONE
  }

  /** States with a value keep one. */
  ghost predicate KeepsValues<V>(items: seq<Item<V>>, now: seq<Item<V>>) {
    |now| == |items| && forall i :: StateAt(items, i) && StateAt(now, i) && items[i].sem.Resolved? ==> now[i].sem.Resolved?
  }

  /** No state loses its value, and none is left without value and alternatives. */
  ghost predicate LosesNothing<V>(items: seq<Item<V>>, now: seq<Item<V>>) {
    KeepsValues(items, now) && (Filled(items) ==> Filled(now))
  }

  lemma LosesNothingTwice<V>(items: seq<Item<V>>, before: seq<Item<V>>, now: seq<Item<V>>)
    requires SameFrame(items, before) && LosesNothing(items, before) && LosesNothing(before, now)
    ensures LosesNothing(items, now)
  {
    hide Filled;
  }

  /** The semantics two states are left with. */
  ghost predicate Joined<V>(before: seq<Item<V>>, now: seq<Item<V>>, s0: int, s1: int)
    requires Chained(before) && Chained(now) && AllOwn(before) && AllOwn(now)
    requires StateAt(before, s0) && StateAt(before, s1) && StateAt(now, s0) && StateAt(now, s1)
  {
    && now[s0].sem == now[s1].sem
    && if before[s0].sem.Resolved? then now[s0].sem == before[s0].sem
       else if before[s1].sem.Resolved? then now[s0].sem == before[s1].sem
       else now[s0].sem.Unresolved? &&
            Chain(now, now[s0].sem.first)
            == Union(Chain(before, before[s0].sem.first), Chain(before, before[s1].sem.first))
  }

  /** The body of the outer loop of yymergeOptionSets: both states get the value of one of them, or
      the same chain, with the options of both. */
  method JoinStates<V>(a: array<Item<V>>, used: nat, s0: nat, s1: nat, ghost u: set<int>, ghost states: set<int>)
    requires used <= a.Length
    requires Mergeable(a[..used], u, states) && s0 in states && s1 in states && s0 != s1
    modifies a
    ensures Mergeable(a[..used], u, states) && Changes(old(a[..used]), a[..used], u, {s0, s1}) && Joined(old(a[..used]), a[..used], s0, s1)
  {
    ghost var before := a[..used];
    if a[s0].sem.Resolved? {
      a[s1] := a[s1].(sem := a[s0].sem);
      SetSem(before, s1, before[s0].sem, u, states);
    } else if a[s1].sem.Resolved? {
      a[s0] := a[s0].(sem := a[s1].sem);
      SetSem(before, s0, before[s1].sem, u, states);
    } else {
      MergeChains(a, used, s0, s1, u);
      ghost var merged := a[..used];
      MergedOwn(before, merged, s0, u, states);
      SetSem(merged, s1, merged[s0].sem, u, states);
      a[s1] := a[s1].(sem := a[s0].sem);
      ChainFrame(merged, a[..used], merged[s0].sem.first);
    }
  }

  /** No value and no alternative is lost by it. */
  method MergeStates<V>(a: array<Item<V>>, used: nat, s0: nat, s1: nat, ghost u: set<int>, ghost states: set<int>)
    requires used <= a.Length
    requires Mergeable(a[..used], u, states) && s0 in states && s1 in states && s0 != s1
    modifies a
    ensures Mergeable(a[..used], u, states) && Changes(old(a[..used]), a[..used], u, {s0, s1}) && Joined(old(a[..used]), a[..used], s0, s1)
    ensures LosesNothing(old(a[..used]), a[..used])
  {
    hide Changes, Joined, LosesNothing, Closed;
    ghost var before := a[..used];
    JoinStates(a, used, s0, s1, u, states);
    JoinedLosesNothing(before, a[..used], s0, s1, u, states);
  }

  lemma JoinedLosesNothing<V>(before: seq<Item<V>>, now: seq<Item<V>>, s0: int, s1: int, u: set<int>, states: set<int>)
    requires Mergeable(before, u, states) && Mergeable(now, u, states) && s0 in states && s1 in states
    requires Changes(before, now, u, {s0, s1}) && Joined(before, now, s0, s1)
    ensures LosesNothing(before, now)
  {
    hide Chained, AllOwn;
    forall i | StateAt(now, i)
      ensures before[i].sem.Resolved? ==> now[i].sem.Resolved?
      ensures Filled(before) ==> FilledAt(now, i)
    {
      assert StateAt(before, i);
      if Filled(before) {
        assert FilledAt(before, i) && FilledAt(before, s0) && FilledAt(before, s1);
      }
      if i != s0 && i != s1 {
        assert i !in u by { OnlyChoices(before, u, i); }
      }
    }
  }

  lemma OnlyChoices<V>(items: seq<Item<V>>, u: set<int>, i: int)
    requires Closed(items, u) && StateAt(items, i)
    ensures i !in u
  {
  }

  /** A state takes over a value, or a chain inside u. */
  lemma SetSem<V>(items: seq<Item<V>>, s: int, sem: Semantics<V>, u: set<int>, states: set<int>)
    requires Mergeable(items, u, states) && s in states
    requires sem.Unresolved? ==> In(u, sem.first)
    ensures Mergeable(items[s := items[s].(sem := sem)], u, states)
  {
    var now := items[s := items[s].(sem := sem)];
    forall i | ChoiceAt(now, i) ensures NextBelow(now, i) {
      assert ChoiceAt(items, i) && NextBelow(items, i);
    }
    forall i | i in u ensures ChoiceAt(now, i) && In(u, now[i].next) {
      assert ChoiceAt(items, i) && In(u, items[i].next);
    }
    forall i | StateAt(now, i) && now[i].sem.Unresolved? ensures HeadAt(now, now[i].sem.first) {
      if i != s {
        assert StateAt(items, i) && HeadAt(items, items[i].sem.first);
      }
    }
    forall i | i in states ensures StateAt(now, i) && (now[i].sem.Unresolved? ==> In(u, now[i].sem.first)) {
      assert StateAt(items, i);
    }
  }

  lemma MergedOwn<V>(before: seq<Item<V>>, now: seq<Item<V>>, s: int, u: set<int>, states: set<int>)
    requires Mergeable(before, u, states) && s in states && Chained(now) && OwnsChain(now, s)
    requires SameButLinks(before, now, s) && Closed(now, u) && In(u, now[s].sem.first) && OnlyIn(before, now, u, s)
    ensures Mergeable(now, u, states) && Changes(before, now, u, {s})
  {
    forall i | StateAt(now, i) && now[i].sem.Unresolved? ensures HeadAt(now, now[i].sem.first) {
      if i != s {
        assert StateAt(before, i) && HeadAt(before, before[i].sem.first);
      }
    }
  }
}
