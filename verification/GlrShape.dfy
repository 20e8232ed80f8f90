/** The graph-structured stack of the GLR parser: states and deferred reductions in one array, where
    every stack is a chain of predecessors, and the shape that all operations keep. */
module GlrShape {
  import opened Collections
  import LrTables
  import opened LrAutomaton

  /** The null pointer; other pointers are indices into the items. */
  const NONE := -1

  /** A resolved semantic value, or the first of a chain of deferred reductions. */
  datatype Semantics<+V> = Resolved(value: V) | Unresolved(first: int)

  /** yyGLRStackItem: a state, or a semantic option with the last state of its right-hand side. */
  datatype Item<+V> =
    | State(lr: int, pred: int, posn: nat, sem: Semantics<V>)
    | Choice(rule: int, rhs: int, next: int, raw: Option<V>)

  /** The used items, the split point and the tops of the stacks, with a buffer of flags for them that
      may be longer than the list of stacks. `stale` is history: since the last
      deletion of a stack the items were moved, and lastDeleted was not. */
  datatype Gss<+V> = Gss(items: seq<Item<V>>, split: int, tops: seq<int>, needs: seq<bool>, lastDeleted: int, stale: bool)

  ghost predicate StateAt<V>(items: seq<Item<V>>, i: int) {
    0 <= i < |items| && items[i].State?
  }

  /** The n items at the bottom are states, each on top of the one before. */
  ghost predicate Contiguous<V>(items: seq<Item<V>>, n: int) {
    n <= |items| && forall i :: 0 <= i < n ==> items[i].State? && items[i].pred == i - 1
  }

  /** Every state is above its predecessor, and only the first has none. */
  ghost predicate Descending<V>(items: seq<Item<V>>) {
    forall i :: StateAt(items, i) ==> Stands(items, i)
  }

  ghost predicate Stands<V>(items: seq<Item<V>>, i: int)
    requires StateAt(items, i)
  {
    if i == 0 then items[i].pred == NONE else Below(items, i)
  }

  ghost predicate Below<V>(items: seq<Item<V>>, i: int)
    requires StateAt(items, i)
  {
    var p := items[i].pred;
    0 <= p < i && items[p].State? && items[p].posn <= items[i].posn
  }

  /** States above the split point have their predecessors there or above. */
  ghost predicate Fans<V>(items: seq<Item<V>>, split: int) {
    forall i :: StateAt(items, i) && i > split ==> items[i].pred >= split
  }

  /** A live top: not below the split point. */
  ghost predicate IsTop<V>(items: seq<Item<V>>, split: int, t: int) {
    StateAt(items, t) && t >= split
  }

  /** With no split point there is one stack without gaps. Otherwise everything at or below the split
      point is one stretch, on which all stacks stand. */
  ghost predicate Shape<V>(g: Gss<V>) {
    && Descending(g.items) && |g.tops| <= |g.needs| && g.needs != []
    && if g.split == NONE then
         g.tops == [|g.items| - 1] && Contiguous(g.items, |g.items|) && g.lastDeleted == NONE
       else
         && StateAt(g.items, g.split) && Contiguous(g.items, g.split + 1) && Fans(g.items, g.split)
         && (forall k :: 0 <= k < |g.tops| ==> g.tops[k] == NONE || IsTop(g.items, g.split, g.tops[k]))
         && (g.stale || g.lastDeleted == NONE || IsTop(g.items, g.split, g.lastDeleted))
  }

  // ---------------------------------------------------------------- stacks

  /** The states of the stack with top t, from the bottom. */
  ghost function Path<V>(items: seq<Item<V>>, t: int): (p: seq<int>)
    requires Descending(items) && StateAt(items, t)
    ensures p != [] && Last(p) == t
    decreases t
  {
    if t == 0 then [0]
    else
      assert Below(items, t);
      Path(items, items[t].pred) + [t]
  }

  /** n steps down from t. */
  ghost function Back<V>(items: seq<Item<V>>, t: int, n: nat): (s: int)
    requires Descending(items) && StateAt(items, t) && n < |Path(items, t)|
    ensures StateAt(items, s)
    decreases n
  {
    if n == 0 then t
    else
      assert Below(items, t);
      Back(items, items[t].pred, n - 1)
  }

  lemma {:induction false} BackPath<V>(items: seq<Item<V>>, t: int, n: nat)
    requires Descending(items) && StateAt(items, t) && n < |Path(items, t)|
    ensures Path(items, Back(items, t, n)) == Path(items, t)[..|Path(items, t)| - n]
    ensures items[Back(items, t, n)].posn <= items[t].posn && Back(items, t, n) <= t
    decreases n
  {
    if n > 0 {
      assert Below(items, t);
      BackPath(items, items[t].pred, n - 1);
      var below := Path(items, items[t].pred);
      assert Path(items, t) == below + [t];
      assert (below + [t])[..|below| + 1 - n] == below[..|below| - (n - 1)];
    }
  }

  /** New items and changes of semantics leave all stacks as they are. */
  ghost predicate SameChains<V>(items: seq<Item<V>>, more: seq<Item<V>>) {
    && |items| <= |more|
    && forall i :: 0 <= i < |items| ==>
         (items[i].State? <==> more[i].State?)
         && (items[i].State? ==> more[i].lr == items[i].lr && more[i].pred == items[i].pred && more[i].posn == items[i].posn)
  }

  lemma {:induction false} SamePath<V>(items: seq<Item<V>>, more: seq<Item<V>>, t: int)
    requires Descending(items) && Descending(more) && SameChains(items, more) && StateAt(items, t)
    ensures StateAt(more, t) && Path(more, t) == Path(items, t)
    decreases t
  {
    if t != 0 {
      assert Below(items, t);
      SamePath(items, more, items[t].pred);
    }
  }

  /** On the contiguous stretch, the stack below a state is all states up to it. */
  lemma {:induction false} ContiguousPath<V>(items: seq<Item<V>>, n: nat, t: int)
    requires Descending(items) && Contiguous(items, n) && 0 <= t < n && StateAt(items, t)
    ensures |Path(items, t)| == t + 1 && forall j :: 0 <= j <= t ==> Path(items, t)[j] == j
    decreases t
  {
    hide Contiguous, Descending;
    PathStep(items, t);
    if t != 0 {
      assert items[t].pred == t - 1 by { ContiguousAt(items, n, t); }
      ContiguousPath(items, n, t - 1);
    }
  }

  lemma ContiguousAt<V>(items: seq<Item<V>>, n: nat, t: int)
    requires Contiguous(items, n) && 0 <= t < n
    ensures StateAt(items, t) && items[t].pred == t - 1
  {
  }

  lemma PathStep<V>(items: seq<Item<V>>, t: int)
    requires Descending(items) && StateAt(items, t)
    ensures t == 0 ==> Path(items, t) == [0]
    ensures t != 0 ==> Below(items, t) && Path(items, t) == Path(items, items[t].pred) + [t]
  {
    if t != 0 {
      assert Below(items, t);
    }
  }

  /** The split point is on every stack, and what is below it is the same for all of them. */
  lemma {:induction false} SplitOnPath<V>(items: seq<Item<V>>, split: int, t: int)
    requires Descending(items) && StateAt(items, split) && Contiguous(items, split + 1) && Fans(items, split)
    requires IsTop(items, split, t)
    ensures |Path(items, t)| > split && Path(items, t)[..split + 1] == Path(items, split)
    ensures forall j :: split < j < |Path(items, t)| ==> Path(items, t)[j] > split
    decreases t
  {
    hide Contiguous, Descending;
    ContiguousPath(items, split + 1, split);
    PathStep(items, t);
    if t > split {
      SplitOnPath(items, split, items[t].pred);
      var below := Path(items, items[t].pred);
      assert (below + [t])[..split + 1] == below[..split + 1];
    }
  }

  /** The states on a path ascend. */
  lemma {:induction false} PathAscends<V>(items: seq<Item<V>>, t: int, j: nat)
    requires Descending(items) && StateAt(items, t) && j < |Path(items, t)|
    ensures StateAt(items, Path(items, t)[j]) && Path(items, t)[j] <= t
    ensures j > 0 ==> items[Path(items, t)[j]].pred == Path(items, t)[j - 1] < Path(items, t)[j]
    ensures j < |Path(items, t)| - 1 ==> Path(items, t)[j] < t
    ensures j == 0 ==> Path(items, t)[0] == 0
    decreases t
  {
    if t != 0 {
      assert Below(items, t);
      var below := Path(items, items[t].pred);
      if j < |below| {
        PathAscends(items, items[t].pred, j);
        assert (below + [t])[j] == below[j];
        if j > 0 {
          assert (below + [t])[j - 1] == below[j - 1];
        }
      }
    }
  }
}
