/** The move of the GLR stack to a larger array, with pointers as addresses counted in items: the
    offsets that YYRELOC computes make every moved pointer name the same item as before. */
module GlrRelocation {
  import opened Collections
  import opened GlrShape

  /** The null pointer as an address. */
  const NULL := 0

  /** YYRELOC */
  function Reloc(from: int, to: int, x: int): int {
    to - (from - x)
  }

  /** The index, in the array at `base`, of the item at an address. */
  function IndexOf(base: int, x: int): int {
    if x == NULL then NONE else x - base
  }

  function IndexedSem<V>(base: int, s: Semantics<V>): Semantics<V> {
    match s
    case Resolved(_) => s
    case Unresolved(first) => Unresolved(IndexOf(base, first))
  }

  /** An item whose pointers are addresses, with indices instead. */
  function Indexed<V>(base: int, x: Item<V>): Item<V> {
    match x
    case State(lr, pred, posn, sem) => State(lr, IndexOf(base, pred), posn, IndexedSem(base, sem))
    case Choice(rule, rhs, next, raw) => Choice(rule, IndexOf(base, rhs), IndexOf(base, next), raw)
  }

  /** An address of one of the n items at `base`, or null. */
  predicate Points(base: int, n: nat, x: int) {
    x == NULL || base <= x < base + n
  }

  predicate PointsInside<V>(base: int, n: nat, x: Item<V>) {
    match x
    case State(_, pred, _, sem) => Points(base, n, pred) && (sem.Unresolved? ==> Points(base, n, sem.first))
    case Choice(_, rhs, next, _) => Points(base, n, rhs) && Points(base, n, next)
  }

  /** The body of the loop, for the item that moves from address p0 to p1. */
  method MoveItem<V>(p0: int, p1: int, x: Item<V>) returns (y: Item<V>)
    ensures y == match x
                 case State(lr, pred, posn, sem) =>
                   State(lr, if pred == NULL then NULL else pred + (p1 - p0), posn,
                         if sem.Unresolved? && sem.first != NULL then Unresolved(sem.first + (p1 - p0)) else sem)
                 case Choice(rule, rhs, next, raw) =>
                   Choice(rule, if rhs == NULL then NULL else rhs + (p1 - p0), if next == NULL then NULL else next + (p1 - p0), raw)
  {
    y := x;
    match x {
      case State(lr, pred, posn, sem) =>
        if pred != NULL {
          y := y.(pred := Reloc(p0, p1, pred));
        }
        if sem.Unresolved? && sem.first != NULL {
          y := y.(sem := Unresolved(Reloc(p0, p1, sem.first)));
        }
      case Choice(rule, rhs, next, raw) =>
        if rhs != NULL {
          y := y.(rhs := Reloc(p0, p1, rhs));
        }
        if next != NULL {
          y := y.(next := Reloc(p0, p1, next));
        }
    }
  }

  /** yyexpandGLRStack: the items, the split point and the tops, moved from one address to another. */
  method Expand<V>(from: int, to: int, items: seq<Item<V>>, split: int, tops: seq<int>)
    returns (newItems: seq<Item<V>>, newSplit: int, newTops: seq<int>)
    requires 0 < from && 0 < to
    requires forall i :: 0 <= i < |items| ==> PointsInside(from, |items|, items[i])
    requires Points(from, |items|, split) && forall k :: 0 <= k < |tops| ==> Points(from, |items|, tops[k])
    ensures |newItems| == |items| && forall i :: 0 <= i < |items| ==>
              Indexed(to, newItems[i]) == Indexed(from, items[i]) && PointsInside(to, |items|, newItems[i])
    ensures IndexOf(to, newSplit) == IndexOf(from, split)
    ensures |newTops| == |tops| && forall k :: 0 <= k < |tops| ==> IndexOf(to, newTops[k]) == IndexOf(from, tops[k])
  {
    newItems := [];
    for i := 0 to |items|
      invariant |newItems| == i
      invariant forall j :: 0 <= j < i ==>
                  Indexed(to, newItems[j]) == Indexed(from, items[j]) && PointsInside(to, |items|, newItems[j])
    {
      assert PointsInside(from, |items|, items[i]);
      var y := MoveItem(from + i, to + i, items[i]);
      newItems := newItems + [y];
    }
    newSplit := split;
    if split != NULL {
      newSplit := Reloc(from, to, split);
    }
    newTops := tops;
    for k := 0 to |tops|
      invariant |newTops| == |tops| && forall j :: k <= j < |tops| ==> newTops[j] == tops[j]
      invariant forall j :: 0 <= j < k ==> IndexOf(to, newTops[j]) == IndexOf(from, tops[j])
    {
      assert Points(from, |items|, tops[k]);
      if newTops[k] != NULL {
        newTops := newTops[k := Reloc(from, to, newTops[k])];
      }
    }
  }

  /** A pointer that is not moved along names the same item only if the array did not move. */
  lemma NotMovedIsStale(from: int, to: int, n: nat, x: int)
    requires 0 < from && 0 < to && x != NULL && Points(from, n, x)
    ensures IndexOf(to, x) == IndexOf(from, x) <==> to == from
    ensures to + n <= from || from + n <= to ==> !Points(to, n, x)
  {
  }
}
