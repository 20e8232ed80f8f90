/** The one allocation that holds all of a parser's stacks: YYSTACK_BYTES gives its size and
    YYSTACK_RELOCATE the place of each stack in it, in whole units of an aligned union. */
module StackLayout {

  /** The size of one element of each stack, and of the union that is aligned for all of them. */
  datatype Layout = Layout(sizes: seq<nat>, unit: nat)

  /** The bytes of the first k elements, one of each stack. */
  function Bytes(l: Layout, k: nat): nat
    requires k <= |l.sizes|
  {
    if k == 0 then 0 else Bytes(l, k - 1) + l.sizes[k - 1]
  }

  /** YYSTACK_BYTES(n) */
  function StackBytes(l: Layout, n: nat): nat
    requires |l.sizes| > 0 && l.unit > 0
  {
    n * Bytes(l, |l.sizes|) + Gaps(|l.sizes| - 1, l.unit - 1)
  }

  function Gaps(count: nat, largest: nat): nat {
    count * largest
  }

  /** How far YYSTACK_RELOCATE advances yyptr for a stack of so many bytes. */
  function Units(bytes: nat, unit: nat): nat
    requires unit > 0
  {
    (bytes + (unit - 1)) / unit
  }

  /** Where YYSTACK_RELOCATE puts the k-th stack, in units: yyptr after the first k stacks. */
  function Place(l: Layout, n: nat, k: nat): nat
    requires k <= |l.sizes| && l.unit > 0
  {
    if k == 0 then 0 else Place(l, n, k - 1) + Units(n * l.sizes[k - 1], l.unit)
  }

  lemma RoundUp(bytes: nat, unit: nat)
    requires unit > 0
    ensures bytes <= Units(bytes, unit) * unit <= bytes + (unit - 1)
  {
    var x := bytes + (unit - 1);
    assert x == x / unit * unit + x % unit;
  }

  lemma Distribute(n: nat, a: nat, b: nat)
    ensures n * (a + b) == n * a + n * b && (a + b) * n == a * n + b * n
  {
  }

  lemma Monotone(n: nat, a: nat, b: nat)
    requires a <= b
    ensures n * a <= n * b && a * n <= b * n
  {
    Distribute(n, a, b - a);
  }

  /** The offset of the k-th stack in bytes. */
  function Offset(l: Layout, n: nat, k: nat): nat
    requires k <= |l.sizes| && l.unit > 0
  {
    Place(l, n, k) * l.unit
  }

  lemma NextOffset(l: Layout, n: nat, k: nat)
    requires k < |l.sizes| && l.unit > 0
    ensures Offset(l, n, k) + n * l.sizes[k] <= Offset(l, n, k + 1) <= Offset(l, n, k) + n * l.sizes[k] + (l.unit - 1)
  {
    RoundUp(n * l.sizes[k], l.unit);
    Distribute(l.unit, Place(l, n, k), Units(n * l.sizes[k], l.unit));
  }

  lemma {:induction false} OffsetBound(l: Layout, n: nat, k: nat)
    requires k <= |l.sizes| && l.unit > 0
    ensures Offset(l, n, k) <= n * Bytes(l, k) + k * (l.unit - 1)
  {
    if k > 0 {
      hide Offset;
      OffsetBound(l, n, k - 1);
      NextOffset(l, n, k - 1);
      Distribute(n, Bytes(l, k - 1), l.sizes[k - 1]);
      Distribute(l.unit - 1, k - 1, 1);
    }
  }

  lemma {:induction false} OffsetsAscend(l: Layout, n: nat, j: nat, k: nat)
    requires j < k <= |l.sizes| && l.unit > 0
    ensures Offset(l, n, j) + n * l.sizes[j] <= Offset(l, n, k)
  {
    hide Offset;
    NextOffset(l, n, k - 1);
    if j < k - 1 {
      OffsetsAscend(l, n, j, k - 1);
    }
  }

  /** For all element sizes and numbers of elements: every stack starts at a multiple of the aligned
      unit, no two stacks overlap, and all of them lie inside the allocation. */
  lemma StacksFit(l: Layout, n: nat, j: nat, k: nat)
    requires j < |l.sizes| && k < |l.sizes| && l.unit > 0
    ensures Offset(l, n, k) % l.unit == 0
    ensures Offset(l, n, k) + n * l.sizes[k] <= StackBytes(l, n)
    ensures j < k ==> Offset(l, n, j) + n * l.sizes[j] <= Offset(l, n, k)
  {
    Multiple(Place(l, n, k), l.unit);
    hide Offset;
    OffsetBound(l, n, k);
    Distribute(n, Bytes(l, k), l.sizes[k]);
    BytesAscend(l, k + 1, |l.sizes|);
    Monotone(n, Bytes(l, k + 1), Bytes(l, |l.sizes|));
    Monotone(l.unit - 1, k, |l.sizes| - 1);
    if j < k {
      OffsetsAscend(l, n, j, k);
    }
  }

  lemma Multiple(a: nat, unit: nat)
    requires unit > 0
    ensures a * unit % unit == 0
  {
    var q, r := a * unit / unit, a * unit % unit;
    assert a * unit == q * unit + r && 0 <= r < unit;
    if a < q {
      Monotone(unit, a + 1, q);
      Distribute(unit, a, 1);
    } else if q < a {
      Monotone(unit, q + 1, a);
      Distribute(unit, q, 1);
    }
  }

  lemma {:induction false} BytesAscend(l: Layout, j: nat, k: nat)
    requires j <= k <= |l.sizes|
    ensures Bytes(l, j) <= Bytes(l, k)
  {
    if j < k {
      BytesAscend(l, j, k - 1);
    }
  }

  /** The gaps that YYSTACK_BYTES allows for are needed: the second of these stacks ends where the
      allocation does. */
  lemma GapIsNeeded()
    ensures var l := Layout([1, 8], 8);
            Offset(l, 1, 1) + 8 == StackBytes(l, 1)
  {
    var l := Layout([1, 8], 8);
    assert Place(l, 1, 1) == Place(l, 1, 0) + Units(1, 8) == 1;
    assert Bytes(l, 1) == Bytes(l, 0) + 1 && Bytes(l, 2) == Bytes(l, 1) + 8;
  }
}
