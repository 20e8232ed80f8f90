/** Where the entries of the diff stand: what comes before a pair of matching lines in the texts comes
    before what comes after it. */
module ArrayDiffOrder {
  import opened Collections
  import opened ArrayDiff
  import opened ArrayDiffAlign

  /** The loop from s on pairs line i of a with line j of b. */
  ghost predicate Pairs(cmp: Compare, a: seq<string>, b: seq<string>, s: Alignment, i: nat, j: nat)
    decreases |a| - s.idx1, |b| - s.idx2
  {
    s.idx1 < |a| && s.idx2 < |b| &&
    ((s.idx1 == i && s.idx2 == j && cmp(a[i], b[j])) || Pairs(cmp, a, b, AlignStep(cmp, a, b, s), i, j))
  }

  predicate Before(e: Entry, i: nat, j: nat) {
    if e.Minus? then e.line < i + 1 else e.line < j + 1
  }

  predicate Beyond(e: Entry, i: nat, j: nat) {
    if e.Minus? then e.line > i + 1 else e.line > j + 1
  }

  /** No entry is on the pair, and those before it come first. */
  ghost predicate Separated(d: seq<Entry>, i: nat, j: nat) {
    && (forall x :: 0 <= x < |d| ==> Before(d[x], i, j) || Beyond(d[x], i, j))
    && (forall x, y :: 0 <= x < y < |d| && Beyond(d[x], i, j) ==> !Before(d[y], i, j))
  }

  // ---------------------------------------------------------------- the mapping

  /** The mapping so far, and the lines that were set aside. */
  ghost predicate Past(s: Alignment) {
    && (forall v :: v in s.mapping ==> v <= s.idx2 && s.mapping[v] <= s.idx1)
    && (forall k :: 0 <= k < |s.old1| ==> s.old1[k] <= s.idx1)
    && (forall k :: 0 <= k < |s.old2| ==> s.old2[k] <= s.idx2)
  }

  /** The lines set aside later are later lines, and are mapped to later ones. */
  ghost predicate Later(s: Alignment, r: Alignment) {
    && s.idx1 <= r.idx1 && s.idx2 <= r.idx2 && s.old1 <= r.old1 && s.old2 <= r.old2
    && (forall v :: v in r.mapping ==> if v < s.idx2 then v in s.mapping && r.mapping[v] == s.mapping[v] else r.mapping[v] >= s.idx1)
    && (forall k :: |s.old1| <= k < |r.old1| ==> r.old1[k] > s.idx1)
    && (forall k :: |s.old2| <= k < |r.old2| ==> r.old2[k] > s.idx2)
  }

  lemma StepLater(cmp: Compare, a: seq<string>, b: seq<string>, s: Alignment, r: Alignment)
    requires s.idx1 < |a| && s.idx2 < |b| && Later(AlignStep(cmp, a, b, s), r)
    ensures Later(s, r)
  {
    hide Count;
    var t := AlignStep(cmp, a, b, s);
    assert forall k :: 0 <= k < |t.old1| ==> r.old1[k] == t.old1[k];
    assert forall k :: 0 <= k < |t.old2| ==> r.old2[k] == t.old2[k];
  }

  lemma {:induction false} AlignLater(cmp: Compare, a: seq<string>, b: seq<string>, s: Alignment)
    requires s.idx1 <= |a| && s.idx2 <= |b| && Past(s)
    ensures Later(s, Align(cmp, a, b, s))
    decreases |a| - s.idx1 + |b| - s.idx2
  {
    hide AlignStep;
    if s.idx1 < |a| && s.idx2 < |b| {
      AlignUnfolds(cmp, a, b, s);
      StepPast(cmp, a, b, s);
      AlignLater(cmp, a, b, AlignStep(cmp, a, b, s));
      StepLater(cmp, a, b, s, Align(cmp, a, b, s));
    }
  }

  lemma StepPast(cmp: Compare, a: seq<string>, b: seq<string>, s: Alignment)
    requires s.idx1 < |a| && s.idx2 < |b| && Past(s)
    ensures Past(AlignStep(cmp, a, b, s))
    ensures var t := AlignStep(cmp, a, b, s); t.idx1 <= |a| && t.idx2 <= |b| && t.idx1 + t.idx2 > s.idx1 + s.idx2
  {
    hide Count;
  }

  /** The pair splits the lines that were set aside, and the mapping with them. */
  ghost predicate SplitBy(r: Alignment, i: nat, j: nat) {
    && i < r.idx1 && j < r.idx2
    && (forall v :: v in r.mapping ==> if v <= j then r.mapping[v] <= i else r.mapping[v] > i)
    && (forall k :: 0 <= k < |r.old1| ==> r.old1[k] != i + 1)
    && (forall k :: 0 <= k < |r.old2| ==> r.old2[k] != j + 1)
  }

  lemma PairSplits(cmp: Compare, a: seq<string>, b: seq<string>, s: Alignment, i: nat, j: nat)
    requires s.idx1 == i < |a| && s.idx2 == j < |b| && cmp(a[i], b[j]) && Past(s)
    ensures SplitBy(Align(cmp, a, b, s), i, j)
  {
    hide Align;
    var t := AlignStep(cmp, a, b, s);
    var r := Align(cmp, a, b, s);
    AlignUnfolds(cmp, a, b, s);
    StepPast(cmp, a, b, s);
    AlignLater(cmp, a, b, t);
    forall k | 0 <= k < |r.old1| ensures r.old1[k] != i + 1 {
      assert k < |t.old1| ==> r.old1[k] == t.old1[k];
    }
    forall k | 0 <= k < |r.old2| ensures r.old2[k] != j + 1 {
      assert k < |t.old2| ==> r.old2[k] == t.old2[k];
    }
  }

  lemma {:induction false} AlignSplits(cmp: Compare, a: seq<string>, b: seq<string>, s: Alignment, i: nat, j: nat)
    requires s.idx1 <= |a| && s.idx2 <= |b| && Past(s) && Pairs(cmp, a, b, s, i, j)
    ensures SplitBy(Align(cmp, a, b, s), i, j)
    decreases |a| - s.idx1 + |b| - s.idx2
  {
    hide AlignStep, SplitBy, Align, Past;
    if s.idx1 == i && s.idx2 == j && cmp(a[i], b[j]) {
      PairSplits(cmp, a, b, s, i, j);
    } else {
      AlignUnfolds(cmp, a, b, s);
      StepPast(cmp, a, b, s);
      AlignSplits(cmp, a, b, AlignStep(cmp, a, b, s), i, j);
    }
  }

  // ---------------------------------------------------------------- the merge

  /** What is left to merge, with the lines emitted last, does not get across the pair. */
  ghost predicate Safe(k1: seq<nat>, k2: seq<nat>, l1: int, l2: int, mapping: map<nat, nat>, i: nat, j: nat) {
    && Increasing(k1) && Increasing(k2) && i + 1 !in k1 && j + 1 !in k2 && l1 != i + 1 && l2 != j + 1
    && (forall v :: v in mapping ==> if v <= j then mapping[v] <= i else mapping[v] > i)
    && (forall v :: v in k2 ==> v in mapping)
    && (l2 > j + 1 ==> forall u :: u in k1 ==> u > i + 1)
    && (l1 > i + 1 ==> forall v :: v in k2 ==> v > j + 1)
  }

  lemma FirstLeast(s: seq<nat>)
    requires Increasing(s) && s != []
    ensures Increasing(s[1..]) && forall u :: u in s ==> u == s[0] || u in s[1..]
    ensures forall u :: u in s[1..] ==> u in s && u > s[0]
  {
    Cons(s);
  }

  lemma TakeSafe(k1: seq<nat>, k2: seq<nat>, l1: int, l2: int, mapping: map<nat, nat>, i: nat, j: nat)
    requires Safe(k1, k2, l1, l2, mapping, i, j) && (k1 != [] || k2 != [])
    ensures if TakesFirst(k1, k2, l1, l2, mapping) then
              && k1 != [] && Safe(k1[1..], k2, k1[0], l2, mapping, i, j) && k1[0] != i + 1
              && (k1[0] > i + 1 ==> (forall u :: u in k1[1..] ==> u > i + 1) && forall v :: v in k2 ==> v > j + 1)
            else
              && k2 != [] && Safe(k1, k2[1..], l1, k2[0], mapping, i, j) && k2[0] != j + 1
              && (k2[0] > j + 1 ==> (forall u :: u in k1 ==> u > i + 1) && forall v :: v in k2[1..] ==> v > j + 1)
  {
    if k1 != [] {
      FirstLeast(k1);
    }
    if k2 != [] {
      FirstLeast(k2);
    }
  }

  /** All entries of a merge come from what was left. */
  lemma {:induction false} MergeLines(w: seq<string>, b: seq<string>, k1: seq<nat>, k2: seq<nat>, l1: int, l2: int, mapping: map<nat, nat>)
    ensures forall e :: e in Merge(w, b, k1, k2, l1, l2, mapping) ==> if e.Minus? then e.line in k1 else e.line in k2
    decreases |k1| + |k2|
  {
    if k1 != [] || k2 != [] {
      if TakesFirst(k1, k2, l1, l2, mapping) {
        MergeLines(w, b, k1[1..], k2, k1[0], l2, mapping);
        Cons(k1);
      } else {
        MergeLines(w, b, k1, k2[1..], l1, k2[0], mapping);
        Cons(k2);
      }
    }
  }

  lemma SeparatedFirst(e: Entry, rest: seq<Entry>, i: nat, j: nat)
    requires Separated(rest, i, j) && (Before(e, i, j) || Beyond(e, i, j))
    requires Beyond(e, i, j) ==> forall f :: f in rest ==> !Before(f, i, j)
    ensures Separated([e] + rest, i, j)
  {
    var d := [e] + rest;
    forall x, y | 0 <= x < y < |d| && Beyond(d[x], i, j) ensures !Before(d[y], i, j) {
      assert d[y] == rest[y - 1];
      assert x > 0 ==> d[x] == rest[x - 1];
    }
  }

  lemma {:induction false} MergeSeparates(w: seq<string>, b: seq<string>, k1: seq<nat>, k2: seq<nat>, l1: int, l2: int,
                                          mapping: map<nat, nat>, i: nat, j: nat)
    requires Safe(k1, k2, l1, l2, mapping, i, j)
    ensures Separated(Merge(w, b, k1, k2, l1, l2, mapping), i, j)
    decreases |k1| + |k2|
  {
    hide Safe, Separated, TakesFirst;
    if k1 == [] && k2 == [] {
      NothingSeparated(i, j);
    } else {
      TakeSafe(k1, k2, l1, l2, mapping, i, j);
      if TakesFirst(k1, k2, l1, l2, mapping) {
        var rest := Merge(w, b, k1[1..], k2, k1[0], l2, mapping);
        MergeSeparates(w, b, k1[1..], k2, k1[0], l2, mapping, i, j);
        MergeLines(w, b, k1[1..], k2, k1[0], l2, mapping);
        SeparatedFirst(MinusAt(w, k1[0]), rest, i, j);
      } else {
        var rest := Merge(w, b, k1, k2[1..], l1, k2[0], mapping);
        MergeSeparates(w, b, k1, k2[1..], l1, k2[0], mapping, i, j);
        MergeLines(w, b, k1, k2[1..], l1, k2[0], mapping);
        SeparatedFirst(PlusAt(b, k2[0]), rest, i, j);
      }
    }
  }

  lemma NothingSeparated(i: nat, j: nat)
    ensures Separated([], i, j)
  {
  }

  // ---------------------------------------------------------------- the diff

  lemma SeparatedMore(d: seq<Entry>, more: seq<Entry>, i: nat, j: nat)
    requires Separated(d, i, j) && forall e :: e in more ==> Beyond(e, i, j)
    ensures Separated(d + more, i, j)
  {
    var all := d + more;
    forall x | |d| <= x < |all| ensures Beyond(all[x], i, j) && !Before(all[x], i, j) {
      assert all[x] in more;
    }
  }

  lemma {:induction false} TailBeyond(w: seq<string>, k: nat, i: nat, j: nat)
    requires i < k
    ensures forall e :: e in MinusTail(w, k) ==> Beyond(e, i, j)
    decreases |w| - k
  {
    if k < |w| {
      TailBeyond(w, k + 1, i, j);
    }
  }

  lemma {:induction false} PlusBeyond(b: seq<string>, k: nat, i: nat, j: nat)
    requires j < k
    ensures forall e :: e in PlusTail(b, k) ==> Beyond(e, i, j)
    decreases |b| - k
  {
    if k < |b| {
      PlusBeyond(b, k + 1, i, j);
    }
  }

  /** The diff can be read along with both texts: for every pair of lines that the alignment matches,
      the entries for lines before it come before those for lines after it. */
  lemma DiffFollowsTheTexts(cmp: Compare, a: seq<string>, b: seq<string>, w: seq<string>, i: nat, j: nat)
    requires |w| == |a| && Pairs(cmp, a, b, START, i, j)
    ensures Separated(Diff(cmp, a, b, w), i, j)
  {
    hide Align, Merge, Separated, Pairs, MinusTail, PlusTail;
    var r := Align(cmp, a, b, START);
    AlignSplits(cmp, a, b, START, i, j);
    AlignMaps(cmp, a, b, START);
    AlignKeeps(cmp, a, b, START);
    StartsSafe(a, b, r, i, j);
    MergeSeparates(w, b, r.old1, r.old2, -2, -2, r.mapping, i, j);
    TailBeyond(w, r.idx1, i, j);
    PlusBeyond(b, r.idx2, i, j);
    SeparatedMore(Merge(w, b, r.old1, r.old2, -2, -2, r.mapping), MinusTail(w, r.idx1), i, j);
    SeparatedMore(Merge(w, b, r.old1, r.old2, -2, -2, r.mapping) + MinusTail(w, r.idx1), PlusTail(b, r.idx2), i, j);
  }

  lemma StartsSafe(a: seq<string>, b: seq<string>, r: Alignment, i: nat, j: nat)
    requires SplitBy(r, i, j) && LinesUpTo(r.old1, |a|) && LinesUpTo(r.old2, |b|)
    requires forall k :: 0 <= k < |r.old2| ==> r.old2[k] in r.mapping
    ensures Safe(r.old1, r.old2, -2, -2, r.mapping, i, j)
  {
  }
}
