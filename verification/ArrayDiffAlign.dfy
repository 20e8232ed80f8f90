/** The diff itself: the alignment loop, the merge of its two lists, and what the printed entries mean. */
module ArrayDiffAlign {
  import opened Collections
  import opened ArrayDiff

  /** A line of the diff: an expected line that is missing, or an output line that is new. */
  datatype Entry = Minus(line: nat, text: string) | Plus(line: nat, text: string)

  /** The budget of each look ahead. */
  const STEPS := 10

  /** The variables of the alignment loop. `old1` and `old2` are the keys (line numbers counted from
      1) of the two lists; `mapping` gives for a position in the output the expected position. */
  datatype Alignment = Alignment(idx1: nat, idx2: nat, old1: seq<nat>, old2: seq<nat>, mapping: map<nat, nat>)

  function AlignStep(cmp: Compare, a: seq<string>, b: seq<string>, s: Alignment): Alignment
    requires s.idx1 < |a| && s.idx2 < |b|
  {
    var mapping := s.mapping[s.idx2 := s.idx1];
    if cmp(a[s.idx1], b[s.idx2]) then
      s.(idx1 := s.idx1 + 1, idx2 := s.idx2 + 1, mapping := mapping)
    else
      var c1 := Count(cmp, a, b, s.idx1 + 1, s.idx2, STEPS);
      var c2 := Count(cmp, a, b, s.idx1, s.idx2 + 1, STEPS);
      if c1 > c2 then
        s.(idx1 := s.idx1 + 1, old1 := s.old1 + [s.idx1 + 1], mapping := mapping)
      else if c2 > 0 then
        s.(idx2 := s.idx2 + 1, old2 := s.old2 + [s.idx2 + 1], mapping := mapping)
      else
        Alignment(s.idx1 + 1, s.idx2 + 1, s.old1 + [s.idx1 + 1], s.old2 + [s.idx2 + 1], mapping)
  }

  function Align(cmp: Compare, a: seq<string>, b: seq<string>, s: Alignment): (r: Alignment)
    requires s.idx1 <= |a| && s.idx2 <= |b|
    ensures r.idx1 == |a| || r.idx2 == |b|
    ensures r.idx1 <= |a| && r.idx2 <= |b|
    decreases |a| - s.idx1 + |b| - s.idx2
  {
    if s.idx1 < |a| && s.idx2 < |b| then
      Align(cmp, a, b, AlignStep(cmp, a, b, s))
    else
      s.(mapping := s.mapping[s.idx2 := s.idx1])
  }

  const START := Alignment(0, 0, [], [], map[])

  function Mapped(mapping: map<nat, nat>, k: nat): nat {
    if k in mapping then mapping[k] else 0
  }

  function MinusAt(w: seq<string>, k: nat): Entry {
    Minus(k, if 1 <= k <= |w| then w[k - 1] else "")
  }

  function PlusAt(b: seq<string>, k: nat): Entry {
    Plus(k, if 1 <= k <= |b| then b[k - 1] else "")
  }

  /** Whether the next entry comes from the first list; l1 and l2 are the lines emitted last. */
  predicate TakesFirst(k1: seq<nat>, k2: seq<nat>, l1: int, l2: int, mapping: map<nat, nat>)
    requires k1 != [] || k2 != []
  {
    if (k1 != [] && k1[0] == l1 + 1) || k2 == [] then true
    else if k2[0] == l2 + 1 || k1 == [] then false
    else k1[0] < Mapped(mapping, k2[0])
  }

  function Merge(w: seq<string>, b: seq<string>, k1: seq<nat>, k2: seq<nat>, l1: int, l2: int, mapping: map<nat, nat>): seq<Entry>
    decreases |k1| + |k2|
  {
    if k1 == [] && k2 == [] then []
    else if TakesFirst(k1, k2, l1, l2, mapping) then
      [MinusAt(w, k1[0])] + Merge(w, b, k1[1..], k2, k1[0], l2, mapping)
    else
      [PlusAt(b, k2[0])] + Merge(w, b, k1, k2[1..], l1, k2[0], mapping)
  }

  function MinusTail(w: seq<string>, i: nat): seq<Entry>
    decreases |w| - i
  {
    if i < |w| then [MinusAt(w, i + 1)] + MinusTail(w, i + 1) else []
  }

  function PlusTail(b: seq<string>, j: nat): seq<Entry>
    decreases |b| - j
  {
    if j < |b| then [PlusAt(b, j + 1)] + PlusTail(b, j + 1) else []
  }

  /** All entries of the diff, without context lines. */
  function Diff(cmp: Compare, a: seq<string>, b: seq<string>, w: seq<string>): seq<Entry> {
    var s := Align(cmp, a, b, START);
    Merge(w, b, s.old1, s.old2, -2, -2, s.mapping) + MinusTail(w, s.idx1) + PlusTail(b, s.idx2)
  }

  /** The loops that compute it. */
  method GenerateArrayDiff(cmp: Compare, a: seq<string>, b: seq<string>, w: seq<string>) returns (diff: seq<Entry>)
    requires |w| == |a|
    ensures diff == Diff(cmp, a, b, w)
  {
    hide Align, Merge;
    var idx1, idx2, old1, old2, mapping := AlignLines(cmp, a, b);
    diff := MergeLists(w, b, old1, old2, mapping);
    while idx1 < |w|
      invariant diff + MinusTail(w, idx1) + PlusTail(b, idx2) == Diff(cmp, a, b, w)
      invariant idx1 <= |w|
    {
      assert diff + MinusTail(w, idx1) == (diff + [MinusAt(w, idx1 + 1)]) + MinusTail(w, idx1 + 1);
      diff := diff + [Minus(idx1 + 1, w[idx1])];
      idx1 := idx1 + 1;
    }
    assert diff + MinusTail(w, idx1) == diff;
    while idx2 < |b|
      invariant diff + PlusTail(b, idx2) == Diff(cmp, a, b, w)
      invariant idx2 <= |b|
    {
      assert diff + PlusTail(b, idx2) == (diff + [PlusAt(b, idx2 + 1)]) + PlusTail(b, idx2 + 1);
      diff := diff + [Plus(idx2 + 1, b[idx2])];
      idx2 := idx2 + 1;
    }
    assert diff + PlusTail(b, idx2) == diff;
  }

  lemma AlignUnfolds(cmp: Compare, a: seq<string>, b: seq<string>, s: Alignment)
    requires s.idx1 < |a| && s.idx2 < |b|
    ensures AlignStep(cmp, a, b, s).idx1 <= |a| && AlignStep(cmp, a, b, s).idx2 <= |b|
    ensures Align(cmp, a, b, s) == Align(cmp, a, b, AlignStep(cmp, a, b, s))
  {
  }

  lemma AlignEnds(cmp: Compare, a: seq<string>, b: seq<string>, s: Alignment)
    requires s.idx1 <= |a| && s.idx2 <= |b| && (s.idx1 == |a| || s.idx2 == |b|)
    ensures Align(cmp, a, b, s) == s.(mapping := s.mapping[s.idx2 := s.idx1])
  {
  }

  ghost predicate Maps(s: Alignment, pending: nat) {
    forall i :: 0 <= i < |s.old2| ==> s.old2[i] in s.mapping || s.old2[i] == pending
  }

  /** The merge finds an entry in the mapping for every added line. */
  lemma {:induction false} AlignMaps(cmp: Compare, a: seq<string>, b: seq<string>, s: Alignment)
    requires s.idx1 <= |a| && s.idx2 <= |b| && Maps(s, s.idx2)
    ensures forall i :: 0 <= i < |Align(cmp, a, b, s).old2| ==> Align(cmp, a, b, s).old2[i] in Align(cmp, a, b, s).mapping
    decreases |a| - s.idx1 + |b| - s.idx2
  {
    if s.idx1 < |a| && s.idx2 < |b| {
      AlignMaps(cmp, a, b, AlignStep(cmp, a, b, s));
    }
  }

  method AlignLines(cmp: Compare, a: seq<string>, b: seq<string>)
    returns (idx1: nat, idx2: nat, old1: seq<nat>, old2: seq<nat>, mapping: map<nat, nat>)
    ensures Alignment(idx1, idx2, old1, old2, mapping) == Align(cmp, a, b, START)
    ensures idx1 <= |a| && idx2 <= |b|
    ensures forall i :: 0 <= i < |old2| ==> old2[i] in mapping
  {
    hide Align, Count, CommonRun;
    AlignMaps(cmp, a, b, START);
    idx1, idx2, old1, old2, mapping := 0, 0, [], [], map[];
    ghost var s := START;
    while idx1 < |a| && idx2 < |b|
      invariant idx1 <= |a| && idx2 <= |b|
      invariant s == Alignment(idx1, idx2, old1, old2, mapping)
      invariant Align(cmp, a, b, START) == Align(cmp, a, b, s)
      decreases |a| - idx1 + |b| - idx2
    {
      AlignUnfolds(cmp, a, b, s);
      s := AlignStep(cmp, a, b, s);
      mapping := mapping[idx2 := idx1];
      if cmp(a[idx1], b[idx2]) {
        idx1, idx2 := idx1 + 1, idx2 + 1;
        continue;
      }
      var c1 := CountArrayDiff(cmp, a, b, idx1 + 1, idx2, STEPS);
      var c2 := CountArrayDiff(cmp, a, b, idx1, idx2 + 1, STEPS);
      if c1 > c2 {
        idx1 := idx1 + 1;
        old1 := old1 + [idx1];
      } else if c2 > 0 {
        idx2 := idx2 + 1;
        old2 := old2 + [idx2];
      } else {
        idx1 := idx1 + 1;
        old1 := old1 + [idx1];
        idx2 := idx2 + 1;
        old2 := old2 + [idx2];
      }
    }
    AlignEnds(cmp, a, b, s);
    mapping := mapping[idx2 := idx1];
  }

  method MergeLists(w: seq<string>, b: seq<string>, old1: seq<nat>, old2: seq<nat>, mapping: map<nat, nat>)
    returns (diff: seq<Entry>)
    requires forall i :: 0 <= i < |old2| ==> old2[i] in mapping
    ensures diff == Merge(w, b, old1, old2, -2, -2, mapping)
  {
    diff := [];
    var k1: seq<nat>, k2: seq<nat>, l1: int, l2: int := old1, old2, -2, -2;
    while k1 != [] || k2 != []
      invariant diff + Merge(w, b, k1, k2, l1, l2, mapping) == Merge(w, b, old1, old2, -2, -2, mapping)
      invariant forall i :: 0 <= i < |k2| ==> k2[i] in mapping
      decreases |k1| + |k2|
    {
      var takeFirst :=
        if (k1 != [] && k1[0] == l1 + 1) || k2 == [] then true
        else if k2[0] == l2 + 1 || k1 == [] then false
        else k1[0] < mapping[k2[0]];
      if takeFirst {
        Assoc(diff, [MinusAt(w, k1[0])], Merge(w, b, k1[1..], k2, k1[0], l2, mapping));
        diff := diff + [MinusAt(w, k1[0])];
        l1, k1 := k1[0], k1[1..];
      } else {
        Assoc(diff, [PlusAt(b, k2[0])], Merge(w, b, k1, k2[1..], l1, k2[0], mapping));
        diff := diff + [PlusAt(b, k2[0])];
        l2, k2 := k2[0], k2[1..];
      }
    }
    EmptyConcat(diff);
  }

  // ---------------------------------------------------------------- what the entries mean

  function Removed(d: seq<Entry>): seq<nat> {
    if d == [] then [] else (if d[0].Minus? then [d[0].line] else []) + Removed(d[1..])
  }

  function Added(d: seq<Entry>): seq<nat> {
    if d == [] then [] else (if d[0].Plus? then [d[0].line] else []) + Added(d[1..])
  }

  ghost predicate Increasing(s: seq<nat>) {
    forall i, j :: 0 <= i < j < |s| ==> s[i] < s[j]
  }

  /** The numbers after i, up to n. */
  function Numbers(i: nat, n: nat): (s: seq<nat>)
    requires i <= n
    ensures |s| == n - i && forall k :: 0 <= k < n - i ==> s[k] == i + 1 + k
    decreases n - i
  {
    if i == n then [] else [i + 1] + Numbers(i + 1, n)
  }

  /** The lines of s whose numbers, counted from 1, are not in `gone`. */
  function Kept(s: seq<string>, gone: seq<nat>): seq<string> {
    if s == [] then [] else Kept(Front(s), gone) + if |s| in gone then [] else [Last(s)]
  }

  ghost predicate Match(cmp: Compare, s: seq<string>, t: seq<string>) {
    |s| == |t| && forall i :: 0 <= i < |s| ==> cmp(s[i], t[i])
  }

  /** Strictly increasing line numbers between 1 and n. */
  ghost predicate LinesUpTo(s: seq<nat>, n: nat) {
    Increasing(s) && forall i :: 0 <= i < |s| ==> 1 <= s[i] <= n
  }

  /** The alignment so far: unlisted lines of the two consumed parts match one by one. */
  ghost predicate Aligned(cmp: Compare, a: seq<string>, b: seq<string>, s: Alignment) {
    && s.idx1 <= |a| && s.idx2 <= |b|
    && LinesUpTo(s.old1, s.idx1) && LinesUpTo(s.old2, s.idx2)
    && Match(cmp, Kept(a[..s.idx1], s.old1), Kept(b[..s.idx2], s.old2))
  }

  /** Numbers beyond the end of s do not matter. */
  lemma {:induction false} KeptBeyond(s: seq<string>, gone: seq<nat>, more: seq<nat>)
    requires forall i :: 0 <= i < |more| ==> more[i] > |s|
    ensures Kept(s, gone + more) == Kept(s, gone)
  {
    if s != [] {
      KeptBeyond(Front(s), gone, more);
    }
  }

  lemma LinesConcat(s: seq<nat>, i: nat, t: seq<nat>, n: nat)
    requires LinesUpTo(s, i) && LinesUpTo(t, n) && i <= n
    requires forall x :: 0 <= x < |t| ==> t[x] > i
    ensures LinesUpTo(s + t, n)
  {
    var u := s + t;
    forall x, y | 0 <= x < y < |u| ensures u[x] < u[y] {
      assert u[x] == if x < |s| then s[x] else t[x - |s|];
      assert u[y] == if y < |s| then s[y] else t[y - |s|];
    }
  }

  lemma KeepLine(s: seq<string>, i: nat, gone: seq<nat>)
    requires i < |s| && LinesUpTo(gone, i)
    ensures Kept(s[..i + 1], gone) == Kept(s[..i], gone) + [s[i]]
    ensures Kept(s[..i + 1], gone + [i + 1]) == Kept(s[..i], gone)
    ensures LinesUpTo(gone, i + 1) && LinesUpTo(gone + [i + 1], i + 1)
  {
    assert Front(s[..i + 1]) == s[..i];
    KeptBeyond(s[..i], gone, [i + 1]);
    LinesConcat(gone, i, [i + 1], i + 1);
    assert i + 1 in gone + [i + 1];
  }

  lemma AlignStepKeeps(cmp: Compare, a: seq<string>, b: seq<string>, s: Alignment)
    requires s.idx1 < |a| && s.idx2 < |b| && Aligned(cmp, a, b, s)
    ensures Aligned(cmp, a, b, AlignStep(cmp, a, b, s))
  {
    KeepLine(a, s.idx1, s.old1);
    KeepLine(b, s.idx2, s.old2);
  }

  lemma {:induction false} AlignKeeps(cmp: Compare, a: seq<string>, b: seq<string>, s: Alignment)
    requires Aligned(cmp, a, b, s)
    ensures Aligned(cmp, a, b, Align(cmp, a, b, s))
    decreases |a| - s.idx1 + |b| - s.idx2
  {
    if s.idx1 < |a| && s.idx2 < |b| {
      AlignStepKeeps(cmp, a, b, s);
      AlignKeeps(cmp, a, b, AlignStep(cmp, a, b, s));
    }
  }

  lemma RemovedFirst(e: Entry, rest: seq<Entry>)
    ensures Removed([e] + rest) == (if e.Minus? then [e.line] + Removed(rest) else Removed(rest))
    ensures Added([e] + rest) == (if e.Plus? then [e.line] + Added(rest) else Added(rest))
  {
    ConsConcat([e], rest);
    EmptyConcat(rest);
    EmptyConcat(Removed(rest));
    EmptyConcat(Added(rest));
  }

  /** The merge emits every entry of both lists once, each list in its order. */
  lemma {:induction false} MergeKeepsBoth(w: seq<string>, b: seq<string>, k1: seq<nat>, k2: seq<nat>, l1: int, l2: int, mapping: map<nat, nat>)
    ensures Removed(Merge(w, b, k1, k2, l1, l2, mapping)) == k1
    ensures Added(Merge(w, b, k1, k2, l1, l2, mapping)) == k2
    decreases |k1| + |k2|
  {
    if k1 != [] || k2 != [] {
      if TakesFirst(k1, k2, l1, l2, mapping) {
        var rest := Merge(w, b, k1[1..], k2, k1[0], l2, mapping);
        MergeKeepsBoth(w, b, k1[1..], k2, k1[0], l2, mapping);
        RemovedFirst(MinusAt(w, k1[0]), rest);
        Cons(k1);
      } else {
        var rest := Merge(w, b, k1, k2[1..], l1, k2[0], mapping);
        MergeKeepsBoth(w, b, k1, k2[1..], l1, k2[0], mapping);
        RemovedFirst(PlusAt(b, k2[0]), rest);
        Cons(k2);
      }
    }
  }

  lemma {:induction false} RemovedConcat(d: seq<Entry>, e: seq<Entry>)
    ensures Removed(d + e) == Removed(d) + Removed(e)
    ensures Added(d + e) == Added(d) + Added(e)
  {
    if d == [] {
      EmptyConcat(e);
    } else {
      ConsConcat(d, e);
      RemovedConcat(d[1..], e);
      Assoc(if d[0].Minus? then [d[0].line] else [], Removed(d[1..]), Removed(e));
      Assoc(if d[0].Plus? then [d[0].line] else [], Added(d[1..]), Added(e));
    }
  }

  lemma {:induction false} MinusTailLines(w: seq<string>, i: nat)
    requires i <= |w|
    ensures Removed(MinusTail(w, i)) == Numbers(i, |w|)
    ensures Added(MinusTail(w, i)) == []
    decreases |w| - i
  {
    if i < |w| {
      MinusTailLines(w, i + 1);
    }
  }

  lemma {:induction false} PlusTailLines(b: seq<string>, j: nat)
    requires j <= |b|
    ensures Added(PlusTail(b, j)) == Numbers(j, |b|)
    ensures Removed(PlusTail(b, j)) == []
    decreases |b| - j
  {
    if j < |b| {
      PlusTailLines(b, j + 1);
    }
  }

  /** Listing all lines from i on keeps only what was kept of the first i lines. */
  lemma {:induction false} KeptWithTail(s: seq<string>, i: nat, n: nat, gone: seq<nat>, tail: seq<nat>)
    requires i <= n <= |s| && LinesUpTo(gone, i)
    requires tail == Numbers(i, |s|)
    ensures Kept(s[..n], gone + tail) == Kept(s[..i], gone)
    ensures LinesUpTo(gone + tail, |s|)
  {
    LinesConcat(gone, i, tail, |s|);
    if n == i {
      KeptBeyond(s[..i], gone, tail);
    } else {
      KeptWithTail(s, i, n - 1, gone, tail);
      assert Front(s[..n]) == s[..n - 1];
      assert tail[n - 1 - i] == n;
      assert n in gone + tail;
    }
  }

  /** The diff lists each removed expected line and each added output line once and in order, and
      once they are taken away the rest of the two texts matches line by line. */
  lemma DiffExplainsTheDifference(cmp: Compare, a: seq<string>, b: seq<string>, w: seq<string>)
    requires |w| == |a|
    ensures var d := Diff(cmp, a, b, w);
            && LinesUpTo(Removed(d), |a|) && LinesUpTo(Added(d), |b|)
            && Match(cmp, Kept(a, Removed(d)), Kept(b, Added(d)))
  {
    var s := Align(cmp, a, b, START);
    AlignKeeps(cmp, a, b, START);
    DiffLines(cmp, a, b, w);
    var removed, added := Numbers(s.idx1, |a|), Numbers(s.idx2, |b|);
    KeptWithTail(a, s.idx1, |a|, s.old1, removed);
    KeptWithTail(b, s.idx2, |b|, s.old2, added);
    assert a[..|a|] == a && b[..|b|] == b;
  }

  lemma DiffLines(cmp: Compare, a: seq<string>, b: seq<string>, w: seq<string>)
    requires |w| == |a|
    ensures var d, s := Diff(cmp, a, b, w), Align(cmp, a, b, START);
            Removed(d) == s.old1 + Numbers(s.idx1, |a|) && Added(d) == s.old2 + Numbers(s.idx2, |b|)
  {
    var s := Align(cmp, a, b, START);
    var merged := Merge(w, b, s.old1, s.old2, -2, -2, s.mapping);
    MergeKeepsBoth(w, b, s.old1, s.old2, -2, -2, s.mapping);
    MinusTailLines(w, s.idx1);
    PlusTailLines(b, s.idx2);
    RemovedParts(merged, MinusTail(w, s.idx1), PlusTail(b, s.idx2));
  }

  lemma RemovedParts(merged: seq<Entry>, minus: seq<Entry>, plus: seq<Entry>)
    requires Added(minus) == [] && Removed(plus) == []
    ensures Removed(merged + minus + plus) == Removed(merged) + Removed(minus)
    ensures Added(merged + minus + plus) == Added(merged) + Added(plus)
  {
    hide Removed, Added;
    RemovedConcat(merged, minus);
    RemovedConcat(merged + minus, plus);
    EmptyConcat(Removed(merged) + Removed(minus));
    EmptyConcat(Added(merged));
  }

  /** Every entry carries the text of the line it names. */
  ghost predicate Quotes(d: seq<Entry>, w: seq<string>, b: seq<string>) {
    forall i :: 0 <= i < |d| ==> QuotesOne(d[i], w, b)
  }

  ghost predicate QuotesOne(e: Entry, w: seq<string>, b: seq<string>) {
    match e
    case Minus(k, t) => 1 <= k <= |w| && t == w[k - 1]
    case Plus(k, t) => 1 <= k <= |b| && t == b[k - 1]
  }

  lemma QuoteFirst(e: Entry, rest: seq<Entry>, w: seq<string>, b: seq<string>)
    requires QuotesOne(e, w, b) && Quotes(rest, w, b)
    ensures Quotes([e] + rest, w, b)
  {
    assert forall i :: 0 < i < |[e] + rest| ==> ([e] + rest)[i] == rest[i - 1];
  }

  lemma QuotesConcat(d: seq<Entry>, e: seq<Entry>, w: seq<string>, b: seq<string>)
    requires Quotes(d, w, b) && Quotes(e, w, b)
    ensures Quotes(d + e, w, b)
  {
    assert forall i :: 0 <= i < |d + e| ==> (d + e)[i] == if i < |d| then d[i] else e[i - |d|];
  }

  lemma {:induction false} MergeQuotes(w: seq<string>, b: seq<string>, k1: seq<nat>, k2: seq<nat>, l1: int, l2: int, mapping: map<nat, nat>)
    requires forall i :: 0 <= i < |k1| ==> 1 <= k1[i] <= |w|
    requires forall i :: 0 <= i < |k2| ==> 1 <= k2[i] <= |b|
    ensures Quotes(Merge(w, b, k1, k2, l1, l2, mapping), w, b)
    decreases |k1| + |k2|
  {
    if k1 != [] || k2 != [] {
      if TakesFirst(k1, k2, l1, l2, mapping) {
        MergeQuotes(w, b, k1[1..], k2, k1[0], l2, mapping);
        QuoteFirst(MinusAt(w, k1[0]), Merge(w, b, k1[1..], k2, k1[0], l2, mapping), w, b);
      } else {
        MergeQuotes(w, b, k1, k2[1..], l1, k2[0], mapping);
        QuoteFirst(PlusAt(b, k2[0]), Merge(w, b, k1, k2[1..], l1, k2[0], mapping), w, b);
      }
    }
  }

  lemma {:induction false} TailsQuote(w: seq<string>, b: seq<string>, i: nat, j: nat)
    ensures Quotes(MinusTail(w, i), w, b) && Quotes(PlusTail(b, j), w, b)
    decreases |w| - i, |b| - j
  {
    if i < |w| {
      TailsQuote(w, b, i + 1, j);
      QuoteFirst(MinusAt(w, i + 1), MinusTail(w, i + 1), w, b);
    }
    if j < |b| {
      TailsQuote(w, b, i, j + 1);
      QuoteFirst(PlusAt(b, j + 1), PlusTail(b, j + 1), w, b);
    }
  }

  lemma DiffQuotes(cmp: Compare, a: seq<string>, b: seq<string>, w: seq<string>)
    requires |w| == |a|
    ensures Quotes(Diff(cmp, a, b, w), w, b)
  {
    hide Quotes, Align, Merge, MinusTail, PlusTail;
    var s := Align(cmp, a, b, START);
    var merged := Merge(w, b, s.old1, s.old2, -2, -2, s.mapping);
    AlignKeeps(cmp, a, b, START);
    MergeQuotes(w, b, s.old1, s.old2, -2, -2, s.mapping);
    TailsQuote(w, b, s.idx1, s.idx2);
    QuotesConcat(merged, MinusTail(w, s.idx1), w, b);
    QuotesConcat(merged + MinusTail(w, s.idx1), PlusTail(b, s.idx2), w, b);
  }

  /** The diff is empty exactly when the output matches the expectation line by line. */
  lemma EmptyDiffIffMatch(cmp: Compare, a: seq<string>, b: seq<string>, w: seq<string>)
    requires |w| == |a|
    ensures Diff(cmp, a, b, w) == [] <==> Match(cmp, a, b)
  {
    if Diff(cmp, a, b, w) == [] {
      DiffExplainsTheDifference(cmp, a, b, w);
      KeptNone(a);
      KeptNone(b);
    }
    if Match(cmp, a, b) {
      AlignMatch(cmp, a, b, START);
    }
  }

  lemma {:induction false} KeptNone(s: seq<string>)
    ensures Kept(s, []) == s
  {
    if s != [] {
      KeptNone(Front(s));
      Snoc(s);
    }
  }

  lemma {:induction false} AlignMatch(cmp: Compare, a: seq<string>, b: seq<string>, s: Alignment)
    requires Match(cmp, a, b) && s.idx1 == s.idx2 <= |a| && s.old1 == [] && s.old2 == []
    ensures var r := Align(cmp, a, b, s);
            r.old1 == [] && r.old2 == [] && r.idx1 == |a| && r.idx2 == |b|
    decreases |a| - s.idx1
  {
    if s.idx1 < |a| {
      AlignMatch(cmp, a, b, AlignStep(cmp, a, b, s));
    }
  }
}
