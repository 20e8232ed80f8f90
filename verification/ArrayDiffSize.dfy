/** How long the diff is: the look ahead keeps it minimal as far as its counts are exact, and a single
    line that is missing or new is a single entry. */
module ArrayDiffSize {
  import opened Collections
  import opened ArrayDiff
  import opened ArrayDiffAlign

  // ---------------------------------------------------------------- minimal diffs

  /** Wherever the loop from s on looks ahead, it counts the longest common subsequences. */
  ghost predicate CountsExactly(cmp: Compare, a: seq<string>, b: seq<string>, s: Alignment)
    decreases |a| - s.idx1, |b| - s.idx2
  {
    s.idx1 < |a| && s.idx2 < |b| ==>
      && (cmp(a[s.idx1], b[s.idx2]) || ExactAt(cmp, a, b, s.idx1, s.idx2))
      && CountsExactly(cmp, a, b, AlignStep(cmp, a, b, s))
  }

  ghost predicate ExactAt(cmp: Compare, a: seq<string>, b: seq<string>, i: nat, j: nat) {
    && Count(cmp, a, b, i + 1, j, STEPS) == Lcs(cmp, a, b, i + 1, j)
    && Count(cmp, a, b, i, j + 1, STEPS) == Lcs(cmp, a, b, i, j + 1)
  }

  /** The lines of both texts that are paired so far. */
  function Paired(s: Alignment): int {
    s.idx1 - |s.old1|
  }

  ghost predicate Level(s: Alignment) {
    s.idx1 - |s.old1| == s.idx2 - |s.old2|
  }

  /** A step never gains on the longest common subsequence, and loses nothing if its counts are exact. */
  lemma StepPairs(cmp: Compare, a: seq<string>, b: seq<string>, s: Alignment)
    requires s.idx1 < |a| && s.idx2 < |b| && Level(s)
    ensures var t := AlignStep(cmp, a, b, s);
            var before, after := Paired(s) + Lcs(cmp, a, b, s.idx1, s.idx2), Paired(t) + Lcs(cmp, a, b, t.idx1, t.idx2);
            && Level(t) && after <= before
            && (cmp(a[s.idx1], b[s.idx2]) || ExactAt(cmp, a, b, s.idx1, s.idx2) ==> after == before)
  {
    hide Count, Lcs;
    LcsChoice(cmp, a, b, s.idx1, s.idx2);
  }

  lemma LcsChoice(cmp: Compare, a: seq<string>, b: seq<string>, i: nat, j: nat)
    requires i < |a| && j < |b|
    ensures cmp(a[i], b[j]) ==> Lcs(cmp, a, b, i, j) == 1 + Lcs(cmp, a, b, i + 1, j + 1)
    ensures !cmp(a[i], b[j]) ==> Lcs(cmp, a, b, i, j) == Max(Lcs(cmp, a, b, i + 1, j), Lcs(cmp, a, b, i, j + 1))
    ensures Lcs(cmp, a, b, i + 1, j + 1) <= Lcs(cmp, a, b, i + 1, j)
  {
    LcsStep(cmp, a, b, i + 1, j);
  }

  lemma {:induction false} AlignPairs(cmp: Compare, a: seq<string>, b: seq<string>, s: Alignment)
    requires s.idx1 <= |a| && s.idx2 <= |b| && Level(s)
    ensures var r, lcs := Align(cmp, a, b, s), Paired(s) + Lcs(cmp, a, b, s.idx1, s.idx2);
            Level(r) && Paired(r) <= lcs && (CountsExactly(cmp, a, b, s) ==> Paired(r) == lcs)
    decreases |a| - s.idx1 + |b| - s.idx2
  {
    hide AlignStep, Level, ExactAt;
    if s.idx1 < |a| && s.idx2 < |b| {
      AlignUnfolds(cmp, a, b, s);
      StepPairs(cmp, a, b, s);
      StepAdvances(cmp, a, b, s);
      AlignPairs(cmp, a, b, AlignStep(cmp, a, b, s));
    } else {
      LcsAtEnd(cmp, a, b, s.idx1, s.idx2);
      SameLevel(s, s.(mapping := s.mapping[s.idx2 := s.idx1]));
    }
  }

  lemma StepAdvances(cmp: Compare, a: seq<string>, b: seq<string>, s: Alignment)
    requires s.idx1 < |a| && s.idx2 < |b|
    ensures var t := AlignStep(cmp, a, b, s);
            t.idx1 <= |a| && t.idx2 <= |b| && t.idx1 + t.idx2 > s.idx1 + s.idx2
  {
    hide Count;
  }

  lemma SameLevel(s: Alignment, t: Alignment)
    requires Level(s) && t == s.(mapping := t.mapping)
    ensures Level(t)
  {
  }

  /** The number of entries is never less than the lines outside of a longest common subsequence, and
      not more if every look ahead counted exactly. */
  lemma DiffSize(cmp: Compare, a: seq<string>, b: seq<string>, w: seq<string>)
    requires |w| == |a|
    ensures var d, least := Diff(cmp, a, b, w), |a| + |b| - 2 * Lcs(cmp, a, b, 0, 0);
            && |Removed(d)| + |Added(d)| == |d| >= least
            && (CountsExactly(cmp, a, b, START) ==> |d| == least)
  {
    hide Align, CountsExactly, Lcs;
    AlignPairs(cmp, a, b, START);
    DiffLines(cmp, a, b, w);
    AllEntries(Diff(cmp, a, b, w));
  }

  lemma {:induction false} AllEntries(d: seq<Entry>)
    ensures |Removed(d)| + |Added(d)| == |d|
  {
    if d != [] {
      AllEntries(d[1..]);
    }
  }

  // ---------------------------------------------------------------- one line

  /** a is b with one line put in at k. */
  ghost predicate OneMore(cmp: Compare, a: seq<string>, b: seq<string>, k: nat) {
    k <= |b| && |a| == |b| + 1 && Match(cmp, a[..k] + a[k + 1..], b)
  }

  /** And the other way round: b is a with one line put in at k. */
  ghost predicate OneLess(cmp: Compare, a: seq<string>, b: seq<string>, k: nat) {
    k <= |a| && |b| == |a| + 1 && Match(cmp, a, b[..k] + b[k + 1..])
  }

  /** Lines that match one by one to the end are all counted, whatever the budget. */
  lemma {:induction false} RunToEnd(cmp: Compare, a: seq<string>, b: seq<string>, i: nat, j: nat)
    requires i <= |a| && j <= |b| && |a| - i == |b| - j && forall x :: i <= x < |a| ==> cmp(a[x], b[x - i + j])
    ensures CommonRun(cmp, a, b, i, j) == |a| - i
    decreases |a| - i
  {
    if i < |a| {
      assert cmp(a[i], b[i - i + j]);
      forall x | i + 1 <= x < |a| ensures cmp(a[x], b[x - (i + 1) + (j + 1)]) {
        assert cmp(a[x], b[x - i + j]);
      }
      RunToEnd(cmp, a, b, i + 1, j + 1);
    }
  }

  lemma CountRun(cmp: Compare, a: seq<string>, b: seq<string>, i: nat, j: nat, steps: int)
    ensures Count(cmp, a, b, i, j, steps) >= CommonRun(cmp, a, b, i, j)
  {
    hide CommonRun;
  }

  lemma {:induction false} LcsBound(cmp: Compare, a: seq<string>, b: seq<string>, i: nat, j: nat)
    ensures Lcs(cmp, a, b, i, j) <= if i <= |a| then |a| - i else 0
    ensures Lcs(cmp, a, b, i, j) <= if j <= |b| then |b| - j else 0
    decreases |a| - i, |b| - j
  {
    if i < |a| && j < |b| {
      LcsBound(cmp, a, b, i + 1, j + 1);
      LcsBound(cmp, a, b, i + 1, j);
      LcsBound(cmp, a, b, i, j + 1);
    }
  }

  /** Where the line that is missing in b is met, the look ahead says to drop a line of a. */
  lemma DropsOne(cmp: Compare, a: seq<string>, b: seq<string>, i: nat)
    requires |a| == |b| + 1 && i < |b| && forall x :: i <= x < |b| ==> cmp(a[x + 1], b[x])
    ensures Count(cmp, a, b, i + 1, i, STEPS) > Count(cmp, a, b, i, i + 1, STEPS)
  {
    hide Count, Lcs, CommonRun;
    forall x | i + 1 <= x < |a| ensures cmp(a[x], b[x - (i + 1) + i]) {
      assert cmp(a[x - 1 + 1], b[x - 1]);
    }
    RunToEnd(cmp, a, b, i + 1, i);
    CountRun(cmp, a, b, i + 1, i, STEPS);
    CountAtMostLcs(cmp, a, b, i, i + 1, STEPS);
    LcsBound(cmp, a, b, i, i + 1);
  }

  lemma AddsOne(cmp: Compare, a: seq<string>, b: seq<string>, i: nat)
    requires |b| == |a| + 1 && i < |a| && forall x :: i <= x < |a| ==> cmp(a[x], b[x + 1])
    ensures 0 < Count(cmp, a, b, i, i + 1, STEPS) && Count(cmp, a, b, i + 1, i, STEPS) <= Count(cmp, a, b, i, i + 1, STEPS)
  {
    hide Count, Lcs, CommonRun;
    forall x | i <= x < |a| ensures cmp(a[x], b[x - i + (i + 1)]) {
      assert cmp(a[x], b[x + 1]);
    }
    RunToEnd(cmp, a, b, i, i + 1);
    CountRun(cmp, a, b, i, i + 1, STEPS);
    CountAtMostLcs(cmp, a, b, i + 1, i, STEPS);
    LcsBound(cmp, a, b, i + 1, i);
  }

  /** After the one line, the rest matches. */
  lemma {:induction false} AlignRest(cmp: Compare, a: seq<string>, b: seq<string>, s: Alignment)
    requires s.idx1 <= |a| && s.idx2 <= |b| && |a| - s.idx1 == |b| - s.idx2
    requires forall x :: s.idx1 <= x < |a| ==> cmp(a[x], b[x - s.idx1 + s.idx2])
    ensures var r := Align(cmp, a, b, s);
            r.old1 == s.old1 && r.old2 == s.old2 && r.idx1 == |a| && r.idx2 == |b|
    decreases |a| - s.idx1
  {
    hide Count;
    if s.idx1 < |a| {
      assert cmp(a[s.idx1], b[s.idx1 - s.idx1 + s.idx2]);
      var t := AlignStep(cmp, a, b, s);
      forall x | t.idx1 <= x < |a| ensures cmp(a[x], b[x - t.idx1 + t.idx2]) {
        assert cmp(a[x], b[x - s.idx1 + s.idx2]);
      }
      AlignRest(cmp, a, b, t);
    }
  }

  /** Before the line that is missing. */
  lemma {:induction false} AlignMissing(cmp: Compare, a: seq<string>, b: seq<string>, k: nat, s: Alignment)
    requires |a| == |b| + 1 && k <= |b| && s.idx1 == s.idx2 <= |b| && s.old1 == [] && s.old2 == []
    requires (forall x :: 0 <= x < k ==> cmp(a[x], b[x])) && (forall x :: k <= x < |b| ==> cmp(a[x + 1], b[x]))
    ensures var r := Align(cmp, a, b, s);
            && r.old2 == [] && r.idx2 == |b|
            && ((|r.old1| == 1 && r.idx1 == |a| && k < r.old1[0] <= |a|) || (r.old1 == [] && r.idx1 == |b|))
    decreases |b| - s.idx2
  {
    hide Count;
    var i := s.idx1;
    if i < |b| {
      AlignUnfolds(cmp, a, b, s);
      if cmp(a[i], b[i]) {
        AlignMissing(cmp, a, b, k, AlignStep(cmp, a, b, s));
      } else {
        assert k <= i;
        DropsOne(cmp, a, b, i);
        var t := AlignStep(cmp, a, b, s);
        forall x | t.idx1 <= x < |a| ensures cmp(a[x], b[x - t.idx1 + t.idx2]) {
          assert cmp(a[x - 1 + 1], b[x - 1]);
        }
        AlignRest(cmp, a, b, t);
      }
    }
  }

  /** Before the line that is new. */
  lemma {:induction false} AlignNew(cmp: Compare, a: seq<string>, b: seq<string>, k: nat, s: Alignment)
    requires |b| == |a| + 1 && k <= |a| && s.idx1 == s.idx2 <= |a| && s.old1 == [] && s.old2 == []
    requires (forall x :: 0 <= x < k ==> cmp(a[x], b[x])) && (forall x :: k <= x < |a| ==> cmp(a[x], b[x + 1]))
    ensures var r := Align(cmp, a, b, s);
            && r.old1 == [] && r.idx1 == |a|
            && ((|r.old2| == 1 && r.idx2 == |b| && k < r.old2[0] <= |b|) || (r.old2 == [] && r.idx2 == |a|))
    decreases |a| - s.idx1
  {
    hide Count;
    var i := s.idx1;
    if i < |a| {
      AlignUnfolds(cmp, a, b, s);
      if cmp(a[i], b[i]) {
        AlignNew(cmp, a, b, k, AlignStep(cmp, a, b, s));
      } else {
        assert k <= i;
        AddsOne(cmp, a, b, i);
        var t := AlignStep(cmp, a, b, s);
        forall x | t.idx1 <= x < |a| ensures cmp(a[x], b[x - t.idx1 + t.idx2]) {
          assert cmp(a[x], b[x + 1]);
        }
        AlignRest(cmp, a, b, t);
      }
    }
  }

  lemma CutLines(cmp: Compare, a: seq<string>, b: seq<string>, k: nat)
    requires OneMore(cmp, a, b, k)
    ensures (forall x :: 0 <= x < k ==> cmp(a[x], b[x])) && (forall x :: k <= x < |b| ==> cmp(a[x + 1], b[x]))
  {
    var less := a[..k] + a[k + 1..];
    assert forall x :: 0 <= x < k ==> less[x] == a[x];
    assert forall x :: k <= x < |b| ==> less[x] == a[x + 1];
  }

  lemma CutLinesOfB(cmp: Compare, a: seq<string>, b: seq<string>, k: nat)
    requires OneLess(cmp, a, b, k)
    ensures (forall x :: 0 <= x < k ==> cmp(a[x], b[x])) && (forall x :: k <= x < |a| ==> cmp(a[x], b[x + 1]))
  {
    var less := b[..k] + b[k + 1..];
    assert forall x :: 0 <= x < k ==> less[x] == b[x];
    assert forall x :: k <= x < |a| ==> less[x] == b[x + 1];
  }

  /** If one line of the expectation is missing in the output, the diff is this one entry, or the one for
      a later line that reads the same from there. */
  lemma MissingLine(cmp: Compare, a: seq<string>, b: seq<string>, w: seq<string>, k: nat)
    requires |w| == |a| && OneMore(cmp, a, b, k)
    ensures var d := Diff(cmp, a, b, w); |d| == 1 && d[0].Minus? && k < d[0].line <= |a|
  {
    hide Align;
    CutLines(cmp, a, b, k);
    AlignMissing(cmp, a, b, k, START);
    OneEntry(w, b, Align(cmp, a, b, START));
  }

  /** And if one line of the output is new, it is the one entry. */
  lemma NewLine(cmp: Compare, a: seq<string>, b: seq<string>, w: seq<string>, k: nat)
    requires |w| == |a| && OneLess(cmp, a, b, k)
    ensures var d := Diff(cmp, a, b, w); |d| == 1 && d[0].Plus? && k < d[0].line <= |b|
  {
    hide Align;
    CutLinesOfB(cmp, a, b, k);
    AlignNew(cmp, a, b, k, START);
    OneEntry(w, b, Align(cmp, a, b, START));
  }

  lemma OneEntry(w: seq<string>, b: seq<string>, s: Alignment)
    requires s.idx1 <= |w| && s.idx2 <= |b|
    ensures var d := Merge(w, b, s.old1, s.old2, -2, -2, s.mapping) + MinusTail(w, s.idx1) + PlusTail(b, s.idx2);
            && (s.old2 == [] && s.idx2 == |b| && |s.old1| == 1 && s.idx1 == |w| ==> d == [MinusAt(w, s.old1[0])])
            && (s.old2 == [] && s.idx2 == |b| && s.old1 == [] && s.idx1 == |w| - 1 ==> d == [MinusAt(w, |w|)])
            && (s.old1 == [] && s.idx1 == |w| && |s.old2| == 1 && s.idx2 == |b| ==> d == [PlusAt(b, s.old2[0])])
            && (s.old1 == [] && s.idx1 == |w| && s.old2 == [] && s.idx2 == |b| - 1 ==> d == [PlusAt(b, |b|)])
  {
  }

  /** The diff is one missing line if and only if the output is the expectation without one line. */
  lemma MissingLineIff(cmp: Compare, a: seq<string>, b: seq<string>, w: seq<string>)
    requires |w| == |a|
    ensures var d := Diff(cmp, a, b, w); (|d| == 1 && d[0].Minus?) <==> exists k :: OneMore(cmp, a, b, k)
  {
    hide Diff, OneMore;
    var d := Diff(cmp, a, b, w);
    if k :| OneMore(cmp, a, b, k) {
      MissingLine(cmp, a, b, w, k);
    }
    if |d| == 1 && d[0].Minus? {
      DiffExplainsTheDifference(cmp, a, b, w);
      OneGone(cmp, a, b, d);
    }
  }

  lemma OneGone(cmp: Compare, a: seq<string>, b: seq<string>, d: seq<Entry>)
    requires |d| == 1 && d[0].Minus? && LinesUpTo(Removed(d), |a|)
    requires Match(cmp, Kept(a, Removed(d)), Kept(b, Added(d)))
    ensures 1 <= d[0].line && OneMore(cmp, a, b, d[0].line - 1)
  {
    assert d[1..] == [];
    assert Removed(d) == [d[0].line] && Added(d) == [];
    assert 1 <= Removed(d)[0] <= |a|;
    KeptNone(b);
    KeptOne(a, d[0].line);
  }

  lemma {:induction false} KeptOne(s: seq<string>, k: nat)
    ensures 1 <= k <= |s| ==> Kept(s, [k]) == s[..k - 1] + s[k..]
    ensures k > |s| ==> Kept(s, [k]) == s
  {
    if s != [] {
      KeptOne(Front(s), k);
      Snoc(s);
      if 1 <= k < |s| {
        assert s[..k - 1] + s[k..] == (Front(s)[..k - 1] + Front(s)[k..]) + [Last(s)];
      } else if k == |s| {
        assert s[..k - 1] + s[k..] == Front(s);
      }
    }
  }

  /** The diff is one new line if and only if the expectation is the output without one line. */
  lemma NewLineIff(cmp: Compare, a: seq<string>, b: seq<string>, w: seq<string>)
    requires |w| == |a|
    ensures var d := Diff(cmp, a, b, w); (|d| == 1 && d[0].Plus?) <==> exists k :: OneLess(cmp, a, b, k)
  {
    hide Diff, OneLess;
    var d := Diff(cmp, a, b, w);
    if k :| OneLess(cmp, a, b, k) {
      NewLine(cmp, a, b, w, k);
    }
    if |d| == 1 && d[0].Plus? {
      DiffExplainsTheDifference(cmp, a, b, w);
      OneAdded(cmp, a, b, d);
    }
  }

  lemma OneAdded(cmp: Compare, a: seq<string>, b: seq<string>, d: seq<Entry>)
    requires |d| == 1 && d[0].Plus? && LinesUpTo(Added(d), |b|)
    requires Match(cmp, Kept(a, Removed(d)), Kept(b, Added(d)))
    ensures 1 <= d[0].line && OneLess(cmp, a, b, d[0].line - 1)
  {
    assert d[1..] == [];
    assert Added(d) == [d[0].line] && Removed(d) == [];
    assert 1 <= Added(d)[0] <= |b|;
    KeptNone(a);
    KeptOne(b, d[0].line);
  }
}
