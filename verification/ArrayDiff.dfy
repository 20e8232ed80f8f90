/** The line diff of expected and actual output: a search with a step budget that looks ahead for
    equal lines, the alignment it drives, and the merge of removed and added lines into one list. */
module ArrayDiff {
  import opened Collections

  /** Whether an expected line, a text or a regular expression, matches an output line. */
  type Compare = (string, string) -> bool

  // ---------------------------------------------------------------- looking ahead

  /** The longest common subsequence of the suffixes a[i..] and b[j..], as a reference. */
  function Lcs(cmp: Compare, a: seq<string>, b: seq<string>, i: nat, j: nat): nat
    decreases |a| - i, |b| - j
  {
    if i >= |a| || j >= |b| then 0
    else if cmp(a[i], b[j]) then 1 + Lcs(cmp, a, b, i + 1, j + 1)
    else Max(Lcs(cmp, a, b, i + 1, j), Lcs(cmp, a, b, i, j + 1))
  }

  function Max(x: nat, y: nat): nat {
    if x > y then x else y
  }

  /** A matching of lines: related pairs of positions, increasing on both sides. */
  ghost predicate IsMatching(cmp: Compare, a: seq<string>, b: seq<string>, pairs: seq<(nat, nat)>) {
    && (forall k :: 0 <= k < |pairs| ==> pairs[k].0 < |a| && pairs[k].1 < |b| && cmp(a[pairs[k].0], b[pairs[k].1]))
    && (forall k, l :: 0 <= k < l < |pairs| ==> pairs[k].0 < pairs[l].0 && pairs[k].1 < pairs[l].1)
  }

  /** How many lines match one by one from positions i and j on. */
  function CommonRun(cmp: Compare, a: seq<string>, b: seq<string>, i: nat, j: nat): (n: nat)
    ensures i <= |a| && j <= |b| ==> i + n <= |a| && j + n <= |b|
    decreases |a| - i
  {
    if i < |a| && j < |b| && cmp(a[i], b[j]) then 1 + CommonRun(cmp, a, b, i + 1, j + 1) else 0
  }

  /** Half of h, rounded toward zero as the conversion to int does. */
  function TruncatedHalf(h: int): int {
    if h >= 0 then h / 2 else -((-h) / 2)
  }

  /** What the budgeted search returns. */
  function Count(cmp: Compare, a: seq<string>, b: seq<string>, i: nat, j: nat, steps: int): nat
    decreases if steps > 0 then steps else 0
  {
    var run := CommonRun(cmp, a, b, i, j);
    var left := steps - run - 1;
    if left > 0 then
      run + Max(SkipFirst(cmp, a, b, i + run + 1, j + run, left), SkipSecond(cmp, a, b, i + run, j + run + 1, left))
    else
      run
  }

  /** The best result after dropping lines of a; the budget counts in halves. */
  function SkipFirst(cmp: Compare, a: seq<string>, b: seq<string>, i: nat, j: nat, halves: int): nat
    decreases if halves > 0 then halves else 0
  {
    if i < |a| && halves > 0 then
      Max(Count(cmp, a, b, i, j, TruncatedHalf(halves - 2)), SkipFirst(cmp, a, b, i + 1, j, halves - 2))
    else
      0
  }

  /** The best result after dropping lines of b. */
  function SkipSecond(cmp: Compare, a: seq<string>, b: seq<string>, i: nat, j: nat, steps: int): nat
    decreases if steps > 0 then steps else 0
  {
    if j < |b| && steps > 0 then
      Max(Count(cmp, a, b, i, j, steps - 1), SkipSecond(cmp, a, b, i, j + 1, steps - 1))
    else
      0
  }

  /** The search itself. */
  method CountArrayDiff(cmp: Compare, a: seq<string>, b: seq<string>, idx1: nat, idx2: nat, steps: int)
    returns (equal: nat)
    requires idx1 <= |a| && idx2 <= |b|
    ensures equal == Count(cmp, a, b, idx1, idx2, steps)
    decreases if steps > 0 then steps else 0
  {
    hide SkipFirst, SkipSecond;
    equal := 0;
    var i, j, left := idx1, idx2, steps;
    while i < |a| && j < |b| && cmp(a[i], b[j])
      invariant i == idx1 + equal <= |a| && j == idx2 + equal <= |b| && left == steps - equal
      invariant CommonRun(cmp, a, b, idx1, idx2) == equal + CommonRun(cmp, a, b, i, j)
      decreases |a| - i
    {
      i, j, equal, left := i + 1, j + 1, equal + 1, left - 1;
    }
    left := left - 1;
    if left > 0 {
      var eq1 := BestWithoutFirst(cmp, a, b, i, j, left);
      var eq2 := BestWithoutSecond(cmp, a, b, i, j, left);
      if eq1 > eq2 {
        equal := equal + eq1;
      } else if eq2 > 0 {
        equal := equal + eq2;
      }
    }
  }

  /** The loop that tries to drop lines of a from line i on. */
  method BestWithoutFirst(cmp: Compare, a: seq<string>, b: seq<string>, i: nat, j: nat, steps: int) returns (eq1: nat)
    requires i <= |a| && j <= |b| && steps > 0
    ensures eq1 == SkipFirst(cmp, a, b, i + 1, j, steps)
    decreases steps
  {
    hide Count;
    eq1 := 0;
    var halves := steps;
    var ofs1 := i + 1;
    while ofs1 < |a| && halves > 0
      invariant i + 1 <= ofs1 <= |a| + 1 && halves <= steps
      invariant SkipFirst(cmp, a, b, i + 1, j, steps) == Max(eq1, SkipFirst(cmp, a, b, ofs1, j, halves))
      decreases |a| - ofs1
    {
      halves := halves - 2;
      var eq := CountArrayDiff(cmp, a, b, ofs1, j, TruncatedHalf(halves));
      if eq > eq1 {
        eq1 := eq;
      }
      ofs1 := ofs1 + 1;
    }
  }

  /** The loop that tries to drop lines of b from line j on. */
  method BestWithoutSecond(cmp: Compare, a: seq<string>, b: seq<string>, i: nat, j: nat, steps: int) returns (eq2: nat)
    requires i <= |a| && j <= |b| && steps > 0
    ensures eq2 == SkipSecond(cmp, a, b, i, j + 1, steps)
    decreases steps
  {
    hide Count;
    eq2 := 0;
    var st := steps;
    var ofs2 := j + 1;
    while ofs2 < |b| && st > 0
      invariant j + 1 <= ofs2 <= |b| + 1 && st <= steps
      invariant SkipSecond(cmp, a, b, i, j + 1, steps) == Max(eq2, SkipSecond(cmp, a, b, i, ofs2, st))
      decreases |b| - ofs2
    {
      st := st - 1;
      var eq := CountArrayDiff(cmp, a, b, i, ofs2, st);
      if eq > eq2 {
        eq2 := eq;
      }
      ofs2 := ofs2 + 1;
    }
  }

  // ---------------------------------------------------------------- the reference is the longest

  lemma {:induction false} LcsStep(cmp: Compare, a: seq<string>, b: seq<string>, i: nat, j: nat)
    ensures Lcs(cmp, a, b, i + 1, j) <= Lcs(cmp, a, b, i, j) <= 1 + Lcs(cmp, a, b, i + 1, j)
    ensures Lcs(cmp, a, b, i, j + 1) <= Lcs(cmp, a, b, i, j) <= 1 + Lcs(cmp, a, b, i, j + 1)
    decreases |a| - i, |b| - j
  {
    if i < |a| && j < |b| {
      LcsStep(cmp, a, b, i + 1, j);
      LcsStep(cmp, a, b, i, j + 1);
    }
  }

  /** Dropping p lines of a and q lines of b cannot help. */
  lemma {:induction false} LcsLater(cmp: Compare, a: seq<string>, b: seq<string>, i: nat, j: nat, p: nat, q: nat)
    ensures Lcs(cmp, a, b, i + p, j + q) <= Lcs(cmp, a, b, i, j)
    decreases p + q
  {
    if p > 0 {
      LcsStep(cmp, a, b, i, j);
      LcsLater(cmp, a, b, i + 1, j, p - 1, q);
    } else if q > 0 {
      LcsStep(cmp, a, b, i, j);
      LcsLater(cmp, a, b, i, j + 1, p, q - 1);
    }
  }

  /** No matching is longer than the reference. */
  lemma {:induction false} MatchingsAreShorter(cmp: Compare, a: seq<string>, b: seq<string>, pairs: seq<(nat, nat)>, i: nat, j: nat)
    requires IsMatching(cmp, a, b, pairs)
    requires forall k :: 0 <= k < |pairs| ==> i <= pairs[k].0 && j <= pairs[k].1
    ensures |pairs| <= Lcs(cmp, a, b, i, j)
  {
    if pairs != [] {
      var (x, y) := pairs[0];
      var rest := pairs[1..];
      assert forall k :: 0 <= k < |rest| ==> rest[k] == pairs[k + 1];
      MatchingsAreShorter(cmp, a, b, rest, x + 1, y + 1);
      LcsLater(cmp, a, b, i, j, x - i, y - j);
    }
  }

  /** Some matching is as long as the reference. */
  lemma {:induction false} MatchingOfLcs(cmp: Compare, a: seq<string>, b: seq<string>, i: nat, j: nat) returns (pairs: seq<(nat, nat)>)
    ensures IsMatching(cmp, a, b, pairs) && |pairs| == Lcs(cmp, a, b, i, j)
    ensures forall k :: 0 <= k < |pairs| ==> i <= pairs[k].0 && j <= pairs[k].1
    decreases |a| - i, |b| - j
  {
    if i >= |a| || j >= |b| {
      pairs := [];
    } else if cmp(a[i], b[j]) {
      var rest := MatchingOfLcs(cmp, a, b, i + 1, j + 1);
      pairs := [(i, j)] + rest;
    } else if Lcs(cmp, a, b, i + 1, j) > Lcs(cmp, a, b, i, j + 1) {
      pairs := MatchingOfLcs(cmp, a, b, i + 1, j);
    } else {
      pairs := MatchingOfLcs(cmp, a, b, i, j + 1);
    }
  }

  // ---------------------------------------------------------------- the search against the reference

  lemma {:induction false} RunIsOptimal(cmp: Compare, a: seq<string>, b: seq<string>, i: nat, j: nat)
    ensures var n := CommonRun(cmp, a, b, i, j);
            Lcs(cmp, a, b, i, j) == n + Lcs(cmp, a, b, i + n, j + n)
    decreases |a| - i
  {
    if i < |a| && j < |b| && cmp(a[i], b[j]) {
      RunIsOptimal(cmp, a, b, i + 1, j + 1);
    }
  }

  lemma {:induction false} CountAtMostLcs(cmp: Compare, a: seq<string>, b: seq<string>, i: nat, j: nat, steps: int)
    ensures Count(cmp, a, b, i, j, steps) <= Lcs(cmp, a, b, i, j)
    decreases if steps > 0 then steps else 0
  {
    var run := CommonRun(cmp, a, b, i, j);
    var left := steps - run - 1;
    RunIsOptimal(cmp, a, b, i, j);
    if left > 0 {
      SkipFirstAtMostLcs(cmp, a, b, i + run + 1, j + run, left);
      SkipSecondAtMostLcs(cmp, a, b, i + run, j + run + 1, left);
      LcsStep(cmp, a, b, i + run, j + run);
    }
  }

  lemma {:induction false} SkipFirstAtMostLcs(cmp: Compare, a: seq<string>, b: seq<string>, i: nat, j: nat, halves: int)
    ensures SkipFirst(cmp, a, b, i, j, halves) <= Lcs(cmp, a, b, i, j)
    decreases if halves > 0 then halves else 0
  {
    if i < |a| && halves > 0 {
      CountAtMostLcs(cmp, a, b, i, j, TruncatedHalf(halves - 2));
      SkipFirstAtMostLcs(cmp, a, b, i + 1, j, halves - 2);
      LcsStep(cmp, a, b, i, j);
    }
  }

  lemma {:induction false} SkipSecondAtMostLcs(cmp: Compare, a: seq<string>, b: seq<string>, i: nat, j: nat, steps: int)
    ensures SkipSecond(cmp, a, b, i, j, steps) <= Lcs(cmp, a, b, i, j)
    decreases if steps > 0 then steps else 0
  {
    if j < |b| && steps > 0 {
      CountAtMostLcs(cmp, a, b, i, j, steps - 1);
      SkipSecondAtMostLcs(cmp, a, b, i, j + 1, steps - 1);
      LcsStep(cmp, a, b, i, j);
    }
  }

  /** A budget that lets the search look everywhere among d remaining lines. */
  function Enough(d: nat): nat {
    if d == 0 then 0 else 2 * Enough(d - 1) + 3 * d + 2
  }

  lemma {:induction false} EnoughGrows(d: nat, e: nat)
    requires d <= e
    ensures Enough(d) <= Enough(e)
  {
    if d < e {
      EnoughGrows(d, e - 1);
    }
  }

  /** With enough budget the search returns exactly the longest common subsequence. */
  lemma {:induction false} CountIsLcs(cmp: Compare, a: seq<string>, b: seq<string>, i: nat, j: nat, steps: int)
    requires i <= |a| && j <= |b| && steps >= Enough(|a| - i + |b| - j)
    ensures Count(cmp, a, b, i, j, steps) == Lcs(cmp, a, b, i, j)
    decreases if steps > 0 then steps else 0
  {
    var run := CommonRun(cmp, a, b, i, j);
    var left := steps - run - 1;
    var i', j' := i + run, j + run;
    hide Lcs, SkipFirst, SkipSecond;
    RunIsOptimal(cmp, a, b, i, j);
    CountAtMostLcs(cmp, a, b, i, j, steps);
    var d := |a| - i + |b| - j;
    LcsAtEnd(cmp, a, b, i', j');
    if i' < |a| && j' < |b| {
      LookIsLcs(cmp, a, b, i', j', d, left);
      RunStops(cmp, a, b, i, j);
    }
  }

  lemma LcsAtEnd(cmp: Compare, a: seq<string>, b: seq<string>, i: nat, j: nat)
    ensures i >= |a| || j >= |b| ==> Lcs(cmp, a, b, i, j) == 0
    ensures i < |a| && j < |b| && !cmp(a[i], b[j]) ==>
              Lcs(cmp, a, b, i, j) == Max(Lcs(cmp, a, b, i + 1, j), Lcs(cmp, a, b, i, j + 1))
  {
  }

  lemma {:induction false} RunStops(cmp: Compare, a: seq<string>, b: seq<string>, i: nat, j: nat)
    ensures var n := CommonRun(cmp, a, b, i, j);
            i + n < |a| && j + n < |b| ==> !cmp(a[i + n], b[j + n])
    decreases |a| - i
  {
    if i < |a| && j < |b| && cmp(a[i], b[j]) {
      RunStops(cmp, a, b, i + 1, j + 1);
    }
  }

  lemma LookIsLcs(cmp: Compare, a: seq<string>, b: seq<string>, i: nat, j: nat, d: nat, left: int)
    requires i < |a| && j < |b| && d >= |a| - i + |b| - j
    requires left >= 2 * Enough(d - 1) + 2 * d
    ensures left > 0
    ensures SkipFirst(cmp, a, b, i + 1, j, left) == Lcs(cmp, a, b, i + 1, j)
    ensures SkipSecond(cmp, a, b, i, j + 1, left) == Lcs(cmp, a, b, i, j + 1)
    decreases left, 1
  {
    hide Lcs, Count, CommonRun;
    SkipFirstAtMostLcs(cmp, a, b, i + 1, j, left);
    SkipSecondAtMostLcs(cmp, a, b, i, j + 1, left);
    LcsAtEnd(cmp, a, b, i + 1, j);
    LcsAtEnd(cmp, a, b, i, j + 1);
    if i + 1 < |a| {
      EnoughGrows(|a| - i - 1 + |b| - j, d - 1);
      CountIsLcs(cmp, a, b, i + 1, j, TruncatedHalf(left - 2));
    }
    if j + 1 < |b| {
      EnoughGrows(|a| - i + |b| - j - 1, d - 1);
      CountIsLcs(cmp, a, b, i, j + 1, left - 1);
    }
  }
}
