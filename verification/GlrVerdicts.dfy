/** When the alternatives of a state are ambiguous, in terms of precedences, mergers and identity only. */
module GlrVerdicts {
  import opened Collections
  import opened GlrShape
  import opened GlrOptions
  import opened GlrResolve

  /** The first option of the highest precedence. */
  function Highest(r: Rules, rule: int -> int, s: seq<int>): (h: int)
    requires s != []
    ensures h in s
  {
    if |s| == 1 then s[0]
    else
      var h := Highest(r, rule, Front(s));
      if r.dprec(rule(Last(s))) > r.dprec(rule(h)) then Last(s) else h
  }

  lemma {:induction false} HighestIsMax(r: Rules, rule: int -> int, s: seq<int>, y: int)
    requires s != [] && y in s
    ensures r.dprec(rule(y)) <= r.dprec(rule(Highest(r, rule, s)))
  {
    if |s| > 1 {
      Snoc(s);
      if y in Front(s) {
        HighestIsMax(r, rule, Front(s), y);
      } else {
        assert y == Last(s);
      }
    }
  }

  /** What is left of a chain: an option that is identical to the highest of those left before it goes. */
  function Left(r: Rules, rule: int -> int, same: Same, chain: seq<int>): (l: seq<int>)
    requires chain != []
    ensures l != [] && forall y :: y in l ==> y in chain
  {
    if |chain| == 1 then chain
    else
      Snoc(chain);
      var l := Left(r, rule, same, Front(chain));
      if same(Highest(r, rule, l), Last(chain)) then l else l + [Last(chain)]
  }

  /** The i-th option clashes with the highest one before it. */
  ghost predicate ClashAt(r: Rules, rule: int -> int, l: seq<int>, i: nat)
    requires 0 < i < |l|
  {
    Clash(r, rule(Highest(r, rule, l[..i])), rule(l[i]))
  }

  ghost predicate NoClash(r: Rules, rule: int -> int, l: seq<int>) {
    forall i: nat :: 0 < i < |l| ==> !ClashAt(r, rule, l, i)
  }

  lemma NoClashMore(r: Rules, rule: int -> int, l: seq<int>, p: int)
    requires l != []
    ensures NoClash(r, rule, l + [p]) <==> NoClash(r, rule, l) && !Clash(r, rule(Highest(r, rule, l)), rule(p))
  {
    hide Clash, Highest;
    var more := l + [p];
    assert more[..|l|] == l && more[|l|] == p;
    forall i: nat | 0 < i < |l| ensures ClashAt(r, rule, more, i) == ClashAt(r, rule, l, i) {
      assert more[..i] == l[..i];
    }
    if NoClash(r, rule, more) {
      assert !ClashAt(r, rule, more, |l|);
      forall i: nat | 0 < i < |l| ensures !ClashAt(r, rule, l, i) {
        assert !ClashAt(r, rule, more, i);
      }
    }
  }

  // ---------------------------------------------------------------- the scan

  /** What the comparisons say of a chain of which `l` is left. */
  ghost predicate Says(r: Rules, rule: int -> int, l: seq<int>, s: Scan)
    requires l != []
  {
    match s
    case Chosen(best, _, kept) => kept == l && best == Highest(r, rule, l) && NoClash(r, rule, l)
    case Ambiguous(x0, x1) =>
      exists i: nat :: 0 < i < |l| && x0 == Highest(r, rule, l[..i]) && x1 == l[i] && ClashAt(r, rule, l, i) && NoClash(r, rule, l[..i])
  }

  /** Whether there are others to merge, after one more option. */
  function Merges(r: Rules, rule: int -> int, best: int, p: int, merge: bool): bool {
    if r.dprec(rule(p)) == r.dprec(rule(best)) then true else merge && r.dprec(rule(p)) < r.dprec(rule(best))
  }

  /** One comparison with the highest option so far. */
  lemma PreferIs(r: Rules, rule: int -> int, same: Same, merge: bool, kept: seq<int>, rest: seq<int>)
    requires kept != [] && rest != []
    ensures var best, p, more := Highest(r, rule, kept), rest[0], kept + [rest[0]];
            var s := ScanRest(r, rule, same, best, merge, kept, rest);
            if same(best, p) then s == ScanRest(r, rule, same, best, merge, kept, rest[1..])
            else if Clash(r, rule(best), rule(p)) then s == Ambiguous(best, p)
            else s == ScanRest(r, rule, same, Highest(r, rule, more), Merges(r, rule, best, p, merge), more, rest[1..])
  {
    var best, p, more := Highest(r, rule, kept), rest[0], kept + [rest[0]];
    assert Front(more) == kept && Last(more) == p;
  }

  lemma {:induction false} LeftGrows(r: Rules, rule: int -> int, same: Same, chain: seq<int>, n: nat)
    requires 0 < n <= |chain|
    ensures Left(r, rule, same, chain[..n]) <= Left(r, rule, same, chain)
    decreases |chain|
  {
    if n == |chain| {
      assert chain[..n] == chain;
    } else {
      assert Front(chain)[..n] == chain[..n];
      LeftGrows(r, rule, same, Front(chain), n);
    }
  }

  lemma LeftStep(r: Rules, rule: int -> int, same: Same, chain: seq<int>, n: nat)
    requires 0 < n < |chain|
    ensures var l := Left(r, rule, same, chain[..n]);
            Left(r, rule, same, chain[..n + 1]) == if same(Highest(r, rule, l), chain[n]) then l else l + [chain[n]]
  {
    assert Front(chain[..n + 1]) == chain[..n] && Last(chain[..n + 1]) == chain[n];
  }

  lemma {:induction false} ScanSays(r: Rules, rule: int -> int, same: Same, merge: bool, chain: seq<int>, n: nat)
    requires 0 < n <= |chain| && NoClash(r, rule, Left(r, rule, same, chain[..n]))
    ensures var kept := Left(r, rule, same, chain[..n]);
            Says(r, rule, Left(r, rule, same, chain), ScanRest(r, rule, same, Highest(r, rule, kept), merge, kept, chain[n..]))
    decreases |chain| - n
  {
    hide Clash, Highest, NoClash, Left, ScanRest;
    var kept := Left(r, rule, same, chain[..n]);
    if n == |chain| {
      assert chain[..n] == chain && chain[n..] == [];
      ScanEnd(r, rule, same, Highest(r, rule, kept), merge, kept);
    } else {
      var best, p, rest := Highest(r, rule, kept), chain[n], chain[n..];
      assert rest[0] == p && rest[1..] == chain[n + 1..];
      PreferIs(r, rule, same, merge, kept, rest);
      LeftStep(r, rule, same, chain, n);
      if same(best, p) {
        ScanSays(r, rule, same, merge, chain, n + 1);
      } else {
        NoClashMore(r, rule, kept, p);
        LeftGrows(r, rule, same, chain, n + 1);
        if Clash(r, rule(best), rule(p)) {
          var l := Left(r, rule, same, chain);
          assert l[..|kept|] == kept && l[|kept|] == p;
          assert ClashAt(r, rule, l, |kept|);
        } else {
          ScanSays(r, rule, same, Merges(r, rule, best, p, merge), chain, n + 1);
        }
      }
    }
  }

  lemma ScanEnd(r: Rules, rule: int -> int, same: Same, best: int, merge: bool, kept: seq<int>)
    ensures ScanRest(r, rule, same, best, merge, kept, []) == Chosen(best, merge, kept)
  {
  }

  /** The verdict on the alternatives of a chain, exactly: with what is left of it, there is an ambiguity
      if and only if some option clashes with the highest one before it, and the first such pair is
      reported; otherwise the highest one is chosen. */
  lemma VerdictIff<V>(items: seq<Item<V>>, r: Rules, chain: seq<int>)
    requires chain != []
    ensures var l, s := Left(r, RuleIn(items), SameIn(items, r), chain), Outcome(items, r, chain);
            && (s.Chosen? <==> NoClash(r, RuleIn(items), l))
            && Says(r, RuleIn(items), l, s)
  {
    hide Clash, NoClash, RuleIn, SameIn, ScanRest;
    var rule, same := RuleIn(items), SameIn(items, r);
    assert chain[..1] == [chain[0]];
    OneLeft(r, rule, same, chain[0]);
    ScanSays(r, rule, same, false, chain, 1);
    SaysWhich(r, rule, Left(r, rule, same, chain), Outcome(items, r, chain));
  }

  lemma OneLeft(r: Rules, rule: int -> int, same: Same, y: int)
    ensures Left(r, rule, same, [y]) == [y] && NoClash(r, rule, [y]) && Highest(r, rule, [y]) == y
  {
  }

  lemma SaysWhich(r: Rules, rule: int -> int, l: seq<int>, s: Scan)
    requires l != [] && Says(r, rule, l, s)
    ensures s.Chosen? <==> NoClash(r, rule, l)
  {
    hide ClashAt;
  }

  // ---------------------------------------------------------------- what that means

  /** Options with and without precedence. */
  ghost predicate Mixed(r: Rules, rule: int -> int, l: seq<int>) {
    exists i, j :: 0 <= i < |l| && 0 <= j < |l| && r.dprec(rule(l[i])) == 0 && r.dprec(rule(l[j])) != 0
  }

  /** An option of the highest precedence so far that cannot be merged with the first one of it. */
  ghost predicate Unmergeable(r: Rules, rule: int -> int, l: seq<int>) {
    exists i: nat :: 0 < i < |l| && UnmergeableAt(r, rule, l, i)
  }

  ghost predicate UnmergeableAt(r: Rules, rule: int -> int, l: seq<int>, i: nat)
    requires 0 < i < |l|
  {
    var h := rule(Highest(r, rule, l[..i]));
    r.dprec(h) == r.dprec(rule(l[i])) && !CanMerge(r, h, rule(l[i]))
  }

  /** Without a clash, all options have the same precedence as the highest or all have one. */
  lemma {:induction false} NoClashUniform(r: Rules, rule: int -> int, l: seq<int>)
    requires l != [] && NoClash(r, rule, l)
    ensures !Mixed(r, rule, l)
  {
    if |l| > 1 {
      hide Highest, NoClash;
      var front := Front(l);
      Snoc(l);
      NoClashMore(r, rule, front, Last(l));
      NoClashUniform(r, rule, front);
      var h := Highest(r, rule, front);
      var k :| 0 <= k < |front| && front[k] == h;
      assert !Mixed(r, rule, front);
      forall i, j | 0 <= i < |l| && 0 <= j < |l| ensures !(r.dprec(rule(l[i])) == 0 && r.dprec(rule(l[j])) != 0) {
        if i < |front| {
          assert front[i] == l[i];
        }
        if j < |front| {
          assert front[j] == l[j];
        }
      }
    }
  }

  /** A clash is one of the two. */
  lemma ClashesIff(r: Rules, rule: int -> int, l: seq<int>)
    requires l != []
    ensures !NoClash(r, rule, l) <==> Mixed(r, rule, l) || Unmergeable(r, rule, l)
  {
    hide Highest;
    if NoClash(r, rule, l) {
      NoClashUniform(r, rule, l);
      forall i: nat | 0 < i < |l| ensures !UnmergeableAt(r, rule, l, i) {
        assert !ClashAt(r, rule, l, i);
      }
    } else {
      var i: nat :| 0 < i < |l| && ClashAt(r, rule, l, i);
      var h := Highest(r, rule, l[..i]);
      if r.dprec(rule(h)) == r.dprec(rule(l[i])) {
        assert UnmergeableAt(r, rule, l, i);
      } else {
        var k :| 0 <= k < i && l[..i][k] == h;
        assert l[k] == h;
      }
    }
  }

  /** An ambiguity is reported if and only if options with precedences meet options without one, or an
      option of the highest precedence so far cannot be merged with the first one of it. */
  lemma AmbiguousIff<V>(items: seq<Item<V>>, r: Rules, chain: seq<int>)
    requires chain != []
    ensures var l := Left(r, RuleIn(items), SameIn(items, r), chain);
            Outcome(items, r, chain).Ambiguous? <==> Mixed(r, RuleIn(items), l) || Unmergeable(r, RuleIn(items), l)
  {
    hide NoClash, RuleIn, SameIn, ScanRest, Left, Mixed, Unmergeable, Outcome;
    VerdictIff(items, r, chain);
    ClashesIff(r, RuleIn(items), Left(r, RuleIn(items), SameIn(items, r), chain));
  }

  ghost predicate AllDifferent(s: seq<int>) {
    forall i, j :: 0 <= i < j < |s| ==> s[i] != s[j]
  }

  /** With precedences that are all there and all different, nothing is ambiguous: the alternative of
      the highest precedence is chosen, and there is none to merge. */
  lemma DifferentPrecedences<V>(items: seq<Item<V>>, r: Rules, chain: seq<int>)
    requires chain != [] && forall y :: y in chain ==> r.dprec(RuleOf(items, y)) != 0
    requires forall y, z :: y in chain && z in chain && y != z ==> r.dprec(RuleOf(items, y)) != r.dprec(RuleOf(items, z))
    requires AllDifferent(chain)
    ensures var s := Outcome(items, r, chain);
            && s.Chosen? && s.best in chain && !s.merge
            && forall y :: y in chain ==> r.dprec(RuleOf(items, y)) <= r.dprec(RuleOf(items, s.best))
  {
    hide NoClash, ScanRest, Outcome, BestAt, Left, Identical, RuleOf, Highest;
    var rule, same := RuleIn(items), SameIn(items, r);
    var l, s := Left(r, rule, same, chain), Outcome(items, r, chain);
    VerdictIff(items, r, chain);
    LeftDistinct(r, rule, same, chain);
    forall i: nat | 0 < i < |l| ensures !UnmergeableAt(r, rule, l, i) {
      var h := Highest(r, rule, l[..i]);
      var k :| 0 <= k < i && l[..i][k] == h;
      assert l[k] in chain && l[i] in chain;
    }
    AmbiguousIff(items, r, chain);
    OutcomeIsBest(items, r, chain);
    NothingToMerge(r, rule, s.best, s.merge, l);
    forall y | y in chain ensures r.dprec(rule(y)) <= r.dprec(rule(s.best)) {
      SameRules(items, r);
      LeftMax(r, rule, same, chain, y);
    }
  }

  lemma SameRules<V>(items: seq<Item<V>>, r: Rules)
    ensures forall x, y :: SameIn(items, r)(x, y) ==> RuleIn(items)(x) == RuleIn(items)(y)
  {
    hide RhsFits, SamePositions;
  }

  lemma {:induction false} LeftDistinct(r: Rules, rule: int -> int, same: Same, chain: seq<int>)
    requires chain != [] && AllDifferent(chain)
    ensures AllDifferent(Left(r, rule, same, chain))
  {
    hide Highest;
    if |chain| > 1 {
      LeftDistinct(r, rule, same, Front(chain));
      forall y | y in Front(chain) ensures y != Last(chain) {
        var i :| 0 <= i < |chain| - 1 && Front(chain)[i] == y;
        assert chain[i] == y;
      }
      var l := Left(r, rule, same, Front(chain));
      forall i | 0 <= i < |l| ensures l[i] != Last(chain) {
        assert l[i] in l;
      }
      DistinctMore(l, Last(chain));
    } else {
      assert chain == [chain[0]];
    }
  }

  lemma DistinctMore(l: seq<int>, p: int)
    requires AllDifferent(l) && forall i :: 0 <= i < |l| ==> l[i] != p
    ensures AllDifferent(l + [p])
  {
  }

  /** No option of the chain, left or not, has a higher precedence than the highest one that is left. */
  lemma {:induction false} LeftMax(r: Rules, rule: int -> int, same: Same, chain: seq<int>, y: int)
    requires chain != [] && y in chain && forall x, z :: same(x, z) ==> rule(x) == rule(z)
    ensures r.dprec(rule(y)) <= r.dprec(rule(Highest(r, rule, Left(r, rule, same, chain))))
  {
    hide Highest;
    if |chain| == 1 {
      HighestIsMax(r, rule, chain, y);
    } else {
      Snoc(chain);
      var l, p := Left(r, rule, same, Front(chain)), Last(chain);
      var h := Highest(r, rule, l);
      if y in Front(chain) {
        LeftMax(r, rule, same, Front(chain), y);
      } else {
        assert y == p;
      }
      if !same(h, p) {
        assert h in l + [p] && p in l + [p];
        HighestIsMax(r, rule, l + [p], h);
        HighestIsMax(r, rule, l + [p], p);
      }
    }
  }

  lemma NothingToMerge(r: Rules, rule: int -> int, best: int, merge: bool, l: seq<int>)
    requires Best(r, rule, best, merge, l)
    requires forall i, j :: 0 <= i < j < |l| ==> r.dprec(rule(l[i])) != r.dprec(rule(l[j]))
    ensures !merge
  {
  }
}
