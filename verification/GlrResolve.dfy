/** The comparison of a state's alternatives: identical ones are merged and dropped, the others are
    compared by precedence, in place, whatever they share. */
module GlrResolve {
  import opened Collections
  import opened GlrShape
  import opened GlrOptions

  // ---------------------------------------------------------------- right-hand sides

  lemma {:induction false} BackBack<V>(items: seq<Item<V>>, t: int, i: nat, j: nat)
    requires Descending(items) && StateAt(items, t) && i + j < |Path(items, t)|
    ensures j < |Path(items, Back(items, t, i))| && Back(items, t, i + j) == Back(items, Back(items, t, i), j)
    decreases i
  {
    hide Descending, Path;
    BackPath(items, t, i);
    if i > 0 {
      PathStep(items, t);
      BackBack(items, items[t].pred, i - 1, j);
    }
  }

  lemma BackOne<V>(items: seq<Item<V>>, t: int, i: nat)
    requires Descending(items) && StateAt(items, t) && i + 1 < |Path(items, t)|
    ensures Back(items, t, i + 1) == items[Back(items, t, i)].pred
  {
    hide Descending, Path;
    BackBack(items, t, i, 1);
    PathStep(items, Back(items, t, i));
  }

  /** States at different depths of stacks of the same height are different. */
  lemma DepthsDiffer<V>(items: seq<Item<V>>, t: int, t': int, i: nat, j: nat)
    requires Descending(items) && StateAt(items, t) && StateAt(items, t') && |Path(items, t)| == |Path(items, t')|
    requires i < |Path(items, t)| && j < |Path(items, t)| && i != j
    ensures Back(items, t, i) != Back(items, t', j)
  {
    BackPath(items, t, i);
    BackPath(items, t', j);
  }

  /** The n states of a right-hand side are on the stack. */
  ghost predicate RhsFits<V>(items: seq<Item<V>>, t: int, n: nat) {
    Descending(items) && StateAt(items, t) && n < |Path(items, t)|
  }

  ghost predicate SamePositions<V>(items: seq<Item<V>>, t0: int, t1: int, n: nat)
    requires RhsFits(items, t0, n) && RhsFits(items, t1, n)
  {
    forall i :: 0 <= i < n ==> items[Back(items, t0, i)].posn == items[Back(items, t1, i)].posn
  }

  /** The loop of yyidenticalOptions, for options of the same rule. */
  method ComparePositions<V>(a: array<Item<V>>, used: nat, t0: int, t1: int, n: nat) returns (same: bool)
    requires used <= a.Length
    requires RhsFits(a[..used], t0, n) && RhsFits(a[..used], t1, n)
    ensures same == SamePositions(a[..used], t0, t1, n)
  {
    hide Descending, Path;
    var yys0, yys1 := t0, t1;
    for i := 0 to n
      invariant yys0 == Back(a[..used], t0, i) && yys1 == Back(a[..used], t1, i)
      invariant forall j :: 0 <= j < i ==> a[Back(a[..used], t0, j)].posn == a[Back(a[..used], t1, j)].posn
    {
      if a[yys0].posn != a[yys1].posn {
        return false;
      }
      BackOne(a[..used], t0, i);
      BackOne(a[..used], t1, i);
      yys0, yys1 := a[yys0].pred, a[yys1].pred;
    }
    same := true;
  }

  ghost predicate SameSemantics<V>(items: seq<Item<V>>, now: seq<Item<V>>, t0: int, t1: int, n: nat)
    requires RhsFits(items, t0, n) && RhsFits(items, t1, n) && SameFrame(items, now)
  {
    forall i :: 0 <= i < n ==> now[Back(items, t0, i)].sem == now[Back(items, t1, i)].sem
  }

  /** The states of both right-hand sides are among the given ones. */
  ghost predicate Covered<V>(items: seq<Item<V>>, t: int, n: nat, states: set<int>)
    requires RhsFits(items, t, n)
  {
    forall i :: 0 <= i < n ==> Back(items, t, i) in states
  }

  /** yymergeOptionSets: afterwards the two right-hand sides have the same semantics, state by state, if
      they are at the same height; in any case nothing is lost. */
  method MergeOptionSets<V>(a: array<Item<V>>, used: nat, t0: int, t1: int, n: nat, ghost u: set<int>, ghost states: set<int>)
    requires used <= a.Length
    requires RhsFits(a[..used], t0, n) && RhsFits(a[..used], t1, n)
    requires Mergeable(a[..used], u, states) && Covered(a[..used], t0, n, states) && Covered(a[..used], t1, n, states)
    modifies a
    ensures Mergeable(a[..used], u, states) && Changes(old(a[..used]), a[..used], u, states)
    ensures LosesNothing(old(a[..used]), a[..used])
    ensures old(|Path(a[..used], t0)| == |Path(a[..used], t1)|) ==> SameSemantics(old(a[..used]), a[..used], t0, t1, n)
  {
    hide Descending, Path, Mergeable, Changes, LosesNothing;
    ghost var items := a[..used];
    ghost var level := |Path(items, t0)| == |Path(items, t1)|;
    var yys0, yys1 := t0, t1;
    NoChange(items, u, states);
    for i := 0 to n
      invariant yys0 == Back(items, t0, i) && yys1 == Back(items, t1, i)
      invariant Mergeable(a[..used], u, states) && Changes(items, a[..used], u, states) && SameFrame(items, a[..used])
      invariant LosesNothing(items, a[..used]) && (level ==> SameSemantics(items, a[..used], t0, t1, i))
    {
      if yys0 == yys1 {
        RestEqual(items, t0, t1, i, n);
        return;
      }
      ghost var before := a[..used];
      assert yys0 in states && yys1 in states;
      MergeableClosed(before, u, states);
      MergeStates(a, used, yys0, yys1, u, states);
      OneMoreChange(items, before, a[..used], u, states, {yys0, yys1});
      LosesNothingTwice(items, before, a[..used]);
      if level {
        KeepsEarlier(items, before, a[..used], t0, t1, i, u);
      }
      BackOne(items, t0, i);
      BackOne(items, t1, i);
      yys0, yys1 := a[yys0].pred, a[yys1].pred;
    }
  }

  lemma MergeableClosed<V>(items: seq<Item<V>>, u: set<int>, states: set<int>)
    requires Mergeable(items, u, states)
    ensures Closed(items, u)
  {
  }

  lemma NoChange<V>(items: seq<Item<V>>, u: set<int>, states: set<int>)
    ensures Changes(items, items, u, states) && SameFrame(items, items) && LosesNothing(items, items)
  {
  }

  lemma OneMoreChange<V>(items: seq<Item<V>>, before: seq<Item<V>>, now: seq<Item<V>>, u: set<int>, states: set<int>, some: set<int>)
    requires Changes(items, before, u, states) && Changes(before, now, u, some) && some <= states
    ensures Changes(items, now, u, states) && SameFrame(items, now)
  {
  }

  lemma RestEqual<V>(items: seq<Item<V>>, t0: int, t1: int, i: nat, n: nat)
    requires RhsFits(items, t0, n) && RhsFits(items, t1, n) && i < n && Back(items, t0, i) == Back(items, t1, i)
    ensures forall j :: i <= j < n ==> Back(items, t0, j) == Back(items, t1, j)
  {
    hide Descending, Path, Back;
    forall j | i <= j < n ensures Back(items, t0, j) == Back(items, t1, j) {
      BackBack(items, t0, i, j - i);
      BackBack(items, t1, i, j - i);
    }
  }

  lemma KeepsEarlier<V>(items: seq<Item<V>>, before: seq<Item<V>>, now: seq<Item<V>>, t0: int, t1: int, i: nat, u: set<int>)
    requires RhsFits(items, t0, i + 1) && RhsFits(items, t1, i + 1) && |Path(items, t0)| == |Path(items, t1)|
    requires SameFrame(items, before) && SameFrame(items, now) && SameSemantics(items, before, t0, t1, i)
    requires Changes(before, now, u, {Back(items, t0, i), Back(items, t1, i)}) && Closed(before, u)
    requires now[Back(items, t0, i)].sem == now[Back(items, t1, i)].sem
    ensures SameSemantics(items, now, t0, t1, i + 1)
  {
    hide Descending, Path;
    forall j | 0 <= j < i + 1 ensures now[Back(items, t0, j)].sem == now[Back(items, t1, j)].sem {
      if j < i {
        DepthsDiffer(items, t0, t0, j, i);
        DepthsDiffer(items, t0, t1, j, i);
        DepthsDiffer(items, t1, t0, j, i);
        DepthsDiffer(items, t1, t1, j, i);
        assert !ChoiceAt(before, Back(items, t0, j)) && !ChoiceAt(before, Back(items, t1, j));
      }
    }
  }

  // ---------------------------------------------------------------- precedence

  /** yydprec, yymerger and yyr2, by rule. */
  datatype Rules = Rules(dprec: int -> int, merger: int -> int, length: int -> nat)

  datatype Preference = Unrelated | MergeBoth | First | Second

  /** yypreference */
  function Prefer(r: Rules, r0: int, r1: int): Preference {
    var p0, p1 := r.dprec(r0), r.dprec(r1);
    if p0 == p1 then if r.merger(r0) == 0 || r.merger(r0) != r.merger(r1) then Unrelated else MergeBoth
    else if p0 == 0 || p1 == 0 then Unrelated
    else if p0 < p1 then Second
    else First
  }

  /** Two rules cannot be compared: they have the same precedence and no common merger, or different
      precedences of which one is missing. */
  predicate Clash(r: Rules, r0: int, r1: int) {
    if r.dprec(r0) == r.dprec(r1) then !CanMerge(r, r0, r1) else r.dprec(r0) == 0 || r.dprec(r1) == 0
  }

  /** They share a merger. */
  predicate CanMerge(r: Rules, r0: int, r1: int) {
    r.merger(r0) == r.merger(r1) && r.merger(r0) != 0
  }

  /** Some alternatives of the grammar cannot be decided between. */
  ghost predicate Undecided(r: Rules) {
    exists r0, r1 :: Clash(r, r0, r1)
  }

  lemma UnrelatedClash(r: Rules, r0: int, r1: int)
    requires Prefer(r, r0, r1) == Unrelated
    ensures Undecided(r)
  {
    assert Clash(r, r0, r1);
  }

  /** The outcome of comparing all options: an ambiguity, or the best one and whether there are others
      to merge, with the options that are left. */
  datatype Scan = Ambiguous(x0: int, x1: int) | Chosen(best: int, merge: bool, kept: seq<int>)

  type Same = (int, int) -> bool

  /** The loop of yyresolveValue on the chain: `best` so far, whether to merge, what is kept, what is
      left to look at. */
  function ScanRest(r: Rules, rule: int -> int, same: Same, best: int, merge: bool, kept: seq<int>, rest: seq<int>): Scan
    decreases |rest|
  {
    if rest == [] then Chosen(best, merge, kept)
    else
      var p := rest[0];
      if same(best, p) then ScanRest(r, rule, same, best, merge, kept, rest[1..])
      else
        match Prefer(r, rule(best), rule(p))
        case Unrelated => Ambiguous(best, p)
        case MergeBoth => ScanRest(r, rule, same, best, true, kept + [p], rest[1..])
        case First => ScanRest(r, rule, same, best, merge, kept + [p], rest[1..])
        case Second => ScanRest(r, rule, same, p, false, kept + [p], rest[1..])
  }

  /** `best` is the first of the highest precedence in `kept`; `merge` says whether there are others of
      that precedence, all of which can be merged with it. */
  ghost predicate Best(r: Rules, rule: int -> int, best: int, merge: bool, kept: seq<int>) {
    exists k :: 0 <= k < |kept| && kept[k] == best && BestAt(r, rule, k, merge, kept)
  }

  ghost predicate BestAt(r: Rules, rule: int -> int, k: nat, merge: bool, kept: seq<int>)
    requires k < |kept|
  {
    var prec := r.dprec(rule(kept[k]));
    && (forall i :: 0 <= i < k ==> r.dprec(rule(kept[i])) < prec)
    && (forall i :: k < i < |kept| ==> r.dprec(rule(kept[i])) <= prec)
    && (merge <==> exists i :: k < i < |kept| && r.dprec(rule(kept[i])) == prec)
    && (forall i :: k < i < |kept| && r.dprec(rule(kept[i])) == prec ==>
          r.merger(rule(kept[i])) == r.merger(rule(kept[k])) != 0)
  }

  lemma BestStep(r: Rules, rule: int -> int, best: int, merge: bool, kept: seq<int>, p: int)
    requires Best(r, rule, best, merge, kept)
    ensures match Prefer(r, rule(best), rule(p))
            case Unrelated => true
            case MergeBoth => Best(r, rule, best, true, kept + [p])
            case First => Best(r, rule, best, merge, kept + [p])
            case Second => Best(r, rule, p, false, kept + [p])
  {
    hide BestAt;
    var k :| 0 <= k < |kept| && kept[k] == best && BestAt(r, rule, k, merge, kept);
    var more := kept + [p];
    assert more[k] == best && more[|kept|] == p;
    match Prefer(r, rule(best), rule(p))
    case Unrelated =>
    case MergeBoth => AddEqual(r, rule, k, merge, kept, p);
    case First => AddLower(r, rule, k, merge, kept, p);
    case Second => AddHigher(r, rule, k, merge, kept, p);
  }

  lemma AddEqual(r: Rules, rule: int -> int, k: nat, merge: bool, kept: seq<int>, p: int)
    requires k < |kept| && BestAt(r, rule, k, merge, kept) && r.dprec(rule(p)) == r.dprec(rule(kept[k]))
    requires r.merger(rule(p)) == r.merger(rule(kept[k])) != 0
    ensures BestAt(r, rule, k, true, kept + [p])
  {
    var more := kept + [p];
    assert forall i :: 0 <= i < |more| ==> more[i] == if i < |kept| then kept[i] else p;
    assert r.dprec(rule(more[|kept|])) == r.dprec(rule(kept[k]));
  }

  lemma AddLower(r: Rules, rule: int -> int, k: nat, merge: bool, kept: seq<int>, p: int)
    requires k < |kept| && BestAt(r, rule, k, merge, kept) && r.dprec(rule(p)) < r.dprec(rule(kept[k]))
    ensures BestAt(r, rule, k, merge, kept + [p])
  {
    var more := kept + [p];
    assert forall i :: 0 <= i < |more| ==> more[i] == if i < |kept| then kept[i] else p;
    if merge {
      var i :| k < i < |kept| && r.dprec(rule(kept[i])) == r.dprec(rule(kept[k]));
      assert r.dprec(rule(more[i])) == r.dprec(rule(kept[k]));
    }
  }

  lemma AddHigher(r: Rules, rule: int -> int, k: nat, merge: bool, kept: seq<int>, p: int)
    requires k < |kept| && BestAt(r, rule, k, merge, kept) && r.dprec(rule(p)) > r.dprec(rule(kept[k]))
    ensures BestAt(r, rule, |kept|, false, kept + [p])
  {
    var more := kept + [p];
    assert forall i :: 0 <= i < |more| ==> more[i] == if i < |kept| then kept[i] else p;
  }

  /** If no ambiguity is reported, the option that is evaluated is the first one of the highest
      precedence among those that are left, and others are merged into it exactly if there are any of
      that precedence. */
  lemma {:induction false} ScanChoosesBest(r: Rules, rule: int -> int, same: Same, best: int, merge: bool,
                                           kept: seq<int>, rest: seq<int>)
    requires Best(r, rule, best, merge, kept)
    ensures var s := ScanRest(r, rule, same, best, merge, kept, rest);
            s.Chosen? ==> Best(r, rule, s.best, s.merge, s.kept)
    decreases |rest|
  {
    if rest != [] {
      hide Best, Prefer;
      BestStep(r, rule, best, merge, kept, rest[0]);
      match Prefer(r, rule(best), rule(rest[0])) {
        case Unrelated =>
        case MergeBoth => ScanChoosesBest(r, rule, same, best, true, kept + [rest[0]], rest[1..]);
        case First => ScanChoosesBest(r, rule, same, best, merge, kept + [rest[0]], rest[1..]);
        case Second => ScanChoosesBest(r, rule, same, rest[0], false, kept + [rest[0]], rest[1..]);
      }
      ScanChoosesBest(r, rule, same, best, merge, kept, rest[1..]);
    }
  }

  lemma {:induction false} BestInChain(r: Rules, rule: int -> int, same: Same, best: int, merge: bool,
                                       kept: seq<int>, rest: seq<int>)
    ensures var s := ScanRest(r, rule, same, best, merge, kept, rest);
            s.Chosen? ==> s.best == best || s.best in rest
    decreases |rest|
  {
    if rest != [] {
      Cons(rest);
      BestInChain(r, rule, same, best, merge, kept, rest[1..]);
      BestInChain(r, rule, same, best, true, kept + [rest[0]], rest[1..]);
      BestInChain(r, rule, same, best, merge, kept + [rest[0]], rest[1..]);
      BestInChain(r, rule, same, rest[0], false, kept + [rest[0]], rest[1..]);
    }
  }

  // ---------------------------------------------------------------- the scan in place

  /** yyidenticalOptions: the same rule, with right-hand sides whose symbols end at the same positions. */
  ghost predicate Identical<V>(items: seq<Item<V>>, r: Rules, y0: int, y1: int) {
    && ChoiceAt(items, y0) && ChoiceAt(items, y1) && items[y0].rule == items[y1].rule
    && var n := r.length(items[y0].rule);
       RhsFits(items, items[y0].rhs, n) && RhsFits(items, items[y1].rhs, n)
       && SamePositions(items, items[y0].rhs, items[y1].rhs, n)
  }

  ghost function RuleOf<V>(items: seq<Item<V>>, y: int): int {
    if ChoiceAt(items, y) then items[y].rule else 0
  }

  /** An option whose right-hand side is on the stack, with its states among the given ones. */
  ghost predicate OptionFits<V>(items: seq<Item<V>>, r: Rules, y: int, states: set<int>) {
    && ChoiceAt(items, y)
    && var n := r.length(items[y].rule);
       RhsFits(items, items[y].rhs, n) && Covered(items, items[y].rhs, n, states)
  }

  lemma FrameDescends<V>(items: seq<Item<V>>, now: seq<Item<V>>)
    requires Descending(items) && SameFrame(items, now)
    ensures Descending(now) && SameChains(items, now)
    ensures forall t :: StateAt(items, t) <==> StateAt(now, t)
    ensures forall t :: ChoiceAt(items, t) <==> ChoiceAt(now, t)
  {
    forall i | StateAt(now, i) ensures Stands(now, i) {
      assert StateAt(items, i);
      assert i != 0 ==> Below(items, i);
    }
  }

  lemma {:induction false} FrameBack<V>(items: seq<Item<V>>, now: seq<Item<V>>, t: int, n: nat)
    requires Descending(items) && Descending(now) && SameChains(items, now) && RhsFits(items, t, n)
    ensures RhsFits(now, t, n) && Path(now, t) == Path(items, t) && Back(now, t, n) == Back(items, t, n)
    ensures items[Back(items, t, n)].posn == now[Back(items, t, n)].posn
    decreases n
  {
    hide Descending, Path;
    SamePath(items, now, t);
    if n > 0 {
      PathStep(items, t);
      PathStep(now, t);
      FrameBack(items, now, items[t].pred, n - 1);
    }
  }

  lemma FrameFits<V>(items: seq<Item<V>>, now: seq<Item<V>>, r: Rules, y: int, states: set<int>)
    requires SameFrame(items, now) && OptionFits(items, r, y, states)
    ensures OptionFits(now, r, y, states) && now[y].rule == items[y].rule && now[y].rhs == items[y].rhs
  {
    hide Descending, Path, Back, SameChains;
    FrameDescends(items, now);
    var t, n := items[y].rhs, r.length(items[y].rule);
    FrameBack(items, now, t, n);
    forall i | 0 <= i < n ensures Back(now, t, i) in states {
      FrameBack(items, now, t, i);
      assert Back(items, t, i) in states;
    }
  }

  lemma FrameIdentical<V>(items: seq<Item<V>>, now: seq<Item<V>>, r: Rules, y0: int, y1: int, n: nat)
    requires SameFrame(items, now) && ChoiceAt(items, y0) && ChoiceAt(items, y1) && items[y0].rule == items[y1].rule
    requires n == r.length(items[y0].rule) && RhsFits(items, items[y0].rhs, n) && RhsFits(items, items[y1].rhs, n)
    requires RhsFits(now, items[y0].rhs, n) && RhsFits(now, items[y1].rhs, n)
    ensures Identical(items, r, y0, y1) <==> SamePositions(now, items[y0].rhs, items[y1].rhs, n)
  {
    hide Descending, Path, Back, SameChains;
    FrameDescends(items, now);
    forall i | 0 <= i < n
      ensures items[Back(items, items[y0].rhs, i)].posn == now[Back(now, items[y0].rhs, i)].posn
      ensures items[Back(items, items[y1].rhs, i)].posn == now[Back(now, items[y1].rhs, i)].posn
    {
      FrameBack(items, now, items[y0].rhs, i);
      FrameBack(items, now, items[y1].rhs, i);
    }
  }

  /** All options of a chain can be merged without touching the chain itself. */
  ghost predicate Apart<V>(items: seq<Item<V>>, r: Rules, chain: seq<int>, u: set<int>, states: set<int>) {
    forall i :: 0 <= i < |chain| ==> chain[i] !in u && OptionFits(items, r, chain[i], states)
  }

  /** The scan is at `cur`: the options in `kept` are linked up to it. */
  ghost predicate Scanning<V>(items: seq<Item<V>>, yys: int, kept: seq<int>, cur: int, u: set<int>, states: set<int>) {
    && Mergeable(items, u, states) && Strung(items, yys, kept, cur) && HeadAt(items, cur) && kept != []
    && yys !in states && (forall i :: 0 <= i < |kept| ==> kept[i] > cur && kept[i] !in u)
    && (forall x :: x in Chain(items, cur) ==> x !in u)
  }

  lemma {:induction false} ChainKept<V>(items: seq<Item<V>>, now: seq<Item<V>>, z: int)
    requires Chained(items) && Chained(now) && HeadAt(items, z) && |now| == |items|
    requires forall x :: x in Chain(items, z) ==> 0 <= x < |items| && now[x] == items[x]
    ensures HeadAt(now, z) && Chain(now, z) == Chain(items, z)
    decreases z + 1
  {
    hide Chained;
    if z != NONE {
      ChainStep(items, z);
      assert z in Chain(items, z);
      forall x | x in Chain(items, items[z].next) ensures x in Chain(items, z) {
        assert x in [z] + Chain(items, items[z].next);
      }
      ChainKept(items, now, items[z].next);
      ChainStep(now, z);
    }
  }

  lemma Parts<V>(items: seq<Item<V>>, u: set<int>, states: set<int>)
    requires Mergeable(items, u, states)
    ensures Chained(items) && AllOwn(items) && Closed(items, u)
    ensures forall i :: ChoiceAt(items, i) ==> i !in states
    ensures forall i :: StateAt(items, i) ==> i !in u
  {
  }

  lemma StrungKept<V>(items: seq<Item<V>>, now: seq<Item<V>>, s: int, done: seq<int>, cur: int)
    requires Strung(items, s, done, cur) && |now| == |items| && now[s] == items[s] && HeadAt(now, now[s].sem.first)
    requires forall i :: 0 <= i < |done| ==> 0 <= done[i] < |items| && now[done[i]] == items[done[i]]
    ensures Strung(now, s, done, cur)
  {
  }

  /** Merging options does not disturb the chain they are in. */
  lemma MergeKeepsScan<V>(items: seq<Item<V>>, now: seq<Item<V>>, yys: int, kept: seq<int>, cur: int, u: set<int>, states: set<int>)
    requires Scanning(items, yys, kept, cur, u, states) && Changes(items, now, u, states) && Mergeable(now, u, states)
    ensures Scanning(now, yys, kept, cur, u, states) && Chain(now, cur) == Chain(items, cur)
  {
    hide Mergeable, Chained, Chain, NextBelow, Closed, AllOwn;
    Parts(items, u, states);
    Parts(now, u, states);
    ChainDecreases(items, cur);
    forall x | x in Chain(items, cur) ensures 0 <= x < |items| && now[x] == items[x] {
      assert ChoiceAt(items, x);
    }
    ChainKept(items, now, cur);
    forall i | 0 <= i < |kept| ensures 0 <= kept[i] < |items| && now[kept[i]] == items[kept[i]] {
      assert ChoiceAt(items, kept[i]);
    }
    StrungKept(items, now, yys, kept, cur);
  }

  lemma StrungMore<V>(items: seq<Item<V>>, s: int, done: seq<int>, cur: int)
    requires Strung(items, s, done, cur) && ChoiceAt(items, cur)
    ensures Strung(items, s, done + [cur], items[cur].next)
  {
  }

  /** An option stays in the chain. */
  lemma KeepOne<V>(items: seq<Item<V>>, yys: int, kept: seq<int>, cur: int, u: set<int>, states: set<int>)
    requires Scanning(items, yys, kept, cur, u, states) && cur != NONE
    ensures ChoiceAt(items, cur) && Scanning(items, yys, kept + [cur], items[cur].next, u, states)
    ensures Chain(items, cur) == [cur] + Chain(items, items[cur].next)
  {
    hide Mergeable, Chained, Chain, Closed, AllOwn, Strung;
    Parts(items, u, states);
    ChainStep(items, cur);
    StrungMore(items, yys, kept, cur);
  }

  /** An option is taken out of the chain. */
  lemma DropOne<V>(items: seq<Item<V>>, yys: int, kept: seq<int>, cur: int, u: set<int>, states: set<int>)
    requires Scanning(items, yys, kept, cur, u, states) && cur != NONE
    ensures ChoiceAt(items, cur) && ChoiceAt(items, Last(kept))
    ensures var now := Store(items, yys, Last(kept), items[cur].next);
            && Scanning(now, yys, kept, items[cur].next, u, states) && SameFrame(items, now)
            && Chain(items, cur) == [cur] + Chain(now, items[cur].next)
  {
    hide Mergeable, Chained, Chain, Closed, AllOwn, Strung;
    var next, last := items[cur].next, Last(kept);
    Parts(items, u, states);
    ChainStep(items, cur);
    LastKept(items, yys, kept, cur);
    StoreFrame(items, yys, kept, cur, next);
    var now := Store(items, yys, last, next);
    assert last == kept[|kept| - 1];
    DropMergeable(items, last, next, u, states);
    ChainFrame(items, now, next);
  }

  lemma LastKept<V>(items: seq<Item<V>>, s: int, kept: seq<int>, cur: int)
    requires Strung(items, s, kept, cur) && kept != []
    ensures ChoiceAt(items, Last(kept)) && CellOf(kept) == Last(kept) != NONE
  {
    assert ChoiceAt(items, kept[|kept| - 1]);
  }

  lemma DropMergeable<V>(items: seq<Item<V>>, last: int, next: int, u: set<int>, states: set<int>)
    requires Mergeable(items, u, states) && ChoiceAt(items, last) && last !in u
    requires Chained(items[last := items[last].(next := next)])
    ensures Mergeable(items[last := items[last].(next := next)], u, states)
  {
    var now := items[last := items[last].(next := next)];
    forall i | StateAt(now, i) && now[i].sem.Unresolved? ensures HeadAt(now, now[i].sem.first) {
      assert StateAt(items, i) && HeadAt(items, items[i].sem.first);
    }
    forall i | i in u ensures ChoiceAt(now, i) && In(u, now[i].next) {
      assert ChoiceAt(items, i) && In(u, items[i].next);
    }
    forall i | i in states ensures StateAt(now, i) && (now[i].sem.Unresolved? ==> In(u, now[i].sem.first)) {
      assert StateAt(items, i);
    }
  }

  // ---------------------------------------------------------------- what a resolution may change

  /** The right-hand sides of all options are on the stack. */
  ghost predicate Backed<V>(items: seq<Item<V>>, r: Rules) {
    Descending(items) && forall y :: ChoiceAt(items, y) ==> BackedAt(items, r, y)
  }

  ghost predicate BackedAt<V>(items: seq<Item<V>>, r: Rules, y: int)
    requires ChoiceAt(items, y)
  {
    RhsFits(items, items[y].rhs, r.length(items[y].rule))
  }

  /** The resolution of a state may change the options in `w` and the states in `around`. The states on
      the right-hand sides of those options are in `states`, and the options of these in `u`. */
  datatype Scope = Scope(u: set<int>, states: set<int>, w: set<int>, around: set<int>)

  ghost predicate Within<V>(items: seq<Item<V>>, r: Rules, k: Scope) {
    && k.u <= k.w && k.states <= k.around
    && Mergeable(items, k.u, k.states) && Mergeable(items, k.w, k.around) && Backed(items, r)
    && forall y :: y in k.w ==> OptionFits(items, r, y, k.states)
  }

  lemma WithinFacts<V>(items: seq<Item<V>>, r: Rules, k: Scope, y: int)
    requires Within(items, r, k) && y in k.w
    ensures ChoiceAt(items, y) && OptionFits(items, r, y, k.states) && In(k.w, items[y].next) && HeadAt(items, items[y].next)
    ensures items[y].next < y && (y in k.u ==> In(k.u, items[y].next))
    ensures Mergeable(items, k.u, k.states) && Mergeable(items, k.w, k.around)
  {
    hide OptionFits, Backed, AllOwn;
    assert NextBelow(items, y);
  }

  lemma FrameBacked<V>(items: seq<Item<V>>, now: seq<Item<V>>, r: Rules)
    requires SameFrame(items, now) && Backed(items, r)
    ensures Backed(now, r)
  {
    hide Descending, Path, Back, SameChains;
    FrameDescends(items, now);
    forall y | ChoiceAt(now, y) ensures BackedAt(now, r, y) {
      assert ChoiceAt(items, y) && BackedAt(items, r, y);
      FrameBack(items, now, items[y].rhs, r.length(items[y].rule));
    }
  }

  /** Changes below the options are changes within the scope. */
  lemma Widen<V>(before: seq<Item<V>>, now: seq<Item<V>>, r: Rules, k: Scope)
    requires Within(before, r, k) && Changes(before, now, k.u, k.states) && Mergeable(now, k.u, k.states)
    ensures Within(now, r, k) && Changes(before, now, k.w, k.around)
  {
    hide OptionFits, Backed, Chained, AllOwn;
    FrameBacked(before, now, r);
    forall i | i in k.w ensures ChoiceAt(now, i) && In(k.w, now[i].next) {
      assert ChoiceAt(before, i) && In(k.w, before[i].next);
    }
    forall i | i in k.around ensures StateAt(now, i) && (now[i].sem.Unresolved? ==> In(k.w, now[i].sem.first)) {
      assert StateAt(before, i);
    }
    forall y | y in k.w ensures OptionFits(now, r, y, k.states) {
      FrameFits(before, now, r, y, k.states);
    }
  }

  /** The array after the option y is taken out of the chain behind prev. */
  ghost function Dropped<V>(items: seq<Item<V>>, prev: int, y: int): seq<Item<V>>
    requires ChoiceAt(items, prev) && ChoiceAt(items, y)
  {
    items[prev := items[prev].(next := items[y].next)]
  }

  lemma DropWithin<V>(items: seq<Item<V>>, r: Rules, k: Scope, prev: int, y: int)
    requires Within(items, r, k) && prev in k.w && y in k.w && y < prev && (prev in k.u ==> y in k.u)
    ensures ChoiceAt(items, prev) && ChoiceAt(items, y)
    ensures var now := Dropped(items, prev, y);
            && Within(now, r, k) && Changes(items, now, k.w, k.around) && LosesNothing(items, now)
  {
    hide OptionFits, Backed, Within;
    WithinFacts(items, r, k, prev);
    WithinFacts(items, r, k, y);
    DropKeeps(items, k.u, k.states, prev, y);
    DropKeeps(items, k.w, k.around, prev, y);
    DropFits(items, r, k, prev, y);
  }

  lemma DropFits<V>(items: seq<Item<V>>, r: Rules, k: Scope, prev: int, y: int)
    requires Within(items, r, k) && ChoiceAt(items, prev) && ChoiceAt(items, y)
    requires var now := Dropped(items, prev, y);
             SameFrame(items, now) && Mergeable(now, k.u, k.states) && Mergeable(now, k.w, k.around)
    ensures Within(Dropped(items, prev, y), r, k)
  {
    hide OptionFits, Backed, Mergeable;
    var now := Dropped(items, prev, y);
    FrameBacked(items, now, r);
    forall x | x in k.w ensures OptionFits(now, r, x, k.states) {
      FrameFits(items, now, r, x, k.states);
    }
  }

  lemma DropKeeps<V>(items: seq<Item<V>>, u: set<int>, states: set<int>, prev: int, y: int)
    requires Mergeable(items, u, states) && ChoiceAt(items, prev) && ChoiceAt(items, y) && y < prev && (prev in u ==> y in u)
    ensures var now := Dropped(items, prev, y);
            Mergeable(now, u, states) && SameFrame(items, now) && LosesNothing(items, now)
  {
    var now := Dropped(items, prev, y);
    assert NextBelow(items, y);
    forall i | ChoiceAt(now, i) ensures NextBelow(now, i) {
      assert ChoiceAt(items, i) && NextBelow(items, i);
    }
    forall i | i in u ensures ChoiceAt(now, i) && In(u, now[i].next) {
      assert ChoiceAt(items, i) && In(u, items[i].next);
    }
    forall i | StateAt(now, i) && now[i].sem.Unresolved? ensures HeadAt(now, now[i].sem.first) {
      assert StateAt(items, i);
    }
    forall i | i in states ensures StateAt(now, i) && (now[i].sem.Unresolved? ==> In(u, now[i].sem.first)) {
      assert StateAt(items, i);
    }
    forall i | StateAt(now, i) ensures Filled(items) ==> FilledAt(now, i) {
      assert StateAt(items, i) && (Filled(items) ==> FilledAt(items, i));
    }
  }

  /** What every turn of the scan keeps, whatever the options share: it stays within its scope. */
  ghost predicate Scannable<V>(items: seq<Item<V>>, now: seq<Item<V>>, r: Rules, best: int, prev: int, k: Scope) {
    && Within(now, r, k) && Changes(items, now, k.w, k.around) && LosesNothing(items, now)
    && best in k.w && prev in k.w
  }

  lemma ScannableFacts<V>(items: seq<Item<V>>, now: seq<Item<V>>, r: Rules, best: int, prev: int, k: Scope)
    requires Scannable(items, now, r, best, prev, k)
    ensures ChoiceAt(now, best) && OptionFits(now, r, best, k.states) && ChoiceAt(now, prev) && HeadAt(now, now[prev].next)
    ensures var p := now[prev].next;
            p != NONE ==>
              && ChoiceAt(now, p) && OptionFits(now, r, p, k.states) && now[p].next < p < prev && HeadAt(now, now[p].next)
              && (prev in k.u ==> p in k.u) && Scannable(items, now, r, best, p, k) && Scannable(items, now, r, p, p, k)
    ensures Mergeable(now, k.u, k.states) && Mergeable(now, k.w, k.around) && SameFrame(items, now)
  {
    hide OptionFits, Within, LosesNothing, Mergeable;
    WithinFacts(now, r, k, best);
    WithinFacts(now, r, k, prev);
    if now[prev].next != NONE {
      WithinFacts(now, r, k, now[prev].next);
    }
  }

  // ---------------------------------------------------------------- one option

  /** yyidenticalOptions */
  method IdenticalOptions<V>(a: array<Item<V>>, used: nat, r: Rules, y0: int, y1: int, ghost states: set<int>) returns (b: bool)
    requires used <= a.Length
    requires OptionFits(a[..used], r, y0, states) && OptionFits(a[..used], r, y1, states)
    ensures b == Identical(a[..used], r, y0, y1)
  {
    hide Descending, Path, Back, Covered;
    if a[y0].rule != a[y1].rule {
      return false;
    }
    b := ComparePositions(a, used, a[y0].rhs, a[y1].rhs, r.length(a[y0].rule));
  }

  lemma SameIdentical<V>(items: seq<Item<V>>, now: seq<Item<V>>, r: Rules, y0: int, y1: int, states: set<int>)
    requires SameFrame(items, now) && OptionFits(items, r, y0, states) && OptionFits(items, r, y1, states)
    ensures Identical(now, r, y0, y1) == Identical(items, r, y0, y1)
  {
    hide Descending, Path, Back, Covered, SamePositions;
    FrameFits(items, now, r, y0, states);
    FrameFits(items, now, r, y1, states);
    if items[y0].rule == items[y1].rule {
      FrameIdentical(items, now, r, y0, y1, r.length(items[y0].rule));
    }
  }

  /** Identical options are merged, and the second one is taken out of the chain. If the scan is of a
      chain apart from what is merged, it goes on after the second one. */
  method AbsorbOption<V>(a: array<Item<V>>, used: nat, yys: nat, r: Rules, y0: int, prev: int, y1: int,
                         ghost items: seq<Item<V>>, ghost kept: seq<int>, ghost k: Scope)
    requires used <= a.Length
    requires Scannable(items, a[..used], r, y0, prev, k) && ChoiceAt(a[..used], prev) && y1 == a[prev].next != NONE
    requires ChoiceAt(a[..used], y0) && ChoiceAt(a[..used], y1) && a[y0].rule == a[y1].rule && kept != [] && prev == Last(kept)
    modifies a
    ensures Scannable(items, a[..used], r, y0, prev, k) && ChoiceAt(a[..used], prev) && a[prev].next < y1
    ensures old(Scanning(a[..used], yys, kept, y1, k.u, k.states)) ==>
              && Scanning(a[..used], yys, kept, a[prev].next, k.u, k.states)
              && old(Chain(a[..used], y1)) == [y1] + Chain(a[..used], a[prev].next)
  {
    hide Descending, Path, Back, Mergeable, Chained, Chain, Covered, Strung, Scanning, Within, Changes, LosesNothing, Scannable;
    ghost var before := a[..used];
    ScannableFacts(items, before, r, y0, prev, k);
    MergeOptionSets(a, used, a[y0].rhs, a[y1].rhs, r.length(a[y0].rule), k.u, k.states);
    ghost var merged := a[..used];
    AbsorbedWithin(items, before, merged, r, y0, prev, y1, k);
    if Scanning(before, yys, kept, y1, k.u, k.states) {
      AbsorbedScans(before, merged, yys, kept, y1, k.u, k.states);
    }
    a[prev] := a[prev].(next := a[y1].next);
    assert a[..used] == Dropped(merged, prev, y1);
  }

  lemma AbsorbedWithin<V>(items: seq<Item<V>>, before: seq<Item<V>>, merged: seq<Item<V>>, r: Rules, best: int, prev: int, y: int, k: Scope)
    requires Scannable(items, before, r, best, prev, k) && ChoiceAt(before, prev) && y == before[prev].next != NONE
    requires Mergeable(merged, k.u, k.states) && Changes(before, merged, k.u, k.states) && LosesNothing(before, merged)
    ensures ChoiceAt(merged, prev) && ChoiceAt(merged, y) && merged[y].next < y
    ensures Scannable(items, Dropped(merged, prev, y), r, best, prev, k)
  {
    hide OptionFits, Within, LosesNothing, Mergeable;
    ScannableFacts(items, before, r, best, prev, k);
    Widen(before, merged, r, k);
    WithinFacts(merged, r, k, prev);
    WithinFacts(merged, r, k, y);
    DropWithin(merged, r, k, prev, y);
    var now := Dropped(merged, prev, y);
    ScannableTwice(items, before, merged, k);
    ScannableTwice(items, merged, now, k);
  }

  lemma ScannableTwice<V>(items: seq<Item<V>>, before: seq<Item<V>>, now: seq<Item<V>>, k: Scope)
    requires Changes(items, before, k.w, k.around) && LosesNothing(items, before)
    requires Changes(before, now, k.w, k.around) && LosesNothing(before, now)
    ensures Changes(items, now, k.w, k.around) && LosesNothing(items, now)
  {
    hide LosesNothing;
    OneMoreChange(items, before, now, k.w, k.around, k.around);
    LosesNothingTwice(items, before, now);
  }

  lemma AbsorbedScans<V>(before: seq<Item<V>>, merged: seq<Item<V>>, yys: int, kept: seq<int>, y: int, u: set<int>, states: set<int>)
    requires Scanning(before, yys, kept, y, u, states) && y != NONE
    requires Mergeable(merged, u, states) && Changes(before, merged, u, states)
    ensures kept != [] && ChoiceAt(merged, Last(kept)) && ChoiceAt(merged, y) && Chained(before) && HeadAt(before, y)
    ensures var now := Dropped(merged, Last(kept), y);
            && Scanning(now, yys, kept, merged[y].next, u, states) && Chained(now) && HeadAt(now, merged[y].next)
            && Chain(before, y) == [y] + Chain(now, merged[y].next)
  {
    hide Mergeable, Changes, Strung, Chain, Chained;
    Parts(before, u, states);
    MergeKeepsScan(before, merged, yys, kept, y, u, states);
    Parts(merged, u, states);
    DropOne(merged, yys, kept, y, u, states);
    ScanningParts(Dropped(merged, Last(kept), y), yys, kept, merged[y].next, u, states);
  }

  lemma ScanningParts<V>(items: seq<Item<V>>, yys: int, kept: seq<int>, cur: int, u: set<int>, states: set<int>)
    requires Scanning(items, yys, kept, cur, u, states)
    ensures Chained(items) && HeadAt(items, cur)
  {
  }

  lemma NextIsBelow<V>(items: seq<Item<V>>, y: int, u: set<int>, states: set<int>)
    requires Mergeable(items, u, states) && ChoiceAt(items, y)
    ensures items[y].next < y
  {
    assert NextBelow(items, y);
  }

  lemma StartScan<V>(items: seq<Item<V>>, yys: int, r: Rules, u: set<int>, states: set<int>)
    requires Mergeable(items, u, states) && yys !in states && OwnsChain(items, yys) && items[yys].sem.first != NONE
    requires Chained(items) && Apart(items, r, Chain(items, items[yys].sem.first), u, states)
    ensures var y := items[yys].sem.first;
            && ChoiceAt(items, y) && items[y].next < y && HeadAt(items, items[y].next) && Scanning(items, yys, [y], items[y].next, u, states)
            && Chain(items, y) == [y] + Chain(items, items[y].next)
  {
    var y := items[yys].sem.first;
    hide Mergeable, Chained, Chain, OptionFits;
    ChainStep(items, y);
    var chain := Chain(items, y);
    forall x | x in Chain(items, items[y].next) ensures x !in u {
      assert x in chain;
      var i :| 0 <= i < |chain| && chain[i] == x;
    }
    assert chain[0] !in u;
  }

  /** What the scan of a chain in place says. */
  datatype Verdict = Ambiguity(x0: int, x1: int) | Selected(best: int, merge: bool)

  lemma EndScan<V>(items: seq<Item<V>>, yys: int, kept: seq<int>, u: set<int>, states: set<int>)
    requires Scanning(items, yys, kept, NONE, u, states)
    ensures Chained(items) && OwnsChain(items, yys) && Chain(items, items[yys].sem.first) == kept
    ensures Chain(items, NONE) == []
  {
    StrungChain(items, yys, kept, NONE);
    EmptyConcat(kept);
  }

  /** Where the scan of the chain in `items` stands: the array is `now`, `best` is the best option so
      far, `kept` the options left in the chain, the last of which is before the next one. */
  ghost predicate Standing<V>(items: seq<Item<V>>, now: seq<Item<V>>, yys: int, r: Rules, best: int, kept: seq<int>, u: set<int>, states: set<int>)
  {
    && SameFrame(items, now) && ChoiceAt(items, best) && kept != [] && ChoiceAt(now, Last(kept))
    && Scanning(now, yys, kept, now[Last(kept)].next, u, states)
    && Apart(items, r, [best] + Chain(now, now[Last(kept)].next), u, states)
  }

  /** The options that are still to be looked at. */
  ghost function Ahead<V>(items: seq<Item<V>>, now: seq<Item<V>>, yys: int, r: Rules, best: int, kept: seq<int>, u: set<int>, states: set<int>): seq<int>
    requires Standing(items, now, yys, r, best, kept, u, states)
  {
    Chain(now, now[Last(kept)].next)
  }

  lemma StandingFacts<V>(items: seq<Item<V>>, now: seq<Item<V>>, yys: int, r: Rules, best: int, kept: seq<int>, u: set<int>, states: set<int>)
    requires Standing(items, now, yys, r, best, kept, u, states)
    ensures kept != [] && ChoiceAt(now, Last(kept)) && ChoiceAt(now, best) && now[best].rule == RuleOf(items, best)
    ensures var p := now[Last(kept)].next;
            var ahead := Ahead(items, now, yys, r, best, kept, u, states);
            if p == NONE then ahead == []
            else
              && ChoiceAt(now, p) && now[p].rule == RuleOf(items, p) && now[p].next < p
              && OptionFits(items, r, best, states) && OptionFits(items, r, p, states)
              && Scanning(now, yys, kept, p, u, states) && ahead != [] && ahead[0] == p
              && Standing(items, now, yys, r, best, kept + [p], u, states)
              && Standing(items, now, yys, r, p, kept + [p], u, states)
              && ahead[1..] == Ahead(items, now, yys, r, best, kept + [p], u, states)
  {
    hide Mergeable, Chained, Chain, Strung, OptionFits, Apart;
    var p := now[Last(kept)].next;
    Parts(now, u, states);
    if p != NONE {
      KeepOne(now, yys, kept, p, u, states);
      NextIsBelow(now, p, u, states);
      ApartParts(items, r, best, p, Chain(now, now[p].next), u, states);
    }
  }

  /** After an option was taken out, the scan goes on with the next one. */
  lemma AbsorbedStands<V>(items: seq<Item<V>>, before: seq<Item<V>>, now: seq<Item<V>>, yys: int, r: Rules, best: int,
                          kept: seq<int>, u: set<int>, states: set<int>)
    requires Standing(items, before, yys, r, best, kept, u, states) && before[Last(kept)].next != NONE
    requires SameFrame(items, now) && ChoiceAt(now, Last(kept)) && Scanning(now, yys, kept, now[Last(kept)].next, u, states)
    requires Chain(before, before[Last(kept)].next) == [before[Last(kept)].next] + Chain(now, now[Last(kept)].next)
    ensures Standing(items, now, yys, r, best, kept, u, states)
    ensures Ahead(items, now, yys, r, best, kept, u, states)
         == Ahead(items, before, yys, r, best, kept, u, states)[1..]
  {
    hide Mergeable, Chained, Chain, Strung, OptionFits, Apart;
    Parts(now, u, states);
    ApartParts(items, r, best, before[Last(kept)].next, Chain(now, now[Last(kept)].next), u, states);
  }

  /** The outcome of the comparisons for the options of a chain. */
  ghost function Outcome<V>(items: seq<Item<V>>, r: Rules, chain: seq<int>): Scan
    requires chain != []
  {
    Rest(items, r, chain[0], false, [chain[0]], chain[1..])
  }

  ghost function Rest<V>(items: seq<Item<V>>, r: Rules, best: int, merge: bool, kept: seq<int>, rest: seq<int>): Scan {
    ScanRest(r, RuleIn(items), SameIn(items, r), best, merge, kept, rest)
  }

  ghost function RuleIn<V>(items: seq<Item<V>>): int -> int {
    y => RuleOf(items, y)
  }

  ghost function SameIn<V>(items: seq<Item<V>>, r: Rules): Same {
    (x, y) => Identical(items, r, x, y)
  }

  /** The scan stands where it does on its way to the outcome `goal`. */
  ghost predicate OnCourse<V>(items: seq<Item<V>>, now: seq<Item<V>>, yys: int, r: Rules, best: int, merge: bool,
                              kept: seq<int>, u: set<int>, states: set<int>, goal: Scan)
  {
    && Standing(items, now, yys, r, best, kept, u, states)
    && goal == Rest(items, r, best, merge, kept, Ahead(items, now, yys, r, best, kept, u, states))
  }

  lemma RestStep<V>(items: seq<Item<V>>, r: Rules, best: int, merge: bool, kept: seq<int>, rest: seq<int>)
    requires rest != []
    ensures var p, goal := rest[0], Rest(items, r, best, merge, kept, rest);
            if Identical(items, r, best, p) then goal == Rest(items, r, best, merge, kept, rest[1..])
            else
              match Prefer(r, RuleOf(items, best), RuleOf(items, p))
              case Unrelated => goal == Ambiguous(best, p)
              case MergeBoth => goal == Rest(items, r, best, true, kept + [p], rest[1..])
              case First => goal == Rest(items, r, best, merge, kept + [p], rest[1..])
              case Second => goal == Rest(items, r, p, false, kept + [p], rest[1..])
  {
    hide Identical, RuleOf, Prefer;
  }

  /** One turn of the loop: the next option is merged into the best one, found ambiguous with it, or
      kept, and it may become the best one. */
  method ScanTurn<V>(a: array<Item<V>>, used: nat, yys: nat, r: Rules, best: int, merge: bool, prev: int,
                     ghost items: seq<Item<V>>, ghost kept: seq<int>, ghost k: Scope, ghost goal: Scan)
    returns (v: Option<Verdict>, best': int, merge': bool, prev': int, ghost kept': seq<int>)
    requires used <= a.Length
    requires Scannable(items, a[..used], r, best, prev, k) && ChoiceAt(a[..used], prev) && a[prev].next != NONE
    requires kept != [] && prev == Last(kept)
    modifies a
    ensures Scannable(items, a[..used], r, best', prev', k) && ChoiceAt(a[..used], prev')
    ensures v.Some? ==> v.value.Ambiguity? && Undecided(r)
    ensures v.None? ==> kept' != [] && prev' == Last(kept') && a[prev'].next < old(a[prev].next)
    ensures old(OnCourse(items, a[..used], yys, r, best, merge, kept, k.u, k.states, goal)) ==>
              if v.Some? then Tells(a[..used], yys, v.value, goal)
              else OnCourse(items, a[..used], yys, r, best', merge', kept', k.u, k.states, goal)
  {
    hide OnCourse, OptionFits, Identical, Scanning, Chain, Chained, SameFrame, Mergeable, Scannable, RuleOf, Tells, Undecided;
    ghost var before := a[..used];
    ScannableFacts(items, before, r, best, prev, k);
    var p := a[prev].next;
    ghost var course := OnCourse(items, before, yys, r, best, merge, kept, k.u, k.states, goal);
    best', merge', prev', kept' := best, merge, prev, kept;
    v := None;
    var identical := IdenticalOptions(a, used, r, best, p, k.states);
    if identical {
      IdenticalRule(before, r, best, p);
      AbsorbOption(a, used, yys, r, best, prev, p, items, kept, k);
      if course {
        ScannableFacts(items, a[..used], r, best, prev, k);
        Parts(before, k.u, k.states);
        Parts(a[..used], k.u, k.states);
        AbsorbedCourse(items, before, a[..used], yys, r, best, merge, kept, k.u, k.states, goal);
      }
    } else {
      match Prefer(r, a[best].rule, a[p].rule) {
        case Unrelated =>
          UnrelatedClash(r, a[best].rule, a[p].rule);
          v := Some(Ambiguity(best, p));
        case MergeBoth => merge' := true;
        case First =>
        case Second => best', merge' := p, false;
      }
      if v.None? {
        prev' := p;
        kept' := kept + [p];
      }
      if course {
        ComparedCourse(items, before, yys, r, best, merge, kept, k.u, k.states, goal);
      }
    }
  }

  /** On its way to the outcome, the scan merges the next option into the best one. */
  lemma AbsorbedCourse<V>(items: seq<Item<V>>, before: seq<Item<V>>, now: seq<Item<V>>, yys: int, r: Rules, best: int, merge: bool,
                          kept: seq<int>, u: set<int>, states: set<int>, goal: Scan)
    requires OnCourse(items, before, yys, r, best, merge, kept, u, states, goal) && kept != [] && ChoiceAt(before, Last(kept))
    requires before[Last(kept)].next != NONE && Identical(before, r, best, before[Last(kept)].next)
    requires SameFrame(items, now) && ChoiceAt(now, Last(kept))
    requires Chained(before) && HeadAt(before, before[Last(kept)].next) && Chained(now) && HeadAt(now, now[Last(kept)].next)
    requires Scanning(before, yys, kept, before[Last(kept)].next, u, states) ==>
               && Scanning(now, yys, kept, now[Last(kept)].next, u, states)
               && Chain(before, before[Last(kept)].next) == [before[Last(kept)].next] + Chain(now, now[Last(kept)].next)
    ensures OnCourse(items, now, yys, r, best, merge, kept, u, states, goal)
  {
    hide Standing, Ahead, OptionFits, Identical, Scanning, Chain, Chained, SameFrame, Mergeable, Rest, RuleOf;
    StandingFacts(items, before, yys, r, best, kept, u, states);
    StandingFrame(items, before, yys, r, best, kept, u, states);
    SameIdentical(items, before, r, best, before[Last(kept)].next, states);
    RestStep(items, r, best, merge, kept, Ahead(items, before, yys, r, best, kept, u, states));
    AbsorbedStands(items, before, now, yys, r, best, kept, u, states);
  }

  /** Or it compares the next option with the best one. */
  lemma ComparedCourse<V>(items: seq<Item<V>>, now: seq<Item<V>>, yys: int, r: Rules, best: int, merge: bool, kept: seq<int>,
                          u: set<int>, states: set<int>, goal: Scan)
    requires OnCourse(items, now, yys, r, best, merge, kept, u, states, goal) && kept != [] && ChoiceAt(now, Last(kept))
    requires now[Last(kept)].next != NONE && !Identical(now, r, best, now[Last(kept)].next)
    requires ChoiceAt(now, best) && ChoiceAt(now, now[Last(kept)].next)
    ensures var p := now[Last(kept)].next;
            match Prefer(r, now[best].rule, now[p].rule)
            case Unrelated => Tells(now, yys, Ambiguity(best, p), goal)
            case MergeBoth => OnCourse(items, now, yys, r, best, true, kept + [p], u, states, goal)
            case First => OnCourse(items, now, yys, r, best, merge, kept + [p], u, states, goal)
            case Second => OnCourse(items, now, yys, r, p, false, kept + [p], u, states, goal)
  {
    hide Standing, Ahead, OptionFits, Identical, Scanning, Chain, Chained, SameFrame, Mergeable, Rest, RuleOf, Tells, Prefer;
    var p := now[Last(kept)].next;
    StandingFacts(items, now, yys, r, best, kept, u, states);
    StandingFrame(items, now, yys, r, best, kept, u, states);
    SameIdentical(items, now, r, best, p, states);
    RestStep(items, r, best, merge, kept, Ahead(items, now, yys, r, best, kept, u, states));
    AheadSame(items, now, yys, r, best, p, kept + [p], u, states);
    if Prefer(r, now[best].rule, now[p].rule).Unrelated? {
      AmbiguityTold(now, yys, best, p);
    }
  }

  lemma StandingFrame<V>(items: seq<Item<V>>, now: seq<Item<V>>, yys: int, r: Rules, best: int, kept: seq<int>, u: set<int>, states: set<int>)
    requires Standing(items, now, yys, r, best, kept, u, states)
    ensures SameFrame(items, now) && Mergeable(now, u, states)
    ensures Chained(now) && HeadAt(now, now[Last(kept)].next)
  {
    Parts(now, u, states);
  }

  lemma AheadSame<V>(items: seq<Item<V>>, now: seq<Item<V>>, yys: int, r: Rules, x: int, y: int, kept: seq<int>, u: set<int>, states: set<int>)
    requires Standing(items, now, yys, r, x, kept, u, states) && Standing(items, now, yys, r, y, kept, u, states)
    ensures Ahead(items, now, yys, r, x, kept, u, states) == Ahead(items, now, yys, r, y, kept, u, states)
  {
  }

  lemma IdenticalRule<V>(items: seq<Item<V>>, r: Rules, x: int, y: int)
    requires Identical(items, r, x, y)
    ensures ChoiceAt(items, x) && ChoiceAt(items, y) && items[x].rule == items[y].rule
  {
  }

  /** The first loop of yyresolveValue, on the chain of state yys: options identical to the best one so
      far are merged into it and taken out, the others are compared with it. Whatever the options share,
      it ends and stays within its scope; if the chain is apart from what may be merged, its verdict and
      what it leaves of the chain are those of the comparisons. */
  method ScanOptions<V>(a: array<Item<V>>, used: nat, yys: nat, r: Rules, ghost k: Scope) returns (v: Verdict)
    requires used <= a.Length && Within(a[..used], r, k) && OwnsChain(a[..used], yys)
    requires a[yys].sem.first in k.w
    modifies a
    ensures Within(a[..used], r, k) && Changes(old(a[..used]), a[..used], k.w, k.around) && LosesNothing(old(a[..used]), a[..used])
    ensures if v.Selected? then v.best in k.w else Undecided(r)
    ensures old(a[a[yys].sem.first].next == NONE) ==>
              a[..used] == old(a[..used]) && v == Selected(old(a[yys].sem.first), false)
    ensures old(ApartOf(a[..used], yys, r, k)) ==>
              && Tells(a[..used], yys, v, Outcome(old(a[..used]), r, old(Chain(a[..used], a[yys].sem.first))))
              && (v.Selected? ==> ChainApart(a[..used], yys, k.u))
  {
    hide Mergeable, Chained, Chain, OnCourse, Apart, Tells, Outcome, Within, Scannable, ApartOf, ChainApart, Undecided;
    ghost var items := a[..used];
    var best, merge := a[yys].sem.first, false;
    var prev := best;
    ghost var kept := [best];
    ghost var apart := ApartOf(items, yys, r, k);
    StartScannable(items, yys, r, k);
    ghost var goal := Outcome(items, r, Chain(items, best));
    ghost var single := a[best].next == NONE;
    while a[prev].next != NONE
      invariant kept != [] && prev == Last(kept) && Scannable(items, a[..used], r, best, prev, k) && ChoiceAt(a[..used], prev)
      invariant apart ==> OnCourse(items, a[..used], yys, r, best, merge, kept, k.u, k.states, goal)
      invariant single ==> a[..used] == items && prev == best == items[yys].sem.first && !merge
      decreases a[prev].next + 1
    {
      ScannableFacts(items, a[..used], r, best, prev, k);
      var verdict;
      verdict, best, merge, prev, kept := ScanTurn(a, used, yys, r, best, merge, prev, items, kept, k, goal);
      ScannableFacts(items, a[..used], r, best, prev, k);
      if verdict.Some? {
        ScannableEnd(items, a[..used], r, best, prev, k);
        return verdict.value;
      }
    }
    v := Selected(best, merge);
    ScannableEnd(items, a[..used], r, best, prev, k);
    if apart {
      ChoiceTold(items, a[..used], yys, r, best, merge, kept, k.u, k.states, goal);
    }
  }

  ghost predicate ChainApart<V>(items: seq<Item<V>>, yys: int, u: set<int>) {
    && Chained(items) && OwnsChain(items, yys) && forall y :: y in Chain(items, items[yys].sem.first) ==> y !in u
  }

  /** The chain of the state, and the state, are apart from what its options may have changed. */
  ghost predicate ApartOf<V>(items: seq<Item<V>>, yys: int, r: Rules, k: Scope) {
    && Mergeable(items, k.u, k.states) && yys !in k.states && OwnsChain(items, yys) && items[yys].sem.first != NONE
    && Apart(items, r, Chain(items, items[yys].sem.first), k.u, k.states)
  }

  lemma StartScannable<V>(items: seq<Item<V>>, yys: int, r: Rules, k: Scope)
    requires Within(items, r, k) && OwnsChain(items, yys) && items[yys].sem.first in k.w
    ensures Chained(items) && ChoiceAt(items, items[yys].sem.first) && HeadAt(items, items[items[yys].sem.first].next)
    ensures Chain(items, items[yys].sem.first) != []
    ensures var y := items[yys].sem.first;
            && Scannable(items, items, r, y, y, k)
            && (ApartOf(items, yys, r, k) ==>
                  OnCourse(items, items, yys, r, y, false, [y], k.u, k.states, Outcome(items, r, Chain(items, y))))
  {
    hide Mergeable, Chained, Chain, OptionFits, Within, Outcome, OnCourse, Apart;
    WithinFacts(items, r, k, items[yys].sem.first);
    Parts(items, k.u, k.states);
    NoChange(items, k.w, k.around);
    if ApartOf(items, yys, r, k) {
      StartStanding(items, yys, r, k.u, k.states);
    }
  }

  lemma ScannableEnd<V>(items: seq<Item<V>>, now: seq<Item<V>>, r: Rules, best: int, prev: int, k: Scope)
    requires Scannable(items, now, r, best, prev, k)
    ensures Within(now, r, k) && Changes(items, now, k.w, k.around) && LosesNothing(items, now) && best in k.w
  {
    hide Within, LosesNothing, Changes;
  }

  /** What the verdict and the chain left in the state say of the outcome of the comparisons. */
  ghost predicate Tells<V>(now: seq<Item<V>>, yys: int, v: Verdict, s: Scan) {
    match s
    case Ambiguous(x0, x1) => v == Ambiguity(x0, x1)
    case Chosen(best, merge, kept) =>
      && v == Selected(best, merge) && Chained(now) && OwnsChain(now, yys) && Chain(now, now[yys].sem.first) == kept
  }

  lemma StartStanding<V>(items: seq<Item<V>>, yys: int, r: Rules, u: set<int>, states: set<int>)
    requires Mergeable(items, u, states) && yys !in states && OwnsChain(items, yys) && items[yys].sem.first != NONE
    requires Apart(items, r, Chain(items, items[yys].sem.first), u, states)
    ensures var y := items[yys].sem.first;
            && ChoiceAt(items, y) && HeadAt(items, items[y].next) && SameFrame(items, items)
            && OnCourse(items, items, yys, r, y, false, [y], u, states, Outcome(items, r, Chain(items, y)))
  {
    hide Mergeable, Chained, Chain, OptionFits, Scanning;
    Parts(items, u, states);
    StartScan(items, yys, r, u, states);
    var y := items[yys].sem.first;
    assert Chain(items, y)[1..] == Chain(items, items[y].next);
  }

  lemma AmbiguityTold<V>(now: seq<Item<V>>, yys: int, x0: int, x1: int)
    ensures Tells(now, yys, Ambiguity(x0, x1), Ambiguous(x0, x1))
  {
  }

  lemma ChoiceTold<V>(items: seq<Item<V>>, now: seq<Item<V>>, yys: int, r: Rules, best: int, merge: bool, kept: seq<int>, u: set<int>, states: set<int>, goal: Scan)
    requires OnCourse(items, now, yys, r, best, merge, kept, u, states, goal) && now[Last(kept)].next == NONE
    ensures Mergeable(now, u, states) && Tells(now, yys, Selected(best, merge), goal) && ChainApart(now, yys, u)
  {
    hide Identical, RuleOf, Apart;
    EndScan(now, yys, kept, u, states);
  }

  lemma ApartParts<V>(items: seq<Item<V>>, r: Rules, best: int, p: int, rest: seq<int>, u: set<int>, states: set<int>)
    requires Apart(items, r, [best] + ([p] + rest), u, states)
    ensures OptionFits(items, r, best, states) && OptionFits(items, r, p, states)
    ensures Apart(items, r, [best] + rest, u, states) && Apart(items, r, [p] + rest, u, states)
  {
    hide OptionFits;
    var all := [best] + ([p] + rest);
    assert all[0] == best && all[1] == p && forall i :: 0 <= i < |rest| ==> all[i + 2] == rest[i];
  }

  /** The comparisons on a chain and what they choose: the first option of the highest precedence among
      those that are left, and whether there are others to merge. */
  lemma OutcomeIsBest<V>(items: seq<Item<V>>, r: Rules, chain: seq<int>)
    requires chain != []
    ensures var s := Outcome(items, r, chain);
            s.Chosen? ==> Best(r, RuleIn(items), s.best, s.merge, s.kept)
  {
    hide RuleIn, SameIn;
    assert BestAt(r, RuleIn(items), 0, false, [chain[0]]) && [chain[0]][0] == chain[0];
    ScanChoosesBest(r, RuleIn(items), SameIn(items, r), chain[0], false, [chain[0]], chain[1..]);
  }

  lemma {:induction false} ChainAfter<V>(items: seq<Item<V>>, z: int, k: nat)
    requires Chained(items) && HeadAt(items, z) && k < |Chain(items, z)|
    ensures var y := Chain(items, z)[k];
            && ChoiceAt(items, y) && NextBelow(items, y) && Chain(items, items[y].next) == Chain(items, z)[k + 1..]
    decreases k
  {
    hide Chained, Chain;
    if z == NONE {
      EmptyChain(items);
    }
    ChainStep(items, z);
    if k > 0 {
      ChainAfter(items, items[z].next, k - 1);
    }
  }

  lemma EmptyChain<V>(items: seq<Item<V>>)
    requires Chained(items)
    ensures Chain(items, NONE) == []
  {
  }
}
