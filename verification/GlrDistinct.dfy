/** Why the stacks that shift the end marker are never more than one: live stacks do not repeat states,
    because deferred reductions merge. */
module GlrDistinct {
  import opened Collections
  import LrTables
  import opened LrAutomaton
  import opened GlrShape
  import opened GlrOps
  import opened GlrReduce
  import opened GlrCompress
  import opened GlrInvariant
  import opened GlrRounds
  import opened GlrStack

  /** The state is on a live stack. */
  ghost predicate OnLive<V>(g: Gss<V>, x: int)
    requires Descending(g.items)
  {
    exists i :: 0 <= i < |g.tops| && On(g, i, x)
  }

  ghost predicate On<V>(g: Gss<V>, i: int, x: int)
    requires Descending(g.items) && 0 <= i < |g.tops|
  {
    StateAt(g.items, g.tops[i]) && x in Path(g.items, g.tops[i])
  }

  /** The same LR state on the same predecessor at the same position. */
  ghost predicate Alike<V>(items: seq<Item<V>>, x: int, y: int) {
    && StateAt(items, x) && StateAt(items, y)
    && items[x].lr == items[y].lr && items[x].pred == items[y].pred && items[x].posn == items[y].posn
  }

  ghost predicate Unique<V>(g: Gss<V>) {
    Descending(g.items) && forall x, y :: OnLive(g, x) && OnLive(g, y) && Alike(g.items, x, y) ==> x == y
  }

  /** Live stacks have different tops, except perhaps for stack k, which was just split off. */
  ghost predicate TopsDiffer(tops: seq<int>, k: int) {
    forall i, j :: 0 <= i < j < |tops| && i != k && j != k && tops[i] != NONE ==> tops[i] != tops[j]
  }

  ghost predicate NoneFinal<V>(a: Lalr, g: Gss<V>) {
    forall i :: 0 <= i < |g.tops| && StateAt(g.items, g.tops[i]) ==> g.items[g.tops[i]].lr != a.t.final
  }

  ghost predicate Distinct<V>(a: Lalr, g: Gss<V>, k: int) {
    Unique(g) && TopsDiffer(g.tops, k) && NoneFinal(a, g)
  }

  // ---------------------------------------------------------------- fewer states on live stacks

  /** Nothing becomes live, and the states there were stay. */
  lemma UniqueFewer<V>(g: Gss<V>, g': Gss<V>)
    requires Unique(g) && Descending(g'.items) && SameChains(g.items, g'.items)
    requires forall x :: OnLive(g', x) ==> OnLive(g, x)
    ensures Unique(g')
  {
    hide Descending, Path;
    forall x, y | OnLive(g', x) && OnLive(g', y) && Alike(g'.items, x, y) ensures x == y {
      LiveIsState(g, x);
      LiveIsState(g, y);
    }
  }

  lemma LiveIsState<V>(g: Gss<V>, x: int)
    requires Descending(g.items) && OnLive(g, x)
    ensures StateAt(g.items, x)
  {
    hide Descending, Path;
    var i :| 0 <= i < |g.tops| && On(g, i, x);
    OnPath(g.items, g.tops[i], x);
  }

  lemma DistinctSame<V>(a: Lalr, g: Gss<V>, g': Gss<V>, k: int)
    requires Distinct(a, g, k) && g'.items == g.items && g'.tops == g.tops
    ensures Distinct(a, g', k)
  {
    hide Descending, Path;
    forall x | OnLive(g', x) ensures OnLive(g, x) {
      var i :| 0 <= i < |g'.tops| && On(g', i, x);
      assert On(g, i, x);
    }
    SelfChains(g.items);
    UniqueFewer(g, g');
  }

  lemma SelfChains<V>(items: seq<Item<V>>)
    ensures SameChains(items, items)
  {
  }

  lemma DeleteDistinct<V>(a: Lalr, g: Gss<V>, k: int)
    requires Distinct(a, g, k) && 0 <= k < |g.tops|
    ensures Distinct(a, MarkDeleted(g, k), -1)
  {
    hide Descending, Path;
    var g' := MarkDeleted(g, k);
    forall x | OnLive(g', x) ensures OnLive(g, x) {
      var i :| 0 <= i < |g'.tops| && On(g', i, x);
      assert On(g, i, x);
    }
    SelfChains(g.items);
    UniqueFewer(g, g');
  }

  lemma SplitDistinct<V>(a: Lalr, g: Gss<V>, k: int)
    requires Distinct(a, g, -1) && Shape(g) && 0 <= k < |g.tops| && StateAt(g.items, g.tops[k])
    ensures Distinct(a, SplitStack(g, k), |g.tops|)
  {
    hide Descending, Path, Contiguous, Fans;
    var g' := SplitStack(g, k);
    forall x | OnLive(g', x) ensures OnLive(g, x) {
      var i :| 0 <= i < |g'.tops| && On(g', i, x);
      assert On(g, if i < |g.tops| then i else k, x);
    }
    SelfChains(g.items);
    UniqueFewer(g, g');
  }

  // ---------------------------------------------------------------- a state more

  /** A new state with this number on s. */
  ghost predicate Grown<V>(items: seq<Item<V>>, now: seq<Item<V>>, q: int, s: int, posn: nat) {
    |items| < |now| && now[|items|].State? && now[|items|].lr == q && now[|items|].pred == s && now[|items|].posn == posn
  }

  /** Another live stack has such a state. */
  ghost predicate Repeated<V>(g: Gss<V>, k: int, q: int, s: int, posn: nat)
    requires Descending(g.items)
  {
    exists i, y :: 0 <= i < |g.tops| && i != k && On(g, i, y) && RepeatedAt(g.items, y, q, s, posn)
  }

  ghost predicate RepeatedAt<V>(items: seq<Item<V>>, y: int, q: int, s: int, posn: nat) {
    StateAt(items, y) && items[y].lr == q && items[y].pred == s && items[y].posn == posn
  }

  /** What is live after stack k went down to s and got a state there. */
  lemma LiveAfterPush<V>(g: Gss<V>, g': Gss<V>, k: int, s: int, q: int, posn: nat, x: int)
    requires Descending(g.items) && Descending(g'.items) && SameChains(g.items, g'.items) && 0 <= k < |g.tops| && On(g, k, s)
    requires g'.tops == g.tops[k := |g.items|] && Grown(g.items, g'.items, q, s, posn) && OnLive(g', x)
    requires forall i :: 0 <= i < |g.tops| ==> g.tops[i] == NONE || StateAt(g.items, g.tops[i])
    ensures x == |g.items| || (exists i :: 0 <= i < |g.tops| && i != k && On(g, i, x)) || (On(g, k, x) && x <= s)
  {
    hide Descending, Path;
    var i :| 0 <= i < |g'.tops| && On(g', i, x);
    if i == k {
      PathStep(g'.items, |g.items|);
      OnPath(g.items, g.tops[k], s);
      SamePath(g.items, g'.items, s);
      if x != |g.items| {
        assert x in Path(g.items, s);
        OnPath(g.items, s, x);
      }
    } else {
      SamePath(g.items, g'.items, g.tops[i]);
      assert On(g, i, x);
    }
  }

  lemma UniqueMore<V>(g: Gss<V>, g': Gss<V>, k: int, s: int, q: int, posn: nat)
    requires Unique(g) && Descending(g'.items) && SameChains(g.items, g'.items) && 0 <= k < |g.tops| && On(g, k, s)
    requires g'.tops == g.tops[k := |g.items|] && Grown(g.items, g'.items, q, s, posn)
    requires forall i :: 0 <= i < |g.tops| ==> g.tops[i] == NONE || StateAt(g.items, g.tops[i])
    requires !Repeated(g, k, q, s, posn)
    ensures Unique(g')
  {
    hide Descending, Path;
    forall x, y | OnLive(g', x) && OnLive(g', y) && Alike(g'.items, x, y) ensures x == y {
      LiveAfterPush(g, g', k, s, q, posn, x);
      LiveAfterPush(g, g', k, s, q, posn, y);
      if x == |g.items| && y != |g.items| {
        NotRepeated(g, g', k, s, q, posn, y);
      } else if y == |g.items| && x != |g.items| {
        NotRepeated(g, g', k, s, q, posn, x);
      } else if x != |g.items| {
        LiveIsState(g, x);
        LiveIsState(g, y);
      }
    }
  }

  lemma NotRepeated<V>(g: Gss<V>, g': Gss<V>, k: int, s: int, q: int, posn: nat, y: int)
    requires Descending(g.items) && SameChains(g.items, g'.items) && 0 <= k < |g.tops| && On(g, k, s)
    requires Grown(g.items, g'.items, q, s, posn) && !Repeated(g, k, q, s, posn)
    requires (exists i :: 0 <= i < |g.tops| && i != k && On(g, i, y)) || (On(g, k, y) && y <= s)
    ensures !Alike(g'.items, |g.items|, y)
  {
    hide Descending, Path;
    assert OnLive(g, y);
    LiveIsState(g, y);
    if On(g, k, y) && y <= s {
      PathStep(g.items, y);
      FirstHasNoPred(g.items);
      OnPath(g.items, g.tops[k], s);
    }
    assert Alike(g'.items, |g.items|, y) ==> RepeatedAt(g.items, y, q, s, posn);
  }

  // ---------------------------------------------------------------- deferred reductions

  lemma GotoNotFinal<V>(a: Lalr, g: Gss<V>, k: int, rule: int)
    requires CanReduce(a, g, k, rule)
    ensures GotoRule(a, g.items[Uncovered(a, g, k, rule)].lr, rule) != a.t.final
  {
    hide LrTables.Valid, Linked, Spine, Lrs, Symbols;
    ReducesLikeAutomaton(a, g, k, rule);
    var s := Uncovered(a, g, k, rule);
    var stack := Lrs(Spine(g.items, g.tops[k]));
    StackIsPath(a, g.items, g.tops[k]);
    ReducePath(a, stack, rule);
    LrsPush(Spine(g.items, s), Node(GotoRule(a, g.items[s].lr, rule), g.items[g.tops[k]].posn));
  }

  lemma UncoveredOnStack<V>(a: Lalr, g: Gss<V>, k: int, rule: int)
    requires CanReduce(a, g, k, rule)
    ensures On(g, k, Uncovered(a, g, k, rule))
  {
    hide LrTables.Valid, Linked, Path, Back;
    Reducible(a, g, k, rule);
    var t, n := g.tops[k], Length(a, rule);
    BackPath(g.items, t, n);
    var s := Back(g.items, t, n);
    assert s == Last(Path(g.items, s)) && Path(g.items, s) == Path(g.items, t)[..|Path(g.items, t)| - n];
    assert s in Path(g.items, t);
  }

  /** Without a twin no other stack has the state. */
  lemma NoTwin<V>(g: Gss<V>, k: int, s: int, posn: nat, q: int)
    requires Descending(g.items) && !HasTwin(g, k, s, posn, q)
    ensures !Repeated(g, k, q, s, posn)
  {
    hide Descending, Path;
    forall i: nat, y | i < |g.tops| && i != k && On(g, i, y) ensures !RepeatedAt(g.items, y, q, s, posn) {
      assert !Twin(g, k, s, posn, q, i, y);
    }
  }

  /** What a deferred reduction does to items and tops. */
  lemma LaterParts<V>(a: Lalr, g: Gss<V>, k: int, rule: int, raw: Option<V>)
    requires CanReduce(a, g, k, rule) && g.split != NONE && InStep(g, g.items[g.tops[k]].posn)
    ensures var g', s := ReduceLater(a, g, k, rule, raw), Uncovered(a, g, k, rule);
            var q, posn := GotoRule(a, g.items[s].lr, rule), g.items[g.tops[k]].posn;
            && Descending(g'.items) && SameChains(g.items, g'.items)
            && if HasTwin(g, k, s, posn, q) then g'.tops == g.tops[k := NONE]
               else g'.tops == g.tops[k := |g.items|] && Grown(g.items, g'.items, q, s, posn)
  {
    hide LrTables.Valid, Linked, Path, Contiguous, Fans, Spine, Descending, HasTwin;
    ReduceLaterEffect(a, g, k, rule, raw);
    var g', s := ReduceLater(a, g, k, rule, raw), Uncovered(a, g, k, rule);
    var q, posn := GotoRule(a, g.items[s].lr, rule), g.items[g.tops[k]].posn;
    LaterTops(g, k, s, q, posn, rule, raw);
    TopIsLow(g, k);
  }

  lemma TopIsLow<V>(g: Gss<V>, k: int)
    requires Shape(g) && 0 <= k < |g.tops|
    ensures g.tops[k] != |g.items| && NONE != |g.items|
  {
    hide Descending, Contiguous, Fans;
  }

  lemma LaterTops<V>(g: Gss<V>, k: int, s: int, q: int, posn: nat, rule: int, raw: Option<V>)
    requires Shape(g) && g.split != NONE && 0 <= k < |g.tops| && StateAt(g.items, s) && g.tops[k] != NONE
    ensures var g' := Defer(g, k, s, q, posn, rule, raw);
            && SameChains(g.items, g'.items)
            && (g'.tops == g.tops[k := NONE] || (g'.tops == g.tops[k := |g.items|] && Grown(g.items, g'.items, q, s, posn)))
  {
    hide Shape, FindFrom;
    UpdateSplitKeepsShape(g, s);
  }

  /** The stacks stay distinct in a deferred reduction of the stack that was split off last, or of any. */
  lemma LaterDistinct<V>(a: Lalr, g: Gss<V>, k: int, rule: int, raw: Option<V>)
    requires CanReduce(a, g, k, rule) && g.split != NONE && InStep(g, g.items[g.tops[k]].posn)
    requires Distinct(a, g, k)
    ensures Distinct(a, ReduceLater(a, g, k, rule, raw), -1)
  {
    hide LrTables.Valid, Linked, Path, Contiguous, Fans, Spine, Descending, HasTwin, SameChains, ReduceLater, Unique, Uncovered;
    LaterParts(a, g, k, rule, raw);
    var g', s := ReduceLater(a, g, k, rule, raw), Uncovered(a, g, k, rule);
    var q, posn := GotoRule(a, g.items[s].lr, rule), g.items[g.tops[k]].posn;
    GotoNotFinal(a, g, k, rule);
    TopsAreStates(g);
    if HasTwin(g, k, s, posn, q) {
      forall x | OnLive(g', x) ensures OnLive(g, x) {
        FewerLive(g, g', k, x);
      }
      UniqueFewer(g, g');
    } else {
      UncoveredOnStack(a, g, k, rule);
      NoTwin(g, k, s, posn, q);
      UniqueMore(g, g', k, s, q, posn);
    }
    OthersNotFinal(a, g, g', k);
  }

  lemma TopsAreStates<V>(g: Gss<V>)
    requires Shape(g)
    ensures forall i :: 0 <= i < |g.tops| ==> g.tops[i] == NONE || StateAt(g.items, g.tops[i])
  {
    hide Descending, Contiguous, Fans;
    forall i | 0 <= i < |g.tops| ensures g.tops[i] == NONE || StateAt(g.items, g.tops[i]) {
      TopKind(g, i);
    }
  }

  lemma FewerLive<V>(g: Gss<V>, g': Gss<V>, k: int, x: int)
    requires Descending(g.items) && Descending(g'.items) && SameChains(g.items, g'.items) && 0 <= k < |g.tops|
    requires g'.tops == g.tops[k := NONE] && OnLive(g', x)
    requires forall i :: 0 <= i < |g.tops| ==> g.tops[i] == NONE || StateAt(g.items, g.tops[i])
    ensures OnLive(g, x)
  {
    hide Descending, Path;
    var i :| 0 <= i < |g'.tops| && On(g', i, x);
    SamePath(g.items, g'.items, g.tops[i]);
    assert On(g, i, x);
  }

  lemma OthersNotFinal<V>(a: Lalr, g: Gss<V>, g': Gss<V>, k: int)
    requires NoneFinal(a, g) && SameChains(g.items, g'.items) && 0 <= k < |g.tops| && |g'.tops| == |g.tops|
    requires forall i :: 0 <= i < |g.tops| ==> g.tops[i] == NONE || StateAt(g.items, g.tops[i])
    requires forall i :: 0 <= i < |g.tops| && i != k ==> g'.tops[i] == g.tops[i]
    requires StateAt(g'.items, g'.tops[k]) ==> g'.items[g'.tops[k]].lr != a.t.final
    ensures NoneFinal(a, g')
  {
  }

  /** A reduction that is not run at once. */
  lemma ReductionDistinct<V>(a: Lalr, g: Gss<V>, k: nat, rule: int, act: (int, seq<Semantics<V>>) -> ActionResult<V>,
                             raw: Option<V>, flag: Flag, g': Gss<V>, posn: nat)
    requires CanReduce(a, g, k, rule) && Reduces(a, g, k, rule, false, act, raw, flag, g') && g.split != NONE && InStep(g, posn)
    requires Distinct(a, g, k)
    ensures flag == YyOk && Distinct(a, g', -1)
  {
    hide LrTables.Valid, Linked, Path, Shape, Spine, Descending, ReduceLater, Distinct;
    LaterDistinct(a, g, k, rule, raw);
    DistinctSame(a, ReduceLater(a, g, k, rule, raw), g', -1);
  }

  lemma DistinctWeaker<V>(a: Lalr, g: Gss<V>, k: int)
    requires Distinct(a, g, -1) && Descending(g.items)
    ensures Distinct(a, g, k) && (0 <= k < |g.tops| && StateAt(g.items, g.tops[k]) ==> g.items[g.tops[k]].lr != a.t.final)
  {
    hide Unique, Descending;
  }

  // ---------------------------------------------------------------- rounds

  lemma {:induction false} LiveDiffer(tops: seq<int>)
    requires TopsDiffer(tops, -1)
    ensures TopsDiffer(LiveEntries(tops, tops), -1)
    ensures forall t :: t in LiveEntries(tops, tops) ==> t in tops && t != NONE
  {
    if tops != [] {
      var front, last := Front(tops), Last(tops);
      LiveDiffer(front);
      assert forall i :: 0 <= i < |front| ==> front[i] == tops[i] && (tops[i] != NONE ==> tops[i] != last);
      assert forall t :: t in front ==> t in tops;
      var live := LiveEntries(front, front);
      forall i | 0 <= i < |live| ensures live[i] != last {
        assert live[i] in live;
      }
    }
  }

  lemma RemoveDistinct<V>(a: Lalr, g: Gss<V>)
    requires Distinct(a, g, -1) && |g.tops| <= |g.needs|
    ensures Distinct(a, RemoveDeletes(g), -1)
  {
    hide Descending, Path, LiveEntries;
    var g' := RemoveDeletes(g);
    LiveDiffer(g.tops);
    forall x | OnLive(g', x) ensures OnLive(g, x) {
      var i :| 0 <= i < |g'.tops| && On(g', i, x);
      assert g'.tops[i] in g.tops;
      var j :| 0 <= j < |g.tops| && g.tops[j] == g'.tops[i];
      assert On(g, j, x);
    }
    SelfChains(g.items);
    UniqueFewer(g, g');
    forall i | 0 <= i < |g'.tops| && StateAt(g'.items, g'.tops[i]) ensures g'.items[g'.tops[i]].lr != a.t.final {
      assert g'.tops[i] in g.tops;
      var j :| 0 <= j < |g.tops| && g.tops[j] == g'.tops[i];
    }
  }

  /** Stack j has shifted to a state that is not the final one. */
  ghost predicate ShiftedAt<V>(a: Lalr, g: Gss<V>, g': Gss<V>, j: int, posn: nat)
    requires 0 <= j < |g.tops| == |g'.tops|
  {
    && StateAt(g'.items, g'.tops[j]) && g'.items[g'.tops[j]].pred == g.tops[j] && g'.items[g'.tops[j]].posn == posn + 1
    && g'.items[g'.tops[j]].lr != a.t.final
  }

  /** Stacks below the i-th have shifted, and all are distinct. */
  ghost predicate Advancing<V>(a: Lalr, g: Gss<V>, g': Gss<V>, i: nat, posn: nat) {
    && |g'.tops| == |g.tops| && Unique(g') && TopsDiffer(g'.tops, -1) && TopsDiffer(g.tops, -1) && i <= |g.tops|
    && (forall j :: 0 <= j < i ==> ShiftedAt(a, g, g', j, posn))
    && (forall j :: i <= j < |g.tops| ==> g'.tops[j] == g.tops[j])
    && (forall j :: 0 <= j < |g.tops| ==> StateAt(g'.items, g.tops[j]) && g'.items[g.tops[j]].posn == posn)
  }

  lemma StartAdvancing<V>(a: Lalr, g: Gss<V>, token: int, posn: nat)
    requires Distinct(a, g, -1) && AllReady(a, g, token, posn)
    ensures Advancing(a, g, g, 0, posn)
  {
    hide Unique, LrTables.Valid, LrTables.LrAction;
    forall j | 0 <= j < |g.tops| ensures StateAt(g.items, g.tops[j]) && g.items[g.tops[j]].posn == posn {
      assert g.tops[j] in g.tops;
    }
  }

  lemma AdvanceOne<V>(a: Lalr, g: Gss<V>, g': Gss<V>, i: nat, q: int, posn: nat, sem: Semantics<V>)
    requires Advancing(a, g, g', i, posn) && i < |g.tops| && q != a.t.final
    ensures Advancing(a, g, PushState(g', i, q, posn + 1, sem), i + 1, posn)
  {
    hide Descending, Path, LrTables.Valid;
    var g2, s := PushState(g', i, q, posn + 1, sem), g.tops[i];
    PushDescends(g'.items, State(q, s, posn + 1, sem));
    forall j, y | 0 <= j < |g.tops| && j != i && On(g', j, y) ensures !RepeatedAt(g'.items, y, q, s, posn + 1) {
      PathStep(g'.items, g'.tops[j]);
      if j < i {
        assert ShiftedAt(a, g, g', j, posn);
        if y != g'.tops[j] {
          assert y in Path(g'.items, g.tops[j]);
          OnPath(g'.items, g.tops[j], y);
        }
      } else {
        OnPath(g'.items, g.tops[j], y);
      }
    }
    TopOnPath(g'.items, s);
    forall j | 0 <= j < |g'.tops| ensures StateAt(g'.items, g'.tops[j]) {
      assert j < i ==> ShiftedAt(a, g, g', j, posn);
    }
    UniqueMore(g', g2, i, s, q, posn + 1);
    forall j | 0 <= j < i + 1 ensures ShiftedAt(a, g, g2, j, posn) {
      if j < i {
        assert ShiftedAt(a, g, g', j, posn);
      }
    }
  }

  lemma TopOnPath<V>(items: seq<Item<V>>, t: int)
    requires Descending(items) && StateAt(items, t)
    ensures t in Path(items, t)
  {
    assert Last(Path(items, t)) == t;
  }

  lemma AdvancedDistinct<V>(a: Lalr, g: Gss<V>, g': Gss<V>, posn: nat)
    requires Advancing(a, g, g', |g.tops|, posn)
    ensures Distinct(a, g', -1)
  {
    hide Unique;
    forall i | 0 <= i < |g'.tops| ensures StateAt(g'.items, g'.tops[i]) && g'.items[g'.tops[i]].lr != a.t.final {
      assert ShiftedAt(a, g, g', i, posn);
    }
  }

  /** The token is not the one that leads to the final state. */
  lemma OtherToken(a: Lalr, q: int, token: int)
    requires IsState(a, q) && IsToken(a, token) && Action(a, q, token).Shift? && token != LrTables.EOF_TOKEN
    ensures Action(a, q, token).state != a.t.final
  {
    ShiftFacts(a, q, token);
  }

  /** What generated tables are like: the end marker leads to the final state only, and one state is
      for the start symbol. */
  ghost predicate EndsOnce(a: Lalr) {
    && (forall q :: IsState(a, q) && Action(a, q, LrTables.EOF_TOKEN).Shift? ==> Action(a, q, LrTables.EOF_TOKEN).state == a.t.final)
    && (forall q, q' :: IsState(a, q) && IsState(a, q') && LrTables.Item(1, 1) in a.g.items[q] && LrTables.Item(1, 1) in a.g.items[q'] ==> q == q')
  }

  /** The example tables are like that. */
  lemma ExampleEndsOnce(a: Lalr)
    requires a.t == LrTables.EXAMPLE && a.g == LrTables.EXAMPLE_GRAMMAR
    ensures EndsOnce(a)
  {
    hide LrTables.Valid, LrTables.LrAction;
    LrTables.ExampleActions();
  }

  /** A stack that shifts the end marker has one state above the first. */
  lemma ShiftsEnd<V>(a: Lalr, g: Gss<V>, t: int, posn: nat)
    requires EndsOnce(a) && Descending(g.items) && Linked(a, g.items) && Ready(a, g.items, t, LrTables.EOF_TOKEN)
    ensures t != 0 && g.items[t].pred == 0 && LrTables.Item(1, 1) in a.g.items[g.items[t].lr]
  {
    hide LrTables.Valid, LrTables.LrAction, Linked, Path, Spine, Lrs, Symbols, Steps;
    var stack := Lrs(Spine(g.items, t));
    var q := g.items[t].lr;
    StackIsPath(a, g.items, t);
    ShiftPath(a, stack, LrTables.EOF_TOKEN);
    AcceptStack(a, stack + [a.t.final]);
    SpineSize(g.items, t);
    PathStep(g.items, t);
    if t != 0 {
      PathAscends(g.items, t, 0);
      PathAscends(g.items, t, 1);
    }
    BeforeEnd(a, q);
  }

  lemma SpineSize<V>(items: seq<Item<V>>, t: int)
    requires Descending(items) && StateAt(items, t)
    ensures |Lrs(Spine(items, t))| == |Path(items, t)|
  {
  }

  lemma BeforeEnd(a: Lalr, q: int)
    requires IsState(a, q) && Action(a, q, LrTables.EOF_TOKEN).Shift? && Action(a, q, LrTables.EOF_TOKEN).state == a.t.final
    requires IsToken(a, LrTables.EOF_TOKEN)
    ensures LrTables.Item(1, 1) in a.g.items[q]
  {
    ShiftFacts(a, q, LrTables.EOF_TOKEN);
    assert LrTables.Item(1, 2) in a.g.items[a.t.final];
  }

  /** The end marker is shifted on one stack at most. */
  lemma EndAlone<V>(a: Lalr, g: Gss<V>, posn: nat)
    requires EndsOnce(a) && Distinct(a, g, -1) && Linked(a, g.items) && AllReady(a, g, LrTables.EOF_TOKEN, posn)
    ensures |g.tops| <= 1
  {
    hide LrTables.Valid, LrTables.LrAction, Linked, Path, Descending, EndsOnce;
    if |g.tops| > 1 {
      var t, t' := g.tops[0], g.tops[1];
      assert t in g.tops && t' in g.tops;
      ShiftsEnd(a, g, t, posn);
      ShiftsEnd(a, g, t', posn);
      OneStart(a, g.items[t].lr, g.items[t'].lr);
      TopsNotAlike(g);
    }
  }

  lemma TopsNotAlike<V>(g: Gss<V>)
    requires Unique(g) && TopsDiffer(g.tops, -1) && |g.tops| > 1 && StateAt(g.items, g.tops[0]) && StateAt(g.items, g.tops[1])
    ensures !Alike(g.items, g.tops[0], g.tops[1])
  {
    hide Path, Descending;
    var t, t' := g.tops[0], g.tops[1];
    TopOnPath(g.items, t);
    TopOnPath(g.items, t');
    assert On(g, 0, t) && On(g, 1, t');
    assert OnLive(g, t) && OnLive(g, t');
  }

  lemma OneStart(a: Lalr, q: int, q': int)
    requires EndsOnce(a) && IsState(a, q) && IsState(a, q')
    requires LrTables.Item(1, 1) in a.g.items[q] && LrTables.Item(1, 1) in a.g.items[q']
    ensures q == q'
  {
    hide LrTables.Valid, LrTables.LrAction;
  }

  /** A single stack repeats no state. */
  lemma SingleDistinct<V>(a: Lalr, g: Gss<V>)
    requires Descending(g.items) && |g.tops| == 1 && StateAt(g.items, g.tops[0]) && g.items[g.tops[0]].lr != a.t.final
    ensures Distinct(a, g, -1)
  {
    hide Descending, Path;
    var t := g.tops[0];
    forall x, y | OnLive(g, x) && OnLive(g, y) && Alike(g.items, x, y) ensures x == y {
      assert On(g, 0, x) && On(g, 0, y);
      PredDiffers(g.items, t, x, y);
      PredDiffers(g.items, t, y, x);
    }
  }

  lemma PredDiffers<V>(items: seq<Item<V>>, t: int, x: int, y: int)
    requires Descending(items) && StateAt(items, t) && x in Path(items, t) && y in Path(items, t)
    ensures StateAt(items, x) && StateAt(items, y) && (x < y ==> items[x].pred != items[y].pred)
  {
    hide Descending, Path;
    OnPath(items, t, x);
    OnPath(items, t, y);
    if x < y {
      var path := Path(items, t);
      var i: nat :| i < |path| && path[i] == x;
      var j: nat :| j < |path| && path[j] == y;
      PathAscends(items, t, i);
      PathAscends(items, t, j);
      PathBetween(items, t, i, j);
      FirstHasNoPred(items);
    }
  }

  lemma PathBetween<V>(items: seq<Item<V>>, t: int, i: nat, j: nat)
    requires Descending(items) && StateAt(items, t) && i < |Path(items, t)| && j < |Path(items, t)| && Path(items, t)[i] < Path(items, t)[j]
    ensures 0 < j && StateAt(items, Path(items, t)[j])
    ensures Path(items, t)[i] <= Path(items, t)[j - 1] == items[Path(items, t)[j]].pred
  {
    hide Descending, Path;
    PathAscends(items, t, j);
    if j < i {
      PathOrdered(items, t, j, i);
    } else if 0 < j && i < j - 1 {
      PathOrdered(items, t, i, j - 1);
    }
    PathAscends(items, t, 0);
    PathAscends(items, t, i);
  }
}
