/** What the parts of a GLR parse do to the stack as a whole: single reductions, rounds in which all
    stacks get ready to shift, resolution, and the return to one stack. */
module GlrRounds {
  import opened Collections
  import LrTables
  import opened LrAutomaton
  import opened GlrShape
  import opened GlrOps
  import opened GlrReduce
  import opened GlrOptions
  import opened GlrCompress
  import opened GlrStack
  import opened GlrSentences
  import opened GlrInvariant
  import opened GlrResolve
  import opened GlrValues

  // ---------------------------------------------------------------- one reduction

  /** What yyglrReduce leaves behind. */
  ghost predicate Reduces<V>(a: Lalr, g: Gss<V>, k: nat, rule: int, now: bool, act: (int, seq<Semantics<V>>) -> ActionResult<V>,
                             raw: Option<V>, flag: Flag, g': Gss<V>)
    requires CanReduce(a, g, k, rule)
  {
    if now || g.split == NONE then RunsAction(a, g, k, rule, act, flag, g')
    else
      flag == YyOk && k < |g'.tops| && (g'.tops[k] == NONE ==> !g'.stale)
      && g' == ReduceLater(a, g, k, rule, raw).(stale := g'.stale)
  }

  lemma ReductionWorks<V>(a: Lalr, g: Gss<V>, k: nat, rule: int, now: bool, act: (int, seq<Semantics<V>>) -> ActionResult<V>,
                          raw: Option<V>, flag: Flag, g': Gss<V>, posn: nat, h: History)
    requires CanReduce(a, g, k, rule) && Working(a, g, posn, h) && Shape(g')
    requires Reduces(a, g, k, rule, now, act, raw, flag, g') && flag == YyOk
    ensures Working(a, g', posn, h) && Extends(g, k, g') && |g'.tops| == |g.tops|
  {
    hide LrTables.Valid, Working, ReduceNow, ReduceLater, Shape, Spine;
    WorkingSplits(a, g, posn, h);
    if now {
      Reducible(a, g, k, rule);
      var result := act(rule, Handle(g.items, g.tops[k], Length(a, rule)));
      NowWorks(a, g, k, rule, result.value, posn, h);
      MovedExtends(a, g, k, ReduceNow(a, g, k, rule, result.value), g'.stale, k, posn, h);
    } else {
      LaterWorks(a, g, k, rule, raw, posn, h);
      var later := ReduceLater(a, g, k, rule, raw);
      var i: nat :| i < |later.tops| && later.tops[i] != NONE;
      MovedExtends(a, g, k, later, g'.stale, i, posn, h);
    }
  }

  lemma WorkingSplits<V>(a: Lalr, g: Gss<V>, posn: nat, h: History)
    requires Working(a, g, posn, h)
    ensures g.split != NONE && Shape(g) && Linked(a, g.items) && InStep(g, posn) && Descending(g.items) && Sound(a, g, h)
    ensures |g.tops| <= |g.needs|
  {
  }

  lemma MovedExtends<V>(a: Lalr, g: Gss<V>, k: int, g': Gss<V>, stale: bool, i: int, posn: nat, h: History)
    requires Extends(g, k, g') && Working(a, g', posn, h) && 0 <= i < |g'.tops| && g'.tops[i] != NONE
    requires Shape(g'.(stale := stale))
    ensures Working(a, g'.(stale := stale), posn, h) && Extends(g, k, g'.(stale := stale))
  {
    hide LrTables.Valid, Descending, Contiguous, Fans, Linked, Supported, Telling, Working, Spine;
    MovedWorks(a, g', stale, i, posn, h);
    var g2 := g'.(stale := stale);
    forall j | 0 <= j < |g.tops| && j != k ensures g2.tops[j] == g.tops[j] && SameStack(g, g2, j) {
      assert SameStack(g, g', j);
    }
  }

  /** A reduction whose action ends in YYERROR, with the deletion of its stack. */
  lemma RejectionWorks<V>(a: Lalr, g: Gss<V>, k: nat, rule: int, now: bool, act: (int, seq<Semantics<V>>) -> ActionResult<V>,
                          raw: Option<V>, flag: Flag, g': Gss<V>, posn: nat, h: History)
    requires CanReduce(a, g, k, rule) && Working(a, g, posn, h)
    requires Reduces(a, g, k, rule, now, act, raw, flag, g') && flag == YyErr
    ensures g'.split != NONE && k < |g'.tops|
    ensures var g2 := MarkDeleted(g', k);
            Working(a, g2, posn, h) && Extends(g, k, g2) && |g2.tops| == |g.tops| && g2.tops[k] == NONE
  {
    hide LrTables.Valid, Working, ReduceNow, ReduceLater, Shape, Spine;
    WorkingSplits(a, g, posn, h);
    Reducible(a, g, k, rule);
    RejectWorks(a, g, k, rule, posn, h);
    PopTops(g, k, Length(a, rule));
  }

  /** When an action ends the parse, its stack stays popped. */
  lemma PopSound<V>(a: Lalr, g: Gss<V>, k: nat, rule: int, h: History)
    requires CanReduce(a, g, k, rule) && Sound(a, g, h)
    ensures Length(a, rule) < |Path(g.items, g.tops[k])| && Sound(a, PopStack(g, k, Length(a, rule)), h)
  {
    hide LrTables.Valid, Descending, Contiguous, Fans, Linked, Supported, Telling, Spine, Owned, Filled, Path;
    Reducible(a, g, k, rule);
    var n := Length(a, rule);
    PopEffect(g, k, n);
    PopLinks(a, g, k, n);
    LiveRecovers(PopStack(g, k, n), k);
    PopSupported(a, g, k, n);
    PopTells(a, g, k, n, h);
    if !h.lost {
      PopOwned(g, k, n);
      PopFilled(g, k, n);
    }
  }

  lemma StopSound<V>(a: Lalr, g: Gss<V>, k: nat, rule: int, now: bool, act: (int, seq<Semantics<V>>) -> ActionResult<V>,
                     raw: Option<V>, flag: Flag, g': Gss<V>, h: History)
    requires CanReduce(a, g, k, rule) && Sound(a, g, h)
    requires Reduces(a, g, k, rule, now, act, raw, flag, g') && flag != YyOk
    ensures Sound(a, g', h)
  {
    hide LrTables.Valid, ReduceNow, ReduceLater, Shape, Spine, Sound;
    Reducible(a, g, k, rule);
    PopSound(a, g, k, rule, h);
  }

  // ---------------------------------------------------------------- stacks that are ready to shift

  /** The state shifts the lookahead. */
  ghost predicate Ready<V>(a: Lalr, items: seq<Item<V>>, t: int, token: int) {
    StateAt(items, t) && IsState(a, items[t].lr) && IsToken(a, token) && Action(a, items[t].lr, token).Shift?
  }

  /** Where it goes. */
  ghost function ShiftTo<V>(a: Lalr, items: seq<Item<V>>, t: int, token: int): int
    requires Ready(a, items, t, token)
  {
    Action(a, items[t].lr, token).state
  }

  /** Stack i is dead or ready. */
  ghost predicate Done<V>(a: Lalr, g: Gss<V>, i: int, token: int) {
    0 <= i < |g.tops| && g.tops[i] != NONE ==> Ready(a, g.items, g.tops[i], token)
  }

  /** A lookahead that is read once stays. */
  predicate Keeps(token: int, token': int) {
    token >= 0 ==> token' == token
  }

  lemma DoneStays<V>(a: Lalr, g: Gss<V>, k: int, g': Gss<V>, i: int, token: int, token': int)
    requires Extends(g, k, g') && 0 <= i < |g.tops| && i != k && Done(a, g, i, token) && Keeps(token, token')
    ensures Done(a, g', i, token')
  {
    hide LrTables.Valid, Extends, Shape;
    DeadStays(g, k, g', i);
    if g.tops[i] != NONE {
      SameTop(g, k, g', i);
    }
  }

  /** All stacks from the i-th on are dead or ready. */
  ghost predicate DoneFrom<V>(a: Lalr, g: Gss<V>, from: int, token: int) {
    forall i :: from <= i < |g.tops| ==> Done(a, g, i, token)
  }

  ghost predicate DoneTo<V>(a: Lalr, g: Gss<V>, to: int, token: int) {
    forall i :: 0 <= i < to ==> Done(a, g, i, token)
  }

  lemma DoneToStays<V>(a: Lalr, g: Gss<V>, k: int, g': Gss<V>, token: int, token': int)
    requires Extends(g, k, g') && 0 <= k < |g.tops| && DoneTo(a, g, k, token) && Keeps(token, token')
    requires Done(a, g', k, token')
    ensures DoneTo(a, g', k + 1, token')
  {
    hide LrTables.Valid, Extends, Done, Keeps;
    forall i | 0 <= i < k + 1 ensures Done(a, g', i, token') {
      if i < k {
        DoneStays(a, g, k, g', i, token, token');
      }
    }
  }

  /** Work on a stack that comes after the i-th, or on one that is then done itself. */
  lemma DoneFromStays<V>(a: Lalr, g: Gss<V>, k: int, g': Gss<V>, from: int, token: int, token': int)
    requires Extends(g, k, g') && 0 <= from && DoneFrom(a, g, from, token) && Keeps(token, token')
    requires DoneFrom(a, g', |g.tops|, token') && (from <= k < |g.tops| ==> Done(a, g', k, token'))
    ensures DoneFrom(a, g', from, token')
  {
    hide LrTables.Valid, Extends, Done, Keeps;
    forall i | from <= i < |g'.tops| ensures Done(a, g', i, token') {
      if i < |g.tops| && i != k {
        DoneStays(a, g, k, g', i, token, token');
      }
    }
  }

  lemma ExtendsSelf<V>(g: Gss<V>, k: int)
    requires Shape(g)
    ensures Extends(g, k, g)
  {
    hide Descending, Contiguous, Fans, Spine;
  }

  /** The stacks that are left all shift. */
  ghost predicate AllReady<V>(a: Lalr, g: Gss<V>, token: int, posn: nat) {
    forall t :: t in g.tops ==> Ready(a, g.items, t, token) && g.items[t].posn == posn
  }

  lemma RemoveReady<V>(a: Lalr, g: Gss<V>, token: int, posn: nat, h: History)
    requires Working(a, g, posn, h) && DoneTo(a, g, |g.tops|, token) && |g.tops| <= |g.needs|
    ensures var g' := RemoveDeletes(g);
            Sound(a, g', h) && g'.items == g.items && g'.split == g.split && AllReady(a, g', token, posn)
  {
    hide LrTables.Valid, RemoveDeletes, Descending, Contiguous, Fans, Linked, Supported, Telling, Owned, LrTables.LrAction;
    RemoveSound(a, g, h);
    var g' := RemoveDeletes(g);
    forall t | t in g'.tops ensures Ready(a, g'.items, t, token) && g'.items[t].posn == posn {
      var i :| 0 <= i < |g.tops| && g.tops[i] == t;
      assert Done(a, g, i, token);
    }
  }

  // ---------------------------------------------------------------- shifting on all stacks

  /** Stacks below the i-th have shifted, the others are as they were before. */
  ghost predicate Shifting<V>(a: Lalr, g: Gss<V>, g': Gss<V>, i: nat, token: int, posn: nat, h: History) {
    && Sound(a, g', h) && g'.split == g.split && |g'.tops| == |g.tops| && i <= |g.tops|
    && (forall t :: StateAt(g.items, t) ==> StateAt(g'.items, t) && g'.items[t] == g.items[t])
    && (forall j :: i <= j < |g.tops| ==> g'.tops[j] == g.tops[j])
    && (forall j :: 0 <= j < i ==> HasShifted(a, g, g', j, token, posn))
  }

  /** Stack j of g has the state on top to which its own leads. */
  ghost predicate HasShifted<V>(a: Lalr, g: Gss<V>, g': Gss<V>, j: int, token: int, posn: nat)
    requires 0 <= j < |g.tops| == |g'.tops|
  {
    && StateAt(g'.items, g'.tops[j]) && g'.items[g'.tops[j]].posn == posn + 1 && g'.items[g'.tops[j]].pred == g.tops[j]
    && Ready(a, g.items, g.tops[j], token) && g'.items[g'.tops[j]].lr == ShiftTo(a, g.items, g.tops[j], token)
  }

  lemma MovedSound<V>(a: Lalr, g: Gss<V>, stale: bool, i: int, h: History)
    requires Sound(a, g, h) && 0 <= i < |g.tops| && g.tops[i] != NONE && Shape(g.(stale := stale))
    ensures Sound(a, g.(stale := stale), h)
  {
    hide LrTables.Valid, Linked, Supported, Telling, Descending, Contiguous, Fans;
    LiveRecovers(g.(stale := stale), i);
    if !h.lost {
      OwnedSame(g, g.(stale := stale));
    }
  }

  lemma ShiftStart<V>(a: Lalr, g: Gss<V>, token: int, posn: nat, h: History)
    requires Sound(a, g, h)
    ensures Shifting(a, g, g, 0, token, posn, h)
  {
    hide Sound;
  }

  /** What is needed to shift on stack i. */
  lemma ShiftFits<V>(a: Lalr, g: Gss<V>, g': Gss<V>, i: nat, token: int, posn: nat, h: History)
    requires Shifting(a, g, g', i, token, posn, h) && AllReady(a, g, token, posn) && i < |g.tops|
    ensures Shape(g') && CanPush(g', i, posn + 1) && Ready(a, g'.items, g'.tops[i], token) && g'.items != []
    ensures g'.items[g'.tops[i]].posn == posn
  {
    hide LrTables.Valid, Descending, Contiguous, Fans, Linked, Supported, Telling, Owned;
    assert g.tops[i] in g.tops;
  }

  lemma ShiftOne<V>(a: Lalr, g: Gss<V>, g': Gss<V>, i: nat, token: int, posn: nat, v: V, h: History, stale: bool)
    requires i < |g'.tops| && Ready(a, g'.items, g'.tops[i], token)
    requires Shape(PushState(g', i, ShiftTo(a, g'.items, g'.tops[i], token), posn + 1, Resolved(v)).(stale := stale))
    requires i < |g.tops| && Shifting(a, g, g', i, token, posn, h) && AllReady(a, g, token, posn)
    requires h.input.Some? ==> h.input.value(posn) == token
    ensures Shifting(a, g, PushState(g', i, ShiftTo(a, g'.items, g'.tops[i], token), posn + 1, Resolved(v)).(stale := stale),
                     i + 1, token, posn, h)
  {
    hide LrTables.Valid, LrTables.LrAction, Links, Sound, Shape;
    ShiftFits(a, g, g', i, token, posn, h);
    hide AllReady;
    var t := g'.tops[i];
    var q := ShiftTo(a, g'.items, t, token);
    ShiftFacts(a, g'.items[t].lr, token);
    ShiftTells(a, q, token, posn, h);
    PushSound(a, g', i, q, posn + 1, v, h);
    var g2 := PushState(g', i, q, posn + 1, Resolved(v));
    MovedSound(a, g2, stale, i, h);
    ShiftAdvances(a, g, g', i, token, posn, h, g2.(stale := stale));
  }

  /** A token stands for itself. */
  lemma ShiftTells(a: Lalr, q: int, token: int, posn: nat, h: History)
    requires IsState(a, q) && Symbol(a, q) == token && (h.input.Some? ==> h.input.value(posn) == token)
    ensures StandsFor(a, h, q, posn, posn + 1)
  {
    hide LrTables.Valid, SpanFits;
    if h.input.Some? {
      TokenSpan(a, h.input.value, q, posn);
    }
  }

  lemma ShiftAdvances<V>(a: Lalr, g: Gss<V>, g': Gss<V>, i: nat, token: int, posn: nat, h: History, g2: Gss<V>)
    requires Shifting(a, g, g', i, token, posn, h) && i < |g.tops| && Sound(a, g2, h) && g2.split == g'.split
    requires |g2.tops| == |g'.tops| && forall j :: 0 <= j < |g'.tops| && j != i ==> g2.tops[j] == g'.tops[j]
    requires HasShifted(a, g, g2, i, token, posn)
    requires forall t :: StateAt(g'.items, t) ==> StateAt(g2.items, t) && g2.items[t] == g'.items[t]
    ensures Shifting(a, g, g2, i + 1, token, posn, h)
  {
    hide Sound, LrTables.Valid, LrTables.LrAction, ShiftTo;
    forall j | 0 <= j < i + 1 ensures HasShifted(a, g, g2, j, token, posn) {
      if j < i {
        assert HasShifted(a, g, g', j, token, posn);
      }
    }
  }

  lemma ShiftEnd<V>(a: Lalr, g: Gss<V>, g': Gss<V>, token: int, posn: nat, h: History)
    requires Shifting(a, g, g', |g.tops|, token, posn, h)
    ensures InStep(g', posn + 1) && forall i :: 0 <= i < |g'.tops| ==> StateAt(g'.items, g'.tops[i])
  {
    hide Sound, LrTables.Valid, LrTables.LrAction, ShiftTo;
    forall i | 0 <= i < |g'.tops| ensures StateAt(g'.items, g'.tops[i]) && g'.items[g'.tops[i]].posn == posn + 1 {
      assert HasShifted(a, g, g', i, token, posn);
    }
  }

  lemma ShiftingSound<V>(a: Lalr, g: Gss<V>, g': Gss<V>, i: nat, token: int, posn: nat, h: History)
    requires Shifting(a, g, g', i, token, posn, h)
    ensures Sound(a, g', h) && g'.split == g.split && |g'.tops| == |g.tops|
  {
    hide Sound;
  }

  lemma {:induction false} SpineKept<V>(items: seq<Item<V>>, now: seq<Item<V>>, t: int)
    requires Descending(items) && Descending(now) && StateAt(items, t)
    requires forall s :: StateAt(items, s) ==> StateAt(now, s) && now[s] == items[s]
    ensures Spine(now, t) == Spine(items, t)
    decreases t
  {
    if t != 0 {
      assert Below(items, t);
      SpineKept(items, now, items[t].pred);
    }
  }

  /** A stack that has shifted is what it was, with one more state. */
  lemma ShiftedSpine<V>(a: Lalr, g: Gss<V>, g': Gss<V>, i: nat, token: int, posn: nat, h: History)
    requires Shifting(a, g, g', |g.tops|, token, posn, h) && i < |g.tops| && Descending(g.items) && AllReady(a, g, token, posn)
    ensures Descending(g'.items) && StateAt(g'.items, g'.tops[i]) && Ready(a, g.items, g.tops[i], token)
    ensures Spine(g'.items, g'.tops[i]) == Spine(g.items, g.tops[i]) + [Node(ShiftTo(a, g.items, g.tops[i], token), posn + 1)]
    ensures g.items[g.tops[i]].posn == posn
  {
    hide LrTables.Valid, LrTables.LrAction, ShiftTo, Linked, Supported, Telling, Descending, Contiguous, Fans, Owned;
    assert HasShifted(a, g, g', i, token, posn) && g.tops[i] in g.tops;
    var t := g'.tops[i];
    NotFirst(g.items, g'.items, t);
    SpineStep(g'.items, t);
    SpineKept(g.items, g'.items, g.tops[i]);
  }

  lemma NotFirst<V>(items: seq<Item<V>>, now: seq<Item<V>>, t: int)
    requires Descending(now) && StateAt(now, t) && StateAt(items, now[t].pred)
    ensures t != 0
  {
  }

  // ---------------------------------------------------------------- resolution

  /** The lengths of the rules, with their dynamic precedences and mergers. */
  function RulesOf(a: Lalr, dprec: int -> int, merger: int -> int): Rules {
    Rules(dprec, merger, rule => if IsRule(a, rule) then Length(a, rule) else 0)
  }

  /** All alternatives and all states. */
  ghost function WholeScope<V>(items: seq<Item<V>>): Scope {
    var u := set i | 0 <= i < |items| && items[i].Choice?;
    var states := set i | 0 <= i < |items| && items[i].State?;
    Scope(u, states, u, states)
  }

  /** What holds of the stack is enough for a resolution. */
  lemma WholeWithin<V>(a: Lalr, items: seq<Item<V>>, r: Rules)
    requires Supported(a, items) && Chained(items) && AllOwn(items) && r == RulesOf(a, r.dprec, r.merger)
    ensures Within(items, r, WholeScope(items)) && WholeScope(items) == Inner(WholeScope(items))
  {
    hide LrTables.Valid, Descending, Path, Chained;
    SupportedDescends(a, items);
    var k := WholeScope(items);
    WholeMergeable(items);
    forall y | ChoiceAt(items, y) ensures BackedAt(items, r, y) && OptionFits(items, r, y, k.states) {
      assert SupportedAt(a, items, y);
    }
  }

  lemma WholeMergeable<V>(items: seq<Item<V>>)
    requires Chained(items) && AllOwn(items)
    ensures var k := WholeScope(items); Mergeable(items, k.u, k.states)
  {
    var k := WholeScope(items);
    forall i | i in k.u ensures ChoiceAt(items, i) && In(k.u, items[i].next) {
      assert ChoiceAt(items, i) && NextBelow(items, i);
    }
    forall i | i in k.states ensures StateAt(items, i) && (items[i].sem.Unresolved? ==> In(k.u, items[i].sem.first)) {
      assert StateAt(items, i);
    }
  }

  lemma WholeCovers<V>(items: seq<Item<V>>, t: int, n: nat)
    requires RhsFits(items, t, n)
    ensures Covered(items, t, n, WholeScope(items).states)
  {
    hide Descending, Path;
    forall i | 0 <= i < n ensures Back(items, t, i) in WholeScope(items).states {
      assert StateAt(items, Back(items, t, i));
    }
  }

  lemma FrameChains<V>(items: seq<Item<V>>, now: seq<Item<V>>)
    requires SameFrame(items, now)
    ensures SameChains(items, now) && |now| == |items|
  {
  }

  lemma FrameShape<V>(g: Gss<V>, now: seq<Item<V>>)
    requires Shape(g) && SameFrame(g.items, now)
    ensures Shape(g.(items := now))
  {
    FrameDescends(g.items, now);
    FrameFans(g.items, now, g.split);
    FrameContiguous(g.items, now, Base(g) + 1);
    FrameTops(g, now);
    hide Descending, Fans, Contiguous;
  }

  lemma FrameFans<V>(items: seq<Item<V>>, now: seq<Item<V>>, split: int)
    requires Fans(items, split) && SameFrame(items, now)
    ensures Fans(now, split)
  {
    forall i | StateAt(now, i) && i > split ensures now[i].pred >= split {
      assert StateAt(items, i);
    }
  }

  lemma FrameContiguous<V>(items: seq<Item<V>>, now: seq<Item<V>>, n: int)
    requires Contiguous(items, n) && SameFrame(items, now)
    ensures Contiguous(now, n)
  {
  }

  lemma FrameTops<V>(g: Gss<V>, now: seq<Item<V>>)
    requires SameFrame(g.items, now)
    ensures forall t :: StateAt(g.items, t) <==> StateAt(now, t)
  {
  }

  lemma FrameOwned<V>(g: Gss<V>, now: seq<Item<V>>)
    requires Owned(g) && Filled(g.items) && SameFrame(g.items, now) && Chained(now) && AllOwn(now) && Filled(now) && KeepsValues(g.items, now)
    ensures Owned(g.(items := now))
  {
    hide Chained, AllOwn;
    forall i | 0 <= i <= Base(g) && StateAt(now, i) ensures Settled(now, i) {
      assert StateAt(g.items, i) && Settled(g.items, i) && FilledAt(g.items, i);
    }
  }

  /** A resolution keeps everything, unless it fails. */
  lemma ResolutionSound<V>(a: Lalr, g: Gss<V>, now: seq<Item<V>>, r: Rules, k: Scope, res: Resolution, h: History)
    requires Sound(a, g, h) && !h.lost && Went(g.items, now, r, k, res)
    ensures Sound(a, g.(items := now), h.(lost := !res.Resolves?)) && SameFrame(g.items, now)
  {
    hide LrTables.Valid, Descending, Contiguous, Fans, Links, Filled, SameFrame, KeepsValues, Supported, Within, Owned;
    WentFacts(g.items, now, r, k, res);
    FrameShape(g, now);
    FrameChains(g.items, now);
    FrameDescends(g.items, now);
    SameLinks(a, g.items, now);
    FrameSupported(a, g.items, now);
    FrameTells(a, g.items, now, h);
    if res.Resolves? {
      WithinOwns(now, r, k);
      FrameOwned(g, now);
    }
  }

  lemma FrameSupported<V>(a: Lalr, items: seq<Item<V>>, now: seq<Item<V>>)
    requires Supported(a, items) && SameFrame(items, now)
    ensures Supported(a, now)
  {
    hide LrTables.Valid, Supported, Descending;
    SupportedDescends(a, items);
    FrameDescends(items, now);
    FrameChains(items, now);
    SupportedSame(a, items, now);
  }

  lemma FrameTells<V>(a: Lalr, items: seq<Item<V>>, now: seq<Item<V>>, h: History)
    requires Telling(a, items, h) && SameFrame(items, now)
    ensures Telling(a, now, h.(lost := true)) && Telling(a, now, h.(lost := false))
  {
    hide LrTables.Valid, Spans;
    FrameChains(items, now);
    if h.input.Some? {
      SpansSame(a, items, now, h.input.value);
    }
  }

  lemma WithinOwns<V>(items: seq<Item<V>>, r: Rules, k: Scope)
    requires Within(items, r, k)
    ensures Chained(items) && AllOwn(items)
  {
    hide OptionFits, Backed;
  }

  /** Everything above the split point is resolved, and everything below it has been before. */
  lemma {:induction false} ResolvedSettles<V>(g: Gss<V>, t: int, n: nat)
    requires Shape(g) && Owned(g) && g.split != NONE && IsTop(g.items, g.split, t)
    requires |Path(g.items, t)| == g.split + 1 + n && TopResolved(g.items, t, n)
    ensures StackSettled(g, t)
    decreases n
  {
    hide Descending, Contiguous, Fans, Chained, AllOwn, Path;
    SplitFacts(g, t);
    if n > 0 {
      PathStep(g.items, t);
      ResolvedSettles(g, g.items[t].pred, n - 1);
    } else {
      ContiguousPath(g.items, g.split + 1, t);
      forall x | x in Path(g.items, t) ensures Settled(g.items, x) {
        OnPath(g.items, t, x);
      }
    }
  }

  lemma SplitFacts<V>(g: Gss<V>, t: int)
    requires Shape(g) && g.split != NONE && IsTop(g.items, g.split, t)
    ensures StateAt(g.items, g.split) && Contiguous(g.items, g.split + 1) && Descending(g.items)
    ensures |Path(g.items, t)| > g.split && (t == g.split <==> |Path(g.items, t)| == g.split + 1)
    ensures t != g.split ==> Below(g.items, t) && IsTop(g.items, g.split, g.items[t].pred)
    ensures t != g.split ==> |Path(g.items, t)| == |Path(g.items, g.items[t].pred)| + 1
  {
    hide Descending, Contiguous;
    ContiguousPath(g.items, g.split + 1, g.split);
    SplitOnPath(g.items, g.split, t);
    PathStep(g.items, t);
    if t != g.split {
      SplitOnPath(g.items, g.split, g.items[t].pred);
    }
  }

  // ---------------------------------------------------------------- one stack

  /** One live stack, whose states all have their values unless an action failed. */
  ghost predicate Resting<V>(a: Lalr, g: Gss<V>, h: History) {
    Standard(a, g, h) && (!h.lost ==> StackSettled(g, g.tops[0]))
  }

  ghost predicate Calm<V>(a: Lalr, g: Gss<V>, posn: nat, h: History) {
    Resting(a, g, h) && g.items[g.tops[0]].posn == posn
  }

  lemma SingleSettled<V>(a: Lalr, g: Gss<V>, h: History)
    requires Standard(a, g, h) && !h.lost && g.split == NONE
    ensures StackSettled(g, g.tops[0])
  {
    hide LrTables.Valid, Linked, Supported, Telling, Fans, Chained, AllOwn, Contiguous, Descending, Path;
    var t := g.tops[0];
    forall x | x in Path(g.items, t) ensures Settled(g.items, x) {
      OnPath(g.items, t, x);
    }
  }

  lemma PushSettled<V>(items: seq<Item<V>>, t: int, x: Item<V>)
    requires Descending(items) && StateAt(items, t) && (forall y :: y in Path(items, t) ==> Settled(items, y))
    requires x.State? && x.pred == t && x.sem.Resolved? && items[t].posn <= x.posn
    ensures var now := items + [x];
            Descending(now) && StateAt(now, |items|) && forall y :: y in Path(now, |items|) ==> Settled(now, y)
  {
    hide Descending, Path;
    var now := items + [x];
    PushDescends(items, x);
    SamePath(items, now, t);
    PathStep(now, |items|);
    forall y | y in Path(now, |items|) ensures Settled(now, y) {
      if y in Path(items, t) {
        assert Settled(items, y);
      }
    }
  }

  /** A shift on the single stack. */
  lemma CalmPush<V>(a: Lalr, g: Gss<V>, lr: int, posn: nat, v: V, posn': nat, h: History, stale: bool)
    requires Calm(a, g, posn, h) && posn <= posn' && IsState(a, g.items[g.tops[0]].lr)
    requires IsState(a, lr) && lr != 0 && Links(a, g.items[g.tops[0]].lr, lr)
    requires Shape(PushState(g, 0, lr, posn', Resolved(v)).(stale := stale)) && StandsFor(a, h, lr, posn, posn')
    ensures CanPush(g, 0, posn')
    ensures Calm(a, PushState(g, 0, lr, posn', Resolved(v)).(stale := stale), posn', h)
  {
    hide LrTables.Valid, Links, Sound, Path, Descending;
    DescendingIn(a, g, h);
    PushSound(a, g, 0, lr, posn', v, h);
    var g' := PushState(g, 0, lr, posn', Resolved(v));
    MovedSound(a, g', stale, 0, h);
    if !h.lost {
      PushSettled(g.items, g.tops[0], State(lr, g.tops[0], posn', Resolved(v)));
    }
  }

  lemma DescendingIn<V>(a: Lalr, g: Gss<V>, h: History)
    requires Sound(a, g, h)
    ensures Descending(g.items) && Shape(g) && Linked(a, g.items)
  {
    hide Linked, Supported, Telling;
  }

  /** A reduction, or what is left of it if its action fails. */
  lemma CalmPop<V>(a: Lalr, g: Gss<V>, rule: int, posn: nat, h: History)
    requires Calm(a, g, posn, h) && CanReduce(a, g, 0, rule)
    ensures Length(a, rule) < |Path(g.items, g.tops[0])|
    ensures var g' := PopStack(g, 0, Length(a, rule));
            && Resting(a, g', h)
            && g'.items[g'.tops[0]].posn <= posn && g'.items[g'.tops[0]].lr == g.items[Uncovered(a, g, 0, rule)].lr
  {
    hide LrTables.Valid, Linked, Supported, Telling, Owned, Filled, Path, Back, Descending, Contiguous, Fans, Spine;
    Reducible(a, g, 0, rule);
    var n, t := Length(a, rule), g.tops[0];
    StandardPops(a, g, rule, h);
    PopEffect(g, 0, n);
    BackPath(g.items, t, n);
    var s := Back(g.items, t, n);
    var g' := PopStack(g, 0, n);
    SpinesEnd(g.items, s, g'.items, g'.tops[0]);
    if !h.lost {
      PopSettled(g, n);
    }
  }

  lemma PopSettled<V>(g: Gss<V>, n: nat)
    requires Shape(g) && |g.tops| == 1 && StateAt(g.items, g.tops[0]) && n < |Path(g.items, g.tops[0])|
    requires StackSettled(g, g.tops[0])
    ensures var g' := PopStack(g, 0, n);
            Descending(g'.items) && StateAt(g'.items, g'.tops[0]) && StackSettled(g', g'.tops[0])
  {
    hide Path, Back, Descending, Contiguous, Fans;
    var t := g.tops[0];
    var g', s := PopStack(g, 0, n), Back(g.items, t, n);
    PopKeepsShape(g, 0, n);
    BackPath(g.items, t, n);
    if g.split == NONE {
      PopSingle(g, n);
      PrefixChains(g.items, |g.items| - n);
      SamePath(g'.items, g.items, s);
    }
    forall x | x in Path(g'.items, s) ensures Settled(g'.items, x) {
      OnPath(g'.items, s, x);
      assert x in Path(g.items, t)[..|Path(g.items, t)| - n];
      assert Settled(g.items, x);
    }
  }

  /** A reduction in standard mode. */
  lemma CalmReduce<V>(a: Lalr, g: Gss<V>, rule: int, v: V, posn: nat, h: History, stale: bool)
    requires Calm(a, g, posn, h) && CanReduce(a, g, 0, rule)
    requires Shape(ReduceNow(a, g, 0, rule, v).(stale := stale))
    ensures Calm(a, ReduceNow(a, g, 0, rule, v).(stale := stale), posn, h)
  {
    hide LrTables.Valid, Linked, Supported, Telling, Sound, Links, PopStack, Path, Spine, Descending;
    Reducible(a, g, 0, rule);
    CalmPop(a, g, rule, posn, h);
    GotoLinks(a, g, 0, rule);
    var s := Uncovered(a, g, 0, rule);
    var g' := PopStack(g, 0, Length(a, rule));
    ReductionTells(a, g, rule, h);
    UncoveredStays(a, g, 0, rule);
    CalmPush(a, g', GotoRule(a, g.items[s].lr, rule), g'.items[g'.tops[0]].posn, v, posn, h, stale);
  }

  lemma ReductionTells<V>(a: Lalr, g: Gss<V>, rule: int, h: History)
    requires Sound(a, g, h) && CanReduce(a, g, 0, rule)
    ensures var s := Uncovered(a, g, 0, rule);
            StandsFor(a, h, GotoRule(a, g.items[s].lr, rule), g.items[s].posn, g.items[g.tops[0]].posn)
  {
    hide LrTables.Valid, Linked, Supported, Shape, Spans, SpanFits, Owned;
    if h.input.Some? {
      ReducedSpan(a, g, 0, rule, h.input.value);
    }
  }

  lemma CalmReduction<V>(a: Lalr, g: Gss<V>, rule: int, act: (int, seq<Semantics<V>>) -> ActionResult<V>, flag: Flag, g': Gss<V>,
                         posn: nat, h: History)
    requires Calm(a, g, posn, h) && CanReduce(a, g, 0, rule) && RunsAction(a, g, 0, rule, act, flag, g') && Shape(g')
    ensures if flag == YyOk then Calm(a, g', posn, h) else Resting(a, g', h)
  {
    hide LrTables.Valid, Calm, CanReduce, ReduceNow, PopStack, Resting, Shape;
    CanReduceFacts(a, g, 0, rule);
    var result := act(rule, Handle(g.items, g.tops[0], Length(a, rule)));
    if result.Returns? {
      CalmReduce(a, g, rule, result.value, posn, h, g'.stale);
    } else {
      CalmPop(a, g, rule, posn, h);
    }
  }

  lemma CanReduceFacts<V>(a: Lalr, g: Gss<V>, k: int, rule: int)
    requires CanReduce(a, g, k, rule)
    ensures IsRule(a, rule) && Descending(g.items) && 0 <= k < |g.tops| && StateAt(g.items, g.tops[k])
    ensures Length(a, rule) < |Path(g.items, g.tops[k])|
  {
    hide LrTables.Valid, Linked, Supported, Telling;
    Reducible(a, g, k, rule);
  }

  /** A stack that comes to the final state holds the start symbol and the end marker. */
  lemma AcceptedStack<V>(a: Lalr, g: Gss<V>, h: History)
    requires Standard(a, g, h) && g.items[g.tops[0]].lr == a.t.final
    ensures Descending(g.items)
    ensures var lrs := Lrs(Spine(g.items, g.tops[0]));
            IsPath(a, lrs) && |lrs| == 3 && 1 < |a.g.rhs| && Symbols(a, lrs[1..]) == a.g.rhs[1]
  {
    hide LrTables.Valid, Linked, Supported, Telling, Fans, Contiguous, Owned, Symbols;
    HasRules(a);
    StackIsPath(a, g.items, g.tops[0]);
    AcceptStack(a, Lrs(Spine(g.items, g.tops[0])));
  }

  lemma HasRules(a: Lalr)
    ensures 1 < |a.g.rhs|
  {
  }

  /** The stacks that are left when one was kept. */
  lemma {:induction false} OneLiveLeft(tops: seq<int>, k: nat)
    requires k < |tops| && tops[k] != NONE && forall i :: 0 <= i < |tops| && i != k ==> tops[i] == NONE
    ensures LiveEntries(tops, tops) == [tops[k]]
  {
    if k < |tops| - 1 {
      OneLiveLeft(Front(tops), k);
    } else {
      NoneLeft(Front(tops));
    }
  }

  lemma {:induction false} NoneLeft(tops: seq<int>)
    requires forall i :: 0 <= i < |tops| ==> tops[i] == NONE
    ensures LiveEntries(tops, tops) == []
  {
    if tops != [] {
      NoneLeft(Front(tops));
    }
  }

  /** A single stack popped until a state shifts the error token: what is left, if anything. */
  lemma PoppedSound<V>(a: Lalr, g: Gss<V>, n: nat, h: History)
    requires Standard(a, g, h) && g.split == NONE && n <= |g.items|
    ensures var g' := g.(items := g.items[..n], tops := [n - 1]);
            Sound(a, g', h) && (n > 0 ==> g.items[n - 1].State? && Calm(a, g', g.items[n - 1].posn, h))
  {
    hide LrTables.Valid, Linked, Supported, Telling, Owned, Filled, Descending, Contiguous, Fans, StackSettled;
    if n > 0 {
      ErrorPopSound(a, g, n, h);
      if !h.lost {
        SingleSettled(a, g.(items := g.items[..n], tops := [n - 1]), h);
      }
    } else {
      NothingSound(a, g, h);
    }
  }

  lemma NothingSound<V>(a: Lalr, g: Gss<V>, h: History)
    requires Shape(g) && g.split == NONE
    ensures Sound(a, g.(items := g.items[..0], tops := [-1]), h)
  {
    assert g.items[..0] == [];
    NothingTells<V>(a, h);
  }

  lemma NothingTells<V>(a: Lalr, h: History)
    ensures Telling<V>(a, [], h)
  {
  }

  lemma TopIsState<V>(a: Lalr, g: Gss<V>, t: int, h: History)
    requires Sound(a, g, h) && StateAt(g.items, t)
    ensures IsState(a, g.items[t].lr)
  {
    hide LrTables.Valid, Shape, Owned, Links;
    assert LinkedAt(a, g.items, t);
  }
}
