/** The values of deferred reductions: yyresolveStates, yyresolveValue and yyresolveAction, which call
    each other down the stacks of the right-hand sides. */
module GlrValues {
  import opened Collections
  import opened GlrShape
  import opened GlrOptions
  import opened GlrResolve
  import opened GlrStack

  /** What a resolution comes to. An ambiguity is an abort; Tired says that the recursion was followed
      to a given depth only. */
  datatype Resolution = Resolves | IsAmbiguous(x0: int, x1: int) | ActionFails(flag: Flag) | Tired

  /** The grammar's part: rules, actions, and mergers of values. */
  datatype Actions<!V> = Actions(r: Rules, act: (int, seq<Semantics<V>>) -> ActionResult<V>, userMerge: (int, V, V) -> V)

  /** The n topmost states of a stack have their values. */
  ghost predicate TopResolved<V>(items: seq<Item<V>>, t: int, n: nat)
    requires Descending(items) && StateAt(items, t) && n < |Path(items, t)|
    decreases n
  {
    if n == 0 then true
    else
      PathStep(items, t);
      items[t].sem.Resolved? && TopResolved(items, items[t].pred, n - 1)
  }

  lemma {:induction false} TopResolvedStays<V>(items: seq<Item<V>>, now: seq<Item<V>>, t: int, n: nat)
    requires RhsFits(items, t, n) && TopResolved(items, t, n)
    requires SameFrame(items, now) && KeepsValues(items, now)
    ensures RhsFits(now, t, n) && TopResolved(now, t, n)
    decreases n
  {
    hide Descending;
    FrameDescends(items, now);
    SamePath(items, now, t);
    if n > 0 {
      PathStep(items, t);
      TopResolvedStays(items, now, items[t].pred, n - 1);
    }
  }

  // ---------------------------------------------------------------- what is kept

  /** A resolution changes semantics and links within its scope. If it succeeds, no state loses anything. */
  ghost predicate Went<V>(items: seq<Item<V>>, now: seq<Item<V>>, r: Rules, k: Scope, res: Resolution) {
    && Within(now, r, k) && Changes(items, now, k.w, k.around)
    && (res.Resolves? ==> LosesNothing(items, now))
  }

  /** The scope in which everything may change that is below an option of the given scope. */
  function Inner(k: Scope): Scope {
    Scope(k.u, k.states, k.u, k.states)
  }

  lemma InnerWithin<V>(items: seq<Item<V>>, r: Rules, k: Scope)
    requires Within(items, r, k)
    ensures Within(items, r, Inner(k))
  {
    hide OptionFits, Backed, Mergeable;
  }

  /** What went on below an option went on within the scope. */
  lemma WentBelow<V>(items: seq<Item<V>>, now: seq<Item<V>>, r: Rules, k: Scope, res: Resolution)
    requires Within(items, r, k) && Went(items, now, r, Inner(k), res)
    ensures Went(items, now, r, k, res) && Changes(items, now, k.u, k.states)
  {
    hide OptionFits, Backed, Mergeable, Changes, LosesNothing;
    WithinParts(now, r, Inner(k));
    Widen(items, now, r, k);
  }

  lemma WithinParts<V>(items: seq<Item<V>>, r: Rules, k: Scope)
    requires Within(items, r, k)
    ensures Mergeable(items, k.u, k.states) && Mergeable(items, k.w, k.around) && Backed(items, r)
  {
    hide OptionFits, Backed, Mergeable;
  }

  lemma WentNowhere<V>(items: seq<Item<V>>, r: Rules, k: Scope)
    requires Within(items, r, k)
    ensures Went(items, items, r, k, Resolves)
  {
    hide Within, LosesNothing;
    NoChange(items, k.w, k.around);
  }

  lemma WentOn<V>(items: seq<Item<V>>, before: seq<Item<V>>, now: seq<Item<V>>, r: Rules, k: Scope, res: Resolution, res': Resolution)
    requires Went(items, before, r, k, res) && Went(before, now, r, k, res')
    ensures Went(items, now, r, k, if res.Resolves? then res' else res)
  {
    hide Within, LosesNothing;
    OneMoreChange(items, before, now, k.w, k.around, k.around);
    if res.Resolves? && res'.Resolves? {
      LosesNothingTwice(items, before, now);
    }
  }

  lemma WentFacts<V>(items: seq<Item<V>>, now: seq<Item<V>>, r: Rules, k: Scope, res: Resolution)
    requires Went(items, now, r, k, res)
    ensures Within(now, r, k) && SameFrame(items, now)
    ensures res.Resolves? ==> KeepsValues(items, now) && (Filled(items) ==> Filled(now))
  {
    hide Within, Filled, KeepsValues;
  }

  /** A right-hand side stays where it is. */
  lemma FrameRhs<V>(items: seq<Item<V>>, now: seq<Item<V>>, t: int, n: nat, states: set<int>)
    requires SameFrame(items, now) && RhsFits(items, t, n) && Covered(items, t, n, states)
    ensures RhsFits(now, t, n) && Covered(now, t, n, states) && now[t].State? && now[t].pred == items[t].pred
  {
    hide Descending, Path, Back, SameChains;
    FrameDescends(items, now);
    FrameBack(items, now, t, n);
    forall i | 0 <= i < n ensures Back(now, t, i) in states {
      FrameBack(items, now, t, i);
      assert Back(items, t, i) in states;
    }
  }

  /** The right-hand side without its last symbol. */
  lemma ShorterRhs<V>(items: seq<Item<V>>, t: int, n: nat, states: set<int>)
    requires RhsFits(items, t, n) && Covered(items, t, n, states) && 0 < n
    ensures t in states && RhsFits(items, items[t].pred, n - 1) && Covered(items, items[t].pred, n - 1, states)
  {
    hide Descending, Path;
    PathStep(items, t);
    assert Back(items, t, 0) == t;
    forall i | 0 <= i < n - 1 ensures Back(items, items[t].pred, i) in states {
      assert Back(items, t, i + 1) == Back(items, items[t].pred, i);
    }
  }

  /** A state of the scope that has alternatives begins with one of the scope. */
  lemma FirstWithin<V>(items: seq<Item<V>>, r: Rules, k: Scope, yys: int)
    requires Within(items, r, k) && Filled(items) && yys in k.around
    ensures StateAt(items, yys)
    ensures items[yys].sem.Unresolved? ==> OwnsChain(items, yys) && items[yys].sem.first in k.w
  {
    hide OptionFits, Backed, Chained;
    assert StateAt(items, yys) && FilledAt(items, yys);
  }

  /** A state gets its value, or loses its alternatives. */
  lemma SetWithin<V>(items: seq<Item<V>>, r: Rules, k: Scope, yys: int, sem: Semantics<V>)
    requires Within(items, r, k) && yys in k.around && StateAt(items, yys) && (sem.Unresolved? ==> sem.first == NONE)
    ensures var now := items[yys := items[yys].(sem := sem)];
            Went(items, now, r, k, if sem.Resolved? then Resolves else Tired)
  {
    hide OptionFits, Backed, Mergeable;
    var now := items[yys := items[yys].(sem := sem)];
    SetAny(items, yys, sem, k.u, k.states);
    SetAny(items, yys, sem, k.w, k.around);
    FrameBacked(items, now, r);
    forall y | y in k.w ensures OptionFits(now, r, y, k.states) {
      FrameFits(items, now, r, y, k.states);
    }
  }

  lemma SetAny<V>(items: seq<Item<V>>, s: int, sem: Semantics<V>, u: set<int>, states: set<int>)
    requires Mergeable(items, u, states) && StateAt(items, s) && (sem.Unresolved? ==> sem.first == NONE)
    ensures var now := items[s := items[s].(sem := sem)];
            Mergeable(now, u, states) && SameFrame(items, now) && (sem.Resolved? ==> LosesNothing(items, now))
  {
    var now := items[s := items[s].(sem := sem)];
    forall i | ChoiceAt(now, i) ensures NextBelow(now, i) {
      assert ChoiceAt(items, i) && NextBelow(items, i);
    }
    forall i | i in u ensures ChoiceAt(now, i) && In(u, now[i].next) {
      assert ChoiceAt(items, i) && In(u, items[i].next);
    }
    forall i | StateAt(now, i)
      ensures now[i].sem.Unresolved? ==> HeadAt(now, now[i].sem.first)
      ensures sem.Resolved? && Filled(items) ==> FilledAt(now, i)
    {
      assert StateAt(items, i) && (Filled(items) ==> FilledAt(items, i));
    }
    forall i | i in states ensures StateAt(now, i) && (now[i].sem.Unresolved? ==> In(u, now[i].sem.first)) {
      assert StateAt(items, i);
    }
  }

  // ---------------------------------------------------------------- what is evaluated

  /** An option was evaluated: its right-hand side had values, and its action returned normally. */
  ghost predicate Evaluates<V>(items: seq<Item<V>>, y: int, m: Actions<V>, value: V) {
    && ChoiceAt(items, y) && BackedAt(items, m.r, y)
    && var n := m.r.length(items[y].rule);
       && TopResolved(items, items[y].rhs, n)
       && m.act(items[y].rule, Handle(items, items[y].rhs, n)) == Returns(value)
  }

  /** An option that was evaluated, with the items at that moment and its value. */
  datatype Evaluation<+V> = Evaluation(option: int, items: seq<Item<V>>, value: V)

  /** These options were evaluated, in this order. */
  ghost predicate Evaluated<V>(m: Actions<V>, log: seq<Evaluation<V>>, options: seq<int>) {
    && |log| == |options|
    && forall i :: 0 <= i < |log| ==> log[i].option == options[i] && Evaluates(log[i].items, options[i], m, log[i].value)
  }

  /** Their values, each merged into what the ones before it came to. */
  function Merged<V>(m: Actions<V>, rule: int -> int, log: seq<Evaluation<V>>): V
    requires log != []
  {
    if |log| == 1 then log[0].value
    else m.userMerge(m.r.merger(rule(Last(log).option)), Merged(m, rule, Front(log)), Last(log).value)
  }

  /** The options of the given precedence from some place of the chain on. */
  function OfPrecedence(r: Rules, rule: int -> int, prec: int, options: seq<int>): seq<int> {
    if options == [] then []
    else (if r.dprec(rule(options[0])) == prec then [options[0]] else []) + OfPrecedence(r, rule, prec, options[1..])
  }

  lemma {:induction false} NoneOfPrecedence(r: Rules, rule: int -> int, prec: int, options: seq<int>)
    requires forall i :: 0 <= i < |options| ==> r.dprec(rule(options[i])) != prec
    ensures OfPrecedence(r, rule, prec, options) == []
  {
    if options != [] {
      NoneOfPrecedence(r, rule, prec, options[1..]);
    }
  }

  lemma {:induction false} PrecedenceStep(r: Rules, rule: int -> int, prec: int, p: int, rest: seq<int>)
    ensures OfPrecedence(r, rule, prec, [p] + rest)
         == if r.dprec(rule(p)) == prec then [p] + OfPrecedence(r, rule, prec, rest) else OfPrecedence(r, rule, prec, rest)
  {
    assert ([p] + rest)[1..] == rest;
    EmptyConcat(OfPrecedence(r, rule, prec, rest));
  }

  /** The chain from y on is outside of u. */
  ghost predicate Outside<V>(items: seq<Item<V>>, y: int, u: set<int>) {
    && Chained(items) && HeadAt(items, y) && forall x :: x in Chain(items, y) ==> x !in u
  }

  /** A chain outside of what changes stays. */
  lemma OutsideStays<V>(items: seq<Item<V>>, now: seq<Item<V>>, y: int, u: set<int>, states: set<int>)
    requires Outside(items, y, u) && Changes(items, now, u, states) && Mergeable(items, u, states) && Chained(now)
    ensures Outside(now, y, u) && Chain(now, y) == Chain(items, y)
  {
    hide Chained, Chain, AllOwn, Closed;
    Parts(items, u, states);
    ChainDecreases(items, y);
    forall x | x in Chain(items, y) ensures 0 <= x < |items| && now[x] == items[x] {
      assert ChoiceAt(items, x);
    }
    ChainKept(items, now, y);
  }

  lemma OutsideNext<V>(items: seq<Item<V>>, y: int, u: set<int>)
    requires Outside(items, y, u) && y != NONE
    ensures ChoiceAt(items, y) && Chained(items) && HeadAt(items, items[y].next)
    ensures Outside(items, items[y].next, u) && Chain(items, y) == [y] + Chain(items, items[y].next)
  {
    hide Chained, Chain;
    ChainStep(items, y);
    forall x | x in Chain(items, items[y].next) ensures x !in u {
      assert x in [y] + Chain(items, items[y].next);
    }
  }

  /** What an evaluation of the options in `goal` came to: all of them were evaluated and their values
      merged, or one was not, and those before it were. */
  ghost predicate Yields<V>(m: Actions<V>, rule: int -> int, log: seq<Evaluation<V>>, goal: seq<int>, value: Option<V>, res: Resolution) {
    if res.Resolves? then log != [] && Evaluated(m, log, goal) && value == Some(Merged(m, rule, log))
    else |log| < |goal| && Evaluated(m, log, goal[..|log|])
  }

  /** The merge loop at option p of the chain: what was evaluated, and what is still to be. */
  ghost predicate Merging<V>(now: seq<Item<V>>, m: Actions<V>, rule: int -> int, prec: int, log: seq<Evaluation<V>>, p: int, v: V,
                             goal: seq<int>, u: set<int>)
  {
    && Outside(now, p, u) && log != [] && |log| <= |goal| && Evaluated(m, log, goal[..|log|])
    && v == Merged(m, rule, log) && Last(log).items == now && goal[|log|..] == OfPrecedence(m.r, rule, prec, Chain(now, p))
  }

  /** The options to evaluate: the best one, and those of its precedence after it, if they are to be merged. */
  ghost function Goal<V>(items: seq<Item<V>>, m: Actions<V>, rule: int -> int, best: int, merge: bool): seq<int>
    requires Chained(items) && ChoiceAt(items, best)
  {
    assert NextBelow(items, best);
    [best] + if merge then OfPrecedence(m.r, rule, m.r.dprec(rule(best)), Chain(items, items[best].next)) else []
  }

  lemma StartMerging<V>(items: seq<Item<V>>, now: seq<Item<V>>, m: Actions<V>, rule: int -> int, best: int, v: V, u: set<int>,
                        states: set<int>)
    requires Outside(items, best, u) && best != NONE && Evaluates(now, best, m, v)
    requires Changes(items, now, u, states) && Mergeable(items, u, states) && Chained(now)
    ensures ChoiceAt(now, best) && ChoiceAt(items, best) && Chained(items)
    ensures Merging(now, m, rule, m.r.dprec(rule(best)), [Evaluation(best, now, v)], now[best].next, v, Goal(items, m, rule, best, true), u)
  {
    hide Chained, Chain, Evaluates, Outside, OfPrecedence;
    OutsideParts(items, best, u);
    OutsideStays(items, now, best, u, states);
    OutsideNext(items, best, u);
    OutsideNext(now, best, u);
    assert Chain(now, now[best].next) == Chain(now, best)[1..] == Chain(items, best)[1..] == Chain(items, items[best].next);
    var rest := OfPrecedence(m.r, rule, m.r.dprec(rule(best)), Chain(items, items[best].next));
    assert ([best] + rest)[..1] == [best] && ([best] + rest)[1..] == rest;
  }

  lemma OutsideParts<V>(items: seq<Item<V>>, y: int, u: set<int>)
    requires Outside(items, y, u)
    ensures Chained(items) && HeadAt(items, y)
  {
  }

  lemma SkipMerging<V>(now: seq<Item<V>>, m: Actions<V>, rule: int -> int, prec: int, log: seq<Evaluation<V>>, p: int, v: V,
                       goal: seq<int>, u: set<int>)
    requires Merging(now, m, rule, prec, log, p, v, goal, u) && p != NONE && m.r.dprec(rule(p)) != prec
    ensures ChoiceAt(now, p) && Merging(now, m, rule, prec, log, now[p].next, v, goal, u)
  {
    hide Chained, Chain, Evaluates, OfPrecedence;
    OutsideNext(now, p, u);
    PrecedenceStep(m.r, rule, prec, p, Chain(now, now[p].next));
  }

  /** The option p is next, and is evaluated. */
  lemma NextMerging<V>(items: seq<Item<V>>, now: seq<Item<V>>, m: Actions<V>, rule: int -> int, prec: int, log: seq<Evaluation<V>>,
                       p: int, v: V, w: V, goal: seq<int>, u: set<int>, states: set<int>)
    requires Merging(items, m, rule, prec, log, p, v, goal, u) && p != NONE && m.r.dprec(rule(p)) == prec
    requires Evaluates(now, p, m, w) && Changes(items, now, u, states) && Mergeable(items, u, states) && Chained(now)
    ensures ChoiceAt(now, p)
    ensures Merging(now, m, rule, prec, log + [Evaluation(p, now, w)], now[p].next, m.userMerge(m.r.merger(rule(p)), v, w), goal, u)
  {
    hide Chained, Chain, Evaluates, OfPrecedence, Outside;
    OutsideParts(items, p, u);
    OutsideStays(items, now, p, u, states);
    OutsideNext(items, p, u);
    OutsideNext(now, p, u);
    assert Chain(now, now[p].next) == Chain(now, p)[1..] == Chain(items, p)[1..] == Chain(items, items[p].next);
    PrecedenceStep(m.r, rule, prec, p, Chain(items, items[p].next));
    var rest, more := OfPrecedence(m.r, rule, prec, Chain(items, items[p].next)), log + [Evaluation(p, now, w)];
    assert goal[|log|..] == [p] + rest;
    assert goal[|log|] == p && goal[|log| + 1..] == goal[|log|..][1..] == rest;
    assert goal[..|more|] == goal[..|log|] + [p];
    assert Front(more) == log;
  }

  /** It is next, and its evaluation fails. */
  lemma StopMerging<V>(items: seq<Item<V>>, m: Actions<V>, rule: int -> int, prec: int, log: seq<Evaluation<V>>, p: int, v: V,
                       goal: seq<int>, u: set<int>, res: Resolution)
    requires Merging(items, m, rule, prec, log, p, v, goal, u) && p != NONE && m.r.dprec(rule(p)) == prec && !res.Resolves?
    ensures Yields(m, rule, log, goal, None, res)
  {
    hide Chained, Chain, Evaluates, OfPrecedence;
    OutsideNext(items, p, u);
    PrecedenceStep(m.r, rule, prec, p, Chain(items, items[p].next));
  }

  lemma EndMerging<V>(now: seq<Item<V>>, m: Actions<V>, rule: int -> int, prec: int, log: seq<Evaluation<V>>, v: V,
                      goal: seq<int>, u: set<int>)
    requires Merging(now, m, rule, prec, log, NONE, v, goal, u)
    ensures Yields(m, rule, log, goal, Some(v), Resolves) && log != [] && Last(log).items == now
  {
    hide Evaluates;
    assert Chain(now, NONE) == [];
    assert goal[|log|..] == [] && |goal| == |log| && goal[..|log|] == goal;
  }

  // ---------------------------------------------------------------- the recursion

  /** A resolution fails because of an action that does not return normally, or of alternatives that
      cannot be decided between. */
  ghost predicate Blamed<V(!new)>(m: Actions<V>, res: Resolution) {
    && (res.ActionFails? ==> exists rule, rhs :: !m.act(rule, rhs).Returns? && res == ActionFails(FlagOf(m.act(rule, rhs))))
    && (res.IsAmbiguous? ==> Undecided(m.r))
  }

  lemma ActionBlamed<V(!new)>(m: Actions<V>, rule: int, rhs: seq<Semantics<V>>)
    ensures Blamed(m, Came(m.act(rule, rhs)))
  {
  }

  /** What an action that was run makes of the resolution. */
  function Came<V>(result: ActionResult<V>): Resolution {
    if result.Returns? then Resolves else ActionFails(FlagOf(result))
  }

  /** The state has one alternative, of an empty rule. */
  ghost predicate AtOnce<V>(items: seq<Item<V>>, m: Actions<V>, s: int) {
    && OwnsChain(items, s) && items[s].sem.first != NONE && items[items[s].sem.first].next == NONE
    && m.r.length(items[items[s].sem.first].rule) == 0
  }

  /** What its action makes of it. */
  ghost function Ran<V>(items: seq<Item<V>>, m: Actions<V>, s: int): ActionResult<V>
    requires AtOnce(items, m, s)
  {
    m.act(items[items[s].sem.first].rule, [])
  }

  ghost function RunOn<V>(items: seq<Item<V>>, m: Actions<V>, s: int): seq<Item<V>>
    requires AtOnce(items, m, s)
  {
    var result := Ran(items, m, s);
    items[s := items[s].(sem := if result.Returns? then Resolved(result.value) else Unresolved(NONE))]
  }

  /** The lowest of n states is such a state, and its action fails. */
  ghost predicate Doomed<V>(items: seq<Item<V>>, m: Actions<V>, t: int, n: nat) {
    && RhsFits(items, t, n) && 0 < n && AtOnce(items, m, Back(items, t, n - 1)) && !Ran(items, m, Back(items, t, n - 1)).Returns?
  }

  /** yyresolveStates: the n topmost states from t down get their values, the lowest first. If the first
      action fails, nothing above its state is touched. */
  method ResolveStates<V(!new)>(a: array<Item<V>>, used: nat, t: int, n: nat, m: Actions<V>, fuel: nat, ghost k: Scope)
    returns (res: Resolution)
    requires used <= a.Length && Within(a[..used], m.r, k) && Filled(a[..used]) && k == Inner(k)
    requires RhsFits(a[..used], t, n) && Covered(a[..used], t, n, k.states)
    modifies a
    ensures Went(old(a[..used]), a[..used], m.r, k, res) && Blamed(m, res)
    ensures RhsFits(a[..used], t, n) && (res.Resolves? ==> TopResolved(a[..used], t, n))
    ensures n == 0 ==> res.Resolves? && a[..used] == old(a[..used])
    ensures 0 < fuel && old(Doomed(a[..used], m, t, n)) ==>
              var lowest := old(Back(a[..used], t, n - 1));
              res == Came(Ran(old(a[..used]), m, lowest)) && a[..used] == RunOn(old(a[..used]), m, lowest)
    decreases fuel, 3, n
  {
    hide Within, Went, Filled, RhsFits, Covered, LosesNothing, SameFrame, KeepsValues, TopResolved, Doomed, AtOnce, RunOn, Ran;
    ghost var items := a[..used];
    res := Resolves;
    WentNowhere(items, m.r, k);
    if n == 0 {
      NoStates(items, t);
      NotDoomed(items, m, t);
    } else {
      ShorterRhs(items, t, n, k.states);
      StateIn(items, t, n);
      DoomedBelow(items, m, t, n);
      var yypred := a[t].pred;
      res := ResolveStates(a, used, yypred, n - 1, m, fuel, k);
      ghost var g := a[..used];
      WentFacts(items, g, m.r, k, res);
      FrameRhs(items, g, t, n, k.states);
      StateIn(g, t, n);
      if res.Resolves? && a[t].sem.Unresolved? {
        ghost var log;
        res, log := ResolveValue(a, used, t, m, fuel, k);
        WentFacts(g, a[..used], m.r, k, res);
        FrameRhs(g, a[..used], t, n, k.states);
        WentOn(items, g, a[..used], m.r, k, Resolves, res);
        if res.Resolves? {
          TopResolvedStays(g, a[..used], yypred, n - 1);
        }
      }
      if res.Resolves? {
        OneMoreResolved(a[..used], t, n);
      }
      if 0 < fuel && Doomed(items, m, t, n) {
        DoomedFacts(items, m, t, n);
      }
    }
  }

  /** yyresolveValue: the alternatives of the state are compared, the best ones evaluated, and the state
      gets their value, or loses its alternatives if an action fails. If the state and its chain are
      apart from what may change below, `log` is what was evaluated, and the options are the ones that
      the comparisons choose. */
  method ResolveValue<V(!new)>(a: array<Item<V>>, used: nat, yys: int, m: Actions<V>, fuel: nat, ghost k: Scope)
    returns (res: Resolution, ghost log: seq<Evaluation<V>>)
    requires used <= a.Length && Within(a[..used], m.r, k) && Filled(a[..used])
    requires StateAt(a[..used], yys) && yys in k.around && a[yys].sem.Unresolved?
    modifies a
    ensures Went(old(a[..used]), a[..used], m.r, k, res) && Blamed(m, res)
    ensures a[yys].State? && (res.Resolves? ==> a[yys].sem.Resolved?)
    ensures 0 < fuel && old(AtOnce(a[..used], m, yys)) ==>
              res == Came(Ran(old(a[..used]), m, yys)) && a[..used] == RunOn(old(a[..used]), m, yys)
    ensures old(ApartOf(a[..used], yys, m.r, k)) ==>
              ResolvedBy(old(a[..used]), a[..used], yys, m, log, Outcome(old(a[..used]), m.r, old(Chain(a[..used], a[yys].sem.first))), res)
    decreases fuel, 2, 0
  {
    hide Within, Went, Filled, LosesNothing, SameFrame, KeepsValues, ApartOf, ResolvedBy, Outcome, Chained, Tells, ChainApart, Chain,
      Yields, Goal, RuleIn, Outside, Chooses;
    ghost var items := a[..used];
    FirstWithin(items, m.r, k, yys);
    WithinFacts(items, m.r, k, a[yys].sem.first);
    WithinChained(items, m.r, k);
    ghost var apart := ApartOf(items, yys, m.r, k);
    log := [];
    var v := ScanOptions(a, used, yys, m.r, k);
    ghost var scanned := a[..used];
    ScanWent(items, scanned, m.r, k);
    StateStays(items, scanned, m.r, k, Resolves, yys);
    match v {
      case Ambiguity(x0, x1) =>
        res := IsAmbiguous(x0, x1);
        WentWeaker(items, scanned, m.r, k, res);
        if apart {
          AmbiguousResult(items, scanned, yys, m, k, x0, x1);
        }
      case Selected(best, merge) =>
        ghost var goal: seq<int> := [];
        if apart {
          goal := ChosenGoal(items, scanned, yys, m, k, best, merge);
        }
        var value;
        RulesStay(items, scanned, m.r, k, Resolves);
        res, value, log := EvaluateOptions(a, used, best, merge, m, fuel, k, RuleIn(items));
        ghost var now := a[..used];
        WentOn(items, scanned, now, m.r, k, Resolves, res);
        StateStays(scanned, now, m.r, k, res, yys);
        if res.Resolves? {
          SetWithin(now, m.r, k, yys, Resolved(value.value));
          a[yys] := a[yys].(sem := Resolved(value.value));
          WentOn(items, now, a[..used], m.r, k, res, Resolves);
        } else if !res.Tired? {
          SetWithin(now, m.r, k, yys, Unresolved(NONE));
          a[yys] := a[yys].(sem := Unresolved(NONE));
          WentOn(items, now, a[..used], m.r, k, res, Tired);
        }
        if apart {
          ChosenResult(items, now, a[..used], yys, m, log, Outcome(items, m.r, Chain(items, items[yys].sem.first)), goal, value, res);
        }
    }
  }

  /** The second half of yyresolveValue: the best option is evaluated, and the others of its precedence
      that come after it, if they are to be merged. */
  method EvaluateOptions<V(!new)>(a: array<Item<V>>, used: nat, best: int, merge: bool, m: Actions<V>, fuel: nat, ghost k: Scope,
                            ghost rule: int -> int)
    returns (res: Resolution, value: Option<V>, ghost log: seq<Evaluation<V>>)
    requires used <= a.Length && Within(a[..used], m.r, k) && Filled(a[..used]) && best in k.w
    requires ReadsRules(a[..used], rule)
    modifies a
    ensures Went(old(a[..used]), a[..used], m.r, k, res) && (value.Some? <==> res.Resolves?) && Blamed(m, res)
    ensures 0 < fuel && !merge && m.r.length(old(a[best]).rule) == 0 ==>
              && a[..used] == old(a[..used]) && res == Came(m.act(old(a[best]).rule, []))
              && (res.Resolves? ==> value == Some(m.act(old(a[best]).rule, []).value))
    ensures old(Outside(a[..used], best, k.u)) ==>
              && Yields(m, rule, log, Goal(old(a[..used]), m, rule, best, merge), value, res)
              && (res.Resolves? ==> log != [] && Last(log).items == a[..used])
    decreases fuel, 1, 0
  {
    hide Within, Went, Filled, LosesNothing, SameFrame, KeepsValues, Outside, Yields, Evaluates, Merging, Chained, Chain, Changes, Goal,
      ReadsRules;
    ghost var items := a[..used];
    ghost var apart := Outside(items, best, k.u);
    WithinFacts(items, m.r, k, best);
    WithinChained(items, m.r, k);
    ghost var goal := Goal(items, m, rule, best, merge);
    log := [];
    res, value := ResolveAction(a, used, best, m, fuel, k);
    GoalStarts(items, m, rule, best, merge, res);
    if !res.Resolves? {
      return;
    }
    ghost var now := a[..used];
    WentFacts(items, now, m.r, k, res);
    WithinChained(now, m.r, k);
    RulesAt(items, now, rule, best);
    log := [Evaluation(best, now, value.value)];
    if apart {
      StartMerging(items, now, m, rule, best, value.value, k.u, k.states);
      SingleYields(items, now, m, rule, best, value.value, merge);
    }
    if merge {
      var prec := m.r.dprec(a[best].rule);
      WithinFacts(now, m.r, k, best);
      var p := a[best].next;
      while p != NONE
        invariant Went(items, a[..used], m.r, k, Resolves) && res.Resolves? && value.Some? && In(k.w, p)
        invariant apart ==> Merging(a[..used], m, rule, prec, log, p, value.value, goal, k.u)
        decreases p + 1
      {
        ghost var before := a[..used];
        WentFacts(items, before, m.r, k, Resolves);
        WithinFacts(before, m.r, k, p);
        WithinChained(before, m.r, k);
        RulesAt(items, before, rule, p);
        if prec == m.r.dprec(a[p].rule) {
          var other;
          res, other := ResolveAction(a, used, p, m, fuel, k);
          WentOn(items, before, a[..used], m.r, k, Resolves, res);
          if !res.Resolves? {
            if apart {
              StopMerging(before, m, rule, prec, log, p, value.value, goal, k.u, res);
            }
            value := None;
            return;
          }
          WentFacts(items, a[..used], m.r, k, res);
          WithinChained(a[..used], m.r, k);
          RulesAt(items, a[..used], rule, p);
          if apart {
            NextMerging(before, a[..used], m, rule, prec, log, p, value.value, other.value, goal, k.u, k.states);
          }
          log := log + [Evaluation(p, a[..used], other.value)];
          value := Some(m.userMerge(m.r.merger(a[p].rule), value.value, other.value));
        } else if apart {
          SkipMerging(before, m, rule, prec, log, p, value.value, goal, k.u);
        }
        WithinFacts(a[..used], m.r, k, p);
        p := a[p].next;
      }
      if apart {
        EndMerging(a[..used], m, rule, prec, log, value.value, goal, k.u);
      }
    }
  }

  /** yyresolveAction: the states of the option's right-hand side are resolved, and its action is run. */
  method ResolveAction<V(!new)>(a: array<Item<V>>, used: nat, y: int, m: Actions<V>, fuel: nat, ghost k: Scope)
    returns (res: Resolution, value: Option<V>)
    requires used <= a.Length && Within(a[..used], m.r, k) && Filled(a[..used]) && y in k.w
    modifies a
    ensures Went(old(a[..used]), a[..used], m.r, k, res) && Changes(old(a[..used]), a[..used], k.u, k.states)
    ensures Blamed(m, res)
    ensures value.Some? <==> res.Resolves?
    ensures res.Resolves? ==> Evaluates(a[..used], y, m, value.value)
    ensures 0 < fuel && m.r.length(old(a[y]).rule) == 0 ==>
              && a[..used] == old(a[..used]) && res == Came(m.act(old(a[y]).rule, []))
              && (res.Resolves? ==> value == Some(m.act(old(a[y]).rule, []).value))
    decreases fuel, 0, 0
  {
    hide Within, Went, Filled, RhsFits, Covered, LosesNothing, TopResolved, Path, Descending;
    ghost var items := a[..used];
    value := None;
    WentNowhere(items, m.r, k);
    WithinFacts(items, m.r, k, y);
    if fuel == 0 {
      res := Tired;
      WentWeaker(items, items, m.r, k, res);
      NoChange(items, k.u, k.states);
      return;
    }
    var t, n := a[y].rhs, m.r.length(a[y].rule);
    InnerWithin(items, m.r, k);
    res := ResolveStates(a, used, t, n, m, fuel - 1, Inner(k));
    ghost var now := a[..used];
    WentBelow(items, now, m.r, k, res);
    if res.Resolves? {
      RhsParts(now, t, n);
      var rhs := CollectSemantics(a, used, t, n);
      var result := m.act(a[y].rule, rhs);
      res := Came(result);
      ActionBlamed(m, a[y].rule, rhs);
      if result.Returns? {
        value := Some(result.value);
      } else {
        WentWeaker(items, now, m.r, k, res);
      }
    }
  }

  // ---------------------------------------------------------------- steps of the recursion

  lemma DoomedBelow<V>(items: seq<Item<V>>, m: Actions<V>, t: int, n: nat)
    requires RhsFits(items, t, n) && 0 < n && RhsFits(items, items[t].pred, n - 1)
    ensures Doomed(items, m, t, n) ==>
              if n == 1 then Back(items, t, 0) == t && AtOnce(items, m, t) && !Ran(items, m, t).Returns? && items[t].sem.Unresolved?
              else Doomed(items, m, items[t].pred, n - 1) && Back(items, items[t].pred, n - 2) == Back(items, t, n - 1)
  {
    hide Descending, Path;
  }

  lemma NotDoomed<V>(items: seq<Item<V>>, m: Actions<V>, t: int)
    ensures !Doomed(items, m, t, 0)
  {
  }

  lemma DoomedFacts<V>(items: seq<Item<V>>, m: Actions<V>, t: int, n: nat)
    requires Doomed(items, m, t, n)
    ensures RhsFits(items, t, n) && 0 < n && AtOnce(items, m, Back(items, t, n - 1))
    ensures !Ran(items, m, Back(items, t, n - 1)).Returns?
  {
  }

  lemma NoStates<V>(items: seq<Item<V>>, t: int)
    requires RhsFits(items, t, 0)
    ensures TopResolved(items, t, 0)
  {
  }

  lemma RhsParts<V>(items: seq<Item<V>>, t: int, n: nat)
    requires RhsFits(items, t, n)
    ensures Descending(items) && StateAt(items, t) && n < |Path(items, t)|
  {
  }

  lemma StateIn<V>(items: seq<Item<V>>, t: int, n: nat)
    requires RhsFits(items, t, n)
    ensures StateAt(items, t)
  {
  }

  lemma OneMoreResolved<V>(items: seq<Item<V>>, t: int, n: nat)
    requires RhsFits(items, t, n) && 0 < n && items[t].sem.Resolved?
    requires RhsFits(items, items[t].pred, n - 1) && TopResolved(items, items[t].pred, n - 1)
    ensures TopResolved(items, t, n)
  {
    hide Descending;
  }

  lemma WithinChained<V>(items: seq<Item<V>>, r: Rules, k: Scope)
    requires Within(items, r, k)
    ensures Chained(items) && Mergeable(items, k.u, k.states)
  {
    hide OptionFits, Backed;
  }

  lemma ScanWent<V>(items: seq<Item<V>>, now: seq<Item<V>>, r: Rules, k: Scope)
    requires Within(now, r, k) && Changes(items, now, k.w, k.around) && LosesNothing(items, now)
    ensures Went(items, now, r, k, Resolves) && (Filled(items) ==> Filled(now))
  {
    hide Within, Filled;
  }

  lemma WentWeaker<V>(items: seq<Item<V>>, now: seq<Item<V>>, r: Rules, k: Scope, res: Resolution)
    requires Went(items, now, r, k, Resolves)
    ensures Went(items, now, r, k, res)
  {
    hide Within, LosesNothing, Changes;
  }

  lemma StateStays<V>(items: seq<Item<V>>, now: seq<Item<V>>, r: Rules, k: Scope, res: Resolution, yys: int)
    requires Went(items, now, r, k, res) && StateAt(items, yys)
    ensures StateAt(now, yys) && Within(now, r, k)
  {
    hide Within, LosesNothing;
  }

  /** The rules of the options, read off the items. */
  ghost predicate ReadsRules<V>(items: seq<Item<V>>, rule: int -> int) {
    forall y :: ChoiceAt(items, y) ==> rule(y) == items[y].rule
  }

  lemma RulesStay<V>(items: seq<Item<V>>, now: seq<Item<V>>, r: Rules, k: Scope, res: Resolution)
    requires Went(items, now, r, k, res)
    ensures ReadsRules(now, RuleIn(items))
  {
    hide Within, LosesNothing;
  }

  lemma RulesAt<V>(items: seq<Item<V>>, now: seq<Item<V>>, rule: int -> int, y: int)
    requires ReadsRules(items, rule) && SameFrame(items, now) && (ChoiceAt(items, y) || ChoiceAt(now, y))
    ensures ChoiceAt(now, y) && rule(y) == now[y].rule
  {
  }

  lemma GoalStarts<V>(items: seq<Item<V>>, m: Actions<V>, rule: int -> int, best: int, merge: bool, res: Resolution)
    requires Chained(items) && ChoiceAt(items, best)
    ensures !res.Resolves? ==> Yields(m, rule, [], Goal(items, m, rule, best, merge), None, res)
  {
    hide Chained, Chain;
    assert NextBelow(items, best) by { ChainStep(items, best); }
  }

  lemma SingleYields<V>(items: seq<Item<V>>, now: seq<Item<V>>, m: Actions<V>, rule: int -> int, best: int, v: V, merge: bool)
    requires Chained(items) && ChoiceAt(items, best) && Evaluates(now, best, m, v)
    ensures !merge ==> Yields(m, rule, [Evaluation(best, now, v)], Goal(items, m, rule, best, merge), Some(v), Resolves)
  {
    hide Chained, Chain, Evaluates;
  }

  // ---------------------------------------------------------------- what becomes of the state

  /** The options that follow from the comparisons: the first of the highest precedence among those that
      are left, and the others of that precedence. */
  ghost predicate Chooses<V>(items: seq<Item<V>>, m: Actions<V>, s: Scan, goal: seq<int>)
    requires s.Chosen?
  {
    exists i: nat :: i < |s.kept| && s.kept[i] == s.best && ChoosesAt(items, m, s, i, goal)
  }

  ghost predicate ChoosesAt<V>(items: seq<Item<V>>, m: Actions<V>, s: Scan, i: nat, goal: seq<int>)
    requires s.Chosen? && i < |s.kept|
  {
    && BestAt(m.r, RuleIn(items), i, s.merge, s.kept)
    && goal == [s.best] + OfPrecedence(m.r, RuleIn(items), m.r.dprec(RuleIn(items)(s.best)), s.kept[i + 1..])
  }

  /** What becomes of the state by the outcome of the comparisons: nothing, if there is an ambiguity; the
      merged values of the chosen options; or no alternatives, if one of them could not be evaluated. */
  ghost predicate ResolvedBy<V>(items: seq<Item<V>>, now: seq<Item<V>>, yys: int, m: Actions<V>, log: seq<Evaluation<V>>, s: Scan,
                                res: Resolution)
    requires StateAt(now, yys)
  {
    match s
    case Ambiguous(x0, x1) => res == IsAmbiguous(x0, x1)
    case Chosen(best, merge, kept) => exists goal :: Chooses(items, m, s, goal) && ValuedBy(now, yys, m, RuleIn(items), log, goal, res)
  }

  ghost predicate ValuedBy<V>(now: seq<Item<V>>, yys: int, m: Actions<V>, rule: int -> int, log: seq<Evaluation<V>>, goal: seq<int>,
                              res: Resolution)
    requires StateAt(now, yys)
  {
    if res.Resolves? then
      && log != [] && Evaluated(m, log, goal) && StateAt(Last(log).items, yys)
      && now == Last(log).items[yys := Last(log).items[yys].(sem := Resolved(Merged(m, rule, log)))]
    else
      |log| < |goal| && Evaluated(m, log, goal[..|log|]) && (!res.Tired? ==> now[yys].sem == Unresolved(NONE))
  }

  lemma AmbiguousResult<V>(items: seq<Item<V>>, now: seq<Item<V>>, yys: int, m: Actions<V>, k: Scope, x0: int, x1: int)
    requires ApartOf(items, yys, m.r, k) && StateAt(now, yys) && Chained(items)
    requires Chain(items, items[yys].sem.first) != []
    requires Tells(now, yys, Ambiguity(x0, x1), Outcome(items, m.r, Chain(items, items[yys].sem.first)))
    ensures ResolvedBy(items, now, yys, m, [], Outcome(items, m.r, Chain(items, items[yys].sem.first)), IsAmbiguous(x0, x1))
  {
    hide Outcome, Chained, Chain, Apart, Mergeable;
  }

  lemma ChosenGoal<V>(items: seq<Item<V>>, now: seq<Item<V>>, yys: int, m: Actions<V>, k: Scope, best: int, merge: bool)
    returns (goal: seq<int>)
    requires Chained(items) && OwnsChain(items, yys) && Chain(items, items[yys].sem.first) != [] && ChainApart(now, yys, k.u)
    requires Tells(now, yys, Selected(best, merge), Outcome(items, m.r, Chain(items, items[yys].sem.first)))
    ensures var s := Outcome(items, m.r, Chain(items, items[yys].sem.first)); s.Chosen? && Chooses(items, m, s, goal)
    ensures Outside(now, best, k.u) && ChoiceAt(now, best) && goal == Goal(now, m, RuleIn(items), best, merge)
  {
    hide Outcome, Chained, Chain, BestAt, RuleIn;
    var chain := Chain(items, items[yys].sem.first);
    var s := Outcome(items, m.r, chain);
    OutcomeIsBest(items, m.r, chain);
    var i: nat :| i < |s.kept| && s.kept[i] == best && BestAt(m.r, RuleIn(items), i, merge, s.kept);
    ChainAfter(now, now[yys].sem.first, i);
    ChainStep(now, best);
    forall x | x in Chain(now, best) ensures x !in k.u {
      assert x in s.kept;
    }
    goal := Goal(now, m, RuleIn(items), best, merge);
    if !merge {
      NoOthers(m.r, RuleIn(items), i, s.kept);
    }
    assert ChoosesAt(items, m, s, i, goal);
  }

  lemma NoOthers(r: Rules, rule: int -> int, i: nat, kept: seq<int>)
    requires i < |kept| && BestAt(r, rule, i, false, kept)
    ensures OfPrecedence(r, rule, r.dprec(rule(kept[i])), kept[i + 1..]) == []
  {
    NoneOfPrecedence(r, rule, r.dprec(rule(kept[i])), kept[i + 1..]);
  }

  lemma ChosenResult<V>(items: seq<Item<V>>, before: seq<Item<V>>, now: seq<Item<V>>, yys: int, m: Actions<V>, log: seq<Evaluation<V>>,
                        s: Scan, goal: seq<int>, value: Option<V>, res: Resolution)
    requires StateAt(before, yys) && s.Chosen? && Chooses(items, m, s, goal) && Yields(m, RuleIn(items), log, goal, value, res)
    requires res.Resolves? ==> log != [] && Last(log).items == before
    requires now == if res.Resolves? && value.Some? then before[yys := before[yys].(sem := Resolved(value.value))]
                    else if res.Tired? then before else before[yys := before[yys].(sem := Unresolved(NONE))]
    ensures StateAt(now, yys) && ResolvedBy(items, now, yys, m, log, s, res)
  {
    hide Chooses, Evaluates, RuleIn, BestAt;
    assert ValuedBy(now, yys, m, RuleIn(items), log, goal, res);
  }
}
