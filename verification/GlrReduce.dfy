/** Reductions on the graph-structured stack: each does to its stack what the LR automaton does to a
    stack of its own, and a stack that would repeat a state of another stack is merged into it. */
module GlrReduce {
  import opened Collections
  import LrTables
  import opened LrAutomaton
  import opened GlrShape
  import opened GlrOps

  // ---------------------------------------------------------------- stacks are paths of the automaton

  ghost predicate LinkedAt<V>(a: Lalr, items: seq<Item<V>>, i: int)
    requires StateAt(items, i)
  {
    && IsState(a, items[i].lr)
    && if i == 0 then items[i].lr == 0
       else items[i].lr != 0 && 0 <= items[i].pred < |items| && items[items[i].pred].State? && IsState(a, items[items[i].pred].lr)
            && Links(a, items[items[i].pred].lr, items[i].lr)
  }

  /** Every state on the stack is a transition away from its predecessor. */
  ghost predicate Linked<V>(a: Lalr, items: seq<Item<V>>) {
    forall i :: StateAt(items, i) ==> LinkedAt(a, items, i)
  }

  function Lrs(s: seq<Node>): seq<int> {
    seq(|s|, i requires 0 <= i < |s| => s[i].lr)
  }

  lemma LrsPush(s: seq<Node>, x: Node)
    ensures Lrs(s + [x]) == Lrs(s) + [x.lr]
  {
  }

  lemma LrsPrefix(s: seq<Node>, n: nat)
    requires n <= |s|
    ensures Lrs(s[..n]) == Lrs(s)[..n]
  {
  }

  /** Every stack is one that the automaton can build by itself. */
  lemma {:induction false} StackIsPath<V>(a: Lalr, items: seq<Item<V>>, t: int)
    requires Descending(items) && Linked(a, items) && StateAt(items, t)
    ensures IsPath(a, Lrs(Spine(items, t))) && Last(Lrs(Spine(items, t))) == items[t].lr
    decreases t
  {
    hide LrTables.Valid, Links;
    assert LinkedAt(a, items, t);
    if t == 0 {
      assert Lrs(Spine(items, t)) == [0];
    } else {
      assert Below(items, t);
      StackIsPath(a, items, items[t].pred);
      LrsPush(Spine(items, items[t].pred), Node(items[t].lr, items[t].posn));
      PushPath(a, Lrs(Spine(items, items[t].pred)), items[t].lr);
    }
  }

  lemma SameLinks<V>(a: Lalr, items: seq<Item<V>>, more: seq<Item<V>>)
    requires Descending(items) && Linked(a, items) && SameChains(items, more)
    requires forall i :: StateAt(more, i) && i >= |items| ==> LinkedAt(a, more, i)
    ensures Linked(a, more)
  {
    hide LrTables.Valid, Links;
    forall i | StateAt(more, i) ensures LinkedAt(a, more, i) {
      if i < |items| {
        assert StateAt(items, i) && LinkedAt(a, items, i);
      }
    }
  }

  lemma PrefixLinks<V>(a: Lalr, items: seq<Item<V>>, n: nat)
    requires Descending(items) && Linked(a, items) && n <= |items|
    ensures Linked(a, items[..n])
  {
    hide LrTables.Valid, Links;
    forall i | StateAt(items[..n], i) ensures LinkedAt(a, items[..n], i) {
      assert StateAt(items, i) && LinkedAt(a, items, i);
      assert i != 0 ==> Below(items, i);
    }
  }

  // ---------------------------------------------------------------- looking for a state to merge into

  /** The search down one stack for a state that the reduction would repeat: LR state q, on top of s,
      at the same position. */
  ghost function Find<V>(items: seq<Item<V>>, t: int, s: int, split: int, posn: nat, q: int): (p: int)
    requires Descending(items) && StateAt(items, t)
    ensures p == NONE || StateAt(items, p)
    decreases t
  {
    if t == s || t == split || items[t].posn < posn then NONE
    else if items[t].lr == q && items[t].pred == s then t
    else if t == 0 then NONE
    else
      assert Below(items, t);
      Find(items, items[t].pred, s, split, posn, q)
  }

  ghost predicate Repeats<V>(items: seq<Item<V>>, p: int, s: int, posn: nat, q: int) {
    StateAt(items, p) && items[p].lr == q && items[p].pred == s && items[p].posn >= posn
  }

  /** The search finds such a state if there is one on the stack. */
  lemma {:induction false} FindIsComplete<V>(items: seq<Item<V>>, t: int, s: int, split: int, posn: nat, q: int)
    requires Descending(items) && StateAt(items, t) && split <= s && 0 <= s
    ensures var p := Find(items, t, s, split, posn, q);
            if p == NONE then forall x :: x in Path(items, t) ==> !Repeats(items, x, s, posn, q)
            else Repeats(items, p, s, posn, q) && p in Path(items, t)
    decreases t
  {
    PathStep(items, t);
    forall x | x in Path(items, t) ensures x <= t && StateAt(items, x) && items[x].posn <= items[t].posn {
      OnPath(items, t, x);
    }
    if !(t == s || t == split || items[t].posn < posn) && !(items[t].lr == q && items[t].pred == s) && t != 0 {
      FindIsComplete(items, items[t].pred, s, split, posn, q);
    }
    forall x | x in Path(items, t) && Repeats(items, x, s, posn, q) ensures s < x <= t {
      assert Below(items, x);
    }
  }

  lemma {:induction false} OnPath<V>(items: seq<Item<V>>, t: int, x: int)
    requires Descending(items) && StateAt(items, t) && x in Path(items, t)
    ensures StateAt(items, x) && x <= t && items[x].posn <= items[t].posn
    ensures Path(items, x) <= Path(items, t) && Spine(items, x) <= Spine(items, t)
    decreases t
  {
    PathStep(items, t);
    if x != t {
      OnPath(items, items[t].pred, x);
    }
  }

  /** The search over the other live stacks, from the i-th on. */
  ghost function FindFrom<V>(g: Gss<V>, k: int, s: int, posn: nat, q: int, i: nat): (p: int)
    requires Shape(g)
    ensures p == NONE || StateAt(g.items, p)
    decreases |g.tops| - i
  {
    if i >= |g.tops| then NONE
    else if i != k && g.tops[i] != NONE && Hit(g, i, s, posn, q) != NONE then Hit(g, i, s, posn, q)
    else FindFrom(g, k, s, posn, q, i + 1)
  }

  ghost function Hit<V>(g: Gss<V>, i: nat, s: int, posn: nat, q: int): (p: int)
    requires Shape(g) && i < |g.tops| && g.tops[i] != NONE
    ensures p == NONE || StateAt(g.items, p)
  {
    LiveTop(g, i);
    Find(g.items, g.tops[i], s, g.split, posn, q)
  }

  lemma LiveTop<V>(g: Gss<V>, i: nat)
    requires Shape(g) && i < |g.tops| && g.tops[i] != NONE
    ensures StateAt(g.items, g.tops[i]) && (g.split != NONE ==> g.tops[i] >= g.split)
  {
    hide Descending, Fans;
  }

  /** State p of another live stack i repeats what the reduction would push. */
  ghost predicate Twin<V>(g: Gss<V>, k: int, s: int, posn: nat, q: int, i: nat, p: int) {
    && Descending(g.items) && i < |g.tops| && i != k && StateAt(g.items, g.tops[i])
    && p in Path(g.items, g.tops[i]) && Repeats(g.items, p, s, posn, q)
  }

  lemma {:induction false} FindFromFacts<V>(g: Gss<V>, k: int, s: int, posn: nat, q: int, from: nat)
    requires Shape(g) && 0 <= s && g.split <= s
    ensures var p := FindFrom(g, k, s, posn, q, from);
            if p == NONE then forall i, x :: from <= i ==> !Twin(g, k, s, posn, q, i, x)
            else exists i :: from <= i && Twin(g, k, s, posn, q, i, p)
    decreases |g.tops| - from
  {
    hide Descending, Fans, Contiguous, Find, Path, Repeats;
    if from < |g.tops| {
      if from != k && g.tops[from] != NONE {
        LiveTop(g, from);
        FindIsComplete(g.items, g.tops[from], s, g.split, posn, q);
      }
      if FindFrom(g, k, s, posn, q, from) == FindFrom(g, k, s, posn, q, from + 1) {
        FindFromFacts(g, k, s, posn, q, from + 1);
      }
      if from != k && g.tops[from] != NONE && Hit(g, from, s, posn, q) != NONE {
        assert Twin(g, k, s, posn, q, from, Hit(g, from, s, posn, q));
      } else {
        FindFromFacts(g, k, s, posn, q, from + 1);
      }
    }
  }

  // ---------------------------------------------------------------- reductions

  /** Stack k is live, and its top state has the rule complete. */
  ghost predicate CanReduce<V>(a: Lalr, g: Gss<V>, k: int, rule: int) {
    && Shape(g) && Linked(a, g.items) && 0 <= k < |g.tops| && StateAt(g.items, g.tops[k])
    && IsState(a, g.items[g.tops[k]].lr) && Complete(a, g.items[g.tops[k]].lr, rule)
  }

  /** The state that a reduction of stack k uncovers. */
  ghost function Uncovered<V>(a: Lalr, g: Gss<V>, k: int, rule: int): (s: int)
    requires CanReduce(a, g, k, rule)
    ensures StateAt(g.items, s) && IsState(a, g.items[s].lr) && 0 <= s
  {
    Reducible(a, g, k, rule);
    var s := Back(g.items, g.tops[k], Length(a, rule));
    assert LinkedAt(a, g.items, s);
    s
  }

  lemma Reducible<V>(a: Lalr, g: Gss<V>, k: int, rule: int)
    requires CanReduce(a, g, k, rule)
    ensures Length(a, rule) < |Path(g.items, g.tops[k])|
  {
    hide LrTables.Valid, Complete;
    StackIsPath(a, g.items, g.tops[k]);
    ReducePath(a, Lrs(Spine(g.items, g.tops[k])), rule);
  }

  /** The stack after the reduction: the uncovered stack with the left-hand side on top. */
  ghost function ReducedSpine<V>(a: Lalr, g: Gss<V>, k: int, rule: int): seq<Node>
    requires CanReduce(a, g, k, rule)
  {
    var s := Uncovered(a, g, k, rule);
    Spine(g.items, s) + [Node(GotoRule(a, g.items[s].lr, rule), g.items[g.tops[k]].posn)]
  }

  /** It is the stack of the automaton after the same reduction. */
  lemma ReducesLikeAutomaton<V>(a: Lalr, g: Gss<V>, k: int, rule: int)
    requires CanReduce(a, g, k, rule)
    ensures var stack := Lrs(Spine(g.items, g.tops[k]));
            && IsPath(a, stack) && Length(a, rule) < |stack|
            && Lrs(ReducedSpine(a, g, k, rule)) == Reduced(a, stack, rule)
  {
    hide LrTables.Valid, Linked;
    var s, stack, n := Uncovered(a, g, k, rule), Spine(g.items, g.tops[k]), Length(a, rule);
    Reducible(a, g, k, rule);
    StackIsPath(a, g.items, g.tops[k]);
    StackIsPath(a, g.items, s);
    BackSpine(g.items, g.tops[k], n);
    LrsPrefix(stack, |stack| - n);
    LrsPush(Spine(g.items, s), Node(GotoRule(a, g.items[s].lr, rule), g.items[g.tops[k]].posn));
  }

  /** A reduction whose action is run at once: states are popped and the goto state is pushed. */
  ghost function ReduceNow<V>(a: Lalr, g: Gss<V>, k: int, rule: int, v: V): Gss<V>
    requires CanReduce(a, g, k, rule)
  {
    Reducible(a, g, k, rule);
    PopKeepsShape(g, k, Length(a, rule));
    PushState(PopStack(g, k, Length(a, rule)), k, GotoRule(a, g.items[Uncovered(a, g, k, rule)].lr, rule),
              g.items[g.tops[k]].posn, Resolved(v))
  }

  lemma GotoLinks<V>(a: Lalr, g: Gss<V>, k: int, rule: int)
    requires CanReduce(a, g, k, rule)
    ensures var s := Uncovered(a, g, k, rule);
            var q := GotoRule(a, g.items[s].lr, rule);
            IsState(a, q) && q != 0 && Links(a, g.items[s].lr, q)
  {
    hide LrTables.Valid, Linked;
    var s := Uncovered(a, g, k, rule);
    var stack := Lrs(Spine(g.items, g.tops[k]));
    ReducesLikeAutomaton(a, g, k, rule);
    StackIsPath(a, g.items, g.tops[k]);
    StackIsPath(a, g.items, s);
    ReducePath(a, stack, rule);
    var reduced := Reduced(a, stack, rule);
    LrsPush(Spine(g.items, s), Last(ReducedSpine(a, g, k, rule)));
    assert reduced == Lrs(Spine(g.items, s)) + [GotoRule(a, g.items[s].lr, rule)];
    assert Links(a, reduced[|reduced| - 2], reduced[|reduced| - 1]);
  }

  /** Pushing a proper successor. */
  lemma PushLinks<V>(a: Lalr, g: Gss<V>, k: int, lr: int, posn: nat, sem: Semantics<V>)
    requires Shape(g) && Linked(a, g.items) && CanPush(g, k, posn) && StateAt(g.items, g.tops[k])
    requires IsState(a, g.items[g.tops[k]].lr) && IsState(a, lr) && lr != 0 && Links(a, g.items[g.tops[k]].lr, lr)
    ensures Linked(a, PushState(g, k, lr, posn, sem).items)
  {
    hide LrTables.Valid, Links;
    var more := PushState(g, k, lr, posn, sem).items;
    PushDescends(g.items, more[|g.items|]);
    assert LinkedAt(a, more, |g.items|);
    SameLinks(a, g.items, more);
  }

  /** The stack is reduced as the automaton reduces it; the others stay. */
  lemma ReduceNowEffect<V>(a: Lalr, g: Gss<V>, k: int, rule: int, v: V)
    requires CanReduce(a, g, k, rule)
    ensures var g' := ReduceNow(a, g, k, rule, v);
            && Shape(g') && Linked(a, g'.items) && |g'.tops| == |g.tops| && StateAt(g'.items, g'.tops[k])
            && Spine(g'.items, g'.tops[k]) == ReducedSpine(a, g, k, rule)
            && (forall i :: 0 <= i < |g.tops| && i != k ==> SameStack(g, g', i))
  {
    hide LrTables.Valid, Descending, Contiguous, Fans, Spine, Path, Back, Links, Linked;
    var n, s, posn := Length(a, rule), Uncovered(a, g, k, rule), g.items[g.tops[k]].posn;
    Reducible(a, g, k, rule);
    var g1 := PopStack(g, k, n);
    PopEffect(g, k, n);
    PopLinks(a, g, k, n);
    BackPath(g.items, g.tops[k], n);
    GotoLinks(a, g, k, rule);
    hide CanReduce, PopStack, Uncovered, Reduced;
    PushReduced(a, g, k, s, g1, GotoRule(a, g.items[s].lr, rule), posn, Resolved(v));
  }

  lemma PopLinks<V>(a: Lalr, g: Gss<V>, k: int, n: nat)
    requires Shape(g) && Linked(a, g.items) && 0 <= k < |g.tops| && StateAt(g.items, g.tops[k])
    requires n < |Path(g.items, g.tops[k])|
    ensures Linked(a, PopStack(g, k, n).items)
  {
    hide LrTables.Valid, Descending, Contiguous, Fans, Links, Linked;
    if g.split == NONE {
      ContiguousPath(g.items, |g.items|, g.tops[k]);
      PrefixLinks(a, g.items, |g.items| - n);
    }
  }

  /** g1 has stack s as its stack k; state q is pushed there. */
  lemma PushReduced<V>(a: Lalr, g: Gss<V>, k: int, s: int, g1: Gss<V>, q: int, posn: nat, sem: Semantics<V>)
    requires Replaces(g, k, s, g1) && Linked(a, g.items) && Linked(a, g1.items) && g.items[s].posn <= posn
    requires IsState(a, g.items[s].lr) && IsState(a, q) && q != 0 && Links(a, g.items[s].lr, q)
    ensures var g' := PushState(g1, k, q, posn, sem);
            && Shape(g') && Linked(a, g'.items) && |g'.tops| == |g.tops| && StateAt(g'.items, g'.tops[k])
            && Spine(g'.items, g'.tops[k]) == Spine(g.items, s) + [Node(q, posn)]
            && (forall i :: 0 <= i < |g.tops| && i != k ==> SameStack(g, g', i))
  {
    hide LrTables.Valid, Descending, Contiguous, Fans, Path, Links, Linked;
    var g' := PushState(g1, k, q, posn, sem);
    assert g1.items[g1.tops[k]].lr == g.items[s].lr && g1.items[g1.tops[k]].posn == g.items[s].posn by {
      assert Last(Spine(g1.items, g1.tops[k])) == Last(Spine(g.items, s));
    }
    hide Spine;
    PushKeepsShape(g1, k, q, posn, sem);
    PushLinks(a, g1, k, q, posn, sem);
    PushEffect(g1, k, q, posn, sem);
    if g.split == NONE {
      assert |g.tops| == 1;
    }
  }

  /** Stack i is in g' what it is in g. */
  ghost predicate SameStack<V>(g: Gss<V>, g': Gss<V>, i: int)
    requires Descending(g.items) && Descending(g'.items) && |g'.tops| >= |g.tops|
  {
    0 <= i < |g.tops| && StateAt(g.items, g.tops[i]) ==>
      StateAt(g'.items, g'.tops[i]) && Spine(g'.items, g'.tops[i]) == Spine(g.items, g.tops[i])
  }

  /** A reduction of stack k to state q on top of s, whose action is put off: if another stack has the
      state that it would push, stack k is given up and that state gets one more alternative;
      otherwise the state is pushed with one alternative. */
  ghost function Defer<V>(g: Gss<V>, k: int, s: int, q: int, posn: nat, rule: int, raw: Option<V>): Gss<V>
    requires Shape(g) && g.split != NONE && 0 <= k < |g.tops| && StateAt(g.items, s)
  {
    UpdateSplitKeepsShape(g, s);
    var p := FindFrom(UpdateSplit(g, s), k, s, posn, q, 0);
    if p != NONE then
      MarkDeleted(AddChoice(UpdateSplit(g, s), p, g.tops[k], rule, raw), k)
    else
      AddChoice(PushState(UpdateSplit(g, s).(tops := g.tops[k := s]), k, q, posn, Unresolved(NONE)),
                |g.items|, g.tops[k], rule, raw)
  }

  ghost function ReduceLater<V>(a: Lalr, g: Gss<V>, k: int, rule: int, raw: Option<V>): Gss<V>
    requires CanReduce(a, g, k, rule) && g.split != NONE
  {
    var s := Uncovered(a, g, k, rule);
    Defer(g, k, s, GotoRule(a, g.items[s].lr, rule), g.items[g.tops[k]].posn, rule, raw)
  }

  /** All live stacks have come to the same position. */
  ghost predicate InStep<V>(g: Gss<V>, posn: nat) {
    forall i :: 0 <= i < |g.tops| && StateAt(g.items, g.tops[i]) ==> g.items[g.tops[i]].posn == posn
  }

  lemma SpineStep<V>(items: seq<Item<V>>, t: int)
    requires Descending(items) && StateAt(items, t) && t != 0
    ensures Below(items, t) && Spine(items, t) == Spine(items, items[t].pred) + [Node(items[t].lr, items[t].posn)]
  {
    assert Below(items, t);
  }

  /** A stack with a twin of the pushed state contains the whole reduced stack. */
  lemma TwinContains<V>(g: Gss<V>, k: int, s: int, posn: nat, q: int, i: nat, p: int)
    requires Twin(g, k, s, posn, q, i, p) && StateAt(g.items, s) && InStep(g, posn)
    ensures Spine(g.items, s) + [Node(q, posn)] <= Spine(g.items, g.tops[i])
  {
    hide Descending, Spine, Path;
    OnPath(g.items, g.tops[i], p);
    assert p != 0 by { FirstHasNoPred(g.items); }
    SpineStep(g.items, p);
  }

  lemma FirstHasNoPred<V>(items: seq<Item<V>>)
    requires Descending(items)
    ensures StateAt(items, 0) ==> items[0].pred == NONE
  {
  }

  lemma AddChoiceEffect<V>(a: Lalr, g: Gss<V>, p: int, rhs: int, rule: int, raw: Option<V>)
    requires Shape(g) && g.split != NONE && Linked(a, g.items) && StateAt(g.items, p)
    ensures var g' := AddChoice(g, p, rhs, rule, raw);
            && Shape(g') && Linked(a, g'.items)
            && forall t :: StateAt(g.items, t) ==> StateAt(g'.items, t) && Spine(g'.items, t) == Spine(g.items, t)
  {
    hide LrTables.Valid, Descending, Fans, Contiguous, Spine;
    var g' := AddChoice(g, p, rhs, rule, raw);
    ChoiceKeepsShape(g, p, rhs, rule, raw);
    ChoiceChains(g, p, rhs, rule, raw);
    SameLinks(a, g.items, g'.items);
    forall t | StateAt(g.items, t) ensures StateAt(g'.items, t) && Spine(g'.items, t) == Spine(g.items, t) {
      SameSpine(g.items, g'.items, t);
    }
  }

  ghost predicate HasTwin<V>(g: Gss<V>, k: int, s: int, posn: nat, q: int) {
    exists i, p :: Twin(g, k, s, posn, q, i, p)
  }

  /** All stacks of g but the k-th are stacks of g'. */
  ghost predicate Others<V>(a: Lalr, g: Gss<V>, k: int, g': Gss<V>) {
    && Shape(g) && Shape(g') && g'.split != NONE && Linked(a, g'.items) && |g'.tops| == |g.tops|
    && forall i :: 0 <= i < |g.tops| && i != k ==> g'.tops[i] == g.tops[i] && SameStack(g, g', i)
  }

  lemma DeferMerges<V>(a: Lalr, g: Gss<V>, k: int, s: int, q: int, posn: nat, rule: int, raw: Option<V>)
    requires Shape(g) && g.split != NONE && 0 <= k < |g.tops| && StateAt(g.items, s) && Linked(a, g.items)
    requires HasTwin(g, k, s, posn, q)
    ensures var g' := Defer(g, k, s, q, posn, rule, raw);
            Others(a, g, k, g') && g'.tops[k] == NONE
  {
    hide LrTables.Valid, Descending, Contiguous, Fans, Path, Spine, Links, Linked, Repeats;
    var i, x :| Twin(g, k, s, posn, q, i, x);
    var g1 := UpdateSplit(g, s);
    UpdateSplitKeepsShape(g, s);
    FindFromFacts(g1, k, s, posn, q, 0);
    assert Twin(g1, k, s, posn, q, i, x);
    var p := FindFrom(g1, k, s, posn, q, 0);
    hide FindFrom, Twin;
    var g2 := AddChoice(g1, p, g.tops[k], rule, raw);
    assert Others(a, g, k, g1);
    AddKeepsOthers(a, g, k, g1, p, g.tops[k], rule, raw);
    DeleteKeepsShape(g2, k);
  }

  lemma DeferPushes<V>(a: Lalr, g: Gss<V>, k: int, s: int, q: int, posn: nat, rule: int, raw: Option<V>)
    requires Shape(g) && g.split != NONE && 0 <= k < |g.tops| && StateAt(g.items, s) && Linked(a, g.items)
    requires !HasTwin(g, k, s, posn, q) && g.items[s].posn <= posn
    requires IsState(a, g.items[s].lr) && IsState(a, q) && q != 0 && Links(a, g.items[s].lr, q)
    ensures var g' := Defer(g, k, s, q, posn, rule, raw);
            && Others(a, g, k, g') && StateAt(g'.items, g'.tops[k])
            && Spine(g'.items, g'.tops[k]) == Spine(g.items, s) + [Node(q, posn)]
  {
    hide LrTables.Valid, Descending, Contiguous, Fans, Path, Spine, Links, Linked, Repeats;
    var g1 := UpdateSplit(g, s);
    UpdateSplitKeepsShape(g, s);
    FindFromFacts(g1, k, s, posn, q, 0);
    assert forall i, x :: Twin(g1, k, s, posn, q, i, x) ==> Twin(g, k, s, posn, q, i, x);
    assert FindFrom(g1, k, s, posn, q, 0) == NONE;
    hide FindFrom, Twin;
    var g2 := g1.(tops := g.tops[k := s]);
    PushReduced(a, g, k, s, g2, q, posn, Unresolved(NONE));
    var g3 := PushState(g2, k, q, posn, Unresolved(NONE));
    AddChoiceEffect(a, g3, |g.items|, g.tops[k], rule, raw);
    AddKeepsOthers(a, g, k, g3, |g.items|, g.tops[k], rule, raw);
  }

  lemma AddKeepsOthers<V>(a: Lalr, g: Gss<V>, k: int, g': Gss<V>, p: int, rhs: int, rule: int, raw: Option<V>)
    requires Others(a, g, k, g') && StateAt(g'.items, p)
    ensures Others(a, g, k, AddChoice(g', p, rhs, rule, raw))
  {
    hide LrTables.Valid, Descending, Contiguous, Fans, Spine, Links, Linked;
    AddChoiceEffect(a, g', p, rhs, rule, raw);
  }

  /** A stack is given up exactly if it would repeat a state of another stack, which then contains all
      of the reduced stack; otherwise it is reduced as the automaton reduces it. The others stay. */
  lemma ReduceLaterEffect<V>(a: Lalr, g: Gss<V>, k: int, rule: int, raw: Option<V>)
    requires CanReduce(a, g, k, rule) && g.split != NONE && InStep(g, g.items[g.tops[k]].posn)
    ensures Others(a, g, k, ReduceLater(a, g, k, rule, raw))
    ensures var g', s := ReduceLater(a, g, k, rule, raw), Uncovered(a, g, k, rule);
            if HasTwin(g, k, s, g.items[g.tops[k]].posn, GotoRule(a, g.items[s].lr, rule)) then
              g'.tops[k] == NONE && exists i: nat :: Covers(g, k, i, ReducedSpine(a, g, k, rule))
            else
              StateAt(g'.items, g'.tops[k]) && Spine(g'.items, g'.tops[k]) == ReducedSpine(a, g, k, rule)
  {
    var s := Uncovered(a, g, k, rule);
    var q, posn := GotoRule(a, g.items[s].lr, rule), g.items[g.tops[k]].posn;
    hide LrTables.Valid, Descending, Contiguous, Fans, Spine, Links, Linked, Defer;
    GotoLinks(a, g, k, rule);
    Reducible(a, g, k, rule);
    BackPath(g.items, g.tops[k], Length(a, rule));
    if HasTwin(g, k, s, posn, q) {
      DeferMerges(a, g, k, s, q, posn, rule, raw);
      var i: nat, x :| Twin(g, k, s, posn, q, i, x);
      TwinContains(g, k, s, posn, q, i, x);
      assert Covers(g, k, i, ReducedSpine(a, g, k, rule));
    } else {
      DeferPushes(a, g, k, s, q, posn, rule, raw);
    }
  }

  /** Another live stack starts with this one. */
  ghost predicate Covers<V>(g: Gss<V>, k: int, i: nat, stack: seq<Node>) {
    Descending(g.items) && i < |g.tops| && i != k && StateAt(g.items, g.tops[i]) && stack <= Spine(g.items, g.tops[i])
  }
}
