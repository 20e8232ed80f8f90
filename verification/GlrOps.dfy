/** The operations on the graph-structured stack as functions, and what they do to every stack: each
    works on one stack as if it stood alone, and leaves the others as they are. */
module GlrOps {
  import opened Collections
  import LrTables
  import opened LrAutomaton
  import opened GlrShape

  /** What the parser sees of a state on a stack. */
  datatype Node = Node(lr: int, posn: nat)

  /** The stack with top t, from the bottom. */
  ghost function Spine<V>(items: seq<Item<V>>, t: int): (s: seq<Node>)
    requires Descending(items) && StateAt(items, t)
    ensures |s| == |Path(items, t)| && Last(s) == Node(items[t].lr, items[t].posn)
    decreases t
  {
    if t == 0 then [Node(items[0].lr, items[0].posn)]
    else
      assert Below(items, t);
      Spine(items, items[t].pred) + [Node(items[t].lr, items[t].posn)]
  }

  lemma {:induction false} SameSpine<V>(items: seq<Item<V>>, more: seq<Item<V>>, t: int)
    requires Descending(items) && Descending(more) && SameChains(items, more) && StateAt(items, t)
    ensures StateAt(more, t) && Spine(more, t) == Spine(items, t)
    decreases t
  {
    if t != 0 {
      assert Below(items, t);
      SameSpine(items, more, items[t].pred);
    }
  }

  lemma {:induction false} BackSpine<V>(items: seq<Item<V>>, t: int, n: nat)
    requires Descending(items) && StateAt(items, t) && n < |Path(items, t)|
    ensures Spine(items, Back(items, t, n)) == Spine(items, t)[..|Spine(items, t)| - n]
    decreases n
  {
    if n > 0 {
      assert Below(items, t);
      BackSpine(items, items[t].pred, n - 1);
      var below := Spine(items, items[t].pred);
      assert (below + [Last(Spine(items, t))])[..|below| + 1 - n] == below[..|below| - (n - 1)];
    } else {
      assert Spine(items, t)[..|Spine(items, t)|] == Spine(items, t);
    }
  }

  // ---------------------------------------------------------------- pushing a state

  ghost predicate CanPush<V>(g: Gss<V>, k: int, posn: nat) {
    && 0 <= k < |g.tops|
    && (g.tops[k] == NONE ==> g.items == [])
    && (g.tops[k] != NONE ==> StateAt(g.items, g.tops[k]) && g.items[g.tops[k]].posn <= posn)
  }

  /** yyglrShift, and the first half of yyglrShiftDefer. */
  ghost function PushState<V>(g: Gss<V>, k: int, lr: int, posn: nat, sem: Semantics<V>): Gss<V>
    requires 0 <= k < |g.tops|
  {
    g.(items := g.items + [State(lr, g.tops[k], posn, sem)], tops := g.tops[k := |g.items|])
  }

  lemma PushDescends<V>(items: seq<Item<V>>, x: Item<V>)
    requires Descending(items)
    requires x.State? ==> if items == [] then x.pred == NONE else StateAt(items, x.pred) && items[x.pred].posn <= x.posn
    ensures Descending(items + [x]) && SameChains(items, items + [x])
  {
    var more := items + [x];
    forall i | StateAt(more, i) ensures Stands(more, i) {
      if i < |items| {
        assert StateAt(items, i);
        assert i != 0 ==> Below(items, i);
      }
    }
  }

  lemma PushKeepsShape<V>(g: Gss<V>, k: int, lr: int, posn: nat, sem: Semantics<V>)
    requires Shape(g) && CanPush(g, k, posn)
    ensures Shape(PushState(g, k, lr, posn, sem))
  {
    hide Descending, Contiguous, Fans;
    var x := State(lr, g.tops[k], posn, sem);
    PushDescends(g.items, x);
    if g.split == NONE {
      PushContiguous(g.items, x);
    } else {
      assert IsTop(g.items, g.split, g.tops[k]);
      PushFans(g.items, g.split, x);
    }
  }

  lemma PushContiguous<V>(items: seq<Item<V>>, x: Item<V>)
    requires Contiguous(items, |items|) && x.State? && x.pred == |items| - 1
    ensures Contiguous(items + [x], |items| + 1)
  {
  }

  lemma PushFans<V>(items: seq<Item<V>>, split: int, x: Item<V>)
    requires Fans(items, split) && Contiguous(items, split + 1) && (x.State? ==> x.pred >= split)
    ensures Fans(items + [x], split) && Contiguous(items + [x], split + 1)
  {
    forall i | StateAt(items + [x], i) && i > split ensures (items + [x])[i].pred >= split {
      if i < |items| {
        assert StateAt(items, i);
      }
    }
  }

  /** The state goes on top of stack k; the other stacks stay. */
  lemma PushEffect<V>(g: Gss<V>, k: int, lr: int, posn: nat, sem: Semantics<V>)
    requires Shape(g) && CanPush(g, k, posn) && g.items != []
    ensures var g' := PushState(g, k, lr, posn, sem);
            && Descending(g'.items) && StateAt(g'.items, g'.tops[k])
            && Spine(g'.items, g'.tops[k]) == Spine(g.items, g.tops[k]) + [Node(lr, posn)]
            && (forall t :: StateAt(g.items, t) ==> StateAt(g'.items, t) && Spine(g'.items, t) == Spine(g.items, t))
  {
    var g' := PushState(g, k, lr, posn, sem);
    PushDescends(g.items, g'.items[|g.items|]);
    forall t | StateAt(g.items, t) ensures StateAt(g'.items, t) && Spine(g'.items, t) == Spine(g.items, t) {
      SameSpine(g.items, g'.items, t);
    }
  }

  // ---------------------------------------------------------------- adding a deferred reduction

  ghost function FirstChoice<V>(x: Item<V>): int {
    if x.State? && x.sem.Unresolved? then x.sem.first else NONE
  }

  /** yyaddDeferredAction: the newest alternative comes first. */
  ghost function AddChoice<V>(g: Gss<V>, p: int, rhs: int, rule: int, raw: Option<V>): Gss<V>
    requires StateAt(g.items, p)
  {
    g.(items := g.items[p := g.items[p].(sem := Unresolved(|g.items|))] + [Choice(rule, rhs, FirstChoice(g.items[p]), raw)])
  }

  /** Only the semantics of state p changes. */
  lemma ChoiceChains<V>(g: Gss<V>, p: int, rhs: int, rule: int, raw: Option<V>)
    requires Descending(g.items) && StateAt(g.items, p)
    ensures Descending(AddChoice(g, p, rhs, rule, raw).items) && SameChains(g.items, AddChoice(g, p, rhs, rule, raw).items)
  {
    var more := AddChoice(g, p, rhs, rule, raw).items;
    forall i | StateAt(more, i) ensures Stands(more, i) {
      assert StateAt(g.items, i);
      assert i != 0 ==> Below(g.items, i);
    }
  }

  lemma ChoiceKeepsShape<V>(g: Gss<V>, p: int, rhs: int, rule: int, raw: Option<V>)
    requires Shape(g) && StateAt(g.items, p) && g.split != NONE
    ensures Shape(AddChoice(g, p, rhs, rule, raw))
  {
    var more := AddChoice(g, p, rhs, rule, raw).items;
    ChoiceChains(g, p, rhs, rule, raw);
    hide Descending;
    forall i | StateAt(more, i) && i > g.split ensures more[i].pred >= g.split {
      assert StateAt(g.items, i);
    }
  }

  // ---------------------------------------------------------------- popping

  /** yyupdateSplit */
  ghost function UpdateSplit<V>(g: Gss<V>, s: int): Gss<V> {
    if g.split != NONE && g.split > s then g.(split := s) else g
  }

  lemma UpdateSplitKeepsShape<V>(g: Gss<V>, s: int)
    requires Shape(g) && StateAt(g.items, s)
    ensures Shape(UpdateSplit(g, s)) && (g.split != NONE ==> IsTop(g.items, UpdateSplit(g, s).split, s))
  {
    hide Descending;
    if g.split != NONE && g.split > s {
      forall i | StateAt(g.items, i) && i > s ensures g.items[i].pred >= s {
        assert i <= g.split ==> g.items[i].pred == i - 1;
      }
    }
  }

  /** Stack k without its n topmost states. A single stack gives their items back. */
  ghost function PopStack<V>(g: Gss<V>, k: int, n: nat): Gss<V>
    requires Shape(g) && 0 <= k < |g.tops| && StateAt(g.items, g.tops[k]) && n < |Path(g.items, g.tops[k])|
  {
    if g.split == NONE then
      ContiguousPath(g.items, |g.items|, g.tops[k]);
      g.(items := g.items[..|g.items| - n], tops := [|g.items| - n - 1])
    else
      var s := Back(g.items, g.tops[k], n);
      UpdateSplit(g, s).(tops := g.tops[k := s])
  }

  lemma PrefixShape<V>(items: seq<Item<V>>, n: nat)
    requires Descending(items) && Contiguous(items, |items|) && n <= |items|
    ensures Descending(items[..n]) && Contiguous(items[..n], n)
  {
    var less := items[..n];
    forall i | StateAt(less, i) ensures Stands(less, i) {
      assert StateAt(items, i);
      assert i != 0 ==> Below(items, i);
    }
  }

  lemma PopKeepsShape<V>(g: Gss<V>, k: int, n: nat)
    requires Shape(g) && 0 <= k < |g.tops| && StateAt(g.items, g.tops[k]) && n < |Path(g.items, g.tops[k])|
    ensures Shape(PopStack(g, k, n))
  {
    if g.split == NONE {
      ContiguousPath(g.items, |g.items|, g.tops[k]);
      PrefixShape(g.items, |g.items| - n);
    } else {
      UpdateSplitKeepsShape(g, Back(g.items, g.tops[k], n));
      hide Descending, Contiguous, Fans;
    }
  }

  lemma PrefixSpine<V>(items: seq<Item<V>>, n: nat, t: int)
    requires Descending(items) && n <= |items| && Descending(items[..n]) && StateAt(items[..n], t)
    ensures StateAt(items, t) && Spine(items[..n], t) == Spine(items, t)
  {
    hide Descending, Spine;
    PrefixChains(items, n);
    SameSpine(items[..n], items, t);
  }

  lemma PrefixChains<V>(items: seq<Item<V>>, n: nat)
    requires n <= |items|
    ensures SameChains(items[..n], items)
  {
  }

  /** g' has the stack with top t as its stack k, and otherwise the stacks of g. */
  ghost predicate Replaces<V>(g: Gss<V>, k: int, t: int, g': Gss<V>) {
    && Shape(g) && Shape(g') && StateAt(g.items, t) && 0 <= k < |g.tops| == |g'.tops|
    && StateAt(g'.items, g'.tops[k]) && Spine(g'.items, g'.tops[k]) == Spine(g.items, t)
    && (forall i :: 0 <= i < |g.tops| && i != k ==> g'.tops[i] == g.tops[i])
    && (g.split != NONE ==> g'.items == g.items)
  }

  /** Stack k loses n states; the other stacks stay. */
  lemma PopEffect<V>(g: Gss<V>, k: int, n: nat)
    requires Shape(g) && 0 <= k < |g.tops| && StateAt(g.items, g.tops[k]) && n < |Path(g.items, g.tops[k])|
    ensures Replaces(g, k, Back(g.items, g.tops[k], n), PopStack(g, k, n))
  {
    hide Descending, Contiguous, Fans, Spine, Path, Back;
    PopKeepsShape(g, k, n);
    var g' := PopStack(g, k, n);
    if g.split == NONE {
      PopSingle(g, n);
      PrefixSpine(g.items, |g.items| - n, |g.items| - 1 - n);
    } else {
      assert g'.items == g.items && g'.tops == g.tops[k := Back(g.items, g.tops[k], n)];
    }
  }

  lemma PopSingle<V>(g: Gss<V>, n: nat)
    requires Shape(g) && g.split == NONE && StateAt(g.items, |g.items| - 1) && n < |Path(g.items, |g.items| - 1)|
    ensures n < |g.items| && Back(g.items, |g.items| - 1, n) == |g.items| - 1 - n
    ensures PopStack(g, 0, n) == g.(items := g.items[..|g.items| - n], tops := [|g.items| - n - 1])
  {
    hide Descending, Contiguous, Fans;
    ContiguousPath(g.items, |g.items|, |g.items| - 1);
    ContiguousBack(g.items, |g.items| - 1, n);
  }

  lemma {:induction false} ContiguousBack<V>(items: seq<Item<V>>, t: int, n: nat)
    requires Descending(items) && Contiguous(items, |items|) && StateAt(items, t)
    requires n < |Path(items, t)|
    ensures n <= t && Back(items, t, n) == t - n
    decreases n
  {
    hide Descending, Contiguous;
    PathStep(items, t);
    if n > 0 {
      ContiguousAt(items, |items|, t);
      ContiguousBack(items, t - 1, n - 1);
    }
  }

  // ---------------------------------------------------------------- the set of stacks

  /** yysplitStack: a copy of stack k becomes the last stack. */
  ghost function SplitStack<V>(g: Gss<V>, k: int): Gss<V>
    requires 0 <= k < |g.tops| <= |g.needs|
  {
    g.(split := if g.split == NONE then g.tops[k] else g.split,
       tops := g.tops + [g.tops[k]], needs := Put(g.needs, |g.tops|, g.needs[k]))
  }

  /** Element n of a buffer that can grow by one. */
  function Put<T>(s: seq<T>, n: nat, x: T): seq<T>
    requires n <= |s|
  {
    if n < |s| then s[n := x] else s + [x]
  }

  lemma SplitKeepsShape<V>(g: Gss<V>, k: int)
    requires Shape(g) && 0 <= k < |g.tops| && StateAt(g.items, g.tops[k])
    ensures Shape(SplitStack(g, k)) && SplitStack(g, k).split != NONE
  {
    hide Descending;
    if g.split == NONE {
      assert g.tops[k] == |g.items| - 1;
    }
  }

  /** yymarkStackDeleted */
  ghost function MarkDeleted<V>(g: Gss<V>, k: int): Gss<V>
    requires 0 <= k < |g.tops|
  {
    if g.tops[k] == NONE then g
    else g.(lastDeleted := g.tops[k], stale := false, tops := g.tops[k := NONE])
  }

  lemma DeleteKeepsShape<V>(g: Gss<V>, k: int)
    requires Shape(g) && 0 <= k < |g.tops| && g.split != NONE
    ensures Shape(MarkDeleted(g, k))
  {
    hide Descending, Fans, Contiguous;
  }

  /** The entries for live stacks, in order. */
  function LiveEntries<T>(tops: seq<int>, entries: seq<T>): seq<T>
    requires |tops| == |entries|
  {
    if tops == [] then []
    else LiveEntries(Front(tops), Front(entries)) + if Last(tops) == NONE then [] else [Last(entries)]
  }

  /** yyremoveDeletes: the flags of live stacks move up, the rest of the buffer stays. */
  ghost function RemoveDeletes<V>(g: Gss<V>): Gss<V>
    requires |g.tops| <= |g.needs|
  {
    LiveFacts(g.tops, g.needs[..|g.tops|]);
    var live := LiveEntries(g.tops, g.needs[..|g.tops|]);
    g.(tops := LiveEntries(g.tops, g.tops), needs := live + g.needs[|live|..])
  }

  lemma {:induction false} LiveFacts(tops: seq<int>, needs: seq<bool>)
    requires |tops| == |needs|
    ensures |LiveEntries(tops, tops)| == |LiveEntries(tops, needs)| <= |tops|
    ensures forall t :: t in LiveEntries(tops, tops) <==> t in tops && t != NONE
  {
    if tops != [] {
      LiveFacts(Front(tops), Front(needs));
      Snoc(tops);
      var rest := LiveEntries(Front(tops), Front(tops));
      forall t ensures t in LiveEntries(tops, tops) <==> t in tops && t != NONE {
        assert t in Front(tops) + [Last(tops)] <==> t in Front(tops) || t == Last(tops);
      }
    }
  }

  lemma OneLive(t: int)
    requires t != NONE
    ensures LiveEntries([t], [t]) == [t]
  {
    assert Front([t]) == [];
  }

  lemma RemoveKeepsShape<V>(g: Gss<V>)
    requires Shape(g) && (g.split == NONE ==> g.items != [])
    ensures Shape(RemoveDeletes(g)) && forall t :: t in RemoveDeletes(g).tops <==> t in g.tops && t != NONE
  {
    hide Descending, Fans, Contiguous, LiveEntries;
    LiveFacts(g.tops, g.needs[..|g.tops|]);
    if g.split == NONE {
      OneLive(g.tops[0]);
    } else {
      var tops := LiveEntries(g.tops, g.tops);
      forall k | 0 <= k < |tops| ensures IsTop(g.items, g.split, tops[k]) {
        assert tops[k] in tops;
        var j :| 0 <= j < |g.tops| && g.tops[j] == tops[k];
      }
    }
  }

  /** yyundeleteLastStack */
  ghost function Undelete<V>(g: Gss<V>): Gss<V> {
    if g.lastDeleted == NONE || g.tops != [] then g
    else g.(tops := [g.lastDeleted], lastDeleted := NONE)
  }

  lemma UndeleteKeepsShape<V>(g: Gss<V>)
    requires Shape(g) && g.split != NONE && !g.stale
    ensures Shape(Undelete(g))
  {
    hide Descending, Fans, Contiguous;
  }
}
