/** The return to a single stack without gaps: what yycompressStack leaves on the stack, and the two
    in-place passes it makes over the array. */
module GlrCompress {
  import opened Collections
  import LrTables
  import opened LrAutomaton
  import opened GlrShape
  import opened GlrOps
  import opened GlrReduce
  import opened GlrOptions

  /** A state moved to place j of a stack without gaps. */
  function Moved<V>(x: Item<V>, j: int): Item<V> {
    if x.State? then x.(pred := j - 1) else x
  }

  /** The states of the stack with top t, side by side. */
  ghost function Content<V>(items: seq<Item<V>>, t: int): (c: seq<Item<V>>)
    requires Descending(items) && StateAt(items, t)
    ensures |c| == |Path(items, t)|
    decreases t
  {
    PathStep(items, t);
    if t == 0 then [items[0]]
    else
      var below := Content(items, items[t].pred);
      below + [Moved(items[t], |below|)]
  }

  lemma {:induction false} ContentAt<V>(items: seq<Item<V>>, t: int, j: nat)
    requires Descending(items) && StateAt(items, t) && j < |Path(items, t)|
    ensures StateAt(items, Path(items, t)[j]) && Content(items, t)[j] == Moved(items[Path(items, t)[j]], j)
    decreases t
  {
    PathStep(items, t);
    if t != 0 && j < |Path(items, items[t].pred)| {
      ContentAt(items, items[t].pred, j);
    }
  }

  /** The content has the same states, positions and semantics in the same order, and no gaps. */
  lemma {:induction false} ContentKeepsStack<V>(items: seq<Item<V>>, t: int)
    requires Descending(items) && StateAt(items, t)
    ensures var c := Content(items, t);
            && Descending(c) && Contiguous(c, |c|) && StateAt(c, |c| - 1)
            && Spine(c, |c| - 1) == Spine(items, t)
            && c[|c| - 1].lr == items[t].lr && c[|c| - 1].posn == items[t].posn && c[|c| - 1].sem == items[t].sem
    decreases t
  {
    hide Spine, Content, Descending, Contiguous, Path;
    ContentStep(items, t);
    PathStep(items, t);
    if t == 0 {
      FirstContent(items);
    } else {
      ContentKeepsStack(items, items[t].pred);
      SpineStep(items, t);
      var below := Content(items, items[t].pred);
      OnTop(below, Moved(items[t], |below|));
    }
  }

  lemma ContentStep<V>(items: seq<Item<V>>, t: int)
    requires Descending(items) && StateAt(items, t)
    ensures t == 0 ==> Content(items, t) == [items[0]]
    ensures t != 0 ==>
              Below(items, t) && Content(items, t)
              == Content(items, items[t].pred) + [Moved(items[t], |Content(items, items[t].pred)|)]
  {
    PathStep(items, t);
  }

  /** One more state on a stack without gaps. */
  lemma OnTop<V>(below: seq<Item<V>>, x: Item<V>)
    requires Descending(below) && Contiguous(below, |below|) && StateAt(below, |below| - 1)
    requires x.State? && x.pred == |below| - 1 && below[|below| - 1].posn <= x.posn
    ensures var c := below + [x];
            && Descending(c) && Contiguous(c, |c|) && StateAt(c, |below|)
            && Spine(c, |below|) == Spine(below, |below| - 1) + [Node(x.lr, x.posn)]
  {
    hide Spine, Descending, Contiguous;
    PushDescends(below, x);
    PushContiguous(below, x);
    SameSpine(below, below + [x], |below| - 1);
    SpineStep(below + [x], |below|);
  }

  lemma FirstContent<V>(items: seq<Item<V>>)
    requires Descending(items) && StateAt(items, 0)
    ensures Descending([items[0]]) && Contiguous([items[0]], 1)
    ensures Spine([items[0]], 0) == Spine(items, 0)
  {
  }

  /** yycompressStack */
  ghost function Compress<V>(g: Gss<V>): Gss<V>
    requires Shape(g)
  {
    if |g.tops| != 1 || g.split == NONE || g.tops[0] == NONE then g
    else
      LiveTop(g, 0);
      var c := Content(g.items, g.tops[0]);
      g.(items := c, split := NONE, tops := [|c| - 1], lastDeleted := NONE)
  }

  /** Afterwards there is a single stack without gaps, which is the stack from before. */
  lemma CompressKeepsStack<V>(a: Lalr, g: Gss<V>)
    requires Shape(g) && Linked(a, g.items) && |g.tops| == 1 && g.tops[0] != NONE
    ensures var g' := Compress(g);
            && Shape(g') && Linked(a, g'.items) && g'.split == NONE && |g'.tops| == 1
            && StateAt(g.items, g.tops[0]) && StateAt(g'.items, g'.tops[0])
            && Spine(g'.items, g'.tops[0]) == Spine(g.items, g.tops[0])
            && Frames(g'.items, g'.tops[0]) == Frames(g.items, g.tops[0])
  {
    hide LrTables.Valid, Descending, Contiguous, Fans, Spine, Content, Linked;
    LiveTop(g, 0);
    if g.split != NONE {
      ContentKeepsStack(g.items, g.tops[0]);
      ContentKeepsFrames(g.items, g.tops[0]);
      ContentLinks(a, g.items, g.tops[0]);
    }
  }

  /** What the stack holds: LR state, position and semantics of every state on it. */
  datatype Frame<+V> = Frame(lr: int, posn: nat, sem: Semantics<V>)

  ghost function Frames<V>(items: seq<Item<V>>, t: int): seq<Frame<V>>
    requires Descending(items) && StateAt(items, t)
    decreases t
  {
    PathStep(items, t);
    (if t == 0 then [] else Frames(items, items[t].pred)) + [Frame(items[t].lr, items[t].posn, items[t].sem)]
  }

  lemma {:induction false} SameFrames<V>(items: seq<Item<V>>, more: seq<Item<V>>, t: int)
    requires Descending(items) && Descending(more) && |items| <= |more| && StateAt(items, t)
    requires forall i :: 0 <= i < |items| ==> more[i] == items[i]
    ensures Frames(more, t) == Frames(items, t)
    decreases t
  {
    hide Descending;
    if t != 0 {
      PathStep(items, t);
      SameFrames(items, more, items[t].pred);
    }
  }

  /** The content is the same sequence of LR states, positions and semantics, bottom to top. */
  lemma {:induction false} ContentKeepsFrames<V>(items: seq<Item<V>>, t: int)
    requires Descending(items) && StateAt(items, t)
    ensures var c := Content(items, t);
            Descending(c) && StateAt(c, |c| - 1) && Frames(c, |c| - 1) == Frames(items, t)
    decreases t
  {
    hide Content, Descending, Contiguous, Path;
    ContentStep(items, t);
    ContentKeepsStack(items, t);
    PathStep(items, t);
    if t != 0 {
      ContentKeepsFrames(items, items[t].pred);
      ContentKeepsStack(items, items[t].pred);
      var below := Content(items, items[t].pred);
      var c := below + [Moved(items[t], |below|)];
      SameFrames(below, c, |below| - 1);
    }
  }

  /** No pointer to an alternative is left dangling exactly if every state on the stack has its value,
      or has lost its alternatives: the items of the alternatives are given back. */
  lemma NoDanglingIff<V>(items: seq<Item<V>>, t: int)
    requires Descending(items) && StateAt(items, t)
    ensures AllOwn(Content(items, t)) <==> forall x :: x in Path(items, t) ==> Settled(items, x)
  {
    hide Content, Descending, Contiguous, Path;
    var c, path := Content(items, t), Path(items, t);
    ContentKeepsStack(items, t);
    if AllOwn(c) {
      forall x | x in path ensures Settled(items, x) {
        var j :| 0 <= j < |path| && path[j] == x;
        ContentAt(items, t, j);
        ContiguousAt(c, |c|, j);
        if items[x].sem.Unresolved? && 0 <= items[x].sem.first < |c| {
          ContiguousAt(c, |c|, items[x].sem.first);
        }
      }
    }
    if forall x :: x in path ==> Settled(items, x) {
      forall i | StateAt(c, i) && c[i].sem.Unresolved? ensures HeadAt(c, c[i].sem.first) {
        ContentAt(items, t, i);
        assert path[i] in path;
      }
    }
  }

  /** The state refers to no alternatives. */
  ghost predicate Settled<V>(items: seq<Item<V>>, i: int) {
    StateAt(items, i) && (items[i].sem.Resolved? || items[i].sem.first == NONE)
  }

  lemma {:induction false} ContentLinks<V>(a: Lalr, items: seq<Item<V>>, t: int)
    requires Descending(items) && Linked(a, items) && StateAt(items, t)
    ensures Linked(a, Content(items, t))
    decreases t
  {
    hide LrTables.Valid, Links;
    PathStep(items, t);
    assert LinkedAt(a, items, t);
    var c := Content(items, t);
    if t == 0 {
      assert c == [items[0]];
    } else {
      ContentLinks(a, items, items[t].pred);
      var below := Content(items, items[t].pred);
      ContentKeepsStack(items, items[t].pred);
      PushDescends(below, Last(c));
      assert LinkedAt(a, c, |below|);
      SameLinks(a, below, c);
    }
  }

  // ---------------------------------------------------------------- the passes

  /** A path of ascending states. */
  ghost predicate Ascending<V>(items: seq<Item<V>>, path: seq<int>) {
    && (forall x :: 0 <= x < |path| ==> StateAt(items, path[x]))
    && (forall x, y :: 0 <= x < y < |path| ==> path[x] < path[y])
  }

  /** The state above the x-th of the path. */
  function Upper(path: seq<int>, x: nat): int
    requires x < |path|
  {
    if x == |path| - 1 then NONE else path[x + 1]
  }

  /** After the first pass has turned j states: they point upwards, the others are as before. */
  ghost predicate Turned<V>(before: seq<Item<V>>, path: seq<int>, j: nat, now: seq<Item<V>>)
    requires Ascending(before, path) && |now| == |before| && j <= |path|
  {
    && (forall x :: 0 <= x < |path| - j ==> now[path[x]] == before[path[x]])
    && (forall x :: |path| - j <= x < |path| ==> now[path[x]] == before[path[x]].(pred := Upper(path, x)))
  }

  lemma TurnOneMore<V>(before: seq<Item<V>>, path: seq<int>, j: nat, now: seq<Item<V>>)
    requires Ascending(before, path) && |now| == |before| && j < |path| && Turned(before, path, j, now)
    ensures var y := |path| - 1 - j;
            && now[path[y]] == before[path[y]]
            && Turned(before, path, j + 1, now[path[y] := now[path[y]].(pred := Upper(path, y))])
  {
    var y := |path| - 1 - j;
    var p := path[y];
    assert StateAt(before, p);
    var x' := now[p].(pred := Upper(path, y));
    forall x | 0 <= x < y ensures now[p := x'][path[x]] == before[path[x]] {
      Apart(before, path, x, y);
    }
    forall x | y <= x < |path| ensures now[p := x'][path[x]] == before[path[x]].(pred := Upper(path, x)) {
      if x > y {
        Apart(before, path, y, x);
      }
    }
  }

  lemma Apart<V>(items: seq<Item<V>>, path: seq<int>, x: nat, y: nat)
    requires Ascending(items, path) && x < y < |path|
    ensures StateAt(items, path[x]) && StateAt(items, path[y]) && path[x] < path[y]
  {
  }

  /** After the second pass has come to place n: the states of the path are copied up to there, and
      those above still point upwards. */
  ghost predicate Copied<V>(before: seq<Item<V>>, path: seq<int>, n: nat, now: seq<Item<V>>)
    requires Ascending(before, path) && |now| == |before| && n <= |path| <= |before|
  {
    && (forall x :: 0 <= x < n ==> now[x] == Moved(before[path[x]], x))
    && (forall x :: n <= x < |path| ==> now[path[x]] == before[path[x]].(pred := Upper(path, x)))
  }

  /** A state of an ascending path is never below its place in the path. */
  lemma {:induction false} PlaceBelow<V>(items: seq<Item<V>>, path: seq<int>, x: nat)
    requires Ascending(items, path) && x < |path|
    ensures x <= path[x] < |items|
  {
    assert StateAt(items, path[x]);
    if x > 0 {
      PlaceBelow(items, path, x - 1);
    }
  }

  /** So a copy overwrites nothing that is still to be copied. */
  lemma CopyOneMore<V>(before: seq<Item<V>>, path: seq<int>, n: nat, now: seq<Item<V>>)
    requires Ascending(before, path) && |now| == |before| && n < |path| <= |before| && Copied(before, path, n, now)
    ensures var r := path[n];
            && 0 <= r < |now| && now[r].State? && now[r].pred == Upper(path, n)
            && Copied(before, path, n + 1, now[n := now[r].(pred := n - 1)])
  {
    assert StateAt(before, path[n]);
    PlaceBelow(before, path, n);
    forall x | n < x < |path| ensures path[x] > n {
      assert path[x] > path[n];
    }
  }

  /** The pass begins where the split point's stretch ends, and ends with the content of the stack. */
  lemma CopyStarts<V>(before: seq<Item<V>>, path: seq<int>, n: nat, now: seq<Item<V>>)
    requires Ascending(before, path) && |now| == |before| && n <= |path| <= |before| && Contiguous(before, n)
    requires forall x :: 0 <= x < n ==> path[x] == x
    requires Turned(before, path, |path| - n, now)
    ensures Copied(before, path, n, now)
  {
  }

  lemma CopyEnds<V>(before: seq<Item<V>>, t: int, now: seq<Item<V>>)
    requires Descending(before) && StateAt(before, t) && Ascending(before, Path(before, t)) && |now| == |before|
    requires |Path(before, t)| <= |before| && Copied(before, Path(before, t), |Path(before, t)|, now)
    ensures now[..|Path(before, t)|] == Content(before, t)
  {
    forall j | 0 <= j < |Path(before, t)| ensures now[j] == Content(before, t)[j] {
      ContentAt(before, t, j);
    }
  }

  lemma PathIsAscending<V>(items: seq<Item<V>>, t: int)
    requires Descending(items) && StateAt(items, t)
    ensures Ascending(items, Path(items, t)) && |Path(items, t)| <= t + 1
  {
    var path := Path(items, t);
    forall x | 0 <= x < |path| ensures StateAt(items, path[x]) {
      PathAscends(items, t, x);
    }
    forall x, y | 0 <= x < y < |path| ensures path[x] < path[y] {
      PathOrdered(items, t, x, y);
    }
    PlaceBelow(items, path, |path| - 1);
  }

  lemma {:induction false} PathOrdered<V>(items: seq<Item<V>>, t: int, x: nat, y: nat)
    requires Descending(items) && StateAt(items, t) && x < y < |Path(items, t)|
    ensures Path(items, t)[x] < Path(items, t)[y]
    decreases y
  {
    PathAscends(items, t, y);
    if x < y - 1 {
      PathOrdered(items, t, x, y - 1);
    }
  }
}
