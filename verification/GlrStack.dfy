/** The GLR stack object: one array of items that is extended, compressed and given back in place. */
module GlrStack {
  import opened Collections
  import LrTables
  import opened LrAutomaton
  import opened GlrShape
  import opened GlrOps
  import opened GlrReduce
  import opened GlrCompress
  import Y = YaccMachine

  /** YYHEADROOM: items that must be free between operations, as an operation may take two. */
  const HEADROOM := 2

  /** An array of this size with so many items in use has headroom, or can be replaced by one that has:
      yyexpandGLRStack wants the headroom within the limit, and asks for one size only. */
  predicate HasRoom(maxDepth: nat, canAlloc: nat -> bool, size: nat, used: nat) {
    || used + HEADROOM <= size
    || (used + HEADROOM <= maxDepth && canAlloc(if maxDepth < 2 * used then maxDepth else 2 * used))
  }

  lemma StaleShape<V>(g: Gss<V>, stale: bool)
    requires Shape(g) && (g.stale ==> stale)
    ensures Shape(g.(stale := stale))
  {
    hide Descending, Contiguous, Fans;
  }

  lemma LiveStep<T>(tops: seq<int>, entries: seq<T>, i: nat)
    requires i < |tops| == |entries|
    ensures LiveEntries(tops[..i + 1], entries[..i + 1])
         == LiveEntries(tops[..i], entries[..i]) + if tops[i] == NONE then [] else [entries[i]]
  {
    assert Front(tops[..i + 1]) == tops[..i] && Front(entries[..i + 1]) == entries[..i];
  }

  lemma PutLater<T>(s: seq<T>, buffer: seq<T>, i: nat, j: nat)
    requires j <= i < |s| == |buffer| && buffer[j..] == s[j..]
    ensures buffer[i] == s[i]
    ensures buffer[j := s[i]][..j + 1] == buffer[..j] + [s[i]] && buffer[j := s[i]][j + 1..] == s[j + 1..]
  {
    assert buffer[i] == buffer[j..][i - j];
    assert forall x :: j < x < |s| ==> buffer[x] == buffer[j..][x - j];
  }

  /** The loop of yyremoveDeletes on the two buffers of entries. */
  method Squeeze(tops: seq<int>, needs: seq<bool>) returns (yytops: seq<int>, yylookaheadNeeds: seq<bool>)
    requires |tops| <= |needs|
    ensures yytops == LiveEntries(tops, tops) && |yytops| <= |tops|
    ensures yylookaheadNeeds == LiveEntries(tops, needs[..|tops|]) + needs[|yytops|..]
  {
    hide LiveEntries;
    yytops, yylookaheadNeeds := tops, needs;
    var yysize, yyi, yyj := |tops|, 0, 0;
    NoneLive<int>();
    NoneLive<bool>();
    ghost var flags := needs[..|tops|];
    while yyj < yysize
      invariant 0 <= yyj <= yyi <= |tops| == |yytops| && |yylookaheadNeeds| == |needs| && yysize - yyj == |tops| - yyi
      invariant yytops[..yyj] == LiveEntries(tops[..yyi], tops[..yyi]) && yytops[yyj..] == tops[yyj..]
      invariant yylookaheadNeeds[..yyj] == LiveEntries(tops[..yyi], flags[..yyi]) && yylookaheadNeeds[yyj..] == needs[yyj..]
      decreases |tops| - yyi
    {
      LiveStep(tops, tops, yyi);
      LiveStep(tops, flags, yyi);
      PutLater(tops, yytops, yyi, yyj);
      PutLater(needs, yylookaheadNeeds, yyi, yyj);
      if yytops[yyi] == NONE {
        yysize := yysize - 1;
      } else {
        yytops := yytops[yyj := yytops[yyi]];
        yylookaheadNeeds := yylookaheadNeeds[yyj := yylookaheadNeeds[yyi]];
        yyj := yyj + 1;
      }
      yyi := yyi + 1;
    }
    assert tops[..|tops|] == tops && flags[..|tops|] == flags;
    assert yylookaheadNeeds == yylookaheadNeeds[..yyj] + yylookaheadNeeds[yyj..];
    yytops := yytops[..yysize];
  }

  lemma NoneLive<T>()
    ensures LiveEntries<T>([], []) == []
  {
  }

  /** YYRESULTTAG */
  datatype Flag = YyOk | YyAccept | YyAbort | YyErr

  datatype ActionResult<+V> = Returns(value: V) | Accepts | Aborts | Rejects

  function FlagOf<V>(r: ActionResult<V>): Flag {
    match r
    case Returns(_) => YyOk
    case Accepts => YyAccept
    case Aborts => YyAbort
    case Rejects => YyErr
  }

  /** The semantics of the n states at the top of a stack, as its right-hand side. */
  ghost function Handle<V>(items: seq<Item<V>>, t: int, n: nat): seq<Semantics<V>>
    requires Descending(items) && StateAt(items, t) && n < |Path(items, t)|
    decreases n
  {
    if n == 0 then []
    else
      PathStep(items, t);
      Handle(items, items[t].pred, n - 1) + [items[t].sem]
  }

  /** yyfill: what an action sees of its right-hand side. */
  method CollectSemantics<V>(a: array<Item<V>>, used: nat, t: int, n: nat) returns (rhs: seq<Semantics<V>>)
    requires used <= a.Length && Descending(a[..used]) && StateAt(a[..used], t) && n < |Path(a[..used], t)|
    ensures rhs == Handle(a[..used], t, n)
  {
    hide Descending;
    ghost var items := a[..used];
    rhs := [];
    var s := t;
    for i := 0 to n
      invariant StateAt(items, s) && n - i < |Path(items, s)| && Handle(items, s, n - i) + rhs == Handle(items, t, n)
    {
      PathStep(items, s);
      Assoc(Handle(items, items[s].pred, n - i - 1), [items[s].sem], rhs);
      rhs := [a[s].sem] + rhs;
      s := a[s].pred;
    }
    EmptyConcat(rhs);
  }

  class Stack<V> {
    var yyitems: array<Item<V>>
    var yynextFree: nat
    var yyspaceLeft: nat
    var yysplitPoint: int
    var yytops: seq<int>
    var yylookaheadNeeds: seq<bool>
    var yylastDeleted: int
    ghost var stale: bool
    const initDepth: nat
    const maxDepth: nat
    const canAlloc: nat -> bool

    /** Used and free items make up the array, whose size stays within its limits. */
    ghost predicate Allocated()
      reads this
    {
      && yynextFree + yyspaceLeft == yyitems.Length
      && initDepth <= yyitems.Length && (yyitems.Length == initDepth || yyitems.Length <= maxDepth)
      && HEADROOM <= maxDepth
    }

    ghost function Now(): Gss<V>
      requires Allocated()
      reads this, yyitems
    {
      Gss(yyitems[..yynextFree], yysplitPoint, yytops, yylookaheadNeeds, yylastDeleted, stale)
    }

    ghost predicate Valid()
      reads this, yyitems
    {
      Allocated() && Shape(Now())
    }

    /** yyinitGLRStack */
    constructor (init: nat, max: nat, alloc: nat -> bool, unused: Item<V>)
      requires 0 < init && HEADROOM <= max
      ensures Valid() && fresh(yyitems) && initDepth == init && maxDepth == max && canAlloc == alloc
      ensures Now() == Gss([], NONE, [NONE], [false], NONE, false) && yyspaceLeft == init
    {
      initDepth, maxDepth, canAlloc := init, max, alloc;
      yyitems := new Item<V>[init](_ => unused);
      yynextFree, yyspaceLeft, yysplitPoint, yylastDeleted := 0, init, NONE, NONE;
      yytops, yylookaheadNeeds, stale := [NONE], [false], false;
    }

    /** YY_RESERVE_GLRSTACK with yyexpandGLRStack: moves the items to a larger array if fewer than two
        are free. A move does not reach yylastDeleted. */
    method Reserve() returns (ok: bool)
      requires Allocated() && 0 < yynextFree
      modifies this`yyitems, this`yyspaceLeft, this`stale
      ensures Allocated() && (yyitems == old(yyitems) || fresh(yyitems))
      ensures Now() == old(Now()).(stale := stale) && (old(stale) ==> stale)
      ensures ok && old(yyspaceLeft) < HEADROOM ==> (yyspaceLeft >= HEADROOM <==> yynextFree >= HEADROOM)
      ensures old(yyspaceLeft) >= HEADROOM ==> ok && yyspaceLeft == old(yyspaceLeft)
      ensures ok == HasRoom(maxDepth, canAlloc, old(yyitems.Length), yynextFree) && (!ok ==> yyitems == old(yyitems))
    {
      if yyspaceLeft < HEADROOM {
        var yysize := yynextFree;
        if maxDepth - HEADROOM < yysize {
          return false;
        }
        var yynewSize := 2 * yysize;
        if maxDepth < yynewSize {
          yynewSize := maxDepth;
        }
        if !canAlloc(yynewSize) {
          return false;
        }
        var yynewItems := Relocate(yyitems, yysize, yynewSize, yyitems[0]);
        yyitems, yyspaceLeft, stale := yynewItems, yynewSize - yysize, true;
      }
      ok := true;
    }

    /** yynewGLRStackItem, with what its caller stores there. */
    method NewItem(x: Item<V>)
      requires Allocated() && 0 < yyspaceLeft
      modifies this`yynextFree, this`yyspaceLeft, yyitems
      ensures Allocated() && yynextFree == old(yynextFree) + 1
      ensures Now() == old(Now()).(items := old(Now()).items + [x])
    {
      yyitems[yynextFree] := x;
      yynextFree, yyspaceLeft := yynextFree + 1, yyspaceLeft - 1;
    }

    method SetItem(i: nat, x: Item<V>)
      requires Allocated() && i < yynextFree
      modifies yyitems
      ensures Allocated() && Now() == old(Now()).(items := old(Now()).items[i := x])
    {
      yyitems[i] := x;
    }

    /** All used items replaced by others. */
    method SetItems(now: seq<Item<V>>)
      requires Allocated() && |now| == yynextFree
      modifies yyitems
      ensures Allocated() && Now() == old(Now()).(items := now)
    {
      forall i | 0 <= i < yynextFree {
        yyitems[i] := now[i];
      }
      assert yyitems[..yynextFree] == now;
    }

    /** Notes that stack k needs the lookahead. */
    method Need(k: nat)
      requires Valid() && k < |yytops|
      modifies this`yylookaheadNeeds
      ensures Valid() && k < |old(Now()).needs|
      ensures Now() == old(Now()).(needs := old(Now()).needs[k := true])
    {
      hide Descending, Contiguous, Fans;
      yylookaheadNeeds := yylookaheadNeeds[k := true];
    }

    /** Before a round over the stacks: whether their reductions see a lookahead. */
    method SetNeeds(needed: bool)
      requires Valid()
      modifies this`yylookaheadNeeds
      ensures Valid() && |yylookaheadNeeds| == |old(yylookaheadNeeds)|
      ensures Now() == old(Now()).(needs := yylookaheadNeeds)
      ensures forall k :: 0 <= k < |yylookaheadNeeds| ==>
                yylookaheadNeeds[k] == if k < |yytops| then needed else old(yylookaheadNeeds)[k]
    {
      hide Descending, Contiguous, Fans;
      var yys := 0;
      while yys < |yytops|
        invariant yys <= |yytops| && |yylookaheadNeeds| == |old(yylookaheadNeeds)|
        invariant forall k :: 0 <= k < |yylookaheadNeeds| ==>
                    yylookaheadNeeds[k] == if k < yys then needed else old(yylookaheadNeeds)[k]
      {
        yylookaheadNeeds := yylookaheadNeeds[yys := needed];
        yys := yys + 1;
      }
    }

    /** yyglrShift */
    method GlrShift(k: nat, lr: int, posn: nat, v: V) returns (ok: bool)
      requires Valid() && 0 < yyspaceLeft && CanPush(Now(), k, posn)
      modifies this, yyitems
      ensures Valid() && (yyitems == old(yyitems) || fresh(yyitems))
      ensures Now() == PushState(old(Now()), k, lr, posn, Resolved(v)).(stale := stale)
      ensures yynextFree == old(yynextFree) + 1
      ensures ok == HasRoom(maxDepth, canAlloc, old(yyitems.Length), yynextFree) && (!ok ==> yyitems == old(yyitems))
      ensures ok ==> (yyspaceLeft >= HEADROOM <==> yynextFree >= HEADROOM || old(yyspaceLeft) > HEADROOM)
    {
      hide Shape, Descending, HasRoom;
      ghost var g := Now();
      PushKeepsShape(g, k, lr, posn, Resolved(v));
      NewItem(State(lr, yytops[k], posn, Resolved(v)));
      yytops := yytops[k := yynextFree - 1];
      assert Now() == PushState(g, k, lr, posn, Resolved(v));
      ok := Reserve();
      StaleShape(PushState(g, k, lr, posn, Resolved(v)), stale);
    }

    /** yyaddDeferredAction */
    method AddDeferredAction(k: nat, p: int, rhs: int, rule: int, yylval: V) returns (ok: bool)
      requires Valid() && 0 < yyspaceLeft && k < |yytops| && StateAt(Now().items, p) && yysplitPoint != NONE
      modifies this, yyitems
      ensures Valid() && (yyitems == old(yyitems) || fresh(yyitems))
      ensures Now() == AddChoice(old(Now()), p, rhs, rule, Raw(old(yylookaheadNeeds)[k], yylval)).(stale := stale)
      ensures yynextFree == old(yynextFree) + 1
      ensures ok == HasRoom(maxDepth, canAlloc, old(yyitems.Length), yynextFree) && (!ok ==> yyitems == old(yyitems))
      ensures ok ==> (yyspaceLeft >= HEADROOM <==> yynextFree >= HEADROOM || old(yyspaceLeft) > HEADROOM)
    {
      hide Shape, Descending, HasRoom;
      ghost var g := Now();
      NeedsFit(g);
      var raw := Raw(yylookaheadNeeds[k], yylval);
      ChoiceKeepsShape(g, p, rhs, rule, raw);
      var yystate := yyitems[p];
      var first := if yystate.sem.Unresolved? then yystate.sem.first else NONE;
      NewItem(Choice(rule, rhs, first, raw));
      SetItem(p, yystate.(sem := Unresolved(yynextFree - 1)));
      assert Now() == AddChoice(g, p, rhs, rule, raw);
      ok := Reserve();
      StaleShape(AddChoice(g, p, rhs, rule, raw), stale);
    }

    /** yyglrShiftDefer takes two items after one check for headroom. */
    method GlrShiftDefer(k: nat, lr: int, posn: nat, rhs: int, rule: int, yylval: V) returns (ok: bool)
      requires Valid() && HEADROOM <= yyspaceLeft && CanPush(Now(), k, posn) && yysplitPoint != NONE
      modifies this, yyitems
      ensures Valid() && (yyitems == old(yyitems) || fresh(yyitems))
      ensures Now() == AddChoice(PushState(old(Now()), k, lr, posn, Unresolved(NONE)), old(yynextFree), rhs, rule,
                                 Raw(old(yylookaheadNeeds)[k], yylval)).(stale := stale)
      ensures ok == HasRoom(maxDepth, canAlloc, old(yyitems.Length), yynextFree) && (!ok ==> yyitems == old(yyitems))
      ensures ok ==> yyspaceLeft >= HEADROOM
    {
      hide Shape, AddChoice, Descending, HasRoom;
      ghost var g := Now();
      PushKeepsShape(g, k, lr, posn, Unresolved(NONE));
      NewItem(State(lr, yytops[k], posn, Unresolved(NONE)));
      yytops := yytops[k := yynextFree - 1];
      ghost var g' := PushState(g, k, lr, posn, Unresolved(NONE));
      assert Now() == g' && StateAt(g'.items, |g.items|);
      hide PushState;
      ok := AddDeferredAction(k, yynextFree - 1, rhs, rule, yylval);
    }

    /** yyupdateSplit */
    method UpdateSplitPoint(s: int)
      requires Valid() && StateAt(Now().items, s)
      modifies this`yysplitPoint
      ensures Valid() && Now() == UpdateSplit(old(Now()), s)
    {
      hide Shape;
      UpdateSplitKeepsShape(Now(), s);
      if yysplitPoint != NONE && yysplitPoint > s {
        yysplitPoint := s;
      }
    }

    /** yymarkStackDeleted */
    method MarkStackDeleted(k: nat)
      requires Valid() && k < |yytops| && yysplitPoint != NONE
      modifies this`yytops, this`yylastDeleted, this`stale
      ensures Valid() && Now() == MarkDeleted(old(Now()), k)
    {
      hide Shape;
      DeleteKeepsShape(Now(), k);
      if yytops[k] != NONE {
        yylastDeleted := yytops[k];
        stale := false;
      }
      assert yytops[k] == NONE ==> yytops[k := NONE] == yytops;
      yytops := yytops[k := NONE];
    }

    /** yyundeleteLastStack, which must not find a pointer from before a move. */
    method UndeleteLastStack()
      requires Valid() && yysplitPoint != NONE && !stale
      modifies this`yytops, this`yylastDeleted
      ensures Valid() && Now() == Undelete(old(Now()))
    {
      hide Shape;
      UndeleteKeepsShape(Now());
      if yylastDeleted == NONE || |yytops| != 0 {
        return;
      }
      yytops := [yylastDeleted];
      yylastDeleted := NONE;
    }

    /** yyremoveDeletes: the entries of live stacks move up in place. */
    method RemoveDeletedStacks()
      requires Valid() && (yysplitPoint == NONE ==> 0 < yynextFree)
      modifies this`yytops, this`yylookaheadNeeds
      ensures Valid() && Now() == RemoveDeletes(old(Now()))
    {
      hide Shape, LiveEntries;
      NeedsFit(Now());
      RemoveKeepsShape(Now());
      LiveFacts(yytops, yylookaheadNeeds[..|yytops|]);
      yytops, yylookaheadNeeds := Squeeze(yytops, yylookaheadNeeds);
    }

    /** yysplitStack */
    method SplitOffStack(k: nat) returns (yynew: nat)
      requires Valid() && k < |yytops| && StateAt(Now().items, yytops[k])
      modifies this`yysplitPoint, this`yytops, this`yylookaheadNeeds
      ensures Valid() && Now() == SplitStack(old(Now()), k) && yynew == |old(yytops)|
    {
      hide Shape;
      NeedsFit(Now());
      SplitKeepsShape(Now(), k);
      if yysplitPoint == NONE {
        yysplitPoint := yytops[k];
      }
      yylookaheadNeeds := Put(yylookaheadNeeds, |yytops|, yylookaheadNeeds[k]);
      yytops := yytops + [yytops[k]];
      yynew := |yytops| - 1;
    }

    /** The part of yydoAction that pops: a single stack gives its items back, otherwise the chain is
        followed and the split point moved down if need be. */
    method PopRightHandSide(k: nat, n: nat)
      requires Valid() && k < |yytops| && StateAt(Now().items, yytops[k]) && n < |Path(Now().items, yytops[k])|
      modifies this`yynextFree, this`yyspaceLeft, this`yytops, this`yysplitPoint
      ensures Valid() && Now() == PopStack(old(Now()), k, n)
      ensures yyspaceLeft >= old(yyspaceLeft)
    {
      hide Shape, PopStack, Descending, Path, Back;
      ghost var g := Now();
      PopKeepsShape(g, k, n);
      PopParts(g, k, n);
      if yysplitPoint == NONE {
        GiveBack(n);
      } else {
        var s := Descend(yytops[k], n);
        UpdateSplitPoint(s);
        yytops := yytops[k := s];
      }
    }

    /** A single stack gives n items back. */
    method GiveBack(n: nat)
      requires Allocated() && n < yynextFree && |yytops| == 1
      modifies this`yynextFree, this`yyspaceLeft, this`yytops
      ensures Allocated() && yyspaceLeft >= old(yyspaceLeft)
      ensures Now() == old(Now()).(items := old(Now()).items[..old(yynextFree) - n], tops := [old(yynextFree) - n - 1])
    {
      yynextFree, yyspaceLeft := yynextFree - n, yyspaceLeft + n;
      yytops := yytops[0 := yynextFree - 1];
    }

    /** n steps along the predecessors. */
    method Descend(t: int, n: nat) returns (s: int)
      requires Valid() && StateAt(Now().items, t) && n < |Path(Now().items, t)|
      ensures StateAt(Now().items, s) && s == Back(Now().items, t, n)
    {
      ghost var items := Now().items;
      s := t;
      for i := 0 to n
        invariant StateAt(items, s) && n - i < |Path(items, s)| && Back(items, s, n - i) == Back(items, t, n)
      {
        PathStep(items, s);
        s := yyitems[s].pred;
      }
    }

    /** The search down one stack in yyglrReduce. */
    method FindOn(t: int, s: int, posn: nat, q: int) returns (p: int)
      requires Valid() && StateAt(Now().items, t)
      ensures p == Find(Now().items, t, s, yysplitPoint, posn, q)
    {
      hide Shape, Descending;
      NeedsFit(Now());
      ghost var items := Now().items;
      var yyp := t;
      while yyp != s && yyp != yysplitPoint && yyitems[yyp].posn >= posn
        invariant StateAt(items, yyp) && Find(items, t, s, yysplitPoint, posn, q) == Find(items, yyp, s, yysplitPoint, posn, q)
        decreases yyp
      {
        if yyitems[yyp].lr == q && yyitems[yyp].pred == s {
          return yyp;
        }
        PathStep(items, yyp);
        if yyp == 0 {
          return NONE;
        }
        yyp := yyitems[yyp].pred;
      }
      p := NONE;
    }

    /** The search over all other stacks. */
    method FindTwin(k: nat, s: int, posn: nat, q: int) returns (p: int)
      requires Valid()
      ensures p == FindFrom(Now(), k, s, posn, q, 0)
    {
      hide Shape, Descending, Find;
      ghost var g := Now();
      for yyi := 0 to |yytops|
        invariant FindFrom(g, k, s, posn, q, 0) == FindFrom(g, k, s, posn, q, yyi)
      {
        if yyi != k && yytops[yyi] != NONE {
          LiveTop(g, yyi);
          p := FindOn(yytops[yyi], s, posn, q);
          if p != NONE {
            return;
          }
        }
      }
      p := NONE;
    }

    /** The popping loop of yyrecoverSyntaxError on the single stack that is left: states that cannot
        shift the error token give their items back, down to the last. */
    method PopToErrorState(t: LrTables.Tables) returns (found: bool)
      requires Valid() && yysplitPoint == NONE && LrTables.Sized(t)
      modifies this`yynextFree, this`yyspaceLeft, this`yytops
      ensures Valid() && yysplitPoint == NONE && yyspaceLeft >= old(yyspaceLeft)
      ensures yynextFree == Y.ErrorDepth(t, LrsOf(old(Now()).items), |old(Now()).items|) && found == (yynextFree > 0)
      ensures Now() == old(Now()).(items := old(Now()).items[..yynextFree], tops := [yynextFree - 1])
    {
      hide Shape, Descending, Y.CatchesErrors, LrsOf;
      ghost var g := Now();
      ghost var lrs := LrsOf(g.items);
      SingleTop(g);
      while yytops[0] != NONE
        invariant 0 <= yynextFree <= |g.items| && yytops == [yynextFree - 1]
        invariant yynextFree + yyspaceLeft == old(yynextFree + yyspaceLeft)
        invariant Y.ErrorDepth(t, lrs, yynextFree) == Y.ErrorDepth(t, lrs, |lrs|)
        decreases yynextFree
      {
        SingleState(g, yynextFree);
        var yys := yyitems[yytops[0]];
        assert yys == g.items[yynextFree - 1];
        if Y.CatchesErrors(t, yys.lr) {
          break;
        }
        yytops := yytops[0 := yys.pred];
        yynextFree, yyspaceLeft := yynextFree - 1, yyspaceLeft + 1;
      }
      SinglePrefix(g, yynextFree);
      assert Now() == g.(items := g.items[..yynextFree], tops := [yynextFree - 1]);
      found := yytops[0] != NONE;
    }

    /** The first pass of yycompressStack: turns the predecessors above the split point around. */
    method TurnAround(ghost path: seq<int>) returns (yyr: int)
      requires Allocated() && |yytops| == 1 && 0 <= yysplitPoint < |path|
      requires ClimbsFrom(Now().items, path, yysplitPoint) && Last(path) == yytops[0]
      modifies yyitems
      ensures Allocated() && Turned(old(Now()).items, path, |path| - yysplitPoint - 1, Now().items)
      ensures yyr == At(path, yysplitPoint + 1)
    {
      hide Ascending, Turned, ClimbsFrom;
      ghost var before := Now().items;
      ghost var y := |path| - 1;
      TurnNone(before, path, yysplitPoint);
      StepDown(before, path, yysplitPoint, y);
      var yyp := yytops[0];
      var yyq := yyitems[yyp].pred;
      yyr := NONE;
      while yyp != yysplitPoint
        invariant Allocated() && yysplitPoint <= y < |path| && yyp == path[y] && StateAt(before, yyp) && yyq == before[yyp].pred && yyr == At(path, y + 1)
        invariant (yyp == yysplitPoint <==> y == yysplitPoint) && Turned(before, path, |path| - 1 - y, Now().items)
        decreases y
      {
        TurnStep(before, path, yysplitPoint, y, Now().items);
        SetItem(yyp, yyitems[yyp].(pred := yyr));
        yyr := yyp;
        yyp := yyq;
        y := y - 1;
        yyq := yyitems[yyp].pred;
      }
    }

    /** The second pass: copies the states that were turned around to where they leave no gap. */
    method CopyDown(yyr0: int, ghost before: seq<Item<V>>, ghost path: seq<int>)
      requires Allocated() && |yytops| == 1 && 0 < yynextFree <= |path| <= |before| <= yyitems.Length
      requires Ascending(before, path) && Copied(before, path, yynextFree, yyitems[..|before|])
      requires yyr0 == At(path, yynextFree) && yytops[0] == yynextFree - 1
      modifies this`yynextFree, this`yyspaceLeft, this`yytops, yyitems
      ensures Allocated() && yynextFree == |path| && yytops == [|path| - 1]
      ensures Copied(before, path, |path|, yyitems[..|before|])
    {
      hide Ascending, Copied;
      var yyr := yyr0;
      while yyr != NONE
        invariant Allocated() && 0 < yynextFree <= |path| && yytops == [yynextFree - 1]
        invariant Copied(before, path, yynextFree, yyitems[..|before|]) && yyr == At(path, yynextFree)
        decreases |path| - yynextFree
      {
        PlaceBelow(before, path, yynextFree);
        CopyOneMore(before, path, yynextFree, yyitems[..|before|]);
        var x := yyitems[yyr];
        SetCell(yynextFree, x.(pred := yynextFree - 1), |before|);
        yyr := x.pred;
        yytops := yytops[0 := yynextFree];
        yynextFree, yyspaceLeft := yynextFree + 1, yyspaceLeft - 1;
      }
      AtEnd(before, path, yynextFree);
    }

    method SetCell(i: nat, x: Item<V>, ghost used: nat)
      requires i < used <= yyitems.Length
      modifies yyitems
      ensures yyitems[..used] == old(yyitems[..used])[i := x]
    {
      yyitems[i] := x;
    }

    /** yycompressStack */
    method CompressStack()
      requires Valid() && (|yytops| == 1 ==> yytops[0] != NONE)
      modifies this, yyitems
      ensures Valid() && Now() == Compress(old(Now())) && yyitems == old(yyitems)
    {
      hide Shape, Ascending, Turned, Copied, ClimbsFrom, Content, Path, Descending, Contiguous;
      ghost var g := Now();
      CompressShape(g);
      if |yytops| != 1 || yysplitPoint == NONE {
        return;
      }
      ghost var path := Path(g.items, yytops[0]);
      StackClimbs(g);
      var yyr := TurnAround(path);
      StartCopy(g, Now().items);
      yyspaceLeft := yyspaceLeft + yynextFree;
      yynextFree := yysplitPoint + 1;
      yyspaceLeft := yyspaceLeft - yynextFree;
      yytops := yytops[0 := yysplitPoint];
      yysplitPoint, yylastDeleted := NONE, NONE;
      CopyDown(yyr, g.items, path);
      CopyEnds(g.items, g.tops[0], yyitems[..|g.items|]);
      assert yyitems[..yynextFree] == yyitems[..|g.items|][..yynextFree];
    }

    /** The part of yyglrReduce for a reduction whose action is put off. */
    method ReduceDeferred(a: Lalr, k: nat, rule: int, yylval: V) returns (ok: bool)
      requires Allocated() && HEADROOM <= yyspaceLeft && CanReduce(a, Now(), k, rule) && yysplitPoint != NONE
      modifies this, yyitems
      ensures Valid() && (yyitems == old(yyitems) || fresh(yyitems))
      ensures Now() == ReduceLater(a, old(Now()), k, rule, Raw(old(yylookaheadNeeds)[k], yylval)).(stale := stale)
      ensures ok == HasRoom(maxDepth, canAlloc, old(yyitems.Length), yynextFree) && (!ok ==> yyitems == old(yyitems))
      ensures ok ==> HEADROOM <= yyspaceLeft
      ensures k < |yytops| && (yytops[k] == NONE ==> !stale)
    {
      hide LrTables.Valid, Shape, Descending, Linked, FindFrom, HasRoom;
      ghost var g := Now();
      var yys0 := yytops[k];
      var s, q, posn := Locate(a, k, rule);
      UpdateSplitPoint(s);
      var p := FindTwin(k, s, posn, q);
      if p != NONE {
        ok := AddDeferredAction(k, p, yys0, rule, yylval);
        MarkStackDeleted(k);
      } else {
        RetopShape(a, g, k, rule);
        yytops := yytops[k := s];
        ok := GlrShiftDefer(k, q, posn, yys0, rule, yylval);
      }
    }

    /** yyglrReduce: the action is run at once in deterministic operation or if it is forced. */
    method GlrReduce(a: Lalr, k: nat, rule: int, forceEval: bool, act: (int, seq<Semantics<V>>) -> ActionResult<V>, yylval: V)
      returns (flag: Flag, ok: bool)
      requires Allocated() && HEADROOM <= yyspaceLeft && CanReduce(a, Now(), k, rule)
      modifies this, yyitems
      ensures Valid() && (yyitems == old(yyitems) || fresh(yyitems))
      ensures if forceEval || old(yysplitPoint) == NONE then
                RunsAction(a, old(Now()), k, rule, act, flag, Now())
              else
                flag == YyOk && k < |yytops| && (yytops[k] == NONE ==> !stale)
                && Now() == ReduceLater(a, old(Now()), k, rule, Raw(old(yylookaheadNeeds)[k], yylval)).(stale := stale)
      ensures ok == (flag != YyOk || HasRoom(maxDepth, canAlloc, old(yyitems.Length), yynextFree))
      ensures !ok ==> yyitems == old(yyitems)
      ensures ok ==> HEADROOM <= yyspaceLeft
    {
      hide LrTables.Valid, Shape, Descending, Linked, CanReduce, ReduceLater, HasRoom;
      if forceEval || yysplitPoint == NONE {
        flag, ok := ReduceEvaluated(a, k, rule, act);
      } else {
        flag := YyOk;
        ok := ReduceDeferred(a, k, rule, yylval);
      }
    }

    /** yydoAction, and the push of its result. */
    method ReduceEvaluated(a: Lalr, k: nat, rule: int, act: (int, seq<Semantics<V>>) -> ActionResult<V>)
      returns (flag: Flag, ok: bool)
      requires Allocated() && HEADROOM <= yyspaceLeft && CanReduce(a, Now(), k, rule)
      modifies this, yyitems
      ensures Valid() && (yyitems == old(yyitems) || fresh(yyitems))
      ensures RunsAction(a, old(Now()), k, rule, act, flag, Now())
      ensures ok == (flag != YyOk || HasRoom(maxDepth, canAlloc, old(yyitems.Length), yynextFree))
      ensures !ok ==> yyitems == old(yyitems)
      ensures ok ==> HEADROOM <= yyspaceLeft
    {
      hide LrTables.Valid, Shape, Descending, Linked, PopStack, HasRoom;
      ghost var g := Now();
      Reducible(a, g, k, rule);
      var n := Length(a, rule);
      var s, q, posn := Locate(a, k, rule);
      var rhs := RightHandSide(yytops[k], n);
      PoppedCanPush(a, g, k, rule);
      PopRightHandSide(k, n);
      var result := act(rule, rhs);
      ok, flag := true, FlagOf(result);
      if result.Returns? {
        ok := GlrShift(k, q, posn, result.value);
      }
    }

    method RightHandSide(t: int, n: nat) returns (rhs: seq<Semantics<V>>)
      requires Valid() && StateAt(Now().items, t) && n < |Path(Now().items, t)|
      ensures rhs == Handle(Now().items, t, n)
    {
      hide Shape, Descending;
      NeedsFit(Now());
      rhs := CollectSemantics(yyitems, yynextFree, t, n);
    }

    /** Where a reduction of stack k leads: the state it uncovers, the state to push and its position. */
    method Locate(a: Lalr, k: nat, rule: int) returns (s: int, q: int, posn: nat)
      requires Allocated() && CanReduce(a, Now(), k, rule)
      ensures s == Uncovered(a, Now(), k, rule) && q == GotoRule(a, Now().items[s].lr, rule)
      ensures posn == Now().items[yytops[k]].posn
    {
      hide LrTables.Valid, Shape, Descending, Linked;
      Reducible(a, Now(), k, rule);
      s := Descend(yytops[k], Length(a, rule));
      assert s == Uncovered(a, Now(), k, rule);
      q := GotoRule(a, yyitems[s].lr, rule);
      posn := yyitems[yytops[k]].posn;
    }
  }

  /** A reduction with its action: its result is pushed, or the stack stays popped if it fails. */
  ghost predicate RunsAction<V>(a: Lalr, g: Gss<V>, k: nat, rule: int, act: (int, seq<Semantics<V>>) -> ActionResult<V>,
                                flag: Flag, g': Gss<V>)
    requires CanReduce(a, g, k, rule)
  {
    Reducible(a, g, k, rule);
    var result := act(rule, Handle(g.items, g.tops[k], Length(a, rule)));
    && flag == FlagOf(result)
    && if result.Returns? then g' == ReduceNow(a, g, k, rule, result.value).(stale := g'.stale)
       else g' == PopStack(g, k, Length(a, rule))
  }

  lemma PoppedCanPush<V>(a: Lalr, g: Gss<V>, k: nat, rule: int)
    requires CanReduce(a, g, k, rule)
    ensures Length(a, rule) < |Path(g.items, g.tops[k])|
    ensures var g' := PopStack(g, k, Length(a, rule));
            Shape(g') && CanPush(g', k, g.items[g.tops[k]].posn) && g'.items != []
  {
    hide LrTables.Valid, Linked, Descending, Fans, Contiguous, Path;
    Reducible(a, g, k, rule);
    BackPath(g.items, g.tops[k], Length(a, rule));
    PopEffect(g, k, Length(a, rule));
  }

  /** The LR states of a stack without gaps. */
  function LrsOf<V>(items: seq<Item<V>>): (lrs: seq<int>)
    ensures |lrs| == |items|
  {
    seq(|items|, i requires 0 <= i < |items| => if items[i].State? then items[i].lr else 0)
  }

  lemma SingleTop<V>(g: Gss<V>)
    requires Shape(g) && g.split == NONE
    ensures |g.tops| == 1 && g.tops[0] == |g.items| - 1
  {
  }

  lemma SingleState<V>(g: Gss<V>, n: nat)
    requires Shape(g) && g.split == NONE && 0 < n <= |g.items|
    ensures g.items[n - 1].State? && g.items[n - 1].pred == n - 2
    ensures g.items[..n][n - 1] == g.items[n - 1] && g.items[..n][..n - 1] == g.items[..n - 1]
    ensures |LrsOf(g.items)| == |g.items| && LrsOf(g.items)[n - 1] == g.items[n - 1].lr
  {
    hide Descending, Fans;
  }

  lemma SinglePrefix<V>(g: Gss<V>, n: nat)
    requires Shape(g) && g.split == NONE && n <= |g.items|
    ensures Shape(g.(items := g.items[..n], tops := [n - 1]))
  {
    PrefixShape(g.items, n);
  }

  lemma RetopShape<V>(a: Lalr, g: Gss<V>, k: nat, rule: int)
    requires CanReduce(a, g, k, rule) && g.split != NONE
    ensures var s := Uncovered(a, g, k, rule);
            var g' := UpdateSplit(g, s).(tops := g.tops[k := s]);
            Shape(g') && CanPush(g', k, g.items[g.tops[k]].posn)
  {
    hide LrTables.Valid, Linked, Descending, Fans, Contiguous, Path;
    Reducible(a, g, k, rule);
    BackPath(g.items, g.tops[k], Length(a, rule));
    PopKeepsShape(g, k, Length(a, rule));
  }

  /** The n-th state of a path, or null after the last. */
  function At(path: seq<int>, n: nat): int {
    if n < |path| then path[n] else NONE
  }

  lemma AtEnd<V>(items: seq<Item<V>>, path: seq<int>, n: nat)
    requires Ascending(items, path) && n <= |path|
    ensures At(path, n) == NONE <==> n == |path|
  {
  }

  lemma TurnNone<V>(items: seq<Item<V>>, path: seq<int>, split: int)
    requires ClimbsFrom(items, path, split)
    ensures Ascending(items, path) && Turned(items, path, 0, items)
  {
  }

  lemma TurnedBelow<V>(before: seq<Item<V>>, path: seq<int>, j: nat, now: seq<Item<V>>, y: nat)
    requires Ascending(before, path) && |now| == |before| && j <= |path| && Turned(before, path, j, now)
    requires y < |path| - j
    ensures StateAt(before, path[y]) && now[path[y]] == before[path[y]]
  {
  }

  lemma TurnStep<V>(before: seq<Item<V>>, path: seq<int>, split: int, y: nat, now: seq<Item<V>>)
    requires ClimbsFrom(before, path, split) && Ascending(before, path) && 0 <= split < y < |path| && |now| == |before|
    requires Turned(before, path, |path| - 1 - y, now)
    ensures var p, p' := path[y], path[y - 1];
            && StateAt(before, p) && StateAt(before, p') && now[p] == before[p] && before[p].pred == p'
            && (p' == split <==> y - 1 == split)
            && var now' := now[p := now[p].(pred := At(path, y + 1))];
               Turned(before, path, |path| - y, now') && now'[p'] == before[p']
  {
    hide Ascending, Turned, ClimbsFrom;
    StepDown(before, path, split, y);
    StepDown(before, path, split, y - 1);
    TurnOneMore(before, path, |path| - 1 - y, now);
    TurnedBelow(before, path, |path| - y, now[path[y] := now[path[y]].(pred := At(path, y + 1))], y - 1);
  }

  lemma CompressShape<V>(g: Gss<V>)
    requires Shape(g) && (|g.tops| == 1 ==> g.tops[0] != NONE)
    ensures Shape(Compress(g)) && Descending(g.items)
    ensures |g.tops| == 1 && g.split != NONE ==>
              StateAt(g.items, g.tops[0])
              && Compress(g) == g.(items := Content(g.items, g.tops[0]), split := NONE,
                                   tops := [|Content(g.items, g.tops[0])| - 1], lastDeleted := NONE)
  {
    hide Fans, Contiguous, Content, Descending;
    NeedsFit(g);
    if |g.tops| == 1 && g.split != NONE {
      LiveTop(g, 0);
      ContentKeepsStack(g.items, g.tops[0]);
    }
  }

  lemma StackClimbs<V>(g: Gss<V>)
    requires Shape(g) && |g.tops| == 1 && g.split != NONE && StateAt(g.items, g.tops[0]) && Descending(g.items)
    ensures var path := Path(g.items, g.tops[0]);
            && 0 <= g.split < |path| <= |g.items| && ClimbsFrom(g.items, path, g.split) && Ascending(g.items, path)
            && Last(path) == g.tops[0]
  {
    hide Fans, Descending, Contiguous, Path, Ascending;
    var t := g.tops[0];
    var path := Path(g.items, t);
    PathIsAscending(g.items, t);
    SplitOnPath(g.items, g.split, t);
    ContiguousPath(g.items, g.split + 1, g.split);
    forall x | g.split < x < |path| ensures StateAt(g.items, path[x]) && g.items[path[x]].pred == path[x - 1] {
      PathAscends(g.items, t, x);
    }
    assert path[g.split] == path[..g.split + 1][g.split] == g.split;
  }

  /** Between the passes: what is at or below the split point is in place already. */
  lemma StartCopy<V>(g: Gss<V>, now: seq<Item<V>>)
    requires Shape(g) && |g.tops| == 1 && g.split != NONE && StateAt(g.items, g.tops[0]) && Descending(g.items)
    requires |now| == |g.items| && Ascending(g.items, Path(g.items, g.tops[0])) && g.split < |Path(g.items, g.tops[0])|
    requires Turned(g.items, Path(g.items, g.tops[0]), |Path(g.items, g.tops[0])| - g.split - 1, now)
    ensures var path := Path(g.items, g.tops[0]);
            0 < g.split + 1 <= |path| <= |g.items| && Copied(g.items, path, g.split + 1, now)
  {
    hide Fans, Descending, Path;
    var t := g.tops[0];
    var path := Path(g.items, t);
    PathIsAscending(g.items, t);
    SplitOnPath(g.items, g.split, t);
    ContiguousPath(g.items, g.split + 1, g.split);
    forall x | 0 <= x <= g.split ensures path[x] == x {
      assert path[x] == path[..g.split + 1][x];
    }
    CopyStarts(g.items, path, g.split + 1, now);
  }

  /** The start of yyparse. Afterwards there is headroom exactly if the initial size is at least 3: from
      a single used item the array is extended to two items only. */
  method Begin<V>(init: nat, max: nat, alloc: nat -> bool, v: V) returns (s: Stack<V>, ok: bool)
    requires 0 < init && HEADROOM <= max
    ensures fresh(s) && fresh(s.yyitems) && s.Valid()
    ensures s.Now() == Gss([State(0, NONE, 0, Resolved(v))], NONE, [0], [false], NONE, s.stale)
    ensures s.yynextFree == 1 && s.maxDepth == max && s.canAlloc == alloc && (!ok ==> s.yyitems.Length == init)
    ensures ok == HasRoom(max, alloc, init, 1) && (ok ==> (s.yyspaceLeft >= HEADROOM <==> init >= 3))
  {
    s := new Stack(init, max, alloc, State(0, NONE, 0, Resolved(v)));
    ok := s.GlrShift(0, 0, 0, v);
  }

  /** An ascending path whose states from the split point on have each other as predecessors. */
  ghost predicate ClimbsFrom<V>(items: seq<Item<V>>, path: seq<int>, split: int) {
    && Ascending(items, path) && 0 <= split < |path| && path[split] == split
    && forall x :: split < x < |path| ==> items[path[x]].pred == path[x - 1]
  }

  lemma StepDown<V>(items: seq<Item<V>>, path: seq<int>, split: int, y: nat)
    requires ClimbsFrom(items, path, split) && split <= y < |path|
    ensures StateAt(items, path[y]) && (path[y] == split <==> y == split)
    ensures y > split ==> items[path[y]].pred == path[y - 1] && StateAt(items, path[y - 1])
  {
  }

  lemma NeedsFit<V>(g: Gss<V>)
    requires Shape(g)
    ensures |g.tops| <= |g.needs| && g.needs != [] && Descending(g.items)
  {
  }

  /** What popping comes to, with and without a split point. */
  lemma PopParts<V>(g: Gss<V>, k: nat, n: nat)
    requires Shape(g) && k < |g.tops| && StateAt(g.items, g.tops[k]) && n < |Path(g.items, g.tops[k])|
    ensures Descending(g.items)
    ensures g.split == NONE ==>
              n < |g.items| && |g.tops| == 1
              && PopStack(g, k, n) == g.(items := g.items[..|g.items| - n], tops := [|g.items| - n - 1])
    ensures g.split != NONE ==>
              var s := Back(g.items, g.tops[k], n); PopStack(g, k, n) == UpdateSplit(g, s).(tops := g.tops[k := s])
  {
    hide Descending, Contiguous, Fans, Path, Back;
    if g.split == NONE {
      PopSingle(g, n);
    }
  }

  function Raw<V>(needed: bool, v: V): Option<V> {
    if needed then Some(v) else None
  }
}
