/** Lookahead correction: whether a token can be shifted after some reductions, found out on a stack
    that shares its bottom with the parser's stack. The reference is the plain LR loop on a copy. */
module Lac {
  import opened Collections
  import LrTables
  import opened LrAutomaton

  datatype LacStatus = Accepts | Rejects | OutOfMemory | OutOfFuel

  function StatusOf(v: Verdict): LacStatus {
    match v
    case Shifts => Accepts
    case Errs => Rejects
    case Unfinished => OutOfFuel
  }

  /** The size of the array that is allocated for n elements. */
  function AllocSize(n: nat, maxDepth: nat): nat {
    if maxDepth < 2 * n then maxDepth else 2 * n
  }

  /** The buffer for the part of the virtual stack that is not on the parser's stack. */
  class Extension {
    var es: array<int>
    var capacity: nat
    const maxDepth: nat
    const canAlloc: nat -> bool

    constructor (initial: nat, maxDepth: nat, canAlloc: nat -> bool)
      requires initial > 0
      ensures Valid() && fresh(es) && es.Length == initial && capacity == if maxDepth < initial then maxDepth else initial
      ensures this.maxDepth == maxDepth && this.canAlloc == canAlloc
    {
      es := new int[initial];
      capacity := if maxDepth < initial then maxDepth else initial;
      this.maxDepth, this.canAlloc := maxDepth, canAlloc;
    }

    ghost predicate Valid()
      reads this
    {
      0 < es.Length && capacity <= es.Length && capacity <= maxDepth
    }

    /** Makes room for one more element after the first n; returns false when that is not possible. */
    method Reserve(n: nat) returns (ok: bool)
      requires Valid() && 0 < n <= es.Length
      modifies this
      ensures Valid() && (es == old(es) || fresh(es))
      ensures ok ==> n < es.Length && n + 1 <= capacity && es[..n] == old(es[..n])
      ensures !ok ==> es == old(es) && capacity == old(capacity)
      ensures !ok ==> maxDepth < n + 1 || !canAlloc(AllocSize(n + 1, maxDepth))
    {
      var sizeNew := n + 1;
      if capacity < sizeNew {
        var alloc := 2 * sizeNew;
        if maxDepth < sizeNew {
          return false;
        }
        if maxDepth < alloc {
          alloc := maxDepth;
        }
        if !canAlloc(alloc) {
          return false;
        }
        var bottom, bottomNew := es, new int[alloc];
        for i := 0 to n
          invariant es == bottom && bottomNew[..i] == bottom[..i] && bottom[..] == old(es[..])
        {
          bottomNew[i] := bottom[i];
        }
        es := bottomNew;
        capacity := alloc;
      }
      ok := true;
    }

    /** The virtual stack: the parser's stack up to `prev`, then n elements of the extension. */
    ghost function Virtual(ss: array<int>, prev: nat, n: nat): seq<int>
      requires prev < ss.Length && n <= es.Length
      reads this, es, ss
    {
      ss[..prev + 1] + es[..n]
    }

    /** One reduction on the virtual stack. It comes down to the parser's stack, or leaves some of the
        extension, which then needs room for one more element. */
    method ReduceVirtual(a: Lalr, ss: array<int>, prev0: nat, n0: nat, rule: int) returns (ok: bool, prev: nat, n: nat)
      requires Valid() && ss != es && prev0 < ss.Length && n0 <= es.Length
      requires IsPath(a, Virtual(ss, prev0, n0)) && IsRule(a, rule) && Length(a, rule) < |Virtual(ss, prev0, n0)|
      modifies this, es
      ensures Valid() && (es == old(es) || fresh(es))
      ensures ok ==> prev <= prev0 && 0 < n <= es.Length && Virtual(ss, prev, n) == Reduced(a, old(Virtual(ss, prev0, n0)), rule)
      ensures var landing := prev0 + 1 + n0 - Length(a, rule);
              && (ok ==> prev + 1 == Lower(prev0 + 1, landing) && NeedAt(landing, prev0 + 1) <= maxDepth)
              && (!ok ==> NoRoom(NeedAt(landing, prev0 + 1), maxDepth, canAlloc))
    {
      hide LrTables.Valid;
      ghost var stack := Virtual(ss, prev0, n0);
      prev, n := Pop(ss, prev0, n0, Length(a, rule));
      var top := if n == 0 then ss[prev] else es[n - 1];
      assert Last(stack[..|stack| - Length(a, rule)]) == top;
      var state := GotoRule(a, top, rule);
      if n == 0 {
        es[0] := state;
      } else {
        ok := Reserve(n);
        if !ok {
          return;
        }
        assert Virtual(ss, prev, n) == stack[..|stack| - Length(a, rule)];
        es[n] := state;
      }
      ok, n := true, n + 1;
    }

    /** Takes `len` elements off the virtual stack: first off the extension, then off the parser's stack. */
    method Pop(ss: array<int>, prev0: nat, n0: nat, len: nat) returns (prev: nat, n: nat)
      requires prev0 < ss.Length && n0 <= es.Length && len < prev0 + 1 + n0
      ensures n <= n0 && prev + 1 == Lower(prev0 + 1, prev0 + 1 + n0 - len)
      ensures Virtual(ss, prev, n) == Virtual(ss, prev0, n0)[..prev0 + 1 + n0 - len]
    {
      var left := len;
      prev, n := prev0, n0;
      if n != 0 {
        if left < n {
          n := n - left;
          left := 0;
        } else {
          left := left - n;
          n := 0;
        }
      }
      if left != 0 {
        prev := prev - left;
      }
    }

    /** One turn of the loop: looks up the action on the virtual stack and performs a reduction. */
    method Turn(a: Lalr, ss: array<int>, prev0: nat, n0: nat, token: int, mayReduce: bool)
      returns (turn: Turned, prev: nat, n: nat)
      requires Valid() && ss != es && prev0 < ss.Length && n0 <= es.Length
      requires Live(a, Virtual(ss, prev0, n0)) && IsToken(a, token)
      modifies this, es
      ensures Valid() && (es == old(es) || fresh(es))
      ensures var stack := old(Virtual(ss, prev0, n0));
              var act := NextAction(a, stack, token);
              && (turn == TurnOf(act, mayReduce)
                  || (turn == Ended(OutOfMemory) && mayReduce && act.Reduce? && NoRoom(Need(a, stack, prev0 + 1, token), maxDepth, canAlloc)))
              && (turn == Reducing ==>
                    && act.Reduce? && Need(a, stack, prev0 + 1, token) <= maxDepth
                    && prev + 1 == Floor(a, stack, prev0 + 1, token) && prev <= prev0 && n <= es.Length
                    && Virtual(ss, prev, n) == NextStack(a, stack, token))
    {
      hide LrTables.Valid;
      prev, n := prev0, n0;
      var action := Action(a, if n == 0 then ss[prev] else es[n - 1], token);
      TopOfVirtual(ss[..prev + 1], es[..n]);
      ghost var stack := Virtual(ss, prev, n);
      assert action == NextAction(a, stack, token);
      match action {
        case Shift(_) => turn := Ended(Accepts);
        case Error => turn := Ended(Rejects);
        case Reduce(rule) =>
          if !mayReduce {
            return Ended(OutOfFuel), prev, n;
          }
          var ok;
          ok, prev, n := ReduceVirtual(a, ss, prev, n, rule);
          turn := if ok then Reducing else Ended(OutOfMemory);
      }
    }

    /** Decides whether `token` can be shifted from the stack ss[..ssp + 1], which is not changed. Memory
        is exhausted if the extension would become longer than the limit; if it would not, then only
        if an allocation is refused that some reduction asks for. */
    method Check(a: Lalr, ss: array<int>, ssp: nat, token: int, fuel: nat) returns (status: LacStatus)
      requires Valid() && ss != es && ssp < ss.Length
      requires Live(a, ss[..ssp + 1]) && IsToken(a, token)
      modifies this, es
      ensures Valid() && (es == old(es) || fresh(es))
      ensures token == a.t.undef ==> status == Rejects
      ensures token != a.t.undef && status != OutOfMemory ==> status == StatusOf(Plain(a, ss[..ssp + 1], token, fuel))
      ensures token != a.t.undef && Peak(a, ss[..ssp + 1], ssp + 1, token, fuel) > maxDepth ==> status == OutOfMemory
      ensures status == OutOfMemory ==>
                || Peak(a, ss[..ssp + 1], ssp + 1, token, fuel) > maxDepth
                || Refused(a, ss[..ssp + 1], ssp + 1, token, fuel, maxDepth, canAlloc)
    {
      hide LrTables.Valid, Live, NextAction, NextStack, Plain, Progress, Peak, Refused, Need, Floor;
      if token == a.t.undef {
        return Rejects;
      }
      var prev: nat, n: nat := ssp, 0;
      ghost var start := ss[..ssp + 1];
      ghost var stack := start;
      ProgressStarts(a, start, token, fuel, maxDepth, canAlloc);
      var k := 0;
      while true
        invariant Valid() && (es == old(es) || fresh(es)) && ss != es
        invariant 0 <= prev <= ssp && n <= es.Length && k <= fuel
        invariant ss[..ssp + 1] == start && Virtual(ss, prev, n) == stack && Live(a, stack)
        invariant Progress(a, start, token, fuel, k, stack, prev + 1, maxDepth, canAlloc)
        decreases fuel - k
      {
        var turn;
        ghost var floor := prev + 1;
        turn, prev, n := Turn(a, ss, prev, n, token, k < fuel);
        ProgressGoesOn(a, start, token, fuel, k, stack, floor, maxDepth, canAlloc);
        if turn.Ended? {
          return turn.status;
        }
        stack := NextStack(a, stack, token);
        k := k + 1;
      }
    }
  }

  datatype Turned = Ended(status: LacStatus) | Reducing

  function TurnOf(action: LrTables.Action, mayReduce: bool): Turned {
    match action
    case Shift(_) => Ended(Accepts)
    case Error => Ended(Rejects)
    case Reduce(_) => if mayReduce then Reducing else Ended(OutOfFuel)
  }

  // ---------------------------------------------------------------- the length of the extension

  function Lower(x: nat, y: nat): nat {
    if x < y then x else y
  }

  /** The extension is what is above the lowest height that the reductions came down to. A reduction
      that lands above that height, now `floor`, puts one more element on the extension; otherwise
      the new element is its first, for which there is always room. */
  function NeedAt(landing: nat, floor: nat): nat {
    if landing <= floor then 0 else landing - floor + 1
  }

  ghost function Landing(a: Lalr, stack: seq<int>, token: int): nat
    requires Live(a, stack) && IsToken(a, token) && NextAction(a, stack, token).Reduce?
  {
    |stack| - Length(a, NextAction(a, stack, token).rule)
  }

  ghost function Need(a: Lalr, stack: seq<int>, floor: nat, token: int): nat
    requires Live(a, stack) && IsToken(a, token) && NextAction(a, stack, token).Reduce?
  {
    NeedAt(Landing(a, stack, token), floor)
  }

  ghost function Floor(a: Lalr, stack: seq<int>, floor: nat, token: int): nat
    requires Live(a, stack) && IsToken(a, token) && NextAction(a, stack, token).Reduce?
  {
    Lower(floor, Landing(a, stack, token))
  }

  /** An extension of this length is too long, or the array for it is refused. */
  predicate NoRoom(need: nat, maxDepth: nat, canAlloc: nat -> bool) {
    need > 0 && (maxDepth < need || !canAlloc(AllocSize(need, maxDepth)))
  }

  /** The greatest length that the plain loop makes the extension come to. */
  ghost function Peak(a: Lalr, stack: seq<int>, floor: nat, token: int, fuel: nat): nat
    requires Live(a, stack) && IsToken(a, token)
    decreases fuel
  {
    if fuel == 0 || !NextAction(a, stack, token).Reduce? then 0
    else
      var need := Need(a, stack, floor, token);
      var later := Peak(a, NextStack(a, stack, token), Floor(a, stack, floor, token), token, fuel - 1);
      if need < later then later else need
  }

  /** Some reduction of the plain loop makes the extension come to a length for which the array would be
      refused. */
  ghost predicate Refused(a: Lalr, stack: seq<int>, floor: nat, token: int, fuel: nat, maxDepth: nat, canAlloc: nat -> bool)
    requires Live(a, stack) && IsToken(a, token)
    decreases fuel
  {
    && fuel > 0 && NextAction(a, stack, token).Reduce?
    && var need := Need(a, stack, floor, token);
       || (need > 0 && !canAlloc(AllocSize(need, maxDepth)))
       || Refused(a, NextStack(a, stack, token), Floor(a, stack, floor, token), token, fuel - 1, maxDepth, canAlloc)
  }

  /** After k reductions the plain loop has this stack, and goes on from it to its verdict. */
  ghost predicate Progress(a: Lalr, start: seq<int>, token: int, fuel: nat, k: nat, stack: seq<int>, floor: nat,
                           maxDepth: nat, canAlloc: nat -> bool)
    requires Live(a, start) && IsToken(a, token)
  {
    && k <= fuel && Live(a, stack)
    && Plain(a, start, token, fuel) == Plain(a, stack, token, fuel - k)
    && (Peak(a, start, |start|, token, fuel) > maxDepth <==> Peak(a, stack, floor, token, fuel - k) > maxDepth)
    && (Refused(a, stack, floor, token, fuel - k, maxDepth, canAlloc) ==>
          Refused(a, start, |start|, token, fuel, maxDepth, canAlloc))
  }

  lemma ProgressStarts(a: Lalr, start: seq<int>, token: int, fuel: nat, maxDepth: nat, canAlloc: nat -> bool)
    requires Live(a, start) && IsToken(a, token)
    ensures Progress(a, start, token, fuel, 0, start, |start|, maxDepth, canAlloc)
  {
    hide Live, Plain, Peak, Refused;
  }

  lemma ProgressGoesOn(a: Lalr, start: seq<int>, token: int, fuel: nat, k: nat, stack: seq<int>, floor: nat,
                       maxDepth: nat, canAlloc: nat -> bool)
    requires Live(a, start) && IsToken(a, token) && Progress(a, start, token, fuel, k, stack, floor, maxDepth, canAlloc)
    ensures var turn := TurnOf(NextAction(a, stack, token), k < fuel);
            && (turn.Ended? ==> && turn.status == StatusOf(Plain(a, start, token, fuel)) && turn.status != OutOfMemory
                                && Peak(a, start, |start|, token, fuel) <= maxDepth)
            && (turn == Reducing ==>
                  && NextAction(a, stack, token).Reduce? && k < fuel
                  && (Need(a, stack, floor, token) <= maxDepth ==>
                        Progress(a, start, token, fuel, k + 1, NextStack(a, stack, token), Floor(a, stack, floor, token), maxDepth, canAlloc))
                  && (NoRoom(Need(a, stack, floor, token), maxDepth, canAlloc) ==>
                        || Peak(a, start, |start|, token, fuel) > maxDepth
                        || Refused(a, start, |start|, token, fuel, maxDepth, canAlloc)))
  {
    hide LrTables.Valid, Live, NextAction, NextStack, Need, Floor;
  }

  lemma TopOfVirtual(base: seq<int>, extension: seq<int>)
    requires base != []
    ensures Last(base + extension) == if extension == [] then Last(base) else Last(extension)
  {
  }

  // ---------------------------------------------------------------- the undefined token

  /** No table entry is for the undefined token, as in all generated tables. */
  ghost predicate NoUndefEntry(a: Lalr) {
    forall q :: IsState(a, q) ==> !HasEntry(a, q, a.t.undef)
  }

  predicate HasEntry(a: Lalr, q: int, token: int)
    requires IsState(a, q)
  {
    LrTables.HasEntry(a.t, q, token)
  }

  lemma NoEntryNoShift(a: Lalr, q: int, token: int)
    requires IsState(a, q) && !HasEntry(a, q, token)
    ensures !Action(a, q, token).Shift?
  {
  }

  /** Then rejecting the undefined token at once is right: the plain loop never shifts it. */
  lemma {:induction false} UndefIsNeverShifted(a: Lalr, stack: seq<int>, fuel: nat)
    requires Live(a, stack) && IsToken(a, a.t.undef) && NoUndefEntry(a)
    ensures Plain(a, stack, a.t.undef, fuel) != Shifts
    decreases fuel
  {
    hide LrTables.Valid, HasEntry;
    NoEntryNoShift(a, Last(stack), a.t.undef);
    var act := NextAction(a, stack, a.t.undef);
    if act.Reduce? && fuel > 0 {
      UndefIsNeverShifted(a, NextStack(a, stack, a.t.undef), fuel - 1);
    }
  }
}
