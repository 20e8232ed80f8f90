/** The push parser: yypush_parse is given one token per call, keeps what its yypstate holds between
    calls and loses its other variables. It does what the pull parser does. */
module YaccPush {
  import opened Collections
  import LrTables
  import opened LrAutomaton
  import opened YaccMachine

  /** The fields of yypstate: the lookahead and the context of lookahead correction are not in it. */
  datatype Saved<+V> = Saved(
    stack: seq<int>, values: seq<V>, size: nat, errstatus: nat, nerrs: nat, recoveries: nat, reports: nat)

  function Save<V>(c: Config<V>): Saved<V> {
    Saved(c.stack, c.values, c.size, c.errstatus, c.nerrs, c.recoveries, c.reports)
  }

  /** yyread_pushed_token: the locals of the new call, with the pushed token as lookahead. */
  function Resume<V>(s: Saved<V>, x: Lexeme<V>): Config<V> {
    Config(s.stack, s.values, s.size, if x.kind <= YYEOF then YYEOF else x.kind, x.value,
           s.errstatus, s.nerrs, false, s.recoveries, s.reports)
  }

  ghost predicate Resumable<V>(p: Parser<V>, s: Saved<V>) {
    Live(p.a, s.stack) && |s.values| == |s.stack| < s.size && Fitting(p, s.size) && s.errstatus <= 3
  }

  /** Nothing that matters is lost between two calls. */
  lemma ResumeSaved<V>(p: Parser<V>, c: Config<V>, x: Lexeme<V>)
    requires Ready(p, c)
    ensures Resumable(p, Save(c)) && Ready(p, ReadInto(c, x))
    ensures Decide(p, c).Read? ==> Resume(Save(c), x) == ReadInto(c, x)
  {
    DecideFacts(p, c);
  }

  // ---------------------------------------------------------------- one call

  datatype Turn<+V> = Asks(c: Config<V>) | Stops(result: Result, c: Config<V>) | Tired

  /** From yybackup to where the next token is needed or parsing ends, in at most `fuel` steps. */
  function RunOn<V>(p: Parser<V>, c: Config<V>, fuel: nat): (t: Turn<V>)
    requires Ready(p, c)
    ensures t.Asks? ==> Ready(p, t.c) && Decide(p, t.c).Read?
    decreases fuel
  {
    if Decide(p, c).Read? then Asks(c)
    else if fuel == 0 then Tired
    else
      match Advance(p, c)
      case Done(result, c') => Stops(result, c')
      case Running(c') => RunOn(p, c', fuel - 1)
  }

  datatype State<+V> = New | Waiting(saved: Saved<V>)

  ghost predicate Valid<V>(p: Parser<V>, s: State<V>) {
    0 < p.initDepth && (s.Waiting? ==> Resumable(p, s.saved))
  }

  datatype Outcome<+V> = More(saved: Saved<V>) | Returned(result: Result, c: Config<V>) | OutOfFuel

  function Conclude<V>(t: Turn<V>): Outcome<V> {
    match t
    case Asks(c) => More(Save(c))
    case Stops(result, c) => Returned(result, c)
    case Tired => OutOfFuel
  }

  /** One call of yypush_parse. The first call runs up to the first need of a token on its own. */
  function PushParse<V>(p: Parser<V>, initial: V, s: State<V>, x: Lexeme<V>, fuel: nat): (o: Outcome<V>)
    requires Valid(p, s)
    ensures o.More? ==> Valid(p, Waiting(o.saved))
  {
    match s
    case Waiting(saved) => Conclude(RunOn(p, Resume(saved, x), fuel))
    case New =>
      match Start(p, initial)
      case Done(result, c) => Returned(result, c)
      case Running(c) =>
        var t := RunOn(p, c, fuel);
        if t.Asks? then Conclude(RunOn(p, ReadInto(t.c, x), fuel)) else Conclude(t)
  }

  /** The loop of yypull_parse, up to k calls: what the last call said, and the number of calls. */
  datatype Calls<+V> = Calls(outcome: Outcome<V>, count: nat)

  function Feed<V>(p: Parser<V>, initial: V, input: Input<V>, k: nat, fuel: nat): (f: Calls<V>)
    requires 0 < k && 0 < p.initDepth
    ensures f.outcome.More? ==> Valid(p, Waiting(f.outcome.saved)) && f.count == k
    ensures 0 < f.count <= k
  {
    if k == 1 then Calls(PushParse(p, initial, New, input(0), fuel), 1)
    else
      var f := Feed(p, initial, input, k - 1, fuel);
      if f.outcome.More? then
        Calls(PushParse(p, initial, Waiting(f.outcome.saved), input(f.count), fuel), f.count + 1)
      else f
  }

  // ---------------------------------------------------------------- step for step

  /** As PullStep, but a token is handed in by a new call, except for the first. */
  function PushStep<V>(p: Parser<V>, input: Input<V>, s: Pull<V>): (s': Pull<V>)
    requires Proper(p, s.status)
    ensures Proper(p, s'.status)
  {
    match s.status
    case Done(_, _) => s
    case Running(c) =>
      if !Decide(p, c).Read? then Pull(Advance(p, c), s.pos)
      else if s.pos == 0 then Pull(Running(ReadInto(c, input(0))), 1)
      else Pull(Running(Resume(Save(c), input(s.pos))), s.pos + 1)
  }

  function PushRun<V>(p: Parser<V>, initial: V, input: Input<V>, n: nat): (s: Pull<V>)
    requires 0 < p.initDepth
    ensures Proper(p, s.status)
  {
    if n == 0 then Pull(Start(p, initial), 0) else PushStep(p, input, PushRun(p, initial, input, n - 1))
  }

  /** Push and pull go through the same states, step by step. */
  lemma {:induction false} SameHistory<V>(p: Parser<V>, initial: V, input: Input<V>, n: nat)
    requires 0 < p.initDepth
    ensures PushRun(p, initial, input, n) == PullRun(p, initial, input, n)
  {
    hide LrTables.Valid, Advance, Decide;
    if n > 0 {
      SameHistory(p, initial, input, n - 1);
      var s := PullRun(p, initial, input, n - 1);
      if s.status.Running? {
        ResumeSaved(p, s.status.c, input(s.pos));
      }
    }
  }

  // ---------------------------------------------------------------- call for call

  /** The part of the pull run that one call carries out. */
  lemma {:induction false} RunOnIsRun<V>(p: Parser<V>, initial: V, input: Input<V>, n: nat, fuel: nat) returns (m: nat)
    requires 0 < p.initDepth && PullRun(p, initial, input, n).status.Running?
    ensures var s, s' := PullRun(p, initial, input, n), PullRun(p, initial, input, m);
            var t := RunOn(p, s.status.c, fuel);
            && n <= m <= n + fuel
            && (t.Asks? ==> s' == Pull(Running(t.c), s.pos))
            && (t.Stops? ==> s' == Pull(Done(t.result, t.c), s.pos))
            && (t.Tired? ==> m == n + fuel && s'.status.Running? && s'.pos == s.pos)
    decreases fuel
  {
    hide LrTables.Valid, Advance, Decide, Start;
    var s := PullRun(p, initial, input, n);
    m := n;
    if !Decide(p, s.status.c).Read? && fuel > 0 {
      var next := PullRun(p, initial, input, n + 1);
      assert next == Pull(Advance(p, s.status.c), s.pos);
      m := n + 1;
      if next.status.Running? {
        m := RunOnIsRun(p, initial, input, n + 1, fuel - 1);
      }
    }
  }

  /** Every call does a part of the pull run: at its end the pull parser would read next, or has ended
      with the same result and the same stacks, counts and lookahead. */
  lemma {:induction false} PushIsPull<V>(p: Parser<V>, initial: V, input: Input<V>, k: nat, fuel: nat) returns (n: nat)
    requires 0 < k && 0 < p.initDepth
    ensures var f, s := Feed(p, initial, input, k, fuel), PullRun(p, initial, input, n);
            match f.outcome
            case More(saved) => s.status.Running? && s.pos == f.count && Save(s.status.c) == saved && Decide(p, s.status.c).Read?
            case Returned(result, c) => s.status == Done(result, c) && (s.pos == f.count || (s.pos == 0 && f.count == 1))
            case OutOfFuel => s.status.Running? && n >= fuel
  {
    hide LrTables.Valid, Advance, Decide, RunOn;
    if k == 1 {
      n := FirstCall(p, initial, input, fuel);
    } else {
      n := PushIsPull(p, initial, input, k - 1, fuel);
      var f, s := Feed(p, initial, input, k - 1, fuel), PullRun(p, initial, input, n);
      if f.outcome.More? {
        ResumeSaved(p, s.status.c, input(s.pos));
        n := RunOnIsRun(p, initial, input, n + 1, fuel);
      }
    }
  }

  lemma FirstCall<V>(p: Parser<V>, initial: V, input: Input<V>, fuel: nat) returns (n: nat)
    requires 0 < p.initDepth
    ensures var o, s := PushParse(p, initial, New, input(0), fuel), PullRun(p, initial, input, n);
            match o
            case More(saved) => s.status.Running? && s.pos == 1 && Save(s.status.c) == saved && Decide(p, s.status.c).Read?
            case Returned(result, c) => s.status == Done(result, c) && (s.pos == 1 || s.pos == 0)
            case OutOfFuel => s.status.Running? && n >= fuel
  {
    hide LrTables.Valid, Advance, Decide, RunOn, Start;
    n := 0;
    if Start(p, initial).Running? {
      n := RunOnIsRun(p, initial, input, 0, fuel);
      if RunOn(p, Start(p, initial).c, fuel).Asks? {
        n := RunOnIsRun(p, initial, input, n + 1, fuel);
      }
    }
  }

  lemma {:induction false} RunGoesOn<V>(p: Parser<V>, initial: V, input: Input<V>, n: nat, m: nat)
    requires 0 < p.initDepth && n <= m
    ensures PullRun(p, initial, input, n).status.Done? ==> PullRun(p, initial, input, m) == PullRun(p, initial, input, n)
    ensures PullRun(p, initial, input, n).pos <= PullRun(p, initial, input, m).pos
    decreases m
  {
    hide LrTables.Valid, Advance, Decide;
    if n < m {
      RunGoesOn(p, initial, input, n, m - 1);
    }
  }

  /** A pull run that ends after reading j tokens is what j calls of the push parser do (one call, if
      it ends without reading), given the fuel. */
  lemma PullIsPush<V>(p: Parser<V>, initial: V, input: Input<V>, n: nat, fuel: nat)
    requires 0 < p.initDepth && PullRun(p, initial, input, n).status.Done? && n < fuel
    ensures var s := PullRun(p, initial, input, n);
            var j := if s.pos == 0 then 1 else s.pos;
            Feed(p, initial, input, j, fuel) == Calls(Returned(s.status.result, s.status.c), j)
  {
    hide LrTables.Valid, Advance, Decide, Feed;
    var s := PullRun(p, initial, input, n);
    var j := if s.pos == 0 then 1 else s.pos;
    var m := PushIsPull(p, initial, input, j, fuel);
    var f := Feed(p, initial, input, j, fuel);
    if n <= m {
      RunGoesOn(p, initial, input, n, m);
    } else {
      RunGoesOn(p, initial, input, m, n);
      if f.outcome.More? {
        RunGoesOn(p, initial, input, m + 1, n);
      }
    }
  }
}
