/** The parser loop of the C skeleton as steps on a configuration: one decision on the current state
    and lookahead, and the shift, reduction or error recovery that follows, up to the next state. */
module YaccMachine {
  import opened Collections
  import LrTables
  import opened LrAutomaton

  const YYEMPTY := -2
  const YYEOF := 0

  /** How a semantic action ends: with a value for $$, or with YYACCEPT, YYABORT or YYERROR. */
  datatype ActionResult<+V> = Ok(value: V) | Accept | Abort | Raise

  /** The answer of the lookahead correction. */
  datatype LacAnswer = Viable | NotViable | NoMemory

  /** A generated parser: the automaton, the semantic actions, the token translation table, whether
      it corrects lookaheads and reports verbose errors, and the limits of its stacks. */
  datatype Parser<!V> = Parser(
    a: Lalr,
    action: (int, seq<V>) -> ActionResult<V>,
    yytranslate: seq<int>,
    useLac: bool, verbose: bool, lac: (seq<int>, int) -> LacAnswer,
    initDepth: nat, maxDepth: nat, canAlloc: nat -> bool)

  /** YYTRANSLATE */
  function Translate<V>(p: Parser<V>, yychar: int): (x: int)
    ensures IsToken(p.a, x)
  {
    UndefIsToken(p.a);
    if 0 <= yychar < |p.yytranslate| && IsToken(p.a, p.yytranslate[yychar]) then p.yytranslate[yychar] else p.a.t.undef
  }

  /** The internal number of a lookahead; everything up to YYEOF ends the input. */
  function TokenOf<V>(p: Parser<V>, yychar: int): (x: int)
    ensures IsToken(p.a, x)
  {
    UndefIsToken(p.a);
    if yychar <= YYEOF then LrTables.EOF_TOKEN else Translate(p, yychar)
  }

  /** The variables of the loop. `size` is the allocated size of the stacks. `recoveries` and `reports`
      count the entries of yyerrlab1 and the calls of yyerror for syntax errors; nothing reads them. */
  datatype Config<+V> = Config(
    stack: seq<int>, values: seq<V>, size: nat,
    yychar: int, lval: V,
    errstatus: nat, nerrs: nat, lac: bool,
    recoveries: nat, reports: nat)

  datatype Result = Accepted | AcceptedByAction | Aborted | Exhausted

  datatype Status<+V> = Running(c: Config<V>) | Done(result: Result, c: Config<V>)

  predicate InRange<V>(c: Config<V>) {
    c.errstatus <= 3 && (c.yychar == YYEMPTY || c.yychar >= YYEOF)
  }

  /** No context is established without a lookahead. */
  predicate Tidy<V>(c: Config<V>) {
    InRange(c) && (c.yychar == YYEMPTY ==> !c.lac)
  }

  /** At yybackup: the top state is not final, and every stack has room for one more element. */
  ghost predicate Ready<V>(p: Parser<V>, c: Config<V>) {
    Live(p.a, c.stack) && |c.values| == |c.stack| < c.size && Fitting(p, c.size) && Tidy(c)
  }

  /** The stacks' largest size. */
  function Limit<V>(p: Parser<V>): nat {
    if p.initDepth < p.maxDepth then p.maxDepth else p.initDepth
  }

  /** A size between the initial and the largest one. */
  predicate Fitting<V>(p: Parser<V>, size: nat) {
    p.initDepth <= size <= Limit(p)
  }

  ghost predicate Proper<V>(p: Parser<V>, s: Status<V>) {
    if s.Running? then Ready(p, s.c)
    else
      && (s.result == Accepted ==> IsPath(p.a, s.c.stack) && Last(s.c.stack) == p.a.t.final)
      && (s.result == Exhausted && Reliable(p) ==> |s.c.stack| == Limit(p))
  }

  /** Allocations succeed, also those of lookahead correction. */
  ghost predicate Reliable<V>(p: Parser<V>) {
    && (forall size :: p.canAlloc(size))
    && (forall stack, token :: p.lac(stack, token) != NoMemory)
  }

  /** Whether there is room for one more element, after an extension if one is needed, and the size. */
  datatype Room = Room(ok: bool, size: nat)

  function MakeRoom(maxDepth: nat, canAlloc: nat -> bool, height: nat, size: nat): (r: Room)
    requires 0 < height <= size
    ensures r.ok ==> height < r.size
    ensures r.size == size || size < r.size <= maxDepth
  {
    if height < size then Room(true, size)
    else if maxDepth <= size then Room(false, size)
    else
      var extended := if maxDepth < 2 * size then maxDepth else 2 * size;
      Room(canAlloc(extended), extended)
  }

  /** yysetstate, just after a state was pushed: makes room and stops in the final state. */
  function Enter<V>(p: Parser<V>, c: Config<V>): (s: Status<V>)
    requires IsPath(p.a, c.stack) && |c.values| == |c.stack| <= c.size && Fitting(p, c.size) && Tidy(c)
    ensures Proper(p, s) && s.c == c.(size := s.c.size)
    ensures s.Done? ==> s.result == Exhausted || s.result == Accepted
  {
    var r := MakeRoom(p.maxDepth, p.canAlloc, |c.stack|, c.size);
    var c' := c.(size := r.size);
    if r.ok then Settled(p, c') else Done(Exhausted, c')
  }

  function Settled<V>(p: Parser<V>, c: Config<V>): (s: Status<V>)
    requires c.stack != []
  {
    if Last(c.stack) == p.a.t.final then Done(Accepted, c) else Running(c)
  }

  // ---------------------------------------------------------------- decisions

  datatype Decision = Read | Shift(state: int) | Reduce(rule: int) | Error | OutOfMemory

  function ActionDecision(act: LrTables.Action): Decision {
    match act
    case Shift(q) => Shift(q)
    case Reduce(r) => Reduce(r)
    case Error => Error
  }

  /** Whether the lookahead must be checked before the table's action is taken: before a reduction,
      and when the state has no entry for the token. */
  predicate Establishes<V>(p: Parser<V>, c: Config<V>)
    requires c.stack != [] && IsState(p.a, Last(c.stack))
  {
    var q, token := Last(c.stack), TokenOf(p, c.yychar);
    && p.useLac && !c.lac && !Defaulted(p.a, q) && c.yychar != YYEMPTY
    && (!LrTables.HasEntry(p.a.t, q, token) || Action(p.a, q, token).Reduce?)
  }

  function Decide<V>(p: Parser<V>, c: Config<V>): Decision
    requires c.stack != [] && IsState(p.a, Last(c.stack))
  {
    var q := Last(c.stack);
    if Defaulted(p.a, q) then ActionDecision(DefaultAction(p.a, q))
    else if c.yychar == YYEMPTY then Read
    else
      var token := TokenOf(p, c.yychar);
      if Establishes(p, c) && p.lac(c.stack, token) == NoMemory then OutOfMemory
      else if Establishes(p, c) && p.lac(c.stack, token) == NotViable then Error
      else ActionDecision(Action(p.a, q, token))
  }

  /** What a decision rests on. */
  lemma DecideFacts<V>(p: Parser<V>, c: Config<V>)
    requires Ready(p, c)
    ensures var d, q := Decide(p, c), Last(c.stack);
            && (d.Reduce? ==> Complete(p.a, q, d.rule))
            && (d.Shift? ==> !Defaulted(p.a, q) && c.yychar != YYEMPTY
                             && Action(p.a, q, TokenOf(p, c.yychar)) == LrTables.Shift(d.state))
            && (d.Read? ==> c.yychar == YYEMPTY)
  {
    hide LrTables.Valid, LrTables.HasEntry, LrTables.LrAction, LrTables.DefaultAction;
    ReduceFacts(p.a, Last(c.stack));
    DefaultNeverShifts(p.a, Last(c.stack));
  }

  // ---------------------------------------------------------------- their effects

  function Shifted<V>(c: Config<V>, q: int): Config<V> {
    c.(stack := c.stack + [q], values := c.values + [c.lval], yychar := YYEMPTY, lac := false,
       errstatus := if c.errstatus > 0 then c.errstatus - 1 else 0)
  }

  /** The n entries at the top, taken off. */
  function Popped<V>(c: Config<V>, n: nat): (c': Config<V>)
    requires n <= |c.stack| == |c.values|
    ensures |c'.stack| == |c'.values| == |c.stack| - n
  {
    c.(stack := c.stack[..|c.stack| - n], values := c.values[..|c.values| - n])
  }

  /** How much of the stack remains when states that cannot shift the error token are popped. */
  function ErrorDepth(t: LrTables.Tables, stack: seq<int>, top: nat): (n: nat)
    requires LrTables.Sized(t) && top <= |stack|
    ensures n <= top
    ensures n > 0 ==> CatchesErrors(t, stack[n - 1])
    ensures forall i :: n <= i < top ==> !CatchesErrors(t, stack[i])
  {
    if top == 0 then 0
    else if CatchesErrors(t, stack[top - 1]) then top
    else ErrorDepth(t, stack, top - 1)
  }

  predicate CatchesErrors(t: LrTables.Tables, q: int)
    requires LrTables.Sized(t)
  {
    && LrTables.IsState(t, q) && LrTables.HasEntry(t, q, LrTables.TERROR)
    && t.table[t.pact[q] + LrTables.TERROR] > 0
  }

  function ErrorState(t: LrTables.Tables, q: int): int
    requires LrTables.Sized(t) && CatchesErrors(t, q)
  {
    t.table[t.pact[q] + LrTables.TERROR]
  }

  /** The stacks cut down to n elements, with the error token on top. */
  function Caught<V>(c: Config<V>, n: nat, q: int): Config<V>
    requires n <= |c.stack| == |c.values|
  {
    c.(stack := c.stack[..n] + [q], values := c.values[..n] + [c.lval], lac := false)
  }

  /** yyerrlab1: pops to a state that shifts the error token, and shifts it. */
  function Recover<V>(p: Parser<V>, c0: Config<V>): (s: Status<V>)
    requires IsPath(p.a, c0.stack) && |c0.values| == |c0.stack| < c0.size && Fitting(p, c0.size) && InRange(c0)
    ensures Proper(p, s)
  {
    var c := c0.(errstatus := 3, recoveries := c0.recoveries + 1);
    var n := ErrorDepth(p.a.t, c.stack, |c.stack|);
    if n == 0 then
      Done(Aborted, Popped(c, |c.stack| - 1))
    else
      RecoverPath(p.a, c.stack, n);
      Enter(p, Caught(c, n, ErrorState(p.a.t, c.stack[n - 1])))
  }

  lemma ErrorAction(a: Lalr, q: int)
    requires IsState(a, q)
    ensures CatchesErrors(a.t, q) <==> Action(a, q, LrTables.TERROR).Shift?
    ensures CatchesErrors(a.t, q) ==> Action(a, q, LrTables.TERROR) == LrTables.Shift(ErrorState(a.t, q))
  {
  }

  lemma RecoverPath(a: Lalr, stack: seq<int>, n: nat)
    requires IsPath(a, stack) && 0 < n <= |stack| && CatchesErrors(a.t, stack[n - 1])
    ensures IsPath(a, stack[..n] + [ErrorState(a.t, stack[n - 1])])
    ensures IsState(a, ErrorState(a.t, stack[n - 1]))
    ensures Symbol(a, ErrorState(a.t, stack[n - 1])) == LrTables.TERROR
  {
    assert IsState(a, stack[n - 1]) && LrTables.Sized(a.t);
    hide LrTables.Valid, LrTables.LrAction, IsPath, CatchesErrors;
    ErrorAction(a, stack[n - 1]);
    BelowPath(a, stack, n);
    ErrorIsToken(a);
    ShiftPath(a, stack[..n], LrTables.TERROR);
  }

  /** Whether an error report establishes the context of the lookahead for its message. */
  predicate ReportEstablishes<V>(p: Parser<V>, c: Config<V>) {
    p.useLac && p.verbose && c.yychar != YYEMPTY && !c.lac
  }

  /** The report of an error. The error is counted before the context for a verbose message is
      established, and control starts over at yyerrlab if that rejects the lookahead. */
  function Reported<V>(p: Parser<V>, c: Config<V>): (c': Config<V>)
    ensures c' == c.(nerrs := c'.nerrs, lac := c'.lac, reports := c'.reports)
  {
    if c.errstatus > 0 then c
    else if ReportEstablishes(p, c) && p.lac(c.stack, TokenOf(p, c.yychar)) == NotViable then
      c.(nerrs := c.nerrs + 2, lac := true, reports := c.reports + 1)
    else
      c.(nerrs := c.nerrs + 1, lac := c.lac || ReportEstablishes(p, c), reports := c.reports + 1)
  }

  /** yyerrlab: reports the error unless one was just reported, and drops a lookahead that was
      already tried after an error. */
  function Failed<V>(p: Parser<V>, c: Config<V>): (s: Status<V>)
    requires Ready(p, c)
    ensures Proper(p, s)
  {
    var c' := Reported(p, c);
    if c.errstatus == 0 && ReportEstablishes(p, c) && p.lac(c.stack, TokenOf(p, c.yychar)) == NoMemory then
      Done(Exhausted, c.(nerrs := c.nerrs + 1, lac := true))
    else if c.errstatus == 3 && c.yychar == YYEOF then Done(Aborted, c')
    else if c.errstatus == 3 && c.yychar > YYEOF then Recover(p, c'.(yychar := YYEMPTY))
    else Recover(p, c')
  }

  /** yyreduce: runs the action of the rule on the values of its right-hand side. */
  function AfterReduce<V>(p: Parser<V>, c: Config<V>, r: int): (s: Status<V>)
    requires Ready(p, c) && Complete(p.a, Last(c.stack), r)
    ensures Proper(p, s)
  {
    ReducePath(p.a, c.stack, r);
    var n := Length(p.a, r);
    var below := Popped(c, n);
    match p.action(r, c.values[|c.values| - n..])
    case Ok(v) => Enter(p, below.(stack := Reduced(p.a, c.stack, r), values := below.values + [v]))
    case Accept => Done(AcceptedByAction, below)
    case Abort => Done(Aborted, below)
    case Raise =>
      BelowPath(p.a, c.stack, |c.stack| - n);
      Recover(p, below)
  }

  /** From one yybackup to the next. A configuration that needs a token stays as it is. */
  function Advance<V>(p: Parser<V>, c0: Config<V>): (s: Status<V>)
    requires Ready(p, c0)
    ensures Proper(p, s)
  {
    DecideFacts(p, c0);
    var c := c0.(lac := c0.lac || Establishes(p, c0));
    match Decide(p, c0)
    case Read => Running(c0)
    case Shift(q) =>
      ShiftPath(p.a, c.stack, TokenOf(p, c.yychar));
      Enter(p, Shifted(c, q))
    case Reduce(r) => AfterReduce(p, c, r)
    case Error => Failed(p, c)
    case OutOfMemory => Done(Exhausted, c)
  }

  // ---------------------------------------------------------------- runs on an input

  /** What yylex returns: a token number and its semantic value. */
  datatype Lexeme<+V> = Lexeme(kind: int, value: V)

  /** Reading stores the lookahead; any number up to YYEOF becomes YYEOF at once. */
  function ReadInto<V>(c: Config<V>, x: Lexeme<V>): Config<V> {
    c.(yychar := if x.kind <= YYEOF then YYEOF else x.kind, lval := x.value)
  }

  function Start<V>(p: Parser<V>, initial: V): (s: Status<V>)
    requires 0 < p.initDepth
    ensures Proper(p, s)
  {
    StartIsLive(p.a);
    Enter(p, Config([0], [initial], p.initDepth, YYEMPTY, initial, 0, 0, false, 0, 0))
  }

  /** A parser that reads its input when it needs a token: its state, and how many tokens it read. */
  datatype Pull<+V> = Pull(status: Status<V>, pos: nat)

  type Input<!V> = nat -> Lexeme<V>

  function PullStep<V>(p: Parser<V>, input: Input<V>, s: Pull<V>): (s': Pull<V>)
    requires Proper(p, s.status)
    ensures Proper(p, s'.status)
  {
    match s.status
    case Done(_, _) => s
    case Running(c) =>
      if Decide(p, c).Read? then Pull(Running(ReadInto(c, input(s.pos))), s.pos + 1)
      else Pull(Advance(p, c), s.pos)
  }

  /** The parser after n steps. */
  function PullRun<V>(p: Parser<V>, initial: V, input: Input<V>, n: nat): (s: Pull<V>)
    requires 0 < p.initDepth
    ensures Proper(p, s.status)
  {
    if n == 0 then Pull(Start(p, initial), 0) else PullStep(p, input, PullRun(p, initial, input, n - 1))
  }
}
