/** The Java skeleton as a machine over labels: every turn of the switch is one step on the parser's
    fields. Between two visits of YYNEWSTATE it does what the C skeleton does. */
module JavaMachine {
  import opened Collections
  import LrTables
  import opened LrAutomaton
  import Y = YaccMachine

  datatype Label = YYNEWSTATE | YYGETTOKEN | YYDEFAULT | YYREDUCE | YYERRLAB | YYERROR | YYERRLAB1 | YYACCEPT | YYABORT

  datatype Fields<+V> = Fields(
    yylabel: Label, yyn: int, yylen: nat, yystate: int, yychar: int, yytoken: int, yylval: V,
    stack: seq<int>, values: seq<V>, yyerrstatus: nat, yynerrs: nat)

  /** What holds when control is at the label. */
  ghost predicate Fits<V>(p: Y.Parser<V>, j: Fields<V>) {
    && IsPath(p.a, j.stack) && |j.values| == |j.stack| && j.yystate == Last(j.stack)
    && j.yyerrstatus <= 3 && (j.yychar == Y.YYEMPTY || j.yychar >= Y.YYEOF)
    && match j.yylabel
       case YYGETTOKEN => j.yystate != p.a.t.final && !Defaulted(p.a, j.yystate) && j.yyn == p.a.t.pact[j.yystate]
       case YYDEFAULT => j.yystate != p.a.t.final
       case YYREDUCE => j.yystate != p.a.t.final && Complete(p.a, j.yystate, j.yyn)
       case YYERRLAB => j.yystate != p.a.t.final
       case YYERROR => j.yylen < |j.stack|
       case _ => true
  }

  /** The machine waits for a token. */
  predicate Needs<V>(j: Fields<V>) {
    j.yylabel == YYGETTOKEN && j.yychar == Y.YYEMPTY
  }

  predicate Ended<V>(j: Fields<V>) {
    j.yylabel == YYACCEPT || j.yylabel == YYABORT
  }

  /** The new lookahead; everything up to the end marker counts as the end marker at once. */
  function ReadToken<V>(j: Fields<V>, x: Y.Lexeme<V>): Fields<V> {
    j.(yychar := if x.kind <= Y.YYEOF then Y.YYEOF else x.kind, yylval := x.value)
  }

  function Pushed<V>(j: Fields<V>, state: int, value: V): Fields<V> {
    j.(yystate := state, stack := j.stack + [state], values := j.values + [value], yylabel := YYNEWSTATE)
  }

  function Popped<V>(j: Fields<V>, n: nat): (j': Fields<V>)
    requires n < |j.stack| == |j.values|
  {
    var stack := j.stack[..|j.stack| - n];
    j.(stack := stack, values := j.values[..|j.values| - n], yystate := Last(stack))
  }

  // ---------------------------------------------------------------- the labels

  function NewState<V>(p: Y.Parser<V>, j: Fields<V>): (j': Fields<V>)
    requires Fits(p, j)
    ensures Fits(p, j')
  {
    if j.yystate == p.a.t.final then j.(yylabel := YYACCEPT)
    else j.(yyn := p.a.t.pact[j.yystate], yylabel := if Defaulted(p.a, j.yystate) then YYDEFAULT else YYGETTOKEN)
  }

  function GetToken<V>(p: Y.Parser<V>, j: Fields<V>): (j': Fields<V>)
    requires Fits(p, j) && j.yylabel == YYGETTOKEN && j.yychar != Y.YYEMPTY
    ensures Fits(p, j')
  {
    TablesSized(p.a);
    var token := Y.TokenOf(p, j.yychar);
    var i := j.yyn + token;
    var j' := j.(yytoken := token, yyn := i);
    if i < 0 || |p.a.t.table| <= i || p.a.t.check[i] != token then j'.(yylabel := YYDEFAULT)
    else
      var v := p.a.t.table[i];
      ShiftOrReduce(p.a, j.yystate, token);
      if v <= 0 then
        if v == p.a.t.tableNinf then j'.(yyn := v, yylabel := YYERRLAB) else j'.(yyn := -v, yylabel := YYREDUCE)
      else
        ShiftPath(p.a, j.stack, token);
        Pushed(j'.(yyn := v, yychar := Y.YYEMPTY, yyerrstatus := if j.yyerrstatus > 0 then j.yyerrstatus - 1 else 0), v, j.yylval)
  }

  lemma ShiftOrReduce(a: Lalr, q: int, token: int)
    requires IsState(a, q) && IsToken(a, token) && LrTables.HasEntry(a.t, q, token) && q != a.t.final
    ensures var v := a.t.table[a.t.pact[q] + token];
            && Action(a, q, token) == LrTables.EntryAction(a.t, v)
            && (v > 0 ==> Action(a, q, token) == LrTables.Shift(v))
            && (v <= 0 && v != a.t.tableNinf ==> Action(a, q, token) == LrTables.Reduce(-v) && Complete(a, q, -v))
  {
    ReduceFacts(a, q);
  }

  function Default<V>(p: Y.Parser<V>, j: Fields<V>): (j': Fields<V>)
    requires Fits(p, j) && j.yylabel == YYDEFAULT
    ensures Fits(p, j')
  {
    ReduceFacts(p.a, j.yystate);
    var yyn := p.a.t.defact[j.yystate];
    j.(yyn := yyn, yylabel := if yyn == 0 then YYERRLAB else YYREDUCE)
  }

  /** yyaction: an action that does not return normally leaves the stack as it is. */
  function Reduce<V>(p: Y.Parser<V>, j: Fields<V>): (j': Fields<V>)
    requires Fits(p, j) && j.yylabel == YYREDUCE
    ensures Fits(p, j')
  {
    ReducePath(p.a, j.stack, j.yyn);
    var yylen := Length(p.a, j.yyn);
    var j' := j.(yylen := yylen);
    match p.action(j.yyn, j.values[|j.values| - yylen..])
    case Ok(v) =>
      var below := Popped(j', yylen);
      BelowPath(p.a, j.stack, |j.stack| - yylen);
      Pushed(below, GotoRule(p.a, below.yystate, j.yyn), v)
    case Accept => j'.(yylabel := YYACCEPT)
    case Abort => j'.(yylabel := YYABORT)
    case Raise => j'.(yylabel := YYERROR)
  }

  function ErrLab<V>(p: Y.Parser<V>, j: Fields<V>): (j': Fields<V>)
    requires Fits(p, j)
    ensures Fits(p, j')
  {
    var j' :=
      if j.yyerrstatus == 0 then
        j.(yynerrs := j.yynerrs + 1, yytoken := if j.yychar == Y.YYEMPTY then Y.YYEMPTY else j.yytoken)
      else j;
    if j.yyerrstatus == 3 && j.yychar <= Y.YYEOF then j'.(yylabel := if j.yychar == Y.YYEOF then YYABORT else YYERRLAB1)
    else if j.yyerrstatus == 3 then j'.(yychar := Y.YYEMPTY, yylabel := YYERRLAB1)
    else j'.(yylabel := YYERRLAB1)
  }

  function Raised<V>(p: Y.Parser<V>, j: Fields<V>): (j': Fields<V>)
    requires Fits(p, j) && j.yylabel == YYERROR
    ensures Fits(p, j')
  {
    BelowPath(p.a, j.stack, |j.stack| - j.yylen);
    Popped(j, j.yylen).(yylen := 0, yylabel := YYERRLAB1)
  }

  /** The states that cannot shift the error token are popped, but not the first one. */
  function ErrLab1<V>(p: Y.Parser<V>, j: Fields<V>): (j': Fields<V>)
    requires Fits(p, j)
    ensures Fits(p, j')
  {
    TablesSized(p.a);
    var n := Y.ErrorDepth(p.a.t, j.stack, |j.stack|);
    var j' := j.(yyerrstatus := 3);
    if n == 0 then
      BelowPath(p.a, j.stack, 1);
      Popped(j', |j.stack| - 1).(yyn := Probe(p.a.t, j.stack[0]), yylabel := YYABORT)
    else
      BelowPath(p.a, j.stack, n);
      Y.RecoverPath(p.a, j.stack, n);
      var q := Y.ErrorState(p.a.t, j.stack[n - 1]);
      Pushed(Popped(j', |j.stack| - n).(yyn := q), q, j.yylval)
  }

  /** What yyn holds after a state was found not to shift the error token. */
  function Probe(t: LrTables.Tables, q: int): int
    requires LrTables.Sized(t) && LrTables.IsState(t, q)
  {
    var i := t.pact[q] + LrTables.TERROR;
    if LrTables.Defaulted(t, q) then t.pact[q]
    else if 0 <= i < |t.table| && t.check[i] == LrTables.TERROR then t.table[i]
    else i
  }

  /** One turn of the switch. */
  function Step<V>(p: Y.Parser<V>, j: Fields<V>): (j': Fields<V>)
    requires Fits(p, j) && !Needs(j)
    ensures Fits(p, j')
  {
    match j.yylabel
    case YYNEWSTATE => NewState(p, j)
    case YYGETTOKEN => GetToken(p, j)
    case YYDEFAULT => Default(p, j)
    case YYREDUCE => Reduce(p, j)
    case YYERRLAB => ErrLab(p, j)
    case YYERROR => Raised(p, j)
    case YYERRLAB1 => ErrLab1(p, j)
    case _ => j
  }
}
