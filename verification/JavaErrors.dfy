/** When the Java parser recovers from a syntax error, and what its method recovering says of it. */
module JavaErrors {
  import LrTables
  import opened LrAutomaton
  import opened JavaMachine
  import opened JavaRuns
  import Y = YaccMachine

  /** The i-th turn of the run begins to recover from an error. */
  ghost predicate Recovers<V>(p: Y.Parser<V>, nil: V, input: Y.Input<V>, i: nat) {
    PullRun(p, nil, input, i).j.yylabel == YYERRLAB1
  }

  /** The turn shifts the lookahead. */
  predicate Shifts<V>(p: Y.Parser<V>, j: Fields<V>)
    requires Fits(p, j)
  {
    j.yylabel == YYGETTOKEN && !Needs(j) && Step(p, j).yylabel == YYNEWSTATE
  }

  /** How many of the turns from the i-th up to the n-th shift a token. */
  ghost function ShiftCount<V>(p: Y.Parser<V>, nil: V, input: Y.Input<V>, i: nat, n: nat): nat {
    if n <= i then 0
    else ShiftCount(p, nil, input, i, n - 1) + if Shifts(p, PullRun(p, nil, input, n - 1).j) then 1 else 0
  }

  lemma StepStatus<V>(p: Y.Parser<V>, j: Fields<V>)
    requires Fits(p, j) && !Needs(j)
    ensures Step(p, j).yyerrstatus ==
            if j.yylabel == YYERRLAB1 then 3
            else if Shifts(p, j) && j.yyerrstatus > 0 then j.yyerrstatus - 1
            else j.yyerrstatus
  {
    hide LrTables.Valid, Steps;
  }

  /** The status is three less the shifts since recovery was last begun, or zero. */
  lemma {:induction false} RunStatus<V>(p: Y.Parser<V>, nil: V, input: Y.Input<V>, n: nat)
    ensures var e := PullRun(p, nil, input, n).j.yyerrstatus;
            && (forall i: nat | i < n && Recovers(p, nil, input, i) :: e + ShiftCount(p, nil, input, i + 1, n) >= 3)
            && (e > 0 ==> exists i: nat :: i < n && Recovers(p, nil, input, i) && e + ShiftCount(p, nil, input, i + 1, n) == 3)
  {
    hide LrTables.Valid, Fits, Step, Shifts;
    if n > 0 {
      RunStatus(p, nil, input, n - 1);
      var j := PullRun(p, nil, input, n - 1).j;
      if Needs(j) {
        assert !Shifts(p, j) by { NoShift(p, j); }
      } else {
        StepStatus(p, j);
      }
      if j.yylabel == YYERRLAB1 {
        assert Recovers(p, nil, input, n - 1) && ShiftCount(p, nil, input, n, n) == 0;
      }
    }
  }

  lemma NoShift<V>(p: Y.Parser<V>, j: Fields<V>)
    requires Fits(p, j) && Needs(j)
    ensures !Shifts(p, j)
  {
  }

  /** Recovery was begun, and since then fewer than three tokens were shifted. */
  ghost predicate InRecovery<V>(p: Y.Parser<V>, nil: V, input: Y.Input<V>, n: nat) {
    exists i: nat :: i < n && Recovers(p, nil, input, i) && ShiftCount(p, nil, input, i + 1, n) < 3
  }

  /** What recovering returns in the n-th state of a run. */
  ghost predicate Recovering<V>(p: Y.Parser<V>, nil: V, input: Y.Input<V>, n: nat) {
    PullRun(p, nil, input, n).j.yyerrstatus == 0
  }

  /** In every state of every run recovering says the opposite of what it is documented to say. */
  lemma RecoveringIsReversed<V>(p: Y.Parser<V>, nil: V, input: Y.Input<V>, n: nat)
    ensures Recovering(p, nil, input, n) <==> !InRecovery(p, nil, input, n)
  {
    hide LrTables.Valid, Fits, Step, Shifts, PullRun, ShiftCount, Recovers;
    RunStatus(p, nil, input, n);
  }

  /** Before the first token nothing is being recovered from, and recovering says that it is. */
  lemma RecoveringAtTheStart<V>(p: Y.Parser<V>, nil: V, input: Y.Input<V>)
    ensures Recovering(p, nil, input, 0) && !InRecovery(p, nil, input, 0)
  {
  }
}
