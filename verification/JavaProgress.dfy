/** Error recovery makes progress in the Java parser too. */
module JavaProgress {
  import LrTables
  import opened LrAutomaton
  import opened JavaMachine
  import opened JavaRuns
  import Y = YaccMachine

  /** The turn finds that the lookahead is an error. */
  predicate Fails<V>(j: Fields<V>) {
    j.yylabel == YYERRLAB && j.yychar != Y.YYEMPTY
  }

  /** How many of the turns from the i-th up to the n-th do. */
  ghost function FailCount<V>(p: Y.Parser<V>, nil: V, input: Y.Input<V>, i: nat, n: nat): nat {
    if n <= i then 0
    else FailCount(p, nil, input, i, n - 1) + if Fails(PullRun(p, nil, input, n - 1).j) then 1 else 0
  }

  /** How often the lookahead can still be found wrong. */
  function Chances<V>(j: Fields<V>): nat {
    if Ended(j) || j.yychar == Y.YYEMPTY then 0
    else if j.yyerrstatus == 3 || j.yylabel == YYERRLAB1 then 1
    else 2
  }

  /** No turn but the reading of a token adds to the chances, and an error takes one. */
  lemma StepChances<V>(p: Y.Parser<V>, j: Fields<V>)
    requires Fits(p, j) && !Needs(j)
    ensures Chances(Step(p, j)) + (if Fails(j) then 1 else 0) <= Chances(j)
  {
    hide LrTables.Valid, Steps;
  }

  /** In any part of a run, each token that is read is found to be wrong twice at most. */
  lemma {:induction false} FailsAreBounded<V>(p: Y.Parser<V>, nil: V, input: Y.Input<V>, i: nat, n: nat)
    requires i <= n
    ensures var s, t := PullRun(p, nil, input, i), PullRun(p, nil, input, n);
            && s.pos <= t.pos
            && FailCount(p, nil, input, i, n) + Chances(t.j) <= Chances(s.j) + 2 * (t.pos - s.pos)
    decreases n
  {
    hide LrTables.Valid, Fits, Step, Steps;
    if i < n {
      FailsAreBounded(p, nil, input, i, n - 1);
      var s := PullRun(p, nil, input, n - 1);
      if !Needs(s.j) {
        StepChances(p, s.j);
      }
    }
  }

  /** The tokens found wrong, counted as often as they are, are at most twice as many as were read. */
  lemma RecoveryMakesProgress<V>(p: Y.Parser<V>, nil: V, input: Y.Input<V>, n: nat)
    ensures FailCount(p, nil, input, 0, n) <= 2 * PullRun(p, nil, input, n).pos
  {
    hide LrTables.Valid, Fits, Step, FailCount;
    FailsAreBounded(p, nil, input, 0, n);
  }

  lemma {:induction false} CountParts<V>(p: Y.Parser<V>, nil: V, input: Y.Input<V>, i: nat, j: nat, k: nat)
    requires i <= j <= k
    ensures FailCount(p, nil, input, i, k) == FailCount(p, nil, input, i, j) + FailCount(p, nil, input, j, k)
    decreases k
  {
    hide LrTables.Valid, Fits, PullRun;
    if j < k {
      CountParts(p, nil, input, i, j, k - 1);
    }
  }

  lemma CountOne<V>(p: Y.Parser<V>, nil: V, input: Y.Input<V>, i: nat, j: nat)
    requires i < j && Fails(PullRun(p, nil, input, i).j)
    ensures FailCount(p, nil, input, i, j) >= 1
  {
    hide LrTables.Valid, Fits, PullRun, Fails;
    CountParts(p, nil, input, i, i + 1, j);
  }

  /** If a lookahead is found wrong, and found wrong again before another token is read, then it is
      dropped, or the parse is over. */
  lemma SecondFailureDrops<V>(p: Y.Parser<V>, nil: V, input: Y.Input<V>, i: nat, j: nat)
    requires i < j && Fails(PullRun(p, nil, input, i).j) && Fails(PullRun(p, nil, input, j).j)
    requires PullRun(p, nil, input, i).pos == PullRun(p, nil, input, j).pos
    ensures var s := PullRun(p, nil, input, j + 1); (Ended(s.j) || s.j.yychar == Y.YYEMPTY) && s.pos == PullRun(p, nil, input, i).pos
  {
    hide LrTables.Valid, Fits, FailCount, Step;
    FailsAreBounded(p, nil, input, i, j + 1);
    CountParts(p, nil, input, i, j, j + 1);
    CountOne(p, nil, input, i, j);
    CountOne(p, nil, input, j, j + 1);
  }

  /** Of three turns that find an error, the last comes with another token than the first. */
  lemma ThirdFailureIsLater<V>(p: Y.Parser<V>, nil: V, input: Y.Input<V>, i: nat, j: nat, k: nat)
    requires i < j < k && Fails(PullRun(p, nil, input, i).j) && Fails(PullRun(p, nil, input, j).j) && Fails(PullRun(p, nil, input, k).j)
    ensures PullRun(p, nil, input, i).pos < PullRun(p, nil, input, k).pos
  {
    hide LrTables.Valid, Fits, FailCount, Step;
    FailsAreBounded(p, nil, input, i, k + 1);
    CountParts(p, nil, input, i, j, k + 1);
    CountParts(p, nil, input, j, k, k + 1);
    CountOne(p, nil, input, i, j);
    CountOne(p, nil, input, j, k);
    CountOne(p, nil, input, k, k + 1);
  }

  /** The first time, the lookahead is kept, and recovery begins. */
  lemma FirstFailureKeeps<V>(p: Y.Parser<V>, j: Fields<V>)
    requires Fits(p, j) && Fails(j) && j.yyerrstatus < 3
    ensures var j' := Step(p, j); j'.yychar == j.yychar && j'.yylval == j.yylval && j'.yylabel == YYERRLAB1 && !Needs(j')
    ensures var j' := Step(p, Step(p, j)); j'.yychar == j.yychar && (j'.yylabel == YYABORT || j'.yyerrstatus == 3)
  {
    hide LrTables.Valid, Steps;
  }
}
