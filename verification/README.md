# Parser skeletons and the parallel test run, modelled in Dafny

This project models two parts of the repository and proves what they are for.

**The Bison skeletons.** A generated parser is tables and a driver. `LrTables` says what it means for
tables to belong to a grammar, as a finite check; `LrAutomaton` is the theory of the automaton of
such tables. On it stand three drivers:

- `yacc.c`: `YaccMachine` is its loop as steps on a configuration, `YaccParser` the loop itself on two
  arrays that grow together, with lookahead correction (`Lac`) on a buffer of its own and the push
  interface (`YaccPush`). `YaccSoundness`, `YaccLac`, `YaccErrors` and `YaccProgress` are about its runs.
  `StackLayout` is the arithmetic of the one allocation that holds the stacks.
- `lalr1.java`: `JavaMachine` is the switch over labels as steps, `JavaStack` and `JavaParser` the
  objects, `JavaRuns` compares them with the C parser, `JavaErrors` is about its error status and
  `JavaProgress` about its recovery.
- `glr.c`: `GlrShape` and `GlrOps` are the graph-structured stack in one array and its operations as
  functions, `GlrStack` the object that is changed in place, `GlrReduce`, `GlrCompress`, `GlrOptions`,
  `GlrResolve`, `GlrValues` and `GlrRelocation` its harder operations, and `GlrInvariant`, `GlrRounds`
  and `GlrParser` whole parses. `GlrSentences` is about the tokens that stacks stand for, `GlrDistinct`
  about states that live stacks share, `GlrComplete` and `GlrSearch` about the stacks that are tried,
  `GlrVerdicts` about ambiguities, and `GlrDangling` an example.

**`run-tests.php`.** The master and the workers of a parallel run are asynchronous steps
(`SchedulerProtocol`) around the master's bookkeeping (`SchedulerMaster`, as functions and as an object);
`SchedulerSafety`, `SchedulerTheorems`, `SchedulerBatches`, `SchedulerOrder` and `SchedulerSequential`
are about all runs. `ArrayDiff` and `ArrayDiffAlign` are the diff of expected and actual output,
`ArrayDiffSize` and `ArrayDiffOrder` what it looks like. `ExpectF` is the translation of EXPECTF
patterns, `ExpectFMeaning` what its parts match.

Semantic actions are functions from the values of a right-hand side to a value or to one of YYACCEPT,
YYABORT and YYERROR; allocation is a function of the requested size. Both are parameters, as are
tables, inputs, suites and conflict keys, so that every statement is for all of them. Where answers of
lookahead correction are a parameter, `YaccLac.PlainExists` says that there are such answers for every
parser without a table entry for the undefined token, and `YaccErrors.DoubleCounterIsSound` that those
of an example are true.

## Model

| member | source | states |
|---|---|---|
| SchedulerTheorems.ConflictExclusion | phpdev/vs16/x64/php-8.1.3-src/run-tests.php:1597-1648 | In every state of every run, for all suites, worker counts and interleavings: tests that share a key execute on one worker only, a test with key "all" executes while no other worker is live, and every key of a test in execution is bound to its worker. |
| SchedulerTheorems.RunKeeps | phpdev/vs16/x64/php-8.1.3-src/run-tests.php:1567-1655 | Every state of a run keeps the bookkeeping invariant, and pending, waiting, sequential, owed and recorded tests are together exactly the suite: no test is lost or duplicated. |
| SchedulerTheorems.AllResultsAtExit | phpdev/vs16/x64/php-8.1.3-src/run-tests.php:1567-1655 | When the master leaves its loop, every test of the suite has its result recorded exactly once. |
| SchedulerTheorems.NoDeadlock | phpdev/vs16/x64/php-8.1.3-src/run-tests.php:1567-1648 | While there is work, some worker is live and some step of the protocol is enabled. |
| SchedulerTheorems.StuckMeansDone | phpdev/vs16/x64/php-8.1.3-src/run-tests.php:1567-1655 | A run that cannot go on has recorded the results of exactly the suite. |
| SchedulerTheorems.AnswersAreBounded | phpdev/vs16/x64/php-8.1.3-src/run-tests.php:1612-1655 | The master answers ready and tests_finished messages at most N + W times: each answer hands out a test or dismisses a worker. |
| SchedulerTheorems.LastWorkerLeavesNothing | phpdev/vs16/x64/php-8.1.3-src/run-tests.php:1650-1655 | When the last worker is dismissed, nothing is left and every test has its result. |
| SchedulerTheorems.RunsEnd | phpdev/vs16/x64/php-8.1.3-src/run-tests.php:1567-1655 | Every run has at most 5N + 2W steps, whatever the order of messages. |
| SchedulerTheorems.BatchExceedsIff | phpdev/vs16/x64/php-8.1.3-src/run-tests.php:1624-1636 | A batch has all pending tests without a key in use if they are at most the batch size, and exactly one test more than the batch size if and only if they are more; the size is the one of SchedulerBatches.BatchSizeIff. |
| SchedulerBatches.BatchSizeIff | phpdev/vs16/x64/php-8.1.3-src/run-tests.php:1624-1627 | The batch size is the one number n from 1 to a cap (1 with valgrind, otherwise 4 with shuffle and 32 without) such that the live workers need all of n for the number of tests (n is 1, or one less per worker would not do), and n per worker would do unless n is the cap. |
| SchedulerBatches.FirstBatch | phpdev/vs16/x64/php-8.1.3-src/run-tests.php:1612-1640 | The first answer of any run hands out one test more than this size for the number of ordinary tests and workers, or all there are; without shuffle these are the first tests of the suite, in order. |
| SchedulerOrder.OrderPreserved | phpdev/vs16/x64/php-8.1.3-src/run-tests.php:1458-1461 | Without shuffle, and when ordinary tests that share a key list the same key first, the results of the tests with any key come in suite order, and completely when the run is finished. |
| SchedulerOrder.ExecutionFollowsDispatch | phpdev/vs16/x64/php-8.1.3-src/run-tests.php:1597-1648 | The results of the tests with a given key always come in the order of their dispatch. |
| SchedulerOrderLimits.LeadsMustAgree | phpdev/vs16/x64/php-8.1.3-src/run-tests.php:1599-1609 | For any two tests that share a key but not their first key there is a suite with a run of the protocol in which their results come in the wrong order. |
| SchedulerSequential.AllsRunInReverse | phpdev/vs16/x64/php-8.1.3-src/run-tests.php:1614-1617 | The results of the tests with key "all" come in the reverse of suite order, in every run. |
| SchedulerSequential.AllsKeepOrderIff | phpdev/vs16/x64/php-8.1.3-src/run-tests.php:1614-1617 | A finished run keeps the order of the tests with key "all" if and only if there is at most one of them. |
| SchedulerMaster.Master.HandOut | phpdev/vs16/x64/php-8.1.3-src/run-tests.php:1612-1655 | The answer to ready, in place: equal to the specification of the answer on which all of the above is proved, with a batch size that SchedulerBatches.BatchSizeIff fixes. |
| SchedulerMaster.Master.FinishTests | phpdev/vs16/x64/php-8.1.3-src/run-tests.php:1597-1609 | The release of a worker's keys, in place: waiting tests become pending again, last waiter on the bottom. |
| ArrayDiff.CountAtMostLcs | phpdev/vs16/x64/php-8.1.3-src/run-tests.php:2849-2898 | For every budget, also the budget of 10 that the diff uses, the look ahead never counts more lines than the longest common subsequence has. |
| ArrayDiff.CountIsLcs | phpdev/vs16/x64/php-8.1.3-src/run-tests.php:2849-2898 | With a budget that is large enough for the number of remaining lines, the look ahead counts exactly the longest common subsequence. |
| ArrayDiffAlign.DiffExplainsTheDifference | phpdev/vs16/x64/php-8.1.3-src/run-tests.php:2900-3006 | Removed expected lines and added output lines are listed once each and in order, and without them the two texts match line by line. |
| ArrayDiffAlign.DiffQuotes | phpdev/vs16/x64/php-8.1.3-src/run-tests.php:2971-3006 | Every entry shows the text of the line whose number it shows. |
| ArrayDiffAlign.EmptyDiffIffMatch | phpdev/vs16/x64/php-8.1.3-src/run-tests.php:2900-3006 | The diff is empty if and only if the output matches the expectation line by line. |
| ArrayDiffAlign.GenerateArrayDiff | phpdev/vs16/x64/php-8.1.3-src/run-tests.php:2900-3006 | The loops compute that diff, whose size, single entries and order are the subject of the next rows, and the merge finds an entry of the position mapping for every added line. |
| ArrayDiffSize.DiffSize | phpdev/vs16/x64/php-8.1.3-src/run-tests.php:2914-2941 | The diff never has fewer entries than the lines outside of a longest common subsequence of both texts, and exactly as many if at every mismatch that is met both look aheads count exactly. |
| ArrayDiffSize.MissingLineIff | phpdev/vs16/x64/php-8.1.3-src/run-tests.php:2914-2941 | With the budget of 10 and for texts of any length: the diff is a single missing line if and only if the output matches the expectation with one line left out. |
| ArrayDiffSize.NewLineIff | phpdev/vs16/x64/php-8.1.3-src/run-tests.php:2914-2941 | The diff is a single new line if and only if the expectation matches the output with one line left out. |
| ArrayDiffOrder.DiffFollowsTheTexts | phpdev/vs16/x64/php-8.1.3-src/run-tests.php:2943-3006 | For every pair of lines that the alignment matches, the entries for lines before it come before those for lines after it: the merge of both lists with the position mapping never gets across a match. |
| ExpectF.SectionsAreUnique | phpdev/vs16/x64/php-8.1.3-src/run-tests.php:2614-2641 | The quoted text and the %r sections that the scanner finds are the only way to cut the pattern at balanced tags. |
| ExpectF.PassesAreOneSubstitution | phpdev/vs16/x64/php-8.1.3-src/run-tests.php:2643-2655 | Successive replacement passes equal one simultaneous left-to-right substitution. |
| ExpectF.TranslationIsSectionwise | phpdev/vs16/x64/php-8.1.3-src/run-tests.php:2614-2655 | Scanner, quoting and the twelve passes together equal one rendering, section by section and placeholder by placeholder, for every pattern. |
| ExpectF.Translate | phpdev/vs16/x64/php-8.1.3-src/run-tests.php:2614-2655 | The loops compute this translation. |
| ExpectFMeaning.QuotedIsPlain | phpdev/vs16/x64/php-8.1.3-src/run-tests.php:2620-2634 | Quoting can be undone, and leaves no metacharacter without a backslash: read as an expression, quoted text is the text it came from, character by character. |
| ExpectFMeaning.ExpansionIsMeaning | phpdev/vs16/x64/php-8.1.3-src/run-tests.php:2643-2655 | The text that each placeholder is replaced by is that of an expression over classes of characters, whose matches the next rows give. |
| ExpectFMeaning.PlaceholderMatches | phpdev/vs16/x64/php-8.1.3-src/run-tests.php:2643-2655 | %s matches exactly what is not empty and has no line end, %S also the empty text, %a all that is not empty, %A everything, %d digits, %w white space, %x hexadecimal digits. |
| ExpectFMeaning.CharacterMatches | phpdev/vs16/x64/php-8.1.3-src/run-tests.php:2643-2655 | %e matches the directory separator only, %c a single character, %0 the null character. |
| ExpectFMeaning.IntegerMatches | phpdev/vs16/x64/php-8.1.3-src/run-tests.php:2643-2655 | %i matches exactly digits with or without a sign before them. |
| YaccSoundness.AcceptedIsSentence | msys2/usr/share/bison/skeletons/yacc.c:1446-1699 | For all checked tables, actions and inputs: an accepting run without an error has consumed the leaves of a parse tree of the start symbol followed by the end marker, and its value is the value of that tree. |
| YaccSoundness.RunSound | msys2/usr/share/bison/skeletons/yacc.c:1446-1699 | After every step, the stack is a forest of parse trees whose leaves are the tokens consumed so far. |
| YaccPush.SameHistory | msys2/usr/share/bison/skeletons/yacc.c:1546-1569 | Push and pull parser go through the same states, step by step, although what is not kept in yypstate is lost between calls. |
| YaccPush.PushIsPull | msys2/usr/share/bison/skeletons/yacc.c:1278-1308 | After any number of calls the push parser has done a part of the pull run: it asks for more where the pull parser would read, or returns the same result with the same stacks and counts. |
| YaccPush.PullIsPush | msys2/usr/share/bison/skeletons/yacc.c:1278-1308 | A pull run that ends after reading j tokens is what j calls of the push parser do. |
| YaccErrors.ReportsAreApart | msys2/usr/share/bison/skeletons/yacc.c:1709-1775 | Between two reports of syntax errors at least three tokens are shifted. |
| YaccErrors.CountedOnceIff | msys2/usr/share/bison/skeletons/yacc.c:1709-1730 | A report adds one to yynerrs if and only if it does not establish the lookahead's context itself; otherwise it adds two. |
| YaccErrors.CountsReports | msys2/usr/share/bison/skeletons/yacc.c:1709-1730 | Without verbose messages or without lookahead correction yynerrs is the number of reports. |
| YaccErrors.CountedTwice | msys2/usr/share/bison/skeletons/yacc.c:1709-1730 | With both, and with true answers of lookahead correction, there are tables and an input with one report and yynerrs 2. |
| YaccProgress.FailsAreBounded | msys2/usr/share/bison/skeletons/yacc.c:1705-1772 | In any part of any run, the steps that find the lookahead wrong are at most twice the tokens read, with what is left of the two chances of the current one: no token is tried for ever. |
| YaccProgress.SecondFailureDrops | msys2/usr/share/bison/skeletons/yacc.c:1755-1772 | If a lookahead is found wrong, and again before another token is read, it is dropped then, or the parse is over. |
| YaccProgress.ThirdFailureIsLater | msys2/usr/share/bison/skeletons/yacc.c:1755-1772 | Of any three steps of a run that find an error, the last one is about a later token than the first. |
| YaccProgress.FirstFailureKeeps | msys2/usr/share/bison/skeletons/yacc.c:1774-1778 | The first time, the lookahead is kept to be tried again after the error token. |
| Lac.Extension.Check | msys2/usr/share/bison/skeletons/yacc.c:910-1002 | On the shared virtual stack, in place and without a write to the parser's stack, the check accepts, rejects or goes on exactly as the plain LR loop on a copy. It reports exhausted memory whenever that loop makes the extension longer than YYMAXDEPTH, and otherwise only if the array for a length that the extension comes to is refused. |
| Lac.Extension.Reserve | msys2/usr/share/bison/skeletons/yacc.c:779-830 | Growing the extension keeps its contents; it fails only if the new length exceeds YYMAXDEPTH or the requested array is refused. |
| Lac.UndefIsNeverShifted | msys2/usr/share/bison/skeletons/yacc.c:918-922 | For tables without an entry for the undefined token, rejecting it at once is what the plain loop would do. |
| YaccLac.RejectedAtOnce | msys2/usr/share/bison/skeletons/yacc.c:1582-1611 | Where a lookahead is first examined, it is an error if and only if no number of reductions would lead to its shift: no reduction runs before the error is reported. |
| YaccLac.RunAccepting | msys2/usr/share/bison/skeletons/yacc.c:857-874 | In every state of every run, an established context is one from which the lookahead will be shifted. |
| YaccLac.NoIdleReduction | msys2/usr/share/bison/skeletons/yacc.c:1582-1611 | With actions that return normally, a reduction in a state that looks at the lookahead is part of a series of reductions after which that lookahead is shifted, unless the stacks are exhausted. |
| YaccLac.CheckIsSound | msys2/usr/share/bison/skeletons/yacc.c:910-1002 | An answer of the check is the truth about the plain parser: accepted tokens can be shifted after some reductions, rejected ones never. |
| YaccParser.Parse.CheckLookahead | msys2/usr/share/bison/skeletons/yacc.c:857-874 | The parser's own check, on its own stack and buffer: it gives the answers that the guarantees above suppose, unless it runs out of memory for one of the two exact reasons, or is followed for too few reductions. |
| YaccParser.Parse.PullCorrected | msys2/usr/share/bison/skeletons/yacc.c:1534-1611 | The parser with its real check goes through the states of the specified run, up to a check that runs out of memory, and in each of them an established context will lead to the shift of the lookahead. |
| YaccParser.Parse.Turn | msys2/usr/share/bison/skeletons/yacc.c:1534-1699 | One turn of the loop over the two arrays, in place, is one step of the specification: same decision, stacks, status and counts. |
| YaccParser.Parse.HandleError | msys2/usr/share/bison/skeletons/yacc.c:1705-1778 | The report of an error, the count and the discarding of a lookahead that was tried before, in place, as specified; that this makes progress is YaccProgress. |
| YaccParser.Parse.Pull | msys2/usr/share/bison/skeletons/yacc.c:1385-1699 | yyparse on the object, for any input: the run of the specification, and the number of tokens read. |
| YaccParser.PushParser.PushParse | msys2/usr/share/bison/skeletons/yacc.c:1385-1440 | yypush_parse on the object: the call of the specification, and what is kept for the next call. |
| YaccParser.Stacks.Extend | msys2/usr/share/bison/skeletons/yacc.c:1446-1521 | Growth keeps the contents of both arrays and their agreement in height, never exceeds YYMAXDEPTH, and afterwards there is room: the abort after growth is not reached. |
| YaccParser.Stacks.Push | msys2/usr/share/bison/skeletons/yacc.c:1446-1521 | Both stores are in bounds and put state and value on top of the old contents. |
| YaccParser.Stacks.PopToCatcher | msys2/usr/share/bison/skeletons/yacc.c:1800-1825 | The popping loop stops at the topmost state that shifts the error token, or at the first state. |
| StackLayout.StacksFit | msys2/usr/share/bison/skeletons/yacc.c:489-526 | For all element sizes and numbers of elements, YYSTACK_RELOCATE places every stack at a multiple of the union's size, without overlap and inside YYSTACK_BYTES. |
| JavaStack.YYStack.Push | msys2/usr/share/bison/skeletons/lalr1.java:334-356 | Pushing keeps the contents, doubling full arrays; nothing above the top holds a value. |
| JavaStack.YYStack.Pop | msys2/usr/share/bison/skeletons/lalr1.java:363-370 | Popping keeps what is below and clears the popped values. |
| JavaParser.Parser.Turn | msys2/usr/share/bison/skeletons/lalr1.java:602-826 | One turn of the switch over the label, in place, is one step of the machine; that recovery makes progress is JavaProgress. |
| JavaRuns.Follows | msys2/usr/share/bison/skeletons/lalr1.java:602-815 | From one state to the next the Java parser does what the C parser does without lookahead correction: same stacks, status, counts and result. |
| JavaRuns.RunFollows | msys2/usr/share/bison/skeletons/lalr1.java:602-826 | Every state of a run of the C parser, up to where its stacks are exhausted, is a state of the run of the Java parser with as many tokens read. |
| JavaRuns.PushIsPull | msys2/usr/share/bison/skeletons/lalr1.java:584-643 | After any number of calls of push_parse its fields, with the label that is its result, are those of the pull parser at some point of its run, and that parser has read as many tokens as there were calls, unless the first call stopped before it needed its token. |
| JavaRuns.PullIsPush | msys2/usr/share/bison/skeletons/lalr1.java:584-643 | A pull run that ends after reading j tokens is what j calls of push_parse do. |
| JavaErrors.RunStatus | msys2/usr/share/bison/skeletons/lalr1.java:768 | In every state of every run yyerrstatus is what is left of three shifts since recovery was last begun, or zero. |
| JavaErrors.RecoveringIsReversed | msys2/usr/share/bison/skeletons/lalr1.java:437-445 | In every state of every run, recovering() is true if and only if recovery was never begun or three tokens were shifted since: the reverse of its documentation. |
| JavaProgress.FailsAreBounded | msys2/usr/share/bison/skeletons/lalr1.java:702-771 | In any part of any run, the turns at YYERRLAB that find the lookahead wrong are at most twice the tokens read, with what is left of the two chances of the current one. |
| JavaProgress.SecondFailureDrops | msys2/usr/share/bison/skeletons/lalr1.java:734-748 | If a lookahead is found wrong, and again before another token is read, it is dropped then, or the parse is over. |
| JavaProgress.ThirdFailureIsLater | msys2/usr/share/bison/skeletons/lalr1.java:734-748 | Of any three turns of a run that find an error, the last one is about a later token than the first. |
| JavaParser.Parser.PushParse | msys2/usr/share/bison/skeletons/lalr1.java:584-643 | push_parse on the object is the call of the specification: it resumes where a token was missing, and starts over after a result. |
| JavaParser.Parser.ParseInput | msys2/usr/share/bison/skeletons/lalr1.java:602-826 | parse on the object is the pull run. |
| GlrParser.YyParse | msys2/usr/share/bison/skeletons/glr.c:2291-2460 | For all checked tables, conflicts, actions and inputs, a whole GLR parse keeps in every state: the shape of the stack, stacks that are paths of the automaton, right-hand sides of all alternatives on the stack, a last deleted stack that can be found if all have died, two free items before every operation, and legal alternatives in every state that lacks a value, until an action fails while a stack is resolved, and again once what it left is popped. If it accepts without a recovery, the tokens shifted are a sentence of the grammar with the end marker. And it misses nothing: if all actions return normally and some run of the automaton, which may take the table's action or any rule in conflict with it at every step, comes to the final state with the n-th token, there is no syntax error, and the parse accepts, where such a run does, unless it runs out of memory, is aborted for an ambiguity (the grammar then has two rules that clash), meets YYASSERT with immediate rules, or is followed for fewer turns, or less deep into a resolution, than it takes. It runs out of memory only if the items fill the array and the limit is reached or the one size asked for is refused. If no rule is immediate and the end marker leads to the final state only, as in generated tables, YYASSERT never finds a final state. |
| GlrComplete.NothingMissed | msys2/usr/share/bison/skeletons/glr.c:1946-2044 | When all stacks have been processed, every stack that any run of the automaton with its conflicts can have after the next token is a live stack with the state that the token leads to. |
| GlrComplete.ReductionExplored | msys2/usr/share/bison/skeletons/glr.c:1421-1488 | A reduction keeps the search complete: what it makes of the stack is a stack to be processed, or, if the stack is merged into another one, a part of that stack which has been or is being processed as a stack of its own. |
| GlrComplete.ShiftExplored | msys2/usr/share/bison/skeletons/glr.c:2425-2442 | After the shift the live stacks are exactly those that runs of the automaton with its conflicts have after that token. |
| GlrComplete.NothingGoesOn | msys2/usr/share/bison/skeletons/glr.c:2404-2420 | If all stacks die, or the single one has an error, no run of the automaton with its conflicts ever comes to the final state. |
| GlrSearch.ReductionKeeps | msys2/usr/share/bison/skeletons/glr.c:1421-1488 | A reduction in nondeterministic operation, deferred or not, keeps all of the above at once. |
| GlrParser.Parse.SingleTurn | msys2/usr/share/bison/skeletons/glr.c:2330-2379 | Deterministic operation ends in a split exactly if the state has conflicts on the next token; in every case the search stays complete, and an error means that no run accepts the input. |
| GlrParser.Parse.TryConflicts | msys2/usr/share/bison/skeletons/glr.c:1991-2016 | Every rule in conflict on the lookahead is tried on a copy of the stack, which is then processed; the stack itself stays. |
| GlrParser.Parse.ProcessRound | msys2/usr/share/bison/skeletons/glr.c:2381-2403 | After the first part of a round the live stacks all shift the lookahead, and no stack that could is missing. |
| GlrSentences.ReducedSpan | msys2/usr/share/bison/skeletons/glr.c:1421-1488 | The state that a reduction pushes derives exactly the tokens between the position of the state it uncovers and its own, if the states it takes do. |
| GlrSentences.AcceptedIsSentence | msys2/usr/share/bison/skeletons/glr.c:2330-2340 | A stack in the final state whose states derive their tokens has a parse tree of the start symbol for all tokens before the end marker. |
| GlrDistinct.LaterDistinct | msys2/usr/share/bison/skeletons/glr.c:1421-1488 | As deferred reductions merge, live stacks never have two states with the same number, predecessor and position, and never the same top, except for a stack that was just split off. |
| GlrDistinct.EndAlone | msys2/usr/share/bison/skeletons/glr.c:1955-1956 | So the end marker, where it leads to the final state only, is shifted on one stack at most, and YYASSERT finds no final state. |
| GlrParser.Parse.ProcessOneStack | msys2/usr/share/bison/skeletons/glr.c:1946-2044 | All of this is kept; afterwards the stack and those split off from it are dead or shift the lookahead, all other stacks are as before, and whatever the stack can be reduced to on the lookahead has been tried. |
| GlrParser.Parse.ShiftAllStacks | msys2/usr/share/bison/skeletons/glr.c:2425-2442 | Every stack shifts the token, which it then stands for, and all are at the next position, or there is no room; the stacks are then all that runs of the automaton with its conflicts have. |
| GlrParser.Parse.AllDied | msys2/usr/share/bison/skeletons/glr.c:2408-2420 | When all stacks have died, the last one deleted is restored from a pointer that is never stale and never missing, resolved and left to error recovery; if all actions return normally, the error is reported once unless one was just reported, and no run accepts the input. |
| GlrValues.ResolveStates | msys2/usr/share/bison/skeletons/glr.c:1639-1652 | On the items of the stack, down the recursion and for whatever alternatives share: all n states have values after success, no state loses its value or is left without alternatives, and only semantics and links inside the scope are changed. If the first action fails, nothing above its state is touched. |
| GlrValues.ResolveAction | msys2/usr/share/bison/skeletons/glr.c:1657-1699 | The states of the right-hand side have values when the action is run, and the result is that of the action on the right-hand side as it is then; only what is below the alternative has changed. |
| GlrValues.ResolveValue | msys2/usr/share/bison/skeletons/glr.c:1814-1886 | Every call keeps the above and leaves a value, or none if an action fails. If the state and its chain are apart from what is below its alternatives, the options evaluated are the first of the highest precedence among those left and exactly the others of that precedence, in chain order, each with resolved right-hand sides, and the value is theirs, merged. A resolution fails only by an action that does not return, or by two rules that clash; when exactly a chain is ambiguous is GlrVerdicts.AmbiguousIff. |
| GlrResolve.Widen | msys2/usr/share/bison/skeletons/glr.c:1555-1602 | What is changed below the alternatives of a state leaves its own chain, and everything outside, legal and as it was. |
| GlrRounds.WholeWithin | msys2/usr/share/bison/skeletons/glr.c:1898-1914 | Every stack that a parse comes to meets the conditions under which it can be resolved. |
| GlrParser.Parse.ResolveStack | msys2/usr/share/bison/skeletons/glr.c:1898-1914 | After success every state of the stack, down to the first, has its value. |
| GlrParser.Parse.ReduceToOneStack | msys2/usr/share/bison/skeletons/glr.c:2226-2238 | Exactly the first live stack is kept, if there is one. |
| GlrParser.Parse.RecoverSyntaxError | msys2/usr/share/bison/skeletons/glr.c:2186-2277 | Recovery is only entered with one live stack. If no error was just recovered from, that stack is cut down to its topmost state that shifts the error token, which is shifted, and the lookahead is kept; otherwise the stack stays, and the lookahead and the tokens after it are dropped up to the first one on which the state acts. At the end marker, or without such a state, the parse is aborted. |
| GlrInvariant.UndeleteSound | msys2/usr/share/bison/skeletons/glr.c:1233-1243 | With no stack left, the pointer to the last deleted stack was not left behind by a move of the items, and its stack is one the automaton can go on with. |
| GlrInvariant.LaterWorks | msys2/usr/share/bison/skeletons/glr.c:1421-1488 | A reduction whose action is put off keeps shape, links, positions and alternatives, and the other stacks; some stack stays live. |
| GlrInvariant.NowWorks | msys2/usr/share/bison/skeletons/glr.c:1421-1488 | So does a reduction whose action is run at once. |
| GlrShape.SplitOnPath | msys2/usr/share/bison/skeletons/glr.c:1213-1218 | The split point is on every stack, and everything at or below it is the same for all of them. |
| GlrReduce.ReducesLikeAutomaton | msys2/usr/share/bison/skeletons/glr.c:1421-1488 | A reduction of a stack is the reduction of the automaton on that stack. |
| GlrReduce.ReduceNowEffect | msys2/usr/share/bison/skeletons/glr.c:1369-1407 | The stack is reduced as the automaton reduces it, the other stacks stay, and shape and links are kept. |
| GlrReduce.ReduceLaterEffect | msys2/usr/share/bison/skeletons/glr.c:1421-1488 | A stack is given up if and only if another live stack has the state it would push, and that stack then contains all of the reduced stack; otherwise it is reduced as the automaton reduces it. The others stay. |
| GlrReduce.FindIsComplete | msys2/usr/share/bison/skeletons/glr.c:1446-1475 | The search finds a state to merge into if and only if there is one on the stack. |
| GlrStack.Stack.GlrReduce | msys2/usr/share/bison/skeletons/glr.c:1421-1488 | The reduction in place, with the action's result or the deferred alternative; it fails exactly if a state was pushed and there is no room for two more items, and otherwise two are free. |
| GlrStack.Stack.PopRightHandSide | msys2/usr/share/bison/skeletons/glr.c:1369-1407 | A single stack gives its items back, used and free items staying the array's size; otherwise the chain is followed and the split point moves down if need be. |
| GlrStack.Stack.Reserve | msys2/usr/share/bison/skeletons/glr.c:1137-1200 | It fails if and only if fewer than two items are free and the limit leaves no room for two more, or the one size asked for is refused; after success two items are free if at least two were used. A move leaves everything but the pointer to the last deleted stack as it was. |
| GlrStack.Stack.GlrShift | msys2/usr/share/bison/skeletons/glr.c:1282-1301 | The state goes on top of its stack; the shift fails exactly if there is no room for two more items, and otherwise two are free. |
| GlrStack.Stack.GlrShiftDefer | msys2/usr/share/bison/skeletons/glr.c:1303-1319 | Two items are taken on one check; it fails exactly if there is no room for two more, and otherwise two are free. |
| GlrStack.Stack.RemoveDeletedStacks | msys2/usr/share/bison/skeletons/glr.c:1243-1272 | The entries of live stacks move up in order, in place; the rest of the flags stays. |
| GlrStack.Stack.SplitOffStack | msys2/usr/share/bison/skeletons/glr.c:1489-1529 | A copy of the stack becomes the last one, with its flag; the first split fixes the split point. |
| GlrStack.Stack.PopToErrorState | msys2/usr/share/bison/skeletons/glr.c:2240-2275 | A single stack gives items back down to the topmost state that shifts the error token. |
| GlrStack.Begin | msys2/usr/share/bison/skeletons/glr.c:2313-2323 | After the first shift there is headroom if and only if YYINITDEPTH is at least 3. |
| GlrStack.Stack.CompressStack | msys2/usr/share/bison/skeletons/glr.c:1916-1944 | The reversal and the copy over the same array leave the specified stack: no state is overwritten before it is copied, and used and free items stay the array's size. |
| GlrCompress.CompressKeepsStack | msys2/usr/share/bison/skeletons/glr.c:1916-1944 | Compression leaves one stack without gaps, with the same LR states, positions and semantics from bottom to top. |
| GlrCompress.NoDanglingIff | msys2/usr/share/bison/skeletons/glr.c:1916-1944 | After compression no state refers to alternatives that were given back if and only if no state on the stack referred to any before. |
| GlrDangling.DanglingAlternatives | msys2/usr/share/bison/skeletons/glr.c:1916-1944 | On a legal stack with two unresolved states, resolution fails at the lower one, and after compression the upper one refers to an alternative that was given back. |
| GlrOptions.MergeChains | msys2/usr/share/bison/skeletons/glr.c:1555-1602 | Two decreasing chains that may share a tail are merged in place into the decreasing union of both, and other chains stay; the loop ends. |
| GlrOptions.MergeStates | msys2/usr/share/bison/skeletons/glr.c:1555-1602 | Afterwards both states have the same value or the same chain: a value that one of them had, or the union. |
| GlrOptions.UnionMembers | msys2/usr/share/bison/skeletons/glr.c:1555-1602 | The union has exactly the alternatives of both chains. |
| GlrOptions.UnionDecreases | msys2/usr/share/bison/skeletons/glr.c:1555-1602 | It is decreasing, so it has every alternative once. |
| GlrResolve.MergeOptionSets | msys2/usr/share/bison/skeletons/glr.c:1555-1602 | The right-hand sides of two identical alternatives end with the same semantics, state by state; no state loses its value or its last alternative. |
| GlrResolve.ScanOptions | msys2/usr/share/bison/skeletons/glr.c:1827-1858 | The scan, in place: whatever the alternatives share it ends and keeps everything legal, and if the chain is apart from what is merged, its verdict and the chain it leaves are those of the comparisons on the chain from before, which GlrVerdicts.VerdictIff describes. It finds an ambiguity only if two rules of the grammar clash. |
| GlrResolve.OutcomeIsBest | msys2/usr/share/bison/skeletons/glr.c:1607-1627 | If there is no ambiguity, which GlrVerdicts.AmbiguousIff says exactly, the comparisons choose the first alternative of the highest precedence among those that are left, and whether there are others of that precedence. |
| GlrVerdicts.VerdictIff | msys2/usr/share/bison/skeletons/glr.c:1815-1858 | What is left of a chain when options identical to the highest before them are taken out: the comparisons choose its highest option if and only if no option clashes with the highest one before it, and otherwise report the first that does, with that one. Two options clash if they have the same precedence and no common merger, or different precedences of which one is missing. |
| GlrVerdicts.AmbiguousIff | msys2/usr/share/bison/skeletons/glr.c:1607-1627 | The chain is ambiguous if and only if among what is left there are different precedences and one is missing, or two options of the highest precedence so far that have no common merger. |
| GlrVerdicts.DifferentPrecedences | msys2/usr/share/bison/skeletons/glr.c:1607-1627 | With precedences that are all there and all different nothing is ambiguous, nothing is merged, and the option of the highest precedence is chosen. |
| GlrRelocation.Expand | msys2/usr/share/bison/skeletons/glr.c:1137-1200 | The address arithmetic of YYRELOC makes every moved pointer name the same item as before. |
| GlrRounds.AcceptedStack | msys2/usr/share/bison/skeletons/glr.c:2330-2340 | A stack that comes to the final state holds the start symbol and the end marker. |

## Findings

Where the code does not do what its comments, its documentation or its constants say, the model
follows the code. Each line gives an input that shows it and the exact condition.

| where | as documented | input | what holds |
|---|---|---|---|
| msys2/usr/share/bison/skeletons/yacc.c:1709-1730 | `yynerrs` is the number of syntax errors reported. | `parse.lac` with verbose messages, the tables `LrTables.EXAMPLE` of a grammar with a nonassociative operator, and that operator where the state has an explicit error entry for it beside its default reduction: the error is counted, the check that its report makes rejects the token and jumps back, and it is counted again (`YaccErrors.CountedTwice`). | A report adds one if and only if it does not establish the context of the lookahead itself (`YaccErrors.CountedOnceIff`). |
| phpdev/vs16/x64/php-8.1.3-src/run-tests.php:1458-1461 | Tests that share a conflict key keep their order; here for the key "all". | Any suite with two tests with that key: the list of the other tests is reversed before it is popped, the list of these is not (`SchedulerSequential.AllsRunInReverse`). | A finished run keeps their order if and only if there is at most one (`SchedulerSequential.AllsKeepOrderIff`). |
| phpdev/vs16/x64/php-8.1.3-src/run-tests.php:1599-1635 | Tests that share a conflict key keep their order. | Any two tests that share a key but not their first key, after a test that holds the two first keys and one without keys, on two workers: they wait in different queues, and the later queue is refilled on top (`SchedulerOrderLimits.LeadsMustAgree`). | All runs of a suite keep the order if tests that share a key list the same key first (`SchedulerOrder.OrderPreserved`); for any two tests that do not, there is such a suite. |
| phpdev/vs16/x64/php-8.1.3-src/run-tests.php:1624-1636 | With valgrind the batch size is 1. | Two pending tests without keys: the loop goes on while the batch is at most the batch size (`SchedulerTheorems.ValgrindBatchOfTwo`). | A batch has one test more than the batch size if and only if more than the batch size are free (`SchedulerTheorems.BatchExceedsIff`). |
| msys2/usr/share/bison/skeletons/glr.c:2313-2323 | Two items are free after every allocation. | YYINITDEPTH 1 or 2: the array grows to twice the used size, from one used item to two. | Two items are free after the first shift if and only if YYINITDEPTH is at least 3 (`GlrStack.Begin`). |
| msys2/usr/share/bison/skeletons/glr.c:1137-1200 | Expanding the stack redirects all pointers to the new array. | Any move to another address after a stack was deleted: the pointer to the last deleted stack stays behind. | It names the same item if and only if the array did not move (`GlrRelocation.NotMovedIsStale`); it is never used while it is stale (`GlrInvariant.UndeleteSound`). |
| msys2/usr/share/bison/skeletons/glr.c:1916-1944 | After a failed resolution every state has consistent data. | A deferred action that ends in YYERROR below a state that still has alternatives: resolution stops there, recovery compresses the stack and gives their items back (`GlrDangling.DanglingAlternatives`). | No state refers to items that were given back if and only if no state on the stack referred to alternatives before (`GlrCompress.NoDanglingIff`); without a failed action that is always so (`GlrParser.Parse.ResolveStack`). |
| msys2/usr/share/bison/skeletons/lalr1.java:437-445 | `recovering()` tells whether error recovery is being done. | Any parser before its first token: the result is true (`JavaErrors.RecoveringAtTheStart`). | In every state of every run the result is true if and only if recovery was never begun, or at least three tokens were shifted since it was last begun (`JavaErrors.RecoveringIsReversed`). |

## Left out

- ArrayDiff.CountIsLcs: for budgets that are large enough only; with the budget of 10 that the diff uses, the count is a lower bound (`ArrayDiff.CountAtMostLcs`), and what follows for the diff is `ArrayDiffSize`.
- Locations, `@$`, `YYLLOC_DEFAULT`, `%printer`, debug traces, destructors: they do not influence control.
- Actions that change `yychar` (`YYBACKUP`, `yyclearin`) or the error status (`yyerrok`) without ending in YYERROR.
- The text of verbose messages, with the checks that lookahead correction makes for the tokens it would list; the count of tokens named and its limit.
- `malloc`, `free`, `setjmp` and `longjmp`: an allocation is a function of the requested size, and exhaustion is a result. `YYSTACK_ALLOC_MAXIMUM` and overflow of sizes.
- Termination of parsers on tables with cyclic reductions: a parse is followed for a given number of turns, and every statement holds at every such number. Lookahead correction is followed for a given number of reductions in the same way.
- YaccParser.Parse.CheckLookahead: what the parser does after a check that ran out of memory is only that it stops; a check that is followed for too few reductions is treated in the same way.
- GlrParser.YyParse: after an action failed during a resolution, a resolution that meets an unresolved state ends the modelled run, until recovery has popped all states that lack a value.
- GlrParser.YyParse: that no run is missed is stated up to the first recovery from an error; after it, states below the error token have the position of the whole stack, and a stack may be merged into one of them that was processed for an earlier token.
- GlrParser.YyParse: that the tables and the conflicts hold a run for every sentence of the grammar, which is for the generator to see to; and with immediate rules, that YYASSERT never finds a final state while several stacks are live.
- GlrValues.ResolveStates: the recursion is followed to a given depth; on tables with cyclic reductions it need not end. Values of nested alternatives are those of the same statement, for the scope of the nested state.
- `yyfill` and `yyfillin`: an action gets the semantics of its right-hand side, resolved or not. `yyresolveLocations`.
- The capacity of the array of stack tops in yysplitStack, and its reallocation.
- GLR parsers as sets of derivations: every state derives its tokens, but that its alternatives are all derivations of them is not stated.
- YaccProgress.FailsAreBounded: it counts errors that have a lookahead; without one only a state that acts without a lookahead and has no rule to reduce can fail, and generated tables have none (`YaccProgress.ErrorsHaveLookaheads`).
- Semantic values of GLR parsers are of any type without references to a heap.
- Stack exhaustion in the Java skeleton (arrays double without a limit) and exceptions of its lexer.
- The C++ skeletons, which are the same automaton or wrappers of it.
- Sockets, serialization, process control, worker errors, JUnit output, option parsing and the running of a single test in run-tests.php.
- Context lines of the diff and the comparison of a single line, which is a parameter; `$w` has as many lines as the expectation, as at the call.
- The conversion of line ends in an EXPECTF pattern, and the matching of the whole regular expression that results: what quoted text and each placeholder match is stated for these alone (`ExpectFMeaning`).
- ExpectFMeaning.PlaceholderMatches: what %f matches is stated as an expression only (`ExpectFMeaning.ExpansionIsMeaning`).
- Names of tests that PHP takes for false, such as "0", which would end the loops that pop them.
