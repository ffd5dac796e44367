# Verified model of stroj

stroj is an online judge: submissions wait in a queue, a small pool of workers claims and judges them, and scores,
contest boards and ratings are computed from what comes back. This project models the parts of it whose behaviour
cannot be read off one function, and proves what they promise.

| files | what they hold |
|---|---|
| `submissions`, `cancel`, `worker` | the submissions table, the cancellation registry and one judge on the calling thread, as classes and methods proved against functions on values |
| `protocol*` | the judge queue as a state machine (any number of workers and abort clients, failing transactions, crashes and restarts) and what every run of it keeps: safety, publishing, what every row says for itself, cancels, late requests, abandoned rows, crash transparency |
| `runner`, `runner_*`, `testdata`, `testdata_*` | judging one submission, what its report says field by field, the share of the points it earns, and the archive its tests come from |
| `scoreboard*` | the contest board: one pass, its declarative reading over the table itself and that there is only one board, the freeze, places, what a result is worth |
| `rating*`, `uncertainty`, `replay*`, `settling` | one rated contest, its scale, what seasons of them do to the uncertainty, and the replay that rebuilds every rating |
| `scoring`, `standings*`, `overwriting`, `leaderboard` | the decayed score, a user's score over a history of results and under a result written over another, the leaderboard |
| `math_*`, `escape` | the formula tokenizer and recursive-descent parser, its grammar and markup, what the markup shows and which tokens each element stands for, what it falls back on, and the escapers around it; `math_unfold` and `math_literals` hold helper lemmas only |
| `ratelimit`, `labels` | the sliding-window limiter and the problem label printer |
| `sorting`, `selection`, `rounding`, `reals`, `options`, `verdicts` | shared definitions and laws |

How the source is rendered:

- Tables are sequences and maps; a transaction, or a section under a lock, is one step. In the protocol a submission's id
  is its position in the table. Each class method states its whole new state through the function the protocol steps use.
- A run of the protocol is a sequence of states linked by enabled steps from an empty table. A worker's position in
  `judge_submission` is a program counter; the list of results it has managed to publish is kept beside it. Compiling
  and running tests are arbitrary outcomes carried by the step, aborted ones only while the event is set; for crash
  transparency they are the same outcomes every time.
- Floats are exact reals and `round` is round-half-to-even. Ten to a power and the square root are functions of which only
  the laws in `Rating.Maths.Sound` are used: powers multiply, grow and take one to ten, roots square back. The growth constant enters as its square, which is rational.
- Clocks, the contents of test runs and name orders are parameters.
- An exception from an environment name the renderer cannot take apart is a flag that discards the parse, since nothing
  but the returned markup leaves the parser.

Where the code does not do what its documentation, or a first reading, says:

- The limiter's wait is documented as the time until the key is allowed again. It is the earliest such time exactly under
  the condition in `RateLimiting.WaitIsEarliestExactlyWhen`, and always among callers who hit only after a zero check
  (`RateLimiting.DisciplinedWaitIsEarliest`); `RateLimiting.WaitCanBeShort` is a run where it is too short. Callers that
  check and then hit in two lock sections can put more than the limit into one window
  (`RateLimiting.TwoCallersCanOverrun`).
- A partial problem without subtasks pays 100 percent while up to one scored test in two hundred fails, because the share
  is rounded (`RunnerLaws.PartialEarnsAllExactlyWhen`); one failure pays in full from two hundred tests on
  (`RunnerLaws.OneFailurePaysInFullExactlyFromTwoHundred`).
- The board is documented to agree with the recorded share. A recorded zero reads as not recorded and falls back to the
  share of test points: `ScoreboardWorth.BoardShowsRecordExactlyWhen` says when the two agree, and
  `ScoreboardWorth.NothingEarnedShowsFifty` judges a run that earned nothing and stands at fifty.
- An abort that reads the row while it is being judged and asks after the worker has let go is answered "running", and its
  request stays in the map for the rest of the process: `ProtocolLate.LateRequestHappens` is such a run, and
  `ProtocolLate.LingeringWasLate` shows that nothing else leaves a request behind.
- When a worker fails on a submission and its fallback store fails too, the row says it is being judged until a restart
  (`ProtocolAbandoned.AbandonedExactlyWhen`).
- "Score never goes down" holds while results only improve. A result written over a better one can lower it:
  `Overwriting.ScoreFollowsTheBest` says exactly when, `Overwriting.LowerResultLowersTheScore` is an instance.
- Names that a table inherits from `Object.prototype` are found by the renderer: `\constructor` prints the source of a
  native function (`MathFallback.ConstructorPrintsObject`), and an environment with such a name raises, so that the whole
  formula prints as its own source (`MathFallback.ThrowsExactlyWhen`).

## Model

| member | source | states |
|---|---|---|
| `Submissions.Database.ClaimNext` | stroj/judge/worker.py:32-44 | claiming takes the first pending row, none before it being pending, marks it as being judged and touches nothing else; it finds nothing only when nothing is pending |
| `Submissions.Database.Clear` | stroj/judge/worker.py:169-179 | clearing leaves the row blank, with no tests, score, time, memory or message, and leaves its submission, verdict, share, total and stamp, and every other row |
| `Submissions.Database.PublishTest` | stroj/judge/worker.py:133-160 | publishing lists the test under its number, message cut, adds its points to the score and moves the maxima; no other test or row changes |
| `Submissions.Database.StoreOutcome` | stroj/judge/worker.py:91-130 | the row then carries the outcome column by column: verdict, score, total, time, memory, the message cut at 4096 characters, exactly the share given, the stamp, and the tests of the outcome by number |
| `Submissions.Database.RequeueStuck` | stroj/judge/worker.py:223-253 | every row that was being judged goes back to the queue blank, without share or stamp, no other row changes, and the answer is the number of such rows |
| `Submissions.Database.CancelPending` | stroj/api/routes_submissions.py:318-322 | exactly if it was still pending the row is turned to aborted, with its message and stamp; score, share and tests stay |
| `Cancel.CancelRegistry.Register` | stroj/judge/cancel.py:22-33 | the event returned is the one already mapped, or a new unset one that is mapped from then on |
| `Cancel.CancelRegistry.Request` | stroj/judge/cancel.py:36-44 | the mapped event, created if missing, ends up set, and no other event or mapping changes |
| `Cancel.CancelRegistry.Release` | stroj/judge/cancel.py:53-56 | the mapping is gone, the event itself untouched |
| `Worker.JudgeSubmission` | stroj/judge/worker.py:163-209 | alone, a claimed row ends carrying the report of its run column by column, with the share its passed tests are worth and none for a compile error or an abort, other rows untouched, the registry no longer tracking it |
| `Worker.Drain` | stroj/judge/worker.py:212-220 | every pending row is judged once and ends carrying the report of its run and its share, column by column, every other row is left alone, and the count is right |
| `Worker.AbortSubmission` | stroj/api/routes_submissions.py:292-327 | which answer is given when; a queued row is aborted with nothing left asked, a running one has its request in the map |
| `Worker.AskedIsAborted` | stroj/judge/worker.py:163-209 | a request that is there throughout ends any run that gets past the checks before compiling aborted, with no score, no share and no tests |
| `ProtocolSafety.EveryStateIsSafe` | stroj/judge/worker.py:32-209 | every reachable state, crashes and failures included, satisfies the invariant linking rows, workers, events and clients |
| `ProtocolSafety.WorkStep` | stroj/judge/worker.py:277-315 | a step of a worker, its failures and the fallback store included, keeps that invariant |
| `ProtocolSafety.AskStep` | stroj/api/routes_submissions.py:313-327 | a step of an abort client keeps that invariant |
| `ProtocolSafety.StepKeepsInv` | stroj/judge/worker.py:32-253 | each single step of a worker, client, submitter, crash or restart keeps that invariant |
| `ProtocolSafety.OneWorkerEach` | stroj/judge/worker.py:133-179 | a submission has at most one worker; from clearing on its header is the sum and maxima over exactly the tests it lists |
| `ProtocolPublish.StoringChangesNothingShown` | stroj/judge/worker.py:91-130 | over any run, a worker that since its claim had no publish fail and no test raise, and was not aborted, stores without changing a score, time, memory or listed test |
| `ProtocolPublish.PublishedIsShown` | stroj/judge/runner.py:492-502 | as long as no publish of a worker has failed since its claim, what it has published is what it has recorded |
| `ProtocolPublish.WasClaimed` | stroj/judge/worker.py:277-301 | every worker on a submission claimed it at a step of the run and has had it ever since |
| `ProtocolAbandoned.AbandonedExactlyWhen` | stroj/judge/worker.py:303-313 | a row is being judged with no worker on it exactly when, in this process, a worker failed and its fallback store failed too |
| `ProtocolSafety.NoWorkerIsStuck` | stroj/judge/worker.py:163-209 | in every reachable state a worker on a submission can take a step that is not a failure |
| `ProtocolSafety.WorkKeepsMapping` | stroj/judge/cancel.py:22-56 | no worker step takes a submission's event out of the map before its run is over |
| `ProtocolCancel.SettingPresses` | stroj/judge/cancel.py:36-44 | the event a client sets is still the mapped one, or no run can check any more |
| `ProtocolSafety.AskKeepsMapping` | stroj/api/routes_submissions.py:317-325 | no client step takes a submission's event out of the map while a run of it can still check |
| `ProtocolCancel.FinishedForever` | stroj/judge/worker.py:223-253 | a row with a result never changes again, across crashes, restarts and aborts |
| `ProtocolCancel.QueuedMeansNever` | stroj/api/routes_submissions.py:323-326 | after an answer of "queued" the row is aborted for good and no worker ever has it |
| `ProtocolCancel.NoCancelIsLost` | stroj/api/routes_submissions.py:313-327 | once a client has set the event, any later check by any run of that submission in the same process ends it aborted, score 0, earned 0, claimed or registered before or after |
| `ProtocolCancel.AbortIsStored` | stroj/judge/worker.py:203-209 | a run ended aborted is stored aborted with score 0 and earned 0, unless its store raises |
| `ProtocolLate.LateRequestLingers` | stroj/judge/cancel.py:53-56 | a request made after the submission's last release stays in the map until the process ends |
| `ProtocolLate.LateRequestHappens` | stroj/api/routes_submissions.py:313-327 | a run in which a client is answered "running" for a row that has its result, and its request stays |
| `ProtocolLate.LingeringWasLate` | stroj/judge/worker.py:203-209 | a submission left alone is still mapped only if a client made the mapping and nothing has released it since: no run leaves its own behind |
| `ProtocolCrash.CrashesLeaveNoTrace` | stroj/judge/worker.py:163-253 | under any interleaving, crashes and failed publishes, a finished row nobody tried to abort is exactly the undisturbed result, and a requeued row is as new |
| `ProtocolCrash.RunsAgree` | stroj/judge/worker.py:163-253 | two runs with different workers, crashes and timing store the same row for the same submission |
| `ProtocolCrash.AgreesWithDraining` | stroj/judge/worker.py:212-220 | and it is the row a single-threaded drain leaves |
| `ProtocolCrash.RestartAndDrain` | stroj/judge/worker.py:212-253 | after any run without aborts, stopped anywhere, restarting and draining leaves the whole table as draining everything submitted in one go |
| `ProtocolCrash.EverySubmissionIsKept` | stroj/judge/worker.py:32-253 | no submission is lost, repeated or reordered in any run |
| `ProtocolCrash.NobodyIsAbortedUnasked` | stroj/judge/runner.py:480-491 | a row is aborted only if a client tried to abort that submission |
| `ProtocolCrash.OwnOnCourse` | stroj/judge/worker.py:163-209 | each step of a worker keeps the rest of its run heading for the undisturbed result |
| `ProtocolStored.EveryStateSays` | stroj/judge/worker.py:32-253 | in every reachable state a queued row is blank, a row being judged has no share or total, and a finished row carries, column by column, a report that can be read off its own results, and the share those results are worth |
| `ProtocolStored.EarnedIsWhatIsListed` | stroj/judge/worker.py:91-109 | in every reachable state a finished row has exactly the share that the tests it lists as accepted are worth, and none if it is a compile error, aborted, unfinished or its problem is gone |
| `ProtocolStored.StoreCarriesReport` | stroj/judge/worker.py:91-130 | a store writes the report of the run that has ended, its share and the time into the row, column by column |
| `ProtocolStored.StampedWhenFinished` | stroj/judge/worker.py:98-109 | a row gets its result only in a worker's or a client's step, and its stamp is the time of that step |
| `ProtocolStored.RunningRowLists` | stroj/judge/worker.py:133-160 | while a submission is judged its row lists exactly what has been published, with the sum of its points and the slowest and largest of it |
| `Runner.Judge` | stroj/judge/runner.py:417-515 | the test loop computes the fold over tests, cancellations and exceptions, and publishes what it records |
| `Runner.EarnedPercent` | stroj/judge/runner.py:142-175 | the three regimes: whole subtasks, rounded share of scored tests, all or nothing |
| `RunnerLaws.HowARunEnds` | stroj/judge/runner.py:480-513 | every run gets through some tests and ends one of four ways, reporting the first failure, total, slowest and largest of its results |
| `RunnerLaws.RecordingSummarises` | stroj/judge/runner.py:492-512 | recording a test keeps the outcome equal to the summary of the results so far |
| `RunnerLaws.AbortedExactlyWhenInterrupted` | stroj/judge/runner.py:403-414 | a run is reported aborted if and only if a reached test met a request, and then scores 0 |
| `RunnerLaws.PublishedIsReported` | stroj/judge/runner.py:496-502 | what was published on the way is what the outcome lists |
| `RunnerLaws.StoppingEarlyChangesNoVerdict` | stroj/judge/runner.py:503-512 | stopping at the first failure gives the same verdict and message, a prefix of the results, and never scores or earns more |
| `RunnerLaws.SubtasksEarnAllExactlyWhen` | stroj/judge/runner.py:162-168 | with shares adding up to 100, everything is earned if and only if every subtask worth something passed |
| `RunnerLaws.AllAcceptedEarnsAll` | stroj/judge/runner.py:142-175 | passing every test is accepted, scores the maximum and earns exactly 100 |
| `RunnerLaws.MorePassesEarnMore` | stroj/judge/runner.py:160-175 | passing more never earns less, in every regime, and the share is between 0 and 100 |
| `RunnerLaws.PartialEarnsAllExactlyWhen` | stroj/judge/runner.py:170-174 | a partial problem without subtasks pays 100 if and only if 200 times the failures is at most the number of scored tests |
| `RunnerLaws.OneFailurePaysInFullExactlyFromTwoHundred` | stroj/judge/runner.py:170-174 | a run of n tests that fails its first and passes the rest is not accepted, and is paid 100 exactly when n is at least 200 |
| `RunnerReport.EveryReportTells` | stroj/judge/runner.py:417-515 | however a submission is judged, its report is read off its results, which are what the first tests ran to: verdict and message of the first failure by test number, sum, slowest and largest, or an ending without results |
| `RunnerReport.TurnedAwayExactlyWhen` | stroj/judge/runner.py:437-479 | when a submission is a compile error, aborted or turned away before its first test, and with what message |
| `RunnerReport.FailureNamesTest` | stroj/judge/runner.py:506-510 | the message of a failure holds the decimal number of the test, and what the test said if it said anything |
| `RunnerEarning.WhatIsEarned` | stroj/judge/runner.py:142-175 | the share is that of the subtasks passed in full, at most 100; or the nearest percentage of the hidden tests, picked in order, all tests if none is hidden; or everything for passing all of those |
| `RunnerEarning.NothingPassedEarnsNothing` | stroj/judge/runner.py:160-175 | passing nothing earns nothing, in every regime |
| `TestData.ResolvePercentages` | stroj/testdata.py:56-80 | shares all declared and adding up, none declared and split evenly, or the error that says which is wrong |
| `TestData.ParseZip` | stroj/testdata.py:104-174 | the one pass pairs, groups and orders exactly what the entries say, or reports the same error in the same order |
| `TestDataLaws.ResolvedExactlyWhen` | stroj/testdata.py:56-80 | shares resolve if and only if none is declared or all are and total 100; then they total 100 over the same subtasks |
| `TestDataLaws.EvenSplitAddsUp` | stroj/testdata.py:74-80 | an even split totals exactly 100, equal but for the last, which takes less than one point per subtask more |
| `TestDataLaws.AcceptedExactlyWhen` | stroj/testdata.py:126-153 | the archives accepted: some input, every input answered, no stray test beside subtasks, shares that resolve |
| `TestDataLaws.AcceptedTests` | stroj/testdata.py:155-174 | every input becomes one test with its own answer; samples first, then by subtask, then naturally |
| `TestDataEntries.TestsSayTheArchive` | stroj/testdata.py:104-174 | on the entries: one test for every key with an input, samples before others, then by ascending subtask, then naturally, each the last input and last answer under its key |
| `TestDataEntries.SharesSayTheArchive` | stroj/testdata.py:56-80 | on the entries: every share as its subtask last declared it, or 100 split evenly in whole percents over the ascending subtasks with the rest on the greatest |
| `TestDataEntries.RefusalSaysTheArchive` | stroj/testdata.py:126-153 | what each refusal names: the first five unanswered or stray keys in their order, exactly the subtasks without a share in ascending order, the wrong total |
| `TestDataEntries.LoadedSharesAscend` | stroj/judge/worker.py:79-88 | shares are loaded by subtask, ascending |
| `TestDataLaws.AcceptedArchiveIsScorable` | stroj/testdata.py:177-227 | as loaded back, tests are numbered apart, every subtask has a test, shares total 100, every hidden test is in a priced subtask |
| `TestDataLaws.AcceptedArchivePaysInFull` | stroj/judge/worker.py:47-88 | on any accepted archive all-accepted earns exactly 100, and with subtasks 100 means every subtask worth something passed |
| `TestDataLaws.TotalIgnoresOrder` | stroj/judge/worker.py:79-88 | the shares add up to the same total in whatever order they are loaded |
| `Scoreboard.Collect` | stroj/contest.py:245-293 | one pass over the submissions leaves in each row the fold of that contestant's own submissions |
| `Scoreboard.AddUp` | stroj/contest.py:293-303 | a row's totals are added up cell by cell, in any order |
| `Scoreboard.TotalsAreCellSums` | stroj/contest.py:293-303 | the sums over the cells are the sums over the problems, when every cell belongs to a problem and letters differ |
| `Scoreboard.Rank` | stroj/contest.py:306-327 | each place is one more than the number of rows strictly better, ties sharing it |
| `Scoreboard.Scoreboard` | stroj/contest.py:209-327 | the submissions counted are exactly the table rows of the contest made while it ran, in table order; the board has one correct row per contestant, totals adding up over its cells, in board order, with the place it deserves |
| `Scoreboard.QueryPicks` | stroj/contest.py:235-244 | the submissions counted are at strictly increasing positions of the table, at every position of this contest within its time and no other |
| `ScoreboardTable.BoardSaysTheTable` | stroj/contest.py:209-327 | on the table alone: who has a row, the attempts each cell stands for and what follows from them, the tie-break, the place counting the rows ahead, the order |
| `ScoreboardTable.CellsSayTheTable` | stroj/contest.py:245-293 | every cell is what the attempts of its contestant at its problem say, in table order, with those past the freeze only counted |
| `ScoreboardTable.WorthIsEarned` | stroj/contest.py:175-197 | what a submission is worth on the board is its recorded share, or the nearest percentage of its points if none is recorded |
| `ScoreboardTable.FreezesBeforeTheEnd` | stroj/contest.py:200-207 | the board hides exactly what was sent within the freeze minutes before the end, only while the contest runs and nobody lifted it |
| `ScoreboardTable.MinutesAreWhole` | stroj/contest.py:124-126 | minutes are the whole ones passed since the start, none before it |
| `ScoreboardLaws.OnePassIsDeclarative` | stroj/contest.py:259-293 | every cell is what its declarative reading says: attempts up to the first accepted, its minutes and penalty, or the best share |
| `ScoreboardLaws.LastImprovementIsLatest` | stroj/contest.py:271-281 | the IOI tie-break is the minute of the latest strict improvement |
| `ScoreboardLaws.BoardIsUnique` | stroj/contest.py:293-327 | with distinct usernames there is exactly one correct board |
| `ScoreboardWorth.BoardShowsRecordExactlyWhen` | stroj/contest.py:186-197 | the board shows the recorded share if and only if one is recorded, or there are no points, or at most half a percent of them scored |
| `ScoreboardWorth.NothingEarnedShowsFifty` | stroj/contest.py:186-197 | a run judged end to end whose one subtask failed earns nothing and shows fifty |
| `ScoreboardFreeze.FrozenCellIsTheOldCell` | stroj/contest.py:259-263 | past the freeze a cell gains a count and nothing else |
| `ScoreboardFreeze.FreezeKeepsLastImprovement` | stroj/contest.py:259-281 | the freeze does not move the tie-break |
| `ScoreboardFreeze.FrozenRowIsTheOldRow` | stroj/contest.py:235-305 | each frozen row resolves what the board from before the freeze resolved |
| `ScoreboardFreeze.FreezeKeepsEveryPlace` | stroj/contest.py:306-327 | everybody on the smaller board keeps their place although newcomers join with empty rows |
| `ScoreboardFreeze.FrozenResultsDoNotInterfere` | stroj/contest.py:235-263 | changing verdicts and scores of frozen submissions changes no board |
| `ScoreboardProgress.OwnKeyNeverWorsens` | stroj/contest.py:264-305 | one more judged submission never worsens its author's ICPC key or lowers their IOI total |
| `ScoreboardProgress.OwnPlaceNeverDrops` | stroj/contest.py:306-327 | so it never costs its author a place |
| `Rating.Compute` | stroj/rating.py:208-247 | the loop computes each entrant's change against everyone else as they stood at the start; what that change is, the `RatingScale` rows below say |
| `Rating.ExpectedPair` | stroj/rating.py:168-170 | two opponents' expected scores add up to one |
| `RatingScale.MoreIsExpectedOfTheStronger` | stroj/rating.py:168-170 | the expected score strictly rises with an entrant's rating and strictly falls with the opponent's |
| `RatingScale.FavouriteIsRatedHigher` | stroj/rating.py:168-170 | more than half is expected exactly of the higher rated |
| `RatingScale.FourHundredIsTenfold` | stroj/rating.py:168-170 | four hundred points multiply the odds by ten, from wherever they start |
| `RatingScale.TenInEleven` | stroj/rating.py:168-170 | equals are expected one half, four hundred points ahead exactly 10/11 |
| `RatingScale.SamePlaceMovesTheLowerMore` | stroj/rating.py:221-235 | with equal place, grown deviation and opponents the lower rated entrant gains strictly more before rounding |
| `RatingScale.OpponentsAreTheOthers` | stroj/rating.py:221-226 | the opponents are everybody else in the field, in order, and not oneself |
| `RatingScale.LearningGrowsWithTheField` | stroj/rating.py:187-197 | competing takes a quarter of the deviation away against eight opponents, more against more, never half |
| `RatingScale.FavouriteWins` | stroj/rating.py:208-247 | two settled entrants at 1400 and 1000: the favourite winning makes them 1402 and 998 |
| `RatingScale.UnderdogWins` | stroj/rating.py:208-247 | the underdog winning makes them 1382 and 1018 |
| `RatingLaws.ChangesAreConserved` | stroj/rating.py:221-235 | over any field the unrounded changes, each over its own K, sum to exactly zero |
| `RatingLaws.StoredChangesNearlyCancel` | stroj/rating.py:237-246 | with equal K the stored changes sum to within half a point each when nobody hits the floor, and never below that |
| `RatingBounds.GrownInRange` | stroj/rating.py:173-184 | waiting never shrinks a deviation and never takes it past 350 |
| `RatingBounds.ShrunkInRange` | stroj/rating.py:187-197 | competing never grows a deviation and never takes it below 50 |
| `RatingBounds.ChangeInRange` | stroj/rating.py:200-246 | ratings stay at the floor or above, deviations in range, no change exceeds K rounded up |
| `RatingBounds.WinnerAndLast` | stroj/rating.py:221-241 | a sole winner never falls and a sole last never rises |
| `RatingBounds.BetterPlacedEndsNoLower` | stroj/rating.py:221-241 | of two entrants equal in rating and grown deviation the better placed ends no lower |
| `RatingBounds.OrderDoesNotMatter` | stroj/rating.py:208-247 | permuting the field changes nobody's change |
| `Uncertainty.OneRoundContracts` | stroj/rating.py:173-197 | one shrink-then-grow round brings two variances closer by at least the retained factor squared, despite both clamps |
| `Uncertainty.RoundsContract` | stroj/rating.py:173-197 | over n rounds, by that factor to the n |
| `Uncertainty.WaitingAddsUp` | stroj/rating.py:173-184 | waiting a then b days is waiting a+b |
| `Uncertainty.NeverSettles` | stroj/rating.py:200-205 | with a gap between rounds K stays strictly above its settled value, and above 39 with a fortnight |
| `Uncertainty.SeasonEndsAtTheStandoff` | stroj/rating.py:173-205 | against eleven opponents a fortnight apart, K settles between 48 and 49 wherever one starts |
| `Uncertainty.SettledIsForgottenIn182Days` | stroj/rating.py:173-184 | a fully settled rating is back to knowing nothing after 182 idle days, and not before |
| `Replay.RatingTables.Recompute` | stroj/contest.py:388-463 | the rebuilt tables are the replay's, whatever was stored |
| `Replay.RatingTables.ReplayContest` | stroj/contest.py:409-452 | one contest: everybody's change from where they stood, written as rows in field order |
| `Replay.StoredRatingsDoNotMatter` | stroj/contest.py:398-407 | over given boards the rebuilt tables depend on nothing stored but which users and contests exist |
| `ReplayLaws.HistoryChains` | stroj/contest.py:409-452 | each user's rows chain from the start values, stay in range, and no change exceeds the K they arrived with, rounded up, through the whole replay |
| `ReplayLaws.RatingIsStartPlusDeltas` | stroj/contest.py:454-461 | the final rating is the start plus the sum of the deltas, the contest count is the number of rows |
| `ReplayLaws.LaterContestsOnlyAppend` | stroj/contest.py:409-452 | the rows of the first k contests are a prefix of the whole replay's |
| `ReplayLaws.OneContestWrites` | stroj/contest.py:409-452 | a contest of at least two writes one row per board row, in board order, with its place and the contest end, and one of fewer writes none |
| `ReplayLaws.RowsAreInTime` | stroj/contest.py:409-452 | the change rows never go back in time |
| `ReplayLaws.LastRatedIsLatest` | stroj/contest.py:454-461 | a user was last rated at the latest end among the contests that rated them, and their contest count is the number of those |
| `ReplayLaws.UsersStandAtTheirLastRow` | stroj/contest.py:454-461 | a user's rating, deviation and time are those of their last row, and with no row they stand at 1000, 350 and never |
| `Replay.DaysAreCounted` | stroj/contest.py:381-385 | whole days count as days, a later start as none, and nobody who never competed has waited |
| `Settling.RatedBoard` | stroj/contest.py:410-431 | a contest is rated on the places of its board with the freeze lifted |
| `Settling.RatedInOrder` | stroj/contest.py:371-378 | exactly the rated contests that have begun and ended are replayed, each by its end and then its id, on the fields |
| `Settling.RecomputeRatings` | stroj/contest.py:388-463 | the whole recompute settles the tables: the boards of the due contests, replayed oldest first, the change rows never going back in time, everybody last rated at the latest end among the contests that rated them |
| `Settling.SettledInTime` | stroj/contest.py:388-463 | over the tables: change rows in time, and everybody last rated at the latest end of a due contest in which they and somebody else tried a problem |
| `Settling.StampedExactlyWhenDue` | stroj/contest.py:388-463 | exactly the rated contests that have ended carry the stamp afterwards, every other loses it, and no contest or user comes or goes |
| `Settling.RatesOnTable` | stroj/contest.py:410-431 | a contest rates exactly those who tried one of its problems while it ran, if at least two did |
| `Settling.SettlingIsDetermined` | stroj/contest.py:388-463 | the contests, names and submissions leave one outcome, whatever ratings were stored |
| `Settling.TwiceIsOnce` | stroj/contest.py:388-389 | a second recompute with the same stamp leaves the tables unchanged |
| `Settling.ApplyFinishedRatings` | stroj/judge/worker.py:256-269 | the poll counts exactly the contests that are rated, over, not stamped and have nothing waiting, recomputes if there is one and touches nothing otherwise |
| `Settling.NothingAwaitsOnceSettled` | stroj/contest.py:499-520 | after a recompute nothing that had ended awaits rating, so polling again is harmless |
| `Scoring.ScoreIsTheBestOrder` | stroj/scoring.py:35-40 | the score ignores the input order and no other order of the same points scores more |
| `Scoring.ScoreHasACeiling` | stroj/scoring.py:18-20 | n solves worth at most M each: (1-d) times the score is at most M(1-d^n) |
| `Scoring.OneMoreSolve` | stroj/scoring.py:43-48 | a solve worth v on top of n adds at least v d^n and at most v |
| `Scoring.EasiestCountsLeast` | stroj/scoring.py:35-40 | nothing scores nothing, and a value no larger than the n others adds exactly v d^n: so the score is the hardest in full, the next decayed once, and so on |
| `Standings.GroupsAreBest` | stroj/scoring.py:117-126 | the grouped query holds each user's best result on each published problem scored on |
| `StandingsTable.ScoreSaysTheTable` | stroj/scoring.py:117-135 | on the table alone: a user's score is the decayed sum of one value for each published problem they scored on, the nearest whole points to the best result's share |
| `StandingsTable.WorthIsNearest` | stroj/scoring.py:127-135 | a result is worth the nearest whole number to its share of the points, and all of it all of them |
| `Standings.BetterEverywhereScoresMore` | stroj/scoring.py:213-221 | doing at least as well on every problem scores at least as much |
| `Standings.ScoreNeverGoesDown` | stroj/scoring.py:13-17 | no history of submissions, and of results that land at least as high as what they replace, lowers a user's score |
| `Overwriting.ScoreFollowsTheBest` | stroj/scoring.py:213-221 | whatever result replaces whatever result, its author's score falls, or rises, exactly when what their best on that problem is worth does |
| `Overwriting.OthersKeepTheirScore` | stroj/scoring.py:213-221 | and nobody else's score moves |
| `Overwriting.LowerResultLowersTheScore` | stroj/scoring.py:13-17 | one lower result can lower the score: a concrete table |
| `Standings.FirstResultGain` | stroj/scoring.py:43-48 | a first result worth v on top of n problems adds between v d^n and v |
| `Leaderboard.SolvedPointsByUser` | stroj/scoring.py:110-135 | the fold over the grouped rows gives each user the list of values and full solves their rows hold |
| `Leaderboard.BoardAgreesWithProfile` | stroj/scoring.py:110-135 | the leaderboard's points and the profile's are the same list, so the scores agree |
| `Leaderboard.Rank` | stroj/scoring.py:153-164 | each shown rank is one more than the number of strictly higher scores, and the list is cut as the limit says |
| `Leaderboard.Leaderboard` | stroj/scoring.py:138-164 | everyone who has scored appears once, best first up to the limit, with their name, role, score, full solves and hardest result, and a rank counting the strictly higher scores |
| `Leaderboard.SolvesDescribe` | stroj/scoring.py:138-152 | a row carries its user's name and role, the number of problems solved in full and the value of the hardest result |
| `Leaderboard.SharedScoresAreClose` | stroj/scoring.py:153-164 | scores that share a place are within a millionth, and the one shown higher is the higher one |
| `RateLimiting.RunIsSound` | stroj/ratelimit.py:41-75 | over any run on a clock that never goes back the deques refine the full history |
| `RateLimiting.HistoryIsTheHits` | stroj/ratelimit.py:64-75 | the history a key's deque stands for holds exactly the hits called on that key that no later reset has forgotten |
| `RateLimiting.CheckCountsTheHistory` | stroj/ratelimit.py:52-62 | a check answers 0 exactly when fewer than the limit of the hits called since the last reset, counted call by call, lie in the window |
| `RateLimiting.RecentAreCounted` | stroj/ratelimit.py:41-50 | the hits counted are those less than a whole window old and not in the future |
| `RateLimiting.OneHitShutsForTheWindow` | stroj/ratelimit.py:52-62 | a single hit shuts a limit of one until the very instant it is a window old |
| `RateLimiting.WaitIsEarliestExactlyWhen` | stroj/ratelimit.py:52-62 | exactly when the returned wait is the earliest instant the key is let in again |
| `RateLimiting.DisciplinedWaitIsEarliest` | stroj/ratelimit.py:52-62 | after any run of callers who hit only after a zero check, a positive wait is the earliest instant the key is let in |
| `RateLimiting.WaitCanBeShort` | stroj/ratelimit.py:52-62 | without that it can be too short: a concrete run, answered 8 seconds where 9 are needed |
| `RateLimiting.DisciplinedExactlyWhen` | stroj/ratelimit.py:52-70 | a run stays within the limit at every step if and only if each hit lands when a check would answer zero |
| `RateLimiting.UndisciplinedHitOverruns` | stroj/ratelimit.py:64-70 | a hit without room puts more than the limit into the window that ends with it |
| `RateLimiting.DisciplinedStaysWithinLimit` | stroj/ratelimit.py:52-70 | if every hit follows a zero check, no window ever exceeds the limit |
| `RateLimiting.TwoCallersCanOverrun` | stroj/ratelimit.py:52-70 | without that, two callers can exceed it: a concrete run |
| `RateLimiting.RateLimiter.Check` | stroj/ratelimit.py:52-62 | the method prunes one key's deque, answers from it, and changes no other key |
| `RateLimiting.RateLimiter.Hit` | stroj/ratelimit.py:64-70 | the method records one hit after pruning and changes no other key |
| `Labels.LabelFor` | stroj/api/routes_admin.py:1090-1096 | the loop prints the bijective base-26 numeral of the position |
| `Labels.LabelOfPosition` | stroj/api/routes_admin.py:1090-1096 | every nonempty A-Z string is the label of exactly the position it decodes to |
| `Labels.ValueIsInjective` | stroj/api/routes_admin.py:1090-1096 | different labels decode to different positions |
| `Labels.LabelsInOrder` | stroj/api/routes_admin.py:1090-1096 | labels run A, B, up to Z, then AA: a later position has the longer label or the one later in the alphabet |
| `Labels.ProblemSets.SetContestProblems` | stroj/api/routes_admin.py:1064-1087 | the first unknown problem, then clashing labels, then a repeated problem are refused with the old set kept; otherwise the other contests' rows stay in order and each problem follows under its own label or its position's |
| `Labels.AutomaticLabelsNeverClash` | stroj/api/routes_admin.py:1073-1078 | problems sent without labels get labels that never clash, however many |
| `Escape.UnescapeUndoesEscape` | stroj/web/latex.js:126-133 | the decoder undoes the statement escaper on every string, entities in it included |
| `Escape.EscapeUndoesUnescape` | stroj/web/app.js:8-9 | escaping undoes the decoder exactly on the texts the escaper can produce |
| `Escape.EscapedIsSafe` | stroj/web/app.js:8-9 | escaped text has no tag delimiter or quote, text without special characters is left alone, and each special character becomes the entity HTML has for it |
| `Escape.UnescapeUndoesMathEscape` | stroj/web/latex.js:135-136 | three replacements in a row lose nothing: decoding gives back the text |
| `Escape.MathEscapedIsSafe` | stroj/web/latex.js:135-136 | escaped text holds no tag delimiter |
| `MathTokens.Tokenize` | stroj/web/latex.js:150-194 | the loop computes the token list of the source |
| `MathTokens.TokensSpellTheSource` | stroj/web/latex.js:150-194 | the tokens spelled out are the source but for white space, for every source |
| `MathTokens.TokensArePlain` | stroj/web/latex.js:150-194 | numbers are digits and separators, identifiers and command names letters |
| `MathFractions.NumbersAreWhole` | stroj/web/latex.js:185-190 | a number is taken whole: no digit follows it, nor a separator with a digit after it |
| `MathParser.Parser.Row` | stroj/web/latex.js:214-222 | a row reads units up to its stop or to where nothing starts, and its markup is theirs |
| `MathParser.Parser.ScriptedAtom` | stroj/web/latex.js:225-252 | an atom with every script after it; the last of each kind is the one shown |
| `MathParser.Parser.Atom` | stroj/web/latex.js:402-452 | nothing exactly where no atom begins, else one construct of the grammar, consuming at least one token |
| `MathParser.Parser.CommandAfter` | stroj/web/latex.js:292-400 | a command takes exactly what its form says and prints it; which child is which stretch of tokens, the `MathSpans` rows below say |
| `MathParser.Parser.EnvironmentAfter` | stroj/web/latex.js:263-290 | an environment splits its units into rows and cells at the breaks |
| `MathParser.Parser.Parse` | stroj/web/latex.js:454-456 | the formula is read up to the end or to a brace or script that belongs to nothing |
| `MathUnique.FormulaIsUnique` | stroj/web/latex.js:196-456 | the grammar admits exactly one reading of any token list, so the parser's is the only one |
| `MathUnique.AtomIsUnique` | stroj/web/latex.js:402-452 | any construct read from a position is the only one that can be |
| `MathContent.FormulaIsSpoken` | stroj/web/latex.js:196-456 | for every token list, the texts and spaces the markup shows are those of its tokens, part by part in token order, except that the index of a root follows what stands under it and a `_` precedes a `^` |
| `MathOrder.ShownInTokenOrder` | stroj/web/latex.js:196-456 | formulas of leaves, groups, fractions, roots, variants and one `_` followed by one `^` show exactly what each of their tokens shows, token by token |
| `MathSpans.FractionSpans` | stroj/web/latex.js:314-318 | the first child of a fraction is the first argument after it, the second the one that begins where that ends |
| `MathSpans.BinomialSpans` | stroj/web/latex.js:319-325 | the same for a binomial, without a line and in parentheses |
| `MathSpans.SquareRootSpans` | stroj/web/latex.js:326-335 | a root without an index is what follows it |
| `MathSpans.RootSpans` | stroj/web/latex.js:326-335 | a root with an index shows what stands under it first, then the bracketed row, though that was written first |
| `MathSpans.DecorationSpans` | stroj/web/latex.js:365-376 | a modulus, brace or stack is its argument with its own mark where it belongs |
| `MathSpans.AccentSpans` | stroj/web/latex.js:383-396 | variants go around their argument, accents and the underline after it, stretched for the wide ones only |
| `MathSpans.GroupSpans` | stroj/web/latex.js:407-415 | a group is the row between its braces |
| `MathSpans.FencedSpans` | stroj/web/latex.js:352-360 | a fence is the token after it, the row up to its match, and the token after that |
| `MathSpans.ScriptSpans` | stroj/web/latex.js:225-252 | an atom with scripts is the atom, its last `_`, its last `^`, under the element that fits which there are |
| `MathSpans.PlainIsNotStacked` | stroj/web/latex.js:240-243 | numbers and identifiers never stack their scripts |
| `MathSpans.LimitsAreStacked` | stroj/web/latex.js:240-243 | big operators and functions with limits do in display math, and only there |
| `MathTables.RowsFollowBreaks` | stroj/web/latex.js:263-278 | the rows and cells of a table are exactly what the breaks among its tokens make of its units |
| `MathTables.TableSpans` | stroj/web/latex.js:263-290 | an environment is its fences around a table of those rows and cells |
| `MathTables.SymbolSpans` | stroj/web/latex.js:417-447 | which element a number, an identifier or an operator becomes, and with which sign |
| `MathTables.SignsAreUnary` | stroj/web/latex.js:426-433 | a sign is unary at the start and after an opening mark or another operator, and not after a number, an identifier or a closing mark |
| `MathTables.WordSpans` | stroj/web/latex.js:292-312 | which element a word becomes, by the first table that holds it, and what a word no table knows prints |
| `MathTables.PinnedText` | stroj/web/latex.js:138-148 | spaces at either end of a text become non-breaking and everything else stays |
| `MathTables.DelimitersShow` | stroj/web/latex.js:254-261 | a delimiter shows what the table of delimiters says, and without an entry a token itself but a command nothing |
| `MathFractions.FractionOfNumbers` | stroj/web/latex.js:465-478 | from source to characters: a fraction of two numbers renders with the first over the second and in no other way |
| `MathFractions.FormulaElement` | stroj/web/latex.js:465-478 | display math is a block and other math in line, in the MathML namespace |
| `MathFractions.RenderingShowsTokens` | stroj/web/latex.js:465-478 | whatever the source, its rendering shows what its tokens show, or the source itself if it falls back |
| `MathRender.PrintIsFine` | stroj/web/latex.js:208-456 | whatever the tree and tokens, the markup closes every element it opens and nothing else |
| `MathRender.ParseTokens` | stroj/web/latex.js:196-456 | for every token list, however malformed, parsing terminates with balanced markup |
| `MathRender.RenderMath` | stroj/web/latex.js:465-478 | rendering always returns; the result is that of the one reading of the source, its fallback or an empty formula, and its characters form tags that nest and match; what it shows, `MathFractions.RenderingShowsTokens` says |
| `MathMarkup.FlattenedIsRead` | stroj/web/latex.js:196-456 | reading only characters, the tags of safe markup nest exactly when its elements do |
| `MathFallback.OneRendering` | stroj/web/latex.js:465-478 | a source has one rendering |
| `MathFallback.ThrowsExactlyWhen` | stroj/web/latex.js:263-264 | a formula cannot be taken apart if and only if the part read holds a `begin` with an inherited name that no `left` or `right` takes as its delimiter |
| `MathFallback.InheritedBeginThrows` | stroj/web/latex.js:263-264 | such a token anywhere in the part read, unless right after a `left` or `right`, makes the renderer fall back |
| `MathFallback.InheritedCommandPrintsNative` | stroj/web/latex.js:292-295 | a command with an inherited name prints the source of a native function and nothing else |
| `MathFallback.ConstructorPrintsObject` | stroj/web/latex.js:292-295 | what `constructor` prints |
| `MathFallback.InheritedEnvironmentPrintsItself` | stroj/web/latex.js:470-472 | an environment with an inherited name, written alone, prints as its own escaped source |

## Left out

- Rejudge as a step of the queue: resets rows that may be running and leaves the recorded share alone; rejudged rows are outside the cancel claim.
- Stopping and starting the pool inside one process, where an old worker may outlive the join timeout; a restart here follows a crash.
- Deleting submissions and problems, and editing a problem's tests while it is being judged; the branches for a vanished submission and a missing problem are modelled.
- An abort client whose own UPDATE raises, and the ownership and administrator checks beyond whether the caller may cancel.
- Wall-clock liveness: poll intervals, wake-ups, thread joins and timeouts. Settling ratings while idle is modelled apart from the protocol.
- The sandbox, compilers, checkers, limit scaling, the warm-up run and file handling: one run is an arbitrary outcome.
- `judge` touching files before its try block: an exception there reaches the worker as one raised while loading.
- Zip decoding, path parsing and the subtask directory pattern: an archive starts as entries with subtask, declared share, stem and content. The natural order and what counts as a sample are parameters.
- TestData.ParseZip: keys are pairs of subtask and stem rather than one string with a slash.
- Standings.ScoreNeverGoesDown: a result landing lower than the one it replaces is outside its histories; a rejudge can do that, and Overwriting.ScoreFollowsTheBest says what it costs.
- Scoreboard.Collect: rows and cells are values in a map rather than shared mutable objects; visibility of the board and its display form are not modelled.
- RateLimiting.RateLimiter.Check: deques are sequences, so aliasing between a deque and the table is not captured; `clear` and the client key are left out.
- Rating.Compute: floating-point rounding inside the sums is not modelled; rank names, the ladder and placement counts are left out.
- Replay.RatingTables.Recompute: ids of rows in the rating table and the returned counts of changes and competitors are left out.
- Leaderboard.Rank: scores are compared exactly as rounded to six places but displayed values are not cut to one decimal.
- Solved-problem listings on profiles, rating history pages and per-problem rankings: display of values proved elsewhere.
- MathParser.Parser.CommandAfter: the symbol tables are parameters, so the theorems hold for every table; lone surrogates are not told apart from other characters.
- The rest of the web frontend, accounts, sessions, mail, deployment, backup and the command line.
