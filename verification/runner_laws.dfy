/** What a judged run reports, when it stops, and what it earns. */
module RunnerLaws {
  import opened Options
  import opened Verdicts
  import opened Reals
  import opened Rounding
  import opened Runner

  // --------------------------------------------------------- Results, declaratively

  function Points(results: seq<TestOutcome>): int {
    if results == [] then 0 else Points(results[..|results| - 1]) + results[|results| - 1].points
  }

  function Slowest(results: seq<TestOutcome>): nat {
    if results == [] then 0 else Max(Slowest(results[..|results| - 1]), results[|results| - 1].timeMs)
  }

  function Largest(results: seq<TestOutcome>): nat {
    if results == [] then 0 else Max(Largest(results[..|results| - 1]), results[|results| - 1].memoryKb)
  }

  predicate Clean(results: seq<TestOutcome>) {
    forall i | 0 <= i < |results| :: results[i].verdict == AC
  }

  /** The first test that did not pass, or the number of tests when every one did. */
  function FirstFailure(results: seq<TestOutcome>): (n: nat)
    ensures n <= |results|
    ensures forall i | 0 <= i < n :: results[i].verdict == AC
    ensures n < |results| ==> results[n].verdict != AC
  {
    if results == [] then 0
    else
      var most := results[..|results| - 1];
      var n := FirstFailure(most);
      assert forall i | 0 <= i < |most| :: most[i] == results[i];
      if n < |most| then n else if results[|most|].verdict == AC then |results| else |most|
  }

  /** A run's report is a function of its results alone: first failure, total, slowest, largest. */
  function Summary(maxScore: int, results: seq<TestOutcome>): (o: JudgeOutcome)
    ensures o.tests == results && o.maxScore == maxScore
  {
    var n := FirstFailure(results);
    JudgeOutcome(if n < |results| then results[n].verdict else AC, Points(results), maxScore, Slowest(results),
                 Largest(results), if n < |results| then FailureMessage(results[n]) else "", results)
  }

  lemma RecordingSummarises(maxScore: int, results: seq<TestOutcome>, t: TestOutcome)
    ensures Recorded(Summary(maxScore, results), t) == Summary(maxScore, results + [t])
  {
    assert (results + [t])[..|results|] == results;
  }

  // ------------------------------------------------------------- Where a run ends

  predicate Passes(env: Environment, j: nat, partial: bool) {
    !env.asked(j) && env.run(j).Ran? && env.run(j).verdict != AB && (env.run(j).verdict == AC || partial)
  }

  /** Test k is begun: nothing before it was cancelled, raised, or failed on an all-or-nothing problem. */
  predicate Reaches(tests: seq<TestSpec>, partial: bool, env: Environment, k: nat)
    decreases k
  {
    k <= |tests| && (k > 0 ==> Reaches(tests, partial, env, k - 1) && Passes(env, k - 1, partial))
  }

  predicate Interrupts(env: Environment, k: nat) {
    env.asked(k) || (env.run(k).Ran? && env.run(k).verdict == AB)
  }

  /** The results of the first k tests. */
  function Results(tests: seq<TestSpec>, partial: bool, env: Environment, k: nat): (rs: seq<TestOutcome>)
    requires Reaches(tests, partial, env, k)
    ensures |rs| == k
    ensures forall i | 0 <= i < k :: rs[i].verdict != AB && (rs[i].verdict == AC || partial)
  {
    if k == 0 then [] else Results(tests, partial, env, k - 1) + [ResultOf(tests[k - 1], env.run(k - 1))]
  }

  lemma {:induction false} ReachesEarlier(tests: seq<TestSpec>, partial: bool, env: Environment, j: nat, k: nat)
    requires j < k && Reaches(tests, partial, env, k)
    ensures Reaches(tests, partial, env, j) && Passes(env, j, partial)
    ensures Results(tests, partial, env, k)[..j] == Results(tests, partial, env, j)
    ensures Results(tests, partial, env, k)[j] == ResultOf(tests[j], env.run(j))
  {
    if j < k - 1 {
      ReachesEarlier(tests, partial, env, j, k - 1);
      assert Results(tests, partial, env, k)[..j] == Results(tests, partial, env, k - 1)[..j];
    }
  }

  lemma {:induction false} AfterReaching(tests: seq<TestSpec>, partial: bool, env: Environment, k: nat)
    requires Reaches(tests, partial, env, k)
    ensures
      JudgedFrom(tests, partial, env, 0, Summary(MaxScore(tests), [])) ==
        JudgedFrom(tests, partial, env, k, Summary(MaxScore(tests), Results(tests, partial, env, k)))
  {
    hide Summary;
    if k > 0 {
      AfterReaching(tests, partial, env, k - 1);
      RecordingSummarises(MaxScore(tests), Results(tests, partial, env, k - 1), ResultOf(tests[k - 1], env.run(k - 1)));
    }
  }

  datatype Ending = RanOut | Interrupted | Crashed | GaveUp

  /** What is reported by a run that got through k tests and then ended in one of the four ways. */
  function Ended(tests: seq<TestSpec>, partial: bool, env: Environment, k: nat, how: Ending): Report
    requires Ends(tests, partial, env, k, how)
  {
    var results := Results(tests, partial, env, k);
    var most := MaxScore(tests);
    match how
    case RanOut => Report(Summary(most, results), results)
    case Interrupted => Report(Cancelled(Summary(most, results)), results)
    case Crashed => Report(Failed(IE, most, env.run(k).message), results)
    case GaveUp =>
      var more := results + [ResultOf(tests[k], env.run(k))];
      Report(Summary(most, more), more)
  }

  predicate Ends(tests: seq<TestSpec>, partial: bool, env: Environment, k: nat, how: Ending) {
    && Reaches(tests, partial, env, k)
    && (if how.RanOut? then k == |tests|
        else
          && k < |tests|
          && (Interrupts(env, k) <==> how.Interrupted?)
          && (how.Crashed? ==> env.run(k).Raised?)
          && (how.GaveUp? ==> env.run(k).Ran? && env.run(k).verdict != AC && !partial))
  }

  lemma HowARunEnds(tests: seq<TestSpec>, partial: bool, env: Environment) returns (k: nat, how: Ending)
    requires TurnedAway(tests, env) == None
    ensures Ends(tests, partial, env, k, how)
    ensures Judged(tests, partial, env) == Ended(tests, partial, env, k, how)
  {
    hide Summary;
    k := 0;
    while k < |tests| && Passes(env, k, partial)
      invariant Reaches(tests, partial, env, k)
    {
      k := k + 1;
    }
    how := if k == |tests| then RanOut else if Interrupts(env, k) then Interrupted
           else if env.run(k).Raised? then Crashed else GaveUp;
    AfterReaching(tests, partial, env, k);
    NothingYet(MaxScore(tests));
    if how == GaveUp {
      RecordingSummarises(MaxScore(tests), Results(tests, partial, env, k), ResultOf(tests[k], env.run(k)));
    }
  }

  lemma NothingYet(maxScore: int)
    ensures Summary(maxScore, []) == Failed(AC, maxScore, "")
  {
  }

  lemma FinishedIsNotAborted(maxScore: int, results: seq<TestOutcome>)
    requires forall i | 0 <= i < |results| :: results[i].verdict != AB
    ensures Summary(maxScore, results).verdict != AB
  {
  }

  /** A run that got past the compiler is reported as aborted exactly when a request, or a test stopped by one, was
      met at a test the run reached; and then it has no score, whatever had passed. */
  lemma AbortedExactlyWhenInterrupted(tests: seq<TestSpec>, partial: bool, env: Environment)
    requires TurnedAway(tests, env) == None
    ensures
      var outcome := Judged(tests, partial, env).outcome;
      && (outcome.verdict == AB <==> exists k: nat :: Ends(tests, partial, env, k, Interrupted))
      && (outcome.verdict == AB ==> outcome.score == 0 && outcome.message == "Cancelled.")
  {
    hide Summary;
    var k, how := HowARunEnds(tests, partial, env);
    var results := Results(tests, partial, env, k);
    FinishedIsNotAborted(MaxScore(tests), results);
    if how == GaveUp {
      FinishedIsNotAborted(MaxScore(tests), results + [ResultOf(tests[k], env.run(k))]);
    }
    if how != Interrupted {
      forall j: nat ensures !Ends(tests, partial, env, j, Interrupted) {
        if Ends(tests, partial, env, j, Interrupted) {
          if j < k {
            ReachesEarlier(tests, partial, env, j, k);
          } else if k < j {
            ReachesEarlier(tests, partial, env, k, j);
          }
          assert false;
        }
      }
    }
  }

  /** Unless something raised, what was published along the way is what the outcome lists. */
  lemma PublishedIsReported(tests: seq<TestSpec>, partial: bool, env: Environment)
    requires forall i :: env.run(i).Ran?
    ensures Judged(tests, partial, env).published == Judged(tests, partial, env).outcome.tests
  {
    if TurnedAway(tests, env) == None {
      var k, how := HowARunEnds(tests, partial, env);
    }
  }

  // ------------------------------------------------------ Stopping at the first failure

  ghost predicate Uninterrupted(env: Environment) {
    forall i :: !env.asked(i) && env.run(i).Ran? && env.run(i).verdict != AB
  }

  predicate Prefix(a: seq<TestOutcome>, b: seq<TestOutcome>) {
    |a| <= |b| && b[..|a|] == a
  }

  lemma {:induction false} PrefixScoresLess(a: seq<TestOutcome>, b: seq<TestOutcome>)
    requires Prefix(a, b) && forall i | 0 <= i < |b| :: b[i].points >= 0
    ensures Points(a) <= Points(b) && Slowest(a) <= Slowest(b) && Largest(a) <= Largest(b)
  {
    if |a| == |b| {
      assert a == b;
    } else {
      var most := b[..|b| - 1];
      assert Prefix(a, most);
      PrefixScoresLess(a, most);
    }
  }

  lemma FirstFailureIsFirst(results: seq<TestOutcome>, k: nat)
    requires k < |results| && results[k].verdict != AC
    requires forall i | 0 <= i < k :: results[i].verdict == AC
    ensures FirstFailure(results) == k
  {
  }

  /** Giving up at the first failure reports the same verdict and message as running everything, its results are a
      prefix of the full run's, and it scores and earns no more. */
  lemma StoppingEarlyChangesNoVerdict(tests: seq<TestSpec>, shares: seq<Share>, env: Environment)
    requires Uninterrupted(env) && Priced(shares)
    requires forall i | 0 <= i < |tests| :: tests[i].points >= 0
    ensures
      var early, full := Judged(tests, false, env).outcome, Judged(tests, true, env).outcome;
      && early.verdict == full.verdict && early.message == full.message && early.maxScore == full.maxScore
      && Prefix(early.tests, full.tests)
      && early.score <= full.score && early.timeMs <= full.timeMs && early.memoryKb <= full.memoryKb
      && (forall partial :: Earned(tests, early.tests, shares, partial) <= Earned(tests, full.tests, shares, partial))
      && Earned(tests, early.tests, shares, false) <= Earned(tests, full.tests, shares, true)
  {
    hide Summary, Earned, Judged;
    var early, full := Judged(tests, false, env).outcome, Judged(tests, true, env).outcome;
    SameVerdict(tests, env);
    PrefixScoresLess(early.tests, full.tests);
    assert Passed(early.tests) <= Passed(full.tests) by {
      assert forall i | 0 <= i < |early.tests| :: early.tests[i] == full.tests[..|early.tests|][i];
    }
    forall partial ensures Earned(tests, early.tests, shares, partial) <= Earned(tests, full.tests, shares, partial) {
      MorePassesEarnMore(tests, early.tests, full.tests, shares, partial);
    }
    PartialIsKinder(tests, full.tests, shares);
  }

  lemma SameVerdict(tests: seq<TestSpec>, env: Environment)
    requires Uninterrupted(env)
    requires forall i | 0 <= i < |tests| :: tests[i].points >= 0
    ensures
      var early, full := Judged(tests, false, env).outcome, Judged(tests, true, env).outcome;
      && early.verdict == full.verdict && early.message == full.message && early.maxScore == full.maxScore
      && Prefix(early.tests, full.tests)
      && early.score == Points(early.tests) && full.score == Points(full.tests)
      && early.timeMs == Slowest(early.tests) && full.timeMs == Slowest(full.tests)
      && early.memoryKb == Largest(early.tests) && full.memoryKb == Largest(full.tests)
      && forall i | 0 <= i < |full.tests| :: full.tests[i].points >= 0
  {
    hide Judged, JudgedFrom, Summary, Points, Slowest, Largest;
    if TurnedAway(tests, env) == None {
      var full, m := EarlyIsCut(tests, env);
      SummaryTotals(MaxScore(tests), full);
      SummaryTotals(MaxScore(tests), full[..m]);
      if m < |full| {
        AtFirstFailure(MaxScore(tests), full, m - 1);
      } else {
        assert full[..m] == full;
      }
    } else {
      TurnedAwayReports(tests, env);
    }
  }

  /** The run that gives up reports the results of the full run, cut after the first failure. */
  lemma EarlyIsCut(tests: seq<TestSpec>, env: Environment) returns (full: seq<TestOutcome>, m: nat)
    requires Uninterrupted(env) && TurnedAway(tests, env) == None
    requires forall i | 0 <= i < |tests| :: tests[i].points >= 0
    ensures Judged(tests, true, env).outcome == Summary(MaxScore(tests), full)
    ensures m <= |full| && Judged(tests, false, env).outcome == Summary(MaxScore(tests), full[..m])
    ensures m < |full| ==> m > 0 && full[m - 1].verdict != AC && forall i | 0 <= i < m - 1 :: full[i].verdict == AC
    ensures forall i | 0 <= i < |full| :: full[i].points >= 0
  {
    hide Judged, JudgedFrom, Summary;
    var k, how := HowARunEnds(tests, false, env);
    var n, ends := HowARunEnds(tests, true, env);
    assert ends.RanOut? && (how.RanOut? || how.GaveUp?);
    full := Results(tests, true, env, n);
    SameResults(tests, env, k, n);
    forall i | 0 <= i < n ensures full[i].points >= 0 {
      ReachesEarlier(tests, true, env, i, n);
    }
    forall i | 0 <= i < k ensures full[i].verdict == AC {
      assert full[..k][i] == Results(tests, false, env, k)[i];
    }
    if how.GaveUp? {
      ReachesEarlier(tests, true, env, k, n);
      m := k + 1;
      assert full[..m] == full[..k] + [full[k]];
    } else {
      m := k;
    }
  }

  lemma AtFirstFailure(maxScore: int, full: seq<TestOutcome>, k: nat)
    requires k < |full| && full[k].verdict != AC
    requires forall i | 0 <= i < k :: full[i].verdict == AC
    ensures Summary(maxScore, full[..k + 1]).verdict == Summary(maxScore, full).verdict
    ensures Summary(maxScore, full[..k + 1]).message == Summary(maxScore, full).message
  {
    FirstFailureIsFirst(full[..k + 1], k);
    FirstFailureIsFirst(full, k);
  }

  lemma SummaryTotals(maxScore: int, results: seq<TestOutcome>)
    ensures
      var o := Summary(maxScore, results);
      o.score == Points(results) && o.timeMs == Slowest(results) && o.memoryKb == Largest(results)
  {
  }

  lemma TurnedAwayReports(tests: seq<TestSpec>, env: Environment)
    requires TurnedAway(tests, env).Some?
    ensures TurnedAway(tests, env).value.tests == [] && TurnedAway(tests, env).value.score == 0
    ensures TurnedAway(tests, env).value.timeMs == 0 && TurnedAway(tests, env).value.memoryKb == 0
    ensures Points([]) == 0 && Slowest([]) == 0 && Largest([]) == 0
    ensures forall partial :: Judged(tests, partial, env) == Report(TurnedAway(tests, env).value, [])
  {
  }

  lemma {:induction false} SameResults(tests: seq<TestSpec>, env: Environment, k: nat, n: nat)
    requires k <= n && Reaches(tests, false, env, k) && Reaches(tests, true, env, n)
    ensures Results(tests, true, env, n)[..k] == Results(tests, false, env, k)
  {
    if k > 0 {
      SameResults(tests, env, k - 1, n);
      ReachesEarlier(tests, true, env, k - 1, n);
    }
  }

  // ------------------------------------------------------------------- Earning

  predicate Priced(shares: seq<Share>) {
    forall i | 0 <= i < |shares| :: shares[i].percent >= 0
  }

  function TotalShare(shares: seq<Share>): int {
    if shares == [] then 0 else TotalShare(shares[..|shares| - 1]) + shares[|shares| - 1].percent
  }

  lemma {:induction false} MorePaid(tests: seq<TestSpec>, a: set<nat>, b: set<nat>, shares: seq<Share>)
    requires a <= b && Priced(shares)
    ensures 0 <= PaidShares(tests, a, shares) <= PaidShares(tests, b, shares) <= TotalShare(shares)
  {
    if shares != [] {
      MorePaid(tests, a, b, shares[..|shares| - 1]);
    }
  }

  lemma {:induction false} MoreCounted(tests: seq<TestSpec>, a: set<nat>, b: set<nat>)
    requires a <= b
    ensures CountPassed(tests, a) <= CountPassed(tests, b) <= |tests|
    ensures CountPassed(tests, b) == |tests| <==> EveryPassed(tests, b)
  {
    if tests != [] {
      MoreCounted(tests[..|tests| - 1], a, b);
    }
  }

  lemma OverOfHundred(whole: nat)
    requires whole > 0
    ensures Over((100 * whole) as real, whole as real) == 100.0
  {
    TimesOver(100.0, whole as real);
  }

  lemma PercentageOrder(a: nat, b: nat, whole: nat)
    requires a <= b <= whole && whole > 0
    ensures 0 <= Percentage(a, whole) <= Percentage(b, whole) <= 100
    ensures b == whole ==> Percentage(b, whole) == 100
  {
    hide Over;
    var n := whole as real;
    var x, y := Over((100 * a) as real, n), Over((100 * b) as real, n);
    OverMonotone(0.0, (100 * a) as real, n);
    OverMonotone((100 * a) as real, (100 * b) as real, n);
    OverMonotone((100 * b) as real, (100 * whole) as real, n);
    OverUnit(n);
    OverOfHundred(whole);
    RoundIsMonotone(x, y);
    RoundKeepsIntegerBounds(x, 0, 100);
    RoundKeepsIntegerBounds(y, 0, 100);
  }

  /** Passing more never earns less, in any of the three regimes, and what is earned is a percentage. */
  lemma MorePassesEarnMore(tests: seq<TestSpec>, a: seq<TestOutcome>, b: seq<TestOutcome>, shares: seq<Share>,
                           partial: bool)
    requires Passed(a) <= Passed(b) && Priced(shares)
    ensures 0 <= Earned(tests, a, shares, partial) <= Earned(tests, b, shares, partial) <= 100
  {
    if tests != [] {
      MorePaid(tests, Passed(a), Passed(b), shares);
      var scored := Scored(tests);
      MoreCounted(scored, Passed(a), Passed(b));
      PercentageOrder(CountPassed(scored, Passed(a)), CountPassed(scored, Passed(b)), |scored|);
    }
  }

  lemma PartialIsKinder(tests: seq<TestSpec>, results: seq<TestOutcome>, shares: seq<Share>)
    requires Priced(shares)
    ensures Earned(tests, results, shares, false) <= Earned(tests, results, shares, true)
  {
    MorePassesEarnMore(tests, results, results, shares, true);
    if tests != [] {
      var scored := Scored(tests);
      MoreCounted(scored, Passed(results), Passed(results));
      PercentageOrder(CountPassed(scored, Passed(results)), CountPassed(scored, Passed(results)), |scored|);
    }
  }

  predicate Covered(tests: seq<TestSpec>, shares: seq<Share>) {
    forall i | 0 <= i < |shares| :: HasTest(tests, shares[i].group)
  }

  /** What the whole of a set of shares pays, and when. */
  lemma {:induction false} AllPaidExactlyWhen(tests: seq<TestSpec>, passed: set<nat>, shares: seq<Share>)
    requires Priced(shares)
    ensures PaidShares(tests, passed, shares) <= TotalShare(shares)
    ensures PaidShares(tests, passed, shares) == TotalShare(shares) <==>
            forall i | 0 <= i < |shares| && shares[i].percent > 0 :: GroupPassed(tests, passed, shares[i].group)
  {
    if shares != [] {
      AllPaidExactlyWhen(tests, passed, shares[..|shares| - 1]);
    }
  }

  /** With shares that add up to a hundred, everything is earned exactly when every group worth something passed. */
  lemma SubtasksEarnAllExactlyWhen(tests: seq<TestSpec>, results: seq<TestOutcome>, shares: seq<Share>, partial: bool)
    requires tests != [] && Priced(shares) && TotalShare(shares) == 100
    ensures Earned(tests, results, shares, partial) == 100 <==>
            forall i | 0 <= i < |shares| && shares[i].percent > 0 ::
              GroupPassed(tests, Passed(results), shares[i].group)
  {
    AllPaidExactlyWhen(tests, Passed(results), shares);
    assert shares != [];
  }

  lemma EveryPassedIfClean(tests: seq<TestSpec>, partial: bool, env: Environment)
    requires Reaches(tests, partial, env, |tests|)
    requires forall i | 0 <= i < |tests| :: env.run(i).Ran? && env.run(i).verdict == AC
    ensures EveryPassed(tests, Passed(Results(tests, partial, env, |tests|)))
  {
    var results := Results(tests, partial, env, |tests|);
    forall i | 0 <= i < |tests| ensures tests[i].idx in Passed(results) {
      ReachesEarlier(tests, partial, env, i, |tests|);
      assert results[i].verdict == AC && results[i].idx == tests[i].idx;
    }
  }

  lemma {:induction false} HiddenAreTests(tests: seq<TestSpec>)
    ensures forall i | 0 <= i < |Hidden(tests)| :: Hidden(tests)[i] in tests
  {
    if tests != [] {
      HiddenAreTests(tests[..|tests| - 1]);
    }
  }

  /** Passing every test earns exactly everything: with no subtasks, or with shares that add up to a hundred over
      groups that each have a test. */
  lemma AllAcceptedEarnsAll(tests: seq<TestSpec>, shares: seq<Share>, partial: bool, env: Environment)
    requires TurnedAway(tests, env) == None && Uninterrupted(env)
    requires forall i | 0 <= i < |tests| :: env.run(i).Ran? && env.run(i).verdict == AC
    requires Priced(shares) && Covered(tests, shares) && (shares != [] ==> TotalShare(shares) == 100)
    ensures
      var outcome := Judged(tests, partial, env).outcome;
      && outcome.verdict == AC && outcome.score == outcome.maxScore == MaxScore(tests)
      && Earned(tests, outcome.tests, shares, partial) == 100
  {
    hide Judged, JudgedFrom, Summary, Earned;
    var k, how := HowARunEnds(tests, partial, env);
    assert how == RanOut by {
      assert !Interrupts(env, k);
    }
    var results := Results(tests, partial, env, k);
    FullMarks(tests, partial, env, k);
    assert tests[..k] == tests;
    CleanSummary(MaxScore(tests), results);
    EveryPassedIfClean(tests, partial, env);
    EveryPassEarnsAll(tests, results, shares, partial);
  }

  lemma CleanSummary(maxScore: int, results: seq<TestOutcome>)
    requires forall i | 0 <= i < |results| :: results[i].verdict == AC
    ensures Summary(maxScore, results).verdict == AC && Summary(maxScore, results).score == Points(results)
  {
  }

  lemma EveryPassEarnsAll(tests: seq<TestSpec>, results: seq<TestOutcome>, shares: seq<Share>, partial: bool)
    requires tests != [] && EveryPassed(tests, Passed(results))
    requires Priced(shares) && Covered(tests, shares) && (shares != [] ==> TotalShare(shares) == 100)
    ensures Earned(tests, results, shares, partial) == 100
  {
    hide Passed;
    var passed := Passed(results);
    if shares != [] {
      SubtasksEarnAllExactlyWhen(tests, results, shares, partial);
    } else {
      HiddenAreTests(tests);
      var scored := Scored(tests);
      MoreCounted(scored, passed, passed);
      PercentageOrder(|scored|, |scored|, |scored|);
    }
  }

  lemma OneMorePoint(results: seq<TestOutcome>, t: TestOutcome)
    ensures Points(results + [t]) == Points(results) + t.points
  {
    assert (results + [t])[..|results|] == results;
  }

  lemma OneMoreScore(tests: seq<TestSpec>, n: nat)
    requires n < |tests|
    ensures MaxScore(tests[..n + 1]) == MaxScore(tests[..n]) + tests[n].points
  {
    assert tests[..n + 1][..n] == tests[..n];
  }

  lemma {:induction false} FullMarks(tests: seq<TestSpec>, partial: bool, env: Environment, n: nat)
    requires Reaches(tests, partial, env, n)
    requires forall i | 0 <= i < n :: env.run(i).Ran? && env.run(i).verdict == AC
    ensures Points(Results(tests, partial, env, n)) == MaxScore(tests[..n])
    ensures forall i | 0 <= i < n :: Results(tests, partial, env, n)[i].verdict == AC
  {
    hide Points, MaxScore;
    if n == 0 {
      NoMarks(tests);
    } else {
      FullMarks(tests, partial, env, n - 1);
      OneMorePoint(Results(tests, partial, env, n - 1), ResultOf(tests[n - 1], env.run(n - 1)));
      OneMoreScore(tests, n - 1);
    }
  }

  lemma NoMarks(tests: seq<TestSpec>)
    ensures Points([]) == 0 && MaxScore(tests[..0]) == 0
  {
  }

  /** A partial problem without subtasks pays a rounded share, so on a large test set a few failures still round up
      to everything: it pays 100 exactly when two hundred times the failures are no more than the tests. */
  lemma PartialEarnsAllExactlyWhen(tests: seq<TestSpec>, results: seq<TestOutcome>)
    requires tests != []
    ensures
      var scored := Scored(tests);
      var failed := |scored| - CountPassed(scored, Passed(results));
      Earned(tests, results, [], true) == 100 <==> 200 * failed <= |scored|
  {
    var scored := Scored(tests);
    var passed := CountPassed(scored, Passed(results));
    MoreCounted(scored, Passed(results), Passed(results));
    PercentageOrder(passed, passed, |scored|);
    NearlyAll(passed, |scored|);
    RoundsToHundred(Over((100 * passed) as real, |scored| as real));
  }

  lemma NearlyAll(passed: nat, whole: nat)
    requires passed <= whole && whole > 0
    ensures Over((100 * passed) as real, whole as real) >= 99.5 <==> 200 * (whole - passed) <= whole
    ensures Over((100 * passed) as real, whole as real) <= 100.5
  {
    hide Over, Times;
    var n, x := whole as real, Over((100 * passed) as real, whole as real);
    OverTimes((100 * passed) as real, n);
    ScaledBy(99.5, n);
    OverMonotone((100 * passed) as real, (100 * whole) as real, n);
    OverOfHundred(whole);
    if x >= 99.5 {
      TimesMonotone(n, 99.5, x);
    } else {
      TimesPositive(99.5 - x, n);
      SumOverTimes(99.5, x, n);
    }
  }

  lemma ScaledBy(c: real, n: real)
    ensures Times(c, n) == c * n
  {
  }

  lemma RoundsToHundred(x: real)
    requires x <= 100.5
    ensures Round(x) == 100 <==> x >= 99.5
  {
    if x >= 99.5 {
      RoundIsMonotone(99.5, x);
      RoundIsMonotone(x, 100.5);
    }
  }

  // ------------------------------------------------------------ A failure that still pays in full

  /** Hidden tests worth a point each, numbered from one. */
  function Numbered(n: nat): (tests: seq<TestSpec>)
    ensures |tests| == n && forall i | 0 <= i < n :: tests[i] == TestSpec(i + 1, 1, false, 0)
  {
    seq(n, i requires 0 <= i < n => TestSpec(i + 1, 1, false, 0))
  }

  /** A submission that fails its first test and passes every other. */
  const FIRST_FAILS := Environment(Preparation(None, None, None), false, Compiled, (i: nat) => false,
                                   (i: nat) => Ran(if i == 0 then WA else AC, 0, 0, ""))

  lemma {:induction false} NothingSampled(tests: seq<TestSpec>)
    requires forall i | 0 <= i < |tests| :: !tests[i].isSample
    ensures Hidden(tests) == tests
  {
    if tests != [] {
      NothingSampled(tests[..|tests| - 1]);
    }
  }

  lemma {:induction false} AllButTheFirst(n: nat, j: nat, passed: set<nat>)
    requires 1 <= j <= n && 1 !in passed && forall i | 2 <= i <= n :: i in passed
    ensures CountPassed(Numbered(n)[..j], passed) == j - 1
  {
    var tests := Numbered(n)[..j];
    assert tests[..j - 1] == Numbered(n)[..j - 1];
    if j == 1 {
      assert tests[..0] == [];
    } else {
      AllButTheFirst(n, j - 1, passed);
    }
  }

  lemma FirstFailsResults(n: nat)
    requires n >= 1
    ensures Reaches(Numbered(n), true, FIRST_FAILS, n)
    ensures
      var passed := Passed(Results(Numbered(n), true, FIRST_FAILS, n));
      1 !in passed && forall i | 2 <= i <= n :: i in passed
  {
    AllReached(n, n);
    var tests, results := Numbered(n), Results(Numbered(n), true, FIRST_FAILS, n);
    forall i | 0 <= i < n ensures results[i].idx == i + 1 && (results[i].verdict == AC <==> i != 0) {
      ReachesEarlier(tests, true, FIRST_FAILS, i, n);
    }
    forall i | 2 <= i <= n ensures i in Passed(results) {
      assert results[i - 1].idx == i && results[i - 1].verdict == AC;
    }
  }

  lemma {:induction false} AllReached(n: nat, k: nat)
    requires k <= n
    ensures Reaches(Numbered(n), true, FIRST_FAILS, k)
  {
    if k > 0 {
      AllReached(n, k - 1);
    }
  }

  /** On a partial problem of n tests, a run that fails its first test is not accepted, and is paid in full all the same
      exactly from two hundred tests on. */
  lemma OneFailurePaysInFullExactlyFromTwoHundred(n: nat)
    requires n >= 1
    ensures
      var outcome := Judged(Numbered(n), true, FIRST_FAILS).outcome;
      && outcome.verdict == WA && outcome.score == n - 1
      && (Earned(Numbered(n), outcome.tests, [], true) == 100 <==> n >= 200)
  {
    hide Judged, JudgedFrom, Summary, Earned, Results, Passed;
    var tests := Numbered(n);
    var k, how := HowARunEnds(tests, true, FIRST_FAILS);
    assert how == RanOut;
    var results := Results(tests, true, FIRST_FAILS, n);
    FirstFailsResults(n);
    NothingSampled(tests);
    AllButTheFirst(n, n, Passed(results));
    assert tests[..n] == tests;
    PartialEarnsAllExactlyWhen(tests, results);
    FirstFailsSummary(n);
  }

  lemma FirstFailsSummary(n: nat)
    requires n >= 1 && Reaches(Numbered(n), true, FIRST_FAILS, n)
    ensures
      var o := Summary(MaxScore(Numbered(n)), Results(Numbered(n), true, FIRST_FAILS, n));
      o.verdict == WA && o.score == n - 1
  {
    hide Summary, Points, Results, MaxScore;
    var tests, results := Numbered(n), Results(Numbered(n), true, FIRST_FAILS, n);
    ReachesEarlier(tests, true, FIRST_FAILS, 0, n);
    FailsAtOnce(MaxScore(tests), results);
    FirstFailsPoints(n, n);
  }

  lemma FailsAtOnce(maxScore: int, results: seq<TestOutcome>)
    requires results != [] && results[0].verdict != AC
    ensures Summary(maxScore, results).verdict == results[0].verdict
    ensures Summary(maxScore, results).score == Points(results)
  {
    hide Points, Slowest, Largest, FailureMessage;
    FirstFailureIsFirst(results, 0);
  }

  lemma {:induction false} FirstFailsPoints(n: nat, j: nat)
    requires 1 <= j <= n && Reaches(Numbered(n), true, FIRST_FAILS, j)
    ensures Points(Results(Numbered(n), true, FIRST_FAILS, j)) == j - 1
  {
    var results := Results(Numbered(n), true, FIRST_FAILS, j);
    if j == 1 {
      assert results[..0] == [];
    } else {
      FirstFailsPoints(n, j - 1);
      assert results[..j - 1] == Results(Numbered(n), true, FIRST_FAILS, j - 1);
    }
  }
}
