/** What a report says, field by field, and what its passes are worth, test by test. */
module RunnerReport {
  import opened Verdicts
  import opened Reals
  import opened Rounding
  import opened Selection
  import opened Runner
  import opened RunnerLaws

  // --------------------------------------------------------------------- Test numbers

  function Digit(c: char): int {
    c as int - '0' as int
  }

  predicate IsNumeral(s: string) {
    && s != [] && (forall i | 0 <= i < |s| :: '0' <= s[i] <= '9')
    && (|s| > 1 ==> s[0] != '0')
  }

  /** A numeral read from the left. */
  function NumberOf(s: string): int {
    if s == [] then 0 else 10 * NumberOf(s[..|s| - 1]) + Digit(s[|s| - 1])
  }

  lemma LastDigit(n: nat)
    ensures
      var c := (n % 10) as char + '0';
      '0' <= c <= '9' && Digit(c) == n % 10 && (c == '0' <==> n % 10 == 0)
  {
  }

  lemma OneMoreDigit(s: string, c: char)
    requires IsNumeral(s) && s[0] != '0' && '0' <= c <= '9'
    ensures IsNumeral(s + [c]) && (s + [c])[0] != '0' && NumberOf(s + [c]) == 10 * NumberOf(s) + Digit(c)
  {
    hide Digit;
    assert (s + [c])[..|s|] == s;
  }

  lemma OneDigit(c: char)
    requires '0' <= c <= '9'
    ensures IsNumeral([c]) && NumberOf([c]) == Digit(c)
  {
    assert [c][..0] == "";
  }

  lemma {:induction false} DecimalIsRead(n: nat)
    ensures IsNumeral(Decimal(n)) && NumberOf(Decimal(n)) == n
    ensures n > 0 ==> Decimal(n)[0] != '0'
  {
    hide Digit, NumberOf, IsNumeral;
    var c := (n % 10) as char + '0';
    LastDigit(n);
    if n < 10 {
      OneDigit(c);
      assert Decimal(n) == [c];
    } else {
      DecimalIsRead(n / 10);
      DecimalsAreNumerals(n / 10);
      OneMoreDigit(Decimal(n / 10), c);
    }
  }

  lemma DecimalsAreNumerals(n: nat)
    requires IsNumeral(Decimal(n))
    ensures Decimal(n) != ""
  {
  }

  /** The message names the test by its number, and says what the test said if it said anything. */
  ghost predicate NamesTest(message: string, t: TestOutcome) {
    exists number :: IsNumeral(number) && NumberOf(number) == t.idx
      && message == if t.message == "" then "Failed on test " + number else "Test " + number + ": " + t.message
  }

  lemma FailureNamesTest(t: TestOutcome)
    ensures NamesTest(FailureMessage(t), t)
  {
    DecimalIsRead(t.idx);
    assert IsNumeral(Decimal(t.idx));
  }

  // -------------------------------------------------------------- A report, on its fields

  predicate IsSlowest(results: seq<TestOutcome>, ms: nat) {
    && (forall i | 0 <= i < |results| :: results[i].timeMs <= ms)
    && (ms > 0 ==> exists i :: 0 <= i < |results| && results[i].timeMs == ms)
  }

  predicate IsLargest(results: seq<TestOutcome>, kb: nat) {
    && (forall i | 0 <= i < |results| :: results[i].memoryKb <= kb)
    && (kb > 0 ==> exists i :: 0 <= i < |results| && results[i].memoryKb == kb)
  }

  lemma {:induction false} ExtremesAreAttained(results: seq<TestOutcome>)
    ensures IsSlowest(results, Slowest(results)) && IsLargest(results, Largest(results))
  {
    if results != [] {
      var most := results[..|results| - 1];
      ExtremesAreAttained(most);
      assert forall i | 0 <= i < |most| :: most[i] == results[i];
      assert Slowest(most) == 0 || exists i :: 0 <= i < |results| && results[i].timeMs == Slowest(most);
      assert Largest(most) == 0 || exists i :: 0 <= i < |results| && results[i].memoryKb == Largest(most);
    }
  }

  /** The results are of the first tests, in their order, and a test's points are for passing it. */
  predicate AreOf(tests: seq<TestSpec>, results: seq<TestOutcome>) {
    && |results| <= |tests|
    && forall i | 0 <= i < |results| ::
         results[i].idx == tests[i].idx && results[i].points == if results[i].verdict == AC then tests[i].points else 0
  }

  predicate AllPass(results: seq<TestOutcome>) {
    forall i | 0 <= i < |results| :: results[i].verdict == AC
  }

  /** The first test that did not pass gives the verdict and the message; an all-or-nothing run stops with it. */
  ghost predicate FailsAt(tests: seq<TestSpec>, partial: bool, o: JudgeOutcome, n: nat) {
    && n < |o.tests| && o.tests[n].verdict == o.verdict && o.verdict != AC && AllPass(o.tests[..n])
    && NamesTest(o.message, o.tests[n])
    && |o.tests| == if partial then |tests| else n + 1
  }

  /** What every report comes to: accepted after passing every test, failed at its first failure, cut short, or ended
      without results by the compiler or by an error. */
  ghost predicate Tells(tests: seq<TestSpec>, partial: bool, o: JudgeOutcome) {
    && AreOf(tests, o.tests) && IsSlowest(o.tests, o.timeMs) && IsLargest(o.tests, o.memoryKb)
    && (o.score == if o.verdict == AB then 0 else Points(o.tests))
    && (o.maxScore == MaxScore(tests) || (o.maxScore == 0 && o.tests == [] && (o.verdict == IE || o.verdict == AB)))
    && (o.verdict == AC ==> |o.tests| == |tests| && AllPass(o.tests) && o.message == "")
    && (o.verdict == AB ==> o.message == "Cancelled." && (!partial ==> AllPass(o.tests)))
    && (o.verdict != AC && o.verdict != AB ==>
          (o.tests == [] && (o.verdict == CE || o.verdict == IE)) || exists n: nat :: FailsAt(tests, partial, o, n))
  }

  lemma FailedTells(tests: seq<TestSpec>, partial: bool, verdict: Terminal, maxScore: int, message: string)
    requires verdict == CE || verdict == IE || (verdict == AB && message == "Cancelled.")
    requires maxScore == MaxScore(tests) || (maxScore == 0 && verdict != CE)
    ensures Tells(tests, partial, Failed(verdict, maxScore, message))
  {
  }

  lemma CancelledTells(tests: seq<TestSpec>, partial: bool, o: JudgeOutcome)
    requires o == Summary(MaxScore(tests), o.tests) && AreOf(tests, o.tests) && (partial || AllPass(o.tests))
    ensures Tells(tests, partial, Cancelled(o))
  {
    hide Summary, Points, AreOf, MaxScore, Slowest, Largest;
    ExtremesAreAttained(o.tests);
    SummaryTotals(MaxScore(tests), o.tests);
    hide IsSlowest, IsLargest;
  }

  lemma SummaryVerdict(maxScore: int, results: seq<TestOutcome>)
    ensures
      var o, n := Summary(maxScore, results), FirstFailure(results);
      && (n == |results| ==> o.verdict == AC && o.message == "")
      && (n < |results| ==> o.verdict == results[n].verdict && o.message == FailureMessage(results[n]))
  {
  }

  /** A run that ran out of tests, or stopped with its first failure. */
  lemma SummaryTells(tests: seq<TestSpec>, partial: bool, o: JudgeOutcome)
    requires o == Summary(MaxScore(tests), o.tests) && AreOf(tests, o.tests) && o.verdict != AB
    requires |o.tests| == |tests| || (!partial && o.tests != [] && o.tests[|o.tests| - 1].verdict != AC)
    requires !partial ==> forall i | 0 <= i < |o.tests| - 1 :: o.tests[i].verdict == AC
    ensures Tells(tests, partial, o)
  {
    hide Summary, Points, AreOf, MaxScore, Slowest, Largest, IsSlowest, IsLargest, FailureMessage, NamesTest;
    var n := FirstFailure(o.tests);
    ExtremesAreAttained(o.tests);
    SummaryTotals(MaxScore(tests), o.tests);
    SummaryVerdict(MaxScore(tests), o.tests);
    if n < |o.tests| {
      FailureNamesTest(o.tests[n]);
      assert FailsAt(tests, partial, o, n);
    }
  }

  // --------------------------------------------------------------------- Every run

  /** Each reported result is what its test's run came to. */
  predicate SaysWhatRan(env: Environment, results: seq<TestOutcome>) {
    forall i | 0 <= i < |results| ::
      && env.run(i).Ran? && results[i].verdict == env.run(i).verdict && results[i].timeMs == env.run(i).timeMs
      && results[i].memoryKb == env.run(i).memoryKb && results[i].message == env.run(i).message
  }

  lemma ResultsSayWhatRan(tests: seq<TestSpec>, partial: bool, env: Environment, k: nat)
    requires RunnerLaws.Reaches(tests, partial, env, k)
    ensures SaysWhatRan(env, Results(tests, partial, env, k)) && AreOf(tests, Results(tests, partial, env, k))
  {
    var results := Results(tests, partial, env, k);
    forall i | 0 <= i < k ensures results[i] == ResultOf(tests[i], env.run(i)) && env.run(i).Ran? {
      ReachesEarlier(tests, partial, env, i, k);
    }
  }

  lemma OneMoreSays(tests: seq<TestSpec>, env: Environment, results: seq<TestOutcome>)
    requires SaysWhatRan(env, results) && AreOf(tests, results)
    requires |results| < |tests| && env.run(|results|).Ran?
    ensures SaysWhatRan(env, results + [ResultOf(tests[|results|], env.run(|results|))])
    ensures AreOf(tests, results + [ResultOf(tests[|results|], env.run(|results|))])
  {
  }

  lemma TurnedAwayTells(tests: seq<TestSpec>, partial: bool, env: Environment)
    requires TurnedAway(tests, env).Some?
    ensures Tells(tests, partial, TurnedAway(tests, env).value) && TurnedAway(tests, env).value.tests == []
  {
    hide Tells;
    var o := TurnedAway(tests, env).value;
    FailedTells(tests, partial, o.verdict, o.maxScore, o.message);
  }

  lemma NothingRan(env: Environment)
    ensures SaysWhatRan(env, [])
  {
  }

  lemma EndedTells(tests: seq<TestSpec>, partial: bool, env: Environment, k: nat, how: Ending)
    requires Ends(tests, partial, env, k, how)
    ensures
      var o := Ended(tests, partial, env, k, how).outcome;
      Tells(tests, partial, o) && SaysWhatRan(env, o.tests)
  {
    hide Summary, Tells, SaysWhatRan, AreOf, Results, MaxScore;
    var results := Results(tests, partial, env, k);
    ResultsSayWhatRan(tests, partial, env, k);
    match how {
      case RanOut =>
        FinishedIsNotAborted(MaxScore(tests), results);
        SummaryTells(tests, partial, Summary(MaxScore(tests), results));
      case Interrupted => CancelledTells(tests, partial, Summary(MaxScore(tests), results));
      case Crashed =>
        FailedTells(tests, partial, IE, MaxScore(tests), env.run(k).message);
        NothingRan(env);
      case GaveUp =>
        var more := results + [ResultOf(tests[k], env.run(k))];
        OneMoreSays(tests, env, results);
        assert more[..k] == results;
        FinishedIsNotAborted(MaxScore(tests), more);
        SummaryTells(tests, partial, Summary(MaxScore(tests), more));
    }
  }

  /** However a submission is judged, its report can be read off its results, and those are what the tests ran to. */
  lemma EveryReportTells(tests: seq<TestSpec>, partial: bool, env: Environment)
    ensures
      var o := Judged(tests, partial, env).outcome;
      Tells(tests, partial, o) && SaysWhatRan(env, o.tests)
  {
    hide Judged, TurnedAway, Tells, SaysWhatRan, Ended;
    if TurnedAway(tests, env).Some? {
      TurnedAwayTells(tests, partial, env);
      TurnedAwayReports(tests, env);
      NothingRan(env);
    } else {
      var k, how := HowARunEnds(tests, partial, env);
      EndedTells(tests, partial, env, k, how);
    }
  }

  /** Why a submission does not get to its tests: a compile error exactly if the language is there and there are tests
      and the source is rejected or does not build; aborted exactly if a request is met before or while compiling. */
  lemma TurnedAwayExactlyWhen(tests: seq<TestSpec>, env: Environment)
    ensures
      var p, c, away := env.preparation, env.compilation, TurnedAway(tests, env);
      var tried := p.unavailable.None? && tests != [];
      var ready := tried && p.rejection.None? && p.setupRaised.None?;
      && (away.Some? && away.value.verdict == CE <==>
            (tried && p.rejection.Some?) || (ready && !env.askedBeforeCompiling && c.Broken?))
      && (away.Some? && away.value.verdict == AB <==> ready && (env.askedBeforeCompiling || c.Stopped?))
      && (away.None? <==> ready && !env.askedBeforeCompiling && c.Compiled?)
      && (away.Some? ==> away.value.verdict in {CE, AB, IE})
      && (away.Some? && away.value.verdict == CE ==>
            away.value.message == if p.rejection.Some? then p.rejection.value else c.diagnostics)
  {
    hide MaxScore;
  }
}
