/** What a result is worth on a contest board against the share its run recorded. */
module ScoreboardWorth {
  import opened Options
  import opened Verdicts
  import opened Rounding
  import Runner
  import Submissions
  import Worker
  import Scoreboard

  lemma RoundsToNothing(x: real)
    requires x >= 0.0
    ensures Round(x) == 0 <==> x <= 0.5
  {
    RoundKeepsIntegerBounds(x, 0, 0);
    if x > 0.5 && x < 1.0 {
      assert Round(x) == 1;
    } else if x >= 1.0 {
      RoundKeepsIntegerBounds(x, 1, 1);
    }
  }

  lemma HalfAPercent(score: nat, maxScore: nat)
    requires maxScore > 0
    ensures (100 * score) as real / maxScore as real <= 0.5 <==> 200 * score <= maxScore
  {
    var x := (100 * score) as real / maxScore as real;
    assert x * maxScore as real == (100 * score) as real;
  }

  /** The board shows the recorded share exactly when one is recorded, or the share of test points rounds to nothing
      too: no points to score, or at most half a percent of them scored. */
  lemma BoardShowsRecordExactlyWhen(s: Scoreboard.Submission)
    ensures Scoreboard.Earned(s) == s.earned <==> s.earned != 0 || s.maxScore == 0 || 200 * s.score <= s.maxScore
  {
    if s.earned == 0 && s.maxScore > 0 {
      RoundsToNothing((100 * s.score) as real / s.maxScore as real);
      HalfAPercent(s.score, s.maxScore);
    }
  }

  /** A submission as the board reads it from the row a run left. */
  function OnBoard(row: Submissions.Row, user: int, createdAt: int): Scoreboard.Submission
    requires row.score >= 0 && row.maxScore >= 0 && row.earned >= 0
  {
    Scoreboard.Submission(user, row.submission.problem, None, createdAt, row.verdict, row.score, row.maxScore,
                          row.earned)
  }

  /** One of two tests of the only subtask passes. */
  const HALF_PASSED := Worker.Bench(
    map[1 := Submissions.Problem([Runner.TestSpec(1, 1, false, 1), Runner.TestSpec(2, 1, false, 1)],
                                 [Runner.Share(1, 100)], true)],
    (s: Submissions.Submission) => Runner.Environment(
      Runner.Preparation(None, None, None), false, Runner.Compiled, (i: nat) => false,
      (i: nat) => Runner.Ran(if i == 0 then AC else WA, 0, 0, "")))

  lemma HalfPassedOutcome(submission: Submissions.Submission)
    requires submission.problem == 1
    ensures
      var o := Worker.Settle(HALF_PASSED, submission, false).outcome;
      o.verdict == WA && o.score == 1 && o.maxScore == 2 && |o.tests| == 2 && o.tests[0].verdict == AC
      && o.tests[0].idx == 1 && o.tests[1].verdict == WA
  {
    hide Runner.FailureMessage, Runner.Max, Worker.EarnedFor;
    var p, env := HALF_PASSED.problems[1], Worker.Under(HALF_PASSED.environment(submission), false);
    var start := Runner.Failed(AC, 2, "");
    var first := Runner.ResultOf(p.tests[0], env.run(0));
    var second := Runner.ResultOf(p.tests[1], env.run(1));
    var one := Runner.Recorded(start, first);
    var two := Runner.Recorded(one, second);
    assert p.tests[..1][..0] == [] && p.tests[..1] == [p.tests[0]];
    assert Runner.MaxScore(p.tests[..1]) == 1 && Runner.MaxScore(p.tests) == 2;
    assert Runner.JudgedFrom(p.tests, true, env, 2, two) == Runner.Report(two, two.tests);
    assert Runner.JudgedFrom(p.tests, true, env, 1, one) == Runner.Report(two, two.tests);
    assert Runner.JudgedFrom(p.tests, true, env, 0, start) == Runner.Report(two, two.tests);
    assert Runner.TurnedAway(p.tests, env) == None;
  }

  /** Judged end to end, a run that earned nothing, its one subtask having failed, stands at fifty on the board. */
  lemma NothingEarnedShowsFifty(submission: Submissions.Submission, user: int, now: int)
    requires submission.problem == 1
    ensures
      var row := Worker.SettledRow(HALF_PASSED, Submissions.Queued(submission), false, now);
      row.earned == 0 && row.score == 1 && row.maxScore == 2 && Scoreboard.Earned(OnBoard(row, user, now)) == 50
  {
    HalfPassedOutcome(submission);
    var p := HALF_PASSED.problems[1];
    var o := Worker.Settle(HALF_PASSED, submission, false).outcome;
    assert Runner.InGroup(p.tests, 1, 1);
    assert 2 !in Runner.Passed(o.tests);
    assert !Runner.GroupPassed(p.tests, Runner.Passed(o.tests), 1);
    assert p.shares[..0] == [];
    assert Runner.PaidShares(p.tests, Runner.Passed(o.tests), p.shares) == 0;
    RoundOfInteger(50);
    assert (100 * 1) as real / 2 as real == 50 as real;
  }
}
