/** Judging one submission: a fold over its tests, and the share of the points it earns. */
module Runner {
  import opened Options
  import opened Verdicts
  import opened Reals
  import opened Rounding

  datatype TestSpec = TestSpec(idx: nat, points: int, isSample: bool, subtask: int)
  datatype TestOutcome = TestOutcome(idx: nat, verdict: Terminal, timeMs: nat, memoryKb: nat, points: int,
                                     message: string)
  datatype JudgeOutcome = JudgeOutcome(verdict: Terminal, score: int, maxScore: int, timeMs: nat, memoryKb: nat,
                                       message: string, tests: seq<TestOutcome>)

  /** What one sandboxed run comes to; a run that was stopped from outside comes to AB. */
  datatype Ran = Ran(verdict: Terminal, timeMs: nat, memoryKb: nat, message: string) | Raised(message: string)
  datatype Compilation = Compiled | Broken(diagnostics: string) | Stopped | CompilerRaised(message: string)

  /** What is settled before the compiler is started: the language is not available, the source is rejected, or the
      sandbox box could not be set up. */
  datatype Preparation = Preparation(unavailable: Option<string>, rejection: Option<string>,
                                      setupRaised: Option<string>)

  /** Everything outside the judge's control; there is one answer per test, by position in the test list. */
  datatype Environment = Environment(
    preparation: Preparation,
    askedBeforeCompiling: bool,
    compilation: Compilation,
    asked: nat -> bool,
    run: nat -> Ran)

  /** The outcome, and the tests handed to the progress callback on the way. */
  datatype Report = Report(outcome: JudgeOutcome, published: seq<TestOutcome>)

  function Failed(verdict: Terminal, maxScore: int, message: string): JudgeOutcome {
    JudgeOutcome(verdict, 0, maxScore, 0, 0, message, [])
  }

  // ----------------------------------------------------------------- One test

  function ResultOf(t: TestSpec, r: Ran): TestOutcome
    requires r.Ran?
  {
    TestOutcome(t.idx, r.verdict, r.timeMs, r.memoryKb, if r.verdict == AC then t.points else 0, r.message)
  }

  function Decimal(n: nat): string {
    (if n < 10 then "" else Decimal(n / 10)) + [(n % 10) as char + '0']
  }

  function FailureMessage(t: TestOutcome): string {
    if t.message != "" then "Test " + Decimal(t.idx) + ": " + t.message else "Failed on test " + Decimal(t.idx)
  }

  function Max(a: nat, b: nat): nat {
    if a >= b then a else b
  }

  /** A finished test, added to what the run has come to so far. */
  function Recorded(o: JudgeOutcome, t: TestOutcome): JudgeOutcome {
    var first := t.verdict != AC && o.verdict == AC;
    JudgeOutcome(if first then t.verdict else o.verdict, o.score + t.points, o.maxScore, Max(o.timeMs, t.timeMs),
                 Max(o.memoryKb, t.memoryKb), if first then FailureMessage(t) else o.message, o.tests + [t])
  }

  /** The finished tests of a stopped run are kept, its score is not. */
  function Cancelled(o: JudgeOutcome): JudgeOutcome {
    o.(verdict := AB, score := 0, message := "Cancelled.")
  }

  function MaxScore(tests: seq<TestSpec>): int {
    if tests == [] then 0 else MaxScore(tests[..|tests| - 1]) + tests[|tests| - 1].points
  }

  // ------------------------------------------------------------- The whole run

  function JudgedFrom(tests: seq<TestSpec>, partial: bool, env: Environment, i: nat, sofar: JudgeOutcome): Report
    requires i <= |tests|
    decreases |tests| - i
  {
    if i == |tests| then Report(sofar, sofar.tests)
    else if env.asked(i) then Report(Cancelled(sofar), sofar.tests)
    else match env.run(i)
      case Raised(message) => Report(Failed(IE, sofar.maxScore, message), sofar.tests)
      case Ran(verdict, _, _, _) =>
        if verdict == AB then Report(Cancelled(sofar), sofar.tests)
        else
          var next := Recorded(sofar, ResultOf(tests[i], env.run(i)));
          if verdict != AC && !partial then Report(next, next.tests)
          else JudgedFrom(tests, partial, env, i + 1, next)
  }

  function Refused(tests: seq<TestSpec>, p: Preparation): Option<JudgeOutcome> {
    var most := MaxScore(tests);
    if p.unavailable.Some? then Some(Failed(IE, 0, p.unavailable.value))
    else if tests == [] then Some(Failed(IE, 0, "This problem has no test cases yet."))
    else if p.rejection.Some? then Some(Failed(CE, most, p.rejection.value))
    else if p.setupRaised.Some? then Some(Failed(IE, most, p.setupRaised.value))
    else None
  }

  function NotBuilt(tests: seq<TestSpec>, c: Compilation): Option<JudgeOutcome> {
    match c
    case CompilerRaised(message) => Some(Failed(IE, MaxScore(tests), message))
    case Stopped => Some(Failed(AB, MaxScore(tests), "Cancelled."))
    case Broken(diagnostics) => Some(Failed(CE, MaxScore(tests), diagnostics))
    case Compiled => None
  }

  /** Why a submission never gets as far as its first test, if it does not. */
  function TurnedAway(tests: seq<TestSpec>, env: Environment): Option<JudgeOutcome> {
    if Refused(tests, env.preparation).Some? then Refused(tests, env.preparation)
    else if env.askedBeforeCompiling then Some(Failed(AB, MaxScore(tests), "Cancelled."))
    else NotBuilt(tests, env.compilation)
  }

  function Judged(tests: seq<TestSpec>, partial: bool, env: Environment): Report {
    match TurnedAway(tests, env)
    case Some(outcome) => Report(outcome, [])
    case None => JudgedFrom(tests, partial, env, 0, Failed(AC, MaxScore(tests), ""))
  }

  method Judge(tests: seq<TestSpec>, partial: bool, env: Environment)
    returns (outcome: JudgeOutcome, published: seq<TestOutcome>)
    ensures Report(outcome, published) == Judged(tests, partial, env)
  {
    hide TurnedAway, MaxScore, FailureMessage, Max;
    var turned := Start(tests, env);
    if turned.Some? {
      return turned.value, [];
    }
    outcome, published := Failed(AC, MaxScore(tests), ""), [];
    for i := 0 to |tests|
      invariant published == outcome.tests && outcome.maxScore == MaxScore(tests)
      invariant Judged(tests, partial, env) == JudgedFrom(tests, partial, env, i, outcome)
    {
      if env.asked(i) {
        return Cancelled(outcome), published;
      }
      var r := env.run(i);
      if r.Raised? {
        return Failed(IE, outcome.maxScore, r.message), published;
      }
      if r.verdict == AB {
        return Cancelled(outcome), published;
      }
      var result := ResultOf(tests[i], r);
      ghost var before := outcome;
      outcome := outcome.(tests := outcome.tests + [result], score := outcome.score + result.points,
                          timeMs := Max(outcome.timeMs, result.timeMs),
                          memoryKb := Max(outcome.memoryKb, result.memoryKb));
      published := published + [result];
      if result.verdict != AC {
        if outcome.verdict == AC {
          outcome := outcome.(verdict := result.verdict, message := FailureMessage(result));
        }
        assert outcome == Recorded(before, result);
        if !partial {
          break;
        }
      }
    }
  }

  method Start(tests: seq<TestSpec>, env: Environment) returns (turned: Option<JudgeOutcome>)
    ensures turned == TurnedAway(tests, env)
  {
    if env.preparation.unavailable.Some? {
      return Some(Failed(IE, 0, env.preparation.unavailable.value));
    }
    if tests == [] {
      return Some(Failed(IE, 0, "This problem has no test cases yet."));
    }
    var maxScore := 0;
    assert tests[..|tests|] == tests;
    for i := 0 to |tests|
      invariant maxScore == MaxScore(tests[..i])
    {
      assert tests[..i + 1][..i] == tests[..i];
      maxScore := maxScore + tests[i].points;
    }
    if env.preparation.rejection.Some? {
      return Some(Failed(CE, maxScore, env.preparation.rejection.value));
    }
    if env.preparation.setupRaised.Some? {
      return Some(Failed(IE, maxScore, env.preparation.setupRaised.value));
    }
    if env.askedBeforeCompiling {
      return Some(Failed(AB, maxScore, "Cancelled."));
    }
    match env.compilation {
      case CompilerRaised(message) => return Some(Failed(IE, maxScore, message));
      case Stopped => return Some(Failed(AB, maxScore, "Cancelled."));
      case Broken(diagnostics) => return Some(Failed(CE, maxScore, diagnostics));
      case Compiled => return None;
    }
  }

  // ------------------------------------------------------------ What is earned

  datatype Share = Share(group: int, percent: int)

  function Passed(results: seq<TestOutcome>): set<nat> {
    set i | 0 <= i < |results| && results[i].verdict == AC :: results[i].idx
  }

  predicate InGroup(tests: seq<TestSpec>, i: nat, group: int)
    requires i < |tests|
  {
    tests[i].subtask == group
  }

  predicate HasTest(tests: seq<TestSpec>, group: int) {
    exists i | 0 <= i < |tests| :: InGroup(tests, i, group)
  }

  predicate GroupPassed(tests: seq<TestSpec>, passed: set<nat>, group: int) {
    HasTest(tests, group) && forall i | 0 <= i < |tests| && InGroup(tests, i, group) :: tests[i].idx in passed
  }

  function PaidShares(tests: seq<TestSpec>, passed: set<nat>, shares: seq<Share>): int {
    if shares == [] then 0
    else
      var last := shares[|shares| - 1];
      PaidShares(tests, passed, shares[..|shares| - 1])
        + (if GroupPassed(tests, passed, last.group) then last.percent else 0)
  }

  function Hidden(tests: seq<TestSpec>): seq<TestSpec> {
    if tests == [] then []
    else Hidden(tests[..|tests| - 1]) + (if tests[|tests| - 1].isSample then [] else [tests[|tests| - 1]])
  }

  /** The tests that score when there are no subtasks: the hidden ones, or all of them if every one is a sample. */
  function Scored(tests: seq<TestSpec>): seq<TestSpec> {
    if Hidden(tests) != [] then Hidden(tests) else tests
  }

  function CountPassed(tests: seq<TestSpec>, passed: set<nat>): nat {
    if tests == [] then 0
    else CountPassed(tests[..|tests| - 1], passed) + (if tests[|tests| - 1].idx in passed then 1 else 0)
  }

  predicate EveryPassed(tests: seq<TestSpec>, passed: set<nat>) {
    forall i | 0 <= i < |tests| :: tests[i].idx in passed
  }

  function Percentage(part: nat, whole: nat): int
    requires whole > 0
  {
    Round(Over((100 * part) as real, whole as real))
  }

  function EarnedBy(tests: seq<TestSpec>, passed: set<nat>, shares: seq<Share>, partial: bool): int {
    if tests == [] then 0
    else if shares != [] then
      var total := PaidShares(tests, passed, shares);
      if total <= 100 then total else 100
    else if partial then Percentage(CountPassed(Scored(tests), passed), |Scored(tests)|)
    else if EveryPassed(Scored(tests), passed) then 100 else 0
  }

  function Earned(tests: seq<TestSpec>, results: seq<TestOutcome>, shares: seq<Share>, partial: bool): int {
    EarnedBy(tests, Passed(results), shares, partial)
  }

  method EarnedPercent(tests: seq<TestSpec>, results: seq<TestOutcome>, shares: seq<Share>, partial: bool)
    returns (percent: int)
    ensures percent == Earned(tests, results, shares, partial)
  {
    var passed := Passed(results);
    if tests == [] {
      return 0;
    }
    if shares != [] {
      var total := 0;
      assert shares[..|shares|] == shares;
      for i := 0 to |shares|
        invariant total == PaidShares(tests, passed, shares[..i])
      {
        assert shares[..i + 1][..i] == shares[..i];
        var all, some := GroupState(tests, passed, shares[i].group);
        if some && all {
          total := total + shares[i].percent;
        }
      }
      return if total <= 100 then total else 100;
    }
    var scored := Scored(tests);
    if partial {
      var count := 0;
      assert scored[..|scored|] == scored;
      for i := 0 to |scored|
        invariant count == CountPassed(scored[..i], passed)
      {
        assert scored[..i + 1][..i] == scored[..i];
        if scored[i].idx in passed {
          count := count + 1;
        }
      }
      return Percentage(count, |scored|);
    }
    return if EveryPassed(scored, passed) then 100 else 0;
  }

  method GroupState(tests: seq<TestSpec>, passed: set<nat>, group: int) returns (all: bool, some: bool)
    ensures some == HasTest(tests, group)
    ensures all == forall i | 0 <= i < |tests| && InGroup(tests, i, group) :: tests[i].idx in passed
  {
    all, some := true, false;
    for k := 0 to |tests|
      invariant some == exists i | 0 <= i < k :: InGroup(tests, i, group)
      invariant all == forall i | 0 <= i < k && InGroup(tests, i, group) :: tests[i].idx in passed
    {
      if tests[k].subtask == group {
        assert InGroup(tests, k, group);
        all, some := all && tests[k].idx in passed, true;
      }
    }
  }
}
