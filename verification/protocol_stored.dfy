/** What every row of the queue says for itself, in every reachable state: read off its own columns. */
module ProtocolStored {
  import opened Options
  import opened Verdicts
  import opened Runner
  import opened RunnerLaws
  import opened RunnerReport
  import opened RunnerEarning
  import opened Submissions
  import opened Cancel
  import opened Worker
  import opened Protocol
  import opened ProtocolSafety

  // ---------------------------------------------------------------- A row, on its columns

  /** Nothing for a compile error or a cancelled run; otherwise what the passed tests are worth. */
  predicate Pays(p: Problem, o: JudgeOutcome, earned: int) {
    earned == if o.verdict == CE || o.verdict == AB then 0
              else EarnedBy(p.tests, Passed(o.tests), p.shares, p.partial)
  }

  ghost predicate Fits(b: Bench, submission: Submission, o: JudgeOutcome, earned: int) {
    if submission.problem in b.problems then
      var p := b.problems[submission.problem];
      Tells(p.tests, p.partial, o) && Pays(p, o, earned)
    else
      && (o.verdict == IE || o.verdict == AB) && o.tests == [] && o.score == 0 && o.maxScore == 0
      && o.timeMs == 0 && o.memoryKb == 0 && earned == 0
  }

  /** A queued row is blank, a row being judged has no share and no total yet, and a finished row carries a report
      that fits its submission, with the share those very results are worth. */
  ghost predicate RowSays(b: Bench, row: Row) {
    && (Waiting(row.verdict) ==> row.earned == 0 && row.maxScore == 0 && row.judgedAt == None)
    && (row.verdict == Pending ==> IsBlank(row))
    && (!Waiting(row.verdict) ==> exists o ::
          && row.judgedAt.Some? && Carries(row, o, row.earned, row.judgedAt.value)
          && Fits(b, row.submission, o, row.earned))
  }

  /** The results of a run so far are of the first tests, all passed unless the problem is partial. */
  predicate Progresses(b: Bench, s: State, id: nat, done: nat, sofar: JudgeOutcome) {
    && ProblemOf(b, s, id).Some? && |sofar.tests| == done && AreOf(TestsOf(b, s, id), sofar.tests)
    && (!IsPartial(b, s, id) ==> AllPass(sofar.tests))
  }

  predicate Recording(b: Bench, s: State, id: nat, next: nat, sofar: JudgeOutcome, result: TestOutcome) {
    && ProblemOf(b, s, id).Some? && |sofar.tests| == next + 1 && sofar.tests[next] == result
    && AreOf(TestsOf(b, s, id), sofar.tests)
    && (!IsPartial(b, s, id) ==> forall i | 0 <= i < next :: sofar.tests[i].verdict == AC)
  }

  ghost predicate RunSays(b: Bench, s: State, pc: Pc) {
    IdOf(pc).Some? ==>
      && pc.id < |s.rows|
      && match pc
         case Compiling(id, _) => ProblemOf(b, s, id).Some?
         case AtTest(id, _, next, sofar, _) => Progresses(b, s, id, next, sofar)
         case InTest(id, _, next, sofar, _) => Progresses(b, s, id, next, sofar)
         case Publishing(id, _, next, sofar, _, result) => Recording(b, s, id, next, sofar, result)
         case Finished(id, _, settled, _) => Fits(b, s.rows[id].submission, settled.outcome, settled.earned)
         case _ => true
  }

  ghost predicate SaysAll(b: Bench, s: State) {
    && Inv(b, s)
    && (forall id | 0 <= id < |s.rows| :: RowSays(b, s.rows[id]))
    && (forall w | 0 <= w < |s.workers| :: RunSays(b, s, s.workers[w]))
  }

  // ------------------------------------------------------------------------ A worker's step

  lemma SettledFits(b: Bench, s: State, id: nat, o: JudgeOutcome)
    requires id < |s.rows| && ProblemOf(b, s, id).Some? && Tells(TestsOf(b, s, id), IsPartial(b, s, id), o)
    ensures Fits(b, s.rows[id].submission, SettledAs(b, s, id, o).outcome, SettledAs(b, s, id, o).earned)
  {
    hide Tells, EarnedBy, Passed;
  }

  lemma RefusedTells(tests: seq<TestSpec>, partial: bool, p: Preparation, c: Compilation)
    ensures Refused(tests, p).Some? ==> Tells(tests, partial, Refused(tests, p).value)
    ensures NotBuilt(tests, c).Some? ==> Tells(tests, partial, NotBuilt(tests, c).value)
    ensures Tells(tests, partial, Failed(AB, MaxScore(tests), "Cancelled."))
  {
    hide Tells, MaxScore;
    if Refused(tests, p).Some? {
      var o := Refused(tests, p).value;
      FailedTells(tests, partial, o.verdict, o.maxScore, o.message);
    }
    if NotBuilt(tests, c).Some? {
      var o := NotBuilt(tests, c).value;
      FailedTells(tests, partial, o.verdict, o.maxScore, o.message);
    }
    FailedTells(tests, partial, AB, MaxScore(tests), "Cancelled.");
  }

  lemma StartedSays(b: Bench, s: State, id: nat, e: nat, move: Move)
    requires id < |s.rows| && (move.Prepare? ==> ProblemOf(b, s, id).Some?)
    requires !move.Fail? && !move.Prepare? ==> ProblemOf(b, s, id).None?
    ensures RunSays(b, s, Started(b, s, id, e, move))
  {
    hide Tells, Refused, SettledAs, Pays;
    if move.Prepare? {
      var tests := TestsOf(b, s, id);
      RefusedTells(tests, IsPartial(b, s, id), move.preparation, Compiled);
      if Refused(tests, move.preparation).Some? {
        SettledFits(b, s, id, Refused(tests, move.preparation).value);
      } else {
        SettledFits(b, s, id, Failed(AB, MaxScore(tests), "Cancelled."));
      }
    }
  }

  lemma BuiltSays(b: Bench, s: State, id: nat, e: nat, c: Compilation)
    requires id < |s.rows| && ProblemOf(b, s, id).Some?
    ensures RunSays(b, s, Built(b, s, id, e, c))
  {
    hide Tells, NotBuilt, SettledAs, Pays, Fits;
    var tests := TestsOf(b, s, id);
    RefusedTells(tests, IsPartial(b, s, id), Preparation(None, None, None), c);
    if NotBuilt(tests, c).Some? {
      SettledFits(b, s, id, NotBuilt(tests, c).value);
    }
  }

  lemma CheckedSays(b: Bench, s: State, id: nat, e: nat, next: nat, sofar: JudgeOutcome, shown: seq<TestOutcome>)
    requires id < |s.rows| && Progresses(b, s, id, next, sofar)
    requires sofar == Summary(MaxScore(TestsOf(b, s, id)), sofar.tests) && sofar.verdict != AB
    ensures RunSays(b, s, Checked(b, s, id, e, next, sofar, shown))
  {
    hide Tells, Summary, SettledAs, Pays, Fits, MaxScore;
    var tests, partial := TestsOf(b, s, id), IsPartial(b, s, id);
    if next >= |tests| {
      SummaryTells(tests, partial, sofar);
      SettledFits(b, s, id, sofar);
    } else if IsSet(s.memory, e) {
      CancelledTells(tests, partial, sofar);
      SettledFits(b, s, id, Cancelled(sofar));
    }
  }

  lemma TestedSays(b: Bench, s: State, id: nat, e: nat, next: nat, sofar: JudgeOutcome, shown: seq<TestOutcome>,
                   ran: Ran)
    requires id < |s.rows| && next < |TestsOf(b, s, id)| && Progresses(b, s, id, next, sofar)
    requires sofar == Summary(MaxScore(TestsOf(b, s, id)), sofar.tests) && sofar.verdict != AB
    ensures RunSays(b, s, Tested(b, s, id, e, next, sofar, shown, ran))
  {
    hide Tells, Summary, SettledAs, Pays, Fits, MaxScore;
    var tests, partial := TestsOf(b, s, id), IsPartial(b, s, id);
    match ran {
      case Raised(message) =>
        FailedTells(tests, partial, IE, sofar.maxScore, message);
        SettledFits(b, s, id, Failed(IE, sofar.maxScore, message));
      case Ran(verdict, _, _, _) =>
        if verdict == AB {
          CancelledTells(tests, partial, sofar);
          SettledFits(b, s, id, Cancelled(sofar));
        } else {
          RecordedSays(b, s, id, next, sofar, ResultOf(tests[next], ran));
        }
    }
  }

  lemma RecordedSays(b: Bench, s: State, id: nat, next: nat, sofar: JudgeOutcome, result: TestOutcome)
    requires next < |TestsOf(b, s, id)| && Progresses(b, s, id, next, sofar)
    requires
      var t := TestsOf(b, s, id)[next];
      result.idx == t.idx && result.points == if result.verdict == AC then t.points else 0
    ensures Recording(b, s, id, next, Recorded(sofar, result), result)
  {
    hide FailureMessage, Max;
  }

  lemma ContinuedSays(b: Bench, s: State, id: nat, e: nat, next: nat, sofar: JudgeOutcome, shown: seq<TestOutcome>,
                      result: TestOutcome)
    requires id < |s.rows| && Recording(b, s, id, next, sofar, result)
    requires sofar == Summary(MaxScore(TestsOf(b, s, id)), sofar.tests) && sofar.verdict != AB
    ensures RunSays(b, s, Continued(b, s, id, e, next, sofar, shown, result))
  {
    hide Tells, Summary, SettledAs, Pays, Fits, MaxScore;
    if result.verdict != AC && !IsPartial(b, s, id) {
      SummaryTells(TestsOf(b, s, id), false, sofar);
      SettledFits(b, s, id, sofar);
    }
  }

  /** What a step computes for its worker fits what has run. */
  lemma OwnRunSays(b: Bench, s: State, w: nat, move: Move, now: int)
    requires SaysAll(b, s) && WorkerEnabled(b, s, w, move)
    ensures
      var pc := WorkerNext(b, s, w, move, now).workers[w];
      pc.Picked? || RunSays(b, s, pc)
  {
    var pc := s.workers[w];
    assert RunSays(b, s, pc) && WorkerOk(b, s, w);
    hide SaysAll, Started, Built, Checked, Tested, Continued, Stored, Published, Cleared, Progresses, Recording, Fits,
         Summary, Shows, Totals;
    match pc {
      case Watching(id, e) => StartedSays(b, s, id, e, move);
      case Compiling(id, e) => BuiltSays(b, s, id, e, move.compilation);
      case AtTest(id, e, next, sofar, shown) => CheckedSays(b, s, id, e, next, sofar, shown);
      case InTest(id, e, next, sofar, shown) => TestedSays(b, s, id, e, next, sofar, shown, move.ran);
      case Publishing(id, e, next, sofar, shown, result) =>
        ContinuedSays(b, s, id, e, next, sofar, if move.ok then shown + [result] else shown, result);
      case _ =>
    }
  }

  lemma RunFrame(b: Bench, s: State, t: State, pc: Pc)
    requires RunSays(b, s, pc) && |s.rows| <= |t.rows|
    requires forall i | 0 <= i < |s.rows| :: t.rows[i].submission == s.rows[i].submission
    ensures RunSays(b, t, pc)
  {
    hide Fits, AreOf, AllPass;
    if IdOf(pc).Some? {
      assert ProblemOf(b, t, pc.id) == ProblemOf(b, s, pc.id);
    }
  }

  // ------------------------------------------------------------------------ Rows

  lemma ReportSays(b: Bench, row: Row, o: JudgeOutcome, earned: int, now: int)
    requires Carries(row, o, earned, now) && Fits(b, row.submission, o, earned)
    ensures RowSays(b, row)
  {
    hide Fits, Lists, IsClipped;
  }

  lemma StoredSays(b: Bench, row: Row, o: JudgeOutcome, earned: int, now: int)
    requires Fits(b, row.submission, o, earned)
    ensures RowSays(b, Stored(row, o, earned, now))
  {
    hide Fits, Carries, Stored;
    StoredCarries(row, o, earned, now);
    ReportSays(b, Stored(row, o, earned, now), o, earned, now);
  }

  lemma NoReportFits(b: Bench, submission: Submission, verdict: Terminal, message: string)
    requires verdict == IE || (verdict == AB && message == "Cancelled.")
    ensures Fits(b, submission, Failed(verdict, 0, message), 0)
  {
    hide Tells, EarnedBy;
    if submission.problem in b.problems {
      var p := b.problems[submission.problem];
      FailedTells(p.tests, p.partial, verdict, 0, message);
      NothingPassedEarnsNothing(p.tests, p.shares, p.partial);
      assert Passed([]) == {};
    }
  }

  lemma CrashedSays(b: Bench, row: Row, now: int)
    ensures RowSays(b, Stored(row, Failed(IE, 0, "judge crashed"), 0, now))
  {
    hide Fits, Stored, RowSays;
    NoReportFits(b, row.submission, IE, "judge crashed");
    StoredSays(b, row, Failed(IE, 0, "judge crashed"), 0, now);
  }

  lemma CancelledSays(b: Bench, row: Row, now: int)
    requires RowSays(b, row) && row.verdict == Pending
    ensures RowSays(b, CancelledInQueue(row, now))
  {
    hide Fits, Lists;
    NoReportFits(b, row.submission, AB, "Cancelled.");
    NothingListed();
    ReportSays(b, CancelledInQueue(row, now), Failed(AB, 0, "Cancelled."), 0, now);
  }

  lemma RequeuedSays(b: Bench, row: Row)
    requires RowSays(b, row)
    ensures RowSays(b, Requeued(row))
  {
    hide Fits, Carries;
  }

  lemma BeingJudgedSays(b: Bench, row: Row, was: Row)
    requires RowSays(b, was) && Waiting(was.verdict) && row.verdict == Judging
    requires row.earned == was.earned && row.maxScore == was.maxScore && row.judgedAt == was.judgedAt
    ensures RowSays(b, row)
  {
  }

  lemma WorkKeepsRowSays(b: Bench, s: State, w: nat, move: Move, now: int)
    requires SaysAll(b, s) && WorkerEnabled(b, s, w, move)
    ensures Touched(s, w) < |s.rows|
    ensures
      var t := WorkerNext(b, s, w, move, now);
      |t.rows| == |s.rows| && RowSays(b, t.rows[Touched(s, w)])
  {
    var pc, id := s.workers[w], Touched(s, w);
    assert RunSays(b, s, pc) && WorkerOk(b, s, w);
    assert id < |s.rows|;
    var row := s.rows[id];
    assert RowSays(b, row);
    hide SaysAll, RowSays, Consistent, Started, Built, Checked, Tested, Continued, Fits, Stored;
    match pc {
      case Idle => BeingJudgedSays(b, Claimed(row), row);
      case Picked(_) => if move.Go? { BeingJudgedSays(b, Cleared(row), row); }
      case Publishing(_, _, _, _, _, result) => BeingJudgedSays(b, Published(row, result), row);
      case Finished(_, _, settled, _) => StoredSays(b, row, settled.outcome, settled.earned, now);
      case Failing(_) => CrashedSays(b, row, now);
      case _ =>
    }
  }

  // ------------------------------------------------------------------------ Every step

  lemma WorkKeepsSaying(b: Bench, s: State, w: nat, move: Move, now: int)
    requires SaysAll(b, s) && s.up && WorkerEnabled(b, s, w, move)
    ensures SaysAll(b, WorkerNext(b, s, w, move, now))
  {
    hide Inv, WorkerNext, WorkerEnabled, WorkerOk, RunSays, RowSays;
    var t := WorkerNext(b, s, w, move, now);
    WorkStep(b, s, w, move, now);
    WorkIsLocal(b, s, w, move, now);
    InRange(b, s, w, move);
    WorkKeepsRowSays(b, s, w, move, now);
    forall id | 0 <= id < |t.rows| ensures RowSays(b, t.rows[id]) {
      assert RowSays(b, s.rows[id]);
    }
    forall v | 0 <= v < |t.workers| ensures RunSays(b, t, t.workers[v]) {
      assert RunSays(b, s, s.workers[v]);
      if v == w {
        OwnRunSays(b, s, w, move, now);
        if t.workers[w].Picked? {
          PickedSays(b, t, w);
        } else {
          RunFrame(b, s, t, t.workers[w]);
        }
      } else {
        RunFrame(b, s, t, s.workers[v]);
      }
    }
  }

  lemma PickedSays(b: Bench, t: State, w: nat)
    requires Inv(b, t) && w < |t.workers| && t.workers[w].Picked?
    ensures RunSays(b, t, t.workers[w])
  {
    assert WorkerOk(b, t, w);
  }

  lemma AskKeepsSaying(b: Bench, s: State, c: nat, now: int)
    requires SaysAll(b, s) && s.up && ClientEnabled(s, c)
    ensures SaysAll(b, ClientNext(s, c, now))
  {
    var t, id := ClientNext(s, c, now), s.clients[c].id;
    AskStep(b, s, c, now);
    AskIsLocal(b, s, c, now);
    hide Inv, RunSays, RowSays;
    assert RowSays(b, s.rows[id]);
    if s.rows[id].verdict == Pending {
      CancelledSays(b, s.rows[id], now);
    }
    forall v | 0 <= v < |t.workers| ensures RunSays(b, t, t.workers[v]) {
      RunFrame(b, s, t, s.workers[v]);
    }
  }

  lemma QueuedSays(b: Bench, submission: Submission)
    ensures RowSays(b, Queued(submission))
  {
  }

  lemma StepKeepsSaying(b: Bench, s: State, l: Label)
    requires SaysAll(b, s) && Enabled(b, s, l)
    ensures SaysAll(b, Next(b, s, l))
  {
    hide Inv, WorkerEnabled, WorkerNext, ClientNext, ClientEnabled, RunSays, RowSays;
    StepKeepsInv(b, s, l);
    var t := Next(b, s, l);
    match l {
      case Work(w, move, now) => WorkKeepsSaying(b, s, w, move, now);
      case Ask(c, now) => AskKeepsSaying(b, s, c, now);
      case Submit(submission) =>
        QueuedSays(b, submission);
        forall v | 0 <= v < |t.workers| ensures RunSays(b, t, t.workers[v]) {
          RunFrame(b, s, t, s.workers[v]);
        }
      case Arrive(_, _) =>
        forall v | 0 <= v < |t.workers| ensures RunSays(b, t, t.workers[v]) {
          RunFrame(b, s, t, s.workers[v]);
        }
      case Crash =>
      case Restart(n) =>
        forall id | 0 <= id < |t.rows| ensures RowSays(b, t.rows[id]) {
          RequeuedSays(b, s.rows[id]);
        }
        IdleSays(b, t);
    }
  }

  lemma IdleSays(b: Bench, s: State)
    ensures RunSays(b, s, Idle)
  {
  }

  lemma {:induction false} EveryStateSays(b: Bench, r: Run, k: nat)
    requires IsRun(b, r) && k < |r.states|
    ensures SaysAll(b, r.states[k])
  {
    hide Inv, Enabled, Next, RunSays, RowSays;
    EveryStateIsSafe(b, r, k);
    if k > 0 {
      EveryStateSays(b, r, k - 1);
      assert StepsAt(b, r, k - 1);
      StepKeepsSaying(b, r.states[k - 1], r.labels[k - 1]);
    }
  }

  // ------------------------------------------------------------------------ What that pays

  /** The test numbers a row lists as accepted. */
  function AcceptedIn(tests: map<nat, TestOutcome>): set<nat> {
    set k | k in tests && tests[k].verdict == AC
  }

  predicate Distinct(tests: seq<TestSpec>) {
    forall i, j | 0 <= i < j < |tests| :: tests[i].idx != tests[j].idx
  }

  lemma AcceptedArePassed(tests: seq<TestSpec>, listed: map<nat, TestOutcome>, results: seq<TestOutcome>)
    requires Distinct(tests) && AreOf(tests, results) && Lists(listed, results)
    ensures AcceptedIn(listed) == Passed(results)
  {
    forall k: nat ensures k in AcceptedIn(listed) <==> k in Passed(results) {
      if k in AcceptedIn(listed) {
        var i: nat :| IsLastWith(results, i, k) && ShowsTest(listed[k], results[i]);
        assert results[i].verdict == AC && results[i].idx == k;
      }
      if k in Passed(results) {
        var j :| 0 <= j < |results| && results[j].verdict == AC && results[j].idx == k;
        var i: nat :| IsLastWith(results, i, k) && ShowsTest(listed[k], results[i]);
        assert tests[i].idx == tests[j].idx;
      }
    }
  }

  /** In every reachable state, whatever crashed, failed or was cancelled, a finished row of a problem whose tests are
      numbered apart has exactly the share that the tests it lists as accepted are worth; nothing if its verdict is a
      compile error or aborted, and nothing if its problem is gone. */
  lemma EarnedIsWhatIsListed(b: Bench, r: Run, k: nat, id: nat)
    requires IsRun(b, r) && k < |r.states| && id < |r.states[k].rows|
    ensures
      var row := r.states[k].rows[id];
      && (Waiting(row.verdict) || row.verdict == CE || row.verdict == AB || row.submission.problem !in b.problems ==>
            row.earned == 0)
      && (!Waiting(row.verdict) && row.verdict != CE && row.verdict != AB && row.submission.problem in b.problems ==>
            var p := b.problems[row.submission.problem];
            Distinct(p.tests) ==> row.earned == EarnedBy(p.tests, AcceptedIn(row.tests), p.shares, p.partial))
  {
    EveryStateSays(b, r, k);
    var row := r.states[k].rows[id];
    assert RowSays(b, row);
    hide Inv, IsRun, EarnedBy, Lists, IsClipped, AcceptedIn, Passed, AreOf, FailsAt, Distinct;
    if !Waiting(row.verdict) && row.submission.problem in b.problems {
      var p := b.problems[row.submission.problem];
      var o :| row.judgedAt.Some? && Carries(row, o, row.earned, row.judgedAt.value)
               && Fits(b, row.submission, o, row.earned);
      if Distinct(p.tests) {
        AcceptedArePassed(p.tests, row.tests, o.tests);
      }
    }
  }

  /** The time of a step that has one. */
  function TimeOf(l: Label): int {
    match l
    case Work(_, _, now) => now
    case Ask(_, now) => now
    case _ => 0
  }

  /** A row gets its result in a worker's or a client's step, and is stamped with the time of that step. */
  lemma StampedWhenFinished(b: Bench, s: State, l: Label, id: nat)
    requires Inv(b, s) && Enabled(b, s, l) && id < |s.rows| && Waiting(s.rows[id].verdict)
    requires id < |Next(b, s, l).rows| && !Waiting(Next(b, s, l).rows[id].verdict)
    ensures (l.Work? || l.Ask?) && Next(b, s, l).rows[id].judgedAt == Some(TimeOf(l))
  {
    hide Started, Built, Checked, Tested, Continued, Consistent, Apart, MemoryOk, ClientOk, ByIdx, Clip;
    match l {
      case Work(w, move, now) =>
        WorkTouchesOneRow(b, s, w, move, now);
        hide SettledAs;
        assert WorkerOk(b, s, w);
      case Ask(c, now) =>
      case _ =>
    }
  }

  /** The store of a run that has ended writes its report into the row, column by column, and its share. */
  lemma StoreCarriesReport(b: Bench, s: State, w: nat, now: int)
    requires Inv(b, s) && w < |s.workers| && s.workers[w].Finished?
    ensures WorkerEnabled(b, s, w, Go)
    ensures
      var pc, t := s.workers[w], WorkerNext(b, s, w, Go, now);
      && pc.id < |s.rows| == |t.rows| && t.rows[pc.id].submission == s.rows[pc.id].submission
      && Carries(t.rows[pc.id], pc.settled.outcome, pc.settled.earned, now)
  {
    hide Carries, Stored, Consistent;
    assert WorkerOk(b, s, w);
    var pc := s.workers[w];
    StoredCarries(s.rows[pc.id], pc.settled.outcome, pc.settled.earned, now);
  }

  /** While a submission is being judged its row lists exactly what has been published, with the sum of the points and
      the slowest and largest of them. */
  lemma RunningRowLists(b: Bench, r: Run, k: nat, w: nat)
    requires IsRun(b, r) && k < |r.states| && w < |r.states[k].workers|
    ensures
      var pc := r.states[k].workers[w];
      pc.AtTest? || pc.InTest? || pc.Publishing? || pc.Finished? ==>
        && pc.id < |r.states[k].rows|
        && var row := r.states[k].rows[pc.id];
        && Lists(row.tests, pc.shown) && row.score == Points(pc.shown)
        && IsSlowest(pc.shown, row.timeMs) && IsLargest(pc.shown, row.memoryKb)
  {
    hide IsRun, Lists, IsSlowest, IsLargest, Points, Slowest, Largest, ByIdx;
    OneWorkerEach(b, r, k, w, w);
    var pc := r.states[k].workers[w];
    if pc.AtTest? || pc.InTest? || pc.Publishing? || pc.Finished? {
      ByIdxLists(pc.shown);
      ExtremesAreAttained(pc.shown);
    }
  }
}
