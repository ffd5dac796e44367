/** What every reachable state of the judge queue keeps. */
module ProtocolSafety {
  import opened Options
  import opened Verdicts
  import opened Runner
  import opened RunnerLaws
  import opened Submissions
  import opened Cancel
  import opened Worker
  import opened Protocol

  // -------------------------------------------------------------- What one worker keeps

  predicate Mapped(m: Memory, id: nat, e: nat) {
    id in m.requests && m.requests[id] == e && e < |m.signals|
  }

  /** The worker's row is being judged until it is stored, and the event it watches is the mapped one until it
      releases it. */
  predicate Holds(rows: seq<Row>, m: Memory, pc: Pc) {
    && (IdOf(pc).Some? ==>
          && pc.id < |rows|
          && (if pc.Releasing? then !Waiting(rows[pc.id].verdict) else rows[pc.id].verdict == Judging))
    && (EventOf(pc).Some? ==> Mapped(m, pc.id, pc.event))
  }

  /** The row's running header is the sum and the maxima over exactly the tests published. */
  predicate Shows(row: Row, shown: seq<TestOutcome>) {
    && row.score == Points(shown) && row.timeMs == Slowest(shown) && row.memoryKb == Largest(shown)
    && row.tests == ByIdx(shown)
  }

  predicate Totals(o: JudgeOutcome) {
    && o.timeMs == Slowest(o.tests) && o.memoryKb == Largest(o.tests)
    && (o.verdict != AB ==> o.score == Points(o.tests))
    && (o.verdict == AB ==> o.score == 0)
  }

  predicate Consistent(tests: seq<TestSpec>, row: Row, pc: Pc) {
    match pc
    case Idle => true
    case Picked(_) => true
    case Clean(_) => Shows(row, [])
    case Watching(_, _) => Shows(row, [])
    case Compiling(_, _) => Shows(row, [])
    case AtTest(_, _, next, sofar, shown) =>
      Shows(row, shown) && sofar == Summary(MaxScore(tests), sofar.tests) && sofar.verdict != AB
    case InTest(_, _, next, sofar, shown) =>
      Shows(row, shown) && sofar == Summary(MaxScore(tests), sofar.tests) && sofar.verdict != AB && next < |tests|
    case Publishing(_, _, next, sofar, shown, result) =>
      Shows(row, shown) && sofar == Summary(MaxScore(tests), sofar.tests) && sofar.verdict != AB
    case Finished(_, _, settled, shown) =>
      Shows(row, shown) && Totals(settled.outcome) && (settled.outcome.verdict == AB ==> settled.earned == 0)
    case Releasing(_, _) => true
    case Raising(_, _) => true
    case Failing(_) => true
  }

  predicate WorkerOk(b: Bench, s: State, w: nat)
    requires w < |s.workers|
  {
    var pc := s.workers[w];
    Holds(s.rows, s.memory, pc) && (IdOf(pc).Some? ==> Consistent(TestsOf(b, s, pc.id), s.rows[pc.id], pc))
  }

  /** No two workers are on the same submission. */
  predicate Apart(s: State, v: nat, w: nat)
    requires v < |s.workers| && w < |s.workers|
  {
    v != w && !s.workers[v].Idle? && !s.workers[w].Idle? ==> s.workers[v].id != s.workers[w].id
  }

  // --------------------------------------------------------- What the request map and clients keep

  predicate MemoryOk(m: Memory) {
    forall id | id in m.requests :: m.requests[id] < |m.signals| && m.signals[m.requests[id]].submission == id
  }

  predicate Working(pc: Pc, id: nat) {
    IdOf(pc) == Some(id) && !pc.Releasing? && !pc.Raising? && !pc.Failing?
  }

  /** No run of a submission can meet a check any more in this process: it is out of the queue, and nobody runs it. */
  predicate Over(s: State, id: nat) {
    && id < |s.rows| && s.rows[id].verdict != Pending
    && forall w | 0 <= w < |s.workers| :: !Working(s.workers[w], id)
  }

  predicate SettledInQueue(s: State, id: nat) {
    && id < |s.rows| && s.rows[id].verdict == AB
    && forall w | 0 <= w < |s.workers| :: IdOf(s.workers[w]) != Some(id)
  }

  predicate ClientOk(s: State, client: Client) {
    && (!client.Answered? ==> client.id < |s.rows|)
    && (client.Holding? ==>
          && client.event < |s.memory.signals| && s.memory.signals[client.event].submission == client.id
          && (Mapped(s.memory, client.id, client.event) || Over(s, client.id)))
    && (client.Won? || (client.Answered? && client.answer == Some(WasQueued)) ==> SettledInQueue(s, client.id))
  }

  ghost predicate Inv(b: Bench, s: State) {
    && (!s.up ==> s.workers == [] && s.memory == FORGOTTEN && forall c | 0 <= c < |s.clients| :: s.clients[c].Answered?)
    && (forall w | 0 <= w < |s.workers| :: WorkerOk(b, s, w))
    && (forall v, w | 0 <= v < |s.workers| && 0 <= w < |s.workers| :: Apart(s, v, w))
    && MemoryOk(s.memory)
    && (forall c | 0 <= c < |s.clients| :: ClientOk(s, s.clients[c]))
  }

  // ------------------------------------------------------------------ Steps are local

  /** A step touches one row's content and one submission's mapping at most. */
  ghost predicate OnlyAt(s: State, t: State, id: nat) {
    && |t.rows| >= |s.rows|
    && (forall i | 0 <= i < |s.rows| :: t.rows[i].submission == s.rows[i].submission)
    && (forall i | 0 <= i < |s.rows| && i != id :: t.rows[i] == s.rows[i])
    && (forall i, e | i != id && Mapped(s.memory, i, e) :: Mapped(t.memory, i, e))
  }

  function Touched(s: State, w: nat): nat
    requires w < |s.workers|
  {
    if s.workers[w].Idle? then OldestPending(s.rows, 0) else s.workers[w].id
  }

  lemma WorkTouchesOneRow(b: Bench, s: State, w: nat, move: Move, now: int)
    requires WorkerEnabled(b, s, w, move)
    ensures
      var t, id := WorkerNext(b, s, w, move, now), Touched(s, w);
      && id < |s.rows| == |t.rows|
      && t.rows[id].submission == s.rows[id].submission && t.rows == s.rows[id := t.rows[id]]
  {
    hide Stored, Published, Cleared, Started, Built, Checked, Tested, Continued, SettledAs, Held, Released;
    var id := Touched(s, w);
    match s.workers[w] {
      case Picked(_) => ClearingKeeps(s.rows[id]);
      case Publishing(_, _, _, _, _, result) => SameSubmission(s.rows[id], result, NO_PROBLEM, now);
      case Finished(_, _, settled, _) => SameSubmission(s.rows[id], TestOutcome(0, AC, 0, 0, 0, ""), settled, now);
      case Failing(_) => SameSubmission(s.rows[id], TestOutcome(0, AC, 0, 0, 0, ""),
                                        Settled(Failed(IE, 0, "judge crashed"), 0), now);
      case _ =>
    }
  }

  lemma WorkTouchesOneMapping(b: Bench, s: State, w: nat, move: Move, now: int, i: nat, e: nat)
    requires WorkerEnabled(b, s, w, move) && i != Touched(s, w) && Mapped(s.memory, i, e)
    ensures Mapped(WorkerNext(b, s, w, move, now).memory, i, e)
  {
    hide Stored, Published, Cleared, Started, Built, Checked, Tested, Continued, SettledAs;
  }

  lemma WorkTouchesOneWorker(b: Bench, s: State, w: nat, move: Move, now: int)
    requires WorkerEnabled(b, s, w, move)
    ensures
      var t := WorkerNext(b, s, w, move, now);
      && t.up == s.up && t.clients == s.clients
      && w < |s.workers| == |t.workers| && t.workers == s.workers[w := t.workers[w]]
  {
    hide Stored, Published, Cleared, Started, Built, Checked, Tested, Continued, SettledAs, Held, Released;
  }

  lemma WorkIsLocal(b: Bench, s: State, w: nat, move: Move, now: int)
    requires WorkerEnabled(b, s, w, move)
    ensures
      var t := WorkerNext(b, s, w, move, now);
      && t.up == s.up && t.clients == s.clients
      && |t.rows| == |s.rows| && OnlyAt(s, t, Touched(s, w))
      && |t.workers| == |s.workers| && forall v | 0 <= v < |s.workers| && v != w :: t.workers[v] == s.workers[v]
  {
    hide WorkerNext, WorkerEnabled, Mapped, Touched;
    var t := WorkerNext(b, s, w, move, now);
    WorkTouchesOneRow(b, s, w, move, now);
    WorkTouchesOneWorker(b, s, w, move, now);
    forall i, e | i != Touched(s, w) && Mapped(s.memory, i, e) ensures Mapped(t.memory, i, e) {
      WorkTouchesOneMapping(b, s, w, move, now, i, e);
    }
  }

  lemma SameSubmission(row: Row, t: TestOutcome, settled: Settled, now: int)
    ensures Published(row, t).submission == row.submission
    ensures Stored(row, settled.outcome, settled.earned, now).submission == row.submission
  {
  }

  /** A step elsewhere leaves a worker as it was. */
  lemma WorkerFrame(b: Bench, s: State, t: State, v: nat, id: nat)
    requires v < |s.workers| && v < |t.workers| && s.workers[v] == t.workers[v]
    requires OnlyAt(s, t, id) && WorkerOk(b, s, v) && IdOf(s.workers[v]) != Some(id)
    ensures WorkerOk(b, t, v)
  {
    hide Consistent;
  }

  // ------------------------------------------------------------------- A worker's step

  lemma ShowsOneMore(row: Row, shown: seq<TestOutcome>, t: TestOutcome)
    requires Shows(row, shown)
    ensures Shows(Published(row, t), shown + [t])
  {
    assert (shown + [t])[..|shown|] == shown;
  }

  lemma ClearedShowsNothing(row: Row)
    ensures Shows(Cleared(row), [])
  {
  }

  lemma SummaryIsTotals(maxScore: int, o: JudgeOutcome)
    requires o == Summary(maxScore, o.tests)
    ensures o.verdict != AB ==> Totals(o)
    ensures Totals(Cancelled(o))
  {
    SummaryTotals(maxScore, o.tests);
  }

  lemma FailedIsTotals(v: Terminal, maxScore: int, message: string)
    ensures Totals(Failed(v, maxScore, message)) && Failed(AC, maxScore, "") == Summary(maxScore, [])
  {
    NothingYet(maxScore);
  }

  lemma RefusedIsTotals(tests: seq<TestSpec>, p: Preparation, c: Compilation)
    ensures Refused(tests, p).Some? ==> Totals(Refused(tests, p).value) && Refused(tests, p).value.verdict != AB
    ensures NotBuilt(tests, c).Some? ==> Totals(NotBuilt(tests, c).value)
  {
  }

  lemma SettledAsOk(b: Bench, s: State, id: nat, e: nat, o: JudgeOutcome, shown: seq<TestOutcome>)
    requires id < |s.rows| && Shows(s.rows[id], shown) && Totals(o)
    ensures Consistent(TestsOf(b, s, id), s.rows[id], Finished(id, e, SettledAs(b, s, id, o), shown))
  {
  }

  /** What a step other than a store computes for its worker fits the row. */
  lemma StartedOk(b: Bench, s: State, id: nat, e: nat, move: Move)
    requires id < |s.rows| && Shows(s.rows[id], [])
    ensures
      var pc := Started(b, s, id, e, move);
      pc.id == id && !pc.Releasing? && pc.event == e && Consistent(TestsOf(b, s, id), s.rows[id], pc)
  {
    hide Shows, Totals, SettledAs;
    if !move.Fail? {
      if !move.Prepare? {
        FailedIsTotals(IE, 0, "problem no longer exists");
      } else {
        var tests := TestsOf(b, s, id);
        RefusedIsTotals(tests, move.preparation, Compiled);
        FailedIsTotals(AB, MaxScore(tests), "Cancelled.");
        if Refused(tests, move.preparation).Some? {
          SettledAsOk(b, s, id, e, Refused(tests, move.preparation).value, []);
        } else {
          SettledAsOk(b, s, id, e, Failed(AB, MaxScore(tests), "Cancelled."), []);
        }
      }
    }
  }

  lemma BuiltOk(b: Bench, s: State, id: nat, e: nat, c: Compilation)
    requires id < |s.rows| && Shows(s.rows[id], [])
    ensures
      var pc := Built(b, s, id, e, c);
      pc.id == id && !pc.Releasing? && pc.event == e && Consistent(TestsOf(b, s, id), s.rows[id], pc)
  {
    hide Shows, Totals, SettledAs, Summary;
    var tests := TestsOf(b, s, id);
    RefusedIsTotals(tests, Preparation(None, None, None), c);
    FailedIsTotals(AC, MaxScore(tests), "");
    if NotBuilt(tests, c).Some? {
      SettledAsOk(b, s, id, e, NotBuilt(tests, c).value, []);
    }
  }

  lemma TestedOk(b: Bench, s: State, id: nat, e: nat, next: nat, sofar: JudgeOutcome, shown: seq<TestOutcome>, ran: Ran)
    requires id < |s.rows| && next < |TestsOf(b, s, id)|
    requires Consistent(TestsOf(b, s, id), s.rows[id], InTest(id, e, next, sofar, shown))
    ensures
      var pc := Tested(b, s, id, e, next, sofar, shown, ran);
      pc.id == id && !pc.Releasing? && pc.event == e && Consistent(TestsOf(b, s, id), s.rows[id], pc)
  {
    hide Shows, Totals, SettledAs, Summary;
    var tests := TestsOf(b, s, id);
    match ran {
      case Raised(message) =>
        FailedIsTotals(IE, sofar.maxScore, message);
        SettledAsOk(b, s, id, e, Failed(IE, sofar.maxScore, message), shown);
      case Ran(verdict, _, _, _) =>
        if verdict == AB {
          SummaryIsTotals(MaxScore(tests), sofar);
          SettledAsOk(b, s, id, e, Cancelled(sofar), shown);
        } else {
          RecordingSummarises(MaxScore(tests), sofar.tests, ResultOf(tests[next], ran));
        }
    }
  }

  lemma ContinuedOk(b: Bench, s: State, id: nat, e: nat, next: nat, sofar: JudgeOutcome, shown: seq<TestOutcome>,
                    result: TestOutcome)
    requires id < |s.rows| && Shows(s.rows[id], shown)
    requires sofar == Summary(MaxScore(TestsOf(b, s, id)), sofar.tests) && sofar.verdict != AB
    ensures
      var pc := Continued(b, s, id, e, next, sofar, shown, result);
      pc.id == id && !pc.Releasing? && pc.event == e && Consistent(TestsOf(b, s, id), s.rows[id], pc)
  {
    hide Shows, Totals, SettledAs, Summary;
    SummaryIsTotals(MaxScore(TestsOf(b, s, id)), sofar);
    SettledAsOk(b, s, id, e, sofar, shown);
  }

  lemma CheckedOk(b: Bench, s: State, id: nat, e: nat, next: nat, sofar: JudgeOutcome, shown: seq<TestOutcome>)
    requires id < |s.rows| && Consistent(TestsOf(b, s, id), s.rows[id], AtTest(id, e, next, sofar, shown))
    ensures
      var pc := Checked(b, s, id, e, next, sofar, shown);
      pc.id == id && !pc.Releasing? && pc.event == e && Consistent(TestsOf(b, s, id), s.rows[id], pc)
  {
    hide Shows, Totals, SettledAs, Summary;
    SummaryIsTotals(MaxScore(TestsOf(b, s, id)), sofar);
    SettledAsOk(b, s, id, e, sofar, shown);
    SettledAsOk(b, s, id, e, Cancelled(sofar), shown);
  }

  lemma PublishOk(b: Bench, s: State, w: nat, move: Move, now: int)
    requires WorkerEnabled(b, s, w, move) && s.workers[w].Publishing? && WorkerOk(b, s, w)
    ensures WorkerOk(b, WorkerNext(b, s, w, move, now), w)
  {
    hide Shows, Totals, Summary, EarnedFor, Published;
    var pc := s.workers[w];
    ShowsOneMore(s.rows[pc.id], pc.shown, pc.result);
    var rows := if move.ok then s.rows[pc.id := Published(s.rows[pc.id], pc.result)] else s.rows;
    var u := s.(rows := rows);
    PublishingKeeps(s.rows[pc.id], pc.result);
    assert ProblemOf(b, u, pc.id) == ProblemOf(b, s, pc.id);
    ContinuedOk(b, u, pc.id, pc.event, pc.next, pc.sofar,
                if move.ok then pc.shown + [pc.result] else pc.shown, pc.result);
  }

  lemma PublishingKeeps(row: Row, t: TestOutcome)
    ensures Published(row, t).verdict == row.verdict && Published(row, t).submission == row.submission
  {
  }

  lemma ClearOk(b: Bench, s: State, w: nat, move: Move, now: int)
    requires WorkerEnabled(b, s, w, move) && s.workers[w].Picked? && WorkerOk(b, s, w)
    ensures WorkerOk(b, WorkerNext(b, s, w, move, now), w)
  {
    hide Shows, Cleared;
    ClearedShowsNothing(s.rows[s.workers[w].id]);
    ClearingKeeps(s.rows[s.workers[w].id]);
  }

  lemma RegisterOk(b: Bench, s: State, w: nat, move: Move, now: int)
    requires WorkerEnabled(b, s, w, move) && s.workers[w].Clean? && WorkerOk(b, s, w) && MemoryOk(s.memory)
    ensures WorkerOk(b, WorkerNext(b, s, w, move, now), w)
  {
    hide Shows;
  }

  lemma LookOk(b: Bench, s: State, w: nat, move: Move, now: int)
    requires WorkerEnabled(b, s, w, move) && WorkerOk(b, s, w)
    requires s.workers[w].Watching? || s.workers[w].Compiling? || s.workers[w].AtTest? || s.workers[w].InTest?
    ensures WorkerOk(b, WorkerNext(b, s, w, move, now), w)
  {
    hide Shows, Totals, SettledAs, Summary, Started, Built, Checked, Tested;
    match s.workers[w] {
      case Watching(id, e) => StartedOk(b, s, id, e, move);
      case Compiling(id, e) => BuiltOk(b, s, id, e, move.compilation);
      case AtTest(id, e, next, sofar, shown) => CheckedOk(b, s, id, e, next, sofar, shown);
      case InTest(id, e, next, sofar, shown) => TestedOk(b, s, id, e, next, sofar, shown, move.ran);
    }
  }

  lemma LastStepsOk(b: Bench, s: State, w: nat, move: Move, now: int)
    requires WorkerEnabled(b, s, w, move) && WorkerOk(b, s, w)
    requires
      var pc := s.workers[w];
      pc.Idle? || pc.Finished? || pc.Releasing? || pc.Raising? || pc.Failing?
    ensures WorkerOk(b, WorkerNext(b, s, w, move, now), w)
  {
    hide Shows, Totals, ByIdx;
  }

  /** The worker that steps is still in order afterwards. */
  lemma OwnWorkerOk(b: Bench, s: State, w: nat, move: Move, now: int)
    requires WorkerEnabled(b, s, w, move) && WorkerOk(b, s, w) && MemoryOk(s.memory)
    ensures WorkerOk(b, WorkerNext(b, s, w, move, now), w)
  {
    hide WorkerOk, WorkerNext, MemoryOk;
    match s.workers[w] {
      case Picked(_) => ClearOk(b, s, w, move, now);
      case Clean(_) => RegisterOk(b, s, w, move, now);
      case Watching(_, _) => LookOk(b, s, w, move, now);
      case Compiling(_, _) => LookOk(b, s, w, move, now);
      case InTest(_, _, _, _, _) => LookOk(b, s, w, move, now);
      case AtTest(_, _, _, _, _) => LookOk(b, s, w, move, now);
      case Publishing(_, _, _, _, _, _) => PublishOk(b, s, w, move, now);
      case _ => LastStepsOk(b, s, w, move, now);
    }
  }

  lemma ClearingKeeps(row: Row)
    ensures Cleared(row).verdict == row.verdict && Cleared(row).submission == row.submission
  {
  }

  // ------------------------------------------------------------- Steps keep the invariant

  /** Nobody else is on the submission a step touches. */
  lemma NobodyElseThere(b: Bench, s: State, w: nat, v: nat, move: Move)
    requires Inv(b, s) && WorkerEnabled(b, s, w, move) && v < |s.workers| && v != w
    ensures IdOf(s.workers[v]) != Some(Touched(s, w))
  {
    assert Apart(s, v, w);
    assert WorkerOk(b, s, v);
  }

  lemma WorkKeepsWorkers(b: Bench, s: State, w: nat, move: Move, now: int)
    requires Inv(b, s) && s.up && WorkerEnabled(b, s, w, move)
    ensures
      var t := WorkerNext(b, s, w, move, now);
      && |t.workers| == |s.workers|
      && (forall v | 0 <= v < |t.workers| :: WorkerOk(b, t, v))
      && (forall u, v | 0 <= u < |t.workers| && 0 <= v < |t.workers| :: Apart(t, u, v))
  {
    hide WorkerOk, WorkerNext, WorkerEnabled;
    var t := WorkerNext(b, s, w, move, now);
    WorkIsLocal(b, s, w, move, now);
    InRange(b, s, w, move);
    forall v | 0 <= v < |t.workers| ensures WorkerOk(b, t, v) {
      assert WorkerOk(b, s, v);
      if v == w {
        OwnWorkerOk(b, s, w, move, now);
      } else {
        NobodyElseThere(b, s, w, v, move);
        WorkerFrame(b, s, t, v, Touched(s, w));
      }
    }
    SameOrTouched(b, s, w, move, now);
    forall u, v | 0 <= u < |t.workers| && 0 <= v < |t.workers| ensures Apart(t, u, v) {
      assert Apart(s, u, v);
      if u != w {
        NobodyElseThere(b, s, w, u, move);
      }
      if v != w {
        NobodyElseThere(b, s, w, v, move);
      }
    }
  }

  lemma InRange(b: Bench, s: State, w: nat, move: Move)
    requires WorkerEnabled(b, s, w, move)
    ensures w < |s.workers|
  {
  }

  lemma SameOrTouched(b: Bench, s: State, w: nat, move: Move, now: int)
    requires WorkerEnabled(b, s, w, move)
    ensures
      var pc := WorkerNext(b, s, w, move, now).workers[w];
      pc.Idle? || pc.id == Touched(s, w)
  {
    hide Stored, Published, SettledAs, Cleared, Recorded, Refused, NotBuilt, ResultOf;
  }

  lemma WorkKeepsMemory(b: Bench, s: State, w: nat, move: Move, now: int)
    requires WorkerEnabled(b, s, w, move) && MemoryOk(s.memory)
    ensures
      var m := WorkerNext(b, s, w, move, now).memory;
      && MemoryOk(m) && |m.signals| >= |s.memory.signals|
      && m.signals[..|s.memory.signals|] == s.memory.signals
  {
    hide Stored, Published, SettledAs, Cleared, Started, Built, Checked, Tested, Continued;
  }

  /** Once nobody can meet a check on a submission, nobody will: it never comes back to the queue in this process. */
  lemma WorkKeepsOver(b: Bench, s: State, w: nat, move: Move, now: int, id: nat)
    requires Inv(b, s) && WorkerEnabled(b, s, w, move) && Over(s, id)
    ensures Over(WorkerNext(b, s, w, move, now), id)
  {
    hide Consistent, Started, Built, Checked, Tested, Continued, SettledAs, Totals;
    WorkIsLocal(b, s, w, move, now);
    assert WorkerOk(b, s, w);
    SameOrTouched(b, s, w, move, now);
  }

  lemma WorkKeepsSettled(b: Bench, s: State, w: nat, move: Move, now: int, id: nat)
    requires Inv(b, s) && WorkerEnabled(b, s, w, move) && SettledInQueue(s, id)
    ensures SettledInQueue(WorkerNext(b, s, w, move, now), id)
  {
    hide WorkerNext, Consistent;
    WorkIsLocal(b, s, w, move, now);
    SameOrTouched(b, s, w, move, now);
  }

  /** The event a submission maps to stays the mapped one until the run it belongs to is over. */
  lemma WorkKeepsMapping(b: Bench, s: State, w: nat, move: Move, now: int, id: nat, e: nat)
    requires Inv(b, s) && WorkerEnabled(b, s, w, move) && Mapped(s.memory, id, e)
    ensures
      var t := WorkerNext(b, s, w, move, now);
      Mapped(t.memory, id, e) || Over(t, id)
  {
    hide Consistent, Started, Built, Checked, Tested, Continued, SettledAs, Stored, Published, Totals;
    WorkIsLocal(b, s, w, move, now);
    assert WorkerOk(b, s, w);
    if id == Touched(s, w) && (s.workers[w].Releasing? || s.workers[w].Raising?) {
      forall v | 0 <= v < |s.workers| && v != w ensures IdOf(s.workers[v]) != Some(id) {
        NobodyElseThere(b, s, w, v, move);
      }
    }
  }

  lemma WorkStep(b: Bench, s: State, w: nat, move: Move, now: int)
    requires Inv(b, s) && s.up && WorkerEnabled(b, s, w, move)
    ensures Inv(b, WorkerNext(b, s, w, move, now))
  {
    hide WorkerNext, WorkerEnabled, WorkerOk, Apart, Over, SettledInQueue, MemoryOk;
    var t := WorkerNext(b, s, w, move, now);
    WorkKeepsWorkers(b, s, w, move, now);
    WorkKeepsMemory(b, s, w, move, now);
    InRange(b, s, w, move);
    WorkIsLocal(b, s, w, move, now);
    forall c | 0 <= c < |t.clients| ensures ClientOk(t, t.clients[c]) {
      var client := s.clients[c];
      assert ClientOk(s, client);
      if client.Holding? {
        assert t.memory.signals[..|s.memory.signals|][client.event] == s.memory.signals[client.event];
        if Over(s, client.id) {
          WorkKeepsOver(b, s, w, move, now, client.id);
        } else {
          WorkKeepsMapping(b, s, w, move, now, client.id, client.event);
        }
      }
      if client.Won? || (client.Answered? && client.answer == Some(WasQueued)) {
        WorkKeepsSettled(b, s, w, move, now, client.id);
      }
    }
  }

  // ------------------------------------------------------------------- A client's step

  lemma AskIsLocal(b: Bench, s: State, c: nat, now: int)
    requires Inv(b, s) && ClientEnabled(s, c)
    ensures
      var t := ClientNext(s, c, now);
      && t.workers == s.workers && t.up == s.up && |t.rows| == |s.rows|
      && |t.clients| == |s.clients| && (forall d | 0 <= d < |s.clients| && d != c :: t.clients[d] == s.clients[d])
      && OnlyAt(s, t, s.clients[c].id)
      && MemoryOk(t.memory) && |t.memory.signals| >= |s.memory.signals|
      && forall e | 0 <= e < |s.memory.signals| :: t.memory.signals[e].submission == s.memory.signals[e].submission
  {
    hide WorkerOk, Apart, Over, SettledInQueue;
  }

  /** A client never disturbs a worker: it turns a row only while it is pending, and lets go of an event only after
      it has won the row. */
  lemma AskKeepsWorkers(b: Bench, s: State, c: nat, now: int, w: nat)
    requires Inv(b, s) && ClientEnabled(s, c) && w < |s.workers|
    ensures WorkerOk(b, ClientNext(s, c, now), w)
  {
    hide Apart, Over, Consistent, MemoryOk;
    AskIsLocal(b, s, c, now);
    assert WorkerOk(b, s, w);
    var client, t := s.clients[c], ClientNext(s, c, now);
    assert ClientOk(s, client);
    if IdOf(s.workers[w]) != Some(client.id) {
      WorkerFrame(b, s, t, w, client.id);
    }
  }

  lemma AskKeepsOver(b: Bench, s: State, c: nat, now: int, id: nat)
    requires Inv(b, s) && ClientEnabled(s, c) && Over(s, id)
    ensures Over(ClientNext(s, c, now), id)
  {
    hide WorkerOk, Apart, MemoryOk;
    AskIsLocal(b, s, c, now);
  }

  lemma AskKeepsSettled(b: Bench, s: State, c: nat, now: int, id: nat)
    requires Inv(b, s) && ClientEnabled(s, c) && SettledInQueue(s, id)
    ensures SettledInQueue(ClientNext(s, c, now), id)
  {
    hide WorkerOk, Apart, MemoryOk, Over;
    AskIsLocal(b, s, c, now);
  }

  lemma AskKeepsMapping(b: Bench, s: State, c: nat, now: int, id: nat, e: nat)
    requires Inv(b, s) && ClientEnabled(s, c) && Mapped(s.memory, id, e)
    ensures
      var t := ClientNext(s, c, now);
      Mapped(t.memory, id, e) || Over(t, id)
  {
    hide WorkerOk, Apart, MemoryOk;
    AskIsLocal(b, s, c, now);
    assert ClientOk(s, s.clients[c]);
  }

  /** The client that steps is still in order afterwards. */
  lemma OwnClientOk(b: Bench, s: State, c: nat, now: int)
    requires Inv(b, s) && ClientEnabled(s, c)
    ensures
      var t := ClientNext(s, c, now);
      ClientOk(t, t.clients[c])
  {
    hide Apart, Consistent;
    var client := s.clients[c];
    assert ClientOk(s, client);
    if client.Asked? && s.rows[client.id].verdict == Pending {
      forall w | 0 <= w < |s.workers| ensures IdOf(s.workers[w]) != Some(client.id) {
        assert WorkerOk(b, s, w);
      }
    }
  }

  lemma AskStep(b: Bench, s: State, c: nat, now: int)
    requires Inv(b, s) && s.up && ClientEnabled(s, c)
    ensures Inv(b, ClientNext(s, c, now))
  {
    hide ClientNext, WorkerOk, Over, SettledInQueue, MemoryOk;
    var t := ClientNext(s, c, now);
    AskIsLocal(b, s, c, now);
    forall w | 0 <= w < |t.workers| ensures WorkerOk(b, t, w) {
      AskKeepsWorkers(b, s, c, now, w);
    }
    forall v, w | 0 <= v < |t.workers| && 0 <= w < |t.workers| ensures Apart(t, v, w) {
      assert Apart(s, v, w);
    }
    forall d | 0 <= d < |t.clients| ensures ClientOk(t, t.clients[d]) {
      var client := s.clients[d];
      assert ClientOk(s, client);
      if d == c {
        OwnClientOk(b, s, c, now);
      } else {
        if client.Holding? {
          if Over(s, client.id) {
            AskKeepsOver(b, s, c, now, client.id);
          } else {
            AskKeepsMapping(b, s, c, now, client.id, client.event);
          }
        }
        if client.Won? || (client.Answered? && client.answer == Some(WasQueued)) {
          AskKeepsSettled(b, s, c, now, client.id);
        }
      }
    }
  }

  // ------------------------------------------------------------------ The other steps

  lemma SubmitStep(b: Bench, s: State, submission: Submission)
    requires Inv(b, s) && s.up
    ensures Inv(b, s.(rows := s.rows + [Queued(submission)]))
  {
    hide MemoryOk, Consistent;
    var t := s.(rows := s.rows + [Queued(submission)]);
    forall w | 0 <= w < |t.workers| ensures WorkerOk(b, t, w) {
      assert WorkerOk(b, s, w);
    }
    forall v, w | 0 <= v < |t.workers| && 0 <= w < |t.workers| ensures Apart(t, v, w) {
      assert Apart(s, v, w);
    }
    forall d | 0 <= d < |t.clients| ensures ClientOk(t, t.clients[d]) {
      assert ClientOk(s, s.clients[d]);
    }
  }

  lemma ArriveStep(b: Bench, s: State, id: nat, mayCancel: bool)
    requires Inv(b, s) && s.up
    ensures Inv(b, s.(clients := s.clients + [Arrived(s, id, mayCancel)]))
  {
    hide MemoryOk, Consistent;
    var t := s.(clients := s.clients + [Arrived(s, id, mayCancel)]);
    forall w | 0 <= w < |t.workers| ensures WorkerOk(b, t, w) {
      assert WorkerOk(b, s, w);
    }
    forall v, w | 0 <= v < |t.workers| && 0 <= w < |t.workers| ensures Apart(t, v, w) {
      assert Apart(s, v, w);
    }
    forall d | 0 <= d < |t.clients| ensures ClientOk(t, t.clients[d]) {
      if d < |s.clients| {
        assert ClientOk(s, s.clients[d]);
      }
    }
  }

  lemma CrashStep(b: Bench, s: State)
    requires Inv(b, s) && s.up
    ensures Inv(b, Next(b, s, Crash))
  {
    var t := Next(b, s, Crash);
    forall d | 0 <= d < |t.clients| ensures ClientOk(t, t.clients[d]) {
      assert ClientOk(s, s.clients[d]);
    }
  }

  lemma RestartStep(b: Bench, s: State, n: nat)
    requires Inv(b, s) && !s.up
    ensures Inv(b, Next(b, s, Restart(n)))
  {
    var t := Next(b, s, Restart(n));
    forall d | 0 <= d < |t.clients| ensures ClientOk(t, t.clients[d]) {
      assert ClientOk(s, s.clients[d]);
    }
  }

  lemma StepKeepsInv(b: Bench, s: State, l: Label)
    requires Inv(b, s) && Enabled(b, s, l)
    ensures Inv(b, Next(b, s, l))
  {
    hide Inv, WorkerEnabled, WorkerNext, ClientNext, ClientEnabled;
    match l {
      case Submit(submission) => SubmitStep(b, s, submission);
      case Work(w, move, now) => WorkStep(b, s, w, move, now);
      case Arrive(id, mayCancel) => ArriveStep(b, s, id, mayCancel);
      case Ask(c, now) => AskStep(b, s, c, now);
      case Crash => CrashStep(b, s);
      case Restart(n) => RestartStep(b, s, n);
    }
  }

  // ------------------------------------------------------------------------- Over a run

  lemma {:induction false} EveryStateIsSafe(b: Bench, r: Run, k: nat)
    requires IsRun(b, r) && k < |r.states|
    ensures Inv(b, r.states[k])
  {
    hide Inv, Enabled, Next;
    if k == 0 {
      StartsSafe(b);
    } else {
      EveryStateIsSafe(b, r, k - 1);
      assert StepsAt(b, r, k - 1);
      StepKeepsInv(b, r.states[k - 1], r.labels[k - 1]);
    }
  }

  lemma StartsSafe(b: Bench)
    ensures Inv(b, INITIAL)
  {
  }

  /** In every reachable state a submission has at most one worker on it, a worker that has not stored yet works on a
      row being judged, and from the clearing step on that row's score, time and memory are the sum and the maxima over
      the tests published so far, which are the tests it lists. */
  lemma OneWorkerEach(b: Bench, r: Run, k: nat, v: nat, w: nat)
    requires IsRun(b, r) && k < |r.states|
    requires v < |r.states[k].workers| && w < |r.states[k].workers|
    ensures
      var s := r.states[k];
      var pc := s.workers[w];
      && (IdOf(s.workers[v]).Some? && IdOf(s.workers[v]) == IdOf(pc) ==> v == w)
      && (IdOf(pc).Some? && !pc.Releasing? ==> pc.id < |s.rows| && s.rows[pc.id].verdict == Judging)
      && (pc.Clean? || pc.Watching? || pc.Compiling? ==> Shows(s.rows[pc.id], []))
      && (pc.AtTest? || pc.InTest? || pc.Publishing? || pc.Finished? ==> Shows(s.rows[pc.id], pc.shown))
  {
    EveryStateIsSafe(b, r, k);
    assert WorkerOk(b, r.states[k], w);
    assert WorkerOk(b, r.states[k], v);
    assert Apart(r.states[k], v, w);
  }

  /** A worker that is on a submission can always take a step: the guards of the machine never strand it. */
  lemma NoWorkerIsStuck(b: Bench, r: Run, k: nat, w: nat) returns (move: Move)
    requires IsRun(b, r) && k < |r.states|
    requires w < |r.states[k].workers| && !r.states[k].workers[w].Idle?
    ensures !move.Fail? && WorkerEnabled(b, r.states[k], w, move)
  {
    EveryStateIsSafe(b, r, k);
    var s, pc := r.states[k], r.states[k].workers[w];
    assert WorkerOk(b, s, w);
    move := if pc.Watching? && ProblemOf(b, s, pc.id).Some? then Prepare(Preparation(None, None, None))
            else if pc.Compiling? then Build(Compiled)
            else if pc.InTest? then Finish(Ran(AC, 0, 0, ""))
            else if pc.Publishing? then Publish(true)
            else Go;
  }
}
