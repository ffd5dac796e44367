/** Crash transparency: what a submission ends with does not depend on how its judging was interleaved or cut short. */
module ProtocolCrash {
  import opened Options
  import opened Verdicts
  import opened Runner
  import opened Submissions
  import opened Cancel
  import opened Worker
  import opened Protocol
  import opened ProtocolSafety
  import opened ProtocolCancel

  // ------------------------------------------------------- The same judge every time

  function EnvironmentOf(b: Bench, s: State, id: nat): Environment
    requires id < |s.rows|
  {
    Under(b.environment(s.rows[id].submission), false)
  }

  /** A step of a judge that always gets the same answers: what a step turns up is what the bench says, unless it was
      stopped by a request, and only publishing may fail. */
  predicate Faithful(b: Bench, s: State, l: Label) {
    l.Work? && l.w < |s.workers| && !s.workers[l.w].Idle? && s.workers[l.w].id < |s.rows| ==>
      var env := EnvironmentOf(b, s, s.workers[l.w].id);
      match l.move
      case Go => true
      case Fail => false
      case Prepare(p) => p == env.preparation
      case Build(c) => c == env.compilation || c.Stopped?
      case Finish(ran) => s.workers[l.w].InTest? ==>
        ran == env.run(s.workers[l.w].next) || (ran.Ran? && ran.verdict == AB)
      case Publish(_) => true
  }

  ghost predicate IsFaithful(b: Bench, r: Run) {
    IsRun(b, r) && forall k | 0 <= k < |r.labels| :: Faithful(b, r.states[k], r.labels[k])
  }

  /** What a submission settles as when nothing interrupts its judging. */
  function Expected(b: Bench, submission: Submission): Settled {
    Settle(b, submission, false)
  }

  /** The row a submission ends with, apart from when. */
  predicate Settled?(b: Bench, row: Row) {
    row == Stored(Queued(row.submission), Expected(b, row.submission).outcome, Expected(b, row.submission).earned,
                  if row.judgedAt.Some? then row.judgedAt.value else 0)
  }

  /** Somebody has got as far as trying to abort the submission. */
  predicate Tried(client: Client, id: nat) {
    && client.id == id
    && (client.Answered? ==>
          client.answer == None || client.answer == Some(WasQueued) || client.answer == Some(WasRunning))
  }

  predicate AskedFor(s: State, id: nat) {
    exists c | 0 <= c < |s.clients| :: Tried(s.clients[c], id)
  }

  // -------------------------------------------------------------- What a faithful run keeps

  predicate RowFaithful(b: Bench, s: State, id: nat)
    requires id < |s.rows|
  {
    var row := s.rows[id];
    if row.verdict == Pending then row == Queued(row.submission)
    else if row.verdict == Judging then row.maxScore == 0
    else Settled?(b, row) || (row.verdict == AB && AskedFor(s, id))
  }

  predicate Reaches(b: Bench, s: State, id: nat, o: JudgeOutcome)
    requires id < |s.rows|
  {
    o == Judged(TestsOf(b, s, id), IsPartial(b, s, id), EnvironmentOf(b, s, id)).outcome
  }

  /** The rest of the run, from this test on, comes to what an uninterrupted run comes to. */
  predicate Continues(b: Bench, s: State, id: nat, next: nat, sofar: JudgeOutcome)
    requires id < |s.rows|
  {
    && next <= |TestsOf(b, s, id)|
    && Reaches(b, s, id,
               JudgedFrom(TestsOf(b, s, id), IsPartial(b, s, id), EnvironmentOf(b, s, id), next, sofar).outcome)
  }

  predicate Comes(b: Bench, s: State, id: nat, settled: Settled)
    requires id < |s.rows|
  {
    settled == Expected(b, s.rows[id].submission) || (settled.outcome.verdict == AB && AskedFor(s, id))
  }

  predicate OnCourse(b: Bench, s: State, pc: Pc) {
    IdOf(pc).Some? ==>
      && pc.id < |s.rows|
      && match pc
         case Idle => true
         case Picked(_) => true
         case Clean(_) => true
         case Watching(_, _) => true
         case Compiling(id, _) =>
           ProblemOf(b, s, id).Some? && Refused(TestsOf(b, s, id), EnvironmentOf(b, s, id).preparation) == None
         case AtTest(id, _, next, sofar, _) => ProblemOf(b, s, id).Some? && Continues(b, s, id, next, sofar)
         case InTest(id, _, next, sofar, _) =>
           ProblemOf(b, s, id).Some? && Continues(b, s, id, next, sofar) && next < |TestsOf(b, s, id)|
         case Publishing(id, _, next, sofar, _, result) =>
           && ProblemOf(b, s, id).Some?
           && (if result.verdict != AC && !IsPartial(b, s, id) then Reaches(b, s, id, sofar)
               else Continues(b, s, id, next + 1, sofar))
         case Finished(id, _, settled, _) => Comes(b, s, id, settled)
         case Releasing(_, _) => true
         case Raising(_, _) => false
         case Failing(_) => false
  }

  predicate SignalFaithful(s: State, e: nat)
    requires e < |s.memory.signals|
  {
    s.memory.signals[e].isSet ==> AskedFor(s, s.memory.signals[e].submission)
  }

  ghost predicate OnTrack(b: Bench, s: State) {
    && Inv(b, s)
    && (forall id | 0 <= id < |s.rows| :: RowFaithful(b, s, id))
    && (forall w | 0 <= w < |s.workers| :: OnCourse(b, s, s.workers[w]))
    && (forall e | 0 <= e < |s.memory.signals| :: SignalFaithful(s, e))
  }

  // ------------------------------------------------------------------------ A worker's step

  lemma ReachingSettles(b: Bench, s: State, id: nat, o: JudgeOutcome)
    requires id < |s.rows| && ProblemOf(b, s, id).Some? && Reaches(b, s, id, o)
    ensures SettledAs(b, s, id, o) == Expected(b, s.rows[id].submission)
  {
    hide Judged, EarnedFor, Under;
  }

  lemma AbortingSettles(b: Bench, s: State, id: nat, o: JudgeOutcome)
    requires id < |s.rows| && o.verdict == AB && AskedFor(s, id)
    ensures Comes(b, s, id, SettledAs(b, s, id, o))
  {
  }

  lemma SetMeansAsked(b: Bench, s: State, id: nat, e: nat)
    requires OnTrack(b, s) && Mapped(s.memory, id, e) && IsSet(s.memory, e)
    ensures AskedFor(s, id)
  {
    hide WorkerOk, Apart, AskedFor;
    assert SignalFaithful(s, e);
  }

  lemma StartedOnCourse(b: Bench, s: State, id: nat, e: nat, move: Move)
    requires OnTrack(b, s) && id < |s.rows| && Mapped(s.memory, id, e) && !move.Fail?
    requires move.Prepare? <==> ProblemOf(b, s, id).Some?
    requires move.Prepare? ==> move.preparation == EnvironmentOf(b, s, id).preparation
    ensures OnCourse(b, s, Started(b, s, id, e, move))
  {
    hide OnTrack, SettledAs, Refused, NotBuilt, AskedFor, JudgedFrom;
    if move.Prepare? {
      var tests := TestsOf(b, s, id);
      match Refused(tests, move.preparation) {
        case Some(o) => ReachingSettles(b, s, id, o);
        case None =>
          if IsSet(s.memory, e) {
            SetMeansAsked(b, s, id, e);
            AbortingSettles(b, s, id, Failed(AB, MaxScore(tests), "Cancelled."));
          }
      }
    }
  }

  lemma BuiltOnCourse(b: Bench, s: State, id: nat, e: nat, c: Compilation)
    requires OnTrack(b, s) && id < |s.rows| && Mapped(s.memory, id, e)
    requires OnCourse(b, s, Compiling(id, e))
    requires c == EnvironmentOf(b, s, id).compilation || (c.Stopped? && IsSet(s.memory, e))
    ensures OnCourse(b, s, Built(b, s, id, e, c))
  {
    hide OnTrack, SettledAs, Refused, AskedFor, JudgedFrom;
    var tests := TestsOf(b, s, id);
    if c.Stopped? && IsSet(s.memory, e) {
      SetMeansAsked(b, s, id, e);
      AbortingSettles(b, s, id, Failed(AB, MaxScore(tests), "Cancelled."));
    } else if NotBuilt(tests, c).Some? {
      ReachingSettles(b, s, id, NotBuilt(tests, c).value);
    }
  }

  lemma NeverAsked(b: Bench, s: State, id: nat, i: nat)
    requires id < |s.rows|
    ensures !EnvironmentOf(b, s, id).asked(i)
  {
  }

  lemma CheckedOnCourse(b: Bench, s: State, id: nat, e: nat, next: nat, sofar: JudgeOutcome, shown: seq<TestOutcome>)
    requires OnTrack(b, s) && id < |s.rows| && Mapped(s.memory, id, e)
    requires OnCourse(b, s, AtTest(id, e, next, sofar, shown))
    ensures OnCourse(b, s, Checked(b, s, id, e, next, sofar, shown))
  {
    hide OnTrack, SettledAs, AskedFor, Judged, EnvironmentOf;
    if next >= |TestsOf(b, s, id)| {
      ReachingSettles(b, s, id, sofar);
    } else if IsSet(s.memory, e) {
      SetMeansAsked(b, s, id, e);
      AbortingSettles(b, s, id, Cancelled(sofar));
    }
  }

  lemma WorkerIsMapped(b: Bench, s: State, w: nat)
    requires OnTrack(b, s) && w < |s.workers| && EventOf(s.workers[w]).Some?
    ensures Mapped(s.memory, s.workers[w].id, s.workers[w].event) && s.workers[w].id < |s.rows|
  {
    assert WorkerOk(b, s, w);
  }

  lemma TestedOnCourse(b: Bench, s: State, id: nat, e: nat, next: nat, sofar: JudgeOutcome, shown: seq<TestOutcome>,
                       ran: Ran)
    requires OnTrack(b, s) && id < |s.rows| && Mapped(s.memory, id, e)
    requires OnCourse(b, s, InTest(id, e, next, sofar, shown)) && next < |TestsOf(b, s, id)|
    requires ran == EnvironmentOf(b, s, id).run(next) || (ran.Ran? && ran.verdict == AB)
    requires ran.Ran? && ran.verdict == AB ==> IsSet(s.memory, e)
    ensures OnCourse(b, s, Tested(b, s, id, e, next, sofar, shown, ran))
  {
    hide OnTrack, SettledAs, AskedFor, Judged, EnvironmentOf, Recorded, ResultOf;
    NeverAsked(b, s, id, next);
    if ran.Ran? && ran.verdict == AB {
      SetMeansAsked(b, s, id, e);
      AbortingSettles(b, s, id, Cancelled(sofar));
    } else {
      match ran {
        case Raised(message) => ReachingSettles(b, s, id, Failed(IE, sofar.maxScore, message));
        case Ran(verdict, _, _, _) => ResultHasVerdict(TestsOf(b, s, id)[next], ran);
      }
    }
  }

  lemma ResultHasVerdict(t: TestSpec, ran: Ran)
    requires ran.Ran?
    ensures ResultOf(t, ran).verdict == ran.verdict
  {
  }

  lemma ContinuedOnCourse(b: Bench, s: State, id: nat, e: nat, next: nat, sofar: JudgeOutcome,
                          before: seq<TestOutcome>, shown: seq<TestOutcome>, result: TestOutcome)
    requires id < |s.rows| && OnCourse(b, s, Publishing(id, e, next, sofar, before, result))
    ensures OnCourse(b, s, Continued(b, s, id, e, next, sofar, shown, result))
  {
    hide SettledAs, AskedFor, Judged, JudgedFrom, EnvironmentOf;
    if result.verdict != AC && !IsPartial(b, s, id) {
      ReachingSettles(b, s, id, sofar);
    }
  }

  /** What a faithful step computes for its worker keeps it on course for the expected result. */
  lemma OwnOnCourse(b: Bench, s: State, w: nat, move: Move, now: int)
    requires OnTrack(b, s) && s.up && WorkerEnabled(b, s, w, move) && Faithful(b, s, Work(w, move, now))
    ensures
      var pc := WorkerNext(b, s, w, move, now).workers[w];
      pc.Picked? || OnCourse(b, s, pc)
  {
    var pc := s.workers[w];
    assert OnCourse(b, s, pc);
    if EventOf(pc).Some? {
      WorkerIsMapped(b, s, w);
    }
    hide OnTrack, Started, Built, Checked, Tested, Continued, Stored, Published, Cleared, Continues, Reaches, Comes;
    match pc {
      case Watching(id, e) => StartedOnCourse(b, s, id, e, move);
      case Compiling(id, e) => BuiltOnCourse(b, s, id, e, move.compilation);
      case AtTest(id, e, next, sofar, shown) => CheckedOnCourse(b, s, id, e, next, sofar, shown);
      case InTest(id, e, next, sofar, shown) => TestedOnCourse(b, s, id, e, next, sofar, shown, move.ran);
      case Publishing(id, e, next, sofar, shown, result) =>
        ContinuedOnCourse(b, s, id, e, next, sofar, shown, if move.ok then shown + [result] else shown, result);
      case _ =>
    }
  }

  /** Being on course depends on the row's submission and on who has asked, nothing else. */
  lemma CourseFrame(b: Bench, s: State, t: State, pc: Pc)
    requires OnCourse(b, s, pc) && |s.rows| <= |t.rows|
    requires forall i | 0 <= i < |s.rows| :: t.rows[i].submission == s.rows[i].submission
    requires IdOf(pc).Some? && AskedFor(s, pc.id) ==> AskedFor(t, pc.id)
    ensures OnCourse(b, t, pc)
  {
    hide AskedFor, JudgedFrom, Judged, Refused, Settle, Under;
    if IdOf(pc).Some? {
      assert ProblemOf(b, t, pc.id) == ProblemOf(b, s, pc.id);
      assert EnvironmentOf(b, t, pc.id) == EnvironmentOf(b, s, pc.id);
    }
  }

  lemma StoredIsSettled(b: Bench, row: Row, settled: Settled, now: int)
    requires settled == Expected(b, row.submission)
    ensures Settled?(b, Stored(row, settled.outcome, settled.earned, now))
    ensures !Waiting(Stored(row, settled.outcome, settled.earned, now).verdict)
  {
  }

  lemma WorkKeepsRow(b: Bench, s: State, w: nat, move: Move, now: int)
    requires OnTrack(b, s) && s.up && WorkerEnabled(b, s, w, move) && Faithful(b, s, Work(w, move, now))
    ensures Touched(s, w) < |s.rows|
    ensures
      var t := WorkerNext(b, s, w, move, now);
      |t.rows| == |s.rows| && RowFaithful(b, t, Touched(s, w))
  {
    var pc, id := s.workers[w], Touched(s, w);
    assert OnCourse(b, s, pc) && WorkerOk(b, s, w);
    if id < |s.rows| {
      assert RowFaithful(b, s, id);
    }
    hide OnTrack, Consistent, Started, Built, Checked, Tested, Continued, Settled?, Expected;
    match pc {
      case Finished(_, _, settled, _) =>
        if settled == Expected(b, s.rows[id].submission) {
          StoredIsSettled(b, s.rows[id], settled, now);
        }
      case _ =>
    }
  }

  lemma WorkKeepsSignals(b: Bench, s: State, w: nat, move: Move, now: int)
    requires OnTrack(b, s) && WorkerEnabled(b, s, w, move)
    ensures
      var t := WorkerNext(b, s, w, move, now);
      forall e | 0 <= e < |t.memory.signals| :: SignalFaithful(t, e)
  {
    WorkIsLocal(b, s, w, move, now);
    var t := WorkerNext(b, s, w, move, now);
    assert t.clients == s.clients;
    hide Inv, WorkerOk, OnCourse, Stored, Published, SettledAs, Cleared, Started, Built, Checked, Tested, Continued,
         RowFaithful;
    forall e | 0 <= e < |t.memory.signals| ensures SignalFaithful(t, e) {
      if e < |s.memory.signals| {
        assert SignalFaithful(s, e) && t.memory.signals[e] == s.memory.signals[e];
      }
    }
  }

  lemma WorkStaysOnTrack(b: Bench, s: State, w: nat, move: Move, now: int)
    requires OnTrack(b, s) && s.up && WorkerEnabled(b, s, w, move) && Faithful(b, s, Work(w, move, now))
    ensures OnTrack(b, WorkerNext(b, s, w, move, now))
  {
    hide Inv, WorkerNext, WorkerEnabled, WorkerOk, OnCourse, RowFaithful, SignalFaithful, Settled?;
    var t := WorkerNext(b, s, w, move, now);
    WorkStep(b, s, w, move, now);
    WorkIsLocal(b, s, w, move, now);
    InRange(b, s, w, move);
    WorkKeepsRow(b, s, w, move, now);
    WorkKeepsSignals(b, s, w, move, now);
    forall id | 0 <= id < |t.rows| ensures RowFaithful(b, t, id) {
      assert RowFaithful(b, s, id);
      if id != Touched(s, w) {
        RowFrame(b, s, t, id);
      }
    }
    forall v | 0 <= v < |t.workers| ensures OnCourse(b, t, t.workers[v]) {
      if v == w {
        OwnOnCourse(b, s, w, move, now);
        if t.workers[w].Picked? {
          PickedOnCourse(b, t, w);
        } else {
          CourseFrame(b, s, t, t.workers[w]);
        }
      } else {
        CourseFrame(b, s, t, s.workers[v]);
      }
    }
  }

  lemma PickedOnCourse(b: Bench, t: State, w: nat)
    requires Inv(b, t) && w < |t.workers| && t.workers[w].Picked?
    ensures OnCourse(b, t, t.workers[w])
  {
    assert WorkerOk(b, t, w);
  }

  lemma RowFrame(b: Bench, s: State, t: State, id: nat)
    requires id < |s.rows| && id < |t.rows| && t.rows[id] == s.rows[id] && RowFaithful(b, s, id)
    requires AskedFor(s, id) ==> AskedFor(t, id)
    ensures RowFaithful(b, t, id)
  {
    hide AskedFor, Settled?;
  }

  // ------------------------------------------------------------------------ The other steps

  /** Who has asked is never forgotten. */
  lemma AskedIsKept(b: Bench, s: State, l: Label, id: nat)
    requires Enabled(b, s, l) && AskedFor(s, id)
    ensures AskedFor(Next(b, s, l), id)
  {
    hide Started, Built, Checked, Tested, Continued, Stored, Published;
    var c :| 0 <= c < |s.clients| && Tried(s.clients[c], id);
    if l.Work? {
      WorkIsLocal(b, s, l.w, l.move, l.now);
    }
    assert Tried(Next(b, s, l).clients[c], id);
  }

  lemma AskStaysOnTrack(b: Bench, s: State, c: nat, now: int)
    requires OnTrack(b, s) && s.up && ClientEnabled(s, c)
    ensures OnTrack(b, ClientNext(s, c, now))
  {
    var t, l := ClientNext(s, c, now), Ask(c, now);
    assert t == Next(b, s, l);
    AskStep(b, s, c, now);
    AskIsLocal(b, s, c, now);
    if s.clients[c].Holding? {
      ClientEvent(b, s, c);
    }
    assert Tried(t.clients[c], s.clients[c].id);
    hide Inv, OnCourse, Settled?;
    forall id | 0 <= id < |t.rows| ensures RowFaithful(b, t, id) {
      assert RowFaithful(b, s, id);
      if AskedFor(s, id) {
        AskedIsKept(b, s, l, id);
      }
    }
    forall v | 0 <= v < |t.workers| ensures OnCourse(b, t, t.workers[v]) {
      if IdOf(t.workers[v]).Some? && AskedFor(s, t.workers[v].id) {
        AskedIsKept(b, s, l, t.workers[v].id);
      }
      CourseFrame(b, s, t, t.workers[v]);
    }
    forall e | 0 <= e < |t.memory.signals| ensures SignalFaithful(t, e) {
      if e < |s.memory.signals| {
        assert SignalFaithful(s, e);
        if AskedFor(s, s.memory.signals[e].submission) {
          AskedIsKept(b, s, l, s.memory.signals[e].submission);
        }
      }
    }
  }

  lemma ClientEvent(b: Bench, s: State, c: nat)
    requires Inv(b, s) && c < |s.clients| && s.clients[c].Holding?
    ensures s.clients[c].event < |s.memory.signals|
    ensures s.memory.signals[s.clients[c].event].submission == s.clients[c].id
  {
    assert ClientOk(s, s.clients[c]);
  }

  lemma OtherStepsStayOnTrack(b: Bench, s: State, l: Label)
    requires OnTrack(b, s) && Enabled(b, s, l) && (l.Submit? || l.Arrive? || l.Crash? || l.Restart?)
    ensures OnTrack(b, Next(b, s, l))
  {
    var t := Next(b, s, l);
    StepKeepsInv(b, s, l);
    assert !s.up ==> s.workers == [] && s.memory == FORGOTTEN;
    hide Inv, OnCourse, Settled?, AskedFor;
    forall id | 0 <= id < |t.rows| ensures RowFaithful(b, t, id) {
      if id < |s.rows| {
        assert RowFaithful(b, s, id);
        if AskedFor(s, id) {
          AskedIsKept(b, s, l, id);
        }
      }
    }
    forall v | 0 <= v < |t.workers| ensures OnCourse(b, t, t.workers[v]) {
      if l.Restart? {
        IdleOnCourse(b, t);
      } else {
        if IdOf(t.workers[v]).Some? && AskedFor(s, t.workers[v].id) {
          AskedIsKept(b, s, l, t.workers[v].id);
        }
        CourseFrame(b, s, t, t.workers[v]);
      }
    }
    forall e | 0 <= e < |t.memory.signals| ensures SignalFaithful(t, e) {
      assert SignalFaithful(s, e);
      if AskedFor(s, s.memory.signals[e].submission) {
        AskedIsKept(b, s, l, s.memory.signals[e].submission);
      }
    }
  }

  lemma IdleOnCourse(b: Bench, s: State)
    ensures OnCourse(b, s, Idle)
  {
  }

  // ------------------------------------------------------------------------------ Over a run

  lemma {:induction false} EveryStateIsOnTrack(b: Bench, r: Run, k: nat)
    requires IsFaithful(b, r) && k < |r.states|
    ensures OnTrack(b, r.states[k])
  {
    hide OnTrack, Enabled, Next, Faithful;
    if k == 0 {
      StartsOnTrack(b);
    } else {
      EveryStateIsOnTrack(b, r, k - 1);
      assert StepsAt(b, r, k - 1);
      assert Faithful(b, r.states[k - 1], r.labels[k - 1]);
      StepStaysOnTrack(b, r.states[k - 1], r.labels[k - 1]);
    }
  }

  lemma StepStaysOnTrack(b: Bench, s: State, l: Label)
    requires OnTrack(b, s) && Enabled(b, s, l) && Faithful(b, s, l)
    ensures OnTrack(b, Next(b, s, l))
  {
    hide OnTrack, WorkerEnabled, WorkerNext, ClientNext, ClientEnabled, Faithful;
    match l {
      case Work(w, move, now) => WorkStaysOnTrack(b, s, w, move, now);
      case Ask(c, now) => AskStaysOnTrack(b, s, c, now);
      case _ => OtherStepsStayOnTrack(b, s, l);
    }
  }

  lemma StartsOnTrack(b: Bench)
    ensures OnTrack(b, INITIAL)
  {
    StartsSafe(b);
  }

  /** Whatever the interleaving, the crashes and the failed publishes, a submission nobody tried to abort that has a
      result has exactly the result of an undisturbed run, and one back in the queue shows no trace of earlier runs. */
  lemma CrashesLeaveNoTrace(b: Bench, r: Run, k: nat, id: nat)
    requires IsFaithful(b, r) && k < |r.states| && id < |r.states[k].rows|
    ensures
      var s := r.states[k];
      var row := s.rows[id];
      && (row.verdict == Pending ==> row == Queued(row.submission))
      && (!Waiting(row.verdict) && !AskedFor(s, id) ==> Settled?(b, row))
  {
    EveryStateIsOnTrack(b, r, k);
    assert RowFaithful(b, r.states[k], id);
  }

  /** Nothing but a request ends a run as aborted: with nobody asking, an aborted result is the run's own. */
  lemma NobodyIsAbortedUnasked(b: Bench, r: Run, k: nat, id: nat)
    requires IsFaithful(b, r) && k < |r.states| && id < |r.states[k].rows|
    requires r.states[k].rows[id].verdict == AB && Expected(b, r.states[k].rows[id].submission).outcome.verdict != AB
    ensures AskedFor(r.states[k], id)
  {
    EveryStateIsOnTrack(b, r, k);
    assert RowFaithful(b, r.states[k], id);
  }

  /** Two runs that judged the same submission, with different workers, crashes and timing, store the same row. */
  lemma RunsAgree(b: Bench, r: Run, q: Run, k: nat, l: nat, i: nat, j: nat)
    requires IsFaithful(b, r) && k < |r.states| && i < |r.states[k].rows|
    requires IsFaithful(b, q) && l < |q.states| && j < |q.states[l].rows|
    requires r.states[k].rows[i].submission == q.states[l].rows[j].submission
    requires !Waiting(r.states[k].rows[i].verdict) && !AskedFor(r.states[k], i)
    requires !Waiting(q.states[l].rows[j].verdict) && !AskedFor(q.states[l], j)
    ensures r.states[k].rows[i].(judgedAt := None) == q.states[l].rows[j].(judgedAt := None)
  {
    hide Expected, OnTrack;
    CrashesLeaveNoTrace(b, r, k, i);
    CrashesLeaveNoTrace(b, q, l, j);
  }

  /** And it is the row that draining the queue on one thread, with nothing else going on, leaves behind. */
  lemma AgreesWithDraining(b: Bench, r: Run, k: nat, id: nat, queued: Row, now: int)
    requires IsFaithful(b, r) && k < |r.states| && id < |r.states[k].rows|
    requires !Waiting(r.states[k].rows[id].verdict) && !AskedFor(r.states[k], id)
    requires queued.verdict == Pending && queued.submission == r.states[k].rows[id].submission
    ensures r.states[k].rows[id].(judgedAt := None) == DrainedRow(b, queued, false, now).(judgedAt := None)
  {
    hide OnTrack, Settle;
    CrashesLeaveNoTrace(b, r, k, id);
  }

  // --------------------------------------------------------------------- The whole table

  /** The submissions a run was given, in order. */
  function Submitted(labels: seq<Label>): seq<Submission> {
    if labels == [] then []
    else
      var last := labels[|labels| - 1];
      Submitted(labels[..|labels| - 1]) + (if last.Submit? then [last.submission] else [])
  }

  function SubmissionsOf(rows: seq<Row>): (submissions: seq<Submission>)
    ensures |submissions| == |rows| && forall i | 0 <= i < |rows| :: submissions[i] == rows[i].submission
  {
    seq(|rows|, i requires 0 <= i < |rows| => rows[i].submission)
  }

  lemma StepKeepsSubmissions(b: Bench, s: State, l: Label)
    requires Inv(b, s) && Enabled(b, s, l)
    ensures SubmissionsOf(Next(b, s, l).rows) ==
            SubmissionsOf(s.rows) + (if l.Submit? then [l.submission] else [])
  {
    hide WorkerNext, WorkerEnabled, ClientNext, Inv;
    match l {
      case Work(w, move, now) => WorkIsLocal(b, s, w, move, now);
      case Ask(c, now) => AskIsLocal(b, s, c, now);
      case _ =>
    }
  }

  /** No submission is ever lost, repeated or reordered. */
  lemma {:induction false} EverySubmissionIsKept(b: Bench, r: Run, k: nat)
    requires IsRun(b, r) && k < |r.states|
    ensures SubmissionsOf(r.states[k].rows) == Submitted(r.labels[..k])
  {
    hide Inv, Enabled, Next;
    if k > 0 {
      EverySubmissionIsKept(b, r, k - 1);
      EveryStateIsSafe(b, r, k - 1);
      assert StepsAt(b, r, k - 1);
      StepKeepsSubmissions(b, r.states[k - 1], r.labels[k - 1]);
      assert r.labels[..k][..k - 1] == r.labels[..k - 1];
    }
  }

  function AllQueued(submissions: seq<Submission>): seq<Row> {
    seq(|submissions|, i requires 0 <= i < |submissions| => Queued(submissions[i]))
  }

  /** What draining leaves of a table when nothing is asked, the times of judging put aside. */
  function Drained(b: Bench, rows: seq<Row>): seq<Row> {
    seq(|rows|, i requires 0 <= i < |rows| => DrainedRow(b, rows[i], false, 0).(judgedAt := None))
  }

  /** Whatever a run went through, with no aborts, stopping it anywhere, restarting and draining the queue leaves the
      whole table as if everything submitted had been drained in one go. */
  lemma RestartAndDrain(b: Bench, r: Run, k: nat)
    requires IsFaithful(b, r) && k < |r.states|
    requires forall i | 0 <= i < k :: !r.labels[i].Arrive?
    ensures Drained(b, AllRequeued(r.states[k].rows)) == Drained(b, AllQueued(Submitted(r.labels[..k])))
  {
    hide OnTrack, DrainedRow, Settled?;
    EverySubmissionIsKept(b, r, k);
    var rows := r.states[k].rows;
    forall i | 0 <= i < |rows|
      ensures DrainedRow(b, AllRequeued(rows)[i], false, 0).(judgedAt := None) ==
              DrainedRow(b, Queued(rows[i].submission), false, 0).(judgedAt := None)
    {
      NobodyAsks(b, r, k, i);
      EveryStateIsOnTrack(b, r, k);
      DrainsTheSame(b, r.states[k], i);
    }
  }

  lemma DrainsTheSame(b: Bench, s: State, id: nat)
    requires OnTrack(b, s) && id < |s.rows| && !AskedFor(s, id)
    ensures DrainedRow(b, Requeued(s.rows[id]), false, 0).(judgedAt := None) ==
            DrainedRow(b, Queued(s.rows[id].submission), false, 0).(judgedAt := None)
  {
    assert RowFaithful(b, s, id);
    hide Inv, Settle, OnCourse, SignalFaithful;
  }

  lemma {:induction false} NobodyAsks(b: Bench, r: Run, k: nat, id: nat)
    requires IsRun(b, r) && k < |r.states|
    requires forall i | 0 <= i < k :: !r.labels[i].Arrive?
    ensures r.states[k].clients == [] && !AskedFor(r.states[k], id)
  {
    hide WorkerNext, WorkerEnabled;
    if k > 0 {
      NobodyAsks(b, r, k - 1, id);
      assert StepsAt(b, r, k - 1);
      var s, l := r.states[k - 1], r.labels[k - 1];
      if l.Work? {
        WorkTouchesOneWorker(b, s, l.w, l.move, l.now);
      }
    }
  }
}
