/** What a run publishes on the way against what it stores at the end. */
module ProtocolPublish {
  import opened Options
  import opened Verdicts
  import opened Runner
  import opened RunnerLaws
  import opened Submissions
  import opened Cancel
  import opened Worker
  import opened Protocol
  import opened ProtocolSafety

  /** The step is this worker's, and a publish that failed or a test run that raised. */
  predicate Loses(l: Label, w: nat) {
    l.Work? && l.w == w && (l.move == Publish(false) || (l.move.Finish? && l.move.ran.Raised?))
  }

  /** Every result recorded so far has been published. */
  predicate AllShown(pc: Pc) {
    match pc
    case AtTest(_, _, _, sofar, shown) => shown == sofar.tests
    case InTest(_, _, _, sofar, shown) => shown == sofar.tests
    case Publishing(_, _, _, sofar, shown, result) => shown + [result] == sofar.tests
    case Finished(_, _, settled, shown) => shown == settled.outcome.tests
    case _ => true
  }

  lemma OwnStepShows(b: Bench, s: State, w: nat, move: Move, now: int)
    requires WorkerEnabled(b, s, w, move) && AllShown(s.workers[w]) && !Loses(Work(w, move, now), w)
    ensures AllShown(WorkerNext(b, s, w, move, now).workers[w])
  {
    hide Stored, Published, Cleared, Held, Released, EarnedFor, MaxScore;
  }

  lemma StepShows(b: Bench, s: State, l: Label, w: nat)
    requires Inv(b, s) && Enabled(b, s, l) && !Loses(l, w)
    requires w < |s.workers| ==> AllShown(s.workers[w])
    requires w < |Next(b, s, l).workers|
    ensures AllShown(Next(b, s, l).workers[w])
  {
    hide WorkerNext, WorkerEnabled, AllShown, Inv, ClientNext;
    match l {
      case Work(v, move, now) =>
        WorkTouchesOneWorker(b, s, v, move, now);
        if v == w {
          OwnStepShows(b, s, w, move, now);
        }
      case Ask(c, now) => AskIsLocal(b, s, c, now);
      case Restart(_) => IdleShows();
      case _ =>
    }
  }

  lemma IdleShows()
    ensures AllShown(Idle)
  {
  }

  predicate NothingLost(r: Run, i: nat, k: nat, w: nat)
    requires i <= k <= |r.labels|
  {
    forall j | i <= j < k :: !Loses(r.labels[j], w)
  }

  /** The worker claims a submission at step i, and has had it ever since. */
  ghost predicate HasHadSince(b: Bench, r: Run, i: nat, k: nat, w: nat)
    requires IsRun(b, r) && i < k < |r.states|
  {
    && r.labels[i].Work? && r.labels[i].w == w && w < |r.states[i].workers| && r.states[i].workers[w].Idle?
    && forall j | i < j <= k :: w < |r.states[j].workers| && !r.states[j].workers[w].Idle?
  }

  /** A worker that has a submission claimed it at some step and has had it ever since. */
  lemma {:induction false} WasClaimed(b: Bench, r: Run, k: nat, w: nat) returns (i: nat)
    requires IsRun(b, r) && k < |r.states| && w < |r.states[k].workers| && !r.states[k].workers[w].Idle?
    ensures i < k && HasHadSince(b, r, i, k, w)
  {
    hide WorkerNext, WorkerEnabled, ClientNext, Inv;
    assert k > 0;
    assert StepsAt(b, r, k - 1);
    var s, l := r.states[k - 1], r.labels[k - 1];
    EveryStateIsSafe(b, r, k - 1);
    if l.Work? {
      WorkTouchesOneWorker(b, s, l.w, l.move, l.now);
    } else if l.Ask? {
      AskIsLocal(b, s, l.c, l.at);
    }
    if s.workers[w].Idle? {
      i := k - 1;
    } else {
      i := WasClaimed(b, r, k - 1, w);
    }
  }

  lemma {:induction false} PublishedIsShown(b: Bench, r: Run, i: nat, k: nat, w: nat)
    requires IsRun(b, r) && i < k < |r.states| && HasHadSince(b, r, i, k, w) && NothingLost(r, i, k, w)
    ensures AllShown(r.states[k].workers[w])
  {
    hide WorkerNext, WorkerEnabled, ClientNext, Inv, AllShown, Loses, Next, Enabled;
    assert StepsAt(b, r, k - 1);
    EveryStateIsSafe(b, r, k - 1);
    if k - 1 == i {
      IdleShows();
    } else {
      PublishedIsShown(b, r, i, k - 1, w);
    }
    StepShows(b, r.states[k - 1], r.labels[k - 1], w);
  }

  lemma StoreKeepsShown(b: Bench, s: State, w: nat, now: int)
    requires Inv(b, s) && w < |s.workers| && s.workers[w].Finished? && AllShown(s.workers[w])
    requires s.workers[w].settled.outcome.verdict != AB
    ensures WorkerEnabled(b, s, w, Go)
    ensures
      var t := WorkerNext(b, s, w, Go, now);
      var id := s.workers[w].id;
      && id < |s.rows| == |t.rows|
      && t.rows[id].score == s.rows[id].score && t.rows[id].timeMs == s.rows[id].timeMs
      && t.rows[id].memoryKb == s.rows[id].memoryKb && t.rows[id].tests == s.rows[id].tests
      && t.rows[id].verdict == s.workers[w].settled.outcome.verdict
  {
    hide Points, Slowest, Largest, ByIdx;
    assert WorkerOk(b, s, w);
  }

  /** A run that was not aborted and lost nothing on the way, no publish having failed and no test having raised
      since its claim, is stored without changing the score, time, memory or tests its page already showed. */
  lemma StoringChangesNothingShown(b: Bench, r: Run, i: nat, k: nat, w: nat)
    requires IsRun(b, r) && i < k < |r.labels| && HasHadSince(b, r, i, k, w) && NothingLost(r, i, k, w)
    requires r.states[k].workers[w].Finished? && r.states[k].workers[w].settled.outcome.verdict != AB
    requires r.labels[k].Work? && r.labels[k].w == w && r.labels[k].move.Go?
    ensures
      var s, t, id := r.states[k], r.states[k + 1], r.states[k].workers[w].id;
      && id < |s.rows| == |t.rows|
      && t.rows[id].score == s.rows[id].score && t.rows[id].timeMs == s.rows[id].timeMs
      && t.rows[id].memoryKb == s.rows[id].memoryKb && t.rows[id].tests == s.rows[id].tests
      && t.rows[id].verdict == s.workers[w].settled.outcome.verdict
  {
    hide WorkerNext, WorkerEnabled, Inv, AllShown, Loses;
    PublishedIsShown(b, r, i, k, w);
    EveryStateIsSafe(b, r, k);
    assert StepsAt(b, r, k);
    StoreKeepsShown(b, r.states[k], w, r.labels[k].now);
  }
}
