/** Rows left being judged with nobody judging them. */
module ProtocolAbandoned {
  import opened Options
  import opened Verdicts
  import opened Runner
  import opened Submissions
  import opened Cancel
  import opened Worker
  import opened Protocol
  import opened ProtocolSafety
  import opened ProtocolCancel

  /** The process is up, the row says it is being judged, and no worker has it. */
  predicate Abandoned(s: State, id: nat) {
    && s.up && id < |s.rows| && s.rows[id].verdict == Judging
    && forall w | 0 <= w < |s.workers| :: IdOf(s.workers[w]) != Some(id)
  }

  /** A worker that could not judge a submission could not record the failure either. */
  predicate GivesUp(s: State, l: Label, id: nat) {
    l.Work? && l.w < |s.workers| && s.workers[l.w] == Failing(id) && l.move.Fail?
  }

  lemma WorkAbandons(b: Bench, s: State, w: nat, move: Move, now: int, id: nat)
    requires Inv(b, s) && s.up && WorkerEnabled(b, s, w, move)
    requires Abandoned(WorkerNext(b, s, w, move, now), id)
    ensures Abandoned(s, id) || GivesUp(s, Work(w, move, now), id)
  {
    hide Consistent, Started, Built, Checked, Tested, Continued, SettledAs, Published, Apart, MemoryOk, ClientOk, Over;
    WorkIsLocal(b, s, w, move, now);
    WorkTouchesOneWorker(b, s, w, move, now);
    SameOrTouched(b, s, w, move, now);
    assert WorkerOk(b, s, w);
    var t := WorkerNext(b, s, w, move, now);
    if id != Touched(s, w) {
      forall v | 0 <= v < |s.workers| ensures IdOf(s.workers[v]) != Some(id) {
        assert v != w ==> t.workers[v] == s.workers[v];
      }
    } else {
      assert t.workers[w].Idle?;
      LeavingJudging(b, s, w, move, now);
    }
  }

  /** A worker that becomes idle over a row still being judged has given it up. */
  lemma LeavingJudging(b: Bench, s: State, w: nat, move: Move, now: int)
    requires WorkerEnabled(b, s, w, move) && WorkerOk(b, s, w)
    requires WorkerNext(b, s, w, move, now).workers[w].Idle?
    ensures
      var t := WorkerNext(b, s, w, move, now);
      && !s.workers[w].Idle? && s.workers[w].id < |t.rows|
      && (t.rows[s.workers[w].id].verdict == Judging ==> s.workers[w].Failing? && move.Fail?)
  {
    hide Consistent, Cleared, Published, SettledAs, Held, Released;
  }

  lemma StepAbandons(b: Bench, s: State, l: Label, id: nat)
    requires Inv(b, s) && Enabled(b, s, l) && Abandoned(Next(b, s, l), id)
    ensures SameProcess(l) && (Abandoned(s, id) || GivesUp(s, l, id))
  {
    hide WorkerNext, WorkerEnabled, Inv;
    match l {
      case Work(w, move, now) => WorkAbandons(b, s, w, move, now, id);
      case Ask(c, now) => AskIsLocal(b, s, c, now);
      case _ =>
    }
  }

  lemma StepStaysAbandoned(b: Bench, s: State, l: Label, id: nat)
    requires Inv(b, s) && Enabled(b, s, l) && SameProcess(l)
    requires Abandoned(s, id) || GivesUp(s, l, id)
    ensures Abandoned(Next(b, s, l), id)
  {
    hide Consistent, Apart, MemoryOk, ClientOk, Over, Started, Built, Checked, Tested, Continued, Published, SettledAs;
    if GivesUp(s, l, id) {
      assert WorkerOk(b, s, l.w);
      forall v | 0 <= v < |s.workers| && v != l.w ensures IdOf(s.workers[v]) != Some(id) {
        NobodyElseThere(b, s, l.w, v, l.move);
      }
    } else {
      match l {
        case Work(w, move, now) =>
          WorkIsLocal(b, s, w, move, now);
          SameOrTouched(b, s, w, move, now);
        case Ask(c, now) => AskIsLocal(b, s, c, now);
        case _ =>
      }
    }
  }

  lemma {:induction false} StaysAbandoned(b: Bench, r: Run, i: nat, k: nat, id: nat)
    requires IsRun(b, r) && i < k < |r.states| && SameProcessBetween(r, i, k)
    requires GivesUp(r.states[i], r.labels[i], id)
    ensures Abandoned(r.states[k], id)
  {
    hide Inv, Enabled, Next, Abandoned, GivesUp;
    if i < k - 1 {
      StaysAbandoned(b, r, i, k - 1, id);
    }
    EveryStateIsSafe(b, r, k - 1);
    assert StepsAt(b, r, k - 1) && SameProcess(r.labels[k - 1]);
    StepStaysAbandoned(b, r.states[k - 1], r.labels[k - 1], id);
  }

  lemma {:induction false} WasGivenUp(b: Bench, r: Run, k: nat, id: nat) returns (i: nat)
    requires IsRun(b, r) && k < |r.states| && Abandoned(r.states[k], id)
    ensures i < k && SameProcessBetween(r, i, k) && GivesUp(r.states[i], r.labels[i], id)
  {
    hide Inv, Enabled, Next, GivesUp;
    assert k > 0;
    EveryStateIsSafe(b, r, k - 1);
    assert StepsAt(b, r, k - 1);
    StepAbandons(b, r.states[k - 1], r.labels[k - 1], id);
    if GivesUp(r.states[k - 1], r.labels[k - 1], id) {
      i := k - 1;
    } else {
      i := WasGivenUp(b, r, k - 1, id);
    }
  }

  /** A row is left being judged with nobody judging it exactly when, in this process, a worker failed on it and then
      failed to record that too; it stays so until a restart puts it back in the queue. */
  lemma AbandonedExactlyWhen(b: Bench, r: Run, k: nat, id: nat)
    requires IsRun(b, r) && k < |r.states|
    ensures Abandoned(r.states[k], id) <==>
            exists i: nat :: i < k && SameProcessBetween(r, i, k) && GivesUp(r.states[i], r.labels[i], id)
  {
    hide Abandoned, GivesUp, IsRun, SameProcessBetween;
    if Abandoned(r.states[k], id) {
      RunShape(b, r);
      var i := WasGivenUp(b, r, k, id);
    } else {
      RunShape(b, r);
      forall i: nat | i < k && SameProcessBetween(r, i, k) ensures !GivesUp(r.states[i], r.labels[i], id) {
        if GivesUp(r.states[i], r.labels[i], id) {
          StaysAbandoned(b, r, i, k, id);
          assert false;
        }
      }
    }
  }

  lemma RunShape(b: Bench, r: Run)
    requires IsRun(b, r)
    ensures |r.states| == |r.labels| + 1
  {
  }
}
