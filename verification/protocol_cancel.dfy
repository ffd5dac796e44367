/** No cancel is lost: what an abort client has asked for reaches the run it was meant for. */
module ProtocolCancel {
  import opened Options
  import opened Verdicts
  import opened Runner
  import opened Submissions
  import opened Cancel
  import opened Worker
  import opened Protocol
  import opened ProtocolSafety

  /** The step belongs to the life of one process. */
  predicate SameProcess(l: Label) {
    !l.Crash? && !l.Restart?
  }

  // ---------------------------------------------------------------- Finished rows

  lemma {:induction false} StepKeepsFinished(b: Bench, s: State, l: Label, id: nat)
    requires Inv(b, s) && Enabled(b, s, l)
    requires id < |s.rows| && !Waiting(s.rows[id].verdict)
    ensures id < |Next(b, s, l).rows| && Next(b, s, l).rows[id] == s.rows[id]
  {
    hide Consistent, Apart, MemoryOk, Over, SettledInQueue, Started, Built, Checked, Tested, Continued, Stored,
         Published;
    match l {
      case Work(w, move, now) =>
        WorkIsLocal(b, s, w, move, now);
        assert WorkerOk(b, s, w);
      case Ask(c, now) => AskIsLocal(b, s, c, now);
      case _ =>
    }
  }

  /** A row that has a result never changes again, whatever crashes, restarts and aborts come later. */
  lemma {:induction false} FinishedForever(b: Bench, r: Run, i: nat, k: nat, id: nat)
    requires IsRun(b, r) && i <= k < |r.states|
    requires id < |r.states[i].rows| && !Waiting(r.states[i].rows[id].verdict)
    ensures id < |r.states[k].rows| && r.states[k].rows[id] == r.states[i].rows[id]
  {
    hide Inv, Enabled, Next;
    if i < k {
      FinishedForever(b, r, i, k - 1, id);
      EveryStateIsSafe(b, r, k - 1);
      assert StepsAt(b, r, k - 1);
      StepKeepsFinished(b, r.states[k - 1], r.labels[k - 1], id);
    }
  }

  lemma {:induction false} ClientsAreKept(b: Bench, r: Run, i: nat, k: nat, c: nat)
    requires IsRun(b, r) && i <= k < |r.states|
    requires c < |r.states[i].clients| && r.states[i].clients[c].Answered?
    ensures c < |r.states[k].clients| && r.states[k].clients[c] == r.states[i].clients[c]
  {
    if i < k {
      ClientsAreKept(b, r, i, k - 1, c);
      assert StepsAt(b, r, k - 1);
      StepKeepsAnswers(b, r.states[k - 1], r.labels[k - 1], c);
    }
  }

  lemma StepKeepsAnswers(b: Bench, s: State, l: Label, c: nat)
    requires Enabled(b, s, l) && c < |s.clients| && s.clients[c].Answered?
    ensures c < |Next(b, s, l).clients| && Next(b, s, l).clients[c] == s.clients[c]
  {
    hide Started, Built, Checked, Tested, Continued, Stored, Published;
    if l.Work? {
      WorkIsLocal(b, s, l.w, l.move, l.now);
    }
  }

  /** An abort answered "queued" is final: from then on the row is aborted and no worker ever has it. */
  lemma QueuedMeansNever(b: Bench, r: Run, i: nat, k: nat, c: nat, w: nat)
    requires IsRun(b, r) && i <= k < |r.states|
    requires c < |r.states[i].clients| && r.states[i].clients[c].Answered?
    requires r.states[i].clients[c].answer == Some(WasQueued)
    ensures
      var id := r.states[i].clients[c].id;
      && id < |r.states[i].rows| && id < |r.states[k].rows|
      && r.states[k].rows[id] == r.states[i].rows[id] && r.states[k].rows[id].verdict == AB
      && (w < |r.states[k].workers| ==> IdOf(r.states[k].workers[w]) != Some(id))
  {
    hide WorkerOk, Apart, MemoryOk;
    var id := r.states[i].clients[c].id;
    EveryStateIsSafe(b, r, i);
    EveryStateIsSafe(b, r, k);
    assert ClientOk(r.states[i], r.states[i].clients[c]);
    FinishedForever(b, r, i, k, id);
    ClientsAreKept(b, r, i, k, c);
    assert ClientOk(r.states[k], r.states[k].clients[c]);
  }

  // ---------------------------------------------------------------- A request that waits

  /** A request for a submission is in the map, or it can no longer matter to anyone. */
  predicate Pressing(s: State, id: nat) {
    IsRequested(s.memory, id) || Over(s, id)
  }

  lemma SetSignalsStaySet(b: Bench, s: State, l: Label, e: nat)
    requires Enabled(b, s, l) && SameProcess(l) && IsSet(s.memory, e)
    ensures IsSet(Next(b, s, l).memory, e)
  {
    hide Started, Built, Checked, Tested, Continued, Stored, Published;
  }

  /** Only the end of the run a request was meant for takes it out of the map. */
  lemma StepKeepsPressing(b: Bench, s: State, l: Label, id: nat)
    requires Inv(b, s) && Enabled(b, s, l) && SameProcess(l) && Pressing(s, id)
    ensures Pressing(Next(b, s, l), id)
  {
    hide WorkerNext, ClientNext, WorkerEnabled, ClientEnabled, WorkerOk, Apart, MemoryOk;
    if Over(s, id) {
      match l {
        case Work(w, move, now) => WorkKeepsOver(b, s, w, move, now, id);
        case Ask(c, now) => AskKeepsOver(b, s, c, now, id);
        case _ =>
      }
    } else {
      var e := s.memory.requests[id];
      assert Mapped(s.memory, id, e);
      SetSignalsStaySet(b, s, l, e);
      match l {
        case Work(w, move, now) => WorkKeepsMapping(b, s, w, move, now, id, e);
        case Ask(c, now) => AskKeepsMapping(b, s, c, now, id, e);
        case _ =>
      }
    }
  }

  /** Setting the event reaches the map: the event a client holds is still the mapped one, or the run is over. */
  lemma SettingPresses(b: Bench, s: State, c: nat, now: int)
    requires Inv(b, s) && ClientEnabled(s, c) && s.clients[c].Holding?
    ensures Pressing(ClientNext(s, c, now), s.clients[c].id)
  {
    hide WorkerOk, Apart, MemoryOk;
    var client := s.clients[c];
    assert ClientOk(s, client);
    if Over(s, client.id) {
      AskKeepsOver(b, s, c, now, client.id);
    }
  }

  /** The worker is about to look at its event: before compiling, once nothing else turns the submission away, or
      before a test. */
  predicate Checks(b: Bench, s: State, w: nat, move: Move, id: nat) {
    && w < |s.workers| && IdOf(s.workers[w]) == Some(id) && id < |s.rows|
    && match s.workers[w]
       case Watching(_, _) =>
         ProblemOf(b, s, id).Some? && move.Prepare? && Refused(TestsOf(b, s, id), move.preparation) == None
       case AtTest(_, _, next, _, _) => next < |TestsOf(b, s, id)|
       case _ => false
  }

  /** The run has ended aborted, with nothing scored and nothing earned. */
  predicate EndedAborted(pc: Pc, id: nat) {
    && pc.Finished? && pc.id == id
    && pc.settled.outcome.verdict == AB && pc.settled.outcome.score == 0 && pc.settled.outcome.message == "Cancelled."
    && pc.settled.earned == 0
  }

  lemma CheckSeesRequest(b: Bench, s: State, w: nat, move: Move, now: int, id: nat)
    requires Inv(b, s) && WorkerEnabled(b, s, w, move) && Checks(b, s, w, move, id) && Pressing(s, id)
    ensures EndedAborted(WorkerNext(b, s, w, move, now).workers[w], id)
  {
    hide Consistent, Apart, MemoryOk, Refused;
    assert WorkerOk(b, s, w);
  }

  predicate SameProcessBetween(r: Run, i: nat, j: nat)
    requires i <= j <= |r.labels|
  {
    forall k | i <= k < j :: SameProcess(r.labels[k])
  }

  lemma {:induction false} StaysPressing(b: Bench, r: Run, i: nat, j: nat, id: nat)
    requires IsRun(b, r) && i <= j < |r.states| && SameProcessBetween(r, i, j)
    requires Pressing(r.states[i], id)
    ensures Pressing(r.states[j], id)
  {
    hide Inv, Enabled, Next, Pressing;
    if i < j {
      StaysPressing(b, r, i, j - 1, id);
      EveryStateIsSafe(b, r, j - 1);
      assert StepsAt(b, r, j - 1);
      StepKeepsPressing(b, r.states[j - 1], r.labels[j - 1], id);
    }
  }

  /** Once an abort client has set the event, the first look any run of that submission takes at its event in the
      same process, however much later, and whether the run had been claimed by then or not, ends the run aborted. */
  lemma NoCancelIsLost(b: Bench, r: Run, i: nat, j: nat)
    requires IsRun(b, r) && i < j < |r.labels| && SameProcessBetween(r, i, j)
    requires r.labels[i].Ask? && r.labels[i].c < |r.states[i].clients|
    requires r.states[i].clients[r.labels[i].c].Holding?
    requires r.labels[j].Work?
    requires Checks(b, r.states[j], r.labels[j].w, r.labels[j].move, r.states[i].clients[r.labels[i].c].id)
    ensures r.labels[j].w < |r.states[j + 1].workers|
    ensures EndedAborted(r.states[j + 1].workers[r.labels[j].w], r.states[i].clients[r.labels[i].c].id)
  {
    hide Inv, WorkerNext, ClientNext, WorkerEnabled, ClientEnabled, Pressing, Checks, EndedAborted;
    EveryStateIsSafe(b, r, i);
    EveryStateIsSafe(b, r, j);
    assert StepsAt(b, r, i) && StepsAt(b, r, j);
    SettingPresses(b, r.states[i], r.labels[i].c, r.labels[i].at);
    StaysPressing(b, r, i + 1, j, r.states[i].clients[r.labels[i].c].id);
    CheckSeesRequest(b, r.states[j], r.labels[j].w, r.labels[j].move, r.labels[j].now,
                     r.states[i].clients[r.labels[i].c].id);
    InRange(b, r.states[j], r.labels[j].w, r.labels[j].move);
    WorkIsLocal(b, r.states[j], r.labels[j].w, r.labels[j].move, r.labels[j].now);
  }

  // ------------------------------------------------------------- The aborted run is stored

  predicate AbortedRow(row: Row) {
    row.verdict == AB && row.score == 0 && row.earned == 0
  }

  predicate AbortLands(s: State, w: nat, id: nat) {
    || (w < |s.workers| && EndedAborted(s.workers[w], id))
    || (id < |s.rows| && AbortedRow(s.rows[id]))
  }

  lemma StepLandsAbort(b: Bench, s: State, l: Label, w: nat, id: nat)
    requires Inv(b, s) && Enabled(b, s, l) && SameProcess(l) && AbortLands(s, w, id)
    requires !(l.Work? && l.w == w && l.move.Fail?)
    ensures AbortLands(Next(b, s, l), w, id)
  {
    hide WorkerOk, Apart, MemoryOk, Over, SettledInQueue, Started, Built, Checked, Tested, Continued, Published;
    if id < |s.rows| && AbortedRow(s.rows[id]) {
      StepKeepsFinished(b, s, l, id);
    } else if l.Work? {
      WorkIsLocal(b, s, l.w, l.move, l.now);
    } else if l.Ask? {
      AskIsLocal(b, s, l.c, l.at);
    }
  }

  /** A run that ended aborted stays so until its worker has stored it, unless the store itself raises: the row then
      says aborted, scores nothing and earned nothing, for good. */
  lemma {:induction false} AbortIsStored(b: Bench, r: Run, i: nat, j: nat, w: nat, id: nat)
    requires IsRun(b, r) && i <= j < |r.states| && SameProcessBetween(r, i, j)
    requires w < |r.states[i].workers| && EndedAborted(r.states[i].workers[w], id)
    requires forall k | i <= k < j :: !(r.labels[k].Work? && r.labels[k].w == w && r.labels[k].move.Fail?)
    ensures AbortLands(r.states[j], w, id)
  {
    hide Inv, Enabled, Next, EndedAborted, AbortedRow;
    if i < j {
      AbortIsStored(b, r, i, j - 1, w, id);
      EveryStateIsSafe(b, r, j - 1);
      assert StepsAt(b, r, j - 1);
      assert SameProcess(r.labels[j - 1]);
      StepLandsAbort(b, r.states[j - 1], r.labels[j - 1], w, id);
    }
  }
}
