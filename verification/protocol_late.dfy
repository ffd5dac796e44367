/** Abort requests that come after the run they were meant for. */
module ProtocolLate {
  import opened Options
  import opened Verdicts
  import opened Runner
  import opened Submissions
  import opened Cancel
  import opened Worker
  import opened Protocol
  import opened ProtocolSafety
  import opened ProtocolCancel

  /** A submission with a result that nobody is about to release: no worker is on it, no client has just won it. */
  predicate LeftAlone(s: State, id: nat) {
    && id < |s.rows| && !Waiting(s.rows[id].verdict)
    && (forall w | 0 <= w < |s.workers| :: IdOf(s.workers[w]) != Some(id))
    && (forall c | 0 <= c < |s.clients| :: !(s.clients[c].Won? && s.clients[c].id == id))
  }

  lemma StepKeepsLeftAlone(b: Bench, s: State, l: Label, id: nat)
    requires Inv(b, s) && Enabled(b, s, l) && SameProcess(l) && LeftAlone(s, id)
    ensures LeftAlone(Next(b, s, l), id)
    ensures IsRequested(s.memory, id) ==> IsRequested(Next(b, s, l).memory, id)
  {
    hide WorkerOk, Apart, MemoryOk, Over, SettledInQueue, Started, Built, Checked, Tested, Continued, Stored, Published;
    StepKeepsFinished(b, s, l, id);
    if l.Work? {
      WorkIsLocal(b, s, l.w, l.move, l.now);
      SameOrTouched(b, s, l.w, l.move, l.now);
    } else if l.Ask? {
      AskIsLocal(b, s, l.c, l.at);
    }
    if IsRequested(s.memory, id) {
      SetSignalsStaySet(b, s, l, s.memory.requests[id]);
    }
  }

  /** A client that looked while the row was being judged and asks after its worker has let go is answered "running",
      and its request then stays in the map for the rest of the process: nothing is left that would release it. */
  lemma {:induction false} LateRequestLingers(b: Bench, r: Run, i: nat, j: nat)
    requires IsRun(b, r) && i < j < |r.states| && SameProcessBetween(r, i, j)
    requires r.labels[i].Ask? && r.labels[i].c < |r.states[i].clients|
    requires r.states[i].clients[r.labels[i].c].Holding?
    requires Mapped(r.states[i].memory, r.states[i].clients[r.labels[i].c].id, r.states[i].clients[r.labels[i].c].event)
    requires LeftAlone(r.states[i], r.states[i].clients[r.labels[i].c].id)
    ensures
      var id := r.states[i].clients[r.labels[i].c].id;
      LeftAlone(r.states[j], id) && IsRequested(r.states[j].memory, id)
  {
    hide Inv, WorkerNext, WorkerEnabled, LeftAlone;
    var id := r.states[i].clients[r.labels[i].c].id;
    if j == i + 1 {
      EveryStateIsSafe(b, r, i);
      assert StepsAt(b, r, i);
      StepKeepsLeftAlone(b, r.states[i], r.labels[i], id);
    } else {
      LateRequestLingers(b, r, i, j - 1);
      EveryStateIsSafe(b, r, j - 1);
      assert StepsAt(b, r, j - 1);
      StepKeepsLeftAlone(b, r.states[j - 1], r.labels[j - 1], id);
    }
  }

  // -------------------------------------------------------------- It can happen

  /** A judge that knows no problems: every submission ends at once. */
  function NoProblems(environment: Submission -> Environment): Bench {
    Bench(map[], environment)
  }

  lemma FreshIsPending(submission: Submission)
    ensures Queued(submission).verdict == Pending
  {
  }

  lemma SubmittedAndClaimed(b: Bench, submission: Submission) returns (states: seq<State>)
    ensures
      var labels := [Restart(1), Submit(submission), Work(0, Go, 0), Arrive(0, true)];
      && |states| == 5 && states[0] == INITIAL
      && (forall k | 0 <= k < 4 :: StepsAt(b, Run(states, labels), k))
      && states[4] == State(true, [Claimed(Queued(submission))], FORGOTTEN, [Picked(0)], [Looked(0)])
  {
    hide Cleared, Published, Stored, Started, Built, Checked, Tested, Continued, Held, Released, EarnedFor, Queued;
    var labels := [Restart(1), Submit(submission), Work(0, Go, 0), Arrive(0, true)];
    FreshIsPending(submission);
    var s1 := State(true, [], FORGOTTEN, [Idle], []);
    var s2 := s1.(rows := [Queued(submission)]);
    var s3 := s2.(rows := [Claimed(Queued(submission))], workers := [Picked(0)]);
    var s4 := s3.(clients := [Looked(0)]);
    states := [INITIAL, s1, s2, s3, s4];
    assert seq(1, _ => Idle) == [Idle];
    assert StepsAt(b, Run(states, labels), 0);
    assert StepsAt(b, Run(states, labels), 1);
    assert OldestPending(s2.rows, 0) == 0;
    assert StepsAt(b, Run(states, labels), 2);
    assert StepsAt(b, Run(states, labels), 3);
  }

  /** What the row ends with on a judge that knows no problems. */
  function Ended(submission: Submission): Row {
    Stored(Cleared(Claimed(Queued(submission))), NO_PROBLEM.outcome, NO_PROBLEM.earned, 0)
  }

  lemma ClearedAndRegistered(b: Bench, s: State, submission: Submission) returns (s5: State, s6: State)
    requires s == State(true, [Claimed(Queued(submission))], FORGOTTEN, [Picked(0)], [Looked(0)])
    ensures WorkerEnabled(b, s, 0, Go) && s5 == WorkerNext(b, s, 0, Go, 0)
    ensures WorkerEnabled(b, s5, 0, Go) && s6 == WorkerNext(b, s5, 0, Go, 0)
    ensures s6 == State(true, [Cleared(Claimed(Queued(submission)))], Memory(map[0 := 0], [Signal(0, false)]),
                        [Watching(0, 0)], [Looked(0)])
    ensures s5.up
  {
    hide Stored, Published, Started, Built, Checked, Tested, Continued;
    s5 := s.(rows := [Cleared(Claimed(Queued(submission)))], workers := [Clean(0)]);
    s6 := s5.(memory := Memory(map[0 := 0], [Signal(0, false)]), workers := [Watching(0, 0)]);
  }

  lemma EndedAndStored(b: Bench, s6: State, submission: Submission) returns (s7: State, s8: State)
    requires b.problems == map[]
    requires s6 == State(true, [Cleared(Claimed(Queued(submission)))], Memory(map[0 := 0], [Signal(0, false)]),
                         [Watching(0, 0)], [Looked(0)])
    ensures WorkerEnabled(b, s6, 0, Go) && s7 == WorkerNext(b, s6, 0, Go, 0)
    ensures WorkerEnabled(b, s7, 0, Go) && s8 == WorkerNext(b, s7, 0, Go, 0)
    ensures s8 == s6.(rows := [Ended(submission)], workers := [Releasing(0, 0)])
    ensures s7.up
  {
    hide Published, Built, Checked, Tested, Continued, Stored, Cleared;
    s7 := s6.(workers := [Finished(0, 0, NO_PROBLEM, [])]);
    s8 := s7.(rows := [Ended(submission)], workers := [Releasing(0, 0)]);
  }

  lemma JudgedAndReleased(b: Bench, s: State, submission: Submission) returns (states: seq<State>)
    requires b.problems == map[]
    requires s == State(true, [Claimed(Queued(submission))], FORGOTTEN, [Picked(0)], [Looked(0)])
    ensures
      var go := Work(0, Go, 0);
      && |states| == 6 && states[0] == s
      && (forall k | 0 <= k < 5 :: StepsAt(b, Run(states, [go, go, go, go, go]), k))
      && states[5] == State(true, [Ended(submission)], Memory(map[], [Signal(0, false)]), [Idle], [Looked(0)])
  {
    var go := Work(0, Go, 0);
    var s5, s6 := ClearedAndRegistered(b, s, submission);
    var s7, s8 := EndedAndStored(b, s6, submission);
    var s9 := s8.(memory := Memory(map[], [Signal(0, false)]), workers := [Idle]);
    states := [s, s5, s6, s7, s8, s9];
    assert s8.memory.requests - {0} == map[];
    assert WorkerEnabled(b, s8, 0, Go) && s9 == WorkerNext(b, s8, 0, Go, 0);
    hide WorkerEnabled, WorkerNext;
    var r := Run(states, [go, go, go, go, go]);
    assert StepsAt(b, r, 0) && StepsAt(b, r, 1) && StepsAt(b, r, 2) && StepsAt(b, r, 3) && StepsAt(b, r, 4);
  }

  lemma AskedTooLate(b: Bench, s: State, submission: Submission) returns (states: seq<State>)
    requires s == State(true, [Ended(submission)], Memory(map[], [Signal(0, false)]), [Idle], [Looked(0)])
    ensures
      var ask := Ask(0, 0);
      && |states| == 4 && states[0] == s
      && (forall k | 0 <= k < 3 :: StepsAt(b, Run(states, [ask, ask, ask]), k))
      && states[1] == s.(memory := Memory(map[0 := 1], [Signal(0, false), Signal(0, false)]),
                         clients := [Holding(0, 1)])
      && states[3].rows == s.rows && states[3].clients == [Answered(0, Some(WasRunning))]
  {
    var ask := Ask(0, 0);
    var s1 := s.(memory := Memory(map[0 := 1], [Signal(0, false), Signal(0, false)]), clients := [Holding(0, 1)]);
    var s2 := s1.(memory := Memory(map[0 := 1], [Signal(0, false), Signal(0, true)]), clients := [Asked(0)]);
    var s3 := s2.(clients := [Answered(0, Some(WasRunning))]);
    states := [s, s1, s2, s3];
    var r := Run(states, [ask, ask, ask]);
    assert StepsAt(b, r, 0);
    assert StepsAt(b, r, 1);
    assert StepsAt(b, r, 2);
  }

  lemma RunsJoin(b: Bench, r: Run, q: Run)
    requires IsRun(b, r) && |q.states| == |q.labels| + 1 && q.states[0] == r.states[|r.labels|]
    requires forall k | 0 <= k < |q.labels| :: StepsAt(b, q, k)
    ensures IsRun(b, Run(r.states + q.states[1..], r.labels + q.labels))
  {
    hide Enabled, Next;
    var both := Run(r.states + q.states[1..], r.labels + q.labels);
    forall k | 0 <= k < |both.labels| ensures StepsAt(b, both, k) {
      if k < |r.labels| {
        assert StepsAt(b, r, k);
        assert both.states[k + 1] == r.states[k + 1];
      } else {
        assert StepsAt(b, q, k - |r.labels|);
        assert both.states[k] == q.states[k - |r.labels|];
      }
    }
  }

  /** One such run: an abort client looks while the row is being judged, the worker stores and lets go, the client asks.
      It is answered "running" although the row has its result, and its request stays. */
  lemma LateRequestHappens(environment: Submission -> Environment, submission: Submission) returns (r: Run, i: nat)
    ensures
      var b := NoProblems(environment);
      && IsRun(b, r) && i + 2 == |r.labels| == |r.states| - 1 && SameProcessBetween(r, i, |r.labels|)
      && r.labels[i].Ask? && r.labels[i].c < |r.states[i].clients|
      && r.states[i].clients[r.labels[i].c] == Holding(0, 1)
      && Mapped(r.states[i].memory, 0, 1) && LeftAlone(r.states[i], 0) && r.states[i].rows[0].verdict == IE
      && r.states[|r.labels|].clients == [Answered(0, Some(WasRunning))]
      && IsRequested(r.states[|r.labels|].memory, 0)
  {
    var b := NoProblems(environment);
    var first := SubmittedAndClaimed(b, submission);
    var middle := JudgedAndReleased(b, first[4], submission);
    var last := AskedTooLate(b, middle[5], submission);
    var go, ask := Work(0, Go, 0), Ask(0, 0);
    var q1 := Run(first, [Restart(1), Submit(submission), go, Arrive(0, true)]);
    var q2, q3 := Run(middle, [go, go, go, go, go]), Run(last, [ask, ask, ask]);
    RunsJoin(b, q1, q2);
    var q12 := Run(q1.states + q2.states[1..], q1.labels + q2.labels);
    RunsJoin(b, q12, q3);
    r, i := Run(q12.states + q3.states[1..], q12.labels + q3.labels), 10;
    assert r.states[10] == last[1] && r.labels[10] == ask && r.states[12] == last[3];
    EveryStateIsSafe(b, r, 10);
    LateRequestLingers(b, r, 10, 12);
  }

  // ----------------------------------------------------------------- Nothing else does it

  predicate Tracked(r: Run, i: nat, k: nat, id: nat)
    requires i <= k < |r.states|
  {
    forall j | i < j <= k :: id in r.states[j].memory.requests
  }

  /** What is mapped was mapped at some step of this process, and has not been released since. */
  lemma {:induction false} WasMapped(b: Bench, r: Run, k: nat, id: nat) returns (i: nat)
    requires IsRun(b, r) && k < |r.states| && id in r.states[k].memory.requests
    ensures i < k && SameProcessBetween(r, i, k) && id !in r.states[i].memory.requests && Tracked(r, i, k, id)
  {
    hide WorkerNext, WorkerEnabled, ClientNext, ClientEnabled;
    assert k > 0;
    assert StepsAt(b, r, k - 1);
    EveryStateIsSafe(b, r, k - 1);
    if id in r.states[k - 1].memory.requests {
      i := WasMapped(b, r, k - 1, id);
    } else {
      i := k - 1;
    }
  }

  predicate Tracks(s: State, w: nat, id: nat) {
    w < |s.workers| && EventOf(s.workers[w]).Some? && s.workers[w].id == id
  }

  /** A worker that has registered a submission lets go of it only by releasing it. */
  lemma StepTracks(b: Bench, s: State, l: Label, w: nat, id: nat)
    requires Inv(b, s) && Enabled(b, s, l) && SameProcess(l) && Tracks(s, w, id) && id in Next(b, s, l).memory.requests
    ensures Tracks(Next(b, s, l), w, id)
  {
    hide Consistent, Apart, MemoryOk, ClientOk, Over, Stored, Published, SettledAs, Refused, NotBuilt;
    match l {
      case Work(v, move, now) =>
        WorkTouchesOneWorker(b, s, v, move, now);
        SameOrTouched(b, s, v, move, now);
      case Ask(c, now) => AskIsLocal(b, s, c, now);
      case _ =>
    }
  }

  lemma {:induction false} StaysTracked(b: Bench, r: Run, i: nat, k: nat, w: nat, id: nat)
    requires IsRun(b, r) && i < k < |r.states| && SameProcessBetween(r, i, k) && Tracked(r, i, k, id)
    requires Tracks(r.states[i + 1], w, id)
    ensures Tracks(r.states[k], w, id)
  {
    hide Inv, Enabled, Next, Tracks;
    if i + 1 < k {
      StaysTracked(b, r, i, k - 1, w, id);
      EveryStateIsSafe(b, r, k - 1);
      assert StepsAt(b, r, k - 1);
      StepTracks(b, r.states[k - 1], r.labels[k - 1], w, id);
    }
  }

  /** A mapping is made by a worker that then tracks the submission, or by a client that has only looked. */
  lemma MappingIsMade(b: Bench, s: State, l: Label, id: nat)
    requires Inv(b, s) && Enabled(b, s, l)
    requires id !in s.memory.requests && id in Next(b, s, l).memory.requests
    ensures
      || (l.Work? && Tracks(Next(b, s, l), l.w, id))
      || (l.Ask? && l.c < |s.clients| && s.clients[l.c] == Looked(id))
  {
    hide Consistent, Apart, MemoryOk, ClientOk, Over, Stored, Published, Started, Built, Checked, Tested, Continued;
  }

  /** A submission left alone is still mapped only if a client that had looked asked when nothing was mapped for it,
      and nothing has released it since: no run leaves its own mapping behind. */
  lemma LingeringWasLate(b: Bench, r: Run, k: nat, id: nat) returns (i: nat)
    requires IsRun(b, r) && k < |r.states|
    requires LeftAlone(r.states[k], id) && id in r.states[k].memory.requests
    ensures i < k && SameProcessBetween(r, i, k)
    ensures r.labels[i].Ask? && r.labels[i].c < |r.states[i].clients|
    ensures r.states[i].clients[r.labels[i].c] == Looked(id)
    ensures id !in r.states[i].memory.requests && Tracked(r, i, k, id)
  {
    hide Inv, Enabled, Next;
    i := WasMapped(b, r, k, id);
    EveryStateIsSafe(b, r, i);
    assert StepsAt(b, r, i);
    assert id in r.states[i + 1].memory.requests;
    MappingIsMade(b, r.states[i], r.labels[i], id);
    if r.labels[i].Work? && Tracks(r.states[i + 1], r.labels[i].w, id) {
      StaysTracked(b, r, i, k, r.labels[i].w, id);
      assert false;
    }
  }
}
