/** The judge queue as a state machine: workers, abort clients and crashes, one transaction or lock section a step. */
module Protocol {
  import opened Options
  import opened Verdicts
  import opened Runner
  import opened Submissions
  import opened Cancel
  import opened Worker

  /** Where a worker is. `shown` is the list of results it has managed to publish. */
  datatype Pc =
    | Idle
    | Picked(id: nat)
    | Clean(id: nat)
    | Watching(id: nat, event: nat)
    | Compiling(id: nat, event: nat)
    | AtTest(id: nat, event: nat, next: nat, sofar: JudgeOutcome, shown: seq<TestOutcome>)
    | InTest(id: nat, event: nat, next: nat, sofar: JudgeOutcome, shown: seq<TestOutcome>)
    | Publishing(id: nat, event: nat, next: nat, sofar: JudgeOutcome, shown: seq<TestOutcome>, result: TestOutcome)
    | Finished(id: nat, event: nat, settled: Settled, shown: seq<TestOutcome>)
    | Releasing(id: nat, event: nat)
    | Raising(id: nat, event: nat)
    | Failing(id: nat)

  /** Where an abort client is. The answer of a request cut off by a crash is None. */
  datatype Client =
    | Looked(id: nat)
    | Holding(id: nat, event: nat)
    | Asked(id: nat)
    | Won(id: nat)
    | Answered(id: nat, answer: Option<Answer>)

  datatype State = State(up: bool, rows: seq<Row>, memory: Memory, workers: seq<Pc>, clients: seq<Client>)
  const INITIAL := State(false, [], FORGOTTEN, [], [])

  /** What a worker's next step turns up; `Go` where there is nothing to turn up, `Fail` where the step raised. */
  datatype Move =
    | Go
    | Fail
    | Prepare(preparation: Preparation)
    | Build(compilation: Compilation)
    | Finish(ran: Ran)
    | Publish(ok: bool)

  datatype Label =
    | Submit(submission: Submission)
    | Work(w: nat, move: Move, now: int)
    | Arrive(id: nat, mayCancel: bool)
    | Ask(c: nat, at: int)
    | Crash
    | Restart(n: nat)

  function IdOf(pc: Pc): Option<nat> {
    if pc.Idle? then None else Some(pc.id)
  }

  function EventOf(pc: Pc): Option<nat> {
    if pc.Idle? || pc.Picked? || pc.Clean? || pc.Failing? then None else Some(pc.event)
  }

  predicate IsSet(m: Memory, e: nat) {
    e < |m.signals| && m.signals[e].isSet
  }

  function ProblemOf(b: Bench, s: State, id: nat): Option<Problem> {
    if id < |s.rows| && s.rows[id].submission.problem in b.problems then Some(b.problems[s.rows[id].submission.problem])
    else None
  }

  function TestsOf(b: Bench, s: State, id: nat): seq<TestSpec> {
    if ProblemOf(b, s, id).Some? then ProblemOf(b, s, id).value.tests else []
  }

  predicate IsPartial(b: Bench, s: State, id: nat) {
    ProblemOf(b, s, id).Some? && ProblemOf(b, s, id).value.partial
  }

  function SettledAs(b: Bench, s: State, id: nat, o: JudgeOutcome): Settled {
    Settled(o, if ProblemOf(b, s, id).Some? then EarnedFor(ProblemOf(b, s, id).value, o) else 0)
  }

  // --------------------------------------------------------------------- Workers

  predicate WorkerEnabled(b: Bench, s: State, w: nat, move: Move) {
    && w < |s.workers|
    && var pc := s.workers[w];
    && (pc.Idle? || pc.id < |s.rows|)
    && match pc
       case Idle => move.Go? && OldestPending(s.rows, 0) < |s.rows|
       case Picked(_) => move.Go? || move.Fail?
       case Clean(_) => move.Go? || move.Fail?
       case Watching(id, _) => move.Fail? || (if ProblemOf(b, s, id).None? then move.Go? else move.Prepare?)
       case Compiling(_, e) => move.Build? && (move.compilation.Stopped? ==> IsSet(s.memory, e))
       case AtTest(_, _, _, _, _) => move.Go?
       case InTest(id, e, next, _, _) =>
         next < |TestsOf(b, s, id)| && move.Finish? && (move.ran.Ran? && move.ran.verdict == AB ==> IsSet(s.memory, e))
       case Publishing(_, _, _, _, _, _) => move.Publish?
       case Finished(_, _, _, _) => move.Go? || move.Fail?
       case Releasing(_, _) => move.Go?
       case Raising(_, _) => move.Go?
       case Failing(_) => move.Go? || move.Fail?
  }

  function WorkerNext(b: Bench, s: State, w: nat, move: Move, now: int): State
    requires WorkerEnabled(b, s, w, move)
  {
    match s.workers[w]
    case Idle =>
      var id := OldestPending(s.rows, 0);
      s.(rows := s.rows[id := Claimed(s.rows[id])], workers := s.workers[w := Picked(id)])
    case Picked(id) =>
      if move.Fail? then s.(workers := s.workers[w := Failing(id)])
      else s.(rows := s.rows[id := Cleared(s.rows[id])], workers := s.workers[w := Clean(id)])
    case Clean(id) =>
      if move.Fail? then s.(workers := s.workers[w := Failing(id)])
      else s.(memory := Held(s.memory, id), workers := s.workers[w := Watching(id, SignalOf(s.memory, id))])
    case Watching(id, e) => s.(workers := s.workers[w := Started(b, s, id, e, move)])
    case Compiling(id, e) => s.(workers := s.workers[w := Built(b, s, id, e, move.compilation)])
    case AtTest(id, e, next, sofar, shown) =>
      s.(workers := s.workers[w := Checked(b, s, id, e, next, sofar, shown)])
    case InTest(id, e, next, sofar, shown) =>
      s.(workers := s.workers[w := Tested(b, s, id, e, next, sofar, shown, move.ran)])
    case Publishing(id, e, next, sofar, shown, result) =>
      var rows := if move.ok then s.rows[id := Published(s.rows[id], result)] else s.rows;
      s.(rows := rows, workers := s.workers[w :=
        Continued(b, s, id, e, next, sofar, if move.ok then shown + [result] else shown, result)])
    case Finished(id, e, settled, _) =>
      if move.Fail? then s.(workers := s.workers[w := Raising(id, e)])
      else s.(rows := s.rows[id := Stored(s.rows[id], settled.outcome, settled.earned, now)],
              workers := s.workers[w := Releasing(id, e)])
    case Releasing(id, _) => s.(memory := Released(s.memory, id), workers := s.workers[w := Idle])
    case Raising(id, _) => s.(memory := Released(s.memory, id), workers := s.workers[w := Failing(id)])
    case Failing(id) =>
      if move.Fail? then s.(workers := s.workers[w := Idle])
      else s.(rows := s.rows[id := Stored(s.rows[id], Failed(IE, 0, "judge crashed"), 0, now)],
              workers := s.workers[w := Idle])
  }

  /** The checks before compiling; a request already made is noticed here first. */
  function Started(b: Bench, s: State, id: nat, e: nat, move: Move): Pc {
    if move.Fail? then Raising(id, e)
    else if !move.Prepare? then Finished(id, e, NO_PROBLEM, [])
    else match Refused(TestsOf(b, s, id), move.preparation)
      case Some(o) => Finished(id, e, SettledAs(b, s, id, o), [])
      case None =>
        if IsSet(s.memory, e) then
          Finished(id, e, SettledAs(b, s, id, Failed(AB, MaxScore(TestsOf(b, s, id)), "Cancelled.")), [])
        else Compiling(id, e)
  }

  function Built(b: Bench, s: State, id: nat, e: nat, compilation: Compilation): Pc {
    match NotBuilt(TestsOf(b, s, id), compilation)
    case Some(o) => Finished(id, e, SettledAs(b, s, id, o), [])
    case None => AtTest(id, e, 0, Failed(AC, MaxScore(TestsOf(b, s, id)), ""), [])
  }

  /** The head of the test loop. */
  function Checked(b: Bench, s: State, id: nat, e: nat, next: nat, sofar: JudgeOutcome, shown: seq<TestOutcome>): Pc {
    if next >= |TestsOf(b, s, id)| then Finished(id, e, SettledAs(b, s, id, sofar), shown)
    else if IsSet(s.memory, e) then Finished(id, e, SettledAs(b, s, id, Cancelled(sofar)), shown)
    else InTest(id, e, next, sofar, shown)
  }

  function Tested(b: Bench, s: State, id: nat, e: nat, next: nat, sofar: JudgeOutcome, shown: seq<TestOutcome>,
                  ran: Ran): Pc
    requires next < |TestsOf(b, s, id)|
  {
    match ran
    case Raised(message) => Finished(id, e, SettledAs(b, s, id, Failed(IE, sofar.maxScore, message)), shown)
    case Ran(verdict, _, _, _) =>
      if verdict == AB then Finished(id, e, SettledAs(b, s, id, Cancelled(sofar)), shown)
      else
        var result := ResultOf(TestsOf(b, s, id)[next], ran);
        Publishing(id, e, next, Recorded(sofar, result), shown, result)
  }

  function Continued(b: Bench, s: State, id: nat, e: nat, next: nat, sofar: JudgeOutcome, shown: seq<TestOutcome>,
                     result: TestOutcome): Pc
  {
    if result.verdict != AC && !IsPartial(b, s, id) then Finished(id, e, SettledAs(b, s, id, sofar), shown)
    else AtTest(id, e, next + 1, sofar, shown)
  }

  // --------------------------------------------------------------------- Clients

  function Arrived(s: State, id: nat, mayCancel: bool): Client {
    if id >= |s.rows| then Answered(id, Some(Missing))
    else if !mayCancel then Answered(id, Some(Forbidden))
    else if !Waiting(s.rows[id].verdict) then Answered(id, Some(AlreadyFinished(s.rows[id].verdict)))
    else Looked(id)
  }

  predicate ClientEnabled(s: State, c: nat) {
    c < |s.clients| && !s.clients[c].Answered? && s.clients[c].id < |s.rows|
  }

  /** The event is set before the row is tried: first found, then set, then the guarded update. */
  function ClientNext(s: State, c: nat, now: int): State
    requires ClientEnabled(s, c)
  {
    match s.clients[c]
    case Looked(id) =>
      s.(memory := Held(s.memory, id), clients := s.clients[c := Holding(id, SignalOf(s.memory, id))])
    case Holding(id, e) => s.(memory := WithSet(s.memory, e), clients := s.clients[c := Asked(id)])
    case Asked(id) =>
      if s.rows[id].verdict == Pending then
        s.(rows := s.rows[id := CancelledInQueue(s.rows[id], now)], clients := s.clients[c := Won(id)])
      else s.(clients := s.clients[c := Answered(id, Some(WasRunning))])
    case Won(id) =>
      s.(memory := Released(s.memory, id), clients := s.clients[c := Answered(id, Some(WasQueued))])
  }

  function CutOff(client: Client): Client {
    if client.Answered? then client else Answered(client.id, None)
  }

  function AllCutOff(clients: seq<Client>): (after: seq<Client>)
    ensures |after| == |clients| && forall i | 0 <= i < |clients| :: after[i] == CutOff(clients[i])
  {
    seq(|clients|, i requires 0 <= i < |clients| => CutOff(clients[i]))
  }

  // ------------------------------------------------------------------- The machine

  predicate Enabled(b: Bench, s: State, l: Label) {
    match l
    case Submit(_) => s.up
    case Work(w, move, _) => s.up && WorkerEnabled(b, s, w, move)
    case Arrive(_, _) => s.up
    case Ask(c, _) => s.up && ClientEnabled(s, c)
    case Crash => s.up
    case Restart(_) => !s.up
  }

  /** A crash loses the workers, the request map and every open request; the rows stay. */
  function Next(b: Bench, s: State, l: Label): State
    requires Enabled(b, s, l)
  {
    match l
    case Submit(submission) => s.(rows := s.rows + [Queued(submission)])
    case Work(w, move, now) => WorkerNext(b, s, w, move, now)
    case Arrive(id, mayCancel) => s.(clients := s.clients + [Arrived(s, id, mayCancel)])
    case Ask(c, now) => ClientNext(s, c, now)
    case Crash => State(false, s.rows, FORGOTTEN, [], AllCutOff(s.clients))
    case Restart(n) => s.(up := true, rows := AllRequeued(s.rows), workers := seq(n, _ => Idle))
  }

  /** A run of the machine: its states, and the steps between them. */
  datatype Run = Run(states: seq<State>, labels: seq<Label>)

  predicate StepsAt(b: Bench, r: Run, k: nat)
    requires |r.states| == |r.labels| + 1 && k < |r.labels|
  {
    Enabled(b, r.states[k], r.labels[k]) && r.states[k + 1] == Next(b, r.states[k], r.labels[k])
  }

  ghost predicate IsRun(b: Bench, r: Run) {
    && |r.states| == |r.labels| + 1
    && r.states[0] == INITIAL
    && forall k | 0 <= k < |r.labels| :: StepsAt(b, r, k)
  }
}
