/** One judge on the calling thread: judging a claimed submission, draining the queue, and an abort with nobody else
    in between. */
module Worker {
  import opened Options
  import opened Verdicts
  import opened Runner
  import opened Submissions
  import opened Cancel

  /** The problems as stored, and what compiling and running each submission comes to. */
  datatype Bench = Bench(problems: map<int, Problem>, environment: Submission -> Environment)

  /** The same environment with a cancel event that is already set, or never is. */
  function Under(env: Environment, asked: bool): Environment {
    env.(askedBeforeCompiling := asked, asked := (i: nat) => asked)
  }

  datatype Settled = Settled(outcome: JudgeOutcome, earned: int)
  const NO_PROBLEM := Settled(Failed(IE, 0, "problem no longer exists"), 0)
  const VANISHED := Failed(IE, 0, "submission vanished")

  /** A compile error never ran anything and a cancelled run never finished: neither earns. */
  function EarnedFor(p: Problem, o: JudgeOutcome): int {
    if o.verdict == CE || o.verdict == AB then 0 else Earned(p.tests, o.tests, p.shares, p.partial)
  }

  function Settle(bench: Bench, submission: Submission, asked: bool): Settled {
    if submission.problem !in bench.problems then NO_PROBLEM
    else
      var p := bench.problems[submission.problem];
      var o := Judged(p.tests, p.partial, Under(bench.environment(submission), asked)).outcome;
      Settled(o, EarnedFor(p, o))
  }

  function SettledRow(bench: Bench, row: Row, asked: bool, now: int): Row {
    var s := Settle(bench, row.submission, asked);
    Stored(row, s.outcome, s.earned, now)
  }

  /** A row judged to its end, column by column: the report of its run, and the share its passed tests are worth. */
  ghost predicate JudgedRow(bench: Bench, row: Row, submission: Submission, asked: bool, now: int) {
    && row.submission == submission
    && if submission.problem !in bench.problems then
         && row.verdict == IE && row.score == 0 && row.maxScore == 0 && row.timeMs == 0 && row.memoryKb == 0
         && row.message == "problem no longer exists" && row.earned == 0 && row.judgedAt == Some(now)
         && row.tests == map[]
       else
         var p := bench.problems[submission.problem];
         var o := Judged(p.tests, p.partial, Under(bench.environment(submission), asked)).outcome;
         && Carries(row, o, row.earned, now)
         && row.earned == if o.verdict == CE || o.verdict == AB then 0
                          else EarnedBy(p.tests, Passed(o.tests), p.shares, p.partial)
  }

  lemma SettledIsJudged(bench: Bench, row: Row, asked: bool, now: int)
    ensures JudgedRow(bench, SettledRow(bench, row, asked, now), row.submission, asked, now)
  {
    hide Stored, EarnedBy, Passed, Judged, Lists;
    var s := Settle(bench, row.submission, asked);
    StoredCarries(row, s.outcome, s.earned, now);
    NothingInList(SettledRow(bench, row, asked, now).tests);
  }

  lemma NothingInList(tests: map<nat, TestOutcome>)
    ensures Lists(tests, []) <==> tests == map[]
  {
  }

  /** A request that is there throughout aborts every run that gets past the checks before compiling. */
  lemma AskedIsAborted(bench: Bench, row: Row, submission: Submission, asked: bool, now: int)
    requires JudgedRow(bench, row, submission, asked, now) && submission.problem in bench.problems
    requires Refused(bench.problems[submission.problem].tests, bench.environment(submission).preparation) == None
    ensures asked ==> row.verdict == AB && row.score == 0 && row.earned == 0 && row.tests == map[]
  {
    hide EarnedBy, Passed, Lists, Refused, NotBuilt, IsClipped;
    NothingInList(row.tests);
  }

  method JudgeSubmission(db: Database, cancels: CancelRegistry, bench: Bench, id: nat, now: int)
    returns (outcome: JudgeOutcome)
    requires cancels.Valid()
    modifies db, cancels
    ensures cancels.Valid()
    ensures id >= |old(db.rows)| ==>
      outcome == VANISHED && db.rows == old(db.rows) && cancels.memory == old(cancels.memory)
    ensures id < |old(db.rows)| ==>
      var asked := IsRequested(old(cancels.memory), id);
      && outcome == Settle(bench, old(db.rows)[id].submission, asked).outcome
      && db.rows == old(db.rows)[id := SettledRow(bench, old(db.rows)[id], asked, now)]
      && JudgedRow(bench, db.rows[id], old(db.rows)[id].submission, asked, now)
      && cancels.memory == Released(Held(old(cancels.memory), id), id)
  {
    hide Settle, SettledRow, Stored, Held, Released, JudgedRow, Carries, IsBlank, IsRequested;
    if id >= |db.rows| {
      return VANISHED;
    }
    ghost var was, memory := db.rows[id], cancels.memory;
    var submission := db.rows[id].submission;
    db.Clear(id);
    var abort := cancels.Register(id);
    var asked := cancels.IsSet(abort, id);
    HoldingKeepsTheRequest(memory, id);
    var earned;
    outcome, earned := RunAndPublish(db, bench, id, submission, asked);
    StoresAsSettled(bench, was, db.rows[id], outcome, earned, asked, now);
    SettledIsJudged(bench, was, asked, now);
    db.StoreOutcome(id, outcome, earned, now);
    cancels.Release(id);
  }

  lemma StoresAsSettled(bench: Bench, was: Row, row: Row, o: JudgeOutcome, earned: int, asked: bool, now: int)
    requires row.submission == was.submission && Settled(o, earned) == Settle(bench, was.submission, asked)
    ensures Stored(row, o, earned, now) == SettledRow(bench, was, asked, now)
  {
    hide Settle;
    StoredIgnoresTheRest(row, was, o, earned, now);
  }

  lemma HoldingKeepsTheRequest(m: Memory, id: nat)
    ensures IsRequested(Held(m, id), id) == IsRequested(m, id)
  {
  }

  method RunAndPublish(db: Database, bench: Bench, id: nat, submission: Submission, asked: bool)
    returns (outcome: JudgeOutcome, earned: int)
    requires id < |db.rows|
    modifies db
    ensures Settled(outcome, earned) == Settle(bench, submission, asked)
    ensures |db.rows| == |old(db.rows)| && db.rows[id].submission == old(db.rows)[id].submission
    ensures forall i | 0 <= i < |db.rows| && i != id :: db.rows[i] == old(db.rows)[i]
  {
    hide Judged, Earned, PublishedAll;
    earned := 0;
    if submission.problem !in bench.problems {
      return NO_PROBLEM.outcome, earned;
    }
    var p := bench.problems[submission.problem];
    var published;
    outcome, published := Judge(p.tests, p.partial, Under(bench.environment(submission), asked));
    PublishingKeepsTheSubmission(db.rows[id], published);
    PublishAll(db, id, published);
    if outcome.verdict != CE && outcome.verdict != AB {
      earned := EarnedPercent(p.tests, outcome.tests, p.shares, p.partial);
    }
  }

  lemma StoredIgnoresTheRest(a: Row, b: Row, o: JudgeOutcome, earned: int, now: int)
    requires a.submission == b.submission
    ensures Stored(a, o, earned, now) == Stored(b, o, earned, now)
  {
  }

  method PublishAll(db: Database, id: nat, published: seq<TestOutcome>)
    requires id < |db.rows|
    modifies db
    ensures db.rows == old(db.rows)[id := PublishedAll(old(db.rows)[id], published)]
  {
    hide Published;
    assert published[..|published|] == published;
    for i := 0 to |published|
      invariant db.rows == old(db.rows)[id := PublishedAll(old(db.rows)[id], published[..i])]
    {
      assert published[..i + 1][..i] == published[..i];
      db.PublishTest(id, published[i]);
    }
  }

  lemma {:induction false} PublishingKeepsTheSubmission(row: Row, tests: seq<TestOutcome>)
    ensures PublishedAll(row, tests).submission == row.submission
  {
    if tests != [] {
      PublishingKeepsTheSubmission(row, tests[..|tests| - 1]);
    }
  }

  // ------------------------------------------------------------------ The queue

  function DrainedRow(bench: Bench, row: Row, asked: bool, now: int): Row {
    if row.verdict == Pending then SettledRow(bench, row, asked, now) else row
  }

  lemma {:induction false} OneFewer(before: seq<Row>, after: seq<Row>, id: nat)
    requires |before| == |after| && id < |before|
    requires before[id].verdict == Pending && after[id].verdict != Pending
    requires forall i | 0 <= i < |before| && i != id :: after[i].verdict == before[i].verdict
    ensures CountOf(before, Pending) == CountOf(after, Pending) + 1
  {
    var n := |before| - 1;
    if id < n {
      OneFewer(before[..n], after[..n], id);
    } else {
      SameCount(before[..n], after[..n]);
    }
  }

  lemma {:induction false} SameCount(a: seq<Row>, b: seq<Row>)
    requires |a| == |b| && forall i | 0 <= i < |a| :: a[i].verdict == b[i].verdict
    ensures CountOf(a, Pending) == CountOf(b, Pending)
  {
    if a != [] {
      SameCount(a[..|a| - 1], b[..|b| - 1]);
    }
  }

  lemma {:induction false} NothingPending(rows: seq<Row>)
    requires forall i | 0 <= i < |rows| :: rows[i].verdict != Pending
    ensures CountOf(rows, Pending) == 0
  {
    if rows != [] {
      NothingPending(rows[..|rows| - 1]);
    }
  }

  /** A row during a drain: still as it was, its request included, or judged and settled. */
  ghost predicate Kept(bench: Bench, was: Row, row: Row, asked: bool, stillAsked: bool, now: int) {
    || (row == was && (Pending?(was) ==> stillAsked == asked))
    || (Pending?(was) && !Pending?(row) && row == DrainedRow(bench, was, asked, now))
  }

  /** Every pending row ends as its submission settles, every other row is left alone, and each is judged once. */
  method Drain(db: Database, cancels: CancelRegistry, bench: Bench, stamp: nat -> int) returns (judged: nat)
    requires cancels.Valid()
    modifies db, cancels
    ensures cancels.Valid()
    ensures |db.rows| == |old(db.rows)| && judged == CountOf(old(db.rows), Pending)
    ensures forall i | 0 <= i < |db.rows| ::
      && !Pending?(db.rows[i])
      && db.rows[i] == DrainedRow(bench, old(db.rows)[i], IsRequested(old(cancels.memory), i), stamp(i))
    ensures forall i | 0 <= i < |db.rows| ::
      if old(db.rows)[i].verdict == Pending then
        JudgedRow(bench, db.rows[i], old(db.rows)[i].submission, IsRequested(old(cancels.memory), i), stamp(i))
      else db.rows[i] == old(db.rows)[i]
  {
    hide SettledRow, DrainedRow, JudgedRow;
    judged := 0;
    ghost var was, memory := db.rows, cancels.memory;
    while true
      invariant cancels.Valid() && |db.rows| == |was|
      invariant forall i | 0 <= i < |was| ::
        Kept(bench, was[i], db.rows[i], IsRequested(memory, i), IsRequested(cancels.memory, i), stamp(i))
      invariant judged + CountOf(db.rows, Pending) == CountOf(was, Pending)
      decreases CountOf(db.rows, Pending)
    {
      var some := JudgeNext(db, cancels, bench, stamp);
      if !some {
        NothingPending(db.rows);
        forall i | 0 <= i < |was| && !Pending?(was[i])
          ensures db.rows[i] == DrainedRow(bench, was[i], IsRequested(memory, i), stamp(i))
        {
          FinishedStays(bench, was[i], IsRequested(memory, i), stamp(i));
        }
        DrainedAreJudged(bench, was, db.rows, memory, stamp);
        return;
      }
      judged := judged + 1;
    }
  }

  lemma DrainedAreJudged(bench: Bench, was: seq<Row>, after: seq<Row>, memory: Memory, stamp: nat -> int)
    requires |was| == |after|
    requires forall i | 0 <= i < |was| :: after[i] == DrainedRow(bench, was[i], IsRequested(memory, i), stamp(i))
    ensures forall i | 0 <= i < |was| ::
      if was[i].verdict == Pending then
        JudgedRow(bench, after[i], was[i].submission, IsRequested(memory, i), stamp(i))
      else after[i] == was[i]
  {
    hide SettledRow, JudgedRow;
    forall i | 0 <= i < |was| && was[i].verdict == Pending
      ensures JudgedRow(bench, after[i], was[i].submission, IsRequested(memory, i), stamp(i))
    {
      SettledIsJudged(bench, was[i], IsRequested(memory, i), stamp(i));
    }
  }

  lemma FinishedStays(bench: Bench, row: Row, asked: bool, now: int)
    requires !Pending?(row)
    ensures DrainedRow(bench, row, asked, now) == row
  {
  }

  method JudgeNext(db: Database, cancels: CancelRegistry, bench: Bench, stamp: nat -> int) returns (some: bool)
    requires cancels.Valid()
    modifies db, cancels
    ensures cancels.Valid() && |db.rows| == |old(db.rows)|
    ensures !some ==>
      && db.rows == old(db.rows) && cancels.memory == old(cancels.memory)
      && forall i | 0 <= i < |db.rows| :: !Pending?(db.rows[i])
    ensures some ==>
      var id := OldestPending(old(db.rows), 0);
      && id < |db.rows| && !Pending?(db.rows[id])
      && db.rows == old(db.rows)[id :=
           DrainedRow(bench, old(db.rows)[id], IsRequested(old(cancels.memory), id), stamp(id))]
      && CountOf(old(db.rows), Pending) == CountOf(db.rows, Pending) + 1
      && forall i: nat | i != id :: IsRequested(cancels.memory, i) == IsRequested(old(cancels.memory), i)
  {
    hide Settle, Stored, Held, Released;
    var claimed := db.ClaimNext();
    if claimed == None {
      return false;
    }
    var id := claimed.value;
    var outcome := JudgeSubmission(db, cancels, bench, id, stamp(id));
    SettledIsFinal(bench, old(db.rows)[id], Claimed(old(db.rows)[id]), IsRequested(old(cancels.memory), id), stamp(id));
    OneFewer(old(db.rows), db.rows, id);
    forall i: nat | i != id ensures IsRequested(cancels.memory, i) == IsRequested(old(cancels.memory), i) {
      OthersKeepTheirRequest(old(cancels.memory), id, i);
    }
    return true;
  }

  predicate Pending?(row: Row) {
    row.verdict == Pending
  }

  lemma SettledIsFinal(bench: Bench, row: Row, other: Row, asked: bool, now: int)
    requires row.submission == other.submission
    ensures SettledRow(bench, row, asked, now) == SettledRow(bench, other, asked, now)
    ensures !Waiting(SettledRow(bench, row, asked, now).verdict)
  {
    hide Settle;
  }

  lemma OthersKeepTheirRequest(m: Memory, id: nat, other: nat)
    requires other != id
    requires forall k | k in m.requests :: m.requests[k] < |m.signals|
    ensures IsRequested(Released(Held(m, id), id), other) == IsRequested(m, other)
  {
  }

  // -------------------------------------------------------------------- Aborting

  datatype Answer = Missing | Forbidden | AlreadyFinished(verdict: Verdict) | WasQueued | WasRunning

  /** An abort with nobody else in between: a queued submission is settled on the spot and nothing is left asked. */
  method AbortSubmission(db: Database, cancels: CancelRegistry, id: nat, mayCancel: bool, now: int)
    returns (answer: Answer)
    requires cancels.Valid()
    modifies db, cancels, cancels.created
    ensures cancels.Valid()
    ensures id >= |old(db.rows)| ==> answer == Missing
    ensures id < |old(db.rows)| && !mayCancel ==> answer == Forbidden
    ensures id < |old(db.rows)| && mayCancel && !Waiting(old(db.rows)[id].verdict) ==>
      answer == AlreadyFinished(old(db.rows)[id].verdict)
    ensures answer == WasQueued || answer == WasRunning <==>
      id < |old(db.rows)| && mayCancel && Waiting(old(db.rows)[id].verdict)
    ensures answer == WasQueued ==>
      && old(db.rows)[id].verdict == Pending && id !in cancels.memory.requests
      && db.rows == old(db.rows)[id := CancelledInQueue(old(db.rows)[id], now)]
    ensures answer == WasRunning ==>
      old(db.rows)[id].verdict == Judging && IsRequested(cancels.memory, id) && db.rows == old(db.rows)
    ensures answer != WasQueued && answer != WasRunning ==>
      db.rows == old(db.rows) && cancels.memory == old(cancels.memory)
  {
    if id >= |db.rows| {
      return Missing;
    }
    if !mayCancel {
      return Forbidden;
    }
    if !Waiting(db.rows[id].verdict) {
      return AlreadyFinished(db.rows[id].verdict);
    }
    cancels.Request(id);
    var claimedFirst := db.CancelPending(id, now);
    if claimedFirst {
      cancels.Release(id);
      return WasQueued;
    }
    return WasRunning;
  }
}
