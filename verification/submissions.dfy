/** The submissions table the judge works on: every transaction, and the class that carries them out. */
module Submissions {
  import opened Options
  import opened Verdicts
  import opened Runner

  datatype Submission = Submission(problem: int, language: string, source: string)
  datatype Problem = Problem(tests: seq<TestSpec>, shares: seq<Share>, partial: bool)

  /** One row with its published tests, by test number. Rows are numbered by their position. */
  datatype Row = Row(submission: Submission, verdict: Verdict, score: int, maxScore: int, timeMs: nat, memoryKb: nat,
                     message: string, earned: int, judgedAt: Option<int>, tests: map<nat, TestOutcome>)

  const MESSAGE_CLIP := 4096
  const TEST_MESSAGE_CLIP := 512

  function Clip(s: string, n: nat): string {
    if |s| <= n then s else s[..n]
  }

  function ClippedTest(t: TestOutcome): TestOutcome {
    t.(message := Clip(t.message, TEST_MESSAGE_CLIP))
  }

  function ByIdx(tests: seq<TestOutcome>): map<nat, TestOutcome> {
    if tests == [] then map[]
    else
      var last := tests[|tests| - 1];
      ByIdx(tests[..|tests| - 1])[last.idx := ClippedTest(last)]
  }

  // ------------------------------------------------------------- What a row lists

  predicate IsClipped(short: string, s: string, n: nat) {
    short <= s && |short| == if |s| <= n then |s| else n
  }

  predicate ShowsTest(shown: TestOutcome, t: TestOutcome) {
    && shown.idx == t.idx && shown.verdict == t.verdict && shown.timeMs == t.timeMs
    && shown.memoryKb == t.memoryKb && shown.points == t.points
    && IsClipped(shown.message, t.message, TEST_MESSAGE_CLIP)
  }

  predicate IsLastWith(results: seq<TestOutcome>, i: nat, idx: nat) {
    i < |results| && results[i].idx == idx && forall j | i < j < |results| :: results[j].idx != idx
  }

  /** The tests of a row are these results by test number, the last one where a number repeats, messages cut short. */
  ghost predicate Lists(tests: map<nat, TestOutcome>, results: seq<TestOutcome>) {
    && (forall i | 0 <= i < |results| :: results[i].idx in tests)
    && forall k | k in tests :: exists i: nat :: IsLastWith(results, i, k) && ShowsTest(tests[k], results[i])
  }

  lemma ListsOneMore(tests: map<nat, TestOutcome>, results: seq<TestOutcome>, t: TestOutcome, shown: TestOutcome)
    requires Lists(tests, results) && ShowsTest(shown, t)
    ensures Lists(tests[t.idx := shown], results + [t])
  {
    hide ShowsTest;
    var more, all := tests[t.idx := shown], results + [t];
    assert IsLastWith(all, |results|, t.idx);
    assert all[|results|] == t;
    forall k | k in more ensures exists i: nat :: IsLastWith(all, i, k) && ShowsTest(more[k], all[i]) {
      if k != t.idx {
        assert k in tests;
        var i: nat :| IsLastWith(results, i, k) && ShowsTest(tests[k], results[i]);
        assert IsLastWith(all, i, k) && all[i] == results[i];
      }
    }
    forall i | 0 <= i < |all| ensures all[i].idx in more {
      assert i < |results| ==> results[i].idx in tests;
    }
  }

  lemma {:induction false} ByIdxLists(results: seq<TestOutcome>)
    ensures Lists(ByIdx(results), results)
  {
    hide Lists;
    if results == [] {
      NothingListed();
    } else {
      var n := |results| - 1;
      ByIdxLists(results[..n]);
      ClippedIsShown(results[n]);
      ListsOneMore(ByIdx(results[..n]), results[..n], results[n], ClippedTest(results[n]));
      assert results[..n] + [results[n]] == results;
    }
  }

  lemma NothingListed()
    ensures Lists(map[], [])
  {
  }

  lemma ClipCuts(s: string, n: nat)
    ensures IsClipped(Clip(s, n), s, n)
  {
  }

  lemma ClippedIsShown(t: TestOutcome)
    ensures ShowsTest(ClippedTest(t), t)
  {
    ClipCuts(t.message, TEST_MESSAGE_CLIP);
  }

  // ------------------------------------------------------------- Transactions

  function Queued(submission: Submission): Row {
    Row(submission, Pending, 0, 0, 0, 0, "", 0, None, map[])
  }

  /** The first pending row from a position on. */
  function OldestPending(rows: seq<Row>, from: nat): (id: nat)
    requires from <= |rows|
    ensures from <= id <= |rows|
    ensures id < |rows| ==> rows[id].verdict == Pending
    ensures forall i | from <= i < id :: rows[i].verdict != Pending
    decreases |rows| - from
  {
    if from == |rows| || rows[from].verdict == Pending then from else OldestPending(rows, from + 1)
  }

  function Claimed(row: Row): Row {
    row.(verdict := Judging)
  }

  function Cleared(row: Row): Row {
    row.(tests := map[], score := 0, timeMs := 0, memoryKb := 0, message := "")
  }

  function Published(row: Row, t: TestOutcome): Row {
    row.(tests := row.tests[t.idx := ClippedTest(t)], score := row.score + t.points,
         timeMs := Max(row.timeMs, t.timeMs), memoryKb := Max(row.memoryKb, t.memoryKb))
  }

  function PublishedAll(row: Row, tests: seq<TestOutcome>): Row {
    if tests == [] then row else Published(PublishedAll(row, tests[..|tests| - 1]), tests[|tests| - 1])
  }

  function Stored(row: Row, o: JudgeOutcome, earned: int, now: int): Row {
    Row(row.submission, o.verdict, o.score, o.maxScore, o.timeMs, o.memoryKb, Clip(o.message, MESSAGE_CLIP), earned,
        Some(now), ByIdx(o.tests))
  }

  /** No test, score, time, memory or message is left on the row. */
  predicate IsBlank(row: Row) {
    row.tests == map[] && row.score == 0 && row.timeMs == 0 && row.memoryKb == 0 && row.message == ""
  }

  /** A row that carries an outcome, its share and the time, field by field. */
  ghost predicate Carries(row: Row, o: JudgeOutcome, earned: int, now: int) {
    && row.verdict == o.verdict && row.score == o.score && row.maxScore == o.maxScore
    && row.timeMs == o.timeMs && row.memoryKb == o.memoryKb && IsClipped(row.message, o.message, MESSAGE_CLIP)
    && row.earned == earned && row.judgedAt == Some(now) && Lists(row.tests, o.tests)
  }

  lemma StoredCarries(row: Row, o: JudgeOutcome, earned: int, now: int)
    ensures Carries(Stored(row, o, earned, now), o, earned, now)
    ensures Stored(row, o, earned, now).submission == row.submission
  {
    hide Lists, IsClipped, ByIdx, Clip;
    ByIdxLists(o.tests);
    ClipCuts(o.message, MESSAGE_CLIP);
  }

  function Requeued(row: Row): Row {
    if row.verdict == Judging then Cleared(row).(verdict := Pending, earned := 0, judgedAt := None) else row
  }

  function CancelledInQueue(row: Row, now: int): Row {
    row.(verdict := AB, message := "Cancelled.", judgedAt := Some(now))
  }

  function AllRequeued(rows: seq<Row>): (after: seq<Row>)
    ensures |after| == |rows| && forall i | 0 <= i < |rows| :: after[i] == Requeued(rows[i])
  {
    seq(|rows|, i requires 0 <= i < |rows| => Requeued(rows[i]))
  }

  function CountOf(rows: seq<Row>, v: Verdict): nat {
    if rows == [] then 0
    else CountOf(rows[..|rows| - 1], v) + (if rows[|rows| - 1].verdict == v then 1 else 0)
  }

  function Those(rows: seq<Row>, v: Verdict): set<nat> {
    set i | 0 <= i < |rows| && rows[i].verdict == v
  }

  lemma {:induction false} CountIsCardinality(rows: seq<Row>, v: Verdict)
    ensures CountOf(rows, v) == |Those(rows, v)|
  {
    if rows != [] {
      CountIsCardinality(rows[..|rows| - 1], v);
      OneMoreRow(rows, v);
    }
  }

  lemma OneMoreRow(rows: seq<Row>, v: Verdict)
    requires rows != []
    ensures |Those(rows, v)| == |Those(rows[..|rows| - 1], v)| + (if rows[|rows| - 1].verdict == v then 1 else 0)
  {
    var n := |rows| - 1;
    var most, all := Those(rows[..n], v), Those(rows, v);
    forall i ensures i in all <==> i in most || (i == n && rows[n].verdict == v) {
      if 0 <= i < n {
        assert rows[..n][i] == rows[i];
      }
    }
    assert n !in most;
    assert all == if rows[n].verdict == v then most + {n} else most;
  }

  class Database {
    var rows: seq<Row>

    constructor (rows: seq<Row>)
      ensures this.rows == rows
    {
      this.rows := rows;
    }

    method ClaimNext() returns (claimed: Option<nat>)
      modifies this
      ensures
        var id := OldestPending(old(rows), 0);
        if id == |old(rows)| then claimed == None && rows == old(rows)
        else claimed == Some(id) && rows == old(rows)[id := Claimed(old(rows)[id])]
      ensures claimed == None ==> forall i | 0 <= i < |rows| :: rows[i].verdict != Pending
      ensures claimed.Some? ==>
        var id := claimed.value;
        && id < |rows| == |old(rows)| && old(rows)[id].verdict == Pending && rows[id].verdict == Judging
        && (forall i | 0 <= i < id :: old(rows)[i].verdict != Pending)
        && rows[id].submission == old(rows)[id].submission
    {
      var id := 0;
      while id < |rows| && rows[id].verdict != Pending
        invariant id <= |rows| && OldestPending(rows, 0) == OldestPending(rows, id)
      {
        id := id + 1;
      }
      if id == |rows| {
        return None;
      }
      rows := rows[id := rows[id].(verdict := Judging)];
      return Some(id);
    }

    method Clear(id: nat)
      requires id < |rows|
      modifies this
      ensures rows == old(rows)[id := Cleared(old(rows)[id])]
      ensures IsBlank(rows[id]) && rows[id].verdict == old(rows)[id].verdict
      ensures rows[id].submission == old(rows)[id].submission && rows[id].earned == old(rows)[id].earned
      ensures rows[id].maxScore == old(rows)[id].maxScore && rows[id].judgedAt == old(rows)[id].judgedAt
    {
      rows := rows[id := rows[id].(tests := map[])];
      rows := rows[id := rows[id].(score := 0, timeMs := 0, memoryKb := 0, message := "")];
    }

    method PublishTest(id: nat, test: TestOutcome)
      requires id < |rows|
      modifies this
      ensures rows == old(rows)[id := Published(old(rows)[id], test)]
      ensures test.idx in rows[id].tests && ShowsTest(rows[id].tests[test.idx], test)
      ensures rows[id].score == old(rows)[id].score + test.points
      ensures rows[id].tests.Keys == old(rows)[id].tests.Keys + {test.idx}
    {
      ClippedIsShown(test);
      rows := rows[id := rows[id].(tests := rows[id].tests[test.idx := ClippedTest(test)])];
      rows := rows[id := rows[id].(score := rows[id].score + test.points, timeMs := Max(rows[id].timeMs, test.timeMs),
                                   memoryKb := Max(rows[id].memoryKb, test.memoryKb))];
    }

    method StoreOutcome(id: nat, o: JudgeOutcome, earned: int, now: int)
      requires id < |rows|
      modifies this
      ensures rows == old(rows)[id := Stored(old(rows)[id], o, earned, now)]
      ensures Carries(rows[id], o, earned, now) && rows[id].submission == old(rows)[id].submission
    {
      StoredCarries(rows[id], o, earned, now);
      rows := rows[id := rows[id].(verdict := o.verdict, score := o.score, maxScore := o.maxScore, timeMs := o.timeMs,
                                   memoryKb := o.memoryKb, message := Clip(o.message, MESSAGE_CLIP), earned := earned,
                                   judgedAt := Some(now))];
      var inserted: map<nat, TestOutcome> := map[];
      assert o.tests[..|o.tests|] == o.tests;
      for i := 0 to |o.tests|
        invariant inserted == ByIdx(o.tests[..i])
      {
        assert o.tests[..i + 1][..i] == o.tests[..i];
        inserted := inserted[o.tests[i].idx := ClippedTest(o.tests[i])];
      }
      rows := rows[id := rows[id].(tests := inserted)];
    }

    method RequeueStuck() returns (stuck: nat)
      modifies this
      ensures rows == AllRequeued(old(rows))
      ensures stuck == CountOf(old(rows), Judging) == |Those(old(rows), Judging)|
      ensures |rows| == |old(rows)| && forall i | 0 <= i < |rows| ::
        if old(rows)[i].verdict != Judging then rows[i] == old(rows)[i]
        else
          && rows[i].verdict == Pending && IsBlank(rows[i]) && rows[i].earned == 0 && rows[i].judgedAt == None
          && rows[i].submission == old(rows)[i].submission && rows[i].maxScore == old(rows)[i].maxScore
    {
      CountIsCardinality(rows, Judging);
      stuck := 0;
      assert rows[..|rows|] == rows;
      for i := 0 to |rows|
        invariant rows == old(rows) && stuck == CountOf(rows[..i], Judging)
      {
        assert rows[..i + 1][..i] == rows[..i];
        if rows[i].verdict == Judging {
          stuck := stuck + 1;
        }
      }
      if stuck == 0 {
        NoneStuck(rows);
        assert rows == AllRequeued(rows);
        return;
      }
      rows := seq(|rows|, i requires 0 <= i < |rows| reads this => Requeued(rows[i]));
    }

    method CancelPending(id: nat, now: int) returns (won: bool)
      requires id < |rows|
      modifies this
      ensures won == (old(rows)[id].verdict == Pending)
      ensures rows == if won then old(rows)[id := CancelledInQueue(old(rows)[id], now)] else old(rows)
      ensures won ==>
        && rows[id].verdict == AB && rows[id].message == "Cancelled." && rows[id].judgedAt == Some(now)
        && rows[id].score == old(rows)[id].score && rows[id].earned == old(rows)[id].earned
        && rows[id].tests == old(rows)[id].tests && rows[id].submission == old(rows)[id].submission
    {
      won := rows[id].verdict == Pending;
      if won {
        rows := rows[id := rows[id].(verdict := AB, message := "Cancelled.", judgedAt := Some(now))];
      }
    }
  }

  lemma {:induction false} NoneStuck(rows: seq<Row>)
    requires CountOf(rows, Judging) == 0
    ensures forall i | 0 <= i < |rows| :: rows[i].verdict != Judging
  {
    if rows != [] {
      NoneStuck(rows[..|rows| - 1]);
    }
  }
}
