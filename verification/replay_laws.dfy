/** What a replay promises about every competitor's history. */
module ReplayLaws {
  import opened Options
  import opened Rating
  import opened RatingLaws
  import opened RatingBounds
  import opened Replay

  // ------------------------------------------------------- One competitor's rows

  function RowsOf(rows: seq<RatingRow>, user: int): seq<RatingRow> {
    if rows == [] then []
    else
      var last := rows[|rows| - 1];
      RowsOf(rows[..|rows| - 1], user) + (if last.user == user then [last] else [])
  }

  lemma RowsOfOneMore(rows: seq<RatingRow>, row: RatingRow, user: int)
    ensures RowsOf(rows + [row], user) == RowsOf(rows, user) + (if row.user == user then [row] else [])
  {
    assert (rows + [row])[..|rows|] == rows;
  }

  /** Where a competitor stands after these rows of theirs. */
  function After(rs: seq<RatingRow>): Record {
    if rs == [] then NEWCOMER
    else
      var last := rs[|rs| - 1];
      Record(last.ratingAfter, last.deviationAfter, |rs|, Some(last.createdAt))
  }

  function GrownAt(m: Maths, rs: seq<RatingRow>, i: nat): real
    requires m.Sound() && i < |rs|
  {
    GrownDeviation(m, rs[i].deviationBefore, DaysBetween(After(rs[..i]).last, rs[i].createdAt))
  }

  predicate Follows(before: Record, row: RatingRow) {
    row.ratingBefore == before.rating && row.deviationBefore == before.deviation
  }

  /** Each row starts exactly where the one before it ended, the first from the start values. */
  predicate Chained(rs: seq<RatingRow>) {
    forall i | 0 <= i < |rs| :: Follows(After(rs[..i]), rs[i])
  }

  predicate RowInRange(row: RatingRow) {
    row.ratingAfter >= RATING_FLOOR && DeviationInRange(row.deviationAfter)
  }

  /** No change exceeds the K of the uncertainty the competitor arrived with, rounded up. */
  ghost predicate Bounded(m: Maths, rs: seq<RatingRow>)
    requires m.Sound()
  {
    forall i | 0 <= i < |rs| ::
      RowInRange(rs[i]) && Within(rs[i].ratingAfter - rs[i].ratingBefore, Ceiling(KFactor(GrownAt(m, rs, i))))
  }

  predicate Within(delta: int, most: int) {
    -most <= delta <= most
  }

  ghost predicate Sensible(m: Maths, rs: seq<RatingRow>)
    requires m.Sound()
  {
    Chained(rs) && Bounded(m, rs)
  }

  function Deltas(rs: seq<RatingRow>): int {
    if rs == [] then 0
    else Deltas(rs[..|rs| - 1]) + (rs[|rs| - 1].ratingAfter - rs[|rs| - 1].ratingBefore)
  }

  lemma {:induction false} Telescopes(rs: seq<RatingRow>)
    requires Chained(rs)
    ensures After(rs).rating == START_RATING + Deltas(rs)
  {
    if rs != [] {
      var most := rs[..|rs| - 1];
      assert Chained(most) by {
        forall i | 0 <= i < |most| ensures Follows(After(most[..i]), most[i]) {
          assert most[..i] == rs[..i];
        }
      }
      Telescopes(most);
      assert Follows(After(most), rs[|rs| - 1]);
    }
  }

  // ------------------------------------------------------------ Every reachable state

  /** What the standing map says of a competitor is what their rows say. */
  ghost predicate Told(m: Maths, s: State, user: int)
    requires m.Sound()
  {
    && Sensible(m, RowsOf(s.rows, user))
    && Current(s.standing, user) == After(RowsOf(s.rows, user))
    && (user in s.standing <==> RowsOf(s.rows, user) != [])
  }

  ghost predicate AllTold(m: Maths, s: State)
    requires m.Sound()
  {
    forall u :: Told(m, s, u)
  }

  lemma InRangeAfter(m: Maths, rs: seq<RatingRow>)
    requires m.Sound() && Bounded(m, rs)
    ensures After(rs).rating >= RATING_FLOOR && DeviationInRange(After(rs).deviation)
  {
    hide Maths.Sound, GrownAt;
  }

  /** A change computed for someone who has not moved since the field was drawn up. */
  ghost predicate Fresh(m: Maths, standing: map<int, Record>, c: Contest, change: Change)
    requires m.Sound()
  {
    exists others: seq<Entrant> :: others != [] &&
      change == ChangeOf(m, EntrantOf(standing, c, Standing(change.user, change.place)), others)
  }

  lemma OneMoreRow(m: Maths, rs: seq<RatingRow>, c: Contest, change: Change, others: seq<Entrant>, row: RatingRow)
    requires m.Sound() && Sensible(m, rs) && others != []
    requires row == RatingRow(c.id, change.user, change.place, change.ratingBefore, change.ratingAfter,
                              change.deviationBefore, change.deviationAfter, c.endsAt)
    requires change == ChangeOf(m, Entrant(change.user, After(rs).rating, After(rs).deviation,
                                           DaysBetween(After(rs).last, c.endsAt), change.place), others)
    ensures Sensible(m, rs + [row])
  {
    hide Maths.Sound, ChangeOf, GrownDeviation, KFactor, DaysBetween, Ceiling;
    var r := After(rs);
    InRangeAfter(m, rs);
    var e := Entrant(change.user, r.rating, r.deviation, DaysBetween(r.last, c.endsAt), change.place);
    ChangeInRange(m, e, others);
    CopiesBefore(m, e, others);
    var more := rs + [row];
    forall i | 0 <= i < |more|
      ensures Follows(After(more[..i]), more[i])
      ensures RowInRange(more[i])
      ensures Within(more[i].ratingAfter - more[i].ratingBefore, Ceiling(KFactor(GrownAt(m, more, i))))
    {
      if i < |rs| {
        assert more[..i] == rs[..i] && more[i] == rs[i];
        assert GrownAt(m, more, i) == GrownAt(m, rs, i);
      } else {
        assert more[..i] == rs;
      }
    }
  }

  lemma CopiesBefore(m: Maths, e: Entrant, others: seq<Entrant>)
    requires m.Sound() && others != []
    ensures
      var c := ChangeOf(m, e, others);
      c.user == e.user && c.place == e.place && c.ratingBefore == e.rating && c.deviationBefore == e.deviation
  {
  }

  lemma StepTold(m: Maths, s: State, c: Contest, change: Change)
    requires m.Sound() && AllTold(m, s) && Fresh(m, s.standing, c, change)
    ensures AllTold(m, Applied(s, c, change))
  {
    hide Maths.Sound, ChangeOf, Sensible;
    var t := Applied(s, c, change);
    forall u ensures Told(m, t, u) {
      assert Told(m, s, u);
      var row := t.rows[|s.rows|];
      RowsOfOneMore(s.rows, row, u);
      if u == change.user {
        var others :| others != [] &&
          change == ChangeOf(m, EntrantOf(s.standing, c, Standing(change.user, change.place)), others);
        OneMoreRow(m, RowsOf(s.rows, u), c, change, others, row);
      } else {
        assert RowsOf(t.rows, u) == RowsOf(s.rows, u);
        assert Current(t.standing, u) == Current(s.standing, u);
      }
    }
  }

  predicate Distinct(changes: seq<Change>) {
    forall i, j | 0 <= i < j < |changes| :: changes[i].user != changes[j].user
  }

  lemma {:induction false} OthersStayPut(s: State, c: Contest, changes: seq<Change>, user: int)
    requires forall i | 0 <= i < |changes| :: changes[i].user != user
    ensures Current(AllApplied(s, c, changes).standing, user) == Current(s.standing, user)
  {
    if changes != [] {
      OthersStayPut(s, c, changes[..|changes| - 1], user);
    }
  }

  lemma StaysFresh(m: Maths, standing: map<int, Record>, later: map<int, Record>, c: Contest, change: Change)
    requires m.Sound() && Fresh(m, standing, c, change)
    requires Current(later, change.user) == Current(standing, change.user)
    ensures Fresh(m, later, c, change)
  {
    hide Maths.Sound, ChangeOf;
    var entrant := EntrantOf(standing, c, Standing(change.user, change.place));
    assert EntrantOf(later, c, Standing(change.user, change.place)) == entrant;
    var others :| others != [] && change == ChangeOf(m, entrant, others);
  }

  lemma {:induction false} AllAppliedTold(m: Maths, s: State, c: Contest, changes: seq<Change>)
    requires m.Sound() && AllTold(m, s) && Distinct(changes)
    requires forall i | 0 <= i < |changes| :: Fresh(m, s.standing, c, changes[i])
    ensures AllTold(m, AllApplied(s, c, changes))
  {
    hide Maths.Sound, ChangeOf, Told, Applied;
    if changes != [] {
      var most, last := changes[..|changes| - 1], changes[|changes| - 1];
      AllAppliedTold(m, s, c, most);
      OthersStayPut(s, c, most, last.user);
      StaysFresh(m, s.standing, AllApplied(s, c, most).standing, c, last);
      StepTold(m, AllApplied(s, c, most), c, last);
    }
  }

  lemma ChangesAreFresh(m: Maths, standing: map<int, Record>, c: Contest)
    requires m.Sound() && OneRowEach(c.board)
    ensures
      var changes := Changes(m, Field(standing, c));
      Distinct(changes) && forall i | 0 <= i < |changes| :: Fresh(m, standing, c, changes[i])
  {
    hide Maths.Sound, ChangeOf;
    var field := Field(standing, c);
    FieldIsDistinct(standing, c);
    var changes := Changes(m, field);
    forall i | 0 <= i < |changes|
      ensures changes[i].user == field[i].user && Fresh(m, standing, c, changes[i])
    {
      var others := Others(field, field[i].user);
      OthersOf(field, i);
      CopiesBefore(m, field[i], others);
      assert Standing(changes[i].user, changes[i].place) == c.board[i];
      assert others != [] && changes[i] == ChangeOf(m, EntrantOf(standing, c, c.board[i]), others);
    }
  }

  /** Through a whole replay: each competitor's rows chain from the start values, stay in range and within K, and
      the record the replay ends with is what the rows add up to. */
  lemma {:induction false} HistoryChains(m: Maths, contests: seq<Contest>)
    requires m.Sound() && ValidContests(contests)
    ensures AllTold(m, Replayed(m, contests))
  {
    hide Maths.Sound, Told, Changes;
    if contests == [] {
      forall u ensures Told(m, FROM_SCRATCH, u) {
        NobodyYet(m, u);
      }
    } else {
      var most, last := contests[..|contests| - 1], contests[|contests| - 1];
      HistoryChains(m, most);
      ChangesAreFresh(m, Replayed(m, most).standing, last);
      AllAppliedTold(m, Replayed(m, most), last, Changes(m, Field(Replayed(m, most).standing, last)));
    }
  }

  lemma NobodyYet(m: Maths, u: int)
    requires m.Sound()
    ensures Told(m, FROM_SCRATCH, u)
  {
    hide Maths.Sound;
    assert RowsOf([], u) == [];
  }

  lemma RatingIsStartPlusDeltas(m: Maths, contests: seq<Contest>, user: int)
    requires m.Sound() && ValidContests(contests)
    ensures
      var s := Replayed(m, contests);
      var rs := RowsOf(s.rows, user);
      && UserOf(s.standing, user).rating == START_RATING + Deltas(rs)
      && UserOf(s.standing, user).ratedContests == |rs|
      && UserOf(s.standing, user).rating >= RATING_FLOOR
      && DeviationInRange(UserOf(s.standing, user).deviation)
      && (user in s.standing <==> rs != [])
  {
    hide Maths.Sound, Bounded;
    HistoryChains(m, contests);
    var s := Replayed(m, contests);
    var rs := RowsOf(s.rows, user);
    assert Told(m, s, user);
    Telescopes(rs);
    InRangeAfter(m, rs);
  }

  /** A user stands where the last of their rows left them: its rating, its deviation, its time; and with no row where
      everybody starts. */
  lemma UsersStandAtTheirLastRow(m: Maths, contests: seq<Contest>, user: int)
    requires m.Sound() && ValidContests(contests)
    ensures
      var s := Replayed(m, contests);
      var u, rs := UserOf(s.standing, user), RowsOf(s.rows, user);
      && (rs == [] ==> u == User(1000, 350.0, 0, None))
      && (rs != [] ==>
            var last := rs[|rs| - 1];
            u == User(last.ratingAfter, last.deviationAfter, |rs|, Some(last.createdAt)))
  {
    hide Maths.Sound, Replayed, RowsOf, Told;
    HistoryChains(m, contests);
    StandsAfter(m, Replayed(m, contests), user);
  }

  lemma StandsAfter(m: Maths, s: State, user: int)
    requires m.Sound() && Told(m, s, user)
    ensures Current(s.standing, user) == After(RowsOf(s.rows, user))
  {
    hide Maths.Sound, Bounded, Chained, RowsOf;
  }

  // ------------------------------------------------------------------------ In time

  /** The contest rates somebody: they are on its board, and not alone. */
  predicate Rates(c: Contest, user: int) {
    |c.board| >= 2 && exists k | 0 <= k < |c.board| :: c.board[k].user == user
  }

  predicate OldestFirst(contests: seq<Contest>) {
    forall i, j | 0 <= i < j < |contests| :: contests[i].endsAt <= contests[j].endsAt
  }

  /** The rows one contest writes: one for each change, in order, dated by the contest. */
  predicate WritesRows(before: seq<RatingRow>, after: seq<RatingRow>, c: Contest, changes: seq<Change>) {
    && |after| == |before| + |changes| && after[..|before|] == before
    && forall k | |before| <= k < |after| :: WrittenFor(after[k], c, changes[k - |before|])
  }

  predicate WrittenFor(row: RatingRow, c: Contest, change: Change) {
    && row.contest == c.id && row.createdAt == c.endsAt && row.user == change.user && row.place == change.place
    && row.ratingBefore == change.ratingBefore && row.ratingAfter == change.ratingAfter
    && row.deviationBefore == change.deviationBefore && row.deviationAfter == change.deviationAfter
  }

  lemma {:induction false} AllAppliedWrites(s: State, c: Contest, changes: seq<Change>)
    ensures WritesRows(s.rows, AllApplied(s, c, changes).rows, c, changes)
  {
    if changes != [] {
      AllAppliedWrites(s, c, changes[..|changes| - 1]);
    }
  }

  lemma {:induction false} AllAppliedLast(s: State, c: Contest, changes: seq<Change>, user: int)
    requires Distinct(changes)
    ensures
      var before, after := Current(s.standing, user), Current(AllApplied(s, c, changes).standing, user);
      if exists i | 0 <= i < |changes| :: changes[i].user == user
      then after.last == Some(c.endsAt) && after.played == before.played + 1
      else after == before
  {
    if changes != [] {
      var most, last := changes[..|changes| - 1], changes[|changes| - 1];
      AllAppliedLast(s, c, most, user);
      if last.user == user {
        forall i | 0 <= i < |most| ensures most[i].user != user {
          assert changes[i].user != changes[|changes| - 1].user;
        }
      } else if i :| 0 <= i < |changes| && changes[i].user == user {
        assert most[i].user == user;
      }
    }
  }

  lemma ChangesAreTheBoard(m: Maths, standing: map<int, Record>, c: Contest)
    requires m.Sound() && OneRowEach(c.board)
    ensures
      var changes := Changes(m, Field(standing, c));
      && Distinct(changes) && |changes| == (if |c.board| < 2 then 0 else |c.board|)
      && forall i | 0 <= i < |changes| :: changes[i].user == c.board[i].user && changes[i].place == c.board[i].place
  {
    hide Maths.Sound, ChangeOf;
    var field := Field(standing, c);
    FieldIsDistinct(standing, c);
    var changes := Changes(m, field);
    forall i | 0 <= i < |changes| ensures changes[i].user == c.board[i].user && changes[i].place == c.board[i].place {
      OthersOf(field, i);
      CopiesBefore(m, field[i], Others(field, field[i].user));
    }
  }

  /** A row for every entrant of every contest that had two or more, contest after contest, in board order: whose it
      is, the place, and when. */
  predicate FollowsBoard(c: Contest, rows: seq<RatingRow>, from: nat) {
    && from + |c.board| <= |rows|
    && forall k | from <= k < from + |c.board| ::
      && rows[k].contest == c.id && rows[k].user == c.board[k - from].user
      && rows[k].place == c.board[k - from].place && rows[k].createdAt == c.endsAt
  }

  lemma OneContestWrites(m: Maths, s: State, c: Contest)
    requires m.Sound() && OneRowEach(c.board)
    ensures
      var t := AfterContest(m, s, c);
      && (if |c.board| < 2 then t.rows == s.rows
          else |t.rows| == |s.rows| + |c.board| && FollowsBoard(c, t.rows, |s.rows|))
      && |s.rows| <= |t.rows| && t.rows[..|s.rows|] == s.rows
      && forall k | |s.rows| <= k < |t.rows| :: t.rows[k].createdAt == c.endsAt
  {
    hide Maths.Sound, Changes, AllApplied;
    var changes := Changes(m, Field(s.standing, c));
    ChangesAreTheBoard(m, s.standing, c);
    AllAppliedWrites(s, c, changes);
    var t := AfterContest(m, s, c);
    forall k | |s.rows| <= k < |t.rows| ensures t.rows[k].createdAt == c.endsAt {
      assert WrittenFor(t.rows[k], c, changes[k - |s.rows|]);
    }
  }

  lemma OneContestRates(m: Maths, s: State, c: Contest, user: int)
    requires m.Sound() && OneRowEach(c.board)
    ensures
      var before, after := Current(s.standing, user), Current(AfterContest(m, s, c).standing, user);
      if Rates(c, user) then after.last == Some(c.endsAt) && after.played == before.played + 1 else after == before
  {
    hide Maths.Sound, Changes, AllApplied;
    var changes := Changes(m, Field(s.standing, c));
    ChangesAreTheBoard(m, s.standing, c);
    AllAppliedLast(s, c, changes, user);
    if Rates(c, user) {
      var k :| 0 <= k < |c.board| && c.board[k].user == user;
      assert changes[k].user == user;
    }
  }

  /** What the first k contests wrote is never touched by the contests after them. */
  lemma {:induction false} LaterContestsOnlyAppend(m: Maths, contests: seq<Contest>, k: nat)
    requires m.Sound() && ValidContests(contests) && k <= |contests|
    ensures
      var early, all := Replayed(m, contests[..k]).rows, Replayed(m, contests).rows;
      |early| <= |all| && all[..|early|] == early
  {
    hide Maths.Sound, AfterContest;
    if k == |contests| {
      assert contests[..k] == contests;
    } else {
      var most, last := contests[..|contests| - 1], contests[|contests| - 1];
      assert most[..k] == contests[..k];
      LaterContestsOnlyAppend(m, most, k);
      var s := Replayed(m, most);
      OneContestWrites(m, s, last);
      var early := Replayed(m, contests[..k]).rows;
      var all := Replayed(m, contests).rows;
      assert all[..|early|] == all[..|s.rows|][..|early|];
    }
  }

  predicate InTime(rows: seq<RatingRow>) {
    forall i, j | 0 <= i < j < |rows| :: rows[i].createdAt <= rows[j].createdAt
  }

  /** Replayed oldest first, the rows are in time, and none is later than the last contest. */
  lemma {:induction false} RowsAreInTime(m: Maths, contests: seq<Contest>)
    requires m.Sound() && ValidContests(contests) && OldestFirst(contests)
    ensures InTime(Replayed(m, contests).rows)
    ensures forall i | 0 <= i < |Replayed(m, contests).rows| ::
      contests != [] && Replayed(m, contests).rows[i].createdAt <= contests[|contests| - 1].endsAt
  {
    hide Maths.Sound, AfterContest;
    if contests != [] {
      var most, last := contests[..|contests| - 1], contests[|contests| - 1];
      RowsAreInTime(m, most);
      var s := Replayed(m, most);
      OneContestWrites(m, s, last);
      var rows := Replayed(m, contests).rows;
      forall i | 0 <= i < |rows| ensures rows[i].createdAt <= last.endsAt {
        if i < |s.rows| {
          assert rows[i] == rows[..|s.rows|][i];
        }
      }
      forall i, j | 0 <= i < j < |rows| ensures rows[i].createdAt <= rows[j].createdAt {
        if j < |s.rows| {
          assert rows[i] == rows[..|s.rows|][i] && rows[j] == rows[..|s.rows|][j];
        }
      }
    }
  }

  /** When somebody was last rated: at the latest end among the contests that rate them, never if none does. */
  ghost predicate IsLastRated(contests: seq<Contest>, user: int, last: Option<int>) {
    && (forall i | 0 <= i < |contests| && Rates(contests[i], user) :: last.Some? && contests[i].endsAt <= last.value)
    && (last.Some? ==> exists i | 0 <= i < |contests| :: Rates(contests[i], user) && contests[i].endsAt == last.value)
  }

  function RatedCount(contests: seq<Contest>, user: int): nat {
    |set i | 0 <= i < |contests| && Rates(contests[i], user)|
  }

  lemma OneMoreContest(contests: seq<Contest>, user: int)
    requires contests != []
    ensures
      RatedCount(contests, user) ==
        RatedCount(contests[..|contests| - 1], user) + if Rates(contests[|contests| - 1], user) then 1 else 0
  {
    hide Rates;
    var most, n := contests[..|contests| - 1], |contests| - 1;
    var all := set i | 0 <= i < |contests| && Rates(contests[i], user);
    var some := set i | 0 <= i < |most| && Rates(most[i], user);
    assert all == if Rates(contests[n], user) then some + {n} else some;
  }

  /** The latest end counts as last rated, and the rated contests are those that rate. */
  lemma {:induction false} LastRatedIsLatest(m: Maths, contests: seq<Contest>, user: int)
    requires m.Sound() && ValidContests(contests) && OldestFirst(contests)
    ensures
      var u := UserOf(Replayed(m, contests).standing, user);
      IsLastRated(contests, user, u.lastRatedAt) && u.ratedContests == RatedCount(contests, user)
  {
    hide Maths.Sound, AfterContest, Rates, RatedCount;
    if contests == [] {
      NothingRated(user);
    } else {
      var most, last := contests[..|contests| - 1], contests[|contests| - 1];
      LastRatedIsLatest(m, most, user);
      OneContestRates(m, Replayed(m, most), last, user);
      OneMoreContest(contests, user);
      LaterIsLast(contests, user, UserOf(Replayed(m, most).standing, user).lastRatedAt);
    }
  }

  lemma NothingRated(user: int)
    ensures RatedCount([], user) == 0 && IsLastRated([], user, None)
  {
    var none: seq<Contest> := [];
    assert (set i | 0 <= i < |none| && Rates(none[i], user)) == {};
  }

  lemma LaterIsLast(contests: seq<Contest>, user: int, before: Option<int>)
    requires contests != [] && OldestFirst(contests)
    requires IsLastRated(contests[..|contests| - 1], user, before)
    ensures
      var last := contests[|contests| - 1];
      IsLastRated(contests, user, if Rates(last, user) then Some(last.endsAt) else before)
  {
    hide Rates;
    var most, n := contests[..|contests| - 1], |contests| - 1;
    forall i | 0 <= i < n ensures most[i] == contests[i] && contests[i].endsAt <= contests[n].endsAt {
    }
    if before.Some? {
      var i :| 0 <= i < |most| && Rates(most[i], user) && most[i].endsAt == before.value;
      assert Rates(contests[i], user);
    }
  }
}
