/** Ratings rebuilt from scratch: every rated contest replayed in the order it finished. */
module Replay {
  import opened Options
  import opened Rounding
  import opened Rating
  import opened RatingLaws
  import opened RatingBounds

  const DAY := 86400000

  datatype Standing = Standing(user: int, place: int)
  /** A finished rated contest, as the replay sees it: who took which place on the board with the freeze lifted. */
  datatype Contest = Contest(id: int, endsAt: int, board: seq<Standing>)

  /** Where a competitor stands part of the way through the replay. */
  datatype Record = Record(rating: int, deviation: real, played: nat, last: Option<int>)
  const NEWCOMER := Record(START_RATING, DEVIATION_NEW, 0, None)

  datatype RatingRow = RatingRow(contest: int, user: int, place: int, ratingBefore: int, ratingAfter: int,
                                 deviationBefore: real, deviationAfter: real, createdAt: int)

  datatype State = State(standing: map<int, Record>, rows: seq<RatingRow>)

  predicate OneRowEach(board: seq<Standing>) {
    forall i, j | 0 <= i < j < |board| :: board[i].user != board[j].user
  }

  predicate ValidContests(contests: seq<Contest>) {
    forall i | 0 <= i < |contests| :: OneRowEach(contests[i].board)
  }

  function Current(standing: map<int, Record>, user: int): Record {
    if user in standing then standing[user] else NEWCOMER
  }

  function DaysBetween(earlier: Option<int>, later: int): Option<real> {
    match earlier
    case None => None
    case Some(t) => Some(if later <= t then 0.0 else (later - t) as real / DAY as real)
  }

  /** Whole days count as days, what came later as none, and nobody who never competed has waited. */
  lemma DaysAreCounted(t: int, days: nat, later: int)
    ensures DaysBetween(Some(t), t + DAY * days) == Some(days as real)
    ensures later <= t ==> DaysBetween(Some(t), later) == Some(0.0)
    ensures DaysBetween(None, later) == None
  {
    assert (DAY * days) as real == DAY as real * days as real;
  }

  function EntrantOf(standing: map<int, Record>, c: Contest, s: Standing): Entrant {
    var r := Current(standing, s.user);
    Entrant(s.user, r.rating, r.deviation, DaysBetween(r.last, c.endsAt), s.place)
  }

  function Field(standing: map<int, Record>, c: Contest): (field: seq<Entrant>)
    ensures |field| == |c.board|
    ensures forall i | 0 <= i < |field| :: field[i] == EntrantOf(standing, c, c.board[i])
  {
    seq(|c.board|, i requires 0 <= i < |c.board| => EntrantOf(standing, c, c.board[i]))
  }

  /** The changes of one contest, computed from where everyone stood when it started. */
  function Changes(m: Maths, field: seq<Entrant>): (changes: seq<Change>)
    requires m.Sound() && DistinctUsers(field)
    ensures |changes| == if |field| < 2 then 0 else |field|
    ensures |field| >= 2 ==> AreChanges(m, field, changes)
  {
    if |field| < 2 then []
    else
      assert forall i | 0 <= i < |field| :: Others(field, field[i].user) != [] by {
        forall i | 0 <= i < |field| ensures Others(field, field[i].user) != [] {
          OthersOf(field, i);
        }
      }
      seq(|field|, i requires 0 <= i < |field| => ChangeOf(m, field[i], Others(field, field[i].user)))
  }

  function Applied(s: State, c: Contest, change: Change): State {
    var played := Current(s.standing, change.user).played + 1;
    State(s.standing[change.user := Record(change.ratingAfter, change.deviationAfter, played, Some(c.endsAt))],
          s.rows + [RatingRow(c.id, change.user, change.place, change.ratingBefore, change.ratingAfter,
                              change.deviationBefore, change.deviationAfter, c.endsAt)])
  }

  function AllApplied(s: State, c: Contest, changes: seq<Change>): State {
    if changes == [] then s else Applied(AllApplied(s, c, changes[..|changes| - 1]), c, changes[|changes| - 1])
  }

  function AfterContest(m: Maths, s: State, c: Contest): State
    requires m.Sound() && OneRowEach(c.board)
  {
    AllApplied(s, c, Changes(m, Field(s.standing, c)))
  }

  const FROM_SCRATCH := State(map[], [])

  /** The replay: where it leaves everyone, and the rows it writes. */
  function Replayed(m: Maths, contests: seq<Contest>): State
    requires m.Sound() && ValidContests(contests)
  {
    if contests == [] then FROM_SCRATCH
    else AfterContest(m, Replayed(m, contests[..|contests| - 1]), contests[|contests| - 1])
  }

  // -------------------------------------------------------------- The tables

  datatype User = User(rating: int, deviation: real, ratedContests: nat, lastRatedAt: Option<int>)

  function UserOf(standing: map<int, Record>, user: int): User {
    var r := Current(standing, user);
    User(r.rating, r.deviation, r.played, r.last)
  }

  function Ids(contests: seq<Contest>): set<int> {
    set i | 0 <= i < |contests| :: contests[i].id
  }

  datatype Tables = Tables(users: map<int, User>, changes: seq<RatingRow>, ratedAt: map<int, Option<int>>)

  /** The tables a recompute leaves behind. */
  function Rebuilt(m: Maths, contests: seq<Contest>, stamp: int, stored: Tables): Tables
    requires m.Sound() && ValidContests(contests)
  {
    var s := Replayed(m, contests);
    Tables(map u | u in stored.users :: UserOf(s.standing, u), s.rows,
           map c | c in stored.ratedAt :: if c in Ids(contests) then Some(stamp) else None)
  }

  /** Nothing but which users and contests exist is taken from the stored tables: whatever ratings, changes and
      stamps were there, the outcome is the same, and so doing it twice does it once. */
  lemma StoredRatingsDoNotMatter(m: Maths, contests: seq<Contest>, stamp: int, early: int, stored: Tables,
                                 other: Tables)
    requires m.Sound() && ValidContests(contests)
    requires stored.users.Keys == other.users.Keys && stored.ratedAt.Keys == other.ratedAt.Keys
    ensures Rebuilt(m, contests, stamp, stored) == Rebuilt(m, contests, stamp, other)
    ensures Rebuilt(m, contests, stamp, Rebuilt(m, contests, early, stored)) == Rebuilt(m, contests, stamp, stored)
  {
    hide Maths.Sound, Replayed;
    assert forall u :: u in stored.users <==> u in other.users;
    assert forall c :: c in stored.ratedAt <==> c in other.ratedAt;
  }

  class RatingTables {
    var users: map<int, User>
    var changes: seq<RatingRow>
    var ratedAt: map<int, Option<int>>

    constructor (users: map<int, User>, changes: seq<RatingRow>, ratedAt: map<int, Option<int>>)
      ensures this.users == users && this.changes == changes && this.ratedAt == ratedAt
    {
      this.users := users;
      this.changes := changes;
      this.ratedAt := ratedAt;
    }

    function Snapshot(): Tables
      reads this
    {
      Tables(users, changes, ratedAt)
    }

    /** Everything stored is thrown away and rebuilt. */
    method Recompute(m: Maths, contests: seq<Contest>, stamp: int)
      requires m.Sound() && ValidContests(contests)
      modifies this
      ensures Snapshot() == Rebuilt(m, contests, stamp, old(Snapshot()))
    {
      hide Maths.Sound, Replayed;
      ghost var stored := Snapshot();
      Clear();
      var standing := ReplayAll(m, contests);
      Store(standing, contests, stamp);
    }

    method Clear()
      modifies this
      ensures changes == []
      ensures ratedAt == map c | c in old(ratedAt) :: None
      ensures users == map u | u in old(users) :: UserOf(map[], u)
    {
      changes := [];
      ratedAt := map c | c in ratedAt :: None;
      users := map u | u in users :: User(START_RATING, DEVIATION_NEW, 0, None);
    }

    method Store(standing: map<int, Record>, contests: seq<Contest>, stamp: int)
      modifies this`ratedAt, this`users
      ensures ratedAt == map c | c in old(ratedAt) :: if c in Ids(contests) then Some(stamp) else old(ratedAt)[c]
      ensures users == map u | u in old(users) :: if u in standing then UserOf(standing, u) else old(users)[u]
    {
      ratedAt := map c | c in ratedAt :: if c in Ids(contests) then Some(stamp) else ratedAt[c];
      users := map u | u in users :: if u in standing then UserOf(standing, u) else users[u];
    }

    method ReplayAll(m: Maths, contests: seq<Contest>) returns (standing: map<int, Record>)
      requires m.Sound() && ValidContests(contests) && changes == []
      modifies this`changes
      ensures State(standing, changes) == Replayed(m, contests)
    {
      hide Maths.Sound, AfterContest;
      standing := map[];
      assert contests[..0] == [] && contests[..|contests|] == contests;
      for i := 0 to |contests|
        invariant ValidContests(contests[..i])
        invariant State(standing, changes) == Replayed(m, contests[..i])
      {
        assert contests[..i + 1][..i] == contests[..i] && contests[..i + 1][i] == contests[i];
        standing := ReplayContest(m, standing, contests[i]);
      }
    }

    method ReplayContest(m: Maths, standing: map<int, Record>, c: Contest) returns (after: map<int, Record>)
      requires m.Sound() && OneRowEach(c.board)
      modifies this`changes
      ensures State(after, changes) == AfterContest(m, State(standing, old(changes)), c)
    {
      hide Maths.Sound, EntrantOf, ChangeOf;
      var entrants: seq<Entrant> := [];
      for i := 0 to |c.board|
        invariant |entrants| == i && changes == old(changes)
        invariant forall j | 0 <= j < i :: entrants[j] == EntrantOf(standing, c, c.board[j])
      {
        var r := Current(standing, c.board[i].user);
        entrants := entrants + [Entrant(c.board[i].user, r.rating, r.deviation, DaysBetween(r.last, c.endsAt),
                                        c.board[i].place)];
        EntrantIs(standing, c, i);
      }
      assert entrants == Field(standing, c);
      FieldIsDistinct(standing, c);
      var computed := Compute(m, entrants);
      assert computed == Changes(m, entrants);
      after := Apply(standing, c, computed);
    }

    method Apply(standing: map<int, Record>, c: Contest, computed: seq<Change>) returns (after: map<int, Record>)
      modifies this`changes
      ensures State(after, changes) == AllApplied(State(standing, old(changes)), c, computed)
    {
      after := standing;
      assert computed[..0] == [] && computed[..|computed|] == computed;
      for i := 0 to |computed|
        invariant State(after, changes) == AllApplied(State(standing, old(changes)), c, computed[..i])
      {
        var change := computed[i];
        assert computed[..i + 1][..i] == computed[..i];
        var played := (if change.user in after then after[change.user].played else 0) + 1;
        after := after[change.user := Record(change.ratingAfter, change.deviationAfter, played, Some(c.endsAt))];
        changes := changes + [RatingRow(c.id, change.user, change.place, change.ratingBefore, change.ratingAfter,
                                        change.deviationBefore, change.deviationAfter, c.endsAt)];
      }
    }
  }

  lemma EntrantIs(standing: map<int, Record>, c: Contest, i: nat)
    requires i < |c.board|
    ensures
      var r := Current(standing, c.board[i].user);
      EntrantOf(standing, c, c.board[i]) ==
        Entrant(c.board[i].user, r.rating, r.deviation, DaysBetween(r.last, c.endsAt), c.board[i].place)
  {
  }

  lemma FieldIsDistinct(standing: map<int, Record>, c: Contest)
    requires OneRowEach(c.board)
    ensures DistinctUsers(Field(standing, c))
  {
  }
}
