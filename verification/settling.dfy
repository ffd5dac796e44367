/** Settling ratings: the unfrozen boards of every rated contest that has ended, replayed oldest first. */
module Settling {
  import opened Options
  import opened Sorting
  import opened Selection
  import opened Verdicts
  import Scoreboard
  import ScoreboardLaws
  import ScoreboardTable
  import Rating
  import Replay
  import ReplayLaws

  datatype Stored = Stored(contest: Scoreboard.Contest, rated: bool)

  predicate Due(s: Stored, now: int) {
    s.rated && Scoreboard.PhaseOf(s.contest, now) == Scoreboard.Ended
  }

  const OLDEST_FIRST: (Scoreboard.Contest, Scoreboard.Contest) -> bool :=
    (a: Scoreboard.Contest, b: Scoreboard.Contest) => a.endsAt < b.endsAt || (a.endsAt == b.endsAt && a.id <= b.id)

  function AllDue(contests: seq<Stored>, now: int): seq<Scoreboard.Contest> {
    if contests == [] then []
    else
      var last := contests[|contests| - 1];
      AllDue(contests[..|contests| - 1], now) + (if Due(last, now) then [last.contest] else [])
  }

  /** The contests to replay, in the order they finished. */
  function RatedContests(contests: seq<Stored>, now: int): seq<Scoreboard.Contest> {
    Sort(OLDEST_FIRST, AllDue(contests, now))
  }

  /** The places a contest is rated on are those of its board with the freeze lifted. */
  ghost predicate RatedOn(c: Scoreboard.Contest, names: map<int, string>, table: seq<Scoreboard.Submission>,
                          replayed: Replay.Contest)
  {
    && Scoreboard.Entrants(c, Scoreboard.Query(c, table)) <= names.Keys
    && replayed.id == c.id && replayed.endsAt == c.endsAt
    && exists board: seq<Scoreboard.Ranked> ::
      && Scoreboard.Correct(c, None, names, Scoreboard.Query(c, table), board)
      && |replayed.board| == |board|
      && forall i | 0 <= i < |board| ::
        replayed.board[i] == Replay.Standing(board[i].row.user, board[i].rank)
  }

  method RatedBoard(c: Scoreboard.Contest, names: map<int, string>, table: seq<Scoreboard.Submission>, now: int)
    returns (replayed: Replay.Contest)
    requires Scoreboard.ValidContest(c) && forall s | s in table :: s.user in names
    ensures Scoreboard.Entrants(c, Scoreboard.Query(c, table)) <= names.Keys
    ensures RatedOn(c, names, table, replayed) && Replay.OneRowEach(replayed.board)
  {
    hide Scoreboard.Query, Scoreboard.Entrants, Scoreboard.RowOf, Scoreboard.Place;
    var board := Scoreboard.Scoreboard(c, names, table, now, true);
    var standings: seq<Replay.Standing> := [];
    for i := 0 to |board|
      invariant |standings| == i
      invariant forall j | 0 <= j < i :: standings[j] == Replay.Standing(board[j].row.user, board[j].rank)
    {
      standings := standings + [Replay.Standing(board[i].row.user, board[i].rank)];
    }
    replayed := Replay.Contest(c.id, c.endsAt, standings);
  }

  /** Rated, and over. */
  function HasEnded(now: int): Stored -> bool {
    (s: Stored) => s.rated && s.contest.startsAt <= now && s.contest.endsAt < now
  }

  function ContestsOf(kept: seq<Stored>): (contests: seq<Scoreboard.Contest>)
    ensures |contests| == |kept| && forall i | 0 <= i < |kept| :: contests[i] == kept[i].contest
  {
    seq(|kept|, i requires 0 <= i < |kept| => kept[i].contest)
  }

  lemma {:induction false} DueArePicked(contests: seq<Stored>, now: int) returns (kept: seq<Stored>)
    ensures Picks(contests, HasEnded(now), kept) && ContestsOf(kept) == AllDue(contests, now)
  {
    hide Picks;
    kept := [];
    if contests == [] {
      PicksNothing(HasEnded(now));
    } else {
      var init, last := contests[..|contests| - 1], contests[|contests| - 1];
      kept := DueArePicked(init, now);
      PicksOneMore(init, last, HasEnded(now), kept);
      assert contests == init + [last];
      if HasEnded(now)(last) {
        assert ContestsOf(kept + [last]) == ContestsOf(kept) + [last.contest];
        kept := kept + [last];
      }
    }
  }

  predicate Earlier(a: Scoreboard.Contest, b: Scoreboard.Contest) {
    a.endsAt < b.endsAt || (a.endsAt == b.endsAt && a.id <= b.id)
  }

  /** The replay takes each rated contest that has ended once, by end and then by id. */
  lemma RatedInOrder(contests: seq<Stored>, now: int) returns (kept: seq<Stored>)
    ensures Picks(contests, HasEnded(now), kept)
    ensures multiset(RatedContests(contests, now)) == multiset(ContestsOf(kept))
    ensures forall i, j | 0 <= i < j < |RatedContests(contests, now)| ::
      Earlier(RatedContests(contests, now)[i], RatedContests(contests, now)[j])
    ensures forall c | c in RatedContests(contests, now) ::
      exists s :: s in contests && s.contest == c && HasEnded(now)(s)
  {
    hide Picks, Sort;
    kept := DueArePicked(contests, now);
    SortKeepsElements(OLDEST_FIRST, AllDue(contests, now));
    SortIsSorted(OLDEST_FIRST, AllDue(contests, now));
    PickedAreWanted(contests, HasEnded(now), kept);
    var due := RatedContests(contests, now);
    forall i, j | 0 <= i < j < |due| ensures Earlier(due[i], due[j]) {
      assert OLDEST_FIRST(due[i], due[j]);
    }
    forall c | c in due ensures exists s :: s in contests && s.contest == c && HasEnded(now)(s) {
      assert c in multiset(due);
      var i :| 0 <= i < |ContestsOf(kept)| && ContestsOf(kept)[i] == c;
      assert kept[i] in kept;
    }
  }

  /** The tables after are the replay of the due contests, each on the places of its board. */
  ghost predicate Settles(m: Rating.Maths, contests: seq<Stored>, names: map<int, string>,
                          table: seq<Scoreboard.Submission>, now: int, stamp: int, stored: Replay.Tables,
                          after: Replay.Tables)
    requires m.Sound()
  {
    var due := RatedContests(contests, now);
    exists replayed: seq<Replay.Contest> ::
      && |replayed| == |due| && Replay.ValidContests(replayed)
      && (forall i | 0 <= i < |due| :: AllNamed(due[i], names, table) && RatedOn(due[i], names, table, replayed[i]))
      && after == Replay.Rebuilt(m, replayed, stamp, stored)
  }

  ghost predicate AllNamed(c: Scoreboard.Contest, names: map<int, string>, table: seq<Scoreboard.Submission>) {
    Scoreboard.Entrants(c, Scoreboard.Query(c, table)) <= names.Keys
  }

  /** Ratings rebuilt from the contests, names and submissions alone. */
  method RecomputeRatings(tables: Replay.RatingTables, m: Rating.Maths, contests: seq<Stored>, names: map<int, string>,
                          table: seq<Scoreboard.Submission>, now: int, stamp: int) returns (count: nat)
    requires m.Sound() && (forall s | s in table :: s.user in names)
    requires forall s | s in contests :: Scoreboard.ValidContest(s.contest)
    modifies tables
    ensures count == |RatedContests(contests, now)|
    ensures Settles(m, contests, names, table, now, stamp, old(tables.Snapshot()), tables.Snapshot())
    ensures forall i, j | 0 <= i < j < |tables.changes| :: tables.changes[i].createdAt <= tables.changes[j].createdAt
    ensures forall u | u in tables.users ::
      IsLastRated(RatedContests(contests, now), table, u, tables.users[u].lastRatedAt)
  {
    hide RatedOn, RatedContests, Replay.Rebuilt, Rating.Maths.Sound, Scoreboard.Query, Scoreboard.Entrants,
         Scoreboard.ValidContest, Picks, Earlier;
    var due := RatedContests(contests, now);
    var _ := RatedInOrder(contests, now);
    var replayed: seq<Replay.Contest> := [];
    for i := 0 to |due|
      invariant |replayed| == i && Replay.ValidContests(replayed)
      invariant tables.Snapshot() == old(tables.Snapshot())
      invariant forall j | 0 <= j < i :: AllNamed(due[j], names, table) && RatedOn(due[j], names, table, replayed[j])
    {
      assert due[i] in due;
      var one := RatedBoard(due[i], names, table, now);
      replayed := replayed + [one];
    }
    tables.Recompute(m, replayed, stamp);
    SettledInTime(m, contests, names, table, now, stamp, old(tables.Snapshot()), tables.Snapshot());
    count := |replayed|;
  }

  // ------------------------------------------------------------ What the tables then say

  /** The contest rates somebody: they tried a problem of it while it ran, and so did somebody else. */
  ghost predicate RatesOn(c: Scoreboard.Contest, table: seq<Scoreboard.Submission>, user: int) {
    && ScoreboardTable.HasTried(c, table, user)
    && exists other :: other != user && ScoreboardTable.HasTried(c, table, other)
  }

  lemma RatesOnTable(c: Scoreboard.Contest, names: map<int, string>, table: seq<Scoreboard.Submission>,
                     replayed: Replay.Contest, user: int)
    requires Scoreboard.ValidContest(c) && RatedOn(c, names, table, replayed)
    ensures ReplayLaws.Rates(replayed, user) <==> RatesOn(c, table, user)
  {
    hide Scoreboard.Query, Scoreboard.Entrants, Scoreboard.Correct, ScoreboardTable.HasTried, Scoreboard.ValidContest;
    var subs := Scoreboard.Query(c, table);
    var board: seq<Scoreboard.Ranked> :|
      && Scoreboard.Correct(c, None, names, subs, board) && |replayed.board| == |board|
      && forall i | 0 <= i < |board| :: replayed.board[i] == Replay.Standing(board[i].row.user, board[i].rank);
    forall u ensures ScoreboardTable.HasTried(c, table, u) <==> ScoreboardTable.HasRow(board, u) {
      ScoreboardTable.RowsAreForEntrants(c, None, names, subs, board, u);
      ScoreboardTable.HasTriedIsEntrant(c, table, u);
    }
    UsersDiffer(c, names, subs, board);
    if ReplayLaws.Rates(replayed, user) {
      var k :| 0 <= k < |replayed.board| && replayed.board[k].user == user;
      assert board[k].row.user == user;
      var other := if k == 0 then 1 else 0;
      assert ScoreboardTable.HasRow(board, board[other].row.user);
    }
    if RatesOn(c, table, user) {
      var i :| 0 <= i < |board| && board[i].row.user == user;
      assert replayed.board[i].user == user;
    }
  }

  lemma UsersDiffer(c: Scoreboard.Contest, names: map<int, string>, subs: seq<Scoreboard.Submission>,
                    board: seq<Scoreboard.Ranked>)
    requires Scoreboard.Entrants(c, subs) <= names.Keys && Scoreboard.Correct(c, None, names, subs, board)
    ensures forall i, j | 0 <= i < j < |board| :: board[i].row.user != board[j].row.user
  {
  }

  /** When somebody was last rated, by the contests and submissions themselves. */
  ghost predicate IsLastRated(due: seq<Scoreboard.Contest>, table: seq<Scoreboard.Submission>, user: int,
                              last: Option<int>)
  {
    && (forall c | c in due && RatesOn(c, table, user) :: last.Some? && c.endsAt <= last.value)
    && (last.Some? ==> exists c :: c in due && RatesOn(c, table, user) && c.endsAt == last.value)
  }

  lemma SameLastRated(due: seq<Scoreboard.Contest>, names: map<int, string>, table: seq<Scoreboard.Submission>,
                      replayed: seq<Replay.Contest>, user: int, last: Option<int>)
    requires |replayed| == |due| && forall i | 0 <= i < |due| ::
      Scoreboard.ValidContest(due[i]) && RatedOn(due[i], names, table, replayed[i])
    requires ReplayLaws.IsLastRated(replayed, user, last)
    ensures IsLastRated(due, table, user, last)
  {
    hide RatesOn, ReplayLaws.Rates, Scoreboard.ValidContest, Scoreboard.Entrants, Scoreboard.Query, Scoreboard.Correct;
    forall i | 0 <= i < |due| ensures ReplayLaws.Rates(replayed[i], user) <==> RatesOn(due[i], table, user) {
      RatesOnTable(due[i], names, table, replayed[i], user);
    }
    forall c | c in due && RatesOn(c, table, user) ensures last.Some? && c.endsAt <= last.value {
      var i :| 0 <= i < |due| && due[i] == c;
      assert ReplayLaws.Rates(replayed[i], user);
    }
    if last.Some? {
      var i :| 0 <= i < |replayed| && ReplayLaws.Rates(replayed[i], user) && replayed[i].endsAt == last.value;
      assert due[i] in due;
    }
  }

  lemma ReplayedOldestFirst(contests: seq<Stored>, names: map<int, string>, table: seq<Scoreboard.Submission>, now: int,
                            replayed: seq<Replay.Contest>)
    requires |replayed| == |RatedContests(contests, now)|
    requires forall i | 0 <= i < |replayed| :: RatedOn(RatedContests(contests, now)[i], names, table, replayed[i])
    ensures ReplayLaws.OldestFirst(replayed)
  {
    hide RatedContests, Picks, Scoreboard.Entrants, Scoreboard.Query, Scoreboard.Correct;
    var _ := RatedInOrder(contests, now);
    forall i, j | 0 <= i < j < |replayed| ensures replayed[i].endsAt <= replayed[j].endsAt {
      assert Earlier(RatedContests(contests, now)[i], RatedContests(contests, now)[j]);
    }
  }

  /** After a recompute the change rows run forward in time, and every user was last rated at the latest end among the
      rated contests that had ended, in which they and somebody else tried a problem. */
  lemma SettledInTime(m: Rating.Maths, contests: seq<Stored>, names: map<int, string>,
                      table: seq<Scoreboard.Submission>, now: int, stamp: int, stored: Replay.Tables,
                      after: Replay.Tables)
    requires m.Sound() && Settles(m, contests, names, table, now, stamp, stored, after)
    requires forall s | s in contests :: Scoreboard.ValidContest(s.contest)
    ensures forall i, j | 0 <= i < j < |after.changes| :: after.changes[i].createdAt <= after.changes[j].createdAt
    ensures forall u | u in after.users ::
      IsLastRated(RatedContests(contests, now), table, u, after.users[u].lastRatedAt)
  {
    hide RatedOn, RatedContests, Rating.Maths.Sound, AllNamed, IsLastRated, Replay.Replayed, Picks, Earlier,
         Scoreboard.ValidContest;
    var due := RatedContests(contests, now);
    var replayed: seq<Replay.Contest> :|
      && |replayed| == |due| && Replay.ValidContests(replayed)
      && (forall i | 0 <= i < |due| :: AllNamed(due[i], names, table) && RatedOn(due[i], names, table, replayed[i]))
      && after == Replay.Rebuilt(m, replayed, stamp, stored);
    ReplayedOldestFirst(contests, names, table, now, replayed);
    ReplayLaws.RowsAreInTime(m, replayed);
    var _ := RatedInOrder(contests, now);
    forall i | 0 <= i < |due| ensures Scoreboard.ValidContest(due[i]) {
      assert due[i] in due;
    }
    forall u | u in after.users ensures IsLastRated(due, table, u, after.users[u].lastRatedAt) {
      ReplayLaws.LastRatedIsLatest(m, replayed, u);
      SameLastRated(due, names, table, replayed, u, after.users[u].lastRatedAt);
    }
  }

  lemma IdsOfDue(due: seq<Scoreboard.Contest>, names: map<int, string>, table: seq<Scoreboard.Submission>,
                 replayed: seq<Replay.Contest>, id: int)
    requires |replayed| == |due| && forall i | 0 <= i < |due| :: RatedOn(due[i], names, table, replayed[i])
    ensures id in Replay.Ids(replayed) <==> exists c :: c in due && c.id == id
  {
    hide Scoreboard.Query, Scoreboard.Entrants, Scoreboard.Correct;
    if id in Replay.Ids(replayed) {
      var i :| 0 <= i < |replayed| && replayed[i].id == id;
      assert due[i] in due && due[i].id == id;
    }
    if c :| c in due && c.id == id {
      var i :| 0 <= i < |due| && due[i] == c;
      assert replayed[i].id == id;
    }
  }

  /** A recompute stamps exactly the rated contests that have ended, and takes the stamp off every other; it neither
      adds nor loses a contest or a user. */
  lemma StampedExactlyWhenDue(m: Rating.Maths, contests: seq<Stored>, names: map<int, string>,
                              table: seq<Scoreboard.Submission>, now: int, stamp: int, stored: Replay.Tables,
                              after: Replay.Tables)
    requires m.Sound() && Settles(m, contests, names, table, now, stamp, stored, after)
    ensures after.users.Keys == stored.users.Keys && after.ratedAt.Keys == stored.ratedAt.Keys
    ensures forall id | id in after.ratedAt ::
      after.ratedAt[id] ==
        if exists s :: s in contests && s.contest.id == id && HasEnded(now)(s) then Some(stamp) else None
  {
    hide RatedOn, RatedContests, Rating.Maths.Sound, AllNamed, Replay.Replayed, Replay.Ids, Picks, Earlier;
    var due := RatedContests(contests, now);
    var replayed: seq<Replay.Contest> :|
      && |replayed| == |due| && Replay.ValidContests(replayed)
      && (forall i | 0 <= i < |due| :: AllNamed(due[i], names, table) && RatedOn(due[i], names, table, replayed[i]))
      && after == Replay.Rebuilt(m, replayed, stamp, stored);
    var _ := RatedInOrder(contests, now);
    forall id | id in after.ratedAt
      ensures after.ratedAt[id] ==
        if exists s :: s in contests && s.contest.id == id && HasEnded(now)(s) then Some(stamp) else None
    {
      IdsOfDue(due, names, table, replayed, id);
      if s :| s in contests && s.contest.id == id && HasEnded(now)(s) {
        DueIsListed(contests, now, s);
        assert s.contest in due;
      }
      if c :| c in due && c.id == id {
        var s :| s in contests && s.contest == c && HasEnded(now)(s);
      }
    }
  }

  // ------------------------------------------------------------------- Once is enough

  lemma OneBoardToRateOn(c: Scoreboard.Contest, names: map<int, string>, table: seq<Scoreboard.Submission>,
                         a: Replay.Contest, b: Replay.Contest)
    requires ScoreboardLaws.OneUserEach(names) && AllNamed(c, names, table)
    requires RatedOn(c, names, table, a) && RatedOn(c, names, table, b)
    ensures a == b
  {
    hide Scoreboard.Query, Scoreboard.Entrants, Scoreboard.Correct;
    var subs := Scoreboard.Query(c, table);
    var x: seq<Scoreboard.Ranked> :|
      && Scoreboard.Correct(c, None, names, subs, x) && |a.board| == |x|
      && forall i | 0 <= i < |x| :: a.board[i] == Replay.Standing(x[i].row.user, x[i].rank);
    var y: seq<Scoreboard.Ranked> :|
      && Scoreboard.Correct(c, None, names, subs, y) && |b.board| == |y|
      && forall i | 0 <= i < |y| :: b.board[i] == Replay.Standing(y[i].row.user, y[i].rank);
    ScoreboardLaws.BoardIsUnique(c, None, names, subs, x, y);
    assert a.board == b.board;
  }

  /** The contests, names and submissions leave nothing to choose: two recomputes over them end with the same tables,
      whatever ratings each of them found there. */
  lemma SettlingIsDetermined(m: Rating.Maths, contests: seq<Stored>, names: map<int, string>,
                             table: seq<Scoreboard.Submission>, now: int, stamp: int, stored: Replay.Tables,
                             other: Replay.Tables, a: Replay.Tables, b: Replay.Tables)
    requires m.Sound() && ScoreboardLaws.OneUserEach(names)
    requires stored.users.Keys == other.users.Keys && stored.ratedAt.Keys == other.ratedAt.Keys
    requires Settles(m, contests, names, table, now, stamp, stored, a)
    requires Settles(m, contests, names, table, now, stamp, other, b)
    ensures a == b
  {
    hide RatedOn, RatedContests, Replay.Rebuilt, Rating.Maths.Sound, AllNamed;
    var due := RatedContests(contests, now);
    var x: seq<Replay.Contest> :|
      && |x| == |due| && Replay.ValidContests(x)
      && (forall i | 0 <= i < |due| :: AllNamed(due[i], names, table) && RatedOn(due[i], names, table, x[i]))
      && a == Replay.Rebuilt(m, x, stamp, stored);
    var y: seq<Replay.Contest> :|
      && |y| == |due| && Replay.ValidContests(y)
      && (forall i | 0 <= i < |due| :: AllNamed(due[i], names, table) && RatedOn(due[i], names, table, y[i]))
      && b == Replay.Rebuilt(m, y, stamp, other);
    forall i | 0 <= i < |due| ensures x[i] == y[i] {
      OneBoardToRateOn(due[i], names, table, x[i], y[i]);
    }
    assert x == y;
    Replay.StoredRatingsDoNotMatter(m, x, stamp, stamp, stored, other);
  }

  lemma SameContest(c: Scoreboard.Contest, names: map<int, string>, table: seq<Scoreboard.Submission>,
                    replayed: Replay.Contest)
    requires RatedOn(c, names, table, replayed)
    ensures replayed.id == c.id
  {
  }

  lemma RebuiltKeepsKeys(m: Rating.Maths, replayed: seq<Replay.Contest>, stamp: int, stored: Replay.Tables)
    requires m.Sound() && Replay.ValidContests(replayed)
    ensures
      var after := Replay.Rebuilt(m, replayed, stamp, stored);
      && after.users.Keys == stored.users.Keys && after.ratedAt.Keys == stored.ratedAt.Keys
      && forall id | id in after.ratedAt && id in Replay.Ids(replayed) :: after.ratedAt[id] == Some(stamp)
  {
    hide Rating.Maths.Sound, Replay.Replayed;
  }

  lemma SettlingKeepsKeys(m: Rating.Maths, contests: seq<Stored>, names: map<int, string>,
                          table: seq<Scoreboard.Submission>, now: int, stamp: int, stored: Replay.Tables,
                          after: Replay.Tables)
    requires m.Sound() && Settles(m, contests, names, table, now, stamp, stored, after)
    ensures after.users.Keys == stored.users.Keys && after.ratedAt.Keys == stored.ratedAt.Keys
    ensures forall c | c in RatedContests(contests, now) && c.id in after.ratedAt :: after.ratedAt[c.id] == Some(stamp)
  {
    hide RatedContests, Rating.Maths.Sound, Replay.Rebuilt, RatedOn, AllNamed;
    var due := RatedContests(contests, now);
    var replayed: seq<Replay.Contest> :|
      && |replayed| == |due| && Replay.ValidContests(replayed)
      && (forall i | 0 <= i < |due| :: AllNamed(due[i], names, table) && RatedOn(due[i], names, table, replayed[i]))
      && after == Replay.Rebuilt(m, replayed, stamp, stored);
    RebuiltKeepsKeys(m, replayed, stamp, stored);
    forall c | c in due && c.id in after.ratedAt ensures after.ratedAt[c.id] == Some(stamp) {
      var i :| 0 <= i < |due| && due[i] == c;
      SameContest(c, names, table, replayed[i]);
      assert c.id in Replay.Ids(replayed);
    }
  }

  /** Recomputing again changes nothing. */
  lemma TwiceIsOnce(m: Rating.Maths, contests: seq<Stored>, names: map<int, string>, table: seq<Scoreboard.Submission>,
                    now: int, stamp: int, stored: Replay.Tables, once: Replay.Tables, twice: Replay.Tables)
    requires m.Sound() && ScoreboardLaws.OneUserEach(names)
    requires Settles(m, contests, names, table, now, stamp, stored, once)
    requires Settles(m, contests, names, table, now, stamp, once, twice)
    ensures twice == once
  {
    hide Settles, Rating.Maths.Sound;
    SettlingKeepsKeys(m, contests, names, table, now, stamp, stored, once);
    SettlingIsDetermined(m, contests, names, table, now, stamp, stored, once, once, twice);
  }

  // --------------------------------------------------------------- What the judge polls

  predicate IsBusy(c: Scoreboard.Contest, table: seq<Scoreboard.Submission>) {
    exists i | 0 <= i < |table| :: table[i].contest == Some(c.id) && Waiting(table[i].verdict)
  }

  predicate Awaits(s: Stored, table: seq<Scoreboard.Submission>, ratedAt: map<int, Option<int>>, now: int) {
    && Due(s, now) && !IsBusy(s.contest, table)
    && (s.contest.id in ratedAt ==> ratedAt[s.contest.id] == None)
  }

  function Awaiting(contests: seq<Stored>, table: seq<Scoreboard.Submission>, ratedAt: map<int, Option<int>>, now: int)
    : (n: nat)
  {
    if contests == [] then 0
    else
      var last := contests[|contests| - 1];
      Awaiting(contests[..|contests| - 1], table, ratedAt, now) + (if Awaits(last, table, ratedAt, now) then 1 else 0)
  }

  lemma {:induction false} NobodyAwaits(contests: seq<Stored>, table: seq<Scoreboard.Submission>,
                                        ratedAt: map<int, Option<int>>, now: int)
    ensures Awaiting(contests, table, ratedAt, now) == 0 <==>
            forall i | 0 <= i < |contests| :: !Awaits(contests[i], table, ratedAt, now)
  {
    hide Awaits;
    if contests != [] {
      NobodyAwaits(contests[..|contests| - 1], table, ratedAt, now);
    }
  }

  /** Rated, over, with nothing of it still waiting to be judged, and not stamped as rated. */
  function AwaitsRating(table: seq<Scoreboard.Submission>, ratedAt: map<int, Option<int>>, now: int): Stored -> bool {
    (s: Stored) =>
      && s.rated && s.contest.startsAt <= now && s.contest.endsAt < now
      && (forall x | x in table && x.contest == Some(s.contest.id) :: x.verdict != Pending && x.verdict != Judging)
      && !(s.contest.id in ratedAt && ratedAt[s.contest.id].Some?)
  }

  lemma AwaitsOnFields(s: Stored, table: seq<Scoreboard.Submission>, ratedAt: map<int, Option<int>>, now: int)
    ensures AwaitsRating(table, ratedAt, now)(s) <==> Awaits(s, table, ratedAt, now)
  {
    if IsBusy(s.contest, table) {
      var i :| 0 <= i < |table| && table[i].contest == Some(s.contest.id) && Waiting(table[i].verdict);
      assert table[i] in table;
    }
  }

  lemma {:induction false} AwaitingArePicked(contests: seq<Stored>, table: seq<Scoreboard.Submission>,
                                             ratedAt: map<int, Option<int>>, now: int) returns (kept: seq<Stored>)
    ensures Picks(contests, AwaitsRating(table, ratedAt, now), kept)
    ensures Awaiting(contests, table, ratedAt, now) == |kept|
  {
    hide Picks, AwaitsRating, Awaits;
    if contests == [] {
      PicksNothing(AwaitsRating(table, ratedAt, now));
      kept := [];
    } else {
      var init, last := contests[..|contests| - 1], contests[|contests| - 1];
      kept := AwaitingArePicked(init, table, ratedAt, now);
      PicksOneMore(init, last, AwaitsRating(table, ratedAt, now), kept);
      AwaitsOnFields(last, table, ratedAt, now);
      assert init + [last] == contests;
      if Awaits(last, table, ratedAt, now) {
        kept := kept + [last];
      }
    }
  }

  /** Settle whatever has ended and been fully judged; nothing is touched when there is nothing new. */
  method ApplyFinishedRatings(tables: Replay.RatingTables, m: Rating.Maths, contests: seq<Stored>,
                              names: map<int, string>, table: seq<Scoreboard.Submission>, now: int, stamp: int)
    returns (settled: nat)
    requires m.Sound() && (forall s | s in table :: s.user in names)
    requires forall s | s in contests :: Scoreboard.ValidContest(s.contest)
    modifies tables
    ensures settled == Awaiting(contests, table, old(tables.ratedAt), now)
    ensures exists kept :: Picks(contests, AwaitsRating(table, old(tables.ratedAt), now), kept) && settled == |kept|
    ensures settled == 0 ==> tables.Snapshot() == old(tables.Snapshot())
    ensures settled > 0 ==> Settles(m, contests, names, table, now, stamp, old(tables.Snapshot()), tables.Snapshot())
  {
    hide Settles, Awaits, AwaitsRating, Picks, Rating.Maths.Sound, Scoreboard.ValidContest;
    ghost var kept := AwaitingArePicked(contests, table, tables.ratedAt, now);
    settled := 0;
    assert contests[..|contests|] == contests;
    for i := 0 to |contests|
      invariant settled == Awaiting(contests[..i], table, tables.ratedAt, now)
      invariant tables.Snapshot() == old(tables.Snapshot())
    {
      assert contests[..i + 1][..i] == contests[..i];
      if Awaits(contests[i], table, tables.ratedAt, now) {
        settled := settled + 1;
      }
    }
    if settled > 0 {
      var _ := RecomputeRatings(tables, m, contests, names, table, now, stamp);
    }
  }

  lemma DueIsListed(contests: seq<Stored>, now: int, s: Stored)
    requires s in contests && Due(s, now)
    ensures s.contest in RatedContests(contests, now)
  {
    DueIsKept(contests, now, s);
    SortKeepsElements(OLDEST_FIRST, AllDue(contests, now));
    assert s.contest in multiset(AllDue(contests, now));
  }

  lemma {:induction false} DueIsKept(contests: seq<Stored>, now: int, s: Stored)
    requires s in contests && Due(s, now)
    ensures s.contest in AllDue(contests, now)
  {
    if s != contests[|contests| - 1] {
      DueIsKept(contests[..|contests| - 1], now, s);
    }
  }

  /** Polling again is harmless: after a recompute every contest that had ended is stamped, so at that time nothing
      awaits and the next poll touches nothing. */
  lemma NothingAwaitsOnceSettled(m: Rating.Maths, contests: seq<Stored>, names: map<int, string>,
                                 table: seq<Scoreboard.Submission>, now: int, stamp: int, stored: Replay.Tables,
                                 after: Replay.Tables)
    requires m.Sound() && Settles(m, contests, names, table, now, stamp, stored, after)
    requires forall s | s in contests :: s.contest.id in stored.ratedAt
    ensures Awaiting(contests, table, after.ratedAt, now) == 0
  {
    hide Settles, RatedContests, IsBusy, Rating.Maths.Sound;
    SettlingKeepsKeys(m, contests, names, table, now, stamp, stored, after);
    forall i | 0 <= i < |contests| ensures !Awaits(contests[i], table, after.ratedAt, now) {
      if Due(contests[i], now) {
        DueIsListed(contests, now, contests[i]);
      }
    }
    NobodyAwaits(contests, table, after.ratedAt, now);
  }
}
