/** What the scoreboard shows, said without the pass that computes it, and that there is only one such board. */
module ScoreboardLaws {
  import opened Options
  import opened Sorting
  import opened Verdicts
  import opened Scoreboard

  // -------------------------------------------------- Cells, declaratively

  /** The attempts at one problem the board has resolved, in order. */
  function Resolved(c: Contest, from: Option<int>, subs: seq<Submission>, user: int, letter: string): seq<Submission> {
    if subs == [] then []
    else
      var s := subs[|subs| - 1];
      Resolved(c, from, subs[..|subs| - 1], user, letter)
      + if Belongs(c, s, user, letter) && !Frozen(from, s) && !Waiting(s.verdict) then [s] else []
  }

  /** The position of the first accepted attempt, or the number of attempts when there is none. */
  function FirstAccepted(attempts: seq<Submission>): (k: nat)
    ensures k <= |attempts|
    ensures k < |attempts| ==> attempts[k].verdict == AC
    ensures forall i | 0 <= i < k :: attempts[i].verdict != AC
  {
    if attempts == [] || attempts[0].verdict == AC then 0 else 1 + FirstAccepted(attempts[1..])
  }

  function BestEarned(attempts: seq<Submission>): (best: nat)
    ensures forall i | 0 <= i < |attempts| :: Earned(attempts[i]) <= best
    ensures best == 0 || exists i | 0 <= i < |attempts| :: Earned(attempts[i]) == best
  {
    if attempts == [] then 0
    else
      var rest, last := BestEarned(attempts[..|attempts| - 1]), Earned(attempts[|attempts| - 1]);
      assert attempts[|attempts| - 1] == attempts[..][|attempts| - 1];
      assert forall i | 0 <= i < |attempts| - 1 :: attempts[i] == attempts[..|attempts| - 1][i];
      Max(rest, last)
  }

  function FrozenCount(c: Contest, from: Option<int>, subs: seq<Submission>, user: int, letter: string): nat {
    if subs == [] then 0
    else
      var s := subs[|subs| - 1];
      FrozenCount(c, from, subs[..|subs| - 1], user, letter)
      + if Belongs(c, s, user, letter) && Frozen(from, s) then 1 else 0
  }

  predicate AnyWaiting(c: Contest, from: Option<int>, subs: seq<Submission>, user: int, letter: string) {
    exists i | 0 <= i < |subs| ::
      Belongs(c, subs[i], user, letter) && !Frozen(from, subs[i]) && Waiting(subs[i].verdict)
  }

  /** What a cell must show for the attempts it has resolved. ICPC counts up to the first accepted attempt and charges
      its minute plus a penalty for each rejected attempt before it; IOI keeps the best. */
  function CellFor(c: Contest, attempts: seq<Submission>, frozen: nat, waiting: bool): Cell {
    if c.scoring == IOI then
      Cell(|attempts|, BestEarned(attempts) == 100, None, 0, BestEarned(attempts), waiting, frozen)
    else
      var k := FirstAccepted(attempts);
      if k < |attempts| then
        var minutes := Minutes(c, attempts[k].createdAt);
        Cell(k + 1, true, Some(minutes), minutes + c.penaltyMinutes * k, 0, waiting, frozen)
      else Cell(|attempts|, false, None, 0, 0, waiting, frozen)
  }

  lemma {:induction false} FirstAcceptedOfMore(attempts: seq<Submission>, s: Submission)
    ensures FirstAccepted(attempts + [s]) ==
      if FirstAccepted(attempts) < |attempts| || s.verdict == AC then FirstAccepted(attempts) else |attempts| + 1
  {
    if attempts == [] {
      assert (attempts + [s])[1..] == [];
    } else if attempts[0].verdict != AC {
      assert (attempts + [s])[1..] == attempts[1..] + [s];
      FirstAcceptedOfMore(attempts[1..], s);
    }
  }

  lemma CellForOneMore(c: Contest, from: Option<int>, attempts: seq<Submission>, s: Submission, frozen: nat,
                       waiting: bool)
    requires !Frozen(from, s) && !Waiting(s.verdict)
    ensures CellFor(c, attempts + [s], frozen, waiting) == Step(c, from, CellFor(c, attempts, frozen, waiting), s)
  {
    hide Minutes, Earned;
    FirstAcceptedOfMore(attempts, s);
    assert (attempts + [s])[..|attempts|] == attempts;
    var k := FirstAccepted(attempts);
    if k < |attempts| {
      assert (attempts + [s])[k] == attempts[k];
    }
  }

  lemma AnyWaitingOneMore(c: Contest, from: Option<int>, subs: seq<Submission>, s: Submission, user: int,
                          letter: string)
    ensures AnyWaiting(c, from, subs + [s], user, letter) <==>
      AnyWaiting(c, from, subs, user, letter) || (Belongs(c, s, user, letter) && !Frozen(from, s) && Waiting(s.verdict))
  {
    var all := subs + [s];
    assert all[|subs|] == s;
    forall i | 0 <= i < |subs| ensures all[i] == subs[i] {
    }
    if AnyWaiting(c, from, subs, user, letter) {
      var i :| 0 <= i < |subs|
        && Belongs(c, subs[i], user, letter) && !Frozen(from, subs[i]) && Waiting(subs[i].verdict);
      assert all[i] == subs[i];
    }
  }

  /** The one pass leaves in every cell exactly what its declarative reading says, for every sequence of submissions. */
  lemma {:induction false} OnePassIsDeclarative(c: Contest, from: Option<int>, subs: seq<Submission>, user: int,
                                                letter: string)
    ensures CellAt(c, from, subs, user, letter) ==
      CellFor(c, Resolved(c, from, subs, user, letter), FrozenCount(c, from, subs, user, letter),
              AnyWaiting(c, from, subs, user, letter))
  {
    hide CellFor, AnyWaiting;
    if subs == [] {
      NothingYet(c, from, user, letter);
    } else {
      var init, s := subs[..|subs| - 1], subs[|subs| - 1];
      assert subs == init + [s];
      OnePassIsDeclarative(c, from, init, user, letter);
      AnyWaitingOneMore(c, from, init, s, user, letter);
      var attempts, frozen := Resolved(c, from, init, user, letter), FrozenCount(c, from, init, user, letter);
      var waiting := AnyWaiting(c, from, init, user, letter);
      CellForMarks(c, attempts, frozen, waiting);
      if Belongs(c, s, user, letter) && !Frozen(from, s) && !Waiting(s.verdict) {
        CellForOneMore(c, from, attempts, s, frozen, waiting);
      } else {
        assert Resolved(c, from, subs, user, letter) == attempts;
      }
    }
  }

  lemma NothingYet(c: Contest, from: Option<int>, user: int, letter: string)
    ensures CellFor(c, [], 0, AnyWaiting(c, from, [], user, letter)) == EMPTY_CELL
  {
  }

  lemma CellForMarks(c: Contest, attempts: seq<Submission>, frozen: nat, waiting: bool)
    ensures CellFor(c, attempts, frozen + 1, waiting) == CellFor(c, attempts, frozen, waiting).(frozen := frozen + 1)
    ensures CellFor(c, attempts, frozen, true) == CellFor(c, attempts, frozen, waiting).(pending := true)
    ensures CellFor(c, attempts, frozen, waiting).frozen == frozen
  {
  }

  /** The row's last improvement is the latest minute at which some problem's best result was strictly beaten. */
  predicate ImprovedAt(c: Contest, from: Option<int>, subs: seq<Submission>, user: int, i: nat)
    requires i < |subs|
  {
    var s := subs[i];
    && c.scoring == IOI && s.user == user && Counted(c, s) && !Frozen(from, s) && !Waiting(s.verdict)
    && Earned(s) > BestEarned(Resolved(c, from, subs[..i], user, LetterOf(c.problems, s.problem).value))
  }

  ghost predicate IsLatest(c: Contest, from: Option<int>, subs: seq<Submission>, user: int, latest: nat) {
    && (forall i | 0 <= i < |subs| && ImprovedAt(c, from, subs, user, i) :: Minutes(c, subs[i].createdAt) <= latest)
    && (latest == 0 || exists i | 0 <= i < |subs| ::
      ImprovedAt(c, from, subs, user, i) && Minutes(c, subs[i].createdAt) == latest)
  }

  lemma LatestOneMore(c: Contest, from: Option<int>, subs: seq<Submission>, s: Submission, user: int, latest: nat)
    requires IsLatest(c, from, subs, user, latest)
    ensures
      var all := subs + [s];
      IsLatest(c, from, all, user,
        if ImprovedAt(c, from, all, user, |subs|) then Max(latest, Minutes(c, s.createdAt)) else latest)
  {
    hide ImprovedAt, Minutes;
    var all := subs + [s];
    assert all[|subs|] == s;
    forall i | 0 <= i < |subs|
      ensures all[i] == subs[i]
      ensures ImprovedAt(c, from, all, user, i) <==> ImprovedAt(c, from, subs, user, i)
    {
      SameImprovement(c, from, subs, s, user, i);
    }
    if latest != 0 {
      var i :| 0 <= i < |subs| && ImprovedAt(c, from, subs, user, i) && Minutes(c, subs[i].createdAt) == latest;
      assert ImprovedAt(c, from, all, user, i);
    }
  }

  lemma SameImprovement(c: Contest, from: Option<int>, subs: seq<Submission>, s: Submission, user: int, i: nat)
    requires i < |subs|
    ensures ImprovedAt(c, from, subs + [s], user, i) <==> ImprovedAt(c, from, subs, user, i)
  {
    assert (subs + [s])[..i] == subs[..i];
  }

  lemma {:induction false} LastImprovementIsLatest(c: Contest, from: Option<int>, subs: seq<Submission>, user: int)
    ensures IsLatest(c, from, subs, user, LastImprovement(c, from, subs, user))
  {
    hide IsLatest, ImprovedAt, Improves, Minutes;
    if subs == [] {
      NeverImproved(c, from, user);
    } else {
      var init, s := subs[..|subs| - 1], subs[|subs| - 1];
      assert subs == init + [s];
      LastImprovementIsLatest(c, from, init, user);
      LatestOneMore(c, from, init, s, user, LastImprovement(c, from, init, user));
      ImprovesIsImprovedAt(c, from, init, s, user);
    }
  }

  lemma NeverImproved(c: Contest, from: Option<int>, user: int)
    ensures IsLatest(c, from, [], user, 0)
  {
  }

  lemma ImprovesIsImprovedAt(c: Contest, from: Option<int>, subs: seq<Submission>, s: Submission, user: int)
    ensures ImprovedAt(c, from, subs + [s], user, |subs|) <==> s.user == user && Improves(c, from, subs, s)
  {
    assert (subs + [s])[..|subs|] == subs && (subs + [s])[|subs|] == s;
    if c.scoring == IOI && Counted(c, s) {
      OnePassScore(c, from, subs, user, LetterOf(c.problems, s.problem).value);
    }
  }

  lemma OnePassScore(c: Contest, from: Option<int>, subs: seq<Submission>, user: int, letter: string)
    requires c.scoring == IOI
    ensures CellAt(c, from, subs, user, letter).score == BestEarned(Resolved(c, from, subs, user, letter))
  {
    OnePassIsDeclarative(c, from, subs, user, letter);
  }

  // ------------------------------------------------------------------- Only one board

  /** What the schema promises of the users: no two share a name. */
  predicate OneUserEach(names: map<int, string>) {
    forall u, v | u in names && v in names :: names[u] == names[v] ==> u == v
  }

  function RowsIn(board: seq<Ranked>): (rows: seq<Row>)
    ensures |rows| == |board| && forall i | 0 <= i < |board| :: rows[i] == board[i].row
  {
    seq(|board|, i requires 0 <= i < |board| => board[i].row)
  }

  lemma RowsOfBoard(c: Contest, from: Option<int>, names: map<int, string>, subs: seq<Submission>, board: seq<Ranked>)
    requires Entrants(c, subs) <= names.Keys && Correct(c, from, names, subs, board)
    ensures NoRepeats(RowsIn(board)) && Sorted(Lister(c.scoring), RowsIn(board))
    ensures forall row: Row ::
      row in RowsIn(board) <==>
      row.user in Entrants(c, subs) && row.user in names && row == RowOf(c, from, names, subs, row.user)
  {
    hide RowOf, Place, Entrants, AddsUp, ListedBefore;
    var rows := RowsIn(board);
    forall i, j | 0 <= i < j < |rows| ensures Lister(c.scoring)(rows[i], rows[j]) {
      ListerLists(c.scoring, rows[i], rows[j]);
    }
    forall row: Row | row.user in Entrants(c, subs) && row.user in names && row == RowOf(c, from, names, subs, row.user)
      ensures row in rows
    {
      var i :| 0 <= i < |board| && board[i].row.user == row.user;
      assert rows[i] == row;
    }
  }

  lemma NamesTellRowsApart(c: Contest, from: Option<int>, names: map<int, string>, subs: seq<Submission>, a: Row,
                           b: Row)
    requires OneUserEach(names)
    requires a.user in names && a == RowOf(c, from, names, subs, a.user)
    requires b.user in names && b == RowOf(c, from, names, subs, b.user)
    requires ListedBefore(c.scoring, a, b) && ListedBefore(c.scoring, b, a)
    ensures a == b
  {
    hide Cells, LastImprovement, SolvedSum, PenaltySum, ScoreSum;
    StringLeTotal(a.username, b.username);
  }

  /** Two boards that are both correct are the same board. */
  lemma BoardIsUnique(c: Contest, from: Option<int>, names: map<int, string>, subs: seq<Submission>, a: seq<Ranked>,
                      b: seq<Ranked>)
    requires OneUserEach(names) && Entrants(c, subs) <= names.Keys
    requires Correct(c, from, names, subs, a) && Correct(c, from, names, subs, b)
    ensures a == b
  {
    hide RowOf, Place, Entrants, AddsUp, ListedBefore, Lister, Sorted, NoRepeats;
    RowsOfBoard(c, from, names, subs, a);
    RowsOfBoard(c, from, names, subs, b);
    SameElements(RowsIn(a), RowsIn(b));
    forall x, y | x in RowsIn(a) && y in RowsIn(a) && Lister(c.scoring)(x, y) && Lister(c.scoring)(y, x)
      ensures x == y
    {
      ListerLists(c.scoring, x, y);
      ListerLists(c.scoring, y, x);
      NamesTellRowsApart(c, from, names, subs, x, y);
    }
    BoardOrders(c.scoring);
    SortedIsUnique(Lister(c.scoring), RowsIn(a), RowsIn(b));
    assert forall i | 0 <= i < |a| :: a[i].row == RowsIn(a)[i] && b[i].row == RowsIn(b)[i];
  }
}
