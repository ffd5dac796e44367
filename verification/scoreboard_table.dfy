/** What a board shows, said of the rows of the submissions table themselves. */
module ScoreboardTable {
  import opened Options
  import opened Rounding
  import opened Sorting
  import opened Selection
  import opened Verdicts
  import opened Scoreboard
  import opened ScoreboardLaws

  // --------------------------------------------------------------------- Figures

  /** Whole minutes since the start, none before it. */
  predicate IsMinute(c: Contest, t: int, minute: nat) {
    if t < c.startsAt then minute == 0
    else minute * 60000 <= t - c.startsAt < (minute + 1) * 60000
  }

  lemma MinutesAreWhole(c: Contest, t: int)
    ensures IsMinute(c, t, Minutes(c, t))
  {
  }

  /** The board freezes that many minutes before the end, and only while the contest runs and nobody lifted it. */
  lemma FreezesBeforeTheEnd(c: Contest, now: int, lifted: bool, s: Submission)
    ensures Frozen(FrozenFrom(c, now, lifted), s) <==>
      && !lifted && c.startsAt <= now <= c.endsAt && c.freezeMinutes > 0
      && c.endsAt - s.createdAt <= c.freezeMinutes * 60000
  {
  }

  /** The recorded share if there is one, else the percentage of points, to the nearest, halves to the even. */
  predicate IsWorth(s: Submission, n: nat) {
    if s.earned != 0 then n == s.earned
    else if s.maxScore == 0 then n == 0
    else IsNearest(100 * s.score, s.maxScore, n)
  }

  /** There is one such figure, and it is the one the board takes. */
  lemma WorthIsEarned(s: Submission, n: nat)
    ensures IsWorth(s, n) <==> n == Earned(s)
  {
    hide IsNearest, Round;
    if s.earned == 0 && s.maxScore > 0 {
      RoundIsNearest(100 * s.score, s.maxScore, n);
    }
  }

  // -------------------------------------------------------------------- Attempts

  predicate Lettered(c: Contest, problem: int, letter: string) {
    exists i | 0 <= i < |c.problems| :: c.problems[i].id == problem && c.problems[i].letter == letter
  }

  /** A row of the table at this problem, by this contestant, while the contest ran. */
  predicate Tries(c: Contest, user: int, letter: string, s: Submission) {
    && s.contest == Some(c.id) && c.startsAt <= s.createdAt && s.createdAt <= c.endsAt
    && s.user == user && Lettered(c, s.problem, letter)
  }

  predicate Hides(from: Option<int>, s: Submission) {
    from.Some? && s.createdAt >= from.value
  }

  predicate Undecided(s: Submission) {
    s.verdict == Pending || s.verdict == Judging
  }

  function Attempts(c: Contest, from: Option<int>, user: int, letter: string): Submission -> bool {
    (s: Submission) => Tries(c, user, letter, s) && !Hides(from, s) && !Undecided(s)
  }

  function Hidden(c: Contest, from: Option<int>, user: int, letter: string): Submission -> bool {
    (s: Submission) => Tries(c, user, letter, s) && Hides(from, s)
  }

  lemma {:induction false} LetterIsOf(problems: seq<ContestProblem>, id: int, letter: string)
    requires forall i, j | 0 <= i < j < |problems| :: problems[i].id != problems[j].id
    ensures LetterOf(problems, id) == Some(letter) <==>
            exists i | 0 <= i < |problems| :: problems[i].id == id && problems[i].letter == letter
  {
    if problems != [] {
      var rest := problems[1..];
      forall i, j | 0 <= i < j < |rest| ensures rest[i].id != rest[j].id {
        assert problems[i + 1].id != problems[j + 1].id;
      }
      LetterIsOf(rest, id, letter);
      if problems[0].id == id {
        assert forall i | 0 < i < |problems| :: problems[0].id != problems[i].id;
      } else {
        assert forall i | 1 <= i < |problems| :: problems[i] == rest[i - 1];
        assert forall i | 0 <= i < |rest| :: rest[i] == problems[i + 1];
      }
    }
  }

  function Settles(c: Contest, from: Option<int>, user: int, letter: string): Submission -> bool {
    (s: Submission) => Belongs(c, s, user, letter) && !Frozen(from, s) && !Waiting(s.verdict)
  }

  function Freezes(c: Contest, from: Option<int>, user: int, letter: string): Submission -> bool {
    (s: Submission) => Belongs(c, s, user, letter) && Frozen(from, s)
  }

  lemma {:induction false} ResolvedPicks(c: Contest, from: Option<int>, subs: seq<Submission>, user: int,
                                         letter: string)
    ensures Picks(subs, Settles(c, from, user, letter), Resolved(c, from, subs, user, letter))
  {
    hide Picks, Belongs, Frozen;
    var wanted := Settles(c, from, user, letter);
    if subs == [] {
      PicksNothing(wanted);
    } else {
      var init, last := subs[..|subs| - 1], subs[|subs| - 1];
      ResolvedPicks(c, from, init, user, letter);
      var picked := Resolved(c, from, init, user, letter);
      PicksOneMore(init, last, wanted, picked);
      assert subs == init + [last];
      assert Resolved(c, from, subs, user, letter) == if wanted(last) then picked + [last] else picked;
    }
  }

  lemma {:induction false} FrozenPicks(c: Contest, from: Option<int>, subs: seq<Submission>, user: int, letter: string)
    returns (picked: seq<Submission>)
    ensures Picks(subs, Freezes(c, from, user, letter), picked)
    ensures |picked| == FrozenCount(c, from, subs, user, letter)
  {
    hide Picks, Belongs, Frozen;
    var wanted := Freezes(c, from, user, letter);
    picked := [];
    if subs == [] {
      PicksNothing(wanted);
    } else {
      var init, last := subs[..|subs| - 1], subs[|subs| - 1];
      picked := FrozenPicks(c, from, init, user, letter);
      PicksOneMore(init, last, wanted, picked);
      assert subs == init + [last];
      if wanted(last) {
        picked := picked + [last];
      }
    }
  }

  lemma BelongsTries(c: Contest, user: int, letter: string, s: Submission)
    requires ValidContest(c)
    ensures DuringContest(c)(s) && Belongs(c, s, user, letter) <==> Tries(c, user, letter, s)
  {
    LetterIsOf(c.problems, s.problem, letter);
  }

  // ----------------------------------------------------------------------- A cell

  predicate FirstAcceptedAt(attempts: seq<Submission>, k: nat) {
    && k < |attempts| && attempts[k].verdict == AC
    && forall j | 0 <= j < k :: attempts[j].verdict != AC
  }

  /** ICPC: the attempts up to the first accepted one, its minute, and that much penalty for each one before it. */
  ghost predicate IcpcCell(c: Contest, attempts: seq<Submission>, cell: Cell) {
    && cell.score == 0
    && (forall k: nat | FirstAcceptedAt(attempts, k) ::
          && cell.solved && cell.attempts == k + 1
          && cell.minutes.Some? && IsMinute(c, attempts[k].createdAt, cell.minutes.value)
          && cell.penalty == cell.minutes.value + c.penaltyMinutes * k)
    && ((forall k | 0 <= k < |attempts| :: attempts[k].verdict != AC) ==>
          !cell.solved && cell.attempts == |attempts| && cell.minutes == None && cell.penalty == 0)
  }

  /** IOI: every attempt counts and the best worth stands. */
  ghost predicate IoiCell(attempts: seq<Submission>, cell: Cell) {
    && cell.attempts == |attempts| && cell.minutes == None && cell.penalty == 0
    && (cell.solved <==> cell.score == 100)
    && (forall k, n: nat | 0 <= k < |attempts| && IsWorth(attempts[k], n) :: n <= cell.score)
    && (cell.score > 0 ==> exists k | 0 <= k < |attempts| :: IsWorth(attempts[k], cell.score))
  }

  lemma IcpcCellSays(c: Contest, attempts: seq<Submission>, frozen: nat, waiting: bool)
    requires c.scoring == ICPC
    ensures IcpcCell(c, attempts, CellFor(c, attempts, frozen, waiting))
  {
    hide IsMinute, Minutes;
    var k := FirstAccepted(attempts);
    if k < |attempts| {
      MinutesAreWhole(c, attempts[k].createdAt);
    }
  }

  lemma IoiCellSays(c: Contest, attempts: seq<Submission>, frozen: nat, waiting: bool)
    requires c.scoring == IOI
    ensures IoiCell(attempts, CellFor(c, attempts, frozen, waiting))
  {
    hide IsWorth, Earned;
    forall k, n: nat | 0 <= k < |attempts| && IsWorth(attempts[k], n) ensures n <= BestEarned(attempts) {
      WorthIsEarned(attempts[k], n);
    }
    if BestEarned(attempts) > 0 {
      var k :| 0 <= k < |attempts| && Earned(attempts[k]) == BestEarned(attempts);
      WorthIsEarned(attempts[k], Earned(attempts[k]));
    }
  }

  /** What a cell shows of the table: its attempts in table order, how many are hidden by the freeze, and whether one
      is still undecided. */
  ghost predicate CellOf(c: Contest, from: Option<int>, table: seq<Submission>, user: int, letter: string, cell: Cell) {
    && (exists attempts ::
          && Picks(table, Attempts(c, from, user, letter), attempts)
          && (if c.scoring == ICPC then IcpcCell(c, attempts, cell) else IoiCell(attempts, cell)))
    && (exists hidden :: Picks(table, Hidden(c, from, user, letter), hidden) && cell.frozen == |hidden|)
    && (cell.pending <==> exists i | 0 <= i < |table| ::
          Tries(c, user, letter, table[i]) && !Hides(from, table[i]) && Undecided(table[i]))
  }

  lemma AttemptsOfTable(c: Contest, from: Option<int>, table: seq<Submission>, user: int, letter: string)
    returns (hidden: seq<Submission>)
    requires ValidContest(c)
    ensures Picks(table, Attempts(c, from, user, letter), Resolved(c, from, Query(c, table), user, letter))
    ensures Picks(table, Hidden(c, from, user, letter), hidden)
    ensures |hidden| == FrozenCount(c, from, Query(c, table), user, letter)
  {
    hide Picks, Query, Resolved, FrozenCount, Tries, Belongs, ValidContest, DuringContest;
    var subs := Query(c, table);
    QueryPicks(c, table);
    ResolvedPicks(c, from, subs, user, letter);
    hidden := FrozenPicks(c, from, subs, user, letter);
    forall s
      ensures Attempts(c, from, user, letter)(s) <==> DuringContest(c)(s) && Settles(c, from, user, letter)(s)
      ensures Hidden(c, from, user, letter)(s) <==> DuringContest(c)(s) && Freezes(c, from, user, letter)(s)
    {
      BelongsTries(c, user, letter, s);
    }
    PicksTwice(table, DuringContest(c), subs, Settles(c, from, user, letter), Resolved(c, from, subs, user, letter),
               Attempts(c, from, user, letter));
    PicksTwice(table, DuringContest(c), subs, Freezes(c, from, user, letter), hidden, Hidden(c, from, user, letter));
  }

  lemma WaitingOfTable(c: Contest, from: Option<int>, table: seq<Submission>, user: int, letter: string)
    requires ValidContest(c)
    ensures AnyWaiting(c, from, Query(c, table), user, letter) <==>
      exists i | 0 <= i < |table| ::
        Tries(c, user, letter, table[i]) && !Hides(from, table[i]) && Undecided(table[i])
  {
    hide Picks, Query, Tries, Belongs, ValidContest, DuringContest;
    var subs := Query(c, table);
    QueryPicks(c, table);
    PickedAreWanted(table, DuringContest(c), subs);
    if AnyWaiting(c, from, subs, user, letter) {
      var k :| 0 <= k < |subs|
        && Belongs(c, subs[k], user, letter) && !Frozen(from, subs[k]) && Waiting(subs[k].verdict);
      BelongsTries(c, user, letter, subs[k]);
      assert subs[k] in table;
      var i :| 0 <= i < |table| && table[i] == subs[k];
      assert Tries(c, user, letter, table[i]) && !Hides(from, table[i]) && Undecided(table[i]);
    }
    if i :| 0 <= i < |table| && Tries(c, user, letter, table[i]) && !Hides(from, table[i]) && Undecided(table[i]) {
      BelongsTries(c, user, letter, table[i]);
      assert table[i] in subs;
      var k :| 0 <= k < |subs| && subs[k] == table[i];
      assert Belongs(c, subs[k], user, letter) && !Frozen(from, subs[k]) && Waiting(subs[k].verdict);
    }
  }

  /** Over the table itself, every cell is what the attempts it stands for say. */
  lemma CellsSayTheTable(c: Contest, from: Option<int>, table: seq<Submission>, user: int, letter: string)
    requires ValidContest(c)
    ensures CellOf(c, from, table, user, letter, CellAt(c, from, Query(c, table), user, letter))
  {
    hide Picks, Query, Resolved, FrozenCount, Tries, CellAt, AnyWaiting, IcpcCell, IoiCell, Attempts, Hidden,
         ValidContest;
    var subs := Query(c, table);
    var hidden := AttemptsOfTable(c, from, table, user, letter);
    WaitingOfTable(c, from, table, user, letter);
    OnePassIsDeclarative(c, from, subs, user, letter);
    var attempts := Resolved(c, from, subs, user, letter);
    var frozen, waiting := FrozenCount(c, from, subs, user, letter), AnyWaiting(c, from, subs, user, letter);
    if c.scoring == ICPC {
      IcpcCellSays(c, attempts, frozen, waiting);
    } else {
      IoiCellSays(c, attempts, frozen, waiting);
    }
    CellForMarks(c, attempts, frozen, waiting);
    PendingIs(c, attempts, frozen, waiting);
  }

  lemma PendingIs(c: Contest, attempts: seq<Submission>, frozen: nat, waiting: bool)
    ensures CellFor(c, attempts, frozen, waiting).pending == waiting
  {
  }

  // ---------------------------------------------------------------------- The board

  /** Ahead on the fields themselves. */
  predicate Beats(scoring: Scoring, a: Row, b: Row) {
    match scoring
    case ICPC => a.solved > b.solved || (a.solved == b.solved && a.penalty < b.penalty)
    case IOI => a.totalScore > b.totalScore || (a.totalScore == b.totalScore && a.lastImprovement < b.lastImprovement)
  }

  ghost predicate HasRow(board: seq<Ranked>, user: int) {
    exists i | 0 <= i < |board| :: board[i].row.user == user
  }

  ghost predicate HasTried(c: Contest, table: seq<Submission>, user: int) {
    exists p, letter | 0 <= p < |table| :: Tries(c, user, letter, table[p])
  }

  /** A row over the table: its name, the cells it has and what they say, and its place among all rows. */
  ghost predicate RowSays(c: Contest, from: Option<int>, names: map<int, string>, table: seq<Submission>,
                          board: seq<Ranked>, i: nat)
    requires i < |board|
  {
    var row := board[i].row;
    && row.user in names && row.username == names[row.user]
    && (forall letter ::
          letter in row.cells <==> exists p | 0 <= p < |table| :: Tries(c, row.user, letter, table[p]))
    && (forall letter | letter in row.cells :: CellOf(c, from, table, row.user, letter, row.cells[letter]))
    && AddsUp(c.scoring, row) && IsLatest(c, from, Query(c, table), row.user, row.lastImprovement)
    && board[i].rank == 1 + |Beating(c.scoring, board, row)|
  }

  predicate InOrder(scoring: Scoring, a: Row, b: Row) {
    Beats(scoring, a, b) || (!Beats(scoring, b, a) && StringLe(a.username, b.username))
  }

  /** A board over the table: who has a row, what each row says, and the order they stand in. */
  ghost predicate Shows(c: Contest, from: Option<int>, names: map<int, string>, table: seq<Submission>,
                        board: seq<Ranked>)
  {
    && (forall user: int :: HasRow(board, user) <==> HasTried(c, table, user))
    && (forall i | 0 <= i < |board| :: RowSays(c, from, names, table, board, i))
    && (forall i, j | 0 <= i < j < |board| :: InOrder(c.scoring, board[i].row, board[j].row))
  }

  /** The contestants whose rows are ahead of a row. */
  function Beating(scoring: Scoring, board: seq<Ranked>, row: Row): set<int> {
    set j | 0 <= j < |board| && Beats(scoring, board[j].row, row) :: board[j].row.user
  }

  lemma BeatingIsBetter(c: Contest, from: Option<int>, names: map<int, string>, subs: seq<Submission>,
                        board: seq<Ranked>, row: Row)
    requires Entrants(c, subs) <= names.Keys && Correct(c, from, names, subs, board)
    ensures Beating(c.scoring, board, row) ==
            set u | u in Entrants(c, subs) && Better(c.scoring, RowOf(c, from, names, subs, u), row)
  {
    hide RowOf, Entrants, Place, AddsUp, ListedBefore;
    var users := set i | 0 <= i < |board| :: board[i].row.user;
    forall u | u in Entrants(c, subs) && Better(c.scoring, RowOf(c, from, names, subs, u), row)
      ensures u in Beating(c.scoring, board, row)
    {
      assert u in users;
      var j :| 0 <= j < |board| && board[j].row.user == u;
      assert Beats(c.scoring, board[j].row, row);
    }
    forall u | u in Beating(c.scoring, board, row)
      ensures u in Entrants(c, subs) && Better(c.scoring, RowOf(c, from, names, subs, u), row)
    {
      var j :| 0 <= j < |board| && Beats(c.scoring, board[j].row, row) && board[j].row.user == u;
      assert board[j].row.user in users;
    }
  }

  lemma HasTriedIsEntrant(c: Contest, table: seq<Submission>, user: int)
    requires ValidContest(c)
    ensures user in Entrants(c, Query(c, table)) <==> HasTried(c, table, user)
  {
    hide Picks, Query, ValidContest, DuringContest, Tries;
    var subs := Query(c, table);
    QueryPicks(c, table);
    PickedAreWanted(table, DuringContest(c), subs);
    if user in Entrants(c, subs) {
      var i :| 0 <= i < |subs| && Counted(c, subs[i]) && subs[i].user == user;
      var letter := LetterOf(c.problems, subs[i].problem).value;
      BelongsTries(c, user, letter, subs[i]);
      assert subs[i] in table;
      var p :| 0 <= p < |table| && table[p] == subs[i];
      assert Tries(c, user, letter, table[p]);
    }
    if HasTried(c, table, user) {
      var p, letter :| 0 <= p < |table| && Tries(c, user, letter, table[p]);
      BelongsTries(c, user, letter, table[p]);
      assert table[p] in subs;
      var i :| 0 <= i < |subs| && subs[i] == table[p];
      assert Counted(c, subs[i]);
    }
  }

  lemma HasTriedIsTouched(c: Contest, table: seq<Submission>, user: int, letter: string)
    requires ValidContest(c)
    ensures letter in Touched(c, Query(c, table), user) <==>
            exists p | 0 <= p < |table| :: Tries(c, user, letter, table[p])
  {
    hide Picks, Query, ValidContest, DuringContest, Tries;
    var subs := Query(c, table);
    QueryPicks(c, table);
    PickedAreWanted(table, DuringContest(c), subs);
    if letter in Touched(c, subs, user) {
      var i :| 0 <= i < |subs| && subs[i].user == user && Counted(c, subs[i])
        && LetterOf(c.problems, subs[i].problem).value == letter;
      BelongsTries(c, user, letter, subs[i]);
      assert subs[i] in table;
      var p :| 0 <= p < |table| && table[p] == subs[i];
      assert Tries(c, user, letter, table[p]);
    }
    if p :| 0 <= p < |table| && Tries(c, user, letter, table[p]) {
      BelongsTries(c, user, letter, table[p]);
      assert table[p] in subs;
      var i :| 0 <= i < |subs| && subs[i] == table[p];
      assert Counted(c, subs[i]);
    }
  }

  lemma RowParts(c: Contest, from: Option<int>, names: map<int, string>, subs: seq<Submission>, user: int)
    requires user in names
    ensures
      var row := RowOf(c, from, names, subs, user);
      && row.user == user && row.username == names[user] && row.cells.Keys == Touched(c, subs, user)
      && row.lastImprovement == LastImprovement(c, from, subs, user)
      && forall letter | letter in row.cells :: row.cells[letter] == CellAt(c, from, subs, user, letter)
  {
    hide CellAt, LastImprovement, SolvedSum, PenaltySum, ScoreSum;
  }

  lemma OneRowSays(c: Contest, from: Option<int>, names: map<int, string>, table: seq<Submission>, user: int, row: Row)
    requires ValidContest(c) && user in names && row == RowOf(c, from, names, Query(c, table), user)
    ensures row.user == user && row.username == names[user]
    ensures forall letter :: letter in row.cells <==> exists p | 0 <= p < |table| :: Tries(c, user, letter, table[p])
    ensures forall letter | letter in row.cells :: CellOf(c, from, table, user, letter, row.cells[letter])
    ensures IsLatest(c, from, Query(c, table), user, row.lastImprovement)
  {
    hide Query, RowOf, CellOf, Touched, Tries, CellAt, ValidContest, IsLatest;
    RowParts(c, from, names, Query(c, table), user);
    LastImprovementIsLatest(c, from, Query(c, table), user);
    forall letter
      ensures letter in row.cells <==> exists p | 0 <= p < |table| :: Tries(c, user, letter, table[p])
    {
      HasTriedIsTouched(c, table, user, letter);
    }
    forall letter | letter in row.cells ensures CellOf(c, from, table, user, letter, row.cells[letter]) {
      CellsSayTheTable(c, from, table, user, letter);
    }
  }

  lemma RowSaysTheTable(c: Contest, from: Option<int>, names: map<int, string>, table: seq<Submission>,
                        board: seq<Ranked>, i: nat)
    requires ValidContest(c) && Entrants(c, Query(c, table)) <= names.Keys && i < |board|
    requires Correct(c, from, names, Query(c, table), board)
    ensures RowSays(c, from, names, table, board, i)
  {
    hide Query, RowOf, CellOf, Entrants, Tries, AddsUp, ValidContest, Beating, Better, IsLatest;
    OneRowSays(c, from, names, table, board[i].row.user, board[i].row);
    BeatingIsBetter(c, from, names, Query(c, table), board, board[i].row);
  }

  lemma RowsAreForEntrants(c: Contest, from: Option<int>, names: map<int, string>, subs: seq<Submission>,
                           board: seq<Ranked>, user: int)
    requires Entrants(c, subs) <= names.Keys && Correct(c, from, names, subs, board)
    ensures HasRow(board, user) <==> user in Entrants(c, subs)
  {
    hide RowOf, Entrants, AddsUp, Place, ListedBefore;
    var users := set i | 0 <= i < |board| :: board[i].row.user;
    assert HasRow(board, user) <==> user in users;
  }

  lemma StandsInOrder(c: Contest, from: Option<int>, names: map<int, string>, subs: seq<Submission>,
                      board: seq<Ranked>, i: nat, j: nat)
    requires Entrants(c, subs) <= names.Keys && Correct(c, from, names, subs, board) && i < j < |board|
    ensures InOrder(c.scoring, board[i].row, board[j].row)
  {
    hide RowOf, Entrants, AddsUp, Place;
    assert ListedBefore(c.scoring, board[i].row, board[j].row);
  }

  /** A correct board is what the table says, row by row, cell by cell and place by place. */
  lemma BoardSaysTheTable(c: Contest, from: Option<int>, names: map<int, string>, table: seq<Submission>,
                          board: seq<Ranked>)
    requires ValidContest(c) && Entrants(c, Query(c, table)) <= names.Keys
    requires Correct(c, from, names, Query(c, table), board)
    ensures Shows(c, from, names, table, board)
  {
    hide Query, Entrants, ValidContest, HasTried, HasRow, Correct, RowSays, InOrder;
    forall i | 0 <= i < |board| ensures RowSays(c, from, names, table, board, i) {
      RowSaysTheTable(c, from, names, table, board, i);
    }
    forall i, j | 0 <= i < j < |board| ensures InOrder(c.scoring, board[i].row, board[j].row) {
      StandsInOrder(c, from, names, Query(c, table), board, i, j);
    }
    forall user: int ensures HasRow(board, user) <==> HasTried(c, table, user) {
      HasTriedIsEntrant(c, table, user);
      RowsAreForEntrants(c, from, names, Query(c, table), board, user);
    }
  }
}
