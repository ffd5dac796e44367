/** The freeze as non-interference, and what one more judged submission can do to the board. */
module ScoreboardFreeze {
  import opened Options
  import opened Sorting
  import opened Verdicts
  import opened Scoreboard

  // ------------------------------------------------ The board before the freeze

  function BeforeFreeze(from: Option<int>, subs: seq<Submission>): seq<Submission> {
    if subs == [] then []
    else
      BeforeFreeze(from, subs[..|subs| - 1]) + if Frozen(from, subs[|subs| - 1]) then [] else [subs[|subs| - 1]]
  }

  lemma BeforeFreezeStep(from: Option<int>, subs: seq<Submission>, s: Submission)
    ensures BeforeFreeze(from, subs + [s]) ==
      if Frozen(from, s) then BeforeFreeze(from, subs) else BeforeFreeze(from, subs) + [s]
  {
    assert (subs + [s])[..|subs|] == subs && (subs + [s])[|subs|] == s;
    assert BeforeFreeze(from, subs) + [] == BeforeFreeze(from, subs);
  }

  lemma StepIgnoresFreeze(c: Contest, from: Option<int>, cell: Cell, s: Submission)
    ensures Frozen(from, s) ==> Step(c, from, cell, s).(frozen := 0) == cell.(frozen := 0)
    ensures !Frozen(from, s) ==> Step(c, from, cell, s).(frozen := 0) == Step(c, None, cell.(frozen := 0), s)
  {
    hide Minutes, Earned;
  }

  /** Past the freeze a cell gains a count and nothing else. */
  lemma {:induction false} FrozenCellIsTheOldCell(c: Contest, from: Option<int>, subs: seq<Submission>, user: int,
                                                  letter: string)
    ensures CellAt(c, None, BeforeFreeze(from, subs), user, letter) ==
      CellAt(c, from, subs, user, letter).(frozen := 0)
  {
    if subs != [] {
      hide Step, CellAt, BeforeFreeze, Frozen;
      var init, s := subs[..|subs| - 1], subs[|subs| - 1];
      assert subs == init + [s];
      FrozenCellIsTheOldCell(c, from, init, user, letter);
      StepIgnoresFreeze(c, from, CellAt(c, from, init, user, letter), s);
      BeforeFreezeStep(from, init, s);
      CellOneMore(c, from, init, s, user, letter);
      CellOneMore(c, None, BeforeFreeze(from, init), s, user, letter);
    }
  }

  lemma LastImprovementStep(c: Contest, from: Option<int>, subs: seq<Submission>, s: Submission, user: int)
    ensures LastImprovement(c, from, subs + [s], user) ==
      if s.user == user && Improves(c, from, subs, s)
      then Max(LastImprovement(c, from, subs, user), Minutes(c, s.createdAt))
      else LastImprovement(c, from, subs, user)
  {
    hide Improves, Minutes;
    assert (subs + [s])[..|subs|] == subs && (subs + [s])[|subs|] == s;
  }

  lemma ImprovesBeforeFreeze(c: Contest, from: Option<int>, subs: seq<Submission>, s: Submission)
    ensures Improves(c, from, subs, s) <==> !Frozen(from, s) && Improves(c, None, BeforeFreeze(from, subs), s)
  {
    hide CellAt, BeforeFreeze, Earned;
    if Counted(c, s) {
      FrozenCellIsTheOldCell(c, from, subs, s.user, LetterOf(c.problems, s.problem).value);
    }
  }

  lemma {:induction false} FreezeKeepsLastImprovement(c: Contest, from: Option<int>, subs: seq<Submission>, user: int)
    ensures LastImprovement(c, None, BeforeFreeze(from, subs), user) == LastImprovement(c, from, subs, user)
  {
    if subs != [] {
      hide Minutes, Improves, BeforeFreeze, LastImprovement;
      var init, s := subs[..|subs| - 1], subs[|subs| - 1];
      assert subs == init + [s];
      FreezeKeepsLastImprovement(c, from, init, user);
      BeforeFreezeStep(from, init, s);
      LastImprovementStep(c, from, init, s, user);
      LastImprovementStep(c, None, BeforeFreeze(from, init), s, user);
      ImprovesBeforeFreeze(c, from, init, s);
    }
  }

  // ---------------------------------------------------------- Comparing totals

  function CellIn(cells: map<string, Cell>, letter: string): Cell {
    if letter in cells then cells[letter] else EMPTY_CELL
  }

  /** Every cell of a row, letters without one included. */
  lemma CellInRow(c: Contest, from: Option<int>, subs: seq<Submission>, user: int, letter: string)
    ensures CellIn(Cells(c, from, subs, user), letter) == CellAt(c, from, subs, user, letter)
  {
    if letter !in Touched(c, subs, user) {
      UntouchedIsEmpty(c, from, subs, user, letter);
    }
  }

  ghost predicate SameResults(a: map<string, Cell>, b: map<string, Cell>) {
    forall letter :: CellIn(a, letter).(frozen := 0) == CellIn(b, letter).(frozen := 0)
  }

  lemma {:induction false} SameTotals(problems: seq<ContestProblem>, a: map<string, Cell>, b: map<string, Cell>)
    requires SameResults(a, b)
    ensures SolvedSum(problems, a) == SolvedSum(problems, b)
    ensures PenaltySum(problems, a) == PenaltySum(problems, b)
    ensures ScoreSum(problems, a) == ScoreSum(problems, b)
  {
    if problems != [] {
      SameTotals(problems[1..], a, b);
      assert CellIn(a, problems[0].letter).(frozen := 0) == CellIn(b, problems[0].letter).(frozen := 0);
    }
  }

  /** Each row of the frozen board resolves exactly what the board built before the freeze resolved. */
  lemma FrozenRowIsTheOldRow(c: Contest, from: Option<int>, names: map<int, string>, subs: seq<Submission>, user: int)
    requires user in names
    ensures
      var now, before := RowOf(c, from, names, subs, user), RowOf(c, None, names, BeforeFreeze(from, subs), user);
      && now.solved == before.solved && now.penalty == before.penalty && now.totalScore == before.totalScore
      && now.lastImprovement == before.lastImprovement
      && SameResults(now.cells, before.cells)
  {
    hide CellAt, Cells, LastImprovement, SolvedSum, PenaltySum, ScoreSum;
    var prior := BeforeFreeze(from, subs);
    FreezeKeepsLastImprovement(c, from, subs, user);
    forall letter
      ensures CellIn(Cells(c, from, subs, user), letter).(frozen := 0) ==
        CellIn(Cells(c, None, prior, user), letter).(frozen := 0)
    {
      CellInRow(c, from, subs, user, letter);
      CellInRow(c, None, prior, user, letter);
      FrozenCellIsTheOldCell(c, from, subs, user, letter);
    }
    SameTotals(c.problems, Cells(c, from, subs, user), Cells(c, None, prior, user));
  }

  // ------------------------------------------------- Nobody is behind an empty row

  lemma {:induction false} UnsolvedCostsNothing(c: Contest, from: Option<int>, subs: seq<Submission>, user: int,
                                                letter: string)
    ensures !CellAt(c, from, subs, user, letter).solved ==> CellAt(c, from, subs, user, letter).penalty == 0
  {
    if subs != [] {
      hide Minutes, Earned;
      UnsolvedCostsNothing(c, from, subs[..|subs| - 1], user, letter);
      if c.scoring == IOI {
        NoPenaltyInIoi(c, from, subs, user, letter);
      }
    }
  }

  lemma {:induction false} NoPenaltyInIoi(c: Contest, from: Option<int>, subs: seq<Submission>, user: int,
                                          letter: string)
    requires c.scoring == IOI
    ensures CellAt(c, from, subs, user, letter).penalty == 0
  {
    if subs != [] {
      hide Minutes, Earned;
      NoPenaltyInIoi(c, from, subs[..|subs| - 1], user, letter);
    }
  }

  lemma {:induction false} NothingSolvedNoPenalty(c: Contest, from: Option<int>, subs: seq<Submission>, user: int,
                                                  problems: seq<ContestProblem>)
    ensures SolvedSum(problems, Cells(c, from, subs, user)) == 0 ==>
            PenaltySum(problems, Cells(c, from, subs, user)) == 0
  {
    hide Cells, CellAt;
    if problems != [] {
      NothingSolvedNoPenalty(c, from, subs, user, problems[1..]);
      CellInRow(c, from, subs, user, problems[0].letter);
      UnsolvedCostsNothing(c, from, subs, user, problems[0].letter);
    }
  }

  lemma {:induction false} ImprovementMeansScore(c: Contest, from: Option<int>, subs: seq<Submission>, user: int)
    returns (letter: string)
    requires LastImprovement(c, from, subs, user) > 0
    ensures CellAt(c, from, subs, user, letter).score > 0
    ensures exists i | 0 <= i < |c.problems| :: c.problems[i].letter == letter
  {
    hide Minutes, Earned;
    var init, s := subs[..|subs| - 1], subs[|subs| - 1];
    if s.user == user && Improves(c, from, init, s) {
      letter := LetterOf(c.problems, s.problem).value;
      LetterIsListed(c.problems, s.problem);
    } else {
      letter := ImprovementMeansScore(c, from, init, user);
    }
  }

  lemma {:induction false} ScoreSumCovers(problems: seq<ContestProblem>, cells: map<string, Cell>, i: nat)
    requires i < |problems|
    ensures ScoreSum(problems, cells) >= CellIn(cells, problems[i].letter).score
  {
    if i > 0 {
      ScoreSumCovers(problems[1..], cells, i - 1);
    }
  }

  lemma NoScoreNoImprovement(c: Contest, from: Option<int>, subs: seq<Submission>, user: int)
    ensures ScoreSum(c.problems, Cells(c, from, subs, user)) == 0 ==> LastImprovement(c, from, subs, user) == 0
  {
    hide Cells, CellAt, LastImprovement, ScoreSum;
    if LastImprovement(c, from, subs, user) > 0 {
      var letter := ImprovementMeansScore(c, from, subs, user);
      var i :| 0 <= i < |c.problems| && c.problems[i].letter == letter;
      ScoreSumCovers(c.problems, Cells(c, from, subs, user), i);
      CellInRow(c, from, subs, user, letter);
    }
  }

  lemma {:induction false} EmptyTotals(problems: seq<ContestProblem>)
    ensures SolvedSum(problems, map[]) == 0 && PenaltySum(problems, map[]) == 0 && ScoreSum(problems, map[]) == 0
  {
    if problems != [] {
      EmptyTotals(problems[1..]);
    }
  }

  /** Someone with nothing resolved is never strictly better than anyone. */
  lemma EmptyRowBeatsNobody(c: Contest, from: Option<int>, names: map<int, string>, subs: seq<Submission>,
                            nobody: Row, user: int)
    requires user in names
    requires nobody.solved == 0 && nobody.totalScore == 0
    ensures !Better(c.scoring, nobody, RowOf(c, from, names, subs, user))
  {
    hide Cells, LastImprovement, SolvedSum, PenaltySum, ScoreSum;
    NothingSolvedNoPenalty(c, from, subs, user, c.problems);
    NoScoreNoImprovement(c, from, subs, user);
  }

  lemma RowOfNewcomer(c: Contest, from: Option<int>, names: map<int, string>, subs: seq<Submission>, user: int)
    requires user in names && user !in Entrants(c, subs)
    ensures RowOf(c, from, names, subs, user) == Row(user, names[user], map[], 0, 0, 0, 0)
  {
    hide Cells, LastImprovement;
    NewcomerRow(c, from, names, subs, user);
    assert RawRow(c, from, names, subs, user).cells == map[];
    EmptyTotals(c.problems);
  }

  // ---------------------------------------------------------- The same places

  lemma {:induction false} FewerEntrants(c: Contest, from: Option<int>, subs: seq<Submission>)
    ensures Entrants(c, BeforeFreeze(from, subs)) <= Entrants(c, subs)
  {
    if subs != [] {
      var init, s := subs[..|subs| - 1], subs[|subs| - 1];
      assert subs == init + [s];
      FewerEntrants(c, from, init);
      BeforeFreezeStep(from, init, s);
      TouchedOneMore(c, init, s, s.user);
      TouchedOneMore(c, BeforeFreeze(from, init), s, s.user);
    }
  }

  lemma BetterBeforeAndAfter(c: Contest, from: Option<int>, names: map<int, string>, subs: seq<Submission>,
                             other: int, user: int)
    requires user in names && other in names
    ensures
      var prior := BeforeFreeze(from, subs);
      Better(c.scoring, RowOf(c, from, names, subs, other), RowOf(c, from, names, subs, user)) <==>
      Better(c.scoring, RowOf(c, None, names, prior, other), RowOf(c, None, names, prior, user))
  {
    hide RowOf;
    FrozenRowIsTheOldRow(c, from, names, subs, other);
    FrozenRowIsTheOldRow(c, from, names, subs, user);
  }

  /** Everyone who had a place when the board froze keeps it, although people first seen since have joined. */
  lemma FreezeKeepsEveryPlace(c: Contest, from: Option<int>, names: map<int, string>, subs: seq<Submission>, user: int)
    requires Entrants(c, subs) <= names.Keys
    requires user in Entrants(c, BeforeFreeze(from, subs))
    ensures Entrants(c, BeforeFreeze(from, subs)) <= names.Keys && user in names
    ensures Place(c, from, names, subs, RowOf(c, from, names, subs, user)) ==
      Place(c, None, names, BeforeFreeze(from, subs), RowOf(c, None, names, BeforeFreeze(from, subs), user))
  {
    FewerEntrants(c, from, subs);
    hide RowOf, Better, Entrants;
    var prior := BeforeFreeze(from, subs);
    var now, before := RowOf(c, from, names, subs, user), RowOf(c, None, names, prior, user);
    forall u | u in Entrants(c, subs)
      ensures Better(c.scoring, RowOf(c, from, names, subs, u), now) <==>
        u in Entrants(c, prior) && Better(c.scoring, RowOf(c, None, names, prior, u), before)
    {
      BetterBeforeAndAfter(c, from, names, subs, u, user);
      if u !in Entrants(c, prior) {
        RowOfNewcomer(c, None, names, prior, u);
        EmptyRowBeatsNobody(c, None, names, prior, RowOf(c, None, names, prior, u), user);
      }
    }
    assert (set u | u in Entrants(c, subs) && Better(c.scoring, RowOf(c, from, names, subs, u), now)) ==
      (set u | u in Entrants(c, prior) && Better(c.scoring, RowOf(c, None, names, prior, u), before));
  }

  // --------------------------------------------------------- Non-interference

  /** The same submission as far as a frozen board may look: only its result differs, and only if it is frozen. */
  predicate AlikeWhenFrozen(from: Option<int>, a: Submission, b: Submission) {
    a == b || (Frozen(from, a) && a.user == b.user && a.problem == b.problem && a.contest == b.contest
               && a.createdAt == b.createdAt)
  }

  predicate AlikeTables(from: Option<int>, a: seq<Submission>, b: seq<Submission>) {
    |a| == |b| && forall i | 0 <= i < |a| :: AlikeWhenFrozen(from, a[i], b[i])
  }

  lemma {:induction false} AlikeCells(c: Contest, from: Option<int>, a: seq<Submission>, b: seq<Submission>,
                                      user: int, letter: string)
    requires AlikeTables(from, a, b)
    ensures CellAt(c, from, a, user, letter) == CellAt(c, from, b, user, letter)
  {
    if a != [] {
      AlikeCells(c, from, a[..|a| - 1], b[..|b| - 1], user, letter);
    }
  }

  lemma {:induction false} AlikeImprovements(c: Contest, from: Option<int>, a: seq<Submission>, b: seq<Submission>,
                                             user: int)
    requires AlikeTables(from, a, b)
    ensures LastImprovement(c, from, a, user) == LastImprovement(c, from, b, user)
  {
    if a != [] {
      hide CellAt;
      var n := |a| - 1;
      AlikeImprovements(c, from, a[..n], b[..n], user);
      if Counted(c, a[n]) {
        AlikeCells(c, from, a[..n], b[..n], a[n].user, LetterOf(c.problems, a[n].problem).value);
      }
    }
  }

  lemma AlikeRows(c: Contest, from: Option<int>, names: map<int, string>, a: seq<Submission>, b: seq<Submission>)
    requires AlikeTables(from, a, b)
    ensures Entrants(c, a) == Entrants(c, b)
    ensures forall user | user in names :: RowOf(c, from, names, a, user) == RowOf(c, from, names, b, user)
  {
    hide CellAt, LastImprovement, Totalled;
    forall user | user in names
      ensures RowOf(c, from, names, a, user) == RowOf(c, from, names, b, user)
    {
      assert Touched(c, a, user) == Touched(c, b, user);
      forall letter ensures CellAt(c, from, a, user, letter) == CellAt(c, from, b, user, letter) {
        AlikeCells(c, from, a, b, user, letter);
      }
      assert Cells(c, from, a, user) == Cells(c, from, b, user);
      AlikeImprovements(c, from, a, b, user);
    }
  }

  lemma {:induction false} AlikeQueries(c: Contest, from: Option<int>, a: seq<Submission>, b: seq<Submission>)
    requires AlikeTables(from, a, b)
    ensures AlikeTables(from, Query(c, a), Query(c, b))
  {
    if a != [] {
      AlikeQueries(c, from, a[..|a| - 1], b[..|b| - 1]);
    }
  }

  /** What frozen submissions achieved cannot be told from the board: change it, and the same boards stay correct. */
  lemma FrozenResultsDoNotInterfere(c: Contest, names: map<int, string>, a: seq<Submission>, b: seq<Submission>,
                                    now: int, lifted: bool, board: seq<Ranked>)
    requires AlikeTables(FrozenFrom(c, now, lifted), a, b)
    requires Entrants(c, Query(c, a)) <= names.Keys
    ensures Entrants(c, Query(c, b)) <= names.Keys
    ensures Correct(c, FrozenFrom(c, now, lifted), names, Query(c, a), board) <==>
      Correct(c, FrozenFrom(c, now, lifted), names, Query(c, b), board)
  {
    var from := FrozenFrom(c, now, lifted);
    AlikeQueries(c, from, a, b);
    AlikeBoards(c, from, names, Query(c, a), Query(c, b), board);
  }

  lemma AlikeBoards(c: Contest, from: Option<int>, names: map<int, string>, a: seq<Submission>, b: seq<Submission>,
                    board: seq<Ranked>)
    requires AlikeTables(from, a, b)
    requires Entrants(c, a) <= names.Keys
    ensures Entrants(c, b) <= names.Keys
    ensures Correct(c, from, names, a, board) <==> Correct(c, from, names, b, board)
  {
    AlikeRows(c, from, names, a, b);
    hide RowOf, Entrants, AlikeTables, Better;
    forall row: Row
      ensures Place(c, from, names, a, row) == Place(c, from, names, b, row)
    {
      assert (set u | u in Entrants(c, a) && Better(c.scoring, RowOf(c, from, names, a, u), row)) ==
        (set u | u in Entrants(c, b) && Better(c.scoring, RowOf(c, from, names, b, u), row));
    }
  }
}
