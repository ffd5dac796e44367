/** Trying again never hurts: what one more judged submission does to its author's row and place. */
module ScoreboardProgress {
  import opened Options
  import opened Sorting
  import opened Verdicts
  import opened Scoreboard
  import opened ScoreboardFreeze

  ghost predicate AgreeExcept(a: map<string, Cell>, b: map<string, Cell>, letter: string) {
    forall other | other != letter :: CellIn(a, other) == CellIn(b, other)
  }

  /** Changing one cell moves each total by what that cell's own figure moved. */
  lemma {:induction false} OneCellChanged(problems: seq<ContestProblem>, a: map<string, Cell>, b: map<string, Cell>,
                                          letter: string)
    requires OneLetterEach(problems) && AgreeExcept(a, b, letter)
    ensures Listed(problems, letter) ==>
      && SolvedSum(problems, b) + Bit(CellIn(a, letter).solved) ==
           SolvedSum(problems, a) + Bit(CellIn(b, letter).solved)
      && PenaltySum(problems, b) + CellIn(a, letter).penalty == PenaltySum(problems, a) + CellIn(b, letter).penalty
      && ScoreSum(problems, b) + CellIn(a, letter).score == ScoreSum(problems, a) + CellIn(b, letter).score
    ensures !Listed(problems, letter) ==>
      && SolvedSum(problems, b) == SolvedSum(problems, a) && PenaltySum(problems, b) == PenaltySum(problems, a)
      && ScoreSum(problems, b) == ScoreSum(problems, a)
  {
    if problems != [] {
      OneCellChanged(problems[1..], a, b, letter);
      ListedInTail(problems, letter);
      if problems[0].letter != letter {
        assert CellIn(a, problems[0].letter) == CellIn(b, problems[0].letter);
      } else {
        assert !Listed(problems[1..], letter);
      }
    }
  }

  /** One judged attempt on its own cell: a solved cell is settled, an unsolved one is solved or costs nothing yet. */
  lemma JudgedStep(c: Contest, from: Option<int>, cell: Cell, s: Submission)
    requires !Waiting(s.verdict)
    requires c.scoring == ICPC ==> !cell.solved ==> cell.penalty == 0
    ensures c.scoring == ICPC ==>
      var after := Step(c, from, cell, s);
      || (after.solved == cell.solved && after.penalty == cell.penalty)
      || (!cell.solved && after.solved && s.verdict == AC)
    ensures c.scoring == IOI ==>
      var after := Step(c, from, cell, s);
      after.score >= cell.score && (after.score > cell.score <==> !Frozen(from, s) && Earned(s) > cell.score)
  {
    hide Minutes, Earned;
  }

  /** ICPC: the solved count and penalty stay as they are, or the count goes up by one for an accepted attempt.
      IOI: the total never falls, and the tie-break only moves when the total rises. */
  lemma OwnKeyNeverWorsens(c: Contest, from: Option<int>, names: map<int, string>, subs: seq<Submission>, s: Submission)
    requires ValidContest(c) && s.user in names
    requires Counted(c, s) && !Waiting(s.verdict)
    ensures
      var before, after := RowOf(c, from, names, subs, s.user), RowOf(c, from, names, subs + [s], s.user);
      && (c.scoring == ICPC ==>
        || (after.solved == before.solved && after.penalty == before.penalty)
        || (after.solved == before.solved + 1 && s.verdict == AC))
      && (c.scoring == IOI ==> after.totalScore >= before.totalScore)
      && (c.scoring == IOI && after.totalScore == before.totalScore ==> after.lastImprovement == before.lastImprovement)
  {
    hide CellAt, Cells, LastImprovement, SolvedSum, PenaltySum, ScoreSum, Step, Minutes, Earned;
    var letter := LetterOf(c.problems, s.problem).value;
    var a, b := Cells(c, from, subs, s.user), Cells(c, from, subs + [s], s.user);
    forall other
      ensures CellIn(a, other) == CellAt(c, from, subs, s.user, other)
      ensures CellIn(b, other) == if other == letter then Step(c, from, CellAt(c, from, subs, s.user, other), s)
                                  else CellAt(c, from, subs, s.user, other)
    {
      CellInRow(c, from, subs, s.user, other);
      CellInRow(c, from, subs + [s], s.user, other);
      CellOneMore(c, from, subs, s, s.user, other);
    }
    LetterIsListed(c.problems, s.problem);
    OneCellChanged(c.problems, a, b, letter);
    UnsolvedCostsNothing(c, from, subs, s.user, letter);
    JudgedStep(c, from, CellAt(c, from, subs, s.user, letter), s);
    LastImprovementStep(c, from, subs, s, s.user);
  }

  lemma OtherRowsUnchanged(c: Contest, from: Option<int>, names: map<int, string>, subs: seq<Submission>,
                           s: Submission, other: int)
    requires other in names && other != s.user
    ensures RowOf(c, from, names, subs + [s], other) == RowOf(c, from, names, subs, other)
  {
    hide Cells, LastImprovement, RowStep;
    RawRowStep(c, from, names, subs, s, other);
    assert RowOf(c, from, names, subs, other) == Totalled(c, RawRow(c, from, names, subs, other));
    assert RowOf(c, from, names, subs + [s], other) == Totalled(c, RawRow(c, from, names, subs + [s], other));
  }

  /** So no judged submission ever costs its author a place. */
  lemma OwnPlaceNeverDrops(c: Contest, from: Option<int>, names: map<int, string>, subs: seq<Submission>, s: Submission)
    requires ValidContest(c) && Entrants(c, subs + [s]) <= names.Keys
    requires s.user in Entrants(c, subs) && Counted(c, s) && !Waiting(s.verdict)
    ensures Entrants(c, subs) == Entrants(c, subs + [s]) && s.user in names
    ensures Place(c, from, names, subs + [s], RowOf(c, from, names, subs + [s], s.user)) <=
      Place(c, from, names, subs, RowOf(c, from, names, subs, s.user))
  {
    TouchedOneMore(c, subs, s, s.user);
    OwnKeyNeverWorsens(c, from, names, subs, s);
    hide RowOf, Entrants;
    var before, after := RowOf(c, from, names, subs, s.user), RowOf(c, from, names, subs + [s], s.user);
    var ahead := set u | u in Entrants(c, subs) && Better(c.scoring, RowOf(c, from, names, subs, u), before);
    var still := set u | u in Entrants(c, subs) && Better(c.scoring, RowOf(c, from, names, subs + [s], u), after);
    forall u | u in still ensures u in ahead {
      if u != s.user {
        OtherRowsUnchanged(c, from, names, subs, s, u);
      }
    }
    Smaller(still, ahead);
  }

  lemma Smaller(a: set<int>, b: set<int>)
    requires a <= b
    ensures |a| <= |b|
  {
    assert b == a + (b - a);
  }
}
