/** The contest scoreboard: one pass over the submissions, a freeze, and places shared by ties. */
module Scoreboard {
  import opened Options
  import opened Rounding
  import opened Sorting
  import opened Selection
  import opened Verdicts

  datatype Scoring = ICPC | IOI
  datatype Phase = Before | Running | Ended

  datatype ContestProblem = ContestProblem(id: int, letter: string)
  datatype Contest = Contest(id: int, scoring: Scoring, penaltyMinutes: nat, freezeMinutes: nat,
                             startsAt: int, endsAt: int, problems: seq<ContestProblem>)

  datatype Submission = Submission(user: int, problem: int, contest: Option<int>, createdAt: int,
                                   verdict: Verdict, score: nat, maxScore: nat, earned: nat)

  datatype Cell = Cell(attempts: nat, solved: bool, minutes: Option<nat>, penalty: nat, score: nat,
                       pending: bool, frozen: nat)
  const EMPTY_CELL := Cell(0, false, None, 0, 0, false, 0)

  datatype Row = Row(user: int, username: string, cells: map<string, Cell>, solved: nat, penalty: nat,
                     totalScore: nat, lastImprovement: nat)
  datatype Ranked = Ranked(rank: nat, row: Row)

  const MINUTE := 60000

  // --------------------------------------------------------------- The clock

  function PhaseOf(c: Contest, now: int): Phase {
    if now < c.startsAt then Before else if now > c.endsAt then Ended else Running
  }

  function Minutes(c: Contest, t: int): nat {
    if t <= c.startsAt then 0 else (t - c.startsAt) / MINUTE
  }

  function FreezeAt(c: Contest): Option<int> {
    if c.freezeMinutes == 0 then None else Some(c.endsAt - c.freezeMinutes * MINUTE)
  }

  function FrozenFrom(c: Contest, now: int, lifted: bool): Option<int> {
    if PhaseOf(c, now) == Running && !lifted then FreezeAt(c) else None
  }

  predicate Frozen(from: Option<int>, s: Submission) {
    from.Some? && s.createdAt >= from.value
  }

  // ----------------------------------------------------- What a result is worth

  function Percentage(score: nat, maxScore: nat): (p: nat) {
    if maxScore == 0 then 0
    else
      RoundKeepsIntegerBounds((100 * score) as real / maxScore as real, 0, 0);
      Round((100 * score) as real / maxScore as real)
  }

  /** A recorded share of zero reads as not recorded, and falls back to the share of test points. */
  function Earned(s: Submission): nat {
    if s.earned != 0 then s.earned else Percentage(s.score, s.maxScore)
  }

  // ---------------------------------------------------------------- The fold

  function LetterOf(problems: seq<ContestProblem>, id: int): Option<string> {
    if problems == [] then None
    else if problems[0].id == id then Some(problems[0].letter)
    else LetterOf(problems[1..], id)
  }

  predicate Counted(c: Contest, s: Submission) {
    LetterOf(c.problems, s.problem).Some?
  }

  predicate Belongs(c: Contest, s: Submission, user: int, letter: string) {
    s.user == user && LetterOf(c.problems, s.problem) == Some(letter)
  }

  function Max(a: nat, b: nat): nat {
    if a >= b then a else b
  }

  /** One submission applied to its cell. */
  function Step(c: Contest, from: Option<int>, cell: Cell, s: Submission): Cell {
    if Frozen(from, s) then cell.(frozen := cell.frozen + 1)
    else if Waiting(s.verdict) then cell.(pending := true)
    else if c.scoring == IOI then
      var best := Max(cell.score, Earned(s));
      cell.(attempts := cell.attempts + 1, score := best, solved := best == 100)
    else if cell.solved then cell
    else if s.verdict == AC then
      cell.(attempts := cell.attempts + 1, solved := true, minutes := Some(Minutes(c, s.createdAt)),
            penalty := Minutes(c, s.createdAt) + c.penaltyMinutes * cell.attempts)
    else cell.(attempts := cell.attempts + 1)
  }

  /** A contestant's cell after the listed submissions. */
  function CellAt(c: Contest, from: Option<int>, subs: seq<Submission>, user: int, letter: string): Cell {
    if subs == [] then EMPTY_CELL
    else
      var earlier, s := CellAt(c, from, subs[..|subs| - 1], user, letter), subs[|subs| - 1];
      if Belongs(c, s, user, letter) then Step(c, from, earlier, s) else earlier
  }

  /** Whether the last submission raised a score on the board. */
  predicate Improves(c: Contest, from: Option<int>, earlier: seq<Submission>, s: Submission) {
    && c.scoring == IOI && Counted(c, s) && !Frozen(from, s) && !Waiting(s.verdict)
    && Earned(s) > CellAt(c, from, earlier, s.user, LetterOf(c.problems, s.problem).value).score
  }

  function LastImprovement(c: Contest, from: Option<int>, subs: seq<Submission>, user: int): nat {
    if subs == [] then 0
    else
      var init, s := subs[..|subs| - 1], subs[|subs| - 1];
      if s.user == user && Improves(c, from, init, s)
      then Max(LastImprovement(c, from, init, user), Minutes(c, s.createdAt))
      else LastImprovement(c, from, init, user)
  }

  /** The letters a contestant has a cell for. */
  function Touched(c: Contest, subs: seq<Submission>, user: int): set<string> {
    set i | 0 <= i < |subs| && subs[i].user == user && Counted(c, subs[i]) ::
      LetterOf(c.problems, subs[i].problem).value
  }

  function Entrants(c: Contest, subs: seq<Submission>): set<int> {
    set i | 0 <= i < |subs| && Counted(c, subs[i]) :: subs[i].user
  }

  function Cells(c: Contest, from: Option<int>, subs: seq<Submission>, user: int): map<string, Cell> {
    map letter | letter in Touched(c, subs, user) :: CellAt(c, from, subs, user, letter)
  }

  // ------------------------------------------------------------------ Totals

  function SolvedSum(problems: seq<ContestProblem>, cells: map<string, Cell>): nat {
    if problems == [] then 0
    else
      var first := if problems[0].letter in cells && cells[problems[0].letter].solved then 1 else 0;
      first + SolvedSum(problems[1..], cells)
  }

  function PenaltySum(problems: seq<ContestProblem>, cells: map<string, Cell>): nat {
    if problems == [] then 0
    else
      var first := if problems[0].letter in cells then cells[problems[0].letter].penalty else 0;
      first + PenaltySum(problems[1..], cells)
  }

  function ScoreSum(problems: seq<ContestProblem>, cells: map<string, Cell>): nat {
    if problems == [] then 0
    else
      var first := if problems[0].letter in cells then cells[problems[0].letter].score else 0;
      first + ScoreSum(problems[1..], cells)
  }

  function Totalled(c: Contest, row: Row): Row {
    var solved := SolvedSum(c.problems, row.cells);
    if c.scoring == IOI then row.(totalScore := ScoreSum(c.problems, row.cells), solved := solved)
    else row.(solved := solved, penalty := PenaltySum(c.problems, row.cells), totalScore := solved)
  }

  function RowOf(c: Contest, from: Option<int>, names: map<int, string>, subs: seq<Submission>, user: int): Row
    requires user in names
  {
    Totalled(c, Row(user, names[user], Cells(c, from, subs, user), 0, 0, 0, LastImprovement(c, from, subs, user)))
  }

  // ----------------------------------------------------------- Totals over the cells

  predicate OneLetterEach(problems: seq<ContestProblem>) {
    forall i, j | 0 <= i < j < |problems| :: problems[i].letter != problems[j].letter
  }

  predicate Listed(problems: seq<ContestProblem>, letter: string) {
    exists i | 0 <= i < |problems| :: problems[i].letter == letter
  }

  function Bit(b: bool): nat {
    if b then 1 else 0
  }

  lemma ListedInTail(problems: seq<ContestProblem>, letter: string)
    requires problems != []
    ensures Listed(problems, letter) <==> letter == problems[0].letter || Listed(problems[1..], letter)
  {
    if Listed(problems, letter) && letter != problems[0].letter {
      var i :| 0 <= i < |problems| && problems[i].letter == letter;
      assert problems[1..][i - 1].letter == letter;
    }
    if Listed(problems[1..], letter) {
      var i :| 0 <= i < |problems[1..]| && problems[1..][i].letter == letter;
      assert problems[i + 1].letter == letter;
    }
  }

  lemma {:induction false} LetterIsListed(problems: seq<ContestProblem>, id: int)
    requires LetterOf(problems, id).Some?
    ensures Listed(problems, LetterOf(problems, id).value)
  {
    if problems[0].id != id {
      LetterIsListed(problems[1..], id);
    }
    ListedInTail(problems, LetterOf(problems, id).value);
  }

  /** What the schema promises of a contest: no two of its problems share an id or a letter. */
  predicate ValidContest(c: Contest) {
    forall i, j | 0 <= i < j < |c.problems| ::
      c.problems[i].id != c.problems[j].id && c.problems[i].letter != c.problems[j].letter
  }

  /** What a row adds up over its cells, whatever order they are taken in. */
  datatype Sums = Sums(solved: nat, penalty: nat, score: nat)
  const NOTHING := Sums(0, 0, 0)

  function Plus(sums: Sums, cell: Cell): Sums {
    Sums(sums.solved + Bit(cell.solved), sums.penalty + cell.penalty, sums.score + cell.score)
  }

  function Both(a: Sums, b: Sums): Sums {
    Sums(a.solved + b.solved, a.penalty + b.penalty, a.score + b.score)
  }

  ghost function SumOfCells(cells: map<string, Cell>): Sums {
    if cells == map[] then NOTHING
    else
      var letter :| letter in cells;
      Plus(SumOfCells(cells - {letter}), cells[letter])
  }

  lemma {:induction false} AnyCellLast(cells: map<string, Cell>, letter: string)
    requires letter in cells
    ensures SumOfCells(cells) == Plus(SumOfCells(cells - {letter}), cells[letter])
    decreases |cells|
  {
    var first :| first in cells && SumOfCells(cells) == Plus(SumOfCells(cells - {first}), cells[first]);
    if first != letter {
      var a, b := cells - {first}, cells - {letter};
      AnyCellLast(a, letter);
      AnyCellLast(b, first);
      var rest := a - {letter};
      assert rest == b - {first};
      assert SumOfCells(a) == Plus(SumOfCells(rest), cells[letter]);
      assert SumOfCells(b) == Plus(SumOfCells(rest), cells[first]);
      assert SumOfCells(cells) == Plus(SumOfCells(a), cells[first]);
    }
  }

  lemma {:induction false} UnlistedDoesNotCount(problems: seq<ContestProblem>, cells: map<string, Cell>, letter: string)
    requires !Listed(problems, letter)
    ensures SolvedSum(problems, cells - {letter}) == SolvedSum(problems, cells)
    ensures PenaltySum(problems, cells - {letter}) == PenaltySum(problems, cells)
    ensures ScoreSum(problems, cells - {letter}) == ScoreSum(problems, cells)
  {
    if problems != [] {
      ListedInTail(problems, letter);
      UnlistedDoesNotCount(problems[1..], cells, letter);
    }
  }

  /** Taken problem by problem, the totals are those taken cell by cell, when every cell belongs to a problem. */
  lemma {:induction false} TotalsAreCellSums(problems: seq<ContestProblem>, cells: map<string, Cell>)
    requires OneLetterEach(problems) && forall letter | letter in cells :: Listed(problems, letter)
    ensures SumOfCells(cells) ==
            Sums(SolvedSum(problems, cells), PenaltySum(problems, cells), ScoreSum(problems, cells))
  {
    if problems == [] {
      assert cells == map[];
    } else {
      var first, rest := problems[0].letter, problems[1..];
      assert !Listed(rest, first);
      var others := cells - {first};
      forall letter | letter in others ensures Listed(rest, letter) {
        ListedInTail(problems, letter);
      }
      TotalsAreCellSums(rest, others);
      UnlistedDoesNotCount(rest, cells, first);
      if first in cells {
        AnyCellLast(cells, first);
      } else {
        assert others == cells;
      }
    }
  }

  lemma CellsAreListed(c: Contest, from: Option<int>, subs: seq<Submission>, user: int)
    ensures forall letter | letter in Cells(c, from, subs, user) :: Listed(c.problems, letter)
  {
    forall letter | letter in Cells(c, from, subs, user) ensures Listed(c.problems, letter) {
      var i :| 0 <= i < |subs| && subs[i].user == user && Counted(c, subs[i])
        && LetterOf(c.problems, subs[i].problem).value == letter;
      LetterIsListed(c.problems, subs[i].problem);
    }
  }

  /** The totals a row shows are the sums over its cells. */
  ghost predicate AddsUp(scoring: Scoring, row: Row) {
    var sums := SumOfCells(row.cells);
    && row.solved == sums.solved
    && (if scoring == IOI then row.totalScore == sums.score && row.penalty == 0
        else row.penalty == sums.penalty && row.totalScore == sums.solved)
  }

  lemma RowAddsUp(c: Contest, from: Option<int>, names: map<int, string>, subs: seq<Submission>, user: int)
    requires ValidContest(c) && user in names
    ensures AddsUp(c.scoring, RowOf(c, from, names, subs, user))
  {
    hide SolvedSum, PenaltySum, ScoreSum, Cells, SumOfCells;
    CellsAreListed(c, from, subs, user);
    TotalsAreCellSums(c.problems, Cells(c, from, subs, user));
  }

  // ----------------------------------------------------------------- Ranking

  /** Strictly better on the board; contestants of whom neither is better share a place. */
  predicate Better(scoring: Scoring, a: Row, b: Row) {
    if scoring == IOI then
      a.totalScore > b.totalScore || (a.totalScore == b.totalScore && a.lastImprovement < b.lastImprovement)
    else a.solved > b.solved || (a.solved == b.solved && a.penalty < b.penalty)
  }

  predicate ListedBefore(scoring: Scoring, a: Row, b: Row) {
    Better(scoring, a, b) || (!Better(scoring, b, a) && StringLe(a.username, b.username))
  }

  /** The place of a row: one more than the number of contestants strictly better. */
  function Place(c: Contest, from: Option<int>, names: map<int, string>, subs: seq<Submission>, row: Row): nat
    requires Entrants(c, subs) <= names.Keys
  {
    1 + |set u | u in Entrants(c, subs) && Better(c.scoring, RowOf(c, from, names, subs, u), row)|
  }

  // ------------------------------------------------------------ The one pass

  /** A row before its totals are taken. */
  function RawRow(c: Contest, from: Option<int>, names: map<int, string>, subs: seq<Submission>, user: int): Row
    requires user in names
  {
    Row(user, names[user], Cells(c, from, subs, user), 0, 0, 0, LastImprovement(c, from, subs, user))
  }

  function CellOrNew(row: Row, letter: string): Cell {
    if letter in row.cells then row.cells[letter] else EMPTY_CELL
  }

  /** One submission applied to its contestant's row. */
  function RowStep(c: Contest, from: Option<int>, row: Row, s: Submission): Row
    requires Counted(c, s)
  {
    var letter := LetterOf(c.problems, s.problem).value;
    var cell := CellOrNew(row, letter);
    var improved := c.scoring == IOI && !Frozen(from, s) && !Waiting(s.verdict) && Earned(s) > cell.score;
    row.(cells := row.cells[letter := Step(c, from, cell, s)],
         lastImprovement := if improved then Max(row.lastImprovement, Minutes(c, s.createdAt)) else row.lastImprovement)
  }

  lemma {:induction false} UntouchedIsEmpty(c: Contest, from: Option<int>, subs: seq<Submission>, user: int,
                                            letter: string)
    requires letter !in Touched(c, subs, user)
    ensures CellAt(c, from, subs, user, letter) == EMPTY_CELL
  {
    if subs != [] {
      var init := subs[..|subs| - 1];
      forall i | 0 <= i < |init| && init[i].user == user && Counted(c, init[i])
        ensures LetterOf(c.problems, init[i].problem).value != letter
      {
        assert subs[i] == init[i];
      }
      UntouchedIsEmpty(c, from, init, user, letter);
      assert subs[|subs| - 1].user == user && Counted(c, subs[|subs| - 1]) ==>
        LetterOf(c.problems, subs[|subs| - 1].problem).value in Touched(c, subs, user);
    }
  }

  lemma TouchedOneMore(c: Contest, subs: seq<Submission>, s: Submission, user: int)
    ensures Touched(c, subs + [s], user) == Touched(c, subs, user)
      + (if s.user == user && Counted(c, s) then {LetterOf(c.problems, s.problem).value} else {})
    ensures Entrants(c, subs + [s]) == Entrants(c, subs) + (if Counted(c, s) then {s.user} else {})
  {
    var all := subs + [s];
    assert all[|subs|] == s;
    forall i | 0 <= i < |subs| ensures all[i] == subs[i] {
    }
    var t := Touched(c, all, user);
    forall x | x in Touched(c, subs, user) ensures x in t {
      var i :| 0 <= i < |subs| && subs[i].user == user && Counted(c, subs[i])
        && LetterOf(c.problems, subs[i].problem).value == x;
      assert all[i].user == user && Counted(c, all[i]);
    }
    forall u | u in Entrants(c, subs) ensures u in Entrants(c, all) {
      var i :| 0 <= i < |subs| && Counted(c, subs[i]) && subs[i].user == u;
      assert Counted(c, all[i]) && all[i].user == u;
    }
  }

  lemma CellOneMore(c: Contest, from: Option<int>, subs: seq<Submission>, s: Submission, user: int, letter: string)
    ensures CellAt(c, from, subs + [s], user, letter) ==
      if Belongs(c, s, user, letter) then Step(c, from, CellAt(c, from, subs, user, letter), s)
      else CellAt(c, from, subs, user, letter)
  {
    assert (subs + [s])[..|subs|] == subs;
  }

  /** Each submission changes its own contestant's row, by one step, and no other row. */
  lemma RawRowStep(c: Contest, from: Option<int>, names: map<int, string>, subs: seq<Submission>, s: Submission,
                   user: int)
    requires user in names
    ensures RawRow(c, from, names, subs + [s], user) ==
      if s.user == user && Counted(c, s) then RowStep(c, from, RawRow(c, from, names, subs, user), s)
      else RawRow(c, from, names, subs, user)
  {
    hide Step;
    assert (subs + [s])[..|subs|] == subs;
    TouchedOneMore(c, subs, s, user);
    var before, after := Cells(c, from, subs, user), Cells(c, from, subs + [s], user);
    forall letter | letter in after
      ensures after[letter] == if Belongs(c, s, user, letter) then Step(c, from, CellAt(c, from, subs, user, letter), s)
                               else CellAt(c, from, subs, user, letter)
    {
      CellOneMore(c, from, subs, s, user, letter);
    }
    if s.user == user && Counted(c, s) {
      var letter := LetterOf(c.problems, s.problem).value;
      if letter !in before {
        UntouchedIsEmpty(c, from, subs, user, letter);
      }
      assert CellOrNew(RawRow(c, from, names, subs, user), letter) == CellAt(c, from, subs, user, letter);
      assert after == before[letter := Step(c, from, CellAt(c, from, subs, user, letter), s)];
    } else {
      assert after == before;
    }
  }

  ghost predicate IsBoard(c: Contest, from: Option<int>, names: map<int, string>, subs: seq<Submission>,
                          rows: map<int, Row>, keys: seq<int>)
  {
    && NoRepeats(keys)
    && (forall u :: u in keys <==> u in rows)
    && rows.Keys == Entrants(c, subs)
    && (forall u | u in rows :: u in names && rows[u] == RawRow(c, from, names, subs, u))
  }

  /** A contestant nobody has seen yet starts from an empty row. */
  lemma NewcomerRow(c: Contest, from: Option<int>, names: map<int, string>, subs: seq<Submission>, user: int)
    requires user in names && user !in Entrants(c, subs)
    ensures RawRow(c, from, names, subs, user) == Row(user, names[user], map[], 0, 0, 0, 0)
  {
    assert Touched(c, subs, user) == {};
    NoImprovementYet(c, from, subs, user);
  }

  lemma {:induction false} NoImprovementYet(c: Contest, from: Option<int>, subs: seq<Submission>, user: int)
    requires user !in Entrants(c, subs)
    ensures LastImprovement(c, from, subs, user) == 0
  {
    if subs != [] {
      var init := subs[..|subs| - 1];
      assert subs == init + [subs[|subs| - 1]];
      TouchedOneMore(c, init, subs[|subs| - 1], user);
      NoImprovementYet(c, from, init, user);
    }
  }

  lemma BoardStep(c: Contest, from: Option<int>, names: map<int, string>, subs: seq<Submission>, s: Submission,
                  rows: map<int, Row>, keys: seq<int>, row: Row)
    requires IsBoard(c, from, names, subs, rows, keys) && s.user in names && Counted(c, s)
    requires row == if s.user in rows then rows[s.user] else Row(s.user, names[s.user], map[], 0, 0, 0, 0)
    ensures IsBoard(c, from, names, subs + [s], rows[s.user := RowStep(c, from, row, s)],
                    if s.user in rows then keys else keys + [s.user])
  {
    hide RawRow, RowStep, Counted;
    TouchedOneMore(c, subs, s, s.user);
    if s.user !in rows {
      NewcomerRow(c, from, names, subs, s.user);
    }
    forall u | u in names
      ensures RawRow(c, from, names, subs + [s], u) ==
        if s.user == u then RowStep(c, from, RawRow(c, from, names, subs, u), s) else RawRow(c, from, names, subs, u)
    {
      RawRowStep(c, from, names, subs, s, u);
    }
  }

  lemma BoardSkips(c: Contest, from: Option<int>, names: map<int, string>, subs: seq<Submission>, s: Submission,
                   rows: map<int, Row>, keys: seq<int>)
    requires IsBoard(c, from, names, subs, rows, keys) && !Counted(c, s)
    ensures IsBoard(c, from, names, subs + [s], rows, keys)
  {
    hide RawRow, RowStep;
    TouchedOneMore(c, subs, s, s.user);
    forall u | u in names
      ensures RawRow(c, from, names, subs + [s], u) == RawRow(c, from, names, subs, u)
    {
      RawRowStep(c, from, names, subs, s, u);
    }
  }

  /** The pass: `keys` lists the contestants in the order their rows were made. */
  method Collect(c: Contest, from: Option<int>, names: map<int, string>, subs: seq<Submission>)
    returns (rows: map<int, Row>, keys: seq<int>)
    requires forall s | s in subs :: s.user in names
    ensures IsBoard(c, from, names, subs, rows, keys)
  {
    hide IsBoard, Minutes, Earned;
    rows, keys := map[], [];
    assert IsBoard(c, from, names, [], rows, keys) by { NobodyYet(c, from, names); }
    assert subs[..0] == [] && subs[..|subs|] == subs;
    for n := 0 to |subs|
      invariant IsBoard(c, from, names, subs[..n], rows, keys)
    {
      var s := subs[n];
      assert subs[..n + 1] == subs[..n] + [s];
      assert s in subs;
      var letter := LetterOf(c.problems, s.problem);
      if letter == None {
        BoardSkips(c, from, names, subs[..n], s, rows, keys);
        continue;
      }
      var row := if s.user in rows then rows[s.user] else Row(s.user, names[s.user], map[], 0, 0, 0, 0);
      BoardStep(c, from, names, subs[..n], s, rows, keys, row);
      if s.user !in rows {
        keys := keys + [s.user];
      }
      var cell := if letter.value in row.cells then row.cells[letter.value] else EMPTY_CELL;
      if from.Some? && s.createdAt >= from.value {
        cell := cell.(frozen := cell.frozen + 1);
      } else if s.verdict == Pending || s.verdict == Judging {
        cell := cell.(pending := true);
      } else if c.scoring == IOI {
        var gained := Earned(s);
        cell := cell.(attempts := cell.attempts + 1);
        if gained > cell.score {
          cell := cell.(score := gained);
          row := row.(lastImprovement := Max(row.lastImprovement, Minutes(c, s.createdAt)));
        }
        cell := cell.(solved := cell.score == 100);
      } else if !cell.solved {
        cell := cell.(attempts := cell.attempts + 1);
        if s.verdict == AC {
          var minutes := Minutes(c, s.createdAt);
          cell := cell.(solved := true, minutes := Some(minutes),
                        penalty := minutes + c.penaltyMinutes * (cell.attempts - 1));
        }
      }
      rows := rows[s.user := row.(cells := row.cells[letter.value := cell])];
    }
  }

  lemma NobodyYet(c: Contest, from: Option<int>, names: map<int, string>)
    ensures IsBoard(c, from, names, [], map[], [])
  {
    assert Entrants(c, []) == {};
  }

  // -------------------------------------------------- Sorting and the places

  function Ranker(scoring: Scoring): (Row, Row) -> bool {
    (a, b) => Better(scoring, a, b)
  }

  function Lister(scoring: Scoring): (Row, Row) -> bool {
    (a, b) => ListedBefore(scoring, a, b)
  }

  lemma BoardOrders(scoring: Scoring)
    ensures StrictWeak(Ranker(scoring))
    ensures TotalPreorder(Lister(scoring))
    ensures forall a, b :: Lister(scoring)(a, b) ==> !Ranker(scoring)(b, a)
  {
    forall x: Row, y: Row ensures Lister(scoring)(x, y) || Lister(scoring)(y, x) {
      StringLeTotal(x.username, y.username);
    }
    forall x: Row, y: Row, z: Row | Lister(scoring)(x, y) && Lister(scoring)(y, z) ensures Lister(scoring)(x, z) {
      if StringLe(x.username, y.username) && StringLe(y.username, z.username) {
        StringLeTransitive(x.username, y.username, z.username);
      }
    }
  }

  /** The rows in the order of the keys. */
  ghost predicate Lists(c: Contest, from: Option<int>, names: map<int, string>, subs: seq<Submission>,
                        keys: seq<int>, listed: seq<Row>)
  {
    |listed| == |keys| && forall i | 0 <= i < |keys| ::
      keys[i] in names && listed[i] == RowOf(c, from, names, subs, keys[i])
  }

  lemma AheadIsCount(c: Contest, from: Option<int>, names: map<int, string>, subs: seq<Submission>,
                     keys: seq<int>, listed: seq<Row>, row: Row)
    requires NoRepeats(keys) && Lists(c, from, names, subs, keys, listed)
    requires forall u | u in keys :: u in names
    ensures Ahead(Ranker(c.scoring), listed, row) ==
      |set u | u in keys && Better(c.scoring, RowOf(c, from, names, subs, u), row)|
  {
    hide RowOf, Better;
    var f := (u: int) => u in names && Better(c.scoring, RowOf(c, from, names, subs, u), row);
    CountOfKeys(keys, f, listed, Ranker(c.scoring), row);
    assert (set u | u in keys && Better(c.scoring, RowOf(c, from, names, subs, u), row)) == set u | u in keys && f(u);
  }

  lemma KeyHasRow(c: Contest, from: Option<int>, names: map<int, string>, subs: seq<Submission>, rows: map<int, Row>,
                  keys: seq<int>, user: int)
    requires IsBoard(c, from, names, subs, rows, keys) && user in keys
    ensures user in rows && user in names && rows[user] == RawRow(c, from, names, subs, user)
  {
  }

  /** The sums over a row's cells, taken one after another. */
  method AddUp(cells: map<string, Cell>) returns (sums: Sums)
    ensures sums == SumOfCells(cells)
  {
    sums := NOTHING;
    var left := cells;
    while left != map[]
      invariant Both(sums, SumOfCells(left)) == SumOfCells(cells)
      decreases |left|
    {
      var letter :| letter in left;
      AnyCellLast(left, letter);
      sums := Plus(sums, left[letter]);
      left := left - {letter};
    }
  }

  method Total(c: Contest, from: Option<int>, names: map<int, string>, ghost subs: seq<Submission>,
               rows: map<int, Row>, keys: seq<int>) returns (listed: seq<Row>)
    requires ValidContest(c) && IsBoard(c, from, names, subs, rows, keys)
    ensures Lists(c, from, names, subs, keys, listed)
  {
    hide IsBoard, Cells, LastImprovement, SolvedSum, PenaltySum, ScoreSum, SumOfCells;
    listed := [];
    for i := 0 to |keys|
      invariant |listed| == i
      invariant forall j | 0 <= j < i :: keys[j] in names && listed[j] == RowOf(c, from, names, subs, keys[j])
    {
      KeyHasRow(c, from, names, subs, rows, keys, keys[i]);
      var row := rows[keys[i]];
      CellsAreListed(c, from, subs, keys[i]);
      TotalsAreCellSums(c.problems, row.cells);
      var sums := AddUp(row.cells);
      if c.scoring == IOI {
        row := row.(totalScore := sums.score);
        row := row.(solved := sums.solved);
      } else {
        row := row.(solved := sums.solved);
        row := row.(penalty := sums.penalty);
        row := row.(totalScore := row.solved);
      }
      listed := listed + [row];
    }
  }

  lemma Arranged(scoring: Scoring, listed: seq<Row>, ordered: seq<Row>)
    requires ordered == Sort(Lister(scoring), listed)
    ensures multiset(ordered) == multiset(listed) && |ordered| == |listed|
    ensures Sorted(Lister(scoring), ordered) && BestFirst(Ranker(scoring), ordered)
  {
    hide Lister, Ranker;
    BoardOrders(scoring);
    SortIsSorted(Lister(scoring), listed);
    SortKeepsElements(Lister(scoring), listed);
  }

  lemma Walk(scoring: Scoring, listed: seq<Row>, ordered: seq<Row>, i: nat)
    requires i < |ordered| && BestFirst(Ranker(scoring), ordered) && multiset(ordered) == multiset(listed)
    ensures Ahead(Ranker(scoring), listed, ordered[i]) ==
      if i > 0 && !Ranker(scoring)(ordered[i - 1], ordered[i])
      then Ahead(Ranker(scoring), listed, ordered[i - 1]) else i
  {
    hide Ranker, Ahead;
    BoardOrders(scoring);
    AheadWhileWalking(Ranker(scoring), ordered, i);
    AheadIgnoresOrder(Ranker(scoring), ordered, listed, ordered[i]);
    if i > 0 {
      AheadIgnoresOrder(Ranker(scoring), ordered, listed, ordered[i - 1]);
    }
  }

  /** What the rank loop compares from one row to the next. */
  function RankKey(scoring: Scoring, row: Row): (nat, nat) {
    if scoring == IOI then (row.totalScore, row.lastImprovement) else (row.solved, row.penalty)
  }

  lemma SameKeySamePlace(scoring: Scoring, a: Row, b: Row)
    requires !Ranker(scoring)(b, a)
    ensures Ranker(scoring)(a, b) <==> RankKey(scoring, a) != RankKey(scoring, b)
  {
  }

  method Rank(scoring: Scoring, listed: seq<Row>) returns (result: seq<Ranked>)
    ensures |result| == |listed| && |Sort(Lister(scoring), listed)| == |listed|
    ensures forall i | 0 <= i < |result| ::
      result[i] == Ranked(1 + Ahead(Ranker(scoring), listed, result[i].row), Sort(Lister(scoring), listed)[i])
  {
    hide Ahead, Ranker, Lister, Sort, RankKey;
    var ordered := Sort(Lister(scoring), listed);
    Arranged(scoring, listed, ordered);
    result := [];
    var rank: nat, previous := 0, None;
    for i := 0 to |ordered|
      invariant |result| == i
      invariant previous == if i == 0 then None else Some(RankKey(scoring, ordered[i - 1]))
      invariant i > 0 ==> rank == 1 + Ahead(Ranker(scoring), listed, ordered[i - 1])
      invariant forall j | 0 <= j < i ::
        result[j] == Ranked(1 + Ahead(Ranker(scoring), listed, ordered[j]), ordered[j])
    {
      Walk(scoring, listed, ordered, i);
      if i > 0 {
        SameKeySamePlace(scoring, ordered[i - 1], ordered[i]);
      }
      var key := Some(RankKey(scoring, ordered[i]));
      if key != previous {
        rank := i + 1;
        previous := key;
      }
      result := result + [Ranked(rank, ordered[i])];
    }
  }

  // --------------------------------------------------------------- The board

  predicate InWindow(c: Contest, s: Submission) {
    s.contest == Some(c.id) && c.startsAt <= s.createdAt <= c.endsAt
  }

  /** The submissions the board is built from, in the order they were made. */
  function Query(c: Contest, table: seq<Submission>): (subs: seq<Submission>)
    ensures forall s | s in subs :: s in table && InWindow(c, s)
  {
    if table == [] then []
    else Query(c, table[..|table| - 1]) + if InWindow(c, table[|table| - 1]) then [table[|table| - 1]] else []
  }

  /** The submissions made to a contest while it ran. */
  function DuringContest(c: Contest): Submission -> bool {
    (s: Submission) => s.contest == Some(c.id) && c.startsAt <= s.createdAt && s.createdAt <= c.endsAt
  }

  /** The query takes exactly those, in table order. */
  lemma {:induction false} QueryPicks(c: Contest, table: seq<Submission>)
    ensures Picks(table, DuringContest(c), Query(c, table))
  {
    hide Picks;
    if table == [] {
      PicksNothing(DuringContest(c));
    } else {
      var init, last := table[..|table| - 1], table[|table| - 1];
      QueryPicks(c, init);
      PicksOneMore(init, last, DuringContest(c), Query(c, init));
      assert table == init + [last];
      assert Query(c, table) == if DuringContest(c)(last) then Query(c, init) + [last] else Query(c, init);
    }
  }

  /** What a board must be: a row for each contestant with something counted, exactly what that contestant's
      submissions amount to, listed in board order, and a place that counts the contestants strictly better. */
  ghost predicate Correct(c: Contest, from: Option<int>, names: map<int, string>, subs: seq<Submission>,
                          board: seq<Ranked>)
    requires Entrants(c, subs) <= names.Keys
  {
    && (forall i, j | 0 <= i < j < |board| :: board[i].row.user != board[j].row.user)
    && (set i | 0 <= i < |board| :: board[i].row.user) == Entrants(c, subs)
    && (forall i | 0 <= i < |board| ::
      && board[i].row.user in names
      && board[i].row == RowOf(c, from, names, subs, board[i].row.user)
      && AddsUp(c.scoring, board[i].row)
      && board[i].rank == Place(c, from, names, subs, board[i].row))
    && (forall i, j | 0 <= i < j < |board| :: ListedBefore(c.scoring, board[i].row, board[j].row))
  }

  lemma EntrantsAreNamed(c: Contest, names: map<int, string>, subs: seq<Submission>)
    requires forall s | s in subs :: s.user in names
    ensures Entrants(c, subs) <= names.Keys
  {
  }

  method Scoreboard(c: Contest, names: map<int, string>, table: seq<Submission>, now: int, lifted: bool)
    returns (board: seq<Ranked>)
    requires ValidContest(c)
    requires forall s | s in table :: s.user in names
    ensures Entrants(c, Query(c, table)) <= names.Keys
    ensures Correct(c, FrozenFrom(c, now, lifted), names, Query(c, table), board)
    ensures Picks(table, DuringContest(c), Query(c, table))
  {
    hide RowOf, RawRow, Ranker, Lister, Ahead, Picks;
    var from := FrozenFrom(c, now, lifted);
    var subs := Query(c, table);
    QueryPicks(c, table);
    EntrantsAreNamed(c, names, subs);
    var rows, keys := Collect(c, from, names, subs);
    var listed := Total(c, from, names, subs, rows, keys);
    board := Rank(c.scoring, listed);
    BoardIsCorrect(c, from, names, subs, keys, listed, board);
  }

  lemma BoardIsCorrect(c: Contest, from: Option<int>, names: map<int, string>, subs: seq<Submission>,
                       keys: seq<int>, listed: seq<Row>, board: seq<Ranked>)
    requires ValidContest(c) && Entrants(c, subs) <= names.Keys
    requires NoRepeats(keys) && (forall u :: u in keys <==> u in Entrants(c, subs))
    requires Lists(c, from, names, subs, keys, listed)
    requires |board| == |listed| && |Sort(Lister(c.scoring), listed)| == |listed|
    requires forall i | 0 <= i < |board| ::
      board[i] == Ranked(1 + Ahead(Ranker(c.scoring), listed, board[i].row), Sort(Lister(c.scoring), listed)[i])
    ensures Correct(c, from, names, subs, board)
  {
    hide Ahead, Sort, Entrants, RowOf, Place, Lists, Lister, Ranker, ListedBefore, NoRepeats, AddsUp;
    var ordered := Sort(Lister(c.scoring), listed);
    Arranged(c.scoring, listed, ordered);
    UsersStayDistinct(c, from, names, subs, keys, listed, ordered);
    UsersAreEntrants(c, from, names, subs, keys, listed, ordered);
    assert forall i | 0 <= i < |board| :: board[i].row == ordered[i];
    assert (set i | 0 <= i < |board| :: board[i].row.user) == set i | 0 <= i < |ordered| :: ordered[i].user;
    forall i | 0 <= i < |board|
      ensures board[i].row.user in names
      ensures board[i].row == RowOf(c, from, names, subs, board[i].row.user) && AddsUp(c.scoring, board[i].row)
      ensures board[i].rank == Place(c, from, names, subs, board[i].row)
    {
      assert ordered[i] in multiset(ordered);
      RowIsCorrect(c, from, names, subs, keys, listed, ordered[i]);
      RowAddsUp(c, from, names, subs, ordered[i].user);
    }
    forall i, j | 0 <= i < j < |board| ensures ListedBefore(c.scoring, board[i].row, board[j].row) {
      ListerLists(c.scoring, ordered[i], ordered[j]);
    }
  }

  lemma ListerLists(scoring: Scoring, a: Row, b: Row)
    ensures Lister(scoring)(a, b) == ListedBefore(scoring, a, b)
  {
  }

  lemma UsersAreEntrants(c: Contest, from: Option<int>, names: map<int, string>, subs: seq<Submission>,
                         keys: seq<int>, listed: seq<Row>, ordered: seq<Row>)
    requires forall u :: u in keys <==> u in Entrants(c, subs)
    requires Lists(c, from, names, subs, keys, listed) && multiset(ordered) == multiset(listed)
    ensures (set i | 0 <= i < |ordered| :: ordered[i].user) == Entrants(c, subs)
  {
    hide Entrants, RowOf;
    var users := set i | 0 <= i < |ordered| :: ordered[i].user;
    forall u | u in Entrants(c, subs) ensures u in users {
      var i := EntrantIsListed(c, from, names, subs, keys, listed, ordered, u);
      assert ordered[i].user == u;
    }
    forall u | u in users ensures u in Entrants(c, subs) {
      var i :| 0 <= i < |ordered| && ordered[i].user == u;
      assert ordered[i] in multiset(ordered);
      var k := Locate(ordered[i], listed);
      UserOfRow(c, from, names, subs, keys[k]);
    }
  }

  lemma RowIsCorrect(c: Contest, from: Option<int>, names: map<int, string>, subs: seq<Submission>,
                     keys: seq<int>, listed: seq<Row>, row: Row)
    requires Entrants(c, subs) <= names.Keys
    requires NoRepeats(keys) && (forall u :: u in keys <==> u in Entrants(c, subs))
    requires Lists(c, from, names, subs, keys, listed)
    requires row in multiset(listed)
    ensures row.user in keys && row.user in names && row == RowOf(c, from, names, subs, row.user)
    ensures 1 + Ahead(Ranker(c.scoring), listed, row) == Place(c, from, names, subs, row)
  {
    hide Ahead, RowOf, Better;
    var k := Locate(row, listed);
    UserOfRow(c, from, names, subs, keys[k]);
    AheadIsCount(c, from, names, subs, keys, listed, row);
    assert (set u | u in keys && Better(c.scoring, RowOf(c, from, names, subs, u), row)) ==
      (set u | u in Entrants(c, subs) && Better(c.scoring, RowOf(c, from, names, subs, u), row));
  }

  lemma EntrantIsListed(c: Contest, from: Option<int>, names: map<int, string>, subs: seq<Submission>,
                        keys: seq<int>, listed: seq<Row>, ordered: seq<Row>, user: int) returns (i: nat)
    requires Lists(c, from, names, subs, keys, listed)
    requires multiset(ordered) == multiset(listed)
    requires user in keys
    ensures i < |ordered| && ordered[i].user == user
  {
    hide RowOf;
    var k :| 0 <= k < |keys| && keys[k] == user;
    UserOfRow(c, from, names, subs, user);
    assert listed[k] in multiset(listed);
    i := Locate(listed[k], ordered);
  }

  lemma UserOfRow(c: Contest, from: Option<int>, names: map<int, string>, subs: seq<Submission>, user: int)
    requires user in names
    ensures RowOf(c, from, names, subs, user).user == user
  {
  }

  predicate DistinctUsers(rows: seq<Row>) {
    forall i, j | 0 <= i < j < |rows| :: rows[i].user != rows[j].user
  }

  lemma UsersStayDistinct(c: Contest, from: Option<int>, names: map<int, string>, subs: seq<Submission>,
                          keys: seq<int>, listed: seq<Row>, ordered: seq<Row>)
    requires NoRepeats(keys) && Lists(c, from, names, subs, keys, listed)
    requires multiset(ordered) == multiset(listed)
    ensures DistinctUsers(ordered)
  {
    hide RowOf;
    forall u | u in keys && u in names ensures RowOf(c, from, names, subs, u).user == u {
      UserOfRow(c, from, names, subs, u);
    }
    DistinctIgnoresOrder(listed, ordered);
  }

  lemma WithoutDistinct(rows: seq<Row>, k: nat, x: Row)
    requires DistinctUsers(rows) && k < |rows|
    ensures DistinctUsers(Without(rows, k))
    ensures x in multiset(Without(rows, k)) ==> x.user != rows[k].user
  {
    if x in multiset(Without(rows, k)) {
      var m := Locate(x, Without(rows, k));
      assert x == rows[if m < k then m else m + 1];
    }
  }

  lemma {:induction false} DistinctIgnoresOrder(a: seq<Row>, b: seq<Row>)
    requires multiset(a) == multiset(b) && DistinctUsers(a)
    ensures DistinctUsers(b)
    decreases |b|
  {
    if b != [] {
      assert b[0] in multiset(a);
      var k := Locate(b[0], a);
      TailElements(b);
      WithoutElements(a, k);
      WithoutDistinct(a, k, b[0]);
      DistinctIgnoresOrder(Without(a, k), b[1..]);
      forall j | 0 < j < |b| ensures b[0].user != b[j].user {
        assert b[j] in multiset(b[1..]) by { assert b[1..][j - 1] == b[j]; }
        WithoutDistinct(a, k, b[j]);
      }
    }
  }
}
