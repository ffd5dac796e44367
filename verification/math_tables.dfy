/** A table's rows and cells against the breaks between its tokens, and what each single token becomes. */
module MathTables {
  import opened Options
  import opened Escape
  import opened MathTokens
  import opened MathMarkup
  import opened MathTree
  import opened MathUnfold
  import opened MathContent
  import opened MathSpans

  /** Rows of cells of items, written out with a mark between cells and one between rows. */
  datatype Mark = NewRow | NewCell | Item(m: Markup)

  function MarksOfCell(items: seq<Markup>): seq<Mark> {
    if items == [] then [] else MarksOfCell(items[..|items| - 1]) + [Item(items[|items| - 1])]
  }

  function MarksOfRow(cells: seq<seq<Markup>>): seq<Mark> {
    if cells == [] then []
    else if |cells| == 1 then MarksOfCell(cells[0])
    else MarksOfRow(cells[..|cells| - 1]) + [NewCell] + MarksOfCell(cells[|cells| - 1])
  }

  function MarksOfRows(rows: seq<seq<seq<Markup>>>): seq<Mark> {
    if rows == [] then []
    else if |rows| == 1 then MarksOfRow(rows[0])
    else MarksOfRows(rows[..|rows| - 1]) + [NewRow] + MarksOfRow(rows[|rows| - 1])
  }

  /** The same for the tokens of a table: `&` begins a cell, a doubled backslash a row, and every unit is an item. */
  function MarksOfParts(tables: Tables, tokens: seq<Token>, display: bool, ts: Trees, from: nat): seq<Mark> {
    if ts == NoTrees then []
    else
      var p := from + SizeAll(ts.before);
      MarksOfParts(tables, tokens, display, ts.before, from)
        + [if p < |tokens| && tokens[p].Amp? then NewCell
           else if p < |tokens| && tokens[p] == Esc("\\") then NewRow
           else Item(Print(tables, tokens, display, ts.last, p))]
  }

  lemma ItemMarked(items: seq<Markup>, m: Markup)
    ensures MarksOfCell(items + [m]) == MarksOfCell(items) + [Item(m)]
  {
    assert (items + [m])[..|items|] == items;
  }

  lemma CellReplaced(cells: seq<seq<Markup>>, last: seq<Markup>, m: Markup)
    requires cells != [] && last == cells[|cells| - 1]
    ensures MarksOfRow(cells[|cells| - 1 := last + [m]]) == MarksOfRow(cells) + [Item(m)]
  {
    hide MarksOfCell;
    ItemMarked(last, m);
    var more := cells[|cells| - 1 := last + [m]];
    assert more[..|cells| - 1] == cells[..|cells| - 1];
  }

  lemma RowReplaced(rows: seq<seq<seq<Markup>>>, last: seq<seq<Markup>>, extra: seq<Mark>)
    requires rows != [] && MarksOfRow(last) == MarksOfRow(rows[|rows| - 1]) + extra
    ensures MarksOfRows(rows[|rows| - 1 := last]) == MarksOfRows(rows) + extra
  {
    hide MarksOfRow;
    var more := rows[|rows| - 1 := last];
    assert more[..|rows| - 1] == rows[..|rows| - 1];
  }

  lemma WithItemMarked(rows: Rows, item: Markup)
    ensures MarksOfRows(WithItem(rows, item)) == MarksOfRows(rows) + [Item(item)]
  {
    hide MarksOfRow, MarksOfRows;
    var cells := rows[|rows| - 1];
    CellReplaced(cells, cells[|cells| - 1], item);
    RowReplaced(rows, cells[|cells| - 1 := cells[|cells| - 1] + [item]], [Item(item)]);
  }

  lemma NewCellMarked(cells: seq<seq<Markup>>)
    requires cells != []
    ensures MarksOfRow(cells + [[]]) == MarksOfRow(cells) + [NewCell]
  {
    var more: seq<seq<Markup>> := cells + [[]];
    assert more[..|cells|] == cells;
    assert MarksOfCell([]) == [];
  }

  lemma NewRowMarked(rows: Rows)
    ensures MarksOfRows(rows + [[[]]]) == MarksOfRows(rows) + [NewRow]
  {
    hide MarksOfCell;
    var more: seq<seq<seq<Markup>>> := rows + [[[]]];
    assert more[..|rows|] == rows;
    EmptyCell();
  }

  lemma EmptyCell()
    ensures MarksOfRow([[]]) == []
  {
  }

  lemma WithBreakMarked(rows: Rows, cell: bool)
    ensures MarksOfRows(WithBreak(rows, cell)) == MarksOfRows(rows) + [if cell then NewCell else NewRow]
  {
    hide MarksOfRow, MarksOfRows;
    if cell {
      NewCellMarked(rows[|rows| - 1]);
      RowReplaced(rows, rows[|rows| - 1] + [[]], [NewCell]);
    } else {
      NewRowMarked(rows);
    }
  }

  lemma PartIsMarked(tables: Tables, tokens: seq<Token>, display: bool, ts: Trees, t: Tree, from: nat)
    ensures
      var p := from + SizeAll(ts);
      MarksOfParts(tables, tokens, display, More(ts, t), from) ==
        MarksOfParts(tables, tokens, display, ts, from)
          + [if p < |tokens| && tokens[p].Amp? then NewCell
             else if p < |tokens| && tokens[p] == Esc("\\") then NewRow
             else Item(Print(tables, tokens, display, t, p))]
  {
    hide Print, SizeAll;
  }

  /** The rows and cells of a table are exactly what the breaks among its tokens make of its units. */
  lemma {:induction false} RowsFollowBreaks(tables: Tables, tokens: seq<Token>, display: bool, ts: Trees, from: nat)
    requires AreParts(tables, tokens, ts, from)
    ensures MarksOfRows(RowsOf(tables, tokens, display, ts, from)) == MarksOfParts(tables, tokens, display, ts, from)
  {
    hide MarksOfRows, MarksOfParts, RowsOf, WithItem, WithBreak, Print, SizeAll, IsUnit, EndAt;
    if ts == NoTrees {
      NoParts(tables, tokens, display, from);
    } else {
      var p := from + SizeAll(ts.before);
      var rows := RowsOf(tables, tokens, display, ts.before, from);
      RowsFollowBreaks(tables, tokens, display, ts.before, from);
      PartIsMarked(tables, tokens, display, ts.before, ts.last, from);
      assert ts == More(ts.before, ts.last);
      if BreakAt(tokens, p) {
        BreakRows(tables, tokens, display, ts.before, from);
        WithBreakMarked(rows, tokens[p].Amp?);
      } else {
        PartRows(tables, tokens, display, ts.before, ts.last, from);
        WithItemMarked(rows, Print(tables, tokens, display, ts.last, p));
      }
    }
  }

  lemma NoParts(tables: Tables, tokens: seq<Token>, display: bool, from: nat)
    ensures MarksOfRows(RowsOf(tables, tokens, display, NoTrees, from)) ==
            MarksOfParts(tables, tokens, display, NoTrees, from)
  {
    EmptyCell();
    var rows: seq<seq<seq<Markup>>> := [[[]]];
    assert MarksOfRows(rows) == MarksOfRow(rows[0]);
  }

  // -------------------------------------------------------------------- The elements of a table

  predicate IsCell(td: Markup, items: seq<Markup>) {
    td == [Start("mtd", "")] + Gathered(items) + [End("mtd")]
  }

  ghost predicate IsTableRow(tr: Markup, cells: seq<seq<Markup>>) {
    exists tds: seq<Markup> ::
      && |tds| == |cells| && (forall j | 0 <= j < |cells| :: IsCell(tds[j], cells[j]))
      && tr == [Start("mtr", "")] + Joined(tds) + [End("mtr")]
  }

  lemma {:induction false} CellsAreCells(cells: seq<seq<Markup>>)
    ensures |CellsMarkup(cells)| == |cells| && forall j | 0 <= j < |cells| :: IsCell(CellsMarkup(cells)[j], cells[j])
  {
    hide Gathered, Wrap;
    if cells != [] {
      var n := |cells| - 1;
      CellsAreCells(cells[..n]);
      GatheredIs(cells[n]);
      assert IsCell(Cell(cells[n]), cells[n]);
      assert forall j | 0 <= j < n :: cells[..n][j] == cells[j];
    }
  }

  lemma RowIsRow(cells: seq<seq<Markup>>)
    ensures IsTableRow(Element("mtr", "", Joined(CellsMarkup(cells))), cells)
  {
    hide Joined, IsCell, CellsMarkup;
    CellsAreCells(cells);
  }

  lemma {:induction false} RowsAreRows(rows: seq<seq<seq<Markup>>>)
    ensures |RowsMarkup(rows)| == |rows|
    ensures forall i | 0 <= i < |rows| :: IsTableRow(RowsMarkup(rows)[i], rows[i])
  {
    hide IsTableRow, Joined, CellsMarkup, Element;
    if rows != [] {
      var n := |rows| - 1;
      RowsAreRows(rows[..n]);
      RowIsRow(rows[n]);
      assert forall i | 0 <= i < n :: rows[..n][i] == rows[i];
    }
  }

  /** The height of a fence beside that many rows, in ems: it grows with them, up to four. */
  function Height(rows: nat): string {
    match rows
    case 0 => "1.00"
    case 1 => "1.00"
    case 2 => "2.15"
    case 3 => "3.30"
    case _ => "4.00"
  }

  /** A fence beside a table, as tall as its rows need. */
  function TableFence(rows: nat, text: string): Markup {
    if text == "" then []
    else
      [Start("mo", " stretchy=\"true\" style=\"font-size:" + Height(rows) + "em\""), Text(MathEscaped(text)),
       End("mo")]
  }

  lemma GrownIs(rows: nat)
    ensures GrownAttributes(rows) == " stretchy=\"true\" style=\"font-size:" + Height(rows) + "em\""
  {
    assert STRETCHY == " stretchy=\"true\"" && Grown(rows) == Height(rows);
  }

  /** An environment: its fences around a table whose rows and cells are the breaks' and whose items are its units. */
  lemma TableSpans(tables: Tables, tokens: seq<Token>, display: bool, t: Tree, from: nat)
    returns (parts: Trees, rows: seq<seq<seq<Markup>>>, trs: seq<Markup>)
    requires from < |tokens| && tokens[from].Cmd? && IsAtom(tables, tokens, t, from)
    requires tokens[from].v == "begin" && IsPlain(tables, "begin")
    ensures AreParts(tables, tokens, parts, from + 1)
    ensures Size(t) == 1 + SizeAll(parts) + One(EndAt(tokens, from + 1 + SizeAll(parts)))
    ensures MarksOfRows(rows) == MarksOfParts(tables, tokens, display, parts, from + 1)
    ensures |rows| == |trs| && forall i | 0 <= i < |rows| :: IsTableRow(trs[i], rows[i])
    ensures
      var name := RawText(tokens[from].raw);
      var fences := FencesOf(tables, name);
      Print(tables, tokens, display, t, from) ==
        [Start("mrow", "")] + TableFence(|rows|, fences.0)
          + [Start("mtable", if name == "cases" then " columnalign=\"left\"" else "")] + Joined(trs) + [End("mtable")]
          + TableFence(|rows|, fences.1) + [End("mrow")]
  {
    hide Print, PrintAll, Size, SizeAll, FormOf, IsArgument, IsRow, AreArguments, AreParts, RowEnds, Count, Joined,
         EndAt, RowsOf, MarksOfRows, MarksOfParts, TableMarkup, TableFence, IsTableRow, RowsMarkup, FencesOf;
    PlainForms(tables, "begin");
    parts := t.parts;
    rows := RowsOf(tables, tokens, display, parts, from + 1);
    trs := RowsMarkup(rows);
    TablePrints(tables, tokens, display, parts, t.closed, from);
    RowsFollowBreaks(tables, tokens, display, parts, from + 1);
    RowsAreRows(rows);
    TableMarkupIs(tables, RawText(tokens[from].raw), rows);
  }

  lemma TableMarkupIs(tables: Tables, name: string, rows: seq<seq<seq<Markup>>>)
    ensures
      var fences := FencesOf(tables, name);
      TableMarkup(tables, name, rows) ==
        [Start("mrow", "")] + TableFence(|rows|, fences.0)
          + [Start("mtable", if name == "cases" then " columnalign=\"left\"" else "")] + Joined(RowsMarkup(rows))
          + [End("mtable")] + TableFence(|rows|, fences.1) + [End("mrow")]
  {
    hide Joined, RowsMarkup, FencesOf, Sized, TableFence, Element, TableMarkup, ALIGNED_LEFT;
    var fences, body := FencesOf(tables, name), Joined(RowsMarkup(rows));
    var attributes := if name == "cases" then ALIGNED_LEFT else "";
    SizedIs(|rows|, fences.0);
    SizedIs(|rows|, fences.1);
    LeftIs();
    FencesAround(tables, name, rows, attributes);
    Between(TableFence(|rows|, fences.0), attributes, body, TableFence(|rows|, fences.1));
  }

  lemma LeftIs()
    ensures ALIGNED_LEFT == " columnalign=\"left\""
  {
  }

  lemma FencesAround(tables: Tables, name: string, rows: seq<seq<seq<Markup>>>, attributes: string)
    requires attributes == if name == "cases" then ALIGNED_LEFT else ""
    ensures
      var table := Element("mtable", attributes, Joined(RowsMarkup(rows)));
      TableMarkup(tables, name, rows) ==
        Element("mrow", "", Sized(|rows|, FencesOf(tables, name).0) + table + Sized(|rows|, FencesOf(tables, name).1))
  {
    hide Joined, RowsMarkup, FencesOf, Sized, Element, ALIGNED_LEFT;
    var (open, close) := FencesOf(tables, name);
    if open == "" && close == "" {
      NoFence(|rows|);
      SizedIs(|rows|, "");
      var table := Element("mtable", attributes, Joined(RowsMarkup(rows)));
      assert [] + table + [] == table;
    }
  }

  lemma NoFence(rows: nat)
    ensures TableFence(rows, "") == []
  {
  }

  lemma SizedIs(rows: nat, text: string)
    ensures Sized(rows, text) == TableFence(rows, text)
  {
    hide GrownAttributes, MathEscaped, Height;
    GrownIs(rows);
  }

  lemma Between(a: Markup, attributes: string, body: Markup, b: Markup)
    ensures Element("mrow", "", a + Element("mtable", attributes, body) + b) ==
            [Start("mrow", "")] + a + [Start("mtable", attributes)] + body + [End("mtable")] + b + [End("mrow")]
  {
  }

  // ------------------------------------------------------------------------- Single tokens

  /** A token on its own in an element. */
  function Single(tag: string, attributes: string, text: string): Markup {
    [Start(tag, attributes), Text(text), End(tag)]
  }

  /** Numbers, identifiers and operators; a sign that is unary says so. */
  lemma SymbolSpans(tables: Tables, tokens: seq<Token>, display: bool, from: nat)
    requires from < |tokens|
    ensures
      var m := Print(tables, tokens, display, Leaf, from);
      && (tokens[from].Num? ==> m == Single("mn", "", tokens[from].v))
      && (tokens[from].Ident? ==> m == Single("mi", "", tokens[from].v))
      && (tokens[from] == Op("-") || tokens[from] == Op("+") ==>
            m == Single("mo", if IsUnary(tables, tokens, from) then PREFIX else "",
                        if tokens[from] == Op("-") then "\U{2212}" else "+"))
      && (tokens[from].Op? && tokens[from].v !in {"-", "+"} ==> m == Single("mo", "", OpGlyph(tokens[from].v)))
  {
    hide IsUnary, PREFIX;
    LeafPrints(tables, tokens, display, from);
  }

  /** A sign is unary where nothing stands before it for it to join: at the start, and after another operator, an
      opening brace, a script mark or a cell break; after a number, an identifier or a closing mark it is not. */
  lemma SignsAreUnary(tables: Tables, tokens: seq<Token>, p: nat)
    requires p < |tokens|
    ensures p == 0 ==> IsUnary(tables, tokens, p)
    ensures p > 0 && (tokens[p - 1].Num? || tokens[p - 1].Ident? || tokens[p - 1].Close? || tokens[p - 1].Esc?) ==>
      !IsUnary(tables, tokens, p)
    ensures p > 0 && tokens[p - 1].Op? && tokens[p - 1].v in {")", "]"} ==> !IsUnary(tables, tokens, p)
    ensures p > 0 && tokens[p - 1].Op? && tokens[p - 1].v in {"(", "[", "=", "<", ",", "+", "-", "|"} ==>
      IsUnary(tables, tokens, p)
    ensures p > 0 && (tokens[p - 1].Open? || tokens[p - 1].Amp? || tokens[p - 1].Sub? || tokens[p - 1].Sup?) ==>
      IsUnary(tables, tokens, p)
  {
  }

  /** Words of the tables, each by the first table that holds it, and words no table knows. */
  lemma WordSpans(tables: Tables, name: string, raw: Option<string>)
    ensures
      var m := FixedMarkup(tables, name, raw);
      && (name in tables.greek ==> m == Single("mi", "", tables.greek[name]))
      && (!Found(tables.greek, name) && name in tables.symbols ==>
            m == Single("mo", "", MathEscaped(tables.symbols[name])))
      && (!Found(tables.greek, name) && !Found(tables.symbols, name) && name in tables.big ==>
            m == Single("mo", BIG_OPERATOR, MathEscaped(tables.big[name])))
      && (!Found(tables.greek, name) && IsPlain(tables, name) && name in {"text", "textrm", "mbox"} ==>
            m == Single("mtext", "", Pinned(MathEscaped(RawText(raw)))))
      && (!Found(tables.greek, name) && IsPlain(tables, name) && name !in TEXTS + OTHER_FIXED ==>
            m == Single("mi", NORMAL, MathEscaped("\\" + name)))
  {
    hide INHERITED, MathEscaped, Pinned, BIG_OPERATOR, NORMAL;
  }

  /** A delimiter shows what its table says; without an entry a token shows itself, but a command nothing. */
  lemma DelimitersShow(tables: Tables, t: Token)
    ensures
      var shown := DelimiterText(tables, t);
      && (t.Cmd? ==> shown == if "\\" + t.v in tables.delimiters then tables.delimiters["\\" + t.v] else "")
      && (t.Esc? ==> shown == if "\\" + t.v in tables.delimiters then tables.delimiters["\\" + t.v] else t.v)
      && (t.Op? && t.v in tables.delimiters ==> shown == tables.delimiters[t.v])
      && (t.Op? && t.v !in tables.delimiters && t.v !in INHERITED ==> shown == t.v)
  {
    hide INHERITED;
  }

  // ------------------------------------------------------------------------------ Texts

  /** Spaces at either end become non-breaking; everything else stays as it is. */
  predicate IsPinned(s: string, p: string) {
    && |p| == |s|
    && (forall i | 0 <= i < |s| :: p[i] == s[i] || (s[i] == ' ' && p[i] == '\U{00A0}'))
    && (s != "" ==> p[0] != ' ' && p[|s| - 1] != ' ')
    && (forall i, j | 0 <= i < j < |s| && s[i] != ' ' && p[j] != s[j] :: forall k | j <= k < |s| :: s[k] == ' ')
  }

  lemma {:induction false} PinnedEndIs(s: string)
    ensures |PinnedEnd(s)| == |s|
    ensures forall i | 0 <= i < |s| :: PinnedEnd(s)[i] == s[i] || (s[i] == ' ' && PinnedEnd(s)[i] == '\U{00A0}')
    ensures s != "" ==> PinnedEnd(s)[|s| - 1] != ' '
    ensures forall j | 0 <= j < |s| && PinnedEnd(s)[j] != s[j] :: forall k | j <= k < |s| :: s[k] == ' '
  {
    if s != "" && s[|s| - 1] == ' ' {
      PinnedEndIs(s[..|s| - 1]);
    }
  }

  lemma PinnedText(s: string)
    ensures IsPinned(s, Pinned(s))
  {
    hide PinnedEnd;
    var start := RunEnd(s, 0, c => c == ' ');
    var rest := s[start..];
    PinnedEndIs(rest);
    var p := Pinned(s);
    assert p == Blanks(start) + PinnedEnd(rest);
    forall i | 0 <= i < |s|
      ensures p[i] == if i < start then '\U{00A0}' else PinnedEnd(rest)[i - start]
      ensures i < start ==> s[i] == ' '
      ensures i >= start ==> s[i] == rest[i - start]
    {
    }
    forall i, j | 0 <= i < j < |s| && s[i] != ' ' && p[j] != s[j] ensures forall k | j <= k < |s| :: s[k] == ' ' {
      assert PinnedEnd(rest)[j - start] != rest[j - start];
      forall k | j <= k < |s| ensures s[k] == ' ' {
        assert rest[k - start] == ' ';
      }
    }
  }
}
