/** What a formula shows, read from its markup, against its tokens in their order. */
module MathContent {
  import opened Options
  import opened Escape
  import opened MathTokens
  import opened MathMarkup
  import opened MathTree
  import opened MathUnfold
  import opened MathRender

  // ------------------------------------------------------------------ What markup shows

  /** The pieces that can be seen: texts, and spaces of some width. */
  predicate IsVisible(p: Piece) {
    p.Text? || (p.Start? && p.tag == "mspace")
  }

  /** What markup shows, from left to right, without the elements it stands in. */
  function Content(m: Markup): seq<Piece> {
    if m == [] then [] else (if IsVisible(m[0]) then [m[0]] else []) + Content(m[1..])
  }

  lemma {:induction false} ContentBoth(a: Markup, b: Markup)
    ensures Content(a + b) == Content(a) + Content(b)
  {
    if a == [] {
      assert a + b == b;
    } else {
      assert (a + b)[1..] == a[1..] + b;
      ContentBoth(a[1..], b);
    }
  }

  lemma ContentPiece(p: Piece)
    ensures Content([p]) == if IsVisible(p) then [p] else []
  {
    assert [p][1..] == [];
  }

  /** An element adds nothing of its own. */
  lemma ContentElement(tag: string, attributes: string, body: Markup)
    ensures Content(Element(tag, attributes, body)) ==
            (if tag == "mspace" then [Start(tag, attributes)] else []) + Content(body)
  {
    hide Content;
    ContentBoth([Start(tag, attributes)] + body, [End(tag)]);
    ContentBoth([Start(tag, attributes)], body);
    ContentPiece(Start(tag, attributes));
    ContentPiece(End(tag));
  }

  lemma ContentLeaf(tag: string, attributes: string, text: string)
    requires tag != "mspace"
    ensures Content(Leaf1(tag, attributes, text)) == [Text(text)]
  {
    ContentElement(tag, attributes, [Text(text)]);
    ContentPiece(Text(text));
  }

  lemma ContentSpace(attributes: string)
    ensures Content(Element("mspace", attributes, [])) == [Start("mspace", attributes)]
  {
    ContentElement("mspace", attributes, []);
  }

  function ContentAll(items: seq<Markup>): seq<Piece> {
    if items == [] then [] else ContentAll(items[..|items| - 1]) + Content(items[|items| - 1])
  }

  lemma {:induction false} ContentJoined(items: seq<Markup>)
    ensures Content(Joined(items)) == ContentAll(items)
  {
    hide Content;
    if items == [] {
      ContentNothing();
    } else {
      ContentJoined(items[..|items| - 1]);
      ContentBoth(Joined(items[..|items| - 1]), items[|items| - 1]);
    }
  }

  lemma ContentNothing()
    ensures Content([]) == []
  {
  }

  lemma ContentOneMore(items: seq<Markup>, m: Markup)
    ensures ContentAll(items + [m]) == ContentAll(items) + Content(m)
  {
    hide Content;
    assert (items + [m])[..|items|] == items;
  }

  lemma ContentWrap(items: seq<Markup>)
    ensures Content(Wrap(items)) == ContentAll(items)
  {
    hide Content;
    if |items| == 1 {
      ContentOneMore([], items[0]);
      assert [] + [items[0]] == items;
    } else {
      ContentElement("mrow", "", Joined(items));
      ContentJoined(items);
    }
  }

  // ----------------------------------------------------------------- What a token shows

  const FRACTIONS: set<string> := {"frac", "dfrac", "tfrac", "cfrac"}
  const BINOMIALS: set<string> := {"binom", "dbinom", "tbinom"}
  const TEXTS: set<string> := {"text", "textrm", "mbox", "textbf", "textit", "texttt", "textsf"}

  /** The text of a command that takes nothing, or the space it makes. */
  function WordGlyph(tables: Tables, name: string, raw: Option<string>): seq<Piece> {
    if Found(tables.greek, name) then [Text(Value(tables.greek, name))]
    else if Found(tables.symbols, name) then [Text(MathEscaped(Value(tables.symbols, name)))]
    else if Found(tables.big, name) then [Text(MathEscaped(Value(tables.big, name)))]
    else if name in tables.functions || name in tables.limitFunctions then [Text(name)]
    else if Found(tables.spacing, name) then [Start("mspace", Quoted(" width=", Value(tables.spacing, name)))]
    else if name in TEXTS then [Text(Pinned(MathEscaped(RawText(raw))))]
    else if name == "operatorname" then [Text(MathEscaped(RawText(raw)))]
    else if name == "bmod" then [Text("mod")]
    else if name in OTHER_FIXED then []
    else [Text(MathEscaped("\\" + name))]
  }

  function OpGlyph(v: string): string {
    if v == "-" then "\U{2212}" else if v == "'" then "\U{2032}" else MathEscaped(v)
  }

  /** What a token shows where it stands for itself. */
  function Glyph(tables: Tables, token: Token): seq<Piece> {
    match token
    case Num(v) => [Text(v)]
    case Ident(v) => [Text(v)]
    case Op(v) => [Text(OpGlyph(v))]
    case Amp => [Text("&amp;")]
    case Esc(v) =>
      if v == "\\" then [Start("mspace", NEWLINE)]
      else if Found(tables.spacing, v) then [Start("mspace", Quoted(" width=", Value(tables.spacing, v)))]
      else [Text(MathEscaped(v))]
    case Cmd(v, raw) => WordGlyph(tables, v, raw)
    case _ => []
  }

  lemma PlusIsItself()
    ensures MathEscaped("+") == "+"
  {
  }

  lemma WordShows(tables: Tables, name: string, raw: Option<string>)
    ensures Content(FixedMarkup(tables, name, raw)) == WordGlyph(tables, name, raw)
  {
    hide Found, Value, Content, Pinned, NORMAL, BOLD, ITALIC, MONOSPACE, SANS_SERIF, MOD, FUNCTION, LIMIT_FUNCTION,
         BIG_OPERATOR, Element, Leaf1;
    forall tag, attributes, text | tag in {"mi", "mo", "mtext"}
      ensures Content(Leaf1(tag, attributes, text)) == [Text(text)]
    {
      ContentLeaf(tag, attributes, text);
    }
    forall attributes ensures Content(Element("mspace", attributes, [])) == [Start("mspace", attributes)] {
      ContentSpace(attributes);
    }
    ContentNothing();
  }

  lemma LeafShows(tables: Tables, tokens: seq<Token>, p: nat)
    requires p < |tokens|
    ensures Content(LeafMarkup(tables, tokens, p)) == Glyph(tables, tokens[p])
  {
    hide Content, FixedMarkup, WordGlyph, IsUnary, Found, Value, Element, Leaf1, PREFIX, NEWLINE;
    forall tag, attributes, text | tag in {"mi", "mo", "mn"}
      ensures Content(Leaf1(tag, attributes, text)) == [Text(text)]
    {
      ContentLeaf(tag, attributes, text);
    }
    forall attributes ensures Content(Element("mspace", attributes, [])) == [Start("mspace", attributes)] {
      ContentSpace(attributes);
    }
    ContentNothing();
    PlusIsItself();
    if tokens[p].Cmd? {
      WordShows(tables, tokens[p].v, tokens[p].raw);
    }
  }

  // ----------------------------------------------------------- What a command adds of its own

  /** What is shown before the arguments of a command. */
  function Opening(name: string): seq<Piece> {
    if name in BINOMIALS then [Text("(")]
    else if name == "pmod" then [Start("mspace", GAP_BEFORE), Text("("), Text("mod"), Start("mspace", GAP_INSIDE)]
    else []
  }

  /** What is shown after them. */
  function Closing(tables: Tables, name: string): seq<Piece> {
    if name in BINOMIALS || name == "pmod" then [Text(")")]
    else if name == "overbrace" then [Text("\U{23DE}")]
    else if name == "underbrace" then [Text("\U{23DF}")]
    else if name in FRACTIONS + {"sqrt", "substack"} || Found(tables.variants, name) then []
    else if Found(tables.accents, name) then [Text(MathEscaped(Value(tables.accents, name)))]
    else [Text("_")]
  }

  lemma NamesApart(name: string)
    ensures name in FRACTIONS ==>
      name !in BINOMIALS && name != "pmod" && name != "overbrace" && name != "underbrace"
    ensures name in BINOMIALS ==> name != "pmod"
  {
  }

  lemma StretchyShows(text: string)
    ensures Content(Stretchy(text)) == [Text(text)]
  {
    ContentLeaf("mo", STRETCHY, text);
  }

  lemma BetweenMarks(a: Markup, x: Markup, b: Markup)
    ensures Content(Element("mrow", "", a + x + b)) == Content(a) + Content(x) + Content(b)
  {
    hide Content, Element;
    ContentElement("mrow", "", a + x + b);
    ContentBoth(a + x, b);
    ContentBoth(a, x);
  }

  lemma BinomialShows(x: Markup)
    ensures Content(Element("mrow", "", Stretchy("(") + Element("mfrac", NO_LINE, x) + Stretchy(")"))) ==
            [Text("(")] + Content(x) + [Text(")")]
  {
    hide Content, Element, Stretchy, NO_LINE;
    BetweenMarks(Stretchy("("), Element("mfrac", NO_LINE, x), Stretchy(")"));
    StretchyShows("(");
    StretchyShows(")");
    ContentElement("mfrac", NO_LINE, x);
  }

  lemma PmodShows(x: Markup)
    ensures
      Content(Element("mrow", "", Element("mspace", GAP_BEFORE, []) + Leaf1("mo", "", "(") + Leaf1("mi", NORMAL, "mod")
        + Element("mspace", GAP_INSIDE, []) + x + Leaf1("mo", "", ")"))) ==
      [Start("mspace", GAP_BEFORE), Text("("), Text("mod"), Start("mspace", GAP_INSIDE)] + Content(x) + [Text(")")]
  {
    hide Content, Element, Leaf1, GAP_BEFORE, GAP_INSIDE, NORMAL;
    var a, b, c, d := Element("mspace", GAP_BEFORE, []), Leaf1("mo", "", "("), Leaf1("mi", NORMAL, "mod"),
                      Element("mspace", GAP_INSIDE, []);
    BetweenMarks(a + b + c + d, x, Leaf1("mo", "", ")"));
    ContentBoth(a + b + c, d);
    ContentBoth(a + b, c);
    ContentBoth(a, b);
    ContentSpace(GAP_BEFORE);
    ContentSpace(GAP_INSIDE);
    ContentLeaf("mo", "", "(");
    ContentLeaf("mi", NORMAL, "mod");
    ContentLeaf("mo", "", ")");
  }

  lemma MarkedShows(tag: string, attributes: string, x: Markup, more: string, mark: string)
    requires tag == "mover" || tag == "munder"
    ensures Content(Element(tag, attributes, x + Leaf1("mo", more, mark))) == Content(x) + [Text(mark)]
  {
    hide Content, Element, Leaf1;
    ContentElement(tag, attributes, x + Leaf1("mo", more, mark));
    ContentBoth(x, Leaf1("mo", more, mark));
    ContentLeaf("mo", more, mark);
  }

  lemma TwoShown(x: Markup, y: Markup)
    ensures ContentAll([x, y]) == Content(x) + Content(y) && ContentAll([x]) == Content(x)
    ensures Content(x + y) == Content(x) + Content(y)
  {
    hide Content;
    ContentBoth(x, y);
    ContentOneMore([], x);
    ContentOneMore([x], y);
    assert [] + [x] == [x] && [x] + [y] == [x, y];
  }

  /** The form of a command says how many arguments it has. */
  predicate TakesArguments(tables: Tables, name: string, n: nat) {
    FormOf(tables, name) == Arguments(n) || (FormOf(tables, name).SquareRoot? && n == 1)
  }

  predicate TakesOne(tables: Tables, name: string) {
    || name in {"sqrt", "pmod", "overbrace", "underbrace", "substack", "underline"}
    || Found(tables.variants, name) || Found(tables.accents, name)
  }

  lemma TwoOrOne(tables: Tables, name: string, n: nat)
    requires TakesArguments(tables, name, n)
    ensures n == if name in FRACTIONS + BINOMIALS then 2 else 1
    ensures n == 1 ==> TakesOne(tables, name)
  {
    hide Found, OTHER_FIXED;
  }

  lemma TwoArgumentsShow(tables: Tables, name: string, x: Markup, y: Markup)
    requires name in FRACTIONS + BINOMIALS
    ensures Content(CommandMarkup(tables, name, [x, y])) ==
            Opening(name) + ContentAll([x, y]) + Closing(tables, name)
  {
    hide Content, Element, Stretchy, NO_LINE, ContentAll, Found, Value;
    TwoShown(x, y);
    if name in FRACTIONS {
      NamesApart(name);
      ContentElement("mfrac", "", x + y);
    } else {
      BinomialShows(x + y);
    }
  }

  lemma OneArgumentShows(tables: Tables, name: string, x: Markup)
    requires name !in FRACTIONS + BINOMIALS
    requires TakesOne(tables, name)
    ensures Content(CommandMarkup(tables, name, [x])) == Opening(name) + ContentAll([x]) + Closing(tables, name)
  {
    hide Content, Element, ContentAll, Found, Value, GAP_BEFORE, GAP_INSIDE, NORMAL, ACCENT, STRETCHY;
    TwoShown(x, x);
    assert [x][0] == x;
    if name == "sqrt" {
      ContentElement("msqrt", "", x);
    } else if name == "pmod" {
      PmodShows(x);
    } else if name == "overbrace" {
      MarkedShows("mover", "", x, STRETCHY, "\U{23DE}");
    } else if name == "underbrace" {
      MarkedShows("munder", "", x, STRETCHY, "\U{23DF}");
    } else if name != "substack" {
      MarkShows(tables, name, x);
    }
  }

  lemma MarkShows(tables: Tables, name: string, x: Markup)
    requires name !in FRACTIONS + BINOMIALS
    requires name !in {"sqrt", "pmod", "overbrace", "underbrace", "substack"}
    ensures Content(CommandMarkup(tables, name, [x])) == Content(x) + Closing(tables, name)
  {
    hide Content, Element, Found, Value, GAP_BEFORE, GAP_INSIDE, NORMAL, ACCENT, STRETCHY;
    assert [x][0] == x;
    if Found(tables.variants, name) {
      ContentElement("mstyle", Quoted(" mathvariant=", Value(tables.variants, name)), x);
    } else if Found(tables.accents, name) {
      var wide := name in {"overline", "bar", "widehat", "widetilde", "vec"};
      MarkedShows("mover", ACCENT, x, if wide then STRETCHY else "", MathEscaped(Value(tables.accents, name)));
    } else {
      MarkedShows("munder", ACCENT, x, STRETCHY, "_");
    }
  }

  /** A command shows its arguments in their order, between what it adds. */
  lemma CommandShows(tables: Tables, name: string, arguments: seq<Markup>)
    requires TakesArguments(tables, name, |arguments|)
    ensures Content(CommandMarkup(tables, name, arguments)) ==
            Opening(name) + ContentAll(arguments) + Closing(tables, name)
  {
    hide TakesArguments, TakesOne, CommandMarkup, Opening, Closing, Content, ContentAll, FRACTIONS, BINOMIALS;
    TwoOrOne(tables, name, |arguments|);
    if name in FRACTIONS + BINOMIALS {
      assert arguments == [arguments[0], arguments[1]];
      TwoArgumentsShow(tables, name, arguments[0], arguments[1]);
    } else {
      assert arguments == [arguments[0]];
      OneArgumentShows(tables, name, arguments[0]);
    }
  }

  // ---------------------------------------------------------------------------- Tables

  function ContentOfCells(cells: seq<seq<Markup>>): seq<Piece> {
    if cells == [] then [] else ContentOfCells(cells[..|cells| - 1]) + ContentAll(cells[|cells| - 1])
  }

  function ContentOfRows(rows: seq<seq<seq<Markup>>>): seq<Piece> {
    if rows == [] then [] else ContentOfRows(rows[..|rows| - 1]) + ContentOfCells(rows[|rows| - 1])
  }

  lemma {:induction false} CellsShow(cells: seq<seq<Markup>>)
    ensures ContentAll(CellsMarkup(cells)) == ContentOfCells(cells)
  {
    hide Content, Element, Wrap;
    if cells != [] {
      var most, last := cells[..|cells| - 1], cells[|cells| - 1];
      CellsShow(most);
      ContentOneMore(CellsMarkup(most), Cell(last));
      ContentElement("mtd", "", Wrap(last));
      ContentWrap(last);
    }
  }

  lemma {:induction false} RowsShow(rows: seq<seq<seq<Markup>>>)
    ensures ContentAll(RowsMarkup(rows)) == ContentOfRows(rows)
  {
    hide Content, Element, CellsMarkup;
    if rows != [] {
      var most, last := rows[..|rows| - 1], rows[|rows| - 1];
      RowsShow(most);
      var row := Element("mtr", "", Joined(CellsMarkup(last)));
      ContentOneMore(RowsMarkup(most), row);
      ContentElement("mtr", "", Joined(CellsMarkup(last)));
      ContentJoined(CellsMarkup(last));
      CellsShow(last);
    }
  }

  lemma WithItemShows(rows: Rows, item: Markup)
    ensures ContentOfRows(WithItem(rows, item)) == ContentOfRows(rows) + Content(item)
  {
    hide Content;
    var cells := rows[|rows| - 1];
    var items := cells[|cells| - 1];
    var more := cells[|cells| - 1 := items + [item]];
    ContentOneMore(items, item);
    assert more[..|more| - 1] == cells[..|cells| - 1];
    assert WithItem(rows, item)[..|rows| - 1] == rows[..|rows| - 1];
  }

  lemma WithBreakShows(rows: Rows, cell: bool)
    ensures ContentOfRows(WithBreak(rows, cell)) == ContentOfRows(rows)
  {
    hide Content;
    var cells := rows[|rows| - 1];
    var more := WithBreak(rows, cell);
    if cell {
      assert (cells + [[]])[..|cells|] == cells;
      assert more[..|rows| - 1] == rows[..|rows| - 1];
      assert more[|rows| - 1] == cells + [[]];
    } else {
      assert more[..|rows|] == rows;
      var blank: seq<seq<Markup>> := [[]];
      assert blank[..0] == [] && more[|rows|] == blank;
    }
  }

  function FenceGlyph(text: string): seq<Piece> {
    if text == "" then [] else [Text(MathEscaped(text))]
  }

  lemma SizedShows(rows: nat, text: string)
    ensures Content(Sized(rows, text)) == FenceGlyph(text)
  {
    hide Content, GrownAttributes;
    ContentNothing();
    ContentLeaf("mo", GrownAttributes(rows), MathEscaped(text));
  }

  /** A table shows its rows between the fences of its environment. */
  lemma TableShows(tables: Tables, name: string, rows: seq<seq<seq<Markup>>>)
    ensures Content(TableMarkup(tables, name, rows)) ==
            FenceGlyph(FencesOf(tables, name).0) + ContentOfRows(rows) + FenceGlyph(FencesOf(tables, name).1)
  {
    hide Content, Element, RowsMarkup, Sized, ALIGNED_LEFT;
    var (open, close) := FencesOf(tables, name);
    var attributes := if name == "cases" then ALIGNED_LEFT else "";
    var table := Element("mtable", attributes, Joined(RowsMarkup(rows)));
    ContentElement("mtable", attributes, Joined(RowsMarkup(rows)));
    ContentJoined(RowsMarkup(rows));
    RowsShow(rows);
    SizedShows(|rows|, open);
    SizedShows(|rows|, close);
    BetweenMarks(Sized(|rows|, open), table, Sized(|rows|, close));
    ContentElement("mrow", "", table);
  }

  // ----------------------------------------------------------------- What a reading shows

  function DelimiterGlyph(tables: Tables, tokens: seq<Token>, p: nat, there: bool): seq<Piece> {
    if there && p < |tokens| then FenceGlyph(DelimiterText(tables, tokens[p])) else []
  }

  /** What a construct shows, part by part in the order of its tokens. Two things are read out of order: the index of a
      root after what stands under it, and a `_` before a `^` however they were written, the last of each. */
  function Spoken(tables: Tables, tokens: seq<Token>, t: Tree, from: nat): seq<Piece> {
    match t
    case Leaf => if from < |tokens| then Glyph(tables, tokens[from]) else []
    case Missing => []
    case Break => []
    case Group(items, _) => SpokenAll(tables, tokens, items, from + 1)
    case Scripted(base, scripts) =>
      var p := from + Size(base);
      Spoken(tables, tokens, base, from) + SpokenLast(tables, tokens, scripts, p, true)
        + SpokenLast(tables, tokens, scripts, p, false)
    case Script(value) => Spoken(tables, tokens, value, from + 1)
    case Command(arguments) =>
      var name := NameAt(tokens, from);
      Opening(name) + SpokenAll(tables, tokens, arguments, from + 1) + Closing(tables, name)
    case Root(index, closed, radicand) =>
      Spoken(tables, tokens, radicand, from + 2 + SizeAll(index) + One(closed))
        + SpokenAll(tables, tokens, index, from + 2)
    case Fenced(begun, items, closed, ended) =>
      var inner := from + 1 + One(begun);
      DelimiterGlyph(tables, tokens, from + 1, begun) + SpokenAll(tables, tokens, items, inner)
        + DelimiterGlyph(tables, tokens, inner + SizeAll(items) + One(closed), ended)
    case Table(parts, _) =>
      var fences := FencesOf(tables, EnvironmentAt(tokens, from));
      FenceGlyph(fences.0) + SpokenAll(tables, tokens, parts, from + 1) + FenceGlyph(fences.1)
  }

  function SpokenAll(tables: Tables, tokens: seq<Token>, ts: Trees, from: nat): seq<Piece> {
    if ts == NoTrees then []
    else SpokenAll(tables, tokens, ts.before, from) + Spoken(tables, tokens, ts.last, from + SizeAll(ts.before))
  }

  function SpokenLast(tables: Tables, tokens: seq<Token>, ts: Trees, from: nat, sub: bool): seq<Piece> {
    if ts == NoTrees then []
    else
      var p := from + SizeAll(ts.before);
      if p < |tokens| && tokens[p].Sub? == sub then Spoken(tables, tokens, ts.last, p)
      else SpokenLast(tables, tokens, ts.before, from, sub)
  }

  lemma DelimiterShows(tables: Tables, tokens: seq<Token>, p: nat, there: bool)
    ensures Content(DelimiterAt(tables, tokens, p, there)) == DelimiterGlyph(tables, tokens, p, there)
  {
    hide Content, DelimiterText;
    ContentNothing();
    if there && p < |tokens| {
      StretchyShows(MathEscaped(DelimiterText(tables, tokens[p])));
    }
  }

  lemma OneMoreSpoken(tables: Tables, tokens: seq<Token>, display: bool, ts: Trees, t: Tree, from: nat)
    requires ContentAll(PrintAll(tables, tokens, display, ts, from)) == SpokenAll(tables, tokens, ts, from)
    requires
      var p := from + SizeAll(ts);
      Content(Print(tables, tokens, display, t, p)) == Spoken(tables, tokens, t, p)
    ensures ContentAll(PrintAll(tables, tokens, display, More(ts, t), from)) ==
            SpokenAll(tables, tokens, More(ts, t), from)
  {
    hide Content, ContentAll, Spoken, Print, PrintAll, SizeAll;
    OneMorePrint(tables, tokens, display, ts, t, from);
    ContentOneMore(PrintAll(tables, tokens, display, ts, from), Print(tables, tokens, display, t, from + SizeAll(ts)));
  }

  lemma NothingSpoken(tables: Tables, tokens: seq<Token>, display: bool, from: nat)
    ensures ContentAll(PrintAll(tables, tokens, display, NoTrees, from)) == SpokenAll(tables, tokens, NoTrees, from)
    ensures Content(Print(tables, tokens, display, Missing, from)) == Spoken(tables, tokens, Missing, from)
  {
    hide Content;
    ContentElement("mrow", "", []);
    ContentNothing();
  }

  lemma GroupSpoken(tables: Tables, tokens: seq<Token>, display: bool, items: Trees, closed: bool, from: nat)
    requires ContentAll(PrintAll(tables, tokens, display, items, from + 1)) ==
             SpokenAll(tables, tokens, items, from + 1)
    ensures
      var t := Group(items, closed);
      Content(Print(tables, tokens, display, t, from)) == Spoken(tables, tokens, t, from)
  {
    hide Content, ContentAll, SpokenAll, PrintAll, Joined, Element, CommandMarkup, Wrap, TableMarkup, RowsOf,
         DelimiterAt;
    var ms := PrintAll(tables, tokens, display, items, from + 1);
    ContentElement("mrow", "", Joined(ms));
    ContentJoined(ms);
  }

  lemma {:induction false} AsManyPrinted(tables: Tables, tokens: seq<Token>, display: bool, ts: Trees, from: nat)
    ensures |PrintAll(tables, tokens, display, ts, from)| == Count(ts)
  {
    hide Print, SizeAll;
    if ts != NoTrees {
      AsManyPrinted(tables, tokens, display, ts.before, from);
    }
  }

  lemma CommandSpoken(tables: Tables, tokens: seq<Token>, display: bool, ts: Trees, from: nat)
    requires TakesArguments(tables, NameAt(tokens, from), Count(ts))
    requires ContentAll(PrintAll(tables, tokens, display, ts, from + 1)) == SpokenAll(tables, tokens, ts, from + 1)
    ensures
      var t := Command(ts);
      Content(Print(tables, tokens, display, t, from)) == Spoken(tables, tokens, t, from)
  {
    hide Content, ContentAll, SpokenAll, PrintAll, CommandMarkup, Opening, Closing, TakesArguments, Wrap, TableMarkup,
         RowsOf, DelimiterAt, Count;
    AsManyPrinted(tables, tokens, display, ts, from + 1);
    CommandShows(tables, NameAt(tokens, from), PrintAll(tables, tokens, display, ts, from + 1));
  }

  lemma RootSpoken(tables: Tables, tokens: seq<Token>, display: bool, index: Trees, closed: bool, radicand: Tree,
                   from: nat)
    requires ContentAll(PrintAll(tables, tokens, display, index, from + 2)) ==
             SpokenAll(tables, tokens, index, from + 2)
    requires
      var p := from + 2 + SizeAll(index) + One(closed);
      Content(Print(tables, tokens, display, radicand, p)) == Spoken(tables, tokens, radicand, p)
    ensures
      var t := Root(index, closed, radicand);
      Content(Print(tables, tokens, display, t, from)) == Spoken(tables, tokens, t, from)
  {
    hide Content, ContentAll, Wrap, Element, Print, PrintAll, SizeAll;
    RootPrints(tables, tokens, display, index, closed, radicand, from);
    RootReads(tables, tokens, index, closed, radicand, from);
    var x := Print(tables, tokens, display, radicand, from + 2 + SizeAll(index) + One(closed));
    var ms := PrintAll(tables, tokens, display, index, from + 2);
    ContentElement("mroot", "", x + Wrap(ms));
    ContentBoth(x, Wrap(ms));
    ContentWrap(ms);
  }

  lemma RootReads(tables: Tables, tokens: seq<Token>, index: Trees, closed: bool, radicand: Tree, from: nat)
    ensures Spoken(tables, tokens, Root(index, closed, radicand), from) ==
            Spoken(tables, tokens, radicand, from + 2 + SizeAll(index) + One(closed))
              + SpokenAll(tables, tokens, index, from + 2)
  {
    hide SpokenAll, SizeAll;
  }

  lemma FencedReads(tables: Tables, tokens: seq<Token>, begun: bool, items: Trees, closed: bool, ended: bool, from: nat)
    ensures
      var inner := from + 1 + One(begun);
      Spoken(tables, tokens, Fenced(begun, items, closed, ended), from) ==
        DelimiterGlyph(tables, tokens, from + 1, begun) + SpokenAll(tables, tokens, items, inner)
          + DelimiterGlyph(tables, tokens, inner + SizeAll(items) + One(closed), ended)
  {
    hide SpokenAll, SizeAll, DelimiterGlyph;
  }

  lemma FencedSpoken(tables: Tables, tokens: seq<Token>, display: bool, begun: bool, items: Trees, closed: bool,
                     ended: bool, from: nat)
    requires
      var inner := from + 1 + One(begun);
      ContentAll(PrintAll(tables, tokens, display, items, inner)) == SpokenAll(tables, tokens, items, inner)
    ensures
      var t := Fenced(begun, items, closed, ended);
      Content(Print(tables, tokens, display, t, from)) == Spoken(tables, tokens, t, from)
  {
    hide Content, ContentAll, SpokenAll, Spoken, Element, Print, PrintAll, SizeAll, DelimiterAt, DelimiterGlyph, Joined;
    FencedPrints(tables, tokens, display, begun, items, closed, ended, from);
    FencedReads(tables, tokens, begun, items, closed, ended, from);
    var inner := from + 1 + One(begun);
    var last := inner + SizeAll(items) + One(closed);
    var ms := PrintAll(tables, tokens, display, items, inner);
    ContentJoined(ms);
    DelimiterShows(tables, tokens, from + 1, begun);
    DelimiterShows(tables, tokens, last, ended);
    BetweenMarks(DelimiterAt(tables, tokens, from + 1, begun), Joined(ms), DelimiterAt(tables, tokens, last, ended));
  }

  lemma TableReads(tables: Tables, tokens: seq<Token>, parts: Trees, closed: bool, from: nat)
    ensures
      var fences := FencesOf(tables, EnvironmentAt(tokens, from));
      Spoken(tables, tokens, Table(parts, closed), from) ==
        FenceGlyph(fences.0) + SpokenAll(tables, tokens, parts, from + 1) + FenceGlyph(fences.1)
  {
    hide SpokenAll, FencesOf, FenceGlyph;
  }

  lemma TableSpoken(tables: Tables, tokens: seq<Token>, display: bool, parts: Trees, closed: bool, from: nat)
    requires ContentOfRows(RowsOf(tables, tokens, display, parts, from + 1)) ==
             SpokenAll(tables, tokens, parts, from + 1)
    ensures
      var t := Table(parts, closed);
      Content(Print(tables, tokens, display, t, from)) == Spoken(tables, tokens, t, from)
  {
    hide Content, ContentOfRows, SpokenAll, Spoken, Print, RowsOf, TableMarkup, FencesOf, FenceGlyph, SizeAll;
    TablePrints(tables, tokens, display, parts, closed, from);
    TableReads(tables, tokens, parts, closed, from);
    TableShows(tables, EnvironmentAt(tokens, from), RowsOf(tables, tokens, display, parts, from + 1));
  }

  function ContentIf(m: Option<Markup>): seq<Piece> {
    if m.Some? then Content(m.value) else []
  }

  lemma ScriptsShow(display: bool, base: Markup, sub: Option<Markup>, sup: Option<Markup>)
    ensures Content(ScriptedMarkup(display, base, sub, sup)) == Content(base) + ContentIf(sub) + ContentIf(sup)
  {
    hide Content, Element, Stacked;
    forall tag, body | tag in {"munderover", "msubsup", "munder", "msub", "mover", "msup"}
      ensures Content(Element(tag, "", body)) == Content(body)
    {
      ContentElement(tag, "", body);
    }
    if sub.Some? {
      ContentBoth(base, sub.value);
      if sup.Some? {
        ContentBoth(base + sub.value, sup.value);
      }
    } else if sup.Some? {
      ContentBoth(base, sup.value);
    }
  }

  lemma ScriptedReads(tables: Tables, tokens: seq<Token>, base: Tree, scripts: Trees, from: nat)
    ensures
      var p := from + Size(base);
      Spoken(tables, tokens, Scripted(base, scripts), from) ==
        Spoken(tables, tokens, base, from) + SpokenLast(tables, tokens, scripts, p, true)
          + SpokenLast(tables, tokens, scripts, p, false)
  {
    hide SpokenLast, Size;
  }

  lemma ScriptedSpoken(tables: Tables, tokens: seq<Token>, display: bool, base: Tree, scripts: Trees, from: nat)
    requires Content(Print(tables, tokens, display, base, from)) == Spoken(tables, tokens, base, from)
    requires
      var p := from + Size(base);
      && ContentIf(LastScript(tables, tokens, display, scripts, p, true)) ==
           SpokenLast(tables, tokens, scripts, p, true)
      && ContentIf(LastScript(tables, tokens, display, scripts, p, false)) ==
           SpokenLast(tables, tokens, scripts, p, false)
    ensures
      var t := Scripted(base, scripts);
      Content(Print(tables, tokens, display, t, from)) == Spoken(tables, tokens, t, from)
  {
    hide Content, ContentIf, Spoken, SpokenLast, Print, LastScript, ScriptedMarkup, Size;
    ScriptedPrints(tables, tokens, display, base, scripts, from);
    ScriptedReads(tables, tokens, base, scripts, from);
    var p := from + Size(base);
    ScriptsShow(display, Print(tables, tokens, display, base, from),
                LastScript(tables, tokens, display, scripts, p, true),
                LastScript(tables, tokens, display, scripts, p, false));
  }

  lemma {:induction false} LastSpoken(tables: Tables, tokens: seq<Token>, display: bool, ts: Trees, from: nat,
                                      sub: bool)
    requires AreScripts(tables, tokens, ts, from)
    ensures ContentIf(LastScript(tables, tokens, display, ts, from, sub)) ==
            SpokenLast(tables, tokens, ts, from, sub)
    decreases ts, 2
  {
    hide Content, Print, Spoken, SizeAll, IsArgument;
    if ts != NoTrees {
      var p := from + SizeAll(ts.before);
      LastSpoken(tables, tokens, display, ts.before, from, sub);
      ArgumentSpoken(tables, tokens, display, ts.last.value, p + 1);
      ScriptSpoken(tables, tokens, display, ts.last.value, p);
    }
  }

  lemma ScriptSpoken(tables: Tables, tokens: seq<Token>, display: bool, value: Tree, p: nat)
    requires Content(Print(tables, tokens, display, value, p + 1)) == Spoken(tables, tokens, value, p + 1)
    ensures Content(Print(tables, tokens, display, Script(value), p)) == Spoken(tables, tokens, Script(value), p)
  {
    hide Content;
  }

  lemma LeafSpoken(tables: Tables, tokens: seq<Token>, display: bool, from: nat)
    requires from < |tokens|
    ensures Content(Print(tables, tokens, display, Leaf, from)) == Spoken(tables, tokens, Leaf, from)
    ensures Content(Print(tables, tokens, display, Break, from)) == Spoken(tables, tokens, Break, from)
  {
    hide Content, LeafMarkup, Glyph;
    LeafPrints(tables, tokens, display, from);
    LeafShows(tables, tokens, from);
    ContentNothing();
  }

  /** Whatever construct is read, what its markup shows is what its tokens show. */
  lemma {:induction false} AtomSpoken(tables: Tables, tokens: seq<Token>, display: bool, t: Tree, from: nat)
    requires IsAtom(tables, tokens, t, from)
    ensures Content(Print(tables, tokens, display, t, from)) == Spoken(tables, tokens, t, from)
    decreases t, 0
  {
    hide Content, ContentAll, ContentOfRows, Print, PrintAll, Spoken, SpokenAll, Size, SizeAll, IsRow, IsArgument,
         AreArguments, AreParts, FormOf, RowEnds, Count, RowsOf;
    match t {
      case Leaf => LeafSpoken(tables, tokens, display, from);
      case Group(items, closed) =>
        RowSpoken(tables, tokens, display, items, from + 1, AtClose);
        GroupSpoken(tables, tokens, display, items, closed, from);
      case Command(arguments) =>
        ArgumentsSpoken(tables, tokens, display, arguments, from + 1);
        CommandSpoken(tables, tokens, display, arguments, from);
      case Root(index, closed, radicand) =>
        RowSpoken(tables, tokens, display, index, from + 2, AtBracket);
        ArgumentSpoken(tables, tokens, display, radicand, from + 2 + SizeAll(index) + One(closed));
        RootSpoken(tables, tokens, display, index, closed, radicand, from);
      case Fenced(begun, items, closed, ended) =>
        RowSpoken(tables, tokens, display, items, from + 1 + One(begun), AtRight);
        FencedSpoken(tables, tokens, display, begun, items, closed, ended, from);
      case Table(parts, closed) =>
        PartsSpoken(tables, tokens, display, parts, from + 1);
        TableSpoken(tables, tokens, display, parts, closed, from);
    }
  }

  lemma {:induction false} ArgumentSpoken(tables: Tables, tokens: seq<Token>, display: bool, t: Tree, from: nat)
    requires IsArgument(tables, tokens, t, from)
    ensures Content(Print(tables, tokens, display, t, from)) == Spoken(tables, tokens, t, from)
    decreases t, 1
  {
    hide Content, Print, Spoken, IsAtom, StartsNothing;
    if StartsNothing(tokens, from) {
      NothingSpoken(tables, tokens, display, from);
    } else {
      AtomSpoken(tables, tokens, display, t, from);
    }
  }

  lemma {:induction false} ArgumentsSpoken(tables: Tables, tokens: seq<Token>, display: bool, ts: Trees, from: nat)
    requires AreArguments(tables, tokens, ts, from)
    ensures ContentAll(PrintAll(tables, tokens, display, ts, from)) == SpokenAll(tables, tokens, ts, from)
    decreases ts, 2
  {
    hide Content, ContentAll, Print, PrintAll, Spoken, SpokenAll, SizeAll, IsArgument;
    if ts == NoTrees {
      NothingSpoken(tables, tokens, display, from);
    } else {
      ArgumentsSpoken(tables, tokens, display, ts.before, from);
      ArgumentSpoken(tables, tokens, display, ts.last, from + SizeAll(ts.before));
      OneMoreSpoken(tables, tokens, display, ts.before, ts.last, from);
    }
  }

  lemma {:induction false} UnitSpoken(tables: Tables, tokens: seq<Token>, display: bool, t: Tree, from: nat)
    requires IsUnit(tables, tokens, t, from)
    ensures Content(Print(tables, tokens, display, t, from)) == Spoken(tables, tokens, t, from)
    decreases t, 1
  {
    hide Content, ContentIf, Print, Spoken, SpokenLast, LastScript, Size, IsAtom, AreScripts, ScriptAt;
    if t.Scripted? {
      var p := from + Size(t.base);
      AtomSpoken(tables, tokens, display, t.base, from);
      LastSpoken(tables, tokens, display, t.scripts, p, true);
      LastSpoken(tables, tokens, display, t.scripts, p, false);
      ScriptedSpoken(tables, tokens, display, t.base, t.scripts, from);
    } else {
      AtomSpoken(tables, tokens, display, t, from);
    }
  }

  lemma {:induction false} RowSpoken(tables: Tables, tokens: seq<Token>, display: bool, ts: Trees, from: nat,
                                     stop: Stop)
    requires IsRow(tables, tokens, ts, from, stop)
    ensures ContentAll(PrintAll(tables, tokens, display, ts, from)) == SpokenAll(tables, tokens, ts, from)
    decreases ts, 2
  {
    hide Content, ContentAll, Print, PrintAll, Spoken, SpokenAll, SizeAll, IsUnit, StopsAt;
    if ts == NoTrees {
      NothingSpoken(tables, tokens, display, from);
    } else {
      RowSpoken(tables, tokens, display, ts.before, from, stop);
      UnitSpoken(tables, tokens, display, ts.last, from + SizeAll(ts.before));
      OneMoreSpoken(tables, tokens, display, ts.before, ts.last, from);
    }
  }

  lemma {:induction false} PartsSpoken(tables: Tables, tokens: seq<Token>, display: bool, ts: Trees, from: nat)
    requires AreParts(tables, tokens, ts, from)
    ensures ContentOfRows(RowsOf(tables, tokens, display, ts, from)) == SpokenAll(tables, tokens, ts, from)
    decreases ts, 2
  {
    hide Content, ContentOfRows, Print, Spoken, SpokenAll, RowsOf, SizeAll, IsUnit, EndAt, WithItem, WithBreak;
    if ts == NoTrees {
      NoRowsSpoken(tables, tokens, display, from);
    } else {
      var p := from + SizeAll(ts.before);
      var rows := RowsOf(tables, tokens, display, ts.before, from);
      PartsSpoken(tables, tokens, display, ts.before, from);
      SpokenLastPart(tables, tokens, ts, from);
      assert ts == More(ts.before, ts.last);
      if BreakAt(tokens, p) {
        BreakRows(tables, tokens, display, ts.before, from);
        WithBreakShows(rows, tokens[p].Amp?);
      } else {
        UnitSpoken(tables, tokens, display, ts.last, p);
        PartRows(tables, tokens, display, ts.before, ts.last, from);
        WithItemShows(rows, Print(tables, tokens, display, ts.last, p));
      }
    }
  }

  lemma NoRowsSpoken(tables: Tables, tokens: seq<Token>, display: bool, from: nat)
    ensures ContentOfRows(RowsOf(tables, tokens, display, NoTrees, from)) == SpokenAll(tables, tokens, NoTrees, from)
  {
    BlankShows();
  }

  lemma SpokenLastPart(tables: Tables, tokens: seq<Token>, ts: Trees, from: nat)
    requires ts != NoTrees
    ensures SpokenAll(tables, tokens, ts, from) ==
            SpokenAll(tables, tokens, ts.before, from) + Spoken(tables, tokens, ts.last, from + SizeAll(ts.before))
    ensures Spoken(tables, tokens, Break, from + SizeAll(ts.before)) == []
  {
    hide SizeAll, Spoken;
    BreaksAreSilent(tables, tokens, from + SizeAll(ts.before));
  }

  lemma BreaksAreSilent(tables: Tables, tokens: seq<Token>, p: nat)
    ensures Spoken(tables, tokens, Break, p) == []
  {
  }

  lemma BlankShows()
    ensures ContentOfRows([[[]]]) == []
  {
    var cells: seq<seq<Markup>> := [[]];
    assert [cells][..0] == [] && cells[..0] == [];
  }

  /** What a formula's markup shows is what its tokens show, for every token list. */
  lemma FormulaIsSpoken(tables: Tables, tokens: seq<Token>, display: bool, ts: Trees)
    requires IsReading(tables, tokens, ts)
    ensures Content(Joined(PrintAll(tables, tokens, display, ts, 0))) == SpokenAll(tables, tokens, ts, 0)
  {
    hide Content, ContentAll, PrintAll, SpokenAll, SizeAll, IsRow, Joined;
    RowSpoken(tables, tokens, display, ts, 0, Never);
    ContentJoined(PrintAll(tables, tokens, display, ts, 0));
  }
}
