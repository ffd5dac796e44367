/** Every formula, however malformed, renders to markup whose tags nest and match. */
module MathRender {
  import opened Options
  import opened Escape
  import opened MathTokens
  import opened MathMarkup
  import opened MathTree
  import opened MathUnfold
  import opened MathLiterals
  import opened MathParser

  // ------------------------------------------------------------- What printing keeps

  /** Balanced; and, where the tokens and tables hold no tag delimiters of their own, free of stray ones. */
  ghost predicate Fine(strict: bool, m: Markup) {
    Balanced(m) && (strict ==> Safe(m))
  }

  ghost predicate AllFine(strict: bool, items: seq<Markup>) {
    forall i | 0 <= i < |items| :: Fine(strict, items[i])
  }

  predicate TextSafe(table: map<string, string>) {
    forall k | k in table :: NoTag(table[k])
  }

  /** The values that reach the markup unescaped. */
  predicate SafeTables(tables: Tables) {
    && TextSafe(tables.greek) && TextSafe(tables.spacing) && TextSafe(tables.variants)
    && (forall n | n in tables.functions :: NoTag(n)) && (forall n | n in tables.limitFunctions :: NoTag(n))
  }

  predicate AllPlain(tokens: seq<Token>) {
    forall i | 0 <= i < |tokens| :: Plain(tokens[i])
  }

  predicate IsStrict(strict: bool, tables: Tables, tokens: seq<Token>) {
    strict ==> SafeTables(tables) && AllPlain(tokens)
  }

  lemma FineNothing(strict: bool)
    ensures Fine(strict, [])
  {
    TextBalanced("");
  }

  lemma FineText(strict: bool, text: string)
    requires strict ==> NoTag(text)
    ensures Fine(strict, [Text(text)])
  {
    TextBalanced(text);
  }

  lemma FineBoth(strict: bool, a: Markup, b: Markup)
    requires Fine(strict, a) && Fine(strict, b)
    ensures Fine(strict, a + b)
  {
    BothBalanced(a, b);
  }

  lemma FineElement(strict: bool, tag: string, attributes: string, body: Markup)
    requires Fine(strict, body)
    requires IsTagName(tag) && IsAttributes(strict, attributes)
    ensures Fine(strict, Element(tag, attributes, body))
  {
    ElementBalanced(tag, attributes, body);
  }

  lemma FineLeaf(strict: bool, tag: string, attributes: string, text: string)
    requires strict ==> NoTag(text)
    requires IsTagName(tag) && IsAttributes(strict, attributes)
    ensures Fine(strict, Leaf1(tag, attributes, text))
  {
    FineText(strict, text);
    FineElement(strict, tag, attributes, [Text(text)]);
  }

  lemma FineEscapedLeaf(strict: bool, tag: string, attributes: string, text: string)
    requires IsTagName(tag) && IsAttributes(strict, attributes)
    ensures Fine(strict, Leaf1(tag, attributes, MathEscaped(text)))
  {
    MathEscapedIsSafe(text);
    FineLeaf(strict, tag, attributes, MathEscaped(text));
  }

  lemma {:induction false} FineJoined(strict: bool, items: seq<Markup>)
    requires AllFine(strict, items)
    ensures Fine(strict, Joined(items))
  {
    hide Fine;
    if items == [] {
      FineNothing(strict);
    } else {
      FineJoined(strict, items[..|items| - 1]);
      FineBoth(strict, Joined(items[..|items| - 1]), items[|items| - 1]);
    }
  }

  lemma FineWrap(strict: bool, items: seq<Markup>)
    requires AllFine(strict, items)
    ensures Fine(strict, Wrap(items))
  {
    hide Fine, IsTagName, IsAttributes, NoTag;
    TagNames();
    Attributes(strict);
    FineJoined(strict, items);
    TagNames();
    FineElement(strict, "mrow", "", Joined(items));
  }

  // ------------------------------------------------------------------- Leaves

  lemma ValueIsSafe(table: map<string, string>, name: string)
    requires TextSafe(table)
    ensures NoTag(Value(table, name))
  {
    hide INHERITED;
    NativeIsSafe(name);
  }

  lemma {:induction false} PinnedEndIsSafe(s: string)
    requires NoTag(s)
    ensures NoTag(PinnedEnd(s))
  {
    if s != "" && s[|s| - 1] == ' ' {
      PinnedEndIsSafe(s[..|s| - 1]);
    }
  }

  lemma PinnedIsSafe(s: string)
    requires NoTag(s)
    ensures NoTag(Pinned(s))
  {
    var start := RunEnd(s, 0, c => c == ' ');
    PinnedEndIsSafe(s[start..]);
  }

  lemma FinePinned(strict: bool, attributes: string, raw: Option<string>)
    requires IsAttributes(strict, attributes)
    ensures Fine(strict, Leaf1("mtext", attributes, Pinned(MathEscaped(RawText(raw)))))
  {
    hide Fine, Pinned, IsTagName, IsAttributes, NoTag;
    TagNames();
    Attributes(strict);
    MathEscapedIsSafe(RawText(raw));
    PinnedIsSafe(MathEscaped(RawText(raw)));
    FineLeaf(strict, "mtext", attributes, Pinned(MathEscaped(RawText(raw))));
  }

  lemma FineSpace(strict: bool, tables: Tables, name: string)
    requires strict ==> TextSafe(tables.spacing)
    ensures Fine(strict, Space(tables, name))
  {
    hide Fine, Value, IsTagName, IsAttributes, NoTag;
    TagNames();
    Attributes(strict);
    Keys(strict);
    if strict {
      ValueIsSafe(tables.spacing, name);
    }
    FineNothing(strict);
    QuotedAttributes(strict, " width=", Value(tables.spacing, name));
    FineElement(strict, "mspace", Quoted(" width=", Value(tables.spacing, name)), []);
  }

  /** Leaves that are looked up in a table. */
  lemma FineSymbol(strict: bool, tables: Tables, name: string, raw: Option<string>)
    requires strict ==> SafeTables(tables)
    requires Found(tables.greek, name) || Found(tables.symbols, name) || Found(tables.big,
        name) || name in tables.functions
      || name in tables.limitFunctions || Found(tables.spacing, name)
    ensures Fine(strict, FixedMarkup(tables, name, raw))
  {
    hide Fine, Value, Space, Leaf1, Pinned, IsTagName, IsAttributes, NoTag;
    TagNames();
    Attributes(strict);
    if strict {
      ValueIsSafe(tables.greek, name);
    }
    FineSpace(strict, tables, name);
    if Found(tables.greek, name) {
      FineLeaf(strict, "mi", "", Value(tables.greek, name));
    } else if Found(tables.symbols, name) {
      FineEscapedLeaf(strict, "mo", "", Value(tables.symbols, name));
    } else if Found(tables.big, name) {
      FineEscapedLeaf(strict, "mo", BIG_OPERATOR, Value(tables.big, name));
    } else if name in tables.functions {
      FineLeaf(strict, "mo", FUNCTION, name);
    } else if name in tables.limitFunctions {
      FineLeaf(strict, "mo", LIMIT_FUNCTION, name);
    }
  }

  lemma FineFixed(strict: bool, tables: Tables, name: string, raw: Option<string>)
    requires strict ==> SafeTables(tables)
    ensures Fine(strict, FixedMarkup(tables, name, raw))
  {
    hide Fine, Value, Space, Leaf1, Pinned, Found, SafeTables, IsTagName, IsAttributes, NoTag;
    TagNames();
    Texts();
    Attributes(strict);
    FineNothing(strict);
    FinePinned(strict, "", raw);
    FinePinned(strict, BOLD, raw);
    FinePinned(strict, ITALIC, raw);
    FinePinned(strict, MONOSPACE, raw);
    FinePinned(strict, SANS_SERIF, raw);
    FineEscapedLeaf(strict, "mi", NORMAL, RawText(raw));
    FineLeaf(strict, "mo", MOD, "mod");
    FineEscapedLeaf(strict, "mi", NORMAL, "\\" + name);
    if Found(tables.greek, name) || Found(tables.symbols, name) || Found(tables.big, name) || name in tables.functions
       || name in tables.limitFunctions || Found(tables.spacing, name) {
      FineSymbol(strict, tables, name, raw);
    }
  }

  lemma FineToken(strict: bool, tables: Tables, tokens: seq<Token>, p: nat)
    requires IsStrict(strict, tables, tokens)
    ensures Fine(strict, LeafMarkup(tables, tokens, p))
  {
    hide Fine, Space, Leaf1, FixedMarkup, IsUnary, IsTagName, IsAttributes, NoTag;
    TagNames();
    Texts();
    Attributes(strict);
    FineNothing(strict);
    if p < |tokens| {
      match tokens[p] {
        case Amp => FineLeaf(strict, "mo", "", "&amp;");
        case Num(v) => FineLeaf(strict, "mn", "", v);
        case Ident(v) => FineLeaf(strict, "mi", "", v);
        case Op(v) =>
          FineLeaf(strict, "mo", PREFIX, if v == "-" then "\U{2212}" else "+");
          FineLeaf(strict, "mo", "", if v == "-" then "\U{2212}" else "+");
          FineLeaf(strict, "mo", "", "\U{2032}");
          FineEscapedLeaf(strict, "mo", "", v);
        case Esc(v) =>
          FineElement(strict, "mspace", NEWLINE, []);
          FineSpace(strict, tables, v);
          FineEscapedLeaf(strict, "mo", "", v);
        case Cmd(v, raw) => FineFixed(strict, tables, v, raw);
        case _ =>
      }
    }
  }

  // ---------------------------------------------------------------- Constructs

  lemma FineStretchy(strict: bool, text: string)
    requires strict ==> NoTag(text)
    ensures Fine(strict, Stretchy(text))
  {
    hide Fine, Leaf1, IsTagName, IsAttributes, NoTag;
    TagNames();
    Attributes(strict);
    FineLeaf(strict, "mo", STRETCHY, text);
  }

  lemma FineNth(strict: bool, items: seq<Markup>, i: nat)
    requires AllFine(strict, items)
    ensures Fine(strict, Nth(items, i))
  {
    hide Fine;
    FineNothing(strict);
  }

  lemma FineBinom(strict: bool, xy: Markup)
    requires Fine(strict, xy)
    ensures Fine(strict, Element("mrow", "", Stretchy("(") + Element("mfrac", NO_LINE, xy) + Stretchy(")")))
  {
    hide Fine, Element, Stretchy, IsTagName, IsAttributes, NoTag;
    TagNames();
    Texts();
    Attributes(strict);
    FineStretchy(strict, "(");
    FineStretchy(strict, ")");
    FineElement(strict, "mfrac", NO_LINE, xy);
    FineBoth(strict, Stretchy("("), Element("mfrac", NO_LINE, xy));
    FineBoth(strict, Stretchy("(") + Element("mfrac", NO_LINE, xy), Stretchy(")"));
    FineElement(strict, "mrow", "", Stretchy("(") + Element("mfrac", NO_LINE, xy) + Stretchy(")"));
  }

  lemma FinePmod(strict: bool, x: Markup)
    requires Fine(strict, x)
    ensures Fine(strict, Element("mrow", "",
      Element("mspace", GAP_BEFORE, []) + Leaf1("mo", "", "(") + Leaf1("mi", NORMAL, "mod")
        + Element("mspace", GAP_INSIDE, []) + x + Leaf1("mo", "", ")")))
  {
    hide Fine, Element, Leaf1, IsTagName, IsAttributes, NoTag;
    TagNames();
    Texts();
    Attributes(strict);
    FineNothing(strict);
    var a, b := Element("mspace", GAP_BEFORE, []), Leaf1("mo", "", "(");
    var c, d := Leaf1("mi", NORMAL, "mod"), Element("mspace", GAP_INSIDE, []);
    FineElement(strict, "mspace", GAP_BEFORE, []);
    FineElement(strict, "mspace", GAP_INSIDE, []);
    FineLeaf(strict, "mo", "", "(");
    FineLeaf(strict, "mo", "", ")");
    FineLeaf(strict, "mi", NORMAL, "mod");
    FineBoth(strict, a, b);
    FineBoth(strict, a + b, c);
    FineBoth(strict, a + b + c, d);
    FineBoth(strict, a + b + c + d, x);
    FineBoth(strict, a + b + c + d + x, Leaf1("mo", "", ")"));
    FineElement(strict, "mrow", "", a + b + c + d + x + Leaf1("mo", "", ")"));
  }

  /** An element over its argument and one more leaf. */
  lemma FineOver(strict: bool, tag: string, attributes: string, x: Markup, mark: Markup)
    requires Fine(strict, x) && Fine(strict, mark)
    requires IsTagName(tag) && IsAttributes(strict, attributes)
    ensures Fine(strict, Element(tag, attributes, x + mark))
  {
    hide Fine, Element;
    FineBoth(strict, x, mark);
    FineElement(strict, tag, attributes, x + mark);
  }

  lemma FineAccent(strict: bool, tables: Tables, name: string, x: Markup)
    requires Fine(strict, x) && (strict ==> SafeTables(tables))
    ensures
      var wide := name in {"overline", "bar", "widehat", "widetilde", "vec"};
      Fine(strict, Element("mover", ACCENT,
        x + Leaf1("mo", if wide then STRETCHY else "", MathEscaped(Value(tables.accents, name)))))
    ensures Fine(strict, Element("mstyle", Quoted(" mathvariant=", Value(tables.variants, name)), x))
  {
    hide Fine, Element, Leaf1, Value, IsTagName, IsAttributes, NoTag;
    TagNames();
    Attributes(strict);
    Keys(strict);
    var wide := name in {"overline", "bar", "widehat", "widetilde", "vec"};
    FineEscapedLeaf(strict, "mo", if wide then STRETCHY else "", Value(tables.accents, name));
    FineOver(strict, "mover", ACCENT, x,
             Leaf1("mo", if wide then STRETCHY else "", MathEscaped(Value(tables.accents, name))));
    if strict {
      ValueIsSafe(tables.variants, name);
    }
    QuotedAttributes(strict, " mathvariant=", Value(tables.variants, name));
    FineElement(strict, "mstyle", Quoted(" mathvariant=", Value(tables.variants, name)), x);
  }

  lemma FineCommand(strict: bool, tables: Tables, name: string, arguments: seq<Markup>)
    requires AllFine(strict, arguments) && (strict ==> SafeTables(tables))
    ensures Fine(strict, CommandMarkup(tables, name, arguments))
  {
    hide Fine, Element, Leaf1, Value, Stretchy, Found, Nth, SafeTables, IsTagName, IsAttributes, NoTag;
    TagNames();
    Texts();
    Attributes(strict);
    var x, y := Nth(arguments, 0), Nth(arguments, 1);
    FineNth(strict, arguments, 0);
    FineNth(strict, arguments, 1);
    FineStretchy(strict, "\U{23DE}");
    FineStretchy(strict, "\U{23DF}");
    FineStretchy(strict, "_");
    FineBoth(strict, x, y);
    FineBinom(strict, x + y);
    FinePmod(strict, x);
    FineAccent(strict, tables, name, x);
    FineOver(strict, "mfrac", "", x, y);
    FineOver(strict, "mover", "", x, Stretchy("\U{23DE}"));
    FineOver(strict, "munder", "", x, Stretchy("\U{23DF}"));
    FineOver(strict, "munder", ACCENT, x, Stretchy("_"));
    FineElement(strict, "msqrt", "", x);
  }

  lemma FineScripted(strict: bool, display: bool, base: Markup, sub: Option<Markup>, sup: Option<Markup>)
    requires Fine(strict, base) && (sub.Some? ==> Fine(strict, sub.value)) && (sup.Some? ==> Fine(strict, sup.value))
    ensures Fine(strict, ScriptedMarkup(display, base, sub, sup))
  {
    hide Fine, Element, Stacked, IsTagName, IsAttributes, NoTag;
    TagNames();
    Attributes(strict);
    var stacked := Stacked(display, base);
    if sub.Some? && sup.Some? {
      FineBoth(strict, base, sub.value);
      FineOver(strict, if stacked then "munderover" else "msubsup", "", base + sub.value, sup.value);
    } else if sub.Some? {
      FineOver(strict, if stacked then "munder" else "msub", "", base, sub.value);
    } else if sup.Some? {
      FineOver(strict, if stacked then "mover" else "msup", "", base, sup.value);
    }
  }

  lemma FineDelimiter(strict: bool, tables: Tables, tokens: seq<Token>, p: nat, there: bool)
    ensures Fine(strict, DelimiterAt(tables, tokens, p, there))
  {
    hide Fine, DelimiterText, Stretchy;

    FineNothing(strict);
    if there && p < |tokens| {
      var text := DelimiterText(tables, tokens[p]);
      MathEscapedIsSafe(text);
      FineStretchy(strict, MathEscaped(text));
    }
  }

  // --------------------------------------------------------------------- Tables

  ghost predicate RowsFine(strict: bool, rows: seq<seq<seq<Markup>>>) {
    forall i | 0 <= i < |rows| :: RowFine(strict, rows[i])
  }

  ghost predicate RowFine(strict: bool, cells: seq<seq<Markup>>) {
    forall j | 0 <= j < |cells| :: AllFine(strict, cells[j])
  }

  lemma {:induction false} FineCells(strict: bool, cells: seq<seq<Markup>>)
    requires RowFine(strict, cells)
    ensures AllFine(strict, CellsMarkup(cells))
  {
    hide Fine, Wrap, Element, IsTagName, IsAttributes, NoTag;
    TagNames();
    Attributes(strict);
    if cells != [] {
      var last := cells[|cells| - 1];
      FineCells(strict, cells[..|cells| - 1]);
      FineWrap(strict, last);
      FineElement(strict, "mtd", "", Wrap(last));
    }
  }

  lemma {:induction false} FineRows(strict: bool, rows: seq<seq<seq<Markup>>>)
    requires RowsFine(strict, rows)
    ensures AllFine(strict, RowsMarkup(rows))
  {
    hide Fine, Element, Joined, CellsMarkup, IsTagName, IsAttributes, NoTag;
    TagNames();
    Attributes(strict);
    if rows != [] {
      var last := rows[|rows| - 1];
      FineRows(strict, rows[..|rows| - 1]);
      FineCells(strict, last);
      FineJoined(strict, CellsMarkup(last));
      FineElement(strict, "mtr", "", Joined(CellsMarkup(last)));
    }
  }

  lemma FineSized(strict: bool, rows: nat, text: string)
    ensures Fine(strict, Sized(rows, text))
  {
    hide Fine, Leaf1, IsTagName, IsAttributes, NoTag, Grown, GrownAttributes;
    TagNames();
    Attributes(strict);
    GrownAreAttributes(strict, rows);
    FineNothing(strict);
    FineEscapedLeaf(strict, "mo", GrownAttributes(rows), text);
  }

  lemma FineTable(strict: bool, tables: Tables, name: string, rows: seq<seq<seq<Markup>>>)
    requires RowsFine(strict, rows)
    ensures Fine(strict, TableMarkup(tables, name, rows))
  {
    hide Fine, Element, Sized, RowsMarkup, Joined, FencesOf, IsTagName, IsAttributes, NoTag;
    TagNames();
    Attributes(strict);
    var (open, close) := FencesOf(tables, name);
    FineRows(strict, rows);
    FineJoined(strict, RowsMarkup(rows));
    var attributes := if name == "cases" then ALIGNED_LEFT else "";
    var table := Element("mtable", attributes, Joined(RowsMarkup(rows)));
    FineElement(strict, "mtable", attributes, Joined(RowsMarkup(rows)));
    FineElement(strict, "mrow", "", table);
    FineSized(strict, |rows|, open);
    FineSized(strict, |rows|, close);
    FineBoth(strict, Sized(|rows|, open), table);
    FineOver(strict, "mrow", "", Sized(|rows|, open) + table, Sized(|rows|, close));
  }

  lemma FineWithItem(strict: bool, rows: Rows, item: Markup, cell: bool)
    requires RowsFine(strict, rows) && Fine(strict, item)
    ensures RowsFine(strict, WithItem(rows, item)) && RowsFine(strict, WithBreak(rows, cell))
  {
    hide Fine;
    assert AllFine(strict, []);
    assert RowFine(strict, [[]]);
  }

  // ---------------------------------------------------------------- Any tree at all

  /** Whatever the tree and the tokens, what is printed closes every element it opens. */
  lemma {:induction false} PrintIsFine(strict: bool, tables: Tables, tokens: seq<Token>, display: bool, t: Tree,
                                       from: nat)
    requires IsStrict(strict, tables, tokens)
    ensures Fine(strict, Print(tables, tokens, display, t, from))
    decreases t
  {
    hide Fine, Print, PrintAll, LastScript, RowsOf, IsStrict, Element, CommandMarkup, ScriptedMarkup, TableMarkup,
         DelimiterAt, Wrap, Joined, LeafMarkup, Size, SizeAll, IsTagName, IsAttributes, NoTag;
    TagNames();
    Attributes(strict);
    match t {
      case Leaf =>
        LeafPrints(tables, tokens, display, from);
        FineToken(strict, tables, tokens, from);
      case Break =>
        LeafPrints(tables, tokens, display, from);
        FineNothing(strict);
      case Missing =>
        MissingIs(tables, tokens, display, from);
        FineNothing(strict);
        FineElement(strict, "mrow", "", []);
      case Group(items, closed) =>
        GroupPrints(tables, tokens, display, items, closed, from);
        AllPrintFine(strict, tables, tokens, display, items, from + 1);
        FineJoined(strict, PrintAll(tables, tokens, display, items, from + 1));
        FineElement(strict, "mrow", "", Joined(PrintAll(tables, tokens, display, items, from + 1)));
      case Scripted(base, scripts) =>
        ScriptedPrints(tables, tokens, display, base, scripts, from);
        PrintIsFine(strict, tables, tokens, display, base, from);
        ScriptsAreFine(strict, tables, tokens, display, scripts, from + Size(base), true);
        ScriptsAreFine(strict, tables, tokens, display, scripts, from + Size(base), false);
        FineScripted(strict, display, Print(tables, tokens, display, base, from),
                     LastScript(tables, tokens, display, scripts, from + Size(base), true),
                     LastScript(tables, tokens, display, scripts, from + Size(base), false));
      case Script(value) =>
        ScriptIs(tables, tokens, display, value, from);
        PrintIsFine(strict, tables, tokens, display, value, from + 1);
      case Command(arguments) =>
        CommandPrints(tables, tokens, display, arguments, from);
        AllPrintFine(strict, tables, tokens, display, arguments, from + 1);
        StrictTables(strict, tables, tokens);
        FineCommand(strict, tables, NameAt(tokens, from), PrintAll(tables, tokens, display, arguments, from + 1));
      case Root(index, closed, radicand) =>
        var inner := from + 2 + SizeAll(index) + One(closed);
        RootPrints(tables, tokens, display, index, closed, radicand, from);
        PrintIsFine(strict, tables, tokens, display, radicand, inner);
        AllPrintFine(strict, tables, tokens, display, index, from + 2);
        FineWrap(strict, PrintAll(tables, tokens, display, index, from + 2));
        FineOver(strict, "mroot", "", Print(tables, tokens, display, radicand, inner),
                 Wrap(PrintAll(tables, tokens, display, index, from + 2)));
      case Fenced(begun, items, closed, ended) =>
        var inner := from + 1 + One(begun);
        FencedPrints(tables, tokens, display, begun, items, closed, ended, from);
        AllPrintFine(strict, tables, tokens, display, items, inner);
        FineJoined(strict, PrintAll(tables, tokens, display, items, inner));
        var open, close := DelimiterAt(tables, tokens, from + 1, begun),
                           DelimiterAt(tables, tokens, inner + SizeAll(items) + One(closed), ended);
        FineDelimiter(strict, tables, tokens, from + 1, begun);
        FineDelimiter(strict, tables, tokens, inner + SizeAll(items) + One(closed), ended);
        FineBoth(strict, open, Joined(PrintAll(tables, tokens, display, items, inner)));
        FineOver(strict, "mrow", "", open + Joined(PrintAll(tables, tokens, display, items, inner)), close);
      case Table(parts, closed) =>
        TablePrints(tables, tokens, display, parts, closed, from);
        RowsPrintFine(strict, tables, tokens, display, parts, from + 1);
        FineTable(strict, tables, EnvironmentAt(tokens, from), RowsOf(tables, tokens, display, parts, from + 1));
    }
  }

  lemma StrictTables(strict: bool, tables: Tables, tokens: seq<Token>)
    requires IsStrict(strict, tables, tokens)
    ensures strict ==> SafeTables(tables)
  {
  }

  lemma {:induction false} AllPrintFine(strict: bool, tables: Tables, tokens: seq<Token>, display: bool, ts: Trees,
                                        from: nat)
    requires IsStrict(strict, tables, tokens)
    ensures AllFine(strict, PrintAll(tables, tokens, display, ts, from))
    decreases ts
  {
    hide Fine, Print, IsStrict, SizeAll;
    if ts != NoTrees {
      AllPrintFine(strict, tables, tokens, display, ts.before, from);
      PrintIsFine(strict, tables, tokens, display, ts.last, from + SizeAll(ts.before));
    }
  }

  lemma {:induction false} ScriptsAreFine(strict: bool, tables: Tables, tokens: seq<Token>, display: bool, ts: Trees,
                                          from: nat,
                                          sub: bool)
    requires IsStrict(strict, tables, tokens)
    ensures
      var script := LastScript(tables, tokens, display, ts, from, sub);
      script.Some? ==> Fine(strict, script.value)
    decreases ts
  {
    hide Fine, Print, IsStrict, SizeAll;
    if ts != NoTrees {
      ScriptsAreFine(strict, tables, tokens, display, ts.before, from, sub);
      PrintIsFine(strict, tables, tokens, display, ts.last, from + SizeAll(ts.before));
    }
  }

  lemma {:induction false} RowsPrintFine(strict: bool, tables: Tables, tokens: seq<Token>, display: bool, ts: Trees,
                                         from: nat)
    requires IsStrict(strict, tables, tokens)
    ensures RowsFine(strict, RowsOf(tables, tokens, display, ts, from))
    decreases ts
  {
    hide Fine, Print, IsStrict, SizeAll, WithItem, WithBreak;
    if ts == NoTrees {
      assert RowFine(strict, [[]]) by {
        assert AllFine(strict, []);
      }
    } else {
      var p := from + SizeAll(ts.before);
      RowsPrintFine(strict, tables, tokens, display, ts.before, from);
      PrintIsFine(strict, tables, tokens, display, ts.last, p);
      FineWithItem(strict, RowsOf(tables, tokens, display, ts.before, from), Print(tables, tokens, display, ts.last, p),
                   p < |tokens| && tokens[p].Amp?);
    }
  }

  // ------------------------------------------------------------------ The whole formula

  /** Whatever token list it is given, however malformed, the parser comes to an end, and its markup closes every
      element it opens and nothing else. */
  method ParseTokens(tables: Tables, tokens: seq<Token>, display: bool)
    returns (m: Markup, ghost ts: Trees, threw: bool)
    ensures Balanced(m)
    ensures SafeTables(tables) && AllPlain(tokens) ==> Safe(m) && Nested(Flatten(m), [])
    ensures IsReading(tables, tokens, ts)
    ensures m == Joined(PrintAll(tables, tokens, display, ts, 0)) && threw == ThrowAny(tables, tokens, ts, 0)
  {
    hide Print, PrintAll, Joined, IsReading, SizeAll, ThrowAny;
    var parser := new Parser(tables, tokens, display);
    m, ts := parser.Parse();
    threw := parser.threw;
    AllPrintFine(false, tables, tokens, display, ts, 0);
    FineJoined(false, PrintAll(tables, tokens, display, ts, 0));
    if SafeTables(tables) && AllPlain(tokens) {
      AllPrintFine(true, tables, tokens, display, ts, 0);
      FineJoined(true, PrintAll(tables, tokens, display, ts, 0));
      FlattenedIsRead(m, []);
    }
  }

  function MathAttributes(display: bool): string {
    Quoted(" xmlns=", MATH_NS) + Quoted(" display=", if display then "block" else "inline")
      + Quoted(" class=", if display then "math-display" else "math-inline")
  }

  function MathElement(display: bool, body: Markup): Markup {
    Element("math", MathAttributes(display), body)
  }

  /** What stands inside the math element for a reading of the source: its markup; nothing but an empty text if there
      is none; the source itself if an environment in it cannot be taken apart. */
  function BodyOf(tables: Tables, source: string, display: bool, ts: Trees): Markup {
    var tokens := TokensFrom(source, 0);
    var printed := Joined(PrintAll(tables, tokens, display, ts, 0));
    if ThrowAny(tables, tokens, ts, 0) then Leaf1("mtext", "", MathEscaped(source))
    else if printed == [] then Element("mtext", "", [])
    else printed
  }

  ghost predicate Rendered(tables: Tables, source: string, display: bool, html: string) {
    exists ts :: IsReading(tables, TokensFrom(source, 0), ts)
      && html == Flatten(MathElement(display, BodyOf(tables, source, display, ts)))
  }

  /** Rendering never fails: a formula that cannot be taken apart falls back to its own source, and in every case the
      tags of the result nest and match, character for character. */
  method RenderMath(tables: Tables, src: string, display: bool) returns (html: string)
    requires SafeTables(tables)
    ensures Nested(html, [])
    ensures Rendered(tables, Unescaped(src), display, html)
  {
    hide IsAttributes, NoTag, IsTagName, SafeTables, MathElement, IsReading, Joined, PrintAll, ThrowAny;
    TagNames();
    Attributes(true);
    var source := Unescaped(src);
    var tokens := Tokenize(source);
    TokensArePlain(source, 0);
    ghost var ts;
    var body, threw;
    body, ts, threw := ParseTokens(tables, tokens, display);
    if threw {
      body := Leaf1("mtext", "", MathEscaped(source));
      FineEscapedLeaf(true, "mtext", "", source);
    }
    if body == [] {
      FineNothing(true);
      body := Element("mtext", "", []);
      FineElement(true, "mtext", "", []);
    }
    assert body == BodyOf(tables, source, display, ts);
    MathIsFine(display, body);
    html := Flatten(MathElement(display, body));
  }

  lemma MathIsFine(display: bool, body: Markup)
    requires Balanced(body) && Safe(body)
    ensures Nested(Flatten(MathElement(display, body)), [])
  {
    hide IsAttributes, NoTag, Quoted, IsTagName, Element, MATH_NS;
    var shown, kind := if display then "block" else "inline", if display then "math-display" else "math-inline";
    NamespaceIsSafe();
    MathTexts();
    Keys(true);
    TagNames();
    QuotedAttributes(true, " xmlns=", MATH_NS);
    QuotedAttributes(true, " display=", shown);
    QuotedAttributes(true, " class=", kind);
    JoinedAttributes(true, Quoted(" xmlns=", MATH_NS), Quoted(" display=", shown));
    JoinedAttributes(true, Quoted(" xmlns=", MATH_NS) + Quoted(" display=", shown), Quoted(" class=", kind));
    FineElement(true, "math", MathAttributes(display), body);
    FlattenedIsRead(MathElement(display, body), []);
  }
}
