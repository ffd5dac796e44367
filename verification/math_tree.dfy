/** The grammar of formulas over tokens, as trees, and the markup each tree stands for. */
module MathTree {
  import opened Options
  import opened Escape
  import opened MathTokens
  import opened MathMarkup

  // -------------------------------------------------------------- The symbol tables

  datatype Tables = Tables(
    greek: map<string, string>, symbols: map<string, string>, ordinary: set<string>, big: map<string, string>,
    functions: set<string>, limitFunctions: set<string>, variants: map<string, string>, accents: map<string, string>,
    spacing: map<string, string>, delimiters: map<string, string>, environments: map<string, (string, string)>)

  /** Names every table answers to without holding them, because it inherits them from Object.prototype. */
  const INHERITED: set<string> := {
    "constructor", "hasOwnProperty", "isPrototypeOf", "propertyIsEnumerable", "toLocaleString", "toString", "valueOf",
    "__proto__", "__defineGetter__", "__defineSetter__", "__lookupGetter__", "__lookupSetter__"
  }

  predicate Found(table: map<string, string>, name: string) {
    name in table || name in INHERITED
  }

  /** What is found under a name; an inherited one prints as what it is. */
  function Value(table: map<string, string>, name: string): string {
    if name in table then table[name] else NativeText(name)
  }

  function NativeText(name: string): string {
    if name == "__proto__" then "[object Object]"
    else ("function " + (if name == "constructor" then "Object" else if name in INHERITED then name else "")
          + "() { [native code] }")
  }

  /** What a command takes from the tokens after it. */
  datatype Form = Fixed | Arguments(n: nat) | SquareRoot | Environment | Fence

  function FormOf(tables: Tables, name: string): Form {
    if Found(tables.greek, name) || Found(tables.symbols, name) || Found(tables.big, name) || name in tables.functions
       || name in tables.limitFunctions || Found(tables.spacing, name) then Fixed
    else if name in {"frac", "dfrac", "tfrac", "cfrac", "binom", "dbinom", "tbinom"} then Arguments(2)
    else if name == "sqrt" then SquareRoot
    else if name == "begin" then Environment
    else if name == "left" then Fence
    else if name in {"pmod", "overbrace", "underbrace", "substack"} then Arguments(1)
    else if name in OTHER_FIXED then Fixed
    else if Found(tables.variants, name) || Found(tables.accents, name) || name == "underline" then Arguments(1)
    else Fixed
  }

  const OTHER_FIXED: set<string> := {
    "text", "textrm", "mbox", "textbf", "textit", "texttt", "textsf", "operatorname", "end", "right", "bmod", "limits",
    "nolimits", "displaystyle", "textstyle", "scriptstyle", "nonumber"
  }

  // ------------------------------------------------------------------------- Trees

  datatype Tree =
    | Leaf
    | Missing
    | Group(items: Trees, closed: bool)
    | Scripted(base: Tree, scripts: Trees)
    | Script(value: Tree)
    | Command(arguments: Trees)
    | Root(index: Trees, closed: bool, radicand: Tree)
    | Fenced(begun: bool, items: Trees, closed: bool, ended: bool)
    | Table(parts: Trees, closed: bool)
    | Break

  datatype Trees = NoTrees | More(before: Trees, last: Tree)

  function Count(ts: Trees): nat {
    if ts == NoTrees then 0 else Count(ts.before) + 1
  }

  function One(b: bool): nat {
    if b then 1 else 0
  }

  /** How many tokens a tree is made of. */
  function Size(t: Tree): nat {
    match t
    case Leaf => 1
    case Missing => 0
    case Group(items, closed) => 1 + SizeAll(items) + One(closed)
    case Scripted(base, scripts) => Size(base) + SizeAll(scripts)
    case Script(value) => 1 + Size(value)
    case Command(arguments) => 1 + SizeAll(arguments)
    case Root(index, closed, radicand) => 2 + SizeAll(index) + One(closed) + Size(radicand)
    case Fenced(begun, items, closed, ended) => 1 + One(begun) + SizeAll(items) + One(closed) + One(ended)
    case Table(parts, closed) => 1 + SizeAll(parts) + One(closed)
    case Break => 1
  }

  function SizeAll(ts: Trees): nat {
    if ts == NoTrees then 0 else SizeAll(ts.before) + Size(ts.last)
  }

  // ----------------------------------------------------------------------- The grammar

  datatype Stop = Never | AtClose | AtBracket | AtRight

  predicate StopsAt(tokens: seq<Token>, p: nat, stop: Stop) {
    && p < |tokens|
    && match stop
       case Never => false
       case AtClose => tokens[p].Close?
       case AtBracket => tokens[p] == Op("]")
       case AtRight => tokens[p].Cmd? && tokens[p].v == "right"
  }

  /** No atom begins here: the tokens are at an end, or at a brace or script that belongs to something before it. */
  predicate StartsNothing(tokens: seq<Token>, p: nat) {
    p >= |tokens| || tokens[p].Close? || tokens[p].Sub? || tokens[p].Sup?
  }

  predicate ScriptAt(tokens: seq<Token>, p: nat) {
    p < |tokens| && (tokens[p].Sub? || tokens[p].Sup?)
  }

  predicate EndAt(tokens: seq<Token>, p: nat) {
    p < |tokens| && tokens[p].Cmd? && tokens[p].v == "end"
  }

  predicate BreakAt(tokens: seq<Token>, p: nat) {
    p < |tokens| && (tokens[p].Amp? || tokens[p] == Esc("\\"))
  }

  /** A row ends at its stop, which is then taken, or where nothing starts. */
  predicate RowEnds(tokens: seq<Token>, p: nat, stop: Stop, closed: bool) {
    p <= |tokens| && (closed <==> StopsAt(tokens, p, stop)) && (!closed ==> StartsNothing(tokens, p))
  }

  predicate IsAtom(tables: Tables, tokens: seq<Token>, t: Tree, from: nat)
    decreases t, 0
  {
    && from < |tokens| && !StartsNothing(tokens, from)
    && var form := if tokens[from].Cmd? then FormOf(tables, tokens[from].v) else Fixed;
    && match t
       case Leaf => !tokens[from].Open? && form.Fixed?
       case Group(items, closed) =>
         && tokens[from].Open? && IsRow(tables, tokens, items, from + 1, AtClose)
         && RowEnds(tokens, from + 1 + SizeAll(items), AtClose, closed)
       case Command(arguments) =>
         && (form == Arguments(Count(arguments))
             || (form.SquareRoot? && Count(arguments) == 1 && !(from + 1 < |tokens| && tokens[from + 1] == Op("["))))
         && AreArguments(tables, tokens, arguments, from + 1)
       case Root(index, closed, radicand) =>
         && form.SquareRoot? && from + 1 < |tokens| && tokens[from + 1] == Op("[")
         && IsRow(tables, tokens, index, from + 2, AtBracket)
         && RowEnds(tokens, from + 2 + SizeAll(index), AtBracket, closed)
         && IsArgument(tables, tokens, radicand, from + 2 + SizeAll(index) + One(closed))
       case Fenced(begun, items, closed, ended) =>
         && form.Fence? && (begun <==> from + 1 < |tokens|)
         && IsRow(tables, tokens, items, from + 1 + One(begun), AtRight)
         && RowEnds(tokens, from + 1 + One(begun) + SizeAll(items), AtRight, closed)
         && (ended <==> from + 1 + One(begun) + SizeAll(items) + One(closed) < |tokens|)
       case Table(parts, closed) =>
         && form.Environment? && AreParts(tables, tokens, parts, from + 1)
         && (closed <==> EndAt(tokens, from + 1 + SizeAll(parts)))
         && from + 1 + SizeAll(parts) <= |tokens|
         && (!closed ==> StartsNothing(tokens, from + 1 + SizeAll(parts)))
       case _ => false
  }

  /** The atom that follows, or nothing where no atom begins. */
  predicate IsArgument(tables: Tables, tokens: seq<Token>, t: Tree, from: nat)
    decreases t, 1
  {
    if StartsNothing(tokens, from) then t == Missing else IsAtom(tables, tokens, t, from)
  }

  predicate AreArguments(tables: Tables, tokens: seq<Token>, ts: Trees, from: nat)
    decreases ts, 0
  {
    ts == NoTrees ||
    (AreArguments(tables, tokens, ts.before, from) && IsArgument(tables, tokens, ts.last, from + SizeAll(ts.before)))
  }

  /** An atom with all the scripts that follow it. */
  predicate IsUnit(tables: Tables, tokens: seq<Token>, t: Tree, from: nat)
    decreases t, 1
  {
    && !ScriptAt(tokens, from + Size(t))
    && (if t.Scripted? then
          IsAtom(tables, tokens, t.base, from) && t.scripts != NoTrees
          && AreScripts(tables, tokens, t.scripts, from + Size(t.base))
        else IsAtom(tables, tokens, t, from))
  }

  predicate AreScripts(tables: Tables, tokens: seq<Token>, ts: Trees, from: nat)
    decreases ts, 0
  {
    ts == NoTrees ||
    (&& AreScripts(tables, tokens, ts.before, from)
     && var p := from + SizeAll(ts.before);
     ts.last.Script? && ScriptAt(tokens, p) && IsArgument(tables, tokens, ts.last.value, p + 1))
  }

  /** Units one after another, none of them at the stop. */
  predicate IsRow(tables: Tables, tokens: seq<Token>, ts: Trees, from: nat, stop: Stop)
    decreases ts, 0
  {
    ts == NoTrees ||
    (&& IsRow(tables, tokens, ts.before, from, stop)
     && !StopsAt(tokens, from + SizeAll(ts.before), stop)
     && IsUnit(tables, tokens, ts.last, from + SizeAll(ts.before)))
  }

  /** The units of a table with the cell and row breaks between them. */
  predicate AreParts(tables: Tables, tokens: seq<Token>, ts: Trees, from: nat)
    decreases ts, 0
  {
    ts == NoTrees ||
    (&& AreParts(tables, tokens, ts.before, from)
     && var p := from + SizeAll(ts.before);
     && !EndAt(tokens, p)
     && (if BreakAt(tokens, p) then ts.last == Break else IsUnit(tables, tokens, ts.last, p)))
  }

  /** A formula read as far as it can be: up to the end, or to a brace or script that belongs to nothing. */
  predicate IsReading(tables: Tables, tokens: seq<Token>, ts: Trees) {
    IsRow(tables, tokens, ts, 0, Never) && SizeAll(ts) <= |tokens| && StartsNothing(tokens, SizeAll(ts))
  }

  // ----------------------------------------------------------------- What a leaf prints

  const NORMAL := Quoted(" mathvariant=", "normal")
  const BOLD := Quoted(" mathvariant=", "bold")
  const ITALIC := Quoted(" mathvariant=", "italic")
  const MONOSPACE := Quoted(" mathvariant=", "monospace")
  const SANS_SERIF := Quoted(" mathvariant=", "sans-serif")
  const LIMITS := Quoted(" data-limits=", "1")
  const LARGE := Quoted(" largeop=", "true")
  const MOVABLE := Quoted(" movablelimits=", "true")
  const FORM_PREFIX := Quoted(" form=", "prefix")
  const BIG_OPERATOR := LIMITS + LARGE + MOVABLE
  const LIMIT_FUNCTION := LIMITS + MOVABLE + NORMAL
  const FUNCTION := Spaced("0.167em") + NORMAL
  const MOD := Spaced("0.222em")
  const PREFIX := FORM_PREFIX + Spaced("0em")
  const NEWLINE := Quoted(" linebreak=", "newline")
  const STRETCHY := Quoted(" stretchy=", "true")
  const NO_LINE := Quoted(" linethickness=", "0")
  const GAP_BEFORE := Quoted(" width=", "0.444em")
  const GAP_INSIDE := Quoted(" width=", "0.333em")
  const ACCENT := Quoted(" accent=", "true")
  const ALIGNED_LEFT := Quoted(" columnalign=", "left")

  function Quoted(key: string, value: string): string {
    key + "\"" + value + "\""
  }

  function Spaced(width: string): string {
    Quoted(" lspace=", width) + Quoted(" rspace=", width)
  }

  function Leaf1(tag: string, attributes: string, text: string): Markup {
    Element(tag, attributes, [Text(text)])
  }

  /** Leading and trailing spaces pinned open with non-breaking ones. */
  function Pinned(s: string): string {
    var start := RunEnd(s, 0, c => c == ' ');
    Blanks(start) + PinnedEnd(s[start..])
  }

  function PinnedEnd(s: string): string {
    if s != "" && s[|s| - 1] == ' ' then PinnedEnd(s[..|s| - 1]) + "\U{00A0}" else s
  }

  function Blanks(n: nat): string {
    seq(n, _ => '\U{00A0}')
  }

  function RawText(raw: Option<string>): string {
    if raw.Some? then raw.value else ""
  }

  function FixedMarkup(tables: Tables, name: string, raw: Option<string>): Markup {
    if Found(tables.greek, name) then Leaf1("mi", "", Value(tables.greek, name))
    else if Found(tables.symbols, name) then Leaf1("mo", "", MathEscaped(Value(tables.symbols, name)))
    else if Found(tables.big, name) then
      Leaf1("mo", BIG_OPERATOR, MathEscaped(Value(tables.big, name)))
    else if name in tables.functions then Leaf1("mo", FUNCTION, name)
    else if name in tables.limitFunctions then Leaf1("mo", LIMIT_FUNCTION, name)
    else if Found(tables.spacing, name) then Space(tables, name)
    else if name in {"text", "textrm", "mbox"} then Leaf1("mtext", "", Pinned(MathEscaped(RawText(raw))))
    else if name == "textbf" then Leaf1("mtext", BOLD, Pinned(MathEscaped(RawText(raw))))
    else if name == "textit" then Leaf1("mtext", ITALIC, Pinned(MathEscaped(RawText(raw))))
    else if name == "texttt" then Leaf1("mtext", MONOSPACE, Pinned(MathEscaped(RawText(raw))))
    else if name == "textsf" then Leaf1("mtext", SANS_SERIF, Pinned(MathEscaped(RawText(raw))))
    else if name == "operatorname" then Leaf1("mi", NORMAL, MathEscaped(RawText(raw)))
    else if name == "bmod" then Leaf1("mo", MOD, "mod")
    else if name in OTHER_FIXED then []
    else Leaf1("mi", NORMAL, MathEscaped("\\" + name))
  }

  function Space(tables: Tables, name: string): Markup {
    Element("mspace", Quoted(" width=", Value(tables.spacing, name)), [])
  }

  /** A sign is unary at the start, or after an opening token, a separator or another operator. */
  predicate IsUnary(tables: Tables, tokens: seq<Token>, p: nat)
    requires p < |tokens|
  {
    p == 0 || match tokens[p - 1]
      case Open => true
      case Amp => true
      case Sub => true
      case Sup => true
      case Op(v) => v !in {"", ")", "]", "}", ")]", "]}", ")]}"}
      case Cmd(v, _) => v !in tables.ordinary && (Found(tables.symbols, v) || Found(tables.big, v))
      case _ => false
  }

  function LeafMarkup(tables: Tables, tokens: seq<Token>, p: nat): Markup {
    if p >= |tokens| then []
    else match tokens[p]
      case Amp => Leaf1("mo", "", "&amp;")
      case Num(v) => Leaf1("mn", "", v)
      case Ident(v) => Leaf1("mi", "", v)
      case Op(v) =>
        if v == "-" || v == "+" then
          Leaf1("mo", if IsUnary(tables, tokens, p) then PREFIX else "",
                if v == "-" then "\U{2212}" else "+")
        else if v == "'" then Leaf1("mo", "", "\U{2032}")
        else Leaf1("mo", "", MathEscaped(v))
      case Esc(v) =>
        if v == "\\" then Element("mspace", NEWLINE, [])
        else if Found(tables.spacing, v) then Space(tables, v)
        else Leaf1("mo", "", MathEscaped(v))
      case Cmd(v, raw) => FixedMarkup(tables, v, raw)
      case _ => []
  }

  // ---------------------------------------------------------------- What a construct prints

  function Wrap(items: seq<Markup>): Markup {
    if |items| == 1 then items[0] else Element("mrow", "", Joined(items))
  }

  function Nth(items: seq<Markup>, i: nat): Markup {
    if i < |items| then items[i] else []
  }

  function Stretchy(text: string): Markup {
    Leaf1("mo", STRETCHY, text)
  }

  function CommandMarkup(tables: Tables, name: string, arguments: seq<Markup>): Markup {
    var x, y := Nth(arguments, 0), Nth(arguments, 1);
    if name in {"frac", "dfrac", "tfrac", "cfrac"} then Element("mfrac", "", x + y)
    else if name in {"binom", "dbinom", "tbinom"} then
      Element("mrow", "", Stretchy("(") + Element("mfrac", NO_LINE, x + y) + Stretchy(")"))
    else if name == "sqrt" then Element("msqrt", "", x)
    else if name == "pmod" then
      Element("mrow", "", Element("mspace", GAP_BEFORE, []) + Leaf1("mo", "", "(") + Leaf1("mi", NORMAL, "mod")
        + Element("mspace", GAP_INSIDE, []) + x + Leaf1("mo", "", ")"))
    else if name == "overbrace" then Element("mover", "", x + Stretchy("\U{23DE}"))
    else if name == "underbrace" then Element("munder", "", x + Stretchy("\U{23DF}"))
    else if name == "substack" then x
    else if Found(tables.variants, name) then Element("mstyle", Quoted(" mathvariant=", Value(tables.variants, name)),
                                                      x)
    else if Found(tables.accents, name) then
      var wide := name in {"overline", "bar", "widehat", "widetilde", "vec"};
      Element("mover", ACCENT,
              x + Leaf1("mo", if wide then STRETCHY else "", MathEscaped(Value(tables.accents, name))))
    else Element("munder", ACCENT, x + Stretchy("_"))
  }

  predicate Contains(s: string, part: string)
    decreases |s|
  {
    part <= s || (s != "" && Contains(s[1..], part))
  }

  /** In display math the scripts of anything whose markup mentions limits are stacked. */
  predicate Stacked(display: bool, base: Markup) {
    display && Contains(Flatten(base), "data-limits=\"1\"")
  }

  function ScriptedMarkup(display: bool, base: Markup, sub: Option<Markup>, sup: Option<Markup>): Markup {
    var stacked := Stacked(display, base);
    if sub.Some? && sup.Some? then
      Element(if stacked then "munderover" else "msubsup", "", base + sub.value + sup.value)
    else if sub.Some? then Element(if stacked then "munder" else "msub", "", base + sub.value)
    else if sup.Some? then Element(if stacked then "mover" else "msup", "", base + sup.value)
    else base
  }

  function DelimiterText(tables: Tables, t: Token): string {
    match t
    case Cmd(v, _) => if "\\" + v in tables.delimiters then tables.delimiters["\\" + v] else ""
    case Esc(v) => if "\\" + v in tables.delimiters then tables.delimiters["\\" + v] else v
    case Num(v) => if Found(tables.delimiters, v) then Value(tables.delimiters, v) else v
    case Ident(v) => if Found(tables.delimiters, v) then Value(tables.delimiters, v) else v
    case Op(v) => if Found(tables.delimiters, v) then Value(tables.delimiters, v) else v
    case _ => ""
  }

  function FenceMarkup(text: string): Markup {
    if text == "" then [] else Stretchy(MathEscaped(text))
  }

  function DelimiterAt(tables: Tables, tokens: seq<Token>, p: nat, there: bool): Markup {
    if there && p < |tokens| then FenceMarkup(DelimiterText(tables, tokens[p])) else []
  }

  // A table: its rows, of cells, of items.

  function Cell(items: seq<Markup>): Markup {
    Element("mtd", "", Wrap(items))
  }

  function CellsMarkup(cells: seq<seq<Markup>>): seq<Markup> {
    if cells == [] then [] else CellsMarkup(cells[..|cells| - 1]) + [Cell(cells[|cells| - 1])]
  }

  function RowsMarkup(rows: seq<seq<seq<Markup>>>): seq<Markup> {
    if rows == [] then []
    else RowsMarkup(rows[..|rows| - 1]) + [Element("mtr", "", Joined(CellsMarkup(rows[|rows| - 1])))]
  }

  /** The size of a fence beside that many rows. */
  function Grown(rows: nat): string {
    if rows <= 1 then "1.00" else if rows == 2 then "2.15" else if rows == 3 then "3.30" else "4.00"
  }

  function GrownAttributes(rows: nat): string {
    STRETCHY + Quoted(" style=", "font-size:" + Grown(rows) + "em")
  }

  function Sized(rows: nat, text: string): Markup {
    if text == "" then []
    else Leaf1("mo", GrownAttributes(rows), MathEscaped(text))
  }

  function FencesOf(tables: Tables, name: string): (string, string) {
    if name in tables.environments then tables.environments[name] else ("", "")
  }

  function TableMarkup(tables: Tables, name: string, rows: seq<seq<seq<Markup>>>): Markup {
    var (open, close) := FencesOf(tables, name);
    var table := Element("mtable", if name == "cases" then ALIGNED_LEFT else "", Joined(RowsMarkup(rows)));
    if open == "" && close == "" then Element("mrow", "", table)
    else Element("mrow", "", Sized(|rows|, open) + table + Sized(|rows|, close))
  }

  function NameAt(tokens: seq<Token>, p: nat): string {
    if p < |tokens| && tokens[p].Cmd? then tokens[p].v else ""
  }

  function EnvironmentAt(tokens: seq<Token>, p: nat): string {
    if p < |tokens| && tokens[p].Cmd? then RawText(tokens[p].raw) else ""
  }

  type Rows = rows: seq<seq<seq<Markup>>> | rows != [] && rows[|rows| - 1] != [] witness [[[]]]

  function WithBreak(rows: Rows, cell: bool): Rows {
    if cell then rows[|rows| - 1 := rows[|rows| - 1] + [[]]] else rows + [[[]]]
  }

  function WithItem(rows: Rows, item: Markup): Rows {
    var cells := rows[|rows| - 1];
    rows[|rows| - 1 := cells[|cells| - 1 := cells[|cells| - 1] + [item]]]
  }

  // ------------------------------------------------------------------ What a tree prints

  function Print(tables: Tables, tokens: seq<Token>, display: bool, t: Tree, from: nat): Markup {
    match t
    case Leaf => LeafMarkup(tables, tokens, from)
    case Missing => Element("mrow", "", [])
    case Group(items, _) => Element("mrow", "", Joined(PrintAll(tables, tokens, display, items, from + 1)))
    case Scripted(base, scripts) =>
      ScriptedMarkup(display, Print(tables, tokens, display, base, from),
                     LastScript(tables, tokens, display, scripts, from + Size(base), true),
                     LastScript(tables, tokens, display, scripts, from + Size(base), false))
    case Script(value) => Print(tables, tokens, display, value, from + 1)
    case Command(arguments) =>
      CommandMarkup(tables, NameAt(tokens, from), PrintAll(tables, tokens, display, arguments, from + 1))
    case Root(index, closed, radicand) =>
      Element("mroot", "", Print(tables, tokens, display, radicand, from + 2 + SizeAll(index) + One(closed))
        + Wrap(PrintAll(tables, tokens, display, index, from + 2)))
    case Fenced(begun, items, closed, ended) =>
      var inner := from + 1 + One(begun);
      Element("mrow", "", DelimiterAt(tables, tokens, from + 1, begun) + Joined(PrintAll(tables, tokens, display,
          items, inner))
        + DelimiterAt(tables, tokens, inner + SizeAll(items) + One(closed), ended))
    case Table(parts, _) =>
      TableMarkup(tables, EnvironmentAt(tokens, from), RowsOf(tables, tokens, display, parts, from + 1))
    case Break => []
  }

  function PrintAll(tables: Tables, tokens: seq<Token>, display: bool, ts: Trees, from: nat): seq<Markup> {
    if ts == NoTrees then []
    else
      var before := PrintAll(tables, tokens, display, ts.before, from);
      before + [Print(tables, tokens, display, ts.last, from + SizeAll(ts.before))]
  }

  /** The last script of a kind wins. */
  function LastScript(tables: Tables, tokens: seq<Token>, display: bool, ts: Trees, from: nat,
                      sub: bool): Option<Markup> {
    if ts == NoTrees then None
    else
      var p := from + SizeAll(ts.before);
      if p < |tokens| && tokens[p].Sub? == sub then Some(Print(tables, tokens, display, ts.last, p))
      else LastScript(tables, tokens, display, ts.before, from, sub)
  }

  function RowsOf(tables: Tables, tokens: seq<Token>, display: bool, ts: Trees, from: nat): Rows {
    if ts == NoTrees then [[[]]]
    else
      var p := from + SizeAll(ts.before);
      var rows := RowsOf(tables, tokens, display, ts.before, from);
      if ts.last.Break? then WithBreak(rows, p < |tokens| && tokens[p].Amp?)
      else WithItem(rows, Print(tables, tokens, display, ts.last, p))
  }

  /** Whether any environment in the tree is one that cannot be taken apart, its name being an inherited one. */
  predicate Throws(tables: Tables, tokens: seq<Token>, t: Tree, from: nat) {
    match t
    case Leaf => false
    case Missing => false
    case Group(items, _) => ThrowAny(tables, tokens, items, from + 1)
    case Scripted(base, scripts) => Throws(tables, tokens, base, from) || ThrowAny(tables, tokens, scripts,
        from + Size(base))
    case Script(value) => Throws(tables, tokens, value, from + 1)
    case Command(arguments) => ThrowAny(tables, tokens, arguments, from + 1)
    case Root(index, closed, radicand) =>
      || ThrowAny(tables, tokens, index, from + 2)
      || Throws(tables, tokens, radicand, from + 2 + SizeAll(index) + One(closed))
    case Fenced(begun, items, _, _) => ThrowAny(tables, tokens, items, from + 1 + One(begun))
    case Table(parts, _) => BadName(tables, EnvironmentAt(tokens, from)) || ThrowAny(tables, tokens, parts, from + 1)
    case Break => false
  }

  predicate ThrowAny(tables: Tables, tokens: seq<Token>, ts: Trees, from: nat) {
    ts != NoTrees &&
    (ThrowAny(tables, tokens, ts.before, from) || Throws(tables, tokens, ts.last, from + SizeAll(ts.before)))
  }

  predicate BadName(tables: Tables, name: string) {
    name !in tables.environments && name in INHERITED
  }
}
