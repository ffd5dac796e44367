/** Which element each construct becomes, and which stretch of tokens each child of the element is. */
module MathSpans {
  import opened Options
  import opened Escape
  import opened MathTokens
  import opened MathMarkup
  import opened MathTree
  import opened MathUnfold
  import opened MathContent

  /** No table of words without arguments holds the name. */
  predicate IsPlain(tables: Tables, name: string) {
    && name !in tables.greek && name !in tables.symbols && name !in tables.big && name !in tables.functions
    && name !in tables.limitFunctions && name !in tables.spacing
  }

  lemma NotInherited(name: string)
    requires name in FRACTIONS + BINOMIALS + {"sqrt", "pmod", "overbrace", "underbrace", "substack", "begin", "left"}
    ensures name !in INHERITED
  {
    if name in FRACTIONS + BINOMIALS {
    } else if name in {"sqrt", "pmod", "begin", "left"} {
    }
  }

  lemma PlainForms(tables: Tables, name: string)
    requires IsPlain(tables, name)
    ensures name in FRACTIONS + BINOMIALS ==> FormOf(tables, name) == Arguments(2)
    ensures name == "sqrt" ==> FormOf(tables, name).SquareRoot?
    ensures name == "begin" ==> FormOf(tables, name).Environment?
    ensures name == "left" ==> FormOf(tables, name).Fence?
    ensures name in {"pmod", "overbrace", "underbrace", "substack"} ==> FormOf(tables, name) == Arguments(1)
  {
    hide INHERITED, OTHER_FIXED;
    if name in FRACTIONS + BINOMIALS + {"sqrt", "pmod", "overbrace", "underbrace", "substack", "begin", "left"} {
      NotInherited(name);
    }
  }

  // ---------------------------------------------------------------- Two arguments, or one

  lemma TwoArguments(tables: Tables, tokens: seq<Token>, display: bool, t: Tree, from: nat)
    returns (a: Tree, b: Tree)
    requires from < |tokens| && tokens[from].Cmd? && IsAtom(tables, tokens, t, from)
    requires FormOf(tables, tokens[from].v) == Arguments(2)
    ensures IsArgument(tables, tokens, a, from + 1) && IsArgument(tables, tokens, b, from + 1 + Size(a))
    ensures Size(t) == 1 + Size(a) + Size(b)
    ensures Print(tables, tokens, display, t, from) ==
            CommandMarkup(tables, tokens[from].v, [Print(tables, tokens, display, a, from + 1),
                                                   Print(tables, tokens, display, b, from + 1 + Size(a))])
  {
    hide Print, PrintAll, Size, SizeAll, FormOf, CommandMarkup, IsArgument, AreArguments, IsRow;
    var ts := t.arguments;
    CommandPrints(tables, tokens, display, ts, from);
    TwoTrees(ts);
    a, b := ts.before.last, ts.last;
    assert ts == More(More(NoTrees, a), b);
    TwoAreArguments(tables, tokens, a, b, from + 1);
    NothingYet(tables, tokens, display, from + 1, Never);
    OneMoreSize(NoTrees, a);
    OneMoreSize(More(NoTrees, a), b);
    OneMorePrint(tables, tokens, display, NoTrees, a, from + 1);
    OneMorePrint(tables, tokens, display, More(NoTrees, a), b, from + 1);
    var x, y := Print(tables, tokens, display, a, from + 1), Print(tables, tokens, display, b, from + 1 + Size(a));
    assert [] + [x] + [y] == [x, y];
  }

  lemma TwoTrees(ts: Trees)
    requires Count(ts) == 2
    ensures ts.More? && ts.before.More? && ts.before.before == NoTrees
  {
    if ts.before.More? {
      assert Count(ts.before.before) == 0;
    }
  }

  lemma TwoAreArguments(tables: Tables, tokens: seq<Token>, a: Tree, b: Tree, from: nat)
    requires AreArguments(tables, tokens, More(More(NoTrees, a), b), from)
    ensures IsArgument(tables, tokens, a, from) && IsArgument(tables, tokens, b, from + Size(a))
  {
    hide IsArgument, Size;
    assert SizeAll(NoTrees) == 0 && SizeAll(More(NoTrees, a)) == Size(a);
    assert AreArguments(tables, tokens, More(NoTrees, a), from);
  }

  lemma OneArgument(tables: Tables, tokens: seq<Token>, display: bool, t: Tree, from: nat) returns (a: Tree)
    requires from < |tokens| && tokens[from].Cmd? && IsAtom(tables, tokens, t, from)
    requires
      var form := FormOf(tables, tokens[from].v);
      form == Arguments(1) || (form.SquareRoot? && !(from + 1 < |tokens| && tokens[from + 1] == Op("[")))
    ensures IsArgument(tables, tokens, a, from + 1) && Size(t) == 1 + Size(a)
    ensures Print(tables, tokens, display, t, from) ==
            CommandMarkup(tables, tokens[from].v, [Print(tables, tokens, display, a, from + 1)])
  {
    hide Print, PrintAll, Size, SizeAll, FormOf, CommandMarkup, IsArgument, AreArguments, IsRow;
    var ts := t.arguments;
    CommandPrints(tables, tokens, display, ts, from);
    OneTree(ts);
    a := ts.last;
    assert ts == More(NoTrees, a);
    OneIsArgument(tables, tokens, a, from + 1);
    NothingYet(tables, tokens, display, from + 1, Never);
    OneMoreSize(NoTrees, a);
    OneMorePrint(tables, tokens, display, NoTrees, a, from + 1);
    var x := Print(tables, tokens, display, a, from + 1);
    assert [] + [x] == [x];
  }

  lemma OneTree(ts: Trees)
    requires Count(ts) == 1
    ensures ts.More? && ts.before == NoTrees
  {
  }

  lemma OneIsArgument(tables: Tables, tokens: seq<Token>, a: Tree, from: nat)
    requires AreArguments(tables, tokens, More(NoTrees, a), from)
    ensures IsArgument(tables, tokens, a, from)
  {
    hide IsArgument;
    assert SizeAll(NoTrees) == 0;
  }

  // -------------------------------------------------------------- Construct by construct

  /** A fraction: first what comes first, over what comes after it. */
  lemma FractionSpans(tables: Tables, tokens: seq<Token>, display: bool, t: Tree, from: nat)
    returns (over: Tree, under: Tree)
    requires from < |tokens| && tokens[from].Cmd? && IsAtom(tables, tokens, t, from) && tokens[from].v in FRACTIONS
    requires IsPlain(tables, tokens[from].v)
    ensures IsArgument(tables, tokens, over, from + 1) && IsArgument(tables, tokens, under, from + 1 + Size(over))
    ensures Size(t) == 1 + Size(over) + Size(under)
    ensures Print(tables, tokens, display, t, from) ==
            [Start("mfrac", "")] + Print(tables, tokens, display, over, from + 1)
              + Print(tables, tokens, display, under, from + 1 + Size(over)) + [End("mfrac")]
  {
    hide Print, Size, FormOf, IsArgument, IsAtom;
    PlainForms(tables, tokens[from].v);
    over, under := TwoArguments(tables, tokens, display, t, from);
    FractionIs(tables, tokens[from].v, Print(tables, tokens, display, over, from + 1),
               Print(tables, tokens, display, under, from + 1 + Size(over)));
  }

  lemma FractionIs(tables: Tables, name: string, x: Markup, y: Markup)
    requires name in FRACTIONS
    ensures CommandMarkup(tables, name, [x, y]) == [Start("mfrac", "")] + x + y + [End("mfrac")]
  {
    hide Found, Value, Stretchy, Leaf1;
  }

  /** A binomial: the same over one another without a line, in parentheses. */
  lemma BinomialSpans(tables: Tables, tokens: seq<Token>, display: bool, t: Tree, from: nat)
    returns (over: Tree, under: Tree)
    requires from < |tokens| && tokens[from].Cmd? && IsAtom(tables, tokens, t, from) && tokens[from].v in BINOMIALS
    requires IsPlain(tables, tokens[from].v)
    ensures IsArgument(tables, tokens, over, from + 1) && IsArgument(tables, tokens, under, from + 1 + Size(over))
    ensures Size(t) == 1 + Size(over) + Size(under)
    ensures Print(tables, tokens, display, t, from) ==
            [Start("mrow", ""), Start("mo", STRETCHY), Text("("), End("mo"), Start("mfrac", NO_LINE)]
              + Print(tables, tokens, display, over, from + 1)
              + Print(tables, tokens, display, under, from + 1 + Size(over))
              + [End("mfrac"), Start("mo", STRETCHY), Text(")"), End("mo"), End("mrow")]
  {
    hide Print, Size, FormOf, IsArgument, IsAtom;
    PlainForms(tables, tokens[from].v);
    over, under := TwoArguments(tables, tokens, display, t, from);
    BinomialIs(tables, tokens[from].v, Print(tables, tokens, display, over, from + 1),
               Print(tables, tokens, display, under, from + 1 + Size(over)));
  }

  lemma BinomialIs(tables: Tables, name: string, x: Markup, y: Markup)
    requires name in BINOMIALS
    ensures CommandMarkup(tables, name, [x, y]) ==
            [Start("mrow", ""), Start("mo", STRETCHY), Text("("), End("mo"), Start("mfrac", NO_LINE)] + x + y
              + [End("mfrac"), Start("mo", STRETCHY), Text(")"), End("mo"), End("mrow")]
  {
    hide Found, Value, STRETCHY, NO_LINE;
  }

  lemma SquareRootSpans(tables: Tables, tokens: seq<Token>, display: bool, t: Tree, from: nat) returns (under: Tree)
    requires from < |tokens| && tokens[from].Cmd? && IsAtom(tables, tokens, t, from) && tokens[from].v == "sqrt"
    requires IsPlain(tables, "sqrt") && !(from + 1 < |tokens| && tokens[from + 1] == Op("["))
    ensures IsArgument(tables, tokens, under, from + 1) && Size(t) == 1 + Size(under)
    ensures Print(tables, tokens, display, t, from) ==
            [Start("msqrt", "")] + Print(tables, tokens, display, under, from + 1) + [End("msqrt")]
  {
    hide Print, Size, FormOf, IsArgument, IsAtom;
    PlainForms(tables, "sqrt");
    under := OneArgument(tables, tokens, display, t, from);
    SquareRootIs(tables, Print(tables, tokens, display, under, from + 1));
  }

  lemma SquareRootIs(tables: Tables, x: Markup)
    ensures CommandMarkup(tables, "sqrt", [x]) == [Start("msqrt", "")] + x + [End("msqrt")]
  {
    hide Found, Value, Stretchy, Leaf1;
  }

  /** A root with an index in brackets: what stands under it comes first, though it was written last. */
  lemma RootSpans(tables: Tables, tokens: seq<Token>, display: bool, t: Tree, from: nat)
    returns (index: Trees, closed: bool, under: Tree)
    requires from < |tokens| && tokens[from].Cmd? && IsAtom(tables, tokens, t, from) && tokens[from].v == "sqrt"
    requires IsPlain(tables, "sqrt") && from + 1 < |tokens| && tokens[from + 1] == Op("[")
    ensures IsRow(tables, tokens, index, from + 2, AtBracket)
    ensures RowEnds(tokens, from + 2 + SizeAll(index), AtBracket, closed)
    ensures
      var p := from + 2 + SizeAll(index) + One(closed);
      && IsArgument(tables, tokens, under, p) && from + Size(t) == p + Size(under)
      && Print(tables, tokens, display, t, from) ==
           [Start("mroot", "")] + Print(tables, tokens, display, under, p)
             + Gathered(PrintAll(tables, tokens, display, index, from + 2)) + [End("mroot")]
  {
    hide Print, PrintAll, Size, SizeAll, FormOf, IsArgument, IsRow, AreArguments, RowEnds, Count;
    PlainForms(tables, "sqrt");
    index, closed, under := t.index, t.closed, t.radicand;
    RootPrints(tables, tokens, display, index, closed, under, from);
    GatheredIs(PrintAll(tables, tokens, display, index, from + 2));
  }

  /** One item as it is, any other number in a row of its own. */
  function Gathered(items: seq<Markup>): Markup {
    if |items| == 1 then items[0] else [Start("mrow", "")] + Joined(items) + [End("mrow")]
  }

  lemma GatheredIs(items: seq<Markup>)
    ensures Wrap(items) == Gathered(items)
  {
  }

  /** A command with one argument puts its mark after it, over it or around it. */
  function Decorated(name: string, x: Markup): Markup {
    if name == "pmod" then
      [Start("mrow", ""), Start("mspace", GAP_BEFORE), End("mspace"), Start("mo", ""), Text("("), End("mo"),
       Start("mi", NORMAL), Text("mod"), End("mi"), Start("mspace", GAP_INSIDE), End("mspace")]
        + x + [Start("mo", ""), Text(")"), End("mo"), End("mrow")]
    else if name == "overbrace" then
      [Start("mover", "")] + x + [Start("mo", STRETCHY), Text("\U{23DE}"), End("mo"), End("mover")]
    else if name == "underbrace" then
      [Start("munder", "")] + x + [Start("mo", STRETCHY), Text("\U{23DF}"), End("mo"), End("munder")]
    else x
  }

  lemma PmodIs(tables: Tables, x: Markup)
    ensures CommandMarkup(tables, "pmod", [x]) == Decorated("pmod", x)
  {
    hide Found, Value, STRETCHY, NO_LINE, GAP_BEFORE, GAP_INSIDE, NORMAL;
  }

  lemma BraceIs(tables: Tables, name: string, x: Markup)
    requires name in {"overbrace", "underbrace", "substack"}
    ensures CommandMarkup(tables, name, [x]) == Decorated(name, x)
  {
    hide Found, Value, STRETCHY, NO_LINE, GAP_BEFORE, GAP_INSIDE, NORMAL;
  }

  lemma DecorationSpans(tables: Tables, tokens: seq<Token>, display: bool, t: Tree, from: nat) returns (inside: Tree)
    requires from < |tokens| && tokens[from].Cmd? && IsAtom(tables, tokens, t, from)
    requires tokens[from].v in {"pmod", "overbrace", "underbrace", "substack"} && IsPlain(tables, tokens[from].v)
    ensures IsArgument(tables, tokens, inside, from + 1) && Size(t) == 1 + Size(inside)
    ensures Print(tables, tokens, display, t, from) ==
            Decorated(tokens[from].v, Print(tables, tokens, display, inside, from + 1))
  {
    hide Print, Size, FormOf, IsArgument, IsAtom, CommandMarkup, Decorated;
    PlainForms(tables, tokens[from].v);
    inside := OneArgument(tables, tokens, display, t, from);
    if tokens[from].v == "pmod" {
      PmodIs(tables, Print(tables, tokens, display, inside, from + 1));
    } else {
      BraceIs(tables, tokens[from].v, Print(tables, tokens, display, inside, from + 1));
    }
  }

  /** Accents over their argument, styles around it: only for a name that means nothing else. */
  lemma AccentSpans(tables: Tables, tokens: seq<Token>, display: bool, t: Tree, from: nat) returns (inside: Tree)
    requires from < |tokens| && tokens[from].Cmd? && IsAtom(tables, tokens, t, from)
    requires FormOf(tables, tokens[from].v) == Arguments(1)
    requires tokens[from].v !in {"pmod", "overbrace", "underbrace", "substack"}
    ensures IsArgument(tables, tokens, inside, from + 1) && Size(t) == 1 + Size(inside)
    ensures
      var name, x, m := tokens[from].v, Print(tables, tokens, display, inside, from + 1),
                        Print(tables, tokens, display, t, from);
      && (name in tables.variants ==>
            m == [Start("mstyle", " mathvariant=\"" + tables.variants[name] + "\"")] + x + [End("mstyle")])
      && (name !in tables.variants && name in tables.accents && name !in INHERITED ==>
            exists more :: more in {"", " stretchy=\"true\""}
              && (more == "" <==> name !in {"overline", "bar", "widehat", "widetilde", "vec"})
              && m == [Start("mover", " accent=\"true\"")] + x
                        + [Start("mo", more), Text(MathEscaped(tables.accents[name])), End("mo"), End("mover")])
      && (name == "underline" && !Found(tables.variants, name) && !Found(tables.accents, name) ==>
            m == [Start("munder", " accent=\"true\"")] + x
                   + [Start("mo", " stretchy=\"true\""), Text("_"), End("mo"), End("munder")])
  {
    hide Print, Size, IsArgument, IsAtom, FormOf, CommandMarkup, INHERITED, Found;
    inside := OneArgument(tables, tokens, display, t, from);
    var name, x := tokens[from].v, Print(tables, tokens, display, inside, from + 1);
    OneArgumentName(tables, name);
    AccentIs(tables, name, x);
  }

  lemma OneArgumentName(tables: Tables, name: string)
    requires FormOf(tables, name) == Arguments(1)
    ensures name !in FRACTIONS + BINOMIALS + {"sqrt"}
  {
    hide Found, OTHER_FIXED;
  }

  lemma AttributeIs(name: string, tables: Tables)
    ensures name in tables.variants ==>
      Quoted(" mathvariant=", Value(tables.variants, name)) == " mathvariant=\"" + tables.variants[name] + "\""
  {
  }

  lemma AccentIs(tables: Tables, name: string, x: Markup)
    requires name !in FRACTIONS + BINOMIALS + {"sqrt"}
    requires name !in {"pmod", "overbrace", "underbrace", "substack"}
    ensures
      var m := CommandMarkup(tables, name, [x]);
      && (name in tables.variants ==>
            m == [Start("mstyle", " mathvariant=\"" + tables.variants[name] + "\"")] + x + [End("mstyle")])
      && (name !in tables.variants && name in tables.accents && name !in INHERITED ==>
            exists more :: more in {"", " stretchy=\"true\""}
              && (more == "" <==> name !in {"overline", "bar", "widehat", "widetilde", "vec"})
              && m == [Start("mover", " accent=\"true\"")] + x
                        + [Start("mo", more), Text(MathEscaped(tables.accents[name])), End("mo"), End("mover")])
      && (name == "underline" && !Found(tables.variants, name) && !Found(tables.accents, name) ==>
            m == [Start("munder", " accent=\"true\"")] + x
                   + [Start("mo", " stretchy=\"true\""), Text("_"), End("mo"), End("munder")])
  {
    hide INHERITED, MathEscaped;
    AttributeIs(name, tables);
    var more := if name in {"overline", "bar", "widehat", "widetilde", "vec"} then STRETCHY else "";
    assert STRETCHY == " stretchy=\"true\"" && ACCENT == " accent=\"true\"";
  }

  // ------------------------------------------------------------------ Groups and fences

  /** The items of a row stand side by side, each from where the one before it ends. */
  lemma RowGoesOn(tables: Tables, tokens: seq<Token>, display: bool, ts: Trees, t: Tree, from: nat)
    ensures Joined(PrintAll(tables, tokens, display, NoTrees, from)) == []
    ensures Joined(PrintAll(tables, tokens, display, More(ts, t), from)) ==
            Joined(PrintAll(tables, tokens, display, ts, from))
              + Print(tables, tokens, display, t, from + SizeAll(ts))
  {
    hide Print, PrintAll, SizeAll;
    NothingYet(tables, tokens, display, from, Never);
    OneMorePrint(tables, tokens, display, ts, t, from);
  }

  lemma GroupSpans(tables: Tables, tokens: seq<Token>, display: bool, t: Tree, from: nat)
    returns (items: Trees, closed: bool)
    requires from < |tokens| && tokens[from].Open? && IsAtom(tables, tokens, t, from)
    ensures IsRow(tables, tokens, items, from + 1, AtClose)
    ensures RowEnds(tokens, from + 1 + SizeAll(items), AtClose, closed)
    ensures Size(t) == 1 + SizeAll(items) + One(closed)
    ensures Print(tables, tokens, display, t, from) ==
            [Start("mrow", "")] + Joined(PrintAll(tables, tokens, display, items, from + 1)) + [End("mrow")]
  {
    hide Print, PrintAll, Size, SizeAll, FormOf, IsArgument, IsRow, AreArguments, AreParts, RowEnds, Count, Joined;
    items, closed := t.items, t.closed;
    GroupPrints(tables, tokens, display, items, closed, from);
  }

  /** A delimiter that shows nothing leaves nothing. */
  function Fence(text: string): Markup {
    if text == "" then [] else [Start("mo", STRETCHY), Text(MathEscaped(text)), End("mo")]
  }

  function FenceAt(tables: Tables, tokens: seq<Token>, p: nat): Markup {
    if p < |tokens| then Fence(DelimiterText(tables, tokens[p])) else []
  }

  /** The token after `left` first, then the row, then the token after `right`, or whatever token the row ended at. */
  lemma FencedSpans(tables: Tables, tokens: seq<Token>, display: bool, t: Tree, from: nat)
    returns (items: Trees, closed: bool)
    requires from < |tokens| && tokens[from].Cmd? && IsAtom(tables, tokens, t, from)
    requires tokens[from].v == "left" && IsPlain(tables, "left")
    ensures
      var inner := from + 1 + One(from + 1 < |tokens|);
      var e := inner + SizeAll(items) + One(closed);
      && IsRow(tables, tokens, items, inner, AtRight) && RowEnds(tokens, inner + SizeAll(items), AtRight, closed)
      && from + Size(t) == e + One(e < |tokens|)
      && Print(tables, tokens, display, t, from) ==
           [Start("mrow", "")] + FenceAt(tables, tokens, from + 1)
             + Joined(PrintAll(tables, tokens, display, items, inner)) + FenceAt(tables, tokens, e) + [End("mrow")]
  {
    hide Print, PrintAll, Size, SizeAll, FormOf, IsArgument, IsRow, AreArguments, AreParts, RowEnds, Count, Joined,
         DelimiterText, STRETCHY, MathEscaped;
    PlainForms(tables, "left");
    items, closed := t.items, t.closed;
    FencedPrints(tables, tokens, display, t.begun, items, closed, t.ended, from);
  }

  // ----------------------------------------------------------------------------- Scripts

  /** The tree is one of these, and begins there. */
  predicate IsPartAt(ts: Trees, from: nat, t: Tree, p: nat) {
    ts.More? && ((t == ts.last && p == from + SizeAll(ts.before)) || IsPartAt(ts.before, from, t, p))
  }

  predicate IsScriptOf(tokens: seq<Token>, p: nat, sub: bool) {
    p < |tokens| && tokens[p].Sub? == sub
  }

  /** The markup of the last script of a kind. */
  ghost predicate IsLastOf(tables: Tables, tokens: seq<Token>, display: bool, ts: Trees, from: nat, sub: bool,
                           m: Markup) {
    exists value, p: nat ::
      && IsPartAt(ts, from, Script(value), p) && IsScriptOf(tokens, p, sub)
      && m == Print(tables, tokens, display, value, p + 1)
      && forall u, q: nat | IsPartAt(ts, from, u, q) && IsScriptOf(tokens, q, sub) :: q <= p
  }

  ghost predicate HasNone(tokens: seq<Token>, ts: Trees, from: nat, sub: bool) {
    forall u, q: nat | IsPartAt(ts, from, u, q) :: !IsScriptOf(tokens, q, sub)
  }

  lemma {:induction false} PartsComeBefore(ts: Trees, from: nat, t: Tree, p: nat)
    requires IsPartAt(ts, from, t, p)
    ensures p + Size(t) <= from + SizeAll(ts)
  {
    hide Size;
    if !(t == ts.last && p == from + SizeAll(ts.before)) {
      PartsComeBefore(ts.before, from, t, p);
    }
  }

  lemma {:induction false} LastIsLast(tables: Tables, tokens: seq<Token>, display: bool, ts: Trees, from: nat,
                                      sub: bool)
    requires AreScripts(tables, tokens, ts, from)
    ensures
      var m := LastScript(tables, tokens, display, ts, from, sub);
      && (m.None? ==> HasNone(tokens, ts, from, sub))
      && (m.Some? ==> IsLastOf(tables, tokens, display, ts, from, sub, m.value))
  {
    hide Print, Size, SizeAll, IsArgument, HasNone, IsLastOf, IsPartAt, LastScript;
    if ts == NoTrees {
      NoneIsLast(tables, tokens, display, from, sub);
    } else {
      LastIsLast(tables, tokens, display, ts.before, from, sub);
      if tokens[from + SizeAll(ts.before)].Sub? == sub {
        NewestIsLast(tables, tokens, display, ts, from, sub);
      } else {
        OlderIsLast(tables, tokens, display, ts, from, sub);
      }
    }
  }

  lemma NoneIsLast(tables: Tables, tokens: seq<Token>, display: bool, from: nat, sub: bool)
    ensures LastScript(tables, tokens, display, NoTrees, from, sub) == None && HasNone(tokens, NoTrees, from, sub)
  {
  }

  lemma ComeBefore(ts: Trees, from: nat, u: Tree, q: nat)
    requires ts != NoTrees && IsPartAt(ts, from, u, q)
    ensures q <= from + SizeAll(ts.before)
    ensures q == from + SizeAll(ts.before) || IsPartAt(ts.before, from, u, q)
  {
    hide Size;
    if IsPartAt(ts.before, from, u, q) {
      PartsComeBefore(ts.before, from, u, q);
    }
  }

  lemma NewestIsLast(tables: Tables, tokens: seq<Token>, display: bool, ts: Trees, from: nat, sub: bool)
    requires ts != NoTrees && ts.last.Script? && IsScriptOf(tokens, from + SizeAll(ts.before), sub)
    ensures
      var m := LastScript(tables, tokens, display, ts, from, sub);
      m.Some? && IsLastOf(tables, tokens, display, ts, from, sub, m.value)
  {
    hide Print, SizeAll;
    var p, value := from + SizeAll(ts.before), ts.last.value;
    ScriptPrints(tables, tokens, display, value, p);
    assert ts.last == Script(value) && IsPartAt(ts, from, Script(value), p);
    assert LastScript(tables, tokens, display, ts, from, sub) == Some(Print(tables, tokens, display, value, p + 1));
    forall u, q: nat | IsPartAt(ts, from, u, q) && IsScriptOf(tokens, q, sub) ensures q <= p {
      ComeBefore(ts, from, u, q);
    }
  }

  lemma OlderIsLast(tables: Tables, tokens: seq<Token>, display: bool, ts: Trees, from: nat, sub: bool)
    requires ts != NoTrees && !IsScriptOf(tokens, from + SizeAll(ts.before), sub)
    requires
      var m := LastScript(tables, tokens, display, ts.before, from, sub);
      && (m.None? ==> HasNone(tokens, ts.before, from, sub))
      && (m.Some? ==> IsLastOf(tables, tokens, display, ts.before, from, sub, m.value))
    ensures
      var m := LastScript(tables, tokens, display, ts, from, sub);
      && (m.None? ==> HasNone(tokens, ts, from, sub))
      && (m.Some? ==> IsLastOf(tables, tokens, display, ts, from, sub, m.value))
  {
    hide Print, SizeAll, LastScript, IsPartAt;
    OlderStays(tables, tokens, display, ts, from, sub);
    var m := LastScript(tables, tokens, display, ts.before, from, sub);
    forall u, q: nat | IsPartAt(ts, from, u, q) && IsScriptOf(tokens, q, sub) ensures IsPartAt(ts.before, from, u, q) {
      ComeBefore(ts, from, u, q);
    }
    if m.Some? {
      var value, r: nat :|
        && IsPartAt(ts.before, from, Script(value), r) && IsScriptOf(tokens, r, sub)
        && m.value == Print(tables, tokens, display, value, r + 1)
        && forall u, q: nat | IsPartAt(ts.before, from, u, q) && IsScriptOf(tokens, q, sub) :: q <= r;
      StillPart(ts, from, Script(value), r);
    }
  }

  lemma OlderStays(tables: Tables, tokens: seq<Token>, display: bool, ts: Trees, from: nat, sub: bool)
    requires ts != NoTrees && !IsScriptOf(tokens, from + SizeAll(ts.before), sub)
    ensures LastScript(tables, tokens, display, ts, from, sub) ==
            LastScript(tables, tokens, display, ts.before, from, sub)
  {
    hide Print, SizeAll;
  }

  lemma StillPart(ts: Trees, from: nat, u: Tree, q: nat)
    requires ts != NoTrees && IsPartAt(ts.before, from, u, q)
    ensures IsPartAt(ts, from, u, q)
  {
    hide SizeAll;
  }

  lemma ScriptPrints(tables: Tables, tokens: seq<Token>, display: bool, value: Tree, p: nat)
    ensures Print(tables, tokens, display, Script(value), p) == Print(tables, tokens, display, value, p + 1)
  {
  }

  function ScriptTag(stacked: bool, sub: bool, sup: bool): string {
    if sub && sup then (if stacked then "munderover" else "msubsup")
    else if sub then (if stacked then "munder" else "msub")
    else (if stacked then "mover" else "msup")
  }

  function Maybe(m: Option<Markup>): Markup {
    if m.Some? then m.value else []
  }

  /** An atom with scripts: the atom, then the last `_`, then the last `^`, in whatever order they were written. */
  lemma ScriptSpans(tables: Tables, tokens: seq<Token>, display: bool, t: Tree, from: nat)
    returns (sub: Option<Markup>, sup: Option<Markup>)
    requires t.Scripted? && IsUnit(tables, tokens, t, from)
    ensures sub.Some? || sup.Some?
    ensures
      var base, p := Print(tables, tokens, display, t.base, from), from + Size(t.base);
      var tag := ScriptTag(Stacked(display, base), sub.Some?, sup.Some?);
      && IsAtom(tables, tokens, t.base, from) && from + Size(t) == p + SizeAll(t.scripts)
      && Print(tables, tokens, display, t, from) == [Start(tag, "")] + base + Maybe(sub) + Maybe(sup) + [End(tag)]
      && (if sub.None? then HasNone(tokens, t.scripts, p, true)
          else IsLastOf(tables, tokens, display, t.scripts, p, true, sub.value))
      && (if sup.None? then HasNone(tokens, t.scripts, p, false)
          else IsLastOf(tables, tokens, display, t.scripts, p, false, sup.value))
  {
    hide Print, Size, SizeAll, LastScript, Stacked, IsAtom, AreScripts, IsLastOf, HasNone, ScriptAt;
    var p := from + Size(t.base);
    ScriptedPrints(tables, tokens, display, t.base, t.scripts, from);
    ScriptedSize(t.base, t.scripts);
    sub, sup := LastScript(tables, tokens, display, t.scripts, p, true),
                LastScript(tables, tokens, display, t.scripts, p, false);
    LastIsLast(tables, tokens, display, t.scripts, p, true);
    LastIsLast(tables, tokens, display, t.scripts, p, false);
    SomeScript(tables, tokens, display, t.scripts, p);
    ScriptedMarkupIs(display, Print(tables, tokens, display, t.base, from), sub, sup);
  }

  lemma SomeScript(tables: Tables, tokens: seq<Token>, display: bool, ts: Trees, from: nat)
    requires AreScripts(tables, tokens, ts, from) && ts != NoTrees
    ensures LastScript(tables, tokens, display, ts, from, true).Some? ||
            LastScript(tables, tokens, display, ts, from, false).Some?
  {
    hide Print, SizeAll, IsArgument;
    assert tokens[from + SizeAll(ts.before)].Sub? || tokens[from + SizeAll(ts.before)].Sup?;
  }

  lemma ScriptedMarkupIs(display: bool, base: Markup, sub: Option<Markup>, sup: Option<Markup>)
    requires sub.Some? || sup.Some?
    ensures
      var tag := ScriptTag(Stacked(display, base), sub.Some?, sup.Some?);
      ScriptedMarkup(display, base, sub, sup) == [Start(tag, "")] + base + Maybe(sub) + Maybe(sup) + [End(tag)]
  {
    hide Stacked;
  }

  // ------------------------------------------------------------------ When scripts are stacked

  lemma NothingContained(s: string, part: string, c: char)
    requires c in part && c !in s
    ensures !Contains(s, part)
    decreases |s|
  {
    if s != "" {
      NothingContained(s[1..], part, c);
    }
  }

  lemma {:induction false} ContainedAfter(a: string, part: string, b: string)
    ensures Contains(a + part + b, part)
    decreases |a|
  {
    var s := a + part + b;
    if a == "" {
      assert s[..|part|] == part;
    } else {
      assert s[1..] == a[1..] + part + b;
      ContainedAfter(a[1..], part, b);
    }
  }

  lemma FlattenThree(a: Piece, b: Piece, c: Piece)
    ensures Flatten([a, b, c]) == Shown(a) + Shown(b) + Shown(c)
  {
    hide Shown;
    var m := [a, b, c];
    assert m[1..] == [b, c] && [b, c][1..] == [c] && [c][1..] == [];
    assert Flatten([c]) == Shown(c);
    assert Flatten([b, c]) == Shown(b) + Shown(c);
  }

  lemma FlattenLeaf(tag: string, attributes: string, text: string)
    ensures Flatten(Leaf1(tag, attributes, text)) ==
            "<" + (tag + attributes) + ">" + text + ("<" + ("/" + tag) + ">")
  {
    hide Flatten;
    FlattenThree(Start(tag, attributes), Text(text), End(tag));
    assert Leaf1(tag, attributes, text) == [Start(tag, attributes), Text(text), End(tag)];
  }

  /** Numbers and identifiers never stack their scripts, and nothing does outside display math. */
  lemma PlainIsNotStacked(display: bool, tag: string, text: string)
    requires '"' !in tag && '"' !in text
    ensures !Stacked(display, Leaf1(tag, "", text))
  {
    hide Flatten, Contains;
    FlattenLeaf(tag, "", text);
    assert "data-limits=\"1\""[12] == '"';
    NothingContained(Flatten(Leaf1(tag, "", text)), "data-limits=\"1\"", '"');
  }

  /** Big operators and the functions with limits always do in display math. */
  lemma LimitsAreStacked(text: string)
    ensures Stacked(true, Leaf1("mo", BIG_OPERATOR, text)) && Stacked(true, Leaf1("mo", LIMIT_FUNCTION, text))
    ensures !Stacked(false, Leaf1("mo", BIG_OPERATOR, text))
  {
    hide Flatten, Contains;
    LimitsAreSeen(LARGE + MOVABLE, text);
    LimitsAreSeen(MOVABLE + NORMAL, text);
    assert LIMITS + (LARGE + MOVABLE) == BIG_OPERATOR && LIMITS + (MOVABLE + NORMAL) == LIMIT_FUNCTION;
  }

  lemma LimitsAreSeen(more: string, text: string)
    ensures Stacked(true, Leaf1("mo", LIMITS + more, text))
  {
    hide Flatten, Contains, Leaf1;
    FlattenLeaf("mo", LIMITS + more, text);
    var part := "data-limits=\"1\"";
    assert LIMITS == " " + part;
    var all := Flatten(Leaf1("mo", LIMITS + more, text));
    assert all == "<mo " + part + (more + ">" + text + "</mo>");
    ContainedAfter("<mo ", part, more + ">" + text + "</mo>");
  }
}
