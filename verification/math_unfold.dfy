/** One level of each construct of the grammar at a time: how it is made up, how long it is, what it prints. */
module MathUnfold {
  import opened Options
  import opened MathTokens
  import opened MathMarkup
  import opened MathTree

  lemma NothingYet(tables: Tables, tokens: seq<Token>, display: bool, from: nat, stop: Stop)
    ensures SizeAll(NoTrees) == 0 && PrintAll(tables, tokens, display, NoTrees, from) == []
    ensures IsRow(tables, tokens, NoTrees, from, stop) && AreArguments(tables, tokens, NoTrees, from)
    ensures AreScripts(tables, tokens, NoTrees, from) && AreParts(tables, tokens, NoTrees, from)
    ensures LastScript(tables, tokens, display, NoTrees, from, true) == None
    ensures LastScript(tables, tokens, display, NoTrees, from, false) == None
    ensures RowsOf(tables, tokens, display, NoTrees, from) == [[[]]]
    ensures !ThrowAny(tables, tokens, NoTrees, from) && Count(NoTrees) == 0
  {
  }

  lemma OneMoreSize(ts: Trees, t: Tree)
    ensures SizeAll(More(ts, t)) == SizeAll(ts) + Size(t) && Count(More(ts, t)) == Count(ts) + 1
  {
    hide Size;
  }

  lemma OneMorePrint(tables: Tables, tokens: seq<Token>, display: bool, ts: Trees, t: Tree, from: nat)
    ensures PrintAll(tables, tokens, display, More(ts, t), from) ==
            PrintAll(tables, tokens, display, ts, from) + [Print(tables, tokens, display, t, from + SizeAll(ts))]
  {
    hide Print, SizeAll;
  }

  lemma OneMoreThrow(tables: Tables, tokens: seq<Token>, ts: Trees, t: Tree, from: nat)
    ensures ThrowAny(tables, tokens, More(ts, t), from) <==>
            ThrowAny(tables, tokens, ts, from) || Throws(tables, tokens, t, from + SizeAll(ts))
  {
    hide Throws, SizeAll;
  }

  lemma OneMore(tables: Tables, tokens: seq<Token>, display: bool, ts: Trees, t: Tree, from: nat)
    ensures SizeAll(More(ts, t)) == SizeAll(ts) + Size(t) && Count(More(ts, t)) == Count(ts) + 1
    ensures PrintAll(tables, tokens, display, More(ts, t), from) ==
            PrintAll(tables, tokens, display, ts, from) + [Print(tables, tokens, display, t, from + SizeAll(ts))]
    ensures ThrowAny(tables, tokens, More(ts, t), from) <==>
            ThrowAny(tables, tokens, ts, from) || Throws(tables, tokens, t, from + SizeAll(ts))
  {
    hide Print, Throws, PrintAll, ThrowAny, SizeAll, Size, Count;
    OneMoreSize(ts, t);
    OneMorePrint(tables, tokens, display, ts, t, from);
    OneMoreThrow(tables, tokens, ts, t, from);
  }

  lemma OneMoreUnit(tables: Tables, tokens: seq<Token>, ts: Trees, t: Tree, from: nat, stop: Stop)
    requires IsRow(tables, tokens, ts, from, stop)
    requires !StopsAt(tokens, from + SizeAll(ts), stop) && IsUnit(tables, tokens, t, from + SizeAll(ts))
    ensures IsRow(tables, tokens, More(ts, t), from, stop)
  {
    hide IsUnit;
  }

  lemma OneMoreArgument(tables: Tables, tokens: seq<Token>, ts: Trees, t: Tree, from: nat)
    requires AreArguments(tables, tokens, ts, from) && IsArgument(tables, tokens, t, from + SizeAll(ts))
    ensures AreArguments(tables, tokens, More(ts, t), from)
  {
    hide IsArgument;
  }

  lemma OneMoreScript(tables: Tables, tokens: seq<Token>, ts: Trees, value: Tree, from: nat)
    requires AreScripts(tables, tokens, ts, from) && ScriptAt(tokens, from + SizeAll(ts))
    requires IsArgument(tables, tokens, value, from + SizeAll(ts) + 1)
    ensures AreScripts(tables, tokens, More(ts, Script(value)), from)
  {
    hide IsArgument, SizeAll;
  }

  lemma ScriptIs(tables: Tables, tokens: seq<Token>, display: bool, value: Tree, from: nat)
    ensures Size(Script(value)) == 1 + Size(value)
    ensures Print(tables, tokens, display, Script(value), from) == Print(tables, tokens, display, value, from + 1)
    ensures Throws(tables, tokens, Script(value), from) == Throws(tables, tokens, value, from + 1)
  {
  }

  lemma OneMoreLast(tables: Tables, tokens: seq<Token>, display: bool, ts: Trees, t: Tree, from: nat, sub: bool)
    requires from + SizeAll(ts) < |tokens|
    ensures
      LastScript(tables, tokens, display, More(ts, t), from, sub) ==
        if tokens[from + SizeAll(ts)].Sub? == sub then Some(Print(tables, tokens, display, t, from + SizeAll(ts)))
        else LastScript(tables, tokens, display, ts, from, sub)
  {
    hide Print;
  }

  lemma OneMorePart(tables: Tables, tokens: seq<Token>, ts: Trees, t: Tree, from: nat)
    requires AreParts(tables, tokens, ts, from) && !EndAt(tokens, from + SizeAll(ts))
    requires !BreakAt(tokens, from + SizeAll(ts)) && IsUnit(tables, tokens, t, from + SizeAll(ts))
    ensures AreParts(tables, tokens, More(ts, t), from)
  {
    hide IsUnit, SizeAll, EndAt, BreakAt;
  }

  lemma PartRows(tables: Tables, tokens: seq<Token>, display: bool, ts: Trees, t: Tree, from: nat)
    requires IsUnit(tables, tokens, t, from + SizeAll(ts))
    ensures RowsOf(tables, tokens, display, More(ts, t), from) ==
            WithItem(RowsOf(tables, tokens, display, ts, from), Print(tables, tokens, display, t, from + SizeAll(ts)))
  {
    hide IsUnit, Print, WithItem, WithBreak, SizeAll;
    UnitIsNoBreak(tables, tokens, t, from + SizeAll(ts));
  }

  lemma UnitIsNoBreak(tables: Tables, tokens: seq<Token>, t: Tree, from: nat)
    requires IsUnit(tables, tokens, t, from)
    ensures !t.Break? && !t.Missing?
  {
  }

  lemma OneMoreBreak(tables: Tables, tokens: seq<Token>, ts: Trees, from: nat)
    requires AreParts(tables, tokens, ts, from) && !EndAt(tokens, from + SizeAll(ts))
    requires BreakAt(tokens, from + SizeAll(ts))
    ensures AreParts(tables, tokens, More(ts, Break), from)
  {
    hide IsUnit, SizeAll, EndAt, BreakAt;
  }

  lemma BreakRows(tables: Tables, tokens: seq<Token>, display: bool, ts: Trees, from: nat)
    requires from + SizeAll(ts) < |tokens|
    ensures RowsOf(tables, tokens, display, More(ts, Break), from) ==
            WithBreak(RowsOf(tables, tokens, display, ts, from), tokens[from + SizeAll(ts)].Amp?)
  {
    hide SizeAll, WithItem, WithBreak, Print;
  }

  lemma BreakIs(tables: Tables, tokens: seq<Token>, p: nat)
    ensures Size(Break) == 1 && !Throws(tables, tokens, Break, p)
  {
  }

  lemma LeafIs(tables: Tables, tokens: seq<Token>, display: bool, from: nat)
    requires from < |tokens| && !StartsNothing(tokens, from) && !tokens[from].Open?
    requires tokens[from].Cmd? ==> FormOf(tables, tokens[from].v).Fixed?
    ensures IsAtom(tables, tokens, Leaf, from) && Size(Leaf) == 1 && !Throws(tables, tokens, Leaf, from)
    ensures Print(tables, tokens, display, Leaf, from) == LeafMarkup(tables, tokens, from)
    ensures tokens[from].Cmd? ==> LeafMarkup(tables, tokens, from) == FixedMarkup(tables, tokens[from].v,
        tokens[from].raw)
  {
    hide FormOf, FixedMarkup;
  }

  lemma MissingIs(tables: Tables, tokens: seq<Token>, display: bool, from: nat)
    ensures Size(Missing) == 0 && !Throws(tables, tokens, Missing, from)
    ensures Print(tables, tokens, display, Missing, from) == Element("mrow", "", [])
  {
  }

  lemma GroupIs(tables: Tables, tokens: seq<Token>, items: Trees, closed: bool, from: nat)
    requires from < |tokens| && tokens[from].Open? && IsRow(tables, tokens, items, from + 1, AtClose)
    requires RowEnds(tokens, from + 1 + SizeAll(items), AtClose, closed)
    ensures IsAtom(tables, tokens, Group(items, closed), from)
  {
    hide FormOf, IsRow, SizeAll, RowEnds;
  }

  lemma GroupPrints(tables: Tables, tokens: seq<Token>, display: bool, items: Trees, closed: bool, from: nat)
    ensures Size(Group(items, closed)) == 1 + SizeAll(items) + One(closed)
    ensures Print(tables, tokens, display, Group(items, closed), from) ==
            Element("mrow", "", Joined(PrintAll(tables, tokens, display, items, from + 1)))
  {
    hide PrintAll, SizeAll, CommandMarkup, Wrap, TableMarkup, RowsOf, DelimiterAt, Count;
  }

  lemma GroupThrows(tables: Tables, tokens: seq<Token>, items: Trees, closed: bool, from: nat)
    ensures Throws(tables, tokens, Group(items, closed), from) == ThrowAny(tables, tokens, items, from + 1)
  {
    hide ThrowAny, SizeAll, BadName;
  }

  lemma CommandIs(tables: Tables, tokens: seq<Token>, ts: Trees, from: nat)
    requires from < |tokens| && tokens[from].Cmd? && AreArguments(tables, tokens, ts, from + 1)
    requires FormOf(tables, tokens[from].v) == Arguments(Count(ts)) ||
      (FormOf(tables,
              tokens[from].v).SquareRoot? && Count(ts) == 1 && !(from + 1 < |tokens| && tokens[from + 1] == Op("[")))
    ensures IsAtom(tables, tokens, Command(ts), from)
  {
    hide FormOf, AreArguments, SizeAll, Count;
  }

  lemma CommandPrints(tables: Tables, tokens: seq<Token>, display: bool, ts: Trees, from: nat)
    ensures Size(Command(ts)) == 1 + SizeAll(ts)
    ensures Print(tables, tokens, display, Command(ts), from) ==
            CommandMarkup(tables, NameAt(tokens, from), PrintAll(tables, tokens, display, ts, from + 1))
  {
    hide PrintAll, SizeAll, CommandMarkup, Wrap, TableMarkup, RowsOf, DelimiterAt, Count;
  }

  lemma CommandThrows(tables: Tables, tokens: seq<Token>, ts: Trees, from: nat)
    ensures Throws(tables, tokens, Command(ts), from) == ThrowAny(tables, tokens, ts, from + 1)
  {
    hide ThrowAny, SizeAll, BadName;
  }

  lemma RootIs(tables: Tables, tokens: seq<Token>, index: Trees, closed: bool, radicand: Tree, from: nat)
    requires from + 1 < |tokens| && tokens[from].Cmd? && FormOf(tables, tokens[from].v).SquareRoot?
    requires tokens[from + 1] == Op("[") && IsRow(tables, tokens, index, from + 2, AtBracket)
    requires RowEnds(tokens, from + 2 + SizeAll(index), AtBracket, closed)
    requires IsArgument(tables, tokens, radicand, from + 2 + SizeAll(index) + One(closed))
    ensures IsAtom(tables, tokens, Root(index, closed, radicand), from)
  {
    hide FormOf, IsRow, IsArgument, SizeAll, RowEnds;
  }

  lemma RootPrints(tables: Tables, tokens: seq<Token>, display: bool, index: Trees, closed: bool, radicand: Tree,
                   from: nat)
    ensures Size(Root(index, closed, radicand)) == 2 + SizeAll(index) + One(closed) + Size(radicand)
    ensures Print(tables, tokens, display, Root(index, closed, radicand), from) ==
            Element("mroot", "", Print(tables, tokens, display, radicand, from + 2 + SizeAll(index) + One(closed))
              + Wrap(PrintAll(tables, tokens, display, index, from + 2)))
  {
    hide PrintAll, SizeAll, CommandMarkup, Wrap, TableMarkup, RowsOf, DelimiterAt, Count;
  }

  lemma RootThrows(tables: Tables, tokens: seq<Token>, index: Trees, closed: bool, radicand: Tree, from: nat)
    ensures Throws(tables, tokens, Root(index, closed, radicand), from) <==>
            || ThrowAny(tables, tokens, index, from + 2)
            || Throws(tables, tokens, radicand, from + 2 + SizeAll(index) + One(closed))
  {
    hide ThrowAny, SizeAll, BadName;
  }

  lemma DelimiterIs(tables: Tables, tokens: seq<Token>, p: nat)
    ensures DelimiterAt(tables, tokens, p, p < |tokens|) ==
            FenceMarkup(if p < |tokens| then DelimiterText(tables, tokens[p]) else "")
  {
    hide DelimiterText;
  }

  lemma FencedIs(tables: Tables, tokens: seq<Token>, begun: bool, items: Trees, closed: bool,
                     ended: bool, from: nat)
    requires from < |tokens| && tokens[from].Cmd? && FormOf(tables, tokens[from].v).Fence?
    requires begun <==> from + 1 < |tokens|
    requires IsRow(tables, tokens, items, from + 1 + One(begun), AtRight)
    requires RowEnds(tokens, from + 1 + One(begun) + SizeAll(items), AtRight, closed)
    requires ended <==> from + 1 + One(begun) + SizeAll(items) + One(closed) < |tokens|
    ensures IsAtom(tables, tokens, Fenced(begun, items, closed, ended), from)
  {
    hide FormOf, IsRow, SizeAll, RowEnds;
  }

  lemma FencedPrints(tables: Tables, tokens: seq<Token>, display: bool, begun: bool, items: Trees, closed: bool,
                     ended: bool, from: nat)
    ensures Size(Fenced(begun, items, closed, ended)) == 1 + One(begun) + SizeAll(items) + One(closed) + One(ended)
    ensures Print(tables, tokens, display, Fenced(begun, items, closed, ended), from) ==
            Element("mrow", "", DelimiterAt(tables, tokens, from + 1, begun)
              + Joined(PrintAll(tables, tokens, display, items, from + 1 + One(begun)))
              + DelimiterAt(tables, tokens, from + 1 + One(begun) + SizeAll(items) + One(closed), ended))
  {
    hide PrintAll, SizeAll, CommandMarkup, Wrap, TableMarkup, RowsOf, DelimiterAt, Count;
  }

  lemma FencedThrows(tables: Tables, tokens: seq<Token>, begun: bool, items: Trees, closed: bool,
                     ended: bool, from: nat)
    ensures Throws(tables, tokens, Fenced(begun, items, closed, ended), from) ==
            ThrowAny(tables, tokens, items, from + 1 + One(begun))
  {
    hide ThrowAny, SizeAll, BadName;
  }

  lemma TableIs(tables: Tables, tokens: seq<Token>, parts: Trees, closed: bool, from: nat)
    requires from < |tokens| && tokens[from].Cmd? && FormOf(tables, tokens[from].v).Environment?
    requires AreParts(tables, tokens, parts, from + 1) && from + 1 + SizeAll(parts) <= |tokens|
    requires closed <==> EndAt(tokens, from + 1 + SizeAll(parts))
    requires !closed ==> StartsNothing(tokens, from + 1 + SizeAll(parts))
    ensures IsAtom(tables, tokens, Table(parts, closed), from)
  {
    hide FormOf, AreParts, SizeAll, EndAt;
  }

  lemma TablePrints(tables: Tables, tokens: seq<Token>, display: bool, parts: Trees, closed: bool, from: nat)
    ensures Size(Table(parts, closed)) == 1 + SizeAll(parts) + One(closed)
    ensures Print(tables, tokens, display, Table(parts, closed), from) ==
            TableMarkup(tables, EnvironmentAt(tokens, from), RowsOf(tables, tokens, display, parts, from + 1))
  {
    hide PrintAll, SizeAll, CommandMarkup, Wrap, TableMarkup, RowsOf, DelimiterAt, Count;
  }

  lemma TableThrows(tables: Tables, tokens: seq<Token>, parts: Trees, closed: bool, from: nat)
    ensures Throws(tables, tokens, Table(parts, closed), from) <==>
            BadName(tables, EnvironmentAt(tokens, from)) || ThrowAny(tables, tokens, parts, from + 1)
  {
    hide ThrowAny, SizeAll, BadName;
  }

  lemma ScriptedIs(tables: Tables, tokens: seq<Token>, base: Tree, scripts: Trees, from: nat)
    requires IsAtom(tables, tokens, base, from) && scripts != NoTrees
    requires AreScripts(tables, tokens, scripts, from + Size(base))
    requires !ScriptAt(tokens, from + Size(base) + SizeAll(scripts))
    ensures IsUnit(tables, tokens, Scripted(base, scripts), from)
  {
    ScriptedSize(base, scripts);
    hide IsAtom, AreScripts, SizeAll, Size, ScriptAt;
  }

  lemma ScriptedSize(base: Tree, scripts: Trees)
    ensures Size(Scripted(base, scripts)) == Size(base) + SizeAll(scripts)
  {
    hide SizeAll;
  }

  lemma ScriptedPrints(tables: Tables, tokens: seq<Token>, display: bool, base: Tree, scripts: Trees, from: nat)
    ensures Print(tables, tokens, display, Scripted(base, scripts), from) ==
            ScriptedMarkup(display, Print(tables, tokens, display, base, from),
                           LastScript(tables, tokens, display, scripts, from + Size(base), true),
                           LastScript(tables, tokens, display, scripts, from + Size(base), false))
  {
    hide LastScript, ScriptedMarkup, Size;
  }

  lemma ScriptedThrows(tables: Tables, tokens: seq<Token>, base: Tree, scripts: Trees, from: nat)
    ensures Throws(tables, tokens, Scripted(base, scripts), from) ==
            (Throws(tables, tokens, base, from) || ThrowAny(tables, tokens, scripts, from + Size(base)))
  {
    hide ThrowAny, Size;
  }

  lemma PlainUnit(tables: Tables, tokens: seq<Token>, t: Tree, from: nat)
    requires IsAtom(tables, tokens, t, from) && !ScriptAt(tokens, from + Size(t))
    ensures IsUnit(tables, tokens, t, from)
  {
  }

  lemma MissingArgument(tables: Tables, tokens: seq<Token>, t: Tree, from: nat)
    requires if StartsNothing(tokens, from) then t == Missing else IsAtom(tables, tokens, t, from)
    ensures IsArgument(tables, tokens, t, from)
  {
    hide IsAtom;
  }

  lemma PlainScripts(display: bool, base: Markup)
    ensures ScriptedMarkup(display, base, None, None) == base
  {
    hide Stacked;
  }

  lemma LeafPrints(tables: Tables, tokens: seq<Token>, display: bool, from: nat)
    ensures Print(tables, tokens, display, Leaf, from) == LeafMarkup(tables, tokens, from)
    ensures Print(tables, tokens, display, Break, from) == []
  {
    hide LeafMarkup;
  }
}
