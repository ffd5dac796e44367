/** The recursive-descent parser: one moving position over the tokens, markup built on the way. */
module MathParser {
  import opened Options
  import opened Escape
  import opened MathTokens
  import opened MathMarkup
  import opened MathTree
  import opened MathUnfold

  class Parser {
    const tables: Tables
    const tokens: seq<Token>
    const display: bool
    var pos: nat
    /** A name that cannot be taken apart has been met: the exception that raises discards whatever is returned. */
    var threw: bool

    constructor (tables: Tables, tokens: seq<Token>, display: bool)
      ensures this.tables == tables && this.tokens == tokens && this.display == display && pos == 0 && !threw
    {
      this.tables, this.tokens, this.display, pos, threw := tables, tokens, display, 0, false;
    }

    /** The position is where a tree that starts at a place ends, and the markup is that tree's. */
    ghost predicate Made(t: Tree, from: nat, m: Markup, threwBefore: bool)
      reads this`pos, this`threw
    {
      && pos == from + Size(t) && pos <= |tokens|
      && m == Print(tables, tokens, display, t, from)
      && threw == (threwBefore || Throws(tables, tokens, t, from))
    }

    ghost predicate MadeAll(ts: Trees, from: nat, ms: seq<Markup>, threwBefore: bool)
      reads this`pos, this`threw
    {
      && pos == from + SizeAll(ts) && pos <= |tokens|
      && ms == PrintAll(tables, tokens, display, ts, from)
      && threw == (threwBefore || ThrowAny(tables, tokens, ts, from))
    }

    method Argument() returns (m: Markup, ghost t: Tree)
      requires pos <= |tokens|
      modifies this`pos, this`threw
      ensures IsArgument(tables, tokens, t, old(pos)) && Made(t, old(pos), m, old(threw))
      decreases |tokens| - pos, 2
    {
      hide Print, PrintAll, Throws, ThrowAny, SizeAll, Size, IsAtom, IsArgument, IsUnit, IsRow, FormOf;
      ghost var from := pos;
      var one;
      one, t := Atom();
      if one.None? {
        t := Missing;
        m := Element("mrow", "", []);
        MissingIs(tables, tokens, display, from);
      } else {
        m := one.value;
      }
      MissingArgument(tables, tokens, t, from);
    }

    method Row(stop: Stop) returns (items: seq<Markup>, ghost ts: Trees)
      requires pos <= |tokens|
      modifies this`pos, this`threw
      ensures IsRow(tables, tokens, ts, old(pos), stop) && MadeAll(ts, old(pos), items, old(threw))
      ensures StopsAt(tokens, pos, stop) || StartsNothing(tokens, pos)
      decreases |tokens| - pos, 4
    {
      hide Print, PrintAll, Throws, ThrowAny, SizeAll, Size, IsAtom, IsArgument, IsUnit, IsRow, FormOf;
      ghost var from := pos;
      items, ts := [], NoTrees;
      NothingYet(tables, tokens, display, from, stop);
      while pos < |tokens| && !StopsAt(tokens, pos, stop)
        invariant IsRow(tables, tokens, ts, old(pos), stop) && MadeAll(ts, old(pos), items, old(threw))
        decreases |tokens| - pos
      {
        ghost var t;
        var next;
        next, t := ScriptedAtom();
        if next.None? {
          break;
        }
        OneMoreUnit(tables, tokens, ts, t, from, stop);
        OneMore(tables, tokens, display, ts, t, from);
        items := items + [next.value];
        ts := More(ts, t);
      }
    }

    /** An atom plus any scripts bound to it. */
    method ScriptedAtom() returns (m: Option<Markup>, ghost t: Tree)
      requires pos <= |tokens|
      modifies this`pos, this`threw
      ensures m.None? <==> StartsNothing(tokens, old(pos))
      ensures m.None? ==> pos == old(pos) && threw == old(threw)
      ensures m.Some? ==> pos > old(pos) && IsUnit(tables, tokens, t, old(pos))
      ensures m.Some? ==> Made(t, old(pos), m.value, old(threw))
      decreases |tokens| - pos, 3
    {
      hide Print, PrintAll, Throws, ThrowAny, SizeAll, Size, IsAtom, IsArgument, IsUnit, IsRow, FormOf,
           AreScripts, LastScript, ScriptedMarkup;
      ghost var start := pos;
      var base;
      base, t := Atom();
      if base.None? {
        return None, t;
      }
      ghost var from, before := pos, threw;
      ghost var scripts := NoTrees;
      NothingYet(tables, tokens, display, from, Never);
      var sub: Option<Markup>, sup: Option<Markup> := None, None;
      while ScriptAt(tokens, pos)
        invariant pos == from + SizeAll(scripts) && pos <= |tokens|
        invariant AreScripts(tables, tokens, scripts, from)
        invariant sub == LastScript(tables, tokens, display, scripts, from, true)
        invariant sup == LastScript(tables, tokens, display, scripts, from, false)
        invariant scripts == NoTrees <==> sub.None? && sup.None?
        invariant threw == (before || ThrowAny(tables, tokens, scripts, from))
        decreases |tokens| - pos
      {
        var isSub := tokens[pos].Sub?;
        pos := pos + 1;
        ghost var value;
        var script;
        script, value := Argument();
        if isSub {
          sub := Some(script);
        } else {
          sup := Some(script);
        }
        ghost var p := from + SizeAll(scripts);
        OneMoreScript(tables, tokens, scripts, value, from);
        ScriptIs(tables, tokens, display, value, p);
        OneMore(tables, tokens, display, scripts, Script(value), from);
        OneMoreLast(tables, tokens, display, scripts, Script(value), from, true);
        OneMoreLast(tables, tokens, display, scripts, Script(value), from, false);
        scripts := More(scripts, Script(value));
      }
      m := Some(ScriptedMarkup(display, base.value, sub, sup));
      if sub.Some? || sup.Some? {
        ScriptedIs(tables, tokens, t, scripts, start);
        ScriptedSize(t, scripts);
        ScriptedPrints(tables, tokens, display, t, scripts, start);
        ScriptedThrows(tables, tokens, t, scripts, start);
        t := Scripted(t, scripts);
      } else {
        PlainUnit(tables, tokens, t, start);
        PlainScripts(display, base.value);
      }
    }

    method Delimiter() returns (text: string)
      requires pos <= |tokens|
      modifies this`pos
      ensures pos == old(pos) + One(old(pos) < |tokens|)
      ensures text == if old(pos) < |tokens| then DelimiterText(tables, tokens[old(pos)]) else ""
    {
      if pos == |tokens| {
        return "";
      }
      text := DelimiterText(tables, tokens[pos]);
      pos := pos + 1;
    }

    method Atom() returns (m: Option<Markup>, ghost t: Tree)
      requires pos <= |tokens|
      modifies this`pos, this`threw
      ensures m.None? <==> StartsNothing(tokens, old(pos))
      ensures m.None? ==> pos == old(pos) && threw == old(threw)
      ensures m.Some? ==> pos > old(pos) && IsAtom(tables, tokens, t, old(pos))
      ensures m.Some? ==> Made(t, old(pos), m.value, old(threw))
      decreases |tokens| - pos, 1
    {
      hide Print, PrintAll, Throws, ThrowAny, SizeAll, Size, IsAtom, IsArgument, IsUnit, IsRow, FormOf;
      ghost var from := pos;
      if StartsNothing(tokens, pos) {
        return None, Missing;
      }
      var tok := tokens[pos];
      pos := pos + 1;
      if tok.Open? {
        var items;
        ghost var ts;
        items, ts := Row(AtClose);
        var closed := StopsAt(tokens, pos, AtClose);
        if closed {
          pos := pos + 1;
        }
        t := Group(ts, closed);
        GroupIs(tables, tokens, ts, closed, from);
        GroupPrints(tables, tokens, display, ts, closed, from);
        GroupThrows(tables, tokens, ts, closed, from);
        m := Some(Element("mrow", "", Joined(items)));
      } else if tok.Cmd? {
        var made;
        made, t := CommandAfter(tok.v, tok.raw);
        m := Some(made);
      } else {
        t := Leaf;
        LeafIs(tables, tokens, display, from);
        m := Some(LeafMarkup(tables, tokens, pos - 1));
      }
    }

    method CommandAfter(name: string, raw: Option<string>) returns (m: Markup, ghost t: Tree)
      requires 0 < pos <= |tokens| && tokens[pos - 1] == Cmd(name, raw)
      modifies this`pos, this`threw
      ensures IsAtom(tables, tokens, t, old(pos) - 1) && Made(t, old(pos) - 1, m, old(threw))
      ensures pos >= old(pos)
      decreases |tokens| - pos, 6
    {
      hide Print, PrintAll, Throws, ThrowAny, SizeAll, Size, IsAtom, IsArgument, IsUnit, IsRow, FormOf;
      match FormOf(tables, name) {
        case Fixed =>
          t, m := Leaf, FixedMarkup(tables, name, raw);
          LeafIs(tables, tokens, display, pos - 1);
        case Arguments(n) => m, t := WithArguments(name, n);
        case SquareRoot =>
          if pos < |tokens| && tokens[pos] == Op("[") {
            m, t := RootAfter();
          } else {
            m, t := WithArguments(name, 1);
          }
        case Environment => m, t := EnvironmentAfter(RawText(raw));
        case Fence => m, t := FencedAfter();
      }
    }

    method WithArguments(name: string, n: nat) returns (m: Markup, ghost t: Tree)
      requires 0 < pos <= |tokens| && tokens[pos - 1].Cmd? && tokens[pos - 1].v == name
      requires FormOf(tables, name) == Arguments(n) ||
        (FormOf(tables, name).SquareRoot? && n == 1 && !(pos < |tokens| && tokens[pos] == Op("[")))
      modifies this`pos, this`threw
      ensures IsAtom(tables, tokens, t, old(pos) - 1) && Made(t, old(pos) - 1, m, old(threw))
      ensures pos >= old(pos)
      decreases |tokens| - pos, 5
    {
      hide Print, PrintAll, Throws, ThrowAny, SizeAll, Size, IsAtom, IsArgument, IsUnit, IsRow, FormOf;
      ghost var from := pos - 1;
      NothingYet(tables, tokens, display, pos, Never);
      var arguments: seq<Markup> := [];
      ghost var ts := NoTrees;
      for i := 0 to n
        invariant Count(ts) == i && AreArguments(tables, tokens, ts, old(pos))
        invariant MadeAll(ts, old(pos), arguments, old(threw))
      {
        var m1;
        ghost var t1;
        m1, t1 := Argument();
        OneMoreArgument(tables, tokens, ts, t1, from + 1);
        OneMore(tables, tokens, display, ts, t1, from + 1);
        arguments, ts := arguments + [m1], More(ts, t1);
      }
      CommandIs(tables, tokens, ts, from);
      CommandPrints(tables, tokens, display, ts, from);
      CommandThrows(tables, tokens, ts, from);
      t := Command(ts);
      m := CommandMarkup(tables, name, arguments);
    }

    /** A root with an index in brackets. */
    method RootAfter() returns (m: Markup, ghost t: Tree)
      requires 0 < pos < |tokens| && tokens[pos - 1].Cmd? && FormOf(tables, tokens[pos - 1].v).SquareRoot?
      requires tokens[pos] == Op("[")
      modifies this`pos, this`threw
      ensures IsAtom(tables, tokens, t, old(pos) - 1) && Made(t, old(pos) - 1, m, old(threw))
      ensures pos >= old(pos)
      decreases |tokens| - pos, 5
    {
      hide Print, PrintAll, Throws, ThrowAny, SizeAll, Size, IsAtom, IsArgument, IsUnit, IsRow, FormOf;
      ghost var from := pos - 1;
      pos := pos + 1;
      var index;
      ghost var ts;
      index, ts := Row(AtBracket);
      var closed := StopsAt(tokens, pos, AtBracket);
      if closed {
        pos := pos + 1;
      }
      var radicand;
      ghost var under;
      radicand, under := Argument();
      RootIs(tables, tokens, ts, closed, under, from);
      RootPrints(tables, tokens, display, ts, closed, under, from);
      RootThrows(tables, tokens, ts, closed, under, from);
      t := Root(ts, closed, under);
      m := Element("mroot", "", radicand + Wrap(index));
    }

    method FencedAfter() returns (m: Markup, ghost t: Tree)
      requires 0 < pos <= |tokens| && tokens[pos - 1].Cmd? && FormOf(tables, tokens[pos - 1].v).Fence?
      modifies this`pos, this`threw
      ensures IsAtom(tables, tokens, t, old(pos) - 1) && Made(t, old(pos) - 1, m, old(threw))
      ensures pos >= old(pos)
      decreases |tokens| - pos, 5
    {
      hide Print, PrintAll, Throws, ThrowAny, SizeAll, Size, IsAtom, IsArgument, IsUnit, IsRow, FormOf,
           DelimiterText, DelimiterAt, FenceMarkup, StartsNothing;
      ghost var from := pos - 1;
      DelimiterIs(tables, tokens, pos);
      ghost var begun := pos < |tokens|;
      var open := Delimiter();
      var items;
      ghost var ts;
      items, ts := Row(AtRight);
      var closed := StopsAt(tokens, pos, AtRight);
      if closed {
        pos := pos + 1;
      }
      DelimiterIs(tables, tokens, pos);
      ghost var ended := pos < |tokens|;
      var close := Delimiter();
      FencedIs(tables, tokens, begun, ts, closed, ended, from);
      FencedPrints(tables, tokens, display, begun, ts, closed, ended, from);
      FencedThrows(tables, tokens, begun, ts, closed, ended, from);
      t := Fenced(begun, ts, closed, ended);
      m := Element("mrow", "", FenceMarkup(open) + Joined(items) + FenceMarkup(close));
    }

    method EnvironmentAfter(name: string) returns (m: Markup, ghost t: Tree)
      requires 0 < pos <= |tokens| && tokens[pos - 1].Cmd? && FormOf(tables, tokens[pos - 1].v).Environment?
      requires name == EnvironmentAt(tokens, pos - 1)
      modifies this`pos, this`threw
      ensures IsAtom(tables, tokens, t, old(pos) - 1) && Made(t, old(pos) - 1, m, old(threw))
      ensures pos >= old(pos)
      decreases |tokens| - pos, 5
    {
      hide Print, PrintAll, Throws, ThrowAny, SizeAll, Size, IsAtom, IsArgument, IsUnit, IsRow, FormOf,
           AreParts, RowsOf, TableMarkup;
      ghost var from := pos - 1;
      NothingYet(tables, tokens, display, pos, Never);
      threw := threw || BadName(tables, name);
      var rows: Rows := [[[]]];
      ghost var ts := NoTrees;
      ghost var before := threw;
      while pos < |tokens| && !EndAt(tokens, pos)
        invariant pos == old(pos) + SizeAll(ts) && pos <= |tokens|
        invariant AreParts(tables, tokens, ts, old(pos))
        invariant rows == RowsOf(tables, tokens, display, ts, old(pos))
        invariant threw == (before || ThrowAny(tables, tokens, ts, old(pos)))
        decreases |tokens| - pos
      {
        if BreakAt(tokens, pos) {
          OneMoreBreak(tables, tokens, ts, from + 1);
          BreakRows(tables, tokens, display, ts, from + 1);
          BreakIs(tables, tokens, pos);
          OneMore(tables, tokens, display, ts, Break, from + 1);
          rows := WithBreak(rows, tokens[pos].Amp?);
          ts := More(ts, Break);
          pos := pos + 1;
        } else {
          var next;
          ghost var unit;
          next, unit := ScriptedAtom();
          if next.None? {
            break;
          }
          OneMorePart(tables, tokens, ts, unit, from + 1);
          PartRows(tables, tokens, display, ts, unit, from + 1);
          OneMore(tables, tokens, display, ts, unit, from + 1);
          rows := WithItem(rows, next.value);
          ts := More(ts, unit);
        }
      }
      var closed := EndAt(tokens, pos);
      if closed {
        pos := pos + 1;
      }
      TableIs(tables, tokens, ts, closed, from);
      TablePrints(tables, tokens, display, ts, closed, from);
      TableThrows(tables, tokens, ts, closed, from);
      t := Table(ts, closed);
      m := TableMarkup(tables, name, rows);
    }

    /** The whole formula: as many units as there are before the end or a brace or script that belongs to nothing. */
    method Parse() returns (m: Markup, ghost ts: Trees)
      requires pos == 0 && !threw
      modifies this`pos, this`threw
      ensures IsReading(tables, tokens, ts) && pos == SizeAll(ts)
      ensures m == Joined(PrintAll(tables, tokens, display, ts, 0))
      ensures threw == ThrowAny(tables, tokens, ts, 0)
    {
      var items;
      items, ts := Row(Never);
      m := Joined(items);
    }
  }
}
