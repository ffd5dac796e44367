/** Where a formula is shown in the very order it is written. */
module MathOrder {
  import opened Options
  import opened MathTokens
  import opened MathMarkup
  import opened MathTree
  import opened MathUnfold
  import opened MathRender
  import opened MathContent

  /** What each token shows of its own: nothing if it is a brace, a script mark or a command that takes arguments. */
  function Own(tables: Tables, token: Token): seq<Piece> {
    if token.Cmd? && !FormOf(tables, token.v).Fixed? then [] else Glyph(tables, token)
  }

  /** What a stretch of tokens shows, each in its turn. */
  function Glyphs(tables: Tables, tokens: seq<Token>, from: nat, end: nat): seq<Piece>
    requires from <= end <= |tokens|
    decreases end
  {
    if from == end then [] else Glyphs(tables, tokens, from, end - 1) + Own(tables, tokens[end - 1])
  }

  /** A single script, or a `_` and then a `^`. */
  predicate OneOfEach(tokens: seq<Token>, scripts: Trees, p: nat) {
    || (scripts.More? && scripts.before == NoTrees)
    || (scripts.More? && scripts.before.More? && scripts.before.before == NoTrees
        && p < |tokens| && tokens[p].Sub?
        && p + Size(scripts.before.last) < |tokens| && tokens[p + Size(scripts.before.last)].Sup?)
  }

  /** Built from leaves, groups, fractions, roots without an index, variants and such, and scripts one of each. */
  predicate InOrder(tables: Tables, tokens: seq<Token>, t: Tree, from: nat) {
    match t
    case Leaf => true
    case Missing => true
    case Group(items, _) => AllInOrder(tables, tokens, items, from + 1)
    case Scripted(base, scripts) =>
      var p := from + Size(base);
      InOrder(tables, tokens, base, from) && OneOfEach(tokens, scripts, p) && AllInOrder(tables, tokens, scripts, p)
    case Script(value) => InOrder(tables, tokens, value, from + 1)
    case Command(arguments) =>
      && Opening(NameAt(tokens, from)) == [] && Closing(tables, NameAt(tokens, from)) == []
      && AllInOrder(tables, tokens, arguments, from + 1)
    case _ => false
  }

  predicate AllInOrder(tables: Tables, tokens: seq<Token>, ts: Trees, from: nat) {
    ts == NoTrees ||
    (AllInOrder(tables, tokens, ts.before, from) && InOrder(tables, tokens, ts.last, from + SizeAll(ts.before)))
  }

  lemma {:induction false} GlyphsBoth(tables: Tables, tokens: seq<Token>, a: nat, b: nat, c: nat)
    requires a <= b <= c <= |tokens|
    ensures Glyphs(tables, tokens, a, c) == Glyphs(tables, tokens, a, b) + Glyphs(tables, tokens, b, c)
    decreases c
  {
    hide Own;
    if b < c {
      GlyphsBoth(tables, tokens, a, b, c - 1);
    }
  }

  lemma OneGlyph(tables: Tables, tokens: seq<Token>, p: nat)
    requires p < |tokens|
    ensures Glyphs(tables, tokens, p, p + 1) == Own(tables, tokens[p])
    ensures Glyphs(tables, tokens, p, p) == []
  {
    hide Own;
    assert Glyphs(tables, tokens, p, p) == [];
  }

  lemma NoGlyphs(tables: Tables, tokens: seq<Token>, p: nat)
    requires p <= |tokens|
    ensures Glyphs(tables, tokens, p, p) == []
  {
  }

  /** The tokens of a stretch, all there, show exactly this. */
  predicate Is(tables: Tables, tokens: seq<Token>, shown: seq<Piece>, from: nat, end: nat) {
    from <= end <= |tokens| && shown == Glyphs(tables, tokens, from, end)
  }

  lemma Both(tables: Tables, tokens: seq<Token>, x: seq<Piece>, y: seq<Piece>, a: nat, b: nat, c: nat)
    requires Is(tables, tokens, x, a, b) && Is(tables, tokens, y, b, c)
    ensures Is(tables, tokens, x + y, a, c)
  {
    hide Own;
    GlyphsBoth(tables, tokens, a, b, c);
  }

  lemma Silent(tables: Tables, tokens: seq<Token>, p: nat, there: bool)
    requires p + One(there) <= |tokens|
    requires there ==>
      tokens[p].Open? || tokens[p].Close? || tokens[p].Sub? || tokens[p].Sup?
      || (tokens[p].Cmd? && !FormOf(tables, tokens[p].v).Fixed?)
    ensures Is(tables, tokens, [], p, p + One(there))
  {
    hide Glyphs, FormOf;
    if there {
      OneGlyph(tables, tokens, p);
    } else {
      NoGlyphs(tables, tokens, p);
    }
  }

  ghost predicate InTurn(tables: Tables, tokens: seq<Token>, t: Tree, from: nat) {
    Is(tables, tokens, Spoken(tables, tokens, t, from), from, from + Size(t))
  }

  ghost predicate AllInTurn(tables: Tables, tokens: seq<Token>, ts: Trees, from: nat) {
    Is(tables, tokens, SpokenAll(tables, tokens, ts, from), from, from + SizeAll(ts))
  }

  lemma OneMoreInTurn(tables: Tables, tokens: seq<Token>, ts: Trees, t: Tree, from: nat)
    requires AllInTurn(tables, tokens, ts, from) && InTurn(tables, tokens, t, from + SizeAll(ts))
    ensures AllInTurn(tables, tokens, More(ts, t), from)
  {
    hide Is, Spoken, SpokenAll, Size, SizeAll;
    OneMoreSize(ts, t);
    SpokenLastPart(tables, tokens, More(ts, t), from);
    var p := from + SizeAll(ts);
    Both(tables, tokens, SpokenAll(tables, tokens, ts, from), Spoken(tables, tokens, t, p), from, p, p + Size(t));
  }

  lemma NothingInTurn(tables: Tables, tokens: seq<Token>, from: nat)
    requires from <= |tokens|
    ensures AllInTurn(tables, tokens, NoTrees, from) && InTurn(tables, tokens, Missing, from)
  {
    NoGlyphs(tables, tokens, from);
  }

  lemma LeafInTurn(tables: Tables, tokens: seq<Token>, from: nat)
    requires from < |tokens| && (tokens[from].Cmd? ==> FormOf(tables, tokens[from].v).Fixed?)
    ensures InTurn(tables, tokens, Leaf, from)
  {
    hide Glyph, FormOf, Glyphs;
    OneGlyph(tables, tokens, from);
  }

  lemma GroupInTurn(tables: Tables, tokens: seq<Token>, items: Trees, closed: bool, from: nat)
    requires from < |tokens| && tokens[from].Open? && RowEnds(tokens, from + 1 + SizeAll(items), AtClose, closed)
    requires AllInTurn(tables, tokens, items, from + 1)
    ensures InTurn(tables, tokens, Group(items, closed), from)
  {
    hide Is, SpokenAll, SizeAll;
    var e, shown := from + 1 + SizeAll(items), SpokenAll(tables, tokens, items, from + 1);
    Silent(tables, tokens, from, true);
    Silent(tables, tokens, e, closed);
    Both(tables, tokens, [], shown, from, from + 1, e);
    Both(tables, tokens, [] + shown, [], from, e, e + One(closed));
    assert [] + shown + [] == shown;
  }

  lemma CommandInTurn(tables: Tables, tokens: seq<Token>, ts: Trees, from: nat)
    requires from < |tokens| && tokens[from].Cmd? && !FormOf(tables, tokens[from].v).Fixed?
    requires Opening(NameAt(tokens, from)) == [] && Closing(tables, NameAt(tokens, from)) == []
    requires AllInTurn(tables, tokens, ts, from + 1)
    ensures InTurn(tables, tokens, Command(ts), from)
  {
    hide Is, SpokenAll, SizeAll, FormOf, Opening, Closing;
    var shown := SpokenAll(tables, tokens, ts, from + 1);
    Silent(tables, tokens, from, true);
    Both(tables, tokens, [], shown, from, from + 1, from + 1 + SizeAll(ts));
    assert [] + shown + [] == [] + shown;
  }

  lemma ScriptInTurn(tables: Tables, tokens: seq<Token>, value: Tree, p: nat)
    requires ScriptAt(tokens, p) && InTurn(tables, tokens, value, p + 1)
    ensures InTurn(tables, tokens, Script(value), p)
  {
    hide Is;
    Silent(tables, tokens, p, true);
    var shown := Spoken(tables, tokens, value, p + 1);
    Both(tables, tokens, [], shown, p, p + 1, p + 1 + Size(value));
    assert [] + shown == shown;
  }

  lemma LastOrBefore(tables: Tables, tokens: seq<Token>, ts: Trees, t: Tree, from: nat, sub: bool)
    requires from + SizeAll(ts) < |tokens|
    ensures
      var p := from + SizeAll(ts);
      SpokenLast(tables, tokens, More(ts, t), from, sub) ==
        if tokens[p].Sub? == sub then Spoken(tables, tokens, t, p) else SpokenLast(tables, tokens, ts, from, sub)
  {
    hide Spoken, SizeAll;
  }

  lemma NoScripts(tables: Tables, tokens: seq<Token>, from: nat, sub: bool)
    ensures SpokenLast(tables, tokens, NoTrees, from, sub) == [] && SpokenAll(tables, tokens, NoTrees, from) == []
    ensures SizeAll(NoTrees) == 0
  {
  }

  lemma SingleIsLast(tables: Tables, tokens: seq<Token>, s: Tree, p: nat)
    requires ScriptAt(tokens, p)
    ensures
      var ts := More(NoTrees, s);
      SpokenLast(tables, tokens, ts, p, true) + SpokenLast(tables, tokens, ts, p, false) ==
        SpokenAll(tables, tokens, ts, p)
  {
    hide Spoken, SpokenAll, SpokenLast, SizeAll;
    NoScripts(tables, tokens, p, true);
    NoScripts(tables, tokens, p, false);
    LastOrBefore(tables, tokens, NoTrees, s, p, true);
    LastOrBefore(tables, tokens, NoTrees, s, p, false);
    SpokenLastPart(tables, tokens, More(NoTrees, s), p);
  }

  lemma LastOfTwo(tables: Tables, tokens: seq<Token>, a: Tree, b: Tree, p: nat)
    requires p < |tokens| && tokens[p].Sub? && p + Size(a) < |tokens| && tokens[p + Size(a)].Sup?
    ensures
      var ts := More(More(NoTrees, a), b);
      && SpokenLast(tables, tokens, ts, p, true) == Spoken(tables, tokens, a, p)
      && SpokenLast(tables, tokens, ts, p, false) == Spoken(tables, tokens, b, p + Size(a))
  {
    hide Spoken, SpokenAll, SpokenLast, Size, SizeAll;
    NoScripts(tables, tokens, p, true);
    OneMoreSize(NoTrees, a);
    LastOrBefore(tables, tokens, NoTrees, a, p, true);
    LastOrBefore(tables, tokens, More(NoTrees, a), b, p, true);
    LastOrBefore(tables, tokens, More(NoTrees, a), b, p, false);
  }

  lemma AllOfTwo(tables: Tables, tokens: seq<Token>, a: Tree, b: Tree, p: nat)
    ensures SpokenAll(tables, tokens, More(More(NoTrees, a), b), p) ==
            Spoken(tables, tokens, a, p) + Spoken(tables, tokens, b, p + Size(a))
  {
    hide Spoken, SpokenAll, Size, SizeAll;
    var one := More(NoTrees, a);
    NoScripts(tables, tokens, p, true);
    OneMoreSize(NoTrees, a);
    SpokenLastPart(tables, tokens, one, p);
    SpokenLastPart(tables, tokens, More(one, b), p);
    assert [] + Spoken(tables, tokens, a, p) == Spoken(tables, tokens, a, p);
  }

  lemma BothAreLast(tables: Tables, tokens: seq<Token>, a: Tree, b: Tree, p: nat)
    requires p < |tokens| && tokens[p].Sub? && p + Size(a) < |tokens| && tokens[p + Size(a)].Sup?
    ensures
      var ts := More(More(NoTrees, a), b);
      SpokenLast(tables, tokens, ts, p, true) + SpokenLast(tables, tokens, ts, p, false) ==
        SpokenAll(tables, tokens, ts, p)
  {
    hide Spoken, SpokenAll, SpokenLast, Size;
    LastOfTwo(tables, tokens, a, b, p);
    AllOfTwo(tables, tokens, a, b, p);
  }

  lemma FirstScript(tables: Tables, tokens: seq<Token>, scripts: Trees, p: nat)
    requires AreScripts(tables, tokens, scripts, p) && scripts.More? && scripts.before == NoTrees
    ensures ScriptAt(tokens, p)
  {
    hide IsArgument;
  }

  lemma OneOfEachSpoken(tables: Tables, tokens: seq<Token>, scripts: Trees, p: nat)
    requires OneOfEach(tokens, scripts, p) && AreScripts(tables, tokens, scripts, p)
    ensures SpokenLast(tables, tokens, scripts, p, true) + SpokenLast(tables, tokens, scripts, p, false) ==
            SpokenAll(tables, tokens, scripts, p)
  {
    hide SpokenLast, SpokenAll, Size, AreScripts;
    if scripts.before == NoTrees {
      FirstScript(tables, tokens, scripts, p);
      SingleIsLast(tables, tokens, scripts.last, p);
    } else {
      BothAreLast(tables, tokens, scripts.before.last, scripts.last, p);
    }
  }

  lemma ScriptedInTurn(tables: Tables, tokens: seq<Token>, base: Tree, scripts: Trees, from: nat)
    requires InTurn(tables, tokens, base, from) && AllInTurn(tables, tokens, scripts, from + Size(base))
    requires OneOfEach(tokens, scripts, from + Size(base)) && AreScripts(tables, tokens, scripts, from + Size(base))
    ensures InTurn(tables, tokens, Scripted(base, scripts), from)
  {
    hide Is, Spoken, SpokenAll, SpokenLast, Size, SizeAll, OneOfEach, AreScripts;
    var p := from + Size(base);
    ScriptedSize(base, scripts);
    ScriptedReads(tables, tokens, base, scripts, from);
    OneOfEachSpoken(tables, tokens, scripts, p);
    var x, y, z := Spoken(tables, tokens, base, from), SpokenLast(tables, tokens, scripts, p, true),
                   SpokenLast(tables, tokens, scripts, p, false);
    assert x + y + z == x + (y + z);
    Both(tables, tokens, x, y + z, from, p, p + SizeAll(scripts));
  }

  lemma {:induction false} AtomInTurn(tables: Tables, tokens: seq<Token>, t: Tree, from: nat)
    requires IsAtom(tables, tokens, t, from) && InOrder(tables, tokens, t, from)
    ensures InTurn(tables, tokens, t, from)
    decreases t, 0
  {
    hide InTurn, AllInTurn, AllInOrder, SizeAll, IsRow, IsArgument, AreArguments, AreParts, RowEnds, Count, Opening,
         Closing, FormOf;
    match t {
      case Leaf => LeafInTurn(tables, tokens, from);
      case Group(items, closed) =>
        RowInTurn(tables, tokens, items, from + 1, AtClose);
        GroupInTurn(tables, tokens, items, closed, from);
      case Command(arguments) =>
        ArgumentsInTurn(tables, tokens, arguments, from + 1);
        CommandInTurn(tables, tokens, arguments, from);
    }
  }

  lemma {:induction false} ArgumentInTurn(tables: Tables, tokens: seq<Token>, t: Tree, from: nat)
    requires IsArgument(tables, tokens, t, from) && InOrder(tables, tokens, t, from) && from <= |tokens|
    ensures InTurn(tables, tokens, t, from)
    decreases t, 1
  {
    hide InTurn, InOrder, IsAtom, StartsNothing;
    if StartsNothing(tokens, from) {
      NothingInTurn(tables, tokens, from);
    } else {
      AtomInTurn(tables, tokens, t, from);
    }
  }

  lemma {:induction false} ArgumentsInTurn(tables: Tables, tokens: seq<Token>, ts: Trees, from: nat)
    requires AreArguments(tables, tokens, ts, from) && AllInOrder(tables, tokens, ts, from) && from <= |tokens|
    ensures AllInTurn(tables, tokens, ts, from)
    decreases ts, 2
  {
    hide InTurn, AllInTurn, InOrder, IsArgument;
    if ts == NoTrees {
      NothingInTurn(tables, tokens, from);
    } else {
      ArgumentsInTurn(tables, tokens, ts.before, from);
      TurnEnds(tables, tokens, ts.before, from);
      ArgumentInTurn(tables, tokens, ts.last, from + SizeAll(ts.before));
      OneMoreInTurn(tables, tokens, ts.before, ts.last, from);
    }
  }

  lemma TurnEnds(tables: Tables, tokens: seq<Token>, ts: Trees, from: nat)
    requires AllInTurn(tables, tokens, ts, from)
    ensures from + SizeAll(ts) <= |tokens|
  {
  }

  lemma {:induction false} ScriptsInTurn(tables: Tables, tokens: seq<Token>, ts: Trees, from: nat)
    requires AreScripts(tables, tokens, ts, from) && AllInOrder(tables, tokens, ts, from) && from <= |tokens|
    ensures AllInTurn(tables, tokens, ts, from)
    decreases ts, 2
  {
    hide InTurn, AllInTurn, IsArgument;
    if ts == NoTrees {
      NothingInTurn(tables, tokens, from);
    } else {
      ScriptsInTurn(tables, tokens, ts.before, from);
      ArgumentInTurn(tables, tokens, ts.last.value, from + SizeAll(ts.before) + 1);
      ScriptInTurn(tables, tokens, ts.last.value, from + SizeAll(ts.before));
      OneMoreInTurn(tables, tokens, ts.before, ts.last, from);
    }
  }

  lemma {:induction false} UnitInTurn(tables: Tables, tokens: seq<Token>, t: Tree, from: nat)
    requires IsUnit(tables, tokens, t, from) && InOrder(tables, tokens, t, from)
    ensures InTurn(tables, tokens, t, from)
    decreases t, 1
  {
    hide InTurn, AllInTurn, AllInOrder, IsAtom, AreScripts, ScriptAt, OneOfEach;
    if t.Scripted? {
      AtomInTurn(tables, tokens, t.base, from);
      UnitEnds(tables, tokens, t.base, from);
      ScriptsInTurn(tables, tokens, t.scripts, from + Size(t.base));
      ScriptedInTurn(tables, tokens, t.base, t.scripts, from);
    } else {
      AtomInTurn(tables, tokens, t, from);
    }
  }

  lemma UnitEnds(tables: Tables, tokens: seq<Token>, t: Tree, from: nat)
    requires InTurn(tables, tokens, t, from)
    ensures from + Size(t) <= |tokens|
  {
  }

  lemma {:induction false} RowInTurn(tables: Tables, tokens: seq<Token>, ts: Trees, from: nat, stop: Stop)
    requires IsRow(tables, tokens, ts, from, stop) && AllInOrder(tables, tokens, ts, from) && from <= |tokens|
    ensures AllInTurn(tables, tokens, ts, from)
    decreases ts, 2
  {
    hide InTurn, AllInTurn, InOrder, IsUnit, StopsAt;
    if ts == NoTrees {
      NothingInTurn(tables, tokens, from);
    } else {
      RowInTurn(tables, tokens, ts.before, from, stop);
      UnitInTurn(tables, tokens, ts.last, from + SizeAll(ts.before));
      OneMoreInTurn(tables, tokens, ts.before, ts.last, from);
    }
  }

  /** Such a formula is shown token by token, in the order it is written, whatever elements it is put into. */
  lemma ShownInTokenOrder(tables: Tables, tokens: seq<Token>, display: bool, ts: Trees)
    requires IsReading(tables, tokens, ts) && AllInOrder(tables, tokens, ts, 0)
    ensures Content(Joined(PrintAll(tables, tokens, display, ts, 0))) == Glyphs(tables, tokens, 0, SizeAll(ts))
  {
    hide Content, PrintAll, SpokenAll, SizeAll, IsRow, Joined, Glyphs, AllInOrder;
    FormulaIsSpoken(tables, tokens, display, ts);
    RowInTurn(tables, tokens, ts, 0, Never);
  }
}
