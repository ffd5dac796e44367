/** Which formulas the renderer gives up on, and what the names it inherits print as. */
module MathFallback {
  import opened Options
  import opened Escape
  import opened MathTokens
  import opened MathMarkup
  import opened MathTree
  import opened MathUnfold
  import opened MathUnique
  import opened MathRender

  /** There is one rendering of a source. */
  lemma OneRendering(tables: Tables, source: string, display: bool, a: string, b: string)
    requires Rendered(tables, source, display, a) && Rendered(tables, source, display, b)
    ensures a == b
  {
    hide IsReading, BodyOf, MathElement;
    var tokens := TokensFrom(source, 0);
    var ts :| IsReading(tables, tokens, ts) && a == Flatten(MathElement(display, BodyOf(tables, source, display, ts)));
    var us :| IsReading(tables, tokens, us) && b == Flatten(MathElement(display, BodyOf(tables, source, display, us)));
    FormulaIsUnique(tables, tokens, ts, us);
  }

  // ------------------------------------------------------------- Which tokens raise

  /** A `begin` whose environment is a name every table inherits. */
  predicate Raises(tables: Tables, tokens: seq<Token>, p: nat) {
    && p < |tokens| && tokens[p].Cmd? && FormOf(tables, tokens[p].v).Environment?
    && BadName(tables, EnvironmentAt(tokens, p))
  }

  /** The tokens a reading takes as the delimiters of a `left` and its `right`, whatever they are. */
  function Delimiters(t: Tree, from: nat): set<nat> {
    match t
    case Leaf => {}
    case Missing => {}
    case Break => {}
    case Group(items, _) => AllDelimiters(items, from + 1)
    case Scripted(base, scripts) => Delimiters(base, from) + AllDelimiters(scripts, from + Size(base))
    case Script(value) => Delimiters(value, from + 1)
    case Command(arguments) => AllDelimiters(arguments, from + 1)
    case Root(index, closed, radicand) =>
      AllDelimiters(index, from + 2) + Delimiters(radicand, from + 2 + SizeAll(index) + One(closed))
    case Fenced(begun, items, closed, ended) =>
      var inner := from + 1 + One(begun);
      (if begun then {from + 1} else {}) + AllDelimiters(items, inner)
        + (if ended then {inner + SizeAll(items) + One(closed)} else {})
    case Table(parts, _) => AllDelimiters(parts, from + 1)
  }

  function AllDelimiters(ts: Trees, from: nat): set<nat> {
    if ts == NoTrees then {} else AllDelimiters(ts.before, from) + Delimiters(ts.last, from + SizeAll(ts.before))
  }

  predicate Between(ps: set<nat>, from: nat, to: nat) {
    forall p | p in ps :: from <= p < to
  }

  /** A command taken as a delimiter stands right after a `left` or a `right`. */
  predicate Follows(tokens: seq<Token>, p: nat) {
    p < |tokens| && tokens[p].Cmd? ==> p > 0 && tokens[p - 1].Cmd? && tokens[p - 1].v in {"left", "right"}
  }

  predicate AllFollow(tokens: seq<Token>, ps: set<nat>) {
    forall p | p in ps :: Follows(tokens, p)
  }

  /** A token of the stretch that raises and is not taken as a delimiter. */
  ghost predicate RaisesWithin(tables: Tables, tokens: seq<Token>, from: nat, to: nat, taken: set<nat>) {
    exists p: nat :: from <= p < to && p !in taken && Raises(tables, tokens, p)
  }

  /** Whether a stretch throws is whether a token of it raises. */
  ghost predicate Told(tables: Tables, tokens: seq<Token>, throws: bool, from: nat, to: nat, taken: set<nat>) {
    && from <= to && Between(taken, from, to) && AllFollow(tokens, taken)
    && (throws <==> RaisesWithin(tables, tokens, from, to, taken))
  }

  lemma Together(tables: Tables, tokens: seq<Token>, x: bool, y: bool, a: nat, b: nat, c: nat, left: set<nat>,
               right: set<nat>)
    requires Told(tables, tokens, x, a, b, left) && Told(tables, tokens, y, b, c, right)
    ensures Told(tables, tokens, x || y, a, c, left + right)
  {
    hide Raises;
    if RaisesWithin(tables, tokens, a, b, left) {
      var p: nat :| a <= p < b && p !in left && Raises(tables, tokens, p);
      assert p !in left + right;
    }
    if RaisesWithin(tables, tokens, b, c, right) {
      var p: nat :| b <= p < c && p !in right && Raises(tables, tokens, p);
      assert p !in left + right;
    }
  }

  lemma Quiet(tables: Tables, tokens: seq<Token>, p: nat, there: bool)
    requires there ==> !Raises(tables, tokens, p)
    ensures Told(tables, tokens, false, p, p + One(there), {})
  {
    hide Raises;
  }

  lemma Taken(tables: Tables, tokens: seq<Token>, p: nat, there: bool)
    requires there ==> Follows(tokens, p)
    ensures Told(tables, tokens, false, p, p + One(there), if there then {p} else {})
  {
    hide Raises;
  }

  lemma Head(tables: Tables, tokens: seq<Token>, p: nat)
    ensures Told(tables, tokens, Raises(tables, tokens, p), p, p + 1, {})
  {
    hide Raises;
    if Raises(tables, tokens, p) {
      assert p !in {};
    }
  }

  lemma OnlyBegin(tables: Tables, name: string)
    ensures FormOf(tables, name).Environment? ==> name == "begin"
  {
    hide Found, OTHER_FIXED;
  }

  lemma OnlyLeft(tables: Tables, name: string)
    ensures FormOf(tables, name).Fence? ==> name == "left"
  {
    hide Found, OTHER_FIXED;
  }

  /** Only a command of the environment form can raise. */
  lemma NotRaised(tables: Tables, tokens: seq<Token>, p: nat)
    requires p < |tokens| ==> !tokens[p].Cmd? || tokens[p].v != "begin"
    ensures !Raises(tables, tokens, p)
  {
    hide FormOf, BadName;
    if p < |tokens| && tokens[p].Cmd? {
      OnlyBegin(tables, tokens[p].v);
    }
  }

  lemma WrongForm(tables: Tables, tokens: seq<Token>, p: nat)
    requires p < |tokens| && tokens[p].Cmd? && !FormOf(tables, tokens[p].v).Environment?
    ensures !Raises(tables, tokens, p)
  {
  }

  // --------------------------------------------------------------------- Construct by construct

  lemma GroupTold(tables: Tables, tokens: seq<Token>, items: Trees, closed: bool, from: nat)
    requires from < |tokens| && tokens[from].Open? && RowEnds(tokens, from + 1 + SizeAll(items), AtClose, closed)
    requires Told(tables, tokens, ThrowAny(tables, tokens, items, from + 1), from + 1, from + 1 + SizeAll(items),
                  AllDelimiters(items, from + 1))
    ensures
      var t := Group(items, closed);
      Told(tables, tokens, Throws(tables, tokens, t, from), from, from + Size(t), Delimiters(t, from))
  {
    hide Told, Raises, ThrowAny, AllDelimiters, SizeAll;
    var e, taken := from + 1 + SizeAll(items), AllDelimiters(items, from + 1);
    var inner := ThrowAny(tables, tokens, items, from + 1);
    NotRaised(tables, tokens, from);
    Quiet(tables, tokens, from, true);
    if closed {
      NotRaised(tables, tokens, e);
    }
    Quiet(tables, tokens, e, closed);
    Together(tables, tokens, false, inner, from, from + 1, e, {}, taken);
    Together(tables, tokens, inner, false, from, e, e + One(closed), {} + taken, {});
    assert {} + taken + {} == taken;
  }

  lemma CommandTold(tables: Tables, tokens: seq<Token>, ts: Trees, from: nat)
    requires from < |tokens| && tokens[from].Cmd? && !FormOf(tables, tokens[from].v).Environment?
    requires Told(tables, tokens, ThrowAny(tables, tokens, ts, from + 1), from + 1, from + 1 + SizeAll(ts),
                  AllDelimiters(ts, from + 1))
    ensures
      var t := Command(ts);
      Told(tables, tokens, Throws(tables, tokens, t, from), from, from + Size(t), Delimiters(t, from))
  {
    hide Told, Raises, ThrowAny, AllDelimiters, SizeAll, FormOf;
    WrongForm(tables, tokens, from);
    Quiet(tables, tokens, from, true);
    Together(tables, tokens, false, ThrowAny(tables, tokens, ts, from + 1), from, from + 1, from + 1 + SizeAll(ts), {},
           AllDelimiters(ts, from + 1));
    assert {} + AllDelimiters(ts, from + 1) == AllDelimiters(ts, from + 1);
  }

  lemma RootTold(tables: Tables, tokens: seq<Token>, index: Trees, closed: bool, radicand: Tree, from: nat)
    requires from + 1 < |tokens| && tokens[from].Cmd? && FormOf(tables, tokens[from].v).SquareRoot?
    requires tokens[from + 1] == Op("[") && RowEnds(tokens, from + 2 + SizeAll(index), AtBracket, closed)
    requires Told(tables, tokens, ThrowAny(tables, tokens, index, from + 2), from + 2, from + 2 + SizeAll(index),
                  AllDelimiters(index, from + 2))
    requires
      var inner := from + 2 + SizeAll(index) + One(closed);
      Told(tables, tokens, Throws(tables, tokens, radicand, inner), inner, inner + Size(radicand),
           Delimiters(radicand, inner))
    ensures
      var t := Root(index, closed, radicand);
      Told(tables, tokens, Throws(tables, tokens, t, from), from, from + Size(t), Delimiters(t, from))
  {
    hide Told, Raises, ThrowAny, AllDelimiters, Delimiters, SizeAll, Size, Throws, FormOf, Print;
    RootPrints(tables, tokens, false, index, closed, radicand, from);
    RootThrows(tables, tokens, index, closed, radicand, from);
    RootDelimiters(index, closed, radicand, from);
    var e := from + 2 + SizeAll(index);
    var inner := e + One(closed);
    var x, y := ThrowAny(tables, tokens, index, from + 2), Throws(tables, tokens, radicand, inner);
    var left, right := AllDelimiters(index, from + 2), Delimiters(radicand, inner);
    WrongForm(tables, tokens, from);
    NotRaised(tables, tokens, from + 1);
    Quiet(tables, tokens, from, true);
    Quiet(tables, tokens, from + 1, true);
    if closed {
      NotRaised(tables, tokens, e);
    }
    Quiet(tables, tokens, e, closed);
    Together(tables, tokens, false, false, from, from + 1, from + 2, {}, {});
    Together(tables, tokens, false, x, from, from + 2, e, {} + {}, left);
    Together(tables, tokens, x, false, from, e, inner, {} + {} + left, {});
    Together(tables, tokens, x, y, from, inner, inner + Size(radicand), {} + {} + left + {}, right);
    assert {} + {} + left + {} + right == left + right;
  }

  lemma RootDelimiters(index: Trees, closed: bool, radicand: Tree, from: nat)
    ensures Delimiters(Root(index, closed, radicand), from) ==
            AllDelimiters(index, from + 2) + Delimiters(radicand, from + 2 + SizeAll(index) + One(closed))
  {
    hide AllDelimiters, SizeAll;
  }

  lemma FencedDelimiters(begun: bool, items: Trees, closed: bool, ended: bool, from: nat)
    ensures
      var inner := from + 1 + One(begun);
      var e := inner + SizeAll(items) + One(closed);
      Delimiters(Fenced(begun, items, closed, ended), from) ==
        (if begun then {from + 1} else {}) + AllDelimiters(items, inner) + (if ended then {e} else {})
  {
    hide AllDelimiters, SizeAll;
  }

  lemma FencedTold(tables: Tables, tokens: seq<Token>, begun: bool, items: Trees, closed: bool, ended: bool, from: nat)
    requires from < |tokens| && tokens[from].Cmd? && FormOf(tables, tokens[from].v).Fence?
    requires RowEnds(tokens, from + 1 + One(begun) + SizeAll(items), AtRight, closed)
    requires
      var inner := from + 1 + One(begun);
      Told(tables, tokens, ThrowAny(tables, tokens, items, inner), inner, inner + SizeAll(items),
           AllDelimiters(items, inner))
    ensures
      var t := Fenced(begun, items, closed, ended);
      Told(tables, tokens, Throws(tables, tokens, t, from), from, from + Size(t), Delimiters(t, from))
  {
    hide Told, Raises, ThrowAny, AllDelimiters, Delimiters, SizeAll, Size, Throws, FormOf, Print;
    FencedPrints(tables, tokens, false, begun, items, closed, ended, from);
    FencedThrows(tables, tokens, begun, items, closed, ended, from);
    FencedDelimiters(begun, items, closed, ended, from);
    var inner := from + 1 + One(begun);
    var e := inner + SizeAll(items);
    var last := e + One(closed);
    var x := ThrowAny(tables, tokens, items, inner);
    var first: set<nat>, left, right: set<nat> :=
      if begun then {from + 1} else {}, AllDelimiters(items, inner), if ended then {last} else {};
    WrongForm(tables, tokens, from);
    OnlyLeft(tables, tokens[from].v);
    Quiet(tables, tokens, from, true);
    Taken(tables, tokens, from + 1, begun);
    if closed {
      NotRaised(tables, tokens, e);
    }
    Quiet(tables, tokens, e, closed);
    Taken(tables, tokens, last, ended);
    Together(tables, tokens, false, false, from, from + 1, inner, {}, first);
    Together(tables, tokens, false, x, from, inner, e, {} + first, left);
    Together(tables, tokens, x, false, from, e, last, {} + first + left, {});
    Together(tables, tokens, x, false, from, last, last + One(ended), {} + first + left + {}, right);
    assert {} + first + left + {} + right == first + left + right;
  }

  lemma TableTold(tables: Tables, tokens: seq<Token>, parts: Trees, closed: bool, from: nat)
    requires from < |tokens| && tokens[from].Cmd? && FormOf(tables, tokens[from].v).Environment?
    requires closed ==> EndAt(tokens, from + 1 + SizeAll(parts))
    requires Told(tables, tokens, ThrowAny(tables, tokens, parts, from + 1), from + 1, from + 1 + SizeAll(parts),
                  AllDelimiters(parts, from + 1))
    ensures
      var t := Table(parts, closed);
      Told(tables, tokens, Throws(tables, tokens, t, from), from, from + Size(t), Delimiters(t, from))
  {
    hide Told, ThrowAny, AllDelimiters, SizeAll, FormOf, BadName;
    TableThrows(tables, tokens, parts, closed, from);
    var e, taken := from + 1 + SizeAll(parts), AllDelimiters(parts, from + 1);
    var bad, inner := BadName(tables, EnvironmentAt(tokens, from)), ThrowAny(tables, tokens, parts, from + 1);
    Head(tables, tokens, from);
    if closed {
      NotRaised(tables, tokens, e);
    }
    Quiet(tables, tokens, e, closed);
    Together(tables, tokens, bad, inner, from, from + 1, e, {}, taken);
    Together(tables, tokens, bad || inner, false, from, e, e + One(closed), {} + taken, {});
    assert {} + taken + {} == taken;
  }

  lemma LeafTold(tables: Tables, tokens: seq<Token>, from: nat)
    requires from < |tokens| && (tokens[from].Cmd? ==> FormOf(tables, tokens[from].v).Fixed?)
    ensures Told(tables, tokens, Throws(tables, tokens, Leaf, from), from, from + Size(Leaf), Delimiters(Leaf, from))
  {
    hide Told, Raises, FormOf;
    if tokens[from].Cmd? {
      WrongForm(tables, tokens, from);
    } else {
      NotRaised(tables, tokens, from);
    }
    Quiet(tables, tokens, from, true);
  }

  // --------------------------------------------------------------------------- Any reading

  lemma OneMoreTold(tables: Tables, tokens: seq<Token>, ts: Trees, t: Tree, from: nat)
    requires Told(tables, tokens, ThrowAny(tables, tokens, ts, from), from, from + SizeAll(ts), AllDelimiters(ts, from))
    requires
      var p := from + SizeAll(ts);
      Told(tables, tokens, Throws(tables, tokens, t, p), p, p + Size(t), Delimiters(t, p))
    ensures
      var more := More(ts, t);
      Told(tables, tokens, ThrowAny(tables, tokens, more, from), from, from + SizeAll(more), AllDelimiters(more, from))
  {
    hide Told, Raises, Throws, ThrowAny, Size, SizeAll, Delimiters;
    OneMoreSize(ts, t);
    OneMoreThrow(tables, tokens, ts, t, from);
    var p := from + SizeAll(ts);
    Together(tables, tokens, ThrowAny(tables, tokens, ts, from), Throws(tables, tokens, t, p), from, p, p + Size(t),
           AllDelimiters(ts, from), Delimiters(t, p));
  }

  lemma NoneTold(tables: Tables, tokens: seq<Token>, from: nat)
    ensures Told(tables, tokens, ThrowAny(tables, tokens, NoTrees, from), from, from + SizeAll(NoTrees),
                 AllDelimiters(NoTrees, from))
    ensures Told(tables, tokens, Throws(tables, tokens, Missing, from), from, from + Size(Missing),
                 Delimiters(Missing, from))
  {
    hide Told;
    Quiet(tables, tokens, from, false);
  }

  lemma ScriptTold(tables: Tables, tokens: seq<Token>, value: Tree, p: nat)
    requires ScriptAt(tokens, p)
    requires Told(tables, tokens, Throws(tables, tokens, value, p + 1), p + 1, p + 1 + Size(value),
                  Delimiters(value, p + 1))
    ensures
      var t := Script(value);
      Told(tables, tokens, Throws(tables, tokens, t, p), p, p + Size(t), Delimiters(t, p))
  {
    hide Told, Raises;
    NotRaised(tables, tokens, p);
    Quiet(tables, tokens, p, true);
    Together(tables, tokens, false, Throws(tables, tokens, value, p + 1), p, p + 1, p + 1 + Size(value), {},
           Delimiters(value, p + 1));
    assert {} + Delimiters(value, p + 1) == Delimiters(value, p + 1);
  }

  lemma BreakTold(tables: Tables, tokens: seq<Token>, p: nat)
    requires BreakAt(tokens, p)
    ensures Told(tables, tokens, Throws(tables, tokens, Break, p), p, p + Size(Break), Delimiters(Break, p))
  {
    hide Told, Raises;
    NotRaised(tables, tokens, p);
    Quiet(tables, tokens, p, true);
  }

  lemma {:induction false} AtomTold(tables: Tables, tokens: seq<Token>, t: Tree, from: nat)
    requires IsAtom(tables, tokens, t, from)
    ensures Told(tables, tokens, Throws(tables, tokens, t, from), from, from + Size(t), Delimiters(t, from))
    decreases t, 0
  {
    hide Told, Raises, Throws, ThrowAny, Size, SizeAll, Delimiters, AllDelimiters, IsRow, IsArgument, AreArguments,
         AreParts, FormOf, RowEnds, Count;
    match t {
      case Leaf => LeafTold(tables, tokens, from);
      case Group(items, closed) =>
        RowTold(tables, tokens, items, from + 1, AtClose);
        GroupTold(tables, tokens, items, closed, from);
      case Command(arguments) =>
        ArgumentsTold(tables, tokens, arguments, from + 1);
        CommandTold(tables, tokens, arguments, from);
      case Root(index, closed, radicand) =>
        RowTold(tables, tokens, index, from + 2, AtBracket);
        ArgumentTold(tables, tokens, radicand, from + 2 + SizeAll(index) + One(closed));
        RootTold(tables, tokens, index, closed, radicand, from);
      case Fenced(begun, items, closed, ended) =>
        RowTold(tables, tokens, items, from + 1 + One(begun), AtRight);
        FencedTold(tables, tokens, begun, items, closed, ended, from);
      case Table(parts, closed) =>
        PartsTold(tables, tokens, parts, from + 1);
        TableTold(tables, tokens, parts, closed, from);
    }
  }

  lemma {:induction false} ArgumentTold(tables: Tables, tokens: seq<Token>, t: Tree, from: nat)
    requires IsArgument(tables, tokens, t, from)
    ensures Told(tables, tokens, Throws(tables, tokens, t, from), from, from + Size(t), Delimiters(t, from))
    decreases t, 1
  {
    hide Told, Throws, Size, Delimiters, IsAtom, StartsNothing;
    if StartsNothing(tokens, from) {
      NoneTold(tables, tokens, from);
    } else {
      AtomTold(tables, tokens, t, from);
    }
  }

  lemma {:induction false} ArgumentsTold(tables: Tables, tokens: seq<Token>, ts: Trees, from: nat)
    requires AreArguments(tables, tokens, ts, from)
    ensures Told(tables, tokens, ThrowAny(tables, tokens, ts, from), from, from + SizeAll(ts), AllDelimiters(ts, from))
    decreases ts, 2
  {
    hide Told, Throws, ThrowAny, Size, SizeAll, Delimiters, AllDelimiters, IsArgument;
    if ts == NoTrees {
      NoneTold(tables, tokens, from);
    } else {
      ArgumentsTold(tables, tokens, ts.before, from);
      ArgumentTold(tables, tokens, ts.last, from + SizeAll(ts.before));
      OneMoreTold(tables, tokens, ts.before, ts.last, from);
    }
  }

  lemma {:induction false} ScriptsTold(tables: Tables, tokens: seq<Token>, ts: Trees, from: nat)
    requires AreScripts(tables, tokens, ts, from)
    ensures Told(tables, tokens, ThrowAny(tables, tokens, ts, from), from, from + SizeAll(ts), AllDelimiters(ts, from))
    decreases ts, 2
  {
    hide Told, Throws, ThrowAny, Size, SizeAll, Delimiters, AllDelimiters, IsArgument, ScriptAt;
    if ts == NoTrees {
      NoneTold(tables, tokens, from);
    } else {
      ScriptsTold(tables, tokens, ts.before, from);
      ArgumentTold(tables, tokens, ts.last.value, from + SizeAll(ts.before) + 1);
      ScriptTold(tables, tokens, ts.last.value, from + SizeAll(ts.before));
      OneMoreTold(tables, tokens, ts.before, ts.last, from);
    }
  }

  lemma {:induction false} UnitTold(tables: Tables, tokens: seq<Token>, t: Tree, from: nat)
    requires IsUnit(tables, tokens, t, from)
    ensures Told(tables, tokens, Throws(tables, tokens, t, from), from, from + Size(t), Delimiters(t, from))
    decreases t, 1
  {
    hide Told, Throws, ThrowAny, Size, SizeAll, Delimiters, AllDelimiters, IsAtom, AreScripts, ScriptAt;
    if t.Scripted? {
      ScriptedSize(t.base, t.scripts);
      ScriptedThrows(tables, tokens, t.base, t.scripts, from);
      ScriptedDelimiters(t.base, t.scripts, from);
      var p := from + Size(t.base);
      AtomTold(tables, tokens, t.base, from);
      ScriptsTold(tables, tokens, t.scripts, p);
      Together(tables, tokens, Throws(tables, tokens, t.base, from), ThrowAny(tables, tokens, t.scripts, p), from, p,
             p + SizeAll(t.scripts), Delimiters(t.base, from), AllDelimiters(t.scripts, p));
    } else {
      AtomTold(tables, tokens, t, from);
    }
  }

  lemma ScriptedDelimiters(base: Tree, scripts: Trees, from: nat)
    ensures Delimiters(Scripted(base, scripts), from) ==
            Delimiters(base, from) + AllDelimiters(scripts, from + Size(base))
  {
    hide AllDelimiters, Size;
  }

  lemma {:induction false} RowTold(tables: Tables, tokens: seq<Token>, ts: Trees, from: nat, stop: Stop)
    requires IsRow(tables, tokens, ts, from, stop)
    ensures Told(tables, tokens, ThrowAny(tables, tokens, ts, from), from, from + SizeAll(ts), AllDelimiters(ts, from))
    decreases ts, 2
  {
    hide Told, Throws, ThrowAny, Size, SizeAll, Delimiters, AllDelimiters, IsUnit, StopsAt;
    if ts == NoTrees {
      NoneTold(tables, tokens, from);
    } else {
      RowTold(tables, tokens, ts.before, from, stop);
      UnitTold(tables, tokens, ts.last, from + SizeAll(ts.before));
      OneMoreTold(tables, tokens, ts.before, ts.last, from);
    }
  }

  lemma {:induction false} PartsTold(tables: Tables, tokens: seq<Token>, ts: Trees, from: nat)
    requires AreParts(tables, tokens, ts, from)
    ensures Told(tables, tokens, ThrowAny(tables, tokens, ts, from), from, from + SizeAll(ts), AllDelimiters(ts, from))
    decreases ts, 2
  {
    hide Told, Throws, ThrowAny, Size, SizeAll, Delimiters, AllDelimiters, IsUnit, EndAt, BreakAt;
    if ts == NoTrees {
      NoneTold(tables, tokens, from);
    } else {
      var p := from + SizeAll(ts.before);
      PartsTold(tables, tokens, ts.before, from);
      if BreakAt(tokens, p) {
        BreakTold(tables, tokens, p);
      } else {
        UnitTold(tables, tokens, ts.last, p);
      }
      OneMoreTold(tables, tokens, ts.before, ts.last, from);
    }
  }

  /** A formula cannot be taken apart exactly when, before the place its reading stops, there is a `begin` with an
      inherited name that is not swallowed as the delimiter of a `left` or its `right`. */
  lemma ThrowsExactlyWhen(tables: Tables, tokens: seq<Token>, ts: Trees)
    requires IsReading(tables, tokens, ts)
    ensures ThrowAny(tables, tokens, ts, 0) <==>
            exists p: nat :: p < SizeAll(ts) && p !in AllDelimiters(ts, 0) && Raises(tables, tokens, p)
  {
    hide Raises, ThrowAny, SizeAll, AllDelimiters, IsRow;
    RowTold(tables, tokens, ts, 0, Never);
  }

  /** So one that does not stand right after a `left` or a `right` always makes the renderer fall back, wherever it is
      nested, provided the reading gets that far. */
  lemma InheritedBeginThrows(tables: Tables, tokens: seq<Token>, ts: Trees, p: nat)
    requires IsReading(tables, tokens, ts) && p < SizeAll(ts) && Raises(tables, tokens, p)
    requires p > 0 && tokens[p - 1].Cmd? ==> tokens[p - 1].v !in {"left", "right"}
    ensures ThrowAny(tables, tokens, ts, 0)
  {
    hide ThrowAny, SizeAll, AllDelimiters, IsRow, FormOf, BadName;
    RowTold(tables, tokens, ts, 0, Never);
    if p in AllDelimiters(ts, 0) {
      assert Follows(tokens, p);
    }
  }

  // ------------------------------------------------------------------ What is printed instead

  lemma RunTo(src: string, i: nat, e: nat, test: char -> bool)
    requires i <= e <= |src| && (forall k | i <= k < e :: test(src[k])) && (e < |src| ==> !test(src[e]))
    ensures RunEnd(src, i, test) == e
    decreases e - i
  {
  }

  lemma OnlyToken(src: string, token: Token)
    requires src != "" && TokenAt(src, 0) == (Some(token), |src|)
    ensures TokensFrom(src, 0) == [token]
  {
    hide TokenAt;
    assert TokensFrom(src, |src|) == [];
  }

  /** A command of letters alone is one token. */
  lemma OneCommand(name: string)
    requires name != "" && name !in TEXT_COMMANDS && forall k | 0 <= k < |name| :: IsLetter(name[k])
    ensures TokensFrom("\\" + name, 0) == [Cmd(name, None)]
  {
    hide TEXT_COMMANDS, Braced, IsLetter, TokensFrom;
    var src := "\\" + name;
    RunTo(src, 1, |src|, IsLetter);
    assert src[1..|src|] == name;
    OnlyToken(src, Cmd(name, None));
  }

  lemma BracedName(src: string, i: nat, name: string)
    requires i + |name| + 2 == |src| && src[i] == '{' && src[i + 1..|src| - 1] == name && src[|src| - 1] == '}'
    requires forall k | 0 <= k < |name| :: name[k] != '{' && name[k] != '}'
    ensures Braced(src, i) == Some((i + 1, |src| - 1))
  {
    hide RunEnd;
    RunTo(src, i, i, IsSpace);
    assert forall k | i + 1 <= k < |src| - 1 :: src[k] == name[k - i - 1];
    RunTo(src, i + 1, |src| - 1, NoBrace);
  }

  lemma BeginIsText()
    ensures "begin" in TEXT_COMMANDS && forall k | 0 <= k < 5 :: IsLetter("begin"[k])
  {
  }

  /** A `begin` with a name in braces is one token. */
  lemma WordOfBegin(src: string)
    requires |src| > 6 && src[..6] == "\\begin" && src[6] == '{'
    ensures src[0] == '\\' && src[1..6] == "begin" && WordEnd(src, 1) == 6
  {
    hide RunEnd;
    BeginIsText();
    assert forall k | 0 <= k < 6 :: src[k] == src[..6][k];
    assert src[1..6] == src[..6][1..] == "begin";
    assert forall k | 1 <= k < 6 :: src[k] == "begin"[k - 1];
    RunTo(src, 1, 6, IsLetter);
  }

  lemma OneBegin(name: string)
    requires forall k | 0 <= k < |name| :: name[k] != '{' && name[k] != '}'
    ensures TokensFrom("\\begin{" + name + "}", 0) == [Cmd("begin", Some(name))]
  {
    hide TEXT_COMMANDS, Braced, TokensFrom, WordEnd, IsLetter, IsSpace;
    var src := "\\begin{" + name + "}";
    assert src[..6] == "\\begin" && src[6] == '{';
    WordOfBegin(src);
    BeginIsText();
    BackslashIsNoSpace();
    assert src[7..|src| - 1] == name;
    BracedName(src, 6, name);
    OnlyToken(src, Cmd("begin", Some(name)));
  }

  lemma BackslashIsNoSpace()
    ensures !IsSpace('\\')
  {
  }

  lemma OneLeaf(tables: Tables, t: Token, display: bool) returns (ts: Trees)
    requires t.Cmd? && FormOf(tables, t.v).Fixed?
    ensures IsReading(tables, [t], ts) && !ThrowAny(tables, [t], ts, 0)
    ensures MathMarkup.Joined(PrintAll(tables, [t], display, ts, 0)) == FixedMarkup(tables, t.v, t.raw)
  {
    hide FormOf, FixedMarkup;
    var tokens := [t];
    ts := More(NoTrees, Leaf);
    LeafIs(tables, tokens, display, 0);
    PlainUnit(tables, tokens, Leaf, 0);
    NothingYet(tables, tokens, display, 0, Never);
    OneMoreUnit(tables, tokens, NoTrees, Leaf, 0, Never);
    OneMore(tables, tokens, display, NoTrees, Leaf, 0);
    var m := Print(tables, tokens, display, Leaf, 0);
    assert [m][..0] == [] && PrintAll(tables, tokens, display, ts, 0) == [m];
    assert MathMarkup.Joined([m]) == [] + m == m;
  }

  /** A command that is a name every table inherits, such as `constructor`, prints as the native function it is. */
  lemma InheritedCommandPrintsNative(tables: Tables, name: string, display: bool, html: string)
    requires name in INHERITED && name !in tables.greek && name !in TEXT_COMMANDS
    requires forall k | 0 <= k < |name| :: IsLetter(name[k])
    ensures Rendered(tables, "\\" + name, display, html) <==>
            html == Flatten(MathElement(display, Leaf1("mi", "", NativeText(name))))
  {
    var source := "\\" + name;
    InheritedIsNotEmpty(name);
    OneCommand(name);
    assert TokensFrom(source, 0) == [Cmd(name, None)];
    var ts := OneLeaf(tables, Cmd(name, None), display);
    assert FixedMarkup(tables, name, None) == Leaf1("mi", "", NativeText(name));
    hide IsReading, ThrowAny, PrintAll, FixedMarkup, MathElement, NativeText, INHERITED, TEXT_COMMANDS, TokensFrom;
    assert BodyOf(tables, source, display, ts) == Leaf1("mi", "", NativeText(name));
    OnlyThis(tables, source, display, ts, html);
  }

  lemma ConstructorPrintsObject(tables: Tables, display: bool, html: string)
    requires "constructor" !in tables.greek
    ensures Rendered(tables, "\\constructor", display, html) <==>
            html == Flatten(MathElement(display, Leaf1("mi", "", "function Object() { [native code] }")))
  {
    hide Rendered, MathElement;
    ConstructorIsInherited();
    assert "\\" + "constructor" == "\\constructor";
    InheritedCommandPrintsNative(tables, "constructor", display, html);
  }

  lemma ConstructorIsInherited()
    ensures "constructor" in INHERITED && "constructor" !in TEXT_COMMANDS
    ensures forall k | 0 <= k < |"constructor"| :: IsLetter("constructor"[k])
    ensures NativeText("constructor") == "function Object() { [native code] }"
  {
  }

  lemma InheritedIsNotEmpty(name: string)
    ensures name in INHERITED ==> name != ""
  {
  }

  lemma OnlyThis(tables: Tables, source: string, display: bool, ts: Trees, html: string)
    requires IsReading(tables, TokensFrom(source, 0), ts)
    ensures Rendered(tables, source, display, html) <==>
            html == Flatten(MathElement(display, BodyOf(tables, source, display, ts)))
  {
    hide IsReading, BodyOf, MathElement, TokensFrom;
    var own := Flatten(MathElement(display, BodyOf(tables, source, display, ts)));
    assert Rendered(tables, source, display, own);
    if Rendered(tables, source, display, html) {
      OneRendering(tables, source, display, html, own);
    }
  }

  lemma OneTable(tables: Tables, name: string) returns (ts: Trees)
    requires FormOf(tables, "begin").Environment?
    ensures IsReading(tables, [Cmd("begin", Some(name))], ts)
    ensures ThrowAny(tables, [Cmd("begin", Some(name))], ts, 0) == BadName(tables, name)
  {
    hide FormOf, BadName;
    var tokens := [Cmd("begin", Some(name))];
    var t := Table(NoTrees, false);
    ts := More(NoTrees, t);
    NothingYet(tables, tokens, false, 0, Never);
    NothingYet(tables, tokens, false, 1, Never);
    TableIs(tables, tokens, NoTrees, false, 0);
    TablePrints(tables, tokens, false, NoTrees, false, 0);
    TableThrows(tables, tokens, NoTrees, false, 0);
    PlainUnit(tables, tokens, t, 0);
    OneMoreUnit(tables, tokens, NoTrees, t, 0, Never);
    OneMore(tables, tokens, false, NoTrees, t, 0);
  }

  /** An environment with such a name, written alone, prints as its own source. */
  lemma InheritedEnvironmentPrintsItself(tables: Tables, name: string, display: bool, html: string)
    requires BadName(tables, name) && FormOf(tables, "begin").Environment?
    requires forall k | 0 <= k < |name| :: name[k] != '{' && name[k] != '}'
    ensures
      var source := "\\begin{" + name + "}";
      Rendered(tables, source, display, html) <==>
        html == Flatten(MathElement(display, Leaf1("mtext", "", MathEscaped(source))))
  {
    hide FormOf, BadName, IsReading, ThrowAny, MathElement;
    var source := "\\begin{" + name + "}";
    OneBegin(name);
    var ts := OneTable(tables, name);
    OnlyThis(tables, source, display, ts, html);
  }
}
