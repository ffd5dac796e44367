/** The grammar leaves no choice: a token list has one reading from any position, the one the parser finds. */
module MathUnique {
  import opened MathTokens
  import opened MathTree
  import opened MathUnfold

  /** A list without its last n members. */
  function Cut(ts: Trees, n: nat): Trees
    requires n <= Count(ts)
  {
    if n == 0 then ts else Cut(ts.before, n - 1)
  }

  // ----------------------------------------------------- One reading of one construct

  lemma {:induction false} AtomIsUnique(tables: Tables, tokens: seq<Token>, t: Tree, u: Tree, from: nat)
    requires IsAtom(tables, tokens, t, from) && IsAtom(tables, tokens, u, from)
    ensures t == u
    decreases t, u, 0
  {
    hide IsRow, IsArgument, AreArguments, AreParts, SizeAll, FormOf, RowEnds, Count;
    match t {
      case Leaf =>
      case Group(items, closed) => RowIsUnique(tables, tokens, items, u.items, from + 1, AtClose, closed, u.closed);
      case Command(arguments) => ArgumentsAreUnique(tables, tokens, arguments, u.arguments, from + 1);
      case Root(index, closed, radicand) =>
        RowIsUnique(tables, tokens, index, u.index, from + 2, AtBracket, closed, u.closed);
        ArgumentIsUnique(tables, tokens, radicand, u.radicand, from + 2 + SizeAll(index) + One(closed));
      case Fenced(begun, items, closed, ended) =>
        RowIsUnique(tables, tokens, items, u.items, from + 1 + One(begun), AtRight, closed, u.closed);
      case Table(parts, closed) => PartsAreUnique(tables, tokens, parts, u.parts, from + 1);
    }
  }

  lemma {:induction false} ArgumentIsUnique(tables: Tables, tokens: seq<Token>, t: Tree, u: Tree, from: nat)
    requires IsArgument(tables, tokens, t, from) && IsArgument(tables, tokens, u, from)
    ensures t == u
    decreases t, u, 1
  {
    hide IsAtom;
    if !StartsNothing(tokens, from) {
      AtomIsUnique(tables, tokens, t, u, from);
    }
  }

  lemma {:induction false} ArgumentsAreUnique(tables: Tables, tokens: seq<Token>, ts: Trees, us: Trees, from: nat)
    requires AreArguments(tables, tokens, ts, from) && AreArguments(tables, tokens, us, from) && Count(ts) == Count(us)
    ensures ts == us
    decreases ts, us, 2
  {
    hide IsArgument, SizeAll;
    if ts != NoTrees {
      ArgumentsAreUnique(tables, tokens, ts.before, us.before, from);
      ArgumentIsUnique(tables, tokens, ts.last, us.last, from + SizeAll(ts.before));
    }
  }

  lemma {:induction false} UnitIsUnique(tables: Tables, tokens: seq<Token>, t: Tree, u: Tree, from: nat)
    requires IsUnit(tables, tokens, t, from) && IsUnit(tables, tokens, u, from)
    ensures t == u
    decreases t, u, 1
  {
    hide IsAtom, AreScripts, SizeAll, Size, ScriptAt;
    if t.Scripted? {
      ScriptedSize(t.base, t.scripts);
    }
    if u.Scripted? {
      ScriptedSize(u.base, u.scripts);
    }
    AtomIsNotScripted(tables, tokens, t, from);
    AtomIsNotScripted(tables, tokens, u, from);
    var s, v := if t.Scripted? then t.base else t, if u.Scripted? then u.base else u;
    AtomIsUnique(tables, tokens, s, v, from);
    if t.Scripted? && u.Scripted? {
      ScriptsAreUnique(tables, tokens, t.scripts, u.scripts, from + Size(s));
    } else if t.Scripted? {
      FirstScript(tables, tokens, t.scripts, Count(t.scripts), from + Size(s));
    } else if u.Scripted? {
      FirstScript(tables, tokens, u.scripts, Count(u.scripts), from + Size(s));
    }
  }

  lemma AtomIsNotScripted(tables: Tables, tokens: seq<Token>, t: Tree, from: nat)
    ensures t.Scripted? ==> !IsAtom(tables, tokens, t, from)
  {
    hide FormOf;
  }

  // ------------------------------------------------------------------------- Scripts

  lemma {:induction false} ScriptsAgree(tables: Tables, tokens: seq<Token>, ts: Trees, us: Trees, from: nat)
    requires AreScripts(tables, tokens, ts, from) && AreScripts(tables, tokens, us, from)
    ensures Count(ts) <= Count(us) ==> ts == Cut(us, Count(us) - Count(ts))
    ensures Count(us) <= Count(ts) ==> us == Cut(ts, Count(ts) - Count(us))
    decreases ts, us, 2
  {
    hide IsArgument, SizeAll, ScriptAt;
    if Count(ts) < Count(us) {
      ScriptsAgree(tables, tokens, ts, us.before, from);
    } else if Count(us) < Count(ts) {
      ScriptsAgree(tables, tokens, ts.before, us, from);
    } else if ts != NoTrees {
      ScriptsAgree(tables, tokens, ts.before, us.before, from);
      assert Cut(us.before, 0) == us.before;
      ArgumentIsUnique(tables, tokens, ts.last.value, us.last.value, from + SizeAll(ts.before) + 1);
    }
  }

  lemma {:induction false} FirstScript(tables: Tables, tokens: seq<Token>, ts: Trees, n: nat, from: nat)
    requires AreScripts(tables, tokens, ts, from) && 0 < n <= Count(ts)
    ensures ScriptAt(tokens, from + SizeAll(Cut(ts, n)))
    ensures n == Count(ts) ==> Cut(ts, n) == NoTrees && SizeAll(NoTrees) == 0
    decreases ts
  {
    hide IsArgument, ScriptAt;
    if n > 1 {
      FirstScript(tables, tokens, ts.before, n - 1, from);
    } else {
      assert Cut(ts, n) == Cut(ts.before, 0) == ts.before;
    }
  }

  lemma {:induction false} ScriptsAreUnique(tables: Tables, tokens: seq<Token>, ts: Trees, us: Trees, from: nat)
    requires AreScripts(tables, tokens, ts, from) && AreScripts(tables, tokens, us, from)
    requires !ScriptAt(tokens, from + SizeAll(ts)) && !ScriptAt(tokens, from + SizeAll(us))
    ensures ts == us
    decreases ts, us, 3
  {
    hide AreScripts, ScriptAt, SizeAll;
    ScriptsAgree(tables, tokens, ts, us, from);
    if Count(ts) < Count(us) {
      FirstScript(tables, tokens, us, Count(us) - Count(ts), from);
    } else if Count(us) < Count(ts) {
      FirstScript(tables, tokens, ts, Count(ts) - Count(us), from);
    }
  }

  // ---------------------------------------------------------------------------- Rows

  /** Two readings of a row from the same position: one is a beginning of the other. */
  lemma {:induction false} RowsAgree(tables: Tables, tokens: seq<Token>, ts: Trees, us: Trees, from: nat, stop: Stop)
    requires IsRow(tables, tokens, ts, from, stop) && IsRow(tables, tokens, us, from, stop)
    ensures Count(ts) <= Count(us) ==> ts == Cut(us, Count(us) - Count(ts))
    ensures Count(us) <= Count(ts) ==> us == Cut(ts, Count(ts) - Count(us))
    decreases ts, us, 2
  {
    hide IsUnit, SizeAll, StopsAt;
    if Count(ts) < Count(us) {
      RowsAgree(tables, tokens, ts, us.before, from, stop);
    } else if Count(us) < Count(ts) {
      RowsAgree(tables, tokens, ts.before, us, from, stop);
    } else if ts != NoTrees {
      RowsAgree(tables, tokens, ts.before, us.before, from, stop);
      assert Cut(us.before, 0) == us.before;
      UnitIsUnique(tables, tokens, ts.last, us.last, from + SizeAll(ts.before));
    }
  }

  lemma {:induction false} RowGoesOn(tables: Tables, tokens: seq<Token>, ts: Trees, n: nat, from: nat, stop: Stop)
    requires IsRow(tables, tokens, ts, from, stop) && 0 < n <= Count(ts)
    ensures !StopsAt(tokens, from + SizeAll(Cut(ts, n)), stop) && !StartsNothing(tokens, from + SizeAll(Cut(ts, n)))
    decreases ts
  {
    hide IsUnit, StopsAt, StartsNothing, SizeAll;
    if n > 1 {
      RowGoesOn(tables, tokens, ts.before, n - 1, from, stop);
    } else {
      assert Cut(ts, n) == Cut(ts.before, 0) == ts.before;
      UnitStarts(tables, tokens, ts.last, from + SizeAll(ts.before));
    }
  }

  lemma UnitStarts(tables: Tables, tokens: seq<Token>, t: Tree, from: nat)
    requires IsUnit(tables, tokens, t, from)
    ensures !StartsNothing(tokens, from)
  {
  }

  lemma {:induction false} RowIsUnique(tables: Tables, tokens: seq<Token>, ts: Trees, us: Trees, from: nat, stop: Stop,
                                       closed: bool, ended: bool)
    requires IsRow(tables, tokens, ts, from, stop) && IsRow(tables, tokens, us, from, stop)
    requires RowEnds(tokens, from + SizeAll(ts), stop, closed) && RowEnds(tokens, from + SizeAll(us), stop, ended)
    ensures ts == us && closed == ended
    decreases ts, us, 3
  {
    hide IsRow, StopsAt, StartsNothing, SizeAll;
    RowsAgree(tables, tokens, ts, us, from, stop);
    if Count(ts) < Count(us) {
      RowGoesOn(tables, tokens, us, Count(us) - Count(ts), from, stop);
    } else if Count(us) < Count(ts) {
      RowGoesOn(tables, tokens, ts, Count(ts) - Count(us), from, stop);
    }
  }

  // -------------------------------------------------------------------------- Tables

  lemma {:induction false} PartsAgree(tables: Tables, tokens: seq<Token>, ts: Trees, us: Trees, from: nat)
    requires AreParts(tables, tokens, ts, from) && AreParts(tables, tokens, us, from)
    ensures Count(ts) <= Count(us) ==> ts == Cut(us, Count(us) - Count(ts))
    ensures Count(us) <= Count(ts) ==> us == Cut(ts, Count(ts) - Count(us))
    decreases ts, us, 2
  {
    hide IsUnit, SizeAll, EndAt, BreakAt;
    if Count(ts) < Count(us) {
      PartsAgree(tables, tokens, ts, us.before, from);
    } else if Count(us) < Count(ts) {
      PartsAgree(tables, tokens, ts.before, us, from);
    } else if ts != NoTrees {
      PartsAgree(tables, tokens, ts.before, us.before, from);
      assert Cut(us.before, 0) == us.before;
      if !BreakAt(tokens, from + SizeAll(ts.before)) {
        UnitIsUnique(tables, tokens, ts.last, us.last, from + SizeAll(ts.before));
      }
    }
  }

  lemma {:induction false} PartsGoOn(tables: Tables, tokens: seq<Token>, ts: Trees, n: nat, from: nat)
    requires AreParts(tables, tokens, ts, from) && 0 < n <= Count(ts)
    ensures !EndAt(tokens, from + SizeAll(Cut(ts, n))) && !StartsNothing(tokens, from + SizeAll(Cut(ts, n)))
    decreases ts
  {
    hide IsUnit, EndAt, BreakAt, StartsNothing, SizeAll;
    if n > 1 {
      PartsGoOn(tables, tokens, ts.before, n - 1, from);
    } else {
      assert Cut(ts, n) == Cut(ts.before, 0) == ts.before;
      if !BreakAt(tokens, from + SizeAll(ts.before)) {
        UnitStarts(tables, tokens, ts.last, from + SizeAll(ts.before));
      } else {
        BreakStarts(tokens, from + SizeAll(ts.before));
      }
    }
  }

  lemma BreakStarts(tokens: seq<Token>, p: nat)
    requires BreakAt(tokens, p)
    ensures !StartsNothing(tokens, p)
  {
  }

  lemma {:induction false} PartsAreUnique(tables: Tables, tokens: seq<Token>, ts: Trees, us: Trees, from: nat)
    requires AreParts(tables, tokens, ts, from) && AreParts(tables, tokens, us, from)
    requires EndAt(tokens, from + SizeAll(ts)) || StartsNothing(tokens, from + SizeAll(ts))
    requires EndAt(tokens, from + SizeAll(us)) || StartsNothing(tokens, from + SizeAll(us))
    ensures ts == us
    decreases ts, us, 3
  {
    hide AreParts, EndAt, StartsNothing, SizeAll;
    PartsAgree(tables, tokens, ts, us, from);
    if Count(ts) < Count(us) {
      PartsGoOn(tables, tokens, us, Count(us) - Count(ts), from);
    } else if Count(us) < Count(ts) {
      PartsGoOn(tables, tokens, ts, Count(ts) - Count(us), from);
    }
  }

  // ------------------------------------------------------------------ The whole formula

  /** There is exactly one way to read a formula as far as it can be read. */
  lemma FormulaIsUnique(tables: Tables, tokens: seq<Token>, ts: Trees, us: Trees)
    requires IsReading(tables, tokens, ts) && IsReading(tables, tokens, us)
    ensures ts == us
  {
    hide IsRow, SizeAll;
    RowIsUnique(tables, tokens, ts, us, 0, Never, false, false);
  }
}
