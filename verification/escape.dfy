/** The statement escaper of the page, and the two escapers of the formula renderer. */
module Escape {

  const SPECIAL := {'&', '<', '>', '"', '\''}

  /** The entity a special character is written as; any other character stands for itself. */
  function Entity(c: char): string {
    match c
    case '&' => "&amp;"
    case '<' => "&lt;"
    case '>' => "&gt;"
    case '"' => "&quot;"
    case '\'' => "&#39;"
    case _ => [c]
  }

  /** The page's escaper: one pass, character by character. */
  function Escaped(s: string): string {
    if s == "" then "" else Entity(s[0]) + Escaped(s[1..])
  }

  /** The character decoded at the front of the text and how much of the text it took. */
  function Front(s: string): (r: (char, nat))
    requires s != ""
    ensures 0 < r.1 <= |s|
  {
    if "&amp;" <= s then ('&', 5)
    else if "&lt;" <= s then ('<', 4)
    else if "&gt;" <= s then ('>', 4)
    else if "&quot;" <= s then ('"', 6)
    else if "&#39;" <= s then ('\'', 5)
    else (s[0], 1)
  }

  /** The decoder: one left-to-right pass that never looks at its own output. */
  function Unescaped(s: string): string
    decreases |s|
  {
    if s == "" then "" else
      var (c, taken) := Front(s);
      [c] + Unescaped(s[taken..])
  }

  lemma FrontOfEntity(c: char, rest: string)
    ensures Front(Entity(c) + rest) == (c, |Entity(c)|)
  {
    var s := Entity(c) + rest;
    assert Entity(c) <= s;
    assert s[..|Entity(c)|] == Entity(c);
    if c !in SPECIAL {
      assert s[0] == c;
    } else {
      assert |s| >= 4 && s[1] == Entity(c)[1];
    }
  }

  /** Escaping loses nothing: the decoder gives back every string, entities written in it included. */
  lemma {:induction false} UnescapeUndoesEscape(s: string)
    ensures Unescaped(Escaped(s)) == s
  {
    if s != "" {
      var rest := Escaped(s[1..]);
      FrontOfEntity(s[0], rest);
      assert (Entity(s[0]) + rest)[|Entity(s[0])|..] == rest;
      UnescapeUndoesEscape(s[1..]);
    }
  }

  /** The texts the escaper can produce: nothing special but the ampersand that starts an entity. */
  predicate IsEscaped(t: string)
    decreases |t|
  {
    t == "" || (
      var (c, taken) := Front(t);
      Entity(c) <= t && taken == |Entity(c)| && IsEscaped(t[taken..]))
  }

  lemma {:induction false} EscapedIsEscaped(s: string)
    ensures IsEscaped(Escaped(s))
  {
    if s != "" {
      var rest := Escaped(s[1..]);
      FrontOfEntity(s[0], rest);
      assert (Entity(s[0]) + rest)[|Entity(s[0])|..] == rest;
      EscapedIsEscaped(s[1..]);
    }
  }

  /** On exactly those texts, escaping undoes the decoder in turn. */
  lemma {:induction false} EscapeUndoesUnescape(t: string)
    ensures Escaped(Unescaped(t)) == t <==> IsEscaped(t)
    decreases |t|
  {
    if t != "" {
      var (c, taken) := Front(t);
      var rest := Unescaped(t[taken..]);
      assert Unescaped(t) == [c] + rest && ([c] + rest)[1..] == rest;
      EscapeUndoesUnescape(t[taken..]);
      assert Escaped(Unescaped(t)) == Entity(c) + Escaped(rest);
      if Escaped(Unescaped(t)) == t {
        EscapedIsEscaped(Unescaped(t));
      }
      if IsEscaped(t) {
        assert t == Entity(c) + t[taken..];
      }
    }
  }

  lemma {:induction false} EscapedHolds(s: string)
    ensures forall c | c in Escaped(s) :: c !in {'<', '>', '"', '\''}
    ensures (forall c | c in s :: c !in SPECIAL) ==> Escaped(s) == s
  {
    if s != "" {
      EscapedHolds(s[1..]);
      assert forall c | c in Entity(s[0]) :: c !in {'<', '>', '"', '\''};
    }
  }

  /** Escaped text can neither open a tag nor end an attribute; text without special characters is left as it is, and
      each special character is replaced by the entity HTML has for it. */
  lemma EscapedIsSafe(s: string)
    ensures forall c | c in Escaped(s) :: c !in {'<', '>', '"', '\''}
    ensures (forall c | c in s :: c !in SPECIAL) ==> Escaped(s) == s
    ensures Escaped("<" + s) == "&lt;" + Escaped(s) && Escaped(">" + s) == "&gt;" + Escaped(s)
    ensures Escaped("&" + s) == "&amp;" + Escaped(s) && Escaped("\"" + s) == "&quot;" + Escaped(s)
    ensures Escaped("'" + s) == "&#39;" + Escaped(s)
  {
    EscapedHolds(s);
    assert ("<" + s)[1..] == s && (">" + s)[1..] == s && ("&" + s)[1..] == s && ("\"" + s)[1..] == s;
    assert ("'" + s)[1..] == s;
  }

  // ------------------------------------------- The formula renderer's escaper

  /** Every occurrence of one character replaced, as one global replacement does it. */
  function Replaced(s: string, c: char, with: string): string {
    if s == "" then "" else (if s[0] == c then with else [s[0]]) + Replaced(s[1..], c, with)
  }

  /** Three replacements in a row, the ampersand first. */
  function MathEscaped(s: string): string {
    Replaced(Replaced(Replaced(s, '&', "&amp;"), '<', "&lt;"), '>', "&gt;")
  }

  function MathEntity(c: char): string {
    if c in {'&', '<', '>'} then Entity(c) else [c]
  }

  lemma {:induction false} ReplacedConcat(s: string, t: string, c: char, with: string)
    ensures Replaced(s + t, c, with) == Replaced(s, c, with) + Replaced(t, c, with)
  {
    if s == "" {
      assert s + t == t;
    } else {
      assert (s + t)[1..] == s[1..] + t;
      ReplacedConcat(s[1..], t, c, with);
    }
  }

  lemma {:induction false} ReplacedAbsent(s: string, c: char, with: string)
    requires c !in s
    ensures Replaced(s, c, with) == s
  {
    if s != "" {
      ReplacedAbsent(s[1..], c, with);
    }
  }

  /** The later replacements leave the entities of the earlier ones alone. */
  lemma {:induction false} MathEscapedStep(s: string)
    requires s != ""
    ensures MathEscaped(s) == MathEntity(s[0]) + MathEscaped(s[1..])
  {
    var c, rest := s[0], s[1..];
    var first := if c == '&' then "&amp;" else [c];
    ReplacedConcat(first, Replaced(rest, '&', "&amp;"), '<', "&lt;");
    var second := if c == '<' then "&lt;" else first;
    if c == '<' {
      assert Replaced(first, '<', "&lt;") == "&lt;" + Replaced("", '<', "&lt;");
    } else {
      ReplacedAbsent(first, '<', "&lt;");
    }
    assert Replaced(first, '<', "&lt;") == second;
    ReplacedConcat(second, Replaced(Replaced(rest, '&', "&amp;"), '<', "&lt;"), '>', "&gt;");
    if c == '>' {
      assert Replaced(second, '>', "&gt;") == "&gt;" + Replaced("", '>', "&gt;");
    } else {
      ReplacedAbsent(second, '>', "&gt;");
    }
  }

  lemma FrontOfMathEntity(c: char, rest: string)
    ensures Front(MathEntity(c) + rest) == (c, |MathEntity(c)|)
  {
    if c in {'&', '<', '>'} {
      FrontOfEntity(c, rest);
    } else {
      assert ([c] + rest)[0] == c;
    }
  }

  /** Escaped text holds no tag delimiter. */
  lemma {:induction false} MathEscapedIsSafe(s: string)
    ensures '<' !in MathEscaped(s) && '>' !in MathEscaped(s)
  {
    if s != "" {
      MathEscapedStep(s);
      MathEscapedIsSafe(s[1..]);
    }
  }

  /** Escaped text decodes to exactly the text that went in. */
  lemma {:induction false} UnescapeUndoesMathEscape(s: string)
    ensures Unescaped(MathEscaped(s)) == s
  {
    if s != "" {
      var rest := MathEscaped(s[1..]);
      MathEscapedStep(s);
      FrontOfMathEntity(s[0], rest);
      assert (MathEntity(s[0]) + rest)[|MathEntity(s[0])|..] == rest;
      UnescapeUndoesMathEscape(s[1..]);
    }
  }
}
