/** The formula tokenizer. */
module MathTokens {
  import opened Options

  datatype Token =
    | Esc(v: string)
    | Cmd(v: string, raw: Option<string>)
    | Open
    | Close
    | Sup
    | Sub
    | Amp
    | Num(v: string)
    | Ident(v: string)
    | Op(v: string)

  /** Commands whose braced argument is taken verbatim. */
  const TEXT_COMMANDS: set<string> := {
    "text", "textrm", "textbf", "textit", "texttt", "textsf", "mbox", "operatorname", "begin", "end"
  }

  predicate IsSpace(c: char) {
    || c in {' ', '\t', '\n', '\r', '\U{000B}', '\U{000C}', '\U{00A0}', '\U{1680}', '\U{2028}', '\U{2029}', '\U{202F}',
             '\U{205F}', '\U{3000}', '\U{FEFF}'}
    || '\U{2000}' <= c <= '\U{200A}'
  }

  predicate IsLetter(c: char) {
    'A' <= c <= 'Z' || 'a' <= c <= 'z'
  }

  predicate IsDigit(c: char) {
    '0' <= c <= '9'
  }

  // ------------------------------------------------------------------ Scanning

  /** Where a run of characters that satisfy a test ends. */
  function RunEnd(src: string, i: nat, test: char -> bool): (e: nat)
    requires i <= |src|
    ensures i <= e <= |src|
    ensures forall k | i <= k < e :: test(src[k])
    ensures e < |src| ==> !test(src[e])
    decreases |src| - i
  {
    if i < |src| && test(src[i]) then RunEnd(src, i + 1, test) else i
  }

  function WordEnd(src: string, i: nat): (e: nat)
    requires i <= |src|
    ensures i <= e <= |src| && forall k | i <= k < e :: IsLetter(src[k])
  {
    RunEnd(src, i, IsLetter)
  }

  /** Digits, then any number of groups of one dot or comma and digits. */
  function NumberEnd(src: string, i: nat): (e: nat)
    requires i < |src| && IsDigit(src[i])
    ensures i < e <= |src| && forall k | i <= k < e :: IsDigit(src[k]) || src[k] == '.' || src[k] == ','
    decreases |src| - i
  {
    var e := RunEnd(src, i, IsDigit);
    if e + 1 < |src| && (src[e] == '.' || src[e] == ',') && IsDigit(src[e + 1]) then NumberEnd(src, e + 1) else e
  }

  predicate NoBrace(c: char) {
    c != '{' && c != '}'
  }

  /** A braced argument without inner braces, after optional space: where its text starts and ends. */
  function Braced(src: string, i: nat): (r: Option<(nat, nat)>)
    requires i <= |src|
    ensures r.Some? ==> i < r.value.0 <= r.value.1 < |src|
    ensures r.Some? ==> src[r.value.0 - 1] == '{' && src[r.value.1] == '}'
    ensures r.Some? ==> forall k | i <= k < r.value.0 - 1 :: IsSpace(src[k])
  {
    var open := RunEnd(src, i, IsSpace);
    if open == |src| || src[open] != '{' then None
    else
      var close := RunEnd(src, open + 1, NoBrace);
      if close < |src| && src[close] == '}' then Some((open + 1, close)) else None
  }

  // ------------------------------------------------------------------ One token

  /** The token at a position, if there is one there, and where the next one may start. */
  function TokenAt(src: string, i: nat): (r: (Option<Token>, nat))
    requires i < |src|
    ensures r.1 > i
  {
    var c := src[i];
    if IsSpace(c) then (None, i + 1)
    else if c == '\\' then CommandAt(src, i)
    else if c == '{' then (Some(Open), i + 1)
    else if c == '}' then (Some(Close), i + 1)
    else if c == '^' then (Some(Sup), i + 1)
    else if c == '_' then (Some(Sub), i + 1)
    else if c == '&' then (Some(Amp), i + 1)
    else if IsDigit(c) then (Some(Num(src[i..NumberEnd(src, i)])), NumberEnd(src, i))
    else if IsLetter(c) then (Some(Ident([c])), i + 1)
    else (Some(Op([c])), i + 1)
  }

  function CommandAt(src: string, i: nat): (r: (Option<Token>, nat))
    requires i < |src|
    ensures r.1 > i
  {
    var e := WordEnd(src, i + 1);
    if e == i + 1 then (Some(Esc(if i + 1 < |src| then [src[i + 1]] else "")), i + 2)
    else
      var name := src[i + 1..e];
      var braced := Braced(src, e);
      if name in TEXT_COMMANDS && braced.Some? then
        (Some(Cmd(name, Some(src[braced.value.0..braced.value.1]))), braced.value.1 + 1)
      else (Some(Cmd(name, None)), e)
  }

  function TokensFrom(src: string, i: nat): seq<Token>
    decreases |src| - i
  {
    if i >= |src| then []
    else
      var (token, next) := TokenAt(src, i);
      (if token.Some? then [token.value] else []) + TokensFrom(src, next)
  }

  method Tokenize(src: string) returns (tokens: seq<Token>)
    ensures tokens == TokensFrom(src, 0)
  {
    hide CommandAt, NumberEnd, IsSpace, IsDigit, IsLetter;
    tokens := [];
    var i := 0;
    while i < |src|
      invariant tokens + TokensFrom(src, i) == TokensFrom(src, 0)
      decreases |src| - i
    {
      var c := src[i];
      var found, next := None, i + 1;
      if IsSpace(c) {
      } else if c == '\\' {
        var (command, after) := CommandAt(src, i);
        found, next := command, after;
      } else if c == '{' || c == '}' || c == '^' || c == '_' || c == '&' {
        found := Some(if c == '{' then Open else if c == '}' then Close else if c == '^' then Sup
                      else if c == '_' then Sub else Amp);
      } else if IsDigit(c) {
        next := NumberEnd(src, i);
        found := Some(Num(src[i..next]));
      } else if IsLetter(c) {
        found := Some(Ident([c]));
      } else {
        found := Some(Op([c]));
      }
      assert (found, next) == TokenAt(src, i);
      OneMoreToken(src, i, tokens);
      if found.Some? {
        tokens := tokens + [found.value];
      }
      i := next;
    }
  }

  lemma OneMoreToken(src: string, i: nat, before: seq<Token>)
    requires i < |src|
    ensures
      var (token, next) := TokenAt(src, i);
      before + TokensFrom(src, i) == (if token.Some? then before + [token.value] else before) + TokensFrom(src, next)
  {
    hide TokenAt;
  }

  // ------------------------------------------------------------ Nothing lost or invented

  function Spelling(t: Token): string {
    match t
    case Esc(v) => "\\" + v
    case Cmd(v, raw) => "\\" + v + (if raw.Some? then "{" + raw.value + "}" else "")
    case Open => "{"
    case Close => "}"
    case Sup => "^"
    case Sub => "_"
    case Amp => "&"
    case Num(v) => v
    case Ident(v) => v
    case Op(v) => v
  }

  function SpellAll(tokens: seq<Token>): string {
    if tokens == [] then "" else Spelling(tokens[0]) + SpellAll(tokens[1..])
  }

  /** The text without its white space. */
  function Squeezed(s: string): string {
    if s == "" then "" else (if IsSpace(s[0]) then "" else [s[0]]) + Squeezed(s[1..])
  }

  lemma {:induction false} SqueezedConcat(a: string, b: string)
    ensures Squeezed(a + b) == Squeezed(a) + Squeezed(b)
  {
    if a == "" {
      assert a + b == b;
    } else {
      assert (a + b)[1..] == a[1..] + b;
      SqueezedConcat(a[1..], b);
    }
  }

  lemma {:induction false} AllSpace(s: string)
    requires forall k | 0 <= k < |s| :: IsSpace(s[k])
    ensures Squeezed(s) == ""
  {
    if s != "" {
      AllSpace(s[1..]);
    }
  }

  function Upto(src: string, e: nat): nat {
    if e <= |src| then e else |src|
  }

  lemma SqueezedAcross(a: string, gap: string, b: string)
    requires forall k | 0 <= k < |gap| :: IsSpace(gap[k])
    ensures Squeezed(a + (gap + b)) == Squeezed(a + b)
  {
    hide Squeezed, IsSpace;
    SqueezedConcat(a, gap + b);
    SqueezedConcat(gap, b);
    SqueezedConcat(a, b);
    AllSpace(gap);
  }

  lemma CommandSpells(src: string, i: nat)
    requires i < |src| && src[i] == '\\'
    ensures
      var (token, next) := CommandAt(src, i);
      token.Some? && Squeezed(src[i..Upto(src, next)]) == Squeezed(Spelling(token.value))
  {
    hide TEXT_COMMANDS, IsSpace, Squeezed, Braced, WordEnd;
    var e := WordEnd(src, i + 1);
    if e == i + 1 {
      assert src[i..Upto(src, i + 2)] == "\\" + (if i + 1 < |src| then [src[i + 1]] else "");
    } else {
      var braced := Braced(src, e);
      if src[i + 1..e] in TEXT_COMMANDS && braced.Some? {
        BracedSpells(src, i, e, braced.value.0, braced.value.1);
      } else {
        assert src[i..e] == "\\" + src[i + 1..e] + "";
      }
    }
  }

  lemma BracedSpells(src: string, i: nat, e: nat, start: nat, close: nat)
    requires i < e < start <= close < |src|
    requires src[i] == '\\' && src[start - 1] == '{' && src[close] == '}'
    requires forall k | e <= k < start - 1 :: IsSpace(src[k])
    ensures Squeezed(src[i..close + 1]) == Squeezed("\\" + src[i + 1..e] + ("{" + src[start..close] + "}"))
  {
    hide IsSpace, Squeezed;
    var name, gap, braces := "\\" + src[i + 1..e], src[e..start - 1], "{" + src[start..close] + "}";
    assert src[i..e] == name && src[start - 1..close + 1] == braces;
    assert src[i..close + 1] == src[i..e] + (gap + src[start - 1..close + 1]);
    SqueezedAcross(name, gap, braces);
  }

  lemma TokenSpells(src: string, i: nat)
    requires i < |src|
    ensures
      var (token, next) := TokenAt(src, i);
      Squeezed(src[i..Upto(src, next)]) == if token.Some? then Squeezed(Spelling(token.value)) else ""
  {
    var (token, next) := TokenAt(src, i);
    if src[i] == '\\' {
      CommandSpells(src, i);
    } else if IsSpace(src[i]) {
      AllSpace(src[i..i + 1]);
    } else {
      assert src[i..next] == Spelling(token.value);
    }
  }

  /** The tokens, spelled out one after another, are the source but for white space: nothing is dropped, nothing made
      up, nothing reordered, in any source however malformed. */
  lemma {:induction false} TokensSpellTheSource(src: string, i: nat)
    requires i <= |src|
    ensures Squeezed(SpellAll(TokensFrom(src, i))) == Squeezed(src[i..])
    decreases |src| - i
  {
    if i >= |src| {
      assert src[i..] == "";
    } else {
      hide TokenAt, IsSpace, Spelling, Squeezed;
      var (token, next) := TokenAt(src, i);
      TokenSpells(src, i);
      var e := Upto(src, next);
      assert src[i..] == src[i..e] + src[e..];
      SqueezedConcat(src[i..e], src[e..]);
      TokensSpellTheSource(src, e);
      assert TokensFrom(src, next) == TokensFrom(src, e);
      SpellOneMore(token, TokensFrom(src, next));
    }
  }

  lemma SpellOneMore(token: Option<Token>, rest: seq<Token>)
    ensures Squeezed(SpellAll((if token.Some? then [token.value] else []) + rest)) ==
            (if token.Some? then Squeezed(Spelling(token.value)) else "") + Squeezed(SpellAll(rest))
  {
    hide Spelling, Squeezed;
    if token.Some? {
      assert ([token.value] + rest)[1..] == rest;
      SqueezedConcat(Spelling(token.value), SpellAll(rest));
    } else {
      assert [] + rest == rest;
    }
  }

  /** What the tokenizer hands over unescaped: numbers are digits and separators, names are letters. */
  predicate Plain(t: Token) {
    && (t.Num? ==> forall c | c in t.v :: IsDigit(c) || c == '.' || c == ',')
    && (t.Ident? || t.Cmd? ==> forall c | c in t.v :: IsLetter(c))
  }

  lemma {:induction false} TokensArePlain(src: string, i: nat)
    requires i <= |src|
    ensures forall k | 0 <= k < |TokensFrom(src, i)| :: Plain(TokensFrom(src, i)[k])
    decreases |src| - i
  {
    if i < |src| {
      var (token, next) := TokenAt(src, i);
      TokensArePlain(src, Upto(src, next));
      assert TokensFrom(src, next) == TokensFrom(src, Upto(src, next));
    }
  }
}
