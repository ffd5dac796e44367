/** Markup as start tags, end tags and text, and what it means for the tags of a string to nest and match. */
module MathMarkup {
  import opened Options

  datatype Piece = Start(tag: string, attributes: string) | End(tag: string) | Text(text: string)
  type Markup = seq<Piece>

  function Element(tag: string, attributes: string, body: Markup): Markup {
    [Start(tag, attributes)] + body + [End(tag)]
  }

  function Joined(items: seq<Markup>): Markup {
    if items == [] then [] else Joined(items[..|items| - 1]) + items[|items| - 1]
  }

  function Shown(p: Piece): string {
    match p
    case Start(tag, attributes) => "<" + (tag + attributes) + ">"
    case End(tag) => "<" + ("/" + tag) + ">"
    case Text(text) => text
  }

  function Flatten(m: Markup): string {
    if m == [] then "" else Shown(m[0]) + Flatten(m[1..])
  }

  // ----------------------------------------------------------------- As pieces

  /** The elements left open after reading some markup, or None at an end tag that matches no open element. */
  function OpenAfter(m: Markup, open: seq<string>): Option<seq<string>> {
    if m == [] then Some(open)
    else match m[0]
      case Start(tag, _) => OpenAfter(m[1..], [tag] + open)
      case End(tag) => if open != [] && open[0] == tag then OpenAfter(m[1..], open[1..]) else None
      case Text(_) => OpenAfter(m[1..], open)
  }

  /** Markup that closes whatever it opens, and nothing else. */
  ghost predicate Balanced(m: Markup) {
    forall open :: OpenAfter(m, open) == Some(open)
  }

  lemma {:induction false} OpenAfterBoth(a: Markup, b: Markup, open: seq<string>)
    ensures OpenAfter(a + b, open) ==
            if OpenAfter(a, open).Some? then OpenAfter(b, OpenAfter(a, open).value) else None
  {
    if a == [] {
      assert a + b == b;
    } else {
      assert (a + b)[1..] == a[1..] + b;
      match a[0] {
        case Start(tag, _) => OpenAfterBoth(a[1..], b, [tag] + open);
        case End(tag) =>
          if open != [] && open[0] == tag {
            OpenAfterBoth(a[1..], b, open[1..]);
          }
        case Text(_) => OpenAfterBoth(a[1..], b, open);
      }
    }
  }

  lemma BothBalanced(a: Markup, b: Markup)
    requires Balanced(a) && Balanced(b)
    ensures Balanced(a + b)
  {
    forall open ensures OpenAfter(a + b, open) == Some(open) {
      OpenAfterBoth(a, b, open);
    }
  }

  lemma TextBalanced(text: string)
    ensures Balanced([Text(text)]) && Balanced([])
  {
  }

  lemma ElementBalanced(tag: string, attributes: string, body: Markup)
    requires Balanced(body)
    ensures Balanced(Element(tag, attributes, body))
  {
    forall open ensures OpenAfter(Element(tag, attributes, body), open) == Some(open) {
      OpenAfterBoth([Start(tag, attributes)], body + [End(tag)], open);
      assert [Start(tag, attributes)][1..] == [];
      assert OpenAfter([], [tag] + open) == Some([tag] + open);
      OpenAfterBoth(body, [End(tag)], [tag] + open);
      assert [End(tag)][1..] == [] && ([tag] + open)[1..] == open;
      assert OpenAfter([], open) == Some(open);
      assert Element(tag, attributes, body) == [Start(tag, attributes)] + (body + [End(tag)]);
    }
  }

  // ------------------------------------------------------------------ As a string

  /** The position of the next character of a kind, or the end of the string. */
  function Find(s: string, c: char, i: nat): (e: nat)
    requires i <= |s|
    ensures i <= e <= |s|
    ensures forall k | i <= k < e :: s[k] != c
    ensures e < |s| ==> s[e] == c
    decreases |s| - i
  {
    if i < |s| && s[i] != c then Find(s, c, i + 1) else i
  }

  function NameOf(inner: string): string {
    inner[..Find(inner, ' ', 0)]
  }

  /** Reading only the characters: every tag is finished, every end tag names the innermost open element, and nothing
      is left open. */
  predicate Nested(s: string, open: seq<string>)
    decreases |s|
  {
    if s == "" then open == []
    else if s[0] != '<' then Nested(s[1..], open)
    else
      var e := Find(s, '>', 1);
      && e < |s|
      && var inner := s[1..e];
      if inner != "" && inner[0] == '/' then open != [] && open[0] == inner[1..] && Nested(s[e + 1..], open[1..])
      else Nested(s[e + 1..], [NameOf(inner)] + open)
  }

  predicate NoTag(s: string) {
    '<' !in s && '>' !in s
  }

  predicate IsTagName(tag: string) {
    tag != "" && NoTag(tag) && tag[0] != '/' && ' ' !in tag
  }

  /** Text and attributes that hold no tag delimiter, and attributes set off by a space. */
  predicate SafePiece(p: Piece) {
    match p
    case Start(tag, attributes) => IsTagName(tag) && NoTag(attributes) && (attributes != "" ==> attributes[0] == ' ')
    case End(tag) => IsTagName(tag)
    case Text(text) => NoTag(text)
  }

  predicate Safe(m: Markup) {
    forall i | 0 <= i < |m| :: SafePiece(m[i])
  }

  lemma {:induction false} TextIsSkipped(text: string, rest: string, open: seq<string>)
    requires NoTag(text)
    ensures Nested(text + rest, open) == Nested(rest, open)
  {
    if text == "" {
      assert text + rest == rest;
    } else {
      assert (text + rest)[1..] == text[1..] + rest;
      TextIsSkipped(text[1..], rest, open);
    }
  }

  lemma {:induction false} FindAfter(a: string, c: char, b: string, i: nat)
    requires i <= |a| && c !in a
    ensures Find(a + [c] + b, c, i) == |a|
    decreases |a| - i
  {
    if i < |a| {
      assert (a + [c] + b)[i] == a[i];
      FindAfter(a, c, b, i + 1);
    }
  }

  lemma TagIsRead(inner: string, rest: string, open: seq<string>)
    requires NoTag(inner) && inner != ""
    ensures Nested("<" + inner + ">" + rest, open) ==
            if inner[0] == '/' then open != [] && open[0] == inner[1..] && Nested(rest, open[1..])
            else Nested(rest, [NameOf(inner)] + open)
  {
    var s := "<" + inner + ">" + rest;
    FindAfter("<" + inner, '>', rest, 1);
    assert s[1..|inner| + 1] == inner && s[|inner| + 2..] == rest;
  }

  lemma {:induction false} FindNone(s: string, c: char, i: nat)
    requires i <= |s| && c !in s
    ensures Find(s, c, i) == |s|
    decreases |s| - i
  {
    if i < |s| {
      FindNone(s, c, i + 1);
    }
  }

  lemma NameOfTag(tag: string, attributes: string)
    requires IsTagName(tag) && (attributes != "" ==> attributes[0] == ' ')
    ensures NameOf(tag + attributes) == tag
  {
    if attributes == "" {
      assert tag + attributes == tag;
      FindNone(tag, ' ', 0);
    } else {
      assert tag + attributes == tag + [' '] + attributes[1..];
      FindAfter(tag, ' ', attributes[1..], 0);
    }
  }

  predicate NestedAfter(p: Piece, rest: string, open: seq<string>) {
    match p
    case Start(tag, _) => Nested(rest, [tag] + open)
    case End(tag) => open != [] && open[0] == tag && Nested(rest, open[1..])
    case Text(_) => Nested(rest, open)
  }

  lemma PieceIsRead(p: Piece, rest: string, open: seq<string>)
    requires SafePiece(p)
    ensures Nested(Shown(p) + rest, open) == NestedAfter(p, rest, open)
  {
    match p {
      case Start(tag, attributes) =>
        TagIsRead(tag + attributes, rest, open);
        NameOfTag(tag, attributes);
      case End(tag) =>
        assert ("/" + tag)[1..] == tag;
        TagIsRead("/" + tag, rest, open);
      case Text(text) => TextIsSkipped(text, rest, open);
    }
  }

  /** On safe markup the characters tell exactly what the pieces do. */
  lemma {:induction false} FlattenedIsRead(m: Markup, open: seq<string>)
    requires Safe(m)
    ensures Nested(Flatten(m), open) <==> OpenAfter(m, open) == Some([])
  {
    if m != [] {
      PieceIsRead(m[0], Flatten(m[1..]), open);
      match m[0] {
        case Start(tag, _) => FlattenedIsRead(m[1..], [tag] + open);
        case End(tag) =>
          if open != [] {
            FlattenedIsRead(m[1..], open[1..]);
          }
        case Text(_) => FlattenedIsRead(m[1..], open);
      }
    }
  }
}
