/** A fraction of two numbers from its source to its markup, and what any rendering shows. */
module MathFractions {
  import opened Options
  import opened Escape
  import opened MathTokens
  import opened MathMarkup
  import opened MathTree
  import opened MathUnfold
  import opened MathUnique
  import opened MathLiterals
  import opened MathRender
  import opened MathFallback
  import opened MathContent
  import opened MathSpans
  import opened MathTables

  // ---------------------------------------------------------------------------- Its tokens

  /** A number is taken whole: it ends where neither a digit follows nor a separator with a digit after it. */
  lemma {:induction false} NumbersAreWhole(src: string, i: nat)
    requires i < |src| && IsDigit(src[i])
    ensures
      var e := NumberEnd(src, i);
      && IsDigit(src[e - 1])
      && (e < |src| ==> !IsDigit(src[e]))
      && (e + 1 < |src| && (src[e] == '.' || src[e] == ',') ==> !IsDigit(src[e + 1]))
    decreases |src| - i
  {
    var e := RunEnd(src, i, IsDigit);
    if e + 1 < |src| && (src[e] == '.' || src[e] == ',') && IsDigit(src[e + 1]) {
      NumbersAreWhole(src, e + 1);
    }
  }

  /** A name is taken whole: it ends where no letter follows. */
  lemma WordsAreWhole(src: string, i: nat)
    requires i <= |src|
    ensures WordEnd(src, i) < |src| ==> !IsLetter(src[WordEnd(src, i)])
  {
  }

  predicate AllDigits(v: string) {
    v != "" && forall k | 0 <= k < |v| :: IsDigit(v[k])
  }

  lemma NumberAt(src: string, i: nat, v: string)
    requires AllDigits(v) && i + |v| < |src| && src[i..i + |v|] == v && src[i + |v|] == '}'
    ensures TokenAt(src, i) == (Some(Num(v)), i + |v|)
  {
    hide RunEnd;
    assert forall k | i <= k < i + |v| :: src[k] == v[k - i];
    RunTo(src, i, i + |v|, IsDigit);
    assert src[i] == v[0];
  }

  lemma BraceAt(src: string, i: nat)
    requires i < |src| && (src[i] == '{' || src[i] == '}')
    ensures TokenAt(src, i) == (Some(if src[i] == '{' then Open else Close), i + 1)
  {
  }

  lemma FracAt(src: string)
    requires |src| > 5 && src[..5] == "\\frac" && src[5] == '{'
    ensures TokenAt(src, 0) == (Some(Cmd("frac", None)), 5)
  {
    hide RunEnd, Braced;
    assert src[0] == src[..5][0] && src[1..5] == src[..5][1..] == "frac";
    assert forall k | 1 <= k < 5 :: src[k] == "frac"[k - 1];
    RunTo(src, 1, 5, IsLetter);
    BackslashIsNoSpace();
    assert "frac" !in TEXT_COMMANDS;
  }

  lemma Step(src: string, i: nat, token: Token, next: nat)
    requires i < |src| && TokenAt(src, i) == (Some(token), next)
    ensures TokensFrom(src, i) == [token] + TokensFrom(src, next)
  {
    hide TokenAt;
  }

  function Source(x: string, y: string): string {
    "\\frac{" + x + "}{" + y + "}"
  }

  lemma BracedNumber(src: string, i: nat, v: string)
    requires AllDigits(v) && i + |v| + 1 < |src|
    requires src[i] == '{' && src[i + 1..i + 1 + |v|] == v && src[i + 1 + |v|] == '}'
    ensures TokensFrom(src, i) == [Open, Num(v), Close] + TokensFrom(src, i + |v| + 2)
  {
    hide TokenAt, TokensFrom, AllDigits;
    BraceAt(src, i);
    NumberAt(src, i + 1, v);
    BraceAt(src, i + 1 + |v|);
    Step(src, i, Open, i + 1);
    Step(src, i + 1, Num(v), i + 1 + |v|);
    Step(src, i + 1 + |v|, Close, i + |v| + 2);
  }

  lemma Tokens(x: string, y: string)
    requires AllDigits(x) && AllDigits(y)
    ensures TokensFrom(Source(x, y), 0) == [Cmd("frac", None), Open, Num(x), Close, Open, Num(y), Close]
  {
    hide TokenAt, TokensFrom, AllDigits;
    var src := Source(x, y);
    assert src[..5] == "\\frac" && src[5] == '{' && src[6..6 + |x|] == x && src[6 + |x|] == '}';
    var p := 7 + |x|;
    assert src[p] == '{' && src[p + 1..p + 1 + |y|] == y && src[p + 1 + |y|] == '}' && |src| == p + |y| + 2;
    FracAt(src);
    Step(src, 0, Cmd("frac", None), 5);
    BracedNumber(src, 5, x);
    BracedNumber(src, p, y);
    Finished(src);
  }

  lemma Finished(src: string)
    ensures TokensFrom(src, |src|) == []
  {
  }

  // --------------------------------------------------------------------------- Its reading

  const GROUPED := Group(More(NoTrees, Leaf), true)

  lemma NumberRow(tables: Tables, tokens: seq<Token>, display: bool, p: nat)
    requires p + 1 < |tokens| && tokens[p].Num? && tokens[p + 1].Close?
    ensures
      var items := More(NoTrees, Leaf);
      && IsRow(tables, tokens, items, p, AtClose) && SizeAll(items) == 1 && !ThrowAny(tables, tokens, items, p)
      && Joined(PrintAll(tables, tokens, display, items, p)) == Single("mn", "", tokens[p].v)
  {
    hide Print, PrintAll, Throws, ThrowAny, Size, SizeAll, IsAtom, IsRow, IsUnit, FormOf, Joined, Single;
    LeafIs(tables, tokens, display, p);
    PlainUnit(tables, tokens, Leaf, p);
    NothingYet(tables, tokens, display, p, AtClose);
    OneMoreUnit(tables, tokens, NoTrees, Leaf, p, AtClose);
    OneMore(tables, tokens, display, NoTrees, Leaf, p);
    SymbolSpans(tables, tokens, display, p);
    var m := Print(tables, tokens, display, Leaf, p);
    assert PrintAll(tables, tokens, display, More(NoTrees, Leaf), p) == [m];
    OneJoined(m);
  }

  lemma NumberGroup(tables: Tables, tokens: seq<Token>, display: bool, p: nat)
    requires p + 2 < |tokens| && tokens[p].Open? && tokens[p + 1].Num? && tokens[p + 2].Close?
    ensures IsArgument(tables, tokens, GROUPED, p) && Size(GROUPED) == 3
    ensures !Throws(tables, tokens, GROUPED, p)
    ensures Print(tables, tokens, display, GROUPED, p) == Numbered(tokens[p + 1].v)
  {
    hide Print, PrintAll, Throws, ThrowAny, Size, SizeAll, IsAtom, IsRow, IsUnit, IsArgument, FormOf, Joined;
    var items := More(NoTrees, Leaf);
    NumberRow(tables, tokens, display, p + 1);
    GroupIs(tables, tokens, items, true, p);
    GroupPrints(tables, tokens, display, items, true, p);
    GroupThrows(tables, tokens, items, true, p);
    MissingArgument(tables, tokens, GROUPED, p);
  }

  lemma OneJoined(m: Markup)
    ensures Joined([m]) == m
  {
    assert [m][..0] == [] && [] + m == m;
  }

  const READ := More(NoTrees, Command(More(More(NoTrees, GROUPED), GROUPED)))

  lemma Reading(tables: Tables, x: string, y: string, display: bool)
    requires IsPlain(tables, "frac")
    ensures
      var tokens := [Cmd("frac", None), Open, Num(x), Close, Open, Num(y), Close];
      && IsReading(tables, tokens, READ) && !ThrowAny(tables, tokens, READ, 0)
      && IsAtom(tables, tokens, READ.last, 0)
      && Joined(PrintAll(tables, tokens, display, READ, 0)) == Print(tables, tokens, display, READ.last, 0)
  {
    hide Print, PrintAll, Throws, ThrowAny, Size, SizeAll, IsAtom, IsRow, IsUnit, IsArgument, AreArguments, FormOf,
         IsPlain, Joined;
    var tokens := [Cmd("frac", None), Open, Num(x), Close, Open, Num(y), Close];
    PlainForms(tables, "frac");
    NumberGroup(tables, tokens, display, 1);
    NumberGroup(tables, tokens, display, 4);
    var one := More(NoTrees, GROUPED);
    var two := More(one, GROUPED);
    NothingYet(tables, tokens, display, 1, Never);
    OneMoreArgument(tables, tokens, NoTrees, GROUPED, 1);
    OneMore(tables, tokens, display, NoTrees, GROUPED, 1);
    OneMoreArgument(tables, tokens, one, GROUPED, 1);
    OneMore(tables, tokens, display, one, GROUPED, 1);
    CommandIs(tables, tokens, two, 0);
    CommandPrints(tables, tokens, display, two, 0);
    CommandThrows(tables, tokens, two, 0);
    var t := Command(two);
    PlainUnit(tables, tokens, t, 0);
    NothingYet(tables, tokens, display, 0, Never);
    OneMoreUnit(tables, tokens, NoTrees, t, 0, Never);
    OneMore(tables, tokens, display, NoTrees, t, 0);
    OneJoined(Print(tables, tokens, display, t, 0));
    assert PrintAll(tables, tokens, display, READ, 0) == [Print(tables, tokens, display, t, 0)];
  }

  function Numbered(v: string): Markup {
    [Start("mrow", ""), Start("mn", ""), Text(v), End("mn"), End("mrow")]
  }

  /** A fraction of two numbers is rendered with the first over the second, and in no other way. */
  lemma FractionOfNumbers(tables: Tables, x: string, y: string, display: bool, html: string)
    requires IsPlain(tables, "frac") && AllDigits(x) && AllDigits(y)
    ensures Rendered(tables, "\\frac{" + x + "}{" + y + "}", display, html) <==>
            html == Flatten(MathElement(display, [Start("mfrac", "")] + Numbered(x) + Numbered(y) + [End("mfrac")]))
  {
    hide Print, PrintAll, ThrowAny, Size, SizeAll, IsAtom, IsRow, IsArgument, FormOf, IsPlain, IsReading, Joined,
         MathElement, Rendered, Flatten, AllDigits, TokensFrom;
    var tokens := [Cmd("frac", None), Open, Num(x), Close, Open, Num(y), Close];
    Tokens(x, y);
    Reading(tables, x, y, display);
    var over, under := FractionSpans(tables, tokens, display, READ.last, 0);
    FractionIsRead(tables, tokens, display, over, under);
    OnlyThis(tables, Source(x, y), display, READ, html);
  }

  lemma FractionIsRead(tables: Tables, tokens: seq<Token>, display: bool, over: Tree, under: Tree)
    requires |tokens| == 7 && tokens[1].Open? && tokens[2].Num? && tokens[3].Close?
    requires tokens[4].Open? && tokens[5].Num? && tokens[6].Close?
    requires IsArgument(tables, tokens, over, 1) && IsArgument(tables, tokens, under, 1 + Size(over))
    ensures Size(over) == 3
    ensures Print(tables, tokens, display, over, 1) == Numbered(tokens[2].v)
    ensures Print(tables, tokens, display, under, 4) == Numbered(tokens[5].v)
  {
    hide Print, Size, IsArgument;
    NumberGroup(tables, tokens, display, 1);
    NumberGroup(tables, tokens, display, 4);
    ArgumentIsUnique(tables, tokens, over, GROUPED, 1);
    ArgumentIsUnique(tables, tokens, under, GROUPED, 4);
  }

  /** Display math is a block, other math is in line. */
  lemma FormulaElement(body: Markup)
    ensures
      var named := Quoted(" xmlns=", "http://www.w3.org/1998/Math/MathML");
      && MathElement(true, body) ==
           [Start("math", named + " display=\"block\"" + " class=\"math-display\"")] + body + [End("math")]
      && MathElement(false, body) ==
           [Start("math", named + " display=\"inline\"" + " class=\"math-inline\"")] + body + [End("math")]
  {
    hide Quoted;
    ShownAttributes();
  }

  lemma ShownAttributes()
    ensures Quoted(" display=", "block") == " display=\"block\""
    ensures Quoted(" display=", "inline") == " display=\"inline\""
    ensures Quoted(" class=", "math-display") == " class=\"math-display\""
    ensures Quoted(" class=", "math-inline") == " class=\"math-inline\""
  {
  }

  // ------------------------------------------------------------------------ Any rendering

  /** Whatever the source, what its rendering shows is what its tokens show, or the source itself. */
  lemma RenderingShowsTokens(tables: Tables, source: string, display: bool, html: string)
    returns (ts: Trees, body: Markup)
    requires Rendered(tables, source, display, html)
    ensures IsReading(tables, TokensFrom(source, 0), ts) && html == Flatten(MathElement(display, body))
    ensures Content(body) ==
            if ThrowAny(tables, TokensFrom(source, 0), ts, 0) then [Text(MathEscaped(source))]
            else SpokenAll(tables, TokensFrom(source, 0), ts, 0)
  {
    hide IsReading, MathElement, TokensFrom, PrintAll, SpokenAll, Joined, Content, Flatten, ThrowAny;
    var tokens := TokensFrom(source, 0);
    ts :| IsReading(tables, tokens, ts) && html == Flatten(MathElement(display, BodyOf(tables, source, display, ts)));
    body := BodyOf(tables, source, display, ts);
    FormulaIsSpoken(tables, tokens, display, ts);
    ContentLeaf("mtext", "", MathEscaped(source));
    ContentElement("mtext", "", []);
    ContentNothing();
  }
}
