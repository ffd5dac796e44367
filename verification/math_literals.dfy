/** The tag names, attributes and texts the renderer writes literally hold no tag delimiter. */
module MathLiterals {
  import opened Options
  import opened MathMarkup
  import opened MathTree

  const MATH_NS := "http://www.w3.org/1998/Math/MathML"

  predicate IsAttributes(strict: bool, attributes: string) {
    (strict ==> NoTag(attributes)) && (attributes != "" ==> attributes[0] == ' ')
  }

  lemma TagNames()
    ensures IsTagName("mrow") && IsTagName("mi") && IsTagName("mo") && IsTagName("mn") && IsTagName("mtext")
    ensures IsTagName("mspace") && IsTagName("mfrac") && IsTagName("msqrt") && IsTagName("mroot") && IsTagName("mover")
    ensures IsTagName("munder") && IsTagName("msub") && IsTagName("msup") && IsTagName("mstyle") && IsTagName("mtable")
    ensures IsTagName("mtr") && IsTagName("mtd") && IsTagName("math")
    ensures IsTagName("munderover") && IsTagName("msubsup")
  {
    LongTagNames();
  }

  lemma LongTagNames()
    ensures IsTagName("munderover") && IsTagName("msubsup")
  {
  }

  lemma ShortKeys(strict: bool)
    ensures IsAttributes(strict, "") && IsAttributes(strict, " width=") && IsAttributes(strict, " form=")
    ensures IsAttributes(strict, " lspace=") && IsAttributes(strict, " rspace=") && IsAttributes(strict, " style=")
    ensures IsAttributes(strict, " class=") && IsAttributes(strict, " xmlns=")
  {
  }

  lemma Keys(strict: bool)
    ensures IsAttributes(strict, "") && IsAttributes(strict, " width=") && IsAttributes(strict, " form=")
    ensures IsAttributes(strict, " lspace=") && IsAttributes(strict, " rspace=") && IsAttributes(strict, " style=")
    ensures IsAttributes(strict, " class=") && IsAttributes(strict, " xmlns=") && IsAttributes(strict, " accent=")
    ensures IsAttributes(strict, " mathvariant=") && IsAttributes(strict, " stretchy=")
    ensures IsAttributes(strict, " display=")
  {
    ShortKeys(strict);
  }

  lemma LongKeys(strict: bool)
    ensures IsAttributes(strict, " data-limits=") && IsAttributes(strict, " largeop=")
    ensures IsAttributes(strict, " linebreak=") && IsAttributes(strict, " columnalign=")
  {
  }

  lemma LongestKeys(strict: bool)
    ensures IsAttributes(strict, " movablelimits=") && IsAttributes(strict, " linethickness=")
  {
  }

  lemma Texts()
    ensures NoTag("1") && NoTag("0") && NoTag("true") && NoTag("left") && NoTag("mod") && NoTag("&amp;") && NoTag("_")
    ensures NoTag("(") && NoTag(")") && NoTag("+") && NoTag("\U{23DE}") && NoTag("\U{23DF}")
    ensures NoTag("\U{2212}") && NoTag("\U{2032}")
  {
  }

  lemma Widths()
    ensures NoTag("0.167em") && NoTag("0.222em") && NoTag("0em") && NoTag("0.444em") && NoTag("0.333em")
  {
  }

  lemma Values()
    ensures NoTag("normal") && NoTag("bold") && NoTag("italic") && NoTag("monospace") && NoTag("sans-serif")
    ensures NoTag("prefix") && NoTag("newline")
  {
  }

  lemma JoinedAttributes(strict: bool, a: string, b: string)
    requires IsAttributes(strict, a) && IsAttributes(strict, b)
    ensures IsAttributes(strict, a + b)
  {
  }

  lemma QuotedAttributes(strict: bool, key: string, value: string)
    requires IsAttributes(strict, key) && key != "" && (strict ==> NoTag(value))
    ensures IsAttributes(strict, Quoted(key, value))
  {
  }

  lemma SpacedAttributes(strict: bool, width: string)
    requires strict ==> NoTag(width)
    ensures IsAttributes(strict, Spaced(width))
  {
    hide IsAttributes, NoTag, Quoted;
    Keys(strict);
    QuotedAttributes(strict, " lspace=", width);
    QuotedAttributes(strict, " rspace=", width);
    JoinedAttributes(strict, Quoted(" lspace=", width), Quoted(" rspace=", width));
  }

  lemma Attributes(strict: bool)
    ensures IsAttributes(strict, "") && IsAttributes(strict, NORMAL) && IsAttributes(strict, BOLD)
    ensures IsAttributes(strict, ITALIC) && IsAttributes(strict, MONOSPACE) && IsAttributes(strict, SANS_SERIF)
    ensures IsAttributes(strict, NEWLINE) && IsAttributes(strict, STRETCHY) && IsAttributes(strict, NO_LINE)
    ensures IsAttributes(strict, GAP_BEFORE) && IsAttributes(strict, GAP_INSIDE) && IsAttributes(strict, ACCENT)
    ensures IsAttributes(strict, ALIGNED_LEFT) && IsAttributes(strict, BIG_OPERATOR)
    ensures IsAttributes(strict, LIMIT_FUNCTION) && IsAttributes(strict, FUNCTION)
    ensures IsAttributes(strict, MOD) && IsAttributes(strict, PREFIX)
  {
    hide IsAttributes, NoTag, Spaced, Quoted;
    Keys(strict);
    LongKeys(strict);
    LongestKeys(strict);
    Texts();
    Widths();
    Values();
    forall value | strict ==> NoTag(value)
      ensures IsAttributes(strict, Quoted(" mathvariant=", value)) && IsAttributes(strict, Quoted(" width=", value))
      ensures IsAttributes(strict, Spaced(value))
    {
      QuotedAttributes(strict, " mathvariant=", value);
      QuotedAttributes(strict, " width=", value);
      SpacedAttributes(strict, value);
    }
    QuotedAttributes(strict, " linebreak=", "newline");
    QuotedAttributes(strict, " stretchy=", "true");
    QuotedAttributes(strict, " linethickness=", "0");
    QuotedAttributes(strict, " accent=", "true");
    QuotedAttributes(strict, " columnalign=", "left");
    QuotedAttributes(strict, " data-limits=", "1");
    QuotedAttributes(strict, " largeop=", "true");
    QuotedAttributes(strict, " movablelimits=", "true");
    QuotedAttributes(strict, " form=", "prefix");
    JoinedAttributes(strict, LIMITS, LARGE);
    JoinedAttributes(strict, LIMITS + LARGE, MOVABLE);
    JoinedAttributes(strict, LIMITS, MOVABLE);
    JoinedAttributes(strict, LIMITS + MOVABLE, NORMAL);
    JoinedAttributes(strict, Spaced("0.167em"), NORMAL);
    JoinedAttributes(strict, FORM_PREFIX, Spaced("0em"));
  }

  lemma GrownAreAttributes(strict: bool, rows: nat)
    ensures IsAttributes(strict, GrownAttributes(rows))
  {
    hide IsAttributes, Quoted;
    Keys(strict);
    Attributes(strict);
    assert NoTag("font-size:") && NoTag("em") && NoTag(Grown(rows));
    QuotedAttributes(strict, " style=", "font-size:" + Grown(rows) + "em");
    JoinedAttributes(strict, STRETCHY, Quoted(" style=", "font-size:" + Grown(rows) + "em"));
  }

  lemma InheritedAreSafe(name: string)
    ensures name in INHERITED ==> NoTag(name)
  {
    if name in {"constructor", "hasOwnProperty", "isPrototypeOf", "propertyIsEnumerable"} {
    } else if name in {"toLocaleString", "toString", "valueOf", "__proto__"} {
    }
  }

  /** What an inherited name prints as holds no tag delimiter either. */
  lemma NativeIsSafe(name: string)
    ensures NoTag(NativeText(name))
  {
    hide INHERITED;
    InheritedAreSafe(name);
    var head, tail := "function ", "() { [native code] }";
    assert NoTag(head) && NoTag(tail) && NoTag("Object") && NoTag("");
  }

  lemma NamespaceIsSafe()
    ensures NoTag(MATH_NS)
  {
  }

  lemma MathTexts()
    ensures NoTag("block") && NoTag("inline") && NoTag("math-display") && NoTag("math-inline")
  {
  }
}
