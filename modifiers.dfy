/** The attribute dictionaries that each modifier sets. The `String` and the
    `NSAttributedString` modifier of the same name set the same dictionary. */
module ModifierAttributes {
  import opened Foundation

  function ForegroundColorAttributes(color: Color): (attrs: Attributes)
  {
    map[ForegroundColorAttr := ColorValue(color)]
  }

  function BackgroundAttributes(color: Color): (attrs: Attributes)
  {
    map[BackgroundColorAttr := ColorValue(color)]
  }

  /** Both the underline colour and the style's raw value. */
  function UnderlineAttributes(color: Color, style: UnderlineStyle): (attrs: Attributes)
  {
    map[UnderlineColorAttr := ColorValue(color), UnderlineStyleAttr := NumberValue(style.rawValue)]
  }

  function FontAttributes(font: Font): (attrs: Attributes)
  {
    map[FontAttr := FontValue(font)]
  }

  function ShadowAttributes(shadow: Shadow): (attrs: Attributes)
  {
    map[ShadowAttr := ShadowValue(shadow)]
  }
}

/** The `String` extension: each modifier builds a new attributed string whose
    text is the receiver and whose every character carries exactly the keys the
    modifier names. */
module StringModifiers {
  import opened Foundation
  import opened ModifierAttributes

  function ForegroundColor(s: string, color: Color): (r: AttributedString)
    ensures Text(r) == s
    ensures forall i :: 0 <= i < |r| ==> r[i].attrs == map[ForegroundColorAttr := ColorValue(color)]
  {
    Make(s, ForegroundColorAttributes(color))
  }

  function Background(s: string, color: Color): (r: AttributedString)
    ensures Text(r) == s
    ensures forall i :: 0 <= i < |r| ==> r[i].attrs == map[BackgroundColorAttr := ColorValue(color)]
  {
    Make(s, BackgroundAttributes(color))
  }

  /** The style defaults to `.single`, whose raw value is 1. */
  function Underline(s: string, color: Color, style: UnderlineStyle := Single): (r: AttributedString)
    ensures Text(r) == s
    ensures forall i :: 0 <= i < |r| ==>
              r[i].attrs.Keys == {UnderlineColorAttr, UnderlineStyleAttr} &&
              r[i].attrs[UnderlineColorAttr] == ColorValue(color) &&
              r[i].attrs[UnderlineStyleAttr] == NumberValue(style.rawValue)
  {
    Make(s, UnderlineAttributes(color, style))
  }

  function Font(s: string, font: Foundation.Font): (r: AttributedString)
    ensures Text(r) == s
    ensures forall i :: 0 <= i < |r| ==> r[i].attrs == map[FontAttr := FontValue(font)]
  {
    Make(s, FontAttributes(font))
  }

  function Shadow(s: string, shadow: Foundation.Shadow): (r: AttributedString)
    ensures Text(r) == s
    ensures forall i :: 0 <= i < |r| ==> r[i].attrs == map[ShadowAttr := ShadowValue(shadow)]
  {
    Make(s, ShadowAttributes(shadow))
  }

  /** `attributed`: the text with no attributes at all. */
  function Attributed(s: string): (r: AttributedString)
    ensures Text(r) == s
    ensures forall i :: 0 <= i < |r| ==> r[i].attrs == map[]
  {
    Make(s, map[])
  }
}

/** The `NSAttributedString` extension: `apply` and the modifiers built on it. */
module AttributedStringModifiers {
  import opened Foundation
  import opened ModifierAttributes
  import StringModifiers

  /** What `apply` produces: the text unchanged, and at every position the
      attributes found at index 0 merged with the new ones. Attributes that
      differed at later positions are not kept. */
  function Applied(s: AttributedString, attrs: Attributes): (r: AttributedString)
    requires |s| > 0
    ensures |r| == |s| && Text(r) == Text(s)
    ensures forall i :: 0 <= i < |r| ==> r[i].attrs == Merge(s[0].attrs, attrs)
  {
    Make(Text(s), Merge(s[0].attrs, attrs))
  }

  /** `apply(_:)`: a fresh mutable copy of the text with the index-0 attributes,
      then `addAttributes` over the whole range. Index 0 must exist. */
  method Apply(s: AttributedString, attrs: Attributes) returns (r: AttributedString)
    requires |s| > 0
    ensures r == Applied(s, attrs)
  {
    var mutable := new MutableAttributedString.WithString(Text(s), AttributesAt(s, 0));
    mutable.AddAttributes(attrs, 0, |Text(s)|);
    r := mutable.chars;
  }

  method ForegroundColor(s: AttributedString, color: Color) returns (r: AttributedString)
    requires |s| > 0
    ensures r == Applied(s, ForegroundColorAttributes(color))
  {
    r := Apply(s, ForegroundColorAttributes(color));
  }

  method Background(s: AttributedString, color: Color) returns (r: AttributedString)
    requires |s| > 0
    ensures r == Applied(s, BackgroundAttributes(color))
  {
    r := Apply(s, BackgroundAttributes(color));
  }

  method Underline(s: AttributedString, color: Color, style: UnderlineStyle := Single) returns (r: AttributedString)
    requires |s| > 0
    ensures r == Applied(s, UnderlineAttributes(color, style))
  {
    r := Apply(s, UnderlineAttributes(color, style));
  }

  method Font(s: AttributedString, font: Foundation.Font) returns (r: AttributedString)
    requires |s| > 0
    ensures r == Applied(s, FontAttributes(font))
  {
    r := Apply(s, FontAttributes(font));
  }

  method Shadow(s: AttributedString, shadow: Foundation.Shadow) returns (r: AttributedString)
    requires |s| > 0
    ensures r == Applied(s, ShadowAttributes(shadow))
  {
    r := Apply(s, ShadowAttributes(shadow));
  }

  /** Two modifiers in a row accumulate their keys, the later one winning on a
      key both set. */
  lemma ApplyTwice(s: AttributedString, first: Attributes, second: Attributes)
    requires |s| > 0
    ensures Applied(Applied(s, first), second) == Applied(s, Merge(first, second))
  {
    var once := Applied(s, first);
    assert Merge(once[0].attrs, second) == Merge(s[0].attrs, Merge(first, second));
  }

  /** A modifier applied to a string that carries the same attributes everywhere
      (what a `String` modifier returns) merges into those attributes. */
  lemma ApplyToUniform(text: string, base: Attributes, attrs: Attributes)
    requires |text| > 0
    ensures Applied(Make(text, base), attrs) == Make(text, Merge(base, attrs))
  {
  }

  /** `"World".foregroundColor(.blue).underline(.blue)`: every character carries
      the three keys, and no other. */
  lemma WorldForegroundUnderline()
    ensures var r := Applied(StringModifiers.ForegroundColor("World", Blue), UnderlineAttributes(Blue, Single));
      Text(r) == "World" &&
      forall i :: 0 <= i < |r| ==>
        r[i].attrs == map[ForegroundColorAttr := ColorValue(Blue),
                          UnderlineColorAttr := ColorValue(Blue),
                          UnderlineStyleAttr := NumberValue(1)]
  {
  }

  /** A later modifier overrides an earlier one on the same key. */
  lemma LaterModifierWins(s: AttributedString, earlier: Color, later: Color)
    requires |s| > 0
    ensures var r := Applied(Applied(s, ForegroundColorAttributes(earlier)), ForegroundColorAttributes(later));
      forall i :: 0 <= i < |r| ==> r[i].attrs[ForegroundColorAttr] == ColorValue(later)
  {
  }

  /** `apply` flattens: on a string whose second character is styled differently
      from its first, the second character's own attributes are lost. */
  lemma ApplyLosesLaterAttributes()
    ensures var s := StringModifiers.ForegroundColor("a", Red) + StringModifiers.ForegroundColor("b", Blue);
      s[1].attrs[ForegroundColorAttr] == ColorValue(Blue) &&
      Applied(s, map[])[1].attrs[ForegroundColorAttr] == ColorValue(Red)
  {
  }
}
