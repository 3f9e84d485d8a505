/** The part of Foundation's attributed strings that the builder pages use.
    An attributed string is a sequence of characters, each carrying its own map
    from attribute key to attribute value. `NSAttributedString` is immutable and
    is modelled as a value; `NSMutableAttributedString` is a class whose buffer
    its methods update in place. Colours, fonts and shadows are opaque values. */
module Foundation {

  datatype Option<T> = None | Some(value: T)

  /** `NSAttributedString.Key`: the keys the pages name, and any other. */
  datatype Key =
    | ForegroundColorAttr
    | BackgroundColorAttr
    | UnderlineColorAttr
    | UnderlineStyleAttr
    | FontAttr
    | ShadowAttr
    | OtherAttr(name: string)

  /** `UIColor`, opaque apart from the named colours the pages use. */
  datatype Color = Red | Green | Blue | Orange | OtherColor(id: nat)

  /** `UIFont`, opaque; `UIFont.systemFont(ofSize:)` is identified by its size. */
  datatype Font = SystemFont(pointSize: real) | OtherFont(id: nat)

  /** `NSShadow`, opaque. */
  datatype Shadow = Shadow(id: nat)

  /** `NSUnderlineStyle` is an option set identified by its raw value. */
  datatype UnderlineStyle = UnderlineStyle(rawValue: int)
  const Single := UnderlineStyle(0x01)
  const Thick := UnderlineStyle(0x02)
  const Double := UnderlineStyle(0x09)

  /** The `Any` stored under a key. */
  datatype AttributeValue =
    | ColorValue(color: Color)
    | FontValue(font: Font)
    | ShadowValue(shadow: Shadow)
    | NumberValue(number: int)

  type Attributes = map<Key, AttributeValue>

  datatype AttributedChar = AttributedChar(ch: char, attrs: Attributes)

  /** An immutable attributed string. Its length stands for `NSString.length`. */
  type AttributedString = seq<AttributedChar>

  /** `string`: the plain text of an attributed string. */
  function Text(s: AttributedString): (t: string)
    ensures |t| == |s|
    ensures forall i :: 0 <= i < |s| ==> t[i] == s[i].ch
  {
    seq(|s|, i requires 0 <= i < |s| => s[i].ch)
  }

  /** `NSAttributedString(string:attributes:)`: every character carries `attrs`. */
  function Make(text: string, attrs: Attributes): (r: AttributedString)
    ensures Text(r) == text
    ensures forall i :: 0 <= i < |r| ==> r[i].attrs == attrs
  {
    seq(|text|, i requires 0 <= i < |text| => AttributedChar(text[i], attrs))
  }

  /** `attributes(at:effectiveRange:)`; Foundation raises on an index out of range. */
  function AttributesAt(s: AttributedString, index: nat): (attrs: Attributes)
    requires index < |s|
    ensures attrs == s[index].attrs
  {
    s[index].attrs
  }

  /** How `addAttributes` combines a character's attributes with new ones:
      every key of either map is present, and a new value replaces an old one. */
  function Merge(base: Attributes, added: Attributes): (m: Attributes)
    ensures m.Keys == base.Keys + added.Keys
    ensures forall k :: k in added ==> m[k] == added[k]
    ensures forall k :: k in base && k !in added ==> m[k] == base[k]
  {
    base + added
  }

  /** `addAttributes(_:range:)` as a function of the old contents. */
  function AddAttributesIn(s: AttributedString, attrs: Attributes, location: nat, length: nat): (r: AttributedString)
    requires location + length <= |s|
    ensures |r| == |s| && Text(r) == Text(s)
    ensures forall i :: 0 <= i < |s| && location <= i < location + length ==>
              r[i].attrs == Merge(s[i].attrs, attrs)
    ensures forall i :: 0 <= i < |s| && !(location <= i < location + length) ==>
              r[i] == s[i]
  {
    var r := seq(|s|, i requires 0 <= i < |s| =>
      if location <= i < location + length then AttributedChar(s[i].ch, Merge(s[i].attrs, attrs))
      else s[i]);
    TextPointwise(r, s);
    r
  }

  /** Two attributed strings with the same characters position by position have the same text. */
  lemma TextPointwise(a: AttributedString, b: AttributedString)
    requires |a| == |b|
    requires forall i :: 0 <= i < |a| ==> a[i].ch == b[i].ch
    ensures Text(a) == Text(b)
  {
  }

  /** The text of an appended string is the appended texts. */
  lemma TextAppend(a: AttributedString, b: AttributedString)
    ensures Text(a + b) == Text(a) + Text(b)
  {
  }

  /** `NSMutableAttributedString`: a buffer that `append` and `addAttributes` change in place. */
  class MutableAttributedString {
    var chars: AttributedString

    /** `NSMutableAttributedString()` */
    constructor ()
      ensures chars == []
    {
      chars := [];
    }

    /** `NSMutableAttributedString(string:attributes:)` */
    constructor WithString(text: string, attrs: Attributes)
      ensures chars == Make(text, attrs)
    {
      chars := Make(text, attrs);
    }

    /** `append(_:)` */
    method Append(other: AttributedString)
      modifies this
      ensures chars == old(chars) + other
    {
      chars := chars + other;
    }

    /** `addAttributes(_:range:)` over `NSMakeRange(location, length)`. */
    method AddAttributes(attrs: Attributes, location: nat, length: nat)
      requires location + length <= |chars|
      modifies this
      ensures chars == AddAttributesIn(old(chars), attrs, location, length)
    {
      chars := AddAttributesIn(chars, attrs, location, length);
    }
  }
}
