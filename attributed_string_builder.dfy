/** `AttributedStringBuilder`: the result builder that folds the segments of a
    block into one attributed string, and the convenience initialiser that
    copies what a builder block produced. */
module AttributedStringBuilder {
  import opened Foundation

  /** The segments appended in argument order (a left fold, as the loop runs). */
  function Concat(segments: seq<AttributedString>): (r: AttributedString)
    ensures |r| == TotalLength(segments)
  {
    if segments == [] then []
    else Concat(segments[..|segments| - 1]) + segments[|segments| - 1]
  }

  /** The sum of the segments' lengths. */
  function TotalLength(segments: seq<AttributedString>): (n: nat)
  {
    if segments == [] then 0
    else TotalLength(segments[..|segments| - 1]) + |segments[|segments| - 1]|
  }

  /** The texts of the segments joined from the front: an independent reference
      for the text of a block. */
  function JoinedText(segments: seq<AttributedString>): (t: string)
  {
    if segments == [] then "" else Text(segments[0]) + JoinedText(segments[1..])
  }

  /** `buildBlock(_:)`: a fresh buffer, each segment appended in turn. The segments
      are values, so nothing the loop does can change them. */
  method BuildBlock(segments: seq<AttributedString>) returns (r: AttributedString)
    ensures r == Concat(segments)
    ensures segments == [] ==> r == []
  {
    var buffer := new MutableAttributedString();
    for i := 0 to |segments|
      invariant buffer.chars == Concat(segments[..i])
    {
      assert segments[..i + 1][..i] == segments[..i];
      buffer.Append(segments[i]);
    }
    assert segments[..|segments|] == segments;
    r := buffer.chars;
  }

  /** `buildIf(_:)`: an absent segment becomes the empty string. */
  function BuildIf(segment: Option<AttributedString>): (r: AttributedString)
    ensures segment.None? ==> r == []
    ensures segment.Some? ==> r == segment.value
  {
    match segment
    case None => []
    case Some(s) => s
  }

  /** `init(_ content:)`: `NSAttributedString(attributedString: content())`,
      a copy of what the block produces. */
  function InitWithContent(content: () -> AttributedString): (r: AttributedString)
    ensures |r| == |content()| && Text(r) == Text(content())
    ensures forall i :: 0 <= i < |r| ==> r[i].attrs == content()[i].attrs
  {
    content()
  }

  /** Appending two lists of segments appends their folds. */
  lemma {:induction false} ConcatAppend(a: seq<AttributedString>, b: seq<AttributedString>)
    ensures Concat(a + b) == Concat(a) + Concat(b)
  {
    if b == [] {
      assert a + b == a;
    } else {
      var b' := b[..|b| - 1];
      assert (a + b)[..|a + b| - 1] == a + b';
      assert (a + b)[|a + b| - 1] == b[|b| - 1];
      ConcatAppend(a, b');
    }
  }

  /** A single segment folds to itself. */
  lemma ConcatSingleton(s: AttributedString)
    ensures Concat([s]) == s
  {
  }

  /** The text of a block is the segments' texts joined in argument order. */
  lemma {:induction false} TextOfConcat(segments: seq<AttributedString>)
    ensures Text(Concat(segments)) == JoinedText(segments)
  {
    if segments != [] {
      var rest := segments[1..];
      assert segments == [segments[0]] + rest;
      ConcatAppend([segments[0]], rest);
      ConcatSingleton(segments[0]);
      TextAppend(segments[0], Concat(rest));
      TextOfConcat(rest);
    }
  }

  /** Where segment `j` starts in the block: the lengths of the segments before it. */
  function Offset(segments: seq<AttributedString>, j: nat): (offset: nat)
    requires j <= |segments|
  {
    TotalLength(segments[..j])
  }

  /** Character `p` of segment `j`, text and attributes, is character
      `Offset(segments, j) + p` of the block. */
  lemma SegmentCharAt(segments: seq<AttributedString>, j: nat, p: nat)
    requires j < |segments| && p < |segments[j]|
    ensures Offset(segments, j) + p < |Concat(segments)|
    ensures Concat(segments)[Offset(segments, j) + p] == segments[j][p]
  {
    var before, rest := segments[..j], segments[j + 1..];
    assert segments == before + ([segments[j]] + rest);
    ConcatAppend(before, [segments[j]] + rest);
    ConcatAppend([segments[j]], rest);
    ConcatSingleton(segments[j]);
  }

  /** An absent optional segment contributes nothing, wherever it stands. */
  lemma BuildIfNoneIsIdentity(before: seq<AttributedString>, after: seq<AttributedString>)
    ensures Concat(before + [BuildIf(None)] + after) == Concat(before + after)
  {
    ConcatAppend(before + [BuildIf(None)], after);
    ConcatAppend(before, [BuildIf(None)]);
    ConcatSingleton(BuildIf(None));
    ConcatAppend(before, after);
  }
}
