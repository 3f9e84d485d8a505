/** The composition on the attributed-string usage page, desugared: each
    statement of the block is evaluated once, in order, the results are passed
    to `buildBlock`, and the convenience initialiser copies the block. */
module AttributedStringUsage {
  import opened Foundation
  import opened ModifierAttributes
  import StringModifiers
  import AttributedStringModifiers
  import AttributedStringBuilder

  /** `UIFont.systemFont(ofSize: 10.0)` */
  const TenPointFont := SystemFont(10.0)

  method Example() returns (r: AttributedString)
    ensures Text(r) == "HelloWorld"
    ensures forall i :: 0 <= i < 5 ==>
              r[i].attrs == map[ForegroundColorAttr := ColorValue(Red), FontAttr := FontValue(TenPointFont)]
    ensures forall i :: 5 <= i < 10 ==>
              r[i].attrs == map[ForegroundColorAttr := ColorValue(Green),
                                UnderlineColorAttr := ColorValue(Orange),
                                UnderlineStyleAttr := NumberValue(2)]
  {
    var hello := StringModifiers.ForegroundColor("Hello", Red);
    hello := AttributedStringModifiers.Font(hello, TenPointFont);
    var world := StringModifiers.ForegroundColor("World", Green);
    world := AttributedStringModifiers.Underline(world, Orange, style := Thick);
    var block := AttributedStringBuilder.BuildBlock([hello, world]);
    r := AttributedStringBuilder.InitWithContent(() => block);

    ghost var helloAttrs := map[ForegroundColorAttr := ColorValue(Red), FontAttr := FontValue(TenPointFont)];
    ghost var worldAttrs := map[ForegroundColorAttr := ColorValue(Green),
                                UnderlineColorAttr := ColorValue(Orange),
                                UnderlineStyleAttr := NumberValue(2)];
    AttributedStringModifiers.ApplyToUniform("Hello", ForegroundColorAttributes(Red), FontAttributes(TenPointFont));
    assert Merge(ForegroundColorAttributes(Red), FontAttributes(TenPointFont)) == helloAttrs;
    AttributedStringModifiers.ApplyToUniform("World", ForegroundColorAttributes(Green), UnderlineAttributes(Orange, Thick));
    assert Merge(ForegroundColorAttributes(Green), UnderlineAttributes(Orange, Thick)) == worldAttrs;
    TwoUniformSegments("Hello", helloAttrs, "World", worldAttrs);
  }

  /** A block of two segments, each styled uniformly: the texts in order, and
      each position styled as the segment it came from. */
  lemma TwoUniformSegments(first: string, firstAttrs: Attributes, second: string, secondAttrs: Attributes)
    ensures var block := AttributedStringBuilder.Concat([Make(first, firstAttrs), Make(second, secondAttrs)]);
      Text(block) == first + second &&
      (forall i :: 0 <= i < |first| ==> block[i].attrs == firstAttrs) &&
      (forall i :: |first| <= i < |block| ==> block[i].attrs == secondAttrs)
  {
    AttributedStringBuilder.ConcatAppend([Make(first, firstAttrs)], [Make(second, secondAttrs)]);
  }
}
