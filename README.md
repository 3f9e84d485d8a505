# Function builders playground book, modelled in Dafny

The playground book teaches Swift's function-builder syntax with two builders.
`AttributedStringBuilder` folds the attributed-string segments of a block into
one `NSAttributedString`; a set of `String` and `NSAttributedString`
modifiers produces the styled segments; a convenience initialiser copies a
builder block's result. `GreetingBuilder` prefixes every string of its block
with "Hello ". This project models those builders, the modifiers, the
attributed-string usage example, and the desugaring of a builder block into one
`buildBlock` call, and proves what they promise.

Modules:

- `Foundation` (foundation.dfy): the part of Foundation the pages rely on.
  An attributed string is a sequence of characters, each with its own map from
  attribute key to value. `NSAttributedString` is immutable and is a value
  here. `NSMutableAttributedString` is the class `MutableAttributedString`, whose
  `Append` and `AddAttributes` update its buffer in place. `Merge` states how
  `addAttributes` combines maps: new values replace old ones on shared keys.
- `AttributedStringBuilder` (attributed_string_builder.dfy): `BuildBlock` is the
  loop that appends each segment into a fresh buffer. It is proved equal to the
  fold `Concat`, and the lemmas below are proved about `Concat`. `BuildIf` and
  `InitWithContent` are here too.
- `ModifierAttributes`, `StringModifiers`, `AttributedStringModifiers`
  (modifiers.dfy): the attribute dictionary each modifier sets; the `String`
  modifiers, which build a uniformly styled string; `Apply` and the
  `NSAttributedString` modifiers built on it. `Apply` is proved equal to the
  function `Applied`.
- `AttributedStringUsage` (usage_example.dfy): the usage page's block, desugared.
- `GreetingBuilder` (greeting_builder.dfy): the greeting builder and the
  desugared block: statements that may read and change a shared state are
  evaluated once each, in source order, and their values passed by position.

The hidden code of the Chapter 2 Usage page (lines 5-79) is the same as that of
the Builder page (lines 4-78), one line lower. It is modelled once. The rows
below cite whichever page shows the property best.

`apply` keeps only the attributes at index 0. So a modifier applied to a
composed block restyles the whole block like its first character.
`ApplyLosesLaterAttributes` shows this on a two-character string. The pages only
chain modifiers on uniformly styled strings, where nothing is lost.

## Model

| member | source | states |
|---|---|---|
| AttributedStringBuilder.BuildBlock | sources/function-builders/Template/PlaygroundBook/Chapters/Chapter2.playgroundchapter/Pages/Builder.playgroundpage/Contents.swift:6-10 | appending every segment in order into a fresh empty buffer gives exactly `Concat(segments)`; no segments give the empty string |
| AttributedStringBuilder.Concat | sources/function-builders/Template/PlaygroundBook/Chapters/Chapter2.playgroundchapter/Pages/Builder.playgroundpage/Contents.swift:8 | the length of the block is the sum of the segment lengths |
| AttributedStringBuilder.TextOfConcat | sources/function-builders/Template/PlaygroundBook/Chapters/Chapter2.playgroundchapter/Pages/Builder.playgroundpage/Contents.swift:6-10 | the text of the block is the segments' texts joined in argument order |
| AttributedStringBuilder.SegmentCharAt | sources/function-builders/Template/PlaygroundBook/Chapters/Chapter2.playgroundchapter/Pages/Builder.playgroundpage/Contents.swift:8 | character `p` of segment `j`, with its attribute map, sits at position `p` plus the lengths of the earlier segments |
| AttributedStringBuilder.ConcatAppend | sources/function-builders/Template/PlaygroundBook/Chapters/Chapter2.playgroundchapter/Pages/Builder.playgroundpage/Contents.swift:8 | folding two lists of segments one after the other is appending their folds: order is kept and nothing is dropped |
| AttributedStringBuilder.BuildIf | sources/function-builders/Template/PlaygroundBook/Chapters/Chapter2.playgroundchapter/Pages/Builder.playgroundpage/Contents.swift:11-13 | an absent segment gives the empty string; a present one is returned unchanged |
| AttributedStringBuilder.BuildIfNoneIsIdentity | sources/function-builders/Template/PlaygroundBook/Chapters/Chapter2.playgroundchapter/Pages/Builder.playgroundpage/Contents.swift:11-13 | an absent optional segment anywhere in a block leaves the block as if it were not there |
| AttributedStringBuilder.InitWithContent | sources/function-builders/Template/PlaygroundBook/Chapters/Chapter2.playgroundchapter/Pages/Usage.playgroundpage/Contents.swift:18-20 | the initialised string has the text and the attributes of what the block produced |
| Foundation.Text | sources/function-builders/Template/PlaygroundBook/Chapters/Chapter2.playgroundchapter/Pages/Builder.playgroundpage/Contents.swift:74 | `string`: the plain text has one character per position of the attributed string, the character at that position |
| Foundation.AttributesAt | sources/function-builders/Template/PlaygroundBook/Chapters/Chapter2.playgroundchapter/Pages/Builder.playgroundpage/Contents.swift:74 | `attributes(at:effectiveRange:)`: the map of character `index`; the index must be in range |
| Foundation.Make | sources/function-builders/Template/PlaygroundBook/Chapters/Chapter2.playgroundchapter/Pages/Builder.playgroundpage/Contents.swift:25 | `NSAttributedString(string:attributes:)` has the given text, and every character carries the given attributes |
| Foundation.Merge | sources/function-builders/Template/PlaygroundBook/Chapters/Chapter2.playgroundchapter/Pages/Builder.playgroundpage/Contents.swift:75 | `addAttributes` keeps every key of both maps, a new value replacing the old one on a shared key |
| Foundation.AddAttributesIn | sources/function-builders/Template/PlaygroundBook/Chapters/Chapter2.playgroundchapter/Pages/Builder.playgroundpage/Contents.swift:75 | `addAttributes` over a range keeps the text, merges the new attributes into each position of the range and leaves the other positions alone |
| Foundation.TextAppend | sources/function-builders/Template/PlaygroundBook/Chapters/Chapter2.playgroundchapter/Pages/Builder.playgroundpage/Contents.swift:8 | the text of an appended string is the two texts appended |
| Foundation.MutableAttributedString.constructor | sources/function-builders/Template/PlaygroundBook/Chapters/Chapter2.playgroundchapter/Pages/Builder.playgroundpage/Contents.swift:7 | a new mutable attributed string is empty |
| Foundation.MutableAttributedString.WithString | sources/function-builders/Template/PlaygroundBook/Chapters/Chapter2.playgroundchapter/Pages/Builder.playgroundpage/Contents.swift:74 | the mutable copy holds the text with the given attributes on every character |
| Foundation.MutableAttributedString.Append | sources/function-builders/Template/PlaygroundBook/Chapters/Chapter2.playgroundchapter/Pages/Builder.playgroundpage/Contents.swift:8 | `append` adds the other string's characters and attributes at the end of the buffer |
| Foundation.MutableAttributedString.AddAttributes | sources/function-builders/Template/PlaygroundBook/Chapters/Chapter2.playgroundchapter/Pages/Builder.playgroundpage/Contents.swift:75 | the buffer becomes `AddAttributesIn` of its old contents |
| StringModifiers.ForegroundColor | sources/function-builders/Template/PlaygroundBook/Chapters/Chapter2.playgroundchapter/Pages/Builder.playgroundpage/Contents.swift:24-26 | the text is the receiver and every character has exactly the foreground colour |
| StringModifiers.Background | sources/function-builders/Template/PlaygroundBook/Chapters/Chapter2.playgroundchapter/Pages/Builder.playgroundpage/Contents.swift:28-30 | the text is the receiver and every character has exactly the background colour |
| StringModifiers.Underline | sources/function-builders/Template/PlaygroundBook/Chapters/Chapter2.playgroundchapter/Pages/Builder.playgroundpage/Contents.swift:32-34 | the text is the receiver and every character has exactly two keys, the underline colour and the style's raw value, the style defaulting to single |
| StringModifiers.Font | sources/function-builders/Template/PlaygroundBook/Chapters/Chapter2.playgroundchapter/Pages/Builder.playgroundpage/Contents.swift:36-38 | the text is the receiver and every character has exactly the font |
| StringModifiers.Shadow | sources/function-builders/Template/PlaygroundBook/Chapters/Chapter2.playgroundchapter/Pages/Builder.playgroundpage/Contents.swift:40-42 | the text is the receiver and every character has exactly the shadow |
| StringModifiers.Attributed | sources/function-builders/Template/PlaygroundBook/Chapters/Chapter2.playgroundchapter/Pages/Builder.playgroundpage/Contents.swift:44-46 | the text is the receiver and no character has any attribute |
| AttributedStringModifiers.Applied | sources/function-builders/Template/PlaygroundBook/Chapters/Chapter2.playgroundchapter/Pages/Builder.playgroundpage/Contents.swift:73-77 | the text and length are kept, and every position gets the index-0 attributes merged with the new ones, new ones winning |
| AttributedStringModifiers.Apply | sources/function-builders/Template/PlaygroundBook/Chapters/Chapter2.playgroundchapter/Pages/Builder.playgroundpage/Contents.swift:73-77 | a mutable copy with the index-0 attributes, after `addAttributes` over the whole range, is `Applied`; the string must not be empty |
| AttributedStringModifiers.ForegroundColor | sources/function-builders/Template/PlaygroundBook/Chapters/Chapter2.playgroundchapter/Pages/Builder.playgroundpage/Contents.swift:51-53 | the result is `Applied` with the foreground-colour dictionary |
| AttributedStringModifiers.Background | sources/function-builders/Template/PlaygroundBook/Chapters/Chapter2.playgroundchapter/Pages/Builder.playgroundpage/Contents.swift:55-57 | the result is `Applied` with the background-colour dictionary |
| AttributedStringModifiers.Underline | sources/function-builders/Template/PlaygroundBook/Chapters/Chapter2.playgroundchapter/Pages/Usage.playgroundpage/Contents.swift:60-62 | the result is `Applied` with the underline colour and the style's raw value, the style defaulting to single |
| AttributedStringModifiers.Font | sources/function-builders/Template/PlaygroundBook/Chapters/Chapter2.playgroundchapter/Pages/Builder.playgroundpage/Contents.swift:63-65 | the result is `Applied` with the font dictionary |
| AttributedStringModifiers.Shadow | sources/function-builders/Template/PlaygroundBook/Chapters/Chapter2.playgroundchapter/Pages/Builder.playgroundpage/Contents.swift:67-69 | the result is `Applied` with the shadow dictionary |
| AttributedStringModifiers.ApplyTwice | sources/function-builders/Template/PlaygroundBook/Chapters/Chapter2.playgroundchapter/Pages/Builder.playgroundpage/Contents.swift:51-77 | two chained modifiers equal one with the merged dictionary: keys accumulate and the later one wins |
| AttributedStringModifiers.ApplyToUniform | sources/function-builders/Template/PlaygroundBook/Chapters/Chapter2.playgroundchapter/Pages/Builder.playgroundpage/Contents.swift:73-77 | a modifier on a uniformly styled string merges its dictionary into that style |
| AttributedStringModifiers.LaterModifierWins | sources/function-builders/Template/PlaygroundBook/Chapters/Chapter2.playgroundchapter/Pages/Builder.playgroundpage/Contents.swift:51-53 | after two foreground colours, every character has the later one |
| AttributedStringModifiers.WorldForegroundUnderline | sources/function-builders/Template/PlaygroundBook/Chapters/Chapter2.playgroundchapter/Pages/Builder.playgroundpage/Contents.swift:92-94 | `"World".foregroundColor(.blue).underline(.blue)` has text "World" and exactly the foreground colour, underline colour and single underline style on every character |
| AttributedStringModifiers.ApplyLosesLaterAttributes | sources/function-builders/Template/PlaygroundBook/Chapters/Chapter2.playgroundchapter/Pages/Builder.playgroundpage/Contents.swift:74 | `apply` on a block whose second character is styled differently gives that character the first character's attributes |
| AttributedStringUsage.Example | sources/function-builders/Template/PlaygroundBook/Chapters/Chapter2.playgroundchapter/Pages/Usage.playgroundpage/Contents.swift:90-99 | the usage example yields "HelloWorld"; positions 0-4 have exactly the red foreground and the 10-point font; positions 5-9 have exactly the green foreground, orange underline colour and thick underline style (raw value 2) |
| AttributedStringUsage.TwoUniformSegments | sources/function-builders/Template/PlaygroundBook/Chapters/Chapter2.playgroundchapter/Pages/Usage.playgroundpage/Contents.swift:7-11 | a block of two uniformly styled segments has both texts in order, and each position the style of the segment it came from |
| GreetingBuilder.BuildBlock | sources/function-builders/Template/PlaygroundBook/Chapters/Chapter1.playgroundchapter/Pages/Usage.playgroundpage/Contents.swift:46-48 | the output has one entry per input, and entry `i` is "Hello " followed by item `i` |
| GreetingBuilder.GreetingPrefix | sources/function-builders/Template/PlaygroundBook/Chapters/Chapter1.playgroundchapter/Pages/Usage.playgroundpage/Contents.swift:54 | every greeting starts with "Hello " and the item follows it unchanged |
| GreetingBuilder.BuildBlockInjective | sources/function-builders/Template/PlaygroundBook/Chapters/Chapter1.playgroundchapter/Pages/Usage.playgroundpage/Contents.swift:46-48 | equal outputs come from equal inputs: nothing is reordered or merged |
| GreetingBuilder.BuildBlockAppend | sources/function-builders/Template/PlaygroundBook/Chapters/Chapter1.playgroundchapter/Pages/Usage.playgroundpage/Contents.swift:46-48 | greeting a block made of two parts greets each part in order |
| GreetingBuilder.Run | sources/function-builders/Template/PlaygroundBook/Chapters/Chapter1.playgroundchapter/Pages/Usage.playgroundpage/Contents.swift:35-38 | one value per statement, each statement run on the state the earlier ones left |
| GreetingBuilder.RunAt | sources/function-builders/Template/PlaygroundBook/Chapters/Chapter1.playgroundchapter/Pages/Usage.playgroundpage/Contents.swift:35-38 | the value of statement `i` is what it computes from the state the statements before it left: earlier statements run first, each once |
| GreetingBuilder.RunAppend | sources/function-builders/Template/PlaygroundBook/Chapters/Chapter1.playgroundchapter/Pages/Usage.playgroundpage/Contents.swift:35-38 | evaluating two runs of statements one after the other is evaluating the joined run, the second starting from the state the first left |
| GreetingBuilder.RunTrace | sources/function-builders/Template/PlaygroundBook/Chapters/Chapter1.playgroundchapter/Pages/Usage.playgroundpage/Contents.swift:35-38 | when every statement appends its index to a trace, the block leaves the trace 0, 1, ..., n-1: each statement once, in source order |
| GreetingBuilder.EvaluateStatements | sources/function-builders/Template/PlaygroundBook/Chapters/Chapter1.playgroundchapter/Pages/Usage.playgroundpage/Contents.swift:35-38 | the loop that evaluates the statements one at a time, threading the state, gives exactly the in-order evaluation `Run` |
| GreetingBuilder.Block | sources/function-builders/Template/PlaygroundBook/Chapters/Chapter1.playgroundchapter/Pages/Usage.playgroundpage/Contents.swift:35-39 | a block's result greets, by position, the value each statement yields in the in-order evaluation, and leaves that evaluation's final state |

## Left out

- The exercise stub `NSAttributedStringBuilder` and its initialiser on the Builder page: the editable body is empty, so it always returns the empty string. The reference `AttributedStringBuilder` is modelled instead. The Builder page's example block is written for the stub, so only its modifier chain is modelled, as `WorldForegroundUnderline`.
- The compiler's function-builder transform: only the calls it produces are modelled, as `EvaluateStatements` and `Block`, and as the desugared body of `AttributedStringUsage.Example`.
- `ViewBuilder`, `TupleView`, `Text` and all SwiftUI, UIKit and PlaygroundSupport wiring (views, labels, live view), and the Chapter 1 Explanation page: presentation code over libraries that are not part of this model. The desugared example on the Chapter 1 Usage page passes two `Text` views to `ViewBuilder`; the model shows the same desugaring with `GreetingBuilder`.
- `UIColor`, `UIFont` and `NSShadow` are opaque values; font sizes and colour components carry no logic here. `NSUnderlineStyle` is identified by its raw value (single 1, thick 2, double 9).
- String lengths: `NSString.length` counts UTF-16 code units; here a string is a sequence of abstract characters and the length is the number of characters, so `apply`'s range covers the whole string.
- Object identity: attributed strings are values. `buildBlock` only reads its segments and appends them into a freshly allocated buffer, so it cannot change them; the `NSAttributedString` modifiers likewise return a fresh mutable copy. Which object a call returns, and aliasing between the results, are not modelled.
- `attributes(at:effectiveRange:)` raises on an empty string; `Apply` and the `NSAttributedString` modifiers require a non-empty string instead of modelling the exception.
- `addAttributes(_:range:)` raises when the range runs past the end of the string; `MutableAttributedString.AddAttributes` requires the range to fit instead. `apply` always passes the whole string, so it never reaches that case.
- Attribute ranges as Foundation stores them (runs of equal attributes) are not modelled; each character carries its own map.
