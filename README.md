# Tribute, modelled in Dafny

Tribute is a small Swift library for building styled text. It has two parts:

- `Attributes` is a struct of thirty optional style fields: colours, font, kern, stroke, underline, paragraph settings and so on.
- Extension methods on `NSMutableAttributedString` append text or an image.

The two public calls, `add(text:setter:)` and `add(image:bounds:setter:)`, each do four things:

1. It reads the attribute dictionary of the string's last character (the *running attributes*).
2. It decodes that dictionary into an `Attributes` value.
3. It lets an optional setter edit the value.
4. It encodes the value back into a dictionary and appends the new span with that dictionary.

The internal `add(text:attributes:)` does only the last step: it encodes the record it is given and appends the text with that dictionary.

This project models that core and proves what the encoder and the decoder promise about each other.

- `Foundation.dfy` holds the host types:
  - the typed attribute keys (`Key`);
  - the type-erased dictionary values (`RawValue`, a tag per host class);
  - the paragraph style record;
  - a `Host` record. It carries the default paragraph style and the set of raw values that the underline-style enumeration accepts.
- `Tribute.dfy` holds:
  - the `Attributes` datatype and the value codecs: text effect, stroke, glyph direction and ligature;
  - the specification functions `Encode` and `Decode`;
  - the source's step-by-step operations as methods proved against them:
    - `BuildRawAttributes` (the `rawAttributes` getter);
    - `RetrieveParagraph`;
    - `IsAnyNotNil`;
    - `Reset`.
- `TributeProperties.dfy` holds the properties:
  - the codec laws;
  - which keys an encoding holds, and how many;
  - the exact condition under which a record survives encoding then decoding;
  - what clearing a field does to the encoding.
- `Builder.dfy` holds the class `MutableAttributedString`:
  - its state is the characters plus one attribute dictionary per character;
  - its methods are the builder calls `add(text:setter:)`, `add(text:attributes:)` and `add(image:bounds:setter:)`.

The source's behaviour, as the proofs state it:

- A `Filled` stroke of width 0 is stored as width 0. It therefore reads back as an unfilled stroke.
- The line-break mode is written into the paragraph style but never read back.
- A paragraph field equal to the host default reads back as nil.
- The running attributes of a later span never carry an image attachment.

## Model

| member | source | states |
|---|---|---|
| Foundation.UnderlineStyleFromRaw | Tribute/Tribute.swift:154-156 | The underline style built from a raw value exists exactly when the host knows that raw value, and it keeps that raw value. |
| Foundation.Put | Tribute/Tribute.swift:276-297 | Assigning an optional to a dictionary key stores the value when there is one, and removes the key when it is nil. Every other key keeps its entry. |
| Tribute.TextEffectFromString | Tribute/Tribute.swift:63-69 | A name reads as a text effect exactly when it is the host's letterpress style name. |
| Tribute.TextEffectToString | Tribute/Tribute.swift:71-76 | Every text effect's name reads back as that effect. |
| Tribute.StrokeFromFloat | Tribute/Tribute.swift:80-86 | A stored width reads as a stroke whose signed width is that width, filled exactly when it is negative, with a non-negative width. A zero width reads as not filled. |
| Tribute.StrokeToFloat | Tribute/Tribute.swift:88-95 | A stroke is stored as its width or the width negated. A stroke with a positive width is stored as a negative number exactly when it is filled. |
| Tribute.DirectionFromInt | Tribute/Tribute.swift:99-108 | An integer reads as a glyph direction exactly when it is 0 or 1. |
| Tribute.DirectionToInt | Tribute/Tribute.swift:110-117 | A direction is stored as 0 or 1, and reads back as itself. |
| Tribute.LigatureToInt | Tribute/Tribute.swift:283-285 | A ligature flag is stored as 0 or 1, and reads back as itself. |
| Tribute.LigatureFromInt | Tribute/Tribute.swift:131-133 | A stored ligature number reads as true exactly when it is 1. Any other number reads as false. |
| Tribute.ParagraphArgumentsSet | Tribute/Tribute.swift:313-316 | Some of the thirteen optionals passed to the nil test holds a value exactly when some paragraph field is set. |
| Tribute.IsAnyNotNil | Tribute/Tribute.swift:302-309 | The loop answers true exactly when one of the given optionals holds a value. |
| Tribute.RetrieveParagraph | Tribute/Tribute.swift:312-338 | A paragraph style is returned exactly when some paragraph field is set. It is the host default with every set field written over it. |
| Tribute.Encode | Tribute/Tribute.swift:274-300 | The dictionary holds a key exactly when that key's field is set. Each entry is the encoded value of its field. |
| Tribute.WrittenIsPart | Tribute/Tribute.swift:275-297 | After the getter's first n assignments, the dictionary is the encoding restricted to the keys of those assignments. |
| Tribute.EncodeKey | Tribute/Tribute.swift:276-297 | One assignment of the encoder writes a value for its key exactly when that key's field is set. For the paragraph key, that means any paragraph field. |
| Tribute.WrittenAll | Tribute/Tribute.swift:274-300 | After all its assignments, the dictionary is the whole encoding. |
| Tribute.Write | Tribute/Tribute.swift:276-297 | One optional assignment takes the dictionary from the first n assignments' state to the first n+1's. |
| Tribute.WriteCharacterKeys | Tribute/Tribute.swift:276-285 | The assignments before the paragraph style take the empty dictionary to the state after eight assignments. |
| Tribute.ParagraphEntry | Tribute/Tribute.swift:286-288 | The paragraph entry the getter writes is the encoding's paragraph entry. |
| Tribute.WriteDecorationKeys | Tribute/Tribute.swift:289-297 | The assignments after the paragraph style complete the dictionary. |
| Tribute.BuildRawAttributes | Tribute/Tribute.swift:274-300 | The getter's key-by-key construction yields exactly the encoding of the record. |
| Tribute.ParaStyleCompare | Tribute/Tribute.swift:173-177 | A paragraph property is nil exactly when it equals the default's. Otherwise it is the property itself. |
| Tribute.Decode | Tribute/Tribute.swift:122-170 | Every record decoded from any dictionary is normalized: a canonical stroke, underline styles the host knows, no line-break mode, and no paragraph field equal to the default. |
| Tribute.Reset | Tribute/Tribute.swift:237-269 | Resetting any record leaves no field set. |
| TributeProperties.StrokeRoundTrip | Tribute/Tribute.swift:79-96 | A stroke survives the signed-width trip exactly when it is canonical. For non-negative widths that means everything except a filled stroke of width 0, which comes back unfilled. |
| TributeProperties.StrokeSignConvention | TributeTests/TributeTests.swift:622-643 | A negative width reads as a filled stroke of the opposite width, any other as an outline. A filled stroke is stored negated, an outline as is. |
| TributeProperties.DirectionCodec | TributeTests/TributeTests.swift:271-278 | 0 reads as horizontal and 1 as vertical. Every other integer, 13 among them, reads as nil. Every direction round-trips. |
| TributeProperties.TextEffectCodec | TributeTests/TributeTests.swift:701-708 | Only the letterpress name reads as letterpress, which is the name it is stored under. "shazooo" reads as nil. |
| TributeProperties.LigatureCodec | TributeTests/TributeTests.swift:457-476 | true is stored as 1 and false as 0. Only 1 reads back as true. Every flag round-trips. |
| TributeProperties.EncodeKeyPresent | Tribute/Tribute.swift:276-297 | A key has an entry exactly when its field is set (for the paragraph key, any paragraph field). The encoding's keys are exactly those entries. |
| TributeProperties.EncodeParagraphKey | Tribute/Tribute.swift:286-288 | The paragraph key is present exactly when some paragraph field is set, and then holds the merged paragraph style. The attachment key is never present. |
| TributeProperties.PresentKeysCount | Tribute/Tribute.swift:275-297 | The keys written by the getter's first n steps whose field is set are as many as those steps. |
| TributeProperties.EncodeKeys | Tribute/Tribute.swift:274-300 | The encoding's key set is the set of keys whose field is set. |
| TributeProperties.EncodeSize | TributeTests/TributeTests.swift:90-106 | The encoding has one entry per set non-paragraph field, plus one when any paragraph field is set. |
| TributeProperties.Collapse | Tribute/Tribute.swift:173-177 | A value is dropped exactly when it equals the default, and kept unchanged otherwise. |
| TributeProperties.DecodeEncodeColors | Tribute/Tribute.swift:123-169 | All five colours read back unchanged after encoding. |
| TributeProperties.DecodeEncodeValues | Tribute/Tribute.swift:124-135 | Font, link, baseline, expansion, kern and obliqueness read back unchanged. |
| TributeProperties.DecodeEncodeCoded | Tribute/Tribute.swift:126-133 | Direction, ligature and text effect read back unchanged. |
| TributeProperties.DecodeEncodeStyles | Tribute/Tribute.swift:154-167 | A stroke reads back as what its signed width means. Underline and strike-through styles read back only when the host knows their raw value. |
| TributeProperties.DecodedParagraph | Tribute/Tribute.swift:137 | The paragraph style read back from an encoding is the merged style when any paragraph field is set, and none otherwise. |
| TributeProperties.ParagraphCollapseSpacing | Tribute/Tribute.swift:137-143 | Alignment, leading, line-height multiple, the two paragraph spacings and the head indent each read back as nil when nil or equal to the default, and unchanged otherwise. |
| TributeProperties.ParagraphCollapseLines | Tribute/Tribute.swift:144-152 | The tail and first-line indents, the minimum and maximum line heights, the hyphenation factor and the tightening flag read back the same way. The line-break mode always reads back as nil. |
| TributeProperties.RoundTrip | Tribute/Tribute.swift:122-170 | Encoding then decoding gives the record back exactly when the record is normalized. |
| TributeProperties.DecodeEncodeDecode | Tribute/Tribute.swift:365-371 | Re-encoding a decoded dictionary and decoding again changes nothing, so running attributes are stable from span to span. |
| TributeProperties.ResetEncodesEmpty | TributeTests/TributeTests.swift:63-71 | The record with no field set encodes to the empty dictionary. |
| TributeProperties.ClearKeyEntry | Tribute/Tribute.swift:276-297 | Clearing the fields behind one key turns that key's entry to none and leaves every other entry as it was. |
| TributeProperties.ClearRemovesKey | Tribute/Tribute.swift:276-297 | Clearing the fields behind one key removes exactly that key from the encoding. |
| Builder.ImageSpan | Tribute/Tribute.swift:389-390 | The image span's dictionary holds the attachment key and every key of the added attributes. Added values win; the attachment stays when not overridden. |
| Builder.ImageSpanOfEncoding | TributeTests/TributeTests.swift:854-876 | An image span styled by a record is that record's encoding plus the attachment entry, one entry larger. |
| Builder.AttachmentNotInherited | Tribute/Tribute.swift:122-170 | The decoder reads nothing from the attachment entry. |
| Builder.ImageSpanDecodes | TributeTests/TributeTests.swift:860-867 | An image span decodes to what its added attributes decode to, so text after an image keeps the image's style. |
| Builder.EmptyNormalized | Tribute/Tribute.swift:369 | The record with no field set is normalized. |
| Builder.ApplySetter | Tribute/Tribute.swift:359-363 | Without a setter the record is left as it was. With one, the record is whatever the setter makes of it. |
| Builder.MutableAttributedString.constructor | TributeTests/TributeTests.swift:18-20 | A new string has no characters and no attributes. |
| Builder.MutableAttributedString.RunningAttributes | Tribute/Tribute.swift:343-348 | nil exactly for an empty string, otherwise the last character's dictionary. |
| Builder.MutableAttributedString.RunningOrNewAttributes | Tribute/Tribute.swift:365-371 | The empty record for an empty string, otherwise the decoding of the last character's dictionary. It is always normalized. |
| Builder.MutableAttributedString.Append | Tribute/Tribute.swift:375 | Appends the characters, each with the given dictionary, and makes that dictionary the running one. |
| Builder.MutableAttributedString.AddWithAttributes | Tribute/Tribute.swift:373-377 | Appends the text with the record's encoding on every character and returns the same string. The new running attributes decode as the record's encoding does. |
| Builder.MutableAttributedString.AddText | Tribute/Tribute.swift:359-363 | Appends the text with the encoding of the running attributes as edited by the setter. With no setter, the running attributes stay as they were. |
| Builder.MutableAttributedString.AddImage | Tribute/Tribute.swift:381-393 | Appends one attachment character. Its dictionary is the attachment (with the given bounds, or zero bounds) overlaid by the edited running attributes. Later spans decode as those attributes; with no setter they stay as they were. |

## Left out

- The font accessors `fontSize`, `bold` and `italic`, with `setTrait` and `currentFont` (Tribute/Tribute.swift:182-233). They depend on UIKit font descriptors.
- Colours, fonts, URLs and images are opaque records with an identity. Their UIKit behaviour is not modelled.
- The table of valid `NSUnderlineStyle` raw values is a parameter of `Host`, not the UIKit table.
- `Float` and `CGFloat` are modelled as `real`. There is no rounding, no NaN and no negative zero, and the width conversions at `Float(...)` and `CGFloat(...)` are exact.
- Decode: a conditional cast reads a value only under its own tag. NSNumber bridging, which could let `as? Float` read an integer, is not modelled.
- The `#available(iOS 9.0, *)` checks are modelled as always taken.
- `NSMutableParagraphStyle()` is modelled as starting equal to the host default paragraph style.
- The attributed string is modelled as one dictionary per character, not as attribute runs. A character of the model is a Dafny `char`, a Unicode scalar value. It is neither a Swift `Character` (a grapheme cluster) nor the UTF-16 unit that `NSAttributedString.length` counts.
- AddText, AddImage: the setter is a pure function from record to record, standing in for the `inout` closure. A setter's side effects are not modelled.
- Reset: it is a method from the old value to the new one, where the source mutates a struct in place.
- BuildRawAttributes: the getter's single sequence of assignments is split across `WriteCharacterKeys`, `Write` and `WriteDecorationKeys`, in the source's order. The steps and their order are unchanged.
- RetrieveParagraph: the source assigns the line spacing twice (Tribute/Tribute.swift:321-322). The model keeps both writes; the second changes nothing.
- The `private` `fullRange` helper (Tribute/Tribute.swift:350-352) is left out. The image span is a single character, so the range covers all of it.
- TextEffectFromString: compares names code point by code point. Swift's `==` on `String` uses canonical equivalence, so a name that differs from the letterpress name only in its Unicode normal form would also match there.
- The tests file and the playground are not part of this model, except as the cited statements of intent.
