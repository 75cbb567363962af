/**
 * What the encoder and the decoder promise about each other: the codecs of
 * single values, which dictionary keys an encoding holds and how many, which
 * records survive a trip through the dictionary unchanged, and how clearing
 * a field shows in the encoding.
 */
module TributeProperties {
  import opened Wrappers
  import opened Foundation
  import opened Tribute

  // ---------------------------------------------------------------------------
  // Value codecs

  /**
   * A stroke survives the trip through the host's signed width exactly when
   * it is canonical; the one non-negative width that does not is a filled
   * stroke of width 0, which reads back as an outline.
   */
  lemma StrokeRoundTrip(s: Stroke)
    ensures StrokeFromFloat(StrokeToFloat(s)) == s <==> CanonicalStroke(s)
    ensures s.width >= 0.0 ==> (StrokeFromFloat(StrokeToFloat(s)) == s <==> s != Filled(0.0))
    ensures StrokeFromFloat(StrokeToFloat(Filled(0.0))) == NotFilled(0.0)
  {
  }

  /** A negative stored width reads as a filled stroke of the opposite width; any other as an outline. */
  lemma StrokeSignConvention(x: real)
    ensures x < 0.0 ==> StrokeFromFloat(x) == Filled(-x)
    ensures x >= 0.0 ==> StrokeFromFloat(x) == NotFilled(x)
    ensures StrokeToFloat(Filled(x)) == -x && StrokeToFloat(NotFilled(x)) == x
  {
  }

  /** The glyph direction is stored as 0 (horizontal) or 1 (vertical); nothing else reads back. */
  lemma DirectionCodec(n: int)
    ensures DirectionFromInt(n) == Some(Horizontal) <==> n == 0
    ensures DirectionFromInt(n) == Some(Vertical) <==> n == 1
    ensures DirectionFromInt(n).None? <==> n != 0 && n != 1
    ensures DirectionFromInt(13).None?
    ensures forall d :: DirectionFromInt(DirectionToInt(d)) == Some(d)
  {
  }

  /** The only text effect is the letterpress style, under its host name; other names read back as nil. */
  lemma TextEffectCodec(s: string)
    ensures TextEffectFromString(s) == Some(Letterpress) <==> s == TextEffectLetterpressStyle
    ensures TextEffectToString(Letterpress) == TextEffectLetterpressStyle
    ensures TextEffectFromString("shazooo").None?
  {
  }

  /** Ligatures are stored as 1 (on) or 0 (off); a stored 1 reads as on and every other integer as off. */
  lemma LigatureCodec(n: int)
    ensures LigatureToInt(true) == 1 && LigatureToInt(false) == 0
    ensures LigatureFromInt(n) <==> n == 1
    ensures forall b :: LigatureFromInt(LigatureToInt(b)) == b
  {
  }

  // ---------------------------------------------------------------------------
  // Keys of an encoding

  /** Each key's entry is written exactly when its field (or, for the paragraph key, any paragraph field) is set. */
  lemma EncodeKeyPresent(a: Attributes, k: Key, host: Host)
    ensures EncodeKey(a, k, host).Some? <==> Present(a, k)
    ensures k in Encode(a, host) <==> EncodeKey(a, k, host).Some?
  {
    match k
    case BackgroundColor =>
    case BaselineOffset =>
    case ForegroundColor =>
    case VerticalGlyphForm =>
    case Expansion =>
    case FontKey =>
    case Kern =>
    case Ligature =>
    case ParagraphStyleKey =>
    case StrikethroughStyle =>
    case StrikethroughColor =>
    case StrokeWidth =>
    case StrokeColor =>
    case Obliqueness =>
    case TextEffectKey =>
    case UnderlineStyleKey =>
    case UnderlineColor =>
    case Link =>
    case AttachmentKey =>
  }

  /** The paragraph key is present exactly when some paragraph field is set, and the attachment key never is. */
  lemma EncodeParagraphKey(a: Attributes, host: Host)
    ensures ParagraphStyleKey in Encode(a, host) <==> AnyParagraphSet(a)
    ensures ParagraphStyleKey in Encode(a, host) ==>
              Encode(a, host)[ParagraphStyleKey] == RParagraph(ParagraphOf(a, host))
    ensures AttachmentKey !in Encode(a, host)
  {
  }

  function Count(b: bool): nat {
    if b then 1 else 0
  }

  /** The number of set fields outside the paragraph, plus one when any paragraph field is set. */
  function SetFieldCount(a: Attributes): nat {
    Count(a.backgroundColor.Some?) + Count(a.baseline.Some?) + Count(a.color.Some?)
    + Count(a.direction.Some?) + Count(a.expansion.Some?) + Count(a.font.Some?)
    + Count(a.kern.Some?) + Count(a.ligature.Some?) + Count(AnyParagraphSet(a))
    + Count(a.strikethrough.Some?) + Count(a.strikethroughColor.Some?) + Count(a.stroke.Some?)
    + Count(a.strokeColor.Some?) + Count(a.obliqueness.Some?) + Count(a.textEffect.Some?)
    + Count(a.underline.Some?) + Count(a.underlineColor.Some?) + Count(a.url.Some?)
  }

  /** The keys of the encoder's first `n` steps whose field is set. */
  function PresentKeys(a: Attributes, n: nat): set<Key>
    requires n <= WriteCount
  {
    if n == 0 then {}
    else PresentKeys(a, n - 1) + (if Present(a, WriteKey(n - 1)) then {WriteKey(n - 1)} else {})
  }

  /** How many of the encoder's first `n` steps find their field set. */
  function PresentCount(a: Attributes, n: nat): nat
    requires n <= WriteCount
  {
    if n == 0 then 0 else PresentCount(a, n - 1) + Count(Present(a, WriteKey(n - 1)))
  }

  /** The present keys among the first `n` steps are those written that are present. */
  lemma {:induction false} PresentKeysAre(a: Attributes, n: nat, k: Key)
    requires n <= WriteCount
    ensures k in PresentKeys(a, n) <==> k in WrittenKeys(n) && Present(a, k)
  {
    if n > 0 {
      PresentKeysAre(a, n - 1, k);
    }
  }

  /** A key among the first `n` written is the key of one of the first `n` steps. */
  lemma {:induction false} WrittenKeyIndex(k: Key, n: nat) returns (i: nat)
    requires n <= WriteCount && k in WrittenKeys(n)
    ensures i < n && WriteKey(i) == k
  {
    if k == WriteKey(n - 1) {
      i := n - 1;
    } else {
      i := WrittenKeyIndex(k, n - 1);
    }
  }

  function WriteIndex(k: Key): nat {
    match k
    case BackgroundColor => 0
    case BaselineOffset => 1
    case ForegroundColor => 2
    case VerticalGlyphForm => 3
    case Expansion => 4
    case FontKey => 5
    case Kern => 6
    case Ligature => 7
    case ParagraphStyleKey => 8
    case StrikethroughStyle => 9
    case StrikethroughColor => 10
    case StrokeWidth => 11
    case StrokeColor => 12
    case Obliqueness => 13
    case TextEffectKey => 14
    case UnderlineStyleKey => 15
    case UnderlineColor => 16
    case Link => 17
    case AttachmentKey => 18
  }

  /** No key is written twice. */
  lemma WriteKeyInjective(i: nat, j: nat)
    requires i < WriteCount && j < WriteCount && WriteKey(i) == WriteKey(j)
    ensures i == j
  {
    assert WriteIndex(WriteKey(i)) == i;
    assert WriteIndex(WriteKey(j)) == j;
  }

  /** Step `n` finds its key not yet among those written. */
  lemma WriteKeyIsNew(n: nat)
    requires n < WriteCount
    ensures WriteKey(n) !in WrittenKeys(n)
  {
    if WriteKey(n) in WrittenKeys(n) {
      var i := WrittenKeyIndex(WriteKey(n), n);
      WriteKeyInjective(i, n);
    }
  }

  /** Step `n` finds its key not yet among the keys of the earlier steps. */
  lemma PresentKeyIsNew(a: Attributes, n: nat)
    requires n < WriteCount
    ensures WriteKey(n) !in PresentKeys(a, n)
  {
    PresentKeysAre(a, n, WriteKey(n));
    WriteKeyIsNew(n);
  }

  /** Step `n` adds one key exactly when its field is set. */
  lemma PresentStep(a: Attributes, n: nat)
    requires n < WriteCount
    ensures |PresentKeys(a, n + 1)| == |PresentKeys(a, n)| + Count(Present(a, WriteKey(n)))
  {
    var k := WriteKey(n);
    PresentKeyIsNew(a, n);
    AddNewKey(PresentKeys(a, n), k, Present(a, k));
  }

  /** The present keys among the first `n` steps number as many as the steps whose field is set. */
  lemma {:induction false} PresentKeysCount(a: Attributes, n: nat)
    requires n <= WriteCount
    ensures |PresentKeys(a, n)| == PresentCount(a, n)
  {
    if n > 0 {
      PresentKeysCount(a, n - 1);
      PresentStep(a, n - 1);
    }
  }

  /** Adding a key not yet in a set, when a condition holds, grows the set by one exactly then. */
  lemma AddNewKey(keys: set<Key>, k: Key, b: bool)
    requires k !in keys
    ensures |keys + (if b then {k} else {})| == |keys| + Count(b)
  {
    if !b {
      assert keys + {} == keys;
    }
  }

  /** The keys of an encoding are the present keys over all steps of the encoder. */
  lemma EncodeKeys(a: Attributes, host: Host)
    ensures Encode(a, host).Keys == PresentKeys(a, WriteCount)
  {
    forall k
      ensures k in Encode(a, host) <==> k in PresentKeys(a, WriteCount)
    {
      PresentKeysAre(a, WriteCount, k);
      if k != AttachmentKey {
        WritesAllButAttachment(k);
      }
    }
  }

  /** The count over the encoder's steps before the paragraph style. */
  lemma CountCharacterSteps(a: Attributes)
    ensures PresentCount(a, 8) == Count(a.backgroundColor.Some?) + Count(a.baseline.Some?) + Count(a.color.Some?) + Count(a.direction.Some?) + Count(a.expansion.Some?) + Count(a.font.Some?) + Count(a.kern.Some?) + Count(a.ligature.Some?)
  {
    assert PresentCount(a, 1) == PresentCount(a, 0) + Count(a.backgroundColor.Some?);
    assert PresentCount(a, 2) == PresentCount(a, 1) + Count(a.baseline.Some?);
    assert PresentCount(a, 3) == PresentCount(a, 2) + Count(a.color.Some?);
    assert PresentCount(a, 4) == PresentCount(a, 3) + Count(a.direction.Some?);
    assert PresentCount(a, 5) == PresentCount(a, 4) + Count(a.expansion.Some?);
    assert PresentCount(a, 6) == PresentCount(a, 5) + Count(a.font.Some?);
    assert PresentCount(a, 7) == PresentCount(a, 6) + Count(a.kern.Some?);
    assert PresentCount(a, 8) == PresentCount(a, 7) + Count(a.ligature.Some?);
  }

  /** The count over the paragraph style and the strike-through and stroke steps. */
  lemma CountMiddleSteps(a: Attributes)
    ensures PresentCount(a, 13) == PresentCount(a, 8) + Count(AnyParagraphSet(a)) + Count(a.strikethrough.Some?) + Count(a.strikethroughColor.Some?) + Count(a.stroke.Some?) + Count(a.strokeColor.Some?)
  {
    assert PresentCount(a, 9) == PresentCount(a, 8) + Count(AnyParagraphSet(a));
    assert PresentCount(a, 10) == PresentCount(a, 9) + Count(a.strikethrough.Some?);
    assert PresentCount(a, 11) == PresentCount(a, 10) + Count(a.strikethroughColor.Some?);
    assert PresentCount(a, 12) == PresentCount(a, 11) + Count(a.stroke.Some?);
    assert PresentCount(a, 13) == PresentCount(a, 12) + Count(a.strokeColor.Some?);
  }

  /** The count over the encoder's last steps. */
  lemma CountLastSteps(a: Attributes)
    ensures PresentCount(a, 18) == PresentCount(a, 13) + Count(a.obliqueness.Some?) + Count(a.textEffect.Some?) + Count(a.underline.Some?) + Count(a.underlineColor.Some?) + Count(a.url.Some?)
  {
    assert PresentCount(a, 14) == PresentCount(a, 13) + Count(a.obliqueness.Some?);
    assert PresentCount(a, 15) == PresentCount(a, 14) + Count(a.textEffect.Some?);
    assert PresentCount(a, 16) == PresentCount(a, 15) + Count(a.underline.Some?);
    assert PresentCount(a, 17) == PresentCount(a, 16) + Count(a.underlineColor.Some?);
    assert PresentCount(a, 18) == PresentCount(a, 17) + Count(a.url.Some?);
  }

  /** The encoding holds one entry per set field outside the paragraph, and one for the paragraph if any of its fields is set. */
  lemma EncodeSize(a: Attributes, host: Host)
    ensures |Encode(a, host)| == SetFieldCount(a)
  {
    EncodeKeys(a, host);
    PresentKeysCount(a, WriteCount);
    CountCharacterSteps(a);
    CountMiddleSteps(a);
    CountLastSteps(a);
  }

  // ---------------------------------------------------------------------------
  // Decoding an encoding

  /** nil for a value equal to the default, the value itself otherwise. */
  function Collapse<T(==)>(o: Option<T>, default: T): (r: Option<T>)
    ensures r.Some? <==> o.Some? && o.value != default
    ensures r.Some? ==> r == o
  {
    if o == Some(default) then None else o
  }

  /** The colours read back unchanged. */
  lemma DecodeEncodeColors(a: Attributes, host: Host)
    ensures var b := Decode(Encode(a, host), host);
      && b.backgroundColor == a.backgroundColor
      && b.color == a.color
      && b.strikethroughColor == a.strikethroughColor
      && b.strokeColor == a.strokeColor
      && b.underlineColor == a.underlineColor
  {
    var e := Encode(a, host);
    assert ColorAt(e, BackgroundColor) == a.backgroundColor by { EncodeKeyPresent(a, BackgroundColor, host); }
    assert ColorAt(e, ForegroundColor) == a.color by { EncodeKeyPresent(a, ForegroundColor, host); }
    assert ColorAt(e, StrikethroughColor) == a.strikethroughColor by { EncodeKeyPresent(a, StrikethroughColor, host); }
    assert ColorAt(e, StrokeColor) == a.strokeColor by { EncodeKeyPresent(a, StrokeColor, host); }
    assert ColorAt(e, UnderlineColor) == a.underlineColor by { EncodeKeyPresent(a, UnderlineColor, host); }
  }

  /** The font, the link and the numeric fields stored under their own key read back unchanged. */
  lemma DecodeEncodeValues(a: Attributes, host: Host)
    ensures var b := Decode(Encode(a, host), host);
      && b.font == a.font
      && b.url == a.url
      && b.baseline == a.baseline
      && b.expansion == a.expansion
      && b.kern == a.kern
      && b.obliqueness == a.obliqueness
  {
    var e := Encode(a, host);
    assert FontAt(e, FontKey) == a.font by { EncodeKeyPresent(a, FontKey, host); }
    assert URLAt(e, Link) == a.url by { EncodeKeyPresent(a, Link, host); }
    assert FloatAt(e, BaselineOffset) == a.baseline by { EncodeKeyPresent(a, BaselineOffset, host); }
    assert FloatAt(e, Expansion) == a.expansion by { EncodeKeyPresent(a, Expansion, host); }
    assert FloatAt(e, Kern) == a.kern by { EncodeKeyPresent(a, Kern, host); }
    assert FloatAt(e, Obliqueness) == a.obliqueness by { EncodeKeyPresent(a, Obliqueness, host); }
  }

  /** The fields stored through a one-to-one codec read back unchanged. */
  lemma DecodeEncodeCoded(a: Attributes, host: Host)
    ensures var b := Decode(Encode(a, host), host);
      && b.direction == a.direction
      && b.ligature == a.ligature
      && b.textEffect == a.textEffect
  {
    var e := Encode(a, host);
    assert IntAt(e, VerticalGlyphForm) == if a.direction.Some? then Some(DirectionToInt(a.direction.value)) else None by { EncodeKeyPresent(a, VerticalGlyphForm, host); }
    assert IntAt(e, Ligature) == if a.ligature.Some? then Some(LigatureToInt(a.ligature.value)) else None by { EncodeKeyPresent(a, Ligature, host); }
    assert StringAt(e, TextEffectKey) == if a.textEffect.Some? then Some(TextEffectToString(a.textEffect.value)) else None by { EncodeKeyPresent(a, TextEffectKey, host); }
  }

  /**
   * A stroke reads back as what its signed width means, and an underline or
   * strike-through style only when the host knows its raw value.
   */
  lemma DecodeEncodeStyles(a: Attributes, host: Host)
    ensures var b := Decode(Encode(a, host), host);
      && b.stroke == (if a.stroke.Some? then Some(StrokeFromFloat(StrokeToFloat(a.stroke.value))) else None)
      && b.strikethrough ==
           (if a.strikethrough.Some? then UnderlineStyleFromRaw(a.strikethrough.value.rawValue, host) else None)
      && b.underline == (if a.underline.Some? then UnderlineStyleFromRaw(a.underline.value.rawValue, host) else None)
  {
    var e := Encode(a, host);
    assert FloatAt(e, StrokeWidth) == if a.stroke.Some? then Some(StrokeToFloat(a.stroke.value)) else None by { EncodeKeyPresent(a, StrokeWidth, host); }
    assert IntAt(e, StrikethroughStyle) == if a.strikethrough.Some? then Some(a.strikethrough.value.rawValue) else None by { EncodeKeyPresent(a, StrikethroughStyle, host); }
    assert IntAt(e, UnderlineStyleKey) == if a.underline.Some? then Some(a.underline.value.rawValue) else None by { EncodeKeyPresent(a, UnderlineStyleKey, host); }
  }

  /** The paragraph style read back from an encoding is the merged style, when any paragraph field is set. */
  lemma DecodedParagraph(a: Attributes, host: Host)
    ensures ParagraphAt(Encode(a, host), ParagraphStyleKey)
            == if AnyParagraphSet(a) then Some(ParagraphOf(a, host)) else None
  {
    EncodeKeyPresent(a, ParagraphStyleKey, host);
  }

  /** The alignment, spacing and indent fields of the paragraph read back collapsed to the default. */
  lemma ParagraphCollapseSpacing(a: Attributes, host: Host)
    ensures var b := Decode(Encode(a, host), host);
      var d := host.defaultParagraphStyle;
      && b.alignment == Collapse(a.alignment, d.alignment)
      && b.leading == Collapse(a.leading, d.lineSpacing)
      && b.lineHeightMultiplier == Collapse(a.lineHeightMultiplier, d.lineHeightMultiple)
      && b.paragraphSpacingAfter == Collapse(a.paragraphSpacingAfter, d.paragraphSpacing)
      && b.paragraphSpacingBefore == Collapse(a.paragraphSpacingBefore, d.paragraphSpacingBefore)
      && b.headIndent == Collapse(a.headIndent, d.headIndent)
  {
    DecodedParagraph(a, host);
  }

  /** The remaining paragraph fields read back collapsed to the default; the line-break mode never reads back. */
  lemma ParagraphCollapseLines(a: Attributes, host: Host)
    ensures var b := Decode(Encode(a, host), host);
      var d := host.defaultParagraphStyle;
      && b.lineBreakMode == None
      && b.tailIndent == Collapse(a.tailIndent, d.tailIndent)
      && b.firstLineHeadIndent == Collapse(a.firstLineHeadIndent, d.firstLineHeadIndent)
      && b.minimumLineHeight == Collapse(a.minimumLineHeight, d.minimumLineHeight)
      && b.maximumLineHeight == Collapse(a.maximumLineHeight, d.maximumLineHeight)
      && b.hyphenationFactor == Collapse(a.hyphenationFactor, d.hyphenationFactor)
      && b.allowsTighteningForTruncation ==
           Collapse(a.allowsTighteningForTruncation, d.allowsDefaultTighteningForTruncation)
  {
    DecodedParagraph(a, host);
  }

  /** A record survives encoding then decoding exactly when it is one decoding can produce. */
  lemma RoundTrip(a: Attributes, host: Host)
    ensures Decode(Encode(a, host), host) == a <==> Normalized(a, host)
  {
    if Normalized(a, host) {
      DecodeEncodeColors(a, host);
      DecodeEncodeValues(a, host);
      DecodeEncodeCoded(a, host);
      DecodeEncodeStyles(a, host);
      ParagraphCollapseSpacing(a, host);
      ParagraphCollapseLines(a, host);
      if a.stroke.Some? {
        StrokeRoundTrip(a.stroke.value);
      }
    }
  }

  /** Decoding, encoding and decoding again gives the first decoding. */
  lemma DecodeEncodeDecode(m: RawAttributes, host: Host)
    ensures Decode(Encode(Decode(m, host), host), host) == Decode(m, host)
  {
    RoundTrip(Decode(m, host), host);
  }

  /** The record with no field set encodes to the empty dictionary. */
  lemma ResetEncodesEmpty(host: Host)
    ensures Encode(Empty, host) == map[]
  {
    forall k
      ensures k !in Encode(Empty, host)
    {
      EncodeKeyPresent(Empty, k, host);
    }
  }

  // ---------------------------------------------------------------------------
  // Clearing fields

  /** The record with the fields stored under key `k` unset; for the paragraph key, all paragraph fields. */
  function Clear(a: Attributes, k: Key): Attributes {
    match k
    case BackgroundColor => a.(backgroundColor := None)
    case BaselineOffset => a.(baseline := None)
    case ForegroundColor => a.(color := None)
    case VerticalGlyphForm => a.(direction := None)
    case Expansion => a.(expansion := None)
    case FontKey => a.(font := None)
    case Kern => a.(kern := None)
    case Ligature => a.(ligature := None)
    case ParagraphStyleKey =>
      a.(alignment := None, leading := None, lineBreakMode := None, lineHeightMultiplier := None,
         paragraphSpacingAfter := None, paragraphSpacingBefore := None, headIndent := None,
         tailIndent := None, firstLineHeadIndent := None, minimumLineHeight := None,
         maximumLineHeight := None, hyphenationFactor := None, allowsTighteningForTruncation := None)
    case StrikethroughStyle => a.(strikethrough := None)
    case StrikethroughColor => a.(strikethroughColor := None)
    case StrokeWidth => a.(stroke := None)
    case StrokeColor => a.(strokeColor := None)
    case Obliqueness => a.(obliqueness := None)
    case TextEffectKey => a.(textEffect := None)
    case UnderlineStyleKey => a.(underline := None)
    case UnderlineColor => a.(underlineColor := None)
    case Link => a.(url := None)
    case AttachmentKey => a
  }

  /** The keys written before the paragraph style. */
  predicate CharacterKey(k: Key) {
    || k.BackgroundColor? || k.BaselineOffset? || k.ForegroundColor? || k.VerticalGlyphForm?
    || k.Expansion? || k.FontKey? || k.Kern? || k.Ligature?
  }

  /** The paragraph key and the strike-through and stroke keys. */
  predicate MiddleKey(k: Key) {
    || k.ParagraphStyleKey? || k.StrikethroughStyle? || k.StrikethroughColor?
    || k.StrokeWidth? || k.StrokeColor?
  }

  /** Clearing the fields behind a key written before the paragraph style. */
  lemma ClearCharacterEntry(a: Attributes, host: Host, k: Key, j: Key)
    requires CharacterKey(k)
    ensures EncodeKey(Clear(a, k), j, host) == if j == k then None else EncodeKey(a, j, host)
  {
    match k
    case BackgroundColor =>
    case BaselineOffset =>
    case ForegroundColor =>
    case VerticalGlyphForm =>
    case Expansion =>
    case FontKey =>
    case Kern =>
    case Ligature =>
  }

  /** Clearing the paragraph fields, or the fields behind a strike-through or stroke key. */
  lemma ClearMiddleEntry(a: Attributes, host: Host, k: Key, j: Key)
    requires MiddleKey(k)
    ensures EncodeKey(Clear(a, k), j, host) == if j == k then None else EncodeKey(a, j, host)
  {
    match k
    case ParagraphStyleKey =>
    case StrikethroughStyle =>
    case StrikethroughColor =>
    case StrokeWidth =>
    case StrokeColor =>
  }

  /** Clearing the fields behind one of the last keys, or the attachment key. */
  lemma ClearLastEntry(a: Attributes, host: Host, k: Key, j: Key)
    requires !CharacterKey(k) && !MiddleKey(k)
    ensures EncodeKey(Clear(a, k), j, host) == if j == k then None else EncodeKey(a, j, host)
  {
    match k
    case Obliqueness =>
    case TextEffectKey =>
    case UnderlineStyleKey =>
    case UnderlineColor =>
    case Link =>
    case AttachmentKey =>
  }

  /** Clearing the fields behind one key changes that key's entry to none and no other entry. */
  lemma ClearKeyEntry(a: Attributes, host: Host, k: Key, j: Key)
    ensures EncodeKey(Clear(a, k), j, host) == if j == k then None else EncodeKey(a, j, host)
  {
    if CharacterKey(k) {
      ClearCharacterEntry(a, host, k, j);
    } else if MiddleKey(k) {
      ClearMiddleEntry(a, host, k, j);
    } else {
      ClearLastEntry(a, host, k, j);
    }
  }

  /** Clearing the fields behind one key removes that key from the encoding and keeps every other entry. */
  lemma ClearRemovesKey(a: Attributes, host: Host, k: Key)
    ensures Encode(Clear(a, k), host) == Encode(a, host) - {k}
  {
    var c := Clear(a, k);
    forall j
      ensures j in Encode(c, host) <==> j in Encode(a, host) - {k}
      ensures j in Encode(c, host) ==> Encode(c, host)[j] == Encode(a, host)[j]
    {
      ClearKeyEntry(a, host, k, j);
      EncodeKeyPresent(a, j, host);
      EncodeKeyPresent(c, j, host);
    }
  }
}
