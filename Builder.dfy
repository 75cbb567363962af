/**
 * The fluent builder over a mutable attributed string: each call appends a
 * span styled by the attributes in force at the end of the string, after an
 * optional setter has edited them, and returns the same string.
 *
 * The string is kept as its characters and, for each character, the
 * attribute dictionary applied to it.
 */
module Builder {
  import opened Wrappers
  import opened Foundation
  import opened Tribute
  import opened TributeProperties

  /** A setter edits the record in place; nil means no edit. */
  function ApplySetter(setter: Option<Attributes -> Attributes>, a: Attributes): (r: Attributes)
    ensures setter.None? ==> r == a
    ensures setter.Some? ==> r == setter.value(a)
  {
    if setter.Some? then setter.value(a) else a
  }

  /**
   * The dictionary of an image span: the attachment's own entry, with the
   * attributes `raw` added over it.
   */
  function ImageSpan(attachment: Attachment, raw: RawAttributes): (r: RawAttributes)
    ensures forall k :: k in r <==> k == AttachmentKey || k in raw
    ensures forall k :: k in raw ==> r[k] == raw[k]
    ensures AttachmentKey !in raw ==> r[AttachmentKey] == RAttachment(attachment)
  {
    map[AttachmentKey := RAttachment(attachment)] + raw
  }

  /** The span of an image styled by `a` holds the attachment and, beside it, exactly the encoding of `a`. */
  lemma ImageSpanOfEncoding(attachment: Attachment, a: Attributes, host: Host)
    ensures ImageSpan(attachment, Encode(a, host)) == Encode(a, host)[AttachmentKey := RAttachment(attachment)]
    ensures |ImageSpan(attachment, Encode(a, host))| == |Encode(a, host)| + 1
  {
    EncodeParagraphKey(a, host);
    var e := Encode(a, host);
    var r := ImageSpan(attachment, e);
    assert r.Keys == e.Keys + {AttachmentKey};
    assert r == e[AttachmentKey := RAttachment(attachment)];
  }

  /**
   * The decoder reads nothing from the attachment entry, so a span's
   * attachment is never carried over to the next span.
   */
  lemma AttachmentNotInherited(m: RawAttributes, v: RawValue, host: Host)
    ensures Decode(m[AttachmentKey := v], host) == Decode(m, host)
  {
    var n := m[AttachmentKey := v];
    assert ColorAt(n, BackgroundColor) == ColorAt(m, BackgroundColor);
    assert ColorAt(n, ForegroundColor) == ColorAt(m, ForegroundColor);
    assert ColorAt(n, StrikethroughColor) == ColorAt(m, StrikethroughColor);
    assert ColorAt(n, StrokeColor) == ColorAt(m, StrokeColor);
    assert ColorAt(n, UnderlineColor) == ColorAt(m, UnderlineColor);
    assert FloatAt(n, BaselineOffset) == FloatAt(m, BaselineOffset);
    assert FloatAt(n, Expansion) == FloatAt(m, Expansion);
    assert FloatAt(n, Kern) == FloatAt(m, Kern);
    assert FloatAt(n, Obliqueness) == FloatAt(m, Obliqueness);
    assert FloatAt(n, StrokeWidth) == FloatAt(m, StrokeWidth);
    assert IntAt(n, VerticalGlyphForm) == IntAt(m, VerticalGlyphForm);
    assert IntAt(n, Ligature) == IntAt(m, Ligature);
    assert IntAt(n, StrikethroughStyle) == IntAt(m, StrikethroughStyle);
    assert IntAt(n, UnderlineStyleKey) == IntAt(m, UnderlineStyleKey);
    assert FontAt(n, FontKey) == FontAt(m, FontKey);
    assert ParagraphAt(n, ParagraphStyleKey) == ParagraphAt(m, ParagraphStyleKey);
    assert StringAt(n, TextEffectKey) == StringAt(m, TextEffectKey);
    assert URLAt(n, Link) == URLAt(m, Link);
  }

  /** An image span decodes to the record its attributes decode to, as a text span does. */
  lemma ImageSpanDecodes(attachment: Attachment, raw: RawAttributes, host: Host)
    ensures Decode(ImageSpan(attachment, raw), host) == Decode(raw, host)
  {
    var v := if AttachmentKey in raw then raw[AttachmentKey] else RAttachment(attachment);
    assert ImageSpan(attachment, raw) == raw[AttachmentKey := v];
    AttachmentNotInherited(raw, v, host);
  }

  /** The record with no field set is one that decoding produces. */
  lemma EmptyNormalized(host: Host)
    ensures Normalized(Empty, host)
  {
  }

  class MutableAttributedString {
    /** The characters of the string. */
    var text: string
    /** The attribute dictionary of each character. */
    var attributes: seq<RawAttributes>

    ghost predicate Valid()
      reads this
    {
      |text| == |attributes|
    }

    /** An empty string. */
    constructor()
      ensures Valid() && text == [] && attributes == []
    {
      text := [];
      attributes := [];
    }

    /** The attributes of the last character, nil for an empty string. */
    function RunningAttributes(): (r: Option<RawAttributes>)
      reads this
      requires Valid()
      ensures r.None? <==> |text| == 0
      ensures r.Some? ==> r.value == attributes[|attributes| - 1]
    {
      if |text| > 0 then Some(attributes[|text| - 1]) else None
    }

    /** The record decoded from the running attributes, or the empty record for an empty string. */
    function RunningOrNewAttributes(host: Host): (r: Attributes)
      reads this
      requires Valid()
      ensures |text| == 0 ==> r == Empty
      ensures |text| > 0 ==> r == Decode(attributes[|attributes| - 1], host)
      ensures Normalized(r, host)
    {
      var running := RunningAttributes();
      if running.Some? then Decode(running.value, host) else (EmptyNormalized(host); Empty)
    }

    /** Appends `t`, every character carrying the dictionary `span`. */
    method Append(t: string, span: RawAttributes, ghost host: Host)
      requires Valid()
      modifies this
      ensures Valid()
      ensures text == old(text) + t
      ensures attributes == old(attributes) + seq(|t|, _ => span)
      ensures |t| > 0 ==> RunningAttributes() == Some(span)
      ensures |t| > 0 ==> RunningOrNewAttributes(host) == Decode(span, host)
      ensures |t| == 0 ==> RunningOrNewAttributes(host) == old(RunningOrNewAttributes(host))
    {
      text := text + t;
      attributes := attributes + seq(|t|, _ => span);
    }

    /** Appends `t`, every character with the encoding of `a`; returns this string. */
    method AddWithAttributes(t: string, a: Attributes, host: Host) returns (r: MutableAttributedString)
      requires Valid()
      modifies this
      ensures Valid() && r == this
      ensures text == old(text) + t
      ensures attributes == old(attributes) + seq(|t|, _ => Encode(a, host))
      ensures |t| > 0 ==> RunningOrNewAttributes(host) == Decode(Encode(a, host), host)
    {
      var raw := BuildRawAttributes(a, host);
      Append(t, raw, host);
      r := this;
    }

    /**
     * Appends `t` styled by the running attributes as edited by `setter`;
     * with no setter the running attributes stay as they were.
     */
    method AddText(t: string, setter: Option<Attributes -> Attributes>, host: Host)
      returns (r: MutableAttributedString)
      requires Valid()
      modifies this
      ensures Valid() && r == this
      ensures text == old(text) + t
      ensures var a := ApplySetter(setter, old(RunningOrNewAttributes(host)));
              attributes == old(attributes) + seq(|t|, _ => Encode(a, host))
      ensures setter.None? ==> RunningOrNewAttributes(host) == old(RunningOrNewAttributes(host))
    {
      var a := RunningOrNewAttributes(host);
      if setter.Some? {
        a := setter.value(a);
      } else {
        RoundTrip(a, host);
      }
      r := AddWithAttributes(t, a, host);
    }

    /**
     * Appends one attachment character holding `image` (and `bounds` when
     * given), styled by the running attributes as edited by `setter`; the
     * attachment itself is not carried to later spans.
     */
    method AddImage(image: Image, bounds: Option<Rect>, setter: Option<Attributes -> Attributes>, host: Host)
      returns (r: MutableAttributedString)
      requires Valid()
      modifies this
      ensures Valid() && r == this
      ensures text == old(text) + [AttachmentCharacter]
      ensures var a := ApplySetter(setter, old(RunningOrNewAttributes(host)));
              && attributes == old(attributes) + [ImageSpan(Attachment(image, bounds.GetOr(ZeroRect)), Encode(a, host))]
              && RunningOrNewAttributes(host) == Decode(Encode(a, host), host)
      ensures setter.None? ==> RunningOrNewAttributes(host) == old(RunningOrNewAttributes(host))
    {
      var a := RunningOrNewAttributes(host);
      if setter.Some? {
        a := setter.value(a);
      } else {
        RoundTrip(a, host);
      }
      var attachment := Attachment(image, ZeroRect);
      if bounds.Some? {
        attachment := attachment.(bounds := bounds.value);
      }
      var raw := BuildRawAttributes(a, host);
      // The attachment string carries the attachment entry; the attributes are added over it.
      var span := ImageSpan(attachment, raw);
      ImageSpanDecodes(attachment, raw, host);
      Append([AttachmentCharacter], span, host);
      r := this;
    }
  }
}
