/**
 * The typed style record `Attributes` and its two mappings to and from the
 * host's type-erased attribute dictionary.
 *
 * `Encode` and `Decode` are the specification functions; `BuildRawAttributes`,
 * `RetrieveParagraph`, `IsAnyNotNil` and `Reset` are the step-by-step
 * operations of the source, each proved against them.
 */
module Tribute {
  import opened Wrappers
  import opened Foundation

  datatype TextEffect = Letterpress

  datatype GlyphDirection = Vertical | Horizontal

  /** Outline only, or filled; in both cases with a stroke width. */
  datatype Stroke = NotFilled(width: real) | Filled(width: real)

  /** One style state: every field is optional, nil meaning "not set". */
  datatype Attributes = Attributes(
    alignment: Option<TextAlignment>,
    backgroundColor: Option<Color>,
    baseline: Option<real>,
    color: Option<Color>,
    direction: Option<GlyphDirection>,
    expansion: Option<real>,
    font: Option<Font>,
    kern: Option<real>,
    leading: Option<real>,
    ligature: Option<bool>,
    obliqueness: Option<real>,
    strikethrough: Option<UnderlineStyle>,
    strikethroughColor: Option<Color>,
    stroke: Option<Stroke>,
    strokeColor: Option<Color>,
    textEffect: Option<TextEffect>,
    underline: Option<UnderlineStyle>,
    underlineColor: Option<Color>,
    url: Option<URL>,
    lineBreakMode: Option<LineBreakMode>,
    lineHeightMultiplier: Option<real>,
    paragraphSpacingAfter: Option<real>,
    paragraphSpacingBefore: Option<real>,
    headIndent: Option<real>,
    tailIndent: Option<real>,
    firstLineHeadIndent: Option<real>,
    minimumLineHeight: Option<real>,
    maximumLineHeight: Option<real>,
    hyphenationFactor: Option<real>,
    allowsTighteningForTruncation: Option<bool>)

  /** The record with no field set (the struct's implicit initialiser). */
  const Empty: Attributes :=
    Attributes(None, None, None, None, None, None, None, None, None, None,
               None, None, None, None, None, None, None, None, None, None,
               None, None, None, None, None, None, None, None, None, None)

  // ---------------------------------------------------------------------------
  // Value codecs

  function TextEffectFromString(s: string): (r: Option<TextEffect>)
    ensures r.Some? <==> s == TextEffectLetterpressStyle
  {
    if s == TextEffectLetterpressStyle then Some(Letterpress) else None
  }

  function TextEffectToString(e: TextEffect): (r: string)
    ensures TextEffectFromString(r) == Some(e)
  {
    match e
    case Letterpress => TextEffectLetterpressStyle
  }

  /** Stroke width as the host stores it: negative means filled. */
  function StrokeToFloat(s: Stroke): (r: real)
    ensures r == s.width || r == -s.width
    ensures s.width > 0.0 ==> (r < 0.0 <==> s.Filled?)
  {
    match s
    case NotFilled(w) => w
    case Filled(w) => -w
  }

  function StrokeFromFloat(x: real): (r: Stroke)
    ensures StrokeToFloat(r) == x
    ensures r.Filled? <==> x < 0.0
    ensures r.width >= 0.0
    ensures CanonicalStroke(r)
  {
    if x < 0.0 then Filled(-x) else NotFilled(x)
  }

  /** The strokes that survive a trip through the host's signed width. */
  predicate CanonicalStroke(s: Stroke) {
    if s.Filled? then s.width > 0.0 else s.width >= 0.0
  }

  function DirectionFromInt(n: int): (r: Option<GlyphDirection>)
    ensures r.Some? <==> n == 0 || n == 1
  {
    match n
    case 0 => Some(Horizontal)
    case 1 => Some(Vertical)
    case _ => None
  }

  function DirectionToInt(d: GlyphDirection): (r: int)
    ensures r == 0 || r == 1
    ensures DirectionFromInt(r) == Some(d)
  {
    match d
    case Horizontal => 0
    case Vertical => 1
  }

  /** Ligature is stored as an integer, and only 1 reads back as enabled. */
  function LigatureFromInt(n: int): (r: bool)
    ensures r <==> n == 1
  {
    n == 1
  }

  function LigatureToInt(b: bool): (r: int)
    ensures r == 0 || r == 1
    ensures LigatureFromInt(r) == b
  {
    if b then 1 else 0
  }

  // ---------------------------------------------------------------------------
  // The paragraph style

  /** At least one of the thirteen paragraph fields is set. */
  predicate AnyParagraphSet(a: Attributes) {
    || a.leading.Some? || a.alignment.Some? || a.lineBreakMode.Some?
    || a.lineHeightMultiplier.Some? || a.paragraphSpacingAfter.Some?
    || a.paragraphSpacingBefore.Some? || a.headIndent.Some? || a.tailIndent.Some?
    || a.firstLineHeadIndent.Some? || a.minimumLineHeight.Some?
    || a.maximumLineHeight.Some? || a.hyphenationFactor.Some?
    || a.allowsTighteningForTruncation.Some?
  }

  /**
   * The paragraph style the encoder attaches: the host default, with every
   * paragraph field that is set written over it.
   */
  function ParagraphOf(a: Attributes, host: Host): ParagraphStyle {
    var d := host.defaultParagraphStyle;
    ParagraphStyle(
      alignment := a.alignment.GetOr(d.alignment),
      lineSpacing := a.leading.GetOr(d.lineSpacing),
      lineBreakMode := a.lineBreakMode.GetOr(d.lineBreakMode),
      lineHeightMultiple := a.lineHeightMultiplier.GetOr(d.lineHeightMultiple),
      paragraphSpacing := a.paragraphSpacingAfter.GetOr(d.paragraphSpacing),
      paragraphSpacingBefore := a.paragraphSpacingBefore.GetOr(d.paragraphSpacingBefore),
      headIndent := a.headIndent.GetOr(d.headIndent),
      tailIndent := a.tailIndent.GetOr(d.tailIndent),
      firstLineHeadIndent := a.firstLineHeadIndent.GetOr(d.firstLineHeadIndent),
      minimumLineHeight := a.minimumLineHeight.GetOr(d.minimumLineHeight),
      maximumLineHeight := a.maximumLineHeight.GetOr(d.maximumLineHeight),
      hyphenationFactor := a.hyphenationFactor.GetOr(d.hyphenationFactor),
      allowsDefaultTighteningForTruncation :=
        a.allowsTighteningForTruncation.GetOr(d.allowsDefaultTighteningForTruncation))
  }

  /** A paragraph field passed, type-erased, to `IsAnyNotNil`. */
  datatype ParagraphValue =
    | AlignmentArgument(alignmentValue: TextAlignment)
    | NumberArgument(numberValue: real)
    | LineBreakArgument(lineBreakValue: LineBreakMode)
    | FlagArgument(flagValue: bool)

  function NumberArgumentOf(o: Option<real>): Option<ParagraphValue> {
    if o.Some? then Some(NumberArgument(o.value)) else None
  }

  /** The thirteen paragraph fields, in the order the encoder passes them to `IsAnyNotNil`. */
  function ParagraphArguments(a: Attributes): seq<Option<ParagraphValue>> {
    [ NumberArgumentOf(a.leading),
      if a.alignment.Some? then Some(AlignmentArgument(a.alignment.value)) else None,
      if a.lineBreakMode.Some? then Some(LineBreakArgument(a.lineBreakMode.value)) else None,
      NumberArgumentOf(a.lineHeightMultiplier),
      NumberArgumentOf(a.paragraphSpacingAfter),
      NumberArgumentOf(a.paragraphSpacingBefore),
      NumberArgumentOf(a.headIndent),
      NumberArgumentOf(a.tailIndent),
      NumberArgumentOf(a.firstLineHeadIndent),
      NumberArgumentOf(a.minimumLineHeight),
      NumberArgumentOf(a.maximumLineHeight),
      NumberArgumentOf(a.hyphenationFactor),
      if a.allowsTighteningForTruncation.Some?
      then Some(FlagArgument(a.allowsTighteningForTruncation.value)) else None ]
  }

  lemma ParagraphArgumentsSet(a: Attributes)
    ensures (exists o :: o in ParagraphArguments(a) && o.Some?) <==> AnyParagraphSet(a)
  {
    var args := ParagraphArguments(a);
    if AnyParagraphSet(a) {
      var o: Option<ParagraphValue> :| o in args && o.Some? by {
        if a.leading.Some? { assert args[0] in args; }
        else if a.alignment.Some? { assert args[1] in args; }
        else if a.lineBreakMode.Some? { assert args[2] in args; }
        else if a.lineHeightMultiplier.Some? { assert args[3] in args; }
        else if a.paragraphSpacingAfter.Some? { assert args[4] in args; }
        else if a.paragraphSpacingBefore.Some? { assert args[5] in args; }
        else if a.headIndent.Some? { assert args[6] in args; }
        else if a.tailIndent.Some? { assert args[7] in args; }
        else if a.firstLineHeadIndent.Some? { assert args[8] in args; }
        else if a.minimumLineHeight.Some? { assert args[9] in args; }
        else if a.maximumLineHeight.Some? { assert args[10] in args; }
        else if a.hyphenationFactor.Some? { assert args[11] in args; }
        else { assert args[12] in args; }
      }
    }
  }

  /** Whether any of the given optionals holds a value (a loop with an early return). */
  method IsAnyNotNil<T>(objects: seq<Option<T>>) returns (found: bool)
    ensures found <==> exists o :: o in objects && o.Some?
  {
    for i := 0 to |objects|
      invariant forall j :: 0 <= j < i ==> objects[j].None?
    {
      if objects[i].Some? {
        return true;
      }
    }
    return false;
  }

  /**
   * The paragraph style to attach, or none when no paragraph field is set.
   * A fresh mutable paragraph style starts at the host default and is then
   * overwritten field by field.
   */
  method RetrieveParagraph(a: Attributes, host: Host) returns (paragraph: Option<ParagraphStyle>)
    ensures paragraph.Some? <==> AnyParagraphSet(a)
    ensures paragraph.Some? ==> paragraph.value == ParagraphOf(a, host)
  {
    var any := IsAnyNotNil(ParagraphArguments(a));
    ParagraphArgumentsSet(a);
    if !any {
      return None;
    }
    // A fresh paragraph style holds the host defaults; each set field then
    // overwrites its property, an unset one leaves it as it is. The source
    // writes the line spacing twice; the second write changes nothing.
    var p := host.defaultParagraphStyle;
    p := p.(lineSpacing := a.leading.GetOr(p.lineSpacing));
    p := p.(lineSpacing := a.leading.GetOr(p.lineSpacing));
    p := p.(alignment := a.alignment.GetOr(p.alignment));
    p := p.(lineBreakMode := a.lineBreakMode.GetOr(p.lineBreakMode));
    p := p.(lineHeightMultiple := a.lineHeightMultiplier.GetOr(p.lineHeightMultiple));
    p := p.(paragraphSpacing := a.paragraphSpacingAfter.GetOr(p.paragraphSpacing));
    p := p.(paragraphSpacingBefore := a.paragraphSpacingBefore.GetOr(p.paragraphSpacingBefore));
    p := p.(headIndent := a.headIndent.GetOr(p.headIndent));
    p := p.(tailIndent := a.tailIndent.GetOr(p.tailIndent));
    p := p.(firstLineHeadIndent := a.firstLineHeadIndent.GetOr(p.firstLineHeadIndent));
    p := p.(minimumLineHeight := a.minimumLineHeight.GetOr(p.minimumLineHeight));
    p := p.(maximumLineHeight := a.maximumLineHeight.GetOr(p.maximumLineHeight));
    p := p.(hyphenationFactor := a.hyphenationFactor.GetOr(p.hyphenationFactor));
    p := p.(allowsDefaultTighteningForTruncation :=
              a.allowsTighteningForTruncation.GetOr(p.allowsDefaultTighteningForTruncation));
    return Some(p);
  }

  // ---------------------------------------------------------------------------
  // Encoding

  /** Whether the encoding of `a` carries key `k`. */
  predicate Present(a: Attributes, k: Key) {
    match k
    case BackgroundColor => a.backgroundColor.Some?
    case BaselineOffset => a.baseline.Some?
    case ForegroundColor => a.color.Some?
    case VerticalGlyphForm => a.direction.Some?
    case Expansion => a.expansion.Some?
    case FontKey => a.font.Some?
    case Kern => a.kern.Some?
    case Ligature => a.ligature.Some?
    case ParagraphStyleKey => AnyParagraphSet(a)
    case StrikethroughStyle => a.strikethrough.Some?
    case StrikethroughColor => a.strikethroughColor.Some?
    case StrokeWidth => a.stroke.Some?
    case StrokeColor => a.strokeColor.Some?
    case Obliqueness => a.obliqueness.Some?
    case TextEffectKey => a.textEffect.Some?
    case UnderlineStyleKey => a.underline.Some?
    case UnderlineColor => a.underlineColor.Some?
    case Link => a.url.Some?
    case AttachmentKey => false
  }

  /** The value the encoding of `a` stores under `k`, if any. */
  function EncodeKey(a: Attributes, k: Key, host: Host): (r: Option<RawValue>)
    ensures r.Some? <==> Present(a, k)
  {
    match k
    case BackgroundColor => ColorValue(a.backgroundColor)
    case BaselineOffset => FloatValue(a.baseline)
    case ForegroundColor => ColorValue(a.color)
    case VerticalGlyphForm =>
      IntValue(if a.direction.Some? then Some(DirectionToInt(a.direction.value)) else None)
    case Expansion => FloatValue(a.expansion)
    case FontKey => FontValue(a.font)
    case Kern => FloatValue(a.kern)
    case Ligature =>
      if a.ligature.Some? then Some(RInt(LigatureToInt(a.ligature.value))) else None
    case ParagraphStyleKey =>
      if AnyParagraphSet(a) then Some(RParagraph(ParagraphOf(a, host))) else None
    case StrikethroughStyle =>
      IntValue(if a.strikethrough.Some? then Some(a.strikethrough.value.rawValue) else None)
    case StrikethroughColor => ColorValue(a.strikethroughColor)
    case StrokeWidth =>
      FloatValue(if a.stroke.Some? then Some(StrokeToFloat(a.stroke.value)) else None)
    case StrokeColor => ColorValue(a.strokeColor)
    case Obliqueness => FloatValue(a.obliqueness)
    case TextEffectKey =>
      StringValue(if a.textEffect.Some? then Some(TextEffectToString(a.textEffect.value)) else None)
    case UnderlineStyleKey =>
      IntValue(if a.underline.Some? then Some(a.underline.value.rawValue) else None)
    case UnderlineColor => ColorValue(a.underlineColor)
    case Link => URLValue(a.url)
    case AttachmentKey => None
  }

  const AllKeys: set<Key> := {
    BackgroundColor, BaselineOffset, ForegroundColor, VerticalGlyphForm,
    Expansion, FontKey, Kern, Ligature, ParagraphStyleKey,
    StrikethroughStyle, StrikethroughColor, StrokeWidth, StrokeColor,
    Obliqueness, TextEffectKey, UnderlineStyleKey, UnderlineColor, Link,
    AttachmentKey }

  lemma AllKeysComplete(k: Key)
    ensures k in AllKeys
  {
  }

  /** The attribute dictionary of `a`: one entry per key whose field is set. */
  function Encode(a: Attributes, host: Host): (r: RawAttributes)
    ensures forall k :: k in r <==> Present(a, k)
    ensures forall k :: k in r ==> Some(r[k]) == EncodeKey(a, k, host)
  {
    var r := map k | k in AllKeys && EncodeKey(a, k, host).Some? :: EncodeKey(a, k, host).value;
    forall k ensures k in r <==> Present(a, k) {
      AllKeysComplete(k);
    }
    r
  }

  /** How many keys the encoder writes. */
  const WriteCount: nat := 18

  /** The key the encoder writes at step `i`. */
  function WriteKey(i: nat): Key
    requires i < WriteCount
  {
    match i
    case 0 => BackgroundColor
    case 1 => BaselineOffset
    case 2 => ForegroundColor
    case 3 => VerticalGlyphForm
    case 4 => Expansion
    case 5 => FontKey
    case 6 => Kern
    case 7 => Ligature
    case 8 => ParagraphStyleKey
    case 9 => StrikethroughStyle
    case 10 => StrikethroughColor
    case 11 => StrokeWidth
    case 12 => StrokeColor
    case 13 => Obliqueness
    case 14 => TextEffectKey
    case 15 => UnderlineStyleKey
    case 16 => UnderlineColor
    case _ => Link
  }

  /** The dictionary after the encoder's first `n` writes. */
  function Written(a: Attributes, host: Host, n: nat): RawAttributes
    requires n <= WriteCount
  {
    if n == 0 then map[]
    else Put(Written(a, host, n - 1), WriteKey(n - 1), EncodeKey(a, WriteKey(n - 1), host))
  }

  /** The keys among the encoder's first `n` writes. */
  function WrittenKeys(n: nat): (r: set<Key>)
    requires n <= WriteCount
  {
    if n == 0 then {} else WrittenKeys(n - 1) + {WriteKey(n - 1)}
  }

  /** Each of the first `n` keys is among those written. */
  lemma {:induction false} WrittenKeysHold(i: nat, n: nat)
    requires i < n <= WriteCount
    ensures WriteKey(i) in WrittenKeys(n)
  {
    if i < n - 1 {
      WrittenKeysHold(i, n - 1);
    }
  }

  /** After `n` writes the dictionary is the encoding's part for the first `n` keys. */
  lemma {:induction false} WrittenIsPart(a: Attributes, host: Host, n: nat)
    requires n <= WriteCount
    ensures Written(a, host, n) == Only(Encode(a, host), WrittenKeys(n))
  {
    var e := Encode(a, host);
    if n == 0 {
      assert Only(e, {}) == map[];
    } else {
      var k := WriteKey(n - 1);
      WrittenIsPart(a, host, n - 1);
      AllKeysComplete(k);
      PutOnly(e, WrittenKeys(n - 1), k, EncodeKey(a, k, host));
    }
  }

  /** The encoder writes every key but the attachment key. */
  lemma WritesAllButAttachment(k: Key)
    requires k != AttachmentKey
    ensures k in WrittenKeys(WriteCount)
  {
    match k
    case BackgroundColor => WrittenKeysHold(0, WriteCount); assert WriteKey(0) == k;
    case BaselineOffset => WrittenKeysHold(1, WriteCount); assert WriteKey(1) == k;
    case ForegroundColor => WrittenKeysHold(2, WriteCount); assert WriteKey(2) == k;
    case VerticalGlyphForm => WrittenKeysHold(3, WriteCount); assert WriteKey(3) == k;
    case Expansion => WrittenKeysHold(4, WriteCount); assert WriteKey(4) == k;
    case FontKey => WrittenKeysHold(5, WriteCount); assert WriteKey(5) == k;
    case Kern => WrittenKeysHold(6, WriteCount); assert WriteKey(6) == k;
    case Ligature => WrittenKeysHold(7, WriteCount); assert WriteKey(7) == k;
    case ParagraphStyleKey => WrittenKeysHold(8, WriteCount); assert WriteKey(8) == k;
    case StrikethroughStyle => WrittenKeysHold(9, WriteCount); assert WriteKey(9) == k;
    case StrikethroughColor => WrittenKeysHold(10, WriteCount); assert WriteKey(10) == k;
    case StrokeWidth => WrittenKeysHold(11, WriteCount); assert WriteKey(11) == k;
    case StrokeColor => WrittenKeysHold(12, WriteCount); assert WriteKey(12) == k;
    case Obliqueness => WrittenKeysHold(13, WriteCount); assert WriteKey(13) == k;
    case TextEffectKey => WrittenKeysHold(14, WriteCount); assert WriteKey(14) == k;
    case UnderlineStyleKey => WrittenKeysHold(15, WriteCount); assert WriteKey(15) == k;
    case UnderlineColor => WrittenKeysHold(16, WriteCount); assert WriteKey(16) == k;
    case Link => WrittenKeysHold(17, WriteCount); assert WriteKey(17) == k;
  }

  /** The encoding never holds an attachment: only the image builder adds one. */
  lemma EncodeNoAttachment(a: Attributes, host: Host)
    ensures AttachmentKey !in Encode(a, host)
  {
    assert !Present(a, AttachmentKey);
  }

  /** The encoder writes every key but the attachment. */
  lemma WritesAllKeysButAttachment()
    ensures forall k :: k != AttachmentKey ==> k in WrittenKeys(WriteCount)
  {
    forall k | k != AttachmentKey
      ensures k in WrittenKeys(WriteCount)
    {
      WritesAllButAttachment(k);
    }
  }

  /** After all its writes the dictionary is the whole encoding. */
  lemma WrittenAll(a: Attributes, host: Host)
    ensures Written(a, host, WriteCount) == Encode(a, host)
  {
    WrittenIsPart(a, host, WriteCount);
    EncodeNoAttachment(a, host);
    WritesAllKeysButAttachment();
    OnlyAll(Encode(a, host), WrittenKeys(WriteCount));
  }

  /**
   * One assignment of the encoder, `m[k] = v` for the key `k` of its step
   * `n`: an entry for `k` when `v` has a value, none otherwise. The
   * dictionary grows from the encoder's first `n` writes to its first `n + 1`.
   */
  method Write(ghost a: Attributes, ghost host: Host, n: nat,
               m: RawAttributes, v: Option<RawValue>) returns (r: RawAttributes)
    requires n < WriteCount
    requires m == Written(a, host, n) && v == EncodeKey(a, WriteKey(n), host)
    ensures r == Written(a, host, n + 1)
  {
    r := Put(m, WriteKey(n), v);
  }

  /** The paragraph entry the encoder writes is the one the encoding holds. */
  lemma ParagraphEntry(a: Attributes, host: Host, paragraph: Option<ParagraphStyle>)
    requires paragraph.Some? <==> AnyParagraphSet(a)
    requires paragraph.Some? ==> paragraph.value == ParagraphOf(a, host)
    ensures EncodeKey(a, WriteKey(8), host) == if paragraph.Some? then Some(RParagraph(paragraph.value)) else None
  {
  }

  /** The entries for the keys written before the paragraph style. */
  lemma CharacterEntries(a: Attributes, host: Host)
    ensures EncodeKey(a, WriteKey(0), host) == ColorValue(a.backgroundColor)
    ensures EncodeKey(a, WriteKey(1), host) == FloatValue(a.baseline)
    ensures EncodeKey(a, WriteKey(2), host) == ColorValue(a.color)
    ensures EncodeKey(a, WriteKey(3), host) == IntValue(if a.direction.Some? then Some(DirectionToInt(a.direction.value)) else None)
    ensures EncodeKey(a, WriteKey(4), host) == FloatValue(a.expansion)
    ensures EncodeKey(a, WriteKey(5), host) == FontValue(a.font)
    ensures EncodeKey(a, WriteKey(6), host) == FloatValue(a.kern)
    ensures EncodeKey(a, WriteKey(7), host) == if a.ligature.Some? then Some(RInt(LigatureToInt(a.ligature.value))) else None
  {
  }

  /** The encoder's writes before the paragraph style. */
  method WriteCharacterKeys(a: Attributes, host: Host, m: RawAttributes) returns (r: RawAttributes)
    requires m == Written(a, host, 0)
    ensures r == Written(a, host, 8)
  {
    CharacterEntries(a, host);
    r := m;
    r := Write(a, host, 0, r, ColorValue(a.backgroundColor));  // BackgroundColor
    r := Write(a, host, 1, r, FloatValue(a.baseline));  // BaselineOffset
    r := Write(a, host, 2, r, ColorValue(a.color));  // ForegroundColor
    r := Write(a, host, 3, r, IntValue(if a.direction.Some? then Some(DirectionToInt(a.direction.value)) else None));  // VerticalGlyphForm
    r := Write(a, host, 4, r, FloatValue(a.expansion));  // Expansion
    r := Write(a, host, 5, r, FontValue(a.font));  // FontKey
    r := Write(a, host, 6, r, FloatValue(a.kern));  // Kern
    r := Write(a, host, 7, r, if a.ligature.Some? then Some(RInt(LigatureToInt(a.ligature.value))) else None);  // Ligature
  }

  /** The entries for the first keys written after the paragraph style. */
  lemma DecorationEntries(a: Attributes, host: Host)
    ensures EncodeKey(a, WriteKey(9), host) == IntValue(if a.strikethrough.Some? then Some(a.strikethrough.value.rawValue) else None)
    ensures EncodeKey(a, WriteKey(10), host) == ColorValue(a.strikethroughColor)
    ensures EncodeKey(a, WriteKey(11), host) == FloatValue(if a.stroke.Some? then Some(StrokeToFloat(a.stroke.value)) else None)
    ensures EncodeKey(a, WriteKey(12), host) == ColorValue(a.strokeColor)
  {
  }

  /** The entries for the last keys the encoder writes. */
  lemma LastEntries(a: Attributes, host: Host)
    ensures EncodeKey(a, WriteKey(13), host) == FloatValue(a.obliqueness)
    ensures EncodeKey(a, WriteKey(14), host) == StringValue(if a.textEffect.Some? then Some(TextEffectToString(a.textEffect.value)) else None)
    ensures EncodeKey(a, WriteKey(15), host) == IntValue(if a.underline.Some? then Some(a.underline.value.rawValue) else None)
    ensures EncodeKey(a, WriteKey(16), host) == ColorValue(a.underlineColor)
    ensures EncodeKey(a, WriteKey(17), host) == URLValue(a.url)
  {
  }

  /** The encoder's writes after the paragraph style. */
  method WriteDecorationKeys(a: Attributes, host: Host, m: RawAttributes) returns (r: RawAttributes)
    requires m == Written(a, host, 9)
    ensures r == Written(a, host, 18)
  {
    DecorationEntries(a, host);
    LastEntries(a, host);
    r := m;
    r := Write(a, host, 9, r, IntValue(if a.strikethrough.Some? then Some(a.strikethrough.value.rawValue) else None));  // StrikethroughStyle
    r := Write(a, host, 10, r, ColorValue(a.strikethroughColor));  // StrikethroughColor
    r := Write(a, host, 11, r, FloatValue(if a.stroke.Some? then Some(StrokeToFloat(a.stroke.value)) else None));  // StrokeWidth
    r := Write(a, host, 12, r, ColorValue(a.strokeColor));  // StrokeColor
    r := Write(a, host, 13, r, FloatValue(a.obliqueness));  // Obliqueness
    r := Write(a, host, 14, r, StringValue(if a.textEffect.Some? then Some(TextEffectToString(a.textEffect.value)) else None));  // TextEffectKey
    r := Write(a, host, 15, r, IntValue(if a.underline.Some? then Some(a.underline.value.rawValue) else None));  // UnderlineStyleKey
    r := Write(a, host, 16, r, ColorValue(a.underlineColor));  // UnderlineColor
    r := Write(a, host, 17, r, URLValue(a.url));  // Link
  }

  /** The source's encoder: key by key into an initially empty dictionary. */
  method BuildRawAttributes(a: Attributes, host: Host) returns (result: RawAttributes)
    ensures result == Encode(a, host)
  {
    result := map[];
    result := WriteCharacterKeys(a, host, result);
    var paragraph := RetrieveParagraph(a, host);
    ParagraphEntry(a, host, paragraph);
    result := Write(a, host, 8, result, if paragraph.Some? then Some(RParagraph(paragraph.value)) else None);  // ParagraphStyleKey
    result := WriteDecorationKeys(a, host, result);
    WrittenAll(a, host);
  }

  // ---------------------------------------------------------------------------
  // Decoding

  /** A paragraph property, or nil when it equals the host default's. */
  function ParaStyleCompare<U(==)>(paragraph: ParagraphStyle, defaultParagraph: ParagraphStyle,
                                   trans: ParagraphStyle -> U): (r: Option<U>)
    ensures r.Some? <==> trans(paragraph) != trans(defaultParagraph)
    ensures r.Some? ==> r.value == trans(paragraph)
  {
    var x := trans(paragraph);
    var y := trans(defaultParagraph);
    if x == y then None else Some(x)
  }

  /**
   * The records decoding can produce: a canonical stroke, underline styles
   * the host knows, no line-break mode, and no paragraph field equal to the
   * host default.
   */
  predicate Normalized(a: Attributes, host: Host) {
    var d := host.defaultParagraphStyle;
    && (a.stroke.Some? ==> CanonicalStroke(a.stroke.value))
    && (a.strikethrough.Some? ==> a.strikethrough.value.rawValue in host.underlineStyleRawValues)
    && (a.underline.Some? ==> a.underline.value.rawValue in host.underlineStyleRawValues)
    && a.lineBreakMode.None?
    && a.alignment != Some(d.alignment)
    && a.leading != Some(d.lineSpacing)
    && a.lineHeightMultiplier != Some(d.lineHeightMultiple)
    && a.paragraphSpacingAfter != Some(d.paragraphSpacing)
    && a.paragraphSpacingBefore != Some(d.paragraphSpacingBefore)
    && a.headIndent != Some(d.headIndent)
    && a.tailIndent != Some(d.tailIndent)
    && a.firstLineHeadIndent != Some(d.firstLineHeadIndent)
    && a.minimumLineHeight != Some(d.minimumLineHeight)
    && a.maximumLineHeight != Some(d.maximumLineHeight)
    && a.hyphenationFactor != Some(d.hyphenationFactor)
    && a.allowsTighteningForTruncation != Some(d.allowsDefaultTighteningForTruncation)
  }

  /** The record initialised from an attribute dictionary. */
  function Decode(m: RawAttributes, host: Host): (a: Attributes)
    ensures Normalized(a, host)
  {
    var d := host.defaultParagraphStyle;
    var paragraph := ParagraphAt(m, ParagraphStyleKey);
    var direction := IntAt(m, VerticalGlyphForm);
    var ligature := IntAt(m, Ligature);
    var strikethrough := IntAt(m, StrikethroughStyle);
    var strokeWidth := FloatAt(m, StrokeWidth);
    var textEffect := StringAt(m, TextEffectKey);
    var underline := IntAt(m, UnderlineStyleKey);
    Attributes(
      alignment :=
        if paragraph.Some? then ParaStyleCompare(paragraph.value, d, (s: ParagraphStyle) => s.alignment) else None,
      backgroundColor := ColorAt(m, BackgroundColor),
      baseline := FloatAt(m, BaselineOffset),
      color := ColorAt(m, ForegroundColor),
      direction := if direction.Some? then DirectionFromInt(direction.value) else None,
      expansion := FloatAt(m, Expansion),
      font := FontAt(m, FontKey),
      kern := FloatAt(m, Kern),
      leading :=
        if paragraph.Some? then ParaStyleCompare(paragraph.value, d, (s: ParagraphStyle) => s.lineSpacing) else None,
      ligature := if ligature.Some? then Some(LigatureFromInt(ligature.value)) else None,
      obliqueness := FloatAt(m, Obliqueness),
      strikethrough :=
        if strikethrough.Some? then UnderlineStyleFromRaw(strikethrough.value, host) else None,
      strikethroughColor := ColorAt(m, StrikethroughColor),
      stroke := if strokeWidth.Some? then Some(StrokeFromFloat(strokeWidth.value)) else None,
      strokeColor := ColorAt(m, StrokeColor),
      textEffect := if textEffect.Some? then TextEffectFromString(textEffect.value) else None,
      underline := if underline.Some? then UnderlineStyleFromRaw(underline.value, host) else None,
      underlineColor := ColorAt(m, UnderlineColor),
      url := URLAt(m, Link),
      // The line-break mode is encoded but never decoded.
      lineBreakMode := None,
      lineHeightMultiplier :=
        if paragraph.Some? then ParaStyleCompare(paragraph.value, d, (s: ParagraphStyle) => s.lineHeightMultiple) else None,
      paragraphSpacingAfter :=
        if paragraph.Some? then ParaStyleCompare(paragraph.value, d, (s: ParagraphStyle) => s.paragraphSpacing) else None,
      paragraphSpacingBefore :=
        if paragraph.Some? then ParaStyleCompare(paragraph.value, d, (s: ParagraphStyle) => s.paragraphSpacingBefore) else None,
      headIndent :=
        if paragraph.Some? then ParaStyleCompare(paragraph.value, d, (s: ParagraphStyle) => s.headIndent) else None,
      tailIndent :=
        if paragraph.Some? then ParaStyleCompare(paragraph.value, d, (s: ParagraphStyle) => s.tailIndent) else None,
      firstLineHeadIndent :=
        if paragraph.Some? then ParaStyleCompare(paragraph.value, d, (s: ParagraphStyle) => s.firstLineHeadIndent) else None,
      minimumLineHeight :=
        if paragraph.Some? then ParaStyleCompare(paragraph.value, d, (s: ParagraphStyle) => s.minimumLineHeight) else None,
      maximumLineHeight :=
        if paragraph.Some? then ParaStyleCompare(paragraph.value, d, (s: ParagraphStyle) => s.maximumLineHeight) else None,
      hyphenationFactor :=
        if paragraph.Some? then ParaStyleCompare(paragraph.value, d, (s: ParagraphStyle) => s.hyphenationFactor) else None,
      allowsTighteningForTruncation :=
        if paragraph.Some?
        then ParaStyleCompare(paragraph.value, d, (s: ParagraphStyle) => s.allowsDefaultTighteningForTruncation)
        else None)
  }

  // ---------------------------------------------------------------------------
  // Reset

  /** The source's in-place reset of a record: every field is cleared in turn. */
  method Reset(a: Attributes) returns (r: Attributes)
    ensures r == Empty
  {
    r := a;
    r := r.(backgroundColor := None);
    r := r.(baseline := None);
    r := r.(color := None);
    r := r.(direction := None);
    r := r.(expansion := None);
    r := r.(font := None);
    r := r.(ligature := None);
    r := r.(kern := None);
    r := r.(obliqueness := None);
    r := r.(alignment := None);
    r := r.(leading := None);
    r := r.(strikethrough := None);
    r := r.(strikethroughColor := None);
    r := r.(stroke := None);
    r := r.(strokeColor := None);
    r := r.(textEffect := None);
    r := r.(underline := None);
    r := r.(underlineColor := None);
    r := r.(url := None);
    r := r.(lineBreakMode := None);
    r := r.(lineHeightMultiplier := None);
    r := r.(paragraphSpacingAfter := None);
    r := r.(paragraphSpacingBefore := None);
    r := r.(headIndent := None);
    r := r.(tailIndent := None);
    r := r.(firstLineHeadIndent := None);
    r := r.(minimumLineHeight := None);
    r := r.(maximumLineHeight := None);
    r := r.(hyphenationFactor := None);
    r := r.(allowsTighteningForTruncation := None);
  }
}
