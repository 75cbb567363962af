/**
 * The host text system the builder talks to: the closed set of attribute
 * keys, the type-erased values stored under them, the paragraph style
 * object, and the few host values the core treats as opaque (colours,
 * fonts, links, images).
 */
module Foundation {
  import opened Wrappers

  /** Opaque host values: only their identity (equality) matters here. */
  datatype Color = Color(id: nat)
  datatype Font = Font(id: nat)
  datatype URL = URL(id: nat)
  datatype Image = Image(id: nat)

  /** A rectangle; the geometry is never interpreted. */
  datatype Rect = Rect(x: real, y: real, width: real, height: real)

  /** The empty rectangle at the origin. */
  const ZeroRect: Rect := Rect(0.0, 0.0, 0.0, 0.0)

  /** A text attachment: an image and its bounds (the empty rectangle unless set). */
  datatype Attachment = Attachment(image: Image, bounds: Rect)

  /** An underline or strikethrough style, known by its raw integer value. */
  datatype UnderlineStyle = UnderlineStyle(rawValue: int)

  datatype TextAlignment = Left | Center | Right | Justified | Natural

  datatype LineBreakMode =
    | ByWordWrapping | ByCharWrapping | ByClipping
    | ByTruncatingHead | ByTruncatingTail | ByTruncatingMiddle

  /** The thirteen properties of a paragraph style object that the core reads or writes. */
  datatype ParagraphStyle = ParagraphStyle(
    alignment: TextAlignment,
    lineSpacing: real,
    lineBreakMode: LineBreakMode,
    lineHeightMultiple: real,
    paragraphSpacing: real,
    paragraphSpacingBefore: real,
    headIndent: real,
    tailIndent: real,
    firstLineHeadIndent: real,
    minimumLineHeight: real,
    maximumLineHeight: real,
    hyphenationFactor: real,
    allowsDefaultTighteningForTruncation: bool)

  /**
   * What the host environment supplies: its default paragraph style (a fresh
   * mutable paragraph style starts out equal to it) and the raw values for
   * which its underline-style enumeration has a case.
   */
  datatype Host = Host(defaultParagraphStyle: ParagraphStyle, underlineStyleRawValues: set<int>)

  /** The host's string constant for the letterpress text effect. */
  const TextEffectLetterpressStyle: string := "_UIKitNewLetterpressStyle"

  /** The character an attachment occupies in an attributed string. */
  const AttachmentCharacter: char := '￼'

  /** The attribute keys the core reads or writes. */
  datatype Key =
    | BackgroundColor | BaselineOffset | ForegroundColor | VerticalGlyphForm
    | Expansion | FontKey | Kern | Ligature | ParagraphStyleKey
    | StrikethroughStyle | StrikethroughColor | StrokeWidth | StrokeColor
    | Obliqueness | TextEffectKey | UnderlineStyleKey | UnderlineColor | Link
    | AttachmentKey

  /** A type-erased attribute value, tagged with the host class it belongs to. */
  datatype RawValue =
    | RColor(colorValue: Color)
    | RFloat(floatValue: real)
    | RInt(intValue: int)
    | RFont(fontValue: Font)
    | RParagraph(paragraphValue: ParagraphStyle)
    | RString(stringValue: string)
    | RURL(urlValue: URL)
    | RAttachment(attachmentValue: Attachment)

  /** The attributes of one character. */
  type RawAttributes = map<Key, RawValue>

  /** The underline-style enumeration's failable initialiser from a raw value. */
  function UnderlineStyleFromRaw(raw: int, host: Host): (r: Option<UnderlineStyle>)
    ensures r.Some? <==> raw in host.underlineStyleRawValues
    ensures r.Some? ==> r.value.rawValue == raw
  {
    if raw in host.underlineStyleRawValues then Some(UnderlineStyle(raw)) else None
  }

  /**
   * Dictionary subscript assignment `m[k] = v` with an optional `v`:
   * a value stores it under `k`, nil removes `k`.
   */
  function Put(m: RawAttributes, k: Key, v: Option<RawValue>): (r: RawAttributes)
    ensures k in r <==> v.Some?
    ensures v.Some? ==> r[k] == v.value
    ensures r - {k} == m - {k}
  {
    if v.Some? then m[k := v.value] else m - {k}
  }

  /** The entries of `m` whose keys are in `keys`. */
  function Only(m: RawAttributes, keys: set<Key>): (r: RawAttributes)
    ensures forall k :: k in r <==> k in m && k in keys
    ensures forall k :: k in r ==> r[k] == m[k]
  {
    map k | k in m && k in keys :: m[k]
  }

  /** Writing the entry of `e` for `k` into the part of `e` for `keys` extends that part by `k`. */
  lemma PutOnly(e: RawAttributes, keys: set<Key>, k: Key, v: Option<RawValue>)
    requires v.Some? <==> k in e
    requires v.Some? ==> v.value == e[k]
    ensures Put(Only(e, keys), k, v) == Only(e, keys + {k})
  {
  }

  /** Restricting to a set of keys that holds all of a dictionary's keys keeps all of it. */
  lemma OnlyAll(m: RawAttributes, keys: set<Key>)
    requires forall k :: k in m ==> k in keys
    ensures Only(m, keys) == m
  {
  }

  // Conditional casts `m[k] as? T`: a value is read only when it carries the expected tag.

  function ColorAt(m: RawAttributes, k: Key): Option<Color> {
    if k in m && m[k].RColor? then Some(m[k].colorValue) else None
  }

  function FloatAt(m: RawAttributes, k: Key): Option<real> {
    if k in m && m[k].RFloat? then Some(m[k].floatValue) else None
  }

  function IntAt(m: RawAttributes, k: Key): Option<int> {
    if k in m && m[k].RInt? then Some(m[k].intValue) else None
  }

  function FontAt(m: RawAttributes, k: Key): Option<Font> {
    if k in m && m[k].RFont? then Some(m[k].fontValue) else None
  }

  function ParagraphAt(m: RawAttributes, k: Key): Option<ParagraphStyle> {
    if k in m && m[k].RParagraph? then Some(m[k].paragraphValue) else None
  }

  function StringAt(m: RawAttributes, k: Key): Option<string> {
    if k in m && m[k].RString? then Some(m[k].stringValue) else None
  }

  function URLAt(m: RawAttributes, k: Key): Option<URL> {
    if k in m && m[k].RURL? then Some(m[k].urlValue) else None
  }

  // Bridging an optional typed value to an optional type-erased one.

  function ColorValue(o: Option<Color>): Option<RawValue> {
    if o.Some? then Some(RColor(o.value)) else None
  }

  function FloatValue(o: Option<real>): Option<RawValue> {
    if o.Some? then Some(RFloat(o.value)) else None
  }

  function IntValue(o: Option<int>): Option<RawValue> {
    if o.Some? then Some(RInt(o.value)) else None
  }

  function FontValue(o: Option<Font>): Option<RawValue> {
    if o.Some? then Some(RFont(o.value)) else None
  }

  function StringValue(o: Option<string>): Option<RawValue> {
    if o.Some? then Some(RString(o.value)) else None
  }

  function URLValue(o: Option<URL>): Option<RawValue> {
    if o.Some? then Some(RURL(o.value)) else None
  }
}
