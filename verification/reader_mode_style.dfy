/**
 * The reader-mode style: colour theme, font type and font size, its
 * three-key dictionary form (as stored in the profile preferences), and the
 * rule by which the app-wide theme overrides the reader's own theme.
 */
module ReaderModeStyles {
  import opened Wrappers
  import opened Values

  /** The reader's colour theme. */
  datatype Theme = Light | Sepia | Dark

  /** The theme the whole app is drawn in, passed explicitly instead of read from the theme manager. */
  datatype AppTheme = AppLight | AppDark

  /** A font type, carried by its raw string; which strings name a font type is up to a `FontCatalogue`. */
  datatype FontType = FontType(raw: string)

  /** A font size, carried by its raw integer; which integers name a size is up to a `FontCatalogue`. */
  datatype FontSize = FontSize(raw: int)

  /**
   * What the font-type and font-size enumerations provide, left uninterpreted:
   * which raw values are cases, the family relation between font types, the
   * default size, one step smaller and bigger, and the two ends of the scale.
   */
  datatype FontCatalogue = FontCatalogue(
    isFontType: string -> bool,
    isSameFamily: (FontType, FontType) -> bool,
    isFontSize: int -> bool,
    defaultSize: FontSize,
    smaller: FontSize -> FontSize,
    bigger: FontSize -> FontSize,
    isSmallest: FontSize -> bool,
    isLargest: FontSize -> bool)

  /** An enumeration keeps its values among its cases: the default size is one, and stepping stays on the scale. */
  ghost predicate ClosedCatalogue(cat: FontCatalogue)
  {
    && cat.isFontSize(cat.defaultSize.raw)
    && (forall s: FontSize :: cat.isFontSize(s.raw) ==> cat.isFontSize(cat.smaller(s).raw))
    && (forall s: FontSize :: cat.isFontSize(s.raw) ==> cat.isFontSize(cat.bigger(s).raw))
  }

  /** The style; the datatype's constructor is the memberwise initializer. */
  datatype ReaderModeStyle = ReaderModeStyle(theme: Theme, fontType: FontType, fontSize: FontSize)

  /** A style whose font type and size are cases of their enumerations, as every Swift value is. */
  predicate IsCase(cat: FontCatalogue, s: ReaderModeStyle)
  {
    cat.isFontType(s.fontType.raw) && cat.isFontSize(s.fontSize.raw)
  }

  // ---------------------------------------------------------------------------
  // Raw values of the theme

  function ThemeRaw(t: Theme): string
  {
    match t
    case Light => "light"
    case Sepia => "sepia"
    case Dark => "dark"
  }

  /** `ReaderModeTheme(rawValue:)`: the theme whose raw value is `s`, if any. */
  function ThemeFromRaw(s: string): (r: Option<Theme>)
    ensures forall t :: r == Some(t) <==> ThemeRaw(t) == s
  {
    if s == "light" then Some(Light)
    else if s == "sepia" then Some(Sepia)
    else if s == "dark" then Some(Dark)
    else None
  }

  // ---------------------------------------------------------------------------
  // Dictionary codec

  const ThemeKey: string := "theme"
  const FontTypeKey: string := "fontType"
  const FontSizeKey: string := "fontSize"

  /** `encodeAsDictionary()`: three entries, each the raw value of one field. */
  function Encode(s: ReaderModeStyle): (d: map<string, Value>)
    ensures d.Keys == {ThemeKey, FontTypeKey, FontSizeKey}
    ensures d[ThemeKey].StringValue? && ThemeFromRaw(d[ThemeKey].s) == Some(s.theme)
    ensures d[FontTypeKey] == StringValue(s.fontType.raw)
    ensures d[FontSizeKey] == IntValue(s.fontSize.raw)
  {
    map[ThemeKey := StringValue(ThemeRaw(s.theme)),
        FontTypeKey := StringValue(s.fontType.raw),
        FontSizeKey := IntValue(s.fontSize.raw)]
  }

  /** `d[key] as? String`. */
  function StringEntry(d: map<string, Value>, key: string): Option<string>
  {
    if key in d && d[key].StringValue? then Some(d[key].s) else None
  }

  /** `d[key] as? Int`. */
  function IntEntry(d: map<string, Value>, key: string): Option<int>
  {
    if key in d && d[key].IntValue? then Some(d[key].i) else None
  }

  /**
   * `init?(dict:)`: the three entries must be present with the right types
   * and hold raw values of cases; anything else fails. Other keys are ignored.
   */
  function Decode(cat: FontCatalogue, d: map<string, Value>): (r: Option<ReaderModeStyle>)
    ensures r.Some? ==> IsCase(cat, r.value)
    ensures r.Some? ==>
              && ThemeKey in d && FontTypeKey in d && FontSizeKey in d
              && d[ThemeKey] == StringValue(ThemeRaw(r.value.theme))
              && d[FontTypeKey] == StringValue(r.value.fontType.raw)
              && d[FontSizeKey] == IntValue(r.value.fontSize.raw)
    ensures ThemeKey !in d || FontTypeKey !in d || FontSizeKey !in d ==> r == None
  {
    var theme := StringEntry(d, ThemeKey);
    var fontType := StringEntry(d, FontTypeKey);
    var fontSize := IntEntry(d, FontSizeKey);
    if theme.None? || fontType.None? || fontSize.None? then None
    else
      var t := ThemeFromRaw(theme.value);
      if t.None? || !cat.isFontType(fontType.value) || !cat.isFontSize(fontSize.value) then None
      else Some(ReaderModeStyle(t.value, FontType(fontType.value), FontSize(fontSize.value)))
  }

  // ---------------------------------------------------------------------------
  // Theme preference

  /**
   * `ReaderModeTheme.preferredTheme(for:)`: a dark app forces the dark reader
   * theme; otherwise the requested theme wins, light when none is requested.
   */
  function PreferredTheme(requested: Option<Theme>, app: AppTheme): Theme
  {
    if app == AppDark then Dark else requested.GetOr(Light)
  }

  /** `ensurePreferredColorThemeIfNeeded()`: replace the theme by the preferred one for it. */
  function EnsurePreferredColorTheme(s: ReaderModeStyle, app: AppTheme): (r: ReaderModeStyle)
    ensures r.fontType == s.fontType && r.fontSize == s.fontSize
    ensures app == AppDark ==> r.theme == Dark
    ensures app == AppLight ==> r == s
  {
    s.(theme := PreferredTheme(Some(s.theme), app))
  }

  // ---------------------------------------------------------------------------
  // Properties

  /** Every theme survives the trip through its raw value. */
  lemma ThemeRawRoundTrip(t: Theme)
    ensures ThemeFromRaw(ThemeRaw(t)) == Some(t)
  {
  }

  /** Decoding an encoded style gives the style back. */
  lemma DecodeEncode(cat: FontCatalogue, s: ReaderModeStyle)
    requires IsCase(cat, s)
    ensures Decode(cat, Encode(s)) == Some(s)
  {
  }

  /** A dictionary that decodes agrees, on the three keys, with the encoding of what it decodes to. */
  lemma EncodeDecode(cat: FontCatalogue, d: map<string, Value>)
    requires Decode(cat, d).Some?
    ensures forall k :: k in Encode(Decode(cat, d).value) ==> k in d && d[k] == Encode(Decode(cat, d).value)[k]
  {
  }

  /** Decoding succeeds exactly on dictionaries whose three entries are raw values of cases. */
  lemma DecodeSucceedsIff(cat: FontCatalogue, d: map<string, Value>)
    ensures Decode(cat, d).Some? <==>
              && ThemeKey in d && d[ThemeKey].StringValue? && ThemeFromRaw(d[ThemeKey].s).Some?
              && FontTypeKey in d && d[FontTypeKey].StringValue? && cat.isFontType(d[FontTypeKey].s)
              && FontSizeKey in d && d[FontSizeKey].IntValue? && cat.isFontSize(d[FontSizeKey].i)
  {
  }

  /** The empty dictionary does not decode. */
  lemma DecodeEmptyFails(cat: FontCatalogue)
    ensures Decode(cat, map[]) == None
  {
  }

  /**
   * A dictionary without a theme entry does not decode, whatever else it
   * holds (as with a misspelled key and enum values instead of raw values).
   */
  lemma DecodeWithoutThemeFails(cat: FontCatalogue, d: map<string, Value>)
    requires ThemeKey !in d
    ensures Decode(cat, d) == None
  {
  }

  /** The preferred theme is dark exactly when the app is dark or dark is requested. */
  lemma PreferredThemeDarkIff(requested: Option<Theme>, app: AppTheme)
    ensures PreferredTheme(requested, app) == Dark <==> app == AppDark || requested == Some(Dark)
    ensures app == AppLight && requested.Some? ==> PreferredTheme(requested, app) == requested.value
  {
  }

  /** The four pinned cases: light app keeps the default light and an explicit sepia; dark app turns light and sepia dark. */
  lemma PreferredThemeCases()
    ensures PreferredTheme(None, AppLight) == Light
    ensures PreferredTheme(Some(Sepia), AppLight) == Sepia
    ensures PreferredTheme(Some(Light), AppDark) == Dark
    ensures PreferredTheme(Some(Sepia), AppDark) == Dark
  {
  }

  /** Asking again for the preferred theme of a preferred theme changes nothing. */
  lemma PreferredThemeIdempotent(requested: Option<Theme>, app: AppTheme)
    ensures PreferredTheme(Some(PreferredTheme(requested, app)), app) == PreferredTheme(requested, app)
  {
  }

  /** Adjusting a style twice is adjusting it once, and a light style under a dark app becomes dark. */
  lemma EnsurePreferredColorThemeProperties(s: ReaderModeStyle, app: AppTheme)
    ensures EnsurePreferredColorTheme(EnsurePreferredColorTheme(s, app), app) == EnsurePreferredColorTheme(s, app)
    ensures s.theme == Light && app == AppDark ==> EnsurePreferredColorTheme(s, app).theme == Dark
  {
  }
}
