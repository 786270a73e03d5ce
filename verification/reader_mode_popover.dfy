/**
 * The reader-mode style popover with its views taken away: the style being
 * edited, the "user picked a colour" latch, and the selected / enabled flags
 * of the buttons, updated by the tap handlers, each of which tells the
 * delegate (when there is one) about the new style.
 */
module ReaderModeStylePopover {
  import opened Wrappers
  import opened Values
  import opened ReaderModeStyles

  datatype FontTypeButton = FontTypeButton(fontType: FontType, isSelected: bool)

  datatype FontSizeAction = Smaller | Reset | Bigger

  datatype FontSizeButton = FontSizeButton(fontSizeAction: FontSizeAction, isEnabled: bool)

  /** A theme button shows its theme in the current font type. */
  datatype ThemeButton = ThemeButton(readerModeTheme: Theme, fontType: FontType)

  /**
   * The controller's state. `fontSizeLabelFontType` is the font type of the
   * size label; `hasDelegate` says whether a delegate is attached.
   */
  datatype Popover = Popover(
    style: ReaderModeStyle,
    isUsingUserDefinedColor: bool,
    fontTypeButtons: seq<FontTypeButton>,
    fontSizeButtons: seq<FontSizeButton>,
    themeButtons: seq<ThemeButton>,
    fontSizeLabelFontType: FontType,
    hasDelegate: bool)

  /** The delegate call `didConfigureStyle:isUsingUserDefinedColor:`. */
  datatype StyleNotice = StyleNotice(style: ReaderModeStyle, isUsingUserDefinedColor: bool)

  /** The state after a handler, and the delegate call it made, if any. */
  datatype Reaction = Reaction(popover: Popover, notice: Option<StyleNotice>)

  /** A tap on a button, carrying what the handler reads from that button. */
  datatype Event =
    | FontTypeTapped(fontType: FontType)
    | FontSizeTapped(action: FontSizeAction)
    | ThemeTapped(theme: Theme)

  /** The script a tab runs; only the reader-mode script has a style. */
  datatype ContentScript = ReaderMode(style: ReaderModeStyle) | OtherScript(name: string)

  /** `delegate?.readerModeStyleViewController(...)`: nothing happens without a delegate. */
  function Notify(p: Popover, isUsingUserDefinedColor: bool): (n: Option<StyleNotice>)
    ensures n.Some? <==> p.hasDelegate
    ensures n.Some? ==> n.value.style == p.style && n.value.isUsingUserDefinedColor == isUsingUserDefinedColor
  {
    if p.hasDelegate then Some(StyleNotice(p.style, isUsingUserDefinedColor)) else None
  }

  // ---------------------------------------------------------------------------
  // Button updates

  /** Selects exactly the font-type buttons of the same family as `fontType`. */
  function MarkFamily(cat: FontCatalogue, buttons: seq<FontTypeButton>, fontType: FontType): (r: seq<FontTypeButton>)
    ensures |r| == |buttons|
    ensures forall i :: 0 <= i < |r| ==> r[i].fontType == buttons[i].fontType
    ensures forall i :: 0 <= i < |r| ==> r[i].isSelected == cat.isSameFamily(buttons[i].fontType, fontType)
  {
    if |buttons| == 0 then []
    else [buttons[0].(isSelected := cat.isSameFamily(buttons[0].fontType, fontType))]
         + MarkFamily(cat, buttons[1..], fontType)
  }

  /** Gives every theme button the font type `fontType`. */
  function RetypeThemeButtons(buttons: seq<ThemeButton>, fontType: FontType): (r: seq<ThemeButton>)
    ensures |r| == |buttons|
    ensures forall i :: 0 <= i < |r| ==> r[i].readerModeTheme == buttons[i].readerModeTheme
    ensures forall i :: 0 <= i < |r| ==> r[i].fontType == fontType
  {
    if |buttons| == 0 then []
    else [buttons[0].(fontType := fontType)] + RetypeThemeButtons(buttons[1..], fontType)
  }

  /**
   * Enables "bigger" unless `size` is the largest and "smaller" unless it is
   * the smallest; "reset" buttons are left as they are.
   */
  function RefreshSizeButtons(cat: FontCatalogue, buttons: seq<FontSizeButton>, size: FontSize): (r: seq<FontSizeButton>)
    ensures |r| == |buttons|
    ensures forall i :: 0 <= i < |r| ==> r[i].fontSizeAction == buttons[i].fontSizeAction
    ensures forall i :: 0 <= i < |r| && buttons[i].fontSizeAction == Bigger ==> r[i].isEnabled == !cat.isLargest(size)
    ensures forall i :: 0 <= i < |r| && buttons[i].fontSizeAction == Smaller ==> r[i].isEnabled == !cat.isSmallest(size)
    ensures forall i :: 0 <= i < |r| && buttons[i].fontSizeAction == Reset ==> r[i] == buttons[i]
  {
    if |buttons| == 0 then []
    else
      var b := buttons[0];
      var b' := match b.fontSizeAction
        case Bigger => b.(isEnabled := !cat.isLargest(size))
        case Smaller => b.(isEnabled := !cat.isSmallest(size))
        case Reset => b;
      [b'] + RefreshSizeButtons(cat, buttons[1..], size)
  }

  // ---------------------------------------------------------------------------
  // Handlers

  /** `selectFontType(_:)`: store the font type and bring the buttons and the label in line with it. */
  function SelectFontType(cat: FontCatalogue, p: Popover, fontType: FontType): (r: Popover)
    ensures r.style == p.style.(fontType := fontType)
    ensures r.isUsingUserDefinedColor == p.isUsingUserDefinedColor && r.hasDelegate == p.hasDelegate
    ensures r.fontSizeButtons == p.fontSizeButtons
    ensures |r.fontTypeButtons| == |p.fontTypeButtons| && |r.themeButtons| == |p.themeButtons|
    ensures forall i :: 0 <= i < |r.fontTypeButtons| ==> r.fontTypeButtons[i].fontType == p.fontTypeButtons[i].fontType
    ensures forall i :: 0 <= i < |r.fontTypeButtons| ==>
              r.fontTypeButtons[i].isSelected == cat.isSameFamily(p.fontTypeButtons[i].fontType, fontType)
    ensures forall i :: 0 <= i < |r.themeButtons| ==> r.themeButtons[i].readerModeTheme == p.themeButtons[i].readerModeTheme
    ensures forall i :: 0 <= i < |r.themeButtons| ==> r.themeButtons[i].fontType == fontType
    ensures r.fontSizeLabelFontType == fontType
  {
    p.(style := p.style.(fontType := fontType),
       fontTypeButtons := MarkFamily(cat, p.fontTypeButtons, fontType),
       themeButtons := RetypeThemeButtons(p.themeButtons, fontType),
       fontSizeLabelFontType := fontType)
  }

  /** `changeFontType(_:)`: select the tapped font type, then report the style with the current colour latch. */
  function ChangeFontType(cat: FontCatalogue, p: Popover, fontType: FontType): (r: Reaction)
    ensures r.popover.style.fontType == fontType
    ensures r.popover.style.theme == p.style.theme && r.popover.style.fontSize == p.style.fontSize
    ensures r.popover.isUsingUserDefinedColor == p.isUsingUserDefinedColor
    ensures r.popover.fontSizeButtons == p.fontSizeButtons && r.popover.hasDelegate == p.hasDelegate
    ensures |r.popover.fontTypeButtons| == |p.fontTypeButtons|
    ensures forall i :: 0 <= i < |r.popover.fontTypeButtons| ==>
              r.popover.fontTypeButtons[i].fontType == p.fontTypeButtons[i].fontType
    ensures forall i :: 0 <= i < |r.popover.fontTypeButtons| ==>
              r.popover.fontTypeButtons[i].isSelected == cat.isSameFamily(p.fontTypeButtons[i].fontType, fontType)
    ensures |r.popover.themeButtons| == |p.themeButtons|
    ensures forall i :: 0 <= i < |r.popover.themeButtons| ==>
              r.popover.themeButtons[i].readerModeTheme == p.themeButtons[i].readerModeTheme
    ensures forall i :: 0 <= i < |r.popover.themeButtons| ==> r.popover.themeButtons[i].fontType == fontType
    ensures r.popover.fontSizeLabelFontType == fontType
    ensures r.notice == (if p.hasDelegate then Some(StyleNotice(r.popover.style, p.isUsingUserDefinedColor)) else None)
  {
    var p' := SelectFontType(cat, p, fontType);
    Reaction(p', Notify(p', p'.isUsingUserDefinedColor))
  }

  /** `updateFontSizeButtons()`. */
  function UpdateFontSizeButtons(cat: FontCatalogue, p: Popover): (r: Popover)
    ensures r == p.(fontSizeButtons := r.fontSizeButtons)
    ensures |r.fontSizeButtons| == |p.fontSizeButtons|
    ensures forall i :: 0 <= i < |r.fontSizeButtons| ==>
              r.fontSizeButtons[i].fontSizeAction == p.fontSizeButtons[i].fontSizeAction
    ensures forall i :: 0 <= i < |r.fontSizeButtons| && p.fontSizeButtons[i].fontSizeAction == Bigger ==>
              r.fontSizeButtons[i].isEnabled == !cat.isLargest(p.style.fontSize)
    ensures forall i :: 0 <= i < |r.fontSizeButtons| && p.fontSizeButtons[i].fontSizeAction == Smaller ==>
              r.fontSizeButtons[i].isEnabled == !cat.isSmallest(p.style.fontSize)
    ensures forall i :: 0 <= i < |r.fontSizeButtons| && p.fontSizeButtons[i].fontSizeAction == Reset ==>
              r.fontSizeButtons[i].isEnabled == p.fontSizeButtons[i].isEnabled
  {
    p.(fontSizeButtons := RefreshSizeButtons(cat, p.fontSizeButtons, p.style.fontSize))
  }

  /** The size one tap of `action` leads to from `size`. */
  function ResizedFont(cat: FontCatalogue, size: FontSize, action: FontSizeAction): FontSize
  {
    match action
    case Smaller => cat.smaller(size)
    case Bigger => cat.bigger(size)
    case Reset => cat.defaultSize
  }

  /** `changeFontSize(_:)`: step or reset the size, refresh the size buttons, report. */
  function ChangeFontSize(cat: FontCatalogue, p: Popover, action: FontSizeAction): (r: Reaction)
    ensures action == Reset ==> r.popover.style.fontSize == cat.defaultSize
    ensures action == Smaller ==> r.popover.style.fontSize == cat.smaller(p.style.fontSize)
    ensures action == Bigger ==> r.popover.style.fontSize == cat.bigger(p.style.fontSize)
    ensures r.popover.style.theme == p.style.theme && r.popover.style.fontType == p.style.fontType
    ensures r.popover.isUsingUserDefinedColor == p.isUsingUserDefinedColor
    ensures r.popover == p.(style := r.popover.style, fontSizeButtons := r.popover.fontSizeButtons)
    ensures |r.popover.fontSizeButtons| == |p.fontSizeButtons|
    ensures forall i :: 0 <= i < |r.popover.fontSizeButtons| ==>
              r.popover.fontSizeButtons[i].fontSizeAction == p.fontSizeButtons[i].fontSizeAction
    ensures forall i :: 0 <= i < |r.popover.fontSizeButtons| && p.fontSizeButtons[i].fontSizeAction == Bigger ==>
              r.popover.fontSizeButtons[i].isEnabled == !cat.isLargest(r.popover.style.fontSize)
    ensures forall i :: 0 <= i < |r.popover.fontSizeButtons| && p.fontSizeButtons[i].fontSizeAction == Smaller ==>
              r.popover.fontSizeButtons[i].isEnabled == !cat.isSmallest(r.popover.style.fontSize)
    ensures forall i :: 0 <= i < |r.popover.fontSizeButtons| && p.fontSizeButtons[i].fontSizeAction == Reset ==>
              r.popover.fontSizeButtons[i] == p.fontSizeButtons[i]
    ensures r.notice == (if p.hasDelegate then Some(StyleNotice(r.popover.style, p.isUsingUserDefinedColor)) else None)
  {
    var p' := p.(style := p.style.(fontSize := ResizedFont(cat, p.style.fontSize, action)));
    var p'' := UpdateFontSizeButtons(cat, p');
    Reaction(p'', Notify(p'', p''.isUsingUserDefinedColor))
  }

  /** `changeTheme(_:)`: store the tapped theme, latch the user-defined colour, report with the latch set. */
  function ChangeTheme(p: Popover, theme: Theme): (r: Reaction)
    ensures r.popover.style.theme == theme
    ensures r.popover.style.fontType == p.style.fontType && r.popover.style.fontSize == p.style.fontSize
    ensures r.popover.isUsingUserDefinedColor
    ensures r.popover == p.(style := r.popover.style, isUsingUserDefinedColor := true)
    ensures r.notice == (if p.hasDelegate then Some(StyleNotice(r.popover.style, true)) else None)
  {
    var p' := p.(style := p.style.(theme := theme), isUsingUserDefinedColor := true);
    Reaction(p', Notify(p', true))
  }

  /** One tap, dispatched to its handler. */
  function Step(cat: FontCatalogue, p: Popover, e: Event): (r: Reaction)
    ensures r.popover.hasDelegate == p.hasDelegate
    ensures r.notice.Some? <==> p.hasDelegate
    ensures r.notice.Some? ==> r.notice.value == StyleNotice(r.popover.style, r.popover.isUsingUserDefinedColor)
  {
    match e
    case FontTypeTapped(f) => ChangeFontType(cat, p, f)
    case FontSizeTapped(a) => ChangeFontSize(cat, p, a)
    case ThemeTapped(t) => ChangeTheme(p, t)
  }

  /** The state after a sequence of taps, in order. */
  function Run(cat: FontCatalogue, p: Popover, events: seq<Event>): Popover
    decreases |events|
  {
    if |events| == 0 then p else Run(cat, Step(cat, p, events[0]).popover, events[1..])
  }

  /**
   * The state part of `viewDidLoad`: build the font-type buttons for
   * `fontTypes`, the size buttons (smaller, reset, bigger; enabled, as a new
   * button is), the theme buttons (light, sepia, dark), clear the latch, and
   * bring everything in line with `style`.
   */
  function Load(cat: FontCatalogue, style: ReaderModeStyle, fontTypes: seq<FontType>, hasDelegate: bool): (r: Popover)
    ensures r.style == style
    ensures !r.isUsingUserDefinedColor
    ensures r.hasDelegate == hasDelegate
    ensures |r.fontTypeButtons| == |fontTypes|
    ensures forall i :: 0 <= i < |fontTypes| ==> r.fontTypeButtons[i].fontType == fontTypes[i]
    ensures |r.fontSizeButtons| == 3 && |r.themeButtons| == 3
    ensures seq(3, i requires 0 <= i < 3 => r.fontSizeButtons[i].fontSizeAction) == [Smaller, Reset, Bigger]
    ensures r.fontSizeButtons[1].isEnabled
    ensures seq(3, i requires 0 <= i < 3 => r.themeButtons[i].readerModeTheme) == [Light, Sepia, Dark]
    ensures InSync(cat, r)
  {
    var typeButtons := seq(|fontTypes|, i requires 0 <= i < |fontTypes| => FontTypeButton(fontTypes[i], false));
    var sizeButtons := [FontSizeButton(Smaller, true), FontSizeButton(Reset, true), FontSizeButton(Bigger, true)];
    var themeButtons := [ThemeButton(Light, style.fontType), ThemeButton(Sepia, style.fontType), ThemeButton(Dark, style.fontType)];
    var p := Popover(style, false, typeButtons, sizeButtons, themeButtons, style.fontType, hasDelegate);
    var p' := UpdateFontSizeButtons(cat, SelectFontType(cat, p, style.fontType));
    p'.(style := p'.style.(theme := style.theme))
  }

  /**
   * `applyTheme(_:contentScript:)`: given the stored reader preferences (if
   * any), install their style, adjusted to the app theme, into the
   * reader-mode script; do nothing when there are no preferences, the script
   * is not reader mode, or the preferences do not decode.
   */
  function ApplyTheme(cat: FontCatalogue, readerPreferences: Option<map<string, Value>>,
                      script: ContentScript, app: AppTheme): (r: ContentScript)
    ensures readerPreferences.None? ==> r == script
    ensures !script.ReaderMode? ==> r == script
    ensures readerPreferences.Some? && Decode(cat, readerPreferences.value).None? ==> r == script
    ensures readerPreferences.Some? && script.ReaderMode? && Decode(cat, readerPreferences.value).Some? ==>
              var d := readerPreferences.value;
              && r.ReaderMode?
              && FontTypeKey in d && d[FontTypeKey] == StringValue(r.style.fontType.raw)
              && FontSizeKey in d && d[FontSizeKey] == IntValue(r.style.fontSize.raw)
              && ThemeKey in d && d[ThemeKey].StringValue?
              && r.style.theme == PreferredTheme(ThemeFromRaw(d[ThemeKey].s), app)
  {
    if readerPreferences.None? || !script.ReaderMode? then script
    else
      var style := Decode(cat, readerPreferences.value);
      if style.None? then script
      else ReaderMode(EnsurePreferredColorTheme(style.value, app))
  }

  // ---------------------------------------------------------------------------
  // Invariants and properties

  /** The buttons and the label show the stored style. */
  predicate InSync(cat: FontCatalogue, p: Popover)
  {
    && (forall i :: 0 <= i < |p.fontTypeButtons| ==>
          p.fontTypeButtons[i].isSelected == cat.isSameFamily(p.fontTypeButtons[i].fontType, p.style.fontType))
    && (forall i :: 0 <= i < |p.fontSizeButtons| && p.fontSizeButtons[i].fontSizeAction == Bigger ==>
          p.fontSizeButtons[i].isEnabled == !cat.isLargest(p.style.fontSize))
    && (forall i :: 0 <= i < |p.fontSizeButtons| && p.fontSizeButtons[i].fontSizeAction == Smaller ==>
          p.fontSizeButtons[i].isEnabled == !cat.isSmallest(p.style.fontSize))
    && (forall i :: 0 <= i < |p.themeButtons| ==> p.themeButtons[i].fontType == p.style.fontType)
    && p.fontSizeLabelFontType == p.style.fontType
  }

  /** A tap keeps the buttons in line with the style. */
  lemma StepPreservesInSync(cat: FontCatalogue, p: Popover, e: Event)
    requires InSync(cat, p)
    ensures InSync(cat, Step(cat, p, e).popover)
  {
  }

  /** ... and so does any sequence of taps. */
  lemma {:induction false} RunPreservesInSync(cat: FontCatalogue, p: Popover, events: seq<Event>)
    requires InSync(cat, p)
    ensures InSync(cat, Run(cat, p, events))
    decreases |events|
  {
    if |events| > 0 {
      StepPreservesInSync(cat, p, events[0]);
      RunPreservesInSync(cat, Step(cat, p, events[0]).popover, events[1..]);
    }
  }

  /** A tap on a font-type button names a font type; the stored style then stays made of enumeration cases. */
  predicate IsCaseEvent(cat: FontCatalogue, e: Event)
  {
    e.FontTypeTapped? ==> cat.isFontType(e.fontType.raw)
  }

  lemma {:induction false} RunKeepsCase(cat: FontCatalogue, p: Popover, events: seq<Event>)
    requires ClosedCatalogue(cat)
    requires IsCase(cat, p.style)
    requires forall i :: 0 <= i < |events| ==> IsCaseEvent(cat, events[i])
    ensures IsCase(cat, Run(cat, p, events).style)
    decreases |events|
  {
    if |events| > 0 {
      var s := Step(cat, p, events[0]).popover;
      if events[0].FontSizeTapped? {
        assert cat.isFontSize(cat.smaller(p.style.fontSize).raw);
        assert cat.isFontSize(cat.bigger(p.style.fontSize).raw);
      }
      assert IsCase(cat, s.style);
      RunKeepsCase(cat, s, events[1..]);
    }
  }

  /** Whether some tap in `events` is on a theme button. */
  predicate HasThemeTap(events: seq<Event>)
  {
    exists i :: 0 <= i < |events| && events[i].ThemeTapped?
  }

  /**
   * The colour latch is never cleared: after any taps it is set exactly when
   * it was set before or some tap chose a theme.
   */
  lemma {:induction false} UserDefinedColorLatch(cat: FontCatalogue, p: Popover, events: seq<Event>)
    ensures Run(cat, p, events).isUsingUserDefinedColor <==> p.isUsingUserDefinedColor || HasThemeTap(events)
    decreases |events|
  {
    if |events| > 0 {
      var s := Step(cat, p, events[0]).popover;
      UserDefinedColorLatch(cat, s, events[1..]);
      assert s.isUsingUserDefinedColor <==> p.isUsingUserDefinedColor || events[0].ThemeTapped?;
      if HasThemeTap(events[1..]) {
        var i :| 0 <= i < |events[1..]| && events[1..][i].ThemeTapped?;
        assert events[i + 1].ThemeTapped?;
      }
      if HasThemeTap(events) && !events[0].ThemeTapped? {
        var i :| 0 <= i < |events| && events[i].ThemeTapped?;
        assert i > 0 && events[1..][i - 1].ThemeTapped?;
      }
    }
  }

  /** In particular the latch, once set, stays set. */
  lemma UserDefinedColorMonotone(cat: FontCatalogue, p: Popover, events: seq<Event>)
    requires p.isUsingUserDefinedColor
    ensures Run(cat, p, events).isUsingUserDefinedColor
  {
    UserDefinedColorLatch(cat, p, events);
  }

  /** Applying the stored preferences a second time changes nothing more. */
  lemma ApplyThemeIdempotent(cat: FontCatalogue, readerPreferences: Option<map<string, Value>>,
                             script: ContentScript, app: AppTheme)
    ensures ApplyTheme(cat, readerPreferences, ApplyTheme(cat, readerPreferences, script, app), app)
            == ApplyTheme(cat, readerPreferences, script, app)
  {
  }

  /** Under a dark app, the style installed from decodable preferences into the reader-mode script is dark. */
  lemma ApplyThemeUnderDarkApp(cat: FontCatalogue, readerPreferences: Option<map<string, Value>>, script: ContentScript)
    requires readerPreferences.Some? && script.ReaderMode? && Decode(cat, readerPreferences.value).Some?
    ensures ApplyTheme(cat, readerPreferences, script, AppDark).style.theme == Dark
  {
  }
}
