/**
 * The colour and miscellaneous-options panel of SettingsUI.java: the preset
 * themes, the four colours being edited (text, button text, buttons,
 * background), the three RGB sliders that edit the currently chosen one,
 * the miscellaneous options and what the panel saves.
 *
 * Swing's behaviour that the panel relies on is written out: a JSlider
 * bounded to 0..255 clamps what it is given and sends a change event only
 * when its value actually changes. The preferences store is a map from key
 * to int for reading, and the values the panel saves are fields.
 */
module Settings {

  // ---------------------------------------------------------------------------
  // Colours

  /** One RGB triple (the int[3] arrays textRGB, buttonTextRGB, buttonRGB and bgRGB). */
  datatype Rgb = Rgb(red: int, green: int, blue: int)

  /** The four colours the panel edits. */
  datatype Palette = Palette(text: Rgb, buttonText: Rgb, button: Rgb, bg: Rgb)

  /** The miscellaneous options in the order saveMisc receives them. */
  datatype Misc = Misc(alwaysOnTop: bool, askBeforeEarlyClose: bool, shiftLength: int, recoverCrash: bool)

  /** The largest value of the colour sliders (new JSlider(0, 255)). */
  const SliderMax := 255

  predicate InRange(v: int) {
    0 <= v <= SliderMax
  }

  predicate RgbInRange(c: Rgb) {
    InRange(c.red) && InRange(c.green) && InRange(c.blue)
  }

  predicate PaletteInRange(p: Palette) {
    RgbInRange(p.text) && RgbInRange(p.buttonText) && RgbInRange(p.button) && RgbInRange(p.bg)
  }

  /** A fresh int[3]: all components zero. */
  const Black := Rgb(0, 0, 0)

  const AllBlack := Palette(Black, Black, Black, Black)

  /** The entries of the preset list box, in order. */
  const ThemeNames: seq<string> := ["Dark", "Demonic Red", "Contrast", "Light", "Pink+White", "Pastel Blue"]

  /** The presets that bring colours of their own: every entry but "Contrast". */
  const ColouredThemes: seq<string> := ["Dark", "Demonic Red", "Light", "Pink+White", "Pastel Blue"]

  /** The entries of the "Currently editing" list box, in order. */
  const ColouringNames: seq<string> := ["Text", "Button Text", "Buttons", "Background"]

  /** The entries of the default shift length list box: one to twelve hours. */
  const ShiftLengthCount := 12

  /**
   * The colours setTheme gives a preset. "Contrast", and any name the table
   * does not list, leaves the four fresh arrays at zero.
   */
  function ThemePalette(theme: string): (p: Palette)
    ensures PaletteInRange(p)
  {
    if theme == "Dark" then
      Palette(Rgb(240, 240, 240), Rgb(240, 240, 240), Rgb(80, 80, 80), Rgb(64, 64, 64))
    else if theme == "Demonic Red" then
      Palette(Rgb(240, 240, 240), Rgb(240, 240, 240), Rgb(0, 0, 0), Rgb(72, 0, 0))
    else if theme == "Light" then
      Palette(Rgb(0, 0, 0), Rgb(0, 0, 0), Rgb(220, 220, 220), Rgb(240, 240, 240))
    else if theme == "Pink+White" then
      Palette(Rgb(0, 0, 0), Rgb(0, 0, 0), Rgb(240, 240, 240), Rgb(220, 150, 200))
    else if theme == "Pastel Blue" then
      Palette(Rgb(255, 255, 255), Rgb(255, 255, 255), Rgb(100, 160, 240), Rgb(140, 190, 255))
    else
      AllBlack
  }

  /** A preset leaves every colour black exactly when it is not one of the coloured presets. */
  lemma BlackExactlyOutsideColouredThemes(theme: string)
    ensures ThemePalette(theme) == AllBlack <==> theme !in ColouredThemes
  {
  }

  /** Every preset colours the text and the button text alike. */
  lemma TextLikeButtonText(theme: string)
    ensures ThemePalette(theme).text == ThemePalette(theme).buttonText
  {
  }

  /** The colour in slot k: 0 text, 1 button text, 2 buttons, 3 background. */
  function Slot(p: Palette, k: int): Rgb
    requires 0 <= k < 4
  {
    if k == 0 then p.text
    else if k == 1 then p.buttonText
    else if k == 2 then p.button
    else p.bg
  }

  /**
   * The palette with slot k set to c. A k outside 0..3 matches no case of
   * the switch and changes nothing.
   */
  function ReplaceSlot(p: Palette, k: int, c: Rgb): Palette {
    if k == 0 then p.(text := c)
    else if k == 1 then p.(buttonText := c)
    else if k == 2 then p.(button := c)
    else if k == 3 then p.(bg := c)
    else p
  }

  /** Replacing slot k sets that slot to c and keeps the other three; a k outside 0..3 changes nothing. */
  lemma ReplaceSlotChangesOneSlot(p: Palette, k: int, c: Rgb)
    ensures 0 <= k < 4 ==> Slot(ReplaceSlot(p, k, c), k) == c
    ensures forall j :: 0 <= j < 4 && j != k ==> Slot(ReplaceSlot(p, k, c), j) == Slot(p, j)
    ensures !(0 <= k < 4) ==> ReplaceSlot(p, k, c) == p
  {
  }

  /** Writing a slot back with its own colour changes nothing. */
  lemma ReplaceSlotSame(p: Palette, k: int)
    requires 0 <= k < 4
    ensures ReplaceSlot(p, k, Slot(p, k)) == p
  {
  }

  /** A second write to the same slot overrides the first. */
  lemma ReplaceSlotTwice(p: Palette, k: int, c: Rgb, d: Rgb)
    ensures ReplaceSlot(ReplaceSlot(p, k, c), k, d) == ReplaceSlot(p, k, d)
  {
  }

  /** Writing an in-range colour into an in-range palette keeps it in range. */
  lemma ReplaceSlotInRange(p: Palette, k: int, c: Rgb)
    requires PaletteInRange(p) && RgbInRange(c)
    ensures PaletteInRange(ReplaceSlot(p, k, c))
  {
  }

  // ---------------------------------------------------------------------------
  // Sliders

  /** What a slider bounded to 0..255 keeps of a value it is given. */
  function Clamp(v: int): (r: int)
    ensures InRange(r)
    ensures InRange(v) ==> r == v
    ensures v < 0 ==> r == 0
    ensures v > SliderMax ==> r == SliderMax
  {
    if v < 0 then 0 else if v > SliderMax then SliderMax else v
  }

  /** The three sliders set to a colour. */
  function ClampRgb(c: Rgb): (r: Rgb)
    ensures RgbInRange(r)
    ensures RgbInRange(c) ==> r == c
  {
    Rgb(Clamp(c.red), Clamp(c.green), Clamp(c.blue))
  }

  /**
   * JSlider.setValue(x) on a slider holding `value`: the value it then
   * holds, and whether it sends a change event.
   */
  function SliderSet(value: int, x: int): (r: (int, bool))
    ensures InRange(r.0)
    ensures InRange(x) ==> r.0 == x
    ensures r.1 <==> r.0 != value
  {
    var v := Clamp(x);
    (v, v != value)
  }

  /** How many of two slider moves send a change event. */
  function Events(first: bool, second: bool): nat {
    (if first then 1 else 0) + (if second then 1 else 0)
  }

  /**
   * The red slider nudge of updateColorSliders as written: setValue(value + 1)
   * then setValue(value - 1). The red value it leaves and the number of
   * change events it sends.
   */
  function NudgeAsWritten(red: int): (int, nat) {
    var up := SliderSet(red, red + 1);
    var down := SliderSet(up.0, up.0 - 1);
    (down.0, Events(up.1, down.1))
  }

  /**
   * The nudge as intended: two change events and the red value unchanged.
   * At the top of the range it goes down first, then up.
   */
  function Nudge(red: int): (int, nat) {
    if red == SliderMax then
      var down := SliderSet(red, red - 1);
      var up := SliderSet(down.0, down.0 + 1);
      (up.0, Events(down.1, up.1))
    else
      var up := SliderSet(red, red + 1);
      var down := SliderSet(up.0, up.0 - 1);
      (down.0, Events(up.1, down.1))
  }

  /** Below the top of the range the nudge as written sends two events and keeps red. */
  lemma NudgeAsWrittenBelowTop(red: int)
    requires 0 <= red < SliderMax
    ensures NudgeAsWritten(red) == (red, 2)
  {
  }

  /** At red 255 the nudge as written sends one event and leaves red at 254. */
  lemma NudgeAsWrittenAtTop()
    ensures NudgeAsWritten(SliderMax) == (SliderMax - 1, 1)
  {
  }

  /**
   * A stored red reaches the nudge clamped, so the nudge as written loses a
   * red of 255 and also any stored red above it. The corrected nudge keeps
   * the clamped red in every case.
   */
  lemma NudgeFromStored(stored: int)
    ensures stored < SliderMax ==> NudgeAsWritten(Clamp(stored)) == (Clamp(stored), 2)
    ensures stored >= SliderMax ==> NudgeAsWritten(Clamp(stored)) == (SliderMax - 1, 1)
    ensures Nudge(Clamp(stored)) == (Clamp(stored), 2)
  {
    if stored < SliderMax {
      NudgeAsWrittenBelowTop(Clamp(stored));
    } else {
      NudgeAsWrittenAtTop();
    }
    NudgeKeepsRed(Clamp(stored));
  }

  /** The corrected nudge keeps every in-range red and always sends two events. */
  lemma NudgeKeepsRed(red: int)
    requires InRange(red)
    ensures Nudge(red) == (red, 2)
  {
  }

  // ---------------------------------------------------------------------------
  // Preferences and list boxes

  /** The preference keys the panel reads ("textRed", ..., "bgBlue", "lastColoring", "lastTheme", "defaultShiftLength"). */
  datatype Key =
    | TextRed | TextGreen | TextBlue
    | ButtonTextRed | ButtonTextGreen | ButtonTextBlue
    | ButtonRed | ButtonGreen | ButtonBlue
    | BgRed | BgGreen | BgBlue
    | LastColoring | LastTheme | DefaultShiftLength

  /** Preferences.getInt(key, def): the stored value, or def when nothing is stored. */
  function GetInt(prefs: map<Key, int>, key: Key, def: int): (v: int)
    ensures key in prefs ==> v == prefs[key]
    ensures key !in prefs ==> v == def
  {
    if key in prefs then prefs[key] else def
  }

  /** loadRGBValues: each component read from the preferences, with the dark colours as defaults. */
  function LoadPalette(prefs: map<Key, int>): Palette {
    Palette(
      Rgb(GetInt(prefs, TextRed, 240), GetInt(prefs, TextGreen, 240), GetInt(prefs, TextBlue, 240)),
      Rgb(GetInt(prefs, ButtonTextRed, 240), GetInt(prefs, ButtonTextGreen, 240), GetInt(prefs, ButtonTextBlue, 240)),
      Rgb(GetInt(prefs, ButtonRed, 80), GetInt(prefs, ButtonGreen, 80), GetInt(prefs, ButtonBlue, 80)),
      Rgb(GetInt(prefs, BgRed, 64), GetInt(prefs, BgGreen, 64), GetInt(prefs, BgBlue, 64)))
  }

  /** With nothing stored, the loaded colours are the "Dark" preset. */
  lemma DefaultsAreDark()
    ensures LoadPalette(map[]) == ThemePalette("Dark")
  {
  }

  /** The initial selection of a list box: the stored index plus the offset, but at most the last entry. */
  function InitialIndex(stored: int, offset: int, itemCount: int): (i: int)
    ensures i <= itemCount - 1
    ensures i == stored + offset || i == itemCount - 1
    ensures i <= stored + offset
  {
    if stored + offset < itemCount - 1 then stored + offset else itemCount - 1
  }

  /**
   * For a non-empty list box, the initial selection is an entry exactly when
   * the stored index plus the offset is not negative, and it is that index
   * whenever that index is an entry.
   */
  lemma InitialIndexIsEntry(stored: int, offset: int, itemCount: int)
    requires itemCount >= 1
    ensures 0 <= InitialIndex(stored, offset, itemCount) < itemCount <==> stored + offset >= 0
    ensures 0 <= stored + offset < itemCount ==> InitialIndex(stored, offset, itemCount) == stored + offset
  {
  }

  // ---------------------------------------------------------------------------
  // The panel

  class SettingsUI {
    var textRgb: Rgb
    var buttonTextRgb: Rgb
    var buttonRgb: Rgb
    var bgRgb: Rgb
    /** The colour being edited: 0 text, 1 button text, 2 buttons, 3 background. */
    var currentlyColoring: int
    /** The values of the red, green and blue sliders. */
    var red: int
    var green: int
    var blue: int
    /** Colour change events handled so far. */
    var changeCount: int
    var showColorValues: bool
    var highContrast: bool
    /** The check boxes. */
    var alwaysOnTop: bool
    var recoverCrash: bool
    var askBeforeEarlyClose: bool
    /** The selected entries of the three list boxes. */
    var themeIndex: int
    var coloringIndex: int
    var shiftLengthIndex: int
    /** What the panel last saved: the options, the high-contrast flag and the colours. */
    var savedMisc: Misc
    var savedHighContrast: bool
    var savedColours: Palette
    /** The preferences "lastTheme" and "lastColoring". */
    var lastTheme: int
    var lastColoring: int

    /** The four colours being edited. */
    function Colours(): Palette
      reads this
    {
      Palette(textRgb, buttonTextRgb, buttonRgb, bgRgb)
    }

    /** The slider values as a colour. */
    function Sliders(): Rgb
      reads this
    {
      Rgb(red, green, blue)
    }

    /** The options as saveMisc receives them: the shift length is the selected index plus one. */
    function CurrentMisc(): Misc
      reads this
    {
      Misc(alwaysOnTop, askBeforeEarlyClose, shiftLengthIndex + 1, recoverCrash)
    }

    /** The sliders hold values in 0..255. */
    ghost predicate Valid()
      reads this
    {
      RgbInRange(Sliders())
    }

    /**
     * What updateValues saves: the options, the high-contrast flag, and the
     * colours unless high contrast is on, in which case the colours saved
     * before (`previous`) stay.
     */
    ghost predicate Saved(previous: Palette)
      reads this
    {
      && savedMisc == CurrentMisc()
      && savedHighContrast == highContrast
      && savedColours == if highContrast then previous else Colours()
    }

    /**
     * The panel as its constructor leaves it: the colours `loaded` that
     * loadRGBValues read (LoadPalette of the preferences `prefs`),
     * the options from the settings (`contrast`, `onTop`, `crashRecovery`,
     * `askEarly`, `defaultShiftLength`), the sliders set to the colour being
     * edited with their two start-up change events, and each list box at its
     * clamped stored index. Those events save the options while the shift
     * length box still holds `defaultShiftLength`, so that length is saved
     * rather than the stored index set afterwards.
     */
    constructor (prefs: map<Key, int>, loaded: Palette, contrast: bool, onTop: bool, crashRecovery: bool, askEarly: bool,
                 defaultShiftLength: int)
      ensures Valid()
      ensures currentlyColoring == GetInt(prefs, LastColoring, 0)
      ensures 0 <= currentlyColoring < 4 ==> Sliders() == ClampRgb(Slot(loaded, currentlyColoring))
      ensures !(0 <= currentlyColoring < 4) ==> Sliders() == Rgb(127, 127, 127)
      ensures Colours() == ReplaceSlot(loaded, currentlyColoring, Sliders())
      ensures PaletteInRange(loaded) ==> Colours() == loaded
      ensures changeCount == 2 && showColorValues && highContrast == contrast
      ensures alwaysOnTop == onTop && recoverCrash == crashRecovery && askBeforeEarlyClose == askEarly
      ensures themeIndex == InitialIndex(GetInt(prefs, LastTheme, 0), 0, |ThemeNames|)
      ensures coloringIndex == InitialIndex(GetInt(prefs, LastColoring, 0), 0, |ColouringNames|)
      ensures shiftLengthIndex == InitialIndex(GetInt(prefs, DefaultShiftLength, 4), -1, ShiftLengthCount)
      ensures savedMisc == Misc(onTop, askEarly, defaultShiftLength, crashRecovery) && savedHighContrast == contrast
      ensures savedColours == if contrast then loaded else Colours()
      ensures lastTheme == GetInt(prefs, LastTheme, 0) && lastColoring == currentlyColoring
    {
      textRgb, buttonTextRgb, buttonRgb, bgRgb := loaded.text, loaded.buttonText, loaded.button, loaded.bg;
      currentlyColoring := GetInt(prefs, LastColoring, 0);
      changeCount := 0;
      showColorValues := true;
      highContrast := contrast;
      alwaysOnTop := onTop;
      recoverCrash := crashRecovery;
      shiftLengthIndex := defaultShiftLength - 1;
      askBeforeEarlyClose := askEarly;
      red, green, blue := 127, 127, 127;
      themeIndex := InitialIndex(GetInt(prefs, LastTheme, 0), 0, |ThemeNames|);
      coloringIndex := InitialIndex(GetInt(prefs, LastColoring, 0), 0, |ColouringNames|);
      savedMisc := Misc(onTop, askEarly, defaultShiftLength, crashRecovery);
      savedHighContrast := contrast;
      savedColours := loaded;
      lastTheme := GetInt(prefs, LastTheme, 0);
      lastColoring := currentlyColoring;
      new;
      UpdateColorSliders();
      assert savedMisc == Misc(onTop, askEarly, defaultShiftLength, crashRecovery);
      shiftLengthIndex := InitialIndex(GetInt(prefs, DefaultShiftLength, 4), -1, ShiftLengthCount);
    }

    /**
     * updateValues: the slider values replace the colour being edited and
     * no other; the options and the high-contrast flag are saved, and the
     * colours too unless high contrast is on.
     */
    method UpdateValues()
      modifies this`textRgb, this`buttonTextRgb, this`buttonRgb, this`bgRgb
      modifies this`savedMisc, this`savedHighContrast, this`savedColours
      ensures Colours() == ReplaceSlot(old(Colours()), currentlyColoring, Sliders())
      ensures Saved(old(savedColours))
    {
      var newRgb := Rgb(red, green, blue);
      if currentlyColoring == 0 {
        textRgb := newRgb;
      } else if currentlyColoring == 1 {
        buttonTextRgb := newRgb;
      } else if currentlyColoring == 2 {
        buttonRgb := newRgb;
      } else if currentlyColoring == 3 {
        bgRgb := newRgb;
      }
      savedMisc := CurrentMisc();
      savedHighContrast := highContrast;
      if !highContrast {
        savedColours := Colours();
      }
    }

    /** stateChanged: one more change event counted, then updateValues. */
    method StateChanged()
      modifies this`changeCount, this`textRgb, this`buttonTextRgb, this`buttonRgb, this`bgRgb
      modifies this`savedMisc, this`savedHighContrast, this`savedColours
      ensures changeCount == old(changeCount) + 1
      ensures Colours() == ReplaceSlot(old(Colours()), currentlyColoring, Sliders())
      ensures Saved(old(savedColours))
    {
      changeCount := changeCount + 1;
      UpdateValues();
    }

    /**
     * setValue on the red slider while the panel listens to it: the slider
     * keeps the clamped value, and only a change of value reaches stateChanged.
     */
    method SetRed(x: int)
      modifies this`red, this`changeCount, this`textRgb, this`buttonTextRgb, this`bgRgb, this`buttonRgb
      modifies this`savedMisc, this`savedHighContrast, this`savedColours
      ensures red == SliderSet(old(red), x).0
      ensures !SliderSet(old(red), x).1 ==>
        changeCount == old(changeCount) && Colours() == old(Colours()) && savedMisc == old(savedMisc)
        && savedHighContrast == old(savedHighContrast) && savedColours == old(savedColours)
      ensures SliderSet(old(red), x).1 ==>
        changeCount == old(changeCount) + 1 && Colours() == ReplaceSlot(old(Colours()), currentlyColoring, Sliders())
        && Saved(old(savedColours))
    {
      var v := Clamp(x);
      if v != red {
        red := v;
        StateChanged();
      }
    }

    /**
     * The switch of updateColorSliders, with the change listeners removed:
     * the sliders take the colour being edited; a currentlyColoring outside
     * 0..3 leaves them as they are.
     */
    method LoadSliders()
      modifies this`red, this`green, this`blue
      ensures 0 <= currentlyColoring < 4 ==> Sliders() == ClampRgb(Slot(Colours(), currentlyColoring))
      ensures !(0 <= currentlyColoring < 4) ==> Sliders() == old(Sliders())
    {
      if currentlyColoring == 0 {
        red, green, blue := Clamp(textRgb.red), Clamp(textRgb.green), Clamp(textRgb.blue);
      } else if currentlyColoring == 1 {
        red, green, blue := Clamp(buttonTextRgb.red), Clamp(buttonTextRgb.green), Clamp(buttonTextRgb.blue);
      } else if currentlyColoring == 2 {
        red, green, blue := Clamp(buttonRgb.red), Clamp(buttonRgb.green), Clamp(buttonRgb.blue);
      } else if currentlyColoring == 3 {
        red, green, blue := Clamp(bgRgb.red), Clamp(bgRgb.green), Clamp(bgRgb.blue);
      }
    }

    /**
     * The red slider nudge of updateColorSliders as written, with the
     * listeners attached: one up, then one down.
     */
    method NudgeRedAsWritten()
      modifies this`red, this`changeCount, this`textRgb, this`buttonTextRgb, this`bgRgb, this`buttonRgb
      modifies this`savedMisc, this`savedHighContrast, this`savedColours
      ensures (red, changeCount - old(changeCount)) == NudgeAsWritten(old(red))
      ensures Colours() == ReplaceSlot(old(Colours()), currentlyColoring, Sliders())
      ensures Saved(old(savedColours))
    {
      SetRed(red + 1);
      SetRed(red - 1);
    }

    /**
     * The red slider nudge as intended: two change events and red as it
     * was. At the top of the range it goes one down, then one up.
     */
    method NudgeRed()
      requires InRange(red)
      modifies this`red, this`changeCount, this`textRgb, this`buttonTextRgb, this`bgRgb, this`buttonRgb
      modifies this`savedMisc, this`savedHighContrast, this`savedColours
      ensures (red, changeCount - old(changeCount)) == Nudge(old(red))
      ensures Colours() == ReplaceSlot(old(Colours()), currentlyColoring, Sliders())
      ensures Saved(old(savedColours))
    {
      if red == SliderMax {
        SetRed(red - 1);
        SetRed(red + 1);
      } else {
        SetRed(red + 1);
        SetRed(red - 1);
      }
    }

    /**
     * updateColorSliders as written: the sliders take the colour being
     * edited, then the red nudge as written. At red 255 its first move is
     * clamped away, so only one change event fires and the colour being
     * edited keeps red 254.
     */
    method UpdateColorSlidersAsWritten()
      modifies this`red, this`green, this`blue, this`showColorValues
      modifies this`changeCount, this`textRgb, this`buttonTextRgb, this`buttonRgb, this`bgRgb
      modifies this`savedMisc, this`savedHighContrast, this`savedColours
      ensures var loaded := if 0 <= currentlyColoring < 4 then ClampRgb(Slot(old(Colours()), currentlyColoring))
                            else old(Sliders());
        && (red, changeCount - old(changeCount)) == NudgeAsWritten(loaded.red)
        && green == loaded.green && blue == loaded.blue
      ensures Colours() == ReplaceSlot(old(Colours()), currentlyColoring, Sliders())
      ensures Saved(old(savedColours))
      ensures showColorValues
    {
      LoadSliders();
      NudgeRedAsWritten();
      showColorValues := true;
    }

    /**
     * updateColorSliders with the nudge corrected: the sliders take the
     * colour being edited, two change events fire, and the colour being
     * edited ends as the sliders show it. An in-range palette is left as it was.
     */
    method UpdateColorSliders()
      requires Valid()
      modifies this`red, this`green, this`blue, this`showColorValues
      modifies this`changeCount, this`textRgb, this`buttonTextRgb, this`buttonRgb, this`bgRgb
      modifies this`savedMisc, this`savedHighContrast, this`savedColours
      ensures 0 <= currentlyColoring < 4 ==> Sliders() == ClampRgb(Slot(old(Colours()), currentlyColoring))
      ensures !(0 <= currentlyColoring < 4) ==> Sliders() == old(Sliders())
      ensures Colours() == ReplaceSlot(old(Colours()), currentlyColoring, Sliders())
      ensures PaletteInRange(old(Colours())) ==> Colours() == old(Colours())
      ensures changeCount == old(changeCount) + 2
      ensures Saved(old(savedColours))
      ensures showColorValues && Valid()
    {
      LoadSliders();
      NudgeKeepsRed(red);
      NudgeRed();
      if PaletteInRange(old(Colours())) && 0 <= currentlyColoring < 4 {
        ReplaceSlotSame(old(Colours()), currentlyColoring);
      }
      showColorValues := true;
    }

    /**
     * setColoringTo: the colour at `index` becomes the one being edited, the
     * sliders show it, and the choice is remembered.
     */
    method SetColoringTo(index: int)
      requires Valid()
      modifies this`currentlyColoring, this`lastColoring
      modifies this`red, this`green, this`blue, this`showColorValues
      modifies this`changeCount, this`textRgb, this`buttonTextRgb, this`buttonRgb, this`bgRgb
      modifies this`savedMisc, this`savedHighContrast, this`savedColours
      ensures currentlyColoring == index && lastColoring == index
      ensures 0 <= index < 4 ==> Sliders() == ClampRgb(Slot(old(Colours()), index))
      ensures !(0 <= index < 4) ==> Sliders() == old(Sliders())
      ensures Colours() == ReplaceSlot(old(Colours()), index, Sliders())
      ensures PaletteInRange(old(Colours())) ==> Colours() == old(Colours())
      ensures changeCount == old(changeCount) + 2
      ensures Saved(old(savedColours))
      ensures showColorValues && Valid()
    {
      currentlyColoring := index;
      showColorValues := false;
      UpdateColorSliders();
      lastColoring := index;
    }

    /**
     * setTheme: high contrast is on exactly for "Contrast", the four colours
     * become the preset's, the sliders show the one being edited, and the
     * preset's index is remembered.
     */
    method SetTheme(theme: string, index: int)
      requires Valid()
      modifies this`highContrast, this`lastTheme
      modifies this`red, this`green, this`blue, this`showColorValues
      modifies this`changeCount, this`textRgb, this`buttonTextRgb, this`buttonRgb, this`bgRgb
      modifies this`savedMisc, this`savedHighContrast, this`savedColours
      ensures highContrast <==> theme == "Contrast"
      ensures Colours() == ThemePalette(theme)
      ensures 0 <= currentlyColoring < 4 ==> Sliders() == Slot(ThemePalette(theme), currentlyColoring)
      ensures !(0 <= currentlyColoring < 4) ==> Sliders() == old(Sliders())
      ensures savedMisc == CurrentMisc() && savedHighContrast == highContrast
      ensures savedColours == if highContrast then old(savedColours) else ThemePalette(theme)
      ensures changeCount == old(changeCount) + 2 && lastTheme == index
      ensures showColorValues && Valid()
    {
      var p := ThemePalette(theme);
      showColorValues, highContrast := false, theme == "Contrast";
      textRgb, buttonTextRgb, buttonRgb, bgRgb := p.text, p.buttonText, p.button, p.bg;
      UpdateColorSliders();
      lastTheme := index;
    }

    /** itemStateChanged from the preset list box: the selected entry's preset. */
    method ThemeSelected(index: int)
      requires Valid() && 0 <= index < |ThemeNames|
      modifies this`themeIndex, this`highContrast, this`lastTheme
      modifies this`red, this`green, this`blue, this`showColorValues
      modifies this`changeCount, this`textRgb, this`buttonTextRgb, this`buttonRgb, this`bgRgb
      modifies this`savedMisc, this`savedHighContrast, this`savedColours
      ensures themeIndex == index && lastTheme == index
      ensures highContrast <==> index == 2
      ensures Colours() == ThemePalette(ThemeNames[index])
      ensures 0 <= currentlyColoring < 4 ==> Sliders() == Slot(ThemePalette(ThemeNames[index]), currentlyColoring)
      ensures !(0 <= currentlyColoring < 4) ==> Sliders() == old(Sliders())
      ensures savedMisc == CurrentMisc() && savedHighContrast == highContrast
      ensures savedColours == if highContrast then old(savedColours) else ThemePalette(ThemeNames[index])
      ensures changeCount == old(changeCount) + 2
      ensures showColorValues && Valid()
    {
      themeIndex := index;
      SetTheme(ThemeNames[index], index);
    }

    /** itemStateChanged from the "Currently editing" list box: the selected entry becomes the colour being edited. */
    method ColoringSelected(index: int)
      requires Valid()
      modifies this`coloringIndex, this`currentlyColoring, this`lastColoring
      modifies this`red, this`green, this`blue, this`showColorValues
      modifies this`changeCount, this`textRgb, this`buttonTextRgb, this`buttonRgb, this`bgRgb
      modifies this`savedMisc, this`savedHighContrast, this`savedColours
      ensures coloringIndex == index && currentlyColoring == index && lastColoring == index
      ensures 0 <= index < 4 ==> Sliders() == ClampRgb(Slot(old(Colours()), index))
      ensures !(0 <= index < 4) ==> Sliders() == old(Sliders())
      ensures Colours() == ReplaceSlot(old(Colours()), index, Sliders())
      ensures PaletteInRange(old(Colours())) ==> Colours() == old(Colours())
      ensures changeCount == old(changeCount) + 2
      ensures Saved(old(savedColours))
      ensures showColorValues && Valid()
    {
      coloringIndex := index;
      SetColoringTo(index);
    }

    /** setDefaultMisc: stay on top and ask before clocking out early, with a four-hour default shift. */
    method SetDefaultMisc()
      modifies this`alwaysOnTop, this`askBeforeEarlyClose, this`shiftLengthIndex
      ensures alwaysOnTop && askBeforeEarlyClose && shiftLengthIndex == 3
      ensures recoverCrash == old(recoverCrash)
    {
      alwaysOnTop := true;
      askBeforeEarlyClose := true;
      shiftLengthIndex := 3;
    }

    /** actionPerformed: "Set Defaults" resets the options; "Manage Work Apps" opens another dialog. */
    method ActionPerformed(command: string)
      modifies this`alwaysOnTop, this`askBeforeEarlyClose, this`shiftLengthIndex
      ensures command == "Set Defaults" ==> alwaysOnTop && askBeforeEarlyClose && shiftLengthIndex == 3
      ensures command != "Set Defaults" ==>
        alwaysOnTop == old(alwaysOnTop) && askBeforeEarlyClose == old(askBeforeEarlyClose)
        && shiftLengthIndex == old(shiftLengthIndex)
      ensures recoverCrash == old(recoverCrash)
    {
      if command == "Set Defaults" {
        SetDefaultMisc();
      }
    }
  }
}
