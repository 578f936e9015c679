/**
 * The tip screen: its inputs (slider position, bill text, theme switch), the
 * fields it displays, and the theme state it reads at startup and writes on
 * each toggle. `Step` says what each listener does to the whole state;
 * the class `MainActivity` holds that state in fields and its listener
 * methods are proved to perform exactly `Step`.
 */
module Screen {
  import opened Wrappers
  import opened TipEngine
  import opened Theme

  /** What an amount field shows: cleared to "", or a currency-formatted value. */
  datatype Amount = Blank | Currency(value: real)

  /** The tip field for the outcome of a computation. */
  function TipText(r: Option<Amounts>): (a: Amount)
  {
    if r.Some? then Currency(r.value.tip) else Blank
  }

  /** The total field for the outcome of a computation. */
  function TotalText(r: Option<Amounts>): (a: Amount)
  {
    if r.Some? then Currency(r.value.total) else Blank
  }

  /** The inputs the listeners react to, one at a time. */
  datatype Event =
    | ProgressChanged(progress: int)
    | BillTextChanged(text: string)
    | CheckedChanged(isChecked: bool)

  /** Everything the screen and its theme logic can observe. */
  datatype ScreenState = ScreenState(
    progress: int,              // slider position
    billText: string,           // bill field
    percentLabel: int,          // the number the percent label is formatted from
    rating: TipRating,          // rating text and its colour
    tipText: Amount,            // tip field
    totalText: Amount,          // total field
    switchChecked: bool,        // theme switch
    nightMode: NightMode,       // process-wide default night mode
    prefs: map<string, bool>)   // the "ThemePrefs" store

  /**
   * The screen shows what its inputs call for: the percent and rating of the
   * slider, the amounts of the bill text at that percent, and a theme that
   * agrees with the switch and with the stored flag.
   */
  predicate Coherent(s: ScreenState, parse: string -> Option<real>)
  {
    && s.percentLabel == s.progress
    && s.rating == RatingFor(s.progress)
    && s.tipText == TipText(ComputeTipAndTotal(s.billText, s.progress, parse))
    && s.totalText == TotalText(ComputeTipAndTotal(s.billText, s.progress, parse))
    && s.switchChecked == ReadFlag(s.prefs, DarkModeKey, false)
    && s.nightMode == ModeFor(s.switchChecked)
  }

  /** `computeTipAndTotal` applied to a state: only the two amount fields change. */
  function Recompute(s: ScreenState, parse: string -> Option<real>): (r: ScreenState)
  {
    var r := ComputeTipAndTotal(s.billText, s.progress, parse);
    s.(tipText := TipText(r), totalText := TotalText(r))
  }

  /**
   * `onCreate`: read the stored flag (false when absent), apply it as the
   * night mode, set the switch to it without running the toggle listener
   * (so the store is not written), then fill in the percent, rating and
   * amounts for the initial slider position and bill text.
   */
  function Launch(prefs: map<string, bool>, progress: int, billText: string, parse: string -> Option<real>): (s: ScreenState)
    ensures s.prefs == prefs
    ensures s.switchChecked == ReadFlag(prefs, DarkModeKey, false)
    ensures s.progress == progress && s.billText == billText
    ensures Coherent(s, parse)
  {
    var isDarkMode := ReadFlag(prefs, DarkModeKey, false);
    var created := ScreenState(progress, billText, progress, RatingFor(progress), Blank, Blank,
                               isDarkMode, ModeFor(isDarkMode), prefs);
    Recompute(created, parse)
  }

  /**
   * One listener run to completion. A slider change updates the percent
   * label and rating and recomputes the amounts; a text change recomputes
   * the amounts only; a switch change applies the theme and stores it.
   * Every event keeps the screen coherent.
   */
  function Step(s: ScreenState, e: Event, parse: string -> Option<real>): (r: ScreenState)
    ensures Coherent(s, parse) ==> Coherent(r, parse)
  {
    match e
    case ProgressChanged(p) =>
      Recompute(s.(progress := p, percentLabel := p, rating := RatingFor(p)), parse)
    case BillTextChanged(text) =>
      Recompute(s.(billText := text), parse)
    case CheckedChanged(c) =>
      s.(switchChecked := c, nightMode := ModeFor(c), prefs := WriteFlag(s.prefs, DarkModeKey, c))
  }

  /** A slider change shows the new percent and its rating, recomputes the amounts, and leaves the theme alone. */
  lemma SliderEvent(s: ScreenState, p: int, parse: string -> Option<real>)
    ensures var r := Step(s, ProgressChanged(p), parse);
      && r.progress == r.percentLabel == p
      && r.rating == RatingFor(p)
      && r.tipText == TipText(ComputeTipAndTotal(s.billText, p, parse))
      && r.totalText == TotalText(ComputeTipAndTotal(s.billText, p, parse))
      && r.billText == s.billText
      && r.switchChecked == s.switchChecked && r.nightMode == s.nightMode && r.prefs == s.prefs
  {
  }

  /** A text change recomputes the amounts at the current percent; the rating and the theme stay as they were. */
  lemma TextEvent(s: ScreenState, text: string, parse: string -> Option<real>)
    ensures var r := Step(s, BillTextChanged(text), parse);
      && r.billText == text
      && r.tipText == TipText(ComputeTipAndTotal(text, s.progress, parse))
      && r.totalText == TotalText(ComputeTipAndTotal(text, s.progress, parse))
      && r.progress == s.progress && r.percentLabel == s.percentLabel && r.rating == s.rating
      && r.switchChecked == s.switchChecked && r.nightMode == s.nightMode && r.prefs == s.prefs
  {
  }

  /** A toggle sets the switch, the night mode and the stored flag to the new value, and nothing else. */
  lemma ToggleEvent(s: ScreenState, c: bool, parse: string -> Option<real>)
    ensures var r := Step(s, CheckedChanged(c), parse);
      && r.switchChecked == c
      && r.nightMode == ModeFor(c)
      && ReadFlag(r.prefs, DarkModeKey, false) == c
      && DarkModeKey in r.prefs && r.prefs.Keys == s.prefs.Keys + {DarkModeKey}
      && (forall k, d :: k != DarkModeKey ==> ReadFlag(r.prefs, k, d) == ReadFlag(s.prefs, k, d))
      && r == s.(switchChecked := c, nightMode := ModeFor(c), prefs := r.prefs)
  {
  }

  /**
   * Toggling to the value the switch already shows changes nothing that can
   * be read: the store still gets written, and the state is identical once
   * the key has been stored before.
   */
  lemma ToggleToCurrentValue(s: ScreenState, parse: string -> Option<real>)
    requires Coherent(s, parse)
    ensures var r := Step(s, CheckedChanged(s.switchChecked), parse);
      && r == s.(prefs := r.prefs)
      && ReadFlag(r.prefs, DarkModeKey, false) == ReadFlag(s.prefs, DarkModeKey, false)
      && (DarkModeKey in s.prefs ==> r == s)
  {
  }

  /** In a coherent screen the two amount fields are cleared together, and cleared whenever the bill field is empty. */
  lemma AmountsClearTogether(s: ScreenState, parse: string -> Option<real>)
    requires Coherent(s, parse)
    ensures s.tipText.Blank? <==> s.totalText.Blank?
    ensures s.billText == [] ==> s.tipText == Blank && s.totalText == Blank
    ensures s.tipText.Currency? ==> s.totalText.value - s.tipText.value == parse(s.billText).value
  {
  }

  /** The listeners run one after another, each to completion. */
  function Run(s: ScreenState, events: seq<Event>, parse: string -> Option<real>): (r: ScreenState)
    decreases |events|
  {
    if events == [] then s else Run(Step(s, events[0], parse), events[1..], parse)
  }

  /** The value of the last toggle among the events, or `current` when there is none. */
  function LastToggle(events: seq<Event>, current: bool): (b: bool)
    decreases |events|
  {
    if events == [] then current
    else LastToggle(events[1..], if events[0].CheckedChanged? then events[0].isChecked else current)
  }

  /** However many events arrive, a coherent screen stays coherent. */
  lemma {:induction false} RunKeepsCoherent(s: ScreenState, events: seq<Event>, parse: string -> Option<real>)
    requires Coherent(s, parse)
    ensures Coherent(Run(s, events, parse), parse)
    decreases |events|
  {
    if events != [] {
      RunKeepsCoherent(Step(s, events[0], parse), events[1..], parse);
    }
  }

  /** After any run of events the stored flag reads as the last toggle, or as before when there was none. */
  lemma {:induction false} RunStoresLastToggle(s: ScreenState, events: seq<Event>, parse: string -> Option<real>)
    ensures ReadFlag(Run(s, events, parse).prefs, DarkModeKey, false)
         == LastToggle(events, ReadFlag(s.prefs, DarkModeKey, false))
    decreases |events|
  {
    if events != [] {
      var next := Step(s, events[0], parse);
      if events[0].CheckedChanged? {
        ReadAfterWrite(s.prefs, DarkModeKey, events[0].isChecked, DarkModeKey, false);
      }
      assert ReadFlag(next.prefs, DarkModeKey, false)
          == if events[0].CheckedChanged? then events[0].isChecked else ReadFlag(s.prefs, DarkModeKey, false);
      RunStoresLastToggle(next, events[1..], parse);
    }
  }

  /**
   * A later startup, on the store as any run of events left it, shows the
   * switch at the last toggled value and applies that night mode.
   */
  lemma RelaunchRestoresLastToggle(s: ScreenState, events: seq<Event>, progress: int, billText: string,
                                   parse: string -> Option<real>)
    ensures var later := Launch(Run(s, events, parse).prefs, progress, billText, parse);
      && later.switchChecked == LastToggle(events, ReadFlag(s.prefs, DarkModeKey, false))
      && later.nightMode == ModeFor(later.switchChecked)
  {
    RunStoresLastToggle(s, events, parse);
  }

  /** A first startup, with nothing stored, is light and writes nothing. */
  lemma FirstLaunchIsLight(progress: int, billText: string, parse: string -> Option<real>)
    ensures var s := Launch(map[], progress, billText, parse);
      !s.switchChecked && s.nightMode == ModeNightNo && s.prefs == map[]
  {
  }

  /** An empty bill at 15 percent: rated "Good" while both amounts stay cleared. */
  lemma EmptyBillStillRated(prefs: map<string, bool>, parse: string -> Option<real>)
    ensures var s := Launch(prefs, 15, "", parse);
      s.rating == TipRating("Good", TipGood) && s.tipText == Blank && s.totalText == Blank
  {
  }

  /**
   * The screen object: its fields stand for the widgets, and the store and
   * night-mode setting are shared platform objects it reads and writes.
   */
  class MainActivity {
    const prefs: PreferenceStore
    const delegate: NightModeSetting
    const parse: string -> Option<real>    // the bill parser, `toDoubleOrNull`

    var progress: int                      // seekBarTip.progress
    var billText: string                   // getBillAmount.text
    var percentLabel: int                  // tvTipPercentage, formatted from this number
    var tipDescription: string             // tvTipDescription.text
    var tipDescriptionColor: ColorRes      // tvTipDescription's text colour
    var tipAmount: Amount                  // tvTipAmount.text
    var totalAmount: Amount                // tvTotalAmount.text
    var switchChecked: bool                // themeSwitch.isChecked

    /** The state the fields and the platform objects show together. */
    ghost function View(): ScreenState
      reads this, prefs, delegate
    {
      ScreenState(progress, billText, percentLabel, TipRating(tipDescription, tipDescriptionColor),
                  tipAmount, totalAmount, switchChecked, delegate.mode, prefs.entries)
    }

    ghost predicate Valid()
      reads this, prefs, delegate
    {
      Coherent(View(), parse)
    }

    /** `onCreate`, with the slider position and bill text the layout starts with. */
    constructor OnCreate(prefs: PreferenceStore, delegate: NightModeSetting, progress: int, billText: string,
                         parse: string -> Option<real>)
      modifies delegate
      ensures this.prefs == prefs && this.delegate == delegate && this.parse == parse
      ensures View() == Launch(old(prefs.entries), progress, billText, parse)
      ensures Valid()
    {
      this.prefs, this.delegate, this.parse := prefs, delegate, parse;
      this.progress, this.billText := progress, billText;
      percentLabel, tipDescription, tipDescriptionColor := 0, "", TipPoor;
      tipAmount, totalAmount, switchChecked := Blank, Blank, false;
      new;
      var isDarkMode := prefs.GetBoolean(DarkModeKey, false);
      ApplyTheme(isDarkMode);
      // set before the toggle listener is registered, so the store is not written
      switchChecked := isDarkMode;
      UpdateTipUI(this.progress);
      ComputeTipAndTotal();
    }

    /** `applyTheme`: the night mode follows the flag. */
    method ApplyTheme(isDarkMode: bool)
      modifies delegate
      ensures delegate.mode == ModeFor(isDarkMode)
    {
      if isDarkMode {
        delegate.mode := ModeNightYes;
      } else {
        delegate.mode := ModeNightNo;
      }
    }

    /** `updateTipUI`: the percent label and the rating (text and colour together) for `p`. */
    method UpdateTipUI(p: int)
      modifies this`percentLabel, this`tipDescription, this`tipDescriptionColor
      ensures percentLabel == p
      ensures TipRating(tipDescription, tipDescriptionColor) == RatingFor(p)
    {
      percentLabel := p;
      var rating := RatingFor(p);
      tipDescription := rating.description;
      tipDescriptionColor := rating.color;
    }

    /** `computeTipAndTotal`: clear both amounts for empty or unparseable text, else show tip and total. */
    method ComputeTipAndTotal()
      modifies this`tipAmount, this`totalAmount
      ensures tipAmount == TipText(TipEngine.ComputeTipAndTotal(billText, progress, parse))
      ensures totalAmount == TotalText(TipEngine.ComputeTipAndTotal(billText, progress, parse))
    {
      if billText == [] {
        tipAmount, totalAmount := Blank, Blank;
        return;
      }
      var billAmount := parse(billText);
      if billAmount.None? {
        tipAmount, totalAmount := Blank, Blank;
        return;
      }
      var amounts := TipAndTotal(billAmount.value, progress);
      tipAmount, totalAmount := Currency(amounts.tip), Currency(amounts.total);
    }

    /** The slider listener, after the slider has moved to `p`. */
    method OnProgressChanged(p: int)
      modifies this`progress, this`percentLabel, this`tipDescription, this`tipDescriptionColor,
               this`tipAmount, this`totalAmount
      ensures View() == Step(old(View()), ProgressChanged(p), parse)
      ensures old(Valid()) ==> Valid()
    {
      progress := p;
      UpdateTipUI(p);
      ComputeTipAndTotal();
    }

    /** The bill field listener, after its text has become `text`. */
    method AfterTextChanged(text: string)
      modifies this`billText, this`tipAmount, this`totalAmount
      ensures View() == Step(old(View()), BillTextChanged(text), parse)
      ensures old(Valid()) ==> Valid()
    {
      billText := text;
      ComputeTipAndTotal();
    }

    /** The switch listener, after the switch has been set to `isChecked`. */
    method OnCheckedChanged(isChecked: bool)
      modifies this`switchChecked, prefs, delegate
      ensures View() == Step(old(View()), CheckedChanged(isChecked), parse)
      ensures old(Valid()) ==> Valid()
    {
      switchChecked := isChecked;
      ApplyTheme(isChecked);
      prefs.PutBoolean(DarkModeKey, isChecked);
    }
  }

  /**
   * A toggle followed by a fresh start of the screen on the same store: the
   * new screen's switch and the night mode come back at the toggled value.
   */
  method ToggleThenRestart(screen: MainActivity, isChecked: bool, progress: int, billText: string)
    returns (restarted: MainActivity)
    modifies screen, screen.prefs, screen.delegate
    ensures fresh(restarted)
    ensures restarted.switchChecked == isChecked
    ensures restarted.delegate.mode == ModeFor(isChecked)
    ensures restarted.prefs.entries == WriteFlag(old(screen.prefs.entries), DarkModeKey, isChecked)
  {
    screen.OnCheckedChanged(isChecked);
    restarted := new MainActivity.OnCreate(screen.prefs, screen.delegate, progress, billText, screen.parse);
  }
}
