# TipCalc core in Dafny

A model of the logic inside the tip calculator's single screen
(`MainActivity`): the rating shown for a tip percentage, the tip and total
computed from the bill text, and the light/dark theme that is read from a
preference store at startup, applied to the process-wide night mode, and
written back on every toggle of the theme switch.

- `wrappers.dfy` — `Option`, the outcome of parsing the bill text.
- `tip_engine.dfy` (module `TipEngine`) — the pure parts: `RatingFor` (the
  five-band `when (progress)`), checked against a band table `Lookup(Bands, _)`;
  `TipAndTotal` (exact arithmetic over `real`); `ComputeTipAndTotal` (empty or
  unparseable text gives `None`, meaning both fields are cleared).
- `theme.dfy` (module `Theme`) — the preference store (`PreferenceStore`, with
  `GetBoolean`/`PutBoolean`) and the process-wide night-mode setting
  (`NightModeSetting`), plus `ModeFor`, the choice `applyTheme` makes.
- `screen.dfy` (module `Screen`) — `ScreenState`, everything the screen and
  its theme logic can observe; `Launch` (startup) and `Step` (one listener run
  to completion) as functions on it; and the class `MainActivity`, whose
  fields stand for the widgets and whose listener methods are proved to
  perform exactly `Step` on its `View()`. `Coherent` is the invariant every
  event keeps: the displayed percent, rating and amounts are those of the
  current slider and bill text, and the switch, the night mode and the stored
  flag agree.

The bill parser (`toDoubleOrNull`) is a parameter `parse: string -> Option<real>`
of the model; nothing is assumed about it. Kotlin's `Double` is modelled by
`real`, so the amounts are exact.

The model follows the code in two places where one might expect otherwise:
- the last rating band is the `else` branch, so negative percents are rated
  "Amazing" too, not only percents of 25 and above (`BoundaryValues`);
- any parsed bill is used, negative ones included; no non-negativity check is
  made (`ComputeTipAndTotal`).

## Model

| member | source | states |
|---|---|---|
| TipEngine.RatingFor | app/src/main/java/com/potato/myapplication/MainActivity.kt:95-116 | each rating text is shown exactly on its band (0..9 Poor, 10..14 Acceptable, 15..19 Good, 20..24 Great, every other integer Amazing), so the bands partition the integers; the colour always belongs to the text |
| TipEngine.BandsAreContiguous | app/src/main/java/com/potato/myapplication/MainActivity.kt:96-111 | the bounded bands start at 0, are non-empty, and each starts right after the previous one ends (no gap, no overlap) |
| TipEngine.RatingMatchesTable | app/src/main/java/com/potato/myapplication/MainActivity.kt:95-116 | for every integer the `when` gives the rating of the first table row that holds it, and Amazing outside all rows |
| TipEngine.RatingIsOneOfFive | app/src/main/java/com/potato/myapplication/MainActivity.kt:93-117 | the rating is one of the five table entries, and two percents with the same text get the same colour |
| TipEngine.BoundaryValues | app/src/main/java/com/potato/myapplication/MainActivity.kt:96-115 | 0 and 9 Poor, 10 and 14 Acceptable, 15 and 19 Good, 20 and 24 Great, 25 and -1 Amazing |
| TipEngine.RatingIsMonotone | app/src/main/java/com/potato/myapplication/MainActivity.kt:95-116 | on non-negative percents a larger percent never gets a lower rating |
| TipEngine.TipAndTotal | app/src/main/java/com/potato/myapplication/MainActivity.kt:140-141 | the tip times 100 is bill times percent, the total times 100 is bill times (100 + percent), and total minus tip is the bill |
| TipEngine.NonNegativeInputs | app/src/main/java/com/potato/myapplication/MainActivity.kt:140-141 | for a non-negative bill and percent the tip is non-negative and the total is at least the bill |
| TipEngine.ZeroPercent | app/src/main/java/com/potato/myapplication/MainActivity.kt:140-141 | at 0 percent the tip is 0 and the total is the bill |
| TipEngine.AmountsGrowWithPercent | app/src/main/java/com/potato/myapplication/MainActivity.kt:137-141 | for a non-negative bill, a higher percent never lowers the tip or the total |
| TipEngine.ComputeTipAndTotal | app/src/main/java/com/potato/myapplication/MainActivity.kt:121-146 | empty text clears both amounts; non-empty text clears them exactly when the parse fails; otherwise the amounts are those of the parsed bill at the slider's percent |
| TipEngine.RejectedLooksLikeEmpty | app/src/main/java/com/potato/myapplication/MainActivity.kt:123-134 | text the parser rejects gives the same result as empty text |
| TipEngine.EmptyTextIgnoresParser | app/src/main/java/com/potato/myapplication/MainActivity.kt:123-127 | for empty text the result is cleared whatever the parser does, so no parse or arithmetic takes place |
| TipEngine.FiftyAtTwenty | app/src/main/java/com/potato/myapplication/MainActivity.kt:108-141 | a bill of 50.00 at 20 percent is rated Great with tip 10 and total 60 |
| Theme.ModeFor | app/src/main/java/com/potato/myapplication/MainActivity.kt:81-87 | a dark choice selects night mode yes, a light one night mode no; neither leaves the mode unspecified |
| Theme.ReadAfterWrite | app/src/main/java/com/potato/myapplication/MainActivity.kt:33-77 | a stored flag is read back as written, whatever the read's default, and other keys read as before |
| Theme.RewriteIsInvisible | app/src/main/java/com/potato/myapplication/MainActivity.kt:75-78 | writing the value a key already reads as leaves its reads unchanged, and leaves the store identical once the key exists |
| Theme.PreferenceStore.GetBoolean | app/src/main/java/com/potato/myapplication/MainActivity.kt:33 | returns the stored value of the key, or the default when it was never written |
| Theme.PreferenceStore.PutBoolean | app/src/main/java/com/potato/myapplication/MainActivity.kt:77 | the store afterwards is the old store with the key set to the value, and nothing else |
| Screen.Launch | app/src/main/java/com/potato/myapplication/MainActivity.kt:28-52 | startup does not write the store, sets the switch to the stored flag (false when absent), keeps the initial slider and text, and yields a coherent screen (theme applied, rating and amounts filled in) |
| Screen.Step | app/src/main/java/com/potato/myapplication/MainActivity.kt:55-78 | every listener event takes a coherent screen to a coherent screen |
| Screen.SliderEvent | app/src/main/java/com/potato/myapplication/MainActivity.kt:56-58 | a slider change shows the new percent and its rating, recomputes the amounts from the current bill text, and leaves the text and the theme unchanged |
| Screen.TextEvent | app/src/main/java/com/potato/myapplication/MainActivity.kt:70-72 | a text change recomputes the amounts at the current percent and leaves percent, rating and theme unchanged |
| Screen.ToggleEvent | app/src/main/java/com/potato/myapplication/MainActivity.kt:75-78 | a toggle sets the switch, the night mode and the stored flag to the new value; the store gains at most that key and every other key reads as before; every other field is unchanged |
| Screen.ToggleToCurrentValue | app/src/main/java/com/potato/myapplication/MainActivity.kt:75-78 | on a coherent screen, toggling to the current value changes nothing except the raw store, whose stored flag still reads the same; once the key exists the state is identical |
| Screen.AmountsClearTogether | app/src/main/java/com/potato/myapplication/MainActivity.kt:121-146 | on a coherent screen the tip and total fields are cleared together, always when the text is empty, and when shown the total minus the tip is the parsed bill |
| Screen.RunKeepsCoherent | app/src/main/java/com/potato/myapplication/MainActivity.kt:55-78 | any sequence of events, each handled to completion, keeps the screen coherent |
| Screen.RunStoresLastToggle | app/src/main/java/com/potato/myapplication/MainActivity.kt:75-78 | after any sequence of events the stored flag reads as the last toggle, or as before when there was none |
| Screen.RelaunchRestoresLastToggle | app/src/main/java/com/potato/myapplication/MainActivity.kt:32-34 | a later startup on the store any events left behind shows the switch at the last toggled value and applies that night mode |
| Screen.FirstLaunchIsLight | app/src/main/java/com/potato/myapplication/MainActivity.kt:32-34 | a startup with nothing stored shows light, sets night mode no and writes nothing |
| Screen.EmptyBillStillRated | app/src/main/java/com/potato/myapplication/MainActivity.kt:50-52 | at startup with empty text and 15 percent the rating is Good while both amounts are cleared |
| Screen.MainActivity.OnCreate | app/src/main/java/com/potato/myapplication/MainActivity.kt:28-52 | the new screen's state is exactly `Launch` of the store as it was, so it is coherent |
| Screen.MainActivity.ApplyTheme | app/src/main/java/com/potato/myapplication/MainActivity.kt:81-87 | the process-wide night mode becomes the one the flag selects |
| Screen.MainActivity.UpdateTipUI | app/src/main/java/com/potato/myapplication/MainActivity.kt:89-119 | sets the percent label and the rating text and colour together from the percent, and no other field |
| Screen.MainActivity.ComputeTipAndTotal | app/src/main/java/com/potato/myapplication/MainActivity.kt:121-146 | sets the two amount fields to what `TipEngine.ComputeTipAndTotal` gives for the current text and slider, and no other field |
| Screen.MainActivity.OnProgressChanged | app/src/main/java/com/potato/myapplication/MainActivity.kt:56-59 | the new state is `Step` of the old one on a slider change, and coherence is kept |
| Screen.MainActivity.AfterTextChanged | app/src/main/java/com/potato/myapplication/MainActivity.kt:70-72 | the new state is `Step` of the old one on a text change, and coherence is kept |
| Screen.MainActivity.OnCheckedChanged | app/src/main/java/com/potato/myapplication/MainActivity.kt:75-78 | the new state is `Step` of the old one on a toggle, and coherence is kept |
| Screen.ToggleThenRestart | app/src/main/java/com/potato/myapplication/MainActivity.kt:28-78 | a toggle followed by a fresh start of the screen on the same store brings the switch and night mode back at the toggled value |

## Left out

- Floating point: `Double` arithmetic and its rounding are replaced by exact `real` arithmetic. Non-finite values are not modelled: `toDoubleOrNull` also accepts "NaN", "Infinity" and out-of-range exponents, after which the screen shows NaN or infinity formatted, and a parser into `Option<real>` cannot produce those.
- The grammar of `toDoubleOrNull` is not modelled; the parser is a parameter about which nothing is assumed.
- Text formatting: the percent label and the currency strings come from string resources; the model keeps the number each field is formatted from, or "cleared".
- View plumbing: `setContentView`, `findViewById`, the layout, colour lookup through `ContextCompat.getColor`, edge-to-edge setup. The slider's range comes from the layout, so no range is assumed.
- The preference store's asynchronous flush to disk after `apply()`; the write is taken as immediate, and store I/O never fails.
- Activity recreation: the platform recreates the screen when the default night mode changes; the model applies the mode and carries on, and a restart is modelled only as a new `OnCreate` on the same store (`ToggleThenRestart`).
- Saved instance state, listener registration, dispatch on the UI thread, and the empty `onStartTrackingTouch`, `onStopTrackingTouch`, `beforeTextChanged` and `onTextChanged` callbacks; events are handled one at a time, each to completion.
- Kotlin's 32-bit `Int` for the percent: the slider's values are small, so `int` is used without wrap-around.
