# Bedroom: shift clock, colour settings and startup items

A Dafny model of three parts of Bedroom, a desktop app that tracks a work
shift:

- **The shift clock** (`src/garage/UI.java`, module `Garage`). This covers:
  - the once-per-second `tick` with its carry loops;
  - the status text `getStats` writes, in both branches: the running clock with orders and orders still needed, and the countdown to clock-in;
  - order changes from buttons and keys, which stop at zero and are ignored on break;
  - the enter/leave break request;
  - `getTime`, which starts the clock once clock-in is reached or starts the countdown before that.

  The printing of integers and the zero padding of time fields live in module `Text`. The parsers that read the printed text back are there too.
- **The colour and options panel** (`SettingsUI.java`, module `Settings`). This covers:
  - the preset table of `setTheme`;
  - the four colours being edited and the RGB sliders that edit one of them;
  - what `updateValues` saves;
  - `setColoringTo` and `setDefaultMisc`;
  - the clamped initial index of each list box.

  Swing behaviour the panel depends on is written out. A `JSlider(0, 255)` clamps what it is given and reports a change only when its value changes.
- **The startup-items dialog** (`StartupItemsManager.java`, module `StartupItems`). It keeps two parallel lists, paths and display names. It covers:
  - loading, which skips empty stored entries;
  - adding, which is capped at seven items;
  - removing the selected row, with the selection kept on the same row or moved up one.

State that the source changes in place is modelled as classes with `modifies` clauses: `Garage.UI`, `Settings.SettingsUI` and `StartupItems.StartupItemsManager`. Each method is proved against pure specification functions: `Ticked`, `Split`, `StatsText`, `CountdownText`, `ChangedOrders`, `ThemePalette`, `ReplaceSlot`, `NonEmpty`, `RemoveAt` and `KeptSelection`. The lemmas state what the source promises about those functions.

Inputs that come from outside the model are parameters:

- The wall clock enters `GetTime` as integers: whether clock-in is reached, the seconds since and until clock-in, and the shift length in minutes.
- The orders-per-hour figure is a formatter `rateText` given to the clock.
- `File.getName` is a function `nameOf` given to the startup-items dialog.
- The chosen file is an `Option<string>` passed to `AddAnApp`.
- The preferences are read from a map.

## Model

| member | source | states |
|---|---|---|
| Text.NatToString | src/garage/UI.java:120-127 | A printed non-negative number has at least one digit. It has exactly one digit below ten and exactly two from 10 to 99. |
| Text.NatToStringDigits | src/garage/UI.java:121 | Printing a non-negative number gives only decimal digits. |
| Text.NatToStringRoundTrip | src/garage/UI.java:121-127 | The digits printed for n read back as n. |
| Text.IntToStringRoundTrip | src/garage/UI.java:131-138 | What StringBuilder.append prints for any integer, with a '-' when negative, parses back to that integer. |
| Text.LeadingZero | src/garage/UI.java:120-121 | The "0" put before a field below ten does not change the value its digits read as. |
| Text.PadRoundTrip | src/garage/UI.java:120-127 | Every non-negative time field is printed with at least two digits, and with exactly two below 100. The digits read back as the field. |
| Garage.Carry | src/garage/UI.java:98-101 | One carry loop moves whole sixties out of x. Carry times 60 plus what is left equals x, what is left is at most 59, and a non-negative x leaves a non-negative rest. |
| Garage.Split | src/garage/UI.java:152-163 | The countdown's two loops split n into hours, minutes and seconds that recombine to n. Minutes and seconds are at most 59, and a non-negative n gives non-negative parts. |
| Garage.Ticked | src/garage/UI.java:95-106 | A tick gives a clock exactly one second later. Minutes and seconds stay at most 59, and non-negative fields stay non-negative. |
| Garage.TickFromZero | src/garage/UI.java:234-238 | Zeroing hours and minutes, setting seconds to n - 1 and ticking once gives n split into its fields. |
| Garage.SplitCountdown | src/garage/UI.java:146-163 | The countdown's carry loops compute Split of the seconds left. |
| Garage.AppendField | src/garage/UI.java:120-121 | One field is appended to the builder with its leading zero below ten. |
| Garage.Left | src/garage/UI.java:137-138 | The "left" figure is never negative and covers the shortfall. It is exactly needed minus orders whenever it is positive. |
| Garage.ClockTextRoundTrip | src/garage/UI.java:165-172 | The "HH:MM:SS" text of a normalised clock is at least 8 characters and holds no line break. It reads back as the same hours, minutes and seconds. |
| Garage.CountdownRoundTrip | src/garage/UI.java:145-174 | Every non-negative countdown text reads back as the number of seconds it shows. |
| Garage.StatsTimeRoundTrip | src/garage/UI.java:116-141 | The first line of the clocked-in stats text is "Time: " and the clock. It reads back as the clock's fields, whatever the orders and the rate text. |
| Garage.BuildCountdown | src/garage/UI.java:150-174 | The StringBuilder work of the countdown branch produces the header followed by the split and padded countdown. |
| Garage.ChangedOrders | src/garage/UI.java:218-219 | An order change never leaves a negative count. The result is orders plus the amount, or 0 when that sum would be negative. |
| Garage.AddsCount | src/garage/UI.java:215-221 | n "add order" commands off break raise the count by exactly n. |
| Garage.ChangesNeverNegative | src/garage/UI.java:218-219 | No run of order changes, whatever the amounts, leaves the count negative. |
| Garage.AddThenRemove | src/garage/UI.java:218-219 | Removing an order undoes adding one, and removing at zero stays at zero. |
| Garage.OrdersNeeded | src/garage/UI.java:239 | The orders needed are the integer nearest target times minutes / 60 minus 1, with halves rounded up, as Math.round gives it. |
| Garage.KeyOrderChange | src/garage/UI.java:187-191 | Backspace (8) and Down (40) map to -1, Up (38) to +1, and every other key to no change. Each holds in both directions. |
| Garage.UI.constructor | src/garage/UI.java:14-72 | The static initial state: a zero clock, no orders, on break, frozen, not clocked in, and the countdown unset. The final getStats leaves the initial text unless the clock-out time is already chosen; then the countdown becomes -2 and is shown. |
| Garage.UI.GetStats | src/garage/UI.java:112-176 | Once clocked in, the stats text is rewritten from the state. Before that, with the clock-out time chosen, the countdown drops by exactly one and its text is shown. Otherwise nothing changes. |
| Garage.UI.BuildStats | src/garage/UI.java:116-141 | The StringBuilder work of the clocked-in branch produces StatsText of the current state. |
| Garage.UI.Tick | src/garage/UI.java:93-110 | totalSecClocked rises by 1 and hr*3600+min*60+sec rises by 1. The fields become Ticked of the old ones, the clock invariant (normalised fields adding up to the seconds clocked) is kept, and the stats are refreshed. |
| Garage.UI.AdvanceClock | src/garage/UI.java:95-106 | The counting part of tick: one more second, carried into minutes and hours. It keeps the clock invariant. |
| Garage.UI.CarrySeconds | src/garage/UI.java:98-101 | The seconds loop leaves Carry's rest in the seconds field and adds Carry's quotient to the minutes. |
| Garage.UI.CarryMinutes | src/garage/UI.java:103-106 | The minutes loop leaves Carry's rest in the minutes field and adds Carry's quotient to the hours. |
| Garage.UI.ChangeOrders | src/garage/UI.java:215-225 | On break the orders and the stats are unchanged. Off break the orders become ChangedOrders of the old count and the stats are refreshed. The invariant is kept. |
| Garage.UI.EnterLeaveBreak | src/garage/UI.java:199-207 | Frozen, no break window is asked for. Otherwise the enter-break window is asked for when working and the leave-break window when on break. |
| Garage.UI.KeyPressed | src/garage/UI.java:182-195 | The orders change by KeyOrderChange unless on break. Key 0 (48) asks for a break window when not frozen. The final refresh lowers the countdown by one, or by two when an order change off break also refreshed. |
| Garage.UI.Shortcut | src/garage/UI.java:186-191 | The three shortcut checks of keyPressed, before its final refresh. |
| Garage.UI.ActionPerformed | src/garage/UI.java:74-91 | "Add order" adds one order and refreshes the stats text as getStats does, unless on break, when the orders, countdown and text are unchanged. "Enter Break" and "Leave Break" ask for the break window. Any other command changes nothing. |
| Garage.UI.GetTime | src/garage/UI.java:227-254 | Once clock-in is reached or a recheck is asked for: no freeze, no break, clocked in, no recheck, totalSecClocked equal to the seconds since clock-in, hr:min:sec equal to Split of those seconds, and ordersNeeded computed. Otherwise the countdown restarts from the seconds until clock-in plus one when unset or when asked to recheck, and is refreshed. The clock invariant is kept. |
| Garage.UI.ClockIn | src/garage/UI.java:229-241 | The clock-in branch of getTime. The stats text shows the orders needed from before they are recomputed. |
| Garage.UI.StartClock | src/garage/UI.java:234-238 | The clock is set one second short of the time since clock-in and ticked once, which undoes the -1. |
| Garage.UI.WaitForClockIn | src/garage/UI.java:244-249 | The countdown branch of getTime: restart when unset or when asked to recheck, then refresh. |
| Settings.ThemePalette | src/main/java/com/swiftsatchel/bedroom/dialog/settings/SettingsUI.java:357-395 | Each preset's four RGB triples as setTheme lists them. "Contrast" and any unlisted name give four zero triples. Every component is in 0..255. |
| Settings.BlackExactlyOutsideColouredThemes | src/main/java/com/swiftsatchel/bedroom/dialog/settings/SettingsUI.java:357-395 | A preset gives all-zero colours exactly when it is not one of the five coloured presets. |
| Settings.TextLikeButtonText | src/main/java/com/swiftsatchel/bedroom/dialog/settings/SettingsUI.java:363-395 | Every preset gives the text and the button text the same colour. |
| Settings.ReplaceSlotChangesOneSlot | src/main/java/com/swiftsatchel/bedroom/dialog/settings/SettingsUI.java:419-424 | Writing slot k (0 text, 1 button text, 2 buttons, 3 background) sets that slot and keeps the other three. A k outside 0..3 changes nothing. |
| Settings.ReplaceSlotSame | src/main/java/com/swiftsatchel/bedroom/dialog/settings/SettingsUI.java:418-424 | Writing a slot back with its own colour leaves the palette unchanged. |
| Settings.ReplaceSlotTwice | src/main/java/com/swiftsatchel/bedroom/dialog/settings/SettingsUI.java:418-424 | A second slider write to the same slot overrides the first. |
| Settings.ReplaceSlotInRange | src/main/java/com/swiftsatchel/bedroom/dialog/settings/SettingsUI.java:103-105 | Writing slider values (0..255) into an in-range palette keeps it in range. |
| Settings.Clamp | src/main/java/com/swiftsatchel/bedroom/dialog/settings/SettingsUI.java:103-105 | A slider bounded to 0..255 keeps any value in range. Below range it holds 0 and above range 255. |
| Settings.ClampRgb | src/main/java/com/swiftsatchel/bedroom/dialog/settings/SettingsUI.java:127-144 | Setting the three sliders to a colour gives an in-range colour, the same colour when it was in range. |
| Settings.SliderSet | src/main/java/com/swiftsatchel/bedroom/dialog/settings/SettingsUI.java:149-150 | setValue leaves an in-range value. It sends a change event exactly when the value changes. |
| Settings.NudgeAsWrittenBelowTop | src/main/java/com/swiftsatchel/bedroom/dialog/settings/SettingsUI.java:149-150 | Below 255 the +1/-1 nudge sends two change events and keeps red. |
| Settings.NudgeAsWrittenAtTop | src/main/java/com/swiftsatchel/bedroom/dialog/settings/SettingsUI.java:149-150 | At red 255 the nudge as written sends only one change event and leaves red at 254. |
| Settings.NudgeFromStored | src/main/java/com/swiftsatchel/bedroom/dialog/settings/SettingsUI.java:127-150 | A stored red reaches the nudge clamped to 0..255. Below 255 the nudge as written keeps it with two events. From 255 up, including any stored red above 255, it leaves 254 with one event. The corrected nudge keeps the clamped red with two events for every stored red. |
| Settings.NudgeKeepsRed | src/main/java/com/swiftsatchel/bedroom/dialog/settings/SettingsUI.java:149-150 | The corrected nudge keeps every in-range red and always sends exactly two events. |
| Settings.GetInt | src/main/java/com/swiftsatchel/bedroom/dialog/settings/SettingsUI.java:79-96 | A preference read gives the stored value, or the default when nothing is stored. |
| Settings.DefaultsAreDark | src/main/java/com/swiftsatchel/bedroom/dialog/settings/SettingsUI.java:75-98 | With nothing stored, loadRGBValues gives exactly the "Dark" preset. |
| Settings.InitialIndex | src/main/java/com/swiftsatchel/bedroom/dialog/settings/SettingsUI.java:270-271 | The initial list-box index never exceeds the last entry and never exceeds stored + offset. It is one of those two. |
| Settings.InitialIndexIsEntry | src/main/java/com/swiftsatchel/bedroom/dialog/settings/SettingsUI.java:270-271 | For a non-empty list box the initial index is an entry exactly when stored + offset is not negative. It is stored + offset whenever that is an entry. |
| Settings.SettingsUI.constructor | src/main/java/com/swiftsatchel/bedroom/dialog/settings/SettingsUI.java:47-73 | The loaded colours are edited. The colour chosen by "lastColoring" is on the sliders, and an in-range palette is kept as loaded. The two start-up change events have happened, so changeCount is 2. The options come from the settings and each list box is at its clamped stored index. The start-up events saved the options with the shift length `defaultShiftLength` (not the stored index set afterwards), saved the contrast flag, and saved the edited colours (so a stored green or blue of 300 is written back as 255; for a red of 255 or more see "## Left out") unless high contrast is on, when the loaded colours stay saved. "lastTheme" keeps its stored value and "lastColoring" is the colour being edited. |
| Settings.SettingsUI.UpdateValues | src/main/java/com/swiftsatchel/bedroom/dialog/settings/SettingsUI.java:415-431 | The slider values replace exactly the colour chosen by currentlyColoring, and the other three are kept. The options and the high-contrast flag are saved. The colours are saved only when high contrast is off. |
| Settings.SettingsUI.StateChanged | src/main/java/com/swiftsatchel/bedroom/dialog/settings/SettingsUI.java:452-455 | One more change event is counted, then updateValues. |
| Settings.SettingsUI.SetRed | src/main/java/com/swiftsatchel/bedroom/dialog/settings/SettingsUI.java:149-150 | The red slider keeps the clamped value. Only a change of value reaches stateChanged; otherwise nothing else changes. |
| Settings.SettingsUI.LoadSliders | src/main/java/com/swiftsatchel/bedroom/dialog/settings/SettingsUI.java:124-145 | With the listeners removed, the sliders take the clamped colour being edited. A currentlyColoring outside 0..3 leaves them alone. |
| Settings.SettingsUI.NudgeRedAsWritten | src/main/java/com/swiftsatchel/bedroom/dialog/settings/SettingsUI.java:149-150 | The red value and the number of change events are those of NudgeAsWritten. Each event writes the sliders into the edited colour. |
| Settings.SettingsUI.NudgeRed | src/main/java/com/swiftsatchel/bedroom/dialog/settings/SettingsUI.java:149-150 | The corrected nudge: red and the event count are those of Nudge, and each event writes the sliders into the edited colour. |
| Settings.SettingsUI.UpdateColorSlidersAsWritten | src/main/java/com/swiftsatchel/bedroom/dialog/settings/SettingsUI.java:118-154 | updateColorSliders as written: the sliders take the edited colour, then the nudge as written runs, and the edited colour ends as the sliders show it. |
| Settings.SettingsUI.UpdateColorSliders | src/main/java/com/swiftsatchel/bedroom/dialog/settings/SettingsUI.java:118-154 | updateColorSliders with the corrected nudge. The sliders show the edited colour, clamped, and exactly two change events fire. An in-range palette is left unchanged. The colour values are shown again. |
| Settings.SettingsUI.SetColoringTo | src/main/java/com/swiftsatchel/bedroom/dialog/settings/SettingsUI.java:327-334 | The chosen colour becomes the one being edited and is remembered as "lastColoring". For slots 0 to 3 the sliders show that colour clamped to 0..255; for any other index the sliders keep their values. The palette afterwards is the old one with slot `index` replaced by the sliders, so an in-range palette is unchanged. Two change events have happened, nothing saved is lost, and the colour values are shown. |
| Settings.SettingsUI.SetTheme | src/main/java/com/swiftsatchel/bedroom/dialog/settings/SettingsUI.java:354-405 | highContrast is true exactly for "Contrast". The four colours become ThemePalette(theme). The sliders show the edited slot of that palette, or keep their values when no slot 0 to 3 is being edited. The options and the contrast flag are saved; the colours are saved unless high contrast is on, when the saved colours stay as they were. Two change events have happened, the preset index is remembered as "lastTheme", and the colour values are shown. |
| Settings.SettingsUI.ThemeSelected | src/main/java/com/swiftsatchel/bedroom/dialog/settings/SettingsUI.java:465-468 | Picking entry i of the preset list selects it and remembers it as "lastTheme". High contrast is on exactly for entry 2, "Contrast". The colours become that entry's preset, and the sliders show the edited slot of it (or keep their values when no slot 0 to 3 is edited). The options and contrast flag are saved, the colours unless high contrast is on. Two change events have happened. |
| Settings.SettingsUI.ColoringSelected | src/main/java/com/swiftsatchel/bedroom/dialog/settings/SettingsUI.java:469-470 | Picking entry i of the "Currently editing" list selects it and makes colour i the one being edited and the remembered "lastColoring". For slots 0 to 3 the sliders show that colour clamped; otherwise they keep their values. The palette is the old one with slot i replaced by the sliders, so an in-range palette is unchanged. Two change events have happened and nothing saved is lost. |
| Settings.SettingsUI.SetDefaultMisc | src/main/java/com/swiftsatchel/bedroom/dialog/settings/SettingsUI.java:407-413 | "Stay on top" and "Ask before clocking out early" are set, the shift-length index becomes 3 (four hours), and crash recovery is untouched. |
| Settings.SettingsUI.ActionPerformed | src/main/java/com/swiftsatchel/bedroom/dialog/settings/SettingsUI.java:442-449 | "Set Defaults" resets the options. Any other command leaves them, and crash recovery is always untouched. |
| StartupItems.NonEmpty | src/main/java/com/swiftsatchel/bedroom/dialog/settings/StartupItemsManager.java:88-93 | Loading keeps at most as many entries as are stored. |
| StartupItems.NonEmptyMembers | src/main/java/com/swiftsatchel/bedroom/dialog/settings/StartupItemsManager.java:88-93 | An entry is loaded exactly when it is stored and not empty. |
| StartupItems.NonEmptyAppend | src/main/java/com/swiftsatchel/bedroom/dialog/settings/StartupItemsManager.java:88-93 | Loading a list is loading its two halves one after the other, so the stored order is kept. |
| StartupItems.NonEmptyIdempotent | src/main/java/com/swiftsatchel/bedroom/dialog/settings/StartupItemsManager.java:88-93 | Loading what was loaded gives it back unchanged. |
| StartupItems.NonEmptyKeepsAll | src/main/java/com/swiftsatchel/bedroom/dialog/settings/StartupItemsManager.java:88-93 | A stored list with no empty entry loads unchanged. |
| StartupItems.NamesOf | src/main/java/com/swiftsatchel/bedroom/dialog/settings/StartupItemsManager.java:91 | There is one name per path, so the two lists have equal length. |
| StartupItems.NamesOfIndex | src/main/java/com/swiftsatchel/bedroom/dialog/settings/StartupItemsManager.java:91 | The name at each row is the name of the path at that row. |
| StartupItems.NamesOfAppend | src/main/java/com/swiftsatchel/bedroom/dialog/settings/StartupItemsManager.java:133-134 | Appending paths appends their names. |
| StartupItems.NamesOfRemoveAt | src/main/java/com/swiftsatchel/bedroom/dialog/settings/StartupItemsManager.java:160-163 | Removing the same row from paths and names keeps the names those of the paths. |
| StartupItems.RemoveAtKeepsOthers | src/main/java/com/swiftsatchel/bedroom/dialog/settings/StartupItemsManager.java:160-163 | Removing row i shortens the list by one and keeps every other entry in order. Rows before i stay in place and rows after i move up one. |
| StartupItems.RemoveAtUndone | src/main/java/com/swiftsatchel/bedroom/dialog/settings/StartupItemsManager.java:160-163 | Putting the removed entry back at its row restores the list. |
| StartupItems.KeptSelection | src/main/java/com/swiftsatchel/bedroom/dialog/settings/StartupItemsManager.java:149-154 | After a removal the selection is a valid row, or none exactly when the list is empty. It is the removed row when that row still exists, and otherwise the row above. |
| StartupItems.StartupItemsManager.constructor | src/main/java/com/swiftsatchel/bedroom/dialog/settings/StartupItemsManager.java:20-40 | The dialog opens with the non-empty stored entries, in order, their names alongside, and nothing selected. |
| StartupItems.StartupItemsManager.CreateList | src/main/java/com/swiftsatchel/bedroom/dialog/settings/StartupItemsManager.java:82-93 | The loop appends exactly the non-empty stored entries, in order, to the paths and their names to the names. The two lists stay in step. |
| StartupItems.StartupItemsManager.AddAnApp | src/main/java/com/swiftsatchel/bedroom/dialog/settings/StartupItemsManager.java:121-142 | An item is added exactly when fewer than 7 are listed and a file was chosen. It goes at the end of both lists. At 7 or more the outcome is the "full" error, and otherwise nothing changes. A list of at most 7 never grows past 7. |
| StartupItems.StartupItemsManager.RemoveAppFromBoth | src/main/java/com/swiftsatchel/bedroom/dialog/settings/StartupItemsManager.java:160-163 | Row index leaves both lists, which stay in step, and the list's selection follows its model. |
| StartupItems.StartupItemsManager.SetSelectedIndex | src/main/java/com/swiftsatchel/bedroom/dialog/settings/StartupItemsManager.java:151-154 | Selecting an existing row selects it. Any other index leaves the selection as it is. |
| StartupItems.StartupItemsManager.RemoveAnApp | src/main/java/com/swiftsatchel/bedroom/dialog/settings/StartupItemsManager.java:144-158 | With nothing selected nothing changes. Otherwise the selected row leaves both lists and the selection is KeptSelection: the same row if it still exists, else the row above, and none once the list is empty. |
| StartupItems.StartupItemsManager.ActionPerformed | src/main/java/com/swiftsatchel/bedroom/dialog/settings/StartupItemsManager.java:110-119 | "Add" returns addAnApp's outcome: Full exactly when the list already holds Capacity entries, Added exactly when there is room and a file was chosen, and then both lists gain the entry at the end; otherwise nothing changes, and the selection never moves. "Remove" with nothing selected changes nothing; otherwise it removes the selected row from both lists and selects the same row if it still exists, else the row above, or none once the list is empty. Any other command changes nothing. |

## Left out

- The orders-per-hour figure (`oph.format((orders*3600)/totalSecClocked)`) is floating-point division formatted by DecimalFormat. It enters the clock as the formatter `rateText`.
- `LocalTime.now()`, `LocalTime.until` and `ChronoUnit` are replaced by integer inputs to `Garage.UI.GetTime`.
- Garage.OrdersNeeded: models `Math.round(target * minutes / 60.0 - 1)` exactly over the rationals. It does not model double rounding error or the long result's range.
- Java's `int` and `long` overflow is not modelled. Integers are unbounded. That matches the source while two limits hold. The `int` hour field must not pass 2147483647 hours, which is far longer than any shift. And `ordersNeeded - orders` must stay within `int`. That difference depends on `target`, not on the shift length. Past that, `(int) (ordersNeeded - orders)` in getStats saturates at 2147483647, which only an order target far beyond any real one reaches.
- `orders` is a `double` in the source. It only ever changes by whole numbers, so it is an `int`, and `(int) orders` is the identity.
- The break windows (`Window.enterBreakWnd` and `leaveBreakWnd`) flip `inBreak` elsewhere. `Garage.UI.EnterLeaveBreak` returns which window is asked for. `Window.packNow`, `requestFocus`, fonts, colours and layout are not modelled.
- Preferences persistence (`Main.userPrefs.put*`, `Settings.save*`) is modelled by the fields `savedMisc`, `savedHighContrast`, `savedColours`, `lastTheme` and `lastColoring`. The reloads `reloadSettings` and `Main.updateSettings` are not modelled.
- Settings.SettingsUI.constructor: it takes the colours loadRGBValues read as a parameter `loaded`, rather than reading the map itself. `Settings.LoadPalette` gives them from the preferences, and `Settings.DefaultsAreDark` states its defaults. The options come in as `contrast`, `onTop`, `crashRecovery`, `askEarly` and `defaultShiftLength`, which are the values the `Settings` getters return.
- Settings.SettingsUI.constructor: runs the corrected slider nudge (`Settings.SettingsUI.UpdateColorSliders`). When the colour chosen by "lastColoring" has a stored red of 255 or more (the slider first clamps it to 255), the source's updateColorSliders (SettingsUI.java:149-150) fires one change event instead of two, so changeCount is 1, and it rewrites and saves that colour with red 254. `Settings.SettingsUI.UpdateColorSlidersAsWritten` and `Settings.NudgeAsWrittenAtTop` state that behaviour.
- Settings.SettingsUI.SetColoringTo: runs the corrected slider nudge. When the chosen colour has a stored red of 255 or more (the slider first clamps it to 255), the source fires one change event instead of two and rewrites and saves the colour with red 254, as `Settings.SettingsUI.UpdateColorSlidersAsWritten` states.
- Settings.SettingsUI.SetTheme: runs the corrected slider nudge. When the edited slot of the new preset has red 255 (for example "Pastel Blue" while editing Text), the source fires one change event instead of two and rewrites and saves that colour with red 254, as `Settings.SettingsUI.UpdateColorSlidersAsWritten` states.
- Settings.SettingsUI.ThemeSelected: applies `Settings.SettingsUI.SetTheme`, so at red 255 in the edited slot it keeps the colour where the source writes and saves red 254 after one change event.
- Settings.SettingsUI.ColoringSelected: applies `Settings.SettingsUI.SetColoringTo`, so at a stored red of 255 or more in the chosen colour it keeps the clamped colour where the source writes and saves red 254 after one change event.
- JComboBox.setSelectedIndex throws for an index below -1 or past the end (`createMiscOptions`, `createListBoxRow`). The model stores the index as given, because that exception is not part of the panel's logic.
- `Ops.createNumberList(false, 1, 12, "h ")` is taken to give the twelve entries 1h to 12h (`ShiftLengthCount`). `Ops` is not part of this model.
- A JComboBox selection change delivers two item events (deselect, then select), and each runs itemStateChanged. `Settings.SettingsUI.ThemeSelected` and `ColoringSelected` model one event. A second event repeats the same preset or colour choice.
- Holding Shift to move all three sliders together (`equalizeSliders`), the FloatingSpinner popup, slider labels and tooltips, `WorkAppsManager` and `SettingsWindow` are not modelled.
- The file chooser, its extension filter, `File.getName` and the "full" ErrorDialog become the `choice` input, the `nameOf` function and the `Full` outcome.
- `windowClosing` saves `itemDirs.toString()`. Writing and parsing that stored string (`Settings.getStartupItemsList`) are not modelled.
- StartupItems.SelectionAfterRemove: the JList allows several selected rows, but the selection is modelled as its lowest selected row. With rows r and r+2 selected, removing row r leaves the old row r+2 selected, which the model records as none. RemoveAnApp's final selection is unaffected, because setSelectedIndex replaces the whole selection.
- StartupItems.StartupItemsManager.RemoveAppFromBoth: requires a row of the list. `ArrayList.remove` throws otherwise, and its only caller passes the selected row.
- StartupItems.StartupItemsManager.SetSelectedIndex: treats an index below -1 like -1, leaving the selection alone. The only indices passed are a row of the list and that row minus one.

## Findings

| source | as written | input that shows it | evidently intended | confidence | as-written member | corrected member |
|---|---|---|---|---|---|---|
| src/main/java/com/swiftsatchel/bedroom/dialog/settings/SettingsUI.java:149-150 | `redSlider.setValue(getValue() + 1)` then `setValue(getValue() - 1)`. At 255 the first call is clamped and sends no event, and the second moves red to 254. So only one change event fires, and the edited colour is rewritten and saved with red 254. | Open the settings, or pick a colour to edit, while the edited colour has a stored red of 255 or more, which the slider clamps to 255. For example, a stored text red of 300, or the "Pastel Blue" preset while editing Text or Button Text (255, 255, 255). | Two change events, as the comment at line 27 counts on ("2 are done on startup"), and the colour kept as the sliders show it (clamped into 0..255). Going down then up at 255 does this. | high; not executed | Settings.SettingsUI.UpdateColorSlidersAsWritten, Settings.NudgeAsWrittenAtTop, Settings.NudgeFromStored | Settings.SettingsUI.UpdateColorSliders, Settings.NudgeKeepsRed |
