# PUPSyS status, chart and calibration logic in Dafny

PUPSyS is a React Native app for pressure-ulcer prevention. Wearable
sensor units report pressure, temperature and humidity. The app:

- colours each reading and each sensor against red/orange cutoffs;
- sums the colours up as "Act Now", "Pay Attention" or "Good Job";
- charts averaged ADC (analogue-to-digital converter) trial data with clock-time labels;
- lets the carer pick a device, set where it logs, run a three-step weight calibration, and disconnect or reset devices;
- keeps a patient record with a medical-condition checklist.

This project models that logic and proves properties of it. Modules:

- `Series` (api/sensor.js): window averaging (`averageEveryXNumbers`), the
  averaged example trial (`averagedAdc`) and its scaling (`getScaledAdc`).
  `SampleData` holds the 1647 example ADC counts.
- `Labels` (api/sensor.js): the "hh:mm AM|PM" labels of `getReadingTimes`,
  the stride pick of `getEveryXthElement` and `getGraphLabels`. The stride
  `N/4` is scaled by 4 so it stays an integer.
- `Thresholds` (api/threshold.js): the per-metric RED/ORANGE cutoff table.
- `Colors`, `Severity`, `Display`: colour keys treated as opaque tokens, the
  "any red, else any orange, else green" reduction shared by the screens, and
  the icon and summary choices made from a colour.
- `StatusOne`, `StatusTwo`, `StatusThree`: the three status screens,
  navigation/Status.js, Status2.js and Status3.js. Each keeps its own
  observable differences:
  - Status.js has a pressure orange cutoff of 320;
  - in Status2.js the first alarming device decides each fleet-wide metric;
  - Status3.js per-reading lists have no orange: with the threshold table's cutoffs the orange
    band is shown red.
- `Devices`, `Calibration` (navigation/Calibration.js): `Device` is a class.
  The screen copies the device list shallowly and then writes `logTo`, `id`
  and `calibration` on the shared objects. As in App.js:33, the initial list
  is the `exampleDevices` array itself, so a reset hands back edited objects.
- `Patient` (navigation/Patient.js): the condition toggle and the record
  updaters.

Inputs the source obtains from its environment are parameters here:
- the current time, as local epoch milliseconds;
- the number `parseInt` produced;
- the URI the document picker returned;
- the colours and the per-reading cutoffs Status3.js imports from api/sensor.js, which does
  not define them.

## Model

| member | source | states |
|---|---|---|
| Colors.HexInjective | assets/styles.js:59-118 | distinct colour tokens stand for distinct style strings, so token equality is the source's `===` on colours |
| Colors.GreenIsNotTextPrimary | assets/styles.js:73-115 | `globalColors.green` differs from both theme `textPrimary` values |
| Thresholds.Threshold | api/threshold.js:14-51 | humidity 50/25, temperature 50/40, pressure 350/325; orange lies below red for every metric |
| Thresholds.BandsAreIntervals | api/threshold.js:14-51 | with red checked first, red, orange and below are three disjoint inclusive intervals; the orange cutoff itself is orange |
| Thresholds.BandMonotone | api/threshold.js:14-51 | raising a reading never lowers its band |
| Devices.ExampleDevices | api/sensor.js:10-63 | four example devices whose ids equal their positions, none paused |
| Series.WindowMeansLength | api/sensor.js:1724-1738 | window 0 gives []; otherwise there are floor(N/\|x\|) means |
| Series.WindowMeansAt | api/sensor.js:1724-1738 | mean k is the sum of samples k\*\|x\| .. k\*\|x\|+\|x\|-1 divided by x |
| Series.WindowMeansDropsTail | api/sensor.js:1724-1738 | samples after the last complete window never affect the result |
| Series.WindowMeansPrefix | api/sensor.js:1724-1738 | cutting the samples at any window boundary inside the last partial window leaves the means unchanged |
| Series.WindowMeansSnoc | api/sensor.js:1728-1734 | appending one complete window appends exactly its mean |
| Series.AverageEveryXNumbers | api/sensor.js:1724-1738 | the running-sum loop returns exactly the window means (x == 0 never pushes) |
| Series.WindowMeansExample | api/sensor.js:1724-1738 | [1,2,3,4,5] averaged in pairs is [1.5, 3.5]; the trailing 5 is dropped |
| Series.TrialShape | api/sensor.js:1799 | any 1647 samples averaged over 60 give 27 means, each a 60-sample mean, and ignore samples 1620-1646 |
| Series.AveragedAdcShape | api/sensor.js:68-1799 | `exampleAdc` has 1647 samples; `averagedAdc` has 27 means and the last 27 samples are never averaged |
| Series.Scale | api/sensor.js:1808 | `ScaledBy`: same length, element i is s[i] \* k |
| Series.ScaledAdc | api/sensor.js:1806-1809 | `getScaledAdc(k)` has 27 values, as many as `averagedAdc`, and value i is mean i of `averagedAdc` times k (`ScaledBy`) |
| Series.ScaleIdentityAndZero | api/sensor.js:1806-1809 | scaling by 1 returns the series; scaling by 0 gives zeros of the same length |
| Labels.Hours24 | api/sensor.js:1752 | the local hour lies in 0..23 |
| Labels.Minutes | api/sensor.js:1754 | the local minute lies in 0..59 |
| Labels.Hours12 | api/sensor.js:1753 | `h24 % 12 \|\| 12`: in 1..12 and congruent to h24 modulo 12 |
| Labels.Hours12Back | api/sensor.js:1753-1757 | the 12-hour value and the AM/PM half determine the 24-hour value |
| Labels.FormatTimeShape | api/sensor.js:1752-1757 | label is 8 characters "hh:mm AM\|PM": both fields zero-padded to two digits, suffix AM exactly when h24 < 12, and parsing the label back yields the hour and minute |
| Labels.FormatTimeLayout | api/sensor.js:1752-1757 | the label is the two hour digits, ':', the two minute digits, ' ' and the AM/PM suffix |
| Labels.ParseLayout | api/sensor.js:1752-1757 | reading such a label back gives hour h12 % 12 (+ 12 for PM) and the minute |
| Labels.GetReadingTimes | api/sensor.js:1746-1762 | one label per reading; reading i is stamped (N-1-i)\*y seconds before now; the last label is now |
| Labels.ReadingInstantsSpaced | api/sensor.js:1751 | consecutive labels are y seconds apart and the last one is now |
| Labels.At | api/sensor.js:1775 | `list[idx]` is defined exactly for an index inside the list |
| Labels.EveryXthElement | api/sensor.js:1770-1779 | the stride loop from x-1 in steps of x, floor-indexed, equals the reference pick; stride <= 0 excluded because the loop never ends |
| Labels.GraphIndicesIncrease | api/sensor.js:1788-1792 | for N >= 4 the indices floor(j\*N/4)-1, j = 1..4, strictly increase from >= 0 and end at N-1 |
| Labels.GraphPicks | api/sensor.js:1770-1792 | for N >= 4 the stride N/4 picks exactly the four graph indices |
| Labels.GraphPicksAt | api/sensor.js:1770-1792 | the same, element by element, with the last pick being the last label |
| Labels.GraphLabelPicks | api/sensor.js:1788-1792 | picks from the reading labels: for N >= 4 the labels of the four graph indices, ending at now; for N < 4 an undefined first label |
| Labels.ShortSeriesPicks | api/sensor.js:1770-1792 | for N in 1..3 the first index is -1 (undefined label); the picks are 7, 5 and 5 entries long, given exactly |
| Labels.GetGraphLabels | api/sensor.js:1788-1792 | for N >= 4 exactly four labels, label j being reading floor(j\*N/4)-1 and the last being now; for N < 4 the first label is undefined; N = 0 excluded because the loop never ends |
| Severity.AnyIs | navigation/Status.js:116-120 | the early-return `for...of` scan finds the target exactly when it occurs |
| Severity.WorstOf | navigation/Status.js:112-129 | red iff some colour is red; orange iff none red and some orange; green otherwise (also for []) |
| Severity.MaxRankBounds | navigation/Status.js:112-129 | the reference maximum rank is 2, 1, 0 under the same membership conditions |
| Severity.WorstOfIsMaximum | navigation/Status.js:112-129 | the two-scan reduction is the maximum severity, at least as severe as every member |
| Severity.WorstOfDependsOnMembership | navigation/Status.js:112-129 | order and repetition of the colours do not matter |
| Severity.WorstOfExamples | navigation/Status.js:112-129 | [] gives green, [green, orange, green] orange, [red, green] red |
| Display.MetricIcon | navigation/Status2.js:305-321 | red and orange give the fixed red/orange icon; only any other colour uses the dark flag (Dark vs Light) |
| Display.SummaryText | navigation/Status2.js:426-434 | "Act Now" iff red, "Pay Attention" iff orange, "Good Job" iff neither; Status3.js's `Summary` (navigation/Status3.js:508-516) makes the same choice |
| Display.SummaryFace | navigation/Status2.js:440-448 | ActNow iff red, PayAttention iff orange, GoodJob iff neither; Status3.js's `Summary` (navigation/Status3.js:522-530) makes the same choice |
| Display.SummaryLockstep | navigation/Status2.js:426-448 | text and face always agree |
| StatusOne.PressureColor | navigation/Status.js:135-143 | red from 350, orange on [320, 350), "primary" below 320 |
| StatusOne.TemperatureColor | navigation/Status.js:165-173 | red from 50, orange on [40, 50), "primary" below 40 |
| StatusOne.HumidityColor | navigation/Status.js:195-203 | red from 50, orange on [25, 50), "primary" below 25 |
| StatusOne.ReadingColorMonotone | navigation/Status.js:135-203 | raising any one reading never yields a less severe colour |
| StatusOne.AgreementWithThresholdTable | navigation/Status.js:135-203 | temperature and humidity match the table's bands; pressure matches on red but is also orange on [320, 325) |
| StatusOne.PressureCutoffDiffersFromTable | navigation/Status.js:139 | pressure 320 is orange here but below the table's orange band |
| StatusOne.ReadingSource | navigation/Status.js:149-219 | red/orange icon exactly for a red/orange reading; otherwise the theme icon |
| StatusOne.ReadingSourceThemeIndependent | navigation/Status.js:149-219 | for red and orange readings the dark flag does not change the icon |
| StatusOne.SummaryColor | navigation/Status.js:112-129 | the card is red iff some reading is at or above its red cutoff, orange iff none is and some is at or above orange, green iff all are below orange |
| StatusOne.SummaryDominatesReadings | navigation/Status.js:112-129 | the card is at least as severe as each reading |
| StatusOne.SummaryColorMonotone | navigation/Status.js:112-203 | raising any reading never makes the card less severe |
| StatusOne.CardSummaryText | navigation/Status.js:225-234 | "Act Now"/"Pay Attention"/"Good Job" exactly for a red/orange/green card |
| StatusOne.CardSummaryFace | navigation/Status.js:240-249 | the face follows the text in lockstep |
| StatusOne.ExampleData | navigation/Status.js:353-383 | four example sensors with ids 1..4 |
| StatusOne.CardColors | navigation/Status.js:93-101 | one card per sensor, in order, each with that sensor's summary colour |
| StatusOne.ExampleSummaries | navigation/Status.js:353-383 | sensors 1 and 2 "Act Now", 3 "Pay Attention", 4 "Good Job" |
| StatusTwo.MetricColorOverall | navigation/Status2.js:171-213 | only red, orange or the theme text colour; the theme colour iff no device reaches orange (including no devices) |
| StatusTwo.FirstAlarmDecides | navigation/Status2.js:171-181 | the first device at or above orange decides: red if it is also at or above red, else orange, whatever later devices read |
| StatusTwo.FirstAlarmExists | navigation/Status2.js:171-181 | a non-neutral metric colour always comes from a first alarming device |
| StatusTwo.MetricRedIffFirstAlarmRed | navigation/Status2.js:171-213 | a metric is red iff its first alarming device reads at or above red |
| StatusTwo.EarlierOrangeWins | navigation/Status2.js:171-181 | an orange device before a red one gives orange; the other order gives red |
| StatusTwo.OverallColor | navigation/Status2.js:219-237 | the if-chain equals the shared worst-of reduction of the three metric colours |
| StatusTwo.FleetColor | navigation/Status2.js:219-237 | an empty list is green; the card is green iff no device reaches orange on any metric |
| StatusTwo.FleetColorRed | navigation/Status2.js:171-237 | the card is red iff for some metric the first alarming device reads at or above red |
| StatusTwo.FleetColorIgnoresTheme | navigation/Status2.js:171-213 | the dark flag never changes the overall colour |
| StatusTwo.NeutralThemeOnly | navigation/Status2.js:171-213 | the dark flag changes a metric colour only where it is the neutral theme colour |
| StatusTwo.CheckMark | navigation/Status2.js:285-296 | "✓" exactly for green, "✖" otherwise |
| StatusTwo.OverallReadingsAlwaysCrossed | navigation/Status2.js:171-296 | no metric colour is green, so every overall reading shows "✖" |
| StatusTwo.OverallIcon | navigation/Status2.js:305-365 | RED/ORANGE icon for a red/orange metric; the theme icon iff no device reaches orange |
| StatusTwo.ExampleFleet | navigation/Status2.js:171-237 | with `exampleDevices` (api/sensor.js:11-23) every metric is red and the summary is "Act Now" |
| StatusThree.BackgroundColor | navigation/Status3.js:89-112 | header: no colour; falsy (0) reading in per-reading mode: no colour; overall mode: the device's most severe colour; per-reading: red at or above either cutoff, else green, never orange |
| StatusThree.OrangeBandShownRed | navigation/Status3.js:105-111 | if the list's cutoffs are the threshold table's, a non-zero reading in the orange band is shown red |
| StatusThree.ReadingText | navigation/Status3.js:114-131 | "?" without a device; overall mode: "Act Now"/"Pay Attention"/"Good Job" from the colour; per-reading: the raw reading |
| StatusThree.SensorCardColor | navigation/Status3.js:363-381 | red iff some metric colour is red, orange iff none red and some orange, green otherwise |
| StatusThree.OverallHomeColor | navigation/Status3.js:253-271 | the if-chain agrees with the sensor card's scans and is the maximum severity |
| Calibration.SelectableUnits | navigation/Calibration.js:33 | only "g" and "oz" can be picked, so kg and lb never occur |
| Calibration.GramsPerUnit | navigation/Calibration.js:369-377 | the gram counts 1, 28.3495, 1000 and 453.592 of g, oz, kg and lb, each at least 1 |
| Calibration.ToGramsAsWritten | navigation/Calibration.js:369-377 | the conversion as written: the result times the unit's gram count is the entered weight |
| Calibration.ToGramsAsWrittenShrinks | navigation/Calibration.js:369-377 | as written, a non-negative weight stays non-negative and never grows |
| Calibration.OunceAsWrittenIsNotGrams | navigation/Calibration.js:369-377 | as written, 1 oz, which the dropdown offers, becomes less than 1 g although an ounce is 28.3495 g |
| Calibration.ToGrams | navigation/Calibration.js:369-377 | the corrected conversion: the weight times the unit's gram count, never smaller than a non-negative weight |
| Calibration.AsWrittenIsInverse | navigation/Calibration.js:369-377 | the division as written undoes the corrected conversion and vice versa, so it converts grams into the unit |
| Calibration.DotState | navigation/Calibration.js:302-308 | 2 (done) iff the dot is below the step, 1 (current) iff equal, 0 (pending) iff above |
| Calibration.DotColor | navigation/Calibration.js:314-322 | pending: theme button fill, current: greenAlpha, done: green |
| Calibration.DotsFollowStep | navigation/Calibration.js:299-361 | dot colours for each step; after the reset to 0 every dot is pending; during the wizard one dot is current |
| Calibration.KeepRenumbered | navigation/Calibration.js:489-496 | keeps every device but the skipped one, in order, each kept object's id set to its original index and nothing else changed |
| Calibration.CalibrationScreen.constructor | navigation/Calibration.js:52-58 | as in App.js:33, the device list is the `exampleDevices` array itself (fresh, distinct objects), device 0 selected, wizard closed |
| Calibration.CalibrationScreen.HandleLogToChange | navigation/Calibration.js:68-78 | same list; only the selected device object gets the new `logTo`; every other device and field unchanged |
| Calibration.CalibrationScreen.HandleClick | navigation/Calibration.js:98-105 | nothing for the header row or while calibrating; otherwise the selection becomes the device's id |
| Calibration.CalibrationScreen.ListItemColor | navigation/Calibration.js:111-119 | greenAlpha exactly for the row whose id is the selection; no colour otherwise |
| Calibration.CalibrationScreen.ToggleCalibrating | navigation/Calibration.js:283-287 | the wizard opens at step 1 with no weights in grams; closing keeps everything else |
| Calibration.CalibrationScreen.SelectCalibrationUnit | navigation/Calibration.js:434 | sets the unit, nothing else |
| Calibration.CalibrationScreen.EnterWeight | navigation/Calibration.js:428 | sets the entered weight, nothing else |
| Calibration.CalibrationScreen.ConfirmReadings | navigation/Calibration.js:403-411 | the selected device object's calibration becomes the readings held now; the readings are cleared; nothing else changes |
| Calibration.CalibrationScreen.HandleSubmit | navigation/Calibration.js:368-398 | steps 1-2: the weight in grams (corrected conversion) stored in slot step-1, other slots kept, step advances; step 3: step 0, wizard closed, device gets the readings from before this submit (third weight lost), devices list untouched |
| Calibration.CalibrationScreen.ConfirmDisconnect | navigation/Calibration.js:487-501 | removes exactly the selected device, keeps the rest in order with ids set to original indices; selection decremented only when it was the last index, so removing the only device leaves -1 |
| Calibration.CalibrationScreen.ResetDevices | navigation/Calibration.js:544-546 | the list becomes the `exampleDevices` array again |
| Calibration.EditSurvivesReset | navigation/Calibration.js:544-546 | a `logTo` edit made by `handleLogToChange` (lines 68-78) is still there after "Reset Devices", because the list is the shared `exampleDevices` array (App.js:33) |
| Calibration.DisconnectThenClick | navigation/Calibration.js:487-501 | after disconnecting device 1 the ids are 0, 2, 3 and clicking (`handleClick`, lines 98-105) the last row selects 3, past the end |
| Calibration.DisconnectLast | navigation/Calibration.js:487-501 | disconnecting the selected last of four devices selects row 2 and renumbers the rest 0, 1, 2 |
| Calibration.WizardDropsThirdWeight | navigation/Calibration.js:368-411 | a full run with 100, 200, 300 g stores [100, 200, null] |
| Patient.AllConditions | navigation/Patient.js:25 | five distinct conditions |
| Patient.Without | navigation/Patient.js:62 | the filter removes the condition and keeps membership of every other entry |
| Patient.WithoutAppend | navigation/Patient.js:62 | the filter splits over concatenation, so kept entries stay in order |
| Patient.WithoutAbsent | navigation/Patient.js:62 | filtering an absent condition changes nothing |
| Patient.WithoutCounts | navigation/Patient.js:62 | every copy of the condition goes; other multiplicities stay |
| Patient.Toggled | navigation/Patient.js:59-71 | membership of the toggled condition flips; every other condition keeps its membership |
| Patient.ToggleTwice | navigation/Patient.js:59-71 | an absent condition is appended at the end, and toggling it twice restores the list |
| Patient.Checked | navigation/Patient.js:85 | a box is checked exactly when its condition is in the list |
| Patient.ToggleFlipsOneCheckbox | navigation/Patient.js:59-85 | toggling box i flips box i and no other |
| Patient.PatientScreen.ToggleCondition | navigation/Patient.js:59-71 | the list becomes the toggled list: appended at the end when absent, every copy removed when present; the patient record unchanged |
| Patient.PatientScreen.UpdatePatientName | navigation/Patient.js:113-117 | only `name` changes |
| Patient.PatientScreen.UpdatePatientWeight | navigation/Patient.js:145-151 | only `weight` changes |
| Patient.PatientScreen.UpdatePatientWeightUnit | navigation/Patient.js:157-162 | only `weightUnit` changes |
| Patient.PatientScreen.UpdatePatientHeight | navigation/Patient.js:215-221 | only `height` changes |
| Patient.PatientScreen.UpdatePatientHeightUnit | navigation/Patient.js:227-232 | only `heightUnit` changes |
| Patient.EditNameKeepsRest | navigation/Patient.js:113-117 | editing the example patient's name keeps weight, units, height and age |

## Left out

- Rendering, styles, components, navigation wiring, React hook re-render semantics except where a
  mount resets the calibration sequence's state, dropdown open/close flags, drag gestures,
  alerts, the document picker (its URI is a parameter) and `console.log`.
- Wall clock, time zone and daylight saving: `getReadingTimes` takes "now" as local epoch
  milliseconds, and the time of day is that value modulo one day.
- Floating point: readings, means, scale factors and unit conversions are exact reals.
- `parseInt`: its result is passed in (None for NaN).
- Functions Status2.js and Status3.js import from api/sensor.js that the file does not define
  (`getSummaryColor`, `getPressureColor`, `getMostSevereColor`, `getAlpha`, `get*Source`,
  `get*ColorOverall`), and the `thresholds` object Status3.js:32 imports from it: Status3's
  uses take their colours as inputs. The per-reading cutoffs that Status3.js:202, 220 and 238
  read from `thresholds` are the `orange` and `red` fields of `StatusThree.Mode.PerReading`.
  In the source those lookups would throw. `OrangeBandShownRed` assumes the cutoffs are
  api/threshold.js's table.
- The per-device list of Status2.js (`DeviceList`), which only renders colours from those functions.
- Status3.js random chart data and chart rendering; api/simulation.js timers and randomness.
- The `paused` and `expanded` device flags are carried but never read.
- Device fields other than `id`, `logTo` and `calibration` are constant in `Device`, since no
  modelled handler writes them.
- Labels.GetGraphLabels: for N in 1..3 the contract states only that the first label is
  undefined; Labels.ShortSeriesPicks gives the exact picks.
- Calibration.CalibrationScreen.HandleLogToChange, ConfirmReadings, HandleSubmit (step 3) and
  ConfirmDisconnect: require the selection to lie inside the device list. In the source the
  selection can fall outside it: after a disconnect, clicking a later row selects an id past the
  end (`DisconnectThenClick` selects 3 of 3 devices), and removing the only device leaves -1.
  `devices[currentDevice]` is then undefined and the screen throws, first when it renders the
  sensor details (navigation/Calibration.js:214; also lines 75, 409 and 504). The model excludes
  that path by precondition.
- Calibration.CalibrationScreen.HandleSubmit: converts with the corrected `ToGrams`, not the
  division as written (see Findings).

## Findings

| source | as written | input that shows it | evidently intended | confidence | as-written member | corrected member |
|---|---|---|---|---|---|---|
| navigation/Calibration.js:369-377 | the weight is divided by the unit's gram count (28.3495 for oz, 1000 for kg, 453.592 for lb) | 1 oz gives about 0.0353 g instead of 28.3495 g (`OunceAsWrittenIsNotGrams`) | multiply by the gram count, so a weight in oz becomes grams | not executed | Calibration.ToGramsAsWritten | Calibration.ToGrams |
