# CO2 sensor telemetry tick, in Dafny

This project models the client-side telemetry engine of the IEEE Carbon Capture dashboard. The engine is the `useSensorData` hook. Every poll tick it does five things:

- It asks the backend relay for the ESP32's latest CO2 reading. If the reply has no truthy `value`, it uses the fallback 400.
- It moves the simulated companion sensor S2 by a clamped random walk in [350, 520].
- It draws five independent filler sensors, S3..S7.
- It builds a seven-sensor snapshot and appends an aggregate point (time, rounded mean, S1, S2) to a chart history capped at 50 points.
- It lists a CRITICAL alert for every sensor above 480 ppm.

From the latest snapshot it also derives the average and the warning and critical counts.

The tick is a pure function `Poll.Tick` over an immutable `State`: the walk's previous value, the snapshot, the history and the alerts. The outside world enters as parameters:

- the backend reply is an abstract `Adapter.Reply`;
- every `Math.random()` call is a `JsMath.Unit`, a real in [0, 1);
- the clock is an opaque `Instant` plus the formatted time label.

`Math.round(x)` is `floor(x + 1/2)` over exact reals.

Modules:

- `Numerals`: decimal text of integers and `Number()` of digit strings.
- `JsMath`: `Math.random` draws, `min`/`max`, `Math.round`.
- `Sensors`: the records, `ZONES`, the severity bands.
- `Adapter`: the fallback decision.
- `Generator`: the walk and the fillers.
- `Composer`: the snapshot.
- `Filtering`: `Array.filter`.
- `Derived`: mean, counts, alerts.
- `History`: the 50-point window.
- `Poll`: the tick and runs of ticks.
- `PollScenarios`: a worked example.
- `Views`: two pages' colour rules.

Behaviour of the code worth noting:

- S2 is simulated but typed `REAL` like S1.
- Each walk step adds `(Math.random() - 0.5) * 10`, an offset in [-5, 5), to the previous S2, then clamps the sum to [350, 520] and rounds it, so S2 moves by at most 5 ppm per tick.
- A backend value of 0 (or `false`, `null`, `""`) falls back to 400 because the check is truthiness. A non-numeric string is not treated as a failure: `Number()` turns it into NaN.
- `Poll.Init` starts the walk at 395.

## Model

| member | source | states |
|---|---|---|
| `Numerals.DecimalText` | src/hooks/useSensorData.ts:36 | the text of a number (as in `S${i + 3}`) is non-empty, all digits, without a leading zero, and one character long exactly below 10 |
| `Numerals.DecimalRoundTrip` | src/hooks/useSensorData.ts:22 | `Number()` of the text of any natural number gives that number back |
| `Numerals.CanonicalRoundTrip` | src/hooks/useSensorData.ts:58 | a digit string without leading zeros is exactly the text of its value: the decimal spelling of a number is unique |
| `Numerals.IntText` | src/hooks/useSensorData.ts:58 | the text of an integer (as in `${s.co2}`) is its magnitude's digits without leading zeros, after a '-' exactly for negative values, and reads back as the integer |
| `Adapter.ExternalReading` | src/hooks/useSensorData.ts:15-22 | S1 differs from 400 only when the reply is an object with a truthy `value`; a non-zero reported number is taken as is (see also `FallbackIffNoValue`) |
| `Adapter.FallbackCases` | src/hooks/useSensorData.ts:15-25 | an unreachable backend, a `null` body, or a missing, `null`, `false`, `0` or empty `value` yields the fallback 400 |
| `Adapter.ReportedNumberPassesThrough` | src/hooks/useSensorData.ts:20-22 | a reported number reaches S1 unchanged unless it is 0, which is replaced by 400 |
| `Adapter.ReportedTextPassesThrough` | src/hooks/useSensorData.ts:20-22 | a reading reported as decimal text reaches S1 as its number, "0" included |
| `Adapter.FallbackIffNoValue` | src/hooks/useSensorData.ts:15-22 | S1 reads 400 exactly when the reply has no truthy value or reports 400 itself |
| `JsMath.Round` | src/hooks/useSensorData.ts:48 | `Math.round` returns the integer within half a unit of its argument, rounding halves up |
| `JsMath.RoundWithin` | src/hooks/useSensorData.ts:28 | a real between two integers rounds to an integer between them |
| `Generator.Offset` | src/hooks/useSensorData.ts:28 | the walk's offset `(r - 0.5) * 10` lies in [-5, 5) |
| `Generator.NextCompanion` | src/hooks/useSensorData.ts:28 | for any previous value and draw the new S2 lies in [350, 520]; from a previous value in that band it moves by at most 5 ppm |
| `Generator.NextFiller` | src/hooks/useSensorData.ts:37 | every filler `round(350 + r * 170)` lies in [350, 520] |
| `Generator.FillerCoversBand` | src/hooks/useSensorData.ts:37 | every value in [350, 520] is produced by some draw, so the filler band is tight |
| `Generator.Walk` | src/hooks/useSensorData.ts:28-29 | any number of successive walk steps stay in [350, 520], and each moves at most 5 ppm from the value before it |
| `Sensors.Classify` | src/hooks/useSensorData.ts:68-69 | the three severity bands below 420, 420..480 and above 480; its contract is carried by `FiltersMatchBands`, `ClassifyMonotone` and `ClassifyBoundaries` |
| `Sensors.FiltersMatchBands` | src/hooks/useSensorData.ts:68-69 | the hook's filters `>= 420 && <= 480` and `> 480` select exactly the Warning and Critical bands, and a reading in neither filter is Normal |
| `Sensors.ClassifyMonotone` | src/hooks/useSensorData.ts:68-69 | a higher reading never has a lower severity |
| `Sensors.ClassifyBoundaries` | src/hooks/useSensorData.ts:68-69 | 419 is Normal, 420 and 480 are Warning, 481 is Critical |
| `Composer.FillerIdsFollowTemplate` | src/hooks/useSensorData.ts:36 | the filler ids are `S${k + 3}` for filler k |
| `Composer.SensorIdsDistinct` | src/hooks/useSensorData.ts:33-36 | the seven sensor ids are pairwise distinct |
| `Composer.FillerIdNumber` | src/hooks/useSensorData.ts:36 | a filler id is 'S' followed by digits that read back as the sensor's 1-based position |
| `Composer.Compose` | src/hooks/useSensorData.ts:32-44 | a snapshot has 7 sensors in fixed order: S1 with the ESP32 value and S2 with the walk value, both REAL, then S3..S7 DUMMY with the filler values; sensor i has zone `ZONES[i]`; all share the tick's instant |
| `Filtering.Filter` | src/hooks/useSensorData.ts:57 | the filter keeps only elements of the input that satisfy the predicate, and keeps every such element |
| `Filtering.Positions` | src/hooks/useSensorData.ts:57 | the positions satisfying a predicate are strictly ascending, in range, and include every satisfying position |
| `Filtering.FilterAtPositions` | src/hooks/useSensorData.ts:57 | the filter's k-th element is the input at the k-th satisfying position: filtering keeps order |
| `Filtering.FilterLength` | src/hooks/useSensorData.ts:57 | the filter keeps exactly as many elements as a one-by-one count of the satisfying elements |
| `Derived.Sum` | src/hooks/useSensorData.ts:48 | the `reduce` sum of the readings; its contract is carried by `SumBounds` |
| `Derived.Mean` | src/hooks/useSensorData.ts:48 | the rounded mean lies within half a ppm of the exact mean sum / n (halves rounded up); see also `MeanBetween` |
| `Derived.SumBounds` | src/hooks/useSensorData.ts:48 | readings in [lo, hi] give a sum in [lo * n, hi * n] |
| `Derived.MeanBetween` | src/hooks/useSensorData.ts:48 | the rounded mean lies between any lower and upper bound of the readings |
| `Derived.AvgCO2` | src/hooks/useSensorData.ts:67 | `avgCO2` is 0 before the first snapshot; afterwards it is the rounded mean `Mean` of the snapshot's readings, and it lies between the smallest and the largest reading |
| `Derived.WarningCount` | src/hooks/useSensorData.ts:68 | `warningCount` is 0 before the first snapshot and at most the number of sensors after; `CountsAreBands` says which sensors it counts |
| `Derived.CriticalCount` | src/hooks/useSensorData.ts:69 | `criticalCount` is 0 before the first snapshot and at most the number of sensors after; `CountsAreBands` says which sensors it counts |
| `Derived.BandsPartition` | src/hooks/useSensorData.ts:67-69 | the Normal, Warning and Critical counts add up to the number of sensors |
| `Derived.CountsAreBands` | src/hooks/useSensorData.ts:67-69 | `warningCount` and `criticalCount` are 0 with no snapshot; otherwise they equal the Warning and Critical band counts, and with the Normal count they sum to the sensor count |
| `Derived.AlertText` | src/hooks/useSensorData.ts:58 | an alert message is the sensor's id, " (", its zone, "): ", then the reading as a decimal integer without leading zeros (and no "-0"), which reads back as the reading, and ends with " ppm — CRITICAL" |
| `Derived.DeriveAlerts` | src/hooks/useSensorData.ts:57-58 | there are as many alerts as positions of sensors above 480 ppm, and alert k is the message for the sensor at the k-th such position |
| `Derived.AlertsMatchCritical` | src/hooks/useSensorData.ts:57-58 | the alert count is the Critical band count; every sensor above 480 ppm has its message among the alerts; every alert is the message of a sensor above 480 ppm; the alerts follow sensor order |
| `History.Append` | src/hooks/useSensorData.ts:52-55 | the new history is the window of the last (at most 50) elements of the old history followed by the point, in order |
| `History.AppendShape` | src/hooks/useSensorData.ts:52-55 | an append leaves min(old length + 1, 50) points with the new point last; below 50 it is a plain append; every point kept is the new one or an old one |
| `History.AppendAllIsWindow` | src/hooks/useSensorData.ts:52-55 | from a history of at most 50, any number of appends leaves exactly the last (at most 50) of all points, in order |
| `History.FromEmpty` | src/hooks/useSensorData.ts:52-55 | from an empty history, n >= 50 appends leave exactly the last 50 points appended |
| `Poll.FillerValues` | src/hooks/useSensorData.ts:35-37 | a tick's five filler readings each lie in [350, 520], filler k from draw k |
| `Poll.FillerUsesOwnDraw` | src/hooks/useSensorData.ts:35-37 | filler k depends only on draw k: draw sequences agreeing at k give the same filler k |
| `Poll.Tick` | src/hooks/useSensorData.ts:14-58 | one `fetchData` call as a state transition; its contract is carried by `TickFacts` |
| `Poll.TickFacts` | src/hooks/useSensorData.ts:14-58 | after a tick the snapshot is well formed; S1 shows the adapter's value; S2 is the walk's step from the previous value, lies in [350, 520] and becomes the next previous value; fillers come from their draws; the appended point carries S1, S2 and `avgCO2`, the rounded mean of the new snapshot; the alerts are `DeriveAlerts` of the new snapshot, as many as `criticalCount` |
| `Poll.InitValid` | src/hooks/useSensorData.ts:8-12 | the initial state (previous S2 = 395, no data, empty history and alerts) satisfies the state invariant |
| `Poll.TickValid` | src/hooks/useSensorData.ts:14-58 | a tick preserves the state invariant: history length at most 50, S2 and every charted S2 in band, the last point matching the snapshot, and the alerts being the messages `DeriveAlerts` gives for the snapshot, as many as the critical count |
| `Poll.RunValid` | src/hooks/useSensorData.ts:61-65 | any number of ticks from a valid state leave it valid; in particular the history never exceeds 50 points |
| `Poll.RunHistory` | src/hooks/useSensorData.ts:52-55 | after n ticks the history holds min(old length + n, 50) points |
| `Poll.RunFollowsWalk` | src/hooks/useSensorData.ts:28-29 | across ticks S2 is the random walk driven by the ticks' walk draws, starting from the stored previous value |
| `PollScenarios.EndToEnd` | src/hooks/useSensorData.ts:14-69 | the relay reports 550, the walk goes from 395 to 400, and the fillers are 360, 500, 490, 350, 480: the mean is 447, there are 3 critical sensors and 1 warning, the alerts are exactly "S1 (ESP32) (Downtown): 550 ppm — CRITICAL", "S4 (Commercial): 500 ppm — CRITICAL" and "S5 (University): 490 ppm — CRITICAL" in that order, and the history is the single point (447, 550, 400) |
| `Views.DashboardAvgToneAsWritten` | src/pages/Dashboard.tsx:24 | the average card's tone as written; its contract is carried by `DashboardAvgToneDiverges` and `DashboardAvgToneOnlyDivergesAt420` |
| `Views.DashboardAvgToneDiverges` | src/pages/Dashboard.tsx:24 | the Dashboard's average card, as written, shows success at 420 ppm, which the hook counts as a warning |
| `Views.DashboardAvgToneOnlyDivergesAt420` | src/pages/Dashboard.tsx:24 | the card as written and the hook's bands disagree exactly at 420 |
| `Views.DashboardAvgTone` | src/pages/Dashboard.tsx:24 | the corrected card shows success exactly below 420, warning exactly on the hook's warning filter, destructive exactly above 480 |
| `Views.ForecastStatus` | src/pages/EmissionAnalysis.tsx:100 | the forecast status ternary; its contract is carried by `ForecastStatusMatchesBands` |
| `Views.ForecastStatusMatchesBands` | src/pages/EmissionAnalysis.tsx:100 | the forecast page's status colouring is exactly the hook's three bands |

## Left out

- The `fetch` call, `response.json()` and the try/catch (src/hooks/useSensorData.ts:17-26) are network I/O. Their outcome is the abstract `Adapter.Reply`. A JSON body that is a bare primitive behaves as an object without `value`.
- `Number()` of a value outside the integer model is not modelled. This covers non-numeric strings (NaN), signed or spaced strings, and fractional numbers. A text value is a digit string, and a number is an integer.
- A `value` that is an array or an object is not modelled. Such a value is always truthy, and `Number()` coerces it through its string form: `Number([])` is 0, `Number(["450"])` is 450, and an object gives NaN. The relay's `urlencoded({ extended: true })` parser can store an array.
- The `console.error` in the catch branch (src/hooks/useSensorData.ts:25) is logging only; the model keeps just its effect on S1, the fallback 400.
- The React state, the ref, `useEffect` and the 2-second `setInterval`/`clearInterval` (src/hooks/useSensorData.ts:8-12, 61-65) are framework and timer plumbing. The hook's state is `Poll.State`, and successive timer firings are `Poll.Run`. Starting, stopping, and overlapping ticks whose fetches resolve out of order are concurrency concerns.
- `new Date()` and `toLocaleTimeString` are kept opaque. The instant and the time label are tick inputs. The source calls `new Date()` once per sensor; the model stamps all readings of a tick with one instant.
- `Math.random()` is a parameter in [0, 1). JavaScript's double-precision rounding is not modelled: the arithmetic is exact.
- Numerals.IntText: spells every integer out in full digits. JavaScript's `${n}` does so only below 10^21 in magnitude and prints exponent form from there on (`1e+21`). Readings that large are outside the integer model.
- Derived.AlertText: the ppm figure is `IntText` of the reading, so for a reading of 10^21 or more the model's message has full digits where the source's has exponent form (`1e+21 ppm — CRITICAL`).
- Adapter.ReportedTextPassesThrough: states the exact value of the digit string. JavaScript's `Number()` rounds a value above 2^53 to the nearest double: `Number("9007199254740993")` is 9007199254740992. Integers that large are outside the integer model; S1 is exact for values up to 2^53.
- Derived.AvgCO2: requires the snapshot to have at least one sensor. On an empty snapshot the source would compute `Math.round(0 / 0)`, which is NaN. Every snapshot the tick builds has seven sensors.
- `getStatusColor`, `getStatusClass` and the `SensorData`, `SensorSnapshot` and `HistoryPoint` declarations are not part of this model: their text is not in the hook file. The record shapes are inferred from their use.
- `server.js` and `server.cjs` (the express relay that stores one reading in a JSON file) are out of scope.
- All pages, the layout and routing, the charts and the 3D scene are out of scope. Two colour rules are the exception, modelled in `Views`. This also leaves out the random forecasts on the Emission Analysis page and the deploy toggle on the Interventions page.

## Findings

| source | as written | input that shows it | evidently intended | confidence | as-written member | corrected member |
|---|---|---|---|---|---|---|
| src/pages/Dashboard.tsx:24 | the average card uses `avgCO2 > 420` for the warning tone | an average of exactly 420 ppm is shown as success | `avgCO2 >= 420`, the hook's own warning band (src/hooks/useSensorData.ts:68), also used on src/pages/EmissionAnalysis.tsx:100 | medium; not executed | `Views.DashboardAvgToneDiverges` | `Views.DashboardAvgTone` |
