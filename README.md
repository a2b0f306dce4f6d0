# Bar-race timeline engine, modelled in Dafny

This project models the timeline engine of a browser extension that replays
a MacroMicro line chart as an animated "bar race". The engine lives in
`page-script.js`. It has four parts:

- **Transform** (`transformToBarRace`). It turns the chart payload into a
  dataset: index-aligned `names`, `colors` and `{y, date}` sequences, one
  entry per configured series. It also builds `dates`, the ascending set of
  every date in any sequence.
- **Snapshot** (`getDataForDate`). For one query date it gives one bar per
  entity. The bar's value is the `y` of the last point, in array order,
  whose date is at or before the query, or 0 when there is none. The bars
  are then sorted by value, largest first, by a stable sort.
- **Playback** (`enableBarRace`, `animateBarRace`, `restoreOriginalChart`).
  Enabling draws a first frame for `dates[0]` and starts an interval. Each
  call of the interval callback renders `dates[currentIndex]` and advances
  the index. Past the last date, or out of bar-race mode, the callback
  clears the interval. Restoring clears the interval and leaves bar-race
  mode.
- **Chart path** (`extractChartId`). It returns the digits after the first
  `/charts/` in the page path that is followed by a digit, or null.

Files:

- `wrappers.dfy`: `Option` and `Result`.
- `dates.dfy`: JavaScript's string order (`<` and `<=`), proved a strict
  total order. Also the sort that builds the timeline, and a proof that an
  ascending sequence is determined by its set of dates.
- `chart_path.dfy`: the regular expression `/\/charts\/(\d+)/` as a leftmost
  match with a greedy digit run.
- `transform.dfy`: `TransformToBarRace`, an imperative method with the
  source's two loops (the per-series `forEach` and the `Set.add` loop over
  all points). It is proved against the `Normalizes` and `WellFormed`
  predicates.
- `snapshot.dfy`: the filter-and-pop lookup, the stable descending
  insertion sort, and the snapshot, with the forward-fill, permutation,
  ordering and stability lemmas.
- `playback.dfy`: class `BarRace`. Its fields are `isBarRaceMode`, `active`
  (the interval handle is non-null), the ghost count `liveIntervals`,
  `currentIndex`, the captured `data`, and `frames`, a log of every chart
  update. Its invariant `Valid()` says that at most one interval is live,
  and that, since the animation started, the log holds exactly the frames
  of `dates[0..currentIndex-1]`, once each and in order.

The model follows what `page-script.js` does, and so keeps these traits of
it:

- every configured series is kept, whatever its name or visibility;
- `y` values and dates are copied as they come, with no coercion and no
  point dropped;
- a payload with no series, or whose points give no dates, is not rejected;
- playback only runs forward: there is no pause, seek or resume, and the
  index is never clamped.

`currentIndex` runs from 0 to `|dates|`, and the callback clears the
interval once it equals `|dates|`; the race then simply stays at that index.
With an empty `dates` the first frame is labelled `undefined` and every
entity is valued 0.

## Model

| member | source | states |
|---|---|---|
| Dates.LessIrreflexive | page-script.js:199 | no date string is smaller than itself under JavaScript's string `<` |
| Dates.LessAsymmetric | page-script.js:199 | the string `<` never holds both ways |
| Dates.LessTransitive | page-script.js:199 | the string `<` is transitive |
| Dates.LessTotal | page-script.js:199 | any two different date strings are ordered one way or the other |
| Dates.Less | page-script.js:199 | no ensures: JavaScript's string `<` as a definition; `LessIrreflexive`, `LessAsymmetric`, `LessTransitive` and `LessTotal` prove it a strict total order |
| Dates.LessEq | page-script.js:212 | no ensures: JavaScript's `<=` on strings, `!(b < a)`; `LessEqIsLessOrEqual` proves it is `<` or equality |
| Dates.LessEqIsLessOrEqual | page-script.js:212 | `a <= b`, defined by JavaScript as `!(b < a)`, holds exactly when `a < b` or `a == b` |
| Dates.StrictlyIncreasingIsDistinct | page-script.js:194-199 | a strictly ascending timeline holds no date twice |
| Dates.Insert | page-script.js:199 | inserting a new date into an ascending sequence keeps it strictly ascending, adds exactly that date and nothing else, and grows it by one |
| Dates.SortDates | page-script.js:199 | sorting the distinct dates of the set with no comparator gives a strictly ascending sequence with the same dates and the same length |
| Dates.StrictlyIncreasingUnique | page-script.js:194-199 | two strictly ascending sequences with the same dates are equal, so the timeline does not depend on the order the dates entered the set |
| ChartPath.DigitRun | page-script.js:28 | the greedy `(\d+)`: a prefix of its input, all digits, and not followed by another digit |
| ChartPath.FirstMatch | page-script.js:28 | the leftmost position from which `/charts/` followed by a digit matches, or None exactly when no position matches |
| ChartPath.ExtractChartId | page-script.js:27-30 | None exactly when no position matches; otherwise a non-empty capture that is the maximal digit run after the leftmost match |
| ChartPath.ExtractChartIdOfSegment | page-script.js:27-30 | a path with no earlier match, then `/charts/`, then digits `id`, then anything not starting with a digit, yields exactly `id` |
| ChartPath.DigitRunOfDigits | page-script.js:28 | the digit run of `id + rest` is `id` when `id` is all digits and `rest` does not start with one |
| Transform.TransformToBarRace | page-script.js:169-207 | over a payload of the typed shape the model admits (see Left out), fails exactly when a configured series has no point list, and reports the first missing index; otherwise names, colours and sequences are aligned with the configuration and each sequence copies its points one for one as `{y, date}`; `dates` is strictly ascending and holds exactly the dates that occur in some sequence |
| Transform.DisplayName | page-script.js:178 | no ensures: `name_en || name_tc`, with the empty string falsy; `TransformToBarRace` states through `Normalizes` that each name is this one |
| Transform.NormalizesUnique | page-script.js:169-207 | a payload determines its dataset: two well-formed datasets that both normalise it are equal |
| Snapshot.AtOrBefore | page-script.js:212 | no ensures: `sequence.filter(p => p.date <= date)`; `NothingQualifies` and `ValueIsLastQualifying` state what it keeps |
| Snapshot.ValueAsOf | page-script.js:212-218 | no ensures: `pop()` of the filter, or 0; its properties are `ValueBeforeFirstPoint`, `ValueIsLastQualifying` and `ValueComesFromPoint` |
| Snapshot.ValueBeforeFirstPoint | page-script.js:212-218 | an entity with no point at or before the query is valued exactly 0 |
| Snapshot.ValueIsLastQualifying | page-script.js:212-218 | the value is the `y` of the last point, in array order, whose date is at or before the query |
| Snapshot.ValueComesFromPoint | page-script.js:212-218 | every value is 0 or the `y` of some point at or before the query |
| Snapshot.InsertByValue | page-script.js:223 | inserting a bar into a non-increasing list keeps it non-increasing, adds exactly that bar, and puts either the bar or the old first bar at the front |
| Snapshot.RankByValue | page-script.js:223 | the sorted list is non-increasing in `y` and a permutation of its input |
| Snapshot.InsertKeepsEqualsInOrder | page-script.js:223 | an inserted bar lands after every bar of equal value already present |
| Snapshot.RankKeepsEqualsInOrder | page-script.js:223 | stability: for every value, the bars with that value appear in the sorted list in their input order |
| Snapshot.StableSortUnique | page-script.js:223 | a non-increasing list is determined by its equal-value groups, so every stable descending sort agrees with this one |
| Snapshot.WithValueAppend | page-script.js:223 | picking the bars of one value distributes over concatenation |
| Snapshot.Entries | page-script.js:210-221 | no ensures: one `{name, y, color}` bar per entity, in entity order, valued by `ValueAsOf`; `SnapshotIsStableRanking` and `EntityInSnapshot` state what the ranking keeps of it |
| Snapshot.GetDataForDate | page-script.js:209-234 | no ensures: the per-entity bars ranked by `RankByValue`; its properties are `SnapshotIsStableRanking` and `EntityInSnapshot` |
| Snapshot.SnapshotIsStableRanking | page-script.js:209-234 | the snapshot has one bar per entity, is a permutation of the per-entity bars, is non-increasing in `y`, and keeps entity order among equal values |
| Snapshot.EntityInSnapshot | page-script.js:210-221 | each entity appears in the snapshot with its own name, its own colour and its as-of value |
| Snapshot.InitialSnapshot | page-script.js:75 | no ensures: `getDataForDate(barRaceData, dates[0])`; `InitialSnapshotWithNoDates` states the empty-timeline case and `FirstTickRepeatsInitialFrame` ties it to the first tick |
| Snapshot.InitialSnapshotWithNoDates | page-script.js:75 | with no dates, the first snapshot lists every entity at 0, in entity order |
| Snapshot.TwoEntityRaceAtFirstDate | page-script.js:209-234 | X(10 at "1", 30 at "2") and Y(20 at "1") rank Y before X at "1" |
| Snapshot.TwoEntityRaceAtSecondDate | page-script.js:209-234 | at "2" X (30) leads and Y keeps its value 20 from "1" |
| Playback.BarRace.constructor | page-script.js:6-7 | the script starts out of bar-race mode, with no interval and nothing rendered |
| Playback.BarRace.AnimateBarRace | page-script.js:238-246 | resets the index to 0, clears any running interval and starts one over the new data; with the live-interval count `IntervalsValid` (at most one interval live, and the handle set exactly when one is) it leaves exactly one interval live; renders nothing |
| Playback.BarRace.EnableBarRace | page-script.js:42-161 | succeeds exactly when the payload is present and every configured series has a point list; a missing payload or a failing transform reports its error and changes nothing; otherwise it draws the frame of `dates[0]`, starts the animation at index 0 over the normalised data, and turns bar-race mode on |
| Playback.BarRace.Tick | page-script.js:246-271 | past the last date or out of bar-race mode it clears the interval, leaving none live, and renders nothing; otherwise it renders the frame of `dates[currentIndex]` and increments the index by exactly one; the invariant keeps the index within `0..|dates|` |
| Playback.BarRace.RenderCurrentDate | page-script.js:253-270 | renders the label and snapshot of `dates[currentIndex]` as the next logged frame, then increments the index |
| Playback.BarRace.RestoreOriginalChart | page-script.js:274-281 | clears the interval, leaving none live, and turns bar-race mode off, leaving the rest unchanged |
| Playback.BarRace.RunToEnd | page-script.js:246-271 | the timer firing until the interval clears itself: in bar-race mode the race ends at index `|dates|` with every date rendered once, in order, and no interval live |
| Playback.RaceFrames | page-script.js:246-271 | the first `n` ticks of a race render `n` frames |
| Playback.RaceFrame | page-script.js:253-268 | no ensures: the label `dates[k]` and the snapshot of `dates[k]`; `RaceFrameAt` and `RaceShowsEveryDateOnce` state what a race renders through it |
| Playback.InitialFrame | page-script.js:75-141 | no ensures: the label and snapshot of the first date drawn on enabling; `FirstTickRepeatsInitialFrame` proves the first tick renders it again |
| Playback.RaceFrameAt | page-script.js:253-270 | the `k`-th tick renders the label and snapshot of `dates[k]` |
| Playback.AppendRaceFrame | page-script.js:253-270 | appending the frame of `dates[n]` to a log that ends in the first `n` race frames gives the first `n + 1` |
| Playback.RenderStep | page-script.js:253-270 | rendering the label and snapshot of `dates[n]` after the first `n` ticks leaves a log that holds exactly the first `n + 1` |
| Playback.FirstTickRepeatsInitialFrame | page-script.js:75 | the first tick renders again the frame drawn when the race was enabled |
| Playback.RaceShowsEveryDateOnce | page-script.js:246-271 | a whole race renders one frame per date, labelled with that date, in strictly ascending order |

## Left out

- Network fetch and JSON decoding (page-script.js:39-43). The model takes the parsed payload as its input. An absent payload is `None`.
- Highcharts (page-script.js:34-36, 53-155, 256-268). The model leaves out the `Highcharts` check, the container and instance lookups with their errors, and the chart's creation and destruction. It assumes the label and `series[0]` exist. Rendering is modelled as appending a `Frame` to the log.
- Playback.BarRace.EnableBarRace: does not model the errors thrown when Highcharts, the chart container or the chart instance is missing, because those come from the page, not the payload.
- The message listener and `postMessage` (page-script.js:9-25, 161, 165). In particular, the model does not capture reporting a null chart id as an error.
- `console.log` and the unused `originalChartConfig` (page-script.js:66-72). They do not affect the engine's state.
- `window.location.reload()` (page-script.js:284). The reload replaces the script with a fresh one, whose mode and interval start at the values `RestoreOriginalChart` already leaves; the model keeps the object instead.
- Timer semantics and the 200 ms cadence. `Tick` is one callback. `RunToEnd` stands for the host calling it until the interval clears itself. There is no concurrency. Two `enableBarRace` calls run one after the other; `AnimateBarRace` clears the old interval before starting a new one, and the ghost count `liveIntervals` shows that at most one interval is ever live.
- Transform.TransformToBarRace: an absent `name_en` or `name_tc` is the empty string, so when both are absent the name is `""`, not `undefined`.
- Transform.TransformToBarRace: the payload is typed, so the `TypeError`s of a malformed one are not modelled: a missing `info` or `chart_config` (page-script.js:170), a `null` entry in `series` where `data.map` is called (page-script.js:185), and a `null` point where `point[1]` is read (page-script.js:186). In each case `enableBarRace` would report the error and change nothing. The only malformed payload the model admits is one with fewer point lists than configured series.
- Transform.TransformToBarRace: a point is `[date, y]` with a string date and an integer `y`. The model does not cover points with fewer than two elements, non-string dates, or `null`/non-numeric `y`.
- Dates.Less: characters are compared as Unicode scalar values. JavaScript compares UTF-16 code units, and the two orders differ only for characters above U+FFFF against U+E000-U+FFFF. Dates are ASCII.
- Floating-point `y` values and the `b.y - a.y` comparator: `y` is an `int`, and the comparator is an integer comparison (a difference that is negative, zero or positive). The `{point.y:.1f}` label format is not modelled.
- Snapshot.GetDataForDate: its properties are stated by `SnapshotIsStableRanking` and `EntityInSnapshot`. The final `data.map` copy (page-script.js:226-230) is the identity on `{name, y, color}` and is not modelled separately. The in-place sort of the local array is modelled as a function on a sequence.
- Snapshot.InitialSnapshot: for an empty timeline the query `dates[0]` is `undefined`. `p.date <= undefined` is false, so no point qualifies and every entity is valued 0. The frame label is then `""` rather than `undefined`.
- The `content.js` user interface. It covers button injection, styling, navigation detection and retries.
