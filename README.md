# fit-activities-tui in Dafny

A model of the logic behind a terminal browser for FIT fitness-activity files. It covers:

- the four-state request value `AsyncData`;
- the activity record cursor, its default-valued accessors and the activity sort;
- the speed and GPS-accuracy statistics of the FIT parser, and the column extraction of `ParseFile`;
- the import sequencing of the terminal interface (one slot per file, parsed one after another);
- the progress counters, wrapping distance sums and the three duration text styles with the distance texts.

The Go files come from several iterations of the program, and their types do not line up. Each
file is modelled against its own declarations: `Activities.ActivityData`, `CommonTypes.ActivityData`,
`TuiUtils.ActivityData` and `FitParser.ActivityData` are separate types.

Layout, one module per Go file:

- `Asyncdata`: `asyncdata.dfy`;
- `Activities`: `activities.dfy`, for `internal/common/activities.go`. Here `Activity` is a class with a mutable record cursor, and the sort works in place on an `array` of activity references;
- `FitParser`: `fit_parser.dfy`, for `internal/fit/parser.go`, with loops against specification functions;
- `FitUtils`: `fit_utils.dfy`;
- `CommonTypes`: `common_types.dfy`;
- `CommonFormat`: `common_format.dfy`;
- `TuiUtils`: `tui_utils.dfy`;
- `Tui`: `tui.dfy`. Here `Model` is a class over the slot sequence and the import cursor.

Shared helper modules:

- `Wrappers`: `Option`, and `Outcome`, which is a value or a Go runtime panic;
- `Ints`: the `uintN` ranges and uint32 wrap-around;
- `Decimal`: decimal numerals, `strings.Split`/`Join`/`TrimRight`;
- `Clock`: the days/hours/minutes/seconds decomposition, the three text styles, and a reader for each style that the round-trip lemmas use;
- `FitFile`: the decoder's messages, reduced to the integer fields the code reads.

Go's runtime panics are explicit `Panics` results rather than preconditions. There are three:

- an index into an empty slice;
- an index out of range;
- an integer division by zero.

Abstractions:

- `fixed(meters, places)` stands for the `%.Nf` text of the float `meters / 1000`. It is a parameter, and only the trimming that follows it is modelled.
- `formatLocalTime` stands for the `02.01.06 15:04` layout of a `time.Time`. A time is an integer instant.

## Model

| member | source | states |
|---|---|---|
| Asyncdata.NewNotAsked | internal/asyncdata/asyncdata.go:22-29 | the initial value answers `NotAsked` and none of the other three tests |
| Asyncdata.NewLoading | internal/asyncdata/asyncdata.go:37-49 | `Loading` gives back `(p, true, true)` for previous data `p` and `(nil, false, true)` without; no other test reports it |
| Asyncdata.NewFailure | internal/asyncdata/asyncdata.go:57-66 | `Failure` gives back exactly the error put in; no other test reports it |
| Asyncdata.NewSuccess | internal/asyncdata/asyncdata.go:74-84 | `Success` gives back exactly the data put in; no other test reports it |
| Asyncdata.Loading | internal/asyncdata/asyncdata.go:41-49 | third result true exactly for loading values, second true exactly when previous data is present, which is then returned |
| Asyncdata.Failure | internal/asyncdata/asyncdata.go:61-66 | reports ok exactly for failures and then returns their error |
| Asyncdata.Success | internal/asyncdata/asyncdata.go:78-84 | reports ok exactly for successes and then returns their data |
| Asyncdata.Map | internal/asyncdata/asyncdata.go:86-107 | keeps the state and the error, applies `f` to success data and to present previous data, keeps absent previous data absent |
| Asyncdata.FoldA | internal/asyncdata/asyncdata.go:109-129 | returns the result of exactly the handler of the value's state; `onLoading` gets the possibly absent previous data |
| Asyncdata.ExactlyOneState | internal/asyncdata/asyncdata.go:14-16 | every value built by one of the four constructors answers exactly one of the four tests, so for such values the `panic` defaults of `Map` and `FoldA` are unreachable |
| Asyncdata.MapIdentity | internal/asyncdata/asyncdata.go:86-107 | mapping the identity returns an equal value |
| Asyncdata.MapComposition | internal/asyncdata/asyncdata.go:86-107 | mapping `f` then `g` equals mapping their composition |
| Asyncdata.FoldARebuilds | internal/asyncdata/asyncdata.go:109-129 | folding with the four constructors rebuilds the value |
| Asyncdata.FoldAAfterMap | internal/asyncdata/asyncdata.go:86-129 | folding a mapped value equals folding with handlers that apply the map first |
| Activities.Duration.Format | internal/common/activities.go:96-119 | every branch ends with the `%ds` seconds token, so the text is at least a digit and `s`; its round trip is `Activities.DurationFormatRoundTrip` |
| Activities.DurationFormatRoundTrip | internal/common/activities.go:96-119 | the duration text has one space-separated token per shown unit (thresholds 60/3600/86400 on value/1000), each a `%d` numeral without leading zero followed by its own unit letter (`d`, `h`, `m`, `s` for the units shown, so a text below a minute ends in `s`), and reads back as the normal decomposition `d*86400+h*3600+m*60+s` with h<24, m<60, s<60 |
| Activities.DurationFormatExamples | internal/tui/utils_test.go:104-140 | 0 ms prints "0s" (line 140), 30 s prints "30s", 135 s prints "2m 15s"; the 999 ms case, which also prints "0s", is this model's own |
| Activities.DurationFormatHourExample | internal/tui/utils_test.go:116 | 5445 s prints "1h 30m 45s" |
| Activities.DurationFormatWholeHourExample | internal/tui/utils_test.go:122 | 18000 s prints "5h 0m 0s" |
| Activities.DurationFormatDayExamples | internal/tui/utils_test.go:128 | 192615 s prints "2d 5h 30m 15s" |
| Activities.DurationFormatWholeDayExample | internal/tui/utils_test.go:134 | 259200 s prints "3d 0h 0m 0s" |
| Activities.Distance.format | internal/common/activities.go:171-192 | below 1000 m the text is the metres as a numeral without leading zero followed by "m"; otherwise it ends in "km", preceded by the trimmed 1-digit, the 2- or 3-digit text, or the whole kilometres as a numeral without leading zero, by `decimal` |
| Activities.DistanceFormatTrimmed | internal/common/activities.go:177-180 | the 1-digit kilometre text is a prefix of the fixed-point text that never ends in '.', and a kept '.' is followed by a nonzero digit |
| Activities.ActivityData.StartTime | internal/common/activities.go:235-240 | absent exactly without records, otherwise the first record's time |
| Activities.ActivityData.FinishTime | internal/common/activities.go:242-248 | absent exactly without records, otherwise the last record's time |
| Activities.StartFinishOneRecord | internal/common/activities.go:235-248 | with one record, start and finish are both that record's time |
| Activities.ClampedIndex | internal/common/activities.go:319-336 | 0 without records; otherwise within `[0, len-1]`, equal to `index+value` when that is in range, and the nearer bound when not |
| Activities.ClampedIndexRoundTrip | internal/common/activities.go:326-336 | stepping +n then -n returns to the start when neither step reaches a bound |
| Activities.ClampedIndexZeroStep | internal/common/activities.go:326-336 | a zero step leaves an in-range index where it is |
| Activities.ClampedIndexOneRecord | internal/common/activities.go:326-336 | with one record every step lands on 0 |
| Activities.Activity.TotalDistance | internal/common/activities.go:284-291 | the parsed total distance when the parse succeeded with one, otherwise 0 |
| Activities.Activity.StartTime | internal/common/activities.go:296-301 | present exactly when the parse succeeded with records, and then the first record's time |
| Activities.Activity.GetTotalDuration | internal/common/activities.go:303-311 | the parsed total duration when present after a successful parse, otherwise 0 |
| Activities.Activity.RPS | internal/common/activities.go:349-364 | the fallback exactly when the parse did not succeed, has no or a zero total duration, or has no records; otherwise the record count and the milliseconds |
| Activities.Activity.CountRecordIndex | internal/common/activities.go:317-342 | refused (false, cursor unchanged) unless the parse succeeded; otherwise true and the cursor becomes the clamped index |
| Activities.Activity.ResetRecordIndex | internal/common/activities.go:344-346 | the cursor is 0 and no other field changes |
| Activities.Less | internal/common/activities.go:403-419 | the two comparators: strictly smaller total distance, or strictly earlier start with 1970-01-01 for a missing one |
| Activities.Swap | internal/common/activities.go:395-397 | exchanges two entries and nothing else, so the contents are a permutation |
| Activities.SortActs | internal/common/activities.go:370-401 | rearranges the references into a permutation of the input in which every pair is in comparator order, reversed on request |
| Activities.InsertLast | internal/common/activities.go:395-401 | one insertion step through `Less` and `Swap`: the slice stays a permutation and one more prefix element is in order |
| Activities.Sort | internal/common/activities.go:370-376 | a permutation with non-decreasing keys |
| Activities.Reverse | internal/common/activities.go:378-384 | a permutation with non-increasing keys |
| FitParser.ValidSpeeds | internal/fit/parser.go:16-23 | the collected speeds hold no invalid sentinel 0xFFFF and are no more than the records |
| FitParser.ValidSpeedsMembers | internal/fit/parser.go:16-23 | a value is collected exactly when some record carries it and it is not the sentinel |
| FitParser.ValidSpeedsCounts | internal/fit/parser.go:16-23 | every valid speed is collected exactly as often as the records carry it, and the sentinel never |
| FitParser.ValidGpsAccuracies | internal/fit/parser.go:52-59 | the collected accuracies hold no invalid sentinel 0xFF and are no more than the records |
| FitParser.ValidGpsAccuraciesMembers | internal/fit/parser.go:52-59 | a value is collected exactly when some record carries it and it is not the sentinel |
| FitParser.ValidGpsAccuraciesCounts | internal/fit/parser.go:52-59 | every valid accuracy is collected exactly as often as the records carry it, and the sentinel never |
| FitParser.LargestIsMaximum | internal/fit/parser.go:35-41 | the running maximum from 0 is a sample and no sample exceeds it |
| FitParser.SmallestIsMinimum | internal/fit/parser.go:60-74 | the running minimum seeded with the first sample is a sample and below every sample |
| FitParser.RoundedMeanIsNearest | internal/fit/parser.go:42 | the rounded mean is the integer nearest `total/count`, halves rounded up |
| FitParser.RoundedMeanAtMost | internal/fit/parser.go:42-44 | the rounded mean of samples at most `hi` is at most `hi`, so `uint16(avg)` keeps it |
| FitParser.FlooredMeanBetween | internal/fit/parser.go:80 | the floored mean of samples between `lo` and `hi` is between them |
| FitParser.SpeedStatsBounds | internal/fit/parser.go:34-46 | with valid samples, max is the largest sample and avg does not exceed it |
| FitParser.ParseSpeed | internal/fit/parser.go:15-48 | the loops compute zeros without valid samples, else the maximum and rounded mean of the valid samples only |
| FitParser.SpeedLoopResult | internal/fit/parser.go:34-46 | what the accumulation loop ends with is the specified statistic, and the mean fits a uint16 |
| FitParser.GpsAccuracyStatBounds | internal/fit/parser.go:60-80 | a panic exactly without valid samples; otherwise min and max are samples bounding all of them, and min <= avg <= max |
| FitParser.ParseGpsAccuracies | internal/fit/parser.go:50-83 | the loops compute the minimum, maximum and floored mean of the valid samples, and panic dividing by zero without any |
| FitParser.GpsAccuracyLoopResult | internal/fit/parser.go:69-80 | what the accumulation loop ends with is the specified statistic, and the mean fits a uint8 |
| FitParser.ToUint32 | internal/fit/parser.go:140-141 | `uint32(n)` is `n` below 2^32 |
| FitParser.ExtractActivityData | internal/fit/parser.go:109-145 | one distance, ascent and descent per session and one temperature per record, in order; both counts; the timestamps; both statistics; a panic exactly when no record has a GPS accuracy |
| FitUtils.RecordDistances | internal/fit/utils.go:18-20 | the distances of the records, one per record, in order |
| FitUtils.GetTotalDistance | internal/fit/utils.go:16-22 | the record distances summed with uint32 wrap-around |
| FitUtils.FormatTotalDistance | internal/fit/utils.go:24-36 | the text as written: below 1000 "metres" (sum/100/1000) it reads as that number, printed without leading zero, followed by "m"; otherwise it ends in "km" |
| FitUtils.FormatTotalDistanceShowsKilometresAsMetres | internal/fit/utils.go:25 | a 500000 cm total, which is 5000 m, prints "5m" |
| FitUtils.FormatTotalDistanceInMetres | internal/fit/utils.go:24-36 | the corrected text: the sum/100 metres, printed without leading zero, followed by "m" below 1000 m, a text ending in "km" from 1000 m |
| FitUtils.FormatTotalDistanceInMetresUnits | internal/fit/utils.go:24-36 | the corrected text ends in "km" exactly when the total is at least 100000 cm |
| FitUtils.FormatTotalTime | internal/fit/utils.go:42-69 | the colon text of the whole seconds has one field per shown unit, every `%02d` field two digits wide, the leading `strconv.Itoa`/`%d` field without leading zero, and reads back as the decomposition |
| CommonTypes.ActivityData.GetTotalDistance | internal/common/types.go:53-59 | the session distances summed with uint32 wrap-around |
| CommonTypes.ActivityData.FormatTotalDistance | internal/common/types.go:61-72 | below 1000 m the metres (sum/100) as `%d` prints them, without leading zero, followed by "m"; otherwise a text ending in "km" |
| CommonTypes.FormatTotalDistanceKmShape | internal/common/types.go:63-68 | the trimmed kilometre number never ends in '.', and a kept '.' is followed by a nonzero digit |
| CommonTypes.ActivityData.FormatTotalTime | internal/common/types.go:80-110 | the padded unit text is bare digits exactly below a minute, has one token per shown unit, every `%02d` token two digits and its unit letter, the bare seconds and the `%d` days without leading zero, and reads back as the decomposition |
| CommonTypes.ActivityAD.FilterValue | internal/common/types.go:22-27 | the formatted local time of parsed data, empty otherwise |
| CommonTypes.ActivityAD.Title | internal/common/types.go:29-37 | the formatted local time of parsed data, empty otherwise |
| CommonTypes.ActivityAD.Description | internal/common/types.go:39-44 | the total distance text of parsed data, empty otherwise |
| CommonTypes.ItemTextsEmptyUntilSuccess | internal/common/types.go:22-44 | before a parse has succeeded an item shows no text at all |
| CommonTypes.DescriptionOfSuccess | internal/common/types.go:39-44 | a parsed activity always has a non-empty description |
| CommonFormat.FormatTotalTime | internal/common/format.go:20-49 | bare digits exactly below a minute; one token per shown unit, every `%02d` token two digits and its unit letter, the bare seconds and the `%d` days without leading zero; reads back as the decomposition of totalTime/1000 |
| CommonFormat.FormatTotalDistance | internal/common/format.go:51-62 | below 1000 m the metres as `%d` prints them, without leading zero, followed by "m"; otherwise a text ending in "km" |
| CommonFormat.FormatTotalDistanceKmShape | internal/common/format.go:53-58 | the kilometre number is a prefix of the fixed-point text, never ends in '.', ends in a nonzero digit after a kept '.', and only zeros and a '.' were cut |
| CommonFormat.FormatTemperature | internal/common/format.go:64-66 | reads back as the signed temperature followed by "°C", in `%d` form: no leading zero and no "-0" |
| CommonFormat.FormatAscent | internal/common/format.go:68-70 | reads back as the ascent followed by "m", in `%d` form: no leading zero and no "-0" |
| CommonFormat.FormatDescent | internal/common/format.go:72-74 | reads back as the descent followed by "m", in `%d` form: no leading zero and no "-0" |
| TuiUtils.GetTotalDistance | internal/tui/utils.go:12-18 | the distances summed with uint32 wrap-around |
| TuiUtils.FormatTotalDistance | internal/tui/utils.go:20-32 | the text as written: below 1000 "metres" (sum/100/1000) it reads as that number, printed without leading zero, followed by "m"; otherwise it ends in "km" |
| TuiUtils.FormatTotalDistanceShowsKilometresAsMetres | internal/tui/utils.go:21 | a 500000 cm total, which is 5000 m, prints "5m" |
| TuiUtils.FormatTotalDistanceInMetres | internal/tui/utils.go:20-32 | the corrected text: sum/100 metres, printed without leading zero, followed by "m" below 1000 m, a text ending in "km" from 1000 m |
| TuiUtils.FormatTotalDistanceInMetresKmShape | internal/tui/utils.go:22-27 | the corrected kilometre number never ends in '.', and a kept '.' is followed by a nonzero digit |
| TuiUtils.FormatTotalTime | internal/tui/utils.go:34-61 | the colon text of the whole seconds has one field per shown unit, every `%02d` field two digits wide, the leading `strconv.Itoa`/`%d` field without leading zero, and reads back as the decomposition |
| TuiUtils.ActivitiesAreLoading | internal/tui/utils.go:63-70 | true exactly when some activity is loading |
| TuiUtils.ActivitiesSuccess | internal/tui/utils.go:72-80 | the number of parsed activities |
| TuiUtils.ActivitiesFailures | internal/tui/utils.go:82-90 | the number of failed activities |
| TuiUtils.CountStep | internal/tui/utils.go:72-90 | one more activity adds exactly its own state to the counts |
| TuiUtils.CountsWithinLength | internal/tui/utils.go:72-90 | parsed plus failed never exceeds the number of activities |
| TuiUtils.CountSuccessExtremes | internal/tui/utils.go:72-80 | the parsed count is the length exactly when all are parsed, and 0 exactly when none is |
| TuiUtils.CountFailureExtremes | internal/tui/utils.go:82-90 | the failed count is the length exactly when all failed, and 0 exactly when none did |
| Tui.ResolveParse | internal/tui/tui.go:333-338 | a parse keeps the path and yields `Failure(err)` exactly on an error and `Success(data)` exactly otherwise |
| Tui.ResolveParseResolves | internal/tui/tui.go:333-338 | a parse outcome is never not-asked or loading |
| Tui.Model.InitialModel | internal/tui/tui.go:134-140 | the import path, cursor 0, no slots, no errors; the import invariant holds |
| Tui.Model.OnReloadKey | internal/tui/tui.go:158-172 | unless a filter is being typed: slots cleared, cursor 0, file list requested; otherwise nothing changes |
| Tui.Model.OnFilesResult | internal/tui/tui.go:177-196 | one not-asked slot per path in order; a loading copy of the first slot is parsed while the slot stays not asked; an empty list panics |
| Tui.Model.OnFilesResultChecked | internal/tui/tui.go:177-196 | the same slots; no parse is started exactly when the list is empty, and the import invariant holds |
| Tui.Model.OnParseResult | internal/tui/tui.go:198-209 | only slot `importIndex` is overwritten; below the last slot the cursor moves up by one and the next slot becomes loading without previous data; a cursor outside the slots panics; the import invariant is kept |
| Tui.Model.OnParseResultChecked | internal/tui/tui.go:198-209 | the same, but a result with the cursor outside the slots is dropped |
| Tui.Model.OnErr | internal/tui/tui.go:211-212 | the error is appended after all earlier ones |
| Tui.ImportThreeFiles | internal/tui/tui.go:177-209 | three files whose second fails end as success, failure, success in path order, with the cursor on the last slot, 2 parsed, 1 failed and none loading |
| Tui.SuccessFailureSuccessCounts | internal/tui/utils.go:63-90 | success, failure, success counts 2 parsed and 1 failed, none loading |
| Tui.EmptyDirectoryPanics | internal/tui/tui.go:194 | an empty file list panics at the first slot |
| Tui.EmptyDirectoryChecked | internal/tui/tui.go:177-196 | with the guard an empty file list starts no parse and keeps the invariant |
| Tui.ReloadDuringParsePanics | internal/tui/tui.go:158-200 | reload while a parse runs, then its result: the result indexes the cleared slots and panics |
| Tui.ReloadDuringParseChecked | internal/tui/tui.go:158-200 | with the guard the late result is dropped and the cleared model keeps the invariant |

## Left out

- Asyncdata.ExactlyOneState: covers only values made by the four constructors. Go's zero value `AsyncData{}` has a nil state and reaches the `panic` of `Map` and `FoldA` (internal/asyncdata/asyncdata.go:104-106, 125-127). The state field is unexported, and the program builds its one value with `NewNotAsked` (internal/tui/tui.go:181-184), so the zero value is not modelled.
- Rendering: `View`, `renderContent`, the list delegate, spinner, styles, window-size and quit keys, the list-widget calls inside `Update` (internal/tui/tui.go, internal/tui/list.go). These draw the screen and hold no import state.
- Concurrency: the goroutine, channel and debug sleep of `parseFileCmd` (internal/tui/tui.go:327-347). The parse outcome is the `ParseResult` argument, and the message it produces is the argument of `OnParseResult`.
- Tui.Model.OnParseResult: for every slot after the first, the goroutine also writes the parse outcome straight into the slot. It does this through the pointer taken at internal/tui/tui.go:205, with the write at lines 333-338. That aliasing is not modelled; the slot changes only through the result message.
- Tui.Model.OnParseResultChecked: a stale result that arrives after a new file list is still accepted into slot 0. That needs a generation counter, which the program has no trace of.
- The spinner test `ActivitiesParsing` and the counter `ActivitiesParsed` called at internal/tui/tui.go:220, 277 and 284 are not defined in the modelled files. The functions the utilities file does define, `ActivitiesAreLoading` and `ActivitiesSuccess`, are modelled instead.
- `IsLoading`, `IsSuccess` and `IsFailure` are used by internal/tui/utils.go but are not defined in the modelled asyncdata.go. They are given the evident meaning of the third `Loading` result and the second `Success`/`Failure` result.
- File system and decoding: `GetFitFiles` (internal/fit/files.go) and the open/decode steps of `ParseFile` (internal/fit/parser.go:85-108). Their results are parameters.
- Floating point: the `%.1f`, `%.2f` and `%.3f` texts of `float64(meters)/1000` are the parameter `fixed`. Only the trimming after them is modelled.
- Activities.Activity.RPS: returns the record count and the milliseconds instead of the float64 quotient `records / (ms / 1000)`, because floats are not modelled.
- FitParser.RoundedMean: models `math.Round(float64(total)/float64(l))` exactly. Float rounding of the quotient, which matters only beyond 2^53, is not modelled.
- FitParser.ParseSpeed: the `uint64` total is an unbounded `nat`. 65535 times the record count cannot reach 2^64 for any slice Go can hold.
- Time: `time.Time` is an integer instant. `FormatLocalTime` and the `Time.Format*` layouts (internal/common/format.go:15-18, internal/common/activities.go:26-40) are the parameter `formatLocalTime`.
- The `Format` methods of Temperature, GpsAccuracy, Speed, Elevation, Altitude and Heartrate, and `Activity.FilterValue/Title/Description` in internal/common/activities.go, are not part of this model. They are display helpers outside the modelled core.
- `Temperature`, `Ascent` and `Descent` of internal/common/format.go are declared outside the modelled files. They are taken to be int8, uint16 and uint16, as the decoder's fields are.
- Activities.SortActs: an insertion sort that uses only `Less` and `Swap`. Go's `sort.Sort` uses pattern-defeating quicksort. Only what `sort.Sort` promises is proved: a permutation in comparator order. The placement of equal keys is not.
- Panic texts are descriptive strings, not Go's exact runtime messages.
- Activities.Activity.CountRecordIndex: `recordIndex + value` is unbounded here, while Go adds in 64-bit `int` and can wrap. No caller of it is part of this model, so the step sizes it receives are not known here.

## Findings

| source | as written | input that shows it | evidently intended | confidence | as-written member | corrected member |
|---|---|---|---|---|---|---|
| internal/tui/utils.go:21 | the sum is divided by 100 and again by 1000 before the kilometre test and the `%dm` branch | one distance of 500000 cm (5 km) prints "5m" | metres = sum / 100, as internal/common/types.go:62 does, so 5 km prints "5km" | high, not executed | TuiUtils.FormatTotalDistanceShowsKilometresAsMetres | TuiUtils.FormatTotalDistanceInMetres |
| internal/fit/utils.go:25 | the same double division over the record distances | one record of 500000 cm prints "5m" | metres = sum / 100 | high, not executed | FitUtils.FormatTotalDistanceShowsKilometresAsMetres | FitUtils.FormatTotalDistanceInMetres |
| internal/tui/tui.go:194 | `m.activities[0]` with no guard | a directory or glob with no `.fit` file: `GetFitFiles` returns an empty list and no error (internal/fit/files.go:39, 50 and 58) | show the empty list and start no parse | high, not executed | Tui.EmptyDirectoryPanics | Tui.Model.OnFilesResultChecked |
| internal/tui/tui.go:199-200 | the result is written to `m.activities[m.importIndex]` with no check | press reload while a file is being parsed, and the result arrives before the new file list: the slots are empty | drop a result that has no slot | medium, not executed | Tui.ReloadDuringParsePanics | Tui.Model.OnParseResultChecked |
