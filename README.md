# squashdates, modelled in Dafny

squashdates estimates how long someone worked from a list of timestamps, such as commit dates.

1. The dates are sorted.
2. Each date is padded to a small window: `PAD_BEFORE` before it and `PAD_AFTER` after it.
3. Windows closer than `MARGIN` are merged into spans.
4. A cascade of closures groups the spans by day, month and year. It prints a total for each group and returns the overall total and the latest date.

The repository has this algorithm twice:

- the library function `Squash`, with padding −5/+4 minutes;
- the stand-alone `squashdates.go` program, with padding −6/+3 minutes and no overall total.

The command in `squashdates-main.go` adds a `--since` filter and a `--mech` mode. Mech mode prints the total in whole seconds and the latest date.

The model has one algorithm, parameterised by `Config(padBefore, padAfter, margin)` and instantiated twice:

- `LibraryConfig` is −5 min, +4 min, 15 min.
- `StandaloneConfig` is −6 min, +3 min, 15 min.

Neither set is treated as the canonical one.

Modules:

- `GoTime` (`time.dfy`): `time.Time` as nanoseconds since Go's zero instant, plus the identity of its location. It covers `IsZero`, `Add`, `Sub`, `Before` and `After`.
- `TimeSlice` (`timeslice.dfy`): `Len`, `Less` and `Swap` over an array. `Sort` is an in-place sort built only from those three; it stands in for `sort.Sort`.
- `SpanBuilder` (`spans.dfy`): the span loop as a specification.
  - `Step` is one iteration.
  - `Build` is the fold over the sorted dates.
  - `SpansOf` is the closed spans plus the pending span that the last `flushCurrSpan` hands over.
  - The pending span is dropped when its start is the zero instant, exactly as the `IsZero` test does.
- `Aggregation` (`aggregation.dfy`): the closures as functions on the captured variables (`Accumulators`).
  - `FlushYear`, `FlushMonth`, `FlushDay` and `AddSpan` (which is `flushCurrSpan`).
  - The printed lines are a sequence of `Event`s.
  - The three `Format` layouts are the fields of a `Calendar` parameter: any function from an instant to a label.
- `SquashDates` (`squash.dfy`): the imperative code.
  - The class `Squasher` holds the captured variables as fields and the closures as methods. Each method is proved to move the fields exactly as its specification function does.
  - `Squash` sorts the array in place, runs the span loop and the final flushes, and is proved equal to `Aggregate(SpansOf(...))`.
  - `StandaloneMain` is the stand-alone program.
- `Cli` (`cli.dfy`): the `--since` loop, the seconds computation and `main` after flag parsing (`Run`).

## Model

| member | source | states |
|---|---|---|
| GoTime.IsZero | squashdates/squashdates.go:129 | no contract; defines `IsZero` as the zero instant, whatever the location (the sentinel tested here and at line 147) |
| GoTime.Add | squashdates/squashdates.go:145-146 | no contract; defines `Add` as the instant that many nanoseconds later, in the same location |
| GoTime.Sub | squashdates/squashdates.go:114 | no contract; defines `Sub` as the difference of the instants, without Go's saturation |
| GoTime.Before | timeslice/timeslice.go:12 | no contract; defines `Before` as comparing instants only |
| GoTime.After | squashdates/squashdates.go:150 | no contract; defines `After` as comparing instants only |
| GoTime.BeforeIsStrictOrder | timeslice/timeslice.go:11-13 | `Before` is irreflexive, asymmetric and transitive, and `After(a, b)` holds exactly when `Before(b, a)` |
| TimeSlice.Len | timeslice/timeslice.go:7-9 | `Len` is the number of elements of the slice |
| TimeSlice.Less | timeslice/timeslice.go:11-13 | no contract beyond in-range indices; defines `Less(i, j)` as element i being `Before` element j |
| TimeSlice.LessIsStrictOrder | timeslice/timeslice.go:11-13 | `Less(i, j)` holds iff element i is strictly earlier than element j; it is irreflexive, asymmetric and transitive |
| TimeSlice.Swapped | timeslice/timeslice.go:15-17 | exchanging i and j puts s[j] at i and s[i] at j, keeps the length and leaves every other index unchanged |
| TimeSlice.SwappedIsPermutation | timeslice/timeslice.go:15-17 | an exchange preserves the multiset of elements |
| TimeSlice.SwappedTwice | timeslice/timeslice.go:15-17 | swapping the same two indices twice restores the slice |
| TimeSlice.Swap | timeslice/timeslice.go:15-17 | the array afterwards is the old contents with i and j exchanged, as the same multiset |
| TimeSlice.Sort | squashdates/squashdates.go:62 | after sorting, the array is ascending by instant and is a permutation of its old contents |
| SpanBuilder.Duration | squashdates/squashdates.go:112-114 | no contract; defines a span's duration as `end.Sub(start)` |
| SpanBuilder.TotalDuration | squashdates/squashdates.go:110-118 | no contract; defines the summed durations of a run of spans |
| SpanBuilder.Step | squashdates/squashdates.go:144-156 | no contract; defines one iteration of the date loop: pad the date, then open, split or extend the span (stated by `SplitRule`) |
| SpanBuilder.Build | squashdates/squashdates.go:143-157 | no contract; defines the date loop as a fold of `Step` over the dates |
| SpanBuilder.Pending | squashdates/squashdates.go:158 | no contract; defines what the last `flushCurrSpan` hands over: the open span, or nothing when spanStart is the zero instant |
| SpanBuilder.SpansOf | squashdates/squashdates.go:143-158 | no contract; defines the spans the loop emits: the closed ones, then the pending one |
| SpanBuilder.TotalDurationConcat | squashdates/squashdates.go:110-118 | the summed durations of two runs of spans add up |
| SpanBuilder.SplitRule | squashdates/squashdates.go:143-157 | with a span open, a date opens a new span (closing the old one) iff its padded start is strictly after spanEnd + MARGIN; otherwise only spanEnd moves, to the padded end |
| SpanBuilder.BuildShaped | squashdates/squashdates.go:143-157 | over sorted dates, the open span ends at the last date + PAD_AFTER and starts no later than its padded start; every closed span lasts at least PAD_AFTER − PAD_BEFORE; each closed span, and the open one, starts more than MARGIN after the previous closed span ends |
| SpanBuilder.SpansShape | squashdates/squashdates.go:143-158 | every emitted span lasts at least PAD_AFTER − PAD_BEFORE; each starts more than MARGIN after the previous one ends; with MARGIN ≥ 0 and PAD_BEFORE ≤ PAD_AFTER the starts strictly ascend |
| SpanBuilder.NoDatesNoSpans | squashdates/squashdates.go:143-158 | no dates, no spans |
| SpanBuilder.SingleDate | squashdates/squashdates.go:143-158 | a single date gives one span [d+PAD_BEFORE, d+PAD_AFTER] with total PAD_AFTER − PAD_BEFORE, or none at all when its padded start is the zero instant |
| SpanBuilder.TwoDates | squashdates/squashdates.go:143-158 | two sorted dates merge into one span with total t2 − t1 + PAD_AFTER − PAD_BEFORE when within the margin, else give two spans with twice the padding as total |
| SpanBuilder.ZeroSentinelDropsFirstDate | squashdates/squashdates.go:128-158 | a date whose padded start is the zero instant is taken as "no span yet": the next date overwrites it and only the later span remains |
| SpanBuilder.TotalIndependentOfOrder | squashdates/squashdates.go:62-157 | two sorted arrangements of the same dates (ties in any order) give spans over the same instants and the same total |
| SpanBuilder.TotalNonNegative | squashdates/squashdates.go:110-118 | over sorted dates with PAD_BEFORE ≤ PAD_AFTER the total is not negative |
| Aggregation.FlushYear | squashdates/squashdates.go:74-80 | no contract; defines `flushCurrYear` on the captured variables (stated by `FlushRules`) |
| Aggregation.TakeYear | squashdates/squashdates.go:86-92 | no contract; defines the year step of `flushCurrMonth`: flush the year when the group's first span changes a non-empty year label, then take that label |
| Aggregation.FlushMonth | squashdates/squashdates.go:82-95 | no contract; defines `flushCurrMonth` (stated by `FlushRules`) |
| Aggregation.SpanLines | squashdates/squashdates.go:119-122 | no contract; defines one span line per span of the group, in order |
| Aggregation.DayDetail | squashdates/squashdates.go:107-122 | no contract; defines the day header and span lines, none when quiet |
| Aggregation.EnterMonth | squashdates/squashdates.go:101-105 | requires a non-empty group, as the source reads `currDaySpans[0]` only then; defines the month step of `flushCurrDay` |
| Aggregation.FlushDay | squashdates/squashdates.go:97-126 | no contract; defines `flushCurrDay` (stated by `DayFlushRule`) |
| Aggregation.AddSpan | squashdates/squashdates.go:133-141 | no contract; defines `flushCurrSpan` past its `IsZero` test (stated by `DayGrouping`) |
| Aggregation.Feed | squashdates/squashdates.go:143-158 | no contract; defines handing a run of spans to `flushCurrSpan` one after another |
| Aggregation.Finish | squashdates/squashdates.go:159-161 | no contract; defines the final day, month and year flushes |
| Aggregation.Aggregate | squashdates/squashdates.go:128-161 | no contract; defines the cascade over a whole run of spans, then the final flushes (stated by `Rollup`) |
| Aggregation.DayDetailFacts | squashdates/squashdates.go:106-122 | the lines a day prints before its total list exactly its spans in order (none when quiet), add their durations at the span level and nothing at the day, month or year level |
| Aggregation.FlushYearRolled | squashdates/squashdates.go:74-80 | flushCurrYear keeps the rollup invariant |
| Aggregation.TakeYearRolled | squashdates/squashdates.go:86-92 | the year step of flushCurrMonth keeps the rollup invariant |
| Aggregation.FlushMonthRolled | squashdates/squashdates.go:82-95 | flushCurrMonth keeps the rollup invariant |
| Aggregation.EnterMonthRolled | squashdates/squashdates.go:101-105 | the month step of flushCurrDay keeps the rollup invariant |
| Aggregation.FlushDayRolled | squashdates/squashdates.go:97-126 | flushCurrDay keeps the rollup invariant: every duration moved out of the day group lands in the overall total and in the day, month and year sums |
| Aggregation.CloseGroupRolled | squashdates/squashdates.go:106-125 | printing a group's lines and day total and adding the total to the month, year and overall levels, then emptying the group, keeps the rollup invariant |
| Aggregation.DayLinesSums | squashdates/squashdates.go:107-124 | printing a day group lists its spans (none when quiet) and adds its total at the day level and, unless quiet, at the span level, and nothing at the month or year level |
| Aggregation.AddSpanRolled | squashdates/squashdates.go:128-142 | handing one more span to the day grouping keeps the rollup invariant over the spans handed over so far |
| Aggregation.JoinGroupRolled | squashdates/squashdates.go:141 | appending a span to the open day group keeps the rollup invariant over the spans handed over so far plus that span |
| Aggregation.FeedRolled | squashdates/squashdates.go:143-157 | after any sequence of spans, the overall total plus the open group equals the spans' total, and the printed lines list every closed span once |
| Aggregation.Rollup | squashdates/squashdates.go:158-161 | after the final flushes, the overall total is the sum of all span durations, the printed day, month and year totals each sum to it, all accumulators are back at zero or empty, and the span lines list every span once in order (none when quiet) |
| Aggregation.FinishRolled | squashdates/squashdates.go:159-161 | the closing day, month and year flushes keep the rollup invariant and leave the group empty and the month and year totals at zero |
| Aggregation.FeedMirrors | squashdates/squashdates.go:107-122 | feeding the same spans with and without quiet keeps identical accumulators, and the quiet output is the verbose one without day headers and span lines |
| Aggregation.FlushDayMirrors | squashdates/squashdates.go:107-122 | a verbose and a quiet state that agree on every accumulator still agree after a day flush, and the quiet lines remain the verbose ones without headers and span lines |
| Aggregation.DayLinesStrip | squashdates/squashdates.go:107-124 | without the header and span lines that quiet suppresses, a printed day is its total line alone, and quiet prints no detail |
| Aggregation.AddSpanMirrors | squashdates/squashdates.go:128-142 | the same holds after handing one span to the day grouping |
| Aggregation.QuietOnlyHidesDetail | squashdates/squashdates.go:107-122 | quiet changes only which lines print: the quiet result equals the verbose one with day headers and span lines removed |
| Aggregation.FlushRules | squashdates/squashdates.go:74-95 | year and month flushes do nothing while their accumulator is 0; otherwise each prints one line and resets to 0, and a month flush prints the year line first exactly when the group's first span changes a non-empty year label |
| Aggregation.DayFlushRule | squashdates/squashdates.go:97-126 | a day flush of a non-empty group ends with a total line equal to the group's summed durations, adds that amount to the overall, month and year levels, records the month label and empties the group; an empty group is left alone |
| Aggregation.EnterMonthKeepsSums | squashdates/squashdates.go:101-105 | settling the month moves amounts from accumulators into printed lines without changing any level's sum |
| Aggregation.TakeYearKeepsSums | squashdates/squashdates.go:86-92 | the year step of flushCurrMonth at most moves the year accumulator into a printed year line: the year sum of lines plus accumulator, the month sum of lines, the month accumulator, the overall total and the group are unchanged |
| Aggregation.FlushMonthKeepsSums | squashdates/squashdates.go:82-95 | a month flush moves the month (and perhaps the year) accumulator into printed lines: each level's sum of lines plus accumulator, the overall total and the group are unchanged |
| Aggregation.DayGrouping | squashdates/squashdates.go:133-141 | a span joins the current group silently when currDay is empty or equal to its day label; otherwise the current day is flushed first and the span starts a new group; currDay becomes its label |
| Aggregation.FlushDayNoYear | squashdates/squashdates.go:97-126 | while every span seen has one month label, a day flush never flushes the month: currYear stays empty, no year line is printed and the year accumulator keeps pace with the overall total |
| Aggregation.AddSpanNoYear | squashdates/squashdates.go:128-142 | handing over one more span with that month label keeps the same invariant |
| Aggregation.FeedNoYear | squashdates/squashdates.go:143-158 | over any run of spans sharing one month label the invariant holds after every span |
| Aggregation.FinishNoYear | squashdates/squashdates.go:159-161 | after spans of one month with a non-zero total, the closing day, month and year flushes print exactly one year line, with the empty label and the whole total |
| Aggregation.SingleMonthEmptyYearLabel | squashdates/squashdates.go:86-92 | for any spans sharing one month label with a non-zero total, the report's only year line is the final one, with an empty label (currYear is never set) and the whole total |
| Aggregation.MonthChangeFlushesFirst | squashdates/squashdates.go:97-118 | when a day group starts a new month, the flush prints the old month's total before the day's lines and total, and the month accumulator afterwards holds exactly the new day's total |
| Aggregation.NoSpansNoReport | squashdates/squashdates.go:158-161 | with no spans nothing is printed and every accumulator stays initial |
| Aggregation.SingleSpanReport | squashdates/squashdates.go:86-92 | a single span prints day, month and year totals, and the year line has an empty label because currYear is never set |
| Aggregation.SameDayLabelOneGroup | squashdates/squashdates.go:133-141 | two spans with the same day label (which has no year) form one day group with one total |
| Aggregation.TwoDaysFed | squashdates/squashdates.go:133-141 | a span on a new day label flushes the previous day's total before joining a new group |
| Aggregation.FirstMonthBoundaryKeepsYear | squashdates/squashdates.go:86-92 | at the first month boundary no year line is printed, since currYear is still empty; one year line at the end covers both months |
| Aggregation.FlushSecondDay | squashdates/squashdates.go:82-105 | flushing a second day group in a new month prints the first month's total, then sets currYear from the group's first span (no year line since currYear was empty), then prints the day total |
| Aggregation.FinishSecondMonth | squashdates/squashdates.go:158-161 | the closing flushes after two months print the second day, the second month and one year line labelled from the second span |
| Aggregation.ThreeDaysFed | squashdates/squashdates.go:101-105 | a month change flushes the month before the new day's durations are added |
| Aggregation.ThirdDayClosesSecond | squashdates/squashdates.go:133-141 | a third span on a new day label flushes the second day group, with its month line first, and opens a group of its own |
| Aggregation.YearLineBeforeMonthLine | squashdates/squashdates.go:86-93 | at a year change the old year's total is printed before the old month's total, because the year is read from the new month's first span |
| Aggregation.YearChangeDayFlush | squashdates/squashdates.go:82-105 | flushing a day group whose first span is in a new month and a new year prints the old year's line, then the old month's line, then the day total, and restarts both accumulators from the group |
| SquashDates.Squashed | squashdates/squashdates.go:57-166 | no contract; defines what `Squash` computes for sorted dates: the cascade over the spans the loop emits |
| SquashDates.Squasher.constructor | squashdates/squashdates.go:64-72 | all captured variables start empty or zero, and spanStart/spanEnd start at the zero time |
| SquashDates.Squasher.FlushCurrYear | squashdates/squashdates.go:74-80 | the fields move exactly as `FlushYear` says |
| SquashDates.Squasher.FlushCurrMonth | squashdates/squashdates.go:82-95 | the fields move exactly as `FlushMonth` says |
| SquashDates.Squasher.EnterCurrMonth | squashdates/squashdates.go:101-105 | the fields move exactly as `EnterMonth` says |
| SquashDates.Squasher.PrintCurrDay | squashdates/squashdates.go:106-125 | prints the header and span lines (unless quiet) and the day total, adds the group's total to the month, year and overall accumulators, and empties the group |
| SquashDates.Squasher.PrintSpans | squashdates/squashdates.go:110-123 | the loop returns the group's summed durations, adds that sum to the month, year and overall totals, prints one line per span in order unless quiet, and leaves the group and the labels alone |
| SquashDates.Squasher.FlushCurrDay | squashdates/squashdates.go:97-126 | the fields move exactly as `FlushDay` says |
| SquashDates.Squasher.FlushCurrSpan | squashdates/squashdates.go:128-142 | nothing changes while spanStart is the zero time; otherwise the fields move as `AddSpan` of (spanStart, spanEnd) says |
| SquashDates.Squasher.FeedDates | squashdates/squashdates.go:143-158 | the loop over the sorted dates followed by the last flushCurrSpan leaves the fields as `Feed` of the spans `SpansOf` builds from those dates |
| SquashDates.Squasher.Close | squashdates/squashdates.go:159-161 | the final day, month and year flushes move the fields as `Finish` says |
| SquashDates.MostRecentIsLatest | squashdates/squashdates.go:162-165 | the last element of a sorted permutation is one of the input dates and no input date is later |
| SquashDates.Squash | squashdates/squashdates.go:57-166 | sorts the dates in place; the returned total and the printed lines are those of `Aggregate(SpansOf(...))`; the most recent date is the zero time for no dates, otherwise the last sorted date, an input date no input date is later than |
| SquashDates.StandaloneMain | squashdates.go:63-160 | the stand-alone program sorts the dates and prints the same lines with the −6/+3 minute padding |
| SquashDates.SquashTotals | squashdates/squashdates.go:158-165 | the returned total is the sum of the spans' durations, and the printed day, month and year totals each add up to it |
| SquashDates.SquashNoDates | squashdates/squashdates.go:162-163 | no dates: a zero total and no printed line |
| SquashDates.SquashSingleDate | squashdates/squashdates.go:145-149 | one date gives a total of exactly PAD_AFTER − PAD_BEFORE, 9 minutes under either set of constants, unless its padded start is the zero instant |
| SquashDates.SquashQuietKeepsTotals | squashdates/squashdates.go:107-122 | quiet never changes the returned total; its report is the verbose one without day headers and span lines |
| SquashDates.SquashTotalIndependentOfOrder | squashdates/squashdates.go:62-165 | the returned total does not depend on how ties are ordered by the sort |
| SquashDates.TiedPairReport | squashdates/squashdates.go:143-161 | two dates at the same instant form one span; in quiet mode the day and month lines are labelled from the date sorted first and the year line has an empty label |
| SquashDates.TieOrderChangesReport | squashdates/squashdates.go:62 | two dates at the same instant in different locations are sorted in either order, and the two orders print different day labels |
| SquashDates.SpansLastNineMinutes | squashdates.go:30-31 | under either set of constants every span lasts at least 9 minutes |
| Cli.KeptSince | squashdates-main.go:60 | no contract; defines the --since test: strictly after since, or the very same time value |
| Cli.SinceFilter | squashdates-main.go:58-64 | no contract; defines the dates the loop keeps, in input order (stated by `SinceFilterMembers` and `SinceFilterConcat`) |
| Cli.KeptDates | squashdates-main.go:55-65 | no contract; defines the dates handed to `Squash`: the --since survivors, or all of them without --since |
| Cli.FilterSince | squashdates-main.go:58-64 | the loop keeps exactly the dates `SinceFilter` keeps, in input order |
| Cli.SinceFilterMembers | squashdates-main.go:60 | a date is kept iff it is an input date and is strictly after since or the very same time value |
| Cli.SinceFilterConcat | squashdates-main.go:59-63 | the filter works date by date and keeps the relative order of the kept dates |
| Cli.SinceFilterShrinks | squashdates-main.go:58-64 | the filter never adds or duplicates dates |
| Cli.SinceBeforeAllKeepsAll | squashdates-main.go:58-64 | a since earlier than every date keeps them all |
| Cli.SinceBoundary | squashdates-main.go:60 | since itself is kept, earlier instants are dropped, and the same instant in another location is dropped |
| Cli.MechSeconds | squashdates-main.go:72 | whole seconds truncated toward zero: within one second of the total, never farther from zero |
| Cli.MechOutput | squashdates-main.go:72-75 | mech mode prints the whole seconds of the total, then the most recent date only when some date was squashed |
| Cli.SquashKept | squashdates-main.go:67-76 | Squash sorts the kept dates into a permutation and prints the report of `Squashed` over them; mech output is empty without --mech, otherwise the seconds line and, when any date was kept, the last sorted date, an input date no kept date is later than |
| Cli.Run | squashdates-main.go:53-76 | an unparsable --since bails out; otherwise Squash sees the filtered dates (all of them without --since), mech mode prints the seconds and, only when some date was kept, the latest kept date |

## Left out

- `ReadDates` and the parse loop of the stand-alone program are not part of this model. They scan lines and call `time.Parse`, so the model starts from a sequence of instants.
- `squashdates.ParseDate` is not part of this model. `--since` arrives already parsed, or as `Unparsable` when parsing fails.
- Flag parsing, the help path and the `alog` colour output are I/O glue and are not modelled.
- `formatDuration`, and the hours it prints, are floating-point formatting and are not modelled. Printed lines carry integer nanosecond totals.
- The `Format` layouts and time-zone rendering are not modelled. The day, month and year labels are the fields of `Calendar`: arbitrary functions of the time value (instant and location). Nothing ties them to calendar arithmetic.
- The text of the printed lines is not modelled. `Event` keeps each line's kind, label and amount.
- The UTC rendering of the latest date in mech mode is not modelled. `LastSeen` carries the time value itself.
- GoTime.Sub: does not model Go's saturation of `Sub` at the int64 bounds, nor the int64 wrap-around of `Add` and of the `+=` accumulators. Durations and instants are unbounded integers.
- GoTime.Time: a location is an opaque number. Go compares `*Location` pointers in `==`, and separately parsed dates may carry distinct pointers for the same zone. The model takes whatever location identities the caller supplies.
- TimeSlice.Sort: an insertion sort over `Len`, `Less` and `Swap` stands in for Go's `sort.Sort`. It gives the same multiset in ascending order, but it may order equal instants in different locations differently from Go, whose sort is not stable either. Span starts and ends carry the location of whichever tied date comes first or last, so the report's day, month and year labels, its day grouping, the locations in the span lines and the returned most recent date may all differ from Go's (`TieOrderChangesReport`). Only the totals cannot (`SquashTotalIndependentOfOrder`).
- SquashDates.StandaloneMain: it reuses `Squash`, which also keeps `overallDuration` and the most recent date, and then discards both. The stand-alone program never computes them, and its printed lines are the same.
- SquashDates.Squasher: `flushCurrDay` is split into `EnterCurrMonth` (its month step) and `PrintCurrDay` (its printing), whose span loop is `PrintSpans`. `FlushCurrDay` calls them in the source's order. The body of `Squash` after sorting is split the same way: `FeedDates` is the date loop and the last `flushCurrSpan`, `Close` the final three flushes.
- SquashDates.Squasher: `currDaySpans[:0]` reuses the slice's backing array in Go. The model assigns an empty sequence; nothing else holds the old array.
