/** The aggregation cascade: spans are grouped into days by the label of their
    start, day totals roll into the month total, the year total and the overall
    total, and every level prints its total line when it is flushed. This module
    is the specification of the four closures flushCurrSpan, flushCurrDay,
    flushCurrMonth and flushCurrYear as functions on the state they capture. */
module Aggregation {
  import opened GoTime
  import opened SpanBuilder

  /** The labels Format gives an instant: DATE_FORMAT "Mon Jan 02" (which has no
      year), MONTH_FORMAT "Jan 2006" and YEAR_FORMAT "2006". They depend on the
      instant's location; the model leaves them uninterpreted. */
  datatype Calendar = Calendar(day: Time -> string, month: Time -> string, year: Time -> string)

  /** The report lines, in the order they are printed. */
  datatype Event =
    | DayHeader(day: string)                 // "Spans for <day>:", not in quiet mode
    | SpanLine(span: Span)                   // "<start> -> <end>: <duration>", not in quiet mode
    | DayTotal(day: string, total: int)      // "Total for <day>: ..."
    | MonthTotal(month: string, total: int)  // "Total for <month>: ..."
    | YearTotal(year: string, total: int)    // "Total for <year>: ..."

  /** The variables the closures capture, and the report printed so far. */
  datatype Accumulators = Accumulators(
    currYear: string,
    currMonth: string,
    currDay: string,
    currDaySpans: seq<Span>,
    monthTotalDuration: int,
    yearTotalDuration: int,
    overallDuration: int,
    out: seq<Event>)

  const Initial: Accumulators := Accumulators("", "", "", [], 0, 0, 0, [])

  /** flushCurrYear */
  function FlushYear(a: Accumulators): Accumulators {
    if a.yearTotalDuration == 0 then a
    else a.(out := a.out + [YearTotal(a.currYear, a.yearTotalDuration)], yearTotalDuration := 0)
  }

  /** The part of flushCurrMonth that settles currYear: the year label is taken
      from the first span of the current day group, which at a month change
      already belongs to the new month; the year is flushed first when that label
      differs from a non-empty currYear. */
  function TakeYear(a: Accumulators, cal: Calendar): Accumulators {
    if |a.currDaySpans| > 0 then
      var year := cal.year(a.currDaySpans[0].start);
      (if a.currYear != "" && year != a.currYear then FlushYear(a) else a).(currYear := year)
    else a
  }

  /** flushCurrMonth */
  function FlushMonth(a: Accumulators, cal: Calendar): Accumulators {
    if a.monthTotalDuration == 0 then a
    else
      var b := TakeYear(a, cal);
      b.(out := b.out + [MonthTotal(b.currMonth, b.monthTotalDuration)], monthTotalDuration := 0)
  }

  /** One detail line per span of a day group. */
  function SpanLines(sps: seq<Span>): seq<Event> {
    if sps == [] then [] else SpanLines(sps[..|sps| - 1]) + [SpanLine(sps[|sps| - 1])]
  }

  /** The lines a day flush prints between the month flush and the day total. */
  function DayDetail(day: string, sps: seq<Span>, quiet: bool): seq<Event> {
    if quiet then [] else [DayHeader(day)] + SpanLines(sps)
  }

  /** The part of flushCurrDay that settles currMonth: the month is flushed first
      when the group's month label differs from a non-empty currMonth. */
  function EnterMonth(a: Accumulators, cal: Calendar): Accumulators
    requires |a.currDaySpans| > 0
  {
    var month := cal.month(a.currDaySpans[0].start);
    (if a.currMonth != "" && month != a.currMonth then FlushMonth(a, cal) else a).(currMonth := month)
  }

  /** flushCurrDay: settles the month, prints the group and adds its durations
      to the month, year and overall totals, and empties the group. */
  function FlushDay(a: Accumulators, cal: Calendar, quiet: bool): Accumulators {
    if |a.currDaySpans| == 0 then a
    else
      var b := EnterMonth(a, cal);
      var dateStr := cal.day(a.currDaySpans[0].start);
      var total := TotalDuration(a.currDaySpans);
      b.(out := b.out + DayDetail(dateStr, a.currDaySpans, quiet) + [DayTotal(dateStr, total)],
         monthTotalDuration := b.monthTotalDuration + total,
         yearTotalDuration := b.yearTotalDuration + total,
         overallDuration := b.overallDuration + total,
         currDaySpans := [])
  }

  /** flushCurrSpan for a span the builder closed: the span joins the current day
      group unless its day label differs from a non-empty currDay, in which case
      the day is flushed first. */
  function AddSpan(a: Accumulators, sp: Span, cal: Calendar, quiet: bool): Accumulators {
    var day := cal.day(sp.start);
    var b := if a.currDay == "" then a.(currDay := day) else a;
    var c := if b.currDay != day then FlushDay(b, cal, quiet).(currDay := day) else b;
    c.(currDaySpans := c.currDaySpans + [sp])
  }

  /** The state after the spans sps have been handed to flushCurrSpan in order. */
  function Feed(a: Accumulators, sps: seq<Span>, cal: Calendar, quiet: bool): Accumulators {
    if sps == [] then a else AddSpan(Feed(a, sps[..|sps| - 1], cal, quiet), sps[|sps| - 1], cal, quiet)
  }

  /** The closing cascade: flushCurrDay, flushCurrMonth, flushCurrYear. */
  function Finish(a: Accumulators, cal: Calendar, quiet: bool): Accumulators {
    FlushYear(FlushMonth(FlushDay(a, cal, quiet), cal))
  }

  /** The whole aggregation of a span sequence. */
  function Aggregate(sps: seq<Span>, cal: Calendar, quiet: bool): Accumulators {
    Finish(Feed(Initial, sps, cal, quiet), cal, quiet)
  }

  lemma FeedSnoc(a: Accumulators, sps: seq<Span>, sp: Span, cal: Calendar, quiet: bool)
    ensures Feed(a, sps + [sp], cal, quiet) == AddSpan(Feed(a, sps, cal, quiet), sp, cal, quiet)
  {
    assert (sps + [sp])[..|sps|] == sps;
  }

  // ----- Sums over the printed lines -----

  datatype Level = SpanLevel | DayLevel | MonthLevel | YearLevel

  /** The duration a line reports at a level (0 for lines of other levels). */
  function Amount(e: Event, level: Level): int {
    match e
    case DayHeader(_) => 0
    case SpanLine(sp) => if level == SpanLevel then Duration(sp) else 0
    case DayTotal(_, t) => if level == DayLevel then t else 0
    case MonthTotal(_, t) => if level == MonthLevel then t else 0
    case YearTotal(_, t) => if level == YearLevel then t else 0
  }

  function SumAt(es: seq<Event>, level: Level): int {
    if es == [] then 0 else SumAt(es[..|es| - 1], level) + Amount(es[|es| - 1], level)
  }

  /** The spans listed by the detail lines, in order. */
  function Listed(es: seq<Event>): seq<Span> {
    if es == [] then []
    else Listed(es[..|es| - 1]) + (if es[|es| - 1].SpanLine? then [es[|es| - 1].span] else [])
  }

  /** The report without the lines quiet mode suppresses. */
  function Strip(es: seq<Event>): seq<Event> {
    if es == [] then []
    else Strip(es[..|es| - 1]) + (if es[|es| - 1].DayHeader? || es[|es| - 1].SpanLine? then [] else [es[|es| - 1]])
  }

  lemma {:induction false} SumAtConcat(xs: seq<Event>, ys: seq<Event>, level: Level)
    ensures SumAt(xs + ys, level) == SumAt(xs, level) + SumAt(ys, level)
    decreases |ys|
  {
    if ys == [] {
      assert xs + ys == xs;
    } else {
      assert (xs + ys)[..|xs + ys| - 1] == xs + ys[..|ys| - 1];
      SumAtConcat(xs, ys[..|ys| - 1], level);
    }
  }

  lemma {:induction false} ListedConcat(xs: seq<Event>, ys: seq<Event>)
    ensures Listed(xs + ys) == Listed(xs) + Listed(ys)
    decreases |ys|
  {
    if ys == [] {
      assert xs + ys == xs;
    } else {
      assert (xs + ys)[..|xs + ys| - 1] == xs + ys[..|ys| - 1];
      ListedConcat(xs, ys[..|ys| - 1]);
    }
  }

  lemma {:induction false} StripConcat(xs: seq<Event>, ys: seq<Event>)
    ensures Strip(xs + ys) == Strip(xs) + Strip(ys)
    decreases |ys|
  {
    if ys == [] {
      assert xs + ys == xs;
    } else {
      assert (xs + ys)[..|xs + ys| - 1] == xs + ys[..|ys| - 1];
      StripConcat(xs, ys[..|ys| - 1]);
    }
  }

  /** The detail lines of a group list exactly its spans, report exactly its
      total at the span level, nothing at the other levels, and vanish in quiet mode. */
  lemma {:induction false} SpanLinesFacts(sps: seq<Span>)
    ensures Listed(SpanLines(sps)) == sps
    ensures Strip(SpanLines(sps)) == []
    ensures SumAt(SpanLines(sps), SpanLevel) == TotalDuration(sps)
    ensures SumAt(SpanLines(sps), DayLevel) == 0
    ensures SumAt(SpanLines(sps), MonthLevel) == 0
    ensures SumAt(SpanLines(sps), YearLevel) == 0
  {
    if sps != [] {
      var init, last := sps[..|sps| - 1], sps[|sps| - 1];
      SpanLinesFacts(init);
      var lines := SpanLines(sps);
      assert lines[..|lines| - 1] == SpanLines(init) && lines[|lines| - 1] == SpanLine(last);
      assert init + [last] == sps;
    }
  }

  lemma DayDetailFacts(day: string, sps: seq<Span>, quiet: bool)
    ensures Listed(DayDetail(day, sps, quiet)) == (if quiet then [] else sps)
    ensures Strip(DayDetail(day, sps, quiet)) == []
    ensures SumAt(DayDetail(day, sps, quiet), SpanLevel) == (if quiet then 0 else TotalDuration(sps))
    ensures SumAt(DayDetail(day, sps, quiet), DayLevel) == 0
    ensures SumAt(DayDetail(day, sps, quiet), MonthLevel) == 0
    ensures SumAt(DayDetail(day, sps, quiet), YearLevel) == 0
  {
    SpanLinesFacts(sps);
    if !quiet {
      ListedConcat([DayHeader(day)], SpanLines(sps));
      StripConcat([DayHeader(day)], SpanLines(sps));
      assert [DayHeader(day)][..0] == [];
      forall level: Level
        ensures SumAt(DayDetail(day, sps, quiet), level) == SumAt(SpanLines(sps), level)
      {
        SumAtConcat([DayHeader(day)], SpanLines(sps), level);
      }
    }
  }

  // ----- The rollup: every level's printed totals add up to the overall total -----

  /** What the cascade keeps true after spans `fed` have been handed to it:
      the overall total plus the open day group accounts for every span; the
      printed day totals equal the overall total; the printed month (year)
      totals plus the month (year) accumulator equal it too; and the detail
      lines list every span of the closed groups, in order (none in quiet mode). */
  ghost predicate Rolled(a: Accumulators, fed: seq<Span>, quiet: bool) {
    && a.overallDuration + TotalDuration(a.currDaySpans) == TotalDuration(fed)
    && SumAt(a.out, DayLevel) == a.overallDuration
    && SumAt(a.out, MonthLevel) + a.monthTotalDuration == a.overallDuration
    && SumAt(a.out, YearLevel) + a.yearTotalDuration == a.overallDuration
    && SumAt(a.out, SpanLevel) == (if quiet then 0 else a.overallDuration)
    && (if quiet then Listed(a.out) == [] else Listed(a.out) + a.currDaySpans == fed)
  }

  lemma AppendTotalLine(out: seq<Event>, e: Event)
    requires !e.SpanLine? && !e.DayHeader?
    ensures Listed(out + [e]) == Listed(out)
    ensures Strip(out + [e]) == Strip(out) + [e]
    ensures SumAt(out + [e], SpanLevel) == SumAt(out, SpanLevel)
    ensures SumAt(out + [e], DayLevel) == SumAt(out, DayLevel) + Amount(e, DayLevel)
    ensures SumAt(out + [e], MonthLevel) == SumAt(out, MonthLevel) + Amount(e, MonthLevel)
    ensures SumAt(out + [e], YearLevel) == SumAt(out, YearLevel) + Amount(e, YearLevel)
  {
    assert (out + [e])[..|out|] == out;
  }

  /** A year flush moves the year accumulator into one printed line. */
  lemma FlushYearRolled(a: Accumulators, fed: seq<Span>, quiet: bool)
    requires Rolled(a, fed, quiet)
    ensures Rolled(FlushYear(a), fed, quiet)
  {
    if a.yearTotalDuration != 0 {
      AppendTotalLine(a.out, YearTotal(a.currYear, a.yearTotalDuration));
    }
  }

  /** Settling the year at most flushes the year. */
  lemma TakeYearRolled(a: Accumulators, cal: Calendar, fed: seq<Span>, quiet: bool)
    requires Rolled(a, fed, quiet)
    ensures Rolled(TakeYear(a, cal), fed, quiet)
  {
    if |a.currDaySpans| > 0 {
      FlushYearRolled(a, fed, quiet);
    }
  }

  /** A month flush moves the month accumulator into one printed line (after
      possibly flushing the year). */
  lemma FlushMonthRolled(a: Accumulators, cal: Calendar, fed: seq<Span>, quiet: bool)
    requires Rolled(a, fed, quiet)
    ensures Rolled(FlushMonth(a, cal), fed, quiet)
  {
    if a.monthTotalDuration != 0 {
      var b := TakeYear(a, cal);
      TakeYearRolled(a, cal, fed, quiet);
      AppendTotalLine(b.out, MonthTotal(b.currMonth, b.monthTotalDuration));
    }
  }

  lemma EnterMonthRolled(a: Accumulators, cal: Calendar, fed: seq<Span>, quiet: bool)
    requires |a.currDaySpans| > 0
    requires Rolled(a, fed, quiet)
    ensures Rolled(EnterMonth(a, cal), fed, quiet)
    ensures EnterMonth(a, cal).currDaySpans == a.currDaySpans
  {
    FlushMonthRolled(a, cal, fed, quiet);
  }

  /** What printing a day group adds to the report: its spans (none when
      quiet) and, at each level, exactly the group's total at the day level and
      at the span level unless quiet. */
  lemma DayLinesSums(prior: seq<Event>, day: string, spans: seq<Span>, quiet: bool)
    ensures var out, total := prior + DayDetail(day, spans, quiet) + [DayTotal(day, TotalDuration(spans))], TotalDuration(spans);
      && Listed(out) == Listed(prior) + (if quiet then [] else spans)
      && SumAt(out, SpanLevel) == SumAt(prior, SpanLevel) + (if quiet then 0 else total)
      && SumAt(out, DayLevel) == SumAt(prior, DayLevel) + total
      && SumAt(out, MonthLevel) == SumAt(prior, MonthLevel)
      && SumAt(out, YearLevel) == SumAt(prior, YearLevel)
  {
    var detail := DayDetail(day, spans, quiet);
    DayDetailFacts(day, spans, quiet);
    AppendTotalLine(prior + detail, DayTotal(day, TotalDuration(spans)));
    assert Listed(prior + detail) == Listed(prior) + (if quiet then [] else spans) by {
      ListedConcat(prior, detail);
    }
    forall level: Level
      ensures SumAt(prior + detail, level) == SumAt(prior, level) + SumAt(detail, level)
    {
      SumAtConcat(prior, detail, level);
    }
  }

  /** Printing the open group's lines and day total and adding the total to
      the month, year and overall levels keeps the cascade rolled. */
  lemma CloseGroupRolled(b: Accumulators, day: string, fed: seq<Span>, quiet: bool)
    requires Rolled(b, fed, quiet)
    ensures var total := TotalDuration(b.currDaySpans);
      Rolled(b.(out := b.out + DayDetail(day, b.currDaySpans, quiet) + [DayTotal(day, total)],
                monthTotalDuration := b.monthTotalDuration + total,
                yearTotalDuration := b.yearTotalDuration + total,
                overallDuration := b.overallDuration + total,
                currDaySpans := []), fed, quiet)
  {
    DayLinesSums(b.out, day, b.currDaySpans, quiet);
    if !quiet {
      assert Listed(b.out) + b.currDaySpans + [] == fed;
    }
  }

  /** A day flush adds the group's total to the day, month, year and overall
      levels alike and lists the group's spans. */
  lemma FlushDayRolled(a: Accumulators, cal: Calendar, fed: seq<Span>, quiet: bool)
    requires Rolled(a, fed, quiet)
    ensures Rolled(FlushDay(a, cal, quiet), fed, quiet)
    ensures FlushDay(a, cal, quiet).currDaySpans == []
  {
    if |a.currDaySpans| > 0 {
      EnterMonthRolled(a, cal, fed, quiet);
      CloseGroupRolled(EnterMonth(a, cal), cal.day(a.currDaySpans[0].start), fed, quiet);
    }
  }

  /** A span joining the open day group is accounted for by the group. */
  lemma JoinGroupRolled(c: Accumulators, sp: Span, fed: seq<Span>, quiet: bool)
    requires Rolled(c, fed, quiet)
    ensures Rolled(c.(currDaySpans := c.currDaySpans + [sp]), fed + [sp], quiet)
  {
    TotalDurationConcat(c.currDaySpans, [sp]);
    TotalDurationConcat(fed, [sp]);
    TotalOfOne(sp);
    if !quiet {
      assert Listed(c.out) + (c.currDaySpans + [sp]) == fed + [sp];
    }
  }

  lemma AddSpanRolled(a: Accumulators, sp: Span, cal: Calendar, fed: seq<Span>, quiet: bool)
    requires Rolled(a, fed, quiet)
    ensures Rolled(AddSpan(a, sp, cal, quiet), fed + [sp], quiet)
  {
    var day := cal.day(sp.start);
    var b := if a.currDay == "" then a.(currDay := day) else a;
    assert Rolled(b, fed, quiet);
    if b.currDay != day {
      FlushDayRolled(b, cal, fed, quiet);
      JoinGroupRolled(FlushDay(b, cal, quiet).(currDay := day), sp, fed, quiet);
    } else {
      JoinGroupRolled(b, sp, fed, quiet);
    }
  }

  lemma {:induction false} FeedRolled(sps: seq<Span>, cal: Calendar, quiet: bool)
    ensures Rolled(Feed(Initial, sps, cal, quiet), sps, quiet)
  {
    if sps != [] {
      var init, last := sps[..|sps| - 1], sps[|sps| - 1];
      assert sps == init + [last];
      FeedRolled(init, cal, quiet);
      AddSpanRolled(Feed(Initial, init, cal, quiet), last, cal, init, quiet);
    }
  }

  /** The rollup. After the final cascade the overall total is the sum of all span
      durations; the printed day totals, month totals and year totals each add up
      to it; every accumulator is back to empty or zero; and, unless quiet, the
      detail lines list every span exactly once and in order. */
  lemma Rollup(sps: seq<Span>, cal: Calendar, quiet: bool)
    ensures var r := Aggregate(sps, cal, quiet);
      && r.overallDuration == TotalDuration(sps)
      && SumAt(r.out, DayLevel) == r.overallDuration
      && SumAt(r.out, MonthLevel) == r.overallDuration
      && SumAt(r.out, YearLevel) == r.overallDuration
      && r.currDaySpans == [] && r.monthTotalDuration == 0 && r.yearTotalDuration == 0
      && (quiet ==> Listed(r.out) == [])
      && (!quiet ==> Listed(r.out) == sps && SumAt(r.out, SpanLevel) == r.overallDuration)
  {
    FeedRolled(sps, cal, quiet);
    FinishRolled(Feed(Initial, sps, cal, quiet), cal, sps, quiet);
  }

  /** The closing cascade keeps the cascade rolled and empties every accumulator
      but the overall total. */
  lemma FinishRolled(a: Accumulators, cal: Calendar, fed: seq<Span>, quiet: bool)
    requires Rolled(a, fed, quiet)
    ensures var r := Finish(a, cal, quiet);
      Rolled(r, fed, quiet) && r.currDaySpans == [] && r.monthTotalDuration == 0 && r.yearTotalDuration == 0
  {
    FlushDayRolled(a, cal, fed, quiet);
    var d := FlushDay(a, cal, quiet);
    FlushMonthRolled(d, cal, fed, quiet);
    FlushYearRolled(FlushMonth(d, cal), fed, quiet);
  }

  // ----- Quiet mode changes which lines print and nothing else -----

  /** v is the state of a verbose run and q of a quiet run over the same spans. */
  ghost predicate Mirrors(v: Accumulators, q: Accumulators) {
    && v.currYear == q.currYear && v.currMonth == q.currMonth && v.currDay == q.currDay
    && v.currDaySpans == q.currDaySpans
    && v.monthTotalDuration == q.monthTotalDuration
    && v.yearTotalDuration == q.yearTotalDuration
    && v.overallDuration == q.overallDuration
    && Strip(v.out) == q.out
  }

  lemma FlushYearMirrors(v: Accumulators, q: Accumulators)
    requires Mirrors(v, q)
    ensures Mirrors(FlushYear(v), FlushYear(q))
  {
    AppendTotalLine(v.out, YearTotal(v.currYear, v.yearTotalDuration));
  }

  lemma FlushMonthMirrors(v: Accumulators, q: Accumulators, cal: Calendar)
    requires Mirrors(v, q)
    ensures Mirrors(FlushMonth(v, cal), FlushMonth(q, cal))
  {
    FlushYearMirrors(v, q);
    var v1 := if v.currYear != "" && |v.currDaySpans| > 0 && cal.year(v.currDaySpans[0].start) != v.currYear
              then FlushYear(v) else v;
    AppendTotalLine(v1.out, MonthTotal(v.currMonth, v.monthTotalDuration));
  }

  lemma EnterMonthMirrors(v: Accumulators, q: Accumulators, cal: Calendar)
    requires Mirrors(v, q) && |v.currDaySpans| > 0
    ensures |q.currDaySpans| > 0 && Mirrors(EnterMonth(v, cal), EnterMonth(q, cal))
  {
    FlushMonthMirrors(v, q, cal);
  }

  /** Quiet mode drops a day's header and span lines and keeps its total line. */
  lemma DayLinesStrip(prior: seq<Event>, day: string, spans: seq<Span>)
    ensures var line := DayTotal(day, TotalDuration(spans));
      && Strip(prior + DayDetail(day, spans, false) + [line]) == Strip(prior) + [line]
      && DayDetail(day, spans, true) == []
  {
    var detail := DayDetail(day, spans, false);
    DayDetailFacts(day, spans, false);
    StripConcat(prior, detail);
    AppendTotalLine(prior + detail, DayTotal(day, TotalDuration(spans)));
  }

  lemma FlushDayMirrors(v: Accumulators, q: Accumulators, cal: Calendar)
    requires Mirrors(v, q)
    ensures Mirrors(FlushDay(v, cal, false), FlushDay(q, cal, true))
  {
    if |v.currDaySpans| > 0 {
      EnterMonthMirrors(v, q, cal);
      DayLinesStrip(EnterMonth(v, cal).out, cal.day(v.currDaySpans[0].start), v.currDaySpans);
    }
  }

  lemma AddSpanMirrors(v: Accumulators, q: Accumulators, sp: Span, cal: Calendar)
    requires Mirrors(v, q)
    ensures Mirrors(AddSpan(v, sp, cal, false), AddSpan(q, sp, cal, true))
  {
    var day := cal.day(sp.start);
    var vb := if v.currDay == "" then v.(currDay := day) else v;
    var qb := if q.currDay == "" then q.(currDay := day) else q;
    FlushDayMirrors(vb, qb, cal);
  }

  lemma {:induction false} FeedMirrors(sps: seq<Span>, cal: Calendar)
    ensures Mirrors(Feed(Initial, sps, cal, false), Feed(Initial, sps, cal, true))
  {
    if sps != [] {
      FeedMirrors(sps[..|sps| - 1], cal);
      AddSpanMirrors(Feed(Initial, sps[..|sps| - 1], cal, false), Feed(Initial, sps[..|sps| - 1], cal, true),
                     sps[|sps| - 1], cal);
    }
  }

  /** Quiet mode only suppresses the "Spans for" headers and the span lines: the
      quiet report is the verbose one without them, and every total and every
      other variable ends the same. */
  lemma QuietOnlyHidesDetail(sps: seq<Span>, cal: Calendar)
    ensures var v, q := Aggregate(sps, cal, false), Aggregate(sps, cal, true);
      q == v.(out := Strip(v.out))
  {
    var v, q := Feed(Initial, sps, cal, false), Feed(Initial, sps, cal, true);
    FeedMirrors(sps, cal);
    FlushDayMirrors(v, q, cal);
    FlushMonthMirrors(FlushDay(v, cal, false), FlushDay(q, cal, true), cal);
    FlushYearMirrors(FlushMonth(FlushDay(v, cal, false), cal), FlushMonth(FlushDay(q, cal, true), cal));
  }

  // ----- The flush rules, one call at a time -----

  /** Year and month flushes do nothing while their accumulator is 0; otherwise
      each prints its line and resets the accumulator to 0. A month flush prints
      the year line first exactly when the current day group's first span has a
      year label different from a non-empty currYear (and the year total is not 0). */
  lemma FlushRules(a: Accumulators, cal: Calendar)
    ensures a.yearTotalDuration == 0 ==> FlushYear(a) == a
    ensures a.yearTotalDuration != 0 ==>
      FlushYear(a).out == a.out + [YearTotal(a.currYear, a.yearTotalDuration)]
      && FlushYear(a).yearTotalDuration == 0
    ensures a.monthTotalDuration == 0 ==> FlushMonth(a, cal) == a
    ensures a.monthTotalDuration != 0 ==>
      var yearFirst := |a.currDaySpans| > 0 && a.currYear != ""
        && cal.year(a.currDaySpans[0].start) != a.currYear && a.yearTotalDuration != 0;
      && FlushMonth(a, cal).out
         == a.out + (if yearFirst then [YearTotal(a.currYear, a.yearTotalDuration)] else [])
                  + [MonthTotal(a.currMonth, a.monthTotalDuration)]
      && FlushMonth(a, cal).monthTotalDuration == 0
      && FlushMonth(a, cal).currDaySpans == a.currDaySpans
  {
  }

  /** A day flush of a non-empty group prints a total equal to the sum of the
      group's durations as its last line, adds that same amount to the month,
      year and overall levels (counting what a month or year flush printed on the
      way), records the group's month label and leaves the group empty. An empty
      group is not flushed. */
  lemma DayFlushRule(a: Accumulators, cal: Calendar, quiet: bool)
    ensures |a.currDaySpans| == 0 ==> FlushDay(a, cal, quiet) == a
    ensures |a.currDaySpans| > 0 ==>
      var r, total := FlushDay(a, cal, quiet), TotalDuration(a.currDaySpans);
      && r.out[|r.out| - 1] == DayTotal(cal.day(a.currDaySpans[0].start), total)
      && r.overallDuration == a.overallDuration + total
      && SumAt(r.out, MonthLevel) + r.monthTotalDuration == SumAt(a.out, MonthLevel) + a.monthTotalDuration + total
      && SumAt(r.out, YearLevel) + r.yearTotalDuration == SumAt(a.out, YearLevel) + a.yearTotalDuration + total
      && r.currMonth == cal.month(a.currDaySpans[0].start)
      && r.currDaySpans == []
  {
    if |a.currDaySpans| > 0 {
      var b := EnterMonth(a, cal);
      EnterMonthKeepsSums(a, cal);
      var dateStr := cal.day(a.currDaySpans[0].start);
      var total := TotalDuration(a.currDaySpans);
      var detail := DayDetail(dateStr, a.currDaySpans, quiet);
      DayDetailFacts(dateStr, a.currDaySpans, quiet);
      var line := DayTotal(dateStr, total);
      AppendTotalLine(b.out + detail, line);
      SumAtConcat(b.out, detail, MonthLevel);
      SumAtConcat(b.out, detail, YearLevel);
      var r := FlushDay(a, cal, quiet);
      assert r.out == b.out + detail + [line];
    }
  }

  /** Settling the year at most moves the year accumulator into a printed line. */
  lemma TakeYearKeepsSums(a: Accumulators, cal: Calendar)
    ensures var t := TakeYear(a, cal);
      && t.overallDuration == a.overallDuration
      && t.currDaySpans == a.currDaySpans
      && t.monthTotalDuration == a.monthTotalDuration
      && SumAt(t.out, MonthLevel) == SumAt(a.out, MonthLevel)
      && SumAt(t.out, YearLevel) + t.yearTotalDuration == SumAt(a.out, YearLevel) + a.yearTotalDuration
  {
    if a.yearTotalDuration != 0 {
      AppendTotalLine(a.out, YearTotal(a.currYear, a.yearTotalDuration));
    }
  }

  /** A month flush moves the month (and perhaps the year) accumulator into
      printed lines. */
  lemma FlushMonthKeepsSums(a: Accumulators, cal: Calendar)
    ensures var b := FlushMonth(a, cal);
      && b.overallDuration == a.overallDuration
      && b.currDaySpans == a.currDaySpans
      && SumAt(b.out, MonthLevel) + b.monthTotalDuration == SumAt(a.out, MonthLevel) + a.monthTotalDuration
      && SumAt(b.out, YearLevel) + b.yearTotalDuration == SumAt(a.out, YearLevel) + a.yearTotalDuration
  {
    if a.monthTotalDuration != 0 {
      var t := TakeYear(a, cal);
      TakeYearKeepsSums(a, cal);
      AppendTotalLine(t.out, MonthTotal(t.currMonth, t.monthTotalDuration));
    }
  }

  /** Settling the month (and perhaps the year) moves amounts from accumulators
      into printed lines without changing any level's sum of both. */
  lemma EnterMonthKeepsSums(a: Accumulators, cal: Calendar)
    requires |a.currDaySpans| > 0
    ensures var b := EnterMonth(a, cal);
      && b.overallDuration == a.overallDuration
      && b.currDaySpans == a.currDaySpans
      && SumAt(b.out, MonthLevel) + b.monthTotalDuration == SumAt(a.out, MonthLevel) + a.monthTotalDuration
      && SumAt(b.out, YearLevel) + b.yearTotalDuration == SumAt(a.out, YearLevel) + a.yearTotalDuration
  {
    FlushMonthKeepsSums(a, cal);
  }

  /** Day grouping: after a span is handed over, currDay is its start's day label.
      It joins the current group, printing nothing, when currDay is empty or
      equal to that label; otherwise the current group is flushed first and the
      span starts a new group. */
  lemma DayGrouping(a: Accumulators, sp: Span, cal: Calendar, quiet: bool)
    ensures AddSpan(a, sp, cal, quiet).currDay == cal.day(sp.start)
    ensures a.currDay == "" || a.currDay == cal.day(sp.start) ==>
      AddSpan(a, sp, cal, quiet).out == a.out
      && AddSpan(a, sp, cal, quiet).currDaySpans == a.currDaySpans + [sp]
    ensures a.currDay != "" && a.currDay != cal.day(sp.start) ==>
      AddSpan(a, sp, cal, quiet).out == FlushDay(a, cal, quiet).out
      && AddSpan(a, sp, cal, quiet).currDaySpans == [sp]
  {
  }

  /** Nothing handed over, nothing printed. */
  lemma NoSpansNoReport(cal: Calendar, quiet: bool)
    ensures Aggregate([], cal, quiet) == Initial
  {
  }

  // ----- Month and year boundaries, over any spans -----

  /** The year lines of a report, in order. */
  function YearLines(es: seq<Event>): seq<Event> {
    if es == [] then []
    else YearLines(es[..|es| - 1]) + (if es[|es| - 1].YearTotal? then [es[|es| - 1]] else [])
  }

  lemma {:induction false} YearLinesConcat(xs: seq<Event>, ys: seq<Event>)
    ensures YearLines(xs + ys) == YearLines(xs) + YearLines(ys)
    decreases |ys|
  {
    if ys == [] {
      assert xs + ys == xs;
    } else {
      assert (xs + ys)[..|xs + ys| - 1] == xs + ys[..|ys| - 1];
      YearLinesConcat(xs, ys[..|ys| - 1]);
    }
  }

  lemma {:induction false} SpanLinesNoYear(sps: seq<Span>)
    ensures YearLines(SpanLines(sps)) == []
  {
    if sps != [] {
      SpanLinesNoYear(sps[..|sps| - 1]);
      var lines := SpanLines(sps);
      assert lines[..|lines| - 1] == SpanLines(sps[..|sps| - 1]);
    }
  }

  /** A day flush prints no year line of its own. */
  lemma DayLinesNoYear(prior: seq<Event>, day: string, spans: seq<Span>, quiet: bool)
    ensures YearLines(prior + DayDetail(day, spans, quiet) + [DayTotal(day, TotalDuration(spans))])
      == YearLines(prior)
  {
    var detail := DayDetail(day, spans, quiet);
    SpanLinesNoYear(spans);
    if !quiet {
      YearLinesConcat([DayHeader(day)], SpanLines(spans));
      assert [DayHeader(day)][..0] == [];
    }
    YearLinesConcat(prior, detail);
    YearLinesConcat(prior + detail, [DayTotal(day, TotalDuration(spans))]);
    assert [DayTotal(day, TotalDuration(spans))][..0] == [];
  }

  /** While every span handed over has month label m: no month has been
      flushed, so currYear is still empty, no year line has been printed and
      the year accumulator has received every duration. */
  ghost predicate NoYearYet(a: Accumulators, cal: Calendar, m: string) {
    && a.currYear == ""
    && (a.currMonth == "" || a.currMonth == m)
    && a.yearTotalDuration == a.overallDuration
    && YearLines(a.out) == []
    && (|a.currDaySpans| > 0 ==> cal.month(a.currDaySpans[0].start) == m)
  }

  lemma FlushDayNoYear(a: Accumulators, cal: Calendar, quiet: bool, m: string)
    requires NoYearYet(a, cal, m)
    ensures NoYearYet(FlushDay(a, cal, quiet), cal, m)
  {
    if |a.currDaySpans| > 0 {
      assert EnterMonth(a, cal) == a.(currMonth := m);
      DayLinesNoYear(a.out, cal.day(a.currDaySpans[0].start), a.currDaySpans, quiet);
    }
  }

  lemma AddSpanNoYear(a: Accumulators, sp: Span, cal: Calendar, quiet: bool, m: string)
    requires NoYearYet(a, cal, m) && cal.month(sp.start) == m
    ensures NoYearYet(AddSpan(a, sp, cal, quiet), cal, m)
  {
    var day := cal.day(sp.start);
    var b := if a.currDay == "" then a.(currDay := day) else a;
    if b.currDay != day {
      FlushDayNoYear(b, cal, quiet, m);
    }
  }

  lemma {:induction false} FeedNoYear(sps: seq<Span>, cal: Calendar, quiet: bool, m: string)
    requires forall k :: 0 <= k < |sps| ==> cal.month(sps[k].start) == m
    ensures NoYearYet(Feed(Initial, sps, cal, quiet), cal, m)
  {
    if sps != [] {
      var init, last := sps[..|sps| - 1], sps[|sps| - 1];
      FeedNoYear(init, cal, quiet, m);
      AddSpanNoYear(Feed(Initial, init, cal, quiet), last, cal, quiet, m);
    }
  }

  /** The closing month flush of a group-less state prints no year line and
      leaves currYear empty, since the year step only reads a non-empty group. */
  lemma FinalMonthNoYear(d: Accumulators, cal: Calendar, m: string)
    requires NoYearYet(d, cal, m) && d.currDaySpans == []
    ensures var g := FlushMonth(d, cal);
      && g.currYear == "" && g.yearTotalDuration == d.overallDuration && YearLines(g.out) == []
  {
    assert TakeYear(d, cal) == d;
    YearLinesConcat(d.out, [MonthTotal(d.currMonth, d.monthTotalDuration)]);
    assert [MonthTotal(d.currMonth, d.monthTotalDuration)][..0] == [];
  }

  /** The closing cascade after spans of one month: one year line, with the
      empty label and the whole total. */
  lemma FinishNoYear(f: Accumulators, cal: Calendar, quiet: bool, m: string, fed: seq<Span>)
    requires NoYearYet(f, cal, m) && Rolled(f, fed, quiet) && TotalDuration(fed) != 0
    ensures YearLines(Finish(f, cal, quiet).out) == [YearTotal("", TotalDuration(fed))]
  {
    FlushDayNoYear(f, cal, quiet, m);
    FlushDayRolled(f, cal, fed, quiet);
    var d := FlushDay(f, cal, quiet);
    FinalMonthNoYear(d, cal, m);
    var g := FlushMonth(d, cal);
    YearLinesConcat(g.out, [YearTotal("", TotalDuration(fed))]);
    assert [YearTotal("", TotalDuration(fed))][..0] == [];
  }

  /** Spans that all share one month label never trigger the year step of a
      month flush, so the report's only year line is the final one, labelled
      with the empty currYear and carrying the whole total. */
  lemma {:induction false} SingleMonthEmptyYearLabel(sps: seq<Span>, cal: Calendar, quiet: bool, m: string)
    requires forall k :: 0 <= k < |sps| ==> cal.month(sps[k].start) == m
    requires TotalDuration(sps) != 0
    ensures YearLines(Aggregate(sps, cal, quiet).out) == [YearTotal("", TotalDuration(sps))]
  {
    FeedNoYear(sps, cal, quiet, m);
    FeedRolled(sps, cal, quiet);
    FinishNoYear(Feed(Initial, sps, cal, quiet), cal, quiet, m, sps);
  }

  /** At a month change a day flush prints the old month's line before the new
      day's lines, and only then adds the day's durations: the month
      accumulator afterwards holds exactly the new day's total. */
  lemma MonthChangeFlushesFirst(a: Accumulators, cal: Calendar, quiet: bool)
    requires |a.currDaySpans| > 0 && a.currMonth != ""
    requires cal.month(a.currDaySpans[0].start) != a.currMonth
    requires a.monthTotalDuration != 0
    ensures var r, t := FlushDay(a, cal, quiet), TakeYear(a, cal);
      var day, total := cal.day(a.currDaySpans[0].start), TotalDuration(a.currDaySpans);
      && r.out == t.out + [MonthTotal(a.currMonth, a.monthTotalDuration)]
                  + DayDetail(day, a.currDaySpans, quiet) + [DayTotal(day, total)]
      && r.monthTotalDuration == total
      && r.currMonth == cal.month(a.currDaySpans[0].start)
      && r.overallDuration == a.overallDuration + total
  {
    var t := TakeYear(a, cal);
    assert t.currMonth == a.currMonth && t.monthTotalDuration == a.monthTotalDuration;
    assert FlushMonth(a, cal).monthTotalDuration == 0;
  }

  // ----- The cascade's quirks, on small inputs (quiet mode) -----

  lemma FeedOne(sp: Span, cal: Calendar, quiet: bool)
    ensures Feed(Initial, [sp], cal, quiet) == AddSpan(Initial, sp, cal, quiet)
  {
    assert [sp][..0] == [];
  }

  /** With a single month nothing ever sets currYear, so the year line is
      printed with an empty label. */
  lemma SingleSpanReport(sp: Span, cal: Calendar)
    requires Duration(sp) != 0
    ensures var d := Duration(sp);
      Aggregate([sp], cal, true).out
      == [DayTotal(cal.day(sp.start), d), MonthTotal(cal.month(sp.start), d), YearTotal("", d)]
  {
    var d := Duration(sp);
    FeedOne(sp, cal, true);
    TotalOfOne(sp);
    var s1 := Accumulators("", "", cal.day(sp.start), [sp], 0, 0, 0, []);
    assert AddSpan(Initial, sp, cal, true) == s1;
    var s2 := Accumulators("", cal.month(sp.start), cal.day(sp.start), [], d, d, d,
                           [DayTotal(cal.day(sp.start), d)]);
    assert FlushDay(s1, cal, true) == s2;
    var s3 := s2.(out := s2.out + [MonthTotal(cal.month(sp.start), d)], monthTotalDuration := 0);
    assert FlushMonth(s2, cal) == s3;
  }

  /** DATE_FORMAT has no year: two spans whose starts share the day label (the
      same calendar date in different years, say) form one day group, reported
      under the first span's month. */
  lemma SameDayLabelOneGroup(s1: Span, s2: Span, cal: Calendar)
    requires cal.day(s1.start) == cal.day(s2.start)
    requires Duration(s1) + Duration(s2) != 0
    ensures var t := Duration(s1) + Duration(s2);
      Aggregate([s1, s2], cal, true).out
      == [DayTotal(cal.day(s1.start), t), MonthTotal(cal.month(s1.start), t), YearTotal("", t)]
  {
    var t := Duration(s1) + Duration(s2);
    var day := cal.day(s1.start);
    FeedOne(s1, cal, true);
    assert [s1, s2][..1] == [s1];
    TotalOfTwo(s1, s2);
    var a1 := Accumulators("", "", day, [s1], 0, 0, 0, []);
    assert AddSpan(Initial, s1, cal, true) == a1;
    var a2 := Accumulators("", "", day, [s1, s2], 0, 0, 0, []);
    assert AddSpan(a1, s2, cal, true) == a2;
    var a3 := Accumulators("", cal.month(s1.start), day, [], t, t, t, [DayTotal(day, t)]);
    assert FlushDay(a2, cal, true) == a3;
    assert FlushMonth(a3, cal) == a3.(out := a3.out + [MonthTotal(cal.month(s1.start), t)], monthTotalDuration := 0);
  }

  /** Two spans on different day labels: the second flushes the first day. The
      month is not flushed yet, as currMonth was still empty. */
  lemma TwoDaysFed(s1: Span, s2: Span, cal: Calendar)
    requires cal.day(s1.start) != "" && cal.day(s1.start) != cal.day(s2.start)
    ensures var d1 := Duration(s1);
      Feed(Initial, [s1, s2], cal, true)
      == Accumulators("", cal.month(s1.start), cal.day(s2.start), [s2], d1, d1, d1,
                      [DayTotal(cal.day(s1.start), d1)])
  {
    var d1 := Duration(s1);
    var day1 := cal.day(s1.start);
    FeedOne(s1, cal, true);
    assert [s1, s2][..1] == [s1];
    TotalOfOne(s1);
    var a1 := Accumulators("", "", day1, [s1], 0, 0, 0, []);
    assert AddSpan(Initial, s1, cal, true) == a1;
    assert FlushDay(a1, cal, true) == Accumulators("", cal.month(s1.start), day1, [], d1, d1, d1, [DayTotal(day1, d1)]);
  }

  /** No year flush at the first month boundary: currYear is still empty there,
      so two days in different months (and years) share one year line, labelled
      with the year of the later one. */
  lemma FirstMonthBoundaryKeepsYear(s1: Span, s2: Span, cal: Calendar)
    requires cal.day(s1.start) != "" && cal.day(s1.start) != cal.day(s2.start)
    requires cal.month(s1.start) != "" && cal.month(s1.start) != cal.month(s2.start)
    requires Duration(s1) > 0 && Duration(s2) > 0
    ensures var d1, d2 := Duration(s1), Duration(s2);
      Aggregate([s1, s2], cal, true).out
      == [DayTotal(cal.day(s1.start), d1), MonthTotal(cal.month(s1.start), d1),
          DayTotal(cal.day(s2.start), d2), MonthTotal(cal.month(s2.start), d2),
          YearTotal(cal.year(s2.start), d1 + d2)]
  {
    TwoDaysFed(s1, s2, cal);
    FinishSecondMonth(s1, s2, cal);
  }

  /** The day flush of the second day group, in a new month: the first month's
      line comes first and sets currYear from the second span. */
  lemma FlushSecondDay(s1: Span, s2: Span, cal: Calendar)
    requires cal.month(s1.start) != "" && cal.month(s1.start) != cal.month(s2.start)
    requires Duration(s1) > 0
    ensures var d1, d2 := Duration(s1), Duration(s2);
      var day1, day2 := cal.day(s1.start), cal.day(s2.start);
      var m1, m2 := cal.month(s1.start), cal.month(s2.start);
      FlushDay(Accumulators("", m1, day2, [s2], d1, d1, d1, [DayTotal(day1, d1)]), cal, true)
      == Accumulators(cal.year(s2.start), m2, day2, [], d2, d1 + d2, d1 + d2,
                      [DayTotal(day1, d1), MonthTotal(m1, d1), DayTotal(day2, d2)])
  {
    var d1, d2 := Duration(s1), Duration(s2);
    var day1, day2 := cal.day(s1.start), cal.day(s2.start);
    var m1, m2, y2 := cal.month(s1.start), cal.month(s2.start), cal.year(s2.start);
    TotalOfOne(s2);
    var a2 := Accumulators("", m1, day2, [s2], d1, d1, d1, [DayTotal(day1, d1)]);
    assert TakeYear(a2, cal) == a2.(currYear := y2);
    var e2 := Accumulators(y2, m1, day2, [s2], 0, d1, d1, [DayTotal(day1, d1), MonthTotal(m1, d1)]);
    assert FlushMonth(a2, cal) == e2;
    assert EnterMonth(a2, cal) == e2.(currMonth := m2);
  }

  lemma FinishSecondMonth(s1: Span, s2: Span, cal: Calendar)
    requires cal.month(s1.start) != "" && cal.month(s1.start) != cal.month(s2.start)
    requires Duration(s1) > 0 && Duration(s2) > 0
    ensures var d1, d2 := Duration(s1), Duration(s2);
      var day1, day2 := cal.day(s1.start), cal.day(s2.start);
      var m1, m2 := cal.month(s1.start), cal.month(s2.start);
      Finish(Accumulators("", m1, day2, [s2], d1, d1, d1, [DayTotal(day1, d1)]), cal, true).out
      == [DayTotal(day1, d1), MonthTotal(m1, d1), DayTotal(day2, d2), MonthTotal(m2, d2),
          YearTotal(cal.year(s2.start), d1 + d2)]
  {
    var d1, d2 := Duration(s1), Duration(s2);
    var day1, day2 := cal.day(s1.start), cal.day(s2.start);
    var m1, m2, y2 := cal.month(s1.start), cal.month(s2.start), cal.year(s2.start);
    FlushSecondDay(s1, s2, cal);
    var f2 := Accumulators(y2, m2, day2, [], d2, d1 + d2, d1 + d2,
                           [DayTotal(day1, d1), MonthTotal(m1, d1), DayTotal(day2, d2)]);
    var g2 := f2.(out := f2.out + [MonthTotal(m2, d2)], monthTotalDuration := 0);
    assert FlushMonth(f2, cal) == g2;
  }

  /** Three spans on three day labels in three months: the third flushes the
      second day, whose month flush sets currYear from the second day. */
  lemma ThreeDaysFed(s1: Span, s2: Span, s3: Span, cal: Calendar)
    requires cal.day(s1.start) != "" && cal.day(s1.start) != cal.day(s2.start)
    requires cal.day(s2.start) != "" && cal.day(s2.start) != cal.day(s3.start)
    requires cal.month(s1.start) != "" && cal.month(s1.start) != cal.month(s2.start)
    requires Duration(s1) > 0
    ensures var d1, d2 := Duration(s1), Duration(s2);
      Feed(Initial, [s1, s2, s3], cal, true)
      == Accumulators(cal.year(s2.start), cal.month(s2.start), cal.day(s3.start), [s3], d2, d1 + d2, d1 + d2,
                      [DayTotal(cal.day(s1.start), d1), MonthTotal(cal.month(s1.start), d1),
                       DayTotal(cal.day(s2.start), d2)])
  {
    assert [s1, s2, s3][..2] == [s1, s2];
    TwoDaysFed(s1, s2, cal);
    ThirdDayClosesSecond(s1, s2, s3, cal);
  }

  /** The third span, on a new day label, flushes the second day group. */
  lemma ThirdDayClosesSecond(s1: Span, s2: Span, s3: Span, cal: Calendar)
    requires cal.day(s2.start) != "" && cal.day(s2.start) != cal.day(s3.start)
    requires cal.month(s1.start) != "" && cal.month(s1.start) != cal.month(s2.start)
    requires Duration(s1) > 0
    ensures var d1, d2 := Duration(s1), Duration(s2);
      var day1, day2 := cal.day(s1.start), cal.day(s2.start);
      var m1 := cal.month(s1.start);
      AddSpan(Accumulators("", m1, day2, [s2], d1, d1, d1, [DayTotal(day1, d1)]), s3, cal, true)
      == Accumulators(cal.year(s2.start), cal.month(s2.start), cal.day(s3.start), [s3], d2, d1 + d2, d1 + d2,
                      [DayTotal(day1, d1), MonthTotal(m1, d1), DayTotal(day2, d2)])
  {
    FlushSecondDay(s1, s2, cal);
  }

  /** At a year change the old year's line comes before the old month's line:
      the month flush takes its year from the new day group and flushes the year
      first. Three days in three months, the last in a new year. */
  lemma YearLineBeforeMonthLine(s1: Span, s2: Span, s3: Span, cal: Calendar)
    requires cal.day(s1.start) != "" && cal.day(s1.start) != cal.day(s2.start)
    requires cal.day(s2.start) != "" && cal.day(s2.start) != cal.day(s3.start)
    requires cal.month(s1.start) != "" && cal.month(s1.start) != cal.month(s2.start)
    requires cal.month(s2.start) != "" && cal.month(s2.start) != cal.month(s3.start)
    requires cal.year(s2.start) != "" && cal.year(s2.start) != cal.year(s3.start)
    requires Duration(s1) > 0 && Duration(s2) > 0 && Duration(s3) > 0
    ensures var d1, d2, d3 := Duration(s1), Duration(s2), Duration(s3);
      Aggregate([s1, s2, s3], cal, true).out
      == [DayTotal(cal.day(s1.start), d1), MonthTotal(cal.month(s1.start), d1),
          DayTotal(cal.day(s2.start), d2), YearTotal(cal.year(s2.start), d1 + d2),
          MonthTotal(cal.month(s2.start), d2),
          DayTotal(cal.day(s3.start), d3), MonthTotal(cal.month(s3.start), d3),
          YearTotal(cal.year(s3.start), d3)]
  {
    var d1, d2, d3 := Duration(s1), Duration(s2), Duration(s3);
    var day1, day2, day3 := cal.day(s1.start), cal.day(s2.start), cal.day(s3.start);
    var m1, m2, m3 := cal.month(s1.start), cal.month(s2.start), cal.month(s3.start);
    var y2, y3 := cal.year(s2.start), cal.year(s3.start);
    ThreeDaysFed(s1, s2, s3, cal);
    YearChangeDayFlush(s1, s2, s3, cal);
    var o6 := [DayTotal(day1, d1), MonthTotal(m1, d1), DayTotal(day2, d2), YearTotal(y2, d1 + d2),
               MonthTotal(m2, d2), DayTotal(day3, d3)];
    var f3 := Accumulators(y3, m3, day3, [], d3, d3, d1 + d2 + d3, o6);
    var g3 := f3.(out := o6 + [MonthTotal(m3, d3)], monthTotalDuration := 0);
    assert FlushMonth(f3, cal) == g3;
    assert FlushYear(g3).out == o6 + [MonthTotal(m3, d3), YearTotal(y3, d3)];
  }

  /** The day flush of the third day group in YearLineBeforeMonthLine: the
      month flush settles the year from the new group first, so the year line
      precedes the month line. */
  lemma YearChangeDayFlush(s1: Span, s2: Span, s3: Span, cal: Calendar)
    requires cal.month(s2.start) != "" && cal.month(s2.start) != cal.month(s3.start)
    requires cal.year(s2.start) != "" && cal.year(s2.start) != cal.year(s3.start)
    requires Duration(s2) > 0 && Duration(s1) + Duration(s2) != 0
    ensures var d1, d2, d3 := Duration(s1), Duration(s2), Duration(s3);
      var day1, day2, day3 := cal.day(s1.start), cal.day(s2.start), cal.day(s3.start);
      var m1, m2, m3 := cal.month(s1.start), cal.month(s2.start), cal.month(s3.start);
      var y2, y3 := cal.year(s2.start), cal.year(s3.start);
      var o3 := [DayTotal(day1, d1), MonthTotal(m1, d1), DayTotal(day2, d2)];
      FlushDay(Accumulators(y2, m2, day3, [s3], d2, d1 + d2, d1 + d2, o3), cal, true)
      == Accumulators(y3, m3, day3, [], d3, d3, d1 + d2 + d3,
                      o3 + [YearTotal(y2, d1 + d2), MonthTotal(m2, d2), DayTotal(day3, d3)])
  {
    var d1, d2, d3 := Duration(s1), Duration(s2), Duration(s3);
    var day1, day2, day3 := cal.day(s1.start), cal.day(s2.start), cal.day(s3.start);
    var m1, m2, m3 := cal.month(s1.start), cal.month(s2.start), cal.month(s3.start);
    var y2, y3 := cal.year(s2.start), cal.year(s3.start);
    TotalOfOne(s3);
    var o3 := [DayTotal(day1, d1), MonthTotal(m1, d1), DayTotal(day2, d2)];
    var a3 := Accumulators(y2, m2, day3, [s3], d2, d1 + d2, d1 + d2, o3);
    var o4 := o3 + [YearTotal(y2, d1 + d2)];
    assert FlushYear(a3) == a3.(out := o4, yearTotalDuration := 0);
    assert TakeYear(a3, cal) == Accumulators(y3, m2, day3, [s3], d2, 0, d1 + d2, o4);
    var o5 := o4 + [MonthTotal(m2, d2)];
    assert FlushMonth(a3, cal) == Accumulators(y3, m2, day3, [s3], 0, 0, d1 + d2, o5);
  }
}
