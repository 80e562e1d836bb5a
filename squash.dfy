/** Squash: sorts the dates in place, builds spans in one pass and feeds each
    closed span to the aggregation cascade, then flushes every level and
    returns the overall total and the most recent date. */
module SquashDates {
  import opened GoTime
  import opened TimeSlice
  import opened SpanBuilder
  import opened Aggregation

  /** What Squash computes for dates that are already sorted: the cascade's
      final state over the spans the builder emits. */
  function Squashed(cfg: Config, cal: Calendar, quiet: bool, ds: seq<Time>): Accumulators {
    Aggregate(SpansOf(cfg, ds), cal, quiet)
  }

  /** The variables Squash's closures capture, with the closures as methods. */
  class Squasher {
    const cal: Calendar
    const quiet: bool
    var currYear: string
    var currMonth: string
    var overallDuration: int
    var yearTotalDuration: int
    var monthTotalDuration: int
    var currDay: string
    var currDaySpans: seq<Span>
    var spanStart: Time
    var spanEnd: Time
    /** The lines printed so far. */
    var out: seq<Event>

    function State(): Accumulators
      reads this
    {
      Accumulators(currYear, currMonth, currDay, currDaySpans,
                   monthTotalDuration, yearTotalDuration, overallDuration, out)
    }

    constructor (cal: Calendar, quiet: bool)
      ensures this.cal == cal && this.quiet == quiet
      ensures State() == Initial
      ensures spanStart == Zero && spanEnd == Zero
    {
      this.cal := cal;
      this.quiet := quiet;
      currYear, currMonth := "", "";
      overallDuration, yearTotalDuration, monthTotalDuration := 0, 0, 0;
      currDay := "";
      currDaySpans := [];
      spanStart, spanEnd := Zero, Zero;
      out := [];
    }

    method FlushCurrYear()
      modifies this
      ensures State() == FlushYear(old(State()))
      ensures spanStart == old(spanStart) && spanEnd == old(spanEnd)
    {
      if yearTotalDuration == 0 {
        return;
      }
      out := out + [YearTotal(currYear, yearTotalDuration)];
      yearTotalDuration := 0;
    }

    method FlushCurrMonth()
      modifies this
      ensures State() == FlushMonth(old(State()), cal)
      ensures spanStart == old(spanStart) && spanEnd == old(spanEnd)
    {
      if monthTotalDuration == 0 {
        return;
      }
      if |currDaySpans| > 0 {
        var year := cal.year(currDaySpans[0].start);
        if currYear != "" && year != currYear {
          FlushCurrYear();
        }
        currYear := year;
      }
      out := out + [MonthTotal(currMonth, monthTotalDuration)];
      monthTotalDuration := 0;
    }

    /** The month step at the head of flushCurrDay: a change of month label
        flushes the month first. */
    method EnterCurrMonth()
      requires |currDaySpans| > 0
      modifies this
      ensures State() == EnterMonth(old(State()), cal)
      ensures spanStart == old(spanStart) && spanEnd == old(spanEnd)
    {
      var month := cal.month(currDaySpans[0].start);
      if currMonth != "" && month != currMonth {
        FlushCurrMonth();
      }
      currMonth := month;
    }

    /** The body of flushCurrDay once the month is settled: prints the day
        header and one line per span (unless quiet), adds every duration to the
        month, year and overall totals, prints the day total and empties the
        group. */
    method PrintCurrDay()
      requires |currDaySpans| > 0
      modifies this
      ensures var day := cal.day(old(currDaySpans)[0].start);
        var total := TotalDuration(old(currDaySpans));
        && out == old(out) + DayDetail(day, old(currDaySpans), quiet) + [DayTotal(day, total)]
        && monthTotalDuration == old(monthTotalDuration) + total
        && yearTotalDuration == old(yearTotalDuration) + total
        && overallDuration == old(overallDuration) + total
      ensures currDaySpans == []
      ensures currYear == old(currYear) && currMonth == old(currMonth) && currDay == old(currDay)
      ensures spanStart == old(spanStart) && spanEnd == old(spanEnd)
    {
      var dateStr := cal.day(currDaySpans[0].start);
      if !quiet {
        out := out + [DayHeader(dateStr)];
      }
      var totalDuration := PrintSpans();
      out := out + [DayTotal(dateStr, totalDuration)];
      currDaySpans := [];
    }

    /** The loop of flushCurrDay over the group: adds each span's duration to
        the month, year and overall totals and, unless quiet, prints its line. */
    method PrintSpans() returns (totalDuration: int)
      modifies this
      ensures totalDuration == TotalDuration(currDaySpans)
      ensures out == old(out) + (if quiet then [] else SpanLines(currDaySpans))
      ensures monthTotalDuration == old(monthTotalDuration) + totalDuration
      ensures yearTotalDuration == old(yearTotalDuration) + totalDuration
      ensures overallDuration == old(overallDuration) + totalDuration
      ensures currDaySpans == old(currDaySpans)
      ensures currYear == old(currYear) && currMonth == old(currMonth) && currDay == old(currDay)
      ensures spanStart == old(spanStart) && spanEnd == old(spanEnd)
    {
      var spans := currDaySpans;
      totalDuration := 0;
      var i := 0;
      while i < |spans|
        invariant 0 <= i <= |spans|
        invariant currDaySpans == spans
        invariant currYear == old(currYear) && currMonth == old(currMonth) && currDay == old(currDay)
        invariant spanStart == old(spanStart) && spanEnd == old(spanEnd)
        invariant totalDuration == TotalDuration(spans[..i])
        invariant monthTotalDuration == old(monthTotalDuration) + totalDuration
        invariant yearTotalDuration == old(yearTotalDuration) + totalDuration
        invariant overallDuration == old(overallDuration) + totalDuration
        invariant quiet ==> out == old(out)
        invariant !quiet ==> out == old(out) + SpanLines(spans[..i])
      {
        var start := spans[i].start;
        var end := spans[i].end;
        var duration := Sub(end, start);
        totalDuration := totalDuration + duration;
        monthTotalDuration := monthTotalDuration + duration;
        yearTotalDuration := yearTotalDuration + duration;
        overallDuration := overallDuration + duration;
        if !quiet {
          out := out + [SpanLine(Span(start, end))];
        }
        assert spans[..i + 1][..i] == spans[..i];
        i := i + 1;
      }
      assert spans[..i] == spans;
    }

    method FlushCurrDay()
      modifies this
      ensures State() == FlushDay(old(State()), cal, quiet)
      ensures spanStart == old(spanStart) && spanEnd == old(spanEnd)
    {
      if |currDaySpans| == 0 {
        return;
      }
      ghost var a := State();
      EnterCurrMonth();
      ghost var b := State();
      PrintCurrDay();
      ghost var total := TotalDuration(a.currDaySpans);
      ghost var day := cal.day(a.currDaySpans[0].start);
      assert FlushDay(a, cal, quiet) ==
        b.(out := b.out + DayDetail(day, a.currDaySpans, quiet) + [DayTotal(day, total)],
           monthTotalDuration := b.monthTotalDuration + total,
           yearTotalDuration := b.yearTotalDuration + total,
           overallDuration := b.overallDuration + total,
           currDaySpans := []);
    }

    /** Hands the open span (spanStart, spanEnd) to the day grouping, unless
        spanStart is the zero instant. */
    method FlushCurrSpan()
      modifies this
      ensures IsZero(old(spanStart)) ==> State() == old(State())
      ensures !IsZero(old(spanStart)) ==>
        State() == AddSpan(old(State()), Span(old(spanStart), old(spanEnd)), cal, quiet)
      ensures spanStart == old(spanStart) && spanEnd == old(spanEnd)
    {
      if IsZero(spanStart) {
        return;
      }
      var day := cal.day(spanStart);
      if currDay == "" {
        currDay := day;
      }
      if currDay != day {
        FlushCurrDay();
        currDay := day;
      }
      currDaySpans := currDaySpans + [Span(spanStart, spanEnd)];
    }

    /** Squash's loop over the sorted dates and the flushCurrSpan after it:
        every span the builder emits reaches the cascade, in order. */
    method FeedDates(dates: array<Time>, cfg: Config)
      requires State() == Initial && spanStart == Zero && spanEnd == Zero
      modifies this
      ensures State() == Feed(Initial, SpansOf(cfg, dates[..]), cal, quiet)
      ensures spanStart == Build(cfg, dates[..]).start && spanEnd == Build(cfg, dates[..]).end
    {
      ghost var ds := dates[..];
      ghost var b := Fresh;
      var i := 0;
      while i < dates.Length
        invariant 0 <= i <= dates.Length
        invariant b == Build(cfg, ds[..i])
        invariant State() == Feed(Initial, b.closed, cal, quiet)
        invariant spanStart == b.start && spanEnd == b.end
      {
        var date := dates[i];
        var start := Add(date, cfg.padBefore);
        var end := Add(date, cfg.padAfter);
        if IsZero(spanStart) {
          spanStart := start;
          spanEnd := end;
        } else if After(start, Add(spanEnd, cfg.margin)) {
          FlushCurrSpan();
          FeedSnoc(Initial, b.closed, Span(b.start, b.end), cal, quiet);
          spanStart := start;
          spanEnd := end;
        } else {
          spanEnd := end;
        }
        BuildSnoc(cfg, ds, i);
        b := Step(cfg, b, date);
        i := i + 1;
      }
      assert ds[..i] == ds;
      FlushCurrSpan();
      FeedPending(b, cal, quiet);
    }

    /** The flushCurrDay, flushCurrMonth, flushCurrYear calls after the last span. */
    method Close()
      modifies this
      ensures State() == Finish(old(State()), cal, quiet)
      ensures spanStart == old(spanStart) && spanEnd == old(spanEnd)
    {
      FlushCurrDay();
      FlushCurrMonth();
      FlushCurrYear();
    }
  }

  /** t is one of ds and no date of ds is later. */
  ghost predicate LatestOf(t: Time, ds: seq<Time>) {
    t in ds && forall d :: d in ds ==> d.ns <= t.ns
  }

  /** The last element of a sorted permutation of ds is a latest date of ds. */
  lemma MostRecentIsLatest(sorted: seq<Time>, ds: seq<Time>)
    requires Sorted(sorted) && multiset(sorted) == multiset(ds)
    requires |ds| > 0
    ensures |sorted| == |ds|
    ensures LatestOf(sorted[|sorted| - 1], ds)
  {
    assert |sorted| == |multiset(sorted)| == |multiset(ds)| == |ds|;
    var last := sorted[|sorted| - 1];
    assert last in multiset(sorted);
    forall d | d in ds
      ensures d.ns <= last.ns
    {
      assert d in multiset(sorted);
      var j :| 0 <= j < |sorted| && sorted[j] == d;
    }
  }

  /** The builder's state after one more date is one Step further. */
  lemma BuildSnoc(cfg: Config, ds: seq<Time>, i: int)
    requires 0 <= i < |ds|
    ensures Build(cfg, ds[..i + 1]) == Step(cfg, Build(cfg, ds[..i]), ds[i])
  {
    assert ds[..i + 1][..i] == ds[..i];
  }

  /** Feeding the builder's closed spans and then its pending one is what the
      last flushCurrSpan leaves. */
  lemma FeedPending(b: Builder, cal: Calendar, quiet: bool)
    ensures IsZero(b.start) ==>
      Feed(Initial, b.closed + Pending(b), cal, quiet) == Feed(Initial, b.closed, cal, quiet)
    ensures !IsZero(b.start) ==>
      Feed(Initial, b.closed + Pending(b), cal, quiet)
      == AddSpan(Feed(Initial, b.closed, cal, quiet), Span(b.start, b.end), cal, quiet)
  {
    if IsZero(b.start) {
      assert b.closed + Pending(b) == b.closed;
    } else {
      FeedSnoc(Initial, b.closed, Span(b.start, b.end), cal, quiet);
    }
  }

  /** Squash(dates, quiet): returns the overall duration and the latest date (the
      zero time when there are none); the report lines are returned as well,
      and dates is left sorted. */
  method Squash(dates: array<Time>, quiet: bool, cal: Calendar, cfg: Config)
    returns (totalDuration: int, mostRecent: Time, report: seq<Event>)
    modifies dates
    ensures Sorted(dates[..]) && multiset(dates[..]) == multiset(old(dates[..]))
    ensures totalDuration == Squashed(cfg, cal, quiet, dates[..]).overallDuration
    ensures report == Squashed(cfg, cal, quiet, dates[..]).out
    ensures dates.Length == 0 ==> mostRecent == Zero
    ensures dates.Length > 0 ==> mostRecent == dates[dates.Length - 1] && LatestOf(mostRecent, old(dates[..]))
  {
    Sort(dates);
    if dates.Length > 0 {
      MostRecentIsLatest(dates[..], old(dates[..]));
    }
    var sq := new Squasher(cal, quiet);
    sq.FeedDates(dates, cfg);
    sq.Close();
    totalDuration := sq.overallDuration;
    report := sq.out;
    if dates.Length == 0 {
      mostRecent := Zero;
    } else {
      mostRecent := dates[dates.Length - 1];
    }
  }

  /** The stand-alone squashdates.go program: the same algorithm with the -6/+3
      minute padding; it keeps no overall total and only prints. */
  method StandaloneMain(dates: array<Time>, quiet: bool, cal: Calendar) returns (report: seq<Event>)
    modifies dates
    ensures Sorted(dates[..]) && multiset(dates[..]) == multiset(old(dates[..]))
    ensures report == Squashed(StandaloneConfig, cal, quiet, dates[..]).out
  {
    var _, _, lines := Squash(dates, quiet, cal, StandaloneConfig);
    report := lines;
  }

  // ----- What Squash promises, on the specification -----

  /** The returned total is the sum of the spans' durations, and the printed day,
      month and year totals each add up to it. */
  lemma SquashTotals(cfg: Config, cal: Calendar, quiet: bool, ds: seq<Time>)
    ensures var r := Squashed(cfg, cal, quiet, ds);
      && r.overallDuration == TotalDuration(SpansOf(cfg, ds))
      && SumAt(r.out, DayLevel) == r.overallDuration
      && SumAt(r.out, MonthLevel) == r.overallDuration
      && SumAt(r.out, YearLevel) == r.overallDuration
  {
    Rollup(SpansOf(cfg, ds), cal, quiet);
  }

  /** No dates: a zero total and no line printed. */
  lemma SquashNoDates(cfg: Config, cal: Calendar, quiet: bool)
    ensures Squashed(cfg, cal, quiet, []).overallDuration == 0
    ensures Squashed(cfg, cal, quiet, []).out == []
  {
    NoDatesNoSpans(cfg);
    NoSpansNoReport(cal, quiet);
  }

  /** A single date: the total is exactly PAD_AFTER - PAD_BEFORE (9 minutes with
      either set of constants), unless its padded start is the zero instant. */
  lemma SquashSingleDate(cfg: Config, cal: Calendar, quiet: bool, d: Time)
    requires d.ns + cfg.padBefore != 0
    ensures Squashed(cfg, cal, quiet, [d]).overallDuration == cfg.padAfter - cfg.padBefore
    ensures cfg == LibraryConfig || cfg == StandaloneConfig ==>
      Squashed(cfg, cal, quiet, [d]).overallDuration == 9 * Minute
  {
    SingleDate(cfg, d);
    Rollup(SpansOf(cfg, [d]), cal, quiet);
  }

  /** Quiet mode changes only which lines print: the total is the same and the
      quiet report is the verbose one without span headers and span lines. */
  lemma SquashQuietKeepsTotals(cfg: Config, cal: Calendar, ds: seq<Time>)
    ensures Squashed(cfg, cal, true, ds).overallDuration == Squashed(cfg, cal, false, ds).overallDuration
    ensures Squashed(cfg, cal, true, ds).out == Strip(Squashed(cfg, cal, false, ds).out)
  {
    QuietOnlyHidesDetail(SpansOf(cfg, ds), cal);
  }

  /** The total does not depend on the order the dates were given in: any two
      sorted arrangements of the same dates give the same total. */
  lemma SquashTotalIndependentOfOrder(cfg: Config, cal: Calendar, quiet: bool, s: seq<Time>, t: seq<Time>)
    requires Sorted(s) && Sorted(t) && multiset(s) == multiset(t)
    ensures Squashed(cfg, cal, quiet, s).overallDuration == Squashed(cfg, cal, quiet, t).overallDuration
  {
    TotalIndependentOfOrder(cfg, s, t);
    Rollup(SpansOf(cfg, s), cal, quiet);
    Rollup(SpansOf(cfg, t), cal, quiet);
  }

  /** Two dates at the same instant merge into one span, which takes its start
      from the date sorted first. In quiet mode the day and month lines are
      labelled from that start, and the year line has an empty label: with a
      single month, currYear is never set. */
  lemma TiedPairReport(cfg: Config, cal: Calendar, first: Time, second: Time)
    requires first.ns == second.ns && first.ns + cfg.padBefore != 0
    requires cfg.padBefore < cfg.padAfter && 0 <= cfg.margin
    ensures var start, w := Add(first, cfg.padBefore), cfg.padAfter - cfg.padBefore;
      Squashed(cfg, cal, true, [first, second]).out
      == [DayTotal(cal.day(start), w), MonthTotal(cal.month(start), w), YearTotal("", w)]
  {
    var sp := Span(Add(first, cfg.padBefore), Add(second, cfg.padAfter));
    TwoDates(cfg, first, second);
    assert SpansOf(cfg, [first, second]) == [sp];
    assert Duration(sp) == cfg.padAfter - cfg.padBefore;
    SingleSpanReport(sp, cal);
  }

  /** Sort is free to order equal instants either way, and when the tied dates
      carry different locations the report differs: here the day label reads
      the location, and the two sorted orders of the same two dates print
      different day lines. Only the totals are independent of the order. */
  lemma TieOrderChangesReport()
    ensures var d1, d2 := Time(100 * Minute, 0), Time(100 * Minute, 1);
      var cal := Calendar((t: Time) => if t.loc == 0 then "A" else "B", (t: Time) => "Jan", (t: Time) => "2024");
      && Sorted([d1, d2]) && Sorted([d2, d1])
      && Squashed(LibraryConfig, cal, true, [d1, d2]).out[0] == DayTotal("A", 9 * Minute)
      && Squashed(LibraryConfig, cal, true, [d2, d1]).out[0] == DayTotal("B", 9 * Minute)
  {
    var d1, d2 := Time(100 * Minute, 0), Time(100 * Minute, 1);
    var cal := Calendar((t: Time) => if t.loc == 0 then "A" else "B", (t: Time) => "Jan", (t: Time) => "2024");
    TiedPairReport(LibraryConfig, cal, d1, d2);
    TiedPairReport(LibraryConfig, cal, d2, d1);
    assert cal.day(Add(d1, LibraryConfig.padBefore)) == "A";
    assert cal.day(Add(d2, LibraryConfig.padBefore)) == "B";
  }

  /** Every span lasts at least 9 minutes under either set of constants. */
  lemma SpansLastNineMinutes(cfg: Config, ds: seq<Time>)
    requires Sorted(ds)
    requires cfg == LibraryConfig || cfg == StandaloneConfig
    ensures forall sp :: sp in SpansOf(cfg, ds) ==> Duration(sp) >= 9 * Minute
  {
    SpansShape(cfg, ds);
  }
}
