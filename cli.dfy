/** The squashdates command: reads dates, keeps those at or after --since,
    runs Squash with the library's constants and, with --mech, prints the
    total in whole seconds and the most recent date. */
module Cli {
  import opened GoTime
  import opened TimeSlice
  import opened SpanBuilder
  import opened Aggregation
  import opened SquashDates

  /** The --since option after ParseDate: absent (empty string), a parsed
      instant, or text ParseDate rejects (the program then bails out). */
  datatype SinceArg = NoSince | SinceAt(t: Time) | Unparsable

  /** A line the program writes to standard output in --mech mode. */
  datatype MechLine =
    | Seconds(n: int)   // totalDuration.Nanoseconds() / 1e9, printed with %d
    | LastSeen(t: Time) // mostRecent, printed in UTC as 2006-01-02T15:04:05Z

  /** What one run of the program produces. */
  datatype Outcome =
    | Bailed                                      // --since could not be parsed
    | Finished(report: seq<Event>, stdout: seq<MechLine>)

  /** The --since test for one date: strictly after since, or the very same
      time.Time value (instant and location). */
  predicate KeptSince(date: Time, since: Time) {
    After(date, since) || date == since
  }

  /** The dates the --since loop keeps, in their input order. */
  function SinceFilter(ds: seq<Time>, since: Time): seq<Time> {
    if ds == [] then []
    else SinceFilter(ds[..|ds| - 1], since) + (if KeptSince(ds[|ds| - 1], since) then [ds[|ds| - 1]] else [])
  }

  /** The loop that builds _dates by appending each kept date. */
  method FilterSince(dates: seq<Time>, since: Time) returns (kept: seq<Time>)
    ensures kept == SinceFilter(dates, since)
  {
    kept := [];
    var i := 0;
    while i < |dates|
      invariant 0 <= i <= |dates|
      invariant kept == SinceFilter(dates[..i], since)
    {
      var date := dates[i];
      if After(date, since) || date == since {
        kept := kept + [date];
      }
      assert dates[..i + 1][..i] == dates[..i];
      i := i + 1;
    }
    assert dates[..i] == dates;
  }

  /** A date survives the filter exactly when it was in the input and passes the test. */
  lemma {:induction false} SinceFilterMembers(ds: seq<Time>, since: Time, d: Time)
    ensures d in SinceFilter(ds, since) <==> d in ds && KeptSince(d, since)
  {
    if ds != [] {
      var init := ds[..|ds| - 1];
      SinceFilterMembers(init, since, d);
      assert ds == init + [ds[|ds| - 1]];
    }
  }

  /** The filter works date by date, so it keeps the input order: filtering a
      concatenation concatenates the filtered parts. */
  lemma {:induction false} SinceFilterConcat(xs: seq<Time>, ys: seq<Time>, since: Time)
    ensures SinceFilter(xs + ys, since) == SinceFilter(xs, since) + SinceFilter(ys, since)
  {
    if ys == [] {
      assert xs + ys == xs;
    } else {
      var init := ys[..|ys| - 1];
      SinceFilterConcat(xs, init, since);
      assert (xs + ys)[..|xs + ys| - 1] == xs + init;
    }
  }

  /** The kept dates are a sub-multiset of the input: nothing is duplicated. */
  lemma {:induction false} SinceFilterShrinks(ds: seq<Time>, since: Time)
    ensures multiset(SinceFilter(ds, since)) <= multiset(ds)
  {
    if ds != [] {
      var init, last := ds[..|ds| - 1], ds[|ds| - 1];
      SinceFilterShrinks(init, since);
      assert ds == init + [last];
      assert multiset(ds) == multiset(init) + multiset{last};
    }
  }

  /** A since that precedes every date keeps them all. */
  lemma {:induction false} SinceBeforeAllKeepsAll(ds: seq<Time>, since: Time)
    requires forall i :: 0 <= i < |ds| ==> ds[i].ns > since.ns
    ensures SinceFilter(ds, since) == ds
  {
    if ds != [] {
      SinceBeforeAllKeepsAll(ds[..|ds| - 1], since);
    }
  }

  /** The boundary: the since value itself is kept, an earlier instant is not,
      and the same instant read in another location is not either. */
  lemma SinceBoundary(since: Time, d: Time)
    ensures KeptSince(since, since)
    ensures d.ns < since.ns ==> !KeptSince(d, since)
    ensures d.ns == since.ns && d.loc != since.loc ==> !KeptSince(d, since)
  {
  }

  /** totalDuration.Nanoseconds() / 1e9: Go's integer division truncates toward zero. */
  function MechSeconds(total: int): (secs: int)
    ensures 0 <= total ==> 0 <= secs && secs * Second <= total < (secs + 1) * Second
    ensures total < 0 ==> secs <= 0 && (secs - 1) * Second < total <= secs * Second
  {
    if 0 <= total then total / Second else -((-total) / Second)
  }

  /** A fresh slice holding the given dates. */
  method NewSlice(ds: seq<Time>) returns (ts: array<Time>)
    ensures fresh(ts) && ts[..] == ds
  {
    ts := new Time[|ds|](i requires 0 <= i < |ds| => ds[i]);
  }

  /** The --mech lines: the total in whole seconds, then the most recent date
      when at least one date was squashed. */
  method MechOutput(totalDuration: int, mostRecent: Time, anyDates: bool) returns (stdout: seq<MechLine>)
    ensures |stdout| == (if anyDates then 2 else 1)
    ensures stdout[0] == Seconds(MechSeconds(totalDuration))
    ensures anyDates ==> stdout[1] == LastSeen(mostRecent)
  {
    stdout := [Seconds(MechSeconds(totalDuration))];
    if anyDates {
      stdout := stdout + [LastSeen(mostRecent)];
    }
  }

  /** The dates main hands to Squash: the --since survivors, or all of them. */
  function KeptDates(dates: seq<Time>, since: SinceArg): seq<Time> {
    if since.SinceAt? then SinceFilter(dates, since.t) else dates
  }

  /** The part of main after the --since loop: Squash the kept dates with the
      library's constants and, with --mech, print the two result lines. The
      ghost sorted is the order Squash sorted the kept dates into. */
  method SquashKept(kept: seq<Time>, quiet: bool, mech: bool, cal: Calendar)
    returns (report: seq<Event>, stdout: seq<MechLine>, ghost sorted: seq<Time>)
    ensures Sorted(sorted) && multiset(sorted) == multiset(kept)
    ensures report == Squashed(LibraryConfig, cal, quiet, sorted).out
    ensures !mech ==> stdout == []
    ensures mech ==>
      |stdout| == (if |sorted| == 0 then 1 else 2)
      && stdout[0] == Seconds(MechSeconds(Squashed(LibraryConfig, cal, quiet, sorted).overallDuration))
    ensures mech && |sorted| > 0 ==>
      stdout[1] == LastSeen(sorted[|sorted| - 1]) && LatestOf(sorted[|sorted| - 1], kept)
  {
    var slice := NewSlice(kept);
    var totalDuration, mostRecent, lines := Squash(slice, quiet, cal, LibraryConfig);
    report := lines;
    sorted := slice[..];
    stdout := [];
    if mech {
      stdout := MechOutput(totalDuration, mostRecent, |kept| > 0);
    }
  }

  /** main, after the command line has been read: dates are the parsed standard
      input. The ghost sorted is the order Squash sorted the kept dates into. */
  method Run(dates: seq<Time>, since: SinceArg, quiet: bool, mech: bool, cal: Calendar)
    returns (outcome: Outcome, ghost sorted: seq<Time>)
    ensures since.Unparsable? <==> outcome.Bailed?
    ensures outcome.Finished? ==>
      Sorted(sorted) && multiset(sorted) == multiset(KeptDates(dates, since))
    ensures outcome.Finished? ==> outcome.report == Squashed(LibraryConfig, cal, quiet, sorted).out
    ensures outcome.Finished? && !mech ==> outcome.stdout == []
    ensures outcome.Finished? && mech ==>
      |outcome.stdout| == (if |sorted| == 0 then 1 else 2)
      && outcome.stdout[0] == Seconds(MechSeconds(Squashed(LibraryConfig, cal, quiet, sorted).overallDuration))
    ensures outcome.Finished? && mech && |sorted| > 0 ==>
      outcome.stdout[1] == LastSeen(sorted[|sorted| - 1]) && LatestOf(sorted[|sorted| - 1], KeptDates(dates, since))
  {
    if since.Unparsable? {
      return Bailed, [];
    }
    var kept := dates;
    if since.SinceAt? {
      kept := FilterSince(dates, since.t);
    }
    var report, stdout;
    report, stdout, sorted := SquashKept(kept, quiet, mech, cal);
    outcome := Finished(report, stdout);
  }
}
