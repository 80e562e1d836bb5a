/** The span builder: pads each (sorted) date into a short interval of assumed
    work and merges intervals whose gap is at most the margin. */
module SpanBuilder {
  import opened GoTime
  import opened TimeSlice

  /** PAD_BEFORE, PAD_AFTER and MARGIN, in nanoseconds. */
  datatype Config = Config(padBefore: int, padAfter: int, margin: int)

  /** The constants of the squashdates package (and of the CLI that uses it). */
  const LibraryConfig: Config := Config(-5 * Minute, 4 * Minute, 15 * Minute)

  /** The constants of the stand-alone squashdates.go program. */
  const StandaloneConfig: Config := Config(-6 * Minute, 3 * Minute, 15 * Minute)

  /** One continuous period of inferred work. */
  datatype Span = Span(start: Time, end: Time)

  /** end.Sub(start) */
  function Duration(sp: Span): int {
    Sub(sp.end, sp.start)
  }

  /** The sum of the spans' durations. */
  function TotalDuration(sps: seq<Span>): int {
    if sps == [] then 0 else TotalDuration(sps[..|sps| - 1]) + Duration(sps[|sps| - 1])
  }

  lemma {:induction false} TotalDurationConcat(a: seq<Span>, b: seq<Span>)
    ensures TotalDuration(a + b) == TotalDuration(a) + TotalDuration(b)
    decreases |b|
  {
    if b == [] {
      assert a + b == a;
    } else {
      assert (a + b)[..|a + b| - 1] == a + b[..|b| - 1];
      TotalDurationConcat(a, b[..|b| - 1]);
    }
  }

  lemma TotalOfOne(sp: Span)
    ensures TotalDuration([sp]) == Duration(sp)
  {
    assert [sp][..0] == [];
  }

  lemma TotalOfTwo(s1: Span, s2: Span)
    ensures TotalDuration([s1, s2]) == Duration(s1) + Duration(s2)
  {
    assert [s1, s2][..1] == [s1];
    TotalOfOne(s1);
  }

  /** The builder's state after some dates: the spans it has already closed
      (each one handed on to the day grouping), and the current spanStart and
      spanEnd. A spanStart at the zero instant means "no span yet". */
  datatype Builder = Builder(closed: seq<Span>, start: Time, end: Time)

  const Fresh: Builder := Builder([], Zero, Zero)

  /** One iteration of the loop over the sorted dates. */
  function Step(cfg: Config, b: Builder, date: Time): Builder {
    var start := Add(date, cfg.padBefore);
    var end := Add(date, cfg.padAfter);
    if IsZero(b.start) then
      b.(start := start, end := end)
    else if After(start, Add(b.end, cfg.margin)) then
      Builder(b.closed + [Span(b.start, b.end)], start, end)
    else
      b.(end := end)
  }

  /** The builder's state after the loop has consumed all of ds. */
  function Build(cfg: Config, ds: seq<Time>): Builder {
    if ds == [] then Fresh else Step(cfg, Build(cfg, ds[..|ds| - 1]), ds[|ds| - 1])
  }

  /** The span still open in b: the final flushCurrSpan emits it unless spanStart is zero. */
  function Pending(b: Builder): seq<Span> {
    if IsZero(b.start) then [] else [Span(b.start, b.end)]
  }

  /** Every span the builder emits for ds, in order. */
  function SpansOf(cfg: Config, ds: seq<Time>): seq<Span> {
    Build(cfg, ds).closed + Pending(Build(cfg, ds))
  }

  /** The merge/split rule: once a span is open, a date opens a new one exactly
      when its padded start is strictly after spanEnd + MARGIN; otherwise only
      spanEnd moves, to the date's padded end, and spanStart stays. */
  lemma SplitRule(cfg: Config, b: Builder, date: Time)
    requires !IsZero(b.start)
    ensures var r := Step(cfg, b, date);
      (|r.closed| == |b.closed| + 1) <==> date.ns + cfg.padBefore > b.end.ns + cfg.margin
    ensures var r := Step(cfg, b, date);
      date.ns + cfg.padBefore > b.end.ns + cfg.margin ==>
        r.closed == b.closed + [Span(b.start, b.end)] && r.start == Add(date, cfg.padBefore)
    ensures var r := Step(cfg, b, date);
      date.ns + cfg.padBefore <= b.end.ns + cfg.margin ==>
        r.closed == b.closed && r.start == b.start && r.end == Add(date, cfg.padAfter)
  {
  }

  /** What the builder keeps true over sorted input: the open span ends at the
      last date's padded end and started no later than that date's padded start;
      every closed span lasts at least PAD_AFTER - PAD_BEFORE; each closed span,
      and the open one, starts more than MARGIN after the previous closed span ends. */
  ghost predicate Shaped(cfg: Config, b: Builder, ds: seq<Time>) {
    && (ds == [] ==> b == Fresh)
    && (ds != [] ==>
          b.end.ns == ds[|ds| - 1].ns + cfg.padAfter && b.start.ns <= ds[|ds| - 1].ns + cfg.padBefore)
    && (forall k :: 0 <= k < |b.closed| ==> Duration(b.closed[k]) >= cfg.padAfter - cfg.padBefore)
    && (forall k :: 0 < k < |b.closed| ==> b.closed[k].start.ns > b.closed[k - 1].end.ns + cfg.margin)
    && (b.closed != [] ==> b.start.ns > b.closed[|b.closed| - 1].end.ns + cfg.margin)
  }

  lemma {:induction false} BuildShaped(cfg: Config, ds: seq<Time>)
    requires Sorted(ds)
    ensures Shaped(cfg, Build(cfg, ds), ds)
  {
    if ds != [] {
      var init := ds[..|ds| - 1];
      assert Sorted(init);
      BuildShaped(cfg, init);
    }
  }

  /** The emitted spans, on sorted input: each lasts at least PAD_AFTER - PAD_BEFORE,
      and each next one starts strictly more than MARGIN after the previous one ends
      (so, with a non-negative margin and PAD_BEFORE <= PAD_AFTER, they ascend and
      are disjoint). */
  lemma SpansShape(cfg: Config, ds: seq<Time>)
    requires Sorted(ds)
    ensures var sps := SpansOf(cfg, ds);
      forall k :: 0 <= k < |sps| ==> Duration(sps[k]) >= cfg.padAfter - cfg.padBefore
    ensures var sps := SpansOf(cfg, ds);
      forall k :: 0 < k < |sps| ==> sps[k].start.ns > sps[k - 1].end.ns + cfg.margin
    ensures var sps := SpansOf(cfg, ds);
      0 <= cfg.margin && cfg.padBefore <= cfg.padAfter ==>
        forall k :: 0 < k < |sps| ==> sps[k].start.ns > sps[k - 1].start.ns
  {
    BuildShaped(cfg, ds);
    var b := Build(cfg, ds);
    if ds != [] && !IsZero(b.start) {
      assert b.end.ns - b.start.ns >= cfg.padAfter - cfg.padBefore;
    }
  }

  /** No dates, no spans. */
  lemma NoDatesNoSpans(cfg: Config)
    ensures SpansOf(cfg, []) == []
  {
  }

  /** A single date yields one span of exactly PAD_AFTER - PAD_BEFORE, unless its
      padded start is Go's zero instant (then the span is taken for "no span yet"). */
  lemma SingleDate(cfg: Config, d: Time)
    ensures d.ns + cfg.padBefore != 0 ==>
      SpansOf(cfg, [d]) == [Span(Add(d, cfg.padBefore), Add(d, cfg.padAfter))]
      && TotalDuration(SpansOf(cfg, [d])) == cfg.padAfter - cfg.padBefore
    ensures d.ns + cfg.padBefore == 0 ==> SpansOf(cfg, [d]) == []
  {
    assert [d][..0] == [];
    assert Build(cfg, [d]) == Step(cfg, Fresh, d);
    assert IsZero(Fresh.start);
    assert Step(cfg, Fresh, d) == Builder([], Add(d, cfg.padBefore), Add(d, cfg.padAfter));
    var sps := SpansOf(cfg, [d]);
    if d.ns + cfg.padBefore != 0 {
      assert sps == [Span(Add(d, cfg.padBefore), Add(d, cfg.padAfter))];
      assert sps[..0] == [];
    }
  }

  /** Two dates t1 <= t2: when t2's padded start is within MARGIN of t1's padded
      end they merge into one span from t1's padded start to t2's padded end;
      when the gap is strictly larger they give two spans of PAD_AFTER - PAD_BEFORE each. */
  lemma TwoDates(cfg: Config, t1: Time, t2: Time)
    requires t1.ns <= t2.ns
    requires t1.ns + cfg.padBefore != 0
    ensures t2.ns + cfg.padBefore <= t1.ns + cfg.padAfter + cfg.margin ==>
      SpansOf(cfg, [t1, t2]) == [Span(Add(t1, cfg.padBefore), Add(t2, cfg.padAfter))]
      && TotalDuration(SpansOf(cfg, [t1, t2])) == t2.ns - t1.ns + cfg.padAfter - cfg.padBefore
    ensures t2.ns + cfg.padBefore > t1.ns + cfg.padAfter + cfg.margin && t2.ns + cfg.padBefore != 0 ==>
      SpansOf(cfg, [t1, t2]) == [Span(Add(t1, cfg.padBefore), Add(t1, cfg.padAfter)),
                                 Span(Add(t2, cfg.padBefore), Add(t2, cfg.padAfter))]
      && TotalDuration(SpansOf(cfg, [t1, t2])) == 2 * (cfg.padAfter - cfg.padBefore)
  {
    var b1 := Builder([], Add(t1, cfg.padBefore), Add(t1, cfg.padAfter));
    FirstDateOpens(cfg, t1, t2);
    var s1 := Span(Add(t1, cfg.padBefore), Add(t1, cfg.padAfter));
    var s2 := Span(Add(t2, cfg.padBefore), Add(t2, cfg.padAfter));
    if t2.ns + cfg.padBefore <= t1.ns + cfg.padAfter + cfg.margin {
      var merged := Span(Add(t1, cfg.padBefore), Add(t2, cfg.padAfter));
      assert Step(cfg, b1, t2) == Builder([], merged.start, merged.end);
      TotalOfOne(merged);
    } else if t2.ns + cfg.padBefore != 0 {
      assert Step(cfg, b1, t2) == Builder([s1], s2.start, s2.end);
      assert [s1] + [s2] == [s1, s2];
      TotalOfTwo(s1, s2);
    }
  }

  /** The builder after a first date whose padded start is not the zero instant,
      and a second date. */
  lemma FirstDateOpens(cfg: Config, t1: Time, t2: Time)
    requires t1.ns + cfg.padBefore != 0
    ensures Build(cfg, [t1, t2])
      == Step(cfg, Builder([], Add(t1, cfg.padBefore), Add(t1, cfg.padAfter)), t2)
  {
    assert [t1, t2][..1] == [t1];
    assert [t1][..0] == [];
    assert Build(cfg, [t1]) == Step(cfg, Fresh, t1);
  }

  /** The zero-instant sentinel as written: a first date whose padded start is
      Go's zero instant opens no span; the next date replaces it however far
      apart they are, so the first date's work is lost. */
  lemma ZeroSentinelDropsFirstDate(cfg: Config, t1: Time, t2: Time)
    requires t1.ns + cfg.padBefore == 0
    requires t2.ns + cfg.padBefore != 0
    ensures SpansOf(cfg, [t1, t2]) == [Span(Add(t2, cfg.padBefore), Add(t2, cfg.padAfter))]
  {
    assert [t1, t2][..1] == [t1];
    assert [t1][..0] == [];
    assert Build(cfg, [t1]) == Step(cfg, Fresh, t1);
    assert IsZero(Fresh.start);
    var b1 := Builder([], Add(t1, cfg.padBefore), Add(t1, cfg.padAfter));
    assert Step(cfg, Fresh, t1) == b1;
    assert Build(cfg, [t1, t2]) == Step(cfg, b1, t2)
      == Builder([], Add(t2, cfg.padBefore), Add(t2, cfg.padAfter));
  }

  // ----- The total does not depend on the order the dates arrived in -----

  /** The instants of a sequence of dates. */
  function Instants(ds: seq<Time>): (r: seq<int>)
    ensures |r| == |ds| && forall i :: 0 <= i < |ds| ==> r[i] == ds[i].ns
  {
    if ds == [] then [] else [ds[0].ns] + Instants(ds[1..])
  }

  /** A sequence's multiset is its first element plus the rest. */
  lemma MultisetHead<T>(u: seq<T>)
    requires |u| > 0
    ensures multiset(u) == multiset{u[0]} + multiset(u[1..])
  {
    assert u == [u[0]] + u[1..];
  }

  /** Taking the element at k out of a sequence takes it out of its multiset. */
  lemma MultisetWithout<T>(t: seq<T>, k: int)
    requires 0 <= k < |t|
    ensures multiset(t) == multiset{t[k]} + multiset(t[..k] + t[k + 1..])
  {
    assert t == t[..k] + [t[k]] + t[k + 1..];
  }

  /** The instants of t without its k-th date are t's instants without the k-th one. */
  lemma InstantsWithout(t: seq<Time>, k: int)
    requires 0 <= k < |t|
    ensures Instants(t[..k] + t[k + 1..]) == Instants(t)[..k] + Instants(t)[k + 1..]
  {
    var r, it := t[..k] + t[k + 1..], Instants(t);
    var lhs, rhs := Instants(r), it[..k] + it[k + 1..];
    assert |lhs| == |rhs|;
    forall i | 0 <= i < |lhs|
      ensures lhs[i] == rhs[i]
    {
      if i < k {
        assert r[i] == t[i] && rhs[i] == it[i];
      } else {
        assert r[i] == t[i + 1] && rhs[i] == it[i + 1];
      }
    }
  }

  /** Dates that are permutations of each other have permuted instants. */
  lemma {:induction false} PermutedInstants(s: seq<Time>, t: seq<Time>)
    requires multiset(s) == multiset(t)
    ensures multiset(Instants(s)) == multiset(Instants(t))
    decreases |s|
  {
    if s == [] {
      assert |t| == |multiset(t)| == 0;
    } else {
      assert s[0] in multiset(t);
      var k :| 0 <= k < |t| && t[k] == s[0];
      var rest := t[..k] + t[k + 1..];
      RemoveMatched(s, t, k);
      InstantsSplit(t, k);
      PermutedInstants(s[1..], rest);
      MultisetHead(Instants(s));
    }
  }

  /** Matching the first date of s with the date at k of t, a permutation of
      s, leaves permutations of each other. */
  lemma RemoveMatched(s: seq<Time>, t: seq<Time>, k: int)
    requires multiset(s) == multiset(t)
    requires |s| > 0 && 0 <= k < |t| && t[k] == s[0]
    ensures multiset(s[1..]) == multiset(t[..k] + t[k + 1..])
  {
    MultisetHead(s);
    MultisetWithout(t, k);
    assert multiset(s[1..]) == multiset(s) - multiset{s[0]};
    assert multiset(t[..k] + t[k + 1..]) == multiset(t) - multiset{t[k]};
  }

  /** t's instants are the instant at k plus the instants of the rest. */
  lemma InstantsSplit(t: seq<Time>, k: int)
    requires 0 <= k < |t|
    ensures multiset(Instants(t)) == multiset{t[k].ns} + multiset(Instants(t[..k] + t[k + 1..]))
  {
    InstantsWithout(t, k);
    MultisetWithout(Instants(t), k);
  }

  /** Ascending integers (ties allowed). */
  ghost predicate Ascending(u: seq<int>) {
    forall i, j :: 0 <= i < j < |u| ==> u[i] <= u[j]
  }

  /** The first element of an ascending sequence is at most any of its elements. */
  lemma AscendingHeadIsLeast(u: seq<int>, x: int)
    requires Ascending(u)
    requires x in multiset(u)
    ensures |u| > 0 && u[0] <= x
  {
    var j :| 0 <= j < |u| && u[j] == x;
    assert j == 0 || u[0] <= u[j];
  }

  lemma AscendingTail(u: seq<int>)
    requires Ascending(u) && |u| > 0
    ensures Ascending(u[1..])
  {
    forall i, j | 0 <= i < j < |u| - 1
      ensures u[1..][i] <= u[1..][j]
    {
      assert u[1..][i] == u[i + 1] && u[1..][j] == u[j + 1];
    }
  }

  /** Sorted dates have ascending instants. */
  lemma SortedInstants(s: seq<Time>)
    requires Sorted(s)
    ensures Ascending(Instants(s))
  {
  }

  /** Two ascending sequences with the same multiset start with the same
      element, and their tails are again ascending with equal multisets. */
  lemma AscendingHeads(u: seq<int>, w: seq<int>)
    requires Ascending(u) && Ascending(w)
    requires multiset(u) == multiset(w) && |u| > 0
    ensures |w| > 0 && u[0] == w[0]
    ensures Ascending(u[1..]) && Ascending(w[1..])
    ensures multiset(u[1..]) == multiset(w[1..])
  {
    AscendingHeadIsLeast(w, u[0]);
    AscendingHeadIsLeast(u, w[0]);
    MultisetHead(u);
    MultisetHead(w);
    assert multiset(u[1..]) == multiset(u) - multiset{u[0]};
    assert multiset(w[1..]) == multiset(w) - multiset{w[0]};
    AscendingTail(u);
    AscendingTail(w);
  }

  /** Two ascending sequences of integers with the same multiset are equal. */
  lemma {:induction false} SortedPermutationUnique(u: seq<int>, w: seq<int>)
    requires Ascending(u) && Ascending(w)
    requires multiset(u) == multiset(w)
    ensures u == w
    decreases |u|
  {
    if u == [] {
      assert |w| == |multiset(w)| == 0;
    } else {
      AscendingHeads(u, w);
      SortedPermutationUnique(u[1..], w[1..]);
      assert u == [u[0]] + u[1..] && w == [w[0]] + w[1..];
    }
  }

  /** Spans that agree on their instants (their locations may differ). */
  ghost predicate SameInstants(a: seq<Span>, b: seq<Span>) {
    |a| == |b| && forall k :: 0 <= k < |a| ==>
      a[k].start.ns == b[k].start.ns && a[k].end.ns == b[k].end.ns
  }

  /** The instants of a prefix are the prefix of the instants. */
  lemma InstantsPrefix(s: seq<Time>, n: int)
    requires 0 <= n <= |s|
    ensures Instants(s[..n]) == Instants(s)[..n]
  {
    assert forall i :: 0 <= i < n ==> Instants(s[..n])[i] == Instants(s)[i];
  }

  lemma {:induction false} BuildDependsOnInstants(cfg: Config, s: seq<Time>, t: seq<Time>)
    requires Instants(s) == Instants(t)
    ensures SameInstants(Build(cfg, s).closed, Build(cfg, t).closed)
    ensures Build(cfg, s).start.ns == Build(cfg, t).start.ns
    ensures Build(cfg, s).end.ns == Build(cfg, t).end.ns
  {
    if s != [] {
      var n := |s| - 1;
      InstantsPrefix(s, n);
      InstantsPrefix(t, n);
      BuildDependsOnInstants(cfg, s[..n], t[..n]);
      assert s[n].ns == Instants(s)[n] == Instants(t)[n] == t[n].ns;
    }
  }

  lemma {:induction false} SameInstantsSameTotal(a: seq<Span>, b: seq<Span>)
    requires SameInstants(a, b)
    ensures TotalDuration(a) == TotalDuration(b)
    decreases |a|
  {
    if a != [] {
      SameInstantsSameTotal(a[..|a| - 1], b[..|b| - 1]);
    }
  }

  /** Sorting is what makes the estimate well defined: any two sorted orders of the
      same dates (ties may fall differently) give spans at the same instants, hence
      the same total. */
  lemma TotalIndependentOfOrder(cfg: Config, s: seq<Time>, t: seq<Time>)
    requires Sorted(s) && Sorted(t)
    requires multiset(s) == multiset(t)
    ensures SameInstants(SpansOf(cfg, s), SpansOf(cfg, t))
    ensures TotalDuration(SpansOf(cfg, s)) == TotalDuration(SpansOf(cfg, t))
  {
    PermutedInstants(s, t);
    SortedInstants(s);
    SortedInstants(t);
    SortedPermutationUnique(Instants(s), Instants(t));
    BuildDependsOnInstants(cfg, s, t);
    var bs, bt := Build(cfg, s), Build(cfg, t);
    assert SameInstants(Pending(bs), Pending(bt));
    var ss, st := SpansOf(cfg, s), SpansOf(cfg, t);
    assert SameInstants(ss, st) by {
      assert |ss| == |st|;
      forall k | 0 <= k < |ss|
        ensures ss[k].start.ns == st[k].start.ns && ss[k].end.ns == st[k].end.ns
      {
        if k < |bs.closed| {
          assert ss[k] == bs.closed[k] && st[k] == bt.closed[k];
        } else {
          assert ss[k] == Pending(bs)[k - |bs.closed|] && st[k] == Pending(bt)[k - |bt.closed|];
        }
      }
    }
    SameInstantsSameTotal(ss, st);
  }

  /** With PAD_BEFORE <= PAD_AFTER no span has negative length, so the total is non-negative. */
  lemma TotalNonNegative(cfg: Config, ds: seq<Time>)
    requires Sorted(ds)
    requires cfg.padBefore <= cfg.padAfter
    ensures TotalDuration(SpansOf(cfg, ds)) >= 0
  {
    SpansShape(cfg, ds);
    NonNegativeSum(SpansOf(cfg, ds));
  }

  lemma {:induction false} NonNegativeSum(sps: seq<Span>)
    requires forall k :: 0 <= k < |sps| ==> Duration(sps[k]) >= 0
    ensures TotalDuration(sps) >= 0
  {
    if sps != [] {
      NonNegativeSum(sps[..|sps| - 1]);
    }
  }
}
