/** History in pages, and the holes in what is stored (apps/api/quanta/exchanges/bitunix.py and
    services/market_store.py). A bar is its open time.
  */
module Paging {
  import opened Collections

  const MAX_KLINE_LIMIT := 200

  /** One call for bars from a start to an end, in order of open time. */
  type Fetch = (int, int) -> seq<int>

  /** The longest stretch asked for at once: one bar less than the limit. */
  function Span(interval: nat): nat {
    interval * (MAX_KLINE_LIMIT - 1)
  }

  /** 199 intervals, so that a window with both ends has 200 bars. */
  lemma SpanMeans(interval: nat)
    ensures Span(interval) == 199 * interval
  {
  }

  function Smaller(a: int, b: int): int { if a < b then a else b }

  function Larger(a: int, b: int): int { if a < b then b else a }

  // --- the walk ------------------------------------------------------------------------

  function Next(cursor: int, end: int, interval: nat, page: seq<int>): int {
    if |page| == 0 then Smaller(cursor + Span(interval), end)
    else Larger(page[|page| - 1] + interval, cursor + interval)
  }

  lemma NextAdvances(cursor: int, end: int, interval: nat, page: seq<int>)
    requires cursor < end && interval > 0
    ensures Next(cursor, end, interval, page) > cursor
  {
  }

  /** The pages from a cursor on. */
  function PagesFrom(fetch: Fetch, cursor: int, end: int, interval: nat): seq<seq<int>>
    requires interval > 0
    decreases end - cursor
  {
    if cursor >= end then []
    else
      var page := fetch(cursor, Smaller(cursor + Span(interval), end));
      NextAdvances(cursor, end, interval, page);
      (if |page| == 0 then [] else [page]) + PagesFrom(fetch, Next(cursor, end, interval, page), end, interval)
  }

  /** The loop ends whatever the venue answers, and yields its answers that are not empty. */
  method IterKlines(fetch: Fetch, start: int, end: int, interval: nat) returns (pages: seq<seq<int>>)
    requires interval > 0
    ensures pages == PagesFrom(fetch, start, end, interval)
  {
    hide Span, PagesFrom;
    var cursor := start;
    var step := Span(interval);
    pages := [];
    while cursor < end
      invariant PagesFrom(fetch, start, end, interval) == pages + PagesFrom(fetch, cursor, end, interval)
      decreases end - cursor
    {
      var windowEnd := Smaller(cursor + step, end);
      var page := fetch(cursor, windowEnd);
      NextAdvances(cursor, end, interval, page);
      PagesUnfold(fetch, cursor, end, interval);
      if |page| == 0 {
        cursor := windowEnd;
        continue;
      }
      pages := pages + [page];
      cursor := Larger(page[|page| - 1] + interval, cursor + interval);
    }
    PagesUnfold(fetch, cursor, end, interval);
  }

  lemma PagesUnfold(fetch: Fetch, cursor: int, end: int, interval: nat)
    requires interval > 0
    ensures cursor >= end ==> PagesFrom(fetch, cursor, end, interval) == []
    ensures cursor < end ==>
      var page := fetch(cursor, Smaller(cursor + Span(interval), end));
      var rest := PagesFrom(fetch, Next(cursor, end, interval, page), end, interval);
      PagesFrom(fetch, cursor, end, interval) == if |page| == 0 then rest else [page] + rest
  {
    hide Span, Next, Smaller;
  }

  // --- an honest venue -------------------------------------------------------------------

  /** Bars at least one interval apart. */
  predicate Spaced(all: seq<int>, interval: nat) {
    forall i, j :: 0 <= i < j < |all| ==> all[j] - all[i] >= (j - i) * interval
  }

  /** The bars with lo <= time < hi. */
  function Range(all: seq<int>, lo: int, hi: int): seq<int> {
    if |all| == 0 then []
    else if lo <= all[0] < hi then [all[0]] + Range(all[1..], lo, hi)
    else Range(all[1..], lo, hi)
  }

  function Newest(bars: seq<int>, limit: nat): seq<int> {
    if |bars| <= limit then bars else bars[|bars| - limit..]
  }

  /** It answers with the bars of the window, the newest when they are too many; the end may or may not count. */
  ghost predicate Honest(fetch: Fetch, all: seq<int>, inclusive: bool) {
    forall start, end :: start < end ==>
      fetch(start, end) == Newest(Range(all, start, if inclusive then end + 1 else end), MAX_KLINE_LIMIT)
  }

  lemma TailSpaced(all: seq<int>, interval: nat)
    requires Spaced(all, interval) && |all| > 0
    ensures Spaced(all[1..], interval)
  {
    forall i, j | 0 <= i < j < |all[1..]| ensures all[1..][j] - all[1..][i] >= (j - i) * interval {
      assert all[j + 1] - all[i + 1] >= ((j + 1) - (i + 1)) * interval;
    }
  }

  lemma {:induction false} RangeSpaced(all: seq<int>, interval: nat, lo: int, hi: int)
    requires Spaced(all, interval)
    ensures Spaced(Range(all, lo, hi), interval)
    ensures forall t :: t in Range(all, lo, hi) <==> t in all && lo <= t < hi
  {
    if |all| > 0 {
      TailSpaced(all, interval);
      RangeSpaced(all[1..], interval, lo, hi);
      assert all == [all[0]] + all[1..];
      if lo <= all[0] < hi { ConsSpaced(all, interval, lo, hi); }
    }
  }

  lemma {:induction false} RangeLater(all: seq<int>, interval: nat, lo: int, hi: int, k: nat)
    requires Spaced(all, interval) && k < |Range(all, lo, hi)|
    ensures |all| > k && Range(all, lo, hi)[k] >= all[0] + k * interval
  {
    if lo <= all[0] < hi {
      if k > 0 {
        TailSpaced(all, interval);
        RangeLater(all[1..], interval, lo, hi, k - 1);
        assert all[1] - all[0] >= (1 - 0) * interval;
        OneMore(k, interval);
      }
    } else {
      TailSpaced(all, interval);
      RangeLater(all[1..], interval, lo, hi, k);
      assert all[1] - all[0] >= (1 - 0) * interval;
    }
  }

  lemma OneMore(k: nat, interval: nat)
    requires k > 0
    ensures k * interval == (k - 1) * interval + interval
  {
  }

  lemma ConsSpaced(all: seq<int>, interval: nat, lo: int, hi: int)
    requires Spaced(all, interval) && |all| > 0 && lo <= all[0] < hi && Spaced(Range(all[1..], lo, hi), interval)
    ensures Spaced(Range(all, lo, hi), interval)
  {
    var r, rest := Range(all, lo, hi), Range(all[1..], lo, hi);
    forall i, j | 0 <= i < j < |r| ensures r[j] - r[i] >= (j - i) * interval {
      if i == 0 {
        RangeLater(all, interval, lo, hi, j);
      } else {
        assert rest[j - 1] - rest[i - 1] >= ((j - 1) - (i - 1)) * interval;
      }
    }
  }

  /** A window of the span asked for never holds more bars than the limit, its end included or not. */
  lemma WindowFits(all: seq<int>, interval: nat, lo: int, hi: int)
    requires Spaced(all, interval) && interval > 0 && hi - lo <= Span(interval) + 1
    ensures |Range(all, lo, hi)| <= MAX_KLINE_LIMIT
  {
    var r := Range(all, lo, hi);
    RangeSpaced(all, interval, lo, hi);
    var m := |r| - 1;
    if m > 0 {
      assert r[m] - r[0] >= (m - 0) * interval;
      assert r[0] in r && r[m] in r;
      Fewer(m, MAX_KLINE_LIMIT - 1, interval);
    }
  }

  lemma Fewer(m: nat, n: nat, interval: nat)
    requires interval > 0 && m * interval <= n * interval
    ensures m <= n
  {
    if m > n { More(m, n, interval); }
  }

  lemma {:induction false} More(m: nat, n: nat, interval: nat)
    requires m > n
    ensures m * interval >= n * interval + interval
  {
    if m > n + 1 {
      More(m - 1, n, interval);
      assert m * interval == (m - 1) * interval + interval;
    }
  }

  /** A later bar is at least an interval later. */
  lemma Later(all: seq<int>, interval: nat, i: nat, k: nat)
    requires Spaced(all, interval) && i < k < |all|
    ensures all[k] >= all[i] + interval
  {
    AtLeastOnce(k - i, interval);
    assert all[k] - all[i] >= (k - i) * interval;
  }

  lemma AtLeastOnce(k: int, interval: nat)
    requires k >= 1
    ensures k * interval >= interval
  {
    More(k, 0, interval);
  }

  lemma {:induction false} RangeSplits(all: seq<int>, interval: nat, lo: int, mid: int, hi: int)
    requires Spaced(all, interval) && interval > 0 && lo <= mid <= hi
    ensures Range(all, lo, hi) == Range(all, lo, mid) + Range(all, mid, hi)
  {
    if |all| > 0 {
      TailSpaced(all, interval);
      RangeSplits(all[1..], interval, lo, mid, hi);
      if mid <= all[0] < hi { NothingBefore(all[1..], all[0], interval, lo, mid, all); }
    }
  }

  lemma NoMembers(r: seq<int>)
    requires forall t :: t !in r
    ensures r == []
  {
    if |r| > 0 { var t := Member(r); }
  }

  lemma Member(r: seq<int>) returns (t: int)
    requires |r| > 0
    ensures t in r
  {
    t := r[0];
  }

  /** Bars after one at or past `mid` are past it too. */
  lemma NothingBefore(rest: seq<int>, first: int, interval: nat, lo: int, mid: int, all: seq<int>)
    requires all == [first] + rest && Spaced(all, interval) && mid <= first
    ensures Range(rest, lo, mid) == []
  {
    TailSpaced(all, interval);
    assert all[1..] == rest;
    RangeSpaced(rest, interval, lo, mid);
    forall k: nat | k < |rest| ensures rest[k] >= first { Later(all, interval, 0, k + 1); }
    NoMembers(Range(rest, lo, mid));
  }

  /** No other bar opens within an interval of a bar. */
  lemma Alone(all: seq<int>, interval: nat, bar: int, hi: int)
    requires Spaced(all, interval) && bar in all && hi <= bar + interval
    ensures Range(all, bar + 1, hi) == []
  {
    hide Range, Spaced;
    var i :| 0 <= i < |all| && all[i] == bar;
    forall k: nat | k < |all| ensures !(bar < all[k] < bar + interval) {
      if i < k { Later(all, interval, i, k); } else if k < i { Later(all, interval, k, i); }
    }
    RangeSpaced(all, interval, bar + 1, hi);
    NoMembers(Range(all, bar + 1, hi));
  }

  /** A range ends with its last bar. */
  lemma EndsAtLast(all: seq<int>, interval: nat, lo: int, hi: int)
    requires Spaced(all, interval) && interval > 0 && |Range(all, lo, hi)| > 0
    ensures var last := Range(all, lo, hi)[|Range(all, lo, hi)| - 1];
      last in all && lo <= last < hi && Range(all, lo, last + 1) == Range(all, lo, hi)
  {
    hide Range, Spaced;
    var r := Range(all, lo, hi);
    var last := r[|r| - 1];
    RangeSpaced(all, interval, lo, hi);
    assert last in r;
    RangeSplits(all, interval, lo, last + 1, hi);
    RangeSpaced(all, interval, last + 1, hi);
    forall k: nat | k < |r| ensures r[k] <= last { if k < |r| - 1 { Later(r, interval, k, |r| - 1); } }
    NoMembers(Range(all, last + 1, hi));
  }

  /** What one request covers, on top of what the rest of the walk will. */
  lemma PageCovers(all: seq<int>, inclusive: bool, cursor: int, windowEnd: int, end: int, interval: nat)
    requires Spaced(all, interval) && interval > 0 && cursor < windowEnd <= end
    ensures var page := Range(all, cursor, if inclusive then windowEnd + 1 else windowEnd);
      var next := if |page| == 0 then windowEnd else page[|page| - 1] + interval;
      && (next <= end ==> Range(all, cursor, end) == page + Range(all, next, end))
      && (next <= end ==> Range(all, cursor, end + 1) == page + Range(all, next, end + 1))
      && (next > end ==> page == Range(all, cursor, end) || (inclusive && page == Range(all, cursor, end + 1)))
  {
    hide Range, Spaced;
    var last := if inclusive then windowEnd + 1 else windowEnd;
    var page := Range(all, cursor, last);
    if |page| == 0 {
      RangeSplits(all, interval, cursor, windowEnd, last);
      RangeSplits(all, interval, cursor, windowEnd, end);
      RangeSplits(all, interval, cursor, windowEnd, end + 1);
    } else {
      EndsAtLast(all, interval, cursor, last);
      var bar := page[|page| - 1];
      if bar + interval <= end {
        Alone(all, interval, bar, bar + interval);
        RangeSplits(all, interval, cursor, bar + 1, bar + interval);
        RangeSplits(all, interval, cursor, bar + interval, end);
        RangeSplits(all, interval, cursor, bar + interval, end + 1);
      } else if bar < end {
        Alone(all, interval, bar, end);
        RangeSplits(all, interval, cursor, bar + 1, end);
      }
    }
  }

  lemma WholePage(fetch: Fetch, all: seq<int>, inclusive: bool, cursor: int, windowEnd: int, interval: nat)
    requires Honest(fetch, all, inclusive) && Spaced(all, interval) && interval > 0
    requires cursor < windowEnd <= cursor + Span(interval)
    ensures fetch(cursor, windowEnd) == Range(all, cursor, if inclusive then windowEnd + 1 else windowEnd)
    ensures |fetch(cursor, windowEnd)| <= MAX_KLINE_LIMIT
    ensures |fetch(cursor, windowEnd)| > 0 ==> fetch(cursor, windowEnd)[|fetch(cursor, windowEnd)| - 1] >= cursor
  {
    WindowFits(all, interval, cursor, if inclusive then windowEnd + 1 else windowEnd);
    if |fetch(cursor, windowEnd)| > 0 { EndsAtLast(all, interval, cursor, if inclusive then windowEnd + 1 else windowEnd); }
  }

  /** Paging an honest venue is complete: the pages hold exactly the bars of the range, in order and each once,
      and no page is cut short by the limit. Where the venue counts the end in, a bar opening exactly at the
      end may follow.
    */
  lemma {:induction false} PagesAreComplete(fetch: Fetch, all: seq<int>, inclusive: bool, cursor: int, end: int, interval: nat)
    requires Honest(fetch, all, inclusive) && Spaced(all, interval) && interval > 0 && cursor <= end
    ensures Concat(PagesFrom(fetch, cursor, end, interval)) == Range(all, cursor, end) ||
      (inclusive && Concat(PagesFrom(fetch, cursor, end, interval)) == Range(all, cursor, end + 1))
    ensures forall page :: page in PagesFrom(fetch, cursor, end, interval) ==> 0 < |page| <= MAX_KLINE_LIMIT
    decreases end - cursor
  {
    hide Range, Honest, Spaced, PagesFrom, Concat;
    if cursor < end {
      var windowEnd := Smaller(cursor + Span(interval), end);
      WholePage(fetch, all, inclusive, cursor, windowEnd, interval);
      PageCovers(all, inclusive, cursor, windowEnd, end, interval);
      var page := fetch(cursor, windowEnd);
      var next := Next(cursor, end, interval, page);
      NextAdvances(cursor, end, interval, page);
      FirstPage(fetch, cursor, end, interval);
      if next <= end { PagesAreComplete(fetch, all, inclusive, next, end, interval); } else { NoPages(fetch, next, end, interval); }
    } else {
      NoPages(fetch, cursor, end, interval);
      EmptyRange(all, interval, cursor);
    }
  }

  lemma FirstPage(fetch: Fetch, cursor: int, end: int, interval: nat)
    requires interval > 0 && cursor < end
    ensures var page := fetch(cursor, Smaller(cursor + Span(interval), end));
      var pages, rest := PagesFrom(fetch, cursor, end, interval), PagesFrom(fetch, Next(cursor, end, interval, page), end, interval);
      && Concat(pages) == page + Concat(rest)
      && forall p :: p in pages ==> p in rest || (p == page && |page| > 0)
  {
    var page := fetch(cursor, Smaller(cursor + Span(interval), end));
    NextAdvances(cursor, end, interval, page);
    var rest := PagesFrom(fetch, Next(cursor, end, interval, page), end, interval);
    if |page| > 0 { assert ([page] + rest)[1..] == rest; } else { assert [] + rest == rest; }
    hide Next, Span, Smaller;
  }

  lemma NoPages(fetch: Fetch, cursor: int, end: int, interval: nat)
    requires interval > 0 && cursor >= end
    ensures PagesFrom(fetch, cursor, end, interval) == [] && Concat<int>([]) == []
  {
  }

  lemma EmptyRange(all: seq<int>, interval: nat, at: int)
    requires Spaced(all, interval)
    ensures Range(all, at, at) == []
  {
    RangeSpaced(all, interval, at, at);
    NoMembers(Range(all, at, at));
  }

  // --- gaps ------------------------------------------------------------------------------

  datatype Gap = Gap(start: int, end: int)

  function Gaps(bars: seq<int>, step: nat): seq<Gap> {
    if |bars| < 2 then []
    else
      Gaps(bars[..|bars| - 1], step) +
      if bars[|bars| - 1] > bars[|bars| - 2] + step then [Gap(bars[|bars| - 2] + step, bars[|bars| - 1])] else []
  }

  method FindGaps(bars: seq<int>, step: nat) returns (gaps: seq<Gap>)
    ensures gaps == Gaps(bars, step)
  {
    gaps := [];
    if |bars| == 0 {
      return;
    }
    for i := 1 to |bars|
      invariant gaps == Gaps(bars[..i], step)
    {
      assert bars[..i + 1][..i] == bars[..i];
      var expected := bars[i - 1] + step;
      if bars[i] > expected {
        gaps := gaps + [Gap(expected, bars[i])];
      }
    }
    assert bars[..|bars|] == bars;
  }

  predicate InGap(gaps: seq<Gap>, t: int) {
    exists i :: 0 <= i < |gaps| && gaps[i].start <= t < gaps[i].end
  }

  /** Some stored bar is under way at a time. */
  predicate UnderWay(bars: seq<int>, step: nat, t: int) {
    exists i :: 0 <= i < |bars| && bars[i] <= t < bars[i] + step
  }

  /** The gaps are exactly the times, between the first bar and the last, at which no stored bar is under way. */
  lemma {:induction false} GapsAreWhatIsMissing(bars: seq<int>, step: nat, t: int)
    requires |bars| > 0 && bars[0] <= t < bars[|bars| - 1]
    requires forall i, j :: 0 <= i < j < |bars| ==> bars[i] <= bars[j]
    ensures InGap(Gaps(bars, step), t) <==> !UnderWay(bars, step, t)
  {
    var n := |bars|;
    var front := bars[..n - 1];
    var before := Gaps(front, step);
    if t < bars[n - 2] {
      GapsAreWhatIsMissing(front, step, t);
      LastBarIsLater(bars, step, t);
      GapOfFront(bars, step, t);
    } else {
      GapsEndEarlier(front, step);
      GapOfFront(bars, step, t);
      if i :| 0 <= i < n && bars[i] <= t < bars[i] + step { assert bars[n - 2] + step > t; }
      if t < bars[n - 2] + step { assert UnderWay(bars, step, t); }
    }
  }

  lemma LastBarIsLater(bars: seq<int>, step: nat, t: int)
    requires |bars| > 0 && t < bars[|bars| - 1]
    ensures UnderWay(bars, step, t) <==> UnderWay(bars[..|bars| - 1], step, t)
  {
    var front := bars[..|bars| - 1];
    if i :| 0 <= i < |bars| && bars[i] <= t < bars[i] + step { assert front[i] == bars[i]; }
    if i :| 0 <= i < |front| && front[i] <= t < front[i] + step { assert bars[i] == front[i]; }
  }

  /** A time is in a gap of the front, or in the gap before the last bar. */
  lemma GapOfFront(bars: seq<int>, step: nat, t: int)
    requires |bars| >= 2
    ensures InGap(Gaps(bars, step), t) <==>
      InGap(Gaps(bars[..|bars| - 1], step), t) || bars[|bars| - 2] + step <= t < bars[|bars| - 1]
  {
    var before, all := Gaps(bars[..|bars| - 1], step), Gaps(bars, step);
    if i :| 0 <= i < |before| && before[i].start <= t < before[i].end { assert all[i] == before[i]; }
    if bars[|bars| - 2] + step <= t < bars[|bars| - 1] { assert all[|before|] == Gap(bars[|bars| - 2] + step, bars[|bars| - 1]); }
    if i :| 0 <= i < |all| && all[i].start <= t < all[i].end { if i < |before| { assert before[i] == all[i]; } }
  }

  lemma {:induction false} GapsEndEarlier(bars: seq<int>, step: nat)
    requires |bars| > 0 && forall i, j :: 0 <= i < j < |bars| ==> bars[i] <= bars[j]
    ensures forall i :: 0 <= i < |Gaps(bars, step)| ==> Gaps(bars, step)[i].end <= bars[|bars| - 1]
  {
    if |bars| >= 2 { GapsEndEarlier(bars[..|bars| - 1], step); }
  }
}
