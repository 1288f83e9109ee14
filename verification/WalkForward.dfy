/** Walk-forward analysis (packages/engine/quanta_engine/forward/walkforward.py). */
module WalkForward {
  import opened Wrappers
  import opened Market
  import opened Engine
  import opened NoLookahead

  const MS_PER_DAY := 86_400_000
  const MIN_TRADES_FOR_SELECTION := 5
  const MAX_COMBINATIONS := 400

  // --- windows -------------------------------------------------------------------------

  datatype Window = Window(index: nat, inStart: int, inEnd: int, outStart: int, outEnd: int)

  function WindowAt(start: int, inMs: nat, outMs: nat, k: nat): Window {
    var cursor := start + k * outMs;
    Window(k, cursor, cursor + inMs, cursor + inMs, cursor + inMs + outMs)
  }

  /** Rolling windows, each one test stretch after the last; None stands for the ValueError. */
  method BuildWindows(start: int, end: int, inDays: int, outDays: int, maxWindows: int) returns (windows: Option<seq<Window>>)
    ensures windows.None? <==> inDays < 1 || outDays < 1
    ensures windows.Some? ==> Fills(windows.value, start, end, inDays * MS_PER_DAY, outDays * MS_PER_DAY, maxWindows)
  {
    if inDays < 1 || outDays < 1 {
      return None;
    }
    var inMs, outMs := inDays * MS_PER_DAY, outDays * MS_PER_DAY;
    var built: seq<Window> := [];
    var cursor, index := start, 0;
    while cursor + inMs + outMs <= end && index < maxWindows
      invariant |built| == index && cursor == start + index * outMs
      invariant Rolling(built, start, inMs, outMs)
      invariant forall k: nat :: k < index ==> k < maxWindows && WindowAt(start, inMs, outMs, k).outEnd <= end
      decreases maxWindows - index
    {
      built := built + [Window(index, cursor, cursor + inMs, cursor + inMs, cursor + inMs + outMs)];
      cursor := cursor + outMs;
      index := index + 1;
    }
    forall k: nat | k < maxWindows && WindowAt(start, inMs, outMs, k).outEnd <= end ensures k < index {
      if k >= index { Further(index, k, outMs); }
    }
    return Some(built);
  }

  lemma Further(j: nat, k: nat, outMs: nat)
    requires j <= k
    ensures j * outMs <= k * outMs
  {
    assert (k - j) * outMs >= 0;
  }

  /** The rolling windows that fit, and as many of them as are allowed. */
  ghost predicate Fills(windows: seq<Window>, start: int, end: int, inMs: nat, outMs: nat, maxWindows: int) {
    && Rolling(windows, start, inMs, outMs)
    && forall k: nat :: k < |windows| <==> k < maxWindows && WindowAt(start, inMs, outMs, k).outEnd <= end
  }

  /** A window's lengths and place: fitted over its days, tested over the days after, and begun one test later
      than the window before.
    */
  lemma WindowsRoll(start: int, inMs: nat, outMs: nat, k: nat)
    ensures var w, next := WindowAt(start, inMs, outMs, k), WindowAt(start, inMs, outMs, k + 1);
      && WindowAt(start, inMs, outMs, 0).inStart == start
      && w.inEnd - w.inStart == inMs && w.outStart == w.inEnd && w.outEnd - w.outStart == outMs
      && next.inStart - w.inStart == outMs && w.index == k
    ensures MS_PER_DAY == 24 * 60 * 60 * 1000
  {
    assert (k + 1) * outMs == k * outMs + outMs;
  }

  /** No more windows than allowed, all of them ending in the range, and fewer only when the next would not. */
  lemma WindowsAreCounted(windows: seq<Window>, start: int, end: int, inMs: nat, outMs: nat, maxWindows: int)
    requires Fills(windows, start, end, inMs, outMs, maxWindows)
    ensures |windows| <= if maxWindows > 0 then maxWindows else 0
    ensures forall k :: 0 <= k < |windows| ==> windows[k] == WindowAt(start, inMs, outMs, k) && windows[k].outEnd <= end
    ensures |windows| < maxWindows ==> WindowAt(start, inMs, outMs, |windows|).outEnd > end
  {
    hide WindowAt;
    var next := WindowAt(start, inMs, outMs, |windows|);
    if |windows| > 0 { var last := WindowAt(start, inMs, outMs, |windows| - 1); }
    forall k | 0 <= k < |windows| ensures windows[k] == WindowAt(start, inMs, outMs, k) && windows[k].outEnd <= end {
      var w := WindowAt(start, inMs, outMs, k);
    }
  }

  /** They are one list only. */
  lemma FillsOneWay(xs: seq<Window>, ys: seq<Window>, start: int, end: int, inMs: nat, outMs: nat, maxWindows: int)
    requires Fills(xs, start, end, inMs, outMs, maxWindows) && Fills(ys, start, end, inMs, outMs, maxWindows)
    ensures xs == ys
  {
    hide WindowAt;
    var afterXs, afterYs := WindowAt(start, inMs, outMs, |xs|), WindowAt(start, inMs, outMs, |ys|);
    assert |xs| < |ys| <==> |xs| < maxWindows && afterXs.outEnd <= end;
    assert |ys| < |xs| <==> |ys| < maxWindows && afterYs.outEnd <= end;
  }

  predicate Rolling(windows: seq<Window>, start: int, inMs: nat, outMs: nat) {
    forall k :: 0 <= k < |windows| ==> windows[k] == WindowAt(start, inMs, outMs, k)
  }

  // --- slices ----------------------------------------------------------------------------

  lemma {:induction false} LowerBoundSplits(bars: Bars, time: int, i: nat)
    requires NonDecreasing(bars) && i < |bars|
    ensures bars[i].time < time <==> i < LowerBound(bars, time)
  {
    if bars[0].time < time && i > 0 {
      forall a, b | 0 <= a < b < |bars[1..]| ensures bars[1..][a].time <= bars[1..][b].time {
        assert bars[a + 1].time <= bars[b + 1].time;
      }
      LowerBoundSplits(bars[1..], time, i - 1);
    }
  }

  /** A slice is the bars from its start up to its end. */
  lemma SliceIs(bars: Bars, start: int, end: int)
    requires NonDecreasing(bars) && start <= end
    ensures LowerBound(bars, start) <= LowerBound(bars, end)
    ensures MinuteSlice(bars, start, end) == bars[LowerBound(bars, start)..LowerBound(bars, end)]
    ensures forall b :: b in MinuteSlice(bars, start, end) <==> b in bars && start <= b.time < end
  {
    LowerBoundMonotone(bars, start, end);
    var lo, hi := LowerBound(bars, start), LowerBound(bars, end);
    var slice := MinuteSlice(bars, start, end);
    assert slice == bars[lo..hi];
    forall b | b in slice ensures b in bars && start <= b.time < end {
      var i :| lo <= i < hi && bars[i] == b;
      LowerBoundSplits(bars, start, i);
      LowerBoundSplits(bars, end, i);
    }
    forall b | b in bars && start <= b.time < end ensures b in slice {
      var i :| 0 <= i < |bars| && bars[i] == b;
      LowerBoundSplits(bars, start, i);
      LowerBoundSplits(bars, end, i);
      assert slice[i - lo] == b;
    }
  }

  /** The bars from index a up to b are those from a start up to an end. */
  predicate Between(bars: Bars, start: int, end: int, a: nat, b: nat) {
    a <= b <= |bars| && forall i :: 0 <= i < |bars| ==> (a <= i < b <==> start <= bars[i].time < end)
  }

  lemma SliceBetween(bars: Bars, start: int, end: int, a: nat, b: nat)
    requires NonDecreasing(bars) && start <= end && Between(bars, start, end, a, b)
    ensures MinuteSlice(bars, start, end) == bars[a..b]
  {
    SliceIs(bars, start, end);
    var lo, hi := LowerBound(bars, start), LowerBound(bars, end);
    hide LowerBound, MinuteSlice;
    forall i: nat | i < |bars| ensures Within(lo, hi, i) <==> Within(a, b, i) {
      LowerBoundSplits(bars, start, i);
      LowerBoundSplits(bars, end, i);
    }
    SameRange(|bars|, lo, hi, a, b);
    if lo == hi { assert bars[a..b] == bars[lo..hi]; }
  }

  predicate Within(lo: nat, hi: nat, i: nat) {
    lo <= i < hi
  }

  lemma SameRange(n: nat, lo: nat, hi: nat, a: nat, b: nat)
    requires lo <= hi <= n && a <= b <= n && forall i: nat :: i < n ==> (Within(lo, hi, i) <==> Within(a, b, i))
    ensures (lo == hi && a == b) || (lo == a && hi == b)
  {
    assert lo < n ==> (Within(lo, hi, lo) <==> Within(a, b, lo));
    assert a < n ==> (Within(lo, hi, a) <==> Within(a, b, a));
    assert hi > 0 ==> (Within(lo, hi, hi - 1) <==> Within(a, b, hi - 1));
    assert b > 0 ==> (Within(lo, hi, b - 1) <==> Within(a, b, b - 1));
  }

  /** The test slices of the first n windows, one after another. */
  function Tested(bars: Bars, windows: seq<Window>, n: nat): Bars
    requires n <= |windows|
  {
    if n == 0 then []
    else Tested(bars, windows, n - 1) + MinuteSlice(bars, windows[n - 1].outStart, windows[n - 1].outEnd)
  }

  lemma WindowSteps(start: int, inMs: nat, outMs: nat, k: nat)
    ensures var w := WindowAt(start, inMs, outMs, k);
      && w.inEnd == w.outStart && w.outEnd == WindowAt(start, inMs, outMs, k + 1).outStart
      && w.inStart <= w.inEnd <= w.outEnd && WindowAt(start, inMs, outMs, 0).outStart <= w.outStart
  {
    assert (k + 1) * outMs == k * outMs + outMs;
    assert k * outMs >= 0;
  }

  /** Every bar of the tested range is tested exactly once, in order: the test slices put together are the
      bars from the first window's test to the last one's end.
    */
  lemma {:induction false} TestedOnce(bars: Bars, windows: seq<Window>, start: int, inMs: nat, outMs: nat, n: nat)
    requires NonDecreasing(bars) && Rolling(windows, start, inMs, outMs) && 1 <= n <= |windows|
    ensures Tested(bars, windows, n) == MinuteSlice(bars, windows[0].outStart, windows[n - 1].outEnd)
  {
    hide MinuteSlice, NonDecreasing;
    WindowSteps(start, inMs, outMs, n - 1);
    var from, last := windows[0].outStart, windows[n - 1];
    SliceIs(bars, last.outStart, last.outEnd);
    SliceIs(bars, from, last.outEnd);
    if n == 1 {
      assert Tested(bars, windows, 0) == [];
    } else {
      WindowSteps(start, inMs, outMs, n - 2);
      TestedOnce(bars, windows, start, inMs, outMs, n - 1);
      SliceIs(bars, from, last.outStart);
      assert windows[n - 2].outEnd == last.outStart;
    }
  }

  /** No window is tested on a bar it was fitted on, nor on one an earlier window was tested on. */
  lemma NothingTestedIsFitted(bars: Bars, windows: seq<Window>, start: int, inMs: nat, outMs: nat, j: nat, k: nat, b: Bar)
    requires NonDecreasing(bars) && Rolling(windows, start, inMs, outMs) && j <= k < |windows|
    requires b in MinuteSlice(bars, windows[k].outStart, windows[k].outEnd)
    ensures b !in MinuteSlice(bars, windows[j].inStart, windows[j].inEnd)
    ensures j < k ==> b !in MinuteSlice(bars, windows[j].outStart, windows[j].outEnd)
  {
    hide MinuteSlice, NonDecreasing;
    WindowSteps(start, inMs, outMs, j);
    WindowSteps(start, inMs, outMs, k);
    Further(j, k, outMs);
    if j < k { Further(j + 1, k, outMs); }
    assert (j + 1) * outMs == j * outMs + outMs;
    SliceIs(bars, windows[k].outStart, windows[k].outEnd);
    SliceIs(bars, windows[j].inStart, windows[j].inEnd);
    SliceIs(bars, windows[j].outStart, windows[j].outEnd);
  }

  /** The windows end by the time of the last bar, so that bar is never tested. */
  lemma LastBarIsNeverTested(bars: Bars, windows: seq<Window>, start: int, inMs: nat, outMs: nat, k: nat)
    requires NonDecreasing(bars) && |bars| > 0 && Rolling(windows, start, inMs, outMs) && k < |windows|
    requires windows[k].outEnd <= bars[|bars| - 1].time
    ensures bars[|bars| - 1] !in MinuteSlice(bars, windows[k].outStart, windows[k].outEnd)
  {
    hide MinuteSlice, NonDecreasing;
    WindowSteps(start, inMs, outMs, k);
    SliceIs(bars, windows[k].outStart, windows[k].outEnd);
  }
}
