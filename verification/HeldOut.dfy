/** The split of a search into what it is fitted on and what is held back
    (packages/engine/quanta_engine/discover/stats.py and search.py).
  */
module HeldOut {
  import opened Wrappers

  /** Python's round: to the nearest whole number, halves to the even one. */
  function Round(x: real): int {
    var low := x.Floor;
    var part := x - low as real;
    if part < 0.5 then low else if part > 0.5 then low + 1 else if low % 2 == 0 then low else low + 1
  }

  /** The index of the first held-out bar. */
  function SplitIndex(bars: int, share: real): int {
    var rounded := Round(bars as real * share);
    var capped := if rounded < bars - 1 then rounded else bars - 1;
    if capped > 1 then capped else 1
  }

  /** Wherever there are two bars, both stretches have one. */
  lemma SplitLeavesBoth(bars: int, share: real)
    requires bars >= 2
    ensures 1 <= SplitIndex(bars, share) <= bars - 1
  {
  }

  /** The percent change from one close to another. */
  function Return(base: real, later: real): real
    requires base != 0.0
  {
    (later - base) / base * 100.0
  }

  /** The forward return of a bar; None where there is no future or nothing to divide by. */
  function ForwardReturn(close: seq<real>, horizon: nat, i: nat): Option<real>
    requires i < |close|
  {
    if horizon < 1 || i + horizon >= |close| || close[i] == 0.0 then None
    else Some(Return(close[i], close[i + horizon]))
  }

  /** The returns a test is scored on: those of the bars of a stretch where the rule holds. */
  function Sample(mask: seq<bool>, close: seq<real>, horizon: nat, from: nat, until: nat): seq<real>
    requires |mask| == |close| && from <= until <= |close|
  {
    if from == until then []
    else
      var before, r := Sample(mask, close, horizon, from, until - 1), ForwardReturn(close, horizon, until - 1);
      if mask[until - 1] && r.Some? then before + [r.value] else before
  }

  /** What is scored before the cut depends on no close at or after the cut plus the horizon. */
  lemma {:induction false} InSampleStopsAt(mask: seq<bool>, xs: seq<real>, ys: seq<real>, horizon: nat, cut: nat, n: nat)
    requires |mask| == |xs| == |ys| && n <= cut <= |xs|
    requires forall i :: 0 <= i < |xs| && i < cut + horizon ==> xs[i] == ys[i]
    ensures Sample(mask, xs, horizon, 0, n) == Sample(mask, ys, horizon, 0, n)
  {
    if n > 0 { InSampleStopsAt(mask, xs, ys, horizon, cut, n - 1); }
  }

  // --- what the in-sample stretch reads -------------------------------------------------

  /** An in-sample bar is scored on a held-out close. */
  predicate ReadsAhead(mask: seq<bool>, close: seq<real>, horizon: nat, cut: nat, i: nat)
    requires |mask| == |close|
  {
    i < cut <= i + horizon < |close| && mask[i] && close[i] != 0.0
  }

  /** No in-sample bar is. */
  predicate KeepsToItself(mask: seq<bool>, close: seq<real>, horizon: nat, cut: nat)
    requires |mask| == |close|
  {
    forall i: nat :: i < cut ==> !ReadsAhead(mask, close, horizon, cut, i)
  }

  /** Another market with the same closes before the cut. */
  predicate AlikeBefore(xs: seq<real>, ys: seq<real>, cut: nat)
    requires cut <= |xs|
  {
    |ys| == |xs| && ys[..cut] == xs[..cut]
  }

  lemma {:induction false} SameSample(mask: seq<bool>, xs: seq<real>, ys: seq<real>, horizon: nat, cut: nat, n: nat)
    requires |mask| == |xs| && n <= cut <= |xs| && AlikeBefore(xs, ys, cut) && KeepsToItself(mask, xs, horizon, cut)
    ensures Sample(mask, xs, horizon, 0, n) == Sample(mask, ys, horizon, 0, n)
  {
    if n > 0 {
      SameSample(mask, xs, ys, horizon, cut, n - 1);
      AlikeAt(xs, ys, cut, n - 1);
      assert !ReadsAhead(mask, xs, horizon, cut, n - 1);
      if n - 1 + horizon < cut { AlikeAt(xs, ys, cut, n - 1 + horizon); }
    }
  }

  lemma AlikeAt(xs: seq<real>, ys: seq<real>, cut: nat, i: nat)
    requires i < cut <= |xs| && AlikeBefore(xs, ys, cut)
    ensures xs[i] == ys[i]
  {
    assert xs[i] == xs[..cut][i] && ys[i] == ys[..cut][i];
  }

  function Sum(s: seq<real>): real {
    if |s| == 0 then 0.0 else Sum(s[..|s| - 1]) + s[|s| - 1]
  }

  lemma SumAppend(s: seq<real>, x: real)
    ensures Sum(s + [x]) == Sum(s) + x
  {
    assert (s + [x])[..|s|] == s;
  }

  /** The closes with one of them replaced. */
  function With(close: seq<real>, at: nat, other: real): (r: seq<real>)
    requires at < |close|
    ensures |r| == |close|
  {
    close[at := other]
  }

  /** What a bar adds to the sample, and to its sum. */
  function Adds(mask: seq<bool>, close: seq<real>, horizon: nat, i: nat): (r: Option<real>)
    requires |mask| == |close| && i < |close|
  {
    if mask[i] then ForwardReturn(close, horizon, i) else None
  }

  function Amount(r: Option<real>): real {
    if r.Some? then r.value else 0.0
  }

  lemma SampleGrows(mask: seq<bool>, close: seq<real>, horizon: nat, n: nat)
    requires |mask| == |close| && n < |close|
    ensures var r := Adds(mask, close, horizon, n);
      var before, after := Sample(mask, close, horizon, 0, n), Sample(mask, close, horizon, 0, n + 1);
      && |after| == |before| + (if r.Some? then 1 else 0)
      && Sum(after) == Sum(before) + Amount(r)
  {
    var r := Adds(mask, close, horizon, n);
    hide ForwardReturn;
    if r.Some? { SumAppend(Sample(mask, close, horizon, 0, n), r.value); }
  }

  lemma OnlyOneAdds(mask: seq<bool>, close: seq<real>, horizon: nat, cut: nat, i: nat, other: real, n: nat)
    requires |mask| == |close| && n < cut <= |close| && ReadsAhead(mask, close, horizon, cut, i)
    ensures var r, q := Adds(mask, close, horizon, n), Adds(mask, With(close, i + horizon, other), horizon, n);
      && (r.Some? <==> q.Some?) && (n != i ==> q == r)
      && (n == i ==> r == Some(Return(close[i], close[i + horizon])) && q == Some(Return(close[i], other)))
  {
    hide Return;
  }

  /** Replacing the one held-out close that bar i reads moves the sample's sum by that bar's return alone. */
  lemma {:induction false} OneReturnMoves(mask: seq<bool>, close: seq<real>, horizon: nat, cut: nat, i: nat, other: real, n: nat)
    requires |mask| == |close| && n <= cut <= |close| && ReadsAhead(mask, close, horizon, cut, i)
    ensures var xs := Sample(mask, close, horizon, 0, n);
      var ys := Sample(mask, With(close, i + horizon, other), horizon, 0, n);
      && |ys| == |xs|
      && Sum(ys) == Sum(xs) + (if n <= i then 0.0 else Return(close[i], other) - Return(close[i], close[i + horizon]))
  {
    if n > 0 {
      hide Return, Sum, Sample, Adds, With;
      OneReturnMoves(mask, close, horizon, cut, i, other, n - 1);
      SampleGrows(mask, close, horizon, n - 1);
      SampleGrows(mask, With(close, i + horizon, other), horizon, n - 1);
      OnlyOneAdds(mask, close, horizon, cut, i, other, n - 1);
    }
  }

  lemma DifferentReturn(a: real, b: real, base: real)
    requires a != b && base != 0.0
    ensures Return(base, a) != Return(base, b)
  {
    var x, y := (a - base) / base, (b - base) / base;
    assert x * base == a - base && y * base == b - base;
  }

  lemma OtherSum(mask: seq<bool>, close: seq<real>, horizon: nat, cut: nat, i: nat, other: real)
    requires |mask| == |close| && cut <= |close| && ReadsAhead(mask, close, horizon, cut, i)
    requires other != close[i + horizon]
    ensures var ys := With(close, i + horizon, other);
      && AlikeBefore(close, ys, cut)
      && |Sample(mask, ys, horizon, 0, cut)| == |Sample(mask, close, horizon, 0, cut)|
      && Sum(Sample(mask, ys, horizon, 0, cut)) != Sum(Sample(mask, close, horizon, 0, cut))
  {
    OneReturnMoves(mask, close, horizon, cut, i, other, cut);
    DifferentReturn(other, close[i + horizon], close[i]);
  }

  /** The in-sample returns are free of held-out closes exactly when no in-sample bar is scored on one: where the
      rule holds, the close is not zero, and the bar it is measured against exists and lies past the cut.
    */
  lemma SampleKeepsToItselfExactlyWhen(mask: seq<bool>, close: seq<real>, horizon: nat, cut: nat)
    requires |mask| == |close| && cut <= |close|
    ensures KeepsToItself(mask, close, horizon, cut) <==>
      (forall ys :: AlikeBefore(close, ys, cut) ==>
        Sample(mask, close, horizon, 0, cut) == Sample(mask, ys, horizon, 0, cut))
  {
    hide Sample, ReadsAhead;
    if KeepsToItself(mask, close, horizon, cut) {
      forall ys | AlikeBefore(close, ys, cut)
        ensures Sample(mask, close, horizon, 0, cut) == Sample(mask, ys, horizon, 0, cut)
      {
        SameSample(mask, close, ys, horizon, cut, cut);
      }
    } else {
      var i: nat :| i < cut && ReadsAhead(mask, close, horizon, cut, i);
      AheadIsThere(mask, close, horizon, cut, i);
      OtherSum(mask, close, horizon, cut, i, close[i + horizon] + 1.0);
    }
  }

  lemma AheadIsThere(mask: seq<bool>, close: seq<real>, horizon: nat, cut: nat, i: nat)
    requires |mask| == |close| && ReadsAhead(mask, close, horizon, cut, i)
    ensures i + horizon < |close|
  {
  }

  // --- what the score reports --------------------------------------------------------------

  const MIN_SIGNALS := 20

  /** The statistics left open: the spread of a sample, t from mean, spread and effective size, and p from t and
      the degrees of freedom.
    */
  datatype Test = Test(spread: seq<real> -> real, t: (real, real, real) -> real, p: (real, real) -> real)

  datatype Score = Score(signals: nat, mean: real, net: real, t: real, p: real, win: real)

  function Negated(s: seq<real>): (r: seq<real>)
    ensures |r| == |s|
  {
    seq(|s|, i requires 0 <= i < |s| => -s[i])
  }

  function Mean(s: seq<real>): real
    requires |s| > 0
  {
    Sum(s) / |s| as real
  }

  function Wins(s: seq<real>): nat {
    if |s| == 0 then 0 else Wins(s[..|s| - 1]) + (if s[|s| - 1] > 0.0 then 1 else 0)
  }

  /** score(), on the usable returns. */
  function Scored(test: Test, usable: seq<real>, short: bool, cost: real, horizon: nat): Score {
    var n := |usable|;
    if n < MIN_SIGNALS then Score(n, 0.0, 0.0, 0.0, 1.0, 0.0)
    else
      var sample := if short then Negated(usable) else usable;
      var mean := Mean(sample);
      var net, win, spread := mean - cost, Wins(sample) as real / n as real, test.spread(sample);
      var shared := n as real / (if horizon > 1 then horizon as real else 1.0);
      var effective := if shared > 1.0 then shared else 1.0;
      if spread == 0.0 || effective < MIN_SIGNALS as real then Score(n, mean, net, 0.0, 1.0, win)
      else
        var t := test.t(mean, spread, effective);
        Score(n, mean, net, t, test.p(t, effective - 1.0), win)
  }

  lemma {:induction false} SumNegated(s: seq<real>)
    ensures Sum(Negated(s)) == -Sum(s)
  {
    if |s| > 0 {
      SumNegated(s[..|s| - 1]);
      assert Negated(s)[..|s| - 1] == Negated(s[..|s| - 1]);
    }
  }

  lemma MeanTells(xs: seq<real>, ys: seq<real>)
    requires |xs| == |ys| > 0 && Sum(xs) != Sum(ys)
    ensures Mean(xs) != Mean(ys)
  {
    var n := |xs| as real;
    assert Sum(xs) / n * n == Sum(xs) && Sum(ys) / n * n == Sum(ys);
  }

  lemma ScoreTells(test: Test, xs: seq<real>, ys: seq<real>, short: bool, cost: real, horizon: nat)
    requires |xs| == |ys| >= MIN_SIGNALS && Sum(xs) != Sum(ys)
    ensures Scored(test, xs, short, cost, horizon) != Scored(test, ys, short, cost, horizon)
  {
    SumNegated(xs);
    SumNegated(ys);
    MeanTells(xs, ys);
    MeanTells(Negated(xs), Negated(ys));
    hide Mean, Sum, Negated, Wins;
  }

  function Total(s: seq<real>): real {
    if |s| == 0 then 0.0 else s[0] + Total(s[1..])
  }

  lemma {:induction false} SumIsTotal(s: seq<real>)
    ensures Sum(s) == Total(s)
    decreases |s|
  {
    if |s| > 0 {
      SumIsTotal(s[1..]);
      SumFirst(s);
    }
  }

  lemma {:induction false} SumFirst(s: seq<real>)
    requires |s| > 0
    ensures Sum(s) == s[0] + Sum(s[1..])
    decreases |s|
  {
    if |s| > 1 {
      SumFirst(s[..|s| - 1]);
      assert s[..|s| - 1][1..] == s[1..][..|s| - 2];
    }
  }

  function Winners(s: seq<real>, short: bool): set<int> {
    set k | 0 <= k < |s| && if short then s[k] < 0.0 else s[k] > 0.0
  }

  lemma {:induction false} WinsAreWinners(s: seq<real>)
    ensures Wins(s) == |Winners(s, false)|
  {
    if |s| > 0 {
      var n := |s| - 1;
      WinsAreWinners(s[..n]);
      assert Winners(s, false) == Winners(s[..n], false) + (if s[n] > 0.0 then {n} else {});
    }
  }

  /** What a score says: below 20 returns nothing but their number; from there on the mean return for the side,
      the mean less the cost, the share of winners, and a test that counts overlapping returns once a horizon,
      unless they do not spread or count for fewer than 20.
    */
  lemma ScoresMean(test: Test, usable: seq<real>, short: bool, cost: real, horizon: nat)
    ensures var n, score := |usable|, Scored(test, usable, short, cost, horizon);
      && score.signals == n
      && (n < 20 ==> score == Score(n, 0.0, 0.0, 0.0, 1.0, 0.0))
      && (n >= 20 ==>
            var sample := if short then seq(n, k requires 0 <= k < n => 0.0 - usable[k]) else usable;
            var shared := if horizon <= 1 then n as real else n as real / horizon as real;
            var effective := if shared < 1.0 then 1.0 else shared;
            && IsPart(score.mean, n, if short then 0.0 - Total(usable) else Total(usable))
            && score.net == score.mean - cost
            && IsPart(score.win, n, |Winners(usable, short)| as real)
            && (if test.spread(sample) == 0.0 || effective < 20.0 then score.t == 0.0 && score.p == 1.0
                else score.t == test.t(score.mean, test.spread(sample), effective) && score.p == test.p(score.t, effective - 1.0)))
  {
    if |usable| >= 20 {
      SidesMean(usable, short);
      hide Negated, Mean, Wins, Winners, Total, IsPart;
    }
  }

  /** The returns as the side sees them. */
  function ForSide(usable: seq<real>, short: bool): seq<real> {
    if short then Negated(usable) else usable
  }

  lemma SidesMean(usable: seq<real>, short: bool)
    requires |usable| > 0
    ensures var n, sample := |usable|, ForSide(usable, short);
      && |sample| == n && Negated(usable) == seq(n, k requires 0 <= k < n => 0.0 - usable[k])
      && IsPart(Mean(sample), n, if short then 0.0 - Total(usable) else Total(usable))
      && IsPart(Wins(sample) as real / n as real, n, |Winners(usable, short)| as real)
  {
    var sample := ForSide(usable, short);
    SumNegated(usable);
    SumIsTotal(usable);
    WinsAreWinners(sample);
    assert Winners(sample, false) == Winners(usable, short);
    PartMeans(Sum(sample), |usable|);
    PartMeans(Wins(sample) as real, |usable|);
    hide IsPart, Sum, Total, Wins, Winners;
  }

  /** One of n equal parts of a whole. */
  predicate IsPart(part: real, n: nat, whole: real) {
    n as real * part == whole
  }

  lemma PartMeans(x: real, n: nat)
    requires n > 0
    ensures IsPart(x / n as real, n, x)
  {
  }

  /** A forward return, in percent of the close it starts from. */
  lemma ReturnsMean(close: seq<real>, horizon: nat, i: nat)
    requires i < |close|
    ensures ForwardReturn(close, horizon, i).Some? <==> horizon >= 1 && i + horizon < |close| && close[i] != 0.0
    ensures ForwardReturn(close, horizon, i).Some? ==>
      ForwardReturn(close, horizon, i).value * close[i] == 100.0 * (close[i + horizon] - close[i])
  {
    if horizon >= 1 && i + horizon < |close| && close[i] != 0.0 {
      var q := (close[i + horizon] - close[i]) / close[i];
      assert q * close[i] == close[i + horizon] - close[i];
      assert (q * 100.0) * close[i] == 100.0 * (q * close[i]);
    }
  }

  /** Rounding goes to a nearest whole number, and to the even one of two. */
  lemma RoundMeans(x: real)
    ensures -0.5 <= x - Round(x) as real <= 0.5
    ensures x - Round(x) as real == 0.5 || x - Round(x) as real == -0.5 ==> Round(x) % 2 == 0
  {
  }

  /** The cut is the rounded share of the bars, kept between the second bar and the last. */
  lemma SplitMeans(bars: int, share: real)
    requires bars >= 2
    ensures var cut, wanted := SplitIndex(bars, share), Round(bars as real * share);
      cut == if wanted < 1 then 1 else if wanted > bars - 1 then bars - 1 else wanted
  {
  }

  /** The score of a rule over the in-sample stretch. */
  function InSampleScore(test: Test, mask: seq<bool>, close: seq<real>, horizon: nat, cut: nat, short: bool, cost: real): Score
    requires |mask| == |close| && cut <= |close|
  {
    Scored(test, Sample(mask, close, horizon, 0, cut), short, cost, horizon)
  }

  lemma {:induction false} SampleLength(mask: seq<bool>, xs: seq<real>, ys: seq<real>, horizon: nat, cut: nat, n: nat)
    requires |mask| == |xs| && n <= cut <= |xs| && AlikeBefore(xs, ys, cut)
    ensures |Sample(mask, xs, horizon, 0, n)| == |Sample(mask, ys, horizon, 0, n)|
  {
    if n > 0 {
      SampleLength(mask, xs, ys, horizon, cut, n - 1);
      AlikeAt(xs, ys, cut, n - 1);
    }
  }

  /** Changing one held-out close that an in-sample bar reads changes the score, once there are signals enough to
      be scored.
    */
  lemma ScoreReadsAhead(test: Test, mask: seq<bool>, close: seq<real>, horizon: nat, cut: nat, short: bool, cost: real,
                        i: nat, other: real)
    requires |mask| == |close| && cut <= |close| && ReadsAhead(mask, close, horizon, cut, i)
    requires |Sample(mask, close, horizon, 0, cut)| >= MIN_SIGNALS && other != close[i + horizon]
    ensures var changed := With(close, i + horizon, other);
      && AlikeBefore(close, changed, cut)
      && InSampleScore(test, mask, changed, horizon, cut, short, cost)
         != InSampleScore(test, mask, close, horizon, cut, short, cost)
  {
    var changed := With(close, i + horizon, other);
    OtherSum(mask, close, horizon, cut, i, other);
    hide Sample, Scored, Sum;
    ScoreTells(test, Sample(mask, changed, horizon, 0, cut), Sample(mask, close, horizon, 0, cut), short, cost, horizon);
  }

  /** What a search reports of its in-sample stretch is free of held-out closes exactly when there are too few
      signals to score, or no in-sample bar is scored on one.
    */
  lemma ScoreKeepsToItselfExactlyWhen(test: Test, mask: seq<bool>, close: seq<real>, horizon: nat, cut: nat, short: bool, cost: real)
    requires |mask| == |close| && cut <= |close|
    ensures (forall ys :: AlikeBefore(close, ys, cut) ==>
              InSampleScore(test, mask, close, horizon, cut, short, cost)
              == InSampleScore(test, mask, ys, horizon, cut, short, cost))
      <==> (|Sample(mask, close, horizon, 0, cut)| < MIN_SIGNALS || KeepsToItself(mask, close, horizon, cut))
  {
    hide Sample, ReadsAhead, Sum;
    if |Sample(mask, close, horizon, 0, cut)| < MIN_SIGNALS || KeepsToItself(mask, close, horizon, cut) {
      forall ys | AlikeBefore(close, ys, cut)
        ensures InSampleScore(test, mask, close, horizon, cut, short, cost)
                == InSampleScore(test, mask, ys, horizon, cut, short, cost)
      {
        SampleLength(mask, close, ys, horizon, cut, cut);
        if KeepsToItself(mask, close, horizon, cut) { SameSample(mask, close, ys, horizon, cut, cut); }
      }
    } else {
      hide InSampleScore;
      var i: nat :| i < cut && ReadsAhead(mask, close, horizon, cut, i);
      AheadIsThere(mask, close, horizon, cut, i);
      ScoreReadsAhead(test, mask, close, horizon, cut, short, cost, i, close[i + horizon] + 1.0);
    }
  }

  lemma {:induction false} AllCount(close: seq<real>, horizon: nat, n: nat)
    requires horizon >= 1 && n + horizon <= |close| && forall i :: 0 <= i < n ==> close[i] != 0.0
    ensures |Sample(seq(|close|, _ => true), close, horizon, 0, n)| == n
  {
    if n > 0 { AllCount(close, horizon, n - 1); }
  }

  /** It does happen: with twenty in-sample bars or more whose future is in the data, a rule that always holds is
      scored differently when the close that its last in-sample bar is measured against is changed.
    */
  lemma InSampleReadsHeldOut(test: Test, close: seq<real>, horizon: nat, cut: nat, short: bool, cost: real, other: real)
    requires horizon >= 1 && MIN_SIGNALS <= cut && cut - 1 + horizon < |close|
    requires (forall i :: 0 <= i < cut ==> close[i] != 0.0) && other != close[cut - 1 + horizon]
    ensures var always := seq(|close|, _ => true);
      var changed := With(close, cut - 1 + horizon, other);
      && AlikeBefore(close, changed, cut)
      && InSampleScore(test, always, changed, horizon, cut, short, cost)
         != InSampleScore(test, always, close, horizon, cut, short, cost)
  {
    var always := seq(|close|, _ => true);
    AllCount(close, horizon, cut);
    assert ReadsAhead(always, close, horizon, cut, cut - 1);
    hide Sample, AlikeBefore, InSampleScore;
    ScoreReadsAhead(test, always, close, horizon, cut, short, cost, cut - 1, other);
  }

  /** The held-out score depends on no close before the cut. */
  lemma {:induction false} HeldOutStartsAt(mask: seq<bool>, xs: seq<real>, ys: seq<real>, horizon: nat, cut: nat, n: nat)
    requires |mask| == |xs| == |ys| && cut <= n <= |xs|
    requires forall i :: cut <= i < |xs| ==> xs[i] == ys[i]
    ensures Sample(mask, xs, horizon, cut, n) == Sample(mask, ys, horizon, cut, n)
  {
    if n > cut { HeldOutStartsAt(mask, xs, ys, horizon, cut, n - 1); }
  }
}
