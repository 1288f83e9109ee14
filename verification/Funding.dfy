/** Funding is charged exactly once for every settlement a trade was held over. */
module Funding {
  import opened Wrappers
  import opened Market
  import opened Engine
  import opened Ledger

  // --- settlements ------------------------------------------------------------

  /** The settlements from one on and before a time. */
  function Grid(first: int, until: int): seq<int>
    decreases until - first
  {
    if first >= until then [] else [first] + Grid(first + FUNDING_INTERVAL_MS, until)
  }

  /** The first of them that is not before that time. */
  function Due(first: int, until: int): int
    decreases until - first
  {
    if first >= until then first else Due(first + FUNDING_INTERVAL_MS, until)
  }

  /** The settlements strictly after an entry and before a time. */
  function Settlements(entry: int, until: int): seq<int> {
    Grid(NextFundingAfter(entry), until)
  }

  lemma {:induction false} GridHolds(first: int, until: int, m: int)
    requires first % FUNDING_INTERVAL_MS == 0
    ensures m in Grid(first, until) <==> m % FUNDING_INTERVAL_MS == 0 && first <= m < until
    decreases until - first
  {
    if first < until {
      GridHolds(first + FUNDING_INTERVAL_MS, until, m);
      if m % FUNDING_INTERVAL_MS == 0 && first < m { Apart(first, m); }
    }
  }

  lemma Apart(a: int, b: int)
    requires a % FUNDING_INTERVAL_MS == 0 && b % FUNDING_INTERVAL_MS == 0 && a < b
    ensures a + FUNDING_INTERVAL_MS <= b
  {
  }

  lemma NextFundingIsNext(time: int)
    ensures var n := NextFundingAfter(time);
      n % FUNDING_INTERVAL_MS == 0 && time < n <= time + FUNDING_INTERVAL_MS
  {
  }

  lemma {:induction false} GridRises(first: int, until: int)
    ensures forall i, j :: 0 <= i < j < |Grid(first, until)| ==> Grid(first, until)[i] < Grid(first, until)[j]
    ensures forall i :: 0 <= i < |Grid(first, until)| ==> first <= Grid(first, until)[i]
    decreases until - first
  {
    if first < until { GridRises(first + FUNDING_INTERVAL_MS, until); }
  }

  /** Every multiple of eight hours inside the holding time, each once. */
  lemma SettlementsAreExact(entry: int, until: int)
    ensures forall m :: m in Settlements(entry, until) <==> m % FUNDING_INTERVAL_MS == 0 && entry < m < until
    ensures var s := Settlements(entry, until); forall i, j :: 0 <= i < j < |s| ==> s[i] < s[j]
  {
    var first := NextFundingAfter(entry);
    NextFundingIsNext(entry);
    GridRises(first, until);
    forall m ensures m in Settlements(entry, until) <==> m % FUNDING_INTERVAL_MS == 0 && entry < m < until {
      GridHolds(first, until, m);
      if m % FUNDING_INTERVAL_MS == 0 && entry < m < first { Apart(m, first); }
    }
  }

  // --- what a trade owes --------------------------------------------------------

  /** The bar a time falls in. */
  function BarAt(bars: Bars, time: int): (i: nat)
    requires |bars| > 0
    ensures i < |bars|
  {
    var n := LowerBound(bars, time + 1);
    if n == 0 then 0 else n - 1
  }

  function ChargeAt(setup: Setup, price: real, t: Trade, time: int): real {
    price * t.quantity * RateAt(setup.funding, time) * Direction(t.side)
  }

  /** The settlements' charges, each at the close of the bar it falls in. */
  function Owed(setup: Setup, bars: Bars, t: Trade, times: seq<int>): real
    requires |bars| > 0
  {
    if |times| == 0 then 0.0
    else
      ChargeAt(setup, bars[BarAt(bars, times[0])].close, t, times[0]) + Owed(setup, bars, t, times[1..])
  }

  lemma {:induction false} OwedConcat(setup: Setup, bars: Bars, t: Trade, a: seq<int>, b: seq<int>)
    requires |bars| > 0
    ensures Owed(setup, bars, t, a + b) == Owed(setup, bars, t, a) + Owed(setup, bars, t, b)
  {
    hide ChargeAt, BarAt;
    if a == [] { assert a + b == b; }
    else {
      assert (a + b)[1..] == a[1..] + b;
      OwedConcat(setup, bars, t, a[1..], b);
    }
  }

  lemma {:induction false} GridSplit(first: int, mid: int, until: int)
    requires mid <= until
    ensures Grid(first, until) == Grid(first, mid) + Grid(Due(first, mid), until)
    ensures Due(first, until) == Due(Due(first, mid), until)
    decreases mid - first
  {
    if first < mid { GridSplit(first + FUNDING_INTERVAL_MS, mid, until); }
  }

  lemma {:induction false} OwedByTerms(setup: Setup, bars: Bars, t: Trade, u: Trade, times: seq<int>)
    requires |bars| > 0 && SameEntry(t, u)
    ensures Owed(setup, bars, t, times) == Owed(setup, bars, u, times)
  {
    hide BarAt, RateAt;
    if |times| > 0 { OwedByTerms(setup, bars, t, u, times[1..]); }
  }

  lemma {:induction false} LowerBoundAt(bars: Bars, i: nat, time: int)
    requires Increasing(bars) && i < |bars| && bars[i].time <= time && (i + 1 < |bars| ==> time < bars[i + 1].time)
    ensures LowerBound(bars, time + 1) == i + 1
  {
    if i == 0 {
      if |bars| > 1 { assert bars[1..][0] == bars[1]; }
    } else {
      assert bars[0].time < bars[i].time;
      LowerBoundAt(bars[1..], i - 1, time);
    }
  }

  // --- the accrual loop -----------------------------------------------------------

  /** The position has paid for every settlement before a time and will next pay the first one from it on. */
  predicate PaidUpTo(setup: Setup, bars: Bars, p: Position, until: int)
    requires |bars| > 0
  {
    if setup.config.applyFunding then
      && p.trade.fundingPaid == Owed(setup, bars, p.trade, Settlements(p.trade.entryTime, until))
      && p.nextFunding == Due(NextFundingAfter(p.trade.entryTime), until)
    else p.trade.fundingPaid == 0.0
  }

  lemma {:induction false} DueIsNotBefore(first: int, until: int)
    ensures Due(first, until) >= until && Due(first, until) >= first
    decreases until - first
  {
    if first < until { DueIsNotBefore(first + FUNDING_INTERVAL_MS, until); }
  }

  /** Inside bar i the loop charges each due settlement once, at that bar's close; the guard against
      settlements before the bar never holds one back.
    */
  lemma {:induction false} AccrueCharges(setup: Setup, bars: Bars, i: nat, p: Position)
    requires Increasing(bars) && i < |bars| && setup.config.applyFunding && bars[i].time <= p.nextFunding
    ensures var end := BarEnd(bars, i);
      var q := Accrue(setup, p, bars[i].time, end, bars[i].close);
      && q.trade.fundingPaid == p.trade.fundingPaid + Owed(setup, bars, p.trade, Grid(p.nextFunding, end))
      && q.nextFunding == Due(p.nextFunding, end)
    decreases BarEnd(bars, i) - p.nextFunding
  {
    hide LowerBound, RateAt;
    var end := BarEnd(bars, i);
    if p.nextFunding < end {
      LowerBoundAt(bars, i, p.nextFunding);
      var q := Settle(setup, p, bars[i].time, bars[i].close);
      assert q.trade.fundingPaid == p.trade.fundingPaid + ChargeAt(setup, bars[i].close, p.trade, p.nextFunding);
      AccrueCharges(setup, bars, i, q);
      OwedByTerms(setup, bars, q.trade, p.trade, Grid(q.nextFunding, end));
      var rest := Grid(q.nextFunding, end);
      assert Grid(p.nextFunding, end) == [p.nextFunding] + rest;
      assert ([p.nextFunding] + rest)[1..] == rest;
    }
  }

  lemma AccruePays(setup: Setup, bars: Bars, i: nat, p: Position)
    requires Increasing(bars) && i < |bars| && PaidUpTo(setup, bars, p, bars[i].time)
    ensures PaidUpTo(setup, bars, Accrue(setup, p, bars[i].time, BarEnd(bars, i), bars[i].close), BarEnd(bars, i))
  {
    hide Owed, Grid, Due;
    var start, end := bars[i].time, BarEnd(bars, i);
    AccrueKeepsEntry(setup, p, start, end, bars[i].close);
    if setup.config.applyFunding {
      var first := NextFundingAfter(p.trade.entryTime);
      DueIsNotBefore(first, start);
      AccrueCharges(setup, bars, i, p);
      GridSplit(first, start, end);
      OwedConcat(setup, bars, p.trade, Grid(first, start), Grid(p.nextFunding, end));
      var q := Accrue(setup, p, start, end, bars[i].close);
      OwedByTerms(setup, bars, p.trade, q.trade, Grid(first, end));
      hide Accrue;
    }
  }

  // --- whole runs -----------------------------------------------------------------

  /** A finished trade paid for every settlement after its entry and before its exit; one closed by the end
      of the data also for a settlement at that last bar's own time.
    */
  predicate PaidExactly(setup: Setup, bars: Bars, t: Trade)
    requires |bars| > 0
  {
    var until := if t.reason.EndOfData? then t.exitTime + 1 else t.exitTime;
    t.fundingPaid == if setup.config.applyFunding then Owed(setup, bars, t, Settlements(t.entryTime, until)) else 0.0
  }

  predicate FundingKept(setup: Setup, feed: Feed, s: State, until: int)
    requires |feed.bars| > 0
  {
    && (forall j :: 0 <= j < |s.trades| ==> PaidExactly(setup, feed.bars, s.trades[j]))
    && (s.position.Some? ==> PaidUpTo(setup, feed.bars, s.position.value, until))
  }

  lemma OpenOwesNothing(setup: Setup, feed: Feed, side: Side, i: nat, equity: real, atr: Option<real>)
    requires feed.Aligned() && i < |feed.bars|
    ensures var bar := feed.bars[i];
      PaidUpTo(setup, feed.bars, Open(setup.rules, setup.config, side, i, bar.time, bar.open, equity, atr), bar.time)
  {
    hide Slip, Away;
    NextFundingIsNext(feed.bars[i].time);
    hide NextFundingAfter;
  }

  lemma FillPays(setup: Setup, feed: Feed, i: nat, s: State)
    requires feed.Aligned() && i < |feed.bars| && FundingKept(setup, feed, s, feed.bars[i].time)
    ensures FundingKept(setup, feed, Fill(setup, feed, i, s), feed.bars[i].time)
  {
    hide Open, PaidUpTo, PaidExactly;
    if s.pending.Some? {
      OpenOwesNothing(setup, feed, s.pending.value, i, s.equity, if i > 0 then feed.atr[i - 1] else None);
    }
  }

  /** Stops and excursions do not touch what was paid or is due next. */
  lemma HoldingPays(setup: Setup, bars: Bars, p: Position, q: Position, until: int)
    requires |bars| > 0 && PaidUpTo(setup, bars, p, until)
    requires SameEntry(q.trade, p.trade) && q.trade.fundingPaid == p.trade.fundingPaid && q.nextFunding == p.nextFunding
    ensures PaidUpTo(setup, bars, q, until)
  {
    OwedByTerms(setup, bars, p.trade, q.trade, Settlements(p.trade.entryTime, until));
    hide Owed, Grid, Due;
  }

  lemma ClosePays(setup: Setup, feed: Feed, s: State, t: Trade, index: int, time: int, price: real, reason: ExitReason,
                  until: int)
    requires |feed.bars| > 0 && s.position.Some? && SameEntry(t, s.position.value.trade)
    requires t.fundingPaid == s.position.value.trade.fundingPaid
    requires FundingKept(setup, feed, s, if reason.EndOfData? then time + 1 else time)
    ensures FundingKept(setup, feed, CloseInto(s, Close(setup.config, t, index, time, price, reason, s.equity)), until)
  {
    var c := Close(setup.config, t, index, time, price, reason, s.equity);
    assert PaidExactly(setup, feed.bars, c) by {
      var paid := if reason.EndOfData? then time + 1 else time;
      OwedByTerms(setup, feed.bars, s.position.value.trade, c, Settlements(t.entryTime, paid));
      hide Owed, Grid, Due, Slip;
    }
    hide Close, PaidExactly, PaidUpTo;
  }

  lemma StopsKeepFunding(rules: ExitRules, p: Position, bar: Bar, atr: Option<real>)
    ensures UpdateStops(rules, p, bar, atr).nextFunding == p.nextFunding
  {
    hide Away;
  }

  lemma ExcursionKeepsFunding(p: Position, high: real, low: real)
    ensures var q := Excursion(p, high, low);
      SameEntry(q.trade, p.trade) && q.trade.fundingPaid == p.trade.fundingPaid && q.nextFunding == p.nextFunding
  {
  }

  lemma ManagePays(setup: Setup, feed: Feed, i: nat, s: State)
    requires feed.Aligned() && Increasing(feed.bars) && i < |feed.bars| && FundingKept(setup, feed, s, feed.bars[i].time)
    ensures FundingKept(setup, feed, Manage(setup, feed, i, s), BarEnd(feed.bars, i))
  {
    hide PaidUpTo, PaidExactly, UpdateStops, Resolve, Accrue, Excursion, Close;
    if s.position.Some? {
      var bar, end := feed.bars[i], BarEnd(feed.bars, i);
      var p := UpdateStops(setup.rules, s.position.value, bar, feed.atr[i]);
      StopsKeepTrade(setup.rules, s.position.value, bar, feed.atr[i]);
      StopsKeepFunding(setup.rules, s.position.value, bar, feed.atr[i]);
      var hit := Resolve(setup.minutes, p, bar.high, bar.low, bar.time, end);
      if hit.Some? {
        HitIsLevel(setup.minutes, p, bar.high, bar.low, bar.time, end);
        ClosePays(setup, feed, s, p.trade, i, bar.time, hit.value.1, hit.value.0, end);
      } else {
        HoldingPays(setup, feed.bars, s.position.value, p, bar.time);
        AccruePays(setup, feed.bars, i, p);
        var q := Accrue(setup, p, bar.time, end, bar.close);
        ExcursionKeepsFunding(q, bar.high, bar.low);
        HoldingPays(setup, feed.bars, q, Excursion(q, bar.high, bar.low), end);
      }
    }
  }

  lemma SignalPays(setup: Setup, feed: Feed, i: nat, s: State)
    requires feed.Aligned() && i < |feed.bars| && FundingKept(setup, feed, s, BarEnd(feed.bars, i))
    ensures FundingKept(setup, feed, Signal(setup, feed, i, s), BarEnd(feed.bars, i))
  {
    hide PaidUpTo, PaidExactly, Close;
    if s.position.Some? && i + 1 < |feed.bars| {
      var t, next := s.position.value.trade, feed.bars[i + 1];
      ClosePays(setup, feed, s, t, i + 1, next.time, next.open, TimeExit, next.time);
      ClosePays(setup, feed, s, t, i + 1, next.time, next.open, OppositeSignal, next.time);
    }
  }

  lemma {:induction false} EveryBarPays(setup: Setup, feed: Feed, k: nat)
    requires feed.Aligned() && Increasing(feed.bars) && 1 <= k <= |feed.bars|
    ensures FundingKept(setup, feed, After(setup, feed, k), BarEnd(feed.bars, k - 1))
  {
    hide PaidUpTo, PaidExactly, Fill, Manage, Signal, Unrealised;
    if k > 1 { EveryBarPays(setup, feed, k - 1); }
    var s := After(setup, feed, k - 1);
    assert FundingKept(setup, feed, s, feed.bars[k - 1].time);
    FillPays(setup, feed, k - 1, s);
    var f := Fill(setup, feed, k - 1, s);
    ManagePays(setup, feed, k - 1, f);
    SignalPays(setup, feed, k - 1, Manage(setup, feed, k - 1, f));
  }

  /** In every run over bars of increasing time, every trade's funding is the sum of one charge for each
      settlement it was held over, and of no other.
    */
  lemma FundingIsChargedExactlyOnce(setup: Setup, feed: Feed)
    requires feed.Aligned() && Increasing(feed.bars) && |feed.bars| >= 2
    ensures forall j :: 0 <= j < |Run(setup, feed).trades| ==> PaidExactly(setup, feed.bars, Run(setup, feed).trades[j])
  {
    hide PaidUpTo, PaidExactly, Close, After;
    var n := |feed.bars|;
    EveryBarPays(setup, feed, n);
    EveryBarKeeps(setup, feed, n);
    hide Kept;
    var s := After(setup, feed, n);
    if s.position.Some? {
      var last := n - 1;
      var bar := feed.bars[last];
      ClosePays(setup, feed, s, s.position.value.trade, last, bar.time, bar.close, EndOfData, bar.time);
    }
  }
}
