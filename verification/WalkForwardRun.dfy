/** A walk-forward run: fit on each window, test on the next stretch, chain the equity
    (packages/engine/quanta_engine/forward/walkforward.py).
  */
module WalkForwardRun {
  import opened Wrappers
  import opened Arithmetic
  import opened Num
  import opened Series
  import opened Market
  import opened Engine
  import opened Ledger
  import opened Strategies
  import opened NoLookahead
  import opened WalkForward

  type Params = map<string, real>

  // --- the grid --------------------------------------------------------------------------

  function Extended(partial: seq<Params>, name: string, values: seq<real>): seq<Params> {
    if |partial| == 0 then []
    else Extended(partial[..|partial| - 1], name, values) + EachValue(partial[|partial| - 1], name, values)
  }

  /** Every combination of the values, the first name varying slowest. */
  function Product(grid: seq<(string, seq<real>)>): seq<Params> {
    if |grid| == 0 then [map[]]
    else Extended(Product(grid[..|grid| - 1]), grid[|grid| - 1].0, grid[|grid| - 1].1)
  }

  /** expand_grid, over names in order; None stands for the ValueError on too many. */
  function ExpandGrid(grid: seq<(string, seq<real>)>): Option<seq<Params>> {
    var all := Product(grid);
    if |all| > MAX_COMBINATIONS then None else Some(all)
  }

  predicate DistinctNames(grid: seq<(string, seq<real>)>) {
    forall i, j :: 0 <= i < j < |grid| ==> grid[i].0 != grid[j].0
  }

  /** A value from each row, and nothing else. */
  ghost predicate Picks(p: Params, grid: seq<(string, seq<real>)>) {
    && (forall name :: name in p <==> exists i :: 0 <= i < |grid| && grid[i].0 == name)
    && (forall i :: 0 <= i < |grid| ==> grid[i].0 in p && p[grid[i].0] in grid[i].1)
  }

  function Size(grid: seq<(string, seq<real>)>): nat {
    if |grid| == 0 then 1 else Size(grid[..|grid| - 1]) * |grid[|grid| - 1].1|
  }

  function EachValue(partial: Params, name: string, values: seq<real>): (r: seq<Params>)
    ensures |r| == |values|
  {
    seq(|values|, i requires 0 <= i < |values| => partial[name := values[i]])
  }

  lemma {:induction false} InExtended(partial: seq<Params>, name: string, values: seq<real>, q: Params, v: real)
    requires q in partial && v in values
    ensures q[name := v] in Extended(partial, name, values)
  {
    var front, last := partial[..|partial| - 1], partial[|partial| - 1];
    if q == last {
      var i :| 0 <= i < |values| && values[i] == v;
      assert EachValue(last, name, values)[i] == q[name := v];
    } else {
      assert q in front;
      InExtended(front, name, values, q, v);
    }
  }

  lemma {:induction false} ExtendedFrom(partial: seq<Params>, name: string, values: seq<real>, p: Params) returns (q: Params, v: real)
    requires p in Extended(partial, name, values)
    ensures q in partial && v in values && p == q[name := v]
  {
    var front, last := partial[..|partial| - 1], partial[|partial| - 1];
    if p in Extended(front, name, values) {
      q, v := ExtendedFrom(front, name, values, p);
    } else {
      var i :| 0 <= i < |values| && EachValue(last, name, values)[i] == p;
      q, v := last, values[i];
    }
  }

  lemma {:induction false} ExtendedSize(partial: seq<Params>, name: string, values: seq<real>)
    ensures |Extended(partial, name, values)| == |partial| * |values|
  {
    if |partial| > 0 {
      ExtendedSize(partial[..|partial| - 1], name, values);
      OneMoreTime(|partial| - 1, |values|);
    }
  }

  lemma OneMoreTime(a: int, b: int)
    ensures (a + 1) * b == a * b + b
  {
  }

  lemma PicksExtends(p: Params, grid: seq<(string, seq<real>)>, q: Params, v: real)
    requires |grid| > 0 && DistinctNames(grid) && v in grid[|grid| - 1].1 && Picks(q, grid[..|grid| - 1])
    requires p == q[grid[|grid| - 1].0 := v]
    ensures Picks(p, grid)
  {
    var front, last := grid[..|grid| - 1], grid[|grid| - 1];
    forall name | name in p ensures exists i :: 0 <= i < |grid| && grid[i].0 == name {
      if name in q { var i :| 0 <= i < |front| && front[i].0 == name; assert grid[i].0 == name; } else { assert grid[|grid| - 1].0 == name; }
    }
    forall i | 0 <= i < |grid| ensures grid[i].0 in p && p[grid[i].0] in grid[i].1 {
      if i < |front| { assert front[i] == grid[i]; }
    }
  }

  lemma PicksFront(p: Params, grid: seq<(string, seq<real>)>) returns (q: Params)
    requires |grid| > 0 && DistinctNames(grid) && Picks(p, grid)
    ensures Picks(q, grid[..|grid| - 1]) && p == q[grid[|grid| - 1].0 := p[grid[|grid| - 1].0]]
  {
    var front, last := grid[..|grid| - 1], grid[|grid| - 1];
    q := p - {last.0};
    forall name | name in q ensures exists i :: 0 <= i < |front| && front[i].0 == name {
      var i :| 0 <= i < |grid| && grid[i].0 == name;
      assert front[i].0 == name;
    }
    forall i | 0 <= i < |front| ensures front[i].0 in q && q[front[i].0] in front[i].1 { assert front[i] == grid[i]; }
  }

  lemma {:induction false} ProductPicks(grid: seq<(string, seq<real>)>, p: Params)
    requires DistinctNames(grid) && p in Product(grid)
    ensures Picks(p, grid)
  {
    hide Picks;
    if |grid| == 0 {
      NoNames(p, grid);
    } else {
      var front, last := grid[..|grid| - 1], grid[|grid| - 1];
      var q, v := ExtendedFrom(Product(front), last.0, last.1, p);
      ProductPicks(front, q);
      PicksExtends(p, grid, q, v);
    }
  }

  lemma NoNames(p: Params, grid: seq<(string, seq<real>)>)
    requires grid == []
    ensures Picks(p, grid) <==> p == map[]
  {
    if Picks(p, grid) { assert p.Keys == {}; }
  }

  lemma {:induction false} PicksInProduct(grid: seq<(string, seq<real>)>, p: Params)
    requires DistinctNames(grid) && Picks(p, grid)
    ensures p in Product(grid)
  {
    if |grid| == 0 {
      NoNames(p, grid);
    } else {
      var front, last := grid[..|grid| - 1], grid[|grid| - 1];
      var q := PicksFront(p, grid);
      PicksInProduct(front, q);
      assert grid[|grid| - 1] == last;
      InExtended(Product(front), last.0, last.1, q, p[last.0]);
    }
  }

  lemma {:induction false} ProductSize(grid: seq<(string, seq<real>)>)
    ensures |Product(grid)| == Size(grid)
  {
    if |grid| > 0 {
      ProductSize(grid[..|grid| - 1]);
      ExtendedSize(Product(grid[..|grid| - 1]), grid[|grid| - 1].0, grid[|grid| - 1].1);
    }
  }

  /** The grid search tries exactly the combinations that take one value of each parameter, and is refused
      exactly when there are more than the limit.
    */
  lemma GridIsExact(grid: seq<(string, seq<real>)>, p: Params)
    requires DistinctNames(grid)
    ensures ExpandGrid(grid).None? <==> Size(grid) > MAX_COMBINATIONS
    ensures ExpandGrid(grid).Some? ==> (p in ExpandGrid(grid).value <==> Picks(p, grid))
  {
    hide Picks, Product, Size, DistinctNames;
    ProductSize(grid);
    if p in Product(grid) { ProductPicks(grid, p); }
    if Picks(p, grid) { PicksInProduct(grid, p); }
  }

  // --- fitting -----------------------------------------------------------------------------

  function WithParams(strategy: Strategy, params: Params): Strategy {
    strategy.(params := strategy.params + params)
  }

  function NetPercent(config: Config, s: State): real
    requires config.initialCapital > 0.0
  {
    var end := if |s.path| > 0 then s.path[|s.path| - 1] else config.initialCapital;
    (end - config.initialCapital) / config.initialCapital * 100.0
  }

  /** The best set so far; no score stands for minus infinity. */
  datatype Choice = Choice(params: Params, score: Option<real>)

  datatype Job = Job(strategy: Strategy, config: Config, funding: seq<FundingEvent>, std: Cells -> Num) {
    predicate Valid() {
      strategy.rules.Valid() && config.Valid()
    }

    function Backtest(params: Params, bars: Bars): Result<State, RunError>
      requires Valid()
    {
      RunStrategy(WithParams(strategy, params), config, funding, [], bars, std)
    }
  }

  function Considered(job: Job, c: Choice, candidate: Params, trial: State): Choice
    requires job.Valid()
  {
    if |trial.trades| < MIN_TRADES_FOR_SELECTION then c
    else
      var score := NetPercent(job.config, trial);
      if c.score.None? || score > c.score.value then Choice(job.strategy.params + candidate, Some(score)) else c
  }

  /** The choice among the first n candidates. */
  function Chosen(job: Job, bars: Bars, candidates: seq<Params>, n: nat): Result<Choice, RunError>
    requires job.Valid() && n <= |candidates|
  {
    if n == 0 then Ok(Choice(job.strategy.params, None))
    else
      var before :- Chosen(job, bars, candidates, n - 1);
      var trial :- job.Backtest(candidates[n - 1], bars);
      Ok(Considered(job, before, candidates[n - 1], trial))
  }

  /** A candidate that ran and traded enough to choose by. */
  predicate Eligible(job: Job, bars: Bars, candidate: Params)
    requires job.Valid()
  {
    var trial := job.Backtest(candidate, bars);
    trial.Ok? && |trial.value.trades| >= MIN_TRADES_FOR_SELECTION
  }

  function ScoreOf(job: Job, bars: Bars, candidate: Params): real
    requires job.Valid() && Eligible(job, bars, candidate)
  {
    NetPercent(job.config, job.Backtest(candidate, bars).value)
  }

  /** The choice is this candidate, with its score. */
  predicate PickedFrom(job: Job, bars: Bars, c: Choice, candidate: Params)
    requires job.Valid()
  {
    Eligible(job, bars, candidate) && c == Choice(job.strategy.params + candidate, Some(ScoreOf(job, bars, candidate)))
  }

  /** Every candidate before it that traded enough scored less. */
  predicate AheadOf(job: Job, bars: Bars, candidates: seq<Params>, k: nat)
    requires job.Valid() && k < |candidates| && Eligible(job, bars, candidates[k])
  {
    forall j :: 0 <= j < k && Eligible(job, bars, candidates[j]) ==>
      ScoreOf(job, bars, candidates[j]) < ScoreOf(job, bars, candidates[k])
  }

  /** The parameters are those of the first best among those that traded enough, or the strategy's own. */
  lemma {:induction false} ChosenIsBest(job: Job, bars: Bars, candidates: seq<Params>, n: nat)
    requires job.Valid() && n <= |candidates| && Chosen(job, bars, candidates, n).Ok?
    ensures var c := Chosen(job, bars, candidates, n).value;
      && (c.score.None? ==> c.params == job.strategy.params)
      && (forall k :: 0 <= k < n && Eligible(job, bars, candidates[k]) ==>
            c.score.Some? && ScoreOf(job, bars, candidates[k]) <= c.score.value)
      && (c.score.Some? ==> exists k :: 0 <= k < n && PickedFrom(job, bars, c, candidates[k]) && AheadOf(job, bars, candidates, k))
  {
    hide RunStrategy, NetPercent, Job.Valid;
    if n > 0 { ChosenIsBest(job, bars, candidates, n - 1); }
  }

  method Fit(job: Job, bars: Bars, candidates: seq<Params>) returns (choice: Result<Choice, RunError>)
    requires job.Valid()
    ensures choice == Chosen(job, bars, candidates, |candidates|)
  {
    hide RunStrategy, NetPercent;
    var best := Choice(job.strategy.params, None);
    for n := 0 to |candidates|
      invariant Chosen(job, bars, candidates, n) == Ok(best)
      invariant forall k :: 0 <= k < n ==> Chosen(job, bars, candidates, k).Ok?
    {
      var trial := job.Backtest(candidates[n], bars);
      if trial.Err? {
        ErrSticks(job, bars, candidates, n + 1, |candidates|);
        return Err(trial.error);
      }
      if |trial.value.trades| < MIN_TRADES_FOR_SELECTION {
        continue;
      }
      var score := NetPercent(job.config, trial.value);
      if best.score.None? || score > best.score.value {
        best := Choice(job.strategy.params + candidates[n], Some(score));
      }
    }
    return Ok(best);
  }

  lemma {:induction false} ErrSticks(job: Job, bars: Bars, candidates: seq<Params>, k: nat, n: nat)
    requires job.Valid() && k <= n <= |candidates| && Chosen(job, bars, candidates, k).Err?
    ensures Chosen(job, bars, candidates, n) == Chosen(job, bars, candidates, k)
  {
    hide RunStrategy, NetPercent;
    if k < n { ErrSticks(job, bars, candidates, k, n - 1); }
  }

  // --- one window -----------------------------------------------------------------------------

  datatype WindowResult = WindowResult(
    window: Window, params: Params, inNet: real, outNet: real, trades: nat, selected: bool, path: seq<real>)

  /** Fit on the in-sample slice alone, then test on the slice after it. A slice of fewer than two bars skips
      the window.
    */
  function TestWindow(job: Job, bars: Bars, candidates: seq<Params>, w: Window): Result<WindowResult, RunError>
    requires job.Valid()
  {
    var inBars, outBars := MinuteSlice(bars, w.inStart, w.inEnd), MinuteSlice(bars, w.outStart, w.outEnd);
    if |inBars| < 2 || |outBars| < 2 then Ok(WindowResult(w, job.strategy.params, 0.0, 0.0, 0, false, []))
    else
      var c :- Chosen(job, inBars, candidates, |candidates|);
      var out :- job.Backtest(c.params, outBars);
      Ok(WindowResult(w, c.params, if c.score.Some? then c.score.value else 0.0, NetPercent(job.config, out),
                      |out.trades|, c.score.Some?, out.path))
  }

  function Results(job: Job, bars: Bars, candidates: seq<Params>, windows: seq<Window>, n: nat): Result<seq<WindowResult>, RunError>
    requires job.Valid() && n <= |windows|
  {
    if n == 0 then Ok([])
    else
      var before :- Results(job, bars, candidates, windows, n - 1);
      var r :- TestWindow(job, bars, candidates, windows[n - 1]);
      Ok(before + [r])
  }

  /** No window sees past its own test: bars at or after its end change neither its result nor an earlier one. */
  lemma {:induction false} WindowsSeeNoFuture(job: Job, xs: Bars, ys: Bars, candidates: seq<Params>, windows: seq<Window>,
                                              start: int, inMs: nat, outMs: nat, n: nat, limit: int)
    requires job.Valid() && Rolling(windows, start, inMs, outMs) && n <= |windows|
    requires Before(xs, limit) == Before(ys, limit) && (n > 0 ==> windows[n - 1].outEnd <= limit)
    ensures Results(job, xs, candidates, windows, n) == Results(job, ys, candidates, windows, n)
  {
    hide TestWindow, Before, Job.Valid;
    if n > 0 {
      WindowSteps(start, inMs, outMs, n - 1);
      if n > 1 { WindowSteps(start, inMs, outMs, n - 2); }
      WindowsSeeNoFuture(job, xs, ys, candidates, windows, start, inMs, outMs, n - 1, limit);
      WindowSeesNoFuture(job, xs, ys, candidates, windows[n - 1], limit);
    }
  }

  lemma WindowSeesNoFuture(job: Job, xs: Bars, ys: Bars, candidates: seq<Params>, w: Window, limit: int)
    requires job.Valid() && Before(xs, limit) == Before(ys, limit) && w.inEnd <= limit && w.outEnd <= limit
    ensures TestWindow(job, xs, candidates, w) == TestWindow(job, ys, candidates, w)
  {
    hide MinuteSlice, Before, Chosen, Job.Backtest, Job.Valid, NetPercent;
    SliceLocal(xs, w.inStart, w.inEnd, limit);
    SliceLocal(ys, w.inStart, w.inEnd, limit);
    SliceLocal(xs, w.outStart, w.outEnd, limit);
    SliceLocal(ys, w.outStart, w.outEnd, limit);
  }

  // --- what a window comes to ---------------------------------------------------------------------

  /** The score: what the account gained, in percent of the capital, which is all its trades together. */
  lemma ScoresAreGains(job: Job, params: Params, bars: Bars)
    requires job.Valid() && job.Backtest(params, bars).Ok?
    ensures var s := job.Backtest(params, bars).value;
      && |s.path| > 0 && NetPercent(job.config, s) * job.config.initialCapital == 100.0 * (s.path[|s.path| - 1] - job.config.initialCapital)
      && s.path[|s.path| - 1] - job.config.initialCapital == NetTotal(s.trades)
  {
    hide Run, MakeFeed, InOrder, NetPercent;
    var strategy := WithParams(job.strategy, params);
    var feed := MakeFeed(strategy, bars, job.std).value;
    EveryRunBalances(Setup(strategy.rules, job.config, job.funding, []), feed);
    PercentMeans(job.config, job.Backtest(params, bars).value);
  }

  lemma PercentMeans(config: Config, s: State)
    requires config.initialCapital > 0.0 && |s.path| > 0
    ensures NetPercent(config, s) * config.initialCapital == 100.0 * (s.path[|s.path| - 1] - config.initialCapital)
  {
    var gain, capital := s.path[|s.path| - 1] - config.initialCapital, config.initialCapital;
    var q := gain / capital;
    assert q * capital == gain;
    assert (q * 100.0) * capital == 100.0 * (q * capital);
  }

  /** A candidate replaces the strategy's parameters of the same names and leaves the others, and nothing else. */
  lemma CandidatesMean(strategy: Strategy, params: Params, name: string)
    ensures var s := WithParams(strategy, params);
      && (name in s.params <==> name in strategy.params || name in params)
      && (name in params ==> s.params[name] == params[name])
      && (name !in params && name in strategy.params ==> s.params[name] == strategy.params[name])
      && s.longEntry == strategy.longEntry && s.shortEntry == strategy.shortEntry && s.rules == strategy.rules
  {
  }

  /** A window is fitted on the bars from its start up to the test and tested on those from there up to its end,
      with the parameters chosen; with fewer than two bars in either it is passed over.
    */
  lemma WindowsMean(job: Job, bars: Bars, candidates: seq<Params>, w: Window, a: nat, b: nat, c: nat, d: nat)
    requires job.Valid() && NonDecreasing(bars) && w.inStart <= w.inEnd && w.outStart <= w.outEnd
    requires Between(bars, w.inStart, w.inEnd, a, b) && Between(bars, w.outStart, w.outEnd, c, d)
    ensures var fitted, tested := bars[a..b], bars[c..d];
      var r, choice := TestWindow(job, bars, candidates, w), Chosen(job, fitted, candidates, |candidates|);
      if |fitted| < 2 || |tested| < 2 then
        r.Ok? && r.value.path == [] && !r.value.selected && r.value.params == job.strategy.params && r.value.trades == 0
        && r.value.inNet == 0.0 && r.value.outNet == 0.0
      else if choice.Err? then r == Err(choice.error)
      else
        var out := job.Backtest(choice.value.params, tested);
        if out.Err? then r == Err(out.error)
        else
          && r.Ok? && r.value.window == w && r.value.params == choice.value.params && r.value.path == out.value.path
          && r.value.trades == |out.value.trades| && r.value.outNet == NetPercent(job.config, out.value)
          && (r.value.selected <==> choice.value.score.Some?)
          && r.value.inNet == (if choice.value.score.Some? then choice.value.score.value else 0.0)
  {
    SliceBetween(bars, w.inStart, w.inEnd, a, b);
    SliceBetween(bars, w.outStart, w.outEnd, c, d);
    hide MinuteSlice, Chosen, Job.Backtest, NetPercent, NonDecreasing, Job.Valid, Between;
  }

  // --- the chained curve ------------------------------------------------------------------------

  datatype Chain = Chain(multiplier: real, curve: seq<real>)

  function Growth(path: seq<real>): real
    requires |path| > 0 && path[0] != 0.0
  {
    path[|path| - 1] / path[0]
  }

  function Rebased(equity: real, start: real, multiplier: real, capital: real): real
    requires start != 0.0
  {
    multiplier * (equity / start) * capital
  }

  /** A path scaled to follow on from everything before it. */
  function Scaled(path: seq<real>, multiplier: real, capital: real): (r: seq<real>)
    requires |path| > 0 && path[0] != 0.0
    ensures |r| == |path|
  {
    seq(|path|, i requires 0 <= i < |path| => Rebased(path[i], path[0], multiplier, capital))
  }

  function Onto(c: Chain, path: seq<real>, capital: real): Chain
    requires |path| > 0 ==> path[0] != 0.0
  {
    if |path| == 0 then c else Chain(c.multiplier * Growth(path), c.curve + Scaled(path, c.multiplier, capital))
  }

  /** Paths that start from something. */
  predicate Started(paths: seq<seq<real>>) {
    forall k :: 0 <= k < |paths| && |paths[k]| > 0 ==> paths[k][0] != 0.0
  }

  function Chained(paths: seq<seq<real>>, capital: real, n: nat): Chain
    requires n <= |paths| && Started(paths)
  {
    if n == 0 then Chain(1.0, []) else Onto(Chained(paths, capital, n - 1), paths[n - 1], capital)
  }

  method ChainCurve(paths: seq<seq<real>>, capital: real) returns (chain: Chain)
    requires Started(paths)
    ensures chain == Chained(paths, capital, |paths|)
  {
    hide Rebased;
    var multiplier := 1.0;
    var curve: seq<real> := [];
    for k := 0 to |paths|
      invariant Chained(paths, capital, k) == Chain(multiplier, curve)
    {
      var path := paths[k];
      if |path| > 0 {
        var part: seq<real> := [];
        for i := 0 to |path|
          invariant part == Scaled(path, multiplier, capital)[..i]
        {
          part := part + [Rebased(path[i], path[0], multiplier, capital)];
        }
        curve := curve + part;
        multiplier := multiplier * Growth(path);
      }
    }
    return Chain(multiplier, curve);
  }

  /** The product of the growths of the windows that were tested. */
  function TotalGrowth(paths: seq<seq<real>>, n: nat): real
    requires n <= |paths| && Started(paths)
  {
    if n == 0 then 1.0
    else TotalGrowth(paths, n - 1) * if |paths[n - 1]| > 0 then Growth(paths[n - 1]) else 1.0
  }

  lemma ScaledEnds(path: seq<real>, multiplier: real, capital: real)
    requires |path| > 0 && path[0] != 0.0
    ensures Scaled(path, multiplier, capital)[0] == multiplier * capital
    ensures Scaled(path, multiplier, capital)[|path| - 1] == multiplier * Growth(path) * capital
  {
    assert path[0] / path[0] == 1.0;
  }

  /** The curve compounds: it starts at the initial capital, each tested window takes it up where the last one
      left it, and it ends at the capital times the growths of all of them.
    */
  lemma {:induction false} ChainCompounds(paths: seq<seq<real>>, capital: real, n: nat)
    requires n <= |paths| && Started(paths)
    ensures var c := Chained(paths, capital, n);
      && c.multiplier == TotalGrowth(paths, n)
      && (|c.curve| == 0 ==> c.multiplier == 1.0)
      && (|c.curve| > 0 ==> c.curve[0] == capital && c.curve[|c.curve| - 1] == c.multiplier * capital)
    ensures n > 0 && |paths[n - 1]| > 0 ==>
      var before, c := Chained(paths, capital, n - 1), Chained(paths, capital, n);
      && |before.curve| < |c.curve| && c.curve[..|before.curve|] == before.curve
      && (|before.curve| > 0 ==> c.curve[|before.curve|] == before.curve[|before.curve| - 1])
  {
    hide Scaled, Growth, Started, Onto, Chained;
    ChainUnfolds(paths, capital, n);
    if n > 0 {
      ChainCompounds(paths, capital, n - 1);
      StartedAt(paths, n - 1);
      OntoCompounds(Chained(paths, capital, n - 1), paths[n - 1], capital);
    }
  }

  lemma ChainUnfolds(paths: seq<seq<real>>, capital: real, n: nat)
    requires n <= |paths| && Started(paths)
    ensures n == 0 ==> Chained(paths, capital, n) == Chain(1.0, [])
    ensures n > 0 && |paths[n - 1]| > 0 ==> paths[n - 1][0] != 0.0
    ensures n > 0 ==> Chained(paths, capital, n) == Onto(Chained(paths, capital, n - 1), paths[n - 1], capital)
  {
    hide Onto;
  }

  lemma StartedAt(paths: seq<seq<real>>, k: nat)
    requires k < |paths| && Started(paths)
    ensures |paths[k]| > 0 ==> paths[k][0] != 0.0
  {
  }

  lemma OntoCompounds(c: Chain, path: seq<real>, capital: real)
    requires |path| > 0 ==> path[0] != 0.0
    ensures Onto(c, path, capital).multiplier == c.multiplier * if |path| > 0 then Growth(path) else 1.0
    ensures |path| == 0 ==> Onto(c, path, capital) == c
    ensures |path| > 0 ==>
      var d := Onto(c, path, capital);
      && |c.curve| < |d.curve| && d.curve[..|c.curve|] == c.curve
      && d.curve[|c.curve|] == c.multiplier * capital && d.curve[|d.curve| - 1] == d.multiplier * capital
  {
    hide Scaled, Growth;
    if |path| > 0 { ScaledEnds(path, c.multiplier, capital); }
  }

  // --- where a path starts ------------------------------------------------------------------------

  function PathsOf(results: seq<WindowResult>): (r: seq<seq<real>>)
    ensures |r| == |results|
  {
    seq(|results|, i requires 0 <= i < |results| => results[i].path)
  }

  lemma BacktestStarts(job: Job, params: Params, bars: Bars)
    requires job.Valid() && job.Backtest(params, bars).Ok?
    ensures |job.Backtest(params, bars).value.path| >= 2
    ensures job.Backtest(params, bars).value.path[0] == job.config.initialCapital
  {
    hide Run, MakeFeed, Balanced, InOrder;
    var s := WithParams(job.strategy, params);
    var feed := MakeFeed(s, bars, job.std).value;
    EveryRunBalances(Setup(s.rules, job.config, job.funding, []), feed);
  }

  /** Every tested window's path starts from the initial capital, so the chain never divides by zero. */
  lemma {:induction false} ResultsStarted(job: Job, bars: Bars, candidates: seq<Params>, windows: seq<Window>, n: nat)
    requires job.Valid() && n <= |windows| && Results(job, bars, candidates, windows, n).Ok?
    ensures Started(PathsOf(Results(job, bars, candidates, windows, n).value))
  {
    hide Job.Backtest, Job.Valid, TestWindow;
    if n > 0 {
      ResultsStarted(job, bars, candidates, windows, n - 1);
      var before, r := Results(job, bars, candidates, windows, n - 1).value, TestWindow(job, bars, candidates, windows[n - 1]).value;
      WindowStarts(job, bars, candidates, windows[n - 1]);
      var all := PathsOf(before + [r]);
      forall k | 0 <= k < |all| && |all[k]| > 0 ensures all[k][0] != 0.0 {
        if k < |before| { assert PathsOf(before)[k] == all[k]; }
      }
    }
  }

  lemma WindowStarts(job: Job, bars: Bars, candidates: seq<Params>, w: Window)
    requires job.Valid() && TestWindow(job, bars, candidates, w).Ok?
    ensures var path := TestWindow(job, bars, candidates, w).value.path;
      |path| > 0 ==> path[0] == job.config.initialCapital > 0.0
  {
    hide Job.Backtest, Chosen, MinuteSlice, NetPercent;
    var r := TestWindow(job, bars, candidates, w).value;
    if |r.path| > 0 { BacktestStarts(job, r.params, MinuteSlice(bars, w.outStart, w.outEnd)); }
  }

  // --- the run ------------------------------------------------------------------------------------

  datatype Outcome = Outcome(windows: seq<WindowResult>, chain: Chain, totalPercent: Option<real>)

  datatype Failure = NeedsBars | BadLengths | TooManyCombinations | NoWindow | Backtest(error: RunError)

  /** The windows of a run over bars, given lengths of at least a day. */
  ghost predicate WindowsOf(windows: seq<Window>, bars: Bars, inDays: int, outDays: int, maxWindows: int)
    requires |bars| > 0 && inDays >= 1 && outDays >= 1
  {
    Fills(windows, bars[0].time, bars[|bars| - 1].time, inDays * MS_PER_DAY, outDays * MS_PER_DAY, maxWindows)
  }

  /** What the tested windows come to: the chain over their paths, and the total over its curve, missing when no
      window was tested.
    */
  predicate Totals(outcome: Outcome, capital: real) {
    var paths := PathsOf(outcome.windows);
    && Started(paths) && outcome.chain == Chained(paths, capital, |paths|)
    && outcome.totalPercent == if |outcome.chain.curve| > 0 then Some(InPercent(TotalGrowth(paths, |paths|))) else None
  }

  /** The whole run: which refusal comes when, and otherwise the results of the windows and their totals. */
  method RunWalkForward(job: Job, bars: Bars, grid: seq<(string, seq<real>)>, inDays: int, outDays: int, maxWindows: int)
    returns (outcome: Result<Outcome, Failure>)
    requires job.Valid()
    ensures outcome == Err(NeedsBars) <==> |bars| < 2
    ensures outcome == Err(TooManyCombinations) <==> |bars| >= 2 && ExpandGrid(grid).None?
    ensures outcome == Err(BadLengths) <==> |bars| >= 2 && ExpandGrid(grid).Some? && (inDays < 1 || outDays < 1)
    ensures |bars| >= 2 && ExpandGrid(grid).Some? && inDays >= 1 && outDays >= 1 ==>
      exists windows :: WindowsOf(windows, bars, inDays, outDays, maxWindows)
    ensures |bars| >= 2 && ExpandGrid(grid).Some? && inDays >= 1 && outDays >= 1 ==>
      forall windows :: WindowsOf(windows, bars, inDays, outDays, maxWindows) ==>
        var results := Results(job, bars, ExpandGrid(grid).value, windows, |windows|);
        if |windows| == 0 then outcome == Err(NoWindow)
        else if results.Err? then outcome == Err(Backtest(results.error))
        else outcome.Ok? && outcome.value.windows == results.value && Totals(outcome.value, job.config.initialCapital)
  {
    hide Results, Totals, Product, Fills;
    if |bars| < 2 {
      return Err(NeedsBars);
    }
    var candidates := ExpandGrid(grid);
    if candidates.None? {
      return Err(TooManyCombinations);
    }
    var built := BuildWindows(bars[0].time, bars[|bars| - 1].time, inDays, outDays, maxWindows);
    if built.None? {
      return Err(BadLengths);
    }
    var windows := built.value;
    assert WindowsOf(windows, bars, inDays, outDays, maxWindows);
    OneSetOfWindows(windows, bars, inDays, outDays, maxWindows);
    if |windows| == 0 {
      return Err(NoWindow);
    }
    var tested := TestAll(job, bars, candidates.value, windows);
    if tested.Err? {
      return Err(Backtest(tested.error));
    }
    ResultsStarted(job, bars, candidates.value, windows, |windows|);
    var result := ChainAll(tested.value, job.config.initialCapital);
    return Ok(result);
  }

  /** A gain in percent of the capital. */
  predicate IsGain(percent: real, last: real, capital: real) {
    percent * capital == 100.0 * (last - capital)
  }

  /** The total is what the chained curve gained. */
  lemma TotalsMean(outcome: Outcome, capital: real)
    requires Totals(outcome, capital) && capital > 0.0
    ensures outcome.totalPercent.Some? <==> |outcome.chain.curve| > 0
    ensures outcome.totalPercent.Some? ==>
      IsGain(outcome.totalPercent.value, outcome.chain.curve[|outcome.chain.curve| - 1], capital)
  {
    CurveGains(PathsOf(outcome.windows), capital);
    hide Chained, Started, TotalGrowth, PathsOf, IsGain, InPercent;
  }

  function InPercent(growth: real): real {
    (growth - 1.0) * 100.0
  }

  lemma CurveGains(paths: seq<seq<real>>, capital: real)
    requires Started(paths)
    ensures var curve := Chained(paths, capital, |paths|).curve;
      |curve| > 0 ==> IsGain(InPercent(TotalGrowth(paths, |paths|)), curve[|curve| - 1], capital)
  {
    ChainCompounds(paths, capital, |paths|);
    hide Chained, Started, TotalGrowth, IsGain, InPercent;
    var c := Chained(paths, capital, |paths|);
    if |c.curve| > 0 { Gains(TotalGrowth(paths, |paths|), capital, c.curve[|c.curve| - 1]); }
  }

  lemma Gains(growth: real, capital: real, last: real)
    requires last == growth * capital
    ensures IsGain(InPercent(growth), last, capital)
  {
    assert (growth - 1.0) * capital == growth * capital - capital;
  }

  lemma OneSetOfWindows(windows: seq<Window>, bars: Bars, inDays: int, outDays: int, maxWindows: int)
    requires |bars| > 0 && inDays >= 1 && outDays >= 1 && WindowsOf(windows, bars, inDays, outDays, maxWindows)
    ensures forall other :: WindowsOf(other, bars, inDays, outDays, maxWindows) ==> other == windows
  {
    hide Fills;
    forall other | WindowsOf(other, bars, inDays, outDays, maxWindows) ensures other == windows {
      FillsOneWay(other, windows, bars[0].time, bars[|bars| - 1].time, inDays * MS_PER_DAY, outDays * MS_PER_DAY, maxWindows);
    }
  }

  /** The chain over the results, and the total over it. */
  method ChainAll(results: seq<WindowResult>, capital: real) returns (outcome: Outcome)
    requires Started(PathsOf(results)) && capital > 0.0
    ensures outcome.windows == results && Totals(outcome, capital)
  {
    hide Chained, Started, TotalGrowth;
    var paths := PathsOf(results);
    var chain := ChainCurve(paths, capital);
    var total := TotalPercent(paths, chain, capital);
    outcome := Outcome(results, chain, total);
  }

  /** The loop over the windows. */
  method TestAll(job: Job, bars: Bars, candidates: seq<Params>, windows: seq<Window>) returns (results: Result<seq<WindowResult>, RunError>)
    requires job.Valid()
    ensures results == Results(job, bars, candidates, windows, |windows|)
  {
    hide TestWindow, Job.Valid;
    var done: seq<WindowResult> := [];
    for n := 0 to |windows|
      invariant Results(job, bars, candidates, windows, n) == Ok(done)
    {
      var r := TestWindow(job, bars, candidates, windows[n]);
      if r.Err? {
        FailureSticks(job, bars, candidates, windows, n + 1, |windows|);
        return Err(r.error);
      }
      done := done + [r.value];
    }
    return Ok(done);
  }

  lemma {:induction false} FailureSticks(job: Job, bars: Bars, candidates: seq<Params>, windows: seq<Window>, k: nat, n: nat)
    requires job.Valid() && k <= n <= |windows| && Results(job, bars, candidates, windows, k).Err?
    ensures Results(job, bars, candidates, windows, n) == Results(job, bars, candidates, windows, k)
  {
    hide TestWindow, Job.Valid;
    if k < n { FailureSticks(job, bars, candidates, windows, k, n - 1); }
  }

  method TotalPercent(paths: seq<seq<real>>, chain: Chain, capital: real) returns (total: Option<real>)
    requires Started(paths) && chain == Chained(paths, capital, |paths|) && capital > 0.0
    ensures total == if |chain.curve| > 0 then Some((TotalGrowth(paths, |paths|) - 1.0) * 100.0) else None
  {
    hide Chained, Started, TotalGrowth;
    ChainCompounds(paths, capital, |paths|);
    if |chain.curve| == 0 {
      return None;
    }
    var last := chain.curve[|chain.curve| - 1];
    PercentOfCapital(last, TotalGrowth(paths, |paths|), capital);
    var percent := (last - capital) / capital * 100.0;
    return Some(percent);
  }

  lemma PercentOfCapital(last: real, multiplier: real, capital: real)
    requires capital > 0.0 && last == multiplier * capital
    ensures (last - capital) / capital * 100.0 == (multiplier - 1.0) * 100.0
  {
    DivideBack(last - capital, capital);
    Cancel((last - capital) / capital, multiplier - 1.0, capital);
  }
}
