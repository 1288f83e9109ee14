/** The statements a rule is made of (packages/engine/quanta_engine/discover/primitives.py). */
module Primitives {
  import opened Combinatorics

  datatype Scale = Price | Bounded100 | Centered0 | Centered1 | Centered100 | Volatility | Volume

  function ScaleLevels(scale: Scale): seq<real> {
    match scale
    case Bounded100 => [30.0, 50.0, 70.0]
    case Centered0 => [0.0]
    case Centered1 => [1.0]
    case Centered100 => [-100.0, 0.0, 100.0]
    case _ => []
  }

  predicate Oscillates(scale: Scale) {
    scale.Bounded100? || scale.Centered0? || scale.Centered1? || scale.Centered100?
  }

  /** One line on the chart; `source` is the chip that publishes it. */
  datatype Line = Line(key: string, source: string, isPrice: bool, scale: Scale)

  datatype Primitive =
    | Slope(line: Line, rising: bool)
    | Turn(line: Line, up: bool)
    | Extreme(line: Line, high: bool)
    | OnSide(line: Line, level: real, above: bool)
    | LevelCross(line: Line, level: real, above: bool)
    | Position(left: Line, right: Line, above: bool)
    | PairCross(left: Line, right: Line, above: bool)
    | Spread(left: Line, right: Line, converging: bool)
    | Stack(scale: Scale, order: seq<Line>)
    | Divergence(price: Line, other: Line, hidden: bool, bullish: bool)
  {
    predicate IsTrigger() {
      Turn? || Extreme? || LevelCross? || PairCross? || Divergence?
    }

    /** The lines the statement is about. */
    function Lines(): seq<Line> {
      match this
      case Slope(line, _) => [line]
      case Turn(line, _) => [line]
      case Extreme(line, _) => [line]
      case OnSide(line, _, _) => [line]
      case LevelCross(line, _, _) => [line]
      case Position(left, right, _) => [left, right]
      case PairCross(left, right, _) => [left, right]
      case Spread(left, right, _) => [left, right]
      case Stack(_, order) => order
      case Divergence(price, other, _, _) => [price, other]
    }

    /** What it makes a claim about. A turn shares the slope's subject, and a cross the level's or pair's. */
    function Subject(): Subject {
      match this
      case Slope(line, _) => OfSlope(line.key)
      case Turn(line, _) => OfSlope(line.key)
      case Extreme(line, _) => OfExtreme(line.key)
      case OnSide(line, level, _) => OfLevel(line.key, level)
      case LevelCross(line, level, _) => OfLevel(line.key, level)
      case Position(left, right, _) => OfPosition(left.key, right.key)
      case PairCross(left, right, _) => OfPosition(left.key, right.key)
      case Spread(left, right, _) => OfSpread(left.key, right.key)
      case Stack(scale, _) => OfStack(scale)
      case Divergence(price, other, hidden, bullish) => OfDivergence(price.key, other.key, hidden, bullish)
    }

    function Sources(): set<string> {
      set l | l in Lines() :: l.source
    }

    /** Every source but price is computed from it. */
    function IndicatorSources(): set<string> {
      set l | l in Lines() && !l.isPrice :: l.source
    }
  }

  datatype Subject =
    | OfSlope(key: string) | OfExtreme(key: string) | OfLevel(key: string, level: real)
    | OfPosition(left: string, right: string) | OfSpread(left: string, right: string)
    | OfStack(scale: Scale) | OfDivergence(left: string, right: string, hidden: bool, bullish: bool)

  // --- scale groups ------------------------------------------------------------

  datatype ScaleGroup = ScaleGroup(scale: Scale, members: seq<Line>)

  function MembersOf(series: seq<Line>, scale: Scale): seq<Line> {
    if |series| == 0 then []
    else if series[|series| - 1].scale == scale then MembersOf(series[..|series| - 1], scale) + [series[|series| - 1]]
    else MembersOf(series[..|series| - 1], scale)
  }

  /** The scales present, in the order their first line appears. */
  function ScalesOf(series: seq<Line>): seq<Scale> {
    if |series| == 0 then []
    else
      var before, scale := ScalesOf(series[..|series| - 1]), series[|series| - 1].scale;
      if scale in before then before else before + [scale]
  }

  function Groups(series: seq<Line>): seq<ScaleGroup> {
    var scales := ScalesOf(series);
    seq(|scales|, i requires 0 <= i < |scales| => ScaleGroup(scales[i], MembersOf(series, scales[i])))
  }

  method GroupByScale(series: seq<Line>) returns (groups: seq<ScaleGroup>)
    ensures groups == Groups(series)
  {
    var order: seq<Scale> := [];
    var members: map<Scale, seq<Line>> := map[];
    for i := 0 to |series|
      invariant order == ScalesOf(series[..i])
      invariant forall scale :: scale in members <==> scale in order
      invariant forall scale :: scale in members ==> members[scale] == MembersOf(series[..i], scale)
      invariant forall scale :: scale !in members ==> MembersOf(series[..i], scale) == []
    {
      assert series[..i + 1][..i] == series[..i];
      var line := series[i];
      if line.scale !in members {
        members := members[line.scale := []];
        order := order + [line.scale];
      }
      members := members[line.scale := members[line.scale] + [line]];
    }
    assert series[..|series|] == series;
    groups := seq(|order|, i requires 0 <= i < |order| => ScaleGroup(order[i], members[order[i]]));
  }

  // --- generation --------------------------------------------------------------

  function OfLevelLine(line: Line, level: real): seq<Primitive> {
    [OnSide(line, level, true), OnSide(line, level, false), LevelCross(line, level, true), LevelCross(line, level, false)]
  }

  function OfLevels(line: Line, levels: seq<real>): seq<Primitive> {
    if |levels| == 0 then [] else OfLevels(line, levels[..|levels| - 1]) + OfLevelLine(line, levels[|levels| - 1])
  }

  function OfLine(line: Line): seq<Primitive> {
    [Slope(line, true), Slope(line, false), Turn(line, true), Turn(line, false), Extreme(line, true), Extreme(line, false)]
    + OfLevels(line, ScaleLevels(line.scale))
  }

  function OfLines(series: seq<Line>): seq<Primitive> {
    if |series| == 0 then [] else OfLines(series[..|series| - 1]) + OfLine(series[|series| - 1])
  }

  function OfPair(pair: seq<Line>): seq<Primitive>
    requires |pair| == 2
  {
    var left, right := pair[0], pair[1];
    [Position(left, right, true), Position(left, right, false), PairCross(left, right, true), PairCross(left, right, false),
     Spread(left, right, true), Spread(left, right, false)]
  }

  function OfPairs(pairs: seq<seq<Line>>): seq<Primitive>
    requires forall i :: 0 <= i < |pairs| ==> |pairs[i]| == 2
  {
    if |pairs| == 0 then [] else OfPairs(pairs[..|pairs| - 1]) + OfPair(pairs[|pairs| - 1])
  }

  function PairsOf(members: seq<Line>): (pairs: seq<seq<Line>>)
    ensures forall i :: 0 <= i < |pairs| ==> |pairs[i]| == 2
  {
    forall c | c in Combinations(members, 2) ensures |c| == 2 { CombinationsAreSelections(members, 2, c); }
    Combinations(members, 2)
  }

  function OfGroups(groups: seq<ScaleGroup>): seq<Primitive> {
    if |groups| == 0 then []
    else OfGroups(groups[..|groups| - 1]) + OfPairs(PairsOf(groups[|groups| - 1].members))
  }

  function StacksOf(group: ScaleGroup): (r: seq<Primitive>) {
    if |group.members| < 3 then []
    else
      var orders := Permutations(group.members);
      seq(|orders|, i requires 0 <= i < |orders| => Stack(group.scale, orders[i]))
  }

  function OfStacks(groups: seq<ScaleGroup>): seq<Primitive> {
    if |groups| == 0 then [] else OfStacks(groups[..|groups| - 1]) + StacksOf(groups[|groups| - 1])
  }

  function OfDivergences(price: Line, series: seq<Line>): seq<Primitive> {
    if |series| == 0 then []
    else
      var line := series[|series| - 1];
      OfDivergences(price, series[..|series| - 1]) +
      (if line.scale == price.scale || !Oscillates(line.scale) then []
       else [Divergence(price, line, false, true), Divergence(price, line, false, false),
             Divergence(price, line, true, true), Divergence(price, line, true, false)])
  }

  function OfPrices(prices: seq<Line>, series: seq<Line>): seq<Primitive> {
    if |prices| == 0 then [] else OfPrices(prices[..|prices| - 1], series) + OfDivergences(prices[|prices| - 1], series)
  }

  function PricesOf(series: seq<Line>): seq<Line> {
    if |series| == 0 then []
    else if series[|series| - 1].isPrice then PricesOf(series[..|series| - 1]) + [series[|series| - 1]]
    else PricesOf(series[..|series| - 1])
  }

  /** Every primitive the lines support: per line, per pair, per group, then divergences. */
  function Build(series: seq<Line>): seq<Primitive> {
    OfLines(series) + OfGroups(Groups(series)) + OfStacks(Groups(series)) + OfPrices(PricesOf(series), series)
  }
}
