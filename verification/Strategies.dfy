/** A strategy run over bars: its conditions parsed and evaluated, its ATR, then the engine
    (packages/engine/quanta_engine/strategy.py and backtest/engine.py).
  */
module Strategies {
  import opened Wrappers
  import opened Num
  import opened Series
  import opened Syntax
  import opened Lexer
  import opened Grammar
  import opened Evaluator
  import opened Market
  import opened Engine

  datatype Strategy = Strategy(longEntry: Option<string>, shortEntry: Option<string>, rules: ExitRules, params: map<string, real>)

  datatype RunError =
    | NoEntry | NotParsed(error: ParseError) | UnknownReference | TooFewBars | NotEvaluated(problem: EvalError)

  const BAR_SERIES := {"open", "high", "low", "close", "volume", "hl2", "hlc3", "ohlc4"}

  // --- what an expression can read ------------------------------------------

  function ColumnCell(name: string, b: Bar): Num
    requires name in BAR_SERIES
  {
    if name == "open" then Fin(b.open) else if name == "high" then Fin(b.high) else if name == "low" then Fin(b.low)
    else if name == "close" then Fin(b.close) else if name == "volume" then Fin(b.volume)
    else if name == "hl2" then Fin((b.high + b.low) / 2.0)
    else if name == "hlc3" then Fin((b.high + b.low + b.close) / 3.0)
    else Fin((b.open + b.high + b.low + b.close) / 4.0)
  }

  function Column(name: string, bars: Bars): (r: Cells)
    requires name in BAR_SERIES
    ensures |r| == |bars|
  {
    seq(|bars|, i requires 0 <= i < |bars| => ColumnCell(name, bars[i]))
  }

  function BarContext(bars: Bars, params: map<string, real>, std: Cells -> Num): (c: Context)
    ensures c.Aligned() && c.size == |bars|
  {
    Context(|bars|, map name | name in BAR_SERIES :: Column(name, bars),
            map name | name in params :: Fin(params[name]), std)
  }

  /** The condition on every bar; a missing condition never holds. */
  function Condition(entry: Option<Node>, c: Context): (r: Result<seq<bool>, EvalError>)
    requires c.Aligned()
    ensures r.Ok? ==> |r.value| == c.size
  {
    if entry.Some? then EvaluateBool(c, entry.value) else Ok(seq(c.size, _ => false))
  }

  /** Cells as optional numbers. */
  function Optional(v: Cells): (r: seq<Option<real>>)
    ensures |r| == |v|
  {
    seq(|v|, i requires 0 <= i < |v| => if v[i].Fin? then Some(v[i].v) else None)
  }

  /** The ATR the exits need, or NaN throughout when they need none. */
  function AtrColumn(rules: ExitRules, bars: Bars): (r: seq<Option<real>>)
    requires rules.Valid()
    ensures |r| == |bars|
  {
    if rules.atrStopMultiple.Some? || rules.trailingAtrMultiple.Some? then
      Optional(Atr(Column("high", bars), Column("low", bars), Column("close", bars), rules.atrLength))
    else seq(|bars|, _ => None)
  }

  // --- a run ------------------------------------------------------------------

  function Compile(entry: Option<string>): Result<Option<Node>, RunError> {
    if entry.None? || entry.value == "" then Ok(None)
    else match Parse(entry.value)
      case Ok(n) => Ok(Some(n))
      case Err(e) => Err(NotParsed(e))
  }

  /** validate(): every name is a bar column or a parameter, every call a whitelisted function. */
  predicate Known(entry: Option<Node>, params: map<string, real>) {
    entry.Some? ==> forall n :: n in Preorder(entry.value) ==>
      && (n.Identifier? ==> n.name in BAR_SERIES || n.name in params)
      && (n.Call? ==> Arity(n.name).Some?)
  }

  /** The signals and ATR of a strategy over bars. */
  function MakeFeed(s: Strategy, bars: Bars, std: Cells -> Num): (r: Result<Feed, RunError>)
    requires s.rules.Valid()
    ensures r.Ok? ==> r.value.Aligned() && r.value.bars == bars && |bars| >= 2
  {
    var long :- Compile(s.longEntry);
    var short :- Compile(s.shortEntry);
    if long.None? && short.None? then Err(NoEntry)
    else if !Known(long, s.params) || !Known(short, s.params) then Err(UnknownReference)
    else if |bars| < 2 then Err(TooFewBars)
    else
      var c := BarContext(bars, s.params, std);
      match Condition(long, c)
      case Err(e) => Err(NotEvaluated(e))
      case Ok(longs) =>
        match Condition(short, c)
        case Err(e) => Err(NotEvaluated(e))
        case Ok(shorts) => Ok(Feed(bars, longs, shorts, AtrColumn(s.rules, bars)))
  }

  function RunStrategy(s: Strategy, config: Config, funding: seq<FundingEvent>, minutes: Bars, bars: Bars,
                       std: Cells -> Num): Result<State, RunError>
    requires s.rules.Valid()
  {
    var feed :- MakeFeed(s, bars, std);
    Ok(Run(Setup(s.rules, config, funding, minutes), feed))
  }

  // --- the ATR of real bars is a number once warm -------------------------------

  lemma {:induction false} SumFinite(v: Cells, k: nat)
    requires k <= |v| && forall i :: 0 <= i < |v| ==> v[i].Fin?
    ensures Sum(v, k).Fin?
  {
    if k > 0 { SumFinite(v, k - 1); }
  }

  lemma {:induction false} SmoothFinite(v: Cells, length: nat, i: nat)
    requires i < |v| && 1 <= length <= i + 1 && forall k :: 0 <= k < |v| ==> v[k].Fin?
    ensures SmoothCell(Wilders, v, length, i).Fin?
  {
    if i + 1 == length { SumFinite(v[..length], length); } else { SmoothFinite(v, length, i - 1); }
  }

  /** So reading it as an optional number forgets nothing. */
  lemma AtrIsNumberOnceWarm(bars: Bars, length: nat, i: nat)
    requires i < |bars| && length >= 1
    ensures var atr := Atr(Column("high", bars), Column("low", bars), Column("close", bars), length);
      if i + 1 < length then atr[i] == NaN else atr[i].Fin?
  {
    var tr := TrueRange(Column("high", bars), Column("low", bars), Column("close", bars));
    forall k | 0 <= k < |bars| ensures tr[k].Fin? {}
    if length <= i + 1 { SmoothFinite(tr, length, i); }
  }
}
