/** When a stop moves against the trade (packages/engine/quanta_engine/backtest/engine.py). */
module Stops {
  import opened Wrappers
  import opened Market
  import opened Engine

  /** One level protects less than another. */
  predicate Looser(side: Side, a: real, b: real) {
    if side.Long? then a < b else a > b
  }

  /** This bar arms the break-even rule. */
  predicate Arms(rules: ExitRules, p: Position, bar: Bar) {
    var tracked := TrackPeak(p, bar);
    && rules.breakEvenAtR.Some? && p.distance > 0.0 && !p.armed
    && (tracked.peak - p.trade.entryPrice) * Direction(p.trade.side) >= p.distance * rules.breakEvenAtR.value
  }

  /** Where the trailing rule would put the stop on this bar. */
  function TrailLevel(rules: ExitRules, p: Position, bar: Bar, atr: Option<real>): Option<real> {
    if rules.trailingAtrMultiple.None? || atr.None? then None
    else Some(Away(p.trade.side, TrackPeak(p, bar).peak, atr.value, -rules.trailingAtrMultiple.value))
  }

  /** The trailing rule alone only ever tightens a stop, but arming break-even puts it at the entry wherever it
      stood. So a stop is loosened exactly on the bar that arms break-even, when it already stood beyond the
      entry and the trailing level has since fallen behind it.
    */
  lemma LoosensExactlyWhen(rules: ExitRules, p: Position, bar: Bar, atr: Option<real>)
    requires p.stop.Some?
    ensures var q := UpdateStops(rules, p, bar, atr);
      && q.stop.Some?
      && (Looser(p.trade.side, q.stop.value, p.stop.value) <==>
          && Arms(rules, p, bar) && Looser(p.trade.side, p.trade.entryPrice, p.stop.value)
          && (var t := TrailLevel(rules, p, bar, atr); t.None? || Looser(p.trade.side, t.value, p.stop.value)))
  {
    hide Away, Direction;
  }

  /** Without a break-even rule, or once it has armed, a stop never loosens; and it arms once. */
  lemma RatchetsOnceArmed(rules: ExitRules, p: Position, bar: Bar, atr: Option<real>)
    requires p.stop.Some? && (rules.breakEvenAtR.None? || p.armed)
    ensures var q := UpdateStops(rules, p, bar, atr);
      q.stop.Some? && !Looser(p.trade.side, q.stop.value, p.stop.value) && q.armed == p.armed
  {
    LoosensExactlyWhen(rules, p, bar, atr);
    hide Away, Looser;
  }

  /** It happens: a trailed stop at 107 goes back to the entry of 100 on the bar that reaches three times the
      risk, since that bar's range takes the two-bar ATR from 5 to 20.
    */
  lemma TrailedStopFallsBack(p: Position, bar: Bar)
    requires p.trade.side.Long? && p.trade.entryPrice == 100.0 && p.distance == 5.0 && !p.armed
    requires p.stop == Some(107.0) && p.peak == 112.0 && bar.high == 116.0 && bar.low == 81.0
    ensures var rules := ExitRules(Some(1.0), 2, None, Some(3.0), Some(1.0), true, None);
      var atr := (5.0 + (bar.high - bar.low)) / 2.0;
      rules.Valid() && UpdateStops(rules, p, bar, Some(atr)).stop == Some(100.0)
  {
  }
}
