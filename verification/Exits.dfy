/** Orders that may only reduce, over whole runs: placing one never opens a position, but a resting one that
    fills after its position has gone does (apps/api/quanta/exchanges/sim/trading.py).
  */
module Exits {
  import opened Wrappers
  import opened Venues
  import opened Execution

  /** The event concerns an order that may only reduce. */
  predicate OnlyReduces(ids: Ids, a: Account, e: Event) {
    match e
    case Cancels(_) => true
    case Fills(id) => id in a.orders && a.orders[id].status.New? ==> ReducesOnly(a.orders[id].request)
    case _ => ReducesOnly(e.RequestOf(ids))
  }

  predicate ReducesOnly(r: Request) {
    r.reduceOnly && r.qty > 0.0
  }

  /** A resting order fills, and there is no position where it would act. */
  predicate FillsNothing(a: Account, e: Event) {
    e.Fills? && e.id in a.orders && a.orders[e.id].status.New? && TargetSlot(a.mode, a.orders[e.id].request) !in a.positions
  }

  lemma AppliedShrinks(mode: Mode, positions: map<Slot, Holding>, slot: Slot, r: Request)
    requires ReducesOnly(r)
    ensures Shrinks(positions, Applied(mode, positions, slot, r)) <==> slot in positions
  {
  }

  /** An order that may only reduce makes a position larger, turns one round or opens one exactly when it was
      resting and its position has gone by the time it fills.
    */
  lemma ReducesExactlyWhen(ids: Ids, a: Account, e: Event)
    requires OnlyReduces(ids, a, e)
    ensures Shrinks(a.positions, Step(ids, a, e).positions) <==> !FillsNothing(a, e)
  {
    hide Shrinks, Applied, Placed, TargetSlot;
    StaysShrinks(a.positions);
    if e.Calls() {
      if e.Arrives() { ReduceOnlyShrinks(a, e.RequestOf(ids), e.MarketOf()); }
    } else if e.Fills? && e.id in a.orders && a.orders[e.id].status.New? {
      var r := a.orders[e.id].request;
      AppliedShrinks(a.mode, a.positions, TargetSlot(a.mode, r), r);
    }
  }

  lemma StaysShrinks(p: map<Slot, Holding>)
    ensures Shrinks(p, p)
  {
  }

  /** The run's every step leaves positions no larger than it found them. */
  predicate AlwaysShrinks(ids: Ids, start: Account, events: seq<Event>) {
    forall k :: 0 <= k < |events| ==>
      Shrinks(After(ids, start, events, k).positions, Step(ids, After(ids, start, events, k), events[k]).positions)
  }

  /** A run of nothing but orders that may only reduce, and fills and cancellations of such orders, only ever
      shrinks positions exactly when no resting one fills after its position has gone. Then the positions at
      the end are within those at the start.
    */
  lemma RunReducesExactlyWhen(ids: Ids, start: Account, events: seq<Event>)
    requires forall k :: 0 <= k < |events| ==> OnlyReduces(ids, After(ids, start, events, k), events[k])
    ensures AlwaysShrinks(ids, start, events) <==>
      forall k :: 0 <= k < |events| ==> !FillsNothing(After(ids, start, events, k), events[k])
    ensures AlwaysShrinks(ids, start, events) ==>
      Shrinks(start.positions, After(ids, start, events, |events|).positions)
  {
    hide OnlyReduces, Step, FillsNothing, Shrinks, After;
    forall k | 0 <= k < |events|
      ensures Shrinks(After(ids, start, events, k).positions, Step(ids, After(ids, start, events, k), events[k]).positions)
        <==> !FillsNothing(After(ids, start, events, k), events[k])
    {
      ReducesExactlyWhen(ids, After(ids, start, events, k), events[k]);
    }
    if AlwaysShrinks(ids, start, events) { RunShrinks(ids, start, events, |events|); }
  }

  lemma {:induction false} RunShrinks(ids: Ids, start: Account, events: seq<Event>, k: nat)
    requires AlwaysShrinks(ids, start, events) && k <= |events|
    ensures Shrinks(start.positions, After(ids, start, events, k).positions)
  {
    hide Step, Shrinks;
    if k == 0 {
      StaysShrinks(start.positions);
    } else {
      RunShrinks(ids, start, events, k - 1);
      var before := After(ids, start, events, k - 1);
      ShrinksOn(start.positions, before.positions, Step(ids, before, events[k - 1]).positions);
    }
  }

  lemma ShrinksOn(p: map<Slot, Holding>, q: map<Slot, Holding>, r: map<Slot, Holding>)
    requires Shrinks(p, q) && Shrinks(q, r)
    ensures Shrinks(p, r)
  {
  }

  // --- an exit that opens ------------------------------------------------------------------

  function Open(bot: string): Intent { Intent(bot, 0, Entry, 0) }
  function TakeProfit(bot: string): Intent { Intent(bot, 0, Exit, 0) }
  function CloseNow(bot: string): Intent { Intent(bot, 0, Exit, 1) }

  /** Buy one, leave a reduce-only sell resting, close by a reduce-only sell at market, and let the resting one
      fill.
    */
  function OverstayedExit(ids: Ids, bot: string, symbol: string): seq<Event> {
    var c := Context(bot, symbol, OneWay);
    [Send(Open(bot), c, Buy, 1.0, false, false, AT_MARKET, true, NoFault),
     Send(TakeProfit(bot), c, Sell, 1.0, true, true, Market(false, New, true), true, NoFault),
     Send(CloseNow(bot), c, Sell, 1.0, true, false, AT_MARKET, true, NoFault),
     Fills(ids(TakeProfit(bot)))]
  }

  lemma Bought(ids: Ids, bot: string, symbol: string)
    ensures var a := After(ids, Account(OneWay, map[], map[], []), OverstayedExit(ids, bot, symbol), 1);
      a.mode.OneWay? && a.positions == map[Slot(symbol, None) := Holding(Buy, 1.0)] && a.orders.Keys == {ids(Open(bot))}
  {
    assert After(ids, Account(OneWay, map[], map[], []), OverstayedExit(ids, bot, symbol), 0) == Account(OneWay, map[], map[], []);
  }

  lemma Rests(ids: Ids, bot: string, symbol: string)
    requires Injective(ids)
    ensures var a := After(ids, Account(OneWay, map[], map[], []), OverstayedExit(ids, bot, symbol), 2);
      && a.mode.OneWay? && a.positions == map[Slot(symbol, None) := Holding(Buy, 1.0)]
      && a.orders.Keys == {ids(Open(bot)), ids(TakeProfit(bot))} && a.orders[ids(TakeProfit(bot))].status.New?
      && a.orders[ids(TakeProfit(bot))].request == Request(symbol, Sell, 1.0, ids(TakeProfit(bot)), false, true, true)
  {
    Bought(ids, bot, symbol);
    assert ids(Open(bot)) != ids(TakeProfit(bot));
  }

  lemma Closed(ids: Ids, bot: string, symbol: string)
    requires Injective(ids)
    ensures var a := After(ids, Account(OneWay, map[], map[], []), OverstayedExit(ids, bot, symbol), 3);
      && a.mode.OneWay? && a.positions == map[]
      && ids(TakeProfit(bot)) in a.orders && a.orders[ids(TakeProfit(bot))].status.New?
      && a.orders[ids(TakeProfit(bot))].request == Request(symbol, Sell, 1.0, ids(TakeProfit(bot)), false, true, true)
  {
    Rests(ids, bot, symbol);
    assert ids(CloseNow(bot)) != ids(TakeProfit(bot)) && ids(CloseNow(bot)) != ids(Open(bot));
    hide After;
    var a := After(ids, Account(OneWay, map[], map[], []), OverstayedExit(ids, bot, symbol), 2);
    SoldOut(a, symbol, ids(CloseNow(bot)));
    AfterStep(ids, Account(OneWay, map[], map[], []), OverstayedExit(ids, bot, symbol), 2);
  }

  lemma AfterStep(ids: Ids, start: Account, events: seq<Event>, k: nat)
    requires k < |events|
    ensures After(ids, start, events, k + 1) == Step(ids, After(ids, start, events, k), events[k])
  {
  }

  lemma SoldOut(a: Account, symbol: string, id: string)
    requires a.mode.OneWay? && a.positions == map[Slot(symbol, None) := Holding(Buy, 1.0)] && id !in a.orders
    ensures var b := Placed(a, Request(symbol, Sell, 1.0, id, false, true, false), AT_MARKET);
      b.mode.OneWay? && b.positions == map[] && forall other :: other in a.orders && other != id ==>
        other in b.orders && b.orders[other] == a.orders[other]
  {
  }

  /** From an empty account: the two exits are for one position, and the second to fill opens a short. */
  lemma OverstayedExitOpens(ids: Ids, bot: string, symbol: string)
    requires Injective(ids)
    ensures var start, events := Account(OneWay, map[], map[], []), OverstayedExit(ids, bot, symbol);
      && After(ids, start, events, 3).positions == map[]
      && After(ids, start, events, 4).positions == map[Slot(symbol, None) := Holding(Sell, 1.0)]
  {
    Closed(ids, bot, symbol);
    hide After;
    AfterStep(ids, Account(OneWay, map[], map[], []), OverstayedExit(ids, bot, symbol), 3);
  }
}
