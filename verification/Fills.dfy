/** How orders add up to positions (apps/api/quanta/exchanges/sim/trading.py and services/execution.py). */
module Fills {
  import opened Wrappers
  import opened Venues
  import opened Execution

  /** A position as a signed quantity, 0 where there is none. */
  function Net(a: Account, slot: Slot): real {
    if slot !in a.positions then 0.0
    else if a.positions[slot].side.Buy? then a.positions[slot].qty
    else 0.0 - a.positions[slot].qty
  }

  function SignedQty(r: Request): real {
    if r.side.Buy? then r.qty else 0.0 - r.qty
  }

  function Size(x: real): real { if x < 0.0 then 0.0 - x else x }

  /** Towards zero by a quantity, and no further. */
  function Reduced(net: real, qty: real): real {
    if Size(net) <= qty then 0.0 else if net > 0.0 then net - qty else net + qty
  }

  /** The book an order acts on: the symbol's only one, or in hedge mode its own side's, a close's the other. */
  function Book(mode: Mode, r: Request): Slot {
    if mode.OneWay? then Slot(r.symbol, None)
    else Slot(r.symbol, Some(if r.side.Buy? == r.closes then Sell else Buy))
  }

  /** An order that fills moves the position of its book: an opening one by its signed quantity, one that only
      reduces or closes towards zero, and no other position moves.
    */
  lemma FillsAddUp(a: Account, r: Request)
    requires WellFormed(a) && r.qty > 0.0 && (a.mode.OneWay? ==> !r.closes) && (r.closes ==> r.reduceOnly)
    requires r.reduceOnly ==> Book(a.mode, r) in a.positions
    requires a.mode.Hedge? && r.reduceOnly ==> r.closes
    ensures var b := a.(positions := Applied(a.mode, a.positions, TargetSlot(a.mode, r), r));
      var slot := Book(a.mode, r);
      && Net(b, slot) == (if r.reduceOnly then Reduced(Net(a, slot), r.qty) else Net(a, slot) + SignedQty(r))
      && (forall other :: other != slot ==>
            (other in b.positions <==> other in a.positions) && (other in a.positions ==> b.positions[other] == a.positions[other]))
      && WellFormed(b)
  {
  }

  /** What becomes of a request that arrives: a known id changes nothing; a limit order that does not cross rests
      as the venue decides; a close with nothing to close and an opening order without margin are rejected; and
      everything else fills.
    */
  lemma PlacedMeans(a: Account, r: Request, market: Market)
    ensures var b, closing, held := Placed(a, r, market), r.reduceOnly || r.closes, Book(a.mode, r) in a.positions;
      if r.clientId in a.orders then b == a
      else
        var rests := r.limit && !market.crosses;
        var rejected := if closing then !held else !market.affordable;
        && b.created == a.created + [r] && b.mode == a.mode
        && b.orders == a.orders[r.clientId := Order(r, if rests then market.unfilled else if rejected then Rejected else Filled)]
        && b.positions == if rests || rejected then a.positions else Applied(a.mode, a.positions, TargetSlot(a.mode, r), r)
  {
    hide Applied;
    assert TargetSlot(a.mode, r) == Book(a.mode, r);
  }

  /** What a bot sends: an exit in hedge mode closes the other side's book, everything else acts on its own. */
  lemma RequestsMean(ids: Ids, intent: Intent, context: Context, side: Side, qty: real, reduceOnly: bool, limit: bool)
    ensures var r := RequestFor(ids, intent, context, side, qty, reduceOnly, limit);
      && r.symbol == context.symbol && r.side == side && r.qty == qty && r.clientId == ids(intent)
      && r.reduceOnly == reduceOnly && r.limit == limit
      && Book(context.mode, r) ==
         if context.mode.OneWay? then Slot(context.symbol, None)
         else Slot(context.symbol, Some(if reduceOnly then side.Opposite() else side))
    ensures Buy.Opposite() == Sell && Sell.Opposite() == Buy
  {
  }

  /** A close asks for the whole of the position it was read from, on its book, and only to reduce. */
  lemma ClosesMean(ids: Ids, t: Target, index: nat, slot: Slot, h: Holding)
    requires slot == SlotOf(slot.symbol, h.side, t.context.mode)
    ensures var r := CloseRequest(ids, t, index, slot, h);
      && Book(t.context.mode, r) == slot && r.qty == h.qty && r.reduceOnly && !r.limit
      && r.clientId == ids(Intent(t.context.bot, t.second(index), Flatten, index))
  {
  }

  /** A kill first cancels exactly the open orders of its symbol, and reports how many it was told of. */
  lemma CancelMeans(t: Target, a: Account, report: Report)
    ensures var (b, noted) := CancelAll(t, a, report);
      var open := set id | id in a.orders && a.orders[id].status.New? && a.orders[id].request.symbol == t.context.symbol;
      && b.positions == a.positions && b.mode == a.mode && b.created == a.created && b.orders.Keys == a.orders.Keys
      && (forall id :: id in a.orders ==>
            b.orders[id] == if id in open && !t.cancel.LostRequest? then Order(a.orders[id].request, Cancelled) else a.orders[id])
      && noted.closed == report.closed
      && (if t.cancel.NoFault? then noted.cancelled == report.cancelled + |open| && noted.failures == report.failures
          else noted.cancelled == report.cancelled && noted.failures == report.failures + [t.context.symbol])
  {
  }

  /** What a caller is told: nothing went out, it is not known, or what the venue made of it. */
  lemma OutcomesMean(a: Account, r: Request, market: Market, allowed: bool, fault: Fault)
    ensures PlaceOutcome(a, r, market, allowed, fault) ==
      match fault
      case LostRequest(known) => if !allowed then Blocked else if known then Failed else Uncertain
      case LostReply => if allowed then Uncertain else Blocked
      case NoFault =>
        if !allowed then Blocked
        else if Placed(a, r, market).orders[r.clientId].status == Rejected then DoneRejected
        else DonePlaced
    ensures Delivered(a, r, market, fault) == match fault case LostRequest(_) => a case _ => Placed(a, r, market)
  {
    hide Placed;
  }

  /** An uncertain order is called a duplicate exactly when the venue can be asked and lists it as open. */
  lemma ResolvingMeans(a: Account, symbol: string, id: string, reachable: bool)
    ensures ResolveOutcome(a, symbol, id, reachable) ==
      if reachable && id in a.orders && a.orders[id] == Order(a.orders[id].request, New) && a.orders[id].request.symbol == symbol
      then DoneDuplicate else Uncertain
  {
  }

  /** A resting order that fills moves its book as if it had filled at once; one that is cancelled moves nothing. */
  lemma RestingOrdersMean(ids: Ids, a: Account, id: string)
    ensures var open := id in a.orders && a.orders[id].status == New;
      && Step(ids, a, Cancels(id)) == (if open then a.(orders := a.orders[id := Order(a.orders[id].request, Cancelled)]) else a)
      && Step(ids, a, Fills(id)) ==
         if open then
           var r := a.orders[id].request;
           a.(positions := Applied(a.mode, a.positions, Book(a.mode, r), r), orders := a.orders[id := Order(r, Filled)])
         else a
  {
    hide Applied;
    if id in a.orders { assert TargetSlot(a.mode, a.orders[id].request) == Book(a.mode, a.orders[id].request); }
  }
}
