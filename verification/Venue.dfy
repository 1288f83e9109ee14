/** One account at a venue, as the trading adapter promises it and the simulated exchange models it
    (apps/api/quanta/exchanges/trading.py and exchanges/sim/trading.py).
  */
module Venues {
  import opened Wrappers

  datatype Side = Buy | Sell {
    function Opposite(): Side {
      if Buy? then Sell else Buy
    }
  }

  datatype Mode = OneWay | Hedge

  /** Where a position lives: one place a symbol, or one a side in hedge mode. */
  datatype Slot = Slot(symbol: string, side: Option<Side>)

  function SlotOf(symbol: string, side: Side, mode: Mode): Slot {
    Slot(symbol, if mode.OneWay? then None else Some(side))
  }

  datatype Holding = Holding(side: Side, qty: real)

  /** `closes` is the hedge-mode trade side; without a limit price the order is at market. */
  datatype Request = Request(symbol: string, side: Side, qty: real, clientId: string, closes: bool, reduceOnly: bool, limit: bool)

  datatype Status = New | Filled | Cancelled | Rejected

  datatype Order = Order(request: Request, status: Status)

  /** What the market makes of an order: how a limit order meets the book, and whether an opening fill has
      the margin.
    */
  datatype Market = Market(crosses: bool, unfilled: Status, affordable: bool)

  datatype Account = Account(mode: Mode, positions: map<Slot, Holding>, orders: map<string, Order>, created: seq<Request>)

  function Recorded(a: Account, r: Request, status: Status): Account {
    a.(orders := a.orders[r.clientId := Order(r, status)], created := a.created + [r])
  }

  /** A close in hedge mode acts on the opposite book. */
  function TargetSlot(mode: Mode, r: Request): Slot {
    SlotOf(r.symbol, if mode.Hedge? && r.closes then r.side.Opposite() else r.side, mode)
  }

  function Applied(mode: Mode, positions: map<Slot, Holding>, slot: Slot, r: Request): map<Slot, Holding> {
    var closing := r.reduceOnly || r.closes;
    if slot !in positions then positions[slot := Holding(r.side, r.qty)]
    else
      var existing := positions[slot];
      if existing.side == r.side && !closing then positions[slot := existing.(qty := existing.qty + r.qty)]
      else
        var closed := if existing.qty < r.qty then existing.qty else r.qty;
        if existing.qty > closed then positions[slot := existing.(qty := existing.qty - closed)]
        else if r.qty > closed && !r.reduceOnly then
          (positions - {slot})[SlotOf(r.symbol, r.side, mode) := Holding(r.side, r.qty - closed)]
        else positions - {slot}
  }

  function Fill(a: Account, r: Request, market: Market): Account {
    var slot := TargetSlot(a.mode, r);
    var closing := r.reduceOnly || r.closes;
    if closing && slot !in a.positions then Recorded(a, r, Rejected)
    else if !closing && !market.affordable then Recorded(a, r, Rejected)
    else Recorded(a.(positions := Applied(a.mode, a.positions, slot, r)), r, Filled)
  }

  /** A known client id answers with its order; otherwise a limit order rests or fills, and any other fills. */
  function Placed(a: Account, r: Request, market: Market): (b: Account)
    ensures r.clientId in b.orders
  {
    if r.clientId in a.orders then a
    else if r.limit && !market.crosses then Recorded(a, r, market.unfilled)
    else Fill(a, r, market)
  }

  /** Cancels every open order of a symbol. */
  function WithoutOpenOrders(a: Account, symbol: string): Account {
    a.(orders := map id | id in a.orders ::
         if a.orders[id].status.New? && a.orders[id].request.symbol == symbol then a.orders[id].(status := Cancelled)
         else a.orders[id])
  }

  function Held(a: Account, slot: Slot): seq<Slot> {
    if slot in a.positions then [slot] else []
  }

  /** The positions of a symbol: one of a one-way account, up to two of a hedge account in either order. */
  function PositionsOf(a: Account, symbol: string, sellFirst: bool): seq<Slot> {
    var first, second := if sellFirst then Sell else Buy, if sellFirst then Buy else Sell;
    Held(a, Slot(symbol, None)) + Held(a, Slot(symbol, Some(first))) + Held(a, Slot(symbol, Some(second)))
  }

  /** Positions lie where the account's mode puts them, and are not empty. */
  predicate WellFormed(a: Account) {
    forall s :: s in a.positions ==>
      a.positions[s].qty > 0.0 && s == SlotOf(s.symbol, a.positions[s].side, a.mode)
  }

  /** Every order is filed under its own id, and each was created once. */
  predicate Filed(a: Account) {
    && (forall id :: id in a.orders ==> a.orders[id].request.clientId == id && a.orders[id].request in a.created)
    && (forall k :: 0 <= k < |a.created| ==> a.created[k].clientId in a.orders)
    && (forall j, k :: 0 <= j < k < |a.created| ==> a.created[j].clientId != a.created[k].clientId)
  }

  lemma PlacedFiles(a: Account, r: Request, market: Market)
    requires Filed(a)
    ensures Filed(Placed(a, r, market))
    ensures Placed(a, r, market).created == if r.clientId in a.orders then a.created else a.created + [r]
  {
    hide Applied, TargetSlot;
    var b := Placed(a, r, market);
    if r.clientId !in a.orders {
      assert b.created == a.created + [r];
      forall id | id in b.orders ensures b.orders[id].request.clientId == id && b.orders[id].request in b.created {}
    }
  }

  /** An order that only reduces makes no position larger, turns none round and opens none. */
  predicate Shrinks(before: map<Slot, Holding>, after: map<Slot, Holding>) {
    forall s :: s in after ==> s in before && after[s].side == before[s].side && after[s].qty <= before[s].qty
  }

  lemma ReduceOnlyShrinks(a: Account, r: Request, market: Market)
    requires r.reduceOnly && r.qty > 0.0
    ensures Shrinks(a.positions, Placed(a, r, market).positions)
    ensures WellFormed(a) ==> WellFormed(Placed(a, r, market))
    ensures Placed(a, r, market).mode == a.mode
  {
  }
}
