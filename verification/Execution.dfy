/** Placing a bot's orders, and the kill switch (apps/api/quanta/services/execution.py). */
module Execution {
  import opened Wrappers
  import opened Venues
  import Risk

  datatype Purpose = Entry | Exit | Add | Reduce | Flatten

  /** What an order is for. Its client id is derived from nothing else. */
  datatype Intent = Intent(bot: string, barTime: int, purpose: Purpose, attempt: nat)

  /** client_id_for. Different intents get different ids, as a hash without collisions would give them. */
  type Ids = Intent -> string

  ghost predicate Injective(ids: Ids) {
    forall a, b :: ids(a) == ids(b) ==> a == b
  }

  datatype Context = Context(bot: string, symbol: string, mode: Mode)

  /** How a call to the venue can go: answered, lost before it arrived, or carried out with the answer lost.
      A lost request may be known to have gone nowhere.
    */
  datatype Fault = NoFault | LostRequest(known: bool) | LostReply

  datatype Outcome = DonePlaced | DoneDuplicate | Blocked | DoneRejected | Uncertain | Failed

  // --- placing -----------------------------------------------------------------------

  /** The request for an intent. */
  function RequestFor(ids: Ids, intent: Intent, context: Context, side: Side, qty: real, reduceOnly: bool, limit: bool): Request {
    Request(context.symbol, side, qty, ids(intent), context.mode.Hedge? && reduceOnly, reduceOnly, limit)
  }

  /** The account after a call that may be lost. */
  function Delivered(a: Account, r: Request, market: Market, fault: Fault): Account {
    if fault.LostRequest? then a else Placed(a, r, market)
  }

  function PlaceOutcome(a: Account, r: Request, market: Market, allowed: bool, fault: Fault): Outcome {
    if !allowed then Blocked
    else if fault.LostRequest? && fault.known then Failed
    else if !fault.NoFault? then Uncertain
    else if Placed(a, r, market).orders[r.clientId].status.Rejected? then DoneRejected
    else DonePlaced
  }

  function ResolveOutcome(a: Account, symbol: string, id: string, reachable: bool): Outcome {
    if reachable && id in a.orders && a.orders[id].status.New? && a.orders[id].request.symbol == symbol then DoneDuplicate
    else Uncertain
  }

  // --- the kill switch -----------------------------------------------------------------

  datatype Report = Report(cancelled: nat, closed: nat, failures: seq<string>) {
    predicate Clean() {
      failures == []
    }
  }

  /** What a kill sees of a symbol's positions: what the venue holds when asked, in the order it lists them,
      something else (the venue answers from before, or they change before the closes are sent), or nothing.
    */
  datatype Look = Current(sellFirst: bool) | Stale(seen: seq<(Slot, Holding)>) | Unread

  /** One context of a kill: the clock, in whole seconds, as it is read for each position in turn, and how
      the context's calls go.
    */
  datatype Target = Target(context: Context, second: nat -> int, cancel: Fault, read: Look, close: nat -> Fault)

  function OpenCount(a: Account, symbol: string): nat {
    |set id | id in a.orders && a.orders[id].status.New? && a.orders[id].request.symbol == symbol|
  }

  function CloseIntent(t: Target, index: nat): Intent {
    Intent(t.context.bot, t.second(index), Flatten, index)
  }

  function CloseRequest(ids: Ids, t: Target, index: nat, slot: Slot, h: Holding): Request {
    Request(slot.symbol, h.side.Opposite(), h.qty, ids(CloseIntent(t, index)),
            t.context.mode.Hedge?, true, false)
  }

  const AT_MARKET := Market(true, New, true)

  /** Closes the positions as they were read, from index k on. */
  function CloseFrom(ids: Ids, t: Target, read: seq<(Slot, Holding)>, k: nat, a: Account, report: Report): (Account, Report)
    requires k <= |read|
    decreases |read| - k
  {
    if k == |read| then (a, report)
    else if read[k].1.qty <= 0.0 then CloseFrom(ids, t, read, k + 1, a, report)
    else
      var r := CloseRequest(ids, t, k, read[k].0, read[k].1);
      var after := Delivered(a, r, AT_MARKET, t.close(k));
      var noted := if t.close(k).NoFault? then report.(closed := report.closed + 1)
                   else report.(failures := report.failures + [read[k].0.symbol]);
      CloseFrom(ids, t, read, k + 1, after, noted)
  }

  /** The positions of the context's symbol as the venue lists them. */
  function Listed(t: Target, a: Account): seq<(Slot, Holding)> {
    Read(a, t.context.symbol, t.read.Current? && t.read.sellFirst)
  }

  function Read(a: Account, symbol: string, sellFirst: bool): seq<(Slot, Holding)> {
    var slots := PositionsOf(a, symbol, sellFirst);
    seq(|slots|, i requires 0 <= i < |slots| => (slots[i], a.positions[slots[i]]))
  }

  function CancelAll(t: Target, a: Account, report: Report): (Account, Report) {
    var symbol := t.context.symbol;
    var after := if t.cancel.LostRequest? then a else WithoutOpenOrders(a, symbol);
    (after, if t.cancel.NoFault? then report.(cancelled := report.cancelled + OpenCount(a, symbol))
            else report.(failures := report.failures + [symbol]))
  }

  function KillOne(ids: Ids, t: Target, a: Account, report: Report): (Account, Report) {
    var (cancelled, noted) := CancelAll(t, a, report);
    match t.read
    case Unread => (cancelled, noted.(failures := noted.failures + [t.context.symbol]))
    case Current(_) => CloseFrom(ids, t, Listed(t, cancelled), 0, cancelled, noted)
    case Stale(seen) => CloseFrom(ids, t, seen, 0, cancelled, noted)
  }

  function KillAll(ids: Ids, targets: seq<Target>, n: nat, a: Account): (Account, Report)
    requires n <= |targets|
  {
    if n == 0 then (a, Report(0, 0, []))
    else
      var (before, report) := KillAll(ids, targets, n - 1, a);
      KillOne(ids, targets[n - 1], before, report)
  }

  // --- the service ---------------------------------------------------------------------

  /** The venue, changed by the calls that reach it. */
  class Venue {
    var account: Account

    constructor (account: Account)
      ensures this.account == account
    {
      this.account := account;
    }

    method PlaceOrder(r: Request, market: Market, fault: Fault) returns (order: Option<Order>)
      modifies this
      ensures account == Delivered(old(account), r, market, fault)
      ensures order == if fault.NoFault? then Some(account.orders[r.clientId]) else None
    {
      if !fault.LostRequest? {
        account := Placed(account, r, market);
      }
      order := if fault.NoFault? then Some(account.orders[r.clientId]) else None;
    }

    method CancelAllOf(symbol: string, fault: Fault) returns (count: Option<nat>)
      modifies this
      ensures account == if fault.LostRequest? then old(account) else WithoutOpenOrders(old(account), symbol)
      ensures count == if fault.NoFault? then Some(OpenCount(old(account), symbol)) else None
    {
      count := if fault.NoFault? then Some(OpenCount(account, symbol)) else None;
      if !fault.LostRequest? {
        account := WithoutOpenOrders(account, symbol);
      }
    }
  }

  class KillReport {
    var cancelled: nat
    var closed: nat
    var failures: seq<string>

    ghost function View(): Report
      reads this
    {
      Report(cancelled, closed, failures)
    }

    constructor ()
      ensures View() == Report(0, 0, [])
    {
      cancelled, closed, failures := 0, 0, [];
    }
  }

  class ExecutionService {
    const venue: Venue
    const ids: Ids

    constructor (venue: Venue, ids: Ids)
      ensures this.venue == venue && this.ids == ids
    {
      this.venue, this.ids := venue, ids;
    }

    /** Risk-checks and sends one order. The guard is told of an order only when the venue answered. */
    method Place(intent: Intent, context: Context, side: Side, qty: real, reduceOnly: bool, limit: bool, market: Market, fault: Fault,
                 guard: Risk.RiskGuard, price: real, equity: real, held: real, leverage: int, at: int)
      returns (outcome: Outcome)
      modifies venue, guard.state
      ensures
        var r := RequestFor(ids, intent, context, side, qty, reduceOnly, limit);
        var order := Risk.Order(reduceOnly, qty, price, held, leverage);
        var (memory, verdict) := Risk.Checked(guard.limits, old(guard.state.View()), order, equity, at);
        && outcome == PlaceOutcome(old(venue.account), r, market, verdict.Allowed?, fault)
        && venue.account == (if verdict.Allowed? then Delivered(old(venue.account), r, market, fault) else old(venue.account))
        && guard.state.View() == if verdict.Allowed? && fault.NoFault? then Risk.Record(memory, at) else memory
    {
      hide Placed, Risk.Checked, Risk.Record;
      var r := RequestFor(ids, intent, context, side, qty, reduceOnly, limit);
      var verdict := guard.CheckOrder(Risk.Order(reduceOnly, qty, price, held, leverage), equity, at);
      if verdict.Refused? {
        return Blocked;
      }
      var order := venue.PlaceOrder(r, market, fault);
      if order.None? {
        // Whether it arrived is not known yet, and a resend could double it.
        return if fault.LostRequest? && fault.known then Failed else Uncertain;
      }
      // Sent orders use up the rate, filled or not.
      guard.state.RecordOrder(at);
      if order.value.status.Rejected? {
        return DoneRejected;
      }
      return DonePlaced;
    }

    /** Cancels everything, then closes everything. */
    method Kill(targets: seq<Target>) returns (report: KillReport)
      modifies venue
      ensures fresh(report)
      ensures (venue.account, report.View()) == KillAll(ids, targets, |targets|, old(venue.account))
    {
      hide KillOne;
      report := new KillReport();
      for n := 0 to |targets|
        invariant fresh(report)
        invariant (venue.account, report.View()) == KillAll(ids, targets, n, old(venue.account))
      {
        KillContext(targets[n], report);
      }
    }

    method KillContext(t: Target, report: KillReport)
      modifies venue, report
      ensures (venue.account, report.View()) == KillOne(ids, t, old(venue.account), old(report.View()))
    {
      hide Placed, WithoutOpenOrders, OpenCount, PositionsOf, CloseRequest;
      var count := venue.CancelAllOf(t.context.symbol, t.cancel);
      if count.Some? {
        report.cancelled := report.cancelled + count.value;
      } else {
        report.failures := report.failures + [t.context.symbol];
      }
      if t.read.Unread? {
        report.failures := report.failures + [t.context.symbol];
        return;
      }
      var read := if t.read.Stale? then t.read.seen else Listed(t, venue.account);
      ghost var account, noted := venue.account, report.View();
      for k := 0 to |read|
        invariant CloseFrom(ids, t, read, 0, account, noted) == CloseFrom(ids, t, read, k, venue.account, report.View())
      {
        var (slot, position) := read[k];
        if position.qty <= 0.0 {
          continue;
        }
        var order := venue.PlaceOrder(CloseRequest(ids, t, k, slot, position), AT_MARKET, t.close(k));
        if order.Some? {
          report.closed := report.closed + 1;
        } else {
          report.failures := report.failures + [slot.symbol];
        }
      }
    }
  }

  // --- at most once ------------------------------------------------------------------------

  /** What happens at the venue: an order is sent (and perhaps lost), a kill sends one of its closes (likewise),
      or a resting order fills or is cancelled. A crash before or after the venue acts is a lost request or a
      lost reply that nobody reads.
    */
  datatype Event =
    | Send(intent: Intent, context: Context, side: Side, qty: real, reduceOnly: bool, limit: bool, market: Market,
           allowed: bool, fault: Fault)
    | Closes(target: Target, index: nat, slot: Slot, holding: Holding, fault: Fault)
    | Fills(id: string)
    | Cancels(id: string)
  {
    predicate Calls() {
      Send? || Closes?
    }

    /** The call reaches the venue. */
    predicate Arrives() {
      Calls() && !fault.LostRequest? && (Send? ==> allowed)
    }

    function IntentOf(): Intent
      requires Calls()
    {
      if Send? then intent else CloseIntent(target, index)
    }

    function RequestOf(ids: Ids): Request
      requires Calls()
    {
      if Send? then RequestFor(ids, intent, context, side, qty, reduceOnly, limit)
      else CloseRequest(ids, target, index, slot, holding)
    }

    function MarketOf(): Market
      requires Calls()
    {
      if Send? then market else AT_MARKET
    }
  }

  function Step(ids: Ids, a: Account, e: Event): Account {
    match e
    case Fills(id) =>
      if id in a.orders && a.orders[id].status.New? then
        var r := a.orders[id].request;
        a.(positions := Applied(a.mode, a.positions, TargetSlot(a.mode, r), r), orders := a.orders[id := Order(r, Filled)])
      else a
    case Cancels(id) =>
      if id in a.orders && a.orders[id].status.New? then
        a.(orders := a.orders[id := a.orders[id].(status := Cancelled)])
      else a
    case _ =>
      if e.Arrives() then Placed(a, e.RequestOf(ids), e.MarketOf()) else a
  }

  function After(ids: Ids, start: Account, events: seq<Event>, k: nat): Account
    requires k <= |events|
  {
    if k == 0 then start else Step(ids, After(ids, start, events, k - 1), events[k - 1])
  }

  lemma StepFiles(ids: Ids, a: Account, e: Event)
    requires Filed(a)
    ensures Filed(Step(ids, a, e)) && a.created <= Step(ids, a, e).created
    ensures forall id :: id in a.orders ==> id in Step(ids, a, e).orders
  {
    if e.Arrives() { PlacedFiles(a, e.RequestOf(ids), e.MarketOf()); }
    hide Applied, TargetSlot;
  }

  lemma {:induction false} AlwaysFiled(ids: Ids, start: Account, events: seq<Event>, k: nat)
    requires Filed(start) && k <= |events|
    ensures Filed(After(ids, start, events, k))
  {
    hide Step, Filed;
    if k > 0 {
      AlwaysFiled(ids, start, events, k - 1);
      StepFiles(ids, After(ids, start, events, k - 1), events[k - 1]);
    }
  }

  /** The orders ever created for an intent. */
  function CreatedFor(ids: Ids, a: Account, intent: Intent): set<int> {
    set k | 0 <= k < |a.created| && a.created[k].clientId == ids(intent)
  }

  /** Whatever is lost, repeated or crashes, the venue creates at most one order for an intent, and none of
      them stands for another intent.
    */
  lemma AtMostOneOrder(ids: Ids, start: Account, events: seq<Event>, k: nat, intent: Intent, other: Intent)
    requires Injective(ids) && Filed(start) && k <= |events|
    ensures |CreatedFor(ids, After(ids, start, events, k), intent)| <= 1
    ensures intent != other ==>
      CreatedFor(ids, After(ids, start, events, k), intent) !! CreatedFor(ids, After(ids, start, events, k), other)
  {
    hide After, Step;
    AlwaysFiled(ids, start, events, k);
    var made := CreatedFor(ids, After(ids, start, events, k), intent);
    if j :| j in made {
      assert made == {j};
    }
  }

  // --- what a call is worth ------------------------------------------------------------------

  /** No order is forgotten or asked for anew, one that is settled stays as it is, and no open one is
      rejected later.
    */
  predicate Keeps(a: Account, b: Account) {
    forall id :: id in a.orders ==>
      && id in b.orders && b.orders[id].request == a.orders[id].request
      && (if a.orders[id].status.New? then !b.orders[id].status.Rejected? else b.orders[id] == a.orders[id])
  }

  lemma StepKeeps(ids: Ids, a: Account, e: Event)
    ensures Keeps(a, Step(ids, a, e))
  {
    hide Applied, TargetSlot;
  }

  lemma {:induction false} RunKeeps(ids: Ids, start: Account, events: seq<Event>, i: nat, k: nat)
    requires i <= k <= |events|
    ensures Keeps(After(ids, start, events, i), After(ids, start, events, k))
    decreases k
  {
    hide Step;
    if i < k {
      RunKeeps(ids, start, events, i, k - 1);
      StepKeeps(ids, After(ids, start, events, k - 1), events[k - 1]);
    }
  }

  /** An order at the venue was there at the start, or one of the calls for its id arrived. */
  lemma {:induction false} OrdersCameFromCalls(ids: Ids, start: Account, events: seq<Event>, k: nat, id: string)
    requires k <= |events| && id in After(ids, start, events, k).orders
    ensures id in start.orders || exists j :: 0 <= j < k && events[j].Arrives() && ids(events[j].IntentOf()) == id
  {
    hide Applied, TargetSlot;
    if k > 0 && id in After(ids, start, events, k - 1).orders {
      OrdersCameFromCalls(ids, start, events, k - 1, id);
    }
  }

  /** Once a call for an intent has arrived, every later call for it changes nothing at the venue, whatever it
      asks for and whatever happened in between, and is answered with the order of the first.
    */
  lemma RetryChangesNothing(ids: Ids, start: Account, events: seq<Event>, i: nat, j: nat)
    requires i < j < |events| && events[i].Arrives() && events[j].Calls() && events[i].IntentOf() == events[j].IntentOf()
    ensures After(ids, start, events, j + 1) == After(ids, start, events, j)
    ensures var id, first, later := ids(events[i].IntentOf()), After(ids, start, events, i + 1), After(ids, start, events, j);
      && id in first.orders && id in later.orders && later.orders[id].request == first.orders[id].request
      && PlaceOutcome(later, events[j].RequestOf(ids), events[j].MarketOf(), true, NoFault)
         == if first.orders[id].status.Rejected? then DoneRejected else DonePlaced
  {
    hide Applied, TargetSlot;
    RunKeeps(ids, start, events, i + 1, j);
  }

  /** What an outcome is worth for the rest of the run: a placed order stays at the venue and is never rejected,
      a rejected one stays rejected, a blocked or failed call put nothing there, and one left uncertain either
      did nothing or left an order that stays.
    */
  lemma OutcomesAreTrue(ids: Ids, start: Account, events: seq<Event>, i: nat, k: nat)
    requires i < k <= |events| && events[i].Send?
    ensures var e, a := events[i], After(ids, start, events, i);
      var r := e.RequestOf(ids);
      var outcome, b, later := PlaceOutcome(a, r, e.market, e.allowed, e.fault), After(ids, start, events, i + 1), After(ids, start, events, k);
      && (outcome.DonePlaced? ==> r.clientId in later.orders && !later.orders[r.clientId].status.Rejected?)
      && (outcome.DoneRejected? ==> r.clientId in later.orders && later.orders[r.clientId].status.Rejected?)
      && (outcome.Blocked? || outcome.Failed? ==> b == a)
      && (outcome.Uncertain? ==> b == a || r.clientId in later.orders)
  {
    hide Applied, TargetSlot;
    RunKeeps(ids, start, events, i + 1, k);
  }

  /** When asking the venue resolves an uncertain intent as placed, a call for that very intent has arrived. */
  lemma {:induction false} ResolvedHasArrived(ids: Ids, start: Account, events: seq<Event>, k: nat, intent: Intent, symbol: string, reachable: bool)
    requires Injective(ids) && k <= |events| && ids(intent) !in start.orders
    requires ResolveOutcome(After(ids, start, events, k), symbol, ids(intent), reachable).DoneDuplicate?
    ensures exists j :: 0 <= j < k && events[j].Arrives() && events[j].IntentOf() == intent
  {
    hide After;
    OrdersCameFromCalls(ids, start, events, k, ids(intent));
  }
}
