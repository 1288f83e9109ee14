/** What the kill switch leaves behind (apps/api/quanta/services/execution.py). */
module KillSwitch {
  import opened Wrappers
  import opened Venues
  import opened Execution

  // --- one close -----------------------------------------------------------------------

  /** The account keeps its two sides apart and the bot believes otherwise. */
  predicate Mismatched(account: Mode, bot: Mode) {
    account.Hedge? && bot.OneWay?
  }

  /** A close that reaches the venue removes the position it was read from exactly when its client id is new
      there and the bot has not mistaken a hedge account for a one-way one.
    */
  lemma CloseWorksExactlyWhen(ids: Ids, t: Target, index: nat, slot: Slot, a: Account)
    requires WellFormed(a) && slot in a.positions
    ensures var r := CloseRequest(ids, t, index, slot, a.positions[slot]);
      slot !in Placed(a, r, AT_MARKET).positions <==> r.clientId !in a.orders && !Mismatched(a.mode, t.context.mode)
  {
  }

  /** It leaves every other position alone. */
  lemma CloseTouchesOne(ids: Ids, t: Target, index: nat, slot: Slot, a: Account, other: Slot)
    requires WellFormed(a) && slot in a.positions && !Mismatched(a.mode, t.context.mode) && other != slot
    ensures var b := Placed(a, CloseRequest(ids, t, index, slot, a.positions[slot]), AT_MARKET);
      (other in b.positions <==> other in a.positions) && (other in a.positions ==> b.positions[other] == a.positions[other])
  {
  }

  lemma ShrinksTransitive(a: map<Slot, Holding>, b: map<Slot, Holding>, c: map<Slot, Holding>)
    requires Shrinks(a, b) && Shrinks(b, c)
    ensures Shrinks(a, c)
  {
  }

  // --- closing what was read --------------------------------------------------------------

  /** Whatever was read and however the calls go: positions only shrink, open orders only go, and failures
      are only added.
    */
  lemma {:induction false} CloseFromOnlyShrinks(ids: Ids, t: Target, read: seq<(Slot, Holding)>, k: nat, a: Account, report: Report)
    requires k <= |read|
    ensures var (b, noted) := CloseFrom(ids, t, read, k, a, report);
      && Shrinks(a.positions, b.positions) && b.mode == a.mode && report.failures <= noted.failures
      && (WellFormed(a) ==> WellFormed(b))
      && (forall id :: id in b.orders && b.orders[id].status.New? ==> id in a.orders && a.orders[id] == b.orders[id])
    decreases |read| - k
  {
    hide Placed, WellFormed, CloseRequest, Shrinks;
    if k == |read| {
      SameShrinks(a.positions);
    } else if read[k].1.qty <= 0.0 {
      CloseFromOnlyShrinks(ids, t, read, k + 1, a, report);
    } else {
      var r := CloseRequest(ids, t, k, read[k].0, read[k].1);
      var after := Delivered(a, r, AT_MARKET, t.close(k));
      CloseReduces(ids, t, k, read[k].0, read[k].1);
      ReduceOnlyShrinks(a, r, AT_MARKET);
      SameShrinks(a.positions);
      MarketNeverRests(a, r);
      var noted := if t.close(k).NoFault? then report.(closed := report.closed + 1)
                   else report.(failures := report.failures + [read[k].0.symbol]);
      CloseFromOnlyShrinks(ids, t, read, k + 1, after, noted);
      ShrinksTransitive(a.positions, after.positions, CloseFrom(ids, t, read, k + 1, after, noted).0.positions);
    }
  }

  lemma SameShrinks(p: map<Slot, Holding>)
    ensures Shrinks(p, p)
  {
  }

  lemma CloseReduces(ids: Ids, t: Target, index: nat, slot: Slot, h: Holding)
    ensures var r := CloseRequest(ids, t, index, slot, h); r.reduceOnly && r.qty == h.qty && !r.limit
  {
  }

  lemma MarketNeverRests(a: Account, r: Request)
    requires !r.limit
    ensures var b := Placed(a, r, AT_MARKET);
      forall id :: id in b.orders && b.orders[id].status.New? ==> id in a.orders && a.orders[id] == b.orders[id]
  {
    hide Applied, TargetSlot;
  }

  // --- fresh ids ----------------------------------------------------------------------------

  function FlattenId(ids: Ids, t: Target, index: nat): string {
    ids(CloseIntent(t, index))
  }

  /** The venue has seen none of the ids this kill would use from an index on. */
  ghost predicate FreshFrom(ids: Ids, t: Target, k: nat, a: Account) {
    forall i: nat :: i >= k ==> FlattenId(ids, t, i) !in a.orders
  }

  lemma PlacedOrders(a: Account, r: Request, market: Market, id: string)
    ensures id in Placed(a, r, market).orders <==> id in a.orders || id == r.clientId
  {
    hide Applied, TargetSlot;
  }

  lemma CloseKeepsFresh(ids: Ids, t: Target, k: nat, slot: Slot, h: Holding, a: Account)
    requires Injective(ids) && FreshFrom(ids, t, k, a)
    ensures FreshFrom(ids, t, k + 1, Placed(a, CloseRequest(ids, t, k, slot, h), AT_MARKET))
  {
    hide Placed;
    var r := CloseRequest(ids, t, k, slot, h);
    forall i: nat | i >= k + 1 ensures FlattenId(ids, t, i) !in Placed(a, r, AT_MARKET).orders {
      PlacedOrders(a, r, AT_MARKET, FlattenId(ids, t, i));
    }
  }

  // --- every position read is closed or named --------------------------------------------------

  /** What was read from index k on is still so. */
  predicate StillSo(read: seq<(Slot, Holding)>, k: nat, a: Account) {
    && (forall i :: k <= i < |read| ==> read[i].0 in a.positions && a.positions[read[i].0] == read[i].1)
    && (forall i, j :: 0 <= i < j < |read| ==> read[i].0 != read[j].0)
  }

  lemma {:induction false} ClosedOrNamed(ids: Ids, t: Target, read: seq<(Slot, Holding)>, k: nat, a: Account, report: Report, i: nat)
    requires Injective(ids) && FreshFrom(ids, t, k, a) && k <= i < |read|
    requires WellFormed(a) && !Mismatched(a.mode, t.context.mode) && StillSo(read, k, a)
    ensures var (b, noted) := CloseFrom(ids, t, read, k, a, report);
      read[i].0 !in b.positions || read[i].0.symbol in noted.failures
    decreases |read| - k
  {
    hide Placed, WellFormed, CloseRequest, FreshFrom, Mismatched;
    var (slot, h) := read[k];
    PositiveQty(a, slot);
    var r := CloseRequest(ids, t, k, slot, h);
    var after := Delivered(a, r, AT_MARKET, t.close(k));
    var noted := if t.close(k).NoFault? then report.(closed := report.closed + 1)
                 else report.(failures := report.failures + [slot.symbol]);
    CloseReduces(ids, t, k, slot, h);
    ReduceOnlyShrinks(a, r, AT_MARKET);
    CloseWorksExactlyWhen(ids, t, k, slot, a);
    FreshNow(ids, t, k, slot, h, a);
    if k == i {
      CloseFromOnlyShrinks(ids, t, read, k + 1, after, noted);
      if t.close(k).NoFault? {
        GoneStaysGone(after.positions, CloseFrom(ids, t, read, k + 1, after, noted).0.positions, slot);
      } else {
        InPrefix(noted.failures, CloseFrom(ids, t, read, k + 1, after, noted).1.failures, |report.failures|);
      }
    } else {
      StillSoAfter(ids, t, read, k, a);
      CloseKeepsFresh(ids, t, k, slot, h, a);
      FreshLater(ids, t, k, a);
      ClosedOrNamed(ids, t, read, k + 1, after, noted, i);
    }
  }

  lemma PositiveQty(a: Account, slot: Slot)
    requires WellFormed(a) && slot in a.positions
    ensures a.positions[slot].qty > 0.0
  {
  }

  lemma FreshNow(ids: Ids, t: Target, k: nat, slot: Slot, h: Holding, a: Account)
    requires FreshFrom(ids, t, k, a)
    ensures CloseRequest(ids, t, k, slot, h).clientId !in a.orders
  {
    assert FlattenId(ids, t, k) !in a.orders;
  }

  lemma FreshLater(ids: Ids, t: Target, k: nat, a: Account)
    requires FreshFrom(ids, t, k, a)
    ensures FreshFrom(ids, t, k + 1, a)
  {
  }

  lemma GoneStaysGone(before: map<Slot, Holding>, after: map<Slot, Holding>, slot: Slot)
    requires Shrinks(before, after) && slot !in before
    ensures slot !in after
  {
  }

  lemma InPrefix(a: seq<string>, b: seq<string>, k: nat)
    requires a <= b && k < |a|
    ensures a[k] in b
  {
    assert b[k] == a[k];
  }

  lemma StillSoAfter(ids: Ids, t: Target, read: seq<(Slot, Holding)>, k: nat, a: Account)
    requires k < |read| && WellFormed(a) && StillSo(read, k, a) && !Mismatched(a.mode, t.context.mode)
    ensures StillSo(read, k + 1, Placed(a, CloseRequest(ids, t, k, read[k].0, read[k].1), AT_MARKET))
    ensures StillSo(read, k + 1, a)
  {
    hide Placed, WellFormed, CloseRequest, Mismatched;
    var b := Placed(a, CloseRequest(ids, t, k, read[k].0, read[k].1), AT_MARKET);
    forall i | k + 1 <= i < |read| ensures read[i].0 in b.positions && b.positions[read[i].0] == read[i].1 {
      CloseTouchesOne(ids, t, k, read[k].0, a, read[i].0);
    }
  }

  // --- one context --------------------------------------------------------------------------------

  lemma ListedCovers(t: Target, a: Account, slot: Slot)
    requires slot in a.positions && slot.symbol == t.context.symbol
    ensures exists i :: 0 <= i < |Listed(t, a)| && Listed(t, a)[i].0 == slot
  {
    var slots := PositionsOf(a, slot.symbol, t.read.Current? && t.read.sellFirst);
    match slot.side {
      case None => assert slot == Slot(slot.symbol, None);
      case Some(Buy) => assert slot == Slot(slot.symbol, Some(Buy));
      case Some(Sell) => assert slot == Slot(slot.symbol, Some(Sell));
    }
    assert slot in slots;
    var i :| 0 <= i < |slots| && slots[i] == slot;
    assert Listed(t, a)[i].0 == slot;
  }

  lemma ListedIsSo(t: Target, a: Account)
    ensures StillSo(Listed(t, a), 0, a)
    ensures forall i :: 0 <= i < |Listed(t, a)| ==> Listed(t, a)[i].0.symbol == t.context.symbol
  {
    SlotsDiffer(a, t.context.symbol, t.read.Current? && t.read.sellFirst);
    hide PositionsOf;
  }

  lemma SlotsDiffer(a: Account, symbol: string, sellFirst: bool)
    ensures var slots := PositionsOf(a, symbol, sellFirst);
      && (forall i :: 0 <= i < |slots| ==> slots[i] in a.positions && slots[i].symbol == symbol)
      && forall i, j :: 0 <= i < j < |slots| ==> slots[i] != slots[j]
  {
  }

  lemma CancelKeeps(ids: Ids, t: Target, a: Account, report: Report, k: nat)
    ensures var (b, noted) := CancelAll(t, a, report);
      && b.positions == a.positions && b.mode == a.mode && b.orders.Keys == a.orders.Keys && report.failures <= noted.failures
      && (WellFormed(a) ==> WellFormed(b)) && (FreshFrom(ids, t, k, a) ==> FreshFrom(ids, t, k, b))
      && (noted.failures == [] ==> forall id :: id in b.orders && b.orders[id].status.New? ==>
            b.orders[id].request.symbol != t.context.symbol && a.orders[id] == b.orders[id])
      && forall id :: id in b.orders && b.orders[id].status.New? ==> a.orders[id] == b.orders[id]
  {
    var b := CancelAll(t, a, report).0;
    assert b.orders.Keys == a.orders.Keys;
  }

  /** A kill never makes a position larger, turns one round or opens one, however stale its reads and however
      its calls go, and no order it sends is left resting.
    */
  lemma KillOneOnlyShrinks(ids: Ids, t: Target, a: Account, report: Report)
    ensures var (b, noted) := KillOne(ids, t, a, report);
      && Shrinks(a.positions, b.positions) && b.mode == a.mode && report.failures <= noted.failures
      && (WellFormed(a) ==> WellFormed(b))
      && (forall id :: id in b.orders && b.orders[id].status.New? ==> id in a.orders && a.orders[id] == b.orders[id])
  {
    hide CancelAll, CloseFrom, Listed, WellFormed, Shrinks;
    var (cancelled, noted) := CancelAll(t, a, report);
    CancelKeeps(ids, t, a, report, 0);
    SameShrinks(a.positions);
    match t.read
    case Current(_) => CloseFromOnlyShrinks(ids, t, Listed(t, cancelled), 0, cancelled, noted);
    case Stale(seen) => CloseFromOnlyShrinks(ids, t, seen, 0, cancelled, noted);
    case Unread =>
  }

  /** Each position of the symbol is gone afterwards, or the symbol is named among the failures. */
  lemma KillOneClosesOrNames(ids: Ids, t: Target, a: Account, report: Report, slot: Slot)
    requires Injective(ids) && FreshFrom(ids, t, 0, a) && WellFormed(a) && !Mismatched(a.mode, t.context.mode)
    requires slot.symbol == t.context.symbol && !t.read.Stale?
    ensures var (b, noted) := KillOne(ids, t, a, report);
      slot !in b.positions || t.context.symbol in noted.failures
  {
    hide CancelAll, CloseFrom, Listed, WellFormed, Shrinks, FreshFrom, StillSo;
    var (cancelled, noted) := CancelAll(t, a, report);
    CancelKeeps(ids, t, a, report, 0);
    if t.read.Current? {
      var read := Listed(t, cancelled);
      ListedIsSo(t, cancelled);
      if slot in cancelled.positions {
        ListedCovers(t, cancelled, slot);
        var i :| 0 <= i < |read| && read[i].0 == slot;
        ClosedOrNamed(ids, t, read, 0, cancelled, noted, i);
      } else {
        CloseFromOnlyShrinks(ids, t, read, 0, cancelled, noted);
        GoneStaysGone(cancelled.positions, CloseFrom(ids, t, read, 0, cancelled, noted).0.positions, slot);
      }
    }
  }

  // --- the whole kill ---------------------------------------------------------------------------------

  lemma {:induction false} CloseFromOrders(ids: Ids, t: Target, read: seq<(Slot, Holding)>, k: nat, a: Account, report: Report, id: string)
    requires k <= |read|
    ensures id in CloseFrom(ids, t, read, k, a, report).0.orders ==> id in a.orders || exists i: nat :: id == FlattenId(ids, t, i)
    decreases |read| - k
  {
    hide Placed;
    if k < |read| {
      if read[k].1.qty <= 0.0 {
        CloseFromOrders(ids, t, read, k + 1, a, report, id);
      } else {
        var r := CloseRequest(ids, t, k, read[k].0, read[k].1);
        var after := Delivered(a, r, AT_MARKET, t.close(k));
        var noted := if t.close(k).NoFault? then report.(closed := report.closed + 1)
                     else report.(failures := report.failures + [read[k].0.symbol]);
        PlacedOrders(a, r, AT_MARKET, id);
        assert r.clientId == FlattenId(ids, t, k);
        CloseFromOrders(ids, t, read, k + 1, after, noted, id);
      }
    }
  }

  /** Two contexts of a kill that could not share a client id: the clock, read anew for each position, never
      gives the positions of one index the same second in both.
    */
  ghost predicate Apart(t: Target, u: Target) {
    t.context.bot != u.context.bot || forall i: nat :: t.second(i) != u.second(i)
  }

  lemma KillKeepsFresh(ids: Ids, t: Target, a: Account, report: Report, u: Target)
    requires Injective(ids) && Apart(t, u) && FreshFrom(ids, u, 0, a)
    ensures FreshFrom(ids, u, 0, KillOne(ids, t, a, report).0)
  {
    hide CancelAll, CloseFrom, Listed;
    var (cancelled, noted) := CancelAll(t, a, report);
    CancelKeeps(ids, t, a, report, 0);
    forall i: nat | i >= 0 ensures FlattenId(ids, u, i) !in KillOne(ids, t, a, report).0.orders {
      if !t.read.Unread? {
        var read := if t.read.Stale? then t.read.seen else Listed(t, cancelled);
        CloseFromOrders(ids, t, read, 0, cancelled, noted, FlattenId(ids, u, i));
      }
    }
  }

  /** The same over every context of the kill, whatever each of them reads. */
  lemma {:induction false} KillAllOnlyShrinks(ids: Ids, targets: seq<Target>, n: nat, a: Account)
    requires n <= |targets|
    ensures var (b, report) := KillAll(ids, targets, n, a);
      && Shrinks(a.positions, b.positions) && b.mode == a.mode && (WellFormed(a) ==> WellFormed(b))
      && (forall id :: id in b.orders && b.orders[id].status.New? ==> id in a.orders && a.orders[id] == b.orders[id])
  {
    hide KillOne, WellFormed, Shrinks;
    if n == 0 {
      SameShrinks(a.positions);
    } else {
      var (before, report) := KillAll(ids, targets, n - 1, a);
      KillAllOnlyShrinks(ids, targets, n - 1, a);
      KillOneOnlyShrinks(ids, targets[n - 1], before, report);
      ShrinksTransitive(a.positions, before.positions, KillOne(ids, targets[n - 1], before, report).0.positions);
    }
  }

  lemma {:induction false} KillAllKeepsFresh(ids: Ids, targets: seq<Target>, n: nat, a: Account, u: Target)
    requires Injective(ids) && n <= |targets| && FreshFrom(ids, u, 0, a) && forall j :: 0 <= j < n ==> Apart(targets[j], u)
    ensures FreshFrom(ids, u, 0, KillAll(ids, targets, n, a).0)
  {
    hide KillOne, FreshFrom, Apart;
    if n > 0 {
      var (before, report) := KillAll(ids, targets, n - 1, a);
      KillAllKeepsFresh(ids, targets, n - 1, a, u);
      KillKeepsFresh(ids, targets[n - 1], before, report, u);
    }
  }

  /** The conditions under which a clean report can be believed: the bots know the account's mode, positions
      are read as they are, no two contexts of one bot send the closes of one index in one second, and the
      venue has seen no flatten for those seconds.
    */
  ghost predicate Trustworthy(ids: Ids, targets: seq<Target>, a: Account) {
    && WellFormed(a)
    && (forall j :: 0 <= j < |targets| ==>
          && !Mismatched(a.mode, targets[j].context.mode) && !targets[j].read.Stale?
          && FreshFrom(ids, targets[j], 0, a))
    && (forall i, j :: 0 <= i < j < |targets| ==> Apart(targets[i], targets[j]))
  }

  lemma {:induction false} ClosedOrNamedAfter(ids: Ids, targets: seq<Target>, n: nat, a: Account, j: nat, slot: Slot)
    requires Injective(ids) && Trustworthy(ids, targets, a) && j < n <= |targets| && slot.symbol == targets[j].context.symbol
    ensures var (b, report) := KillAll(ids, targets, n, a); slot !in b.positions || slot.symbol in report.failures
  {
    hide KillOne, WellFormed, Shrinks, FreshFrom, Apart, Mismatched;
    var (before, report) := KillAll(ids, targets, n - 1, a);
    var t := targets[n - 1];
    KillAllOnlyShrinks(ids, targets, n - 1, a);
    KillOneOnlyShrinks(ids, t, before, report);
    if j == n - 1 {
      KillAllKeepsFresh(ids, targets, n - 1, a, t);
      KillOneClosesOrNames(ids, t, before, report, slot);
    } else {
      ClosedOrNamedAfter(ids, targets, n - 1, a, j, slot);
      var (after, noted) := KillOne(ids, t, before, report);
      if slot.symbol in report.failures {
        var k :| 0 <= k < |report.failures| && report.failures[k] == slot.symbol;
        InPrefix(report.failures, noted.failures, k);
      } else {
        GoneStaysGone(before.positions, after.positions, slot);
      }
    }
  }

  /** The kill flattens: with trustworthy contexts, every position of a killed symbol is gone or the symbol is
      among the failures, so a clean report means none is left.
    */
  lemma CleanKillIsFlat(ids: Ids, targets: seq<Target>, a: Account, slot: Slot, j: nat)
    requires Injective(ids) && Trustworthy(ids, targets, a) && j < |targets| && slot.symbol == targets[j].context.symbol
    ensures var (b, report) := KillAll(ids, targets, |targets|, a);
      && (slot !in b.positions || slot.symbol in report.failures)
      && (report.Clean() ==> slot !in b.positions)
  {
    hide KillAll, Trustworthy;
    ClosedOrNamedAfter(ids, targets, |targets|, a, j, slot);
  }

  // --- where a clean report misleads ---------------------------------------------------------------------

  /** A bot killed on two symbols within one second: both closes carry one client id, the venue answers the
      second with the first order, and the report is clean while the second position stands.
    */
  lemma TwoSymbolsInOneSecond(ids: Ids, bot: string, second: int, held: Holding)
    requires held.qty > 0.0
    ensures var t := (symbol: string) => Target(Context(bot, symbol, OneWay), (_: nat) => second, NoFault, Current(false), (_: nat) => NoFault);
      var first, other := Slot("A", None), Slot("B", None);
      var a := Account(OneWay, map[first := held, other := held], map[], []);
      var (b, report) := KillAll(ids, [t("A"), t("B")], 2, a);
      report.Clean() && report.closed == 2 && first !in b.positions && other in b.positions && b.positions[other] == held
  {
    var t := (symbol: string) => Target(Context(bot, symbol, OneWay), (_: nat) => second, NoFault, Current(false), (_: nat) => NoFault);
    var first, other := Slot("A", None), Slot("B", None);
    var a := Account(OneWay, map[first := held, other := held], map[], []);
    var targets := [t("A"), t("B")];
    var start := Report(0, 0, []);
    assert KillAll(ids, targets, 0, a) == (a, start);
    var (b1, r1) := KillOne(ids, t("A"), a, start);
    assert KillAll(ids, targets, 1, a) == (b1, r1);
    OneClose(ids, t("A"), a, start, held);
    OneClose(ids, t("B"), b1, r1, held);
    hide KillOne;
  }

  /** What a kill does to an account whose symbol holds one one-way position. */
  lemma OneClose(ids: Ids, t: Target, a: Account, report: Report, held: Holding)
    requires a.mode.OneWay? && t.context.mode.OneWay? && t.cancel.NoFault? && t.read.Current? && t.close(0).NoFault?
    requires held.qty > 0.0 && report.failures == []
    requires Slot(t.context.symbol, None) in a.positions && a.positions[Slot(t.context.symbol, None)] == held
    requires Slot(t.context.symbol, Some(Buy)) !in a.positions && Slot(t.context.symbol, Some(Sell)) !in a.positions
    ensures var (b, noted) := KillOne(ids, t, a, report);
      && noted.failures == [] && noted.closed == report.closed + 1 && b.mode.OneWay?
      && b.positions == (if FlattenId(ids, t, 0) in a.orders then a.positions else a.positions - {Slot(t.context.symbol, None)})
      && FlattenId(ids, t, 0) in b.orders
  {
    var slot := Slot(t.context.symbol, None);
    var (cancelled, noted) := CancelAll(t, a, report);
    CancelKeeps(ids, t, a, report, 0);
    hide CancelAll;
    var read := Listed(t, cancelled);
    assert read == [(slot, held)];
    var r := CloseRequest(ids, t, 0, slot, held);
    assert CloseFrom(ids, t, read, 1, Placed(cancelled, r, AT_MARKET), noted.(closed := noted.closed + 1))
        == (Placed(cancelled, r, AT_MARKET), noted.(closed := noted.closed + 1));
  }
}
