/** Exactly which positions a kill leaves when every call goes through, so that its report is clean
    (apps/api/quanta/services/execution.py).
  */
module KillOutcome {
  import opened Venues
  import opened Execution
  import opened KillSwitch

  /** The bot knows the account's mode, its positions are read as they are, and no call is lost. */
  ghost predicate Smooth(t: Target, mode: Mode) {
    !Mismatched(mode, t.context.mode) && t.cancel.NoFault? && t.read.Current? && forall i: nat :: t.close(i).NoFault?
  }

  // --- one context ------------------------------------------------------------------------

  function Noted(report: Report): Report {
    report.(closed := report.closed + 1)
  }

  lemma CloseStep(ids: Ids, t: Target, read: seq<(Slot, Holding)>, k: nat, a: Account, report: Report)
    requires Smooth(t, a.mode) && WellFormed(a) && k < |read| && StillSo(read, k, a)
    ensures var after := Placed(a, CloseRequest(ids, t, k, read[k].0, read[k].1), AT_MARKET);
      && CloseFrom(ids, t, read, k, a, report) == CloseFrom(ids, t, read, k + 1, after, Noted(report))
      && WellFormed(after) && Smooth(t, after.mode) && StillSo(read, k + 1, after)
      && ClosedOne(ids, t, read, k, a, after)
  {
    hide Placed, WellFormed, CloseRequest, Mismatched, CloseFrom;
    var r := CloseRequest(ids, t, k, read[k].0, read[k].1);
    var after := Placed(a, r, AT_MARKET);
    CloseUnfolds(ids, t, read, k, a, report);
    CloseReduces(ids, t, k, read[k].0, read[k].1);
    PositiveQty(a, read[k].0);
    ReduceOnlyShrinks(a, r, AT_MARKET);
    CloseWorksExactlyWhen(ids, t, k, read[k].0, a);
    ItsIdIs(ids, t, k, read[k].0, read[k].1);
    StillSoAfter(ids, t, read, k, a);
    forall id ensures id in after.orders <==> id in a.orders || id == FlattenId(ids, t, k) {
      PlacedOrders(a, r, AT_MARKET, id);
    }
    forall slot | slot != read[k].0 ensures Untouched(a, after, slot) {
      CloseTouchesOne(ids, t, k, read[k].0, a, slot);
    }
  }

  lemma ItsIdIs(ids: Ids, t: Target, k: nat, slot: Slot, h: Holding)
    ensures CloseRequest(ids, t, k, slot, h).clientId == FlattenId(ids, t, k)
  {
  }

  lemma CloseUnfolds(ids: Ids, t: Target, read: seq<(Slot, Holding)>, k: nat, a: Account, report: Report)
    requires Smooth(t, a.mode) && WellFormed(a) && k < |read| && StillSo(read, k, a)
    ensures CloseFrom(ids, t, read, k, a, report) ==
      CloseFrom(ids, t, read, k + 1, Placed(a, CloseRequest(ids, t, k, read[k].0, read[k].1), AT_MARKET), Noted(report))
  {
    hide Placed, CloseRequest;
    PositiveQty(a, read[k].0);
    assert t.close(k).NoFault?;
  }

  predicate Untouched(a: Account, b: Account, slot: Slot) {
    (slot in b.positions <==> slot in a.positions) && (slot in a.positions ==> b.positions[slot] == a.positions[slot])
  }

  /** The id of a close from index k up to n. */
  predicate IsSent(ids: Ids, t: Target, k: nat, n: nat, id: string) {
    exists i :: k <= i < n && id == FlattenId(ids, t, i)
  }

  predicate Among(read: seq<(Slot, Holding)>, k: nat, slot: Slot) {
    exists i :: k <= i < |read| && read[i].0 == slot
  }

  /** What the closes from index k on make of an account. */
  ghost predicate Closed(ids: Ids, t: Target, read: seq<(Slot, Holding)>, k: nat, a: Account, b: Account) {
    && WellFormed(b) && b.mode == a.mode
    && (forall i :: k <= i < |read| ==> (read[i].0 !in b.positions <==> FlattenId(ids, t, i) !in a.orders))
    && (forall slot :: !Among(read, k, slot) ==> Untouched(a, b, slot))
    && (forall id :: id in b.orders <==> id in a.orders || IsSent(ids, t, k, |read|, id))
  }

  /** What one close makes of it. */
  ghost predicate ClosedOne(ids: Ids, t: Target, read: seq<(Slot, Holding)>, k: nat, a: Account, after: Account)
    requires k < |read|
  {
    && after.mode == a.mode
    && (read[k].0 !in after.positions <==> FlattenId(ids, t, k) !in a.orders)
    && (forall id :: id in after.orders <==> id in a.orders || id == FlattenId(ids, t, k))
    && (forall slot :: slot != read[k].0 ==> Untouched(a, after, slot))
  }

  lemma ClosedThen(ids: Ids, t: Target, read: seq<(Slot, Holding)>, k: nat, a: Account, after: Account, b: Account)
    requires Injective(ids) && k < |read| && ClosedOne(ids, t, read, k, a, after) && Closed(ids, t, read, k + 1, after, b)
    requires forall i, j :: 0 <= i < j < |read| ==> read[i].0 != read[j].0
    ensures Closed(ids, t, read, k, a, b)
  {
    hide FlattenId, WellFormed;
    forall i | k <= i < |read| ensures read[i].0 !in b.positions <==> FlattenId(ids, t, i) !in a.orders {
      if i > k { IdsDiffer(ids, t, i, k); } else { assert !Among(read, k + 1, read[k].0) && Untouched(after, b, read[k].0); }
    }
    forall slot | !Among(read, k, slot) ensures Untouched(a, b, slot) {
      assert slot != read[k].0 && !Among(read, k + 1, slot);
      assert Untouched(a, after, slot) && Untouched(after, b, slot);
    }
    forall id ensures id in b.orders <==> id in a.orders || IsSent(ids, t, k, |read|, id) {
      SentSplits(ids, t, k, |read|, id);
    }
  }

  lemma SentSplits(ids: Ids, t: Target, k: nat, n: nat, id: string)
    requires k < n
    ensures IsSent(ids, t, k, n, id) <==> id == FlattenId(ids, t, k) || IsSent(ids, t, k + 1, n, id)
  {
    hide FlattenId;
  }

  lemma NothingClosed(ids: Ids, t: Target, read: seq<(Slot, Holding)>, a: Account)
    requires WellFormed(a)
    ensures Closed(ids, t, read, |read|, a, a)
  {
  }

  /** The closes of a context: each position read goes exactly when its id is new, other positions stay as they
      are, and nothing is named as a failure.
    */
  lemma {:induction false} ClosesExactly(ids: Ids, t: Target, read: seq<(Slot, Holding)>, k: nat, a: Account, report: Report)
    requires Injective(ids) && Smooth(t, a.mode) && WellFormed(a) && k <= |read| && StillSo(read, k, a)
    ensures var (b, noted) := CloseFrom(ids, t, read, k, a, report);
      Closed(ids, t, read, k, a, b) && noted.failures == report.failures && noted.closed == report.closed + |read| - k
    decreases |read| - k
  {
    hide Placed, WellFormed, CloseRequest, Smooth, FlattenId, Closed, ClosedOne;
    if k == |read| {
      NothingClosed(ids, t, read, a);
    } else {
      CloseStep(ids, t, read, k, a, report);
      hide CloseFrom;
      var after := Placed(a, CloseRequest(ids, t, k, read[k].0, read[k].1), AT_MARKET);
      ClosesExactly(ids, t, read, k + 1, after, Noted(report));
      ClosedThen(ids, t, read, k, a, after, CloseFrom(ids, t, read, k, a, report).0);
    }
  }

  lemma IdsDiffer(ids: Ids, t: Target, i: nat, k: nat)
    requires Injective(ids) && i != k
    ensures FlattenId(ids, t, i) != FlattenId(ids, t, k)
  {
  }

  lemma SmoothContext(ids: Ids, t: Target, a: Account, report: Report)
    requires Injective(ids) && Smooth(t, a.mode) && WellFormed(a)
    ensures var (b, noted) := KillOne(ids, t, a, report);
      && Closed(ids, t, Listed(t, a), 0, a, b)
      && noted.failures == report.failures && noted.closed == report.closed + |Listed(t, a)|
  {
    hide CloseFrom, WellFormed, FlattenId, PositionsOf, StillSo, Closed, Listed, WithoutOpenOrders, OpenCount, Mismatched;
    var (cancelled, noted) := CancelAll(t, a, report);
    CancelKeeps(ids, t, a, report, 0);
    assert noted.failures == report.failures && noted.closed == report.closed;
    hide CancelAll;
    var read := Listed(t, cancelled);
    SameListed(t, a, cancelled);
    ListedIsSo(t, cancelled);
    ClosesExactly(ids, t, read, 0, cancelled, noted);
    ClosedAlike(ids, t, read, a, cancelled, CloseFrom(ids, t, read, 0, cancelled, noted).0);
  }

  lemma ClosedAlike(ids: Ids, t: Target, read: seq<(Slot, Holding)>, a: Account, b: Account, c: Account)
    requires a.positions == b.positions && a.mode == b.mode && a.orders.Keys == b.orders.Keys
    requires Closed(ids, t, read, 0, b, c)
    ensures Closed(ids, t, read, 0, a, c)
  {
    hide FlattenId, WellFormed, IsSent, Among;
    assert forall id :: id in a.orders <==> id in b.orders;
    forall slot | !Among(read, 0, slot) ensures Untouched(a, c, slot) {
      assert Untouched(b, c, slot);
    }
  }

  lemma SameListed(t: Target, a: Account, b: Account)
    requires a.positions == b.positions
    ensures Listed(t, a) == Listed(t, b)
  {
  }

  // --- the whole kill -----------------------------------------------------------------------

  /** A close of an earlier context takes the id of this one: the same bot, index and second. */
  predicate Taken(targets: seq<Target>, a: Account, j: nat, i: nat, earlier: nat)
    requires earlier < j < |targets|
  {
    && targets[earlier].context.bot == targets[j].context.bot
    && targets[earlier].second(i) == targets[j].second(i)
    && i < |Listed(targets[earlier], a)|
  }

  /** The positions held at the start in the symbols of the first n contexts. */
  function ListedBy(targets: seq<Target>, n: nat, a: Account): nat
    requires n <= |targets|
  {
    if n == 0 then 0 else ListedBy(targets, n - 1, a) + |Listed(targets[n - 1], a)|
  }

  predicate EachSymbolOnce(targets: seq<Target>) {
    forall i, j :: 0 <= i < j < |targets| ==> targets[i].context.symbol != targets[j].context.symbol
  }

  ghost predicate AllSmooth(targets: seq<Target>, mode: Mode) {
    forall j :: 0 <= j < |targets| ==> Smooth(targets[j], mode)
  }

  lemma SameIdMeans(ids: Ids, t: Target, u: Target, i: nat, k: nat)
    requires Injective(ids)
    ensures FlattenId(ids, t, i) == FlattenId(ids, u, k) <==>
      i == k && t.context.bot == u.context.bot && t.second(i) == u.second(i)
  {
  }

  /** The id of a close of one of the first n contexts. */
  predicate IsSentBy(ids: Ids, targets: seq<Target>, n: nat, a: Account, id: string)
    requires n <= |targets|
  {
    exists e :: 0 <= e < n && IsSent(ids, targets[e], 0, |Listed(targets[e], a)|, id)
  }

  predicate Handled(targets: seq<Target>, n: nat, symbol: string)
    requires n <= |targets|
  {
    exists e :: 0 <= e < n && targets[e].context.symbol == symbol
  }

  /** After n contexts: the ids at the venue, and the positions of the symbols still to come. */
  ghost predicate Reached(ids: Ids, targets: seq<Target>, n: nat, a: Account, b: Account)
    requires n <= |targets|
  {
    && WellFormed(b) && b.mode == a.mode
    && (forall id :: id in b.orders <==> id in a.orders || IsSentBy(ids, targets, n, a, id))
    && (forall slot: Slot :: !Handled(targets, n, slot.symbol) ==> Untouched(a, b, slot))
  }

  lemma ListedAlike(t: Target, a: Account, b: Account)
    requires forall slot: Slot :: slot.symbol == t.context.symbol ==> Untouched(a, b, slot)
    ensures Listed(t, a) == Listed(t, b)
  {
    var symbol, sellFirst := t.context.symbol, t.read.Current? && t.read.sellFirst;
    assert forall side :: Untouched(a, b, Slot(symbol, side));
    assert PositionsOf(a, symbol, sellFirst) == PositionsOf(b, symbol, sellFirst);
    assert forall k :: 0 <= k < |Listed(t, a)| ==> Untouched(a, b, PositionsOf(a, symbol, sellFirst)[k]);
  }

  lemma NotYet(targets: seq<Target>, n: nat)
    requires n < |targets| && EachSymbolOnce(targets)
    ensures !Handled(targets, n, targets[n].context.symbol)
  {
  }

  lemma StepReaches(ids: Ids, targets: seq<Target>, n: nat, a: Account, b: Account, c: Account)
    requires n < |targets| && EachSymbolOnce(targets) && Reached(ids, targets, n, a, b)
    requires Closed(ids, targets[n], Listed(targets[n], b), 0, b, c)
    ensures Reached(ids, targets, n + 1, a, c) && Listed(targets[n], b) == Listed(targets[n], a)
  {
    hide WellFormed, FlattenId, Listed, IsSent;
    var symbol := targets[n].context.symbol;
    NotYet(targets, n);
    hide EachSymbolOnce;
    ListedAlike(targets[n], a, b);
    forall id ensures id in c.orders <==> id in a.orders || IsSentBy(ids, targets, n + 1, a, id) {
      assert IsSentBy(ids, targets, n + 1, a, id) <==>
        IsSentBy(ids, targets, n, a, id) || IsSent(ids, targets[n], 0, |Listed(targets[n], a)|, id);
    }
    forall slot: Slot | !Handled(targets, n + 1, slot.symbol) ensures Untouched(a, c, slot) {
      assert slot.symbol != symbol && !Handled(targets, n, slot.symbol);
      ElsewhereUntouched(ids, targets[n], b, c, slot);
      assert Untouched(a, b, slot);
    }
  }

  lemma ElsewhereUntouched(ids: Ids, t: Target, b: Account, c: Account, slot: Slot)
    requires Closed(ids, t, Listed(t, b), 0, b, c) && slot.symbol != t.context.symbol
    ensures Untouched(b, c, slot)
  {
    hide WellFormed, FlattenId, Listed;
    ListedIsSo(t, b);
    assert !Among(Listed(t, b), 0, slot);
  }

  lemma {:induction false} KillReaches(ids: Ids, targets: seq<Target>, n: nat, a: Account)
    requires Injective(ids) && WellFormed(a) && AllSmooth(targets, a.mode) && EachSymbolOnce(targets) && n <= |targets|
    ensures var (b, report) := KillAll(ids, targets, n, a);
      Reached(ids, targets, n, a, b) && report.failures == [] && report.closed == ListedBy(targets, n, a)
  {
    hide KillOne, Closed, EachSymbolOnce, Smooth, FlattenId, Listed;
    if n > 0 {
      var (b, report) := KillAll(ids, targets, n - 1, a);
      KillReaches(ids, targets, n - 1, a);
      SmoothContext(ids, targets[n - 1], b, report);
      StepReaches(ids, targets, n - 1, a, b, KillOne(ids, targets[n - 1], b, report).0);
    }
  }

  /** Later contexts do not touch the positions of an earlier one's symbol. */
  lemma {:induction false} LaterLeaves(ids: Ids, targets: seq<Target>, j: nat, n: nat, a: Account, slot: Slot)
    requires Injective(ids) && WellFormed(a) && AllSmooth(targets, a.mode) && EachSymbolOnce(targets)
    requires j < n <= |targets| && slot.symbol == targets[j].context.symbol
    ensures slot in KillAll(ids, targets, n, a).0.positions <==> slot in KillAll(ids, targets, j + 1, a).0.positions
    decreases n
  {
    hide KillOne, Smooth, WellFormed, FlattenId, Listed;
    if n > j + 1 {
      LaterLeaves(ids, targets, j, n - 1, a, slot);
      KillReaches(ids, targets, n - 1, a);
      var (b, report) := KillAll(ids, targets, n - 1, a);
      SmoothContext(ids, targets[n - 1], b, report);
      ElsewhereUntouched(ids, targets[n - 1], b, KillOne(ids, targets[n - 1], b, report).0, slot);
    }
  }

  /** A kill whose every call goes through reports no failure and every position as closed, but closes a position
      exactly when the venue has not seen its client id: no order there had it before, and no earlier context of
      the same bot sent the close of the same index in the same second.
    */
  lemma KillClosesExactlyWhen(ids: Ids, targets: seq<Target>, a: Account, j: nat, i: nat)
    requires Injective(ids) && WellFormed(a) && AllSmooth(targets, a.mode) && EachSymbolOnce(targets)
    requires j < |targets| && i < |Listed(targets[j], a)|
    ensures var (b, report) := KillAll(ids, targets, |targets|, a);
      && report.Clean() && report.closed == ListedBy(targets, |targets|, a)
      && (Listed(targets[j], a)[i].0 !in b.positions <==>
            FlattenId(ids, targets[j], i) !in a.orders && forall e :: 0 <= e < j ==> !Taken(targets, a, j, i, e))
  {
    var slot := Listed(targets[j], a)[i].0;
    ListedIsSo(targets[j], a);
    hide KillOne, Smooth, WellFormed, FlattenId, Listed;
    KillReaches(ids, targets, |targets|, a);
    LaterLeaves(ids, targets, j, |targets|, a, slot);
    KillReaches(ids, targets, j, a);
    var (b, report) := KillAll(ids, targets, j, a);
    SmoothContext(ids, targets[j], b, report);
    StepReaches(ids, targets, j, a, b, KillOne(ids, targets[j], b, report).0);
    TakenMeans(ids, targets, a, b, j, i);
  }

  lemma TakenMeans(ids: Ids, targets: seq<Target>, a: Account, b: Account, j: nat, i: nat)
    requires Injective(ids) && j < |targets| && Reached(ids, targets, j, a, b)
    ensures FlattenId(ids, targets[j], i) in b.orders <==>
      FlattenId(ids, targets[j], i) in a.orders || exists e :: 0 <= e < j && Taken(targets, a, j, i, e)
  {
    var id := FlattenId(ids, targets[j], i);
    hide WellFormed, FlattenId, Listed;
    forall e, k: nat | 0 <= e < j
      ensures id == FlattenId(ids, targets[e], k) <==>
        (k == i && targets[e].context.bot == targets[j].context.bot && targets[e].second(i) == targets[j].second(i))
    {
      SameIdMeans(ids, targets[e], targets[j], k, i);
    }
    forall e | 0 <= e < j
      ensures IsSent(ids, targets[e], 0, |Listed(targets[e], a)|, id) <==> Taken(targets, a, j, i, e)
    {
      if Taken(targets, a, j, i, e) { assert id == FlattenId(ids, targets[e], i); }
    }
  }
}
