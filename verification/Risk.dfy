/** Risk limits for a live bot (apps/api/quanta/services/risk.py).

    Times are whole microseconds since the epoch, in UTC; amounts are exact.
  */
module Risk {
  import opened Wrappers
  import opened Arithmetic
  import opened Collections

  const MINUTE := 60_000_000
  const DAY := 86_400_000_000

  datatype Limits = Limits(
    maxPositionNotional: real, maxDailyLoss: real, maxDrawdownPercent: real, maxLeverage: int, maxOrdersPerMinute: int)
  {
    predicate Valid() {
      && maxPositionNotional > 0.0 && maxDailyLoss > 0.0 && 0.0 < maxDrawdownPercent <= 100.0
      && maxLeverage >= 1 && maxOrdersPerMinute >= 1
    }
  }

  datatype Code = PositionTooLarge | DailyLoss | MaxDrawdown | LeverageTooHigh | RateLimited

  datatype Verdict = Allowed | Refused(code: Code, halt: bool)

  /** An order as the guard sees it; `held` is the notional already held. */
  datatype Order = Order(reduceOnly: bool, qty: real, price: real, held: real, leverage: int) {
    /** The notional held once it is filled. */
    function Notional(): real {
      held + qty * price
    }
  }

  /** What the guard remembers. */
  datatype Memory = Memory(dayStartEquity: real, peak: real, dayStartedAt: int, recent: seq<int>)

  function DayStart(at: int): int {
    at / DAY * DAY
  }

  // --- specification ----------------------------------------------------------------

  function Starting(equity: real, at: int): Memory {
    Memory(equity, equity, DayStart(at), [])
  }

  function Observed(m: Memory, equity: real, at: int): Memory {
    var rolled := if DayStart(at) > m.dayStartedAt then m.(dayStartedAt := DayStart(at), dayStartEquity := equity) else m;
    if equity > rolled.peak then rolled.(peak := equity) else rolled
  }

  /** Drops from the front what is a minute old or older. */
  function Trimmed(recent: seq<int>, at: int): seq<int> {
    if |recent| > 0 && at - recent[0] >= MINUTE then Trimmed(recent[1..], at) else recent
  }

  function Record(m: Memory, at: int): Memory {
    m.(recent := Trimmed(m.recent + [at], at))
  }

  function Drop(m: Memory, equity: real): real
    requires m.peak > 0.0
  {
    (m.peak - equity) / m.peak * 100.0
  }

  /** The damage limits, on memory that has just observed this equity. */
  function Damage(limits: Limits, m: Memory, equity: real): Verdict {
    if m.dayStartEquity - equity >= limits.maxDailyLoss then Refused(DailyLoss, true)
    else if m.peak > 0.0 && Drop(m, equity) >= limits.maxDrawdownPercent then Refused(MaxDrawdown, true)
    else Allowed
  }

  /** The pace limits, on memory that has just been trimmed. */
  function Pace(limits: Limits, m: Memory, order: Order): Verdict {
    if |m.recent| >= limits.maxOrdersPerMinute then Refused(RateLimited, false)
    else if order.Notional() > limits.maxPositionNotional then Refused(PositionTooLarge, false)
    else Allowed
  }

  /** The memory after a check, and the answer. An exit looks at nothing. */
  function Checked(limits: Limits, m: Memory, order: Order, equity: real, at: int): (Memory, Verdict) {
    if order.reduceOnly then (m, Allowed)
    else
      var seen := Observed(m, equity, at);
      var damage := Damage(limits, seen, equity);
      if damage.Refused? then (seen, damage)
      else if order.leverage > limits.maxLeverage then (seen, Refused(LeverageTooHigh, true))
      else
        var trimmed := seen.(recent := Trimmed(seen.recent, at));
        (trimmed, Pace(limits, trimmed, order))
  }

  function DailyBudget(limits: Limits, m: Memory, equity: real): real
    requires limits.Valid()
  {
    MinReal(100.0, MaxReal(0.0, m.dayStartEquity - equity) / limits.maxDailyLoss * 100.0)
  }

  function DrawdownBudget(limits: Limits, m: Memory, equity: real): real
    requires limits.Valid()
  {
    if m.peak > 0.0 then MinReal(100.0, MaxReal(0.0, Drop(m, equity)) / limits.maxDrawdownPercent * 100.0) else 0.0
  }

  function LargestAllowedQty(limits: Limits, price: real, held: real): real {
    if price <= 0.0 then 0.0 else MaxReal(0.0, (limits.maxPositionNotional - held) / price)
  }

  // --- the objects --------------------------------------------------------------------

  class RiskState {
    var dayStartEquity: real
    var peak: real
    var dayStartedAt: int
    var recent: seq<int>

    ghost function View(): Memory
      reads this
    {
      Memory(dayStartEquity, peak, dayStartedAt, recent)
    }

    constructor StartingAt(equity: real, at: int)
      ensures View() == Starting(equity, at)
    {
      dayStartEquity, peak, dayStartedAt, recent := equity, equity, DayStart(at), [];
    }

    method Observe(equity: real, at: int)
      modifies this
      ensures View() == Observed(old(View()), equity, at)
    {
      if DayStart(at) > dayStartedAt {
        dayStartedAt := DayStart(at);
        dayStartEquity := equity;
      }
      if equity > peak {
        peak := equity;
      }
    }

    method RecordOrder(at: int)
      modifies this
      ensures View() == Record(old(View()), at)
    {
      recent := recent + [at];
      Trim(at);
    }

    method OrdersInLastMinute(at: int) returns (count: nat)
      modifies this
      ensures View() == old(View()).(recent := Trimmed(old(recent), at)) && count == |recent|
    {
      Trim(at);
      count := |recent|;
    }

    method Trim(at: int)
      modifies this`recent
      ensures recent == Trimmed(old(recent), at)
    {
      while |recent| > 0 && at - recent[0] >= MINUTE
        invariant Trimmed(recent, at) == Trimmed(old(recent), at)
        decreases |recent|
      {
        recent := recent[1..];
      }
    }
  }

  class RiskGuard {
    const limits: Limits
    const state: RiskState

    constructor (limits: Limits, state: RiskState)
      ensures this.limits == limits && this.state == state
    {
      this.limits, this.state := limits, state;
    }

    method CheckEquity(equity: real, at: int) returns (verdict: Verdict)
      modifies state
      ensures state.View() == Observed(old(state.View()), equity, at)
      ensures verdict == Damage(limits, state.View(), equity)
    {
      state.Observe(equity, at);
      var lost := state.dayStartEquity - equity;
      if lost >= limits.maxDailyLoss {
        return Refused(DailyLoss, true);
      }
      if state.peak > 0.0 {
        var drop := (state.peak - equity) / state.peak * 100.0;
        if drop >= limits.maxDrawdownPercent {
          return Refused(MaxDrawdown, true);
        }
      }
      return Allowed;
    }

    method CheckOrder(order: Order, equity: real, at: int) returns (verdict: Verdict)
      modifies state
      ensures (state.View(), verdict) == Checked(limits, old(state.View()), order, equity, at)
    {
      hide Order.Notional, Observed, Damage, Trimmed;
      if order.reduceOnly {
        return Allowed;
      }
      var damage := CheckEquity(equity, at);
      if damage != Allowed {
        return damage;
      }
      if order.leverage > limits.maxLeverage {
        return Refused(LeverageTooHigh, true);
      }
      var rate := state.OrdersInLastMinute(at);
      if rate >= limits.maxOrdersPerMinute {
        return Refused(RateLimited, false);
      }
      if order.Notional() > limits.maxPositionNotional {
        return Refused(PositionTooLarge, false);
      }
      return Allowed;
    }
  }

  // --- one equity -------------------------------------------------------------------------

  lemma ShareOfLimit(used: real, limit: real)
    requires limit > 0.0
    ensures MinReal(100.0, MaxReal(0.0, used) / limit * 100.0) <= 100.0
    ensures MinReal(100.0, MaxReal(0.0, used) / limit * 100.0) == 100.0 <==> used >= limit
  {
    var q := MaxReal(0.0, used) / limit;
    assert q * limit == MaxReal(0.0, used);
    if q >= 1.0 { assert (q - 1.0) * limit >= 0.0; } else { assert (1.0 - q) * limit > 0.0; }
  }

  /** The bars a person watches and the limits that halt agree: a budget reads 100 exactly when the same
      equity halts the bot.
    */
  lemma FullBudgetIsHalt(limits: Limits, m: Memory, equity: real)
    requires limits.Valid()
    ensures Damage(limits, m, equity).Refused? <==>
      DailyBudget(limits, m, equity) == 100.0 || DrawdownBudget(limits, m, equity) == 100.0
  {
    ShareOfLimit(m.dayStartEquity - equity, limits.maxDailyLoss);
    if m.peak > 0.0 { ShareOfLimit(Drop(m, equity), limits.maxDrawdownPercent); }
    hide MinReal, MaxReal, Drop;
  }

  /** A quantity fits the position limit exactly when it is within what the guard offers. */
  lemma OfferedQtyFits(limits: Limits, order: Order)
    requires order.qty > 0.0 && order.price > 0.0
    ensures order.held + order.qty * order.price <= limits.maxPositionNotional <==>
      order.qty <= LargestAllowedQty(limits, order.price, order.held)
  {
    var room := limits.maxPositionNotional - order.held;
    var q := room / order.price;
    assert q * order.price == room;
    if order.qty <= q { assert (q - order.qty) * order.price >= 0.0; } else { assert (order.qty - q) * order.price > 0.0; }
    if q < 0.0 { assert order.qty * order.price > 0.0; }
  }

  // --- whole runs -----------------------------------------------------------------------

  /** What happens to a guard: an equity update, or an order checked and, if allowed, perhaps sent. */
  datatype Event = Update(equity: real, at: int) | Place(order: Order, equity: real, at: int, sent: bool)

  /** A recorded order. */
  datatype Sent = Sent(at: int, opening: bool)

  /** The guard and, for the record, every order it was told of. */
  datatype Run = Run(memory: Memory, sent: seq<Sent>)

  function Step(limits: Limits, r: Run, e: Event): Run {
    match e
    case Update(equity, at) => r.(memory := Observed(r.memory, equity, at))
    case Place(order, equity, at, sent) =>
      var (m, verdict) := Checked(limits, r.memory, order, equity, at);
      if verdict.Allowed? && sent then Run(Record(m, at), r.sent + [Sent(at, !order.reduceOnly)]) else r.(memory := m)
  }

  function After(limits: Limits, start: Memory, events: seq<Event>, k: nat): Run
    requires k <= |events|
  {
    if k == 0 then Run(start, []) else Step(limits, After(limits, start, events, k - 1), events[k - 1])
  }

  predicate Forward(events: seq<Event>) {
    forall i, j :: 0 <= i < j < |events| ==> events[i].at <= events[j].at
  }

  function Times(sent: seq<Sent>): (r: seq<int>)
    ensures |r| == |sent|
  {
    seq(|sent|, i requires 0 <= i < |sent| => sent[i].at)
  }

  /** The queue is the tail of the record that the last minute can still see, in order. */
  predicate Recalls(r: Run, now: int) {
    && |r.memory.recent| <= |r.sent|
    && r.memory.recent == Times(r.sent)[|r.sent| - |r.memory.recent|..]
    && (forall i :: 0 <= i < |r.sent| - |r.memory.recent| ==> now - r.sent[i].at >= MINUTE)
    && (forall i, j :: 0 <= i < j < |r.sent| ==> r.sent[i].at <= r.sent[j].at)
    && (forall i :: 0 <= i < |r.sent| ==> r.sent[i].at <= now)
  }

  lemma {:induction false} TrimKeepsTail(recent: seq<int>, at: int)
    requires forall i, j :: 0 <= i < j < |recent| ==> recent[i] <= recent[j]
    ensures var t := Trimmed(recent, at);
      && |t| <= |recent| && t == recent[|recent| - |t|..]
      && (forall i :: 0 <= i < |recent| - |t| ==> at - recent[i] >= MINUTE)
      && (forall i :: 0 <= i < |t| ==> at - t[i] < MINUTE)
  {
    if |recent| > 0 && at - recent[0] >= MINUTE {
      TrimKeepsTail(recent[1..], at);
      var t := Trimmed(recent, at);
      assert recent[1..][|recent[1..]| - |t|..] == recent[|recent| - |t|..];
      forall i | 0 <= i < |recent| - |t| ensures at - recent[i] >= MINUTE {
        if i > 0 { assert recent[1..][i - 1] == recent[i]; }
      }
    }
  }

  lemma TrimRecalls(r: Run, now: int, at: int)
    requires Recalls(r, now) && now <= at
    ensures Recalls(r.(memory := r.memory.(recent := Trimmed(r.memory.recent, at))), at)
  {
    var before, after := r.memory.recent, Trimmed(r.memory.recent, at);
    var cut := |r.sent| - |before|;
    forall i | 0 <= i < |before| ensures before[i] == r.sent[cut + i].at {}
    TrimKeepsTail(before, at);
    forall i | 0 <= i < |r.sent| - |after| ensures at - r.sent[i].at >= MINUTE {
      if i >= cut { assert before[i - cut] == r.sent[i].at; }
    }
  }

  lemma RecordRecalls(r: Run, now: int, at: int, opening: bool)
    requires Recalls(r, now) && now <= at
    ensures Recalls(Run(Record(r.memory, at), r.sent + [Sent(at, opening)]), at)
  {
    var longer := Run(r.memory.(recent := r.memory.recent + [at]), r.sent + [Sent(at, opening)]);
    assert Times(longer.sent) == Times(r.sent) + [at];
    assert Recalls(longer, at);
    TrimRecalls(longer, at, at);
  }

  lemma LaterRecalls(r: Run, m: Memory, now: int, at: int)
    requires Recalls(r, now) && now <= at && m.recent == r.memory.recent
    ensures Recalls(r.(memory := m), at)
  {
  }

  lemma CheckedRecent(limits: Limits, m: Memory, order: Order, equity: real, at: int)
    ensures Checked(limits, m, order, equity, at).0.recent in {m.recent, Trimmed(m.recent, at)}
    ensures !order.reduceOnly && Checked(limits, m, order, equity, at).1.Allowed? ==>
      Checked(limits, m, order, equity, at).0.recent == Trimmed(m.recent, at) && |Trimmed(m.recent, at)| < limits.maxOrdersPerMinute
  {
    hide Damage, Trimmed;
  }

  lemma StepRecalls(limits: Limits, r: Run, e: Event, now: int)
    requires Recalls(r, now) && now <= e.at
    ensures Recalls(Step(limits, r, e), e.at)
  {
    hide Recalls, Checked, Trimmed;
    match e
    case Update(equity, at) => LaterRecalls(r, Observed(r.memory, equity, at), now, at);
    case Place(order, equity, at, sent) =>
      var m := Checked(limits, r.memory, order, equity, at).0;
      CheckedRecent(limits, r.memory, order, equity, at);
      if m.recent == r.memory.recent {
        LaterRecalls(r, m, now, at);
      } else {
        TrimRecalls(r, now, at);
        LaterRecalls(r.(memory := r.memory.(recent := Trimmed(r.memory.recent, at))), m, at, at);
      }
      RecordRecalls(r.(memory := m), at, at, !order.reduceOnly);
  }

  lemma {:induction false} AlwaysRecalls(limits: Limits, start: Memory, events: seq<Event>, k: nat, from: int)
    requires Forward(events) && k <= |events| && start.recent == [] && (|events| > 0 ==> from <= events[0].at)
    ensures Recalls(After(limits, start, events, k), if k == 0 then from else events[k - 1].at)
  {
    hide Step, Recalls;
    if k == 0 {
      NothingToRecall(start, from);
    } else {
      AlwaysRecalls(limits, start, events, k - 1, from);
      StepRecalls(limits, After(limits, start, events, k - 1), events[k - 1], if k == 1 then from else events[k - 2].at);
    }
  }

  lemma NothingToRecall(start: Memory, now: int)
    requires start.recent == []
    ensures Recalls(Run(start, []), now)
  {
  }

  // --- the rate ---------------------------------------------------------------------------

  /** An opening order comes at least a minute after the order `most` places before it. */
  predicate Spaced(sent: seq<Sent>, most: nat) {
    forall i, j :: 0 <= j <= i - most && i < |sent| && sent[i].opening ==> sent[i].at - sent[j].at >= MINUTE
  }

  lemma AppendSpaced(sent: seq<Sent>, last: Sent, most: nat)
    requires most >= 1
    requires Spaced(sent, most)
    requires last.opening ==> forall j :: 0 <= j <= |sent| - most ==> last.at - (sent + [last])[j].at >= MINUTE
    ensures Spaced(sent + [last], most)
  {
    var all := sent + [last];
    forall i, j | 0 <= j <= i - most && i < |all| && all[i].opening ensures all[i].at - all[j].at >= MINUTE {
      if i < |sent| && j < |sent| { assert sent[i].at - sent[j].at >= MINUTE; }
    }
  }

  lemma StepSpaced(limits: Limits, r: Run, e: Event, now: int)
    requires limits.Valid() && Recalls(r, now) && now <= e.at && Spaced(r.sent, limits.maxOrdersPerMinute)
    ensures Spaced(Step(limits, r, e).sent, limits.maxOrdersPerMinute)
  {
    hide Checked, Spaced;
    if e.Place? {
      var checked := Checked(limits, r.memory, e.order, e.equity, e.at);
      CheckedRecent(limits, r.memory, e.order, e.equity, e.at);
      var most, last := limits.maxOrdersPerMinute, Sent(e.at, !e.order.reduceOnly);
      TrimRecalls(r, now, e.at);
      if checked.1.Allowed? && e.sent { AppendSpaced(r.sent, last, most); }
    }
  }

  lemma {:induction false} AlwaysSpaced(limits: Limits, start: Memory, events: seq<Event>, k: nat, from: int)
    requires limits.Valid() && Forward(events) && k <= |events| && start.recent == [] && (|events| > 0 ==> from <= events[0].at)
    ensures Spaced(After(limits, start, events, k).sent, limits.maxOrdersPerMinute)
  {
    hide Step, Recalls;
    if k > 0 {
      AlwaysSpaced(limits, start, events, k - 1, from);
      AlwaysRecalls(limits, start, events, k - 1, from);
      StepSpaced(limits, After(limits, start, events, k - 1), events[k - 1], if k == 1 then from else events[k - 2].at);
    }
  }

  /** The opening orders recorded in the minute that ends at a time. */
  function OpenedWithin(sent: seq<Sent>, end: int): set<int> {
    set i | 0 <= i < |sent| && sent[i].opening && end - MINUTE < sent[i].at <= end
  }

  function Interval(lo: int, hi: int): set<int>
    decreases hi - lo
  {
    if lo >= hi then {} else Interval(lo, hi - 1) + {hi - 1}
  }

  lemma {:induction false} IntervalSize(lo: int, hi: int)
    requires lo <= hi
    ensures |Interval(lo, hi)| == hi - lo && forall i :: i in Interval(lo, hi) <==> lo <= i < hi
    decreases hi - lo
  {
    if lo < hi { IntervalSize(lo, hi - 1); }
  }

  lemma {:induction false} Largest(s: set<int>, x: int) returns (m: int)
    requires x in s
    ensures m in s && forall y :: y in s ==> y <= m
    decreases |s|
  {
    m := x;
    if y :| y in s && y > x {
      m := Largest(s - {x}, y);
      forall z | z in s ensures z <= m { if z != x { assert z in s - {x}; } }
    }
  }

  /** Over any run, no minute holds more recorded opening orders than the limit, wherever it starts. */
  lemma NeverTooManyOrders(limits: Limits, start: Memory, events: seq<Event>, k: nat, end: int)
    requires limits.Valid() && Forward(events) && k <= |events| && start.recent == []
    ensures |OpenedWithin(After(limits, start, events, k).sent, end)| <= limits.maxOrdersPerMinute
  {
    hide After;
    var sent, most := After(limits, start, events, k).sent, limits.maxOrdersPerMinute;
    AlwaysSpaced(limits, start, events, k, if |events| > 0 then events[0].at else 0);
    var openings := OpenedWithin(sent, end);
    if x :| x in openings {
      var i := Largest(openings, x);
      IntervalSize(i - most + 1, i + 1);
      SubsetSize(openings, Interval(i - most + 1, i + 1));
    }
  }

  /** Asked at a time, the queue holds exactly the recorded orders of the last minute, oldest first. */
  lemma QueueIsLastMinute(limits: Limits, start: Memory, events: seq<Event>, k: nat, at: int)
    requires Forward(events) && k <= |events| && start.recent == [] && (k > 0 ==> events[k - 1].at <= at)
    ensures var r := After(limits, start, events, k);
      var queue := Trimmed(r.memory.recent, at);
      && |queue| <= |r.sent| && queue == Times(r.sent)[|r.sent| - |queue|..]
      && forall i :: 0 <= i < |r.sent| ==> (i >= |r.sent| - |queue| <==> at - r.sent[i].at < MINUTE)
  {
    hide After, Recalls;
    var r := After(limits, start, events, k);
    var first := if |events| > 0 && events[0].at < at then events[0].at else at;
    AlwaysRecalls(limits, start, events, k, first);
    TrimmedQueue(r, if k == 0 then first else events[k - 1].at, at);
  }

  lemma TrimmedQueue(r: Run, now: int, at: int)
    requires Recalls(r, now) && now <= at
    ensures var queue := Trimmed(r.memory.recent, at);
      && |queue| <= |r.sent| && queue == Times(r.sent)[|r.sent| - |queue|..]
      && forall i :: 0 <= i < |r.sent| ==> (i >= |r.sent| - |queue| <==> at - r.sent[i].at < MINUTE)
  {
    TrimRecalls(r, now, at);
    var queue := Trimmed(r.memory.recent, at);
    KeptIsFresh(r, now, at);
    forall i | |r.sent| - |queue| <= i < |r.sent| ensures at - r.sent[i].at < MINUTE {
      assert queue[i - (|r.sent| - |queue|)] == r.sent[i].at;
    }
  }

  lemma KeptIsFresh(r: Run, now: int, at: int)
    requires Recalls(r, now) && now <= at
    ensures forall i :: 0 <= i < |Trimmed(r.memory.recent, at)| ==> at - Trimmed(r.memory.recent, at)[i] < MINUTE
  {
    var before := r.memory.recent;
    forall i | 0 <= i < |before| ensures before[i] == r.sent[|r.sent| - |before| + i].at {}
    TrimKeepsTail(before, at);
  }

  // --- the peak and the day -----------------------------------------------------------------

  /** Events on which the guard looks at equity. */
  predicate Looks(e: Event) {
    e.Update? || !e.order.reduceOnly
  }

  lemma StepLooks(limits: Limits, r: Run, e: Event)
    ensures var m := Step(limits, r, e).memory;
      var seen := if Looks(e) then Observed(r.memory, e.equity, e.at) else r.memory;
      m.peak == seen.peak && m.dayStartEquity == seen.dayStartEquity && m.dayStartedAt == seen.dayStartedAt
  {
    hide Trimmed, Damage, Pace;
  }

  /** The events that are not exits. */
  function Watched(events: seq<Event>): seq<Event> {
    if |events| == 0 then []
    else
      var rest, last := Watched(events[..|events| - 1]), events[|events| - 1];
      if Looks(last) then rest + [last] else rest
  }

  predicate SameLevels(m: Memory, n: Memory) {
    m.peak == n.peak && m.dayStartEquity == n.dayStartEquity && m.dayStartedAt == n.dayStartedAt
  }

  lemma {:induction false} AfterPrefix(limits: Limits, start: Memory, events: seq<Event>, longer: seq<Event>, k: nat)
    requires k <= |events| && events <= longer
    ensures After(limits, start, events, k) == After(limits, start, longer, k)
  {
    hide Step;
    if k > 0 { AfterPrefix(limits, start, events, longer, k - 1); }
  }

  /** Exits leave no trace in the levels that losses are measured from: the run without them has the same. */
  lemma {:induction false} ExitsMoveNoLevel(limits: Limits, start: Memory, events: seq<Event>)
    ensures SameLevels(After(limits, start, events, |events|).memory,
                       After(limits, start, Watched(events), |Watched(events)|).memory)
    decreases |events|
  {
    hide Step;
    if |events| > 0 {
      var n, last := |events| - 1, events[|events| - 1];
      var before := events[..n];
      ExitsMoveNoLevel(limits, start, before);
      AfterPrefix(limits, start, before, events, n);
      StepLooks(limits, After(limits, start, events, n), last);
      if Looks(last) {
        var rest := Watched(before);
        AfterPrefix(limits, start, rest, rest + [last], |rest|);
        StepLooks(limits, After(limits, start, rest, |rest|), last);
      }
    }
  }

  /** After any run a limit never blocks an exit, and the verdict on anything else, but for the pace, is what it
      would be had there been no exits.
    */
  lemma ExitsAlwaysPass(limits: Limits, start: Memory, events: seq<Event>, order: Order, equity: real, at: int)
    ensures var m := After(limits, start, events, |events|).memory;
      var n := After(limits, start, Watched(events), |Watched(events)|).memory;
      && (Checked(limits, m, order, equity, at).1.Refused? ==> !order.reduceOnly)
      && (order.reduceOnly ==> Checked(limits, m, order, equity, at) == (m, Allowed))
      && SameLevels(Checked(limits, m, order, equity, at).0, Checked(limits, n, order, equity, at).0)
      && (Checked(limits, m, order, equity, at).1 == Checked(limits, n, order, equity, at).1
          || Some(RateLimited) in {RefusalOf(Checked(limits, m, order, equity, at).1), RefusalOf(Checked(limits, n, order, equity, at).1)})
  {
    hide After, Trimmed, Watched;
    ExitsMoveNoLevel(limits, start, events);
  }

  function RefusalOf(v: Verdict): Option<Code> {
    if v.Refused? then Some(v.code) else None
  }

  /** The peak is the highest of the starting equity and every equity seen. */
  lemma {:induction false} PeakIsHighestSeen(limits: Limits, start: Memory, events: seq<Event>, k: nat)
    requires k <= |events|
    ensures var peak := After(limits, start, events, k).memory.peak;
      && start.peak <= peak && (forall i :: 0 <= i < k && Looks(events[i]) ==> events[i].equity <= peak)
      && (peak == start.peak || exists i :: 0 <= i < k && Looks(events[i]) && events[i].equity == peak)
  {
    hide Step;
    if k > 0 {
      PeakIsHighestSeen(limits, start, events, k - 1);
      StepLooks(limits, After(limits, start, events, k - 1), events[k - 1]);
    }
  }

  /** The first look of its day, among the first k events. */
  predicate FirstOfDay(start: Memory, events: seq<Event>, k: nat, i: nat) {
    && i < k <= |events| && Looks(events[i]) && DayStart(events[i].at) > start.dayStartedAt
    && forall j :: 0 <= j < i && Looks(events[j]) ==> DayStart(events[j].at) < DayStart(events[i].at)
  }

  /** Daily loss is measured from the first equity seen on the latest day any was. */
  lemma {:induction false} DayStartsAtFirstLook(limits: Limits, start: Memory, events: seq<Event>, k: nat)
    requires k <= |events| && Forward(events)
    ensures var m := After(limits, start, events, k).memory;
      && (forall i :: 0 <= i < k && Looks(events[i]) ==> DayStart(events[i].at) <= m.dayStartedAt)
      && ((m.dayStartedAt == start.dayStartedAt && m.dayStartEquity == start.dayStartEquity)
          || exists i: nat :: FirstOfDay(start, events, k, i) && m.dayStartedAt == DayStart(events[i].at)
                              && m.dayStartEquity == events[i].equity)
    ensures After(limits, start, events, k).memory.dayStartedAt >= start.dayStartedAt
  {
    hide Step, DayStart;
    if k > 0 {
      DayStartsAtFirstLook(limits, start, events, k - 1);
      var before, e := After(limits, start, events, k - 1), events[k - 1];
      StepLooks(limits, before, e);
      if Looks(e) && DayStart(e.at) > before.memory.dayStartedAt {
        assert FirstOfDay(start, events, k, k - 1);
      } else if i: nat :| FirstOfDay(start, events, k - 1, i) && before.memory.dayStartedAt == DayStart(events[i].at)
                          && before.memory.dayStartEquity == events[i].equity {
        assert FirstOfDay(start, events, k, i);
      }
    }
  }
}
