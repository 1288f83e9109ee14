/** The token bucket that paces exchange calls (apps/api/quanta/exchanges/throttle.py).

    Time is a real number of seconds on a clock that never runs backwards. Callers are interleaved at the
    lock: what one turn inside it does is `TryAcquire`, and any schedule of callers is a sequence of turns.
  */
module Throttle {
  import opened Arithmetic

  /** How the bucket was built. A burst given separately is the capacity; otherwise the rate is. */
  datatype Pace = Pace(rate: int, period: real, capacity: int) {
    /** What the constructor insists on, with a period and a capacity that mean something. */
    predicate Valid() {
      rate > 0 && period > 0.0 && capacity >= 0
    }

    /** The tokens that flow in over a time. */
    function Inflow(time: real): real
      requires Valid()
    {
      time * (rate as real / period)
    }

    /** The time in which a number of tokens flows in. */
    function TimeFor(deficit: real): real
      requires Valid()
    {
      deficit * period / rate as real
    }
  }

  datatype Bucket = Bucket(tokens: real, updated: real)

  function Refilled(pace: Pace, b: Bucket, now: real): Bucket
    requires pace.Valid()
  {
    if now <= b.updated then b
    else
      var tokens := b.tokens + pace.Inflow(now - b.updated);
      Bucket(if tokens < pace.capacity as real then tokens else pace.capacity as real, now)
  }

  predicate Admits(pace: Pace, b: Bucket, now: real, tokens: nat)
    requires pace.Valid()
  {
    Refilled(pace, b, now).tokens >= tokens as real
  }

  /** The bucket after a turn inside the lock. */
  function AfterTurn(pace: Pace, b: Bucket, now: real, tokens: nat): Bucket
    requires pace.Valid()
  {
    var filled := Refilled(pace, b, now);
    if Admits(pace, b, now, tokens) then filled.(tokens := filled.tokens - tokens as real) else filled
  }

  /** How long a refused caller sleeps. */
  function Wait(pace: Pace, b: Bucket, now: real, tokens: nat): real
    requires pace.Valid()
  {
    pace.TimeFor(tokens as real - Refilled(pace, b, now).tokens)
  }

  class RateLimiter {
    const pace: Pace
    var tokens: real
    var updated: real

    ghost function View(): Bucket
      reads this
    {
      Bucket(tokens, updated)
    }

    constructor (pace: Pace, now: real)
      requires pace.Valid()
      ensures this.pace == pace && View() == Bucket(pace.capacity as real, now)
    {
      this.pace, tokens, updated := pace, pace.capacity as real, now;
    }

    method Refill(now: real)
      requires pace.Valid()
      modifies this
      ensures View() == Refilled(pace, old(View()), now)
    {
      var elapsed := now - updated;
      if elapsed <= 0.0 {
        return;
      }
      var filled := tokens + pace.Inflow(elapsed);
      tokens := if filled < pace.capacity as real then filled else pace.capacity as real;
      updated := now;
    }

    /** One turn inside the lock: spend the tokens, or learn how long to sleep. */
    method TryAcquire(now: real, wanted: nat) returns (granted: bool, wait: real)
      requires pace.Valid() && wanted <= pace.capacity
      modifies this
      ensures View() == AfterTurn(pace, old(View()), now, wanted)
      ensures granted == Admits(pace, old(View()), now, wanted)
      ensures !granted ==> wait == Wait(pace, old(View()), now, wanted)
    {
      Refill(now);
      wait := 0.0;
      if tokens >= wanted as real {
        tokens := tokens - wanted as real;
        return true, wait;
      }
      var deficit := wanted as real - tokens;
      return false, pace.TimeFor(deficit);
    }

    /** `acquire` with nobody else at the lock: it loops until admitted, sleeping what the bucket computed. */
    method AcquireAlone(now: real, wanted: int) returns (admitted: bool, at: real)
      requires pace.Valid() && updated <= now
      modifies this
      ensures admitted <==> wanted <= pace.capacity
      ensures !admitted ==> View() == old(View())
      ensures admitted && wanted >= 0 ==>
        at == if Admits(pace, old(View()), now, wanted) then now else now + Wait(pace, old(View()), now, wanted)
    {
      at := now;
      if wanted > pace.capacity {
        return false, at;
      }
      if wanted < 0 {
        // A negative amount is granted at once, and returned to the bucket.
        Refill(now);
        tokens := tokens - wanted as real;
        return true, at;
      }
      var granted, wait := TryAcquire(at, wanted);
      while !granted
        invariant granted ==> at == if Admits(pace, old(View()), now, wanted) then now else now + Wait(pace, old(View()), now, wanted)
        invariant !granted ==> at == now && !Admits(pace, old(View()), now, wanted)
        invariant !granted ==> View() == Refilled(pace, old(View()), now) && wait == Wait(pace, old(View()), now, wanted)
        decreases !granted
      {
        at := at + wait;
        AdmittedExactlyAfterWait(pace, old(View()), now, wanted, wait);
        granted, wait := TryAcquire(at, wanted);
      }
      return true, at;
    }
  }

  // --- one waiter -----------------------------------------------------------------------

  /** A refused caller left alone is admitted exactly once it has slept the wait it was given. */
  lemma AdmittedExactlyAfterWait(pace: Pace, b: Bucket, now: real, tokens: nat, slept: real)
    requires pace.Valid() && tokens <= pace.capacity && b.updated <= now && slept >= 0.0 && !Admits(pace, b, now, tokens)
    ensures Wait(pace, b, now, tokens) > 0.0
    ensures Admits(pace, Refilled(pace, b, now), now + slept, tokens) <==> slept >= Wait(pace, b, now, tokens)
  {
    hide Pace.Inflow, Wait;
    RefilledTokens(pace, Refilled(pace, b, now), now, slept);
    WaitBridges(pace, b, now, tokens);
    InflowGrows(pace, Wait(pace, b, now, tokens), slept);
  }

  lemma WaitBridges(pace: Pace, b: Bucket, now: real, tokens: nat)
    requires pace.Valid() && !Admits(pace, b, now, tokens)
    ensures Wait(pace, b, now, tokens) > 0.0
    ensures pace.Inflow(Wait(pace, b, now, tokens)) == tokens as real - Refilled(pace, b, now).tokens
  {
    hide Pace.Inflow, Pace.TimeFor, Refilled;
    WaitFills(pace, tokens as real - Refilled(pace, b, now).tokens);
  }

  lemma RefilledTokens(pace: Pace, b: Bucket, now: real, slept: real)
    requires pace.Valid() && b.updated == now && slept >= 0.0 && b.tokens <= pace.capacity as real
    ensures Refilled(pace, b, now + slept).tokens ==
      if b.tokens + pace.Inflow(slept) < pace.capacity as real then b.tokens + pace.Inflow(slept) else pace.capacity as real
  {
    InflowGrows(pace, 0.0, 0.0);
    hide Pace.Inflow;
  }

  lemma WaitFills(pace: Pace, deficit: real)
    requires pace.Valid() && deficit > 0.0
    ensures pace.TimeFor(deficit) > 0.0 && pace.Inflow(pace.TimeFor(deficit)) == deficit
  {
    ThereAndBack(deficit, pace.period, pace.rate as real);
  }

  lemma ThereAndBack(d: real, p: real, r: real)
    requires d > 0.0 && p > 0.0 && r > 0.0
    ensures d * p / r > 0.0 && (d * p / r) * (r / p) == d
  {
    var w, speed := d * p / r, r / p;
    DivideBack(d * p, r);
    DivideBack(r, p);
    assert d * p > 0.0;
    PositiveFactor(w, r);
    Reassociate(w, speed, p);
    Cancel(w * speed, d, p);
  }

  lemma PositiveFactor(x: real, y: real)
    requires y > 0.0 && x * y > 0.0
    ensures x > 0.0
  {
  }

  lemma Reassociate(x: real, y: real, z: real)
    ensures x * y * z == x * (y * z)
  {
  }

  /** In a period the rate flows in, and a deficit takes its share of a period. */
  lemma InflowMeans(pace: Pace, time: real)
    requires pace.Valid()
    ensures pace.Inflow(time) * pace.period == time * pace.rate as real
    ensures pace.TimeFor(time) * pace.rate as real == time * pace.period
  {
    var speed := pace.rate as real / pace.period;
    assert speed * pace.period == pace.rate as real;
    Reassociate(time, speed, pace.period);
  }

  /** A turn: the bucket fills up to its capacity, a caller that finds enough takes it, and another is told how
      long until there is.
    */
  lemma TurnsMean(pace: Pace, b: Bucket, now: real, tokens: nat)
    requires pace.Valid() && b.updated <= now
    ensures var full, flowed := pace.capacity as real, b.tokens + pace.Inflow(now - b.updated);
      var filled := if b.updated == now || flowed < full then flowed else full;
      && (Admits(pace, b, now, tokens) <==> filled >= tokens as real)
      && AfterTurn(pace, b, now, tokens) == Bucket(if filled >= tokens as real then filled - tokens as real else filled, now)
      && Wait(pace, b, now, tokens) * pace.rate as real == (tokens as real - filled) * pace.period
  {
    InflowMeans(pace, 0.0);
    var short := tokens as real - Refilled(pace, b, now).tokens;
    InflowMeans(pace, short);
    InflowGrows(pace, 0.0, 0.0);
    hide Pace.Inflow, Pace.TimeFor;
  }

  lemma InflowGrows(pace: Pace, a: real, b: real)
    requires pace.Valid()
    ensures a <= b <==> pace.Inflow(a) <= pace.Inflow(b)
    ensures pace.Inflow(0.0) == 0.0
  {
    var speed := pace.rate as real / pace.period;
    assert speed * pace.period == pace.rate as real;
    assert speed > 0.0;
    if a <= b { assert (b - a) * speed >= 0.0; } else { assert (a - b) * speed > 0.0; }
  }

  // --- any schedule -----------------------------------------------------------------------

  /** A caller's turn inside the lock. */
  datatype Turn = Turn(at: real, tokens: nat)

  predicate Forward(turns: seq<Turn>) {
    forall i, j :: 0 <= i < j < |turns| ==> turns[i].at <= turns[j].at
  }

  /** The bucket after the first k turns. */
  function After(pace: Pace, start: Bucket, turns: seq<Turn>, k: nat): Bucket
    requires pace.Valid() && k <= |turns|
  {
    if k == 0 then start else AfterTurn(pace, After(pace, start, turns, k - 1), turns[k - 1].at, turns[k - 1].tokens)
  }

  /** The tokens granted in turns i up to but not including j. */
  function Granted(pace: Pace, start: Bucket, turns: seq<Turn>, i: nat, j: nat): int
    requires pace.Valid() && i <= j <= |turns|
  {
    if i == j then 0
    else
      Granted(pace, start, turns, i, j - 1) +
      if Admits(pace, After(pace, start, turns, j - 1), turns[j - 1].at, turns[j - 1].tokens) then turns[j - 1].tokens else 0
  }

  predicate WithinCapacity(pace: Pace, b: Bucket) {
    0.0 <= b.tokens <= pace.capacity as real
  }

  lemma TurnWithin(pace: Pace, b: Bucket, now: real, tokens: nat)
    requires pace.Valid() && WithinCapacity(pace, b)
    ensures WithinCapacity(pace, AfterTurn(pace, b, now, tokens)) && WithinCapacity(pace, Refilled(pace, b, now))
    ensures AfterTurn(pace, b, now, tokens).updated == if now <= b.updated then b.updated else now
  {
    InflowGrows(pace, 0.0, now - b.updated);
    hide Pace.Inflow;
  }

  /** Tokens never leave [0, capacity], and the bucket's clock is the last turn's. */
  lemma {:induction false} AlwaysWithin(pace: Pace, start: Bucket, turns: seq<Turn>, k: nat)
    requires pace.Valid() && Forward(turns) && WithinCapacity(pace, start) && k <= |turns|
    requires |turns| > 0 ==> start.updated <= turns[0].at
    ensures WithinCapacity(pace, After(pace, start, turns, k))
    ensures After(pace, start, turns, k).updated == if k == 0 then start.updated else turns[k - 1].at
  {
    hide AfterTurn, WithinCapacity;
    if k > 0 {
      AlwaysWithin(pace, start, turns, k - 1);
      TurnWithin(pace, After(pace, start, turns, k - 1), turns[k - 1].at, turns[k - 1].tokens);
    }
  }

  /** What a turn grants, it takes from the bucket and what flowed in since. */
  lemma TurnSpends(pace: Pace, b: Bucket, now: real, tokens: nat)
    requires pace.Valid() && b.updated <= now
    ensures AfterTurn(pace, b, now, tokens).tokens + (if Admits(pace, b, now, tokens) then tokens as real else 0.0)
      <= b.tokens + pace.Inflow(now - b.updated)
  {
    InflowGrows(pace, 0.0, now - b.updated);
    hide Pace.Inflow;
  }

  lemma {:induction false} GrantedFlows(pace: Pace, start: Bucket, turns: seq<Turn>, i: nat, j: nat)
    requires pace.Valid() && Forward(turns) && WithinCapacity(pace, start) && i < j <= |turns|
    requires start.updated <= turns[0].at
    ensures After(pace, start, turns, j).tokens + Granted(pace, start, turns, i, j) as real
      <= pace.capacity as real + pace.Inflow(turns[j - 1].at - turns[i].at)
  {
    hide AfterTurn, Admits, Pace.Inflow;
    var before, last := After(pace, start, turns, j - 1), turns[j - 1];
    AlwaysWithin(pace, start, turns, j - 1);
    if j - 1 == i {
      FirstTurn(pace, before, last.at, last.tokens);
      InflowGrows(pace, 0.0, 0.0);
    } else {
      GrantedFlows(pace, start, turns, i, j - 1);
      TurnSpends(pace, before, last.at, last.tokens);
      InflowAdds(pace, turns[j - 2].at - turns[i].at, last.at - turns[j - 2].at);
    }
  }

  lemma InflowAdds(pace: Pace, a: real, b: real)
    requires pace.Valid()
    ensures pace.Inflow(a) + pace.Inflow(b) == pace.Inflow(a + b)
  {
  }

  lemma FirstTurn(pace: Pace, b: Bucket, now: real, tokens: nat)
    requires pace.Valid() && WithinCapacity(pace, b)
    ensures AfterTurn(pace, b, now, tokens).tokens + (if Admits(pace, b, now, tokens) then tokens as real else 0.0)
      <= pace.capacity as real
  {
    TurnWithin(pace, b, now, tokens);
    hide Pace.Inflow;
  }

  /** The bound the exchange's limit needs: over any schedule of callers, the tokens granted in a stretch of
      turns are at most one full bucket and what flows in over the stretch.
    */
  lemma NeverFasterThanPace(pace: Pace, start: Bucket, turns: seq<Turn>, i: nat, j: nat)
    requires pace.Valid() && Forward(turns) && WithinCapacity(pace, start) && i < j <= |turns|
    requires start.updated <= turns[0].at
    ensures Granted(pace, start, turns, i, j) as real
      <= pace.capacity as real + pace.Inflow(turns[j - 1].at - turns[i].at)
    ensures (Granted(pace, start, turns, i, j) - pace.capacity) as real * pace.period
      <= (turns[j - 1].at - turns[i].at) * pace.rate as real
  {
    hide Granted, After, Pace.Inflow;
    InflowMeans(pace, turns[j - 1].at - turns[i].at);
    ScaleOrder((Granted(pace, start, turns, i, j) - pace.capacity) as real, pace.Inflow(turns[j - 1].at - turns[i].at), pace.period);
    GrantedFlows(pace, start, turns, i, j);
    AlwaysWithin(pace, start, turns, j);
  }
}
