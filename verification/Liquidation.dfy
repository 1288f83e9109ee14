/** Liquidation under tiered maintenance margin (packages/engine/quanta_engine/backtest/liquidation.py). */
module Liquidations {
  import opened Wrappers
  import opened Arithmetic
  import opened Market

  const FLAT_TIER := Tier(0.0, None, 0.005, 0.0)

  function AbsReal(x: real): real { if x < 0.0 then -x else x }

  predicate InTier(t: Tier, magnitude: real) {
    t.start <= magnitude && (t.end.Some? ==> magnitude < t.end.value)
  }

  /** The first tier holding the magnitude, the last one past the ladder, the flat one without a ladder. */
  function TierFor(tiers: seq<Tier>, magnitude: real): Tier {
    if |tiers| == 0 then FLAT_TIER
    else if InTier(tiers[0], magnitude) || |tiers| == 1 then tiers[0]
    else TierFor(tiers[1..], magnitude)
  }

  function MaintenanceMargin(tiers: seq<Tier>, notional: real): real {
    var tier := TierFor(tiers, AbsReal(notional));
    AbsReal(notional) * tier.rate - tier.amount
  }

  /** How far price can move against the position before margin falls to the requirement. */
  function Room(entry: real, quantity: real, margin: real, tiers: seq<Tier>): real
    requires quantity > 0.0
  {
    (margin - MaintenanceMargin(tiers, entry * quantity)) / quantity
  }

  /** The price at which the position is liquidated; None is the source's infinity. The source raises a
      ValueError unless both quantity and entry are positive.
    */
  function LiquidationPrice(entry: real, quantity: real, margin: real, side: Side, tiers: seq<Tier>): Option<real>
    requires quantity > 0.0 && entry > 0.0
  {
    var room := Room(entry, quantity, margin, tiers);
    if side.Long? then Some(MaxReal(entry - room, 0.0))
    else if entry + room > 0.0 then Some(entry + room)
    else None
  }

  /** The price is exactly where margin plus profit has fallen to the maintenance requirement: a long is
      at or below that requirement exactly at prices at or below it, and a short at prices at or above it.
      An infinite price does not mean a short that survives any rise, as the source's comment has it, but
      one that is below the requirement at every price.
    */
  lemma LiquidationIsWhereMarginRunsOut(
      entry: real, quantity: real, margin: real, side: Side, tiers: seq<Tier>, price: real)
    requires quantity > 0.0 && entry > 0.0 && price > 0.0
    ensures var l := LiquidationPrice(entry, quantity, margin, side, tiers);
      var maint := MaintenanceMargin(tiers, entry * quantity);
      var left := margin + (price - entry) * quantity * Direction(side);
      if side.Long? then l.Some? && (left <= maint <==> price <= l.value)
      else if l.Some? then left <= maint <==> price >= l.value
      else left < maint
  {
    var maint := MaintenanceMargin(tiers, entry * quantity);
    var room := Room(entry, quantity, margin, tiers);
    DivideBack(margin - maint, quantity);
    assert room * quantity == margin - maint;
    hide MaintenanceMargin, Room;
    if side.Long? {
      LongRunsOut(margin, maint, price - entry, room, quantity);
    } else {
      ShortRunsOut(margin, maint, price - entry, room, quantity);
    }
  }

  lemma LongRunsOut(margin: real, maint: real, move: real, room: real, quantity: real)
    requires quantity > 0.0 && room * quantity == margin - maint
    ensures margin + move * quantity * Direction(Long) <= maint <==> move <= -room
  {
    ScaleOrder(move, -room, quantity);
    assert (-room) * quantity == -(room * quantity);
    assert move * quantity * Direction(Long) == move * quantity;
  }

  lemma ShortRunsOut(margin: real, maint: real, move: real, room: real, quantity: real)
    requires quantity > 0.0 && room * quantity == margin - maint
    ensures margin + move * quantity * Direction(Short) <= maint <==> move >= room
    ensures margin + move * quantity * Direction(Short) < maint <==> move > room
  {
    ScaleOrder(room, move, quantity);
    ScaleOrder(move, room, quantity);
    assert move * quantity * Direction(Short) == -(move * quantity);
  }
}
