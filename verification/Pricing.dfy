/** Fees, commission, rider share and penalty: the money computed on an order. */
module Pricing {

  // src/modules/orders/orders.constants.ts
  const MIN_ORDER_XAF := 1200
  const PENALTY_RATE_DIVISOR := 10
  const PENALTY_ROUND_TO_XAF := 50

  // src/shared/pricing/delivery-fee.util.ts
  const DELIVERY_BASE_FEE_XAF := 250.0
  const DELIVERY_PER_KM_XAF := 100.0
  const DELIVERY_FEE_FLOOR_XAF := 500.0
  const DELIVERY_FEE_CAP_XAF := 1500.0
  const ROUND_TO_XAF := 50

  // src/modules/finance/commission.constants.ts: 0.65, as a percentage.
  const RIDER_SHARE_PERCENT := 65

  /** A commission rate is a Decimal(5,4): a whole number of ten-thousandths. */
  const RATE_SCALE := 10000

  /** Math.round(num / den): the nearest integer, ties upward. */
  function RoundHalfUp(num: int, den: int): (r: int)
    requires den > 0
    ensures 2 * num - den < 2 * den * r <= 2 * num + den
  {
    (2 * num + den) / (2 * den)
  }

  function Commission(subtotalXAF: nat, rate: nat): (c: nat)
  {
    RoundHalfUpOfNat(subtotalXAF * rate, RATE_SCALE);
    RoundHalfUp(subtotalXAF * rate, RATE_SCALE)
  }

  function RiderShare(deliveryFeeXAF: nat): (r: nat)
  {
    RoundHalfUpOfNat(deliveryFeeXAF * RIDER_SHARE_PERCENT, 100);
    RoundHalfUp(deliveryFeeXAF * RIDER_SHARE_PERCENT, 100)
  }

  lemma RoundHalfUpOfNat(num: nat, den: int)
    requires den > 0
    ensures RoundHalfUp(num, den) >= 0
  {
  }

  function Ceiling(x: real): (n: int)
    ensures n as real - 1.0 < x <= n as real
  {
    if x.Floor as real == x then x.Floor else x.Floor + 1
  }

  function Clamped(distanceKm: real): (fee: real)
    ensures DELIVERY_FEE_FLOOR_XAF <= fee <= DELIVERY_FEE_CAP_XAF
  {
    var raw := DELIVERY_BASE_FEE_XAF + distanceKm * DELIVERY_PER_KM_XAF;
    var floored := if raw < DELIVERY_FEE_FLOOR_XAF then DELIVERY_FEE_FLOOR_XAF else raw;
    if floored > DELIVERY_FEE_CAP_XAF then DELIVERY_FEE_CAP_XAF else floored
  }

  /** The fee is the least multiple of 50 that covers the clamped price. */
  function DeliveryFee(distanceKm: real): (fee: nat)
    ensures 500 <= fee <= 1500 && fee % ROUND_TO_XAF == 0
    ensures Clamped(distanceKm) <= fee as real < Clamped(distanceKm) + ROUND_TO_XAF as real
  {
    var units := Ceiling(Clamped(distanceKm) / ROUND_TO_XAF as real);
    assert 10 <= units <= 30;
    units * ROUND_TO_XAF
  }

  lemma DeliveryFeeIsMonotone(near: real, far: real)
    requires near <= far
    ensures DeliveryFee(near) <= DeliveryFee(far)
  {
  }

  /** Pre-order cancellation penalty: 10% of the total, rounded down to 50 FCFA. */
  function Penalty(totalXAF: int): int
  {
    totalXAF / (PENALTY_RATE_DIVISOR * PENALTY_ROUND_TO_XAF) * PENALTY_ROUND_TO_XAF
  }

  /** What createOrder guarantees about the amounts on a row it writes. */
  ghost predicate LegalAmounts(subtotalXAF: nat, deliveryFeeXAF: nat, discountXAF: nat)
  {
    && 100 <= subtotalXAF
    && 500 <= deliveryFeeXAF <= 1500
    && MIN_ORDER_XAF <= subtotalXAF + deliveryFeeXAF
    && discountXAF <= subtotalXAF + deliveryFeeXAF
  }

  /** The vendor's share of a delivered order vanishes exactly when the
      complement of the commission rounds away. */
  lemma VendorShareVanishes(subtotalXAF: nat, rate: nat)
    requires rate <= RATE_SCALE
    ensures Commission(subtotalXAF, rate) <= subtotalXAF
    ensures Commission(subtotalXAF, rate) == subtotalXAF
            <==> 2 * subtotalXAF * (RATE_SCALE - rate) <= RATE_SCALE
  {
  }

  lemma MulMonotone(a: nat, b: nat, c: nat)
    requires b <= c
    ensures a * b <= a * c
  {
  }

  /** On legal amounts the rider and the platform always have a share. */
  lemma FeeSplitIsPositive(deliveryFeeXAF: nat)
    requires 500 <= deliveryFeeXAF
    ensures 0 < RiderShare(deliveryFeeXAF) < deliveryFeeXAF
  {
  }

  /** The rider gets 65% of the fee, to the nearest franc. */
  lemma RiderShareIsNearest(deliveryFeeXAF: nat)
    ensures 130 * deliveryFeeXAF - 100 < 200 * RiderShare(deliveryFeeXAF) <= 130 * deliveryFeeXAF + 100
  {
  }

  /** The commission is the subtotal's share at the rate, in ten-thousandths, to
      the nearest franc. */
  lemma CommissionIsNearest(subtotalXAF: nat, rate: nat)
    ensures 2 * (subtotalXAF * rate) - 10000 < 20000 * Commission(subtotalXAF, rate) <= 2 * (subtotalXAF * rate) + 10000
  {
  }

  /** 250 FCFA and 100 more a kilometre, between 500 and 1500, rounded up to 50:
      the least such fee that covers the price. */
  lemma DeliveryFeeCoversThePrice(distanceKm: real)
    ensures var price := 250.0 + 100.0 * distanceKm; var fee := DeliveryFee(distanceKm);
            && fee % 50 == 0 && 500 <= fee <= 1500
            && (fee < 1500 ==> price <= fee as real)
            && (fee > 500 ==> price > (fee - 50) as real)
  {
  }

  /** An undiscounted order's penalty is a positive multiple of 50 within 10%. */
  lemma PenaltyOfUndiscountedOrder(totalXAF: nat)
    requires MIN_ORDER_XAF <= totalXAF
    ensures 0 < Penalty(totalXAF) && Penalty(totalXAF) % 50 == 0
    ensures 10 * Penalty(totalXAF) <= totalXAF < 10 * (Penalty(totalXAF) + 50)
  {
  }

  /** Without the minimum the penalty is zero exactly below 500 FCFA. */
  lemma PenaltyIsZeroBelow500(totalXAF: nat)
    ensures Penalty(totalXAF) == 0 <==> totalXAF < 500
  {
  }
}
