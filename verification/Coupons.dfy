/** Promo codes: the preview and the redemption it must agree with. */
module Coupons {
  import opened Common
  import opened Orders

  datatype CouponType = FreeDelivery | FixedAmountOff

  datatype Coupon = Coupon(
    code: string,
    kind: CouponType,
    valueXAF: int,
    active: bool,
    validFrom: Option<Time>,
    validUntil: Option<Time>,
    minSubtotalXAF: Option<int>,
    firstOrderOnly: bool,
    maxRedemptions: Option<nat>,
    redemptionCount: nat)

  datatype Redemption = Redemption(coupon: nat, userId: nat, order: nat, discountXAF: int)

  datatype CouponError =
    | CouponNotFound | CouponDisabled | NotYetActive | CouponExpired | BelowMinSubtotal
    | FirstOrderOnly | CouponExhausted | AlreadyRedeemed

  /** Orders, coupons and redemptions as one query would see them. A coupon's id
      is its position; codes are unique and arrive trimmed and upper-cased. */
  datatype Shop = Shop(orders: seq<Order>, coupons: seq<Coupon>, redemptions: seq<Redemption>)

  function FindCoupon(coupons: seq<Coupon>, code: string): (hit: Option<nat>)
    ensures hit.Some? ==> hit.value < |coupons| && coupons[hit.value].code == code
  {
    if coupons == [] then None
    else
      var earlier := FindCoupon(coupons[..|coupons| - 1], code);
      if earlier.Some? then earlier
      else if coupons[|coupons| - 1].code == code then Some(|coupons| - 1) else None
  }

  /** Orders of the user that were paid, or refunded, and not cancelled. */
  function PriorPaidOrders(orders: seq<Order>, user: nat): nat {
    if orders == [] then 0
    else
      var o := orders[|orders| - 1];
      PriorPaidOrders(orders[..|orders| - 1], user)
      + (if o.userId == user && (o.paymentStatus.Paid? || o.paymentStatus.Refunded?) && !o.status.Cancelled? then 1 else 0)
  }

  /** The same count, leaving one order out. */
  function PriorPaidOrdersExcept(orders: seq<Order>, user: nat, except: nat): nat {
    if orders == [] then 0
    else
      var last := |orders| - 1;
      var o := orders[last];
      PriorPaidOrdersExcept(orders[..last], user, except)
      + (if last != except && o.userId == user && (o.paymentStatus.Paid? || o.paymentStatus.Refunded?) && !o.status.Cancelled?
         then 1 else 0)
  }

  predicate HasRedeemed(redemptions: seq<Redemption>, coupon: nat, user: nat) {
    exists i :: 0 <= i < |redemptions| && redemptions[i].coupon == coupon && redemptions[i].userId == user
  }

  function ComputeDiscount(coupon: Coupon, subtotalXAF: nat, deliveryFeeXAF: nat): int {
    match coupon.kind
    case FreeDelivery => deliveryFeeXAF
    case FixedAmountOff =>
      if coupon.valueXAF < subtotalXAF + deliveryFeeXAF then coupon.valueXAF else subtotalXAF + deliveryFeeXAF
  }

  function ValidateRow(coupon: Coupon, subtotalXAF: nat, deliveryFeeXAF: nat, priorPaid: nat, now: Time): Result<int, CouponError> {
    if !coupon.active then Err(CouponDisabled)
    else if coupon.validFrom.Some? && now < coupon.validFrom.value then Err(NotYetActive)
    else if coupon.validUntil.Some? && now > coupon.validUntil.value then Err(CouponExpired)
    else if coupon.minSubtotalXAF.Some? && subtotalXAF < coupon.minSubtotalXAF.value then Err(BelowMinSubtotal)
    else if coupon.firstOrderOnly && priorPaid > 0 then Err(FirstOrderOnly)
    else if coupon.maxRedemptions.Some? && coupon.redemptionCount >= coupon.maxRedemptions.value then Err(CouponExhausted)
    else Ok(ComputeDiscount(coupon, subtotalXAF, deliveryFeeXAF))
  }

  /** validateForUser: the cart's preview. */
  function ValidateForUser(shop: Shop, code: string, user: nat, subtotalXAF: nat, deliveryFeeXAF: nat, now: Time)
    : Result<int, CouponError>
  {
    if code == "" then Err(CouponNotFound)
    else
      match FindCoupon(shop.coupons, code)
      case None => Err(CouponNotFound)
      case Some(id) =>
        if HasRedeemed(shop.redemptions, id, user) then Err(AlreadyRedeemed)
        else ValidateRow(shop.coupons[id], subtotalXAF, deliveryFeeXAF, PriorPaidOrders(shop.orders, user), now)
  }

  /** redeemInTransaction, with the order under creation already inserted. */
  function RedeemVerdict(shop: Shop, code: string, user: nat, order: nat, subtotalXAF: nat, deliveryFeeXAF: nat, now: Time)
    : Result<int, CouponError>
  {
    if code == "" then Err(CouponNotFound)
    else
      match FindCoupon(shop.coupons, code)
      case None => Err(CouponNotFound)
      case Some(id) =>
        var prior := PriorPaidOrdersExcept(shop.orders, user, order);
        var checked := ValidateRow(shop.coupons[id], subtotalXAF, deliveryFeeXAF, prior, now);
        if checked.Err? then checked
        else if HasRedeemed(shop.redemptions, id, user) then Err(AlreadyRedeemed)
        else checked
  }

  function Redeemed(shop: Shop, code: string, user: nat, order: nat, discountXAF: int): Shop {
    match FindCoupon(shop.coupons, code)
    case None => shop
    case Some(id) =>
      var c := shop.coupons[id];
      shop.(redemptions := shop.redemptions + [Redemption(id, user, order, discountXAF)],
            coupons := shop.coupons[id := c.(redemptionCount := c.redemptionCount + 1)])
  }

  class CouponsService {
    var orders: seq<Order>
    var coupons: seq<Coupon>
    var redemptions: seq<Redemption>

    ghost function Model(): Shop reads this { Shop(orders, coupons, redemptions) }

    constructor (orders: seq<Order>, coupons: seq<Coupon>)
      ensures Model() == Shop(orders, coupons, [])
    {
      this.orders, this.coupons, this.redemptions := orders, coupons, [];
    }

    method RedeemInTransaction(code: string, user: nat, order: nat, subtotalXAF: nat, deliveryFeeXAF: nat, now: Time)
      returns (applied: Result<int, CouponError>)
      modifies this
      ensures applied == RedeemVerdict(old(Model()), code, user, order, subtotalXAF, deliveryFeeXAF, now)
      ensures Model() == if applied.Ok? then Redeemed(old(Model()), code, user, order, applied.value) else old(Model())
    {
      if code == "" {
        return Err(CouponNotFound);
      }
      var found := FindCoupon(coupons, code);
      if found.None? {
        return Err(CouponNotFound);
      }
      var prior := PriorPaidOrdersExcept(orders, user, order);
      var checked := ValidateRow(coupons[found.value], subtotalXAF, deliveryFeeXAF, prior, now);
      if checked.Err? {
        return checked;
      }
      if HasRedeemed(redemptions, found.value, user) {
        return Err(AlreadyRedeemed);
      }
      redemptions := redemptions + [Redemption(found.value, user, order, checked.value)];
      var c := coupons[found.value];
      coupons := coupons[found.value := c.(redemptionCount := c.redemptionCount + 1)];
      return checked;
    }
  }

  // ── The preview refines the redemption ───────────────────────────────

  lemma {:induction false} ExceptOutside(orders: seq<Order>, user: nat, except: nat)
    requires except >= |orders|
    ensures PriorPaidOrdersExcept(orders, user, except) == PriorPaidOrders(orders, user)
  {
    if orders != [] {
      ExceptOutside(orders[..|orders| - 1], user, except);
    }
  }

  /** Previewed before the order exists and redeemed once it has been inserted,
      a code is accepted both times or neither, for the same discount. */
  lemma PreviewRefinesRedemption(shop: Shop, placed: Order, code: string, user: nat, subtotalXAF: nat, deliveryFeeXAF: nat,
                                 now: Time)
    ensures var preview := ValidateForUser(shop, code, user, subtotalXAF, deliveryFeeXAF, now);
            var inside := shop.(orders := shop.orders + [placed]);
            var redemption := RedeemVerdict(inside, code, user, |shop.orders|, subtotalXAF, deliveryFeeXAF, now);
            && (preview.Ok? <==> redemption.Ok?)
            && (preview.Ok? ==> redemption.value == preview.value)
            && (preview.Err? && !preview.error.AlreadyRedeemed? ==> redemption == preview)
  {
    var inside := shop.orders + [placed];
    assert inside[..|shop.orders|] == shop.orders;
    ExceptOutside(shop.orders, user, |shop.orders|);
  }

  /** The discount lies between nothing and the whole order exactly when a
      fixed-amount coupon's value is not negative. */
  lemma DiscountBounds(coupon: Coupon, subtotalXAF: nat, deliveryFeeXAF: nat)
    ensures ComputeDiscount(coupon, subtotalXAF, deliveryFeeXAF) <= subtotalXAF + deliveryFeeXAF
    ensures 0 <= ComputeDiscount(coupon, subtotalXAF, deliveryFeeXAF)
            <==> coupon.kind.FreeDelivery? || coupon.valueXAF >= 0
  {
  }

  /** A fixed amount is taken off up to the whole order, a free delivery is the
      fee. */
  lemma DiscountOfKind(coupon: Coupon, subtotalXAF: nat, deliveryFeeXAF: nat)
    ensures var d := ComputeDiscount(coupon, subtotalXAF, deliveryFeeXAF); var whole := subtotalXAF + deliveryFeeXAF;
            && (coupon.kind == FreeDelivery ==> d == deliveryFeeXAF)
            && (coupon.kind == FixedAmountOff ==> d in {coupon.valueXAF, whole} && d <= coupon.valueXAF && d <= whole)
  {
  }

  /** What a coupon row is told, the first condition that fails naming it. */
  lemma CouponRowIsToldIff(c: Coupon, subtotalXAF: nat, deliveryFeeXAF: nat, prior: nat, now: Time)
    ensures var told := ValidateRow(c, subtotalXAF, deliveryFeeXAF, prior, now);
            var begun := c.active && (c.validFrom.Some? ==> c.validFrom.value <= now);
            var open := begun && (c.validUntil.Some? ==> now <= c.validUntil.value);
            var large := open && (c.minSubtotalXAF.Some? ==> c.minSubtotalXAF.value <= subtotalXAF);
            var first := large && (c.firstOrderOnly ==> prior == 0);
            && (told == Err(CouponDisabled) <==> !c.active)
            && (told == Err(NotYetActive) <==> c.active && !begun)
            && (told == Err(CouponExpired) <==> begun && !open)
            && (told == Err(BelowMinSubtotal) <==> open && !large)
            && (told == Err(FirstOrderOnly) <==> large && !first)
            && (told == Err(CouponExhausted) <==> first && c.maxRedemptions.Some? && c.maxRedemptions.value <= c.redemptionCount)
            && (told.Ok? <==> first && (c.maxRedemptions.Some? ==> c.redemptionCount < c.maxRedemptions.value))
  {
  }

  /** An earlier order counts against a first-order coupon exactly when it is the
      user's, was paid or refunded, and is not cancelled. */
  lemma {:induction false} NoPriorOrderIff(orders: seq<Order>, user: nat, except: nat)
    ensures PriorPaidOrdersExcept(orders, user, except) == 0
            <==> forall i :: 0 <= i < |orders| && i != except && orders[i].userId == user ==>
                   orders[i].status == Cancelled || (orders[i].paymentStatus != Paid && orders[i].paymentStatus != Refunded)
  {
    if orders != [] {
      NoPriorOrderIff(orders[..|orders| - 1], user, except);
      assert forall i :: 0 <= i < |orders| - 1 ==> orders[..|orders| - 1][i] == orders[i];
    }
  }

  /** A code is redeemed exactly when it is some coupon's, that coupon's row says
      yes, and the user has not redeemed it before; an empty or unknown code is
      not found. */
  lemma CodeIsRedeemedIff(shop: Shop, code: string, user: nat, order: nat, subtotalXAF: nat, deliveryFeeXAF: nat, now: Time)
    ensures var told := RedeemVerdict(shop, code, user, order, subtotalXAF, deliveryFeeXAF, now);
            var hit := FindCoupon(shop.coupons, code);
            && (told == Err(CouponNotFound) <==> code == "" || hit == None)
            && (told.Err? && told.error == AlreadyRedeemed ==> hit.Some? && HasRedeemed(shop.redemptions, hit.value, user))
            && (told.Ok? ==> hit.Some? && !HasRedeemed(shop.redemptions, hit.value, user)
                             && told.value == ComputeDiscount(shop.coupons[hit.value], subtotalXAF, deliveryFeeXAF))
            && (code != "" && hit.Some? && !HasRedeemed(shop.redemptions, hit.value, user) ==>
                  told == ValidateRow(shop.coupons[hit.value], subtotalXAF, deliveryFeeXAF,
                                      PriorPaidOrdersExcept(shop.orders, user, order), now))
            && (code != "" && hit.Some? && HasRedeemed(shop.redemptions, hit.value, user) ==> told.Err?)
  {
  }

  /** Every code of the table is found, and found first. */
  lemma {:induction false} CodesAreFound(coupons: seq<Coupon>, code: string)
    ensures FindCoupon(coupons, code) == None <==> forall i :: 0 <= i < |coupons| ==> coupons[i].code != code
    ensures FindCoupon(coupons, code).Some? ==>
              forall i :: 0 <= i < FindCoupon(coupons, code).value ==> i < |coupons| && coupons[i].code != code
  {
    if coupons != [] {
      CodesAreFound(coupons[..|coupons| - 1], code);
      assert forall i :: 0 <= i < |coupons| - 1 ==> coupons[..|coupons| - 1][i] == coupons[i];
    }
  }

  // ── Serial runs of redemptions ───────────────────────────────────────

  function CountOf(redemptions: seq<Redemption>, coupon: nat): nat {
    if redemptions == [] then 0
    else CountOf(redemptions[..|redemptions| - 1], coupon) + (if redemptions[|redemptions| - 1].coupon == coupon then 1 else 0)
  }

  ghost predicate OnePerUser(redemptions: seq<Redemption>) {
    forall i, j :: 0 <= i < j < |redemptions| ==>
      redemptions[i].coupon != redemptions[j].coupon || redemptions[i].userId != redemptions[j].userId
  }

  ghost predicate WithinCaps(shop: Shop) {
    && OnePerUser(shop.redemptions)
    && forall id: nat :: id < |shop.coupons| ==>
         && shop.coupons[id].redemptionCount == CountOf(shop.redemptions, id)
         && (shop.coupons[id].maxRedemptions.Some? ==> shop.coupons[id].redemptionCount <= shop.coupons[id].maxRedemptions.value)
  }

  datatype Attempt = Attempt(placed: Order, code: string, user: nat, subtotalXAF: nat, deliveryFeeXAF: nat, now: Time)

  /** One createOrder with a code: insert the order, redeem, or roll both back. */
  function Attempted(shop: Shop, a: Attempt): Shop {
    var inside := shop.(orders := shop.orders + [a.placed]);
    var verdict := RedeemVerdict(inside, a.code, a.user, |shop.orders|, a.subtotalXAF, a.deliveryFeeXAF, a.now);
    if verdict.Ok? then Redeemed(inside, a.code, a.user, |shop.orders|, verdict.value) else shop
  }

  function AttemptedAll(shop: Shop, attempts: seq<Attempt>): Shop {
    if attempts == [] then shop else Attempted(AttemptedAll(shop, attempts[..|attempts| - 1]), attempts[|attempts| - 1])
  }

  lemma AttemptKeepsCaps(shop: Shop, a: Attempt)
    requires WithinCaps(shop)
    ensures WithinCaps(Attempted(shop, a))
  {
    var after := Attempted(shop, a);
    if after != shop {
      var id := FindCoupon(shop.coupons, a.code).value;
      assert after.redemptions[..|shop.redemptions|] == shop.redemptions;
      assert !HasRedeemed(shop.redemptions, id, a.user);
      assert forall other: nat :: CountOf(after.redemptions, other)
                                  == CountOf(shop.redemptions, other) + (if other == id then 1 else 0);
    }
  }

  /** Over any serial run: one redemption per coupon and user, counters equal to
      their rows, and no coupon beyond its cap. */
  lemma {:induction false} CapsAlwaysHold(shop: Shop, attempts: seq<Attempt>)
    requires shop.redemptions == []
    requires forall id: nat :: id < |shop.coupons| ==> shop.coupons[id].redemptionCount == 0
    ensures WithinCaps(AttemptedAll(shop, attempts))
  {
    if attempts != [] {
      CapsAlwaysHold(shop, attempts[..|attempts| - 1]);
      AttemptKeepsCaps(AttemptedAll(shop, attempts[..|attempts| - 1]), attempts[|attempts| - 1]);
    }
  }
}
