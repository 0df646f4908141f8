/** createOrder: what a cart has to satisfy, and what the order row then holds. */
module OrderCreation {
  import opened Common
  import opened Ledger
  import opened Pricing
  import opened Orders
  import opened OrderInvariants
  import opened Coupons
  import opened DeliverySplit
  import P = Platform
  import I = PlatformInvariant

  const PRE_ORDER_MIN_LEAD_MS := 4 * 3_600_000
  const PRE_ORDER_MAX_LEAD_MS := 24 * 3_600_000

  datatype Vendor = Vendor(active: bool, isOpen: bool, acceptsPreOrders: bool, commissionRate: nat)

  datatype Item = Item(vendorId: nat, priceXAF: nat, isAvailable: bool, isInStock: bool)

  datatype CartLine = CartLine(item: nat, quantity: nat)

  datatype Cart = Cart(vendor: nat, lines: seq<CartLine>, distanceKm: real, scheduledFor: Option<Time>, couponCode: string)

  /** The random codes drawn for the row. */
  datatype Codes = Codes(code: Ref, pickup: nat, delivery: nat)

  /** The tables createOrder reads and writes. `keys` is the unique
      (userId, idempotencyKey) index. */
  datatype Desk = Desk(vendors: map<nat, Vendor>, menu: map<nat, Item>, shop: Shop, keys: map<(nat, nat), nat>)

  datatype CreateError =
    | VendorNotFound | VendorClosed | ItemNotInVendorMenu | ItemOutOfStock | OrderBelowMinimum
    | PreOrdersNotAccepted | PreOrderTooSoon | PreOrderTooFar | CodeTaken | CouponRefused(reason: CouponError)

  /** What the request DTOs and the catalogue guarantee. */
  ghost predicate WellFormed(desk: Desk, cart: Cart) {
    && cart.lines != [] && (forall i :: 0 <= i < |cart.lines| ==> cart.lines[i].quantity >= 1)
    && (forall id :: id in desk.menu ==> desk.menu[id].priceXAF >= 100)
    && (forall id: nat :: id < |desk.shop.coupons| ==> desk.shop.coupons[id].valueXAF >= 0)
  }

  // ── Items ────────────────────────────────────────────────────────────

  function ItemIds(lines: seq<CartLine>): set<nat> {
    set i | 0 <= i < |lines| :: lines[i].item
  }

  /** findMany({ id in ids, vendorId }): at most one row per id. */
  function Found(menu: map<nat, Item>, lines: seq<CartLine>, vendor: nat): set<nat> {
    set id | id in ItemIds(lines) && id in menu && menu[id].vendorId == vendor
  }

  predicate Sellable(menu: map<nat, Item>, ids: set<nat>) {
    forall id :: id in ids ==> id in menu && menu[id].isAvailable && menu[id].isInStock
  }

  ghost predicate OnMenu(menu: map<nat, Item>, lines: seq<CartLine>, vendor: nat) {
    forall i :: 0 <= i < |lines| ==> lines[i].item in menu && menu[lines[i].item].vendorId == vendor
  }

  ghost predicate NoRepeats(lines: seq<CartLine>) {
    forall i, j :: 0 <= i < j < |lines| ==> lines[i].item != lines[j].item
  }

  /** The row count matches the line count exactly when every line names an item
      of this vendor and no two lines name the same one. */
  lemma CountMatchesIff(menu: map<nat, Item>, lines: seq<CartLine>, vendor: nat)
    ensures |Found(menu, lines, vendor)| == |lines| <==> OnMenu(menu, lines, vendor) && NoRepeats(lines)
  {
    IdCount(lines);
    var found, ids := Found(menu, lines, vendor), ItemIds(lines);
    assert found <= ids;
    if |found| == |lines| {
      SubsetOfSameSize(found, ids);
      assert forall i :: 0 <= i < |lines| ==> lines[i].item in ids;
    } else if OnMenu(menu, lines, vendor) {
      assert found == ids;
    } else {
    }
    Sizes(found, ids);
  }

  lemma {:induction false} IdCount(lines: seq<CartLine>)
    ensures |ItemIds(lines)| <= |lines|
    ensures |ItemIds(lines)| == |lines| <==> NoRepeats(lines)
  {
    hide ItemIds;
    hide NoRepeats;
    if lines == [] {
      NoLines();
    } else {
      IdCount(lines[..|lines| - 1]);
      LastId(lines);
      LastRepeats(lines);
    }
  }

  lemma NoLines()
    ensures ItemIds([]) == {} && NoRepeats([])
  {
  }

  lemma LastRepeats(lines: seq<CartLine>)
    requires lines != []
    ensures var init := lines[..|lines| - 1];
            NoRepeats(lines) <==> NoRepeats(init) && lines[|lines| - 1].item !in ItemIds(init)
  {
    var n := |lines| - 1;
    var init := lines[..n];
    assert forall i :: 0 <= i < n ==> init[i] == lines[i];
    if lines[n].item in ItemIds(init) {
      var i :| 0 <= i < n && init[i].item == lines[n].item;
      assert lines[i].item == lines[n].item;
    } else {
      assert forall i :: 0 <= i < n ==> init[i].item in ItemIds(init);
    }
  }

  lemma LastId(lines: seq<CartLine>)
    requires lines != []
    ensures ItemIds(lines) == ItemIds(lines[..|lines| - 1]) + {lines[|lines| - 1].item}
  {
  }

  lemma {:induction false} Sizes(a: set<nat>, b: set<nat>)
    requires a <= b
    ensures |a| <= |b|
  {
    assert b == a + (b - a);
  }

  lemma SubsetOfSameSize(a: set<nat>, b: set<nat>)
    requires a <= b && |a| >= |b|
    ensures a == b
  {
    assert b == a + (b - a);
  }

  function Subtotal(menu: map<nat, Item>, lines: seq<CartLine>): nat {
    if lines == [] then 0
    else
      var last := lines[|lines| - 1];
      Subtotal(menu, lines[..|lines| - 1]) + (if last.item in menu then menu[last.item].priceXAF * last.quantity else 0)
  }

  /** One line is worth its price times its quantity. */
  lemma OneLine(menu: map<nat, Item>, line: CartLine)
    requires line.item in menu
    ensures Subtotal(menu, [line]) == menu[line.item].priceXAF * line.quantity
  {
    assert [line][..0] == [];
  }

  /** Carts add up. */
  lemma {:induction false} CartsAddUp(menu: map<nat, Item>, a: seq<CartLine>, b: seq<CartLine>)
    ensures Subtotal(menu, a + b) == Subtotal(menu, a) + Subtotal(menu, b)
  {
    if b == [] {
      assert a + b == a;
    } else {
      assert (a + b)[..|a + b| - 1] == a + b[..|b| - 1];
      CartsAddUp(menu, a, b[..|b| - 1]);
    }
  }

  lemma LineSplit(lines: seq<CartLine>, i: nat, line: CartLine)
    requires i < |lines|
    ensures lines == lines[..i] + [lines[i]] + lines[i + 1..]
    ensures lines[i := line] == lines[..i] + [line] + lines[i + 1..]
  {
  }

  lemma Distributes(a: nat, b: nat, c: nat)
    ensures a * (b + c) == a * b + a * c
  {
  }

  /** Each further unit of a line costs the item's price. */
  lemma MoreOfALine(menu: map<nat, Item>, lines: seq<CartLine>, i: nat, more: nat)
    requires i < |lines| && lines[i].item in menu
    ensures var line := lines[i].(quantity := lines[i].quantity + more);
            Subtotal(menu, lines[i := line]) == Subtotal(menu, lines) + menu[lines[i].item].priceXAF * more
  {
    hide Subtotal;
    var line, before, rest := lines[i].(quantity := lines[i].quantity + more), lines[..i], lines[i + 1..];
    LineSplit(lines, i, line);
    CartsAddUp(menu, before + [lines[i]], rest);
    CartsAddUp(menu, before, [lines[i]]);
    CartsAddUp(menu, before + [line], rest);
    CartsAddUp(menu, before, [line]);
    OneLine(menu, lines[i]);
    OneLine(menu, line);
    Distributes(menu[lines[i].item].priceXAF, lines[i].quantity, more);
  }

  function Units(lines: seq<CartLine>): nat {
    if lines == [] then 0 else Units(lines[..|lines| - 1]) + lines[|lines| - 1].quantity
  }

  /** A basket of items of at least 100 FCFA is worth at least 100 a unit. */
  lemma {:induction false} SubtotalFloor(menu: map<nat, Item>, lines: seq<CartLine>, vendor: nat)
    requires OnMenu(menu, lines, vendor) && forall id :: id in menu ==> menu[id].priceXAF >= 100
    ensures Subtotal(menu, lines) >= 100 * Units(lines)
    ensures lines != [] && (forall i :: 0 <= i < |lines| ==> lines[i].quantity >= 1) ==> Subtotal(menu, lines) >= 100 * |lines|
  {
    if lines != [] {
      var n := |lines| - 1;
      MulMonotone(lines[n].quantity, 100, menu[lines[n].item].priceXAF);
      assert forall i :: 0 <= i < n ==> lines[..n][i] == lines[i];
      SubtotalFloor(menu, lines[..n], vendor);
    }
  }

  // ── Verdict ──────────────────────────────────────────────────────────

  function ScheduleFault(scheduledFor: Option<Time>, acceptsPreOrders: bool, now: Time): Option<CreateError> {
    if scheduledFor.None? then None
    else if !acceptsPreOrders then Some(PreOrdersNotAccepted)
    else if scheduledFor.value < now + PRE_ORDER_MIN_LEAD_MS then Some(PreOrderTooSoon)
    else if scheduledFor.value > now + PRE_ORDER_MAX_LEAD_MS then Some(PreOrderTooFar)
    else None
  }

  /** The draft at full price, before any coupon. */
  function FullPrice(desk: Desk, user: nat, cart: Cart, codes: Codes, now: Time): Result<Draft, CreateError> {
    if cart.vendor !in desk.vendors || !desk.vendors[cart.vendor].active then Err(VendorNotFound)
    else
      var vendor := desk.vendors[cart.vendor];
      var found := Found(desk.menu, cart.lines, cart.vendor);
      var subtotal, fee := Subtotal(desk.menu, cart.lines), DeliveryFee(cart.distanceKm);
      var late := ScheduleFault(cart.scheduledFor, vendor.acceptsPreOrders, now);
      if !vendor.isOpen then Err(VendorClosed)
      else if |found| != |cart.lines| then Err(ItemNotInVendorMenu)
      else if !Sellable(desk.menu, found) then Err(ItemOutOfStock)
      else if subtotal + fee < MIN_ORDER_XAF then Err(OrderBelowMinimum)
      else if late.Some? then Err(late.value)
      else if exists i :: 0 <= i < |desk.shop.orders| && desk.shop.orders[i].code == codes.code then Err(CodeTaken)
      else Ok(Draft(user, cart.vendor, codes.code, subtotal, fee, 0, vendor.commissionRate, codes.pickup, codes.delivery,
                    cart.scheduledFor, |cart.lines|))
  }

  /** The discount the coupon grants inside the creating transaction. */
  function DiscountFor(desk: Desk, user: nat, cart: Cart, draft: Draft, now: Time): Result<int, CreateError> {
    if cart.couponCode == "" then Ok(0)
    else
      var inside := desk.shop.(orders := desk.shop.orders + [Placed(draft)]);
      match RedeemVerdict(inside, cart.couponCode, user, |desk.shop.orders|, draft.subtotalXAF, draft.deliveryFeeXAF, now)
      case Err(reason) => Err(CouponRefused(reason))
      case Ok(discount) => Ok(discount)
  }

  function Verdict(desk: Desk, user: nat, cart: Cart, codes: Codes, now: Time): Result<Draft, CreateError> {
    match FullPrice(desk, user, cart, codes, now)
    case Err(e) => Err(e)
    case Ok(draft) =>
      match DiscountFor(desk, user, cart, draft, now)
      case Err(e) => Err(e)
      case Ok(discount) => Ok(draft.(discountXAF := if discount > 0 then discount else 0))
  }

  /** The tables after the creation commits. */
  function Created(desk: Desk, user: nat, cart: Cart, draft: Draft, key: Option<nat>): Desk {
    var id := |desk.shop.orders|;
    var placed := desk.shop.(orders := desk.shop.orders + [Placed(draft)]);
    desk.(shop := if cart.couponCode == "" then placed else Redeemed(placed, cart.couponCode, user, id, draft.discountXAF),
          keys := if key.Some? then desk.keys[(user, key.value) := id] else desk.keys)
  }

  // ── What creation promises ───────────────────────────────────────────

  /** Every order createOrder writes has legal amounts: a real basket, a fee in
      range, the minimum met before discount, a discount within the total. */
  lemma CreatedAmountsAreLegal(desk: Desk, user: nat, cart: Cart, codes: Codes, now: Time)
    requires WellFormed(desk, cart) && Verdict(desk, user, cart, codes, now).Ok?
    ensures var d := Verdict(desk, user, cart, codes, now).value;
            && LegalAmounts(d.subtotalXAF, d.deliveryFeeXAF, d.discountXAF)
            && OnMenu(desk.menu, cart.lines, cart.vendor) && NoRepeats(cart.lines) && d.items == |cart.lines|
            && d.subtotalXAF == Subtotal(desk.menu, cart.lines) && d.deliveryFeeXAF == DeliveryFee(cart.distanceKm)
  {
    hide Subtotal;
    hide DeliveryFee;
    var draft := FullPrice(desk, user, cart, codes, now).value;
    CountMatchesIff(desk.menu, cart.lines, cart.vendor);
    SubtotalFloor(desk.menu, cart.lines, cart.vendor);
    DiscountIsBounded(desk, user, cart, draft, now);
  }

  /** What a customer is charged: of one line, its price times its quantity and
      the fee; of a cart of two parts, what both come to; at least 100 a unit. The
      row carries exactly this, less the discount. */
  lemma CreatedTotalIsTheCartsWorth(desk: Desk, user: nat, cart: Cart, codes: Codes, now: Time, a: seq<CartLine>, b: seq<CartLine>)
    requires WellFormed(desk, cart) && Verdict(desk, user, cart, codes, now).Ok?
    requires cart.lines == a + b
    ensures var d := Verdict(desk, user, cart, codes, now).value;
            && d.subtotalXAF == Subtotal(desk.menu, a) + Subtotal(desk.menu, b)
            && (|cart.lines| == 1 ==> cart.lines[0].item in desk.menu
                                      && d.subtotalXAF == desk.menu[cart.lines[0].item].priceXAF * cart.lines[0].quantity)
            && d.subtotalXAF >= 100 * Units(cart.lines)
            && d.userId == user && d.vendorId == cart.vendor && d.scheduledFor == cart.scheduledFor
            && d.code == codes.code && d.pickupCode == codes.pickup && d.deliveryCode == codes.delivery
            && d.commissionRate == desk.vendors[cart.vendor].commissionRate
            && Placed(d).totalXAF == d.subtotalXAF + DeliveryFee(cart.distanceKm) - d.discountXAF
  {
    hide Subtotal;
    hide DeliveryFee;
    CreatedAmountsAreLegal(desk, user, cart, codes, now);
    CartsAddUp(desk.menu, a, b);
    SubtotalFloor(desk.menu, cart.lines, cart.vendor);
    if |cart.lines| == 1 {
      assert cart.lines == [cart.lines[0]];
      OneLine(desk.menu, cart.lines[0]);
    }
  }

  /** So each creation is a legal transition of the platform, and writes the row
      the platform's own step writes. */
  lemma CreationIsALegalPlace(s: P.Db, desk: Desk, user: nat, cart: Cart, key: Option<nat>, codes: Codes, now: Time)
    requires WellFormed(desk, cart) && s.orders == desk.shop.orders
    requires CreateOrder(desk, user, cart, key, codes, now).0.Ok? && CreateOrder(desk, user, cart, key, codes, now).0.value.New?
    ensures var draft := Verdict(desk, user, cart, codes, now).value;
            && I.Legal(s, P.Place(draft))
            && P.PlaceOrder(s, draft).orders == CreateOrder(desk, user, cart, key, codes, now).1.shop.orders
  {
    hide Subtotal;
    hide DeliveryFee;
    hide RedeemVerdict;
    CreatedAmountsAreLegal(desk, user, cart, codes, now);
  }

  lemma DiscountIsBounded(desk: Desk, user: nat, cart: Cart, draft: Draft, now: Time)
    requires forall id: nat :: id < |desk.shop.coupons| ==> desk.shop.coupons[id].valueXAF >= 0
    requires DiscountFor(desk, user, cart, draft, now).Ok?
    ensures 0 <= DiscountFor(desk, user, cart, draft, now).value <= draft.subtotalXAF + draft.deliveryFeeXAF
  {
    hide PriorPaidOrdersExcept;
    var hit := FindCoupon(desk.shop.coupons, cart.couponCode);
    if cart.couponCode != "" && hit.Some? {
      DiscountBounds(desk.shop.coupons[hit.value], draft.subtotalXAF, draft.deliveryFeeXAF);
    }
  }

  /** An order is accepted for a cart without coupon exactly under the
      conditions the source lists, the first failing one naming the error. */
  lemma UncouponedCartAcceptedIff(desk: Desk, user: nat, cart: Cart, codes: Codes, now: Time)
    requires cart.couponCode == ""
    ensures Verdict(desk, user, cart, codes, now).Ok?
            <==> && cart.vendor in desk.vendors && desk.vendors[cart.vendor].active && desk.vendors[cart.vendor].isOpen
                 && OnMenu(desk.menu, cart.lines, cart.vendor) && NoRepeats(cart.lines)
                 && Sellable(desk.menu, ItemIds(cart.lines))
                 && MIN_ORDER_XAF <= Subtotal(desk.menu, cart.lines) + DeliveryFee(cart.distanceKm)
                 && (cart.scheduledFor.Some? ==>
                       && desk.vendors[cart.vendor].acceptsPreOrders
                       && now + PRE_ORDER_MIN_LEAD_MS <= cart.scheduledFor.value <= now + PRE_ORDER_MAX_LEAD_MS)
                 && (forall i :: 0 <= i < |desk.shop.orders| ==> desk.shop.orders[i].code != codes.code)
  {
    hide Subtotal;
    hide DeliveryFee;
    CountMatchesIff(desk.menu, cart.lines, cart.vendor);
    if OnMenu(desk.menu, cart.lines, cart.vendor) {
      assert Found(desk.menu, cart.lines, cart.vendor) == ItemIds(cart.lines);
    }
  }

  /** From cart to ledger: whatever the basket, distance and rate up to 99%, the
      delivery split of a created order is booked when no discount was granted,
      and refused when one was. */
  lemma CreatedOrderIsDeliverableIff(desk: Desk, user: nat, cart: Cart, codes: Codes, now: Time, id: nat, paid: Order)
    requires WellFormed(desk, cart) && Verdict(desk, user, cart, codes, now).Ok?
    requires Verdict(desk, user, cart, codes, now).value.commissionRate <= 9900
    requires Deliverable(paid)
    requires var d := Verdict(desk, user, cart, codes, now).value;
             paid.subtotalXAF == d.subtotalXAF && paid.deliveryFeeXAF == d.deliveryFeeXAF && paid.discountXAF == d.discountXAF
             && paid.commissionRate == d.commissionRate
    ensures Refusal(DeliveryTxn(id, paid, paid.snapshot.value)).None?
            <==> DiscountFor(desk, user, cart, FullPrice(desk, user, cart, codes, now).value, now).value == 0
  {
    hide Refusal;
    hide Subtotal;
    hide DeliveryFee;
    hide RedeemVerdict;
    var draft := FullPrice(desk, user, cart, codes, now).value;
    DiscountIsBounded(desk, user, cart, draft, now);
    if paid.discountXAF == 0 {
      UndiscountedOrdersAreDelivered(id, paid);
    } else {
      DeliveryAcceptedIff(id, paid);
    }
  }

  /** createOrder as one request: a known key returns its order and changes
      nothing. */
  datatype Answer = Existing(order: nat) | New(order: nat)

  function CreateOrder(desk: Desk, user: nat, cart: Cart, key: Option<nat>, codes: Codes, now: Time)
    : (Result<Answer, CreateError>, Desk)
  {
    if key.Some? && (user, key.value) in desk.keys then (Ok(Existing(desk.keys[(user, key.value)])), desk)
    else
      match Verdict(desk, user, cart, codes, now)
      case Err(e) => (Err(e), desk)
      case Ok(draft) => (Ok(New(|desk.shop.orders|)), Created(desk, user, cart, draft, key))
  }

  /** A retry with the same key, whatever cart it carries and however many other
      orders came between, returns the order first created under it. */
  lemma RetryReturnsTheOriginal(desk: Desk, user: nat, cart: Cart, key: nat, codes: Codes, now: Time,
                                between: seq<(nat, Cart, Option<nat>, Codes, Time)>, again: Cart, codes': Codes, later: Time)
    requires CreateOrder(desk, user, cart, Some(key), codes, now).0.Ok?
    ensures var first := CreateOrder(desk, user, cart, Some(key), codes, now);
            var mid := CreatedAll(first.1, between);
            var order := first.0.value.order;
            CreateOrder(mid, user, again, Some(key), codes', later) == (Ok(Existing(order)), mid)
  {
    hide Verdict;
    KeysStay(CreateOrder(desk, user, cart, Some(key), codes, now).1, between, (user, key));
  }

  function CreatedAll(desk: Desk, requests: seq<(nat, Cart, Option<nat>, Codes, Time)>): Desk {
    if requests == [] then desk
    else
      var r := requests[|requests| - 1];
      CreateOrder(CreatedAll(desk, requests[..|requests| - 1]), r.0, r.1, r.2, r.3, r.4).1
  }

  lemma {:induction false} KeysStay(desk: Desk, requests: seq<(nat, Cart, Option<nat>, Codes, Time)>, key: (nat, nat))
    requires key in desk.keys
    ensures key in CreatedAll(desk, requests).keys && CreatedAll(desk, requests).keys[key] == desk.keys[key]
  {
    hide Verdict;
    if requests != [] {
      KeysStay(desk, requests[..|requests| - 1], key);
    }
  }

  // ── Redemptions and their orders ─────────────────────────────────────

  /** Every redemption is of an order of the same user, for the discount that
      order carries, of a coupon that exists. */
  ghost predicate RedemptionsMatch(shop: Shop) {
    forall k :: 0 <= k < |shop.redemptions| ==>
      var r := shop.redemptions[k];
      && r.order < |shop.orders| && shop.orders[r.order].userId == r.userId
      && shop.orders[r.order].discountXAF == r.discountXAF && r.coupon < |shop.coupons|
  }

  lemma CreationKeepsRedemptions(desk: Desk, user: nat, cart: Cart, key: Option<nat>, codes: Codes, now: Time)
    requires RedemptionsMatch(desk.shop)
    ensures RedemptionsMatch(CreateOrder(desk, user, cart, key, codes, now).1.shop)
  {
    hide Subtotal;
    hide DeliveryFee;
    hide ValidateRow;
    var after := CreateOrder(desk, user, cart, key, codes, now).1.shop;
    if Verdict(desk, user, cart, codes, now).Ok? {
      DraftIsTheUsers(desk, user, cart, codes, now);
      assert forall i :: 0 <= i < |desk.shop.orders| && i < |after.orders| ==> after.orders[i] == desk.shop.orders[i];
      assert forall k :: 0 <= k < |desk.shop.redemptions| ==> after.redemptions[k] == desk.shop.redemptions[k];
    }
  }

  lemma DraftIsTheUsers(desk: Desk, user: nat, cart: Cart, codes: Codes, now: Time)
    requires Verdict(desk, user, cart, codes, now).Ok?
    ensures Verdict(desk, user, cart, codes, now).value.userId == user
  {
    hide Subtotal;
    hide DeliveryFee;
    hide RedeemVerdict;
  }

  /** Over any serial run of creations, from a table without redemptions. */
  lemma {:induction false} RedemptionsMatchTheirOrders(desk: Desk, requests: seq<(nat, Cart, Option<nat>, Codes, Time)>)
    requires desk.shop.redemptions == []
    ensures RedemptionsMatch(CreatedAll(desk, requests).shop)
  {
    hide Verdict;
    if requests != [] {
      var n := |requests| - 1;
      var r := requests[n];
      RedemptionsMatchTheirOrders(desk, requests[..n]);
      CreationKeepsRedemptions(CreatedAll(desk, requests[..n]), r.0, r.1, r.2, r.3, r.4);
    }
  }

  /** The discount a created order carries: none without a code; or what the
      coupon with that code gives on this cart, in its dates, from its minimum on,
      for a first order if it asks for one. */
  lemma CreatedDiscountIsTheCoupons(desk: Desk, user: nat, cart: Cart, codes: Codes, now: Time)
    requires WellFormed(desk, cart) && Verdict(desk, user, cart, codes, now).Ok?
    ensures var d := Verdict(desk, user, cart, codes, now).value;
            var subtotal, fee := Subtotal(desk.menu, cart.lines), DeliveryFee(cart.distanceKm);
            && (cart.couponCode == "" ==> d.discountXAF == 0)
            && (cart.couponCode != "" ==>
                  exists k: nat :: k < |desk.shop.coupons| && desk.shop.coupons[k].code == cart.couponCode
                                   && Gives(desk.shop.coupons[k], desk.shop.orders, user, subtotal, fee, now, d.discountXAF))
  {
    hide Subtotal;
    hide DeliveryFee;
    var draft := FullPrice(desk, user, cart, codes, now).value;
    if cart.couponCode != "" {
      var inside := desk.shop.(orders := desk.shop.orders + [Placed(draft)]);
      var k := FindCoupon(desk.shop.coupons, cart.couponCode).value;
      NoPriorOrderIff(inside.orders, user, |desk.shop.orders|);
      assert forall i :: 0 <= i < |desk.shop.orders| ==> inside.orders[i] == desk.shop.orders[i];
      assert Gives(desk.shop.coupons[k], desk.shop.orders, user, draft.subtotalXAF, draft.deliveryFeeXAF, now,
                   Verdict(desk, user, cart, codes, now).value.discountXAF);
    }
  }

  ghost predicate Gives(c: Coupon, orders: seq<Order>, user: nat, subtotalXAF: nat, feeXAF: nat, now: Time, discountXAF: int) {
    && c.active && (c.validFrom.Some? ==> c.validFrom.value <= now) && (c.validUntil.Some? ==> now <= c.validUntil.value)
    && (c.minSubtotalXAF.Some? ==> c.minSubtotalXAF.value <= subtotalXAF)
    && (c.firstOrderOnly ==>
          forall i :: 0 <= i < |orders| && orders[i].userId == user ==>
            orders[i].status == Cancelled || (orders[i].paymentStatus != Paid && orders[i].paymentStatus != Refunded))
    && (c.kind == FreeDelivery ==> discountXAF == feeXAF)
    && (c.kind == FixedAmountOff ==>
          discountXAF == if c.valueXAF < subtotalXAF + feeXAF then c.valueXAF else subtotalXAF + feeXAF)
  }

  /** A creation with a code spends it: one redemption more, of the coupon with
      that code, and its counter up by one. Without a code it spends nothing. */
  lemma CodeIsSpentIff(desk: Desk, user: nat, cart: Cart, key: Option<nat>, codes: Codes, now: Time)
    requires CreateOrder(desk, user, cart, key, codes, now).0.Ok? && CreateOrder(desk, user, cart, key, codes, now).0.value.New?
    ensures var was, shop := desk.shop, CreateOrder(desk, user, cart, key, codes, now).1.shop;
            && |shop.orders| == |was.orders| + 1 && |shop.coupons| == |was.coupons|
            && (cart.couponCode == "" ==> shop.redemptions == was.redemptions && shop.coupons == was.coupons)
            && (cart.couponCode != "" ==>
                  && |shop.redemptions| == |was.redemptions| + 1
                  && var r := shop.redemptions[|was.redemptions|];
                     && r.coupon < |was.coupons| && was.coupons[r.coupon].code == cart.couponCode
                     && r.userId == user && r.order == |was.orders| && !HasRedeemed(was.redemptions, r.coupon, user)
                     && shop.coupons[r.coupon].redemptionCount == was.coupons[r.coupon].redemptionCount + 1)
  {
    hide Subtotal;
    hide DeliveryFee;
    hide ValidateRow;
  }

  // ── What a customer is told ──────────────────────────────────────────

  ghost predicate InStock(menu: map<nat, Item>, lines: seq<CartLine>) {
    forall i :: 0 <= i < |lines| && lines[i].item in menu ==> menu[lines[i].item].isAvailable && menu[lines[i].item].isInStock
  }

  /** The first condition a cart fails names the error: the vendor, its hours,
      its menu, its stock, 1200 FCFA, pre-orders between four hours and a day
      ahead, and the code drawn for the row. */
  lemma CartIsToldIff(desk: Desk, user: nat, cart: Cart, codes: Codes, now: Time)
    ensures var told := FullPrice(desk, user, cart, codes, now);
            var known := cart.vendor in desk.vendors && desk.vendors[cart.vendor].active;
            var open := known && desk.vendors[cart.vendor].isOpen;
            var listed := open && OnMenu(desk.menu, cart.lines, cart.vendor) && NoRepeats(cart.lines);
            var stocked := listed && InStock(desk.menu, cart.lines);
            var enough := stocked && Subtotal(desk.menu, cart.lines) + DeliveryFee(cart.distanceKm) >= 1200;
            var taken := enough && (cart.scheduledFor.Some? ==> desk.vendors[cart.vendor].acceptsPreOrders);
            var soon := taken && (cart.scheduledFor.Some? ==> cart.scheduledFor.value - now >= 4 * 60 * 60 * 1000);
            var timely := soon && (cart.scheduledFor.Some? ==> cart.scheduledFor.value - now <= 24 * 60 * 60 * 1000);
            var unused := forall i :: 0 <= i < |desk.shop.orders| ==> desk.shop.orders[i].code != codes.code;
            && (told == Err(VendorNotFound) <==> !known)
            && (told == Err(VendorClosed) <==> known && !open)
            && (told == Err(ItemNotInVendorMenu) <==> open && !listed)
            && (told == Err(ItemOutOfStock) <==> listed && !stocked)
            && (told == Err(OrderBelowMinimum) <==> stocked && !enough)
            && (told == Err(PreOrdersNotAccepted) <==> enough && !taken)
            && (told == Err(PreOrderTooSoon) <==> taken && !soon)
            && (told == Err(PreOrderTooFar) <==> soon && !timely)
            && (told == Err(CodeTaken) <==> timely && !unused)
            && (told.Ok? <==> timely && unused)
  {
    hide Subtotal;
    hide DeliveryFee;
    CountMatchesIff(desk.menu, cart.lines, cart.vendor);
    if OnMenu(desk.menu, cart.lines, cart.vendor) {
      assert Found(desk.menu, cart.lines, cart.vendor) == ItemIds(cart.lines);
      assert forall i :: 0 <= i < |cart.lines| ==> cart.lines[i].item in ItemIds(cart.lines);
    }
  }

  class OrderCreationService {
    const coupons: CouponsService
    var vendors: map<nat, Vendor>
    var menu: map<nat, Item>
    var keys: map<(nat, nat), nat>

    ghost function Model(): Desk reads this, coupons {
      Desk(vendors, menu, coupons.Model(), keys)
    }

    constructor (coupons: CouponsService, vendors: map<nat, Vendor>, menu: map<nat, Item>)
      ensures this.coupons == coupons && Model() == Desk(vendors, menu, coupons.Model(), map[])
    {
      this.coupons, this.vendors, this.menu, this.keys := coupons, vendors, menu, map[];
    }

    /** The reduce over cart lines. */
    method SumLines(lines: seq<CartLine>) returns (sum: nat)
      ensures sum == Subtotal(menu, lines)
      ensures |lines| == 1 && lines[0].item in menu ==> sum == menu[lines[0].item].priceXAF * lines[0].quantity
      ensures forall n: nat :: n <= |lines| ==> sum == Subtotal(menu, lines[..n]) + Subtotal(menu, lines[n..])
    {
      sum := 0;
      for i := 0 to |lines|
        invariant sum == Subtotal(menu, lines[..i])
      {
        assert lines[..i + 1][..i] == lines[..i];
        if lines[i].item in menu {
          sum := sum + menu[lines[i].item].priceXAF * lines[i].quantity;
        }
      }
      assert lines[..|lines|] == lines;
      forall n: nat | n <= |lines| ensures sum == Subtotal(menu, lines[..n]) + Subtotal(menu, lines[n..]) {
        assert lines[..n] + lines[n..] == lines;
        CartsAddUp(menu, lines[..n], lines[n..]);
      }
      if |lines| == 1 && lines[0].item in menu {
        assert lines == [lines[0]];
        OneLine(menu, lines[0]);
      }
    }

    /** Every check before the transaction, in the source's order. */
    method Check(user: nat, cart: Cart, codes: Codes, now: Time) returns (checked: Result<Draft, CreateError>)
      ensures checked == FullPrice(Model(), user, cart, codes, now)
    {
      if cart.vendor !in vendors || !vendors[cart.vendor].active {
        return Err(VendorNotFound);
      }
      var vendor := vendors[cart.vendor];
      if !vendor.isOpen {
        return Err(VendorClosed);
      }
      var found := Found(menu, cart.lines, cart.vendor);
      if |found| != |cart.lines| {
        return Err(ItemNotInVendorMenu);
      }
      if !Sellable(menu, found) {
        return Err(ItemOutOfStock);
      }
      var subtotalXAF := SumLines(cart.lines);
      var deliveryFeeXAF := DeliveryFee(cart.distanceKm);
      if subtotalXAF + deliveryFeeXAF < MIN_ORDER_XAF {
        return Err(OrderBelowMinimum);
      }
      var fault := ScheduleFault(cart.scheduledFor, vendor.acceptsPreOrders, now);
      if fault.Some? {
        return Err(fault.value);
      }
      if exists i :: 0 <= i < |coupons.orders| && coupons.orders[i].code == codes.code {
        return Err(CodeTaken);
      }
      return Ok(Draft(user, cart.vendor, codes.code, subtotalXAF, deliveryFeeXAF, 0, vendor.commissionRate,
                      codes.pickup, codes.delivery, cart.scheduledFor, |cart.lines|));
    }

    /** The row goes in at full price; a coupon is redeemed against it and the
        discount written back, or everything rolls back. */
    method Create(user: nat, cart: Cart, key: Option<nat>, codes: Codes, now: Time) returns (answer: Result<Answer, CreateError>)
      requires forall id: nat :: id < |coupons.coupons| ==> coupons.coupons[id].valueXAF >= 0
      modifies this, coupons
      ensures (answer, Model()) == CreateOrder(old(Model()), user, cart, key, codes, now)
    {
      hide FullPrice;
      hide RedeemVerdict;
      if key.Some? && (user, key.value) in keys {
        return Ok(Existing(keys[(user, key.value)]));
      }
      ghost var desk := Model();
      var checked := Check(user, cart, codes, now);
      if checked.Err? {
        return Err(checked.error);
      }
      var draft, id := checked.value, |coupons.orders|;
      FullPriceHasNoDiscount(desk, user, cart, codes, now);
      coupons.orders := coupons.orders + [Placed(draft)];
      if cart.couponCode != "" {
        var redemption := coupons.RedeemInTransaction(cart.couponCode, user, id, draft.subtotalXAF, draft.deliveryFeeXAF, now);
        if redemption.Err? {
          coupons.orders := coupons.orders[..id];            // the transaction rolls back
          assert coupons.orders == desk.shop.orders;
          return Err(CouponRefused(redemption.error));
        }
        DiscountIsBounded(desk, user, cart, draft, now);
        draft := draft.(discountXAF := redemption.value);
        coupons.orders := coupons.orders[id := Placed(draft)];
      }
      assert coupons.orders == desk.shop.orders + [Placed(draft)];
      if key.Some? {
        keys := keys[(user, key.value) := id];
      }
      return Ok(New(id));
    }
  }

  lemma FullPriceHasNoDiscount(desk: Desk, user: nat, cart: Cart, codes: Codes, now: Time)
    requires FullPrice(desk, user, cart, codes, now).Ok?
    ensures FullPrice(desk, user, cart, codes, now).value.discountXAF == 0
  {
  }
}
