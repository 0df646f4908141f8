/** Who is paid out, and when: the gates of the three scheduling paths, and the
    life of a cashout request. */
module PayoutGates {
  import opened Common
  import opened Ledger
  import opened Orders
  import opened OrderInvariants
  import opened Payouts
  import opened Platform
  import opened PlatformInvariant
  import opened PlatformRuns
  import opened PayoutPeriods
  import opened PayoutRaces

  /** A refund of one of the vendor's orders is waiting to be paid back. */
  ghost predicate RefundWaits(s: Db, vendor: nat) {
    exists i: nat :: i < |s.orders| && s.orders[i].vendorId == vendor && s.orders[i].paymentStatus == RefundPending
  }

  /** The payee has no payout starting where its next period starts. */
  ghost predicate StartIsFree(s: Db, payee: Payee)
    requires payee in s.payees
  {
    forall p :: 0 <= p < |s.payouts| && s.payouts[p].payee == payee ==> s.payouts[p].periodStart != PeriodStart(s, payee)
  }

  /** A pass that reads and inserts in one state pays a vendor exactly when it is
      owed 500 FCFA or more, none of its orders waits for a refund, and its next
      period's start is free. */
  lemma VendorIsPaidIff(s: Db, vendor: nat)
    requires Vendor(vendor) in s.payees
    ensures var owed := Balance(s.ledger, s.payouts, Vendor(vendor));
            var verdict := VendorPayoutVerdict(s, vendor, ReadNow(s, Vendor(vendor)));
            && (verdict.Ok? <==> owed >= 500 && !RefundWaits(s, vendor) && StartIsFree(s, Vendor(vendor)))
            && (verdict.Ok? ==> verdict.value == owed)
            && (verdict == Err(OpenDisputes) <==> owed >= 500 && RefundWaits(s, vendor))
            && (verdict == Err(BelowMinimum(owed)) <==> 0 < owed < 500)
            && (verdict == Err(NegativeOrZeroBalance(owed)) <==> owed <= 0)
  {
    hide Balance;
    HeldIff(s.payouts, Vendor(vendor), PeriodStart(s, Vendor(vendor)));
  }

  /** A rider is paid from 1000 FCFA on, with both identity photos, whatever
      refunds wait. */
  lemma RiderIsPaidIff(s: Db, rider: nat, kycComplete: bool)
    requires Rider(rider) in s.payees
    ensures var owed := Balance(s.ledger, s.payouts, Rider(rider));
            var verdict := RiderPayoutVerdict(s, rider, kycComplete, ReadNow(s, Rider(rider)));
            && (verdict.Ok? <==> kycComplete && owed >= 1000 && StartIsFree(s, Rider(rider)))
            && (verdict.Ok? ==> verdict.value == owed)
            && (verdict == Err(KycIncomplete) <==> !kycComplete)
            && (verdict == Err(BelowMinimum(owed)) <==> kycComplete && 0 < owed < 1000)
            && (verdict == Err(NegativeOrZeroBalance(owed)) <==> kycComplete && owed <= 0)
  {
    hide Balance;
    HeldIff(s.payouts, Rider(rider), PeriodStart(s, Rider(rider)));
  }

  /** An approval pays under a vendor's conditions, for a request still pending. */
  lemma CashoutIsGrantedIff(s: Db, request: nat)
    requires request < |s.cashouts| && Vendor(s.cashouts[request].vendor) in s.payees
    ensures var vendor := s.cashouts[request].vendor;
            var owed := Balance(s.ledger, s.payouts, Vendor(vendor));
            var verdict := CashoutVerdict(s, request, s.cashouts[request].status == PendingApproval, ReadNow(s, Vendor(vendor)));
            && (verdict.Ok? <==> s.cashouts[request].status == PendingApproval && owed >= 500 && !RefundWaits(s, vendor)
                                 && StartIsFree(s, Vendor(vendor)))
            && (verdict.Ok? ==> verdict.value == owed)
            && (verdict == Err(CashoutNotPending) <==> s.cashouts[request].status != PendingApproval)
            && (verdict == Err(CashoutBelowMinimum) <==> s.cashouts[request].status == PendingApproval && owed < 500)
            && (verdict == Err(OpenDisputes)
                <==> s.cashouts[request].status == PendingApproval && owed >= 500 && RefundWaits(s, vendor))
  {
    hide Balance;
    HeldIff(s.payouts, Vendor(s.cashouts[request].vendor), PeriodStart(s, Vendor(s.cashouts[request].vendor)));
  }

  /** Over runs, with stale reads: whatever pays a vendor, in the state that
      answered its dispute count no order of the vendor waited for a refund; and
      no payout of a vendor is below 500 FCFA, of a rider below 1000. */
  lemma DisputedVendorIsNotPaid(states: seq<Db>, moments: seq<Moment>, i: nat, a: nat, b: nat, c: nat, d: nat)
    requires Run(states, moments) && i < |moments| && Honest(states, moments, i, a, b, c, d)
    ensures var award := AwardAt(states, moments, i).value;
            && award.netXAF == SeenBy(moments[i].op).balanceXAF
            && award.netXAF >= (if award.payee.Vendor? then 500 else 1000)
            && (award.payee.Vendor? ==>
                  forall o: nat :: o < |states[c].orders| && states[c].orders[o].vendorId == award.payee.id ==>
                                   states[c].orders[o].paymentStatus != RefundPending)
  {
    hide Next;
    hide Legal;
    hide Balance;
    var award := AwardAt(states, moments, i).value;
    if award.payee.Vendor? {
      assert !OpenDispute(states[c], award.payee.id);
    }
  }

  /** A period starts at the account's creation until something was sent, and
      then where the latest sent or paid one ended. */
  lemma PeriodStartsAt(s: Db, payee: Payee) returns (q: nat)
    requires payee in s.payees
    ensures var sent := set p: nat | p < |s.payouts| && s.payouts[p].payee == payee
                                     && (s.payouts[p].status == PayoutPaid || s.payouts[p].status == PayoutInFlight);
            && (sent == {} ==> PeriodStart(s, payee) == s.payees[payee])
            && (sent != {} ==> q in sent && PeriodStart(s, payee) == s.payouts[q].periodEnd)
            && (forall p :: p in sent ==> s.payouts[p].periodEnd <= PeriodStart(s, payee))
  {
    q := 0;
    var sent := set p: nat | p < |s.payouts| && s.payouts[p].payee == payee
                             && (s.payouts[p].status == PayoutPaid || s.payouts[p].status == PayoutInFlight);
    if Cutoff(s.payouts, payee).Some? {
      q := CutoffIsAnEnd(s.payouts, payee);
      assert q in sent;
    }
    forall p | p in sent ensures Cutoff(s.payouts, payee).Some? && s.payouts[p].periodEnd <= Cutoff(s.payouts, payee).value {
      CutoffIsLatest(s.payouts, payee, p);
    }
  }

  /** Unknown rows are told so, and an insert that collides names the payout in
      its way: the first of the payee's with that start. */
  lemma UnknownAndTaken(s: Db, vendor: nat, rider: nat, request: nat, pending: bool, seen: Reading, payee: Payee)
    ensures Vendor(vendor) !in s.payees ==> VendorPayoutVerdict(s, vendor, seen) == Err(PayeeNotFound)
    ensures Rider(rider) !in s.payees ==> RiderPayoutVerdict(s, rider, true, seen) == Err(PayeeNotFound)
    ensures request >= |s.cashouts| ==> CashoutVerdict(s, request, pending, seen) == Err(CashoutNotFound)
    ensures request < |s.cashouts| && pending && Vendor(s.cashouts[request].vendor) !in s.payees ==>
              CashoutVerdict(s, request, pending, seen) == Err(PayeeNotFound)
    ensures var outcome := Insertable(s, payee, seen);
            && (outcome.Ok? <==> forall p :: 0 <= p < |s.payouts| && s.payouts[p].payee == payee ==> s.payouts[p].periodStart != seen.start)
            && (outcome.Ok? ==> outcome.value == seen.balanceXAF)
            && (outcome.Err? ==> outcome.error.AlreadyScheduled? && outcome.error.payout < |s.payouts|
                                 && s.payouts[outcome.error.payout].payee == payee
                                 && s.payouts[outcome.error.payout].periodStart == seen.start)
  {
    HeldIff(s.payouts, payee, seen.start);
    if PeriodHolder(s.payouts, payee, seen.start).Some? {
      HolderHolds(s.payouts, payee, seen.start);
    }
  }

  lemma {:induction false} HolderHolds(payouts: seq<Payout>, payee: Payee, start: Time)
    requires PeriodHolder(payouts, payee, start).Some?
    ensures var p := PeriodHolder(payouts, payee, start).value;
            p < |payouts| && payouts[p].payee == payee && payouts[p].periodStart == start
  {
    var init := payouts[..|payouts| - 1];
    if PeriodHolder(init, payee, start).Some? {
      HolderHolds(init, payee, start);
    }
  }

  // ── Cashout requests ─────────────────────────────────────────────────

  /** A request is taken exactly from a registered, informal, active vendor that
      is owed something and has none pending; it records what is owed. */
  lemma CashoutIsTakenIff(s: Db, vendor: nat, informal: bool, active: bool)
    ensures var t := RequestCashout(s, vendor, informal, active);
            var owed := Balance(s.ledger, s.payouts, Vendor(vendor));
            if Vendor(vendor) in s.payees && informal && active && owed > 0
               && forall r :: 0 <= r < |s.cashouts| && s.cashouts[r].vendor == vendor ==> s.cashouts[r].status != PendingApproval
            then t == s.(cashouts := s.cashouts + [Cashout(vendor, owed, PendingApproval, None)]) else t == s
  {
    hide Balance;
  }

  /** What a vendor is told that asks in vain, the first reason naming it. */
  lemma CashoutAskIsTold(s: Db, vendor: nat, informal: bool, active: bool)
    ensures var told := CashoutRequestVerdict(s, vendor, informal, active);
            var known := Vendor(vendor) in s.payees;
            var asks := known && informal;
            var works := asks && active;
            var idle := works && forall r :: 0 <= r < |s.cashouts| && s.cashouts[r].vendor == vendor ==>
                                             s.cashouts[r].status != PendingApproval;
            && (told == Err(PayeeNotFound) <==> !known)
            && (told == Err(CashoutOnlyForInformal) <==> known && !asks)
            && (told == Err(VendorNotActive) <==> asks && !works)
            && (told == Err(CashoutAlreadyPending) <==> works && !idle)
            && (told == Err(CashoutNoBalance) <==> idle && Balance(s.ledger, s.payouts, Vendor(vendor)) <= 0)
  {
    hide Balance;
  }

  /** Its status and its payout agree: approved with a payout to its vendor,
      never any other status with one; and a vendor has one pending at most. */
  ghost predicate CashoutsOk(s: Db) {
    && (forall r :: 0 <= r < |s.cashouts| ==>
          var c := s.cashouts[r];
          && c.requestedXAF > 0
          && (c.status == Approved <==> c.payout.Some?)
          && (c.payout.Some? ==> c.payout.value < |s.payouts| && s.payouts[c.payout.value].payee == Vendor(c.vendor)))
    && forall q, r :: 0 <= q < r < |s.cashouts| && s.cashouts[q].vendor == s.cashouts[r].vendor ==>
         s.cashouts[q].status != PendingApproval || s.cashouts[r].status != PendingApproval
  }

  lemma OthersKeepCashouts(s: Db, op: Op, now: Time)
    requires !op.AskCashout? && !op.GrantCashout? && !op.DenyCashout?
    ensures Next(s, op, now).cashouts == s.cashouts
  {
    hide StepOrder;
    hide StepPayout;
    hide VendorPayoutVerdict;
    hide RiderPayoutVerdict;
  }

  /** What a decision leaves of the requests: the one decided, decided. */
  lemma DecidedCashouts(s: Db, op: Op, now: Time)
    requires op.GrantCashout? || op.DenyCashout?
    ensures var t := Next(s, op, now);
            && |t.cashouts| == |s.cashouts|
            && (forall r :: 0 <= r < |s.cashouts| && r != op.request ==> t.cashouts[r] == s.cashouts[r])
            && (op.request < |s.cashouts| ==>
                  var c := s.cashouts[op.request];
                  t.cashouts[op.request]
                  == if op.GrantCashout? && AwardOf(s, op).Some? then c.(status := Approved, payout := Some(|s.payouts|))
                     else if op.DenyCashout? && c.status == PendingApproval then c.(status := CashoutStatus.Rejected) else c)
  {
    hide Scheduled;
    if op.GrantCashout? && AwardOf(s, op).Some? {
      AwardIsGuarded(s, op, now);
    }
  }

  lemma NextKeepsCashouts(s: Db, op: Op, now: Time)
    requires CashoutsOk(s)
    ensures CashoutsOk(Next(s, op, now))
  {
    hide Next;
    PayoutsKeepTheirPayee(s, op, now);
    match op {
      case AskCashout(vendor, informal, active) => AskKeepsCashouts(s, vendor, informal, active, now);
      case GrantCashout(_, _, _, _) =>
        DecidedCashouts(s, op, now);
        if AwardOf(s, op).Some? {
          AwardIsGuarded(s, op, now);
        }
      case DenyCashout(_) => DecidedCashouts(s, op, now);
      case _ => OthersKeepCashouts(s, op, now);
    }
  }

  lemma AskKeepsCashouts(s: Db, vendor: nat, informal: bool, active: bool, now: Time)
    requires CashoutsOk(s)
    ensures CashoutsOk(Next(s, AskCashout(vendor, informal, active), now))
  {
    hide Balance;
    CashoutIsTakenIff(s, vendor, informal, active);
  }

  lemma PayoutsKeepTheirPayee(s: Db, op: Op, now: Time)
    ensures var t := Next(s, op, now);
            |s.payouts| <= |t.payouts| && forall p :: 0 <= p < |s.payouts| ==> t.payouts[p].payee == s.payouts[p].payee
  {
    hide Next;
    if AwardOf(s, op).Some? {
      AwardIsGuarded(s, op, now);
    } else {
      OtherwisePeriodsStay(s, op, now);
    }
  }

  /** In every state of every run. */
  lemma {:induction false} CashoutsAlwaysOk(states: seq<Db>, moments: seq<Moment>, i: nat)
    requires Run(states, moments) && i < |states|
    ensures CashoutsOk(states[i])
  {
    hide Next;
    hide Legal;
    if i > 0 {
      CashoutsAlwaysOk(states, moments, i - 1);
      NextKeepsCashouts(states[i - 1], moments[i - 1].op, moments[i - 1].now);
    }
  }

  /** An approval writes by id whatever the request has become since it was read:
      a request rejected in between is approved and paid all the same. */
  lemma RejectedRequestIsPaid(s: Db, request: nat, end: Time, x: Time, now: Time)
    requires request < |s.cashouts| && s.cashouts[request].status == PendingApproval
    requires Vendor(s.cashouts[request].vendor) in s.payees
    requires Balance(s.ledger, s.payouts, Vendor(s.cashouts[request].vendor)) >= 500
    requires !RefundWaits(s, s.cashouts[request].vendor) && StartIsFree(s, Vendor(s.cashouts[request].vendor))
    ensures var vendor := s.cashouts[request].vendor;
            var rejected := Next(s, DenyCashout(request), x);
            var paid := Next(rejected, GrantCashout(request, true, ReadNow(s, Vendor(vendor)), end), now);
            && request < |rejected.cashouts| && rejected.cashouts[request].status == CashoutStatus.Rejected
            && request < |paid.cashouts| && paid.cashouts[request].status == Approved && |paid.payouts| == |s.payouts| + 1
  {
    hide Balance;
    CashoutIsGrantedIff(s, request);
  }
}
