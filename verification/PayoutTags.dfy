/** Order.payoutId: which payout an order was settled in. */
module PayoutTags {
  import opened Common
  import opened Ledger
  import opened Orders
  import opened OrderInvariants
  import opened Payouts
  import opened Platform
  import opened PlatformInvariant
  import opened PlatformRuns
  import opened PayoutPeriods
  import opened PayoutTurns

  /** The order was delivered to or by the payee within the payout's period. */
  predicate SettledIn(order: Order, payout: Payout) {
    && order.deliveredAt.Some? && payout.periodStart < order.deliveredAt.value <= payout.periodEnd
    && match payout.payee
       case Vendor(v) => order.vendorId == v
       case Rider(r) => order.riderId == Some(r)
  }

  ghost predicate TagsOk(s: Db) {
    forall o :: o in s.payoutTags ==>
      && o < |s.orders| && s.payoutTags[o] < |s.payouts|
      && SettledIn(s.orders[o], s.payouts[s.payoutTags[o]])
  }

  /** An order keeps its tag, or loses it to a rider's payout. */
  ghost predicate TagsSucceed(s: Db, t: Db) {
    forall o :: o in s.payoutTags && s.payoutTags[o] < |s.payouts| ==>
      && o in t.payoutTags && t.payoutTags[o] < |t.payouts|
      && (t.payoutTags[o] == s.payoutTags[o] || t.payouts[t.payoutTags[o]].payee.Rider?)
  }

  /** What scheduling a payout does to one order's tag. */
  ghost predicate Tagged(s: Db, s': Db, a: Award, o: nat) {
    var hit := o < |s.orders| && Taggable(s, o, a.payee, a.start, a.end);
    && (o in s'.payoutTags <==> o in s.payoutTags || hit)
    && (o in s'.payoutTags ==> s'.payoutTags[o] == if hit then |s.payouts| else s.payoutTags[o])
  }

  lemma AwardTags(s: Db, op: Op, now: Time)
    requires AwardOf(s, op).Some?
    ensures forall o: nat :: Tagged(s, Next(s, op, now), AwardOf(s, op).value, o)
  {
    hide StepOrder;
    hide Taggable;
  }

  lemma WritesKeepTags(s: Db, now: Time)
    ensures forall id, op :: OnOrder(s, id, op, now).payoutTags == s.payoutTags
    ensures forall id, op :: OnPayout(s, id, op).payoutTags == s.payoutTags
  {
    hide StepOrder;
    hide StepPayout;
  }

  lemma OtherwiseTagsStay(s: Db, op: Op, now: Time)
    requires AwardOf(s, op).None?
    ensures Next(s, op, now).payoutTags == s.payoutTags
  {
    hide OnOrder;
    hide OnPayout;
    hide OrderOutcome;
    hide PayoutOutcomeOf;
    WritesKeepTags(s, now);
  }

  lemma SettlementLasts(order: Order, after: Order, payout: Payout, later: Payout)
    requires SettledIn(order, payout) && Earlier(order, after)
    requires later.payee == payout.payee && later.periodStart == payout.periodStart && later.periodEnd == payout.periodEnd
    ensures SettledIn(after, later)
  {
  }

  lemma AwardKeepsTags(s: Db, op: Op, now: Time)
    requires TagsOk(s) && AwardOf(s, op).Some?
    ensures TagsOk(Next(s, op, now)) && TagsSucceed(s, Next(s, op, now))
  {
    hide Next;
    hide Legal;
    hide AwardOf;
    AwardIsGuarded(s, op, now);
    AwardTags(s, op, now);
    var s', a := Next(s, op, now), AwardOf(s, op).value;
    forall o: nat | o in s'.payoutTags
      ensures o < |s'.orders| && s'.payoutTags[o] < |s'.payouts| && SettledIn(s'.orders[o], s'.payouts[s'.payoutTags[o]])
    {
      assert Tagged(s, s', a, o);
    }
    forall o: nat | o in s.payoutTags ensures Tagged(s, s', a, o) {
    }
  }

  lemma NextKeepsTags(s: Db, op: Op, now: Time)
    requires Inv(s) && Legal(s, op) && TagsOk(s)
    ensures TagsOk(Next(s, op, now)) && TagsSucceed(s, Next(s, op, now))
  {
    hide Next;
    hide Inv;
    hide Legal;
    hide AwardOf;
    hide Earlier;
    hide SettledIn;
    var s' := Next(s, op, now);
    if AwardOf(s, op).Some? {
      AwardKeepsTags(s, op, now);
    } else {
      OtherwisePeriodsStay(s, op, now);
      OtherwiseTagsStay(s, op, now);
      forall o | o in s.payoutTags
        ensures o < |s'.orders| && SettledIn(s'.orders[o], s'.payouts[s.payoutTags[o]])
      {
        NextMovesRowsForward(s, op, now, o);
        SettlementLasts(s.orders[o], s'.orders[o], s.payouts[s.payoutTags[o]], s'.payouts[s.payoutTags[o]]);
      }
    }
  }

  /** Over any run each tag names an existing payout of the order's own vendor or
      rider, whose period contains the order's delivery. */
  lemma {:induction false} TagsAlwaysMatch(states: seq<Db>, moments: seq<Moment>, i: nat)
    requires Run(states, moments) && i < |states|
    ensures TagsOk(states[i])
  {
    hide Next;
    hide Inv;
    hide Legal;
    if i > 0 {
      TagsAlwaysMatch(states, moments, i - 1);
      RunKeepsInv(states, moments, i - 1);
      NextKeepsTags(states[i - 1], moments[i - 1].op, moments[i - 1].now);
    }
  }

  /** Once tagged, always tagged, and only a rider's payout takes a tag over:
      an order first settled with its rider is never listed on its vendor's
      payout, whichever runs later. */
  lemma {:induction false} OnlyRiderPayoutsRetag(states: seq<Db>, moments: seq<Moment>, i: nat, j: nat)
    requires Run(states, moments) && i <= j < |states|
    ensures TagsSucceed(states[i], states[j])
    decreases j - i
  {
    hide TagsOk;
    hide Next;
    hide Inv;
    hide Legal;
    if i < j {
      OnlyRiderPayoutsRetag(states, moments, i, j - 1);
      TagsAlwaysMatch(states, moments, j - 1);
      RunKeepsInv(states, moments, j - 1);
      NextKeepsTags(states[j - 1], moments[j - 1].op, moments[j - 1].now);
      PayeesOfRowsStay(states, moments, j - 1);
      TagsSucceedTransitively(states[i], states[j - 1], states[j]);
    }
  }

  lemma TagsSucceedTransitively(a: Db, b: Db, c: Db)
    requires TagsSucceed(a, b) && TagsSucceed(b, c)
    requires forall p :: 0 <= p < |b.payouts| ==> p < |c.payouts| && c.payouts[p].payee == b.payouts[p].payee
    ensures TagsSucceed(a, c)
  {
  }

  lemma PayeesOfRowsStay(states: seq<Db>, moments: seq<Moment>, i: nat)
    requires Run(states, moments) && i < |moments|
    ensures |states[i].payouts| <= |states[i + 1].payouts|
    ensures forall p :: 0 <= p < |states[i].payouts| ==> states[i + 1].payouts[p].payee == states[i].payouts[p].payee
  {
    hide Next;
    hide AwardOf;
    var s, m := states[i], moments[i];
    if AwardOf(s, m.op).Some? {
      AwardIsGuarded(s, m.op, m.now);
    } else {
      OtherwisePeriodsStay(s, m.op, m.now);
    }
  }

  /** A tag names the only payout of that payee whose period contains the
      delivery. */
  lemma TagIsTheOnlyPeriod(states: seq<Db>, moments: seq<Moment>, i: nat, o: nat, q: nat)
    requires Run(states, moments) && i < |states| && o in states[i].payoutTags && q < |states[i].payouts|
    requires AllInTurn(states, moments, states[i].payouts[q].payee)
    requires EndsAfterCreation(states, moments, states[i].payouts[q].payee)
    ensures var s := states[i]; var p := s.payoutTags[o];
            && o < |s.orders| && p < |s.payouts|
            && (s.payouts[q].payee == s.payouts[p].payee && SettledIn(s.orders[o], s.payouts[q]) ==> q == p)
  {
    hide Next;
    hide Inv;
    hide Legal;
    hide AllInTurn;
    hide EndsAfterCreation;
    var s := states[i];
    TagsAlwaysMatch(states, moments, i);
    if s.payouts[q].payee == s.payouts[s.payoutTags[o]].payee && SettledIn(s.orders[o], s.payouts[q]) {
      DeliveryInOnePeriod(states, moments, i, s.payouts[q].payee, s.orders[o].deliveredAt.value, s.payoutTags[o], q);
    }
  }

  /** A payout tags exactly its period: the payee's orders delivered after its
      start and up to its end, of a vendor those not settled before. Every other
      order's tag stays. */
  lemma PayoutTagsItsPeriod(s: Db, op: Op, now: Time, o: nat)
    requires AwardOf(s, op).Some? && o < |s.orders|
    ensures var a := AwardOf(s, op).value; var t := Next(s, op, now); var order := s.orders[o];
            var settles := && order.status == Delivered && order.deliveredAt.Some?
                           && a.start < order.deliveredAt.value && order.deliveredAt.value <= a.end
                           && (a.payee.Vendor? ==> order.vendorId == a.payee.id && o !in s.payoutTags)
                           && (a.payee.Rider? ==> order.riderId == Some(a.payee.id));
            && (settles ==> o in t.payoutTags && t.payoutTags[o] == |s.payouts|)
            && (!settles ==> (o in t.payoutTags <==> o in s.payoutTags)
                             && (o in s.payoutTags ==> t.payoutTags[o] == s.payoutTags[o]))
  {
    hide Next;
    hide AwardOf;
    AwardTags(s, op, now);
    assert Tagged(s, Next(s, op, now), AwardOf(s, op).value, o);
  }
}
