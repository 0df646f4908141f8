/** Which paid orders can still give their escrow back, and which never will. */
module StrandedEscrow {
  import opened Common
  import opened Ledger
  import opened Pricing
  import opened Orders
  import opened OrderInvariants
  import opened OrderBooks
  import opened OrderRaces
  import opened Payouts
  import opened Platform
  import opened PlatformInvariant
  import opened PlatformRuns
  import opened RowRuns

  /** A refund is under way: the call is out, or the row waits for the sweep with
      a phone to send it to. */
  predicate CanRefund(row: Order) {
    row.refundCallOpen || (row.paymentStatus.RefundPending? && row.payerPhone.Some?)
  }

  /** Paid, closed without delivery, and nothing of it sent back yet. */
  predicate Held(row: Order) {
    row.snapshot.Some? && Rank(row.status) == 5 && !row.status.Delivered? && row.refundCampayRef.None?
  }

  predicate Stuck(row: Order) { Held(row) && !CanRefund(row) }

  // ── Who closes an order, and how ─────────────────────────────────────

  /** Of all the writes that close a paid order undelivered, exactly the vendor's
      pre-order cancellation and a fraud resolution that asks for a refund leave
      it refundable, and only with a payer's phone on the row. */
  lemma ClosedRefundableIff(id: nat, row: Order, op: OrderOp, taken: bool, now: Time)
    requires Coherent(row) && Possible(row, op) && StepOrder(id, row, op, taken, now).Ok?
    requires row.snapshot.Some? && Rank(row.status) < 5 && Held(StepOrder(id, row, op, taken, now).value.row)
    ensures CanRefund(StepOrder(id, row, op, taken, now).value.row)
            <==> row.payerPhone.Some?
                 && (op.OpVendorCancel? || (op.OpResolveFraud? && op.refund && op.read.paymentStatus.Paid?))
  {
    hide Refusal;
  }

  /** The consumer cancels a confirmed, paid order: it ends CANCELLED and PAID,
      and its money has no way back. */
  lemma ConsumerCancelStrands(id: nat, row: Order)
    requires Coherent(row) && row.status.Confirmed? && row.scheduledFor.None?
    ensures var after := CancelOrder(id, row, row, row.userId);
            && after.Ok? && after.value.posting.None?
            && after.value.row.status.Cancelled? && after.value.row.paymentStatus.Paid? && Stuck(after.value.row)
  {
  }

  // ── Stuck for good ───────────────────────────────────────────────────

  lemma StuckRowStaysStuck(id: nat, row: Order, op: OrderOp, taken: bool, now: Time)
    requires Coherent(row) && Possible(row, op) && Stuck(row) && StepOrder(id, row, op, taken, now).Ok?
    ensures StepOrder(id, row, op, taken, now).value.posting.None?
    ensures Stuck(StepOrder(id, row, op, taken, now).value.row)
  {
    hide Refusal;
  }

  lemma NextLeavesStuck(s: Db, op: Op, now: Time, id: nat)
    requires Inv(s) && Legal(s, op) && id < |s.orders| && Stuck(s.orders[id])
    ensures var t := Next(s, op, now);
            id < |t.orders| && Stuck(t.orders[id]) && TallyOf(t.ledger, id) == TallyOf(s.ledger, id)
  {
    hide StepOrder;
    hide Coherent;
    hide Accounted;
    hide Stuck;
    hide TallyOf;
    hide Legal;
    hide Next;
    hide RowOp;
    NextIsOneWrite(s, op, now, id);
    var write := RowOp(s, op, now, id);
    if write.Some? {
      assert OrderOk(s, id);
      RowOpIsPossible(s, op, now, id);
      StuckRowStaysStuck(id, s.orders[id], write.value, ReferenceClash(s, id, write.value), now);
    }
  }

  lemma {:induction false} StuckAlongRuns(states: seq<Db>, moments: seq<Moment>, i: nat, j: nat, id: nat)
    requires Run(states, moments) && i <= j < |states| && id < |states[i].orders| && Stuck(states[i].orders[id])
    ensures id < |states[j].orders| && Stuck(states[j].orders[id])
    ensures TallyOf(states[j].ledger, id) == TallyOf(states[i].ledger, id)
    decreases j - i
  {
    hide Next;
    hide Inv;
    hide Legal;
    hide Stuck;
    hide TallyOf;
    if i < j {
      StuckAlongRuns(states, moments, i, j - 1, id);
      RunKeepsInv(states, moments, j - 1);
      NextLeavesStuck(states[j - 1], moments[j - 1].op, moments[j - 1].now, id);
    }
  }

  /** Nothing sent back yet means nothing initiated, unless a settlement failed. */
  ghost predicate NeverInitiated(s: Db, id: nat) {
    Total(s.ledger, Posted(RefundInitiatedFor(id))) == 0
  }

  /** A paid order that closed undelivered with no refund under way keeps its
      whole escrow in every later state: refused, expired, cancelled by the
      consumer, closed as fraud without refund, or with no phone to refund to. */
  lemma StuckEscrowIsStranded(states: seq<Db>, moments: seq<Moment>, i: nat, j: nat, id: nat)
    requires Run(states, moments) && i <= j < |states| && id < |states[i].orders|
    requires Stuck(states[i].orders[id]) && NeverInitiated(states[i], id)
    ensures Total(states[j].ledger, Escrow(id)) == 0 - states[i].orders[id].totalXAF < 0
    ensures id < |states[j].orders| && Stuck(states[j].orders[id]) && NeverInitiated(states[j], id)
  {
    hide Coherent;
    hide Accounted;
    hide Run;
    StuckAlongRuns(states, moments, i, j, id);
    TotalsAreFixed(states, moments, i, j, id);
    OrderIsOk(states, moments, j, id);
    HeldBooks(states[j].orders[id], TallyOf(states[j].ledger, id), HearAll(Silence, id, states[j].log));
    EscrowInClosedForm(states, moments, j, id);
  }

  lemma HeldBooks(row: Order, book: BookTally, log: LogTally)
    requires Coherent(row) && Accounted(row, book, log) && Held(row)
    ensures book.payments == 1 && book.deliveries == 0 && row.totalXAF > 0
    ensures book.settlements == 0 && (row.refundInitiatedAt.Some? ==> row.refundCallOpen)
  {
  }

  // ── Not stuck: the way out ───────────────────────────────────────────

  /** A reference no order holds. */
  lemma {:induction false} UnusedReference(orders: seq<Order>) returns (reference: Ref)
    ensures forall i :: 0 <= i < |orders| && orders[i].refundCampayRef.Some? ==> orders[i].refundCampayRef.value < reference
  {
    if orders == [] {
      reference := 0;
    } else {
      reference := UnusedReference(orders[..|orders| - 1]);
      var last := orders[|orders| - 1].refundCampayRef;
      if last.Some? && last.value >= reference {
        reference := last.value + 1;
      }
    }
  }

  lemma LockGoesThrough(id: nat, row: Order, taken: bool, now: Time)
    requires Coherent(row) && Held(row) && CanRefund(row) && !row.refundCallOpen
    ensures StepOrder(id, row, OpRefundLock(row), taken, now).Ok?
    ensures var after := StepOrder(id, row, OpRefundLock(row), taken, now).value.row;
            Held(after) && after.refundCallOpen && after.paymentStatus == row.paymentStatus
  {
  }

  lemma ReleaseGoesThrough(id: nat, row: Order, reference: Ref, now: Time)
    requires Coherent(row) && Held(row) && row.refundCallOpen
    ensures StepOrder(id, row, OpRefundAccepted(row, reference), false, now).Ok?
    ensures var p := StepOrder(id, row, OpRefundAccepted(row, reference), false, now).value;
            p.posting == Some(RefundInitiatedTxn(id, row.totalXAF)) && p.row.status == row.status && p.row.snapshot == row.snapshot
  {
    var txn := RefundInitiatedTxn(id, row.totalXAF);
    AcceptedIffBalanced(txn);
    assert txn.lines[..1][..0] == [];
    assert SumOfLines(txn.lines[..1]) == row.totalXAF;
  }

  /** The lock, if it is not held yet. */
  lemma Locked(states: seq<Db>, moments: seq<Moment>, id: nat) returns (ext: seq<Db>, more: seq<Moment>)
    requires Run(states, moments) && id < |states[|moments|].orders|
    requires Held(states[|moments|].orders[id]) && CanRefund(states[|moments|].orders[id])
    ensures Run(ext, more) && states <= ext && moments <= more
    ensures id < |ext[|more|].orders| && Held(ext[|more|].orders[id]) && ext[|more|].orders[id].refundCallOpen
    ensures ext[|more|].ledger == states[|moments|].ledger
    ensures ext[|more|].orders[id].totalXAF == states[|moments|].orders[id].totalXAF
    ensures ext[|more|].orders[id].paymentStatus == states[|moments|].orders[id].paymentStatus
  {
    hide Legal;
    hide Coherent;
    hide Accounted;
    hide Held;
    hide CanRefund;
    var s := states[|moments|];
    var row := s.orders[id];
    if row.refundCallOpen {
      ext, more := states, moments;
    } else {
      OrderIsOk(states, moments, |moments|, id);
      var op := OpRefundLock(row);
      LockGoesThrough(id, row, ReferenceClash(s, id, op), s.clock);
      OwnReadIsLegal(s, id, op);
      RunExtends(states, moments, Moment(Write(id, op), s.clock));
      ext, more := states + [Next(s, Write(id, op), s.clock)], moments + [Moment(Write(id, op), s.clock)];
      LockBooksNothing(s, id, row);
      TotalsAreFixed(ext, more, |moments|, |more|, id);
    }
  }

  lemma OwnReadIsLegal(s: Db, id: nat, op: OrderOp)
    requires id < |s.orders| && Coherent(s.orders[id]) && ReadOf(op) == Some(s.orders[id])
    requires op.OpRefundLock? || op.OpRefundAccepted?
    ensures Legal(s, Write(id, op))
  {
    EarlierIsReflexive(s.orders[id]);
  }

  lemma LockBooksNothing(s: Db, id: nat, row: Order)
    requires id < |s.orders| && StepOrder(id, s.orders[id], OpRefundLock(row), false, s.clock).Ok?
    ensures var t := Next(s, Write(id, OpRefundLock(row)), s.clock);
            && t.ledger == s.ledger && |t.orders| == |s.orders|
            && t.orders[id] == StepOrder(id, s.orders[id], OpRefundLock(row), false, s.clock).value.row
  {
  }

  lemma ReleaseBooks(s: Db, id: nat, reference: Ref)
    requires id < |s.orders| && Coherent(s.orders[id]) && Held(s.orders[id]) && s.orders[id].refundCallOpen
    requires forall i :: 0 <= i < |s.orders| && s.orders[i].refundCampayRef.Some? ==> s.orders[i].refundCampayRef.value < reference
    ensures var row := s.orders[id]; var t := Next(s, Write(id, OpRefundAccepted(row, reference)), s.clock);
            && |t.orders| == |s.orders| && t.orders[id].snapshot == row.snapshot && t.orders[id].status == row.status
            && TallyOf(t.ledger, id) == TallyOf(s.ledger, id).(initiations := TallyOf(s.ledger, id).initiations + 1)
  {
    hide Coherent;
    hide Held;
    hide TallyOf;
    var op := OpRefundAccepted(s.orders[id], reference);
    assert !ReferenceClash(s, id, op);
    ReleaseGoesThrough(id, s.orders[id], reference, s.clock);
    TallyAfterWrite(s, id, op, s.clock, id);
  }

  /** Two transitions at most give a refundable order's escrow back. */
  lemma RefundableEscrowIsReleased(states: seq<Db>, moments: seq<Moment>, id: nat) returns (ext: seq<Db>, more: seq<Moment>)
    requires Run(states, moments) && id < |states[|moments|].orders|
    requires Held(states[|moments|].orders[id]) && CanRefund(states[|moments|].orders[id])
    requires NeverInitiated(states[|moments|], id)
    ensures Run(ext, more) && states <= ext && moments <= more
    ensures Total(ext[|more|].ledger, Escrow(id)) == 0
  {
    hide Legal;
    hide Next;
    hide Coherent;
    hide Accounted;
    hide Held;
    hide CanRefund;
    var ss, ms := Locked(states, moments, id);
    var s := ss[|ms|];
    var reference := UnusedReference(s.orders);
    var op := OpRefundAccepted(s.orders[id], reference);
    OrderIsOk(ss, ms, |ms|, id);
    HeldBooks(s.orders[id], TallyOf(s.ledger, id), HearAll(Silence, id, s.log));
    OwnReadIsLegal(s, id, op);
    RunExtends(ss, ms, Moment(Write(id, op), s.clock));
    ReleaseBooks(s, id, reference);
    ext, more := ss + [Next(s, Write(id, op), s.clock)], ms + [Moment(Write(id, op), s.clock)];
    EscrowInClosedForm(ext, more, |more|, id);
    assert TallyOf(ext[|more|].ledger, id).initiations == 1;
  }

  /** Some continuation of the run gives the order's escrow back. */
  ghost predicate Releasable(states: seq<Db>, moments: seq<Moment>, id: nat) {
    exists ext: seq<Db>, more: seq<Moment> ::
      Run(ext, more) && states <= ext && moments <= more && Total(ext[|more|].ledger, Escrow(id)) == 0
  }

  lemma {:induction false} InitiationsNeverFall(states: seq<Db>, moments: seq<Moment>, i: nat, j: nat, id: nat)
    requires Run(states, moments) && i <= j < |states| && id < |states[i].orders|
    ensures id < |states[j].orders| && TallyOf(states[i].ledger, id).initiations <= TallyOf(states[j].ledger, id).initiations
    decreases j - i
  {
    hide Next;
    hide Legal;
    hide RowOp;
    hide OrderOutcome;
    hide TallyOf;
    if i < j {
      InitiationsNeverFall(states, moments, i, j - 1, id);
      NextIsOneWrite(states[j - 1], moments[j - 1].op, moments[j - 1].now, id);
    }
  }

  /** Once initiated, a refund's escrow only leaves zero upwards. */
  lemma EscrowOnlyOverdraws(states: seq<Db>, moments: seq<Moment>, i: nat, j: nat, id: nat)
    requires Run(states, moments) && i <= j < |states| && id < |states[i].orders| && Held(states[i].orders[id])
    ensures id < |states[j].orders| && states[j].orders[id].totalXAF == states[i].orders[id].totalXAF > 0
    ensures Total(states[j].ledger, Escrow(id)) == states[i].orders[id].totalXAF * (TallyOf(states[j].ledger, id).initiations - 1)
    ensures TallyOf(states[i].ledger, id).initiations <= TallyOf(states[j].ledger, id).initiations
  {
    hide Run;
    hide Coherent;
    PaidClosureIsFinal(states, moments, i, j, id);
    TotalsAreFixed(states, moments, i, j, id);
    OrderIsOk(states, moments, i, id);
    OrderIsOk(states, moments, j, id);
    HeldBooks(states[i].orders[id], TallyOf(states[i].ledger, id), HearAll(Silence, id, states[i].log));
    InitiationsNeverFall(states, moments, i, j, id);
    EscrowInClosedForm(states, moments, j, id);
    OneInitiationLess(states[i].orders[id].totalXAF, TallyOf(states[j].ledger, id).initiations);
  }

  lemma OneInitiationLess(total: int, initiations: int)
    ensures total * initiations - total * 1 + total * 0 == total * (initiations - 1)
  {
  }

  lemma ReleasedEscrow(states: seq<Db>, moments: seq<Moment>, i: nat, j: nat, id: nat)
    requires Run(states, moments) && i <= j < |states| && id < |states[i].orders| && Held(states[i].orders[id])
    requires Total(states[j].ledger, Escrow(id)) == 0
    ensures var initiations := TallyOf(states[i].ledger, id).initiations;
            initiations == 1 || (initiations == 0 && CanRefund(states[i].orders[id]))
  {
    hide Run;
    hide Held;
    hide CanRefund;
    hide Coherent;
    OrderIsOk(states, moments, i, id);
    EscrowOnlyOverdraws(states, moments, i, j, id);
    ProductIsZeroIff(states[i].orders[id].totalXAF, TallyOf(states[j].ledger, id).initiations - 1);
    if TallyOf(states[i].ledger, id).initiations == 0 && !CanRefund(states[i].orders[id]) {
      StuckEscrowIsStranded(states, moments, i, j, id);
      assert false;
    }
  }

  /** The escrow of a paid order that closed undelivered, nothing of it out, can
      still come to zero exactly when it is there already (one initiation, whose
      settlement failed), or nothing was initiated and a refund call is out for
      it or it waits as REFUND_PENDING with a payer's phone. After two failed
      settlements it is overdrawn for good. */
  lemma EscrowIsReleasableIff(states: seq<Db>, moments: seq<Moment>, id: nat)
    requires Run(states, moments) && id < |states[|moments|].orders| && Held(states[|moments|].orders[id])
    ensures var initiations := Total(states[|moments|].ledger, Posted(RefundInitiatedFor(id)));
            Releasable(states, moments, id)
            <==> initiations == 1 || (initiations == 0 && CanRefund(states[|moments|].orders[id]))
  {
    hide Next;
    hide Legal;
    hide Held;
    hide CanRefund;
    var n := |moments|;
    var initiations := TallyOf(states[n].ledger, id).initiations;
    if initiations == 1 {
      EscrowOnlyOverdraws(states, moments, n, n, id);
      assert states <= states && moments <= moments;
    } else if initiations == 0 && CanRefund(states[n].orders[id]) {
      var ext, more := RefundableEscrowIsReleased(states, moments, id);
    } else if Releasable(states, moments, id) {
      var ext: seq<Db>, more: seq<Moment> :|
        Run(ext, more) && states <= ext && moments <= more && Total(ext[|more|].ledger, Escrow(id)) == 0;
      assert ext[n] == states[n];
      ReleasedEscrow(ext, more, n, |more|, id);
    }
  }
}
