/** Campay refund calls for one order, counted along a run. */
module RefundCalls {
  import opened Common
  import opened Ledger
  import opened Orders
  import opened OrderInvariants
  import opened OrderBooks
  import opened Payouts
  import opened Platform
  import opened PlatformInvariant
  import opened PlatformRuns
  import opened RowRuns
  import opened StrandedEscrow
  import opened UnpaidRefund

  /** The call follows the lock. */
  ghost predicate CallsAt(states: seq<Db>, moments: seq<Moment>, k: nat, id: nat)
    requires k < |moments| && k < |states|
  {
    var write := RowOp(states[k], moments[k].op, moments[k].now, id);
    write.Some? && write.value.OpRefundLock?
  }

  /** The lock is given back: the call failed, or Campay took it and the
      transaction that stores its reference did not go through. */
  ghost predicate RollsBackAt(states: seq<Db>, moments: seq<Moment>, k: nat, id: nat)
    requires k < |moments| && k < |states|
  {
    var write := RowOp(states[k], moments[k].op, moments[k].now, id);
    write.Some? && (write.value.OpRefundRejected?
                    || (write.value.OpRefundAccepted?
                        && OrderOutcome(states[k], id, write.value, moments[k].now).Ok?
                        && OrderOutcome(states[k], id, write.value, moments[k].now).value.posting.None?))
  }

  ghost function Calls(states: seq<Db>, moments: seq<Moment>, n: nat, id: nat): nat
    requires n <= |moments| && n <= |states|
  {
    if n == 0 then 0 else Calls(states, moments, n - 1, id) + Bit(CallsAt(states, moments, n - 1, id))
  }

  ghost function RolledBack(states: seq<Db>, moments: seq<Moment>, n: nat, id: nat): nat
    requires n <= |moments| && n <= |states|
  {
    if n == 0 then 0 else RolledBack(states, moments, n - 1, id) + Bit(RollsBackAt(states, moments, n - 1, id))
  }

  predicate CallOpen(s: Db, id: nat) { id < |s.orders| && s.orders[id].refundCallOpen }

  /** What one write does to the open call and to the initiations. */
  lemma OneWriteOfACall(id: nat, row: Order, op: OrderOp, taken: bool, now: Time)
    requires Coherent(row) && Possible(row, op) && StepOrder(id, row, op, taken, now).Ok?
    ensures var p := StepOrder(id, row, op, taken, now).value;
            && Bit(p.row.refundCallOpen)
               == Bit(row.refundCallOpen) + Bit(op.OpRefundLock?)
                  - Bit(op.OpRefundRejected? || (op.OpRefundAccepted? && p.posting.None?))
                  - Bit(p.posting.Some? && p.posting.value.eventId.RefundInitiatedFor?)
  {
    hide Refusal;
    hide SnapshotOf;
    hide AllPrepared;
    hide AnyPrepared;
    hide Earlier;
  }

  lemma CallsStep(states: seq<Db>, moments: seq<Moment>, k: nat, id: nat)
    requires Run(states, moments) && k < |moments|
    ensures Bit(CallOpen(states[k + 1], id)) + TallyOf(states[k + 1].ledger, id).initiations + Bit(RollsBackAt(states, moments, k, id))
         == Bit(CallOpen(states[k], id)) + TallyOf(states[k].ledger, id).initiations + Bit(CallsAt(states, moments, k, id))
  {
    hide Next;
    hide Legal;
    hide StepOrder;
    hide Coherent;
    hide Accounted;
    hide RowOp;
    var s, m := states[k], moments[k];
    if id < |s.orders| {
      NextIsOneWrite(s, m.op, m.now, id);
      var write := RowOp(s, m.op, m.now, id);
      if write.Some? {
        OrderIsOk(states, moments, k, id);
        RowOpIsPossible(s, m.op, m.now, id);
        OneWriteOfACall(id, s.orders[id], write.value, ReferenceClash(s, id, write.value), m.now);
      }
    } else {
      UnplacedHasNoCall(states, moments, k, id);
    }
  }

  lemma UnplacedHasNoCall(states: seq<Db>, moments: seq<Moment>, k: nat, id: nat)
    requires Run(states, moments) && k < |moments| && id >= |states[k].orders|
    ensures TallyOf(states[k].ledger, id).initiations == 0 && TallyOf(states[k + 1].ledger, id).initiations == 0
    ensures !CallOpen(states[k + 1], id)
    ensures !CallsAt(states, moments, k, id) && !RollsBackAt(states, moments, k, id)
  {
    hide Next;
    hide Legal;
    RunKeepsInv(states, moments, k);
    RunKeepsInv(states, moments, k + 1);
    assert Unheard(states[k], id);
    if id < |states[k + 1].orders| {
      PlacedRowIsNew(states[k], moments[k].op, moments[k].now, id);
      assert OrderOk(states[k + 1], id);
    } else {
      assert Unheard(states[k + 1], id);
    }
  }

  lemma PlacedRowIsNew(s: Db, op: Op, now: Time, id: nat)
    requires |s.orders| <= id < |Next(s, op, now).orders|
    ensures Next(s, op, now).orders[id].refundCampayRef.None? && !Next(s, op, now).orders[id].refundCallOpen
    ensures Next(s, op, now).log == s.log
  {
    hide StepOrder;
    hide StepPayout;
    hide VendorPayoutVerdict;
    hide RiderPayoutVerdict;
    hide CashoutVerdict;
  }

  /** Every refund call of an order is rolled back, initiated, or still out. So
      calls exceed the failures announced by Campay at most by one, and by the
      calls rolled back, of which nothing bounds the number. */
  lemma {:induction false} RefundCallsAreAccounted(states: seq<Db>, moments: seq<Moment>, n: nat, id: nat)
    requires Run(states, moments) && n < |states|
    ensures Calls(states, moments, n, id)
         == RolledBack(states, moments, n, id) + Total(states[n].ledger, Posted(RefundInitiatedFor(id))) + Bit(CallOpen(states[n], id))
    ensures Calls(states, moments, n, id)
         <= 1 + RolledBack(states, moments, n, id) + HearAll(Silence, id, states[n].log).failedSettlements
  {
    hide Next;
    hide Legal;
    hide CallsAt;
    hide RollsBackAt;
    RunKeepsInv(states, moments, n);
    if n > 0 {
      RefundCallsAreAccounted(states, moments, n - 1, id);
      CallsStep(states, moments, n - 1, id);
    }
    if id < |states[n].orders| {
      assert OrderOk(states[n], id);
    } else {
      assert Unheard(states[n], id);
    }
  }

  /** A rollback may follow a call that Campay took: when the reference it gave
      stands on another order, the transaction fails, the lock is released, and
      the next sweep calls again. */
  lemma TakenRefundIsCalledAgain(states: seq<Db>, moments: seq<Moment>, id: nat, other: nat, reference: Ref)
    returns (ext: seq<Db>, more: seq<Moment>)
    requires Run(states, moments) && id < |states[|moments|].orders| && other < |states[|moments|].orders| && other != id
    requires states[|moments|].orders[other].refundCampayRef == Some(reference)
    requires var row := states[|moments|].orders[id];
             row.paymentStatus.RefundPending? && row.refundInitiatedAt.None? && row.payerPhone.Some?
    ensures Run(ext, more) && states <= ext && moments <= more && |more| == |moments| + 3
    ensures var n := |moments|;
            && CallsAt(ext, more, n, id)
            && RollsBackAt(ext, more, n + 1, id) && more[n + 1].op.Write? && more[n + 1].op.write.OpRefundAccepted?
            && CallsAt(ext, more, n + 2, id)
  {
    hide Legal;
    hide Coherent;
    hide Accounted;
    hide OrderOutcome;
    hide RowOp;
    hide Next;
    var s := states[|moments|];
    OrderIsOk(states, moments, |moments|, id);
    LockIsFree(s, id);
    OwnReadIsLegal(s, id, OpRefundLock(s.orders[id]));
    WriteIsRowOp(s, id, OpRefundLock(s.orders[id]));
    ext, more := WriteExtends(states, moments, id, OpRefundLock(s.orders[id]));
    var t := ext[|more|];
    OrderIsOk(ext, more, |more|, id);
    ClashRollsBack(t, id, other, reference);
    OwnReadIsLegal(t, id, OpRefundAccepted(t.orders[id], reference));
    WriteIsRowOp(t, id, OpRefundAccepted(t.orders[id], reference));
    ext, more := WriteExtends(ext, more, id, OpRefundAccepted(t.orders[id], reference));
    var u := ext[|more|];
    OrderIsOk(ext, more, |more|, id);
    LockIsFree(u, id);
    OwnReadIsLegal(u, id, OpRefundLock(u.orders[id]));
    WriteIsRowOp(u, id, OpRefundLock(u.orders[id]));
    ext, more := WriteExtends(ext, more, id, OpRefundLock(u.orders[id]));
  }

  lemma WriteIsRowOp(s: Db, id: nat, op: OrderOp)
    requires OrderOutcome(s, id, op, s.clock).Ok?
    ensures RowOp(s, Write(id, op), s.clock, id) == Some(op)
  {
  }

  lemma LockIsFree(s: Db, id: nat)
    requires id < |s.orders|
    requires s.orders[id].paymentStatus.RefundPending? && s.orders[id].refundInitiatedAt.None? && s.orders[id].payerPhone.Some?
    ensures var row := s.orders[id]; var outcome := OrderOutcome(s, id, OpRefundLock(row), s.clock);
            && outcome.Ok? && outcome.value.row == row.(refundInitiatedAt := Some(s.clock), refundCallOpen := true)
  {
  }

  lemma ClashRollsBack(s: Db, id: nat, other: nat, reference: Ref)
    requires id < |s.orders| && other < |s.orders| && other != id && s.orders[id].refundCallOpen
    requires s.orders[other].refundCampayRef == Some(reference)
    ensures var row := s.orders[id]; var outcome := OrderOutcome(s, id, OpRefundAccepted(row, reference), s.clock);
            && outcome.Ok? && outcome.value.row == row.(refundInitiatedAt := None, refundCallOpen := false)
            && outcome.value.posting.None?
  {
  }
}
