/** The rules of one payout and of a balance, spelled out on columns. */
module PayoutRules {
  import opened Common
  import opened Ledger
  import opened Orders
  import opened Payouts

  /** A transfer is claimed from PENDING, concluded while its call is out, settled
      while in flight, retried from FAILED; an admin marks whatever is neither
      paid nor cancelled. */
  lemma MovesGoThroughIff(id: nat, row: Payout, reference: Ref, succeeded: bool, taken: bool)
    ensures StepPayout(id, row, OpTransferLock, taken).Ok? <==> row.status == PayoutPending
    ensures StepPayout(id, row, OpTransferAccepted(reference), taken).Ok? <==> row.callOpen
    ensures StepPayout(id, row, OpTransferRejected, taken).Ok? <==> row.callOpen
    ensures StepPayout(id, row, OpTransferCallback(succeeded), taken).Ok? <==> row.status == PayoutInFlight
    ensures StepPayout(id, row, OpRetry, taken).Ok? <==> row.status == PayoutFailed
    ensures StepPayout(id, row, OpManualPaid(reference), taken).Ok?
            <==> row.status != PayoutPaid && row.status != PayoutCancelled && !taken
  {
  }

  /** What a move leaves: a reference already held by another payout fails the
      transfer, whatever the call did; a retry forgets the reference. */
  lemma PayoutAfterMove(id: nat, row: Payout, op: PayoutOp, taken: bool)
    requires StepPayout(id, row, op, taken).Ok?
    ensures var p := StepPayout(id, row, op, taken).value;
            && p.row.status == (match op
                                case OpTransferLock => PayoutInFlight
                                case OpTransferAccepted(_) => if taken then PayoutFailed else row.status
                                case OpTransferRejected => PayoutFailed
                                case OpTransferCallback(succeeded) => if succeeded then PayoutPaid else PayoutFailed
                                case OpRetry => PayoutPending
                                case OpManualPaid(_) => PayoutPaid)
            && p.row.campayRef == (match op
                                   case OpTransferAccepted(reference) => if taken then row.campayRef else Some(reference)
                                   case OpManualPaid(reference) => Some(reference)
                                   case OpRetry => None
                                   case _ => row.campayRef)
            && p.row.callOpen == (op.OpTransferLock? || (row.callOpen && !op.OpTransferAccepted? && !op.OpTransferRejected?))
            && p.log == (match op
                         case OpTransferLock => [TransferCalled(id)]
                         case OpRetry => [PayoutRetried(id)]
                         case _ => [])
  {
  }

  // ── What a balance counts ────────────────────────────────────────────

  /** One more payout moves the cutoff exactly when it is the payee's, paid or in
      flight, and ends later than those before it. */
  lemma OneMorePayout(payouts: seq<Payout>, row: Payout, payee: Payee)
    ensures var was := Cutoff(payouts, payee);
            Cutoff(payouts + [row], payee)
            == if row.payee == payee && (row.status == PayoutPaid || row.status == PayoutInFlight)
                  && (was == None || row.periodEnd > was.value)
               then Some(row.periodEnd) else was
  {
    assert (payouts + [row])[..|payouts|] == payouts;
  }

  /** One more entry changes what a payee is owed exactly when it is on the
      payee's own payable, stamped after the cutoff: a credit is owed, a debit is
      not owed any more. */
  lemma OneMoreEntry(ledger: seq<Row>, row: Row, payouts: seq<Payout>, payee: Payee)
    ensures var counts := && (Cutoff(payouts, payee).None? || row.createdAt > Cutoff(payouts, payee).value)
                          && (match payee
                              case Vendor(v) => row.line.account == VendorPayable && row.line.vendorId == Some(v)
                              case Rider(r) => row.line.account == RiderPayable && row.line.riderId == Some(r));
            Balance(ledger + [row], payouts, payee)
            == Balance(ledger, payouts, payee) - (if counts then row.line.amountXAF else 0)
  {
    assert (ledger + [row])[..|ledger|] == ledger;
  }

  lemma NothingIsOwedAtFirst(payee: Payee)
    ensures Balance([], [], payee) == 0 && Cutoff([], payee) == None
  {
  }

  /** What a refused move is told. */
  lemma MoveIsTold(id: nat, row: Payout, reference: Ref, succeeded: bool, taken: bool)
    ensures forall op :: op in {OpTransferLock, OpTransferAccepted(reference), OpTransferRejected, OpTransferCallback(succeeded)} ==>
              StepPayout(id, row, op, taken).Ok? || StepPayout(id, row, op, taken) == Err(NothingToMove)
    ensures StepPayout(id, row, OpRetry, taken).Ok? || StepPayout(id, row, OpRetry, taken) == Err(NotInFailed)
    ensures var outcome := StepPayout(id, row, OpManualPaid(reference), taken);
            var over := row.status == PayoutPaid || row.status == PayoutCancelled;
            && (outcome == Err(PayoutAlreadyTerminal) <==> over)
            && (outcome == Err(RefTaken) <==> !over && taken)
  {
  }

  /** A payout's debit and credit, filed by whose it is. */
  lemma PayoutIsFiled(payee: Payee, payout: nat, netXAF: int)
    ensures var txn := PayoutTxn(payee, payout, netXAF);
            && txn.eventType == (match payee case Vendor(_) => VendorPayoutEvent case Rider(_) => RiderPayoutEvent)
            && |txn.lines| == 2 && txn.lines[0].amountXAF == netXAF && txn.lines[1].amountXAF == -netXAF
            && txn.lines[0].account == (match payee case Vendor(_) => VendorPayable case Rider(_) => RiderPayable)
            && txn.lines[1].account == CampayFloat
            && forall i :: 0 <= i < 2 ==> txn.lines[i].payoutId == Some(payout)
                                          && txn.lines[i].vendorId == (if payee.Vendor? then Some(payee.id) else None)
                                          && txn.lines[i].riderId == (if payee.Rider? then Some(payee.id) else None)
  {
  }
}
