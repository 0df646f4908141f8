/** Payout rows, their transfers, and the balance they are cut from. The vendor
    and rider payout tables are one sequence here, told apart by the payee. */
module Payouts {
  import opened Common
  import opened Ledger
  import opened Orders

  const MIN_VENDOR_PAYOUT_XAF := 500
  const MIN_RIDER_PAYOUT_XAF := 1000

  datatype PayoutStatus = PayoutPending | PayoutInFlight | PayoutPaid | PayoutFailed | PayoutCancelled

  datatype Payout = Payout(
    payee: Payee,
    periodStart: Time,
    periodEnd: Time,
    netXAF: int,
    status: PayoutStatus,
    campayRef: Option<Ref>,
    callOpen: bool)                      // a tryTransfer call holds the row

  datatype PayoutError =
    | PayoutNotFound | NotInFailed | PayoutAlreadyTerminal | RefTaken | NothingToMove
    | NegativeOrZeroBalance(balanceXAF: int) | BelowMinimum(balanceXAF: int) | OpenDisputes | AlreadyScheduled(payout: nat)
    | KycIncomplete | PayeeNotFound
    | CashoutOnlyForInformal | VendorNotActive | CashoutAlreadyPending | CashoutNoBalance
    | CashoutNotFound | CashoutNotPending | CashoutBelowMinimum

  datatype PayoutPatch = PayoutPatch(row: Payout, log: seq<LogEvent>)

  type PayoutOutcome = Result<PayoutPatch, PayoutError>

  // ── Transfers ────────────────────────────────────────────────────────

  /** tryTransfer's lock, and the Campay call it leads to. */
  function TransferLock(id: nat, row: Payout): PayoutOutcome {
    if !row.status.PayoutPending? then Err(NothingToMove)
    else Ok(PayoutPatch(row.(status := PayoutInFlight, callOpen := true), [TransferCalled(id)]))
  }

  /** Campay took the transfer; storing a reference another row holds throws
      into the same catch as a refused call. */
  function TransferAccepted(row: Payout, reference: Ref, taken: bool): PayoutOutcome {
    if !row.callOpen then Err(NothingToMove)
    else if taken then TransferRejected(row)
    else Ok(PayoutPatch(row.(campayRef := Some(reference), callOpen := false), []))
  }

  /** onFail: written whatever the status has become meanwhile. */
  function TransferRejected(row: Payout): PayoutOutcome {
    if !row.callOpen then Err(NothingToMove)
    else Ok(PayoutPatch(row.(status := PayoutFailed, callOpen := false), []))
  }

  /** handleTransferWebhook on the payout its reference resolved to. */
  function TransferCallback(row: Payout, succeeded: bool): PayoutOutcome {
    if !row.status.PayoutInFlight? then Err(NothingToMove)
    else Ok(PayoutPatch(row.(status := if succeeded then PayoutPaid else PayoutFailed), []))
  }

  function RetryPayout(id: nat, row: Payout): PayoutOutcome {
    if !row.status.PayoutFailed? then Err(NotInFailed)
    else Ok(PayoutPatch(row.(status := PayoutPending, campayRef := None), [PayoutRetried(id)]))
  }

  function ManualMarkPaid(row: Payout, reference: Ref, taken: bool): PayoutOutcome {
    if !(row.status.PayoutPending? || row.status.PayoutInFlight? || row.status.PayoutFailed?) then Err(PayoutAlreadyTerminal)
    else if taken then Err(RefTaken)
    else Ok(PayoutPatch(row.(status := PayoutPaid, campayRef := Some(reference)), []))
  }

  datatype PayoutOp =
    | OpTransferLock
    | OpTransferAccepted(reference: Ref)
    | OpTransferRejected
    | OpTransferCallback(succeeded: bool)
    | OpRetry
    | OpManualPaid(reference: Ref)

  function StepPayout(id: nat, row: Payout, op: PayoutOp, taken: bool): PayoutOutcome {
    match op
    case OpTransferLock => TransferLock(id, row)
    case OpTransferAccepted(reference) => TransferAccepted(row, reference, taken)
    case OpTransferRejected => TransferRejected(row)
    case OpTransferCallback(succeeded) => TransferCallback(row, succeeded)
    case OpRetry => RetryPayout(id, row)
    case OpManualPaid(reference) => ManualMarkPaid(row, reference, taken)
  }

  // ── The balance a payout is cut from ─────────────────────────────────

  predicate Settles(row: Payout, payee: Payee) {
    row.payee == payee && (row.status.PayoutPaid? || row.status.PayoutInFlight?)
  }

  /** The latest periodEnd among the payee's PAID and IN_FLIGHT payouts. */
  function Cutoff(payouts: seq<Payout>, payee: Payee): Option<Time> {
    if payouts == [] then None
    else
      var last := payouts[|payouts| - 1];
      var earlier := Cutoff(payouts[..|payouts| - 1], payee);
      if !Settles(last, payee) then earlier
      else if earlier.None? || earlier.value < last.periodEnd then Some(last.periodEnd)
      else earlier
  }

  predicate After(cutoff: Option<Time>, at: Time) { cutoff.None? || cutoff.value < at }

  /** SUM(amountXAF) over the payee's payable entries created after the cutoff. */
  function Window(ledger: seq<Row>, payee: Payee, cutoff: Option<Time>): int {
    if ledger == [] then 0
    else
      var row := ledger[|ledger| - 1];
      Window(ledger[..|ledger| - 1], payee, cutoff)
      + (if After(cutoff, row.createdAt) then Weight(Payable(payee), row) else 0)
  }

  /** balanceXAF of getVendorBalance and getRiderBalance: positive is owed. */
  function Balance(ledger: seq<Row>, payouts: seq<Payout>, payee: Payee): int {
    0 - Window(ledger, payee, Cutoff(payouts, payee))
  }

  function PayoutLine(account: Account, amountXAF: int, payee: Payee, payout: nat): Line {
    Line(account, amountXAF, None,
         if payee.Vendor? then Some(payee.id) else None, if payee.Rider? then Some(payee.id) else None,
         Some(payout), None, Some("payout"))
  }

  function PayoutTxn(payee: Payee, payout: nat, netXAF: int): Txn {
    Txn(PayoutOf(payout), if payee.Vendor? then VendorPayoutEvent else RiderPayoutEvent,
        [PayoutLine(PayableAccount(payee), netXAF, payee, payout), PayoutLine(CampayFloat, -netXAF, payee, payout)])
  }

  function PayoutTerm(row: Payout, key: Key): int {
    match key
    case Payable(p) => if p == row.payee then row.netXAF else 0
    case Float => 0 - row.netXAF
    case _ => 0
  }

  lemma PayoutReconciles(payee: Payee, payout: nat, netXAF: int, now: Time, key: Key)
    requires netXAF != 0
    ensures Refusal(PayoutTxn(payee, payout, netXAF)).None?
    ensures !key.Posted? ==>
      Total(Rows(PayoutTxn(payee, payout, netXAF), now), key)
      == (match key case Payable(p) => (if p == payee then netXAF else 0) case Float => 0 - netXAF case _ => 0)
    ensures key.Posted? ==>
      Total(Rows(PayoutTxn(payee, payout, netXAF), now), key) == Bit(key.event == PayoutOf(payout))
  {
    var txn := PayoutTxn(payee, payout, netXAF);
    assert txn.lines[..1][..0] == [];
    assert FirstFault(txn.eventType, txn.lines[..1]).None?;
    assert SumOfLines(txn.lines[..1]) == netXAF;
    TotalOfTwo(Rows(txn, now), key);
    if key.Group? {
      BookingIsBalanced(txn, now, key.event);
    }
  }

  // ── Calls never exceed one more than the retries ─────────────────────

  /** Campay transfer calls and admin retries announced for a payout. */
  function Calls(log: seq<LogEvent>, payout: nat): nat {
    if log == [] then 0
    else Calls(log[..|log| - 1], payout) + (if log[|log| - 1] == TransferCalled(payout) then 1 else 0)
  }

  function Retries(log: seq<LogEvent>, payout: nat): nat {
    if log == [] then 0
    else Retries(log[..|log| - 1], payout) + (if log[|log| - 1] == PayoutRetried(payout) then 1 else 0)
  }

  lemma {:induction false} CallsOfAppend(a: seq<LogEvent>, b: seq<LogEvent>, payout: nat)
    ensures Calls(a + b, payout) == Calls(a, payout) + Calls(b, payout)
    ensures Retries(a + b, payout) == Retries(a, payout) + Retries(b, payout)
  {
    if b == [] {
      assert a + b == a;
    } else {
      assert (a + b)[..|a + b| - 1] == a + b[..|b| - 1];
      CallsOfAppend(a, b[..|b| - 1], payout);
    }
  }

  /** A PENDING row still has a call to spend. */
  ghost predicate CallsWithinRetries(row: Payout, calls: nat, retries: nat) {
    calls + Bit(row.status.PayoutPending?) <= 1 + retries
  }

  /** Every payout write spends at most the call it was given, and changes
      nothing but status, reference and the open-call mark. */
  lemma StepKeepsPayout(id: nat, row: Payout, op: PayoutOp, taken: bool, calls: nat, retries: nat)
    requires CallsWithinRetries(row, calls, retries) && StepPayout(id, row, op, taken).Ok?
    ensures var p := StepPayout(id, row, op, taken).value;
            && CallsWithinRetries(p.row, calls + Calls(p.log, id), retries + Retries(p.log, id))
            && p.row.payee == row.payee && p.row.netXAF == row.netXAF
            && p.row.periodStart == row.periodStart && p.row.periodEnd == row.periodEnd
  {
    var p := StepPayout(id, row, op, taken).value;
    if |p.log| == 1 {
      assert p.log[..0] == [];
    }
  }
}
