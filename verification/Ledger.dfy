/** The append-only double-entry ledger. Positive amounts are debits. */
module Ledger {
  import opened Common

  datatype Account =
    | CustomerEscrow
    | VendorPayable
    | RiderPayable
    | PlatformRevenue
    | PlatformReserve
    | CampayFloat
    | RefundPayable

  datatype EventType =
    | PaymentReceived
    | OrderDelivered
    | RefundIssued
    | VendorPayoutEvent
    | RiderPayoutEvent
    | PenaltyApplied
    | Adjustment

  /** The eventId strings the services build, by prefix and row; NoEventId is
      the empty string. A penalty's event id is the penalty row, one per order. */
  datatype EventId =
    | NoEventId
    | PaymentOf(order: nat)
    | DeliveryOf(order: nat)
    | RefundInitiatedFor(order: nat)
    | RefundSettledFor(order: nat)
    | PenaltyOn(order: nat)
    | CompensationFor(order: nat)
    | PayoutOf(payout: nat)

  /** One leg of a transaction, as the caller supplies it. */
  datatype Line = Line(
    account: Account,
    amountXAF: int,
    orderId: Option<nat>,
    vendorId: Option<nat>,
    riderId: Option<nat>,
    payoutId: Option<nat>,
    refundId: Option<nat>,
    description: Option<string>)

  datatype Txn = Txn(eventId: EventId, eventType: EventType, lines: seq<Line>)

  /** A row of ledger_entries. */
  datatype Row = Row(eventId: EventId, eventType: EventType, line: Line, createdAt: Time)

  datatype LedgerError =
    | EventIdRequired
    | TooFewEntries
    | ZeroAmount
    | EntryOrphan
    | AdjustmentMissingDescription
    | Unbalanced(sum: int)

  function SumOfLines(lines: seq<Line>): int {
    if lines == [] then 0
    else SumOfLines(lines[..|lines| - 1]) + lines[|lines| - 1].amountXAF
  }

  predicate Attached(line: Line) {
    line.orderId.Some? || line.vendorId.Some? || line.riderId.Some? || line.payoutId.Some? || line.refundId.Some?
  }

  /** What is wrong with a single line, in the order the validator looks. */
  function LineFault(eventType: EventType, line: Line): Option<LedgerError> {
    if line.amountXAF == 0 then Some(ZeroAmount)
    else if !Attached(line) then Some(EntryOrphan)
    else if eventType == Adjustment && (line.description.None? || line.description.value == "") then
      Some(AdjustmentMissingDescription)
    else None
  }

  /** The fault of the first faulty line. */
  function FirstFault(eventType: EventType, lines: seq<Line>): Option<LedgerError> {
    if lines == [] then None
    else
      var earlier := FirstFault(eventType, lines[..|lines| - 1]);
      if earlier.Some? then earlier else LineFault(eventType, lines[|lines| - 1])
  }

  /** Why the ledger refuses a transaction, or None when it books it. */
  function Refusal(txn: Txn): Option<LedgerError> {
    if txn.eventId.NoEventId? then Some(EventIdRequired)
    else if |txn.lines| < 2 then Some(TooFewEntries)
    else
      var fault := FirstFault(txn.eventType, txn.lines);
      if fault.Some? then fault
      else if SumOfLines(txn.lines) != 0 then Some(Unbalanced(SumOfLines(txn.lines)))
      else None
  }

  /** The ledger accepts a transaction exactly when it is a well-formed,
      balanced double entry. */
  lemma {:induction false} AcceptedIffBalanced(txn: Txn)
    ensures Refusal(txn).None?
            <==> && !txn.eventId.NoEventId?
                 && |txn.lines| >= 2
                 && SumOfLines(txn.lines) == 0
                 && forall i :: 0 <= i < |txn.lines| ==> LineFault(txn.eventType, txn.lines[i]).None?
  {
    NoFaultIffEachLineSound(txn.eventType, txn.lines);
  }

  lemma {:induction false} NoFaultIffEachLineSound(eventType: EventType, lines: seq<Line>)
    ensures FirstFault(eventType, lines).None?
            <==> forall i :: 0 <= i < |lines| ==> LineFault(eventType, lines[i]).None?
  {
    if lines != [] {
      var init := lines[..|lines| - 1];
      NoFaultIffEachLineSound(eventType, init);
      assert forall i :: 0 <= i < |init| ==> init[i] == lines[i];
    }
  }

  /** The rows one createMany inserts; the database stamps them together. */
  function Rows(txn: Txn, at: Time): (rows: seq<Row>)
    ensures |rows| == |txn.lines|
    ensures forall i :: 0 <= i < |rows| ==> rows[i] == Row(txn.eventId, txn.eventType, txn.lines[i], at)
  {
    seq(|txn.lines|, i requires 0 <= i < |txn.lines| => Row(txn.eventId, txn.eventType, txn.lines[i], at))
  }

  // ── Accounts, groups and counts as weights over rows ─────────────────

  datatype Payee = Vendor(id: nat) | Rider(id: nat)

  /** A column of the books. Posted counts transactions by their leading leg. */
  datatype Key =
    | Escrow(order: nat)
    | RefundDue(order: nat)
    | Payable(payee: Payee)
    | Revenue
    | Float
    | Everything
    | Group(event: EventId)
    | Posted(event: EventId)

  function PayableAccount(payee: Payee): Account {
    if payee.Vendor? then VendorPayable else RiderPayable
  }

  predicate OwedTo(payee: Payee, line: Line) {
    && line.account == PayableAccount(payee)
    && match payee
       case Vendor(v) => line.vendorId == Some(v)
       case Rider(r) => line.riderId == Some(r)
  }

  /** The account of a transaction's first leg, which occurs once in it. */
  function LeadAccount(event: EventId): Account {
    match event
    case NoEventId => PlatformReserve
    case PaymentOf(_) => CustomerEscrow
    case DeliveryOf(_) => CustomerEscrow
    case RefundInitiatedFor(_) => CustomerEscrow
    case RefundSettledFor(_) => RefundPayable
    case PenaltyOn(_) => PlatformRevenue
    case CompensationFor(_) => PlatformRevenue
    case PayoutOf(_) => CampayFloat
  }

  function Weight(key: Key, row: Row): int {
    match key
    case Escrow(o) => if row.line.account == CustomerEscrow && row.line.orderId == Some(o) then row.line.amountXAF else 0
    case RefundDue(o) => if row.line.account == RefundPayable && row.line.orderId == Some(o) then row.line.amountXAF else 0
    case Payable(p) => if OwedTo(p, row.line) then row.line.amountXAF else 0
    case Revenue => if row.line.account == PlatformRevenue then row.line.amountXAF else 0
    case Float => if row.line.account == CampayFloat then row.line.amountXAF else 0
    case Everything => row.line.amountXAF
    case Group(e) => if row.eventId == e then row.line.amountXAF else 0
    case Posted(e) => Bit(row.eventId == e && row.line.account == LeadAccount(e))
  }

  function Total(rows: seq<Row>, key: Key): int {
    if rows == [] then 0
    else Total(rows[..|rows| - 1], key) + Weight(key, rows[|rows| - 1])
  }

  lemma {:induction false} TotalOfAppend(a: seq<Row>, b: seq<Row>, key: Key)
    ensures Total(a + b, key) == Total(a, key) + Total(b, key)
  {
    if b == [] {
      assert a + b == a;
    } else {
      assert (a + b)[..|a + b| - 1] == a + b[..|b| - 1];
      TotalOfAppend(a, b[..|b| - 1], key);
    }
  }

  lemma TotalOfTwo(rows: seq<Row>, key: Key)
    requires |rows| == 2
    ensures Total(rows, key) == Weight(key, rows[0]) + Weight(key, rows[1])
  {
    assert rows[..1][..0] == [];
    assert Total(rows[..1], key) == Weight(key, rows[0]);
  }

  lemma TotalOfFour(rows: seq<Row>, key: Key)
    requires |rows| == 4
    ensures Total(rows, key)
         == Weight(key, rows[0]) + Weight(key, rows[1]) + Weight(key, rows[2]) + Weight(key, rows[3])
  {
    var init := rows[..3];
    assert init[..2] == rows[..2];
    TotalOfTwo(rows[..2], key);
    assert Total(init, key) == Total(rows[..2], key) + Weight(key, rows[2]);
  }

  /** Every booked transaction leaves the whole ledger and its own group at zero. */
  lemma {:induction false} BookingIsBalanced(txn: Txn, at: Time, event: EventId)
    requires Refusal(txn).None?
    ensures Total(Rows(txn, at), Everything) == 0
    ensures Total(Rows(txn, at), Group(event)) == 0
  {
    TotalIsSumOfLines(txn, at, event);
  }

  lemma {:induction false} TotalIsSumOfLines(txn: Txn, at: Time, event: EventId)
    ensures Total(Rows(txn, at), Everything) == SumOfLines(txn.lines)
    ensures Total(Rows(txn, at), Group(event)) == if event == txn.eventId then SumOfLines(txn.lines) else 0
    decreases |txn.lines|
  {
    var n := |txn.lines|;
    if n > 0 {
      var shorter := txn.(lines := txn.lines[..n - 1]);
      TotalIsSumOfLines(shorter, at, event);
      assert Rows(shorter, at) == Rows(txn, at)[..n - 1];
    }
  }

  /** Each faulty line names its own fault: nothing on it, nobody's, or an
      adjustment without a word. */
  lemma LineIsToldIff(eventType: EventType, line: Line)
    ensures var fault := LineFault(eventType, line);
            var owned := line.orderId.Some? || line.vendorId.Some? || line.riderId.Some? || line.payoutId.Some? || line.refundId.Some?;
            && (fault == Some(ZeroAmount) <==> line.amountXAF == 0)
            && (fault == Some(EntryOrphan) <==> line.amountXAF != 0 && !owned)
            && (fault == Some(AdjustmentMissingDescription)
                <==> line.amountXAF != 0 && owned && eventType == Adjustment && line.description in {None, Some("")})
            && (fault == None <==> line.amountXAF != 0 && owned && (eventType == Adjustment ==> line.description !in {None, Some("")}))
  {
  }

  /** And a transaction its first: no event, one leg, a line's, or its sum. */
  lemma TransactionIsToldIff(txn: Txn)
    ensures var told := Refusal(txn); var sum := SumOfLines(txn.lines);
            && (told == Some(EventIdRequired) <==> txn.eventId == NoEventId)
            && (told == Some(TooFewEntries) <==> txn.eventId != NoEventId && |txn.lines| < 2)
            && (told == Some(Unbalanced(sum)) <==> txn.eventId != NoEventId && |txn.lines| >= 2 && sum != 0
                                                   && FirstFault(txn.eventType, txn.lines) == None)
  {
    FaultsAreLineFaults(txn.eventType, txn.lines);
  }

  lemma {:induction false} FaultsAreLineFaults(eventType: EventType, lines: seq<Line>)
    ensures FirstFault(eventType, lines) in {None, Some(ZeroAmount), Some(EntryOrphan), Some(AdjustmentMissingDescription)}
    ensures FirstFault(eventType, lines).Some? ==>
              exists i :: 0 <= i < |lines| && FirstFault(eventType, lines) == LineFault(eventType, lines[i])
                          && forall j :: 0 <= j < i ==> LineFault(eventType, lines[j]) == None
  {
    if lines != [] {
      var n := |lines| - 1;
      FaultsAreLineFaults(eventType, lines[..n]);
      NoFaultIffEachLineSound(eventType, lines[..n]);
      assert forall i :: 0 <= i < n ==> lines[..n][i] == lines[i];
      if FirstFault(eventType, lines[..n]).Some? {
        var i :| 0 <= i < n && FirstFault(eventType, lines[..n]) == LineFault(eventType, lines[..n][i])
                 && forall j :: 0 <= j < i ==> LineFault(eventType, lines[..n][j]) == None;
        assert LineFault(eventType, lines[i]) == FirstFault(eventType, lines);
        assert forall j :: 0 <= j < i ==> LineFault(eventType, lines[j]) == None;
      }
    }
  }
}
