/**
 The "since last payout" balance against the full history. The debit of a payout
 is stamped when its transaction runs, its period ends before that, and the
 window then counts the debit but not the earnings it paid for.
 */
module PayoutBalance {
  import opened Common
  import opened Ledger
  import opened Orders
  import opened OrderBooks
  import opened Payouts
  import opened Platform
  import opened PlatformInvariant
  import opened PlatformRuns
  import opened PayoutPeriods

  /** What the payee is owed by the whole ledger. */
  function FullBalance(ledger: seq<Row>, payee: Payee): int {
    0 - Total(ledger, Payable(payee))
  }

  /** The payee's payable entries created at or before an instant. */
  function Upto(ledger: seq<Row>, payee: Payee, at: Time): int {
    if ledger == [] then 0
    else
      var row := ledger[|ledger| - 1];
      Upto(ledger[..|ledger| - 1], payee, at) + (if row.createdAt <= at then Weight(Payable(payee), row) else 0)
  }

  lemma {:induction false} WindowSplits(ledger: seq<Row>, payee: Payee, cutoff: Option<Time>)
    ensures Window(ledger, payee, cutoff)
         == Total(ledger, Payable(payee)) - (if cutoff.Some? then Upto(ledger, payee, cutoff.value) else 0)
  {
    if ledger != [] {
      WindowSplits(ledger[..|ledger| - 1], payee, cutoff);
    }
  }

  /** The windowed balance is the full one exactly when the entries at or before
      the cutoff cancel out. */
  lemma WindowAgreesIff(ledger: seq<Row>, payouts: seq<Payout>, payee: Payee)
    ensures Balance(ledger, payouts, payee) == FullBalance(ledger, payee)
            <==> Cutoff(payouts, payee).None? || Upto(ledger, payee, Cutoff(payouts, payee).value) == 0
  {
    WindowSplits(ledger, payee, Cutoff(payouts, payee));
  }

  lemma {:induction false} UptoOfAppend(a: seq<Row>, b: seq<Row>, payee: Payee, at: Time)
    ensures Upto(a + b, payee, at) == Upto(a, payee, at) + Upto(b, payee, at)
  {
    if b == [] {
      assert a + b == a;
    } else {
      assert (a + b)[..|a + b| - 1] == a + b[..|b| - 1];
      UptoOfAppend(a, b[..|b| - 1], payee, at);
    }
  }

  /** Entries stamped together are all in or all out. */
  lemma {:induction false} UptoOfStamped(rows: seq<Row>, payee: Payee, stamp: Time, at: Time)
    requires forall i :: 0 <= i < |rows| ==> rows[i].createdAt == stamp
    ensures Upto(rows, payee, at) == if stamp <= at then Total(rows, Payable(payee)) else 0
  {
    if rows != [] {
      UptoOfStamped(rows[..|rows| - 1], payee, stamp, at);
    }
  }

  /** Nothing of the payee's is booked after the cutoff. */
  ghost predicate NothingAfter(ledger: seq<Row>, payee: Payee, at: Time) {
    forall i :: 0 <= i < |ledger| && OwedTo(payee, ledger[i].line) ==> ledger[i].createdAt <= at
  }

  lemma {:induction false} NothingAfterMeansAll(ledger: seq<Row>, payee: Payee, at: Time)
    requires NothingAfter(ledger, payee, at)
    ensures Upto(ledger, payee, at) == Total(ledger, Payable(payee))
  {
    if ledger != [] {
      var init := ledger[..|ledger| - 1];
      assert forall i :: 0 <= i < |init| ==> init[i] == ledger[i];
      NothingAfterMeansAll(init, payee, at);
    }
  }

  // ── One payout ───────────────────────────────────────────────────────

  /** The payout just scheduled, once its transfer is in flight. */
  function InFlight(s: Db): Db
    requires s.payouts != []
  {
    var last := |s.payouts| - 1;
    s.(payouts := s.payouts[last := s.payouts[last].(status := PayoutInFlight)])
  }

  /** Once a payout is sent, whatever its reads and whatever was booked since its
      end, the window misses everything booked up to that end. If the balances
      agreed, the live balance was paid and nothing had followed the end, they
      agree again exactly when the debit is stamped no later than the end, and
      otherwise the window is short by exactly the net. */
  lemma OnePayoutShortsTheWindow(s: Db, payee: Payee, netXAF: int, start: Time, end: Time, now: Time)
    requires netXAF != 0 && (Cutoff(s.payouts, payee).Some? ==> Cutoff(s.payouts, payee).value < end)
    ensures var sent := InFlight(Scheduled(s, payee, netXAF, start, end, now));
            var full := FullBalance(sent.ledger, payee);
            && Balance(sent.ledger, sent.payouts, payee) == full + Upto(s.ledger, payee, end) + (if now <= end then netXAF else 0)
            && (netXAF == Balance(s.ledger, s.payouts, payee) == FullBalance(s.ledger, payee) && NothingAfter(s.ledger, payee, end)
                ==> && Balance(sent.ledger, sent.payouts, payee) == full - (if now <= end then 0 else netXAF)
                    && (Balance(sent.ledger, sent.payouts, payee) == full <==> now <= end))
  {
    var id := |s.payouts|;
    var sent := InFlight(Scheduled(s, payee, netXAF, start, end, now));
    var rows := Rows(PayoutTxn(payee, id, netXAF), now);
    assert sent.payouts[..id] == s.payouts;
    assert Cutoff(sent.payouts, payee) == Some(end);
    WindowSplits(sent.ledger, payee, Some(end));
    if NothingAfter(s.ledger, payee, end) {
      NothingAfterMeansAll(s.ledger, payee, end);
    }
    UptoOfAppend(s.ledger, rows, payee, end);
    UptoOfStamped(rows, payee, now, end);
    TotalOfAppend(s.ledger, rows, Payable(payee));
    PayoutReconciles(payee, id, netXAF, now, Payable(payee));
  }

  // ── Every payout of a run ────────────────────────────────────────────

  lemma OrderWriteGrowsLedger(s: Db, id: nat, op: OrderOp, now: Time)
    ensures var after := OnOrder(s, id, op, now).ledger;
            s.ledger <= after && forall i :: |s.ledger| <= i < |after| ==> after[i].createdAt == now
  {
    hide StepOrder;
  }

  /** The ledger only grows, and a transition stamps what it adds. */
  lemma NextGrowsLedger(s: Db, op: Op, now: Time) returns (added: seq<Row>)
    ensures Next(s, op, now).ledger == s.ledger + added
    ensures forall i :: 0 <= i < |added| ==> added[i].createdAt == now
    ensures AwardOf(s, op).Some? ==>
      added == Rows(PayoutTxn(AwardOf(s, op).value.payee, |s.payouts|, AwardOf(s, op).value.netXAF), now)
  {
    var after := Next(s, op, now).ledger;
    if AwardOf(s, op).Some? {
      AwardIsGuarded(s, op, now);
    } else {
      OtherLedgerGrowth(s, op, now);
    }
    added := after[|s.ledger|..];
  }

  lemma OtherLedgerGrowth(s: Db, op: Op, now: Time)
    requires AwardOf(s, op).None?
    ensures var after := Next(s, op, now).ledger;
            s.ledger <= after && forall i :: |s.ledger| <= i < |after| ==> after[i].createdAt == now
  {
    hide OnOrder;
    hide OnPayout;
    hide OrderOutcome;
    match op {
      case Write(order, write) => OrderWriteGrowsLedger(s, order, write, now);
      case Move(payout, move) => MoveBooksNothing(s, payout, move);
      case CollectCallback(cb) =>
        if ReferenceIn(cb).Some? && FindCollect(s.orders, ReferenceIn(cb).value).Some? {
          OrderWriteGrowsLedger(s, FindCollect(s.orders, ReferenceIn(cb).value).value, OpCollectFailed, now);
        }
      case RefundCallbackOp(cb) =>
        if ReferenceIn(cb).Some? && FindRefund(s.orders, ReferenceIn(cb).value).Some? {
          OrderWriteGrowsLedger(s, FindRefund(s.orders, ReferenceIn(cb).value).value, OpRefundCallback(Confirms(cb.status)), now);
        }
      case TransferCallbackOp(cb) =>
        if ReferenceIn(cb).Some? && TransferTarget(s.payouts, ReferenceIn(cb).value).Some? {
          MoveBooksNothing(s, TransferTarget(s.payouts, ReferenceIn(cb).value).value, OpTransferCallback(Confirms(cb.status)));
        }
      case _ =>
    }
  }

  lemma MoveBooksNothing(s: Db, id: nat, move: PayoutOp)
    ensures OnPayout(s, id, move).ledger == s.ledger
  {
    hide StepPayout;
  }

  /** The award's reads are what its own state answers: no other writer ran
      between the first read and the insert. */
  predicate Live(s: Db, a: Award) {
    && a.payee in s.payees
    && a.netXAF == Balance(s.ledger, s.payouts, a.payee) && a.start == PeriodStart(s, a.payee)
  }

  /** Every payout pays the live balance, and stamps its debit strictly after the
      end it took: what `periodEnd = new Date()` before the transaction gives. */
  ghost predicate LiveRun(states: seq<Db>, moments: seq<Moment>) {
    && Run(states, moments) && PayeeClock(states, moments)
    && forall i :: 0 <= i < |moments| && i < |states| && AwardAt(states, moments, i).Some? ==>
         Live(states[i], AwardAt(states, moments, i).value) && AwardAt(states, moments, i).value.end < moments[i].now
  }

  ghost predicate PaysBy(states: seq<Db>, moments: seq<Moment>, j: nat, payee: Payee, at: Time)
    requires j < |moments| && j < |states|
  {
    && AwardAt(states, moments, j).Some? && AwardAt(states, moments, j).value.payee == payee
    && AwardAt(states, moments, j).value.end <= at
  }

  /** Over the payee's payouts that end by an instant: each net, and what had
      been booked between that payout's end and its insert. */
  ghost function Short(states: seq<Db>, moments: seq<Moment>, n: nat, payee: Payee, at: Time): int
    requires n <= |moments| && n <= |states|
  {
    if n == 0 then 0
    else
      Short(states, moments, n - 1, payee, at)
      + (if PaysBy(states, moments, n - 1, payee, at) then
           var a := AwardAt(states, moments, n - 1).value;
           a.netXAF + Window(states[n - 1].ledger, payee, Some(a.end))
         else 0)
  }

  lemma {:induction false} ShortReadsEnds(states: seq<Db>, moments: seq<Moment>, n: nat, payee: Payee, at: Time, or: Time)
    requires n <= |moments| && n <= |states|
    requires forall j: nat :: j < n ==> (PaysBy(states, moments, j, payee, at) <==> PaysBy(states, moments, j, payee, or))
    ensures Short(states, moments, n, payee, at) == Short(states, moments, n, payee, or)
  {
    if n > 0 {
      ShortReadsEnds(states, moments, n - 1, payee, at, or);
    }
  }

  lemma {:induction false} NothingShort(states: seq<Db>, moments: seq<Moment>, n: nat, payee: Payee, at: Time)
    requires n <= |moments| && n <= |states|
    requires forall j: nat :: j < n ==> !PaysBy(states, moments, j, payee, at)
    ensures Short(states, moments, n, payee, at) == 0
  {
    if n > 0 {
      NothingShort(states, moments, n - 1, payee, at);
    }
  }

  /** Of one payee's payouts, the earlier ended before the later's end. */
  lemma EndsAscend(states: seq<Db>, moments: seq<Moment>, j: nat, i: nat)
    requires Run(states, moments) && PayeeClock(states, moments) && j < i < |moments|
    requires AwardAt(states, moments, i).Some? && AwardAt(states, moments, j).Some?
    requires AwardAt(states, moments, j).value.payee == AwardAt(states, moments, i).value.payee
    ensures AwardAt(states, moments, j).value.end <= moments[j].now < AwardAt(states, moments, i).value.end
  {
    hide Next;
    hide Legal;
    hide AwardOf;
  }

  /** An award's row is still there, and its end is no later than the frontier. */
  lemma AwardStays(states: seq<Db>, moments: seq<Moment>, j: nat, i: nat)
    requires Run(states, moments) && PayeeClock(states, moments) && j < i < |states| && AwardAt(states, moments, j).Some?
    ensures var a := AwardAt(states, moments, j).value;
            && |states[j].payouts| < |states[i].payouts|
            && SamePeriod(states[i].payouts[|states[j].payouts|], AwardRow(a))
            && a.payee in states[0].payees
            && a.end <= Frontier(states[i].payouts, a.payee, states[0].payees[a.payee])
  {
    hide Next;
    hide Legal;
    hide AwardOf;
    var a, p := AwardAt(states, moments, j).value, |states[j].payouts|;
    AwardIsGuarded(states[j], moments[j].op, moments[j].now);
    PeriodsPersist(states, moments, j + 1, i);
    assert states[i].payouts[..|states[j + 1].payouts|][p] == states[i].payouts[p];
    PayeesAreRegistered(states, moments, i, p);
    PeriodsAlwaysTile(states, moments, i, a.payee);
    FrontierBounds(states[i].payouts, a.payee, states[0].payees[a.payee], p);
  }

  /** What the live cutoff has let go of is what was paid up to it, and booked
      late, however the payouts came about. */
  ghost predicate Swallowed(states: seq<Db>, moments: seq<Moment>, i: nat, payee: Payee)
    requires i <= |moments| && i < |states|
  {
    forall j: nat :: j < i && AwardAt(states, moments, j).Some? && AwardAt(states, moments, j).value.payee == payee ==>
      var end := AwardAt(states, moments, j).value.end;
      Upto(states[i].ledger, payee, end) == 0 - Short(states, moments, i, payee, end)
  }

  /** At a live award all earlier nets and late entries lie behind its cutoff. */
  lemma CutoffCoversTheShort(states: seq<Db>, moments: seq<Moment>, i: nat)
    requires LiveRun(states, moments) && i < |moments| && AwardAt(states, moments, i).Some?
    requires Swallowed(states, moments, i, AwardAt(states, moments, i).value.payee)
    ensures var a := AwardAt(states, moments, i).value; var s := states[i];
            && Short(states, moments, i, a.payee, a.end)
               == (if Cutoff(s.payouts, a.payee).Some? then 0 - Upto(s.ledger, a.payee, Cutoff(s.payouts, a.payee).value) else 0)
            && a.netXAF == FullBalance(s.ledger, a.payee) - Short(states, moments, i, a.payee, a.end)
  {
    hide Next;
    hide Legal;
    hide AwardOf;
    hide PayeeClock;
    var s, a := states[i], AwardAt(states, moments, i).value;
    var cutoff := Cutoff(s.payouts, a.payee);
    WindowSplits(s.ledger, a.payee, cutoff);
    AwardIsGuarded(s, moments[i].op, moments[i].now);
    PayeesStay(states, moments, i);
    PeriodsAlwaysTile(states, moments, i, a.payee);
    TiledIsChained(s.payouts, a.payee, s.payees[a.payee]);
    AwardStartsAtTheFrontier(s, moments[i].op);
    forall j: nat | j < i && AwardAt(states, moments, j).Some? && AwardAt(states, moments, j).value.payee == a.payee
      ensures PaysBy(states, moments, j, a.payee, a.end)
      ensures cutoff.Some? && PaysBy(states, moments, j, a.payee, cutoff.value)
    {
      EndsAscend(states, moments, j, i);
      AwardStays(states, moments, j, i);
      FrontierBounds(s.payouts, a.payee, s.payees[a.payee], |states[j].payouts|);
    }
    if cutoff.Some? {
      var q := CutoffIsAnEnd(s.payouts, a.payee);
      var j := AwardedBy(states, moments, i, q);
      ShortReadsEnds(states, moments, i, a.payee, a.end, cutoff.value);
      assert AwardAt(states, moments, j).value.end == cutoff.value;
    } else {
      NothingShort(states, moments, i, a.payee, a.end);
    }
  }

  lemma NextKeepsSwallowed(states: seq<Db>, moments: seq<Moment>, i: nat, payee: Payee)
    requires LiveRun(states, moments) && i < |moments| && Swallowed(states, moments, i, payee)
    ensures Swallowed(states, moments, i + 1, payee)
  {
    hide Apply;
    hide Legal;
    hide AwardOf;
    hide PayeeClock;
    hide Short;
    var s, m := states[i], moments[i];
    var added := NextGrowsLedger(s, m.op, m.now);
    forall j: nat | j < i + 1 && AwardAt(states, moments, j).Some? && AwardAt(states, moments, j).value.payee == payee
      ensures var end := AwardAt(states, moments, j).value.end;
              Upto(states[i + 1].ledger, payee, end) == 0 - Short(states, moments, i + 1, payee, end)
    {
      var end := AwardAt(states, moments, j).value.end;
      ClockNeverFalls(states, moments, j, i);
      UptoOfAppend(s.ledger, added, payee, end);
      UptoOfStamped(added, payee, m.now, end);
      ShortGrows(states, moments, i, payee, end);
      if j == i {
        CutoffCoversTheShort(states, moments, i);
        WindowSplits(s.ledger, payee, Some(end));
      } else if AwardAt(states, moments, i).Some? && AwardAt(states, moments, i).value.payee == payee {
        EndsAscend(states, moments, j, i);
      }
    }
  }

  lemma ShortGrows(states: seq<Db>, moments: seq<Moment>, i: nat, payee: Payee, at: Time)
    requires i < |moments| && i < |states|
    ensures Short(states, moments, i + 1, payee, at)
         == Short(states, moments, i, payee, at)
            + (if PaysBy(states, moments, i, payee, at)
               then AwardAt(states, moments, i).value.netXAF
                    + Window(states[i].ledger, payee, Some(AwardAt(states, moments, i).value.end))
               else 0)
  {
  }

  lemma {:induction false} AlwaysSwallowed(states: seq<Db>, moments: seq<Moment>, i: nat, payee: Payee)
    requires LiveRun(states, moments) && i < |states|
    ensures Swallowed(states, moments, i, payee)
  {
    hide Next;
    hide Legal;
    hide AwardOf;
    hide PayeeClock;
    hide Short;
    hide Upto;
    if i > 0 {
      AlwaysSwallowed(states, moments, i - 1, payee);
      NextKeepsSwallowed(states, moments, i - 1, payee);
    }
  }

  /** In every such run the windowed balance is short of the full one by the net
      of every payout up to the cutoff, not only the last, and by whatever was
      booked between each one's end and its insert, which the window counts again. */
  lemma WindowIsShortByEverythingPaid(states: seq<Db>, moments: seq<Moment>, i: nat, payee: Payee)
    requires LiveRun(states, moments) && i < |states|
    ensures var s := states[i]; var cutoff := Cutoff(s.payouts, payee);
            Balance(s.ledger, s.payouts, payee)
            == FullBalance(s.ledger, payee) - (if cutoff.Some? then Short(states, moments, i, payee, cutoff.value) else 0)
  {
    hide Next;
    hide Legal;
    hide AwardOf;
    hide PayeeClock;
    hide Short;
    var s := states[i];
    AlwaysSwallowed(states, moments, i, payee);
    WindowSplits(s.ledger, payee, Cutoff(s.payouts, payee));
    if Cutoff(s.payouts, payee).Some? {
      var q := CutoffIsAnEnd(s.payouts, payee);
      var j := AwardedBy(states, moments, i, q);
      assert AwardAt(states, moments, j).value.end == Cutoff(s.payouts, payee).value;
    }
  }

  // ── Paid against earned ──────────────────────────────────────────────

  /** After a live payout the payee is still owed exactly what the window had
      been short by: it was paid beyond its earnings exactly when late entries
      counted twice outweigh all earlier nets. */
  lemma OwedAfterPayout(states: seq<Db>, moments: seq<Moment>, i: nat)
    requires LiveRun(states, moments) && i < |moments| && AwardAt(states, moments, i).Some?
    ensures var a := AwardAt(states, moments, i).value;
            FullBalance(states[i + 1].ledger, a.payee) == Short(states, moments, i, a.payee, a.end)
  {
    hide Next;
    hide Legal;
    hide AwardOf;
    hide PayeeClock;
    hide Short;
    var s, a := states[i], AwardAt(states, moments, i).value;
    AlwaysSwallowed(states, moments, i, a.payee);
    CutoffCoversTheShort(states, moments, i);
    AwardIsGuarded(s, moments[i].op, moments[i].now);
    TotalOfAppend(s.ledger, Rows(PayoutTxn(a.payee, |s.payouts|, a.netXAF), moments[i].now), Payable(a.payee));
    PayoutReconciles(a.payee, |s.payouts|, a.netXAF, moments[i].now, Payable(a.payee));
  }

  /** Nothing of the payee's was booked between the end and the insert. */
  ghost predicate Prompt(states: seq<Db>, moments: seq<Moment>) {
    forall i :: 0 <= i < |moments| && i < |states| && AwardAt(states, moments, i).Some? ==>
      var a := AwardAt(states, moments, i).value;
      Window(states[i].ledger, a.payee, Some(a.end)) == 0
  }

  lemma {:induction false} PromptShortIsPositive(states: seq<Db>, moments: seq<Moment>, n: nat, payee: Payee, at: Time)
    requires Prompt(states, moments) && n <= |moments| && n <= |states|
    ensures Short(states, moments, n, payee, at) >= 0
  {
    hide AwardOf;
    if n > 0 {
      PromptShortIsPositive(states, moments, n - 1, payee, at);
      if AwardAt(states, moments, n - 1).Some? {
        AwardIsGuarded(states[n - 1], moments[n - 1].op, moments[n - 1].now);
      }
    }
  }

  /** No payout of a live, prompt run takes its payee beyond what was earned:
      payouts and penalties stay within delivered shares and compensations. */
  lemma NeverPaidBeyondEarned(states: seq<Db>, moments: seq<Moment>, i: nat)
    requires LiveRun(states, moments) && Prompt(states, moments) && i < |moments| && AwardAt(states, moments, i).Some?
    ensures var t := states[i + 1];
            match AwardAt(states, moments, i).value.payee
            case Vendor(v) => NetOf(t.payouts, Vendor(v)) + Fines(t.orders, v)
                              <= DeliveredShares(t.orders, v) + Compensations(t.orders, t.ledger, v)
            case Rider(r) => NetOf(t.payouts, Rider(r)) <= RiderShares(t.orders, r)
  {
    hide Next;
    hide Legal;
    hide AwardOf;
    hide PayeeClock;
    hide Short;
    hide Prompt;
    var a := AwardAt(states, moments, i).value;
    OwedAfterPayout(states, moments, i);
    PromptShortIsPositive(states, moments, i, a.payee, a.end);
    PayablesInClosedForm(states, moments, i + 1, a.payee.id, a.payee.id);
  }

  // ── Stale reads ──────────────────────────────────────────────────────

  lemma {:induction false} WindowOfAppend(a: seq<Row>, b: seq<Row>, payee: Payee, cutoff: Option<Time>)
    ensures Window(a + b, payee, cutoff) == Window(a, payee, cutoff) + Window(b, payee, cutoff)
  {
    if b == [] {
      assert a + b == a;
    } else {
      assert (a + b)[..|a + b| - 1] == a + b[..|b| - 1];
      WindowOfAppend(a, b[..|b| - 1], payee, cutoff);
    }
  }

  /** A balance read from earlier tables is the live one exactly when what was
      booked since, beyond the live cutoff, equals what the cutoff has since
      moved past. With no new booking and no moved cutoff, both are nothing. */
  lemma StaleBalanceIsLiveIff(ledger: seq<Row>, since: seq<Row>, before: seq<Payout>, payouts: seq<Payout>, payee: Payee)
    ensures 0 - Window(ledger, payee, Cutoff(before, payee)) == Balance(ledger + since, payouts, payee)
            <==> Window(since, payee, Cutoff(payouts, payee))
                 == Window(ledger, payee, Cutoff(before, payee)) - Window(ledger, payee, Cutoff(payouts, payee))
  {
    WindowOfAppend(ledger, since, payee, Cutoff(payouts, payee));
  }

  lemma {:induction false} LedgerGrowsAlong(states: seq<Db>, moments: seq<Moment>, i: nat, j: nat)
    requires Run(states, moments) && i <= j < |states|
    ensures states[i].ledger <= states[j].ledger
    decreases j - i
  {
    hide Next;
    hide Legal;
    if i < j {
      LedgerGrowsAlong(states, moments, i, j - 1);
      var added := NextGrowsLedger(states[j - 1], moments[j - 1].op, moments[j - 1].now);
    }
  }

  /** Over a run: the net of a payout, read from earlier states, is the live
      balance at its insert exactly when the payee's entries booked in between,
      beyond the live cutoff, cancel what the moved cutoff dropped. */
  lemma NetIsLiveIff(states: seq<Db>, moments: seq<Moment>, i: nat, seen: Reading, a: nat, b: nat, c: nat, d: nat)
    requires Run(states, moments) && i < |moments| && d <= i && AwardAt(states, moments, i).Some?
    requires ReadFrom(states, AwardAt(states, moments, i).value.payee, seen, a, b, c, d)
    requires AwardAt(states, moments, i).value.netXAF == seen.balanceXAF
    ensures var award := AwardAt(states, moments, i).value; var before, live := states[b].ledger, states[i].ledger;
            var was, now := Cutoff(states[a].payouts, award.payee), Cutoff(states[i].payouts, award.payee);
            && |before| <= |live|
            && (award.netXAF == Balance(live, states[i].payouts, award.payee)
                <==> Window(live[|before|..], award.payee, now)
                     == Window(before, award.payee, was) - Window(before, award.payee, now))
  {
    hide Next;
    hide Legal;
    hide AwardOf;
    LedgerGrowsAlong(states, moments, b, i);
    var before, live := states[b].ledger, states[i].ledger;
    assert live == before + live[|before|..];
    StaleBalanceIsLiveIff(before, live[|before|..], states[a].payouts, states[i].payouts, AwardAt(states, moments, i).value.payee);
  }

  lemma {:induction false} CutoffReadsSettled(before: seq<Payout>, now: seq<Payout>, payee: Payee)
    requires |before| <= |now| && SamePeriods(before, now[..|before|])
    requires forall p :: 0 <= p < |now| ==> (Settles(now[p], payee) <==> p < |before| && Settles(before[p], payee))
    ensures Cutoff(now, payee) == Cutoff(before, payee)
  {
    if now != [] {
      var n := |now| - 1;
      assert forall p :: 0 <= p < n ==> now[..n][p] == now[p];
      if |before| == |now| {
        assert forall p :: 0 <= p < n ==> before[..n][p] == before[p];
        assert now[..|before|] == now && now[..n][..n] == now[..n];
        assert SamePeriod(before[n], now[n]);
        CutoffReadsSettled(before[..n], now[..n], payee);
      } else {
        assert now[..n][..|before|] == now[..|before|];
        CutoffReadsSettled(before, now[..n], payee);
      }
    } else {
      assert before == now;
    }
  }

  lemma {:induction false} NothingOwedInWindow(ledger: seq<Row>, payee: Payee, cutoff: Option<Time>)
    requires forall k :: 0 <= k < |ledger| ==> !OwedTo(payee, ledger[k].line)
    ensures Window(ledger, payee, cutoff) == 0
  {
    if ledger != [] {
      assert forall k :: 0 <= k < |ledger| - 1 ==> ledger[..|ledger| - 1][k] == ledger[k];
      NothingOwedInWindow(ledger[..|ledger| - 1], payee, cutoff);
    }
  }

  /** What a caller can check: if nothing was booked for the payee since the sum
      was read, and the payee's sent and paid payouts are those the cutoff was
      read from, the net is the live balance. */
  lemma UndisturbedNetIsLive(states: seq<Db>, moments: seq<Moment>, i: nat, seen: Reading, a: nat, b: nat, c: nat, d: nat)
    requires Run(states, moments) && i < |moments| && d <= i && AwardAt(states, moments, i).Some?
    requires ReadFrom(states, AwardAt(states, moments, i).value.payee, seen, a, b, c, d)
    requires AwardAt(states, moments, i).value.netXAF == seen.balanceXAF
    requires var payee := AwardAt(states, moments, i).value.payee; var was, now := states[a].payouts, states[i].payouts;
             && (forall k :: |states[b].ledger| <= k < |states[i].ledger| ==> !OwedTo(payee, states[i].ledger[k].line))
             && (forall p :: 0 <= p < |now| ==> (Settles(now[p], payee) <==> p < |was| && Settles(was[p], payee)))
    ensures AwardAt(states, moments, i).value.netXAF
         == Balance(states[i].ledger, states[i].payouts, AwardAt(states, moments, i).value.payee)
  {
    hide Next;
    hide Legal;
    hide AwardOf;
    var payee, before, live := AwardAt(states, moments, i).value.payee, states[b].ledger, states[i].ledger;
    NetIsLiveIff(states, moments, i, seen, a, b, c, d);
    PeriodsPersist(states, moments, a, i);
    CutoffReadsSettled(states[a].payouts, states[i].payouts, payee);
    NothingOwedInWindow(live[|before|..], payee, Cutoff(states[i].payouts, payee));
  }
}
