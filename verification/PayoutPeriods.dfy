/** Payout periods of one payee: each starts where the last one ended, and when
    they tile time from the account's creation. */
module PayoutPeriods {
  import opened Common
  import opened Ledger
  import opened Orders
  import opened OrderInvariants
  import opened Payouts
  import opened Platform
  import opened PlatformInvariant
  import opened PlatformRuns

  /** Where the payee's last payout period ended, or where it starts. */
  function Frontier(payouts: seq<Payout>, payee: Payee, since: Time): Time {
    if payouts == [] then since
    else if payouts[|payouts| - 1].payee == payee then payouts[|payouts| - 1].periodEnd
    else Frontier(payouts[..|payouts| - 1], payee, since)
  }

  /** Each of the payee's periods is non-empty and starts where the last ended. */
  ghost predicate Tiled(payouts: seq<Payout>, payee: Payee, since: Time) {
    payouts != [] ==>
      var last := payouts[|payouts| - 1];
      && Tiled(payouts[..|payouts| - 1], payee, since)
      && (last.payee == payee ==>
            last.periodStart == Frontier(payouts[..|payouts| - 1], payee, since) < last.periodEnd)
  }

  /** Each of the payee's periods starts where the last ended, wherever it ends. */
  ghost predicate Chained(payouts: seq<Payout>, payee: Payee, since: Time) {
    payouts != [] ==>
      var last := payouts[|payouts| - 1];
      && Chained(payouts[..|payouts| - 1], payee, since)
      && (last.payee == payee ==> last.periodStart == Frontier(payouts[..|payouts| - 1], payee, since))
  }

  lemma {:induction false} TiledIsChained(payouts: seq<Payout>, payee: Payee, since: Time)
    requires Tiled(payouts, payee, since)
    ensures Chained(payouts, payee, since)
  {
    if payouts != [] {
      TiledIsChained(payouts[..|payouts| - 1], payee, since);
    }
  }

  predicate Covers(row: Payout, payee: Payee, at: Time) {
    row.payee == payee && row.periodStart < at <= row.periodEnd
  }

  lemma {:induction false} FrontierBounds(payouts: seq<Payout>, payee: Payee, since: Time, i: nat)
    requires Tiled(payouts, payee, since) && i < |payouts| && payouts[i].payee == payee
    ensures since <= payouts[i].periodStart < payouts[i].periodEnd <= Frontier(payouts, payee, since)
    decreases |payouts|
  {
    var init := payouts[..|payouts| - 1];
    FrontierGrows(init, payee, since);
    if i < |init| {
      FrontierBounds(init, payee, since, i);
    }
  }

  lemma {:induction false} FrontierGrows(payouts: seq<Payout>, payee: Payee, since: Time)
    requires Tiled(payouts, payee, since)
    ensures since <= Frontier(payouts, payee, since)
  {
    if payouts != [] {
      FrontierGrows(payouts[..|payouts| - 1], payee, since);
    }
  }

  /** No overlap: of two of the payee's payouts, the later starts no earlier
      than the former ended. */
  lemma {:induction false} PeriodsAreOrdered(payouts: seq<Payout>, payee: Payee, since: Time, i: nat, j: nat)
    requires Tiled(payouts, payee, since) && i < j < |payouts|
    requires payouts[i].payee == payee && payouts[j].payee == payee
    ensures payouts[i].periodEnd <= payouts[j].periodStart
    decreases |payouts|
  {
    var init := payouts[..|payouts| - 1];
    if j == |init| {
      FrontierBounds(init, payee, since, i);
    } else {
      PeriodsAreOrdered(init, payee, since, i, j);
    }
  }

  /** No gap: every instant up to the frontier lies in exactly one period. */
  lemma {:induction false} EveryInstantOnce(payouts: seq<Payout>, payee: Payee, since: Time, at: Time) returns (i: nat)
    requires Tiled(payouts, payee, since) && since < at <= Frontier(payouts, payee, since)
    ensures i < |payouts| && Covers(payouts[i], payee, at)
    ensures forall j: nat :: j < |payouts| && Covers(payouts[j], payee, at) ==> j == i
  {
    var init := payouts[..|payouts| - 1];
    var last := payouts[|init|];
    if last.payee == payee && last.periodStart < at {
      i := |init|;
    } else {
      i := EveryInstantOnce(init, payee, since, at);
    }
    forall j: nat | j < |payouts| && Covers(payouts[j], payee, at) ensures j == i {
      if j < i {
        PeriodsAreOrdered(payouts, payee, since, j, i);
      } else if i < j {
        PeriodsAreOrdered(payouts, payee, since, i, j);
      }
    }
  }

  // ── Where a new period starts ────────────────────────────────────────

  lemma {:induction false} CutoffIsAnEnd(payouts: seq<Payout>, payee: Payee) returns (i: nat)
    requires Cutoff(payouts, payee).Some?
    ensures i < |payouts| && Settles(payouts[i], payee) && payouts[i].periodEnd == Cutoff(payouts, payee).value
  {
    var init := payouts[..|payouts| - 1];
    if Cutoff(payouts, payee) == Cutoff(init, payee) {
      i := CutoffIsAnEnd(init, payee);
    } else {
      i := |init|;
    }
  }

  /** A start that no payout holds yet, and that is the account's creation or
      some period's end, is the frontier. */
  lemma {:induction false} FreeStartIsFrontier(payouts: seq<Payout>, payee: Payee, since: Time, start: Time)
    requires Chained(payouts, payee, since) && PeriodHolder(payouts, payee, start).None?
    requires start == since || exists i: nat :: i < |payouts| && payouts[i].payee == payee && payouts[i].periodEnd == start
    ensures start == Frontier(payouts, payee, since)
  {
    if payouts != [] {
      var init := payouts[..|payouts| - 1];
      var last := payouts[|init|];
      if last.payee != payee || last.periodEnd != start {
        if start != since {
          var i: nat :| i < |payouts| && payouts[i].payee == payee && payouts[i].periodEnd == start;
          assert i < |init| && init[i] == payouts[i];
        }
        FreeStartIsFrontier(init, payee, since, start);
      }
    }
  }

  /** What a scheduling operation that goes through appends. */
  datatype Award = Award(payee: Payee, netXAF: int, start: Time, end: Time)

  function AwardOf(s: Db, op: Op): Option<Award> {
    match op
    case PayVendor(vendor, seen, end) =>
      if VendorPayoutVerdict(s, vendor, seen).Ok? then Some(Award(Vendor(vendor), seen.balanceXAF, seen.start, end)) else None
    case PayRider(rider, kyc, seen, end) =>
      if RiderPayoutVerdict(s, rider, kyc, seen).Ok? then Some(Award(Rider(rider), seen.balanceXAF, seen.start, end)) else None
    case GrantCashout(request, pending, seen, end) =>
      if CashoutVerdict(s, request, pending, seen).Ok?
      then Some(Award(Vendor(s.cashouts[request].vendor), seen.balanceXAF, seen.start, end)) else None
    case _ => None
  }

  function AwardRow(award: Award): Payout {
    Payout(award.payee, award.start, award.end, award.netXAF, PayoutPending, None, false)
  }

  /** Every path that schedules pays a registered payee at least the minimum,
      from a start no other payout of the payee holds. */
  lemma AwardIsGuarded(s: Db, op: Op, now: Time)
    requires AwardOf(s, op).Some?
    ensures var award := AwardOf(s, op).value;
            && award.payee in s.payees
            && award.netXAF >= 500
            && PeriodHolder(s.payouts, award.payee, award.start).None?
            && (Legal(s, op) ==> StartRead(s, award.payee, award.start))
            && Next(s, op, now).payouts == s.payouts + [AwardRow(award)]
            && Next(s, op, now).ledger == s.ledger + Rows(PayoutTxn(award.payee, |s.payouts|, award.netXAF), now)
            && Next(s, op, now).orders == s.orders
  {
  }

  /** Periods and nets are written once: rows agree on them forever. */
  predicate SamePeriod(a: Payout, b: Payout) {
    a.payee == b.payee && a.periodStart == b.periodStart && a.periodEnd == b.periodEnd && a.netXAF == b.netXAF
  }

  ghost predicate SamePeriods(a: seq<Payout>, b: seq<Payout>) {
    |a| == |b| && forall i :: 0 <= i < |a| ==> SamePeriod(a[i], b[i])
  }

  lemma MoveKeepsPeriods(s: Db, id: nat, move: PayoutOp)
    ensures SamePeriods(s.payouts, OnPayout(s, id, move).payouts)
  {
  }

  lemma OtherwisePeriodsStay(s: Db, op: Op, now: Time)
    requires AwardOf(s, op).None?
    ensures SamePeriods(s.payouts, Next(s, op, now).payouts)
  {
    hide StepOrder;
    hide StepPayout;
    match op {
      case Move(id, move) => MoveKeepsPeriods(s, id, move);
      case TransferCallbackOp(cb) =>
        if Terminal(cb) {
          var hit := TransferTarget(s.payouts, ReferenceIn(cb).value);
          if hit.Some? {
            MoveKeepsPeriods(s, hit.value, OpTransferCallback(Confirms(cb.status)));
          }
        }
      case _ =>
    }
  }

  lemma {:induction false} TiledReadsPeriodsOnly(a: seq<Payout>, b: seq<Payout>, payee: Payee, since: Time)
    requires SamePeriods(a, b)
    ensures Frontier(a, payee, since) == Frontier(b, payee, since)
    ensures Tiled(a, payee, since) == Tiled(b, payee, since)
    ensures Chained(a, payee, since) == Chained(b, payee, since)
  {
    if a != [] {
      TiledReadsPeriodsOnly(a[..|a| - 1], b[..|b| - 1], payee, since);
    }
  }

  /** However stale the start it read, a payout that goes in starts where its
      payee's last period ended: the unique key shuts out every older start. */
  lemma AwardStartsAtTheFrontier(s: Db, op: Op)
    requires Legal(s, op) && AwardOf(s, op).Some? && AwardOf(s, op).value.payee in s.payees
    requires Chained(s.payouts, AwardOf(s, op).value.payee, s.payees[AwardOf(s, op).value.payee])
    ensures AwardOf(s, op).value.start
         == Frontier(s.payouts, AwardOf(s, op).value.payee, s.payees[AwardOf(s, op).value.payee])
  {
    var a := AwardOf(s, op).value;
    AwardIsGuarded(s, op, 0);
    FreeStartIsFrontier(s.payouts, a.payee, s.payees[a.payee], a.start);
  }

  /** It keeps the payee's periods tiling exactly when its end lies beyond the
      payee's last period. */
  lemma AwardTilesIffFresh(s: Db, op: Op, now: Time)
    requires Legal(s, op) && AwardOf(s, op).Some? && AwardOf(s, op).value.payee in s.payees
    requires Tiled(s.payouts, AwardOf(s, op).value.payee, s.payees[AwardOf(s, op).value.payee])
    ensures var a := AwardOf(s, op).value; var since := s.payees[a.payee];
            Tiled(Next(s, op, now).payouts, a.payee, since) <==> Frontier(s.payouts, a.payee, since) < a.end
  {
    hide Legal;
    hide Next;
    AwardIsGuarded(s, op, now);
    TiledIsChained(s.payouts, AwardOf(s, op).value.payee, s.payees[AwardOf(s, op).value.payee]);
    AwardStartsAtTheFrontier(s, op);
    var after := Next(s, op, now).payouts;
    assert after[..|after| - 1] == s.payouts;
  }

  // ── Over runs ────────────────────────────────────────────────────────

  /** The payout's end is later than the payee's last period. */
  ghost predicate FreshCutoff(s: Db, op: Op) {
    AwardOf(s, op).Some? && AwardOf(s, op).value.payee in s.payees ==>
      Frontier(s.payouts, AwardOf(s, op).value.payee, s.payees[AwardOf(s, op).value.payee]) < AwardOf(s, op).value.end
  }

  lemma PayeesNeverChange(s: Db, op: Op, now: Time)
    ensures Next(s, op, now).payees == s.payees
  {
  }

  lemma NextKeepsTiling(s: Db, op: Op, now: Time, payee: Payee)
    requires Legal(s, op)
    requires payee in s.payees && Tiled(s.payouts, payee, s.payees[payee])
    requires AwardOf(s, op).Some? && AwardOf(s, op).value.payee == payee ==> FreshCutoff(s, op)
    ensures Next(s, op, now).payees == s.payees
    ensures Tiled(Next(s, op, now).payouts, payee, s.payees[payee])
  {
    hide Legal;
    hide Next;
    PayeesNeverChange(s, op, now);
    if AwardOf(s, op).Some? {
      AwardIsGuarded(s, op, now);
      var after := Next(s, op, now).payouts;
      if AwardOf(s, op).value.payee == payee {
        AwardTilesIffFresh(s, op, now);
      } else {
        assert after[..|after| - 1] == s.payouts;
      }
    } else {
      OtherwisePeriodsStay(s, op, now);
      TiledReadsPeriodsOnly(s.payouts, Next(s, op, now).payouts, payee, s.payees[payee]);
    }
  }

  // ── The clock, payee by payee ────────────────────────────────────────

  /** The award a moment of a run makes, if it makes one. */
  ghost function AwardAt(states: seq<Db>, moments: seq<Moment>, i: nat): Option<Award>
    requires i < |moments| && i < |states|
  {
    AwardOf(states[i], moments[i].op)
  }

  ghost predicate PaysTo(states: seq<Db>, moments: seq<Moment>, i: nat, payee: Payee)
    requires i < |moments| && i < |states|
  {
    AwardAt(states, moments, i).Some? && AwardAt(states, moments, i).value.payee == payee
  }

  /** A payout's end lies after the payee's creation and after every earlier
      payout of the same payee went in, and is past when it goes in itself. What
      other payees' payouts and other requests do in between does not matter. */
  ghost predicate PayeeClock(states: seq<Db>, moments: seq<Moment>) {
    forall i :: 0 <= i < |moments| && i < |states| && AwardAt(states, moments, i).Some? ==>
      var a := AwardAt(states, moments, i).value;
      && (a.payee in states[i].payees ==> states[i].payees[a.payee] < a.end)
      && a.end <= moments[i].now
      && forall j :: 0 <= j < i && AwardAt(states, moments, j).Some? && AwardAt(states, moments, j).value.payee == a.payee ==>
           moments[j].now < a.end
  }

  lemma {:induction false} PayeesStay(states: seq<Db>, moments: seq<Moment>, i: nat)
    requires Run(states, moments) && i < |states|
    ensures states[i].payees == states[0].payees
  {
    hide Next;
    hide Legal;
    if i > 0 {
      PayeesStay(states, moments, i - 1);
      PayeesNeverChange(states[i - 1], moments[i - 1].op, moments[i - 1].now);
    }
  }

  // ── What every run keeps ─────────────────────────────────────────────

  lemma NextKeepsChain(s: Db, op: Op, now: Time, payee: Payee)
    requires Legal(s, op) && payee in s.payees && Chained(s.payouts, payee, s.payees[payee])
    ensures Chained(Next(s, op, now).payouts, payee, s.payees[payee])
  {
    hide Legal;
    hide Next;
    if AwardOf(s, op).Some? {
      AwardIsGuarded(s, op, now);
      var after := Next(s, op, now).payouts;
      assert after[..|after| - 1] == s.payouts;
      if AwardOf(s, op).value.payee == payee {
        AwardStartsAtTheFrontier(s, op);
      }
    } else {
      OtherwisePeriodsStay(s, op, now);
      TiledReadsPeriodsOnly(s.payouts, Next(s, op, now).payouts, payee, s.payees[payee]);
    }
  }

  /** Whatever the clocks, the ends and the reads: in every reachable state each
      payout of a payee starts where the payee's last one ended. */
  lemma {:induction false} PeriodsAlwaysChain(states: seq<Db>, moments: seq<Moment>, i: nat, payee: Payee)
    requires Run(states, moments) && i < |states| && payee in states[0].payees
    ensures states[i].payees == states[0].payees
    ensures Chained(states[i].payouts, payee, states[0].payees[payee])
  {
    hide Next;
    hide Legal;
    PayeesStay(states, moments, i);
    if i > 0 {
      PeriodsAlwaysChain(states, moments, i - 1, payee);
      NextKeepsChain(states[i - 1], moments[i - 1].op, moments[i - 1].now, payee);
    }
  }

  /** Each of the payee's payouts ended, when it went in, beyond the last one. */
  ghost predicate EndsBeyondTheLast(states: seq<Db>, moments: seq<Moment>, payee: Payee) {
    forall i: nat :: i < |moments| && i < |states| && PaysTo(states, moments, i, payee) ==>
      FreshCutoff(states[i], moments[i].op)
  }

  lemma {:induction false} TilesWhileFresh(states: seq<Db>, moments: seq<Moment>, i: nat, payee: Payee)
    requires Run(states, moments) && EndsBeyondTheLast(states, moments, payee) && i < |states| && payee in states[0].payees
    ensures states[i].payees == states[0].payees
    ensures Tiled(states[i].payouts, payee, states[0].payees[payee])
  {
    hide Next;
    hide Legal;
    hide FreshCutoff;
    hide AwardOf;
    PayeesStay(states, moments, i);
    if i > 0 {
      TilesWhileFresh(states, moments, i - 1, payee);
      NextKeepsTiling(states[i - 1], moments[i - 1].op, moments[i - 1].now, payee);
    }
  }

  /** A payee's periods tile time in every state, without gap or overlap, exactly
      when every payout's end lay beyond the payee's last period as it went in. */
  lemma PeriodsTileIff(states: seq<Db>, moments: seq<Moment>, payee: Payee)
    requires Run(states, moments) && payee in states[0].payees
    ensures (forall i: nat :: i < |states| ==> Tiled(states[i].payouts, payee, states[0].payees[payee]))
            <==> EndsBeyondTheLast(states, moments, payee)
  {
    hide Next;
    hide Legal;
    hide AwardOf;
    if EndsBeyondTheLast(states, moments, payee) {
      forall i: nat | i < |states| ensures Tiled(states[i].payouts, payee, states[0].payees[payee]) {
        TilesWhileFresh(states, moments, i, payee);
      }
    } else {
      var i: nat :| i < |moments| && i < |states| && PaysTo(states, moments, i, payee) && !FreshCutoff(states[i], moments[i].op);
      PayeesStay(states, moments, i);
      if Tiled(states[i].payouts, payee, states[0].payees[payee]) {
        AwardTilesIffFresh(states[i], moments[i].op, moments[i].now);
        assert !Tiled(states[i + 1].payouts, payee, states[0].payees[payee]);
      }
    }
  }

  /** Every payout row was put in by some earlier award, whose net and period it
      still carries. */
  lemma {:induction false} AwardedBy(states: seq<Db>, moments: seq<Moment>, i: nat, p: nat) returns (j: nat)
    requires Run(states, moments) && i < |states| && p < |states[i].payouts|
    ensures j < i && AwardAt(states, moments, j).Some? && p == |states[j].payouts|
    ensures SamePeriod(states[i].payouts[p], AwardRow(AwardAt(states, moments, j).value))
  {
    hide Next;
    hide Legal;
    hide AwardOf;
    var s, m := states[i - 1], moments[i - 1];
    if AwardOf(s, m.op).Some? {
      AwardIsGuarded(s, m.op, m.now);
    } else {
      OtherwisePeriodsStay(s, m.op, m.now);
    }
    if p < |s.payouts| {
      j := AwardedBy(states, moments, i - 1, p);
    } else {
      j := i - 1;
    }
  }

  lemma {:induction false} FrontierIsAnEnd(payouts: seq<Payout>, payee: Payee, since: Time) returns (q: nat)
    ensures Frontier(payouts, payee, since) == since
            || (q < |payouts| && payouts[q].payee == payee && payouts[q].periodEnd == Frontier(payouts, payee, since))
  {
    if payouts == [] {
      q := 0;
    } else if payouts[|payouts| - 1].payee == payee {
      q := |payouts| - 1;
    } else {
      q := FrontierIsAnEnd(payouts[..|payouts| - 1], payee, since);
    }
  }

  /** So every end is beyond the payee's last period. */
  lemma PayeeClockIsFresh(states: seq<Db>, moments: seq<Moment>, i: nat)
    requires Run(states, moments) && PayeeClock(states, moments) && i < |moments|
    ensures FreshCutoff(states[i], moments[i].op)
  {
    hide Next;
    hide Legal;
    hide AwardOf;
    var s := states[i];
    if AwardAt(states, moments, i).Some? && AwardAt(states, moments, i).value.payee in s.payees {
      var a := AwardAt(states, moments, i).value;
      var q := FrontierIsAnEnd(s.payouts, a.payee, s.payees[a.payee]);
      if Frontier(s.payouts, a.payee, s.payees[a.payee]) != s.payees[a.payee] {
        var j := AwardedBy(states, moments, i, q);
        assert s.payouts[q].periodEnd == AwardAt(states, moments, j).value.end <= moments[j].now;
      }
    }
  }

  /** So a clock that rises payee by payee tiles every payee's time, through any
      mix of crons, cashouts, transfers, failures and retries. */
  lemma PeriodsAlwaysTile(states: seq<Db>, moments: seq<Moment>, i: nat, payee: Payee)
    requires Run(states, moments) && PayeeClock(states, moments) && i < |states| && payee in states[0].payees
    ensures states[i].payees == states[0].payees
    ensures Tiled(states[i].payouts, payee, states[0].payees[payee])
  {
    hide Next;
    hide Legal;
    hide FreshCutoff;
    hide PayeeClock;
    hide AwardOf;
    forall j: nat | j < |moments| ensures FreshCutoff(states[j], moments[j].op) {
      PayeeClockIsFresh(states, moments, j);
    }
    TilesWhileFresh(states, moments, i, payee);
  }

  /** Only registered vendors and riders are ever paid out. */
  lemma PayeesAreRegistered(states: seq<Db>, moments: seq<Moment>, i: nat, p: nat)
    requires Run(states, moments) && i < |states| && p < |states[i].payouts|
    ensures states[i].payouts[p].payee in states[0].payees && states[i].payees == states[0].payees
  {
    hide Next;
    hide Legal;
    hide AwardOf;
    var j := AwardedBy(states, moments, i, p);
    AwardIsGuarded(states[j], moments[j].op, moments[j].now);
    PayeesStay(states, moments, j);
    PayeesStay(states, moments, i);
  }

  /** Every payout ever scheduled is worth at least the vendor minimum. */
  lemma NetsReachTheMinimum(states: seq<Db>, moments: seq<Moment>, i: nat, p: nat)
    requires Run(states, moments) && i < |states| && p < |states[i].payouts|
    ensures states[i].payouts[p].netXAF >= MIN_VENDOR_PAYOUT_XAF
  {
    hide Next;
    hide Legal;
    hide AwardOf;
    var j := AwardedBy(states, moments, i, p);
    AwardIsGuarded(states[j], moments[j].op, moments[j].now);
  }

  // ── Passes ───────────────────────────────────────────────────────────

  /** Since moment `lo` the pass that made award `i` has paid no payee twice, and
      it took its start, the award's end, after everything before `lo`. */
  ghost predicate PassSince(states: seq<Db>, moments: seq<Moment>, lo: nat, i: nat)
    requires i < |moments| && i < |states| && AwardAt(states, moments, i).Some?
  {
    var a := AwardAt(states, moments, i).value;
    && lo <= i
    && (lo > 0 ==> moments[lo - 1].now < a.end)
    && forall j :: lo <= j < i && AwardAt(states, moments, j).Some? ==> AwardAt(states, moments, j).value.payee != a.payee
  }

  /** Every payout is a row of some pass: a cron's, or a single approval. Rows of
      one pass share their end, and other requests may run between them. */
  ghost predicate PaidInPasses(states: seq<Db>, moments: seq<Moment>) {
    forall i: nat :: i < |moments| && i < |states| && AwardAt(states, moments, i).Some? ==>
      && (AwardAt(states, moments, i).value.payee in states[i].payees ==>
            states[i].payees[AwardAt(states, moments, i).value.payee] < AwardAt(states, moments, i).value.end)
      && AwardAt(states, moments, i).value.end <= moments[i].now
      && exists lo: nat :: PassSince(states, moments, lo, i)
  }

  lemma {:induction false} ClockNeverFalls(states: seq<Db>, moments: seq<Moment>, i: nat, j: nat)
    requires Run(states, moments) && i <= j < |moments|
    ensures moments[i].now <= moments[j].now
    decreases j - i
  {
    hide Apply;
    hide Legal;
    if i < j {
      ClockNeverFalls(states, moments, i, j - 1);
    }
  }

  lemma {:induction false} ClockIsBehind(states: seq<Db>, moments: seq<Moment>, i: nat)
    requires Run(states, moments) && i < |states|
    ensures forall j: nat :: j < i ==> moments[j].now <= states[i].clock
    ensures forall p :: p in states[i].payees ==> states[i].payees[p] <= states[i].clock
  {
    hide Apply;
    hide Legal;
    if i > 0 {
      ClockIsBehind(states, moments, i - 1);
      PayeesNeverChange(states[i - 1], moments[i - 1].op, moments[i - 1].now);
    }
  }

  /** Passes that start strictly after whatever precedes them keep every payee's
      clock, although a pass stamps all its payouts with one end. */
  lemma PassesKeepThePayeeClock(states: seq<Db>, moments: seq<Moment>)
    requires Run(states, moments) && PaidInPasses(states, moments)
    ensures PayeeClock(states, moments)
  {
    hide Next;
    hide Legal;
    hide AwardOf;
    forall i: nat, j: nat | j < i < |moments| && AwardAt(states, moments, i).Some? && AwardAt(states, moments, j).Some?
                            && AwardAt(states, moments, j).value.payee == AwardAt(states, moments, i).value.payee
      ensures moments[j].now < AwardAt(states, moments, i).value.end
    {
      var lo: nat :| PassSince(states, moments, lo, i);
      ClockNeverFalls(states, moments, j, lo - 1);
    }
  }

  // ── Stale reads ──────────────────────────────────────────────────────

  /** The reads of a scheduling path, each answered by a state of the run: the
      balance's cutoff, its sum, the dispute count, the period's start. */
  ghost predicate ReadFrom(states: seq<Db>, payee: Payee, seen: Reading, a: nat, b: nat, c: nat, d: nat) {
    && a <= b <= c <= d < |states| && payee in states[d].payees
    && seen.balanceXAF == 0 - Window(states[b].ledger, payee, Cutoff(states[a].payouts, payee))
    && (payee.Vendor? ==> seen.disputed == OpenDispute(states[c], payee.id))
    && seen.start == PeriodStart(states[d], payee)
  }

  lemma {:induction false} PeriodsPersist(states: seq<Db>, moments: seq<Moment>, i: nat, j: nat)
    requires Run(states, moments) && i <= j < |states|
    ensures |states[i].payouts| <= |states[j].payouts|
    ensures SamePeriods(states[i].payouts, states[j].payouts[..|states[i].payouts|])
    decreases j - i
  {
    hide Next;
    hide Legal;
    hide AwardOf;
    if i < j {
      PeriodsPersist(states, moments, i, j - 1);
      var s, m := states[j - 1], moments[j - 1];
      if AwardOf(s, m.op).Some? {
        AwardIsGuarded(s, m.op, m.now);
      } else {
        OtherwisePeriodsStay(s, m.op, m.now);
      }
    }
  }

  /** Whatever a request read earlier in the run is a legal start for its later
      insert: the transition system's stale reads lose nothing. */
  lemma EarlierStartsAreLegal(states: seq<Db>, moments: seq<Moment>, d: nat, i: nat, payee: Payee)
    requires Run(states, moments) && d <= i < |states| && payee in states[d].payees
    ensures StartRead(states[i], payee, PeriodStart(states[d], payee))
  {
    hide Next;
    hide Legal;
    PayeesStay(states, moments, d);
    PayeesStay(states, moments, i);
    PeriodsPersist(states, moments, d, i);
    if Cutoff(states[d].payouts, payee).Some? {
      var q := CutoffIsAnEnd(states[d].payouts, payee);
      assert states[i].payouts[..|states[d].payouts|][q] == states[i].payouts[q];
    }
  }

  /** A payee's next payout waits for the last one: between its start read and
      its insert no other payout can have gone in, and the last one's transfer
      had been sent by the time the start was read. */
  lemma NextPayoutWaitsForTheLast(states: seq<Db>, moments: seq<Moment>, i: nat, p: nat, seen: Reading,
                                  a: nat, b: nat, c: nat, d: nat)
    requires Run(states, moments) && PayeeClock(states, moments) && i < |moments|
    requires AwardAt(states, moments, i).Some? && seen.start == AwardAt(states, moments, i).value.start
    requires ReadFrom(states, AwardAt(states, moments, i).value.payee, seen, a, b, c, d) && d <= i
    requires p < |states[i].payouts| && states[i].payouts[p].payee == AwardAt(states, moments, i).value.payee
    requires forall q :: p < q < |states[i].payouts| ==> states[i].payouts[q].payee != states[i].payouts[p].payee
    ensures p < |states[d].payouts| && Settles(states[d].payouts[p], states[i].payouts[p].payee)
  {
    hide Next;
    hide Legal;
    hide AwardOf;
    var s, payee := states[i], states[i].payouts[p].payee;
    PayeesAreRegistered(states, moments, i, p);
    var since := states[0].payees[payee];
    AwardIsGuarded(s, moments[i].op, moments[i].now);
    PeriodsAlwaysTile(states, moments, i, payee);
    TiledIsChained(s.payouts, payee, since);
    AwardStartsAtTheFrontier(s, moments[i].op);
    LastIsTheFrontier(s.payouts, payee, since, p);
    FrontierBounds(s.payouts, payee, since, p);
    PayeesStay(states, moments, d);
    var q := CutoffIsAnEnd(states[d].payouts, payee);
    PeriodsPersist(states, moments, d, i);
    assert s.payouts[..|states[d].payouts|][q] == s.payouts[q];
    if q < p {
      PeriodsAreOrdered(s.payouts, payee, since, q, p);
    }
  }

  lemma {:induction false} LastIsTheFrontier(payouts: seq<Payout>, payee: Payee, since: Time, p: nat)
    requires p < |payouts| && payouts[p].payee == payee
    requires forall q :: p < q < |payouts| ==> payouts[q].payee != payee
    ensures Frontier(payouts, payee, since) == payouts[p].periodEnd
  {
    if p < |payouts| - 1 {
      assert payouts[|payouts| - 1].payee != payee;
      LastIsTheFrontier(payouts[..|payouts| - 1], payee, since, p);
    }
  }
}
