/** What a scheduling path's reads can miss when other writers run between them. */
module PayoutRaces {
  import opened Common
  import opened Ledger
  import opened Orders
  import opened OrderBooks
  import opened Payouts
  import opened Platform
  import opened PlatformInvariant
  import opened PlatformRuns
  import opened PayoutPeriods
  import opened PayoutTurns
  import opened PayoutBalance

  /** A pass takes its end before its first read, an approval after its last:
      the reads began in state `a` and ended in state `d`. */
  ghost predicate EndTaken(states: seq<Db>, moments: seq<Moment>, op: Op, a: nat, d: nat) {
    match op
    case PayVendor(_, _, end) => a < |moments| && end <= moments[a].now
    case PayRider(_, _, _, end) => a < |moments| && end <= moments[a].now
    case GrantCashout(_, _, _, end) => d < |states| && states[d].clock <= end
    case _ => true
  }

  function SeenBy(op: Op): Reading {
    match op
    case PayVendor(_, seen, _) => seen
    case PayRider(_, _, seen, _) => seen
    case GrantCashout(_, _, seen, _) => seen
    case _ => Reading(0, false, 0)
  }

  /** A payout the code can make: its reads, in their order, were answered by the
      run, and its end was taken where the path takes it. */
  ghost predicate Honest(states: seq<Db>, moments: seq<Moment>, i: nat, a: nat, b: nat, c: nat, d: nat)
    requires i < |moments| && i < |states|
  {
    && AwardAt(states, moments, i).Some? && d <= i
    && ReadFrom(states, AwardAt(states, moments, i).value.payee, SeenBy(moments[i].op), a, b, c, d)
    && EndTaken(states, moments, moments[i].op, a, d) && AwardAt(states, moments, i).value.end <= moments[i].now
  }

  /** Between the first read of a pass and its insert no other payout of the
      payee goes in, as long as the payee's clock rises: what overtakes a pass
      breaks that clock. */
  lemma PassIsNotOvertaken(states: seq<Db>, moments: seq<Moment>, i: nat, j: nat, a: nat, b: nat, c: nat, d: nat)
    requires Run(states, moments) && PayeeClock(states, moments) && i < |moments| && Honest(states, moments, i, a, b, c, d)
    requires !moments[i].op.GrantCashout? && a <= j < i
    ensures !PaysTo(states, moments, j, AwardAt(states, moments, i).value.payee)
  {
    hide Next;
    hide Legal;
    ClockNeverFalls(states, moments, a, j);
  }

  // ── Overtaken ────────────────────────────────────────────────────────

  lemma {:induction false} HeldIff(payouts: seq<Payout>, payee: Payee, start: Time)
    ensures PeriodHolder(payouts, payee, start).None?
            <==> forall p :: 0 <= p < |payouts| && payouts[p].payee == payee ==> payouts[p].periodStart != start
  {
    if payouts != [] {
      var init := payouts[..|payouts| - 1];
      assert forall p :: 0 <= p < |init| ==> init[p] == payouts[p];
      HeldIff(init, payee, start);
    }
  }

  lemma {:induction false} CutoffIsLatest(payouts: seq<Payout>, payee: Payee, q: nat)
    requires q < |payouts| && Settles(payouts[q], payee)
    ensures Cutoff(payouts, payee).Some? && payouts[q].periodEnd <= Cutoff(payouts, payee).value
  {
    if q < |payouts| - 1 {
      CutoffIsLatest(payouts[..|payouts| - 1], payee, q);
    }
  }

  /** A payout goes in only if, as its start was read, no sent one of its payee
      ended later than the payee's last. */
  lemma NoSentPayoutEndsLater(states: seq<Db>, moments: seq<Moment>, i: nat, d: nat, q: nat)
    requires Run(states, moments) && d <= i < |moments| && AwardAt(states, moments, i).Some?
    requires AwardAt(states, moments, i).value.payee in states[d].payees
    requires AwardAt(states, moments, i).value.start == PeriodStart(states[d], AwardAt(states, moments, i).value.payee)
    requires q < |states[d].payouts| && Settles(states[d].payouts[q], AwardAt(states, moments, i).value.payee)
    ensures var payee := AwardAt(states, moments, i).value.payee;
            && payee in states[i].payees
            && states[d].payouts[q].periodEnd <= Frontier(states[i].payouts, payee, states[i].payees[payee])
  {
    hide Next;
    hide Legal;
    hide AwardOf;
    var payee := AwardAt(states, moments, i).value.payee;
    PayeesStay(states, moments, d);
    PeriodsAlwaysChain(states, moments, i, payee);
    AwardStartsAtTheFrontier(states[i], moments[i].op);
    CutoffIsLatest(states[d].payouts, payee, q);
  }

  /** What was a start before an insert is held after it. */
  lemma OldStartsAreHeld(states: seq<Db>, moments: seq<Moment>, d: nat, o: nat, i: nat, payee: Payee)
    requires Run(states, moments) && d <= o < i < |states| && PaysTo(states, moments, o, payee) && payee in states[d].payees
    ensures PeriodHolder(states[i].payouts, payee, PeriodStart(states[d], payee)).Some?
  {
    hide Next;
    hide Legal;
    hide AwardOf;
    var s, v := states[o], PeriodStart(states[d], payee);
    PayeesStay(states, moments, d);
    PeriodsAlwaysChain(states, moments, o, payee);
    EarlierStartsAreLegal(states, moments, d, o, payee);
    AwardIsGuarded(s, moments[o].op, moments[o].now);
    AwardStartsAtTheFrontier(s, moments[o].op);
    HeldIff(s.payouts, payee, v);
    var p := |s.payouts|;
    if PeriodHolder(s.payouts, payee, v).None? {
      FreeStartIsFrontier(s.payouts, payee, s.payees[payee], v);
    } else {
      p :| 0 <= p < |s.payouts| && s.payouts[p].payee == payee && s.payouts[p].periodStart == v;
    }
    PeriodsPersist(states, moments, o + 1, i);
    assert states[i].payouts[..|states[o + 1].payouts|][p] == states[i].payouts[p];
    HeldIff(states[i].payouts, payee, v);
  }

  /** While the payout that overtook stays sent, the payee waits: after a payout
      that ended before one already sent, none whose start some state answered
      goes in. */
  lemma {:induction false} OvertakenPayeeWaits(states: seq<Db>, moments: seq<Moment>, o: nat, k: nat, payee: Payee, q: nat)
    requires Run(states, moments) && o < k <= |moments| && PaysTo(states, moments, o, payee) && q < |states[o].payouts|
    requires AwardAt(states, moments, o).value.end < states[o].payouts[q].periodEnd
    requires forall m: nat :: o <= m < k ==> q < |states[m].payouts| && Settles(states[m].payouts[q], payee)
    requires forall m: nat :: o < m < k && PaysTo(states, moments, m, payee) ==>
               exists d: nat :: d <= m && payee in states[d].payees
                                && PeriodStart(states[d], payee) == AwardAt(states, moments, m).value.start
    ensures forall m: nat :: o < m < k ==> !PaysTo(states, moments, m, payee)
    ensures payee in states[0].payees
            && Frontier(states[k].payouts, payee, states[0].payees[payee]) == AwardAt(states, moments, o).value.end
    decreases k
  {
    hide Next;
    hide Legal;
    hide AwardOf;
    var m := k - 1;
    AwardIsGuarded(states[o], moments[o].op, moments[o].now);
    PayeesStay(states, moments, o);
    if o < m {
      OvertakenPayeeWaits(states, moments, o, m, payee, q);
      PayeesStay(states, moments, m);
      if PaysTo(states, moments, m, payee) {
        var d: nat :| d <= m && payee in states[d].payees
                      && PeriodStart(states[d], payee) == AwardAt(states, moments, m).value.start;
        AwardIsGuarded(states[m], moments[m].op, moments[m].now);
        if d <= o {
          OldStartsAreHeld(states, moments, d, o, m, payee);
        } else {
          PeriodsPersist(states, moments, o, d);
          assert states[d].payouts[..|states[o].payouts|][q] == states[d].payouts[q];
          NoSentPayoutEndsLater(states, moments, m, d, q);
        }
        assert false;
      }
      FrontierStays(states, moments, m, payee);
    }
  }

  lemma FrontierStays(states: seq<Db>, moments: seq<Moment>, m: nat, payee: Payee)
    requires Run(states, moments) && m < |moments| && !PaysTo(states, moments, m, payee) && payee in states[0].payees
    ensures Frontier(states[m + 1].payouts, payee, states[0].payees[payee])
         == Frontier(states[m].payouts, payee, states[0].payees[payee])
  {
    hide Next;
    hide Legal;
    hide AwardOf;
    if AwardAt(states, moments, m).Some? {
      AwardIsGuarded(states[m], moments[m].op, moments[m].now);
      var after := states[m + 1].payouts;
      assert after[..|after| - 1] == states[m].payouts;
    } else {
      OtherwisePeriodsStay(states[m], moments[m].op, moments[m].now);
      TiledReadsPeriodsOnly(states[m].payouts, states[m + 1].payouts, payee, states[0].payees[payee]);
    }
  }

  // ── A payout goes in between another path's reads ────────────────────

  /** A vendor that a pass would schedule now. */
  ghost predicate Schedulable(s: Db, vendor: nat) {
    && Vendor(vendor) in s.payees
    && Balance(s.ledger, s.payouts, Vendor(vendor)) >= MIN_VENDOR_PAYOUT_XAF
    && !OpenDispute(s, vendor)
    && PeriodHolder(s.payouts, Vendor(vendor), PeriodStart(s, Vendor(vendor))).None?
  }

  /** A pass's row for the vendor, or an approval of one of its requests. */
  predicate PaysVendor(s: Db, op: Op, vendor: nat, seen: Reading, end: Time) {
    || op == PayVendor(vendor, seen, end)
    || (op.GrantCashout? && op.pending && op.seen == seen && op.end == end
        && op.request < |s.cashouts| && s.cashouts[op.request].vendor == vendor)
  }

  lemma {:induction false} NoStartAfter(payouts: seq<Payout>, payee: Payee, start: Time)
    requires forall p :: 0 <= p < |payouts| && payouts[p].payee == payee ==> payouts[p].periodStart < start
    ensures PeriodHolder(payouts, payee, start).None?
  {
    if payouts != [] {
      var init := payouts[..|payouts| - 1];
      assert forall p :: 0 <= p < |init| ==> init[p] == payouts[p];
      NoStartAfter(init, payee, start);
    }
  }

  lemma EndsArePast(states: seq<Db>, moments: seq<Moment>, i: nat, p: nat)
    requires Run(states, moments) && PayeeClock(states, moments) && i < |states| && p < |states[i].payouts|
    ensures states[i].payouts[p].periodStart < states[i].payouts[p].periodEnd <= states[i].clock
  {
    hide Next;
    hide Legal;
    hide AwardOf;
    var j := AwardedBy(states, moments, i, p);
    ClockIsBehind(states, moments, i);
    var payee := states[i].payouts[p].payee;
    PayeesAreRegistered(states, moments, i, p);
    PeriodsAlwaysTile(states, moments, i, payee);
    FrontierBounds(states[i].payouts, payee, states[0].payees[payee], p);
  }

  /** A transition whose award, if any, ends after the clock keeps every payee's. */
  lemma PayeeClockExtends(states: seq<Db>, moments: seq<Moment>, m: Moment)
    requires Run(states, moments) && PayeeClock(states, moments)
    requires Legal(states[|moments|], m.op) && states[|moments|].clock <= m.now
    requires AwardOf(states[|moments|], m.op).Some? ==>
               states[|moments|].clock < AwardOf(states[|moments|], m.op).value.end <= m.now
    ensures Run(states + [Next(states[|moments|], m.op, m.now)], moments + [m])
    ensures PayeeClock(states + [Next(states[|moments|], m.op, m.now)], moments + [m])
  {
    hide Next;
    hide Legal;
    hide AwardOf;
    var ext, more := states + [Next(states[|moments|], m.op, m.now)], moments + [m];
    RunExtends(states, moments, m);
    ClockIsBehind(states, moments, |moments|);
    forall i: nat | i < |more| && AwardAt(ext, more, i).Some?
      ensures var a := AwardAt(ext, more, i).value;
              && (a.payee in ext[i].payees ==> ext[i].payees[a.payee] < a.end) && a.end <= more[i].now
              && forall j: nat :: j < i && AwardAt(ext, more, j).Some? && AwardAt(ext, more, j).value.payee == a.payee ==>
                   more[j].now < a.end
    {
      assert ext[i] == states[i];
      if i < |moments| {
        assert AwardAt(ext, more, i) == AwardAt(states, moments, i);
        assert forall j: nat :: j < i ==> AwardAt(ext, more, j) == AwardAt(states, moments, j) && more[j] == moments[j];
      } else {
        assert forall j: nat :: j < i ==> more[j] == moments[j];
      }
    }
  }

  lemma PaymentGoesIn(s: Db, op: Op, vendor: nat, seen: Reading, end: Time)
    requires PaysVendor(s, op, vendor, seen, end) && Vendor(vendor) in s.payees
    requires seen.balanceXAF >= MIN_VENDOR_PAYOUT_XAF && !seen.disputed
    requires PeriodHolder(s.payouts, Vendor(vendor), seen.start).None? && StartRead(s, Vendor(vendor), seen.start)
    ensures AwardOf(s, op) == Some(Award(Vendor(vendor), seen.balanceXAF, seen.start, end)) && Legal(s, op)
  {
  }

  lemma CashoutsKeepTheirVendor(s: Db, op: Op, now: Time)
    requires op.PayVendor? || op.GrantCashout? || op.Move?
    ensures var t := Next(s, op, now);
            |t.cashouts| == |s.cashouts| && forall r :: 0 <= r < |s.cashouts| ==> t.cashouts[r].vendor == s.cashouts[r].vendor
  {
  }

  lemma TransferOf(s: Db, id: nat, now: Time)
    requires id < |s.payouts| && s.payouts[id].status.PayoutPending?
    ensures var t := Next(s, Move(id, OpTransferLock), now);
            && t.payouts == s.payouts[id := s.payouts[id].(status := PayoutInFlight, callOpen := true)]
            && t.ledger == s.ledger && t.payees == s.payees && t.orders == s.orders && t.clock == now
    ensures AwardOf(s, Move(id, OpTransferLock)).None?
  {
  }

  lemma {:induction false} StartsAreOldEnds(payouts: seq<Payout>, payee: Payee, since: Time)
    requires Chained(payouts, payee, since)
    ensures forall p :: 0 <= p < |payouts| && payouts[p].payee == payee ==> payouts[p].periodStart <= Latest(payouts, payee, since)
  {
    if payouts != [] {
      var init := payouts[..|payouts| - 1];
      StartsAreOldEnds(init, payee, since);
      LatestBounds(init, payee, since);
      assert forall p :: 0 <= p < |init| ==> init[p] == payouts[p];
    }
  }

  /** What a payout and its transfer leave behind: a cutoff no payout starts at. */
  lemma CutoffMoves(payouts: seq<Payout>, payee: Payee, since: Time, row: Payout)
    requires Chained(payouts, payee, since) && Latest(payouts, payee, since) < row.periodEnd
    requires row.payee == payee && row.status.PayoutInFlight? && row.periodStart <= Latest(payouts, payee, since)
    ensures Cutoff(payouts + [row], payee) == Some(row.periodEnd)
    ensures PeriodHolder(payouts + [row], payee, row.periodEnd).None?
  {
    assert (payouts + [row])[..|payouts|] == payouts;
    LatestBounds(payouts, payee, since);
    StartsAreOldEnds(payouts, payee, since);
    if Cutoff(payouts, payee).Some? {
      var q := CutoffIsAnEnd(payouts, payee);
    }
    NoStartAfter(payouts + [row], payee, row.periodEnd);
  }

  /** A reads the balance; another path pays the vendor up to e1, beyond every
      earlier end, and the worker claims that payout; A then reads the period's
      start, which no payout holds, and inserts the balance it had read. */
  lemma Overtaken(states: seq<Db>, moments: seq<Moment>, vendor: nat, first: Op, e1: Time, t1: Time, late: Op, e2: Time, t2: Time)
    returns (ext: seq<Db>, more: seq<Moment>)
    requires Run(states, moments) && Schedulable(states[|moments|], vendor) && states[|moments|].clock <= t1 <= t2
    requires var s := states[|moments|]; var payee := Vendor(vendor); var net := Balance(s.ledger, s.payouts, payee);
             && Latest(s.payouts, payee, s.payees[payee]) < e1
             && PaysVendor(s, first, vendor, ReadNow(s, payee), e1)
             && PaysVendor(s, late, vendor, Reading(net, false, e1), e2)
    ensures Run(ext, more) && |more| == |moments| + 3 && states <= ext && moments <= more
    ensures var n, s, payee := |moments|, states[|moments|], Vendor(vendor); var net := Balance(s.ledger, s.payouts, payee);
            && more[n..] == [Moment(first, t1), Moment(Move(|s.payouts|, OpTransferLock), t1), Moment(late, t2)]
            && AwardAt(ext, more, n) == Some(Award(payee, net, PeriodStart(s, payee), e1))
            && AwardAt(ext, more, n + 1) == None
            && AwardAt(ext, more, n + 2) == Some(Award(payee, net, e1, e2))
            && ReadFrom(ext, payee, ReadNow(s, payee), n, n, n, n)
            && ReadFrom(ext, payee, Reading(net, false, e1), n, n, n, n + 2)
            && ext[n + 1].clock == ext[n + 2].clock == t1
            && |ext[n + 2].payouts| == |s.payouts| + 1 && Settles(ext[n + 2].payouts[|s.payouts|], payee)
            && ext[n + 2].payouts[|s.payouts|].periodEnd == e1
            && ext[n + 3].payouts == ext[n + 2].payouts + [AwardRow(Award(payee, net, e1, e2))]
            && FullBalance(ext[n + 3].ledger, payee) == FullBalance(s.ledger, payee) - 2 * net
  {
    hide Next;
    hide Legal;
    hide AwardOf;
    hide StartRead;
    var n, s, payee := |moments|, states[|moments|], Vendor(vendor);
    var net, q := Balance(s.ledger, s.payouts, payee), |s.payouts|;
    PayeesStay(states, moments, n);
    PeriodsAlwaysChain(states, moments, n, payee);
    // the other path
    EarlierStartsAreLegal(states, moments, n, n, payee);
    PaymentGoesIn(s, first, vendor, ReadNow(s, payee), e1);
    AwardIsGuarded(s, first, t1);
    AwardStartsAtTheFrontier(s, first);
    LatestBounds(s.payouts, payee, s.payees[payee]);
    RunExtends(states, moments, Moment(first, t1));
    PayeesNeverChange(s, first, t1);
    CashoutsKeepTheirVendor(s, first, t1);
    ClockAfter(s, Moment(first, t1));
    var s1 := Next(s, first, t1);
    var ss, ms := states + [s1], moments + [Moment(first, t1)];
    // its transfer is claimed
    var lock := Move(q, OpTransferLock);
    TransferOf(s1, q, t1);
    LegalMove(s1, q);
    RunExtends(ss, ms, Moment(lock, t1));
    CashoutsKeepTheirVendor(s1, lock, t1);
    var s2 := Next(s1, lock, t1);
    ss, ms := ss + [s2], ms + [Moment(lock, t1)];
    var row := s1.payouts[q].(status := PayoutInFlight, callOpen := true);
    assert s2.payouts == s.payouts + [row];
    CutoffMoves(s.payouts, payee, s.payees[payee], row);
    // A reads the start, and inserts what it had read
    EarlierStartsAreLegal(ss, ms, n + 2, n + 2, payee);
    PaymentGoesIn(s2, late, vendor, Reading(net, false, e1), e2);
    AwardIsGuarded(s2, late, t2);
    RunExtends(ss, ms, Moment(late, t2));
    ext, more := ss + [Next(s2, late, t2)], ms + [Moment(late, t2)];
    Debited(s.ledger, payee, q, net, t1);
    Debited(s1.ledger, payee, |s2.payouts|, net, t2);
  }

  /** Two payouts of one balance, the second's period from the first's end; the
      first was sent before the second went in. */
  ghost predicate PaidTwice(states: seq<Db>, moments: seq<Moment>, n: nat, payee: Payee, net: int, e1: Time, e2: Time)
    requires |states| == |moments| + 1 && n + 3 <= |moments|
  {
    var q := |states[n].payouts|;
    && payee in states[n].payees
    && AwardAt(states, moments, n) == Some(Award(payee, net, PeriodStart(states[n], payee), e1))
    && AwardAt(states, moments, n + 2) == Some(Award(payee, net, e1, e2))
    && FullBalance(states[n + 3].ledger, payee) == FullBalance(states[n].ledger, payee) - 2 * net
    && q < |states[n + 2].payouts| && Settles(states[n + 2].payouts[q], payee) && states[n + 2].payouts[q].periodEnd == e1
  }

  /** The same earnings paid twice: two admins approve one cashout request. Both
      read it pending and read its vendor's balance before either inserts; the
      second reads the period's start after the first's payout was sent. Every
      payee's clock rises throughout. */
  lemma SameEarningsPaidTwice(states: seq<Db>, moments: seq<Moment>, vendor: nat, request: nat, e1: Time, t1: Time, e2: Time, t2: Time)
    returns (ext: seq<Db>, more: seq<Moment>)
    requires Run(states, moments) && PayeeClock(states, moments) && Schedulable(states[|moments|], vendor)
    requires request < |states[|moments|].cashouts|
             && states[|moments|].cashouts[request].vendor == vendor && states[|moments|].cashouts[request].status.PendingApproval?
    requires states[|moments|].clock < e1 <= t1 < e2 <= t2
    ensures Run(ext, more) && PayeeClock(ext, more) && |more| == |moments| + 3 && states <= ext && moments <= more
    ensures var n, s, payee := |moments|, states[|moments|], Vendor(vendor);
            var net := Balance(s.ledger, s.payouts, payee);
            && more[n].op.GrantCashout? && more[n].op.request == request && Honest(ext, more, n, n, n, n, n)
            && more[n + 2].op.GrantCashout? && more[n + 2].op.request == request && Honest(ext, more, n + 2, n, n, n, n + 2)
            && PaidTwice(ext, more, n, payee, net, e1, e2)
  {
    hide Next;
    hide Legal;
    hide AwardOf;
    hide PayeeClock;
    var n, s, payee := |moments|, states[|moments|], Vendor(vendor);
    var net := Balance(s.ledger, s.payouts, payee);
    LatestIsPast(states, moments, payee);
    ext, more := Overtaken(states, moments, vendor, GrantCashout(request, true, ReadNow(s, payee), e1), e1, t1,
                           GrantCashout(request, true, Reading(net, false, e1), e2), e2, t2);
    assert more == moments + more[n..];
    assert more[n] == more[n..][0] && more[n + 1] == more[n..][1] && more[n + 2] == more[n..][2];
    assert ext[..n + 1] == states && more[..n] == moments && ext[..n + 4] == ext && more[..n + 3] == more;
    PayeeClockGrows(ext, more, n);
    PayeeClockGrows(ext, more, n + 1);
    PayeeClockGrows(ext, more, n + 2);
  }

  lemma LatestIsPast(states: seq<Db>, moments: seq<Moment>, payee: Payee)
    requires Run(states, moments) && PayeeClock(states, moments) && payee in states[|moments|].payees
    ensures Latest(states[|moments|].payouts, payee, states[|moments|].payees[payee]) <= states[|moments|].clock
  {
    hide Next;
    hide Legal;
    var n := |moments|;
    ClockIsBehind(states, moments, n);
    forall p | 0 <= p < |states[n].payouts| ensures states[n].payouts[p].periodEnd <= states[n].clock {
      EndsArePast(states, moments, n, p);
    }
    LatestIsAnEnd(states[n].payouts, payee, states[n].payees[payee], states[n].clock);
  }

  lemma {:induction false} LatestIsAnEnd(payouts: seq<Payout>, payee: Payee, since: Time, latest: Time)
    requires since <= latest && forall p :: 0 <= p < |payouts| ==> payouts[p].periodEnd <= latest
    ensures Latest(payouts, payee, since) <= latest
  {
    if payouts != [] {
      assert forall p :: 0 <= p < |payouts| - 1 ==> payouts[..|payouts| - 1][p] == payouts[p];
      LatestIsAnEnd(payouts[..|payouts| - 1], payee, since, latest);
    }
  }

  /** The payee's clock, one moment further along a run. */
  lemma PayeeClockGrows(ext: seq<Db>, more: seq<Moment>, k: nat)
    requires Run(ext, more) && k < |more| && PayeeClock(ext[..k + 1], more[..k])
    requires AwardAt(ext, more, k).Some? ==> ext[k].clock < AwardAt(ext, more, k).value.end <= more[k].now
    ensures PayeeClock(ext[..k + 2], more[..k + 1])
  {
    hide Next;
    hide Legal;
    hide AwardOf;
    hide PayeeClock;
    var states, moments := ext[..k + 1], more[..k];
    assert Run(states, moments);
    PayeeClockExtends(states, moments, more[k]);
    assert ext[..k + 2] == states + [Next(states[k], more[k].op, more[k].now)] && more[..k + 1] == moments + [more[k]];
  }

  /** A pass overtaken by another replica's. The first took its start S and read
      the balance; the second, begun later, pays the vendor and its transfer is
      claimed; the first then inserts a period that ends before it starts. The
      periods no longer tile, and the same balance is paid twice. */
  lemma OvertakenPassInverts(states: seq<Db>, moments: seq<Moment>, vendor: nat, begun: Time, e1: Time, t1: Time, t2: Time)
    returns (ext: seq<Db>, more: seq<Moment>)
    requires Run(states, moments) && Schedulable(states[|moments|], vendor)
    requires begun <= states[|moments|].clock <= t1 <= t2 && begun < e1 <= t1
    requires var s := states[|moments|]; Latest(s.payouts, Vendor(vendor), s.payees[Vendor(vendor)]) < e1
    ensures Run(ext, more) && |more| == |moments| + 3 && states <= ext && moments <= more
    ensures var n, s, payee := |moments|, states[|moments|], Vendor(vendor);
            var net := Balance(s.ledger, s.payouts, payee);
            && more[n].op.PayVendor? && Honest(ext, more, n, n, n, n, n)
            && more[n + 2].op.PayVendor? && Honest(ext, more, n + 2, n, n, n, n + 2)
            && PaidTwice(ext, more, n, payee, net, e1, begun) && !Tiled(ext[n + 3].payouts, payee, s.payees[payee])
  {
    hide Next;
    hide Legal;
    hide AwardOf;
    var n, s, payee := |moments|, states[|moments|], Vendor(vendor);
    var net := Balance(s.ledger, s.payouts, payee);
    ext, more := Overtaken(states, moments, vendor, PayVendor(vendor, ReadNow(s, payee), e1), e1, t1,
                           PayVendor(vendor, Reading(net, false, e1), begun), begun, t2);
    assert more[n] == more[n..][0] && more[n + 2] == more[n..][2];
    var payouts := ext[n + 3].payouts;
    assert payouts[|payouts| - 1].periodEnd < payouts[|payouts| - 1].periodStart;
  }

  /** Should the payout that overtook fail, the overtaken period's end is the
      next start, and the payee's next payout that covers anything covers again
      what the failed one covers. */
  lemma NextAfterOvertakenOverlaps(states: seq<Db>, moments: seq<Moment>, i: nat, payee: Payee)
    requires Run(states, moments) && i < |moments| && PaysTo(states, moments, i, payee)
    requires EndsAfterCreation(states, moments, payee) && Once(states[i].payouts, payee)
    requires payee in states[i].payees
    requires Frontier(states[i].payouts, payee, states[i].payees[payee]) < Latest(states[i].payouts, payee, states[i].payees[payee])
    ensures AwardAt(states, moments, i).value.start == Frontier(states[i].payouts, payee, states[i].payees[payee])
    ensures Once(states[i + 1].payouts, payee) <==> AwardAt(states, moments, i).value.end <= AwardAt(states, moments, i).value.start
  {
    hide Next;
    hide Legal;
    hide AwardOf;
    hide Once;
    hide EndsAfterCreation;
    PayeesStay(states, moments, i);
    PeriodsAlwaysChain(states, moments, i, payee);
    AwardStartsAtTheFrontier(states[i], moments[i].op);
    NextKeepsOnceIff(states, moments, i, payee);
  }

  lemma LegalMove(s: Db, id: nat)
    ensures Legal(s, Move(id, OpTransferLock))
  {
  }

  lemma ClockAfter(s: Db, m: Moment)
    ensures Next(s, m.op, m.now).clock == m.now
  {
  }

  lemma Debited(ledger: seq<Row>, payee: Payee, id: nat, net: int, now: Time)
    requires net != 0
    ensures FullBalance(ledger + Rows(PayoutTxn(payee, id, net), now), payee) == FullBalance(ledger, payee) - net
  {
    TotalOfAppend(ledger, Rows(PayoutTxn(payee, id, net), now), Payable(payee));
    PayoutReconciles(payee, id, net, now, Payable(payee));
  }
}
