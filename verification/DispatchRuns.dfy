/** Dispatch of one order inside a run of the whole platform. */
module DispatchRuns {
  import opened Common
  import opened Ledger
  import opened Orders
  import opened OrderInvariants
  import opened OrderBooks
  import opened Dispatch
  import opened Platform
  import opened PlatformInvariant
  import opened PlatformRuns
  import opened RowRuns

  /** Something of another service, or a step of the order's dispatch chains. */
  datatype Act = Ran(op: Op) | Job(step: Step)

  datatype Stamped = Stamped(act: Act, now: Time)

  /** The tables, with the events, jobs and attempts that the order has under way. */
  datatype Watched = Watched(db: Db, chains: Dispatching)

  /** The write a dispatch step makes, if it makes one. */
  function JobOp(id: nat, s: Dispatching, step: Step): Option<Op> {
    match step
    case Claim(which, candidate) =>
      if which < |s.active| && ClaimVerdict(s.row, s.active[which], candidate).Assigned?
      then Some(Write(id, OpAssignRider(ClaimVerdict(s.row, s.active[which], candidate).rider))) else None
    case GiveUp => Some(Write(id, OpExpireForNoRider))
    case _ => None
  }

  /** ORDER_ACCEPTED is raised by the acceptance that goes through. */
  predicate Raises(w: Watched, op: Op, now: Time, id: nat) {
    var write := RowOp(w.db, op, now, id);
    write.Some? && write.value.OpAccept?
  }

  function Acted(id: nat, w: Watched, m: Stamped): Watched {
    match m.act
    case Ran(op) =>
      var after, news := Next(w.db, op, m.now), if Raises(w, op, m.now, id) then 1 else 0;
      Watched(after, w.chains.(row := if id < |after.orders| then after.orders[id] else w.chains.row,
                               events := w.chains.events + news, accepts := w.chains.accepts + news))
    case Job(step) =>
      var op := JobOp(id, w.chains, step);
      Watched(if op.Some? then Next(w.db, op.value, m.now) else w.db, Stepped(id, w.chains, step))
  }

  /** No other service assigns this order's rider or gives up on it. */
  ghost predicate MayAct(id: nat, w: Watched, m: Stamped) {
    && w.db.clock <= m.now
    && match m.act
       case Ran(op) => Legal(w.db, op) && (op.Write? && op.order == id ==> !op.write.OpAssignRider? && !op.write.OpExpireForNoRider?)
       case Job(step) => !step.Elsewhere? && Allowed(w.chains, step)
  }

  /** From a state of a run in which the order is new and without a rider. */
  ghost predicate Attended(states: seq<Db>, moments: seq<Moment>, id: nat, ws: seq<Watched>, acts: seq<Stamped>) {
    && Run(states, moments) && id < |states[|moments|].orders| && |ws| == |acts| + 1
    && states[|moments|].orders[id].status.Pending? && states[|moments|].orders[id].riderId.None?
    && ws[0] == Watched(states[|moments|], Dispatching(states[|moments|].orders[id], 0, {}, [], 0, 0, 0))
    && forall k :: 0 <= k < |acts| ==> MayAct(id, ws[k], acts[k]) && ws[k + 1] == Acted(id, ws[k], acts[k])
  }

  // ── One act, on both sides ───────────────────────────────────────────

  /** A write whose reference another order holds goes through only as a rollback. */
  function Untaken(op: OrderOp, taken: bool): OrderOp {
    if op.OpRefundAccepted? && taken then OpRefundRejected else op
  }

  lemma TakenWritesRollBack(id: nat, row: Order, op: OrderOp, taken: bool, now: Time)
    requires StepOrder(id, row, op, taken, now).Ok?
    ensures StepOrder(id, row, Untaken(op, taken), false, now) == StepOrder(id, row, op, taken, now)
  {
    hide Refusal;
  }

  /** Another service's transition is one step of the order's dispatch, or none. */
  lemma RanIsElsewhere(id: nat, w: Watched, op: Op, now: Time) returns (step: Option<Step>)
    requires Legal(w.db, op) && (op.Write? && op.order == id ==> !op.write.OpAssignRider? && !op.write.OpExpireForNoRider?)
    requires id < |w.db.orders| && w.chains.row == w.db.orders[id]
    ensures var t := Acted(id, w, Stamped(Ran(op), now));
            && id < |t.db.orders| && t.chains.row == t.db.orders[id]
            && (step.None? ==> t.chains == w.chains)
            && (step.Some? ==> Allowed(w.chains, step.value) && t.chains == Stepped(id, w.chains, step.value))
  {
    hide Next;
    hide Legal;
    hide StepOrder;
    hide TallyOf;
    hide Earlier;
    NextIsOneWrite(w.db, op, now, id);
    var write := RowOp(w.db, op, now, id);
    if write.None? {
      step := None;
    } else {
      var taken := ReferenceClash(w.db, id, write.value);
      RowOpIsPossible(w.db, op, now, id);
      TakenWritesRollBack(id, w.db.orders[id], write.value, taken, now);
      step := Some(Elsewhere(Untaken(write.value, taken), now));
    }
  }

  /** A dispatch step writes on the platform what it does to the order's row. */
  lemma JobWritesItsRow(id: nat, w: Watched, step: Step, now: Time)
    requires id < |w.db.orders| && w.chains.row == w.db.orders[id] && !step.Elsewhere? && Allowed(w.chains, step)
    ensures var t := Acted(id, w, Stamped(Job(step), now));
            && |t.db.orders| == |w.db.orders| && t.chains.row == t.db.orders[id]
            && (JobOp(id, w.chains, step).Some? ==> Legal(w.db, JobOp(id, w.chains, step).value))
  {
  }

  // ── The projection ───────────────────────────────────────────────────

  /** Whatever the platform does around it, what dispatch does to an order is a
      dispatch run of that order, and the tables pass through a platform run. */
  lemma {:induction false} PlatformRunsProject(states: seq<Db>, moments: seq<Moment>, id: nat, ws: seq<Watched>, acts: seq<Stamped>, k: nat)
    returns (ext: seq<Db>, more: seq<Moment>, chains: seq<Dispatching>, steps: seq<Step>)
    requires Attended(states, moments, id, ws, acts) && k <= |acts|
    ensures Run(ext, more) && states <= ext && moments <= more && ext[|more|] == ws[k].db
    ensures DispatchRun(id, chains, steps) && chains[|steps|] == ws[k].chains
    ensures id < |ws[k].db.orders| && ws[k].chains.row == ws[k].db.orders[id]
  {
    hide Next;
    hide Legal;
    hide Stepped;
    hide Allowed;
    hide Acted;
    hide JobOp;
    if k == 0 {
      ext, more, chains, steps := states, moments, [ws[0].chains], [];
    } else {
      ext, more, chains, steps := PlatformRunsProject(states, moments, id, ws, acts, k - 1);
      var w, m := ws[k - 1], acts[k - 1];
      match m.act {
        case Ran(op) =>
          var step := RanIsElsewhere(id, w, op, m.now);
          RunExtends(ext, more, Moment(op, m.now));
          ActedTables(id, w, m);
          ext, more := ext + [Next(w.db, op, m.now)], more + [Moment(op, m.now)];
          if step.Some? {
            DispatchExtends(id, chains, steps, step.value);
            chains, steps := chains + [Stepped(id, w.chains, step.value)], steps + [step.value];
          }
        case Job(step) =>
          JobWritesItsRow(id, w, step, m.now);
          ActedTables(id, w, m);
          var op := JobOp(id, w.chains, step);
          if op.Some? {
            RunExtends(ext, more, Moment(op.value, m.now));
            ext, more := ext + [Next(w.db, op.value, m.now)], more + [Moment(op.value, m.now)];
          }
          DispatchExtends(id, chains, steps, step);
          chains, steps := chains + [Stepped(id, w.chains, step)], steps + [step];
      }
    }
  }

  lemma ActedTables(id: nat, w: Watched, m: Stamped)
    ensures m.act.Ran? ==> Acted(id, w, m).db == Next(w.db, m.act.op, m.now)
    ensures m.act.Job? ==>
              && Acted(id, w, m).chains == Stepped(id, w.chains, m.act.step)
              && Acted(id, w, m).db == if JobOp(id, w.chains, m.act.step).Some?
                                       then Next(w.db, JobOp(id, w.chains, m.act.step).value, m.now) else w.db
  {
  }

  /** So on the platform: at most ten attempts per acceptance that went through;
      once nothing of dispatch is left, the order has its rider, is closed, or is
      back before its acceptance. */
  lemma PlatformAttemptsAreBounded(states: seq<Db>, moments: seq<Moment>, id: nat, ws: seq<Watched>, acts: seq<Stamped>, k: nat)
    requires Attended(states, moments, id, ws, acts) && k <= |acts|
    ensures ws[k].chains.attempts <= MAX_RETRIES * ws[k].chains.accepts
    ensures id < |ws[k].db.orders|
    ensures !Live(ws[k].chains) ==>
              var row := ws[k].db.orders[id];
              row.riderId.Some? || row.status.Expired? || row.status.Cancelled? || row.status.Refused? || Decidable(row.status)
  {
    hide Stepped;
    hide Attended;
    var ext, more, chains, steps := PlatformRunsProject(states, moments, id, ws, acts, k);
    AtMostTenAttemptsPerAccept(id, chains, steps, |steps|);
  }

  /** And an order that dispatch expires with a rider on it was accepted more
      than once. */
  lemma ExpiredWithRiderWasAcceptedTwice(states: seq<Db>, moments: seq<Moment>, id: nat, ws: seq<Watched>, acts: seq<Stamped>, k: nat)
    requires Attended(states, moments, id, ws, acts) && k < |acts| && acts[k].act == Job(GiveUp)
    requires id < |ws[k + 1].db.orders| && ws[k + 1].db.orders[id].riderId.Some?
    ensures ws[k].chains.accepts >= 2
  {
    hide Stepped;
    var ext, more, chains, steps := PlatformRunsProject(states, moments, id, ws, acts, k);
    AlwaysOneChain(id, chains, steps, |steps|);
    GiveUpLeavesTheRider(id, ws[k], acts[k].now);
  }

  lemma GiveUpLeavesTheRider(id: nat, w: Watched, now: Time)
    requires id < |w.db.orders| && w.chains.row == w.db.orders[id]
    ensures var t := Acted(id, w, Stamped(Job(GiveUp), now)).db;
            id < |t.orders| && t.orders[id].riderId == w.db.orders[id].riderId
  {
  }
}
