# ChopNow API: a verified model of orders, money and sessions

This project models the money-moving core of the API in Dafny 4.11 and proves what it keeps.

**Platform.** One shared database (`Platform.Db`): order rows with all their amount, payment, snapshot, rider and refund
columns; the append-only double-entry ledger; vendor and rider payouts; cashout requests; the webhook dedup table; order
tags; a clock; and a log of the domain events and admin actions. About thirty transitions act on it. A guarded write is a
stale read (`read`, any earlier row) plus the write on the row as it then stands; a payout is what its path read earlier
(`Reading`: balance, open disputes, period start, each from a state of its own) plus the insert under its unique key. So
the interleavings of requests, queue jobs, crons and Campay callbacks, save the ones named under "Left out", are runs
(`PlatformRuns.Run`). `PlatformInvariant.Inv` is the joint invariant; `PlatformRuns`, `StrandedEscrow`, `RefundWays`,
`PayoutPeriods`, `PayoutBalance`, `PayoutRaces`, `DispatchRuns`, `Webhooks` and others draw its consequences.

**Services.** The source's services are classes over a shared `Store`, their methods written step by step, with
transactions rolled back where the ledger refuses; each method is proved to do exactly its transition. `Server` wires
them to one database: `Handle` takes it to the platform's next state, clock included, and `Serve` proves that whatever
they handle, one after the other, is a run, provided each request read what some earlier state held. The theorems about
runs are therefore about the services. The sweeps, which loop over many transitions, keep the joint invariant.

**Sessions.** `RefreshTokens` splits a refresh into lock, match and rotate and proves lineages linear over every
interleaving; `AuthService.dfy` holds the methods.

**Around it.** Transfer sweep, refund sweep, payout crons, dispatch retries, circuit breaker, coupons, order creation,
fees and penalties, and the payout calendar.

| file | holds |
|---|---|
| Common, Pricing, Ledger | shared values; fees, commission, penalty; ledger entries, validator, sums |
| Orders, OrderRules, OrderInvariants, OrderBooks, OrderDiagram, OrderRaces, DeliverySplit | one order row: its writes, their rules on columns, what each keeps, books, may become, and races |
| Payouts, Platform, PlatformInvariant, PlatformRuns | payouts, the database, its transitions, the joint invariant, runs |
| RowRuns, Deadlines, DeliveryPay, References, StrandedEscrow, UnpaidRefund, RefundWays, RefundCalls | one row along a run: its deadline, its delivery's shares, its references; which escrow comes back, which refunds arrive, a refund of nothing, refund calls |
| PayoutRules, PayoutGates, PayoutPeriods, PayoutTurns, PayoutBalance, PayoutRaces, PayoutTags | who is paid and when, periods, balances, overtaken payouts and order tags over runs |
| ReadyRuns, Webhooks, CallbackResults | checklists and callbacks over runs |
| Store, LedgerService, PaymentServices, OrderServices, RiderServices, FinanceServices, PayoutCrons, TransferSweep, RefundSweep, Server | the service classes, and all of them over one database |
| OrderCreation, Coupons, Dispatch, DispatchRuns, RefreshTokens, AuthService, CircuitBreaker, PayoutCalendar | the other cores |

`dafny verify dfyconfig.toml` checks everything.

## Where the code and its documentation part

Each is a theorem here, with the exact condition where there is one.

- A coupon makes an order undeliverable: the four delivery entries miss zero by the discount, so the ledger refuses them (`DeliverySplit.DeliveryAcceptedIff`).
- A commission rate below one is not enough for a delivery to be booked; the vendor's share must not round away (`DeliverySplit.RateBelowOneIsNotEnough`).
- One balance can be paid twice: an approval that read it, and reads the period's start only after another approval's payout was sent, finds a free start (`PayoutRaces.SameEarningsPaidTwice`); the net is the live balance exactly under `PayoutBalance.NetIsLiveIff`, and surely under `PayoutBalance.UndisturbedNetIsLive`.
- A rejected cashout request is paid all the same by an approval that read it before (`PayoutGates.RejectedRequestIsPaid`).
- Payout periods are meant to follow each other, but nothing compares a periodEnd with its periodStart: a pass overtaken by another replica's inserts a period that ends before it starts (`PayoutRaces.OvertakenPassInverts`), and the payee is then not paid until the payout that overtook fails (`PayoutRaces.OvertakenPayeeWaits`). Periods chain always (`PayoutPeriods.PeriodsAlwaysChain`), tile exactly under `PayoutPeriods.PeriodsTileIff`, and hold each delivery once exactly under `PayoutTurns.DeliveryInOnePeriodIff`.
- The "since last payout" balance counts a payout's debit but not the earnings it paid for, because periodEnd precedes the debit's stamp; the shortfall accumulates, and what was booked in between is counted twice (`PayoutBalance.WindowIsShortByEverythingPaid`, `PayoutBalance.OwedAfterPayout`).
- A paid order that is refused, expires, is cancelled by its consumer, or is closed as fraud without a refund keeps its escrow for good, though expiry marks it REFUNDED (`StrandedEscrow.EscrowIsReleasableIff`, `StrandedEscrow.ConsumerCancelStrands`).
- A late failed collect callback turns a queued refund's order FAILED, and the refund never settles (`RefundWays.LateFailureEndsTheRefund`, `RefundWays.RefundableIff`).
- A refund that Campay took but the database did not record is sent again (`RefundCalls.TakenRefundIsCalledAgain`); calls are counted by `RefundCalls.RefundCallsAreAccounted`.
- A failed refund settlement leaves its initiation booked, so a later refund overdraws the escrow (`PlatformRuns.RefundedEscrowIsClearedIff`).
- Cancelling an accepted, unpaid pre-order queues a refund of money never received (`OrderRaces.QueuedRefundIsOfPaidOrderIff`), and the pipeline sends and settles it (`UnpaidRefund.UnpaidPreOrderIsRefunded`).
- READY_PICKUP can carry an unticked item, since the flags are read before the guarded write (`OrderRaces.ReadyStaysPrepared`).
- A vendor can be told of a pre-order already decided on, since promotion is guarded on the deadline alone (`OrderRaces.LatePromotionIff`).
- A non-terminal collect callback uses up the dedup row, and the terminal one behind it, success included, is dropped (`Webhooks.PendingSwallowsTerminal`).
- A collect's success behind a late failure books nothing (`Webhooks.FailureLosesTheSuccess`), and a settlement callback that beats the storing of its reference is lost for good (`Webhooks.EarlyCallbackIsLost`).
- Giving up on dispatch does not look at riderId, so an order accepted twice can expire with its rider assigned (`Dispatch.TwoChainsExpireAnAssignedOrder`).
- An order settled with its rider first never appears on its vendor's payout; the comment expects the last writer to show (`PayoutTags.OnlyRiderPayoutsRetag`).
- Revoking every session does not reach a refresh that has already matched its row (`RefreshTokens.MatchedRefreshOutlivesTheWipe`), and an expired lock forks a lineage (`RefreshTokens.ExpiredLockForksTheLineage`).

## Model

| member | source | states |
|---|---|---|
| Server.Server.Handle | src/app.module.ts:42-125 | every request, job, cron row and callback, handled by its service object, takes the shared database exactly to the platform's next state, clock included |
| Server.Server.Serve | src/app.module.ts:42-125 | any finite list of them, from a new database: if each request read only rows, item lists and period starts that some earlier state held, and the clock never fell, the states passed through are a run and the joint invariant holds at the end |
| Server.AnsweredIsARun | src/modules/orders/order-vendor-actions.service.ts:60-80 | stale reads lose nothing: whatever a request read earlier, its later guarded write is a legal transition |
| PlatformRuns.LedgerAlwaysBalances | src/modules/finance/ledger.service.ts:40-129 | in every state of every run the whole ledger and every event group sum to zero |
| PlatformRuns.EscrowInClosedForm | src/modules/finance/refund-processor.service.ts:134-184 | escrow(o) = total × (initiations − paid + delivered), refund payable(o) = total × (settled − initiations), in every reachable state |
| PlatformRuns.PayablesInClosedForm | src/modules/riders/riders.service.ts:406-455 | VENDOR_PAYABLE(v) = payouts + penalties − delivered shares − compensations; RIDER_PAYABLE(r) = payouts − delivered rider shares |
| PlatformRuns.FloatInClosedForm | src/modules/finance/finance.service.ts:947-974 | CAMPAY_FLOAT = money paid in − refunds settled − nets scheduled |
| PlatformRuns.RevenueInClosedForm | src/modules/orders/order-vendor-actions.service.ts:326-350 | PLATFORM_REVENUE = −(platform fees of delivered orders + penalties − compensations) |
| PlatformRuns.OnePaymentOneDelivery | src/modules/orders/order-payment-lifecycle.service.ts:48-122 | at most one PAYMENT_RECEIVED and one ORDER_DELIVERED per order over any run; snapshots are set exactly when payment is booked; delivery implies payment; nothing PENDING or awaiting payment has a payment booked; nothing discounted is ever delivered |
| PlatformRuns.RefundAccounting | src/modules/finance/finance.service.ts:911-1012 | no order is both delivered and refunded; at most one settlement, preceded by an initiation; initiations at most one more than failed settlements; one penalty and one compensation at most |
| PlatformRuns.DecisionsAreUnique | src/modules/orders/orders-expiry.service.ts:46-68 | at most one decision event after payment and two over a lifetime; ORDER_CREATED at most once, with queue and cron both promoting |
| PlatformRuns.RowsSucceedAlongRuns | src/modules/riders/riders.service.ts:345-418 | along any run every later row of an order succeeds every earlier one: fixed columns stay, write-once columns stay, rank never falls after payment; so any earlier read is a legal stale read |
| PlatformRuns.PaidClosureIsFinal | src/modules/dispatch/dispatch.service.ts:195-214 | a paid order that reached DELIVERED, REFUSED, CANCELLED or EXPIRED keeps that status for good |
| PlatformRuns.CallsNeverExceedRetries | src/modules/finance/payout-transfer-worker.service.ts:240-282 | Campay transfer calls per payout never exceed one more than its admin retries, in every interleaving |
| PlatformRuns.RefusedOrExpiredEscrowIsStranded | src/modules/dispatch/dispatch.service.ts:203-214 | a paid order that ends REFUSED or EXPIRED keeps its whole escrow in every later state; no refund is ever booked for it |
| PlatformRuns.RefundedEscrowIsClearedIff | src/modules/finance/finance.service.ts:990-997 | a refunded order's escrow is overdrawn by its total per failed settlement, and once more if it was never paid: it is cleared exactly when it was paid and no settlement failed |
| StrandedEscrow.EscrowIsReleasableIff | src/modules/finance/refund-processor.service.ts:44-61 | a paid order closed undelivered, no refund out: its escrow can still come to zero exactly when one initiation brought it there already, or none was made and a refund call is out or it waits as REFUND_PENDING with a payer's phone; after two failed settlements it is overdrawn for good |
| StrandedEscrow.StuckEscrowIsStranded | src/modules/orders/orders.service.ts:195-231 | every other such order — refused, expired, cancelled by the consumer, closed as fraud without refund, or with no phone — keeps escrow at minus its total in every later state |
| StrandedEscrow.ClosedRefundableIff | src/modules/admin/admin-rider-fraud.service.ts:109-234 | of all writes that close a paid order undelivered, exactly the vendor's pre-order cancellation and a fraud resolution with refund leave it refundable, given a payer's phone |
| StrandedEscrow.ConsumerCancelStrands | src/modules/orders/orders.service.ts:195-231 | the consumer's cancel of any confirmed immediate order ends CANCELLED and PAID, books nothing, and leaves no way back |
| RefundWays.RefundableIff | src/modules/finance/refund-processor.service.ts:44-217 | such an order can still be refunded to its customer, in some continuation of the run, exactly when it is REFUND_PENDING with a payer's phone or a call out, however many refunds failed before |
| RefundWays.LateFailureEndsTheRefund | src/modules/payments/payments.service.ts:206-222 | a late FAILED or CANCELLED collect callback turns a REFUND_PENDING order FAILED, from where no refund ever settles; with no call out its escrow is stuck too |
| RefundCalls.RefundCallsAreAccounted | src/modules/finance/refund-processor.service.ts:134-205 | over any run an order's refund calls are exactly those rolled back, those initiated and one still out; so at most 1 + rolled back + failed settlements |
| RefundCalls.TakenRefundIsCalledAgain | src/modules/finance/refund-processor.service.ts:160-205 | a call that Campay took, whose transaction then fails on a reference another order holds, is rolled back and made again |
| UnpaidRefund.UnpaidPreOrderIsRefunded | src/modules/orders/order-vendor-actions.service.ts:302-319 | from any state with an unpaid PROCESSING pre-order of 500 FCFA or more and a payer's phone, a run of five transitions refunds it in full though nothing was ever paid: its escrow ends overdrawn by at least its total |
| PlatformInvariant.NextKeepsInv | src/modules/orders/order-payment-lifecycle.service.ts:90-121 | every transition of every service keeps the joint invariant of orders, ledger, payouts and announcements |
| RowRuns.NextIsOneWrite | src/modules/orders/order-lifecycle.processor.ts:64-182 | one transition writes a given order row once or not at all, and books about it exactly what that write books |
| PlatformInvariant.WriteKeepsInv | src/modules/orders/order-vendor-actions.service.ts:302-358 | every order write keeps the joint invariant and moves its row forward |
| PlatformInvariant.ScheduledKeepsInv | src/modules/finance/vendor-payout-cron.service.ts:194-235 | scheduling a payout keeps it |
| PlatformInvariant.MoveKeepsInv | src/modules/finance/payout-transfer-worker.service.ts:240-282 | every transfer, retry and manual mark keeps it |
| OrderInvariants.EveryWriteKeeps | src/modules/orders/order-vendor-actions.service.ts:43-247 | each write path leaves the row coherent and forward, and books and announcements in step with it |
| OrderInvariants.BalancedOnlyIfUndiscounted | src/modules/riders/riders.service.ts:405-450 | the four delivery entries sum to exactly −discountXAF for every subtotal, rate and fee |
| OrderBooks.EveryWriteReconciles | src/modules/riders/riders.service.ts:418-455 | a write's ledger entries move every account by exactly what the row's closed-form contribution moves |
| OrderBooks.PostingIsCountedOnce | src/modules/finance/ledger.service.ts:40-62 | a write books at most one transaction, about its own order, counted once |
| OrderDiagram.EveryWriteFollowsTheDiagram | src/modules/orders/order-vendor-actions.service.ts:43-390 | each write follows the order's state diagram, announces only what happened, books each event exactly with the change it stands for, and tells the vendor, for sixty seconds, exactly with the payment of an immediate order or the promotion of a pre-order |
| Deadlines.PaidImmediateOrderIsTimed | src/modules/orders/order-payment-lifecycle.service.ts:75-155 | in every state of every run a paid immediate order has its decision deadline, and its vendor was told of it once |
| Deadlines.DeadlineHasItsWrite | src/modules/orders/order-payment-lifecycle.service.ts:75-81 | every deadline goes back to one write sixty seconds before it: the payment of an immediate order, the promotion of a pre-order; until then the vendor was not told |
| OrderRules.WritersAreEntitled | src/modules/orders/order-vendor-actions.service.ts:43-60 | whatever was read, a write goes through only for the order's own consumer, vendor or rider, a rider's only with the hand-over's own code |
| OrderRules.PaymentsGoThroughIff | src/modules/payments/payments.service.ts:61-134 | the columns from which a payment can be initiated, taken and failed |
| OrderRules.DecisionsGoThroughIff | src/modules/orders/order-vendor-actions.service.ts:43-125 | an order is accepted, refused, cancelled or expired exactly while PENDING or CONFIRMED, by the one entitled; the cron only after the deadline |
| OrderRules.PromotionGoesThroughIff | src/modules/orders/order-lifecycle.processor.ts:122-182 | a pre-order is promoted once, when confirmed; by the cron at the earliest an hour before it is due |
| OrderRules.KitchenGoesThroughIff | src/modules/orders/order-vendor-actions.service.ts:143-358 | ticking, marking ready and cancelling go through exactly in the kitchen, for the vendor, with every item ticked, on a pre-order of 500 FCFA |
| OrderRules.RidesGoThroughIff | src/modules/riders/riders.service.ts:345-372 | assigned once; picked up by its rider with the pickup code; given up on only before pick-up |
| OrderRules.FraudGoesThroughIff | src/modules/admin/admin-rider-fraud.service.ts:109-234 | a fraud is resolved exactly while the order is out with a rider, a compensation only with snapshots |
| OrderRules.CompensationIsTheShare | src/modules/admin/admin-rider-fraud.service.ts:165-215 | a compensation is booked exactly when asked for and positive: subtotal less commission, from revenue to the vendor |
| OrderRules.RefundsGoThroughIff | src/modules/finance/refund-processor.service.ts:134-205 | a refund is called for with a phone and no lock, initiated or released while its call is out, settled while REFUND_PENDING |
| OrderRules.JobsRunIff | src/modules/orders/orders-expiry.service.ts:34-68 | what expiry, promotion and refund jobs need of what they read and of what there is; otherwise they stop silently |
| OrderRules.StatusAfterWrite | src/modules/orders/order-vendor-actions.service.ts:60-247 | the status each write leaves, whatever it read |
| OrderRules.PaymentStatusAfterWrite | src/modules/orders/order-payment-lifecycle.service.ts:65-90 | the payment status each write leaves |
| OrderRules.ColumnsAfterWrite | src/modules/orders/order-payment-lifecycle.service.ts:65-90 | every other column has its writers and no others: references, phone, snapshots, rider, ticks, penalty of a tenth of the total, refund marks |
| OrderRules.NewsOfWrite | src/modules/orders/order-lifecycle.processor.ts:95-114 | the events each write announces, no more and no fewer |
| OrderRules.LegsNameTheirOwners | src/modules/riders/riders.service.ts:405-450 | every leg a write books names its order, and its own vendor or rider |
| OrderRules.DecisionIsTold | src/modules/orders/order-vendor-actions.service.ts:43-80 | the error of every refused decision, for stale reads as for fresh ones |
| OrderRules.KitchenIsTold | src/modules/orders/order-vendor-actions.service.ts:143-330 | likewise in the kitchen |
| OrderRules.RideIsTold | src/modules/riders/riders.service.ts:345-418 | likewise for riders |
| References.ReferencesStayUnique | src/modules/finance/finance.service.ts:1100-1121 | in every state of every run no two orders share a code, a collect reference or a refund reference, and no two payouts of one table a transfer reference |
| OrderRaces.ExactlyOneWinner | src/modules/orders/order-vendor-actions.service.ts:60-113 | of any number of stale accepts, refusals, cancels and expiries, in any order, exactly one goes through if any can |
| OrderRaces.LatePromotionIff | src/modules/orders/order-lifecycle.processor.ts:144-167 | whatever was written between promotion's read and its guarded write, it announces an order that no longer awaits a decision exactly when one of those writes was an accept, refusal, cancellation or expiry that went through |
| OrderRaces.ReadyStaysPrepared | src/modules/orders/order-vendor-actions.service.ts:212-247 | READY_PICKUP keeps meaning a non-empty, fully ticked list exactly when markOrderReady's flags still hold at its guarded write |
| OrderRaces.UntickedWhileMarkingReady | src/modules/orders/order-vendor-actions.service.ts:185-230 | an item unticked between markOrderReady's read and its write gives READY_PICKUP with an unticked item |
| OrderRaces.QueuedRefundIsOfPaidOrderIff | src/modules/orders/order-vendor-actions.service.ts:302-319 | vendorCancelPreOrder queues a refund of a paid order exactly when the row was PAID |
| OrderRaces.LateMomoWriteReopensPaidRow | src/modules/payments/payments.service.ts:109-116 | initiateMomo's unguarded update, run late, lets a second payment be booked exactly when the row was already paid |
| ReadyRuns.ReadyAlwaysPreparedIff | src/modules/orders/order-vendor-actions.service.ts:199-247 | over a run every READY_PICKUP order is fully ticked exactly when every markOrderReady still found its list ticked |
| Ledger.AcceptedIffBalanced | src/modules/finance/ledger.service.ts:73-128 | a transaction is booked exactly when it has an event id, at least two entries, each non-zero, attached and (for adjustments) described, summing to zero |
| Ledger.LineIsToldIff | src/modules/finance/ledger.service.ts:73-128 | the fault of each faulty entry |
| Ledger.TransactionIsToldIff | src/modules/finance/ledger.service.ts:73-128 | and of each refused transaction |
| Ledger.BookingIsBalanced | src/modules/finance/ledger.service.ts:40-62 | a booked transaction adds zero to the ledger and to its event group |
| DeliverySplit.DeliveryAcceptedIff | src/modules/riders/riders.service.ts:405-450 | the validator books a delivery exactly when there is no discount and the vendor's share does not round away |
| DeliverySplit.UndiscountedOrdersAreDelivered | src/modules/riders/riders.service.ts:405-450 | at every rate up to 99% every undiscounted legal order's delivery is booked |
| DeliverySplit.RateBelowOneIsNotEnough | src/modules/orders/order-payment-lifecycle.service.ts:60-64 | at 99.5% a 100 FCFA basket's delivery is refused: a rate below one is not enough |
| DeliverySplit.MarkDeliveredGoesThroughIff | src/modules/riders/riders.service.ts:374-418 | markDelivered succeeds exactly for the order's rider, with the right code, on a PICKED_UP, paid, undiscounted order with a vendor share |
| DeliveryPay.DeliveryPaysItsShares | src/modules/riders/riders.service.ts:405-450 | over runs, a delivery credits its rider the franc nearest to 65% of the fee, its vendor the subtotal less the franc nearest to the commission, the platform all the rest, and frees the escrow of exactly that |
| DeliveryPay.SnapshotsAreNearest | src/modules/orders/order-payment-lifecycle.service.ts:60-64 | commission and rider share recorded at payment are each the nearest franc; the platform fee is the rest |
| DeliverySplit.PenaltyAcceptedIff | src/modules/orders/order-vendor-actions.service.ts:290-350 | a pre-order penalty is booked exactly on totals of 500 FCFA or more |
| DeliverySplit.UndiscountedPenaltyIsBooked | src/modules/orders/order-vendor-actions.service.ts:290-292 | an undiscounted pre-order's penalty is a positive multiple of 50 within 10% of its total, and is booked |
| Pricing.DeliveryFee | src/shared/pricing/delivery-fee.util.ts:25-31 | the fee is a multiple of 50 in [500, 1500], the least covering the clamped price |
| Pricing.DeliveryFeeCoversThePrice | src/shared/pricing/delivery-fee.util.ts:25-31 | the fee is the least multiple of 50 within [500, 1500] that covers 250 FCFA and 100 a kilometre, or the cap |
| Pricing.DeliveryFeeIsMonotone | src/shared/pricing/delivery-fee.util.ts:25-31 | a longer trip never costs less |
| Pricing.RoundHalfUp | src/modules/orders/order-payment-lifecycle.service.ts:60-64 | Math.round: nearest integer, ties upward |
| Pricing.RiderShareIsNearest | src/modules/finance/commission.constants.ts:15-17 | the rider's share is the integer nearest to 0.65 of the fee |
| Pricing.CommissionIsNearest | src/modules/orders/order-payment-lifecycle.service.ts:60-64 | the commission is the integer nearest to subtotal times rate |
| Pricing.VendorShareVanishes | src/modules/orders/order-payment-lifecycle.service.ts:60-64 | commission never exceeds the subtotal, and equals it exactly when the complement rounds away |
| Pricing.FeeSplitIsPositive | src/modules/finance/commission.constants.ts:15-17 | rider and platform both have a positive part of any fee of 500 or more |
| Pricing.PenaltyOfUndiscountedOrder | src/modules/orders/orders.constants.ts:32-33 | the penalty of a total at or above the minimum is the greatest multiple of 50 within 10% |
| Pricing.PenaltyIsZeroBelow500 | src/modules/orders/orders.constants.ts:32-33 | the penalty is zero exactly below 500 FCFA |
| PayoutPeriods.PeriodsAlwaysChain | src/modules/finance/vendor-payout-cron.service.ts:171-207 | in every state of every run, whatever the clocks, ends and stale reads, each payout of a payee starts where that payee's last payout ended |
| PayoutPeriods.PeriodsTileIff | src/modules/finance/vendor-payout-cron.service.ts:171-207 | a payee's periods tile time from account creation in every state, without gap or overlap, exactly when every payout ended beyond the payee's last period as it went in |
| PayoutPeriods.AwardTilesIffFresh | src/modules/finance/finance.service.ts:584-609 | a scheduled payout keeps the tiling exactly when its end lies beyond the last period |
| PayoutPeriods.AwardStartsAtTheFrontier | src/modules/finance/vendor-payout-cron.service.ts:184-207 | however stale its start read, a payout that goes in starts exactly where the payee's last payout ended: on any chain of periods the unique (payee, periodStart) suffices |
| PayoutPeriods.PassesKeepThePayeeClock | src/modules/finance/vendor-payout-cron.service.ts:52-105 | payouts made in passes that start strictly after whatever precedes them, each payee at most once, rise payee by payee although all rows of a pass share one periodEnd |
| PayoutPeriods.PayeeClockIsFresh | src/modules/finance/vendor-payout-cron.service.ts:171-189 | a clock that rises payee by payee puts every payout's end beyond its payee's last period: the condition of PeriodsTileIff |
| PayoutPeriods.EarlierStartsAreLegal | src/modules/finance/vendor-payout-cron.service.ts:171-181 | every start that an earlier state of the run answers is one the transition system admits |
| PayoutPeriods.NextPayoutWaitsForTheLast | src/modules/finance/vendor-payout-cron.service.ts:171-207 | between a payout's start read and its insert no other payout of the payee goes in, and the payee's last one was sent or paid by then |
| PayoutPeriods.EveryInstantOnce | src/modules/finance/finance.service.ts:584-609 | every instant up to the last period's end lies in exactly one period |
| PayoutTurns.DeliveryInOnePeriodIff | src/modules/finance/rider-payout-cron.service.ts:166-184 | no instant falls in two of a payee's periods, in any state, exactly when every payout, as it went in, covered nothing or started at the latest end of the payee's periods |
| PayoutPeriods.AwardIsGuarded | src/modules/finance/rider-payout-cron.service.ts:125-184 | all three scheduling paths insert what they read of the balance, at least 500, from a start no payout of the payee holds at the insert |
| PayoutPeriods.NetsReachTheMinimum | src/modules/finance/vendor-payout-cron.service.ts:127-150 | every payout ever scheduled is worth at least the minimum |
| PayoutGates.DisputedVendorIsNotPaid | src/modules/finance/vendor-payout-cron.service.ts:147-168 | over runs with stale reads: in the state that answered a paid vendor's dispute count none of its orders was REFUND_PENDING; nets are at least 500 for vendors and 1000 for riders |
| PayoutGates.VendorIsPaidIff | src/modules/finance/vendor-payout-cron.service.ts:107-190 | on fresh reads a vendor is paid exactly when it is owed 500 or more, no order of it is REFUND_PENDING and its next start is free; what it is told otherwise |
| PayoutGates.RiderIsPaidIff | src/modules/finance/rider-payout-cron.service.ts:97-184 | likewise a rider, from 1000 on, with both identity photos, whatever refunds wait |
| PayoutGates.CashoutIsGrantedIff | src/modules/finance/finance.service.ts:551-593 | likewise an approval, of a request still pending |
| PayoutGates.PeriodStartsAt | src/modules/finance/vendor-payout-cron.service.ts:171-181 | a period starts at the latest end among the payee's sent and paid payouts, or at its creation |
| PayoutGates.CashoutIsTakenIff | src/modules/finance/finance.service.ts:399-455 | a request is recorded exactly for a registered, informal, active vendor that is owed something and has none pending, for what it is owed |
| PayoutGates.CashoutsAlwaysOk | src/modules/finance/finance.service.ts:639-706 | in every state of every run a request is approved exactly when it names a payout, which is its vendor's; a vendor has one pending at most |
| PayoutGates.RejectedRequestIsPaid | src/modules/finance/finance.service.ts:639-652 | a request rejected after an approval read it is approved and paid all the same |
| PayoutRules.OneMoreEntry | src/modules/finance/finance.service.ts:122-156 | one more ledger entry changes what a payee is owed exactly when it is on its own payable and stamped after the cutoff |
| PayoutRules.OneMorePayout | src/modules/finance/finance.service.ts:122-156 | one more payout moves the cutoff exactly when it is the payee's, paid or in flight, and ends later |
| PayoutBalance.WindowAgreesIff | src/modules/finance/finance.service.ts:122-156 | the windowed balance is the full-history balance exactly when entries at or before the cutoff cancel out |
| PayoutBalance.OnePayoutShortsTheWindow | src/modules/finance/vendor-payout-cron.service.ts:181-235 | once a payout is sent, whatever was read for it and whatever was booked since its end, the window misses everything booked up to that end; if the balances agreed and nothing followed the end they agree again exactly when the debit is stamped no later than it, and otherwise the window is short by the net |
| PayoutBalance.WindowIsShortByEverythingPaid | src/modules/finance/finance.service.ts:122-156 | over runs whose payouts are of the live balance, keep the per-payee clock and stamp debits after periodEnd, the window is short by every net up to the cutoff, not only the last, and by what was booked between each end and its insert |
| PayoutBalance.OwedAfterPayout | src/modules/finance/finance.service.ts:122-156 | right after such a payout the payee's full balance is exactly that shortfall, so it is overpaid exactly when late entries counted twice outweigh all earlier nets |
| PayoutBalance.NeverPaidBeyondEarned | src/modules/finance/finance.service.ts:122-156 | if moreover nothing of the payee's is booked between end and insert, payouts + penalties never exceed delivered shares + compensations |
| PayoutBalance.NetIsLiveIff | src/modules/finance/vendor-payout-cron.service.ts:121-195 | for reads answered by earlier states of a run: the net inserted is the live balance exactly when what was booked since, beyond the live cutoff, cancels what the moved cutoff dropped |
| PayoutBalance.UndisturbedNetIsLive | src/modules/finance/vendor-payout-cron.service.ts:121-195 | in particular when nothing was booked for the payee since the sum was read and its sent and paid payouts are those the cutoff was read from |
| PayoutRaces.SameEarningsPaidTwice | src/modules/finance/finance.service.ts:555-652 | from any state with a schedulable vendor and a pending request of it: two approvals of that one request, each read in order and ended after its last read, pay the same balance twice in two adjacent periods, every payee's clock rising |
| PayoutRaces.OvertakenPassInverts | src/modules/finance/vendor-payout-cron.service.ts:41-207 | from any state with a schedulable vendor: a pass overtaken by another replica's, which began later, inserts a period that ends before it starts; the periods no longer tile and the balance is paid twice |
| PayoutRaces.OvertakenPayeeWaits | src/modules/finance/vendor-payout-cron.service.ts:171-190 | after it, as long as the payout that overtook stays sent, no payout of that payee whose start some state answered goes in |
| PayoutRaces.NextAfterOvertakenOverlaps | src/modules/finance/vendor-payout-cron.service.ts:171-190 | once one does go in, it starts at the overtaken period's end, and covers some instant twice exactly when it covers any |
| PayoutRaces.PassIsNotOvertaken | src/modules/finance/vendor-payout-cron.service.ts:41-207 | while a payee's clock rises, no other payout of the payee goes in between a pass's first read of it and its insert |
| PayoutTags.TagsAlwaysMatch | src/modules/finance/vendor-payout-cron.service.ts:237-246 | in every reachable state a tag names a payout of the order's own vendor or rider whose period contains its delivery |
| PayoutTags.PayoutTagsItsPeriod | src/modules/finance/vendor-payout-cron.service.ts:237-246 | a payout tags exactly the payee's orders delivered after its start and up to its end, of a vendor those untagged; other tags stay |
| PayoutTags.OnlyRiderPayoutsRetag | src/modules/finance/rider-payout-cron.service.ts:213-229 | a tagged order stays tagged and only a rider's payout takes the tag over, so an order first settled with its rider never appears on its vendor's payout |
| PayoutTags.TagIsTheOnlyPeriod | src/modules/finance/vendor-payout-cron.service.ts:237-246 | under the condition of PayoutTurns.DeliveryInOnePeriodIff the tag names the only payout of that payee whose period contains the delivery |
| Payouts.StepKeepsPayout | src/modules/finance/finance.service.ts:1031-1121 | every payout write spends at most the call it was given and changes only status, reference and the open-call mark |
| PayoutRules.MovesGoThroughIff | src/modules/finance/payout-transfer-worker.service.ts:240-282 | from which columns a transfer is claimed, concluded, settled, retried and marked |
| PayoutRules.PayoutAfterMove | src/modules/finance/finance.service.ts:1031-1121 | what each move leaves of status, reference and open call |
| Webhooks.OnlyFirstTerminalsMatter | src/modules/finance/finance.service.ts:721-1014 | any finite sequence of transfer and refund callbacks ends as its first terminal callback per reference alone |
| CallbackResults.TransferResultTells | src/modules/finance/finance.service.ts:736-867 | the dedup result of a first transfer callback tells what it met and did |
| CallbackResults.RefundResultTells | src/modules/finance/finance.service.ts:903-1012 | likewise of a refund callback |
| CallbackResults.CollectResultTells | src/modules/payments/payments.service.ts:150-222 | likewise of a collect callback |
| CallbackResults.StatusesAreWords | src/modules/finance/finance.service.ts:721-733 | which words of Campay confirm, deny or say nothing yet, for transfers and refunds and for collects |
| Webhooks.DifferentReferencesCommute | src/modules/finance/finance.service.ts:721-1014 | callbacks for different references commute, up to insertion order |
| Webhooks.AnyOrderAgrees | src/modules/finance/finance.service.ts:721-1014 | two callback sequences with the same first terminal callback per reference, in any order and with any replays, end in the same tables up to insertion order |
| Webhooks.EarlyCallbackIsLost | src/modules/finance/finance.service.ts:736-778 | a terminal transfer or refund callback that arrives before its reference is stored moves nothing, and no later callback of that reference does anything in any later state |
| Webhooks.TransferMovesIff | src/modules/finance/finance.service.ts:736-800 | a terminal transfer callback moves a payout exactly when it is the first of its reference, the reference is stored, and the payout is in flight |
| Webhooks.RefundMovesIff | src/modules/finance/finance.service.ts:895-1000 | a terminal refund callback moves an order exactly when it is the first of its reference, the reference is stored, and the refund is pending |
| Webhooks.CollectKeepsFirstOnly | src/modules/payments/payments.service.ts:139-166 | of collect callbacks only the first per reference counts, terminal or not |
| Webhooks.PendingSwallowsTerminal | src/modules/payments/payments.service.ts:139-222 | behind a pending collect callback every terminal one raises and writes nothing; alone, a success is raised exactly when its reference resolves to an order, and a failure changes the order exactly when it is neither PAID nor FAILED |
| Webhooks.FailureLosesTheSuccess | src/modules/payments/payments.service.ts:206-222 | a failure that resolves to an order whose collect is in flight sets it FAILED, and the success of that collect then books nothing |
| Webhooks.SuccessBooksAfterIff | src/modules/orders/order-payment-lifecycle.service.ts:48-122 | after any collect callback a success is booked exactly when it was bookable before (row UNPAID or PROCESSING, read not PAID, reference free, total not zero) and the callback was not a first FAILED or CANCELLED one that resolves to the order |
| TransferSweep.SweepNeverOvercommits | src/modules/finance/payout-transfer-worker.service.ts:77-131 | fetched float − remainder = initiated nets ≤ max(float, 0), and attempted is the sum of the five counters, over lists of any length |
| TransferSweep.SweepClaimsOnce | src/modules/finance/payout-transfer-worker.service.ts:240-282 | every initiated payout was PENDING, is initiated once per tick, and ends IN_FLIGHT under its reference |
| TransferSweep.EachRowIsCounted | src/modules/finance/payout-transfer-worker.service.ts:209-282 | which counter a row adds to, from its columns, the float and the answer |
| TransferSweep.PayoutTransferWorker.SweepPendingTransfers | src/modules/finance/payout-transfer-worker.service.ts:32-148 | both loops: the counters add up, the float is respected, nothing moves in manual mode or when the balance call fails, the joint invariant is kept |
| TransferSweep.PayoutTransferWorker.SweepRows | src/modules/finance/payout-transfer-worker.service.ts:77-130 | the loop equals its row-by-row specification |
| RefundSweep.SweepInitiatesOnce | src/modules/finance/refund-processor.service.ts:44-110 | every candidate is counted once or lost a race; each initiation is one order's and booked once; manual mode changes nothing |
| RefundSweep.EachCandidateIsCounted | src/modules/finance/refund-processor.service.ts:62-110 | which counter a candidate adds to, from its columns and the answer |
| RefundSweep.RefundProcessorService.SweepPendingRefunds | src/modules/finance/refund-processor.service.ts:44-110 | the loop equals its specification, claims each order once, and keeps the joint invariant |
| PayoutCrons.PassAddsUp | src/modules/finance/vendor-payout-cron.service.ts:52-105 | the pass's counters add up to its candidates, and totalXAF is what left the float, one payout row per scheduled payee |
| PayoutCrons.EachRowIsCounted | src/modules/finance/vendor-payout-cron.service.ts:56-90 | which counter a row adds to |
| PayoutCrons.PassExtendsTheRun | src/modules/finance/vendor-payout-cron.service.ts:52-105 | a pass that starts after the clock and lists no payee twice extends any run paid in passes to another one, which keeps every payee's clock |
| PayoutCrons.PayoutCronService.SweepPayouts | src/modules/finance/rider-payout-cron.service.ts:28-95 | the loop equals its transitions, its counters and its total, and keeps the joint invariant |
| Dispatch.AtMostTenAttemptsPerAccept | src/modules/dispatch/dispatch.service.ts:127-177 | over any run attempts are at most ten per acceptance, and once nothing of dispatch is left the order has its rider, or is EXPIRED, CANCELLED or REFUSED, or is back before its acceptance |
| Dispatch.AssignedRiderNeverChanges | src/modules/dispatch/dispatch.service.ts:313-332 | an assigned rider is never replaced |
| Dispatch.AttemptComesTo | src/modules/dispatch/dispatch.service.ts:127-177 | what an attempt comes to, from the row, its number of ten, and who is in range |
| Dispatch.ExpiredForNoRiderHasNone | src/modules/dispatch/dispatch.service.ts:185-214 | an order accepted once and expired for no rider has none |
| Dispatch.TwoChainsExpireAnAssignedOrder | src/modules/dispatch/dispatch.service.ts:127-177 | for any unpaid order: accepted, paid late (which re-confirms it) and accepted again, its two chains can expire it with its rider assigned; every step is a write or job the code can make |
| DispatchRuns.PlatformRunsProject | src/modules/dispatch/dispatch.service.ts:127-230 | whatever other services write around it, what dispatch does to an order inside a platform run is a dispatch run of that order, row by row |
| DispatchRuns.PlatformAttemptsAreBounded | src/modules/dispatch/dispatch.service.ts:127-177 | so on the platform attempts are at most ten per acceptance, and with nothing of dispatch left the order has its rider, is closed, or is back before its acceptance |
| DispatchRuns.ExpiredWithRiderWasAcceptedTwice | src/modules/dispatch/dispatch.service.ts:185-214 | an order that dispatch expires with a rider on it was accepted more than once |
| OrderServices.OrdersExpiryService.SweepExpired | src/modules/orders/orders-expiry.service.ts:34-86 | the sweep refuses exactly the lapsed orders it found, announces each, leaves none below its batch size, and keeps the joint invariant |
| OrderServices.PreOrderPromotionService.Sweep | src/modules/orders/pre-order-promotion.service.ts:44-106 | the sweep promotes exactly the due pre-orders it found, announces each, leaves none below its batch size, and keeps the joint invariant |
| PaymentServices.PaymentsService.HandleWebhook | src/modules/payments/payments.service.ts:139-223 | new state of a collect callback, and exactly when PAYMENT_SUCCEEDED is raised |
| PaymentServices.OrderPaymentLifecycleService.Snapshots | src/modules/orders/order-payment-lifecycle.service.ts:60-64 | the snapshots: commission and rider share each the nearest franc; vendor share + rider share + platform fee = total + discount |
| LedgerServices.LedgerService.Validate | src/modules/finance/ledger.service.ts:73-128 | the loop finds the first fault, and none exactly for a balanced, well-formed transaction |
| LedgerServices.LedgerService.RecordTransaction | src/modules/finance/ledger.service.ts:40-71 | appends an accepted transaction, changes nothing for a refused one, keeps ledger and group sums |
| OrderCreation.CreatedAmountsAreLegal | src/modules/orders/order-creation.service.ts:72-130 | every created order has a basket of at least 100, a fee in [500, 1500], the minimum met before discount, a discount within the total, distinct items of the vendor |
| OrderCreation.CreatedTotalIsTheCartsWorth | src/modules/orders/order-creation.service.ts:98-130 | a created order charges what its lines come to, price times quantity, additive over the cart, and the fee, less the discount; its other columns are the cart's and the vendor's |
| OrderCreation.MoreOfALine | src/modules/orders/order-creation.service.ts:98-110 | raising one line's quantity raises the subtotal by as many times that item's price |
| OrderCreation.CartIsToldIff | src/modules/orders/order-creation.service.ts:52-160 | the first condition a cart fails names the error, each with its numbers |
| OrderCreation.RedemptionsMatchTheirOrders | src/modules/orders/order-creation.service.ts:165-247 | over any serial run of creations every redemption is of an order of the same user for the discount that order carries |
| OrderCreation.CodeIsSpentIff | src/modules/orders/order-creation.service.ts:165-247 | a creation with a code records one redemption of the coupon with that code and raises its counter; without one, nothing |
| OrderCreation.CreatedDiscountIsTheCoupons | src/modules/orders/order-creation.service.ts:165-247 | the discount of a created order is what the coupon with its code gives on this cart, in its dates, from its minimum on, for a first order if it asks for one |
| OrderCreation.CreationIsALegalPlace | src/modules/orders/order-creation.service.ts:165-247 | a creation is a legal transition of the platform and writes the same row |
| OrderCreation.UncouponedCartAcceptedIff | src/modules/orders/order-creation.service.ts:52-160 | a cart without coupon is accepted exactly under the listed conditions |
| OrderCreation.CreatedOrderIsDeliverableIff | src/modules/orders/order-creation.service.ts:232-243 | at every rate up to 99% a created order's delivery is booked exactly when no discount was granted |
| OrderCreation.CountMatchesIff | src/modules/orders/order-creation.service.ts:77-88 | the row-count check passes exactly when every line is on this vendor's menu and no item repeats |
| OrderCreation.RetryReturnsTheOriginal | src/modules/orders/order-creation.service.ts:44-51 | a retry with the same idempotency key returns the first order, whatever came between |
| OrderCreation.OrderCreationService.SumLines | src/modules/orders/order-creation.service.ts:98-110 | the subtotal loop: price times quantity of a line, additive over the cart |
| OrderCreation.OrderCreationService.Create | src/modules/orders/order-creation.service.ts:43-258 | answer and new tables of createOrder, rolled back when the coupon is refused |
| Coupons.PreviewRefinesRedemption | src/modules/coupons/coupons.service.ts:153-269 | preview and redemption accept the same codes for the same discount |
| Coupons.CapsAlwaysHold | src/modules/coupons/coupons.service.ts:203-269 | over any serial run: one redemption per coupon and user, counters equal their rows, no coupon beyond its cap |
| Coupons.DiscountBounds | src/modules/coupons/coupons.service.ts:141-151 | the discount lies within [0, subtotal + fee], the lower bound exactly for non-negative coupons |
| Coupons.DiscountOfKind | src/modules/coupons/coupons.service.ts:141-151 | a fixed amount up to the whole order, or the delivery fee |
| Coupons.CouponRowIsToldIff | src/modules/coupons/coupons.service.ts:75-122 | what a coupon row is told, the first condition that fails naming it |
| Coupons.CodeIsRedeemedIff | src/modules/coupons/coupons.service.ts:203-269 | a code is redeemed exactly when it is some coupon's whose row says yes and the user has not redeemed it |
| Coupons.NoPriorOrderIff | src/modules/coupons/coupons.service.ts:203-240 | which earlier orders count against a first-order coupon |
| Coupons.CouponsService.RedeemInTransaction | src/modules/coupons/coupons.service.ts:203-269 | verdict and new tables of a redemption |
| RefreshTokens.AtMostOneSuccessor | src/modules/auth/auth.service.ts:255-375 | with locks held, each token is replaced at most once, by a later row of the same user that no other links to |
| RefreshTokens.ExactlyOneSuccessor | src/modules/auth/auth.service.ts:251-375 | a refresh that rotates mints the only successor its token will ever have, however refreshes overlap |
| RefreshTokens.LinksArePermanent | src/modules/auth/auth.service.ts:433-443 | a link and a revocation, once there, stay |
| RefreshTokens.OneLiveTokenPerSignIn | src/modules/auth/auth.service.ts:399-446 | in every reachable state each sign-in's lineage has at most one unrevoked token, its last |
| RefreshTokens.RotationKeepsLineagesIff | src/modules/auth/auth.service.ts:433-443 | a rotation keeps lineages linear and truly recorded exactly when the replaced row has no successor yet |
| RefreshTokens.CompromiseRevokesEverything | src/modules/auth/auth.service.ts:292-354 | a presented row that is revoked, or of another device than the cookie's, leaves the user no live token; any other changes no row at the match; nobody else is touched |
| RefreshTokens.ReuseIff | src/modules/auth/auth.service.ts:280-305 | reuse is reported exactly for the user's unexpired, revoked rows |
| RefreshTokens.RefreshIsToldIff | src/modules/auth/auth.service.ts:270-354 | on columns: invalid without an unexpired row of the user; reuse when it is revoked; a mismatch when device and cookie are both present and differ; a rotation otherwise |
| RefreshTokens.MatchedRefreshOutlivesTheWipe | src/modules/auth/auth.service.ts:455-465 | rotating after a family wipe leaves the user a live token exactly when the matched refresh is that user's |
| RefreshTokens.ExpiredLockForksTheLineage | src/modules/auth/auth.service.ts:40-50 | a lock that expires under a slow refresh gives one sign-in two live tokens |
| Auth.RefreshHandsOn | src/modules/auth/auth.service.ts:225-375 | one refresh keeps the invariant, hands on one live token, or leaves none after a compromise |
| Auth.SignedInRefreshesOnce | src/modules/auth/auth.service.ts:225-446 | a sign-in refreshes before its expiry from the same device or without cookie; the tables after it |
| Auth.StolenTokenEndsTheSession | src/modules/auth/auth.service.ts:270-354 | any presented token: spent or from another device it leaves the user no live token; expired or another user's it changes nothing; else it rotates |
| Auth.LogoutEndsOneSession | src/modules/auth/auth.service.ts:488-524 | logging out revokes the presented session and no other |
| Auth.AuthService.MatchToken | src/modules/auth/auth.service.ts:270-284 | the candidate scan finds the newest matching row |
| Auth.AuthService.Refresh | src/modules/auth/auth.service.ts:225-376 | error and new state of refresh; a mismatch exactly when the user's live row and the cookie name two different devices |
| CircuitBreaker.BetweenCalls | src/infra/campay/campay-circuit-breaker.service.ts:55-124 | between calls CLOSED holds exactly below five failures, never half-open, and no call runs within 60 s of openedAt |
| CircuitBreaker.OutageBound | src/infra/campay/campay-circuit-breaker.service.ts:55-124 | if all calls fail, at most 5 + ⌊(T − first opening)/60000⌋ run by time T |
| CircuitBreaker.SuccessResets | src/infra/campay/campay-circuit-breaker.service.ts:83-93 | one success closes the breaker and forgets every failure |
| CircuitBreaker.RunsAgainIff | src/infra/campay/campay-circuit-breaker.service.ts:55-124 | after any calls the next one runs exactly when fewer than five failed in a row or the last that ran ended sixty seconds ago; it opens with the fifth failure and never for good |
| PayoutCalendar.NextSundayIsLeast | src/modules/finance/finance.service.ts:1273-1286 | the least Sunday 02:00 (UTC+1) strictly later, at most 7 days ahead |
| PayoutCalendar.NextMorningIsLeast | src/modules/finance/finance.service.ts:1292-1301 | the least 06:00 (UTC+1) strictly later, at most 24 hours ahead |
| PayoutCalendar.FromTheEpoch | src/modules/finance/finance.service.ts:1273-1301 | counted from the epoch, the first Sunday 02:00 and 06:00 of Douala |

## Left out

- initiateMomo, the FAILED collect callback, markPickedUp, setItemPrepared, expireForNoRider and onFail read and write without a guard; each is one atomic step of a run. What a late initiateMomo write does is `OrderRaces.LateMomoWriteReopensPaidRow`.
- A webhook handler's reads and writes run back to back; two handlers of one reference are already separated by the dedup insert.
- The Redis locks of initiateMomo and of the collect callback, which only narrow the interleavings allowed here.
- paymentMethod checks (the pilot has only mobile money), cancelledAt, refundFailureReason, refusalReason and the other timestamps and reason columns no guard reads.
- Vendor and rider payouts are one table told apart by the payee; a vendor penalty is a column of its order, one per order; the three snapshot columns are one optional value.
- Commission rates are exact ten-thousandths and rounding is exact half-up, not JavaScript floating point; the validator's non-integer check has no counterpart on integers.
- The display components of a balance (gross, commission, penalty, adjustments), trust flags, list endpoints and self views.
- Vendors, riders and their createdAt are fixed for a run; payee registration, KYC approval, the rider's own status and score are not part of the model.
- Per-run query limits of the payout crons, the transfer worker and the refund processor: their lists may have any length and order.
- The sweeps run their rows back to back; interleavings of single transfers and refunds with other writers are covered by runs instead.
- Delivery of queue jobs, delays and event subscription: a job or an event may arrive at any time or never.
- Campay, Twilio, mail and push calls are a success or a failure; PostGIS is a distance and a candidate rider or none.
- Cryptography: a raw token is an opaque value, verifying its hash is equality, newly signed tokens are distinct; OTP codes, JWT checks, access tokens and device rows are not part of the model.
- Coupon codes arrive trimmed and upper-cased; a coupon's value is not negative; redemptions are serial, as the counter bump is not atomic in the source.
- The circuit breaker's calls run one after another; overlapping calls are not modelled.
- The idempotency interceptor, captcha, controllers, guards, metrics, audit log, catalogue and profile management, seeds.
- OrderServices.OrdersExpiryService.SweepExpired: the sweep runs alone, in table order, since the source's query has no order.
- PlatformInvariant.PlaceKeepsInv: takes the amounts createOrder guarantees as given; `OrderCreation.CreatedAmountsAreLegal` proves them.
- PayoutTags.TagIsTheOnlyPeriod: assumes the condition under which each delivery falls in one period; that a clock rising payee by payee gives it is `PayoutTurns.PayeeClockTakesTurns`, and that passes give the clock `PayoutCrons.PassExtendsTheRun`.
- PayoutTurns.DeliveryInOnePeriodIff: no payout is taken to end before its payee's account was created.
- PayoutBalance.WindowIsShortByEverythingPaid: for payouts of the live balance; for one payout with any reads see `PayoutBalance.OnePayoutShortsTheWindow`.
- The lookup of an existing payout before the insert and the unique key at the insert give one outcome; the cron's counters call both a re-run.
- PayoutCrons.PayoutCronService.SweepPayouts: its rows read and insert back to back; reads that other writers get between are the platform's own transitions.
- requestVendorCashout and rejectCashoutRequest read and write in one step, so two requests of one vendor at a time are not modelled; an approval's reads are stale like any other.
