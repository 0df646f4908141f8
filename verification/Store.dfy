/** The database the service objects share. */
module Store {
  import opened Common
  import opened Ledger
  import opened Orders
  import opened Payouts
  import opened Platform
  import opened PlatformInvariant

  class Store {
    var orders: seq<Order>
    var ledger: seq<Row>
    var payouts: seq<Payout>
    var cashouts: seq<Cashout>
    var webhooks: map<WebhookKey, WebhookResult>
    var payoutTags: map<nat, nat>
    var payees: map<Payee, Time>
    var log: seq<LogEvent>
    var clock: Time

    ghost function Db(): Db reads this {
      Platform.Db.Db(orders, ledger, payouts, cashouts, webhooks, payoutTags, payees, log, clock)
    }

    constructor (payees: map<Payee, Time>, now: Time)
      requires forall p :: p in payees ==> payees[p] <= now
      ensures Initial(Db()) && this.payees == payees && clock == now
    {
      orders, ledger, payouts, cashouts, webhooks, payoutTags, log := [], [], [], [], map[], map[], [];
      this.payees, clock := payees, now;
    }
  }

  /** What a guarded write throws, if it throws. */
  function Thrown(outcome: Outcome): Option<OrderError> {
    match outcome
    case Ok(_) => None
    case Err(e) => Some(e)
  }

  function PayoutFault(outcome: PayoutOutcome): Option<PayoutError> {
    match outcome
    case Ok(_) => None
    case Err(e) => Some(e)
  }
}
