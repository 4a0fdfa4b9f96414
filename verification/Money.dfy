/** What every reachable world satisfies about money: payments, refunds, the vendor's books
    and the calls and deliveries between them. */
module Money {
  import opened Tables
  import opened Sums
  import opened Weights
  import opened Transactions
  import opened Protocol
  import opened Drafts

  ghost predicate CapturedFor(payments: seq<Payment>, o: nat) {
    exists p :: 0 <= p < |payments| && payments[p].order == o && payments[p].status == Captured
  }

  /** Order `o` was paid through intent `i`. */
  ghost predicate PaidBy(payments: seq<Payment>, o: nat, i: nat) {
    exists p :: 0 <= p < |payments| && payments[p].order == o && payments[p].intent == i && payments[p].status == Captured
  }

  ghost predicate OnRecord(payments: seq<Payment>, i: nat) {
    exists p :: 0 <= p < |payments| && payments[p].intent == i
  }

  ghost predicate PaymentOk(orders: seq<Order>, intents: seq<Intent>, x: Payment) {
    && x.order < |orders| && x.intent < |intents| && intents[x.intent].order == x.order
    && x.amount == orders[x.order].total
    && match x.status
       case RequiresAction => !IsPaidStatus(orders[x.order].status)
       case Captured => orders[x.order].status != AwaitingPayment && intents[x.intent].status == IntentSucceeded
       case Declined => IsUnfulfillableStatus(orders[x.order].status) && intents[x.intent].status == IntentFailed
  }

  ghost predicate PaymentsOk(orders: seq<Order>, intents: seq<Intent>, payments: seq<Payment>) {
    && (forall p | 0 <= p < |payments| :: PaymentOk(orders, intents, payments[p]))
    && (forall p, q | 0 <= p < q < |payments| ::
          payments[p].order != payments[q].order && payments[p].intent != payments[q].intent)
  }

  ghost predicate IntentsOk(orders: seq<Order>, intents: seq<Intent>) {
    forall i | 0 <= i < |intents| ::
      intents[i].order < |orders| && intents[i].amount == orders[intents[i].order].total > 0
  }

  /** Only a free order is paid without a captured payment, and only a priced one waits for one. */
  ghost predicate PaidOrdersOk(orders: seq<Order>, payments: seq<Payment>) {
    forall o: nat | o < |orders| ::
      && orders[o].total >= 0
      && (IsPaidStatus(orders[o].status) && orders[o].total > 0 ==> CapturedFor(payments, o))
      && (!IsPaidStatus(orders[o].status) ==> orders[o].total > 0)
  }

  ghost predicate EventOk(intents: seq<Intent>, refs: map<nat, nat>, e: VendorEvent) {
    match e
    case SucceededEvent(i) => i < |intents| && intents[i].status == IntentSucceeded
    case FailedEvent(i) => i < |intents| && intents[i].status == IntentFailed
    case RefundedEvent(_, reference, _, _) => reference.Some? ==> reference.value in refs
    case UnknownEvent => true
  }

  ghost predicate EventsOk(intents: seq<Intent>, refs: map<nat, nat>, events: seq<VendorEvent>) {
    forall e | 0 <= e < |events| :: EventOk(intents, refs, events[e])
  }

  /** An organizer refunds paid orders; the system refunds, in full, orders that cannot be honoured. */
  ghost predicate RefundOk(orders: seq<Order>, payments: seq<Payment>, x: Refund) {
    && x.order < |orders| && x.amount >= 0
    && (x.amount > 0 ==> CapturedFor(payments, x.order))
    && (x.status != Settled ==> x.amount > 0)
    && (if x.byUser then IsPaidStatus(orders[x.order].status)
        else IsUnfulfillableStatus(orders[x.order].status) && x.amount == orders[x.order].total)
  }

  ghost predicate RefundsOk(orders: seq<Order>, payments: seq<Payment>, refunds: seq<Refund>) {
    forall r | 0 <= r < |refunds| :: RefundOk(orders, payments, refunds[r])
  }

  /** Every satang of an order's issued tickets is either in a live ticket or in a refund. */
  ghost predicate AccountOk(tickets: seq<Ticket>, refunds: seq<Refund>, o: nat, ord: Order) {
    && ord.refunded == SettledTotal(refunds, o)
    && (if IsPaidStatus(ord.status)
        then RefundTotal(refunds, o) + LiveValue(tickets, o, ord.items) == MintedValue(tickets, o, ord.items)
        else RefundTotal(refunds, o) == SystemCount(refunds, o) * ord.total)
    && (ord.status == Refunded ==> LiveOf(tickets, o) == 0)
  }

  ghost predicate AccountsOk(orders: seq<Order>, tickets: seq<Ticket>, refunds: seq<Refund>) {
    forall o: nat | o < |orders| :: AccountOk(tickets, refunds, o, orders[o])
  }

  ghost function OwingFor(o: nat): (nat, Delivery) -> int {
    (k: nat, x: Delivery) => if x.stage.Owing? && x.stage.order == o then 1 else 0
  }

  /** Deliveries whose handler has still to compensate order `o`. */
  ghost function OwingCount(deliveries: seq<Delivery>, o: nat): int {
    Total(OwingFor(o), deliveries)
  }

  /** Money captured for an order that cannot be honoured is in exactly one place: a delivery
      that owes the compensation, or a compensating refund. */
  ghost predicate CustodyOk(orders: seq<Order>, payments: seq<Payment>, refunds: seq<Refund>, deliveries: seq<Delivery>) {
    forall o: nat | o < |orders| ::
      OwingCount(deliveries, o) + SystemCount(refunds, o)
      == if IsUnfulfillableStatus(orders[o].status) && CapturedFor(payments, o) then 1 else 0
  }

  ghost predicate OwingOk(orders: seq<Order>, payments: seq<Payment>, deliveries: seq<Delivery>) {
    forall d | 0 <= d < |deliveries| && deliveries[d].stage.Owing? ::
      var st := deliveries[d].stage;
      st.order < |orders| && st.amount == orders[st.order].total && PaidBy(payments, st.order, st.intent)
  }

  ghost predicate LegOk(payments: seq<Payment>, refunds: seq<Refund>, l: Leg) {
    && l.refund < |refunds| && l.amount == refunds[l.refund].amount > 0
    && PaidBy(payments, refunds[l.refund].order, l.intent)
  }

  ghost predicate LegsOk(payments: seq<Payment>, refunds: seq<Refund>, legs: seq<Leg>) {
    forall l | 0 <= l < |legs| :: LegOk(payments, refunds, legs[l])
  }

  /** The vendor's books agree with the API's refund rows, intent by intent. */
  ghost predicate BooksOk(payments: seq<Payment>, refunds: seq<Refund>, intents: seq<Intent>, refs: map<nat, nat>) {
    && (forall r | r in refs :: r < |refunds| && refunds[r].amount > 0 && CapturedFor(payments, refunds[r].order))
    && (forall i: nat | i < |intents| ::
          intents[i].refunded
          == if OnRecord(payments, i) then SentTotal(refunds, intents[i].order, refs.Keys) else 0)
  }

  /** The API calls a refund settled only after the vendor has moved the money. */
  ghost predicate SettledOk(refunds: seq<Refund>, refs: map<nat, nat>) {
    forall r: nat | r < |refunds| && refunds[r].status == Settled && refunds[r].amount > 0 :: r in refs
  }

  ghost predicate RefundDraftOk(orders: seq<Order>, tickets: seq<Ticket>, payments: seq<Payment>, d: RefundDraft) {
    && d.order < |orders| && IsPaidStatus(orders[d.order].status)
    && (forall k | k in d.ids :: k < |tickets| && tickets[k].order == d.order)
    && d.amount == PickValue(tickets, d.ids, orders[d.order].items) >= 0
    && (d.amount > 0 ==> d.intent.Some? && PaidBy(payments, d.order, d.intent.value))
  }

  ghost predicate RefundDraftsOk(orders: seq<Order>, tickets: seq<Ticket>, payments: seq<Payment>, drafts: seq<RefundDraft>) {
    forall n | 0 <= n < |drafts| :: RefundDraftOk(orders, tickets, payments, drafts[n])
  }

  ghost predicate OrderDraftsOk(tiers: seq<Tier>, seats: seq<Seat>, drafts: seq<OrderDraft>) {
    forall n | 0 <= n < |drafts| :: DraftOk(tiers, seats, drafts[n])
  }

  ghost predicate MoneyOk(w: World) {
    && PaymentsOk(w.db.orders, w.vendor.intents, w.db.payments)
    && IntentsOk(w.db.orders, w.vendor.intents)
    && PaidOrdersOk(w.db.orders, w.db.payments)
    && EventsOk(w.vendor.intents, w.vendor.refs, w.vendor.events)
    && RefundsOk(w.db.orders, w.db.payments, w.db.refunds)
    && AccountsOk(w.db.orders, w.db.tickets, w.db.refunds)
    && CustodyOk(w.db.orders, w.db.payments, w.db.refunds, w.deliveries)
    && OwingOk(w.db.orders, w.db.payments, w.deliveries)
    && LegsOk(w.db.payments, w.db.refunds, w.legs)
    && BooksOk(w.db.payments, w.db.refunds, w.vendor.intents, w.vendor.refs)
    && SettledOk(w.db.refunds, w.vendor.refs)
    && RefundDraftsOk(w.db.orders, w.db.tickets, w.db.payments, w.refundDrafts)
    && OrderDraftsOk(w.db.tiers, w.db.seats, w.orderDrafts)
  }
}
