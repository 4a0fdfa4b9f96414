/** The whole system: API database, payment vendor, and the requests, calls and webhook
    deliveries in flight between them. Every action is one atomic step; a crash or a lost
    message is an action that never happens, a duplicate is one that happens again. */
module Protocol {
  import opened Tables
  import opened Transactions

  // ---- the vendor ----

  datatype IntentStatus = IntentOpen | IntentSucceeded | IntentFailed

  datatype Intent = Intent(order: nat, amount: int, status: IntentStatus, refunded: int)

  /** A webhook the vendor has emitted; its id is its position in the vendor's event log. */
  datatype VendorEvent =
    | SucceededEvent(intent: nat)
    | FailedEvent(intent: nat)
    | RefundedEvent(intent: nat, reference: Option<nat>, refundId: nat, amount: int)
    | UnknownEvent

  /** `refs` maps a refund reference to the vendor's refund id; `minted` counts refund ids handed out. */
  datatype Vendor = Vendor(intents: seq<Intent>, refs: map<nat, nat>, minted: nat, events: seq<VendorEvent>)

  datatype RefundReply =
    | Accepted(refundId: nat)
    | Duplicate(refundId: nat)
    | NotFound
    | InvalidAmount
    | NotSucceeded
    | OverRefund

  ghost function VendorCreate(v: Vendor, order: nat, amount: int): Vendor {
    if amount <= 0 then v else v.(intents := v.intents + [Intent(order, amount, IntentOpen, 0)])
  }

  /** Only an open intent resolves, and only a fresh resolution emits its webhook. */
  ghost function VendorResolve(v: Vendor, i: nat, ok: bool): Vendor {
    if !(i < |v.intents| && v.intents[i].status == IntentOpen) then v
    else
      v.(intents := v.intents[i := v.intents[i].(status := if ok then IntentSucceeded else IntentFailed)],
         events := v.events + [if ok then SucceededEvent(i) else FailedEvent(i)])
  }

  ghost function VendorReply(v: Vendor, i: nat, reference: Option<nat>, amount: int): RefundReply {
    if i >= |v.intents| then NotFound
    else if reference.Some? && reference.value in v.refs then Duplicate(v.refs[reference.value])
    else if amount <= 0 then InvalidAmount
    else if v.intents[i].status != IntentSucceeded then NotSucceeded
    else if v.intents[i].refunded + amount > v.intents[i].amount then OverRefund
    else Accepted(v.minted)
  }

  /** A refund call: a seen reference moves nothing and emits nothing. */
  ghost function VendorRefund(v: Vendor, i: nat, reference: Option<nat>, amount: int): Vendor {
    match VendorReply(v, i, reference, amount)
    case Accepted(id) =>
      v.(intents := v.intents[i := v.intents[i].(refunded := v.intents[i].refunded + amount)],
         refs := if reference.Some? then v.refs[reference.value := id] else v.refs,
         minted := v.minted + 1,
         events := v.events + [RefundedEvent(i, reference, id, amount)])
    case _ => v
  }

  // ---- what is in flight ----

  /** A refund call the API has decided to send: the vendor may see it never, late, or repeatedly. */
  datatype Leg = Leg(refund: nat, intent: nat, amount: int)

  /** Where a webhook delivery's handler stands. `Owing` sits between the settlement transaction
      that found the order unfulfillable and the compensation that follows it. */
  datatype Stage = Received | Owing(order: nat, amount: int, intent: nat) | Handled | Acknowledged

  datatype Delivery = Delivery(event: nat, stage: Stage)

  /** `checkouts` are the orders whose creating request is still running: it has yet to ask the vendor, to
      record the payment or to return, and cancels the order if anything throws on the way. */
  datatype World = World(
    db: Db,
    vendor: Vendor,
    orderDrafts: seq<OrderDraft>,
    refundDrafts: seq<RefundDraft>,
    checkouts: set<nat>,
    legs: seq<Leg>,
    deliveries: seq<Delivery>)

  ghost predicate Initial(w: World) {
    && w.db.tiers == [] && w.db.stock == [] && w.db.seats == [] && w.db.holds == map[] && w.db.orders == []
    && w.db.tickets == [] && w.db.payments == [] && w.db.refunds == [] && w.db.webhooks == map[] && w.db.feed == []
    && w.vendor == Vendor([], map[], 0, [])
    && w.orderDrafts == [] && w.refundDrafts == [] && w.checkouts == {} && w.legs == [] && w.deliveries == []
  }

  datatype Action =
    // the organizer
    | Publish(event: nat)
    | DoAddTier(event: nat, price: nat, quantity: nat, maxPerOrder: int)
    | DoAddSeatMap(event: nat, sections: seq<Section>)
    | DoEditTier(event: nat, tier: nat, newQuantity: Option<int>, newMax: Option<int>)
    // time
    | Tick(elapsed: nat)
    // holds
    | DoAcquire(event: nat, seat: nat, holder: string, expiresAt: int)
    | DoRefresh(seat: nat, hold: nat, holder: string, expiresAt: int)
    | DoReleaseHold(event: nat, seat: nat, holder: string)
    | DoSweep
    // orders
    | ReadOrder(request: OrderRequest)
    | DoCommitOrder(draft: nat)
    | OpenIntent(order: nat)
    | RecordPayment(order: nat, intent: nat)
    | ReturnCheckout(order: nat)
    | AbortCheckout(order: nat)
    | ExpireOrder(order: nat)
    // the vendor's customer
    | Confirm(intent: nat, ok: bool)
    // webhooks
    | StrayEvent
    | Deliver(webhook: nat)
    | Handle(delivery: nat)
    | DoCompensate(delivery: nat)
    | MarkProcessed(delivery: nat)
    // refunds
    | ReadRefund(event: nat, order: nat, ids: set<nat>, key: Option<string>)
    | DoCommitRefund(draft: nat)
    | RetryRefund(refund: nat)
    | LegArrives(leg: nat)
    | LegAnswered(leg: nat)
    | LegFails(leg: nat)
    // the door
    | DoCheckIn(event: nat, ticket: nat)

  ghost function SetStage(w: World, d: nat, stage: Stage): seq<Delivery>
    requires d < |w.deliveries|
  {
    w.deliveries[d := w.deliveries[d].(stage := stage)]
  }

  /** The settlement transaction of a received delivery, by event type. */
  ghost function HandleDelivery(w: World, d: nat): World {
    if !(d < |w.deliveries| && w.deliveries[d].stage == Received && w.deliveries[d].event < |w.vendor.events|) then w
    else
      match w.vendor.events[w.deliveries[d].event]
      case SucceededEvent(i) =>
        var stage := match SucceededOutcomeOf(w.db, i)
                     case Unfulfillable(o, amount) => Owing(o, amount, i)
                     case _ => Handled;
        w.(db := HandleSucceeded(w.db, i), deliveries := SetStage(w, d, stage))
      case FailedEvent(i) => w.(db := HandleFailed(w.db, i), deliveries := SetStage(w, d, Handled))
      case RefundedEvent(i, reference, id, amount) =>
        w.(db := HandleRefunded(w.db, reference, id), deliveries := SetStage(w, d, Handled))
      case UnknownEvent => w.(deliveries := SetStage(w, d, Handled))
  }

  ghost function CompensateDelivery(w: World, d: nat): World {
    if !(d < |w.deliveries| && w.deliveries[d].stage.Owing?) then w
    else
      var st := w.deliveries[d].stage;
      w.(db := Compensate(w.db, st.order, st.amount),
         legs := if CompensationAccepted(w.db, st.order)
                 then w.legs + [Leg(|w.db.refunds|, st.intent, st.amount)] else w.legs,
         deliveries := SetStage(w, d, Handled))
  }

  ghost function RecordDelivery(w: World, e: nat): World {
    if e >= |w.vendor.events| || (e in w.db.webhooks && w.db.webhooks[e]) then w
    else
      w.(db := if e in w.db.webhooks then w.db else w.db.(webhooks := w.db.webhooks[e := false]),
         deliveries := w.deliveries + [Delivery(e, Received)])
  }

  ghost function MarkDelivery(w: World, d: nat): World {
    if !(d < |w.deliveries| && w.deliveries[d].stage == Handled) then w
    else
      w.(db := w.db.(webhooks := w.db.webhooks[w.deliveries[d].event := true]),
         deliveries := SetStage(w, d, Acknowledged))
  }

  ghost function CommitDraft(w: World, n: nat): World {
    if n >= |w.orderDrafts| then w
    else
      var d := w.orderDrafts[n];
      w.(db := CommitOrder(w.db, d),
         checkouts := match CommitOutcomeOf(w.db, d)
                      case Reserved(o) => w.checkouts + {o}
                      case _ => w.checkouts)
  }

  ghost function CommitRefundDraft(w: World, n: nat): World {
    if n >= |w.refundDrafts| then w
    else
      var d := w.refundDrafts[n];
      w.(db := CommitRefund(w.db, d),
         legs := if RefundCommits(w.db, d) && d.amount != 0 && d.intent.Some?
                 then w.legs + [Leg(|w.db.refunds|, d.intent.value, d.amount)] else w.legs)
  }

  ghost function Retry(w: World, r: nat): World {
    if !(r < |w.db.refunds| && w.db.refunds[r].status == Failed) then w
    else
      match PaymentByOrder(w.db.payments, w.db.refunds[r].order)
      case None => w
      case Some(p) =>
        w.(db := SetRefundStatus(w.db, r, Failed, Pending),
           legs := w.legs + [Leg(r, w.db.payments[p].intent, w.db.refunds[r].amount)])
  }

  // ---- one step, family by family ----

  predicate OfCatalog(a: Action) {
    a.Publish? || a.DoAddTier? || a.DoAddSeatMap? || a.DoEditTier? || a.Tick?
  }

  predicate OfHolds(a: Action) {
    a.DoAcquire? || a.DoRefresh? || a.DoReleaseHold? || a.DoSweep?
  }

  predicate OfOrders(a: Action) {
    a.ReadOrder? || a.DoCommitOrder? || a.OpenIntent? || a.RecordPayment? || a.ReturnCheckout? || a.AbortCheckout?
    || a.ExpireOrder?
  }

  predicate OfWebhooks(a: Action) {
    a.Confirm? || a.StrayEvent? || a.Deliver? || a.Handle? || a.DoCompensate? || a.MarkProcessed?
  }

  predicate OfRefunds(a: Action) {
    a.ReadRefund? || a.DoCommitRefund? || a.RetryRefund? || a.LegArrives? || a.LegAnswered? || a.LegFails?
  }

  ghost function NextCatalog(w: World, a: Action): World
    requires OfCatalog(a)
  {
    match a
    case Publish(e) => w.(db := w.db.(published := w.db.published + {e}))
    case DoAddTier(e, price, quantity, m) => w.(db := AddTier(w.db, e, price, quantity, m))
    case DoAddSeatMap(e, sections) => w.(db := AddSeatMap(w.db, e, sections))
    case DoEditTier(e, t, q, m) => w.(db := EditTier(w.db, e, t, q, m))
    case Tick(elapsed) => w.(db := w.db.(now := w.db.now + elapsed))
  }

  ghost function NextHolds(w: World, a: Action): World
    requires OfHolds(a)
  {
    match a
    case DoAcquire(e, s, holder, expiresAt) => w.(db := Acquire(w.db, e, s, holder, expiresAt))
    case DoRefresh(s, id, holder, expiresAt) => w.(db := Refresh(w.db, s, id, holder, expiresAt))
    case DoReleaseHold(e, s, holder) => w.(db := ReleaseHold(w.db, e, s, holder))
    case DoSweep => w.(db := Sweep(w.db))
  }

  ghost function NextOrders(w: World, a: Action): World
    requires OfOrders(a)
  {
    match a
    case ReadOrder(r) =>
      (match DraftOrder(w.db, r) case None => w case Some(d) => w.(orderDrafts := w.orderDrafts + [d]))
    case DoCommitOrder(n) => CommitDraft(w, n)
    case OpenIntent(o) =>
      if o < |w.db.orders| && w.db.orders[o].total > 0
      then w.(vendor := VendorCreate(w.vendor, o, w.db.orders[o].total)) else w
    case RecordPayment(o, i) =>
      if o in w.checkouts && o < |w.db.orders| && i < |w.vendor.intents| && w.vendor.intents[i].order == o
      then w.(db := AddPayment(w.db, o, i, w.db.orders[o].total)) else w
    case ReturnCheckout(o) => w.(checkouts := w.checkouts - {o})
    case AbortCheckout(o) =>
      if o in w.checkouts then w.(db := Release(w.db, o, Canceled), checkouts := w.checkouts - {o}) else w
    case ExpireOrder(o) => w.(db := Release(w.db, o, Expired))
  }

  ghost function NextWebhooks(w: World, a: Action): World
    requires OfWebhooks(a)
  {
    match a
    case Confirm(i, ok) => w.(vendor := VendorResolve(w.vendor, i, ok))
    case StrayEvent => w.(vendor := w.vendor.(events := w.vendor.events + [UnknownEvent]))
    case Deliver(e) => RecordDelivery(w, e)
    case Handle(d) => HandleDelivery(w, d)
    case DoCompensate(d) => CompensateDelivery(w, d)
    case MarkProcessed(d) => MarkDelivery(w, d)
  }

  ghost function NextRefunds(w: World, a: Action): World
    requires OfRefunds(a)
  {
    match a
    case ReadRefund(e, o, ids, key) =>
      (match DraftRefund(w.db, e, o, ids, key) case None => w case Some(d) => w.(refundDrafts := w.refundDrafts + [d]))
    case DoCommitRefund(n) => CommitRefundDraft(w, n)
    case RetryRefund(r) => Retry(w, r)
    case LegArrives(l) =>
      if l < |w.legs|
      then w.(vendor := VendorRefund(w.vendor, w.legs[l].intent, Some(w.legs[l].refund), w.legs[l].amount)) else w
    case LegAnswered(l) =>
      if l < |w.legs| && w.legs[l].refund in w.vendor.refs
      then w.(db := SetProviderRefund(w.db, w.legs[l].refund, w.vendor.refs[w.legs[l].refund])) else w
    case LegFails(l) =>
      if l < |w.legs| then w.(db := SetRefundStatus(w.db, w.legs[l].refund, Pending, Failed)) else w
  }

  ghost function Next(w: World, a: Action): World {
    if OfCatalog(a) then NextCatalog(w, a)
    else if OfHolds(a) then NextHolds(w, a)
    else if OfOrders(a) then NextOrders(w, a)
    else if OfWebhooks(a) then NextWebhooks(w, a)
    else if OfRefunds(a) then NextRefunds(w, a)
    else w.(db := CheckIn(w.db, a.event, a.ticket))
  }

  /** The world after a whole schedule. */
  ghost function Run(w: World, schedule: seq<Action>): World
  {
    if schedule == [] then w
    else Next(Run(w, schedule[..|schedule| - 1]), schedule[|schedule| - 1])
  }

  ghost predicate Reachable(w: World) {
    exists w0: World, schedule: seq<Action> :: Initial(w0) && w == Run(w0, schedule)
  }
}
