/** The rows of the ticketing database and of the payment vendor, as values.
    Tables that only grow (tiers, seats, orders, tickets, payments, refunds, intents)
    are sequences indexed by row id, so a fresh id is the table's length. */
module Tables {

  datatype Option<+T> = None | Some(value: T)

  datatype Kind = Ga | Seated

  /** The columns of a ticket type that are never edited after creation. */
  datatype Tier = Tier(event: nat, kind: Kind, price: nat)

  /** The counters of a ticket type, updated in place by sales, refunds and capacity edits. */
  datatype Stock = Stock(quantity: int, remaining: int, maxPerOrder: int)

  datatype Seat = Seat(event: nat, tier: nat)

  datatype Hold = Hold(id: nat, event: nat, holder: string, order: Option<nat>, expiresAt: int)

  datatype Item = Item(tier: nat, quantity: nat, unitPrice: nat)

  datatype OrderStatus = AwaitingPayment | Paid | Expired | Canceled | PartiallyRefunded | Refunded

  datatype Order = Order(event: nat, status: OrderStatus, total: int, refunded: int,
                         key: Option<string>, items: seq<Item>, expiresAt: Option<int>)

  datatype TicketStatus = Issued | CheckedIn | Void

  datatype Ticket = Ticket(order: nat, tier: nat, seat: Option<nat>, status: TicketStatus, refund: Option<nat>)

  datatype PaymentStatus = RequiresAction | Captured | Declined

  datatype Payment = Payment(order: nat, intent: nat, amount: int, status: PaymentStatus)

  datatype RefundStatus = Pending | Settled | Failed

  /** `byUser` is false exactly for a refund the system issued on its own initiative. */
  datatype Refund = Refund(order: nat, amount: int, status: RefundStatus, key: Option<string>,
                           byUser: bool, providerRefund: Option<nat>)

  /** One message of the live seat feed, in commit order. */
  datatype SeatEvent =
    | SeatsHeld(seats: set<nat>)
    | SeatsReleased(seats: set<nat>)
    | SeatsSold(seats: set<nat>)

  /** The API database. `webhooks` maps a recorded provider event to whether it is marked processed. */
  datatype Db = Db(
    now: int,
    published: set<nat>,
    tiers: seq<Tier>,
    stock: seq<Stock>,
    seats: seq<Seat>,
    holds: map<nat, Hold>,
    nextHold: nat,
    orders: seq<Order>,
    tickets: seq<Ticket>,
    payments: seq<Payment>,
    refunds: seq<Refund>,
    webhooks: map<nat, bool>,
    feed: seq<SeatEvent>)

  predicate IsPaidStatus(status: OrderStatus) {
    status in {Paid, PartiallyRefunded, Refunded}
  }

  predicate IsRefundableStatus(status: OrderStatus) {
    status in {Paid, PartiallyRefunded}
  }

  predicate IsUnfulfillableStatus(status: OrderStatus) {
    status in {Expired, Canceled}
  }

  predicate IsGa(tiers: seq<Tier>, t: nat) {
    t < |tiers| && tiers[t].kind == Ga
  }

  /** The seats whose hold is bound to order `o`. */
  ghost function Bound(holds: map<nat, Hold>, o: nat): set<nat> {
    set s | s in holds && holds[s].order == Some(o)
  }

  /** A non-void ticket exists on seat `s`. */
  ghost predicate SeatSold(tickets: seq<Ticket>, s: nat) {
    exists k :: 0 <= k < |tickets| && tickets[k].seat == Some(s) && tickets[k].status != Void
  }

  /** Lookup by the unique provider intent id. */
  function PaymentByIntent(payments: seq<Payment>, i: nat): (found: Option<nat>)
    ensures found.Some? ==> found.value < |payments| && payments[found.value].intent == i
    ensures found.None? ==> forall k | 0 <= k < |payments| :: payments[k].intent != i
  {
    if payments == [] then None
    else if payments[|payments| - 1].intent == i then Some(|payments| - 1)
    else PaymentByIntent(payments[..|payments| - 1], i)
  }

  /** Lookup by the unique order id. */
  function PaymentByOrder(payments: seq<Payment>, o: nat): (found: Option<nat>)
    ensures found.Some? ==> found.value < |payments| && payments[found.value].order == o
    ensures found.None? ==> forall k | 0 <= k < |payments| :: payments[k].order != o
  {
    if payments == [] then None
    else if payments[|payments| - 1].order == o then Some(|payments| - 1)
    else PaymentByOrder(payments[..|payments| - 1], o)
  }

  /** Lookup by the unique pair of event and idempotency key. */
  function OrderByKey(orders: seq<Order>, event: nat, key: string): (found: Option<nat>)
    ensures found.Some? ==>
      found.value < |orders| && orders[found.value].event == event && orders[found.value].key == Some(key)
    ensures found.None? ==> forall o | 0 <= o < |orders| :: !(orders[o].event == event && orders[o].key == Some(key))
  {
    if orders == [] then None
    else
      var last := orders[|orders| - 1];
      if last.event == event && last.key == Some(key) then Some(|orders| - 1)
      else OrderByKey(orders[..|orders| - 1], event, key)
  }

  /** Lookup by the unique pair of order and idempotency key. */
  function RefundByKey(refunds: seq<Refund>, o: nat, key: string): (found: Option<nat>)
    ensures found.Some? ==>
      found.value < |refunds| && refunds[found.value].order == o && refunds[found.value].key == Some(key)
    ensures found.None? ==> forall r | 0 <= r < |refunds| :: !(refunds[r].order == o && refunds[r].key == Some(key))
  {
    if refunds == [] then None
    else
      var last := refunds[|refunds| - 1];
      if last.order == o && last.key == Some(key) then Some(|refunds| - 1)
      else RefundByKey(refunds[..|refunds| - 1], o, key)
  }
}
