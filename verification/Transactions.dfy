/** The API's database transactions, one atomic step each, as functions on the database value.
    A transaction that aborts returns the database it was given. */
module Transactions {
  import opened Tables
  import opened Sums
  import opened Weights
  import opened Issuing

  const SYSTEM_COMPENSATION_KEY: string := "system:compensation"
  const SEATED_MAX_PER_ORDER: int := 8

  // ---- counters ----

  ghost function TakeItems(stock: seq<Stock>, items: seq<Item>): seq<Stock> {
    seq(|stock|, (t: nat) requires t < |stock| => stock[t].(remaining := stock[t].remaining - QtyOf(items, t)))
  }

  ghost function GiveGaItems(stock: seq<Stock>, tiers: seq<Tier>, items: seq<Item>): seq<Stock> {
    seq(|stock|, (t: nat) requires t < |stock| =>
      stock[t].(remaining := stock[t].remaining + (if IsGa(tiers, t) then QtyOf(items, t) else 0)))
  }

  ghost function TakeSeats(stock: seq<Stock>, seats: seq<Seat>, p: set<nat>): seq<Stock> {
    seq(|stock|, (t: nat) requires t < |stock| =>
      stock[t].(remaining := stock[t].remaining - SeatCount(seats, p, t)))
  }

  ghost function GivePicked(stock: seq<Stock>, tickets: seq<Ticket>, ids: set<nat>): seq<Stock> {
    seq(|stock|, (t: nat) requires t < |stock| =>
      stock[t].(remaining := stock[t].remaining + PickCount(tickets, ids, t)))
  }

  // ---- organizer: tiers, seat maps, capacity ----

  ghost function AddTier(db: Db, event: nat, price: nat, quantity: nat, maxPerOrder: int): Db {
    db.(tiers := db.tiers + [Tier(event, Ga, price)],
        stock := db.stock + [Stock(quantity, quantity, maxPerOrder)])
  }

  /** One seat-map section: a seated tier of `count` places and exactly that many seats. */
  ghost function AddSection(db: Db, event: nat, price: nat, count: nat): Db {
    db.(tiers := db.tiers + [Tier(event, Seated, price)],
        stock := db.stock + [Stock(count, count, SEATED_MAX_PER_ORDER)],
        seats := db.seats + seq(count, _ => Seat(event, |db.tiers|)))
  }

  datatype Section = Section(price: nat, count: nat)

  ghost function AddSections(db: Db, event: nat, sections: seq<Section>): Db {
    if sections == [] then db
    else
      var m := |sections| - 1;
      AddSection(AddSections(db, event, sections[..m]), event, sections[m].price, sections[m].count)
  }

  ghost function AddSeatMap(db: Db, event: nat, sections: seq<Section>): Db {
    if exists s :: 0 <= s < |db.seats| && db.seats[s].event == event then db
    else AddSections(db, event, sections)
  }

  ghost predicate EditAccepted(db: Db, event: nat, t: nat, quantity: Option<int>) {
    && t < |db.tiers| && t < |db.stock| && db.tiers[t].event == event
    && match quantity
       case None => true
       case Some(q) =>
         var st := db.stock[t];
         if db.tiers[t].kind == Seated then q == st.quantity
         else q >= st.quantity - st.remaining && (q != st.quantity ==> st.remaining + (q - st.quantity) >= 0)
  }

  /** A capacity edit: GA capacity moves `remaining` by the same delta, seated capacity cannot move. */
  ghost function EditTier(db: Db, event: nat, t: nat, quantity: Option<int>, maxPerOrder: Option<int>): Db {
    if !EditAccepted(db, event, t, quantity) then db
    else
      var st := db.stock[t];
      var q := match quantity case Some(q) => q case None => st.quantity;
      var m := match maxPerOrder case Some(m) => m case None => st.maxPerOrder;
      db.(stock := db.stock[t := Stock(q, st.remaining + (q - st.quantity), m)])
  }

  // ---- holds ----

  datatype AcquireOutcome = SeatNotFound | Won | Conflict

  ghost function ClearExpired(db: Db, s: nat): map<nat, Hold> {
    if s in db.holds && db.holds[s].expiresAt <= db.now then db.holds - {s} else db.holds
  }

  ghost function AcquireOutcomeOf(db: Db, event: nat, s: nat): AcquireOutcome {
    if !(s < |db.seats| && db.seats[s].event == event && event in db.published) then SeatNotFound
    else if SeatSold(db.tickets, s) || s in ClearExpired(db, s) then Conflict
    else Won
  }

  /** Drop the seat's hold if it has expired, bound or not, then insert unless the seat is sold or held. */
  ghost function Acquire(db: Db, event: nat, s: nat, holder: string, expiresAt: int): Db {
    match AcquireOutcomeOf(db, event, s)
    case SeatNotFound => db
    case Conflict => db.(holds := ClearExpired(db, s))
    case Won => db.(holds := ClearExpired(db, s)[s := Hold(db.nextHold, event, holder, None, expiresAt)],
                    nextHold := db.nextHold + 1,
                    feed := db.feed + [SeatsHeld({s})])
  }

  /** The same holder asking again: its own hold row, read a moment ago, gets a new expiry if it still exists. */
  ghost function Refresh(db: Db, s: nat, id: nat, holder: string, expiresAt: int): Db {
    if s in db.holds && db.holds[s].id == id && db.holds[s].holder == holder
    then db.(holds := db.holds[s := db.holds[s].(expiresAt := expiresAt)])
    else db
  }

  ghost function ReleaseHold(db: Db, event: nat, s: nat, holder: string): Db {
    if s in db.holds && db.holds[s].event == event && db.holds[s].holder == holder && db.holds[s].order == None
    then db.(holds := db.holds - {s}, feed := db.feed + [SeatsReleased({s})])
    else db
  }

  ghost function Sweepable(db: Db): set<nat> {
    set s | s in db.holds && db.holds[s].expiresAt <= db.now && db.holds[s].order == None
  }

  /** The sweeper deletes expired holds, but never one bound to an order. */
  ghost function Sweep(db: Db): Db {
    var gone := Sweepable(db);
    if gone == {} then db
    else db.(holds := db.holds - gone, feed := db.feed + [SeatsReleased(gone)])
  }

  // ---- orders ----

  datatype OrderRequest = OrderRequest(event: nat, lines: seq<(nat, nat)>, seats: set<nat>, holder: Option<string>,
                                       key: Option<string>, expiresAt: int)

  /** What order creation carries from its reads into its transaction. */
  datatype OrderDraft = OrderDraft(event: nat, ga: seq<Item>, groups: seq<Item>, seats: set<nat>, holder: string,
                                   key: Option<string>, total: int, expiresAt: Option<int>)

  ghost predicate OrderKeyTaken(orders: seq<Order>, event: nat, key: Option<string>) {
    key.Some? && exists k :: 0 <= k < |orders| && orders[k].event == event && orders[k].key == key
  }

  ghost predicate LineAccepted(db: Db, event: nat, line: (nat, nat)) {
    && line.0 < |db.tiers| && line.0 < |db.stock|
    && db.tiers[line.0].event == event && db.tiers[line.0].kind == Ga
    && line.1 <= db.stock[line.0].maxPerOrder
  }

  ghost predicate RequestAccepted(db: Db, r: OrderRequest) {
    && (r.lines != [] || r.seats != {})
    && (r.seats != {} ==> r.holder.Some?)
    && !OrderKeyTaken(db.orders, r.event, r.key)
    && r.event in db.published
    && (forall k | 0 <= k < |r.lines| :: LineAccepted(db, r.event, r.lines[k]))
    && (forall i, j | 0 <= i < j < |r.lines| :: r.lines[i].0 != r.lines[j].0)
    && (forall s | s in r.seats :: s < |db.seats| && db.seats[s].event == r.event)
  }

  function PricedLines(tiers: seq<Tier>, lines: seq<(nat, nat)>): seq<Item> {
    seq(|lines|, (k: nat) requires k < |lines| => Item(lines[k].0, lines[k].1, PriceAt(tiers, lines[k].0)))
  }

  /** Prices, seats and the total the buyer will be asked for. */
  ghost function DraftOf(db: Db, r: OrderRequest): OrderDraft {
    var ga := PricedLines(db.tiers, r.lines);
    var groups := Grouped(db.tiers, db.seats, r.seats);
    var total := ItemsValue(ga) + Total(SeatPrice(db.tiers, r.seats), db.seats);
    OrderDraft(r.event, ga, groups, r.seats, match r.holder case Some(h) => h case None => "", r.key, total,
               if total > 0 then Some(r.expiresAt) else None)
  }

  /** The reads before the transaction. */
  ghost function DraftOrder(db: Db, r: OrderRequest): Option<OrderDraft> {
    if !RequestAccepted(db, r) then None else Some(DraftOf(db, r))
  }

  ghost predicate CanClaim(stock: seq<Stock>, items: seq<Item>) {
    forall k | 0 <= k < |items| ::
      items[k].tier < |stock| && stock[items[k].tier].remaining >= items[k].quantity
  }

  /** The seat is held right now by the buyer of this draft; whether it is bound already is not asked. */
  ghost predicate HeldBy(db: Db, d: OrderDraft, s: nat) {
    && s in db.holds && db.holds[s].event == d.event && db.holds[s].holder == d.holder
    && db.holds[s].expiresAt > db.now
  }

  datatype CommitOutcome = SoldOut | Replayed | HoldExpired | Reserved(o: nat) | Granted(o: nat)

  ghost function CommitOutcomeOf(db: Db, d: OrderDraft): CommitOutcome {
    if !CanClaim(db.stock, d.ga) then SoldOut
    else if OrderKeyTaken(db.orders, d.event, d.key) then Replayed
    else if exists s :: s in d.seats && !HeldBy(db, d, s) then HoldExpired
    else if d.total > 0 then Reserved(|db.orders|)
    else Granted(|db.orders|)
  }

  function DraftItems(d: OrderDraft): seq<Item> {
    d.ga + d.groups
  }

  function DraftRow(d: OrderDraft): Order {
    Order(d.event, if d.total > 0 then AwaitingPayment else Paid, d.total, 0, d.key, DraftItems(d), d.expiresAt)
  }

  ghost function BindHolds(db: Db, d: OrderDraft): map<nat, Hold> {
    map s | s in db.holds ::
      if s in d.seats
      then db.holds[s].(order := Some(|db.orders|), expiresAt := match d.expiresAt case Some(e) => e case None => 0)
      else db.holds[s]
  }

  ghost function CommitOrder(db: Db, d: OrderDraft): Db {
    match CommitOutcomeOf(db, d)
    case Reserved(o) =>
      db.(stock := TakeItems(db.stock, d.ga), orders := db.orders + [DraftRow(d)], holds := BindHolds(db, d))
    case Granted(o) =>
      db.(stock := TakeSeats(TakeItems(db.stock, d.ga), db.seats, d.seats),
          orders := db.orders + [DraftRow(d)],
          holds := db.holds - d.seats,
          tickets := db.tickets + Minted(o, db.tiers, d.ga, db.seats, d.seats),
          feed := if d.seats == {} then db.feed else db.feed + [SeatsSold(d.seats)])
    case _ => db
  }

  /** Give an unpaid order's inventory back, once: only an order awaiting payment is released. */
  ghost function Release(db: Db, o: nat, final: OrderStatus): Db {
    if !(o < |db.orders| && db.orders[o].status == AwaitingPayment) then db
    else
      var gone := Bound(db.holds, o);
      db.(orders := db.orders[o := db.orders[o].(status := final)],
          stock := GiveGaItems(db.stock, db.tiers, db.orders[o].items),
          holds := db.holds - gone,
          feed := if gone == {} then db.feed else db.feed + [SeatsReleased(gone)])
  }

  ghost function AddPayment(db: Db, o: nat, i: nat, amount: int): Db {
    if PaymentByOrder(db.payments, o).Some? || PaymentByIntent(db.payments, i).Some? then db
    else db.(payments := db.payments + [Payment(o, i, amount, RequiresAction)])
  }

  // ---- payments ----

  datatype SucceededOutcome = Ignored | PaidOff | Unfulfillable(order: nat, amount: int)

  ghost function SucceededOutcomeOf(db: Db, i: nat): SucceededOutcome {
    match PaymentByIntent(db.payments, i)
    case None => Ignored
    case Some(p) =>
      var o := db.payments[p].order;
      if db.payments[p].status != RequiresAction || o >= |db.orders| then Ignored
      else if db.orders[o].status == AwaitingPayment then PaidOff
      else if IsUnfulfillableStatus(db.orders[o].status) then Unfulfillable(o, db.payments[p].amount)
      else Ignored
  }

  /** Settlement of an awaiting order: consume its bound holds, decrement seated tiers, issue the tickets. */
  ghost function PayOff(db: Db, o: nat): Db
    requires o < |db.orders|
  {
    var p := Bound(db.holds, o);
    db.(orders := db.orders[o := db.orders[o].(status := Paid)],
        holds := db.holds - p,
        stock := TakeSeats(db.stock, db.seats, p),
        tickets := db.tickets + Minted(o, db.tiers, db.orders[o].items, db.seats, p),
        feed := if p == {} then db.feed else db.feed + [SeatsSold(p)])
  }

  ghost function SetPayment(db: Db, i: nat, status: PaymentStatus): Db
    requires PaymentByIntent(db.payments, i).Some?
  {
    var p := PaymentByIntent(db.payments, i).value;
    db.(payments := db.payments[p := db.payments[p].(status := status)])
  }

  ghost function HandleSucceeded(db: Db, i: nat): Db {
    match PaymentByIntent(db.payments, i)
    case None => db
    case Some(p) =>
      if db.payments[p].status != RequiresAction then db
      else if SucceededOutcomeOf(db, i) == PaidOff then PayOff(SetPayment(db, i, Captured), db.payments[p].order)
      else SetPayment(db, i, Captured)
  }

  ghost function HandleFailed(db: Db, i: nat): Db {
    match PaymentByIntent(db.payments, i)
    case None => db
    case Some(p) =>
      if db.payments[p].status != RequiresAction then db
      else Release(SetPayment(db, i, Declined), db.payments[p].order, Canceled)
  }

  // ---- refunds ----

  /** Money has come back to order `o`: book it and derive the order's status from its live tickets. */
  ghost function Settle(db: Db, o: nat, amount: int): Db {
    if o >= |db.orders| then db
    else
      var ord := db.orders[o].(refunded := db.orders[o].refunded + amount);
      var status := if !IsRefundableStatus(ord.status) then ord.status
                    else if LiveOf(db.tickets, o) == 0 then Refunded else PartiallyRefunded;
      db.(orders := db.orders[o := ord.(status := status)])
  }

  ghost function HandleRefunded(db: Db, reference: Option<nat>, refundId: nat): Db {
    match reference
    case None => db
    case Some(r) =>
      if !(r < |db.refunds| && db.refunds[r].status == Pending) then db
      else Settle(db.(refunds := db.refunds[r := db.refunds[r].(status := Settled, providerRefund := Some(refundId))]),
                  db.refunds[r].order, db.refunds[r].amount)
  }

  /** What refund creation carries from its reads into its transaction. */
  datatype RefundDraft = RefundDraft(order: nat, ids: set<nat>, amount: int, key: Option<string>, intent: Option<nat>)

  ghost predicate RefundKeyTaken(refunds: seq<Refund>, o: nat, key: Option<string>) {
    key.Some? && exists k :: 0 <= k < |refunds| && refunds[k].order == o && refunds[k].key == key
  }

  ghost predicate RefundAccepted(db: Db, event: nat, o: nat, ids: set<nat>, key: Option<string>) {
    && o < |db.orders| && db.orders[o].event == event
    && !RefundKeyTaken(db.refunds, o, key)
    && IsRefundableStatus(db.orders[o].status)
    && ids != {}
    && forall k | k in ids :: k < |db.tickets| && db.tickets[k].order == o
  }

  ghost function RefundDraftOf(db: Db, o: nat, ids: set<nat>, key: Option<string>): RefundDraft
    requires o < |db.orders|
  {
    RefundDraft(o, ids, PickValue(db.tickets, ids, db.orders[o].items), key,
                match PaymentByOrder(db.payments, o)
                case Some(p) => Some(db.payments[p].intent)
                case None => None)
  }

  ghost function DraftRefund(db: Db, event: nat, o: nat, ids: set<nat>, key: Option<string>): Option<RefundDraft> {
    if !RefundAccepted(db, event, o, ids, key) then None else Some(RefundDraftOf(db, o, ids, key))
  }

  ghost function VoidTickets(tickets: seq<Ticket>, ids: set<nat>, r: nat): seq<Ticket> {
    seq(|tickets|, (k: nat) requires k < |tickets| =>
      if k in ids then tickets[k].(status := Void, refund := Some(r)) else tickets[k])
  }

  ghost function SeatsOfTickets(tickets: seq<Ticket>, ids: set<nat>): set<nat> {
    set k | k in ids && k < |tickets| && tickets[k].seat.Some? :: tickets[k].seat.value
  }

  ghost predicate RefundCommits(db: Db, d: RefundDraft) {
    && !RefundKeyTaken(db.refunds, d.order, d.key)
    && forall k | k in d.ids :: k < |db.tickets| && db.tickets[k].order == d.order && db.tickets[k].status == Issued
  }

  function RefundRow(d: RefundDraft): Refund {
    Refund(d.order, d.amount, if d.amount == 0 then Settled else Pending, d.key, true, None)
  }

  /** Reclaim first: record the refund, void its tickets, return their places; a free refund settles at once. */
  ghost function CommitRefund(db: Db, d: RefundDraft): Db {
    if !RefundCommits(db, d) then db
    else
      var freed := SeatsOfTickets(db.tickets, d.ids);
      var reclaimed := db.(
        refunds := db.refunds + [RefundRow(d)],
        tickets := VoidTickets(db.tickets, d.ids, |db.refunds|),
        stock := GivePicked(db.stock, db.tickets, d.ids),
        feed := if freed == {} then db.feed else db.feed + [SeatsReleased(freed)]);
      if d.amount == 0 then Settle(reclaimed, d.order, 0) else reclaimed
  }

  ghost predicate CompensationAccepted(db: Db, o: nat) {
    && (forall k | 0 <= k < |db.refunds| :: db.refunds[k].order == o ==> db.refunds[k].byUser)
    && !RefundKeyTaken(db.refunds, o, Some(SYSTEM_COMPENSATION_KEY))
  }

  /** Money was captured for an order that cannot be honoured: open one full refund on the system's behalf. */
  ghost function Compensate(db: Db, o: nat, amount: int): Db {
    if !CompensationAccepted(db, o) then db
    else db.(refunds := db.refunds + [Refund(o, amount, Pending, Some(SYSTEM_COMPENSATION_KEY), false, None)])
  }

  ghost function SetRefundStatus(db: Db, r: nat, from: RefundStatus, to: RefundStatus): Db {
    if r < |db.refunds| && db.refunds[r].status == from
    then db.(refunds := db.refunds[r := db.refunds[r].(status := to)])
    else db
  }

  ghost function SetProviderRefund(db: Db, r: nat, id: nat): Db {
    if r < |db.refunds| then db.(refunds := db.refunds[r := db.refunds[r].(providerRefund := Some(id))]) else db
  }

  // ---- the door ----

  ghost predicate TicketOfEvent(db: Db, event: nat, k: nat) {
    k < |db.tickets| && db.tickets[k].tier < |db.tiers| && db.tiers[db.tickets[k].tier].event == event
  }

  ghost function CheckIn(db: Db, event: nat, k: nat): Db {
    if TicketOfEvent(db, event, k) && db.tickets[k].status == Issued
    then db.(tickets := db.tickets[k := db.tickets[k].(status := CheckedIn)])
    else db
  }
}
