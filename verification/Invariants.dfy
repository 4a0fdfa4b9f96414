/** What every reachable world satisfies, one predicate per concern, each over the tables it reads. */
module Invariants {
  import opened Tables
  import opened Sums
  import opened Weights
  import opened Issuing
  import opened Transactions
  import opened Protocol

  // ---- inventory ----

  ghost predicate CatalogOk(tiers: seq<Tier>, stock: seq<Stock>, seats: seq<Seat>) {
    && |stock| == |tiers|
    && forall s | 0 <= s < |seats| ::
         seats[s].tier < |tiers| && tiers[seats[s].tier].kind == Seated && tiers[seats[s].tier].event == seats[s].event
  }

  /** A seated tier sells exactly the seats the map gave it. */
  ghost predicate CapacityOk(tiers: seq<Tier>, stock: seq<Stock>, seats: seq<Seat>) {
    forall t: nat | t < |tiers| && t < |stock| && tiers[t].kind == Seated ::
      stock[t].quantity == Total(OfTier(t), seats)
  }

  ghost predicate KnownTiers(tiers: seq<Tier>, items: seq<Item>) {
    forall k | 0 <= k < |items| :: items[k].tier < |tiers|
  }

  ghost predicate ItemsOk(tiers: seq<Tier>, items: seq<Item>) {
    DistinctTiers(items) && PricedAt(tiers, items) && KnownTiers(tiers, items)
  }

  ghost predicate OrdersOk(tiers: seq<Tier>, orders: seq<Order>) {
    forall o | 0 <= o < |orders| ::
      ItemsOk(tiers, orders[o].items) && orders[o].total == ItemsValue(orders[o].items)
  }

  /** A bound hold names an order awaiting payment that bought a place in the seat's tier. */
  ghost predicate HoldsOk(seats: seq<Seat>, holds: map<nat, Hold>, orders: seq<Order>) {
    forall s | s in holds ::
      && s < |seats| && holds[s].event == seats[s].event
      && (holds[s].order.Some? ==>
            var o := holds[s].order.value;
            o < |orders| && orders[o].status == AwaitingPayment && HasTier(orders[o].items, seats[s].tier))
  }

  /** No two live tickets on one seat, and no hold on a sold seat. */
  ghost predicate SeatsExclusive(holds: map<nat, Hold>, tickets: seq<Ticket>) {
    && (forall s | s in holds :: !SeatSold(tickets, s))
    && (forall i, j | 0 <= i < j < |tickets| && tickets[i].status != Void && tickets[j].status != Void ::
          tickets[i].seat.Some? ==> tickets[i].seat != tickets[j].seat)
  }

  ghost predicate TicketOk(tiers: seq<Tier>, seats: seq<Seat>, orders: seq<Order>, x: Ticket) {
    && x.order < |orders| && IsPaidStatus(orders[x.order].status) && HasTier(orders[x.order].items, x.tier)
    && x.tier < |tiers|
    && match x.seat
       case None => IsGa(tiers, x.tier)
       case Some(s) => s < |seats| && seats[s].tier == x.tier
  }

  ghost predicate TicketsOk(tiers: seq<Tier>, seats: seq<Seat>, orders: seq<Order>, tickets: seq<Ticket>) {
    forall k | 0 <= k < |tickets| :: TicketOk(tiers, seats, orders, tickets[k])
  }

  /** Claimed capacity: what is issued, plus, for general admission, what is in checkout. */
  ghost function Claimed(tiers: seq<Tier>, orders: seq<Order>, tickets: seq<Ticket>, t: nat): int {
    LiveCount(tickets, t) + (if IsGa(tiers, t) then AwaitingQty(orders, t) else 0)
  }

  ghost predicate Ledger(tiers: seq<Tier>, stock: seq<Stock>, orders: seq<Order>, tickets: seq<Ticket>) {
    forall t: nat | t < |tiers| && t < |stock| ::
      && stock[t].quantity - stock[t].remaining == Claimed(tiers, orders, tickets, t)
      && (IsGa(tiers, t) ==> stock[t].remaining >= 0)
  }

  /** The seats bound to an order fit what it bought, in number and in price. */
  ghost predicate BoundFits(tiers: seq<Tier>, seats: seq<Seat>, p: set<nat>, ord: Order) {
    && (forall t: nat | !IsGa(tiers, t) :: SeatCount(seats, p, t) <= QtyOf(ord.items, t))
    && GaValue(tiers, ord.items) + SeatsValue(seats, p, ord.items) <= ord.total
  }

  ghost predicate BoundOk(tiers: seq<Tier>, seats: seq<Seat>, holds: map<nat, Hold>, orders: seq<Order>) {
    forall o: nat | o < |orders| && orders[o].status == AwaitingPayment ::
      BoundFits(tiers, seats, Bound(holds, o), orders[o])
  }

  /** The tickets ever issued to a paid order fit what it bought; its general admission is complete. */
  ghost predicate MintedFits(tiers: seq<Tier>, tickets: seq<Ticket>, o: nat, ord: Order) {
    && (forall t: nat ::
          MintedCount(tickets, o, t) <= QtyOf(ord.items, t)
          && (IsGa(tiers, t) ==> MintedCount(tickets, o, t) == QtyOf(ord.items, t)))
    && MintedValue(tickets, o, ord.items) <= ord.total
  }

  ghost predicate MintedOk(tiers: seq<Tier>, orders: seq<Order>, tickets: seq<Ticket>) {
    forall o: nat | o < |orders| && IsPaidStatus(orders[o].status) :: MintedFits(tiers, tickets, o, orders[o])
  }

  // ---- the seat feed ----

  datatype SeatStatus = Available | Taken | Gone

  /** What the database says about a seat. */
  ghost function StatusOf(holds: map<nat, Hold>, tickets: seq<Ticket>, s: nat): SeatStatus {
    if SeatSold(tickets, s) then Gone else if s in holds then Taken else Available
  }

  function StatusIn(e: SeatEvent): SeatStatus {
    match e
    case SeatsHeld(_) => Taken
    case SeatsReleased(_) => Available
    case SeatsSold(_) => Gone
  }

  /** What a viewer who folded the feed, last message wins, says about a seat. */
  ghost function FeedStatus(feed: seq<SeatEvent>, s: nat): SeatStatus {
    if feed == [] then Available
    else if s in feed[|feed| - 1].seats then StatusIn(feed[|feed| - 1])
    else FeedStatus(feed[..|feed| - 1], s)
  }

  ghost predicate FeedOk(feed: seq<SeatEvent>, holds: map<nat, Hold>, tickets: seq<Ticket>) {
    forall s: nat :: FeedStatus(feed, s) == StatusOf(holds, tickets, s)
  }

  ghost predicate InventoryOk(db: Db) {
    && CatalogOk(db.tiers, db.stock, db.seats)
    && CapacityOk(db.tiers, db.stock, db.seats)
    && OrdersOk(db.tiers, db.orders)
    && HoldsOk(db.seats, db.holds, db.orders)
    && SeatsExclusive(db.holds, db.tickets)
    && TicketsOk(db.tiers, db.seats, db.orders, db.tickets)
    && Ledger(db.tiers, db.stock, db.orders, db.tickets)
    && BoundOk(db.tiers, db.seats, db.holds, db.orders)
    && MintedOk(db.tiers, db.orders, db.tickets)
    && FeedOk(db.feed, db.holds, db.tickets)
  }
}
