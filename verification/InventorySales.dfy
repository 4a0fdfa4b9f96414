/** Selling keeps the inventory invariant: order creation, release, settlement, refunds, the door. */
module InventorySales {
  import opened Tables
  import opened Sums
  import opened Weights
  import opened Issuing
  import opened Transactions
  import opened Invariants
  import opened InventoryHolds
  import opened InventoryCatalog
  import opened Drafts

  // ---- issuing a batch ----

  lemma NoTickets(tiers: seq<Tier>, seats: seq<Seat>, orders: seq<Order>, tickets: seq<Ticket>, o: nat, items: seq<Item>)
    requires TicketsOk(tiers, seats, orders, tickets)
    requires o >= |orders| || !IsPaidStatus(orders[o].status)
    ensures MintedValue(tickets, o, items) == 0 && LiveValue(tickets, o, items) == 0 && LiveOf(tickets, o) == 0
    ensures forall t: nat :: MintedCount(tickets, o, t) == 0
    ensures forall k | 0 <= k < |tickets| :: tickets[k].order != o
  {
    forall k | 0 <= k < |tickets| ensures tickets[k].order != o {
      assert TicketOk(tiers, seats, orders, tickets[k]);
    }
    TotalZero(MintedPrice(o, items), tickets);
    TotalZero(LivePrice(o, items), tickets);
    TotalZero(LiveFor(o), tickets);
    forall t: nat ensures MintedCount(tickets, o, t) == 0 {
      TotalZero(MintedIn(o, t), tickets);
    }
  }

  /** Issuing on held seats, whose holds go: no seat ends up with two tickets, or a ticket and a hold. */
  lemma MintExclusive(holds: map<nat, Hold>, tickets: seq<Ticket>, o: nat, tiers: seq<Tier>, items: seq<Item>,
                      seats: seq<Seat>, p: set<nat>)
    requires SeatsExclusive(holds, tickets)
    requires forall s | s in p :: s in holds && s < |seats|
    ensures var after := tickets + Minted(o, tiers, items, seats, p);
      && SeatsExclusive(holds - p, after)
      && forall s: nat :: StatusOf(holds - p, after, s) == if s in p then Gone else StatusOf(holds, tickets, s)
  {
    var batch := Minted(o, tiers, items, seats, p);
    var after := tickets + batch;
    MintedRows(o, tiers, items, seats, p);
    forall s: nat ensures SeatSold(after, s) <==> (SeatSold(tickets, s) || s in p) {
      MintSold(tickets, batch, p, s);
    }
    forall i, j | 0 <= i < j < |after| && after[i].status != Void && after[j].status != Void && after[i].seat.Some?
      ensures after[i].seat != after[j].seat
    {
      if i < |tickets| <= j && after[i].seat == after[j].seat {
        assert FreshRow(batch[j - |tickets|], o, tiers, items, seats, p);
        assert SeatSold(tickets, after[i].seat.value);
        assert false;
      }
    }
  }

  lemma MintSold(tickets: seq<Ticket>, batch: seq<Ticket>, p: set<nat>, s: nat)
    requires forall k | 0 <= k < |batch| :: batch[k].status == Issued && (batch[k].seat.Some? ==> batch[k].seat.value in p)
    requires s in p ==> SeatSold(batch, s)
    ensures SeatSold(tickets + batch, s) <==> (SeatSold(tickets, s) || s in p)
  {
    var after := tickets + batch;
    if SeatSold(tickets, s) {
      var k :| 0 <= k < |tickets| && tickets[k].seat == Some(s) && tickets[k].status != Void;
      assert after[k] == tickets[k];
    }
    if s in p {
      var k :| 0 <= k < |batch| && batch[k].seat == Some(s) && batch[k].status != Void;
      assert after[|tickets| + k] == batch[k];
    }
    if SeatSold(after, s) {
      var k :| 0 <= k < |after| && after[k].seat == Some(s) && after[k].status != Void;
      if k < |tickets| {
        assert tickets[k].seat == Some(s);
      }
    }
  }

  lemma MintTicketsOk(tiers: seq<Tier>, seats: seq<Seat>, orders: seq<Order>, tickets: seq<Ticket>, o: nat,
                      items: seq<Item>, p: set<nat>)
    requires TicketsOk(tiers, seats, orders, tickets)
    requires o < |orders| && IsPaidStatus(orders[o].status)
    requires forall t: nat | HasTier(items, t) :: HasTier(orders[o].items, t)
    requires forall s | s in p :: s < |seats| && seats[s].tier < |tiers| && HasTier(orders[o].items, seats[s].tier)
    ensures TicketsOk(tiers, seats, orders, tickets + Minted(o, tiers, items, seats, p))
  {
    var batch := Minted(o, tiers, items, seats, p);
    MintedRows(o, tiers, items, seats, p);
    forall k | 0 <= k < |tickets + batch| ensures TicketOk(tiers, seats, orders, (tickets + batch)[k]) {
      if k >= |tickets| {
        assert FreshRow(batch[k - |tickets|], o, tiers, items, seats, p);
      } else {
        assert TicketOk(tiers, seats, orders, tickets[k]);
      }
    }
  }

  // ---- order rows change status ----

  lemma AwaitingLeaves(orders: seq<Order>, o: nat, ord: Order, t: nat)
    requires o < |orders| && orders[o].status == AwaitingPayment && ord.status != AwaitingPayment
    ensures AwaitingQty(orders[o := ord], t) == AwaitingQty(orders, t) - QtyOf(orders[o].items, t)
  {
    TotalUpdate(AwaitingIn(t), orders, o, ord);
  }

  lemma AwaitingJoins(orders: seq<Order>, ord: Order, t: nat)
    ensures AwaitingQty(orders + [ord], t)
         == AwaitingQty(orders, t) + (if ord.status == AwaitingPayment then QtyOf(ord.items, t) else 0)
  {
  }

  // ---- creating an order that will be paid ----

  lemma BindHoldsBound(db: Db, d: OrderDraft)
    requires HoldsOk(db.seats, db.holds, db.orders) && forall s | s in d.seats :: s in db.holds
    ensures Bound(BindHolds(db, d), |db.orders|) == d.seats
    ensures forall o: nat | o < |db.orders| :: Bound(BindHolds(db, d), o) <= Bound(db.holds, o)
  {
  }

  lemma ReservedLedger(db: Db, d: OrderDraft)
    requires InventoryOk(db) && DraftOk(db.tiers, db.seats, d) && CanClaim(db.stock, d.ga) && d.total > 0
    ensures Ledger(db.tiers, TakeItems(db.stock, d.ga), db.orders + [DraftRow(d)], db.tickets)
  {
    forall t: nat | t < |db.tiers| && t < |db.stock|
      ensures var st := TakeItems(db.stock, d.ga)[t];
        && st.quantity - st.remaining == Claimed(db.tiers, db.orders + [DraftRow(d)], db.tickets, t)
        && (IsGa(db.tiers, t) ==> st.remaining >= 0)
    {
      DraftQuantities(db.tiers, db.seats, d, t);
      AwaitingJoins(db.orders, DraftRow(d), t);
      if IsGa(db.tiers, t) {
        ClaimLeaves(db.tiers, db.seats, db.stock, d, t);
      }
    }
  }

  lemma ReservedBound(db: Db, d: OrderDraft)
    requires DraftOk(db.tiers, db.seats, d) && HoldsOk(db.seats, db.holds, db.orders)
    requires BoundOk(db.tiers, db.seats, db.holds, db.orders) && forall s | s in d.seats :: s in db.holds
    ensures BoundOk(db.tiers, db.seats, BindHolds(db, d), db.orders + [DraftRow(d)])
  {
    var orders2, holds2 := db.orders + [DraftRow(d)], BindHolds(db, d);
    BindHoldsBound(db, d);
    forall r: nat | r < |orders2| && orders2[r].status == AwaitingPayment
      ensures BoundFits(db.tiers, db.seats, Bound(holds2, r), orders2[r])
    {
      if r < |db.orders| {
        FewerBound(db.tiers, db.seats, Bound(holds2, r), Bound(db.holds, r), orders2[r]);
      } else {
        ReservedFits(db, d);
      }
    }
  }

  lemma AppendedOrder(tiers: seq<Tier>, orders: seq<Order>, ord: Order)
    requires OrdersOk(tiers, orders) && ItemsOk(tiers, ord.items) && ord.total == ItemsValue(ord.items)
    ensures OrdersOk(tiers, orders + [ord])
  {
  }

  lemma AppendedMinted(tiers: seq<Tier>, orders: seq<Order>, ord: Order, tickets: seq<Ticket>)
    requires MintedOk(tiers, orders, tickets) && !IsPaidStatus(ord.status)
    ensures MintedOk(tiers, orders + [ord], tickets)
  {
  }

  /** Changing counters only. */
  lemma Restocked(tiers: seq<Tier>, stock: seq<Stock>, seats: seq<Seat>, stock2: seq<Stock>)
    requires CatalogOk(tiers, stock, seats) && CapacityOk(tiers, stock, seats) && |stock2| == |stock|
    requires forall t | 0 <= t < |stock| :: stock2[t].quantity == stock[t].quantity
    ensures CatalogOk(tiers, stock2, seats) && CapacityOk(tiers, stock2, seats)
  {
  }

  /** Rebinding touches no seat's status. */
  lemma ReboundStatus(db: Db, d: OrderDraft)
    requires SeatsExclusive(db.holds, db.tickets) && FeedOk(db.feed, db.holds, db.tickets)
    ensures SeatsExclusive(BindHolds(db, d), db.tickets) && FeedOk(db.feed, BindHolds(db, d), db.tickets)
  {
  }

  lemma ReservedKeeps(db: Db, d: OrderDraft)
    requires InventoryOk(db) && DraftOk(db.tiers, db.seats, d) && CommitOutcomeOf(db, d).Reserved?
    ensures InventoryOk(CommitOrder(db, d))
  {
    hide CatalogOk, CapacityOk, OrdersOk, HoldsOk, SeatsExclusive, TicketsOk, Ledger, BoundOk, MintedOk, FeedOk;
    ReservedLedger(db, d);
    ReservedBound(db, d);
    ReservedHolds(db, d);
    ReboundStatus(db, d);
    AppendedOrder(db.tiers, db.orders, DraftRow(d));
    AppendedMinted(db.tiers, db.orders, DraftRow(d), db.tickets);
    AppendedTickets(db.tiers, db.seats, db.orders, DraftRow(d), db.tickets);
    Restocked(db.tiers, db.stock, db.seats, TakeItems(db.stock, d.ga));
  }

  lemma ReservedFits(db: Db, d: OrderDraft)
    requires DraftOk(db.tiers, db.seats, d)
    ensures BoundFits(db.tiers, db.seats, d.seats, DraftRow(d))
  {
    forall t: nat | !IsGa(db.tiers, t) ensures SeatCount(db.seats, d.seats, t) <= QtyOf(DraftItems(d), t) {
      DraftQuantities(db.tiers, db.seats, d, t);
    }
  }

  lemma ReservedHolds(db: Db, d: OrderDraft)
    requires InventoryOk(db) && DraftOk(db.tiers, db.seats, d) && d.total > 0
    ensures HoldsOk(db.seats, BindHolds(db, d), db.orders + [DraftRow(d)])
  {
  }

  lemma AppendedTickets(tiers: seq<Tier>, seats: seq<Seat>, orders: seq<Order>, ord: Order, tickets: seq<Ticket>)
    requires TicketsOk(tiers, seats, orders, tickets)
    ensures TicketsOk(tiers, seats, orders + [ord], tickets)
  {
  }

  // ---- creating a free order ----

  lemma GrantedLedger(db: Db, d: OrderDraft)
    requires InventoryOk(db) && DraftOk(db.tiers, db.seats, d) && CanClaim(db.stock, d.ga) && d.total <= 0
    ensures var o := |db.orders|;
      Ledger(db.tiers, TakeSeats(TakeItems(db.stock, d.ga), db.seats, d.seats), db.orders + [DraftRow(d)],
             db.tickets + Minted(o, db.tiers, d.ga, db.seats, d.seats))
  {
    var o := |db.orders|;
    var stock2 := TakeSeats(TakeItems(db.stock, d.ga), db.seats, d.seats);
    var tickets2 := db.tickets + Minted(o, db.tiers, d.ga, db.seats, d.seats);
    forall t: nat | t < |db.tiers| && t < |stock2|
      ensures stock2[t].quantity - stock2[t].remaining == Claimed(db.tiers, db.orders + [DraftRow(d)], tickets2, t)
      ensures IsGa(db.tiers, t) ==> stock2[t].remaining >= 0
    {
      DraftQuantities(db.tiers, db.seats, d, t);
      AwaitingJoins(db.orders, DraftRow(d), t);
      MintedLive(db.tickets, o, db.tiers, d.ga, db.seats, d.seats, t);
      if IsGa(db.tiers, t) {
        ClaimLeaves(db.tiers, db.seats, db.stock, d, t);
      }
    }
  }

  lemma GrantedMinted(db: Db, d: OrderDraft)
    requires InventoryOk(db) && DraftOk(db.tiers, db.seats, d) && d.total <= 0
    ensures MintedOk(db.tiers, db.orders + [DraftRow(d)],
                     db.tickets + Minted(|db.orders|, db.tiers, d.ga, db.seats, d.seats))
  {
    var o := |db.orders|;
    var orders2, items := db.orders + [DraftRow(d)], DraftItems(d);
    var tickets2 := db.tickets + Minted(o, db.tiers, d.ga, db.seats, d.seats);
    NoTickets(db.tiers, db.seats, db.orders, db.tickets, o, items);
    SeatedIssueNothing(o, db.tiers, d.ga, d.groups);
    MintedWorth(db.tickets, o, db.tiers, items, db.seats, d.seats);
    forall t: nat
      ensures MintedCount(tickets2, o, t) == QtyOf(items, t)
    {
      DraftQuantities(db.tiers, db.seats, d, t);
      MintedOwn(db.tickets, o, db.tiers, d.ga, db.seats, d.seats, t);
    }
    forall r: nat | r < |orders2| && IsPaidStatus(orders2[r].status)
      ensures MintedFits(db.tiers, tickets2, r, orders2[r])
    {
      if r < o {
        assert MintedFits(db.tiers, db.tickets, r, db.orders[r]);
        MintedElsewhere(db.tickets, o, db.tiers, d.ga, db.seats, d.seats, r, orders2[r].items);
      }
    }
  }

  lemma GrantedTickets(db: Db, d: OrderDraft)
    requires CatalogOk(db.tiers, db.stock, db.seats) && DraftOk(db.tiers, db.seats, d) && d.total <= 0
    requires TicketsOk(db.tiers, db.seats, db.orders, db.tickets)
    ensures TicketsOk(db.tiers, db.seats, db.orders + [DraftRow(d)],
                      db.tickets + Minted(|db.orders|, db.tiers, d.ga, db.seats, d.seats))
  {
    AppendedTickets(db.tiers, db.seats, db.orders, DraftRow(d), db.tickets);
    forall t: nat | HasTier(d.ga, t) ensures HasTier(DraftItems(d), t) {
      var k :| 0 <= k < |d.ga| && d.ga[k].tier == t;
      assert DraftItems(d)[k].tier == t;
    }
    MintTicketsOk(db.tiers, db.seats, db.orders + [DraftRow(d)], db.tickets, |db.orders|, d.ga, d.seats);
  }

  /** Consumed holds leave the rest as they were, beside a new order that is not awaiting payment. */
  lemma ConsumedHolds(tiers: seq<Tier>, seats: seq<Seat>, holds: map<nat, Hold>, orders: seq<Order>, ord: Order, p: set<nat>)
    requires HoldsOk(seats, holds, orders) && BoundOk(tiers, seats, holds, orders) && ord.status != AwaitingPayment
    ensures HoldsOk(seats, holds - p, orders + [ord]) && BoundOk(tiers, seats, holds - p, orders + [ord])
  {
    ThinnedBound(tiers, seats, holds, holds - p, orders);
  }

  lemma GrantedKeeps(db: Db, d: OrderDraft)
    requires InventoryOk(db) && DraftOk(db.tiers, db.seats, d) && CommitOutcomeOf(db, d).Granted?
    ensures InventoryOk(CommitOrder(db, d))
  {
    hide CatalogOk, CapacityOk, OrdersOk, HoldsOk, SeatsExclusive, TicketsOk, Ledger, BoundOk, MintedOk, FeedOk;
    var o := |db.orders|;
    var holds2, tickets2 := db.holds - d.seats, db.tickets + Minted(o, db.tiers, d.ga, db.seats, d.seats);
    GrantedLedger(db, d);
    GrantedMinted(db, d);
    GrantedTickets(db, d);
    MintExclusive(db.holds, db.tickets, o, db.tiers, d.ga, db.seats, d.seats);
    SoldFeed(db.feed, d.seats, db.holds, db.tickets, holds2, tickets2);
    ConsumedHolds(db.tiers, db.seats, db.holds, db.orders, DraftRow(d), d.seats);
    AppendedOrder(db.tiers, db.orders, DraftRow(d));
    Restocked(db.tiers, db.stock, db.seats, TakeSeats(TakeItems(db.stock, d.ga), db.seats, d.seats));
  }

  lemma SoldFeed(feed: seq<SeatEvent>, p: set<nat>, holds: map<nat, Hold>, tickets: seq<Ticket>,
                 holds2: map<nat, Hold>, tickets2: seq<Ticket>)
    requires FeedOk(feed, holds, tickets)
    requires forall s: nat :: StatusOf(holds2, tickets2, s) == if s in p then Gone else StatusOf(holds, tickets, s)
    ensures FeedOk(if p == {} then feed else feed + [SeatsSold(p)], holds2, tickets2)
  {
  }

  // ---- releasing an unpaid order ----

  lemma ReleaseLedger(db: Db, o: nat, final: OrderStatus)
    requires InventoryOk(db) && IsUnfulfillableStatus(final)
    requires o < |db.orders| && db.orders[o].status == AwaitingPayment
    ensures var after := Release(db, o, final); Ledger(after.tiers, after.stock, after.orders, after.tickets)
  {
    var after := Release(db, o, final);
    forall t: nat | t < |db.tiers| && t < |db.stock|
      ensures after.stock[t].quantity - after.stock[t].remaining == Claimed(db.tiers, after.orders, db.tickets, t)
      ensures IsGa(db.tiers, t) ==> after.stock[t].remaining >= 0
    {
      AwaitingLeaves(db.orders, o, after.orders[o], t);
      QtyNonNegative(db.orders[o].items, t);
    }
  }

  /** An awaiting order changes status and its holds go; every other order is untouched. */
  lemma ClosedOrder(tiers: seq<Tier>, seats: seq<Seat>, holds: map<nat, Hold>, orders: seq<Order>, o: nat, status: OrderStatus)
    requires HoldsOk(seats, holds, orders) && BoundOk(tiers, seats, holds, orders) && OrdersOk(tiers, orders)
    requires o < |orders| && orders[o].status == AwaitingPayment && status != AwaitingPayment
    ensures var orders2, holds2 := orders[o := orders[o].(status := status)], holds - Bound(holds, o);
      OrdersOk(tiers, orders2) && HoldsOk(seats, holds2, orders2) && BoundOk(tiers, seats, holds2, orders2)
  {
    var orders2, holds2 := orders[o := orders[o].(status := status)], holds - Bound(holds, o);
    ThinnedBound(tiers, seats, holds, holds2, orders);
    forall r: nat | r < |orders2| && orders2[r].status == AwaitingPayment
      ensures BoundFits(tiers, seats, Bound(holds2, r), orders2[r])
    {
      assert orders2[r] == orders[r];
    }
  }

  /** An order awaiting payment has no ticket, so its fate does not concern any ticket. */
  lemma UnpaidOrder(tiers: seq<Tier>, seats: seq<Seat>, orders: seq<Order>, tickets: seq<Ticket>, o: nat, status: OrderStatus)
    requires TicketsOk(tiers, seats, orders, tickets) && MintedOk(tiers, orders, tickets)
    requires o < |orders| && orders[o].status == AwaitingPayment && IsUnfulfillableStatus(status)
    ensures TicketsOk(tiers, seats, orders[o := orders[o].(status := status)], tickets)
    ensures MintedOk(tiers, orders[o := orders[o].(status := status)], tickets)
  {
  }

  lemma ReleaseFeed(db: Db, o: nat, final: OrderStatus)
    requires InventoryOk(db)
    requires o < |db.orders| && db.orders[o].status == AwaitingPayment
    ensures var after := Release(db, o, final);
      FeedOk(after.feed, after.holds, after.tickets) && SeatsExclusive(after.holds, after.tickets)
  {
    var gone := Bound(db.holds, o);
    if gone != {} {
      DeletedFeed(db, gone);
    } else {
      assert db.holds - gone == db.holds;
    }
  }

  lemma ReleaseKeeps(db: Db, o: nat, final: OrderStatus)
    requires InventoryOk(db) && IsUnfulfillableStatus(final)
    ensures InventoryOk(Release(db, o, final))
  {
    hide CatalogOk, CapacityOk, OrdersOk, HoldsOk, SeatsExclusive, TicketsOk, Ledger, BoundOk, MintedOk, FeedOk;
    var after := Release(db, o, final);
    if o < |db.orders| && db.orders[o].status == AwaitingPayment {
      ReleaseLedger(db, o, final);
      ReleaseFeed(db, o, final);
      ClosedOrder(db.tiers, db.seats, db.holds, db.orders, o, final);
      UnpaidOrder(db.tiers, db.seats, db.orders, db.tickets, o, final);
      Restocked(db.tiers, db.stock, db.seats, after.stock);
    }
  }

  // ---- settling a payment ----

  lemma PayOffLedger(db: Db, o: nat)
    requires InventoryOk(db) && o < |db.orders| && db.orders[o].status == AwaitingPayment
    ensures var after := PayOff(db, o); Ledger(after.tiers, after.stock, after.orders, after.tickets)
  {
    var after := PayOff(db, o);
    var p := Bound(db.holds, o);
    forall t: nat | t < |db.tiers| && t < |db.stock|
      ensures after.stock[t].quantity - after.stock[t].remaining == Claimed(db.tiers, after.orders, after.tickets, t)
      ensures IsGa(db.tiers, t) ==> after.stock[t].remaining >= 0
    {
      AwaitingLeaves(db.orders, o, after.orders[o], t);
      MintedLive(db.tickets, o, db.tiers, db.orders[o].items, db.seats, p, t);
      if IsGa(db.tiers, t) {
        TotalZero(InTier(p, t), db.seats);
      }
    }
  }

  lemma PayOffMinted(db: Db, o: nat)
    requires InventoryOk(db) && o < |db.orders| && db.orders[o].status == AwaitingPayment
    ensures var after := PayOff(db, o); MintedOk(after.tiers, after.orders, after.tickets)
  {
    var after := PayOff(db, o);
    var p, items := Bound(db.holds, o), db.orders[o].items;
    assert ItemsOk(db.tiers, items);
    NoTickets(db.tiers, db.seats, db.orders, db.tickets, o, items);
    MintedWorth(db.tickets, o, db.tiers, items, db.seats, p);
    assert BoundFits(db.tiers, db.seats, p, db.orders[o]);
    forall t: nat
      ensures MintedCount(after.tickets, o, t) <= QtyOf(items, t)
      ensures IsGa(db.tiers, t) ==> MintedCount(after.tickets, o, t) == QtyOf(items, t)
    {
      MintedOwn(db.tickets, o, db.tiers, items, db.seats, p, t);
      if IsGa(db.tiers, t) {
        TotalZero(InTier(p, t), db.seats);
      }
    }
    forall r: nat | r < |after.orders| && IsPaidStatus(after.orders[r].status)
      ensures MintedFits(db.tiers, after.tickets, r, after.orders[r])
    {
      if r != o {
        assert MintedFits(db.tiers, db.tickets, r, db.orders[r]);
        MintedElsewhere(db.tickets, o, db.tiers, items, db.seats, p, r, db.orders[r].items);
      }
    }
  }

  lemma PayOffTickets(db: Db, o: nat)
    requires InventoryOk(db) && o < |db.orders| && db.orders[o].status == AwaitingPayment
    ensures var after := PayOff(db, o); TicketsOk(after.tiers, after.seats, after.orders, after.tickets)
  {
    PaidTickets(db.tiers, db.seats, db.orders, db.tickets, o);
    MintTicketsOk(db.tiers, db.seats, PayOff(db, o).orders, db.tickets, o, db.orders[o].items, Bound(db.holds, o));
  }

  lemma PayOffSeats(db: Db, o: nat)
    requires InventoryOk(db) && o < |db.orders| && db.orders[o].status == AwaitingPayment
    ensures var after := PayOff(db, o);
      SeatsExclusive(after.holds, after.tickets) && FeedOk(after.feed, after.holds, after.tickets)
  {
    var after, p := PayOff(db, o), Bound(db.holds, o);
    MintExclusive(db.holds, db.tickets, o, db.tiers, db.orders[o].items, db.seats, p);
    SoldFeed(db.feed, p, db.holds, db.tickets, after.holds, after.tickets);
  }

  lemma PayOffKeeps(db: Db, o: nat)
    requires InventoryOk(db) && o < |db.orders| && db.orders[o].status == AwaitingPayment
    ensures InventoryOk(PayOff(db, o))
  {
    hide CatalogOk, CapacityOk, OrdersOk, HoldsOk, SeatsExclusive, TicketsOk, Ledger, BoundOk, MintedOk, FeedOk;
    PayOffLedger(db, o);
    PayOffMinted(db, o);
    PayOffTickets(db, o);
    PayOffSeats(db, o);
    ClosedOrder(db.tiers, db.seats, db.holds, db.orders, o, Paid);
    Restocked(db.tiers, db.stock, db.seats, PayOff(db, o).stock);
  }

  lemma PaidTickets(tiers: seq<Tier>, seats: seq<Seat>, orders: seq<Order>, tickets: seq<Ticket>, o: nat)
    requires TicketsOk(tiers, seats, orders, tickets) && o < |orders|
    ensures TicketsOk(tiers, seats, orders[o := orders[o].(status := Paid)], tickets)
  {
  }

  // ---- refunds, settlement of refunds, check-in ----

  /** Order rows that keep their items, price and stage of sale. */
  ghost predicate SameSale(orders: seq<Order>, orders2: seq<Order>) {
    && |orders2| == |orders|
    && forall o | 0 <= o < |orders| ::
         && orders2[o].items == orders[o].items && orders2[o].total == orders[o].total
         && (orders2[o].status == AwaitingPayment <==> orders[o].status == AwaitingPayment)
         && (IsPaidStatus(orders2[o].status) <==> IsPaidStatus(orders[o].status))
  }

  lemma SameSaleKeeps(db: Db, orders2: seq<Order>)
    requires InventoryOk(db) && SameSale(db.orders, orders2)
    ensures InventoryOk(db.(orders := orders2))
  {
    forall t: nat ensures AwaitingQty(orders2, t) == AwaitingQty(db.orders, t) {
      TotalSame(AwaitingIn(t), orders2, AwaitingIn(t), db.orders);
    }
    forall k | 0 <= k < |db.tickets| ensures TicketOk(db.tiers, db.seats, orders2, db.tickets[k]) {
      assert TicketOk(db.tiers, db.seats, db.orders, db.tickets[k]);
    }
    forall o: nat | o < |orders2| && orders2[o].status == AwaitingPayment
      ensures BoundFits(db.tiers, db.seats, Bound(db.holds, o), orders2[o])
    {
      assert BoundFits(db.tiers, db.seats, Bound(db.holds, o), db.orders[o]);
    }
    forall o: nat | o < |orders2| && IsPaidStatus(orders2[o].status)
      ensures MintedFits(db.tiers, db.tickets, o, orders2[o])
    {
      assert MintedFits(db.tiers, db.tickets, o, db.orders[o]);
    }
  }

  lemma SettleKeeps(db: Db, o: nat, amount: int)
    requires InventoryOk(db)
    ensures InventoryOk(Settle(db, o, amount))
  {
    SameSaleKeeps(db, Settle(db, o, amount).orders);
  }

  /** Ticket rows that keep their order, tier and seat. */
  ghost predicate SamePlaces(tickets: seq<Ticket>, tickets2: seq<Ticket>) {
    && |tickets2| == |tickets|
    && forall k | 0 <= k < |tickets| ::
         tickets2[k].order == tickets[k].order && tickets2[k].tier == tickets[k].tier && tickets2[k].seat == tickets[k].seat
  }

  lemma SamePlacesMinted(tickets: seq<Ticket>, tickets2: seq<Ticket>, o: nat, items: seq<Item>)
    requires SamePlaces(tickets, tickets2)
    ensures MintedValue(tickets2, o, items) == MintedValue(tickets, o, items)
    ensures forall t: nat :: MintedCount(tickets2, o, t) == MintedCount(tickets, o, t)
  {
    TotalSame(MintedPrice(o, items), tickets2, MintedPrice(o, items), tickets);
    forall t: nat ensures MintedCount(tickets2, o, t) == MintedCount(tickets, o, t) {
      TotalSame(MintedIn(o, t), tickets2, MintedIn(o, t), tickets);
    }
  }

  lemma SamePlacesKeeps(tiers: seq<Tier>, seats: seq<Seat>, orders: seq<Order>, tickets: seq<Ticket>, tickets2: seq<Ticket>)
    requires SamePlaces(tickets, tickets2) && TicketsOk(tiers, seats, orders, tickets) && MintedOk(tiers, orders, tickets)
    ensures TicketsOk(tiers, seats, orders, tickets2) && MintedOk(tiers, orders, tickets2)
  {
    forall k | 0 <= k < |tickets2| ensures TicketOk(tiers, seats, orders, tickets2[k]) {
      assert TicketOk(tiers, seats, orders, tickets[k]);
    }
    forall o: nat | o < |orders| && IsPaidStatus(orders[o].status) ensures MintedFits(tiers, tickets2, o, orders[o]) {
      assert MintedFits(tiers, tickets, o, orders[o]);
      SamePlacesMinted(tickets, tickets2, o, orders[o].items);
    }
  }

  /** Rows that keep their place and stay live or stay void. */
  lemma SameLife(tiers: seq<Tier>, stock: seq<Stock>, holds: map<nat, Hold>, orders: seq<Order>, feed: seq<SeatEvent>,
                 tickets: seq<Ticket>, tickets2: seq<Ticket>)
    requires SamePlaces(tickets, tickets2)
    requires forall k | 0 <= k < |tickets| :: tickets2[k].status == Void <==> tickets[k].status == Void
    requires Ledger(tiers, stock, orders, tickets) && SeatsExclusive(holds, tickets) && FeedOk(feed, holds, tickets)
    ensures Ledger(tiers, stock, orders, tickets2) && SeatsExclusive(holds, tickets2) && FeedOk(feed, holds, tickets2)
  {
    forall t: nat ensures LiveCount(tickets2, t) == LiveCount(tickets, t) {
      TotalSame(LiveIn(t), tickets2, LiveIn(t), tickets);
    }
    forall s: nat ensures SeatSold(tickets2, s) <==> SeatSold(tickets, s) {
      if SeatSold(tickets, s) {
        var j :| 0 <= j < |tickets| && tickets[j].seat == Some(s) && tickets[j].status != Void;
        assert tickets2[j].seat == Some(s) && tickets2[j].status != Void;
      }
      if SeatSold(tickets2, s) {
        var j :| 0 <= j < |tickets| && tickets2[j].seat == Some(s) && tickets2[j].status != Void;
        assert tickets[j].seat == Some(s) && tickets[j].status != Void;
      }
    }
  }

  lemma CheckInKeeps(db: Db, event: nat, k: nat)
    requires InventoryOk(db)
    ensures InventoryOk(CheckIn(db, event, k))
  {
    hide CatalogOk, CapacityOk, OrdersOk, HoldsOk, SeatsExclusive, TicketsOk, Ledger, BoundOk, MintedOk, FeedOk;
    var after := CheckIn(db, event, k);
    if after != db {
      SamePlacesKeeps(db.tiers, db.seats, db.orders, db.tickets, after.tickets);
      SameLife(db.tiers, db.stock, db.holds, db.orders, db.feed, db.tickets, after.tickets);
    }
  }

  /** Voiding live tickets frees exactly their seats. */
  lemma VoidedSold(holds: map<nat, Hold>, tickets: seq<Ticket>, ids: set<nat>, r: nat, s: nat)
    requires SeatsExclusive(holds, tickets)
    requires forall k | k in ids :: k < |tickets| && tickets[k].status == Issued
    ensures SeatSold(VoidTickets(tickets, ids, r), s) <==> SeatSold(tickets, s) && s !in SeatsOfTickets(tickets, ids)
    ensures s in SeatsOfTickets(tickets, ids) ==> SeatSold(tickets, s)
  {
    var after := VoidTickets(tickets, ids, r);
    if s in SeatsOfTickets(tickets, ids) {
      var k :| k in ids && k < |tickets| && tickets[k].seat == Some(s);
      assert SeatSold(tickets, s);
      forall j | 0 <= j < |after| && after[j].seat == Some(s) ensures after[j].status == Void {
        // a second live ticket on the seat would break exclusivity
        assert j == k || tickets[j].seat == tickets[k].seat;
      }
    } else {
      if SeatSold(tickets, s) {
        var j :| 0 <= j < |tickets| && tickets[j].seat == Some(s) && tickets[j].status != Void;
        assert j !in ids;
        assert after[j] == tickets[j];
      }
      if SeatSold(after, s) {
        var j :| 0 <= j < |after| && after[j].seat == Some(s) && after[j].status != Void;
        assert tickets[j] == after[j];
      }
    }
  }

  lemma VoidedLive(tickets: seq<Ticket>, ids: set<nat>, r: nat, t: nat)
    requires forall k | k in ids :: k < |tickets| && tickets[k].status == Issued
    ensures LiveCount(tickets, t) == LiveCount(VoidTickets(tickets, ids, r), t) + PickCount(tickets, ids, t)
  {
    TotalSum(LiveIn(t), tickets, LiveIn(t), VoidTickets(tickets, ids, r), PickIn(ids, t), tickets);
  }

  /** Voided seats come back to the map, and the feed says so. */
  lemma VoidedSeats(feed: seq<SeatEvent>, holds: map<nat, Hold>, tickets: seq<Ticket>, ids: set<nat>, r: nat)
    requires SeatsExclusive(holds, tickets) && FeedOk(feed, holds, tickets)
    requires forall k | k in ids :: k < |tickets| && tickets[k].status == Issued
    ensures var freed, tickets2 := SeatsOfTickets(tickets, ids), VoidTickets(tickets, ids, r);
      && SeatsExclusive(holds, tickets2)
      && FeedOk(if freed == {} then feed else feed + [SeatsReleased(freed)], holds, tickets2)
  {
    hide SeatSold, SeatsOfTickets, SeatsExclusive;
    var freed, tickets2 := SeatsOfTickets(tickets, ids), VoidTickets(tickets, ids, r);
    forall s: nat
      ensures SeatSold(tickets2, s) <==> SeatSold(tickets, s) && s !in freed
      ensures s in freed ==> SeatSold(tickets, s)
    {
      VoidedSold(holds, tickets, ids, r, s);
    }
    VoidedExclusive(holds, tickets, ids, r);
    forall s: nat
      ensures StatusOf(holds, tickets2, s) == if s in freed then Available else StatusOf(holds, tickets, s)
    {
      if s in holds {
        HeldUnsold(holds, tickets, s);
      }
    }
    if freed != {} {
      FeedFollows(feed, SeatsReleased(freed), holds, tickets, holds, tickets2);
    }
  }

  lemma HeldUnsold(holds: map<nat, Hold>, tickets: seq<Ticket>, s: nat)
    requires SeatsExclusive(holds, tickets) && s in holds
    ensures !SeatSold(tickets, s)
  {
  }

  lemma VoidedExclusive(holds: map<nat, Hold>, tickets: seq<Ticket>, ids: set<nat>, r: nat)
    requires SeatsExclusive(holds, tickets)
    requires forall k | k in ids :: k < |tickets| && tickets[k].status == Issued
    ensures SeatsExclusive(holds, VoidTickets(tickets, ids, r))
  {
  }

  lemma VoidedKeeps(db: Db, ids: set<nat>, r: nat)
    requires InventoryOk(db)
    requires forall k | k in ids :: k < |db.tickets| && db.tickets[k].status == Issued
    ensures var freed := SeatsOfTickets(db.tickets, ids);
      InventoryOk(db.(tickets := VoidTickets(db.tickets, ids, r), stock := GivePicked(db.stock, db.tickets, ids),
                      feed := if freed == {} then db.feed else db.feed + [SeatsReleased(freed)]))
  {
    hide CatalogOk, CapacityOk, OrdersOk, HoldsOk, SeatsExclusive, TicketsOk, Ledger, BoundOk, MintedOk, FeedOk, SeatsOfTickets;
    SamePlacesKeeps(db.tiers, db.seats, db.orders, db.tickets, VoidTickets(db.tickets, ids, r));
    VoidedSeats(db.feed, db.holds, db.tickets, ids, r);
    VoidedLedger(db, ids, r);
    Restocked(db.tiers, db.stock, db.seats, GivePicked(db.stock, db.tickets, ids));
  }

  lemma VoidedLedger(db: Db, ids: set<nat>, r: nat)
    requires InventoryOk(db)
    requires forall k | k in ids :: k < |db.tickets| && db.tickets[k].status == Issued
    ensures Ledger(db.tiers, GivePicked(db.stock, db.tickets, ids), db.orders, VoidTickets(db.tickets, ids, r))
  {
    var stock2 := GivePicked(db.stock, db.tickets, ids);
    forall t: nat | t < |db.tiers| && t < |stock2|
      ensures stock2[t].quantity - stock2[t].remaining
           == Claimed(db.tiers, db.orders, VoidTickets(db.tickets, ids, r), t)
      ensures IsGa(db.tiers, t) ==> stock2[t].remaining >= 0
    {
      VoidedLive(db.tickets, ids, r, t);
      TotalNonNegative(PickIn(ids, t), db.tickets);
    }
  }

  lemma CommitRefundKeeps(db: Db, d: RefundDraft)
    requires InventoryOk(db)
    ensures InventoryOk(CommitRefund(db, d))
  {
    if RefundCommits(db, d) {
      VoidedKeeps(db, d.ids, |db.refunds|);
      var freed := SeatsOfTickets(db.tickets, d.ids);
      var reclaimed := db.(
        refunds := db.refunds + [RefundRow(d)],
        tickets := VoidTickets(db.tickets, d.ids, |db.refunds|),
        stock := GivePicked(db.stock, db.tickets, d.ids),
        feed := if freed == {} then db.feed else db.feed + [SeatsReleased(freed)]);
      assert InventoryOk(reclaimed);
      SettleKeeps(reclaimed, d.order, 0);
    }
  }
}
