/** Organizer actions keep the inventory invariant: new tiers, new seat maps, capacity edits. */
module InventoryCatalog {
  import opened Tables
  import opened Sums
  import opened Weights
  import opened Issuing
  import opened Transactions
  import opened Protocol
  import opened Invariants

  /** The catalog grew at its end: old rows keep their ids. */
  ghost predicate Grown(tiers: seq<Tier>, seats: seq<Seat>, tiers2: seq<Tier>, seats2: seq<Seat>) {
    tiers <= tiers2 && seats <= seats2
  }

  lemma GrownItems(tiers: seq<Tier>, tiers2: seq<Tier>, items: seq<Item>)
    requires tiers <= tiers2 && KnownTiers(tiers, items)
    ensures GaValue(tiers2, items) == GaValue(tiers, items)
    ensures PricedAt(tiers, items) ==> PricedAt(tiers2, items)
    ensures KnownTiers(tiers2, items)
    ensures forall t: nat | t >= |tiers| :: QtyOf(items, t) == 0
  {
    forall k: nat | k < |items| ensures GaLinePrice(tiers2)(k, items[k]) == GaLinePrice(tiers)(k, items[k]) {
    }
    TotalSame(GaLinePrice(tiers2), items, GaLinePrice(tiers), items);
    forall t: nat | t >= |tiers| ensures QtyOf(items, t) == 0 {
      QtyAbsent(items, t);
    }
  }

  lemma GrownSeats(seats: seq<Seat>, seats2: seq<Seat>, p: set<nat>, items: seq<Item>)
    requires seats <= seats2 && forall s | s in p :: s < |seats|
    ensures SeatsValue(seats2, p, items) == SeatsValue(seats, p, items)
    ensures forall t: nat :: SeatCount(seats2, p, t) == SeatCount(seats, p, t)
  {
    var more := seats2[|seats|..];
    assert seats2 == seats + more;
    TotalExtend(PricedBy(p, items), seats, more);
    forall t: nat ensures SeatCount(seats2, p, t) == SeatCount(seats, p, t) {
      TotalExtend(InTier(p, t), seats, more);
    }
  }

  lemma GrownOrders(tiers: seq<Tier>, tiers2: seq<Tier>, orders: seq<Order>)
    requires tiers <= tiers2 && OrdersOk(tiers, orders)
    ensures OrdersOk(tiers2, orders)
    ensures forall t: nat | t >= |tiers| :: AwaitingQty(orders, t) == 0
  {
    forall o | 0 <= o < |orders| ensures ItemsOk(tiers2, orders[o].items) {
      GrownItems(tiers, tiers2, orders[o].items);
    }
    forall t: nat | t >= |tiers| ensures AwaitingQty(orders, t) == 0 {
      forall k: nat | k < |orders| ensures AwaitingIn(t)(k, orders[k]) == 0 {
        assert ItemsOk(tiers, orders[k].items);
        GrownItems(tiers, tiers2, orders[k].items);
      }
      TotalZero(AwaitingIn(t), orders);
    }
  }

  lemma GrownTickets(tiers: seq<Tier>, seats: seq<Seat>, tiers2: seq<Tier>, seats2: seq<Seat>, orders: seq<Order>,
                     tickets: seq<Ticket>)
    requires Grown(tiers, seats, tiers2, seats2) && TicketsOk(tiers, seats, orders, tickets)
    ensures TicketsOk(tiers2, seats2, orders, tickets)
    ensures forall t: nat | t >= |tiers| :: LiveCount(tickets, t) == 0
    ensures forall o: nat, t: nat | t >= |tiers| :: MintedCount(tickets, o, t) == 0
  {
    forall k | 0 <= k < |tickets| ensures TicketOk(tiers2, seats2, orders, tickets[k]) {
      assert TicketOk(tiers, seats, orders, tickets[k]);
    }
    assert forall k | 0 <= k < |tickets| :: TicketOk(tiers, seats, orders, tickets[k]);
    forall t: nat | t >= |tiers| ensures LiveCount(tickets, t) == 0 {
      TotalZero(LiveIn(t), tickets);
    }
    forall o: nat, t: nat | t >= |tiers| ensures MintedCount(tickets, o, t) == 0 {
      TotalZero(MintedIn(o, t), tickets);
    }
  }

  lemma GrownBound(tiers: seq<Tier>, seats: seq<Seat>, tiers2: seq<Tier>, seats2: seq<Seat>, holds: map<nat, Hold>,
                   orders: seq<Order>)
    requires Grown(tiers, seats, tiers2, seats2) && OrdersOk(tiers, orders)
    requires CatalogSeats(tiers, seats) && HoldsOk(seats, holds, orders)
    requires BoundOk(tiers, seats, holds, orders)
    ensures BoundOk(tiers2, seats2, holds, orders)
  {
    forall o: nat | o < |orders| && orders[o].status == AwaitingPayment
      ensures BoundFits(tiers2, seats2, Bound(holds, o), orders[o])
    {
      var p := Bound(holds, o);
      assert BoundFits(tiers, seats, p, orders[o]);
      assert ItemsOk(tiers, orders[o].items);
      GrownItems(tiers, tiers2, orders[o].items);
      GrownSeats(seats, seats2, p, orders[o].items);
    }
  }

  ghost predicate CatalogSeats(tiers: seq<Tier>, seats: seq<Seat>) {
    forall s | 0 <= s < |seats| :: seats[s].tier < |tiers|
  }

  lemma GrownMinted(tiers: seq<Tier>, seats: seq<Seat>, tiers2: seq<Tier>, orders: seq<Order>, tickets: seq<Ticket>)
    requires tiers <= tiers2 && OrdersOk(tiers, orders) && TicketsOk(tiers, seats, orders, tickets)
    requires MintedOk(tiers, orders, tickets)
    ensures MintedOk(tiers2, orders, tickets)
  {
    GrownTickets(tiers, seats, tiers2, seats, orders, tickets);
    forall o: nat | o < |orders| && IsPaidStatus(orders[o].status)
      ensures MintedFits(tiers2, tickets, o, orders[o])
    {
      assert MintedFits(tiers, tickets, o, orders[o]);
      assert ItemsOk(tiers, orders[o].items);
      GrownItems(tiers, tiers2, orders[o].items);
    }
  }

  /** A new tier of full stock joins the ledger with nothing claimed. */
  lemma GrownLedger(tiers: seq<Tier>, stock: seq<Stock>, seats: seq<Seat>, orders: seq<Order>, tickets: seq<Ticket>,
                    tier: Tier, full: Stock)
    requires |stock| == |tiers| && OrdersOk(tiers, orders) && TicketsOk(tiers, seats, orders, tickets)
    requires Ledger(tiers, stock, orders, tickets)
    requires full.quantity == full.remaining >= 0
    ensures Ledger(tiers + [tier], stock + [full], orders, tickets)
  {
    GrownOrders(tiers, tiers + [tier], orders);
    GrownTickets(tiers, seats, tiers + [tier], seats, orders, tickets);
  }

  lemma AddTierKeeps(db: Db, event: nat, price: nat, quantity: nat, maxPerOrder: int)
    requires InventoryOk(db)
    ensures InventoryOk(AddTier(db, event, price, quantity, maxPerOrder))
  {
    var tier, full := Tier(event, Ga, price), Stock(quantity, quantity, maxPerOrder);
    var tiers2 := db.tiers + [tier];
    GrownOrders(db.tiers, tiers2, db.orders);
    GrownTickets(db.tiers, db.seats, tiers2, db.seats, db.orders, db.tickets);
    GrownBound(db.tiers, db.seats, tiers2, db.seats, db.holds, db.orders);
    GrownMinted(db.tiers, db.seats, tiers2, db.orders, db.tickets);
    GrownLedger(db.tiers, db.stock, db.seats, db.orders, db.tickets, tier, full);
  }

  lemma SectionCapacity(tiers: seq<Tier>, stock: seq<Stock>, seats: seq<Seat>, tier: Tier, count: nat)
    requires CatalogOk(tiers, stock, seats) && CapacityOk(tiers, stock, seats)
    requires tier.kind == Seated
    ensures var seats2 := seats + seq(count, _ => Seat(tier.event, |tiers|));
      && CatalogOk(tiers + [tier], stock + [Stock(count, count, SEATED_MAX_PER_ORDER)], seats2)
      && CapacityOk(tiers + [tier], stock + [Stock(count, count, SEATED_MAX_PER_ORDER)], seats2)
  {
    var more := seq(count, _ => Seat(tier.event, |tiers|));
    var tiers2, stock2, seats2 := tiers + [tier], stock + [Stock(count, count, SEATED_MAX_PER_ORDER)], seats + more;
    forall t: nat | t < |tiers2| && t < |stock2| && tiers2[t].kind == Seated
      ensures stock2[t].quantity == Total(OfTier(t), seats2)
    {
      TotalConcat(OfTier(t), seats, more);
      if t < |tiers| {
        TotalZero(OfTier(t), more);
      } else {
        TotalZero(OfTier(t), seats);
        SameTier(count, Seat(tier.event, |tiers|));
      }
    }
  }

  lemma {:induction false} SameTier(count: nat, x: Seat)
    ensures Total(OfTier(x.tier), seq(count, _ => x)) == count
  {
    if count > 0 {
      SameTier(count - 1, x);
      assert seq(count, _ => x) == seq(count - 1, _ => x) + [x];
      TotalAppend(OfTier(x.tier), seq(count - 1, _ => x), x);
    }
  }

  lemma AddSectionKeeps(db: Db, event: nat, price: nat, count: nat)
    requires InventoryOk(db)
    ensures InventoryOk(AddSection(db, event, price, count))
  {
    var tier, full := Tier(event, Seated, price), Stock(count, count, SEATED_MAX_PER_ORDER);
    var tiers2 := db.tiers + [tier];
    var seats2 := db.seats + seq(count, _ => Seat(event, |db.tiers|));
    SectionCapacity(db.tiers, db.stock, db.seats, tier, count);
    GrownOrders(db.tiers, tiers2, db.orders);
    GrownTickets(db.tiers, db.seats, tiers2, seats2, db.orders, db.tickets);
    GrownBound(db.tiers, db.seats, tiers2, seats2, db.holds, db.orders);
    GrownMinted(db.tiers, db.seats, tiers2, db.orders, db.tickets);
    GrownLedger(db.tiers, db.stock, db.seats, db.orders, db.tickets, tier, full);
  }

  lemma {:induction false} AddSectionsKeeps(db: Db, event: nat, sections: seq<Section>)
    requires InventoryOk(db)
    ensures InventoryOk(AddSections(db, event, sections))
  {
    if sections != [] {
      var m := |sections| - 1;
      AddSectionsKeeps(db, event, sections[..m]);
      AddSectionKeeps(AddSections(db, event, sections[..m]), event, sections[m].price, sections[m].count);
    }
  }

  /** A capacity edit moves quantity and remaining together, and never strands a claimed place. */
  lemma EditTierKeeps(db: Db, event: nat, t: nat, quantity: Option<int>, maxPerOrder: Option<int>)
    requires InventoryOk(db)
    ensures InventoryOk(EditTier(db, event, t, quantity, maxPerOrder))
  {
  }
}
