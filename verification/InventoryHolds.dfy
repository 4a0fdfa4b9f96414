/** The hold protocol keeps the inventory invariant: take, refresh, take over, release, sweep. */
module InventoryHolds {
  import opened Tables
  import opened Sums
  import opened Weights
  import opened Transactions
  import opened Invariants

  lemma FeedAppend(feed: seq<SeatEvent>, e: SeatEvent, s: nat)
    ensures FeedStatus(feed + [e], s) == if s in e.seats then StatusIn(e) else FeedStatus(feed, s)
  {
  }

  /** A message names exactly the seats whose status it changes. */
  lemma FeedFollows(feed: seq<SeatEvent>, e: SeatEvent, holds: map<nat, Hold>, tickets: seq<Ticket>,
                    holds2: map<nat, Hold>, tickets2: seq<Ticket>)
    requires FeedOk(feed, holds, tickets)
    requires forall s: nat :: StatusOf(holds2, tickets2, s)
               == if s in e.seats then StatusIn(e) else StatusOf(holds, tickets, s)
    ensures FeedOk(feed + [e], holds2, tickets2)
  {
  }

  /** Every row of `holds2` was a row of `holds` with the same binding. */
  ghost predicate Thinned(holds: map<nat, Hold>, holds2: map<nat, Hold>) {
    forall s | s in holds2 :: s in holds && holds2[s].order == holds[s].order && holds2[s].event == holds[s].event
  }

  lemma FewerBound(tiers: seq<Tier>, seats: seq<Seat>, p: set<nat>, q: set<nat>, ord: Order)
    requires p <= q && BoundFits(tiers, seats, q, ord)
    ensures BoundFits(tiers, seats, p, ord)
  {
    SeatsValueMonotone(seats, p, q, ord.items);
    forall t: nat | !IsGa(tiers, t) ensures SeatCount(seats, p, t) <= QtyOf(ord.items, t) {
      SeatCountMonotone(seats, p, q, t);
    }
  }

  lemma ThinnedBound(tiers: seq<Tier>, seats: seq<Seat>, holds: map<nat, Hold>, holds2: map<nat, Hold>, orders: seq<Order>)
    requires Thinned(holds, holds2) && BoundOk(tiers, seats, holds, orders)
    ensures BoundOk(tiers, seats, holds2, orders)
  {
    forall o: nat | o < |orders| && orders[o].status == AwaitingPayment
      ensures BoundFits(tiers, seats, Bound(holds2, o), orders[o])
    {
      FewerBound(tiers, seats, Bound(holds2, o), Bound(holds, o), orders[o]);
    }
  }

  lemma ThinnedKeeps(db: Db, holds2: map<nat, Hold>, feed2: seq<SeatEvent>)
    requires InventoryOk(db) && Thinned(db.holds, holds2) && FeedOk(feed2, holds2, db.tickets)
    ensures InventoryOk(db.(holds := holds2, feed := feed2))
  {
    ThinnedBound(db.tiers, db.seats, db.holds, holds2, db.orders);
  }

  lemma SameSeatsHeld(feed: seq<SeatEvent>, holds: map<nat, Hold>, holds2: map<nat, Hold>, tickets: seq<Ticket>)
    requires FeedOk(feed, holds, tickets) && holds2.Keys == holds.Keys
    ensures FeedOk(feed, holds2, tickets)
  {
  }

  lemma RefreshKeeps(db: Db, s: nat, id: nat, holder: string, expiresAt: int)
    requires InventoryOk(db)
    ensures InventoryOk(Refresh(db, s, id, holder, expiresAt))
  {
    hide CatalogOk, CapacityOk, OrdersOk, HoldsOk, SeatsExclusive, TicketsOk, Ledger, BoundOk, MintedOk, FeedOk;
    var after := Refresh(db, s, id, holder, expiresAt);
    SameSeatsHeld(db.feed, db.holds, after.holds, db.tickets);
    ThinnedKeeps(db, after.holds, db.feed);
  }

  lemma DeletedFeed(db: Db, gone: set<nat>)
    requires InventoryOk(db) && gone <= db.holds.Keys
    ensures FeedOk(db.feed + [SeatsReleased(gone)], db.holds - gone, db.tickets)
  {
  }

  lemma ReleaseHoldKeeps(db: Db, event: nat, s: nat, holder: string)
    requires InventoryOk(db)
    ensures InventoryOk(ReleaseHold(db, event, s, holder))
  {
    var after := ReleaseHold(db, event, s, holder);
    if after != db {
      DeletedFeed(db, {s});
      ThinnedKeeps(db, after.holds, after.feed);
    }
  }

  lemma SweepKeeps(db: Db)
    requires InventoryOk(db)
    ensures InventoryOk(Sweep(db))
  {
    var gone := Sweepable(db);
    if gone != {} {
      DeletedFeed(db, gone);
      ThinnedKeeps(db, db.holds - gone, db.feed + [SeatsReleased(gone)]);
    }
  }

  /** A fresh unbound hold on a seat nobody has bought. */
  lemma InsertedKeeps(db: Db, s: nat, h: Hold)
    requires InventoryOk(db) && s !in db.holds && s < |db.seats| && !SeatSold(db.tickets, s)
    requires h.order == None && h.event == db.seats[s].event
    ensures InventoryOk(db.(holds := db.holds[s := h], feed := db.feed + [SeatsHeld({s})]))
  {
    var holds2 := db.holds[s := h];
    forall o: nat ensures Bound(holds2, o) == Bound(db.holds, o) {
    }
    FeedFollows(db.feed, SeatsHeld({s}), db.holds, db.tickets, holds2, db.tickets);
  }

  lemma AcquireKeeps(db: Db, event: nat, s: nat, holder: string, expiresAt: int)
    requires InventoryOk(db)
    ensures InventoryOk(Acquire(db, event, s, holder, expiresAt))
  {
    var cleared := ClearExpired(db, s);
    match AcquireOutcomeOf(db, event, s) {
      case SeatNotFound =>
      case Conflict =>
        // a hold and a sold seat never meet, so nothing was cleared
        assert cleared == db.holds;
      case Won =>
        var h := Hold(db.nextHold, event, holder, None, expiresAt);
        if cleared == db.holds {
          InsertedKeeps(db, s, h);
        } else {
          TakeoverKeeps(db, s, h);
        }
    }
  }

  /** Taking over an expired hold: the old row goes, bound or not, and the seat stays held throughout. */
  lemma TakeoverKeeps(db: Db, s: nat, h: Hold)
    requires InventoryOk(db) && s in db.holds && h.order == None && h.event == db.seats[s].event
    ensures InventoryOk(db.(holds := (db.holds - {s})[s := h], feed := db.feed + [SeatsHeld({s})]))
  {
    hide CatalogOk, CapacityOk, OrdersOk, TicketsOk, Ledger, BoundOk, MintedOk, FeedOk;
    var holds2 := (db.holds - {s})[s := h];
    FeedFollows(db.feed, SeatsHeld({s}), db.holds, db.tickets, holds2, db.tickets);
    TakeoverBound(db.tiers, db.seats, db.holds, holds2, db.orders);
  }

  lemma TakeoverBound(tiers: seq<Tier>, seats: seq<Seat>, holds: map<nat, Hold>, holds2: map<nat, Hold>, orders: seq<Order>)
    requires BoundOk(tiers, seats, holds, orders)
    requires forall s | s in holds2 && holds2[s].order.Some? :: s in holds && holds[s].order == holds2[s].order
    ensures BoundOk(tiers, seats, holds2, orders)
  {
    forall o: nat | o < |orders| && orders[o].status == AwaitingPayment
      ensures BoundFits(tiers, seats, Bound(holds2, o), orders[o])
    {
      FewerBound(tiers, seats, Bound(holds2, o), Bound(holds, o), orders[o]);
    }
  }
}
