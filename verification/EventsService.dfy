/** The organizer's writes: ticket types, capacity edits. */
module EventsService {
  import opened Tables
  import opened Transactions
  import opened Invariants
  import opened InventoryCatalog
  import opened Store

  /** The tier is the event's, and the capacity asked for, if any, is its own when it is seated and covers what is
      claimed when it is general admission. */
  ghost predicate Editable(db: Db, event: nat, t: nat, quantity: Option<int>) {
    && t < |db.tiers| && t < |db.stock| && db.tiers[t].event == event
    && (quantity.Some? && db.tiers[t].kind == Seated ==> quantity.value == db.stock[t].quantity)
    && (quantity.Some? && db.tiers[t].kind == Ga ==> quantity.value >= db.stock[t].quantity - db.stock[t].remaining)
  }

  /** An accepted edit sets the capacity and the limit that were asked for and moves `remaining` with the capacity,
      so that what is claimed stays; it touches one tier's counters. A refused one changes nothing. */
  ghost predicate EditAnswer(db: Db, db2: Db, t: nat, quantity: Option<int>, maxPerOrder: Option<int>, ok: bool) {
    if !ok then db2 == db
    else
      && t < |db.stock| && db2 == db.(stock := db2.stock) && |db2.stock| == |db.stock|
      && (forall u | 0 <= u < |db.stock| && u != t :: db2.stock[u] == db.stock[u])
      && (quantity.Some? ==> db2.stock[t].quantity == quantity.value)
      && (quantity.None? ==> db2.stock[t].quantity == db.stock[t].quantity)
      && (maxPerOrder.Some? ==> db2.stock[t].maxPerOrder == maxPerOrder.value)
      && (maxPerOrder.None? ==> db2.stock[t].maxPerOrder == db.stock[t].maxPerOrder)
      && db2.stock[t].quantity - db2.stock[t].remaining == db.stock[t].quantity - db.stock[t].remaining
  }

  lemma TierEdited(db: Db, event: nat, t: nat, quantity: Option<int>, maxPerOrder: Option<int>)
    ensures EditAccepted(db, event, t, quantity) <==> Editable(db, event, t, quantity)
    ensures EditAnswer(db, EditTier(db, event, t, quantity, maxPerOrder), t, quantity, maxPerOrder, Editable(db, event, t, quantity))
  {
  }

  class EventsService {
    const db: Database

    constructor (db: Database)
      ensures this.db == db
    {
      this.db := db;
    }

    method AddTicketType(event: nat, price: nat, quantity: nat, maxPerOrder: int) returns (t: nat)
      requires db.Valid()
      modifies db
      ensures db.Snapshot() == AddTier(old(db.Snapshot()), event, price, quantity, maxPerOrder)
      ensures t == |old(db.tiers)| && db.tiers == old(db.tiers) + [Tier(event, Ga, price)]
      ensures db.stock == old(db.stock) + [Stock(quantity, quantity, maxPerOrder)]
      ensures db.Valid()
    {
      hide InventoryOk;
      AddTierKeeps(db.Snapshot(), event, price, quantity, maxPerOrder);
      t := |db.tiers|;
      db.tiers := db.tiers + [Tier(event, Ga, price)];
      db.stock := db.stock + [Stock(quantity, quantity, maxPerOrder)];
    }

    /** Capacity moves by the difference, so what is claimed does not: refused for a seated tier, refused
        below what is claimed. */
    method UpdateTicketType(event: nat, t: nat, quantity: Option<int>, maxPerOrder: Option<int>) returns (ok: bool)
      requires db.Valid()
      modifies db
      ensures db.Snapshot() == EditTier(old(db.Snapshot()), event, t, quantity, maxPerOrder)
      ensures ok <==> Editable(old(db.Snapshot()), event, t, quantity)
      ensures EditAnswer(old(db.Snapshot()), db.Snapshot(), t, quantity, maxPerOrder, ok)
      ensures db.Valid()
    {
      hide InventoryOk;
      TierEdited(db.Snapshot(), event, t, quantity, maxPerOrder);
      EditTierKeeps(db.Snapshot(), event, t, quantity, maxPerOrder);
      if !(t < |db.tiers| && t < |db.stock| && db.tiers[t].event == event) {
        return false;
      }
      var remainingDelta := 0;
      if quantity.Some? {
        if db.tiers[t].kind == Seated {
          if quantity.value != db.stock[t].quantity {
            return false;
          }
        } else {
          var claimed := db.stock[t].quantity - db.stock[t].remaining;
          if quantity.value < claimed {
            return false;
          }
          remainingDelta := quantity.value - db.stock[t].quantity;
        }
      }
      if remainingDelta != 0 {
        if db.stock[t].remaining + remainingDelta < 0 {
          return false;
        }
        db.stock := db.stock[t := db.stock[t].(remaining := db.stock[t].remaining + remainingDelta)];
      }
      if maxPerOrder.Some? {
        db.stock := db.stock[t := db.stock[t].(maxPerOrder := maxPerOrder.value)];
      }
      if quantity.Some? {
        db.stock := db.stock[t := db.stock[t].(quantity := quantity.value)];
      }
      return true;
    }
  }
}
