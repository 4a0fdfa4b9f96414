/** The API database as an object: the tables are fields that the services reassign in place. */
module Store {
  import opened Tables
  import opened Transactions
  import opened Invariants
  import opened Steps

  class Database {
    var now: int
    var published: set<nat>
    var tiers: seq<Tier>
    var stock: seq<Stock>
    var seats: seq<Seat>
    var holds: map<nat, Hold>
    var nextHold: nat
    var orders: seq<Order>
    var tickets: seq<Ticket>
    var payments: seq<Payment>
    var refunds: seq<Refund>
    var webhooks: map<nat, bool>
    var feed: seq<SeatEvent>

    /** The database value the transactions are specified on. */
    ghost function Snapshot(): Db
      reads this
    {
      Db(now, published, tiers, stock, seats, holds, nextHold, orders, tickets, payments, refunds, webhooks, feed)
    }

    ghost predicate Valid()
      reads this
    {
      InventoryOk(Snapshot())
    }

    constructor ()
      ensures Valid()
      ensures Snapshot() == Db(0, {}, [], [], [], map[], 0, [], [], [], [], map[], [])
    {
      now, published, tiers, stock, seats, holds, nextHold := 0, {}, [], [], [], map[], 0;
      orders, tickets, payments, refunds, webhooks, feed := [], [], [], [], map[], [];
      new;
      forall s: nat ensures FeedStatus(feed, s) == StatusOf(holds, tickets, s) {
      }
    }

    method SeatIsSold(s: nat) returns (sold: bool)
      ensures sold == SeatSold(tickets, s)
    {
      for k := 0 to |tickets|
        invariant forall j | 0 <= j < k :: !(tickets[j].seat == Some(s) && tickets[j].status != Void)
      {
        if tickets[k].seat == Some(s) && tickets[k].status != Void {
          return true;
        }
      }
      return false;
    }

    method SeatsBoundTo(o: nat) returns (bound: set<nat>)
      ensures bound == Bound(holds, o)
    {
      bound := set s | s in holds && holds[s].order == Some(o);
    }

    method OrderKeyIsTaken(event: nat, key: Option<string>) returns (taken: bool)
      ensures taken == OrderKeyTaken(orders, event, key)
    {
      if key == None {
        return false;
      }
      for k := 0 to |orders|
        invariant forall j | 0 <= j < k :: !(orders[j].event == event && orders[j].key == key)
      {
        if orders[k].event == event && orders[k].key == key {
          return true;
        }
      }
      return false;
    }

    method RefundKeyIsTaken(o: nat, key: Option<string>) returns (taken: bool)
      ensures taken == RefundKeyTaken(refunds, o, key)
    {
      if key == None {
        return false;
      }
      for k := 0 to |refunds|
        invariant forall j | 0 <= j < k :: !(refunds[j].order == o && refunds[j].key == key)
      {
        if refunds[k].order == o && refunds[k].key == key {
          return true;
        }
      }
      return false;
    }
  }
}
