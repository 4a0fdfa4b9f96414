/** Taking, giving up and sweeping holds, as the service does it on the database. */
module HoldsService {
  import opened Tables
  import opened Transactions
  import opened Invariants
  import opened InventoryHolds
  import opened HoldAnswers
  import opened Store

  /** The seats of one event in a grouping of released rows. */
  ghost predicate GroupedByEvent(groups: map<nat, set<nat>>, rows: map<nat, Hold>) {
    && (forall e | e in groups :: forall s | s in groups[e] :: s in rows && rows[s].event == e)
    && (forall s | s in rows :: rows[s].event in groups && s in groups[rows[s].event])
  }

  class HoldsService {
    const db: Database

    constructor (db: Database)
      ensures this.db == db
    {
      this.db := db;
    }

    /** The transaction: drop the seat's expired hold, insert unless the seat is sold or held. */
    method Insert(event: nat, s: nat, holder: string, expiresAt: int) returns (won: bool)
      requires s < |db.seats| && db.seats[s].event == event && event in db.published
      modifies db
      ensures db.Snapshot() == Transactions.Acquire(old(db.Snapshot()), event, s, holder, expiresAt)
      ensures won <==> AcquireOutcomeOf(old(db.Snapshot()), event, s) == Won
      ensures won <==> !TicketOn(old(db.tickets), s) && !HeldLive(old(db.Snapshot()), s)
    {
      if s in db.holds && db.holds[s].expiresAt <= db.now {
        db.holds := db.holds - {s};
      }
      var sold := db.SeatIsSold(s);
      hide SeatSold;
      won := !sold && s !in db.holds;
      if won {
        db.holds := db.holds[s := Hold(db.nextHold, event, holder, None, expiresAt)];
        db.nextHold := db.nextHold + 1;
        db.feed := db.feed + [SeatsHeld({s})];
      }
    }

    method Acquire(event: nat, s: nat, holder: string, expiresAt: int) returns (reply: HoldReply)
      requires db.Valid()
      modifies db
      ensures db.Snapshot() == AcquireOrRefresh(old(db.Snapshot()), event, s, holder, expiresAt)
      ensures reply == ReplyOf(old(db.Snapshot()), event, s, holder)
      ensures HoldAnswer(old(db.Snapshot()), db.Snapshot(), event, s, holder, expiresAt, reply)
      ensures db.Valid()
    {
      HoldAnswered(db.Snapshot(), event, s, holder, expiresAt);
      hide HoldAnswer;
      AcquireOrRefreshKeeps(db.Snapshot(), event, s, holder, expiresAt);
      hide InventoryOk, SeatSold;
      if !(s < |db.seats| && db.seats[s].event == event && event in db.published) {
        return SeatUnknown;
      }
      var won := Insert(event, s, holder, expiresAt);
      if won {
        return Acquired;
      }
      if s !in db.holds {
        return SeatAlreadySold;
      }
      if db.holds[s].holder != holder {
        return SeatHeld;
      }
      db.holds := db.holds[s := db.holds[s].(expiresAt := expiresAt)];
      reply := Refreshed;
    }

    method Release(event: nat, s: nat, holder: string)
      requires db.Valid()
      modifies db
      ensures db.Snapshot() == ReleaseHold(old(db.Snapshot()), event, s, holder)
      ensures if OwnUnbound(old(db.holds), event, s, holder)
              then db.holds == old(db.holds) - {s} && db.feed == old(db.feed) + [SeatsReleased({s})]
              else db.Snapshot() == old(db.Snapshot())
      ensures db.Valid()
    {
      ReleaseHoldKeeps(db.Snapshot(), event, s, holder);
      hide InventoryOk;
      if s in db.holds && db.holds[s].event == event && db.holds[s].holder == holder && db.holds[s].order == None {
        db.holds := db.holds - {s};
        db.feed := db.feed + [SeatsReleased({s})];
      }
    }

    /** Deletes every expired unbound hold and announces the seats event by event: the same rows go as
        in one announcement of them all, and every viewer ends up with the same picture. */
    method SweepExpired() returns (count: nat)
      requires db.Valid()
      modifies db
      ensures db.Snapshot() == Sweep(old(db.Snapshot())).(feed := db.feed)
      ensures db.holds == UnsweptHolds(old(db.Snapshot())) && count == |old(db.holds).Keys - UnsweptHolds(old(db.Snapshot())).Keys|
      ensures forall s: nat :: FeedStatus(db.feed, s) == FeedStatus(Sweep(old(db.Snapshot())).feed, s)
      ensures db.Valid()
    {
      hide InventoryOk, FeedStatus, Sweepable, UnsweptHolds, GroupedByEvent;
      HoldsSwept(db.Snapshot());
      ghost var before := db.Snapshot();
      var expired := Expired();
      assert expired.Keys == {} ==> db.holds - expired.Keys == db.holds;
      db.holds := db.holds - expired.Keys;
      var groups := GroupByEvent(expired);
      AnnounceReleased(groups, expired);
      SweptFeed(before, db.feed, expired.Keys);
      count := |expired.Keys|;
    }

    method AnnounceReleased(groups: map<nat, set<nat>>, rows: map<nat, Hold>)
      requires GroupedByEvent(groups, rows)
      modifies db`feed
      ensures forall s: nat :: FeedStatus(db.feed, s) == if s in rows then Available else FeedStatus(old(db.feed), s)
    {
      var events := groups.Keys;
      while events != {}
        invariant events <= groups.Keys
        invariant forall s: nat ::
          FeedStatus(db.feed, s) == if s in rows && rows[s].event !in events then Available else FeedStatus(old(db.feed), s)
      {
        var e :| e in events;
        events := events - {e};
        forall s: nat
          ensures FeedStatus(db.feed + [SeatsReleased(groups[e])], s)
               == if s in groups[e] then Available else FeedStatus(db.feed, s)
        {
          FeedAppend(db.feed, SeatsReleased(groups[e]), s);
        }
        db.feed := db.feed + [SeatsReleased(groups[e])];
      }
    }

    method Expired() returns (rows: map<nat, Hold>)
      ensures rows.Keys == Sweepable(db.Snapshot())
      ensures forall s | s in rows :: rows[s] == db.holds[s]
    {
      rows := map s | s in db.holds && db.holds[s].expiresAt <= db.now && db.holds[s].order == None :: db.holds[s];
    }

    method GroupByEvent(rows: map<nat, Hold>) returns (groups: map<nat, set<nat>>)
      ensures GroupedByEvent(groups, rows)
    {
      groups := map[];
      var left := rows.Keys;
      while left != {}
        invariant left <= rows.Keys
        invariant forall e | e in groups :: forall s | s in groups[e] :: s in rows && rows[s].event == e
        invariant forall s | s in rows && s !in left :: rows[s].event in groups && s in groups[rows[s].event]
      {
        var s :| s in left;
        var e := rows[s].event;
        groups := groups[e := (if e in groups then groups[e] else {}) + {s}];
        left := left - {s};
      }
    }
  }

  lemma AcquireOrRefreshKeeps(db: Db, event: nat, s: nat, holder: string, expiresAt: int)
    requires InventoryOk(db)
    ensures InventoryOk(AcquireOrRefresh(db, event, s, holder, expiresAt))
  {
    hide InventoryOk, Acquire, AcquireOutcomeOf, Refresh;
    AcquireKeeps(db, event, s, holder, expiresAt);
    var after := Acquire(db, event, s, holder, expiresAt);
    if s in after.holds {
      RefreshKeeps(after, s, after.holds[s].id, holder, expiresAt);
    }
  }

  lemma SweptFeed(db: Db, feed2: seq<SeatEvent>, told: set<nat>)
    requires told == Sweepable(db) && InventoryOk(db)
    requires forall s: nat :: FeedStatus(feed2, s) == if s in told then Available else FeedStatus(db.feed, s)
    ensures forall s: nat :: FeedStatus(feed2, s) == FeedStatus(Sweep(db).feed, s)
    ensures InventoryOk(Sweep(db).(feed := feed2))
  {
    SweepKeeps(db);
    hide CatalogOk, CapacityOk, OrdersOk, HoldsOk, SeatsExclusive, TicketsOk, Ledger, BoundOk, MintedOk;
    forall s: nat ensures FeedStatus(feed2, s) == FeedStatus(Sweep(db).feed, s) {
      FeedAppend(db.feed, SeatsReleased(told), s);
    }
  }
}
