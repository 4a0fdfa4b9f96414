/** What a request about a hold is answered and what it changes, said of the rows alone; and why a hold
    row can ever leave the table. */
module HoldAnswers {
  import opened Tables
  import opened Transactions
  import opened Protocol
  import opened Frames
  import opened Invariants
  import opened Drafts
  import opened OrderAnswers
  import opened Steps
  import opened Evolution
  import opened Once
  import opened MoneyAnswers
  import Whole

  datatype HoldReply = SeatUnknown | Acquired | Refreshed | SeatHeld | SeatAlreadySold

  /** A request to hold a seat: the transaction, and the refresh of the holder's own hold when it loses. */
  ghost function AcquireOrRefresh(db: Db, event: nat, s: nat, holder: string, expiresAt: int): Db {
    var after := Acquire(db, event, s, holder, expiresAt);
    if AcquireOutcomeOf(db, event, s) == Conflict && s in after.holds && after.holds[s].holder == holder
    then Refresh(after, s, after.holds[s].id, holder, expiresAt)
    else after
  }

  ghost function ReplyOf(db: Db, event: nat, s: nat, holder: string): HoldReply {
    match AcquireOutcomeOf(db, event, s)
    case SeatNotFound => SeatUnknown
    case Won => Acquired
    case Conflict =>
      var left := ClearExpired(db, s);
      if s !in left then SeatAlreadySold else if left[s].holder == holder then Refreshed else SeatHeld
  }

  ghost predicate OnSale(db: Db, event: nat, s: nat) {
    s < |db.seats| && db.seats[s].event == event && event in db.published
  }

  /** A hold row that has not expired. */
  ghost predicate HeldLive(db: Db, s: nat) {
    s in db.holds && db.holds[s].expiresAt > db.now
  }

  ghost predicate TicketOn(tickets: seq<Ticket>, s: nat) {
    exists k :: 0 <= k < |tickets| && tickets[k].seat == Some(s) && tickets[k].status != Void
  }

  /** A live hold keeps its seat: nobody else's request changes anything, and its holder's own request moves
      only its expiry. A seat that is neither sold nor held live goes to whoever asks, as a fresh unbound row
      in place of the expired one; a sold seat goes to nobody, and of its holds only an expired one is removed. */
  ghost predicate HoldAnswer(db: Db, db2: Db, event: nat, s: nat, holder: string, expiresAt: int, reply: HoldReply) {
    if !OnSale(db, event, s) then reply == SeatUnknown && db2 == db
    else if HeldLive(db, s) && db.holds[s].holder != holder then reply == SeatHeld && db2 == db
    else if HeldLive(db, s)
    then reply == Refreshed && db2 == db.(holds := db.holds[s := db.holds[s].(expiresAt := expiresAt)])
    else if TicketOn(db.tickets, s) then reply == SeatAlreadySold && db2 == db.(holds := db.holds - {s})
    else
      && reply == Acquired
      && db2 == db.(holds := db.holds[s := Hold(db.nextHold, event, holder, None, expiresAt)],
                    nextHold := db.nextHold + 1, feed := db.feed + [SeatsHeld({s})])
  }

  lemma HoldAnswered(db: Db, event: nat, s: nat, holder: string, expiresAt: int)
    ensures HoldAnswer(db, AcquireOrRefresh(db, event, s, holder, expiresAt), event, s, holder, expiresAt, ReplyOf(db, event, s, holder))
  {
    var left := ClearExpired(db, s);
    assert HeldLive(db, s) ==> left == db.holds;
    assert !HeldLive(db, s) ==> left == db.holds - {s};
  }

  ghost predicate OwnUnbound(holds: map<nat, Hold>, event: nat, s: nat, holder: string) {
    s in holds && holds[s].event == event && holds[s].holder == holder && holds[s].order.None?
  }

  /** A holder gives back its own unbound hold and nothing else. */
  lemma HoldReleased(db: Db, event: nat, s: nat, holder: string)
    ensures var after := ReleaseHold(db, event, s, holder);
      if OwnUnbound(db.holds, event, s, holder)
      then after == db.(holds := db.holds - {s}, feed := db.feed + [SeatsReleased({s})])
      else after == db
  {
  }

  /** The holds a sweep leaves: those that have not expired and those bound to an order. */
  ghost function UnsweptHolds(db: Db): map<nat, Hold> {
    map s | s in db.holds && (db.holds[s].expiresAt > db.now || db.holds[s].order.Some?) :: db.holds[s]
  }

  /** The sweeper takes every other hold, and says so if there was one. */
  lemma HoldsSwept(db: Db)
    ensures var left := UnsweptHolds(db);
      Sweep(db) == if left == db.holds then db
                   else db.(holds := left, feed := db.feed + [SeatsReleased(db.holds.Keys - left.Keys)])
    ensures Sweepable(db) == db.holds.Keys - UnsweptHolds(db).Keys
    ensures db.holds - Sweepable(db) == UnsweptHolds(db)
  {
    assert Sweepable(db) == db.holds.Keys - UnsweptHolds(db).Keys;
    if Sweepable(db) == {} {
      assert forall s | s in db.holds :: s !in Sweepable(db);
      assert UnsweptHolds(db) == db.holds;
    } else {
      assert UnsweptHolds(db) == db.holds - Sweepable(db);
      var s :| s in Sweepable(db);
      assert s !in UnsweptHolds(db);
    }
  }

  // ---- why a hold row leaves ----

  /** The row of id `id` stands on seat `s` with its event and holder. */
  ghost predicate Stands(db: Db, s: nat, row: Hold) {
    s in db.holds && db.holds[s].id == row.id && db.holds[s].event == row.event && db.holds[s].holder == row.holder
  }

  /** The action commits an order of the row's own holder for its seat while the row is live. */
  ghost predicate BoughtByHolder(w: World, a: Action, s: nat, row: Hold) {
    && a.DoCommitOrder? && a.draft < |w.orderDrafts|
    && s in w.orderDrafts[a.draft].seats && w.orderDrafts[a.draft].holder == row.holder
    && w.orderDrafts[a.draft].event == row.event && row.expiresAt > w.db.now
  }

  ghost predicate OrderOver(db: Db, db2: Db, o: nat) {
    o < |db.orders| && o < |db2.orders| && db.orders[o].status == AwaitingPayment && db2.orders[o].status != AwaitingPayment
  }

  /** The four ways a hold row ends: its holder lets go of it, it has expired and is swept or taken over, its
      holder buys the seat, or the order it is bound to is settled or closed. */
  ghost predicate RightfulEnd(w: World, a: Action, w2: World, s: nat)
    requires s in w.db.holds
  {
    var row := w.db.holds[s];
    || (row.order.None? && a == DoReleaseHold(row.event, s, row.holder))
    || (row.expiresAt <= w.db.now && ((a.DoSweep? && row.order.None?) || (a.DoAcquire? && a.seat == s)))
    || BoughtByHolder(w, a, s, row)
    || (row.order.Some? && OrderOver(w.db, w2.db, row.order.value))
  }

  /** How a standing row may change: its own holder moves its expiry, or orders its seat, which binds it to the
      new order until that order's deadline. */
  ghost predicate RightfulChange(w: World, a: Action, w2: World, s: nat)
    requires s in w.db.holds && s in w2.db.holds
  {
    var row, row2 := w.db.holds[s], w2.db.holds[s];
    || row2 == row
    || (a.DoRefresh? && a.seat == s && a.hold == row.id && a.holder == row.holder && row2 == row.(expiresAt := a.expiresAt))
    || (BoughtByHolder(w, a, s, row) && w.orderDrafts[a.draft].expiresAt == Some(row2.expiresAt)
        && row2 == row.(order := Some(|w.db.orders|), expiresAt := row2.expiresAt))
  }

  /** Only a request for the seat makes a new row: on sale, not sold, and the seat free or its hold expired. */
  ghost predicate RightfulStart(w: World, a: Action, w2: World, s: nat)
    requires s in w2.db.holds
  {
    && a.DoAcquire? && a.seat == s && OnSale(w.db, a.event, s) && !TicketOn(w.db.tickets, s) && !HeldLive(w.db, s)
    && w2.db.holds[s] == Hold(w.db.nextHold, a.event, a.holder, None, a.expiresAt)
  }

  /** What a step may do to the hold on seat `s`. */
  ghost predicate Rightful(w: World, a: Action, w2: World, s: nat) {
    && (s in w.db.holds ==>
          if Stands(w2.db, s, w.db.holds[s]) then RightfulChange(w, a, w2, s) else RightfulEnd(w, a, w2, s))
    && (s in w2.db.holds && !(s in w.db.holds && Stands(w2.db, s, w.db.holds[s])) ==> RightfulStart(w, a, w2, s))
  }

  /** Hold ids are handed out once. */
  ghost predicate IdsFresh(db: Db) {
    && (forall s | s in db.holds :: db.holds[s].id < db.nextHold)
    && (forall s, r | s in db.holds && r in db.holds && s != r :: db.holds[s].id != db.holds[r].id)
  }

  lemma SameHolds(w: World, a: Action, w2: World)
    requires w2.db.holds == w.db.holds
    ensures forall s: nat :: Rightful(w, a, w2, s)
    ensures IdsFresh(w.db) && w2.db.nextHold == w.db.nextHold ==> IdsFresh(w2.db)
  {
  }

  lemma AcquireRightful(w: World, a: Action, s: nat)
    requires a.DoAcquire? && IdsFresh(w.db)
    ensures Rightful(w, a, NextHolds(w, a), s) && IdsFresh(NextHolds(w, a).db)
  {
    hide BoughtByHolder, OrderOver;
  }

  lemma HoldsRightful(w: World, a: Action, s: nat)
    requires OfHolds(a) && IdsFresh(w.db)
    ensures Rightful(w, a, NextHolds(w, a), s) && IdsFresh(NextHolds(w, a).db)
  {
    hide Acquire, BoughtByHolder, OrderOver, RightfulStart;
    if a.DoAcquire? {
      AcquireRightful(w, a, s);
    } else {
      IdsThinned(w.db, NextHolds(w, a).db);
    }
  }

  /** A step that only removes or rebinds holds hands out no id. */
  lemma IdsThinned(db: Db, db2: Db)
    requires IdsFresh(db) && db2.nextHold == db.nextHold
    requires forall s | s in db2.holds :: s in db.holds && db2.holds[s].id == db.holds[s].id
    ensures IdsFresh(db2)
  {
  }

  lemma ReservedRightful(w: World, n: nat, w2: World, s: nat)
    requires n < |w.orderDrafts| && Buys(w.db, w.orderDrafts[n]) && RowsReserved(w.db, w2.db, w.orderDrafts[n])
    ensures Rightful(w, DoCommitOrder(n), w2, s)
    ensures IdsFresh(w.db) ==> IdsFresh(w2.db)
  {
    hide HasRoom, KeyUsed, CountersDrop;
    if IdsFresh(w.db) {
      IdsThinned(w.db, w2.db);
    }
  }

  lemma GrantedRightful(w: World, n: nat, w2: World, s: nat)
    requires n < |w.orderDrafts| && Buys(w.db, w.orderDrafts[n]) && RowsGranted(w.db, w2.db, w.orderDrafts[n])
    ensures Rightful(w, DoCommitOrder(n), w2, s)
    ensures IdsFresh(w.db) ==> IdsFresh(w2.db)
  {
    hide HasRoom, KeyUsed, CountersDrop, IssuedBatch;
    if IdsFresh(w.db) {
      IdsThinned(w.db, w2.db);
    }
  }

  lemma CommitRightful(w: World, n: nat, s: nat)
    requires WorldOk(w)
    ensures Rightful(w, DoCommitOrder(n), CommitDraft(w, n), s)
    ensures IdsFresh(w.db) ==> IdsFresh(CommitDraft(w, n).db)
  {
    var w2 := CommitDraft(w, n);
    if n < |w.orderDrafts| {
      var d := w.orderDrafts[n];
      Whole.DraftParts(w, n);
      assert w2.db == CommitOrder(w.db, d);
      hide WorldOk, DraftOk, CatalogOk, CommitOrder, CommitDraft, Rightful, IdsFresh, Buys, RowsReserved, RowsGranted;
      OrderCommitted(w.db, d);
      if !Buys(w.db, d) {
        SameHolds(w, DoCommitOrder(n), w2);
      } else if d.total > 0 {
        ReservedRightful(w, n, w2, s);
      } else {
        GrantedRightful(w, n, w2, s);
      }
    } else {
      SameHolds(w, DoCommitOrder(n), w2);
    }
  }

  /** Closing or settling an order drops the holds bound to it. */
  lemma OverRightful(w: World, a: Action, w2: World, o: nat, s: nat)
    requires w2.db.holds == w.db.holds - HeldFor(w.db.holds, o) && OrderOver(w.db, w2.db, o)
    requires w2.db.nextHold == w.db.nextHold
    ensures Rightful(w, a, w2, s)
    ensures IdsFresh(w.db) ==> IdsFresh(w2.db)
  {
    if IdsFresh(w.db) {
      IdsThinned(w.db, w2.db);
    }
    hide IdsFresh, BoughtByHolder;
  }

  lemma ReleaseRightful(w: World, a: Action, w2: World, o: nat, final: OrderStatus, s: nat)
    requires WorldOk(w) && w2.db == Release(w.db, o, final) && IsUnfulfillableStatus(final)
    ensures Rightful(w, a, w2, s)
    ensures IdsFresh(w.db) ==> IdsFresh(w2.db)
  {
    assert OrdersOk(w.db.tiers, w.db.orders);
    hide WorldOk, OrdersOk, CountersDrop, Release, Rightful, IdsFresh;
    OrderReleased(w.db, o, final);
    if o < |w.db.orders| && w.db.orders[o].status == AwaitingPayment {
      OverRightful(w, a, w2, o, s);
    } else {
      SameHolds(w, a, w2);
    }
  }

  lemma HandleRightful(w: World, d: nat, s: nat)
    requires WorldOk(w)
    ensures Rightful(w, Handle(d), HandleDelivery(w, d), s)
    ensures IdsFresh(w.db) ==> IdsFresh(HandleDelivery(w, d).db)
  {
    var w2 := HandleDelivery(w, d);
    WorldUniqueIntents(w);
    WorldOrderly(w);
    hide WorldOk, Rightful, IdsFresh, HandleSucceeded, HandleFailed, HandleRefunded, SucceededOutcomeOf, Orderly, UniqueIntents;
    if d < |w.deliveries| && w.deliveries[d].stage == Received && w.deliveries[d].event < |w.vendor.events| {
      var e := w.vendor.events[w.deliveries[d].event];
      if (e.SucceededEvent? || e.FailedEvent?) && PaymentByIntent(w.db.payments, e.intent).Some? {
        var p := PaymentByIntent(w.db.payments, e.intent).value;
        if e.SucceededEvent? {
          SuccessAnswered(w.db, e.intent, p);
        } else {
          FailureAnswered(w.db, e.intent, p);
        }
        PaymentRightful(w, Handle(d), w2, p, if e.SucceededEvent? then Captured else Declined);
      } else {
        if e.SucceededEvent? || e.FailedEvent? {
          UnknownIntent(w.db, e.intent);
        } else if e.RefundedEvent? {
          RefundAnswered(w.db, e.reference, e.refundId);
        }
        SameHolds(w, Handle(d), w2);
      }
    } else {
      SameHolds(w, Handle(d), w2);
    }
  }

  lemma WorldOrderly(w: World)
    requires WorldOk(w)
    ensures Orderly(w.db)
  {
  }

  /** A payment webhook touches holds only by settling or closing the payment's order. */
  lemma PaymentRightful(w: World, a: Action, w2: World, p: nat, status: PaymentStatus)
    requires p < |w.db.payments|
    requires if status == Captured then exists outcome :: RowsCaptured(w.db, w2.db, p, outcome) else RowsDeclined(w.db, w2.db, p)
    ensures forall s: nat :: Rightful(w, a, w2, s)
    ensures IdsFresh(w.db) ==> IdsFresh(w2.db)
  {
    var o := w.db.payments[p].order;
    hide CountersDrop, IssuedBatch, Rightful, IdsFresh;
    if w2.db.holds == w.db.holds && w2.db.nextHold == w.db.nextHold {
      SameHolds(w, a, w2);
    } else {
      forall s: nat ensures Rightful(w, a, w2, s) {
        OverRightful(w, a, w2, o, s);
      }
      OverRightful(w, a, w2, o, 0);
    }
  }

  lemma OrdersRightful(w: World, a: Action, s: nat)
    requires OfOrders(a) && WorldOk(w) && IdsFresh(w.db)
    ensures Rightful(w, a, NextOrders(w, a), s) && IdsFresh(NextOrders(w, a).db)
  {
    hide WorldOk, Rightful, IdsFresh, CommitDraft, Release, DraftOrder, VendorCreate;
    var w2 := NextOrders(w, a);
    if a.DoCommitOrder? {
      CommitRightful(w, a.draft, s);
    } else if a.ExpireOrder? {
      ReleaseRightful(w, a, w2, a.order, Expired, s);
    } else if a.AbortCheckout? && a.order in w.checkouts {
      ReleaseRightful(w, a, w2, a.order, Canceled, s);
    } else {
      SameHolds(w, a, w2);
    }
  }

  lemma WebhooksRightful(w: World, a: Action, s: nat)
    requires OfWebhooks(a) && WorldOk(w) && IdsFresh(w.db)
    ensures Rightful(w, a, NextWebhooks(w, a), s) && IdsFresh(NextWebhooks(w, a).db)
  {
    hide WorldOk, Rightful, IdsFresh, HandleDelivery, VendorResolve, CompensationAccepted;
    if a.Handle? {
      HandleRightful(w, a.delivery, s);
    } else {
      SameHolds(w, a, NextWebhooks(w, a));
    }
  }

  lemma RefundsKeepIds(w: World, a: Action)
    requires OfRefunds(a)
    ensures NextRefunds(w, a).db.holds == w.db.holds && NextRefunds(w, a).db.nextHold == w.db.nextHold
  {
    hide DraftRefund, CommitRefund, VendorRefund;
    if a.DoCommitRefund? && a.draft < |w.refundDrafts| {
      hide RowsReclaimed, Refundable;
      RefundMade(w.db, w.refundDrafts[a.draft]);
    }
  }

  /** A hold row comes only from a request for a free seat, changes only by its own holder, and goes only by its
      holder, by expiry, or with the order it is bound to. */
  lemma HoldStep(w: World, a: Action, s: nat)
    requires WorldOk(w) && IdsFresh(w.db)
    ensures Rightful(w, a, Next(w, a), s) && IdsFresh(Next(w, a).db)
  {
    StepFamily(w, a);
    hide WorldOk, Rightful, IdsFresh, Next, NextHolds, NextOrders, NextWebhooks, NextRefunds;
    var w2 := Next(w, a);
    if OfHolds(a) {
      HoldsRightful(w, a, s);
    } else if OfOrders(a) {
      OrdersRightful(w, a, s);
    } else if OfWebhooks(a) {
      WebhooksRightful(w, a, s);
    } else {
      if OfCatalog(a) {
        CatalogFrame(w, a);
      } else if OfRefunds(a) {
        RefundsKeepIds(w, a);
      }
      SameHolds(w, a, w2);
    }
  }

  lemma {:induction false} IdsRun(w: World, schedule: seq<Action>)
    requires WorldOk(w) && IdsFresh(w.db)
    ensures IdsFresh(Run(w, schedule).db)
  {
    hide WorldOk, Next, IdsFresh;
    if schedule != [] {
      var m := |schedule| - 1;
      IdsRun(w, schedule[..m]);
      RunKeeps(w, schedule[..m]);
      HoldStep(Run(w, schedule[..m]), schedule[m], 0);
    }
  }

  /** At step `n` the row, still standing on seat `s`, came to a rightful end. */
  ghost predicate EndsAt(w: World, schedule: seq<Action>, n: nat, s: nat, row: Hold) {
    && n < |schedule|
    && var before := Run(w, schedule[..n]);
    && Stands(before.db, s, row) && RightfulEnd(before, schedule[n], Run(w, schedule[..n + 1]), s)
  }

  /** Over any schedule from a reachable world: a hold row that stood on a seat and stands there no more was, at
      some step, let go by its holder, swept or taken over once expired, spent by its holder's own order, or
      dropped with the order it was bound to. Nobody else's request ever removes a live hold. */
  lemma HoldsEndRightfully(w: World, schedule: seq<Action>, s: nat)
    requires Reachable(w) && s in w.db.holds
    ensures Stands(Run(w, schedule).db, s, w.db.holds[s]) || exists n :: EndsAt(w, schedule, n, s, w.db.holds[s])
  {
    ReachableIds(w);
    ReachableOk(w);
    hide Reachable, WorldOk, IdsFresh, Stands, EndsAt, Run;
    EndsSomewhere(w, schedule, s);
  }

  lemma ReachableIds(w: World)
    requires Reachable(w)
    ensures IdsFresh(w.db)
  {
    hide Initial, WorldOk, Run, IdsFresh;
    var w0: World, before: seq<Action> :| Initial(w0) && w == Run(w0, before);
    InitialOk(w0);
    NoIds(w0);
    IdsRun(w0, before);
  }

  lemma NoIds(w: World)
    requires Initial(w)
    ensures IdsFresh(w.db)
  {
  }

  lemma EndsStill(w: World, schedule: seq<Action>, n: nat, s: nat, row: Hold)
    requires schedule != [] && EndsAt(w, schedule[..|schedule| - 1], n, s, row)
    ensures EndsAt(w, schedule, n, s, row)
  {
    hide RightfulEnd, Stands, Run;
    var m := |schedule| - 1;
    assert schedule[..m][..n] == schedule[..n] && schedule[..m][..n + 1] == schedule[..n + 1];
  }

  lemma StandsOrEnds(w: World, schedule: seq<Action>, s: nat, row: Hold)
    requires schedule != []
    requires var m := |schedule| - 1; var before := Run(w, schedule[..m]);
      Stands(before.db, s, row) && Rightful(before, schedule[m], Next(before, schedule[m]), s)
    ensures Stands(Run(w, schedule).db, s, row) || EndsAt(w, schedule, |schedule| - 1, s, row)
  {
    hide RightfulEnd, RightfulChange, RightfulStart, Next;
    assert schedule[..|schedule| - 1 + 1] == schedule;
  }

  lemma {:induction false} EndsSomewhere(w: World, schedule: seq<Action>, s: nat)
    requires WorldOk(w) && IdsFresh(w.db) && s in w.db.holds
    ensures Stands(Run(w, schedule).db, s, w.db.holds[s]) || exists n :: EndsAt(w, schedule, n, s, w.db.holds[s])
  {
    var row := w.db.holds[s];
    if schedule == [] {
      assert Run(w, schedule) == w;
    } else {
      var m := |schedule| - 1;
      hide WorldOk, Next, Run, IdsFresh, Rightful, Stands, EndsAt;
      EndsSomewhere(w, schedule[..m], s);
      if n: nat :| EndsAt(w, schedule[..m], n, s, row) {
        EndsStill(w, schedule, n, s, row);
      } else {
        RunKeeps(w, schedule[..m]);
        IdsRun(w, schedule[..m]);
        HoldStep(Run(w, schedule[..m]), schedule[m], s);
        StandsOrEnds(w, schedule, s, row);
      }
    }
  }
}
