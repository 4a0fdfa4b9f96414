/** What a paid order's status says about its refunds, in every reachable world. */
module RefundStatus {
  import opened Tables
  import opened Transactions
  import opened Protocol
  import opened Frames
  import opened Invariants
  import opened Drafts
  import opened Money
  import opened Steps
  import opened Once
  import opened OrderAnswers
  import opened MoneyAnswers
  import Whole
  import HoldAnswers

  ghost predicate SomeBack(refunds: seq<Refund>, o: nat) {
    exists r :: 0 <= r < |refunds| && refunds[r].order == o && refunds[r].status == Settled
  }

  ghost predicate AllBack(refunds: seq<Refund>, o: nat) {
    forall r | 0 <= r < |refunds| && refunds[r].order == o :: refunds[r].status == Settled
  }

  /** A paid order is `paid` exactly while no refund of it has settled; one that is `refunded` has only void
      tickets; and once every refund made has settled, it is `refunded` exactly when all its tickets are void. */
  ghost predicate StatusTells(status: OrderStatus, tickets: seq<Ticket>, refunds: seq<Refund>, o: nat) {
    status in {Paid, PartiallyRefunded, Refunded} ==>
      && (status == Paid <==> !SomeBack(refunds, o))
      && (status == Refunded ==> AllVoid(tickets, o))
      && (SomeBack(refunds, o) && AllBack(refunds, o) ==> (status == Refunded <==> AllVoid(tickets, o)))
  }

  ghost predicate StatusesTell(db: Db) {
    forall o: nat | o < |db.orders| :: StatusTells(db.orders[o].status, db.tickets, db.refunds, o)
  }

  /** The step settles no refund of order `o`, voids none of its tickets and issues none to it. */
  ghost predicate Quiet(db: Db, db2: Db, o: nat) {
    && |db.tickets| <= |db2.tickets| && |db.refunds| <= |db2.refunds|
    && (forall k | 0 <= k < |db.tickets| ::
          && db2.tickets[k].order == db.tickets[k].order
          && (db.tickets[k].order == o ==> (db2.tickets[k].status == Void <==> db.tickets[k].status == Void)))
    && (forall k | |db.tickets| <= k < |db2.tickets| :: db2.tickets[k].order != o)
    && (forall r | 0 <= r < |db.refunds| ::
          && db2.refunds[r].order == db.refunds[r].order
          && (db.refunds[r].order == o ==> (db2.refunds[r].status == Settled <==> db.refunds[r].status == Settled)))
    && (forall r | |db.refunds| <= r < |db2.refunds| && db2.refunds[r].order == o :: db2.refunds[r].status != Settled)
  }

  /** An order whose status stays goes on telling. */
  lemma QuietTells(db: Db, db2: Db, o: nat)
    requires Quiet(db, db2, o) && o < |db.orders| && o < |db2.orders| && db2.orders[o].status == db.orders[o].status
    requires StatusTells(db.orders[o].status, db.tickets, db.refunds, o)
    ensures StatusTells(db2.orders[o].status, db2.tickets, db2.refunds, o)
  {
    assert SomeBack(db.refunds, o) <==> SomeBack(db2.refunds, o) by {
      if SomeBack(db.refunds, o) {
        var r :| 0 <= r < |db.refunds| && db.refunds[r].order == o && db.refunds[r].status == Settled;
        assert db2.refunds[r].status == Settled;
      }
    }
    assert AllVoid(db.tickets, o) <==> AllVoid(db2.tickets, o) by {
      if AllVoid(db2.tickets, o) {
        assert forall k | 0 <= k < |db.tickets| && db.tickets[k].order == o :: db2.tickets[k].status == Void;
      }
    }
    if AllBack(db2.refunds, o) {
      assert forall r | 0 <= r < |db.refunds| && db.refunds[r].order == o :: db2.refunds[r].status == Settled;
    }
  }

  ghost predicate Refundless(db: Db, o: nat) {
    forall r | 0 <= r < |db.refunds| :: db.refunds[r].order != o
  }

  /** Nothing has been refunded of an order that awaits payment, nor of one that does not exist yet. */
  lemma UnpaidRefundless(w: World, o: nat)
    requires MoneyOk(w) && (o < |w.db.orders| ==> w.db.orders[o].status == AwaitingPayment)
    ensures Refundless(w.db, o)
  {
    assert forall r | 0 <= r < |w.db.refunds| :: RefundOk(w.db.orders, w.db.payments, w.db.refunds[r]);
  }

  lemma FreshTells(db: Db, o: nat)
    requires Refundless(db, o) && o < |db.orders| && db.orders[o].status != PartiallyRefunded && db.orders[o].status != Refunded
    ensures StatusTells(db.orders[o].status, db.tickets, db.refunds, o)
  {
  }

  // ---- orders ----

  lemma CommitTells(w: World, n: nat)
    requires WorldOk(w) && StatusesTell(w.db)
    ensures StatusesTell(CommitDraft(w, n).db)
  {
    if n < |w.orderDrafts| {
      var d := w.orderDrafts[n];
      Whole.DraftParts(w, n);
      WorldParts(w);
      UnpaidRefundless(w, |w.db.orders|);
      hide WorldOk, InventoryOk, MoneyOk, DraftOk, HoldsOk, TicketsOk, CatalogOk, CommitOrder, StatusTells, Refundless,
           BuyerHolds, HasRoom, KeyUsed, CountersDrop, CommitOutcomeOf;
      OrderCommitted(w.db, d);
      var db2 := CommitOrder(w.db, d);
      if Buys(w.db, d) {
        NewOrderTells(w.db, db2, d);
      }
    }
  }

  lemma NewOrderTells(db: Db, db2: Db, d: OrderDraft)
    requires StatusesTell(db) && Refundless(db, |db.orders|) && AddsOrder(db, db2, d)
    requires db2.tickets == db.tickets
             || (db.tickets <= db2.tickets && IssuedBatch(db2.tickets[|db.tickets|..], |db.orders|, db.tiers, d.ga, db.seats, d.seats))
    ensures StatusesTell(db2)
  {
    hide StatusTells;
    forall k | |db.tickets| <= k < |db2.tickets| ensures db2.tickets[k].order == |db.orders| {
      assert db2.tickets[|db.tickets|..][k - |db.tickets|].order == |db.orders|;
    }
    forall o: nat | o < |db2.orders| ensures StatusTells(db2.orders[o].status, db2.tickets, db2.refunds, o) {
      if o < |db.orders| {
        QuietTells(db, db2, o);
      } else {
        FreshTells(db2, o);
      }
    }
  }

  lemma ReleasedTells(db: Db, db2: Db, o: nat, final: OrderStatus)
    requires StatusesTell(db) && IsUnfulfillableStatus(final) && RowsReleased(db, db2, o, final)
    ensures StatusesTell(db2)
  {
    hide CountersDrop;
    forall q: nat | q < |db2.orders| ensures StatusTells(db2.orders[q].status, db2.tickets, db2.refunds, q) {
      if q != o {
        QuietTells(db, db2, q);
      }
    }
  }

  // ---- webhooks ----

  lemma PaidTells(db: Db, db2: Db, o: nat)
    requires StatusesTell(db) && o < |db.orders| && Refundless(db, o) && RowsPaid(db, db2, o)
    ensures StatusesTell(db2)
  {
    hide StatusTells, CountersDrop;
    forall k | |db.tickets| <= k < |db2.tickets| ensures db2.tickets[k].order == o {
      assert db2.tickets[|db.tickets|..][k - |db.tickets|].order == o;
    }
    hide IssuedBatch;
    forall q: nat | q < |db2.orders| ensures StatusTells(db2.orders[q].status, db2.tickets, db2.refunds, q) {
      if q == o {
        FreshTells(db2, o);
      } else {
        QuietTells(db, db2, q);
      }
    }
  }

  /** Settling a refund keeps every status telling. */
  lemma SettledTells(db: Db, db2: Db, r: nat, o: nat, amount: int)
    requires r < |db.refunds| && db.refunds[r].order == o && db.refunds[r].status == Settled
    requires RowsSettled(db, db2, o, amount)
    requires forall q: nat | q < |db.orders| && q != o :: StatusTells(db.orders[q].status, db.tickets, db.refunds, q)
    requires o < |db.orders| && db.orders[o].status == Refunded ==> AllVoid(db.tickets, o)
    ensures StatusesTell(db2)
  {
    assert SomeBack(db.refunds, o);
    hide AllVoid, SomeBack, AllBack;
  }

  lemma RefundedTells(db: Db, db2: Db, reference: Option<nat>, id: nat)
    requires StatusesTell(db) && RowsRefunded(db, db2, reference, id)
    ensures StatusesTell(db2)
  {
    if db2 != db {
      var r, row := reference.value, db.refunds[reference.value];
      var db1 := db.(refunds := db.refunds[r := row.(status := Settled, providerRefund := Some(id))]);
      assert row.order < |db.orders| && db.orders[row.order].status == Refunded ==> AllVoid(db.tickets, row.order);
      hide StatusTells, RowsSettled;
      forall q: nat | q < |db1.orders| && q != row.order
        ensures StatusTells(db1.orders[q].status, db1.tickets, db1.refunds, q)
      {
        QuietTells(db, db1, q);
      }
      SettledTells(db1, db2, r, row.order, row.amount);
    }
  }

  lemma SameRowsTell(db: Db, db2: Db)
    requires StatusesTell(db) && db2.orders == db.orders && db2.tickets == db.tickets && db2.refunds == db.refunds
    ensures StatusesTell(db2)
  {
  }

  lemma HandleTells(w: World, d: nat)
    requires WorldOk(w) && StatusesTell(w.db)
    ensures StatusesTell(HandleDelivery(w, d).db)
  {
    WorldUniqueIntents(w);
    HoldAnswers.WorldOrderly(w);
    WorldParts(w);
    hide WorldOk, InventoryOk, MoneyOk, StatusesTell, Orderly, UniqueIntents, HandleSucceeded, HandleFailed, HandleRefunded,
         SucceededOutcomeOf, RowsPaid, RowsReleased, RowsRefunded;
    if d < |w.deliveries| && w.deliveries[d].stage == Received && w.deliveries[d].event < |w.vendor.events| {
      var e := w.vendor.events[w.deliveries[d].event];
      if e.RefundedEvent? {
        RefundAnswered(w.db, e.reference, e.refundId);
        RefundedTells(w.db, HandleRefunded(w.db, e.reference, e.refundId), e.reference, e.refundId);
      } else if !e.UnknownEvent? && PaymentByIntent(w.db.payments, e.intent).Some? {
        PaymentTells(w, e.intent, PaymentByIntent(w.db.payments, e.intent).value);
      } else if !e.UnknownEvent? {
        UnknownIntent(w.db, e.intent);
      }
    }
  }

  lemma PaymentTells(w: World, i: nat, p: nat)
    requires MoneyOk(w) && Orderly(w.db) && StatusesTell(w.db) && RowOfIntent(w.db.payments, i, p)
    ensures StatusesTell(HandleSucceeded(w.db, i)) && StatusesTell(HandleFailed(w.db, i))
  {
    hide MoneyOk, Orderly, StatusesTell, HandleSucceeded, HandleFailed, SucceededOutcomeOf, RowsPaid, RowsReleased, Refundless,
         UniqueIntents;
    SuccessAnswered(w.db, i, p);
    FailureAnswered(w.db, i, p);
    var row := w.db.payments[p];
    var captured := w.db.(payments := w.db.payments[p := row.(status := Captured)]);
    var declined := w.db.(payments := w.db.payments[p := row.(status := Declined)]);
    SameRowsTell(w.db, captured);
    SameRowsTell(w.db, declined);
    if row.status == RequiresAction {
      if row.order < |w.db.orders| && w.db.orders[row.order].status == AwaitingPayment {
        UnpaidRefundless(w, row.order);
        StillRefundless(w.db, captured, row.order);
        PaidTells(captured, HandleSucceeded(w.db, i), row.order);
      }
      ReleasedTells(declined, HandleFailed(w.db, i), row.order, Canceled);
    }
  }

  lemma StillRefundless(db: Db, db2: Db, o: nat)
    requires Refundless(db, o) && db2.refunds == db.refunds
    ensures Refundless(db2, o)
  {
  }

  // ---- refunds ----

  /** Opening a refund that has not settled. */
  lemma OpenedTells(db: Db, db2: Db, row: Refund)
    requires StatusesTell(db) && db2.orders == db.orders && db2.tickets == db.tickets
    requires db2.refunds == db.refunds + [row] && row.status != Settled
    ensures StatusesTell(db2)
  {
    hide StatusTells;
    forall q: nat | q < |db2.orders| ensures StatusTells(db2.orders[q].status, db2.tickets, db2.refunds, q) {
      QuietTells(db, db2, q);
    }
  }

  /** Rewriting a refund that has not settled into one that has not. */
  lemma RewrittenTells(db: Db, db2: Db, r: nat)
    requires StatusesTell(db) && db2.orders == db.orders && db2.tickets == db.tickets
    requires r < |db.refunds| && |db2.refunds| == |db.refunds| && db2.refunds == db.refunds[r := db2.refunds[r]]
    requires db2.refunds[r].order == db.refunds[r].order
    requires db2.refunds[r].status == Settled <==> db.refunds[r].status == Settled
    ensures StatusesTell(db2)
  {
    hide StatusTells;
    forall q: nat | q < |db2.orders| ensures StatusTells(db2.orders[q].status, db2.tickets, db2.refunds, q) {
      QuietTells(db, db2, q);
    }
  }

  /** Reclaiming tickets of one order for a refund of it, pending or settled. */
  lemma ReclaimedTells(db: Db, db2: Db, d: RefundDraft)
    requires StatusesTell(db) && Refundable(db, d) && RowsReclaimed(db, db2, d.ids) && db2.orders == db.orders
    requires |db2.refunds| == |db.refunds| + 1 && db.refunds <= db2.refunds && db2.refunds[|db.refunds|].order == d.order
    ensures forall q: nat | q < |db.orders| && q != d.order :: StatusTells(db2.orders[q].status, db2.tickets, db2.refunds, q)
    ensures d.order < |db.orders| && db.orders[d.order].status == Refunded ==> AllVoid(db2.tickets, d.order)
    ensures db2.refunds[|db.refunds|].status != Settled ==> StatusesTell(db2)
  {
    hide CountersDrop, SeatsFreed;
    forall q: nat | q < |db.orders| && q != d.order ensures StatusTells(db2.orders[q].status, db2.tickets, db2.refunds, q) {
      QuietTells(db, db2, q);
    }
    if d.order < |db.orders| {
      assert StatusTells(db.orders[d.order].status, db.tickets, db.refunds, d.order);
      assert AllVoid(db.tickets, d.order) ==> AllVoid(db2.tickets, d.order);
      if db2.refunds[|db.refunds|].status != Settled {
        PendingTells(db, db2, d.order);
      }
    }
  }

  /** With a refund pending only two of the three promises are at stake. */
  lemma PendingTells(db: Db, db2: Db, o: nat)
    requires o < |db.orders| && o < |db2.orders| && db2.orders[o].status == db.orders[o].status
    requires StatusTells(db.orders[o].status, db.tickets, db.refunds, o)
    requires AllVoid(db.tickets, o) ==> AllVoid(db2.tickets, o)
    requires |db2.refunds| == |db.refunds| + 1 && db.refunds <= db2.refunds
    requires db2.refunds[|db.refunds|].order == o && db2.refunds[|db.refunds|].status != Settled
    ensures StatusTells(db2.orders[o].status, db2.tickets, db2.refunds, o)
  {
    assert SomeBack(db.refunds, o) <==> SomeBack(db2.refunds, o) by {
      if SomeBack(db.refunds, o) {
        var r :| 0 <= r < |db.refunds| && db.refunds[r].order == o && db.refunds[r].status == Settled;
        assert db2.refunds[r].status == Settled;
      }
    }
    assert !AllBack(db2.refunds, o);
  }

  lemma RefundMadeTells(db: Db, d: RefundDraft)
    requires StatusesTell(db)
    ensures StatusesTell(CommitRefund(db, d))
  {
    var db2 := CommitRefund(db, d);
    RefundMade(db, d);
    hide StatusesTell, StatusTells, CommitRefund, Refundable, RowsReclaimed, RowsSettled, AllVoid;
    if Refundable(db, d) {
      var db1 := db2.(orders := db.orders);
      SameReclaimed(db, db1, db2, d.ids);
      ReclaimedTells(db, db1, d);
      if d.amount == 0 {
        SettledTells(db1, db2, |db.refunds|, d.order, 0);
      }
    }
  }

  lemma SameReclaimed(db: Db, a: Db, b: Db, ids: set<nat>)
    requires RowsReclaimed(db, b, ids) && a == b.(orders := a.orders)
    ensures RowsReclaimed(db, a, ids)
  {
  }

  // ---- every step, every run ----

  lemma OrdersTell(w: World, a: Action)
    requires OfOrders(a) && WorldOk(w) && StatusesTell(w.db)
    ensures StatusesTell(NextOrders(w, a).db)
  {
    HoldAnswers.WorldOrderly(w);
    hide WorldOk, StatusesTell, CommitDraft, Release, RowsReleased, DraftOrder, VendorCreate, OrdersOk;
    if a.DoCommitOrder? {
      CommitTells(w, a.draft);
    } else if a.ExpireOrder? {
      OrderReleased(w.db, a.order, Expired);
      ReleasedTells(w.db, Release(w.db, a.order, Expired), a.order, Expired);
    } else if a.AbortCheckout? {
      OrderReleased(w.db, a.order, Canceled);
      ReleasedTells(w.db, Release(w.db, a.order, Canceled), a.order, Canceled);
    } else {
      SameRowsTell(w.db, NextOrders(w, a).db);
    }
  }

  lemma WebhooksTell(w: World, a: Action)
    requires OfWebhooks(a) && WorldOk(w) && StatusesTell(w.db)
    ensures StatusesTell(NextWebhooks(w, a).db)
  {
    hide WorldOk, StatusesTell, HandleDelivery, VendorResolve, CompensationAccepted;
    var db2 := NextWebhooks(w, a).db;
    if a.Handle? {
      HandleTells(w, a.delivery);
    } else if db2.refunds != w.db.refunds {
      OpenedTells(w.db, db2, db2.refunds[|w.db.refunds|]);
    } else {
      SameRowsTell(w.db, db2);
    }
  }

  lemma RefundsTell(w: World, a: Action)
    requires OfRefunds(a) && StatusesTell(w.db)
    ensures StatusesTell(NextRefunds(w, a).db)
  {
    hide StatusesTell, CommitRefund, RefundCommits, DraftRefund, VendorRefund;
    var db2 := NextRefunds(w, a).db;
    if a.DoCommitRefund? {
      if a.draft < |w.refundDrafts| {
        RefundMadeTells(w.db, w.refundDrafts[a.draft]);
      }
    } else if db2.refunds == w.db.refunds {
      SameRowsTell(w.db, db2);
    } else {
      var r := if a.RetryRefund? then a.refund else w.legs[a.leg].refund;
      RewrittenTells(w.db, db2, r);
    }
  }

  lemma ScanTells(w: World, a: Action)
    requires a.DoCheckIn? && StatusesTell(w.db)
    ensures StatusesTell(Next(w, a).db)
  {
    StepFamily(w, a);
    hide Next, StatusTells;
    var db2 := Next(w, a).db;
    forall q: nat | q < |db2.orders| ensures StatusTells(db2.orders[q].status, db2.tickets, db2.refunds, q) {
      QuietTells(w.db, db2, q);
    }
  }

  lemma StepTells(w: World, a: Action)
    requires WorldOk(w) && StatusesTell(w.db)
    ensures StatusesTell(Next(w, a).db)
  {
    StepFamily(w, a);
    hide WorldOk, StatusesTell, Next, NextHolds, NextOrders, NextWebhooks, NextRefunds;
    if OfCatalog(a) {
      CatalogFrame(w, a);
      SameRowsTell(w.db, Next(w, a).db);
    } else if OfHolds(a) {
      HoldsFrame(w, a);
      SameRowsTell(w.db, Next(w, a).db);
    } else if OfOrders(a) {
      OrdersTell(w, a);
    } else if OfWebhooks(a) {
      WebhooksTell(w, a);
    } else if OfRefunds(a) {
      RefundsTell(w, a);
    } else {
      ScanTells(w, a);
    }
  }

  lemma {:induction false} RunTells(w: World, schedule: seq<Action>)
    requires WorldOk(w) && StatusesTell(w.db)
    ensures StatusesTell(Run(w, schedule).db)
  {
    hide WorldOk, Next, StatusesTell;
    if schedule != [] {
      var m := |schedule| - 1;
      RunTells(w, schedule[..m]);
      RunKeeps(w, schedule[..m]);
      StepTells(Run(w, schedule[..m]), schedule[m]);
    }
  }

  lemma NothingTold(w: World)
    requires Initial(w)
    ensures StatusesTell(w.db)
  {
  }

  /** In every reachable world a paid order is `paid` exactly while no refund of it has settled, `refunded` only
      with all its tickets void, and once every refund made of it has settled, `refunded` exactly when all its
      tickets are void and `partially_refunded` otherwise. */
  lemma RefundStatusTells(w: World, o: nat)
    requires Reachable(w) && o < |w.db.orders|
    ensures StatusTells(w.db.orders[o].status, w.db.tickets, w.db.refunds, o)
  {
    hide Initial, WorldOk, Run, StatusTells;
    var w0: World, before: seq<Action> :| Initial(w0) && w == Run(w0, before);
    InitialOk(w0);
    NothingTold(w0);
    RunTells(w0, before);
  }
}
