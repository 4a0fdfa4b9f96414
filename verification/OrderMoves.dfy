/** Which step takes an order out of waiting for payment, and where it goes. */
module OrderMoves {
  import opened Tables
  import opened Transactions
  import opened Protocol
  import opened Frames
  import opened Invariants
  import opened Drafts
  import opened Money
  import opened Steps
  import opened Once
  import opened OrderAnswers
  import opened MoneyAnswers
  import Whole
  import HoldAnswers

  /** The payment row of intent `i` is open and belongs to order `o`. */
  ghost predicate OpenFor(payments: seq<Payment>, i: nat, o: nat) {
    exists p :: 0 <= p < |payments| && payments[p].intent == i && payments[p].order == o && payments[p].status == RequiresAction
  }

  /** The action handles, for the first time, a webhook about the order's open payment. */
  ghost predicate Settling(w: World, a: Action, o: nat, succeeded: bool) {
    && a.Handle? && a.delivery < |w.deliveries| && w.deliveries[a.delivery].stage == Received
    && w.deliveries[a.delivery].event < |w.vendor.events|
    && var e := w.vendor.events[w.deliveries[a.delivery].event];
    && (if succeeded then e.SucceededEvent? else e.FailedEvent?) && OpenFor(w.db.payments, e.intent, o)
  }

  /** Where a step takes a waiting order: paid by its success webhook, canceled by its failure webhook or by the
      request that created it, expired by its expiry, and nowhere by anything else. */
  ghost predicate MovesAsAsked(w: World, a: Action, w2: World, o: nat) {
    o < |w.db.orders| && w.db.orders[o].status == AwaitingPayment ==>
      && o < |w2.db.orders|
      && (w2.db.orders[o].status == Paid <==> Settling(w, a, o, true))
      && (w2.db.orders[o].status == Canceled <==> Settling(w, a, o, false) || (a == AbortCheckout(o) && o in w.checkouts))
      && (w2.db.orders[o].status == Expired <==> a == ExpireOrder(o))
      && (w2.db.orders[o].status in {AwaitingPayment, Paid, Canceled, Expired})
  }

  lemma StaysWaiting(w: World, a: Action, w2: World, o: nat)
    requires o < |w.db.orders| && w.db.orders[o].status == AwaitingPayment
    requires o < |w2.db.orders| && w2.db.orders[o].status == AwaitingPayment
    requires !Settling(w, a, o, true) && !Settling(w, a, o, false) && a != ExpireOrder(o) && !(a == AbortCheckout(o) && o in w.checkouts)
    ensures MovesAsAsked(w, a, w2, o)
  {
  }

  lemma NotHandling(w: World, a: Action, o: nat)
    requires !a.Handle?
    ensures !Settling(w, a, o, true) && !Settling(w, a, o, false)
  {
  }

  /** What the steps of order creation and release do to a waiting order. */
  lemma OrdersStatus(w: World, a: Action, o: nat)
    requires OfOrders(a) && WorldOk(w) && o < |w.db.orders| && w.db.orders[o].status == AwaitingPayment
    ensures var after := NextOrders(w, a).db.orders;
      o < |after| && after[o].status == (if a == ExpireOrder(o) then Expired
                                         else if a == AbortCheckout(o) && o in w.checkouts then Canceled else AwaitingPayment)
  {
    hide WorldOk, CommitDraft, Release, DraftOrder, VendorCreate;
    if a.DoCommitOrder? {
      CommitStatus(w, a.draft, o);
    } else if a.ExpireOrder? {
      ReleaseStatus(w, a.order, Expired, o);
    } else if a.AbortCheckout? && a.order in w.checkouts {
      ReleaseStatus(w, a.order, Canceled, o);
    }
  }

  lemma ReleaseStatus(w: World, q: nat, final: OrderStatus, o: nat)
    requires WorldOk(w) && o < |w.db.orders| && w.db.orders[o].status == AwaitingPayment
    ensures var after := Release(w.db, q, final).orders; o < |after| && after[o].status == if o == q then final else AwaitingPayment
  {
    HoldAnswers.WorldOrderly(w);
    hide WorldOk, OrdersOk, Release, RowsReleased;
    OrderReleased(w.db, q, final);
    ReleasedMoves(w.db, Release(w.db, q, final), q, final, o);
  }

  lemma CommitStatus(w: World, n: nat, o: nat)
    requires WorldOk(w) && o < |w.db.orders|
    ensures o < |CommitDraft(w, n).db.orders| && CommitDraft(w, n).db.orders[o] == w.db.orders[o]
  {
    hide CommitOrder, CommitOutcomeOf, CountersDrop, IssuedBatch;
    if n < |w.orderDrafts| {
      Whole.DraftParts(w, n);
      hide WorldOk, DraftOk, CatalogOk, Buys;
      OrderCommitted(w.db, w.orderDrafts[n]);
    }
  }

  lemma OrdersMove(w: World, a: Action, o: nat)
    requires OfOrders(a) && WorldOk(w) && o < |w.db.orders| && w.db.orders[o].status == AwaitingPayment
    ensures MovesAsAsked(w, a, NextOrders(w, a), o)
  {
    hide WorldOk, NextOrders, Settling;
    NotHandling(w, a, o);
    OrdersStatus(w, a, o);
  }

  lemma ReleasedMoves(db: Db, db2: Db, q: nat, final: OrderStatus, o: nat)
    requires RowsReleased(db, db2, q, final) && o < |db.orders| && db.orders[o].status == AwaitingPayment
    ensures o < |db2.orders| && db2.orders[o].status == if o == q then final else AwaitingPayment
  {
    hide CountersDrop;
  }

  /** Intents are unique, so the open payment of the event is the one the lookup finds. */
  lemma FoundOpen(payments: seq<Payment>, i: nat, o: nat)
    requires UniqueIntents(payments)
    ensures OpenFor(payments, i, o) <==>
      PaymentByIntent(payments, i).Some? && payments[PaymentByIntent(payments, i).value].order == o
      && payments[PaymentByIntent(payments, i).value].status == RequiresAction
  {
    if OpenFor(payments, i, o) {
      var p :| 0 <= p < |payments| && payments[p].intent == i && payments[p].order == o && payments[p].status == RequiresAction;
      FoundIsIt(payments, p);
    }
  }

  lemma PaymentMoves(db: Db, i: nat, p: nat, o: nat)
    requires Orderly(db) && RowOfIntent(db.payments, i, p) && o < |db.orders| && db.orders[o].status == AwaitingPayment
    ensures var mine := db.payments[p].status == RequiresAction && db.payments[p].order == o;
      && o < |HandleSucceeded(db, i).orders| && o < |HandleFailed(db, i).orders|
      && HandleSucceeded(db, i).orders[o].status == (if mine then Paid else AwaitingPayment)
      && HandleFailed(db, i).orders[o].status == (if mine then Canceled else AwaitingPayment)
  {
    SuccessAnswered(db, i, p);
    FailureAnswered(db, i, p);
    hide Orderly, UniqueIntents, HandleSucceeded, HandleFailed, SucceededOutcomeOf, CountersDrop, IssuedBatch, RowsReleased;
    var row := db.payments[p];
    if row.status == RequiresAction {
      ReleasedMoves(db.(payments := db.payments[p := row.(status := Declined)]), HandleFailed(db, i), row.order, Canceled, o);
    }
  }

  /** The event of a delivery that has still to be handled. */
  ghost function EventAt(w: World, d: nat): Option<VendorEvent> {
    if d < |w.deliveries| && w.deliveries[d].stage == Received && w.deliveries[d].event < |w.vendor.events|
    then Some(w.vendor.events[w.deliveries[d].event]) else None
  }

  /** What the transaction of an event does to a waiting order. */
  lemma EventStatus(db: Db, e: VendorEvent, o: nat)
    requires Orderly(db) && UniqueIntents(db.payments) && o < |db.orders| && db.orders[o].status == AwaitingPayment
    ensures var after := EventEffect(db, e).orders;
      o < |after| && after[o].status == (if e.SucceededEvent? && OpenFor(db.payments, e.intent, o) then Paid
                                         else if e.FailedEvent? && OpenFor(db.payments, e.intent, o) then Canceled
                                         else AwaitingPayment)
  {
    hide Orderly, UniqueIntents, OpenFor, HandleSucceeded, HandleFailed, HandleRefunded, SucceededOutcomeOf, RowsSettled;
    if e.RefundedEvent? {
      RefundAnswered(db, e.reference, e.refundId);
      RefundedStatus(db, HandleRefunded(db, e.reference, e.refundId), e.reference, e.refundId, o);
    } else if !e.UnknownEvent? {
      FoundOpen(db.payments, e.intent, o);
      if PaymentByIntent(db.payments, e.intent).Some? {
        PaymentMoves(db, e.intent, PaymentByIntent(db.payments, e.intent).value, o);
      } else {
        UnknownIntent(db, e.intent);
      }
    }
  }

  lemma RefundedStatus(db: Db, db2: Db, reference: Option<nat>, id: nat, o: nat)
    requires RowsRefunded(db, db2, reference, id) && o < |db.orders| && db.orders[o].status == AwaitingPayment
    ensures o < |db2.orders| && db2.orders[o].status == AwaitingPayment
  {
    hide AllVoid;
  }

  lemma EventRuns(w: World, d: nat)
    ensures HandleDelivery(w, d).db == if EventAt(w, d).Some? then EventEffect(w.db, EventAt(w, d).value) else w.db
  {
    hide HandleSucceeded, HandleFailed, HandleRefunded, SucceededOutcomeOf;
  }

  lemma HandleStatus(w: World, d: nat, o: nat)
    requires WorldOk(w) && o < |w.db.orders| && w.db.orders[o].status == AwaitingPayment
    ensures var after, e := HandleDelivery(w, d).db.orders, EventAt(w, d);
      o < |after| && after[o].status == (if e.Some? && e.value.SucceededEvent? && OpenFor(w.db.payments, e.value.intent, o) then Paid
                                         else if e.Some? && e.value.FailedEvent? && OpenFor(w.db.payments, e.value.intent, o) then Canceled
                                         else AwaitingPayment)
  {
    hide Orderly, UniqueIntents, OpenFor, EventEffect, EventAt, HandleDelivery, WorldOk;
    EventRuns(w, d);
    if EventAt(w, d).Some? {
      WorldUniqueIntents(w);
      HoldAnswers.WorldOrderly(w);
      EventStatus(w.db, EventAt(w, d).value, o);
    }
  }

  lemma HandleMoves(w: World, d: nat, o: nat)
    requires WorldOk(w) && o < |w.db.orders| && w.db.orders[o].status == AwaitingPayment
    ensures MovesAsAsked(w, Handle(d), HandleDelivery(w, d), o)
  {
    hide WorldOk, OpenFor, HandleDelivery;
    HandleStatus(w, d, o);
  }

  lemma WebhooksMove(w: World, a: Action, o: nat)
    requires OfWebhooks(a) && WorldOk(w) && o < |w.db.orders| && w.db.orders[o].status == AwaitingPayment
    ensures MovesAsAsked(w, a, NextWebhooks(w, a), o)
  {
    hide WorldOk, HandleDelivery, VendorResolve, CompensationAccepted, MovesAsAsked, Settling;
    if a.Handle? {
      HandleMoves(w, a.delivery, o);
    } else {
      NotHandling(w, a, o);
      StaysWaiting(w, a, NextWebhooks(w, a), o);
    }
  }

  lemma RefundsMove(w: World, a: Action, o: nat)
    requires OfRefunds(a) && o < |w.db.orders| && w.db.orders[o].status == AwaitingPayment
    ensures MovesAsAsked(w, a, NextRefunds(w, a), o)
  {
    hide DraftRefund, CommitRefund, RefundCommits, VendorRefund, MovesAsAsked, Settling, RowsReclaimed, Refundable;
    if a.DoCommitRefund? && a.draft < |w.refundDrafts| {
      RefundMade(w.db, w.refundDrafts[a.draft]);
    }
    NotHandling(w, a, o);
    StaysWaiting(w, a, NextRefunds(w, a), o);
  }

  /** A waiting order is paid exactly by its payment's success webhook, canceled exactly by its payment's failure
      webhook or its own aborted checkout, expired exactly by its expiry, and left waiting by everything else. */
  lemma WaitingOrderMoves(w: World, a: Action, o: nat)
    requires Reachable(w) && o < |w.db.orders| && w.db.orders[o].status == AwaitingPayment
    ensures MovesAsAsked(w, a, Next(w, a), o)
  {
    ReachableOk(w);
    StepFamily(w, a);
    hide Reachable, WorldOk, Next, NextHolds, NextOrders, NextWebhooks, NextRefunds, Settling, MovesAsAsked;
    if OfOrders(a) {
      OrdersMove(w, a, o);
    } else if OfWebhooks(a) {
      WebhooksMove(w, a, o);
    } else if OfRefunds(a) {
      RefundsMove(w, a, o);
    } else {
      if OfCatalog(a) {
        CatalogFrame(w, a);
      } else if OfHolds(a) {
        HoldsFrame(w, a);
      }
      NotHandling(w, a, o);
      StaysWaiting(w, a, Next(w, a), o);
    }
  }
}
