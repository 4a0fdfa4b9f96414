/** Webhook settlement keeps the money invariant: success, failure, and an order given up unpaid. */
module MoneySettlement {
  import opened Tables
  import opened Sums
  import opened Weights
  import opened Issuing
  import opened Transactions
  import opened Protocol
  import opened Invariants
  import opened InventorySales
  import opened Money
  import opened MoneySales

  // ---- an unpaid order is closed ----

  /** While an order awaits payment nothing was captured, owed or refunded for it. */
  lemma AwaitingClean(orders: seq<Order>, intents: seq<Intent>, payments: seq<Payment>, refunds: seq<Refund>, o: nat)
    requires PaymentsOk(orders, intents, payments) && RefundsOk(orders, payments, refunds)
    requires o < |orders| && orders[o].status == AwaitingPayment
    ensures !CapturedFor(payments, o)
    ensures forall r | 0 <= r < |refunds| :: refunds[r].order != o
    ensures RefundTotal(refunds, o) == 0 && SettledTotal(refunds, o) == 0 && SystemCount(refunds, o) == 0
  {
    assert forall p | 0 <= p < |payments| :: PaymentOk(orders, intents, payments[p]);
    assert forall r | 0 <= r < |refunds| :: RefundOk(orders, payments, refunds[r]);
    TotalZero(RefundFor(o), refunds);
    TotalZero(SettledFor(o), refunds);
    TotalZero(SystemFor(o), refunds);
  }

  lemma ClosedPayments(orders: seq<Order>, intents: seq<Intent>, payments: seq<Payment>, o: nat, final: OrderStatus)
    requires PaymentsOk(orders, intents, payments) && IntentsOk(orders, intents) && PaidOrdersOk(orders, payments)
    requires o < |orders| && orders[o].status == AwaitingPayment && IsUnfulfillableStatus(final)
    ensures var orders2 := orders[o := orders[o].(status := final)];
      PaymentsOk(orders2, intents, payments) && IntentsOk(orders2, intents) && PaidOrdersOk(orders2, payments)
  {
  }

  lemma ClosedRefunds(orders: seq<Order>, tickets: seq<Ticket>, intents: seq<Intent>, payments: seq<Payment>,
                      refunds: seq<Refund>, deliveries: seq<Delivery>, drafts: seq<RefundDraft>, o: nat, final: OrderStatus)
    requires PaymentsOk(orders, intents, payments) && RefundsOk(orders, payments, refunds)
    requires AccountsOk(orders, tickets, refunds) && CustodyOk(orders, payments, refunds, deliveries)
    requires OwingOk(orders, payments, deliveries) && RefundDraftsOk(orders, tickets, payments, drafts)
    requires o < |orders| && orders[o].status == AwaitingPayment && IsUnfulfillableStatus(final)
    ensures var orders2 := orders[o := orders[o].(status := final)];
      && RefundsOk(orders2, payments, refunds) && AccountsOk(orders2, tickets, refunds)
      && CustodyOk(orders2, payments, refunds, deliveries)
      && OwingOk(orders2, payments, deliveries) && RefundDraftsOk(orders2, tickets, payments, drafts)
  {
    var orders2 := orders[o := orders[o].(status := final)];
    AwaitingClean(orders, intents, payments, refunds, o);
    forall r | 0 <= r < |refunds| ensures RefundOk(orders2, payments, refunds[r]) {
      assert RefundOk(orders, payments, refunds[r]);
    }
    forall r: nat | r < |orders2| ensures AccountOk(tickets, refunds, r, orders2[r]) {
      assert AccountOk(tickets, refunds, r, orders[r]);
    }
    forall n | 0 <= n < |drafts| ensures RefundDraftOk(orders2, tickets, payments, drafts[n]) {
      assert RefundDraftOk(orders, tickets, payments, drafts[n]);
    }
  }

  lemma ReleaseMoney(w: World, o: nat, final: OrderStatus, checkouts2: set<nat>)
    requires MoneyOk(w) && IsUnfulfillableStatus(final)
    ensures MoneyOk(w.(db := Release(w.db, o, final), checkouts := checkouts2))
  {
    hide PaymentsOk, IntentsOk, PaidOrdersOk, EventsOk, RefundsOk, AccountsOk, CustodyOk, OwingOk, LegsOk, BooksOk,
         SettledOk, RefundDraftsOk, OrderDraftsOk;
    if o < |w.db.orders| && w.db.orders[o].status == AwaitingPayment {
      ClosedPayments(w.db.orders, w.vendor.intents, w.db.payments, o, final);
      ClosedRefunds(w.db.orders, w.db.tickets, w.vendor.intents, w.db.payments, w.db.refunds, w.deliveries,
                    w.refundDrafts, o, final);
    }
  }

  // ---- a payment row changes status ----

  /** Declining an open payment hides no captured one. */
  lemma DeclinedSame(payments: seq<Payment>, p: nat)
    requires p < |payments| && payments[p].status == RequiresAction
    ensures var payments2 := payments[p := payments[p].(status := Declined)];
      && (forall o: nat :: CapturedFor(payments2, o) <==> CapturedFor(payments, o))
      && (forall o: nat, i: nat :: PaidBy(payments2, o, i) <==> PaidBy(payments, o, i))
      && (forall i: nat :: OnRecord(payments2, i) <==> OnRecord(payments, i))
  {
    var payments2 := payments[p := payments[p].(status := Declined)];
    forall o: nat ensures CapturedFor(payments2, o) <==> CapturedFor(payments, o) {
      if CapturedFor(payments, o) {
        var q :| 0 <= q < |payments| && payments[q].order == o && payments[q].status == Captured;
        assert payments2[q] == payments[q];
      }
      if CapturedFor(payments2, o) {
        var q :| 0 <= q < |payments2| && payments2[q].order == o && payments2[q].status == Captured;
        assert payments2[q] == payments[q];
      }
    }
    forall o: nat, i: nat ensures PaidBy(payments2, o, i) <==> PaidBy(payments, o, i) {
      if PaidBy(payments, o, i) {
        var q :| 0 <= q < |payments| && payments[q].order == o && payments[q].intent == i && payments[q].status == Captured;
        assert payments2[q] == payments[q];
      }
      if PaidBy(payments2, o, i) {
        var q :| 0 <= q < |payments2| && payments2[q].order == o && payments2[q].intent == i && payments2[q].status == Captured;
        assert payments2[q] == payments[q];
      }
    }
    SameRecord(payments, payments2);
  }

  lemma SameRecord(payments: seq<Payment>, payments2: seq<Payment>)
    requires |payments2| == |payments| && forall p | 0 <= p < |payments| :: payments2[p].intent == payments[p].intent
    ensures forall i: nat :: OnRecord(payments2, i) <==> OnRecord(payments, i)
  {
  }

  /** Capturing an open payment adds exactly its own order and intent. */
  lemma CapturedSame(payments: seq<Payment>, p: nat)
    requires p < |payments| && payments[p].status == RequiresAction
    requires forall a, b | 0 <= a < b < |payments| :: payments[a].order != payments[b].order
    ensures var payments2 := payments[p := payments[p].(status := Captured)];
      && (forall o: nat :: CapturedFor(payments2, o) <==> CapturedFor(payments, o) || o == payments[p].order)
      && (forall o: nat, i: nat :: PaidBy(payments, o, i) ==> PaidBy(payments2, o, i))
      && PaidBy(payments2, payments[p].order, payments[p].intent)
      && (forall i: nat :: OnRecord(payments2, i) <==> OnRecord(payments, i))
    ensures !CapturedFor(payments, payments[p].order)
  {
    var payments2 := payments[p := payments[p].(status := Captured)];
    assert payments2[p].status == Captured;
    forall o: nat ensures CapturedFor(payments2, o) <==> CapturedFor(payments, o) || o == payments[p].order {
      if CapturedFor(payments, o) {
        var q :| 0 <= q < |payments| && payments[q].order == o && payments[q].status == Captured;
        assert payments2[q] == payments[q];
      }
      if CapturedFor(payments2, o) {
        var q :| 0 <= q < |payments2| && payments2[q].order == o && payments2[q].status == Captured;
        assert q != p ==> payments2[q] == payments[q];
      }
    }
    forall o: nat, i: nat | PaidBy(payments, o, i) ensures PaidBy(payments2, o, i) {
      var q :| 0 <= q < |payments| && payments[q].order == o && payments[q].intent == i && payments[q].status == Captured;
      assert payments2[q] == payments[q];
    }
    SameRecord(payments, payments2);
  }

  /** The predicates that read payments only through captured orders, intents and rows on record. */
  lemma PaymentsFrame(orders: seq<Order>, tickets: seq<Ticket>, payments: seq<Payment>, payments2: seq<Payment>,
                      refunds: seq<Refund>, legs: seq<Leg>, intents: seq<Intent>, refs: map<nat, nat>,
                      drafts: seq<RefundDraft>, deliveries: seq<Delivery>)
    requires forall o: nat :: CapturedFor(payments, o) ==> CapturedFor(payments2, o)
    requires forall o: nat, i: nat :: PaidBy(payments, o, i) ==> PaidBy(payments2, o, i)
    requires forall i: nat :: OnRecord(payments2, i) <==> OnRecord(payments, i)
    requires RefundsOk(orders, payments, refunds) && LegsOk(payments, refunds, legs)
    requires BooksOk(payments, refunds, intents, refs) && RefundDraftsOk(orders, tickets, payments, drafts)
    requires OwingOk(orders, payments, deliveries)
    ensures RefundsOk(orders, payments2, refunds) && LegsOk(payments2, refunds, legs)
    ensures BooksOk(payments2, refunds, intents, refs) && RefundDraftsOk(orders, tickets, payments2, drafts)
    ensures OwingOk(orders, payments2, deliveries)
  {
  }

  // ---- deliveries ----

  /** Moving a delivery between stages that owe nothing moves no custody. */
  lemma QuietStage(orders: seq<Order>, payments: seq<Payment>, refunds: seq<Refund>, deliveries: seq<Delivery>, d: nat, stage: Stage)
    requires CustodyOk(orders, payments, refunds, deliveries) && OwingOk(orders, payments, deliveries)
    requires d < |deliveries| && !deliveries[d].stage.Owing? && !stage.Owing?
    ensures var deliveries2 := deliveries[d := deliveries[d].(stage := stage)];
      CustodyOk(orders, payments, refunds, deliveries2) && OwingOk(orders, payments, deliveries2)
  {
    var deliveries2 := deliveries[d := deliveries[d].(stage := stage)];
    forall o: nat ensures OwingCount(deliveries2, o) == OwingCount(deliveries, o) {
      TotalUpdate(OwingFor(o), deliveries, d, deliveries2[d]);
    }
  }

  lemma QuietMoney(w: World, d: nat, stage: Stage)
    requires MoneyOk(w) && d < |w.deliveries| && !w.deliveries[d].stage.Owing? && !stage.Owing?
    ensures MoneyOk(w.(deliveries := SetStage(w, d, stage)))
  {
    hide PaymentsOk, IntentsOk, PaidOrdersOk, EventsOk, RefundsOk, AccountsOk, CustodyOk, OwingOk, LegsOk, BooksOk,
         SettledOk, RefundDraftsOk, OrderDraftsOk;
    QuietStage(w.db.orders, w.db.payments, w.db.refunds, w.deliveries, d, stage);
  }

  // ---- payment.failed ----

  lemma DeclinedPayments(orders: seq<Order>, intents: seq<Intent>, payments: seq<Payment>, p: nat)
    requires PaymentsOk(orders, intents, payments) && PaidOrdersOk(orders, payments) && p < |payments|
    requires payments[p].status == RequiresAction
    requires payments[p].order < |orders| && IsUnfulfillableStatus(orders[payments[p].order].status)
    requires payments[p].intent < |intents| && intents[payments[p].intent].status == IntentFailed
    ensures var payments2 := payments[p := payments[p].(status := Declined)];
      PaymentsOk(orders, intents, payments2) && PaidOrdersOk(orders, payments2)
  {
    var payments2 := payments[p := payments[p].(status := Declined)];
    DeclinedSame(payments, p);
    forall q | 0 <= q < |payments2| ensures PaymentOk(orders, intents, payments2[q]) {
      assert PaymentOk(orders, intents, payments[q]);
    }
  }

  lemma DeclinedCustody(orders: seq<Order>, payments: seq<Payment>, refunds: seq<Refund>, deliveries: seq<Delivery>, p: nat)
    requires CustodyOk(orders, payments, refunds, deliveries) && p < |payments| && payments[p].status == RequiresAction
    ensures CustodyOk(orders, payments[p := payments[p].(status := Declined)], refunds, deliveries)
  {
    DeclinedSame(payments, p);
  }

  /** Declining an open payment whose order is already closed. */
  lemma DeclineMoney(w: World, p: nat)
    requires MoneyOk(w) && p < |w.db.payments| && w.db.payments[p].status == RequiresAction
    requires w.db.payments[p].order < |w.db.orders|
    requires IsUnfulfillableStatus(w.db.orders[w.db.payments[p].order].status)
    requires w.db.payments[p].intent < |w.vendor.intents|
    requires w.vendor.intents[w.db.payments[p].intent].status == IntentFailed
    ensures MoneyOk(w.(db := w.db.(payments := w.db.payments[p := w.db.payments[p].(status := Declined)])))
  {
    hide PaymentsOk, IntentsOk, PaidOrdersOk, EventsOk, RefundsOk, AccountsOk, CustodyOk, OwingOk, LegsOk, BooksOk,
         SettledOk, RefundDraftsOk, OrderDraftsOk;
    var db := w.db;
    var payments2 := db.payments[p := db.payments[p].(status := Declined)];
    DeclinedPayments(db.orders, w.vendor.intents, db.payments, p);
    DeclinedCustody(db.orders, db.payments, db.refunds, w.deliveries, p);
    DeclinedSame(db.payments, p);
    PaymentsFrame(db.orders, db.tickets, db.payments, payments2, db.refunds, w.legs, w.vendor.intents, w.vendor.refs,
                  w.refundDrafts, w.deliveries);
  }

  /** Declining then releasing is releasing then declining: the two touch different tables. */
  lemma DeclineCommutes(db: Db, p: nat, o: nat)
    requires p < |db.payments|
    ensures var payments2 := db.payments[p := db.payments[p].(status := Declined)];
      Release(db.(payments := payments2), o, Canceled) == Release(db, o, Canceled).(payments := payments2)
  {
  }

  lemma ReleasedOrder(db: Db, o: nat)
    requires o < |db.orders| && !IsPaidStatus(db.orders[o].status)
    ensures var after := Release(db, o, Canceled);
      |after.orders| == |db.orders| && IsUnfulfillableStatus(after.orders[o].status) && after.payments == db.payments
  {
  }

  lemma HandleFailedMoney(w: World, i: nat)
    requires MoneyOk(w) && i < |w.vendor.intents| && w.vendor.intents[i].status == IntentFailed
    ensures MoneyOk(w.(db := HandleFailed(w.db, i)))
  {
    hide IntentsOk, PaidOrdersOk, EventsOk, RefundsOk, AccountsOk, CustodyOk, OwingOk, LegsOk, BooksOk,
         SettledOk, RefundDraftsOk, OrderDraftsOk, Release;
    var found := PaymentByIntent(w.db.payments, i);
    if found.Some? && w.db.payments[found.value].status == RequiresAction {
      var p := found.value;
      var o := w.db.payments[p].order;
      assert PaymentOk(w.db.orders, w.vendor.intents, w.db.payments[p]);
      hide MoneyOk, PaymentsOk;
      ReleaseMoney(w, o, Canceled, w.checkouts);
      ReleasedOrder(w.db, o);
      DeclineMoney(w.(db := Release(w.db, o, Canceled)), p);
      DeclineCommutes(w.db, p, o);
    }
  }

  // ---- payment.succeeded ----

  lemma CapturedPayments(orders: seq<Order>, orders2: seq<Order>, intents: seq<Intent>, payments: seq<Payment>, p: nat)
    requires PaymentsOk(orders, intents, payments) && PaidOrdersOk(orders, payments) && p < |payments|
    requires payments[p].status == RequiresAction && payments[p].order < |orders|
    requires intents[payments[p].intent].status == IntentSucceeded
    requires var o := payments[p].order;
      orders2 == (if orders[o].status == AwaitingPayment then orders[o := orders[o].(status := Paid)] else orders)
    ensures var payments2 := payments[p := payments[p].(status := Captured)];
      PaymentsOk(orders2, intents, payments2) && PaidOrdersOk(orders2, payments2)
  {
    var payments2 := payments[p := payments[p].(status := Captured)];
    CapturedSame(payments, p);
    forall q | 0 <= q < |payments2| ensures PaymentOk(orders2, intents, payments2[q]) {
      assert PaymentOk(orders, intents, payments[q]);
      if q != p {
        assert payments[q].order != payments[p].order;
      }
    }
  }

  /** A capture for a closed order leaves the delivery owing the compensation. */
  lemma OwingCustody(orders: seq<Order>, payments: seq<Payment>, refunds: seq<Refund>, deliveries: seq<Delivery>,
                     p: nat, d: nat)
    requires CustodyOk(orders, payments, refunds, deliveries) && OwingOk(orders, payments, deliveries)
    requires p < |payments| && payments[p].status == RequiresAction && payments[p].order < |orders|
    requires payments[p].amount == orders[payments[p].order].total
    requires forall a, b | 0 <= a < b < |payments| :: payments[a].order != payments[b].order
    requires IsUnfulfillableStatus(orders[payments[p].order].status)
    requires d < |deliveries| && !deliveries[d].stage.Owing?
    ensures var x := payments[p];
      var payments2, deliveries2 := payments[p := x.(status := Captured)],
                                    deliveries[d := deliveries[d].(stage := Owing(x.order, x.amount, x.intent))];
      CustodyOk(orders, payments2, refunds, deliveries2) && OwingOk(orders, payments2, deliveries2)
  {
    var x := payments[p];
    var deliveries2 := deliveries[d := deliveries[d].(stage := Owing(x.order, x.amount, x.intent))];
    CapturedSame(payments, p);
    forall o: nat
      ensures OwingCount(deliveries2, o) == OwingCount(deliveries, o) + (if o == x.order then 1 else 0)
    {
      TotalUpdate(OwingFor(o), deliveries, d, deliveries2[d]);
    }
  }

  lemma CaptureUnfulfillableMoney(w: World, p: nat, d: nat)
    requires MoneyOk(w) && p < |w.db.payments| && w.db.payments[p].status == RequiresAction
    requires w.db.payments[p].order < |w.db.orders| && w.db.payments[p].intent < |w.vendor.intents|
    requires IsUnfulfillableStatus(w.db.orders[w.db.payments[p].order].status)
    requires w.vendor.intents[w.db.payments[p].intent].status == IntentSucceeded
    requires d < |w.deliveries| && !w.deliveries[d].stage.Owing?
    ensures var x := w.db.payments[p];
      MoneyOk(w.(db := w.db.(payments := w.db.payments[p := x.(status := Captured)]),
                 deliveries := SetStage(w, d, Owing(x.order, x.amount, x.intent))))
  {
    hide IntentsOk, PaidOrdersOk, EventsOk, RefundsOk, AccountsOk, CustodyOk, OwingOk, LegsOk, BooksOk,
         SettledOk, RefundDraftsOk, OrderDraftsOk;
    var db := w.db;
    var payments2 := db.payments[p := db.payments[p].(status := Captured)];
    assert PaymentOk(db.orders, w.vendor.intents, db.payments[p]);
    assert forall a, b | 0 <= a < b < |db.payments| :: db.payments[a].order != db.payments[b].order;
    hide PaymentsOk;
    CapturedPayments(db.orders, db.orders, w.vendor.intents, db.payments, p);
    OwingCustody(db.orders, db.payments, db.refunds, w.deliveries, p, d);
    CapturedSame(db.payments, p);
    PaymentsFrame(db.orders, db.tickets, db.payments, payments2, db.refunds, w.legs, w.vendor.intents, w.vendor.refs,
                  w.refundDrafts, w.deliveries);
  }

  /** The order row turns paid: what the books said about it was nothing, and stays nothing. */
  lemma PaidBooks(orders: seq<Order>, intents: seq<Intent>, payments: seq<Payment>, payments2: seq<Payment>,
                  refunds: seq<Refund>, deliveries: seq<Delivery>, o: nat)
    requires PaymentsOk(orders, intents, payments) && RefundsOk(orders, payments, refunds) && IntentsOk(orders, intents)
    requires CustodyOk(orders, payments, refunds, deliveries) && OwingOk(orders, payments, deliveries)
    requires o < |orders| && orders[o].status == AwaitingPayment
    requires forall r: nat :: CapturedFor(payments2, r) <==> CapturedFor(payments, r) || r == o
    requires forall r: nat, i: nat :: PaidBy(payments, r, i) ==> PaidBy(payments2, r, i)
    ensures var orders2 := orders[o := orders[o].(status := Paid)];
      && RefundsOk(orders2, payments2, refunds) && IntentsOk(orders2, intents)
      && CustodyOk(orders2, payments2, refunds, deliveries) && OwingOk(orders2, payments2, deliveries)
  {
    var orders2 := orders[o := orders[o].(status := Paid)];
    AwaitingClean(orders, intents, payments, refunds, o);
    forall r | 0 <= r < |refunds| ensures RefundOk(orders2, payments2, refunds[r]) {
      assert RefundOk(orders, payments, refunds[r]);
    }
  }

  lemma PaidAccounts(db: Db, o: nat)
    requires InventoryOk(db) && AccountsOk(db.orders, db.tickets, db.refunds)
    requires o < |db.orders| && db.orders[o].status == AwaitingPayment
    requires RefundTotal(db.refunds, o) == 0
    ensures var after := PayOff(db, o); AccountsOk(after.orders, after.tickets, db.refunds)
  {
    var after, p, items := PayOff(db, o), Bound(db.holds, o), db.orders[o].items;
    NoTickets(db.tiers, db.seats, db.orders, db.tickets, o, items);
    assert ItemsOk(db.tiers, items);
    MintedWorth(db.tickets, o, db.tiers, items, db.seats, p);
    forall r: nat | r < |after.orders| ensures AccountOk(after.tickets, db.refunds, r, after.orders[r]) {
      assert AccountOk(db.tickets, db.refunds, r, db.orders[r]);
      if r != o {
        MintedAccount(db.tickets, db.refunds, o, db.tiers, items, db.seats, p, r, db.orders[r]);
      }
    }
  }

  lemma PaidDrafts(orders: seq<Order>, tickets: seq<Ticket>, batch: seq<Ticket>, payments: seq<Payment>,
                   payments2: seq<Payment>, drafts: seq<RefundDraft>, o: nat)
    requires RefundDraftsOk(orders, tickets, payments, drafts)
    requires o < |orders| && orders[o].status == AwaitingPayment
    requires forall r: nat, i: nat :: PaidBy(payments, r, i) ==> PaidBy(payments2, r, i)
    ensures RefundDraftsOk(orders[o := orders[o].(status := Paid)], tickets + batch, payments2, drafts)
  {
    var orders2 := orders[o := orders[o].(status := Paid)];
    forall n | 0 <= n < |drafts| ensures RefundDraftOk(orders2, tickets + batch, payments2, drafts[n]) {
      var d := drafts[n];
      assert RefundDraftOk(orders, tickets, payments, d);
      TotalExtend(PickPrice(d.ids, orders[d.order].items), tickets, batch);
    }
  }

  lemma CapturePaidMoney(w: World, p: nat)
    requires InventoryOk(w.db) && MoneyOk(w) && p < |w.db.payments| && w.db.payments[p].status == RequiresAction
    requires w.db.payments[p].order < |w.db.orders| && w.db.payments[p].intent < |w.vendor.intents|
    requires w.db.orders[w.db.payments[p].order].status == AwaitingPayment
    requires w.vendor.intents[w.db.payments[p].intent].status == IntentSucceeded
    ensures var x := w.db.payments[p];
      MoneyOk(w.(db := PayOff(w.db.(payments := w.db.payments[p := x.(status := Captured)]), x.order)))
  {
    hide IntentsOk, PaidOrdersOk, EventsOk, RefundsOk, AccountsOk, CustodyOk, OwingOk, LegsOk, BooksOk,
         SettledOk, RefundDraftsOk, OrderDraftsOk, InventoryOk, CapturedFor, PaidBy, OnRecord;
    var db := w.db;
    var o := db.payments[p].order;
    var payments2 := db.payments[p := db.payments[p].(status := Captured)];
    assert forall a, b | 0 <= a < b < |db.payments| :: db.payments[a].order != db.payments[b].order;
    hide PaymentsOk;
    CapturedSame(db.payments, p);
    PaymentsFrame(db.orders, db.tickets, db.payments, payments2, db.refunds, w.legs, w.vendor.intents, w.vendor.refs,
                  w.refundDrafts, w.deliveries);
    PaidOffTables(w, p);
  }

  /** The tables that change together when a captured payment pays its order. */
  lemma PaidOffTables(w: World, p: nat)
    requires InventoryOk(w.db) && MoneyOk(w) && p < |w.db.payments| && w.db.payments[p].status == RequiresAction
    requires w.db.payments[p].order < |w.db.orders| && w.db.payments[p].intent < |w.vendor.intents|
    requires w.db.orders[w.db.payments[p].order].status == AwaitingPayment
    requires w.vendor.intents[w.db.payments[p].intent].status == IntentSucceeded
    ensures var x := w.db.payments[p];
      var after := PayOff(w.db.(payments := w.db.payments[p := x.(status := Captured)]), x.order);
      && PaymentsOk(after.orders, w.vendor.intents, after.payments) && PaidOrdersOk(after.orders, after.payments)
      && IntentsOk(after.orders, w.vendor.intents) && RefundsOk(after.orders, after.payments, after.refunds)
      && CustodyOk(after.orders, after.payments, after.refunds, w.deliveries)
      && OwingOk(after.orders, after.payments, w.deliveries)
      && AccountsOk(after.orders, after.tickets, after.refunds)
      && RefundDraftsOk(after.orders, after.tickets, after.payments, w.refundDrafts)
  {
    hide IntentsOk, PaidOrdersOk, EventsOk, RefundsOk, AccountsOk, CustodyOk, OwingOk, LegsOk, BooksOk,
         SettledOk, RefundDraftsOk, OrderDraftsOk, InventoryOk, CapturedFor, PaidBy, OnRecord;
    var db := w.db;
    var o := db.payments[p].order;
    var payments2 := db.payments[p := db.payments[p].(status := Captured)];
    assert forall a, b | 0 <= a < b < |db.payments| :: db.payments[a].order != db.payments[b].order;
    hide PaymentsOk;
    var after := PayOff(db.(payments := payments2), o);
    CapturedSame(db.payments, p);
    CapturedPayments(db.orders, after.orders, w.vendor.intents, db.payments, p);
    AwaitingClean(db.orders, w.vendor.intents, db.payments, db.refunds, o);
    PaidBooks(db.orders, w.vendor.intents, db.payments, payments2, db.refunds, w.deliveries, o);
    PaidAccounts(db, o);
    PaidDrafts(db.orders, db.tickets, Minted(o, db.tiers, db.orders[o].items, db.seats, Bound(db.holds, o)),
               db.payments, payments2, w.refundDrafts, o);
  }

  /** The branch that drops a captured payment is unreachable: an open payment's order either still
      awaits it or can no longer be honoured. */
  lemma OpenPaymentOutcome(w: World, i: nat)
    requires MoneyOk(w) && PaymentByIntent(w.db.payments, i).Some?
    requires w.db.payments[PaymentByIntent(w.db.payments, i).value].status == RequiresAction
    ensures SucceededOutcomeOf(w.db, i) != Ignored
  {
  }

  lemma HandleSucceededMoney(w: World, i: nat, d: nat)
    requires InventoryOk(w.db) && MoneyOk(w) && i < |w.vendor.intents| && w.vendor.intents[i].status == IntentSucceeded
    requires d < |w.deliveries| && w.deliveries[d].stage == Received
    ensures var stage := match SucceededOutcomeOf(w.db, i)
                         case Unfulfillable(o, amount) => Owing(o, amount, i)
                         case _ => Handled;
      MoneyOk(w.(db := HandleSucceeded(w.db, i), deliveries := SetStage(w, d, stage)))
  {
    hide InventoryOk;
    var found := PaymentByIntent(w.db.payments, i);
    if found.Some? && w.db.payments[found.value].status == RequiresAction {
      var p := found.value;
      OpenPaymentOutcome(w, i);
      assert PaymentOk(w.db.orders, w.vendor.intents, w.db.payments[p]);
      hide MoneyOk;
      if SucceededOutcomeOf(w.db, i) == PaidOff {
        CapturePaidMoney(w, p);
        QuietMoney(w.(db := HandleSucceeded(w.db, i)), d, Handled);
      } else {
        CaptureUnfulfillableMoney(w, p, d);
      }
    } else {
      hide MoneyOk;
      QuietMoney(w, d, Handled);
    }
  }
}
