/** Refunds keep the money invariant: reclaim, compensation, the vendor call, settlement, retry. */
module MoneyRefunds {
  import opened Tables
  import opened Sums
  import opened Weights
  import opened Issuing
  import opened Transactions
  import opened Protocol
  import opened Invariants
  import opened InventorySales
  import opened Money

  // ---- order rows keep their sale, refund rows keep their debt ----

  lemma SameSaleMoney(orders: seq<Order>, orders2: seq<Order>, tickets: seq<Ticket>, intents: seq<Intent>,
                      payments: seq<Payment>, refunds: seq<Refund>, deliveries: seq<Delivery>,
                      drafts: seq<RefundDraft>)
    requires SameSale(orders, orders2)
    requires PaymentsOk(orders, intents, payments) && IntentsOk(orders, intents) && PaidOrdersOk(orders, payments)
    requires RefundsOk(orders, payments, refunds) && CustodyOk(orders, payments, refunds, deliveries)
    requires OwingOk(orders, payments, deliveries)
    requires RefundDraftsOk(orders, tickets, payments, drafts)
    ensures PaymentsOk(orders2, intents, payments) && IntentsOk(orders2, intents) && PaidOrdersOk(orders2, payments)
    ensures RefundsOk(orders2, payments, refunds) && CustodyOk(orders2, payments, refunds, deliveries)
    ensures OwingOk(orders2, payments, deliveries)
    ensures RefundDraftsOk(orders2, tickets, payments, drafts)
  {
    SameSaleBooks(orders, orders2, intents, payments, refunds);
    forall n | 0 <= n < |drafts| ensures RefundDraftOk(orders2, tickets, payments, drafts[n]) {
      assert RefundDraftOk(orders, tickets, payments, drafts[n]);
    }
  }

  lemma SameSaleBooks(orders: seq<Order>, orders2: seq<Order>, intents: seq<Intent>, payments: seq<Payment>, refunds: seq<Refund>)
    requires SameSale(orders, orders2)
    requires PaymentsOk(orders, intents, payments) && IntentsOk(orders, intents) && PaidOrdersOk(orders, payments)
    requires RefundsOk(orders, payments, refunds)
    ensures PaymentsOk(orders2, intents, payments) && IntentsOk(orders2, intents) && PaidOrdersOk(orders2, payments)
    ensures RefundsOk(orders2, payments, refunds)
  {
  }

  /** Refund rows that keep their order, amount and author. */
  ghost predicate SameDebt(refunds: seq<Refund>, refunds2: seq<Refund>) {
    && |refunds2| == |refunds|
    && forall r | 0 <= r < |refunds| ::
         refunds2[r].order == refunds[r].order && refunds2[r].amount == refunds[r].amount
         && refunds2[r].byUser == refunds[r].byUser
  }

  lemma SameDebtTotals(refunds: seq<Refund>, refunds2: seq<Refund>, o: nat, sent: set<nat>)
    requires SameDebt(refunds, refunds2)
    ensures RefundTotal(refunds2, o) == RefundTotal(refunds, o)
    ensures SystemCount(refunds2, o) == SystemCount(refunds, o)
    ensures SentTotal(refunds2, o, sent) == SentTotal(refunds, o, sent)
  {
    TotalSame(RefundFor(o), refunds2, RefundFor(o), refunds);
    TotalSame(SystemFor(o), refunds2, SystemFor(o), refunds);
    TotalSame(SentFor(o, sent), refunds2, SentFor(o, sent), refunds);
  }

  lemma SameDebtMoney(orders: seq<Order>, payments: seq<Payment>, refunds: seq<Refund>, refunds2: seq<Refund>,
                      legs: seq<Leg>, intents: seq<Intent>, refs: map<nat, nat>, deliveries: seq<Delivery>)
    requires SameDebt(refunds, refunds2)
    requires LegsOk(payments, refunds, legs) && BooksOk(payments, refunds, intents, refs)
    requires CustodyOk(orders, payments, refunds, deliveries)
    ensures LegsOk(payments, refunds2, legs) && BooksOk(payments, refunds2, intents, refs)
    ensures CustodyOk(orders, payments, refunds2, deliveries)
  {
    forall l | 0 <= l < |legs| ensures LegOk(payments, refunds2, legs[l]) {
      assert LegOk(payments, refunds, legs[l]);
    }
    forall o: nat
      ensures SystemCount(refunds2, o) == SystemCount(refunds, o)
      ensures SentTotal(refunds2, o, refs.Keys) == SentTotal(refunds, o, refs.Keys)
    {
      SameDebtTotals(refunds, refunds2, o, refs.Keys);
    }
  }

  /** A refund row changes without settling or unsettling. */
  lemma UnsettledMoney(w: World, r: nat, x: Refund)
    requires MoneyOk(w) && r < |w.db.refunds|
    requires var y := w.db.refunds[r];
      x.order == y.order && x.amount == y.amount && x.byUser == y.byUser && (x.status == Settled <==> y.status == Settled)
    ensures MoneyOk(w.(db := w.db.(refunds := w.db.refunds[r := x])))
  {
    hide PaymentsOk, IntentsOk, PaidOrdersOk, EventsOk, RefundsOk, AccountsOk, CustodyOk, OwingOk, LegsOk, BooksOk,
         SettledOk, RefundDraftsOk, OrderDraftsOk;
    var db, refunds2 := w.db, w.db.refunds[r := x];
    SameDebtMoney(db.orders, db.payments, db.refunds, refunds2, w.legs, w.vendor.intents, w.vendor.refs, w.deliveries);
    UnsettledRows(db.orders, db.tickets, db.payments, db.refunds, w.vendor.refs, r, x);
  }

  lemma UnsettledRows(orders: seq<Order>, tickets: seq<Ticket>, payments: seq<Payment>, refunds: seq<Refund>,
                      refs: map<nat, nat>, r: nat, x: Refund)
    requires RefundsOk(orders, payments, refunds) && AccountsOk(orders, tickets, refunds) && SettledOk(refunds, refs)
    requires r < |refunds|
    requires var y := refunds[r];
      x.order == y.order && x.amount == y.amount && x.byUser == y.byUser && (x.status == Settled <==> y.status == Settled)
    ensures var refunds2 := refunds[r := x];
      RefundsOk(orders, payments, refunds2) && AccountsOk(orders, tickets, refunds2) && SettledOk(refunds2, refs)
  {
    var refunds2 := refunds[r := x];
    forall k | 0 <= k < |refunds2| ensures RefundOk(orders, payments, refunds2[k]) {
      assert RefundOk(orders, payments, refunds[k]);
    }
    forall o: nat | o < |orders| ensures AccountOk(tickets, refunds2, o, orders[o]) {
      assert AccountOk(tickets, refunds, o, orders[o]);
      SameDebtTotals(refunds, refunds2, o, {});
      TotalSame(SettledFor(o), refunds2, SettledFor(o), refunds);
    }
  }

  // ---- payment.refunded ----

  lemma SettleSameSale(orders: seq<Order>, tickets: seq<Ticket>, o: nat, amount: int)
    requires o < |orders|
    ensures forall db: Db | db.orders == orders && db.tickets == tickets :: SameSale(orders, Settle(db, o, amount).orders)
  {
  }

  /** Settling one pending refund moves its amount into the order's refunded column. */
  lemma SettledAccounts(db: Db, r: nat, x: Refund)
    requires AccountsOk(db.orders, db.tickets, db.refunds)
    requires r < |db.refunds| && db.refunds[r].status == Pending && db.refunds[r].order < |db.orders|
    requires x.status == Settled && x.order == db.refunds[r].order && x.amount == db.refunds[r].amount
    requires x.byUser == db.refunds[r].byUser
    ensures var after := Settle(db.(refunds := db.refunds[r := x]), x.order, x.amount);
      AccountsOk(after.orders, after.tickets, after.refunds)
  {
    var refunds2 := db.refunds[r := x];
    var after := Settle(db.(refunds := refunds2), x.order, x.amount);
    forall o: nat | o < |after.orders| ensures AccountOk(after.tickets, refunds2, o, after.orders[o]) {
      assert AccountOk(db.tickets, db.refunds, o, db.orders[o]);
      SameDebtTotals(db.refunds, refunds2, o, {});
      TotalUpdate(SettledFor(o), db.refunds, r, x);
    }
  }

  lemma SettledRows(orders: seq<Order>, payments: seq<Payment>, refunds: seq<Refund>, refs: map<nat, nat>, r: nat, x: Refund)
    requires RefundsOk(orders, payments, refunds) && SettledOk(refunds, refs) && r < |refunds| && r in refs
    requires x.status == Settled && x.order == refunds[r].order && x.amount == refunds[r].amount
    requires x.byUser == refunds[r].byUser
    ensures RefundsOk(orders, payments, refunds[r := x]) && SettledOk(refunds[r := x], refs)
  {
  }

  lemma HandleRefundedMoney(w: World, reference: Option<nat>, id: nat)
    requires MoneyOk(w) && (reference.Some? ==> reference.value in w.vendor.refs)
    ensures MoneyOk(w.(db := HandleRefunded(w.db, reference, id)))
  {
    hide PaymentsOk, IntentsOk, PaidOrdersOk, EventsOk, AccountsOk, CustodyOk, OwingOk, LegsOk, BooksOk,
         SettledOk, RefundDraftsOk, OrderDraftsOk;
    if reference.Some? && reference.value < |w.db.refunds| && w.db.refunds[reference.value].status == Pending {
      var db, r := w.db, reference.value;
      var x := db.refunds[r].(status := Settled, providerRefund := Some(id));
      var refunds2 := db.refunds[r := x];
      assert RefundOk(db.orders, db.payments, db.refunds[r]);
      hide RefundsOk;
      var after := HandleRefunded(db, reference, id);
      SettledRows(db.orders, db.payments, db.refunds, w.vendor.refs, r, x);
      SettledAccounts(db, r, x);
      SameDebtMoney(db.orders, db.payments, db.refunds, refunds2, w.legs, w.vendor.intents, w.vendor.refs, w.deliveries);
      SettleSameSale(db.orders, db.tickets, x.order, x.amount);
      SameSaleMoney(db.orders, after.orders, db.tickets, w.vendor.intents, db.payments, refunds2, w.deliveries,
                  w.refundDrafts);
    }
  }

  // ---- the organizer's refund ----

  /** Voiding an order's tickets takes exactly their price out of its live value. */
  lemma VoidedValue(tickets: seq<Ticket>, ids: set<nat>, r: nat, o: nat, items: seq<Item>)
    requires forall k | k in ids :: k < |tickets| && tickets[k].order == o && tickets[k].status == Issued
    ensures LiveValue(tickets, o, items) == LiveValue(VoidTickets(tickets, ids, r), o, items) + PickValue(tickets, ids, items)
  {
    TotalSum(LivePrice(o, items), tickets, LivePrice(o, items), VoidTickets(tickets, ids, r), PickPrice(ids, items), tickets);
  }

  lemma VoidedElsewhere(tickets: seq<Ticket>, ids: set<nat>, r: nat, o: nat, o2: nat, items: seq<Item>)
    requires forall k | k in ids :: k < |tickets| && tickets[k].order == o
    requires o2 != o
    ensures LiveValue(VoidTickets(tickets, ids, r), o2, items) == LiveValue(tickets, o2, items)
    ensures LiveOf(VoidTickets(tickets, ids, r), o2) == LiveOf(tickets, o2)
  {
    TotalSame(LivePrice(o2, items), VoidTickets(tickets, ids, r), LivePrice(o2, items), tickets);
    TotalSame(LiveFor(o2), VoidTickets(tickets, ids, r), LiveFor(o2), tickets);
  }

  lemma VoidedFewer(tickets: seq<Ticket>, ids: set<nat>, r: nat, o: nat)
    ensures 0 <= LiveOf(VoidTickets(tickets, ids, r), o) <= LiveOf(tickets, o)
  {
    TotalNonNegative(LiveFor(o), VoidTickets(tickets, ids, r));
    TotalMonotone(LiveFor(o), VoidTickets(tickets, ids, r), LiveFor(o), tickets);
  }

  lemma RefundRowTotals(refunds: seq<Refund>, x: Refund, o: nat, sent: set<nat>)
    ensures RefundTotal(refunds + [x], o) == RefundTotal(refunds, o) + (if x.order == o then x.amount else 0)
    ensures SettledTotal(refunds + [x], o)
         == SettledTotal(refunds, o) + (if x.order == o && x.status == Settled then x.amount else 0)
    ensures SystemCount(refunds + [x], o) == SystemCount(refunds, o) + (if x.order == o && !x.byUser then 1 else 0)
    ensures |refunds| !in sent ==> SentTotal(refunds + [x], o, sent) == SentTotal(refunds, o, sent)
  {
  }

  lemma ReclaimedAccounts(db: Db, d: RefundDraft)
    requires AccountsOk(db.orders, db.tickets, db.refunds) && RefundCommits(db, d)
    requires RefundDraftOk(db.orders, db.tickets, db.payments, d)
    ensures AccountsOk(db.orders, VoidTickets(db.tickets, d.ids, |db.refunds|), db.refunds + [RefundRow(d)])
  {
    var r := |db.refunds|;
    var tickets2, refunds2 := VoidTickets(db.tickets, d.ids, r), db.refunds + [RefundRow(d)];
    forall o: nat | o < |db.orders| ensures AccountOk(tickets2, refunds2, o, db.orders[o]) {
      assert AccountOk(db.tickets, db.refunds, o, db.orders[o]);
      RefundRowTotals(db.refunds, RefundRow(d), o, {});
      SamePlacesMinted(db.tickets, tickets2, o, db.orders[o].items);
      if o == d.order {
        VoidedValue(db.tickets, d.ids, r, o, db.orders[o].items);
        VoidedFewer(db.tickets, d.ids, r, o);
      } else {
        VoidedElsewhere(db.tickets, d.ids, r, d.order, o, db.orders[o].items);
      }
    }
  }

  /** A new refund row that the vendor has not seen. */
  lemma NewRefundMoney(orders: seq<Order>, payments: seq<Payment>, refunds: seq<Refund>, x: Refund, legs: seq<Leg>,
                       intents: seq<Intent>, refs: map<nat, nat>)
    requires RefundsOk(orders, payments, refunds) && RefundOk(orders, payments, x)
    requires LegsOk(payments, refunds, legs) && BooksOk(payments, refunds, intents, refs) && SettledOk(refunds, refs)
    requires x.status == Settled ==> x.amount == 0
    ensures RefundsOk(orders, payments, refunds + [x]) && LegsOk(payments, refunds + [x], legs)
    ensures BooksOk(payments, refunds + [x], intents, refs) && SettledOk(refunds + [x], refs)
  {
  }

  lemma NewLeg(payments: seq<Payment>, refunds: seq<Refund>, legs: seq<Leg>, l: Leg)
    requires LegsOk(payments, refunds, legs) && LegOk(payments, refunds, l)
    ensures LegsOk(payments, refunds, legs + [l])
  {
  }

  lemma VoidedDrafts(orders: seq<Order>, tickets: seq<Ticket>, tickets2: seq<Ticket>, payments: seq<Payment>,
                     drafts: seq<RefundDraft>)
    requires RefundDraftsOk(orders, tickets, payments, drafts) && SamePlaces(tickets, tickets2)
    ensures RefundDraftsOk(orders, tickets2, payments, drafts)
  {
    forall n | 0 <= n < |drafts| ensures RefundDraftOk(orders, tickets2, payments, drafts[n]) {
      var d := drafts[n];
      assert RefundDraftOk(orders, tickets, payments, d);
      TotalSame(PickPrice(d.ids, orders[d.order].items), tickets2, PickPrice(d.ids, orders[d.order].items), tickets);
    }
  }

  lemma UserCustody(orders: seq<Order>, payments: seq<Payment>, refunds: seq<Refund>, deliveries: seq<Delivery>, x: Refund)
    requires CustodyOk(orders, payments, refunds, deliveries) && x.byUser
    ensures CustodyOk(orders, payments, refunds + [x], deliveries)
  {
  }

  /** Settling nothing: a free refund only re-derives the order's status. */
  lemma SettleNothing(db: Db, o: nat)
    requires AccountsOk(db.orders, db.tickets, db.refunds) && o < |db.orders|
    ensures var after := Settle(db, o, 0);
      AccountsOk(after.orders, after.tickets, after.refunds) && SameSale(db.orders, after.orders)
  {
  }

  /** Transaction 1 of a refund, before any settlement. */
  ghost function Reclaimed(db: Db, d: RefundDraft): Db {
    var freed := SeatsOfTickets(db.tickets, d.ids);
    db.(refunds := db.refunds + [RefundRow(d)],
        tickets := VoidTickets(db.tickets, d.ids, |db.refunds|),
        stock := GivePicked(db.stock, db.tickets, d.ids),
        feed := if freed == {} then db.feed else db.feed + [SeatsReleased(freed)])
  }

  lemma ReclaimedMoney(w: World, d: RefundDraft)
    requires MoneyOk(w) && RefundDraftOk(w.db.orders, w.db.tickets, w.db.payments, d) && RefundCommits(w.db, d)
    ensures MoneyOk(w.(db := Reclaimed(w.db, d)))
  {
    hide PaymentsOk, IntentsOk, PaidOrdersOk, EventsOk, RefundsOk, AccountsOk, CustodyOk, OwingOk, LegsOk, BooksOk,
         SettledOk, RefundDraftsOk, OrderDraftsOk, PaidBy;
    var db := w.db;
    ReclaimedAccounts(db, d);
    DraftRefundRow(db.orders, db.tickets, db.payments, d);
    NewRefundMoney(db.orders, db.payments, db.refunds, RefundRow(d), w.legs, w.vendor.intents, w.vendor.refs);
    UserCustody(db.orders, db.payments, db.refunds, w.deliveries, RefundRow(d));
    VoidedDrafts(db.orders, db.tickets, VoidTickets(db.tickets, d.ids, |db.refunds|), db.payments, w.refundDrafts);
  }

  lemma DraftRefundRow(orders: seq<Order>, tickets: seq<Ticket>, payments: seq<Payment>, d: RefundDraft)
    requires RefundDraftOk(orders, tickets, payments, d)
    ensures RefundOk(orders, payments, RefundRow(d))
  {
  }

  lemma SettleNothingMoney(w: World, o: nat)
    requires MoneyOk(w) && o < |w.db.orders|
    ensures MoneyOk(w.(db := Settle(w.db, o, 0)))
  {
    hide PaymentsOk, IntentsOk, PaidOrdersOk, EventsOk, RefundsOk, AccountsOk, CustodyOk, OwingOk, LegsOk, BooksOk,
         SettledOk, RefundDraftsOk, OrderDraftsOk;
    var after := Settle(w.db, o, 0);
    SettleNothing(w.db, o);
    SameSaleMoney(w.db.orders, after.orders, w.db.tickets, w.vendor.intents, w.db.payments, w.db.refunds, w.deliveries,
                  w.refundDrafts);
  }

  lemma NewLegMoney(w: World, l: Leg)
    requires MoneyOk(w) && LegOk(w.db.payments, w.db.refunds, l)
    ensures MoneyOk(w.(legs := w.legs + [l]))
  {
  }

  lemma CommitRefundMoney(w: World, n: nat)
    requires MoneyOk(w)
    ensures MoneyOk(CommitRefundDraft(w, n))
  {
    if n < |w.refundDrafts| && RefundCommits(w.db, w.refundDrafts[n]) {
      var d := w.refundDrafts[n];
      assert RefundDraftOk(w.db.orders, w.db.tickets, w.db.payments, d);
      hide MoneyOk;
      ReclaimedMoney(w, d);
      var reclaimed := w.(db := Reclaimed(w.db, d));
      if d.amount == 0 {
        SettleNothingMoney(reclaimed, d.order);
        assert CommitRefundDraft(w, n) == reclaimed.(db := Settle(reclaimed.db, d.order, 0));
      } else {
        NewLegMoney(reclaimed, Leg(|w.db.refunds|, d.intent.value, d.amount));
        assert CommitRefundDraft(w, n) == reclaimed.(legs := w.legs + [Leg(|w.db.refunds|, d.intent.value, d.amount)]);
      }
    }
  }

  // ---- reading a refund request ----

  lemma UniquePayment(orders: seq<Order>, intents: seq<Intent>, payments: seq<Payment>, o: nat)
    requires PaymentsOk(orders, intents, payments) && CapturedFor(payments, o)
    ensures PaymentByOrder(payments, o).Some?
    ensures var p := PaymentByOrder(payments, o).value; payments[p].status == Captured && PaidBy(payments, o, payments[p].intent)
  {
  }

  lemma PickedValue(tickets: seq<Ticket>, ids: set<nat>, o: nat, items: seq<Item>)
    requires forall k | k in ids :: k < |tickets| && tickets[k].order == o
    ensures 0 <= PickValue(tickets, ids, items) <= MintedValue(tickets, o, items)
  {
    forall k: nat | k < |tickets|
      ensures 0 <= PickPrice(ids, items)(k, tickets[k]) <= MintedPrice(o, items)(k, tickets[k])
    {
      assert PriceOf(items, tickets[k].tier) >= 0;
    }
    TotalNonNegative(PickPrice(ids, items), tickets);
    TotalMonotone(PickPrice(ids, items), tickets, MintedPrice(o, items), tickets);
  }

  /** Whatever is refunded for a price was paid for: the draft knows the captured intent. */
  lemma DraftRefundOk(db: Db, intents: seq<Intent>, event: nat, o: nat, ids: set<nat>, key: Option<string>)
    requires PaymentsOk(db.orders, intents, db.payments) && PaidOrdersOk(db.orders, db.payments)
    requires MintedOk(db.tiers, db.orders, db.tickets) && RefundAccepted(db, event, o, ids, key)
    ensures RefundDraftOk(db.orders, db.tickets, db.payments, DraftRefund(db, event, o, ids, key).value)
  {
    var items := db.orders[o].items;
    PickedValue(db.tickets, ids, o, items);
    assert MintedFits(db.tiers, db.tickets, o, db.orders[o]);
    if PickValue(db.tickets, ids, items) > 0 {
      UniquePayment(db.orders, intents, db.payments, o);
    }
  }

  lemma ReadRefundMoney(w: World, event: nat, o: nat, ids: set<nat>, key: Option<string>)
    requires InventoryOk(w.db) && MoneyOk(w)
    ensures MoneyOk(Next(w, ReadRefund(event, o, ids, key)))
  {
    hide PaymentsOk, IntentsOk, PaidOrdersOk, EventsOk, RefundsOk, AccountsOk, CustodyOk, OwingOk, LegsOk, BooksOk,
         SettledOk, OrderDraftsOk, RefundDraftOk, RefundAccepted, MintedOk;
    if RefundAccepted(w.db, event, o, ids, key) {
      DraftRefundOk(w.db, w.vendor.intents, event, o, ids, key);
    }
  }

  // ---- compensation ----

  /** A delivery owes for an order with no refund at all, so the compensation is accepted. */
  lemma OwingAccepted(w: World, d: nat)
    requires MoneyOk(w) && d < |w.deliveries| && w.deliveries[d].stage.Owing?
    ensures var o := w.deliveries[d].stage.order;
      && CompensationAccepted(w.db, o) && o < |w.db.orders| && IsUnfulfillableStatus(w.db.orders[o].status)
      && SystemCount(w.db.refunds, o) == 0 && OwingCount(w.deliveries, o) == 1
  {
    var o := w.deliveries[d].stage.order;
    TotalCovers(OwingFor(o), w.deliveries, d);
    TotalNonNegative(SystemFor(o), w.db.refunds);
    forall r | 0 <= r < |w.db.refunds| ensures w.db.refunds[r].order != o {
      assert RefundOk(w.db.orders, w.db.payments, w.db.refunds[r]);
      if w.db.refunds[r].order == o {
        TotalCovers(SystemFor(o), w.db.refunds, r);
      }
    }
  }

  lemma CompensatedCustody(orders: seq<Order>, payments: seq<Payment>, refunds: seq<Refund>, deliveries: seq<Delivery>,
                           d: nat, x: Refund)
    requires CustodyOk(orders, payments, refunds, deliveries) && OwingOk(orders, payments, deliveries)
    requires d < |deliveries| && deliveries[d].stage.Owing? && x.order == deliveries[d].stage.order && !x.byUser
    ensures var deliveries2 := deliveries[d := deliveries[d].(stage := Handled)];
      CustodyOk(orders, payments, refunds + [x], deliveries2) && OwingOk(orders, payments, deliveries2)
  {
    var deliveries2 := deliveries[d := deliveries[d].(stage := Handled)];
    forall o: nat
      ensures OwingCount(deliveries2, o) + SystemCount(refunds + [x], o)
           == OwingCount(deliveries, o) + SystemCount(refunds, o)
    {
      TotalUpdate(OwingFor(o), deliveries, d, deliveries2[d]);
      RefundRowTotals(refunds, x, o, {});
    }
  }

  lemma CompensatedAccounts(orders: seq<Order>, tickets: seq<Ticket>, refunds: seq<Refund>, x: Refund)
    requires AccountsOk(orders, tickets, refunds) && x.order < |orders| && !x.byUser && x.status == Pending
    requires !IsPaidStatus(orders[x.order].status) && x.amount == orders[x.order].total
    requires SystemCount(refunds, x.order) == 0
    ensures AccountsOk(orders, tickets, refunds + [x])
  {
  }

  lemma OwingRefund(orders: seq<Order>, payments: seq<Payment>, deliveries: seq<Delivery>, d: nat, x: Refund)
    requires OwingOk(orders, payments, deliveries) && PaidOrdersOk(orders, payments)
    requires d < |deliveries| && deliveries[d].stage.Owing?
    requires var st := deliveries[d].stage;
      st.order < |orders| && IsUnfulfillableStatus(orders[st.order].status)
      && x.order == st.order && x.amount == st.amount && x.status == Pending && !x.byUser
    ensures RefundOk(orders, payments, x) && x.amount == orders[x.order].total > 0
    ensures PaidBy(payments, x.order, deliveries[d].stage.intent)
  {
  }

  lemma CompensateMoney(w: World, d: nat)
    requires MoneyOk(w)
    ensures MoneyOk(CompensateDelivery(w, d))
  {
    hide PaymentsOk, IntentsOk, PaidOrdersOk, EventsOk, RefundsOk, AccountsOk, CustodyOk, OwingOk, LegsOk, BooksOk,
         SettledOk, RefundDraftsOk, OrderDraftsOk, PaidBy, CompensationAccepted;
    if d < |w.deliveries| && w.deliveries[d].stage.Owing? {
      var db, st := w.db, w.deliveries[d].stage;
      var x := Refund(st.order, st.amount, Pending, Some(SYSTEM_COMPENSATION_KEY), false, None);
      OwingAccepted(w, d);
      OwingRefund(db.orders, db.payments, w.deliveries, d, x);
      CompensatedCustody(db.orders, db.payments, db.refunds, w.deliveries, d, x);
      CompensatedAccounts(db.orders, db.tickets, db.refunds, x);
      NewRefundMoney(db.orders, db.payments, db.refunds, x, w.legs, w.vendor.intents, w.vendor.refs);
      NewLeg(db.payments, db.refunds + [x], w.legs, Leg(|db.refunds|, st.intent, st.amount));
    }
  }

  // ---- retry and the refund call's outcome ----

  /** A failed refund's order has a captured payment: the one a retry is sent to. */
  lemma FailedRefundPaid(w: World, r: nat)
    requires MoneyOk(w) && r < |w.db.refunds| && w.db.refunds[r].status != Settled
    ensures w.db.refunds[r].amount > 0
    ensures var found := PaymentByOrder(w.db.payments, w.db.refunds[r].order);
      found.Some? && PaidBy(w.db.payments, w.db.refunds[r].order, w.db.payments[found.value].intent)
  {
  }

  lemma RetryMoney(w: World, r: nat)
    requires MoneyOk(w)
    ensures MoneyOk(Retry(w, r))
  {
    hide MoneyOk, PaidBy;
    if r < |w.db.refunds| && w.db.refunds[r].status == Failed {
      FailedRefundPaid(w, r);
      var p := PaymentByOrder(w.db.payments, w.db.refunds[r].order).value;
      var x := w.db.refunds[r].(status := Pending);
      UnsettledMoney(w, r, x);
      NewLegMoney(w.(db := w.db.(refunds := w.db.refunds[r := x])), Leg(r, w.db.payments[p].intent, x.amount));
    }
  }

  lemma LegFailsMoney(w: World, l: nat)
    requires MoneyOk(w)
    ensures MoneyOk(Next(w, LegFails(l)))
  {
    hide MoneyOk;
    if l < |w.legs| {
      var r := w.legs[l].refund;
      if r < |w.db.refunds| && w.db.refunds[r].status == Pending {
        UnsettledMoney(w, r, w.db.refunds[r].(status := Failed));
      }
    }
  }

  lemma LegAnsweredMoney(w: World, l: nat)
    requires MoneyOk(w)
    ensures MoneyOk(Next(w, LegAnswered(l)))
  {
    hide MoneyOk;
    if l < |w.legs| && w.legs[l].refund in w.vendor.refs {
      var r := w.legs[l].refund;
      if r < |w.db.refunds| {
        UnsettledMoney(w, r, w.db.refunds[r].(providerRefund := Some(w.vendor.refs[r])));
      }
    }
  }

  // ---- the door ----

  lemma CheckInMoney(w: World, event: nat, k: nat)
    requires MoneyOk(w)
    ensures MoneyOk(w.(db := CheckIn(w.db, event, k)))
  {
    hide PaymentsOk, IntentsOk, PaidOrdersOk, EventsOk, RefundsOk, AccountsOk, CustodyOk, OwingOk, LegsOk, BooksOk,
         SettledOk, RefundDraftsOk, OrderDraftsOk;
    var after := CheckIn(w.db, event, k);
    if after != w.db {
      VoidedDrafts(w.db.orders, w.db.tickets, after.tickets, w.db.payments, w.refundDrafts);
      SameLifeAccounts(w.db.orders, w.db.tickets, after.tickets, w.db.refunds);
    }
  }

  lemma SameLifeAccounts(orders: seq<Order>, tickets: seq<Ticket>, tickets2: seq<Ticket>, refunds: seq<Refund>)
    requires AccountsOk(orders, tickets, refunds) && SamePlaces(tickets, tickets2)
    requires forall k | 0 <= k < |tickets| :: tickets2[k].status == Void <==> tickets[k].status == Void
    ensures AccountsOk(orders, tickets2, refunds)
  {
    forall o: nat | o < |orders| ensures AccountOk(tickets2, refunds, o, orders[o]) {
      assert AccountOk(tickets, refunds, o, orders[o]);
      SamePlacesMinted(tickets, tickets2, o, orders[o].items);
      TotalSame(LivePrice(o, orders[o].items), tickets2, LivePrice(o, orders[o].items), tickets);
      TotalSame(LiveFor(o), tickets2, LiveFor(o), tickets);
    }
  }
}
