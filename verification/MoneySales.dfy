/** Selling keeps the money invariant: order creation, release and settlement. */
module MoneySales {
  import opened Tables
  import opened Sums
  import opened Weights
  import opened Issuing
  import opened Transactions
  import opened Protocol
  import opened Invariants
  import opened InventorySales
  import opened Drafts
  import opened Money

  // ---- a new order row ----

  lemma JoinedMoney(orders: seq<Order>, ord: Order, intents: seq<Intent>, payments: seq<Payment>, refunds: seq<Refund>,
                    deliveries: seq<Delivery>)
    requires PaymentsOk(orders, intents, payments) && IntentsOk(orders, intents) && RefundsOk(orders, payments, refunds)
    requires OwingOk(orders, payments, deliveries)
    ensures PaymentsOk(orders + [ord], intents, payments) && IntentsOk(orders + [ord], intents)
    ensures RefundsOk(orders + [ord], payments, refunds) && OwingOk(orders + [ord], payments, deliveries)
  {
  }

  lemma JoinedPaid(orders: seq<Order>, ord: Order, payments: seq<Payment>)
    requires PaidOrdersOk(orders, payments) && ord.total >= 0
    requires ord.status == if ord.total > 0 then AwaitingPayment else Paid
    ensures PaidOrdersOk(orders + [ord], payments)
  {
  }

  /** Nothing in the books names an order that does not exist yet. */
  lemma NoBooks(orders: seq<Order>, intents: seq<Intent>, payments: seq<Payment>, refunds: seq<Refund>,
                deliveries: seq<Delivery>, o: nat)
    requires PaymentsOk(orders, intents, payments) && RefundsOk(orders, payments, refunds)
    requires OwingOk(orders, payments, deliveries) && o >= |orders|
    ensures !CapturedFor(payments, o) && RefundTotal(refunds, o) == 0 && SettledTotal(refunds, o) == 0
    ensures SystemCount(refunds, o) == 0 && OwingCount(deliveries, o) == 0
  {
    assert forall p | 0 <= p < |payments| :: PaymentOk(orders, intents, payments[p]);
    assert forall r | 0 <= r < |refunds| :: RefundOk(orders, payments, refunds[r]);
    TotalZero(RefundFor(o), refunds);
    TotalZero(SettledFor(o), refunds);
    TotalZero(SystemFor(o), refunds);
    TotalZero(OwingFor(o), deliveries);
  }

  lemma JoinedCustody(orders: seq<Order>, ord: Order, intents: seq<Intent>, payments: seq<Payment>, refunds: seq<Refund>,
                      deliveries: seq<Delivery>)
    requires PaymentsOk(orders, intents, payments) && RefundsOk(orders, payments, refunds)
    requires OwingOk(orders, payments, deliveries) && CustodyOk(orders, payments, refunds, deliveries)
    ensures CustodyOk(orders + [ord], payments, refunds, deliveries)
  {
    NoBooks(orders, intents, payments, refunds, deliveries, |orders|);
  }

  lemma JoinedDrafts(orders: seq<Order>, ord: Order, tickets: seq<Ticket>, batch: seq<Ticket>, payments: seq<Payment>,
                     drafts: seq<RefundDraft>)
    requires RefundDraftsOk(orders, tickets, payments, drafts)
    ensures RefundDraftsOk(orders + [ord], tickets + batch, payments, drafts)
  {
    forall n | 0 <= n < |drafts| ensures RefundDraftOk(orders + [ord], tickets + batch, payments, drafts[n]) {
      var d := drafts[n];
      assert RefundDraftOk(orders, tickets, payments, d);
      TotalExtend(PickPrice(d.ids, orders[d.order].items), tickets, batch);
    }
  }

  lemma ReservedAccounts(orders: seq<Order>, ord: Order, tickets: seq<Ticket>, refunds: seq<Refund>)
    requires AccountsOk(orders, tickets, refunds) && ord.status == AwaitingPayment && ord.refunded == 0
    requires RefundTotal(refunds, |orders|) == 0 && SettledTotal(refunds, |orders|) == 0
    requires SystemCount(refunds, |orders|) == 0
    ensures AccountsOk(orders + [ord], tickets, refunds)
  {
  }

  /** Issuing a whole batch to one order leaves the other accounts as they were. */
  lemma MintedAccount(tickets: seq<Ticket>, refunds: seq<Refund>, o: nat, tiers: seq<Tier>, items: seq<Item>,
                      seats: seq<Seat>, p: set<nat>, r: nat, ord: Order)
    requires r != o && AccountOk(tickets, refunds, r, ord)
    ensures AccountOk(tickets + Minted(o, tiers, items, seats, p), refunds, r, ord)
  {
    MintedElsewhere(tickets, o, tiers, items, seats, p, r, ord.items);
  }

  lemma GrantedAccounts(db: Db, d: OrderDraft)
    requires TicketsOk(db.tiers, db.seats, db.orders, db.tickets) && DraftOk(db.tiers, db.seats, d) && d.total <= 0
    requires AccountsOk(db.orders, db.tickets, db.refunds)
    requires RefundTotal(db.refunds, |db.orders|) == 0 && SettledTotal(db.refunds, |db.orders|) == 0
    ensures AccountsOk(db.orders + [DraftRow(d)],
                       db.tickets + Minted(|db.orders|, db.tiers, d.ga, db.seats, d.seats), db.refunds)
  {
    var o, orders2, items := |db.orders|, db.orders + [DraftRow(d)], DraftItems(d);
    var tickets2 := db.tickets + Minted(o, db.tiers, d.ga, db.seats, d.seats);
    NoTickets(db.tiers, db.seats, db.orders, db.tickets, o, items);
    SeatedIssueNothing(o, db.tiers, d.ga, d.groups);
    MintedWorth(db.tickets, o, db.tiers, items, db.seats, d.seats);
    forall r: nat | r < |orders2| ensures AccountOk(tickets2, db.refunds, r, orders2[r]) {
      if r < o {
        assert AccountOk(db.tickets, db.refunds, r, db.orders[r]);
        MintedAccount(db.tickets, db.refunds, o, db.tiers, d.ga, db.seats, d.seats, r, orders2[r]);
      }
    }
  }

  lemma CommitDraftMoney(w: World, n: nat)
    requires InventoryOk(w.db) && MoneyOk(w)
    ensures MoneyOk(CommitDraft(w, n))
  {
    hide CatalogOk, CapacityOk, OrdersOk, HoldsOk, SeatsExclusive, Ledger, BoundOk, MintedOk, FeedOk;
    hide PaymentsOk, IntentsOk, PaidOrdersOk, EventsOk, RefundsOk, AccountsOk, CustodyOk, OwingOk, LegsOk, BooksOk,
         SettledOk, RefundDraftsOk, TicketsOk;
    if n < |w.orderDrafts| {
      var db, d := w.db, w.orderDrafts[n];
      assert DraftOk(db.tiers, db.seats, d);
      hide DraftOk;
      var ord := DraftRow(d);
      if CommitOutcomeOf(db, d).Reserved? || CommitOutcomeOf(db, d).Granted? {
        assert ord.total >= 0 by { DraftTotal(db.tiers, db.seats, d); }
        JoinedMoney(db.orders, ord, w.vendor.intents, db.payments, db.refunds, w.deliveries);
        JoinedPaid(db.orders, ord, db.payments);
        NoBooks(db.orders, w.vendor.intents, db.payments, db.refunds, w.deliveries, |db.orders|);
        JoinedCustody(db.orders, ord, w.vendor.intents, db.payments, db.refunds, w.deliveries);
        if d.total > 0 {
          ReservedAccounts(db.orders, ord, db.tickets, db.refunds);
          JoinedDrafts(db.orders, ord, db.tickets, [], db.payments, w.refundDrafts);
          assert db.tickets + [] == db.tickets;
        } else {
          GrantedAccounts(db, d);
          JoinedDrafts(db.orders, ord, db.tickets, Minted(|db.orders|, db.tiers, d.ga, db.seats, d.seats),
                       db.payments, w.refundDrafts);
        }
      }
    }
  }

  lemma DraftTotal(tiers: seq<Tier>, seats: seq<Seat>, d: OrderDraft)
    requires DraftOk(tiers, seats, d)
    ensures d.total >= 0
  {
  }
}
