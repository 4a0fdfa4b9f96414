/** The vendor's side keeps the money invariant: intents open, resolve and pay back, and are recorded. */
module MoneyVendor {
  import opened Tables
  import opened Sums
  import opened Weights
  import opened Transactions
  import opened Protocol
  import opened Money

  // ---- intents ----

  lemma OpenIntentMoney(w: World, o: nat)
    requires MoneyOk(w)
    ensures MoneyOk(Next(w, OpenIntent(o)))
  {
    hide PaidOrdersOk, RefundsOk, AccountsOk, CustodyOk, OwingOk, LegsOk, SettledOk, RefundDraftsOk,
         OrderDraftsOk, PaymentsOk, EventsOk, BooksOk;
    if o < |w.db.orders| && w.db.orders[o].total > 0 {
      var x := Intent(o, w.db.orders[o].total, IntentOpen, 0);
      OpenedBooks(w.db.orders, w.db.payments, w.db.refunds, w.vendor.intents, w.vendor.refs, w.vendor.events, x);
    }
  }

  lemma OpenedBooks(orders: seq<Order>, payments: seq<Payment>, refunds: seq<Refund>, intents: seq<Intent>,
                    refs: map<nat, nat>, events: seq<VendorEvent>, x: Intent)
    requires PaymentsOk(orders, intents, payments) && BooksOk(payments, refunds, intents, refs)
    requires EventsOk(intents, refs, events) && x.refunded == 0
    ensures PaymentsOk(orders, intents + [x], payments) && BooksOk(payments, refunds, intents + [x], refs)
    ensures EventsOk(intents + [x], refs, events)
  {
  }

  lemma ConfirmMoney(w: World, i: nat, ok: bool)
    requires MoneyOk(w)
    ensures MoneyOk(Next(w, Confirm(i, ok)))
  {
    hide PaidOrdersOk, RefundsOk, AccountsOk, CustodyOk, OwingOk, LegsOk, SettledOk, RefundDraftsOk,
         OrderDraftsOk, PaymentsOk, EventsOk, BooksOk, IntentsOk;
    if i < |w.vendor.intents| && w.vendor.intents[i].status == IntentOpen {
      var x := w.vendor.intents[i].(status := if ok then IntentSucceeded else IntentFailed);
      ResolvedBooks(w.db.orders, w.db.payments, w.db.refunds, w.vendor.intents, w.vendor.refs, w.vendor.events, i, x,
                    if ok then SucceededEvent(i) else FailedEvent(i));
    }
  }

  lemma ResolvedBooks(orders: seq<Order>, payments: seq<Payment>, refunds: seq<Refund>, intents: seq<Intent>,
                      refs: map<nat, nat>, events: seq<VendorEvent>, i: nat, x: Intent, e: VendorEvent)
    requires PaymentsOk(orders, intents, payments) && BooksOk(payments, refunds, intents, refs)
    requires EventsOk(intents, refs, events) && IntentsOk(orders, intents)
    requires i < |intents| && intents[i].status == IntentOpen
    requires x.order == intents[i].order && x.amount == intents[i].amount && x.refunded == intents[i].refunded
    requires EventOk(intents[i := x], refs, e)
    ensures PaymentsOk(orders, intents[i := x], payments) && BooksOk(payments, refunds, intents[i := x], refs)
    ensures EventsOk(intents[i := x], refs, events + [e]) && IntentsOk(orders, intents[i := x])
  {
    forall p | 0 <= p < |payments| ensures PaymentOk(orders, intents[i := x], payments[p]) {
      assert PaymentOk(orders, intents, payments[p]);
    }
    forall k | 0 <= k < |events| ensures EventOk(intents[i := x], refs, events[k]) {
      assert EventOk(intents, refs, events[k]);
    }
  }

  // ---- the API records the intent it was given ----

  lemma RecordPaymentMoney(w: World, o: nat, i: nat)
    requires MoneyOk(w)
    ensures MoneyOk(Next(w, RecordPayment(o, i)))
  {
    hide PaidOrdersOk, RefundsOk, AccountsOk, CustodyOk, OwingOk, LegsOk, SettledOk, RefundDraftsOk,
         OrderDraftsOk, PaymentsOk, EventsOk, BooksOk, IntentsOk;
    if o in w.checkouts && o < |w.db.orders| && i < |w.vendor.intents| && w.vendor.intents[i].order == o
       && PaymentByOrder(w.db.payments, o).None? && PaymentByIntent(w.db.payments, i).None? {
      var x := Payment(o, i, w.db.orders[o].total, RequiresAction);
      RecordedFrame(w.db.payments, x);
      RecordedBooks(w.db.orders, w.db.payments, w.db.refunds, w.vendor.intents, w.vendor.refs, x);
      RecordedRows(w, x);
    }
  }

  lemma RecordedFrame(payments: seq<Payment>, x: Payment)
    requires x.status == RequiresAction
    ensures forall o: nat :: CapturedFor(payments + [x], o) <==> CapturedFor(payments, o)
    ensures forall o: nat, i: nat :: PaidBy(payments, o, i) ==> PaidBy(payments + [x], o, i)
    ensures forall i: nat :: OnRecord(payments + [x], i) <==> OnRecord(payments, i) || i == x.intent
  {
    var payments2 := payments + [x];
    assert payments2[|payments|] == x;
    forall o: nat ensures CapturedFor(payments2, o) <==> CapturedFor(payments, o) {
      if CapturedFor(payments, o) {
        var q :| 0 <= q < |payments| && payments[q].order == o && payments[q].status == Captured;
        assert payments2[q] == payments[q];
      }
    }
    forall o: nat, i: nat | PaidBy(payments, o, i) ensures PaidBy(payments2, o, i) {
      var q :| 0 <= q < |payments| && payments[q].order == o && payments[q].intent == i && payments[q].status == Captured;
      assert payments2[q] == payments[q];
    }
    forall i: nat ensures OnRecord(payments2, i) <==> OnRecord(payments, i) || i == x.intent {
      if OnRecord(payments, i) {
        var q :| 0 <= q < |payments| && payments[q].intent == i;
        assert payments2[q] == payments[q];
      }
    }
  }

  /** The recorded intent enters the books at zero: nothing can have been refunded for its order. */
  lemma RecordedBooks(orders: seq<Order>, payments: seq<Payment>, refunds: seq<Refund>, intents: seq<Intent>,
                      refs: map<nat, nat>, x: Payment)
    requires PaymentsOk(orders, intents, payments) && PaidOrdersOk(orders, payments) && IntentsOk(orders, intents)
    requires BooksOk(payments, refunds, intents, refs)
    requires x.status == RequiresAction && x.intent < |intents| && intents[x.intent].order == x.order
    requires x.order < |orders| && x.amount == orders[x.order].total
    requires forall p | 0 <= p < |payments| :: payments[p].order != x.order && payments[p].intent != x.intent
    ensures PaymentsOk(orders, intents, payments + [x]) && PaidOrdersOk(orders, payments + [x])
    ensures BooksOk(payments + [x], refunds, intents, refs)
  {
    RecordedFrame(payments, x);
    forall p | 0 <= p < |payments + [x]| ensures PaymentOk(orders, intents, (payments + [x])[p]) {
      if p < |payments| {
        assert PaymentOk(orders, intents, payments[p]);
      }
    }
    TotalZero(SentFor(x.order, refs.Keys), refunds);
  }

  lemma RecordedRows(w: World, x: Payment)
    requires RefundsOk(w.db.orders, w.db.payments, w.db.refunds) && LegsOk(w.db.payments, w.db.refunds, w.legs)
    requires RefundDraftsOk(w.db.orders, w.db.tickets, w.db.payments, w.refundDrafts)
    requires OwingOk(w.db.orders, w.db.payments, w.deliveries)
    requires CustodyOk(w.db.orders, w.db.payments, w.db.refunds, w.deliveries)
    requires x.status == RequiresAction
    ensures var payments2 := w.db.payments + [x];
      && RefundsOk(w.db.orders, payments2, w.db.refunds) && LegsOk(payments2, w.db.refunds, w.legs)
      && RefundDraftsOk(w.db.orders, w.db.tickets, payments2, w.refundDrafts)
      && OwingOk(w.db.orders, payments2, w.deliveries)
      && CustodyOk(w.db.orders, payments2, w.db.refunds, w.deliveries)
  {
    var payments2 := w.db.payments + [x];
    RecordedFrame(w.db.payments, x);
    forall r | 0 <= r < |w.db.refunds| ensures RefundOk(w.db.orders, payments2, w.db.refunds[r]) {
      assert RefundOk(w.db.orders, w.db.payments, w.db.refunds[r]);
    }
    forall l | 0 <= l < |w.legs| ensures LegOk(payments2, w.db.refunds, w.legs[l]) {
      assert LegOk(w.db.payments, w.db.refunds, w.legs[l]);
    }
    forall n | 0 <= n < |w.refundDrafts|
      ensures RefundDraftOk(w.db.orders, w.db.tickets, payments2, w.refundDrafts[n])
    {
      assert RefundDraftOk(w.db.orders, w.db.tickets, w.db.payments, w.refundDrafts[n]);
    }
  }

  // ---- the refund call reaches the vendor ----

  lemma LiveValueNonNegative(tickets: seq<Ticket>, o: nat, items: seq<Item>)
    ensures LiveValue(tickets, o, items) >= 0
  {
    forall k: nat | k < |tickets| ensures LivePrice(o, items)(k, tickets[k]) >= 0 {
      assert PriceOf(items, tickets[k].tier) >= 0;
    }
    TotalNonNegative(LivePrice(o, items), tickets);
  }

  lemma AtMostOneSystem(orders: seq<Order>, payments: seq<Payment>, refunds: seq<Refund>, deliveries: seq<Delivery>, o: nat)
    requires CustodyOk(orders, payments, refunds, deliveries) && o < |orders|
    ensures SystemCount(refunds, o) == 0 || SystemCount(refunds, o) == 1
  {
    TotalNonNegative(OwingFor(o), deliveries);
    TotalNonNegative(SystemFor(o), refunds);
  }

  lemma AccountOf(w: World, o: nat)
    requires MoneyOk(w) && o < |w.db.orders|
    ensures AccountOk(w.db.tickets, w.db.refunds, o, w.db.orders[o])
    ensures !IsPaidStatus(w.db.orders[o].status) ==> w.db.orders[o].total > 0
    ensures CustodyOk(w.db.orders, w.db.payments, w.db.refunds, w.deliveries)
  {
  }

  /** What every refund owed to an order adds up to stays within what the order cost. */
  lemma RefundsWithinTotal(w: World, o: nat)
    requires MoneyOk(w) && o < |w.db.orders|
    requires IsPaidStatus(w.db.orders[o].status) ==> MintedValue(w.db.tickets, o, w.db.orders[o].items) <= w.db.orders[o].total
    ensures RefundTotal(w.db.refunds, o) <= w.db.orders[o].total
  {
    AccountOf(w, o);
    hide MoneyOk, CustodyOk;
    LiveValueNonNegative(w.db.tickets, o, w.db.orders[o].items);
    AtMostOneSystem(w.db.orders, w.db.payments, w.db.refunds, w.deliveries, o);
  }

  /** Sent refunds plus one not yet sent are still within all refunds. */
  lemma SentPlusOne(refunds: seq<Refund>, o: nat, sent: set<nat>, r: nat)
    requires r < |refunds| && r !in sent && refunds[r].order == o
    requires forall k: nat | k < |refunds| :: refunds[k].amount >= 0
    ensures SentTotal(refunds, o, sent + {r}) == SentTotal(refunds, o, sent) + refunds[r].amount
    ensures SentTotal(refunds, o, sent + {r}) <= RefundTotal(refunds, o)
  {
    SentAdds(refunds, o, sent, r);
    TotalMonotone(SentFor(o, sent + {r}), refunds, RefundFor(o), refunds);
  }

  lemma {:induction false} SentAdds(refunds: seq<Refund>, o: nat, sent: set<nat>, r: nat)
    requires r < |refunds| && r !in sent
    ensures SentTotal(refunds, o, sent + {r})
         == SentTotal(refunds, o, sent) + (if refunds[r].order == o then refunds[r].amount else 0)
  {
    var m := |refunds| - 1;
    if r == m {
      TotalSame(SentFor(o, sent + {r}), refunds[..m], SentFor(o, sent), refunds[..m]);
    } else {
      SentAdds(refunds[..m], o, sent, r);
    }
  }

  /** No call the API makes is refused: the vendor accepts it or has already honoured it. */
  lemma LegNeverRefused(w: World, l: nat)
    requires MoneyOk(w) && l < |w.legs|
    requires forall o: nat | o < |w.db.orders| && IsPaidStatus(w.db.orders[o].status) ::
      MintedValue(w.db.tickets, o, w.db.orders[o].items) <= w.db.orders[o].total
    ensures var reply := VendorReply(w.vendor, w.legs[l].intent, Some(w.legs[l].refund), w.legs[l].amount);
      reply.Accepted? || reply.Duplicate?
  {
    var leg := w.legs[l];
    var o := w.db.refunds[leg.refund].order;
    assert LegOk(w.db.payments, w.db.refunds, leg);
    var p :| 0 <= p < |w.db.payments| && w.db.payments[p].order == o && w.db.payments[p].intent == leg.intent
             && w.db.payments[p].status == Captured;
    assert PaymentOk(w.db.orders, w.vendor.intents, w.db.payments[p]);
    assert OnRecord(w.db.payments, leg.intent);
    if leg.refund !in w.vendor.refs {
      assert forall r | 0 <= r < |w.db.refunds| :: RefundOk(w.db.orders, w.db.payments, w.db.refunds[r]);
      RefundsWithinTotal(w, o);
      SentPlusOne(w.db.refunds, o, w.vendor.refs.Keys, leg.refund);
    }
  }

  lemma ArrivedBooks(orders: seq<Order>, payments: seq<Payment>, refunds: seq<Refund>, intents: seq<Intent>,
                     refs: map<nat, nat>, leg: Leg, id: nat)
    requires PaymentsOk(orders, intents, payments) && BooksOk(payments, refunds, intents, refs)
    requires LegOk(payments, refunds, leg) && leg.intent < |intents| && leg.refund !in refs
    ensures var intents2 := intents[leg.intent := intents[leg.intent].(refunded := intents[leg.intent].refunded + leg.amount)];
      BooksOk(payments, refunds, intents2, refs[leg.refund := id])
  {
    var r, o := leg.refund, refunds[leg.refund].order;
    var intents2 := intents[leg.intent := intents[leg.intent].(refunded := intents[leg.intent].refunded + leg.amount)];
    var refs2 := refs[r := id];
    var p :| 0 <= p < |payments| && payments[p].order == o && payments[p].intent == leg.intent && payments[p].status == Captured;
    assert CapturedFor(payments, o) && OnRecord(payments, leg.intent);
    assert PaymentOk(orders, intents, payments[p]);
    assert refs2.Keys == refs.Keys + {r};
    forall i: nat | i < |intents2|
      ensures intents2[i].refunded
           == if OnRecord(payments, i) then SentTotal(refunds, intents2[i].order, refs2.Keys) else 0
    {
      SentAdds(refunds, intents[i].order, refs.Keys, r);
      if i != leg.intent && OnRecord(payments, i) {
        var q :| 0 <= q < |payments| && payments[q].intent == i;
        assert PaymentOk(orders, intents, payments[q]);
        assert payments[q].order != payments[p].order;
      }
    }
  }

  lemma ArrivedRows(orders: seq<Order>, payments: seq<Payment>, refunds: seq<Refund>, intents: seq<Intent>,
                    refs: map<nat, nat>, events: seq<VendorEvent>, i: nat, amount: int, r: nat, id: nat)
    requires PaymentsOk(orders, intents, payments) && IntentsOk(orders, intents) && EventsOk(intents, refs, events)
    requires SettledOk(refunds, refs) && i < |intents|
    ensures var intents2 := intents[i := intents[i].(refunded := intents[i].refunded + amount)];
      && PaymentsOk(orders, intents2, payments) && IntentsOk(orders, intents2)
      && EventsOk(intents2, refs[r := id], events + [RefundedEvent(i, Some(r), id, amount)])
      && SettledOk(refunds, refs[r := id])
  {
  }

  lemma LegArrivesMoney(w: World, l: nat)
    requires MoneyOk(w)
    ensures MoneyOk(Next(w, LegArrives(l)))
  {
    hide PaidOrdersOk, RefundsOk, AccountsOk, CustodyOk, OwingOk, SettledOk, RefundDraftsOk,
         OrderDraftsOk, PaymentsOk, EventsOk, BooksOk, IntentsOk;
    if l < |w.legs| {
      var leg := w.legs[l];
      assert LegOk(w.db.payments, w.db.refunds, leg);
      hide LegsOk, LegOk;
      if VendorReply(w.vendor, leg.intent, Some(leg.refund), leg.amount).Accepted? {
        ArrivedBooks(w.db.orders, w.db.payments, w.db.refunds, w.vendor.intents, w.vendor.refs, leg, w.vendor.minted);
        ArrivedRows(w.db.orders, w.db.payments, w.db.refunds, w.vendor.intents, w.vendor.refs, w.vendor.events,
                    leg.intent, leg.amount, leg.refund, w.vendor.minted);
      }
    }
  }

  // ---- webhooks arrive and are marked ----

  lemma ReceivedMoney(w: World, e: nat)
    requires MoneyOk(w)
    ensures MoneyOk(Next(w, Deliver(e)))
  {
    hide PaymentsOk, IntentsOk, PaidOrdersOk, EventsOk, RefundsOk, AccountsOk, CustodyOk, OwingOk, LegsOk, BooksOk,
         SettledOk, RefundDraftsOk, OrderDraftsOk;
    JoinedDelivery(w.db.orders, w.db.payments, w.db.refunds, w.deliveries, Delivery(e, Received));
  }

  lemma JoinedDelivery(orders: seq<Order>, payments: seq<Payment>, refunds: seq<Refund>, deliveries: seq<Delivery>, x: Delivery)
    requires CustodyOk(orders, payments, refunds, deliveries) && OwingOk(orders, payments, deliveries) && !x.stage.Owing?
    ensures CustodyOk(orders, payments, refunds, deliveries + [x]) && OwingOk(orders, payments, deliveries + [x])
  {
  }
}
