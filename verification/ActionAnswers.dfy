/** How the steps of the state machine are wired to the transactions: who acts, on what, and what is left in flight. */
module ActionAnswers {
  import opened Tables
  import opened Transactions
  import opened Protocol
  import opened Frames
  import opened MoneyAnswers
  import opened OrderAnswers

  // ---- checkout ----

  /** A request carries its draft from its reads into its commit; a priced order's checkout is then open until it
      returns or aborts. */
  lemma CheckoutOpens(w: World, r: OrderRequest, n: nat, o: nat)
    ensures Next(w, ReadOrder(r)) == match DraftOrder(w.db, r) case Some(d) => w.(orderDrafts := w.orderDrafts + [d]) case None => w
    ensures n < |w.orderDrafts| ==>
      var d := w.orderDrafts[n];
      Next(w, DoCommitOrder(n)) == w.(db := CommitOrder(w.db, d),
        checkouts := if Buys(w.db, d) && d.total > 0 then w.checkouts + {|w.db.orders|} else w.checkouts)
    ensures n >= |w.orderDrafts| ==> Next(w, DoCommitOrder(n)) == w
    ensures Next(w, ReturnCheckout(o)) == w.(checkouts := w.checkouts - {o})
    ensures Next(w, AbortCheckout(o))
         == if o in w.checkouts then w.(db := Release(w.db, o, Canceled), checkouts := w.checkouts - {o}) else w
  {
    StepFamily(w, ReadOrder(r));
    StepFamily(w, DoCommitOrder(n));
    StepFamily(w, ReturnCheckout(o));
    StepFamily(w, AbortCheckout(o));
    hide Next, DraftOrder, CommitOrder, Release, Buys;
    if n < |w.orderDrafts| {
      CommitRefused(w.db, w.orderDrafts[n]);
    }
    hide CommitOutcomeOf;
  }

  /** The vendor is asked for the order's total, and its answer is recorded, once, for an intent that is the order's
      own while its checkout is open. */
  lemma PaymentAsked(w: World, o: nat, i: nat)
    ensures Next(w, OpenIntent(o)) ==
      if o < |w.db.orders| && w.db.orders[o].total > 0
      then w.(vendor := w.vendor.(intents := w.vendor.intents + [Intent(o, w.db.orders[o].total, IntentOpen, 0)])) else w
    ensures Next(w, RecordPayment(o, i)) ==
      if && o in w.checkouts && o < |w.db.orders| && i < |w.vendor.intents| && w.vendor.intents[i].order == o
         && (forall p | 0 <= p < |w.db.payments| :: w.db.payments[p].order != o && w.db.payments[p].intent != i)
      then w.(db := w.db.(payments := w.db.payments + [Payment(o, i, w.db.orders[o].total, RequiresAction)])) else w
  {
    StepFamily(w, OpenIntent(o));
    StepFamily(w, RecordPayment(o, i));
    hide Next;
    if o < |w.db.orders| {
      PaymentRecorded(w.db, o, i, w.db.orders[o].total);
    }
    hide AddPayment;
  }

  // ---- webhooks ----

  /** An event can be delivered at any time until it is marked; each delivery starts unhandled. */
  lemma EventDelivered(w: World, e: nat)
    ensures Next(w, Deliver(e)) ==
      if e < |w.vendor.events| && !(e in w.db.webhooks && w.db.webhooks[e])
      then w.(db := w.db.(webhooks := w.db.webhooks[e := false]), deliveries := w.deliveries + [Delivery(e, Received)]) else w
  {
    StepFamily(w, Deliver(e));
    hide Next;
    if e in w.db.webhooks && !w.db.webhooks[e] {
      assert w.db.webhooks[e := false] == w.db.webhooks;
    }
  }

  /** A handler runs its event's transaction once and is done, unless it captured money for an order that cannot be
      honoured: then it still owes that order its compensation, which opens the refund and sends its call. */
  lemma DeliveryHandled(w: World, d: nat)
    requires d < |w.deliveries| && w.deliveries[d].event < |w.vendor.events|
    ensures var e, w2 := w.vendor.events[w.deliveries[d].event], Next(w, Handle(d));
      && (w.deliveries[d].stage != Received ==> w2 == w)
      && (w.deliveries[d].stage == Received ==>
            && w2 == w.(db := w2.db, deliveries := w.deliveries[d := w2.deliveries[d]]) && w2.deliveries[d].event == w.deliveries[d].event
            && (e.SucceededEvent? ==> w2.db == HandleSucceeded(w.db, e.intent))
            && (e.FailedEvent? ==> w2.db == HandleFailed(w.db, e.intent))
            && (e.RefundedEvent? ==> w2.db == HandleRefunded(w.db, e.reference, e.refundId))
            && (e.UnknownEvent? ==> w2.db == w.db)
            && w2.deliveries[d].stage == (if e.SucceededEvent? && SucceededOutcomeOf(w.db, e.intent).Unfulfillable?
                                          then Owing(SucceededOutcomeOf(w.db, e.intent).order, SucceededOutcomeOf(w.db, e.intent).amount, e.intent)
                                          else Handled))
    ensures var w2 := Next(w, DoCompensate(d));
      if !w.deliveries[d].stage.Owing? then w2 == w
      else
        var st := w.deliveries[d].stage;
        && RowsCompensated(w.db, w2.db, st.order, st.amount)
        && w2 == w.(db := w2.db, deliveries := w.deliveries[d := w.deliveries[d].(stage := Handled)],
                    legs := if w2.db == w.db then w.legs else w.legs + [Leg(|w.db.refunds|, st.intent, st.amount)])
    ensures Next(w, MarkProcessed(d)) ==
      if w.deliveries[d].stage == Handled
      then w.(db := w.db.(webhooks := w.db.webhooks[w.deliveries[d].event := true]),
              deliveries := w.deliveries[d := w.deliveries[d].(stage := Acknowledged)]) else w
  {
    StepFamily(w, Handle(d));
    StepFamily(w, DoCompensate(d));
    StepFamily(w, MarkProcessed(d));
    hide Next, HandleSucceeded, HandleFailed, HandleRefunded, SucceededOutcomeOf;
    if w.deliveries[d].stage.Owing? {
      CompensationAnswered(w.db, w.deliveries[d].stage.order, w.deliveries[d].stage.amount);
    }
    hide Compensate, CompensationAccepted, RowsCompensated;
  }

  // ---- refund calls ----

  /** A refund request carries its draft into its commit; only a failed refund is retried. */
  lemma RefundAsked(w: World, event: nat, o: nat, ids: set<nat>, key: Option<string>, r: nat)
    ensures Next(w, ReadRefund(event, o, ids, key)) == match DraftRefund(w.db, event, o, ids, key)
                                                       case Some(d) => w.(refundDrafts := w.refundDrafts + [d])
                                                       case None => w
    ensures !(r < |w.db.refunds| && w.db.refunds[r].status == Failed) ==> Next(w, RetryRefund(r)) == w
  {
    StepFamily(w, ReadRefund(event, o, ids, key));
    StepFamily(w, RetryRefund(r));
    hide Next, DraftRefund;
  }

  /** A refund that costs money leaves its call in flight. A call that arrives asks the vendor, under the refund's own
      reference, for its amount; its answer is the vendor's id; its failure marks the refund failed if it is still
      pending. */
  lemma CallsInFlight(w: World, n: nat, l: nat)
    ensures n < |w.refundDrafts| ==>
      var d, w2 := w.refundDrafts[n], Next(w, DoCommitRefund(n));
      && w2 == w.(db := CommitRefund(w.db, d), legs := w2.legs)
      && w2.legs == (if Refundable(w.db, d) && d.amount != 0 && d.intent.Some?
                     then w.legs + [Leg(|w.db.refunds|, d.intent.value, d.amount)] else w.legs)
    ensures l < |w.legs| ==>
      var leg := w.legs[l];
      && Next(w, LegArrives(l)) == w.(vendor := VendorRefund(w.vendor, leg.intent, Some(leg.refund), leg.amount))
      && Next(w, LegAnswered(l)) == (if leg.refund in w.vendor.refs && leg.refund < |w.db.refunds|
                                     then w.(db := w.db.(refunds := w.db.refunds[leg.refund :=
                                            w.db.refunds[leg.refund].(providerRefund := Some(w.vendor.refs[leg.refund]))])) else w)
      && Next(w, LegFails(l)) == (if leg.refund < |w.db.refunds| && w.db.refunds[leg.refund].status == Pending
                                  then w.(db := w.db.(refunds := w.db.refunds[leg.refund :=
                                         w.db.refunds[leg.refund].(status := Failed)])) else w)
    ensures l >= |w.legs| ==> Next(w, LegArrives(l)) == Next(w, LegAnswered(l)) == Next(w, LegFails(l)) == w
  {
    StepFamily(w, DoCommitRefund(n));
    StepFamily(w, LegArrives(l));
    StepFamily(w, LegAnswered(l));
    StepFamily(w, LegFails(l));
    hide Next, CommitRefund, VendorRefund;
    if n < |w.refundDrafts| {
      RefundMade(w.db, w.refundDrafts[n]);
    }
    if l < |w.legs| {
      var leg := w.legs[l];
      CallEnded(w.db, leg.refund, if leg.refund in w.vendor.refs then w.vendor.refs[leg.refund] else 0);
    }
    hide SetProviderRefund, SetRefundStatus, RefundCommits, Refundable, RowsRefundMade;
  }
}
