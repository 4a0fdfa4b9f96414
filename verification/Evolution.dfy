/** How rows may change from one world to a later one: the state machines of orders, tickets,
    payments and refunds, over single steps and over whole schedules. */
module Evolution {
  import opened Tables
  import opened Sums
  import opened Weights
  import opened Transactions
  import opened Protocol
  import opened Frames
  import opened Money
  import opened Steps

  /** One step of an order's lifecycle: awaiting_payment to paid, expired or canceled; paid to
      partially_refunded or refunded; partially_refunded to refunded. */
  predicate OrderEdge(a: OrderStatus, b: OrderStatus) {
    a == b || match a
              case AwaitingPayment => b in {Paid, Expired, Canceled}
              case Paid => b in {PartiallyRefunded, Refunded}
              case PartiallyRefunded => b == Refunded
              case _ => false
  }

  /** Any number of steps. */
  predicate OrderPath(a: OrderStatus, b: OrderStatus) {
    a == b || a == AwaitingPayment || (a == Paid && b in {PartiallyRefunded, Refunded})
    || (a == PartiallyRefunded && b == Refunded)
  }

  predicate TicketEdge(a: TicketStatus, b: TicketStatus) {
    a == b || a == Issued
  }

  predicate PaymentEdge(a: PaymentStatus, b: PaymentStatus) {
    a == b || a == RequiresAction
  }

  predicate RefundEdge(a: RefundStatus, b: RefundStatus) {
    a == b || a != Settled
  }

  ghost predicate OrdersEvolve(a: seq<Order>, b: seq<Order>) {
    && |a| <= |b|
    && forall o | 0 <= o < |a| ::
         && b[o].event == a[o].event && b[o].items == a[o].items && b[o].total == a[o].total && b[o].key == a[o].key
         && a[o].refunded <= b[o].refunded && OrderPath(a[o].status, b[o].status)
  }

  ghost predicate TicketsEvolve(a: seq<Ticket>, b: seq<Ticket>) {
    && |a| <= |b|
    && forall k | 0 <= k < |a| ::
         && b[k].order == a[k].order && b[k].tier == a[k].tier && b[k].seat == a[k].seat
         && TicketEdge(a[k].status, b[k].status)
  }

  ghost predicate PaymentsEvolve(a: seq<Payment>, b: seq<Payment>) {
    && |a| <= |b|
    && forall p | 0 <= p < |a| ::
         && b[p].order == a[p].order && b[p].intent == a[p].intent && b[p].amount == a[p].amount
         && PaymentEdge(a[p].status, b[p].status)
  }

  ghost predicate RefundsEvolve(a: seq<Refund>, b: seq<Refund>) {
    && |a| <= |b|
    && forall r | 0 <= r < |a| ::
         && b[r].order == a[r].order && b[r].amount == a[r].amount && b[r].byUser == a[r].byUser
         && RefundEdge(a[r].status, b[r].status)
  }

  ghost predicate DbEvolves(a: Db, b: Db) {
    && OrdersEvolve(a.orders, b.orders) && TicketsEvolve(a.tickets, b.tickets)
    && PaymentsEvolve(a.payments, b.payments) && RefundsEvolve(a.refunds, b.refunds)
    && a.tiers <= b.tiers && a.seats <= b.seats
    && (forall e | e in a.webhooks :: e in b.webhooks && (a.webhooks[e] ==> b.webhooks[e]))
  }

  /** The vendor forgets no reference and emits nothing it does not keep. */
  ghost predicate VendorEvolves(a: Vendor, b: Vendor) {
    && a.events <= b.events && |a.intents| <= |b.intents|
    && (forall r | r in a.refs :: r in b.refs && b.refs[r] == a.refs[r])
    && (forall i | 0 <= i < |a.intents| ::
          && b.intents[i].order == a.intents[i].order && b.intents[i].amount == a.intents[i].amount
          && a.intents[i].refunded <= b.intents[i].refunded
          && (a.intents[i].status != IntentOpen ==> b.intents[i].status == a.intents[i].status))
  }

  ghost predicate Evolves(a: World, b: World) {
    DbEvolves(a.db, b.db) && VendorEvolves(a.vendor, b.vendor)
  }

  lemma DbEvolvesTransitive(a: Db, b: Db, c: Db)
    requires DbEvolves(a, b) && DbEvolves(b, c)
    ensures DbEvolves(a, c)
  {
  }

  lemma EvolvesTransitive(a: World, b: World, c: World)
    requires Evolves(a, b) && Evolves(b, c)
    ensures Evolves(a, c)
  {
    DbEvolvesTransitive(a.db, b.db, c.db);
  }

  // ---- the transactions that change rows ----

  lemma CommitOrderEvolves(db: Db, d: OrderDraft)
    ensures DbEvolves(db, CommitOrder(db, d))
  {
  }

  lemma ReleaseEvolves(db: Db, o: nat, final: OrderStatus)
    ensures DbEvolves(db, Release(db, o, final))
  {
  }

  lemma SettleEvolves(db: Db, o: nat, amount: int)
    requires amount >= 0
    ensures DbEvolves(db, Settle(db, o, amount))
  {
  }

  lemma CommitRefundEvolves(db: Db, d: RefundDraft)
    ensures DbEvolves(db, CommitRefund(db, d))
  {
    if RefundCommits(db, d) {
      var freed := SeatsOfTickets(db.tickets, d.ids);
      var reclaimed := db.(
        refunds := db.refunds + [RefundRow(d)],
        tickets := VoidTickets(db.tickets, d.ids, |db.refunds|),
        stock := GivePicked(db.stock, db.tickets, d.ids),
        feed := if freed == {} then db.feed else db.feed + [SeatsReleased(freed)]);
      assert DbEvolves(db, reclaimed);
      SettleEvolves(reclaimed, d.order, 0);
      DbEvolvesTransitive(db, reclaimed, Settle(reclaimed, d.order, 0));
    }
  }

  lemma SetPaymentEvolves(db: Db, i: nat, status: PaymentStatus)
    requires PaymentByIntent(db.payments, i).Some?
    requires db.payments[PaymentByIntent(db.payments, i).value].status == RequiresAction
    ensures DbEvolves(db, SetPayment(db, i, status))
  {
  }

  lemma PayOffEvolves(db: Db, o: nat)
    requires o < |db.orders| && db.orders[o].status == AwaitingPayment
    ensures DbEvolves(db, PayOff(db, o))
  {
  }

  lemma HandleSucceededEvolves(db: Db, i: nat)
    ensures DbEvolves(db, HandleSucceeded(db, i))
  {
    hide DbEvolves, PayOff;
    RowsUntouched(db, db);
    var found := PaymentByIntent(db.payments, i);
    if found.Some? && db.payments[found.value].status == RequiresAction {
      var set2 := SetPayment(db, i, Captured);
      SetPaymentEvolves(db, i, Captured);
      if SucceededOutcomeOf(db, i) == PaidOff {
        PayOffEvolves(set2, db.payments[found.value].order);
        DbEvolvesTransitive(db, set2, HandleSucceeded(db, i));
      }
    }
  }

  lemma HandleFailedEvolves(db: Db, i: nat)
    ensures DbEvolves(db, HandleFailed(db, i))
  {
    hide DbEvolves, Release;
    RowsUntouched(db, db);
    var found := PaymentByIntent(db.payments, i);
    if found.Some? && db.payments[found.value].status == RequiresAction {
      var set2 := SetPayment(db, i, Declined);
      SetPaymentEvolves(db, i, Declined);
      ReleaseEvolves(set2, db.payments[found.value].order, Canceled);
      DbEvolvesTransitive(db, set2, HandleFailed(db, i));
    }
  }

  lemma HandleRefundedEvolves(db: Db, reference: Option<nat>, id: nat)
    requires forall r | 0 <= r < |db.refunds| :: db.refunds[r].amount >= 0
    ensures DbEvolves(db, HandleRefunded(db, reference, id))
  {
    if reference.Some? && reference.value < |db.refunds| && db.refunds[reference.value].status == Pending {
      var r := reference.value;
      var set2 := db.(refunds := db.refunds[r := db.refunds[r].(status := Settled, providerRefund := Some(id))]);
      assert DbEvolves(db, set2);
      SettleEvolves(set2, db.refunds[r].order, db.refunds[r].amount);
      DbEvolvesTransitive(db, set2, HandleRefunded(db, reference, id));
    }
  }

  lemma HandleEvolves(w: World, d: nat)
    requires forall r | 0 <= r < |w.db.refunds| :: w.db.refunds[r].amount >= 0
    ensures DbEvolves(w.db, HandleDelivery(w, d).db)
  {
    hide HandleSucceeded, HandleFailed, HandleRefunded, SucceededOutcomeOf;
    if d < |w.deliveries| && w.deliveries[d].stage == Received && w.deliveries[d].event < |w.vendor.events| {
      match w.vendor.events[w.deliveries[d].event] {
        case SucceededEvent(i) => HandleSucceededEvolves(w.db, i);
        case FailedEvent(i) => HandleFailedEvolves(w.db, i);
        case RefundedEvent(_, reference, id, _) => HandleRefundedEvolves(w.db, reference, id);
        case UnknownEvent =>
      }
    }
  }

  /** Tables an action leaves alone evolve trivially. */
  lemma RowsUntouched(db: Db, db2: Db)
    requires db2.orders == db.orders && db2.tickets == db.tickets && db2.payments == db.payments
    requires db2.refunds == db.refunds && db2.webhooks == db.webhooks && db.tiers <= db2.tiers && db.seats <= db2.seats
    ensures DbEvolves(db, db2)
  {
  }

  lemma RefundRowEvolves(db: Db, r: nat, x: Refund)
    requires r < |db.refunds| && db.refunds[r].status != Settled
    requires x.order == db.refunds[r].order && x.amount == db.refunds[r].amount && x.byUser == db.refunds[r].byUser
    ensures DbEvolves(db, db.(refunds := db.refunds[r := x]))
  {
  }

  lemma ProviderEvolves(db: Db, r: nat, id: nat)
    ensures DbEvolves(db, SetProviderRefund(db, r, id))
  {
  }

  lemma NewRowEvolves(db: Db, payments2: seq<Payment>, refunds2: seq<Refund>)
    requires db.payments <= payments2 && db.refunds <= refunds2
    ensures DbEvolves(db, db.(payments := payments2, refunds := refunds2))
  {
  }

  lemma WebhookEvolves(db: Db, e: nat, done: bool)
    requires e in db.webhooks && db.webhooks[e] ==> done
    ensures DbEvolves(db, db.(webhooks := db.webhooks[e := done]))
  {
  }

  lemma CheckInEvolves(db: Db, event: nat, k: nat)
    ensures DbEvolves(db, CheckIn(db, event, k))
  {
  }

  lemma OrdersFamilyEvolves(w: World, a: Action)
    requires OfOrders(a)
    ensures DbEvolves(w.db, NextOrders(w, a).db)
  {
    hide DbEvolves, DraftOrder, CommitOrder, CommitOutcomeOf, Release, VendorCreate;
    RowsUntouched(w.db, w.db);
    if a.DoCommitOrder? {
      if a.draft < |w.orderDrafts| { CommitOrderEvolves(w.db, w.orderDrafts[a.draft]); }
    } else if a.RecordPayment? {
      NewRowEvolves(w.db, NextOrders(w, a).db.payments, w.db.refunds);
    } else if a.AbortCheckout? {
      ReleaseEvolves(w.db, a.order, Canceled);
    } else if a.ExpireOrder? {
      ReleaseEvolves(w.db, a.order, Expired);
    }
  }

  lemma WebhooksFamilyEvolves(w: World, a: Action)
    requires OfWebhooks(a)
    requires forall r | 0 <= r < |w.db.refunds| :: w.db.refunds[r].amount >= 0
    ensures DbEvolves(w.db, NextWebhooks(w, a).db)
  {
    hide DbEvolves, CompensationAccepted, HandleDelivery, VendorResolve;
    RowsUntouched(w.db, w.db);
    if a.Deliver? {
      if a.webhook !in w.db.webhooks { WebhookEvolves(w.db, a.webhook, false); }
    } else if a.Handle? {
      HandleEvolves(w, a.delivery);
    } else if a.MarkProcessed? {
      if a.delivery < |w.deliveries| { WebhookEvolves(w.db, w.deliveries[a.delivery].event, true); }
    } else if a.DoCompensate? {
      NewRowEvolves(w.db, w.db.payments, CompensateDelivery(w, a.delivery).db.refunds);
    }
  }

  lemma RefundsFamilyEvolves(w: World, a: Action)
    requires OfRefunds(a)
    ensures DbEvolves(w.db, NextRefunds(w, a).db)
  {
    hide DbEvolves, SetProviderRefund, DraftRefund, CommitRefund, VendorRefund;
    RowsUntouched(w.db, w.db);
    if a.DoCommitRefund? {
      if a.draft < |w.refundDrafts| { CommitRefundEvolves(w.db, w.refundDrafts[a.draft]); }
    } else if a.RetryRefund? {
      if a.refund < |w.db.refunds| && w.db.refunds[a.refund].status == Failed {
        RefundRowEvolves(w.db, a.refund, w.db.refunds[a.refund].(status := Pending));
      }
    } else if a.LegFails? {
      if a.leg < |w.legs| && w.legs[a.leg].refund < |w.db.refunds| && w.db.refunds[w.legs[a.leg].refund].status == Pending {
        RefundRowEvolves(w.db, w.legs[a.leg].refund, w.db.refunds[w.legs[a.leg].refund].(status := Failed));
      }
    } else if a.LegAnswered? {
      if a.leg < |w.legs| && w.legs[a.leg].refund in w.vendor.refs {
        ProviderEvolves(w.db, w.legs[a.leg].refund, w.vendor.refs[w.legs[a.leg].refund]);
      }
    }
  }

  lemma StepDbEvolves(w: World, a: Action)
    requires forall r | 0 <= r < |w.db.refunds| :: w.db.refunds[r].amount >= 0
    ensures DbEvolves(w.db, Next(w, a).db)
  {
    hide Next, NextOrders, NextWebhooks, NextRefunds, CheckIn, DbEvolves;
    StepFamily(w, a);
    if OfCatalog(a) {
      CatalogFrame(w, a);
      RowsUntouched(w.db, Next(w, a).db);
    } else if OfHolds(a) {
      HoldsFrame(w, a);
      RowsUntouched(w.db, Next(w, a).db);
    } else if OfOrders(a) {
      OrdersFamilyEvolves(w, a);
    } else if OfWebhooks(a) {
      WebhooksFamilyEvolves(w, a);
    } else if OfRefunds(a) {
      RefundsFamilyEvolves(w, a);
    } else {
      CheckInEvolves(w.db, a.event, a.ticket);
    }
  }

  lemma VendorStays(v: Vendor)
    ensures VendorEvolves(v, v)
  {
  }

  lemma VendorServes(v: Vendor)
    ensures forall o, amount :: VendorEvolves(v, VendorCreate(v, o, amount))
    ensures forall i, ok :: VendorEvolves(v, VendorResolve(v, i, ok))
    ensures forall i, reference, amount :: VendorEvolves(v, VendorRefund(v, i, reference, amount))
    ensures VendorEvolves(v, v.(events := v.events + [UnknownEvent]))
  {
  }

  lemma StepVendorEvolves(w: World, a: Action)
    ensures VendorEvolves(w.vendor, Next(w, a).vendor)
  {
    StepFamily(w, a);
    VendorStays(w.vendor);
    VendorServes(w.vendor);
    hide VendorEvolves, Next, NextHolds, CheckIn, CommitOrder, Release, CommitRefund, DraftOrder, DraftRefund, CommitOutcomeOf,
         HandleSucceeded, HandleFailed, HandleRefunded, SucceededOutcomeOf, Compensate, CompensationAccepted, VendorRefund,
         VendorCreate, VendorResolve, AddPayment, RefundCommits;
    if OfCatalog(a) {
      CatalogFrame(w, a);
    } else if OfHolds(a) {
      HoldsFrame(w, a);
    }
  }

  lemma StepEvolves(w: World, a: Action)
    requires WorldOk(w)
    ensures Evolves(w, Next(w, a))
  {
    assert forall r | 0 <= r < |w.db.refunds| :: RefundOk(w.db.orders, w.db.payments, w.db.refunds[r]) by {
      WorldParts(w);
    }
    hide Next, WorldOk;
    StepDbEvolves(w, a);
    StepVendorEvolves(w, a);
  }

  // ---- one step, one edge ----

  lemma SettleEdge(db: Db, o: nat, amount: int, r: nat)
    requires r < |db.orders|
    ensures OrderEdge(db.orders[r].status, Settle(db, o, amount).orders[r].status)
  {
  }

  lemma HandleEdge(w: World, d: nat, o: nat)
    requires o < |w.db.orders|
    ensures |w.db.orders| <= |HandleDelivery(w, d).db.orders|
    ensures OrderEdge(w.db.orders[o].status, HandleDelivery(w, d).db.orders[o].status)
  {
    hide Settle;
    if d < |w.deliveries| && w.deliveries[d].event < |w.vendor.events| {
      match w.vendor.events[w.deliveries[d].event] {
        case RefundedEvent(_, reference, id, _) =>
          if reference.Some? && reference.value < |w.db.refunds| {
            var r := reference.value;
            var set2 := w.db.(refunds := w.db.refunds[r := w.db.refunds[r].(status := Settled, providerRefund := Some(id))]);
            SettleEdge(set2, w.db.refunds[r].order, w.db.refunds[r].amount, o);
            SettleLength(set2, w.db.refunds[r].order, w.db.refunds[r].amount);
          }
        case _ =>
      }
    }
  }

  lemma SettleLength(db: Db, o: nat, amount: int)
    ensures |Settle(db, o, amount).orders| == |db.orders|
  {
  }

  /** A single step moves an order along one edge of its lifecycle, or leaves it where it is. */
  lemma StepOrderEdge(w: World, a: Action, o: nat)
    requires o < |w.db.orders|
    ensures |w.db.orders| <= |Next(w, a).db.orders|
    ensures OrderEdge(w.db.orders[o].status, Next(w, a).db.orders[o].status)
  {
    hide Next, NextOrders, NextWebhooks, NextRefunds, OrderEdge;
    StepFamily(w, a);
    if OfCatalog(a) {
      CatalogFrame(w, a);
      EdgeStays(w.db.orders[o].status);
    } else if OfHolds(a) {
      HoldsFrame(w, a);
      EdgeStays(w.db.orders[o].status);
    } else if OfOrders(a) {
      OrdersEdge(w, a, o);
    } else if OfWebhooks(a) {
      WebhooksEdge(w, a, o);
    } else if OfRefunds(a) {
      RefundsEdge(w, a, o);
    } else {
      EdgeStays(w.db.orders[o].status);
    }
  }

  lemma EdgeStays(a: OrderStatus)
    ensures OrderEdge(a, a)
  {
  }

  lemma OrdersEdge(w: World, a: Action, o: nat)
    requires OfOrders(a) && o < |w.db.orders|
    ensures |w.db.orders| <= |NextOrders(w, a).db.orders|
    ensures OrderEdge(w.db.orders[o].status, NextOrders(w, a).db.orders[o].status)
  {
    hide DraftOrder, CommitOutcomeOf, VendorCreate;
  }

  lemma WebhooksEdge(w: World, a: Action, o: nat)
    requires OfWebhooks(a) && o < |w.db.orders|
    ensures |w.db.orders| <= |NextWebhooks(w, a).db.orders|
    ensures OrderEdge(w.db.orders[o].status, NextWebhooks(w, a).db.orders[o].status)
  {
    hide HandleDelivery, VendorResolve, CompensationAccepted;
    if a.Handle? {
      HandleEdge(w, a.delivery, o);
    }
  }

  lemma RefundsEdge(w: World, a: Action, o: nat)
    requires OfRefunds(a) && o < |w.db.orders|
    ensures |w.db.orders| <= |NextRefunds(w, a).db.orders|
    ensures OrderEdge(w.db.orders[o].status, NextRefunds(w, a).db.orders[o].status)
  {
    hide DraftRefund, CommitRefund, VendorRefund;
    if a.DoCommitRefund? {
      if a.draft < |w.refundDrafts| {
        CommitRefundEdge(w.db, w.refundDrafts[a.draft], o);
      }
    }
  }

  lemma CommitRefundEdge(db: Db, d: RefundDraft, o: nat)
    requires o < |db.orders|
    ensures |CommitRefund(db, d).orders| == |db.orders|
    ensures OrderEdge(db.orders[o].status, CommitRefund(db, d).orders[o].status)
  {
    if RefundCommits(db, d) {
      var freed := SeatsOfTickets(db.tickets, d.ids);
      var reclaimed := db.(
        refunds := db.refunds + [RefundRow(d)],
        tickets := VoidTickets(db.tickets, d.ids, |db.refunds|),
        stock := GivePicked(db.stock, db.tickets, d.ids),
        feed := if freed == {} then db.feed else db.feed + [SeatsReleased(freed)]);
      SettleEdge(reclaimed, d.order, 0, o);
      SettleLength(reclaimed, d.order, 0);
    }
  }

  // ---- schedules ----

  lemma {:induction false} RunSplit(w: World, a: seq<Action>, b: seq<Action>)
    ensures Run(w, a + b) == Run(Run(w, a), b)
  {
    hide Next;
    if b == [] {
      assert a + b == a;
    } else {
      var m := |b| - 1;
      RunSplit(w, a, b[..m]);
      assert (a + b)[..|a| + m] == a + b[..m];
    }
  }

  lemma RunNext(w: World, schedule: seq<Action>, a: Action)
    ensures Run(w, schedule + [a]) == Next(Run(w, schedule), a)
  {
    hide Next;
    assert (schedule + [a])[..|schedule|] == schedule;
  }

  lemma ReachableNext(w: World, a: Action)
    requires Reachable(w)
    ensures Reachable(Next(w, a))
  {
    hide Next;
    var w0: World, before: seq<Action> :| Initial(w0) && w == Run(w0, before);
    RunNext(w0, before, a);
  }

  lemma ReachableRun(w: World, schedule: seq<Action>)
    requires Reachable(w)
    ensures Reachable(Run(w, schedule))
  {
    hide Run;
    var w0: World, before: seq<Action> :| Initial(w0) && w == Run(w0, before);
    RunSplit(w0, before, schedule);
  }

  lemma {:induction false} RunEvolves(w: World, schedule: seq<Action>)
    requires WorldOk(w)
    ensures WorldOk(Run(w, schedule)) && Evolves(w, Run(w, schedule))
  {
    hide Next, WorldOk, DbEvolves, VendorEvolves;
    if schedule != [] {
      var m := |schedule| - 1;
      RunEvolves(w, schedule[..m]);
      StepKeeps(Run(w, schedule[..m]), schedule[m]);
      StepEvolves(Run(w, schedule[..m]), schedule[m]);
      EvolvesTransitive(w, Run(w, schedule[..m]), Run(w, schedule));
    } else {
      EvolvesReflexive(w);
    }
  }

  lemma EvolvesReflexive(w: World)
    ensures Evolves(w, w)
  {
  }
}
