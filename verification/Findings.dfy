/** What the protocol does not promise, with the exact state in which it fails to. */
module Findings {
  import opened Tables
  import opened Sums
  import opened Transactions
  import opened Protocol
  import opened Frames
  import opened Invariants
  import opened Money
  import opened MoneyRefunds
  import opened Steps
  import opened Evolution
  import opened Once
  import Weights

  // ---- a refund whose settlement webhook was dropped ----

  ghost predicate Announces(e: VendorEvent, r: nat) {
    e.RefundedEvent? && e.reference == Some(r)
  }

  /** The money of refund `r` has moved, the API has not booked it, and every webhook that could tell it
      is acknowledged and handled. */
  ghost predicate Stranded(w: World, r: nat) {
    && r < |w.db.refunds| && w.db.refunds[r].status != Settled && r in w.vendor.refs
    && (forall e | 0 <= e < |w.vendor.events| && Announces(w.vendor.events[e], r) ::
          e in w.db.webhooks && w.db.webhooks[e])
    && (forall d | 0 <= d < |w.deliveries| && w.deliveries[d].event < |w.vendor.events|
          && Announces(w.vendor.events[w.deliveries[d].event], r) :: w.deliveries[d].stage != Received)
  }

  lemma HandleOtherRefund(w: World, d: nat, r: nat)
    requires r < |w.db.refunds| && w.db.refunds[r].status != Settled
    requires (d < |w.deliveries| && w.deliveries[d].event < |w.vendor.events|
              && Announces(w.vendor.events[w.deliveries[d].event], r)) ==> w.deliveries[d].stage != Received
    ensures var after := HandleDelivery(w, d).db;
      r < |after.refunds| && after.refunds[r].status != Settled && after.webhooks == w.db.webhooks
  {
    hide HandleSucceeded, HandleFailed, Settle;
    if d < |w.deliveries| && w.deliveries[d].event < |w.vendor.events| {
      match w.vendor.events[w.deliveries[d].event] {
        case SucceededEvent(i) => SucceededRefunds(w.db, i);
        case FailedEvent(i) => FailedRefunds(w.db, i);
        case RefundedEvent(_, reference, id, _) =>
          if reference.Some? && reference.value < |w.db.refunds| {
            var q := reference.value;
            var set2 := w.db.(refunds := w.db.refunds[q := w.db.refunds[q].(status := Settled, providerRefund := Some(id))]);
            SettleRefunds(set2, w.db.refunds[q].order, w.db.refunds[q].amount);
          }
        case UnknownEvent =>
      }
    }
  }

  lemma SucceededRefunds(db: Db, i: nat)
    ensures HandleSucceeded(db, i).refunds == db.refunds && HandleSucceeded(db, i).webhooks == db.webhooks
  {
  }

  lemma FailedRefunds(db: Db, i: nat)
    ensures HandleFailed(db, i).refunds == db.refunds && HandleFailed(db, i).webhooks == db.webhooks
  {
  }

  lemma SettleRefunds(db: Db, o: nat, amount: int)
    ensures Settle(db, o, amount).refunds == db.refunds && Settle(db, o, amount).webhooks == db.webhooks
  {
  }

  lemma CommitRefundRows(db: Db, d: RefundDraft)
    ensures var after := CommitRefund(db, d); db.refunds <= after.refunds && after.webhooks == db.webhooks
  {
  }

  /** The refund has not settled and no recorded event became unprocessed. */
  ghost predicate NotYetSettled(db: Db, db2: Db, r: nat) {
    && r < |db2.refunds| && db2.refunds[r].status != Settled
    && forall e | e in db.webhooks && db.webhooks[e] :: e in db2.webhooks && db2.webhooks[e]
  }

  lemma SameRefunds(db: Db, db2: Db, r: nat)
    requires r < |db.refunds| && db.refunds[r].status != Settled
    requires db.refunds <= db2.refunds && db2.webhooks == db.webhooks
    ensures NotYetSettled(db, db2, r)
  {
  }

  lemma OrdersStranded(w: World, a: Action, r: nat)
    requires OfOrders(a) && r < |w.db.refunds| && w.db.refunds[r].status != Settled
    ensures NotYetSettled(w.db, NextOrders(w, a).db, r)
  {
    hide NotYetSettled, DraftOrder, CommitOrder, CommitOutcomeOf, Release, VendorCreate;
    if a.DoCommitOrder? {
      if a.draft < |w.orderDrafts| { OrderKeepsRefunds(w.db, w.orderDrafts[a.draft]); }
    } else if a.AbortCheckout? {
      ReleaseKeepsRefunds(w.db, a.order, Canceled);
    } else if a.ExpireOrder? {
      ReleaseKeepsRefunds(w.db, a.order, Expired);
    }
    SameRefunds(w.db, NextOrders(w, a).db, r);
  }

  lemma WebhooksStranded(w: World, a: Action, r: nat)
    requires OfWebhooks(a) && Stranded(w, r)
    ensures NotYetSettled(w.db, NextWebhooks(w, a).db, r)
  {
    hide HandleDelivery, CompensationAccepted, VendorResolve;
    if a.Handle? {
      HandleOtherRefund(w, a.delivery, r);
    }
  }

  lemma RefundsStranded(w: World, a: Action, r: nat)
    requires OfRefunds(a) && r < |w.db.refunds| && w.db.refunds[r].status != Settled
    ensures NotYetSettled(w.db, NextRefunds(w, a).db, r)
  {
    hide DraftRefund, CommitRefund, VendorRefund;
    if a.DoCommitRefund? {
      if a.draft < |w.refundDrafts| { CommitRefundRows(w.db, w.refundDrafts[a.draft]); }
    }
  }

  /** No step settles a stranded refund. */
  lemma StrandedRefundRow(w: World, a: Action, r: nat)
    requires Stranded(w, r)
    ensures NotYetSettled(w.db, Next(w, a).db, r)
  {
    StepFamily(w, a);
    hide NotYetSettled, Next, NextHolds, NextOrders, NextWebhooks, NextRefunds;
    if OfCatalog(a) {
      CatalogFrame(w, a);
      SameRefunds(w.db, Next(w, a).db, r);
    } else if OfHolds(a) {
      HoldsFrame(w, a);
      SameRefunds(w.db, Next(w, a).db, r);
    } else if OfOrders(a) {
      OrdersStranded(w, a, r);
    } else if OfWebhooks(a) {
      WebhooksStranded(w, a, r);
    } else if OfRefunds(a) {
      RefundsStranded(w, a, r);
    } else {
      SameRefunds(w.db, Next(w, a).db, r);
    }
  }

  lemma OrderKeepsRefunds(db: Db, d: OrderDraft)
    ensures CommitOrder(db, d).refunds == db.refunds && CommitOrder(db, d).webhooks == db.webhooks
  {
  }

  lemma ReleaseKeepsRefunds(db: Db, o: nat, final: OrderStatus)
    ensures Release(db, o, final).refunds == db.refunds && Release(db, o, final).webhooks == db.webhooks
  {
  }

  /** The vendor knows reference `r`, loses no event and announces it no more. */
  ghost predicate Known(v: Vendor, v2: Vendor, r: nat) {
    && r in v2.refs && v.events <= v2.events
    && forall e | |v.events| <= e < |v2.events| :: !Announces(v2.events[e], r)
  }

  lemma VendorKnows(v: Vendor, r: nat)
    requires r in v.refs
    ensures Known(v, v, r) && Known(v, v.(events := v.events + [UnknownEvent]), r)
    ensures forall o, amount :: Known(v, VendorCreate(v, o, amount), r)
    ensures forall i, ok :: Known(v, VendorResolve(v, i, ok), r)
    ensures forall i, q: nat, amount :: Known(v, VendorRefund(v, i, Some(q), amount), r)
  {
  }

  /** The vendor announces a reference once: a repeated call moves nothing and emits nothing. */
  lemma AnnouncedOnce(w: World, a: Action, r: nat)
    requires r in w.vendor.refs
    ensures Known(w.vendor, Next(w, a).vendor, r)
  {
    StepFamily(w, a);
    VendorKnows(w.vendor, r);
    hide Known, Next, NextHolds, CheckIn, CommitOrder, Release, CommitRefund, DraftOrder, DraftRefund, CommitOutcomeOf,
         HandleSucceeded, HandleFailed, HandleRefunded, SucceededOutcomeOf, Compensate, CompensationAccepted, VendorRefund,
         VendorCreate, VendorResolve, AddPayment, RefundCommits;
    if OfCatalog(a) {
      CatalogFrame(w, a);
    } else if OfHolds(a) {
      HoldsFrame(w, a);
    }
  }

  lemma StrandedDeliveries(w: World, a: Action, r: nat)
    requires Stranded(w, r)
    ensures forall d | 0 <= d < |Next(w, a).deliveries| && Next(w, a).deliveries[d].event < |w.vendor.events|
      && Announces(w.vendor.events[Next(w, a).deliveries[d].event], r) :: Next(w, a).deliveries[d].stage != Received
  {
    hide HandleSucceeded, HandleFailed, HandleRefunded, SucceededOutcomeOf, CommitRefund, DraftOrder, DraftRefund,
         CommitOrder, AddSections, CommitOutcomeOf, Release, Compensate, CompensationAccepted, VendorRefund,
         VendorResolve, VendorCreate;
  }

  ghost predicate DeliveriesKnown(w: World) {
    forall d | 0 <= d < |w.deliveries| :: w.deliveries[d].event < |w.vendor.events|
  }

  lemma DeliveriesKnownStep(w: World, a: Action)
    requires DeliveriesKnown(w)
    ensures DeliveriesKnown(Next(w, a))
  {
    hide HandleSucceeded, HandleFailed, HandleRefunded, SucceededOutcomeOf, CommitRefund, DraftOrder, DraftRefund,
         CommitOrder, AddSections, CommitOutcomeOf, Release, Compensate, CompensationAccepted;
  }

  lemma {:induction false} DeliveriesKnownRun(w: World, schedule: seq<Action>)
    requires DeliveriesKnown(w)
    ensures DeliveriesKnown(Run(w, schedule))
  {
    hide Next, DeliveriesKnown;
    if schedule != [] {
      var m := |schedule| - 1;
      DeliveriesKnownRun(w, schedule[..m]);
      DeliveriesKnownStep(Run(w, schedule[..m]), schedule[m]);
    }
  }

  lemma StrandedStep(w: World, a: Action, r: nat)
    requires DeliveriesKnown(w) && Stranded(w, r)
    ensures DeliveriesKnown(Next(w, a)) && Stranded(Next(w, a), r)
  {
    hide Next;
    DeliveriesKnownStep(w, a);
    StrandedRefundRow(w, a, r);
    AnnouncedOnce(w, a, r);
    StrandedDeliveries(w, a, r);
    hide Announces;
  }

  lemma {:induction false} StrandedRun(w: World, schedule: seq<Action>, r: nat)
    requires DeliveriesKnown(w) && Stranded(w, r)
    ensures Stranded(Run(w, schedule), r)
  {
    hide Next, Stranded, DeliveriesKnown;
    if schedule != [] {
      var m := |schedule| - 1;
      DeliveriesKnownRun(w, schedule[..m]);
      StrandedRun(w, schedule[..m], r);
      StrandedStep(Run(w, schedule[..m]), schedule[m], r);
    }
  }

  /** A stranded refund never settles, whatever is retried afterwards. */
  lemma StrandedForever(w: World, schedule: seq<Action>, r: nat)
    requires Reachable(w) && Stranded(w, r)
    ensures var after := Run(w, schedule);
      r < |after.db.refunds| && after.db.refunds[r].status != Settled && r in after.vendor.refs
  {
    var w0: World, before: seq<Action> :| Initial(w0) && w == Run(w0, before);
    DeliveriesKnownRun(w0, before);
    StrandedRun(w, schedule, r);
  }

  ghost predicate Settles(w: World, schedule: seq<Action>, r: nat) {
    r < |Run(w, schedule).db.refunds| && Run(w, schedule).db.refunds[r].status == Settled
  }

  /** Delivery `d` has still to run the transaction of a webhook that announces refund `r`. */
  ghost predicate Unhandled(w: World, d: nat, r: nat) {
    && d < |w.deliveries| && w.deliveries[d].stage == Received && w.deliveries[d].event < |w.vendor.events|
    && Announces(w.vendor.events[w.deliveries[d].event], r)
  }

  lemma HandleSettles(w: World, d: nat, r: nat)
    requires r < |w.db.refunds| && w.db.refunds[r].status == Pending && Unhandled(w, d, r)
    ensures var after := Next(w, Handle(d)).db; r < |after.refunds| && after.refunds[r].status == Settled
  {
    StepFamily(w, Handle(d));
    hide Next, HandleSucceeded, HandleFailed, HandleRefunded;
    SettleKeepsRefunds(w.db, r, w.vendor.events[w.deliveries[d].event].refundId);
  }

  /** A retry reopens a failed refund and leaves its webhooks as they were. */
  lemma RetryReopens(w: World, d: nat, r: nat)
    requires MoneyOk(w) && r < |w.db.refunds| && w.db.refunds[r].status == Failed && Unhandled(w, d, r)
    ensures var after := Next(w, RetryRefund(r));
      r < |after.db.refunds| && after.db.refunds[r].status == Pending && Unhandled(after, d, r)
  {
    hide Next, MoneyOk, Announces, CommitRefund, RefundCommits, DraftRefund, VendorRefund;
    FailedRefundPaid(w, r);
    StepFamily(w, RetryRefund(r));
  }

  lemma DeliveryOpens(w: World, e: nat, r: nat)
    requires e < |w.vendor.events| && Announces(w.vendor.events[e], r) && !(e in w.db.webhooks && w.db.webhooks[e])
    ensures var after := Next(w, Deliver(e));
      Unhandled(after, |w.deliveries|, r) && after.db.refunds == w.db.refunds
  {
    StepFamily(w, Deliver(e));
    hide Next;
  }

  /** A refund whose webhook is still being delivered settles, after a retry if it was marked failed. */
  lemma UnhandledSettles(w: World, d: nat, r: nat) returns (schedule: seq<Action>)
    requires MoneyOk(w) && r < |w.db.refunds| && w.db.refunds[r].status != Settled && Unhandled(w, d, r)
    ensures Settles(w, schedule, r)
  {
    hide MoneyOk, Next, Unhandled;
    if w.db.refunds[r].status == Pending {
      RunNext(w, [], Handle(d));
      HandleSettles(w, d, r);
      schedule := [Handle(d)];
    } else {
      RunNext(w, [], RetryRefund(r));
      RetryReopens(w, d, r);
      RunNext(w, [RetryRefund(r)], Handle(d));
      HandleSettles(Next(w, RetryRefund(r)), d, r);
      schedule := [RetryRefund(r)] + [Handle(d)];
    }
  }

  lemma NotStrandedSettles(w: World, r: nat) returns (schedule: seq<Action>)
    requires WorldOk(w) && r < |w.db.refunds| && w.db.refunds[r].status != Settled && r in w.vendor.refs && !Stranded(w, r)
    ensures Settles(w, schedule, r)
  {
    hide MoneyOk, Next, WorldOk;
    WorldParts(w);
    if d: nat :| Unhandled(w, d, r) {
      schedule := UnhandledSettles(w, d, r);
    } else {
      forall d | 0 <= d < |w.deliveries| && w.deliveries[d].event < |w.vendor.events|
        && Announces(w.vendor.events[w.deliveries[d].event], r)
        ensures w.deliveries[d].stage != Received
      {
        assert !Unhandled(w, d, r);
      }
      var e :| 0 <= e < |w.vendor.events| && Announces(w.vendor.events[e], r) && !(e in w.db.webhooks && w.db.webhooks[e]);
      DeliveryOpens(w, e, r);
      StepKeeps(w, Deliver(e));
      WorldParts(Next(w, Deliver(e)));
      var rest := UnhandledSettles(Next(w, Deliver(e)), |w.deliveries|, r);
      RunNext(w, [], Deliver(e));
      RunSplit(w, [Deliver(e)], rest);
      schedule := [Deliver(e)] + rest;
    }
  }

  /** A refund whose money has moved can still be settled, by retries and redeliveries, if and only if it is
      not stranded: once every webhook about it is acknowledged and handled, it is past recovery. */
  lemma RecoverableIffNotStranded(w: World, r: nat)
    requires Reachable(w) && r < |w.db.refunds| && w.db.refunds[r].status != Settled && r in w.vendor.refs
    ensures (exists schedule :: Settles(w, schedule, r)) <==> !Stranded(w, r)
  {
    hide Stranded, Next, WorldOk;
    if Stranded(w, r) {
      forall schedule ensures !Settles(w, schedule, r) {
        StrandedForever(w, schedule, r);
      }
    } else {
      ReachableOk(w);
      var schedule := NotStrandedSettles(w, r);
    }
  }

  // ---- a compensation lost between two transactions ----

  lemma OwingStays(w: World, a: Action, d: nat)
    requires d < |w.deliveries| && w.deliveries[d].stage.Owing? && a != DoCompensate(d)
    ensures d < |Next(w, a).deliveries| && Next(w, a).deliveries[d] == w.deliveries[d]
  {
    hide HandleSucceeded, HandleFailed, HandleRefunded, SucceededOutcomeOf, CommitRefund, DraftOrder, DraftRefund,
         CommitOrder, AddSections, CommitOutcomeOf, Release, Compensate, CompensationAccepted, VendorRefund,
         VendorResolve, VendorCreate;
  }

  lemma {:induction false} OwingStaysRun(w: World, schedule: seq<Action>, d: nat)
    requires d < |w.deliveries| && w.deliveries[d].stage.Owing? && DoCompensate(d) !in schedule
    ensures d < |Run(w, schedule).deliveries| && Run(w, schedule).deliveries[d] == w.deliveries[d]
  {
    hide Next;
    if schedule != [] {
      var m := |schedule| - 1;
      OwingStaysRun(w, schedule[..m], d);
      assert schedule[m] in schedule;
      OwingStays(Run(w, schedule[..m]), schedule[m], d);
    }
  }

  /** If the handler that found an unfulfillable order dies before compensating, no redelivery and no
      other handler compensates in its place: the order never gets its system refund. */
  lemma LostCompensation(w: World, schedule: seq<Action>, d: nat)
    requires Reachable(w) && d < |w.deliveries| && w.deliveries[d].stage.Owing? && DoCompensate(d) !in schedule
    ensures forall r | 0 <= r < |Run(w, schedule).db.refunds| ::
      Run(w, schedule).db.refunds[r].order == w.deliveries[d].stage.order ==> Run(w, schedule).db.refunds[r].byUser
  {
    ReachableOk(w);
    hide Next;
    RunKeeps(w, schedule);
    OwingStaysRun(w, schedule, d);
    var after := Run(w, schedule);
    WorldParts(after);
    OwingAccepted(after, d);
  }

  /** If it goes on, the order has exactly one system refund, of its full total, and the call to send it. */
  lemma UninterruptedCompensates(w: World, d: nat)
    requires Reachable(w) && d < |w.deliveries| && w.deliveries[d].stage.Owing?
    ensures var after, st := CompensateDelivery(w, d), w.deliveries[d].stage;
      && Weights.SystemCount(after.db.refunds, st.order) == 1
      && st.order < |after.db.orders|
      && |after.db.refunds| == |w.db.refunds| + 1 && |after.legs| == |w.legs| + 1
      && after.legs[|w.legs|] == Leg(|w.db.refunds|, st.intent, after.db.orders[st.order].total)
      && after.db.refunds[|w.db.refunds|].order == st.order
      && after.db.refunds[|w.db.refunds|].amount == after.db.orders[st.order].total
  {
    ReachableOk(w);
    WorldParts(w);
    OwingAccepted(w, d);
    assert OwingOk(w.db.orders, w.db.payments, w.deliveries);
    hide WorldOk, MoneyOk;
    var st := w.deliveries[d].stage;
    RefundRowTotals(w.db.refunds, Refund(st.order, st.amount, Pending, Some(SYSTEM_COMPENSATION_KEY), false, None), st.order, {});
  }

  ghost predicate SystemRefunded(db: Db, o: nat) {
    exists r :: 0 <= r < |db.refunds| && db.refunds[r].order == o && !db.refunds[r].byUser
  }

  lemma {:induction false} FirstOccurrence(schedule: seq<Action>, a: Action) returns (n: nat)
    requires a in schedule
    ensures n < |schedule| && schedule[n] == a && a !in schedule[..n]
  {
    if schedule[0] == a {
      n := 0;
    } else {
      n := FirstOccurrence(schedule[1..], a);
      n := n + 1;
      assert schedule[..n] == [schedule[0]] + schedule[1..][..n - 1];
    }
  }

  lemma CompensationRow(w: World, d: nat)
    requires d < |w.deliveries| && w.deliveries[d].stage.Owing? && CompensationAccepted(w.db, w.deliveries[d].stage.order)
    ensures var st := w.deliveries[d].stage;
      Next(w, DoCompensate(d)).db.refunds
      == w.db.refunds + [Refund(st.order, st.amount, Pending, Some(SYSTEM_COMPENSATION_KEY), false, None)]
  {
    hide CompensationAccepted, NextCatalog, NextHolds, NextOrders, NextRefunds, CheckIn;
  }

  /** The compensation opens the system refund. */
  lemma CompensationOpens(w: World, d: nat)
    requires WorldOk(w) && d < |w.deliveries| && w.deliveries[d].stage.Owing?
    ensures SystemRefunded(Next(w, DoCompensate(d)).db, w.deliveries[d].stage.order)
  {
    hide WorldOk, InventoryOk, MoneyOk, CompensationAccepted, Next;
    WorldParts(w);
    OwingAccepted(w, d);
    CompensationRow(w, d);
    var refunds := Next(w, DoCompensate(d)).db.refunds;
    assert refunds[|w.db.refunds|].order == w.deliveries[d].stage.order && !refunds[|w.db.refunds|].byUser;
  }

  lemma SystemRefundStays(a: Db, b: Db, o: nat)
    requires RefundsEvolve(a.refunds, b.refunds) && SystemRefunded(a, o)
    ensures SystemRefunded(b, o)
  {
  }

  /** The money captured for an order that cannot be honoured is ever owed back if and only if the handler
      that captured it goes on to compensate: nothing else in the system opens that refund. */
  lemma CompensatedIffFinished(w: World, schedule: seq<Action>, d: nat)
    requires Reachable(w) && d < |w.deliveries| && w.deliveries[d].stage.Owing?
    ensures SystemRefunded(Run(w, schedule).db, w.deliveries[d].stage.order) <==> DoCompensate(d) in schedule
  {
    hide Next, WorldOk;
    if DoCompensate(d) in schedule {
      var n := FirstOccurrence(schedule, DoCompensate(d));
      var before := Run(w, schedule[..n]);
      ReachableOk(w);
      RunKeeps(w, schedule[..n]);
      OwingStaysRun(w, schedule[..n], d);
      CompensationOpens(before, d);
      RunStep(w, schedule, n);
      RunKeeps(w, schedule[..n + 1]);
      assert schedule == schedule[..n + 1] + schedule[n + 1..];
      RunSplit(w, schedule[..n + 1], schedule[n + 1..]);
      RunEvolves(Run(w, schedule[..n + 1]), schedule[n + 1..]);
      SystemRefundStays(Run(w, schedule[..n + 1]).db, Run(w, schedule).db, w.deliveries[d].stage.order);
    } else {
      LostCompensation(w, schedule, d);
    }
  }
}
