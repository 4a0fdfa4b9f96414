/** What happens at most once over a whole schedule: the settlement transaction of one event, however often
    and however late its deliveries are handled, the release of an order, the admission of a ticket. */
module Once {
  import opened Tables
  import opened Transactions
  import opened Protocol
  import opened Money
  import opened MoneySettlement
  import opened Frames
  import opened Steps
  import opened Evolution
  import Whole

  /** The settlement transaction of an event. */
  ghost function EventEffect(db: Db, e: VendorEvent): Db {
    match e
    case SucceededEvent(i) => HandleSucceeded(db, i)
    case FailedEvent(i) => HandleFailed(db, i)
    case RefundedEvent(_, reference, id, _) => HandleRefunded(db, reference, id)
    case UnknownEvent => db
  }

  /** The row the event's claim names has already left the state the claim moves it out of. */
  ghost predicate Spent(db: Db, e: VendorEvent) {
    match e
    case SucceededEvent(i) => Resolved(db.payments, i)
    case FailedEvent(i) => Resolved(db.payments, i)
    case RefundedEvent(_, reference, _, _) =>
      reference.Some? ==> reference.value < |db.refunds| && db.refunds[reference.value].status == Settled
    case UnknownEvent => true
  }

  ghost predicate Resolved(payments: seq<Payment>, i: nat) {
    exists p :: 0 <= p < |payments| && payments[p].intent == i && payments[p].status != RequiresAction
  }

  ghost predicate UniqueIntents(payments: seq<Payment>) {
    forall p, q | 0 <= p < q < |payments| :: payments[p].intent != payments[q].intent
  }

  lemma FoundIsIt(payments: seq<Payment>, p: nat)
    requires UniqueIntents(payments) && p < |payments|
    ensures PaymentByIntent(payments, payments[p].intent) == Some(p)
  {
    assert PaymentByIntent(payments, payments[p].intent).Some?;
  }

  /** A spent event's transaction does nothing. */
  lemma SpentDoesNothing(db: Db, e: VendorEvent)
    requires UniqueIntents(db.payments) && Spent(db, e)
    ensures EventEffect(db, e) == db
  {
    match e {
      case SucceededEvent(i) =>
        var p :| 0 <= p < |db.payments| && db.payments[p].intent == i && db.payments[p].status != RequiresAction;
        FoundIsIt(db.payments, p);
      case FailedEvent(i) =>
        var p :| 0 <= p < |db.payments| && db.payments[p].intent == i && db.payments[p].status != RequiresAction;
        FoundIsIt(db.payments, p);
      case _ =>
    }
  }

  /** A transaction that changed anything has spent its event. */
  lemma EffectSpends(db: Db, e: VendorEvent)
    requires EventEffect(db, e) != db
    ensures Spent(EventEffect(db, e), e)
  {
    hide Settle;
    match e {
      case SucceededEvent(i) =>
        var p := PaymentByIntent(db.payments, i).value;
        assert EventEffect(db, e).payments[p].status == Captured;
      case FailedEvent(i) =>
        var p := PaymentByIntent(db.payments, i).value;
        assert EventEffect(db, e).payments[p].status == Declined;
      case RefundedEvent(_, reference, id, _) =>
        SettleKeepsRefunds(db, reference.value, id);
      case UnknownEvent =>
    }
  }

  lemma SettleKeepsRefunds(db: Db, r: nat, id: nat)
    requires r < |db.refunds| && db.refunds[r].status == Pending
    ensures var after := HandleRefunded(db, Some(r), id); r < |after.refunds| && after.refunds[r].status == Settled
  {
  }

  /** Spent events stay spent. */
  lemma SpentForever(a: Db, b: Db, e: VendorEvent)
    requires DbEvolves(a, b) && Spent(a, e)
    ensures Spent(b, e)
  {
    match e {
      case SucceededEvent(i) => ResolvedForever(a.payments, b.payments, i);
      case FailedEvent(i) => ResolvedForever(a.payments, b.payments, i);
      case RefundedEvent(_, reference, _, _) =>
        if reference.Some? {
          assert RefundEdge(a.refunds[reference.value].status, b.refunds[reference.value].status);
        }
      case UnknownEvent =>
    }
  }

  lemma ResolvedForever(a: seq<Payment>, b: seq<Payment>, i: nat)
    requires PaymentsEvolve(a, b) && Resolved(a, i)
    ensures Resolved(b, i)
  {
    var p :| 0 <= p < |a| && a[p].intent == i && a[p].status != RequiresAction;
    assert PaymentEdge(a[p].status, b[p].status);
    assert b[p].intent == i;
  }

  lemma WorldUniqueIntents(w: World)
    requires WorldOk(w)
    ensures UniqueIntents(w.db.payments)
  {
    assert PaymentsOk(w.db.orders, w.vendor.intents, w.db.payments);
  }

  /** At step `n` of the schedule a delivery of event `e` ran its transaction and changed the database. */
  ghost predicate Effective(w0: World, schedule: seq<Action>, n: nat, e: nat) {
    && n < |schedule| && schedule[n].Handle?
    && var w, d := Run(w0, schedule[..n]), schedule[n].delivery;
    && d < |w.deliveries| && w.deliveries[d].event == e
    && Run(w0, schedule[..n + 1]).db != w.db
  }

  lemma RunStep(w0: World, schedule: seq<Action>, n: nat)
    requires n < |schedule|
    ensures Run(w0, schedule[..n + 1]) == Next(Run(w0, schedule[..n]), schedule[n])
  {
    hide Next;
    assert schedule[..n + 1][..n] == schedule[..n];
  }

  /** A delivery that changed the database ran its event's transaction. */
  lemma HandleRunsEffect(w: World, d: nat)
    requires HandleDelivery(w, d).db != w.db
    ensures d < |w.deliveries| && w.deliveries[d].event < |w.vendor.events|
    ensures HandleDelivery(w, d).db == EventEffect(w.db, w.vendor.events[w.deliveries[d].event])
  {
    hide HandleSucceeded, HandleFailed, HandleRefunded, SucceededOutcomeOf;
  }

  lemma EffectiveSpends(w0: World, schedule: seq<Action>, n: nat, e: nat)
    requires WorldOk(w0) && Effective(w0, schedule, n, e)
    ensures e < |Run(w0, schedule[..n]).vendor.events|
    ensures UniqueIntents(Run(w0, schedule[..n]).db.payments)
    ensures !Spent(Run(w0, schedule[..n]).db, Run(w0, schedule[..n]).vendor.events[e])
    ensures Spent(Run(w0, schedule[..n + 1]).db, Run(w0, schedule[..n]).vendor.events[e])
  {
    hide WorldOk, Spent, EventEffect, HandleDelivery;
    var w := Run(w0, schedule[..n]);
    RunStep(w0, schedule, n);
    RunKeeps(w0, schedule[..n]);
    WorldUniqueIntents(w);
    HandleRunsEffect(w, schedule[n].delivery);
    EffectSpends(w.db, w.vendor.events[e]);
    if Spent(w.db, w.vendor.events[e]) {
      SpentDoesNothing(w.db, w.vendor.events[e]);
    }
  }

  /** Once a delivery of an event has changed the database, no later one does. */
  lemma LaterHasNoEffect(w0: World, schedule: seq<Action>, e: nat, m: nat, n: nat)
    requires WorldOk(w0) && m < n < |schedule| && Effective(w0, schedule, m, e)
    ensures !Effective(w0, schedule, n, e)
  {
    hide WorldOk, Spent, EventEffect, Next, Effective;
    EffectiveSpends(w0, schedule, m, e);
    var ev := Run(w0, schedule[..m]).vendor.events[e];
    var between := schedule[m + 1..n];
    assert schedule[..n] == schedule[..m + 1] + between;
    RunSplit(w0, schedule[..m + 1], between);
    RunKeeps(w0, schedule[..m + 1]);
    RunEvolves(Run(w0, schedule[..m + 1]), between);
    RunKeeps(w0, schedule[..m]);
    RunStep(w0, schedule, m);
    StepEvolves(Run(w0, schedule[..m]), schedule[m]);
    SpentForever(Run(w0, schedule[..m + 1]).db, Run(w0, schedule[..n]).db, ev);
    assert e < |Run(w0, schedule[..n]).vendor.events| && Run(w0, schedule[..n]).vendor.events[e] == ev;
    if Effective(w0, schedule, n, e) {
      EffectiveSpends(w0, schedule, n, e);
    }
  }

  /** In any schedule, however deliveries of an event are retried, doubled, interleaved or reprocessed,
      at most one of them changes orders, tickets, holds, inventory, payments or refunds. */
  lemma EventSettlesAtMostOnce(w0: World, schedule: seq<Action>, e: nat, m: nat, n: nat)
    requires Reachable(w0) && Effective(w0, schedule, m, e) && Effective(w0, schedule, n, e)
    ensures m == n
  {
    ReachableOk(w0);
    if m < n {
      LaterHasNoEffect(w0, schedule, e, m, n);
    } else if n < m {
      LaterHasNoEffect(w0, schedule, e, n, m);
    }
  }

  ghost predicate Released(a: Db, b: Db, o: nat) {
    && o < |a.orders| && o < |b.orders|
    && a.orders[o].status == AwaitingPayment && IsUnfulfillableStatus(b.orders[o].status)
  }

  /** At step `n` of the schedule unpaid order `o` expired or was canceled. */
  ghost predicate Releases(w0: World, schedule: seq<Action>, n: nat, o: nat) {
    n < |schedule| && Released(Run(w0, schedule[..n]).db, Run(w0, schedule[..n + 1]).db, o)
  }

  lemma OneRelease(w0: World, schedule: seq<Action>, o: nat, m: nat, n: nat)
    requires Reachable(w0) && Releases(w0, schedule, m, o) && Releases(w0, schedule, n, o)
    ensures m == n
  {
    ReachableOk(w0);
    if m < n {
      ReleasedOnce(w0, schedule, o, m, n);
    } else if n < m {
      ReleasedOnce(w0, schedule, o, n, m);
    }
  }

  lemma ReleasedOnce(w0: World, schedule: seq<Action>, o: nat, m: nat, n: nat)
    requires WorldOk(w0) && m < n < |schedule| && Releases(w0, schedule, m, o)
    ensures !Releases(w0, schedule, n, o)
  {
    hide WorldOk, Next;
    var between := schedule[m + 1..n];
    assert schedule[..n] == schedule[..m + 1] + between;
    RunSplit(w0, schedule[..m + 1], between);
    RunKeeps(w0, schedule[..m + 1]);
    RunEvolves(Run(w0, schedule[..m + 1]), between);
    assert OrderPath(Run(w0, schedule[..m + 1]).db.orders[o].status, Run(w0, schedule[..n]).db.orders[o].status);
  }

  ghost predicate SameInventory(db: Db, db2: Db) {
    db2.stock == db.stock && db2.holds == db.holds && db2.orders == db.orders
  }

  /** The counters got the order's general-admission places back, tier by tier, its bound holds are gone, and
      no other order moved. */
  ghost predicate GaveBack(db: Db, db2: Db, o: nat)
    requires o < |db.orders|
  {
    && db2.stock == GiveGaItems(db.stock, db.tiers, db.orders[o].items)
    && db2.holds == db.holds - Bound(db.holds, o)
    && |db2.orders| == |db.orders|
    && forall q | 0 <= q < |db.orders| && q != o :: db2.orders[q] == db.orders[q]
  }

  /** The steps that may release order `o`: its expiry job or reconciler, the request that created it, and the
      webhook of its failed payment. */
  ghost predicate OnBehalf(w: World, a: Action, o: nat) {
    || a == ExpireOrder(o) || a == AbortCheckout(o)
    || (a.Handle? && a.delivery < |w.deliveries| && w.deliveries[a.delivery].event < |w.vendor.events|
        && FailsPaymentOf(w.db.payments, w.vendor.events[w.deliveries[a.delivery].event], o))
  }

  ghost predicate FailsPaymentOf(payments: seq<Payment>, e: VendorEvent, o: nat) {
    && e.FailedEvent? && PaymentByIntent(payments, e.intent).Some?
    && payments[PaymentByIntent(payments, e.intent).value].order == o
  }

  lemma ReleaseGivesBack(db: Db, o: nat, final: OrderStatus)
    requires o < |db.orders| && IsUnfulfillableStatus(final)
    ensures var after := Release(db, o, final);
      if Released(db, after, o) then GaveBack(db, after, o) else SameInventory(db, after)
  {
  }

  /** A step on the order's behalf gives its inventory back exactly when it releases it, and otherwise moves
      nothing. */
  lemma BehalfGivesBack(w: World, a: Action, o: nat)
    requires o < |w.db.orders| && OnBehalf(w, a, o)
    ensures var after := Next(w, a).db;
      if Released(w.db, after, o) then GaveBack(w.db, after, o) else SameInventory(w.db, after)
  {
    StepFamily(w, a);
    hide Next, Release, GaveBack, HandleSucceeded, HandleRefunded;
    if a.ExpireOrder? {
      ReleaseGivesBack(w.db, o, Expired);
    } else if a.AbortCheckout? {
      ReleaseGivesBack(w.db, o, Canceled);
    } else {
      FailureGivesBack(w.db, w.vendor.events[w.deliveries[a.delivery].event].intent, o);
    }
  }

  lemma FailureGivesBack(db: Db, i: nat, o: nat)
    requires o < |db.orders| && FailsPaymentOf(db.payments, FailedEvent(i), o)
    ensures var after := HandleFailed(db, i);
      if Released(db, after, o) then GaveBack(db, after, o) else SameInventory(db, after)
  {
    ReleaseGivesBack(SetPayment(db, i, Declined), o, Canceled);
  }

  /** Nothing else releases an order. */
  lemma OnlyOnBehalf(w: World, a: Action, o: nat)
    requires Released(w.db, Next(w, a).db, o)
    ensures OnBehalf(w, a, o)
  {
    hide Next, NextOrders, NextWebhooks, NextRefunds;
    StepFamily(w, a);
    if OfCatalog(a) {
      CatalogFrame(w, a);
    } else if OfHolds(a) {
      HoldsFrame(w, a);
    } else if OfOrders(a) {
      OrdersRelease(w, a, o);
    } else if OfWebhooks(a) {
      WebhooksRelease(w, a, o);
    } else if OfRefunds(a) {
      RefundsRelease(w, a, o);
    }
  }

  /** The step releases order `o` only on its behalf. */
  ghost predicate Warranted(w: World, w2: World, a: Action, o: nat) {
    Released(w.db, w2.db, o) ==> OnBehalf(w, a, o)
  }

  lemma OrdersRelease(w: World, a: Action, o: nat)
    requires OfOrders(a)
    ensures Warranted(w, NextOrders(w, a), a, o)
  {
    hide DraftOrder, CommitOutcomeOf, VendorCreate, GiveGaItems, Bound;
  }

  lemma WebhooksRelease(w: World, a: Action, o: nat)
    requires OfWebhooks(a)
    ensures Warranted(w, NextWebhooks(w, a), a, o)
  {
    hide VendorResolve, CompensationAccepted, GiveGaItems, Bound, Settle;
    if a.Handle? && a.delivery < |w.deliveries| && w.deliveries[a.delivery].event < |w.vendor.events| {
      var e := w.vendor.events[w.deliveries[a.delivery].event];
      if e.RefundedEvent? && e.reference.Some? && e.reference.value < |w.db.refunds| {
        var x := w.db.refunds[e.reference.value];
        SettleReleasesNone(w.db.(refunds := w.db.refunds[e.reference.value := x.(status := Settled, providerRefund := Some(e.refundId))]),
                           x.order, x.amount, o);
      }
    }
  }

  lemma SettleReleasesNone(db: Db, q: nat, amount: int, o: nat)
    ensures !Released(db, Settle(db, q, amount), o)
  {
  }

  lemma RefundsRelease(w: World, a: Action, o: nat)
    requires OfRefunds(a)
    ensures Warranted(w, NextRefunds(w, a), a, o)
  {
    hide DraftRefund, CommitRefund, VendorRefund;
    if a.DoCommitRefund? && a.draft < |w.refundDrafts| && o < |w.db.orders| {
      CommitRefundEdge(w.db, w.refundDrafts[a.draft], o);
      if w.db.orders[o].status == AwaitingPayment {
        Whole.CommitRefundAwaiting(w.db, w.refundDrafts[a.draft], o);
      }
    }
  }

  /** Step `n` of the schedule acts on the order's behalf and moves counters, holds or orders. */
  ghost predicate GivesBack(w0: World, schedule: seq<Action>, n: nat, o: nat) {
    && n < |schedule| && o < |Run(w0, schedule[..n]).db.orders| && OnBehalf(Run(w0, schedule[..n]), schedule[n], o)
    && !SameInventory(Run(w0, schedule[..n]).db, Run(w0, schedule[..n + 1]).db)
  }

  lemma GivesBackIffReleases(w0: World, schedule: seq<Action>, n: nat, o: nat)
    ensures GivesBack(w0, schedule, n, o) <==> Releases(w0, schedule, n, o)
    ensures Releases(w0, schedule, n, o) ==> GaveBack(Run(w0, schedule[..n]).db, Run(w0, schedule[..n + 1]).db, o)
  {
    hide Next, OnBehalf, GaveBack;
    if n < |schedule| {
      RunStep(w0, schedule, n);
      var w := Run(w0, schedule[..n]);
      if OnBehalf(w, schedule[n], o) && o < |w.db.orders| {
        BehalfGivesBack(w, schedule[n], o);
      }
      if Releases(w0, schedule, n, o) {
        OnlyOnBehalf(w, schedule[n], o);
        BehalfGivesBack(w, schedule[n], o);
      }
    }
  }

  /** However the expiry job, the reconciler, an aborted checkout and the failure webhook interleave, an unpaid
      order gives its inventory back at most once: at its release the counters gain exactly its
      general-admission places and its bound holds go, and no other step on its behalf moves anything. */
  lemma ReleasedAtMostOnce(w0: World, schedule: seq<Action>, o: nat, m: nat, n: nat)
    requires Reachable(w0) && GivesBack(w0, schedule, m, o) && GivesBack(w0, schedule, n, o)
    ensures m == n && Releases(w0, schedule, n, o)
    ensures GaveBack(Run(w0, schedule[..n]).db, Run(w0, schedule[..n + 1]).db, o)
  {
    hide GivesBack, Releases, GaveBack, Reachable, Run;
    GivesBackIffReleases(w0, schedule, m, o);
    GivesBackIffReleases(w0, schedule, n, o);
    OneRelease(w0, schedule, o, m, n);
  }

  // ---- one admission per ticket ----

  /** At step `n` of the schedule a scan for its event found ticket `k` issued: the scan that is answered with
      admission. */
  ghost predicate Admits(w0: World, schedule: seq<Action>, n: nat, k: nat) {
    && n < |schedule| && schedule[n].DoCheckIn? && schedule[n].ticket == k
    && var db := Run(w0, schedule[..n]).db;
    && k < |db.tickets| && db.tickets[k].status == Issued
    && db.tickets[k].tier < |db.tiers| && db.tiers[db.tickets[k].tier].event == schedule[n].event
  }

  /** The scan that admits leaves the ticket checked in. */
  lemma ScanAdmits(w: World, event: nat, k: nat)
    requires k < |w.db.tickets| && w.db.tickets[k].status == Issued
    requires w.db.tickets[k].tier < |w.db.tiers| && w.db.tiers[w.db.tickets[k].tier].event == event
    ensures var after := Next(w, DoCheckIn(event, k)).db;
      after == w.db.(tickets := w.db.tickets[k := w.db.tickets[k].(status := CheckedIn)])
  {
    StepFamily(w, DoCheckIn(event, k));
    hide Next;
  }

  lemma NoLaterAdmission(w0: World, schedule: seq<Action>, k: nat, m: nat, n: nat)
    requires WorldOk(w0) && m < n < |schedule| && Admits(w0, schedule, m, k)
    ensures !Admits(w0, schedule, n, k)
  {
    hide WorldOk, Next;
    RunStep(w0, schedule, m);
    RunStep(w0, schedule, n);
    ScanAdmits(Run(w0, schedule[..m]), schedule[m].event, k);
    var between := schedule[m + 1..n];
    assert schedule[..n] == schedule[..m + 1] + between;
    RunSplit(w0, schedule[..m + 1], between);
    RunKeeps(w0, schedule[..m + 1]);
    RunEvolves(Run(w0, schedule[..m + 1]), between);
    var before, after := Run(w0, schedule[..m + 1]).db.tickets, Run(w0, schedule[..n]).db.tickets;
    assert TicketEdge(before[k].status, after[k].status);
  }

  /** Whatever happens around the door, a ticket is admitted at most once. */
  lemma AdmittedAtMostOnce(w0: World, schedule: seq<Action>, k: nat, m: nat, n: nat)
    requires Reachable(w0) && Admits(w0, schedule, m, k) && Admits(w0, schedule, n, k)
    ensures m == n
  {
    ReachableOk(w0);
    if m < n {
      NoLaterAdmission(w0, schedule, k, m, n);
    } else if n < m {
      NoLaterAdmission(w0, schedule, k, n, m);
    }
  }
}
