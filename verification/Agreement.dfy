/** What the API and the vendor agree on in every reachable world: who was told what, which refund bears which of
    the vendor's ids, which webhooks are marked processed. */
module Agreement {
  import opened Tables
  import opened Transactions
  import opened Protocol
  import opened Frames
  import opened Steps
  import opened OrderAnswers
  import opened MoneyAnswers
  import opened PaymockStore
  import PaymentsService

  /** A step asks the vendor for one thing at most. */
  ghost predicate VendorMoves(v: Vendor, v2: Vendor) {
    || v2 == v
    || v2 == v.(events := v.events + [UnknownEvent])
    || (exists order, amount :: v2 == VendorCreate(v, order, amount))
    || (exists i, ok :: v2 == VendorResolve(v, i, ok))
    || (exists i, reference, amount :: v2 == VendorRefund(v, i, reference, amount))
  }

  lemma StepAsksVendor(w: World, a: Action)
    ensures VendorMoves(w.vendor, Next(w, a).vendor)
  {
    StepFamily(w, a);
    hide Next, NextHolds, CheckIn, CommitOrder, Release, CommitRefund, DraftOrder, DraftRefund, CommitOutcomeOf,
         HandleDelivery, Compensate, CompensationAccepted, VendorRefund, VendorCreate, VendorResolve, AddPayment, RefundCommits;
    if OfCatalog(a) {
      CatalogFrame(w, a);
    } else if OfHolds(a) {
      HoldsFrame(w, a);
    } else if a.Handle? {
      HandleAsksNothing(w, a.delivery);
    }
  }

  lemma HandleAsksNothing(w: World, d: nat)
    ensures HandleDelivery(w, d).vendor == w.vendor
  {
    hide HandleSucceeded, HandleFailed, HandleRefunded, SucceededOutcomeOf;
  }

  lemma StrayAnnouncing(v: Vendor)
    requires Announcing(v)
    ensures Announcing(v.(events := v.events + [UnknownEvent]))
  {
    ToldNext(v.events, UnknownEvent);
    hide Told, ToldRef;
  }

  lemma VendorAnnouncing(v: Vendor, v2: Vendor)
    requires Announcing(v) && VendorMoves(v, v2)
    ensures Announcing(v2)
    ensures forall r | r in v.refs :: r in v2.refs && v2.refs[r] == v.refs[r]
  {
    hide Announcing;
    if order, amount :| v2 == VendorCreate(v, order, amount) {
      CreatedAnnouncing(v, order, amount);
    } else if i, ok :| v2 == VendorResolve(v, i, ok) {
      ConfirmedAnnouncing(v, i, ok);
    } else if i, reference, amount :| v2 == VendorRefund(v, i, reference, amount) {
      RefundedAnnouncing(v, i, reference, amount);
    } else if v2 != v {
      StrayAnnouncing(v);
    }
  }

  // ---- refund ids ----

  /** A refund bears a vendor's id only if the vendor honoured its reference under that id, and has one once
      money came back for it. */
  ghost predicate RefundAgrees(refs: map<nat, nat>, r: nat, row: Refund) {
    && (row.providerRefund.Some? ==> r in refs && refs[r] == row.providerRefund.value)
    && (row.status == Settled && row.amount != 0 ==> row.providerRefund.Some?)
  }

  ghost predicate IdsAgree(refunds: seq<Refund>, refs: map<nat, nat>) {
    forall r | 0 <= r < |refunds| :: RefundAgrees(refs, r, refunds[r])
  }

  lemma RefsGrow(refunds: seq<Refund>, refs: map<nat, nat>, refs2: map<nat, nat>)
    requires IdsAgree(refunds, refs) && forall r | r in refs :: r in refs2 && refs2[r] == refs[r]
    ensures IdsAgree(refunds, refs2)
  {
  }

  /** At most one refund row is added or rewritten, and it agrees. */
  ghost predicate OneRow(refunds: seq<Refund>, refunds2: seq<Refund>, refs: map<nat, nat>) {
    || refunds2 == refunds
    || (|refunds2| == |refunds| + 1 && refunds <= refunds2 && RefundAgrees(refs, |refunds|, refunds2[|refunds|]))
    || (|refunds2| == |refunds|
        && exists r :: 0 <= r < |refunds| && refunds2 == refunds[r := refunds2[r]] && RefundAgrees(refs, r, refunds2[r]))
  }

  lemma OneRowAgrees(refunds: seq<Refund>, refunds2: seq<Refund>, refs: map<nat, nat>)
    requires IdsAgree(refunds, refs) && OneRow(refunds, refunds2, refs)
    ensures IdsAgree(refunds2, refs)
  {
    hide RefundAgrees;
  }

  lemma HandleAgrees(w: World, d: nat)
    requires IdsAgree(w.db.refunds, w.vendor.refs) && Announcing(w.vendor)
    ensures OneRow(w.db.refunds, HandleDelivery(w, d).db.refunds, w.vendor.refs)
  {
    hide HandleRefunded, SucceededOutcomeOf, PayOff, Release;
    if d < |w.deliveries| && w.deliveries[d].event < |w.vendor.events| {
      var e := w.vendor.events[w.deliveries[d].event];
      if e.RefundedEvent? {
        RefundAnswered(w.db, e.reference, e.refundId);
        RefundedAgrees(w.db, HandleRefunded(w.db, e.reference, e.refundId), e.reference, e.refundId, w.vendor.refs);
      } else {
        PaymentsKeepRefunds(w.db, e);
      }
    }
  }

  lemma RefundedAgrees(db: Db, db2: Db, reference: Option<nat>, id: nat, refs: map<nat, nat>)
    requires RowsRefunded(db, db2, reference, id) && IdsAgree(db.refunds, refs)
    requires reference.Some? ==> reference.value in refs && refs[reference.value] == id
    ensures OneRow(db.refunds, db2.refunds, refs)
  {
    if db2 != db {
      var r := reference.value;
      assert db2.refunds == db.refunds[r := db2.refunds[r]];
      assert RefundAgrees(refs, r, db2.refunds[r]);
    }
  }

  lemma PaymentsKeepRefunds(db: Db, e: VendorEvent)
    ensures e.SucceededEvent? ==> HandleSucceeded(db, e.intent).refunds == db.refunds
    ensures e.FailedEvent? ==> HandleFailed(db, e.intent).refunds == db.refunds
  {
  }

  lemma RefundsAgree(w: World, a: Action)
    requires OfRefunds(a) && IdsAgree(w.db.refunds, w.vendor.refs)
    ensures OneRow(w.db.refunds, NextRefunds(w, a).db.refunds, w.vendor.refs)
  {
    hide CommitRefund, RefundCommits, DraftRefund, VendorRefund;
    var after := NextRefunds(w, a).db.refunds;
    if a.DoCommitRefund? {
      if a.draft < |w.refundDrafts| {
        RefundMade(w.db, w.refundDrafts[a.draft]);
        hide RowsReclaimed, Refundable, RowsSettled;
      }
    } else if after != w.db.refunds {
      var r := if a.RetryRefund? then a.refund else w.legs[a.leg].refund;
      assert RefundAgrees(w.vendor.refs, r, w.db.refunds[r]);
      assert after == w.db.refunds[r := after[r]] && RefundAgrees(w.vendor.refs, r, after[r]);
    }
  }

  lemma RestAgrees(w: World, a: Action)
    requires !OfRefunds(a) && !a.Handle?
    ensures OneRow(w.db.refunds, Next(w, a).db.refunds, w.vendor.refs)
  {
    StepFamily(w, a);
    hide Next, NextHolds, CommitOrder, Release, DraftOrder, CommitOutcomeOf, CompensationAccepted, VendorCreate, VendorResolve,
         HandleDelivery;
    if OfCatalog(a) {
      CatalogFrame(w, a);
    } else if OfHolds(a) {
      HoldsFrame(w, a);
    } else if a.DoCommitOrder? {
      if a.draft < |w.orderDrafts| { CommitKeepsRefunds(w.db, w.orderDrafts[a.draft]); }
    } else if a.AbortCheckout? {
      ReleaseKeepsRows(w.db, a.order, Canceled);
    } else if a.ExpireOrder? {
      ReleaseKeepsRows(w.db, a.order, Expired);
    }
  }

  lemma CommitKeepsRefunds(db: Db, d: OrderDraft)
    ensures CommitOrder(db, d).refunds == db.refunds && CommitOrder(db, d).webhooks == db.webhooks
  {
  }

  lemma ReleaseKeepsRows(db: Db, o: nat, final: OrderStatus)
    ensures Release(db, o, final).refunds == db.refunds && Release(db, o, final).webhooks == db.webhooks
  {
  }

  ghost predicate Agrees(w: World) {
    Announcing(w.vendor) && IdsAgree(w.db.refunds, w.vendor.refs)
  }

  lemma StepAgrees(w: World, a: Action)
    requires Agrees(w)
    ensures Agrees(Next(w, a))
  {
    hide Announcing, IdsAgree, OneRow, VendorMoves, Next, NextRefunds, NextWebhooks, HandleDelivery;
    StepFamily(w, a);
    StepAsksVendor(w, a);
    VendorAnnouncing(w.vendor, Next(w, a).vendor);
    if a.Handle? {
      HandleAgrees(w, a.delivery);
      assert Next(w, a) == HandleDelivery(w, a.delivery) by { HandleIsStep(w, a.delivery); }
    } else if OfRefunds(a) {
      RefundsAgree(w, a);
    } else {
      RestAgrees(w, a);
    }
    OneRowAgrees(w.db.refunds, Next(w, a).db.refunds, w.vendor.refs);
    RefsGrow(Next(w, a).db.refunds, w.vendor.refs, Next(w, a).vendor.refs);
  }

  lemma HandleIsStep(w: World, d: nat)
    ensures Next(w, Handle(d)) == HandleDelivery(w, d)
  {
    hide HandleDelivery;
  }

  lemma {:induction false} RunAgrees(w: World, schedule: seq<Action>)
    requires Agrees(w)
    ensures Agrees(Run(w, schedule))
  {
    hide Next, Agrees;
    if schedule != [] {
      var m := |schedule| - 1;
      RunAgrees(w, schedule[..m]);
      StepAgrees(Run(w, schedule[..m]), schedule[m]);
    }
  }

  lemma NothingToAgree(w: World)
    requires Initial(w)
    ensures Agrees(w)
  {
    NothingToTell();
    hide Announcing;
  }

  /** In every reachable world, the stray events the vendor may also emit aside: each resolution and each refund
      of the vendor's was announced exactly once; a refund row bears a vendor id only if its reference was
      honoured under that id, and bears one once its money is booked as returned. */
  lemma BooksAgree(w: World)
    requires Reachable(w)
    ensures Announcing(w.vendor) && IdsAgree(w.db.refunds, w.vendor.refs)
  {
    hide Initial, Run, Announcing, IdsAgree;
    var w0: World, before: seq<Action> :| Initial(w0) && w == Run(w0, before);
    NothingToAgree(w0);
    RunAgrees(w0, before);
  }

  // ---- webhook marks ----

  ghost predicate SomeDelivery(deliveries: seq<Delivery>, e: nat) {
    exists d :: 0 <= d < |deliveries| && deliveries[d].event == e
  }

  ghost predicate SomeAcknowledged(deliveries: seq<Delivery>, e: nat) {
    exists d :: 0 <= d < |deliveries| && deliveries[d].event == e && deliveries[d].stage == Acknowledged
  }

  /** An event is on record exactly when it was delivered, and marked processed exactly when some delivery of it
      ran to the end. */
  ghost predicate MarksTell(webhooks: map<nat, bool>, deliveries: seq<Delivery>) {
    && (forall e: nat :: e in webhooks <==> SomeDelivery(deliveries, e))
    && (forall e: nat :: e in webhooks && webhooks[e] <==> SomeAcknowledged(deliveries, e))
  }

  ghost predicate Arrives(w: World, w2: World, e: nat) {
    && !(e in w.db.webhooks && w.db.webhooks[e])
    && w2.db.webhooks == w.db.webhooks[e := false] && w2.deliveries == w.deliveries + [Delivery(e, Received)]
  }

  ghost predicate Advances(w: World, w2: World, d: nat, stage: Stage) {
    && d < |w.deliveries| && w.deliveries[d].stage != Acknowledged
    && w2.deliveries == w.deliveries[d := w.deliveries[d].(stage := stage)]
    && w2.db.webhooks == if stage == Acknowledged then w.db.webhooks[w.deliveries[d].event := true] else w.db.webhooks
  }

  /** What one step may do to the record of webhooks and their deliveries: nothing, one arrival, one stage. */
  ghost predicate DeliveryMoves(w: World, w2: World) {
    || (w2.db.webhooks == w.db.webhooks && w2.deliveries == w.deliveries)
    || (exists e: nat :: Arrives(w, w2, e))
    || (exists d: nat, stage: Stage :: Advances(w, w2, d, stage))
  }

  lemma HandleDelivers(w: World, d: nat)
    ensures DeliveryMoves(w, HandleDelivery(w, d))
  {
    hide HandleSucceeded, HandleFailed, HandleRefunded, SucceededOutcomeOf;
    if d < |w.deliveries| && w.deliveries[d].event < |w.vendor.events| {
      PaymentsService.EffectKeepsMarks(w.db, w.vendor.events[w.deliveries[d].event]);
      var w2 := HandleDelivery(w, d);
      if w.deliveries[d].stage == Received {
        assert Advances(w, w2, d, w2.deliveries[d].stage);
      }
    }
  }

  lemma WebhooksDeliver(w: World, a: Action)
    requires OfWebhooks(a)
    ensures DeliveryMoves(w, NextWebhooks(w, a))
  {
    hide HandleDelivery, VendorResolve, CompensationAccepted;
    if a.Handle? {
      HandleDelivers(w, a.delivery);
    } else if a.Deliver? {
      assert a.webhook in w.db.webhooks && !w.db.webhooks[a.webhook] ==> w.db.webhooks == w.db.webhooks[a.webhook := false];
      if NextWebhooks(w, a) != w {
        assert Arrives(w, NextWebhooks(w, a), a.webhook);
      }
    } else if a.DoCompensate? || a.MarkProcessed? {
      if NextWebhooks(w, a) != w {
        assert Advances(w, NextWebhooks(w, a), a.delivery, if a.DoCompensate? then Handled else Acknowledged);
      }
    }
  }

  lemma StepDelivers(w: World, a: Action)
    ensures DeliveryMoves(w, Next(w, a))
  {
    StepFamily(w, a);
    hide Next, NextHolds, NextWebhooks, CommitOrder, Release, DraftOrder, CommitOutcomeOf, CommitRefund, RefundCommits, DraftRefund,
         VendorCreate, VendorRefund;
    if OfCatalog(a) {
      CatalogFrame(w, a);
    } else if OfHolds(a) {
      HoldsFrame(w, a);
    } else if OfWebhooks(a) {
      WebhooksDeliver(w, a);
    } else if a.DoCommitOrder? {
      if a.draft < |w.orderDrafts| { CommitKeepsRefunds(w.db, w.orderDrafts[a.draft]); }
    } else if a.AbortCheckout? {
      ReleaseKeepsRows(w.db, a.order, Canceled);
    } else if a.ExpireOrder? {
      ReleaseKeepsRows(w.db, a.order, Expired);
    } else if a.DoCommitRefund? {
      if a.draft < |w.refundDrafts| {
        RefundMade(w.db, w.refundDrafts[a.draft]);
        hide RowsReclaimed, Refundable, RowsSettled;
      }
    }
  }

  lemma Appended(ds: seq<Delivery>, e: nat)
    ensures forall x: nat :: SomeDelivery(ds + [Delivery(e, Received)], x) <==> SomeDelivery(ds, x) || x == e
    ensures forall x: nat :: SomeAcknowledged(ds + [Delivery(e, Received)], x) <==> SomeAcknowledged(ds, x)
  {
    var ds2 := ds + [Delivery(e, Received)];
    assert ds2[|ds|].event == e;
    forall x: nat | SomeDelivery(ds, x) ensures SomeDelivery(ds2, x) {
      var k :| 0 <= k < |ds| && ds[k].event == x;
      assert ds2[k].event == x;
    }
    forall x: nat | SomeAcknowledged(ds, x) ensures SomeAcknowledged(ds2, x) {
      var k :| 0 <= k < |ds| && ds[k].event == x && ds[k].stage == Acknowledged;
      assert ds2[k].event == x && ds2[k].stage == Acknowledged;
    }
  }

  lemma Restaged(ds: seq<Delivery>, d: nat, stage: Stage)
    requires d < |ds| && ds[d].stage != Acknowledged
    ensures var ds2 := ds[d := ds[d].(stage := stage)];
      && (forall x: nat :: SomeDelivery(ds2, x) <==> SomeDelivery(ds, x))
      && (forall x: nat :: SomeAcknowledged(ds2, x) <==> SomeAcknowledged(ds, x) || (stage == Acknowledged && x == ds[d].event))
  {
    var ds2 := ds[d := ds[d].(stage := stage)];
    forall x: nat | SomeDelivery(ds, x) ensures SomeDelivery(ds2, x) {
      var k :| 0 <= k < |ds| && ds[k].event == x;
      assert ds2[k].event == x;
    }
    forall x: nat | SomeAcknowledged(ds, x) ensures SomeAcknowledged(ds2, x) {
      var k :| 0 <= k < |ds| && ds[k].event == x && ds[k].stage == Acknowledged;
      assert ds2[k].event == x && ds2[k].stage == Acknowledged;
    }
    assert ds2[d].event == ds[d].event && ds2[d].stage == stage;
  }

  lemma MarksStep(w: World, w2: World)
    requires MarksTell(w.db.webhooks, w.deliveries) && DeliveryMoves(w, w2)
    ensures MarksTell(w2.db.webhooks, w2.deliveries)
  {
    hide MarksTell, Arrives, Advances;
    if e: nat :| Arrives(w, w2, e) {
      ArrivalTells(w, w2, e);
    } else if d: nat, stage: Stage :| Advances(w, w2, d, stage) {
      AdvanceTells(w, w2, d, stage);
    }
  }

  lemma ArrivalTells(w: World, w2: World, e: nat)
    requires MarksTell(w.db.webhooks, w.deliveries) && Arrives(w, w2, e)
    ensures MarksTell(w2.db.webhooks, w2.deliveries)
  {
    hide SomeDelivery, SomeAcknowledged;
    Appended(w.deliveries, e);
  }

  lemma AdvanceTells(w: World, w2: World, d: nat, stage: Stage)
    requires MarksTell(w.db.webhooks, w.deliveries) && Advances(w, w2, d, stage)
    ensures MarksTell(w2.db.webhooks, w2.deliveries)
  {
    assert SomeDelivery(w.deliveries, w.deliveries[d].event);
    hide SomeDelivery, SomeAcknowledged;
    Restaged(w.deliveries, d, stage);
  }

  lemma {:induction false} MarksRun(w: World, schedule: seq<Action>)
    requires MarksTell(w.db.webhooks, w.deliveries)
    ensures MarksTell(Run(w, schedule).db.webhooks, Run(w, schedule).deliveries)
  {
    hide Next, MarksTell, DeliveryMoves;
    if schedule != [] {
      var m := |schedule| - 1;
      MarksRun(w, schedule[..m]);
      StepDelivers(Run(w, schedule[..m]), schedule[m]);
      MarksStep(Run(w, schedule[..m]), Run(w, schedule));
    }
  }

  lemma NothingMarked(w: World)
    requires Initial(w)
    ensures MarksTell(w.db.webhooks, w.deliveries)
  {
  }

  /** In every reachable world an event is on record exactly when it was delivered, and marked processed exactly
      when the handler of one of its deliveries ran to the end. */
  lemma MarkedIffHandled(w: World)
    requires Reachable(w)
    ensures MarksTell(w.db.webhooks, w.deliveries)
  {
    hide Initial, Run, MarksTell;
    var w0: World, before: seq<Action> :| Initial(w0) && w == Run(w0, before);
    NothingMarked(w0);
    MarksRun(w0, before);
  }
}
