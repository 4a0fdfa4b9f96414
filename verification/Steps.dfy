/** Every action of the protocol keeps the whole invariant, and so does every schedule. */
module Steps {
  import opened Tables
  import opened Sums
  import opened Weights
  import opened Transactions
  import opened Protocol
  import opened Frames
  import opened Invariants
  import opened InventoryCatalog
  import opened InventoryHolds
  import opened InventorySales
  import opened Drafts
  import opened Money
  import opened MoneySales
  import opened MoneySettlement
  import opened MoneyRefunds
  import opened MoneyVendor

  ghost predicate WorldOk(w: World) {
    InventoryOk(w.db) && MoneyOk(w)
  }

  lemma InitialInventory(w: World)
    requires Initial(w)
    ensures InventoryOk(w.db)
  {
  }

  lemma InitialMoney(w: World)
    requires Initial(w)
    ensures MoneyOk(w)
  {
  }

  lemma InitialOk(w: World)
    requires Initial(w)
    ensures WorldOk(w)
  {
    hide Initial, InventoryOk, MoneyOk;
    InitialInventory(w);
    InitialMoney(w);
  }

  // ---- inventory ----

  /** The inventory invariant reads no payment, refund or webhook row, no clock and no publication. */
  lemma InventoryFrame(db: Db, db2: Db)
    requires InventoryOk(db)
    requires db2 == db.(now := db2.now, published := db2.published, nextHold := db2.nextHold, payments := db2.payments,
                        refunds := db2.refunds, webhooks := db2.webhooks)
    ensures InventoryOk(db2)
  {
  }

  lemma HandleSucceededInventory(db: Db, i: nat)
    requires InventoryOk(db)
    ensures InventoryOk(HandleSucceeded(db, i))
  {
    hide InventoryOk;
    var found := PaymentByIntent(db.payments, i);
    if found.Some? && db.payments[found.value].status == RequiresAction {
      var set2 := SetPayment(db, i, Captured);
      InventoryFrame(db, set2);
      if SucceededOutcomeOf(db, i) == PaidOff {
        PayOffKeeps(set2, db.payments[found.value].order);
      }
    }
  }

  lemma HandleFailedInventory(db: Db, i: nat)
    requires InventoryOk(db)
    ensures InventoryOk(HandleFailed(db, i))
  {
    hide InventoryOk, Release;
    var found := PaymentByIntent(db.payments, i);
    if found.Some? && db.payments[found.value].status == RequiresAction {
      var set2 := SetPayment(db, i, Declined);
      InventoryFrame(db, set2);
      ReleaseKeeps(set2, db.payments[found.value].order, Canceled);
    }
  }

  lemma HandleRefundedInventory(db: Db, reference: Option<nat>, id: nat)
    requires InventoryOk(db)
    ensures InventoryOk(HandleRefunded(db, reference, id))
  {
    hide InventoryOk, Settle;
    if reference.Some? && reference.value < |db.refunds| && db.refunds[reference.value].status == Pending {
      var r := reference.value;
      var set2 := db.(refunds := db.refunds[r := db.refunds[r].(status := Settled, providerRefund := Some(id))]);
      InventoryFrame(db, set2);
      SettleKeeps(set2, db.refunds[r].order, db.refunds[r].amount);
    }
  }

  lemma HandleInventory(w: World, d: nat)
    requires WorldOk(w)
    ensures InventoryOk(HandleDelivery(w, d).db)
  {
    hide WorldOk, InventoryOk, MoneyOk, HandleSucceeded, HandleFailed, HandleRefunded, SucceededOutcomeOf;
    assert InventoryOk(w.db) by { WorldParts(w); }
    if d < |w.deliveries| && w.deliveries[d].stage == Received && w.deliveries[d].event < |w.vendor.events| {
      match w.vendor.events[w.deliveries[d].event] {
        case SucceededEvent(i) => HandleSucceededInventory(w.db, i);
        case FailedEvent(i) => HandleFailedInventory(w.db, i);
        case RefundedEvent(_, reference, id, _) => HandleRefundedInventory(w.db, reference, id);
        case UnknownEvent =>
      }
    }
  }

  lemma WorldParts(w: World)
    requires WorldOk(w)
    ensures InventoryOk(w.db) && MoneyOk(w)
  {
  }

  lemma CommitDraftInventory(w: World, n: nat)
    requires WorldOk(w)
    ensures InventoryOk(CommitDraft(w, n).db)
  {
    if n < |w.orderDrafts| {
      var d := w.orderDrafts[n];
      assert DraftOk(w.db.tiers, w.db.seats, d);
      hide InventoryOk, MoneyOk, DraftOk;
      match CommitOutcomeOf(w.db, d) {
        case Reserved(_) => ReservedKeeps(w.db, d);
        case Granted(_) => GrantedKeeps(w.db, d);
        case _ =>
      }
    }
  }

  lemma CatalogInventory(w: World, a: Action)
    requires OfCatalog(a) && InventoryOk(w.db)
    ensures InventoryOk(NextCatalog(w, a).db)
  {
    hide InventoryOk, AddTier, AddSections, EditTier;
    if a.DoAddTier? {
      AddTierKeeps(w.db, a.event, a.price, a.quantity, a.maxPerOrder);
    } else if a.DoAddSeatMap? {
      AddSectionsKeeps(w.db, a.event, a.sections);
    } else if a.DoEditTier? {
      EditTierKeeps(w.db, a.event, a.tier, a.newQuantity, a.newMax);
    } else {
      InventoryFrame(w.db, NextCatalog(w, a).db);
    }
  }

  lemma HoldsInventory(w: World, a: Action)
    requires OfHolds(a) && InventoryOk(w.db)
    ensures InventoryOk(NextHolds(w, a).db)
  {
    hide InventoryOk, Acquire, Refresh, ReleaseHold, Sweep;
    if a.DoAcquire? {
      AcquireKeeps(w.db, a.event, a.seat, a.holder, a.expiresAt);
    } else if a.DoRefresh? {
      RefreshKeeps(w.db, a.seat, a.hold, a.holder, a.expiresAt);
    } else if a.DoReleaseHold? {
      ReleaseHoldKeeps(w.db, a.event, a.seat, a.holder);
    } else {
      SweepKeeps(w.db);
    }
  }

  lemma OrdersInventory(w: World, a: Action)
    requires OfOrders(a) && WorldOk(w)
    ensures InventoryOk(NextOrders(w, a).db)
  {
    WorldParts(w);
    hide WorldOk, InventoryOk, CommitDraft, Release, DraftOrder, VendorCreate;
    if a.DoCommitOrder? {
      CommitDraftInventory(w, a.draft);
    } else if a.AbortCheckout? {
      ReleaseKeeps(w.db, a.order, Canceled);
    } else if a.ExpireOrder? {
      ReleaseKeeps(w.db, a.order, Expired);
    } else {
      InventoryFrame(w.db, NextOrders(w, a).db);
    }
  }

  lemma WebhooksInventory(w: World, a: Action)
    requires OfWebhooks(a) && WorldOk(w)
    ensures InventoryOk(NextWebhooks(w, a).db)
  {
    WorldParts(w);
    hide WorldOk, InventoryOk, HandleDelivery, VendorResolve, CompensationAccepted;
    if a.Handle? {
      HandleInventory(w, a.delivery);
    } else {
      InventoryFrame(w.db, NextWebhooks(w, a).db);
    }
  }

  lemma RefundsInventory(w: World, a: Action)
    requires OfRefunds(a) && InventoryOk(w.db)
    ensures InventoryOk(NextRefunds(w, a).db)
  {
    hide InventoryOk, CommitRefund, DraftRefund, VendorRefund;
    if a.DoCommitRefund? {
      if a.draft < |w.refundDrafts| {
        CommitRefundKeeps(w.db, w.refundDrafts[a.draft]);
      }
    } else {
      InventoryFrame(w.db, NextRefunds(w, a).db);
    }
  }

  lemma InventoryStep(w: World, a: Action)
    requires WorldOk(w)
    ensures InventoryOk(Next(w, a).db)
  {
    WorldParts(w);
    StepFamily(w, a);
    hide WorldOk, InventoryOk, Next, NextCatalog, NextHolds, NextOrders, NextWebhooks, NextRefunds, CheckIn;
    if OfCatalog(a) {
      CatalogInventory(w, a);
    } else if OfHolds(a) {
      HoldsInventory(w, a);
    } else if OfOrders(a) {
      OrdersInventory(w, a);
    } else if OfWebhooks(a) {
      WebhooksInventory(w, a);
    } else if OfRefunds(a) {
      RefundsInventory(w, a);
    } else {
      CheckInKeeps(w.db, a.event, a.ticket);
    }
  }

  // ---- money ----

  lemma GrownMoney(w: World, db2: Db)
    requires MoneyOk(w) && Grown(w.db.tiers, w.db.seats, db2.tiers, db2.seats)
    requires db2 == w.db.(tiers := db2.tiers, stock := db2.stock, seats := db2.seats)
    ensures MoneyOk(w.(db := db2))
  {
    hide PaymentsOk, IntentsOk, PaidOrdersOk, EventsOk, RefundsOk, AccountsOk, CustodyOk, OwingOk, LegsOk, BooksOk,
         SettledOk, RefundDraftsOk, DraftOk;
    forall n | 0 <= n < |w.orderDrafts| ensures DraftOk(db2.tiers, db2.seats, w.orderDrafts[n]) {
      DraftGrown(w.db.tiers, w.db.seats, db2.tiers, db2.seats, w.orderDrafts[n]);
    }
  }

  /** The money invariant reads no stock, hold, feed, clock, publication or webhook row. */
  lemma MoneyFrame(w: World, db2: Db)
    requires MoneyOk(w)
    requires db2 == w.db.(now := db2.now, published := db2.published, stock := db2.stock, holds := db2.holds,
                          nextHold := db2.nextHold, feed := db2.feed, webhooks := db2.webhooks)
    ensures MoneyOk(w.(db := db2))
  {
  }

  lemma StrayMoney(w: World)
    requires MoneyOk(w)
    ensures MoneyOk(Next(w, StrayEvent))
  {
    hide PaymentsOk, IntentsOk, PaidOrdersOk, RefundsOk, AccountsOk, CustodyOk, OwingOk, LegsOk, BooksOk,
         SettledOk, RefundDraftsOk, OrderDraftsOk;
  }

  lemma ReadOrderMoney(w: World, r: OrderRequest)
    requires InventoryOk(w.db) && MoneyOk(w)
    ensures MoneyOk(Next(w, ReadOrder(r)))
  {
    hide PaymentsOk, IntentsOk, PaidOrdersOk, EventsOk, RefundsOk, AccountsOk, CustodyOk, OwingOk, LegsOk, BooksOk,
         SettledOk, RefundDraftsOk, DraftOk, DraftOrder, CatalogOk, HoldsOk, TicketsOk, FeedOk;
    if DraftOrder(w.db, r).Some? {
      DraftOrderOk(w.db, r);
    }
  }

  lemma HandleMoney(w: World, d: nat)
    requires InventoryOk(w.db) && MoneyOk(w)
    ensures MoneyOk(HandleDelivery(w, d))
  {
    hide InventoryOk, PaymentsOk, IntentsOk, PaidOrdersOk, RefundsOk, AccountsOk, CustodyOk, OwingOk, LegsOk, BooksOk,
         SettledOk, RefundDraftsOk, OrderDraftsOk, HandleSucceeded, HandleFailed, HandleRefunded,
         SucceededOutcomeOf;
    if d < |w.deliveries| && w.deliveries[d].stage == Received && w.deliveries[d].event < |w.vendor.events| {
      var e := w.vendor.events[w.deliveries[d].event];
      assert EventOk(w.vendor.intents, w.vendor.refs, e);
      hide MoneyOk, EventsOk;
      match e {
        case SucceededEvent(i) => HandleSucceededMoney(w, i, d);
        case FailedEvent(i) =>
          HandleFailedMoney(w, i);
          QuietMoney(w.(db := HandleFailed(w.db, i)), d, Handled);
        case RefundedEvent(_, reference, id, _) =>
          HandleRefundedMoney(w, reference, id);
          QuietMoney(w.(db := HandleRefunded(w.db, reference, id)), d, Handled);
        case UnknownEvent => QuietMoney(w, d, Handled);
      }
    }
  }

  lemma MarkMoney(w: World, d: nat)
    requires MoneyOk(w)
    ensures MoneyOk(MarkDelivery(w, d))
  {
    hide MoneyOk;
    if d < |w.deliveries| && w.deliveries[d].stage == Handled {
      QuietMoney(w, d, Acknowledged);
      var marked := w.(deliveries := SetStage(w, d, Acknowledged));
      MoneyFrame(marked, marked.db.(webhooks := w.db.webhooks[w.deliveries[d].event := true]));
    }
  }

  lemma CatalogMoney(w: World, a: Action)
    requires OfCatalog(a) && MoneyOk(w)
    ensures MoneyOk(Next(w, a))
  {
    hide MoneyOk, Next;
    CatalogFrame(w, a);
    var after := Next(w, a).db;
    var grown := w.(db := w.db.(tiers := after.tiers, stock := after.stock, seats := after.seats));
    GrownMoney(w, grown.db);
    MoneyFrame(grown, after);
  }

  lemma ReturnMoney(w: World, o: nat)
    requires MoneyOk(w)
    ensures MoneyOk(w.(checkouts := w.checkouts - {o}))
  {
  }

  lemma OrdersMoney(w: World, a: Action)
    requires OfOrders(a) && WorldOk(w)
    ensures MoneyOk(Next(w, a))
  {
    WorldParts(w);
    StepFamily(w, a);
    hide WorldOk, InventoryOk, MoneyOk, Next, CommitDraft, Release, DraftOrder, VendorCreate;
    if a.ReadOrder? {
      ReadOrderMoney(w, a.request);
    } else if a.DoCommitOrder? {
      CommitDraftMoney(w, a.draft);
    } else if a.OpenIntent? {
      OpenIntentMoney(w, a.order);
    } else if a.RecordPayment? {
      RecordPaymentMoney(w, a.order, a.intent);
    } else if a.ReturnCheckout? {
      ReturnMoney(w, a.order);
    } else if a.AbortCheckout? {
      ReleaseMoney(w, a.order, Canceled, w.checkouts - {a.order});
    } else {
      ReleaseMoney(w, a.order, Expired, w.checkouts);
    }
  }

  lemma WebhooksMoney(w: World, a: Action)
    requires OfWebhooks(a) && WorldOk(w)
    ensures MoneyOk(Next(w, a))
  {
    WorldParts(w);
    StepFamily(w, a);
    hide WorldOk, InventoryOk, MoneyOk, Next, HandleDelivery, CompensateDelivery, MarkDelivery, RecordDelivery, VendorResolve;
    if a.Confirm? {
      ConfirmMoney(w, a.intent, a.ok);
    } else if a.StrayEvent? {
      StrayMoney(w);
    } else if a.Deliver? {
      ReceivedMoney(w, a.webhook);
    } else if a.Handle? {
      HandleMoney(w, a.delivery);
    } else if a.DoCompensate? {
      CompensateMoney(w, a.delivery);
    } else {
      MarkMoney(w, a.delivery);
    }
  }

  lemma RefundsMoney(w: World, a: Action)
    requires OfRefunds(a) && WorldOk(w)
    ensures MoneyOk(Next(w, a))
  {
    WorldParts(w);
    StepFamily(w, a);
    hide WorldOk, InventoryOk, MoneyOk, Next, CommitRefundDraft, DraftRefund, Retry, VendorRefund, SetProviderRefund,
         SetRefundStatus;
    if a.ReadRefund? {
      ReadRefundMoney(w, a.event, a.order, a.ids, a.key);
    } else if a.DoCommitRefund? {
      CommitRefundMoney(w, a.draft);
    } else if a.RetryRefund? {
      RetryMoney(w, a.refund);
    } else if a.LegArrives? {
      LegArrivesMoney(w, a.leg);
    } else if a.LegAnswered? {
      LegAnsweredMoney(w, a.leg);
    } else {
      LegFailsMoney(w, a.leg);
    }
  }

  lemma MoneyStep(w: World, a: Action)
    requires WorldOk(w)
    ensures MoneyOk(Next(w, a))
  {
    WorldParts(w);
    StepFamily(w, a);
    hide WorldOk, InventoryOk, MoneyOk, Next, NextHolds, NextOrders, NextWebhooks, NextRefunds, CheckIn;
    if OfCatalog(a) {
      CatalogMoney(w, a);
    } else if OfHolds(a) {
      HoldsFrame(w, a);
      MoneyFrame(w, Next(w, a).db);
    } else if OfOrders(a) {
      OrdersMoney(w, a);
    } else if OfWebhooks(a) {
      WebhooksMoney(w, a);
    } else if OfRefunds(a) {
      RefundsMoney(w, a);
    } else {
      CheckInMoney(w, a.event, a.ticket);
    }
  }

  // ---- schedules ----

  lemma StepKeeps(w: World, a: Action)
    requires WorldOk(w)
    ensures WorldOk(Next(w, a))
  {
    hide Next;
    InventoryStep(w, a);
    MoneyStep(w, a);
  }

  lemma {:induction false} RunKeeps(w: World, schedule: seq<Action>)
    requires WorldOk(w)
    ensures WorldOk(Run(w, schedule))
  {
    hide Next, WorldOk;
    if schedule != [] {
      RunKeeps(w, schedule[..|schedule| - 1]);
      StepKeeps(Run(w, schedule[..|schedule| - 1]), schedule[|schedule| - 1]);
    }
  }

  /** Every reachable world satisfies the whole invariant. */
  lemma ReachableOk(w: World)
    requires Reachable(w)
    ensures WorldOk(w)
  {
    hide Next, WorldOk;
    var w0: World, schedule: seq<Action> :| Initial(w0) && w == Run(w0, schedule);
    InitialOk(w0);
    RunKeeps(w0, schedule);
  }
}
