/** What a paid order gets: everything it bought, less exactly the seats whose holds were taken from it. */
module Whole {
  import opened Tables
  import opened Sums
  import opened Weights
  import opened Issuing
  import opened Transactions
  import opened Protocol
  import opened Frames
  import opened Invariants
  import opened InventorySales
  import opened Drafts
  import opened Money
  import opened Steps
  import opened Evolution

  /** The places of tier `t` order `o` has: its issued tickets, or while it awaits payment its general admission,
      which is reserved on the counter, and the seats whose holds are bound to it. */
  ghost function Places(db: Db, o: nat, t: nat): int
    requires o < |db.orders|
  {
    if db.orders[o].status != AwaitingPayment then MintedCount(db.tickets, o, t)
    else if IsGa(db.tiers, t) then QtyOf(db.orders[o].items, t)
    else SeatCount(db.seats, Bound(db.holds, o), t)
  }

  /** The order has everything it bought, or has been released. */
  ghost predicate WholeOrder(db: Db, o: nat) {
    o < |db.orders| &&
    (IsUnfulfillableStatus(db.orders[o].status) || forall t: nat :: Places(db, o, t) == QtyOf(db.orders[o].items, t))
  }

  /** The seats whose holds the action takes away from order `o`: an expired hold taken over by another buyer,
      or holds rebound or consumed by another order of the same holder. */
  ghost function TakenFrom(w: World, a: Action, o: nat): set<nat> {
    match a
    case DoAcquire(e, s, _, _) =>
      if s in Bound(w.db.holds, o) && AcquireOutcomeOf(w.db, e, s) == Won then {s} else {}
    case DoCommitOrder(n) =>
      if n < |w.orderDrafts| && (CommitOutcomeOf(w.db, w.orderDrafts[n]).Reserved? || CommitOutcomeOf(w.db, w.orderDrafts[n]).Granted?)
      then w.orderDrafts[n].seats * Bound(w.db.holds, o) else {}
    case _ => {}
  }

  // ---- a bound hold leaves its order only when stolen or when the order closes ----

  lemma ConflictClears(db: Db, event: nat, s: nat)
    requires InventoryOk(db) && AcquireOutcomeOf(db, event, s) == Conflict
    ensures ClearExpired(db, s) == db.holds
  {
  }

  lemma TakenBound(holds: map<nat, Hold>, s: nat, x: Hold, o: nat)
    requires x.order == None
    ensures Bound(holds[s := x], o) == Bound(holds, o) - {s}
    ensures Bound((holds - {s})[s := x], o) == Bound(holds, o) - {s}
  {
  }

  lemma AcquireBound(w: World, e: nat, s: nat, holder: string, expiresAt: int, o: nat)
    requires InventoryOk(w.db)
    ensures var after := Acquire(w.db, e, s, holder, expiresAt);
      Bound(after.holds, o) == Bound(w.db.holds, o) - TakenFrom(w, DoAcquire(e, s, holder, expiresAt), o)
  {
    hide InventoryOk, AcquireOutcomeOf, Bound;
    if AcquireOutcomeOf(w.db, e, s) == Conflict {
      ConflictClears(w.db, e, s);
    }
    TakenBound(w.db.holds, s, Hold(w.db.nextHold, e, holder, None, expiresAt), o);
  }

  lemma CommitBound(w: World, n: nat, o: nat)
    requires InventoryOk(w.db) && o < |w.db.orders|
    ensures var after := CommitDraft(w, n);
      Bound(after.db.holds, o) == Bound(w.db.holds, o) - TakenFrom(w, DoCommitOrder(n), o)
  {
    hide InventoryOk, HeldBy, TakeItems, TakeSeats, Minted, CanClaim, OrderKeyTaken;
    if n < |w.orderDrafts| {
      var d := w.orderDrafts[n];
      CommitNames(w.db, d);
      assert Bound(BindHolds(w.db, d), o) == Bound(w.db.holds, o) - d.seats;
      assert Bound(w.db.holds - d.seats, o) == Bound(w.db.holds, o) - d.seats;
    }
  }

  lemma CommitNames(db: Db, d: OrderDraft)
    ensures match CommitOutcomeOf(db, d)
      case Reserved(o) => o == |db.orders| && (forall s | s in d.seats :: s in db.holds)
      case Granted(o) => o == |db.orders| && (forall s | s in d.seats :: s in db.holds)
      case _ => true
  {
  }

  lemma SmallBound(db: Db, o: nat)
    ensures Bound(Sweep(db).holds, o) == Bound(db.holds, o)
    ensures forall s, id, h, x :: Bound(Refresh(db, s, id, h, x).holds, o) == Bound(db.holds, o)
    ensures forall e, s, h :: Bound(ReleaseHold(db, e, s, h).holds, o) == Bound(db.holds, o)
  {
  }

  lemma ReleaseBound(db: Db, r: nat, final: OrderStatus, o: nat)
    requires o < |db.orders| && db.orders[o].status == AwaitingPayment && IsUnfulfillableStatus(final)
    ensures var after := Release(db, r, final);
      && |after.orders| == |db.orders|
      && (after.orders[o].status == AwaitingPayment ==> Bound(after.holds, o) == Bound(db.holds, o))
  {
  }

  lemma HandleBound(w: World, d: nat, o: nat)
    requires InventoryOk(w.db) && o < |w.db.orders| && w.db.orders[o].status == AwaitingPayment
    ensures var after := HandleDelivery(w, d).db;
      o < |after.orders| && (after.orders[o].status == AwaitingPayment ==> Bound(after.holds, o) == Bound(w.db.holds, o))
  {
    hide InventoryOk, Settle, Release;
    if d < |w.deliveries| && w.deliveries[d].event < |w.vendor.events| {
      match w.vendor.events[w.deliveries[d].event] {
        case FailedEvent(i) =>
          if PaymentByIntent(w.db.payments, i).Some? {
            var set2 := SetPayment(w.db, i, Declined);
            InventoryFrame(w.db, set2);
            ReleaseBound(set2, w.db.payments[PaymentByIntent(w.db.payments, i).value].order, Canceled, o);
          }
        case RefundedEvent(_, reference, id, _) =>
          if reference.Some? && reference.value < |w.db.refunds| {
            var r := reference.value;
            var set2 := w.db.(refunds := w.db.refunds[r := w.db.refunds[r].(status := Settled, providerRefund := Some(id))]);
            SettleHolds(set2, w.db.refunds[r].order, w.db.refunds[r].amount);
          }
        case _ =>
      }
    }
  }

  lemma SettleHolds(db: Db, o: nat, amount: int)
    ensures var after := Settle(db, o, amount);
      after.holds == db.holds && |after.orders| == |db.orders| && after.tickets == db.tickets
  {
  }

  lemma CommitRefundHolds(db: Db, d: RefundDraft)
    ensures var after := CommitRefund(db, d); after.holds == db.holds && |after.orders| == |db.orders|
  {
  }

  lemma HoldsBound(w: World, a: Action, o: nat)
    requires OfHolds(a) && InventoryOk(w.db)
    ensures Bound(NextHolds(w, a).db.holds, o) == Bound(w.db.holds, o) - TakenFrom(w, a, o)
  {
    hide InventoryOk, Acquire, Refresh, ReleaseHold, Sweep, AcquireOutcomeOf;
    SmallBound(w.db, o);
    if a.DoAcquire? {
      AcquireBound(w, a.event, a.seat, a.holder, a.expiresAt, o);
    }
  }

  lemma OrdersBound(w: World, a: Action, o: nat)
    requires OfOrders(a) && InventoryOk(w.db) && o < |w.db.orders| && w.db.orders[o].status == AwaitingPayment
    requires o < |NextOrders(w, a).db.orders| && NextOrders(w, a).db.orders[o].status == AwaitingPayment
    ensures Bound(NextOrders(w, a).db.holds, o) == Bound(w.db.holds, o) - TakenFrom(w, a, o)
  {
    hide InventoryOk, CommitDraft, Release, DraftOrder, CommitOutcomeOf, VendorCreate;
    if a.DoCommitOrder? {
      CommitBound(w, a.draft, o);
    } else if a.AbortCheckout? {
      ReleaseBound(w.db, a.order, Canceled, o);
    } else if a.ExpireOrder? {
      ReleaseBound(w.db, a.order, Expired, o);
    }
  }

  lemma WebhooksBound(w: World, a: Action, o: nat)
    requires OfWebhooks(a) && InventoryOk(w.db) && o < |w.db.orders| && w.db.orders[o].status == AwaitingPayment
    requires o < |NextWebhooks(w, a).db.orders| && NextWebhooks(w, a).db.orders[o].status == AwaitingPayment
    ensures Bound(NextWebhooks(w, a).db.holds, o) == Bound(w.db.holds, o)
  {
    hide InventoryOk, HandleDelivery, CompensationAccepted, VendorResolve;
    if a.Handle? {
      HandleBound(w, a.delivery, o);
    }
  }

  lemma RefundsHolds(w: World, a: Action)
    requires OfRefunds(a)
    ensures NextRefunds(w, a).db.holds == w.db.holds
  {
    hide DraftRefund, CommitRefund, VendorRefund;
    if a.DoCommitRefund? {
      if a.draft < |w.refundDrafts| { CommitRefundHolds(w.db, w.refundDrafts[a.draft]); }
    }
  }

  /** While order `o` awaits payment its bound holds shrink by exactly what an action takes from it. */
  lemma BoundStep(w: World, a: Action, o: nat)
    requires InventoryOk(w.db) && o < |w.db.orders| && w.db.orders[o].status == AwaitingPayment
    requires o < |Next(w, a).db.orders| && Next(w, a).db.orders[o].status == AwaitingPayment
    ensures Bound(Next(w, a).db.holds, o) == Bound(w.db.holds, o) - TakenFrom(w, a, o)
  {
    hide InventoryOk, Next, NextHolds, NextOrders, NextWebhooks, NextRefunds, AcquireOutcomeOf, CommitOutcomeOf, Bound;
    StepFamily(w, a);
    if OfCatalog(a) {
      CatalogFrame(w, a);
    } else if OfHolds(a) {
      HoldsBound(w, a, o);
    } else if OfOrders(a) {
      OrdersBound(w, a, o);
    } else if OfWebhooks(a) {
      WebhooksBound(w, a, o);
    } else if OfRefunds(a) {
      RefundsHolds(w, a);
    }
  }

  lemma HeldSeat(db: Db, s: nat)
    requires InventoryOk(db) && s in db.holds
    ensures s < |db.seats| && !IsGa(db.tiers, db.seats[s].tier)
  {
  }

  // ---- settlement issues exactly what is held ----

  /** Settlement issues, tier by tier, exactly the places the order has: the general admission it reserved and
      one ticket per hold still bound to it. */
  lemma SettlementIssuesPlaces(db: Db, o: nat, t: nat)
    requires InventoryOk(db) && o < |db.orders| && db.orders[o].status == AwaitingPayment
    ensures MintedCount(PayOff(db, o).tickets, o, t) == Places(db, o, t)
  {
    var p, items := Bound(db.holds, o), db.orders[o].items;
    NoTickets(db.tiers, db.seats, db.orders, db.tickets, o, items);
    MintedOwn(db.tickets, o, db.tiers, items, db.seats, p, t);
    if IsGa(db.tiers, t) {
      GaHasNoSeats(db, p, t);
    }
  }

  lemma GaHasNoSeats(db: Db, p: set<nat>, t: nat)
    requires InventoryOk(db) && IsGa(db.tiers, t)
    ensures SeatCount(db.seats, p, t) == 0
  {
    assert forall s | 0 <= s < |db.seats| :: db.tiers[db.seats[s].tier].kind == Seated;
    TotalZero(InTier(p, t), db.seats);
  }

  // ---- a paid order's tickets are settled history ----

  /** The issued tickets of a paid order never change in number, place or price. */
  lemma MintedFrozen(w: World, a: Action, o: nat)
    requires WorldOk(w) && o < |w.db.orders| && IsPaidStatus(w.db.orders[o].status)
    ensures var after := Next(w, a).db;
      && MintedValue(after.tickets, o, w.db.orders[o].items) == MintedValue(w.db.tickets, o, w.db.orders[o].items)
      && forall t: nat :: MintedCount(after.tickets, o, t) == MintedCount(w.db.tickets, o, t)
  {
    hide Next, WorldOk;
    StepEvolves(w, a);
    NewTicketsElsewhere(w, a, o);
    MintedKept(w.db.tickets, Next(w, a).db.tickets, o, w.db.orders[o].items);
  }

  lemma MintedKept(a: seq<Ticket>, b: seq<Ticket>, o: nat, items: seq<Item>)
    requires TicketsEvolve(a, b) && forall k | |a| <= k < |b| :: b[k].order != o
    ensures MintedValue(b, o, items) == MintedValue(a, o, items)
    ensures forall t: nat :: MintedCount(b, o, t) == MintedCount(a, o, t)
  {
    var kept, more := b[..|a|], b[|a|..];
    assert b == kept + more;
    SamePlacesMinted(a, kept, o, items);
    TotalExtend(MintedPrice(o, items), kept, more);
    forall t: nat ensures MintedCount(b, o, t) == MintedCount(a, o, t) {
      TotalExtend(MintedIn(o, t), kept, more);
    }
  }

  lemma MintedOwner(o: nat, tiers: seq<Tier>, items: seq<Item>, seats: seq<Seat>, p: set<nat>)
    ensures forall k | 0 <= k < |Minted(o, tiers, items, seats, p)| :: Minted(o, tiers, items, seats, p)[k].order == o
  {
    MintedRows(o, tiers, items, seats, p);
    assert forall k | 0 <= k < |Minted(o, tiers, items, seats, p)| ::
      FreshRow(Minted(o, tiers, items, seats, p)[k], o, tiers, items, seats, p);
  }

  lemma HandleTicketsElsewhere(w: World, d: nat, o: nat)
    requires o < |w.db.orders| && IsPaidStatus(w.db.orders[o].status)
    ensures var after := HandleDelivery(w, d).db;
      forall k | |w.db.tickets| <= k < |after.tickets| :: after.tickets[k].order != o
  {
    hide Settle;
    if d < |w.deliveries| && w.deliveries[d].event < |w.vendor.events| {
      match w.vendor.events[w.deliveries[d].event] {
        case SucceededEvent(i) =>
          var found := PaymentByIntent(w.db.payments, i);
          if found.Some? && SucceededOutcomeOf(w.db, i) == PaidOff {
            var r := w.db.payments[found.value].order;
            MintedOwner(r, w.db.tiers, w.db.orders[r].items, w.db.seats, Bound(w.db.holds, r));
          }
        case RefundedEvent(_, reference, id, _) =>
          if reference.Some? && reference.value < |w.db.refunds| {
            var r := reference.value;
            var set2 := w.db.(refunds := w.db.refunds[r := w.db.refunds[r].(status := Settled, providerRefund := Some(id))]);
            SettleHolds(set2, w.db.refunds[r].order, w.db.refunds[r].amount);
          }
        case _ =>
      }
    }
  }

  lemma OrdersTicketsElsewhere(w: World, a: Action, o: nat)
    requires OfOrders(a) && o < |w.db.orders|
    ensures var after := NextOrders(w, a).db;
      forall k | |w.db.tickets| <= k < |after.tickets| :: after.tickets[k].order != o
  {
    hide DraftOrder, CommitOutcomeOf, VendorCreate;
    if a.DoCommitOrder? && a.draft < |w.orderDrafts| {
      var d := w.orderDrafts[a.draft];
      MintedOwner(|w.db.orders|, w.db.tiers, d.ga, w.db.seats, d.seats);
      CommitNames(w.db, d);
    }
  }

  lemma WebhooksTicketsElsewhere(w: World, a: Action, o: nat)
    requires OfWebhooks(a) && o < |w.db.orders| && IsPaidStatus(w.db.orders[o].status)
    ensures var after := NextWebhooks(w, a).db;
      forall k | |w.db.tickets| <= k < |after.tickets| :: after.tickets[k].order != o
  {
    hide HandleDelivery, CompensationAccepted, VendorResolve;
    if a.Handle? {
      HandleTicketsElsewhere(w, a.delivery, o);
    }
  }

  lemma RefundsTickets(w: World, a: Action)
    requires OfRefunds(a)
    ensures |NextRefunds(w, a).db.tickets| == |w.db.tickets|
  {
  }

  /** Only an order's own settlement issues tickets to it, and a paid order is past that. */
  lemma NewTicketsElsewhere(w: World, a: Action, o: nat)
    requires o < |w.db.orders| && IsPaidStatus(w.db.orders[o].status)
    ensures var after := Next(w, a).db;
      forall k | |w.db.tickets| <= k < |after.tickets| :: after.tickets[k].order != o
  {
    hide Next, NextHolds, NextOrders, NextWebhooks, NextRefunds;
    StepFamily(w, a);
    if OfCatalog(a) {
      CatalogFrame(w, a);
    } else if OfHolds(a) {
      HoldsFrame(w, a);
    } else if OfOrders(a) {
      OrdersTicketsElsewhere(w, a, o);
    } else if OfWebhooks(a) {
      WebhooksTicketsElsewhere(w, a, o);
    } else if OfRefunds(a) {
      RefundsTickets(w, a);
    }
  }

  // ---- one step ----

  /** The holds of a reserved order are bound to it as it is created. */
  lemma ReservedWhole(db: Db, d: OrderDraft)
    requires HoldsOk(db.seats, db.holds, db.orders) && DraftOk(db.tiers, db.seats, d)
    requires forall s | s in d.seats :: s in db.holds
    ensures forall t: nat | !IsGa(db.tiers, t) ::
      SeatCount(db.seats, Bound(BindHolds(db, d), |db.orders|), t) == QtyOf(DraftItems(d), t)
  {
    BindHoldsBound(db, d);
    forall t: nat | !IsGa(db.tiers, t) ensures SeatCount(db.seats, d.seats, t) == QtyOf(DraftItems(d), t) {
      DraftQuantities(db.tiers, db.seats, d, t);
    }
  }

  /** A granted order's tickets are issued as it is created. */
  lemma GrantedWhole(db: Db, d: OrderDraft)
    requires TicketsOk(db.tiers, db.seats, db.orders, db.tickets) && DraftOk(db.tiers, db.seats, d)
    ensures forall t: nat ::
      MintedCount(db.tickets + Minted(|db.orders|, db.tiers, d.ga, db.seats, d.seats), |db.orders|, t) == QtyOf(DraftItems(d), t)
  {
    var o := |db.orders|;
    NoTickets(db.tiers, db.seats, db.orders, db.tickets, o, []);
    forall t: nat
      ensures MintedCount(db.tickets + Minted(o, db.tiers, d.ga, db.seats, d.seats), o, t) == QtyOf(DraftItems(d), t)
    {
      DraftQuantities(db.tiers, db.seats, d, t);
      MintedOwn(db.tickets, o, db.tiers, d.ga, db.seats, d.seats, t);
    }
  }

  lemma DraftParts(w: World, n: nat)
    requires WorldOk(w) && n < |w.orderDrafts|
    ensures InventoryOk(w.db) && DraftOk(w.db.tiers, w.db.seats, w.orderDrafts[n])
    ensures HoldsOk(w.db.seats, w.db.holds, w.db.orders) && TicketsOk(w.db.tiers, w.db.seats, w.db.orders, w.db.tickets)
  {
  }

  /** An order created now is whole from the start. */
  lemma NewOrderWhole(w: World, n: nat)
    requires WorldOk(w) && n < |w.orderDrafts|
    requires CommitOutcomeOf(w.db, w.orderDrafts[n]).Reserved? || CommitOutcomeOf(w.db, w.orderDrafts[n]).Granted?
    ensures WholeOrder(CommitDraft(w, n).db, |w.db.orders|)
  {
    DraftParts(w, n);
    hide WorldOk, InventoryOk, DraftOk, HoldsOk, TicketsOk;
    NewOrderIsWhole(w.db, w.orderDrafts[n]);
  }

  lemma NewOrderIsWhole(db: Db, d: OrderDraft)
    requires HoldsOk(db.seats, db.holds, db.orders) && TicketsOk(db.tiers, db.seats, db.orders, db.tickets)
    requires DraftOk(db.tiers, db.seats, d) && (CommitOutcomeOf(db, d).Reserved? || CommitOutcomeOf(db, d).Granted?)
    ensures WholeOrder(CommitOrder(db, d), |db.orders|)
  {
    CommitNames(db, d);
    hide DraftOk, HoldsOk, TicketsOk, HeldBy, CanClaim, TakeItems, TakeSeats, Minted, BindHolds,
         OrderKeyTaken;
    if d.total > 0 {
      ReservedWhole(db, d);
    } else {
      GrantedWhole(db, d);
    }
  }

  lemma CommitRefundAwaiting(db: Db, d: RefundDraft, o: nat)
    requires o < |db.orders| && db.orders[o].status == AwaitingPayment
    ensures |CommitRefund(db, d).orders| == |db.orders| && CommitRefund(db, d).orders[o].status == AwaitingPayment
  {
  }

  lemma SettleAwaiting(db: Db, r: nat, amount: int, o: nat)
    requires o < |db.orders| && db.orders[o].status == AwaitingPayment
    ensures |Settle(db, r, amount).orders| == |db.orders| && Settle(db, r, amount).orders[o].status == AwaitingPayment
  {
  }

  lemma HandlePays(w: World, d: nat, o: nat)
    requires o < |w.db.orders| && w.db.orders[o].status == AwaitingPayment
    requires o < |HandleDelivery(w, d).db.orders| && IsPaidStatus(HandleDelivery(w, d).db.orders[o].status)
    ensures HandleDelivery(w, d).db.tickets == PayOff(w.db, o).tickets
  {
    hide Settle, Minted;
    match w.vendor.events[w.deliveries[d].event] {
      case RefundedEvent(_, reference, id, _) =>
        var r := reference.value;
        var set2 := w.db.(refunds := w.db.refunds[r := w.db.refunds[r].(status := Settled, providerRefund := Some(id))]);
        SettleAwaiting(set2, w.db.refunds[r].order, w.db.refunds[r].amount, o);
      case _ =>
    }
  }

  lemma OrdersPayNothing(w: World, a: Action, o: nat)
    requires OfOrders(a) && o < |w.db.orders| && w.db.orders[o].status == AwaitingPayment
    ensures o < |NextOrders(w, a).db.orders| && !IsPaidStatus(NextOrders(w, a).db.orders[o].status)
  {
    hide DraftOrder, CommitOutcomeOf, VendorCreate;
  }

  lemma WebhooksPay(w: World, a: Action, o: nat)
    requires OfWebhooks(a) && o < |w.db.orders| && w.db.orders[o].status == AwaitingPayment
    requires o < |NextWebhooks(w, a).db.orders| && IsPaidStatus(NextWebhooks(w, a).db.orders[o].status)
    ensures NextWebhooks(w, a).db.tickets == PayOff(w.db, o).tickets
  {
    hide HandleDelivery, CompensationAccepted, VendorResolve, PayOff;
    if a.Handle? {
      HandlePays(w, a.delivery, o);
    }
  }

  lemma RefundsPayNothing(w: World, a: Action, o: nat)
    requires OfRefunds(a) && o < |w.db.orders| && w.db.orders[o].status == AwaitingPayment
    ensures o < |NextRefunds(w, a).db.orders| && !IsPaidStatus(NextRefunds(w, a).db.orders[o].status)
  {
    hide DraftRefund, CommitRefund, VendorRefund;
    if a.DoCommitRefund? {
      if a.draft < |w.refundDrafts| { CommitRefundAwaiting(w.db, w.refundDrafts[a.draft], o); }
    }
  }

  /** The step that pays an order is its settlement. */
  lemma PayingStep(w: World, a: Action, o: nat)
    requires o < |w.db.orders| && w.db.orders[o].status == AwaitingPayment
    requires o < |Next(w, a).db.orders| && IsPaidStatus(Next(w, a).db.orders[o].status)
    ensures Next(w, a).db.tickets == PayOff(w.db, o).tickets && TakenFrom(w, a, o) == {}
  {
    hide Next, NextHolds, NextOrders, NextWebhooks, NextRefunds, PayOff, AcquireOutcomeOf, CommitOutcomeOf;
    StepFamily(w, a);
    if OfCatalog(a) {
      CatalogFrame(w, a);
    } else if OfHolds(a) {
      HoldsFrame(w, a);
    } else if OfOrders(a) {
      OrdersPayNothing(w, a, o);
    } else if OfWebhooks(a) {
      WebhooksPay(w, a, o);
    } else if OfRefunds(a) {
      RefundsPayNothing(w, a, o);
    }
  }

  lemma GrownCounts(db: Db, db2: Db, p: set<nat>, items: seq<Item>)
    requires db.tiers <= db2.tiers && db.seats <= db2.seats
    requires InventoryOk(db) && (forall s | s in p :: s < |db.seats|) && ItemsOk(db.tiers, items)
    ensures forall t: nat :: SeatCount(db2.seats, p, t) == SeatCount(db.seats, p, t)
    ensures forall t: nat | t >= |db.tiers| :: QtyOf(items, t) == 0 && SeatCount(db.seats, p, t) == 0
  {
    InventoryGrown(db, db2, p, items);
    assert forall s | 0 <= s < |db.seats| :: db.seats[s].tier < |db.tiers|;
    forall t: nat | t >= |db.tiers| ensures SeatCount(db.seats, p, t) == 0 {
      TotalZero(InTier(p, t), db.seats);
    }
  }

  lemma InventoryGrown(db: Db, db2: Db, p: set<nat>, items: seq<Item>)
    requires db.tiers <= db2.tiers && db.seats <= db2.seats
    requires (forall s | s in p :: s < |db.seats|) && KnownTiers(db.tiers, items)
    ensures forall t: nat :: SeatCount(db2.seats, p, t) == SeatCount(db.seats, p, t)
    ensures forall t: nat | t >= |db.tiers| :: QtyOf(items, t) == 0
  {
    assert db2.seats == db.seats + db2.seats[|db.seats|..];
    forall t: nat ensures SeatCount(db2.seats, p, t) == SeatCount(db.seats, p, t) {
      TotalExtend(InTier(p, t), db.seats, db2.seats[|db.seats|..]);
    }
    forall t: nat | t >= |db.tiers| ensures QtyOf(items, t) == 0 {
      QtyAbsent(items, t);
    }
  }

  // ---- whole or not, step by step ----

  lemma StepItems(w: World, a: Action, o: nat)
    requires WorldOk(w) && o < |w.db.orders|
    ensures o < |Next(w, a).db.orders| && Next(w, a).db.orders[o].items == w.db.orders[o].items
    ensures OrderEdge(w.db.orders[o].status, Next(w, a).db.orders[o].status)
    ensures OrderPath(w.db.orders[o].status, Next(w, a).db.orders[o].status)
    ensures w.db.tiers <= Next(w, a).db.tiers && w.db.seats <= Next(w, a).db.seats
  {
    hide Next, WorldOk;
    StepEvolves(w, a);
    StepOrderEdge(w, a, o);
  }

  lemma AwaitingItems(db: Db, o: nat)
    requires InventoryOk(db) && o < |db.orders|
    ensures ItemsOk(db.tiers, db.orders[o].items) && forall s | s in Bound(db.holds, o) :: s < |db.seats|
  {
  }

  lemma AwaitingPlacesStep(w: World, a: Action, o: nat, t: nat)
    requires WorldOk(w) && o < |w.db.orders| && w.db.orders[o].status == AwaitingPayment
    requires o < |Next(w, a).db.orders| && Next(w, a).db.orders[o].status == AwaitingPayment
    ensures Places(w.db, o, t) == Places(Next(w, a).db, o, t) + SeatCount(w.db.seats, TakenFrom(w, a, o), t)
  {
    WorldParts(w);
    hide Next, WorldOk, InventoryOk, MoneyOk, TakenFrom, Bound;
    var db, db2 := w.db, Next(w, a).db;
    var q, taken := Bound(db.holds, o), TakenFrom(w, a, o);
    StepItems(w, a, o);
    BoundStep(w, a, o);
    AwaitingItems(db, o);
    TakenIsBound(w, a, o);
    GrownCounts(db, db2, q - taken, db.orders[o].items);
    GrownCounts(db, db2, taken, db.orders[o].items);
    CountSplit(db.seats, q, taken, t);
    if IsGa(db.tiers, t) {
      GaHasNoSeats(db, taken, t);
    }
  }

  lemma TakenIsBound(w: World, a: Action, o: nat)
    ensures TakenFrom(w, a, o) <= Bound(w.db.holds, o)
  {
    hide AcquireOutcomeOf, CommitOutcomeOf, Bound;
  }

  lemma CountSplit(seats: seq<Seat>, q: set<nat>, p: set<nat>, t: nat)
    requires p <= q
    ensures SeatCount(seats, q, t) == SeatCount(seats, q - p, t) + SeatCount(seats, p, t)
  {
    TotalSum(InTier(q, t), seats, InTier(q - p, t), seats, InTier(p, t), seats);
  }

  /** A step that does not release the order leaves it, tier by tier, the places it had less those taken from it;
      settlement turns places into tickets one for one. */
  lemma PlacesStep(w: World, a: Action, o: nat, t: nat)
    requires WorldOk(w) && o < |w.db.orders|
    requires o < |Next(w, a).db.orders| && !IsUnfulfillableStatus(Next(w, a).db.orders[o].status)
    ensures Places(w.db, o, t) == Places(Next(w, a).db, o, t) + SeatCount(w.db.seats, TakenFrom(w, a, o), t)
  {
    WorldParts(w);
    hide Next, WorldOk, InventoryOk, MoneyOk, TakenFrom;
    StepItems(w, a, o);
    if IsPaidStatus(w.db.orders[o].status) {
      MintedFrozen(w, a, o);
      NothingToTake(w, a, o);
      NoSeats(w.db.seats, t);
    } else if IsPaidStatus(Next(w, a).db.orders[o].status) {
      PayingStep(w, a, o);
      SettlementIssuesPlaces(w.db, o, t);
      NoSeats(w.db.seats, t);
    } else {
      AwaitingPlacesStep(w, a, o, t);
    }
  }

  lemma NoSeats(seats: seq<Seat>, t: nat)
    ensures SeatCount(seats, {}, t) == 0
  {
    TotalZero(InTier({}, t), seats);
  }

  /** Nothing is bound to an order that is not awaiting payment, so nothing can be taken from it. */
  lemma NothingToTake(w: World, a: Action, o: nat)
    requires WorldOk(w) && o < |w.db.orders| && w.db.orders[o].status != AwaitingPayment
    ensures TakenFrom(w, a, o) == {}
  {
    assert HoldsOk(w.db.seats, w.db.holds, w.db.orders);
    assert Bound(w.db.holds, o) == {};
    hide WorldOk, AcquireOutcomeOf, CommitOutcomeOf;
  }

  // ---- whole runs ----

  /** How many seats of tier `t` the steps of the schedule took from order `o`. */
  ghost function Lost(w: World, schedule: seq<Action>, o: nat, t: nat): int {
    if schedule == [] then 0
    else
      var m := |schedule| - 1;
      var before := Run(w, schedule[..m]);
      Lost(w, schedule[..m], o, t) + SeatCount(before.db.seats, TakenFrom(before, schedule[m], o), t)
  }

  /** Over any schedule that leaves the order awaiting payment or paid, the order ends, tier by tier, with the
      places it had less the seats taken over, rebound or consumed from under it. */
  lemma {:induction false} PlacesLost(w: World, schedule: seq<Action>, o: nat, t: nat)
    requires WorldOk(w) && o < |w.db.orders|
    requires o < |Run(w, schedule).db.orders| && !IsUnfulfillableStatus(Run(w, schedule).db.orders[o].status)
    ensures Places(w.db, o, t) == Places(Run(w, schedule).db, o, t) + Lost(w, schedule, o, t)
  {
    hide WorldOk, Next, Places, TakenFrom;
    if schedule != [] {
      var m := |schedule| - 1;
      RunEvolves(w, schedule[..m]);
      RunKeeps(w, schedule[..m]);
      StepItems(Run(w, schedule[..m]), schedule[m], o);
      PlacesLost(w, schedule[..m], o, t);
      PlacesStep(Run(w, schedule[..m]), schedule[m], o, t);
    }
  }

  /** Some step of the schedule took a hold from order `o`. */
  ghost predicate Stolen(w: World, schedule: seq<Action>, o: nat) {
    exists n :: 0 <= n < |schedule| && TakenFrom(Run(w, schedule[..n]), schedule[n], o) != {}
  }

  lemma StolenStep(w: World, schedule: seq<Action>, o: nat)
    requires schedule != []
    ensures var m := |schedule| - 1;
      Stolen(w, schedule, o) <==> Stolen(w, schedule[..m], o) || TakenFrom(Run(w, schedule[..m]), schedule[m], o) != {}
  {
    hide TakenFrom, Next;
    var m := |schedule| - 1;
    if Stolen(w, schedule, o) {
      var n :| 0 <= n < |schedule| && TakenFrom(Run(w, schedule[..n]), schedule[n], o) != {};
      if n < m {
        assert schedule[..m][..n] == schedule[..n];
        assert TakenFrom(Run(w, schedule[..m][..n]), schedule[..m][n], o) != {};
      }
    }
    if Stolen(w, schedule[..m], o) {
      var n :| 0 <= n < m && TakenFrom(Run(w, schedule[..m][..n]), schedule[..m][n], o) != {};
      assert schedule[..m][..n] == schedule[..n];
      assert TakenFrom(Run(w, schedule[..n]), schedule[n], o) != {};
    }
  }

  /** A hold taken away is a seat of some tier lost. */
  lemma TakenCounts(w: World, a: Action, o: nat)
    requires WorldOk(w)
    ensures forall t: nat :: SeatCount(w.db.seats, TakenFrom(w, a, o), t) >= 0
    ensures TakenFrom(w, a, o) == {} <==> forall t: nat :: SeatCount(w.db.seats, TakenFrom(w, a, o), t) == 0
  {
    WorldParts(w);
    hide WorldOk, InventoryOk, MoneyOk, TakenFrom;
    TakenIsBound(w, a, o);
    var taken := TakenFrom(w, a, o);
    hide Bound, SeatCount;
    forall t: nat ensures SeatCount(w.db.seats, taken, t) >= 0 && (taken == {} ==> SeatCount(w.db.seats, taken, t) == 0) {
      SeatCountMonotone(w.db.seats, taken, taken, t);
      NoSeats(w.db.seats, t);
    }
    if s :| s in taken {
      HeldSeat(w.db, s);
      SeatCountMonotone(w.db.seats, {s}, taken, w.db.seats[s].tier);
      OneSeat(w.db.seats, s);
    }
  }

  lemma OneSeat(seats: seq<Seat>, s: nat)
    requires s < |seats|
    ensures SeatCount(seats, {s}, seats[s].tier) > 0
  {
    TotalCovers(InTier({s}, seats[s].tier), seats, s);
  }

  lemma LostStep(w: World, schedule: seq<Action>, o: nat)
    requires schedule != []
    ensures var m := |schedule| - 1;
      var before := Run(w, schedule[..m]);
      forall t: nat :: Lost(w, schedule, o, t)
        == Lost(w, schedule[..m], o, t) + SeatCount(before.db.seats, TakenFrom(before, schedule[m], o), t)
  {
    hide TakenFrom, Run, SeatCount;
  }

  lemma NothingLostYet(w: World, o: nat)
    ensures !Stolen(w, [], o) && forall t: nat :: Lost(w, [], o, t) == 0
  {
  }

  lemma {:induction false} LostIffStolen(w: World, schedule: seq<Action>, o: nat)
    requires WorldOk(w)
    ensures forall t: nat :: Lost(w, schedule, o, t) >= 0
    ensures !Stolen(w, schedule, o) <==> forall t: nat :: Lost(w, schedule, o, t) == 0
  {
    hide WorldOk, Next, TakenFrom, Run, Stolen, Lost, SeatCount;
    if schedule == [] {
      NothingLostYet(w, o);
    } else {
      var m := |schedule| - 1;
      var before := Run(w, schedule[..m]);
      RunKeeps(w, schedule[..m]);
      LostIffStolen(w, schedule[..m], o);
      LostStep(w, schedule, o);
      StolenStep(w, schedule, o);
      TakenCounts(before, schedule[m], o);
      var taken := TakenFrom(before, schedule[m], o);
      if Stolen(w, schedule[..m], o) {
        var t: nat :| Lost(w, schedule[..m], o, t) != 0;
        assert Lost(w, schedule, o, t) != 0;
      } else if taken != {} {
        var t: nat :| SeatCount(before.db.seats, taken, t) != 0;
        assert Lost(w, schedule, o, t) != 0;
      } else {
        forall t: nat ensures Lost(w, schedule, o, t) == 0 {
          assert Lost(w, schedule[..m], o, t) == 0;
        }
      }
    }
  }

  /** A whole order that ends any schedule awaiting payment or paid is whole at the end if and only if
      no hold was taken over, rebound or consumed from under it on the way. Once paid, whole means
      every ticket it bought, per tier, was issued. */
  lemma WholeUnlessStolen(w: World, schedule: seq<Action>, o: nat)
    requires Reachable(w) && o < |w.db.orders| && WholeOrder(w.db, o)
    requires o < |Run(w, schedule).db.orders| && !IsUnfulfillableStatus(Run(w, schedule).db.orders[o].status)
    ensures WholeOrder(Run(w, schedule).db, o) <==> !Stolen(w, schedule, o)
  {
    hide Run, Reachable, WorldOk, Next, Places, Stolen, Lost;
    var after := Run(w, schedule);
    ReachableOk(w);
    RunEvolves(w, schedule);
    LostIffStolen(w, schedule, o);
    forall t: nat ensures Places(w.db, o, t) == Places(after.db, o, t) + Lost(w, schedule, o, t) {
      PlacesLost(w, schedule, o, t);
    }
    var items := w.db.orders[o].items;
    assert after.db.orders[o].items == items && !IsUnfulfillableStatus(w.db.orders[o].status);
    if Stolen(w, schedule, o) {
      var t: nat :| Lost(w, schedule, o, t) != 0;
      assert Places(after.db, o, t) != QtyOf(items, t);
    } else {
      forall t: nat ensures Places(after.db, o, t) == QtyOf(items, t) {
        assert Lost(w, schedule, o, t) == 0;
        assert Places(w.db, o, t) == QtyOf(items, t);
      }
    }
  }
}
