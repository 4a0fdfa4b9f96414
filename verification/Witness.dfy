/** Concrete runs in which the unconditional promises fail. */
module Witness {
  import opened Tables
  import opened Sums
  import opened Weights
  import opened Issuing
  import opened Transactions
  import opened Protocol
  import opened Steps
  import opened Evolution
  import opened Frames
  import opened Findings

  ghost function Start(): World {
    World(Db(0, {}, [], [], [], map[], 0, [], [], [], [], map[], []), Vendor([], map[], 0, []), [], [], {}, [], [])
  }

  // ---- a paid order whose only seat is gone ----

  const SEATED: Tier := Tier(0, Seated, 100)
  const BOUGHT: Item := Item(0, 1, 100)

  /** One event with one seat at 100, held by "a" until time 10. */
  ghost function SeatHeld(): World {
    Start().(db := Start().db.(published := {0}, tiers := [SEATED], stock := [Stock(1, 1, 8)], seats := [Seat(0, 0)],
                               holds := map[0 := Hold(0, 0, "a", None, 10)], nextHold := 1, feed := [SeatsHeld({0})]))
  }

  ghost function SeatDraft(): OrderDraft {
    OrderDraft(0, [], [BOUGHT], {0}, "a", None, 100, Some(20))
  }

  ghost function SeatOrder(status: OrderStatus): Order {
    Order(0, status, 100, 0, None, [BOUGHT], Some(20))
  }

  /** "a" has ordered the seat; the payment page is open; the hold is bound until time 20. */
  ghost function SeatOrdered(): World {
    SeatHeld().(
      db := SeatHeld().db.(orders := [SeatOrder(AwaitingPayment)], holds := map[0 := Hold(0, 0, "a", Some(0), 20)],
                           payments := [Payment(0, 0, 100, RequiresAction)]),
      vendor := Vendor([Intent(0, 100, IntentOpen, 0)], map[], 0, []),
      orderDrafts := [SeatDraft()])
  }

  /** At time 30, before the reconciler runs, "b" takes the expired hold; then the payment succeeds. */
  ghost function SeatTaken(): World {
    SeatOrdered().(
      db := SeatOrdered().db.(now := 30, holds := map[0 := Hold(1, 0, "b", None, 100)], nextHold := 2,
                              feed := [SeatsHeld({0}), SeatsHeld({0})], webhooks := map[0 := false]),
      vendor := Vendor([Intent(0, 100, IntentSucceeded, 0)], map[], 0, [SucceededEvent(0)]),
      deliveries := [Delivery(0, Received)])
  }

  lemma StartReachable()
    ensures Reachable(Start())
  {
    assert Initial(Start()) && Start() == Run(Start(), []);
  }

  lemma SeatMapped()
    ensures Next(Start().(db := Start().db.(published := {0})), DoAddSeatMap(0, [Section(100, 1)]))
         == Start().(db := Start().db.(published := {0}, tiers := [SEATED], stock := [Stock(1, 1, 8)], seats := [Seat(0, 0)]))
  {
    hide NextHolds, NextOrders, NextWebhooks, NextRefunds, CheckIn;
    var db, sections := Start().db.(published := {0}), [Section(100, 1)];
    assert sections[..0] == [];
    assert AddSections(db, 0, []) == db;
    assert seq(1, _ => Seat(0, 0)) == [Seat(0, 0)];
  }

  lemma SeatHeldReachable()
    ensures Reachable(SeatHeld())
  {
    hide Reachable, NextOrders, NextWebhooks, NextRefunds, CheckIn, AddSections;
    StartReachable();
    ReachableNext(Start(), Publish(0));
    var w1 := Start().(db := Start().db.(published := {0}));
    assert Next(Start(), Publish(0)) == w1;
    ReachableNext(w1, DoAddSeatMap(0, [Section(100, 1)]));
    SeatMapped();
    var w2 := Next(w1, DoAddSeatMap(0, [Section(100, 1)]));
    ReachableNext(w2, DoAcquire(0, 0, "a", 10));
    assert Next(w2, DoAcquire(0, 0, "a", 10)) == SeatHeld();
  }

  lemma SeatDraftRead()
    ensures DraftOrder(SeatHeld().db, OrderRequest(0, [], {0}, Some("a"), None, 20)) == Some(SeatDraft())
  {
    var db := SeatHeld().db;
    assert db.seats[..0] == [];
    assert Grouped(db.tiers, [], {0}) == [];
    assert Grouped(db.tiers, db.seats, {0}) == [BOUGHT];
    assert Total(SeatPrice(db.tiers, {0}), []) == 0;
    assert Total(SeatPrice(db.tiers, {0}), db.seats) == 100;
    assert PricedLines(db.tiers, []) == [];
    assert ItemsValue([]) == 0;
  }

  lemma SeatOrderedReachable()
    ensures Reachable(SeatOrdered())
  {
    hide Reachable, NextCatalog, NextHolds, NextWebhooks, NextRefunds, CheckIn, DraftOrder, CommitOrder, CommitOutcomeOf;
    SeatHeldReachable();
    SeatDraftRead();
    SeatCommits();
    var r := OrderRequest(0, [], {0}, Some("a"), None, 20);
    ReachableNext(SeatHeld(), ReadOrder(r));
    var w1 := SeatHeld().(orderDrafts := [SeatDraft()]);
    assert Next(SeatHeld(), ReadOrder(r)) == w1;
    ReachableNext(w1, DoCommitOrder(0));
    var w2 := w1.(checkouts := {0}, db := w1.db.(orders := [SeatOrder(AwaitingPayment)], holds := map[0 := Hold(0, 0, "a", Some(0), 20)]));
    assert Next(w1, DoCommitOrder(0)) == w2;
    CheckoutRecords(w2);
  }

  lemma CheckoutRecords(w: World)
    requires Reachable(w) && w.vendor == Vendor([], map[], 0, []) && w.checkouts == {0} && w.db.payments == []
    requires |w.db.orders| == 1 && w.db.orders[0].total == 100
    ensures Reachable(w.(vendor := Vendor([Intent(0, 100, IntentOpen, 0)], map[], 0, []), checkouts := {},
                         db := w.db.(payments := [Payment(0, 0, 100, RequiresAction)])))
  {
    hide Reachable, NextCatalog, NextHolds, NextWebhooks, NextRefunds, CheckIn, DraftOrder, CommitDraft, Release;
    ReachableNext(w, OpenIntent(0));
    var w1 := w.(vendor := Vendor([Intent(0, 100, IntentOpen, 0)], map[], 0, []));
    assert Next(w, OpenIntent(0)) == w1;
    ReachableNext(w1, RecordPayment(0, 0));
    var w2 := w1.(db := w.db.(payments := [Payment(0, 0, 100, RequiresAction)]));
    assert Next(w1, RecordPayment(0, 0)) == w2;
    ReachableNext(w2, ReturnCheckout(0));
    assert {0} - {0} == {};
    assert Next(w2, ReturnCheckout(0)) == w2.(checkouts := {});
  }

  lemma SeatCommits()
    ensures CommitOutcomeOf(SeatHeld().db, SeatDraft()) == Reserved(0)
    ensures CommitOrder(SeatHeld().db, SeatDraft())
         == SeatHeld().db.(orders := [SeatOrder(AwaitingPayment)], holds := map[0 := Hold(0, 0, "a", Some(0), 20)])
  {
    var db, d := SeatHeld().db, SeatDraft();
    assert forall s | s in d.seats :: HeldBy(db, d, s);
    assert QtyOf([], 0) == 0;
    assert TakeItems(db.stock, []) == db.stock;
    assert DraftItems(d) == [BOUGHT];
    assert BindHolds(db, d) == map[0 := Hold(0, 0, "a", Some(0), 20)];
  }

  lemma SeatStolen(w: World)
    requires w == SeatOrdered().(db := SeatOrdered().db.(now := 30))
    ensures Next(w, DoAcquire(0, 0, "b", 100))
         == w.(db := w.db.(holds := map[0 := Hold(1, 0, "b", None, 100)], nextHold := 2, feed := [SeatsHeld({0}), SeatsHeld({0})]))
  {
    hide NextCatalog, NextOrders, NextWebhooks, NextRefunds, CheckIn;
    assert AcquireOutcomeOf(w.db, 0, 0) == Won;
  }

  lemma SeatTakenReachable()
    ensures Reachable(SeatTaken())
  {
    hide Reachable, NextOrders, NextHolds, NextRefunds, CheckIn, HandleDelivery;
    SeatOrderedReachable();
    ReachableNext(SeatOrdered(), Tick(30));
    var w1 := SeatOrdered().(db := SeatOrdered().db.(now := 30));
    assert Next(SeatOrdered(), Tick(30)) == w1;
    ReachableNext(w1, DoAcquire(0, 0, "b", 100));
    SeatStolen(w1);
    PaidAndDelivered(Next(w1, DoAcquire(0, 0, "b", 100)));
  }

  lemma PaidAndDelivered(w: World)
    requires Reachable(w) && w.vendor == Vendor([Intent(0, 100, IntentOpen, 0)], map[], 0, []) && w.db.webhooks == map[]
    requires w.deliveries == []
    ensures Reachable(w.(vendor := Vendor([Intent(0, 100, IntentSucceeded, 0)], map[], 0, [SucceededEvent(0)]),
                         db := w.db.(webhooks := map[0 := false]), deliveries := [Delivery(0, Received)]))
  {
    hide Reachable, NextCatalog, NextOrders, NextHolds, NextRefunds, CheckIn, HandleDelivery;
    ReachableNext(w, Confirm(0, true));
    var w1 := w.(vendor := Vendor([Intent(0, 100, IntentSucceeded, 0)], map[], 0, [SucceededEvent(0)]));
    assert Next(w, Confirm(0, true)) == w1;
    ReachableNext(w1, Deliver(0));
    assert Next(w1, Deliver(0)) == w1.(db := w.db.(webhooks := map[0 := false]), deliveries := [Delivery(0, Received)]);
  }

  /** A buyer pays in full and gets nothing: the hold bound to the order expired, another buyer took it,
      the success webhook came before any expiry, and settlement issued what was still bound, no ticket. */
  lemma PaidSeatLost() returns (w: World)
    ensures Reachable(w) && |w.db.orders| == 1 && w.db.orders[0].status == Paid && w.db.orders[0].total == 100
    ensures QtyOf(w.db.orders[0].items, 0) == 1 && MintedCount(w.db.tickets, 0, 0) == 0
    ensures w.db.refunds == [] && w.deliveries == [Delivery(0, Handled)]
  {
    SeatTakenReachable();
    ReachableNext(SeatTaken(), Handle(0));
    hide Reachable, Next;
    w := Next(SeatTaken(), Handle(0));
    SeatSettlesStep();
    SeatIsOwed();
  }

  lemma SeatSettlesStep()
    ensures var w := Next(SeatTaken(), Handle(0));
      && w.db.orders == [SeatOrder(Paid)] && w.db.tickets == [] && w.db.refunds == [] && w.deliveries == [Delivery(0, Handled)]
  {
    hide NextCatalog, NextOrders, NextHolds, NextRefunds, CheckIn, HandleSucceeded, SucceededOutcomeOf, PayOff;
    SeatSettles(SeatTaken());
  }

  lemma SeatIsOwed()
    ensures QtyOf([BOUGHT], 0) == 1 && MintedCount([], 0, 0) == 0
  {
    assert [BOUGHT][..0] == [];
    assert QtyOf([], 0) == 0;
  }

  lemma SeatSettles(w: World)
    requires w == SeatTaken()
    ensures HandleSucceeded(w.db, 0) == PayOff(SetPayment(w.db, 0, Captured), 0) && SucceededOutcomeOf(w.db, 0) == PaidOff
    ensures var after := PayOff(SetPayment(w.db, 0, Captured), 0);
      after.tickets == [] && after.orders == [SeatOrder(Paid)] && after.refunds == []
  {
    assert w.db.payments[..0] == [];
    assert PaymentByIntent(w.db.payments, 0) == Some(0);
    assert Bound(w.db.holds, 0) == {};
    assert [BOUGHT][..0] == [] && w.db.seats[..0] == [];
    assert GaTickets(0, w.db.tiers, [BOUGHT]) == [];
    assert SeatTickets(0, w.db.seats, {}) == [];
  }

  // ---- a refund whose money moved and which can never be booked ----

  const TICKET: Item := Item(0, 1, 100)

  ghost function GaSale(): World {
    Start().(db := Start().db.(published := {0}, tiers := [Tier(0, Ga, 100)], stock := [Stock(1, 1, 10)]))
  }

  ghost function GaOrder(status: OrderStatus): Order {
    Order(0, status, 100, 0, None, [TICKET], Some(20))
  }

  ghost function GaDraft(): OrderDraft {
    OrderDraft(0, [TICKET], [], {}, "", None, 100, Some(20))
  }

  ghost function GaOrdered(): World {
    GaSale().(db := GaSale().db.(stock := [Stock(1, 0, 10)], orders := [GaOrder(AwaitingPayment)]),
              orderDrafts := [GaDraft()], checkouts := {0})
  }

  ghost function GaPaid(): World {
    GaOrdered().(
      checkouts := {},
      db := GaOrdered().db.(orders := [GaOrder(Paid)], payments := [Payment(0, 0, 100, Captured)],
                            tickets := [GaTicket(0, 0)], webhooks := map[0 := false]),
      vendor := Vendor([Intent(0, 100, IntentSucceeded, 0)], map[], 0, [SucceededEvent(0)]),
      deliveries := [Delivery(0, Handled)])
  }

  lemma GaSaleReachable()
    ensures Reachable(GaSale())
  {
    hide Reachable, NextOrders, NextHolds, NextWebhooks, NextRefunds, CheckIn;
    StartReachable();
    ReachableNext(Start(), Publish(0));
    var w1 := Start().(db := Start().db.(published := {0}));
    assert Next(Start(), Publish(0)) == w1;
    ReachableNext(w1, DoAddTier(0, 100, 1, 10));
    assert Next(w1, DoAddTier(0, 100, 1, 10)) == GaSale();
  }

  lemma GaDraftRead()
    ensures DraftOrder(GaSale().db, OrderRequest(0, [(0, 1)], {}, None, None, 20)) == Some(GaDraft())
  {
    var db, lines := GaSale().db, [(0, 1)];
    assert LineAccepted(db, 0, lines[0]);
    assert PricedLines(db.tiers, lines) == [TICKET];
    OneTicket();
  }

  lemma OneTicket()
    ensures ItemsValue([TICKET]) == 100 && QtyOf([TICKET], 0) == 1 && PriceOf([TICKET], 0) == 100
  {
    assert [TICKET][..0] == [];
    assert ItemsValue([]) == 0 && QtyOf([], 0) == 0;
  }

  lemma GaCommits()
    ensures CommitOutcomeOf(GaSale().db, GaDraft()) == Reserved(0)
    ensures CommitOrder(GaSale().db, GaDraft()) == GaOrdered().db
  {
    var db, d := GaSale().db, GaDraft();
    OneTicket();
    assert CanClaim(db.stock, d.ga);
    assert TakeItems(db.stock, d.ga) == [Stock(1, 0, 10)];
    assert DraftItems(d) == [TICKET];
    assert BindHolds(db, d) == map[];
  }

  lemma GaOrderedReachable()
    ensures Reachable(GaOrdered())
  {
    hide Reachable, NextCatalog, NextHolds, NextWebhooks, NextRefunds, CheckIn, DraftOrder, CommitOrder, CommitOutcomeOf;
    GaSaleReachable();
    GaDraftRead();
    GaCommits();
    var r := OrderRequest(0, [(0, 1)], {}, None, None, 20);
    ReachableNext(GaSale(), ReadOrder(r));
    var w1 := GaSale().(orderDrafts := [GaDraft()]);
    assert Next(GaSale(), ReadOrder(r)) == w1;
    ReachableNext(w1, DoCommitOrder(0));
    assert Next(w1, DoCommitOrder(0)) == GaOrdered();
  }

  lemma GaSettles(db: Db)
    requires db == GaOrdered().db.(payments := [Payment(0, 0, 100, RequiresAction)], webhooks := map[0 := false])
    ensures SucceededOutcomeOf(db, 0) == PaidOff && HandleSucceeded(db, 0) == GaPaid().db
  {
    assert db.payments[..0] == [];
    assert PaymentByIntent(db.payments, 0) == Some(0);
    assert Bound(db.holds, 0) == {};
    assert [TICKET][..0] == [];
    assert Copies(GaTicket(0, 0), 1) == [GaTicket(0, 0)];
    assert GaTickets(0, db.tiers, [TICKET]) == [GaTicket(0, 0)];
    assert TakeSeats(db.stock, db.seats, {}) == db.stock;
  }

  lemma GaPaidReachable()
    ensures Reachable(GaPaid())
  {
    hide Reachable, NextCatalog, NextOrders, NextHolds, NextRefunds, CheckIn, HandleSucceeded, SucceededOutcomeOf;
    GaOrderedReachable();
    CheckoutRecords(GaOrdered());
    var w1 := GaOrdered().(vendor := Vendor([Intent(0, 100, IntentOpen, 0)], map[], 0, []), checkouts := {},
                           db := GaOrdered().db.(payments := [Payment(0, 0, 100, RequiresAction)]));
    PaidAndDelivered(w1);
    var w2 := w1.(vendor := Vendor([Intent(0, 100, IntentSucceeded, 0)], map[], 0, [SucceededEvent(0)]),
                  db := w1.db.(webhooks := map[0 := false]), deliveries := [Delivery(0, Received)]);
    GaSettles(w2.db);
    ReachableNext(w2, Handle(0));
    assert Next(w2, Handle(0)) == GaPaid();
  }

  ghost function GaRefundDraft(): RefundDraft {
    RefundDraft(0, {0}, 100, None, Some(0))
  }

  ghost function GaRefunded(status: RefundStatus): World {
    GaPaid().(
      db := GaPaid().db.(stock := [Stock(1, 1, 10)], tickets := [Ticket(0, 0, None, Void, Some(0))],
                         refunds := [Refund(0, 100, status, None, true, None)]),
      refundDrafts := [GaRefundDraft()],
      legs := [Leg(0, 0, 100)])
  }

  lemma GaRefundRead()
    ensures DraftRefund(GaPaid().db, 0, 0, {0}, None) == Some(GaRefundDraft())
  {
  }

  lemma GaRefundCommits()
    ensures RefundCommits(GaPaid().db, GaRefundDraft())
    ensures CommitRefund(GaPaid().db, GaRefundDraft()) == GaRefunded(Pending).db
  {
  }

  lemma GaRefundedReachable()
    ensures Reachable(GaRefunded(Pending))
  {
    hide Reachable, NextCatalog, NextOrders, NextHolds, NextWebhooks, CheckIn, DraftRefund, CommitRefund, RefundCommits;
    GaPaidReachable();
    GaRefundRead();
    GaRefundCommits();
    ReachableNext(GaPaid(), ReadRefund(0, 0, {0}, None));
    var w1 := GaPaid().(refundDrafts := [GaRefundDraft()]);
    assert Next(GaPaid(), ReadRefund(0, 0, {0}, None)) == w1;
    ReachableNext(w1, DoCommitRefund(0));
    assert Next(w1, DoCommitRefund(0)) == GaRefunded(Pending);
  }

  /** The vendor has paid the refund back, the API has been told the call failed. */
  ghost function GaLost(): World {
    GaRefunded(Failed).(vendor := Vendor([Intent(0, 100, IntentSucceeded, 100)], map[0 := 0], 1,
                                         [SucceededEvent(0), RefundedEvent(0, Some(0), 0, 100)]))
  }

  lemma GaLostReachable()
    ensures Reachable(GaLost())
  {
    hide Reachable, NextCatalog, NextOrders, NextHolds, NextWebhooks, CheckIn, CommitRefundDraft, DraftRefund;
    GaRefundedReachable();
    var w0 := GaRefunded(Pending);
    ReachableNext(w0, LegArrives(0));
    var w1 := w0.(vendor := GaLost().vendor);
    assert Next(w0, LegArrives(0)) == w1;
    ReachableNext(w1, LegFails(0));
    assert Next(w1, LegFails(0)) == GaLost();
  }

  ghost function GaStranded(): World {
    GaLost().(db := GaLost().db.(webhooks := map[0 := false, 1 := true]),
              deliveries := [Delivery(0, Handled), Delivery(1, Acknowledged)])
  }

  lemma GaStrandedReachable()
    ensures Reachable(GaStranded())
  {
    hide Reachable, NextCatalog, NextOrders, NextHolds, NextRefunds, CheckIn, HandleSucceeded, SucceededOutcomeOf, HandleFailed;
    GaLostReachable();
    ReachableNext(GaLost(), Deliver(1));
    var w1 := GaLost().(db := GaLost().db.(webhooks := map[0 := false, 1 := false]),
                        deliveries := [Delivery(0, Handled), Delivery(1, Received)]);
    assert Next(GaLost(), Deliver(1)) == w1;
    ReachableNext(w1, Handle(1));
    var w2 := w1.(deliveries := [Delivery(0, Handled), Delivery(1, Handled)]);
    assert Next(w1, Handle(1)) == w2;
    ReachableNext(w2, MarkProcessed(1));
    assert Next(w2, MarkProcessed(1)) == GaStranded();
  }

  /** A refund the vendor has paid in full but the API never books, whatever follows: its call was reported
      failed, and its settlement webhook came and was acknowledged while it was failed. */
  lemma StrandedRefundExists(after: seq<Action>) returns (w: World)
    ensures Reachable(w) && |w.db.refunds| == 1 && w.db.refunds[0].status == Failed
    ensures |w.vendor.intents| == 1 && w.vendor.intents[0].refunded == w.db.refunds[0].amount == 100
    ensures |Run(w, after).db.refunds| >= 1 && Run(w, after).db.refunds[0].status != Settled
  {
    hide Reachable, Next, Run;
    w := GaStranded();
    GaStrandedReachable();
    assert Stranded(w, 0);
    StrandedForever(w, after, 0);
  }

  // ---- a compensation that a crash loses ----

  ghost function GaExpired(): World {
    GaOrdered().(checkouts := {}, vendor := Vendor([Intent(0, 100, IntentOpen, 0)], map[], 0, []),
                 db := GaOrdered().db.(payments := [Payment(0, 0, 100, RequiresAction)], stock := [Stock(1, 1, 10)],
                                       orders := [GaOrder(Expired)]))
  }

  lemma GaExpires(db: Db)
    requires db == GaOrdered().db.(payments := [Payment(0, 0, 100, RequiresAction)])
    ensures Release(db, 0, Expired) == GaExpired().db
  {
    OneTicket();
    assert Bound(db.holds, 0) == {} && db.holds - {} == db.holds;
    assert GiveGaItems(db.stock, db.tiers, [TICKET]) == [Stock(1, 1, 10)];
  }

  lemma GaExpiredReachable()
    ensures Reachable(GaExpired())
  {
    hide Reachable, NextCatalog, NextHolds, NextWebhooks, NextRefunds, CheckIn, Release;
    GaOrderedReachable();
    CheckoutRecords(GaOrdered());
    var w1 := GaOrdered().(vendor := Vendor([Intent(0, 100, IntentOpen, 0)], map[], 0, []), checkouts := {},
                           db := GaOrdered().db.(payments := [Payment(0, 0, 100, RequiresAction)]));
    GaExpires(w1.db);
    ReachableNext(w1, ExpireOrder(0));
    assert Next(w1, ExpireOrder(0)) == GaExpired();
  }

  /** The payment came after the order expired; the handler has captured it and not yet compensated. */
  ghost function GaOwing(): World {
    GaExpired().(
      db := GaExpired().db.(payments := [Payment(0, 0, 100, Captured)], webhooks := map[0 := false]),
      vendor := Vendor([Intent(0, 100, IntentSucceeded, 0)], map[], 0, [SucceededEvent(0)]),
      deliveries := [Delivery(0, Owing(0, 100, 0))])
  }

  lemma GaOwingReachable()
    ensures Reachable(GaOwing())
  {
    hide Reachable, NextCatalog, NextOrders, NextHolds, NextRefunds, CheckIn, PayOff;
    GaExpiredReachable();
    PaidAndDelivered(GaExpired());
    var w2 := GaExpired().(vendor := Vendor([Intent(0, 100, IntentSucceeded, 0)], map[], 0, [SucceededEvent(0)]),
                           db := GaExpired().db.(webhooks := map[0 := false]), deliveries := [Delivery(0, Received)]);
    assert w2.db.payments[..0] == [];
    assert PaymentByIntent(w2.db.payments, 0) == Some(0);
    ReachableNext(w2, Handle(0));
    assert Next(w2, Handle(0)) == GaOwing();
  }

  /** A captured payment that is never given back: if the handler dies between its transaction and the
      compensation, no redelivery and no later step of anyone else opens the refund. */
  lemma LostMoneyExists(after: seq<Action>) returns (w: World)
    requires DoCompensate(0) !in after
    ensures Reachable(w) && |w.db.payments| == 1 && w.db.payments[0].status == Captured
    ensures |w.db.orders| == 1 && w.db.orders[0].status == Expired
    ensures forall r | 0 <= r < |Run(w, after).db.refunds| ::
      Run(w, after).db.refunds[r].order == 0 ==> Run(w, after).db.refunds[r].byUser
  {
    hide Reachable, Next, Run;
    w := GaOwing();
    GaOwingReachable();
    LostCompensation(w, after, 0);
  }
}
