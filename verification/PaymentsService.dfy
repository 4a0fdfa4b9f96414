/** Payment webhooks as the service handles them: record, then process, then mark. */
module PaymentsService {
  import opened Tables
  import opened Issuing
  import Weights
  import opened Transactions
  import opened Invariants
  import opened InventorySales
  import opened Protocol
  import opened Steps
  import opened Once
  import opened OrderAnswers
  import opened MoneyAnswers
  import opened Counters
  import opened Store
  import opened OrdersService
  import opened RefundsService

  datatype RecordResult = FreshEvent | Unprocessed | Processed

  /** What one uninterrupted delivery of event `e` (with id `id`) does: nothing if the event is marked, else
      its settlement transaction, the compensation that outcome asks for, and the mark. */
  ghost function Delivered(db: Db, id: nat, e: VendorEvent): Db {
    if id in db.webhooks && db.webhooks[id] then db
    else
      var recorded := Recorded(db, id);
      var handled := Compensated(recorded, EventEffect(recorded, e), e);
      handled.(webhooks := handled.webhooks[id := true])
  }

  ghost function Recorded(db: Db, id: nat): Db {
    if id in db.webhooks then db else db.(webhooks := db.webhooks[id := false])
  }

  ghost function Compensated(before: Db, after: Db, e: VendorEvent): Db {
    if e.SucceededEvent? && SucceededOutcomeOf(before, e.intent).Unfulfillable?
    then Compensate(after, SucceededOutcomeOf(before, e.intent).order, SucceededOutcomeOf(before, e.intent).amount)
    else after
  }

  class PaymentsService {
    const db: Database
    const orders: OrdersService
    const refunds: RefundsService

    ghost predicate Wired() {
      orders.db == db && refunds.db == db
    }

    constructor (orders: OrdersService, refunds: RefundsService)
      requires orders.db == refunds.db
      ensures Wired() && this.orders == orders && this.refunds == refunds
    {
      this.db := orders.db;
      this.orders := orders;
      this.refunds := refunds;
    }

    method RecordEvent(id: nat) returns (result: RecordResult)
      modifies db`webhooks
      ensures db.webhooks == if id in old(db.webhooks) then old(db.webhooks) else old(db.webhooks)[id := false]
      ensures result == (if id !in old(db.webhooks) then FreshEvent else if old(db.webhooks)[id] then Processed else Unprocessed)
    {
      if id !in db.webhooks {
        db.webhooks := db.webhooks[id := false];
        return FreshEvent;
      }
      return if db.webhooks[id] then Processed else Unprocessed;
    }

    /** Settlement of an awaiting order: consume its holds, count seats by tier, decrement, issue. */
    method Settle(o: nat)
      requires db.Valid() && o < |db.orders|
      modifies db
      ensures db.Snapshot() == PayOff(old(db.Snapshot()), o)
      ensures RowsPaid(old(db.Snapshot()), db.Snapshot(), o)
    {
      hide InventoryOk, Bound, Minted, TakeSeats, RowsPaid;
      PaidPromises(db.Snapshot(), o);
      SeatTiers(db.Snapshot());
      var items := db.orders[o].items;
      db.orders := db.orders[o := db.orders[o].(status := Paid)];
      var p := db.SeatsBoundTo(o);
      db.holds := db.holds - p;
      var counts := TallySeats(db.seats, p);
      var stock := ApplyTally(db.stock, counts, -1);
      TakenTally(db.stock, stock, db.seats, p, counts);
      db.stock := stock;
      var batch := Issue(o, items, p);
      db.tickets := db.tickets + batch;
      if p != {} {
        db.feed := db.feed + [SeatsSold(p)];
      }
    }

    method Issue(o: nat, items: seq<Item>, p: set<nat>) returns (batch: seq<Ticket>)
      ensures batch == Minted(o, db.tiers, items, db.seats, p)
    {
      var ga := IssueGa(o, db.tiers, items);
      var seated := IssueSeats(o, db.seats, p);
      batch := ga + seated;
    }

    method HandleSucceeded(i: nat) returns (outcome: SucceededOutcome)
      requires db.Valid()
      modifies db
      ensures db.Snapshot() == Transactions.HandleSucceeded(old(db.Snapshot()), i)
      ensures outcome == SucceededOutcomeOf(old(db.Snapshot()), i)
      ensures forall p | RowOfIntent(old(db.payments), i, p) :: RowsCaptured(old(db.Snapshot()), db.Snapshot(), p, outcome)
      ensures db.Valid()
    {
      hide InventoryOk, PayOff, PaymentByIntent, RowsCaptured, RowOfIntent;
      SuccessPromises(db.Snapshot(), i);
      HandleSucceededInventory(db.Snapshot(), i);
      var found := PaymentByIntent(db.payments, i);
      if found.None? || db.payments[found.value].status != RequiresAction {
        return Ignored;
      }
      var p := found.value;
      var o, amount := db.payments[p].order, db.payments[p].amount;
      PaymentRowFrame(db.Snapshot(), db.payments[p := db.payments[p].(status := Captured)]);
      db.payments := db.payments[p := db.payments[p].(status := Captured)];
      if o < |db.orders| && db.orders[o].status == AwaitingPayment {
        Settle(o);
        return PaidOff;
      }
      if o >= |db.orders| || !IsUnfulfillableStatus(db.orders[o].status) {
        return Ignored;
      }
      return Unfulfillable(o, amount);
    }

    method HandleFailed(i: nat)
      requires db.Valid() && Wired()
      modifies db
      ensures db.Snapshot() == Transactions.HandleFailed(old(db.Snapshot()), i)
      ensures forall p | RowOfIntent(old(db.payments), i, p) :: RowsDeclined(old(db.Snapshot()), db.Snapshot(), p)
      ensures db.Valid()
    {
      hide InventoryOk, Release, PaymentByIntent, RowsDeclined, RowsReleased, RowOfIntent;
      FailurePromises(db.Snapshot(), i);
      var found := PaymentByIntent(db.payments, i);
      if found.Some? && db.payments[found.value].status == RequiresAction {
        var p := found.value;
        PaymentRowFrame(db.Snapshot(), db.payments[p := db.payments[p].(status := Declined)]);
        db.payments := db.payments[p := db.payments[p].(status := Declined)];
        var released := orders.ReleaseInventory(db.payments[p].order, Canceled);
      }
    }

    method HandleRefunded(reference: Option<nat>, refundId: nat)
      requires db.Valid() && Wired()
      modifies db
      ensures db.Snapshot() == Transactions.HandleRefunded(old(db.Snapshot()), reference, refundId)
      ensures RowsRefunded(old(db.Snapshot()), db.Snapshot(), reference, refundId)
      ensures db.Valid()
    {
      hide InventoryOk, Transactions.Settle, RowsRefunded, RowsSettled;
      RefundAnswered(db.Snapshot(), reference, refundId);
      if reference.Some? && reference.value < |db.refunds| && db.refunds[reference.value].status == Pending {
        var r := reference.value;
        var claimed := db.refunds[r := db.refunds[r].(status := Settled, providerRefund := Some(refundId))];
        RefundRowFrame(db.Snapshot(), db.Snapshot().(refunds := claimed));
        db.refunds := claimed;
        refunds.Settle(db.refunds[r].order, db.refunds[r].amount);
      }
    }

    method Process(e: VendorEvent)
      requires db.Valid() && Wired()
      modifies db
      ensures db.Snapshot() == Compensated(old(db.Snapshot()), EventEffect(old(db.Snapshot()), e), e)
      ensures db.Valid()
    {
      hide InventoryOk, Transactions.HandleSucceeded, Transactions.HandleFailed, Transactions.HandleRefunded, SucceededOutcomeOf,
           Compensate;
      match e {
        case SucceededEvent(i) =>
          var outcome := HandleSucceeded(i);
          if outcome.Unfulfillable? {
            var row := refunds.Compensate(outcome.order, outcome.amount);
          }
        case FailedEvent(i) => HandleFailed(i);
        case RefundedEvent(_, reference, refundId, _) => HandleRefunded(reference, refundId);
        case UnknownEvent =>
      }
    }

    /** The webhook endpoint: record the event, stop if it is marked processed, process it, mark it. */
    method Webhook(id: nat, e: VendorEvent) returns (duplicate: bool)
      requires db.Valid() && Wired()
      modifies db
      ensures db.Snapshot() == Delivered(old(db.Snapshot()), id, e)
      ensures duplicate <==> id in old(db.webhooks) && old(db.webhooks)[id]
      ensures db.Valid()
    {
      hide InventoryOk, Compensated, EventEffect;
      ghost var before := db.Snapshot();
      var result := RecordEvent(id);
      if result == Processed {
        assert db.Snapshot() == before;
        return true;
      }
      WebhookFrame(before, db.webhooks);
      Process(e);
      ghost var handled := db.Snapshot();
      db.webhooks := db.webhooks[id := true];
      WebhookFrame(handled, db.webhooks);
      return false;
    }
  }

  lemma PaidPromises(db: Db, o: nat)
    requires InventoryOk(db) && o < |db.orders|
    ensures RowsPaid(db, PayOff(db, o), o)
  {
    hide PayOff, RowsPaid;
    OrderPaid(db, o);
  }

  lemma SuccessPromises(db: Db, i: nat)
    requires InventoryOk(db)
    ensures forall p | RowOfIntent(db.payments, i, p) ::
      RowsCaptured(db, Transactions.HandleSucceeded(db, i), p, SucceededOutcomeOf(db, i))
  {
    hide Transactions.HandleSucceeded, SucceededOutcomeOf, RowsCaptured;
    forall p | RowOfIntent(db.payments, i, p)
      ensures RowsCaptured(db, Transactions.HandleSucceeded(db, i), p, SucceededOutcomeOf(db, i))
    {
      SuccessAnswered(db, i, p);
    }
  }

  lemma FailurePromises(db: Db, i: nat)
    requires InventoryOk(db)
    ensures forall p | RowOfIntent(db.payments, i, p) :: RowsDeclined(db, Transactions.HandleFailed(db, i), p)
  {
    hide Transactions.HandleFailed, RowsDeclined;
    forall p | RowOfIntent(db.payments, i, p) ensures RowsDeclined(db, Transactions.HandleFailed(db, i), p) {
      FailureAnswered(db, i, p);
    }
  }

  lemma SeatTiers(db: Db)
    requires InventoryOk(db)
    ensures forall s | 0 <= s < |db.seats| :: db.seats[s].tier < |db.stock|
  {
  }

  lemma TakenTally(stock: seq<Stock>, after: seq<Stock>, seats: seq<Seat>, p: set<nat>, counts: map<nat, nat>)
    requires |after| == |stock| && forall t: nat :: Weights.SeatCount(seats, p, t) == if t in counts then counts[t] else 0
    requires forall t: nat | t < |stock| ::
      after[t] == if t in counts then stock[t].(remaining := stock[t].remaining - counts[t]) else stock[t]
    ensures after == TakeSeats(stock, seats, p)
  {
  }

  lemma PaymentRowFrame(db: Db, payments2: seq<Payment>)
    requires InventoryOk(db)
    ensures InventoryOk(db.(payments := payments2))
  {
  }

  lemma WebhookFrame(db: Db, webhooks2: map<nat, bool>)
    requires InventoryOk(db)
    ensures InventoryOk(db.(webhooks := webhooks2))
  {
  }

  ghost function DeliveredAll(db: Db, webhooks: seq<(nat, VendorEvent)>): Db {
    if webhooks == [] then db
    else
      var (id, e) := webhooks[|webhooks| - 1];
      Delivered(DeliveredAll(db, webhooks[..|webhooks| - 1]), id, e)
  }

  lemma EffectKeepsMarks(db: Db, e: VendorEvent)
    ensures EventEffect(db, e).webhooks == db.webhooks
  {
    hide GiveGaItems, Bound, Minted, TakeSeats;
  }

  lemma MarkStays(db: Db, id: nat, other: nat, e: VendorEvent)
    requires id in db.webhooks && db.webhooks[id]
    ensures var after := Delivered(db, other, e).webhooks; id in after && after[id]
  {
    hide EventEffect;
    EffectKeepsMarks(Recorded(db, other), e);
  }

  lemma {:induction false} MarksStay(db: Db, id: nat, webhooks: seq<(nat, VendorEvent)>)
    requires id in db.webhooks && db.webhooks[id]
    ensures var after := DeliveredAll(db, webhooks).webhooks; id in after && after[id]
  {
    hide Delivered;
    if webhooks != [] {
      var (other, e) := webhooks[|webhooks| - 1];
      MarksStay(db, id, webhooks[..|webhooks| - 1]);
      MarkStays(DeliveredAll(db, webhooks[..|webhooks| - 1]), id, other, e);
    }
  }

  /** Sending the same webhook again, after any others, changes nothing, whatever it then says. */
  lemma RedeliveryChangesNothing(db: Db, id: nat, e: VendorEvent, others: seq<(nat, VendorEvent)>, again: VendorEvent)
    ensures var after := DeliveredAll(Delivered(db, id, e), others); Delivered(after, id, again) == after
  {
    hide EventEffect, Recorded, Compensated;
    MarksStay(Delivered(db, id, e), id, others);
  }

  // ---- an uninterrupted delivery is four steps of the protocol ----

  /** The delivery at the end of the line carries event `id` and stands at `stage`. */
  ghost predicate LastDelivery(w: World, w0: World, id: nat, stage: Stage) {
    && |w.deliveries| == |w0.deliveries| + 1 && w.deliveries[|w0.deliveries|] == Delivery(id, stage)
    && w.vendor == w0.vendor
  }

  lemma StepRecords(w: World, id: nat)
    requires id < |w.vendor.events| && !(id in w.db.webhooks && w.db.webhooks[id])
    ensures RecordDelivery(w, id).db == Recorded(w.db, id) && LastDelivery(RecordDelivery(w, id), w, id, Received)
  {
  }

  lemma StepHandles(w: World, w0: World, id: nat)
    requires LastDelivery(w, w0, id, Received) && id < |w0.vendor.events|
    ensures var e, after := w0.vendor.events[id], HandleDelivery(w, |w0.deliveries|);
      && after.db == EventEffect(w.db, e)
      && LastDelivery(after, w0, id,
           if e.SucceededEvent? && SucceededOutcomeOf(w.db, e.intent).Unfulfillable?
           then Owing(SucceededOutcomeOf(w.db, e.intent).order, SucceededOutcomeOf(w.db, e.intent).amount, e.intent)
           else Handled)
  {
  }

  lemma StepCompensates(w: World, w0: World, before: Db, id: nat, e: VendorEvent)
    requires LastDelivery(w, w0, id,
               if e.SucceededEvent? && SucceededOutcomeOf(before, e.intent).Unfulfillable?
               then Owing(SucceededOutcomeOf(before, e.intent).order, SucceededOutcomeOf(before, e.intent).amount, e.intent)
               else Handled)
    ensures var after := CompensateDelivery(w, |w0.deliveries|);
      after.db == Compensated(before, w.db, e) && LastDelivery(after, w0, id, Handled)
  {
  }

  lemma StepMarks(w: World, w0: World, id: nat)
    requires LastDelivery(w, w0, id, Handled)
    ensures MarkDelivery(w, |w0.deliveries|).db == w.db.(webhooks := w.db.webhooks[id := true])
  {
  }

  lemma WebhookSteps(w: World, id: nat, d: nat)
    ensures Next(w, Deliver(id)) == RecordDelivery(w, id) && Next(w, Handle(d)) == HandleDelivery(w, d)
    ensures Next(w, DoCompensate(d)) == CompensateDelivery(w, d) && Next(w, MarkProcessed(d)) == MarkDelivery(w, d)
  {
    hide RecordDelivery, HandleDelivery, CompensateDelivery, MarkDelivery, NextCatalog, NextHolds, NextOrders, NextRefunds, CheckIn;
  }

  /** What the endpoint does without interruption is what the protocol's four steps do one after another. */
  lemma DeliveryIsSchedule(w: World, id: nat)
    requires id < |w.vendor.events| && !(id in w.db.webhooks && w.db.webhooks[id])
    ensures var d := |w.deliveries|;
      Next(Next(Next(Next(w, Deliver(id)), Handle(d)), DoCompensate(d)), MarkProcessed(d)).db
      == Delivered(w.db, id, w.vendor.events[id])
  {
    hide Next, RecordDelivery, HandleDelivery, CompensateDelivery, MarkDelivery, LastDelivery, SucceededOutcomeOf, EventEffect,
         Compensated;
    var d, e := |w.deliveries|, w.vendor.events[id];
    var received := RecordDelivery(w, id);
    var handled := HandleDelivery(received, d);
    var paid := CompensateDelivery(handled, d);
    WebhookSteps(w, id, d);
    WebhookSteps(received, id, d);
    WebhookSteps(handled, id, d);
    WebhookSteps(paid, id, d);
    StepRecords(w, id);
    StepHandles(received, w, id);
    StepCompensates(handled, w, received.db, id, e);
    StepMarks(paid, w, id);
  }
}
