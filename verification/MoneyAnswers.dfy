/** What webhooks, refunds and the vendor answer and what they change, said of the rows alone. */
module MoneyAnswers {
  import opened Tables
  import opened Sums
  import opened Weights
  import opened Transactions
  import opened Protocol
  import opened Invariants
  import opened Once
  import opened OrderAnswers

  // ---- payment webhooks ----

  /** The one payment row of intent `i` is `p`. */
  ghost predicate RowOfIntent(payments: seq<Payment>, i: nat, p: nat) {
    UniqueIntents(payments) && p < |payments| && payments[p].intent == i
  }

  ghost predicate Orderly(db: Db) {
    CatalogOk(db.tiers, db.stock, db.seats) && OrdersOk(db.tiers, db.orders)
  }

  /** An open payment is captured, whatever became of its order: one that awaits payment is paid off, one that
      expired or was canceled is reported with the order and amount of the payment row. Any other payment is
      left alone. */
  ghost predicate RowsCaptured(db: Db, db2: Db, p: nat, outcome: SucceededOutcome)
    requires p < |db.payments|
  {
    var row := db.payments[p];
    var captured := db.(payments := db.payments[p := row.(status := Captured)]);
    if row.status != RequiresAction then db2 == db && outcome == Ignored
    else if row.order < |db.orders| && db.orders[row.order].status == AwaitingPayment
    then outcome == PaidOff && RowsPaid(captured, db2, row.order)
    else
      && db2 == captured
      && outcome == (if row.order < |db.orders| && db.orders[row.order].status in {Expired, Canceled}
                     then Unfulfillable(row.order, row.amount) else Ignored)
  }

  lemma SuccessAnswered(db: Db, i: nat, p: nat)
    requires Orderly(db) && RowOfIntent(db.payments, i, p)
    ensures RowsCaptured(db, HandleSucceeded(db, i), p, SucceededOutcomeOf(db, i))
  {
    FoundIsIt(db.payments, p);
    var row := db.payments[p];
    var captured := db.(payments := db.payments[p := row.(status := Captured)]);
    hide PayOff, RowsPaid;
    if row.order < |db.orders| {
      OrderPaid(captured, row.order);
    }
  }

  /** An open payment is declined and its order, if it still awaits payment, released as canceled. */
  ghost predicate RowsDeclined(db: Db, db2: Db, p: nat)
    requires p < |db.payments|
  {
    var row := db.payments[p];
    if row.status != RequiresAction then db2 == db
    else RowsReleased(db.(payments := db.payments[p := row.(status := Declined)]), db2, row.order, Canceled)
  }

  lemma FailureAnswered(db: Db, i: nat, p: nat)
    requires Orderly(db) && RowOfIntent(db.payments, i, p)
    ensures RowsDeclined(db, HandleFailed(db, i), p)
  {
    FoundIsIt(db.payments, p);
    hide Release, RowsReleased;
    OrderReleased(db.(payments := db.payments[p := db.payments[p].(status := Declined)]), db.payments[p].order, Canceled);
  }

  /** A payment the database has no row of changes nothing. */
  lemma UnknownIntent(db: Db, i: nat)
    requires forall p | 0 <= p < |db.payments| :: db.payments[p].intent != i
    ensures HandleSucceeded(db, i) == db && SucceededOutcomeOf(db, i) == Ignored && HandleFailed(db, i) == db
  {
  }

  // ---- refunds ----

  ghost predicate AllVoid(tickets: seq<Ticket>, o: nat) {
    forall k | 0 <= k < |tickets| && tickets[k].order == o :: tickets[k].status == Void
  }

  lemma NoneLive(tickets: seq<Ticket>, o: nat)
    ensures LiveOf(tickets, o) == 0 <==> AllVoid(tickets, o)
  {
    var rows := TotalCounts(LiveFor(o), tickets);
    if AllVoid(tickets, o) {
      assert rows == {};
    } else {
      var k :| 0 <= k < |tickets| && tickets[k].order == o && tickets[k].status != Void;
      assert k in rows;
    }
  }

  /** Money back for order `o`: its `refunded` grows by the amount, and a paid or partially refunded order becomes
      refunded exactly when all its tickets are void, else partially refunded. Every other order, and the status
      of an order that is already refunded or was never paid, stays. */
  ghost predicate RowsSettled(db: Db, db2: Db, o: nat, amount: int) {
    if o >= |db.orders| then db2 == db
    else
      var was := db.orders[o];
      && db2 == db.(orders := db2.orders) && |db2.orders| == |db.orders|
      && (forall q | 0 <= q < |db.orders| && q != o :: db2.orders[q] == db.orders[q])
      && db2.orders[o] == was.(refunded := was.refunded + amount, status := db2.orders[o].status)
      && (was.status in {Paid, PartiallyRefunded} ==>
            db2.orders[o].status == if AllVoid(db.tickets, o) then Refunded else PartiallyRefunded)
      && (was.status !in {Paid, PartiallyRefunded} ==> db2.orders[o].status == was.status)
  }

  lemma MoneyBack(db: Db, o: nat, amount: int)
    ensures RowsSettled(db, Settle(db, o, amount), o, amount)
  {
    NoneLive(db.tickets, o);
    hide LiveOf, AllVoid;
  }

  /** A refund webhook settles the pending refund its reference names, by the order and amount of that row, and
      stores the vendor's id; it changes nothing when there is no such refund or it is not pending. */
  ghost predicate RowsRefunded(db: Db, db2: Db, reference: Option<nat>, id: nat) {
    if reference.None? || reference.value >= |db.refunds| || db.refunds[reference.value].status != Pending then db2 == db
    else
      var r, row := reference.value, db.refunds[reference.value];
      RowsSettled(db.(refunds := db.refunds[r := row.(status := Settled, providerRefund := Some(id))]), db2, row.order, row.amount)
  }

  lemma RefundAnswered(db: Db, reference: Option<nat>, id: nat)
    ensures RowsRefunded(db, HandleRefunded(db, reference, id), reference, id)
  {
    hide Settle, RowsSettled;
    if reference.Some? && reference.value < |db.refunds| {
      var r, row := reference.value, db.refunds[reference.value];
      MoneyBack(db.(refunds := db.refunds[r := row.(status := Settled, providerRefund := Some(id))]), row.order, row.amount);
    }
  }

  /** A refund is drafted for at least one ticket, all of them the order's, of a paid or partially refunded order of
      the event, under a key not used for it, at their price and for the order's payment. */
  lemma RefundDrafted(db: Db, event: nat, o: nat, ids: set<nat>, key: Option<string>)
    ensures var draft := DraftRefund(db, event, o, ids, key);
      && (draft.Some? <==>
            && ids != {} && o < |db.orders| && db.orders[o].event == event && db.orders[o].status in {Paid, PartiallyRefunded}
            && (forall k | k in ids :: k < |db.tickets| && db.tickets[k].order == o)
            && (key.Some? ==> forall r | 0 <= r < |db.refunds| :: !(db.refunds[r].order == o && db.refunds[r].key == key)))
      && (draft.Some? ==>
            && draft.value.order == o && draft.value.ids == ids && draft.value.key == key
            && draft.value.amount == PickValue(db.tickets, ids, db.orders[o].items)
            && (draft.value.intent.Some? ==>
                  exists p :: 0 <= p < |db.payments| && db.payments[p].order == o && db.payments[p].intent == draft.value.intent.value)
            && (draft.value.intent.None? ==> forall p | 0 <= p < |db.payments| :: db.payments[p].order != o))
  {
    hide PickValue;
  }

  ghost function PickedOfTier(tickets: seq<Ticket>, ids: set<nat>, t: nat): set<nat> {
    set k | k in ids && k < |tickets| && tickets[k].tier == t
  }

  lemma PickedCounted(tickets: seq<Ticket>, ids: set<nat>, t: nat)
    ensures PickCount(tickets, ids, t) == |PickedOfTier(tickets, ids, t)|
  {
    var rows := TotalCounts(PickIn(ids, t), tickets);
    assert rows == PickedOfTier(tickets, ids, t);
  }

  /** A refund can be made: its key is unused on the order and every ticket it names is the order's and issued. */
  ghost predicate Refundable(db: Db, d: RefundDraft) {
    && (d.key.Some? ==> forall r | 0 <= r < |db.refunds| :: !(db.refunds[r].order == d.order && db.refunds[r].key == d.key))
    && (forall k | k in d.ids :: k < |db.tickets| && db.tickets[k].order == d.order && db.tickets[k].status == Issued)
  }

  /** The tickets named are void and name the refund, their places are back on the counters, their seats are
      announced free. */
  ghost predicate RowsReclaimed(db: Db, db2: Db, ids: set<nat>) {
    && |db2.tickets| == |db.tickets|
    && (forall k | 0 <= k < |db.tickets| ::
          db2.tickets[k] == if k in ids then db.tickets[k].(status := Void, refund := Some(|db.refunds|)) else db.tickets[k])
    && CountersDrop(db.stock, db2.stock, (t: nat) => 0 - |PickedOfTier(db.tickets, ids, t)|)
    && db2.feed == (if SeatsFreed(db.tickets, ids) == {} then db.feed else db.feed + [SeatsReleased(SeatsFreed(db.tickets, ids))])
  }

  ghost function SeatsFreed(tickets: seq<Ticket>, ids: set<nat>): (freed: set<nat>)
    ensures forall s :: s in freed <==> exists k :: k in ids && k < |tickets| && tickets[k].seat == Some(s)
  {
    set k | k in ids && k < |tickets| && tickets[k].seat.Some? :: tickets[k].seat.value
  }

  /** A refund is made in full or not at all: one row, pending, and its tickets reclaimed before any money moves;
      one that costs nothing is settled on the spot. */
  ghost predicate RowsRefundMade(db: Db, db2: Db, d: RefundDraft) {
    if !Refundable(db, d) then db2 == db
    else
      && db2.refunds == db.refunds + [Refund(d.order, d.amount, if d.amount == 0 then Settled else Pending, d.key, true, None)]
      && RowsReclaimed(db, db2, d.ids)
      && db2 == db.(refunds := db2.refunds, tickets := db2.tickets, stock := db2.stock, feed := db2.feed, orders := db2.orders)
      && (d.amount != 0 ==> db2.orders == db.orders)
      && (d.amount == 0 ==> RowsSettled(db2.(orders := db.orders), db2, d.order, 0))
  }

  lemma ReclaimedRows(db: Db, d: RefundDraft)
    requires RefundCommits(db, d)
    ensures var freed := SeatsOfTickets(db.tickets, d.ids);
      RowsReclaimed(db, db.(tickets := VoidTickets(db.tickets, d.ids, |db.refunds|), stock := GivePicked(db.stock, db.tickets, d.ids),
                            feed := if freed == {} then db.feed else db.feed + [SeatsReleased(freed)]), d.ids)
  {
    hide PickCount;
    forall t: nat ensures PickCount(db.tickets, d.ids, t) == |PickedOfTier(db.tickets, d.ids, t)| {
      PickedCounted(db.tickets, d.ids, t);
    }
    hide PickedOfTier;
    assert SeatsOfTickets(db.tickets, d.ids) == SeatsFreed(db.tickets, d.ids);
    hide SeatsOfTickets, SeatsFreed;
  }

  lemma RefundMade(db: Db, d: RefundDraft)
    ensures RowsRefundMade(db, CommitRefund(db, d), d)
    ensures RefundCommits(db, d) <==> Refundable(db, d)
  {
    assert RefundCommits(db, d) <==> Refundable(db, d);
    if RefundCommits(db, d) {
      ReclaimedRows(db, d);
      hide RefundCommits, Refundable, RowsReclaimed, RowsSettled, Settle, VoidTickets, GivePicked, SeatsOfTickets;
      var freed := SeatsOfTickets(db.tickets, d.ids);
      var reclaimed := db.(
        refunds := db.refunds + [RefundRow(d)],
        tickets := VoidTickets(db.tickets, d.ids, |db.refunds|),
        stock := GivePicked(db.stock, db.tickets, d.ids),
        feed := if freed == {} then db.feed else db.feed + [SeatsReleased(freed)]);
      if d.amount == 0 {
        MoneyBack(reclaimed, d.order, 0);
      }
    }
  }

  /** The system opens one refund per order, and none beside a row that bears its key. */
  ghost predicate RowsCompensated(db: Db, db2: Db, o: nat, amount: int) {
    if exists r :: 0 <= r < |db.refunds| && db.refunds[r].order == o
                   && (!db.refunds[r].byUser || db.refunds[r].key == Some("system:compensation"))
    then db2 == db
    else db2 == db.(refunds := db.refunds + [Refund(o, amount, Pending, Some("system:compensation"), false, None)])
  }

  lemma CompensationAnswered(db: Db, o: nat, amount: int)
    ensures RowsCompensated(db, Compensate(db, o, amount), o, amount)
    ensures CompensationAccepted(db, o) <==> Compensate(db, o, amount) != db
  {
  }

  /** A payment is recorded once per order and once per intent, open and for the amount asked. */
  lemma PaymentRecorded(db: Db, o: nat, i: nat, amount: int)
    ensures AddPayment(db, o, i, amount)
         == if exists p :: 0 <= p < |db.payments| && (db.payments[p].order == o || db.payments[p].intent == i) then db
            else db.(payments := db.payments + [Payment(o, i, amount, RequiresAction)])
  {
  }

  /** The end of a refund call: an answer stores the vendor's id, a failure marks only a pending refund failed, and a
      retry reopens only a failed one. */
  lemma CallEnded(db: Db, r: nat, id: nat)
    ensures SetProviderRefund(db, r, id)
         == if r < |db.refunds| then db.(refunds := db.refunds[r := db.refunds[r].(providerRefund := Some(id))]) else db
    ensures SetRefundStatus(db, r, Pending, Failed)
         == if r < |db.refunds| && db.refunds[r].status == Pending
            then db.(refunds := db.refunds[r := db.refunds[r].(status := Failed)]) else db
    ensures SetRefundStatus(db, r, Failed, Pending)
         == if r < |db.refunds| && db.refunds[r].status == Failed
            then db.(refunds := db.refunds[r := db.refunds[r].(status := Pending)]) else db
  {
  }
}
