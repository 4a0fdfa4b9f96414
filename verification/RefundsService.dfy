/** Refunds as the service makes them: reclaim first, money after. */
module RefundsService {
  import opened Tables
  import opened Sums
  import opened Weights
  import opened Transactions
  import opened Invariants
  import opened InventorySales
  import opened MoneyRefunds
  import opened MoneyAnswers
  import opened Steps
  import opened Counters
  import opened Store

  datatype RefundRead = AlreadyOpened(r: nat) | OrderMissing | NotRefundable | UnknownTicket | Drafted(draft: RefundDraft)

  predicate Distinct(ids: seq<nat>) {
    forall i, j | 0 <= i < j < |ids| :: ids[i] != ids[j]
  }

  function Named(ids: seq<nat>): set<nat> {
    set k | k in ids
  }

  /** How the reads of a refund request end, refusals in the order they are checked. A ticket named twice is
      as unknown as one of another order. */
  ghost function ReadReply(db: Db, event: nat, o: nat, ticketIds: seq<nat>, key: Option<string>): RefundRead {
    if key.Some? && RefundByKey(db.refunds, o, key.value).Some? then AlreadyOpened(RefundByKey(db.refunds, o, key.value).value)
    else if !(o < |db.orders| && db.orders[o].event == event) then OrderMissing
    else if !IsRefundableStatus(db.orders[o].status) then NotRefundable
    else if !Distinct(ticketIds) || exists k :: k in ticketIds && !(k < |db.tickets| && db.tickets[k].order == o)
    then UnknownTicket
    else Drafted(RefundDraftOf(db, o, Named(ticketIds), key))
  }

  class RefundsService {
    const db: Database

    constructor (db: Database)
      ensures this.db == db
    {
      this.db := db;
    }

    /** The price map built from an order's items; the last item of a tier wins. */
    method PricesByTier(items: seq<Item>) returns (prices: map<nat, nat>)
      ensures forall t: nat :: PriceOf(items, t) == if t in prices then prices[t] else 0
    {
      prices := map[];
      for k := 0 to |items|
        invariant forall t: nat :: PriceOf(items[..k], t) == if t in prices then prices[t] else 0
      {
        assert items[..k + 1][..k] == items[..k];
        prices := prices[items[k].tier := items[k].unitPrice];
      }
      assert items[..|items|] == items;
    }

    method AmountOf(ids: set<nat>, items: seq<Item>) returns (amount: nat)
      ensures amount == PickValue(db.tickets, ids, items)
    {
      var prices := PricesByTier(items);
      amount := 0;
      for k := 0 to |db.tickets|
        invariant amount == PickValue(db.tickets[..k], ids, items)
      {
        assert db.tickets[..k + 1][..k] == db.tickets[..k];
        if k in ids {
          amount := amount + if db.tickets[k].tier in prices then prices[db.tickets[k].tier] else 0;
        }
      }
      assert db.tickets[..|db.tickets|] == db.tickets;
    }

    /** What `create` reads and computes before its transaction, each refusal in its turn. */
    method Read(event: nat, o: nat, ticketIds: seq<nat>, key: Option<string>) returns (reply: RefundRead)
      requires ticketIds != []
      ensures reply == ReadReply(db.Snapshot(), event, o, ticketIds, key)
    {
      if key.Some? {
        var existing := RefundByKey(db.refunds, o, key.value);
        if existing.Some? {
          return AlreadyOpened(existing.value);
        }
      }
      if !(o < |db.orders| && db.orders[o].event == event) {
        return OrderMissing;
      }
      if !IsRefundableStatus(db.orders[o].status) {
        return NotRefundable;
      }
      var ids := Named(ticketIds);
      var known := set k | k in ids && k < |db.tickets| && db.tickets[k].order == o;
      DistinctCounts(ticketIds);
      Cardinality(known, ids);
      if |known| != |ticketIds| {
        if known == ids {
          assert !Distinct(ticketIds);
        } else {
          ghost var k :| k in ids && k !in known;
          assert k in ticketIds;
        }
        return UnknownTicket;
      }
      assert forall k | k in ticketIds :: k in known;
      var amount := AmountOf(ids, db.orders[o].items);
      return Drafted(RefundDraft(o, ids, amount, key, match PaymentByOrder(db.payments, o)
                                                      case Some(p) => Some(db.payments[p].intent)
                                                      case None => None));
    }

    /** Void the named tickets if every one of them is still issued to the order; otherwise none. */
    method VoidAll(d: RefundDraft, r: nat) returns (voided: bool)
      modifies db`tickets
      ensures voided <==> forall k | k in d.ids ::
        k < |old(db.tickets)| && old(db.tickets)[k].order == d.order && old(db.tickets)[k].status == Issued
      ensures db.tickets == if voided then VoidTickets(old(db.tickets), d.ids, r) else old(db.tickets)
    {
      var live := set k | k in d.ids && k < |db.tickets| && db.tickets[k].order == d.order && db.tickets[k].status == Issued;
      if live != d.ids {
        ghost var k :| k in d.ids && k !in live;
        return false;
      }
      assert forall k | k in d.ids :: k in live;
      ghost var before := db.tickets;
      for k := 0 to |db.tickets|
        invariant |db.tickets| == |before|
        invariant forall j | 0 <= j < |before| ::
          db.tickets[j] == if j < k && j in d.ids then before[j].(status := Void, refund := Some(r)) else before[j]
      {
        if k in d.ids {
          db.tickets := db.tickets[k := db.tickets[k].(status := Void, refund := Some(r))];
        }
      }
      return true;
    }

    /** The tickets not void of an order, counted. */
    method CountLive(o: nat) returns (live: nat)
      ensures live == LiveOf(db.tickets, o)
    {
      live := 0;
      for k := 0 to |db.tickets|
        invariant live == LiveOf(db.tickets[..k], o)
      {
        assert db.tickets[..k + 1][..k] == db.tickets[..k];
        if db.tickets[k].order == o && db.tickets[k].status != Void {
          live := live + 1;
        }
      }
      assert db.tickets[..|db.tickets|] == db.tickets;
    }

    method Settle(o: nat, amount: int)
      requires db.Valid()
      modifies db
      ensures db.Snapshot() == Transactions.Settle(old(db.Snapshot()), o, amount)
      ensures RowsSettled(old(db.Snapshot()), db.Snapshot(), o, amount)
      ensures db.Valid()
    {
      hide InventoryOk, RowsSettled;
      MoneyBack(db.Snapshot(), o, amount);
      SettleKeeps(db.Snapshot(), o, amount);
      if o < |db.orders| {
        var was := db.orders[o].status;
        db.orders := db.orders[o := db.orders[o].(refunded := db.orders[o].refunded + amount)];
        if IsRefundableStatus(was) {
          var live := CountLive(o);
          db.orders := db.orders[o := db.orders[o].(status := if live == 0 then Refunded else PartiallyRefunded)];
        }
      }
    }

    method FreedSeats(ids: set<nat>) returns (freed: set<nat>)
      ensures freed == SeatsOfTickets(db.tickets, ids)
    {
      freed := set k | k in ids && k < |db.tickets| && db.tickets[k].seat.Some? :: db.tickets[k].seat.value;
    }

    /** The transaction of `create`: record the refund, void its tickets, give their places back, and settle
        at once if it is free. A refusal rolls everything back. */
    method Commit(d: RefundDraft) returns (committed: bool)
      requires db.Valid()
      modifies db
      ensures db.Snapshot() == CommitRefund(old(db.Snapshot()), d)
      ensures committed <==> RefundCommits(old(db.Snapshot()), d)
      ensures RowsRefundMade(old(db.Snapshot()), db.Snapshot(), d)
      ensures db.Valid()
    {
      hide RowsRefundMade, Refundable, InventoryOk, RefundKeyTaken, VoidTickets, GivePicked, SeatsOfTickets, Transactions.Settle;
      RefundMade(db.Snapshot(), d);
      CommitRefundKeeps(db.Snapshot(), d);
      TicketTiers(db.Snapshot());
      var refunds0 := db.refunds;
      var taken := db.RefundKeyIsTaken(d.order, d.key);
      if taken {
        return false;
      }
      var counts := TallyTickets(db.tickets, d.ids);
      var freed := FreedSeats(d.ids);
      ghost var before := db.Snapshot();
      var r := |db.refunds|;
      db.refunds := db.refunds + [RefundRow(d)];
      var voided := VoidAll(d, r);
      if !voided {
        db.refunds := refunds0;
        return false;
      }
      var stock := ApplyTally(db.stock, counts, 1);
      GivenTally(db.stock, stock, before.tickets, d.ids, counts);
      db.stock := stock;
      if freed != {} {
        db.feed := db.feed + [SeatsReleased(freed)];
      }
      ReclaimedKeeps(before, d);
      assert db.Snapshot() == Reclaimed(before, d);
      if d.amount == 0 {
        Settle(d.order, 0);
      }
      return true;
    }

    method IsCompensated(o: nat) returns (done: bool)
      ensures done <==> !forall k | 0 <= k < |db.refunds| :: db.refunds[k].order == o ==> db.refunds[k].byUser
    {
      for k := 0 to |db.refunds|
        invariant forall j | 0 <= j < k :: db.refunds[j].order == o ==> db.refunds[j].byUser
      {
        if db.refunds[k].order == o && !db.refunds[k].byUser {
          return true;
        }
      }
      return false;
    }

    /** One system refund per order, and none beside a refund that already bears the system's key. */
    method Compensate(o: nat, amount: int) returns (row: Option<nat>)
      requires db.Valid()
      modifies db
      ensures db.Snapshot() == Transactions.Compensate(old(db.Snapshot()), o, amount)
      ensures RowsCompensated(old(db.Snapshot()), db.Snapshot(), o, amount)
      ensures row == if db.Snapshot() == old(db.Snapshot()) then None else Some(|old(db.refunds)|)
      ensures db.Valid()
    {
      hide InventoryOk, RefundKeyTaken;
      CompensationAnswered(db.Snapshot(), o, amount);
      hide RowsCompensated;
      CompensateFrame(db.Snapshot(), o, amount);
      var done := IsCompensated(o);
      if done {
        return None;
      }
      var taken := db.RefundKeyIsTaken(o, Some(SYSTEM_COMPENSATION_KEY));
      if taken {
        return None;
      }
      row := Some(|db.refunds|);
      db.refunds := db.refunds + [Refund(o, amount, Pending, Some(SYSTEM_COMPENSATION_KEY), false, None)];
    }

    /** Only a failed refund is reopened, by whichever retry claims it first. */
    method Reopen(r: nat) returns (reopened: bool)
      requires db.Valid()
      modifies db
      ensures db.Snapshot() == SetRefundStatus(old(db.Snapshot()), r, Failed, Pending)
      ensures reopened <==> r < |old(db.refunds)| && old(db.refunds)[r].status == Failed
      ensures db.refunds == if reopened then old(db.refunds)[r := old(db.refunds)[r].(status := Pending)] else old(db.refunds)
      ensures db.Valid()
    {
      hide InventoryOk;
      RefundRowFrame(db.Snapshot(), SetRefundStatus(db.Snapshot(), r, Failed, Pending));
      reopened := r < |db.refunds| && db.refunds[r].status == Failed;
      if reopened {
        db.refunds := db.refunds[r := db.refunds[r].(status := Pending)];
      }
    }

    /** The end of a money leg: the vendor's refund id, or a failure that only a pending refund takes. */
    method FinishLeg(r: nat, answer: Option<nat>)
      requires db.Valid()
      modifies db
      ensures db.Snapshot() == match answer
                               case Some(id) => SetProviderRefund(old(db.Snapshot()), r, id)
                               case None => SetRefundStatus(old(db.Snapshot()), r, Pending, Failed)
      ensures r < |old(db.refunds)| && answer.Some? ==>
        db.refunds == old(db.refunds)[r := old(db.refunds)[r].(providerRefund := answer)]
      ensures r < |old(db.refunds)| && answer.None? && old(db.refunds)[r].status == Pending ==>
        db.refunds == old(db.refunds)[r := old(db.refunds)[r].(status := Failed)]
      ensures r >= |old(db.refunds)| || (answer.None? && old(db.refunds)[r].status != Pending) ==> db.refunds == old(db.refunds)
      ensures db.Valid()
    {
      hide InventoryOk;
      RefundRowFrame(db.Snapshot(), match answer
                                    case Some(id) => SetProviderRefund(db.Snapshot(), r, id)
                                    case None => SetRefundStatus(db.Snapshot(), r, Pending, Failed));
      if r < |db.refunds| {
        match answer {
          case Some(id) => db.refunds := db.refunds[r := db.refunds[r].(providerRefund := Some(id))];
          case None =>
            if db.refunds[r].status == Pending {
              db.refunds := db.refunds[r := db.refunds[r].(status := Failed)];
            }
        }
      }
    }
  }

  lemma TicketTiers(db: Db)
    requires InventoryOk(db)
    ensures forall k | 0 <= k < |db.tickets| :: db.tickets[k].tier < |db.stock|
  {
  }

  /** Incrementing tier by tier is giving the picked tickets' places back. */
  lemma GivenTally(stock: seq<Stock>, after: seq<Stock>, tickets: seq<Ticket>, ids: set<nat>, counts: map<nat, nat>)
    requires |after| == |stock| && forall t: nat :: PickCount(tickets, ids, t) == if t in counts then counts[t] else 0
    requires forall t: nat | t < |stock| ::
      after[t] == if t in counts then stock[t].(remaining := stock[t].remaining + 1 * counts[t]) else stock[t]
    ensures after == GivePicked(stock, tickets, ids)
  {
  }

  lemma ReclaimedKeeps(db: Db, d: RefundDraft)
    requires InventoryOk(db) && RefundCommits(db, d)
    ensures InventoryOk(Reclaimed(db, d))
  {
    VoidedKeeps(db, d.ids, |db.refunds|);
    hide CatalogOk, CapacityOk, OrdersOk, HoldsOk, SeatsExclusive, TicketsOk, Ledger, BoundOk, MintedOk, FeedOk;
  }

  lemma RefundRowFrame(db: Db, db2: Db)
    requires InventoryOk(db) && db2 == db.(refunds := db2.refunds)
    ensures InventoryOk(db2)
  {
  }

  lemma CompensateFrame(db: Db, o: nat, amount: int)
    requires InventoryOk(db)
    ensures InventoryOk(Transactions.Compensate(db, o, amount))
  {
  }

  /** A list has as many members as entries exactly when it repeats none. */
  lemma {:induction false} DistinctCounts(ids: seq<nat>)
    ensures |Named(ids)| <= |ids|
    ensures |Named(ids)| == |ids| <==> Distinct(ids)
  {
    if ids != [] {
      var m := |ids| - 1;
      var init, last := ids[..m], ids[m];
      DistinctCounts(init);
      assert ids == init + [last];
      assert Named(ids) == Named(init) + {last};
      if last in init {
        assert Named(ids) == Named(init);
        var i :| 0 <= i < m && init[i] == last;
        assert ids[i] == ids[m];
      } else {
        assert forall i | 0 <= i < m :: ids[i] == init[i];
      }
    }
  }

  /** The reads end in a draft exactly when the state machine's read step takes one, and it is the same draft. */
  lemma ReadDrafts(db: Db, event: nat, o: nat, ticketIds: seq<nat>, key: Option<string>)
    requires ticketIds != [] && Distinct(ticketIds)
    ensures var reply, draft := ReadReply(db, event, o, ticketIds, key), DraftRefund(db, event, o, Named(ticketIds), key);
      && (reply.Drafted? <==> draft.Some?)
      && (reply.Drafted? ==> draft == Some(reply.draft))
  {
    hide RefundDraftOf;
    assert ticketIds[0] in Named(ticketIds);
    if exists k :: k in ticketIds && !(k < |db.tickets| && db.tickets[k].order == o) {
      var k :| k in ticketIds && !(k < |db.tickets| && db.tickets[k].order == o);
      assert k in Named(ticketIds);
    }
    assert (key.Some? && RefundByKey(db.refunds, o, key.value).Some?) <==> RefundKeyTaken(db.refunds, o, key);
  }

  /** A refund request is drafted exactly for distinct tickets of a paid or partially refunded order of the event
      under an unused key, and every refusal gives its true reason; the draft names the order's payment intent. */
  lemma ReadAnswered(db: Db, event: nat, o: nat, ticketIds: seq<nat>, key: Option<string>)
    requires ticketIds != []
    ensures var reply := ReadReply(db, event, o, ticketIds, key);
      && (reply.AlreadyOpened? <==> key.Some? && exists r :: 0 <= r < |db.refunds| && db.refunds[r].order == o && db.refunds[r].key == key)
      && (reply.AlreadyOpened? ==> reply.r < |db.refunds| && db.refunds[reply.r].order == o && db.refunds[reply.r].key == key)
      && (reply == OrderMissing ==> !(o < |db.orders| && db.orders[o].event == event))
      && (reply == NotRefundable ==> o < |db.orders| && db.orders[o].status !in {Paid, PartiallyRefunded})
      && (reply == UnknownTicket ==> !Distinct(ticketIds) || exists k :: k in ticketIds && !(k < |db.tickets| && db.tickets[k].order == o))
      && (reply.Drafted? ==>
            && o < |db.orders| && db.orders[o].event == event && db.orders[o].status in {Paid, PartiallyRefunded}
            && Distinct(ticketIds) && (forall k | k in ticketIds :: k < |db.tickets| && db.tickets[k].order == o)
            && reply.draft.order == o && reply.draft.key == key && (forall k :: k in reply.draft.ids <==> k in ticketIds)
            && reply.draft.amount == PickValue(db.tickets, reply.draft.ids, db.orders[o].items)
            && (reply.draft.intent.Some? ==>
                  exists p :: 0 <= p < |db.payments| && db.payments[p].order == o && db.payments[p].intent == reply.draft.intent.value)
            && (reply.draft.intent.None? ==> forall p | 0 <= p < |db.payments| :: db.payments[p].order != o))
  {
    hide PickValue;
  }
}
