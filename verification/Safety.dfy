/** What holds in every reachable world. */
module Safety {
  import opened Tables
  import opened Sums
  import opened Weights
  import opened Issuing
  import opened Transactions
  import opened Protocol
  import opened Invariants
  import opened InventorySales
  import opened Money
  import opened MoneySettlement
  import opened MoneyRefunds
  import opened MoneyVendor
  import opened Steps
  import opened Evolution

  // ---- inventory ----

  /** `quantity − remaining` of a tier is its non-void tickets, plus, for general admission only,
      the places in checkout: claimed and issued differ exactly by what awaits payment. */
  lemma InventoryLedger(w: World, t: nat)
    requires Reachable(w) && t < |w.db.tiers|
    ensures t < |w.db.stock|
    ensures w.db.tiers[t].kind == Ga ==>
      w.db.stock[t].quantity - w.db.stock[t].remaining == LiveCount(w.db.tickets, t) + AwaitingQty(w.db.orders, t)
    ensures w.db.tiers[t].kind == Seated ==>
      w.db.stock[t].quantity - w.db.stock[t].remaining == LiveCount(w.db.tickets, t)
  {
    ReachableOk(w);
  }

  /** A seat has at most one live ticket, and never a live ticket and a hold at once. */
  lemma NoSeatSoldTwice(w: World)
    requires Reachable(w)
    ensures forall i, j | 0 <= i < j < |w.db.tickets| && w.db.tickets[i].status != Void && w.db.tickets[j].status != Void ::
      w.db.tickets[i].seat.Some? ==> w.db.tickets[i].seat != w.db.tickets[j].seat
    ensures forall s, k | s in w.db.holds && 0 <= k < |w.db.tickets| && w.db.tickets[k].seat == Some(s) ::
      w.db.tickets[k].status == Void
  {
    ReachableOk(w);
    assert SeatsExclusive(w.db.holds, w.db.tickets);
    forall s, k | s in w.db.holds && 0 <= k < |w.db.tickets| && w.db.tickets[k].seat == Some(s)
      ensures w.db.tickets[k].status == Void
    {
      assert !SeatSold(w.db.tickets, s);
    }
  }

  /** The live tickets of a seated tier sit on distinct seats of that tier, so there are no more of them. */
  lemma LiveSeatsFit(tiers: seq<Tier>, seats: seq<Seat>, orders: seq<Order>, holds: map<nat, Hold>, tickets: seq<Ticket>, t: nat)
    requires TicketsOk(tiers, seats, orders, tickets) && SeatsExclusive(holds, tickets)
    requires t < |tiers| && tiers[t].kind == Seated
    ensures LiveCount(tickets, t) <= Total(OfTier(t), seats)
  {
    var live := TotalCounts(LiveIn(t), tickets);
    var places := TotalCounts(OfTier(t), seats);
    assert forall k | 0 <= k < |tickets| :: TicketOk(tiers, seats, orders, tickets[k]);
    var seatOf := map k | k in live :: tickets[k].seat.value;
    forall k | k in live ensures seatOf[k] in places {
    }
    forall x, y | x in live && y in live && x != y ensures seatOf[x] != seatOf[y] {
      var i, j := if x < y then x else y, if x < y then y else x;
      assert tickets[i].seat != tickets[j].seat;
    }
    Pigeonhole(live, places, seatOf);
  }

  lemma NothingNegative(w: World, t: nat)
    requires WorldOk(w) && t < |w.db.tiers|
    ensures t < |w.db.stock| && LiveCount(w.db.tickets, t) >= 0 && AwaitingQty(w.db.orders, t) >= 0
  {
    TotalNonNegative(LiveIn(t), w.db.tickets);
    forall k: nat | k < |w.db.orders| ensures AwaitingIn(t)(k, w.db.orders[k]) >= 0 {
      QtyNonNegative(w.db.orders[k].items, t);
    }
    TotalNonNegative(AwaitingIn(t), w.db.orders);
  }

  /** The unguarded decrements of seated sales never drive a counter out of 0..quantity. */
  lemma RemainingInRange(w: World, t: nat)
    requires Reachable(w) && t < |w.db.tiers|
    ensures t < |w.db.stock| && 0 <= w.db.stock[t].remaining <= w.db.stock[t].quantity
  {
    ReachableOk(w);
    NothingNegative(w, t);
    if w.db.tiers[t].kind == Seated {
      LiveSeatsFit(w.db.tiers, w.db.seats, w.db.orders, w.db.holds, w.db.tickets, t);
    }
  }

  /** Folding the seat feed, last message wins, gives every seat the status the database gives it. */
  lemma FeedAgrees(w: World, s: nat)
    requires Reachable(w)
    ensures FeedStatus(w.db.feed, s) == Gone <==> SeatSold(w.db.tickets, s)
    ensures FeedStatus(w.db.feed, s) == Taken <==> s in w.db.holds
    ensures FeedStatus(w.db.feed, s) == Available <==> !SeatSold(w.db.tickets, s) && s !in w.db.holds
  {
    ReachableOk(w);
    assert FeedStatus(w.db.feed, s) == StatusOf(w.db.holds, w.db.tickets, s);
    if s in w.db.holds {
      assert !SeatSold(w.db.tickets, s);
    }
  }

  // ---- money ----

  /** What a reachable world has issued to a paid order is worth at most what the order cost. */
  lemma MintedWithinTotal(w: World)
    requires WorldOk(w)
    ensures forall o: nat | o < |w.db.orders| && IsPaidStatus(w.db.orders[o].status) ::
      MintedValue(w.db.tickets, o, w.db.orders[o].items) <= w.db.orders[o].total
  {
  }

  /** Money the API booked as returned ≤ money the vendor returned ≤ money the vendor captured. */
  lemma MoneyBounds(w: World, p: nat)
    requires Reachable(w) && p < |w.db.payments|
    ensures var x := w.db.payments[p];
      && x.order < |w.db.orders| && x.intent < |w.vendor.intents|
      && w.db.orders[x.order].refunded <= w.vendor.intents[x.intent].refunded <= w.vendor.intents[x.intent].amount
      && w.vendor.intents[x.intent].amount == x.amount == w.db.orders[x.order].total
  {
    ReachableOk(w);
    MintedWithinTotal(w);
    var x := w.db.payments[p];
    assert PaymentOk(w.db.orders, w.vendor.intents, x);
    assert OnRecord(w.db.payments, x.intent);
    assert AccountOk(w.db.tickets, w.db.refunds, x.order, w.db.orders[x.order]);
    BooksBetween(w, x.order);
    RefundsWithinTotal(w, x.order);
  }

  /** Settled refunds were sent, and sent refunds are refunds. */
  lemma BooksBetween(w: World, o: nat)
    requires MoneyOk(w)
    ensures SettledTotal(w.db.refunds, o) <= SentTotal(w.db.refunds, o, w.vendor.refs.Keys) <= RefundTotal(w.db.refunds, o)
  {
    assert forall r | 0 <= r < |w.db.refunds| :: RefundOk(w.db.orders, w.db.payments, w.db.refunds[r]);
    TotalMonotone(SettledFor(o), w.db.refunds, SentFor(o, w.vendor.refs.Keys), w.db.refunds);
    TotalMonotone(SentFor(o, w.vendor.refs.Keys), w.db.refunds, RefundFor(o), w.db.refunds);
  }

  /** No refund call the API has in flight can be answered not_found, invalid_amount, not_succeeded
      or over_refund, however late or often it arrives. */
  lemma RefundCallsAccepted(w: World, l: nat)
    requires Reachable(w) && l < |w.legs|
    ensures var reply := VendorReply(w.vendor, w.legs[l].intent, Some(w.legs[l].refund), w.legs[l].amount);
      reply.Accepted? || reply.Duplicate?
  {
    ReachableOk(w);
    MintedWithinTotal(w);
    LegNeverRefused(w, l);
  }

  /** Per order: `refunded` is exactly the settled refunds, and what the issued tickets cost is split
      between live tickets and refunds without loss; nothing exceeds the order's total. */
  lemma OrderAccount(w: World, o: nat)
    requires Reachable(w) && o < |w.db.orders|
    ensures var ord := w.db.orders[o];
      && ord.refunded == SettledTotal(w.db.refunds, o)
      && RefundTotal(w.db.refunds, o) <= ord.total
      && (IsPaidStatus(ord.status) ==>
            RefundTotal(w.db.refunds, o) + LiveValue(w.db.tickets, o, ord.items)
            == MintedValue(w.db.tickets, o, ord.items) <= ord.total)
  {
    ReachableOk(w);
    MintedWithinTotal(w);
    assert AccountOk(w.db.tickets, w.db.refunds, o, w.db.orders[o]);
    RefundsWithinTotal(w, o);
  }

  /** A captured payment is never dropped: its order is paid, or can no longer be honoured and then
      the money sits in exactly one of two places, a delivery still owing the compensation or one
      system refund of the full total. */
  lemma CapturedIsKept(w: World, p: nat)
    requires Reachable(w) && p < |w.db.payments| && w.db.payments[p].status == Captured
    ensures var o := w.db.payments[p].order;
      && o < |w.db.orders|
      && (IsPaidStatus(w.db.orders[o].status) || IsUnfulfillableStatus(w.db.orders[o].status))
      && (IsUnfulfillableStatus(w.db.orders[o].status) ==>
            OwingCount(w.deliveries, o) + SystemCount(w.db.refunds, o) == 1
            && RefundTotal(w.db.refunds, o) == SystemCount(w.db.refunds, o) * w.db.orders[o].total)
  {
    ReachableOk(w);
    var o := w.db.payments[p].order;
    assert PaymentOk(w.db.orders, w.vendor.intents, w.db.payments[p]);
    assert CapturedFor(w.db.payments, o);
    assert AccountOk(w.db.tickets, w.db.refunds, o, w.db.orders[o]);
  }

  /** A success event for a recorded open payment always pays the order or owes the compensation:
      it is ignored if and only if no payment row, or no open one, carries its intent. */
  lemma SuccessNeverIgnored(w: World, i: nat)
    requires Reachable(w)
    ensures SucceededOutcomeOf(w.db, i) == Ignored
      <==> forall p | 0 <= p < |w.db.payments| && w.db.payments[p].intent == i :: w.db.payments[p].status != RequiresAction
  {
    ReachableOk(w);
    var found := PaymentByIntent(w.db.payments, i);
    if found.Some? {
      forall p | 0 <= p < |w.db.payments| && w.db.payments[p].intent == i ensures p == found.value {
      }
      if w.db.payments[found.value].status == RequiresAction {
        OpenPaymentOutcome(w, i);
      }
    }
  }

  /** System refunds: at most one per order, only for orders that cannot be honoured, for the full total. */
  lemma CompensationAtMostOnce(w: World, q: nat, r: nat)
    requires Reachable(w) && q < |w.db.refunds| && r < |w.db.refunds|
    requires !w.db.refunds[q].byUser && !w.db.refunds[r].byUser && w.db.refunds[q].order == w.db.refunds[r].order
    ensures q == r
    ensures var x := w.db.refunds[r];
      x.order < |w.db.orders| && IsUnfulfillableStatus(w.db.orders[x.order].status)
      && x.amount == w.db.orders[x.order].total && CapturedFor(w.db.payments, x.order)
  {
    ReachableOk(w);
    WorldParts(w);
    hide WorldOk, InventoryOk, PaymentsOk, IntentsOk, PaidOrdersOk, EventsOk, AccountsOk, OwingOk, LegsOk, BooksOk,
         SettledOk, RefundDraftsOk, OrderDraftsOk;
    var x := w.db.refunds[r];
    assert RefundOk(w.db.orders, w.db.payments, x);
    TotalNonNegative(OwingFor(x.order), w.deliveries);
    TotalCovers(SystemFor(x.order), w.db.refunds, r);
    if q != r {
      TotalTwo(SystemFor(x.order), w.db.refunds, if q < r then q else r, if q < r then r else q);
    }
  }

  // ---- calls are sent ----

  /** A refund that costs money always sends its call: the transaction that reclaims the tickets is followed by
      one call for the new refund row, of its amount, to the intent that paid the order. */
  lemma RefundIsSent(w: World, n: nat)
    requires Reachable(w) && n < |w.refundDrafts| && RefundCommits(w.db, w.refundDrafts[n]) && w.refundDrafts[n].amount != 0
    ensures var after, d := CommitRefundDraft(w, n), w.refundDrafts[n];
      && d.intent.Some? && PaidBy(w.db.payments, d.order, d.intent.value)
      && |after.db.refunds| == |w.db.refunds| + 1 && after.db.refunds[|w.db.refunds|] == RefundRow(d)
      && after.legs == w.legs + [Leg(|w.db.refunds|, d.intent.value, d.amount)]
  {
    ReachableOk(w);
    assert RefundDraftOk(w.db.orders, w.db.tickets, w.db.payments, w.refundDrafts[n]);
    hide WorldOk, Reachable, RefundCommits, VoidTickets, GivePicked, SeatsOfTickets;
  }

  /** A retry of a failed refund reopens it and sends the same amount to the intent that paid the order. */
  lemma RetryIsSent(w: World, r: nat)
    requires Reachable(w) && r < |w.db.refunds| && w.db.refunds[r].status == Failed
    ensures var after := Retry(w, r);
      && after.db.refunds == w.db.refunds[r := w.db.refunds[r].(status := Pending)]
      && |after.legs| == |w.legs| + 1
      && after.legs[|w.legs|].refund == r && after.legs[|w.legs|].amount == w.db.refunds[r].amount > 0
      && PaidBy(w.db.payments, w.db.refunds[r].order, after.legs[|w.legs|].intent)
  {
    hide Reachable, WorldOk, InventoryOk, MoneyOk;
    ReachableOk(w);
    WorldParts(w);
    FailedRefundPaid(w, r);
  }

  // ---- lifecycle ----

  /** A bound hold names an order awaiting payment; unpaid orders have no ticket; a refunded order has
      no live ticket; general admission of a paid order is complete. */
  lemma Lifecycle(w: World)
    requires Reachable(w)
    ensures forall s | s in w.db.holds && w.db.holds[s].order.Some? ::
      w.db.holds[s].order.value < |w.db.orders| && w.db.orders[w.db.holds[s].order.value].status == AwaitingPayment
    ensures forall k | 0 <= k < |w.db.tickets| ::
      w.db.tickets[k].order < |w.db.orders| && IsPaidStatus(w.db.orders[w.db.tickets[k].order].status)
    ensures forall k | 0 <= k < |w.db.tickets| ::
      w.db.orders[w.db.tickets[k].order].status == Refunded ==> w.db.tickets[k].status == Void
  {
    ReachableOk(w);
    assert forall k | 0 <= k < |w.db.tickets| :: TicketOk(w.db.tiers, w.db.seats, w.db.orders, w.db.tickets[k]);
    forall k | 0 <= k < |w.db.tickets| && w.db.orders[w.db.tickets[k].order].status == Refunded
      ensures w.db.tickets[k].status == Void
    {
      var o := w.db.tickets[k].order;
      assert AccountOk(w.db.tickets, w.db.refunds, o, w.db.orders[o]);
      TotalCovers(LiveFor(o), w.db.tickets, k);
    }
  }

  /** Over any schedule: closed orders stay closed, void and checked-in tickets stay so, settled
      refunds and resolved payments stay so, and nothing about a row's identity or price moves. */
  lemma RowsOnlyMoveForward(w: World, schedule: seq<Action>)
    requires Reachable(w)
    ensures Evolves(w, Run(w, schedule))
  {
    ReachableOk(w);
    RunEvolves(w, schedule);
  }
}
