/** What creating, releasing and settling an order is answered and what it changes, said of the rows alone. */
module OrderAnswers {
  import opened Tables
  import opened Sums
  import opened Weights
  import opened Issuing
  import opened Transactions
  import opened Invariants
  import opened Drafts

  // ---- counting rows ----

  ghost function SeatsOfTier(seats: seq<Seat>, p: set<nat>, t: nat): set<nat> {
    set s | s in p && s < |seats| && seats[s].tier == t
  }

  lemma SeatsCounted(seats: seq<Seat>, p: set<nat>, t: nat)
    ensures SeatCount(seats, p, t) == |SeatsOfTier(seats, p, t)|
  {
    var rows := TotalCounts(InTier(p, t), seats);
    assert rows == SeatsOfTier(seats, p, t);
  }

  ghost function RowsOfTier(batch: seq<Ticket>, t: nat): set<nat> {
    set k | 0 <= k < |batch| && batch[k].tier == t
  }

  /** The tickets issued for an order: one for each of its seats, on that seat and of its tier, and for each of
      its general-admission items as many as it says, without a seat; all fresh, of this order, and no more. */
  ghost predicate IssuedBatch(batch: seq<Ticket>, o: nat, tiers: seq<Tier>, items: seq<Item>, seats: seq<Seat>, p: set<nat>) {
    && (forall k | 0 <= k < |batch| :: batch[k].order == o && batch[k].status == Issued && batch[k].refund.None?)
    && (forall k | 0 <= k < |batch| && batch[k].seat.Some? ::
          batch[k].seat.value in p && batch[k].seat.value < |seats| && batch[k].tier == seats[batch[k].seat.value].tier)
    && (forall i, j | 0 <= i < j < |batch| && batch[i].seat.Some? :: batch[i].seat != batch[j].seat)
    && (forall s | s in p && s < |seats| :: exists k :: 0 <= k < |batch| && batch[k].seat == Some(s))
    && (forall k | 0 <= k < |batch| && batch[k].seat.None? ::
          exists i :: 0 <= i < |items| && items[i].tier == batch[k].tier < |tiers| && tiers[batch[k].tier].kind == Ga)
    && (forall i | 0 <= i < |items| && items[i].tier < |tiers| && tiers[items[i].tier].kind == Ga ::
          |RowsOfTier(batch, items[i].tier)| == items[i].quantity)
  }

  lemma MintedIsBatch(o: nat, tiers: seq<Tier>, items: seq<Item>, seats: seq<Seat>, p: set<nat>)
    requires DistinctTiers(items)
    requires forall s | 0 <= s < |seats| :: !IsGa(tiers, seats[s].tier)
    ensures IssuedBatch(Minted(o, tiers, items, seats, p), o, tiers, items, seats, p)
  {
    MintedRows(o, tiers, items, seats, p);
    hide Minted;
    var batch := Minted(o, tiers, items, seats, p);
    forall i | 0 <= i < |items| && items[i].tier < |tiers| && tiers[items[i].tier].kind == Ga
      ensures |RowsOfTier(batch, items[i].tier)| == items[i].quantity
    {
      GaIssued(o, tiers, items, seats, p, i);
    }
  }

  lemma GaIssued(o: nat, tiers: seq<Tier>, items: seq<Item>, seats: seq<Seat>, p: set<nat>, i: nat)
    requires DistinctTiers(items) && i < |items| && IsGa(tiers, items[i].tier)
    requires forall s | 0 <= s < |seats| :: !IsGa(tiers, seats[s].tier)
    ensures |RowsOfTier(Minted(o, tiers, items, seats, p), items[i].tier)| == items[i].quantity
  {
    var t, batch := items[i].tier, Minted(o, tiers, items, seats, p);
    assert forall k | 0 <= k < |batch| :: batch[k].order == o by { MintedRows(o, tiers, items, seats, p); }
    RowsCounted(batch, o, t);
    hide Minted, RowsOfTier, SeatCount, QtyOf, MintedCount;
    assert SeatCount(seats, p, t) == 0 by { NoSeatsThere(seats, p, t); }
    assert MintedCount(batch, o, t) == QtyOf(items, t) by {
      MintedOwn([], o, tiers, items, seats, p, t);
      assert [] + batch == batch;
      assert MintedCount([], o, t) == 0 by { NothingMinted(o, t); }
    }
    QtyDistinct(items, i);
  }

  lemma NoSeatsThere(seats: seq<Seat>, p: set<nat>, t: nat)
    requires forall s | 0 <= s < |seats| :: seats[s].tier != t
    ensures SeatCount(seats, p, t) == 0
  {
    TotalZero(InTier(p, t), seats);
  }

  lemma NothingMinted(o: nat, t: nat)
    ensures MintedCount([], o, t) == 0
  {
  }

  lemma RowsCounted(batch: seq<Ticket>, o: nat, t: nat)
    requires forall k | 0 <= k < |batch| :: batch[k].order == o
    ensures MintedCount(batch, o, t) == |RowsOfTier(batch, t)|
  {
    var rows := TotalCounts(MintedIn(o, t), batch);
    assert rows == RowsOfTier(batch, t);
  }

  // ---- order requests ----

  ghost predicate KnownLine(db: Db, event: nat, t: nat) {
    t < |db.tiers| && t < |db.stock| && db.tiers[t].event == event && db.tiers[t].kind == Ga
  }

  /** Line `k` names a general-admission tier of the event, not named before, within its limit per order. */
  ghost predicate LineFine(db: Db, event: nat, lines: seq<(nat, nat)>, k: nat)
    requires k < |lines|
  {
    && KnownLine(db, event, lines[k].0) && lines[k].1 <= db.stock[lines[k].0].maxPerOrder
    && forall j | 0 <= j < k :: lines[j].0 != lines[k].0
  }

  /** The request can be drafted. */
  ghost predicate Orderable(db: Db, r: OrderRequest) {
    && (r.lines != [] || r.seats != {}) && (r.seats != {} ==> r.holder.Some?)
    && (r.key.Some? ==> forall o | 0 <= o < |db.orders| :: !(db.orders[o].event == r.event && db.orders[o].key == r.key))
    && r.event in db.published
    && (forall k | 0 <= k < |r.lines| :: LineFine(db, r.event, r.lines, k))
    && (forall s | s in r.seats :: s < |db.seats| && db.seats[s].event == r.event)
  }

  function Cost(items: seq<Item>): int {
    if items == [] then 0 else Cost(items[..|items| - 1]) + items[|items| - 1].quantity * items[|items| - 1].unitPrice
  }

  lemma {:induction false} CostIsValue(items: seq<Item>)
    ensures Cost(items) == ItemsValue(items)
  {
    if items != [] {
      CostIsValue(items[..|items| - 1]);
    }
  }

  /** What a draft carries: the request's event, seats, holder and key; its lines at their tiers' prices; one group
      for each tier its seats are of, with the number of them, at that tier's price; the sum of all that as the
      total; and a deadline exactly when that is more than nothing. */
  ghost predicate Carries(db: Db, r: OrderRequest, d: OrderDraft) {
    && d.event == r.event && d.seats == r.seats && d.key == r.key && (r.holder.Some? ==> d.holder == r.holder.value)
    && |d.ga| == |r.lines|
    && (forall k | 0 <= k < |r.lines| ::
          r.lines[k].0 < |db.tiers| && d.ga[k] == Item(r.lines[k].0, r.lines[k].1, db.tiers[r.lines[k].0].price))
    && (forall i, j | 0 <= i < j < |d.groups| :: d.groups[i].tier != d.groups[j].tier)
    && (forall g | 0 <= g < |d.groups| ::
          && d.groups[g].tier < |db.tiers| && d.groups[g].unitPrice == db.tiers[d.groups[g].tier].price
          && d.groups[g].quantity == |SeatsOfTier(db.seats, r.seats, d.groups[g].tier)|)
    && (forall s | s in r.seats && s < |db.seats| :: exists g :: 0 <= g < |d.groups| && d.groups[g].tier == db.seats[s].tier)
    && d.total == Cost(d.ga) + Cost(d.groups)
    && d.expiresAt == if d.total > 0 then Some(r.expiresAt) else None
  }

  lemma DraftAnswered(db: Db, r: OrderRequest)
    requires CatalogOk(db.tiers, db.stock, db.seats)
    ensures DraftOrder(db, r).Some? <==> Orderable(db, r)
    ensures DraftOrder(db, r).Some? ==> Carries(db, r, DraftOrder(db, r).value)
  {
    assert RequestAccepted(db, r) <==> Orderable(db, r) by { AcceptedIffOrderable(db, r); }
    if DraftOrder(db, r).Some? {
      var groups := Grouped(db.tiers, db.seats, r.seats);
      DraftGroups(db.tiers, db.stock, db.seats, r.seats);
      hide RequestAccepted, Orderable, CatalogOk, Grouped;
      CostIsValue(PricedLines(db.tiers, r.lines));
      CostIsValue(groups);
      forall g | 0 <= g < |groups| ensures groups[g].quantity == |SeatsOfTier(db.seats, r.seats, groups[g].tier)| {
        QtyDistinct(groups, g);
        SeatsCounted(db.seats, r.seats, groups[g].tier);
      }
    }
  }

  lemma AcceptedIffOrderable(db: Db, r: OrderRequest)
    ensures RequestAccepted(db, r) <==> Orderable(db, r)
  {
    if Orderable(db, r) {
      forall k | 0 <= k < |r.lines| ensures LineAccepted(db, r.event, r.lines[k]) {
        assert LineFine(db, r.event, r.lines, k);
      }
      forall i, j | 0 <= i < j < |r.lines| ensures r.lines[i].0 != r.lines[j].0 {
        assert LineFine(db, r.event, r.lines, j);
      }
    }
    if RequestAccepted(db, r) {
      forall k | 0 <= k < |r.lines| ensures LineFine(db, r.event, r.lines, k) {
        assert LineAccepted(db, r.event, r.lines[k]);
      }
    }
  }

  // ---- order creation ----

  /** Every general-admission line of the draft still fits what its tier has left. */
  ghost predicate HasRoom(db: Db, d: OrderDraft) {
    forall k | 0 <= k < |d.ga| :: d.ga[k].tier < |db.stock| && d.ga[k].quantity <= db.stock[d.ga[k].tier].remaining
  }

  ghost predicate KeyUsed(db: Db, d: OrderDraft) {
    d.key.Some? && exists o :: 0 <= o < |db.orders| && db.orders[o].event == d.event && db.orders[o].key == d.key
  }

  /** The buyer itself holds every seat of the draft, live. */
  ghost predicate BuyerHolds(db: Db, d: OrderDraft) {
    forall s | s in d.seats ::
      s in db.holds && db.holds[s].holder == d.holder && db.holds[s].event == d.event && db.now < db.holds[s].expiresAt
  }

  ghost predicate Buys(db: Db, d: OrderDraft) {
    HasRoom(db, d) && !KeyUsed(db, d) && BuyerHolds(db, d)
  }

  /** The reasons a commit is refused, and that a refusal changes nothing. */
  lemma CommitRefused(db: Db, d: OrderDraft)
    ensures var outcome := CommitOutcomeOf(db, d);
      && (outcome == SoldOut <==> !HasRoom(db, d))
      && (outcome == Replayed <==> HasRoom(db, d) && KeyUsed(db, d))
      && (outcome == HoldExpired <==> HasRoom(db, d) && !KeyUsed(db, d) && !BuyerHolds(db, d))
      && (outcome == Reserved(|db.orders|) <==> Buys(db, d) && d.total > 0)
      && (outcome == Granted(|db.orders|) <==> Buys(db, d) && d.total <= 0)
    ensures !Buys(db, d) ==> CommitOrder(db, d) == db
  {
    hide TakeItems, TakeSeats, Minted, BindHolds;
    assert CanClaim(db.stock, d.ga) <==> HasRoom(db, d);
    assert OrderKeyTaken(db.orders, d.event, d.key) <==> KeyUsed(db, d);
    assert (exists s :: s in d.seats && !HeldBy(db, d, s)) <==> !BuyerHolds(db, d);
    hide CanClaim, OrderKeyTaken, HeldBy;
  }

  /** The order row a commit adds. */
  ghost predicate AddsOrder(db: Db, db2: Db, d: OrderDraft) {
    && db2.orders == db.orders + [Order(d.event, if d.total > 0 then AwaitingPayment else Paid, d.total, 0, d.key,
                                        d.ga + d.groups, d.expiresAt)]
    && db2.now == db.now && db2.published == db.published && db2.tiers == db.tiers && db2.seats == db.seats
    && db2.nextHold == db.nextHold && db2.payments == db.payments && db2.refunds == db.refunds && db2.webhooks == db.webhooks
  }

  /** Only `remaining` of the tiers moves, by `taken(t)`. */
  ghost predicate CountersDrop(stock: seq<Stock>, stock2: seq<Stock>, taken: nat -> int) {
    && |stock2| == |stock|
    && forall t: nat | t < |stock| :: stock2[t] == stock[t].(remaining := stock[t].remaining - taken(t))
  }

  /** What the lines take from a tier: the quantity of the tier's own line, if it has one. */
  function LineOf(items: seq<Item>, t: nat): int {
    if items == [] then 0
    else if items[|items| - 1].tier == t then items[|items| - 1].quantity
    else LineOf(items[..|items| - 1], t)
  }

  lemma {:induction false} LineIsQty(items: seq<Item>, t: nat)
    requires DistinctTiers(items)
    ensures QtyOf(items, t) == LineOf(items, t)
  {
    if items != [] {
      var m := |items| - 1;
      if items[m].tier == t {
        QtyDistinct(items, m);
      } else {
        LineIsQty(items[..m], t);
      }
    }
  }

  /** A priced order's row waits for payment, its lines are off the counters, and its seats are bound to it until
      its deadline. */
  ghost predicate RowsReserved(db: Db, db2: Db, d: OrderDraft) {
    && AddsOrder(db, db2, d)
    && CountersDrop(db.stock, db2.stock, (t: nat) => LineOf(d.ga, t))
    && db2.tickets == db.tickets && db2.feed == db.feed
    && db2.holds.Keys == db.holds.Keys
    && (forall s | s in db.holds && s !in d.seats :: db2.holds[s] == db.holds[s])
    && (forall s | s in d.seats :: s in db.holds && d.expiresAt.Some? && db2.holds[s]
          == Hold(db.holds[s].id, d.event, d.holder, Some(|db.orders|), d.expiresAt.value))
  }

  /** A free order is paid at once: its holds are consumed, lines and seats are off the counters, its tickets are
      issued and its seats announced sold. */
  ghost predicate RowsGranted(db: Db, db2: Db, d: OrderDraft) {
    && AddsOrder(db, db2, d)
    && CountersDrop(db.stock, db2.stock, (t: nat) => LineOf(d.ga, t) + |SeatsOfTier(db.seats, d.seats, t)|)
    && db.tickets <= db2.tickets
    && IssuedBatch(db2.tickets[|db.tickets|..], |db.orders|, db.tiers, d.ga, db.seats, d.seats)
    && db2.holds == db.holds - d.seats
    && db2.feed == (if d.seats == {} then db.feed else db.feed + [SeatsSold(d.seats)])
  }

  /** An order is made if and only if its lines fit, its key is unused and its buyer holds its seats. */
  ghost predicate RowsOrdered(db: Db, db2: Db, d: OrderDraft) {
    if !Buys(db, d) then db2 == db
    else if d.total > 0 then RowsReserved(db, db2, d)
    else RowsGranted(db, db2, d)
  }

  lemma OrderReserved(db: Db, d: OrderDraft)
    requires DraftOk(db.tiers, db.seats, d) && d.total > 0 && Buys(db, d)
    ensures RowsReserved(db, CommitOrder(db, d), d)
  {
    CommitRefused(db, d);
    DraftLines(db.tiers, db.seats, d);
    hide CommitOutcomeOf, DraftOk, HasRoom, KeyUsed, QtyOf;
    forall t: nat ensures QtyOf(d.ga, t) == LineOf(d.ga, t) {
      LineIsQty(d.ga, t);
    }
  }

  lemma DraftLines(tiers: seq<Tier>, seats: seq<Seat>, d: OrderDraft)
    requires DraftOk(tiers, seats, d)
    ensures DistinctTiers(d.ga) && DistinctTiers(d.ga + d.groups)
    ensures d.total > 0 <==> d.expiresAt.Some?
  {
    forall i, j | 0 <= i < j < |d.ga| ensures d.ga[i].tier != d.ga[j].tier {
      assert DraftItems(d)[i].tier != DraftItems(d)[j].tier;
    }
  }

  lemma OrderGranted(db: Db, d: OrderDraft)
    requires CatalogOk(db.tiers, db.stock, db.seats) && DraftOk(db.tiers, db.seats, d) && d.total <= 0 && Buys(db, d)
    ensures RowsGranted(db, CommitOrder(db, d), d)
  {
    CommitRefused(db, d);
    DraftLines(db.tiers, db.seats, d);
    MintedIsBatch(|db.orders|, db.tiers, d.ga, db.seats, d.seats);
    hide DraftOk, HasRoom, KeyUsed, BuyerHolds, CanClaim, OrderKeyTaken, HeldBy, QtyOf, IssuedBatch, SeatCount, CatalogOk, LineOf,
         SeatsOfTier, Minted;
    forall t: nat ensures QtyOf(d.ga, t) == LineOf(d.ga, t) && SeatCount(db.seats, d.seats, t) == |SeatsOfTier(db.seats, d.seats, t)| {
      LineIsQty(d.ga, t);
      SeatsCounted(db.seats, d.seats, t);
    }
    GrantedRows(db, d);
    hide CommitOrder, TakeItems, TakeSeats;
    assert CommitOrder(db, d).tickets[|db.tickets|..] == Minted(|db.orders|, db.tiers, d.ga, db.seats, d.seats);
  }

  /** What a commit does, whatever the age of its draft: it buys or it changes nothing. */
  lemma OrderCommitted(db: Db, d: OrderDraft)
    requires CatalogOk(db.tiers, db.stock, db.seats) && DraftOk(db.tiers, db.seats, d)
    ensures RowsOrdered(db, CommitOrder(db, d), d)
    ensures |CommitOrder(db, d).orders| > |db.orders| <==> Buys(db, d)
  {
    hide CommitOrder, CommitOutcomeOf, DraftOk, CatalogOk, Buys, CountersDrop, IssuedBatch;
    if !Buys(db, d) {
      CommitRefused(db, d);
    } else if d.total > 0 {
      OrderReserved(db, d);
    } else {
      OrderGranted(db, d);
    }
  }

  lemma GrantedRows(db: Db, d: OrderDraft)
    requires CommitOutcomeOf(db, d) == Granted(|db.orders|)
    ensures var after := CommitOrder(db, d);
      && after == db.(stock := after.stock, orders := db.orders + [DraftRow(d)], holds := db.holds - d.seats,
                      tickets := db.tickets + Minted(|db.orders|, db.tiers, d.ga, db.seats, d.seats),
                      feed := if d.seats == {} then db.feed else db.feed + [SeatsSold(d.seats)])
      && CountersDrop(db.stock, after.stock, (t: nat) => QtyOf(d.ga, t) + SeatCount(db.seats, d.seats, t))
  {
    hide CommitOutcomeOf, Minted, QtyOf, SeatCount;
  }

  // ---- release ----

  ghost function HeldFor(holds: map<nat, Hold>, o: nat): set<nat> {
    set s | s in holds && holds[s].order == Some(o)
  }

  /** Releasing an order that awaits payment closes it, returns its general admission to the counters, drops the
      holds bound to it and announces their seats; any other order is left as it is. */
  ghost predicate RowsReleased(db: Db, db2: Db, o: nat, final: OrderStatus) {
    if !(o < |db.orders| && db.orders[o].status == AwaitingPayment) then db2 == db
    else
      && db2 == db.(orders := db2.orders, stock := db2.stock, holds := db2.holds, feed := db2.feed)
      && db2.orders == db.orders[o := db.orders[o].(status := final)]
      && CountersDrop(db.stock, db2.stock,
           (t: nat) => if t < |db.tiers| && db.tiers[t].kind == Ga then 0 - LineOf(db.orders[o].items, t) else 0)
      && db2.holds == db.holds - HeldFor(db.holds, o)
      && db2.feed == (if HeldFor(db.holds, o) == {} then db.feed else db.feed + [SeatsReleased(HeldFor(db.holds, o))])
  }

  lemma OrderReleased(db: Db, o: nat, final: OrderStatus)
    requires OrdersOk(db.tiers, db.orders)
    ensures RowsReleased(db, Release(db, o, final), o, final)
  {
    assert HeldFor(db.holds, o) == Bound(db.holds, o);
    if o < |db.orders| {
      var items := db.orders[o].items;
      assert DistinctTiers(items);
      hide QtyOf, Bound;
      forall t: nat ensures QtyOf(items, t) == LineOf(items, t) {
        LineIsQty(items, t);
      }
    }
  }

  // ---- settlement ----

  /** Settling an order that awaits payment pays it, issues its general admission and one ticket per hold bound to
      it, takes those seats off the counters and announces them sold. */
  ghost predicate RowsPaid(db: Db, db2: Db, o: nat)
    requires o < |db.orders|
  {
    var p := HeldFor(db.holds, o);
    && db2 == db.(orders := db2.orders, stock := db2.stock, holds := db2.holds, tickets := db2.tickets, feed := db2.feed)
    && db2.orders == db.orders[o := db.orders[o].(status := Paid)]
    && CountersDrop(db.stock, db2.stock, (t: nat) => |SeatsOfTier(db.seats, p, t)|)
    && db2.holds == db.holds - p
    && db.tickets <= db2.tickets
    && IssuedBatch(db2.tickets[|db.tickets|..], o, db.tiers, db.orders[o].items, db.seats, p)
    && db2.feed == (if p == {} then db.feed else db.feed + [SeatsSold(p)])
  }

  lemma OrderPaid(db: Db, o: nat)
    requires CatalogOk(db.tiers, db.stock, db.seats) && OrdersOk(db.tiers, db.orders) && o < |db.orders|
    ensures RowsPaid(db, PayOff(db, o), o)
  {
    var p, items := HeldFor(db.holds, o), db.orders[o].items;
    assert p == Bound(db.holds, o);
    assert DistinctTiers(items);
    MintedIsBatch(o, db.tiers, items, db.seats, p);
    hide IssuedBatch, SeatCount, CatalogOk, OrdersOk, Bound;
    forall t: nat ensures SeatCount(db.seats, p, t) == |SeatsOfTier(db.seats, p, t)| {
      SeatsCounted(db.seats, p, t);
    }
    assert PayOff(db, o).tickets[|db.tickets|..] == Minted(o, db.tiers, items, db.seats, p);
  }
}
