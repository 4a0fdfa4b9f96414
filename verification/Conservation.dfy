/** Conservation of an order's value: from settlement on, what was issued is split between live
    tickets and refunds, step after step; it is the full total exactly when every priced place was issued. */
module Conservation {
  import opened Tables
  import opened Sums
  import opened Weights
  import opened Issuing
  import opened Transactions
  import opened Protocol
  import opened Frames
  import opened Invariants
  import opened Money
  import opened Steps
  import opened Evolution
  import opened Whole
  import Drafts

  /** What an order's tickets and refunds leave unaccounted of its total. */
  ghost function Slack(db: Db, o: nat): int
    requires o < |db.orders|
  {
    db.orders[o].total - RefundTotal(db.refunds, o) - LiveValue(db.tickets, o, db.orders[o].items)
  }

  lemma SlackIsUnissued(w: World, o: nat)
    requires WorldOk(w) && o < |w.db.orders| && IsPaidStatus(w.db.orders[o].status)
    ensures Slack(w.db, o) == w.db.orders[o].total - MintedValue(w.db.tickets, o, w.db.orders[o].items) >= 0
  {
    assert AccountOk(w.db.tickets, w.db.refunds, o, w.db.orders[o]);
    assert MintedFits(w.db.tiers, w.db.tickets, o, w.db.orders[o]);
  }

  lemma SlackStep(w: World, a: Action, o: nat)
    requires WorldOk(w) && o < |w.db.orders| && IsPaidStatus(w.db.orders[o].status)
    ensures o < |Next(w, a).db.orders| && IsPaidStatus(Next(w, a).db.orders[o].status)
    ensures Slack(Next(w, a).db, o) == Slack(w.db, o)
  {
    SlackIsUnissued(w, o);
    MintedFrozen(w, a, o);
    StepKeeps(w, a);
    StepItems(w, a, o);
    TotalFixed(w, a, o);
    hide Next, WorldOk;
    SlackIsUnissued(Next(w, a), o);
  }

  lemma TotalFixed(w: World, a: Action, o: nat)
    requires WorldOk(w) && o < |w.db.orders|
    ensures o < |Next(w, a).db.orders| && Next(w, a).db.orders[o].total == w.db.orders[o].total
  {
    hide Next, WorldOk;
    StepEvolves(w, a);
  }

  /** Whatever happens to a paid order, refunds, failures, retries, settlements, check-ins, the sum of its
      refunds and its live tickets never changes by a satang. */
  lemma {:induction false} ValueConserved(w: World, schedule: seq<Action>, o: nat)
    requires Reachable(w) && o < |w.db.orders| && IsPaidStatus(w.db.orders[o].status)
    ensures var after := Run(w, schedule).db;
      && o < |after.orders| && IsPaidStatus(after.orders[o].status)
      && RefundTotal(after.refunds, o) + LiveValue(after.tickets, o, after.orders[o].items)
         == RefundTotal(w.db.refunds, o) + LiveValue(w.db.tickets, o, w.db.orders[o].items)
  {
    ReachableOk(w);
    SlackRun(w, schedule, o);
  }

  lemma {:induction false} SlackRun(w: World, schedule: seq<Action>, o: nat)
    requires WorldOk(w) && o < |w.db.orders| && IsPaidStatus(w.db.orders[o].status)
    ensures o < |Run(w, schedule).db.orders| && IsPaidStatus(Run(w, schedule).db.orders[o].status)
    ensures Slack(Run(w, schedule).db, o) == Slack(w.db, o)
    ensures Run(w, schedule).db.orders[o].total == w.db.orders[o].total
  {
    hide Next, WorldOk, Slack;
    if schedule != [] {
      var m := |schedule| - 1;
      SlackRun(w, schedule[..m], o);
      RunKeeps(w, schedule[..m]);
      SlackStep(Run(w, schedule[..m]), schedule[m], o);
      TotalFixed(Run(w, schedule[..m]), schedule[m], o);
    }
  }

  // ---- value by tier ----

  ghost function MintedLine(tickets: seq<Ticket>, o: nat): (nat, Item) -> int {
    (k: nat, it: Item) => it.unitPrice * MintedCount(tickets, o, it.tier)
  }

  ghost function Scaled(c: int, o: nat, t: nat): (nat, Ticket) -> int {
    (k: nat, x: Ticket) => if x.order == o && x.tier == t then c else 0
  }

  lemma {:induction false} ScaledTotal(c: int, o: nat, t: nat, tickets: seq<Ticket>)
    ensures Total(Scaled(c, o, t), tickets) == c * MintedCount(tickets, o, t)
  {
    if tickets != [] {
      var m := |tickets| - 1;
      ScaledTotal(c, o, t, tickets[..m]);
      var one := MintedIn(o, t)(m, tickets[m]);
      assert Scaled(c, o, t)(m, tickets[m]) == c * one;
      assert c * (MintedCount(tickets[..m], o, t) + one) == c * MintedCount(tickets[..m], o, t) + c * one;
    }
  }

  lemma {:induction false} AbsentPrice(items: seq<Item>, t: nat)
    requires !HasTier(items, t)
    ensures PriceOf(items, t) == 0
  {
    if items != [] {
      var m := |items| - 1;
      assert forall k | 0 <= k < |items| :: items[k].tier != t;
      AbsentPrice(items[..m], t);
    }
  }

  /** The price of an order's issued tickets is the sum over its items of price times tickets issued. */
  lemma {:induction false} MintedByTier(tickets: seq<Ticket>, o: nat, items: seq<Item>)
    requires DistinctTiers(items)
    ensures MintedValue(tickets, o, items) == Total(MintedLine(tickets, o), items)
  {
    if items == [] {
      forall k: nat | k < |tickets| ensures MintedPrice(o, items)(k, tickets[k]) == 0 {
        assert PriceOf(items, tickets[k].tier) == 0;
      }
      TotalZero(MintedPrice(o, items), tickets);
    } else {
      var m := |items| - 1;
      var init, it := items[..m], items[m];
      MintedByTier(tickets, o, init);
      ScaledTotal(it.unitPrice, o, it.tier, tickets);
      AbsentPrice(init, it.tier);
      forall k: nat | k < |tickets|
        ensures MintedPrice(o, items)(k, tickets[k])
             == MintedPrice(o, init)(k, tickets[k]) + Scaled(it.unitPrice, o, it.tier)(k, tickets[k])
      {
        assert PriceOf(items, tickets[k].tier)
            == if tickets[k].tier == it.tier then it.unitPrice else PriceOf(init, tickets[k].tier);
      }
      TotalSum(MintedPrice(o, items), tickets, MintedPrice(o, init), tickets, Scaled(it.unitPrice, o, it.tier), tickets);
    }
  }

  lemma {:induction false} LinesEqual(w: (nat, Item) -> int, u: (nat, Item) -> int, items: seq<Item>)
    requires forall k: nat | k < |items| :: w(k, items[k]) <= u(k, items[k])
    ensures Total(w, items) <= Total(u, items)
    ensures Total(w, items) == Total(u, items) <==> forall k: nat | k < |items| :: w(k, items[k]) == u(k, items[k])
  {
    if items != [] {
      var m := |items| - 1;
      LinesEqual(w, u, items[..m]);
      assert w(m, items[m]) <= u(m, items[m]);
      if forall k: nat | k < |items| :: w(k, items[k]) == u(k, items[k]) {
        assert forall k: nat | k < m :: w(k, items[..m][k]) == u(k, items[..m][k]);
      }
      if Total(w, items) == Total(u, items) {
        forall k: nat | k < |items| ensures w(k, items[k]) == u(k, items[k]) {
          if k < m {
            assert w(k, items[..m][k]) == u(k, items[..m][k]);
          }
        }
      }
    }
  }

  lemma ScaledOrder(c: nat, a: int, b: int)
    requires a <= b
    ensures c * a <= c * b && (c * a == c * b <==> c == 0 || a == b)
  {
  }

  /** Refunds and live tickets of a paid order add up to its full total if and only if every place it
      paid for was issued. */
  lemma FullValueIffComplete(w: World, o: nat)
    requires Reachable(w) && o < |w.db.orders| && IsPaidStatus(w.db.orders[o].status)
    ensures var ord := w.db.orders[o];
      RefundTotal(w.db.refunds, o) + LiveValue(w.db.tickets, o, ord.items) == ord.total
      <==> forall k | 0 <= k < |ord.items| && ord.items[k].unitPrice > 0 ::
             MintedCount(w.db.tickets, o, ord.items[k].tier) == ord.items[k].quantity
  {
    ReachableOk(w);
    SlackIsUnissued(w, o);
    var items := w.db.orders[o].items;
    assert ItemsOk(w.db.tiers, items) && w.db.orders[o].total == ItemsValue(items);
    assert MintedFits(w.db.tiers, w.db.tickets, o, w.db.orders[o]);
    hide WorldOk;
    MintedByTier(w.db.tickets, o, items);
    forall k: nat | k < |items|
      ensures var mine := items[k].unitPrice * MintedCount(w.db.tickets, o, items[k].tier);
        && mine <= items[k].quantity * items[k].unitPrice
        && (mine == items[k].quantity * items[k].unitPrice
            <==> (items[k].unitPrice > 0 ==> MintedCount(w.db.tickets, o, items[k].tier) == items[k].quantity))
    {
      Drafts.QtyDistinct(items, k);
      ScaledOrder(items[k].unitPrice, MintedCount(w.db.tickets, o, items[k].tier), items[k].quantity);
    }
    LinesEqual(MintedLine(w.db.tickets, o), LinePrice(), items);
    CompleteLines(w.db.tickets, o, items);
  }

  lemma CompleteLines(tickets: seq<Ticket>, o: nat, items: seq<Item>)
    requires forall k: nat | k < |items| ::
      items[k].unitPrice * MintedCount(tickets, o, items[k].tier) == items[k].quantity * items[k].unitPrice
      <==> (items[k].unitPrice > 0 ==> MintedCount(tickets, o, items[k].tier) == items[k].quantity)
    ensures (forall k: nat | k < |items| :: MintedLine(tickets, o)(k, items[k]) == LinePrice()(k, items[k]))
      <==> (forall k | 0 <= k < |items| && items[k].unitPrice > 0 :: MintedCount(tickets, o, items[k].tier) == items[k].quantity)
  {
    if forall k: nat | k < |items| :: MintedLine(tickets, o)(k, items[k]) == LinePrice()(k, items[k]) {
      forall k | 0 <= k < |items| && items[k].unitPrice > 0
        ensures MintedCount(tickets, o, items[k].tier) == items[k].quantity
      {
        assert MintedLine(tickets, o)(k, items[k]) == LinePrice()(k, items[k]);
      }
    }
  }

  /** An order without seats is always complete: its general admission is issued in full at settlement. */
  lemma GaOnlyComplete(w: World, o: nat)
    requires Reachable(w) && o < |w.db.orders| && IsPaidStatus(w.db.orders[o].status)
    requires forall k | 0 <= k < |w.db.orders[o].items| :: IsGa(w.db.tiers, w.db.orders[o].items[k].tier)
    ensures RefundTotal(w.db.refunds, o) + LiveValue(w.db.tickets, o, w.db.orders[o].items) == w.db.orders[o].total
  {
    ReachableOk(w);
    var items := w.db.orders[o].items;
    assert ItemsOk(w.db.tiers, items);
    assert MintedFits(w.db.tiers, w.db.tickets, o, w.db.orders[o]);
    forall k | 0 <= k < |items| ensures MintedCount(w.db.tickets, o, items[k].tier) == items[k].quantity {
      Drafts.QtyDistinct(items, k);
    }
    FullValueIffComplete(w, o);
  }

  ghost function LostLine(w: World, schedule: seq<Action>, o: nat): (nat, Item) -> int {
    (k: nat, it: Item) => it.unitPrice * Lost(w, schedule, o, it.tier)
  }

  /** What the seats taken from the order on the way cost. */
  ghost function LostValue(w: World, schedule: seq<Action>, o: nat, items: seq<Item>): int {
    Total(LostLine(w, schedule, o), items)
  }

  lemma LinesSplit(tickets: seq<Ticket>, o: nat, items: seq<Item>, w: World, schedule: seq<Action>)
    requires DistinctTiers(items)
    requires forall t: nat :: MintedCount(tickets, o, t) + Lost(w, schedule, o, t) == QtyOf(items, t)
    ensures ItemsValue(items) == MintedValue(tickets, o, items) + LostValue(w, schedule, o, items)
  {
    hide Lost, MintedCount;
    MintedByTier(tickets, o, items);
    forall k: nat | k < |items|
      ensures LinePrice()(k, items[k]) == MintedLine(tickets, o)(k, items[k]) + LostLine(w, schedule, o)(k, items[k])
    {
      Drafts.QtyDistinct(items, k);
      Distribute(items[k].unitPrice, MintedCount(tickets, o, items[k].tier), Lost(w, schedule, o, items[k].tier));
    }
    TotalSum(LinePrice(), items, MintedLine(tickets, o), items, LostLine(w, schedule, o), items);
  }

  lemma Distribute(c: int, a: int, b: int)
    ensures c * (a + b) == c * a + c * b
  {
  }

  /** A whole order that ends up paid: tickets issued and seats lost make up what was bought, tier by tier, and
      refunds, live tickets and the price of the lost seats make up the total. */
  lemma ValueOfWholeOrder(w: World, schedule: seq<Action>, o: nat)
    requires Reachable(w) && o < |w.db.orders| && WholeOrder(w.db, o) && !IsUnfulfillableStatus(w.db.orders[o].status)
    requires o < |Run(w, schedule).db.orders| && IsPaidStatus(Run(w, schedule).db.orders[o].status)
    ensures var db := Run(w, schedule).db; var ord := db.orders[o];
      && (forall t: nat :: MintedCount(db.tickets, o, t) + Lost(w, schedule, o, t) == QtyOf(ord.items, t))
      && RefundTotal(db.refunds, o) + LiveValue(db.tickets, o, ord.items) + LostValue(w, schedule, o, ord.items) == ord.total
  {
    var after := Run(w, schedule);
    ReachableOk(w);
    ReachableRun(w, schedule);
    ReachableOk(after);
    hide Reachable, Next, Lost, Places, WorldOk;
    RunEvolves(w, schedule);
    SlackIsUnissued(after, o);
    PaidItems(after, o);
    forall t: nat ensures MintedCount(after.db.tickets, o, t) + Lost(w, schedule, o, t) == QtyOf(after.db.orders[o].items, t) {
      PlacesLost(w, schedule, o, t);
      assert Places(after.db, o, t) == MintedCount(after.db.tickets, o, t) by { PaidPlaces(after.db, o, t); }
    }
    LinesSplit(after.db.tickets, o, after.db.orders[o].items, w, schedule);
  }

  lemma PaidPlaces(db: Db, o: nat, t: nat)
    requires o < |db.orders| && IsPaidStatus(db.orders[o].status)
    ensures Places(db, o, t) == MintedCount(db.tickets, o, t)
  {
  }

  lemma PaidItems(w: World, o: nat)
    requires WorldOk(w) && o < |w.db.orders|
    ensures DistinctTiers(w.db.orders[o].items) && w.db.orders[o].total == ItemsValue(w.db.orders[o].items)
  {
    assert ItemsOk(w.db.tiers, w.db.orders[o].items);
  }

  /** From its creation to the end of any run that leaves it paid: per tier, tickets issued plus seats taken over,
      rebound or consumed from under the order are what it bought; and its refunds, its live tickets and the
      price of the seats lost add up, to the satang, to what it cost. */
  lemma TotalAccountedFor(w: World, n: nat, schedule: seq<Action>)
    requires Reachable(w) && n < |w.orderDrafts|
    requires CommitOutcomeOf(w.db, w.orderDrafts[n]).Reserved? || CommitOutcomeOf(w.db, w.orderDrafts[n]).Granted?
    requires |w.db.orders| < |Run(Next(w, DoCommitOrder(n)), schedule).db.orders|
             && IsPaidStatus(Run(Next(w, DoCommitOrder(n)), schedule).db.orders[|w.db.orders|].status)
    ensures var o, created, d := |w.db.orders|, Next(w, DoCommitOrder(n)), w.orderDrafts[n];
      var db := Run(created, schedule).db;
      && db.orders[o].items == DraftItems(d) && db.orders[o].total == d.total
      && (forall t: nat :: MintedCount(db.tickets, o, t) + Lost(created, schedule, o, t) == QtyOf(DraftItems(d), t))
      && RefundTotal(db.refunds, o) + LiveValue(db.tickets, o, DraftItems(d)) + LostValue(created, schedule, o, DraftItems(d))
         == d.total
  {
    hide Next, Run, WorldOk, WholeOrder, Reachable, CommitOutcomeOf, DraftItems, Lost, LostValue;
    var created := Next(w, DoCommitOrder(n));
    ReachableOk(w);
    CommitCreates(w, n);
    NewOrderWhole(w, n);
    ReachableNext(w, DoCommitOrder(n));
    StepKeeps(w, DoCommitOrder(n));
    RunEvolves(created, schedule);
    ValueOfWholeOrder(created, schedule, |w.db.orders|);
  }

  ghost function NoLine(): (nat, Item) -> int {
    (k: nat, it: Item) => 0
  }

  /** The seats an order lost cost nothing exactly when none of them was of a priced item. */
  lemma LostValueZero(w: World, schedule: seq<Action>, o: nat, items: seq<Item>)
    requires WorldOk(w)
    ensures LostValue(w, schedule, o, items) >= 0
    ensures LostValue(w, schedule, o, items) == 0
      <==> forall k | 0 <= k < |items| && items[k].unitPrice > 0 :: Lost(w, schedule, o, items[k].tier) == 0
  {
    LostIffStolen(w, schedule, o);
    hide Lost, WorldOk, Stolen;
    TotalZero(NoLine(), items);
    forall k: nat | k < |items|
      ensures 0 <= LostLine(w, schedule, o)(k, items[k])
        && (LostLine(w, schedule, o)(k, items[k]) == 0
            <==> (items[k].unitPrice > 0 ==> Lost(w, schedule, o, items[k].tier) == 0))
    {
      ScaledOrder(items[k].unitPrice, 0, Lost(w, schedule, o, items[k].tier));
    }
    LinesEqual(NoLine(), LostLine(w, schedule, o), items);
  }

  /** Refunds and live tickets of a paid order make up its whole total if and only if no seat of a priced item
      was taken from under it since its creation; in particular if no hold was. */
  lemma FullValueIffNoneLost(w: World, n: nat, schedule: seq<Action>)
    requires Reachable(w) && n < |w.orderDrafts|
    requires CommitOutcomeOf(w.db, w.orderDrafts[n]).Reserved? || CommitOutcomeOf(w.db, w.orderDrafts[n]).Granted?
    requires |w.db.orders| < |Run(Next(w, DoCommitOrder(n)), schedule).db.orders|
             && IsPaidStatus(Run(Next(w, DoCommitOrder(n)), schedule).db.orders[|w.db.orders|].status)
    ensures var o, created, d := |w.db.orders|, Next(w, DoCommitOrder(n)), w.orderDrafts[n];
      var db, items := Run(created, schedule).db, DraftItems(d);
      && (RefundTotal(db.refunds, o) + LiveValue(db.tickets, o, items) == d.total
          <==> forall k | 0 <= k < |items| && items[k].unitPrice > 0 :: Lost(created, schedule, o, items[k].tier) == 0)
      && (!Stolen(created, schedule, o) ==> RefundTotal(db.refunds, o) + LiveValue(db.tickets, o, items) == d.total)
  {
    hide Next, Run, WorldOk, Reachable, CommitOutcomeOf, DraftItems, Lost, LostValue, Stolen;
    TotalAccountedFor(w, n, schedule);
    ReachableOk(w);
    StepKeeps(w, DoCommitOrder(n));
    LostValueZero(Next(w, DoCommitOrder(n)), schedule, |w.db.orders|, DraftItems(w.orderDrafts[n]));
    LostIffStolen(Next(w, DoCommitOrder(n)), schedule, |w.db.orders|);
  }

  lemma CommitCreates(w: World, n: nat)
    requires n < |w.orderDrafts|
    requires CommitOutcomeOf(w.db, w.orderDrafts[n]).Reserved? || CommitOutcomeOf(w.db, w.orderDrafts[n]).Granted?
    ensures var after, o := Next(w, DoCommitOrder(n)), |w.db.orders|;
      && after == CommitDraft(w, n) && o < |after.db.orders|
      && after.db.orders[o] == DraftRow(w.orderDrafts[n])
  {
    StepFamily(w, DoCommitOrder(n));
    hide Next;
  }
}
