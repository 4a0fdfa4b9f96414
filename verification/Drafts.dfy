/** Order drafts: what the reads before an order's transaction promise that transaction. */
module Drafts {
  import opened Tables
  import opened Sums
  import opened Weights
  import opened Issuing
  import opened Transactions
  import opened Invariants
  import opened InventoryCatalog

  /** A draft's prices are right for good: tiers are never repriced and seats never change tier. */
  ghost predicate DraftOk(tiers: seq<Tier>, seats: seq<Seat>, d: OrderDraft) {
    && ItemsOk(tiers, DraftItems(d))
    && (forall s | s in d.seats :: s < |seats| && seats[s].event == d.event && HasTier(DraftItems(d), seats[s].tier))
    && (forall k | 0 <= k < |d.ga| :: IsGa(tiers, d.ga[k].tier))
    && (forall k | 0 <= k < |d.groups| :: !IsGa(tiers, d.groups[k].tier))
    && (forall t: nat :: QtyOf(d.groups, t) == SeatCount(seats, d.seats, t))
    && GaValue(tiers, DraftItems(d)) + SeatsValue(seats, d.seats, DraftItems(d)) == d.total
    && ItemsValue(DraftItems(d)) == d.total >= 0
    && (d.expiresAt.Some? <==> d.total > 0)
  }

  lemma {:induction false} ItemsValueNonNegative(items: seq<Item>)
    ensures ItemsValue(items) >= 0
  {
    forall k: nat | k < |items| ensures LinePrice()(k, items[k]) >= 0 {
      assert items[k].quantity * items[k].unitPrice >= 0;
    }
    TotalNonNegative(LinePrice(), items);
  }

  /** Two item lists with no tier in common, each listing its tiers once, make such a list together. */
  lemma DisjointTiers(tiers: seq<Tier>, a: seq<Item>, b: seq<Item>)
    requires DistinctTiers(a) && DistinctTiers(b)
    requires forall k | 0 <= k < |a| :: IsGa(tiers, a[k].tier)
    requires forall k | 0 <= k < |b| :: !IsGa(tiers, b[k].tier)
    ensures DistinctTiers(a + b)
  {
  }

  /** The seat groups of a draft name seated tiers only, and every seat of the draft is in one. */
  lemma DraftGroups(tiers: seq<Tier>, stock: seq<Stock>, seats: seq<Seat>, p: set<nat>)
    requires CatalogOk(tiers, stock, seats) && forall s | s in p :: s < |seats|
    ensures var groups := Grouped(tiers, seats, p);
      && DistinctTiers(groups) && PricedAt(tiers, groups) && KnownTiers(tiers, groups)
      && (forall k | 0 <= k < |groups| :: !IsGa(tiers, groups[k].tier))
      && (forall t: nat :: QtyOf(groups, t) == SeatCount(seats, p, t))
      && (forall s | s in p :: HasTier(groups, seats[s].tier))
      && ItemsValue(groups) == Total(SeatPrice(tiers, p), seats)
  {
    var groups := Grouped(tiers, seats, p);
    GroupedTotals(tiers, seats, p, 0);
    forall t: nat ensures QtyOf(groups, t) == SeatCount(seats, p, t) {
      GroupedTotals(tiers, seats, p, t);
    }
    forall k | 0 <= k < |groups| ensures !IsGa(tiers, groups[k].tier) && groups[k].tier < |tiers| {
      GroupedTotals(tiers, seats, p, groups[k].tier);
      assert HasTier(groups, groups[k].tier);
    }
    forall s | s in p ensures HasTier(groups, seats[s].tier) {
      GroupedTotals(tiers, seats, p, seats[s].tier);
    }
  }

  /** Reading an order request yields a sound draft. */
  lemma DraftOrderOk(db: Db, r: OrderRequest)
    requires CatalogOk(db.tiers, db.stock, db.seats) && DraftOrder(db, r).Some?
    ensures DraftOk(db.tiers, db.seats, DraftOrder(db, r).value)
  {
    var d := DraftOrder(db, r).value;
    DraftGroups(db.tiers, db.stock, db.seats, r.seats);
    DisjointTiers(db.tiers, d.ga, d.groups);
    forall s | s in d.seats ensures HasTier(DraftItems(d), db.seats[s].tier) {
      var k :| 0 <= k < |d.groups| && d.groups[k].tier == db.seats[s].tier;
      assert DraftItems(d)[|d.ga| + k].tier == db.seats[s].tier;
    }
    ValueConcat(d.ga, d.groups);
    ItemsValueNonNegative(DraftItems(d));
    DraftWorth(db.tiers, db.seats, d);
  }

  /** The total asked of the buyer is its general admission plus its seats at the order's own prices. */
  lemma DraftWorth(tiers: seq<Tier>, seats: seq<Seat>, d: OrderDraft)
    requires ItemsOk(tiers, DraftItems(d))
    requires forall k | 0 <= k < |d.ga| :: IsGa(tiers, d.ga[k].tier)
    requires forall k | 0 <= k < |d.groups| :: !IsGa(tiers, d.groups[k].tier)
    requires forall s | s in d.seats :: s < |seats| && HasTier(DraftItems(d), seats[s].tier)
    ensures GaValue(tiers, DraftItems(d)) == ItemsValue(d.ga)
    ensures SeatsValue(seats, d.seats, DraftItems(d)) == Total(SeatPrice(tiers, d.seats), seats)
  {
    var items := DraftItems(d);
    assert items == d.ga + d.groups;
    TotalExtend(GaLinePrice(tiers), d.ga, d.groups);
    TotalSame(GaLinePrice(tiers), d.ga, LinePrice(), d.ga);
    forall s: nat | s < |seats|
      ensures PricedBy(d.seats, items)(s, seats[s]) == SeatPrice(tiers, d.seats)(s, seats[s])
    {
      if s in d.seats {
        var k :| 0 <= k < |items| && items[k].tier == seats[s].tier;
        PriceOfItem(items, k);
        assert items[k].unitPrice == PriceAt(tiers, items[k].tier);
      }
    }
    TotalSame(PricedBy(d.seats, items), seats, SeatPrice(tiers, d.seats), seats);
  }

  /** Drafts stay sound while the catalog grows under them. */
  lemma DraftGrown(tiers: seq<Tier>, seats: seq<Seat>, tiers2: seq<Tier>, seats2: seq<Seat>, d: OrderDraft)
    requires Grown(tiers, seats, tiers2, seats2) && DraftOk(tiers, seats, d)
    ensures DraftOk(tiers2, seats2, d)
  {
    GrownItems(tiers, tiers2, DraftItems(d));
    GrownSeats(seats, seats2, d.seats, DraftItems(d));
    forall k | 0 <= k < |d.groups| ensures !IsGa(tiers2, d.groups[k].tier) {
      assert DraftItems(d)[|d.ga| + k] == d.groups[k];
    }
  }

  /** In a list that names each tier once, a tier's quantity is its item's. */
  lemma {:induction false} QtyDistinct(items: seq<Item>, k: nat)
    requires DistinctTiers(items) && k < |items|
    ensures QtyOf(items, items[k].tier) == items[k].quantity
  {
    var m := |items| - 1;
    var t := items[k].tier;
    if k < m {
      assert items[k].tier != items[m].tier;
      QtyDistinct(items[..m], k);
    } else {
      forall j: nat | j < m ensures QtyIn(t)(j, items[..m][j]) == 0 {
        assert items[j].tier != items[m].tier;
      }
      TotalZero(QtyIn(t), items[..m]);
    }
  }

  /** A draft's general admission takes from general admission only, its seats from seated tiers only. */
  lemma DraftQuantities(tiers: seq<Tier>, seats: seq<Seat>, d: OrderDraft, t: nat)
    requires DraftOk(tiers, seats, d)
    ensures QtyOf(DraftItems(d), t) == QtyOf(d.ga, t) + SeatCount(seats, d.seats, t)
    ensures IsGa(tiers, t) ==> SeatCount(seats, d.seats, t) == 0
    ensures !IsGa(tiers, t) ==> QtyOf(d.ga, t) == 0
  {
    QtyConcat(d.ga, d.groups, t);
    if IsGa(tiers, t) {
      QtyAbsent(d.groups, t);
    } else {
      QtyAbsent(d.ga, t);
    }
  }

  lemma ClaimLeaves(tiers: seq<Tier>, seats: seq<Seat>, stock: seq<Stock>, d: OrderDraft, t: nat)
    requires DraftOk(tiers, seats, d) && CanClaim(stock, d.ga) && t < |stock| && stock[t].remaining >= 0
    ensures stock[t].remaining - QtyOf(d.ga, t) >= 0
  {
    if HasTier(d.ga, t) {
      var k :| 0 <= k < |d.ga| && d.ga[k].tier == t;
      assert DistinctTiers(d.ga) by {
        forall i, j | 0 <= i < j < |d.ga| ensures d.ga[i].tier != d.ga[j].tier {
          assert DraftItems(d)[i].tier != DraftItems(d)[j].tier;
        }
      }
      QtyDistinct(d.ga, k);
    } else {
      QtyAbsent(d.ga, t);
    }
  }

  lemma {:induction false} SeatedIssueNothing(o: nat, tiers: seq<Tier>, a: seq<Item>, b: seq<Item>)
    requires forall k | 0 <= k < |b| :: !IsGa(tiers, b[k].tier)
    ensures GaTickets(o, tiers, a + b) == GaTickets(o, tiers, a)
  {
    if b == [] {
      assert a + b == a;
    } else {
      var m := |b| - 1;
      assert (a + b)[..|a| + m] == a + b[..m];
      SeatedIssueNothing(o, tiers, a, b[..m]);
    }
  }
}
