/** Issuing: turning an order's items and seats into ticket rows, and grouping seats into items. */
module Issuing {
  import opened Tables
  import opened Sums
  import opened Weights

  function GaTicket(o: nat, t: nat): Ticket {
    Ticket(o, t, None, Issued, None)
  }

  function SeatTicket(o: nat, t: nat, s: nat): Ticket {
    Ticket(o, t, Some(s), Issued, None)
  }

  function Copies(x: Ticket, n: nat): (r: seq<Ticket>)
    ensures |r| == n && forall k | 0 <= k < n :: r[k] == x
  {
    seq(n, _ => x)
  }

  /** One ticket per place of every general-admission item. */
  function GaTickets(o: nat, tiers: seq<Tier>, items: seq<Item>): seq<Ticket> {
    if items == [] then []
    else
      var it := items[|items| - 1];
      GaTickets(o, tiers, items[..|items| - 1])
      + (if IsGa(tiers, it.tier) then Copies(GaTicket(o, it.tier), it.quantity) else [])
  }

  /** One ticket per seat of `p`, in seat order. */
  function SeatTickets(o: nat, seats: seq<Seat>, p: set<nat>): seq<Ticket> {
    if seats == [] then []
    else
      var s := |seats| - 1;
      SeatTickets(o, seats[..s], p) + (if s in p then [SeatTicket(o, seats[s].tier, s)] else [])
  }

  function Minted(o: nat, tiers: seq<Tier>, items: seq<Item>, seats: seq<Seat>, p: set<nat>): seq<Ticket> {
    GaTickets(o, tiers, items) + SeatTickets(o, seats, p)
  }

  // ---- totals over a freshly issued batch ----

  ghost function GaLine(w: (nat, Ticket) -> int, o: nat, tiers: seq<Tier>): (nat, Item) -> int {
    (k: nat, it: Item) => if IsGa(tiers, it.tier) then it.quantity * w(0, GaTicket(o, it.tier)) else 0
  }

  ghost function SeatLine(w: (nat, Ticket) -> int, o: nat, p: set<nat>): (nat, Seat) -> int {
    (s: nat, x: Seat) => if s in p then w(0, SeatTicket(o, x.tier, s)) else 0
  }

  lemma {:induction false} CopiesTotal(w: (nat, Ticket) -> int, x: Ticket, n: nat)
    requires Uniform(w)
    ensures Total(w, Copies(x, n)) == n * w(0, x)
  {
    if n > 0 {
      CopiesTotal(w, x, n - 1);
      assert Copies(x, n) == Copies(x, n - 1) + [x];
      TotalAppend(w, Copies(x, n - 1), x);
      assert w(n - 1, x) == w(0, x);
    }
  }

  lemma UniformConcat(w: (nat, Ticket) -> int, a: seq<Ticket>, b: seq<Ticket>)
    requires Uniform(w)
    ensures Total(w, a + b) == Total(w, a) + Total(w, b)
  {
    forall k: nat | k < |b| ensures w(|a| + k, b[k]) == w(k, b[k]) {
    }
    TotalConcat(w, a, b);
  }

  lemma {:induction false} GaTicketsTotal(w: (nat, Ticket) -> int, o: nat, tiers: seq<Tier>, items: seq<Item>)
    requires Uniform(w)
    ensures Total(w, GaTickets(o, tiers, items)) == Total(GaLine(w, o, tiers), items)
  {
    if items != [] {
      var m := |items| - 1;
      var it := items[m];
      GaTicketsTotal(w, o, tiers, items[..m]);
      if IsGa(tiers, it.tier) {
        UniformConcat(w, GaTickets(o, tiers, items[..m]), Copies(GaTicket(o, it.tier), it.quantity));
        CopiesTotal(w, GaTicket(o, it.tier), it.quantity);
      } else {
        assert GaTickets(o, tiers, items) == GaTickets(o, tiers, items[..m]);
      }
    }
  }

  lemma {:induction false} SeatTicketsTotal(w: (nat, Ticket) -> int, o: nat, seats: seq<Seat>, p: set<nat>)
    requires Uniform(w)
    ensures Total(w, SeatTickets(o, seats, p)) == Total(SeatLine(w, o, p), seats)
  {
    if seats != [] {
      var s := |seats| - 1;
      SeatTicketsTotal(w, o, seats[..s], p);
      var init := SeatTickets(o, seats[..s], p);
      if s in p {
        var x := SeatTicket(o, seats[s].tier, s);
        TotalAppend(w, init, x);
        assert w(|init|, x) == w(0, x);
      } else {
        assert SeatTickets(o, seats, p) == init;
      }
    }
  }

  lemma MintedTotal(w: (nat, Ticket) -> int, tickets: seq<Ticket>, o: nat, tiers: seq<Tier>, items: seq<Item>,
                    seats: seq<Seat>, p: set<nat>)
    requires Uniform(w)
    ensures Total(w, tickets + Minted(o, tiers, items, seats, p))
         == Total(w, tickets) + Total(GaLine(w, o, tiers), items) + Total(SeatLine(w, o, p), seats)
  {
    UniformConcat(w, GaTickets(o, tiers, items), SeatTickets(o, seats, p));
    UniformConcat(w, tickets, Minted(o, tiers, items, seats, p));
    GaTicketsTotal(w, o, tiers, items);
    SeatTicketsTotal(w, o, seats, p);
  }

  /** The rows a batch contains: fresh, issued, of this order, from its items or its seats. */
  ghost predicate FreshRow(x: Ticket, o: nat, tiers: seq<Tier>, items: seq<Item>, seats: seq<Seat>, p: set<nat>) {
    && x.order == o && x.status == Issued && x.refund == None
    && match x.seat
       case None => IsGa(tiers, x.tier) && HasTier(items, x.tier)
       case Some(s) => s < |seats| && s in p && seats[s].tier == x.tier
  }

  lemma {:induction false} GaRows(o: nat, tiers: seq<Tier>, items: seq<Item>)
    ensures forall k | 0 <= k < |GaTickets(o, tiers, items)| ::
      var x := GaTickets(o, tiers, items)[k];
      x == GaTicket(o, x.tier) && IsGa(tiers, x.tier) && HasTier(items, x.tier)
  {
    if items != [] {
      var m := |items| - 1;
      GaRows(o, tiers, items[..m]);
      var init := GaTickets(o, tiers, items[..m]);
      forall k | 0 <= k < |GaTickets(o, tiers, items)|
        ensures var x := GaTickets(o, tiers, items)[k];
          x == GaTicket(o, x.tier) && IsGa(tiers, x.tier) && HasTier(items, x.tier)
      {
        var x := GaTickets(o, tiers, items)[k];
        if k < |init| {
          assert x == init[k];
          var j :| 0 <= j < m && items[..m][j].tier == x.tier;
          assert items[j].tier == x.tier;
        } else {
          assert items[m].tier == x.tier;
        }
      }
    }
  }

  /** Seat tickets are in strictly increasing seat order, so no seat is issued twice. */
  lemma {:induction false} SeatRows(o: nat, seats: seq<Seat>, p: set<nat>)
    ensures forall k | 0 <= k < |SeatTickets(o, seats, p)| ::
      var x := SeatTickets(o, seats, p)[k];
      x.seat.Some? && x.seat.value < |seats| && x.seat.value in p
      && x == SeatTicket(o, seats[x.seat.value].tier, x.seat.value)
    ensures forall i, j | 0 <= i < j < |SeatTickets(o, seats, p)| ::
      SeatTickets(o, seats, p)[i].seat != SeatTickets(o, seats, p)[j].seat
    ensures forall s | 0 <= s < |seats| && s in p ::
      exists k :: 0 <= k < |SeatTickets(o, seats, p)| && SeatTickets(o, seats, p)[k].seat == Some(s)
  {
    if seats != [] {
      var m := |seats| - 1;
      SeatRows(o, seats[..m], p);
      var init := SeatTickets(o, seats[..m], p);
      var all := SeatTickets(o, seats, p);
      assert all == init + (if m in p then [SeatTicket(o, seats[m].tier, m)] else []);
      assert forall k | 0 <= k < |init| :: all[k] == init[k];
      forall s | 0 <= s < |seats| && s in p
        ensures exists k :: 0 <= k < |all| && all[k].seat == Some(s)
      {
        if s < m {
          var k :| 0 <= k < |init| && init[k].seat == Some(s);
          assert all[k].seat == Some(s);
        } else {
          assert all[|init|].seat == Some(s);
        }
      }
    }
  }

  lemma MintedRows(o: nat, tiers: seq<Tier>, items: seq<Item>, seats: seq<Seat>, p: set<nat>)
    ensures forall k | 0 <= k < |Minted(o, tiers, items, seats, p)| ::
      FreshRow(Minted(o, tiers, items, seats, p)[k], o, tiers, items, seats, p)
    ensures forall i, j | 0 <= i < j < |Minted(o, tiers, items, seats, p)| ::
      var b := Minted(o, tiers, items, seats, p); b[i].seat.Some? ==> b[i].seat != b[j].seat
    ensures forall s | 0 <= s < |seats| && s in p :: SeatSold(Minted(o, tiers, items, seats, p), s)
  {
    GaRows(o, tiers, items);
    SeatRows(o, seats, p);
    var ga, st := GaTickets(o, tiers, items), SeatTickets(o, seats, p);
    forall s | 0 <= s < |seats| && s in p ensures SeatSold(ga + st, s) {
      var k :| 0 <= k < |st| && st[k].seat == Some(s);
      assert (ga + st)[|ga| + k].seat == Some(s);
    }
  }

  // ---- the totals each ledger needs of a batch ----

  /** A general-admission ticket weighs one in its own tier and nothing elsewhere. */
  lemma GaLineCounts(w: (nat, Ticket) -> int, o: nat, tiers: seq<Tier>, items: seq<Item>, t: nat)
    requires forall u: nat {:trigger GaTicket(o, u)} :: w(0, GaTicket(o, u)) == if u == t then 1 else 0
    ensures Total(GaLine(w, o, tiers), items) == if IsGa(tiers, t) then QtyOf(items, t) else 0
  {
    forall k: nat | k < |items|
      ensures GaLine(w, o, tiers)(k, items[k]) == if IsGa(tiers, t) then QtyIn(t)(k, items[k]) else 0
    {
      var q, u := items[k].quantity, items[k].tier;
      assert w(0, GaTicket(o, u)) == if u == t then 1 else 0;
      assert q * 1 == q && q * 0 == 0;
    }
    if IsGa(tiers, t) {
      TotalSame(GaLine(w, o, tiers), items, QtyIn(t), items);
    } else {
      TotalZero(GaLine(w, o, tiers), items);
    }
  }

  lemma SeatLineCounts(w: (nat, Ticket) -> int, o: nat, seats: seq<Seat>, p: set<nat>, t: nat)
    requires forall u: nat, s: nat {:trigger SeatTicket(o, u, s)} :: w(0, SeatTicket(o, u, s)) == if u == t then 1 else 0
    ensures Total(SeatLine(w, o, p), seats) == SeatCount(seats, p, t)
  {
    forall s: nat | s < |seats| ensures SeatLine(w, o, p)(s, seats[s]) == InTier(p, t)(s, seats[s]) {
      assert w(0, SeatTicket(o, seats[s].tier, s)) == if seats[s].tier == t then 1 else 0;
    }
    TotalSame(SeatLine(w, o, p), seats, InTier(p, t), seats);
  }

  lemma MintedLive(tickets: seq<Ticket>, o: nat, tiers: seq<Tier>, items: seq<Item>, seats: seq<Seat>, p: set<nat>, t: nat)
    ensures LiveCount(tickets + Minted(o, tiers, items, seats, p), t)
         == LiveCount(tickets, t) + (if IsGa(tiers, t) then QtyOf(items, t) else 0) + SeatCount(seats, p, t)
  {
    MintedTotal(LiveIn(t), tickets, o, tiers, items, seats, p);
    GaLineCounts(LiveIn(t), o, tiers, items, t);
    SeatLineCounts(LiveIn(t), o, seats, p, t);
  }

  lemma MintedOwn(tickets: seq<Ticket>, o: nat, tiers: seq<Tier>, items: seq<Item>, seats: seq<Seat>, p: set<nat>, t: nat)
    ensures MintedCount(tickets + Minted(o, tiers, items, seats, p), o, t)
         == MintedCount(tickets, o, t) + (if IsGa(tiers, t) then QtyOf(items, t) else 0) + SeatCount(seats, p, t)
  {
    MintedTotal(MintedIn(o, t), tickets, o, tiers, items, seats, p);
    GaLineCounts(MintedIn(o, t), o, tiers, items, t);
    SeatLineCounts(MintedIn(o, t), o, seats, p, t);
  }

  /** A batch priced by its order's items is worth its items' lines plus its seats. */
  lemma PricedTotal(w: (nat, Ticket) -> int, tickets: seq<Ticket>, o: nat, tiers: seq<Tier>, items: seq<Item>,
                    seats: seq<Seat>, p: set<nat>)
    requires Uniform(w) && DistinctTiers(items)
    requires forall u: nat {:trigger GaTicket(o, u)} :: w(0, GaTicket(o, u)) == PriceOf(items, u)
    requires forall u: nat, s: nat {:trigger SeatTicket(o, u, s)} :: w(0, SeatTicket(o, u, s)) == PriceOf(items, u)
    ensures Total(w, tickets + Minted(o, tiers, items, seats, p))
         == Total(w, tickets) + GaValue(tiers, items) + SeatsValue(seats, p, items)
  {
    MintedTotal(w, tickets, o, tiers, items, seats, p);
    forall s: nat | s < |seats| ensures SeatLine(w, o, p)(s, seats[s]) == PricedBy(p, items)(s, seats[s]) {
      assert w(0, SeatTicket(o, seats[s].tier, s)) == PriceOf(items, seats[s].tier);
    }
    TotalSame(SeatLine(w, o, p), seats, PricedBy(p, items), seats);
    forall k: nat | k < |items| ensures GaLine(w, o, tiers)(k, items[k]) == GaLinePrice(tiers)(k, items[k]) {
      PriceOfItem(items, k);
      assert w(0, GaTicket(o, items[k].tier)) == items[k].unitPrice;
    }
    TotalSame(GaLine(w, o, tiers), items, GaLinePrice(tiers), items);
  }

  lemma MintedWorth(tickets: seq<Ticket>, o: nat, tiers: seq<Tier>, items: seq<Item>, seats: seq<Seat>, p: set<nat>)
    requires DistinctTiers(items)
    ensures MintedValue(tickets + Minted(o, tiers, items, seats, p), o, items)
         == MintedValue(tickets, o, items) + GaValue(tiers, items) + SeatsValue(seats, p, items)
    ensures LiveValue(tickets + Minted(o, tiers, items, seats, p), o, items)
         == LiveValue(tickets, o, items) + GaValue(tiers, items) + SeatsValue(seats, p, items)
  {
    PricedTotal(MintedPrice(o, items), tickets, o, tiers, items, seats, p);
    PricedTotal(LivePrice(o, items), tickets, o, tiers, items, seats, p);
  }

  lemma MintedNothing(w: (nat, Ticket) -> int, tickets: seq<Ticket>, o: nat, tiers: seq<Tier>, items: seq<Item>,
                      seats: seq<Seat>, p: set<nat>)
    requires Uniform(w)
    requires forall x: Ticket {:trigger w(0, x)} :: x.order == o ==> w(0, x) == 0
    ensures Total(w, tickets + Minted(o, tiers, items, seats, p)) == Total(w, tickets)
  {
    MintedTotal(w, tickets, o, tiers, items, seats, p);
    forall k: nat | k < |items| ensures GaLine(w, o, tiers)(k, items[k]) == 0 {
      assert w(0, GaTicket(o, items[k].tier)) == 0;
      assert items[k].quantity * 0 == 0;
    }
    forall s: nat | s < |seats| ensures SeatLine(w, o, p)(s, seats[s]) == 0 {
      assert w(0, SeatTicket(o, seats[s].tier, s)) == 0;
    }
    TotalZero(GaLine(w, o, tiers), items);
    TotalZero(SeatLine(w, o, p), seats);
  }

  /** Issuing to one order leaves every other order's totals alone. */
  lemma MintedElsewhere(tickets: seq<Ticket>, o: nat, tiers: seq<Tier>, items: seq<Item>, seats: seq<Seat>, p: set<nat>,
                        o2: nat, items2: seq<Item>)
    requires o2 != o
    ensures var after := tickets + Minted(o, tiers, items, seats, p);
      && MintedValue(after, o2, items2) == MintedValue(tickets, o2, items2)
      && LiveValue(after, o2, items2) == LiveValue(tickets, o2, items2)
      && LiveOf(after, o2) == LiveOf(tickets, o2)
      && forall t: nat :: MintedCount(after, o2, t) == MintedCount(tickets, o2, t)
  {
    forall t: nat
      ensures MintedCount(tickets + Minted(o, tiers, items, seats, p), o2, t) == MintedCount(tickets, o2, t)
    {
      MintedNothing(MintedIn(o2, t), tickets, o, tiers, items, seats, p);
    }
    MintedNothing(MintedPrice(o2, items2), tickets, o, tiers, items, seats, p);
    MintedNothing(LivePrice(o2, items2), tickets, o, tiers, items, seats, p);
    MintedNothing(LiveFor(o2), tickets, o, tiers, items, seats, p);
  }

  // ---- grouping seats into order items ----

  /** The position of tier `t` in a group list, or its length. */
  function GroupIndex(groups: seq<Item>, t: nat): (i: nat)
    ensures i <= |groups|
    ensures i < |groups| ==> groups[i].tier == t
    ensures i == |groups| ==> forall k | 0 <= k < |groups| :: groups[k].tier != t
  {
    if groups == [] then 0
    else
      var i := GroupIndex(groups[..|groups| - 1], t);
      if i < |groups| - 1 then i
      else if groups[|groups| - 1].tier == t then |groups| - 1
      else |groups|
  }

  /** Count one more seat of tier `t`, opening its group at the given price. */
  function Bump(groups: seq<Item>, t: nat, price: nat): seq<Item> {
    var i := GroupIndex(groups, t);
    if i < |groups| then groups[i := groups[i].(quantity := groups[i].quantity + 1)]
    else groups + [Item(t, 1, price)]
  }

  function PriceAt(tiers: seq<Tier>, t: nat): nat {
    if t < |tiers| then tiers[t].price else 0
  }

  /** The seats of `p` grouped by tier, as order items. */
  function Grouped(tiers: seq<Tier>, seats: seq<Seat>, p: set<nat>): seq<Item> {
    if seats == [] then []
    else
      var s := |seats| - 1;
      var init := Grouped(tiers, seats[..s], p);
      if s in p then Bump(init, seats[s].tier, PriceAt(tiers, seats[s].tier)) else init
  }

  ghost function SeatPrice(tiers: seq<Tier>, p: set<nat>): (nat, Seat) -> int {
    (s: nat, x: Seat) => if s in p then PriceAt(tiers, x.tier) else 0
  }

  ghost predicate PricedAt(tiers: seq<Tier>, items: seq<Item>) {
    forall k | 0 <= k < |items| :: items[k].unitPrice == PriceAt(tiers, items[k].tier)
  }

  lemma BumpTotals(tiers: seq<Tier>, groups: seq<Item>, t: nat, u: nat)
    requires DistinctTiers(groups) && PricedAt(tiers, groups)
    ensures var after := Bump(groups, t, PriceAt(tiers, t));
      && DistinctTiers(after) && PricedAt(tiers, after)
      && QtyOf(after, u) == QtyOf(groups, u) + (if u == t then 1 else 0)
      && ItemsValue(after) == ItemsValue(groups) + PriceAt(tiers, t)
      && (HasTier(after, u) <==> HasTier(groups, u) || u == t)
  {
    var i := GroupIndex(groups, t);
    var after := Bump(groups, t, PriceAt(tiers, t));
    if i < |groups| {
      var x := groups[i].(quantity := groups[i].quantity + 1);
      TotalUpdate(QtyIn(u), groups, i, x);
      TotalUpdate(LinePrice(), groups, i, x);
      assert (groups[i].quantity + 1) * groups[i].unitPrice == groups[i].quantity * groups[i].unitPrice + PriceAt(tiers, t);
      if HasTier(groups, u) {
        var k :| 0 <= k < |groups| && groups[k].tier == u;
        assert after[k].tier == u;
      }
      assert after[i].tier == t;
    } else {
      TotalAppend(QtyIn(u), groups, Item(t, 1, PriceAt(tiers, t)));
      TotalAppend(LinePrice(), groups, Item(t, 1, PriceAt(tiers, t)));
      if HasTier(groups, u) {
        var k :| 0 <= k < |groups| && groups[k].tier == u;
        assert after[k].tier == u;
      }
      assert after[|groups|].tier == t;
    }
  }

  /** Grouping loses no seat and no price, and lists every tier once. */
  lemma {:induction false} GroupedTotals(tiers: seq<Tier>, seats: seq<Seat>, p: set<nat>, t: nat)
    ensures var groups := Grouped(tiers, seats, p);
      && DistinctTiers(groups) && PricedAt(tiers, groups)
      && QtyOf(groups, t) == SeatCount(seats, p, t)
      && ItemsValue(groups) == Total(SeatPrice(tiers, p), seats)
      && (HasTier(groups, t) <==> exists s :: 0 <= s < |seats| && s in p && seats[s].tier == t)
  {
    if seats != [] {
      var s := |seats| - 1;
      GroupedTotals(tiers, seats[..s], p, t);
      var init := Grouped(tiers, seats[..s], p);
      if s in p {
        BumpTotals(tiers, init, seats[s].tier, t);
        if HasTier(init, t) {
          var r :| 0 <= r < s && r in p && seats[..s][r].tier == t;
          assert seats[r].tier == t;
        }
      }
      if exists r :: 0 <= r < |seats| && r in p && seats[r].tier == t {
        var r :| 0 <= r < |seats| && r in p && seats[r].tier == t;
        if r < s {
          assert seats[..s][r].tier == t;
        }
      } else {
        assert !exists r :: 0 <= r < s && r in p && seats[..s][r].tier == t;
      }
    } else {
      assert Total(LinePrice(), Grouped(tiers, seats, p)) == 0;
    }
  }
}
