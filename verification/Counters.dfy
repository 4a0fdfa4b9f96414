/** One counter update at a time: the loops over items, tiers and tickets add up to the batch updates. */
module Counters {
  import opened Tables
  import opened Sums
  import opened Weights
  import opened Issuing
  import opened Transactions

  /** One tier's `remaining` moved by `delta`. */
  function Shift(stock: seq<Stock>, t: nat, delta: int): (after: seq<Stock>)
    requires t < |stock|
    ensures |after| == |stock|
    ensures forall u | 0 <= u < |stock| :: after[u] == if u == t then stock[t].(remaining := stock[t].remaining + delta) else stock[u]
  {
    stock[t := stock[t].(remaining := stock[t].remaining + delta)]
  }

  lemma Cardinality(a: set<nat>, b: set<nat>)
    requires a <= b
    ensures |a| <= |b| && (|a| == |b| <==> a == b)
  {
    if a != b {
      assert b == a + (b - a);
      assert |b - a| > 0;
    }
  }

  lemma QtyNext(items: seq<Item>, k: nat, t: nat)
    requires k < |items|
    ensures QtyOf(items[..k + 1], t) == QtyOf(items[..k], t) + (if items[k].tier == t then items[k].quantity else 0)
  {
    assert items[..k + 1][..k] == items[..k];
  }

  lemma TakeNext(stock: seq<Stock>, items: seq<Item>, k: nat)
    requires k < |items| && items[k].tier < |stock|
    ensures TakeItems(stock, items[..k + 1]) == Shift(TakeItems(stock, items[..k]), items[k].tier, 0 - items[k].quantity)
  {
    var taken := TakeItems(stock, items[..k + 1]);
    var shifted := Shift(TakeItems(stock, items[..k]), items[k].tier, 0 - items[k].quantity);
    forall t: nat | t < |stock| ensures taken[t] == shifted[t] {
      QtyNext(items, k, t);
    }
  }

  /** No line for a tier has been claimed before its own. */
  lemma NotYetTaken(stock: seq<Stock>, items: seq<Item>, k: nat)
    requires k < |items| && items[k].tier < |stock| && DistinctTiers(items)
    ensures TakeItems(stock, items[..k])[items[k].tier] == stock[items[k].tier]
  {
    QtyAbsent(items[..k], items[k].tier);
  }

  /** The counters after giving one more item back. */
  ghost function GivenNext(stock: seq<Stock>, tiers: seq<Tier>, items: seq<Item>, k: nat): seq<Stock>
    requires k < |items| && items[k].tier < |stock|
  {
    var given := GiveGaItems(stock, tiers, items[..k]);
    if IsGa(tiers, items[k].tier) then Shift(given, items[k].tier, items[k].quantity) else given
  }

  lemma GiveNext(stock: seq<Stock>, tiers: seq<Tier>, items: seq<Item>, k: nat)
    requires k < |items| && items[k].tier < |stock|
    ensures GiveGaItems(stock, tiers, items[..k + 1]) == GivenNext(stock, tiers, items, k)
  {
    var given, next := GiveGaItems(stock, tiers, items[..k + 1]), GivenNext(stock, tiers, items, k);
    forall t: nat | t < |stock| ensures given[t] == next[t] {
      QtyNext(items, k, t);
    }
  }

  function Tally(counts: map<nat, nat>, t: nat): map<nat, nat> {
    counts[t := (if t in counts then counts[t] else 0) + 1]
  }

  lemma SeatNext(seats: seq<Seat>, p: set<nat>, k: nat, t: nat)
    requires k < |seats|
    ensures SeatCount(seats[..k + 1], p, t) == SeatCount(seats[..k], p, t) + (if k in p && seats[k].tier == t then 1 else 0)
  {
    assert seats[..k + 1][..k] == seats[..k];
  }

  lemma PickNext(tickets: seq<Ticket>, ids: set<nat>, k: nat, t: nat)
    requires k < |tickets|
    ensures PickCount(tickets[..k + 1], ids, t) == PickCount(tickets[..k], ids, t) + (if k in ids && tickets[k].tier == t then 1 else 0)
  {
    assert tickets[..k + 1][..k] == tickets[..k];
  }

  /** Decrement every tallied tier, in whatever order the tally is walked. */
  method ApplyTally(stock: seq<Stock>, counts: map<nat, nat>, sign: int) returns (after: seq<Stock>)
    requires forall t | t in counts :: t < |stock|
    ensures |after| == |stock|
    ensures forall t: nat | t < |stock| ::
      after[t] == if t in counts then stock[t].(remaining := stock[t].remaining + sign * counts[t]) else stock[t]
  {
    after := stock;
    var left := counts.Keys;
    while left != {}
      invariant left <= counts.Keys && |after| == |stock|
      invariant forall t: nat | t < |stock| ::
        after[t] == if t in counts && t !in left then stock[t].(remaining := stock[t].remaining + sign * counts[t]) else stock[t]
    {
      var t :| t in left;
      left := left - {t};
      after := Shift(after, t, sign * counts[t]);
    }
  }

  method TallySeats(seats: seq<Seat>, p: set<nat>) returns (counts: map<nat, nat>)
    ensures forall t: nat :: SeatCount(seats, p, t) == if t in counts then counts[t] else 0
    ensures forall t | t in counts :: exists s :: 0 <= s < |seats| && seats[s].tier == t
  {
    counts := map[];
    for k := 0 to |seats|
      invariant forall t: nat :: SeatCount(seats[..k], p, t) == if t in counts then counts[t] else 0
      invariant forall t | t in counts :: exists s :: 0 <= s < |seats| && seats[s].tier == t
    {
      forall t: nat
        ensures SeatCount(seats[..k + 1], p, t) == SeatCount(seats[..k], p, t) + (if k in p && seats[k].tier == t then 1 else 0)
      {
        SeatNext(seats, p, k, t);
      }
      if k in p {
        counts := Tally(counts, seats[k].tier);
      }
    }
    assert seats[..|seats|] == seats;
  }

  method TallyTickets(tickets: seq<Ticket>, ids: set<nat>) returns (counts: map<nat, nat>)
    ensures forall t: nat :: PickCount(tickets, ids, t) == if t in counts then counts[t] else 0
    ensures forall t | t in counts :: exists k :: 0 <= k < |tickets| && tickets[k].tier == t
  {
    counts := map[];
    for k := 0 to |tickets|
      invariant forall t: nat :: PickCount(tickets[..k], ids, t) == if t in counts then counts[t] else 0
      invariant forall t | t in counts :: exists j :: 0 <= j < |tickets| && tickets[j].tier == t
    {
      forall t: nat
        ensures PickCount(tickets[..k + 1], ids, t)
             == PickCount(tickets[..k], ids, t) + (if k in ids && tickets[k].tier == t then 1 else 0)
      {
        PickNext(tickets, ids, k, t);
      }
      if k in ids {
        counts := Tally(counts, tickets[k].tier);
      }
    }
    assert tickets[..|tickets|] == tickets;
  }

  method IssueGa(o: nat, tiers: seq<Tier>, items: seq<Item>) returns (batch: seq<Ticket>)
    ensures batch == GaTickets(o, tiers, items)
  {
    batch := [];
    for k := 0 to |items|
      invariant batch == GaTickets(o, tiers, items[..k])
    {
      assert items[..k + 1][..k] == items[..k];
      if IsGa(tiers, items[k].tier) {
        var n := 0;
        ghost var before := batch;
        while n < items[k].quantity
          invariant 0 <= n <= items[k].quantity
          invariant batch == before + Copies(GaTicket(o, items[k].tier), n)
        {
          batch := batch + [GaTicket(o, items[k].tier)];
          n := n + 1;
        }
      }
    }
    assert items[..|items|] == items;
  }

  method IssueSeats(o: nat, seats: seq<Seat>, p: set<nat>) returns (batch: seq<Ticket>)
    ensures batch == SeatTickets(o, seats, p)
  {
    batch := [];
    for s := 0 to |seats|
      invariant batch == SeatTickets(o, seats[..s], p)
    {
      assert seats[..s + 1][..s] == seats[..s];
      if s in p {
        batch := batch + [SeatTicket(o, seats[s].tier, s)];
      }
    }
    assert seats[..|seats|] == seats;
  }
}
