/** The weights whose totals are the ledgers: quantities, prices, ticket counts, refund amounts. */
module Weights {
  import opened Tables
  import opened Sums

  // ---- order items ----

  ghost function QtyIn(t: nat): (nat, Item) -> int {
    (k: nat, it: Item) => if it.tier == t then it.quantity else 0
  }

  /** How many places of tier `t` an item list buys. */
  ghost function QtyOf(items: seq<Item>, t: nat): int {
    Total(QtyIn(t), items)
  }

  ghost function LinePrice(): (nat, Item) -> int {
    (k: nat, it: Item) => it.quantity * it.unitPrice
  }

  ghost function ItemsValue(items: seq<Item>): int {
    Total(LinePrice(), items)
  }

  ghost function GaLinePrice(tiers: seq<Tier>): (nat, Item) -> int {
    (k: nat, it: Item) => if IsGa(tiers, it.tier) then it.quantity * it.unitPrice else 0
  }

  /** The part of an order's price that is general admission. */
  ghost function GaValue(tiers: seq<Tier>, items: seq<Item>): int {
    Total(GaLinePrice(tiers), items)
  }

  /** The unit price a tier-to-price map built from the items yields, 0 for an absent tier. */
  function PriceOf(items: seq<Item>, t: nat): nat {
    if items == [] then 0
    else if items[|items| - 1].tier == t then items[|items| - 1].unitPrice
    else PriceOf(items[..|items| - 1], t)
  }

  ghost predicate HasTier(items: seq<Item>, t: nat) {
    exists k :: 0 <= k < |items| && items[k].tier == t
  }

  ghost predicate DistinctTiers(items: seq<Item>) {
    forall i, j | 0 <= i < j < |items| :: items[i].tier != items[j].tier
  }

  lemma {:induction false} PriceOfItem(items: seq<Item>, k: nat)
    requires k < |items| && DistinctTiers(items)
    ensures PriceOf(items, items[k].tier) == items[k].unitPrice
  {
    var m := |items| - 1;
    if k < m {
      assert items[k].tier != items[m].tier;
      PriceOfItem(items[..m], k);
    }
  }

  lemma QtyNonNegative(items: seq<Item>, t: nat)
    ensures QtyOf(items, t) >= 0
  {
    TotalNonNegative(QtyIn(t), items);
  }

  lemma QtyAbsent(items: seq<Item>, t: nat)
    requires !HasTier(items, t)
    ensures QtyOf(items, t) == 0
  {
    TotalZero(QtyIn(t), items);
  }

  lemma QtyConcat(a: seq<Item>, b: seq<Item>, t: nat)
    ensures QtyOf(a + b, t) == QtyOf(a, t) + QtyOf(b, t)
  {
    TotalConcat(QtyIn(t), a, b);
  }

  lemma ValueConcat(a: seq<Item>, b: seq<Item>)
    ensures ItemsValue(a + b) == ItemsValue(a) + ItemsValue(b)
  {
    TotalConcat(LinePrice(), a, b);
  }

  // ---- seats ----

  ghost function InTier(p: set<nat>, t: nat): (nat, Seat) -> int {
    (s: nat, x: Seat) => if s in p && x.tier == t then 1 else 0
  }

  /** How many of the seats in `p` belong to tier `t`. */
  ghost function SeatCount(seats: seq<Seat>, p: set<nat>, t: nat): int {
    Total(InTier(p, t), seats)
  }

  ghost function PricedBy(p: set<nat>, items: seq<Item>): (nat, Seat) -> int {
    (s: nat, x: Seat) => if s in p then PriceOf(items, x.tier) else 0
  }

  /** What the seats in `p` cost at the prices of `items`. */
  ghost function SeatsValue(seats: seq<Seat>, p: set<nat>, items: seq<Item>): int {
    Total(PricedBy(p, items), seats)
  }

  ghost function OfTier(t: nat): (nat, Seat) -> int {
    (s: nat, x: Seat) => if x.tier == t then 1 else 0
  }

  lemma SeatCountMonotone(seats: seq<Seat>, p: set<nat>, q: set<nat>, t: nat)
    requires p <= q
    ensures 0 <= SeatCount(seats, p, t) <= SeatCount(seats, q, t)
  {
    TotalNonNegative(InTier(p, t), seats);
    TotalMonotone(InTier(p, t), seats, InTier(q, t), seats);
  }

  lemma SeatsValueMonotone(seats: seq<Seat>, p: set<nat>, q: set<nat>, items: seq<Item>)
    requires p <= q
    ensures 0 <= SeatsValue(seats, p, items) <= SeatsValue(seats, q, items)
  {
    forall s: nat | s < |seats|
      ensures 0 <= PricedBy(p, items)(s, seats[s]) <= PricedBy(q, items)(s, seats[s])
    {
      assert PriceOf(items, seats[s].tier) >= 0;
    }
    TotalNonNegative(PricedBy(p, items), seats);
    TotalMonotone(PricedBy(p, items), seats, PricedBy(q, items), seats);
  }

  // ---- tickets ----

  ghost function LiveIn(t: nat): (nat, Ticket) -> int {
    (k: nat, x: Ticket) => if x.tier == t && x.status != Void then 1 else 0
  }

  /** Issued in the domain's sense: tickets of tier `t` that exist and are not void. */
  ghost function LiveCount(tickets: seq<Ticket>, t: nat): int {
    Total(LiveIn(t), tickets)
  }

  ghost function LiveFor(o: nat): (nat, Ticket) -> int {
    (k: nat, x: Ticket) => if x.order == o && x.status != Void then 1 else 0
  }

  /** Non-void tickets of order `o`. */
  ghost function LiveOf(tickets: seq<Ticket>, o: nat): int {
    Total(LiveFor(o), tickets)
  }

  ghost function MintedIn(o: nat, t: nat): (nat, Ticket) -> int {
    (k: nat, x: Ticket) => if x.order == o && x.tier == t then 1 else 0
  }

  /** Tickets of tier `t` ever issued to order `o`, void or not. */
  ghost function MintedCount(tickets: seq<Ticket>, o: nat, t: nat): int {
    Total(MintedIn(o, t), tickets)
  }

  ghost function LivePrice(o: nat, items: seq<Item>): (nat, Ticket) -> int {
    (k: nat, x: Ticket) => if x.order == o && x.status != Void then PriceOf(items, x.tier) else 0
  }

  /** What order `o`'s live tickets cost. */
  ghost function LiveValue(tickets: seq<Ticket>, o: nat, items: seq<Item>): int {
    Total(LivePrice(o, items), tickets)
  }

  ghost function MintedPrice(o: nat, items: seq<Item>): (nat, Ticket) -> int {
    (k: nat, x: Ticket) => if x.order == o then PriceOf(items, x.tier) else 0
  }

  /** What every ticket ever issued to order `o` cost. */
  ghost function MintedValue(tickets: seq<Ticket>, o: nat, items: seq<Item>): int {
    Total(MintedPrice(o, items), tickets)
  }

  ghost function PickIn(ids: set<nat>, t: nat): (nat, Ticket) -> int {
    (k: nat, x: Ticket) => if k in ids && x.tier == t then 1 else 0
  }

  ghost function PickCount(tickets: seq<Ticket>, ids: set<nat>, t: nat): int {
    Total(PickIn(ids, t), tickets)
  }

  ghost function PickPrice(ids: set<nat>, items: seq<Item>): (nat, Ticket) -> int {
    (k: nat, x: Ticket) => if k in ids then PriceOf(items, x.tier) else 0
  }

  /** What the picked tickets cost: the amount of a refund. */
  ghost function PickValue(tickets: seq<Ticket>, ids: set<nat>, items: seq<Item>): int {
    Total(PickPrice(ids, items), tickets)
  }

  /** The weight of a ticket does not depend on its row id. */
  ghost predicate Uniform(w: (nat, Ticket) -> int) {
    forall i: nat, j: nat, x: Ticket {:trigger w(i, x), w(j, x)} :: w(i, x) == w(j, x)
  }

  // ---- orders and refunds ----

  ghost function AwaitingIn(t: nat): (nat, Order) -> int {
    (k: nat, x: Order) => if x.status == AwaitingPayment then QtyOf(x.items, t) else 0
  }

  /** In checkout: places of tier `t` bought by orders still awaiting payment. */
  ghost function AwaitingQty(orders: seq<Order>, t: nat): int {
    Total(AwaitingIn(t), orders)
  }

  ghost function RefundFor(o: nat): (nat, Refund) -> int {
    (k: nat, x: Refund) => if x.order == o then x.amount else 0
  }

  /** Everything order `o` is owed or was paid back, whatever the refund's status. */
  ghost function RefundTotal(refunds: seq<Refund>, o: nat): int {
    Total(RefundFor(o), refunds)
  }

  ghost function SettledFor(o: nat): (nat, Refund) -> int {
    (k: nat, x: Refund) => if x.order == o && x.status == Settled then x.amount else 0
  }

  ghost function SettledTotal(refunds: seq<Refund>, o: nat): int {
    Total(SettledFor(o), refunds)
  }

  ghost function SentFor(o: nat, sent: set<nat>): (nat, Refund) -> int {
    (k: nat, x: Refund) => if x.order == o && k in sent then x.amount else 0
  }

  /** The refunds of order `o` whose reference the vendor has honoured. */
  ghost function SentTotal(refunds: seq<Refund>, o: nat, sent: set<nat>): int {
    Total(SentFor(o, sent), refunds)
  }

  ghost function SystemFor(o: nat): (nat, Refund) -> int {
    (k: nat, x: Refund) => if x.order == o && !x.byUser then 1 else 0
  }

  /** Compensating refunds of order `o`. */
  ghost function SystemCount(refunds: seq<Refund>, o: nat): int {
    Total(SystemFor(o), refunds)
  }
}
