/** The organizer's dashboard: the sales timeline and the occupancy of each section. */
module Timeline {
  import opened Tables
  import opened Sums

  const DAY_MS: int := 86_400_000
  const MAX_TIMELINE_DAYS: int := 45

  datatype OrderStamp = OrderStamp(createdAt: int, total: int)

  datatype TicketStamp = TicketStamp(createdAt: int)

  /** `day` is the first millisecond of a UTC day. */
  datatype Bucket = Bucket(day: int, orders: nat, ticketsSold: nat, gross: int)

  /** The UTC day a moment falls on, before the epoch too. */
  function DayOf(t: int): int {
    t / DAY_MS
  }

  // ---- weights ----

  ghost function OrdersOn(d: int): (nat, OrderStamp) -> int {
    (k: nat, x: OrderStamp) => if DayOf(x.createdAt) == d then 1 else 0
  }

  ghost function GrossOn(d: int): (nat, OrderStamp) -> int {
    (k: nat, x: OrderStamp) => if DayOf(x.createdAt) == d then x.total else 0
  }

  ghost function TicketsOn(d: int): (nat, TicketStamp) -> int {
    (k: nat, x: TicketStamp) => if DayOf(x.createdAt) == d then 1 else 0
  }

  ghost function Gross(): (nat, OrderStamp) -> int {
    (k: nat, x: OrderStamp) => x.total
  }

  ghost function BucketOrders(): (nat, Bucket) -> int {
    (k: nat, b: Bucket) => b.orders
  }

  ghost function BucketTickets(): (nat, Bucket) -> int {
    (k: nat, b: Bucket) => b.ticketsSold
  }

  ghost function BucketGross(): (nat, Bucket) -> int {
    (k: nat, b: Bucket) => b.gross
  }

  /** Bucket `i` covers day `first + i` and holds exactly that day's rows. */
  ghost predicate Covers(buckets: seq<Bucket>, first: int, orders: seq<OrderStamp>, tickets: seq<TicketStamp>) {
    forall i: nat | i < |buckets| ::
      && buckets[i].day == (first + i) * DAY_MS
      && buckets[i].orders == Total(OrdersOn(first + i), orders)
      && buckets[i].gross == Total(GrossOn(first + i), orders)
      && buckets[i].ticketsSold == Total(TicketsOn(first + i), tickets)
  }

  /** The first day of the timeline: that of the earliest row, or of the event if there is none, but no
      more than 45 days before today. */
  ghost function FirstDay(created: int, now: int, orders: seq<OrderStamp>, tickets: seq<TicketStamp>): int {
    var earliest := match Earliest(tickets, EarliestOrder(orders, None)) case Some(t) => t case None => created;
    if DayOf(now) - DayOf(earliest) > MAX_TIMELINE_DAYS then DayOf(now) - MAX_TIMELINE_DAYS else DayOf(earliest)
  }

  function Earlier(current: Option<int>, t: int): Option<int> {
    if current.None? || t < current.value then Some(t) else current
  }

  function EarliestOrder(rows: seq<OrderStamp>, current: Option<int>): Option<int> {
    if rows == [] then current else Earlier(EarliestOrder(rows[..|rows| - 1], current), rows[|rows| - 1].createdAt)
  }

  function Earliest(rows: seq<TicketStamp>, current: Option<int>): Option<int> {
    if rows == [] then current else Earlier(Earliest(rows[..|rows| - 1], current), rows[|rows| - 1].createdAt)
  }

  lemma {:induction false} EarliestOrderBounds(rows: seq<OrderStamp>, current: Option<int>)
    ensures var e := EarliestOrder(rows, current);
      && (current.Some? ==> e.Some? && e.value <= current.value)
      && (forall k | 0 <= k < |rows| :: e.Some? && e.value <= rows[k].createdAt)
      && (e == current || exists k :: 0 <= k < |rows| && e == Some(rows[k].createdAt))
  {
    if rows != [] {
      var m := |rows| - 1;
      EarliestOrderBounds(rows[..m], current);
      assert forall k | 0 <= k < m :: rows[..m][k] == rows[k];
    }
  }

  lemma {:induction false} EarliestBounds(rows: seq<TicketStamp>, current: Option<int>)
    ensures var e := Earliest(rows, current);
      && (current.Some? ==> e.Some? && e.value <= current.value)
      && (forall k | 0 <= k < |rows| :: e.Some? && e.value <= rows[k].createdAt)
      && (e == current || exists k :: 0 <= k < |rows| && e == Some(rows[k].createdAt))
  {
    if rows != [] {
      var m := |rows| - 1;
      EarliestBounds(rows[..m], current);
      assert forall k | 0 <= k < m :: rows[..m][k] == rows[k];
    }
  }

  /** A day is a UTC day: the moment falls within its 86 400 000 milliseconds. */
  lemma DayHolds(t: int)
    ensures DayOf(t) * 86_400_000 <= t < (DayOf(t) + 1) * 86_400_000
  {
  }

  /** The earliest of all rows, or the event's creation if there is none. */
  ghost predicate IsEarliest(e: int, created: int, orders: seq<OrderStamp>, tickets: seq<TicketStamp>) {
    && (forall k | 0 <= k < |orders| :: e <= orders[k].createdAt)
    && (forall k | 0 <= k < |tickets| :: e <= tickets[k].createdAt)
    && (if orders == [] && tickets == [] then e == created
        else (exists k :: 0 <= k < |orders| && e == orders[k].createdAt) || exists k :: 0 <= k < |tickets| && e == tickets[k].createdAt)
  }

  /** The timeline starts on the day of the earliest row, but no more than 45 days before today. */
  lemma StartsAtEarliest(created: int, now: int, orders: seq<OrderStamp>, tickets: seq<TicketStamp>) returns (e: int)
    ensures IsEarliest(e, created, orders, tickets)
    ensures FirstDay(created, now, orders, tickets) == if DayOf(e) < DayOf(now) - 45 then DayOf(now) - 45 else DayOf(e)
  {
    var found := Earliest(tickets, EarliestOrder(orders, None));
    EarliestOrderBounds(orders, None);
    EarliestBounds(tickets, EarliestOrder(orders, None));
    e := match found case Some(t) => t case None => created;
  }

  ghost function OrdersOfDay(orders: seq<OrderStamp>, d: int): set<nat> {
    set k | 0 <= k < |orders| && DayOf(orders[k].createdAt) == d
  }

  ghost function TicketsOfDay(tickets: seq<TicketStamp>, d: int): set<nat> {
    set k | 0 <= k < |tickets| && DayOf(tickets[k].createdAt) == d
  }

  /** A bucket counts the orders and tickets of its day. */
  lemma BucketCounts(buckets: seq<Bucket>, first: int, orders: seq<OrderStamp>, tickets: seq<TicketStamp>, i: nat)
    requires Covers(buckets, first, orders, tickets) && i < |buckets|
    ensures buckets[i].day == (first + i) * 86_400_000
    ensures buckets[i].orders == |OrdersOfDay(orders, first + i)| && buckets[i].ticketsSold == |TicketsOfDay(tickets, first + i)|
  {
    var a := TotalCounts(OrdersOn(first + i), orders);
    var b := TotalCounts(TicketsOn(first + i), tickets);
    assert a == OrdersOfDay(orders, first + i) && b == TicketsOfDay(tickets, first + i);
  }

  // ---- the computation ----

  method EarliestCreatedAt(orders: seq<OrderStamp>, tickets: seq<TicketStamp>) returns (stamp: Option<int>)
    ensures stamp == Earliest(tickets, EarliestOrder(orders, None))
  {
    stamp := None;
    for k := 0 to |orders|
      invariant stamp == EarliestOrder(orders[..k], None)
    {
      assert orders[..k + 1][..k] == orders[..k];
      stamp := Earlier(stamp, orders[k].createdAt);
    }
    assert orders[..|orders|] == orders;
    for k := 0 to |tickets|
      invariant stamp == Earliest(tickets[..k], EarliestOrder(orders, None))
    {
      assert tickets[..k + 1][..k] == tickets[..k];
      stamp := Earlier(stamp, tickets[k].createdAt);
    }
    assert tickets[..|tickets|] == tickets;
  }

  /** The tally of a day over the rows seen so far. */
  ghost predicate Tallied(b: Bucket, d: int, orders: seq<OrderStamp>, tickets: seq<TicketStamp>) {
    && b.day == d * DAY_MS && b.orders == Total(OrdersOn(d), orders) && b.gross == Total(GrossOn(d), orders)
    && b.ticketsSold == Total(TicketsOn(d), tickets)
  }

  method EmptyBuckets(first: int, last: int) returns (buckets: map<int, Bucket>)
    ensures forall d :: d in buckets <==> first <= d <= last
    ensures forall d | d in buckets :: Tallied(buckets[d], d, [], [])
  {
    buckets := map[];
    var cursor := first;
    while cursor <= last
      invariant cursor >= first && (cursor <= last + 1 || cursor == first)
      invariant forall d :: d in buckets <==> first <= d < cursor
      invariant forall d | d in buckets :: Tallied(buckets[d], d, [], [])
      decreases last - cursor
    {
      buckets := buckets[cursor := Bucket(cursor * DAY_MS, 0, 0, 0)];
      cursor := cursor + 1;
    }
  }

  method AddOrders(empty: map<int, Bucket>, orders: seq<OrderStamp>) returns (buckets: map<int, Bucket>)
    requires forall d | d in empty :: Tallied(empty[d], d, [], [])
    ensures buckets.Keys == empty.Keys
    ensures forall d | d in buckets :: Tallied(buckets[d], d, orders, [])
  {
    buckets := empty;
    for k := 0 to |orders|
      invariant buckets.Keys == empty.Keys
      invariant forall d | d in buckets :: Tallied(buckets[d], d, orders[..k], [])
    {
      assert orders[..k + 1][..k] == orders[..k];
      var d := DayOf(orders[k].createdAt);
      if d in buckets {
        buckets := buckets[d := buckets[d].(orders := buckets[d].orders + 1, gross := buckets[d].gross + orders[k].total)];
      }
    }
    assert orders[..|orders|] == orders;
  }

  method AddTickets(before: map<int, Bucket>, orders: seq<OrderStamp>, tickets: seq<TicketStamp>) returns (buckets: map<int, Bucket>)
    requires forall d | d in before :: Tallied(before[d], d, orders, [])
    ensures buckets.Keys == before.Keys
    ensures forall d | d in buckets :: Tallied(buckets[d], d, orders, tickets)
  {
    buckets := before;
    for k := 0 to |tickets|
      invariant buckets.Keys == before.Keys
      invariant forall d | d in buckets :: Tallied(buckets[d], d, orders, tickets[..k])
    {
      assert tickets[..k + 1][..k] == tickets[..k];
      var d := DayOf(tickets[k].createdAt);
      if d in buckets {
        buckets := buckets[d := buckets[d].(ticketsSold := buckets[d].ticketsSold + 1)];
      }
    }
    assert tickets[..|tickets|] == tickets;
  }

  /** Consecutive UTC days from the first to today, at most 46, each with exactly its own rows. */
  method BuildTimeline(created: int, now: int, orders: seq<OrderStamp>, tickets: seq<TicketStamp>) returns (buckets: seq<Bucket>)
    ensures Covers(buckets, FirstDay(created, now, orders, tickets), orders, tickets)
    ensures |buckets| == (if FirstDay(created, now, orders, tickets) <= DayOf(now)
                          then DayOf(now) - FirstDay(created, now, orders, tickets) + 1 else 0)
    ensures |buckets| <= 46
  {
    hide Covers, Earliest, EarliestOrder, Total;
    var stamp := EarliestCreatedAt(orders, tickets);
    var earliest := match stamp case Some(t) => t case None => created;
    var last := DayOf(now);
    var first := DayOf(earliest);
    if last - first > MAX_TIMELINE_DAYS {
      first := last - MAX_TIMELINE_DAYS;
    }
    var byDay := EmptyBuckets(first, last);
    byDay := AddOrders(byDay, orders);
    byDay := AddTickets(byDay, orders, tickets);
    hide Tallied;
    buckets := seq(if first <= last then last - first + 1 else 0, (i: nat) requires first + i in byDay => byDay[first + i]);
    forall i: nat | i < |buckets| ensures Tallied(buckets[i], first + i, orders, tickets) {
      assert first + i in byDay;
    }
    TalliedCovers(buckets, first, orders, tickets);
  }

  lemma TalliedCovers(buckets: seq<Bucket>, first: int, orders: seq<OrderStamp>, tickets: seq<TicketStamp>)
    requires forall i: nat | i < |buckets| :: Tallied(buckets[i], first + i, orders, tickets)
    ensures Covers(buckets, first, orders, tickets)
  {
  }

  // ---- conservation ----

  ghost function Ranged<T>(w: (nat, T) -> int, dayOf: T -> int, first: int, n: nat): (nat, T) -> int {
    (k: nat, x: T) => if first <= dayOf(x) < first + n then w(k, x) else 0
  }

  ghost function Daily<T>(w: (nat, T) -> int, dayOf: T -> int, d: int): (nat, T) -> int {
    (k: nat, x: T) => if dayOf(x) == d then w(k, x) else 0
  }

  /** A tally over consecutive days adds up to the rows of the whole range. */
  lemma {:induction false} DaysAddUp<T>(w: (nat, T) -> int, dayOf: T -> int, rows: seq<T>, buckets: seq<Bucket>,
                                       u: (nat, Bucket) -> int, first: int)
    requires forall i: nat | i < |buckets| :: u(i, buckets[i]) == Total(Daily(w, dayOf, first + i), rows)
    ensures Total(u, buckets) == Total(Ranged(w, dayOf, first, |buckets|), rows)
  {
    if buckets == [] {
      TotalZero(Ranged(w, dayOf, first, 0), rows);
    } else {
      var m := |buckets| - 1;
      DaysAddUp(w, dayOf, rows, buckets[..m], u, first);
      assert u(m, buckets[m]) == Total(Daily(w, dayOf, first + m), rows);
      TotalSum(Ranged(w, dayOf, first, m + 1), rows, Ranged(w, dayOf, first, m), rows, Daily(w, dayOf, first + m), rows);
    }
  }

  ghost function One<T>(): (nat, T) -> int {
    (k: nat, x: T) => 1
  }

  /** A row falls inside the timeline. */
  predicate Shown(t: int, first: int, n: nat) {
    first <= DayOf(t) < first + n
  }

  lemma {:induction false} RangedAll<T>(dayOf: T -> int, rows: seq<T>, first: int, n: nat)
    ensures Total(Ranged(One<T>(), dayOf, first, n), rows) <= |rows|
    ensures Total(Ranged(One<T>(), dayOf, first, n), rows) == |rows|
      <==> forall k | 0 <= k < |rows| :: first <= dayOf(rows[k]) < first + n
  {
    if rows != [] {
      var m := |rows| - 1;
      RangedAll(dayOf, rows[..m], first, n);
      assert forall k | 0 <= k < m :: rows[..m][k] == rows[k];
    }
  }

  /** No row is counted twice, and none is dropped if and only if every row falls between the first day shown
      and today. */
  lemma NothingDroppedIffShown(buckets: seq<Bucket>, first: int, orders: seq<OrderStamp>, tickets: seq<TicketStamp>)
    requires Covers(buckets, first, orders, tickets)
    ensures Total(BucketOrders(), buckets) <= |orders| && Total(BucketTickets(), buckets) <= |tickets|
    ensures Total(BucketOrders(), buckets) == |orders|
      <==> forall k | 0 <= k < |orders| :: Shown(orders[k].createdAt, first, |buckets|)
    ensures Total(BucketTickets(), buckets) == |tickets|
      <==> forall k | 0 <= k < |tickets| :: Shown(tickets[k].createdAt, first, |buckets|)
    ensures (forall k | 0 <= k < |orders| :: Shown(orders[k].createdAt, first, |buckets|)) ==>
      Total(BucketGross(), buckets) == Total(Gross(), orders)
  {
    var orderDay, ticketDay := (x: OrderStamp) => DayOf(x.createdAt), (x: TicketStamp) => DayOf(x.createdAt);
    var n := |buckets|;
    forall i: nat | i < n
      ensures BucketOrders()(i, buckets[i]) == Total(Daily(One(), orderDay, first + i), orders)
      ensures BucketGross()(i, buckets[i]) == Total(Daily(Gross(), orderDay, first + i), orders)
      ensures BucketTickets()(i, buckets[i]) == Total(Daily(One(), ticketDay, first + i), tickets)
    {
      TotalSame(OrdersOn(first + i), orders, Daily(One(), orderDay, first + i), orders);
      TotalSame(GrossOn(first + i), orders, Daily(Gross(), orderDay, first + i), orders);
      TotalSame(TicketsOn(first + i), tickets, Daily(One(), ticketDay, first + i), tickets);
    }
    DaysAddUp(One(), orderDay, orders, buckets, BucketOrders(), first);
    DaysAddUp(Gross(), orderDay, orders, buckets, BucketGross(), first);
    DaysAddUp(One(), ticketDay, tickets, buckets, BucketTickets(), first);
    RangedAll(orderDay, orders, first, n);
    RangedAll(ticketDay, tickets, first, n);
    if forall k | 0 <= k < |orders| :: Shown(orders[k].createdAt, first, n) {
      TotalSame(Ranged(Gross(), orderDay, first, n), orders, Gross(), orders);
    }
  }

  /** Rows fetched from the start of the 45-day window to the end of today are all shown: the timeline's
      sums are the totals over every fetched row. */
  lemma {:induction false} TimelineConserves(created: int, now: int, orders: seq<OrderStamp>, tickets: seq<TicketStamp>, buckets: seq<Bucket>)
    requires forall k | 0 <= k < |orders| :: DayOf(now) - MAX_TIMELINE_DAYS <= DayOf(orders[k].createdAt) <= DayOf(now)
    requires forall k | 0 <= k < |tickets| :: DayOf(now) - MAX_TIMELINE_DAYS <= DayOf(tickets[k].createdAt) <= DayOf(now)
    requires var first := FirstDay(created, now, orders, tickets);
      Covers(buckets, first, orders, tickets) && |buckets| == if first <= DayOf(now) then DayOf(now) - first + 1 else 0
    ensures Total(BucketOrders(), buckets) == |orders|
    ensures Total(BucketTickets(), buckets) == |tickets|
    ensures Total(BucketGross(), buckets) == Total(Gross(), orders)
  {
    var first := FirstDay(created, now, orders, tickets);
    EarliestOrderBounds(orders, None);
    EarliestBounds(tickets, EarliestOrder(orders, None));
    NothingDroppedIffShown(buckets, first, orders, tickets);
  }

  // ---- section occupancy ----

  datatype Occupancy = Occupancy(capacity: nat, sold: nat, held: nat)

  ghost function OfSection(name: string): (nat, string) -> int {
    (s: nat, section: string) => if section == name then 1 else 0
  }

  ghost function InSection(name: string, ids: set<nat>): (nat, string) -> int {
    (s: nat, section: string) => if section == name && s in ids then 1 else 0
  }

  /** The counts of one section over the seats seen so far: sold wins over held. */
  ghost predicate Counted(o: Occupancy, name: string, sectionOf: seq<string>, sold: set<nat>, held: set<nat>) {
    && o.capacity == Total(OfSection(name), sectionOf)
    && o.sold == Total(InSection(name, sold), sectionOf)
    && o.held == Total(InSection(name, held), sectionOf)
    && o.sold + o.held <= o.capacity
  }

  function Seen(o: Occupancy, isSold: bool, isHeld: bool): Occupancy {
    var more := o.(capacity := o.capacity + 1);
    if isSold then more.(sold := o.sold + 1) else if isHeld then more.(held := o.held + 1) else more
  }

  lemma CountNext(o: Occupancy, name: string, sectionOf: seq<string>, sold: set<nat>, held: set<nat>, s: nat)
    requires s < |sectionOf| && sold !! held && Counted(o, name, sectionOf[..s], sold, held)
    ensures Counted(if sectionOf[s] == name then Seen(o, s in sold, s in held) else o, name, sectionOf[..s + 1], sold, held)
  {
    assert sectionOf[..s + 1][..s] == sectionOf[..s];
  }

  function EntryOf(tally: map<string, Occupancy>, name: string): Occupancy {
    if name in tally then tally[name] else Occupancy(0, 0, 0)
  }

  /** Every seat counts once, in its own section: as sold if it is sold, else as held if it is held. */
  method TallySections(sectionOf: seq<string>, sold: set<nat>, heldRows: set<nat>) returns (tally: map<string, Occupancy>)
    ensures forall name: string :: Counted(EntryOf(tally, name), name, sectionOf, sold, heldRows - sold)
    ensures forall s | 0 <= s < |sectionOf| :: sectionOf[s] in tally
  {
    hide Counted;
    tally := map[];
    var held := heldRows - sold;
    forall name: string ensures Counted(EntryOf(tally, name), name, sectionOf[..0], sold, held) {
      NothingCounted(name, sold, held);
    }
    for s := 0 to |sectionOf|
      invariant forall r | 0 <= r < s :: sectionOf[r] in tally
      invariant forall name: string :: Counted(EntryOf(tally, name), name, sectionOf[..s], sold, held)
    {
      ghost var before := tally;
      tally := tally[sectionOf[s] := Seen(EntryOf(tally, sectionOf[s]), s in sold, s in held)];
      forall name: string ensures Counted(EntryOf(tally, name), name, sectionOf[..s + 1], sold, held) {
        assert Counted(EntryOf(before, name), name, sectionOf[..s], sold, held);
        CountNext(EntryOf(before, name), name, sectionOf, sold, held, s);
      }
    }
    assert sectionOf[..|sectionOf|] == sectionOf;
  }

  lemma NothingCounted(name: string, sold: set<nat>, held: set<nat>)
    ensures Counted(Occupancy(0, 0, 0), name, [], sold, held)
  {
  }
}
