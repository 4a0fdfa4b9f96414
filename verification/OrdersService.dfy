/** Creating, releasing and expiring orders, as the service does it on the database. */
module OrdersService {
  import opened Tables
  import opened Sums
  import opened Weights
  import opened Issuing
  import opened Transactions
  import opened Invariants
  import opened InventorySales
  import opened Drafts
  import opened OrderAnswers
  import opened Counters
  import opened Store

  const RECONCILE_BATCH_SIZE: nat := 100

  ghost predicate Due(db: Db, o: nat) {
    && o < |db.orders| && db.orders[o].status == AwaitingPayment
    && db.orders[o].expiresAt.Some? && db.orders[o].expiresAt.value <= db.now
  }

  ghost predicate AllHeld(db: Db, d: OrderDraft) {
    forall s | s in d.seats :: HeldBy(db, d, s)
  }

  /** Releasing a list of orders one after the other. */
  ghost function ReleaseAll(db: Db, batch: seq<nat>, final: OrderStatus): Db {
    if batch == [] then db else Release(ReleaseAll(db, batch[..|batch| - 1], final), batch[|batch| - 1], final)
  }

  /** The orders a reconciler pass picks: due, each once, earliest deadline first, at most a batch of them. */
  ghost predicate Picked(db: Db, batch: seq<nat>) {
    && |batch| <= RECONCILE_BATCH_SIZE
    && (forall i | 0 <= i < |batch| :: Due(db, batch[i]))
    && (forall i, j | 0 <= i < j < |batch| :: batch[i] != batch[j])
    && (forall i, o: nat | 0 <= i < |batch| && Due(db, o) && o !in batch[..i] ::
          db.orders[batch[i]].expiresAt.value <= db.orders[o].expiresAt.value)
    && (|batch| < RECONCILE_BATCH_SIZE ==> forall o: nat | Due(db, o) :: o in batch)
  }

  /** A selection in progress: `due` is what is left of `all` once `batch` is taken out in deadline order. */
  ghost predicate PickedSoFar(orders: seq<Order>, all: set<nat>, due: set<nat>, batch: seq<nat>) {
    && |batch| <= RECONCILE_BATCH_SIZE
    && (forall o | o in all :: o < |orders| && orders[o].expiresAt.Some?)
    && (forall o :: o in all <==> o in due || o in batch)
    && (forall o | o in batch :: o !in due)
    && (forall i, j | 0 <= i < j < |batch| :: batch[i] != batch[j])
    && (forall i, o | 0 <= i < |batch| && o in all && o !in batch[..i] ::
          batch[i] in all && orders[batch[i]].expiresAt.value <= orders[o].expiresAt.value)
  }

  datatype LineFault = UnknownTier(line: nat) | RepeatedTier(line: nat) | TooMany(line: nat)

  /** What is wrong with line `k`, given the lines before it. */
  ghost function FaultAt(db: Db, event: nat, lines: seq<(nat, nat)>, k: nat): Option<LineFault>
    requires k < |lines|
  {
    var t := lines[k].0;
    if !(t < |db.tiers| && t < |db.stock| && db.tiers[t].event == event && db.tiers[t].kind == Ga) then Some(UnknownTier(k))
    else if exists j :: 0 <= j < k && lines[j].0 == t then Some(RepeatedTier(k))
    else if lines[k].1 > db.stock[t].maxPerOrder then Some(TooMany(k))
    else None
  }

  /** The first fault of the list. */
  ghost function LinesFault(db: Db, event: nat, lines: seq<(nat, nat)>): Option<LineFault> {
    if lines == [] then None
    else
      var before := LinesFault(db, event, lines[..|lines| - 1]);
      if before.Some? then before else FaultAt(db, event, lines, |lines| - 1)
  }

  datatype OrderRead =
    | NothingPicked
    | HolderMissing
    | AlreadyMade(o: nat)
    | EventMissing
    | BadLine(fault: LineFault)
    | UnknownSeat
    | Drafted(draft: OrderDraft)

  /** How the reads of a request end, refusals in the order they are checked. */
  ghost function ReadReply(db: Db, r: OrderRequest): OrderRead {
    if r.lines == [] && r.seats == {} then NothingPicked
    else if r.seats != {} && r.holder == None then HolderMissing
    else if r.key.Some? && OrderByKey(db.orders, r.event, r.key.value).Some?
    then AlreadyMade(OrderByKey(db.orders, r.event, r.key.value).value)
    else if r.event !in db.published then EventMissing
    else if LinesFault(db, r.event, r.lines).Some? then BadLine(LinesFault(db, r.event, r.lines).value)
    else if exists s :: s in r.seats && !(s < |db.seats| && db.seats[s].event == r.event) then UnknownSeat
    else Drafted(DraftOf(db, r))
  }

  datatype CreateReply =
    | Rejected(read: OrderRead)
    | Refused(why: CommitOutcome)
    | Replay(o: nat)
    | Made(o: nat)
    | CheckoutFailed(o: nat)

  /** The answer to a request from its draft on; `settled` says that its checkout came through. */
  ghost function FinishReply(db: Db, d: OrderDraft, settled: bool): CreateReply {
    match CommitOutcomeOf(db, d)
    case Reserved(o) => if settled then Made(o) else CheckoutFailed(o)
    case Granted(o) => Made(o)
    case Replayed =>
      if d.key.Some? && OrderByKey(db.orders, d.event, d.key.value).Some?
      then Replay(OrderByKey(db.orders, d.event, d.key.value).value) else Refused(Replayed)
    case why => Refused(why)
  }

  /** The database after it. */
  ghost function Finished(db: Db, d: OrderDraft, intent: Option<nat>, completes: bool): Db {
    var committed := CommitOrder(db, d);
    match CommitOutcomeOf(db, d)
    case Reserved(o) =>
      var recorded := if intent.Some? then AddPayment(committed, o, intent.value, d.total) else committed;
      if intent.Some? && completes then recorded else Release(recorded, o, Canceled)
    case _ => committed
  }

  class OrdersService {
    const db: Database

    constructor (db: Database)
      ensures this.db == db
    {
      this.db := db;
    }

    /** The first line the request fails on, checked in the order of the lines. */
    method FirstFault(event: nat, lines: seq<(nat, nat)>) returns (fault: Option<LineFault>)
      ensures fault == LinesFault(db.Snapshot(), event, lines)
    {
      fault := None;
      var seen: set<nat> := {};
      for k := 0 to |lines|
        invariant fault == None && LinesFault(db.Snapshot(), event, lines[..k]) == None
        invariant forall t :: t in seen <==> exists j :: 0 <= j < k && lines[j].0 == t
      {
        FaultNext(db.Snapshot(), event, lines, k);
        var t := lines[k].0;
        if !(t < |db.tiers| && t < |db.stock| && db.tiers[t].event == event && db.tiers[t].kind == Ga) {
          fault := Some(UnknownTier(k));
        } else if t in seen {
          fault := Some(RepeatedTier(k));
        } else if lines[k].1 > db.stock[t].maxPerOrder {
          fault := Some(TooMany(k));
        }
        if fault.Some? {
          FaultStays(db.Snapshot(), event, lines, k + 1);
          return;
        }
        seen := seen + {t};
      }
      assert lines[..|lines|] == lines;
    }

    method PriceLines(lines: seq<(nat, nat)>) returns (ga: seq<Item>, total: nat)
      ensures ga == PricedLines(db.tiers, lines) && total == ItemsValue(ga)
    {
      ga, total := [], 0;
      for k := 0 to |lines|
        invariant ga == PricedLines(db.tiers, lines[..k]) && total == ItemsValue(ga)
      {
        var it := Item(lines[k].0, lines[k].1, PriceAt(db.tiers, lines[k].0));
        TotalAppend(LinePrice(), ga, it);
        assert PricedLines(db.tiers, lines[..k + 1]) == ga + [it];
        total := total + it.quantity * it.unitPrice;
        ga := ga + [it];
      }
      assert lines[..|lines|] == lines;
    }

    method GroupSeats(p: set<nat>) returns (groups: seq<Item>, total: nat)
      ensures groups == Grouped(db.tiers, db.seats, p)
      ensures total == Total(SeatPrice(db.tiers, p), db.seats)
    {
      groups, total := [], 0;
      for s := 0 to |db.seats|
        invariant groups == Grouped(db.tiers, db.seats[..s], p)
        invariant total == Total(SeatPrice(db.tiers, p), db.seats[..s])
      {
        assert db.seats[..s + 1][..s] == db.seats[..s];
        if s in p {
          groups := Bump(groups, db.seats[s].tier, PriceAt(db.tiers, db.seats[s].tier));
          total := total + PriceAt(db.tiers, db.seats[s].tier);
        }
      }
      assert db.seats[..|db.seats|] == db.seats;
    }

    /** What `create` reads and computes before its transaction, each refusal in its turn. */
    method Read(r: OrderRequest) returns (reply: OrderRead)
      ensures reply == ReadReply(db.Snapshot(), r)
    {
      hide LinesFault, Grouped, PricedLines, Total;
      if r.lines == [] && r.seats == {} {
        return NothingPicked;
      }
      if r.seats != {} && r.holder == None {
        return HolderMissing;
      }
      if r.key.Some? {
        var existing := OrderByKey(db.orders, r.event, r.key.value);
        if existing.Some? {
          return AlreadyMade(existing.value);
        }
      }
      if r.event !in db.published {
        return EventMissing;
      }
      var fault := FirstFault(r.event, r.lines);
      if fault.Some? {
        return BadLine(fault.value);
      }
      var found := set s | s in r.seats && s < |db.seats| && db.seats[s].event == r.event;
      Cardinality(found, r.seats);
      if |found| != |r.seats| {
        ghost var s :| s in r.seats && s !in found;
        return UnknownSeat;
      }
      assert forall s | s in r.seats :: s in found;
      var ga, gaTotal := PriceLines(r.lines);
      var groups, seatTotal := GroupSeats(r.seats);
      var total := gaTotal + seatTotal;
      reply := Drafted(OrderDraft(r.event, ga, groups, r.seats, match r.holder case Some(h) => h case None => "", r.key, total,
                                  if total > 0 then Some(r.expiresAt) else None));
    }

    /** Claim every line while its tier still has room; stops at the first that has not. */
    method Claim(items: seq<Item>) returns (claimed: bool)
      requires DistinctTiers(items) && forall k | 0 <= k < |items| :: items[k].tier < |db.stock|
      modifies db`stock
      ensures claimed <==> CanClaim(old(db.stock), items)
      ensures claimed ==> db.stock == TakeItems(old(db.stock), items)
    {
      ghost var before := db.stock;
      assert TakeItems(before, []) == before;
      for k := 0 to |items|
        invariant db.stock == TakeItems(before, items[..k])
        invariant forall j | 0 <= j < k :: before[items[j].tier].remaining >= items[j].quantity
      {
        NotYetTaken(before, items, k);
        TakeNext(before, items, k);
        if db.stock[items[k].tier].remaining < items[k].quantity {
          return false;
        }
        db.stock := Shift(db.stock, items[k].tier, 0 - items[k].quantity);
      }
      assert items[..|items|] == items;
      return true;
    }

    /** The seats of the draft its buyer holds right now. */
    method HeldSeats(d: OrderDraft) returns (held: set<nat>)
      ensures held <= d.seats
      ensures |held| == |d.seats| <==> AllHeld(db.Snapshot(), d)
      ensures |held| == |d.seats| ==> held == d.seats
    {
      held := set s | s in d.seats && s in db.holds && db.holds[s].event == d.event && db.holds[s].holder == d.holder
                      && db.holds[s].expiresAt > db.now;
      Cardinality(held, d.seats);
      if held != d.seats {
        ghost var s :| s in d.seats && s !in held;
        assert !HeldBy(db.Snapshot(), d, s);
      } else {
        assert forall s | s in d.seats :: s in held;
      }
    }

    /** Bind the held seats to the order and give them its deadline. */
    method Bind(d: OrderDraft, o: nat)
      requires o == |db.orders|
      modifies db`holds
      ensures db.holds == BindHolds(old(db.Snapshot()), d)
    {
      db.holds := map s | s in db.holds ::
        if s in d.seats then db.holds[s].(order := Some(o), expiresAt := match d.expiresAt case Some(e) => e case None => 0)
        else db.holds[s];
    }

    /** A free order: consume the holds, decrement the seated tiers, issue the tickets. */
    method Grant(d: OrderDraft, o: nat)
      requires forall k | 0 <= k < |d.groups| :: d.groups[k].tier < |db.stock|
      requires forall t: nat :: QtyOf(d.groups, t) == SeatCount(db.seats, d.seats, t)
      modifies db`holds, db`stock, db`tickets, db`feed
      ensures db.holds == old(db.holds) - d.seats
      ensures db.stock == TakeSeats(old(db.stock), db.seats, d.seats)
      ensures db.tickets == old(db.tickets) + Minted(o, db.tiers, d.ga, db.seats, d.seats)
      ensures db.feed == if d.seats == {} then old(db.feed) else old(db.feed) + [SeatsSold(d.seats)]
    {
      db.holds := db.holds - d.seats;
      TakeGroups(db.stock, db.tiers, db.seats, d);
      db.stock := TakeGroup(db.stock, d.groups);
      var ga := IssueGa(o, db.tiers, d.ga);
      var seated := IssueSeats(o, db.seats, d.seats);
      db.tickets := db.tickets + (ga + seated);
      if d.seats != {} {
        db.feed := db.feed + [SeatsSold(d.seats)];
      }
    }

    /** The transaction of `create`. Any refusal rolls everything back. */
    method Commit(d: OrderDraft) returns (outcome: CommitOutcome)
      requires db.Valid() && DraftOk(db.tiers, db.seats, d)
      modifies db
      ensures db.Snapshot() == CommitOrder(old(db.Snapshot()), d)
      ensures outcome == CommitOutcomeOf(old(db.Snapshot()), d)
      ensures RowsOrdered(old(db.Snapshot()), db.Snapshot(), d)
      ensures db.Valid()
    {
      hide RowsOrdered, Buys, InventoryOk, DraftOk, HeldBy, CanClaim, OrderKeyTaken, AllHeld, CommitOrder, CommitOutcomeOf, BindHolds, TakeItems,
           TakeSeats, Minted;
      ghost var before := db.Snapshot();
      CommitKeeps(before, d);
      CommitPromises(before, d);
      CommitCases(before, d);
      DraftTiers(before, d);
      var stock0, orders0 := db.stock, db.orders;
      var claimed := Claim(d.ga);
      if !claimed {
        db.stock := stock0;
        return SoldOut;
      }
      assert |db.stock| == |stock0| by { TakeLength(stock0, d.ga); }
      var taken := db.OrderKeyIsTaken(d.event, d.key);
      if taken {
        db.stock := stock0;
        return Replayed;
      }
      var held := HeldSeats(d);
      SameHeld(db.Snapshot(), before, d);
      var o := |db.orders|;
      if |held| != |d.seats| {
        db.stock, db.orders := stock0, orders0;
        return HoldExpired;
      }
      if d.total > 0 {
        SameBind(db.Snapshot(), before, d);
        Bind(d, o);
        db.orders := db.orders + [DraftRow(d)];
        return Reserved(o);
      }
      db.orders := db.orders + [DraftRow(d)];
      Grant(d, o);
      return Granted(o);
    }

    /** The rest of `create` from a draft, however old its reads are: commit, then ask the vendor for an intent,
        record it and return. `intent` is None when the vendor fails or its answer cannot be recorded;
        `completes` is false when something throws after the payment row is there. Either way the order is
        canceled again. A key that was used meanwhile is answered with the order that has it. */
    method Finish(d: OrderDraft, intent: Option<nat>, completes: bool) returns (reply: CreateReply)
      requires db.Valid() && DraftOk(db.tiers, db.seats, d)
      requires intent.Some? ==> PaymentByIntent(db.payments, intent.value) == None
      requires PaymentByOrder(db.payments, |db.orders|) == None
      modifies db
      ensures db.Valid()
      ensures reply == FinishReply(old(db.Snapshot()), d, intent.Some? && completes)
      ensures db.Snapshot() == Finished(old(db.Snapshot()), d, intent, completes)
    {
      hide InventoryOk, CommitOrder, CommitOutcomeOf, Release, DraftOk, PaymentByOrder, PaymentByIntent, OrderByKey;
      ghost var before := db.Snapshot();
      CommitShape(before, d);
      var outcome := Commit(d);
      match outcome {
        case Reserved(o) =>
          if intent.Some? {
            PaymentFrame(db.Snapshot(), o, intent.value, d.total);
            db.payments := db.payments + [Payment(o, intent.value, d.total, RequiresAction)];
            if completes {
              return Made(o);
            }
          }
          var released := ReleaseInventory(o, Canceled);
          return CheckoutFailed(o);
        case Granted(o) => return Made(o);
        case Replayed =>
          TakenKey(before, d);
          return Replay(OrderByKey(db.orders, d.event, d.key.value).value);
        case _ => return Refused(outcome);
      }
    }

    /** A request run without interruption. */
    method Create(r: OrderRequest, intent: Option<nat>, completes: bool) returns (reply: CreateReply)
      requires db.Valid()
      requires intent.Some? ==> PaymentByIntent(db.payments, intent.value) == None
      requires PaymentByOrder(db.payments, |db.orders|) == None
      modifies db
      ensures db.Valid()
      ensures var read := ReadReply(old(db.Snapshot()), r);
        match read
        case Drafted(d) =>
          && reply == FinishReply(old(db.Snapshot()), d, intent.Some? && completes)
          && db.Snapshot() == Finished(old(db.Snapshot()), d, intent, completes)
        case AlreadyMade(o) => reply == Replay(o) && db.Snapshot() == old(db.Snapshot())
        case _ => reply == Rejected(read) && db.Snapshot() == old(db.Snapshot())
    {
      hide InventoryOk, ReadReply, FinishReply, Finished, DraftOk, PaymentByOrder, PaymentByIntent;
      var read := Read(r);
      match read {
        case AlreadyMade(o) => return Replay(o);
        case Drafted(d) =>
          ReadDrafts(db.Snapshot(), r);
          DraftFits(db.Snapshot(), r);
          reply := Finish(d, intent, completes);
        case _ => return Rejected(read);
      }
    }

    method TakeGroup(stock: seq<Stock>, groups: seq<Item>) returns (after: seq<Stock>)
      requires forall k | 0 <= k < |groups| :: groups[k].tier < |stock|
      ensures after == TakeItems(stock, groups)
    {
      after := stock;
      assert TakeItems(stock, []) == stock;
      for k := 0 to |groups|
        invariant after == TakeItems(stock, groups[..k])
      {
        TakeNext(stock, groups, k);
        after := Shift(after, groups[k].tier, 0 - groups[k].quantity);
      }
      assert groups[..|groups|] == groups;
    }

    /** Claim the order out of awaiting payment; only the claimant returns its inventory. */
    method ReleaseInventory(o: nat, final: OrderStatus) returns (released: bool)
      requires db.Valid() && IsUnfulfillableStatus(final)
      modifies db
      ensures db.Snapshot() == Release(old(db.Snapshot()), o, final)
      ensures released <==> o < |old(db.orders)| && old(db.orders)[o].status == AwaitingPayment
      ensures RowsReleased(old(db.Snapshot()), db.Snapshot(), o, final)
      ensures db.Valid()
    {
      hide RowsReleased, InventoryOk, GiveGaItems, Bound;
      ReleaseKeeps(db.Snapshot(), o, final);
      ReleasePromises(db.Snapshot(), o, final);
      if !(o < |db.orders| && db.orders[o].status == AwaitingPayment) {
        return false;
      }
      ItemTiers(db.Snapshot(), o);
      var items := db.orders[o].items;
      db.orders := db.orders[o := db.orders[o].(status := final)];
      db.stock := GiveItems(db.stock, items);
      var gone := db.SeatsBoundTo(o);
      db.holds := db.holds - gone;
      if gone != {} {
        db.feed := db.feed + [SeatsReleased(gone)];
      }
      return true;
    }

    method GiveItems(stock: seq<Stock>, items: seq<Item>) returns (after: seq<Stock>)
      requires forall k | 0 <= k < |items| :: items[k].tier < |stock|
      ensures after == GiveGaItems(stock, db.tiers, items)
    {
      after := stock;
      assert GiveGaItems(stock, db.tiers, []) == stock;
      for k := 0 to |items|
        invariant after == GiveGaItems(stock, db.tiers, items[..k])
      {
        GiveNext(stock, db.tiers, items, k);
        if IsGa(db.tiers, items[k].tier) {
          after := Shift(after, items[k].tier, items[k].quantity);
        }
      }
      assert items[..|items|] == items;
    }

    method Stranded() returns (batch: seq<nat>)
      ensures Picked(db.Snapshot(), batch)
    {
      var due := DueOrders();
      ghost var all := due;
      batch := [];
      while due != {} && |batch| < RECONCILE_BATCH_SIZE
        invariant PickedSoFar(db.orders, all, due, batch)
        decreases |due|
      {
        var o := Earliest(due);
        PickOne(db.orders, all, due, batch, o);
        due := due - {o};
        batch := batch + [o];
      }
      if due == {} {
        assert forall o | o in all :: o in batch;
      }
    }

    method DueOrders() returns (due: set<nat>)
      ensures forall o: nat :: o in due <==> Due(db.Snapshot(), o)
      ensures forall o | o in due :: o < |db.orders| && db.orders[o].expiresAt.Some?
    {
      due := set o: nat | 0 <= o < |db.orders| && db.orders[o].status == AwaitingPayment
                         && db.orders[o].expiresAt.Some? && db.orders[o].expiresAt.value <= db.now;
    }

    method Earliest(due: set<nat>) returns (o: nat)
      requires due != {} && forall r | r in due :: r < |db.orders| && db.orders[r].expiresAt.Some?
      ensures o in due && forall r | r in due :: db.orders[o].expiresAt.value <= db.orders[r].expiresAt.value
    {
      o :| o in due;
      var left := due - {o};
      while left != {}
        invariant o in due && left <= due
        invariant forall r | r in due && r !in left :: db.orders[o].expiresAt.value <= db.orders[r].expiresAt.value
      {
        var r :| r in left;
        left := left - {r};
        if db.orders[r].expiresAt.value < db.orders[o].expiresAt.value {
          o := r;
        }
      }
    }

    /** One reconciler pass: the picked orders expire one by one, all of them. */
    method ReconcileExpired() returns (expired: nat, batch: seq<nat>)
      requires db.Valid()
      modifies db
      ensures Picked(old(db.Snapshot()), batch) && expired == |batch|
      ensures db.Snapshot() == ReleaseAll(old(db.Snapshot()), batch, Expired)
      ensures db.Valid()
    {
      hide InventoryOk, Picked, ReleaseAll;
      batch := Stranded();
      PickedOrders(db.Snapshot(), batch);
      expired := ExpireEach(batch);
    }

    method ExpireEach(batch: seq<nat>) returns (expired: nat)
      requires db.Valid()
      requires forall i | 0 <= i < |batch| :: batch[i] < |db.orders| && db.orders[batch[i]].status == AwaitingPayment
      requires forall i, j | 0 <= i < j < |batch| :: batch[i] != batch[j]
      modifies db
      ensures db.Snapshot() == ReleaseAll(old(db.Snapshot()), batch, Expired) && expired == |batch|
      ensures db.Valid()
    {
      hide InventoryOk, Release, ReleaseAll;
      ghost var before := db.Snapshot();
      expired := 0;
      assert ReleaseAll(before, batch[..0], Expired) == before by { ReleaseNone(before, batch[..0]); }
      for k := 0 to |batch|
        invariant db.Valid() && expired == k
        invariant db.Snapshot() == ReleaseAll(before, batch[..k], Expired)
      {
        ReleaseAllNext(before, batch, k);
        ReleasedOrders(before, batch, k);
        var released := ReleaseInventory(batch[k], Expired);
        if released {
          expired := expired + 1;
        }
      }
      assert batch[..|batch|] == batch;
    }
  }

  lemma ReleasePromises(db: Db, o: nat, final: OrderStatus)
    requires InventoryOk(db)
    ensures RowsReleased(db, Release(db, o, final), o, final)
  {
    hide Release, RowsReleased;
    OrderReleased(db, o, final);
  }

  lemma ReleaseNone(db: Db, batch: seq<nat>)
    requires batch == []
    ensures ReleaseAll(db, batch, Expired) == db
  {
  }

  lemma ReleaseAllNext(db: Db, batch: seq<nat>, k: nat)
    requires k < |batch|
    ensures ReleaseAll(db, batch[..k + 1], Expired) == Release(ReleaseAll(db, batch[..k], Expired), batch[k], Expired)
  {
    hide Release;
    assert batch[..k + 1][..k] == batch[..k];
  }

  /** The earliest of what is left goes next. */
  lemma PickOne(orders: seq<Order>, all: set<nat>, due: set<nat>, batch: seq<nat>, o: nat)
    requires PickedSoFar(orders, all, due, batch) && |batch| < RECONCILE_BATCH_SIZE && o in due
    requires forall r | r in due :: r in all && orders[o].expiresAt.value <= orders[r].expiresAt.value
    ensures PickedSoFar(orders, all, due - {o}, batch + [o])
  {
    var next := batch + [o];
    assert o in all;
    assert next[..|batch|] == batch;
    assert forall i | 0 <= i < |batch| :: next[..i] == batch[..i];
    assert next[|batch|] == o;
    assert forall r :: r in next <==> r in batch || r == o;
  }

  lemma PickedOrders(db: Db, batch: seq<nat>)
    requires Picked(db, batch)
    ensures forall i | 0 <= i < |batch| :: batch[i] < |db.orders| && db.orders[batch[i]].status == AwaitingPayment
    ensures forall i, j | 0 <= i < j < |batch| :: batch[i] != batch[j]
  {
  }

  /** After `k` releases exactly the first `k` orders of the batch have expired. */
  lemma {:induction false} ReleasedOrders(db: Db, batch: seq<nat>, k: nat)
    requires k <= |batch|
    requires forall i | 0 <= i < |batch| :: batch[i] < |db.orders| && db.orders[batch[i]].status == AwaitingPayment
    requires forall i, j | 0 <= i < j < |batch| :: batch[i] != batch[j]
    ensures var after := ReleaseAll(db, batch[..k], Expired);
      && |after.orders| == |db.orders| && after.now == db.now
      && (forall o | 0 <= o < |db.orders| ::
            after.orders[o] == if o in batch[..k] then db.orders[o].(status := Expired) else db.orders[o])
      && (k < |batch| ==> after.orders[batch[k]].status == AwaitingPayment)
  {
    hide GiveGaItems, Bound, ReleaseAll;
    if k == 0 {
      ReleaseNone(db, batch[..0]);
    } else {
      ReleasedOrders(db, batch, k - 1);
      ReleaseAllNext(db, batch, k - 1);
      assert batch[..k] == batch[..k - 1] + [batch[k - 1]];
    }
  }

  /** A reconciler pass expires exactly the orders it picked and moves no other row: unpaid ones past their
      deadline, at most a hundred, none left behind with an earlier deadline than a picked one; a pass that found
      less leaves no such order at all. */
  lemma ReconciledOrders(db: Db, batch: seq<nat>)
    requires Picked(db, batch)
    ensures var after := ReleaseAll(db, batch, Expired);
      && |after.orders| == |db.orders|
      && (forall o | 0 <= o < |db.orders| ::
            after.orders[o] == if o in batch then db.orders[o].(status := Expired) else db.orders[o])
      && |batch| <= 100
      && (forall i | 0 <= i < |batch| :: Overdue(db, batch[i]))
      && (forall i, o: nat | 0 <= i < |batch| && Overdue(after, o) ::
            db.orders[batch[i]].expiresAt.value <= db.orders[o].expiresAt.value)
      && (|batch| < 100 ==> forall o: nat :: !Overdue(after, o))
  {
    PickedOrders(db, batch);
    ReleasedOrders(db, batch, |batch|);
    assert batch[..|batch|] == batch;
    hide ReleaseAll;
    forall o: nat | Overdue(ReleaseAll(db, batch, Expired), o) ensures Due(db, o) && o !in batch {
    }
    forall i, o: nat | 0 <= i < |batch| && Overdue(ReleaseAll(db, batch, Expired), o)
      ensures db.orders[batch[i]].expiresAt.value <= db.orders[o].expiresAt.value
    {
      assert Due(db, o) && o !in batch[..i];
    }
  }

  /** An unpaid order past its deadline. */
  ghost predicate Overdue(db: Db, o: nat) {
    o < |db.orders| && db.orders[o].status == AwaitingPayment && db.orders[o].expiresAt.Some? && db.orders[o].expiresAt.value <= db.now
  }

  lemma CommitPromises(db: Db, d: OrderDraft)
    requires InventoryOk(db) && DraftOk(db.tiers, db.seats, d)
    ensures RowsOrdered(db, CommitOrder(db, d), d)
  {
    hide CommitOrder, DraftOk, RowsOrdered;
    OrderCommitted(db, d);
  }

  lemma CommitKeeps(db: Db, d: OrderDraft)
    requires InventoryOk(db) && DraftOk(db.tiers, db.seats, d)
    ensures InventoryOk(CommitOrder(db, d))
  {
    hide InventoryOk, DraftOk;
    match CommitOutcomeOf(db, d) {
      case Reserved(_) => ReservedKeeps(db, d);
      case Granted(_) => GrantedKeeps(db, d);
      case _ =>
    }
  }

  lemma FaultNext(db: Db, event: nat, lines: seq<(nat, nat)>, k: nat)
    requires k < |lines|
    ensures var before := LinesFault(db, event, lines[..k]);
      LinesFault(db, event, lines[..k + 1]) == if before.Some? then before else FaultAt(db, event, lines, k)
  {
    assert lines[..k + 1][..k] == lines[..k];
    assert forall j | 0 <= j < k :: lines[..k + 1][j] == lines[j];
  }

  /** A fault found early is the fault of the whole list. */
  lemma {:induction false} FaultStays(db: Db, event: nat, lines: seq<(nat, nat)>, k: nat)
    requires k <= |lines| && LinesFault(db, event, lines[..k]).Some?
    ensures LinesFault(db, event, lines) == LinesFault(db, event, lines[..k])
    decreases |lines| - k
  {
    if k == |lines| {
      assert lines[..k] == lines;
    } else {
      FaultNext(db, event, lines, k);
      FaultStays(db, event, lines, k + 1);
    }
  }

  /** A list has no fault exactly when every line is accepted and none repeats a tier. */
  lemma {:induction false} NoFaultIffAccepted(db: Db, event: nat, lines: seq<(nat, nat)>)
    ensures LinesFault(db, event, lines) == None <==>
      && (forall k | 0 <= k < |lines| :: LineAccepted(db, event, lines[k]))
      && (forall i, j | 0 <= i < j < |lines| :: lines[i].0 != lines[j].0)
  {
    if lines != [] {
      var m := |lines| - 1;
      NoFaultIffAccepted(db, event, lines[..m]);
      assert forall k | 0 <= k < m :: lines[..m][k] == lines[k];
      if FaultAt(db, event, lines, m) == None {
        assert LineAccepted(db, event, lines[m]);
      }
    }
  }

  /** The reads end in a draft exactly when the state machine's read step takes one, and it is the same draft. */
  lemma ReadDrafts(db: Db, r: OrderRequest)
    ensures ReadReply(db, r).Drafted? <==> DraftOrder(db, r).Some?
    ensures ReadReply(db, r).Drafted? ==> DraftOrder(db, r) == Some(ReadReply(db, r).draft)
  {
    hide LinesFault, LineAccepted, DraftOf;
    NoFaultIffAccepted(db, r.event, r.lines);
  }

  /** The fault reported is the first one: every line before it is fine, and it is what the fault says. */
  ghost predicate FirstBad(db: Db, event: nat, lines: seq<(nat, nat)>, fault: LineFault) {
    var k := fault.line;
    && k < |lines| && (forall j | 0 <= j < k :: LineFine(db, event, lines, j))
    && match fault
       case UnknownTier(_) => !KnownLine(db, event, lines[k].0)
       case RepeatedTier(_) => KnownLine(db, event, lines[k].0) && exists j :: 0 <= j < k && lines[j].0 == lines[k].0
       case TooMany(_) =>
         && KnownLine(db, event, lines[k].0) && (forall j | 0 <= j < k :: lines[j].0 != lines[k].0)
         && lines[k].1 > db.stock[lines[k].0].maxPerOrder
  }

  lemma {:induction false} FaultIsFirst(db: Db, event: nat, lines: seq<(nat, nat)>)
    ensures match LinesFault(db, event, lines)
      case Some(fault) => FirstBad(db, event, lines, fault)
      case None => forall k | 0 <= k < |lines| :: LineFine(db, event, lines, k)
  {
    if lines != [] {
      var m := |lines| - 1;
      FaultIsFirst(db, event, lines[..m]);
      assert forall k | 0 <= k < m && LineFine(db, event, lines[..m], k) :: LineFine(db, event, lines, k);
      if LinesFault(db, event, lines[..m]).Some? {
        var fault := LinesFault(db, event, lines[..m]).value;
        assert lines[..m][fault.line] == lines[fault.line];
        assert FirstBad(db, event, lines, fault);
      }
    }
  }

  /** A request is drafted exactly when it can be ordered, and every refusal gives its true reason. */
  lemma ReadAnswered(db: Db, r: OrderRequest)
    requires CatalogOk(db.tiers, db.stock, db.seats)
    ensures var reply := ReadReply(db, r);
      && (reply.Drafted? <==> Orderable(db, r))
      && (reply.Drafted? ==> Carries(db, r, reply.draft))
      && (reply == NothingPicked <==> r.lines == [] && r.seats == {})
      && (reply == HolderMissing <==> r.seats != {} && r.holder.None?)
      && (reply.AlreadyMade? ==>
            reply.o < |db.orders| && r.key.Some? && db.orders[reply.o].event == r.event && db.orders[reply.o].key == r.key)
      && (reply == EventMissing ==> r.event !in db.published)
      && (reply.BadLine? ==> FirstBad(db, r.event, r.lines, reply.fault))
      && (reply == UnknownSeat ==> exists s :: s in r.seats && !(s < |db.seats| && db.seats[s].event == r.event))
  {
    hide CatalogOk, LinesFault, DraftOf, Carries, Orderable, RequestAccepted, FirstBad, LineFine;
    ReadDrafts(db, r);
    DraftAnswered(db, r);
    FaultIsFirst(db, r.event, r.lines);
  }

  /** From its draft on, a request ends in an order exactly when it buys and its checkout, if it needs one, came
      through; a buyer whose checkout failed is told so and its order is canceled; a used key is answered with the
      order that has it. */
  lemma FinishAnswered(db: Db, d: OrderDraft, intent: Option<nat>, completes: bool)
    requires InventoryOk(db) && DraftOk(db.tiers, db.seats, d)
    requires intent.Some? ==> PaymentByIntent(db.payments, intent.value) == None
    requires PaymentByOrder(db.payments, |db.orders|) == None
    ensures var settled := intent.Some? && completes;
      var reply, after, o := FinishReply(db, d, settled), Finished(db, d, intent, completes), |db.orders|;
      && (reply == Made(o) <==> Buys(db, d) && (d.total > 0 ==> settled))
      && (reply == CheckoutFailed(o) <==> Buys(db, d) && d.total > 0 && !settled)
      && (reply == Refused(SoldOut) <==> !HasRoom(db, d))
      && (reply == Refused(HoldExpired) <==> HasRoom(db, d) && !KeyUsed(db, d) && !BuyerHolds(db, d))
      && (reply.Replay? <==> HasRoom(db, d) && KeyUsed(db, d))
      && (reply.Replay? ==> reply.o < o && db.orders[reply.o].event == d.event && db.orders[reply.o].key == d.key)
      && (reply == Made(o) ==> RowsOrdered(db, after.(payments := db.payments), d))
      && (reply == Made(o) && d.total > 0 ==> after.payments == db.payments + [Payment(o, intent.value, d.total, RequiresAction)])
      && (reply == Made(o) && d.total <= 0 ==> after.payments == db.payments)
      && (reply == CheckoutFailed(o) ==>
            && |after.orders| == o + 1 && after.orders[o].status == Canceled
            && after.stock == db.stock && after.tickets == db.tickets && after.holds == db.holds - d.seats)
      && (!Buys(db, d) ==> after == db)
  {
    CommitRefused(db, d);
    CommitPromises(db, d);
    CommitShape(db, d);
    if CommitOutcomeOf(db, d) == Replayed {
      TakenKey(db, d);
    }
    hide InventoryOk, DraftOk, CommitOrder, CommitOutcomeOf, Release, HasRoom, KeyUsed, BuyerHolds, PaymentByIntent, PaymentByOrder,
         RowsOrdered, OrderByKey;
    if Buys(db, d) && d.total > 0 && !(intent.Some? && completes) {
      FailedCheckout(db, d, intent);
    }
  }

  /** Canceling is blind to the payment row. */
  lemma FailedCheckout(db: Db, d: OrderDraft, intent: Option<nat>)
    requires InventoryOk(db) && DraftOk(db.tiers, db.seats, d) && CommitOutcomeOf(db, d) == Reserved(|db.orders|)
    ensures var o, committed := |db.orders|, CommitOrder(db, d);
      var recorded := if intent.Some? then AddPayment(committed, o, intent.value, d.total) else committed;
      var after := Release(recorded, o, Canceled);
      && |after.orders| == o + 1 && after.orders[o].status == Canceled
      && after.stock == db.stock && after.tickets == db.tickets && after.holds == db.holds - d.seats
  {
    CanceledCheckoutRestoresStock(db, d);
    CommitCases(db, d);
    hide InventoryOk, DraftOk, CanClaim, OrderKeyTaken, AllHeld, TakeItems, BindHolds, GiveGaItems, Bound;
  }

  lemma TakenKey(db: Db, d: OrderDraft)
    requires CommitOutcomeOf(db, d) == Replayed
    ensures d.key.Some? && OrderByKey(db.orders, d.event, d.key.value).Some?
  {
    assert OrderKeyTaken(db.orders, d.event, d.key);
  }

  lemma DraftFits(db: Db, r: OrderRequest)
    requires InventoryOk(db)
    ensures DraftOrder(db, r).Some? ==> DraftOk(db.tiers, db.seats, DraftOrder(db, r).value)
  {
    if DraftOrder(db, r).Some? {
      DraftOrderOk(db, r);
    }
  }

  /** Committing touches no payment; a refusal touches nothing. */
  lemma CommitShape(db: Db, d: OrderDraft)
    ensures CommitOrder(db, d).payments == db.payments
    ensures !CommitOutcomeOf(db, d).Reserved? && !CommitOutcomeOf(db, d).Granted? ==> CommitOrder(db, d) == db
    ensures CommitOutcomeOf(db, d).Reserved? ==> CommitOutcomeOf(db, d).o == |db.orders|
  {
  }

  lemma PaymentFrame(db: Db, o: nat, i: nat, amount: int)
    requires InventoryOk(db) && PaymentByOrder(db.payments, o).None? && PaymentByIntent(db.payments, i).None?
    ensures AddPayment(db, o, i, amount) == db.(payments := db.payments + [Payment(o, i, amount, RequiresAction)])
    ensures InventoryOk(AddPayment(db, o, i, amount))
  {
  }

  /** Canceling an order whose checkout failed undoes its claim on the counters and issues nothing, but the
      buyer's holds on its seats are gone. */
  lemma CanceledCheckoutRestoresStock(db: Db, d: OrderDraft)
    requires InventoryOk(db) && DraftOk(db.tiers, db.seats, d) && CommitOutcomeOf(db, d).Reserved?
    ensures var after := Release(CommitOrder(db, d), |db.orders|, Canceled);
      && after.stock == db.stock && after.tickets == db.tickets
      && after.holds == db.holds - d.seats
  {
    CommitCases(db, d);
    hide CatalogOk, CapacityOk, OrdersOk, SeatsExclusive, TicketsOk, Ledger, BoundOk, MintedOk, FeedOk, CanClaim, OrderKeyTaken,
         CommitOrder, CommitOutcomeOf;
    var o, mid := |db.orders|, CommitOrder(db, d);
    var after := Release(mid, o, Canceled);
    BindHoldsBound(db, d);
    forall t: nat | t < |db.stock| ensures after.stock[t] == db.stock[t] {
      DraftQuantities(db.tiers, db.seats, d, t);
    }
    assert after.holds == db.holds - d.seats;
  }

  /** The branches of order creation, in the order the transaction takes them. */
  lemma CommitCases(db: Db, d: OrderDraft)
    ensures !CanClaim(db.stock, d.ga) ==> CommitOutcomeOf(db, d) == SoldOut && CommitOrder(db, d) == db
    ensures CanClaim(db.stock, d.ga) && OrderKeyTaken(db.orders, d.event, d.key) ==>
      CommitOutcomeOf(db, d) == Replayed && CommitOrder(db, d) == db
    ensures CanClaim(db.stock, d.ga) && !OrderKeyTaken(db.orders, d.event, d.key) && !AllHeld(db, d) ==>
      CommitOutcomeOf(db, d) == HoldExpired && CommitOrder(db, d) == db
    ensures CanClaim(db.stock, d.ga) && !OrderKeyTaken(db.orders, d.event, d.key) && AllHeld(db, d) && d.total > 0 ==>
      && CommitOutcomeOf(db, d) == Reserved(|db.orders|)
      && CommitOrder(db, d) == db.(stock := TakeItems(db.stock, d.ga), orders := db.orders + [DraftRow(d)], holds := BindHolds(db, d))
    ensures CanClaim(db.stock, d.ga) && !OrderKeyTaken(db.orders, d.event, d.key) && AllHeld(db, d) && d.total <= 0 ==>
      && CommitOutcomeOf(db, d) == Granted(|db.orders|)
      && CommitOrder(db, d) == db.(
           stock := TakeSeats(TakeItems(db.stock, d.ga), db.seats, d.seats), orders := db.orders + [DraftRow(d)],
           holds := db.holds - d.seats, tickets := db.tickets + Minted(|db.orders|, db.tiers, d.ga, db.seats, d.seats),
           feed := if d.seats == {} then db.feed else db.feed + [SeatsSold(d.seats)])
  {
  }

  lemma TakeLength(stock: seq<Stock>, items: seq<Item>)
    ensures |TakeItems(stock, items)| == |stock|
  {
  }

  lemma SameBind(a: Db, b: Db, d: OrderDraft)
    requires a.holds == b.holds && |a.orders| == |b.orders|
    ensures BindHolds(a, d) == BindHolds(b, d)
  {
  }

  lemma DraftTiers(db: Db, d: OrderDraft)
    requires InventoryOk(db) && DraftOk(db.tiers, db.seats, d)
    ensures DistinctTiers(d.ga) && forall k | 0 <= k < |d.ga| :: d.ga[k].tier < |db.stock|
    ensures forall k | 0 <= k < |d.groups| :: d.groups[k].tier < |db.stock|
    ensures forall t: nat :: QtyOf(d.groups, t) == SeatCount(db.seats, d.seats, t)
  {
    forall i, j | 0 <= i < j < |d.ga| ensures d.ga[i].tier != d.ga[j].tier {
      assert DraftItems(d)[i].tier != DraftItems(d)[j].tier;
    }
    forall k | 0 <= k < |d.ga| ensures d.ga[k].tier < |db.stock| {
      assert DraftItems(d)[k] == d.ga[k];
    }
    forall k | 0 <= k < |d.groups| ensures d.groups[k].tier < |db.stock| {
      assert DraftItems(d)[|d.ga| + k] == d.groups[k];
    }
  }

  /** Decrementing tier by tier is decrementing by seats. */
  lemma TakeGroups(stock: seq<Stock>, tiers: seq<Tier>, seats: seq<Seat>, d: OrderDraft)
    requires forall t: nat :: QtyOf(d.groups, t) == SeatCount(seats, d.seats, t)
    ensures TakeItems(stock, d.groups) == TakeSeats(stock, seats, d.seats)
  {
  }

  /** Whether the seats are held does not depend on the orders or the counters. */
  lemma SameHeld(a: Db, b: Db, d: OrderDraft)
    requires a.holds == b.holds && a.now == b.now
    ensures AllHeld(a, d) <==> AllHeld(b, d)
  {
  }

  lemma ItemTiers(db: Db, o: nat)
    requires InventoryOk(db) && o < |db.orders|
    ensures forall k | 0 <= k < |db.orders[o].items| :: db.orders[o].items[k].tier < |db.stock|
  {
  }
}
