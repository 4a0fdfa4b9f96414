/** The live seat feed: the server batches seat changes per event, the browser folds the batches. */
module Realtime {
  import opened Tables

  /** One call of `seatsChanged`: seats that became held, released, sold. */
  datatype Change = Change(held: seq<nat>, released: seq<nat>, sold: seq<nat>)

  /** What is pending for one event, and what one message carries. */
  datatype Batch = Batch(held: set<nat>, released: set<nat>, sold: set<nat>)

  datatype Mark = Held | Released | Sold

  const EMPTY: Batch := Batch({}, {}, {})

  // ---- the reference: last write wins, seat by seat ----

  /** What a change says about a seat; a seat named twice in one change takes the later list. */
  function MarkIn(c: Change, s: nat): Option<Mark> {
    if s in c.sold then Some(Sold)
    else if s in c.released then Some(Released)
    else if s in c.held then Some(Held)
    else None
  }

  /** The last thing a sequence of changes says about a seat. */
  function LastMark(changes: seq<Change>, s: nat): Option<Mark> {
    if changes == [] then None
    else
      var m := MarkIn(changes[|changes| - 1], s);
      if m.Some? then m else LastMark(changes[..|changes| - 1], s)
  }

  function MarkOf(b: Batch, s: nat): Option<Mark> {
    if s in b.sold then Some(Sold)
    else if s in b.released then Some(Released)
    else if s in b.held then Some(Held)
    else None
  }

  predicate Disjoint(b: Batch) {
    b.held !! b.released && b.held !! b.sold && b.released !! b.sold
  }

  /** `b` is what the changes amount to. */
  ghost predicate Gathers(b: Batch, changes: seq<Change>) {
    Disjoint(b) && forall s: nat :: MarkOf(b, s) == LastMark(changes, s)
  }

  // ---- the server ----

  method Absorb(pending: Batch, change: Change, ghost changes: seq<Change>) returns (batch: Batch)
    requires Gathers(pending, changes)
    ensures Gathers(batch, changes + [change])
  {
    var held, released, sold := pending.held, pending.released, pending.sold;
    for k := 0 to |change.held|
      invariant held == pending.held + set s | s in change.held[..k]
      invariant released == pending.released - (set s | s in change.held[..k])
      invariant sold == pending.sold - (set s | s in change.held[..k])
    {
      held, released, sold := held + {change.held[k]}, released - {change.held[k]}, sold - {change.held[k]};
    }
    ghost var held1, released1, sold1 := held, released, sold;
    for k := 0 to |change.released|
      invariant released == released1 + set s | s in change.released[..k]
      invariant held == held1 - (set s | s in change.released[..k])
      invariant sold == sold1 - (set s | s in change.released[..k])
    {
      var s := change.released[k];
      released, held, sold := released + {s}, held - {s}, sold - {s};
    }
    ghost var held2, released2, sold2 := held, released, sold;
    for k := 0 to |change.sold|
      invariant sold == sold2 + set s | s in change.sold[..k]
      invariant held == held2 - (set s | s in change.sold[..k])
      invariant released == released2 - (set s | s in change.sold[..k])
    {
      var s := change.sold[k];
      sold, held, released := sold + {s}, held - {s}, released - {s};
    }
    batch := Batch(held, released, sold);
    assert (changes + [change])[..|changes|] == changes;
    forall s: nat ensures MarkOf(batch, s) == LastMark(changes + [change], s) {
      assert MarkOf(pending, s) == LastMark(changes, s);
    }
  }

  /** The batches an event's room has received, out of everything emitted. */
  function Inbox(sent: seq<(nat, Batch)>, e: nat): seq<Batch> {
    if sent == [] then []
    else
      var before := Inbox(sent[..|sent| - 1], e);
      if sent[|sent| - 1].0 == e then before + [sent[|sent| - 1].1] else before
  }

  class RealtimeService {
    var attached: bool
    var ticking: bool
    var pending: map<nat, Batch>
    var sent: seq<(nat, Batch)>
    /** The changes of each event since its last batch went out. */
    ghost var since: map<nat, seq<Change>>

    ghost predicate Valid()
      reads this
    {
      && pending.Keys == since.Keys
      && (forall e | e in pending :: Gathers(pending[e], since[e]))
      && (pending != map[] ==> ticking)
    }

    constructor ()
      ensures Valid() && pending == map[] && sent == []
    {
      attached, ticking, pending, sent, since := false, false, map[], [], map[];
    }

    method AttachServer()
      requires Valid()
      modifies this`attached
      ensures Valid() && attached
    {
      attached := true;
    }

    method SeatsChanged(e: nat, change: Change)
      requires Valid()
      modifies this
      ensures Valid() && sent == old(sent) && attached == old(attached)
      ensures since == old(since)[e := (if e in old(since) then old(since)[e] else []) + [change]]
      ensures forall f | f in old(pending) && f != e :: f in pending && pending[f] == old(pending)[f]
    {
      ghost var changes := if e in since then since[e] else [];
      var batch := if e in pending then pending[e] else EMPTY;
      batch := Absorb(batch, change, changes);
      pending := pending[e := batch];
      since := since[e := changes + [change]];
      ticking := true;
    }

    /** Every event with pending changes gets one message that amounts to them all; without a server
        nothing is sent and nothing is lost. */
    method Flush()
      requires Valid()
      modifies this
      ensures Valid() && attached == old(attached)
      ensures old(attached) ==> pending == map[] && since == map[]
      ensures !old(attached) ==> pending == old(pending) && since == old(since) && sent == old(sent)
      ensures old(attached) ==> forall e: nat ::
        if e in old(pending)
        then Inbox(sent, e) == Inbox(old(sent), e) + [old(pending)[e]] && Gathers(old(pending)[e], old(since)[e])
        else Inbox(sent, e) == Inbox(old(sent), e)
    {
      if pending == map[] {
        ticking := false;
        return;
      }
      if !attached {
        return;
      }
      var left := pending.Keys;
      while left != {}
        invariant left <= pending.Keys && attached && ticking && Valid()
        invariant pending == old(pending) && since == old(since)
        invariant forall e: nat ::
          Inbox(sent, e) == Inbox(old(sent), e) + (if e in pending && e !in left then [pending[e]] else [])
      {
        var e :| e in left;
        left := left - {e};
        ghost var before := sent;
        sent := sent + [(e, pending[e])];
        assert sent[..|sent| - 1] == before;
      }
      pending, since := map[], map[];
    }
  }

  // ---- the browser ----

  datatype SeatStatus = Available | Taken | Gone

  datatype SeatView = SeatView(status: SeatStatus, mine: bool, expiresAt: Option<int>)

  /** The reducer on one seat: sold before released before held, and a seat of mine is not told it is held. */
  function Reduce(v: SeatView, m: Option<Mark>): SeatView {
    match m
    case Some(Sold) => v.(status := Gone, mine := false)
    case Some(Released) => SeatView(Available, false, None)
    case Some(Held) => if v.mine then v else v.(status := Taken)
    case None => v
  }

  /** What one message does to a seat: sold seats are gone and nobody's, released ones available to all, held ones
      taken unless they are the viewer's own; a seat it does not name stays. */
  lemma SeatReduced(v: SeatView, b: Batch, s: nat)
    requires Disjoint(b)
    ensures var after := Reduce(v, MarkOf(b, s));
      && (s in b.sold ==> after == SeatView(Gone, false, v.expiresAt))
      && (s in b.released ==> after == SeatView(Available, false, None))
      && (s in b.held ==> after == if v.mine then v else SeatView(Taken, false, v.expiresAt))
      && (s !in b.held + b.released + b.sold ==> after == v)
  {
  }

  /** The last change that names a seat decides, and within it the sold list, then the released one. */
  lemma {:induction false} LastWordCounts(changes: seq<Change>, k: nat, s: nat)
    requires k < |changes| && (s in changes[k].held || s in changes[k].released || s in changes[k].sold)
    requires forall j | k < j < |changes| :: s !in changes[j].held && s !in changes[j].released && s !in changes[j].sold
    ensures LastMark(changes, s) == Some(if s in changes[k].sold then Sold else if s in changes[k].released then Released else Held)
  {
    if k < |changes| - 1 {
      LastWordCounts(changes[..|changes| - 1], k, s);
    }
  }

  /** One message applied to a whole map of seats. */
  function ReduceMap(seats: seq<SeatView>, b: Batch): (after: seq<SeatView>)
    ensures |after| == |seats|
  {
    seq(|seats|, (s: nat) requires s < |seats| => Reduce(seats[s], MarkOf(b, s)))
  }

  /** Delivering every change as a message of its own. */
  function ReduceEach(v: SeatView, changes: seq<Change>, s: nat): SeatView {
    if changes == [] then v
    else Reduce(ReduceEach(v, changes[..|changes| - 1], s), MarkIn(changes[|changes| - 1], s))
  }

  /** A seat the viewer owns is one the viewer holds. */
  predicate Owned(v: SeatView) {
    v.mine ==> v.status == Taken
  }

  function StatusAfter(status: SeatStatus, m: Option<Mark>): SeatStatus {
    match m
    case Some(Sold) => Gone
    case Some(Released) => Available
    case Some(Held) => Taken
    case None => status
  }

  /** On its way through the changes the seat was released or sold. */
  predicate Lost(changes: seq<Change>, s: nat) {
    exists k :: 0 <= k < |changes| && MarkIn(changes[k], s) in {Some(Released), Some(Sold)}
  }

  lemma LostInit(changes: seq<Change>, s: nat)
    requires changes != []
    ensures var m := |changes| - 1;
      Lost(changes, s) <==> Lost(changes[..m], s) || MarkIn(changes[m], s) in {Some(Released), Some(Sold)}
  {
  }

  lemma {:induction false} EachByEach(v: SeatView, changes: seq<Change>, s: nat)
    requires Owned(v)
    ensures var after := ReduceEach(v, changes, s);
      && Owned(after)
      && after.status == StatusAfter(v.status, LastMark(changes, s))
      && after.mine == (v.mine && !Lost(changes, s))
  {
    if changes != [] {
      EachByEach(v, changes[..|changes| - 1], s);
      LostInit(changes, s);
    }
  }

  lemma {:induction false} LastMarkLost(changes: seq<Change>, s: nat)
    ensures LastMark(changes, s) in {Some(Released), Some(Sold)} ==> Lost(changes, s)
    ensures LastMark(changes, s) == None ==> !Lost(changes, s)
  {
    if changes != [] {
      LostInit(changes, s);
      LastMarkLost(changes[..|changes| - 1], s);
    }
  }

  /** One batch against each change by itself, on one seat of a viewer whose owned seats are held: the
      status is always the same; the `mine` flag differs if and only if the viewer owned the seat, lost it
      and somebody else holds it by the time of the batch. */
  lemma BatchRefinesEach(v: SeatView, b: Batch, changes: seq<Change>, s: nat)
    requires Owned(v) && Gathers(b, changes)
    ensures var once, each := Reduce(v, MarkOf(b, s)), ReduceEach(v, changes, s);
      && Owned(once) && Owned(each)
      && once.status == each.status
      && (once.mine != each.mine <==> v.mine && Lost(changes, s) && LastMark(changes, s) == Some(Held))
  {
    EachByEach(v, changes, s);
    LastMarkLost(changes, s);
    assert MarkOf(b, s) == LastMark(changes, s);
  }

  /** Batch after batch: two viewers that agree on the statuses keep agreeing, whatever each believes it owns. */
  ghost predicate GathersAll(batches: seq<Batch>, changes: seq<seq<Change>>) {
    |batches| == |changes| && forall k | 0 <= k < |batches| :: Gathers(batches[k], changes[k])
  }

  function ReduceBatches(seats: seq<SeatView>, batches: seq<Batch>): (after: seq<SeatView>)
    ensures |after| == |seats|
  {
    if batches == [] then seats
    else ReduceMap(ReduceBatches(seats, batches[..|batches| - 1]), batches[|batches| - 1])
  }

  function EachBatch(v: SeatView, changes: seq<seq<Change>>, s: nat): SeatView {
    if changes == [] then v
    else ReduceEach(EachBatch(v, changes[..|changes| - 1], s), changes[|changes| - 1], s)
  }

  lemma {:induction false} FeedConverges(seats: seq<SeatView>, batches: seq<Batch>, changes: seq<seq<Change>>, s: nat)
    requires s < |seats| && Owned(seats[s]) && GathersAll(batches, changes)
    ensures var once, each := ReduceBatches(seats, batches)[s], EachBatch(seats[s], changes, s);
      Owned(once) && Owned(each) && once.status == each.status && (!seats[s].mine ==> !once.mine && !each.mine)
  {
    if batches != [] {
      var m := |batches| - 1;
      FeedConverges(seats, batches[..m], changes[..m], s);
      var once, each := ReduceBatches(seats, batches[..m])[s], EachBatch(seats[s], changes[..m], s);
      EachByEach(each, changes[m], s);
      LastMarkLost(changes[m], s);
      assert MarkOf(batches[m], s) == LastMark(changes[m], s);
      assert ReduceBatches(seats, batches)[s] == Reduce(once, MarkOf(batches[m], s));
    }
  }
}
