/** The seat map a viewer loads, against the live feed and the reducer that keeps it current. */
module SeatViews {
  import opened Tables
  import opened Protocol
  import opened Invariants
  import opened Steps
  import opened Safety
  import R = Realtime

  /** One seat as the seat-map endpoint shows it to a holder: expired holds are not shown. */
  ghost function LoadedSeat(db: Db, s: nat, holder: Option<string>): R.SeatView {
    var hold := if s in db.holds && db.holds[s].expiresAt > db.now then Some(db.holds[s]) else None;
    var mine := hold.Some? && holder == Some(hold.value.holder);
    R.SeatView(if SeatSold(db.tickets, s) then R.Gone else if hold.Some? then R.Taken else R.Available,
               mine, if mine then Some(hold.value.expiresAt) else None)
  }

  function FeedView(status: SeatStatus): R.SeatStatus {
    match status case Available => R.Available case Taken => R.Taken case Gone => R.Gone
  }

  /** What a viewer is shown: sold if a live ticket is on the seat, else taken if a live hold is, else available;
      as its own, with the expiry, exactly if it is the holder. */
  lemma SeatShown(db: Db, s: nat, holder: Option<string>)
    ensures var v, live := LoadedSeat(db, s, holder), s in db.holds && db.holds[s].expiresAt > db.now;
      && (v.status == R.Gone <==> exists k :: 0 <= k < |db.tickets| && db.tickets[k].seat == Some(s) && db.tickets[k].status != Void)
      && (v.status == R.Taken <==> live && v.status != R.Gone)
      && (v.mine <==> live && holder == Some(db.holds[s].holder))
      && v.expiresAt == if v.mine then Some(db.holds[s].expiresAt) else None
  {
  }

  /** In every reachable world: a seat shown as mine is shown as held, which is what the batching theorem asks
      of a view; and a loaded seat shows what the feed says if and only if the feed does not say held of a
      hold that has expired and has not been swept. */
  lemma LoadedMapFitsFeed(w: World, s: nat, holder: Option<string>)
    requires Reachable(w)
    ensures R.Owned(LoadedSeat(w.db, s, holder))
    ensures LoadedSeat(w.db, s, holder).status == FeedView(FeedStatus(w.db.feed, s))
      <==> !(s in w.db.holds && w.db.holds[s].expiresAt <= w.db.now)
  {
    FeedAgrees(w, s);
    ReachableOk(w);
    if s in w.db.holds {
      assert !SeatSold(w.db.tickets, s);
    }
  }
}
