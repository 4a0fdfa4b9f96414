/** Turning a section list into seats: the layout, the tiers' capacities, and what a viewer is shown. */
module SeatMaps {
  import opened Tables
  import opened Sums
  import T = Transactions

  const ROW_LETTERS: string := "ABCDEFGHIJKLMNOPQRSTUVWXYZ"
  const SECTION_GAP_ROWS: nat := 1
  const MAX_PER_ORDER: nat := 8

  datatype Section = Section(name: string, rows: nat, cols: nat, tierName: string, price: nat, x: Option<nat>, y: Option<nat>)

  /** The bounds the request is validated against. */
  predicate IsRequest(sections: seq<Section>) {
    && 1 <= |sections| <= 12
    && forall k | 0 <= k < |sections| :: 1 <= sections[k].rows <= 26 && 1 <= sections[k].cols <= 30
  }

  datatype MapSeat = MapSeat(section: string, row: char, number: nat, x: nat, y: nat, tier: nat)

  datatype MapTier = MapTier(name: string, price: nat, quantity: nat, maxPerOrder: nat)

  datatype SeatMap = SeatMap(custom: bool, seats: seq<MapSeat>, tiers: seq<MapTier>, maxCols: nat, totalRows: nat)

  datatype CreateResult = MapExists | DuplicateTier | DuplicateSection | Created(layout: SeatMap)

  /** A section sells through a seated tier of its own, as large as the section. */
  function TierOf(section: Section): MapTier {
    MapTier(Trim(section.tierName), section.price, section.rows * section.cols, MAX_PER_ORDER)
  }

  predicate IsSpace(c: char) {
    c in {' ', '\t', '\n', '\r'}
  }

  function Trim(s: string): string {
    if s != "" && IsSpace(s[0]) then Trim(s[1..])
    else if s != "" && IsSpace(s[|s| - 1]) then Trim(s[..|s| - 1])
    else s
  }

  predicate DistinctNames(names: seq<string>) {
    forall i, j | 0 <= i < j < |names| :: names[i] != names[j]
  }

  function TierNames(sections: seq<Section>): (names: seq<string>)
    ensures |names| == |sections|
  {
    seq(|sections|, (k: nat) requires k < |sections| => Trim(sections[k].tierName))
  }

  function SectionNames(sections: seq<Section>): (names: seq<string>)
    ensures |names| == |sections|
  {
    seq(|sections|, (k: nat) requires k < |sections| => Trim(sections[k].name))
  }

  // ---- the layout ----

  function WidestCols(sections: seq<Section>): (cols: nat)
    ensures forall k | 0 <= k < |sections| :: sections[k].cols <= cols
  {
    if sections == [] then 0
    else
      var before := WidestCols(sections[..|sections| - 1]);
      assert forall k | 0 <= k < |sections| - 1 :: sections[k] == sections[..|sections| - 1][k];
      if before < sections[|sections| - 1].cols then sections[|sections| - 1].cols else before
  }

  /** The section's first column: its own, or centred under the widest section. */
  function XOf(sections: seq<Section>, k: nat): nat
    requires k < |sections|
  {
    match sections[k].x case Some(x) => x case None => (WidestCols(sections) - sections[k].cols) / 2
  }

  /** Where the next section without a row of its own starts. */
  function Cursor(sections: seq<Section>, k: nat): nat
    requires k <= |sections|
    decreases k, 0
  {
    if k == 0 then 0
    else if sections[k - 1].y.None? then YOf(sections, k - 1) + sections[k - 1].rows + SECTION_GAP_ROWS
    else Cursor(sections, k - 1)
  }

  function YOf(sections: seq<Section>, k: nat): nat
    requires k < |sections|
    decreases k, 1
  {
    match sections[k].y case Some(y) => y case None => Cursor(sections, k)
  }

  /** A place on the plan: section, row, column. */
  type Place = (nat, nat, nat)

  predicate InPlan(sections: seq<Section>, p: Place) {
    p.0 < |sections| && p.1 < sections[p.0].rows && p.2 < sections[p.0].cols
  }

  function RowLabel(r: nat): char {
    ROW_LETTERS[r % |ROW_LETTERS|]
  }

  function SeatOf(sections: seq<Section>, p: Place): MapSeat
    requires p.0 < |sections|
  {
    MapSeat(Trim(sections[p.0].name), RowLabel(p.1), p.2 + 1,
            XOf(sections, p.0) + p.2, YOf(sections, p.0) + p.1, p.0)
  }

  /** Reading order: section by section, row by row, column by column. */
  predicate Earlier(p: Place, q: Place) {
    p.0 < q.0 || (p.0 == q.0 && (p.1 < q.1 || (p.1 == q.1 && p.2 < q.2)))
  }

  /** The seats are those of the plan up to `upTo`, each once, in reading order. */
  ghost predicate Laid(sections: seq<Section>, seats: seq<MapSeat>, places: seq<Place>, upTo: Place) {
    && |seats| == |places|
    && (forall a | 0 <= a < |places| ::
          InPlan(sections, places[a]) && Earlier(places[a], upTo) && seats[a] == SeatOf(sections, places[a]))
    && (forall a, b | 0 <= a < b < |places| :: Earlier(places[a], places[b]))
    && (forall p: Place | InPlan(sections, p) && Earlier(p, upTo) :: p in places)
  }

  // ---- what the layout promises ----

  /** No two seats have the same section, row and number. */
  ghost predicate UniqueSeats(seats: seq<MapSeat>) {
    forall a, b | 0 <= a < b < |seats| ::
      seats[a].section != seats[b].section || seats[a].row != seats[b].row || seats[a].number != seats[b].number
  }

  ghost predicate UniqueCells(seats: seq<MapSeat>) {
    forall a, b | 0 <= a < b < |seats| :: seats[a].x != seats[b].x || seats[a].y != seats[b].y
  }

  /** The rectangles of two sections have a cell in common. */
  predicate Overlap(sections: seq<Section>, i: nat, j: nat)
    requires i < |sections| && j < |sections|
  {
    && XOf(sections, i) < XOf(sections, j) + sections[j].cols && XOf(sections, j) < XOf(sections, i) + sections[i].cols
    && YOf(sections, i) < YOf(sections, j) + sections[j].rows && YOf(sections, j) < YOf(sections, i) + sections[i].rows
  }

  ghost function OfTier(t: nat): (nat, MapSeat) -> int {
    (k: nat, s: MapSeat) => if s.tier == t then 1 else 0
  }

  lemma PlacesDiffer(sections: seq<Section>, p: Place, q: Place)
    requires IsRequest(sections) && DistinctNames(SectionNames(sections)) && InPlan(sections, p) && InPlan(sections, q)
    requires p != q
    ensures var s, t := SeatOf(sections, p), SeatOf(sections, q);
      s.section != t.section || s.row != t.row || s.number != t.number
  {
    hide XOf, YOf, Trim, RowLabel;
    if p.0 != q.0 {
      var names := SectionNames(sections);
      assert if p.0 < q.0 then names[p.0] != names[q.0] else names[q.0] != names[p.0];
      assert names[p.0] == Trim(sections[p.0].name) && names[q.0] == Trim(sections[q.0].name);
    } else if p.1 != q.1 {
      LettersDiffer(p.1, q.1);
    }
  }

  lemma LettersDiffer(i: nat, j: nat)
    requires i < 26 && j < 26 && i != j
    ensures RowLabel(i) != RowLabel(j)
  {
    assert |ROW_LETTERS| == 26;
    assert forall k | 0 <= k < 26 :: ROW_LETTERS[k] as int == 65 + k;
  }

  lemma LaidUnique(sections: seq<Section>, seats: seq<MapSeat>, places: seq<Place>)
    requires IsRequest(sections) && DistinctNames(SectionNames(sections))
    requires Laid(sections, seats, places, (|sections|, 0, 0))
    ensures UniqueSeats(seats)
  {
    forall a, b | 0 <= a < b < |seats|
      ensures seats[a].section != seats[b].section || seats[a].row != seats[b].row || seats[a].number != seats[b].number
    {
      PlacesDiffer(sections, places[a], places[b]);
    }
  }

  /** A cell that two sections' rectangles share. */
  lemma SharedCell(sections: seq<Section>, i: nat, j: nat) returns (p: Place, q: Place)
    requires IsRequest(sections) && i < |sections| && j < |sections| && i != j && Overlap(sections, i, j)
    ensures InPlan(sections, p) && InPlan(sections, q) && p.0 == i && q.0 == j
    ensures SeatOf(sections, p).x == SeatOf(sections, q).x && SeatOf(sections, p).y == SeatOf(sections, q).y
  {
    var x := if XOf(sections, i) < XOf(sections, j) then XOf(sections, j) else XOf(sections, i);
    var y := if YOf(sections, i) < YOf(sections, j) then YOf(sections, j) else YOf(sections, i);
    p := (i, y - YOf(sections, i), x - XOf(sections, i));
    q := (j, y - YOf(sections, j), x - XOf(sections, j));
  }

  lemma OverlapShares(sections: seq<Section>, seats: seq<MapSeat>, places: seq<Place>, i: nat, j: nat)
    requires IsRequest(sections) && Laid(sections, seats, places, (|sections|, 0, 0))
    requires i < j < |sections| && Overlap(sections, i, j)
    ensures !UniqueCells(seats)
  {
    var p, q := SharedCell(sections, i, j);
    var a :| 0 <= a < |places| && places[a] == p;
    var b :| 0 <= b < |places| && places[b] == q;
    assert seats[a].x == seats[b].x && seats[a].y == seats[b].y;
    assert a < b || b < a;
  }

  lemma ApartPlaces(sections: seq<Section>, p: Place, q: Place)
    requires InPlan(sections, p) && InPlan(sections, q) && Earlier(p, q)
    requires p.0 < q.0 ==> !Overlap(sections, p.0, q.0)
    ensures SeatOf(sections, p).x != SeatOf(sections, q).x || SeatOf(sections, p).y != SeatOf(sections, q).y
  {
  }

  /** No two seats share a grid cell if and only if no two section rectangles overlap. */
  lemma CellsUniqueIffApart(sections: seq<Section>, seats: seq<MapSeat>, places: seq<Place>)
    requires IsRequest(sections) && Laid(sections, seats, places, (|sections|, 0, 0))
    ensures UniqueCells(seats) <==> forall i, j | 0 <= i < j < |sections| :: !Overlap(sections, i, j)
  {
    if i: nat, j: nat :| i < j < |sections| && Overlap(sections, i, j) {
      OverlapShares(sections, seats, places, i, j);
    } else {
      forall a, b | 0 <= a < b < |seats| ensures seats[a].x != seats[b].x || seats[a].y != seats[b].y {
        ApartPlaces(sections, places[a], places[b]);
      }
    }
  }

  /** Sections that give no row of their own are stacked with a gap, so they never overlap. */
  lemma {:induction false} StackedApart(sections: seq<Section>, i: nat, j: nat)
    requires i < j < |sections| && sections[i].y.None? && sections[j].y.None?
    ensures YOf(sections, i) + sections[i].rows < YOf(sections, j) && !Overlap(sections, i, j)
  {
    CursorGrows(sections, i + 1, j);
  }

  lemma {:induction false} CursorGrows(sections: seq<Section>, i: nat, j: nat)
    requires i <= j <= |sections|
    ensures Cursor(sections, i) <= Cursor(sections, j)
  {
    if i < j {
      CursorGrows(sections, i, j - 1);
    }
  }

  lemma LaidInside(sections: seq<Section>, seats: seq<MapSeat>, places: seq<Place>, maxCols: nat, maxRow: nat)
    requires Laid(sections, seats, places, (|sections|, 0, 0))
    requires forall i | 0 <= i < |sections| ::
      XOf(sections, i) + sections[i].cols <= maxCols && YOf(sections, i) + sections[i].rows <= maxRow
    ensures forall a | 0 <= a < |seats| :: seats[a].x < maxCols && seats[a].y < maxRow
  {
  }

  // ---- where exactly a seat is ----

  /** The last section before `k` that brings no row of its own, if any. */
  ghost predicate LastAuto(sections: seq<Section>, k: nat, j: nat) {
    && j < k <= |sections| && sections[j].y.None?
    && forall i | j < i < k :: sections[i].y.Some?
  }

  /** Sections without a column are centred under the widest; sections without a row follow the last such one after
      one empty row, and the first of them starts at the top. */
  lemma {:induction false} SectionPlaced(sections: seq<Section>, k: nat)
    requires k < |sections|
    ensures sections[k].x.Some? ==> XOf(sections, k) == sections[k].x.value
    ensures sections[k].x.None? ==>
      exists i: nat :: Widest(sections, i) && sections[i].cols - 1 <= 2 * XOf(sections, k) + sections[k].cols <= sections[i].cols
    ensures sections[k].y.Some? ==> YOf(sections, k) == sections[k].y.value
    ensures sections[k].y.None? && (forall i | 0 <= i < k :: sections[i].y.Some?) ==> YOf(sections, k) == 0
    ensures forall j: nat :: sections[k].y.None? && LastAuto(sections, k, j) ==> YOf(sections, k) == YOf(sections, j) + sections[j].rows + 1
  {
    var i := WidestIsOne(sections);
    CursorPlaced(sections, k);
  }

  ghost predicate Widest(sections: seq<Section>, i: nat) {
    i < |sections| && forall j | 0 <= j < |sections| :: sections[j].cols <= sections[i].cols
  }

  lemma {:induction false} WidestIsOne(sections: seq<Section>) returns (i: nat)
    requires sections != []
    ensures Widest(sections, i) && sections[i].cols == WidestCols(sections)
  {
    var m := |sections| - 1;
    i := m;
    if m > 0 && WidestCols(sections[..m]) >= sections[m].cols {
      i := WidestIsOne(sections[..m]);
      assert sections[i] == sections[..m][i];
    }
  }

  lemma {:induction false} CursorPlaced(sections: seq<Section>, k: nat)
    requires k <= |sections|
    ensures (forall i | 0 <= i < k :: sections[i].y.Some?) ==> Cursor(sections, k) == 0
    ensures forall j: nat :: LastAuto(sections, k, j) ==> Cursor(sections, k) == YOf(sections, j) + sections[j].rows + 1
  {
    if k > 0 {
      CursorPlaced(sections, k - 1);
      forall j: nat | LastAuto(sections, k, j)
        ensures Cursor(sections, k) == YOf(sections, j) + sections[j].rows + 1
      {
        if j < k - 1 {
          assert LastAuto(sections, k - 1, j);
        }
      }
    }
  }

  /** A seat of the plan bears its section's name, its row's letter, its column's number and its section's tier, and
      stands in its section's rectangle at its row and column. */
  lemma SeatPlaced(sections: seq<Section>, p: Place)
    requires IsRequest(sections) && InPlan(sections, p)
    ensures var seat := SeatOf(sections, p);
      && seat.section == Trim(sections[p.0].name) && seat.row as int == 'A' as int + p.1 && seat.number == p.2 + 1
      && seat.tier == p.0 && seat.x == XOf(sections, p.0) + p.2 && seat.y == YOf(sections, p.0) + p.1
  {
    hide XOf, YOf, Trim;
    assert |ROW_LETTERS| == 26;
    assert forall k | 0 <= k < 26 :: ROW_LETTERS[k] as int == 65 + k;
  }

  /** A section's tier is named and priced by the section and has exactly its seats, at most eight to an order. */
  lemma TierSized(section: Section)
    ensures var tier := TierOf(section);
      tier.name == Trim(section.tierName) && tier.price == section.price && tier.quantity == section.rows * section.cols
      && tier.maxPerOrder == 8
  {
  }

  predicate Blank(s: string) {
    forall k | 0 <= k < |s| :: s[k] in {' ', '\t', '\n', '\r'}
  }

  ghost predicate Stripped(s: string, t: string, front: string, back: string) {
    s == front + t + back && Blank(front) && Blank(back)
  }

  lemma StripMore(s: string, t: string, front: string, back: string, c: char)
    requires Stripped(s, t, front, back) && IsSpace(c)
    ensures Stripped([c] + s, t, [c] + front, back) && Stripped(s + [c], t, front, back + [c])
  {
    assert [c] + (front + t + back) == ([c] + front) + t + back;
    assert (front + t + back) + [c] == front + t + (back + [c]);
  }

  /** Trimming takes blanks off both ends and nothing else. */
  lemma {:induction false} TrimStrips(s: string) returns (front: string, back: string)
    ensures Stripped(s, Trim(s), front, back)
    ensures Trim(s) != "" ==> !IsSpace(Trim(s)[0]) && !IsSpace(Trim(s)[|Trim(s)| - 1])
  {
    hide Stripped, IsSpace;
    if s != "" && IsSpace(s[0]) {
      front, back := TrimStrips(s[1..]);
      StripMore(s[1..], Trim(s), front, back, s[0]);
      assert s == [s[0]] + s[1..];
      front := [s[0]] + front;
    } else if s != "" && IsSpace(s[|s| - 1]) {
      front, back := TrimStrips(s[..|s| - 1]);
      StripMore(s[..|s| - 1], Trim(s), front, back, s[|s| - 1]);
      assert s == s[..|s| - 1] + [s[|s| - 1]];
      back := back + [s[|s| - 1]];
    } else {
      front, back := "", "";
      NothingStripped(s);
    }
  }

  lemma NothingStripped(s: string)
    ensures Stripped(s, s, "", "")
  {
  }

  // ---- the seats by tier ----

  function TiersOf(seats: seq<MapSeat>): (tiers: seq<nat>)
    ensures |tiers| == |seats|
  {
    seq(|seats|, (a: nat) requires a < |seats| => seats[a].tier)
  }

  function Repeat(t: nat, n: nat): (run: seq<nat>)
    ensures |run| == n && forall a | 0 <= a < n :: run[a] == t
  {
    seq(n, _ => t)
  }

  /** Section 0's tier as often as it has seats, then section 1's, and so on. */
  function TierRuns(sections: seq<Section>): seq<nat> {
    if sections == [] then []
    else
      var m := |sections| - 1;
      TierRuns(sections[..m]) + Repeat(m, sections[m].rows * sections[m].cols)
  }

  lemma TiersNext(seats: seq<MapSeat>, seat: MapSeat, before: seq<nat>, k: nat, c: nat)
    requires TiersOf(seats) == before + Repeat(k, c) && seat.tier == k
    ensures TiersOf(seats + [seat]) == before + Repeat(k, c + 1)
  {
    assert TiersOf(seats + [seat]) == TiersOf(seats) + [k];
    assert Repeat(k, c + 1) == Repeat(k, c) + [k];
  }

  lemma RepeatMore(before: seq<nat>, k: nat, m: nat, n: nat)
    ensures (before + Repeat(k, m)) + Repeat(k, n) == before + Repeat(k, m + n)
  {
  }

  lemma RunsNext(sections: seq<Section>, k: nat)
    requires k < |sections|
    ensures TierRuns(sections[..k + 1]) == TierRuns(sections[..k]) + Repeat(k, sections[k].rows * sections[k].cols)
  {
    assert sections[..k + 1][..k] == sections[..k];
  }

  /** The section list as the state machine takes it: a price and a number of seats each. */
  function Sized(sections: seq<Section>): (sized: seq<T.Section>)
    ensures |sized| == |sections|
  {
    seq(|sections|, (k: nat) requires k < |sections| => T.Section(sections[k].price, sections[k].rows * sections[k].cols))
  }

  function NewTiers(event: nat, sections: seq<Section>): seq<Tier> {
    seq(|sections|, (k: nat) requires k < |sections| => Tier(event, Seated, sections[k].price))
  }

  function NewStock(sections: seq<Section>): seq<Stock> {
    seq(|sections|, (k: nat) requires k < |sections| =>
      Stock(TierOf(sections[k]).quantity, TierOf(sections[k]).quantity, TierOf(sections[k]).maxPerOrder))
  }

  function NewSeats(event: nat, base: nat, runs: seq<nat>): seq<Seat> {
    seq(|runs|, (a: nat) requires a < |runs| => Seat(event, base + runs[a]))
  }

  /** The tiers and seats the state machine's seat-map step adds are those of the layout, seat by seat. */
  lemma {:induction false} StepAddsTheLayout(db: Db, event: nat, sections: seq<Section>)
    ensures T.AddSections(db, event, Sized(sections))
         == db.(tiers := db.tiers + NewTiers(event, sections), stock := db.stock + NewStock(sections),
                seats := db.seats + NewSeats(event, |db.tiers|, TierRuns(sections)))
  {
    if sections == [] {
      assert db.tiers + [] == db.tiers && db.stock + [] == db.stock && db.seats + [] == db.seats;
      assert NewTiers(event, sections) == [] && NewStock(sections) == [] && NewSeats(event, |db.tiers|, TierRuns(sections)) == [];
    } else {
      var m := |sections| - 1;
      StepAddsTheLayout(db, event, sections[..m]);
      AddsLast(db, event, sections);
      NewLast(event, |db.tiers|, sections);
      hide T.AddSections, NewTiers, NewStock, NewSeats, Sized, TierRuns;
      AddsUp(db.tiers, NewTiers(event, sections[..m]), [Tier(event, Seated, sections[m].price)]);
      var count := TierOf(sections[m]).quantity;
      AddsUp(db.stock, NewStock(sections[..m]), [Stock(count, count, T.SEATED_MAX_PER_ORDER)]);
      AddsUp(db.seats, NewSeats(event, |db.tiers|, TierRuns(sections[..m])), seq(count, _ => Seat(event, |db.tiers| + m)));
    }
  }

  lemma AddsUp<X>(a: seq<X>, b: seq<X>, c: seq<X>)
    ensures (a + b) + c == a + (b + c)
  {
  }

  lemma NewLast(event: nat, base: nat, sections: seq<Section>)
    requires sections != []
    ensures var m := |sections| - 1; var count := TierOf(sections[m]).quantity;
      && |NewTiers(event, sections[..m])| == m
      && NewTiers(event, sections) == NewTiers(event, sections[..m]) + [Tier(event, Seated, sections[m].price)]
      && NewStock(sections) == NewStock(sections[..m]) + [Stock(count, count, T.SEATED_MAX_PER_ORDER)]
      && NewSeats(event, base, TierRuns(sections))
         == NewSeats(event, base, TierRuns(sections[..m])) + seq(count, _ => Seat(event, base + m))
  {
  }

  lemma AddsLast(db: Db, event: nat, sections: seq<Section>)
    requires sections != []
    ensures var m := |sections| - 1;
      T.AddSections(db, event, Sized(sections))
      == T.AddSection(T.AddSections(db, event, Sized(sections[..m])), event, sections[m].price, TierOf(sections[m]).quantity)
  {
    hide T.AddSection;
    assert Sized(sections)[..|sections| - 1] == Sized(sections[..|sections| - 1]);
  }

  // ---- creation ----

  method FillRow(sections: seq<Section>, seats0: seq<MapSeat>, ghost places0: seq<Place>, k: nat, r: nat)
    returns (seats: seq<MapSeat>, ghost places: seq<Place>)
    requires k < |sections| && r < sections[k].rows && Laid(sections, seats0, places0, (k, r, 0))
    ensures Laid(sections, seats, places, (k, r + 1, 0))
    ensures TiersOf(seats) == TiersOf(seats0) + Repeat(k, sections[k].cols)
    ensures forall t: nat :: Total(OfTier(t), seats) == Total(OfTier(t), seats0) + (if t == k then sections[k].cols else 0)
  {
    hide TiersOf, Repeat, Total, OfTier, Laid;
    seats, places := seats0, places0;
    var x, y := XOf(sections, k), YOf(sections, k);
    assert TiersOf(seats) == TiersOf(seats0) + Repeat(k, 0) by { NoneRepeated(k); }
    for c := 0 to sections[k].cols
      invariant Laid(sections, seats, places, (k, r, c))
      invariant TiersOf(seats) == TiersOf(seats0) + Repeat(k, c)
      invariant forall t: nat :: Total(OfTier(t), seats) == Total(OfTier(t), seats0) + (if t == k then c else 0)
    {
      var seat := MapSeat(Trim(sections[k].name), RowLabel(r), c + 1, x + c, y + r, k);
      LayNext(sections, seats, places, (k, r, c));
      TiersNext(seats, seat, TiersOf(seats0), k, c);
      forall t: nat ensures Total(OfTier(t), seats + [seat]) == Total(OfTier(t), seats) + (if t == k then 1 else 0) {
        TierAppend(seats, seat, t);
      }
      seats := seats + [seat];
      places := places + [(k, r, c)];
    }
    RowDone(sections, seats, places, k, r);
  }

  lemma TierAppend(seats: seq<MapSeat>, seat: MapSeat, t: nat)
    ensures Total(OfTier(t), seats + [seat]) == Total(OfTier(t), seats) + (if t == seat.tier then 1 else 0)
  {
  }

  lemma NoneRepeated(k: nat)
    ensures Repeat(k, 0) == []
  {
  }

  lemma RowDone(sections: seq<Section>, seats: seq<MapSeat>, places: seq<Place>, k: nat, r: nat)
    requires k < |sections| && Laid(sections, seats, places, (k, r, sections[k].cols))
    ensures Laid(sections, seats, places, (k, r + 1, 0))
  {
  }

  lemma SectionDone(sections: seq<Section>, seats: seq<MapSeat>, places: seq<Place>, k: nat)
    requires k < |sections| && Laid(sections, seats, places, (k, sections[k].rows, 0))
    ensures Laid(sections, seats, places, (k + 1, 0, 0))
  {
  }

  lemma LayNext(sections: seq<Section>, seats: seq<MapSeat>, places: seq<Place>, p: Place)
    requires InPlan(sections, p) && Laid(sections, seats, places, p)
    ensures Laid(sections, seats + [SeatOf(sections, p)], places + [p], (p.0, p.1, p.2 + 1))
  {
  }

  method FillSection(sections: seq<Section>, seats0: seq<MapSeat>, ghost places0: seq<Place>, k: nat)
    returns (seats: seq<MapSeat>, ghost places: seq<Place>)
    requires k < |sections| && Laid(sections, seats0, places0, (k, 0, 0))
    ensures Laid(sections, seats, places, (k + 1, 0, 0))
    ensures TiersOf(seats) == TiersOf(seats0) + Repeat(k, sections[k].rows * sections[k].cols)
    ensures forall t: nat ::
      Total(OfTier(t), seats) == Total(OfTier(t), seats0) + (if t == k then sections[k].rows * sections[k].cols else 0)
  {
    hide TiersOf, Repeat, Total, OfTier, Laid;
    seats, places := seats0, places0;
    assert TiersOf(seats) == TiersOf(seats0) + Repeat(k, 0) by { NoneRepeated(k); }
    for r := 0 to sections[k].rows
      invariant Laid(sections, seats, places, (k, r, 0))
      invariant TiersOf(seats) == TiersOf(seats0) + Repeat(k, r * sections[k].cols)
      invariant forall t: nat :: Total(OfTier(t), seats) == Total(OfTier(t), seats0) + (if t == k then r * sections[k].cols else 0)
    {
      RepeatMore(TiersOf(seats0), k, r * sections[k].cols, sections[k].cols);
      seats, places := FillRow(sections, seats, places, k, r);
    }
    SectionDone(sections, seats, places, k);
  }

  /** What the creation loop has made of the first `k` sections. */
  ghost predicate Built(sections: seq<Section>, k: nat, m: SeatMap, places: seq<Place>)
    requires k <= |sections|
  {
    && Laid(sections, m.seats, places, (k, 0, 0))
    && TiersOf(m.seats) == TierRuns(sections[..k])
    && (forall i | 0 <= i < k ::
          XOf(sections, i) + sections[i].cols <= m.maxCols && YOf(sections, i) + sections[i].rows <= m.totalRows)
    && (m.maxCols == 0 || exists i :: 0 <= i < k && m.maxCols == XOf(sections, i) + sections[i].cols)
    && (m.totalRows == 0 || exists i :: 0 <= i < k && m.totalRows == YOf(sections, i) + sections[i].rows)
    && |m.tiers| == k && (forall t: nat | t < k :: m.tiers[t] == TierOf(sections[t]))
    && (forall t: nat :: Total(OfTier(t), m.seats) == if t < k then sections[t].rows * sections[t].cols else 0)
  }

  lemma NothingBuilt(sections: seq<Section>, custom: bool)
    ensures Built(sections, 0, SeatMap(custom, [], [], 0, 0), [])
  {
  }

  lemma BuiltNext(sections: seq<Section>, k: nat, m: SeatMap, places: seq<Place>, m2: SeatMap, places2: seq<Place>)
    requires k < |sections| && Built(sections, k, m, places) && Laid(sections, m2.seats, places2, (k + 1, 0, 0))
    requires TiersOf(m2.seats) == TiersOf(m.seats) + Repeat(k, sections[k].rows * sections[k].cols)
    requires forall t: nat ::
      Total(OfTier(t), m2.seats) == Total(OfTier(t), m.seats) + (if t == k then sections[k].rows * sections[k].cols else 0)
    requires m2.tiers == m.tiers + [TierOf(sections[k])] && m.maxCols <= m2.maxCols && m.totalRows <= m2.totalRows
    requires XOf(sections, k) + sections[k].cols <= m2.maxCols && YOf(sections, k) + sections[k].rows <= m2.totalRows
    requires m2.maxCols in {m.maxCols, XOf(sections, k) + sections[k].cols}
    requires m2.totalRows in {m.totalRows, YOf(sections, k) + sections[k].rows}
    ensures Built(sections, k + 1, m2, places2)
  {
    hide Laid, TiersOf, Repeat, OfTier, Total, XOf, YOf, TierRuns, TierOf;
    RunsNext(sections, k);
  }

  /** The creation loop: `yCursor` runs down the sections that bring no row of their own. */
  method LayOut(sections: seq<Section>) returns (m: SeatMap, ghost places: seq<Place>)
    ensures Built(sections, |sections|, m, places)
    ensures m.custom <==> exists k :: 0 <= k < |sections| && sections[k].x.Some? && sections[k].y.Some?
  {
    hide Built, Laid, TiersOf, Repeat, OfTier, Total, TierRuns, TierOf;
    var custom := exists k :: 0 <= k < |sections| && sections[k].x.Some? && sections[k].y.Some?;
    var autoMaxCols := WidestCols(sections);
    var yCursor := 0;
    m, places := SeatMap(custom, [], [], 0, 0), [];
    NothingBuilt(sections, custom);
    for k := 0 to |sections|
      invariant yCursor == Cursor(sections, k) && m.custom == custom
      invariant Built(sections, k, m, places)
    {
      var section := sections[k];
      var x := match section.x case Some(x) => x case None => (autoMaxCols - section.cols) / 2;
      var y := match section.y case Some(y) => y case None => yCursor;
      BuiltLaid(sections, k, m, places);
      ghost var places0 := places;
      var seats;
      seats, places := FillSection(sections, m.seats, places, k);
      var grown := SeatMap(custom, seats, m.tiers + [TierOf(section)],
                           if m.maxCols < x + section.cols then x + section.cols else m.maxCols,
                           if m.totalRows < y + section.rows then y + section.rows else m.totalRows);
      BuiltNext(sections, k, m, places0, grown, places);
      m := grown;
      if section.y.None? {
        yCursor := y + section.rows + SECTION_GAP_ROWS;
      }
    }
  }

  lemma BuiltLaid(sections: seq<Section>, k: nat, m: SeatMap, places: seq<Place>)
    requires k <= |sections| && Built(sections, k, m, places)
    ensures Laid(sections, m.seats, places, (k, 0, 0))
  {
  }

  lemma BuiltParts(sections: seq<Section>, m: SeatMap, places: seq<Place>)
    requires Built(sections, |sections|, m, places)
    ensures Laid(sections, m.seats, places, (|sections|, 0, 0)) && TiersOf(m.seats) == TierRuns(sections) && |m.tiers| == |sections|
    ensures forall i | 0 <= i < |sections| ::
      XOf(sections, i) + sections[i].cols <= m.maxCols && YOf(sections, i) + sections[i].rows <= m.totalRows
    ensures forall t: nat | t < |sections| :: m.tiers[t].quantity == Total(OfTier(t), m.seats)
  {
    hide Laid, TiersOf, TierRuns, XOf, YOf, OfTier, Total, Trim;
    assert sections[..|sections|] == sections;
  }

  lemma AllStackedApart(sections: seq<Section>)
    requires forall k | 0 <= k < |sections| :: sections[k].y.None?
    ensures forall i, j | 0 <= i < j < |sections| :: !Overlap(sections, i, j)
  {
    hide Overlap, XOf, YOf;
    forall i, j | 0 <= i < j < |sections| ensures !Overlap(sections, i, j) {
      StackedApart(sections, i, j);
    }
  }

  /** What a finished layout promises. */
  lemma BuiltPromises(sections: seq<Section>, m: SeatMap, places: seq<Place>)
    requires IsRequest(sections) && DistinctNames(SectionNames(sections)) && Built(sections, |sections|, m, places)
    ensures UniqueSeats(m.seats)
    ensures forall a | 0 <= a < |m.seats| :: m.seats[a].x < m.maxCols && m.seats[a].y < m.totalRows
    ensures forall t: nat | t < |sections| :: t < |m.tiers| && m.tiers[t].quantity == Total(OfTier(t), m.seats)
    ensures UniqueCells(m.seats) <==> forall i, j | 0 <= i < j < |sections| :: !Overlap(sections, i, j)
    ensures (forall k | 0 <= k < |sections| :: sections[k].y.None?) ==> UniqueCells(m.seats)
    ensures TiersOf(m.seats) == TierRuns(sections) && |m.tiers| == |sections|
  {
    hide Built, Laid, UniqueSeats, UniqueCells, Overlap, DistinctNames, Trim, Total, OfTier, TiersOf, TierRuns, XOf, YOf, IsRequest;
    BuiltParts(sections, m, places);
    LaidUnique(sections, m.seats, places);
    CellsUniqueIffApart(sections, m.seats, places);
    LaidInside(sections, m.seats, places, m.maxCols, m.totalRows);
    if forall k | 0 <= k < |sections| :: sections[k].y.None? {
      AllStackedApart(sections);
    }
  }

  /** The whole transaction. `places` witnesses where each seat came from. */
  method Create(alreadyMapped: bool, sections: seq<Section>) returns (result: CreateResult, ghost places: seq<Place>)
    requires IsRequest(sections)
    ensures result.MapExists? <==> alreadyMapped
    ensures result.DuplicateTier? <==> !alreadyMapped && !DistinctNames(TierNames(sections))
    ensures result.DuplicateSection? <==>
      !alreadyMapped && DistinctNames(TierNames(sections)) && !DistinctNames(SectionNames(sections))
    ensures result.Created? ==> var m := result.layout;
      && Built(sections, |sections|, m, places)
      && (m.custom <==> exists k :: 0 <= k < |sections| && sections[k].x.Some? && sections[k].y.Some?)
      && UniqueSeats(m.seats)
      && (forall a | 0 <= a < |m.seats| :: m.seats[a].x < m.maxCols && m.seats[a].y < m.totalRows)
      && |m.tiers| == |sections|
      && (forall t: nat | t < |sections| :: m.tiers[t].quantity == Total(OfTier(t), m.seats))
      && (UniqueCells(m.seats) <==> forall i, j | 0 <= i < j < |sections| :: !Overlap(sections, i, j))
      && ((forall k | 0 <= k < |sections| :: sections[k].y.None?) ==> UniqueCells(m.seats))
  {
    hide Built, Laid, UniqueSeats, UniqueCells, Overlap, DistinctNames, Trim, Total, OfTier, TiersOf, TierRuns;
    if alreadyMapped {
      return MapExists, [];
    }
    var distinct := AreDistinct(TierNames(sections));
    if !distinct {
      return DuplicateTier, [];
    }
    distinct := AreDistinct(SectionNames(sections));
    if !distinct {
      return DuplicateSection, [];
    }
    var m;
    m, places := LayOut(sections);
    BuiltPromises(sections, m, places);
    return Created(m), places;
  }

  method AreDistinct(names: seq<string>) returns (distinct: bool)
    ensures distinct <==> DistinctNames(names)
  {
    var seen: set<string> := {};
    for k := 0 to |names|
      invariant forall n :: n in seen <==> exists i :: 0 <= i < k && names[i] == n
      invariant forall i, j | 0 <= i < j < k :: names[i] != names[j]
    {
      if names[k] in seen {
        return false;
      }
      seen := seen + {names[k]};
    }
    return true;
  }
}
