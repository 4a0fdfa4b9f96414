/** The outbox: events written with their transaction, claimed by bumping `attempts`, marked when handled.
    Any number of dispatchers run at once, interleaved statement by statement. */
module Outbox {
  import opened Sums

  const MAX_ATTEMPTS: nat := 8
  const BATCH_SIZE: nat := 50

  datatype Row = Row(attempts: nat, processed: bool)

  predicate IsPending(row: Row) {
    !row.processed && row.attempts < MAX_ATTEMPTS
  }

  /** The first pending rows in creation order, each with the attempts value it was read with. */
  function ReadBatch(rows: seq<Row>, n: nat): (batch: seq<(nat, nat)>)
    requires n <= |rows|
    ensures |batch| <= BATCH_SIZE
    ensures forall k | 0 <= k < |batch| ::
      batch[k].0 < n && IsPending(rows[batch[k].0]) && batch[k].1 == rows[batch[k].0].attempts
    ensures forall i, j | 0 <= i < j < |batch| :: batch[i].0 < batch[j].0
    ensures |batch| < BATCH_SIZE ==> forall r | 0 <= r < n && IsPending(rows[r]) :: (r, rows[r].attempts) in batch
  {
    if n == 0 then []
    else
      var before := ReadBatch(rows, n - 1);
      if IsPending(rows[n - 1]) && |before| < BATCH_SIZE then before + [(n - 1, rows[n - 1].attempts)] else before
  }

  /** Row `r` is in the batch, or the batch is full of earlier ones. */
  ghost predicate Served(rows: seq<Row>, r: nat, batch: seq<(nat, nat)>)
    requires r < |rows|
  {
    (r, rows[r].attempts) in batch || (|batch| == 50 && forall k | 0 <= k < |batch| :: batch[k].0 < r)
  }

  /** At most fifty, and no unprocessed row with fewer than eight attempts is passed over for a later one. */
  lemma {:induction false} BatchIsFirst(rows: seq<Row>, n: nat)
    requires n <= |rows|
    ensures |ReadBatch(rows, n)| <= 50
    ensures forall r | 0 <= r < n && !rows[r].processed && rows[r].attempts < 8 :: Served(rows, r, ReadBatch(rows, n))
  {
    if n > 0 {
      BatchIsFirst(rows, n - 1);
      var before, batch := ReadBatch(rows, n - 1), ReadBatch(rows, n);
      assert before <= batch && (|before| == 50 ==> batch == before);
      assert IsPending(rows[n - 1]) && |before| < 50 ==> batch[|before|] == (n - 1, rows[n - 1].attempts);
      assert |before| == 50 ==> forall k | 0 <= k < 50 :: before[k].0 < n - 1;
      hide ReadBatch;
      forall r | 0 <= r < n && !rows[r].processed && rows[r].attempts < 8 ensures Served(rows, r, batch) {
        if r < n - 1 {
          assert Served(rows, r, before);
        }
      }
    }
  }

  // ---- many dispatchers ----

  /** Where one dispatcher stands; `rest` is what it has still to look at. */
  datatype Dispatcher =
    | Idle
    | Looping(rest: seq<(nat, nat)>)
    | Handling(row: nat, rest: seq<(nat, nat)>)
    | Marking(row: nat, rest: seq<(nat, nat)>)

  /** `wins` records every successful claim with the attempts value it compared, `returned` every handler
      run that came back without an error. */
  datatype System = System(rows: seq<Row>, dispatchers: seq<Dispatcher>, wins: seq<(nat, nat)>, returned: seq<nat>)

  datatype Action =
    | Write
    | StartDispatcher
    | Read(d: nat)
    | Claim(d: nat)
    | HandlerReturns(d: nat)
    | HandlerFails(d: nat)
    | Mark(d: nat)

  ghost predicate Initial(s: System) {
    s == System([], [], [], [])
  }

  function Advance(rest: seq<(nat, nat)>): Dispatcher {
    if rest == [] then Idle else Looping(rest)
  }

  function Next(s: System, a: Action): System {
    match a
    case Write => s.(rows := s.rows + [Row(0, false)])
    case StartDispatcher => s.(dispatchers := s.dispatchers + [Idle])
    case Read(d) =>
      if d < |s.dispatchers| && s.dispatchers[d].Idle?
      then s.(dispatchers := s.dispatchers[d := Advance(ReadBatch(s.rows, |s.rows|))]) else s
    case Claim(d) =>
      if !(d < |s.dispatchers| && s.dispatchers[d].Looping? && s.dispatchers[d].rest != []) then s
      else
        var (r, attempts) := s.dispatchers[d].rest[0];
        var rest := s.dispatchers[d].rest[1..];
        if r < |s.rows| && !s.rows[r].processed && s.rows[r].attempts == attempts
        then s.(rows := s.rows[r := s.rows[r].(attempts := attempts + 1)],
                dispatchers := s.dispatchers[d := Handling(r, rest)],
                wins := s.wins + [(r, attempts)])
        else s.(dispatchers := s.dispatchers[d := Advance(rest)])
    case HandlerReturns(d) =>
      if d < |s.dispatchers| && s.dispatchers[d].Handling?
      then s.(dispatchers := s.dispatchers[d := Marking(s.dispatchers[d].row, s.dispatchers[d].rest)],
              returned := s.returned + [s.dispatchers[d].row]) else s
    case HandlerFails(d) =>
      if d < |s.dispatchers| && s.dispatchers[d].Handling?
      then s.(dispatchers := s.dispatchers[d := Advance(s.dispatchers[d].rest)]) else s
    case Mark(d) =>
      if d < |s.dispatchers| && s.dispatchers[d].Marking? && s.dispatchers[d].row < |s.rows|
      then s.(rows := s.rows[s.dispatchers[d].row := s.rows[s.dispatchers[d].row].(processed := true)],
              dispatchers := s.dispatchers[d := Advance(s.dispatchers[d].rest)]) else s
  }

  function Run(s: System, schedule: seq<Action>): System {
    if schedule == [] then s else Next(Run(s, schedule[..|schedule| - 1]), schedule[|schedule| - 1])
  }

  // ---- what every interleaving keeps ----

  ghost predicate BatchOk(rest: seq<(nat, nat)>) {
    forall k | 0 <= k < |rest| :: rest[k].1 < MAX_ATTEMPTS
  }

  ghost predicate DispatcherOk(s: System, d: Dispatcher) {
    match d
    case Idle => true
    case Looping(rest) => BatchOk(rest)
    case Handling(r, rest) => BatchOk(rest) && r < |s.rows|
    case Marking(r, rest) => BatchOk(rest) && r < |s.rows| && r in s.returned
  }

  /** Every attempts value a row has passed was won exactly once, and none beyond. */
  ghost predicate WinsOk(s: System) {
    && (forall i | 0 <= i < |s.wins| :: s.wins[i].0 < |s.rows| && s.wins[i].1 < s.rows[s.wins[i].0].attempts)
    && (forall i, j | 0 <= i < j < |s.wins| :: s.wins[i] != s.wins[j])
    && (forall r, a: nat | 0 <= r < |s.rows| && a < s.rows[r].attempts :: (r, a) in s.wins)
  }

  ghost predicate SystemOk(s: System) {
    && WinsOk(s)
    && (forall r | 0 <= r < |s.rows| :: s.rows[r].attempts <= MAX_ATTEMPTS)
    && (forall r | 0 <= r < |s.rows| && s.rows[r].processed :: r in s.returned)
    && (forall d | 0 <= d < |s.dispatchers| :: DispatcherOk(s, s.dispatchers[d]))
  }

  lemma ClaimKeeps(s: System, d: nat)
    requires SystemOk(s)
    ensures SystemOk(Next(s, Claim(d)))
  {
    if d < |s.dispatchers| && s.dispatchers[d].Looping? && s.dispatchers[d].rest != [] {
      assert DispatcherOk(s, s.dispatchers[d]);
      var (r, attempts) := s.dispatchers[d].rest[0];
      var after := Next(s, Claim(d));
      if r < |s.rows| && !s.rows[r].processed && s.rows[r].attempts == attempts {
        assert (r, attempts) !in s.wins;
        assert after.wins[|s.wins|] == (r, attempts);
        forall q, a: nat | 0 <= q < |after.rows| && a < after.rows[q].attempts ensures (q, a) in after.wins {
          if !(q == r && a == attempts) {
            assert (q, a) in s.wins;
          }
        }
      }
      forall e | 0 <= e < |after.dispatchers| ensures DispatcherOk(after, after.dispatchers[e]) {
        assert DispatcherOk(s, s.dispatchers[e]);
      }
    }
  }

  lemma StepKeeps(s: System, a: Action)
    requires SystemOk(s)
    ensures SystemOk(Next(s, a))
  {
    if a.Claim? {
      ClaimKeeps(s, a.d);
    } else {
      var after := Next(s, a);
      forall e | 0 <= e < |after.dispatchers| ensures DispatcherOk(after, after.dispatchers[e]) {
        if e < |s.dispatchers| {
          assert DispatcherOk(s, s.dispatchers[e]);
        }
      }
      if a.Mark? && a.d < |s.dispatchers| {
        assert DispatcherOk(s, s.dispatchers[a.d]);
      }
    }
  }

  lemma {:induction false} RunKeeps(s: System, schedule: seq<Action>)
    requires SystemOk(s)
    ensures SystemOk(Run(s, schedule))
  {
    if schedule != [] {
      RunKeeps(s, schedule[..|schedule| - 1]);
      StepKeeps(Run(s, schedule[..|schedule| - 1]), schedule[|schedule| - 1]);
    }
  }

  ghost function WinsFor(r: nat): (nat, (nat, nat)) -> int {
    (k: nat, win: (nat, nat)) => if win.0 == r then 1 else 0
  }

  /** Distinct numbers below `n`, all of them present, number exactly `n`. */
  lemma {:induction false} WinsCount(wins: seq<(nat, nat)>, r: nat, n: nat)
    requires forall i | 0 <= i < |wins| && wins[i].0 == r :: wins[i].1 < n
    requires forall i, j | 0 <= i < j < |wins| :: wins[i] != wins[j]
    requires forall a: nat | a < n :: (r, a) in wins
    ensures Total(WinsFor(r), wins) == n
  {
    var at := TotalCounts(WinsFor(r), wins);
    hide Total;
    assert forall i | i in at :: i < |wins| && wins[i].0 == r;
    var valueOf := map i | i in at :: wins[i].1;
    forall x, y | x in at && y in at && x != y ensures valueOf[x] != valueOf[y] {
      assert wins[x] != wins[y];
    }
    Pigeonhole(at, Below(n), valueOf);
    WinsReach(wins, r, n, at);
  }

  lemma WinsReach(wins: seq<(nat, nat)>, r: nat, n: nat, at: set<nat>)
    requires forall i: nat :: i < |wins| && wins[i].0 == r ==> i in at
    requires forall a: nat | a < n :: (r, a) in wins
    ensures n <= |at|
  {
    var winOf := map a | a in Below(n) :: WinAt(wins, r, a);
    forall x, y | x in Below(n) && y in Below(n) && x != y ensures winOf[x] != winOf[y] {
      assert wins[winOf[x]] == (r, x) && wins[winOf[y]] == (r, y);
    }
    Pigeonhole(Below(n), at, winOf);
  }

  /** The numbers below `n`. */
  ghost function Below(n: nat): (values: set<nat>)
    ensures |values| == n && forall a: nat :: a in values <==> a < n
  {
    if n == 0 then {} else Below(n - 1) + {n - 1}
  }

  ghost function WinAt(wins: seq<(nat, nat)>, r: nat, a: nat): (i: nat)
    requires (r, a) in wins
    ensures i < |wins| && wins[i] == (r, a)
  {
    var i :| 0 <= i < |wins| && wins[i] == (r, a);
    i
  }

  /** However many dispatchers interleave, statement by statement: each attempts value of a row is won at
      most once; a row's handler is started exactly `attempts` times and never more than eight; a row is
      marked only after a run of its handler returned. */
  lemma ClaimsAreExclusive(schedule: seq<Action>)
    ensures var s := Run(System([], [], [], []), schedule);
      && (forall i, j | 0 <= i < j < |s.wins| :: s.wins[i] != s.wins[j])
      && (forall r: nat | r < |s.rows| :: Total(WinsFor(r), s.wins) == s.rows[r].attempts <= 8)
      && (forall r | 0 <= r < |s.rows| && s.rows[r].processed :: r in s.returned)
  {
    RunKeeps(System([], [], [], []), schedule);
    var s := Run(System([], [], [], []), schedule);
    hide Run;
    forall r: nat | r < |s.rows| ensures Total(WinsFor(r), s.wins) == s.rows[r].attempts {
      WinsCount(s.wins, r, s.rows[r].attempts);
    }
  }

  lemma ProcessedStep(s: System, a: Action, r: nat)
    requires r < |s.rows| && s.rows[r].processed
    ensures r < |Next(s, a).rows| && Next(s, a).rows[r] == s.rows[r]
    ensures Total(WinsFor(r), Next(s, a).wins) == Total(WinsFor(r), s.wins)
  {
    var after := Next(s, a);
    if a.Claim? && after.wins != s.wins {
      TotalAppend(WinsFor(r), s.wins, after.wins[|s.wins|]);
    }
  }

  /** The claim compares `attempts` and asks that the row is not processed, so a processed row keeps its
      attempts and its mark for ever: no dispatcher runs its handler again. */
  lemma {:induction false} ProcessedIsFinal(s: System, schedule: seq<Action>, r: nat)
    requires r < |s.rows| && s.rows[r].processed
    ensures r < |Run(s, schedule).rows| && Run(s, schedule).rows[r] == s.rows[r]
    ensures Total(WinsFor(r), Run(s, schedule).wins) == Total(WinsFor(r), s.wins)
  {
    hide Next;
    if schedule != [] {
      var m := |schedule| - 1;
      ProcessedIsFinal(s, schedule[..m], r);
      ProcessedStep(Run(s, schedule[..m]), schedule[m], r);
    }
  }

  ghost predicate Marks(s: System, a: Action, r: nat) {
    a.Mark? && a.d < |s.dispatchers| && s.dispatchers[a.d].Marking? && s.dispatchers[a.d].row == r
  }

  /** Step `n` marks row `r`. */
  ghost predicate MarksAt(schedule: seq<Action>, n: nat, r: nat) {
    n < |schedule| && Marks(Run(START, schedule[..n]), schedule[n], r)
  }

  lemma MarkStep(s: System, a: Action, r: nat)
    requires SystemOk(s)
    ensures r < |Next(s, a).rows| && Next(s, a).rows[r].processed
            <==> (r < |s.rows| && s.rows[r].processed) || Marks(s, a, r)
  {
    hide ReadBatch;
    if a.Mark? && a.d < |s.dispatchers| {
      assert DispatcherOk(s, s.dispatchers[a.d]);
    }
  }

  lemma NothingYet()
    ensures SystemOk(START)
  {
  }

  lemma MarksStep(schedule: seq<Action>, r: nat)
    requires schedule != []
    ensures var m := |schedule| - 1;
      (exists n :: MarksAt(schedule, n, r))
      <==> (exists n :: MarksAt(schedule[..m], n, r)) || Marks(Run(START, schedule[..m]), schedule[m], r)
  {
    hide Run, Marks;
    var m := |schedule| - 1;
    if n: nat :| MarksAt(schedule[..m], n, r) {
      assert schedule[..m][..n] == schedule[..n];
      assert MarksAt(schedule, n, r);
    }
    if n: nat :| MarksAt(schedule, n, r) {
      if n < m {
        assert schedule[..m][..n] == schedule[..n];
        assert MarksAt(schedule[..m], n, r);
      }
    }
    if Marks(Run(START, schedule[..m]), schedule[m], r) {
      assert MarksAt(schedule, m, r);
    }
  }

  /** A row is marked processed exactly when some dispatcher whose handler run came back went on to mark it. */
  lemma {:induction false} ProcessedIffMarked(schedule: seq<Action>, r: nat)
    ensures var s := Run(START, schedule);
      r < |s.rows| && s.rows[r].processed <==> exists n :: MarksAt(schedule, n, r)
  {
    if schedule != [] {
      var m := |schedule| - 1;
      hide SystemOk, Next, Marks, MarksAt;
      NothingYet();
      RunKeeps(START, schedule[..m]);
      ProcessedIffMarked(schedule[..m], r);
      MarkStep(Run(START, schedule[..m]), schedule[m], r);
      MarksStep(schedule, r);
    }
  }

  // ---- handlers beside one another ----

  const START: System := System([], [], [], [])

  ghost predicate Running(s: System, d: nat, r: nat) {
    d < |s.dispatchers| && s.dispatchers[d].Handling? && s.dispatchers[d].row == r
  }

  ghost predicate Overlap(s: System, r: nat) {
    exists d: nat, e: nat :: d != e && Running(s, d, r) && Running(s, e, r)
  }

  /** The claim of dispatcher `d` comes to row `r`, unprocessed and still at the attempts value read. */
  ghost predicate WinsRow(s: System, d: nat, r: nat) {
    && d < |s.dispatchers| && s.dispatchers[d].Looping? && s.dispatchers[d].rest != [] && s.dispatchers[d].rest[0].0 == r
    && r < |s.rows| && !s.rows[r].processed && s.rows[r].attempts == s.dispatchers[d].rest[0].1
  }

  /** A step puts dispatcher `d` beside a dispatcher `e` that handles row `r` if and only if it is a claim of `d`
      that wins the row: the row is unprocessed and its attempts are those `d` read. */
  lemma StartsBesideIff(s: System, a: Action, d: nat, e: nat, r: nat)
    requires d != e
    ensures Running(Next(s, a), d, r) && Running(Next(s, a), e, r) && !Running(s, d, r)
            <==> a == Claim(d) && WinsRow(s, d, r) && Running(s, e, r)
  {
    hide ReadBatch;
  }

  /** At step `n` a claim wins row `r` while dispatcher `e` handles it. */
  ghost predicate WinsBeside(schedule: seq<Action>, n: nat, e: nat, r: nat) {
    && n < |schedule| && schedule[n].Claim? && e != schedule[n].d
    && WinsRow(Run(START, schedule[..n]), schedule[n].d, r) && Running(Run(START, schedule[..n]), e, r)
  }

  /** Two dispatchers come to handle row `r` at once if and only if one wins the row while another handles it. */
  lemma {:induction false} OverlapIffWonBeside(schedule: seq<Action>, r: nat)
    ensures (exists n :: 0 <= n <= |schedule| && Overlap(Run(START, schedule[..n]), r))
            <==> exists n, e :: WinsBeside(schedule, n, e, r)
  {
    hide Run, Next, WinsRow, Running;
        if n :| 0 <= n <= |schedule| && Overlap(Run(START, schedule[..n]), r) {
      var d: nat, e: nat :| d != e && Running(Run(START, schedule[..n]), d, r) && Running(Run(START, schedule[..n]), e, r);
      var k, other := FirstOverlap(schedule, n, d, e, r);
    }
    if n: nat, e: nat :| WinsBeside(schedule, n, e, r) {
      WonIsRunning(Run(START, schedule[..n]), schedule[n].d, e, r);
      RunNext(START, schedule, n);
    }
  }

  lemma WonIsRunning(s: System, d: nat, e: nat, r: nat)
    requires d != e && WinsRow(s, d, r) && Running(s, e, r)
    ensures Overlap(Next(s, Claim(d)), r)
  {
    assert Running(Next(s, Claim(d)), d, r) && Running(Next(s, Claim(d)), e, r);
  }

  lemma {:induction false} FirstOverlap(schedule: seq<Action>, n: nat, d: nat, e: nat, r: nat) returns (k: nat, other: nat)
    requires n <= |schedule| && d != e
    requires Running(Run(START, schedule[..n]), d, r) && Running(Run(START, schedule[..n]), e, r)
    ensures WinsBeside(schedule, k, other, r)
  {
    assert n > 0;
    hide Run, Next, WinsRow, Running;
    var before := Run(START, schedule[..n - 1]);
    RunNext(START, schedule, n - 1);
    StartsBesideIff(before, schedule[n - 1], d, e, r);
    StartsBesideIff(before, schedule[n - 1], e, d, r);
    if Running(before, d, r) && Running(before, e, r) {
      k, other := FirstOverlap(schedule, n - 1, d, e, r);
    } else {
      k, other := n - 1, if Running(before, e, r) then e else d;
    }
  }

  function RestOf(d: Dispatcher): seq<(nat, nat)> {
    if d.Idle? then [] else d.rest
  }

  /** Every entry a dispatcher carries was read at an attempts value its row has reached. */
  ghost predicate EntriesOk(s: System) {
    forall d, k | 0 <= d < |s.dispatchers| && 0 <= k < |RestOf(s.dispatchers[d])| ::
      var entry := RestOf(s.dispatchers[d])[k];
      entry.0 < |s.rows| && entry.1 <= s.rows[entry.0].attempts
  }

  /** Rows are never removed and their attempts never fall. */
  lemma RowsForward(s: System, a: Action)
    ensures |s.rows| <= |Next(s, a).rows|
    ensures forall r | 0 <= r < |s.rows| :: s.rows[r].attempts <= Next(s, a).rows[r].attempts
  {
    hide ReadBatch;
    if a.Claim? && a.d < |s.dispatchers| && s.dispatchers[a.d].Looping? && s.dispatchers[a.d].rest != [] {
      var r := s.dispatchers[a.d].rest[0].0;
      assert |Next(s, a).rows| == |s.rows|;
    }
  }

  /** A dispatcher's entries change only by being used up from the front or by a read. */
  lemma RestStep(s: System, a: Action, d: nat)
    requires d < |Next(s, a).dispatchers|
    ensures var rest := RestOf(Next(s, a).dispatchers[d]);
      if d >= |s.dispatchers| then rest == []
      else if a == Read(d) && s.dispatchers[d].Idle? then rest == ReadBatch(s.rows, |s.rows|)
      else rest == RestOf(s.dispatchers[d])
           || (RestOf(s.dispatchers[d]) != [] && rest == RestOf(s.dispatchers[d])[1..])
  {
    hide ReadBatch;
  }

  lemma EntriesStep(s: System, a: Action)
    requires EntriesOk(s)
    ensures EntriesOk(Next(s, a))
  {
    RowsForward(s, a);
    var after := Next(s, a);
    hide Next, ReadBatch, RestOf;
    forall d, k | 0 <= d < |after.dispatchers| && 0 <= k < |RestOf(after.dispatchers[d])|
      ensures var entry := RestOf(after.dispatchers[d])[k];
        entry.0 < |after.rows| && entry.1 <= after.rows[entry.0].attempts
    {
      RestStep(s, a, d);
      if !(a == Read(d) && s.dispatchers[d].Idle?) {
        var entry := RestOf(after.dispatchers[d])[k];
        assert entry == RestOf(s.dispatchers[d])[k] || entry == RestOf(s.dispatchers[d])[k + 1];
      }
    }
  }

  lemma {:induction false} EntriesRun(s: System, schedule: seq<Action>)
    requires EntriesOk(s)
    ensures EntriesOk(Run(s, schedule))
  {
    hide Next, EntriesOk;
    if schedule != [] {
      var m := |schedule| - 1;
      EntriesRun(s, schedule[..m]);
      EntriesStep(Run(s, schedule[..m]), schedule[m]);
    }
  }

  /** What dispatcher `d` still carries for row `r` was read before the row's last claim. */
  ghost predicate Behind(s: System, d: nat, r: nat) {
    d < |s.dispatchers| && r < |s.rows| ==>
      forall k | 0 <= k < |RestOf(s.dispatchers[d])| && RestOf(s.dispatchers[d])[k].0 == r ::
        RestOf(s.dispatchers[d])[k].1 < s.rows[r].attempts
  }

  ghost predicate ReadsRow(s: System, d: nat, r: nat) {
    && d < |s.dispatchers| && s.dispatchers[d].Idle?
    && exists k :: 0 <= k < |ReadBatch(s.rows, |s.rows|)| && ReadBatch(s.rows, |s.rows|)[k].0 == r
  }

  /** A dispatcher stays behind until it reads the row again. */
  lemma StaysBehind(s: System, a: Action, d: nat, r: nat)
    requires EntriesOk(s) && Behind(s, d, r) && !(a == Read(d) && ReadsRow(s, d, r))
    ensures Behind(Next(s, a), d, r)
  {
    RowsForward(s, a);
    var after := Next(s, a);
    hide Next, ReadBatch, RestOf;
    if d < |after.dispatchers| && r < |after.rows| {
      RestStep(s, a, d);
      forall k | 0 <= k < |RestOf(after.dispatchers[d])| && RestOf(after.dispatchers[d])[k].0 == r
        ensures RestOf(after.dispatchers[d])[k].1 < after.rows[r].attempts
      {
        var entry := RestOf(after.dispatchers[d])[k];
        assert entry == RestOf(s.dispatchers[d])[k] || entry == RestOf(s.dispatchers[d])[k + 1];
      }
    }
  }

  /** A dispatcher that starts on a row leaves every other one behind. */
  lemma LeavesBehind(s: System, a: Action, d: nat, e: nat, r: nat)
    requires EntriesOk(s) && d != e && !Running(s, e, r) && Running(Next(s, a), e, r)
    ensures Behind(Next(s, a), d, r)
  {
    hide ReadBatch;
    assert a == Claim(e) && WinsRow(s, e, r);
    hide EntriesOk;
    assert EntriesOk(s);
    if d < |s.dispatchers| {
      EntryReached(s, d, r);
    }
  }

  lemma EntryReached(s: System, d: nat, r: nat)
    requires EntriesOk(s) && d < |s.dispatchers| && r < |s.rows|
    ensures forall k | 0 <= k < |RestOf(s.dispatchers[d])| && RestOf(s.dispatchers[d])[k].0 == r ::
      RestOf(s.dispatchers[d])[k].1 <= s.rows[r].attempts
  {
  }

  /** Dispatcher `d` read row `r` at a moment since which `e` has been handling it without a break. */
  ghost predicate ReadDuring(schedule: seq<Action>, d: nat, e: nat, r: nat) {
    exists m :: 0 <= m < |schedule| && schedule[m] == Read(d)
      && ReadsRow(Run(START, schedule[..m]), d, r) && HandlesSince(schedule, m, e, r)
  }

  ghost predicate HandlesSince(schedule: seq<Action>, m: nat, e: nat, r: nat) {
    forall k | m <= k <= |schedule| :: Running(Run(START, schedule[..k]), e, r)
  }

  lemma HandlesOn(schedule: seq<Action>, a: Action, m: nat, e: nat, r: nat)
    requires m <= |schedule| && HandlesSince(schedule, m, e, r)
    requires Running(Run(START, schedule + [a]), e, r)
    ensures HandlesSince(schedule + [a], m, e, r)
  {
    hide Run, Running;
    forall k | m <= k <= |schedule| + 1
      ensures Running(Run(START, (schedule + [a])[..k]), e, r)
    {
      if k <= |schedule| {
        assert (schedule + [a])[..k] == schedule[..k];
      } else {
        assert (schedule + [a])[..k] == schedule + [a];
      }
    }
  }

  lemma ReadDuringOn(schedule: seq<Action>, a: Action, d: nat, e: nat, r: nat)
    requires ReadDuring(schedule, d, e, r) && Running(Run(START, schedule + [a]), e, r)
    ensures ReadDuring(schedule + [a], d, e, r)
  {
    hide Run, Running, ReadsRow, HandlesSince;
    var m :| 0 <= m < |schedule| && schedule[m] == Read(d)
             && ReadsRow(Run(START, schedule[..m]), d, r) && HandlesSince(schedule, m, e, r);
    HandlesOn(schedule, a, m, e, r);
    assert (schedule + [a])[..m] == schedule[..m];
  }

  lemma ReadDuringNow(schedule: seq<Action>, d: nat, e: nat, r: nat)
    requires ReadsRow(Run(START, schedule), d, r) && Running(Run(START, schedule), e, r)
    requires Running(Run(START, schedule + [Read(d)]), e, r)
    ensures ReadDuring(schedule + [Read(d)], d, e, r)
  {
    hide Run, Running, ReadsRow, HandlesSince;
    assert schedule[..|schedule|] == schedule && (schedule + [Read(d)])[..|schedule|] == schedule;
    HandlesNow(schedule, e, r);
    HandlesOn(schedule, Read(d), |schedule|, e, r);
  }

  lemma HandlesNow(schedule: seq<Action>, e: nat, r: nat)
    requires Running(Run(START, schedule), e, r)
    ensures HandlesSince(schedule, |schedule|, e, r)
  {
    hide Run, Running;
    assert schedule[..|schedule|] == schedule;
  }

  /** While `e` handles row `r`, another dispatcher is behind on it unless it read the row during that run. */
  lemma {:induction false} BehindUnlessReadDuring(schedule: seq<Action>, d: nat, e: nat, r: nat)
    requires d != e && Running(Run(START, schedule), e, r)
    ensures Behind(Run(START, schedule), d, r) || ReadDuring(schedule, d, e, r)
  {
        if schedule != [] {
      var m := |schedule| - 1;
      var s := Run(START, schedule[..m]);
      assert EntriesOk(START);
      hide Next, EntriesOk, Behind, ReadDuring, ReadsRow, Running;
      EntriesRun(START, schedule[..m]);
      assert schedule == schedule[..m] + [schedule[m]];
      if Running(s, e, r) {
        BehindUnlessReadDuring(schedule[..m], d, e, r);
        if ReadDuring(schedule[..m], d, e, r) {
          ReadDuringOn(schedule[..m], schedule[m], d, e, r);
        } else if schedule[m] == Read(d) && ReadsRow(s, d, r) {
          ReadDuringNow(schedule[..m], d, e, r);
        } else {
          StaysBehind(s, schedule[m], d, r);
        }
      } else {
        LeavesBehind(s, schedule[m], d, e, r);
      }
    }
  }

  lemma WinnerNotBehind(s: System, d: nat, r: nat)
    requires WinsRow(s, d, r)
    ensures !Behind(s, d, r)
  {
    assert RestOf(s.dispatchers[d])[0].0 == r;
  }

  /** Two dispatchers handle a row at once only if one of them read the row while the other was handling it:
      dispatchers whose passes read before any of them claimed the row never meet on it. */
  lemma {:induction false} OverlapNeedsReadDuring(schedule: seq<Action>, d: nat, e: nat, r: nat)
    requires d != e
    requires Running(Run(START, schedule), d, r) && Running(Run(START, schedule), e, r)
    ensures ReadDuring(schedule, d, e, r) || ReadDuring(schedule, e, d, r)
  {
        assert schedule != [];
    var m := |schedule| - 1;
    var s := Run(START, schedule[..m]);
    assert Run(START, schedule) == Next(s, schedule[m]);
    assert schedule == schedule[..m] + [schedule[m]];
    hide Run, Next, Behind, ReadDuring, Running, WinsRow;
    StartsBesideIff(s, schedule[m], d, e, r);
    StartsBesideIff(s, schedule[m], e, d, r);
    if Running(s, d, r) && Running(s, e, r) {
      OverlapNeedsReadDuring(schedule[..m], d, e, r);
    } else if Running(s, e, r) {
      WinnerNotBehind(s, d, r);
      BehindUnlessReadDuring(schedule[..m], d, e, r);
    } else {
      WinnerNotBehind(s, e, r);
      BehindUnlessReadDuring(schedule[..m], e, d, r);
    }
    if ReadDuring(schedule[..m], d, e, r) {
      ReadDuringOn(schedule[..m], schedule[m], d, e, r);
    } else {
      ReadDuringOn(schedule[..m], schedule[m], e, d, r);
    }
  }

  /** Exclusive claims are not exclusive handling: a dispatcher that reads a row while another is still
      handling it compares the bumped value, wins the next claim and runs the handler beside the first. */
  lemma HandlersMayOverlap()
    ensures var s := Run(System([], [], [], []), [Write, StartDispatcher, StartDispatcher, Read(0), Claim(0), Read(1), Claim(1)]);
      && |s.dispatchers| == 2 && s.dispatchers[0] == Handling(0, []) && s.dispatchers[1] == Handling(0, [])
      && s.wins == [(0, 0), (0, 1)]
  {
    var s0 := System([], [], [], []);
    var schedule := [Write, StartDispatcher, StartDispatcher, Read(0), Claim(0), Read(1), Claim(1)];
    FirstDispatcherReads(s0, schedule, System([Row(0, false)], [Looping([(0, 0)]), Idle], [], []));
    SecondDispatcherReads();
    hide Run, Next;
    RunNext(s0, schedule, 4);
    RunNext(s0, schedule, 5);
    RunNext(s0, schedule, 6);
    assert schedule[..7] == schedule;
  }

  lemma SecondDispatcherReads()
    ensures var claimed := System([Row(1, false)], [Handling(0, []), Idle], [(0, 0)], []);
      var read := System([Row(1, false)], [Handling(0, []), Looping([(0, 1)])], [(0, 0)], []);
      && Next(System([Row(0, false)], [Looping([(0, 0)]), Idle], [], []), Claim(0)) == claimed
      && Next(claimed, Read(1)) == read
      && Next(read, Claim(1)) == System([Row(2, false)], [Handling(0, []), Handling(0, [])], [(0, 0), (0, 1)], [])
  {
    hide ReadBatch;
    OnePending(Row(1, false));
    var first, second: seq<(nat, nat)> := [(0, 0)], [(0, 1)];
    assert first[1..] == [] && second[1..] == [];
    assert first + second == [(0, 0), (0, 1)];
    assert [Row(0, false)][0 := Row(1, false)] == [Row(1, false)] && [Row(1, false)][0 := Row(2, false)] == [Row(2, false)];
    assert [Looping(first), Idle][0 := Handling(0, [])] == [Handling(0, []), Idle];
    assert [Handling(0, []), Idle][1 := Looping(second)] == [Handling(0, []), Looping(second)];
    assert [Handling(0, []), Looping(second)][1 := Handling(0, [])] == [Handling(0, []), Handling(0, [])];
  }

  lemma FirstDispatcherReads(s0: System, schedule: seq<Action>, read0: System)
    requires s0 == System([], [], [], []) && |schedule| >= 4
    requires schedule[0] == Write && schedule[1] == StartDispatcher && schedule[2] == StartDispatcher && schedule[3] == Read(0)
    requires read0 == System([Row(0, false)], [Looping([(0, 0)]), Idle], [], [])
    ensures Run(s0, schedule[..4]) == read0
  {
    assert Run(s0, schedule[..0]) == s0;
    FirstSteps();
    hide Run, Next;
    RunNext(s0, schedule, 0);
    RunNext(s0, schedule, 1);
    RunNext(s0, schedule, 2);
    RunNext(s0, schedule, 3);
  }

  lemma FirstSteps()
    ensures var written := System([Row(0, false)], [], [], []);
      var two := System([Row(0, false)], [Idle, Idle], [], []);
      && Next(System([], [], [], []), Write) == written
      && Next(Next(written, StartDispatcher), StartDispatcher) == two
      && Next(two, Read(0)) == System([Row(0, false)], [Looping([(0, 0)]), Idle], [], [])
  {
    hide ReadBatch;
    OnePending(Row(0, false));
    var none: seq<Dispatcher> := [];
    assert none + [Idle] == [Idle] && [Idle] + [Idle] == [Idle, Idle];
    assert [Idle, Idle][0 := Looping([(0, 0)])] == [Looping([(0, 0)]), Idle];
  }

  lemma RunNext(s: System, schedule: seq<Action>, n: nat)
    requires n < |schedule|
    ensures Run(s, schedule[..n + 1]) == Next(Run(s, schedule[..n]), schedule[n])
  {
    assert schedule[..n + 1][..n] == schedule[..n];
  }

  lemma OnePending(row: Row)
    requires IsPending(row)
    ensures ReadBatch([row], 1) == [(0, row.attempts)]
  {
    assert ReadBatch([row], 0) == [];
  }

  // ---- one dispatcher alone ----

  ghost function RowsOf(batch: seq<(nat, nat)>): set<nat> {
    set k | 0 <= k < |batch| :: batch[k].0
  }

  lemma RowsOfNext(batch: seq<(nat, nat)>, k: nat)
    requires k < |batch|
    ensures RowsOf(batch[..k + 1]) == RowsOf(batch[..k]) + {batch[k].0}
  {
    assert batch[..k + 1] == batch[..k] + [batch[k]];
    forall r ensures r in RowsOf(batch[..k + 1]) <==> r in RowsOf(batch[..k]) || r == batch[k].0 {
      if r in RowsOf(batch[..k]) {
        var j :| 0 <= j < k && batch[..k][j].0 == r;
        assert batch[..k + 1][j].0 == r;
      }
      assert batch[..k + 1][k].0 == batch[k].0;
    }
  }

  class OutboxService {
    var rows: seq<Row>

    constructor ()
      ensures rows == []
    {
      rows := [];
    }

    method WriteInTx()
      modifies this
      ensures rows == old(rows) + [Row(0, false)]
    {
      rows := rows + [Row(0, false)];
    }

    method FindPending() returns (batch: seq<(nat, nat)>)
      ensures batch == ReadBatch(rows, |rows|)
    {
      batch := [];
      for r := 0 to |rows|
        invariant batch == ReadBatch(rows, r)
      {
        if IsPending(rows[r]) && |batch| < BATCH_SIZE {
          batch := batch + [(r, rows[r].attempts)];
        }
      }
    }

    /** Claim a row at the attempts value it was read with, run its handler, mark it if that succeeded. */
    method Attempt(r: nat, attempts: nat, succeeds: bool) returns (processed: bool)
      modifies this
      ensures |rows| == |old(rows)|
      ensures forall q: nat | q < |rows| && q != r :: rows[q] == old(rows)[q]
      ensures r < |rows| ==>
        rows[r] == if !old(rows)[r].processed && old(rows)[r].attempts == attempts then Row(attempts + 1, succeeds)
                   else old(rows)[r]
      ensures processed <==> r < |rows| && !old(rows)[r].processed && old(rows)[r].attempts == attempts && succeeds
    {
      if r >= |rows| || rows[r].processed || rows[r].attempts != attempts {
        return false;
      }
      rows := rows[r := rows[r].(attempts := attempts + 1)];
      if succeeds {
        rows := rows[r := rows[r].(processed := true)];
      }
      return succeeds;
    }

    /** One pass without interference: every row of the batch is attempted once more and marked exactly when
        its handler succeeds; no other row moves. */
    method DispatchPending(succeeds: nat -> bool) returns (processed: nat)
      modifies this
      ensures |rows| == |old(rows)|
      ensures forall r: nat | r < |rows| ::
        rows[r] == if r in RowsOf(ReadBatch(old(rows), |old(rows)|))
                   then Row(old(rows)[r].attempts + 1, succeeds(r)) else old(rows)[r]
      ensures processed == |Succeeding(RowsOf(ReadBatch(old(rows), |old(rows)|)), succeeds)|
    {
      hide ReadBatch, RowsOf, Succeeding;
      ghost var before := rows;
      var batch := FindPending();
      processed := 0;
      NoRows(batch[..0], succeeds);
      for k := 0 to |batch|
        invariant |rows| == |before|
        invariant forall r: nat | r < |rows| ::
          rows[r] == if r in RowsOf(batch[..k]) then Row(before[r].attempts + 1, succeeds(r)) else before[r]
        invariant processed == |Succeeding(RowsOf(batch[..k]), succeeds)|
      {
        NotYet(batch, k);
        OneMore(RowsOf(batch[..k]), batch[k].0, succeeds);
        RowsOfNext(batch, k);
        var done := Attempt(batch[k].0, batch[k].1, succeeds(batch[k].0));
        if done {
          processed := processed + 1;
        }
      }
      assert batch[..|batch|] == batch;
    }
  }

  lemma NoRows(batch: seq<(nat, nat)>, succeeds: nat -> bool)
    requires batch == []
    ensures RowsOf(batch) == {} && Succeeding({}, succeeds) == {}
  {
  }

  ghost function Succeeding(ids: set<nat>, succeeds: nat -> bool): set<nat> {
    set r | r in ids && succeeds(r)
  }

  lemma OneMore(ids: set<nat>, r: nat, succeeds: nat -> bool)
    requires r !in ids
    ensures |Succeeding(ids + {r}, succeeds)| == |Succeeding(ids, succeeds)| + (if succeeds(r) then 1 else 0)
  {
    assert Succeeding(ids + {r}, succeeds) == Succeeding(ids, succeeds) + (if succeeds(r) then {r} else {});
  }

  lemma NotYet(batch: seq<(nat, nat)>, k: nat)
    requires k < |batch| && forall i, j | 0 <= i < j < |batch| :: batch[i].0 < batch[j].0
    ensures batch[k].0 !in RowsOf(batch[..k])
  {
  }
}
