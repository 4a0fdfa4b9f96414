/** The waiting room: one sorted set per event, popped from the front in batches. */
module Gate {

  const BOT_PREFIX: string := "bot:"

  datatype Entry = Entry(score: real, member: string)

  predicate IsBot(member: string) {
    BOT_PREFIX <= member
  }

  /** Byte order on members, the tie break of a sorted set. */
  predicate LexLess(a: string, b: string) {
    b != "" && (a == "" || a[0] < b[0] || (a[0] == b[0] && LexLess(a[1..], b[1..])))
  }

  lemma {:induction false} LexTotal(a: string, b: string)
    ensures a == b || LexLess(a, b) || LexLess(b, a)
    ensures !(LexLess(a, b) && LexLess(b, a)) && !LexLess(a, a)
    decreases |a|
  {
    if a != "" {
      LexTotal(a[1..], a[1..]);
      if b != "" {
        LexTotal(a[1..], b[1..]);
        if a[0] == b[0] && a[1..] == b[1..] {
          assert a == [a[0]] + a[1..] && b == [b[0]] + b[1..];
        }
      }
    }
  }

  /** Byte order: the first difference decides, and a prefix comes before what it is a prefix of. */
  lemma {:induction false} LexFirstDifference(a: string, b: string)
    ensures LexLess(a, b) <==>
      exists i :: 0 <= i <= |a| && i < |b| && a[..i] == b[..i] && (i == |a| || a[i] < b[i])
    decreases |a|
  {
    if a != "" && b != "" && a[0] == b[0] {
      LexFirstDifference(a[1..], b[1..]);
      if i :| 0 <= i <= |a| - 1 && i < |b| - 1 && a[1..][..i] == b[1..][..i] && (i == |a| - 1 || a[1..][i] < b[1..][i]) {
        assert a[..i + 1] == [a[0]] + a[1..][..i] && b[..i + 1] == [b[0]] + b[1..][..i];
      }
      if i :| 0 <= i <= |a| && i < |b| && a[..i] == b[..i] && (i == |a| || a[i] < b[i]) {
        assert i > 0;
        assert a[1..][..i - 1] == a[..i][1..] && b[1..][..i - 1] == b[..i][1..];
      }
    } else if b != "" {
      assert a[..0] == b[..0];
      if i :| 0 <= i <= |a| && i < |b| && a[..i] == b[..i] && (i == |a| || a[i] < b[i]) {
        if i > 0 {
          assert a[..i][0] == b[..i][0];
        }
      }
    }
  }

  lemma {:induction false} LexTransitive(a: string, b: string, c: string)
    requires LexLess(a, b) && LexLess(b, c)
    ensures LexLess(a, c)
    decreases |b|
  {
    if a != "" && a[0] == b[0] && b[0] == c[0] {
      LexTransitive(a[1..], b[1..], c[1..]);
    }
  }

  predicate Before(x: Entry, y: Entry) {
    x.score < y.score || (x.score == y.score && LexLess(x.member, y.member))
  }

  lemma BeforeTotal(x: Entry, y: Entry)
    ensures x.member != y.member ==> Before(x, y) || Before(y, x)
    ensures !(Before(x, y) && Before(y, x))
  {
    LexTotal(x.member, y.member);
  }

  lemma BeforeTransitive(x: Entry, y: Entry, z: Entry)
    requires Before(x, y) && Before(y, z)
    ensures Before(x, z)
  {
    if x.score == y.score == z.score {
      LexTransitive(x.member, y.member, z.member);
    }
  }

  /** In (score, member) order, each member once. */
  predicate Ordered(q: seq<Entry>) {
    && (forall i, j | 0 <= i < j < |q| :: Before(q[i], q[j]))
    && (forall i, j | 0 <= i < j < |q| :: q[i].member != q[j].member)
  }

  predicate Queued(q: seq<Entry>, member: string) {
    exists i :: 0 <= i < |q| && q[i].member == member
  }

  /** How many entries come before `x`. */
  function Rank(q: seq<Entry>, x: Entry): (k: nat)
    ensures k <= |q|
    ensures forall i | 0 <= i < k :: Before(q[i], x)
    ensures k < |q| ==> !Before(q[k], x)
  {
    if q == [] || !Before(q[0], x) then 0 else 1 + Rank(q[1..], x)
  }

  function Insert(q: seq<Entry>, x: Entry): seq<Entry> {
    var k := Rank(q, x);
    q[..k] + [x] + q[k..]
  }

  /** The newcomer's rank splits the queue into who comes before it and who comes after. */
  lemma RankSplits(q: seq<Entry>, x: Entry)
    requires Ordered(q) && !Queued(q, x.member)
    ensures forall i | 0 <= i < |q| :: Before(q[i], x) <==> i < Rank(q, x)
    ensures forall i | Rank(q, x) <= i < |q| :: Before(x, q[i])
    ensures forall i | 0 <= i < |q| :: q[i].member != x.member
  {
    var k := Rank(q, x);
    forall i | k <= i < |q| ensures Before(x, q[i]) && !Before(q[i], x) {
      assert q[k].member != x.member && q[i].member != x.member;
      BeforeTotal(q[k], x);
      if k < i {
        BeforeTransitive(x, q[k], q[i]);
      }
      BeforeTotal(x, q[i]);
    }
  }

  /** Inserting keeps the order, moves nobody who comes before the newcomer, and moves the others back by one. */
  lemma InsertOrdered(q: seq<Entry>, x: Entry)
    requires Ordered(q) && !Queued(q, x.member)
    ensures Ordered(Insert(q, x))
    ensures forall i | 0 <= i < |q| :: Before(q[i], x) <==> i < Rank(q, x)
    ensures forall i | 0 <= i < |q| :: Insert(q, x)[if Before(q[i], x) then i else i + 1] == q[i]
  {
    hide Before, LexLess, Ordered, Rank, Queued;
    RankSplits(q, x);
    OrderedWith(q, x, Rank(q, x));
  }

  lemma OrderedWith(q: seq<Entry>, x: Entry, k: nat)
    requires Ordered(q) && k <= |q|
    requires forall i | 0 <= i < k :: Before(q[i], x)
    requires forall i | k <= i < |q| :: Before(x, q[i])
    requires forall i | 0 <= i < |q| :: q[i].member != x.member
    ensures Ordered(q[..k] + [x] + q[k..])
  {
  }

  function Min(a: nat, b: nat): nat {
    if a < b then a else b
  }

  // ---- fairness over whole schedules ----

  /** What can happen to one event's queue: somebody arrives (again, perhaps), or a batch is let in. */
  datatype Action = Arrive(entry: Entry) | Admit(batch: nat)

  datatype Line = Line(waiting: seq<Entry>, popped: seq<Entry>)

  function Next(l: Line, a: Action): Line {
    match a
    case Arrive(x) => if Queued(l.waiting, x.member) then l else l.(waiting := Insert(l.waiting, x))
    case Admit(b) =>
      var n := Min(b, |l.waiting|);
      Line(l.waiting[n..], l.popped + l.waiting[..n])
  }

  function Run(l: Line, schedule: seq<Action>): Line {
    if schedule == [] then l else Next(Run(l, schedule[..|schedule| - 1]), schedule[|schedule| - 1])
  }

  function Admits(schedule: seq<Action>): nat {
    if schedule == [] then 0
    else Admits(schedule[..|schedule| - 1]) + (if schedule[|schedule| - 1].Admit? then 1 else 0)
  }

  /** A batch is the first `b` of the queue, all of it if it is no longer, and the rest stays as it is. */
  lemma BatchPops(q: seq<Entry>, b: nat)
    ensures Next(Line(q, []), Admit(b)) == if b < |q| then Line(q[b..], q[..b]) else Line([], q)
  {
  }

  /** Everybody who arrives in the schedule comes after `x`, and every batch has size `b`. */
  predicate LaterArrivals(schedule: seq<Action>, x: Entry, b: nat) {
    forall k | 0 <= k < |schedule| ::
      match schedule[k] case Arrive(y) => Before(x, y) case Admit(n) => n == b
  }

  lemma StepOrdered(l: Line, a: Action)
    requires Ordered(l.waiting)
    ensures Ordered(Next(l, a).waiting)
  {
    if a.Arrive? && !Queued(l.waiting, a.entry.member) {
      InsertOrdered(l.waiting, a.entry);
    }
  }

  /** The first `i + 1` places of the line, let in or still waiting, are what they were. */
  predicate FrontKept(l: Line, q: seq<Entry>, i: nat) {
    i < |q| && |l.popped + l.waiting| > i && (l.popped + l.waiting)[..i + 1] == q[..i + 1]
  }

  lemma ArriveKeepsFront(l: Line, q: seq<Entry>, i: nat, y: Entry)
    requires Ordered(l.waiting) && i < |q| && FrontKept(l, q, i) && Before(q[i], y)
    ensures FrontKept(Next(l, Arrive(y)), q, i)
    ensures Next(l, Arrive(y)).popped == l.popped
  {
    if !Queued(l.waiting, y.member) {
      var n, k := |l.popped|, Rank(l.waiting, y);
      InsertOrdered(l.waiting, y);
      if i >= n {
        assert (l.popped + l.waiting)[..i + 1][i] == q[..i + 1][i];
        assert l.waiting[i - n] == q[i];
        assert i - n < k;
      }
      var after := Next(l, Arrive(y));
      assert after.waiting[..k] == l.waiting[..k];
      forall j | 0 <= j < i + 1 ensures (after.popped + after.waiting)[j] == q[j] {
        assert (l.popped + l.waiting)[..i + 1][j] == q[..i + 1][j];
        if j >= n {
          assert after.waiting[j - n] == l.waiting[j - n];
        }
      }
    }
  }

  lemma AdmitKeepsFront(l: Line, q: seq<Entry>, i: nat, b: nat)
    requires FrontKept(l, q, i)
    ensures FrontKept(Next(l, Admit(b)), q, i)
    ensures Min(|l.popped| + b, i + 1) <= |Next(l, Admit(b)).popped| <= |l.popped| + b
  {
  }

  /** Whoever stands at place `i + 1` with batch `b`: nobody who arrives later passes, everybody up to that
      place is let in in order, and after `k` batches `k * b` of them are in, never more. So the visitor at
      place p is let in within ⌈p/b⌉ batches. */
  lemma {:induction false} FirstComeFirstServed(q: seq<Entry>, schedule: seq<Action>, i: nat, b: nat)
    requires Ordered(q) && i < |q| && LaterArrivals(schedule, q[i], b)
    ensures var l, k := Run(Line(q, []), schedule), Admits(schedule);
      && Ordered(l.waiting) && FrontKept(l, q, i)
      && Min(k * b, i + 1) <= |l.popped| <= k * b
      && (k * b >= i + 1 ==> l.popped[..i + 1] == q[..i + 1])
  {
    hide Next, Ordered, FrontKept, LaterArrivals;
    if schedule == [] {
      StartKept(q, i);
    } else {
      var m := |schedule| - 1;
      var before, a := Run(Line(q, []), schedule[..m]), schedule[m];
      LaterParts(schedule, q[i], b);
      FirstComeFirstServed(q, schedule[..m], i, b);
      StepOrdered(before, a);
      if a.Arrive? {
        ArriveKeepsFront(before, q, i, a.entry);
      } else {
        AdmitKeepsFront(before, q, i, b);
        assert (Admits(schedule[..m]) + 1) * b == Admits(schedule[..m]) * b + b;
      }
    }
    PoppedFront(Run(Line(q, []), schedule), q, i);
  }

  lemma StartKept(q: seq<Entry>, i: nat)
    requires i < |q|
    ensures FrontKept(Line(q, []), q, i)
  {
  }

  lemma LaterParts(schedule: seq<Action>, x: Entry, b: nat)
    requires schedule != [] && LaterArrivals(schedule, x, b)
    ensures LaterArrivals(schedule[..|schedule| - 1], x, b)
    ensures match schedule[|schedule| - 1] case Arrive(y) => Before(x, y) case Admit(n) => n == b
  {
  }

  lemma PoppedFront(l: Line, q: seq<Entry>, i: nat)
    requires FrontKept(l, q, i)
    ensures |l.popped| >= i + 1 ==> l.popped[..i + 1] == q[..i + 1]
  {
  }

  /** Asking again never moves a queued visitor, whatever the clock says. */
  lemma RejoinStays(l: Line, member: string, now: int)
    requires Queued(l.waiting, member)
    ensures Next(l, Arrive(Entry(now as real, member))) == l
  {
  }

  /** The score of the simulated bot `i` of `count` at millisecond `base`. */
  function BotScore(base: int, i: nat, count: nat): real {
    base as real + (i + 1) as real / (count + 1) as real
  }

  /** Simulated bots stand behind everyone queued up to their base millisecond and ahead of everyone who
      comes in a later one, in the order of their numbers. */
  lemma BotsStandBetween(base: int, i: nat, count: nat, x: Entry, bot: string)
    requires i < count
    ensures x.score <= base as real ==> Before(x, Entry(BotScore(base, i, count), bot))
    ensures x.score >= (base + 1) as real ==> Before(Entry(BotScore(base, i, count), bot), x)
    ensures forall j: nat | i < j < count :: BotScore(base, i, count) < BotScore(base, j, count)
    ensures (BotScore(base, i, count) - base as real) * (count + 1) as real == (i + 1) as real
  {
    var n := (count + 1) as real;
    FractionWithin(i + 1, count + 1);
    forall j: nat | i < j < count ensures BotScore(base, i, count) < BotScore(base, j, count) {
      FractionGrows((i + 1) as real, (j + 1) as real, n);
    }
  }

  lemma FractionWithin(a: nat, b: nat)
    requires 0 < a < b
    ensures 0.0 < a as real / b as real < 1.0
  {
  }

  lemma FractionGrows(a: real, b: real, n: real)
    requires a < b && n > 0.0
    ensures a / n < b / n
  {
  }

  // ---- the shared state and the admitter ----

  /** The queue after a batch of newcomers, one after the other. */
  function InsertAll(q: seq<Entry>, xs: seq<Entry>): seq<Entry> {
    if xs == [] then q else Insert(InsertAll(q, xs[..|xs| - 1]), xs[|xs| - 1])
  }

  predicate Newcomers(q: seq<Entry>, xs: seq<Entry>) {
    && (forall k | 0 <= k < |xs| :: !Queued(q, xs[k].member))
    && (forall i, j | 0 <= i < j < |xs| :: xs[i].member != xs[j].member)
  }

  lemma InsertMembers(q: seq<Entry>, x: Entry, member: string)
    ensures Queued(Insert(q, x), member) <==> Queued(q, member) || member == x.member
  {
    var k, after := Rank(q, x), Insert(q, x);
    assert after[k] == x;
    if Queued(q, member) {
      var i :| 0 <= i < |q| && q[i].member == member;
      assert after[if i < k then i else i + 1] == q[i];
    }
    if Queued(after, member) {
      var i :| 0 <= i < |after| && after[i].member == member;
      if i != k {
        assert q[if i < k then i else i - 1] == after[i];
      }
    }
  }

  lemma {:induction false} InsertAllOrdered(q: seq<Entry>, xs: seq<Entry>)
    requires Ordered(q) && Newcomers(q, xs)
    ensures Ordered(InsertAll(q, xs)) && |InsertAll(q, xs)| == |q| + |xs|
    ensures forall member: string :: Queued(InsertAll(q, xs), member) ==> Queued(q, member) || exists k :: 0 <= k < |xs| && xs[k].member == member
    ensures forall x :: x in InsertAll(q, xs) <==> x in q || x in xs
  {
    hide Ordered, Queued, Rank;
    if xs != [] {
      assert xs == xs[..|xs| - 1] + [xs[|xs| - 1]];
      var m := |xs| - 1;
      InsertAllOrdered(q, xs[..m]);
      var before := InsertAll(q, xs[..m]);
      assert !Queued(before, xs[m].member) by {
        assert forall k | 0 <= k < m :: xs[..m][k].member != xs[m].member;
      }
      InsertOrdered(before, xs[m]);
      forall member: string | Queued(InsertAll(q, xs), member)
        ensures Queued(q, member) || exists k :: 0 <= k < |xs| && xs[k].member == member
      {
        InsertMembers(before, xs[m], member);
        if Queued(before, member) && !Queued(q, member) {
          var k :| 0 <= k < m && xs[..m][k].member == member;
          assert xs[k].member == member;
        }
      }
    }
  }

  /** Simulated bots are told by their prefix. */
  lemma BotsByPrefix(member: string)
    ensures IsBot(member) <==> |member| >= 4 && member[..4] == "bot:"
  {
  }

  lemma VisitorsNext(q: seq<Entry>)
    requires q != []
    ensures Visitors(q) == Visitors(q[..|q| - 1]) + (if IsBot(q[|q| - 1].member) then 0 else 1)
  {
    hide IsBot;
  }

  lemma RealNext(q: seq<Entry>)
    requires q != []
    ensures |Real(q)| == |Real(q[..|q| - 1])| + (if "bot:" <= q[|q| - 1].member then 0 else 1)
  {
    var m := |q| - 1;
    var before := Real(q[..m]);
    if "bot:" <= q[m].member {
      assert Real(q) == before;
    } else {
      assert Real(q) == before + {m};
    }
  }

  ghost function Real(q: seq<Entry>): set<nat> {
    set i | 0 <= i < |q| && !("bot:" <= q[i].member)
  }

  lemma {:induction false} VisitorsCounted(q: seq<Entry>)
    ensures Visitors(q) == |Real(q)|
  {
    if q != [] {
      var m := |q| - 1;
      VisitorsCounted(q[..m]);
      BotsByPrefix(q[m].member);
      hide Visitors;
      RealNext(q);
      assert Visitors(q) == Visitors(q[..m]) + (if IsBot(q[m].member) then 0 else 1) by { VisitorsNext(q); }
    }
  }

  /** How many of the entries are real visitors. */
  function Visitors(q: seq<Entry>): nat {
    if q == [] then 0 else Visitors(q[..|q| - 1]) + (if IsBot(q[|q| - 1].member) then 0 else 1)
  }

  class GateQueue {
    /** The sorted sets that exist; an emptied one is deleted. */
    var queues: map<string, seq<Entry>>
    var registry: set<string>
    var admitted: set<(string, string)>

    /** Each queue is in order, and an event is registered exactly when somebody waits for it. */
    ghost predicate Valid()
      reads this
    {
      && (forall e | e in queues :: Ordered(queues[e]) && queues[e] != [])
      && registry == queues.Keys
    }

    function Waiting(event: string): seq<Entry>
      reads this
    {
      if event in queues then queues[event] else []
    }

    constructor ()
      ensures Valid() && queues == map[] && admitted == {}
    {
      queues, registry, admitted := map[], {}, {};
    }

    /** The visitor's place, one-based, if it is queued. */
    method Position(event: string, visitor: string) returns (place: nat, total: nat)
      ensures total == |Waiting(event)|
      ensures place == 0 <==> !Queued(Waiting(event), visitor)
      ensures place > 0 ==> place <= total && Waiting(event)[place - 1].member == visitor
    {
      var q := Waiting(event);
      total := |q|;
      for i := 0 to |q|
        invariant forall j | 0 <= j < i :: q[j].member != visitor
      {
        if q[i].member == visitor {
          return i + 1, total;
        }
      }
      return 0, total;
    }

    /** Register the event and add the visitor unless it is queued already. */
    method Join(event: string, visitor: string, now: int) returns (place: nat, total: nat)
      requires Valid()
      modifies this`queues, this`registry
      ensures Valid() && queues.Keys == old(queues.Keys) + {event}
      ensures Waiting(event) == Next(Line(old(Waiting(event)), []), Action.Arrive(Entry(now as real, visitor))).waiting
      ensures forall e | e != event :: Waiting(e) == old(Waiting(e))
      ensures 0 < place <= total == |Waiting(event)| && Waiting(event)[place - 1].member == visitor
    {
      registry := registry + {event};
      var was, _ := Position(event, visitor);
      var q, x := Waiting(event), Entry(now as real, visitor);
      if was == 0 {
        InsertOrdered(q, x);
        var k := Rank(q, x);
        queues := queues[event := q[..k] + [x] + q[k..]];
        assert queues[event][k] == x;
      } else {
        RejoinStays(Line(q, []), visitor, now);
      }
      assert Queued(Waiting(event), visitor);
      place, total := Position(event, visitor);
    }

    /** A crowd of bots spread over the millisecond after `base`. */
    method Simulate(event: string, base: int, ids: seq<string>) returns (total: nat)
      requires Valid() && ids != []
      requires forall k | 0 <= k < |ids| :: !Queued(Waiting(event), BOT_PREFIX + ids[k])
      requires forall i, j | 0 <= i < j < |ids| :: ids[i] != ids[j]
      modifies this`queues, this`registry
      ensures Valid() && queues.Keys == old(queues.Keys) + {event} && total == |Waiting(event)| == |old(Waiting(event))| + |ids|
      ensures Waiting(event) == InsertAll(old(Waiting(event)), Bots(base, ids))
      ensures forall e | e != event :: Waiting(e) == old(Waiting(e))
    {
      hide Ordered, Queued, Bots, InsertAll;
      var members := MakeBots(base, ids);
      var q := Waiting(event);
      assert Ordered(q) by {
        RestOrdered(q, 0);
        assert q[0..] == q;
      }
      BotsAreNew(q, base, ids);
      InsertAllOrdered(q, members);
      registry := registry + {event};
      var all := AddAll(q, members);
      queues := queues[event := all];
      total := |all|;
    }

    method MakeBots(base: int, ids: seq<string>) returns (members: seq<Entry>)
      ensures members == Bots(base, ids) && |members| == |ids|
    {
      members := [];
      for i := 0 to |ids|
        invariant members == Bots(base, ids)[..i]
      {
        members := members + [Entry(BotScore(base, i, |ids|), BOT_PREFIX + ids[i])];
      }
    }

    method AddAll(q: seq<Entry>, members: seq<Entry>) returns (all: seq<Entry>)
      ensures all == InsertAll(q, members)
    {
      all := q;
      for i := 0 to |members|
        invariant all == InsertAll(q, members[..i])
      {
        assert members[..i + 1][..i] == members[..i];
        all := Insert(all, members[i]);
      }
      assert members[..|members|] == members;
    }

    /** Pop a batch from the front; visitors are admitted, bots only leave; an emptied event is unregistered. */
    method Admit(event: string, batch: int) returns (count: nat)
      requires Valid()
      modifies this
      ensures Valid()
      ensures batch <= 0 ==> queues == old(queues) && admitted == old(admitted) && count == 0
      ensures batch > 0 ==> Waiting(event) == Next(Line(old(Waiting(event)), []), Action.Admit(batch)).waiting
      ensures batch > 0 ==> count == Visitors(Next(Line(old(Waiting(event)), []), Action.Admit(batch)).popped)
      ensures forall e | e != event :: Waiting(e) == old(Waiting(e))
      ensures batch > 0 ==> forall v: string :: (event, v) in admitted <==>
        (event, v) in old(admitted)
        || (!IsBot(v) && Queued(Next(Line(old(Waiting(event)), []), Action.Admit(batch)).popped, v))
      ensures forall e, v: string | e != event :: (e, v) in admitted <==> (e, v) in old(admitted)
    {
      count := 0;
      if batch <= 0 {
        return;
      }
      hide Ordered, Queued, IsBot, Visitors;
      var q := Waiting(event);
      var n := Min(batch, |q|);
      assert Ordered(q[n..]) by { RestOrdered(q, n); }
      assert [] + q[..n] == q[..n];
      count := LetIn(event, q[..n]);
      if n < |q| {
        queues := queues[event := q[n..]];
      } else {
        queues := queues - {event};
      }
      if event !in queues {
        registry := registry - {event};
      }
    }

    /** Mark the popped visitors admitted; bots are skipped. */
    method LetIn(event: string, popped: seq<Entry>) returns (count: nat)
      modifies this`admitted
      ensures forall e, v: string ::
        (e, v) in admitted <==> (e, v) in old(admitted) || (e == event && !IsBot(v) && Queued(popped, v))
      ensures count == Visitors(popped)
    {
      hide IsBot;
      count := 0;
      ghost var before := admitted;
      for i := 0 to |popped|
        invariant count == Visitors(popped[..i])
        invariant forall e, v: string :: (e, v) in admitted <==>
          (e, v) in before || (e == event && !IsBot(v) && exists j :: 0 <= j < i && popped[j].member == v)
      {
        assert popped[..i + 1][..i] == popped[..i];
        if !IsBot(popped[i].member) {
          admitted := admitted + {(event, popped[i].member)};
          count := count + 1;
        }
      }
      assert popped[..|popped|] == popped;
    }

    /** One tick: every registered event lets one batch in. */
    method Tick(batch: int)
      requires Valid() && batch > 0
      modifies this
      ensures Valid()
      ensures forall e: string :: Waiting(e) == old(Waiting(e))[Min(batch, |old(Waiting(e))|)..]
    {
      hide Ordered, IsBot, Queued;
      var events := registry;
      while events != {}
        invariant Valid() && events <= old(registry)
        invariant forall e: string ::
          Waiting(e) == if e in old(registry) && e !in events then old(Waiting(e))[Min(batch, |old(Waiting(e))|)..] else old(Waiting(e))
      {
        var e :| e in events;
        events := events - {e};
        var count := Admit(e, batch);
      }
    }
  }

  lemma RestOrdered(q: seq<Entry>, n: nat)
    requires n <= |q| && (q == [] || Ordered(q))
    ensures Ordered(q[n..])
  {
  }

  function Bots(base: int, ids: seq<string>): seq<Entry> {
    seq(|ids|, (i: nat) requires i < |ids| => Entry(BotScore(base, i, |ids|), BOT_PREFIX + ids[i]))
  }

  lemma BotsAreNew(q: seq<Entry>, base: int, ids: seq<string>)
    requires forall k | 0 <= k < |ids| :: !Queued(q, BOT_PREFIX + ids[k])
    requires forall i, j | 0 <= i < j < |ids| :: ids[i] != ids[j]
    ensures Newcomers(q, Bots(base, ids))
  {
    forall i, j | 0 <= i < j < |ids| ensures Bots(base, ids)[i].member != Bots(base, ids)[j].member {
      assert (BOT_PREFIX + ids[i])[|BOT_PREFIX|..] == ids[i] && (BOT_PREFIX + ids[j])[|BOT_PREFIX|..] == ids[j];
    }
  }
}
