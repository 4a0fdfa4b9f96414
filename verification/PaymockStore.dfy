/** The payment vendor's ledger as an object, and the handlers that drive it. */
module PaymockStore {
  import opened Tables
  import opened Sums
  import opened Protocol

  datatype ResolveCode = Resolved | NoSuchIntent | AlreadyResolved

  ghost predicate Seen(v: Vendor, reference: Option<nat>) {
    reference.Some? && reference.value in v.refs
  }

  /** A refund call moves money exactly when its intent succeeded, its reference is new and the amount is positive
      and within what is left; it is then booked under a fresh id and announced. A seen reference gets its old id
      back, and every other call its reason, and nothing moves. */
  ghost predicate RefundAnswer(v: Vendor, v2: Vendor, i: nat, reference: Option<nat>, amount: int, reply: RefundReply) {
    && (reply == NotFound <==> i >= |v.intents|)
    && (reply.Duplicate? <==> i < |v.intents| && Seen(v, reference))
    && (reply.Duplicate? ==> reply.refundId == v.refs[reference.value])
    && (reply == InvalidAmount <==> i < |v.intents| && !Seen(v, reference) && amount <= 0)
    && (reply == NotSucceeded <==>
          i < |v.intents| && !Seen(v, reference) && amount > 0 && v.intents[i].status in {IntentOpen, IntentFailed})
    && (reply.Accepted? <==>
          i < |v.intents| && !Seen(v, reference) && v.intents[i].status == IntentSucceeded
          && 0 < amount <= v.intents[i].amount - v.intents[i].refunded)
    && (if !reply.Accepted? then v2 == v
        else
          && reply.refundId == v.minted
          && v2 == Vendor(v.intents[i := v.intents[i].(refunded := v.intents[i].refunded + amount)],
                          if reference.Some? then v.refs[reference.value := v.minted] else v.refs,
                          v.minted + 1, v.events + [RefundedEvent(i, reference, v.minted, amount)]))
  }

  lemma RefundReplies(v: Vendor, i: nat, reference: Option<nat>, amount: int)
    ensures RefundAnswer(v, VendorRefund(v, i, reference, amount), i, reference, amount, VendorReply(v, i, reference, amount))
  {
  }

  class PaymockStore {
    var intents: seq<Intent>
    var refundsByRef: map<nat, nat>
    var minted: nat
    var sent: seq<VendorEvent>

    ghost function Snapshot(): Vendor
      reads this
    {
      Vendor(intents, refundsByRef, minted, sent)
    }

    /** Every intent has paid back between nothing and what it captured, and only if it captured anything. */
    ghost predicate Solvent()
      reads this
    {
      forall i | 0 <= i < |intents| ::
        && 0 <= intents[i].refunded <= intents[i].amount
        && (intents[i].refunded > 0 ==> intents[i].status == IntentSucceeded)
    }

    constructor ()
      ensures Snapshot() == Vendor([], map[], 0, []) && Solvent()
    {
      intents, refundsByRef, minted, sent := [], map[], 0, [];
    }

    /** The intent endpoint refuses a non-positive amount before the store sees it. */
    method HandleCreateIntent(order: nat, amount: int) returns (intent: Option<nat>)
      requires Solvent()
      modifies this
      ensures Snapshot() == VendorCreate(old(Snapshot()), order, amount)
      ensures intent == if amount <= 0 then None else Some(|old(intents)|)
      ensures intents == if amount <= 0 then old(intents) else old(intents) + [Intent(order, amount, IntentOpen, 0)]
      ensures refundsByRef == old(refundsByRef) && sent == old(sent)
      ensures Solvent()
    {
      if amount <= 0 {
        return None;
      }
      intent := Some(|intents|);
      intents := intents + [Intent(order, amount, IntentOpen, 0)];
    }

    method Resolve(i: nat, status: IntentStatus) returns (code: ResolveCode)
      requires Solvent()
      modifies this`intents
      ensures code == (if i >= |old(intents)| then NoSuchIntent
                       else if old(intents)[i].status != IntentOpen then AlreadyResolved else Resolved)
      ensures intents == if code == Resolved then old(intents)[i := old(intents)[i].(status := status)] else old(intents)
      ensures Solvent()
    {
      if i >= |intents| {
        return NoSuchIntent;
      }
      if intents[i].status != IntentOpen {
        return AlreadyResolved;
      }
      intents := intents[i := intents[i].(status := status)];
      return Resolved;
    }

    /** The customer's answer: the webhook goes out only when this call resolved the intent. */
    method HandleConfirm(i: nat, ok: bool) returns (code: ResolveCode)
      requires Solvent()
      modifies this
      ensures Snapshot() == VendorResolve(old(Snapshot()), i, ok)
      ensures code == (if i >= |old(intents)| then NoSuchIntent
                       else if old(intents)[i].status != IntentOpen then AlreadyResolved else Resolved)
      ensures code != Resolved ==> Snapshot() == old(Snapshot())
      ensures code == Resolved ==>
        && intents == old(intents)[i := old(intents)[i].(status := if ok then IntentSucceeded else IntentFailed)]
        && sent == old(sent) + [if ok then SucceededEvent(i) else FailedEvent(i)]
        && refundsByRef == old(refundsByRef) && minted == old(minted)
      ensures Solvent()
    {
      code := Resolve(i, if ok then IntentSucceeded else IntentFailed);
      if code == Resolved {
        sent := sent + [if ok then SucceededEvent(i) else FailedEvent(i)];
      }
    }

    method Refund(i: nat, reference: Option<nat>, amount: int) returns (reply: RefundReply)
      requires Solvent()
      modifies this`intents, this`refundsByRef, this`minted
      ensures reply == VendorReply(old(Snapshot()), i, reference, amount)
      ensures Snapshot() == VendorRefund(old(Snapshot()), i, reference, amount).(events := sent)
      ensures Solvent()
    {
      if i >= |intents| {
        return NotFound;
      }
      if reference.Some? {
        if reference.value in refundsByRef {
          return Duplicate(refundsByRef[reference.value]);
        }
      }
      if amount <= 0 {
        return InvalidAmount;
      }
      if intents[i].status != IntentSucceeded {
        return NotSucceeded;
      }
      if intents[i].refunded + amount > intents[i].amount {
        return OverRefund;
      }
      intents := intents[i := intents[i].(refunded := intents[i].refunded + amount)];
      var id := minted;
      minted := minted + 1;
      if reference.Some? {
        refundsByRef := refundsByRef[reference.value := id];
      }
      return Accepted(id);
    }

    /** The refund endpoint: a fresh refund is announced, a duplicate or a refusal is not. */
    method HandleRefund(i: nat, reference: Option<nat>, amount: int) returns (reply: RefundReply)
      requires Solvent()
      modifies this
      ensures reply == VendorReply(old(Snapshot()), i, reference, amount)
      ensures Snapshot() == VendorRefund(old(Snapshot()), i, reference, amount)
      ensures RefundAnswer(old(Snapshot()), Snapshot(), i, reference, amount, reply)
      ensures Solvent()
    {
      hide RefundAnswer;
      RefundReplies(Snapshot(), i, reference, amount);
      reply := Refund(i, reference, amount);
      if reply.Accepted? {
        sent := sent + [RefundedEvent(i, reference, reply.refundId, amount)];
      }
    }
  }

  // ---- the ledger under any traffic, not only the API's ----

  datatype Call = CreateCall(order: nat, total: int) | ConfirmCall(intent: nat, ok: bool)
                | RefundCall(intent: nat, reference: Option<nat>, amount: int)

  ghost function Served(v: Vendor, c: Call): Vendor {
    match c
    case CreateCall(order, total) => VendorCreate(v, order, total)
    case ConfirmCall(i, ok) => VendorResolve(v, i, ok)
    case RefundCall(i, reference, amount) => VendorRefund(v, i, reference, amount)
  }

  ghost function ServedAll(v: Vendor, calls: seq<Call>): Vendor {
    if calls == [] then v else Served(ServedAll(v, calls[..|calls| - 1]), calls[|calls| - 1])
  }

  lemma ReferenceStays(v: Vendor, c: Call, r: nat)
    requires r in v.refs
    ensures r in Served(v, c).refs && Served(v, c).refs[r] == v.refs[r]
  {
  }

  lemma {:induction false} ReferencesStay(v: Vendor, calls: seq<Call>, r: nat)
    requires r in v.refs
    ensures r in ServedAll(v, calls).refs && ServedAll(v, calls).refs[r] == v.refs[r]
  {
    hide Served;
    if calls != [] {
      ReferencesStay(v, calls[..|calls| - 1], r);
      ReferenceStays(ServedAll(v, calls[..|calls| - 1]), calls[|calls| - 1], r);
    }
  }

  /** A reference moves money once: after a call that bore it was accepted, and whatever is asked in between,
      it is answered with the same refund id and moves nothing, whatever intent or amount comes with it. */
  lemma ReferenceMovesOnce(v: Vendor, i: nat, r: nat, amount: int, calls: seq<Call>, j: nat, again: int)
    requires VendorReply(v, i, Some(r), amount).Accepted?
    ensures var after := ServedAll(VendorRefund(v, i, Some(r), amount), calls);
      && (j < |after.intents| ==> VendorReply(after, j, Some(r), again) == Duplicate(VendorReply(v, i, Some(r), amount).refundId))
      && VendorRefund(after, j, Some(r), again) == after
  {
    ReferencesStay(VendorRefund(v, i, Some(r), amount), calls, r);
  }

  ghost function Announced(i: nat): (nat, VendorEvent) -> int {
    (k: nat, e: VendorEvent) => if e.RefundedEvent? && e.intent == i then e.amount else 0
  }

  ghost predicate Balanced(v: Vendor) {
    && (forall i: nat | i < |v.intents| ::
          && v.intents[i].refunded == Total(Announced(i), v.events)
          && 0 <= v.intents[i].refunded <= v.intents[i].amount
          && (v.intents[i].refunded > 0 ==> v.intents[i].status == IntentSucceeded))
    && (forall k | 0 <= k < |v.events| && v.events[k].RefundedEvent? :: v.events[k].intent < |v.intents|)
    && (forall r | r in v.refs :: v.refs[r] < v.minted)
  }

  lemma ServedBalanced(v: Vendor, c: Call)
    requires Balanced(v)
    ensures Balanced(Served(v, c))
  {
    var after := Served(v, c);
    if c.CreateCall? {
      TotalZero(Announced(|v.intents|), v.events);
    } else if |after.events| > |v.events| {
      var e := after.events[|v.events|];
      assert after.events == v.events + [e];
      forall i: nat | i < |after.intents|
        ensures Total(Announced(i), after.events)
             == Total(Announced(i), v.events) + (if e.RefundedEvent? && e.intent == i then e.amount else 0)
      {
        TotalAppend(Announced(i), v.events, e);
      }
    }
  }

  /** Whatever is asked of the vendor, in whatever order and however often: no intent pays back more than it
      captured, and what it paid back is exactly what its webhooks announced. */
  lemma {:induction false} LedgerBalances(calls: seq<Call>)
    ensures Balanced(ServedAll(Vendor([], map[], 0, []), calls))
  {
    hide Served;
    if calls != [] {
      LedgerBalances(calls[..|calls| - 1]);
      ServedBalanced(ServedAll(Vendor([], map[], 0, []), calls[..|calls| - 1]), calls[|calls| - 1]);
    }
  }

  // ---- what the webhooks say ----

  ghost function Told(e: VendorEvent): (nat, VendorEvent) -> int {
    (k: nat, x: VendorEvent) => if x == e then 1 else 0
  }

  ghost function ToldRef(r: nat): (nat, VendorEvent) -> int {
    (k: nat, x: VendorEvent) => if x.RefundedEvent? && x.reference == Some(r) then 1 else 0
  }

  /** Every resolution and every refund is announced by exactly one webhook, of the right kind, and nothing else is. */
  ghost predicate Announcing(v: Vendor) {
    && (forall i: nat | i < |v.intents| ::
          && Total(Told(SucceededEvent(i)), v.events) == (if v.intents[i].status == IntentSucceeded then 1 else 0)
          && Total(Told(FailedEvent(i)), v.events) == (if v.intents[i].status == IntentFailed then 1 else 0))
    && (forall k | 0 <= k < |v.events| && (v.events[k].SucceededEvent? || v.events[k].FailedEvent?) ::
          v.events[k].intent < |v.intents|)
    && (forall r: nat :: Total(ToldRef(r), v.events) == if r in v.refs then 1 else 0)
    && (forall k | 0 <= k < |v.events| && v.events[k].RefundedEvent? && v.events[k].reference.Some? ::
          v.events[k].reference.value in v.refs && v.refs[v.events[k].reference.value] == v.events[k].refundId)
  }

  lemma ToldNext(events: seq<VendorEvent>, e: VendorEvent)
    ensures forall x: VendorEvent :: Total(Told(x), events + [e]) == Total(Told(x), events) + (if e == x then 1 else 0)
    ensures forall r: nat ::
      Total(ToldRef(r), events + [e]) == Total(ToldRef(r), events) + (if e.RefundedEvent? && e.reference == Some(r) then 1 else 0)
  {
    forall x: VendorEvent ensures Total(Told(x), events + [e]) == Total(Told(x), events) + (if e == x then 1 else 0) {
      TotalAppend(Told(x), events, e);
    }
    forall r: nat
      ensures Total(ToldRef(r), events + [e]) == Total(ToldRef(r), events) + (if e.RefundedEvent? && e.reference == Some(r) then 1 else 0)
    {
      TotalAppend(ToldRef(r), events, e);
    }
  }

  lemma CreatedAnnouncing(v: Vendor, order: nat, total: int)
    requires Announcing(v)
    ensures Announcing(VendorCreate(v, order, total))
  {
    TotalZero(Told(SucceededEvent(|v.intents|)), v.events);
    TotalZero(Told(FailedEvent(|v.intents|)), v.events);
    hide Total;
  }

  lemma ConfirmedAnnouncing(v: Vendor, i: nat, ok: bool)
    requires Announcing(v)
    ensures Announcing(VendorResolve(v, i, ok))
  {
    ToldNext(v.events, if ok then SucceededEvent(i) else FailedEvent(i));
    hide Total, Told, ToldRef;
  }

  lemma RefundedAnnouncing(v: Vendor, i: nat, reference: Option<nat>, amount: int)
    requires Announcing(v)
    ensures Announcing(VendorRefund(v, i, reference, amount))
  {
    var reply := VendorReply(v, i, reference, amount);
    if reply.Accepted? {
      ToldNext(v.events, RefundedEvent(i, reference, reply.refundId, amount));
    }
    hide Total, Told, ToldRef;
  }

  lemma ServedAnnouncing(v: Vendor, c: Call)
    requires Announcing(v)
    ensures Announcing(Served(v, c))
  {
    hide Announcing;
    match c {
      case CreateCall(order, total) => CreatedAnnouncing(v, order, total);
      case ConfirmCall(i, ok) => ConfirmedAnnouncing(v, i, ok);
      case RefundCall(i, reference, amount) => RefundedAnnouncing(v, i, reference, amount);
    }
  }

  /** Whatever is asked of the vendor: an intent is announced succeeded or failed exactly once if that is what it
      became and never otherwise, and a reference is announced refunded exactly once if it moved money, with the
      id it was answered. */
  lemma {:induction false} WebhooksTellAll(calls: seq<Call>)
    ensures Announcing(ServedAll(Vendor([], map[], 0, []), calls))
  {
    hide Served, Announcing;
    if calls == [] {
      NothingToTell();
    } else {
      WebhooksTellAll(calls[..|calls| - 1]);
      ServedAnnouncing(ServedAll(Vendor([], map[], 0, []), calls[..|calls| - 1]), calls[|calls| - 1]);
    }
  }

  lemma NothingToTell()
    ensures Announcing(Vendor([], map[], 0, []))
  {
  }
}
