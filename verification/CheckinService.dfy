/** The door: the first scan of an issued ticket admits, every other one does not. */
module CheckinService {
  import opened Tables
  import opened Transactions
  import opened Invariants
  import opened InventorySales
  import opened Store

  datatype ScanReply = UnknownTicket | TicketVoid | Admitted | AlreadyAdmitted

  /** Ticket `k` is for a tier of this event. */
  ghost predicate ForEvent(db: Db, event: nat, k: nat) {
    k < |db.tickets| && db.tickets[k].tier < |db.tiers| && db.tiers[db.tickets[k].tier].event == event
  }

  /** A scan admits exactly an issued ticket of the event, and then its row becomes checked in; any other scan is
      answered by the ticket's state and changes nothing. */
  ghost predicate ScanAnswer(db: Db, db2: Db, event: nat, k: nat, reply: ScanReply) {
    && (reply == Admitted <==> ForEvent(db, event, k) && db.tickets[k].status == Issued)
    && (reply == UnknownTicket <==> !ForEvent(db, event, k))
    && (reply == TicketVoid <==> ForEvent(db, event, k) && db.tickets[k].status == Void)
    && (reply == AlreadyAdmitted <==> ForEvent(db, event, k) && db.tickets[k].status == CheckedIn)
    && db2 == (if reply == Admitted then db.(tickets := db.tickets[k := db.tickets[k].(status := CheckedIn)]) else db)
  }

  lemma TicketScanned(db: Db, event: nat, k: nat)
    ensures var after := Transactions.CheckIn(db, event, k);
      if ForEvent(db, event, k) && db.tickets[k].status == Issued
      then after == db.(tickets := db.tickets[k := db.tickets[k].(status := CheckedIn)])
      else after == db
  {
  }

  class CheckinService {
    const db: Database

    constructor (db: Database)
      ensures this.db == db
    {
      this.db := db;
    }

    method CheckIn(event: nat, k: nat) returns (reply: ScanReply)
      requires db.Valid()
      modifies db
      ensures db.Snapshot() == Transactions.CheckIn(old(db.Snapshot()), event, k)
      ensures ScanAnswer(old(db.Snapshot()), db.Snapshot(), event, k, reply)
      ensures db.Valid()
    {
      hide InventoryOk;
      TicketScanned(db.Snapshot(), event, k);
      CheckInKeeps(db.Snapshot(), event, k);
      if !(k < |db.tickets| && db.tickets[k].tier < |db.tiers| && db.tiers[db.tickets[k].tier].event == event) {
        return UnknownTicket;
      }
      if db.tickets[k].status == Void {
        return TicketVoid;
      }
      var updated := db.tickets[k].status == Issued;
      if updated {
        db.tickets := db.tickets[k := db.tickets[k].(status := CheckedIn)];
      }
      return if updated then Admitted else AlreadyAdmitted;
    }
  }
}
