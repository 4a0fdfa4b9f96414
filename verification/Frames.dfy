/** Which actions leave which tables alone. */
module Frames {
  import opened Tables
  import opened Transactions
  import opened Protocol
  import opened InventoryCatalog

  lemma {:induction false} SectionsGrow(db: Db, event: nat, sections: seq<Section>)
    ensures var db2 := AddSections(db, event, sections);
      Grown(db.tiers, db.seats, db2.tiers, db2.seats)
      && db2 == db.(tiers := db2.tiers, stock := db2.stock, seats := db2.seats)
  {
    if sections != [] {
      SectionsGrow(db, event, sections[..|sections| - 1]);
    }
  }

  /** The organizer's edits and the clock. */
  lemma CatalogFrame(w: World, a: Action)
    requires OfCatalog(a)
    ensures Next(w, a) == w.(db := Next(w, a).db)
    ensures var after := Next(w, a).db;
      && Grown(w.db.tiers, w.db.seats, after.tiers, after.seats)
      && after == w.db.(tiers := after.tiers, stock := after.stock, seats := after.seats, now := after.now, published := after.published)
  {
    hide NextHolds, NextOrders, NextWebhooks, NextRefunds, CheckIn, EditAccepted, AddSections;
    if a.DoAddSeatMap? {
      SectionsGrow(w.db, a.event, a.sections);
    }
  }

  lemma HoldsFrame(w: World, a: Action)
    requires OfHolds(a)
    ensures Next(w, a) == w.(db := Next(w, a).db)
    ensures var after := Next(w, a).db;
      after == w.db.(holds := after.holds, nextHold := after.nextHold, feed := after.feed)
  {
    hide NextCatalog, NextOrders, NextWebhooks, NextRefunds, CheckIn, AcquireOutcomeOf, Sweepable;
  }

  /** A step is the step of its family. */
  lemma StepFamily(w: World, a: Action)
    ensures OfCatalog(a) ==> Next(w, a) == NextCatalog(w, a)
    ensures OfHolds(a) ==> Next(w, a) == NextHolds(w, a)
    ensures OfOrders(a) ==> Next(w, a) == NextOrders(w, a)
    ensures OfWebhooks(a) ==> Next(w, a) == NextWebhooks(w, a)
    ensures OfRefunds(a) ==> Next(w, a) == NextRefunds(w, a)
    ensures a.DoCheckIn? ==> Next(w, a) == w.(db := CheckIn(w.db, a.event, a.ticket))
  {
    hide NextCatalog, NextHolds, NextOrders, NextWebhooks, NextRefunds, CheckIn;
    OneFamily(a);
    hide OfCatalog, OfHolds, OfOrders, OfWebhooks, OfRefunds;
  }

  lemma OneFamily(a: Action)
    ensures OfHolds(a) ==> !OfCatalog(a)
    ensures OfOrders(a) ==> !OfCatalog(a) && !OfHolds(a)
    ensures OfWebhooks(a) ==> !OfCatalog(a) && !OfHolds(a) && !OfOrders(a)
    ensures OfRefunds(a) ==> !OfCatalog(a) && !OfHolds(a) && !OfOrders(a) && !OfWebhooks(a)
    ensures a.DoCheckIn? <==> !OfCatalog(a) && !OfHolds(a) && !OfOrders(a) && !OfWebhooks(a) && !OfRefunds(a)
  {
  }
}
