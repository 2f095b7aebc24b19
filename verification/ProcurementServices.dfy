/** TendersService and BidsService as they run, over the tables they share. */
module ProcurementServices {
  import opened Common
  import opened Awards
  import opened AwardTheorems

  datatype SupplierStatus = ACTIVE | SUSPENDED | BLACKLISTED

  class ProcurementTables {
    var suppliers: map<Id, SupplierStatus>
    var tenders: map<Id, Tender>
    var lots: map<Id, Id>
    var bids: map<Id, Bid>
    var awards: map<Id, Award>

    function Contents(): Tables
      reads this
    {
      Tables(tenders, lots, bids, awards)
    }

    predicate Valid()
      reads this
    {
      Inv(Contents())
    }

    constructor ()
      ensures Contents() == EMPTY && Valid()
    {
      tenders, lots, bids, awards, suppliers := map[], map[], map[], map[], map[];
    }
  }

  ghost predicate Eligible(suppliers: map<Id, SupplierStatus>, supplier: Id) {
    supplier in suppliers && suppliers[supplier] == ACTIVE
  }

  /** The bid belongs to a lot of a tender in this status. */
  ghost predicate InTender(
    bids: map<Id, Bid>, lots: map<Id, Id>, tenders: map<Id, Tender>, bid: Id, status: TenderStatus)
  {
    bid in bids && bids[bid].lot in lots && lots[bids[bid].lot] in tenders
    && tenders[lots[bids[bid].lot]].status == status
  }

  /** The tender has a lot, and every lot of it has an award. */
  ghost predicate Decided(lots: map<Id, Id>, awards: map<Id, Award>, tender: Id) {
    && (exists lot :: lot in lots && lots[lot] == tender)
    && (forall lot :: lot in lots && lots[lot] == tender ==> lot in awards)
  }

  class TendersService {
    const db: ProcurementTables

    constructor (db: ProcurementTables)
      ensures this.db == db
    {
      this.db := db;
    }

    method CreateTender(tender: Id, lots: set<Id>, closing: int)
      requires db.Valid() && tender !in db.tenders && lots != {} && lots !! db.lots.Keys
      modifies db
      ensures db.tenders == old(db.tenders)[tender := Tender(DRAFT, closing)]
      ensures db.lots.Keys == old(db.lots).Keys + lots && (forall lot :: lot in lots ==> db.lots[lot] == tender)
              && forall lot :: lot in old(db.lots) ==> db.lots[lot] == old(db.lots)[lot]
      ensures db.bids == old(db.bids) && db.awards == old(db.awards)
      ensures db.Valid() && db.Contents() == Call(old(db.Contents()), Create(tender, lots, closing))
    {
      hide Inv;
      CallKept(db.Contents(), Create(tender, lots, closing));
      db.tenders := db.tenders[tender := Tender(DRAFT, closing)];
      db.lots := db.lots + map lot | lot in lots :: tender;
    }

    method PublishTender(tender: Id) returns (r: Result<Tender>)
      requires db.Valid()
      modifies db`tenders
      ensures db.Valid() && db.Contents() == Call(old(db.Contents()), Publish(tender))
      ensures r.Ok? <==> tender in old(db.tenders) && old(db.tenders)[tender].status == DRAFT
      ensures r.Ok? ==> r.value == Tender(PUBLISHED, old(db.tenders)[tender].closing)
                        && db.tenders == old(db.tenders)[tender := r.value]
      ensures r.Err? ==> db.Contents() == old(db.Contents())
    {
      hide Inv;
      CallKept(db.Contents(), Publish(tender));
      if tender !in db.tenders { return Err(NotFound); }
      if db.tenders[tender].status != DRAFT { return Err(BadRequest); }
      db.tenders := db.tenders[tender := db.tenders[tender].(status := PUBLISHED)];
      r := Ok(db.tenders[tender]);
    }

    /** Closing makes the bids final and hands every lot of the tender to the detectors. */
    method CloseTender(tender: Id) returns (r: Result<set<Id>>)
      requires db.Valid()
      modifies db`tenders
      ensures db.Valid() && db.Contents() == Call(old(db.Contents()), Close(tender))
      ensures r.Ok? <==> tender in old(db.tenders) && old(db.tenders)[tender].status == PUBLISHED
      ensures r.Ok? ==> forall lot :: lot in r.value <==> lot in db.lots && db.lots[lot] == tender
      ensures r.Ok? ==> db.tenders == old(db.tenders)[tender := Tender(CLOSED, old(db.tenders)[tender].closing)]
      ensures r.Ok? ==> exists lot :: lot in db.lots && db.lots[lot] == tender && lot !in db.awards
      ensures r.Err? ==> db.Contents() == old(db.Contents())
    {
      hide Inv;
      CallKept(db.Contents(), Close(tender));
      if tender !in db.tenders { return Err(NotFound); }
      if db.tenders[tender].status != PUBLISHED { return Err(BadRequest); }
      CloseHasUnawarded(db.Contents(), tender);
      ghost var unawarded :| unawarded in db.lots && db.lots[unawarded] == tender && unawarded !in db.awards;
      db.tenders := db.tenders[tender := db.tenders[tender].(status := CLOSED)];
      var evaluated: set<Id> := {};
      var rest := db.lots.Keys;
      while rest != {}
        invariant rest <= db.lots.Keys
        invariant forall lot :: lot in evaluated <==> lot in db.lots && lot !in rest && db.lots[lot] == tender
        decreases |rest|
      {
        var lot :| lot in rest;
        if db.lots[lot] == tender { evaluated := evaluated + {lot}; }
        rest := rest - {lot};
      }
      r := Ok(evaluated);
    }

    method CancelTender(tender: Id) returns (r: Result<Tender>)
      requires db.Valid()
      modifies db`tenders
      ensures db.Valid() && db.Contents() == Call(old(db.Contents()), Cancel(tender))
      ensures r.Ok? <==> tender in old(db.tenders) && old(db.tenders)[tender].status !in {AWARDED, CANCELLED}
      ensures r.Ok? ==> r.value == Tender(CANCELLED, old(db.tenders)[tender].closing)
                        && db.tenders == old(db.tenders)[tender := r.value]
      ensures r.Err? ==> db.Contents() == old(db.Contents())
    {
      hide Inv;
      CallKept(db.Contents(), Cancel(tender));
      if tender !in db.tenders { return Err(NotFound); }
      var status := db.tenders[tender].status;
      if status == AWARDED || status == CANCELLED { return Err(BadRequest); }
      db.tenders := db.tenders[tender := db.tenders[tender].(status := CANCELLED)];
      r := Ok(db.tenders[tender]);
    }

    method AssertOpenForBidding(tender: Id, now: int) returns (r: Result<()>)
      ensures r.Ok? <==>
              tender in db.tenders && db.tenders[tender].status == PUBLISHED && now < db.tenders[tender].closing
    {
      if tender !in db.tenders { return Err(NotFound); }
      if db.tenders[tender].status != PUBLISHED { return Err(BadRequest); }
      if db.tenders[tender].closing <= now { return Err(BadRequest); }
      r := Ok(());
    }

    /** Marks a closed tender once every one of its lots, of which there is at least one, has an award. */
    method MaybeMarkAwarded(tender: Id)
      modifies db`tenders
      ensures db.tenders ==
              if tender in old(db.tenders) && old(db.tenders)[tender].status == CLOSED
                && Decided(db.lots, db.awards, tender)
              then old(db.tenders)[tender := Tender(AWARDED, old(db.tenders)[tender].closing)]
              else old(db.tenders)
      ensures db.Contents() == if Guard(old(db.Contents()), Mark(tender)) then Apply(old(db.Contents()), Mark(tender))
              else old(db.Contents())
    {
      if tender !in db.tenders || db.tenders[tender].status != CLOSED { return; }
      var allLotsAwarded, count := true, 0;
      var rest := db.lots.Keys;
      while rest != {}
        invariant rest <= db.lots.Keys
        invariant allLotsAwarded <==>
                  forall lot :: lot in db.lots && lot !in rest && db.lots[lot] == tender ==> lot in db.awards
        invariant count > 0 <==> exists lot :: lot in db.lots && lot !in rest && db.lots[lot] == tender
        decreases |rest|
      {
        var lot :| lot in rest;
        if db.lots[lot] == tender {
          count := count + 1;
          allLotsAwarded := allLotsAwarded && lot in db.awards;
        }
        rest := rest - {lot};
      }
      assert count > 0 <==> HasLot(db.Contents(), tender);
      assert allLotsAwarded <==> AllAwarded(db.Contents(), tender);
      if allLotsAwarded && count > 0 {
        db.tenders := db.tenders[tender := db.tenders[tender].(status := AWARDED)];
      }
    }
  }

  class BidsService {
    const db: ProcurementTables
    const tenders: TendersService

    constructor (tenders: TendersService)
      ensures this.tenders == tenders && this.db == tenders.db
    {
      this.tenders, this.db := tenders, tenders.db;
    }

    method SubmitBid(bid: Id, lot: Id, supplier: Id, amount: Positive, now: int) returns (r: Result<Bid>)
      requires db.Valid() && tenders.db == db && bid !in db.bids
      modifies db`bids
      ensures db.Valid()
      ensures db.Contents() == if Eligible(db.suppliers, supplier)
              then Call(old(db.Contents()), Submit(bid, lot, supplier, amount, now))
                               else old(db.Contents())
      ensures r.Ok? <==>
                && lot in db.lots && db.lots[lot] in db.tenders && db.tenders[db.lots[lot]].status == PUBLISHED
                && now < db.tenders[db.lots[lot]].closing
                && Eligible(db.suppliers, supplier)
                && forall b :: b in old(db.bids) && old(db.bids)[b].lot == lot ==> old(db.bids)[b].supplier != supplier
      ensures r.Err? ==> db.bids == old(db.bids)
      ensures r.Ok? ==>
              db.bids == old(db.bids)[bid := r.value] && r.value == Bid(lot, supplier, amount, SUBMITTED)
                && lot !in db.awards
    {
      CallKept(db.Contents(), Submit(bid, lot, supplier, amount, now));
      if lot !in db.lots { return Err(NotFound); }
      var open := tenders.AssertOpenForBidding(db.lots[lot], now);
      if open.Err? { return Err(open.error); }
      if supplier !in db.suppliers { return Err(NotFound); }
      if db.suppliers[supplier] != ACTIVE { return Err(BadRequest); }
      NoAwardYet(db.Contents(), lot);
      hide Inv;
      if SupplierBid(db.bids, lot, supplier) { return Err(Conflict); }
      db.bids := db.bids[bid := Bid(lot, supplier, amount, SUBMITTED)];
      r := Ok(db.bids[bid]);
    }

    method EvaluateBid(bid: Id) returns (r: Result<Bid>)
      requires db.Valid()
      modifies db`bids
      ensures db.Valid() && db.Contents() == Call(old(db.Contents()), Evaluate(bid))
      ensures r.Ok? <==> InTender(old(db.bids), db.lots, db.tenders, bid, CLOSED)
                         && old(db.bids)[bid].status == SUBMITTED
      ensures r.Err? ==> db.bids == old(db.bids)
      ensures r.Ok? ==> db.bids == old(db.bids)[bid := old(db.bids)[bid].(status := EVALUATED)]
    {
      hide Inv;
      CallKept(db.Contents(), Evaluate(bid));
      if bid !in db.bids { return Err(NotFound); }
      if db.bids[bid].status != SUBMITTED { return Err(BadRequest); }
      if db.bids[bid].lot !in db.lots || db.lots[db.bids[bid].lot] !in db.tenders { return Err(NotFound); }
      if db.tenders[db.lots[db.bids[bid].lot]].status != CLOSED { return Err(BadRequest); }
      db.bids := db.bids[bid := db.bids[bid].(status := EVALUATED)];
      r := Ok(db.bids[bid]);
    }

    /** The transaction of an award: the award row, the winner, then all the others of the lot. */
    method AwardTransaction(bid: Id) returns (ok: bool)
      requires bid in db.bids
      modifies db`bids, db`awards
      ensures ok <==> old(db.bids)[bid].lot !in old(db.awards)
      ensures ok ==>
                && db.awards == old(db.awards)[old(db.bids)[bid].lot := Award(bid, old(db.bids)[bid].amount)]
                && db.bids.Keys == old(db.bids).Keys
                && forall b :: b in db.bids ==>
                     var was := old(db.bids)[b];
                     var loses := was.lot == old(db.bids)[bid].lot
                                  && (was.status == SUBMITTED || was.status == EVALUATED);
                     db.bids[b] == was.(status := if b == bid then WON else if loses then REJECTED else was.status)
      ensures !ok ==> db.awards == old(db.awards) && db.bids == old(db.bids)
      ensures db.Contents() == Apply(old(db.Contents()), Win(bid))
    {
      var lot := db.bids[bid].lot;
      if lot in db.awards { return false; }
      db.awards := db.awards[lot := Award(bid, db.bids[bid].amount)];
      var was := db.bids;
      db.bids := db.bids[bid := db.bids[bid].(status := WON)];
      var others := map b | b in db.bids && b != bid && db.bids[b].lot == lot
        && db.bids[b].status in {SUBMITTED, EVALUATED}
                      :: db.bids[b].(status := REJECTED);
      db.bids := db.bids + others;
      assert db.bids == WinBids(was, bid);
      ok := true;
    }

    method AwardBid(bid: Id) returns (r: Result<Award>)
      requires db.Valid() && tenders.db == db
      modifies db
      ensures db.Valid() && db.Contents() == Call(old(db.Contents()), Win(bid))
      ensures r.Ok? <==> InTender(old(db.bids), old(db.lots), old(db.tenders), bid, CLOSED)
                         && old(db.bids)[bid].status == EVALUATED
      ensures r.Ok? ==>
                var lot := old(db.bids)[bid].lot;
                && r.value == Award(bid, old(db.bids)[bid].amount)
                && lot !in old(db.awards) && db.awards == old(db.awards)[lot := r.value]
                && db.bids.Keys == old(db.bids).Keys
                && (forall b :: b in db.bids ==>
                     var was := old(db.bids)[b];
                     db.bids[b]
                     == was.(status := if b == bid then WON else if was.lot == lot then REJECTED else was.status))
                && db.lots == old(db.lots)
                && var tender := db.lots[lot];
                   db.tenders ==
                     if Decided(db.lots, db.awards, tender)
                     then old(db.tenders)[tender := Tender(AWARDED, old(db.tenders)[tender].closing)]
                     else old(db.tenders)
      ensures r.Err? ==> db.Contents() == old(db.Contents())
    {
      hide Inv, LotOk, AfterWin, AllAwarded, HasLot, Decided;
      CallKept(db.Contents(), Win(bid));
      if bid !in db.bids { return Err(NotFound); }
      if db.bids[bid].status != EVALUATED { return Err(BadRequest); }
      var lot := db.bids[bid].lot;
      if lot !in db.lots || db.lots[lot] !in db.tenders { return Err(NotFound); }
      if db.tenders[db.lots[lot]].status != CLOSED { return Err(BadRequest); }
      LotDecided(db.Contents(), bid);
      var tender := db.lots[lot];
      var ok := AwardTransaction(bid);
      var created := db.awards[lot];
      tenders.MaybeMarkAwarded(tender);
      r := Ok(created);
    }
  }

  /** What an award leaves behind on its lot. */
  lemma LotDecided(s: Tables, bid: Id)
    requires Inv(s) && Guard(s, Win(bid))
    ensures var u, lot := Apply(s, Win(bid)), s.bids[bid].lot;
            && lot !in s.awards && lot in u.awards && u.awards[lot] == Award(bid, s.bids[bid].amount)
            && bid in u.bids && u.bids[bid] == s.bids[bid].(status := WON)
            && forall b :: b in u.bids && u.bids[b].lot == lot && b != bid ==> u.bids[b].status == REJECTED
  {
    UndecidedHasNoAward(s, bid);
    WinLots(s, bid);
    hide Inv, References;
    assert LotOk(Apply(s, Win(bid)).bids, Apply(s, Win(bid)).awards, s.bids[bid].lot);
  }
}
