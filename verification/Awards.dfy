/** Tenders, bids and awards: the writes of TendersService and BidsService and the checks each is made behind. */
module Awards {
  import opened Common

  datatype TenderStatus = DRAFT | PUBLISHED | CLOSED | AWARDED | CANCELLED
  datatype BidStatus = SUBMITTED | EVALUATED | WON | REJECTED

  datatype Tender = Tender(status: TenderStatus, closing: int)
  datatype Bid = Bid(lot: Id, supplier: Id, amount: Positive, status: BidStatus)
  datatype Award = Award(bid: Id, amount: Money)

  /** Each lot names its tender; awards are keyed by lot, as their unique constraint makes them. */
  datatype Tables = Tables(tenders: map<Id, Tender>, lots: map<Id, Id>, bids: map<Id, Bid>, awards: map<Id, Award>)

  const EMPTY := Tables(map[], map[], map[], map[])

  datatype Write =
    | Create(tender: Id, lots: set<Id>, closing: int)
    | Publish(tender: Id)
    | Close(tender: Id)
    | Cancel(tender: Id)
    | Mark(tender: Id)
    | Submit(bid: Id, lot: Id, supplier: Id, amount: Positive, now: int)
    | Evaluate(bid: Id)
    | Win(bid: Id)

  function StatusOf(s: Tables, tender: Id): Option<TenderStatus> {
    if tender in s.tenders then Some(s.tenders[tender].status) else None
  }

  /** The status of the tender that a bid's lot belongs to. */
  function TenderOfBid(s: Tables, bid: Id): Option<TenderStatus> {
    if bid in s.bids && s.bids[bid].lot in s.lots then StatusOf(s, s.lots[s.bids[bid].lot]) else None
  }

  predicate AllAwarded(s: Tables, tender: Id) {
    forall lot :: lot in s.lots && s.lots[lot] == tender ==> lot in s.awards
  }

  predicate HasLot(s: Tables, tender: Id) {
    exists lot :: lot in s.lots && s.lots[lot] == tender
  }

  /** What a call checks on the rows it reads before it writes. */
  predicate Guard(s: Tables, w: Write) {
    match w
    case Create(tender, lots, _) => tender !in s.tenders && lots != {} && lots !! s.lots.Keys
    case Publish(tender) => StatusOf(s, tender) == Some(DRAFT)
    case Close(tender) => StatusOf(s, tender) == Some(PUBLISHED)
    case Cancel(tender) => tender in s.tenders && s.tenders[tender].status != AWARDED
      && s.tenders[tender].status != CANCELLED
    case Mark(tender) => StatusOf(s, tender) == Some(CLOSED) && AllAwarded(s, tender) && HasLot(s, tender)
    case Submit(bid, lot, _, _, now) =>
      bid !in s.bids && lot in s.lots && StatusOf(s, s.lots[lot]) == Some(PUBLISHED)
        && now < s.tenders[s.lots[lot]].closing
    case Evaluate(bid) => bid in s.bids && s.bids[bid].status == SUBMITTED && TenderOfBid(s, bid) == Some(CLOSED)
    case Win(bid) => bid in s.bids && s.bids[bid].status == EVALUATED && TenderOfBid(s, bid) == Some(CLOSED)
  }

  function SetTender(s: Tables, tender: Id, status: TenderStatus): Tables {
    if tender in s.tenders then s.(tenders := s.tenders[tender := s.tenders[tender].(status := status)]) else s
  }

  /** The status of a bid once `winner` has won its lot. */
  function AfterWin(bids: map<Id, Bid>, winner: Id, b: Id): BidStatus
    requires winner in bids && b in bids
  {
    if b == winner then WON
    else if bids[b].lot == bids[winner].lot
      && (bids[b].status == SUBMITTED || bids[b].status == EVALUATED) then REJECTED
    else bids[b].status
  }

  function WinBids(bids: map<Id, Bid>, winner: Id): map<Id, Bid>
    requires winner in bids
  {
    map b | b in bids :: bids[b].(status := AfterWin(bids, winner, b))
  }

  predicate SupplierBid(bids: map<Id, Bid>, lot: Id, supplier: Id) {
    exists b :: b in bids && bids[b].lot == lot && bids[b].supplier == supplier
  }

  /** The write itself, one statement or transaction; a unique constraint it breaks rolls it back. */
  function Apply(s: Tables, w: Write): Tables {
    match w
    case Create(tender, lots, closing) =>
      if tender in s.tenders || !(lots !! s.lots.Keys) then s
      else s.(tenders := s.tenders[tender := Tender(DRAFT, closing)], lots := s.lots + map lot | lot in lots :: tender)
    case Publish(tender) => SetTender(s, tender, PUBLISHED)
    case Close(tender) => SetTender(s, tender, CLOSED)
    case Cancel(tender) => SetTender(s, tender, CANCELLED)
    case Mark(tender) => SetTender(s, tender, AWARDED)
    case Submit(bid, lot, supplier, amount, _) =>
      if bid in s.bids || SupplierBid(s.bids, lot, supplier) then s
      else s.(bids := s.bids[bid := Bid(lot, supplier, amount, SUBMITTED)])
    case Evaluate(bid) => if bid in s.bids then s.(bids := s.bids[bid := s.bids[bid].(status := EVALUATED)]) else s
    case Win(bid) =>
      if bid !in s.bids || s.bids[bid].lot in s.awards then s
      else s.(bids := WinBids(s.bids, bid), awards := s.awards[s.bids[bid].lot := Award(bid, s.bids[bid].amount)])
  }

  /** A whole call that nothing overtakes. An award is followed by the check whether it was the tender's last. */
  function Call(s: Tables, w: Write): Tables {
    if !Guard(s, w) then s else
    var t := Apply(s, w);
    match w
    case Win(bid) =>
      var tender := s.lots[s.bids[bid].lot];
      if t != s && Guard(t, Mark(tender)) then Apply(t, Mark(tender)) else t
    case _ => t
  }

  predicate May(s: Tables, w: Write) {
    !w.Mark?
  }

  // Atomic calls

  predicate References(s: Tables) {
    && (forall lot :: lot in s.lots ==> s.lots[lot] in s.tenders)
    && (forall b :: b in s.bids ==> s.bids[b].lot in s.lots)
    && (forall lot :: lot in s.awards ==> lot in s.lots)
    && (forall t :: t in s.tenders ==> HasLot(s, t))
  }

  /**
   * The lot's award is its one winning bid at that bid's amount, with all others rejected; without one, nothing is
   * decided.
   */
  predicate LotOk(bids: map<Id, Bid>, awards: map<Id, Award>, lot: Id) {
    if lot in awards then
      && awards[lot].bid in bids && bids[awards[lot].bid].lot == lot && bids[awards[lot].bid].status == WON
      && awards[lot].amount == bids[awards[lot].bid].amount
      && forall b :: b in bids && bids[b].lot == lot && b != awards[lot].bid ==> bids[b].status == REJECTED
    else
      forall b :: b in bids && bids[b].lot == lot ==> bids[b].status == SUBMITTED || bids[b].status == EVALUATED
  }

  predicate LotsOk(bids: map<Id, Bid>, awards: map<Id, Award>, lots: map<Id, Id>) {
    forall lot :: lot in lots ==> LotOk(bids, awards, lot)
  }

  predicate TenderOk(s: Tables, t: Id)
    requires t in s.tenders
  {
    match s.tenders[t].status
    case AWARDED => AllAwarded(s, t)
    case CLOSED => !AllAwarded(s, t)
    case CANCELLED => true
    case _ => forall lot :: lot in s.lots && s.lots[lot] == t ==> lot !in s.awards
  }

  predicate TendersOk(s: Tables) {
    forall t :: t in s.tenders ==> TenderOk(s, t)
  }

  predicate Inv(s: Tables) {
    References(s) && LotsOk(s.bids, s.awards, s.lots) && TendersOk(s)
  }

  lemma CreateKept(s: Tables, w: Write)
    requires Inv(s) && w.Create? && Guard(s, w)
    ensures Inv(Apply(s, w))
  {
    var u := Apply(s, w);
    hide LotOk, TenderOk, HasLot;
    CreateHasLots(s, w);
    forall lot | lot in u.lots ensures LotOk(u.bids, u.awards, lot) {
      if lot !in s.lots { Untouched(s, lot); } else { assert LotOk(s.bids, s.awards, lot); }
    }
    forall t | t in u.tenders ensures TenderOk(u, t) { CreateTenderOk(s, w, t); }
  }

  lemma CreateHasLots(s: Tables, w: Write)
    requires Inv(s) && w.Create? && Guard(s, w)
    ensures forall t :: t in Apply(s, w).tenders ==> HasLot(Apply(s, w), t)
  {
    hide LotsOk, TendersOk;
    var u := Apply(s, w);
    forall t | t in u.tenders ensures HasLot(u, t) {
      if t == w.tender {
        var lot :| lot in w.lots;
        assert lot in u.lots && u.lots[lot] == t;
      } else {
        assert HasLot(s, t);
        var lot :| lot in s.lots && s.lots[lot] == t;
        assert lot in u.lots && u.lots[lot] == t;
      }
    }
  }

  lemma CreateTenderOk(s: Tables, w: Write, t: Id)
    requires Inv(s) && w.Create? && Guard(s, w) && t in Apply(s, w).tenders
    ensures TenderOk(Apply(s, w), t)
  {
    hide LotsOk;
    if t in s.tenders { assert TenderOk(s, t); }
  }

  /** Nothing refers to a lot that does not exist. */
  lemma Untouched(s: Tables, lot: Id)
    requires References(s) && lot !in s.lots
    ensures LotOk(s.bids, s.awards, lot) && lot !in s.awards
  {}

  lemma StatusKept(s: Tables, tender: Id, status: TenderStatus)
    requires Inv(s) && tender in s.tenders
    requires TenderOk(s.(tenders := s.tenders[tender := s.tenders[tender].(status := status)]), tender)
    ensures Inv(SetTender(s, tender, status))
  {
    hide LotsOk;
    var u := SetTender(s, tender, status);
    forall t | t in u.tenders ensures HasLot(u, t) {
      var lot :| lot in s.lots && s.lots[lot] == t;
      assert lot in u.lots && u.lots[lot] == t;
    }
    forall t | t in u.tenders ensures TenderOk(u, t) {
      if t != tender { assert TenderOk(s, t); }
    }
  }

  lemma CloseHasUnawarded(s: Tables, tender: Id)
    requires Inv(s) && StatusOf(s, tender) == Some(PUBLISHED)
    ensures !AllAwarded(s, tender)
  {
    assert TenderOk(s, tender) && HasLot(s, tender);
    var lot :| lot in s.lots && s.lots[lot] == tender;
  }

  lemma TenderMoveKept(s: Tables, w: Write)
    requires Inv(s) && Guard(s, w) && (w.Publish? || w.Close? || w.Cancel? || w.Mark?)
    ensures Inv(Apply(s, w))
  {
    assert TenderOk(s, w.tender);
    match w
    case Publish(t) => StatusKept(s, t, PUBLISHED);
    case Close(t) => CloseHasUnawarded(s, t); StatusKept(s, t, CLOSED);
    case Cancel(t) => StatusKept(s, t, CANCELLED);
    case Mark(t) => StatusKept(s, t, AWARDED);
  }

  /** Bids change, tenders, lots and awards do not. */
  lemma BidsKept(s: Tables, bids: map<Id, Bid>)
    requires Inv(s) && LotsOk(bids, s.awards, s.lots) && forall b :: b in bids ==> bids[b].lot in s.lots
    ensures Inv(s.(bids := bids))
  {
    hide LotsOk;
    var u := s.(bids := bids);
    forall t | t in u.tenders ensures HasLot(u, t) && TenderOk(u, t) {
      var lot :| lot in s.lots && s.lots[lot] == t;
      assert lot in u.lots && u.lots[lot] == t;
      assert TenderOk(s, t);
    }
  }

  /** A new or re-evaluated bid keeps the lots in order exactly when its lot has no award yet. */
  lemma BidPut(bids: map<Id, Bid>, awards: map<Id, Award>, lots: map<Id, Id>, id: Id, bid: Bid)
    requires LotsOk(bids, awards, lots) && bid.lot in lots && (bid.status == SUBMITTED || bid.status == EVALUATED)
    requires id in bids ==> bids[id].lot == bid.lot
    ensures LotsOk(bids[id := bid], awards, lots) <==> bid.lot !in awards
  {
    var after := bids[id := bid];
    if bid.lot !in awards {
      forall lot | lot in lots ensures LotOk(after, awards, lot) { assert LotOk(bids, awards, lot); }
    } else {
      assert id in after && after[id] == bid;
      assert !LotOk(after, awards, bid.lot);
    }
  }

  lemma NoAwardYet(s: Tables, lot: Id)
    requires Inv(s) && lot in s.lots && StatusOf(s, s.lots[lot]) == Some(PUBLISHED)
    ensures lot !in s.awards
  {
    assert TenderOk(s, s.lots[lot]);
  }

  lemma UndecidedHasNoAward(s: Tables, bid: Id)
    requires Inv(s) && bid in s.bids && (s.bids[bid].status == SUBMITTED || s.bids[bid].status == EVALUATED)
    ensures s.bids[bid].lot !in s.awards
  {
    assert LotOk(s.bids, s.awards, s.bids[bid].lot);
  }

  lemma BidMoveKept(s: Tables, w: Write)
    requires Inv(s) && Guard(s, w) && (w.Submit? || w.Evaluate?)
    ensures Inv(Apply(s, w))
  {
    hide LotsOk, TendersOk;
    var u := Apply(s, w);
    if w.Submit? {
      NoAwardYet(s, w.lot);
      BidPut(s.bids, s.awards, s.lots, w.bid, Bid(w.lot, w.supplier, w.amount, SUBMITTED));
    } else {
      UndecidedHasNoAward(s, w.bid);
      BidPut(s.bids, s.awards, s.lots, w.bid, s.bids[w.bid].(status := EVALUATED));
    }
    BidsKept(s, u.bids);
  }

  lemma WinLots(s: Tables, bid: Id)
    requires Inv(s) && Guard(s, Win(bid))
    ensures var u := Apply(s, Win(bid));
            References(u) && LotsOk(u.bids, u.awards, u.lots) && s.bids[bid].lot !in s.awards
  {
    hide References, LotsOk, TendersOk, Apply;
    UndecidedHasNoAward(s, bid);
    WinReferences(s, bid);
    AwardLots(s, bid);
  }

  /** An award leaves every lot in order: its own decided, the others as they were. */
  lemma AwardLots(s: Tables, b: Id)
    requires References(s) && LotsOk(s.bids, s.awards, s.lots) && b in s.bids
    ensures var u := Apply(s, Win(b)); LotsOk(u.bids, u.awards, u.lots)
  {
    hide HasLot, LotOk;
    var u := Apply(s, Win(b));
    forall lot | lot in u.lots ensures LotOk(u.bids, u.awards, lot) {
      assert LotOk(s.bids, s.awards, lot);
      if s.bids[b].lot !in s.awards {
        AwardLot(s.bids, s.awards, b, lot);
      }
    }
  }

  lemma AwardLot(bids: map<Id, Bid>, awards: map<Id, Award>, b: Id, lot: Id)
    requires b in bids && bids[b].lot !in awards && LotOk(bids, awards, lot)
    ensures LotOk(WinBids(bids, b), awards[bids[b].lot := Award(b, bids[b].amount)], lot)
  {}

  lemma WinReferences(s: Tables, bid: Id)
    requires References(s)
    ensures References(Apply(s, Win(bid)))
  {
    hide AfterWin;
    var u := Apply(s, Win(bid));
    forall t | t in u.tenders ensures HasLot(u, t) {
      assert HasLot(s, t);
      var lot :| lot in s.lots && s.lots[lot] == t;
      assert lot in u.lots && u.lots[lot] == t;
    }
  }

  lemma WinOthers(s: Tables, bid: Id, t: Id)
    requires Inv(s) && Guard(s, Win(bid)) && t in s.tenders && t != s.lots[s.bids[bid].lot]
    ensures TenderOk(Apply(s, Win(bid)), t)
  {
    assert TenderOk(s, t);
    UndecidedHasNoAward(s, bid);
  }

  lemma WinKept(s: Tables, bid: Id)
    requires Inv(s) && Guard(s, Win(bid))
    ensures Inv(Call(s, Win(bid)))
  {
    hide LotsOk, LotOk, AfterWin, TenderOk;
    var u, tender := Apply(s, Win(bid)), s.lots[s.bids[bid].lot];
    WinLots(s, bid);
    assert u.awards != s.awards;
    forall t | t in u.tenders && t != tender ensures TenderOk(u, t) { WinOthers(s, bid, t); }
    hide References, Apply;
    WinEnds(u, tender);
  }

  /** After an award, marking the tender when it was its last restores the tender's rule. */
  lemma WinEnds(u: Tables, tender: Id)
    requires References(u) && LotsOk(u.bids, u.awards, u.lots) && StatusOf(u, tender) == Some(CLOSED)
    requires forall t :: t in u.tenders && t != tender ==> TenderOk(u, t)
    ensures Inv(if Guard(u, Mark(tender)) then Apply(u, Mark(tender)) else u)
  {
    hide LotsOk;
    var v := if Guard(u, Mark(tender)) then Apply(u, Mark(tender)) else u;
    assert HasLot(u, tender);
    forall t | t in v.tenders ensures TenderOk(v, t) && HasLot(v, t) {
      assert HasLot(u, t);
      var lot :| lot in u.lots && u.lots[lot] == t;
      assert lot in v.lots && v.lots[lot] == t;
      assert t != tender ==> TenderOk(u, t);
    }
  }
}
