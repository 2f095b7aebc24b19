/**
 * Tenders, bids and awards under calls that overtake each other: each call first checks and later writes, and an award
 * is
 * followed by a look whether it was its tender's last. What every interleaving keeps, and which writes break the rules.
 */
module AwardRaces {
  import opened Common
  import opened Runs
  import opened Awards
  import opened AwardTheorems

  /**
   * The tables; the writes of the calls that have passed their check, of which several may be the same; and the tenders
   * of the award calls that have committed and not yet looked whether theirs was the last award.
   */
  datatype Race = Race(tables: Tables, pending: multiset<Write>, owed: multiset<Id>)

  datatype Move = Check(w: Write) | Do(w: Write) | Look(tender: Id)

  predicate MayRace(r: Race, m: Move) {
    match m
    case Check(w) => !w.Mark? && Guard(r.tables, w)
    case Do(w) => w in r.pending
    case Look(t) => t in r.owed
  }

  /** The award's insert goes through. */
  predicate Succeeds(s: Tables, w: Write) {
    w.Win? && w.bid in s.bids && s.bids[w.bid].lot !in s.awards && s.bids[w.bid].lot in s.lots
  }

  function Owes(s: Tables, w: Write): multiset<Id> {
    if Succeeds(s, w) then multiset{s.lots[s.bids[w.bid].lot]} else multiset{}
  }

  function Step(r: Race, m: Move): Race {
    match m
    case Check(w) => r.(pending := r.pending + multiset{w})
    case Do(w) => Race(Apply(r.tables, w), r.pending - multiset{w}, r.owed + Owes(r.tables, w))
    case Look(t) =>
      r.(pending := r.pending + if Guard(r.tables, Mark(t)) then multiset{Mark(t)} else multiset{},
         owed := r.owed - multiset{t})
  }

  // What every interleaving keeps

  predicate AwardOk(s: Tables, lot: Id)
    requires lot in s.awards
  {
    && lot in s.lots && s.awards[lot].bid in s.bids
    && s.bids[s.awards[lot].bid].lot == lot && s.bids[s.awards[lot].bid].amount == s.awards[lot].amount
  }

  predicate WinnerOk(s: Tables, b: Id)
    requires b in s.bids
  {
    s.bids[b].lot in s.lots
      && (s.bids[b].status == WON ==> s.bids[b].lot in s.awards && s.awards[s.bids[b].lot].bid == b)
  }

  predicate PendingOk(s: Tables, w: Write) {
    match w
    case Create(_, lots, _) => lots != {}
    case Mark(t) => t in s.tenders && AllAwarded(s, t)
    case Submit(_, lot, _, _, _) => lot in s.lots
    case Evaluate(b) => b in s.bids
    case Win(b) => b in s.bids
    case _ => true
  }

  predicate TablesOk(s: Tables) {
    && (forall lot :: lot in s.awards ==> AwardOk(s, lot))
    && (forall b :: b in s.bids ==> WinnerOk(s, b))
    && (forall t :: t in s.tenders && s.tenders[t].status == AWARDED ==> AllAwarded(s, t))
    && (forall lot :: lot in s.lots ==> s.lots[lot] in s.tenders)
  }

  predicate RaceInv(r: Race) {
    TablesOk(r.tables) && forall w :: w in r.pending ==> PendingOk(r.tables, w)
  }

  /** Lots, bids and awards are never removed, and an award is never replaced. */
  predicate Grew(s: Tables, t: Tables) {
    && (forall x :: x in s.tenders ==> x in t.tenders)
    && (forall x :: x in s.lots ==> x in t.lots && t.lots[x] == s.lots[x])
    && (forall x :: x in t.lots && x !in s.lots ==> t.lots[x] !in s.tenders)
    && (forall x :: x in s.bids ==> x in t.bids && t.bids[x].(status := SUBMITTED) == s.bids[x].(status := SUBMITTED))
    && (forall x :: x in s.awards ==> x in t.awards && t.awards[x] == s.awards[x])
  }

  lemma ApplyGrew(s: Tables, w: Write)
    requires TablesOk(s)
    ensures Grew(s, Apply(s, w))
  {
    hide AwardOk, WinnerOk, AfterWin;
  }

  lemma AllAwardedGrew(s: Tables, t: Tables, tender: Id)
    requires Grew(s, t) && tender in s.tenders && AllAwarded(s, tender)
    ensures AllAwarded(t, tender)
  {}

  lemma WinTablesOk(s: Tables, bid: Id)
    requires TablesOk(s)
    ensures var u := Apply(s, Win(bid));
            && (forall lot :: lot in u.awards ==> AwardOk(u, lot))
            && (forall b :: b in u.bids ==> WinnerOk(u, b))
  {
    var u := Apply(s, Win(bid));
    forall lot | lot in u.awards ensures AwardOk(u, lot) {
      assert lot in s.awards ==> AwardOk(s, lot);
      assert bid in s.bids ==> WinnerOk(s, bid);
    }
    forall b | b in u.bids ensures WinnerOk(u, b) { assert WinnerOk(s, b); }
  }

  lemma RowsOk(s: Tables, w: Write)
    requires TablesOk(s) && PendingOk(s, w) && !w.Win?
    ensures var u := Apply(s, w);
            && (forall lot :: lot in u.awards ==> AwardOk(u, lot))
            && (forall b :: b in u.bids ==> WinnerOk(u, b))
  {
    var u := Apply(s, w);
    forall lot | lot in u.awards ensures AwardOk(u, lot) { assert AwardOk(s, lot); }
    forall b | b in u.bids ensures WinnerOk(u, b) { assert b in s.bids ==> WinnerOk(s, b); }
  }

  lemma ApplyKept(s: Tables, w: Write)
    requires TablesOk(s) && PendingOk(s, w)
    ensures TablesOk(Apply(s, w))
  {
    var u := Apply(s, w);
    ApplyGrew(s, w);
    if w.Win? { WinTablesOk(s, w.bid); } else { RowsOk(s, w); }
    LotsHaveTenders(s, w);
    AwardedBefore(s, w);
    hide AwardOk, WinnerOk, AllAwarded, Apply, Grew, PendingOk;
    forall t | t in u.tenders && u.tenders[t].status == AWARDED ensures AllAwarded(u, t) {
      if t in s.tenders { AllAwardedGrew(s, u, t); }
    }
  }

  lemma LotsHaveTenders(s: Tables, w: Write)
    requires TablesOk(s)
    ensures var u := Apply(s, w); forall lot :: lot in u.lots ==> u.lots[lot] in u.tenders
  {
    hide AwardOk, WinnerOk, AllAwarded, AfterWin;
  }

  /** A tender is AWARDED after a write only if it was before, or the write marks it. */
  lemma AwardedBefore(s: Tables, w: Write)
    requires TablesOk(s) && PendingOk(s, w)
    ensures var u := Apply(s, w);
            forall t :: t in u.tenders && u.tenders[t].status == AWARDED ==> t in s.tenders && AllAwarded(s, t)
  {
    hide AwardOk, WinnerOk, AllAwarded, AfterWin;
  }

  lemma PendingGrew(s: Tables, t: Tables, w: Write)
    requires Grew(s, t) && PendingOk(s, w)
    ensures PendingOk(t, w)
  {
    if w.Mark? { AllAwardedGrew(s, t, w.tender); }
  }

  lemma CheckedOk(s: Tables, w: Write)
    requires TablesOk(s) && Guard(s, w)
    ensures PendingOk(s, w)
  {
    hide TablesOk;
  }

  lemma StepKept(r: Race, m: Move)
    requires RaceInv(r) && MayRace(r, m)
    ensures RaceInv(Step(r, m))
  {
    hide TablesOk, AllAwarded, Grew, Apply, Guard, PendingOk;
    match m
    case Check(w) => CheckedOk(r.tables, w);
    case Do(w) =>
      var u := Apply(r.tables, w);
      ApplyKept(r.tables, w);
      ApplyGrew(r.tables, w);
      forall x | x in r.pending ensures PendingOk(u, x) { PendingGrew(r.tables, u, x); }
    case Look(t) =>
      if Guard(r.tables, Mark(t)) { CheckedOk(r.tables, Mark(t)); }
  }

  const IDLE := Race(EMPTY, multiset{}, multiset{})

  ghost predicate Raced(r: Race) {
    exists ms :: IsRun(IDLE, ms, Step, MayRace) && Run(IDLE, ms, Step) == r
  }

  lemma RacedInv(r: Race)
    requires Raced(r)
    ensures RaceInv(r)
  {
    var ms :| IsRun(IDLE, ms, Step, MayRace) && Run(IDLE, ms, Step) == r;
    assert RaceInv(IDLE);
    hide RaceInv, Step, MayRace;
    forall q, m | RaceInv(q) && MayRace(q, m) ensures RaceInv(Step(q, m)) { StepKept(q, m); }
    Invariant(IDLE, ms, Step, MayRace, RaceInv);
  }

  /**
   * In every interleaving an award names a bid of its lot at that bid's amount, and no other bid of the lot has won.
   */
  lemma OneWinnerAlways(s: Race, lot: Id)
    requires Raced(s)
    ensures lot in s.tables.awards ==>
              var a := s.tables.awards[lot];
              a.bid in s.tables.bids && s.tables.bids[a.bid].lot == lot && s.tables.bids[a.bid].amount == a.amount
    ensures forall b :: Wins(s.tables, lot, b) ==> lot in s.tables.awards && s.tables.awards[lot].bid == b
    ensures forall t :: t in s.tables.tenders && s.tables.tenders[t].status == AWARDED ==> AllAwarded(s.tables, t)
  {
    RacedInv(s);
    assert lot in s.tables.awards ==> AwardOk(s.tables, lot);
    forall b | Wins(s.tables, lot, b) ensures lot in s.tables.awards && s.tables.awards[lot].bid == b {
      assert WinnerOk(s.tables, b);
    }
  }

  predicate AwardsKept(s: Race, t: Race) {
    forall lot :: lot in s.tables.awards ==> lot in t.tables.awards && t.tables.awards[lot] == s.tables.awards[lot]
  }

  /** An award is final: nothing that any call does later removes or replaces it. */
  lemma AwardsAreFinal(s: Race, ms: seq<Move>)
    requires Raced(s) && IsRun(s, ms, Step, MayRace)
    ensures AwardsKept(s, Run(s, ms, Step))
  {
    RacedInv(s);
    hide RaceInv;
    forall t, m | RaceInv(t) && MayRace(t, m) ensures RaceInv(Step(t, m)) && AwardsKept(t, Step(t, m)) {
      StepKept(t, m);
      RaceAwards(t, m);
    }
    hide Step, MayRace;
    Monotone(s, ms, Step, MayRace, RaceInv, AwardsKept);
  }

  lemma RaceAwards(s: Race, m: Move)
    requires RaceInv(s)
    ensures AwardsKept(s, Step(s, m))
  {
    if m.Do? { ApplyGrew(s.tables, m.w); }
  }

  // The rules of lots and tenders

  predicate NoneAwarded(s: Tables, t: Id) {
    forall lot :: lot in s.lots && s.lots[lot] == t ==> lot !in s.awards
  }

  /** An award call has yet to look at the tender, or to mark it. */
  predicate Due(r: Race, t: Id) {
    t in r.owed || Mark(t) in r.pending
  }

  /** What a tender's status says about its lots, while the marking after a last award may still be due. */
  predicate TenderRule(s: Tables, t: Id, due: bool)
    requires t in s.tenders
  {
    match s.tenders[t].status
    case AWARDED => AllAwarded(s, t)
    case CLOSED => due || !AllAwarded(s, t)
    case CANCELLED => true
    case _ => NoneAwarded(s, t)
  }

  predicate TendersRule(r: Race) {
    forall t :: t in r.tables.tenders ==> TenderRule(r.tables, t, Due(r, t))
  }

  predicate Rules(r: Race) {
    && References(r.tables)
    && LotsOk(r.tables.bids, r.tables.awards, r.tables.lots)
    && TendersRule(r)
  }

  /** What a bid, an evaluation or an award must find when it writes. */
  predicate MeetsLots(s: Tables, w: Write) {
    match w
    case Submit(bid, lot, supplier, _, _) => bid in s.bids || SupplierBid(s.bids, lot, supplier) || lot !in s.awards
    case Evaluate(b) => b in s.bids ==> s.bids[b].lot !in s.awards
    case _ => true
  }

  predicate MeetsTender(r: Race, w: Write) {
    var s := r.tables;
    match w
    case Publish(t) => t in s.tenders ==> NoneAwarded(s, t)
    case Close(t) => t in s.tenders ==> Due(r, t) || !AllAwarded(s, t)
    case Win(b) => Succeeds(s, w) ==> TenderOfBid(s, b) == Some(CLOSED) || TenderOfBid(s, b) == Some(CANCELLED)
    case _ => true
  }

  /** What a write must find so that the rules still hold after it. */
  predicate Meets(r: Race, w: Write) {
    MeetsLots(r.tables, w) && MeetsTender(r, w)
  }

  lemma HasLotGrew(s: Tables, t: Tables, tender: Id)
    requires Grew(s, t) && HasLot(s, tender)
    ensures HasLot(t, tender)
  {
    var lot :| lot in s.lots && s.lots[lot] == tender;
    assert lot in t.lots && t.lots[lot] == tender;
  }

  lemma ApplyReferences(s: Tables, w: Write)
    requires References(s) && TablesOk(s) && PendingOk(s, w)
    ensures References(Apply(s, w))
  {
    var u := Apply(s, w);
    ApplyGrew(s, w);
    ApplyTargets(s, w);
    hide TablesOk, HasLot, Grew, Apply, PendingOk;
    forall t | t in u.tenders ensures HasLot(u, t) {
      if t in s.tenders {
        HasLotGrew(s, u, t);
      } else {
        NewHasLot(s, w, t);
      }
    }
  }

  /** Bids and awards still name lots, and lots tenders. */
  lemma ApplyTargets(s: Tables, w: Write)
    requires References(s) && PendingOk(s, w)
    ensures var u := Apply(s, w);
            && (forall lot :: lot in u.lots ==> u.lots[lot] in u.tenders)
            && (forall b :: b in u.bids ==> u.bids[b].lot in u.lots)
            && (forall lot :: lot in u.awards ==> lot in u.lots)
  {
    hide HasLot, AfterWin, AllAwarded;
  }

  lemma NewHasLot(s: Tables, w: Write, t: Id)
    requires PendingOk(s, w) && t in Apply(s, w).tenders && t !in s.tenders
    ensures HasLot(Apply(s, w), t)
  {
    var u := Apply(s, w);
    var lot :| lot in w.lots;
    assert lot in u.lots && u.lots[lot] == t;
  }

  lemma ApplyLots(s: Tables, w: Write)
    requires References(s) && LotsOk(s.bids, s.awards, s.lots) && PendingOk(s, w)
    ensures var u := Apply(s, w); LotsOk(u.bids, u.awards, u.lots) <==> MeetsLots(s, w)
  {
    match w
    case Create(_, _, _) => CreateLots(s, w);
    case Submit(bid, lot, supplier, amount, _) =>
      hide LotsOk;
      if bid !in s.bids && !SupplierBid(s.bids, lot, supplier) {
        BidPut(s.bids, s.awards, s.lots, bid, Bid(lot, supplier, amount, SUBMITTED));
      }
    case Evaluate(b) =>
      hide LotsOk;
      BidPut(s.bids, s.awards, s.lots, b, s.bids[b].(status := EVALUATED));
    case Win(b) => AwardLots(s, b);
    case _ => hide LotsOk;
  }

  lemma CreateLots(s: Tables, w: Write)
    requires References(s) && LotsOk(s.bids, s.awards, s.lots) && w.Create?
    ensures var u := Apply(s, w); LotsOk(u.bids, u.awards, u.lots)
  {
    hide LotOk, HasLot;
    var u := Apply(s, w);
    forall lot | lot in u.lots ensures LotOk(u.bids, u.awards, lot) {
      if lot !in s.lots { Untouched(s, lot); } else { assert LotOk(s.bids, s.awards, lot); }
    }
  }

  /** Whether a write is about the tender. */
  predicate Concerns(s: Tables, w: Write, t: Id) {
    match w
    case Publish(tender) => tender == t
    case Close(tender) => tender == t
    case Cancel(tender) => tender == t
    case Mark(tender) => tender == t
    case Win(b) => Succeeds(s, w) && s.lots[s.bids[b].lot] == t
    case _ => false
  }

  /** The lots of the tender and their awards are the same. */
  lemma SameAwards(s: Tables, u: Tables, t: Id)
    requires forall lot :: (lot in s.lots && s.lots[lot] == t) <==> (lot in u.lots && u.lots[lot] == t)
    requires forall lot :: lot in s.lots && s.lots[lot] == t ==> (lot in s.awards <==> lot in u.awards)
    ensures AllAwarded(u, t) <==> AllAwarded(s, t)
    ensures NoneAwarded(u, t) <==> NoneAwarded(s, t)
  {}

  lemma OthersSame(s: Tables, w: Write, t: Id)
    requires References(s) && t in s.tenders && !Concerns(s, w, t)
    ensures var u := Apply(s, w);
            t in u.tenders && u.tenders[t] == s.tenders[t]
            && (AllAwarded(u, t) <==> AllAwarded(s, t)) && (NoneAwarded(u, t) <==> NoneAwarded(s, t))
  {
    hide HasLot, AfterWin, AllAwarded, NoneAwarded;
    SameAwards(s, Apply(s, w), t);
  }

  lemma DueSame(r: Race, w: Write, t: Id)
    requires References(r.tables) && w in r.pending && !Concerns(r.tables, w, t)
    ensures Due(Step(r, Do(w)), t) <==> Due(r, t)
  {
    hide References, Apply;
  }

  lemma OtherTender(r: Race, w: Write, t: Id)
    requires References(r.tables) && t in r.tables.tenders && w in r.pending && !Concerns(r.tables, w, t)
    ensures var q := Step(r, Do(w));
            t in q.tables.tenders && (TenderRule(q.tables, t, Due(q, t)) <==> TenderRule(r.tables, t, Due(r, t)))
  {
    OthersSame(r.tables, w, t);
    DueSame(r, w, t);
    hide References, Apply, AllAwarded, NoneAwarded, Due;
  }

  lemma StatusSame(s: Tables, t: Id, status: TenderStatus)
    requires t in s.tenders
    ensures var u := SetTender(s, t, status);
            t in u.tenders && u.tenders[t].status == status
            && (AllAwarded(u, t) <==> AllAwarded(s, t)) && (NoneAwarded(u, t) <==> NoneAwarded(s, t))
  {
    hide AllAwarded, NoneAwarded;
    SameAwards(s, SetTender(s, t, status), t);
  }

  lemma StatusTender(r: Race, w: Write, t: Id)
    requires w in r.pending && t in r.tables.tenders && PendingOk(r.tables, w)
    requires (w.Publish? || w.Close? || w.Cancel? || w.Mark?) && w.tender == t
    ensures var q := Step(r, Do(w));
            t in q.tables.tenders && (TenderRule(q.tables, t, Due(q, t)) <==> MeetsTender(r, w))
  {
    var status :=
      match w { case Publish(_) => PUBLISHED case Close(_) => CLOSED case Cancel(_) => CANCELLED case _ => AWARDED };
    StatusSame(r.tables, t, status);
    hide AllAwarded, NoneAwarded;
  }

  lemma WonLot(s: Tables, b: Id)
    requires References(s) && Succeeds(s, Win(b))
    ensures var u, t := Apply(s, Win(b)), s.lots[s.bids[b].lot];
            && u.tenders == s.tenders && t in s.tenders && !NoneAwarded(u, t) && !AllAwarded(s, t)
  {
    hide HasLot, AfterWin;
    var u := Apply(s, Win(b));
    assert s.bids[b].lot in u.awards;
  }

  lemma AwardTender(r: Race, b: Id, t: Id)
    requires References(r.tables) && t in r.tables.tenders && Win(b) in r.pending && Concerns(r.tables, Win(b), t)
    requires TenderRule(r.tables, t, Due(r, t))
    ensures var q := Step(r, Do(Win(b)));
            t in q.tables.tenders && (TenderRule(q.tables, t, Due(q, t)) <==> MeetsTender(r, Win(b)))
  {
    WonLot(r.tables, b);
    hide References, AllAwarded, NoneAwarded, AfterWin;
    var q := Step(r, Do(Win(b)));
    assert q.tables.tenders == r.tables.tenders;
    assert t in q.owed;
  }

  lemma TenderAfter(r: Race, w: Write, t: Id)
    requires References(r.tables) && t in r.tables.tenders && w in r.pending && PendingOk(r.tables, w)
    requires TenderRule(r.tables, t, Due(r, t))
    ensures var q := Step(r, Do(w));
            t in q.tables.tenders
            && (TenderRule(q.tables, t, Due(q, t)) <==> (Concerns(r.tables, w, t) ==> MeetsTender(r, w)))
  {
    hide References, TenderRule, MeetsTender, Apply, Due, PendingOk;
    if !Concerns(r.tables, w, t) {
      OtherTender(r, w, t);
    } else if w.Win? {
      AwardTender(r, w.bid, t);
    } else {
      StatusTender(r, w, t);
    }
  }

  lemma NewTender(r: Race, w: Write, t: Id)
    requires References(r.tables) && t in Apply(r.tables, w).tenders && t !in r.tables.tenders
    ensures TenderRule(Apply(r.tables, w), t, Due(Step(r, Do(w)), t))
  {
    hide HasLot, AfterWin;
  }

  lemma ConcernsOne(r: Race, w: Write)
    requires References(r.tables) && !MeetsTender(r, w)
    ensures exists t :: t in r.tables.tenders && Concerns(r.tables, w, t)
  {
    hide HasLot, AllAwarded, NoneAwarded, Due;
    var s := r.tables;
    match w
    case Publish(t) => assert t in s.tenders && Concerns(s, w, t);
    case Close(t) => assert t in s.tenders && Concerns(s, w, t);
    case Win(b) => assert s.lots[s.bids[b].lot] in s.tenders && Concerns(s, w, s.lots[s.bids[b].lot]);
    case _ =>
  }

  lemma TendersAfter(r: Race, w: Write)
    requires References(r.tables) && TendersRule(r) && w in r.pending && PendingOk(r.tables, w)
    ensures TendersRule(Step(r, Do(w))) <==> MeetsTender(r, w)
  {
    var q := Step(r, Do(w));
    hide References, TenderRule, MeetsTender, Apply, Due, PendingOk, Concerns;
    forall t | t in r.tables.tenders
      ensures t in q.tables.tenders
      ensures TenderRule(q.tables, t, Due(q, t)) <==> (Concerns(r.tables, w, t) ==> MeetsTender(r, w))
    {
      TenderAfter(r, w, t);
    }
    forall t | t in q.tables.tenders && t !in r.tables.tenders ensures TenderRule(q.tables, t, Due(q, t)) {
      NewTender(r, w, t);
    }
    if !MeetsTender(r, w) { ConcernsOne(r, w); }
  }

  /** Exactly the writes that do not find what they must break the rules of lots and tenders. */
  lemma WriteKeepsRules(r: Race, w: Write)
    requires RaceInv(r) && Rules(r) && w in r.pending
    ensures Rules(Step(r, Do(w))) <==> Meets(r, w)
  {
    hide TablesOk, References, LotsOk, TendersRule, MeetsLots, MeetsTender, Apply, PendingOk;
    assert PendingOk(r.tables, w);
    ApplyReferences(r.tables, w);
    ApplyLots(r.tables, w);
    TendersAfter(r, w);
  }

  /** Looking whether an award was the last leaves its tender due exactly as long as it matters. */
  lemma LookKeepsRules(r: Race, t: Id)
    requires Rules(r) && t in r.owed
    ensures Rules(Step(r, Look(t)))
  {
    hide References, LotsOk, AllAwarded, NoneAwarded;
    var q := Step(r, Look(t));
    forall x | x in q.tables.tenders ensures TenderRule(q.tables, x, Due(q, x)) {
      assert TenderRule(r.tables, x, Due(r, x));
      if x == t { LookFinds(r, t); }
    }
  }

  lemma LookFinds(r: Race, t: Id)
    requires References(r.tables) && t in r.owed && t in r.tables.tenders
    ensures r.tables.tenders[t].status == CLOSED && AllAwarded(r.tables, t) ==> Due(Step(r, Look(t)), t)
  {}

  lemma CheckKeepsRules(r: Race, w: Write)
    requires Rules(r) && !w.Mark?
    ensures Rules(Step(r, Check(w)))
  {
    hide References, LotsOk, AllAwarded, NoneAwarded;
    var q := Step(r, Check(w));
    forall x | x in q.tables.tenders ensures TenderRule(q.tables, x, Due(q, x)) {
      assert TenderRule(r.tables, x, Due(r, x));
    }
  }

  /** Writes find what they must; calls may overtake each other in any way in which that is so. */
  predicate MayInTime(r: Race, m: Move) {
    MayRace(r, m) && (m.Do? ==> Meets(r, m.w))
  }

  predicate InOrder(r: Race) {
    RaceInv(r) && Rules(r)
  }

  lemma StepInOrder(r: Race, m: Move)
    requires InOrder(r) && MayInTime(r, m)
    ensures InOrder(Step(r, m))
  {
    StepKept(r, m);
    hide RaceInv, Rules, Meets, Step;
    match m
    case Check(w) => CheckKeepsRules(r, w);
    case Do(w) => WriteKeepsRules(r, w);
    case Look(t) => LookKeepsRules(r, t);
  }

  ghost predicate RacedInTime(r: Race) {
    exists ms :: IsRun(IDLE, ms, Step, MayInTime) && Run(IDLE, ms, Step) == r
  }

  lemma RacedInOrder(r: Race)
    requires RacedInTime(r)
    ensures InOrder(r)
  {
    var ms :| IsRun(IDLE, ms, Step, MayInTime) && Run(IDLE, ms, Step) == r;
    assert InOrder(IDLE);
    hide InOrder, Step, MayInTime;
    forall q, m | InOrder(q) && MayInTime(q, m) ensures InOrder(Step(q, m)) { StepInOrder(q, m); }
    Invariant(IDLE, ms, Step, MayInTime, InOrder);
  }

  /**
   * Over every run whose writes find what they must, a tender is AWARDED only when every lot is, one that is CLOSED has
   * a
   * lot to award or its marking is still due, and in every lot award, winner and rejections agree.
   */
  lemma RulesInTime(r: Race, t: Id, lot: Id)
    requires RacedInTime(r)
    ensures var s := r.tables;
            t in s.tenders ==>
              && (s.tenders[t].status == AWARDED ==> AllAwarded(s, t))
              && (s.tenders[t].status == CLOSED ==> Due(r, t) || !AllAwarded(s, t))
              && (s.tenders[t].status == DRAFT || s.tenders[t].status == PUBLISHED ==> NoneAwarded(s, t))
    ensures lot in r.tables.lots ==> LotOk(r.tables.bids, r.tables.awards, lot)
  {
    RacedInOrder(r);
    hide RaceInv, References, AllAwarded, NoneAwarded, LotOk, Due;
    assert t in r.tables.tenders ==> TenderRule(r.tables, t, Due(r, t));
  }

  // Single writes on a stale check

  /** A bid accepted on a stale check leaves the lots in order exactly when its lot has no award by then. */
  lemma LateBid(s: Tables, w: Write)
    requires LotsOk(s.bids, s.awards, s.lots) && w.Submit? && w.lot in s.lots
    requires w.bid !in s.bids && !SupplierBid(s.bids, w.lot, w.supplier)
    ensures var u := Apply(s, w); LotsOk(u.bids, u.awards, u.lots) <==> w.lot !in s.awards
  {
    hide LotsOk;
    BidPut(s.bids, s.awards, s.lots, w.bid, Bid(w.lot, w.supplier, w.amount, SUBMITTED));
  }

  /** So does an evaluation. */
  lemma LateEvaluation(s: Tables, bid: Id)
    requires LotsOk(s.bids, s.awards, s.lots) && bid in s.bids && s.bids[bid].lot in s.lots
    ensures var u := Apply(s, Evaluate(bid)); LotsOk(u.bids, u.awards, u.lots) <==> s.bids[bid].lot !in s.awards
  {
    hide LotsOk;
    BidPut(s.bids, s.awards, s.lots, bid, s.bids[bid].(status := EVALUATED));
  }

  /**
   * An award written on a stale check keeps the lots in order; by itself it keeps its tender's rule exactly when the
   * tender is CANCELLED, or CLOSED with another lot to award.
   */
  lemma LateAward(s: Tables, b: Id)
    requires Inv(s) && b in s.bids && s.bids[b].lot !in s.awards
    ensures var u, lot := Apply(s, Win(b)), s.bids[b].lot;
            && lot in s.lots && LotsOk(u.bids, u.awards, u.lots) && s.lots[lot] in u.tenders
            && (TenderOk(u, s.lots[lot]) <==>
                  || s.tenders[s.lots[lot]].status == CANCELLED
                  || (s.tenders[s.lots[lot]].status == CLOSED && OtherToAward(s, lot)))
  {
    AwardLots(s, b);
    hide LotsOk, HasLot;
    var lot := s.bids[b].lot;
    assert TenderOk(s, s.lots[lot]);
    WonLot(s, b);
    LeftToAward(s, b);
    hide TendersOk, References, Apply, OtherToAward, AllAwarded;
  }

  lemma LeftToAward(s: Tables, b: Id)
    requires b in s.bids && s.bids[b].lot !in s.awards && s.bids[b].lot in s.lots
    ensures OtherToAward(s, s.bids[b].lot) <==> !AllAwarded(Apply(s, Win(b)), s.lots[s.bids[b].lot])
  {
    hide AfterWin;
    var u := Apply(s, Win(b));
    assert u.lots == s.lots && u.awards.Keys == s.awards.Keys + {s.bids[b].lot};
  }

  predicate OtherToAward(s: Tables, lot: Id)
    requires lot in s.lots
  {
    exists other :: other in s.lots && other != lot && s.lots[other] == s.lots[lot] && other !in s.awards
  }

  /** A status written on a stale check keeps its tender's rule, whatever the status is by then, exactly so. */
  lemma LateClose(s: Tables, t: Id)
    requires t in s.tenders
    ensures TenderOk(Apply(s, Close(t)), t) <==> !AllAwarded(s, t)
  {
    StatusSame(s, t, CLOSED);
    hide AllAwarded;
  }

  lemma LateMark(s: Tables, t: Id)
    requires t in s.tenders
    ensures TenderOk(Apply(s, Mark(t)), t) <==> AllAwarded(s, t)
  {
    StatusSame(s, t, AWARDED);
    hide AllAwarded;
  }

  lemma LatePublish(s: Tables, t: Id)
    requires t in s.tenders
    ensures TenderOk(Apply(s, Publish(t)), t) <==> NoneAwarded(s, t)
    ensures TenderOk(Apply(s, Cancel(t)), t)
  {
    StatusSame(s, t, PUBLISHED);
    hide AllAwarded;
  }
}
