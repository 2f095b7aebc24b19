/** Runs in which a call is overtaken between its check and its write, and what they leave behind. */
module AwardRuns {
  import opened Common
  import opened Runs
  import opened Awards
  import opened AwardRaces

  // What the writes do

  lemma CloseStep(s: Tables, t: Id)
    requires t in s.tenders
    ensures Apply(s, Close(t)) == s.(tenders := s.tenders[t := s.tenders[t].(status := CLOSED)])
  {}

  lemma EvaluateStep(s: Tables, b: Id)
    requires b in s.bids
    ensures Apply(s, Evaluate(b)) == s.(bids := s.bids[b := s.bids[b].(status := EVALUATED)])
    ensures Guard(s, Evaluate(b)) ==> Guard(Apply(s, Evaluate(b)), Win(b))
  {}

  lemma WinStep(s: Tables, b: Id)
    requires b in s.bids && s.bids[b].lot !in s.awards
    ensures Apply(s, Win(b))
            == s.(bids := WinBids(s.bids, b), awards := s.awards[s.bids[b].lot := Award(b, s.bids[b].amount)])
    ensures Apply(Apply(s, Win(b)), Win(b)) == Apply(s, Win(b))
  {
    hide AfterWin;
  }

  lemma InsertStep(s: Tables, w: Write)
    requires w.Submit? && w.bid !in s.bids && !SupplierBid(s.bids, w.lot, w.supplier)
    ensures Apply(s, w) == s.(bids := s.bids[w.bid := Bid(w.lot, w.supplier, w.amount, SUBMITTED)])
  {}

  lemma PublishStep(s: Tables, t: Id)
    requires t in s.tenders
    ensures Apply(s, Publish(t)) == s.(tenders := s.tenders[t := s.tenders[t].(status := PUBLISHED)])
  {}

  lemma MarkStep(s: Tables, t: Id)
    requires t in s.tenders
    ensures Apply(s, Mark(t)) == s.(tenders := s.tenders[t := s.tenders[t].(status := AWARDED)])
    ensures s.tenders[t].status == CLOSED ==> Apply(Apply(s, Mark(t)), Close(t)) == s
  {
    assert s.tenders[t].status == CLOSED ==> Apply(Apply(s, Mark(t)), Close(t)).tenders == s.tenders;
  }

  // Pieces of runs

  /** The moves lead from one state to the other. */
  ghost predicate Leads(r: Race, ms: seq<Move>, q: Race) {
    IsRun(r, ms, Step, MayRace) && Run(r, ms, Step) == q
  }

  lemma LeadsOn(r: Race, one: seq<Move>, q: Race, two: seq<Move>, p: Race)
    requires Leads(r, one, q) && Leads(q, two, p)
    ensures Leads(r, one + two, p)
  {
    hide Step, MayRace;
    RunConcat(r, one, two, Step, MayRace);
  }

  lemma LeadsByOne(r: Race, m: Move)
    requires MayRace(r, m)
    ensures Leads(r, [m], Step(r, m))
  {
    hide Step, MayRace;
    assert [m] + [] == [m];
    RunFirst(r, m, [], Step, MayRace);
  }

  /** A call that nothing overtakes, as two moves. */
  function Uninterrupted(w: Write): seq<Move> {
    [Check(w), Do(w)]
  }

  lemma LeadsByCall(r: Race, w: Write)
    requires Guard(r.tables, w) && !w.Mark?
    ensures Leads(r, Uninterrupted(w), Race(Apply(r.tables, w), r.pending, r.owed + Owes(r.tables, w)))
  {
    hide Apply, Guard, Owes;
    RunOfTwo(r, Check(w), Do(w), Step, MayRace);
    assert r.pending + multiset{w} - multiset{w} == r.pending;
  }

  lemma LeadsByQuietCall(r: Race, w: Write)
    requires Guard(r.tables, w) && !w.Mark? && !w.Win?
    ensures Leads(r, Uninterrupted(w), r.(tables := Apply(r.tables, w)))
  {
    hide Apply, Guard;
    LeadsByCall(r, w);
    assert r.owed + Owes(r.tables, w) == r.owed;
  }

  /** Two calls check the same write, and the first of them writes. */
  function TwiceChecked(w: Write): seq<Move> {
    [Check(w), Check(w), Do(w)]
  }

  lemma LeadsByTwo(r: Race, w: Write)
    requires Guard(r.tables, w) && !w.Mark?
    ensures Leads(r, TwiceChecked(w),
                  Race(Apply(r.tables, w), r.pending + multiset{w}, r.owed + Owes(r.tables, w)))
  {
    hide Apply, Guard, Owes;
    RunOfThree(r, Check(w), Check(w), Do(w), Step, MayRace);
    assert r.pending + multiset{w} + multiset{w} - multiset{w} == r.pending + multiset{w};
  }

  lemma LeadsByQuietTwo(r: Race, w: Write)
    requires Guard(r.tables, w) && !w.Mark? && !w.Win?
    ensures Leads(r, TwiceChecked(w), Race(Apply(r.tables, w), r.pending + multiset{w}, r.owed))
  {
    hide Apply, Guard;
    LeadsByTwo(r, w);
    assert r.owed + Owes(r.tables, w) == r.owed;
  }

  lemma LeadsByLate(r: Race, pending: multiset<Write>, w: Write)
    requires r.pending == pending + multiset{w} && !w.Win?
    ensures Leads(r, [Do(w)], Race(Apply(r.tables, w), pending, r.owed))
  {
    hide Apply;
    LeadsByOne(r, Do(w));
    assert r.pending - multiset{w} == pending;
    assert r.owed + Owes(r.tables, w) == r.owed;
  }

  // A late bid

  /** The tender of `late` is closed and bid `b` evaluated and awarded between the check of `late` and its insertion. */
  function BidOvertakenMoves(t: Id, b: Id, late: Write): seq<Move> {
    [Check(late)] + Uninterrupted(Close(t)) + Uninterrupted(Evaluate(b)) + Uninterrupted(Win(b)) + [Do(late)]
  }

  /** So an undecided bid can stand on a lot that has an award. */
  lemma BidOvertaken(r: Race, b: Id, late: Write)
    requires var s := r.tables;
             && Inv(s) && late.Submit? && Guard(s, late) && !SupplierBid(s.bids, late.lot, late.supplier)
             && b in s.bids && s.bids[b].lot == late.lot && s.bids[b].status == SUBMITTED
    ensures late.lot in r.tables.lots
    ensures var ms := BidOvertakenMoves(r.tables.lots[late.lot], b, late);
            var u := Run(r, ms, Step).tables;
            && IsRun(r, ms, Step, MayRace) && late.lot in u.awards
            && late.bid in u.bids && u.bids[late.bid] == Bid(late.lot, late.supplier, late.amount, SUBMITTED)
  {
    var s := r.tables;
    var t := s.lots[late.lot];
    UndecidedHasNoAward(s, b);
    CloseStep(s, t);
    var closed := Apply(s, Close(t));
    assert Guard(s, Close(t)) && Guard(closed, Evaluate(b));
    EvaluateStep(closed, b);
    var evaluated := Apply(closed, Evaluate(b));
    WinStep(evaluated, b);
    var awarded := Apply(evaluated, Win(b));
    InsertStep(awarded, late);
    var waiting := r.pending + multiset{late};
    LeadsByOne(r, Check(late));
    hide Inv, AfterWin, Guard, Apply, SupplierBid;
    var owed := r.owed + Owes(evaluated, Win(b));
    LeadsByQuietCall(Race(s, waiting, r.owed), Close(t));
    LeadsByQuietCall(Race(closed, waiting, r.owed), Evaluate(b));
    LeadsByCall(Race(evaluated, waiting, r.owed), Win(b));
    LeadsByLate(Race(awarded, waiting, owed), r.pending, late);
    hide Leads, Owes;
    var one, two := [Check(late)], [Check(late)] + Uninterrupted(Close(t));
    var three := two + Uninterrupted(Evaluate(b));
    LeadsOn(r, one, Race(s, waiting, r.owed), Uninterrupted(Close(t)), Race(closed, waiting, r.owed));
    LeadsOn(r, two, Race(closed, waiting, r.owed), Uninterrupted(Evaluate(b)), Race(evaluated, waiting, r.owed));
    LeadsOn(r, three, Race(evaluated, waiting, r.owed), Uninterrupted(Win(b)), Race(awarded, waiting, owed));
    LeadsOn(r, three + Uninterrupted(Win(b)), Race(awarded, waiting, owed), [Do(late)],
            Race(Apply(awarded, late), r.pending, owed));
    LeadsEnds(r, BidOvertakenMoves(t, b, late), Race(Apply(awarded, late), r.pending, owed));
  }

  lemma LeadsEnds(r: Race, ms: seq<Move>, q: Race)
    requires Leads(r, ms, q)
    ensures IsRun(r, ms, Step, MayRace) && Run(r, ms, Step) == q
  {}

  // A late evaluation

  /** Both evaluators of `b` have checked it; the bid wins between their two writes. */
  function EvaluationOvertakenMoves(b: Id): seq<Move> {
    TwiceChecked(Evaluate(b)) + Uninterrupted(Win(b)) + [Do(Evaluate(b))]
  }

  /** So the slower evaluation reopens a bid that has won. */
  lemma EvaluationOvertaken(r: Race, b: Id)
    requires Inv(r.tables) && Guard(r.tables, Evaluate(b))
    ensures b in r.tables.bids
    ensures var ms := EvaluationOvertakenMoves(b);
            var u, lot := Run(r, ms, Step).tables, r.tables.bids[b].lot;
            && IsRun(r, ms, Step, MayRace)
            && lot in u.awards && u.awards[lot].bid == b && b in u.bids && u.bids[b].status == EVALUATED
  {
    var s, w := r.tables, Evaluate(b);
    UndecidedHasNoAward(s, b);
    EvaluateStep(s, b);
    var evaluated := Apply(s, w);
    WinStep(evaluated, b);
    var awarded := Apply(evaluated, Win(b));
    EvaluateStep(awarded, b);
    LeadsByQuietTwo(r, w);
    hide Inv, AfterWin, Guard, Apply;
    var waiting, owed := r.pending + multiset{w}, r.owed + Owes(evaluated, Win(b));
    LeadsByCall(Race(evaluated, waiting, r.owed), Win(b));
    LeadsByLate(Race(awarded, waiting, owed), r.pending, w);
    hide Leads, Owes;
    LeadsOn(r, TwiceChecked(w), Race(evaluated, waiting, r.owed), Uninterrupted(Win(b)), Race(awarded, waiting, owed));
    LeadsOn(r, TwiceChecked(w) + Uninterrupted(Win(b)), Race(awarded, waiting, owed), [Do(w)],
            Race(Apply(awarded, w), r.pending, owed));
    LeadsEnds(r, EvaluationOvertakenMoves(b), Race(Apply(awarded, w), r.pending, owed));
  }

  // Two awards

  /** Of two concurrent awards of one bid the second finds the lot awarded and changes nothing. */
  lemma RacingAwards(r: Race, b: Id)
    requires Inv(r.tables) && Guard(r.tables, Win(b))
    ensures var ms, t := TwiceChecked(Win(b)) + [Do(Win(b))], r.tables.lots[r.tables.bids[b].lot];
            && IsRun(r, ms, Step, MayRace)
            && Run(r, ms, Step) == Race(Apply(r.tables, Win(b)), r.pending, r.owed + multiset{t})
  {
    var w, s := Win(b), r.tables;
    UndecidedHasNoAward(s, b);
    WinStep(s, b);
    LeadsByTwo(r, w);
    assert Owes(s, w) == multiset{s.lots[s.bids[b].lot]} && Owes(Apply(s, w), w) == multiset{};
    hide Inv, Guard, Apply, Owes;
    var q := Race(Apply(s, w), r.pending + multiset{w}, r.owed + Owes(s, w));
    LeadsByOne(q, Do(w));
    assert q.pending - multiset{w} == r.pending && q.owed + multiset{} == q.owed;
    LeadsOn(r, TwiceChecked(w), q, [Do(w)], Step(q, Do(w)));
  }

  // A late close

  predicate OnlyLot(s: Tables, t: Id, lot: Id) {
    lot in s.lots && s.lots[lot] == t && forall other :: other in s.lots && s.lots[other] == t ==> other == lot
  }

  /** Two concurrent closes of a tender; its one lot is awarded and the tender marked between their writes. */
  function CloseOvertakenMoves(t: Id, b: Id): seq<Move> {
    TwiceChecked(Close(t)) + Uninterrupted(Evaluate(b)) + Uninterrupted(Win(b)) + [Look(t), Do(Mark(t))]
      + [Do(Close(t))]
  }

  lemma LeadsByMarking(r: Race, t: Id)
    requires Guard(r.tables, Mark(t)) && t in r.owed
    ensures Leads(r, [Look(t), Do(Mark(t))], Race(Apply(r.tables, Mark(t)), r.pending, r.owed - multiset{t}))
  {
    hide Apply, Guard;
    RunOfTwo(r, Look(t), Do(Mark(t)), Step, MayRace);
    assert r.pending + multiset{Mark(t)} - multiset{Mark(t)} == r.pending;
    assert r.owed - multiset{t} + Owes(r.tables, Mark(t)) == r.owed - multiset{t};
  }

  /** So an awarded tender is reopened as closed although nothing is left to award. */
  lemma CloseOvertaken(r: Race, t: Id, b: Id)
    requires var s := r.tables;
             && Inv(s) && Guard(s, Close(t)) && b in s.bids && OnlyLot(s, t, s.bids[b].lot)
             && s.bids[b].status == SUBMITTED
    ensures var ms := CloseOvertakenMoves(t, b);
            var u := Run(r, ms, Step).tables;
            && IsRun(r, ms, Step, MayRace)
            && t in u.tenders && u.tenders[t].status == CLOSED && AllAwarded(u, t)
  {
    var s, w, lot := r.tables, Close(t), r.tables.bids[b].lot;
    UndecidedHasNoAward(s, b);
    CloseStep(s, t);
    var closed := Apply(s, w);
    assert Guard(closed, Evaluate(b));
    EvaluateStep(closed, b);
    var evaluated := Apply(closed, Evaluate(b));
    WinStep(evaluated, b);
    var awarded := Apply(evaluated, Win(b));
    MarkStep(awarded, t);
    OnlyLotAwarded(awarded, t, lot);
    var marked := Apply(awarded, Mark(t));
    LeadsByQuietTwo(r, w);
    assert Owes(evaluated, Win(b)) == multiset{t};
    hide Inv, AfterWin, Guard, Apply, OnlyLot, AllAwarded;
    var waiting, owed := r.pending + multiset{w}, r.owed + multiset{t};
    LeadsByQuietCall(Race(closed, waiting, r.owed), Evaluate(b));
    LeadsByCall(Race(evaluated, waiting, r.owed), Win(b));
    LeadsByMarking(Race(awarded, waiting, owed), t);
    LeadsByLate(Race(marked, waiting, owed - multiset{t}), r.pending, w);
    hide Leads, Owes;
    var two := TwiceChecked(w) + Uninterrupted(Evaluate(b));
    LeadsOn(r, TwiceChecked(w), Race(closed, waiting, r.owed), Uninterrupted(Evaluate(b)),
      Race(evaluated, waiting, r.owed));
    LeadsOn(r, two, Race(evaluated, waiting, r.owed), Uninterrupted(Win(b)), Race(awarded, waiting, owed));
    var three := two + Uninterrupted(Win(b));
    LeadsOn(r, three, Race(awarded, waiting, owed), [Look(t), Do(Mark(t))], Race(marked, waiting, owed - multiset{t}));
    LeadsOn(r, three + [Look(t), Do(Mark(t))], Race(marked, waiting, owed - multiset{t}), [Do(w)],
            Race(Apply(marked, w), r.pending, owed - multiset{t}));
    LeadsEnds(r, CloseOvertakenMoves(t, b), Race(Apply(marked, w), r.pending, owed - multiset{t}));
  }

  lemma OnlyLotAwarded(s: Tables, t: Id, lot: Id)
    requires OnlyLot(s, t, lot) && lot in s.awards
    ensures AllAwarded(s, t) && HasLot(s, t)
    ensures StatusOf(s, t) == Some(CLOSED) ==> Guard(s, Mark(t))
  {}

  // A late award

  /**
   * A draft with one lot is published by two calls; between their writes it is closed, its bid evaluated and the bid's
   * award checked. The second publication writes, then the award, whose look finds the tender published; then the
   * tender
   * is closed as any published one is.
   */
  function RepublishedMoves(t: Id, bid: Write): seq<Move>
    requires bid.Submit?
  {
    TwiceChecked(Publish(t)) + Uninterrupted(bid) + Uninterrupted(Close(t)) + Uninterrupted(Evaluate(bid.bid))
    + [Check(Win(bid.bid)), Do(Publish(t))] + [Do(Win(bid.bid)), Look(t)] + Uninterrupted(Close(t))
  }

  /** A draft with one lot, and a bid that can be submitted once it is published. */
  predicate Draft(r: Race, t: Id, bid: Write) {
    && bid.Submit? && t in r.tables.tenders && r.tables.tenders[t].status == DRAFT
    && bid.now < r.tables.tenders[t].closing
    && OnlyLot(r.tables, t, bid.lot) && bid.lot !in r.tables.awards
    && bid.bid !in r.tables.bids && !SupplierBid(r.tables.bids, bid.lot, bid.supplier)
    && !Due(r, t)
  }

  lemma StaleWrites(r: Race, evaluated: Tables, t: Id, b: Id)
    requires Guard(evaluated, Win(b)) && r.tables == evaluated && Publish(t) in r.pending && t in evaluated.tenders
    ensures var q := Race(Apply(evaluated, Publish(t)), r.pending - multiset{Publish(t)} + multiset{Win(b)}, r.owed);
            Leads(r, [Check(Win(b)), Do(Publish(t))], q)
  {
    hide Apply, Guard;
    RunOfTwo(r, Check(Win(b)), Do(Publish(t)), Step, MayRace);
    assert r.pending + multiset{Win(b)} - multiset{Publish(t)} == r.pending - multiset{Publish(t)} + multiset{Win(b)};
    assert r.owed + Owes(evaluated, Publish(t)) == r.owed;
  }

  lemma AwardInPublished(s: Tables, t: Id, b: Id)
    requires StatusOf(s, t) == Some(PUBLISHED) && b in s.bids && s.bids[b].lot !in s.awards
    requires s.bids[b].lot in s.lots && s.lots[s.bids[b].lot] == t
    ensures Owes(s, Win(b)) == multiset{t} && !Guard(Apply(s, Win(b)), Mark(t))
  {
    hide AfterWin, AllAwarded, HasLot;
  }

  lemma LooksInVain(r: Race, pending: multiset<Write>, t: Id, b: Id)
    requires r.pending == pending + multiset{Win(b)} && StatusOf(r.tables, t) == Some(PUBLISHED)
    requires b in r.tables.bids && r.tables.bids[b].lot in r.tables.lots && r.tables.lots[r.tables.bids[b].lot] == t
    requires r.tables.bids[b].lot !in r.tables.awards
    ensures Leads(r, [Do(Win(b)), Look(t)], Race(Apply(r.tables, Win(b)), pending, r.owed))
  {
    AwardInPublished(r.tables, t, b);
    hide Apply, Guard, Owes;
    RunOfTwo(r, Do(Win(b)), Look(t), Step, MayRace);
    assert r.pending - multiset{Win(b)} + multiset{} == pending;
    assert r.owed + multiset{t} - multiset{t} == r.owed;
  }

  /** So a closed tender has nothing left to award, and no marking is due: it is never marked. */
  lemma RepublishedAward(r: Race, t: Id, bid: Write)
    requires Draft(r, t, bid)
    ensures var ms := RepublishedMoves(t, bid);
            var q := Run(r, ms, Step);
            && IsRun(r, ms, Step, MayRace) && q.pending == r.pending && q.owed == r.owed
            && t in q.tables.tenders && q.tables.tenders[t].status == CLOSED && AllAwarded(q.tables, t) && !Due(q, t)
  {
    var b, p, o, w := bid.bid, r.pending, r.owed, Publish(t);
    var q := p + multiset{w};
    var s0 := r.tables;
    PublishStep(s0, t);
    var s1 := Apply(s0, w);
    InsertStep(s1, bid);
    var s2 := Apply(s1, bid);
    CloseStep(s2, t);
    var s3 := Apply(s2, Close(t));
    assert Guard(s3, Evaluate(b));
    EvaluateStep(s3, b);
    var s4 := Apply(s3, Evaluate(b));
    PublishStep(s4, t);
    var s5 := Apply(s4, w);
    WinStep(s5, b);
    var s6 := Apply(s5, Win(b));
    CloseStep(s6, t);
    var s7 := Apply(s6, Close(t));
    OnlyLotAwarded(s7, t, bid.lot);
    LeadsByQuietTwo(r, w);
    LeadsByQuietCall(Race(s1, q, o), bid);
    LeadsByQuietCall(Race(s2, q, o), Close(t));
    LeadsByQuietCall(Race(s3, q, o), Evaluate(b));
    StaleWrites(Race(s4, q, o), s4, t, b);
    assert q - multiset{w} + multiset{Win(b)} == p + multiset{Win(b)};
    LooksInVain(Race(s5, p + multiset{Win(b)}, o), p, t, b);
    LeadsByQuietCall(Race(s6, p, o), Close(t));
    hide Leads, Apply, Guard, OnlyLot, SupplierBid, AllAwarded;
    var m1, m2 := TwiceChecked(w), TwiceChecked(w) + Uninterrupted(bid);
    LeadsOn(r, m1, Race(s1, q, o), Uninterrupted(bid), Race(s2, q, o));
    LeadsOn(r, m2, Race(s2, q, o), Uninterrupted(Close(t)), Race(s3, q, o));
    var m3 := m2 + Uninterrupted(Close(t));
    LeadsOn(r, m3, Race(s3, q, o), Uninterrupted(Evaluate(b)), Race(s4, q, o));
    var m4 := m3 + Uninterrupted(Evaluate(b));
    LeadsOn(r, m4, Race(s4, q, o), [Check(Win(b)), Do(w)], Race(s5, p + multiset{Win(b)}, o));
    var m5 := m4 + [Check(Win(b)), Do(w)];
    LeadsOn(r, m5, Race(s5, p + multiset{Win(b)}, o), [Do(Win(b)), Look(t)], Race(s6, p, o));
    var m6 := m5 + [Do(Win(b)), Look(t)];
    LeadsOn(r, m6, Race(s6, p, o), Uninterrupted(Close(t)), Race(s7, p, o));
    LeadsEnds(r, RepublishedMoves(t, bid), Race(s7, p, o));
  }

  lemma DraftReached(t: Id, closing: int, bid: Write)
    requires bid.Submit? && bid.now < closing
    ensures var q := Race(Apply(EMPTY, Create(t, {bid.lot}, closing)), multiset{}, multiset{});
            Leads(IDLE, Uninterrupted(Create(t, {bid.lot}, closing)), q) && Draft(q, t, bid)
  {
    LeadsByQuietCall(IDLE, Create(t, {bid.lot}, closing));
  }

  /** From empty tables, a tender can end up closed with every lot awarded and nobody to mark it. */
  lemma NeverMarkedReached(t: Id, closing: int, bid: Write)
    requires bid.Submit? && bid.now < closing
    ensures exists q :: Raced(q) && t in q.tables.tenders && q.tables.tenders[t].status == CLOSED
                        && AllAwarded(q.tables, t) && !Due(q, t)
  {
    DraftReached(t, closing, bid);
    var create := Uninterrupted(Create(t, {bid.lot}, closing));
    var start := Race(Apply(EMPTY, Create(t, {bid.lot}, closing)), multiset{}, multiset{});
    hide Apply, Draft, AllAwarded, Due;
    RepublishedAward(start, t, bid);
    var q := Run(start, RepublishedMoves(t, bid), Step);
    hide Step, MayRace;
    LeadsOn(IDLE, create, start, RepublishedMoves(t, bid), q);
    assert Raced(q);
  }
}
