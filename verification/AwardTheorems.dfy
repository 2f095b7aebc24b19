/** What the award machine guarantees when calls do not overtake each other. */
module AwardTheorems {
  import opened Common
  import opened Runs
  import opened Awards

  ghost predicate Reached(s: Tables) {
    exists ws :: IsRun(EMPTY, ws, Call, May) && Run(EMPTY, ws, Call) == s
  }

  lemma CallKept(s: Tables, w: Write)
    requires Inv(s) && May(s, w)
    ensures Inv(Call(s, w))
  {
    hide Inv, Guard, Apply;
    if Guard(s, w) {
      match w
      case Create(_, _, _) => CreateKept(s, w);
      case Publish(_) => TenderMoveKept(s, w);
      case Close(_) => TenderMoveKept(s, w);
      case Cancel(_) => TenderMoveKept(s, w);
      case Submit(_, _, _, _, _) => BidMoveKept(s, w);
      case Evaluate(_) => BidMoveKept(s, w);
      case Win(bid) => WinKept(s, bid);
    }
  }

  lemma ReachedInv(s: Tables)
    requires Reached(s)
    ensures Inv(s)
  {
    var ws :| IsRun(EMPTY, ws, Call, May) && Run(EMPTY, ws, Call) == s;
    assert Inv(EMPTY);
    hide Inv, Call, May;
    forall t, w | Inv(t) && May(t, w) ensures Inv(Call(t, w)) { CallKept(t, w); }
    Invariant(EMPTY, ws, Call, May, Inv);
  }

  predicate Wins(s: Tables, lot: Id, b: Id) {
    b in s.bids && s.bids[b].lot == lot && s.bids[b].status == WON
  }

  /**
   * A lot has an award exactly when one of its bids won; that bid and its amount are the award's, and all its others
   * are rejected.
   */
  lemma AwardMatchesWinner(s: Tables, lot: Id)
    requires Reached(s) && lot in s.lots
    ensures lot in s.awards <==> exists b :: Wins(s, lot, b)
    ensures forall b :: Wins(s, lot, b) ==> s.awards[lot] == Award(b, s.bids[b].amount)
    ensures lot in s.awards ==>
              forall b :: b in s.bids && s.bids[b].lot == lot && b != s.awards[lot].bid ==> s.bids[b].status == REJECTED
    ensures lot !in s.awards ==> forall b :: b in s.bids && s.bids[b].lot == lot ==> s.bids[b].status != REJECTED
  {
    ReachedInv(s);
    assert LotOk(s.bids, s.awards, lot);
    if lot in s.awards { assert Wins(s, lot, s.awards[lot].bid); }
  }

  /** A tender is awarded only when all its lots are, and one that is closed still has a lot to award. */
  lemma AwardedTender(s: Tables, t: Id)
    requires Reached(s) && t in s.tenders
    ensures s.tenders[t].status == AWARDED ==> AllAwarded(s, t) && HasLot(s, t)
    ensures s.tenders[t].status == CLOSED ==> exists lot :: lot in s.lots && s.lots[lot] == t && lot !in s.awards
  {
    ReachedInv(s);
    assert TenderOk(s, t) && HasLot(s, t);
  }
}
