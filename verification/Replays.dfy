/** Which payment a replayed idempotency key is answered with, and when that answer is final. */
module Replays {
  import opened Common
  import opened Runs
  import opened Payments
  import opened PaymentInvariant
  import opened PaymentProofs
  import opened PaymentTheorems
  import L = Ledger

  /** The call still works on the payment row it inserted. */
  predicate Owns(call: Call, p: Id) {
    Claimant(call) == Some(p) && !call.Returned?
  }

  predicate Owned(s: State, p: Id) {
    exists k :: k in s.calls && Owns(s.calls[k], p)
  }

  /** Whatever happens from here on, the row stays as it is. */
  ghost predicate Stands(s: State, p: Id)
    requires p in s.db.payments
  {
    forall ms :: IsRun(s, ms, Next, May) ==> Unaltered(s.db.payments, Run(s, ms, Next).db.payments, p)
  }

  predicate Unaltered(before: map<Id, Payment>, after: map<Id, Payment>, p: Id)
    requires p in before
  {
    p in after && after[p] == before[p]
  }

  /** The key is found under whatever request it is replayed for, and the answer is the row as it stands. */
  lemma ReplayReturnsStored(s: State, p: Id, request: Id, actor: User)
    requires Reached(s) && p in s.db.payments
    ensures LookUp(s.db, request, s.db.payments[p].key, actor) == Returned(p, s.db.payments[p], true)
  {
    ReachedInv(s);
    hide CallOk, L.Sound, InvoicesOk, VotesOk, TalliesOk, ExecutedOk, PaymentsOk, SpendingOk;
    assert KeyTaken(s.db.payments, s.db.payments[p].key);
  }

  /**
   * A key replayed while its first call has only claimed it is answered with a payment that has no expenditure, for any
   * request; if the first call then fails, its catch block deletes the payment that was answered.
   */
  lemma InFlightReplay(s: State, k: Id, id: Id, request: Id, actor: User)
    requires Reached(s) && k in s.calls && s.calls[k].Claimed? && Unused(s.db, id)
    ensures var p := s.calls[k].payment;
            var ms := [Advance(k, id, false), Advance(k, id, true)];
            && p in s.db.payments && s.db.payments[p].expenditure.None?
            && LookUp(s.db, request, s.calls[k].job.key, actor) == Returned(p, s.db.payments[p], true)
            && IsRun(s, ms, Next, May) && p !in Run(s, ms, Next).db.payments
  {
    var p := s.calls[k].payment;
    ReachedInv(s);
    assert CallOk(s.db, s.calls[k]);
    hide Inv, CallOk;
    ReplayReturnsStored(s, p, request, actor);
    OwnerDeletes(s, k, p, id);
  }

  lemma OwnerDeletes(s: State, k: Id, p: Id, id: Id)
    requires k in s.calls && Owns(s.calls[k], p) && !s.calls[k].Failing? && Unused(s.db, id)
    ensures var ms := [Advance(k, id, false), Advance(k, id, true)];
            IsRun(s, ms, Next, May) && p !in Run(s, ms, Next).db.payments
  {
    var one, two := Advance(k, id, false), Advance(k, id, true);
    assert [one] + [two] == [one, two] && [two] + [] == [two];
    RunFirst(s, one, [two], Next, May);
    assert Next(s, one) == s.(calls := s.calls[k := Failing(p)]);
    FailingDeletes(Next(s, one), k, p, id);
  }

  lemma FailingDeletes(s: State, k: Id, p: Id, id: Id)
    requires k in s.calls && s.calls[k] == Failing(p) && Unused(s.db, id)
    ensures IsRun(s, [Advance(k, id, true)], Next, May) && p !in Run(s, [Advance(k, id, true)], Next).db.payments
  {
    var m := Advance(k, id, true);
    assert [m] + [] == [m];
    RunFirst(s, m, [], Next, May);
  }

  lemma {:induction false} Larger(ids: set<Id>) returns (bound: Id)
    ensures forall id :: id in ids ==> id < bound
    decreases |ids|
  {
    bound := 0;
    if ids != {} {
      var id :| id in ids;
      var rest := Larger(ids - {id});
      bound := if id < rest then rest else id + 1;
      assert forall x :: x in ids ==> x == id || x in ids - {id};
    }
  }

  lemma HasUnused(db: Tables) returns (id: Id)
    ensures Unused(db, id)
  {
    id := Larger(db.payments.Keys + db.ledger.expenditures.Keys + db.invoices.Keys + db.requests.Keys + db.votes.Keys);
  }

  // The row of a call that no longer works on it

  ghost predicate Left(p: Id, row: Payment, s: State) {
    Inv(s) && p in s.db.payments && s.db.payments[p] == row && !Owned(s, p)
  }

  ghost function LeftAs(p: Id, row: Payment): State -> bool {
    (s: State) => Left(p, row, s)
  }

  /** A statement touches no payment row but its own call's, and gains a call no row but one that was not there. */
  lemma ProceedOwns(db: Tables, call: Call, id: Id, p: Id)
    requires CallOk(db, call) && Unused(db, id) && p in db.payments && !Owns(call, p)
    ensures p in Proceed(db, call, id).db.payments && Proceed(db, call, id).db.payments[p] == db.payments[p]
    ensures !Owns(Proceed(db, call, id).call, p)
  {
    hide L.Apply, VotesOf, JobOk, VoterOk, PendingOk;
  }

  lemma FailOwns(call: Call, p: Id)
    requires !Owns(call, p)
    ensures !Owns(Fail(call), p)
  {}

  lemma LeftStep(p: Id, row: Payment, s: State, m: Move)
    requires Left(p, row, s) && May(s, m)
    ensures Left(p, row, Next(s, m))
  {
    NextKept(s, m);
    hide Inv;
    LeftRows(p, s, m);
  }

  lemma LeftRows(p: Id, s: State, m: Move)
    requires Inv(s) && p in s.db.payments && !Owned(s, p) && May(s, m)
    ensures p in Next(s, m).db.payments && Next(s, m).db.payments[p] == s.db.payments[p] && !Owned(Next(s, m), p)
  {
    hide TablesOk, CallOk, Apart, Owns, Proceed, Fail, Enter, L.Step;
    match m
    case Begin(k, e) => EntryOwnsNothing(s.db, e, p);
    case Advance(k, id, ok) =>
      assert !Owns(s.calls[k], p);
      if ok { ProceedOwns(s.db, s.calls[k], id, p); } else { FailOwns(s.calls[k], p); }
    case _ =>
  }

  lemma EntryOwnsNothing(db: Tables, e: Entry, p: Id)
    ensures !Owns(Enter(db, e), p)
  {}

  lemma LeftStands(s: State, p: Id)
    requires Inv(s) && p in s.db.payments && !Owned(s, p)
    ensures Stands(s, p)
  {
    var row := s.db.payments[p];
    assert Left(p, row, s);
    hide Inv, Owned;
    forall ms | IsRun(s, ms, Next, May) ensures Unaltered(s.db.payments, Run(s, ms, Next).db.payments, p) {
      forall t, m | LeftAs(p, row)(t) && May(t, m) ensures LeftAs(p, row)(Next(t, m)) { LeftStep(p, row, t, m); }
      Invariant(s, ms, Next, May, LeftAs(p, row));
      assert Left(p, row, Run(s, ms, Next));
    }
  }

  lemma OwnedFalls(s: State, p: Id)
    requires p in s.db.payments && Owned(s, p)
    ensures !Stands(s, p)
  {
    var k :| k in s.calls && Owns(s.calls[k], p);
    var id := HasUnused(s.db);
    var ms := [Advance(k, id, true)];
    if s.calls[k].Failing? {
      FailingDeletes(s, k, p, id);
    } else {
      ms := [Advance(k, id, false), Advance(k, id, true)];
      OwnerDeletes(s, k, p, id);
    }
    assert IsRun(s, ms, Next, May) && !Unaltered(s.db.payments, Run(s, ms, Next).db.payments, p);
  }

  /** The row a key is answered with is final exactly when no call still works on it. */
  lemma AnswerFinalIff(s: State, p: Id)
    requires Reached(s) && p in s.db.payments
    ensures Stands(s, p) <==> !Owned(s, p)
  {
    hide Inv, Stands, Owned;
    ReachedInv(s);
    if Owned(s, p) { OwnedFalls(s, p); } else { LeftStands(s, p); }
  }

  // A claim whose call is gone

  /** Nobody works on payment row `p`, whose request stands where it stood. */
  ghost predicate Orphaned(p: Id, row: Payment, status: RequestStatus, s: State) {
    && Left(p, row, s) && (status.APPROVED? || status.EXECUTED?)
    && row.request in s.db.requests && s.db.requests[row.request].status == status
  }

  ghost function OrphanedAs(p: Id, row: Payment, status: RequestStatus): State -> bool {
    (s: State) => Orphaned(p, row, status, s)
  }

  /** A call that pays the request of a row owns that row. */
  lemma PayerOwns(s: State, p: Id, j: Id)
    requires Inv(s) && p in s.db.payments && j in s.calls && Paying(s.calls[j]) == Some(s.db.payments[p].request)
    ensures Owns(s.calls[j], p)
  {
    hide Inv, TablesOk, CallOk, Apart;
    InvCall(s, j);
    InvTables(s);
    PayingPresent(s.db, s.calls[j]);
    UniqueRequests(s.db);
  }

  lemma InvTables(s: State)
    requires Inv(s)
    ensures TablesOk(s.db)
  {}

  lemma NoPayer(s: State, p: Id, j: Id)
    requires Inv(s) && p in s.db.payments && !Owned(s, p) && j in s.calls
    ensures Paying(s.calls[j]) != Some(s.db.payments[p].request)
  {
    hide Inv, Owns;
    if Paying(s.calls[j]) == Some(s.db.payments[p].request) { PayerOwns(s, p, j); }
  }

  lemma ProceedStatus(db: Tables, call: Call, id: Id, request: Id)
    requires CallOk(db, call) && Unused(db, id) && request in db.requests && Paying(call) != Some(request)
    requires db.requests[request].status.APPROVED? || db.requests[request].status.EXECUTED?
    ensures var after := Proceed(db, call, id).db;
            request in after.requests && after.requests[request].status == db.requests[request].status
  {
    ProceedForward(db, call, id, request);
    hide CallOk, L.Apply, VotesOf;
  }

  lemma OrphanStep(p: Id, row: Payment, status: RequestStatus, s: State, m: Move)
    requires Orphaned(p, row, status, s) && May(s, m)
    ensures Orphaned(p, row, status, Next(s, m))
  {
    LeftStep(p, row, s, m);
    if m.Advance? && m.ok {
      NoPayer(s, p, m.k);
      assert CallOk(s.db, s.calls[m.k]);
      ProceedStatus(s.db, s.calls[m.k], m.id, row.request);
    }
    hide Inv, Owned, CallOk, Proceed, Fail, Enter, L.Step;
  }

  lemma OrphanStays(s: State, ms: seq<Move>, p: Id, row: Payment, status: RequestStatus)
    requires Orphaned(p, row, status, s) && IsRun(s, ms, Next, May)
    ensures Orphaned(p, row, status, Run(s, ms, Next))
  {
    hide Orphaned, Next, May;
    forall t, m | OrphanedAs(p, row, status)(t) && May(t, m) ensures OrphanedAs(p, row, status)(Next(t, m)) {
      OrphanStep(p, row, status, t, m);
    }
    Invariant(s, ms, Next, May, OrphanedAs(p, row, status));
    assert OrphanedAs(p, row, status)(Run(s, ms, Next));
  }

  lemma CrashFrees(s: State, k: Id, p: Id)
    requires Inv(s) && k in s.calls && Claimant(s.calls[k]) == Some(p)
    ensures !Owned(Next(s, Crash(k)), p)
  {
    hide TablesOk, CallOk;
    forall j | j in s.calls && j != k ensures Claimant(s.calls[j]) != Some(p) {
      assert Apart(s.calls[j], s.calls[k]);
    }
  }

  lemma CrashOrphans(s: State, k: Id)
    requires Inv(s) && k in s.calls && Paying(s.calls[k]).Some?
    ensures var p, call := Claimant(s.calls[k]).value, s.calls[k];
            && p in s.db.payments
               && s.db.payments[p] == Payment(call.job.request, call.job.amount, call.job.key, None, None)
            && Paying(call) == Some(call.job.request) && call.job.request in s.db.requests
            && Orphaned(p, s.db.payments[p], s.db.requests[call.job.request].status, Next(s, Crash(k)))
  {
    hide Inv, CallOk, Owned;
    InvCall(s, k);
    PayingHolds(s.db, s.calls[k]);
    NextKept(s, Crash(k));
    CrashFrees(s, k, Claimant(s.calls[k]).value);
  }

  lemma InvCall(s: State, k: Id)
    requires Inv(s) && k in s.calls
    ensures CallOk(s.db, s.calls[k])
  {}

  lemma PayingHolds(db: Tables, call: Call)
    requires CallOk(db, call) && Paying(call).Some?
    ensures Claimant(call).Some? && Holds(db.payments, call.job, Claimant(call).value)
    ensures Paying(call) == Some(call.job.request) && call.job.request in db.requests
    ensures db.requests[call.job.request].status.APPROVED? || db.requests[call.job.request].status.EXECUTED?
  {}

  /**
   * A call that disappears between its claim and the finalising transaction leaves its claim behind for good: over
   * every
   * further run the row stays, its key is answered with it, the request stays where it stood, every claim for it under
   * whatever key is refused, and no call ever pays it again.
   */
  lemma CrashedClaimBlocks(s: State, k: Id, ms: seq<Move>)
    requires Reached(s) && k in s.calls && Paying(s.calls[k]).Some? && IsRun(Next(s, Crash(k)), ms, Next, May)
    ensures var p, request, later := Claimant(s.calls[k]).value, Paying(s.calls[k]).value,
            Run(Next(s, Crash(k)), ms, Next);
            && p in s.db.payments && s.db.payments[p].expenditure.None?
            && p in later.db.payments && later.db.payments[p] == s.db.payments[p]
            && request in s.db.requests && request in later.db.requests
            && later.db.requests[request].status == s.db.requests[request].status
            && (forall j | j in later.calls :: Paying(later.calls[j]) != Some(request))
            && (forall job: Job, id | job.request == request ::
               Claim(later.db, job, id) == Outcome(later.db, Lost(job.key)))
  {
    ReachedInv(s);
    CrashOrphans(s, k);
    var p, request := Claimant(s.calls[k]).value, Paying(s.calls[k]).value;
    var later := Run(Next(s, Crash(k)), ms, Next);
    var row, status := s.db.payments[p], s.db.requests[request].status;
    hide Next, May;
    OrphanStays(Next(s, Crash(k)), ms, p, row, status);
    assert Left(p, row, later);
    hide Inv, Owned;
    forall j | j in later.calls ensures Paying(later.calls[j]) != Some(request) { NoPayer(later, p, j); }
    assert RequestTaken(later.db.payments, request);
  }
}
