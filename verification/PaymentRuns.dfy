/** What each call checks before it writes, what it writes, and a call of execute that nothing overtakes. */
module PaymentRuns {
  import opened Common
  import opened Runs
  import opened Sums
  import opened Payments
  import L = Ledger

  // First statements

  /** The rows a call finds with its first statement let it go on. */
  ghost predicate Admits(db: Tables, e: Entry) {
    match e
    case Release(c) => c in db.ledger.commitments && db.ledger.commitments[c].status == L.CommitmentStatus.ACTIVE
    case Expend(c, amount) =>
      && c in db.ledger.commitments && db.ledger.commitments[c].status == L.CommitmentStatus.ACTIVE
      && amount <= db.ledger.commitments[c].amount
    case Approve(j, actor) =>
      && j in db.ledger.adjustments && db.ledger.adjustments[j].requestedBy != actor
      && db.ledger.adjustments[j].status == L.PENDING
    case RejectAdjustment(j) => j in db.ledger.adjustments && db.ledger.adjustments[j].status == L.PENDING
    case SubmitInvoice(order, amount, _) =>
      order in db.orders && Sum(db.invoices, LiveAgainst(order)) + amount <= db.orders[order].amount
    case VerifyInvoice(i, actor) =>
      i in db.invoices && db.invoices[i].submittedBy != actor && db.invoices[i].status == SUBMITTED
    case RejectInvoice(i) => i in db.invoices && db.invoices[i].status == SUBMITTED
    case CastVote(r, actor, _) =>
      && r in db.requests && db.requests[r].invoice in db.invoices
      && db.invoices[db.requests[r].invoice].verifiedBy != Some(actor)
    case Execute(_, _, _) => true
  }

  /** What it carries on with: its arguments, and the rows as it found them. */
  ghost function Started(db: Tables, e: Entry): Call
    requires Admits(db, e)
  {
    match e
    case Release(c) => Pending(L.ReleaseCommitment(c, db.ledger.commitments[c]))
    case Expend(c, amount) => Pending(L.RecordExpenditure(0, c, db.ledger.commitments[c], amount, L.Direct))
    case Approve(j, _) => Pending(L.ApproveAdjustment(j, db.ledger.adjustments[j]))
    case RejectAdjustment(j) => Pending(L.RejectAdjustment(j))
    case SubmitInvoice(order, amount, actor) => Submitting(order, amount, actor)
    case VerifyInvoice(i, actor) => Verifying(i, db.invoices[i].amount, actor)
    case RejectInvoice(i) => Rejecting(i)
    case CastVote(r, actor, decision) => Voting(r, actor, decision)
    case Execute(r, key, actor) => Arrived(r, key, actor)
  }

  /** A call goes on exactly if what it reads first admits it, and is over otherwise. */
  lemma CallsStart(s: State, k: Id, e: Entry)
    ensures var t := Next(s, Begin(k, e));
            && t.db == s.db && t.calls.Keys == s.calls.Keys + {k}
            && (Admits(s.db, e) ==> t.calls[k] == Started(s.db, e))
            && (!Admits(s.db, e) ==> t.calls[k].Threw?)
  {}

  // Transactions of the budget

  /** The transaction goes through on the tables as they are by then. */
  ghost predicate GoesThrough(l: L.Ledger, t: L.Transaction) {
    match t
    case ReleaseCommitment(c, seen) =>
      c in l.commitments && L.Movable(l.allocations, seen.allocation, 0, 0 - seen.amount, 0)
    case RecordExpenditure(_, c, seen, amount, _) =>
      && c in l.commitments && L.Movable(l.allocations, seen.allocation, 0, 0 - seen.amount, amount)
      && forall e :: e in l.expenditures ==> l.expenditures[e].commitment != c
    case ApproveAdjustment(j, seen) =>
      j in l.adjustments
      && L.Movable(l.allocations, seen.allocation, if seen.kind.INCREASE? then seen.amount else 0 - seen.amount, 0, 0)
    case RejectAdjustment(j) => j in l.adjustments
    case _ => false
  }

  /** What it leaves; `id` numbers the row it may insert. */
  ghost predicate Settled(before: L.Ledger, after: L.Ledger, t: L.Transaction, id: Id) {
    match t
    case ReleaseCommitment(c, seen) =>
      && c in before.commitments
      && after.commitments == before.commitments[c := before.commitments[c].(status := L.RELEASED)]
      && after.expenditures == before.expenditures && after.adjustments == before.adjustments
      && L.Moved(before, after, seen.allocation, 0, 0 - seen.amount, 0)
    case RecordExpenditure(_, c, seen, amount, purpose) =>
      && c in before.commitments
      && after.commitments == before.commitments[c := before.commitments[c].(status := L.CONSUMED)]
      && after.expenditures == before.expenditures[id := L.Expenditure(c, seen.allocation, amount, purpose)]
      && after.adjustments == before.adjustments
      && L.Moved(before, after, seen.allocation, 0, 0 - seen.amount, amount)
    case ApproveAdjustment(j, seen) =>
      && j in before.adjustments
      && after.adjustments == before.adjustments[j := before.adjustments[j].(status := L.AdjustmentStatus.APPROVED)]
      && after.commitments == before.commitments && after.expenditures == before.expenditures
      && L.Moved(before, after, seen.allocation, if seen.kind.INCREASE? then seen.amount else 0 - seen.amount, 0, 0)
    case RejectAdjustment(j) =>
      && j in before.adjustments
      && after
         == before.(adjustments :=
              before.adjustments[j := before.adjustments[j].(status := L.AdjustmentStatus.REJECTED)])
    case _ => false
  }

  /** The transaction of an AllocationsService call, on rows that may have changed since its first statement. */
  lemma CallSettles(s: State, k: Id, id: Id)
    requires k in s.calls && s.calls[k].Pending?
    requires var t := s.calls[k].t;
             t.ReleaseCommitment? || t.RecordExpenditure? || t.ApproveAdjustment? || t.RejectAdjustment?
    ensures var t, u := s.calls[k].t, Next(s, Advance(k, id, true));
            if GoesThrough(s.db.ledger, t)
            then u.calls[k] == Done && Settled(s.db.ledger, u.db.ledger, t, id)
                 && u.db == s.db.(ledger := u.db.ledger)
            else u.calls[k].Threw? && u.db == s.db
  {}

  // Execution

  /** The commitment a request is paid from; every row on the way is there, and the request is approved. */
  ghost predicate Due(db: Tables, request: Id, job: Job) {
    && request in db.requests && db.requests[request].status == RequestStatus.APPROVED
    && db.requests[request].invoice in db.invoices
    && db.invoices[db.requests[request].invoice].order in db.orders
    && job.request == request && job.amount == db.requests[request].amount
    && job.invoice == db.requests[request].invoice
    && job.commitment == db.orders[db.invoices[db.requests[request].invoice].order].commitment
  }

  /**
   * The budget can pay: the commitment is ACTIVE, covers the amount, is unspent, and its allocation has the balance.
   */
  ghost predicate Payable(l: L.Ledger, job: Job) {
    && job.commitment in l.commitments && l.commitments[job.commitment].status == L.CommitmentStatus.ACTIVE
    && job.amount <= l.commitments[job.commitment].amount
    && (forall e :: e in l.expenditures ==> l.expenditures[e].commitment != job.commitment)
    && var row := l.commitments[job.commitment]; L.Movable(l.allocations, row.allocation, 0, 0 - row.amount, job.amount)
  }

  /** Neither the key nor the request has a payment. */
  ghost predicate Unclaimed(payments: map<Id, Payment>, job: Job) {
    forall p :: p in payments ==> payments[p].key != job.key && payments[p].request != job.request
  }

  lemma LooksUp(db: Tables, job: Job, id: Id)
    requires Unclaimed(db.payments, job)
    ensures Proceed(db, Arrived(job.request, job.key, job.actor), id)
            == Outcome(db, Unseen(job.request, job.key, job.actor))
  {}

  lemma Reads(db: Tables, job: Job, id: Id)
    requires Due(db, job.request, job)
    ensures Proceed(db, Unseen(job.request, job.key, job.actor), id) == Outcome(db, Cleared(job))
  {}

  lemma Claims(db: Tables, job: Job, p: Id)
    requires Unclaimed(db.payments, job)
    ensures Proceed(db, Cleared(job), p)
            == Outcome(db.(payments := db.payments[p := Payment(job.request, job.amount, job.key, None, None)]),
                       Claimed(job, p))
  {}

  lemma ReadsCommitment(db: Tables, job: Job, p: Id, id: Id)
    requires Payable(db.ledger, job)
    ensures Proceed(db, Claimed(job, p), id)
            == Outcome(db, Spending(job, p, db.ledger.commitments[job.commitment]))
  {}

  lemma Spends(db: Tables, job: Job, p: Id, e: Id)
    requires Payable(db.ledger, job)
    ensures var o := Proceed(db, Spending(job, p, db.ledger.commitments[job.commitment]), e);
            && o == Outcome(db.(ledger := o.db.ledger), Spent(job, p, e))
            && L.Bought(db.ledger, o.db.ledger, job.commitment, e, job.amount, job.request)
  {}

  lemma Finalises(db: Tables, job: Job, p: Id, e: Id, id: Id)
    requires Due(db, job.request, job) && p in db.payments
    requires db.payments[p] == Payment(job.request, job.amount, job.key, None, None)
    ensures var row := Payment(job.request, job.amount, job.key, Some(e), Some(job.actor));
            Proceed(db, Recorded(job, p, e), id)
            == Outcome(db.(payments := db.payments[p := row],
                           invoices := db.invoices[job.invoice := db.invoices[job.invoice].(status := PAID)],
                           requests := db.requests[job.request := db.requests[job.request].(status := EXECUTED)]),
                       Finalised(job, p))
  {}

  lemma Answers(db: Tables, job: Job, p: Id, id: Id)
    requires p in db.payments
    ensures Proceed(db, Finalised(job, p), id) == Outcome(db, Returned(p, db.payments[p], false))
  {}

  // The run

  lemma Stepped(s: State, k: Id, id: Id, db: Tables, call: Call)
    requires k in s.calls && Unused(s.db, id) && Proceed(s.db, s.calls[k], id) == Outcome(db, call)
    ensures IsRun(s, [Advance(k, id, true)], Next, May)
    ensures Run(s, [Advance(k, id, true)], Next) == State(db, s.calls[k := call])
  {
    hide Proceed;
    assert [Advance(k, id, true)] + [] == [Advance(k, id, true)];
    RunFirst(s, Advance(k, id, true), [], Next, May);
  }

  /** `z` is an identifier that no statement uses. */
  function ToClaim(k: Id, job: Job, p: Id, z: Id): seq<Move> {
    [Begin(k, Execute(job.request, job.key, job.actor))] + [Advance(k, z, true)] + [Advance(k, z, true)]
    + [Advance(k, p, true)]
  }

  function ToEnd(k: Id, e: Id, z: Id): seq<Move> {
    [Advance(k, z, true)] + [Advance(k, e, true)] + [Advance(k, z, true)] + [Advance(k, z, true)]
    + [Advance(k, z, true)]
  }

  lemma Begins(s: State, k: Id, job: Job)
    requires k !in s.calls
    ensures var ms := [Begin(k, Execute(job.request, job.key, job.actor))];
            && IsRun(s, ms, Next, May)
            && Run(s, ms, Next) == State(s.db, s.calls[k := Arrived(job.request, job.key, job.actor)])
  {
    var m := Begin(k, Execute(job.request, job.key, job.actor));
    assert [m] + [] == [m];
    RunFirst(s, m, [], Next, May);
  }

  /** Extends a run that has left call `k` somewhere by one statement of it. */
  lemma Extends(s: State, ms: seq<Move>, k: Id, before: Call, db: Tables, id: Id, next: Tables, call: Call)
    requires IsRun(s, ms, Next, May) && Run(s, ms, Next) == State(db, s.calls[k := before])
    requires Unused(db, id) && Proceed(db, before, id) == Outcome(next, call)
    ensures IsRun(s, ms + [Advance(k, id, true)], Next, May)
    ensures Run(s, ms + [Advance(k, id, true)], Next) == State(next, s.calls[k := call])
  {
    hide Proceed, Next, May, Unused;
    var t := Run(s, ms, Next);
    Stepped(t, k, id, next, call);
    RunConcat(s, ms, [Advance(k, id, true)], Next, May);
    assert t.calls[k := call] == s.calls[k := call];
  }

  lemma Claiming(s: State, k: Id, job: Job, p: Id, z: Id)
    requires k !in s.calls && Unused(s.db, p) && Unused(s.db, z)
    requires Due(s.db, job.request, job) && Unclaimed(s.db.payments, job)
    ensures IsRun(s, ToClaim(k, job, p, z), Next, May)
    ensures Run(s, ToClaim(k, job, p, z), Next)
            == State(s.db.(payments := s.db.payments[p := Payment(job.request, job.amount, job.key, None, None)]),
                     s.calls[k := Claimed(job, p)])
  {
    hide Proceed, Next, May, Unused, Due, Unclaimed;
    var arrived, unseen := Arrived(job.request, job.key, job.actor), Unseen(job.request, job.key, job.actor);
    var db := s.db.(payments := s.db.payments[p := Payment(job.request, job.amount, job.key, None, None)]);
    var ms := [Begin(k, Execute(job.request, job.key, job.actor))];
    Begins(s, k, job);
    LooksUp(s.db, job, z);
    Extends(s, ms, k, arrived, s.db, z, s.db, unseen);
    ms := ms + [Advance(k, z, true)];
    Reads(s.db, job, z);
    Extends(s, ms, k, unseen, s.db, z, s.db, Cleared(job));
    ms := ms + [Advance(k, z, true)];
    Claims(s.db, job, p);
    Extends(s, ms, k, Cleared(job), s.db, p, db, Claimed(job, p));
  }

  /** The tables after an execution of the job that inserted `p` and `e`. */
  ghost predicate Executed(before: Tables, after: Tables, job: Job, p: Id, e: Id) {
    && Due(before, job.request, job)
    && L.Bought(before.ledger, after.ledger, job.commitment, e, job.amount, job.request)
    && after.orders == before.orders && after.votes == before.votes
    && after.payments == before.payments[p := Payment(job.request, job.amount, job.key, Some(e), Some(job.actor))]
    && after.invoices == before.invoices[job.invoice := before.invoices[job.invoice].(status := PAID)]
    && after.requests == before.requests[job.request := before.requests[job.request].(status := EXECUTED)]
  }

  /** What the budget transaction leaves unused. */
  lemma StillUnused(db: Tables, l: L.Ledger, job: Job, p: Id, e: Id, row: Payment, z: Id)
    requires Unused(db, z) && z != p && z != e
    requires L.Bought(db.ledger, l, job.commitment, e, job.amount, job.request)
    ensures Unused(db.(payments := db.payments[p := row], ledger := l), z)
  {}

  lemma Buying(s: State, ms: seq<Move>, k: Id, db: Tables, job: Job, p: Id, e: Id, z: Id)
    requires IsRun(s, ms, Next, May) && Run(s, ms, Next) == State(db, s.calls[k := Claimed(job, p)])
    requires Unused(db, e) && Unused(db, z) && Payable(db.ledger, job)
    ensures var now := ms + [Advance(k, z, true)] + [Advance(k, e, true)];
            && IsRun(s, now, Next, May)
            && var t := Run(s, now, Next);
               && t == State(db.(ledger := t.db.ledger), s.calls[k := Spent(job, p, e)])
               && L.Bought(db.ledger, t.db.ledger, job.commitment, e, job.amount, job.request)
  {
    hide Proceed, Next, May, Unused, Payable, L.Bought;
    var seen := SeenBy(db, job);
    ReadsCommitment(db, job, p, z);
    Extends(s, ms, k, Claimed(job, p), db, z, db, Spending(job, p, seen));
    Spends(db, job, p, e);
    var o := Proceed(db, Spending(job, p, seen), e);
    Extends(s, ms + [Advance(k, z, true)], k, Spending(job, p, seen), db, e, o.db, Spent(job, p, e));
  }

  ghost function SeenBy(db: Tables, job: Job): L.Commitment
    requires Payable(db.ledger, job)
  {
    db.ledger.commitments[job.commitment]
  }

  lemma Closing(s: State, ms: seq<Move>, k: Id, db: Tables, job: Job, p: Id, e: Id, z: Id)
    requires IsRun(s, ms, Next, May) && Run(s, ms, Next) == State(db, s.calls[k := Spent(job, p, e)])
    requires Unused(db, z) && Due(db, job.request, job) && p in db.payments
    requires db.payments[p] == Payment(job.request, job.amount, job.key, None, None)
    ensures var now := ms + [Advance(k, z, true)] + [Advance(k, z, true)] + [Advance(k, z, true)];
            var row := Payment(job.request, job.amount, job.key, Some(e), Some(job.actor));
            && IsRun(s, now, Next, May)
            && Run(s, now, Next)
               == State(db.(payments := db.payments[p := row],
                            invoices := db.invoices[job.invoice := db.invoices[job.invoice].(status := PAID)],
                            requests := db.requests[job.request := db.requests[job.request].(status := EXECUTED)]),
                        s.calls[k := Returned(p, row, false)])
  {
    hide Proceed, Next, May;
    var row := Payment(job.request, job.amount, job.key, Some(e), Some(job.actor));
    Audited(db, job, p, e, z);
    Extends(s, ms, k, Spent(job, p, e), db, z, db, Recorded(job, p, e));
    var one := ms + [Advance(k, z, true)];
    Finalises(db, job, p, e, z);
    var done := Proceed(db, Recorded(job, p, e), z).db;
    Extends(s, one, k, Recorded(job, p, e), db, z, done, Finalised(job, p));
    Answers(done, job, p, z);
    Extends(s, one + [Advance(k, z, true)], k, Finalised(job, p), done, z, done, Returned(p, row, false));
  }

  lemma Audited(db: Tables, job: Job, p: Id, e: Id, id: Id)
    ensures Proceed(db, Spent(job, p, e), id) == Outcome(db, Recorded(job, p, e))
  {}

  /**
    * From any state, a call on an approved, unclaimed request whose commitment can pay runs to its end if nothing
    * overtakes it, answers with its payment, and has linked it to one new expenditure, consumed the commitment and
    * closed invoice and request.
    */
  lemma ExecutesUndisturbed(s: State, k: Id, job: Job, p: Id, e: Id, z: Id)
    requires k !in s.calls && Unused(s.db, p) && Unused(s.db, e) && Unused(s.db, z) && p != e && p != z && e != z
    requires Due(s.db, job.request, job) && Unclaimed(s.db.payments, job) && Payable(s.db.ledger, job)
    ensures var ms := ToClaim(k, job, p, z) + ToEnd(k, e, z);
            && IsRun(s, ms, Next, May)
            && var t := Run(s, ms, Next);
               && Executed(s.db, t.db, job, p, e)
               && t.calls == s.calls[k := Returned(p, t.db.payments[p], false)]
  {
    hide Proceed, Next, May, Due, Payable, L.Bought;
    var claim := Payment(job.request, job.amount, job.key, None, None);
    var claimed := s.db.(payments := s.db.payments[p := claim]);
    var start := ToClaim(k, job, p, z);
    Claiming(s, k, job, p, z);
    Buying(s, start, k, claimed, job, p, e, z);
    var spent := start + [Advance(k, z, true)] + [Advance(k, e, true)];
    var ledger := Run(s, spent, Next).db.ledger;
    var db := claimed.(ledger := ledger);
    StillUnused(s.db, ledger, job, p, e, claim, z);
    StillDue(s.db, db, job);
    Closing(s, spent, k, db, job, p, e, z);
    assert spent + [Advance(k, z, true)] + [Advance(k, z, true)] + [Advance(k, z, true)] == start + ToEnd(k, e, z);
  }

  lemma StillDue(before: Tables, after: Tables, job: Job)
    requires Due(before, job.request, job) && after.requests == before.requests && after.invoices == before.invoices
    requires after.orders == before.orders
    ensures Due(after, job.request, job)
  {}

  /** Whichever of its statements fails, an execution that holds a claim gives it back with the next one. */
  lemma FailureGivesBack(s: State, k: Id, id: Id)
    requires k in s.calls && Unused(s.db, id)
    requires var call := s.calls[k];
             call.Claimed? || call.Spending? || call.Spent? || call.Recorded? || call.Finalised?
    ensures var ms := [Advance(k, id, false), Advance(k, id, true)];
            && IsRun(s, ms, Next, May)
            && Run(s, ms, Next)
               == State(s.db.(payments := s.db.payments - {s.calls[k].payment}), s.calls[k := Threw(Aborted)])
  {
    Fails(s, k, id);
    hide Next, May, Unused;
    var p := s.calls[k].payment;
    var t := State(s.db, s.calls[k := Failing(p)]);
    Compensates(t, k, id, p);
    RunOfTwo(s, Advance(k, id, false), Advance(k, id, true), Next, May);
    assert t.calls[k := Threw(Aborted)] == s.calls[k := Threw(Aborted)];
  }

  lemma Fails(s: State, k: Id, id: Id)
    requires k in s.calls && Unused(s.db, id)
    requires var call := s.calls[k];
             call.Claimed? || call.Spending? || call.Spent? || call.Recorded? || call.Finalised?
    ensures May(s, Advance(k, id, false))
    ensures Next(s, Advance(k, id, false)) == State(s.db, s.calls[k := Failing(s.calls[k].payment)])
  {}

  lemma Compensates(s: State, k: Id, id: Id, p: Id)
    requires k in s.calls && Unused(s.db, id) && s.calls[k] == Failing(p)
    ensures May(s, Advance(k, id, true))
    ensures Next(s, Advance(k, id, true))
            == State(s.db.(payments := s.db.payments - {p}), s.calls[k := Threw(Aborted)])
  {}

  /** Before its claim, and after its end, a failing call changes nothing. */
  lemma FailureBefore(s: State, k: Id, id: Id)
    requires k in s.calls && (s.calls[k].Arrived? || s.calls[k].Unseen? || s.calls[k].Cleared? || s.calls[k].Lost?)
    ensures Next(s, Advance(k, id, false)) == s.(calls := s.calls[k := Threw(Aborted)])
  {}
}
