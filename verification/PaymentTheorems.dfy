/** What the payment protocol guarantees over every run, and where a guarantee needs calls that are not overtaken. */
module PaymentTheorems {
  import opened Common
  import opened Runs
  import opened Sums
  import opened Payments
  import opened PaymentInvariant
  import opened PaymentProofs
  import L = Ledger

  ghost predicate Reached(s: State) {
    exists ms :: IsRun(INITIAL, ms, Next, May) && Run(INITIAL, ms, Next) == s
  }

  lemma InitialInv()
    ensures Inv(INITIAL)
  {}

  lemma AlwaysInv()
    ensures Keeps(Next, May, Inv)
  {
    forall s, m | Inv(s) && May(s, m) ensures Inv(Next(s, m)) { NextKept(s, m); }
  }

  /** Every reachable state satisfies the invariant: any calls, keys, failures and crashes, in any order. */
  lemma ReachedInv(s: State)
    requires Reached(s)
    ensures Inv(s)
  {
    hide Inv;
    var ms :| IsRun(INITIAL, ms, Next, May) && Run(INITIAL, ms, Next) == s;
    InitialInv();
    AlwaysInv();
    Invariant(INITIAL, ms, Next, May, Inv);
  }

  // At most one expenditure

  /** One payment request causes at most one expenditure, of its own amount; an executed request exactly one. */
  lemma OneExpenditure(s: State, request: Id)
    requires Reached(s) && request in s.db.requests
    ensures forall e, f ::
            PaidBy(s.db.ledger.expenditures, request, e) && PaidBy(s.db.ledger.expenditures, request, f) ==> e == f
    ensures forall e :: PaidBy(s.db.ledger.expenditures, request, e) ==>
              s.db.ledger.expenditures[e].amount == s.db.requests[request].amount
    ensures s.db.requests[request].status.EXECUTED? ==> exists e :: PaidBy(s.db.ledger.expenditures, request, e)
  {
    ReachedInv(s);
    var rows := s.db.ledger.expenditures;
    assert L.References(s.db.ledger) && SpendingOk(rows, s.db.orders, s.db.invoices, s.db.requests);
    OnePerRequest(s.db, request);
    if s.db.requests[request].status.EXECUTED? {
      assert !Unpaid(rows, request);
      var e :| e in rows && rows[e].purpose == L.PaymentFor(request);
      assert PaidBy(rows, request, e);
    }
  }

  lemma OnePerRequest(db: Tables, request: Id)
    requires L.References(db.ledger) && SpendingOk(db.ledger.expenditures, db.orders, db.invoices, db.requests)
    ensures forall e, f :: PaidBy(db.ledger.expenditures, request, e) && PaidBy(db.ledger.expenditures, request, f) ==>
            e == f
  {
    forall e, f | PaidBy(db.ledger.expenditures, request, e) && PaidBy(db.ledger.expenditures, request, f)
      ensures e == f {
      assert db.ledger.expenditures[e].commitment == db.ledger.expenditures[f].commitment;
    }
  }

  /** The request of a call between its claim and the end of its transactions. */
  function Paying(call: Call): Option<Id> {
    match call
    case Claimed(job, _) => Some(job.request)
    case Spending(job, _, _) => Some(job.request)
    case Spent(job, _, _) => Some(job.request)
    case Recorded(job, _, _) => Some(job.request)
    case _ => None
  }

  /** Of all calls for one request, at most one is past the claim. */
  lemma ClaimExcludes(s: State, j: Id, k: Id)
    requires Reached(s) && j in s.calls && k in s.calls && j != k && Paying(s.calls[j]).Some?
    ensures Paying(s.calls[j]) != Paying(s.calls[k])
  {
    hide TablesOk, CallOk;
    ReachedInv(s);
    assert Apart(s.calls[j], s.calls[k]);
    if Paying(s.calls[k]).Some? {
      PayingPresent(s.db, s.calls[j]);
      PayingPresent(s.db, s.calls[k]);
      UniqueRequests(s.db);
    }
  }

  lemma PayingPresent(db: Tables, call: Call)
    requires CallOk(db, call) && Paying(call).Some?
    ensures Claimant(call).Some? && Claimant(call).value in db.payments
    ensures db.payments[Claimant(call).value].request == Paying(call).value
  {}

  lemma UniqueRequests(db: Tables)
    requires TablesOk(db)
    ensures forall p, q | p in db.payments && q in db.payments :: db.payments[p].request == db.payments[q].request ==>
            p == q
  {}

  /**
   * The protocol alone prevents a second expenditure: a call that is about to spend finds its request unpaid, so
   * when the unique constraint on the commitment refuses the row, a different request or a direct booking was there
   * first.
   */
  lemma DuplicateIsForeign(s: State, k: Id, e: Id)
    requires Reached(s) && k in s.calls && s.calls[k].Spending?
    requires e in s.db.ledger.expenditures && s.db.ledger.expenditures[e].commitment == s.calls[k].job.commitment
    ensures s.db.ledger.expenditures[e].purpose != L.PaymentFor(s.calls[k].job.request)
  {
    ReachedInv(s);
    assert CallOk(s.db, s.calls[k]);
    hide TablesOk;
  }

  lemma LedgerMoves(s: State, m: Move)
    requires Inv(s) && May(s, m)
    ensures Next(s, m).db.ledger == s.db.ledger
            || exists t :: L.Issuable(s.db.ledger, t) && Next(s, m).db.ledger == L.Step(s.db.ledger, t)
  {
    hide TablesOk, Apart;
    if m.Advance? && m.ok {
      assert CallOk(s.db, s.calls[m.k]);
      ProceedMoves(s.db, s.calls[m.k], m.id);
    }
  }

  lemma ProceedMoves(db: Tables, call: Call, id: Id)
    requires CallOk(db, call) && Unused(db, id)
    ensures Proceed(db, call, id).db.ledger == db.ledger
            || exists t :: L.Issuable(db.ledger, t) && Proceed(db, call, id).db.ledger == L.Step(db.ledger, t)
  {
    match call
    case Pending(t) =>
      NumberedIssuable(db.ledger, t, id);
      SettleIsStep(db, t, id);
    case Spending(job, payment, seen) =>
      SpendIsStep(db, job, payment, seen, id);
      assert L.Issuable(db.ledger, Purchase(job, seen, id));
    case _ =>
  }

  lemma MoveExtends(s: State, m: Move)
    requires Inv(s) && May(s, m)
    ensures L.Extends(s.db.ledger, Next(s, m).db.ledger)
  {
    hide Inv;
    LedgerMoves(s, m);
    if Next(s, m).db.ledger != s.db.ledger {
      var t :| L.Issuable(s.db.ledger, t) && Next(s, m).db.ledger == L.Step(s.db.ledger, t);
      L.StepExtends(s.db.ledger, t);
    }
  }

  /** A state of the same history, no earlier than one whose ledger was `l`. */
  ghost predicate Later(l: L.Ledger, s: State) {
    Inv(s) && L.Extends(l, s.db.ledger)
  }

  ghost function LaterThan(l: L.Ledger): State -> bool {
    (s: State) => Later(l, s)
  }

  lemma LaterSteps(l: L.Ledger)
    ensures Keeps(Next, May, LaterThan(l))
  {
    forall s, m | LaterThan(l)(s) && May(s, m) ensures LaterThan(l)(Next(s, m)) { LaterStep(l, s, m); }
  }

  lemma LaterStep(l: L.Ledger, s: State, m: Move)
    requires Later(l, s) && May(s, m)
    ensures Later(l, Next(s, m))
  {
    hide Inv;
    NextKept(s, m);
    MoveExtends(s, m);
  }

  lemma LaterKept(s: State, ms: seq<Move>)
    requires Inv(s) && IsRun(s, ms, Next, May)
    ensures Inv(Run(s, ms, Next)) && L.Extends(s.db.ledger, Run(s, ms, Next).db.ledger)
  {
    hide Inv;
    LaterSteps(s.db.ledger);
    assert Later(s.db.ledger, s);
    Invariant(s, ms, Next, May, LaterThan(s.db.ledger));
    assert Later(s.db.ledger, Run(s, ms, Next));
  }

  lemma PaidRefused(db: Tables, request: Id, e: Id, job: Job, payment: Id)
    requires L.References(db.ledger) && SpendingOk(db.ledger.expenditures, db.orders, db.invoices, db.requests)
    requires PaidBy(db.ledger.expenditures, request, e) && JobOk(db.orders, db.invoices, db.requests, job)
             && job.request == request
    ensures ReadCommitment(db, job, payment) == Failing(payment)
  {}

  /**
   * After a payment's expenditure has committed, whatever becomes of the claim, of the call and of the commitment, no
   * call is ever about to spend for the request again, and each that claims it is turned away before the budget.
   */
  lemma PaidIsFinal(s: State, ms: seq<Move>, request: Id, e: Id)
    requires Reached(s) && PaidBy(s.db.ledger.expenditures, request, e) && IsRun(s, ms, Next, May)
    ensures var later := Run(s, ms, Next);
            && (forall k | k in later.calls && later.calls[k].Spending? :: later.calls[k].job.request != request)
            && (forall k, id | k in later.calls && later.calls[k].Claimed? && later.calls[k].job.request == request ::
                  Proceed(later.db, later.calls[k], id) == Outcome(later.db, Failing(later.calls[k].payment)))
    ensures var db := Run(s, ms, Next).db;
            forall job, payment | JobOk(db.orders, db.invoices, db.requests, job) && job.request == request ::
              ReadCommitment(db, job, payment) == Failing(payment)
  {
    ReachedInv(s);
    LaterKept(s, ms);
    var later := Run(s, ms, Next);
    SoundParts(later);
    hide JobOk, Proceed, TablesOk, CallOk, Apart, L.References, SpendingOk, ReadCommitment;
    forall k | k in later.calls && later.calls[k].Spending? ensures later.calls[k].job.request != request {
      SpendingUnpaid(later.db, later.calls[k]);
    }
    forall k, id | k in later.calls && later.calls[k].Claimed? && later.calls[k].job.request == request
      ensures Proceed(later.db, later.calls[k], id) == Outcome(later.db, Failing(later.calls[k].payment))
    {
      ClaimRefused(later.db, request, e, later.calls[k], id);
    }
    forall job, payment | JobOk(later.db.orders, later.db.invoices, later.db.requests, job) && job.request == request
      ensures ReadCommitment(later.db, job, payment) == Failing(payment)
    {
      PaidRefused(later.db, request, e, job, payment);
    }
  }

  lemma SpendingUnpaid(db: Tables, call: Call)
    requires CallOk(db, call) && call.Spending?
    ensures Unpaid(db.ledger.expenditures, call.job.request)
  {}

  lemma ClaimRefused(db: Tables, request: Id, e: Id, call: Call, id: Id)
    requires L.References(db.ledger) && SpendingOk(db.ledger.expenditures, db.orders, db.invoices, db.requests)
    requires PaidBy(db.ledger.expenditures, request, e) && CallOk(db, call) && call.Claimed?
             && call.job.request == request
    ensures Proceed(db, call, id) == Outcome(db, Failing(call.payment))
  {
    hide L.References, SpendingOk, JobOk, ReadCommitment;
    PaidRefused(db, request, e, call.job, call.payment);
  }

  lemma SoundParts(s: State)
    requires Inv(s)
    ensures L.References(s.db.ledger) && SpendingOk(s.db.ledger.expenditures, s.db.orders, s.db.invoices, s.db.requests)
  {
    hide InvoicesOk, VotesOk, TalliesOk, ExecutedOk, PaymentsOk, PaymentsUnique, SpendingOk, L.References, L.Balanced;
  }

  // Idempotent replay

  /** Call `k` has returned the payment it made. */
  ghost predicate Answered(k: Id, payment: Id, row: Payment, s: State) {
    Inv(s) && k in s.calls && s.calls[k] == Returned(payment, row, false)
  }

  ghost function AnsweredWith(k: Id, payment: Id, row: Payment): State -> bool {
    (s: State) => Answered(k, payment, row, s)
  }

  lemma AnsweredSteps(k: Id, payment: Id, row: Payment)
    ensures Keeps(Next, May, AnsweredWith(k, payment, row))
  {
    forall s, m | AnsweredWith(k, payment, row)(s) && May(s, m) ensures AnsweredWith(k, payment, row)(Next(s, m)) {
      AnsweredStep(k, payment, row, s, m);
    }
  }

  lemma AnsweredStep(k: Id, payment: Id, row: Payment, s: State, m: Move)
    requires Answered(k, payment, row, s) && May(s, m)
    ensures Answered(k, payment, row, Next(s, m))
  {
    hide Inv;
    NextKept(s, m);
  }

  /**
   * Once an execute call has returned from its success path, the payment row stays as it is and every later call
   * with that key is given exactly that payment, whatever other calls do in between.
   */
  lemma ReplayAnswersTheSame(s: State, ms: seq<Move>, k: Id, payment: Id, row: Payment, request: Id, actor: User)
    requires Reached(s) && k in s.calls && s.calls[k] == Returned(payment, row, false) && IsRun(s, ms, Next, May)
    ensures var db := Run(s, ms, Next).db;
            && payment in db.payments && db.payments[payment] == row && row.expenditure.Some?
            && LookUp(db, request, row.key, actor) == Returned(payment, row, true)
            && LookUpLost(db, row.key) == Returned(payment, row, true)
  {
    hide Inv;
    ReachedInv(s);
    AnsweredSteps(k, payment, row);
    assert Answered(k, payment, row, s);
    Invariant(s, ms, Next, May, AnsweredWith(k, payment, row));
    assert Answered(k, payment, row, Run(s, ms, Next));
    AnswerStands(Run(s, ms, Next), k, payment, row, request, actor);
  }

  lemma AnswerStands(s: State, k: Id, payment: Id, row: Payment, request: Id, actor: User)
    requires Answered(k, payment, row, s)
    ensures payment in s.db.payments && s.db.payments[payment] == row && row.expenditure.Some?
    ensures LookUp(s.db, request, row.key, actor) == Returned(payment, row, true)
    ensures LookUpLost(s.db, row.key) == Returned(payment, row, true)
  {
    hide L.Sound, InvoicesOk, VotesOk, TalliesOk, ExecutedOk, PaymentsOk, SpendingOk;
    assert CallOk(s.db, s.calls[k]);
    assert KeyTaken(s.db.payments, row.key);
  }

  /** Keys and requests have at most one live payment each. */
  lemma OneLivePayment(s: State, p: Id, q: Id)
    requires Reached(s) && p in s.db.payments && q in s.db.payments && p != q
    ensures s.db.payments[p].key != s.db.payments[q].key && s.db.payments[p].request != s.db.payments[q].request
  {
    hide L.Sound, InvoicesOk, VotesOk, TalliesOk, ExecutedOk, PaymentsOk, SpendingOk;
    ReachedInv(s);
  }

  /**
   * The audit append comes after the finalising transaction, inside the same try block. If it fails, the catch block
   * deletes a finalised payment: the request stays EXECUTED and paid for, without a payment row and without a key to
   * replay. The row outlives the call exactly when that append succeeds or that deletion fails in its turn.
   */
  lemma FinalAuditDecides(s: State, k: Id, id: Id, audited: bool, deleted: bool)
    requires Reached(s) && k in s.calls && s.calls[k].Finalised? && Unused(s.db, id)
    ensures var p := s.calls[k].payment;
            var ended := Next(Next(s, Advance(k, id, audited)), Advance(k, id, deleted));
            && (p in ended.db.payments <==> audited || !deleted)
            && s.calls[k].job.request in s.db.requests && s.db.requests[s.calls[k].job.request].status.EXECUTED?
            && ended.db.requests == s.db.requests
            && (!audited ==> ended.calls[k] == Threw(Aborted))
            && (!audited && deleted ==> !RequestTaken(ended.db.payments, s.calls[k].job.request))
  {
    ReachedInv(s);
    assert CallOk(s.db, s.calls[k]);
    FinalisedRow(s.db, s.calls[k]);
    hide Next, Inv, CallOk, RequestTaken;
    if audited {
      AuditAppended(s, k, id, deleted);
    } else {
      AuditFailed(s, k, id, deleted);
    }
  }

  lemma AuditAppended(s: State, k: Id, id: Id, ok: bool)
    requires k in s.calls && s.calls[k].Finalised? && s.calls[k].payment in s.db.payments
    ensures var p := s.calls[k].payment;
            Next(Next(s, Advance(k, id, true)), Advance(k, id, ok))
            == s.(calls := s.calls[k := Returned(p, s.db.payments[p], false)])
  {}

  lemma AuditFailed(s: State, k: Id, id: Id, deleted: bool)
    requires k in s.calls && s.calls[k].Finalised?
    ensures var payments := if deleted then s.db.payments - {s.calls[k].payment} else s.db.payments;
            Next(Next(s, Advance(k, id, false)), Advance(k, id, deleted))
            == State(s.db.(payments := payments), s.calls[k := Threw(Aborted)])
  {
    assert Next(s, Advance(k, id, false)) == s.(calls := s.calls[k := Failing(s.calls[k].payment)]);
  }

  lemma FinalisedRow(db: Tables, call: Call)
    requires TablesOk(db) && CallOk(db, call) && call.Finalised?
    ensures call.payment in db.payments
    ensures call.job.request in db.requests && db.requests[call.job.request].status.EXECUTED?
    ensures !RequestTaken(db.payments - {call.payment}, call.job.request)
  {
    hide L.Sound, InvoicesOk, VotesOk, TalliesOk, ExecutedOk, SpendingOk;
    assert PaymentOk(db.ledger.expenditures, db.requests, db.payments[call.payment]);
  }

  // Approvals

  ghost function Approvers(votes: map<Id, Vote>, request: Id): set<User> {
    set v | v in votes && votes[v].request == request && votes[v].decision.APPROVE? :: votes[v].actor
  }

  lemma {:induction false} DistinctActors(votes: map<Id, Vote>, rows: set<Id>, request: Id)
    requires rows <= VotesOf(votes, request, APPROVE)
    requires forall v, w | v in rows && w in rows :: votes[v].actor == votes[w].actor ==> v == w
    ensures |set v | v in rows :: votes[v].actor| == |rows|
    decreases |rows|
  {
    if rows != {} {
      var v :| v in rows;
      DistinctActors(votes, rows - {v}, request);
      assert (set w | w in rows :: votes[w].actor) == (set w | w in rows - {v} :: votes[w].actor) + {votes[v].actor};
    }
  }

  /**
   * The multi-signature rule in every interleaving: PENDING means too few approvals and no rejection; APPROVED and
   * EXECUTED mean exactly the required number of distinct approvers and no rejection; nobody who voted verified the
   * invoice.
   */
  lemma MultiSignature(s: State, request: Id)
    requires Reached(s) && request in s.db.requests
    ensures var row := s.db.requests[request];
            var approvers := Approvers(s.db.votes, request);
            var rejections := VotesOf(s.db.votes, request, Decision.REJECT);
            && (row.status.PENDING? ==> |approvers| < row.required && rejections == {})
            && (row.status.APPROVED? || row.status.EXECUTED? ==> |approvers| == row.required && rejections == {})
            && (row.status.REJECTED? ==> |approvers| < row.required && |rejections| == 1)
            && row.invoice in s.db.invoices
            && (forall v | v in s.db.votes && s.db.votes[v].request == request ::
                  s.db.invoices[row.invoice].verifiedBy != Some(s.db.votes[v].actor))
  {
    hide L.Sound, InvoicesOk, ExecutedOk, PaymentsOk, SpendingOk, PaymentsUnique;
    ReachedInv(s);
    var rows := VotesOf(s.db.votes, request, APPROVE);
    assert Tallied(s.db.requests[request], rows, VotesOf(s.db.votes, request, Decision.REJECT));
    DistinctActors(s.db.votes, rows, request);
    assert Approvers(s.db.votes, request) == set v | v in rows :: s.db.votes[v].actor;
    InvoicePresent(s, request);
    forall v | v in s.db.votes && s.db.votes[v].request == request
      ensures s.db.invoices[s.db.requests[request].invoice].verifiedBy != Some(s.db.votes[v].actor)
    {
      assert VoterOk(s.db.invoices, s.db.requests, s.db.votes[v].request, s.db.votes[v].actor);
    }
  }

  lemma InvoicePresent(s: State, request: Id)
    requires Inv(s) && request in s.db.requests
    ensures s.db.requests[request].invoice in s.db.invoices
  {
    hide L.Sound, VotesOk, TalliesOk, ExecutedOk, PaymentsOk, SpendingOk, PaymentsUnique;
  }

  /** PENDING to APPROVED to EXECUTED, or PENDING to REJECTED, and nothing else. */
  predicate Forward(before: RequestStatus, after: RequestStatus) {
    after == before || before.PENDING? || (before.APPROVED? && after.EXECUTED?)
  }

  /** What one statement can do to a status. */
  predicate OneForward(before: RequestStatus, after: RequestStatus) {
    after == before || (before.PENDING? && (after.APPROVED? || after.REJECTED?))
      || (before.APPROVED? && after.EXECUTED?)
  }

  ghost predicate RequestsForward(before: State, after: State) {
    forall r | r in before.db.requests ::
      r in after.db.requests && Forward(before.db.requests[r].status, after.db.requests[r].status)
  }

  lemma CastForward(db: Tables, request: Id, actor: User, decision: Decision, id: Id, r: Id)
    requires r in db.requests
    ensures var after := Cast(db, request, actor, decision, id).db;
            r in after.requests && OneForward(db.requests[r].status, after.requests[r].status)
  {}

  lemma FinaliseForward(db: Tables, job: Job, payment: Id, expenditure: Id, r: Id)
    requires r in db.requests && JobOk(db.orders, db.invoices, db.requests, job)
    ensures var after := Finalise(db, job, payment, expenditure).db;
            r in after.requests && OneForward(db.requests[r].status, after.requests[r].status)
  {}

  lemma ProceedForward(db: Tables, call: Call, id: Id, r: Id)
    requires CallOk(db, call) && Unused(db, id) && r in db.requests
    ensures var after := Proceed(db, call, id).db;
            r in after.requests && OneForward(db.requests[r].status, after.requests[r].status)
  {
    hide L.Apply, JobOk;
    match call
    case Voting(request, actor, decision) => CastForward(db, request, actor, decision, id, r);
    case Recorded(job, payment, expenditure) => FinaliseForward(db, job, payment, expenditure, r);
    case _ =>
  }

  /** No statement of any call takes a request backwards, out of REJECTED or EXECUTED, or past APPROVED. */
  lemma NextForward(s: State, m: Move)
    requires Inv(s) && May(s, m)
    ensures forall r :: r in s.db.requests ==>
              r in Next(s, m).db.requests && OneForward(s.db.requests[r].status, Next(s, m).db.requests[r].status)
  {
    hide TablesOk, CallOk, L.Apply;
    if m.Advance? && m.ok {
      forall r | r in s.db.requests ensures r in Next(s, m).db.requests
          && OneForward(s.db.requests[r].status, Next(s, m).db.requests[r].status) {
        ProceedForward(s.db, s.calls[m.k], m.id, r);
      }
    }
  }

  /** Over a whole run: PENDING to APPROVED to EXECUTED, or PENDING to REJECTED. */
  lemma StatusMovesForward(s: State, ms: seq<Move>)
    requires Reached(s) && IsRun(s, ms, Next, May)
    ensures RequestsForward(s, Run(s, ms, Next))
  {
    hide Inv;
    ReachedInv(s);
    AlwaysInv();
    forall t, m | Inv(t) && May(t, m) ensures RequestsForward(t, Next(t, m)) { NextForward(t, m); }
    Monotone(s, ms, Next, May, Inv, RequestsForward);
  }

  // Sums: payments, expenditures, allocations

  ghost function PaidOn(l: L.Ledger, allocation: Id): Payment -> int {
    (p: Payment) =>
      if p.expenditure.Some? && p.expenditure.value in l.expenditures
        && l.expenditures[p.expenditure.value].allocation == allocation
      then p.amount else 0
  }

  function ExpenditureOf(payments: map<Id, Payment>): map<Id, Id> {
    map p | p in payments && payments[p].expenditure.Some? :: payments[p].expenditure.value
  }

  lemma PaymentsEmbed(db: Tables, allocation: Id)
    requires TablesOk(db)
    ensures Embeds(db.payments, PaidOn(db.ledger, allocation), db.ledger.expenditures, L.SpentOn(allocation),
            ExpenditureOf(db.payments))
  {
    hide OrdersOk, InvoicesOk, VotesOk, TalliesOk, ExecutedOk, L.Balanced;
    var image := ExpenditureOf(db.payments);
    var rows := db.ledger.expenditures;
    forall p | p in db.payments && PaidOn(db.ledger, allocation)(db.payments[p]) != 0
      ensures p in image && image[p] in rows && db.payments[p].amount <= L.SpentOn(allocation)(rows[image[p]])
    {
      assert PaymentOk(rows, db.requests, db.payments[p]);
    }
    forall p, q | p in db.payments && q in db.payments && p in image && q in image && image[p] == image[q]
      ensures p == q {
      assert PaymentOk(rows, db.requests, db.payments[p]) && PaymentOk(rows, db.requests, db.payments[q]);
    }
  }

  /**
   * The finalised payments drawn on an allocation sum to at most its spentAmount, which stays within its
   * authorizedAmount.
   */
  lemma PaymentsWithinAllocation(s: State, allocation: Id)
    requires Reached(s) && allocation in s.db.ledger.allocations
    ensures var a := s.db.ledger.allocations[allocation];
            Sum(s.db.payments, PaidOn(s.db.ledger, allocation)) <= a.spent <= a.authorized
  {
    hide InvoicesOk, VotesOk, TalliesOk, ExecutedOk, SpendingOk, PaymentsOk, PaymentsUnique;
    ReachedInv(s);
    PaymentsEmbed(s.db, allocation);
    var rows := s.db.ledger.expenditures;
    forall e | e in rows ensures L.SpentOn(allocation)(rows[e]) >= 0 {}
    SumEmbedded(s.db.payments, PaidOn(s.db.ledger, allocation), rows, L.SpentOn(allocation),
      ExpenditureOf(s.db.payments));
    assert L.Balanced(s.db.ledger, allocation);
  }

  /** A finalised payment has an expenditure of its own, for its request and of its amount. */
  lemma OwnExpenditure(s: State, p: Id)
    requires Reached(s) && p in s.db.payments && s.db.payments[p].expenditure.Some?
    ensures var e := s.db.payments[p].expenditure.value;
            && PaidBy(s.db.ledger.expenditures, s.db.payments[p].request, e)
            && s.db.ledger.expenditures[e].amount == s.db.payments[p].amount
            && forall q | q in s.db.payments && q != p :: s.db.payments[q].expenditure != Some(e)
  {
    hide L.Sound, InvoicesOk, VotesOk, TalliesOk, ExecutedOk;
    ReachedInv(s);
    assert PaymentOk(s.db.ledger.expenditures, s.db.requests, s.db.payments[p]);
    forall q | q in s.db.payments && q != p ensures s.db.payments[q].expenditure != s.db.payments[p].expenditure {
      assert PaymentOk(s.db.ledger.expenditures, s.db.requests, s.db.payments[q]);
    }
  }
}
