/**
 * The payment protocol as a machine over database statements: PaymentsService.execute and castApproval, InvoicesService
 * and the calls of AllocationsService, each call a program counter that every other call may overtake. A move is one
 * statement or one transaction, or the disappearance of a call in a crash.
 */
module Payments {
  import opened Common
  import opened Sums
  import L = Ledger

  type Key = nat

  datatype InvoiceStatus = SUBMITTED | VERIFIED | REJECTED | PAID
  datatype RequestStatus = PENDING | APPROVED | REJECTED | EXECUTED
  datatype Decision = APPROVE | REJECT

  /** A purchase order, with the commitment its contract draws on. */
  datatype Order = Order(commitment: Id, amount: Positive)
  datatype Invoice =
    Invoice(order: Id, amount: Positive, submittedBy: User, verifiedBy: Option<User>, status: InvoiceStatus)
  datatype Request = Request(invoice: Id, amount: Positive, required: nat, status: RequestStatus)
  datatype Vote = Vote(request: Id, actor: User, decision: Decision)
  datatype Payment = Payment(request: Id, amount: Positive, key: Key, expenditure: Option<Id>, executedBy: Option<User>)

  datatype Tables = Tables(
    ledger: L.Ledger,
    orders: map<Id, Order>,
    invoices: map<Id, Invoice>,
    requests: map<Id, Request>,
    votes: map<Id, Vote>,
    payments: map<Id, Payment>)

  /** The schema's default; no code sets another value. */
  const REQUIRED_APPROVALS: nat := 2

  /** What an execute call has read of its payment request. */
  datatype Job = Job(request: Id, key: Key, actor: User, amount: Positive, invoice: Id, commitment: Id)

  /** A call between two of its statements. */
  datatype Call =
    // AllocationsService, past the guard and before the transaction
    | Pending(t: L.Transaction)
    // InvoicesService
    | Submitting(order: Id, amount: Positive, actor: User)
    | Verifying(invoice: Id, amount: Positive, actor: User)
    | Rejecting(invoice: Id)
    // PaymentsService.castApproval
    | Voting(request: Id, actor: User, decision: Decision)
    // PaymentsService.execute
    | Arrived(request: Id, key: Key, actor: User)
    | Unseen(request: Id, key: Key, actor: User)
    | Cleared(job: Job)
    | Lost(key: Key)
    | Claimed(job: Job, payment: Id)
    | Spending(job: Job, payment: Id, seen: L.Commitment)
    | Spent(job: Job, payment: Id, expenditure: Id)
    | Recorded(job: Job, payment: Id, expenditure: Id)
    | Finalised(job: Job, payment: Id)
    | Failing(payment: Id)
    // ended
    | Returned(payment: Id, row: Payment, replayed: bool)
    | Threw(error: Error)
    | Done

  /** What one statement of a call leaves behind: the tables, and the call's new program counter. */
  datatype Outcome = Outcome(db: Tables, call: Call)

  datatype State = State(db: Tables, calls: map<Id, Call>)

  const INITIAL := State(Tables(L.EMPTY, map[], map[], map[], map[], map[]), map[])

  datatype Move =
    | Book(t: L.Transaction)
    | RaiseOrder(id: Id, order: Order)
    | Begin(k: Id, entry: Entry)
    | Advance(k: Id, id: Id, ok: bool)
    | Crash(k: Id)

  /** The first statement of a call: a read and its guard. */
  datatype Entry =
    | Release(commitment: Id)
    | Expend(commitment: Id, amount: Positive)
    | Approve(adjustment: Id, actor: User)
    | RejectAdjustment(adjustment: Id)
    | SubmitInvoice(orderId: Id, amount: Positive, actor: User)
    | VerifyInvoice(invoice: Id, actor: User)
    | RejectInvoice(invoice: Id)
    | CastVote(request: Id, actor: User, decision: Decision)
    | Execute(request: Id, key: Key, actor: User)

  ghost function LiveAgainst(order: Id): Invoice -> int {
    (i: Invoice) => if i.order == order && !i.status.REJECTED? then i.amount else 0
  }

  ghost function Enter(db: Tables, e: Entry): Call {
    match e
    case Release(commitment) =>
      (match L.ReadForRelease(db.ledger, commitment)
       case Ok(seen) => Pending(L.ReleaseCommitment(commitment, seen))
       case Err(error) => Threw(error))
    case Expend(commitment, amount) =>
      (match L.ReadForExpenditure(db.ledger, commitment, amount)
       case Ok(seen) => Pending(L.RecordExpenditure(0, commitment, seen, amount, L.Direct))
       case Err(error) => Threw(error))
    case Approve(adjustment, actor) =>
      (match L.ReadForApproval(db.ledger, adjustment, actor)
       case Ok(seen) => Pending(L.ApproveAdjustment(adjustment, seen))
       case Err(error) => Threw(error))
    case RejectAdjustment(adjustment) =>
      (match L.ReadPending(db.ledger, adjustment)
       case Ok(_) => Pending(L.RejectAdjustment(adjustment))
       case Err(error) => Threw(error))
    case SubmitInvoice(order, amount, actor) =>
      if order !in db.orders then Threw(NotFound)
      else if Sum(db.invoices, LiveAgainst(order)) + amount > db.orders[order].amount then Threw(Conflict)
      else Submitting(order, amount, actor)
    case VerifyInvoice(invoice, actor) =>
      if invoice !in db.invoices then Threw(NotFound)
      else if db.invoices[invoice].submittedBy == actor then Threw(Forbidden)
      else if !db.invoices[invoice].status.SUBMITTED? then Threw(BadRequest)
      else Verifying(invoice, db.invoices[invoice].amount, actor)
    case RejectInvoice(invoice) =>
      if invoice !in db.invoices then Threw(NotFound)
      else if !db.invoices[invoice].status.SUBMITTED? then Threw(BadRequest)
      else Rejecting(invoice)
    case CastVote(request, actor, decision) =>
      if request !in db.requests || db.requests[request].invoice !in db.invoices then Threw(NotFound)
      else if db.invoices[db.requests[request].invoice].verifiedBy == Some(actor) then Threw(Forbidden)
      else Voting(request, actor, decision)
    case Execute(request, key, actor) => Arrived(request, key, actor)
  }

  // The transactions of the other services

  function Numbered(t: L.Transaction, id: Id): L.Transaction {
    match t
    case RecordExpenditure(_, c, seen, amount, purpose) => L.RecordExpenditure(id, c, seen, amount, purpose)
    case _ => t
  }

  /** The transaction of an AllocationsService call, on the row its guard read. */
  function Settle(db: Tables, t: L.Transaction, id: Id): Outcome {
    match L.Apply(db.ledger, Numbered(t, id))
    case Ok(ledger) => Outcome(db.(ledger := ledger), Done)
    case Err(error) => Outcome(db, Threw(error))
  }

  function Submit(db: Tables, order: Id, amount: Positive, actor: User, id: Id): Outcome {
    Outcome(db.(invoices := db.invoices[id := Invoice(order, amount, actor, None, SUBMITTED)]), Done)
  }

  predicate HasRequest(requests: map<Id, Request>, invoice: Id) {
    exists r :: r in requests && requests[r].invoice == invoice
  }

  /** Marks the invoice and creates its payment request, unless it already has one. */
  function Verify(db: Tables, invoice: Id, amount: Positive, actor: User, id: Id): Outcome {
    if invoice !in db.invoices || HasRequest(db.requests, invoice) then Outcome(db, Threw(Aborted))
    else
      Outcome(db.(invoices :=
        db.invoices[invoice := db.invoices[invoice].(status := VERIFIED, verifiedBy := Some(actor))],
                  requests := db.requests[id := Request(invoice, amount, REQUIRED_APPROVALS, PENDING)]), Done)
  }

  function Reject(db: Tables, invoice: Id): Outcome {
    if invoice !in db.invoices then Outcome(db, Threw(Aborted))
    else
      Outcome(db.(invoices := db.invoices[invoice := db.invoices[invoice].(status := InvoiceStatus.REJECTED)]), Done)
  }

  predicate HasVoted(votes: map<Id, Vote>, request: Id, actor: User) {
    exists v :: v in votes && votes[v].request == request && votes[v].actor == actor
  }

  function VotesOf(votes: map<Id, Vote>, request: Id, decision: Decision): set<Id> {
    set v | v in votes && votes[v].request == request && votes[v].decision == decision
  }

  /** The row-locked transaction of castApproval: record the vote, count, move the request. */
  function Cast(db: Tables, request: Id, actor: User, decision: Decision, id: Id): Outcome {
    if request !in db.requests then Outcome(db, Threw(NotFound))
    else if !db.requests[request].status.PENDING? then Outcome(db, Threw(BadRequest))
    else if HasVoted(db.votes, request, actor) then Outcome(db, Threw(Conflict))
    else
      var row := db.requests[request];
      var votes := db.votes[id := Vote(request, actor, decision)];
      var status :=
        if decision.REJECT? then RequestStatus.REJECTED
        else if |VotesOf(votes, request, APPROVE)| >= row.required then RequestStatus.APPROVED
        else PENDING;
      Outcome(db.(votes := votes, requests := db.requests[request := row.(status := status)]), Done)
  }

  // execute, statement by statement

  predicate KeyTaken(payments: map<Id, Payment>, key: Key) {
    exists p :: p in payments && payments[p].key == key
  }

  predicate RequestTaken(payments: map<Id, Payment>, request: Id) {
    exists p :: p in payments && payments[p].request == request
  }

  /** The payment stored under a key; the key column is unique. */
  ghost function Replay(payments: map<Id, Payment>, key: Key): Call
    requires KeyTaken(payments, key)
  {
    var p :| p in payments && payments[p].key == key;
    Returned(p, payments[p], true)
  }

  ghost function LookUp(db: Tables, request: Id, key: Key, actor: User): Call {
    if KeyTaken(db.payments, key) then Replay(db.payments, key) else Unseen(request, key, actor)
  }

  function ReadRequest(db: Tables, request: Id, key: Key, actor: User): Call {
    if request !in db.requests || db.requests[request].invoice !in db.invoices
       || db.invoices[db.requests[request].invoice].order !in db.orders then Threw(NotFound)
    else if !db.requests[request].status.APPROVED? then Threw(BadRequest)
    else
      var row := db.requests[request];
      Cleared(Job(request, key, actor, row.amount, row.invoice, db.orders[db.invoices[row.invoice].order].commitment))
  }

  /** The INSERT that claims the key and the request; either unique constraint may refuse it. */
  function Claim(db: Tables, job: Job, id: Id): Outcome {
    if KeyTaken(db.payments, job.key) || RequestTaken(db.payments, job.request) then Outcome(db, Lost(job.key))
    else
      Outcome(db.(payments := db.payments[id := Payment(job.request, job.amount, job.key, None, None)]),
        Claimed(job, id))
  }

  ghost function LookUpLost(db: Tables, key: Key): Call {
    if KeyTaken(db.payments, key) then Replay(db.payments, key) else Threw(Conflict)
  }

  function ReadCommitment(db: Tables, job: Job, payment: Id): Call {
    match L.ReadForExpenditure(db.ledger, job.commitment, job.amount)
    case Ok(seen) => Spending(job, payment, seen)
    case Err(_) => Failing(payment)
  }

  function Purchase(job: Job, seen: L.Commitment, id: Id): L.Transaction {
    L.RecordExpenditure(id, job.commitment, seen, job.amount, L.PaymentFor(job.request))
  }

  function Spend(db: Tables, job: Job, payment: Id, seen: L.Commitment, id: Id): Outcome {
    match L.Apply(db.ledger, Purchase(job, seen, id))
    case Ok(ledger) => Outcome(db.(ledger := ledger), Spent(job, payment, id))
    case Err(_) => Outcome(db, Failing(payment))
  }

  /** The transaction that links the expenditure and closes the invoice and the request. */
  function Finalise(db: Tables, job: Job, payment: Id, expenditure: Id): Outcome {
    if payment !in db.payments || job.invoice !in db.invoices
      || job.request !in db.requests then Outcome(db, Failing(payment))
    else
      var row := db.payments[payment].(expenditure := Some(expenditure), executedBy := Some(job.actor));
      Outcome(db.(payments := db.payments[payment := row],
                  invoices := db.invoices[job.invoice := db.invoices[job.invoice].(status := PAID)],
                  requests := db.requests[job.request := db.requests[job.request].(status := EXECUTED)]),
              Finalised(job, payment))
  }

  function Answer(db: Tables, payment: Id): Call {
    if payment in db.payments then Returned(payment, db.payments[payment], false) else Failing(payment)
  }

  /** The catch block: the claim is deleted so that the key is not poisoned. */
  function Compensate(db: Tables, payment: Id): Outcome {
    Outcome(db.(payments := db.payments - {payment}), Threw(Aborted))
  }

  /** The call's next statement fails: into the catch block while the claim is held, otherwise out of the call. */
  function Fail(call: Call): Call {
    match call
    case Claimed(_, payment) => Failing(payment)
    case Spending(_, payment, _) => Failing(payment)
    case Spent(_, payment, _) => Failing(payment)
    case Recorded(_, payment, _) => Failing(payment)
    case Finalised(_, payment) => Failing(payment)
    case Returned(_, _, _) => call
    case Threw(_) => call
    case Done => call
    case _ => Threw(Aborted)
  }

  /** The call's next statement succeeds; `id` numbers the row it may insert. */
  ghost function Proceed(db: Tables, call: Call, id: Id): Outcome {
    match call
    case Pending(t) => Settle(db, t, id)
    case Submitting(order, amount, actor) => Submit(db, order, amount, actor, id)
    case Verifying(invoice, amount, actor) => Verify(db, invoice, amount, actor, id)
    case Rejecting(invoice) => Reject(db, invoice)
    case Voting(request, actor, decision) => Cast(db, request, actor, decision, id)
    case Arrived(request, key, actor) => Outcome(db, LookUp(db, request, key, actor))
    case Unseen(request, key, actor) => Outcome(db, ReadRequest(db, request, key, actor))
    case Cleared(job) => Claim(db, job, id)
    case Lost(key) => Outcome(db, LookUpLost(db, key))
    case Claimed(job, payment) => Outcome(db, ReadCommitment(db, job, payment))
    case Spending(job, payment, seen) => Spend(db, job, payment, seen, id)
    case Spent(job, payment, expenditure) => Outcome(db, Recorded(job, payment, expenditure))
    case Recorded(job, payment, expenditure) => Finalise(db, job, payment, expenditure)
    case Finalised(_, payment) => Outcome(db, Answer(db, payment))
    case Failing(payment) => Compensate(db, payment)
    case Returned(_, _, _) => Outcome(db, call)
    case Threw(_) => Outcome(db, call)
    case Done => Outcome(db, call)
  }

  ghost function Next(s: State, m: Move): State {
    match m
    case Book(t) => s.(db := s.db.(ledger := L.Step(s.db.ledger, t)))
    case RaiseOrder(id, order) => s.(db := s.db.(orders := s.db.orders[id := order]))
    case Begin(k, e) => s.(calls := s.calls[k := Enter(s.db, e)])
    case Advance(k, id, ok) =>
      if k !in s.calls then s
      else if !ok then s.(calls := s.calls[k := Fail(s.calls[k])])
      else
        var o := Proceed(s.db, s.calls[k], id);
        State(o.db, s.calls[k := o.call])
    case Crash(k) => s.(calls := s.calls - {k})
  }

  ghost predicate Unused(db: Tables, id: Id) {
    id !in db.payments && id !in db.ledger.expenditures && id !in db.invoices && id !in db.requests && id !in db.votes
  }

  /** Identifiers of new rows and of new calls are unused, and an order's contract has a commitment. */
  ghost predicate May(s: State, m: Move) {
    match m
    case Book(t) => L.Issuable(s.db.ledger, t) && (t.OpenAllocation? || t.CreateCommitment? || t.RequestAdjustment?)
    case RaiseOrder(id, order) => id !in s.db.orders && order.commitment in s.db.ledger.commitments
    case Begin(k, _) => k !in s.calls
    case Advance(k, id, _) => k in s.calls && Unused(s.db, id)
    case Crash(k) => k in s.calls && !s.calls[k].Returned?
  }
}
