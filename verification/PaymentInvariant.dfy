/** The invariant of the payment protocol: what its tables and the calls in flight satisfy in every interleaving. */
module PaymentInvariant {
  import opened Common
  import opened Payments
  import L = Ledger

  /** The commitment a payment request is paid from: invoice, purchase order, contract. */
  ghost predicate DrawsOn(
    orders: map<Id, Order>, invoices: map<Id, Invoice>, requests: map<Id, Request>, request: Id, commitment: Id) {
    && request in requests && requests[request].invoice in invoices
    && invoices[requests[request].invoice].order in orders
    && orders[invoices[requests[request].invoice].order].commitment == commitment
  }

  ghost predicate InvoicesOk(orders: map<Id, Order>, invoices: map<Id, Invoice>, requests: map<Id, Request>) {
    && (forall i | i in invoices :: invoices[i].order in orders)
    && (forall r | r in requests ::
          && requests[r].invoice in invoices
          && invoices[requests[r].invoice].amount == requests[r].amount
          && invoices[requests[r].invoice].verifiedBy.Some?
          && !invoices[requests[r].invoice].status.SUBMITTED?)
    && (forall q, r | q in requests && r in requests :: requests[q].invoice == requests[r].invoice ==> q == r)
  }

  ghost predicate OrdersOk(orders: map<Id, Order>, commitments: map<Id, L.Commitment>) {
    forall o | o in orders :: orders[o].commitment in commitments
  }

  /** Where the multi-signature tally of a request stands. */
  ghost predicate Tallied(row: Request, approvals: set<Id>, rejections: set<Id>) {
    && 1 <= row.required
    && match row.status {
         case PENDING => |approvals| < row.required && rejections == {}
         case APPROVED => |approvals| == row.required && rejections == {}
         case EXECUTED => |approvals| == row.required && rejections == {}
         case REJECTED => |approvals| < row.required && |rejections| == 1
       }
  }

  ghost predicate VoterOk(invoices: map<Id, Invoice>, requests: map<Id, Request>, request: Id, actor: User) {
    && request in requests && requests[request].invoice in invoices
    && invoices[requests[request].invoice].verifiedBy != Some(actor)
  }

  ghost predicate VotesOk(invoices: map<Id, Invoice>, requests: map<Id, Request>, votes: map<Id, Vote>) {
    && (forall v | v in votes :: VoterOk(invoices, requests, votes[v].request, votes[v].actor))
    && (forall v, w | v in votes && w in votes ::
          votes[v].request == votes[w].request && votes[v].actor == votes[w].actor ==> v == w)
  }

  ghost predicate TalliesOk(requests: map<Id, Request>, votes: map<Id, Vote>) {
    forall r | r in requests :: Tallied(requests[r], VotesOf(votes, r, APPROVE), VotesOf(votes, r, REJECT))
  }

  ghost predicate PaidBy(expenditures: map<Id, L.Expenditure>, request: Id, expenditure: Id) {
    expenditure in expenditures && expenditures[expenditure].purpose == L.PaymentFor(request)
  }

  ghost predicate Unpaid(expenditures: map<Id, L.Expenditure>, request: Id) {
    forall e | e in expenditures :: expenditures[e].purpose != L.PaymentFor(request)
  }

  /** Every expenditure that an execution caused is of its request's amount and drawn on its request's commitment. */
  ghost predicate SpendingOk(
    expenditures: map<Id, L.Expenditure>, orders: map<Id, Order>, invoices: map<Id, Invoice>,
    requests: map<Id, Request>)
  {
    forall e | e in expenditures && expenditures[e].purpose.PaymentFor? ::
      && DrawsOn(orders, invoices, requests, expenditures[e].purpose.request, expenditures[e].commitment)
      && requests[expenditures[e].purpose.request].amount == expenditures[e].amount
  }

  /** An executed request has an expenditure to show. */
  ghost predicate ExecutedOk(expenditures: map<Id, L.Expenditure>, requests: map<Id, Request>) {
    forall r | r in requests && requests[r].status.EXECUTED? :: !Unpaid(expenditures, r)
  }

  ghost predicate PaymentOk(expenditures: map<Id, L.Expenditure>, requests: map<Id, Request>, row: Payment) {
    && row.request in requests
    && row.amount == requests[row.request].amount
    && (row.expenditure.Some? ==>
          PaidBy(expenditures, row.request, row.expenditure.value) && requests[row.request].status.EXECUTED?)
  }

  ghost predicate PaymentsOk(
    expenditures: map<Id, L.Expenditure>, requests: map<Id, Request>, payments: map<Id, Payment>) {
    forall p | p in payments :: PaymentOk(expenditures, requests, payments[p])
  }

  /** The two unique constraints on payments. */
  ghost predicate PaymentsUnique(payments: map<Id, Payment>) {
    && (forall p, q | p in payments && q in payments :: payments[p].request == payments[q].request ==> p == q)
    && (forall p, q | p in payments && q in payments :: payments[p].key == payments[q].key ==> p == q)
  }

  ghost predicate TablesOk(db: Tables) {
    && L.Sound(db.ledger)
    && OrdersOk(db.orders, db.ledger.commitments)
    && InvoicesOk(db.orders, db.invoices, db.requests)
    && VotesOk(db.invoices, db.requests, db.votes)
    && TalliesOk(db.requests, db.votes)
    && SpendingOk(db.ledger.expenditures, db.orders, db.invoices, db.requests)
    && ExecutedOk(db.ledger.expenditures, db.requests)
    && PaymentsOk(db.ledger.expenditures, db.requests, db.payments)
    && PaymentsUnique(db.payments)
  }

  ghost predicate JobOk(orders: map<Id, Order>, invoices: map<Id, Invoice>, requests: map<Id, Request>, job: Job) {
    && DrawsOn(orders, invoices, requests, job.request, job.commitment)
    && requests[job.request].amount == job.amount
    && requests[job.request].invoice == job.invoice
    && (requests[job.request].status.APPROVED? || requests[job.request].status.EXECUTED?)
  }

  ghost predicate Holds(payments: map<Id, Payment>, job: Job, payment: Id) {
    payment in payments && payments[payment] == Payment(job.request, job.amount, job.key, None, None)
  }

  ghost predicate PendingOk(l: L.Ledger, t: L.Transaction) {
    match t
    case ReleaseCommitment(c, seen) => L.SeenCommitment(l, c, seen)
    case RecordExpenditure(_, c, seen, amount, purpose) =>
      L.SeenCommitment(l, c, seen) && amount <= seen.amount && purpose.Direct?
    case ApproveAdjustment(j, seen) => L.SeenAdjustment(l, j, seen)
    case RejectAdjustment(j) => j in l.adjustments
    case _ => false
  }

  /** What a call relies on in the commitments and adjustments it has read. */
  ghost predicate ReadOk(l: L.Ledger, call: Call) {
    match call
    case Pending(t) => PendingOk(l, t)
    case Spending(job, _, seen) => L.SeenCommitment(l, job.commitment, seen) && job.amount <= seen.amount
    case _ => true
  }

  /** What it relies on in the expenditures. */
  ghost predicate BudgetOk(expenditures: map<Id, L.Expenditure>, call: Call) {
    match call
    case Spending(job, _, _) => Unpaid(expenditures, job.request)
    case Spent(job, _, e) => PaidBy(expenditures, job.request, e)
    case Recorded(job, _, e) => PaidBy(expenditures, job.request, e)
    case _ => true
  }

  /** What it relies on in orders, invoices and requests. */
  ghost predicate PaperOk(orders: map<Id, Order>, invoices: map<Id, Invoice>, requests: map<Id, Request>, call: Call) {
    match call
    case Submitting(order, _, _) => order in orders
    case Verifying(i, amount, _) => i in invoices && invoices[i].amount == amount
    case Rejecting(i) => i in invoices
    case Voting(r, actor, _) => VoterOk(invoices, requests, r, actor)
    case Cleared(job) => JobOk(orders, invoices, requests, job)
    case Claimed(job, _) => JobOk(orders, invoices, requests, job)
    case Spending(job, _, _) => JobOk(orders, invoices, requests, job)
    case Spent(job, _, _) => JobOk(orders, invoices, requests, job)
    case Recorded(job, _, _) => JobOk(orders, invoices, requests, job)
    case _ => true
  }

  /** What it relies on in the payments: its own claim. */
  ghost predicate ClaimOk(payments: map<Id, Payment>, call: Call) {
    match call
    case Claimed(job, p) => Holds(payments, job, p)
    case Spending(job, p, _) => Holds(payments, job, p)
    case Spent(job, p, _) => Holds(payments, job, p)
    case Recorded(job, p, _) => Holds(payments, job, p)
    case Finalised(job, p) =>
      p in payments && payments[p].expenditure.Some? && payments[p].request == job.request && payments[p].key == job.key
    case Failing(p) => p in payments
    case Returned(p, row, replayed) => !replayed ==> p in payments && payments[p] == row && row.expenditure.Some?
    case _ => true
  }

  ghost predicate CallOk(db: Tables, call: Call) {
    && ReadOk(db.ledger, call)
    && BudgetOk(db.ledger.expenditures, call)
    && PaperOk(db.orders, db.invoices, db.requests, call)
    && ClaimOk(db.payments, call)
  }

  /** The payment row that is a call's own: the one it inserted. */
  function Claimant(call: Call): Option<Id> {
    match call
    case Claimed(_, p) => Some(p)
    case Spending(_, p, _) => Some(p)
    case Spent(_, p, _) => Some(p)
    case Recorded(_, p, _) => Some(p)
    case Finalised(_, p) => Some(p)
    case Failing(p) => Some(p)
    case Returned(p, _, replayed) => if replayed then None else Some(p)
    case _ => None
  }

  ghost predicate Apart(one: Call, two: Call) {
    Claimant(one).Some? ==> Claimant(one) != Claimant(two)
  }

  /** In every interleaving; no two calls ever own the same payment row. */
  ghost predicate Inv(s: State) {
    && TablesOk(s.db)
    && (forall k | k in s.calls :: CallOk(s.db, s.calls[k]))
    && (forall j, k | j in s.calls && k in s.calls && j != k :: Apart(s.calls[j], s.calls[k]))
  }
}
