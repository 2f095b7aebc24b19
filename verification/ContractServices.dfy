/** InvoicesService and PaymentsService as they run, one call at a time, over the tables they share. */
module ContractServices {
  import opened Common
  import opened Sums
  import opened Payments
  import opened BudgetServices
  import L = Ledger

  class ContractTables {
    var orders: map<Id, Order>
    var invoices: map<Id, Invoice>
    var requests: map<Id, Request>
    var votes: map<Id, Vote>
    var payments: map<Id, Payment>
    /** The orders in status ISSUED, and the number that each invoice carries. */
    var issued: set<Id>
    var numbers: map<Id, string>

    function Contents(ledger: L.Ledger): Tables
      reads this
    {
      Tables(ledger, orders, invoices, requests, votes, payments)
    }

    constructor ()
      ensures Contents(L.EMPTY) == INITIAL.db
    {
      orders, invoices, requests, votes, payments := map[], map[], map[], map[], map[];
      issued, numbers := {}, map[];
    }
  }

  class InvoicesService {
    const db: ContractTables

    constructor (db: ContractTables)
      ensures this.db == db
    {
      this.db := db;
    }

    /** The reduce over the invoices of an order that were not rejected. */
    method AlreadyInvoiced(order: Id) returns (sum: int)
      ensures sum == Sum(db.invoices, LiveAgainst(order))
    {
      sum := 0;
      var rest := db.invoices;
      var weight := LiveAgainst(order);
      while rest != map[]
        invariant sum + Sum(rest, LiveAgainst(order)) == Sum(db.invoices, LiveAgainst(order))
        decreases |rest|
      {
        var k :| k in rest;
        SumPick(rest, k, LiveAgainst(order));
        var invoice := rest[k];
        if invoice.order == order && !invoice.status.REJECTED? {
          sum := sum + invoice.amount;
        }
        rest := rest - {k};
      }
    }

    predicate NumberTaken(number: string)
      reads db
    {
      exists i :: i in db.numbers && db.numbers[i] == number
    }

    /** An accepted invoice keeps the order's live invoices within its amount; one that would not is refused. */
    method Create(order: Id, amount: Positive, number: string, actor: User, id: Id) returns (r: Result<Invoice>)
      requires id !in db.invoices
      modifies db
      ensures r == Err(NotFound) <==> order !in old(db.orders)
      ensures r == Err(BadRequest) <==> order in old(db.orders) && order !in db.issued
      ensures r == Err(Conflict) <==> order in old(db.orders) && order in db.issued
                                      && (Sum(old(db.invoices), LiveAgainst(order))
                                         + amount > old(db.orders)[order].amount
                                          || old(NumberTaken(number)))
      ensures r.Ok? <==> order in old(db.orders) && order in db.issued && !old(NumberTaken(number))
                         && Sum(old(db.invoices), LiveAgainst(order)) + amount <= old(db.orders)[order].amount
      ensures r.Ok? ==> r.value == Invoice(order, amount, actor, None, SUBMITTED)
                        && order in db.orders && Sum(db.invoices, LiveAgainst(order)) <= db.orders[order].amount
      ensures db.invoices == if r.Ok? then old(db.invoices)[id := r.value] else old(db.invoices)
      ensures db.orders == old(db.orders) && db.requests == old(db.requests) && db.votes == old(db.votes)
              && db.payments == old(db.payments)
      ensures db.issued == old(db.issued)
              && db.numbers == if r.Ok? then old(db.numbers)[id := number] else old(db.numbers)
      ensures forall l ::
              db.Contents(l) == if r.Ok? then Submit(old(db.Contents(l)), order, amount, actor, id).db
                else old(db.Contents(l))
    {
      if order !in db.orders { return Err(NotFound); }
      if order !in db.issued { return Err(BadRequest); }
      var alreadyInvoiced := AlreadyInvoiced(order);
      if alreadyInvoiced + amount > db.orders[order].amount { return Err(Conflict); }
      if NumberTaken(number) { return Err(Conflict); }
      var row := Invoice(order, amount, actor, None, SUBMITTED);
      SumPut(db.invoices, id, row, LiveAgainst(order));
      db.invoices := db.invoices[id := row];
      db.numbers := db.numbers[id := number];
      r := Ok(row);
    }

    /** Verification comes from somebody else than the submitter and creates the invoice's one payment request. */
    method VerifyInvoice(invoice: Id, actor: User, id: Id) returns (r: Result<Request>)
      requires id !in db.requests
      modifies db
      ensures r.Ok? <==> invoice in old(db.invoices) && old(db.invoices)[invoice].submittedBy != actor
                         && old(db.invoices)[invoice].status.SUBMITTED?
                         && forall q :: q in old(db.requests) ==> old(db.requests)[q].invoice != invoice
      ensures r.Ok? ==>
                var row := old(db.invoices)[invoice];
                && r.value == Request(invoice, row.amount, 2, PENDING)
                && db.requests == old(db.requests)[id := r.value]
                && db.invoices
                   == old(db.invoices)[invoice :=
                        Invoice(row.order, row.amount, row.submittedBy, Some(actor), VERIFIED)]
      ensures r.Err? ==> db.requests == old(db.requests) && db.invoices == old(db.invoices)
      ensures db.orders == old(db.orders) && db.votes == old(db.votes) && db.payments == old(db.payments)
      ensures r == Err(NotFound) <==> invoice !in old(db.invoices)
      ensures r == Err(Forbidden) <==> invoice in old(db.invoices) && old(db.invoices)[invoice].submittedBy == actor
      ensures forall l :: db.Contents(l) ==
                if r.Ok? then Verify(old(db.Contents(l)), invoice, r.value.amount, actor, id).db
                  else old(db.Contents(l))
    {
      if invoice !in db.invoices { return Err(NotFound); }
      var row := db.invoices[invoice];
      if row.submittedBy == actor { return Err(Forbidden); }
      if !row.status.SUBMITTED? { return Err(BadRequest); }
      if HasRequest(db.requests, invoice) { return Err(Aborted); }
      db.invoices := db.invoices[invoice := row.(status := VERIFIED, verifiedBy := Some(actor))];
      var request := Request(invoice, row.amount, REQUIRED_APPROVALS, PENDING);
      db.requests := db.requests[id := request];
      r := Ok(request);
    }

    method RejectInvoice(invoice: Id) returns (r: Result<Invoice>)
      modifies db
      ensures r.Ok? <==> invoice in old(db.invoices) && old(db.invoices)[invoice].status.SUBMITTED?
      ensures r.Ok? ==>
                var row := old(db.invoices)[invoice];
                && r.value == Invoice(row.order, row.amount, row.submittedBy, row.verifiedBy, InvoiceStatus.REJECTED)
                && db.invoices == old(db.invoices)[invoice := r.value]
      ensures r.Err? ==> db.invoices == old(db.invoices)
      ensures db.orders == old(db.orders) && db.requests == old(db.requests) && db.votes == old(db.votes)
              && db.payments == old(db.payments)
      ensures forall l ::
              db.Contents(l) == if r.Ok? then Reject(old(db.Contents(l)), invoice).db else old(db.Contents(l))
    {
      if invoice !in db.invoices { return Err(NotFound); }
      if !db.invoices[invoice].status.SUBMITTED? { return Err(BadRequest); }
      db.invoices := db.invoices[invoice := db.invoices[invoice].(status := InvoiceStatus.REJECTED)];
      r := Ok(db.invoices[invoice]);
    }
  }

  /** Where a call of execute is made to fail, from the INSERT of its claim on. */
  datatype Fault = NoFault | ClaimInsert | Expenditure | ExpenditureAudit | Finalisation | FinalAudit

  /** The fault, if any, strikes before the expenditure commits. */
  predicate BeforeSpending(fault: Fault) {
    fault.NoFault? || fault.ClaimInsert? || fault.Expenditure?
  }

  class PaymentsService {
    const db: ContractTables
    const allocations: AllocationsService

    constructor (db: ContractTables, allocations: AllocationsService)
      ensures this.db == db && this.allocations == allocations
    {
      this.db, this.allocations := db, allocations;
    }

    /** SELECT count(*) of the decisions of one kind on a request. */
    method CountVotes(request: Id, decision: Decision) returns (count: nat)
      ensures count == |VotesOf(db.votes, request, decision)|
    {
      hide VotesOf;
      count := 0;
      var rest := db.votes;
      NoVotes(request, decision);
      while rest != map[]
        invariant count + |VotesOf(rest, request, decision)| == |VotesOf(db.votes, request, decision)|
        decreases |rest|
      {
        var v :| v in rest;
        VotePicked(rest, v, request, decision);
        if rest[v].request == request && rest[v].decision == decision {
          count := count + 1;
        }
        rest := rest - {v};
      }
    }

    /**
     * One decision per official and never the invoice's verifier; the vote that completes the number required approves.
     */
    method CastApproval(request: Id, actor: User, decision: Decision, id: Id) returns (r: Result<RequestStatus>)
      requires id !in db.votes
      modifies db
      ensures r.Ok? <==> request in old(db.requests) && old(db.requests)[request].invoice in old(db.invoices)
                         && old(db.invoices)[old(db.requests)[request].invoice].verifiedBy != Some(actor)
                         && old(db.requests)[request].status.PENDING?
                         && forall v :: v in old(db.votes) && old(db.votes)[v].request == request ==>
                              old(db.votes)[v].actor != actor
      ensures r.Ok? && decision.REJECT? ==> r.value == RequestStatus.REJECTED
      ensures r.Ok? && decision.APPROVE? ==>
                var approvals :=
                  set v | v in old(db.votes) && old(db.votes)[v].request == request
                    && old(db.votes)[v].decision == APPROVE;
                r.value == if |approvals| + 1 >= old(db.requests)[request].required then RequestStatus.APPROVED
                           else PENDING
      ensures r.Ok? ==>
                var row := old(db.requests)[request];
                && db.votes == old(db.votes)[id := Vote(request, actor, decision)]
                && db.requests == old(db.requests)[request := Request(row.invoice, row.amount, row.required, r.value)]
      ensures r.Err? ==> db.votes == old(db.votes) && db.requests == old(db.requests)
      ensures db.orders == old(db.orders) && db.invoices == old(db.invoices) && db.payments == old(db.payments)
      ensures forall l ::
              db.Contents(l) == if r.Ok? then Cast(old(db.Contents(l)), request, actor, decision, id).db
                else old(db.Contents(l))
    {
      if request !in db.requests || db.requests[request].invoice !in db.invoices { return Err(NotFound); }
      if db.invoices[db.requests[request].invoice].verifiedBy == Some(actor) { return Err(Forbidden); }
      var locked := db.requests[request];
      if !locked.status.PENDING? { return Err(BadRequest); }
      if HasVoted(db.votes, request, actor) { return Err(Conflict); }
      VotePut(db.votes, id, Vote(request, actor, decision));
      assert VotesOf(db.votes, request, APPROVE)
          == set v | v in db.votes && db.votes[v].request == request && db.votes[v].decision == APPROVE;
      db.votes := db.votes[id := Vote(request, actor, decision)];
      if decision.REJECT? {
        db.requests := db.requests[request := locked.(status := RequestStatus.REJECTED)];
        return Ok(RequestStatus.REJECTED);
      }
      var approveCount := CountVotes(request, APPROVE);
      if approveCount >= locked.required {
        db.requests := db.requests[request := locked.(status := RequestStatus.APPROVED)];
        return Ok(RequestStatus.APPROVED);
      }
      assert db.requests == db.requests[request := locked.(status := PENDING)];
      r := Ok(PENDING);
    }

    /** findUnique on the idempotency key. */
    method FindByKey(key: Key) returns (found: Option<Id>)
      ensures found.Some? <==> exists p :: p in db.payments && db.payments[p].key == key
      ensures found.Some? <==> KeyTaken(db.payments, key)
      ensures found.Some? ==> found.value in db.payments && db.payments[found.value].key == key
    {
      found := None;
      var rest := db.payments;
      while rest != map[]
        invariant forall p :: p in rest ==> p in db.payments && rest[p] == db.payments[p]
        invariant found.None? ==> forall p :: p in db.payments && db.payments[p].key == key ==> p in rest
        invariant found.Some? ==> found.value in db.payments && db.payments[found.value].key == key
        decreases |rest|
      {
        var p :| p in rest;
        if rest[p].key == key { found := Some(p); }
        rest := rest - {p};
      }
    }

    /** The INSERT that claims key and request. */
    method ClaimPayment(job: Job, id: Id) returns (ok: bool)
      modifies db`payments
      ensures ok <==> forall p :: p in old(db.payments) ==>
                        old(db.payments)[p].key != job.key && old(db.payments)[p].request != job.request
      ensures ok <==> !KeyTaken(old(db.payments), job.key) && !RequestTaken(old(db.payments), job.request)
      ensures db.payments == if ok then old(db.payments)[id := Payment(job.request, job.amount, job.key, None, None)]
              else old(db.payments)
      ensures forall l :: db.Contents(l) == Claim(old(db.Contents(l)), job, id).db
    {
      ok := !(KeyTaken(db.payments, job.key) || RequestTaken(db.payments, job.request));
      if ok { db.payments := db.payments[id := Payment(job.request, job.amount, job.key, None, None)]; }
    }

    /** The transaction that closes the payment, the invoice and the request together. */
    method FinalisePayment(job: Job, payment: Id, expenditure: Id) returns (ok: bool)
      modifies db`payments, db`invoices, db`requests
      ensures ok <==> payment in old(db.payments) && job.invoice in old(db.invoices) && job.request in old(db.requests)
      ensures ok ==>
                var paid, invoice, request :=
                  old(db.payments)[payment], old(db.invoices)[job.invoice], old(db.requests)[job.request];
                && db.payments == old(db.payments)[payment :=
                     Payment(paid.request, paid.amount, paid.key, Some(expenditure), Some(job.actor))]
                && db.invoices == old(db.invoices)[job.invoice := invoice.(status := PAID)]
                && db.requests == old(db.requests)[job.request := request.(status := EXECUTED)]
      ensures !ok ==> db.payments == old(db.payments) && db.invoices == old(db.invoices)
                      && db.requests == old(db.requests)
      ensures forall l :: db.Contents(l) == Finalise(old(db.Contents(l)), job, payment, expenditure).db
    {
      ok := payment in db.payments && job.invoice in db.invoices && job.request in db.requests;
      if ok {
        db.payments :=
          db.payments[payment :=
            db.payments[payment].(expenditure := Some(expenditure), executedBy := Some(job.actor))];
        db.invoices := db.invoices[job.invoice := db.invoices[job.invoice].(status := PAID)];
        db.requests := db.requests[job.request := db.requests[job.request].(status := EXECUTED)];
      }
    }

    method DeleteClaim(payment: Id)
      modifies db`payments
      ensures db.payments == old(db.payments) - {payment}
      ensures forall l :: db.Contents(l) == Compensate(old(db.Contents(l)), payment).db
    {
      db.payments := db.payments - {payment};
    }

    /**
      * A whole call. A key seen before answers with its payment and changes nothing. Otherwise success leaves exactly
      * one new payment and one new expenditure of the request's amount, linked, with invoice and request closed;
      * failure leaves the payments as they were unless the claim's deletion fails too, and the expenditure stays only
      * if a fault struck after it was recorded.
      */
    method Execute(
      request: Id, key: Key, actor: User, id: Id, expenditure: Id, fault: Fault, deletes: bool)
      returns (r: Result<Payment>)
      requires allocations.Valid() && id !in db.payments && expenditure !in allocations.expenditures
      modifies db, allocations
      ensures allocations.Valid()
      ensures KeyTaken(old(db.payments), key) ==>
                r.Ok? && StoredUnder(old(db.payments), key, r.value)
                && allocations.Contents() == old(allocations.Contents()) && forall l ::
                   db.Contents(l) == old(db.Contents(l))
      ensures !KeyTaken(old(db.payments), key) ==>
                var leads := Leads(old(db.requests), old(db.invoices), old(db.orders), request);
                var approved := leads && old(db.requests)[request].status.APPROVED?;
                && (!leads ==> r == Err(NotFound))
                && (leads && !approved ==> r == Err(BadRequest))
                && (approved && !fault.ClaimInsert? && RequestTaken(old(db.payments), request) ==> r == Err(Conflict))
                && (r.Ok? <==>
                     && approved && fault.NoFault? && !RequestTaken(old(db.payments), request)
                     && Spendable(old(allocations.commitments),
                                  CommitmentOf(old(db.requests), old(db.invoices), old(db.orders), request),
                                  old(db.requests)[request].amount))
      ensures r.Err? ==> db.payments - {id} == old(db.payments)
      ensures r.Err? ==>
                (id in db.payments <==>
                   !deletes && !fault.ClaimInsert? && !RequestTaken(old(db.payments), request)
                   && Approved(old(db.requests), old(db.invoices), old(db.orders), request))
      ensures r.Err? && BeforeSpending(fault) ==> allocations.Contents() == old(allocations.Contents())
      ensures r.Err? && !fault.FinalAudit? ==> db.invoices == old(db.invoices) && db.requests == old(db.requests)
      ensures r.Err? && !BeforeSpending(fault)
              && Approved(old(db.requests), old(db.invoices), old(db.orders), request) ==>
                var commitment := CommitmentOf(old(db.requests), old(db.invoices), old(db.orders), request);
                if !RequestTaken(old(db.payments), request)
                  && Spendable(old(allocations.commitments), commitment, old(db.requests)[request].amount)
                then L.Bought(old(allocations.Contents()), allocations.Contents(), commitment, expenditure,
                            old(db.requests)[request].amount, request)
                else allocations.Contents() == old(allocations.Contents())
      ensures r.Ok? && !KeyTaken(old(db.payments), key) ==>
                && r.value == Payment(request, old(db.requests)[request].amount, key, Some(expenditure), Some(actor))
                && db.payments == old(db.payments)[id := r.value]
                && db.requests == old(db.requests)[request := old(db.requests)[request].(status := EXECUTED)]
                && db.invoices == old(db.invoices)[old(db.requests)[request].invoice :=
                                    old(db.invoices)[old(db.requests)[request].invoice].(status := PAID)]
                && L.Bought(old(allocations.Contents()), allocations.Contents(),
                          CommitmentOf(old(db.requests), old(db.invoices), old(db.orders), request), expenditure,
                          r.value.amount, request)
    {
      hide L.Exact, L.HasExpenditure, RequestTaken, KeyTaken, L.Bought, Spendable;
      var existing := FindByKey(key);
      if existing.Some? { return Ok(db.payments[existing.value]); }
      if request !in db.requests || db.requests[request].invoice !in db.invoices
        || db.invoices[db.requests[request].invoice].order !in db.orders { return Err(NotFound); }
      var pr := db.requests[request];
      if !pr.status.APPROVED? { return Err(BadRequest); }
      var commitment := db.orders[db.invoices[pr.invoice].order].commitment;
      r := ClaimAndWork(Job(request, key, actor, pr.amount, pr.invoice, commitment), id, expenditure, fault, deletes);
    }

    /** Claim, work, and the catch block that gives the claim back. */
    method ClaimAndWork(job: Job, id: Id, expenditure: Id, fault: Fault, deletes: bool) returns (r: Result<Payment>)
      requires allocations.Valid() && id !in db.payments && expenditure !in allocations.expenditures
      requires !KeyTaken(db.payments, job.key) && job.invoice in db.invoices && job.request in db.requests
      modifies db`payments, db`invoices, db`requests, allocations
      ensures allocations.Valid()
      ensures r.Err? ==> db.payments - {id} == old(db.payments)
      ensures !fault.ClaimInsert? && RequestTaken(old(db.payments), job.request) ==> r == Err(Conflict)
      ensures r.Err? ==>
                (id in db.payments <==> !deletes && !fault.ClaimInsert? && !RequestTaken(old(db.payments), job.request))
      ensures r.Err? && id in db.payments ==>
                db.payments[id]
                == if fault.FinalAudit? && Spendable(old(allocations.commitments), job.commitment, job.amount)
                   then Payment(job.request, job.amount, job.key, Some(expenditure), Some(job.actor))
                   else Payment(job.request, job.amount, job.key, None, None)
      ensures r.Err? && BeforeSpending(fault) ==> allocations.Contents() == old(allocations.Contents())
      ensures r.Err? && !fault.FinalAudit? ==> db.invoices == old(db.invoices) && db.requests == old(db.requests)
      ensures r.Err? && !BeforeSpending(fault) ==>
                if !RequestTaken(old(db.payments), job.request)
                  && Spendable(old(allocations.commitments), job.commitment, job.amount)
                then L.Bought(old(allocations.Contents()), allocations.Contents(), job.commitment, expenditure,
                  job.amount,
                            job.request)
                else allocations.Contents() == old(allocations.Contents())
      ensures r.Ok? <==> fault.NoFault? && !RequestTaken(old(db.payments), job.request)
                         && Spendable(old(allocations.commitments), job.commitment, job.amount)
      ensures r.Ok? ==>
                && r.value == Payment(job.request, job.amount, job.key, Some(expenditure), Some(job.actor))
                && db.payments == old(db.payments)[id := r.value]
                && db.requests == old(db.requests)[job.request := old(db.requests)[job.request].(status := EXECUTED)]
                && db.invoices == old(db.invoices)[job.invoice := old(db.invoices)[job.invoice].(status := PAID)]
                && L.Bought(old(allocations.Contents()), allocations.Contents(), job.commitment, expenditure,
                   job.amount,
                          job.request)
    {
      hide L.Exact, KeyTaken, RequestTaken, L.HasExpenditure, L.Bought, Spendable;
      if fault.ClaimInsert? { return Err(Aborted); }
      var claimed := ClaimPayment(job, id);
      if !claimed { return Err(Conflict); }
      assert db.payments - {id} == old(db.payments);
      r := Work(job, id, expenditure, fault);
      if r.Err? && deletes { DeleteClaim(id); }
    }

    /** The body of the try block. */
    method Work(job: Job, payment: Id, expenditure: Id, fault: Fault) returns (r: Result<Payment>)
      requires allocations.Valid() && expenditure !in allocations.expenditures
      requires payment in db.payments && job.invoice in db.invoices && job.request in db.requests && !fault.ClaimInsert?
      modifies db`payments, db`invoices, db`requests, allocations
      ensures allocations.Valid()
      ensures r.Err? ==> db.payments - {payment} == old(db.payments) - {payment}
      ensures r.Err? ==>
                payment in db.payments
                && db.payments[payment]
                   == if fault.FinalAudit? && Spendable(old(allocations.commitments), job.commitment, job.amount)
                      then old(db.payments)[payment].(expenditure := Some(expenditure), executedBy := Some(job.actor))
                      else old(db.payments)[payment]
      ensures r.Err? && BeforeSpending(fault) ==> allocations.Contents() == old(allocations.Contents())
      ensures r.Err? && !fault.FinalAudit? ==> db.invoices == old(db.invoices) && db.requests == old(db.requests)
      ensures r.Err? && !BeforeSpending(fault) ==>
                if Spendable(old(allocations.commitments), job.commitment, job.amount)
                then L.Bought(old(allocations.Contents()), allocations.Contents(), job.commitment, expenditure,
                  job.amount,
                            job.request)
                else allocations.Contents() == old(allocations.Contents())
      ensures r.Ok? <==> fault.NoFault? && Spendable(old(allocations.commitments), job.commitment, job.amount)
      ensures r.Ok? ==>
                && r.value
                   == old(db.payments)[payment].(expenditure := Some(expenditure), executedBy := Some(job.actor))
                && db.payments == old(db.payments)[payment := r.value]
                && db.requests == old(db.requests)[job.request := old(db.requests)[job.request].(status := EXECUTED)]
                && db.invoices == old(db.invoices)[job.invoice := old(db.invoices)[job.invoice].(status := PAID)]
                && L.Bought(old(allocations.Contents()), allocations.Contents(), job.commitment, expenditure,
                   job.amount,
                          job.request)
    {
      hide L.Exact;
      if fault.Expenditure? { return Err(Aborted); }
      var spent := allocations.CreateExpenditure(expenditure, job.commitment, job.amount, L.PaymentFor(job.request));
      if spent.Err? { return Err(spent.error); }
      if fault.ExpenditureAudit? || fault.Finalisation? { return Err(Aborted); }
      var ok := FinalisePayment(job, payment, expenditure);
      ContentsOf(db);
      if fault.FinalAudit? { return Err(Aborted); }
      r := Ok(db.payments[payment]);
    }
  }

  /** The request, its invoice and the invoice's order are there. */
  ghost predicate Leads(requests: map<Id, Request>, invoices: map<Id, Invoice>, orders: map<Id, Order>, request: Id) {
    request in requests && requests[request].invoice in invoices && invoices[requests[request].invoice].order in orders
  }

  ghost predicate Approved(
    requests: map<Id, Request>, invoices: map<Id, Invoice>, orders: map<Id, Order>, request: Id)
  {
    Leads(requests, invoices, orders, request) && requests[request].status == RequestStatus.APPROVED
  }

  ghost function CommitmentOf(
    requests: map<Id, Request>, invoices: map<Id, Invoice>, orders: map<Id, Order>, request: Id): Id
    requires Leads(requests, invoices, orders, request)
  {
    orders[invoices[requests[request].invoice].order].commitment
  }

  /** The commitment is ACTIVE and covers the amount. */
  ghost predicate Spendable(commitments: map<Id, L.Commitment>, commitment: Id, amount: Positive) {
    commitment in commitments && commitments[commitment].status.ACTIVE? && amount <= commitments[commitment].amount
  }

  predicate StoredUnder(payments: map<Id, Payment>, key: Key, row: Payment) {
    exists p :: p in payments && payments[p] == row && row.key == key
  }

  lemma ContentsOf(db: ContractTables)
    ensures db.Contents(L.EMPTY) == Tables(L.EMPTY, db.orders, db.invoices, db.requests, db.votes, db.payments)
  {}

  lemma NoVotes(request: Id, decision: Decision)
    ensures VotesOf(map[], request, decision) == {}
  {}

  lemma VotePicked(votes: map<Id, Vote>, v: Id, request: Id, decision: Decision)
    requires v in votes
    ensures |VotesOf(votes, request, decision)|
            == |VotesOf(votes - {v}, request, decision)|
               + if votes[v].request == request && votes[v].decision == decision then 1 else 0
  {
    var left := VotesOf(votes - {v}, request, decision);
    assert VotesOf(votes, request, decision)
        == if votes[v].request == request && votes[v].decision == decision then left + {v} else left;
  }

  lemma VotePut(votes: map<Id, Vote>, id: Id, vote: Vote)
    requires id !in votes
    ensures forall d :: VotesOf(votes[id := vote], vote.request, d) ==
              if d == vote.decision then VotesOf(votes, vote.request, d) + {id} else VotesOf(votes, vote.request, d)
    ensures |VotesOf(votes[id := vote], vote.request, vote.decision)|
            == |VotesOf(votes, vote.request, vote.decision)| + 1
  {
    assert VotesOf(votes[id := vote], vote.request, vote.decision)
      == VotesOf(votes, vote.request, vote.decision) + {id};
  }
}
