/** Every statement of every call keeps the invariant. */
module PaymentProofs {
  import opened Common
  import opened Payments
  import opened PaymentInvariant
  import L = Ledger

  // What other calls rely on survives

  /** A later state of the ledger, in which at most `row` was expended. */
  ghost predicate Grows(before: L.Ledger, after: L.Ledger, row: L.Expenditure) {
    && L.Extends(before, after)
    && (forall e | e in after.expenditures && e !in before.expenditures :: after.expenditures[e] == row)
  }

  lemma ReadFrame(before: L.Ledger, after: L.Ledger, call: Call)
    requires ReadOk(before, call) && L.Extends(before, after)
    ensures ReadOk(after, call)
  {}

  lemma BudgetFrame(before: L.Ledger, after: L.Ledger, row: L.Expenditure, call: Call)
    requires BudgetOk(before.expenditures, call) && Grows(before, after, row)
    requires call.Spending? ==> row.purpose != L.PaymentFor(call.job.request)
    ensures BudgetOk(after.expenditures, call)
  {}

  /** Orders, invoices and requests keep their references and amounts; a request once approved stays so. */
  ghost predicate PaperGrows(before: Tables, after: Tables) {
    && (forall o | o in before.orders :: o in after.orders && after.orders[o] == before.orders[o])
    && (forall i | i in before.invoices ::
          && i in after.invoices
          && after.invoices[i].order == before.invoices[i].order
             && after.invoices[i].amount == before.invoices[i].amount
          && (HasRequest(before.requests, i) ==> after.invoices[i].verifiedBy == before.invoices[i].verifiedBy))
    && (forall r | r in before.requests ::
          && r in after.requests
          && after.requests[r].invoice == before.requests[r].invoice
             && after.requests[r].amount == before.requests[r].amount
          && (before.requests[r].status.APPROVED? ==>
             after.requests[r].status.APPROVED? || after.requests[r].status.EXECUTED?)
          && (before.requests[r].status.EXECUTED? ==> after.requests[r].status.EXECUTED?))
  }

  lemma VoterFrame(before: Tables, after: Tables, request: Id, actor: User)
    requires PaperGrows(before, after) && VoterOk(before.invoices, before.requests, request, actor)
    ensures VoterOk(after.invoices, after.requests, request, actor)
  {
    assert HasRequest(before.requests, before.requests[request].invoice);
  }

  lemma DrawsFrame(before: Tables, after: Tables, request: Id, commitment: Id)
    requires PaperGrows(before, after) && DrawsOn(before.orders, before.invoices, before.requests, request, commitment)
    ensures DrawsOn(after.orders, after.invoices, after.requests, request, commitment)
  {}

  lemma JobFrame(before: Tables, after: Tables, job: Job)
    requires PaperGrows(before, after) && JobOk(before.orders, before.invoices, before.requests, job)
    ensures JobOk(after.orders, after.invoices, after.requests, job)
  {
    DrawsFrame(before, after, job.request, job.commitment);
  }

  lemma PaperFrame(before: Tables, after: Tables, call: Call)
    requires PaperGrows(before, after) && PaperOk(before.orders, before.invoices, before.requests, call)
    ensures PaperOk(after.orders, after.invoices, after.requests, call)
  {
    match call
    case Voting(r, actor, _) => VoterFrame(before, after, r, actor);
    case Cleared(job) => JobFrame(before, after, job);
    case Claimed(job, _) => JobFrame(before, after, job);
    case Spending(job, _, _) => JobFrame(before, after, job);
    case Spent(job, _, _) => JobFrame(before, after, job);
    case Recorded(job, _, _) => JobFrame(before, after, job);
    case _ =>
  }

  /** Payment rows other than those in `mine` stay. */
  lemma ClaimFrame(before: map<Id, Payment>, after: map<Id, Payment>, mine: Option<Id>, call: Call)
    requires ClaimOk(before, call) && (mine.Some? ==> Claimant(call) != mine)
    requires forall p | p in before && Some(p) != mine :: p in after && after[p] == before[p]
    ensures ClaimOk(after, call)
  {}

  /** Any other call finds what it relies on after a statement of `call`. */
  ghost predicate Unhurt(before: Tables, after: Tables, call: Call) {
    forall other | CallOk(before, other) && Apart(call, other) :: CallOk(after, other)
  }

  lemma PaperUnhurt(before: Tables, after: Tables, call: Call)
    requires PaperGrows(before, after) && after.ledger == before.ledger && after.payments == before.payments
    ensures Unhurt(before, after, call)
  {
    forall other | CallOk(before, other) ensures CallOk(after, other) {
      PaperFrame(before, after, other);
    }
  }

  lemma LedgerUnhurt(db: Tables, l: L.Ledger, row: L.Expenditure, call: Call)
    requires Grows(db.ledger, l, row)
    requires forall other: Call | CallOk(db, other) && Apart(call, other) && other.Spending? ::
               row.purpose != L.PaymentFor(other.job.request)
    ensures Unhurt(db, db.(ledger := l), call)
  {
    forall other | CallOk(db, other) && Apart(call, other) ensures CallOk(db.(ledger := l), other) {
      ReadFrame(db.ledger, l, other);
      BudgetFrame(db.ledger, l, row, other);
    }
  }

  lemma PaymentsUnhurt(db: Tables, payments: map<Id, Payment>, call: Call)
    requires forall p | p in db.payments && Some(p) != Claimant(call) :: p in payments && payments[p] == db.payments[p]
    ensures Unhurt(db, db.(payments := payments), call)
  {
    forall other | CallOk(db, other) && Apart(call, other) ensures CallOk(db.(payments := payments), other) {
      ClaimFrame(db.payments, payments, Claimant(call), other);
    }
  }

  // The tables under a change of the ledger

  lemma LedgerTables(db: Tables, l: L.Ledger, row: L.Expenditure)
    requires TablesOk(db) && L.Sound(l) && Grows(db.ledger, l, row)
    requires row.purpose.PaymentFor? ==>
               && DrawsOn(db.orders, db.invoices, db.requests, row.purpose.request, row.commitment)
               && db.requests[row.purpose.request].amount == row.amount
    ensures TablesOk(db.(ledger := l))
  {
    OrdersFrame(db, l);
    SpendingFrame(db, l, row);
    ExecutedFrame(db, l);
    PaymentsFrame(db, l);
  }

  lemma OrdersFrame(db: Tables, l: L.Ledger)
    requires OrdersOk(db.orders, db.ledger.commitments) && L.Extends(db.ledger, l)
    ensures OrdersOk(db.orders, l.commitments)
  {}

  lemma SpendingFrame(db: Tables, l: L.Ledger, row: L.Expenditure)
    requires SpendingOk(db.ledger.expenditures, db.orders, db.invoices, db.requests) && Grows(db.ledger, l, row)
    requires row.purpose.PaymentFor? ==>
               && DrawsOn(db.orders, db.invoices, db.requests, row.purpose.request, row.commitment)
               && db.requests[row.purpose.request].amount == row.amount
    ensures SpendingOk(l.expenditures, db.orders, db.invoices, db.requests)
  {}

  lemma ExecutedFrame(db: Tables, l: L.Ledger)
    requires ExecutedOk(db.ledger.expenditures, db.requests) && L.Extends(db.ledger, l)
    ensures ExecutedOk(l.expenditures, db.requests)
  {
    forall r | r in db.requests && db.requests[r].status.EXECUTED? ensures !Unpaid(l.expenditures, r) {
      var e :| e in db.ledger.expenditures && db.ledger.expenditures[e].purpose == L.PaymentFor(r);
      assert e in l.expenditures && l.expenditures[e].purpose == L.PaymentFor(r);
    }
  }

  lemma PaymentsFrame(db: Tables, l: L.Ledger)
    requires PaymentsOk(db.ledger.expenditures, db.requests, db.payments) && L.Extends(db.ledger, l)
    ensures PaymentsOk(l.expenditures, db.requests, db.payments)
  {}

  lemma StepGrows(l: L.Ledger, t: L.Transaction, row: L.Expenditure)
    requires L.Issuable(l, t)
    requires t.RecordExpenditure? ==> row == L.Expenditure(t.commitment, t.seen.allocation, t.amount, t.purpose)
    ensures Grows(l, L.Step(l, t), row)
  {
    L.StepExtends(l, t);
  }

  const NOTHING := L.Expenditure(0, 0, 1, L.Direct)

  /** A ledger transaction on behalf of a call that pays no request. */
  lemma LedgerKept(db: Tables, t: L.Transaction, call: Call)
    requires TablesOk(db) && L.Issuable(db.ledger, t) && (t.RecordExpenditure? ==> t.purpose.Direct?)
    ensures var db' := db.(ledger := L.Step(db.ledger, t)); TablesOk(db') && Unhurt(db, db', call)
  {
    var row := if t.RecordExpenditure? then L.Expenditure(t.commitment, t.seen.allocation, t.amount, t.purpose)
      else NOTHING;
    StepGrows(db.ledger, t, row);
    L.StepSound(db.ledger, t);
    LedgerTables(db, L.Step(db.ledger, t), row);
    LedgerUnhurt(db, L.Step(db.ledger, t), row, call);
  }

  // What one statement must establish

  ghost predicate Kept(db: Tables, call: Call, o: Outcome) {
    && TablesOk(o.db)
    && CallOk(o.db, o.call)
    && Unhurt(db, o.db, call)
    && (Claimant(o.call).Some? && Claimant(o.call) != Claimant(call) ==> Claimant(o.call).value !in db.payments)
  }

  lemma NumberedIssuable(l: L.Ledger, t: L.Transaction, id: Id)
    requires PendingOk(l, t) && id !in l.expenditures
    ensures L.Issuable(l, Numbered(t, id))
    ensures Numbered(t, id).RecordExpenditure? ==> Numbered(t, id).purpose.Direct?
  {}

  lemma SettleIsStep(db: Tables, t: L.Transaction, id: Id)
    ensures var o := Settle(db, t, id);
            && o.db == db.(ledger := L.Step(db.ledger, Numbered(t, id)))
            && (o.call.Done? || o.call.Threw?)
  {}

  lemma SettleKept(db: Tables, t: L.Transaction, id: Id)
    requires TablesOk(db) && PendingOk(db.ledger, t) && id !in db.ledger.expenditures
    ensures Kept(db, Pending(t), Settle(db, t, id))
  {
    hide TablesOk, Unhurt;
    NumberedIssuable(db.ledger, t, id);
    SettleIsStep(db, t, id);
    LedgerKept(db, Numbered(t, id), Pending(t));
  }

  // Invoices, requests and votes

  lemma VotesFrame(before: Tables, after: Tables)
    requires PaperGrows(before, after) && VotesOk(before.invoices, before.requests, before.votes)
             && after.votes == before.votes
    ensures VotesOk(after.invoices, after.requests, after.votes)
  {
    forall v | v in after.votes
      ensures VoterOk(after.invoices, after.requests, after.votes[v].request, after.votes[v].actor) {
      VoterFrame(before, after, after.votes[v].request, after.votes[v].actor);
    }
  }

  lemma SpendingPaperFrame(before: Tables, after: Tables)
    requires PaperGrows(before, after) && after.ledger == before.ledger
    requires SpendingOk(before.ledger.expenditures, before.orders, before.invoices, before.requests)
    ensures SpendingOk(after.ledger.expenditures, after.orders, after.invoices, after.requests)
  {}

  /** Paperwork of which only the orders and invoices changed. */
  lemma PaperKept(before: Tables, after: Tables, call: Call)
    requires TablesOk(before) && PaperGrows(before, after)
    requires after == before.(orders := after.orders, invoices := after.invoices)
    requires OrdersOk(after.orders, after.ledger.commitments)
             && InvoicesOk(after.orders, after.invoices, after.requests)
    ensures TablesOk(after) && Unhurt(before, after, call)
  {
    VotesFrame(before, after);
    SpendingPaperFrame(before, after);
    PaperUnhurt(before, after, call);
  }

  lemma SubmitPaper(db: Tables, order: Id, amount: Positive, actor: User, id: Id)
    requires InvoicesOk(db.orders, db.invoices, db.requests) && order in db.orders && id !in db.invoices
    ensures var after := Submit(db, order, amount, actor, id).db;
            PaperGrows(db, after) && InvoicesOk(after.orders, after.invoices, after.requests)
  {}

  lemma SubmitKept(db: Tables, order: Id, amount: Positive, actor: User, id: Id)
    requires TablesOk(db) && order in db.orders && id !in db.invoices
    ensures Kept(db, Submitting(order, amount, actor), Submit(db, order, amount, actor, id))
  {
    hide PaperGrows, InvoicesOk, VotesOk, TalliesOk, Unhurt, L.Sound, SpendingOk, ExecutedOk, PaymentsOk,
      PaymentsUnique;
    SubmitPaper(db, order, amount, actor, id);
    PaperKept(db, Submit(db, order, amount, actor, id).db, Submitting(order, amount, actor));
  }

  lemma RejectPaper(db: Tables, invoice: Id)
    requires InvoicesOk(db.orders, db.invoices, db.requests) && invoice in db.invoices
    ensures var after := Reject(db, invoice).db;
            PaperGrows(db, after) && InvoicesOk(after.orders, after.invoices, after.requests)
  {}

  lemma RejectKept(db: Tables, invoice: Id)
    requires TablesOk(db) && invoice in db.invoices
    ensures Kept(db, Rejecting(invoice), Reject(db, invoice))
  {
    hide PaperGrows, InvoicesOk, VotesOk, TalliesOk, Unhurt, L.Sound, SpendingOk, ExecutedOk, PaymentsOk,
      PaymentsUnique;
    RejectPaper(db, invoice);
    PaperKept(db, Reject(db, invoice).db, Rejecting(invoice));
  }

  /** Requests and votes change together or not at all; the ledger and the payments stay. */
  lemma RequestsKept(before: Tables, after: Tables, call: Call)
    requires TablesOk(before) && PaperGrows(before, after)
    requires after == before.(invoices := after.invoices, requests := after.requests, votes := after.votes)
    requires InvoicesOk(after.orders, after.invoices, after.requests)
    requires VotesOk(after.invoices, after.requests, after.votes) && TalliesOk(after.requests, after.votes)
    requires forall r | r in after.requests && after.requests[r].status.EXECUTED? ::
               r in before.requests && before.requests[r].status.EXECUTED?
    ensures TablesOk(after) && Unhurt(before, after, call)
  {
    SpendingPaperFrame(before, after);
    PaperUnhurt(before, after, call);
    PaymentsPaperFrame(before, after);
  }

  lemma PaymentsPaperFrame(before: Tables, after: Tables)
    requires PaperGrows(before, after) && after.ledger == before.ledger && after.payments == before.payments
    requires PaymentsOk(before.ledger.expenditures, before.requests, before.payments)
    ensures PaymentsOk(after.ledger.expenditures, after.requests, after.payments)
  {}

  lemma VerifyPaper(db: Tables, invoice: Id, amount: Positive, actor: User, id: Id)
    requires InvoicesOk(db.orders, db.invoices, db.requests) && invoice in db.invoices
             && db.invoices[invoice].amount == amount
    requires id !in db.requests && !HasRequest(db.requests, invoice)
    ensures var db' := Verify(db, invoice, amount, actor, id).db;
            PaperGrows(db, db') && InvoicesOk(db'.orders, db'.invoices, db'.requests)
  {
    hide InvoicesOk, PaperGrows, Verify;
    VerifyGrows(db, invoice, amount, actor, id);
    VerifyInvoices(db, invoice, amount, actor, id);
  }

  lemma VerifyGrows(db: Tables, invoice: Id, amount: Positive, actor: User, id: Id)
    requires id !in db.requests && invoice in db.invoices
    requires InvoicesOk(db.orders, db.invoices, db.requests) && !HasRequest(db.requests, invoice)
    ensures PaperGrows(db, Verify(db, invoice, amount, actor, id).db)
  {
    assert forall r | r in db.requests :: db.requests[r].invoice != invoice;
  }

  lemma VerifyInvoices(db: Tables, invoice: Id, amount: Positive, actor: User, id: Id)
    requires InvoicesOk(db.orders, db.invoices, db.requests) && invoice in db.invoices
             && db.invoices[invoice].amount == amount
    requires id !in db.requests && !HasRequest(db.requests, invoice)
    ensures var after := Verify(db, invoice, amount, actor, id).db;
            InvoicesOk(after.orders, after.invoices, after.requests)
  {
    assert forall r | r in db.requests :: db.requests[r].invoice != invoice;
  }

  lemma NewRequestTallies(
    requests: map<Id, Request>, votes: map<Id, Vote>, invoices: map<Id, Invoice>, id: Id, row: Request)
    requires VotesOk(invoices, requests, votes) && TalliesOk(requests, votes)
    requires id !in requests && row.status.PENDING? && 1 <= row.required
    ensures TalliesOk(requests[id := row], votes)
  {
    assert VotesOf(votes, id, APPROVE) == {} == VotesOf(votes, id, REJECT) by {
      forall v | v in votes ensures votes[v].request != id {
        assert VoterOk(invoices, requests, votes[v].request, votes[v].actor);
      }
    }
  }

  lemma VerifyKept(db: Tables, invoice: Id, amount: Positive, actor: User, id: Id)
    requires TablesOk(db) && invoice in db.invoices && db.invoices[invoice].amount == amount && id !in db.requests
    ensures Kept(db, Verifying(invoice, amount, actor), Verify(db, invoice, amount, actor, id))
  {
    hide PaperGrows, InvoicesOk, VotesOk, TalliesOk, Unhurt, L.Sound, SpendingOk, ExecutedOk, PaymentsOk,
      PaymentsUnique;
    if HasRequest(db.requests, invoice) {
      Unchanged(db, Verifying(invoice, amount, actor), Threw(Aborted));
    } else {
      var db' := Verify(db, invoice, amount, actor, id).db;
      VerifyPaper(db, invoice, amount, actor, id);
      VotesFrame(db, db');
      NewRequestTallies(db.requests, db.votes, db.invoices, id, Request(invoice, amount, REQUIRED_APPROVALS, PENDING));
      RequestsKept(db, db', Verifying(invoice, amount, actor));
    }
  }

  /** A statement that only moves the program counter. */
  lemma Unchanged(db: Tables, call: Call, next: Call)
    requires TablesOk(db) && CallOk(db, next) && (Claimant(next).Some? ==> Claimant(next) == Claimant(call))
    ensures Kept(db, call, Outcome(db, next))
  {
    hide TablesOk;
  }

  /** One vote more for one request: its own count grows by one, every other stays. */
  lemma VotesCounted(votes: map<Id, Vote>, id: Id, vote: Vote, request: Id, decision: Decision)
    requires id !in votes
    ensures VotesOf(votes[id := vote], request, decision)
            == VotesOf(votes, request, decision) + if vote.request == request
              && vote.decision == decision then {id} else {}
  {}

  lemma CastTallies(db: Tables, request: Id, actor: User, decision: Decision, id: Id)
    requires TalliesOk(db.requests, db.votes) && request in db.requests && db.requests[request].status.PENDING?
    requires id !in db.votes && !HasVoted(db.votes, request, actor)
    ensures var db' := Cast(db, request, actor, decision, id).db; TalliesOk(db'.requests, db'.votes)
  {
    var db' := Cast(db, request, actor, decision, id).db;
    var vote := Vote(request, actor, decision);
    forall r | r in db'.requests
      ensures Tallied(db'.requests[r], VotesOf(db'.votes, r, APPROVE), VotesOf(db'.votes, r, REJECT))
    {
      VotesCounted(db.votes, id, vote, r, APPROVE);
      VotesCounted(db.votes, id, vote, r, REJECT);
      assert Tallied(db.requests[r], VotesOf(db.votes, r, APPROVE), VotesOf(db.votes, r, REJECT));
    }
  }

  lemma CastPaper(db: Tables, request: Id, actor: User, decision: Decision, id: Id)
    requires InvoicesOk(db.orders, db.invoices, db.requests) && VotesOk(db.invoices, db.requests, db.votes)
    requires VoterOk(db.invoices, db.requests, request, actor) && id !in db.votes
    requires db.requests[request].status.PENDING? && !HasVoted(db.votes, request, actor)
    ensures var after := Cast(db, request, actor, decision, id).db;
            && PaperGrows(db, after)
            && InvoicesOk(after.orders, after.invoices, after.requests)
            && VotesOk(after.invoices, after.requests, after.votes)
  {
    hide InvoicesOk, PaperGrows, Cast, VotesOk;
    CastGrows(db, request, actor, decision, id);
    CastInvoices(db, request, actor, decision, id);
    CastVotes(db, request, actor, decision, id);
  }

  lemma CastGrows(db: Tables, request: Id, actor: User, decision: Decision, id: Id)
    requires request in db.requests && db.requests[request].status.PENDING?
    ensures PaperGrows(db, Cast(db, request, actor, decision, id).db)
  {
    hide VotesOf;
  }

  lemma CastInvoices(db: Tables, request: Id, actor: User, decision: Decision, id: Id)
    requires InvoicesOk(db.orders, db.invoices, db.requests)
    ensures var after := Cast(db, request, actor, decision, id).db;
            InvoicesOk(after.orders, after.invoices, after.requests)
  {
    hide VotesOf;
  }

  lemma CastVotes(db: Tables, request: Id, actor: User, decision: Decision, id: Id)
    requires VotesOk(db.invoices, db.requests, db.votes) && VoterOk(db.invoices, db.requests, request, actor)
             && id !in db.votes
    requires db.requests[request].status.PENDING? && !HasVoted(db.votes, request, actor)
    ensures var after := Cast(db, request, actor, decision, id).db; VotesOk(after.invoices, after.requests, after.votes)
  {
    hide VotesOf;
  }

  lemma CastKept(db: Tables, request: Id, actor: User, decision: Decision, id: Id)
    requires TablesOk(db) && VoterOk(db.invoices, db.requests, request, actor) && id !in db.votes
    ensures Kept(db, Voting(request, actor, decision), Cast(db, request, actor, decision, id))
  {
    hide PaperGrows, InvoicesOk, VotesOk, TalliesOk, Unhurt, L.Sound, SpendingOk, ExecutedOk, PaymentsOk,
      PaymentsUnique;
    if db.requests[request].status.PENDING? && !HasVoted(db.votes, request, actor) {
      var after := Cast(db, request, actor, decision, id).db;
      CastPaper(db, request, actor, decision, id);
      CastTallies(db, request, actor, decision, id);
      RequestsKept(db, after, Voting(request, actor, decision));
    } else {
      Unchanged(db, Voting(request, actor, decision), Cast(db, request, actor, decision, id).call);
    }
  }

  // execute

  lemma ReplayKept(db: Tables, call: Call, key: Key)
    requires TablesOk(db) && KeyTaken(db.payments, key)
    ensures Kept(db, call, Outcome(db, Replay(db.payments, key)))
  {
    hide TablesOk, Unhurt;
    Unchanged(db, call, Replay(db.payments, key));
  }

  lemma LookUpKept(db: Tables, request: Id, key: Key, actor: User)
    requires TablesOk(db)
    ensures Kept(db, Arrived(request, key, actor), Outcome(db, LookUp(db, request, key, actor)))
    ensures Kept(db, Lost(key), Outcome(db, LookUpLost(db, key)))
  {
    hide TablesOk, Unhurt;
    if KeyTaken(db.payments, key) {
      ReplayKept(db, Arrived(request, key, actor), key);
      ReplayKept(db, Lost(key), key);
    } else {
      Unchanged(db, Arrived(request, key, actor), Unseen(request, key, actor));
      Unchanged(db, Lost(key), Threw(Conflict));
    }
  }

  lemma ReadRequestKept(db: Tables, request: Id, key: Key, actor: User)
    requires TablesOk(db)
    ensures Kept(db, Unseen(request, key, actor), Outcome(db, ReadRequest(db, request, key, actor)))
  {
    hide TablesOk, Unhurt;
    Unchanged(db, Unseen(request, key, actor), ReadRequest(db, request, key, actor));
  }

  lemma ClaimUnique(payments: map<Id, Payment>, id: Id, row: Payment)
    requires PaymentsUnique(payments) && !KeyTaken(payments, row.key) && !RequestTaken(payments, row.request)
    ensures PaymentsUnique(payments[id := row])
  {
    assert forall p | p in payments :: payments[p].key != row.key && payments[p].request != row.request;
  }

  lemma ClaimKept(db: Tables, job: Job, id: Id)
    requires TablesOk(db) && CallOk(db, Cleared(job)) && id !in db.payments
    ensures Kept(db, Cleared(job), Claim(db, job, id))
  {
    var o := Claim(db, job, id);
    hide L.Sound, InvoicesOk, VotesOk, TalliesOk, SpendingOk, ExecutedOk, Unhurt, PaymentsUnique;
    if o.call.Claimed? {
      ClaimUnique(db.payments, id, o.db.payments[id]);
      PaymentsUnhurt(db, o.db.payments, Cleared(job));
    } else {
      Unchanged(db, Cleared(job), o.call);
    }
  }

  /** While the commitment is ACTIVE its requests are unpaid: a commitment is never ACTIVE again once expended. */
  lemma LiveIsUnpaid(db: Tables, request: Id, commitment: Id)
    requires L.References(db.ledger) && SpendingOk(db.ledger.expenditures, db.orders, db.invoices, db.requests)
    requires DrawsOn(db.orders, db.invoices, db.requests, request, commitment)
    requires commitment in db.ledger.commitments && db.ledger.commitments[commitment].status.ACTIVE?
    ensures Unpaid(db.ledger.expenditures, request)
  {}

  lemma ReadCommitmentOk(db: Tables, job: Job, payment: Id)
    requires TablesOk(db) && CallOk(db, Claimed(job, payment))
    ensures CallOk(db, ReadCommitment(db, job, payment))
  {
    hide InvoicesOk, VotesOk, TalliesOk, ExecutedOk, PaymentsOk, PaymentsUnique, SpendingOk, L.References, L.Balanced;
    if ReadCommitment(db, job, payment).Spending? {
      LiveIsUnpaid(db, job.request, job.commitment);
    }
  }

  lemma ReadCommitmentKept(db: Tables, job: Job, payment: Id)
    requires TablesOk(db) && CallOk(db, Claimed(job, payment))
    ensures Kept(db, Claimed(job, payment), Outcome(db, ReadCommitment(db, job, payment)))
  {
    hide TablesOk, Unhurt, CallOk;
    ReadCommitmentOk(db, job, payment);
    Unchanged(db, Claimed(job, payment), ReadCommitment(db, job, payment));
  }

  lemma SpendIsStep(db: Tables, job: Job, payment: Id, seen: L.Commitment, id: Id)
    ensures var o := Spend(db, job, payment, seen, id);
            && o.db == db.(ledger := L.Step(db.ledger, Purchase(job, seen, id)))
            && (o.call == Failing(payment)
                || (o.call == Spent(job, payment, id) && PaidBy(o.db.ledger.expenditures, job.request, id)))
  {}

  lemma SpendTables(db: Tables, job: Job, seen: L.Commitment, id: Id)
    requires TablesOk(db) && JobOk(db.orders, db.invoices, db.requests, job)
    requires L.Issuable(db.ledger, Purchase(job, seen, id))
    ensures TablesOk(db.(ledger := L.Step(db.ledger, Purchase(job, seen, id))))
  {
    var t := Purchase(job, seen, id);
    var row := L.Expenditure(job.commitment, seen.allocation, job.amount, L.PaymentFor(job.request));
    StepGrows(db.ledger, t, row);
    L.StepSound(db.ledger, t);
    LedgerTables(db, L.Step(db.ledger, t), row);
  }

  /** The claim keeps every other call away from the request that is being paid. */
  lemma SpendUnhurt(db: Tables, job: Job, payment: Id, seen: L.Commitment, id: Id)
    requires PaymentsUnique(db.payments) && Holds(db.payments, job, payment)
             && L.Issuable(db.ledger, Purchase(job, seen, id))
    ensures Unhurt(db, db.(ledger := L.Step(db.ledger, Purchase(job, seen, id))), Spending(job, payment, seen))
  {
    var row := L.Expenditure(job.commitment, seen.allocation, job.amount, L.PaymentFor(job.request));
    StepGrows(db.ledger, Purchase(job, seen, id), row);
    LedgerUnhurt(db, L.Step(db.ledger, Purchase(job, seen, id)), row, Spending(job, payment, seen));
  }

  lemma SpendKept(db: Tables, job: Job, payment: Id, seen: L.Commitment, id: Id)
    requires TablesOk(db) && CallOk(db, Spending(job, payment, seen)) && id !in db.ledger.expenditures
    ensures Kept(db, Spending(job, payment, seen), Spend(db, job, payment, seen, id))
  {
    hide L.Sound, OrdersOk, InvoicesOk, VotesOk, TalliesOk, SpendingOk, ExecutedOk, PaymentsOk, PaymentsUnique, Unhurt,
      DrawsOn;
    SpendTables(db, job, seen, id);
    SpendUnhurt(db, job, payment, seen, id);
    SpendIsStep(db, job, payment, seen, id);
  }

  lemma FinalisePaper(db: Tables, job: Job, payment: Id, expenditure: Id)
    requires InvoicesOk(db.orders, db.invoices, db.requests) && JobOk(db.orders, db.invoices, db.requests, job)
    ensures var after := Finalise(db, job, payment, expenditure).db;
            PaperGrows(db, after) && InvoicesOk(after.orders, after.invoices, after.requests)
  {
    hide InvoicesOk, PaperGrows, Finalise;
    FinaliseGrows(db, job, payment, expenditure);
    FinaliseInvoices(db, job, payment, expenditure);
  }

  lemma FinaliseGrows(db: Tables, job: Job, payment: Id, expenditure: Id)
    requires JobOk(db.orders, db.invoices, db.requests, job)
    ensures PaperGrows(db, Finalise(db, job, payment, expenditure).db)
  {}

  lemma FinaliseInvoices(db: Tables, job: Job, payment: Id, expenditure: Id)
    requires InvoicesOk(db.orders, db.invoices, db.requests) && JobOk(db.orders, db.invoices, db.requests, job)
    ensures var after := Finalise(db, job, payment, expenditure).db;
            InvoicesOk(after.orders, after.invoices, after.requests)
  {
    hide DrawsOn;
  }

  lemma FinaliseTallies(db: Tables, job: Job, payment: Id, expenditure: Id)
    requires TalliesOk(db.requests, db.votes) && JobOk(db.orders, db.invoices, db.requests, job)
    ensures var after := Finalise(db, job, payment, expenditure).db; TalliesOk(after.requests, after.votes)
  {}

  lemma FinalisePayments(db: Tables, job: Job, payment: Id, expenditure: Id)
    requires PaymentsOk(db.ledger.expenditures, db.requests, db.payments) && PaymentsUnique(db.payments)
    requires ExecutedOk(db.ledger.expenditures, db.requests)
    requires JobOk(db.orders, db.invoices, db.requests, job) && Holds(db.payments, job, payment)
    requires PaidBy(db.ledger.expenditures, job.request, expenditure)
    ensures var after := Finalise(db, job, payment, expenditure).db;
            && PaymentsOk(after.ledger.expenditures, after.requests, after.payments) && PaymentsUnique(after.payments)
            && ExecutedOk(after.ledger.expenditures, after.requests)
  {}

  lemma FinaliseUnhurt(db: Tables, job: Job, payment: Id, expenditure: Id)
    requires PaperGrows(db, Finalise(db, job, payment, expenditure).db)
    ensures Unhurt(db, Finalise(db, job, payment, expenditure).db, Recorded(job, payment, expenditure))
  {
    var after := Finalise(db, job, payment, expenditure).db;
    var call := Recorded(job, payment, expenditure);
    forall other | CallOk(db, other) && Apart(call, other) ensures CallOk(after, other) {
      PaperFrame(db, after, other);
      ClaimFrame(db.payments, after.payments, Claimant(call), other);
    }
  }

  lemma FinaliseKept(db: Tables, job: Job, payment: Id, expenditure: Id)
    requires TablesOk(db) && CallOk(db, Recorded(job, payment, expenditure))
    ensures Kept(db, Recorded(job, payment, expenditure), Finalise(db, job, payment, expenditure))
  {
    hide L.Sound, InvoicesOk, VotesOk, TalliesOk, SpendingOk, ExecutedOk, Unhurt, PaymentsUnique, DrawsOn, PaperGrows,
      PaymentsOk;
    FinalisePaper(db, job, payment, expenditure);
    FinaliseTallies(db, job, payment, expenditure);
    FinalisePayments(db, job, payment, expenditure);
    var after := Finalise(db, job, payment, expenditure).db;
    VotesFrame(db, after);
    SpendingPaperFrame(db, after);
    FinaliseUnhurt(db, job, payment, expenditure);
  }

  lemma AnswerKept(db: Tables, job: Job, payment: Id)
    requires TablesOk(db) && CallOk(db, Finalised(job, payment))
    ensures Kept(db, Finalised(job, payment), Outcome(db, Answer(db, payment)))
  {
    hide TablesOk, Unhurt;
    Unchanged(db, Finalised(job, payment), Answer(db, payment));
  }

  lemma CompensateKept(db: Tables, payment: Id)
    requires TablesOk(db)
    ensures Kept(db, Failing(payment), Compensate(db, payment))
  {
    hide L.Sound, InvoicesOk, VotesOk, TalliesOk, SpendingOk, ExecutedOk, Unhurt;
    PaymentsUnhurt(db, db.payments - {payment}, Failing(payment));
  }

  // Runs

  lemma EnterOk(db: Tables, e: Entry)
    requires TablesOk(db)
    ensures CallOk(db, Enter(db, e)) && Claimant(Enter(db, e)).None?
  {
    hide TablesOk;
  }

  lemma FailOk(db: Tables, call: Call)
    requires CallOk(db, call)
    ensures CallOk(db, Fail(call)) && (Claimant(Fail(call)).Some? ==> Claimant(Fail(call)) == Claimant(call))
  {}

  lemma ProceedKept(db: Tables, call: Call, id: Id)
    requires TablesOk(db) && CallOk(db, call) && Unused(db, id)
    ensures Kept(db, call, Proceed(db, call, id))
  {
    hide TablesOk, Kept, JobOk, VoterOk, PendingOk;
    match call
    case Pending(t) => SettleKept(db, t, id);
    case Submitting(order, amount, actor) => SubmitKept(db, order, amount, actor, id);
    case Verifying(invoice, amount, actor) => VerifyKept(db, invoice, amount, actor, id);
    case Rejecting(invoice) => RejectKept(db, invoice);
    case Voting(request, actor, decision) => CastKept(db, request, actor, decision, id);
    case Arrived(request, key, actor) => LookUpKept(db, request, key, actor);
    case Unseen(request, key, actor) => ReadRequestKept(db, request, key, actor);
    case Cleared(job) => ClaimKept(db, job, id);
    case Lost(key) => LookUpKept(db, 0, key, 0);
    case Claimed(job, payment) => ReadCommitmentKept(db, job, payment);
    case Spending(job, payment, seen) => SpendKept(db, job, payment, seen, id);
    case Spent(job, payment, expenditure) => Unchanged(db, call, Recorded(job, payment, expenditure));
    case Recorded(job, payment, expenditure) => FinaliseKept(db, job, payment, expenditure);
    case Finalised(job, payment) => AnswerKept(db, job, payment);
    case Failing(payment) => CompensateKept(db, payment);
    case Returned(_, _, _) => Unchanged(db, call, call);
    case Threw(_) => Unchanged(db, call, call);
    case Done => Unchanged(db, call, call);
  }

  /** Replacing one call by what its own statement made of it. */
  lemma AdvanceKept(s: State, k: Id, o: Outcome)
    requires Inv(s) && k in s.calls && Kept(s.db, s.calls[k], o)
    ensures Inv(State(o.db, s.calls[k := o.call]))
  {
    hide TablesOk, CallOk;
    var calls := s.calls[k := o.call];
    forall j | j in calls ensures CallOk(o.db, calls[j]) {
      assert j != k ==> CallOk(s.db, s.calls[j]) && Apart(s.calls[k], s.calls[j]);
    }
    forall j | j in s.calls && j != k ensures Apart(o.call, s.calls[j]) && Apart(s.calls[j], o.call) {
      assert Apart(s.calls[k], s.calls[j]) && Apart(s.calls[j], s.calls[k]);
      OwnersPresent(s.db, s.calls[j]);
    }
  }

  lemma OwnersPresent(db: Tables, call: Call)
    requires CallOk(db, call)
    ensures Claimant(call).Some? ==> Claimant(call).value in db.payments
  {}

  lemma NewCallKept(s: State, k: Id, call: Call)
    requires Inv(s) && CallOk(s.db, call) && Claimant(call).None?
    ensures Inv(s.(calls := s.calls[k := call]))
  {
    hide TablesOk, CallOk;
  }

  /** A change of the tables that hurts no call. */
  lemma TablesKept(s: State, db: Tables)
    requires Inv(s) && TablesOk(db) && Unhurt(s.db, db, Done)
    ensures Inv(s.(db := db))
  {
    hide TablesOk, CallOk;
    forall k | k in s.calls ensures CallOk(db, s.calls[k]) {
      assert CallOk(s.db, s.calls[k]) && Apart(Done, s.calls[k]);
    }
  }

  lemma RaiseOrderKept(db: Tables, id: Id, order: Order)
    requires TablesOk(db) && id !in db.orders && order.commitment in db.ledger.commitments
    ensures var db' := db.(orders := db.orders[id := order]); TablesOk(db') && Unhurt(db, db', Done)
  {
    hide VotesOk, TalliesOk, Unhurt, L.Sound, SpendingOk, ExecutedOk, PaymentsOk, PaymentsUnique;
    PaperKept(db, db.(orders := db.orders[id := order]), Done);
  }

  /** Whatever statement of whatever call comes next, fails or is cut off by a crash. */
  lemma NextKept(s: State, m: Move)
    requires Inv(s) && May(s, m)
    ensures Inv(Next(s, m))
  {
    hide TablesOk, CallOk, Unhurt, Kept;
    match m
    case Book(t) =>
      LedgerKept(s.db, t, Done);
      TablesKept(s, s.db.(ledger := L.Step(s.db.ledger, t)));
    case RaiseOrder(id, order) =>
      RaiseOrderKept(s.db, id, order);
      TablesKept(s, s.db.(orders := s.db.orders[id := order]));
    case Begin(k, e) =>
      EnterOk(s.db, e);
      NewCallKept(s, k, Enter(s.db, e));
    case Advance(k, id, ok) =>
      if ok {
        ProceedKept(s.db, s.calls[k], id);
        AdvanceKept(s, k, Proceed(s.db, s.calls[k], id));
      } else {
        FailKept(s, k);
      }
    case Crash(k) =>
  }

  lemma FailKept(s: State, k: Id)
    requires Inv(s) && k in s.calls
    ensures Inv(s.(calls := s.calls[k := Fail(s.calls[k])]))
  {
    hide TablesOk, Unhurt, CallOk;
    FailOk(s.db, s.calls[k]);
    Unchanged(s.db, s.calls[k], Fail(s.calls[k]));
    AdvanceKept(s, k, Outcome(s.db, Fail(s.calls[k])));
  }
}
