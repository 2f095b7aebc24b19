/**
 * The ceiling of a purchase order on its live invoices: which statements of which calls break it, exactly, and what
 * holds while none does. (What is paid against an order needs no such condition: see OrderPayments.)
 */
module InvoiceCeiling {
  import opened Common
  import opened Runs
  import opened Sums
  import opened Payments
  import opened PaymentInvariant
  import opened PaymentProofs
  import opened PaymentTheorems
  import L = Ledger

  ghost function Invoiced(db: Tables, order: Id): int {
    Sum(db.invoices, LiveAgainst(order))
  }

  /** No order is over-invoiced, and an invoice under payment is not a rejected one. */
  ghost predicate CeilingOk(db: Tables) {
    && (forall o | o in db.orders :: Invoiced(db, o) <= db.orders[o].amount)
    && (forall r | r in db.requests && db.requests[r].invoice in db.invoices ::
          !db.invoices[db.requests[r].invoice].status.REJECTED?)
  }

  /**
   * What an InvoicesService call must still find when it writes: a submission its ceiling, a rejection an invoice
   * without a payment request, a verification an invoice that was not rejected or whose amount fits again.
   */
  ghost predicate GuardHolds(db: Tables, call: Call) {
    match call
    case Submitting(order, amount, _) => order in db.orders && Invoiced(db, order) + amount <= db.orders[order].amount
    case Verifying(i, amount, _) =>
      i in db.invoices && !HasRequest(db.requests, i) && db.invoices[i].status.REJECTED? ==>
        db.invoices[i].order in db.orders
        && Invoiced(db, db.invoices[i].order) + amount <= db.orders[db.invoices[i].order].amount
    case Rejecting(i) => !HasRequest(db.requests, i)
    case _ => true
  }

  /** Invoice calls are not overtaken in a way that matters; all others may be. */
  ghost predicate MayInTime(s: State, m: Move) {
    May(s, m) && (m.Advance? && m.ok ==> GuardHolds(s.db, s.calls[m.k]))
  }

  /** A submission keeps the ceiling exactly when its guard still holds as it inserts the invoice. */
  lemma SubmitCeiling(db: Tables, order: Id, amount: Positive, actor: User, id: Id)
    requires CeilingOk(db) && order in db.orders && id !in db.invoices
    requires InvoicesOk(db.orders, db.invoices, db.requests)
    ensures CeilingOk(Submit(db, order, amount, actor, id).db) <==> GuardHolds(db, Submitting(order, amount, actor))
  {
    var after := Submit(db, order, amount, actor, id).db;
    forall o ensures Invoiced(after, o) == Invoiced(db, o) + if o == order then amount else 0 {
      SumPut(db.invoices, id, after.invoices[id], LiveAgainst(o));
    }
    assert Invoiced(after, order) <= after.orders[order].amount <==> GuardHolds(db, Submitting(order, amount, actor));
  }

  /** Moving an invoice from one status to another changes the sums by its own weight. */
  lemma StatusWeighs(invoices: map<Id, Invoice>, i: Id, row: Invoice, order: Id)
    requires i in invoices && row.order == invoices[i].order && row.amount == invoices[i].amount
    ensures Sum(invoices[i := row], LiveAgainst(order))
            == Sum(invoices, LiveAgainst(order)) - LiveAgainst(order)(invoices[i]) + LiveAgainst(order)(row)
  {
    SumPut(invoices, i, row, LiveAgainst(order));
  }

  /** A rejection keeps the ceiling exactly when the invoice has no payment request yet. */
  lemma RejectCeiling(db: Tables, i: Id)
    requires CeilingOk(db) && InvoicesOk(db.orders, db.invoices, db.requests) && i in db.invoices
    ensures CeilingOk(Reject(db, i).db) <==> !HasRequest(db.requests, i)
  {
    var after := Reject(db, i).db;
    forall o | o in db.orders ensures Invoiced(after, o) <= db.orders[o].amount {
      StatusWeighs(db.invoices, i, after.invoices[i], o);
    }
  }

  /**
   * A verification keeps it exactly when the invoice was not rejected meanwhile, or its amount fits the order again.
   */
  lemma VerifyCeiling(db: Tables, i: Id, actor: User, id: Id)
    requires CeilingOk(db) && InvoicesOk(db.orders, db.invoices, db.requests) && id !in db.requests
    requires i in db.invoices && !HasRequest(db.requests, i)
    ensures db.invoices[i].order in db.orders
    ensures CeilingOk(Verify(db, i, db.invoices[i].amount, actor, id).db) <==>
              (db.invoices[i].status.REJECTED? ==>
                 Invoiced(db, db.invoices[i].order) + db.invoices[i].amount <= db.orders[db.invoices[i].order].amount)
  {
    var after := Verify(db, i, db.invoices[i].amount, actor, id).db;
    var on := db.invoices[i].order;
    forall o ensures Invoiced(after, o) == Invoiced(db, o)
                       + if o == on && db.invoices[i].status.REJECTED? then db.invoices[i].amount else 0 {
      StatusWeighs(db.invoices, i, after.invoices[i], o);
    }
    assert Invoiced(after, on) <= after.orders[on].amount <==>
             (db.invoices[i].status.REJECTED? ==> Invoiced(db, on) + db.invoices[i].amount <= db.orders[on].amount);
    VerifiedRequests(db, i, actor, id);
  }

  lemma VerifiedRequests(db: Tables, i: Id, actor: User, id: Id)
    requires CeilingOk(db) && i in db.invoices && !HasRequest(db.requests, i)
    ensures var after := Verify(db, i, db.invoices[i].amount, actor, id).db;
            forall r | r in after.requests && after.requests[r].invoice in after.invoices ::
              !after.invoices[after.requests[r].invoice].status.REJECTED?
  {}

  lemma FinaliseCeiling(db: Tables, job: Job, payment: Id, expenditure: Id)
    requires CeilingOk(db) && JobOk(db.orders, db.invoices, db.requests, job)
    ensures CeilingOk(Finalise(db, job, payment, expenditure).db)
  {
    var after := Finalise(db, job, payment, expenditure).db;
    forall o | o in db.orders ensures Invoiced(after, o) <= db.orders[o].amount {
      StatusWeighs(db.invoices, job.invoice, after.invoices[job.invoice], o);
    }
  }

  lemma CastCeiling(db: Tables, request: Id, actor: User, decision: Decision, id: Id)
    requires CeilingOk(db)
    ensures CeilingOk(Cast(db, request, actor, decision, id).db)
  {
    assert Cast(db, request, actor, decision, id).db.invoices == db.invoices;
  }

  /** Of all statements of all calls, exactly those of invoice calls whose guard no longer holds break the ceiling. */
  lemma ProceedCeiling(db: Tables, call: Call, id: Id)
    requires TablesOk(db) && CallOk(db, call) && Unused(db, id) && CeilingOk(db)
    ensures CeilingOk(Proceed(db, call, id).db) <==> GuardHolds(db, call)
  {
    hide L.Sound, InvoicesOk, VotesOk, TalliesOk, ExecutedOk, SpendingOk, PaymentsOk, PaymentsUnique, L.Apply, JobOk;
    hide CeilingOk, HasRequest, Submit, Reject, Cast, Finalise;
    match call
    case Submitting(order, amount, actor) => SubmitCeiling(db, order, amount, actor, id);
    case Verifying(i, amount, actor) => if !HasRequest(db.requests, i) { VerifyCeiling(db, i, actor, id); }
    case Rejecting(i) => RejectCeiling(db, i);
    case Voting(request, actor, decision) => CastCeiling(db, request, actor, decision, id);
    case Recorded(job, payment, expenditure) => FinaliseCeiling(db, job, payment, expenditure);
    case _ =>
      OthersCeiling(db, call, id);
  }

  /** The statements of all other calls leave orders, invoices and requests alone. */
  lemma OthersCeiling(db: Tables, call: Call, id: Id)
    requires CeilingOk(db) && !call.Submitting? && !call.Verifying? && !call.Rejecting? && !call.Voting?
             && !call.Recorded?
    ensures CeilingOk(Proceed(db, call, id).db)
  {
    hide CeilingOk, L.Apply, KeyTaken, RequestTaken;
    SameCeiling(db, Proceed(db, call, id).db);
  }

  lemma RaiseOrderCeiling(db: Tables, id: Id, order: Order)
    requires TablesOk(db) && CeilingOk(db) && id !in db.orders
    ensures CeilingOk(db.(orders := db.orders[id := order]))
  {
    hide L.Sound, VotesOk, TalliesOk, ExecutedOk, SpendingOk, PaymentsOk, PaymentsUnique;
    SumZero(db.invoices, LiveAgainst(id));
    var after := db.(orders := db.orders[id := order]);
    forall o | o in after.orders ensures Invoiced(after, o) <= after.orders[o].amount {
      assert o != id ==> Invoiced(db, o) <= db.orders[o].amount;
    }
  }

  ghost predicate Within(s: State) {
    Inv(s) && CeilingOk(s.db)
  }

  lemma NextCeiling(s: State, m: Move)
    requires Within(s) && MayInTime(s, m)
    ensures Within(Next(s, m))
  {
    hide TablesOk, CallOk, CeilingOk;
    NextKept(s, m);
    match m
    case Book(t) => SameCeiling(s.db, Next(s, m).db);
    case RaiseOrder(id, order) => RaiseOrderCeiling(s.db, id, order);
    case Advance(k, id, ok) => if ok { ProceedCeiling(s.db, s.calls[k], id); }
    case _ =>
  }

  lemma SameCeiling(before: Tables, after: Tables)
    requires CeilingOk(before)
    requires after.invoices == before.invoices && after.orders == before.orders && after.requests == before.requests
    ensures CeilingOk(after)
  {}

  ghost predicate ReachedInTime(s: State) {
    exists ms :: IsRun(INITIAL, ms, Next, MayInTime) && Run(INITIAL, ms, Next) == s
  }

  lemma ReachedWithin(s: State)
    requires ReachedInTime(s)
    ensures Within(s)
  {
    hide Within;
    var ms :| IsRun(INITIAL, ms, Next, MayInTime) && Run(INITIAL, ms, Next) == s;
    InitialWithin();
    forall t, m | Within(t) && MayInTime(t, m) ensures Within(Next(t, m)) { NextCeiling(t, m); }
    Invariant(INITIAL, ms, Next, MayInTime, Within);
  }

  lemma InitialWithin()
    ensures Within(INITIAL)
  {
    InitialInv();
    hide Inv;
  }

  // End to end

  /** The expenditures caused by payments of invoices against an order. */
  ghost function CausedBy(invoices: map<Id, Invoice>, requests: map<Id, Request>, order: Id): L.Expenditure -> int {
    (e: L.Expenditure) =>
      if e.purpose.PaymentFor? && e.purpose.request in requests && requests[e.purpose.request].invoice in invoices
         && invoices[requests[e.purpose.request].invoice].order == order then e.amount else 0
  }

  ghost function PaidAgainst(invoices: map<Id, Invoice>, requests: map<Id, Request>, order: Id): Payment -> int {
    (p: Payment) =>
      if p.expenditure.Some? && p.request in requests && requests[p.request].invoice in invoices
         && invoices[requests[p.request].invoice].order == order then p.amount else 0
  }

  function InvoiceOf(expenditures: map<Id, L.Expenditure>, requests: map<Id, Request>): map<Id, Id> {
    map e | e in expenditures && expenditures[e].purpose.PaymentFor? && expenditures[e].purpose.request in requests ::
      requests[expenditures[e].purpose.request].invoice
  }

  /** Two expenditures for invoices with one payment request are one expenditure. */
  lemma InvoiceOfInjective(db: Tables, e: Id, f: Id)
    requires TablesOk(db) && e in InvoiceOf(db.ledger.expenditures, db.requests)
             && f in InvoiceOf(db.ledger.expenditures, db.requests)
    requires InvoiceOf(db.ledger.expenditures, db.requests)[e] == InvoiceOf(db.ledger.expenditures, db.requests)[f]
    ensures e == f
  {
    hide OrdersOk, VotesOk, TalliesOk, ExecutedOk, PaymentsOk, PaymentsUnique, L.Balanced;
    var rows := db.ledger.expenditures;
    assert rows[e].purpose.request == rows[f].purpose.request;
    OnePerRequest(db, rows[e].purpose.request);
    assert PaidBy(rows, rows[e].purpose.request, e) && PaidBy(rows, rows[e].purpose.request, f);
  }

  /** An expenditure weighs at most what the invoice behind it does, and that invoice is not rejected. */
  lemma InvoiceWeighsMore(db: Tables, order: Id, e: Id)
    requires TablesOk(db) && CeilingOk(db) && e in db.ledger.expenditures
    requires CausedBy(db.invoices, db.requests, order)(db.ledger.expenditures[e]) != 0
    ensures var image := InvoiceOf(db.ledger.expenditures, db.requests);
            e in image && image[e] in db.invoices
            && CausedBy(db.invoices, db.requests,
               order)(db.ledger.expenditures[e]) <= LiveAgainst(order)(db.invoices[image[e]])
  {
    hide OrdersOk, VotesOk, TalliesOk, ExecutedOk, PaymentsOk, PaymentsUnique, L.Sound;
  }

  lemma ExpendituresEmbed(db: Tables, order: Id)
    requires TablesOk(db) && CeilingOk(db)
    ensures Embeds(db.ledger.expenditures, CausedBy(db.invoices, db.requests, order), db.invoices, LiveAgainst(order),
                   InvoiceOf(db.ledger.expenditures, db.requests))
  {
    hide TablesOk, CeilingOk, InvoiceOf;
    var rows, image, weight := db.ledger.expenditures, InvoiceOf(db.ledger.expenditures, db.requests),
      CausedBy(db.invoices, db.requests, order);
    forall e, f | e in rows && f in rows && e in image && f in image && image[e] == image[f] ensures e == f {
      InvoiceOfInjective(db, e, f);
    }
    forall e | e in rows && weight(rows[e]) != 0
      ensures e in image && image[e] in db.invoices && weight(rows[e]) <= LiveAgainst(order)(db.invoices[image[e]])
    {
      InvoiceWeighsMore(db, order, e);
    }
  }

  lemma PaidEmbed(db: Tables, order: Id)
    requires TablesOk(db)
    ensures Embeds(db.payments, PaidAgainst(db.invoices, db.requests, order), db.ledger.expenditures,
                   CausedBy(db.invoices, db.requests, order), ExpenditureOf(db.payments))
  {
    hide OrdersOk, VotesOk, TalliesOk, ExecutedOk, L.Sound, InvoicesOk;
    var image := ExpenditureOf(db.payments);
    forall p | p in image
      ensures PaymentOk(db.ledger.expenditures, db.requests, db.payments[p])
      ensures PaidBy(db.ledger.expenditures, db.payments[p].request, image[p])
    {
      assert PaymentOk(db.ledger.expenditures, db.requests, db.payments[p]);
    }
  }

  lemma CausedWithinInvoiced(db: Tables, order: Id)
    requires TablesOk(db) && CeilingOk(db)
    ensures Sum(db.ledger.expenditures, CausedBy(db.invoices, db.requests, order)) <= Invoiced(db, order)
  {
    hide TablesOk, CeilingOk;
    ExpendituresEmbed(db, order);
    SumEmbedded(db.ledger.expenditures, CausedBy(db.invoices, db.requests, order), db.invoices, LiveAgainst(order),
                InvoiceOf(db.ledger.expenditures, db.requests));
  }

  lemma PaidWithinCaused(db: Tables, order: Id)
    requires TablesOk(db)
    ensures Sum(db.payments, PaidAgainst(db.invoices, db.requests, order))
            <= Sum(db.ledger.expenditures, CausedBy(db.invoices, db.requests, order))
  {
    hide TablesOk;
    PaidEmbed(db, order);
    SumEmbedded(db.payments, PaidAgainst(db.invoices, db.requests, order), db.ledger.expenditures,
                CausedBy(db.invoices, db.requests, order), ExpenditureOf(db.payments));
  }

  /**
   * While no invoice call is overtaken, what an order caused is covered by its live invoices, and those by its amount.
   */
  lemma LiveInvoicesWithin(s: State, order: Id)
    requires ReachedInTime(s) && order in s.db.orders
    ensures Sum(s.db.ledger.expenditures, CausedBy(s.db.invoices, s.db.requests, order)) <= Invoiced(s.db, order)
            <= s.db.orders[order].amount
  {
    hide TablesOk;
    ReachedWithin(s);
    CausedWithinInvoiced(s.db, order);
  }

  // When invoice calls do overtake one another

  /**
   * Two submissions that have both passed the ceiling check insert both invoices; the order stays within its amount
   * exactly when the two fit together.
   */
  lemma RacingSubmissions(db: Tables, order: Id, a: Positive, b: Positive, actor: User, i: Id, j: Id)
    requires Enter(db, SubmitInvoice(order, a, actor)).Submitting?
             && Enter(db, SubmitInvoice(order, b, actor)).Submitting?
    requires i !in db.invoices && j !in db.invoices && i != j
    ensures var after := Submit(Submit(db, order, a, actor, i).db, order, b, actor, j).db;
            && Invoiced(after, order) == Invoiced(db, order) + a + b
            && (Invoiced(after, order) <= after.orders[order].amount <==>
               Invoiced(db, order) + a + b <= db.orders[order].amount)
  {
    var one := Submit(db, order, a, actor, i).db;
    SumPut(db.invoices, i, one.invoices[i], LiveAgainst(order));
    SumPut(one.invoices, j, Submit(one, order, b, actor, j).db.invoices[j], LiveAgainst(order));
  }

  /**
   * A rejection that was overtaken by the invoice's verification frees its amount on the order, but its payment request
   * can still be executed.
   */
  lemma OvertakenRejection(db: Tables, i: Id, request: Id, commitment: Id)
    requires i in db.invoices && db.invoices[i].status.VERIFIED? && request in db.requests
             && db.requests[request].invoice == i
    requires db.requests[request].status.APPROVED? && DrawsOn(db.orders, db.invoices, db.requests, request, commitment)
    ensures var after := Reject(db, i).db;
            && Invoiced(after, db.invoices[i].order) == Invoiced(db, db.invoices[i].order) - db.invoices[i].amount
            && forall key, actor :: ReadRequest(after, request, key, actor)
                                    == Cleared(Job(request, key, actor, db.requests[request].amount, i, commitment))
  {
    StatusWeighs(db.invoices, i, Reject(db, i).db.invoices[i], db.invoices[i].order);
  }
}
