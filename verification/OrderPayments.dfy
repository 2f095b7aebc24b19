/**
 * What is paid against a purchase order, in every interleaving of every call: an order draws on one commitment, a
 * commitment is spent once, and each invoice alone fits its order, so racing invoice calls cannot overpay it.
 */
module OrderPayments {
  import opened Common
  import opened Runs
  import opened Sums
  import opened Payments
  import opened PaymentInvariant
  import opened PaymentProofs
  import opened PaymentTheorems
  import opened InvoiceCeiling
  import L = Ledger

  ghost predicate Fits(orders: map<Id, Order>, order: Id, amount: Positive) {
    order in orders && amount <= orders[order].amount
  }

  ghost predicate InvoicesFit(orders: map<Id, Order>, invoices: map<Id, Invoice>) {
    forall i | i in invoices :: Fits(orders, invoices[i].order, invoices[i].amount)
  }

  ghost predicate CallFits(orders: map<Id, Order>, call: Call) {
    call.Submitting? ==> Fits(orders, call.order, call.amount)
  }

  /** Every invoice, submitted or about to be, fits its order on its own. */
  ghost predicate AllFit(s: State) {
    InvoicesFit(s.db.orders, s.db.invoices) && forall k | k in s.calls :: CallFits(s.db.orders, s.calls[k])
  }

  ghost predicate Fitting(s: State) {
    Inv(s) && AllFit(s)
  }

  lemma EnterFits(db: Tables, e: Entry)
    ensures CallFits(db.orders, Enter(db, e))
  {
    if e.SubmitInvoice? {
      SumNonNegative(db.invoices, LiveAgainst(e.orderId));
    }
  }

  lemma InvoicePut(orders: map<Id, Order>, invoices: map<Id, Invoice>, i: Id, row: Invoice)
    requires InvoicesFit(orders, invoices) && Fits(orders, row.order, row.amount)
    ensures InvoicesFit(orders, invoices[i := row])
  {}

  lemma InvoiceMoved(orders: map<Id, Order>, invoices: map<Id, Invoice>, i: Id, row: Invoice)
    requires InvoicesFit(orders, invoices) && i in invoices
    requires row.order == invoices[i].order && row.amount == invoices[i].amount
    ensures InvoicesFit(orders, invoices[i := row])
  {}

  lemma ProceedFits(db: Tables, call: Call, id: Id)
    requires InvoicesFit(db.orders, db.invoices) && CallFits(db.orders, call)
    ensures var o := Proceed(db, call, id);
            InvoicesFit(o.db.orders, o.db.invoices) && o.db.orders == db.orders && CallFits(o.db.orders, o.call)
  {
    hide L.Apply, VotesOf, InvoicesFit, Fits, HasRequest, HasVoted, KeyTaken, RequestTaken;
    match call
    case Submitting(order, amount, actor) =>
      InvoicePut(db.orders, db.invoices, id, Invoice(order, amount, actor, None, SUBMITTED));
    case Verifying(i, _, actor) =>
      if i in db.invoices {
        InvoiceMoved(db.orders, db.invoices, i, db.invoices[i].(status := VERIFIED, verifiedBy := Some(actor)));
      }
    case Rejecting(i) =>
      if i in db.invoices {
        InvoiceMoved(db.orders, db.invoices, i, db.invoices[i].(status := InvoiceStatus.REJECTED));
      }
    case Recorded(job, _, _) =>
      if job.invoice in db.invoices {
        InvoiceMoved(db.orders, db.invoices, job.invoice, db.invoices[job.invoice].(status := PAID));
      }
    case _ =>
  }

  lemma FailFits(orders: map<Id, Order>, call: Call)
    requires CallFits(orders, call)
    ensures CallFits(orders, Fail(call))
  {}

  lemma CallPut(db: Tables, calls: map<Id, Call>, k: Id, o: Outcome)
    requires AllFit(State(db, calls)) && o.db.orders == db.orders
    requires InvoicesFit(o.db.orders, o.db.invoices) && CallFits(o.db.orders, o.call)
    ensures AllFit(State(o.db, calls[k := o.call]))
  {
    hide CallFits, InvoicesFit;
  }

  lemma AdvanceFits(s: State, k: Id, id: Id)
    requires AllFit(s) && k in s.calls
    ensures var o := Proceed(s.db, s.calls[k], id); AllFit(State(o.db, s.calls[k := o.call]))
  {
    hide Proceed, InvoicesFit, CallFits;
    ProceedFits(s.db, s.calls[k], id);
    CallPut(s.db, s.calls, k, Proceed(s.db, s.calls[k], id));
  }

  lemma OrderFits(s: State, id: Id, order: Order)
    requires AllFit(s) && id !in s.db.orders
    ensures AllFit(s.(db := s.db.(orders := s.db.orders[id := order])))
  {
    forall k | k in s.calls ensures CallFits(s.db.orders[id := order], s.calls[k]) {
      assert CallFits(s.db.orders, s.calls[k]);
    }
  }

  lemma BeginFits(s: State, k: Id, e: Entry)
    requires AllFit(s)
    ensures AllFit(s.(calls := s.calls[k := Enter(s.db, e)]))
  {
    hide Enter, InvoicesFit, CallFits;
    EnterFits(s.db, e);
    CallPut(s.db, s.calls, k, Outcome(s.db, Enter(s.db, e)));
  }

  lemma FailedFits(s: State, k: Id)
    requires AllFit(s) && k in s.calls
    ensures AllFit(s.(calls := s.calls[k := Fail(s.calls[k])]))
  {
    hide Fail, InvoicesFit;
    FailFits(s.db.orders, s.calls[k]);
    hide CallFits;
    CallPut(s.db, s.calls, k, Outcome(s.db, Fail(s.calls[k])));
  }

  lemma CrashFits(s: State, k: Id)
    requires AllFit(s)
    ensures AllFit(s.(calls := s.calls - {k}))
  {
    hide InvoicesFit, CallFits;
  }

  lemma BookFits(s: State, ledger: L.Ledger)
    requires AllFit(s)
    ensures AllFit(s.(db := s.db.(ledger := ledger)))
  {
    hide InvoicesFit, CallFits;
  }

  lemma NextAllFit(s: State, m: Move)
    requires AllFit(s) && May(s, m)
    ensures AllFit(Next(s, m))
  {
    hide AllFit, Proceed, Fail, Enter, L.Step, Unused, L.Issuable;
    match m
    case Book(t) => BookFits(s, L.Step(s.db.ledger, t));
    case RaiseOrder(id, order) => OrderFits(s, id, order);
    case Begin(k, e) => BeginFits(s, k, e);
    case Advance(k, id, ok) => if ok { AdvanceFits(s, k, id); } else { FailedFits(s, k); }
    case Crash(k) => CrashFits(s, k);
  }

  lemma NextFits(s: State, m: Move)
    requires Fitting(s) && May(s, m)
    ensures Fitting(Next(s, m))
  {
    hide Inv, AllFit, Next, May;
    NextKept(s, m);
    NextAllFit(s, m);
  }

  lemma ReachedFits(s: State)
    requires Reached(s)
    ensures Fitting(s)
  {
    hide Inv;
    var ms :| IsRun(INITIAL, ms, Next, May) && Run(INITIAL, ms, Next) == s;
    InitialInv();
    forall t, m | Fitting(t) && May(t, m) ensures Fitting(Next(t, m)) { NextFits(t, m); }
    Invariant(INITIAL, ms, Next, May, Fitting);
  }

  /** Expenditure `e` was caused by a payment of an invoice against the order. */
  ghost predicate Causes(db: Tables, order: Id, e: Id) {
    && e in db.ledger.expenditures && db.ledger.expenditures[e].purpose.PaymentFor?
    && var request := db.ledger.expenditures[e].purpose.request;
       request in db.requests && db.requests[request].invoice in db.invoices
       && db.invoices[db.requests[request].invoice].order == order
  }

  lemma CausesOnce(db: Tables, order: Id, e: Id, f: Id)
    requires TablesOk(db) && Causes(db, order, e) && Causes(db, order, f)
    ensures e == f
  {
    hide VotesOk, TalliesOk, ExecutedOk, PaymentsOk, PaymentsUnique, L.Balanced;
    assert db.ledger.expenditures[e].commitment == db.orders[order].commitment;
  }

  lemma CausesFits(db: Tables, order: Id, e: Id)
    requires TablesOk(db) && InvoicesFit(db.orders, db.invoices) && Causes(db, order, e)
    ensures db.ledger.expenditures[e].amount <= db.orders[order].amount
  {
    hide VotesOk, TalliesOk, ExecutedOk, PaymentsOk, PaymentsUnique, L.Sound;
  }

  /** A purchase order causes at most one expenditure and has at most one finalised payment. */
  lemma OrderPaidOnce(s: State, order: Id)
    requires Reached(s)
    ensures forall e, f :: Causes(s.db, order, e) && Causes(s.db, order, f) ==> e == f
    ensures forall p, q | p in s.db.payments && q in s.db.payments ::
              Pays(s.db, order, s.db.payments[p]) && Pays(s.db, order, s.db.payments[q]) ==> p == q
  {
    ReachedInv(s);
    hide TablesOk, CallOk;
    forall e, f | Causes(s.db, order, e) && Causes(s.db, order, f) ensures e == f { CausesOnce(s.db, order, e, f); }
    forall p, q | p in s.db.payments && q in s.db.payments
                  && Pays(s.db, order, s.db.payments[p]) && Pays(s.db, order, s.db.payments[q]) ensures p == q {
      PaysOnce(s.db, order, p, q);
    }
  }

  ghost predicate Pays(db: Tables, order: Id, row: Payment) {
    row.expenditure.Some? && row.request in db.requests && db.requests[row.request].invoice in db.invoices
    && db.invoices[db.requests[row.request].invoice].order == order
  }

  lemma PaysCauses(db: Tables, order: Id, p: Id)
    requires TablesOk(db) && p in db.payments && Pays(db, order, db.payments[p])
    ensures Causes(db, order, db.payments[p].expenditure.value)
    ensures db.ledger.expenditures[db.payments[p].expenditure.value].purpose == L.PaymentFor(db.payments[p].request)
  {
    hide OrdersOk, VotesOk, TalliesOk, ExecutedOk, InvoicesOk, L.Sound, PaymentsUnique;
    assert PaymentOk(db.ledger.expenditures, db.requests, db.payments[p]);
  }

  lemma PaysOnce(db: Tables, order: Id, p: Id, q: Id)
    requires TablesOk(db) && p in db.payments && q in db.payments
    requires Pays(db, order, db.payments[p]) && Pays(db, order, db.payments[q])
    ensures p == q
  {
    hide OrdersOk, VotesOk, TalliesOk, ExecutedOk, InvoicesOk, L.Sound, PaymentsOk, SpendingOk;
    PaysCauses(db, order, p);
    PaysCauses(db, order, q);
    CausesOnce(db, order, db.payments[p].expenditure.value, db.payments[q].expenditure.value);
  }

  /**
   * End to end, whatever overtakes whatever: the payments finalised against a purchase order sum to at most the
   * expenditures they caused, and those to at most the order's amount.
   */
  lemma OrdersNeverOverpaid(s: State, order: Id)
    requires Reached(s) && order in s.db.orders
    ensures var db := s.db;
            Sum(db.payments, PaidAgainst(db.invoices, db.requests, order))
            <= Sum(db.ledger.expenditures, CausedBy(db.invoices, db.requests, order))
            <= db.orders[order].amount
  {
    ReachedFits(s);
    hide TablesOk, CallOk, InvoicesFit;
    PaidWithinCaused(s.db, order);
    CausedWithinOrder(s.db, order);
  }

  lemma CausedWithinOrder(db: Tables, order: Id)
    requires TablesOk(db) && InvoicesFit(db.orders, db.invoices) && order in db.orders
    ensures Sum(db.ledger.expenditures, CausedBy(db.invoices, db.requests, order)) <= db.orders[order].amount
  {
    hide TablesOk, InvoicesFit;
    var rows, weight := db.ledger.expenditures, CausedBy(db.invoices, db.requests, order);
    forall e | e in rows && weight(rows[e]) != 0
      ensures Causes(db, order, e) && weight(rows[e]) <= db.orders[order].amount {
      CausesFits(db, order, e);
    }
    forall e, f | e in rows && f in rows && weight(rows[e]) != 0 && weight(rows[f]) != 0 ensures e == f {
      CausesOnce(db, order, e, f);
    }
    SumOfAtMostOne(rows, weight, db.orders[order].amount);
  }
}
