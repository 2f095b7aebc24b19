/** Runs in which an invoice call is overtaken and a purchase order ends up over-invoiced. */
module InvoiceRaces {
  import opened Common
  import opened Runs
  import opened Sums
  import opened Payments
  import opened PaymentInvariant
  import opened PaymentTheorems
  import opened InvoiceCeiling
  import L = Ledger

  /** An invoice submitted for the whole of an order that has no other. */
  ghost predicate Filled(s: State, order: Id, invoice: Id, actor: User) {
    && order in s.db.orders && invoice in s.db.invoices
    && s.db.invoices[invoice] == Invoice(order, s.db.orders[order].amount, actor, None, SUBMITTED)
    && Invoiced(s.db, order) == s.db.orders[order].amount
    && !HasRequest(s.db.requests, invoice)
  }

  lemma ReadsToVerify(s: State, invoice: Id, verifier: User, j: Id)
    requires invoice in s.db.invoices && s.db.invoices[invoice].status.SUBMITTED?
             && s.db.invoices[invoice].submittedBy != verifier
    ensures Next(s, Begin(j, VerifyInvoice(invoice, verifier)))
            == s.(calls := s.calls[j := Verifying(invoice, s.db.invoices[invoice].amount, verifier)])
  {}

  /** The invoice is rejected, which frees its amount. */
  lemma Rejected(s: State, order: Id, invoice: Id, k: Id, id: Id)
    requires invoice in s.db.invoices && s.db.invoices[invoice].status.SUBMITTED?
             && s.db.invoices[invoice].order == order
    requires k !in s.calls && Unused(s.db, id)
    ensures var ms := [Begin(k, RejectInvoice(invoice)), Advance(k, id, true)];
            var row := s.db.invoices[invoice].(status := InvoiceStatus.REJECTED);
            && IsRun(s, ms, Next, May)
            && Run(s, ms, Next) == State(s.db.(invoices := s.db.invoices[invoice := row]), s.calls[k := Done])
            && Invoiced(Run(s, ms, Next).db, order) == Invoiced(s.db, order) - row.amount
  {
    var ms := [Begin(k, RejectInvoice(invoice)), Advance(k, id, true)];
    assert [ms[0]] + [ms[1]] == ms && [ms[1]] + [] == [ms[1]];
    RunFirst(s, ms[0], [ms[1]], Next, May);
    var t := Next(s, ms[0]);
    assert t == s.(calls := s.calls[k := Rejecting(invoice)]);
    RunFirst(t, ms[1], [], Next, May);
    assert t.calls[k := Done] == s.calls[k := Done];
    StatusWeighs(s.db.invoices, invoice, s.db.invoices[invoice].(status := InvoiceStatus.REJECTED), order);
  }

  /** An invoice that fits the order is submitted. */
  lemma Submitted(s: State, order: Id, amount: Positive, actor: User, k: Id, id: Id)
    requires order in s.db.orders && Invoiced(s.db, order) + amount <= s.db.orders[order].amount
    requires k !in s.calls && Unused(s.db, id)
    ensures var ms := [Begin(k, SubmitInvoice(order, amount, actor)), Advance(k, id, true)];
            && IsRun(s, ms, Next, May)
            && Run(s, ms, Next)
               == State(s.db.(invoices := s.db.invoices[id := Invoice(order, amount, actor, None, SUBMITTED)]),
                 s.calls[k := Done])
            && Invoiced(Run(s, ms, Next).db, order) == Invoiced(s.db, order) + amount
  {
    var ms := [Begin(k, SubmitInvoice(order, amount, actor)), Advance(k, id, true)];
    assert [ms[0]] + [ms[1]] == ms && [ms[1]] + [] == [ms[1]];
    RunFirst(s, ms[0], [ms[1]], Next, May);
    var t := Next(s, ms[0]);
    assert t == s.(calls := s.calls[k := Submitting(order, amount, actor)]);
    RunFirst(t, ms[1], [], Next, May);
    assert t.calls[k := Done] == s.calls[k := Done];
    SumPut(s.db.invoices, id, Invoice(order, amount, actor, None, SUBMITTED), LiveAgainst(order));
  }

  /** A verification that has read the invoice as submitted revives it after its rejection. */
  lemma Revived(s: State, order: Id, invoice: Id, amount: Positive, verifier: User, j: Id, id: Id)
    requires j in s.calls && s.calls[j] == Verifying(invoice, amount, verifier) && Unused(s.db, id)
    requires invoice in s.db.invoices && s.db.invoices[invoice].status.REJECTED?
             && s.db.invoices[invoice].order == order
    requires s.db.invoices[invoice].amount == amount && !HasRequest(s.db.requests, invoice)
    ensures IsRun(s, [Advance(j, id, true)], Next, May)
    ensures Invoiced(Run(s, [Advance(j, id, true)], Next).db, order) == Invoiced(s.db, order) + amount
    ensures Run(s, [Advance(j, id, true)], Next).db.orders == s.db.orders
  {
    assert [Advance(j, id, true)] + [] == [Advance(j, id, true)];
    RunFirst(s, Advance(j, id, true), [], Next, May);
    StatusWeighs(s.db.invoices, invoice, s.db.invoices[invoice].(status := VERIFIED, verifiedBy := Some(verifier)),
      order);
  }

  /** What the three calls do, in order. */
  function StaleMoves(order: Id, amount: Positive, a: Id, b: Id, request: Id, actor: User, verifier: User): seq<Move> {
    [Begin(0, VerifyInvoice(a, verifier))]
    + [Begin(1, RejectInvoice(a)), Advance(1, b, true)]
    + [Begin(2, SubmitInvoice(order, amount, actor)), Advance(2, b, true)]
    + [Advance(0, request, true)]
  }

  ghost predicate NoCalls(s: State) {
    0 !in s.calls && 1 !in s.calls && 2 !in s.calls
  }

  /**
   * A verification has read invoice `a` as submitted; `a` is rejected, and `b` for the whole order is submitted with
   * its guard holding; the verification writes, and twice the order's amount is live against it.
   */
  lemma StaleVerification(s: State, order: Id, a: Id, b: Id, request: Id, actor: User, verifier: User)
    requires Filled(s, order, a, actor) && verifier != actor && NoCalls(s)
    requires Unused(s.db, b) && Unused(s.db, request) && b != request
    ensures var amount := s.db.orders[order].amount;
            var ms := StaleMoves(order, amount, a, b, request, actor, verifier);
            var t := Run(s, ms, Next);
            IsRun(s, ms, Next, May) && t.db.orders == s.db.orders
            && Invoiced(t.db, order) == 2 * amount && !CeilingOk(t.db)
  {
    var amount := s.db.orders[order].amount;
    var one := [Begin(0, VerifyInvoice(a, verifier))];
    var two := one + [Begin(1, RejectInvoice(a)), Advance(1, b, true)];
    var three := two + [Begin(2, SubmitInvoice(order, amount, actor)), Advance(2, b, true)];
    hide Next, May, Invoiced, Filled, NoCalls, Unused;
    StaleRead(s, order, a, actor, verifier);
    StaleRejection(s, Run(s, one, Next), order, a, b, actor, verifier);
    RunConcat(s, one, [Begin(1, RejectInvoice(a)), Advance(1, b, true)], Next, May);
    StaleSubmission(s, Run(s, two, Next), order, a, b, actor, verifier);
    RunConcat(s, two, [Begin(2, SubmitInvoice(order, amount, actor)), Advance(2, b, true)], Next, May);
    StaleRevival(s, Run(s, three, Next), order, a, b, request, actor, verifier);
    RunConcat(s, three, [Advance(0, request, true)], Next, May);
    OverInvoiced(Run(s, three + [Advance(0, request, true)], Next).db, order);
  }

  lemma OverInvoiced(db: Tables, order: Id)
    requires order in db.orders && Invoiced(db, order) == 2 * db.orders[order].amount
    ensures !CeilingOk(db)
  {}

  /** After the first read. */
  ghost predicate ReadOnly(s: State, t: State, a: Id, amount: Positive, verifier: User) {
    t == s.(calls := s.calls[0 := Verifying(a, amount, verifier)])
  }

  /** After the rejection; the verification still holds what it read. */
  ghost predicate RejectedMeanwhile(s: State, t: State, order: Id, a: Id, amount: Positive, verifier: User) {
    && a in s.db.invoices && t.db == s.db.(invoices := t.db.invoices)
    && t.db.invoices == s.db.invoices[a := s.db.invoices[a].(status := InvoiceStatus.REJECTED)]
    && 0 in t.calls && t.calls[0] == Verifying(a, amount, verifier) && 2 !in t.calls
    && Invoiced(t.db, order) == 0
  }

  lemma StaleRejection(s: State, t: State, order: Id, a: Id, b: Id, actor: User, verifier: User)
    requires Filled(s, order, a, actor) && NoCalls(s) && Unused(s.db, b)
    requires ReadOnly(s, t, a, s.db.orders[order].amount, verifier)
    ensures var ms := [Begin(1, RejectInvoice(a)), Advance(1, b, true)];
            IsRun(t, ms, Next, May)
            && RejectedMeanwhile(s, Run(t, ms, Next), order, a, s.db.orders[order].amount, verifier)
  {
    hide Next, May, Invoiced;
    SameInvoiced(s.db, t.db, order);
    Rejected(t, order, a, 1, b);
  }

  lemma SameInvoiced(db: Tables, other: Tables, order: Id)
    requires db.invoices == other.invoices
    ensures Invoiced(db, order) == Invoiced(other, order)
  {}

  /** After the second submission. */
  ghost predicate SubmittedMeanwhile(s: State, t: State, order: Id, a: Id, b: Id, amount: Positive, verifier: User) {
    && t.db == s.db.(invoices := t.db.invoices)
    && a in t.db.invoices && t.db.invoices[a].status.REJECTED? && t.db.invoices[a].order == order
    && t.db.invoices[a].amount == amount && t.db.invoices.Keys == s.db.invoices.Keys + {b}
    && 0 in t.calls && t.calls[0] == Verifying(a, amount, verifier)
    && Invoiced(t.db, order) == amount
  }

  lemma StaleSubmission(s: State, t: State, order: Id, a: Id, b: Id, actor: User, verifier: User)
    requires Filled(s, order, a, actor) && Unused(s.db, b)
    requires RejectedMeanwhile(s, t, order, a, s.db.orders[order].amount, verifier)
    ensures var amount := s.db.orders[order].amount;
            var ms := [Begin(2, SubmitInvoice(order, amount, actor)), Advance(2, b, true)];
            IsRun(t, ms, Next, May) && SubmittedMeanwhile(s, Run(t, ms, Next), order, a, b, amount, verifier)
  {
    hide Next, May, Invoiced;
    Submitted(t, order, s.db.orders[order].amount, actor, 2, b);
  }

  lemma StaleRevival(s: State, t: State, order: Id, a: Id, b: Id, request: Id, actor: User, verifier: User)
    requires Filled(s, order, a, actor) && Unused(s.db, request) && request != b
    requires SubmittedMeanwhile(s, t, order, a, b, s.db.orders[order].amount, verifier)
    ensures var q := Run(t, [Advance(0, request, true)], Next);
            IsRun(t, [Advance(0, request, true)], Next, May) && q.db.orders == s.db.orders
            && Invoiced(q.db, order) == 2 * s.db.orders[order].amount
  {
    hide Next, May, Invoiced;
    Revived(t, order, a, s.db.orders[order].amount, verifier, 0, request);
  }

  lemma StaleRead(s: State, order: Id, a: Id, actor: User, verifier: User)
    requires Filled(s, order, a, actor) && verifier != actor && NoCalls(s)
    ensures var ms := [Begin(0, VerifyInvoice(a, verifier))];
            && IsRun(s, ms, Next, May)
            && ReadOnly(s, Run(s, ms, Next), a, s.db.orders[order].amount, verifier)
  {
    var m := Begin(0, VerifyInvoice(a, verifier));
    assert [m] + [] == [m];
    RunFirst(s, m, [], Next, May);
    ReadsToVerify(s, a, verifier, 0);
  }

  // Such a state is reached

  const ACCOUNT: Id := 0
  const HELD: Id := 1
  const ORDER: Id := 2
  const FIRST: Id := 3

  function OrderMoves(amount: Positive): seq<Move> {
    [Book(L.OpenAllocation(ACCOUNT, amount)), Book(L.CreateCommitment(HELD, ACCOUNT, amount)),
      RaiseOrder(ORDER, Order(HELD, amount))]
  }

  lemma OrderRaised(amount: Positive)
    ensures IsRun(INITIAL, OrderMoves(amount), Next, May)
    ensures var s := Run(INITIAL, OrderMoves(amount), Next);
            && s.db.orders == map[ORDER := Order(HELD, amount)] && s.db.invoices == map[] && s.db.requests == map[]
            && s.db.votes == map[] && s.db.payments == map[] && s.db.ledger.expenditures == map[]
            && s.calls == map[]
  {
    var ms := OrderMoves(amount);
    RunOfThree(INITIAL, ms[0], ms[1], ms[2], Next, May);
    assert ms == [ms[0], ms[1], ms[2]];
  }

  function FilledMoves(amount: Positive, actor: User): seq<Move> {
    OrderMoves(amount) + [Begin(9, SubmitInvoice(ORDER, amount, actor)), Advance(9, FIRST, true)]
  }

  /** The whole of an order is invoiced: the start of the run above, reached from empty tables. */
  lemma FilledReached(amount: Positive, actor: User)
    ensures var s := Run(INITIAL, FilledMoves(amount, actor), Next);
            && IsRun(INITIAL, FilledMoves(amount, actor), Next, May) && Filled(s, ORDER, FIRST, actor) && NoCalls(s)
            && s.db.orders[ORDER].amount == amount && Unused(s.db, 4) && Unused(s.db, 5)
  {
    hide Next, May;
    OrderRaised(amount);
    var s := Run(INITIAL, OrderMoves(amount), Next);
    var none: map<Id, Invoice> := map[];
    SumZero(none, LiveAgainst(ORDER));
    Submitted(s, ORDER, amount, actor, 9, FIRST);
    RunConcat(INITIAL, OrderMoves(amount), [Begin(9, SubmitInvoice(ORDER, amount, actor)), Advance(9, FIRST, true)],
      Next, May);
  }

  /** From empty tables, twice the amount of a purchase order can be live against it. */
  lemma OverInvoicedReached(amount: Positive, actor: User, verifier: User)
    requires actor != verifier
    ensures exists t :: Reached(t) && ORDER in t.db.orders && Invoiced(t.db, ORDER) == 2 * t.db.orders[ORDER].amount
  {
    hide Next, May, Invoiced, FilledMoves, StaleMoves;
    FilledReached(amount, actor);
    var start := FilledMoves(amount, actor);
    var s := Run(INITIAL, start, Next);
    StaleVerification(s, ORDER, FIRST, 4, 5, actor, verifier);
    var stale := StaleMoves(ORDER, amount, FIRST, 4, 5, actor, verifier);
    RunConcat(INITIAL, start, stale, Next, May);
    assert Reached(Run(INITIAL, start + stale, Next));
  }
}
