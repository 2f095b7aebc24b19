/** Who verified an invoice and who approved its payment, in every interleaving of every call. */
module Verifiers {
  import opened Common
  import opened Runs
  import opened Payments
  import opened PaymentInvariant
  import opened PaymentProofs
  import opened PaymentTheorems
  import L = Ledger

  // One statement

  /** The transaction of a verification records its caller, and asks for two approvals of the amount that was read. */
  lemma VerificationRecords(s: State, k: Id, id: Id)
    requires k in s.calls && s.calls[k].Verifying?
    ensures var call, t := s.calls[k], Next(s, Advance(k, id, true));
            && (t.calls[k] == Done <==>
                 call.invoice in s.db.invoices
                 && forall r :: r in s.db.requests ==> s.db.requests[r].invoice != call.invoice)
            && (t.calls[k] != Done ==> t.db == s.db && t.calls[k] == Threw(Aborted))
            && (t.calls[k] == Done ==>
                 var row := s.db.invoices[call.invoice];
                 t.db == s.db.(
                   invoices :=
                     s.db.invoices[call.invoice :=
                       Invoice(row.order, row.amount, row.submittedBy, Some(call.actor), VERIFIED)],
                   requests := s.db.requests[id := Request(call.invoice, call.amount, 2, PENDING)]))
  {}

  ghost function VotedStatus(row: Request, decision: Decision, approvals: nat): RequestStatus {
    if decision == REJECT then RequestStatus.REJECTED
    else if approvals + 1 >= row.required then RequestStatus.APPROVED
    else PENDING
  }

  lemma CastRecords(db: Tables, request: Id, actor: User, decision: Decision, id: Id)
    requires id !in db.votes
    ensures var o := Cast(db, request, actor, decision, id);
            && (o.call == Done <==>
                 && request in db.requests && db.requests[request].status == PENDING
                 && forall v :: v in db.votes && db.votes[v].request == request ==> db.votes[v].actor != actor)
            && (o.call != Done ==> o.db == db && o.call.Threw?)
            && (o.call == Done ==>
                 var row := db.requests[request];
                 o.db == db.(
                   votes := db.votes[id := Vote(request, actor, decision)],
                   requests :=
                     db.requests[request :=
                       Request(row.invoice, row.amount, row.required,
                               VotedStatus(row, decision, |VotesOf(db.votes, request, APPROVE)|))]))
  {
    assert decision.APPROVE? ==>
      VotesOf(db.votes[id := Vote(request, actor, decision)], request, APPROVE)
      == VotesOf(db.votes, request, APPROVE) + {id};
  }

  /** A vote counts once, while its request is pending; a rejection decides at once, and so does the last approval. */
  lemma VoteRecords(s: State, k: Id, id: Id)
    requires k in s.calls && s.calls[k].Voting? && id !in s.db.votes
    ensures var call, t := s.calls[k], Next(s, Advance(k, id, true));
            && (t.calls[k] == Done <==>
                 && call.request in s.db.requests && s.db.requests[call.request].status == PENDING
                 && forall v :: v in s.db.votes && s.db.votes[v].request == call.request ==>
                      s.db.votes[v].actor != call.actor)
            && (t.calls[k] != Done ==> t.db == s.db && t.calls[k].Threw?)
            && (t.calls[k] == Done ==>
                 var row := s.db.requests[call.request];
                 t.db == s.db.(
                   votes := s.db.votes[id := Vote(call.request, call.actor, call.decision)],
                   requests :=
                     s.db.requests[call.request :=
                       Request(row.invoice, row.amount, row.required,
                               VotedStatus(row, call.decision, |VotesOf(s.db.votes, call.request, APPROVE)|))]))
  {
    hide Cast, VotesOf, VotedStatus;
    CastRecords(s.db, s.calls[k].request, s.calls[k].actor, s.calls[k].decision, id);
  }

  // Over a run

  ghost predicate InvoiceKept(requests: map<Id, Request>, i: Id, row: Invoice, next: Invoice) {
    && next.order == row.order && next.amount == row.amount && next.submittedBy == row.submittedBy
    && (HasRequest(requests, i) ==> next.verifiedBy == row.verifiedBy)
  }

  ghost predicate RequestKept(row: Request, next: Request) {
    next.invoice == row.invoice && next.amount == row.amount && next.required == row.required
  }

  /** Invoices and requests stay, and who verified an invoice is fixed once its request exists. */
  ghost predicate PaperStays(before: Tables, after: Tables) {
    && (forall i | i in before.invoices ::
          i in after.invoices && InvoiceKept(before.requests, i, before.invoices[i], after.invoices[i]))
    && (forall r | r in before.requests :: r in after.requests && RequestKept(before.requests[r], after.requests[r]))
  }

  lemma ProceedStays(db: Tables, call: Call, id: Id)
    requires Unused(db, id)
    ensures PaperStays(db, Proceed(db, call, id).db)
  {
    hide L.Apply, KeyTaken, RequestTaken, PaperStays, Submit, Verify, Reject, Cast, Finalise;
    match call
    case Submitting(order, amount, actor) => SubmitStays(db, order, amount, actor, id);
    case Verifying(invoice, amount, actor) => VerifyStays(db, invoice, amount, actor, id);
    case Rejecting(invoice) => RejectStays(db, invoice);
    case Voting(request, actor, decision) => CastStays(db, request, actor, decision, id);
    case Recorded(job, payment, expenditure) => FinaliseStays(db, job, payment, expenditure);
    case _ => PaperSame(db, Proceed(db, call, id).db);
  }

  lemma PaperSame(before: Tables, after: Tables)
    requires after.invoices == before.invoices && after.requests == before.requests
    ensures PaperStays(before, after)
  {}

  lemma SubmitStays(db: Tables, order: Id, amount: Positive, actor: User, id: Id)
    requires Unused(db, id)
    ensures PaperStays(db, Submit(db, order, amount, actor, id).db)
  {}

  lemma VerifyStays(db: Tables, invoice: Id, amount: Positive, actor: User, id: Id)
    requires Unused(db, id)
    ensures PaperStays(db, Verify(db, invoice, amount, actor, id).db)
  {}

  lemma RejectStays(db: Tables, invoice: Id)
    ensures PaperStays(db, Reject(db, invoice).db)
  {}

  lemma CastStays(db: Tables, request: Id, actor: User, decision: Decision, id: Id)
    ensures PaperStays(db, Cast(db, request, actor, decision, id).db)
  {
    hide VotesOf, HasVoted;
  }

  lemma FinaliseStays(db: Tables, job: Job, payment: Id, expenditure: Id)
    ensures PaperStays(db, Finalise(db, job, payment, expenditure).db)
  {}

  ghost predicate Stays(s: State, t: State) {
    PaperStays(s.db, t.db)
  }

  lemma NextStays(s: State, m: Move)
    requires May(s, m)
    ensures Stays(s, Next(s, m))
  {
    hide Proceed, Enter, Fail, L.Step, L.Issuable;
    if m.Advance? && m.ok { ProceedStays(s.db, s.calls[m.k], m.id); }
  }

  lemma StaysTransitive(a: Tables, b: Tables, c: Tables)
    requires PaperStays(a, b) && PaperStays(b, c)
    ensures PaperStays(a, c)
  {
    forall i | i in a.invoices ensures i in c.invoices && InvoiceKept(a.requests, i, a.invoices[i], c.invoices[i]) {
      assert InvoiceKept(a.requests, i, a.invoices[i], b.invoices[i]);
      assert InvoiceKept(b.requests, i, b.invoices[i], c.invoices[i]);
      if r :| r in a.requests && a.requests[r].invoice == i { assert RequestKept(a.requests[r], b.requests[r]); }
    }
  }

  lemma StaysPreorder()
    ensures Preorder(Stays)
  {
    hide PaperStays;
    forall s, t, u | Stays(s, t) && Stays(t, u) ensures Stays(s, u) { StaysTransitive(s.db, t.db, u.db); }
    forall s | true ensures Stays(s, s) { PaperSame(s.db, s.db); }
  }

  ghost predicate Any(s: State) { true }

  lemma RunStays(s: State, ms: seq<Move>)
    requires IsRun(s, ms, Next, May)
    ensures Stays(s, Run(s, ms, Next))
  {
    hide Stays, Next, May;
    StaysPreorder();
    forall t, m | May(t, m) ensures Stays(t, Next(t, m)) { NextStays(t, m); }
    Monotone(s, ms, Next, May, Any, Stays);
  }

  // Over every run

  ghost predicate PaperSigned(db: Tables) {
    && (forall i | i in db.invoices :: db.invoices[i].verifiedBy != Some(db.invoices[i].submittedBy))
    && (forall r | r in db.requests :: db.requests[r].required == 2)
  }

  ghost predicate CallSigns(invoices: map<Id, Invoice>, call: Call) {
    call.Verifying? ==> call.invoice in invoices && invoices[call.invoice].submittedBy != call.actor
  }

  /** Nobody has verified, or is about to verify, an invoice of their own, and every request asks for two approvals. */
  ghost predicate Signed(s: State) {
    PaperSigned(s.db) && forall k | k in s.calls :: CallSigns(s.db.invoices, s.calls[k])
  }

  lemma ProceedSigned(db: Tables, call: Call, id: Id)
    requires PaperSigned(db) && CallSigns(db.invoices, call) && Unused(db, id)
    ensures var o := Proceed(db, call, id); PaperSigned(o.db) && CallSigns(o.db.invoices, o.call)
  {
    hide L.Apply, VotesOf, HasVoted, KeyTaken, RequestTaken, HasRequest;
  }

  lemma CallStays(before: Tables, after: Tables, call: Call)
    requires PaperStays(before, after) && CallSigns(before.invoices, call)
    ensures CallSigns(after.invoices, call)
  {
    hide HasRequest;
  }

  lemma CallsSigned(s: State, k: Id, o: Outcome)
    requires Signed(s) && PaperStays(s.db, o.db) && PaperSigned(o.db) && CallSigns(o.db.invoices, o.call)
    ensures Signed(State(o.db, s.calls[k := o.call]))
  {
    hide PaperStays, PaperSigned, CallSigns;
    forall j | j in s.calls ensures CallSigns(o.db.invoices, s.calls[j]) { CallStays(s.db, o.db, s.calls[j]); }
  }

  lemma EnterSigned(db: Tables, e: Entry)
    ensures CallSigns(db.invoices, Enter(db, e))
  {
    hide LiveAgainst, L.ReadForRelease, L.ReadForExpenditure, L.ReadForApproval, L.ReadPending;
  }

  lemma FailSigned(db: Tables, call: Call)
    requires CallSigns(db.invoices, call)
    ensures CallSigns(db.invoices, Fail(call))
  {}

  lemma NextSigned(s: State, m: Move)
    requires Signed(s) && May(s, m)
    ensures Signed(Next(s, m))
  {
    hide Proceed, Enter, Fail, L.Step, L.Issuable, Unused, PaperStays, PaperSigned, CallSigns;
    PaperSame(s.db, s.db);
    match m
    case Book(_) => LedgerSigned(s, Next(s, m));
    case RaiseOrder(_, _) => LedgerSigned(s, Next(s, m));
    case Begin(k, e) =>
      EnterSigned(s.db, e);
      CallsSigned(s, k, Outcome(s.db, Enter(s.db, e)));
    case Advance(k, id, ok) =>
      if ok {
        ProceedStays(s.db, s.calls[k], id);
        ProceedSigned(s.db, s.calls[k], id);
        CallsSigned(s, k, Proceed(s.db, s.calls[k], id));
      } else {
        FailSigned(s.db, s.calls[k]);
        CallsSigned(s, k, Outcome(s.db, Fail(s.calls[k])));
      }
    case Crash(k) =>
  }

  lemma LedgerSigned(s: State, t: State)
    requires Signed(s) && t.db.invoices == s.db.invoices && t.db.requests == s.db.requests && t.calls == s.calls
    ensures Signed(t)
  {
    hide CallSigns;
  }

  lemma ReachedSigned(s: State)
    requires Reached(s)
    ensures Signed(s)
  {
    var ms :| IsRun(INITIAL, ms, Next, May) && Run(INITIAL, ms, Next) == s;
    assert Signed(INITIAL);
    hide Signed, Next, May;
    forall t, m | Signed(t) && May(t, m) ensures Signed(Next(t, m)) { NextSigned(t, m); }
    Invariant(INITIAL, ms, Next, May, Signed);
  }

  /**
    * Three people at least stand behind an approved payment: a verifier who did not submit the invoice, and exactly two
    * approvers other than the verifier.
    */
  lemma ApprovedByTwo(s: State, request: Id)
    requires Reached(s) && request in s.db.requests
    requires s.db.requests[request].status.APPROVED? || s.db.requests[request].status.EXECUTED?
    ensures var invoice := s.db.requests[request].invoice;
            && invoice in s.db.invoices && s.db.invoices[invoice].verifiedBy.Some?
            && s.db.invoices[invoice].verifiedBy.value != s.db.invoices[invoice].submittedBy
            && |Approvers(s.db.votes, request)| == 2
            && s.db.invoices[invoice].verifiedBy.value !in Approvers(s.db.votes, request)
  {
    ReachedInv(s);
    ReachedSigned(s);
    MultiSignature(s, request);
    hide L.Sound, VotesOk, TalliesOk, ExecutedOk, PaymentsOk, SpendingOk, PaymentsUnique, CallOk, Apart, Signed;
    assert PaperSigned(s.db) by { SignedPaper(s); }
  }

  lemma SignedPaper(s: State)
    requires Signed(s)
    ensures PaperSigned(s.db)
  {}

  /** Whoever verified an invoice stays its verifier over every run, and never votes on its payment. */
  lemma VerifierFixed(s: State, request: Id, ms: seq<Move>)
    requires Reached(s) && request in s.db.requests && IsRun(s, ms, Next, May)
    ensures var invoice, t := s.db.requests[request].invoice, Run(s, ms, Next);
            && invoice in s.db.invoices && s.db.invoices[invoice].verifiedBy.Some?
            && invoice in t.db.invoices && t.db.invoices[invoice].verifiedBy == s.db.invoices[invoice].verifiedBy
            && t.db.invoices[invoice].verifiedBy != Some(t.db.invoices[invoice].submittedBy)
            && forall v :: v in t.db.votes && t.db.votes[v].request == request ==>
                 Some(t.db.votes[v].actor) != s.db.invoices[invoice].verifiedBy
  {
    var invoice, t := s.db.requests[request].invoice, Run(s, ms, Next);
    RunStays(s, ms);
    ReachedOn(s, ms);
    ReachedInv(s);
    ReachedSigned(t);
    hide L.Sound, TalliesOk, ExecutedOk, PaymentsOk, SpendingOk, PaymentsUnique, CallOk, Apart, Signed, Run, IsRun;
    SignedPaper(t);
    assert InvoiceKept(s.db.requests, invoice, s.db.invoices[invoice], t.db.invoices[invoice]);
    assert RequestKept(s.db.requests[request], t.db.requests[request]);
    MultiSignature(t, request);
  }

  lemma ReachedOn(s: State, ms: seq<Move>)
    requires Reached(s) && IsRun(s, ms, Next, May)
    ensures Reached(Run(s, ms, Next))
  {
    hide Next, May;
    var start :| IsRun(INITIAL, start, Next, May) && Run(INITIAL, start, Next) == s;
    RunConcat(INITIAL, start, ms, Next, May);
    assert Reached(Run(INITIAL, start + ms, Next));
  }

  // Where a verifier comes from

  /** Move `n` of the run is the transaction of a verification of invoice `i` by `actor`. */
  ghost predicate VerifiedAt(s: State, ms: seq<Move>, n: nat, i: Id, actor: User) {
    && n < |ms| && ms[n].Advance? && ms[n].ok
    && var u := Run(s, ms[..n], Next);
       ms[n].k in u.calls && u.calls[ms[n].k].Verifying? && u.calls[ms[n].k].invoice == i
       && u.calls[ms[n].k].actor == actor
  }

  lemma ProceedVerifier(db: Tables, call: Call, id: Id, i: Id)
    requires i in Proceed(db, call, id).db.invoices && Proceed(db, call, id).db.invoices[i].verifiedBy.Some?
    ensures var verifier := Proceed(db, call, id).db.invoices[i].verifiedBy;
            (i in db.invoices && db.invoices[i].verifiedBy == verifier)
            || (call.Verifying? && call.invoice == i && call.actor == verifier.value)
  {
    hide L.Apply, VotesOf, HasVoted, KeyTaken, RequestTaken, HasRequest;
  }

  lemma NextVerifier(s: State, m: Move, i: Id)
    requires May(s, m) && i in Next(s, m).db.invoices && Next(s, m).db.invoices[i].verifiedBy.Some?
    ensures (i in s.db.invoices && s.db.invoices[i].verifiedBy == Next(s, m).db.invoices[i].verifiedBy)
            || VerifiedAt(s, [m], 0, i, Next(s, m).db.invoices[i].verifiedBy.value)
  {
    hide Proceed, Enter, Fail, L.Step, L.Issuable, Unused;
    assert [m][..0] == [] && [m][0] == m;
    if m.Advance? && m.ok { ProceedVerifier(s.db, s.calls[m.k], m.id, i); }
  }

  lemma VerifiedLater(s: State, ms: seq<Move>, n: nat, i: Id, actor: User)
    requires ms != [] && VerifiedAt(Next(s, ms[0]), ms[1..], n, i, actor)
    ensures VerifiedAt(s, ms, n + 1, i, actor)
  {
    hide Next;
    assert ms[..n + 1] == [ms[0]] + ms[1..][..n];
    RunFirst(s, ms[0], ms[1..][..n], Next, May);
  }

  /** The verifier in an invoice row is the caller of the verification that wrote it, wherever the run started. */
  lemma {:induction false} VerifierRecorded(s: State, ms: seq<Move>, i: Id)
    requires IsRun(s, ms, Next, May)
    requires i in Run(s, ms, Next).db.invoices && Run(s, ms, Next).db.invoices[i].verifiedBy.Some?
    ensures var verifier := Run(s, ms, Next).db.invoices[i].verifiedBy;
            (i in s.db.invoices && s.db.invoices[i].verifiedBy == verifier)
            || exists n :: VerifiedAt(s, ms, n, i, verifier.value)
    decreases |ms|
  {
    hide Next, May, VerifiedAt;
    if ms != [] {
      var verifier := Run(s, ms, Next).db.invoices[i].verifiedBy;
      var next := Next(s, ms[0]);
      VerifierRecorded(next, ms[1..], i);
      if n :| VerifiedAt(next, ms[1..], n, i, verifier.value) {
        VerifiedLater(s, ms, n, i, verifier.value);
      } else {
        NextVerifier(s, ms[0], i);
        if VerifiedAt(s, [ms[0]], 0, i, verifier.value) { VerifiedFirst(s, ms, i, verifier.value); }
      }
    }
  }

  lemma VerifiedFirst(s: State, ms: seq<Move>, i: Id, actor: User)
    requires ms != [] && VerifiedAt(s, [ms[0]], 0, i, actor)
    ensures VerifiedAt(s, ms, 0, i, actor)
  {
    hide Next;
    assert ms[..0] == [ms[0]][..0];
  }
}
