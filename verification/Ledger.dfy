/** Values shared by the services: database identifiers, money and results. */
module Common {
  /** Stands for a database-generated UUID: only equality of identifiers is ever used. */
  type Id = nat

  type User = nat

  /** A DECIMAL(18,2) amount counted in cents. */
  type Money = int

  /** What `@IsPositive()` leaves of an amount in a request body. */
  type Positive = x: Money | 0 < x witness 1

  datatype Option<+T> = None | Some(value: T)

  /** The exceptions the services throw; `Aborted` is a constraint violation nobody catches. */
  datatype Error = NotFound | Forbidden | BadRequest | Conflict | Aborted

  datatype Result<+T> = Ok(value: T) | Err(error: Error)
}

/**
 * Commitment accounting of AllocationsService. Every state change is one database transaction; rows that the service
 * read before taking the lock are passed in as `seen` and may be stale by the time the transaction runs.
 */
module Ledger {
  import opened Common
  import opened Runs
  import opened Sums

  datatype AllocationStatus = ACTIVE | FROZEN | CLOSED
  datatype CommitmentStatus = ACTIVE | RELEASED | CONSUMED
  datatype AdjustmentKind = INCREASE | DECREASE
  datatype AdjustmentStatus = PENDING | APPROVED | REJECTED

  /** `line` is the budget line's amount, which never changes. */
  datatype Allocation = Allocation(line: nat, authorized: Money, committed: Money, spent: Money,
    status: AllocationStatus)
  datatype Commitment = Commitment(allocation: Id, amount: Positive, status: CommitmentStatus)
  /** The description names the invoice paid, and an invoice has one payment request. */
  datatype Purpose = PaymentFor(request: Id) | Direct
  datatype Expenditure = Expenditure(commitment: Id, allocation: Id, amount: Positive, purpose: Purpose)
  datatype Adjustment =
    Adjustment(allocation: Id, kind: AdjustmentKind, amount: Positive, requestedBy: User, status: AdjustmentStatus)

  datatype Ledger = Ledger(
    allocations: map<Id, Allocation>,
    commitments: map<Id, Commitment>,
    expenditures: map<Id, Expenditure>,
    adjustments: map<Id, Adjustment>)

  const EMPTY := Ledger(map[], map[], map[], map[])

  function Available(a: Allocation): Money {
    a.authorized - a.committed - a.spent
  }

  /** The CHECK constraint on `allocations`; a transaction that breaks it is rolled back. */
  predicate RowCheck(a: Allocation) {
    0 <= a.committed && 0 <= a.spent && a.committed + a.spent <= a.authorized
  }

  predicate HasExpenditure(l: Ledger, commitment: Id) {
    exists e :: e in l.expenditures && l.expenditures[e].commitment == commitment
  }

  /** One transaction on the ledger. */
  datatype Transaction =
    | OpenAllocation(id: Id, line: nat)
    | CreateCommitment(id: Id, allocation: Id, amount: Positive)
    | ReleaseCommitment(commitment: Id, seen: Commitment)
    | RecordExpenditure(id: Id, commitment: Id, seen: Commitment, amount: Positive, purpose: Purpose)
    | RequestAdjustment(id: Id, allocation: Id, kind: AdjustmentKind, amount: Positive, requestedBy: User)
    | ApproveAdjustment(adjustment: Id, seenAdjustment: Adjustment)
    | RejectAdjustment(adjustment: Id)

  // The reads and guards that come before a transaction

  function ReadForRelease(l: Ledger, commitment: Id): Result<Commitment> {
    if commitment !in l.commitments then Err(NotFound)
    else if !l.commitments[commitment].status.ACTIVE? then Err(BadRequest)
    else Ok(l.commitments[commitment])
  }

  function ReadForExpenditure(l: Ledger, commitment: Id, amount: Positive): Result<Commitment> {
    var read := ReadForRelease(l, commitment);
    if read.Ok? && read.value.amount < amount then Err(BadRequest) else read
  }

  function ReadForApproval(l: Ledger, adjustment: Id, actor: User): Result<Adjustment> {
    if adjustment !in l.adjustments then Err(NotFound)
    else if l.adjustments[adjustment].requestedBy == actor then Err(Forbidden)
    else ReadPending(l, adjustment)
  }

  function ReadPending(l: Ledger, adjustment: Id): Result<Adjustment> {
    if adjustment !in l.adjustments then Err(NotFound)
    else if l.adjustments[adjustment].status != PENDING then Err(BadRequest)
    else Ok(l.adjustments[adjustment])
  }

  // The transactions themselves

  function Apply(l: Ledger, t: Transaction): Result<Ledger> {
    match t
    case OpenAllocation(id, line) =>
      Ok(l.(allocations := l.allocations[id := Allocation(line, line, 0, 0, AllocationStatus.ACTIVE)]))
    case CreateCommitment(id, allocation, amount) => Commit(l, id, allocation, amount)
    case ReleaseCommitment(commitment, seen) => Settle(l, commitment, seen, RELEASED, 0)
    case RecordExpenditure(id, commitment, seen, amount, purpose) => Expend(l, id, commitment, seen, amount, purpose)
    case RequestAdjustment(id, allocation, kind, amount, requestedBy) =>
      if allocation !in l.allocations then Err(NotFound)
      else Ok(l.(adjustments := l.adjustments[id := Adjustment(allocation, kind, amount, requestedBy, PENDING)]))
    case ApproveAdjustment(adjustment, seen) => Approve(l, adjustment, seen)
    case RejectAdjustment(adjustment) =>
      if adjustment !in l.adjustments then Err(NotFound) else Ok(Decide(l, adjustment, REJECTED))
  }

  function Commit(l: Ledger, id: Id, allocation: Id, amount: Positive): Result<Ledger> {
    if allocation !in l.allocations then Err(NotFound)
    else
      var a := l.allocations[allocation];
      if !a.status.ACTIVE? then Err(BadRequest)
      else if amount > Available(a) then Err(Conflict)
      else
        WithAllocation(
          l.(commitments := l.commitments[id := Commitment(allocation, amount, CommitmentStatus.ACTIVE)]),
          allocation, a.(committed := a.committed + amount))
  }

  /** Gives back the whole reservation that was seen, books what was spent, and closes the commitment. */
  function Settle(l: Ledger, commitment: Id, seen: Commitment, status: CommitmentStatus, spent: Money): Result<Ledger> {
    if seen.allocation !in l.allocations || commitment !in l.commitments then Err(NotFound)
    else
      var a := l.allocations[seen.allocation];
      WithAllocation(
        l.(commitments := l.commitments[commitment := l.commitments[commitment].(status := status)]),
        seen.allocation, a.(committed := a.committed - seen.amount, spent := a.spent + spent))
  }

  function Expend(
    l: Ledger, id: Id, commitment: Id, seen: Commitment, amount: Positive, purpose: Purpose): Result<Ledger> {
    var settled := Settle(l, commitment, seen, CONSUMED, amount);
    if settled.Err? then settled
    else if HasExpenditure(l, commitment) then Err(Aborted)
    else
      var row := Expenditure(commitment, seen.allocation, amount, purpose);
      Ok(settled.value.(expenditures := l.expenditures[id := row]))
  }

  function Approve(l: Ledger, adjustment: Id, seen: Adjustment): Result<Ledger> {
    if seen.allocation !in l.allocations || adjustment !in l.adjustments then Err(NotFound)
    else
      var a := l.allocations[seen.allocation];
      var authorized := a.authorized + Signed(seen);
      if seen.kind.DECREASE? && authorized < a.committed + a.spent then Err(Conflict)
      else WithAllocation(Decide(l, adjustment, APPROVED), seen.allocation, a.(authorized := authorized))
  }

  function Decide(l: Ledger, adjustment: Id, status: AdjustmentStatus): Ledger
    requires adjustment in l.adjustments
  {
    l.(adjustments := l.adjustments[adjustment := l.adjustments[adjustment].(status := status)])
  }

  function WithAllocation(l: Ledger, id: Id, a: Allocation): Result<Ledger> {
    if RowCheck(a) then Ok(l.(allocations := l.allocations[id := a])) else Err(Aborted)
  }

  function Signed(j: Adjustment): Money {
    if j.kind.INCREASE? then j.amount else 0 - j.amount
  }

  // What a transaction does to the columns

  /** The row exists and its balances may change by these amounts. */
  ghost predicate Movable(
    allocations: map<Id, Allocation>, id: Id, authorized: Money, committed: Money, spent: Money)
  {
    id in allocations
    && var a := allocations[id];
       0 <= a.committed + committed && 0 <= a.spent + spent
       && a.committed + committed + a.spent + spent <= a.authorized + authorized
  }

  /** Of the allocations only this one changed, and of its columns only the balances, by these amounts. */
  ghost predicate Moved(before: Ledger, after: Ledger, id: Id, authorized: Money, committed: Money, spent: Money) {
    && Movable(before.allocations, id, authorized, committed, spent)
    && var a := before.allocations[id];
       after.allocations
       == before.allocations[id :=
            Allocation(a.line, a.authorized + authorized, a.committed + committed, a.spent + spent, a.status)]
  }

  /**
    * The commitment is consumed, its whole reservation is given back, and the amount is booked as spent for the
    * request; nothing else changed in the budget.
    */
  ghost predicate Bought(
    before: Ledger, after: Ledger, commitment: Id, expenditure: Id, amount: Positive, request: Id)
  {
    && commitment in before.commitments
    && var row := before.commitments[commitment];
       && after.commitments == before.commitments[commitment := Commitment(row.allocation, row.amount, CONSUMED)]
       && after.expenditures
          == before.expenditures[expenditure :=
               Expenditure(commitment, row.allocation, amount, PaymentFor(request))]
       && after.adjustments == before.adjustments
       && Moved(before, after, row.allocation, 0, 0 - row.amount, amount)
  }

  // What the balances are meant to be

  ghost function LiveOn(allocation: Id): Commitment -> int {
    (c: Commitment) => if c.allocation == allocation && c.status.ACTIVE? then c.amount else 0
  }

  ghost function SpentOn(allocation: Id): Expenditure -> int {
    (e: Expenditure) => if e.allocation == allocation then e.amount else 0
  }

  ghost function ApprovedOn(allocation: Id): Adjustment -> int {
    (j: Adjustment) => if j.allocation == allocation && j.status == APPROVED then Signed(j) else 0
  }

  /** How far committedAmount has fallen below the ACTIVE commitments it should equal. */
  ghost function Undercount(l: Ledger, allocation: Id): int {
    if allocation !in l.allocations then 0
    else Sum(l.commitments, LiveOn(allocation)) - l.allocations[allocation].committed
  }

  /** How far authorizedAmount has moved away from the line plus the approved adjustments. */
  ghost function Overauthorized(l: Ledger, allocation: Id): int {
    if allocation !in l.allocations then 0
    else
      var a := l.allocations[allocation];
      a.authorized - (a.line + Sum(l.adjustments, ApprovedOn(allocation)))
  }

  /** Every reference resolves, and an expended commitment is no longer ACTIVE. */
  ghost predicate References(l: Ledger) {
    && (forall c | c in l.commitments :: l.commitments[c].allocation in l.allocations)
    && (forall j | j in l.adjustments :: l.adjustments[j].allocation in l.allocations)
    && (forall e | e in l.expenditures ::
          var row := l.expenditures[e];
          && row.commitment in l.commitments
          && l.commitments[row.commitment].allocation == row.allocation
          && !l.commitments[row.commitment].status.ACTIVE?
          && row.amount <= l.commitments[row.commitment].amount)
    && (forall e, f | e in l.expenditures && f in l.expenditures ::
          l.expenditures[e].commitment == l.expenditures[f].commitment ==> e == f)
  }

  ghost predicate Balanced(l: Ledger, allocation: Id)
    requires allocation in l.allocations
  {
    var a := l.allocations[allocation];
    && RowCheck(a)
    && a.spent == Sum(l.expenditures, SpentOn(allocation))
    && 0 <= Undercount(l, allocation)
  }

  /** The invariant of every interleaving. */
  ghost predicate Sound(l: Ledger) {
    && References(l)
    && (forall a | a in l.allocations :: Balanced(l, a))
  }

  /**
   * A transaction the services can issue: new rows get unused identifiers, and a `seen` row
   * was read from this table at some earlier time, so that it agrees with the present row on
   * the columns nobody updates. The status it was read with says nothing about the present one.
   */
  ghost predicate Issuable(l: Ledger, t: Transaction) {
    match t
    case OpenAllocation(id, _) => id !in l.allocations
    case CreateCommitment(id, _, _) => id !in l.commitments
    case ReleaseCommitment(commitment, seen) => SeenCommitment(l, commitment, seen)
    case RecordExpenditure(id, commitment, seen, amount, _) =>
      id !in l.expenditures && SeenCommitment(l, commitment, seen) && amount <= seen.amount
    case RequestAdjustment(id, _, _, _, _) => id !in l.adjustments
    case ApproveAdjustment(adjustment, seen) => SeenAdjustment(l, adjustment, seen)
    case RejectAdjustment(adjustment) => adjustment in l.adjustments
  }

  ghost predicate SeenCommitment(l: Ledger, commitment: Id, seen: Commitment) {
    commitment in l.commitments && l.commitments[commitment].(status := seen.status) == seen
  }

  ghost predicate SeenAdjustment(l: Ledger, adjustment: Id, seen: Adjustment) {
    adjustment in l.adjustments && l.adjustments[adjustment].(status := seen.status) == seen
  }

  /** What a transaction takes off committedAmount although the commitment had already stopped counting. */
  ghost function StaleAmount(l: Ledger, t: Transaction, allocation: Id): nat {
    if (t.ReleaseCommitment? || t.RecordExpenditure?) && Apply(l, t).Ok? && t.seen.allocation == allocation
       && !l.commitments[t.commitment].status.ACTIVE? then t.seen.amount
    else 0
  }

  /** What a transaction adds to authorizedAmount without an approved adjustment to show for it. */
  ghost function StaleAuthority(l: Ledger, t: Transaction, allocation: Id): int {
    if Apply(l, t).Err? then 0
    else if t.ApproveAdjustment? && t.seenAdjustment.allocation == allocation
            && l.adjustments[t.adjustment].status == APPROVED then Signed(t.seenAdjustment)
    else if t.RejectAdjustment? && l.adjustments[t.adjustment].allocation == allocation
            && l.adjustments[t.adjustment].status == APPROVED then Signed(l.adjustments[t.adjustment])
    else 0
  }

  lemma CommitKept(l: Ledger, id: Id, allocation: Id, amount: Positive)
    requires References(l) && id !in l.commitments && Commit(l, id, allocation, amount).Ok?
    ensures References(Commit(l, id, allocation, amount).value)
  {}

  lemma SettleKept(l: Ledger, commitment: Id, seen: Commitment, status: CommitmentStatus, spent: Money)
    requires References(l) && SeenCommitment(l, commitment, seen) && !status.ACTIVE?
    requires Settle(l, commitment, seen, status, spent).Ok?
    ensures References(Settle(l, commitment, seen, status, spent).value)
  {}

  lemma ExpendKept(l: Ledger, id: Id, commitment: Id, seen: Commitment, amount: Positive, purpose: Purpose)
    requires References(l) && SeenCommitment(l, commitment, seen) && amount <= seen.amount && id !in l.expenditures
    requires Expend(l, id, commitment, seen, amount, purpose).Ok?
    ensures References(Expend(l, id, commitment, seen, amount, purpose).value)
  {
    SettleKept(l, commitment, seen, CONSUMED, amount);
    assert forall e | e in l.expenditures :: l.expenditures[e].commitment != commitment;
  }

  lemma ReferencesKept(l: Ledger, t: Transaction)
    requires References(l) && Issuable(l, t) && Apply(l, t).Ok?
    ensures References(Apply(l, t).value)
  {
    match t
    case CreateCommitment(id, allocation, amount) => CommitKept(l, id, allocation, amount);
    case ReleaseCommitment(c, seen) => SettleKept(l, c, seen, RELEASED, 0);
    case RecordExpenditure(id, c, seen, amount, purpose) => ExpendKept(l, id, c, seen, amount, purpose);
    case _ =>
  }

  lemma CommitMoves(l: Ledger, id: Id, on: Id, amount: Positive, allocation: Id)
    requires id !in l.commitments && Commit(l, id, on, amount).Ok? && allocation in l.allocations
    ensures Undercount(Commit(l, id, on, amount).value, allocation) == Undercount(l, allocation)
  {
    SumPut(l.commitments, id, Commitment(on, amount, CommitmentStatus.ACTIVE), LiveOn(allocation));
  }

  lemma SettleMoves(l: Ledger, c: Id, seen: Commitment, status: CommitmentStatus, spent: Money, allocation: Id)
    requires SeenCommitment(l, c, seen) && !status.ACTIVE? && allocation in l.allocations
    requires Settle(l, c, seen, status, spent).Ok?
    ensures Undercount(Settle(l, c, seen, status, spent).value, allocation)
            == Undercount(l, allocation)
               + if seen.allocation == allocation && !l.commitments[c].status.ACTIVE? then seen.amount else 0
  {
    SumPut(l.commitments, c, l.commitments[c].(status := status), LiveOn(allocation));
  }

  /** Each transaction moves the undercount by exactly its stale amount, and never backwards. */
  lemma UndercountMoves(l: Ledger, t: Transaction, allocation: Id)
    requires Issuable(l, t) && Apply(l, t).Ok? && allocation in l.allocations
    ensures allocation in Apply(l, t).value.allocations
    ensures Undercount(Apply(l, t).value, allocation) == Undercount(l, allocation) + StaleAmount(l, t, allocation)
  {
    match t
    case CreateCommitment(id, on, amount) => CommitMoves(l, id, on, amount, allocation);
    case ReleaseCommitment(c, seen) => SettleMoves(l, c, seen, RELEASED, 0, allocation);
    case RecordExpenditure(_, c, seen, amount, _) => SettleMoves(l, c, seen, CONSUMED, amount, allocation);
    case _ =>
  }

  lemma DecideMoves(l: Ledger, j: Id, status: AdjustmentStatus, allocation: Id)
    requires j in l.adjustments && !status.PENDING?
    ensures var row := l.adjustments[j];
            Sum(Decide(l, j, status).adjustments, ApprovedOn(allocation))
            == Sum(l.adjustments, ApprovedOn(allocation))
               + (if row.allocation == allocation && status.APPROVED? then Signed(row) else 0)
               - (if row.allocation == allocation && row.status.APPROVED? then Signed(row) else 0)
  {
    SumPut(l.adjustments, j, l.adjustments[j].(status := status), ApprovedOn(allocation));
  }

  lemma OverauthorizedMoves(l: Ledger, t: Transaction, allocation: Id)
    requires Issuable(l, t) && Apply(l, t).Ok? && allocation in l.allocations
    ensures allocation in Apply(l, t).value.allocations
    ensures Overauthorized(Apply(l, t).value, allocation)
            == Overauthorized(l, allocation) + StaleAuthority(l, t, allocation)
  {
    match t
    case RequestAdjustment(id, on, kind, amount, requester) =>
      SumPut(l.adjustments, id, Adjustment(on, kind, amount, requester, PENDING), ApprovedOn(allocation));
    case ApproveAdjustment(j, _) => DecideMoves(l, j, APPROVED, allocation);
    case RejectAdjustment(j) => DecideMoves(l, j, REJECTED, allocation);
    case _ =>
  }

  lemma SpentMoves(l: Ledger, t: Transaction, allocation: Id)
    requires References(l) && Issuable(l, t) && Apply(l, t).Ok? && allocation in l.allocations
    requires l.allocations[allocation].spent == Sum(l.expenditures, SpentOn(allocation))
    ensures allocation in Apply(l, t).value.allocations
    ensures Apply(l, t).value.allocations[allocation].spent == Sum(Apply(l, t).value.expenditures, SpentOn(allocation))
  {
    if t.RecordExpenditure? {
      SumPut(l.expenditures, t.id, Expenditure(t.commitment, t.seen.allocation, t.amount, t.purpose),
        SpentOn(allocation));
    }
  }

  /** A new allocation starts with nothing drawn on it. */
  lemma FreshAllocationBalanced(l: Ledger, id: Id, line: nat)
    requires References(l) && id !in l.allocations
    ensures var l' := Apply(l, OpenAllocation(id, line)).value;
            Balanced(l', id) && Undercount(l', id) == 0 && Overauthorized(l', id) == 0
  {
    SumZero(l.commitments, LiveOn(id));
    SumZero(l.expenditures, SpentOn(id));
    SumZero(l.adjustments, ApprovedOn(id));
  }

  /**
   * Safety under stale reads: whatever rows the transactions were decided on, committed + spent stays within
   * authorized, spentAmount is the sum of the expenditures and committedAmount is at most the ACTIVE commitments.
   */
  lemma SoundKept(l: Ledger, t: Transaction)
    requires Sound(l) && Issuable(l, t) && Apply(l, t).Ok?
    ensures Sound(Apply(l, t).value)
  {
    var l' := Apply(l, t).value;
    ReferencesKept(l, t);
    forall a | a in l'.allocations
      ensures Balanced(l', a)
    {
      if a in l.allocations {
        assert Balanced(l, a);
        UndercountMoves(l, t, a);
        SpentMoves(l, t, a);
      } else {
        FreshAllocationBalanced(l, a, t.line);
      }
    }
  }

  /**
   * A release or an expenditure that is not a duplicate is rolled back only when committedAmount would go negative,
   * and never while the commitment is ACTIVE on an allocation that nothing stale has touched.
   */
  lemma SettlementRefused(l: Ledger, t: Transaction)
    requires Sound(l) && Issuable(l, t)
             && (t.ReleaseCommitment? || (t.RecordExpenditure? && !HasExpenditure(l, t.commitment)))
    ensures Apply(l, t).Ok? <==> t.seen.amount <= l.allocations[t.seen.allocation].committed
    ensures Undercount(l, t.seen.allocation) == 0 && l.commitments[t.commitment].status.ACTIVE? ==> Apply(l, t).Ok?
  {
    assert Balanced(l, t.seen.allocation);
    if l.commitments[t.commitment].status.ACTIVE? {
      SumAtLeast(l.commitments, t.commitment, LiveOn(t.seen.allocation));
    }
  }

  /** The guards of createCommitment and approveAdjustment leave nothing for the CHECK constraint to refuse. */
  lemma GuardsSuffice(l: Ledger, t: Transaction)
    requires Sound(l) && Issuable(l, t) && (t.CreateCommitment? || t.ApproveAdjustment?)
    ensures Apply(l, t) != Err(Aborted)
  {
    var on := if t.CreateCommitment? then t.allocation else t.seenAdjustment.allocation;
    assert on in l.allocations ==> Balanced(l, on);
  }

  // Runs

  /** Transactions that fail leave the ledger as it was. */
  function Step(l: Ledger, t: Transaction): Ledger {
    var r := Apply(l, t);
    if r.Ok? then r.value else l
  }

  ghost predicate May(l: Ledger, t: Transaction) {
    Issuable(l, t)
  }

  /** A call whose transaction still finds the row in the status that its guard read. */
  ghost predicate MayFresh(l: Ledger, t: Transaction) {
    && Issuable(l, t)
    && match t {
         case ReleaseCommitment(c, _) => l.commitments[c].status.ACTIVE?
         case RecordExpenditure(_, c, _, _, _) => l.commitments[c].status.ACTIVE?
         case ApproveAdjustment(j, _) => l.adjustments[j].status.PENDING?
         case RejectAdjustment(j) => l.adjustments[j].status.PENDING?
         case _ => true
       }
  }

  ghost function UndercountOn(allocation: Id): Ledger -> int {
    (l: Ledger) => Undercount(l, allocation)
  }

  ghost function OverauthorizedOn(allocation: Id): Ledger -> int {
    (l: Ledger) => Overauthorized(l, allocation)
  }

  ghost function StaleAmountOn(allocation: Id): (Ledger, Transaction) -> int {
    (l: Ledger, t: Transaction) => StaleAmount(l, t, allocation)
  }

  ghost function StaleAuthorityOn(allocation: Id): (Ledger, Transaction) -> int {
    (l: Ledger, t: Transaction) => StaleAuthority(l, t, allocation)
  }

  lemma StepSound(l: Ledger, t: Transaction)
    requires Sound(l) && Issuable(l, t)
    ensures Sound(Step(l, t))
  {
    if Apply(l, t).Ok? {
      SoundKept(l, t);
    }
  }

  lemma UndercountSteps(l: Ledger, t: Transaction, allocation: Id)
    requires References(l) && Issuable(l, t)
    ensures Undercount(Step(l, t), allocation) == Undercount(l, allocation) + StaleAmount(l, t, allocation)
  {
    if Apply(l, t).Ok? {
      if allocation in l.allocations {
        UndercountMoves(l, t, allocation);
        hide Undercount, StaleAmount, Apply;
      } else {
        NothingStale(l, t, allocation);
        hide Apply, StaleAmount;
        if t.OpenAllocation? { FreshAllocationBalanced(l, t.id, t.line); } else { NoNewAllocation(l, t); }
      }
    }
  }

  lemma NothingStale(l: Ledger, t: Transaction, allocation: Id)
    requires References(l) && Issuable(l, t) && allocation !in l.allocations
    ensures StaleAmount(l, t, allocation) == 0
  {
    hide Apply;
  }

  lemma OverauthorizedSteps(l: Ledger, t: Transaction, allocation: Id)
    requires References(l) && Issuable(l, t)
    ensures Overauthorized(Step(l, t), allocation) == Overauthorized(l, allocation) + StaleAuthority(l, t, allocation)
  {
    if Apply(l, t).Ok? {
      if allocation in l.allocations {
        OverauthorizedMoves(l, t, allocation);
      } else if t.OpenAllocation? {
        FreshAllocationBalanced(l, t.id, t.line);
      } else {
        NoNewAllocation(l, t);
      }
    }
  }

  lemma NoNewAllocation(l: Ledger, t: Transaction)
    requires Apply(l, t).Ok? && !t.OpenAllocation?
    ensures Apply(l, t).value.allocations.Keys == l.allocations.Keys
  {}

  lemma SoundAlways()
    ensures Keeps(Step, May, Sound)
  {
    forall l, t | Sound(l) && May(l, t) ensures Sound(Step(l, t)) { StepSound(l, t); }
  }

  /**
   * The account of a whole run: what is missing from committedAmount is exactly what stale transactions took off it.
   */
  lemma CommittedAccount(l: Ledger, ts: seq<Transaction>, allocation: Id)
    requires Sound(l) && IsRun(l, ts, Step, May)
    ensures Undercount(Run(l, ts, Step), allocation)
            == Undercount(l, allocation) + Total(l, ts, Step, StaleAmountOn(allocation))
  {
    SoundAlways();
    var held, stale := UndercountOn(allocation), StaleAmountOn(allocation);
    forall k, t | Sound(k) && May(k, t) ensures held(Step(k, t)) == held(k) + stale(k, t) {
      UndercountSteps(k, t, allocation);
    }
    Telescope(l, ts, Step, May, Sound, held, stale);
  }

  /** Likewise authorizedAmount has too much exactly what decisions on an already approved adjustment added. */
  lemma AuthorizedAccount(l: Ledger, ts: seq<Transaction>, allocation: Id)
    requires Sound(l) && IsRun(l, ts, Step, May)
    ensures Overauthorized(Run(l, ts, Step), allocation)
            == Overauthorized(l, allocation) + Total(l, ts, Step, StaleAuthorityOn(allocation))
  {
    SoundAlways();
    var over, stale := OverauthorizedOn(allocation), StaleAuthorityOn(allocation);
    forall k, t | Sound(k) && May(k, t) ensures over(Step(k, t)) == over(k) + stale(k, t) {
      OverauthorizedSteps(k, t, allocation);
    }
    Telescope(l, ts, Step, May, Sound, over, stale);
  }

  /** The invariant over whole runs, from the empty ledger and with any stale rows. */
  lemma EveryRunSound(ts: seq<Transaction>, allocation: Id)
    requires IsRun(EMPTY, ts, Step, May) && allocation in Run(EMPTY, ts, Step).allocations
    ensures var l := Run(EMPTY, ts, Step);
            var a := l.allocations[allocation];
            && a.committed + a.spent <= a.authorized
            && a.spent == Sum(l.expenditures, SpentOn(allocation))
            && 0 <= a.committed <= Sum(l.commitments, LiveOn(allocation))
  {
    SoundAlways();
    Invariant(EMPTY, ts, Step, May, Sound);
    assert Balanced(Run(EMPTY, ts, Step), allocation);
  }

  /** committedAmount is the sum of the ACTIVE commitments exactly when no release or expenditure was ever stale. */
  lemma ExactIffNothingStale(ts: seq<Transaction>, allocation: Id)
    requires IsRun(EMPTY, ts, Step, May) && allocation in Run(EMPTY, ts, Step).allocations
    ensures var l := Run(EMPTY, ts, Step);
            l.allocations[allocation].committed == Sum(l.commitments, LiveOn(allocation))
            <==> Total(EMPTY, ts, Step, StaleAmountOn(allocation)) == 0
  {
    CommittedAccount(EMPTY, ts, allocation);
  }

  /**
   * authorizedAmount is the line and its approved adjustments exactly when stale decisions added nothing on balance.
   */
  lemma AuthorizedIffNothingStale(ts: seq<Transaction>, allocation: Id)
    requires IsRun(EMPTY, ts, Step, May) && allocation in Run(EMPTY, ts, Step).allocations
    ensures var l := Run(EMPTY, ts, Step);
            l.allocations[allocation].authorized
              == l.allocations[allocation].line + Sum(l.adjustments, ApprovedOn(allocation))
            <==> Total(EMPTY, ts, Step, StaleAuthorityOn(allocation)) == 0
  {
    AuthorizedAccount(EMPTY, ts, allocation);
  }

  lemma FreshCostsNothing(l: Ledger, t: Transaction, allocation: Id)
    requires References(l) && MayFresh(l, t)
    ensures StaleAmount(l, t, allocation) == 0 == StaleAuthority(l, t, allocation)
  {
    hide Apply;
  }

  /** Exact as well as sound. */
  ghost predicate Exact(l: Ledger) {
    && Sound(l)
    && forall a | a in l.allocations :: Undercount(l, a) == 0 && Overauthorized(l, a) == 0
  }

  /**
   * With atomic calls every guard still holds when its transaction runs; the ledger is then exact: committedAmount
   * is the ACTIVE commitments, authorizedAmount the line and its approved adjustments, and nothing is overdrawn.
   */
  lemma AtomicCallsExact(ts: seq<Transaction>, allocation: Id)
    requires IsRun(EMPTY, ts, Step, MayFresh) && allocation in Run(EMPTY, ts, Step).allocations
    ensures var l := Run(EMPTY, ts, Step);
            var a := l.allocations[allocation];
            && a.committed == Sum(l.commitments, LiveOn(allocation))
            && a.spent == Sum(l.expenditures, SpentOn(allocation))
            && a.authorized == a.line + Sum(l.adjustments, ApprovedOn(allocation))
            && Available(a) >= 0
  {
    forall l, t | Exact(l) && MayFresh(l, t) ensures Exact(Step(l, t)) { ExactKept(l, t); }
    Invariant(EMPTY, ts, Step, MayFresh, Exact);
    assert Balanced(Run(EMPTY, ts, Step), allocation);
  }

  lemma ExactEverywhere(l: Ledger, a: Id)
    requires Exact(l)
    ensures Sound(l) && References(l) && Undercount(l, a) == 0 && Overauthorized(l, a) == 0
  {
    hide Balanced, References;
  }

  lemma ExactKept(l: Ledger, t: Transaction)
    requires Exact(l) && MayFresh(l, t)
    ensures Exact(Step(l, t))
  {
    hide Sound, References, Step, Undercount, Overauthorized, StaleAmount, StaleAuthority, Issuable;
    ExactEverywhere(l, 0);
    StepSound(l, t);
    forall a | a in Step(l, t).allocations
      ensures Undercount(Step(l, t), a) == 0 && Overauthorized(Step(l, t), a) == 0
    {
      ExactEverywhere(l, a);
      UndercountSteps(l, t, a);
      OverauthorizedSteps(l, t, a);
      FreshCostsNothing(l, t, a);
    }
  }

  /** Rows are never deleted, settled columns never change, and a commitment never becomes ACTIVE again. */
  ghost predicate Extends(before: Ledger, after: Ledger) {
    && before.allocations.Keys <= after.allocations.Keys
    && (forall e | e in before.expenditures ::
          e in after.expenditures && after.expenditures[e] == before.expenditures[e])
    && (forall c | c in before.commitments ::
          && SeenCommitment(after, c, before.commitments[c])
          && (!before.commitments[c].status.ACTIVE? ==> !after.commitments[c].status.ACTIVE?))
    && (forall j | j in before.adjustments :: SeenAdjustment(after, j, before.adjustments[j]))
  }

  lemma StepExtends(l: Ledger, t: Transaction)
    requires Issuable(l, t)
    ensures Extends(l, Step(l, t))
  {}

  /** Whatever the interleaving, a commitment that was once consumed or released never becomes ACTIVE again. */
  lemma RunExtends(l: Ledger, ts: seq<Transaction>)
    requires Sound(l) && IsRun(l, ts, Step, May)
    ensures Extends(l, Run(l, ts, Step))
  {
    SoundAlways();
    forall k, t | Sound(k) && May(k, t) ensures Extends(k, Step(k, t)) { StepExtends(k, t); }
    Monotone(l, ts, Step, May, Sound, Extends);
  }

  // Runs that go wrong

  lemma ApproveStep(l: Ledger, j: Id, seen: Adjustment)
    requires SeenAdjustment(l, j, seen) && seen.allocation in l.allocations && RowCheck(l.allocations[seen.allocation])
             && seen.kind.INCREASE?
    ensures var a := l.allocations[seen.allocation];
            Step(l, ApproveAdjustment(j, seen)) == Decide(l, j, APPROVED).(
              allocations := l.allocations[seen.allocation := a.(authorized := a.authorized + seen.amount)])
  {}

  /** An approval of an increase adds its amount, and is unaccounted for exactly when it comes second. */
  lemma ApprovalAccount(l: Ledger, j: Id, seen: Adjustment)
    requires Sound(l) && SeenAdjustment(l, j, seen) && seen.kind.INCREASE?
    ensures var next := Step(l, ApproveAdjustment(j, seen));
            && May(l, ApproveAdjustment(j, seen)) && Sound(next) && SeenAdjustment(next, j, seen)
            && seen.allocation in l.allocations && seen.allocation in next.allocations
            && next.allocations[seen.allocation].authorized == l.allocations[seen.allocation].authorized + seen.amount
            && next.adjustments[j].status == APPROVED
            && Overauthorized(next, seen.allocation)
               == Overauthorized(l, seen.allocation) + if l.adjustments[j].status == APPROVED then seen.amount else 0
  {
    hide Sound, Step, Overauthorized;
    ApprovalRows(l, j, seen);
    ApprovalStale(l, j, seen);
    OverauthorizedSteps(l, ApproveAdjustment(j, seen), seen.allocation);
  }

  lemma ApprovalRows(l: Ledger, j: Id, seen: Adjustment)
    requires Sound(l) && SeenAdjustment(l, j, seen) && seen.kind.INCREASE?
    ensures var next := Step(l, ApproveAdjustment(j, seen));
            && May(l, ApproveAdjustment(j, seen)) && Sound(next) && SeenAdjustment(next, j, seen) && References(l)
            && seen.allocation in l.allocations && seen.allocation in next.allocations
            && next.allocations[seen.allocation].authorized == l.allocations[seen.allocation].authorized + seen.amount
            && next.adjustments[j].status == APPROVED
  {
    assert Balanced(l, seen.allocation);
    ApproveStep(l, j, seen);
    StepSound(l, ApproveAdjustment(j, seen));
    hide Sound, Balanced, Step;
  }

  lemma ApprovalStale(l: Ledger, j: Id, seen: Adjustment)
    requires Sound(l) && SeenAdjustment(l, j, seen) && seen.kind.INCREASE?
    ensures StaleAuthority(l, ApproveAdjustment(j, seen), seen.allocation)
            == if l.adjustments[j].status == APPROVED then seen.amount else 0
  {
    assert Balanced(l, seen.allocation);
  }

  lemma ApprovalsRead(l: Ledger, j: Id, actor: User)
    requires Exact(l) && j in l.adjustments && ReadForApproval(l, j, actor).Ok?
    ensures Sound(l) && SeenAdjustment(l, j, l.adjustments[j]) && l.adjustments[j].status.PENDING?
    ensures Overauthorized(l, l.adjustments[j].allocation) == 0
  {}

  lemma ApprovedTwice(l: Ledger, j: Id, seen: Adjustment)
    requires Sound(l) && SeenAdjustment(l, j, seen) && seen.kind.INCREASE? && l.adjustments[j].status.PENDING?
    ensures var t := ApproveAdjustment(j, seen);
            var after := Step(Step(l, t), t);
            && May(l, t) && May(Step(l, t), t) && seen.allocation in l.allocations
               && seen.allocation in after.allocations
            && after.allocations[seen.allocation].authorized
               == l.allocations[seen.allocation].authorized + 2 * seen.amount
            && Overauthorized(after, seen.allocation) == Overauthorized(l, seen.allocation) + seen.amount
  {
    hide Step, May, Sound, Overauthorized;
    ApprovalAccount(l, j, seen);
    ApprovalAccount(Step(l, ApproveAdjustment(j, seen)), j, seen);
  }

  /** Two approvals that both read an increase as PENDING authorize its amount twice. */
  lemma StaleApprovalDoubles(l: Ledger, j: Id, actor: User, t: Transaction)
    requires Exact(l) && ReadForApproval(l, j, actor).Ok? && l.adjustments[j].kind.INCREASE?
    requires t == ApproveAdjustment(j, l.adjustments[j])
    ensures var on, amount, after := l.adjustments[j].allocation, l.adjustments[j].amount, Run(l, [t, t], Step);
            && IsRun(l, [t, t], Step, May) && on in l.allocations && on in after.allocations
            && after.allocations[on].authorized == l.allocations[on].authorized + 2 * amount
            && Overauthorized(after, on) == amount
  {
    ApprovalsRead(l, j, actor);
    hide Step, May, Sound, Overauthorized, Exact;
    RunOfTwo(l, t, t, Step, May);
    ApprovedTwice(l, j, l.adjustments[j]);
  }

  const HELD := Commitment(0, 60, CommitmentStatus.ACTIVE)
  const FULL := map[0 := Allocation(120, 120, 120, 0, AllocationStatus.ACTIVE)]

  /** One allocation of 120, all of it reserved by two commitments of 60. */
  const RESERVED := Ledger(FULL, map[1 := HELD, 2 := HELD], map[], map[])

  lemma ReservedIsSound()
    ensures Exact(RESERVED)
  {
    var none: map<Id, Commitment> := map[];
    SumPut(none, 1, HELD, LiveOn(0));
    SumPut(none[1 := HELD], 2, HELD, LiveOn(0));
    assert RESERVED.commitments == none[1 := HELD][2 := HELD];
  }

  const AFTER: map<Id, Commitment> := map[1 := HELD.(status := RELEASED), 2 := HELD]

  lemma StaleSteps()
    ensures var one := Step(RESERVED, ReleaseCommitment(1, HELD));
            var two := Step(one, ReleaseCommitment(1, HELD));
            && one.allocations == FULL[0 := FULL[0].(committed := 60)] && one.commitments == AFTER
            && two.allocations == FULL[0 := FULL[0].(committed := 0)] && two.commitments == AFTER
  {}

  /**
   * Two releases that both read the commitment as ACTIVE: the second one frees budget that the other commitment
   * still holds, a third commitment takes it, and 180 is reserved out of the 120 authorized.
   */
  lemma StaleReleaseOvercommits(l: Ledger, release: Transaction, commit: Transaction)
    requires l == RESERVED && release == ReleaseCommitment(1, HELD) && commit == CreateCommitment(3, 0, 120)
    ensures Exact(l) && ReadForRelease(l, 1) == Ok(HELD)
    ensures var ts := [release, release, commit];
            && IsRun(l, ts, Step, May)
            && Run(l, ts, Step).allocations == FULL
            && Sum(Run(l, ts, Step).commitments, LiveOn(0)) == 180
  {
    ReservedIsSound();
    RunOfThree(l, release, release, commit, Step, May);
    StaleSteps();
    LastStep(Step(Step(l, release), release));
    SumOfTwo();
    SumPut(AFTER, 3, Commitment(0, 120, CommitmentStatus.ACTIVE), LiveOn(0));
  }

  lemma LastStep(two: Ledger)
    requires two.allocations == FULL[0 := FULL[0].(committed := 0)] && two.commitments == AFTER
    ensures Step(two, CreateCommitment(3, 0, 120)).allocations == FULL
    ensures Step(two, CreateCommitment(3, 0, 120)).commitments
            == AFTER[3 := Commitment(0, 120, CommitmentStatus.ACTIVE)]
  {
    var a := two.allocations[0];
    assert a == Allocation(120, 120, 0, 0, AllocationStatus.ACTIVE);
    var after := Step(two, CreateCommitment(3, 0, 120));
    assert after.allocations == two.allocations[0 := a.(committed := 120)];
    assert two.allocations[0 := a.(committed := 120)] == FULL;
    assert after.commitments == two.commitments[3 := Commitment(0, 120, CommitmentStatus.ACTIVE)];
  }

  lemma SumOfTwo()
    ensures Sum(AFTER, LiveOn(0)) == 60
  {
    var none: map<Id, Commitment> := map[];
    SumPut(none, 1, HELD.(status := RELEASED), LiveOn(0));
    SumPut(none[1 := HELD.(status := RELEASED)], 2, HELD, LiveOn(0));
    assert AFTER == none[1 := HELD.(status := RELEASED)][2 := HELD];
  }
}
