/** The budget services as they run: AllocationsService updating its four tables, and the approval of a budget. */
module BudgetServices {
  import opened Common
  import opened Runs
  import opened Ledger

  class AllocationsService {
    var allocations: map<Id, Allocation>
    var commitments: map<Id, Commitment>
    var expenditures: map<Id, Expenditure>
    var adjustments: map<Id, Adjustment>

    function Contents(): Ledger
      reads this
    {
      Ledger(allocations, commitments, expenditures, adjustments)
    }

    /** Every balance is what the rows say it should be. */
    ghost predicate Valid()
      reads this
    {
      Exact(Contents())
    }

    constructor ()
      ensures Contents() == EMPTY && Valid()
    {
      allocations, commitments, expenditures, adjustments := map[], map[], map[], map[];
    }

    /** One UPDATE of an allocation row; the table's CHECK constraint may refuse it. */
    method UpdateAllocation(id: Id, row: Allocation) returns (ok: bool)
      modifies this`allocations
      ensures ok <==> RowCheck(row)
      ensures allocations == if ok then old(allocations)[id := row] else old(allocations)
    {
      ok := RowCheck(row);
      if ok { allocations := allocations[id := row]; }
    }

    /** Puts the tables back as they were when the transaction began. */
    method Rollback(before: Ledger)
      modifies this
      ensures Contents() == before
    {
      allocations, commitments := before.allocations, before.commitments;
      expenditures, adjustments := before.expenditures, before.adjustments;
    }

    /** The transaction of createCommitment: lock, check, reserve, insert. */
    method CommitTransaction(id: Id, allocation: Id, amount: Positive) returns (r: Result<Commitment>)
      modifies this
      ensures Contents() == Step(old(Contents()), Transaction.CreateCommitment(id, allocation, amount))
      ensures r.Err? <==> Apply(old(Contents()), Transaction.CreateCommitment(id, allocation, amount)).Err?
      ensures r == Err(NotFound) <==> allocation !in old(allocations)
      ensures r == Err(BadRequest) <==> allocation in old(allocations) && !old(allocations[allocation]).status.ACTIVE?
      ensures r == Err(Conflict) <==>
                allocation in old(allocations) && old(allocations[allocation]).status.ACTIVE?
                && var a := old(allocations[allocation]); a.authorized < a.committed + a.spent + amount
      ensures r.Ok? ==>
                && allocation in old(allocations) && old(allocations[allocation]).status.ACTIVE?
                && r.value == Commitment(allocation, amount, CommitmentStatus.ACTIVE)
                && commitments == old(commitments)[id := r.value]
                && expenditures == old(expenditures) && adjustments == old(adjustments)
                && Moved(old(Contents()), Contents(), allocation, 0, amount, 0)
      ensures r.Err? ==> Contents() == old(Contents())
    {
      if allocation !in allocations { return Err(NotFound); }
      var locked := allocations[allocation];
      if !locked.status.ACTIVE? { return Err(BadRequest); }
      if amount > Available(locked) { return Err(Conflict); }
      var ok := UpdateAllocation(allocation, locked.(committed := locked.committed + amount));
      if !ok { return Err(Aborted); }
      var row := Commitment(allocation, amount, CommitmentStatus.ACTIVE);
      commitments := commitments[id := row];
      r := Ok(row);
    }

    /** The transaction of releaseCommitment, on the row that was read before it and may be stale by now. */
    method ReleaseTransaction(commitment: Id, seen: Commitment) returns (r: Result<Commitment>)
      modifies this
      ensures Contents() == Step(old(Contents()), Transaction.ReleaseCommitment(commitment, seen))
      ensures r.Err? <==> Apply(old(Contents()), Transaction.ReleaseCommitment(commitment, seen)).Err?
      ensures r.Ok? <==> commitment in old(commitments)
                         && Movable(old(allocations), seen.allocation, 0, 0 - seen.amount, 0)
      ensures r.Ok? ==>
                && r.value == old(commitments)[commitment].(status := RELEASED)
                && commitments == old(commitments)[commitment := r.value]
                && expenditures == old(expenditures) && adjustments == old(adjustments)
                && Moved(old(Contents()), Contents(), seen.allocation, 0, 0 - seen.amount, 0)
      ensures r.Err? ==> Contents() == old(Contents())
    {
      if seen.allocation !in allocations || commitment !in commitments { return Err(NotFound); }
      var locked := allocations[seen.allocation];
      var ok := UpdateAllocation(seen.allocation, locked.(committed := locked.committed - seen.amount));
      if !ok { return Err(Aborted); }
      commitments := commitments[commitment := commitments[commitment].(status := RELEASED)];
      r := Ok(commitments[commitment]);
    }

    /** The transaction of createExpenditure. The unique commitment reference comes last and may undo it all. */
    method ExpenditureTransaction(id: Id, commitment: Id, seen: Commitment, amount: Positive, purpose: Purpose)
      returns (r: Result<Expenditure>)
      modifies this
      ensures Contents() == Step(old(Contents()), RecordExpenditure(id, commitment, seen, amount, purpose))
      ensures r.Err? <==> Apply(old(Contents()), RecordExpenditure(id, commitment, seen, amount, purpose)).Err?
      ensures r.Ok? <==>
                && commitment in old(commitments)
                && Movable(old(allocations), seen.allocation, 0, 0 - seen.amount, amount)
                && forall e :: e in old(expenditures) ==> old(expenditures)[e].commitment != commitment
      ensures r.Ok? ==>
                && r.value == Expenditure(commitment, seen.allocation, amount, purpose)
                && expenditures == old(expenditures)[id := r.value]
                && commitments == old(commitments)[commitment := old(commitments)[commitment].(status := CONSUMED)]
                && adjustments == old(adjustments)
                && Moved(old(Contents()), Contents(), seen.allocation, 0, 0 - seen.amount, amount)
      ensures r.Err? ==> Contents() == old(Contents())
    {
      var before := Contents();
      if seen.allocation !in allocations || commitment !in commitments { return Err(NotFound); }
      var locked := allocations[seen.allocation];
      var ok := UpdateAllocation(seen.allocation,
                                 locked.(committed := locked.committed - seen.amount, spent := locked.spent + amount));
      if !ok { return Err(Aborted); }
      commitments := commitments[commitment := commitments[commitment].(status := CONSUMED)];
      if HasExpenditure(before, commitment) {
        Rollback(before);
        return Err(Aborted);
      }
      var row := Expenditure(commitment, seen.allocation, amount, purpose);
      expenditures := expenditures[id := row];
      r := Ok(row);
    }

    /** The transaction of approveAdjustment, on the row that was read before it. */
    method ApproveTransaction(adjustment: Id, seen: Adjustment) returns (r: Result<Adjustment>)
      modifies this
      ensures Contents() == Step(old(Contents()), Transaction.ApproveAdjustment(adjustment, seen))
      ensures r.Err? <==> Apply(old(Contents()), Transaction.ApproveAdjustment(adjustment, seen)).Err?
      ensures r.Ok? <==>
                adjustment in old(adjustments)
                && Movable(old(allocations), seen.allocation, if seen.kind.INCREASE? then seen.amount
                   else 0 - seen.amount,
                           0, 0)
      ensures r.Ok? ==>
                && r.value == old(adjustments)[adjustment].(status := AdjustmentStatus.APPROVED)
                && adjustments == old(adjustments)[adjustment := r.value]
                && commitments == old(commitments) && expenditures == old(expenditures)
                && Moved(old(Contents()), Contents(), seen.allocation,
                         if seen.kind.INCREASE? then seen.amount else 0 - seen.amount, 0, 0)
      ensures r.Err? ==> Contents() == old(Contents())
    {
      if seen.allocation !in allocations || adjustment !in adjustments { return Err(NotFound); }
      var locked := allocations[seen.allocation];
      var newAuthorized: Money;
      if seen.kind.INCREASE? {
        newAuthorized := locked.authorized + seen.amount;
      } else {
        newAuthorized := locked.authorized - seen.amount;
        if newAuthorized < locked.committed + locked.spent { return Err(Conflict); }
      }
      var ok := UpdateAllocation(seen.allocation, locked.(authorized := newAuthorized));
      if !ok { return Err(Aborted); }
      adjustments := adjustments[adjustment := adjustments[adjustment].(status := AdjustmentStatus.APPROVED)];
      r := Ok(adjustments[adjustment]);
    }

    // Whole calls, not overtaken between their guard and their transaction

    /** Reserves budget exactly when the allocation is ACTIVE and has it available. */
    method CreateCommitment(id: Id, allocation: Id, amount: Positive) returns (r: Result<Commitment>)
      requires Valid() && id !in commitments
      modifies this
      ensures Valid()
      ensures r.Ok? <==>
                allocation in old(allocations) && old(allocations[allocation]).status.ACTIVE?
                && var a := old(allocations[allocation]); a.committed + a.spent + amount <= a.authorized
      ensures r.Ok? ==>
                && r.value == Commitment(allocation, amount, CommitmentStatus.ACTIVE)
                && commitments == old(commitments)[id := r.value]
                && expenditures == old(expenditures) && adjustments == old(adjustments)
                && Moved(old(Contents()), Contents(), allocation, 0, amount, 0)
      ensures r.Err? ==> Contents() == old(Contents())
      ensures Contents() == Step(old(Contents()), Transaction.CreateCommitment(id, allocation, amount))
    {
      hide Exact;
      ExactKept(Contents(), Transaction.CreateCommitment(id, allocation, amount));
      FreshCommits(Contents(), id, allocation, amount);
      r := CommitTransaction(id, allocation, amount);
    }

    /** Gives the reservation of an ACTIVE commitment back. */
    method ReleaseCommitment(commitment: Id) returns (r: Result<Commitment>)
      requires Valid()
      modifies this
      ensures Valid()
      ensures r.Ok? <==> commitment in old(commitments) && old(commitments[commitment]).status.ACTIVE?
      ensures r.Ok? ==>
                && commitments == old(commitments)[commitment := old(commitments[commitment]).(status := RELEASED)]
                && expenditures == old(expenditures) && adjustments == old(adjustments)
                && Moved(old(Contents()), Contents(), old(commitments[commitment]).allocation, 0,
                         0 - old(commitments[commitment]).amount, 0)
      ensures r.Err? ==> Contents() == old(Contents())
    {
      if commitment !in commitments { return Err(NotFound); }
      var existing := commitments[commitment];
      if !existing.status.ACTIVE? { return Err(BadRequest); }
      ExactKept(Contents(), Transaction.ReleaseCommitment(commitment, existing));
      FreshSettles(Contents(), Transaction.ReleaseCommitment(commitment, existing));
      r := ReleaseTransaction(commitment, existing);
    }

    /** Spends from an ACTIVE commitment that covers the amount, and consumes it. */
    method CreateExpenditure(
      id: Id, commitment: Id, amount: Positive, purpose: Purpose) returns (r: Result<Expenditure>)
      requires Valid() && id !in expenditures
      modifies this
      ensures Valid()
      ensures r.Ok? <==> commitment in old(commitments) && old(commitments[commitment]).status.ACTIVE?
                         && amount <= old(commitments[commitment]).amount
      ensures r.Ok? ==> expenditures == old(expenditures)[id := r.value]
                        && r.value == Expenditure(commitment, old(commitments[commitment]).allocation, amount, purpose)
      ensures r.Ok? ==>
                && commitments == old(commitments)[commitment := old(commitments[commitment]).(status := CONSUMED)]
                && adjustments == old(adjustments)
                && Moved(old(Contents()), Contents(), r.value.allocation, 0, 0 - old(commitments[commitment]).amount,
                         amount)
      ensures r.Err? ==> Contents() == old(Contents())
    {
      hide Exact, Apply;
      if commitment !in commitments { return Err(NotFound); }
      var existing := commitments[commitment];
      if !existing.status.ACTIVE? { return Err(BadRequest); }
      if amount > existing.amount { return Err(BadRequest); }
      ExactKept(Contents(), RecordExpenditure(id, commitment, existing, amount, purpose));
      FreshSettles(Contents(), RecordExpenditure(id, commitment, existing, amount, purpose));
      r := ExpenditureTransaction(id, commitment, existing, amount, purpose);
    }

    /** Somebody else than the requester approves a pending adjustment that the budget can bear. */
    method ApproveAdjustment(adjustment: Id, actor: User) returns (r: Result<Adjustment>)
      requires Valid()
      modifies this
      ensures Valid()
      ensures r.Ok? <==> adjustment in old(adjustments) && old(adjustments[adjustment]).status.PENDING?
                         && old(adjustments[adjustment]).requestedBy != actor
                         && Affordable(old(Contents()), old(adjustments[adjustment]))
      ensures r.Ok? ==>
              adjustments
                == old(adjustments)[adjustment := old(adjustments[adjustment]).(status := AdjustmentStatus.APPROVED)]
      ensures r.Ok? ==>
                var j := old(adjustments[adjustment]);
                commitments == old(commitments) && expenditures == old(expenditures) &&
                Moved(old(Contents()), Contents(), j.allocation, if j.kind.INCREASE? then j.amount
                  else 0 - j.amount, 0, 0)
      ensures r.Err? ==> Contents() == old(Contents())
    {
      hide Exact, Apply, Affordable;
      if adjustment !in adjustments { return Err(NotFound); }
      var existing := adjustments[adjustment];
      if existing.requestedBy == actor { return Err(Forbidden); }
      if existing.status != PENDING { return Err(BadRequest); }
      ExactKept(Contents(), Transaction.ApproveAdjustment(adjustment, existing));
      FreshApproves(Contents(), adjustment);
      r := ApproveTransaction(adjustment, existing);
    }

    method CreateAdjustment(
      id: Id, allocation: Id, kind: AdjustmentKind, amount: Positive, actor: User) returns (r: Result<Adjustment>)
      requires Valid() && id !in adjustments
      modifies this
      ensures Valid()
      ensures r.Ok? <==> allocation in old(allocations)
      ensures r.Ok? ==> r.value == Adjustment(allocation, kind, amount, actor, PENDING)
      ensures Contents() == if r.Ok? then old(Contents()).(adjustments := old(adjustments)[id := r.value])
              else old(Contents())
    {
      if allocation !in allocations { return Err(NotFound); }
      ExactKept(Contents(), Transaction.RequestAdjustment(id, allocation, kind, amount, actor));
      var row := Adjustment(allocation, kind, amount, actor, PENDING);
      adjustments := adjustments[id := row];
      r := Ok(row);
    }

    method RejectAdjustment(adjustment: Id) returns (r: Result<Adjustment>)
      requires Valid()
      modifies this
      ensures Valid()
      ensures r.Ok? <==> adjustment in old(adjustments) && old(adjustments[adjustment]).status.PENDING?
      ensures allocations == old(allocations) && commitments == old(commitments) && expenditures == old(expenditures)
      ensures adjustments ==
              if r.Ok?
                then old(adjustments)[adjustment := old(adjustments[adjustment]).(status := AdjustmentStatus.REJECTED)]
              else old(adjustments)
    {
      hide Exact;
      if adjustment !in adjustments { return Err(NotFound); }
      if adjustments[adjustment].status != PENDING { return Err(BadRequest); }
      ExactKept(Contents(), Transaction.RejectAdjustment(adjustment));
      adjustments := adjustments[adjustment := adjustments[adjustment].(status := AdjustmentStatus.REJECTED)];
      r := Ok(adjustments[adjustment]);
    }

    method OpenAllocation(id: Id, line: nat)
      requires Valid() && id !in allocations
      modifies this`allocations
      ensures Valid()
      ensures allocations == old(allocations)[id := Allocation(line, line, 0, 0, AllocationStatus.ACTIVE)]
    {
      ExactKept(Contents(), Transaction.OpenAllocation(id, line));
      allocations := allocations[id := Allocation(line, line, 0, 0, AllocationStatus.ACTIVE)];
    }

    /** The approval of a budget opens one allocation for each of its lines, authorized for the line's amount. */
    method OpenForBudget(ids: seq<Id>, lines: seq<nat>)
      requires Valid() && |ids| == |lines|
      requires forall i | 0 <= i < |ids| :: ids[i] !in allocations
      requires forall i, j | 0 <= i < j < |ids| :: ids[i] != ids[j]
      modifies this`allocations
      ensures Valid()
      ensures forall i | 0 <= i < |ids| ::
                ids[i] in allocations
                  && allocations[ids[i]] == Allocation(lines[i], lines[i], 0, 0, AllocationStatus.ACTIVE)
      ensures allocations.Keys == old(allocations).Keys + (set id | id in ids)
      ensures forall a :: a in old(allocations) ==> a in allocations && allocations[a] == old(allocations)[a]
    {
      hide Exact;
      for n := 0 to |ids|
        invariant Valid()
        invariant forall i | 0 <= i < n ::
                    ids[i] in allocations
                      && allocations[ids[i]] == Allocation(lines[i], lines[i], 0, 0, AllocationStatus.ACTIVE)
        invariant allocations.Keys == old(allocations).Keys + (set id | id in ids[..n])
        invariant forall a :: a in old(allocations) ==> a in allocations && allocations[a] == old(allocations)[a]
      {
        assert ids[n] !in allocations;
        OpenAllocation(ids[n], lines[n]);
        assert ids[..n + 1] == ids[..n] + [ids[n]];
      }
      assert ids[..|ids|] == ids;
    }
  }

  datatype BudgetStatus = DRAFT | PENDING_APPROVAL | APPROVED | REJECTED
  datatype Budget = Budget(createdBy: User, lines: seq<nat>, status: BudgetStatus)

  class BudgetsService {
    const allocations: AllocationsService
    var budgets: map<Id, Budget>

    constructor (allocations: AllocationsService)
      ensures this.allocations == allocations && budgets == map[]
    {
      this.allocations, budgets := allocations, map[];
    }

    method Submit(id: Id) returns (r: Result<Budget>)
      modifies this
      ensures r.Ok? <==> id in old(budgets) && old(budgets)[id].status == DRAFT
      ensures budgets == if r.Ok? then old(budgets)[id := old(budgets)[id].(status := PENDING_APPROVAL)]
              else old(budgets)
    {
      if id !in budgets { return Err(NotFound); }
      if budgets[id].status != DRAFT { return Err(BadRequest); }
      budgets := budgets[id := budgets[id].(status := PENDING_APPROVAL)];
      r := Ok(budgets[id]);
    }

    /** Somebody else than its creator approves a pending budget; each of its lines gets an allocation of its amount. */
    method ApproveBudget(id: Id, actor: User, ids: seq<Id>) returns (r: Result<Budget>)
      requires allocations.Valid() && (id in budgets ==> |ids| == |budgets[id].lines|)
      requires forall i | 0 <= i < |ids| :: ids[i] !in allocations.allocations
      requires forall i, j | 0 <= i < j < |ids| :: ids[i] != ids[j]
      modifies this, allocations`allocations
      ensures allocations.Valid()
      ensures r.Ok? <==>
              id in old(budgets) && old(budgets)[id].createdBy != actor && old(budgets)[id].status == PENDING_APPROVAL
      ensures budgets == if r.Ok? then old(budgets)[id := old(budgets)[id].(status := BudgetStatus.APPROVED)]
              else old(budgets)
      ensures r.Err? ==> allocations.allocations == old(allocations.allocations)
      ensures r.Ok? ==>
                && |r.value.lines| == |ids| && budgets[id] == r.value
                && allocations.allocations.Keys == old(allocations.allocations).Keys + (set a | a in ids)
                && (forall i | 0 <= i < |ids| ::
                      ids[i] in allocations.allocations
                      && allocations.allocations[ids[i]]
                         == Allocation(r.value.lines[i], r.value.lines[i], 0, 0, AllocationStatus.ACTIVE))
                && forall a :: a in old(allocations.allocations) ==>
                     a in allocations.allocations && allocations.allocations[a] == old(allocations.allocations)[a]
    {
      if id !in budgets { return Err(NotFound); }
      if budgets[id].createdBy == actor { return Err(Forbidden); }
      if budgets[id].status != PENDING_APPROVAL { return Err(BadRequest); }
      budgets := budgets[id := budgets[id].(status := BudgetStatus.APPROVED)];
      allocations.OpenForBudget(ids, budgets[id].lines);
      r := Ok(budgets[id]);
    }

    method Reject(id: Id) returns (r: Result<Budget>)
      modifies this
      ensures r.Ok? <==> id in old(budgets) && old(budgets)[id].status == PENDING_APPROVAL
      ensures budgets == if r.Ok? then old(budgets)[id := old(budgets)[id].(status := BudgetStatus.REJECTED)]
              else old(budgets)
    {
      if id !in budgets { return Err(NotFound); }
      if budgets[id].status != PENDING_APPROVAL { return Err(BadRequest); }
      budgets := budgets[id := budgets[id].(status := BudgetStatus.REJECTED)];
      r := Ok(budgets[id]);
    }
  }

  /** A decrease must leave what is already committed and spent authorized. */
  ghost predicate Affordable(l: Ledger, j: Adjustment) {
    j.allocation in l.allocations
    && var a := l.allocations[j.allocation];
       j.kind.DECREASE? ==> a.committed + a.spent <= a.authorized - j.amount
  }

  /** On an exact ledger a transaction whose guard still holds is never refused. */
  lemma FreshSettles(l: Ledger, t: Transaction)
    requires Exact(l) && MayFresh(l, t) && (t.ReleaseCommitment? || t.RecordExpenditure?)
    ensures Apply(l, t).Ok?
  {
    assert !HasExpenditure(l, t.commitment);
    SettlementRefused(l, t);
    assert Undercount(l, t.seen.allocation) == 0;
  }

  lemma FreshCommits(l: Ledger, id: Id, allocation: Id, amount: Positive)
    requires Exact(l) && id !in l.commitments
    ensures Apply(l, Transaction.CreateCommitment(id, allocation, amount)) != Err(Aborted)
  {
    GuardsSuffice(l, Transaction.CreateCommitment(id, allocation, amount));
  }

  lemma FreshApproves(l: Ledger, adjustment: Id)
    requires Exact(l) && adjustment in l.adjustments && l.adjustments[adjustment].status.PENDING?
    ensures var t := Transaction.ApproveAdjustment(adjustment, l.adjustments[adjustment]);
            && (Apply(l, t).Ok? <==> Affordable(l, l.adjustments[adjustment]))
            && Step(l, t).adjustments
               == (if Apply(l, t).Ok? then Decide(l, adjustment, AdjustmentStatus.APPROVED).adjustments
                 else l.adjustments)
            && (Apply(l, t).Err? ==> Step(l, t) == l)
  {
    GuardsSuffice(l, Transaction.ApproveAdjustment(adjustment, l.adjustments[adjustment]));
  }
}
