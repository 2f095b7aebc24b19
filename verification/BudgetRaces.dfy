/**
 * Budgets and the allocations opened on their approval, under calls of BudgetsService that overtake each other: each
 * checks the budget's status and writes later. An allocation belongs to one budget line, and that reference is unique.
 */
module BudgetRaces {
  import opened Common
  import opened Runs

  datatype BudgetStatus = DRAFT | PENDING_APPROVAL | APPROVED | REJECTED
  datatype Budget = Budget(createdBy: User, status: BudgetStatus, approvedBy: Option<User>)
  datatype Line = Line(budget: Id, amount: nat)

  /** `funded` holds the authorized amount of each allocation under the line it was funded for. */
  datatype Tables = Tables(budgets: map<Id, Budget>, lines: map<Id, Line>, funded: map<Id, nat>)

  datatype Write =
    | Draft(budget: Id, amounts: map<Id, nat>, actor: User)
    | Submit(budget: Id)
    | Approve(budget: Id, actor: User)
    | Reject(budget: Id)

  predicate IsLine(s: Tables, b: Id, line: Id) {
    line in s.lines && s.lines[line].budget == b
  }

  predicate AllOpen(s: Tables, b: Id) {
    forall line :: line in s.lines && IsLine(s, b, line) ==> line in s.funded
  }

  predicate NoneOpen(s: Tables, b: Id) {
    forall line :: line in s.lines && IsLine(s, b, line) ==> line !in s.funded
  }

  predicate HasLine(s: Tables, b: Id) {
    exists line :: line in s.lines && IsLine(s, b, line)
  }

  function StatusOf(s: Tables, b: Id): Option<BudgetStatus> {
    if b in s.budgets then Some(s.budgets[b].status) else None
  }

  predicate Guard(s: Tables, w: Write) {
    match w
    case Draft(b, amounts, _) => b !in s.budgets && amounts != map[] && amounts.Keys !! s.lines.Keys
    case Submit(b) => StatusOf(s, b) == Some(DRAFT)
    case Approve(b, actor) => StatusOf(s, b) == Some(PENDING_APPROVAL) && s.budgets[b].createdBy != actor
    case Reject(b) => StatusOf(s, b) == Some(PENDING_APPROVAL)
  }

  function SetStatus(s: Tables, b: Id, status: BudgetStatus): Tables {
    if b in s.budgets then s.(budgets := s.budgets[b := s.budgets[b].(status := status)]) else s
  }

  /** The allocations of a budget's lines, at the lines' amounts. */
  function Opening(s: Tables, b: Id): map<Id, nat> {
    map line | line in s.lines && IsLine(s, b, line) :: s.lines[line].amount
  }

  /** The write, one statement or transaction; opening a line a second time rolls an approval back. */
  function Apply(s: Tables, w: Write): Tables {
    match w
    case Draft(b, amounts, actor) =>
      if b in s.budgets || !(amounts.Keys !! s.lines.Keys) then s
      else
        s.(budgets := s.budgets[b := Budget(actor, DRAFT, None)],
           lines := s.lines + map line | line in amounts :: Line(b, amounts[line]))
    case Submit(b) => SetStatus(s, b, PENDING_APPROVAL)
    case Approve(b, actor) =>
      if b !in s.budgets || !NoneOpen(s, b) then s
      else
        s.(budgets := s.budgets[b := s.budgets[b].(status := APPROVED, approvedBy := Some(actor))],
           funded := s.funded + Opening(s, b))
    case Reject(b) => SetStatus(s, b, REJECTED)
  }

  /** The tables and the writes of the calls that have passed their check, of which several may be the same. */
  datatype Race = Race(tables: Tables, pending: multiset<Write>)

  datatype Move = Check(w: Write) | Do(w: Write)

  predicate MayRace(r: Race, m: Move) {
    match m
    case Check(w) => Guard(r.tables, w)
    case Do(w) => w in r.pending
  }

  function Step(r: Race, m: Move): Race {
    match m
    case Check(w) => r.(pending := r.pending + multiset{w})
    case Do(w) => Race(Apply(r.tables, w), r.pending - multiset{w})
  }

  const IDLE := Race(Tables(map[], map[], map[]), multiset{})

  /** On what a call goes on to its write. */
  ghost predicate Admits(s: Tables, w: Write) {
    match w
    case Draft(b, amounts, _) => b !in s.budgets && amounts != map[] && forall l :: l in amounts ==> l !in s.lines
    case Submit(b) => b in s.budgets && s.budgets[b].status == DRAFT
    case Approve(b, actor) =>
      b in s.budgets && s.budgets[b].status == PENDING_APPROVAL && s.budgets[b].createdBy != actor
    case Reject(b) => b in s.budgets && s.budgets[b].status == PENDING_APPROVAL
  }

  /** Only this budget's row changed, to this status and approver. */
  ghost predicate Moved(s: Tables, t: Tables, b: Id, status: BudgetStatus, approvedBy: Option<User>) {
    && b in s.budgets && t.lines == s.lines
    && t.budgets == s.budgets[b := Budget(s.budgets[b].createdBy, status, approvedBy)]
  }

  /** What a write leaves when it is made, possibly late, on a budget that exists. */
  ghost predicate Leaves(s: Tables, t: Tables, w: Write) {
    match w
    case Draft(b, amounts, actor) =>
      && b !in s.budgets && t.budgets == s.budgets[b := Budget(actor, DRAFT, None)] && t.funded == s.funded
      && t.lines.Keys == s.lines.Keys + amounts.Keys
      && (forall l :: l in s.lines ==> t.lines[l] == s.lines[l])
      && (forall l :: l in amounts ==> t.lines[l] == Line(b, amounts[l]))
    case Submit(b) =>
      b in s.budgets && Moved(s, t, b, PENDING_APPROVAL, s.budgets[b].approvedBy) && t.funded == s.funded
    case Approve(b, actor) =>
      && Moved(s, t, b, APPROVED, Some(actor))
      && (forall l :: l in t.funded <==> l in s.funded || (l in s.lines && s.lines[l].budget == b))
      && (forall l :: l in s.funded ==> t.funded[l] == s.funded[l])
      && (forall l :: l in s.lines && s.lines[l].budget == b ==> t.funded[l] == s.lines[l].amount)
    case Reject(b) => b in s.budgets && Moved(s, t, b, REJECTED, s.budgets[b].approvedBy) && t.funded == s.funded
  }

  /** An approval is rolled back when a line of the budget has its allocation already. */
  lemma WritesDecide(s: Tables, w: Write)
    requires !w.Draft? ==> w.budget in s.budgets
    ensures Guard(s, w) <==> Admits(s, w)
    ensures w.Draft? && Admits(s, w) ==> Leaves(s, Apply(s, w), w)
    ensures w.Submit? || w.Reject? ==> Leaves(s, Apply(s, w), w)
    ensures w.Approve? ==>
              if forall l :: l in s.lines && s.lines[l].budget == w.budget ==> l !in s.funded
              then Leaves(s, Apply(s, w), w) else Apply(s, w) == s
  {}

  // What every interleaving keeps

  /** A budget's lines are funded together or not at all, and never by its creator. */
  predicate BudgetOk(s: Tables, b: Id)
    requires b in s.budgets
  {
    && HasLine(s, b)
    && (AllOpen(s, b) || NoneOpen(s, b))
    && (s.budgets[b].status == APPROVED ==> AllOpen(s, b))
    && (AllOpen(s, b) ==> s.budgets[b].approvedBy.Some? && s.budgets[b].approvedBy != Some(s.budgets[b].createdBy))
  }

  predicate LinesOk(s: Tables) {
    && (forall line :: line in s.lines ==> s.lines[line].budget in s.budgets)
    && (forall line :: line in s.funded ==> line in s.lines && s.funded[line] == s.lines[line].amount)
  }

  predicate TablesOk(s: Tables) {
    LinesOk(s) && forall b :: b in s.budgets ==> BudgetOk(s, b)
  }

  predicate PendingOk(s: Tables, w: Write) {
    match w
    case Draft(_, amounts, _) => amounts != map[]
    case Approve(b, actor) => b in s.budgets && s.budgets[b].createdBy != actor
    case _ => true
  }

  predicate RaceInv(r: Race) {
    TablesOk(r.tables) && forall w :: w in r.pending ==> PendingOk(r.tables, w)
  }

  /** Lines and allocations are never removed or changed, and a budget keeps its creator and its lines. */
  predicate Grew(s: Tables, t: Tables) {
    && (forall b :: b in s.budgets ==> b in t.budgets && t.budgets[b].createdBy == s.budgets[b].createdBy)
    && (forall line :: line in s.lines ==> line in t.lines && t.lines[line] == s.lines[line])
    && (forall line :: line in t.lines && line !in s.lines ==> t.lines[line].budget !in s.budgets)
    && (forall line :: line in s.funded ==> line in t.funded && t.funded[line] == s.funded[line])
  }

  lemma ApplyGrew(s: Tables, w: Write)
    requires LinesOk(s)
    ensures Grew(s, Apply(s, w)) && LinesOk(Apply(s, w))
  {
    hide AllOpen;
  }

  predicate Concerns(w: Write, b: Id) {
    !w.Draft? && w.budget == b
  }

  /** The budget's lines, and which of them are funded, are the same. */
  lemma SameLines(s: Tables, u: Tables, b: Id)
    requires forall line :: (line in s.lines && IsLine(s, b, line)) <==> (line in u.lines && IsLine(u, b, line))
    requires forall line :: line in s.lines && IsLine(s, b, line) ==> (line in s.funded <==> line in u.funded)
    ensures (AllOpen(u, b) <==> AllOpen(s, b)) && (NoneOpen(u, b) <==> NoneOpen(s, b))
            && (HasLine(u, b) <==> HasLine(s, b))
  {
    hide IsLine;
    if HasLine(s, b) {
      var line :| line in s.lines && IsLine(s, b, line);
      assert line in u.lines && IsLine(u, b, line);
    }
  }

  lemma OthersSame(s: Tables, w: Write, b: Id)
    requires LinesOk(s) && b in s.budgets && !Concerns(w, b)
    ensures var u := Apply(s, w);
            b in u.budgets && u.budgets[b] == s.budgets[b]
            && (AllOpen(u, b) <==> AllOpen(s, b)) && (NoneOpen(u, b) <==> NoneOpen(s, b))
               && (HasLine(u, b) <==> HasLine(s, b))
  {
    ApplyGrew(s, w);
    hide AllOpen, NoneOpen, HasLine;
    SameLines(s, Apply(s, w), b);
  }

  lemma StatusSame(s: Tables, b: Id, status: BudgetStatus)
    requires b in s.budgets
    ensures var u := SetStatus(s, b, status);
            b in u.budgets && u.budgets[b] == s.budgets[b].(status := status)
            && (AllOpen(u, b) <==> AllOpen(s, b)) && (NoneOpen(u, b) <==> NoneOpen(s, b))
               && (HasLine(u, b) <==> HasLine(s, b))
  {
    hide AllOpen, NoneOpen, HasLine;
    SameLines(s, SetStatus(s, b, status), b);
  }

  lemma ApprovalOpens(s: Tables, b: Id, actor: User)
    requires b in s.budgets && HasLine(s, b) && NoneOpen(s, b)
    ensures var u := Apply(s, Approve(b, actor));
            b in u.budgets && u.budgets[b] == s.budgets[b].(status := APPROVED, approvedBy := Some(actor))
            && AllOpen(u, b) && !NoneOpen(u, b) && HasLine(u, b)
            && forall line :: line in u.lines && IsLine(u, b, line) ==>
               line in u.funded && u.funded[line] == u.lines[line].amount
  {
    var u := Apply(s, Approve(b, actor));
    var line :| line in s.lines && IsLine(s, b, line);
    assert line in u.lines && IsLine(u, b, line) && line in u.funded;
  }

  lemma NotBoth(s: Tables, b: Id)
    requires HasLine(s, b)
    ensures !(AllOpen(s, b) && NoneOpen(s, b))
  {}

  lemma BudgetKept(s: Tables, w: Write, b: Id)
    requires TablesOk(s) && PendingOk(s, w) && b in Apply(s, w).budgets
    ensures BudgetOk(Apply(s, w), b)
  {
    hide AllOpen, NoneOpen, HasLine, LinesOk;
    if b !in s.budgets {
      NewBudget(s, w, b);
    } else if !Concerns(w, b) {
      OthersSame(s, w, b);
      assert BudgetOk(s, b);
    } else {
      assert BudgetOk(s, b);
      NotBoth(s, b);
      match w
      case Submit(_) => StatusSame(s, b, PENDING_APPROVAL);
      case Approve(_, actor) => if NoneOpen(s, b) { ApprovalOpens(s, b, actor); }
      case Reject(_) => StatusSame(s, b, REJECTED);
    }
  }

  lemma NewBudget(s: Tables, w: Write, b: Id)
    requires LinesOk(s) && PendingOk(s, w) && b in Apply(s, w).budgets && b !in s.budgets
    ensures BudgetOk(Apply(s, w), b) && NoneOpen(Apply(s, w), b) && !AllOpen(Apply(s, w), b)
  {
    var u := Apply(s, w);
    var line :| line in w.amounts;
    assert line in u.lines && IsLine(u, b, line) && line !in u.funded;
  }

  lemma StepKept(r: Race, m: Move)
    requires RaceInv(r) && MayRace(r, m)
    ensures RaceInv(Step(r, m))
  {
    hide BudgetOk, LinesOk, Apply, NoneOpen;
    match m
    case Check(w) =>
    case Do(w) =>
      var u := Apply(r.tables, w);
      ApplyGrew(r.tables, w);
      forall b | b in u.budgets ensures BudgetOk(u, b) { BudgetKept(r.tables, w, b); }
      forall x | x in r.pending ensures PendingOk(u, x) { assert PendingOk(r.tables, x); }
  }

  ghost predicate Raced(r: Race) {
    exists ms :: IsRun(IDLE, ms, Step, MayRace) && Run(IDLE, ms, Step) == r
  }

  lemma RacedInv(r: Race)
    requires Raced(r)
    ensures RaceInv(r)
  {
    var ms :| IsRun(IDLE, ms, Step, MayRace) && Run(IDLE, ms, Step) == r;
    assert RaceInv(IDLE);
    hide RaceInv, Step, MayRace;
    forall q, m | RaceInv(q) && MayRace(q, m) ensures RaceInv(Step(q, m)) { StepKept(q, m); }
    Invariant(IDLE, ms, Step, MayRace, RaceInv);
  }

  /**
   * In every interleaving a budget's lines have their allocations all together or not at all, each at its line's
   * amount;
   * an approved budget has them, and only somebody else than its creator ever funded them.
   */
  lemma OpenedTogether(r: Race, b: Id)
    requires Raced(r) && b in r.tables.budgets
    ensures var s := r.tables;
            && (AllOpen(s, b) <==> !NoneOpen(s, b))
            && (s.budgets[b].status == APPROVED ==> AllOpen(s, b))
            && (AllOpen(s, b) ==>
               s.budgets[b].approvedBy.Some? && s.budgets[b].approvedBy != Some(s.budgets[b].createdBy))
            && forall line :: line in s.funded ==> line in s.lines && s.funded[line] == s.lines[line].amount
  {
    RacedInv(r);
    hide AllOpen, NoneOpen, HasLine;
    assert BudgetOk(r.tables, b);
    NotBoth(r.tables, b);
  }

  predicate GrewTo(r: Race, q: Race) {
    Grew(r.tables, q.tables)
  }

  /** An allocation once funded stays, for the line and the amount it was funded for. */
  lemma OpenedForGood(r: Race, ms: seq<Move>)
    requires Raced(r) && IsRun(r, ms, Step, MayRace)
    ensures Grew(r.tables, Run(r, ms, Step).tables)
  {
    RacedInv(r);
    hide RaceInv, Grew, Apply, Guard;
    GrewPreorder();
    forall q, m | RaceInv(q) && MayRace(q, m) ensures RaceInv(Step(q, m)) && GrewTo(q, Step(q, m)) {
      StepKept(q, m);
      StepGrew(q, m);
    }
    hide Step, MayRace;
    Monotone(r, ms, Step, MayRace, RaceInv, GrewTo);
  }

  lemma StepGrew(r: Race, m: Move)
    requires RaceInv(r)
    ensures GrewTo(r, Step(r, m))
  {
    hide BudgetOk, Apply;
    if m.Do? { ApplyGrew(r.tables, m.w); }
  }

  lemma GrewPreorder()
    ensures Preorder(GrewTo)
  {}

  // The rule, and the writes that break it

  /** Exactly the approved budgets have their allocations. */
  predicate Rule(s: Tables) {
    forall b :: b in s.budgets ==> (s.budgets[b].status == APPROVED <==> AllOpen(s, b))
  }

  /** What a write must find so that the rule still holds after it. */
  predicate Meets(s: Tables, w: Write) {
    match w
    case Submit(b) => b in s.budgets ==> NoneOpen(s, b)
    case Reject(b) => b in s.budgets ==> NoneOpen(s, b)
    case _ => true
  }

  /** Exactly a submission or a rejection of a budget whose lines are funded by then breaks the rule. */
  lemma WriteKeepsRule(r: Race, w: Write)
    requires RaceInv(r) && Rule(r.tables) && w in r.pending
    ensures Rule(Apply(r.tables, w)) <==> Meets(r.tables, w)
  {
    var s, u := r.tables, Apply(r.tables, w);
    assert PendingOk(s, w);
    hide AllOpen, NoneOpen, HasLine, LinesOk, Apply, BudgetOk, PendingOk;
    forall b | b in s.budgets
      ensures b in u.budgets
      ensures (u.budgets[b].status == APPROVED <==> AllOpen(u, b)) <==> (Concerns(w, b) ==> Meets(s, w))
    {
      RuleAfter(s, w, b);
    }
    forall b | b in u.budgets && b !in s.budgets ensures u.budgets[b].status == APPROVED <==> AllOpen(u, b) {
      NewBudget(s, w, b);
    }
    if !Meets(s, w) { assert Concerns(w, w.budget); }
  }

  lemma RuleAfter(s: Tables, w: Write, b: Id)
    requires TablesOk(s) && Rule(s) && b in s.budgets
    ensures var u := Apply(s, w);
            b in u.budgets
              && ((u.budgets[b].status == APPROVED <==> AllOpen(u, b)) <==> (Concerns(w, b) ==> Meets(s, w)))
  {
    hide AllOpen, NoneOpen, HasLine, LinesOk;
    assert BudgetOk(s, b);
    NotBoth(s, b);
    if !Concerns(w, b) {
      OthersSame(s, w, b);
    } else {
      match w
      case Submit(_) => StatusSame(s, b, PENDING_APPROVAL);
      case Approve(_, actor) => if NoneOpen(s, b) { ApprovalOpens(s, b, actor); }
      case Reject(_) => StatusSame(s, b, REJECTED);
    }
  }

  /**
   * A write that follows its check at once always finds what it must, so calls that are not overtaken keep the rule.
   */
  lemma FreshMeets(s: Tables, w: Write)
    requires TablesOk(s) && Rule(s) && Guard(s, w)
    ensures Meets(s, w)
  {
    hide AllOpen, NoneOpen, HasLine, LinesOk;
    if !w.Draft? { assert BudgetOk(s, w.budget); }
  }

  // Runs in which calls overtake each other

  lemma Twice(r: Race, w: Write, x: Write)
    requires Guard(r.tables, w) && Guard(r.tables, x)
    ensures var ms := [Check(w), Check(x)] + [Do(w), Do(x)];
            IsRun(r, ms, Step, MayRace) && Run(r, ms, Step) == Race(Apply(Apply(r.tables, w), x), r.pending)
  {
    hide Guard, Apply;
    var one, two := [Check(w), Check(x)], [Do(w), Do(x)];
    RunOfTwo(r, Check(w), Check(x), Step, MayRace);
    var q := Race(r.tables, r.pending + multiset{w} + multiset{x});
    assert q.pending - multiset{w} == r.pending + multiset{x};
    assert r.pending + multiset{x} - multiset{x} == r.pending;
    RunOfTwo(q, Do(w), Do(x), Step, MayRace);
    RunConcat(r, one, two, Step, MayRace);
  }

  /** Of two overlapping approvals the second finds the lines funded and changes nothing: no allocation opens twice. */
  lemma RacingApprovals(r: Race, b: Id, actor: User, other: User)
    requires RaceInv(r) && Rule(r.tables) && Guard(r.tables, Approve(b, actor)) && Guard(r.tables, Approve(b, other))
    ensures var ms := [Check(Approve(b, actor)), Check(Approve(b, other))]
            + [Do(Approve(b, actor)), Do(Approve(b, other))];
            IsRun(r, ms, Step, MayRace) && Run(r, ms, Step) == r.(tables := Apply(r.tables, Approve(b, actor)))
  {
    Twice(r, Approve(b, actor), Approve(b, other));
    PendingUnopened(r, b);
    hide AllOpen, NoneOpen, HasLine, LinesOk;
    ApprovalOpens(r.tables, b, actor);
  }

  lemma PendingUnopened(r: Race, b: Id)
    requires RaceInv(r) && Rule(r.tables) && StatusOf(r.tables, b) == Some(PENDING_APPROVAL)
    ensures NoneOpen(r.tables, b) && HasLine(r.tables, b)
  {
    hide AllOpen, NoneOpen, HasLine, LinesOk;
    assert BudgetOk(r.tables, b);
  }

  /** A rejection checked before an approval and written after it leaves a rejected budget with all its allocations. */
  lemma RejectionOvertaken(r: Race, b: Id, actor: User)
    requires RaceInv(r) && Rule(r.tables) && Guard(r.tables, Approve(b, actor))
    ensures var ms := [Check(Approve(b, actor)), Check(Reject(b))] + [Do(Approve(b, actor)), Do(Reject(b))];
            var u := Run(r, ms, Step).tables;
            IsRun(r, ms, Step, MayRace) && b in u.budgets && u.budgets[b].status == REJECTED && AllOpen(u, b)
  {
    Twice(r, Approve(b, actor), Reject(b));
    PendingUnopened(r, b);
    hide AllOpen, NoneOpen, HasLine, LinesOk;
    ApprovalOpens(r.tables, b, actor);
    StatusSame(Apply(r.tables, Approve(b, actor)), b, REJECTED);
  }

  /** A submission checked twice and written the second time after the approval reopens an approved budget. */
  lemma SubmissionOvertaken(r: Race, b: Id, actor: User)
    requires RaceInv(r) && Rule(r.tables) && Guard(r.tables, Submit(b)) && r.tables.budgets[b].createdBy != actor
    ensures var ms := [Check(Submit(b)), Check(Submit(b)), Do(Submit(b))]
                      + [Check(Approve(b, actor)), Do(Approve(b, actor)), Do(Submit(b))];
            var u := Run(r, ms, Step).tables;
            IsRun(r, ms, Step, MayRace) && b in u.budgets && u.budgets[b].status == PENDING_APPROVAL && AllOpen(u, b)
  {
    var s, w, x := r.tables, Submit(b), Approve(b, actor);
    DraftUnopened(r, b);
    hide AllOpen, NoneOpen, HasLine, RaceInv;
    StatusSame(s, b, PENDING_APPROVAL);
    var s1 := Apply(s, w);
    ApprovalOpens(s1, b, actor);
    var s2 := Apply(s1, x);
    StatusSame(s2, b, PENDING_APPROVAL);
    assert Guard(s1, x);
    hide Apply, Guard;
    WrittenAgain(r, w, x);
  }

  /** Write `w` is checked twice; write `x` comes whole between the two writings. */
  lemma WrittenAgain(r: Race, w: Write, x: Write)
    requires Guard(r.tables, w) && Guard(Apply(r.tables, w), x)
    ensures var ms := [Check(w), Check(w), Do(w)] + [Check(x), Do(x), Do(w)];
            IsRun(r, ms, Step, MayRace) && Run(r, ms, Step).tables == Apply(Apply(Apply(r.tables, w), x), w)
  {
    hide Apply, Guard;
    var q := Race(Apply(r.tables, w), r.pending + multiset{w});
    CheckedTwice(r, w);
    WholeBetween(q, w, x);
    RunConcat(r, [Check(w), Check(w), Do(w)], [Check(x), Do(x), Do(w)], Step, MayRace);
  }

  lemma CheckedTwice(r: Race, w: Write)
    requires Guard(r.tables, w)
    ensures IsRun(r, [Check(w), Check(w), Do(w)], Step, MayRace)
    ensures Run(r, [Check(w), Check(w), Do(w)], Step) == Race(Apply(r.tables, w), r.pending + multiset{w})
  {
    hide Apply, Guard;
    RunOfThree(r, Check(w), Check(w), Do(w), Step, MayRace);
    assert r.pending + multiset{w} + multiset{w} - multiset{w} == r.pending + multiset{w};
  }

  lemma WholeBetween(q: Race, w: Write, x: Write)
    requires Guard(q.tables, x) && w in q.pending
    ensures IsRun(q, [Check(x), Do(x), Do(w)], Step, MayRace)
    ensures Run(q, [Check(x), Do(x), Do(w)], Step).tables == Apply(Apply(q.tables, x), w)
  {
    hide Apply, Guard;
    RunOfThree(q, Check(x), Do(x), Do(w), Step, MayRace);
    assert q.pending + multiset{x} - multiset{x} == q.pending;
  }

  lemma DraftUnopened(r: Race, b: Id)
    requires RaceInv(r) && Rule(r.tables) && StatusOf(r.tables, b) == Some(DRAFT)
    ensures NoneOpen(r.tables, b) && HasLine(r.tables, b)
  {
    hide AllOpen, NoneOpen, HasLine, LinesOk;
    assert BudgetOk(r.tables, b);
  }
}
