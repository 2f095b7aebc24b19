/** What anchoring guarantees over every run of any number of processes. */
module AnchoringTheorems {
  import opened Common
  import opened AuditChain
  import opened Anchoring
  import opened AnchoringProofs
  import opened Runs
  import opened Sums

  ghost predicate Reached(s: System) {
    exists ms :: IsRun(Initial(s.crypto, s.batch), ms, Next, May) && Run(Initial(s.crypto, s.batch), ms, Next) == s
  }

  lemma InitialInv(c: Crypto, batch: Batch)
    ensures Inv(Initial(c, batch)) && ReportsOk(Initial(c, batch))
  {
    var none: map<Id, Flight> := map[];
    SumZero(none, Reported);
  }

  /** Every reachable state satisfies the invariant, whatever fails or crashes and however processes overlap. */
  lemma ReachedInv(s: System)
    requires Reached(s)
    ensures Inv(s)
  {
    hide Inv;
    var ms :| IsRun(Initial(s.crypto, s.batch), ms, Next, May) && Run(Initial(s.crypto, s.batch), ms, Next) == s;
    InitialInv(s.crypto, s.batch);
    forall t, m | Inv(t) && May(t, m) ensures Inv(Next(t, m)) { NextKept(t, m); }
    Invariant(Initial(s.crypto, s.batch), ms, Next, May, Inv);
  }

  // References

  /** `tx` is confirmed in a block whose root is that of a batch of consecutive events with `i` among them. */
  predicate Proves(s: System, tx: Id, i: nat) {
    && tx in s.tables.transactions
    && var x := s.tables.transactions[tx];
       && x.first <= i < x.first + x.count <= |s.tables.events|
       && x.payloadHash == Root(s.crypto, s.tables.events[x.first..x.first + x.count])
       && x.block < |s.tables.blocks| && s.tables.blocks[x.block].rootHash == x.payloadHash
  }

  /** Anchored events are always a prefix, and each reference names a transaction that proves its event. */
  lemma AnchoredPrefix(s: System)
    requires Reached(s)
    ensures forall i, j | 0 <= i < j < |s.tables.events| :: s.tables.events[j].anchor.Some? ==>
            s.tables.events[i].anchor.Some?
    ensures forall i | 0 <= i < |s.tables.events| && s.tables.events[i].anchor.Some? ::
            Proves(s, s.tables.events[i].anchor.value, i)
  {
    ReachedInv(s);
    assert TablesOk(s.crypto, s.tables);
    hide Root;
    forall i | 0 <= i < |s.tables.events| && s.tables.events[i].anchor.Some?
      ensures Proves(s, s.tables.events[i].anchor.value, i) {
      assert RefOk(s.tables, i, s.tables.events[i].anchor.value);
      assert TransactionOk(s.crypto, s.tables, s.tables.transactions[s.tables.events[i].anchor.value]);
    }
  }

  ghost predicate Grew(s: System, t: System) {
    && t.crypto == s.crypto && t.batch == s.batch
    && Extends(s.tables.events, t.tables.events)
    && TxsExtend(s.tables.transactions, t.tables.transactions)
    && s.tables.blocks <= t.tables.blocks
  }

  lemma NextGrew(s: System, m: Move)
    ensures Grew(s, Next(s, m))
  {
    hide RecordAnchor, AnchoredSet, GetUnanchored, Select;
    match m
    case Record(r, lost) => if May(s, m) {
      RecordExtends(s.tables.events, s.runs[r].stage.ids, s.runs[r].stage.transaction);
    }
    case _ =>
  }

  lemma GrewPreorder()
    ensures Preorder(Grew)
  {
    forall s ensures Grew(s, s) {}
    forall s, t, u | Grew(s, t) && Grew(t, u) ensures Grew(s, u) {
      assert forall i | 0 <= i < |s.tables.events| ::
        SameButAnchor(s.tables.events[i], t.tables.events[i]) && SameButAnchor(t.tables.events[i], u.tables.events[i]);
    }
  }

  /** A reference, once set, is never changed, and neither is any other column, a transaction or a block. */
  lemma WriteOnce(s: System, ms: seq<Move>)
    requires IsRun(s, ms, Next, May)
    ensures Grew(s, Run(s, ms, Next))
  {
    hide Grew;
    GrewPreorder();
    forall t, m | true ensures Grew(t, Next(t, m)) { NextGrew(t, m); }
    Monotone(s, ms, Next, May, Any, Grew);
  }

  predicate Any(s: System) { true }

  // One run at a time

  /** At most one run is in flight per process, and every caller that overlaps it returns its result. */
  lemma SingleFlight(s: System, q: Id, r: Id)
    requires Reached(s) && q in s.runs && r in s.runs && s.runs[q].process == s.runs[r].process
    requires Live(s.runs[q].stage) && Live(s.runs[r].stage)
    ensures q == r
  {
    ReachedInv(s);
  }

  lemma SharedResult(s: System, j: Id, k: Id)
    requires Reached(s) && j in s.callers && k in s.callers && s.callers[j].Answered? && s.callers[k].Answered?
    requires s.callers[j].run == s.callers[k].run
    ensures s.callers[j] == s.callers[k] && s.callers[j].run in s.runs
            && s.runs[s.callers[j].run].stage == Settled(s.callers[j].result)
  {
    ReachedInv(s);
    assert CallerOk(s.runs, s.running, s.callers[j]) && CallerOk(s.runs, s.running, s.callers[k]);
  }

  /** A call made while a run of its process is in flight joins that run. */
  lemma OverlapJoins(s: System, r: Id, caller: Id, newId: Id)
    requires Reached(s) && r in s.runs && Live(s.runs[r].stage) && May(s, Call(s.runs[r].process, caller, newId))
    ensures Next(s, Call(s.runs[r].process, caller, newId)) == s.(callers := s.callers[caller := Awaiting(r)])
  {
    ReachedInv(s);
  }

  // What the runs report

  function Reported(r: Flight): int {
    match r.stage case Settled(result) => result.count case _ => 0
  }

  ghost predicate ReportsOk(s: System) {
    Sum(s.runs, Reported) <= |AnchoredSet(s.tables.events)|
  }

  lemma WriteReports(c: Crypto, events: seq<Event>, input: Input, sequence: nat, now: string)
    ensures AnchoredSet(Append(c, events, input, sequence, now)) == AnchoredSet(events)
  {}

  lemma RecordReports(events: seq<Event>, ids: seq<nat>, tx: Id)
    ensures var after := RecordAnchor(events, ids, tx);
            |AnchoredSet(after)| == |AnchoredSet(events)| + |AnchoredSet(after) - AnchoredSet(events)|
  {
    var after := RecordAnchor(events, ids, tx);
    assert AnchoredSet(after) == AnchoredSet(events) + (AnchoredSet(after) - AnchoredSet(events));
  }

  lemma CrashReports(runs: map<Id, Flight>, process: Id)
    ensures Sum(AbandonAll(runs, process), Reported) <= Sum(runs, Reported)
  {
    SumEmbedded(AbandonAll(runs, process), Reported, runs, Reported, map r | r in runs :: r);
  }

  lemma NextReports(s: System, m: Move)
    requires ReportsOk(s)
    ensures ReportsOk(Next(s, m))
  {
    hide Sum, AnchoredSet, RecordAnchor, Append, GetUnanchored, Select, Left, Root;
    if May(s, m) {
      match m
      case Write(input, sequence, now) => WriteReports(s.crypto, s.tables.events, input, sequence, now);
      case Call(process, caller, newId) => SumPut(s.runs, newId, Flight(process, Started), Reported);
      case Fetch(r) => SumPut(s.runs, r, Next(s, m).runs[r], Reported);
      case Finalize(r, _, _) => SumPut(s.runs, r, Next(s, m).runs[r], Reported);
      case Record(r, _) =>
        SumPut(s.runs, r, Next(s, m).runs[r], Reported);
        RecordReports(s.tables.events, s.runs[r].stage.ids, s.runs[r].stage.transaction);
      case Throw(r) => SumPut(s.runs, r, Next(s, m).runs[r], Reported);
      case Crash(process) => CrashReports(s.runs, process);
      case _ =>
    }
  }

  /** No event is reported anchored twice: the counts of all runs together never exceed the anchored events. */
  lemma ReportedAtMostOnce(s: System)
    requires Reached(s)
    ensures Sum(s.runs, Reported) <= |AnchoredSet(s.tables.events)|
  {
    hide ReportsOk;
    var ms :| IsRun(Initial(s.crypto, s.batch), ms, Next, May) && Run(Initial(s.crypto, s.batch), ms, Next) == s;
    InitialInv(s.crypto, s.batch);
    forall t, m | ReportsOk(t) && May(t, m) ensures ReportsOk(Next(t, m)) { NextReports(t, m); }
    Invariant(Initial(s.crypto, s.batch), ms, Next, May, ReportsOk);
    Unfolded(s);
  }

  lemma Unfolded(s: System)
    requires ReportsOk(s)
    ensures Sum(s.runs, Reported) <= |AnchoredSet(s.tables.events)|
  {}

  // The audit chain under anchoring

  ghost predicate ChainOk(s: System) {
    Sound(s.crypto) ==> Accepted(s.crypto, s.tables.events)
  }

  lemma AnchorsUnhashed(c: Crypto, e: seq<Event>, f: seq<Event>)
    requires Accepted(c, e) && |e| == |f| && Extends(e, f)
    ensures Accepted(c, f)
  {
    forall i | 0 <= i < |f| ensures Intact(c, f[i], HashBefore(c, f, i)) {
      assert SameButAnchor(e[i], f[i]) && Intact(c, e[i], HashBefore(c, e, i));
      if i > 0 { assert SameButAnchor(e[i - 1], f[i - 1]); }
    }
  }

  lemma NextChainOk(s: System, m: Move)
    requires ChainOk(s)
    ensures ChainOk(Next(s, m))
  {
    hide Accepted, Sound, Append, RecordAnchor, GetUnanchored, Select, AnchoredSet, Extends;
    if May(s, m) && Sound(s.crypto) {
      match m
      case Write(input, sequence, now) => AppendAccepted(s.crypto, s.tables.events, input, sequence, now);
      case Record(r, _) =>
        RecordExtends(s.tables.events, s.runs[r].stage.ids, s.runs[r].stage.transaction);
        AnchorsUnhashed(s.crypto, s.tables.events,
          RecordAnchor(s.tables.events, s.runs[r].stage.ids, s.runs[r].stage.transaction));
      case _ =>
    }
  }

  /** Anchoring never disturbs the hash chain: in every reachable state the whole audit table is accepted. */
  lemma ReachedAccepted(s: System)
    requires Reached(s) && Sound(s.crypto)
    ensures Accepted(s.crypto, s.tables.events)
  {
    hide ChainOk, Accepted, Sound;
    var ms :| IsRun(Initial(s.crypto, s.batch), ms, Next, May) && Run(Initial(s.crypto, s.batch), ms, Next) == s;
    EmptyChainOk(s.crypto, s.batch);
    forall t, m | ChainOk(t) && May(t, m) ensures ChainOk(Next(t, m)) { NextChainOk(t, m); }
    Invariant(Initial(s.crypto, s.batch), ms, Next, May, ChainOk);
    ChainUnfolded(s);
  }

  lemma EmptyChainOk(c: Crypto, batch: Batch)
    ensures ChainOk(Initial(c, batch))
  {}

  lemma ChainUnfolded(s: System)
    requires ChainOk(s) && Sound(s.crypto)
    ensures Accepted(s.crypto, s.tables.events)
  {}

  // Blocks

  lemma {:induction false} FindBlockAt(blocks: seq<Block>, i: nat)
    requires i < |blocks| && forall j | 0 <= j < i :: blocks[j].sequence != blocks[i].sequence
    ensures FindBlock(blocks, blocks[i].sequence) == Some(blocks[i])
  {
    if i > 0 { FindBlockAt(blocks[1..], i - 1); }
  }

  lemma {:induction false} FindBlockNone(blocks: seq<Block>, sequence: nat)
    requires forall j | 0 <= j < |blocks| :: blocks[j].sequence != sequence
    ensures FindBlock(blocks, sequence) == None
  {
    if blocks != [] { FindBlockNone(blocks[1..], sequence); }
  }

  /** The block after a number lost to a rolled-back insert does not find its predecessor. */
  predicate AfterGap(blocks: seq<Block>, i: nat)
    requires i < |blocks|
  {
    i > 0 && blocks[i].sequence != blocks[i - 1].sequence + 1
  }

  /**
    * Every block ever written verifies, unless its number skips one: then, and only then, it is
    * reported broken (or its predecessor's hash happens to be the genesis hash).
    */
  lemma BlockVerifies(s: System, i: nat)
    requires Reached(s) && i < |s.tables.blocks|
    ensures ChainLinkValid(s.crypto, s.tables.blocks, s.tables.blocks[i]) <==>
              !AfterGap(s.tables.blocks, i) || s.tables.blocks[i - 1].blockHash == s.crypto.hash(GENESIS_BLOCK)
  {
    ReachedInv(s);
    LinkLookup(s.crypto, s.tables.blocks, s.tables.numbers, i);
  }

  lemma LinkLookup(c: Crypto, blocks: seq<Block>, numbers: nat, i: nat)
    requires BlocksOk(c, blocks, numbers) && i < |blocks|
    ensures ChainLinkValid(c, blocks, blocks[i]) <==>
            !AfterGap(blocks, i) || blocks[i - 1].blockHash == c.hash(GENESIS_BLOCK)
  {
    var b := blocks[i];
    if i > 0 && !AfterGap(blocks, i) {
      FindBlockAt(blocks, i - 1);
    } else if b.sequence > 1 {
      forall j | 0 <= j < |blocks| ensures blocks[j].sequence != b.sequence - 1 {
        if j < i && i > 0 { assert j < i - 1 ==> blocks[j].sequence < blocks[i - 1].sequence; }
      }
      FindBlockNone(blocks, b.sequence - 1);
    }
  }

  /** No insert of a block was ever rolled back after it took its number. */
  predicate MayUnburnt(s: System, m: Move) {
    May(s, m) && !m.Burn?
  }

  predicate Numbered(s: System) {
    |s.tables.blocks| == s.tables.numbers && forall i | 0 <= i < |s.tables.blocks| ::
      s.tables.blocks[i].sequence == i + 1
  }

  lemma NextNumbered(s: System, m: Move)
    requires Numbered(s) && !m.Burn?
    ensures Numbered(Next(s, m))
  {
    hide RecordAnchor, AnchoredSet, GetUnanchored, Select, Append, Root;
  }

  /** Without rolled-back inserts all the blocks that anchoring leaves behind verify. */
  lemma AllBlocksVerify(c: Crypto, batch: Batch, ms: seq<Move>, i: nat)
    requires IsRun(Initial(c, batch), ms, Next, MayUnburnt)
    requires i < |Run(Initial(c, batch), ms, Next).tables.blocks|
    ensures var s := Run(Initial(c, batch), ms, Next); ChainLinkValid(c, s.tables.blocks, s.tables.blocks[i])
  {
    var s := Run(Initial(c, batch), ms, Next);
    InitialInv(c, batch);
    hide Inv, Numbered, May;
    forall t, m | UnburntInv(c, t) && MayUnburnt(t, m) ensures UnburntInv(c, Next(t, m)) {
      NextKept(t, m);
      NextNumbered(t, m);
      CryptoStays(t, m);
    }
    NumberedInitially(c, batch);
    Invariant(Initial(c, batch), ms, Next, MayUnburnt, UnburntOf(c));
    assert UnburntInv(c, s);
    NumberedVerifies(s, i);
  }

  ghost predicate UnburntInv(c: Crypto, s: System) {
    Inv(s) && Numbered(s) && s.crypto == c
  }

  ghost function UnburntOf(c: Crypto): System -> bool {
    (s: System) => UnburntInv(c, s)
  }

  lemma NumberedInitially(c: Crypto, batch: Batch)
    ensures Numbered(Initial(c, batch)) && Initial(c, batch).crypto == c
  {}

  lemma CryptoStays(s: System, m: Move)
    ensures Next(s, m).crypto == s.crypto
  {
    hide RecordAnchor, AnchoredSet, GetUnanchored, Select, Append, Root;
  }

  lemma NumberedVerifies(s: System, i: nat)
    requires Inv(s) && Numbered(s) && i < |s.tables.blocks|
    ensures ChainLinkValid(s.crypto, s.tables.blocks, s.tables.blocks[i])
  {
    LinkLookup(s.crypto, s.tables.blocks, s.tables.numbers, i);
  }

  /** A number lost between two blocks leaves the second one after a gap. */
  lemma BurnLeavesGap(s: System, q: Id, r: Id, x: Id, y: Id, now: string)
    requires BlocksOk(s.crypto, s.tables.blocks, s.tables.numbers) && q != r && x != y
    requires May(s, Finalize(q, x, now)) && May(s, Finalize(r, y, now))
    ensures var ms := [Finalize(q, x, now), Burn, Finalize(r, y, now)];
            var blocks, i := Run(s, ms, Next).tables.blocks, |s.tables.blocks| + 1;
            IsRun(s, ms, Next, May) && i < |blocks| && AfterGap(blocks, i)
  {
    RunOfThree(s, Finalize(q, x, now), Burn, Finalize(r, y, now), Next, May);
  }

  /** Two processes fetch the one event there is. */
  function TwoFetches(input: Input, now: string): seq<Move> {
    [Move.Write(input, 1, now)] + [Call(0, 0, 0), Fetch(0)] + [Call(1, 1, 1), Fetch(1)]
  }

  lemma OneEvent(c: Crypto, batch: Batch, input: Input, now: string)
    ensures var zero, ms := Initial(c, batch), [Move.Write(input, 1, now)];
            var one := Run(zero, ms, Next);
            && IsRun(zero, ms, Next, May) && one == zero.(tables := one.tables)
            && one.tables == zero.tables.(events := one.tables.events)
            && GetUnanchored(one.tables.events, batch) == [0]
  {
    var zero, write := Initial(c, batch), Move.Write(input, 1, now);
    assert [write] + [] == [write];
    RunFirst(zero, write, [], Next, May);
    var events := Next(zero, write).tables.events;
    assert |events| == 1 && events[0].anchor.None?;
    assert UnanchoredFrom(events, 1) == [];
  }

  lemma Fetches(s: System, process: Id, id: Id)
    requires Idle(s, process, id) && GetUnanchored(s.tables.events, s.batch) == [0]
    ensures var ms := [Call(process, id, id), Fetch(id)];
            var t := Run(s, ms, Next);
            && IsRun(s, ms, Next, May) && t.crypto == s.crypto && t.batch == s.batch && t.tables == s.tables
            && t.running == s.running[process := id] && t.callers == s.callers[id := Owner(id)]
            && t.runs.Keys == s.runs.Keys + {id} && t.runs[id].stage.Fetched? && t.runs[id].stage.ids == [0]
            && forall r :: r in s.runs && r != id ==> t.runs[r] == s.runs[r]
  {
    TurnStarts(s, process, id);
    hide GetUnanchored, Select, Root, Next, May;
    RunOfTwo(s, Call(process, id, id), Fetch(id), Next, May);
  }

  lemma TwoFetched(c: Crypto, batch: Batch, input: Input, now: string)
    ensures IsRun(Initial(c, batch), TwoFetches(input, now), Next, May)
    ensures var s := Run(Initial(c, batch), TwoFetches(input, now), Next);
            && s.crypto == c && s.batch == batch && s.tables.blocks == [] && s.tables.numbers == 0
            && May(s, Finalize(0, 0, now)) && May(s, Finalize(1, 1, now))
  {
    var zero := Initial(c, batch);
    hide GetUnanchored, Next;
    OneEvent(c, batch, input, now);
    var one := Run(zero, [Move.Write(input, 1, now)], Next);
    Fetches(one, 0, 0);
    var two := Run(one, [Call(0, 0, 0), Fetch(0)], Next);
    Fetches(two, 1, 1);
    RunConcat(zero, [Move.Write(input, 1, now)], [Call(0, 0, 0), Fetch(0)], Next, May);
    RunConcat(zero, [Move.Write(input, 1, now)] + [Call(0, 0, 0), Fetch(0)], [Call(1, 1, 1), Fetch(1)], Next, May);
  }

  /** From empty tables, one rolled-back insert is enough for a block that does not find its predecessor. */
  lemma GapReached(c: Crypto, batch: Batch, input: Input, now: string)
    ensures exists s :: Reached(s) && s.crypto == c && 1 < |s.tables.blocks| && AfterGap(s.tables.blocks, 1)
  {
    hide Next, May;
    TwoFetched(c, batch, input, now);
    var zero, start := Initial(c, batch), TwoFetches(input, now);
    var end := [Finalize(0, 0, now), Burn, Finalize(1, 1, now)];
    BurnLeavesGap(Run(zero, start, Next), 0, 1, 0, 1, now);
    RunConcat(zero, start, end, Next, May);
    RunCrypto(zero, start + end);
    assert Reached(Run(zero, start + end, Next));
  }

  lemma RunCrypto(s: System, ms: seq<Move>)
    requires IsRun(s, ms, Next, May)
    ensures Run(s, ms, Next).crypto == s.crypto && Run(s, ms, Next).batch == s.batch
  {
    WriteOnce(s, ms);
  }

  // Draining

  /** How many events have no reference yet. */
  function Backlog(events: seq<Event>): nat {
    |events| - Boundary(events)
  }

  function Least(a: nat, b: nat): nat {
    if a <= b then a else b
  }

  /** One undisturbed call of `runOnce` by `process`, using `id` for the caller, the run and the transaction. */
  function Turn(events: seq<Event>, process: Id, id: Id, now: string): seq<Move> {
    if Backlog(events) == 0 then [Call(process, id, id), Fetch(id), Answer(id)]
    else [Call(process, id, id), Fetch(id), Finalize(id, id, now), Record(id, false), Answer(id)]
  }

  predicate Idle(s: System, process: Id, id: Id) {
    process !in s.running && id !in s.callers && id !in s.runs && id !in s.tables.transactions
  }

  lemma {:induction false} BoundaryUnique(events: seq<Event>, m: nat)
    requires m <= |events| && forall k | 0 <= k < |events| :: events[k].anchor.Some? <==> k < m
    ensures Boundary(events) == m
  {
    if events != [] && m > 0 { BoundaryUnique(events[1..], m - 1); }
  }

  /** A recorded batch extends the anchored prefix by its length. */
  lemma RecordDivides(events: seq<Event>, ids: seq<nat>, m: nat, tx: Id)
    requires m + |ids| <= |events| && forall k | 0 <= k < |ids| :: ids[k] == m + k
    requires forall k | 0 <= k < |events| :: events[k].anchor.Some? <==> k < m
    ensures var after := RecordAnchor(events, ids, tx);
            forall k | 0 <= k < |after| :: after[k].anchor.Some? <==> k < m + |ids|
  {
    var after := RecordAnchor(events, ids, tx);
    forall k | 0 <= k < |after| ensures after[k].anchor.Some? <==> k < m + |ids| {
      if m <= k < m + |ids| { assert ids[k - m] == k; }
      if k in ids { var i :| 0 <= i < |ids| && ids[i] == k; }
    }
  }

  lemma DividedCount(events: seq<Event>, after: seq<Event>, m: nat, n: nat)
    requires |after| == |events| && m + n <= |events|
    requires forall k | 0 <= k < |events| :: events[k].anchor.Some? <==> k < m
    requires forall k | 0 <= k < |after| :: after[k].anchor.Some? <==> k < m + n
    ensures |AnchoredSet(after) - AnchoredSet(events)| == n
  {
    assert AnchoredSet(after) - AnchoredSet(events) == Range(m, n);
  }

  /** Recording a fetched batch moves the boundary past it. */
  lemma RecordMovesBoundary(events: seq<Event>, limit: Batch, tx: Id)
    requires IsPrefix(events)
    ensures var ids := GetUnanchored(events, limit);
            var after := RecordAnchor(events, ids, tx);
            && Boundary(after) == Boundary(events) + |ids|
            && |AnchoredSet(after) - AnchoredSet(events)| == |ids|
  {
    hide GetUnanchored, Boundary, AnchoredSet, IsPrefix, IsBatch;
    var ids, m := GetUnanchored(events, limit), Boundary(events);
    FetchIsBatch(events, limit);
    BoundaryDivides(events);
    RecordDivides(events, ids, m, tx);
    BoundaryUnique(RecordAnchor(events, ids, tx), m + |ids|);
    DividedCount(events, RecordAnchor(events, ids, tx), m, |ids|);
  }

  function Range(m: nat, n: nat): (r: set<nat>)
    ensures (forall k :: k in r <==> m <= k < m + n) && |r| == n
  {
    if n == 0 then {} else Range(m, n - 1) + {m + n - 1}
  }

  lemma RunOfFive(s: System, m1: Move, m2: Move, m3: Move, m4: Move, m5: Move)
    ensures Run(s, [m1, m2, m3, m4, m5], Next) == Next(Next(Next(Next(Next(s, m1), m2), m3), m4), m5)
    ensures IsRun(s, [m1, m2, m3, m4, m5], Next, May) <==>
              && May(s, m1) && May(Next(s, m1), m2) && May(Next(Next(s, m1), m2), m3)
              && May(Next(Next(Next(s, m1), m2), m3), m4) && May(Next(Next(Next(Next(s, m1), m2), m3), m4), m5)
  {
    hide Next, May;
    RunFirst(s, m1, [m2, m3, m4, m5], Next, May);
    RunFirst(Next(s, m1), m2, [m3, m4, m5], Next, May);
    RunOfThree(Next(Next(s, m1), m2), m3, m4, m5, Next, May);
    assert [m1] + [m2, m3, m4, m5] == [m1, m2, m3, m4, m5] && [m2] + [m3, m4, m5] == [m2, m3, m4, m5];
  }

  /** What a turn leaves behind. */
  ghost predicate Turned(s: System, t: System, process: Id, id: Id, n: nat) {
    && t.crypto == s.crypto && t.batch == s.batch
    && process !in t.running
    && Backlog(t.tables.events) == Backlog(s.tables.events) - n
    && t.runs.Keys <= s.runs.Keys + {id} && t.callers.Keys <= s.callers.Keys + {id}
    && t.tables.transactions.Keys <= s.tables.transactions.Keys + {id}
    && id in t.callers && t.callers[id].Answered? && t.callers[id].result.count == n
  }

  lemma TurnStarts(s: System, process: Id, id: Id)
    requires Idle(s, process, id) && GetUnanchored(s.tables.events, s.batch) != []
    ensures var ids := GetUnanchored(s.tables.events, s.batch);
            && May(s, Call(process, id, id)) && May(Next(s, Call(process, id, id)), Fetch(id))
            && Next(Next(s, Call(process, id, id)), Fetch(id)) == s.(
                 runs := s.runs[id := Flight(process, Fetched(ids, Root(s.crypto, Select(s.tables.events, ids))))],
                 running := s.running[process := id], callers := s.callers[id := Owner(id)])
  {
    hide GetUnanchored, Select, Root;
  }

  lemma FullTurn(s: System, process: Id, id: Id, now: string)
    requires Inv(s) && Idle(s, process, id) && Backlog(s.tables.events) > 0
    ensures IsRun(s, Turn(s.tables.events, process, id, now), Next, May)
    ensures Turned(s, Run(s, Turn(s.tables.events, process, id, now), Next), process, id,
            Least(s.batch, Backlog(s.tables.events)))
  {
    hide GetUnanchored, Select, RecordAnchor, AnchoredSet, Boundary, AppendBlock, Root, IsPrefix, Inv;
    InvPrefix(s);
    FetchIsBatch(s.tables.events, s.batch);
    RecordMovesBoundary(s.tables.events, s.batch, id);
    TurnStarts(s, process, id);
    var ids := GetUnanchored(s.tables.events, s.batch);
    FullTurnEnds(s, Next(Next(s, Call(process, id, id)), Fetch(id)), process, id, ids, now);
    RunOfFive(s, Call(process, id, id), Fetch(id), Finalize(id, id, now), Record(id, false), Answer(id));
  }

  lemma FullTurnEnds(s: System, t: System, process: Id, id: Id, ids: seq<nat>, now: string)
    requires t.runs.Keys == s.runs.Keys + {id} && id in t.runs && t.runs[id].process == process
    requires t.runs[id].stage.Fetched? && t.runs[id].stage.ids == ids && ids != []
    requires id in t.callers && t.callers[id] == Owner(id) && t.callers.Keys == s.callers.Keys + {id}
    requires t.tables == s.tables && t.crypto == s.crypto && t.batch == s.batch && Idle(s, process, id)
    requires var after := RecordAnchor(s.tables.events, ids, id);
             Boundary(after) == Boundary(s.tables.events) + |ids|
               && |AnchoredSet(after) - AnchoredSet(s.tables.events)| == |ids|
    ensures May(t, Finalize(id, id, now)) && May(Next(t, Finalize(id, id, now)), Record(id, false))
    ensures May(Next(Next(t, Finalize(id, id, now)), Record(id, false)), Answer(id))
    ensures Turned(s, Next(Next(Next(t, Finalize(id, id, now)), Record(id, false)), Answer(id)), process, id, |ids|)
  {
    hide RecordAnchor, AnchoredSet, Boundary, AppendBlock;
  }

  lemma InvPrefix(s: System)
    requires Inv(s)
    ensures IsPrefix(s.tables.events)
  {}

  lemma EmptyTurn(s: System, process: Id, id: Id, now: string)
    requires Inv(s) && Idle(s, process, id) && Backlog(s.tables.events) == 0
    ensures IsRun(s, Turn(s.tables.events, process, id, now), Next, May)
    ensures Turned(s, Run(s, Turn(s.tables.events, process, id, now), Next), process, id, 0)
  {
    hide GetUnanchored, Select, Boundary, Root, IsPrefix, Inv;
    InvPrefix(s);
    FetchIsBatch(s.tables.events, s.batch);
    RunOfThree(s, Call(process, id, id), Fetch(id), Answer(id), Next, May);
  }

  /** Each undisturbed run anchors as many events as the batch size allows, and its caller is told so. */
  lemma TurnAnchors(s: System, process: Id, id: Id, now: string)
    requires Reached(s) && Idle(s, process, id)
    ensures IsRun(s, Turn(s.tables.events, process, id, now), Next, May)
    ensures Turned(s, Run(s, Turn(s.tables.events, process, id, now), Next), process, id,
            Least(s.batch, Backlog(s.tables.events)))
  {
    hide Inv, Idle, Turned, Turn, Backlog;
    ReachedInv(s);
    if Backlog(s.tables.events) > 0 { FullTurn(s, process, id, now); } else { EmptyTurn(s, process, id, now); }
  }

  /** Undisturbed runs one after another, one for each of `ids`. */
  ghost function Turns(s: System, process: Id, ids: seq<Id>, now: string): System
    decreases |ids|
  {
    if ids == [] then s else Turns(Run(s, Turn(s.tables.events, process, ids[0], now), Next), process, ids[1..], now)
  }

  ghost predicate Unused(s: System, process: Id, ids: seq<Id>) {
    && process !in s.running
    && (forall i | 0 <= i < |ids| :: Idle(s, process, ids[i]))
    && forall i, j | 0 <= i < j < |ids| :: ids[i] != ids[j]
  }

  lemma UnusedTail(s: System, t: System, process: Id, ids: seq<Id>, n: nat)
    requires ids != [] && Unused(s, process, ids) && Turned(s, t, process, ids[0], n)
    ensures Unused(t, process, ids[1..])
  {
    hide Backlog;
    forall i | 0 <= i < |ids| - 1 ensures Idle(t, process, ids[1..][i]) {
      assert ids[1..][i] == ids[i + 1] && Idle(s, process, ids[i + 1]);
    }
  }

  lemma {:induction false} TurnsDrain(s: System, process: Id, ids: seq<Id>, now: string)
    requires Inv(s) && Unused(s, process, ids)
    ensures Backlog(Turns(s, process, ids, now).tables.events) == Monus(Backlog(s.tables.events), |ids|, s.batch)
    decreases |ids|
  {
    hide Inv, Turn, Backlog, Unused, Turned, Idle;
    if ids != [] {
      UnusedFirst(s, process, ids);
      var ms := Turn(s.tables.events, process, ids[0], now);
      var t := Run(s, ms, Next);
      if Backlog(s.tables.events) > 0 {
        FullTurn(s, process, ids[0], now);
      } else {
        EmptyTurn(s, process, ids[0], now);
      }
      forall u, m | Inv(u) && May(u, m) ensures Inv(Next(u, m)) { NextKept(u, m); }
      Invariant(s, ms, Next, May, Inv);
      var n := Least(s.batch, Backlog(s.tables.events));
      UnusedTail(s, t, process, ids, n);
      TurnsDrain(t, process, ids[1..], now);
      TurnedBacklog(s, t, process, ids[0], n);
      MonusStep(Backlog(s.tables.events), |ids|, s.batch);
    }
  }

  lemma UnusedFirst(s: System, process: Id, ids: seq<Id>)
    requires ids != [] && Unused(s, process, ids)
    ensures Idle(s, process, ids[0])
  {}

  lemma TurnedBacklog(s: System, t: System, process: Id, id: Id, n: nat)
    requires Turned(s, t, process, id, n)
    ensures Backlog(t.tables.events) == Backlog(s.tables.events) - n && t.batch == s.batch
  {}

  function Monus(backlog: nat, turns: nat, batch: Batch): nat {
    if turns * batch <= backlog then backlog - turns * batch else 0
  }

  lemma MonusStep(backlog: nat, turns: nat, batch: Batch)
    requires turns > 0
    ensures Monus(backlog, turns, batch) == Monus(backlog - Least(batch, backlog), turns - 1, batch)
  {
    assert turns * batch == (turns - 1) * batch + batch;
    assert (turns - 1) * batch >= 0;
  }

  /**
   * With nothing else going on, `k` runs empty the backlog exactly when `k` batches cover it, so the ceiling of n /
   * batch runs do and fewer do not.
   */
  lemma Drains(s: System, process: Id, ids: seq<Id>, now: string)
    requires Reached(s) && Unused(s, process, ids)
    ensures Backlog(Turns(s, process, ids, now).tables.events) == 0 <==> Backlog(s.tables.events) <= |ids| * s.batch
  {
    hide Inv, Unused, Turns, Backlog;
    ReachedInv(s);
    TurnsDrain(s, process, ids, now);
  }
}
