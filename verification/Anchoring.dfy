/**
  * Rolling audit events up into blocks. Any number of processes each run an AnchoringService
  * over one database; every statement, and the ledger's locked transaction, is one move.
  */
module Anchoring {
  import opened Common
  import opened AuditChain

  datatype Block = Block(sequence: nat, previousBlockHash: string, blockHash: string, rootHash: string,
    createdAt: string)

  /** `first` and `count` are the metadata of an anchor: which events it covers, by their place in sequence order. */
  datatype Transaction = Transaction(payloadHash: string, first: nat, count: nat, block: nat)

  datatype Result = Anchored(count: nat, transaction: Option<Id>)

  datatype Stage =
    | Started
    | Fetched(ids: seq<nat>, root: string)
    | Finalized(ids: seq<nat>, transaction: Id)
    | Settled(result: Result)
    | Lost

  /** One call of `doRun`. */
  datatype Flight = Flight(process: Id, stage: Stage)

  /** One call of `runOnce`: the one that started the run, or one that found it running. */
  datatype Caller = Owner(run: Id) | Awaiting(run: Id) | Answered(run: Id, result: Result) | Gone

  type Batch = n: nat | 0 < n witness 1

  datatype Tables = Tables(events: seq<Event>, blocks: seq<Block>, transactions: map<Id, Transaction>, numbers: nat)

  /** `running` is the field `runningPromise` of each process; a process without an entry has null there. */
  datatype System = System(
    crypto: Crypto,
    batch: Batch,
    tables: Tables,
    runs: map<Id, Flight>,
    running: map<Id, Id>,
    callers: map<Id, Caller>)

  datatype Move =
    | Write(input: Input, sequence: nat, now: string)
    | Burn
    | Call(process: Id, caller: Id, newId: Id)
    | Fetch(run: Id)
    | Finalize(run: Id, newId: Id, now: string)
    | Record(run: Id, lost: bool)
    | Throw(run: Id)
    | Answer(caller: Id)
    | Crash(process: Id)

  const GENESIS_BLOCK := "B-PFMPS-BLOCKCHAIN-GENESIS"

  // The audit table

  function UnanchoredFrom(events: seq<Event>, i: nat): (r: seq<nat>)
    ensures forall k | 0 <= k < |r| :: i <= r[k] < |events|
    decreases |events| - i
  {
    if i >= |events| then []
    else if events[i].anchor.None? then [i] + UnanchoredFrom(events, i + 1)
    else UnanchoredFrom(events, i + 1)
  }

  /** The first `limit` events without a reference, in sequence order. */
  function GetUnanchored(events: seq<Event>, limit: nat): (r: seq<nat>)
    ensures forall k | 0 <= k < |r| :: r[k] < |events|
  {
    var all := UnanchoredFrom(events, 0);
    if |all| <= limit then all else all[..limit]
  }

  function Select(events: seq<Event>, ids: seq<nat>): seq<Event>
    requires forall k | 0 <= k < |ids| :: ids[k] < |events|
  {
    seq(|ids|, k requires 0 <= k < |ids| => events[ids[k]])
  }

  /** Sets the reference of those events that have none yet. */
  function RecordAnchor(events: seq<Event>, ids: seq<nat>, transaction: Id): (r: seq<Event>)
    ensures |r| == |events|
  {
    seq(|events|, i requires 0 <= i < |events| =>
      if i in ids && events[i].anchor.None? then events[i].(anchor := Some(transaction)) else events[i])
  }

  function AnchoredSet(events: seq<Event>): set<nat> {
    set i | 0 <= i < |events| && events[i].anchor.Some?
  }

  // The block ledger

  function BlockHead(c: Crypto, blocks: seq<Block>): string {
    if blocks == [] then c.hash(GENESIS_BLOCK) else blocks[|blocks| - 1].blockHash
  }

  function AppendBlock(c: Crypto, blocks: seq<Block>, number: nat, rootHash: string, now: string): seq<Block> {
    var previous := BlockHead(c, blocks);
    blocks + [Block(number, previous, c.hash(previous + rootHash + now), rootHash, now)]
  }

  function FindBlock(blocks: seq<Block>, sequence: nat): Option<Block> {
    if blocks == [] then None
    else if blocks[0].sequence == sequence then Some(blocks[0])
    else FindBlock(blocks[1..], sequence)
  }

  /** The `chainLinkValid` of a block: its predecessor is looked up by number. */
  function ChainLinkValid(c: Crypto, blocks: seq<Block>, b: Block): bool {
    var previous := if b.sequence > 1 then FindBlock(blocks, b.sequence - 1) else None;
    var expected := match previous case None => c.hash(GENESIS_BLOCK) case Some(p) => p.blockHash;
    b.previousBlockHash == expected && c.hash(expected + b.rootHash + b.createdAt) == b.blockHash
  }

  // Moves


  function SetStage(s: System, run: Id, stage: Stage): System
    requires run in s.runs
  {
    s.(runs := s.runs[run := s.runs[run].(stage := stage)])
  }

  /** Without a running promise a call starts a run and sets the promise, at once; otherwise it awaits the same one. */
  function RunOnce(s: System, process: Id, caller: Id, newId: Id): System {
    if process in s.running then s.(callers := s.callers[caller := Awaiting(s.running[process])])
    else
      s.(runs := s.runs[newId := Flight(process, Started)],
         running := s.running[process := newId],
         callers := s.callers[caller := Owner(newId)])
  }

  function DoFetch(s: System, run: Id): System
    requires run in s.runs
  {
    var ids := GetUnanchored(s.tables.events, s.batch);
    if ids == [] then SetStage(s, run, Settled(Anchored(0, None)))
    else SetStage(s, run, Fetched(ids, Root(s.crypto, Select(s.tables.events, ids))))
  }

  function Finalization(c: Crypto, t: Tables, ids: seq<nat>, root: string, newId: Id, now: string): Tables
    requires ids != []
  {
    t.(blocks := AppendBlock(c, t.blocks, t.numbers + 1, root, now),
       transactions := t.transactions[newId := Transaction(root, ids[0], |ids|, |t.blocks|)],
       numbers := t.numbers + 1)
  }

  /**
   * When `lost`, the update took effect but its acknowledgement did not arrive, so the run reports nothing anchored.
   */
  function DoRecord(s: System, run: Id, ids: seq<nat>, transaction: Id, lost: bool): System
    requires run in s.runs
  {
    var events := RecordAnchor(s.tables.events, ids, transaction);
    var count := |AnchoredSet(events) - AnchoredSet(s.tables.events)|;
    SetStage(s.(tables := s.tables.(events := events)), run,
      Settled(if lost then Anchored(0, None) else Anchored(count, Some(transaction))))
  }

  /** The owner of a settled run clears the promise before it returns; those who joined just return its result. */
  function DoAnswer(s: System, caller: Id, run: Id, owner: bool, result: Result): System
    requires run in s.runs
  {
    s.(callers := s.callers[caller := Answered(run, result)],
       running := if owner then s.running - {s.runs[run].process} else s.running)
  }

  function Abandoned(run: Flight, process: Id): Flight {
    if run.process == process && !run.stage.Settled? then run.(stage := Lost) else run
  }

  function Left(runs: map<Id, Flight>, caller: Caller, process: Id): Caller {
    if !caller.Answered? && !caller.Gone? && caller.run in runs
      && runs[caller.run].process == process then Gone else caller
  }

  function AbandonAll(runs: map<Id, Flight>, process: Id): map<Id, Flight> {
    map r | r in runs :: Abandoned(runs[r], process)
  }

  function DoCrash(s: System, process: Id): System {
    s.(runs := AbandonAll(s.runs, process),
       running := s.running - {process},
       callers := map k | k in s.callers :: Left(s.runs, s.callers[k], process))
  }

  predicate Live(stage: Stage) {
    stage.Started? || stage.Fetched? || stage.Finalized?
  }

  predicate Awaits(s: System, caller: Id) {
    && caller in s.callers && (s.callers[caller].Owner? || s.callers[caller].Awaiting?)
    && s.callers[caller].run in s.runs && s.runs[s.callers[caller].run].stage.Settled?
  }


  predicate May(s: System, m: Move) {
    match m
    case Write(_, sequence, _) => forall i | 0 <= i < |s.tables.events| :: s.tables.events[i].sequence < sequence
    case Burn => true
    case Call(_, caller, newId) => caller !in s.callers && newId !in s.runs
    case Fetch(run) => run in s.runs && s.runs[run].stage.Started?
    case Finalize(run, newId, _) =>
      run in s.runs && s.runs[run].stage.Fetched? && s.runs[run].stage.ids != [] && newId !in s.tables.transactions
    case Record(run, _) => run in s.runs && s.runs[run].stage.Finalized?
    case Throw(run) => run in s.runs && Live(s.runs[run].stage)
    case Answer(caller) => Awaits(s, caller)
    case Crash(_) => true
  }

  function Next(s: System, m: Move): System {
    if !May(s, m) then s else
    match m
    case Write(input, sequence, now) =>
      s.(tables := s.tables.(events := Append(s.crypto, s.tables.events, input, sequence, now)))
    case Burn => s.(tables := s.tables.(numbers := s.tables.numbers + 1))
    case Call(process, caller, newId) => RunOnce(s, process, caller, newId)
    case Fetch(run) => DoFetch(s, run)
    case Finalize(run, newId, now) =>
      var stage := s.runs[run].stage;
      SetStage(s.(tables := Finalization(s.crypto, s.tables, stage.ids, stage.root, newId, now)), run,
        Finalized(stage.ids, newId))
    case Record(run, lost) => DoRecord(s, run, s.runs[run].stage.ids, s.runs[run].stage.transaction, lost)
    case Throw(run) => SetStage(s, run, Settled(Anchored(0, None)))
    case Answer(caller) =>
      var run := s.callers[caller].run;
      DoAnswer(s, caller, run, s.callers[caller].Owner?, s.runs[run].stage.result)
    case Crash(process) => DoCrash(s, process)
  }

  function Initial(c: Crypto, batch: Batch): System {
    System(c, batch, Tables([], [], map[], 0), map[], map[], map[])
  }

  // Invariants

  /** Anchored events are a prefix in sequence order. */
  predicate IsPrefix(events: seq<Event>) {
    forall i, j | 0 <= i < j < |events| :: events[j].anchor.Some? ==> events[i].anchor.Some?
  }

  /** A batch is a stretch of consecutive events whose predecessors are all anchored. */
  predicate IsBatch(events: seq<Event>, ids: seq<nat>) {
    && ids != []
    && (forall k | 0 <= k < |ids| :: ids[k] == ids[0] + k)
    && ids[0] + |ids| <= |events|
    && forall i | 0 <= i < ids[0] :: events[i].anchor.Some?
  }

  predicate Rooted(c: Crypto, events: seq<Event>, first: nat, count: nat, root: string) {
    0 < count && first + count <= |events| && root == Root(c, events[first..first + count])
  }

  predicate StageOk(c: Crypto, t: Tables, stage: Stage) {
    match stage
    case Fetched(ids, root) => IsBatch(t.events, ids) && Rooted(c, t.events, ids[0], |ids|, root)
    case Finalized(ids, tx) =>
      && IsBatch(t.events, ids)
      && tx in t.transactions && t.transactions[tx].first == ids[0] && t.transactions[tx].count == |ids|
    case _ => true
  }

  predicate TransactionOk(c: Crypto, t: Tables, tx: Transaction) {
    Rooted(c, t.events, tx.first, tx.count, tx.payloadHash) && tx.block < |t.blocks|
      && t.blocks[tx.block].rootHash == tx.payloadHash
  }

  predicate RefOk(t: Tables, i: nat, tx: Id) {
    tx in t.transactions && t.transactions[tx].first <= i < t.transactions[tx].first + t.transactions[tx].count
  }

  predicate TablesOk(c: Crypto, t: Tables) {
    && IsPrefix(t.events)
    && (forall tx :: tx in t.transactions ==> TransactionOk(c, t, t.transactions[tx]))
    && (forall i | 0 <= i < |t.events| :: t.events[i].anchor.Some? ==> RefOk(t, i, t.events[i].anchor.value))
  }

  predicate BlocksOk(c: Crypto, blocks: seq<Block>, numbers: nat) {
    && (forall i | 0 <= i < |blocks| :: 1 <= blocks[i].sequence <= numbers)
    && (forall i, j | 0 <= i < j < |blocks| :: blocks[i].sequence < blocks[j].sequence)
    && (forall i | 0 <= i < |blocks| ::
          && blocks[i].previousBlockHash == BlockHead(c, blocks[..i])
          && blocks[i].blockHash == c.hash(blocks[i].previousBlockHash + blocks[i].rootHash + blocks[i].createdAt))
  }

  /** A live run is the one its process's promise stands for. */
  predicate RunsOk(runs: map<Id, Flight>, running: map<Id, Id>) {
    && (forall p :: p in running ==>
       running[p] in runs && runs[running[p]].process == p && !runs[running[p]].stage.Lost?)
    && (forall r :: r in runs && Live(runs[r].stage) ==> runs[r].process in running && running[runs[r].process] == r)
  }

  predicate CallerOk(runs: map<Id, Flight>, running: map<Id, Id>, caller: Caller) {
    match caller
    case Owner(r) => r in runs && runs[r].process in running && running[runs[r].process] == r
    case Awaiting(r) => r in runs && !runs[r].stage.Lost?
    case Answered(r, result) => r in runs && runs[r].stage == Settled(result)
    case Gone => true
  }

  predicate CallersOk(runs: map<Id, Flight>, running: map<Id, Id>, callers: map<Id, Caller>) {
    forall k :: k in callers ==> CallerOk(runs, running, callers[k])
  }

  predicate OneOwner(callers: map<Id, Caller>) {
    forall j, k | j in callers && k in callers && callers[j].Owner? && callers[k].Owner? ::
      callers[j].run == callers[k].run ==> j == k
  }

  predicate StagesOk(c: Crypto, t: Tables, runs: map<Id, Flight>) {
    forall r :: r in runs ==> StageOk(c, t, runs[r].stage)
  }

  predicate Inv(s: System) {
    && TablesOk(s.crypto, s.tables)
    && BlocksOk(s.crypto, s.tables.blocks, s.tables.numbers)
    && StagesOk(s.crypto, s.tables, s.runs)
    && RunsOk(s.runs, s.running)
    && CallersOk(s.runs, s.running, s.callers)
    && OneOwner(s.callers)
  }
}
