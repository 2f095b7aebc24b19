/** Every move of the anchoring processes keeps the invariant. */
module AnchoringProofs {
  import opened Common
  import opened AuditChain
  import opened Anchoring

  /** Events are only added, never changed but for a reference that is set once. */
  predicate Extends(e: seq<Event>, f: seq<Event>) {
    |e| <= |f| && forall i | 0 <= i < |e| :: SameButAnchor(e[i], f[i])
  }

  predicate SameButAnchor(e: Event, f: Event) {
    f == e || (e.anchor.None? && f == e.(anchor := f.anchor))
  }

  predicate TxsExtend(t: map<Id, Transaction>, u: map<Id, Transaction>) {
    forall x :: x in t ==> x in u && u[x] == t[x]
  }

  lemma {:induction false} JoinedSame(a: seq<Event>, b: seq<Event>)
    requires |a| == |b| && forall i | 0 <= i < |a| :: a[i].currentHash == b[i].currentHash
    ensures Joined(a) == Joined(b)
  {
    if |a| > 1 { JoinedSame(a[1..], b[1..]); }
  }

  lemma RootedKept(c: Crypto, e: seq<Event>, f: seq<Event>, first: nat, count: nat, root: string)
    requires Extends(e, f) && Rooted(c, e, first, count, root)
    ensures Rooted(c, f, first, count, root)
  {
    JoinedSame(e[first..first + count], f[first..first + count]);
  }

  lemma BatchKept(e: seq<Event>, f: seq<Event>, ids: seq<nat>)
    requires Extends(e, f) && IsBatch(e, ids)
    ensures IsBatch(f, ids)
  {}

  lemma StagesKept(c: Crypto, t: Tables, u: Tables, runs: map<Id, Flight>)
    requires StagesOk(c, t, runs) && Extends(t.events, u.events) && TxsExtend(t.transactions, u.transactions)
    ensures StagesOk(c, u, runs)
  {
    hide Extends, IsBatch, Rooted;
    forall r | r in runs ensures StageOk(c, u, runs[r].stage) {
      assert StageOk(c, t, runs[r].stage);
      match runs[r].stage
      case Fetched(ids, root) =>
        BatchKept(t.events, u.events, ids);
        RootedKept(c, t.events, u.events, ids[0], |ids|, root);
      case Finalized(ids, tx) => BatchKept(t.events, u.events, ids);
      case _ =>
    }
  }

  // The statements on the tables

  lemma {:induction false} UnanchoredFromTail(events: seq<Event>, i: nat, m: nat)
    requires i <= m <= |events| && (forall k | i <= k < m :: events[k].anchor.Some?) && forall k | m <= k < |events| ::
             events[k].anchor.None?
    ensures |UnanchoredFrom(events, i)| == |events| - m
    ensures forall k | 0 <= k < |events| - m :: UnanchoredFrom(events, i)[k] == m + k
    decreases |events| - i
  {
    if i < |events| {
      UnanchoredFromTail(events, i + 1, if i < m then m else m + 1);
    }
  }

  /** Where the anchored prefix ends. */
  function {:tailrecursion false} Boundary(events: seq<Event>): (m: nat)
    ensures m <= |events|
  {
    if events == [] || events[0].anchor.None? then 0 else 1 + Boundary(events[1..])
  }

  lemma {:induction false} BoundaryDivides(events: seq<Event>)
    requires IsPrefix(events)
    ensures forall k | 0 <= k < |events| :: events[k].anchor.Some? <==> k < Boundary(events)
  {
    if events != [] {
      assert IsPrefix(events[1..]);
      BoundaryDivides(events[1..]);
      forall k | 0 <= k < |events| ensures events[k].anchor.Some? <==> k < Boundary(events) {
        if k > 0 { assert events[k] == events[1..][k - 1]; }
      }
    }
  }

  /** A fetched batch is the stretch of events just after the anchored prefix. */
  lemma FetchIsBatch(events: seq<Event>, limit: Batch)
    requires IsPrefix(events)
    ensures var ids, m := GetUnanchored(events, limit), Boundary(events);
            && |ids| == (if limit <= |events| - m then limit else |events| - m)
            && (forall k | 0 <= k < |ids| :: ids[k] == m + k)
            && (ids != [] ==> IsBatch(events, ids))
  {
    BoundaryDivides(events);
    UnanchoredFromTail(events, 0, Boundary(events));
  }

  lemma FetchRooted(c: Crypto, events: seq<Event>, limit: Batch)
    requires IsPrefix(events) && GetUnanchored(events, limit) != []
    ensures var ids := GetUnanchored(events, limit);
            IsBatch(events, ids) && Rooted(c, events, ids[0], |ids|, Root(c, Select(events, ids)))
  {
    FetchIsBatch(events, limit);
    var ids := GetUnanchored(events, limit);
    assert Select(events, ids) == events[ids[0]..ids[0] + |ids|];
  }

  lemma RecordExtends(events: seq<Event>, ids: seq<nat>, tx: Id)
    ensures Extends(events, RecordAnchor(events, ids, tx))
  {}

  lemma RecordKeepsPrefix(events: seq<Event>, ids: seq<nat>, tx: Id)
    requires IsPrefix(events) && IsBatch(events, ids)
    ensures IsPrefix(RecordAnchor(events, ids, tx))
  {
    var after := RecordAnchor(events, ids, tx);
    forall i, j | 0 <= i < j < |after| && after[j].anchor.Some? ensures after[i].anchor.Some? {
      if events[j].anchor.None? && ids[0] <= i {
        assert ids[i - ids[0]] == i;
      }
    }
  }

  lemma TablesKept(c: Crypto, t: Tables, u: Tables)
    requires TablesOk(c, t) && IsPrefix(u.events) && Extends(t.events, u.events) && u.transactions == t.transactions
             && u.blocks == t.blocks
    requires forall i | 0 <= i < |u.events| && u.events[i].anchor.Some?
             && (i < |t.events| ==> t.events[i].anchor.None?) ::
               RefOk(u, i, u.events[i].anchor.value)
    ensures TablesOk(c, u)
  {
    hide Rooted, IsPrefix;
    forall tx | tx in u.transactions ensures TransactionOk(c, u, u.transactions[tx]) {
      var x := t.transactions[tx];
      assert TransactionOk(c, t, x);
      RootedKept(c, t.events, u.events, x.first, x.count, x.payloadHash);
    }
    forall i | 0 <= i < |u.events| && u.events[i].anchor.Some? ensures RefOk(u, i, u.events[i].anchor.value) {
      if i < |t.events| && t.events[i].anchor.Some? { assert RefOk(t, i, t.events[i].anchor.value); }
    }
  }

  lemma WriteKeeps(c: Crypto, t: Tables, input: Input, sequence: nat, now: string)
    requires TablesOk(c, t)
    ensures var u := t.(events := Append(c, t.events, input, sequence, now));
            TablesOk(c, u) && Extends(t.events, u.events)
  {
    var u := t.(events := Append(c, t.events, input, sequence, now));
    hide Rooted, TransactionOk, RefOk;
    TablesKept(c, t, u);
  }

  lemma RecordKeeps(c: Crypto, t: Tables, ids: seq<nat>, tx: Id)
    requires TablesOk(c, t) && IsBatch(t.events, ids)
    requires tx in t.transactions && t.transactions[tx].first == ids[0] && t.transactions[tx].count == |ids|
    ensures var u := t.(events := RecordAnchor(t.events, ids, tx));
            TablesOk(c, u) && Extends(t.events, u.events)
  {
    hide Rooted, TransactionOk, IsPrefix;
    var u := t.(events := RecordAnchor(t.events, ids, tx));
    RecordExtends(t.events, ids, tx);
    RecordKeepsPrefix(t.events, ids, tx);
    TablesKept(c, t, u);
  }

  lemma FinalizeKeeps(c: Crypto, t: Tables, ids: seq<nat>, root: string, newId: Id, now: string)
    requires TablesOk(c, t) && newId !in t.transactions && IsBatch(t.events, ids)
             && Rooted(c, t.events, ids[0], |ids|, root)
    ensures var u := Finalization(c, t, ids, root, newId, now);
            TablesOk(c, u) && TxsExtend(t.transactions, u.transactions)
  {
    hide Rooted, IsPrefix;
    var u := Finalization(c, t, ids, root, newId, now);
    forall tx | tx in u.transactions ensures TransactionOk(c, u, u.transactions[tx]) {
      if tx != newId { assert TransactionOk(c, t, t.transactions[tx]); }
    }
    forall i | 0 <= i < |u.events| && u.events[i].anchor.Some? ensures RefOk(u, i, u.events[i].anchor.value) {
      assert RefOk(t, i, t.events[i].anchor.value);
    }
  }

  lemma BlockKept(c: Crypto, blocks: seq<Block>, numbers: nat, root: string, now: string)
    requires BlocksOk(c, blocks, numbers)
    ensures BlocksOk(c, AppendBlock(c, blocks, numbers + 1, root, now), numbers + 1)
  {
    var after := AppendBlock(c, blocks, numbers + 1, root, now);
    forall i | 0 <= i < |after|
      ensures after[i].previousBlockHash == BlockHead(c, after[..i])
      ensures after[i].blockHash == c.hash(after[i].previousBlockHash + after[i].rootHash + after[i].createdAt)
    {
      if i < |blocks| { assert after[..i] == blocks[..i]; } else { assert after[..i] == blocks; }
    }
  }

  // The service

  lemma RunsSet(runs: map<Id, Flight>, running: map<Id, Id>, r: Id, stage: Stage)
    requires RunsOk(runs, running) && r in runs && Live(runs[r].stage) && !stage.Lost?
    ensures RunsOk(runs[r := runs[r].(stage := stage)], running)
  {}

  lemma CallersSet(runs: map<Id, Flight>, running: map<Id, Id>, callers: map<Id, Caller>, r: Id, stage: Stage)
    requires CallersOk(runs, running, callers) && r in runs && Live(runs[r].stage) && !stage.Lost?
    ensures CallersOk(runs[r := runs[r].(stage := stage)], running, callers)
  {
    forall k | k in callers ensures CallerOk(runs[r := runs[r].(stage := stage)], running, callers[k]) {
      assert CallerOk(runs, running, callers[k]);
    }
  }

  lemma StagesSet(c: Crypto, t: Tables, runs: map<Id, Flight>, r: Id, stage: Stage)
    requires StagesOk(c, t, runs) && r in runs && StageOk(c, t, stage)
    ensures StagesOk(c, t, runs[r := runs[r].(stage := stage)])
  {
    hide StageOk;
  }

  lemma StageKept(s: System, r: Id, t: Tables, stage: Stage)
    requires Inv(s) && r in s.runs && Live(s.runs[r].stage) && !stage.Lost?
    requires TablesOk(s.crypto, t) && BlocksOk(s.crypto, t.blocks, t.numbers) && StageOk(s.crypto, t, stage)
    requires Extends(s.tables.events, t.events) && TxsExtend(s.tables.transactions, t.transactions)
    ensures Inv(SetStage(s.(tables := t), r, stage))
  {
    hide TablesOk, BlocksOk, StagesOk, RunsOk, CallersOk, StageOk, Extends, TxsExtend;
    StagesKept(s.crypto, s.tables, t, s.runs);
    StagesSet(s.crypto, t, s.runs, r, stage);
    RunsSet(s.runs, s.running, r, stage);
    CallersSet(s.runs, s.running, s.callers, r, stage);
  }

  lemma WriteMove(s: System, input: Input, sequence: nat, now: string)
    requires Inv(s)
    ensures Inv(s.(tables := s.tables.(events := Append(s.crypto, s.tables.events, input, sequence, now))))
  {
    hide TablesOk, BlocksOk, StagesOk, RunsOk, CallersOk, Extends, Append;
    WriteKeeps(s.crypto, s.tables, input, sequence, now);
    StagesKept(s.crypto, s.tables, s.tables.(events := Append(s.crypto, s.tables.events, input, sequence, now)),
      s.runs);
  }

  lemma BurnMove(s: System)
    requires Inv(s)
    ensures Inv(s.(tables := s.tables.(numbers := s.tables.numbers + 1)))
  {
    hide RunsOk, CallersOk, OneOwner, TablesOk, StagesOk;
    var t := s.tables.(numbers := s.tables.numbers + 1);
    NumberUnused(s.crypto, s.tables, t);
    ExtendsSame(s.tables.events);
    StagesKept(s.crypto, s.tables, t, s.runs);
  }

  /** A number that no block took changes nothing else. */
  lemma NumberUnused(c: Crypto, t: Tables, u: Tables)
    requires TablesOk(c, t) && u == t.(numbers := u.numbers)
    ensures TablesOk(c, u)
  {
    hide Rooted, IsPrefix;
    forall tx | tx in u.transactions ensures TransactionOk(c, u, u.transactions[tx]) {
      assert TransactionOk(c, t, t.transactions[tx]);
    }
    forall i | 0 <= i < |u.events| && u.events[i].anchor.Some? ensures RefOk(u, i, u.events[i].anchor.value) {
      assert RefOk(t, i, t.events[i].anchor.value);
    }
  }

  lemma ExtendsSame(events: seq<Event>)
    ensures Extends(events, events)
  {}

  lemma CallMove(s: System, process: Id, caller: Id, newId: Id)
    requires Inv(s) && caller !in s.callers && newId !in s.runs
    ensures Inv(RunOnce(s, process, caller, newId))
  {
    hide TablesOk, BlocksOk, StagesOk, StageOk;
    var u := RunOnce(s, process, caller, newId);
    StartedOk(s.crypto, s.tables);
    StagesPut(s.crypto, s.tables, s.runs, newId, Flight(process, Started));
    forall k | k in u.callers ensures CallerOk(u.runs, u.running, u.callers[k]) {
      if k != caller { assert CallerOk(s.runs, s.running, s.callers[k]); }
    }
    OwnerPut(s.runs, s.running, s.callers, caller, u.callers[caller], newId);
  }

  lemma OwnerPut(
    runs: map<Id, Flight>, running: map<Id, Id>, callers: map<Id, Caller>, k: Id, caller: Caller, newId: Id)
    requires CallersOk(runs, running, callers) && OneOwner(callers) && newId !in runs
             && (caller.Owner? ==> caller.run == newId)
    ensures OneOwner(callers[k := caller])
  {
    forall j | j in callers && callers[j].Owner? ensures callers[j].run in runs {
      assert CallerOk(runs, running, callers[j]);
    }
  }

  lemma StagesPut(c: Crypto, t: Tables, runs: map<Id, Flight>, r: Id, run: Flight)
    requires StagesOk(c, t, runs) && StageOk(c, t, run.stage)
    ensures StagesOk(c, t, runs[r := run])
  {
    hide StageOk;
  }

  lemma StartedOk(c: Crypto, t: Tables)
    ensures StageOk(c, t, Started) && StageOk(c, t, Lost)
    ensures forall result :: StageOk(c, t, Settled(result))
  {}

  lemma AnswerMove(s: System, caller: Id)
    requires Inv(s) && Awaits(s, caller)
    ensures Inv(Next(s, Answer(caller)))
  {
    hide TablesOk, BlocksOk, StagesOk;
    var u := Next(s, Answer(caller));
    forall k | k in u.callers ensures CallerOk(u.runs, u.running, u.callers[k]) {
      assert CallerOk(s.runs, s.running, s.callers[k]);
    }
  }

  lemma FetchMove(s: System, r: Id)
    requires Inv(s) && r in s.runs && s.runs[r].stage.Started?
    ensures Inv(DoFetch(s, r))
  {
    hide BlocksOk, StagesOk, RunsOk, CallersOk, OneOwner, IsPrefix, IsBatch, Rooted, TransactionOk, RefOk,
      GetUnanchored, Select;
    var ids := GetUnanchored(s.tables.events, s.batch);
    if ids == [] {
      StageKept(s, r, s.tables, Settled(Anchored(0, None)));
    } else {
      FetchRooted(s.crypto, s.tables.events, s.batch);
      StageKept(s, r, s.tables, Fetched(ids, Root(s.crypto, Select(s.tables.events, ids))));
    }
  }

  lemma FinalizeMove(s: System, r: Id, newId: Id, now: string)
    requires Inv(s) && May(s, Finalize(r, newId, now))
    ensures Inv(Next(s, Finalize(r, newId, now)))
  {
    hide TablesOk, BlocksOk, RunsOk, CallersOk, OneOwner, IsBatch, Rooted, AppendBlock;
    var stage := s.runs[r].stage;
    var u := Finalization(s.crypto, s.tables, stage.ids, stage.root, newId, now);
    assert StageOk(s.crypto, s.tables, stage);
    FinalizeKeeps(s.crypto, s.tables, stage.ids, stage.root, newId, now);
    BlockKept(s.crypto, s.tables.blocks, s.tables.numbers, stage.root, now);
    StageKept(s, r, u, Finalized(stage.ids, newId));
  }

  lemma RecordMove(s: System, r: Id, lost: bool)
    requires Inv(s) && May(s, Record(r, lost))
    ensures Inv(Next(s, Record(r, lost)))
  {
    hide TablesOk, BlocksOk, RunsOk, CallersOk, OneOwner, IsBatch, Rooted, RecordAnchor, AnchoredSet, Extends;
    var stage := s.runs[r].stage;
    var u := s.tables.(events := RecordAnchor(s.tables.events, stage.ids, stage.transaction));
    assert StageOk(s.crypto, s.tables, stage);
    RecordKeeps(s.crypto, s.tables, stage.ids, stage.transaction);
    StageKept(s, r, u, Next(s, Record(r, lost)).runs[r].stage);
  }

  lemma ThrowMove(s: System, r: Id)
    requires Inv(s) && May(s, Throw(r))
    ensures Inv(Next(s, Throw(r)))
  {
    hide TablesOk, BlocksOk, StagesOk, RunsOk, CallersOk, OneOwner;
    StageKept(s, r, s.tables, Settled(Anchored(0, None)));
  }

  lemma CrashMove(s: System, process: Id)
    requires Inv(s)
    ensures Inv(DoCrash(s, process))
  {
    hide TablesOk, BlocksOk, StageOk;
    var u := DoCrash(s, process);
    StartedOk(s.crypto, s.tables);
    forall r | r in u.runs ensures StageOk(u.crypto, u.tables, u.runs[r].stage) {
      assert StageOk(s.crypto, s.tables, s.runs[r].stage);
    }
    forall k | k in u.callers ensures CallerOk(u.runs, u.running, u.callers[k]) {
      assert CallerOk(s.runs, s.running, s.callers[k]);
    }
  }

  lemma NextKept(s: System, m: Move)
    requires Inv(s)
    ensures Inv(Next(s, m))
  {
    hide Inv, DoFetch, DoRecord, DoCrash, RunOnce, DoAnswer, Append, Finalization;
    if May(s, m) {
      match m
      case Write(input, sequence, now) => WriteMove(s, input, sequence, now);
      case Burn => BurnMove(s);
      case Call(process, caller, newId) => CallMove(s, process, caller, newId);
      case Fetch(r) => FetchMove(s, r);
      case Finalize(r, newId, now) => FinalizeMove(s, r, newId, now);
      case Record(r, lost) => RecordMove(s, r, lost);
      case Throw(r) => ThrowMove(s, r);
      case Answer(caller) => AnswerMove(s, caller);
      case Crash(process) => CrashMove(s, process);
    }
  }
}
