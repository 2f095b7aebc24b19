/** AuditService, DevelopmentLedgerAdapter and AnchoringService as they run. */
module AuditServices {
  import opened Common
  import opened JsonText
  import opened Canonical
  import opened AuditChain
  import opened Anchoring
  import opened AnchoringProofs
  import opened AnchoringTheorems
  import opened BlockTheorems
  import I = Identity
  import opened IdentityServices

  datatype ChainResult = AllValid(checked: nat) | Broken(checked: nat, atSequence: nat, reason: Reason)

  datatype EventResult = EventResult(event: Event, checks: Checks, actorSignatureValid: Option<bool>, verified: bool)

  class AuditService {
    const crypto: Crypto
    const identity: IdentityService
    /** The table in sequence order. */
    var events: seq<Event>

    constructor (crypto: Crypto, identity: IdentityService)
      ensures this.crypto == crypto && this.identity == identity && events == []
    {
      this.crypto, this.identity, events := crypto, identity, [];
    }

    /** The event carries a signature that its stored key does not confirm. */
    ghost predicate Forged(e: Event)
      reads identity
    {
      I.Carries(e.signed) && !I.Confirmed(identity.verifies, identity.keys, e.signed)
    }

    /** What verifying the event alone comes to. */
    ghost predicate Verified(e: Event)
      reads this, identity
    {
      Intact(crypto, e, PredecessorHash(crypto, events, e)) && !Forged(e)
    }

    /** The locked transaction: read the latest event, hash, sign, insert. */
    method AppendEvent(input: Input, sequence: nat, now: string) returns (event: Event)
      modifies this
      ensures events == old(events) + [event]
      ensures Stores(crypto, old(events), input, sequence, now, event)
      ensures events == Append(crypto, old(events), input, sequence, now)
      ensures Sound(crypto) && Accepted(crypto, old(events)) ==> Accepted(crypto, events)
    {
      var previousHash := if events == [] then crypto.hash(GENESIS) else events[|events| - 1].currentHash;
      var payload := if input.payload.None? || input.payload.value.Null? then Obj([]) else input.payload.value;
      var payloadHash := crypto.hash(CanonicalStringify(payload, crypto.before));
      var actor := if input.actorId.None? then "" else input.actorId.value;
      var currentHash := crypto.hash(previousHash + payloadHash + now + actor);
      var signature := crypto.sign(currentHash);
      if Sound(crypto) && Accepted(crypto, events) { AppendAccepted(crypto, events, input, sequence, now); }
      event :=
        Event(sequence, input.resource, Some(payload), payloadHash, previousHash, currentHash, now, input.actorId,
                     signature, input.signed, None);
      events := events + [event];
    }

    /**
      * Walks the chain and stops at the first event that fails. On contiguously numbered events that is the first event
      * whose own verification fails, for the first reason in the order of the checks.
      */
    method VerifyChain() returns (r: ChainResult)
      ensures r.AllValid? <==> Accepted(crypto, events)
      ensures r.AllValid? ==> r.checked == |events|
      ensures r.Broken? ==>
                && 1 <= r.checked <= |events| && r.atSequence == events[r.checked - 1].sequence
                && Accepted(crypto, events[..r.checked - 1])
                && FailsBy(crypto, events[r.checked - 1], HashBefore(crypto, events, r.checked - 1), r.reason)
      ensures Contiguous(events) && r.Broken? ==>
                && (forall i | 0 <= i < r.checked - 1 ::
                   Intact(crypto, events[i], PredecessorHash(crypto, events, events[i])))
                && FailsBy(crypto, events[r.checked - 1],
                   PredecessorHash(crypto, events, events[r.checked - 1]), r.reason)
    {
      hide PredecessorHash, Contiguous, Accepted, Intact, FailsBy;
      var expectedPrevious := crypto.hash(GENESIS);
      var checked := 0;
      EmptyAccepted(crypto);
      while checked < |events|
        invariant 0 <= checked <= |events|
        invariant expectedPrevious == HashBefore(crypto, events, checked)
        invariant Accepted(crypto, events[..checked])
      {
        var event := events[checked];
        Agreement(checked);
        checked := checked + 1;
        NextAccepted(crypto, events, checked);
        var failure := Recompute(event, expectedPrevious);
        if failure.Some? { return Broken(checked, event.sequence, failure.value); }
        expectedPrevious := event.currentHash;
      }
      assert events[..checked] == events;
      r := AllValid(checked);
    }

    /** Recomputes one event of the walk; the first check to fail names the reason. */
    method Recompute(event: Event, expectedPrevious: string) returns (failure: Option<Reason>)
      ensures failure.None? <==> Intact(crypto, event, expectedPrevious)
      ensures failure.Some? ==> FailsBy(crypto, event, expectedPrevious, failure.value)
    {
      hide CanonicalStringify;
      var payloadHash := crypto.hash(CanonicalStringify(Payload(event), crypto.before));
      if payloadHash != event.payloadHash { return Some(PayloadHashMismatch); }
      if event.previousHash != expectedPrevious { return Some(ChainLinkBroken); }
      var recomputedCurrent := crypto.hash(expectedPrevious + payloadHash + event.createdAt + ActorText(event));
      if recomputedCurrent != event.currentHash { return Some(CurrentHashMismatch); }
      if !crypto.accepts(event.currentHash, event.signature) { return Some(SignatureInvalid); }
      failure := None;
    }

    lemma Agreement(n: nat)
      requires n < |events| && Accepted(crypto, events[..n])
      ensures Contiguous(events) ==>
                && (forall i | 0 <= i < n :: Intact(crypto, events[i], PredecessorHash(crypto, events, events[i])))
                && PredecessorHash(crypto, events, events[n]) == HashBefore(crypto, events, n)
    {
      hide Intact, PredecessorHash, Contiguous, HashBefore;
      if Contiguous(events) {
        PredecessorIsPrevious(crypto, events, n);
        forall i | 0 <= i < n ensures Intact(crypto, events[i], PredecessorHash(crypto, events, events[i])) {
          PredecessorIsPrevious(crypto, events, i);
          PrefixIntact(crypto, events, n, i);
          assert Intact(crypto, events[..n][i], HashBefore(crypto, events[..n], i));
        }
      }
    }

    /**
     * The four chain checks of one event, and its own signature if it carries one; None where there is no such event.
     */
    method VerifyEvent(i: nat) returns (r: Option<EventResult>)
      ensures r.None? <==> i >= |events|
      ensures r.Some? ==>
                var e, previous, checks := events[i], PredecessorHash(crypto, events, events[i]), r.value.checks;
                && r.value.event == e
                && (checks.payloadHashValid <==> PayloadIntact(crypto, e))
                && (checks.chainLinkValid <==> e.previousHash == previous)
                && (checks.payloadHashValid && checks.chainLinkValid ==>
                   (checks.currentHashValid <==> LinkIntact(crypto, e)))
                && (checks.signatureValid <==> crypto.accepts(e.currentHash, e.signature))
                && (r.value.actorSignatureValid == if I.Carries(e.signed) then Some(!Forged(e)) else None)
      ensures r.Some? ==> (r.value.verified <==> Verified(events[i]))
    {
      hide CanonicalStringify, Find, PredecessorHash, I.Confirmed;
      if i >= |events| { return None; }
      var event := events[i];
      var expectedPrevious := FindPrevious(event);
      var payloadHash := crypto.hash(CanonicalStringify(Payload(event), crypto.before));
      var recomputedCurrent := crypto.hash(expectedPrevious + payloadHash + event.createdAt + ActorText(event));
      var checks := Checks(payloadHash == event.payloadHash, event.previousHash == expectedPrevious,
                           recomputedCurrent == event.currentHash, crypto.accepts(event.currentHash, event.signature));
      var signed := VerifySignature(event);
      r := Some(EventResult(event, checks, signed,
                            checks.payloadHashValid && checks.chainLinkValid && checks.currentHashValid
                              && checks.signatureValid
                            && signed != Some(false)));
    }

    /** The hash of the first event numbered one less, or the genesis hash if there is none. */
    method FindPrevious(event: Event) returns (expectedPrevious: string)
      ensures expectedPrevious == PredecessorHash(crypto, events, event)
      ensures forall j | 0 <= j < |events| && 1 <= events[j].sequence == event.sequence - 1
                && (forall k | 0 <= k < j :: events[k].sequence != events[j].sequence) ::
                expectedPrevious == events[j].currentHash
      ensures event.sequence <= 1 || (forall j | 0 <= j < |events| :: events[j].sequence != event.sequence - 1) ==>
                expectedPrevious == crypto.hash("B-PFMPS-AUDIT-GENESIS")
    {
      PredecessorLookup(crypto, events, event);
      var previous: Option<Event> := None;
      if event.sequence > 1 {
        previous := Find(events, event.sequence - 1);
      }
      expectedPrevious := if previous.None? then crypto.hash(GENESIS) else previous.value.currentHash;
    }

    /** Against the key the signature was made with, active or not; None when the event carries no signature. */
    method VerifySignature(event: Event) returns (valid: Option<bool>)
      ensures valid == None <==> !I.Carries(event.signed)
      ensures valid == Some(true) <==> I.Confirmed(identity.verifies, identity.keys, event.signed)
      ensures valid == Some(false) <==> Forged(event)
      ensures valid == I.VerifyActorSignature(identity.verifies, identity.keys, event.signed)
    {
      var g := event.signed;
      if g.actorSignature.None? || g.actorSignature.value == "" || g.actorKeyId.None? || g.actorSignedPayload.None?
        || g.actorSignedPayload.value == "" { return None; }
      if g.actorKeyId.value !in identity.keys { return Some(false); }
      var key := identity.keys[g.actorKeyId.value];
      valid := Some(identity.verifies(g.actorSignedPayload.value, g.actorSignature.value, key.publicKey));
    }

    /** A signature that no stored key verifies is forged, and an event that carries one is not verified. */
    lemma ForgedNeverVerified(e: Event)
      requires I.Carries(e.signed)
      requires forall k :: k in identity.keys ==> !identity.verifies(e.signed.actorSignedPayload.value,
                                                                     e.signed.actorSignature.value,
                                                                     identity.keys[k].publicKey)
      ensures Forged(e) && !Verified(e)
    {}

    /**
      * Every event of one resource, once and in order, each verified against its true predecessor in the full chain;
      * `at` says where in the table the results stand.
      */
    method ReconstructResource(resource: string)
      returns (results: seq<EventResult>, fullyVerified: bool, ghost at: seq<nat>)
      ensures |at| == |results|
      ensures forall k | 0 <= k < |at| :: at[k] < |events| && results[k].event == events[at[k]]
      ensures forall j, k | 0 <= j < k < |at| :: at[j] < at[k]
      ensures forall i | 0 <= i < |events| :: i in at <==> events[i].resource == resource
      ensures forall k | 0 <= k < |results| :: results[k].verified <==> Verified(results[k].event)
      ensures fullyVerified <==> forall i | 0 <= i < |events| && events[i].resource == resource :: Verified(events[i])
      ensures Contiguous(events) && Accepted(crypto, events) ==>
                (fullyVerified <==>
                  forall i | 0 <= i < |events| && events[i].resource == resource :: !Forged(events[i]))
    {
      hide Intact, PredecessorHash, Contiguous, Accepted, Forged, PayloadIntact, LinkIntact;
      results, fullyVerified, at := [], true, [];
      for n := 0 to |events|
        invariant |at| == |results|
        invariant forall k | 0 <= k < |at| :: at[k] < n && results[k].event == events[at[k]]
        invariant forall j, k | 0 <= j < k < |at| :: at[j] < at[k]
        invariant forall i | 0 <= i < n :: i in at <==> events[i].resource == resource
        invariant forall k | 0 <= k < |results| :: results[k].verified <==> Verified(results[k].event)
        invariant fullyVerified <==> forall i | 0 <= i < n && events[i].resource == resource :: Verified(events[i])
      {
        if events[n].resource == resource {
          var r := VerifyEvent(n);
          results, at := results + [r.value], at + [n];
          fullyVerified := fullyVerified && r.value.verified;
        }
      }
      if Contiguous(events) { VerificationsAgree(crypto, events); }
    }

    /** The oldest events without a reference. */
    method GetUnanchoredEvents(limit: nat) returns (ids: seq<nat>)
      ensures AreOldest(events, limit, ids)
      ensures ids == GetUnanchored(events, limit)
    {
      hide AreOldest;
      ids := [];
      var i := 0;
      while i < |events| && |ids| < limit
        invariant 0 <= i <= |events| && |ids| <= limit
        invariant UnanchoredFrom(events, 0) == ids + UnanchoredFrom(events, i)
      {
        if events[i].anchor.None? { ids := ids + [i]; }
        i := i + 1;
      }
      assert ids == GetUnanchored(events, limit);
      OldestUnanchored(events, limit);
    }

    /** Sets the reference of those of the events that have none; never changes one. */
    method RecordAnchorOn(ids: seq<nat>, transaction: Id) returns (count: nat)
      modifies this
      ensures Referenced(old(events), events, ids, transaction)
      ensures events == RecordAnchor(old(events), ids, transaction)
      ensures count == |Missing(old(events), ids, |old(events)|)|
      ensures count == |AnchoredSet(events) - AnchoredSet(old(events))|
      ensures Extends(old(events), events)
    {
      hide RecordAnchor, Missing, AnchoredSet, Extends, Referenced;
      var was := events;
      ghost var goal := RecordAnchor(was, ids, transaction);
      RecordedAll(was, ids, transaction);
      var after: seq<Event> := [];
      count := 0;
      MissingStep(was, ids, 0);
      for i := 0 to |was|
        invariant after == goal[..i]
        invariant count == |Missing(was, ids, i)|
      {
        var event := was[i];
        RecordAnchorAt(was, ids, transaction, i);
        MissingStep(was, ids, i);
        if i in ids && event.anchor.None? {
          event := event.(anchor := Some(transaction));
          count := count + 1;
        }
        after := after + [event];
      }
      assert goal[..|was|] == goal;
      events := after;
    }
  }

  class DevelopmentLedgerAdapter {
    const crypto: Crypto
    var blocks: seq<Block>
    var transactions: map<Id, Transaction>
    /** The last block number handed out. */
    var numbers: nat

    constructor (crypto: Crypto)
      ensures this.crypto == crypto && blocks == [] && transactions == map[] && numbers == 0
    {
      this.crypto, blocks, transactions, numbers := crypto, [], map[], 0;
    }

    /** The locked transaction that appends a block and its one transaction; a rollback still uses up the number. */
    method RecordAndFinalize(
      root: string, first: nat, count: nat, id: Id, now: string, rollback: bool) returns (ok: bool)
      modifies this
      ensures ok == !rollback && numbers == old(numbers) + 1
      ensures ok ==>
                var previous :=
                  if old(blocks) == [] then crypto.hash("B-PFMPS-BLOCKCHAIN-GENESIS")
                  else old(blocks)[|old(blocks)| - 1].blockHash;
                && blocks == old(blocks) + [Block(numbers, previous, crypto.hash(previous + root + now), root, now)]
                && transactions == old(transactions)[id := Transaction(root, first, count, |old(blocks)|)]
      ensures ok ==> blocks == AppendBlock(crypto, old(blocks), numbers, root, now)
      ensures !ok ==> blocks == old(blocks) && transactions == old(transactions)
      ensures BlocksOk(crypto, old(blocks), old(numbers)) ==> BlocksOk(crypto, blocks, numbers)
    {
      BlocksNumbered(crypto, blocks, numbers, root, now);
      hide BlocksOk;
      numbers := numbers + 1;
      if rollback { return false; }
      var previousBlockHash := if blocks == [] then crypto.hash(GENESIS_BLOCK) else blocks[|blocks| - 1].blockHash;
      var blockHash := crypto.hash(previousBlockHash + root + now);
      transactions := transactions[id := Transaction(root, first, count, |blocks|)];
      blocks := blocks + [Block(numbers, previousBlockHash, blockHash, root, now)];
      ok := true;
    }

    /** Recomputes a transaction's block against the block numbered one less. */
    method VerifyTransaction(id: Id) returns (chainLinkValid: Option<bool>)
      ensures chainLinkValid.Some? <==> id in transactions && transactions[id].block < |blocks|
      ensures chainLinkValid.Some? ==>
                var b := blocks[transactions[id].block];
                chainLinkValid.value <==>
                  && b.blockHash == crypto.hash(b.previousBlockHash + b.rootHash + b.createdAt)
                  && (forall j: nat :: Precedes(blocks, j, b) ==> b.previousBlockHash == blocks[j].blockHash)
                  && ((forall j: nat :: !Precedes(blocks, j, b)) ==>
                     b.previousBlockHash == crypto.hash("B-PFMPS-BLOCKCHAIN-GENESIS"))
      ensures chainLinkValid.Some? && Consecutive(blocks) ==>
                (chainLinkValid.value <==> Follows(crypto, blocks, transactions[id].block))
      ensures chainLinkValid.Some? && BlocksOk(crypto, blocks, numbers) ==>
                var i := transactions[id].block;
                chainLinkValid.value <==> !AfterGap(blocks, i) || blocks[i - 1].blockHash == crypto.hash(GENESIS_BLOCK)
    {
      hide BlocksOk;
      if id !in transactions || transactions[id].block >= |blocks| { return None; }
      var block := blocks[transactions[id].block];
      LinkDecides(crypto, blocks, block);
      if Consecutive(blocks) { LinkOfConsecutive(crypto, blocks, transactions[id].block); }
      var previous: Option<Block> := None;
      if block.sequence > 1 { previous := FindBlock(blocks, block.sequence - 1); }
      var expectedPrevious := if previous.None? then crypto.hash(GENESIS_BLOCK) else previous.value.blockHash;
      var recomputedBlockHash := crypto.hash(expectedPrevious + block.rootHash + block.createdAt);
      if BlocksOk(crypto, blocks, numbers) { LinkLookup(crypto, blocks, numbers, transactions[id].block); }
      chainLinkValid := Some(block.previousBlockHash == expectedPrevious && recomputedBlockHash == block.blockHash);
    }
  }

  /** Where a run of anchoring is made to fail. */
  datatype Fault = NoFault | LedgerFails | RecordFails

  /** A call runs by itself, or awaits the run that is in flight. */
  datatype RunOutcome = Ran(result: Anchoring.Result) | JoinedRun(run: Id)

  class AnchoringService {
    const audit: AuditService
    const ledger: DevelopmentLedgerAdapter
    const batch: Batch
    var lastRunAt: nat
    /** The run in flight, if there is one. */
    var runningPromise: Option<Id>

    constructor (audit: AuditService, ledger: DevelopmentLedgerAdapter, batch: Batch, now: nat)
      ensures this.audit == audit && this.ledger == ledger && this.batch == batch && lastRunAt == now
              && runningPromise.None?
    {
      this.audit, this.ledger, this.batch, lastRunAt, runningPromise := audit, ledger, batch, now, None;
    }

    function Contents(): Tables
      reads audit, ledger
    {
      Tables(audit.events, ledger.blocks, ledger.transactions, ledger.numbers)
    }

    predicate Valid()
      reads audit, ledger
    {
      TablesOk(audit.crypto, Contents()) && BlocksOk(ledger.crypto, ledger.blocks, ledger.numbers)
    }

    /** The timer's tick: a call of runOnce exactly when the interval has passed since the last one. */
    method HandleInterval(now: nat, interval: nat, id: Id, time: string, fault: Fault) returns (r: Option<RunOutcome>)
      requires audit.crypto == ledger.crypto && Valid() && id !in ledger.transactions && lastRunAt <= now
      modifies this, audit, ledger
      ensures Valid() && runningPromise == old(runningPromise)
      ensures r.None? <==> now - old(lastRunAt) < interval
      ensures lastRunAt == if r.None? then old(lastRunAt) else now
      ensures r.None? || r.value.JoinedRun? ==> Contents() == old(Contents())
      ensures r.Some? && old(runningPromise).Some? ==> r.value == JoinedRun(old(runningPromise).value)
      ensures r.Some? && old(runningPromise).None? && fault.NoFault? ==>
                Backlog(audit.events) == Backlog(old(audit.events)) - Least(batch, Backlog(old(audit.events)))
    {
      hide TablesOk, BlocksOk, Extends, Backlog;
      if now - lastRunAt < interval { return None; }
      lastRunAt := now;
      var outcome := RunOnce(id, time, fault);
      r := Some(outcome);
    }

    /**
     * A call that finds a run in flight awaits it and changes nothing; otherwise it runs, and clears the promise after.
     */
    method RunOnce(id: Id, time: string, fault: Fault) returns (r: RunOutcome)
      requires audit.crypto == ledger.crypto && Valid() && id !in ledger.transactions
      modifies this`runningPromise, audit, ledger
      ensures Valid() && runningPromise == old(runningPromise)
      ensures r.JoinedRun? <==> old(runningPromise).Some?
      ensures r.JoinedRun? ==> r.run == old(runningPromise).value && Contents() == old(Contents())
      ensures r.Ran? && fault.NoFault? ==>
                && r.result.count == Least(batch, Backlog(old(audit.events)))
                && Backlog(audit.events) == Backlog(old(audit.events)) - r.result.count
      ensures r.Ran? && !fault.NoFault? ==> r.result == Anchored(0, None) && audit.events == old(audit.events)
    {
      hide TablesOk, BlocksOk, Extends, Backlog;
      if runningPromise.Some? { return JoinedRun(runningPromise.value); }
      runningPromise := Some(id);
      var result := DoRun(id, time, fault);
      runningPromise := None;
      r := Ran(result);
    }

    /**
      * One run: fetch a batch, put its root into a block, set the references. A failure anywhere is reported as nothing
      * anchored; without one the run anchors as much of the backlog as the batch size allows.
      */
    method DoRun(id: Id, now: string, fault: Fault) returns (r: Anchoring.Result)
      requires audit.crypto == ledger.crypto && Valid() && id !in ledger.transactions
      modifies audit, ledger
      ensures Valid()
      ensures Extends(old(audit.events), audit.events)
      ensures !fault.NoFault? ==> r == Anchored(0, None) && audit.events == old(audit.events)
      ensures fault.NoFault? ==>
                && r.count == Least(batch, Backlog(old(audit.events)))
                && Backlog(audit.events) == Backlog(old(audit.events)) - r.count
                && (r.transaction == if r.count == 0 then None else Some(id))
    {
      hide BlocksOk, Rooted, TransactionOk, RefOk, IsBatch, IsPrefix, Extends, GetUnanchored, Select, RecordAnchor,
        AnchoredSet, Boundary, AreOldest, Referenced;
      ExtendsSame(audit.events);
      PrefixOf(audit.crypto, Contents());
      var ids := audit.GetUnanchoredEvents(batch);
      FetchIsBatch(audit.events, batch);
      if ids == [] { return Anchored(0, None); }
      FetchRooted(audit.crypto, audit.events, batch);
      var rootHash := Root(audit.crypto, Select(audit.events, ids));
      FinalizeKeeps(audit.crypto, Contents(), ids, rootHash, id, now);
      var ok := ledger.RecordAndFinalize(rootHash, ids[0], |ids|, id, now, fault.LedgerFails?);
      if !ok { NumberUnused(audit.crypto, old(Contents()), Contents()); return Anchored(0, None); }
      assert Contents() == Finalization(audit.crypto, old(Contents()), ids, rootHash, id, now);
      if fault.RecordFails? { return Anchored(0, None); }
      RecordKeeps(audit.crypto, Contents(), ids, id);
      RecordMovesBoundary(audit.events, batch, id);
      var anchoredCount := audit.RecordAnchorOn(ids, id);
      r := Anchored(anchoredCount, Some(id));
    }
  }

  /** Where the events without a reference stand, in ascending order. */
  lemma {:induction false} UnanchoredExact(events: seq<Event>, i: nat)
    ensures forall j | i <= j < |events| :: j in UnanchoredFrom(events, i) <==> events[j].anchor.None?
    ensures forall j, k | 0 <= j < k < |UnanchoredFrom(events, i)| ::
              UnanchoredFrom(events, i)[j] < UnanchoredFrom(events, i)[k]
    decreases |events| - i
  {
    if i < |events| { UnanchoredExact(events, i + 1); }
  }

  /** The positions are unanchored, ascending and within the limit, and none before their end is passed over. */
  ghost predicate AreOldest(events: seq<Event>, limit: nat, ids: seq<nat>) {
    && |ids| <= limit && (forall k | 0 <= k < |ids| :: ids[k] < |events| && events[ids[k]].anchor.None?)
    && (forall j, k | 0 <= j < k < |ids| :: ids[j] < ids[k])
    && forall i | 0 <= i < |events| && events[i].anchor.None? && i !in ids ::
         |ids| == limit && forall k | 0 <= k < |ids| :: ids[k] < i
  }

  lemma OldestUnanchored(events: seq<Event>, limit: nat)
    ensures AreOldest(events, limit, GetUnanchored(events, limit))
  {
    UnanchoredExact(events, 0);
    var all, ids := UnanchoredFrom(events, 0), GetUnanchored(events, limit);
    hide UnanchoredFrom;
    assert ids == all[..|ids|];
    forall k | 0 <= k < |ids| ensures ids[k] < |events| && events[ids[k]].anchor.None? { assert all[k] in all; }
    forall i | 0 <= i < |events| && events[i].anchor.None? && i !in ids
      ensures |ids| == limit && forall k | 0 <= k < |ids| :: ids[k] < i
    {
      var m :| 0 <= m < |all| && all[m] == i;
      assert m >= |ids|;
    }
  }

  lemma PrefixOf(c: Crypto, t: Tables)
    requires TablesOk(c, t)
    ensures IsPrefix(t.events)
  {}

  lemma BlocksNumbered(c: Crypto, blocks: seq<Block>, numbers: nat, root: string, now: string)
    ensures BlocksOk(c, blocks, numbers) ==>
              BlocksOk(c, blocks, numbers + 1)
                && BlocksOk(c, AppendBlock(c, blocks, numbers + 1, root, now), numbers + 1)
  {
    if BlocksOk(c, blocks, numbers) { BlockKept(c, blocks, numbers, root, now); }
  }

  /** Exactly those of the events that had no reference now have this one, and nothing else changed. */
  ghost predicate Referenced(was: seq<Event>, events: seq<Event>, ids: seq<nat>, transaction: Id) {
    && |events| == |was|
    && forall i | 0 <= i < |was| ::
         events[i] == if i in ids && was[i].anchor.None? then was[i].(anchor := Some(transaction)) else was[i]
  }

  /** Those of the first `n` events that the update matches. */
  ghost function Missing(events: seq<Event>, ids: seq<nat>, n: nat): set<nat>
    requires n <= |events|
  {
    set i | 0 <= i < n && i in ids && events[i].anchor.None?
  }

  lemma MissingStep(events: seq<Event>, ids: seq<nat>, n: nat)
    requires n <= |events|
    ensures n == 0 ==> |Missing(events, ids, n)| == 0
    ensures n < |events| ==>
              |Missing(events, ids, n + 1)| == |Missing(events, ids, n)| + if n in ids
                && events[n].anchor.None? then 1 else 0
  {
    if n < |events| {
      assert Missing(events, ids, n + 1)
        == Missing(events, ids, n) + if n in ids && events[n].anchor.None? then {n} else {};
    }
  }

  lemma RecordAnchorAt(events: seq<Event>, ids: seq<nat>, transaction: Id, i: nat)
    requires i < |events|
    ensures RecordAnchor(events, ids, transaction)[i]
            == if i in ids && events[i].anchor.None? then events[i].(anchor := Some(transaction)) else events[i]
  {}

  lemma RecordedAll(events: seq<Event>, ids: seq<nat>, transaction: Id)
    ensures var after := RecordAnchor(events, ids, transaction);
            && Referenced(events, after, ids, transaction) && Extends(events, after)
            && Missing(events, ids, |events|) == AnchoredSet(after) - AnchoredSet(events)
  {
    RecordExtends(events, ids, transaction);
  }

  lemma EmptyAccepted(c: Crypto)
    ensures Accepted(c, [])
  {}

  lemma NextAccepted(c: Crypto, events: seq<Event>, n: nat)
    requires 0 < n <= |events| && Accepted(c, events[..n - 1])
    ensures Accepted(c, events[..n]) <==> Intact(c, events[n - 1], HashBefore(c, events, n - 1))
    ensures !Accepted(c, events[..n]) ==> !Accepted(c, events)
  {
    hide Intact, HashBefore;
    PrefixIntact(c, events, n, n - 1);
    if Accepted(c, events[..n]) { assert Intact(c, events[..n][n - 1], HashBefore(c, events[..n], n - 1)); }
    forall i | 0 <= i < n - 1 ensures Intact(c, events[..n][i], HashBefore(c, events[..n], i)) {
      PrefixIntact(c, events, n, i);
      PrefixIntact(c, events, n - 1, i);
      assert Intact(c, events[..n - 1][i], HashBefore(c, events[..n - 1], i));
    }
    if Accepted(c, events) { PrefixAccepted(c, events, n); }
  }
}
