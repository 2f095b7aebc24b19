/** Signing keys, signed requests and the audit rows that keep their signatures. */
module Identity {
  import opened Common
  import opened Runs

  datatype Key = Key(user: User, publicKey: string, revoked: bool, created: nat)

  /** A signed request: the text that was signed, the signature and the nonce in that text. */
  datatype Request = Request(user: User, payload: string, signature: string, nonce: string)

  /**
   * `Checked`: the signature matched `key`; `Accepted`: the nonce is consumed; `Recorded`: the audit row is written.
   */
  datatype Call =
    | Checked(request: Request, key: Id)
    | Accepted(request: Request, key: Id)
    | Recorded(request: Request, key: Id)
    | Refused(request: Request)

  /** The signature columns of an audit event. */
  datatype Signature = Signature(actorSignature: Option<string>, actorKeyId: Option<Id>,
    actorSignedPayload: Option<string>)

  const UNSIGNED := Signature(None, None, None)

  /** An audit event, as far as its own signature goes. */
  datatype Event = Event(user: User, signed: Signature)

  /** A key upload in flight; its transaction has found `stale` to revoke. */
  datatype Upload = Upload(user: User, stale: set<Id>)

  type Verifier = (string, string, string) -> bool

  datatype State = State(
    verifies: Verifier,
    keys: map<Id, Key>,
    nonces: map<string, User>,
    uploads: map<Id, Upload>,
    calls: map<Id, Call>,
    events: seq<Event>)

  datatype Move =
    | Begin(upload: Id, user: User)
    | Commit(upload: Id, key: Id, publicKey: string, now: nat)
    | Check(call: Id, request: Request, found: Option<Id>)
    | Consume(call: Id)
    | Record(call: Id)
    | Write(user: User)
    | Crash(call: Id)

  predicate IsActive(keys: map<Id, Key>, user: User, k: Id) {
    k in keys && keys[k].user == user && !keys[k].revoked
  }

  function Active(keys: map<Id, Key>, user: User): set<Id> {
    set k | k in keys && keys[k].user == user && !keys[k].revoked
  }

  /** The newest active key; among equally new ones any. */
  predicate IsNewest(keys: map<Id, Key>, user: User, k: Id) {
    IsActive(keys, user, k) && forall j :: j in keys && IsActive(keys, user, j) ==> keys[j].created <= keys[k].created
  }

  /** What reading the active key finds. */
  predicate IsFound(keys: map<Id, Key>, user: User, found: Option<Id>) {
    match found case None => Active(keys, user) == {} case Some(k) => IsNewest(keys, user, k)
  }

  function Rotated(keys: map<Id, Key>, stale: set<Id>): map<Id, Key> {
    map k | k in keys :: if k in stale then keys[k].(revoked := true) else keys[k]
  }

  function DoCommit(s: State, upload: Id, key: Id, publicKey: string, now: nat): State
    requires upload in s.uploads
  {
    var u := s.uploads[upload];
    s.(keys := Rotated(s.keys, u.stale)[key := Key(u.user, publicKey, false, now)], uploads := s.uploads - {upload})
  }

  function DoCheck(s: State, call: Id, r: Request, found: Option<Id>): State
    requires found.Some? ==> found.value in s.keys
  {
    if found.Some? && s.verifies(r.payload, r.signature, s.keys[found.value].publicKey)
    then s.(calls := s.calls[call := Checked(r, found.value)])
    else s.(calls := s.calls[call := Refused(r)])
  }

  function DoConsume(s: State, call: Id, r: Request, key: Id): State {
    if r.nonce in s.nonces then s.(calls := s.calls[call := Refused(r)])
    else s.(nonces := s.nonces[r.nonce := r.user], calls := s.calls[call := Accepted(r, key)])
  }

  function DoRecord(s: State, call: Id, r: Request, key: Id): State {
    s.(events := s.events + [Event(r.user, Signature(Some(r.signature), Some(key), Some(r.payload)))],
      calls := s.calls[call := Recorded(r, key)])
  }

  predicate May(s: State, m: Move) {
    match m
    case Begin(upload, _) => upload !in s.uploads
    case Commit(upload, key, _, _) => upload in s.uploads && key !in s.keys
    case Check(call, r, found) => call !in s.calls && r.signature != "" && r.payload != ""
      && IsFound(s.keys, r.user, found)
    case Consume(call) => call in s.calls && s.calls[call].Checked?
    case Record(call) => call in s.calls && s.calls[call].Accepted?
    case Write(_) => true
    case Crash(call) => call in s.calls && s.calls[call].Checked?
  }

  function Next(s: State, m: Move): State {
    if !May(s, m) then s else
    match m
    case Begin(upload, user) => s.(uploads := s.uploads[upload := Upload(user, Active(s.keys, user))])
    case Commit(upload, key, publicKey, now) => DoCommit(s, upload, key, publicKey, now)
    case Check(call, r, found) => DoCheck(s, call, r, found)
    case Consume(call) => DoConsume(s, call, s.calls[call].request, s.calls[call].key)
    case Record(call) => DoRecord(s, call, s.calls[call].request, s.calls[call].key)
    case Write(user) => s.(events := s.events + [Event(user, UNSIGNED)])
    case Crash(call) => s.(calls := s.calls[call := Refused(s.calls[call].request)])
  }

  function Initial(verifies: Verifier): State {
    State(verifies, map[], map[], map[], map[], [])
  }

  predicate Present(o: Option<string>) {
    o.Some? && o.value != ""
  }

  /** Re-verifies an event's own signature against the key it was made with, whatever became of that key. */
  function VerifyActorSignature(verifies: Verifier, keys: map<Id, Key>, g: Signature): Option<bool> {
    if !Present(g.actorSignature) || g.actorKeyId.None? || !Present(g.actorSignedPayload) then None
    else if g.actorKeyId.value !in keys then Some(false)
    else Some(verifies(g.actorSignedPayload.value, g.actorSignature.value, keys[g.actorKeyId.value].publicKey))
  }

  /** The signature columns all hold something. */
  ghost predicate Carries(g: Signature) {
    && g.actorSignature != None && g.actorSignature != Some("")
    && g.actorKeyId != None
    && g.actorSignedPayload != None && g.actorSignedPayload != Some("")
  }

  /** The signature column is a signature of the payload column under the stored key that the key column names. */
  ghost predicate Confirmed(verifies: Verifier, keys: map<Id, Key>, g: Signature) {
    && Carries(g) && g.actorKeyId.value in keys
    && verifies(g.actorSignedPayload.value, g.actorSignature.value, keys[g.actorKeyId.value].publicKey)
  }

  // Invariant

  predicate Signed(s: State, r: Request, key: Id) {
    && key in s.keys && s.keys[key].user == r.user && r.signature != "" && r.payload != ""
    && s.verifies(r.payload, r.signature, s.keys[key].publicKey)
  }

  predicate Consumed(c: Call) {
    c.Accepted? || c.Recorded?
  }

  predicate CallOk(s: State, c: Call) {
    c.Refused? || (Signed(s, c.request, c.key) && (Consumed(c) ==> c.request.nonce in s.nonces))
  }

  predicate EventOk(s: State, e: Event) {
    var g := e.signed;
    g.actorSignature.None? ||
    (g.actorSignature.Some? && g.actorKeyId.Some? && g.actorSignedPayload.Some?
     && Signed(s, Request(e.user, g.actorSignedPayload.value, g.actorSignature.value, ""), g.actorKeyId.value))
  }

  predicate NoncesOnce(calls: map<Id, Call>) {
    forall j, k | j in calls && k in calls && Consumed(calls[j]) && Consumed(calls[k]) ::
      calls[j].request.nonce == calls[k].request.nonce ==> j == k
  }

  predicate Inv(s: State) {
    && (forall k :: k in s.calls ==> CallOk(s, s.calls[k]))
    && (forall i | 0 <= i < |s.events| :: EventOk(s, s.events[i]))
    && NoncesOnce(s.calls)
    && forall u :: u in s.uploads ==> s.uploads[u].stale <= s.keys.Keys
  }

  /** Keys are never removed or changed but for being revoked, and neither nonces nor events are removed. */
  ghost predicate Grew(s: State, t: State) {
    && t.verifies == s.verifies
    && (forall k :: k in s.keys ==>
       k in t.keys && t.keys[k].(revoked := s.keys[k].revoked) == s.keys[k]
         && (s.keys[k].revoked ==> t.keys[k].revoked))
    && s.nonces.Keys <= t.nonces.Keys
    && s.events <= t.events
  }

  lemma NextGrew(s: State, m: Move)
    ensures Grew(s, Next(s, m))
  {
    hide Active;
  }

  lemma CallGrew(s: State, t: State, c: Call)
    requires Grew(s, t) && CallOk(s, c)
    ensures CallOk(t, c)
  {}

  lemma EventGrew(s: State, t: State, e: Event)
    requires Grew(s, t) && EventOk(s, e)
    ensures EventOk(t, e)
  {}

  lemma NextCalls(s: State, m: Move)
    requires Inv(s) && May(s, m)
    ensures var t := Next(s, m); forall k :: k in t.calls ==> CallOk(t, t.calls[k])
  {
    var t := Next(s, m);
    NextGrew(s, m);
    hide Grew, Active;
    forall k | k in t.calls ensures CallOk(t, t.calls[k]) {
      if k in s.calls && t.calls[k] == s.calls[k] { CallGrew(s, t, s.calls[k]); } else if k in s.calls {
        assert CallOk(s, s.calls[k]);
      }
    }
  }

  lemma NextEvents(s: State, m: Move)
    requires Inv(s) && May(s, m)
    ensures var t := Next(s, m); forall i | 0 <= i < |t.events| :: EventOk(t, t.events[i])
  {
    var t := Next(s, m);
    NextGrew(s, m);
    hide Grew, Active;
    if m.Record? { assert CallOk(s, s.calls[m.call]); }
    forall i | 0 <= i < |t.events| ensures EventOk(t, t.events[i]) {
      if i < |s.events| { EventGrew(s, t, s.events[i]); }
    }
  }

  lemma NextNonces(s: State, m: Move)
    requires Inv(s) && May(s, m)
    ensures NoncesOnce(Next(s, m).calls)
  {
    hide Active;
    if m.Consume? {
      forall k | k in s.calls && Consumed(s.calls[k]) ensures s.calls[k].request.nonce in s.nonces {
        assert CallOk(s, s.calls[k]);
      }
    }
  }

  lemma NextKept(s: State, m: Move)
    requires Inv(s) && May(s, m)
    ensures Inv(Next(s, m))
  {
    NextCalls(s, m);
    NextEvents(s, m);
    NextNonces(s, m);
    hide CallOk, EventOk, NoncesOnce;
  }

  ghost predicate Reached(s: State) {
    exists ms :: IsRun(Initial(s.verifies), ms, Next, May) && Run(Initial(s.verifies), ms, Next) == s
  }

  lemma ReachedInv(s: State)
    requires Reached(s)
    ensures Inv(s)
  {
    var ms :| IsRun(Initial(s.verifies), ms, Next, May) && Run(Initial(s.verifies), ms, Next) == s;
    assert Inv(Initial(s.verifies));
    hide Inv, Next, May;
    forall t, m | Inv(t) && May(t, m) ensures Inv(Next(t, m)) { NextKept(t, m); }
    Invariant(Initial(s.verifies), ms, Next, May, Inv);
  }

  lemma GrewPreorder()
    ensures Preorder(Grew)
  {}

  predicate Any(s: State) { true }

  lemma RunGrew(s: State, ms: seq<Move>)
    requires IsRun(s, ms, Next, May)
    ensures Grew(s, Run(s, ms, Next))
  {
    GrewPreorder();
    hide Grew, Next, May;
    forall t, m | true ensures Grew(t, Next(t, m)) { NextGrew(t, m); }
    Monotone(s, ms, Next, May, Any, Grew);
  }

  // What it guarantees

  /** A nonce is accepted at most once, however calls interleave. */
  lemma NonceAcceptedOnce(s: State, j: Id, k: Id)
    requires Reached(s) && j in s.calls && k in s.calls && Consumed(s.calls[j]) && Consumed(s.calls[k])
    requires s.calls[j].request.nonce == s.calls[k].request.nonce
    ensures j == k
  {
    ReachedInv(s);
  }

  /** Once accepted, a nonce is refused for good. */
  lemma UsedNonceRefused(s: State, j: Id, ms: seq<Move>, k: Id)
    requires Reached(s) && j in s.calls && Consumed(s.calls[j]) && IsRun(s, ms, Next, May)
    requires var t := Run(s, ms, Next);
             k in t.calls && t.calls[k].Checked?
             && t.calls[k].request.nonce == s.calls[j].request.nonce
    ensures var t := Run(s, ms, Next);
            Next(t, Consume(k)).calls == t.calls[k := Refused(t.calls[k].request)]
            && Next(t, Consume(k)).nonces == t.nonces
  {
    ReachedInv(s);
    assert CallOk(s, s.calls[j]);
    RunGrew(s, ms);
  }

  /**
   * A signature that was accepted and recorded verifies for ever, whatever keys are uploaded and revoked afterwards.
   */
  lemma RecordedStaysValid(s: State, i: nat, ms: seq<Move>)
    requires Reached(s) && i < |s.events| && s.events[i].signed.actorSignature.Some? && IsRun(s, ms, Next, May)
    ensures var t := Run(s, ms, Next);
            i < |t.events| && t.events[i] == s.events[i]
              && Confirmed(t.verifies, t.keys, t.events[i].signed)
              && VerifyActorSignature(t.verifies, t.keys, t.events[i].signed) == Some(true)
    ensures var key := s.events[i].signed.actorKeyId;
            key.Some? && key.value in s.keys
            && s.keys[key.value].user == s.events[i].user
  {
    ReachedInv(s);
    RunGrew(s, ms);
    var t := Run(s, ms, Next);
    assert EventOk(s, s.events[i]);
    EventGrew(s, t, s.events[i]);
  }

  /** A request passes the signature check exactly when its user's newest active key verifies it. */
  lemma CheckDecides(s: State, call: Id, r: Request, found: Option<Id>)
    requires May(s, Check(call, r, found))
    ensures var t := Next(s, Check(call, r, found));
            && t == s.(calls := t.calls) && t.calls.Keys == s.calls.Keys + {call}
            && (forall k :: k in s.calls ==> t.calls[k] == s.calls[k])
            && (found == None <==> forall k :: k in s.keys && s.keys[k].user == r.user ==> s.keys[k].revoked)
            && (found != None ==>
                 && found.value in s.keys && s.keys[found.value].user == r.user && !s.keys[found.value].revoked
                 && forall k :: k in s.keys && s.keys[k].user == r.user && !s.keys[k].revoked ==>
                      s.keys[k].created <= s.keys[found.value].created)
            && (found != None && s.verifies(r.payload, r.signature, s.keys[found.value].publicKey) ==>
                 t.calls[call] == Checked(r, found.value))
            && (found == None || !s.verifies(r.payload, r.signature, s.keys[found.value].publicKey) ==>
                 t.calls[call] == Refused(r))
  {
    if found == None {
      forall k | k in s.keys && s.keys[k].user == r.user ensures s.keys[k].revoked {
        assert k !in Active(s.keys, r.user);
      }
    }
  }

  /** A properly signed request with a new nonce is accepted, and recorded with its own signature, key and text. */
  lemma SignedRequestRecorded(s: State, call: Id, r: Request, key: Id)
    requires May(s, Check(call, r, Some(key))) && s.verifies(r.payload, r.signature, s.keys[key].publicKey)
    requires r.nonce !in s.nonces
    ensures var ms := [Check(call, r, Some(key)), Consume(call), Record(call)];
            && IsRun(s, ms, Next, May)
            && var t := Run(s, ms, Next);
               && t.events == s.events + [Event(r.user, Signature(Some(r.signature), Some(key), Some(r.payload)))]
               && t.nonces == s.nonces[r.nonce := r.user] && t.keys == s.keys
               && t.calls == s.calls[call := Recorded(r, key)]
  {
    RunOfThree(s, Check(call, r, Some(key)), Consume(call), Record(call), Next, May);
  }

  // Active keys

  /** An upload leaves its own key active, and with it exactly those that were uploaded while it was in flight. */
  lemma CommitActive(s: State, upload: Id, key: Id, publicKey: string, now: nat)
    requires May(s, Commit(upload, key, publicKey, now))
    ensures var user := s.uploads[upload].user;
            Active(Next(s, Commit(upload, key, publicKey, now)).keys, user)
              == Active(s.keys, user) - s.uploads[upload].stale + {key}
    ensures var keys := Next(s, Commit(upload, key, publicKey, now)).keys;
            && keys.Keys == s.keys.Keys + {key} && keys[key] == Key(s.uploads[upload].user, publicKey, false, now)
            && forall k :: k in s.keys ==>
                 keys[k] == Key(s.keys[k].user, s.keys[k].publicKey, s.keys[k].revoked || k in s.uploads[upload].stale,
                                s.keys[k].created)
  {}

  /** An upload finds exactly the keys of its user that are active when it begins. */
  lemma BeginFinds(s: State, upload: Id, user: User)
    requires May(s, Begin(upload, user))
    ensures var t := Next(s, Begin(upload, user));
            && t.keys == s.keys && t.uploads.Keys == s.uploads.Keys + {upload} && t.uploads[upload].user == user
            && forall k :: k in t.uploads[upload].stale <==> k in s.keys && s.keys[k].user == user && !s.keys[k].revoked
  {}

  /** So it leaves a single active key exactly when every key active at its commit was already active when it began. */
  lemma CommitLeavesOne(s: State, upload: Id, key: Id, publicKey: string, now: nat)
    requires May(s, Commit(upload, key, publicKey, now))
    ensures |Active(Next(s, Commit(upload, key, publicKey, now)).keys, s.uploads[upload].user)| == 1
            <==> Active(s.keys, s.uploads[upload].user) <= s.uploads[upload].stale
  {
    CommitActive(s, upload, key, publicKey, now);
    var rest := Active(s.keys, s.uploads[upload].user) - s.uploads[upload].stale;
    assert key !in rest;
    assert |rest + {key}| == |rest| + 1;
    assert rest == {} <==> Active(s.keys, s.uploads[upload].user) <= s.uploads[upload].stale by {
      forall k | k in Active(s.keys, s.uploads[upload].user) && k !in s.uploads[upload].stale ensures k in rest {}
    }
  }

  datatype Whole = Whole(upload: Id, user: User, key: Id, publicKey: string, now: nat)

  /** An upload that nothing overtakes. */
  function UploadWhole(s: State, w: Whole): State {
    Next(Next(s, Begin(w.upload, w.user)), Commit(w.upload, w.key, w.publicKey, w.now))
  }

  predicate OneActive(s: State) {
    forall j, k | j in s.keys && k in s.keys && !s.keys[j].revoked && !s.keys[k].revoked ::
      s.keys[j].user == s.keys[k].user ==> j == k
  }

  predicate MayWhole(s: State, w: Whole) {
    w.upload !in s.uploads && w.key !in s.keys
  }

  lemma {:induction false} AtMostOneActive(s: State, ws: seq<Whole>)
    requires IsRun(s, ws, UploadWhole, MayWhole) && OneActive(s)
    ensures OneActive(Run(s, ws, UploadWhole))
  {
    forall t, w | OneActive(t) && MayWhole(t, w) ensures OneActive(UploadWhole(t, w)) {}
    hide OneActive, UploadWhole, MayWhole;
    Invariant(s, ws, UploadWhole, MayWhole, OneActive);
  }

  /** Two first uploads of one user that overlap both stay active. */
  lemma OverlappingUploads(s: State, user: User, a: Id, b: Id, j: Id, k: Id, publicKey: string, now: nat)
    requires a != b && a !in s.uploads && b !in s.uploads && j != k && j !in s.keys && k !in s.keys
    ensures var t := Next(Next(s, Begin(a, user)), Begin(b, user));
            var u := Next(Next(t, Commit(a, j, publicKey, now)), Commit(b, k, publicKey, now));
            IsActive(u.keys, user, j) && IsActive(u.keys, user, k)
  {}
}
