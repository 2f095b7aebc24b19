/**
 * The hash chain over audit events: what an append writes, what verification checks, and what a chain's last hash pins
 * down.
 */
module AuditChain {
  import opened Common
  import opened JsonText
  import opened Canonical
  import Identity

  /** The library functions the chain is built on; nothing is known of them but what `Sound` says. */
  datatype Crypto = Crypto(
    hash: string -> string,
    sign: string -> string,
    accepts: (string, string) -> bool,
    before: KeyOrder)

  const DIGEST := 64

  /** A digest is 64 characters long, the signing keys are a pair, and keys are totally ordered. */
  ghost predicate Sound(c: Crypto) {
    && (forall s :: |c.hash(s)| == DIGEST)
    && (forall s :: c.accepts(s, c.sign(s)))
    && TotalOrder(c.before)
  }

  /** The columns the chain reads; `resource` stands for the type and the id of the resource. */
  datatype Event = Event(
    sequence: nat,
    resource: string,
    payload: Option<Json>,
    payloadHash: string,
    previousHash: string,
    currentHash: string,
    createdAt: string,
    actorIdSnapshot: Option<string>,
    signature: string,
    signed: Identity.Signature,
    anchor: Option<Id>)

  datatype Input = Input(resource: string, payload: Option<Json>, actorId: Option<string>, signed: Identity.Signature)

  const GENESIS := "B-PFMPS-AUDIT-GENESIS"

  /** A missing payload and a JSON null both count as the empty object. */
  function OrEmpty(payload: Option<Json>): Json {
    match payload
    case None => Obj([])
    case Some(v) => if v.Null? then Obj([]) else v
  }

  function Payload(e: Event): Json {
    OrEmpty(e.payload)
  }

  function ActorText(e: Event): string {
    match e.actorIdSnapshot case None => "" case Some(id) => id
  }

  /** What `toISOString` prints: a plain four-digit year, or a signed six-digit one. */
  predicate IsTime(t: string) {
    t != "" && if t[0] == '+' || t[0] == '-' then |t| == 27 else |t| == 24
  }

  function LinkText(previous: string, payloadHash: string, createdAt: string, actor: string): string {
    previous + payloadHash + createdAt + actor
  }

  function PayloadHash(c: Crypto, e: Event): string {
    c.hash(CanonicalStringify(Payload(e), c.before))
  }

  /** The hash an event must have after an event with hash `previous`. */
  function Recomputed(c: Crypto, previous: string, e: Event): string {
    c.hash(LinkText(previous, PayloadHash(c, e), e.createdAt, ActorText(e)))
  }

  /** The hash that the next event must name as its previous one. */
  function Head(c: Crypto, events: seq<Event>): string {
    if events == [] then c.hash(GENESIS) else events[|events| - 1].currentHash
  }

  // Appending

  function Append(c: Crypto, events: seq<Event>, input: Input, sequence: nat, now: string): seq<Event> {
    var payload := OrEmpty(input.payload);
    var payloadHash := c.hash(CanonicalStringify(payload, c.before));
    var actor := match input.actorId case None => "" case Some(id) => id;
    var currentHash := c.hash(LinkText(Head(c, events), payloadHash, now, actor));
    events
      + [Event(sequence, input.resource, Some(payload), payloadHash, Head(c, events), currentHash, now, input.actorId,
                    c.sign(currentHash), input.signed, None)]
  }

  /**
    * What an append stores: the input's columns as they are, but for a missing or null payload, which becomes the empty
    * object; and the hashes of the stored columns, linked to the event before.
    */
  ghost predicate Stores(c: Crypto, events: seq<Event>, input: Input, sequence: nat, now: string, e: Event) {
    && e.sequence == sequence && e.resource == input.resource && e.createdAt == now
       && e.actorIdSnapshot == input.actorId
    && e.signed == input.signed && e.anchor == None
    && e.payload == (if input.payload == None || input.payload == Some(Null) then Some(Obj([])) else input.payload)
    && e.payloadHash == c.hash(CanonicalStringify(e.payload.value, c.before))
    && e.previousHash
       == (if events == [] then c.hash("B-PFMPS-AUDIT-GENESIS") else events[|events| - 1].currentHash)
    && e.currentHash
       == c.hash(e.previousHash + e.payloadHash + now + (if input.actorId == None then "" else input.actorId.value))
    && e.signature == c.sign(e.currentHash)
  }

  /** An append adds one event, with these columns. */
  lemma AppendStores(c: Crypto, events: seq<Event>, input: Input, sequence: nat, now: string)
    ensures var after := Append(c, events, input, sequence, now);
            && |after| == |events| + 1 && after[..|events|] == events
            && Stores(c, events, input, sequence, now, after[|events|])
  {
    hide CanonicalStringify;
  }

  // Verifying

  datatype Reason = PayloadHashMismatch | ChainLinkBroken | CurrentHashMismatch | SignatureInvalid

  datatype Checks = Checks(payloadHashValid: bool, chainLinkValid: bool, currentHashValid: bool, signatureValid: bool)

  function Check(c: Crypto, e: Event, expectedPrevious: string): Checks {
    Checks(
      PayloadHash(c, e) == e.payloadHash,
      e.previousHash == expectedPrevious,
      Recomputed(c, expectedPrevious, e) == e.currentHash,
      c.accepts(e.currentHash, e.signature))
  }

  predicate Passes(checks: Checks) {
    checks.payloadHashValid && checks.chainLinkValid && checks.currentHashValid && checks.signatureValid
  }

  /** The first check that fails, in the order they are listed. */
  function FirstFailure(checks: Checks): Option<Reason> {
    if !checks.payloadHashValid then Some(PayloadHashMismatch)
    else if !checks.chainLinkValid then Some(ChainLinkBroken)
    else if !checks.currentHashValid then Some(CurrentHashMismatch)
    else if !checks.signatureValid then Some(SignatureInvalid)
    else None
  }

  /** The payload hash is that of the payload column; a missing payload and a null are hashed as the empty object. */
  ghost predicate PayloadIntact(c: Crypto, e: Event) {
    && (e.payload == None || e.payload == Some(Null) ==>
       e.payloadHash == c.hash(CanonicalStringify(Obj([]), c.before)))
    && (e.payload.Some? && e.payload.value != Null ==>
       e.payloadHash == c.hash(CanonicalStringify(e.payload.value, c.before)))
  }

  /** The current hash is that of the other columns. */
  ghost predicate LinkIntact(c: Crypto, e: Event) {
    e.currentHash == c.hash(e.previousHash + e.payloadHash + e.createdAt
                            + if e.actorIdSnapshot == None then "" else e.actorIdSnapshot.value)
  }

  /** A row that nothing is wrong with, after a row with hash `previous`. */
  ghost predicate Intact(c: Crypto, e: Event, previous: string) {
    PayloadIntact(c, e) && e.previousHash == previous && LinkIntact(c, e) && c.accepts(e.currentHash, e.signature)
  }

  /** What is wrong with a row, if what is checked before it is in order. */
  ghost predicate FailsBy(c: Crypto, e: Event, previous: string, reason: Reason) {
    match reason
    case PayloadHashMismatch => !PayloadIntact(c, e)
    case ChainLinkBroken => PayloadIntact(c, e) && e.previousHash != previous
    case CurrentHashMismatch => PayloadIntact(c, e) && e.previousHash == previous && !LinkIntact(c, e)
    case SignatureInvalid =>
      && PayloadIntact(c, e) && e.previousHash == previous && LinkIntact(c, e)
      && !c.accepts(e.currentHash, e.signature)
  }

  /** The four checks find out what is wrong with a row: nothing, or the first thing in their order. */
  lemma ChecksDecide(c: Crypto, e: Event, previous: string)
    ensures Passes(Check(c, e, previous)) <==> Intact(c, e, previous)
    ensures FirstFailure(Check(c, e, previous)).None? <==> Intact(c, e, previous)
    ensures forall r :: FirstFailure(Check(c, e, previous)) == Some(r) <==> FailsBy(c, e, previous, r)
  {
    hide CanonicalStringify;
  }

  /** The current hash of the row before row `i`, and for the first row the genesis hash. */
  ghost function HashBefore(c: Crypto, events: seq<Event>, i: nat): string
    requires i <= |events|
  {
    if i == 0 then c.hash("B-PFMPS-AUDIT-GENESIS") else events[i - 1].currentHash
  }

  /** Every row is intact after the row before it. */
  ghost predicate Accepted(c: Crypto, events: seq<Event>) {
    forall i | 0 <= i < |events| :: Intact(c, events[i], HashBefore(c, events, i))
  }

  function Find(events: seq<Event>, sequence: nat): Option<Event> {
    if events == [] then None
    else if events[0].sequence == sequence then Some(events[0])
    else Find(events[1..], sequence)
  }

  /** What verifying one event takes as its predecessor's hash: that of the event numbered one less. */
  function PredecessorHash(c: Crypto, events: seq<Event>, e: Event): string {
    var previous := if e.sequence > 1 then Find(events, e.sequence - 1) else None;
    match previous case None => c.hash(GENESIS) case Some(p) => p.currentHash
  }

  /** Numbered one by one, from any first number. */
  predicate Contiguous(events: seq<Event>) {
    forall i | 0 <= i < |events| :: 1 <= events[i].sequence == events[0].sequence + i
  }

  /** A prefix of the table looks the same to its rows. */
  lemma PrefixIntact(c: Crypto, events: seq<Event>, n: nat, i: nat)
    requires i <= n <= |events|
    ensures HashBefore(c, events[..n], i) == HashBefore(c, events, i)
    ensures i < n ==> events[..n][i] == events[i]
  {}

  lemma StoredIntact(c: Crypto, events: seq<Event>, input: Input, sequence: nat, now: string, e: Event)
    requires Sound(c) && Stores(c, events, input, sequence, now, e)
    ensures Intact(c, e, HashBefore(c, events, |events|))
  {
    hide CanonicalStringify, TotalOrder;
  }

  /** An accepted chain stays accepted when an event is appended. */
  lemma AppendAccepted(c: Crypto, events: seq<Event>, input: Input, sequence: nat, now: string)
    requires Sound(c) && Accepted(c, events)
    ensures Accepted(c, Append(c, events, input, sequence, now))
  {
    hide Sound, Stores, Append, Intact, HashBefore;
    var after := Append(c, events, input, sequence, now);
    AppendStores(c, events, input, sequence, now);
    StoredIntact(c, events, input, sequence, now, after[|events|]);
    forall i | 0 <= i < |after| ensures Intact(c, after[i], HashBefore(c, after, i)) {
      PrefixIntact(c, after, |events|, i);
      if i < |events| { assert Intact(c, events[i], HashBefore(c, events, i)); }
    }
  }

  datatype Write = Write(input: Input, sequence: nat, now: string)

  /** The chain built by appending, one after another, under the lock that serialises appends. */
  function Appended(c: Crypto, writes: seq<Write>): seq<Event> {
    if writes == [] then []
    else
      var w := writes[|writes| - 1];
      Append(c, Appended(c, writes[..|writes| - 1]), w.input, w.sequence, w.now)
  }

  /** Every chain built by appending is accepted, and so is each of its prefixes. */
  lemma {:induction false} AppendedAccepted(c: Crypto, writes: seq<Write>, k: nat)
    requires Sound(c) && k <= |writes|
    ensures |Appended(c, writes)| == |writes|
    ensures Accepted(c, Appended(c, writes)[..k])
  {
    hide Append, Accepted, Sound;
    AppendedWhole(c, writes);
    PrefixAccepted(c, Appended(c, writes), k);
  }

  lemma {:induction false} AppendedWhole(c: Crypto, writes: seq<Write>)
    requires Sound(c)
    ensures |Appended(c, writes)| == |writes| && Accepted(c, Appended(c, writes))
  {
    hide Sound, CanonicalStringify;
    if writes != [] {
      var w := writes[|writes| - 1];
      AppendedWhole(c, writes[..|writes| - 1]);
      AppendAccepted(c, Appended(c, writes[..|writes| - 1]), w.input, w.sequence, w.now);
    }
  }

  lemma PrefixAccepted(c: Crypto, events: seq<Event>, k: nat)
    requires Accepted(c, events) && k <= |events|
    ensures Accepted(c, events[..k])
  {
    hide Intact, HashBefore;
    forall i | 0 <= i < k ensures Intact(c, events[..k][i], HashBefore(c, events[..k], i)) {
      PrefixIntact(c, events, k, i);
      assert Intact(c, events[i], HashBefore(c, events, i));
    }
  }

  lemma {:induction false} FindAt(events: seq<Event>, i: nat)
    requires i < |events| && forall j | 0 <= j < i :: events[j].sequence != events[i].sequence
    ensures Find(events, events[i].sequence) == Some(events[i])
  {
    if i > 0 { FindAt(events[1..], i - 1); }
  }

  lemma {:induction false} FindNone(events: seq<Event>, sequence: nat)
    requires forall j | 0 <= j < |events| :: events[j].sequence != sequence
    ensures Find(events, sequence) == None
  {
    if events != [] { FindNone(events[1..], sequence); }
  }

  /** On contiguously numbered events, looking the predecessor up by number finds the previous event. */
  lemma PredecessorIsPrevious(c: Crypto, events: seq<Event>, i: nat)
    requires Contiguous(events) && i < |events|
    ensures PredecessorHash(c, events, events[i]) == HashBefore(c, events, i)
  {
    if i > 0 {
      FindAt(events, i - 1);
    } else if events[0].sequence > 1 {
      FindNone(events, events[0].sequence - 1 as nat);
    }
  }

  /** The predecessor of an event is the first one numbered one less, if there is one. */
  lemma {:induction false} PredecessorLookup(c: Crypto, events: seq<Event>, e: Event)
    ensures forall j | 0 <= j < |events| && 1 <= events[j].sequence == e.sequence - 1
              && (forall k | 0 <= k < j :: events[k].sequence != events[j].sequence) ::
              PredecessorHash(c, events, e) == events[j].currentHash
    ensures e.sequence <= 1 || (forall j | 0 <= j < |events| :: events[j].sequence != e.sequence - 1) ==>
              PredecessorHash(c, events, e) == c.hash("B-PFMPS-AUDIT-GENESIS")
  {
    forall j | 0 <= j < |events| && 1 <= events[j].sequence == e.sequence - 1
      && (forall k | 0 <= k < j :: events[k].sequence != events[j].sequence)
      ensures PredecessorHash(c, events, e) == events[j].currentHash
    {
      FindAt(events, j);
    }
    if e.sequence > 1 && forall j | 0 <= j < |events| :: events[j].sequence != e.sequence - 1 {
      FindNone(events, e.sequence - 1);
    }
  }

  /** Whole-chain verification accepts exactly when every event is intact after its numbered predecessor. */
  lemma VerificationsAgree(c: Crypto, events: seq<Event>)
    requires Contiguous(events)
    ensures Accepted(c, events) <==>
              forall i | 0 <= i < |events| :: Intact(c, events[i], PredecessorHash(c, events, events[i]))
  {
    hide Intact, PredecessorHash, Contiguous;
    forall i | 0 <= i < |events|
      ensures PredecessorHash(c, events, events[i])
              == HashBefore(c, events, i)
    {
      PredecessorIsPrevious(c, events, i);
    }
  }

  // Tamper evidence

  /** The texts that verification hashes. */
  ghost function Hashed(c: Crypto, events: seq<Event>): set<string> {
    {GENESIS}
    + (set i | 0 <= i < |events| :: CanonicalStringify(Payload(events[i]), c.before))
    + (set i | 0 <= i < |events| :: OwnLink(events[i]))
  }

  function OwnLink(e: Event): string {
    LinkText(e.previousHash, e.payloadHash, e.createdAt, ActorText(e))
  }

  ghost predicate Collides(c: Crypto, texts: set<string>) {
    exists s, t | s in texts && t in texts :: s != t && c.hash(s) == c.hash(t)
  }

  /** What the columns of a row can hold: a time and a JSON value. */
  predicate WellFormed(events: seq<Event>) {
    forall i | 0 <= i < |events| ::
      IsTime(events[i].createdAt) && (events[i].payload.Some? ==> Valid(events[i].payload.value))
  }

  /** No payload, a null and the empty object. */
  ghost predicate Blank(payload: Option<Json>) {
    payload == None || payload == Some(Null) || payload == Some(Obj([]))
  }

  /** Payloads are alike if both are blank, or the same JSON value up to key order. */
  ghost predicate SamePayload(p: Option<Json>, q: Option<Json>) {
    (Blank(p) && Blank(q)) || (p.Some? && q.Some? && Same(p.value, q.value))
  }

  /** No actor and an empty one are alike. */
  ghost predicate SameActor(a: Option<string>, b: Option<string>) {
    a == b || ((a == None || a == Some("")) && (b == None || b == Some("")))
  }

  /** The columns of two rows agree in what the chain protects. */
  ghost predicate SameContent(e: Event, f: Event) {
    && SamePayload(e.payload, f.payload)
    && e.createdAt == f.createdAt
    && SameActor(e.actorIdSnapshot, f.actorIdSnapshot)
  }

  lemma PayloadValid(events: seq<Event>, i: nat)
    requires WellFormed(events) && i < |events|
    ensures Valid(Payload(events[i])) && IsTime(events[i].createdAt)
  {
    hide IsTime;
    assert Valid(Obj([]));
  }

  /** Read as the chain reads them, the columns decide the same. */
  lemma PayloadAlike(e: Event, f: Event)
    ensures SamePayload(e.payload, f.payload) <==> Same(Payload(e), Payload(f))
    ensures SameActor(e.actorIdSnapshot, f.actorIdSnapshot) <==> ActorText(e) == ActorText(f)
  {
    BlankAlone(Payload(e), Payload(f));
  }

  /** Nothing but the empty object is the same as the empty object. */
  lemma BlankAlone(v: Json, w: Json)
    ensures v == Obj([]) ==> (Same(v, w) <==> w == Obj([]))
    ensures w == Obj([]) ==> (Same(v, w) <==> v == Obj([]))
  {
    if v.Obj? && w == Obj([]) && v.fields != [] { assert !HasSame(v.fields[0], []); }
    if w.Obj? && v == Obj([]) && w.fields != [] { assert !HasKey([], w.fields[0].key); }
  }

  /** The parts of a link's text are recovered from it although nothing separates them. */
  lemma LinkUnique(p: string, q: string, h: string, k: string, t: string, u: string, x: string, y: string)
    requires |p| == |q| && |h| == |k| && IsTime(t) && IsTime(u)
    requires LinkText(p, h, t, x) == LinkText(q, k, u, y)
    ensures p == q && h == k && t == u && x == y
  {
    var s := LinkText(p, h, t, x);
    assert p == s[..|p|] && q == s[..|p|];
    assert h == s[|p|..|p| + |h|] && k == s[|p|..|p| + |h|];
    assert t[0] == s[|p| + |h|] == u[0];
    assert t == s[|p| + |h|..|p| + |h| + |t|] && u == s[|p| + |h|..|p| + |h| + |t|];
    assert x == s[|p| + |h| + |t|..] && y == s[|p| + |h| + |t|..];
  }

  lemma Distinct(c: Crypto, texts: set<string>, s: string, t: string)
    requires !Collides(c, texts) && s in texts && t in texts && c.hash(s) == c.hash(t)
    ensures s == t
  {}

  lemma LastAccepted(c: Crypto, events: seq<Event>)
    requires Accepted(c, events) && events != []
    ensures var n := |events| - 1;
            && Accepted(c, events[..n])
            && events[n].previousHash == Head(c, events[..n])
            && events[n].payloadHash == PayloadHash(c, events[n])
            && events[n].currentHash == c.hash(OwnLink(events[n]))
  {
    hide CanonicalStringify;
    PrefixAccepted(c, events, |events| - 1);
    assert Intact(c, events[|events| - 1], HashBefore(c, events, |events| - 1));
  }

  lemma HeadLength(c: Crypto, events: seq<Event>)
    requires Sound(c) && Accepted(c, events)
    ensures |Head(c, events)| == DIGEST
  {
    if events != [] { LastAccepted(c, events); }
  }

  lemma LastHashed(c: Crypto, events: seq<Event>)
    requires events != []
    ensures var e := events[|events| - 1];
            GENESIS in Hashed(c, events) && OwnLink(e) in Hashed(c, events)
              && CanonicalStringify(Payload(e), c.before) in Hashed(c, events)
    ensures Hashed(c, events[..|events| - 1]) <= Hashed(c, events)
  {
    hide CanonicalStringify, OwnLink;
    var e := events[|events| - 1];
    var init := events[..|events| - 1];
    forall s | s in Hashed(c, init) ensures s in Hashed(c, events) {
      forall i | 0 <= i < |init| ensures init[i] == events[i] {}
    }
  }

  lemma LinkLength(c: Crypto, events: seq<Event>)
    requires Sound(c) && Accepted(c, events) && events != []
    ensures var e := events[|events| - 1];
            |e.previousHash| == DIGEST && |e.payloadHash| == DIGEST && OwnLink(e) != GENESIS
  {
    hide CanonicalStringify;
    LastAccepted(c, events);
    HeadLength(c, events[..|events| - 1]);
  }

  /** A chain with events does not end in the hash an empty chain starts from. */
  lemma NotGenesis(c: Crypto, events: seq<Event>, texts: set<string>)
    requires Sound(c) && Accepted(c, events) && events != [] && Hashed(c, events) <= texts && !Collides(c, texts)
    ensures Head(c, events) != c.hash(GENESIS)
  {
    hide Sound, Accepted, Hashed, Collides;
    LastAccepted(c, events);
    LinkLength(c, events);
    LastHashed(c, events);
    if Head(c, events) == c.hash(GENESIS) {
      Distinct(c, texts, OwnLink(events[|events| - 1]), GENESIS);
    }
  }

  lemma SameLast(c: Crypto, a: seq<Event>, b: seq<Event>, texts: set<string>)
    requires Sound(c) && Accepted(c, a) && Accepted(c, b) && a != [] && b != [] && WellFormed(a) && WellFormed(b)
    requires Hashed(c, a) <= texts && Hashed(c, b) <= texts && !Collides(c, texts) && Head(c, a) == Head(c, b)
    ensures SameContent(a[|a| - 1], b[|b| - 1]) && Head(c, a[..|a| - 1]) == Head(c, b[..|b| - 1])
  {
    hide Accepted, Hashed, Collides, CanonicalStringify, Same, Valid, TotalOrder, IsTime, OwnLink, LinkText;
    var e, f := a[|a| - 1], b[|b| - 1];
    LastAccepted(c, a);
    LastAccepted(c, b);
    LinkLength(c, a);
    LinkLength(c, b);
    LastHashed(c, a);
    LastHashed(c, b);
    Distinct(c, texts, OwnLink(e), OwnLink(f));
    OwnLinkUnique(e, f);
    Distinct(c, texts, CanonicalStringify(Payload(e), c.before), CanonicalStringify(Payload(f), c.before));
    PayloadValid(a, |a| - 1);
    PayloadValid(b, |b| - 1);
    CanonicalExact(Payload(e), Payload(f), c.before);
    PayloadAlike(e, f);
  }

  lemma OwnLinkUnique(e: Event, f: Event)
    requires |e.previousHash| == |f.previousHash| && |e.payloadHash| == |f.payloadHash| && IsTime(e.createdAt)
             && IsTime(f.createdAt)
    requires OwnLink(e) == OwnLink(f)
    ensures e.previousHash == f.previousHash && e.payloadHash == f.payloadHash
    ensures e.createdAt == f.createdAt && ActorText(e) == ActorText(f)
  {
    hide LinkText, IsTime;
    LinkUnique(e.previousHash, f.previousHash, e.payloadHash, f.payloadHash, e.createdAt, f.createdAt, ActorText(e),
      ActorText(f));
  }

  /** Two chains have the same content, event by event. */
  ghost predicate SameHistory(a: seq<Event>, b: seq<Event>) {
    |a| == |b| && forall i | 0 <= i < |a| :: SameContent(a[i], b[i])
  }

  lemma {:induction false} HeadPins(c: Crypto, a: seq<Event>, b: seq<Event>, texts: set<string>)
    requires Sound(c) && Accepted(c, a) && Accepted(c, b) && WellFormed(a) && WellFormed(b)
    requires Hashed(c, a) <= texts && Hashed(c, b) <= texts && !Collides(c, texts) && Head(c, a) == Head(c, b)
    ensures SameHistory(a, b)
    decreases |a|
  {
    hide Sound, Accepted, Hashed, Collides, SameContent, IsTime, Valid;
    if a != [] { NotGenesis(c, a, texts); }
    if b != [] { NotGenesis(c, b, texts); }
    if a != [] {
      SameLast(c, a, b, texts);
      PrefixAccepted(c, a, |a| - 1);
      PrefixAccepted(c, b, |b| - 1);
      LastHashed(c, a);
      LastHashed(c, b);
      HeadPins(c, a[..|a| - 1], b[..|b| - 1], texts);
    }
  }

  /**
    * Tamper evidence: two accepted chains that end in the same hash have the same history, or
    * two different texts hashed while verifying them have one digest.
    */
  lemma TamperEvident(c: Crypto, a: seq<Event>, b: seq<Event>)
    requires Sound(c) && Accepted(c, a) && Accepted(c, b) && WellFormed(a) && WellFormed(b) && Head(c, a) == Head(c, b)
    ensures SameHistory(a, b) || Collides(c, Hashed(c, a) + Hashed(c, b))
  {
    hide Sound, Accepted, Hashed, Collides, SameHistory, WellFormed;
    if !Collides(c, Hashed(c, a) + Hashed(c, b)) { HeadPins(c, a, b, Hashed(c, a) + Hashed(c, b)); }
  }

  /** Conversely, the last hash depends on nothing but the history: rows read back from the database hash the same. */
  lemma {:induction false} HistoryFixesHead(c: Crypto, a: seq<Event>, b: seq<Event>)
    requires Sound(c) && Accepted(c, a) && Accepted(c, b) && WellFormed(a) && WellFormed(b) && SameHistory(a, b)
    ensures Head(c, a) == Head(c, b)
    decreases |a|
  {
    hide Accepted, Same, Valid, TotalOrder, CanonicalStringify, LinkText, IsTime;
    if a != [] {
      var n := |a| - 1;
      LastAccepted(c, a);
      LastAccepted(c, b);
      HistoryFixesHead(c, a[..n], b[..n]);
      PayloadValid(a, n);
      PayloadValid(b, n);
      PayloadAlike(a[n], b[n]);
      CanonicalExact(Payload(a[n]), Payload(b[n]), c.before);
    }
  }

  // Batches

  /** The hashes of a batch, joined as the anchoring run joins them. */
  function Joined(events: seq<Event>): string {
    if events == [] then ""
    else if |events| == 1 then events[0].currentHash
    else events[0].currentHash + "|" + Joined(events[1..])
  }

  function Root(c: Crypto, events: seq<Event>): string {
    c.hash(Joined(events))
  }

  /** Every hash of the batch stands at its place in the joined text. */
  lemma {:induction false} JoinedAt(events: seq<Event>, i: nat)
    requires i < |events| && forall k | 0 <= k < |events| :: |events[k].currentHash| == DIGEST
    ensures |Joined(events)| == 65 * |events| - 1
    ensures Joined(events)[65 * i..65 * i + 64] == events[i].currentHash
    ensures i + 1 < |events| ==> Joined(events)[65 * i + 64] == '|'
  {
    if |events| > 1 {
      var rest := Joined(events[1..]);
      var first := events[0].currentHash + "|";
      JoinedAt(events[1..], if i == 0 then 0 else i - 1);
      assert Joined(events) == first + rest && |first| == 65;
      if i == 0 {
        assert Joined(events)[..64] == first[..64] == events[0].currentHash;
      } else {
        assert Joined(events)[65 * i..65 * i + 64] == rest[65 * (i - 1)..65 * (i - 1) + 64];
      }
    }
  }

  lemma BatchDigests(c: Crypto, events: seq<Event>, from: nat, to: nat)
    requires Sound(c) && Accepted(c, events) && from < to <= |events|
    ensures forall i | 0 <= i < |events[from..to]| :: |events[from..to][i].currentHash| == DIGEST
    ensures events[from..to][to - from - 1].currentHash == Head(c, events[..to])
  {
    hide Sound, Accepted;
    forall i | from <= i < to ensures |events[i].currentHash| == DIGEST {
      PrefixAccepted(c, events, i + 1);
      HeadLength(c, events[..i + 1]);
    }
  }

  /**
    * One anchored root pins the whole history up to the end of its batch, and the batch within it,
    * whatever the two chains hold after it.
    */
  lemma RootPinsHistory(c: Crypto, a: seq<Event>, from: nat, to: nat, b: seq<Event>, first: nat, last: nat)
    requires Sound(c) && Accepted(c, a) && Accepted(c, b) && WellFormed(a) && WellFormed(b)
    requires from < to <= |a| && first < last <= |b| && Root(c, a[from..to]) == Root(c, b[first..last])
    ensures (from == first && to == last && SameHistory(a[..to], b[..last]))
            || Collides(c, Hashed(c, a[..to]) + Hashed(c, b[..last]) + {Joined(a[from..to]), Joined(b[first..last])})
  {
    hide Sound, Accepted, Hashed, Collides, SameHistory, WellFormed, Joined;
    var texts := Hashed(c, a[..to]) + Hashed(c, b[..last]) + {Joined(a[from..to]), Joined(b[first..last])};
    if !Collides(c, texts) {
      Distinct(c, texts, Joined(a[from..to]), Joined(b[first..last]));
      BatchDigests(c, a, from, to);
      BatchDigests(c, b, first, last);
      JoinedAt(a[from..to], to - from - 1);
      JoinedAt(b[first..last], last - first - 1);
      assert to - from == last - first;
      PrefixAccepted(c, a, to);
      PrefixAccepted(c, b, last);
      PrefixWellFormed(a, to);
      PrefixWellFormed(b, last);
      HeadPins(c, a[..to], b[..last], texts);
      SameLength(a[..to], b[..last]);
    }
  }

  lemma PrefixWellFormed(events: seq<Event>, k: nat)
    requires WellFormed(events) && k <= |events|
    ensures WellFormed(events[..k])
  {}

  lemma SameLength(a: seq<Event>, b: seq<Event>)
    requires SameHistory(a, b)
    ensures |a| == |b|
  {}
}
