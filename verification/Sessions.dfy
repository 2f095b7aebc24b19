/**
 * Refresh-token rotation of TokenService, one database statement a move, every call open to being overtaken by logins,
 * rotations, logouts and revocations. A session stands for the token whose hash it stores.
 */
module Sessions {
  import opened Common
  import opened Runs

  datatype Session = Session(user: User, createdAt: nat, expiresAt: nat, revoked: bool, rotatedTo: Option<Id>)

  /** A rotate call between two of its statements. */
  datatype Call =
    | Presented(token: Id)
    | Reading(parent: Id, user: User)
    | Minted(parent: Id, user: User, child: Id)
    | Losing(user: User, child: Id)
    | Revoking(user: User)
    | Rotated(parent: Id, child: Id)
    | Reused(user: User)
    | Invalid
    | Threw

  /**
   * `issued` are the sessions whose token a client has been handed; tokens are random, so only these can be presented.
   * The clock ticks with every move; `ttl` is the configured lifetime of a refresh token.
   */
  datatype State = State(sessions: map<Id, Session>, issued: set<Id>, calls: map<Id, Call>, clock: nat, ttl: nat)

  datatype Move =
    | Login(id: Id, user: User)
    | Rotate(k: Id, token: Id)
    | Advance(k: Id, id: Id, ok: bool)
    | Logout(token: Id)
    | RevokeAll(user: User)
    | Crash(k: Id)

  function NewSession(s: State, user: User): Session {
    Session(user, s.clock, s.clock + s.ttl, false, None)
  }

  /** UPDATE ... WHERE userId = user AND revokedAt IS NULL. */
  function Revoked(sessions: map<Id, Session>, user: User): map<Id, Session> {
    map x | x in sessions :: if sessions[x].user == user then sessions[x].(revoked := true) else sessions[x]
  }

  function RevokedOne(sessions: map<Id, Session>, token: Id): map<Id, Session> {
    if token in sessions then sessions[token := sessions[token].(revoked := true)] else sessions
  }

  /** The read at the top of rotate, and its guard. */
  function Read(s: State, token: Id): Call {
    if token !in s.issued || token !in s.sessions then Invalid
    else
      var row := s.sessions[token];
      if row.rotatedTo.Some? || row.revoked then Revoking(row.user)
      else if row.expiresAt <= s.clock then Invalid
      else Reading(token, row.user)
  }

  predicate Rotatable(sessions: map<Id, Session>, parent: Id) {
    parent in sessions && !sessions[parent].revoked && sessions[parent].rotatedTo.None?
  }

  /** The conditional update that decides between racing rotations of one token. */
  function Arbitrate(s: State, k: Id, parent: Id, user: User, child: Id): State {
    if Rotatable(s.sessions, parent) then
      s.(sessions := s.sessions[parent := s.sessions[parent].(revoked := true, rotatedTo := Some(child))],
         issued := s.issued + {child},
         calls := s.calls[k := Rotated(parent, child)])
    else s.(calls := s.calls[k := Losing(user, child)])
  }

  function Proceed(s: State, k: Id, id: Id): State
    requires k in s.calls
  {
    match s.calls[k]
    case Presented(token) => s.(calls := s.calls[k := Read(s, token)])
    case Reading(parent, user) =>
      s.(sessions := s.sessions[id := NewSession(s, user)], calls := s.calls[k := Minted(parent, user, id)])
    case Minted(parent, user, child) => Arbitrate(s, k, parent, user, child)
    case Losing(user, child) => s.(sessions := s.sessions - {child}, calls := s.calls[k := Revoking(user)])
    case Revoking(user) => s.(sessions := Revoked(s.sessions, user), calls := s.calls[k := Reused(user)])
    case _ => s
  }

  predicate Ended(call: Call) {
    call.Rotated? || call.Reused? || call.Invalid? || call.Threw?
  }

  function Act(s: State, m: Move): State {
    match m
    case Login(id, user) => s.(sessions := s.sessions[id := NewSession(s, user)], issued := s.issued + {id})
    case Rotate(k, token) => s.(calls := s.calls[k := Presented(token)])
    case Advance(k, id, ok) =>
      if k !in s.calls || Ended(s.calls[k]) then s
      else if ok then Proceed(s, k, id)
      else s.(calls := s.calls[k := Threw])
    case Logout(token) => if token in s.issued then s.(sessions := RevokedOne(s.sessions, token)) else s
    case RevokeAll(user) => s.(sessions := Revoked(s.sessions, user))
    case Crash(k) => s.(calls := s.calls[k := Threw])
  }

  function Next(s: State, m: Move): State {
    Act(s, m).(clock := s.clock + 1)
  }

  predicate May(s: State, m: Move) {
    match m
    case Login(id, _) => id !in s.sessions && id !in s.issued
    case Rotate(k, _) => k !in s.calls
    case Advance(k, id, _) => k in s.calls && id !in s.sessions && id !in s.issued
    case Crash(k) => k in s.calls && !Ended(s.calls[k])
    case _ => true
  }

  function Initial(ttl: nat): State {
    State(map[], {}, map[], 0, ttl)
  }

  // The invariant

  /** A child that its call has inserted and not yet linked or deleted. */
  function Unlinked(call: Call): Option<Id> {
    match call
    case Minted(_, _, child) => Some(child)
    case Losing(_, child) => Some(child)
    case _ => None
  }

  ghost predicate RowsOk(sessions: map<Id, Session>, issued: set<Id>, clock: nat) {
    && issued <= sessions.Keys
    && (forall x | x in sessions :: sessions[x].createdAt < clock)
    && (forall x | x in sessions && sessions[x].rotatedTo.Some? ::
          && sessions[x].revoked && x in issued
          && sessions[x].rotatedTo.value in issued
          && sessions[sessions[x].rotatedTo.value].user == sessions[x].user
          && sessions[x].createdAt < sessions[sessions[x].rotatedTo.value].createdAt)
    && (forall x, y | x in sessions && y in sessions && sessions[x].rotatedTo.Some? ::
          sessions[x].rotatedTo == sessions[y].rotatedTo ==> x == y)
  }

  ghost predicate CallOk(sessions: map<Id, Session>, issued: set<Id>, call: Call) {
    match call
    case Reading(parent, user) => parent in issued && parent in sessions && sessions[parent].user == user
    case Minted(parent, user, child) =>
      && parent in issued && parent in sessions && sessions[parent].user == user
      && child in sessions && child !in issued && sessions[child].user == user && sessions[child].rotatedTo.None?
      && sessions[parent].createdAt < sessions[child].createdAt
    case Losing(_, child) => child in sessions && child !in issued && sessions[child].rotatedTo.None?
    case Rotated(parent, child) => parent in sessions && sessions[parent].rotatedTo == Some(child) && child in issued
    case _ => true
  }

  /** The child a call has made, linked or not. */
  function Child(call: Call): Option<Id> {
    match call
    case Rotated(_, child) => Some(child)
    case _ => Unlinked(call)
  }

  ghost predicate ChildrenApart(calls: map<Id, Call>) {
    forall j, k | j in calls && k in calls && Child(calls[j]).Some? :: Child(calls[j]) == Child(calls[k]) ==> j == k
  }

  ghost predicate Inv(s: State) {
    && RowsOk(s.sessions, s.issued, s.clock)
    && (forall k | k in s.calls :: CallOk(s.sessions, s.issued, s.calls[k]))
    && ChildrenApart(s.calls)
  }

  /**
   * Issued rows are never deleted, only revoked, linked once and never unlinked, and a new link leads to a session
   * that was not issued before.
   */
  ghost predicate Grows(before: State, after: State) {
    && before.clock <= after.clock
    && before.issued <= after.issued
    && (forall x | x in before.issued && x in before.sessions ::
          && x in after.sessions
          && after.sessions[x].user == before.sessions[x].user
             && after.sessions[x].createdAt == before.sessions[x].createdAt
          && (before.sessions[x].revoked ==> after.sessions[x].revoked)
          && (before.sessions[x].rotatedTo.Some? ==> after.sessions[x].rotatedTo == before.sessions[x].rotatedTo))
    && (forall x | x in after.sessions && after.sessions[x].rotatedTo.Some?
       && after.sessions[x].rotatedTo.value in before.issued ::
          x in before.sessions && before.sessions[x].rotatedTo == after.sessions[x].rotatedTo)
  }

  lemma RevokedKept(s: State, user: User)
    requires Inv(s)
    ensures Inv(s.(sessions := Revoked(s.sessions, user)))
  {
    hide RowsOk, CallOk;
    RevokedRows(s.sessions, s.issued, s.clock, user);
    forall k | k in s.calls ensures CallOk(Revoked(s.sessions, user), s.issued, s.calls[k]) {
      RevokedCall(s.sessions, s.issued, s.calls[k], user);
    }
  }

  lemma RevokedRows(sessions: map<Id, Session>, issued: set<Id>, clock: nat, user: User)
    requires RowsOk(sessions, issued, clock)
    ensures RowsOk(Revoked(sessions, user), issued, clock)
  {}

  lemma RevokedCall(sessions: map<Id, Session>, issued: set<Id>, call: Call, user: User)
    requires CallOk(sessions, issued, call)
    ensures CallOk(Revoked(sessions, user), issued, call)
  {}

  lemma RevokedOneKept(s: State, token: Id)
    requires Inv(s)
    ensures Inv(s.(sessions := RevokedOne(s.sessions, token)))
  {
    hide RowsOk, CallOk;
    RevokedOneRows(s.sessions, s.issued, s.clock, token);
    forall k | k in s.calls ensures CallOk(RevokedOne(s.sessions, token), s.issued, s.calls[k]) {
      RevokedOneCall(s.sessions, s.issued, s.calls[k], token);
    }
  }

  lemma RevokedOneRows(sessions: map<Id, Session>, issued: set<Id>, clock: nat, token: Id)
    requires RowsOk(sessions, issued, clock)
    ensures RowsOk(RevokedOne(sessions, token), issued, clock)
  {}

  lemma RevokedOneCall(sessions: map<Id, Session>, issued: set<Id>, call: Call, token: Id)
    requires CallOk(sessions, issued, call)
    ensures CallOk(RevokedOne(sessions, token), issued, call)
  {}

  lemma TickKept(s: State)
    requires Inv(s)
    ensures Inv(s.(clock := s.clock + 1))
  {}

  lemma NewRowKept(s: State, id: Id, user: User)
    requires Inv(s) && id !in s.sessions && id !in s.issued
    ensures Inv(s.(sessions := s.sessions[id := NewSession(s, user)], clock := s.clock + 1))
  {}

  lemma IssueKept(s: State, id: Id)
    requires Inv(s) && id in s.sessions
    requires forall k | k in s.calls :: Unlinked(s.calls[k]) != Some(id)
    ensures Inv(s.(issued := s.issued + {id}))
  {}

  lemma LoginKept(s: State, id: Id, user: User)
    requires Inv(s) && id !in s.sessions && id !in s.issued
    ensures Inv(Next(s, Login(id, user)))
  {
    hide RowsOk, ChildrenApart;
    NewRowKept(s, id, user);
    forall k | k in s.calls ensures Unlinked(s.calls[k]) != Some(id) {
      assert CallOk(s.sessions, s.issued, s.calls[k]);
    }
    IssueKept(s.(sessions := s.sessions[id := NewSession(s, user)], clock := s.clock + 1), id);
  }

  /** A move of one call's program counter. */
  lemma CallKept(s: State, k: Id, call: Call)
    requires Inv(s) && CallOk(s.sessions, s.issued, call)
    requires Child(call).Some? ==> forall j | j in s.calls && j != k :: Child(s.calls[j]) != Child(call)
    ensures Inv(s.(calls := s.calls[k := call]))
  {
    hide RowsOk;
  }

  lemma MintKept(s: State, k: Id, parent: Id, user: User, id: Id)
    requires Inv(s) && k in s.calls && s.calls[k] == Reading(parent, user) && id !in s.sessions && id !in s.issued
    ensures Inv(Next(s, Advance(k, id, true)))
  {
    NewRowKept(s, id, user);
    var s' := s.(sessions := s.sessions[id := NewSession(s, user)], clock := s.clock + 1);
    ChildrenPresent(s, id);
    MintedOk(s, parent, user, id);
    hide RowsOk, CallOk;
    assert CallOk(s.sessions, s.issued, s.calls[k]);
    CallKept(s', k, Minted(parent, user, id));
  }

  lemma MintedOk(s: State, parent: Id, user: User, id: Id)
    requires RowsOk(s.sessions, s.issued, s.clock) && CallOk(s.sessions, s.issued, Reading(parent, user))
    requires id !in s.sessions && id !in s.issued
    ensures CallOk(s.sessions[id := NewSession(s, user)], s.issued, Minted(parent, user, id))
  {}

  lemma ChildrenPresent(s: State, id: Id)
    requires Inv(s) && id !in s.sessions && id !in s.issued
    ensures forall j | j in s.calls :: Child(s.calls[j]) != Some(id)
  {
    forall j | j in s.calls ensures Child(s.calls[j]) != Some(id) {
      assert CallOk(s.sessions, s.issued, s.calls[j]);
    }
  }

  lemma LinkRows(s: State, parent: Id, user: User, child: Id)
    requires RowsOk(s.sessions, s.issued, s.clock) && CallOk(s.sessions, s.issued, Minted(parent, user, child))
    requires Rotatable(s.sessions, parent)
    ensures RowsOk(s.sessions[parent := s.sessions[parent].(revoked := true, rotatedTo := Some(child))],
            s.issued + {child}, s.clock)
  {}

  lemma LinkFrame(s: State, parent: Id, user: User, child: Id, call: Call)
    requires CallOk(s.sessions, s.issued, Minted(parent, user, child)) && CallOk(s.sessions, s.issued, call)
    requires Rotatable(s.sessions, parent) && Child(call) != Some(child)
    ensures CallOk(s.sessions[parent := s.sessions[parent].(revoked := true, rotatedTo := Some(child))],
            s.issued + {child}, call)
  {}

  lemma ArbitrateKept(s: State, k: Id, parent: Id, user: User, child: Id)
    requires Inv(s) && k in s.calls && s.calls[k] == Minted(parent, user, child)
    ensures Inv(Arbitrate(s, k, parent, user, child))
  {
    hide RowsOk;
    var s' := Arbitrate(s, k, parent, user, child);
    assert CallOk(s.sessions, s.issued, s.calls[k]);
    if Rotatable(s.sessions, parent) {
      LinkRows(s, parent, user, child);
      forall j | j in s'.calls ensures CallOk(s'.sessions, s'.issued, s'.calls[j]) {
        if j != k {
          LinkFrame(s, parent, user, child, s.calls[j]);
        }
      }
    }
  }

  lemma LoseKept(s: State, k: Id, user: User, child: Id)
    requires Inv(s) && k in s.calls && s.calls[k] == Losing(user, child)
    ensures Inv(s.(sessions := s.sessions - {child}, calls := s.calls[k := Revoking(user)]))
  {}

  lemma ProceedKept(s: State, k: Id, id: Id)
    requires Inv(s) && k in s.calls && id !in s.sessions && id !in s.issued && !s.calls[k].Reading?
    ensures Inv(Proceed(s, k, id))
  {
    hide RowsOk, ChildrenApart, CallOk;
    match s.calls[k]
    case Presented(token) => ReadOk(s, token); CallKept(s, k, Read(s, token));
    case Minted(parent, user, child) => ArbitrateKept(s, k, parent, user, child);
    case Losing(user, child) => LoseKept(s, k, user, child);
    case Revoking(user) => RevokedKept(s, user); IdleKept(s.(sessions := Revoked(s.sessions, user)), k, Reused(user));
    case _ =>
  }

  lemma ReadOk(s: State, token: Id)
    ensures CallOk(s.sessions, s.issued, Read(s, token)) && Child(Read(s, token)).None?
  {}

  lemma IdleKept(s: State, k: Id, call: Call)
    requires Inv(s) && (call.Threw? || call.Reused? || call.Presented?)
    ensures Inv(s.(calls := s.calls[k := call]))
  {
    hide RowsOk;
  }

  /** Every statement of every call keeps the invariant. */
  lemma NextKept(s: State, m: Move)
    requires Inv(s) && May(s, m)
    ensures Inv(Next(s, m))
  {
    hide Inv;
    match m
    case Login(id, user) => LoginKept(s, id, user);
    case Rotate(k, token) => IdleKept(s, k, Presented(token)); TickKept(Act(s, m));
    case Advance(k, id, ok) =>
      if Ended(s.calls[k]) {
        TickKept(s);
      } else if !ok {
        IdleKept(s, k, Threw);
        TickKept(Act(s, m));
      } else if s.calls[k].Reading? {
        MintKept(s, k, s.calls[k].parent, s.calls[k].user, id);
      } else {
        ProceedKept(s, k, id);
        TickKept(Proceed(s, k, id));
      }
    case Logout(token) =>
      RevokedOneKept(s, token);
      TickKept(s);
      TickKept(s.(sessions := RevokedOne(s.sessions, token)));
    case RevokeAll(user) => RevokedKept(s, user); TickKept(Act(s, m));
    case Crash(k) => IdleKept(s, k, Threw); TickKept(Act(s, m));
  }

  lemma NextGrows(s: State, m: Move)
    requires Inv(s) && May(s, m)
    ensures Grows(s, Next(s, m))
  {
    hide ChildrenApart;
    if m.Advance? {
      assert CallOk(s.sessions, s.issued, s.calls[m.k]);
      hide CallOk;
      AdvanceGrows(s, m.k, m.id, m.ok);
    } else {
      hide CallOk, Proceed;
    }
  }

  lemma AdvanceGrows(s: State, k: Id, id: Id, ok: bool)
    requires RowsOk(s.sessions, s.issued, s.clock) && k in s.calls && CallOk(s.sessions, s.issued, s.calls[k])
    requires id !in s.sessions && id !in s.issued
    ensures Grows(s, Next(s, Advance(k, id, ok)))
  {
    hide Read;
  }

  ghost predicate Reached(s: State) {
    exists ms :: IsRun(Initial(s.ttl), ms, Next, May) && Run(Initial(s.ttl), ms, Next) == s
  }

  lemma AlwaysInv()
    ensures Keeps(Next, May, Inv)
  {
    forall s, m | Inv(s) && May(s, m) ensures Inv(Next(s, m)) { NextKept(s, m); }
  }

  lemma ReachedInv(s: State)
    requires Reached(s)
    ensures Inv(s)
  {
    var ms :| IsRun(Initial(s.ttl), ms, Next, May) && Run(Initial(s.ttl), ms, Next) == s;
    AlwaysInv();
    Invariant(Initial(s.ttl), ms, Next, May, Inv);
  }

  /** rotatedToId is written at most once per row, and revocation is never undone, over any run. */
  lemma RunGrows(s: State, ms: seq<Move>)
    requires Reached(s) && IsRun(s, ms, Next, May)
    ensures Grows(s, Run(s, ms, Next))
  {
    hide Inv;
    ReachedInv(s);
    AlwaysInv();
    forall t, m | Inv(t) && May(t, m) ensures Grows(t, Next(t, m)) { NextGrows(t, m); }
    GrowsPreorder();
    Monotone(s, ms, Next, May, Inv, Grows);
  }

  lemma GrowsPreorder()
    ensures Preorder(Grows)
  {
    forall r, s, t | Grows(r, s) && Grows(s, t) ensures Grows(r, t) { GrowsTransitive(r, s, t); }
  }

  lemma GrowsTransitive(r: State, s: State, t: State)
    requires Grows(r, s) && Grows(s, t)
    ensures Grows(r, t)
  {}

  /** At most one rotation of a given token wins. */
  lemma OneWinner(s: State, j: Id, k: Id)
    requires Reached(s) && j in s.calls && k in s.calls && j != k && s.calls[j].Rotated? && s.calls[k].Rotated?
    ensures s.calls[j].parent != s.calls[k].parent && s.calls[j].child != s.calls[k].child
  {
    ReachedInv(s);
    hide RowsOk;
    assert CallOk(s.sessions, s.issued, s.calls[j]) && CallOk(s.sessions, s.issued, s.calls[k]);
  }
}
