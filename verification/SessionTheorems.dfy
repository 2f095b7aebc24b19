/** What rotation guarantees: one chain of sessions a login, and nothing left alive after a revocation. */
module SessionTheorems {
  import opened Common
  import opened Runs
  import opened Sessions

  // Chains

  /** Nobody rotated into this session: it was issued by a login. */
  ghost predicate IsLogin(s: State, x: Id) {
    x in s.issued && forall p | p in s.sessions :: s.sessions[p].rotatedTo != Some(x)
  }

  /** The sessions that a session was rotated into, one after the other. */
  ghost function Chain(s: State, x: Id): (path: seq<Id>)
    requires RowsOk(s.sessions, s.issued, s.clock) && x in s.issued
    ensures 0 < |path| && path[0] == x
    decreases s.clock - s.sessions[x].createdAt
  {
    match s.sessions[x].rotatedTo
    case None => [x]
    case Some(next) => [x] + Chain(s, next)
  }

  /**
   * Each chain is a simple path of one user's issued sessions, ever later, each rotated into the next; all but the
   * last are revoked, and the last was not rotated.
   */
  lemma {:induction false} ChainIsSimple(s: State, x: Id)
    requires RowsOk(s.sessions, s.issued, s.clock) && x in s.issued
    ensures var path := Chain(s, x);
            && (forall i | 0 <= i < |path| :: path[i] in s.issued && s.sessions[path[i]].user == s.sessions[x].user)
            && (forall i, j | 0 <= i < j < |path| :: s.sessions[path[i]].createdAt < s.sessions[path[j]].createdAt)
            && (forall i | 0 <= i < |path| - 1 ::
               s.sessions[path[i]].rotatedTo == Some(path[i + 1]) && s.sessions[path[i]].revoked)
            && s.sessions[path[|path| - 1]].rotatedTo.None?
    decreases s.clock - s.sessions[x].createdAt
  {
    if s.sessions[x].rotatedTo.Some? {
      ChainIsSimple(s, s.sessions[x].rotatedTo.value);
    }
  }

  /** Following a link from inside a chain stays inside it. */
  lemma {:induction false} ChainContinues(s: State, x: Id, i: nat)
    requires RowsOk(s.sessions, s.issued, s.clock) && x in s.issued
    requires i < |Chain(s, x)| && Chain(s, x)[i] in s.sessions && s.sessions[Chain(s, x)[i]].rotatedTo.Some?
    ensures i + 1 < |Chain(s, x)| && Chain(s, x)[i + 1] == s.sessions[Chain(s, x)[i]].rotatedTo.value
    decreases s.clock - s.sessions[x].createdAt
  {
    ChainIsSimple(s, x);
  }

  /** Every issued session lies on the chain of a login. */
  lemma {:induction false} OnSomeChain(s: State, x: Id) returns (login: Id)
    requires RowsOk(s.sessions, s.issued, s.clock) && x in s.issued
    ensures IsLogin(s, login) && x in Chain(s, login)
    decreases s.sessions[x].createdAt
  {
    if IsLogin(s, x) {
      login := x;
    } else {
      var p :| p in s.sessions && s.sessions[p].rotatedTo == Some(x);
      login := OnSomeChain(s, p);
      var i :| 0 <= i < |Chain(s, login)| && Chain(s, login)[i] == p;
      ChainContinues(s, login, i);
    }
  }

  /** A login's session can only stand first. */
  lemma OthersAreRotated(s: State, x: Id, i: nat)
    requires RowsOk(s.sessions, s.issued, s.clock) && x in s.issued && 0 < i < |Chain(s, x)|
    ensures !IsLogin(s, Chain(s, x)[i])
  {
    ChainIsSimple(s, x);
    assert s.sessions[Chain(s, x)[i - 1]].rotatedTo == Some(Chain(s, x)[i]);
  }

  /** And on no other: chains of different logins are disjoint. */
  lemma {:induction false} ChainsApart(s: State, one: Id, two: Id, i: nat, j: nat)
    requires RowsOk(s.sessions, s.issued, s.clock) && IsLogin(s, one) && IsLogin(s, two)
    requires i < |Chain(s, one)| && j < |Chain(s, two)| && Chain(s, one)[i] == Chain(s, two)[j]
    ensures one == two
    decreases i + j
  {
    ChainIsSimple(s, one);
    ChainIsSimple(s, two);
    if i > 0 && j > 0 {
      assert s.sessions[Chain(s, one)[i - 1]].rotatedTo == s.sessions[Chain(s, two)[j - 1]].rotatedTo;
      ChainsApart(s, one, two, i - 1, j - 1);
    } else if i > 0 {
      OthersAreRotated(s, one, i);
    } else if j > 0 {
      OthersAreRotated(s, two, j);
    }
  }

  /**
   * In every interleaving the issued sessions form one simple path a login, of which only the last can be unrevoked.
   */
  lemma SessionsFormPaths(s: State, x: Id) returns (login: Id)
    requires Reached(s) && x in s.issued
    ensures RowsOk(s.sessions, s.issued, s.clock)
    ensures IsLogin(s, login) && x in Chain(s, login)
    ensures forall other :: IsLogin(s, other) && x in Chain(s, other) ==> other == login
    ensures !s.sessions[x].revoked ==> x == Chain(s, login)[|Chain(s, login)| - 1]
  {
    ReachedInv(s);
    login := OnSomeChain(s, x);
    ChainIsSimple(s, login);
    forall other | IsLogin(s, other) && x in Chain(s, other) ensures other == login {
      var i :| 0 <= i < |Chain(s, login)| && Chain(s, login)[i] == x;
      var j :| 0 <= j < |Chain(s, other)| && Chain(s, other)[j] == x;
      ChainsApart(s, login, other, i, j);
    }
  }

  // Revocation

  /** `path` leads from a login, made no earlier than `since`, by rotations to `x`. */
  ghost predicate Leads(s: State, path: seq<Id>, since: nat, x: Id) {
    && 0 < |path| && path[|path| - 1] == x
    && (forall i | 0 <= i < |path| :: path[i] in s.issued && path[i] in s.sessions)
    && (forall i | 0 <= i < |path| - 1 :: s.sessions[path[i]].rotatedTo == Some(path[i + 1]))
    && IsLogin(s, path[0]) && since <= s.sessions[path[0]].createdAt
  }

  ghost predicate DescendsSince(s: State, since: nat, x: Id) {
    exists path :: Leads(s, path, since, x)
  }

  /** Every live session of the user comes from a login made since then. */
  ghost predicate LiveSince(s: State, user: User, since: nat) {
    && Inv(s) && since <= s.clock
    && forall x | x in s.issued && s.sessions[x].user == user && !s.sessions[x].revoked :: DescendsSince(s, since, x)
  }

  ghost function LivesSince(user: User, since: nat): State -> bool {
    (s: State) => LiveSince(s, user, since)
  }

  lemma LeadsLater(s: State, t: State, path: seq<Id>, since: nat, x: Id)
    requires Grows(s, t) && Leads(s, path, since, x)
    ensures Leads(t, path, since, x)
  {
    assert path[0] in s.issued;
  }

  /** What a move can issue: a login's session, or the child of the rotation that wins. */
  lemma NewlyIssued(s: State, m: Move, x: Id)
    requires Inv(s) && May(s, m) && x in Next(s, m).issued && x !in s.issued
    ensures (m.Login? && m.id == x)
            || (m.Advance? && s.calls[m.k].Minted? && s.calls[m.k].child == x
               && Rotatable(s.sessions, s.calls[m.k].parent))
  {}

  lemma LoginLeads(s: State, id: Id, user: User, since: nat)
    requires Inv(s) && May(s, Login(id, user)) && since <= s.clock
    ensures Leads(Next(s, Login(id, user)), [id], since, id)
  {}

  lemma LinkLeads(s: State, m: Move, path: seq<Id>, since: nat)
    requires Inv(s) && May(s, m) && m.Advance? && m.ok && s.calls[m.k].Minted?
             && Rotatable(s.sessions, s.calls[m.k].parent)
    requires Leads(s, path, since, s.calls[m.k].parent)
    ensures Leads(Next(s, m), path + [s.calls[m.k].child], since, s.calls[m.k].child)
  {
    NextGrows(s, m);
    hide Inv, Grows;
    LeadsLater(s, Next(s, m), path, since, s.calls[m.k].parent);
    LinkedRow(s, m);
  }

  lemma LinkedRow(s: State, m: Move)
    requires Inv(s) && May(s, m) && m.Advance? && m.ok && s.calls[m.k].Minted?
             && Rotatable(s.sessions, s.calls[m.k].parent)
    ensures var parent, child := s.calls[m.k].parent, s.calls[m.k].child;
            && parent in s.issued && s.sessions[parent].user == s.calls[m.k].user
            && child in Next(s, m).issued && child in Next(s, m).sessions
               && Next(s, m).sessions[child].user == s.calls[m.k].user
            && parent in Next(s, m).sessions && Next(s, m).sessions[parent].rotatedTo == Some(child)
  {
    assert CallOk(s.sessions, s.issued, s.calls[m.k]);
  }

  lemma OldStaysLive(s: State, m: Move, user: User, since: nat, x: Id)
    requires LiveSince(s, user, since) && May(s, m) && x in s.issued
    requires x in Next(s, m).sessions && Next(s, m).sessions[x].user == user && !Next(s, m).sessions[x].revoked
    ensures DescendsSince(Next(s, m), since, x)
  {
    NextGrows(s, m);
    var path :| Leads(s, path, since, x);
    hide Inv;
    LeadsLater(s, Next(s, m), path, since, x);
  }

  lemma NewIsLive(s: State, m: Move, user: User, since: nat, x: Id)
    requires LiveSince(s, user, since) && May(s, m) && x in Next(s, m).issued && x !in s.issued
    requires x in Next(s, m).sessions && Next(s, m).sessions[x].user == user
    ensures DescendsSince(Next(s, m), since, x)
  {
    NewlyIssued(s, m, x);
    hide Inv;
    if m.Login? {
      LoginLeads(s, m.id, m.user, since);
    } else {
      LinkedRow(s, m);
      var path :| Leads(s, path, since, s.calls[m.k].parent);
      LinkLeads(s, m, path, since);
    }
  }

  lemma NextLiveSince(s: State, m: Move, user: User, since: nat)
    requires LiveSince(s, user, since) && May(s, m)
    ensures LiveSince(Next(s, m), user, since)
  {
    NextKept(s, m);
    var t := Next(s, m);
    IssuedPresent(t);
    hide Inv, DescendsSince;
    forall x | x in t.issued && t.sessions[x].user == user && !t.sessions[x].revoked
      ensures DescendsSince(t, since, x) {
      if x in s.issued {
        OldStaysLive(s, m, user, since, x);
      } else {
        NewIsLive(s, m, user, since, x);
      }
    }
  }

  lemma IssuedPresent(s: State)
    requires Inv(s)
    ensures s.issued <= s.sessions.Keys
  {}

  /** The statement that revokes all of a user's sessions: called for by itself, or ending a rotation as reuse. */
  predicate RevokesAll(s: State, m: Move, user: User) {
    match m
    case RevokeAll(u) => u == user
    case Advance(k, _, ok) => ok && k in s.calls && s.calls[k] == Revoking(user)
    case _ => false
  }

  /**
   * At any time after a revocation of all a user's sessions, by a password change, a suspension or a detected replay,
   * every unrevoked session whose token a client holds descends from a login made after the revocation.
   */
  lemma NothingSurvivesRevocation(s: State, m: Move, user: User, ms: seq<Move>, x: Id)
    requires Reached(s) && May(s, m) && RevokesAll(s, m, user) && IsRun(Next(s, m), ms, Next, May)
    ensures var after := Next(s, m);
            var later := Run(after, ms, Next);
            x in later.issued && x in later.sessions && later.sessions[x].user == user && !later.sessions[x].revoked ==>
              DescendsSince(later, after.clock, x)
  {
    ReachedInv(s);
    var after := Next(s, m);
    NextKept(s, m);
    RevokedAll(s, m, user);
    hide Inv;
    RunLiveSince(after, user, ms);
  }

  lemma RevokedAll(s: State, m: Move, user: User)
    requires Inv(s) && RevokesAll(s, m, user)
    ensures forall x | x in Next(s, m).sessions && Next(s, m).sessions[x].user == user :: Next(s, m).sessions[x].revoked
  {}

  lemma RunLiveSince(s: State, user: User, ms: seq<Move>)
    requires Inv(s) && IsRun(s, ms, Next, May)
    requires forall x | x in s.sessions && s.sessions[x].user == user :: s.sessions[x].revoked
    ensures LiveSince(Run(s, ms, Next), user, s.clock)
  {
    IssuedPresent(s);
    hide Inv;
    var inv := LivesSince(user, s.clock);
    forall t, m | inv(t) && May(t, m) ensures inv(Next(t, m)) { NextLiveSince(t, m, user, s.clock); }
    assert LiveSince(s, user, s.clock);
    Invariant(s, ms, Next, May, inv);
    assert inv(Run(s, ms, Next));
  }

  // A rotation that was in flight

  /** Call `k` is rotating a session that has been revoked. */
  ghost predicate Doomed(s: State, k: Id, parent: Id) {
    && Inv(s) && parent in s.issued && parent in s.sessions && s.sessions[parent].revoked
    && k in s.calls
    && match s.calls[k] {
         case Reading(p, _) => p == parent
         case Minted(p, _, _) => p == parent
         case Losing(_, _) => true
         case Revoking(_) => true
         case Reused(_) => true
         case Threw => true
         case _ => false
       }
  }

  ghost function DoomedAt(k: Id, parent: Id): State -> bool {
    (s: State) => Doomed(s, k, parent)
  }

  lemma NextDoomed(s: State, m: Move, k: Id, parent: Id)
    requires Doomed(s, k, parent) && May(s, m)
    ensures Doomed(Next(s, m), k, parent)
  {
    NextKept(s, m);
    NextGrows(s, m);
    hide Inv;
    DoomedCall(s, m, k, parent);
  }

  /** Its program counter never reaches the winning branch. */
  lemma DoomedCall(s: State, m: Move, k: Id, parent: Id)
    requires Doomed(s, k, parent) && May(s, m)
    ensures k in Next(s, m).calls
    ensures match Next(s, m).calls[k]
            case Reading(p, _) => p == parent
            case Minted(p, _, _) => p == parent
            case Losing(_, _) => true
            case Revoking(_) => true
            case Reused(_) => true
            case Threw => true
            case _ => false
  {
    hide Inv, Revoked, RevokedOne;
  }

  /**
   * A rotation caught in flight by the revocation of its session never wins, whatever happens next: if its child has
   * been inserted, its next two statements delete the child instead of publishing it.
   */
  lemma InFlightRotationLoses(s: State, ms: seq<Move>, k: Id, parent: Id, id: Id)
    requires Reached(s) && k in s.calls && parent in s.sessions && s.sessions[parent].revoked
    requires (s.calls[k].Reading? || s.calls[k].Minted?) && s.calls[k].parent == parent
    requires IsRun(s, ms, Next, May)
    ensures var later := Run(s, ms, Next);
            && k in later.calls && !later.calls[k].Rotated?
            && (later.calls[k].Minted? ==>
                  var child := later.calls[k].child;
                  var ended := Next(Next(later, Advance(k, id, true)), Advance(k, id, true));
                  child !in ended.sessions && child !in ended.issued && ended.calls[k].Revoking?)
  {
    ReachedInv(s);
    assert CallOk(s.sessions, s.issued, s.calls[k]);
    RunDoomed(s, ms, k, parent);
    var later := Run(s, ms, Next);
    assert Doomed(later, k, parent);
    if later.calls[k].Minted? {
      LosesChild(later, k, id);
    }
  }

  lemma LosesChild(s: State, k: Id, id: Id)
    requires Inv(s) && k in s.calls && s.calls[k].Minted? && !Rotatable(s.sessions, s.calls[k].parent)
    ensures var child := s.calls[k].child;
            var ended := Next(Next(s, Advance(k, id, true)), Advance(k, id, true));
            child !in ended.sessions && child !in ended.issued && ended.calls[k].Revoking?
  {
    hide RowsOk, ChildrenApart;
    assert CallOk(s.sessions, s.issued, s.calls[k]);
  }

  lemma RunDoomed(s: State, ms: seq<Move>, k: Id, parent: Id)
    requires Doomed(s, k, parent) && IsRun(s, ms, Next, May)
    ensures Doomed(Run(s, ms, Next), k, parent)
  {
    hide Inv;
    var inv := DoomedAt(k, parent);
    forall t, m | inv(t) && May(t, m) ensures inv(Next(t, m)) { NextDoomed(t, m, k, parent); }
    assert inv(s);
    Invariant(s, ms, Next, May, inv);
    assert inv(Run(s, ms, Next));
  }

  // Reuse

  /** What the read at the top of a rotation makes of a presented token, column by column. */
  lemma PresentedToken(s: State, k: Id, id: Id)
    requires k in s.calls && s.calls[k].Presented?
    ensures var token, call := s.calls[k].token, Next(s, Advance(k, id, true)).calls[k];
            && Next(s, Advance(k, id, true)).sessions == s.sessions
            && (token !in s.issued || token !in s.sessions ==> call == Invalid)
            && (token in s.issued && token in s.sessions ==>
                  var row := s.sessions[token];
                  && (row.revoked || row.rotatedTo.Some? ==> call == Revoking(row.user))
                  && (!row.revoked && row.rotatedTo.None? && row.expiresAt <= s.clock ==> call == Invalid)
                  && (!row.revoked && row.rotatedTo.None? && s.clock < row.expiresAt ==>
                     call == Reading(token, row.user)))
  {}

  /**
   * A rotated or revoked token that is presented again is reuse, whatever happens around it: its call can only go on to
   * revoke every session of the user, and nothing that lives after that stems from before.
   */
  lemma ReplayRevokesAll(s: State, k: Id, id: Id, ms: seq<Move>, other: Id)
    requires Reached(s) && k in s.calls && s.calls[k].Presented? && May(s, Advance(k, id, true))
    requires var token := s.calls[k].token;
             token in s.issued && token in s.sessions
               && (s.sessions[token].revoked || s.sessions[token].rotatedTo.Some?)
    requires IsRun(Next(s, Advance(k, id, true)), ms, Next, May)
    ensures var user, t := s.sessions[s.calls[k].token].user, Run(Next(s, Advance(k, id, true)), ms, Next);
            && k in t.calls
            && (t.calls[k] == Revoking(user) || t.calls[k] == Reused(user) || t.calls[k] == Threw)
            && (t.calls[k] == Revoking(user) && May(t, Advance(k, other, true)) ==>
                  && RevokesAll(t, Advance(k, other, true), user)
                  && (forall y :: y in Next(t, Advance(k, other, true)).sessions
                                  && Next(t, Advance(k, other, true)).sessions[y].user == user ==>
                                    Next(t, Advance(k, other, true)).sessions[y].revoked))
  {
    var user := s.sessions[s.calls[k].token].user;
    PresentedToken(s, k, id);
    var next := Next(s, Advance(k, id, true));
    hide Inv;
    forall t, m | EndsIn(k, user)(t) && May(t, m) ensures EndsIn(k, user)(Next(t, m)) { EndingStep(k, user, t, m); }
    assert EndsIn(k, user)(next);
    Invariant(next, ms, Next, May, EndsIn(k, user));
    assert EndsIn(k, user)(Run(next, ms, Next));
  }

  /** The call is about to revoke everything of the user, has done so, or has died. */
  predicate Ending(k: Id, user: User, s: State) {
    k in s.calls && (s.calls[k] == Revoking(user) || s.calls[k] == Reused(user) || s.calls[k] == Threw)
  }

  ghost function EndsIn(k: Id, user: User): State -> bool {
    (s: State) => Ending(k, user, s)
  }

  lemma EndingStep(k: Id, user: User, s: State, m: Move)
    requires Ending(k, user, s) && May(s, m)
    ensures Ending(k, user, Next(s, m))
  {
    hide Read;
  }
}
