/** TokenService as it runs, with the rotation of a token laid open to whatever other calls do in the middle of it. */
module TokenServices {
  import opened Common
  import opened Runs
  import opened Sessions

  datatype Outcome = RotatedInto(session: Id) | ReuseDetected(user: User) | InvalidToken

  /** Moves of other calls than `k`. */
  predicate Others(ms: seq<Move>, k: Id) {
    forall i | 0 <= i < |ms| :: Other(ms[i], k)
  }

  predicate Other(m: Move, k: Id) {
    match m case Rotate(j, _) => j != k case Advance(j, _, _) => j != k case Crash(j) => j != k case _ => true
  }

  /** The state in which the conditional update of a rotation is about to run, but for what others do before it. */
  function AfterMint(s: State, k: Id, token: Id, id: Id): State {
    Next(Next(Next(s, Rotate(k, token)), Advance(k, id, true)), Advance(k, id, true))
  }

  class TokenService {
    var sessions: map<Id, Session>
    var issued: set<Id>
    var calls: map<Id, Call>
    var clock: nat
    const ttl: nat

    function Contents(): State
      reads this
    {
      State(sessions, issued, calls, clock, ttl)
    }

    ghost predicate Valid()
      reads this
    {
      Inv(Contents())
    }

    constructor (ttl: nat)
      ensures Contents() == Initial(ttl) && Valid()
    {
      sessions, issued, calls, clock, this.ttl := map[], {}, map[], 0, ttl;
    }

    method IssueSession(id: Id, user: User)
      requires Valid() && id !in sessions && id !in issued
      modifies this
      ensures Valid() && Contents() == Next(old(Contents()), Login(id, user))
      ensures sessions == old(sessions)[id := Session(user, old(clock), old(clock) + ttl, false, None)]
      ensures issued == old(issued) + {id} && calls == old(calls)
      ensures forall x :: x in sessions ==> sessions[x].rotatedTo != Some(id)
    {
      hide Inv;
      NotLinked(Contents(), id);
      NextKept(Contents(), Login(id, user));
      sessions := sessions[id := Session(user, clock, clock + ttl, false, None)];
      issued := issued + {id};
      clock := clock + 1;
    }

    method Revoke(token: Id)
      requires Valid()
      modifies this
      ensures Valid() && Contents() == Next(old(Contents()), Logout(token))
      ensures sessions.Keys == old(sessions).Keys && issued == old(issued) && calls == old(calls)
      ensures forall x :: x in sessions ==>
                sessions[x] == if x == token
                  && token in issued then old(sessions)[x].(revoked := true) else old(sessions)[x]
    {
      hide Inv;
      NextKept(Contents(), Logout(token));
      if token in issued && token in sessions {
        sessions := sessions[token := sessions[token].(revoked := true)];
      }
      clock := clock + 1;
    }

    method RevokeAllSessionsForUser(user: User)
      requires Valid()
      modifies this
      ensures Valid() && Contents() == Next(old(Contents()), RevokeAll(user))
      ensures sessions.Keys == old(sessions).Keys && issued == old(issued) && calls == old(calls)
      ensures forall x :: x in sessions ==>
                sessions[x] == if old(sessions)[x].user == user then old(sessions)[x].(revoked := true)
                  else old(sessions)[x]
    {
      hide Inv;
      NextKept(Contents(), RevokeAll(user));
      sessions := map x | x in sessions ::
        if sessions[x].user == user then sessions[x].(revoked := true) else sessions[x];
      clock := clock + 1;
    }

    /** What other calls do while call `k` waits for its next statement. */
    method Meanwhile(k: Id, ms: seq<Move>)
      requires Valid() && k in calls && Others(ms, k) && IsRun(Contents(), ms, Next, May)
      modifies this
      ensures Valid() && Contents() == Run(old(Contents()), ms, Next)
      ensures k in calls && calls[k] == old(calls[k])
      ensures calls[k].Minted? && ChildKept(old(sessions), old(sessions), calls[k]) ==>
                ChildKept(old(sessions), sessions, calls[k])
    {
      hide Inv, May, ChildKept;
      var i := 0;
      while i < |ms|
        invariant 0 <= i <= |ms| && Valid()
        invariant IsRun(Contents(), ms[i..], Next, May)
                  && Run(Contents(), ms[i..], Next) == Run(old(Contents()), ms, Next)
        invariant k in calls && calls[k] == old(calls[k])
        invariant calls[k].Minted? && ChildKept(old(sessions), old(sessions), calls[k]) ==>
                    ChildKept(old(sessions), sessions, calls[k])
      {
        if calls[k].Minted? && ChildKept(old(sessions), sessions, calls[k]) {
          NextChildKept(old(sessions), Contents(), ms[i], k);
        }
        assert ms[i..][0] == ms[i] && ms[i..][1..] == ms[i + 1..] && Other(ms[i], k);
        NextKept(Contents(), ms[i]);
        OtherLeaves(Contents(), ms[i], k);
        var s := Next(Contents(), ms[i]);
        sessions, issued, calls, clock := s.sessions, s.issued, s.calls, s.clock;
        i := i + 1;
      }
    }

    /** The loser of a race, or the victim of a replay: revoke everything, as reuse. */
    method DetectReuse(k: Id, user: User)
      requires Valid() && k in calls && calls[k] == Revoking(user)
      modifies this
      ensures Valid() && sessions.Keys == old(sessions).Keys && issued == old(issued)
      ensures forall x :: x in sessions ==>
                sessions[x] == if old(sessions)[x].user == user then old(sessions)[x].(revoked := true)
                  else old(sessions)[x]
    {
      hide Inv;
      RevokedKept(Contents(), user);
      sessions := map x | x in sessions ::
        if sessions[x].user == user then sessions[x].(revoked := true) else sessions[x];
      IdleKept(Contents(), k, Reused(user));
      calls := calls[k := Reused(user)];
      TickKept(Contents());
      clock := clock + 1;
    }

    /**
      * findUnique on the token, and what its row says: reuse for a token that was rotated or revoked, whatever else;
      * then expiry.
      */
    method Find(k: Id, token: Id, id: Id) returns (found: Call)
      requires Valid() && k !in calls
      modifies this`calls, this`clock
      ensures Valid() && Contents() == Next(Next(old(Contents()), Move.Rotate(k, token)), Advance(k, id, true))
      ensures k in calls && calls[k] == found && clock == old(clock) + 2
      ensures token !in issued || token !in sessions ==> found == Invalid
      ensures token in issued && token in sessions ==>
                found == if sessions[token].revoked
                  || sessions[token].rotatedTo.Some? then Revoking(sessions[token].user)
                         else if sessions[token].expiresAt <= old(clock) + 1 then Invalid
                         else Reading(token, sessions[token].user)
    {
      hide Inv;
      IdleKept(Contents(), k, Presented(token));
      calls := calls[k := Presented(token)];
      TickKept(Contents());
      clock := clock + 1;
      if token !in issued || token !in sessions {
        found := Invalid;
      } else {
        var session := sessions[token];
        if session.revoked || session.rotatedTo.Some? || session.expiresAt <= clock {
          found := if session.rotatedTo.Some? || session.revoked then Revoking(session.user) else Invalid;
        } else {
          found := Reading(token, session.user);
        }
      }
      ReadKept(Contents(), k, token);
      calls := calls[k := found];
      TickKept(Contents());
      clock := clock + 1;
    }

    /** The INSERT of the child session. */
    method CreateChild(k: Id, id: Id)
      requires Valid() && k in calls && calls[k].Reading? && id !in sessions && id !in issued
      modifies this`sessions, this`calls, this`clock
      ensures Valid() && Contents() == Next(old(Contents()), Advance(k, id, true))
      ensures k in calls && calls[k] == Minted(old(calls[k]).parent, old(calls[k]).user, id)
      ensures sessions == old(sessions)[id := Session(old(calls[k]).user, old(clock), old(clock) + ttl, false, None)]
      ensures id != calls[k].parent && calls[k].parent in old(sessions)
    {
      hide Inv;
      ReadingRow(Contents(), k);
      MintKept(Contents(), k, calls[k].parent, calls[k].user, id);
      sessions := sessions[id := Session(calls[k].user, clock, clock + ttl, false, None)];
      calls := calls[k := Minted(calls[k].parent, calls[k].user, id)];
      clock := clock + 1;
    }

    /** The conditional UPDATE of the parent; `count` is how many rows it matched. */
    method LinkParent(k: Id, parent: Id, user: User, child: Id) returns (count: nat)
      requires Valid() && k in calls && calls[k] == Minted(parent, user, child)
      modifies this
      ensures Valid() && k in calls && parent in old(sessions) && child in old(sessions) && parent != child
      ensures count == if old(sessions)[parent].revoked || old(sessions)[parent].rotatedTo.Some? then 0 else 1
      ensures count == 1 ==>
                calls[k] == Rotated(parent, child) && issued == old(issued) + {child}
                && sessions
                   == old(sessions)[parent := old(sessions)[parent].(revoked := true, rotatedTo := Some(child))]
      ensures count == 0 ==> calls[k] == Losing(user, child) && sessions == old(sessions) && issued == old(issued)
      ensures child !in old(issued) && old(sessions)[parent].user == user == old(sessions)[child].user
    {
      hide Inv;
      MintedRows(Contents(), k, parent, user, child);
      ArbitrateKept(Contents(), k, parent, user, child);
      if Rotatable(sessions, parent) {
        sessions := sessions[parent := sessions[parent].(revoked := true, rotatedTo := Some(child))];
        issued := issued + {child};
        calls := calls[k := Rotated(parent, child)];
        count := 1;
      } else {
        calls := calls[k := Losing(user, child)];
        count := 0;
      }
      TickKept(Contents());
      clock := clock + 1;
    }

    method DeleteChild(k: Id, user: User, child: Id)
      requires Valid() && k in calls && calls[k] == Losing(user, child)
      modifies this
      ensures Valid() && k in calls && calls[k] == Revoking(user) && sessions == old(sessions) - {child}
      ensures issued == old(issued)
    {
      hide Inv;
      LoseKept(Contents(), k, user, child);
      sessions := sessions - {child};
      calls := calls[k := Revoking(user)];
      TickKept(Contents());
      clock := clock + 1;
    }

    /**
      * A whole rotation that inserts `id`, overtaken between that insert and its conditional update by any run of other
      * calls. A token that was already rotated or revoked when it is read is reuse, and so is one that has been by the
      * time of the update: nothing of the user stays alive. Otherwise the token must not have expired, and its session
      * is replaced by a new one.
      */
    method Rotate(k: Id, token: Id, id: Id, others: seq<Move>) returns (outcome: Outcome)
      requires Valid() && k !in calls && id !in sessions && id !in issued && Others(others, k)
      requires IsRun(AfterMint(Contents(), k, token, id), others, Next, May)
      modifies this
      ensures Valid()
      ensures old(token in issued && token in sessions)
              && (old(sessions)[token].revoked || old(sessions)[token].rotatedTo.Some?) ==>
                outcome == ReuseDetected(old(sessions)[token].user)
      ensures outcome.InvalidToken? <==>
                !old(token in issued && token in sessions)
                || (!old(sessions)[token].revoked && old(sessions)[token].rotatedTo.None?
                    && old(sessions)[token].expiresAt <= old(clock) + 1)
      ensures outcome.InvalidToken? ==> sessions == old(sessions) && issued == old(issued)
      ensures outcome.RotatedInto? <==>
                && old(token in issued && token in sessions)
                && !old(sessions)[token].revoked && old(sessions)[token].rotatedTo.None?
                && old(clock) + 1 < old(sessions)[token].expiresAt
                && var met := Run(AfterMint(old(Contents()), k, token, id), others, Next).sessions;
                   token in met && !met[token].revoked && met[token].rotatedTo.None?
      ensures outcome.RotatedInto? ==>
                && outcome.session == id && token in sessions && sessions[token].rotatedTo == Some(id)
                && sessions[token].revoked && id in issued && id in sessions
                && sessions[id] == Session(old(sessions)[token].user, old(clock) + 2, old(clock) + 2 + ttl, false, None)
      ensures outcome.ReuseDetected? ==>
                && old(token in issued && token in sessions) && outcome.user == old(sessions)[token].user
                && id !in sessions && forall x :: x in sessions && sessions[x].user == outcome.user ==>
                   sessions[x].revoked
    {
      hide Inv, Next, May;
      var found := Find(k, token, id);
      if found.Invalid? { return InvalidToken; }
      if found.Revoking? {
        DetectReuse(k, found.user);
        return ReuseDetected(found.user);
      }
      CreateChild(k, id);
      Meanwhile(k, others);
      var count := LinkParent(k, token, found.user, id);
      if count == 0 {
        DeleteChild(k, found.user, id);
        DetectReuse(k, found.user);
        return ReuseDetected(found.user);
      }
      outcome := RotatedInto(id);
    }
  }

  /** While it is not linked, a child stays as it was inserted, and is revoked only together with its parent. */
  predicate ChildKept(before: map<Id, Session>, after: map<Id, Session>, call: Call)
    requires call.Minted?
  {
    && call.child in before && call.child in after && call.parent in after
    && after[call.child].(revoked := before[call.child].revoked) == before[call.child]
    && (after[call.child].revoked && !before[call.child].revoked ==> after[call.parent].revoked)
  }

  lemma NextChildKept(before: map<Id, Session>, s: State, m: Move, k: Id)
    requires Inv(s) && May(s, m) && Other(m, k) && k in s.calls && s.calls[k].Minted?
    requires ChildKept(before, s.sessions, s.calls[k])
    ensures ChildKept(before, Next(s, m).sessions, s.calls[k])
  {
    assert CallOk(s.sessions, s.issued, s.calls[k]);
    if m.Advance? {
      assert CallOk(s.sessions, s.issued, s.calls[m.k]);
      assert Child(s.calls[m.k]) != Child(s.calls[k]);
      AdvanceLeavesChild(s, m.k, m.id, m.ok, s.calls[k].child, s.calls[k].parent);
    } else {
      hide RowsOk, ChildrenApart;
    }
  }

  lemma AdvanceLeavesChild(s: State, j: Id, id: Id, ok: bool, child: Id, parent: Id)
    requires j in s.calls && id !in s.sessions && child in s.sessions && child !in s.issued && parent in s.sessions
    requires CallOk(s.sessions, s.issued, s.calls[j]) && Child(s.calls[j]) != Some(child) && parent in s.issued
    requires s.sessions[parent].user == s.sessions[child].user
    ensures var t := Next(s, Advance(j, id, ok)).sessions;
            && child in t && parent in t
            && t[child].(revoked := s.sessions[child].revoked) == s.sessions[child]
            && (s.sessions[child].revoked ==> t[child].revoked) && (s.sessions[parent].revoked ==> t[parent].revoked)
            && (t[child].revoked && !s.sessions[child].revoked ==> t[parent].revoked)
  {
    hide Read;
  }

  lemma ReadingRow(s: State, k: Id)
    requires Inv(s) && k in s.calls && s.calls[k].Reading?
    ensures s.calls[k].parent in s.sessions && s.sessions[s.calls[k].parent].user == s.calls[k].user
  {
    assert CallOk(s.sessions, s.issued, s.calls[k]);
  }

  lemma NotLinked(s: State, id: Id)
    requires Inv(s) && id !in s.issued
    ensures forall x :: x in s.sessions ==> s.sessions[x].rotatedTo != Some(id)
  {}

  lemma OtherLeaves(s: State, m: Move, k: Id)
    requires Other(m, k) && k in s.calls
    ensures k in Next(s, m).calls && Next(s, m).calls[k] == s.calls[k]
  {}

  lemma ReadKept(s: State, k: Id, token: Id)
    requires Inv(s)
    ensures Inv(s.(calls := s.calls[k := Read(s, token)]))
  {
    hide Inv;
    ReadOk(s, token);
    CallKept(s, k, Read(s, token));
  }

  lemma MintedRows(s: State, k: Id, parent: Id, user: User, child: Id)
    requires Inv(s) && k in s.calls && s.calls[k] == Minted(parent, user, child)
    ensures parent in s.sessions && child in s.sessions && parent != child && child !in s.issued
    ensures s.sessions[parent].user == user == s.sessions[child].user
  {
    assert CallOk(s.sessions, s.issued, s.calls[k]);
  }
}
