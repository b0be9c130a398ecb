/**
 Login, refresh with reuse detection, revocation, access checks and account
 deletion, with each transaction atomic. A login is two steps, because it reads
 the user before it issues tokens and a deletion may come in between.
 */
module AuthSessions {
  import opened Common

  datatype User = User(deleted: bool, bannedUntil: Option<int>)

  datatype Token = Token(user: Id, hash: Id, expiresAt: int, revokedAt: Option<int>, replacedBy: Option<Id>)

  /** What a client presents: any claims it likes; nothing below relies on their being genuine. */
  datatype Presented = Presented(user: Id, id: Id, hash: Id)

  /** Fresh values for one issued pair. */
  datatype Issue = Issue(id: Id, hash: Id, expiresAt: int)

  datatype State = State(users: map<Id, User>, tokens: map<Id, Token>, logins: map<Id, Id>)

  datatype Refreshed = NoPair | Banned | Pair(id: Id)

  predicate IsBanned(u: User, now: int) {
    u.bannedUntil.Some? && u.bannedUntil.value > now
  }

  /** The row the refresh query finds: right id, owner and hash, and not expired. */
  predicate Finds(s: State, p: Presented, now: int) {
    && p.id in s.tokens
    && s.tokens[p.id].user == p.user
    && s.tokens[p.id].hash == p.hash
    && s.tokens[p.id].expiresAt > now
    && p.user in s.users
  }

  function RevokeAll(tokens: map<Id, Token>, user: Id, now: int): map<Id, Token> {
    map t | t in tokens ::
      if tokens[t].user == user && tokens[t].revokedAt.None? then tokens[t].(revokedAt := Some(now)) else tokens[t]
  }

  function RefreshStep(s: State, p: Presented, now: int, new': Issue): (State, Refreshed) {
    if !Finds(s, p, now) then (s, NoPair)
    else if s.tokens[p.id].revokedAt.Some? then (s.(tokens := RevokeAll(s.tokens, p.user, now)), NoPair)
    else if s.users[p.user].deleted then (s, NoPair)
    else if IsBanned(s.users[p.user], now) then (s, Banned)
    else
      var issued := s.tokens[new'.id := Token(p.user, new'.hash, new'.expiresAt, None, None)];
      (s.(tokens := issued[p.id := s.tokens[p.id].(revokedAt := Some(now), replacedBy := Some(new'.id))]),
       Pair(new'.id))
  }

  function RevokeStep(s: State, p: Presented, now: int): (State, bool) {
    if p.id in s.tokens && s.tokens[p.id].user == p.user && s.tokens[p.id].hash == p.hash
        && s.tokens[p.id].revokedAt.None?
    then (s.(tokens := s.tokens[p.id := s.tokens[p.id].(revokedAt := Some(now))]), true)
    else (s, false)
  }

  function DeleteStep(s: State, user: Id, now: int): (State, bool) {
    if user in s.users && !s.users[user].deleted
    then (s.(users := s.users[user := s.users[user].(deleted := true)], tokens := RevokeAll(s.tokens, user, now)), true)
    else (s, false)
  }

  /** The read half of a login: true when the pair will be issued. */
  predicate LoginAllowed(s: State, user: Id, passwordOk: bool, now: int) {
    user in s.users && !s.users[user].deleted && passwordOk && !IsBanned(s.users[user], now)
  }

  predicate AccessAllowed(s: State, user: Id, now: int) {
    user in s.users && !s.users[user].deleted && !IsBanned(s.users[user], now)
  }

  datatype Event =
    | SignUp(user: Id)
    | LoginReads(call: Id, user: Id, passwordOk: bool, now: int)
    | LoginIssues(call: Id, issue: Issue)
    | Refresh(presented: Presented, now: int, issue: Issue)
    | Revoke(presented: Presented, now: int)
    | Delete(user: Id, now: int)
    | SetBan(user: Id, until: int)

  function Apply(s: State, e: Event): State {
    match e
    case SignUp(u) => if u in s.users then s else s.(users := s.users[u := User(false, None)])
    case LoginReads(c, u, ok, now) =>
      if c !in s.logins && LoginAllowed(s, u, ok, now) then s.(logins := s.logins[c := u]) else s
    case LoginIssues(c, issue) =>
      if c in s.logins && issue.id !in s.tokens
      then s.(logins := s.logins - {c},
              tokens := s.tokens[issue.id := Token(s.logins[c], issue.hash, issue.expiresAt, None, None)])
      else s
    case Refresh(p, now, issue) => if issue.id in s.tokens then s else RefreshStep(s, p, now, issue).0
    case Revoke(p, now) => RevokeStep(s, p, now).0
    case Delete(u, now) => DeleteStep(s, u, now).0
    case SetBan(u, until) =>
      if u in s.users then s.(users := s.users[u := s.users[u].(bannedUntil := Some(until))]) else s
  }

  function Run(s: State, es: seq<Event>): State
    decreases |es|
  {
    if es == [] then s else Run(Apply(s, es[0]), es[1..])
  }

  // ---------- What is never undone ----------

  ghost predicate Persists(s: State, s': State) {
    && (forall u :: u in s.users ==> u in s'.users && (s.users[u].deleted ==> s'.users[u].deleted))
    && (forall t :: t in s.tokens ==>
          && t in s'.tokens && s'.tokens[t].user == s.tokens[t].user
          && (s.tokens[t].revokedAt.Some? ==> s'.tokens[t].revokedAt == s.tokens[t].revokedAt))
  }

  lemma ApplyPersists(s: State, e: Event)
    ensures Persists(s, Apply(s, e))
  {}

  lemma {:induction false} RunPersists(s: State, es: seq<Event>)
    ensures Persists(s, Run(s, es))
    decreases |es|
  {
    if es != [] {
      ApplyPersists(s, es[0]);
      RunPersists(Apply(s, es[0]), es[1..]);
    }
  }

  /** A pair comes out exactly of a matching, unexpired, unrevoked token of an active user; it links old to new. */
  lemma RefreshYieldsExactly(s: State, p: Presented, now: int, issue: Issue)
    requires issue.id !in s.tokens
    ensures var (s', r) := RefreshStep(s, p, now, issue);
            && (r.Pair? <==>
                  && p.id in s.tokens && s.tokens[p.id].user == p.user && s.tokens[p.id].hash == p.hash
                  && now < s.tokens[p.id].expiresAt && s.tokens[p.id].revokedAt.None?
                  && p.user in s.users && !s.users[p.user].deleted
                  && (s.users[p.user].bannedUntil.Some? ==> s.users[p.user].bannedUntil.value <= now))
            && (r.Pair? ==>
                  && r.id == issue.id && s'.tokens.Keys == s.tokens.Keys + {issue.id}
                  && s'.tokens[p.id].revokedAt == Some(now) && s'.tokens[p.id].replacedBy == Some(issue.id)
                  && s'.tokens[issue.id] == Token(p.user, issue.hash, issue.expiresAt, None, None)
                  && forall t :: t in s.tokens && t != p.id ==> s'.tokens[t] == s.tokens[t])
  {}

  /** No unrevoked token of the user is left. */
  ghost predicate NoLiveToken(s: State, user: Id) {
    forall t :: t in s.tokens && s.tokens[t].user == user ==> s.tokens[t].revokedAt.Some?
  }

  lemma {:induction false} OldTokensStayDead(s: State, es: seq<Event>, user: Id, p: Presented, now: int, issue: Issue)
    requires NoLiveToken(s, user) && p.id in s.tokens && s.tokens[p.id].user == user
    ensures !RefreshStep(Run(s, es), p, now, issue).1.Pair?
  {
    RunPersists(s, es);
  }

  /**
   Reuse detection: presenting a revoked, unexpired token yields nothing, leaves the user no live
   token, touches nobody else's, and no token that exists then ever yields a pair again.
   */
  lemma FamilyKill(s: State, p: Presented, now: int, issue: Issue, es: seq<Event>, q: Presented, later: int,
      issue': Issue)
    requires Finds(s, p, now) && s.tokens[p.id].revokedAt.Some?
    ensures var (s', r) := RefreshStep(s, p, now, issue);
            && r == NoPair && NoLiveToken(s', p.user) && s'.users == s.users && s'.tokens.Keys == s.tokens.Keys
            && (forall t :: t in s.tokens && s.tokens[t].user != p.user ==> s'.tokens[t] == s.tokens[t])
            && (q.id in s.tokens && s.tokens[q.id].user == p.user ==>
                  !RefreshStep(Run(s', es), q, later, issue').1.Pair?)
  {
    var s' := RefreshStep(s, p, now, issue).0;
    if q.id in s.tokens && s.tokens[q.id].user == p.user {
      OldTokensStayDead(s', es, p.user, q, later, issue');
    }
  }

  /** Replaying a rotated token before it expires kills the successor it was rotated to. */
  lemma ReplayKillsSuccessor(s: State, p: Presented, now: int, issue: Issue, again: int, issue2: Issue)
    requires issue.id !in s.tokens && RefreshStep(s, p, now, issue).1.Pair?
    requires again < s.tokens[p.id].expiresAt
    ensures var s' := RefreshStep(s, p, now, issue).0;
            var (s'', r) := RefreshStep(s', p, again, issue2);
            r == NoPair && issue.id in s''.tokens && s''.tokens[issue.id].revokedAt.Some?
  {}

  /**
   After a deletion commits, no login that begins later, no refresh and no access check of the
   user succeeds, not even with a token that a login racing the deletion issues afterwards.
   */
  lemma DeletionIsFinal(s: State, user: Id, when: int, es: seq<Event>, p: Presented, now: int, issue: Issue,
                        passwordOk: bool)
    requires user in s.users && p.user == user
    ensures var s' := Run(DeleteStep(s, user, when).0, es);
            && !LoginAllowed(s', user, passwordOk, now)
            && !AccessAllowed(s', user, now)
            && !RefreshStep(s', p, now, issue).1.Pair?
    ensures DeleteStep(s, user, when).1 <==> !s.users[user].deleted
    ensures !s.users[user].deleted ==> NoLiveToken(DeleteStep(s, user, when).0, user)
    ensures forall t :: t in s.tokens && s.tokens[t].user != user ==>
              t in DeleteStep(s, user, when).0.tokens && DeleteStep(s, user, when).0.tokens[t] == s.tokens[t]
    ensures forall u :: u in s.users && u != user ==>
              u in DeleteStep(s, user, when).0.users && DeleteStep(s, user, when).0.users[u] == s.users[u]
  {
    RunPersists(DeleteStep(s, user, when).0, es);
  }

  // ---------- Bans ----------

  lemma {:induction false} BanLasts(s: State, es: seq<Event>, user: Id, until: Option<int>)
    requires user in s.users && s.users[user].bannedUntil == until
    requires forall i :: 0 <= i < |es| ==> !(es[i].SetBan? && es[i].user == user)
    ensures user in Run(s, es).users && Run(s, es).users[user].bannedUntil == until
    decreases |es|
  {
    if es != [] { BanLasts(Apply(s, es[0]), es[1..], user, until); }
  }

  /**
   A ban holds until it ends or another is set: before that no login, refresh or access check of
   the user succeeds, and a good token is answered with the ban and kept; from then on the ban
   refuses nothing.
   */
  lemma BanHoldsUntilItEnds(s: State, user: Id, until: int, es: seq<Event>, p: Presented, now: int, issue: Issue,
                            passwordOk: bool)
    requires user in s.users && p.user == user
    requires forall i :: 0 <= i < |es| ==> !(es[i].SetBan? && es[i].user == user)
    ensures user in Run(Apply(s, SetBan(user, until)), es).users
    ensures var s' := Run(Apply(s, SetBan(user, until)), es);
            now < until ==>
              && !LoginAllowed(s', user, passwordOk, now) && !AccessAllowed(s', user, now)
              && !RefreshStep(s', p, now, issue).1.Pair?
              && (Finds(s', p, now) && s'.tokens[p.id].revokedAt.None? && !s'.users[user].deleted ==>
                    RefreshStep(s', p, now, issue) == (s', Banned))
    ensures var s' := Run(Apply(s, SetBan(user, until)), es);
            now >= until ==>
              && (AccessAllowed(s', user, now) <==> !s'.users[user].deleted)
              && (LoginAllowed(s', user, passwordOk, now) <==> !s'.users[user].deleted && passwordOk)
              && !RefreshStep(s', p, now, issue).1.Banned?
  {
    BanLasts(Apply(s, SetBan(user, until)), es, user, Some(until));
  }

  /** Whether a run deletes the user. */
  predicate Deletes(es: seq<Event>, user: Id) { exists i :: 0 <= i < |es| && es[i].Delete? && es[i].user == user }

  lemma {:induction false} DeletedIff(s: State, es: seq<Event>, user: Id)
    requires user in s.users
    ensures user in Run(s, es).users && (Run(s, es).users[user].deleted <==> s.users[user].deleted || Deletes(es, user))
    decreases |es|
  {
    if es != [] {
      DeletedIff(Apply(s, es[0]), es[1..], user);
      if Deletes(es[1..], user) {
        var i :| 0 <= i < |es[1..]| && es[1..][i].Delete? && es[1..][i].user == user;
        assert es[i + 1] == es[1..][i];
      }
      if Deletes(es, user) && !(es[0].Delete? && es[0].user == user) {
        var i :| 0 < i < |es| && es[i].Delete? && es[i].user == user;
        assert es[1..][i - 1] == es[i];
      }
    }
  }

  /** A user who signed up and whom nobody bans has access until a deletion. */
  lemma NoBanNoRefusal(s: State, user: Id, es: seq<Event>, passwordOk: bool, now: int)
    requires user !in s.users && forall i :: 0 <= i < |es| ==> !(es[i].SetBan? && es[i].user == user)
    ensures var s' := Run(Apply(s, SignUp(user)), es);
            && user in s'.users
            && (AccessAllowed(s', user, now) <==> !Deletes(es, user))
            && (LoginAllowed(s', user, passwordOk, now) <==> passwordOk && !Deletes(es, user))
  {
    BanLasts(Apply(s, SignUp(user)), es, user, None);
    DeletedIff(Apply(s, SignUp(user)), es, user);
  }

  // ---------- Where tokens come from ----------

  lemma {:induction false} RunLast(s: State, es: seq<Event>, e: Event)
    ensures Run(s, es + [e]) == Apply(Run(s, es), e)
    decreases |es|
  {
    if es == [] {
      assert [] + [e] == [e] && [e][1..] == [];
    } else {
      RunLast(Apply(s, es[0]), es[1..], e);
      assert (es + [e])[1..] == es[1..] + [e];
    }
  }

  /** The call read a user who could log in with the password it was given. */
  ghost predicate ReadAllowed(s: State, es: seq<Event>, j: nat, call: Id, user: Id) {
    && j < |es| && es[j].LoginReads? && es[j].call == call && es[j].user == user && es[j].passwordOk
    && LoginAllowed(Run(s, es[..j]), user, true, es[j].now)
  }

  /** The event issued the token to the user: a login whose read was allowed, or a refresh that yields a pair. */
  ghost predicate IssuedBy(s: State, es: seq<Event>, i: nat, t: Id, user: Id) {
    && i < |es|
    && (|| (&& es[i].LoginIssues? && es[i].issue.id == t
            && exists j: nat :: j < i && ReadAllowed(s, es, j, es[i].call, user))
        || (&& es[i].Refresh? && es[i].issue.id == t && es[i].presented.user == user
            && RefreshStep(Run(s, es[..i]), es[i].presented, es[i].now, es[i].issue).1 == Pair(t)))
  }

  lemma {:induction false} OpenLoginsRead(s: State, es: seq<Event>, c: Id)
    requires s.logins == map[] && c in Run(s, es).logins
    ensures exists j: nat :: ReadAllowed(s, es, j, c, Run(s, es).logins[c])
    decreases |es|
  {
    if es != [] {
      var init, e := es[..|es| - 1], es[|es| - 1];
      assert es == init + [e];
      RunLast(s, init, e);
      if c in Run(s, init).logins {
        OpenLoginsRead(s, init, c);
        var j: nat :| ReadAllowed(s, init, j, c, Run(s, init).logins[c]);
        assert es[..j] == init[..j];
        assert ReadAllowed(s, es, j, c, Run(s, es).logins[c]);
      } else {
        assert ReadAllowed(s, es, |init|, c, Run(s, es).logins[c]);
      }
    }
  }

  /** Every token of a run was issued by an allowed login or by a refresh that yields a pair, to the user it names. */
  lemma {:induction false} TokensHaveAnOrigin(s: State, es: seq<Event>, t: Id)
    requires s.logins == map[] && s.tokens == map[] && t in Run(s, es).tokens
    ensures exists i: nat :: IssuedBy(s, es, i, t, Run(s, es).tokens[t].user)
    decreases |es|
  {
    if es != [] {
      var init, e := es[..|es| - 1], es[|es| - 1];
      assert es == init + [e];
      RunLast(s, init, e);
      if t in Run(s, init).tokens {
        TokensHaveAnOrigin(s, init, t);
        var i: nat :| IssuedBy(s, init, i, t, Run(s, init).tokens[t].user);
        ApplyPersists(Run(s, init), e);
        IssuedByExtends(s, init, e, i, t, Run(s, init).tokens[t].user);
      } else {
        LastIssued(s, init, e, t);
      }
    }
  }

  lemma ReadAllowedExtends(s: State, es: seq<Event>, e: Event, j: nat, c: Id, user: Id)
    requires ReadAllowed(s, es, j, c, user)
    ensures ReadAllowed(s, es + [e], j, c, user)
  {
    assert (es + [e])[..j] == es[..j];
  }

  lemma IssuedByExtends(s: State, es: seq<Event>, e: Event, i: nat, t: Id, user: Id)
    requires IssuedBy(s, es, i, t, user)
    ensures IssuedBy(s, es + [e], i, t, user)
  {
    assert (es + [e])[..i] == es[..i];
    if es[i].LoginIssues? {
      var j: nat :| j < i && ReadAllowed(s, es, j, es[i].call, user);
      ReadAllowedExtends(s, es, e, j, es[i].call, user);
    }
  }

  lemma LastIssued(s: State, es: seq<Event>, e: Event, t: Id)
    requires s.logins == map[] && t !in Run(s, es).tokens && t in Apply(Run(s, es), e).tokens
    ensures IssuedBy(s, es + [e], |es|, t, Apply(Run(s, es), e).tokens[t].user)
  {
    assert (es + [e])[..|es|] == es;
    if e.LoginIssues? {
      OpenLoginsRead(s, es, e.call);
      var j: nat :| ReadAllowed(s, es, j, e.call, Run(s, es).logins[e.call]);
      ReadAllowedExtends(s, es, e, j, e.call, Run(s, es).logins[e.call]);
    }
  }

  // ---------- Logging in and out ----------

  /** A login of a user who may log in yields a token that refreshes until it expires. */
  lemma LoginThenRefresh(s: State, c: Id, user: Id, now: int, issue: Issue, later: int, next: Issue)
    requires c !in s.logins && LoginAllowed(s, user, true, now) && issue.id !in s.tokens && now <= later
    requires next.id !in s.tokens && next.id != issue.id
    ensures var s' := Apply(Apply(s, LoginReads(c, user, true, now)), LoginIssues(c, issue));
            var p := Presented(user, issue.id, issue.hash);
            && c !in s'.logins && s'.tokens.Keys == s.tokens.Keys + {issue.id}
            && (RefreshStep(s', p, later, next).1 == Pair(next.id) <==> later < issue.expiresAt)
            && (next.id in Apply(s', Refresh(p, later, next)).tokens <==> later < issue.expiresAt)
  {}

  /** A logged-out token never yields a pair again, and logging out touches nothing else. */
  lemma LogoutIsFinal(s: State, p: Presented, when: int, es: seq<Event>, q: Presented, now: int, issue: Issue)
    requires p.id in s.tokens && s.tokens[p.id].user == p.user && s.tokens[p.id].hash == p.hash && q.id == p.id
    ensures var (s', changed) := RevokeStep(s, p, when);
            && (changed <==> s.tokens[p.id].revokedAt.None?)
            && !RefreshStep(Run(s', es), q, now, issue).1.Pair?
            && s'.users == s.users && s'.tokens.Keys == s.tokens.Keys
            && forall t :: t in s.tokens && t != p.id ==> s'.tokens[t] == s.tokens[t]
  {
    RunPersists(RevokeStep(s, p, when).0, es);
  }

  /** Presenting a token that does not match its row changes nothing, whatever is asked. */
  lemma ForeignTokensDoNothing(s: State, p: Presented, now: int, issue: Issue)
    requires p.id !in s.tokens || s.tokens[p.id].user != p.user || s.tokens[p.id].hash != p.hash
    ensures RevokeStep(s, p, now) == (s, false) && RefreshStep(s, p, now, issue) == (s, NoPair)
  {}

  /** The race is possible: a login that read before the deletion still issues a live row, which is then useless. */
  lemma RacingLoginIssuesUselessToken(s: State, c: Id, user: Id, now: int, when: int, issue: Issue)
    requires c !in s.logins && LoginAllowed(s, user, true, now) && issue.id !in s.tokens
    ensures var s1 := Apply(s, LoginReads(c, user, true, now));
            var s3 := Apply(Apply(s1, Delete(user, when)), LoginIssues(c, issue));
            && issue.id in s3.tokens && s3.tokens[issue.id].revokedAt.None?
            && !RefreshStep(s3, Presented(user, issue.id, issue.hash), now, issue).1.Pair?
  {}

  // ---------- The service ----------

  class AuthService {
    var users: map<Id, User>
    var tokens: map<Id, Token>

    ghost function Snapshot(): State
      reads this
    {
      State(users, tokens, map[])
    }

    method IssueTokenPair(user: Id, issue: Issue)
      modifies this`tokens
      ensures tokens == old(tokens)[issue.id := Token(user, issue.hash, issue.expiresAt, None, None)]
    {
      tokens := tokens[issue.id := Token(user, issue.hash, issue.expiresAt, None, None)];
    }

    method RefreshTokens(p: Presented, now: int, issue: Issue) returns (r: Refreshed)
      requires issue.id !in tokens
      modifies this`tokens
      ensures (Snapshot(), r) == RefreshStep(old(Snapshot()), p, now, issue)
    {
      if p.id !in tokens || p.user !in users { return NoPair; }
      var row := tokens[p.id];
      if row.user != p.user || row.hash != p.hash || row.expiresAt <= now { return NoPair; }
      if row.revokedAt.Some? {
        tokens := map t | t in tokens ::
          if tokens[t].user == p.user && tokens[t].revokedAt.None? then tokens[t].(revokedAt := Some(now))
              else tokens[t];
        return NoPair;
      }
      if users[p.user].deleted { return NoPair; }
      if users[p.user].bannedUntil.Some? && users[p.user].bannedUntil.value > now { return Banned; }
      IssueTokenPair(p.user, issue);
      if tokens[p.id].revokedAt.None? {
        tokens := tokens[p.id := tokens[p.id].(revokedAt := Some(now), replacedBy := Some(issue.id))];
      }
      return Pair(issue.id);
    }

    method RevokeRefreshToken(p: Presented, now: int) returns (changed: bool)
      modifies this`tokens
      ensures (Snapshot(), changed) == RevokeStep(old(Snapshot()), p, now)
    {
      changed := p.id in tokens && tokens[p.id].user == p.user && tokens[p.id].hash == p.hash
          && tokens[p.id].revokedAt.None?;
      if changed {
        tokens := tokens[p.id := tokens[p.id].(revokedAt := Some(now))];
      }
    }

    method DeleteAccount(user: Id, now: int) returns (deleted: bool)
      modifies this
      ensures (Snapshot(), deleted) == DeleteStep(old(Snapshot()), user, now)
    {
      if user !in users || users[user].deleted { return false; }
      users := users[user := users[user].(deleted := true)];
      tokens := map t | t in tokens ::
        if tokens[t].user == user && tokens[t].revokedAt.None? then tokens[t].(revokedAt := Some(now)) else tokens[t];
      return true;
    }

    method AuthenticateAccessToken(user: Id, now: int) returns (ok: bool)
      ensures ok == AccessAllowed(Snapshot(), user, now)
    {
      ok := user in users && !users[user].deleted
            && (users[user].bannedUntil.None? || users[user].bannedUntil.value <= now);
    }
  }
}
