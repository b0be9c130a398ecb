/**
 Invite-only signup: codes with a use count, relationship rows, and the counters that
 reward inviters. Signup is one transaction that inserts the user and consumes the code.
 */
module Invites {
  import opened Common

  type Code = Id

  datatype Invite = Invite(createdBy: Option<Id>, isValid: bool, expiresAt: int, useCount: nat, maxUses: nat,
      usedBy: Option<Id>)

  datatype Relationship = Relationship(inviter: Id, invitee: Id, code: Code)

  /** `users` maps each user to its place in creation order; every user has a trust row. */
  datatype State = State(
    users: map<Id, nat>, codes: map<Code, Invite>, relationships: seq<Relationship>,
    successful: map<Id, nat>, sent: map<Id, nat>)

  datatype Creation = Created | TrustScoreNotFound | InviteLimitReached(max: nat)

  datatype Signup = Joined | Unknown | Revoked | Expired | FullyUsed

  function Consume(s: State, code: Code, now: int): Signup {
    if code !in s.codes then Unknown
    else if !s.codes[code].isValid then Revoked
    else if s.codes[code].expiresAt < now then Expired
    else if s.codes[code].useCount >= s.codes[code].maxUses then FullyUsed
    else Joined
  }

  /** validate_invite: the check a client can make beforehand. */
  predicate Validates(s: State, code: Code, now: int) {
    && code in s.codes
    && s.codes[code].isValid && s.codes[code].expiresAt > now && s.codes[code].useCount < s.codes[code].maxUses
  }

  function Use(i: Invite, u: Id): Invite {
    i.(usedBy := Some(u), useCount := i.useCount + 1, isValid := !(i.useCount + 1 >= i.maxUses))
  }

  /** UPDATE user_trust_scores ... WHERE user_id = inviter. */
  function Rewarded(successful: map<Id, nat>, inviter: Id): map<Id, nat> {
    if inviter in successful then successful[inviter := successful[inviter] + 1] else successful
  }

  function SignupStep(s: State, u: Id, code: Code, now: int): (State, Signup) {
    var r := Consume(s, code, now);
    if r != Joined then (s, r) else
    var i := s.codes[code];
    var joined := s.(users := s.users[u := |s.users|], successful := s.successful[u := 0], sent := s.sent[u := 0],
                     codes := s.codes[code := Use(i, u)]);
    if i.createdBy.None? then (joined, r)
    else (joined.(relationships := s.relationships + [Relationship(i.createdBy.value, u, code)],
                  successful := Rewarded(joined.successful, i.createdBy.value)), r)
  }

  function MaxInvites(level: int): nat {
    if level == 1 then 10 else if level == 2 then 50 else if level == 3 then 200 else 3
  }

  datatype Event =
    | SignUp(user: Id, code: Code, now: int)
    | Create(user: Id, level: int, code: Code, expiresAt: int)
    | CreateAdmin(code: Code, expiresAt: int)
    | Revoke(code: Code, user: Id)

  function Apply(s: State, e: Event): State {
    match e
    case SignUp(u, code, now) => if u in s.users then s else SignupStep(s, u, code, now).0
    case Create(u, level, code, expiresAt) =>
      if u !in s.sent || s.sent[u] >= MaxInvites(level) || code in s.codes then s
      else s.(codes := s.codes[code := Invite(Some(u), true, expiresAt, 0, 1, None)],
          sent := s.sent[u := s.sent[u] + 1])
    case CreateAdmin(code, expiresAt) =>
      if code in s.codes then s else s.(codes := s.codes[code := Invite(None, true, expiresAt, 0, 1, None)])
    case Revoke(code, u) =>
      if code in s.codes && s.codes[code].createdBy == Some(u) && s.codes[code].isValid
      then s.(codes := s.codes[code := s.codes[code].(isValid := false)]) else s
  }

  function Run(s: State, es: seq<Event>): State
    decreases |es|
  {
    if es == [] then s else Run(Apply(s, es[0]), es[1..])
  }

  // ---------- Sums over codes ----------

  ghost function Sum(f: map<Code, nat>): nat
    decreases |f|
  {
    if f == map[] then 0 else
    var k :| k in f;
    f[k] + Sum(f - {k})
  }

  lemma {:induction false} SumRemove(f: map<Code, nat>, k: Code)
    requires k in f
    ensures Sum(f) == f[k] + Sum(f - {k})
    decreases |f|
  {
    var j :| j in f && Sum(f) == f[j] + Sum(f - {j});
    if j != k {
      SumRemove(f - {j}, k);
      SumRemove(f - {k}, j);
      assert f - {j} - {k} == f - {k} - {j};
    }
  }

  lemma SumPut(f: map<Code, nat>, k: Code, n: nat)
    ensures Sum(f[k := n]) == Sum(f - {k}) + n
  {
    SumRemove(f[k := n], k);
    assert f[k := n] - {k} == f - {k};
  }

  function AllUses(codes: map<Code, Invite>): map<Code, nat> { map c | c in codes :: codes[c].useCount }

  function UsesBy(codes: map<Code, Invite>, u: Id): map<Code, nat> {
    map c | c in codes && codes[c].createdBy == Some(u) :: codes[c].useCount
  }

  /** Putting a code changes a sum of uses by what the code itself changed. */
  lemma PutAll(codes: map<Code, Invite>, c: Code, i: Invite)
    ensures Sum(AllUses(codes[c := i]))
         == Sum(AllUses(codes)) + i.useCount - (if c in codes then codes[c].useCount else 0)
  {
    PutInMap(AllUses(codes), c, i.useCount);
    assert AllUses(codes[c := i]) == AllUses(codes)[c := i.useCount];
  }

  lemma PutBy(codes: map<Code, Invite>, c: Code, i: Invite, u: Id)
    requires c in codes ==> codes[c].createdBy == i.createdBy
    ensures Sum(UsesBy(codes[c := i], u)) == Sum(UsesBy(codes, u))
              + (if i.createdBy == Some(u) then i.useCount - (if c in codes then codes[c].useCount else 0) else 0)
  {
    if i.createdBy == Some(u) {
      PutInMap(UsesBy(codes, u), c, i.useCount);
      assert UsesBy(codes[c := i], u) == UsesBy(codes, u)[c := i.useCount];
    } else {
      assert UsesBy(codes[c := i], u) == UsesBy(codes, u);
    }
  }

  lemma PutInMap(f: map<Code, nat>, c: Code, n: nat)
    ensures Sum(f[c := n]) == Sum(f) - (if c in f then f[c] else 0) + n
  {
    SumPut(f, c, n);
    if c in f { SumRemove(f, c); } else { assert f - {c} == f; }
  }

  function InvitedBy(rs: seq<Relationship>, u: Id): nat {
    if rs == [] then 0
    else InvitedBy(rs[..|rs| - 1], u) + (if rs[|rs| - 1].inviter == u then 1 else 0)
  }

  // ---------- The invariant ----------

  ghost predicate CodesOk(s: State) {
    forall c :: c in s.codes ==>
      && s.codes[c].useCount <= s.codes[c].maxUses
      && (s.codes[c].useCount > 0 && s.codes[c].useCount == s.codes[c].maxUses ==> !s.codes[c].isValid)
      && (s.codes[c].createdBy.Some? ==> s.codes[c].createdBy.value in s.users)
  }

  /** Conservation: every use of a code is one user created by signup, beyond the `seeds` users of the start. */
  ghost predicate UsesAreUsers(s: State, seeds: nat) { Sum(AllUses(s.codes)) + seeds == |s.users| }

  /** For one inviter: the counter, the relationship rows and the uses of their codes agree. */
  ghost predicate InviterOk(s: State, u: Id)
    requires u in s.users
  {
    u in s.successful && u in s.sent && s.successful[u] == InvitedBy(s.relationships, u) == Sum(UsesBy(s.codes, u))
  }

  /** Every row points from an older to a newer user, and nobody is invited twice. */
  ghost predicate Forest(users: map<Id, nat>, rs: seq<Relationship>) {
    && (forall j :: 0 <= j < |rs| ==>
          rs[j].inviter in users && rs[j].invitee in users && users[rs[j].inviter] < users[rs[j].invitee])
    && (forall j, k :: 0 <= j < k < |rs| ==> rs[j].invitee != rs[k].invitee)
  }

  ghost predicate Inv(s: State, seeds: nat) {
    && CodesOk(s)
    && UsesAreUsers(s, seeds)
    && (forall u {:trigger InviterOk(s, u)} :: u in s.users ==> InviterOk(s, u))
    && s.successful.Keys == s.users.Keys && s.sent.Keys == s.users.Keys
    && (forall u :: u in s.users ==> s.users[u] < |s.users|)
    && Forest(s.users, s.relationships)
  }

  /** A database with some users and unused codes, and no relationships yet. */
  ghost predicate Start(s: State) {
    && (forall c :: c in s.codes ==>
          s.codes[c].useCount == 0 && (s.codes[c].createdBy.Some? ==> s.codes[c].createdBy.value in s.users))
    && s.relationships == []
    && s.successful.Keys == s.users.Keys && s.sent.Keys == s.users.Keys
    && (forall u :: u in s.users ==> s.successful[u] == 0 && s.users[u] < |s.users|)
  }

  lemma {:induction false} SumOfZeros(f: map<Code, nat>)
    requires forall c :: c in f ==> f[c] == 0
    ensures Sum(f) == 0
    decreases |f|
  {
    if f != map[] {
      var k :| k in f && Sum(f) == f[k] + Sum(f - {k});
      SumOfZeros(f - {k});
    }
  }

  lemma StartIsOk(s: State)
    requires Start(s)
    ensures Inv(s, |s.users|)
  {
    SumOfZeros(AllUses(s.codes));
    forall u | u in s.users ensures InviterOk(s, u) { SumOfZeros(UsesBy(s.codes, u)); }
  }

  lemma InvitedByAppend(rs: seq<Relationship>, r: Relationship, u: Id)
    ensures InvitedBy(rs + [r], u) == InvitedBy(rs, u) + (if r.inviter == u then 1 else 0)
  {
    assert (rs + [r])[..|rs + [r]| - 1] == rs;
  }

  lemma {:induction false} NeverInvited(rs: seq<Relationship>, u: Id)
    requires forall j :: 0 <= j < |rs| ==> rs[j].inviter != u
    ensures InvitedBy(rs, u) == 0
  {
    if rs != [] { NeverInvited(rs[..|rs| - 1], u); }
  }

  lemma SignupKeepsInviter(s: State, seeds: nat, u: Id, code: Code, now: int, v: Id)
    requires Inv(s, seeds) && u !in s.users && Consume(s, code, now) == Joined
    requires v in SignupStep(s, u, code, now).0.users
    ensures InviterOk(SignupStep(s, u, code, now).0, v)
  {
    var s' := SignupStep(s, u, code, now).0;
    var i := s.codes[code];
    PutBy(s.codes, code, Use(i, u), v);
    if i.createdBy.Some? { InvitedByAppend(s.relationships, Relationship(i.createdBy.value, u, code), v); }
    if v == u {
      NeverInvited(s.relationships, u);
      assert UsesBy(s.codes, u) == map[];
    } else {
      assert InviterOk(s, v);
    }
  }

  lemma SignupKeepsCodes(s: State, u: Id, code: Code, now: int)
    requires CodesOk(s) && u !in s.users && Consume(s, code, now) == Joined
    ensures CodesOk(SignupStep(s, u, code, now).0)
  {}

  lemma SignupAddsUser(s: State, u: Id, code: Code, now: int)
    requires u !in s.users && Consume(s, code, now) == Joined
    ensures SignupStep(s, u, code, now).0.users.Keys == s.users.Keys + {u}
    ensures |SignupStep(s, u, code, now).0.users| == |s.users| + 1
  {
    assert SignupStep(s, u, code, now).0.users == s.users[u := |s.users|];
    NewUser(s.users, u, |s.users|);
  }

  lemma NewUser(users: map<Id, nat>, u: Id, n: nat)
    requires u !in users
    ensures users[u := n].Keys == users.Keys + {u} && |users[u := n]| == |users| + 1
  {
    assert users[u := n].Keys == users.Keys + {u};
    assert |users[u := n]| == |users[u := n].Keys|;
  }

  lemma SignupKeepsUses(s: State, seeds: nat, u: Id, code: Code, now: int)
    requires UsesAreUsers(s, seeds) && u !in s.users && Consume(s, code, now) == Joined
    ensures UsesAreUsers(SignupStep(s, u, code, now).0, seeds)
  {
    PutAll(s.codes, code, Use(s.codes[code], u));
    SignupAddsUser(s, u, code, now);
  }

  lemma SignupKeepsKeys(s: State, u: Id, code: Code, now: int)
    requires u !in s.users && Consume(s, code, now) == Joined
    requires s.successful.Keys == s.users.Keys && s.sent.Keys == s.users.Keys
    ensures var s' := SignupStep(s, u, code, now).0;
            s'.successful.Keys == s'.users.Keys && s'.sent.Keys == s'.users.Keys
  {
    SignupAddsUser(s, u, code, now);
    assert s.successful[u := 0].Keys == s.users.Keys + {u};
    assert s.sent[u := 0].Keys == s.users.Keys + {u};
  }

  lemma SignupKeepsPlaces(s: State, u: Id, code: Code, now: int)
    requires u !in s.users && Consume(s, code, now) == Joined
    requires forall v :: v in s.users ==> s.users[v] < |s.users|
    ensures var s' := SignupStep(s, u, code, now).0; forall v :: v in s'.users ==> s'.users[v] < |s'.users|
  {
    SignupAddsUser(s, u, code, now);
  }

  lemma SignupKeepsInv(s: State, seeds: nat, u: Id, code: Code, now: int)
    requires Inv(s, seeds) && u !in s.users
    ensures Inv(SignupStep(s, u, code, now).0, seeds)
  {
    if Consume(s, code, now) == Joined {
      var s' := SignupStep(s, u, code, now).0;
      SignupKeepsCodes(s, u, code, now);
      SignupKeepsUses(s, seeds, u, code, now);
      SignupKeepsKeys(s, u, code, now);
      SignupKeepsPlaces(s, u, code, now);
      forall v | v in s'.users ensures InviterOk(s', v) { SignupKeepsInviter(s, seeds, u, code, now, v); }
      ForestGrows(s, seeds, u, code, now);
    }
  }

  lemma ForestGrows(s: State, seeds: nat, u: Id, code: Code, now: int)
    requires Inv(s, seeds) && u !in s.users && Consume(s, code, now) == Joined
    ensures var s' := SignupStep(s, u, code, now).0; Forest(s'.users, s'.relationships)
  {}

  /** Creating or revoking a code uses nothing. */
  lemma OtherUsesNothing(s: State, e: Event)
    requires !e.SignUp?
    ensures Sum(AllUses(Apply(s, e).codes)) == Sum(AllUses(s.codes))
    ensures forall v :: Sum(UsesBy(Apply(s, e).codes, v)) == Sum(UsesBy(s.codes, v))
  {
    var s' := Apply(s, e);
    if s' != s {
      PutAll(s.codes, e.code, s'.codes[e.code]);
      forall v ensures Sum(UsesBy(s'.codes, v)) == Sum(UsesBy(s.codes, v)) {
        PutBy(s.codes, e.code, s'.codes[e.code], v);
      }
    }
  }

  lemma OtherKeepsRows(s: State, e: Event)
    requires !e.SignUp? && s.sent.Keys == s.users.Keys
    ensures var s' := Apply(s, e);
            && s'.users == s.users && s'.relationships == s.relationships && s'.successful == s.successful
            && s'.sent.Keys == s.sent.Keys
  {
    if e.Create? && e.user in s.sent { assert s.sent[e.user := s.sent[e.user] + 1].Keys == s.sent.Keys; }
  }

  lemma OtherKeepsCodes(s: State, e: Event)
    requires CodesOk(s) && !e.SignUp? && s.sent.Keys == s.users.Keys
    ensures CodesOk(Apply(s, e))
  {
    assert e.Create? && e.user in s.sent ==> e.user in s.users;
  }

  lemma OtherKeepsInv(s: State, seeds: nat, e: Event)
    requires Inv(s, seeds) && !e.SignUp?
    ensures Inv(Apply(s, e), seeds)
  {
    OtherUsesNothing(s, e);
    OtherKeepsRows(s, e);
    OtherKeepsCodes(s, e);
    var s' := Apply(s, e);
    forall v | v in s'.users ensures InviterOk(s', v) { assert InviterOk(s, v); assert v in s'.sent.Keys; }
  }

  lemma ApplyKeepsInv(s: State, seeds: nat, e: Event)
    requires Inv(s, seeds)
    ensures Inv(Apply(s, e), seeds)
  {
    if e.SignUp? {
      if e.user !in s.users { SignupKeepsInv(s, seeds, e.user, e.code, e.now); }
    } else {
      OtherKeepsInv(s, seeds, e);
    }
  }

  lemma {:induction false} RunKeepsInv(s: State, seeds: nat, es: seq<Event>)
    requires Inv(s, seeds)
    ensures Inv(Run(s, es), seeds)
    decreases |es|
  {
    if es != [] {
      ApplyKeepsInv(s, seeds, es[0]);
      RunKeepsInv(Apply(s, es[0]), seeds, es[1..]);
    }
  }

  // ---------- What every run promises ----------

  /** Conservation over every run: uses are users, counters are rows are uses, and no code is overused. */
  lemma InviteConservation(s: State, es: seq<Event>, u: Id, c: Code)
    requires Start(s)
    ensures var t := Run(s, es);
            && Sum(AllUses(t.codes)) == |t.users| - |s.users|
            && (u in t.users ==>
                  u in t.successful && t.successful[u] == InvitedBy(t.relationships, u) == Sum(UsesBy(t.codes, u)))
            && (c in t.codes ==> t.codes[c].useCount <= t.codes[c].maxUses)
            && Forest(t.users, t.relationships)
  {
    StartIsOk(s);
    RunKeepsInv(s, |s.users|, es);
    if u in Run(s, es).users { assert InviterOk(Run(s, es), u); }
  }

  /** A code that does not validate never validates again, and a dead code stays dead. */
  lemma {:induction false} InvalidStaysInvalid(s: State, es: seq<Event>, c: Code, now: int, later: int)
    requires c in s.codes && !Validates(s, c, now) && now <= later
    ensures c in Run(s, es).codes && !Validates(Run(s, es), c, later)
    ensures !s.codes[c].isValid ==> !Run(s, es).codes[c].isValid
    decreases |es|
  {
    if es != [] { InvalidStaysInvalid(Apply(s, es[0]), es[1..], c, now, later); }
  }

  /** The check beforehand and the one at signup disagree exactly at the instant an otherwise usable code expires. */
  lemma ChecksDisagreeIff(s: State, code: Code, now: int)
    ensures (Consume(s, code, now) == Joined) != Validates(s, code, now) <==>
            && code in s.codes && s.codes[code].isValid
            && s.codes[code].useCount < s.codes[code].maxUses && s.codes[code].expiresAt == now
    ensures Validates(s, code, now) ==> Consume(s, code, now) == Joined
  {}

  /** They do disagree: a fresh code admits a user at the instant it no longer validates. */
  lemma ExpiringCodeIsAccepted(s: State, code: Code, user: Id, t: int)
    requires Start(s) && code !in s.codes && user !in s.users
    ensures exists es ::
              && !Validates(Run(s, es), code, t) && user !in Run(s, es).users
              && user in Apply(Run(s, es), SignUp(user, code, t)).users
  {
    var es := [CreateAdmin(code, t)];
    assert es[1..] == [];
    assert Run(s, es) == Apply(s, es[0]);
    assert !Validates(Run(s, es), code, t) && user !in Run(s, es).users
        && user in Apply(Run(s, es), SignUp(user, code, t)).users;
  }

  // ---------- The life of a code ----------

  /** The event is a signup that the code lets in. */
  predicate Admits(s: State, e: Event, code: Code) {
    e.SignUp? && e.code == code && e.user !in s.users && e.user in Apply(s, e).users
  }

  function Joins(s: State, es: seq<Event>, code: Code): nat
    decreases |es|
  {
    if es == [] then 0 else (if Admits(s, es[0], code) then 1 else 0) + Joins(Apply(s, es[0]), es[1..], code)
  }

  predicate RevokedIn(es: seq<Event>, code: Code, creator: Option<Id>) {
    creator.Some? && Revoke(code, creator.value) in es
  }

  /** What is fixed about a code when it is made. */
  datatype Terms = Terms(creator: Option<Id>, expiresAt: int, uses: nat)

  /** A code's row after some signups it let in, and after its creator revoked it or did not. */
  predicate RowIs(s: State, code: Code, terms: Terms, joins: nat, revoked: bool) {
    && code in s.codes
    && var i := s.codes[code];
       && i.createdBy == terms.creator && i.expiresAt == terms.expiresAt && i.maxUses == terms.uses
       && i.useCount == joins <= terms.uses
       && (i.isValid <==> joins < terms.uses && !revoked)
  }

  lemma ApplyKeepsRow(s: State, e: Event, code: Code, terms: Terms, joins: nat, revoked: bool)
    requires RowIs(s, code, terms, joins, revoked)
    ensures RowIs(Apply(s, e), code, terms, joins + (if Admits(s, e, code) then 1 else 0),
                  revoked || (terms.creator.Some? && e == Revoke(code, terms.creator.value)))
  {}

  lemma {:induction false} RunKeepsRow(s: State, es: seq<Event>, code: Code, terms: Terms, joins: nat, revoked: bool)
    requires RowIs(s, code, terms, joins, revoked)
    ensures RowIs(Run(s, es), code, terms, joins + Joins(s, es, code), revoked || RevokedIn(es, code, terms.creator))
    decreases |es|
  {
    if es != [] {
      var joined := joins + (if Admits(s, es[0], code) then 1 else 0);
      var gone := revoked || (terms.creator.Some? && es[0] == Revoke(code, terms.creator.value));
      ApplyKeepsRow(s, es[0], code, terms, joins, revoked);
      RunKeepsRow(Apply(s, es[0]), es[1..], code, terms, joined, gone);
      assert RevokedIn(es, code, terms.creator) <==>
             RevokedIn([es[0]], code, terms.creator) || RevokedIn(es[1..], code, terms.creator);
    }
  }

  /** What the row means for the next user and for the check beforehand. */
  lemma RowAdmits(s: State, code: Code, terms: Terms, joins: nat, revoked: bool, user: Id, now: int)
    requires RowIs(s, code, terms, joins, revoked) && user !in s.users
    ensures var open := joins < terms.uses && !revoked;
            var (t, r) := SignupStep(s, user, code, now);
            && r == (if !open then Revoked else if terms.expiresAt < now then Expired else Joined)
            && (r == Joined <==> user in t.users) && (r != Joined ==> t == s)
            && (r == Joined ==> t.codes[code].usedBy == Some(user))
            && (r == Joined ==>
                  if terms.creator.None? then t.relationships == s.relationships
                  else t.relationships == s.relationships + [Relationship(terms.creator.value, user, code)])
            && (Validates(s, code, now) <==> open && now < terms.expiresAt)
  {}

  /**
   A valid, unused code with some number of uses, whatever happens next: it lets in at most that many
   users. It answers the next one as revoked once they are used up or its creator withdrew it, as
   expired after its time, and otherwise lets them in and names its creator as their inviter.
   */
  lemma CodeLaw(s: State, code: Code, es: seq<Event>, user: Id, now: int)
    requires code in s.codes && s.codes[code].isValid && s.codes[code].useCount == 0 < s.codes[code].maxUses
    requires user !in Run(s, es).users
    ensures var i, t := s.codes[code], Run(s, es);
            var open := Joins(s, es, code) < i.maxUses && !RevokedIn(es, code, i.createdBy);
            var r := SignupStep(t, user, code, now);
            && Joins(s, es, code) <= i.maxUses
            && r.1 == (if !open then Revoked else if i.expiresAt < now then Expired else Joined)
            && (user in r.0.users <==> r.1 == Joined)
            && (r.1 == Joined ==>
                  && r.0.codes[code].usedBy == Some(user)
                  && (if i.createdBy.None? then r.0.relationships == t.relationships
                      else r.0.relationships == t.relationships + [Relationship(i.createdBy.value, user, code)]))
            && (Validates(t, code, now) <==> open && now < i.expiresAt)
  {
    var i := s.codes[code];
    var terms := Terms(i.createdBy, i.expiresAt, i.maxUses);
    RunKeepsRow(s, es, code, terms, 0, false);
    RowAdmits(Run(s, es), code, terms, Joins(s, es, code), RevokedIn(es, code, i.createdBy), user, now);
  }

  /**
   A user makes a new code while fewer than 3, 10, 50 or 200 were sent at their level. Whatever happens
   next, that code lets in one user at most, for whom its creator is the inviter, and none once its
   creator withdrew it or it expired.
   */
  lemma CreatedCodeLaw(s: State, creator: Id, level: int, code: Code, expiresAt: int, es: seq<Event>, user: Id,
                       now: int)
    requires code !in s.codes
    ensures var quota := if level == 1 then 10 else if level == 2 then 50 else if level == 3 then 200 else 3;
            var t := Apply(s, Create(creator, level, code, expiresAt));
            if creator !in s.sent || s.sent[creator] >= quota then t == s
            else
              && t.sent == s.sent[creator := s.sent[creator] + 1] && Joins(t, es, code) <= 1
              && (user !in Run(t, es).users ==>
                    (user in Apply(Run(t, es), SignUp(user, code, now)).users
                     <==> Joins(t, es, code) == 0 && Revoke(code, creator) !in es && now <= expiresAt))
              && (user in Apply(Run(t, es), SignUp(user, code, now)).users && user !in Run(t, es).users ==>
                    Relationship(creator, user, code) in Apply(Run(t, es), SignUp(user, code, now)).relationships)
  {
    var t := Apply(s, Create(creator, level, code, expiresAt));
    if t != s {
      RunKeepsRow(t, es, code, Terms(Some(creator), expiresAt, 1), 0, false);
      if user !in Run(t, es).users { CodeLaw(t, code, es, user, now); }
    }
  }

  /** An administrator's code lets in one user at most until it expires; nobody withdraws it or is the inviter. */
  lemma AdminCodeLaw(s: State, code: Code, expiresAt: int, es: seq<Event>, user: Id, now: int)
    requires code !in s.codes
    ensures var t := Apply(s, CreateAdmin(code, expiresAt));
            var u := Run(t, es);
            && t.sent == s.sent && Joins(t, es, code) <= 1
            && (user !in u.users ==>
                  && (user in Apply(u, SignUp(user, code, now)).users <==> Joins(t, es, code) == 0 && now <= expiresAt)
                  && Apply(u, SignUp(user, code, now)).relationships == u.relationships)
  {
    var t := Apply(s, CreateAdmin(code, expiresAt));
    RunKeepsRow(t, es, code, Terms(None, expiresAt, 1), 0, false);
    if user !in Run(t, es).users { CodeLaw(t, code, es, user, now); }
  }

  function CodesBy(s: State, u: Id): set<Code> { set c | c in s.codes && s.codes[c].createdBy == Some(u) }

  lemma CodesByOf(s: State, t: State, u: Id)
    requires forall c :: c in s.codes ==> c in t.codes && t.codes[c].createdBy == s.codes[c].createdBy
    requires forall c :: c in t.codes && c !in s.codes ==> t.codes[c].createdBy != Some(u)
    ensures CodesBy(t, u) == CodesBy(s, u)
  {}

  /** Every event but the user's own `Create` keeps the creators of the codes there are and gives the user none. */
  lemma CreatorsStay(s: State, e: Event, u: Id)
    requires !(e.Create? && e.user == u)
    ensures var t := Apply(s, e);
            && (forall c :: c in s.codes ==> c in t.codes && t.codes[c].createdBy == s.codes[c].createdBy)
            && (forall c :: c in t.codes && c !in s.codes ==> t.codes[c].createdBy != Some(u))
  {}

  lemma OthersKeepSent(s: State, e: Event, u: Id)
    requires u in s.users && u in s.sent && !(e.Create? && e.user == u)
    ensures var t := Apply(s, e);
            u in t.users && u in t.sent && t.sent[u] == s.sent[u] && CodesBy(t, u) == CodesBy(s, u)
  {
    CreatorsStay(s, e, u);
    CodesByOf(s, Apply(s, e), u);
  }

  lemma CodeAdded(s: State, t: State, code: Code, i: Invite, u: Id)
    requires code !in s.codes && t.codes == s.codes[code := i] && i.createdBy == Some(u)
    ensures |CodesBy(t, u)| == |CodesBy(s, u)| + 1
  {
    assert CodesBy(t, u) == CodesBy(s, u) + {code};
  }

  lemma CreateCountsCode(s: State, e: Event)
    requires e.Create? && e.user in s.sent && Apply(s, e) != s
    ensures |CodesBy(Apply(s, e), e.user)| == |CodesBy(s, e.user)| + 1
  {
    CodeAdded(s, Apply(s, e), e.code, Invite(Some(e.user), true, e.expiresAt, 0, 1, None), e.user);
  }

  lemma OneStepSent(s: State, e: Event, u: Id)
    requires u in s.users && u in s.sent
    ensures var t := Apply(s, e);
            u in t.users && u in t.sent && t.sent[u] + |CodesBy(s, u)| == s.sent[u] + |CodesBy(t, u)|
  {
    if e.Create? && e.user == u {
      if Apply(s, e) != s { CreateCountsCode(s, e); }
    } else {
      OthersKeepSent(s, e, u);
    }
  }

  /** The number of sent invites grows by the codes the user created. */
  lemma {:induction false} SentCountsCodes(s: State, es: seq<Event>, u: Id)
    requires u in s.users && u in s.sent
    ensures var t := Run(s, es); u in t.sent && t.sent[u] + |CodesBy(s, u)| == s.sent[u] + |CodesBy(t, u)|
    decreases |es|
  {
    if es != [] {
      OneStepSent(s, es[0], u);
      SentCountsCodes(Apply(s, es[0]), es[1..], u);
    }
  }

  /** A user who joins in the run has sent as many invites as there are codes of theirs. */
  lemma {:induction false} NewcomerSentCodes(s: State, seeds: nat, es: seq<Event>, u: Id)
    requires Inv(s, seeds) && u !in s.users && u in Run(s, es).users
    ensures u in Run(s, es).sent && Run(s, es).sent[u] == |CodesBy(Run(s, es), u)|
    decreases |es|
  {
    if es != [] {
      var t := Apply(s, es[0]);
      ApplyKeepsInv(s, seeds, es[0]);
      if u in t.users {
        JoinsWithoutCodes(s, seeds, es[0], u);
        SentCountsCodes(t, es[1..], u);
      } else {
        NewcomerSentCodes(t, seeds, es[1..], u);
      }
    }
  }

  lemma JoinsWithoutCodes(s: State, seeds: nat, e: Event, u: Id)
    requires Inv(s, seeds) && u !in s.users && u in Apply(s, e).users
    ensures u in Apply(s, e).sent && Apply(s, e).sent[u] == 0 && CodesBy(Apply(s, e), u) == {}
  {
    assert forall c :: c in s.codes ==> s.codes[c].createdBy != Some(u);
    CreatorsStay(s, e, u);
  }

  // ---------- The service ----------

  class InviteService {
    var users: map<Id, nat>
    var codes: map<Code, Invite>
    var relationships: seq<Relationship>
    var successful: map<Id, nat>
    var sent: map<Id, nat>

    ghost function Snapshot(): State
      reads this
    {
      State(users, codes, relationships, successful, sent)
    }

    /** consume_invite_with_tx: validate under the row lock, mark used, record and reward. */
    method ConsumeInvite(code: Code, user: Id, now: int) returns (r: Signup)
      modifies this`codes, this`relationships, this`successful
      ensures r == Consume(old(Snapshot()), code, now)
      ensures r != Joined ==> Snapshot() == old(Snapshot())
      ensures r == Joined ==>
                var i := old(codes)[code];
                && codes == old(codes)[code := Use(i, user)]
                && (if i.createdBy.None? then relationships == old(relationships) && successful == old(successful)
                    else && relationships == old(relationships) + [Relationship(i.createdBy.value, user, code)]
                         && successful == Rewarded(old(successful), i.createdBy.value))
    {
      if code !in codes { return Unknown; }
      var row := codes[code];
      if !row.isValid { return Revoked; }
      if row.expiresAt < now { return Expired; }
      if row.useCount >= row.maxUses { return FullyUsed; }
      var isFullyUsed := row.useCount + 1 >= row.maxUses;
      codes := codes[code := row.(usedBy := Some(user), useCount := row.useCount + 1, isValid := !isFullyUsed)];
      if row.createdBy.Some? {
        var inviter := row.createdBy.value;
        relationships := relationships + [Relationship(inviter, user, code)];
        if inviter in successful {
          successful := successful[inviter := successful[inviter] + 1];
        }
      }
      return Joined;
    }

    /** signup: the user and its trust row are inserted first, and undone when the code is refused. */
    method SignUpUser(user: Id, code: Code, now: int) returns (r: Signup)
      requires user !in users
      modifies this
      ensures (Snapshot(), r) == SignupStep(old(Snapshot()), user, code, now)
    {
      var users0, successful0, sent0 := users, successful, sent;
      users := users[user := |users|];
      successful := successful[user := 0];
      sent := sent[user := 0];
      r := ConsumeInvite(code, user, now);
      if r != Joined {
        users, successful, sent := users0, successful0, sent0;
      }
    }

    method RevokeInvite(code: Code, user: Id) returns (changed: bool)
      modifies this`codes
      ensures Snapshot() == Apply(old(Snapshot()), Revoke(code, user))
      ensures changed <==> Snapshot() != old(Snapshot())
    {
      changed := code in codes && codes[code].createdBy == Some(user) && codes[code].isValid;
      if changed {
        codes := codes[code := codes[code].(isValid := false)];
        assert codes[code] != old(codes)[code];
      }
    }

    /** create_invite: the quota depends on the trust level; a refusal changes nothing. */
    method CreateInvite(user: Id, level: int, code: Code, expiresAt: int) returns (r: Creation)
      requires code !in codes
      modifies this`codes, this`sent
      ensures Snapshot() == Apply(old(Snapshot()), Create(user, level, code, expiresAt))
      ensures r == if user !in old(sent) then TrustScoreNotFound
                   else if old(sent)[user] >= MaxInvites(level) then InviteLimitReached(MaxInvites(level)) else Created
    {
      if user !in sent { return TrustScoreNotFound; }
      var maxInvites := match level { case 0 => 3 case 1 => 10 case 2 => 50 case 3 => 200 case _ => 3 };
      if sent[user] >= maxInvites { return InviteLimitReached(maxInvites); }
      codes := codes[code := Invite(Some(user), true, expiresAt, 0, 1, None)];
      sent := sent[user := sent[user] + 1];
      return Created;
    }
  }
}
