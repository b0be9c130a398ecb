/**
 A run in which reuse detection leaves the user a live token: a rotated token is replayed
 while its successor is itself being rotated.
 */
module TokenRace {
  import opened Common
  import opened TokenRotation

  ghost predicate Reachable(s: State) { exists es :: Run(Init, es) == s }

  lemma {:induction false} RunAppend(s: State, es: seq<Event>, e: Event)
    ensures Run(s, es + [e]) == Apply(Run(s, es), e)
    decreases |es|
  {
    if es == [] {
      assert [e][1..] == [];
    } else {
      assert (es + [e])[1..] == es[1..] + [e];
      RunAppend(Apply(s, es[0]), es[1..], e);
    }
  }

  lemma ReachNext(s: State, e: Event)
    requires Reachable(s)
    ensures Reachable(Apply(s, e))
  {
    var es :| Run(Init, es) == s;
    RunAppend(Init, es, e);
  }

  lemma ReachableIsOk(s: State)
    requires Reachable(s)
    ensures Inv(s)
  {
    var es :| Run(Init, es) == s;
    RunKeepsInv(Init, es);
  }

  function InPhase(s: State, x: Id, t: Id, p: Phase): State { s.(txs := s.txs[x := Tx(t, p, {})]) }

  /** Transaction `x` holds the row of `t` and stands at phase `p`. */
  function Holding(s: State, x: Id, t: Id, p: Phase): State { InPhase(s, x, t, p).(locks := s.locks[t := x]) }

  lemma NextPhase(s: State, x: Id, t: Id, p: Phase, q: Phase, e: Event)
    requires Reachable(Holding(s, x, t, p)) && Apply(Holding(s, x, t, p), e) == WithPhase(Holding(s, x, t, p), x, q)
    ensures Reachable(Holding(s, x, t, q))
  {
    ReachNext(Holding(s, x, t, p), e);
    assert s.txs[x := Tx(t, p, {})][x := Tx(t, q, {})] == s.txs[x := Tx(t, q, {})];
  }

  lemma ReachLocked(s: State, x: Id, t: Id)
    requires Reachable(s) && x !in s.txs && t in s.tokens && t !in s.locks
    ensures Reachable(Holding(s, x, t, Locked))
  {
    ReachNext(s, Begin(x, t));
    var s1 := InPhase(s, x, t, Begun);
    assert Apply(s, Begin(x, t)) == s1;
    ReachNext(s1, Lock(x));
    assert s.txs[x := Tx(t, Begun, {})][x := Tx(t, Locked, {})] == s.txs[x := Tx(t, Locked, {})];
  }

  lemma ReachSeen(s: State, x: Id, t: Id)
    requires Reachable(s) && x !in s.txs && t in s.tokens && t !in s.locks
    ensures Reachable(Holding(s, x, t, Seen(s.tokens[t].revoked)))
  {
    ReachLocked(s, x, t);
    NextPhase(s, x, t, Locked, Seen(s.tokens[t].revoked), ReadRow(x));
  }

  lemma ReachMarked(s: State, x: Id, t: Id, n: Id)
    requires Reachable(s) && x !in s.txs && t in s.tokens && t !in s.locks && !s.tokens[t].revoked && Unused(s, n)
    ensures Reachable(Holding(s, x, t, Marked(n, true)))
  {
    ReachSeen(s, x, t);
    NextPhase(s, x, t, Seen(false), Inserted(n), Insert(x, n));
    NextPhase(s, x, t, Inserted(n), Marked(n, true), Mark(x));
  }

  /** One login whose token `t` was rotated to `u`. */
  function Rotation(user: Id, t: Id, u: Id): State {
    State(Rotated(map[t := Token(user, false, None, t, 0, None)], t, u, true), map[], map[])
  }

  lemma ReachRotation(user: Id, t: Id, u: Id, z: Id)
    requires t != u
    ensures Reachable(Rotation(user, t, u))
  {
    assert Run(Init, []) == Init;
    ReachNext(Init, Login(t, user));
    var s := State(map[t := Token(user, false, None, t, 0, None)], map[], map[]);
    assert Apply(Init, Login(t, user)) == s;
    ReachMarked(s, z, t, u);
    var held := Holding(s, z, t, Marked(u, true));
    ReachNext(held, Commit(z));
    assert Release(held.locks, z) == map[] && held.txs - {z} == map[];
    assert Apply(held, Commit(z)) == Rotation(user, t, u);
  }

  /** The replay has read its revoked token, the successor's rotation is ready to commit. */
  function Race(user: Id, t: Id, u: Id, n: Id, x: Id, y: Id): State {
    Holding(Holding(Rotation(user, t, u), x, t, Seen(true)), y, u, Marked(n, true))
  }

  lemma ReachRace(user: Id, t: Id, u: Id, n: Id, x: Id, y: Id)
    requires t != u && n != t && n != u && x != y
    ensures Reachable(Race(user, t, u, n, x, y))
  {
    ReachRotation(user, t, u, x);
    var s := Rotation(user, t, u);
    ReachSeen(s, x, t);
    ReachMarked(Holding(s, x, t, Seen(true)), y, u, n);
  }

  /** What the replay's UPDATE found is revoked once the rotation has committed. */
  lemma BothRevoked(user: Id, t: Id, u: Id, n: Id, x: Id, y: Id)
    requires t != u && n != t && n != u && x != y
    ensures var s := Apply(Race(user, t, u, n, x, y), Scan(x));
            var c := Apply(s, Commit(y));
            && x in s.txs && s.txs[x].phase == Killing({t, u}) && x in c.txs && c.txs[x] == s.txs[x]
            && t in c.tokens && u in c.tokens && c.tokens[t].revoked && c.tokens[u].revoked
            && n in c.tokens && c.tokens[n].user == user
            && c.txs[x].token == t && c.tokens[t].user == user
  {
    var r := Race(user, t, u, n, x, y);
    assert TokensOf(r.tokens, user) == {t, u};
    var s := Apply(r, Scan(x));
    assert s.tokens == r.tokens && s.txs[y] == Tx(u, Marked(n, true), {});
    assert Apply(s, Commit(y)).tokens == Rotated(r.tokens, u, n, true);
  }

  /**
   Reuse detection may leave the user a live token: its transaction commits, and a successor minted
   meanwhile lives on.
   */
  lemma KillMayLeaveALiveToken(user: Id, t: Id, u: Id, n: Id, x: Id, y: Id)
    requires t != u && n != t && n != u && x != y
    ensures exists s ::
              && Reachable(s) && x in s.txs && s.txs[x].phase.Killing? && MayCommit(s, s.txs[x])
              && s.txs[x].token in s.tokens && s.tokens[s.txs[x].token].user == user
              && n in s.tokens && s.tokens[n].user == user && n !in s.txs[x].phase.known
              && n in Apply(s, Commit(x)).tokens && !Apply(s, Commit(x)).tokens[n].revoked
  {
    var r := Race(user, t, u, n, x, y);
    ReachRace(user, t, u, n, x, y);
    ReachableIsOk(r);
    RacingRotationSurvives(r, x, y);
    ReachNext(r, Scan(x));
    ReachNext(Apply(r, Scan(x)), Commit(y));
    BothRevoked(user, t, u, n, x, y);
    var s := Apply(Apply(r, Scan(x)), Commit(y));
    ReachableIsOk(s);
    assert TxOk(s, x);
    assert MayCommit(s, s.txs[x]);
  }
}
