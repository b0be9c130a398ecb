/**
 Refresh-token rotation under concurrency: every refresh is a transaction whose
 begin, row lock, read, insert, revoke and commit are separate steps, interleaved
 with other refreshes, with logins and with revocations. A writer of a token row
 needs that row's lock; its writes become visible at commit.
 */
module TokenRotation {
  import opened Common

  /**
   A row of refresh_tokens. `login`, `depth` and `parent` are history: the token a login
   minted that this one descends from, how many rotations lie between, and the last of them.
   */
  datatype Token = Token(user: Id, revoked: bool, replacedBy: Option<Id>, login: Id, depth: nat, parent: Option<Id>)

  datatype Phase =
    | Begun
    | Locked
    | Seen(revoked: bool)
    | Inserted(minted: Id)
    | Marked(minted: Id, applied: bool)
    | Killing(known: set<Id>)  // reuse detected: the user's tokens its UPDATE found
    | Revoking                 // logout or account deletion: only revokes rows

  datatype Tx = Tx(token: Id, phase: Phase, kills: set<Id>)

  datatype State = State(tokens: map<Id, Token>, locks: map<Id, Id>, txs: map<Id, Tx>)

  const Init := State(map[], map[], map[])

  datatype Event =
    | Login(token: Id, user: Id)
    | Begin(tx: Id, token: Id)
    | BeginRevoking(tx: Id, token: Id)
    | Lock(tx: Id)
    | ReadRow(tx: Id)
    | Insert(tx: Id, token: Id)
    | Mark(tx: Id)
    | Scan(tx: Id)
    | RevokeRow(tx: Id, token: Id)
    | Commit(tx: Id)
    | Rollback(tx: Id)

  predicate HasMinted(tx: Tx, t: Id) {
    (tx.phase.Inserted? || tx.phase.Marked?) && tx.phase.minted == t
  }

  /** A random identifier never collides with a stored or a pending one. */
  predicate Unused(s: State, t: Id) {
    t !in s.tokens && forall x :: x in s.txs ==> !HasMinted(s.txs[x], t)
  }

  predicate MayRevoke(tx: Tx) { tx.phase.Revoking? || tx.phase.Killing? }

  /** UPDATE ... WHERE user_id = $1 ends when every row it found is revoked, by itself or by others it waited for. */
  predicate MayCommit(s: State, tx: Tx) {
    || tx.phase.Marked? || tx.phase.Revoking?
    || (tx.phase.Killing? &&
        forall t :: t in tx.phase.known ==> t in tx.kills || (t in s.tokens && s.tokens[t].revoked))
  }

  function TokensOf(tokens: map<Id, Token>, user: Id): set<Id> { set t | t in tokens && tokens[t].user == user }

  function Release(locks: map<Id, Id>, x: Id): map<Id, Id> {
    map t | t in locks && locks[t] != x :: locks[t]
  }

  function Killed(tokens: map<Id, Token>, kills: set<Id>): map<Id, Token> {
    map t | t in tokens :: if t in kills then tokens[t].(revoked := true) else tokens[t]
  }

  /** The rotated row points at its successor, which continues the same lineage. */
  function Rotated(tokens: map<Id, Token>, t: Id, minted: Id, applied: bool): map<Id, Token>
    requires t in tokens
  {
    var child := Token(tokens[t].user, false, None, tokens[t].login, tokens[t].depth + 1, Some(t));
    var marked := if applied then tokens[t := tokens[t].(revoked := true, replacedBy := Some(minted))] else tokens;
    marked[minted := child]
  }

  function CommitStep(s: State, x: Id): State
    requires x in s.txs
  {
    var tx := s.txs[x];
    var tokens := if tx.phase.Marked? && tx.token in s.tokens
                  then Rotated(s.tokens, tx.token, tx.phase.minted, tx.phase.applied)
                  else Killed(s.tokens, tx.kills);
    State(tokens, Release(s.locks, x), s.txs - {x})
  }

  function WithPhase(s: State, x: Id, p: Phase): State
    requires x in s.txs
  {
    s.(txs := s.txs[x := s.txs[x].(phase := p)])
  }

  /** A refresh transaction's next step; a step that is not enabled changes nothing. */
  function TxStep(s: State, x: Id, e: Event): State
    requires x in s.txs
  {
    var tx := s.txs[x];
    match e
    case Lock(_) =>
      if tx.phase.Begun? && tx.token in s.tokens && tx.token !in s.locks
      then WithPhase(s, x, Locked).(locks := s.locks[tx.token := x]) else s
    case ReadRow(_) =>
      if tx.phase.Locked? && tx.token in s.tokens then WithPhase(s, x, Seen(s.tokens[tx.token].revoked)) else s
    case Insert(_, t) =>
      if tx.phase == Seen(false) && Unused(s, t) then WithPhase(s, x, Inserted(t)) else s
    case Mark(_) =>
      if tx.phase.Inserted? && tx.token in s.tokens
      then WithPhase(s, x, Marked(tx.phase.minted, !s.tokens[tx.token].revoked)) else s
    case Scan(_) =>
      if tx.phase == Seen(true) && tx.token in s.tokens
      then WithPhase(s, x, Killing(TokensOf(s.tokens, s.tokens[tx.token].user))) else s
    case RevokeRow(_, t) =>
      if MayRevoke(tx) && (tx.phase.Killing? ==> t in tx.phase.known) && t in s.tokens && !s.tokens[t].revoked
          && (t !in s.locks || s.locks[t] == x)
      then s.(locks := s.locks[t := x], txs := s.txs[x := tx.(kills := tx.kills + {t})]) else s
    case Commit(_) => if MayCommit(s, tx) then CommitStep(s, x) else s
    case Rollback(_) => State(s.tokens, Release(s.locks, x), s.txs - {x})
    case _ => s
  }

  function Apply(s: State, e: Event): State {
    match e
    case Login(t, user) =>
      if Unused(s, t) then s.(tokens := s.tokens[t := Token(user, false, None, t, 0, None)]) else s
    case Begin(x, t) => if x in s.txs then s else s.(txs := s.txs[x := Tx(t, Begun, {})])
    case BeginRevoking(x, t) => if x in s.txs then s else s.(txs := s.txs[x := Tx(t, Revoking, {})])
    case _ => if e.tx in s.txs then TxStep(s, e.tx, e) else s
  }

  function Run(s: State, es: seq<Event>): State
    decreases |es|
  {
    if es == [] then s else Run(Apply(s, es[0]), es[1..])
  }

  // ---------- The invariant ----------

  ghost predicate TokenOk(tokens: map<Id, Token>, t: Id)
    requires t in tokens
  {
    var k := tokens[t];
    && (k.replacedBy.Some? ==>
          && k.revoked
          && k.replacedBy.value in tokens
          && tokens[k.replacedBy.value].parent == Some(t))
    && (k.parent.None? <==> k.depth == 0)
    && (k.depth == 0 ==> k.login == t)
    && (k.parent.Some? ==>
          && k.parent.value in tokens
          && tokens[k.parent.value].replacedBy == Some(t)
          && tokens[k.parent.value].login == k.login
          && tokens[k.parent.value].user == k.user
          && tokens[k.parent.value].depth + 1 == k.depth)
  }

  /** One token per login and rotation count: no parallel family. */
  ghost predicate NoParallelFamily(tokens: map<Id, Token>) {
    forall t, u ::
      t in tokens && u in tokens && tokens[t].login == tokens[u].login && tokens[t].depth == tokens[u].depth ==> t == u
  }

  ghost predicate TokensOk(tokens: map<Id, Token>) {
    && (forall t {:trigger TokenOk(tokens, t)} :: t in tokens ==> TokenOk(tokens, t))
    && NoParallelFamily(tokens)
  }

  ghost predicate TxOk(s: State, x: Id)
    requires x in s.txs
  {
    var tx := s.txs[x];
    && (!tx.phase.Begun? && !tx.phase.Revoking? ==>
          tx.token in s.tokens && tx.token in s.locks && s.locks[tx.token] == x)
    && (tx.phase.Seen? ==> tx.phase.revoked == s.tokens[tx.token].revoked)
    && (tx.phase.Inserted? || tx.phase.Marked? ==> !s.tokens[tx.token].revoked && tx.phase.minted !in s.tokens)
    && (tx.phase.Marked? ==> tx.phase.applied)
    && (tx.kills != {} ==> MayRevoke(tx))
    && (tx.phase.Killing? ==> tx.kills <= tx.phase.known && forall t :: t in tx.phase.known ==> t in s.tokens)
    && (forall t :: t in tx.kills ==> t in s.tokens && t in s.locks && s.locks[t] == x)
  }

  ghost predicate MintsDistinct(s: State) {
    forall x, y, t :: x in s.txs && y in s.txs && HasMinted(s.txs[x], t) && HasMinted(s.txs[y], t) ==> x == y
  }

  ghost predicate Inv(s: State) {
    && TokensOk(s.tokens)
    && (forall x :: x in s.txs ==> TxOk(s, x))
    && MintsDistinct(s)
  }

  lemma RotationKeepsTokens(tokens: map<Id, Token>, t: Id, n: Id)
    requires TokensOk(tokens) && t in tokens && !tokens[t].revoked && n !in tokens
    ensures TokensOk(Rotated(tokens, t, n, true))
  {
    var after := Rotated(tokens, t, n, true);
    assert TokenOk(tokens, t);
    forall u | u in after ensures TokenOk(after, u) {
      if u in tokens { assert TokenOk(tokens, u); }
    }
    forall u | u in tokens && tokens[u].login == tokens[t].login ensures tokens[u].depth != tokens[t].depth + 1 {
      LiveHasNoNext(tokens, t, u);
    }
  }

  /** A live token has no descendant yet. */
  lemma LiveHasNoNext(tokens: map<Id, Token>, t: Id, u: Id)
    requires TokensOk(tokens) && t in tokens && !tokens[t].revoked && u in tokens && tokens[u].login == tokens[t].login
    ensures tokens[u].depth != tokens[t].depth + 1
  {
    assert TokenOk(tokens, u) && TokenOk(tokens, t);
  }

  lemma KillingKeepsTokens(tokens: map<Id, Token>, kills: set<Id>)
    requires TokensOk(tokens)
    ensures TokensOk(Killed(tokens, kills))
  {
    forall u | u in tokens ensures TokenOk(Killed(tokens, kills), u) {
      assert TokenOk(tokens, u);
    }
  }

  lemma LoginKeepsTokens(tokens: map<Id, Token>, t: Id, user: Id)
    requires TokensOk(tokens) && t !in tokens
    ensures TokensOk(tokens[t := Token(user, false, None, t, 0, None)])
  {
    var after := tokens[t := Token(user, false, None, t, 0, None)];
    forall u | u in after ensures TokenOk(after, u) {
      if u != t { assert TokenOk(tokens, u); }
    }
  }

  lemma LoginKeepsInv(s: State, t: Id, user: Id)
    requires Inv(s)
    ensures Inv(Apply(s, Login(t, user)))
  {
    var s' := Apply(s, Login(t, user));
    if Unused(s, t) {
      LoginKeepsTokens(s.tokens, t, user);
      forall x | x in s'.txs ensures TxOk(s', x) {
        assert TxOk(s, x);
        assert !HasMinted(s.txs[x], t);
      }
    }
  }

  /** Nobody else touches a row that a transaction holds. */
  lemma CommitKeepsOthers(s: State, x: Id, y: Id)
    requires x in s.txs && y in s.txs && x != y && TxOk(s, x) && TxOk(s, y) && MintsDistinct(s)
    requires MayCommit(s, s.txs[x])
    ensures TxOk(CommitStep(s, x), y)
  {
    var tx := s.txs[x];
    if tx.phase.Marked? { assert HasMinted(tx, tx.phase.minted); }
    if s.txs[y].phase.Marked? || s.txs[y].phase.Inserted? {
      assert HasMinted(s.txs[y], s.txs[y].phase.minted);
    }
  }

  lemma CommitKeepsInv(s: State, x: Id)
    requires Inv(s) && x in s.txs && MayCommit(s, s.txs[x])
    ensures Inv(CommitStep(s, x))
  {
    var s' := CommitStep(s, x);
    assert TxOk(s, x);
    if s.txs[x].phase.Marked? {
      RotationKeepsTokens(s.tokens, s.txs[x].token, s.txs[x].phase.minted);
    } else {
      KillingKeepsTokens(s.tokens, s.txs[x].kills);
    }
    forall y | y in s'.txs ensures TxOk(s', y) { CommitKeepsOthers(s, x, y); }
    forall y, z, t | y in s'.txs && z in s'.txs && HasMinted(s'.txs[y], t) && HasMinted(s'.txs[z], t) ensures y == z {
      assert HasMinted(s.txs[y], t) && HasMinted(s.txs[z], t);
    }
  }

  lemma OwnStepKeepsTx(s: State, x: Id, e: Event)
    requires x in s.txs && TxOk(s, x) && !e.Commit? && x in TxStep(s, x, e).txs
    ensures TxOk(TxStep(s, x, e), x)
  {}

  /** A step takes only free locks, so what another transaction holds stays its own. */
  lemma OtherStepKeepsTx(s: State, x: Id, e: Event, y: Id)
    requires x in s.txs && y in s.txs && x != y && TxOk(s, y) && !e.Commit?
    ensures y in TxStep(s, x, e).txs && TxOk(TxStep(s, x, e), y)
  {
    var s' := TxStep(s, x, e);
    assert s'.tokens == s.tokens && s'.txs[y] == s.txs[y];
    assert forall t :: t in s.locks && s.locks[t] == y ==> t in s'.locks && s'.locks[t] == y;
  }

  lemma StepKeepsTx(s: State, x: Id, e: Event, y: Id)
    requires x in s.txs && y in s.txs && TxOk(s, x) && TxOk(s, y) && !e.Commit?
    requires y in TxStep(s, x, e).txs
    ensures TxOk(TxStep(s, x, e), y)
  {
    if x == y { OwnStepKeepsTx(s, x, e); } else { OtherStepKeepsTx(s, x, e, y); }
  }

  lemma MintedBefore(s: State, x: Id, e: Event, y: Id, t: Id)
    requires x in s.txs && !e.Commit? && y in TxStep(s, x, e).txs && HasMinted(TxStep(s, x, e).txs[y], t)
    ensures y in s.txs
    ensures HasMinted(s.txs[y], t) || (y == x && Unused(s, t))
  {}

  lemma StepKeepsMints(s: State, x: Id, e: Event)
    requires x in s.txs && MintsDistinct(s) && !e.Commit?
    ensures MintsDistinct(TxStep(s, x, e))
  {
    var s' := TxStep(s, x, e);
    forall y, z, t | y in s'.txs && z in s'.txs && HasMinted(s'.txs[y], t) && HasMinted(s'.txs[z], t) ensures y == z {
      MintedBefore(s, x, e, y, t);
      MintedBefore(s, x, e, z, t);
    }
  }

  lemma ApplyKeepsInv(s: State, e: Event)
    requires Inv(s)
    ensures Inv(Apply(s, e))
  {
    if e.Login? {
      LoginKeepsInv(s, e.token, e.user);
    } else if e.Begin? || e.BeginRevoking? {
      BeginKeepsInv(s, e);
    } else if e.tx in s.txs {
      if !e.Commit? {
        StepKeepsInv(s, e.tx, e);
      } else if MayCommit(s, s.txs[e.tx]) {
        CommitKeepsInv(s, e.tx);
      }
    }
  }

  lemma BeginKeepsInv(s: State, e: Event)
    requires Inv(s) && (e.Begin? || e.BeginRevoking?)
    ensures Inv(Apply(s, e))
  {
    var s' := Apply(s, e);
    forall y | y in s'.txs ensures TxOk(s', y) {
      if y in s.txs { assert TxOk(s, y); }
    }
    forall y, z, t | y in s'.txs && z in s'.txs && HasMinted(s'.txs[y], t) && HasMinted(s'.txs[z], t) ensures y == z {
      assert HasMinted(s.txs[y], t) && HasMinted(s.txs[z], t);
    }
  }

  lemma StepKeepsInv(s: State, x: Id, e: Event)
    requires Inv(s) && x in s.txs && !e.Commit?
    ensures Inv(TxStep(s, x, e))
  {
    var s' := TxStep(s, x, e);
    assert s'.tokens == s.tokens;
    forall y | y in s'.txs ensures TxOk(s', y) { StepKeepsTx(s, x, e, y); }
    StepKeepsMints(s, x, e);
  }

  lemma {:induction false} RunKeepsInv(s: State, es: seq<Event>)
    requires Inv(s)
    ensures Inv(Run(s, es))
    decreases |es|
  {
    if es != [] {
      ApplyKeepsInv(s, es[0]);
      RunKeepsInv(Apply(s, es[0]), es[1..]);
    }
  }

  // ---------- What the lineage promises ----------

  /** Rows never disappear, revocation is never undone and a successor, once written, never changes. */
  ghost predicate OnlyRevokes(s: State, s': State) {
    forall t :: t in s.tokens ==>
      && t in s'.tokens
      && (s.tokens[t].revoked ==> s'.tokens[t].revoked)
      && (s.tokens[t].revoked ==> s'.tokens[t].replacedBy == s.tokens[t].replacedBy)
      && s'.tokens[t].login == s.tokens[t].login && s'.tokens[t].user == s.tokens[t].user
  }

  lemma ApplyOnlyRevokes(s: State, e: Event)
    requires Inv(s)
    ensures OnlyRevokes(s, Apply(s, e))
  {
    if !e.Login? && e.tx in s.txs { assert TxOk(s, e.tx); }
  }

  lemma {:induction false} RevocationIsFinal(s: State, es: seq<Event>)
    requires Inv(s)
    ensures OnlyRevokes(s, Run(s, es))
    decreases |es|
  {
    if es != [] {
      ApplyKeepsInv(s, es[0]);
      ApplyOnlyRevokes(s, es[0]);
      RevocationIsFinal(Apply(s, es[0]), es[1..]);
    }
  }

  /** The final UPDATE of a refresh always finds its row unrevoked: no token is minted without a link to it. */
  lemma MarkAlwaysApplies(es: seq<Event>, x: Id)
    requires x in Run(Init, es).txs && Run(Init, es).txs[x].phase.Inserted?
    ensures var s := Run(Init, es); s.txs[x].token in s.tokens && !s.tokens[s.txs[x].token].revoked
  {
    RunKeepsInv(Init, es);
    assert TxOk(Run(Init, es), x);
  }

  /** replaced_by implies revoked, and no two tokens share a successor. */
  lemma SuccessorsAreUnique(es: seq<Event>, t: Id, u: Id)
    requires var k := Run(Init, es).tokens;
             t in k && u in k && k[t].replacedBy.Some? && k[t].replacedBy == k[u].replacedBy
    ensures t == u && Run(Init, es).tokens[t].revoked
  {
    RunKeepsInv(Init, es);
    var k := Run(Init, es).tokens;
    assert TokenOk(k, t) && TokenOk(k, u);
  }

  /** The token `n` replacements after `t`, if the chain is that long. */
  function Follow(tokens: map<Id, Token>, t: Id, n: nat): Option<Id>
    decreases n
  {
    if t !in tokens then None
    else if n == 0 then Some(t)
    else if tokens[t].replacedBy.None? then None
    else Follow(tokens, tokens[t].replacedBy.value, n - 1)
  }

  lemma {:induction false} FollowDeepens(tokens: map<Id, Token>, t: Id, n: nat)
    requires TokensOk(tokens) && Follow(tokens, t, n).Some?
    ensures t in tokens && Follow(tokens, t, n).value in tokens
    ensures tokens[Follow(tokens, t, n).value].depth == tokens[t].depth + n
    ensures tokens[Follow(tokens, t, n).value].login == tokens[t].login
    decreases n
  {
    if n > 0 {
      assert TokenOk(tokens, t);
      var u := tokens[t].replacedBy.value;
      assert TokenOk(tokens, u);
      FollowDeepens(tokens, u, n - 1);
    }
  }

  /** Following replacements never comes back to a token. */
  lemma LineageIsAcyclic(es: seq<Event>, t: Id, n: nat)
    requires n > 0
    ensures Follow(Run(Init, es).tokens, t, n) != Some(t)
  {
    RunKeepsInv(Init, es);
    if Follow(Run(Init, es).tokens, t, n).Some? { FollowDeepens(Run(Init, es).tokens, t, n); }
  }

  /** Every token descends, by replacements, from the token its login minted. */
  lemma {:induction false} DescendsFromLogin(tokens: map<Id, Token>, t: Id)
    requires TokensOk(tokens) && t in tokens
    ensures Follow(tokens, tokens[t].login, tokens[t].depth) == Some(t)
    decreases tokens[t].depth
  {
    assert TokenOk(tokens, t);
    if tokens[t].depth > 0 {
      var p := tokens[t].parent.value;
      DescendsFromLogin(tokens, p);
      FollowOneMore(tokens, tokens[t].login, tokens[p].depth, p);
    }
  }

  lemma {:induction false} FollowOneMore(tokens: map<Id, Token>, t: Id, n: nat, p: Id)
    requires Follow(tokens, t, n) == Some(p) && p in tokens && tokens[p].replacedBy.Some?
    requires tokens[p].replacedBy.value in tokens
    ensures Follow(tokens, t, n + 1) == tokens[p].replacedBy
    decreases n
  {
    if n > 0 { FollowOneMore(tokens, tokens[t].replacedBy.value, n - 1, p); }
  }

  lemma {:induction false} FollowPrefix(tokens: map<Id, Token>, t: Id, n: nat, m: nat)
    requires Follow(tokens, t, n).Some? && m < n
    ensures Follow(tokens, t, m).Some?
    ensures Follow(tokens, t, m).value in tokens && tokens[Follow(tokens, t, m).value].replacedBy.Some?
    decreases n
  {
    if m > 0 { FollowPrefix(tokens, tokens[t].replacedBy.value, n - 1, m - 1); }
  }

  /** A login's lineage has at most one unrevoked token, and that token is its tip. */
  lemma AtMostOneLivePerLogin(es: seq<Event>, t: Id, u: Id)
    requires var k := Run(Init, es).tokens; t in k && u in k && k[t].login == k[u].login && !k[t].revoked
    ensures var k := Run(Init, es).tokens;
            k[t].replacedBy == None && k[u].depth <= k[t].depth && (!k[u].revoked ==> t == u)
  {
    RunKeepsInv(Init, es);
    var k := Run(Init, es).tokens;
    LiveIsTip(k, t, u);
    if !k[u].revoked { LiveIsTip(k, u, t); }
  }

  lemma LiveIsTip(k: map<Id, Token>, t: Id, u: Id)
    requires TokensOk(k) && t in k && u in k && k[t].login == k[u].login && !k[t].revoked
    ensures k[t].replacedBy == None && k[u].depth <= k[t].depth
  {
    assert TokenOk(k, t);
    if k[t].depth < k[u].depth {
      DescendsFromLogin(k, t);
      DescendsFromLogin(k, u);
      FollowPrefix(k, k[t].login, k[u].depth, k[t].depth);
      assert false;
    }
  }

  /** Two refreshes of one token never both mint: a committed rotation leaves the token revoked for every later one. */
  lemma RotatesAtMostOnce(s: State, x: Id, es: seq<Event>, y: Id)
    requires Inv(s) && x in s.txs && s.txs[x].phase.Marked?
    requires var s' := Run(Apply(s, Commit(x)), es); y in s'.txs && s'.txs[y].token == s.txs[x].token
    ensures var s' := Run(Apply(s, Commit(x)), es);
            !s'.txs[y].phase.Inserted? && !s'.txs[y].phase.Marked?
            && s.txs[x].token in s'.tokens && s'.tokens[s.txs[x].token].replacedBy == Some(s.txs[x].phase.minted)
  {
    assert TxOk(s, x);
    var c := Apply(s, Commit(x));
    assert c == CommitStep(s, x);
    ApplyKeepsInv(s, Commit(x));
    RevocationIsFinal(c, es);
    RunKeepsInv(c, es);
    assert TxOk(Run(c, es), y);
  }

  // ---------- Reuse detection under concurrency ----------

  /**
   What the UPDATE finds is every committed token of the user, and none of them is ever live again
   after the commit.
   */
  lemma {:induction false} KilledStayDead(s: State, x: Id, mid: seq<Event>, more: seq<Event>, t: Id)
    requires Inv(s) && x in s.txs && s.txs[x].phase == Seen(true) && t in s.tokens
    requires s.tokens[t].user == s.tokens[s.txs[x].token].user
    requires var c := Run(Apply(s, Scan(x)), mid);
             x in c.txs && c.txs[x].phase == Apply(s, Scan(x)).txs[x].phase && MayCommit(c, c.txs[x])
    ensures var c := Run(Apply(s, Scan(x)), mid);
            t in Run(Apply(c, Commit(x)), more).tokens && Run(Apply(c, Commit(x)), more).tokens[t].revoked
  {
    assert TxOk(s, x);
    var s1 := Apply(s, Scan(x));
    var c := Run(s1, mid);
    ApplyKeepsInv(s, Scan(x));
    RunKeepsInv(s1, mid);
    assert t in c.txs[x].phase.known;
    assert TxOk(c, x);
    ApplyKeepsInv(c, Commit(x));
    assert t in Apply(c, Commit(x)).tokens && Apply(c, Commit(x)).tokens[t].revoked;
    RevocationIsFinal(Apply(c, Commit(x)), more);
  }

  /**
   The whole law, from the moment the UPDATE looks to the commit, with any events in between: a
   token of the user is live afterwards if and only if it was not committed when the UPDATE looked
   and is live at the commit; nobody else's token changes.
   */
  lemma ReuseDetectionLaw(s: State, x: Id, mid: seq<Event>, t: Id)
    requires Inv(s) && x in s.txs && s.txs[x].phase == Seen(true)
    requires var c := Run(Apply(s, Scan(x)), mid);
             && x in c.txs && c.txs[x].phase == Apply(s, Scan(x)).txs[x].phase && MayCommit(c, c.txs[x])
             && t in c.tokens
    ensures s.txs[x].token in s.tokens
    ensures var c := Run(Apply(s, Scan(x)), mid);
            var user := s.tokens[s.txs[x].token].user;
            && t in Apply(c, Commit(x)).tokens
            && (c.tokens[t].user == user ==>
                  (!Apply(c, Commit(x)).tokens[t].revoked <==> t !in s.tokens && !c.tokens[t].revoked))
            && (c.tokens[t].user != user ==> Apply(c, Commit(x)).tokens[t] == c.tokens[t])
  {
    assert TxOk(s, x);
    var s1 := Apply(s, Scan(x));
    var c := Run(s1, mid);
    ApplyKeepsInv(s, Scan(x));
    RunKeepsInv(s1, mid);
    RevocationIsFinal(s1, mid);
    assert s1.tokens == s.tokens;
    assert TxOk(c, x);
    var known := c.txs[x].phase.known;
    assert known == TokensOf(s.tokens, s.tokens[s.txs[x].token].user);
    assert t in known <==> t in s.tokens && c.tokens[t].user == s.tokens[s.txs[x].token].user;
  }

  /** The exception is real: a rotation that commits after the UPDATE looked leaves its new token live. */
  lemma RacingRotationSurvives(s: State, x: Id, y: Id)
    requires Inv(s) && x in s.txs && y in s.txs && s.txs[x].phase == Seen(true) && s.txs[y].phase.Marked?
    ensures var c := Apply(Apply(s, Scan(x)), Commit(y));
            var minted := s.txs[y].phase.minted;
            && minted in c.tokens && !c.tokens[minted].revoked
            && x in c.txs && c.txs[x].phase.Killing? && minted !in c.txs[x].phase.known
  {
    assert TxOk(s, x) && TxOk(s, y);
    var s1 := Apply(s, Scan(x));
    assert s1.txs[y] == s.txs[y] && s1.tokens == s.tokens;
  }

  // ---------- One transaction alone ----------

  lemma RunOne(s: State, e: Event, es: seq<Event>)
    ensures Run(s, [e] + es) == Run(Apply(s, e), es)
  {
    assert ([e] + es)[1..] == es;
  }

  lemma LockThenRead(s: State, x: Id, t: Id)
    requires x in s.txs && s.txs[x] == Tx(t, Begun, {}) && t in s.tokens && t !in s.locks
    ensures Apply(Apply(s, Lock(x)), ReadRow(x))
         == s.(locks := s.locks[t := x], txs := s.txs[x := Tx(t, Seen(s.tokens[t].revoked), {})])
  {
    var s1 := Apply(s, Lock(x));
    assert s1 == s.(locks := s.locks[t := x], txs := s.txs[x := Tx(t, Locked, {})]);
    assert s1.txs[x := Tx(t, Seen(s.tokens[t].revoked), {})] == s.txs[x := Tx(t, Seen(s.tokens[t].revoked), {})];
  }

  lemma RefreshToSeen(s: State, x: Id, t: Id, es: seq<Event>)
    requires x !in s.txs && t in s.tokens && t !in s.locks
    ensures var seen := Tx(t, Seen(s.tokens[t].revoked), {});
            Run(s, [Begin(x, t), Lock(x), ReadRow(x)] + es)
            == Run(s.(locks := s.locks[t := x], txs := s.txs[x := seen]), es)
  {
    var s1 := s.(txs := s.txs[x := Tx(t, Begun, {})]);
    assert Apply(s, Begin(x, t)) == s1;
    LockThenRead(s1, x, t);
    assert s1.txs[x := Tx(t, Seen(s.tokens[t].revoked), {})] == s.txs[x := Tx(t, Seen(s.tokens[t].revoked), {})];
    RunThree(s, Begin(x, t), Lock(x), ReadRow(x), es);
  }

  lemma RunThree(s: State, a: Event, b: Event, c: Event, es: seq<Event>)
    ensures Run(s, [a, b, c] + es) == Run(Apply(Apply(Apply(s, a), b), c), es)
  {
    assert [a, b, c] + es == [a] + ([b] + ([c] + es));
    RunOne(s, a, [b] + ([c] + es));
    RunOne(Apply(s, a), b, [c] + es);
    RunOne(Apply(Apply(s, a), b), c, es);
  }

  lemma SeenToMark(s: State, x: Id, t: Id, n: Id)
    requires x in s.txs && s.txs[x] == Tx(t, Seen(false), {}) && t in s.tokens && !s.tokens[t].revoked && Unused(s, n)
    ensures Run(s, [Insert(x, n), Mark(x)]) == s.(txs := s.txs[x := Tx(t, Marked(n, true), {})])
  {
    var s1 := Apply(s, Insert(x, n));
    RunOne(s, Insert(x, n), [Mark(x)]);
    RunOne(s1, Mark(x), []);
  }

  lemma CommitOfMark(s: State, x: Id, t: Id, n: Id)
    requires x in s.txs && s.txs[x] == Tx(t, Marked(n, true), {}) && t in s.tokens && n !in s.tokens
    ensures var u := Apply(s, Commit(x));
            && u.tokens.Keys == s.tokens.Keys + {n}
            && u.tokens[t] == s.tokens[t].(revoked := true, replacedBy := Some(n))
            && u.tokens[n] == Token(s.tokens[t].user, false, None, s.tokens[t].login, s.tokens[t].depth + 1, Some(t))
            && (forall v :: v in s.tokens && v != t ==> u.tokens[v] == s.tokens[v])
            && x !in u.txs
  {
    assert Apply(s, Commit(x)) == CommitStep(s, x);
  }

  /**
   A refresh of a live, unlocked token with nothing in between revokes it and leaves a live successor to
   the same user and login; no other row changes.
   */
  lemma RotationAlone(s: State, x: Id, t: Id, n: Id)
    requires x !in s.txs && t in s.tokens && !s.tokens[t].revoked && t !in s.locks && Unused(s, n)
    ensures var u := Apply(Run(s, [Begin(x, t), Lock(x), ReadRow(x), Insert(x, n), Mark(x)]), Commit(x));
            && u.tokens.Keys == s.tokens.Keys + {n}
            && u.tokens[t] == s.tokens[t].(revoked := true, replacedBy := Some(n))
            && u.tokens[n] == Token(s.tokens[t].user, false, None, s.tokens[t].login, s.tokens[t].depth + 1, Some(t))
            && (forall v :: v in s.tokens && v != t ==> u.tokens[v] == s.tokens[v])
            && x !in u.txs
  {
    var seen := s.(locks := s.locks[t := x], txs := s.txs[x := Tx(t, Seen(false), {})]);
    assert [Begin(x, t), Lock(x), ReadRow(x), Insert(x, n), Mark(x)]
        == [Begin(x, t), Lock(x), ReadRow(x)] + [Insert(x, n), Mark(x)];
    RefreshToSeen(s, x, t, [Insert(x, n), Mark(x)]);
    SeenToMark(seen, x, t, n);
    var m := seen.(txs := seen.txs[x := Tx(t, Marked(n, true), {})]);
    CommitOfMark(m, x, t, n);
  }

  /** A revocation of an unlocked token with nothing in between revokes that token and no other. */
  lemma RevocationAlone(s: State, x: Id, t: Id)
    requires x !in s.txs && t in s.tokens && t !in s.locks
    ensures var u := Run(s, [BeginRevoking(x, t), RevokeRow(x, t), Commit(x)]);
            && u.tokens == s.tokens[t := s.tokens[t].(revoked := true)]
            && x !in u.txs
  {
    var s1 := Apply(s, BeginRevoking(x, t));
    var s2 := Apply(s1, RevokeRow(x, t));
    RunOne(s, BeginRevoking(x, t), [RevokeRow(x, t), Commit(x)]);
    RunOne(s1, RevokeRow(x, t), [Commit(x)]);
    RunOne(s2, Commit(x), []);
    assert s2.txs[x].phase.Revoking?;
    assert Run(s2, [Commit(x)]) == CommitStep(s2, x);
    assert CommitStep(s2, x).tokens == s.tokens[t := s.tokens[t].(revoked := true)];
  }
}
