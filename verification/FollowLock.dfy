/**
 Interleaved follow, block and delete_account transactions over the users rows. Every statement
 of a transaction is its own step, reads see committed rows only, and a transaction's own
 writes become visible when it commits.

 A follow holds the followee's row FOR UPDATE. Inserting a block row holds both users' rows
 FOR KEY SHARE, because both columns are foreign keys (migrations/001_init.sql). Deleting an
 account holds its row FOR NO KEY UPDATE. FOR UPDATE conflicts with all three, FOR NO KEY
 UPDATE with itself, and FOR KEY SHARE with FOR UPDATE only. The share lock a follow takes on
 its own follower is not modelled: it only removes interleavings.
 */
module FollowLock {
  import opened Common
  import opened SocialGraph

  datatype Tx =
    | Following(edge: Edge)                                // begun
    | Locked(edge: Edge)                                   // holds the followee's row
    | Counted(edge: Edge)                                  // saw fewer than the limit
    | Inserted(edge: Edge)                                 // has an uncommitted follows row
    | Deleting(user: Id)                                   // deleted_at set but uncommitted
    | Purged(user: Id, rows: set<Edge>)                    // follows deleted but uncommitted
    | Unblocked(user: Id, rows: set<Edge>, blocks: set<Edge>)
    | Blocking(edge: Edge)                                 // begun
    | Claimed(edge: Edge, added: bool)                     // INSERT ran; added unless the row exists or is a self-block
    | Severed(edge: Edge, added: bool, rows: set<Edge>)    // follows deleted but uncommitted

  datatype State = State(users: set<Id>, deleted: set<Id>, follows: set<Edge>, blocks: set<Edge>, open: map<Id, Tx>)

  datatype Event =
    | Begin(tx: Id, edge: Edge)
    | Lock(tx: Id)
    | Count(tx: Id)
    | Insert(tx: Id)
    | DeleteBegin(tx: Id, user: Id)
    | Purge(tx: Id)
    | PurgeBlocks(tx: Id)
    | BlockBegin(tx: Id, edge: Edge)
    | BlockInsert(tx: Id)
    | Sever(tx: Id)
    | Commit(tx: Id)
    | Rollback(tx: Id)
    | Unfollow(edge: Edge)
    | Unblock(edge: Edge)

  function Reverse(e: Edge): Edge { Edge(e.to, e.from) }

  /** The row held FOR UPDATE. */
  function ForUpdate(t: Tx): Option<Id> {
    if t.Locked? || t.Counted? || t.Inserted? then Some(t.edge.to) else None
  }

  /** The row held FOR UPDATE or FOR NO KEY UPDATE. */
  function Holds(t: Tx): Option<Id> {
    if t.Deleting? || t.Purged? || t.Unblocked? then Some(t.user) else ForUpdate(t)
  }

  /** The rows held FOR KEY SHARE. */
  function Shares(t: Tx): set<Id> {
    if (t.Claimed? || t.Severed?) && t.added then {t.edge.from, t.edge.to} else {}
  }

  predicate Held(s: State, u: Id) { exists x :: x in s.open && Holds(s.open[x]) == Some(u) }

  predicate HeldForUpdate(s: State, u: Id) { exists x :: x in s.open && ForUpdate(s.open[x]) == Some(u) }

  predicate Shared(s: State, u: Id) { exists x :: x in s.open && u in Shares(s.open[x]) }

  function Close(s: State, tx: Id): State { s.(open := s.open - {tx}) }

  function To(s: State, tx: Id, t: Tx): State { s.(open := s.open[tx := t]) }

  function FollowTxStep(s: State, e: Event): State
    requires e.Lock? || e.Count? || e.Insert?
    requires e.tx in s.open
  {
    var t := s.open[e.tx];
    if e.Lock? && t.Following? then
      if t.edge.to !in s.users then Close(s, e.tx)
      else if Held(s, t.edge.to) || Shared(s, t.edge.to) then s
      else if t.edge.to in s.deleted then Close(s, e.tx)
      else To(s, e.tx, Locked(t.edge))
    else if e.Count? && t.Locked? then
      if |Followers(s.follows, t.edge.to)| >= MAX_FOLLOWERS then Close(s, e.tx) else To(s, e.tx, Counted(t.edge))
    else if e.Insert? && t.Counted? then
      if t.edge.from == t.edge.to || t.edge in s.blocks || Reverse(t.edge) in s.blocks then Close(s, e.tx)
      else To(s, e.tx, Inserted(t.edge))
    else s
  }

  function DeleteTxStep(s: State, e: Event): State
    requires e.Purge? || e.PurgeBlocks?
    requires e.tx in s.open
  {
    var t := s.open[e.tx];
    if e.Purge? && t.Deleting? then
      To(s, e.tx, Purged(t.user, set f | f in s.follows && (f.from == t.user || f.to == t.user)))
    else if e.PurgeBlocks? && t.Purged? then
      To(s, e.tx, Unblocked(t.user, t.rows, set f | f in s.blocks && (f.from == t.user || f.to == t.user)))
    else s
  }

  function BlockTxStep(s: State, e: Event): State
    requires e.BlockInsert? || e.Sever?
    requires e.tx in s.open
  {
    var t := s.open[e.tx];
    if e.BlockInsert? && t.Blocking? then
      if t.edge.from == t.edge.to || t.edge in s.blocks then To(s, e.tx, Claimed(t.edge, false))
      else if t.edge.from !in s.users || t.edge.to !in s.users then Close(s, e.tx)
      else if HeldForUpdate(s, t.edge.from) || HeldForUpdate(s, t.edge.to) then s
      else To(s, e.tx, Claimed(t.edge, true))
    else if e.Sever? && t.Claimed? then
      To(s, e.tx, Severed(t.edge, t.added, set f | f in s.follows && (f == t.edge || f == Reverse(t.edge))))
    else s
  }

  function CommitStep(s: State, tx: Id): State
    requires tx in s.open
  {
    var t := s.open[tx];
    if t.Inserted? then Close(s.(follows := s.follows + {t.edge}), tx)
    else if t.Unblocked? then
      Close(s.(follows := s.follows - t.rows, blocks := s.blocks - t.blocks, deleted := s.deleted + {t.user}), tx)
    else if t.Severed? then
      Close(s.(follows := s.follows - t.rows, blocks := if t.added then s.blocks + {t.edge} else s.blocks), tx)
    else s
  }

  /** A step that is not enabled changes nothing. */
  function Apply(s: State, e: Event): State {
    match e
    case Begin(tx, edge) => if tx in s.open then s else To(s, tx, Following(edge))
    case BlockBegin(tx, edge) => if tx in s.open then s else To(s, tx, Blocking(edge))
    case DeleteBegin(tx, u) =>
      if tx in s.open || u !in s.users || u in s.deleted || Held(s, u) then s else To(s, tx, Deleting(u))
    case Lock(tx) => if tx in s.open then FollowTxStep(s, e) else s
    case Count(tx) => if tx in s.open then FollowTxStep(s, e) else s
    case Insert(tx) => if tx in s.open then FollowTxStep(s, e) else s
    case Purge(tx) => if tx in s.open then DeleteTxStep(s, e) else s
    case PurgeBlocks(tx) => if tx in s.open then DeleteTxStep(s, e) else s
    case BlockInsert(tx) => if tx in s.open then BlockTxStep(s, e) else s
    case Sever(tx) => if tx in s.open then BlockTxStep(s, e) else s
    case Commit(tx) => if tx in s.open then CommitStep(s, tx) else s
    case Rollback(tx) => Close(s, tx)
    case Unfollow(edge) => s.(follows := s.follows - {edge})
    case Unblock(edge) => s.(blocks := s.blocks - {edge})
  }

  function Run(s: State, es: seq<Event>): State
    decreases |es|
  {
    if es == [] then s else Run(Apply(s, es[0]), es[1..])
  }

  ghost predicate Start(s: State) { s.follows == {} && s.deleted == {} && s.open == map[] && NoSelf(s.blocks) }

  // ---------- The invariant ----------

  ghost predicate Compatible(t: Tx, r: Tx) {
    && (Holds(t).Some? ==> Holds(t) != Holds(r))
    && (ForUpdate(t).Some? ==> ForUpdate(t).value !in Shares(r))
  }

  /** No two open transactions hold conflicting locks. */
  ghost predicate LocksOk(s: State) {
    forall x, y {:trigger s.open[x], s.open[y]} :: x in s.open && y in s.open && x != y
        ==> Compatible(s.open[x], s.open[y])
  }

  ghost predicate Apart(blocks: set<Edge>, e: Edge) { e !in blocks && Reverse(e) !in blocks }

  ghost predicate TxOk(s: State, t: Tx) {
    && (Holds(t).Some? ==> Holds(t).value !in s.deleted)
    && (t.Counted? || t.Inserted? ==> |Followers(s.follows, t.edge.to)| < MAX_FOLLOWERS)
    && (t.Inserted? ==> t.edge.from != t.edge.to && Apart(s.blocks, t.edge))
    && (t.Purged? || t.Unblocked? ==> Followers(s.follows, t.user) <= t.rows)
    && ((t.Claimed? || t.Severed?) && t.added ==> t.edge.from != t.edge.to)
    && (t.Severed? && t.added ==>
          && (t.edge in s.follows ==> t.edge in t.rows)
          && (Reverse(t.edge) in s.follows ==> Reverse(t.edge) in t.rows))
  }

  ghost predicate TxsOk(s: State) { forall x {:trigger s.open[x]} :: x in s.open ==> TxOk(s, s.open[x]) }

  ghost predicate RowsOk(s: State) {
    && WithinLimit(s.follows) && NoSelf(s.follows) && NoSelf(s.blocks)
    && (forall e :: e in s.follows ==> Apart(s.blocks, e) && e.to !in s.deleted)
  }

  ghost predicate Inv(s: State) { LocksOk(s) && TxsOk(s) && RowsOk(s) }

  // ---------- Steps that write nothing ----------

  /** A transaction that moves on keeps the locks compatible when it took no new lock or a free one. */
  lemma MoveKeepsLocks(s: State, tx: Id, t: Tx)
    requires LocksOk(s)
    requires forall y :: y in s.open && y != tx ==> Compatible(t, s.open[y]) && Compatible(s.open[y], t)
    ensures LocksOk(To(s, tx, t))
  {}

  lemma FreeRowIsCompatible(s: State, tx: Id, t: Tx, y: Id)
    requires y in s.open && y != tx && LocksOk(s)
    requires tx in s.open ==>
               && (Holds(t) == Holds(s.open[tx]) || (Holds(t).Some? && !Held(s, Holds(t).value)))
               && (ForUpdate(t) == ForUpdate(s.open[tx]) || (ForUpdate(t).Some? && !Shared(s, ForUpdate(t).value)))
               && (Shares(t) == Shares(s.open[tx]) || forall u :: u in Shares(t) ==> !HeldForUpdate(s, u))
    requires tx !in s.open ==> Shares(t) == {} && ForUpdate(t) == None && (Holds(t).Some? ==> !Held(s, Holds(t).value))
    ensures Compatible(t, s.open[y]) && Compatible(s.open[y], t)
  {
    var r := s.open[y];
    if tx in s.open { assert Compatible(s.open[tx], r) && Compatible(r, s.open[tx]); }
    if Holds(r).Some? { assert Held(s, Holds(r).value); }
    if ForUpdate(r).Some? { assert HeldForUpdate(s, ForUpdate(r).value); }
  }

  ghost predicate Quiet(e: Event) { !e.Commit? && !e.Unfollow? && !e.Unblock? }

  lemma QuietShape(s: State, e: Event)
    requires Quiet(e)
    ensures var s' := Apply(s, e);
            && s'.follows == s.follows && s'.blocks == s.blocks && s'.deleted == s.deleted
            && (s' == s || s' == Close(s, e.tx) || (e.tx in s'.open && s' == To(s, e.tx, s'.open[e.tx])))
  {}

  lemma QuietTakesFreeLocks(s: State, e: Event, y: Id)
    requires Quiet(e) && LocksOk(s) && y in s.open && e.tx in Apply(s, e).open && y != e.tx
    ensures var t := Apply(s, e).open[e.tx]; Compatible(t, s.open[y]) && Compatible(s.open[y], t)
  {
    FreeRowIsCompatible(s, e.tx, Apply(s, e).open[e.tx], y);
  }

  lemma QuietKeepsTx(s: State, e: Event)
    requires Quiet(e) && TxsOk(s) && e.tx in Apply(s, e).open
    ensures TxOk(Apply(s, e), Apply(s, e).open[e.tx])
  {
    if e.tx in s.open { assert TxOk(s, s.open[e.tx]); }
  }

  lemma QuietKeepsInv(s: State, e: Event)
    requires Quiet(e) && Inv(s)
    ensures Inv(Apply(s, e))
  {
    var s' := Apply(s, e);
    QuietShape(s, e);
    if s' != s && s' != Close(s, e.tx) {
      forall y | y in s.open && y != e.tx
        ensures Compatible(s'.open[e.tx], s.open[y]) && Compatible(s.open[y], s'.open[e.tx])
      {
        QuietTakesFreeLocks(s, e, y);
      }
      MoveKeepsLocks(s, e.tx, s'.open[e.tx]);
      QuietKeepsTx(s, e);
    }
    forall x | x in s'.open ensures TxOk(s', s'.open[x]) {
      if x in s.open { assert TxOk(s, s.open[x]); }
    }
  }

  // ---------- Steps that change committed rows ----------

  /**
   A committed follow leaves the others alone: nobody else holds the followee, and no block of the
   pair is under way.
   */
  lemma FollowFramed(s: State, t: Tx, r: Tx)
    requires t.Inserted? && Compatible(t, r) && Compatible(r, t) && TxOk(s, r)
    ensures TxOk(s.(follows := s.follows + {t.edge}), r)
  {
    if Holds(r).Some? {
      assert Followers(s.follows + {t.edge}, Holds(r).value) == Followers(s.follows, Holds(r).value);
    }
  }

  lemma FewerFollowsFramed(s: State, fewer: set<Edge>, r: Tx)
    requires TxOk(s, r) && fewer <= s.follows
    ensures TxOk(s.(follows := fewer), r)
  {
    if Holds(r).Some? {
      SubsetIsSmaller(Followers(fewer, Holds(r).value), Followers(s.follows, Holds(r).value));
    }
  }

  /** A committed block meets no follow of the pair on its way. */
  lemma BlockFramed(s: State, t: Tx, r: Tx)
    requires t.Severed? && t.added && Compatible(r, t) && TxOk(s, r)
    ensures TxOk(s.(blocks := s.blocks + {t.edge}), r)
  {}

  lemma FewerBlocksFramed(s: State, fewer: set<Edge>, r: Tx)
    requires TxOk(s, r) && fewer <= s.blocks
    ensures TxOk(s.(blocks := fewer), r)
  {}

  lemma DeletionFramed(s: State, t: Tx, r: Tx)
    requires t.Unblocked? && Compatible(t, r) && TxOk(s, r)
    ensures TxOk(s.(deleted := s.deleted + {t.user}), r)
  {}

  lemma FollowKeepsRows(s: State, t: Tx)
    requires RowsOk(s) && TxOk(s, t) && t.Inserted?
    ensures RowsOk(s.(follows := s.follows + {t.edge}))
  {
    OneMoreFollower(s.follows, t.edge);
  }

  lemma BlockKeepsRows(s: State, t: Tx)
    requires RowsOk(s) && TxOk(s, t) && t.Severed?
    ensures RowsOk(s.(follows := s.follows - t.rows, blocks := if t.added then s.blocks + {t.edge} else s.blocks))
  {
    FewerRowsStayWithin(s.follows, s.follows - t.rows);
  }

  lemma DeletionKeepsRows(s: State, t: Tx)
    requires RowsOk(s) && TxOk(s, t) && t.Unblocked?
    ensures RowsOk(s.(follows := s.follows - t.rows, blocks := s.blocks - t.blocks, deleted := s.deleted + {t.user}))
  {
    var left, u := s.follows - t.rows, t.user;
    FewerRowsStayWithin(s.follows, left);
    assert forall e :: e in left && e.to == u ==> e in Followers(s.follows, u);
  }

  lemma CommitKeepsTx(s: State, tx: Id, y: Id)
    requires LocksOk(s) && TxsOk(s) && tx in s.open && y in s.open && tx != y
    ensures TxOk(CommitStep(s, tx), s.open[y])
  {
    var t, r := s.open[tx], s.open[y];
    assert Compatible(t, r) && Compatible(r, t) && TxOk(s, r);
    if t.Inserted? {
      FollowFramed(s, t, r);
    } else if t.Unblocked? {
      var s1 := s.(follows := s.follows - t.rows);
      FewerFollowsFramed(s, s1.follows, r);
      var s2 := s1.(blocks := s.blocks - t.blocks);
      FewerBlocksFramed(s1, s2.blocks, r);
      DeletionFramed(s2, t, r);
    } else if t.Severed? {
      var s1 := s.(follows := s.follows - t.rows);
      FewerFollowsFramed(s, s1.follows, r);
      if t.added { BlockFramed(s1, t, r); }
    }
  }

  lemma CommitKeepsInv(s: State, tx: Id)
    requires Inv(s) && tx in s.open
    ensures Inv(CommitStep(s, tx))
  {
    var s', t := CommitStep(s, tx), s.open[tx];
    assert TxOk(s, t);
    if t.Inserted? { FollowKeepsRows(s, t); }
    if t.Severed? { BlockKeepsRows(s, t); }
    if t.Unblocked? { DeletionKeepsRows(s, t); }
    forall y | y in s'.open ensures TxOk(s', s'.open[y]) {
      if y != tx { CommitKeepsTx(s, tx, y); }
    }
  }

  lemma ApplyKeepsInv(s: State, e: Event)
    requires Inv(s)
    ensures Inv(Apply(s, e))
  {
    var s' := Apply(s, e);
    if e.Commit? {
      if e.tx in s.open { CommitKeepsInv(s, e.tx); }
    } else if e.Unfollow? {
      FewerRowsStayWithin(s.follows, s'.follows);
      forall y | y in s'.open ensures TxOk(s', s'.open[y]) { FewerFollowsFramed(s, s'.follows, s.open[y]); }
    } else if e.Unblock? {
      forall y | y in s'.open ensures TxOk(s', s'.open[y]) { FewerBlocksFramed(s, s'.blocks, s.open[y]); }
    } else {
      QuietKeepsInv(s, e);
    }
  }

  lemma {:induction false} RunKeepsInv(s: State, es: seq<Event>)
    requires Inv(s)
    ensures Inv(Run(s, es))
    decreases |es|
  {
    if es != [] {
      ApplyKeepsInv(s, es[0]);
      RunKeepsInv(Apply(s, es[0]), es[1..]);
    }
  }

  lemma StartIsOk(s: State)
    requires Start(s)
    ensures Inv(s)
  {
    forall v ensures |Followers(s.follows, v)| <= MAX_FOLLOWERS { assert Followers(s.follows, v) == {}; }
  }

  // ---------- What every interleaving promises ----------

  /** No user has more than 5000 followers, and nobody follows a deleted account. */
  lemma FollowerLimitHolds(s: State, es: seq<Event>, u: Id)
    requires Start(s)
    ensures |Followers(Run(s, es).follows, u)| <= 5000
    ensures u in Run(s, es).deleted ==> Followers(Run(s, es).follows, u) == {}
  {
    StartIsOk(s);
    RunKeepsInv(s, es);
  }

  /** A committed block excludes follows both ways, however follows and blocks of the pair overlap. */
  lemma BlockExcludesFollows(s: State, es: seq<Event>, a: Id, b: Id)
    requires Start(s)
    ensures var t := Run(s, es);
            && (Edge(a, b) in t.blocks ==> Edge(a, b) !in t.follows && Edge(b, a) !in t.follows)
            && Edge(a, a) !in t.follows && Edge(a, a) !in t.blocks
  {
    StartIsOk(s);
    RunKeepsInv(s, es);
    var t := Run(s, es);
    assert Edge(a, b) in t.follows ==> Apart(t.blocks, Edge(a, b));
    assert Edge(b, a) in t.follows ==> Apart(t.blocks, Edge(b, a));
  }

  function GraphOf(s: State): Graph { Graph(s.users, s.deleted, s.follows, s.blocks) }

  /** So in every interleaving, not only in serialised runs, the same people see the same posts and stories. */
  lemma FeedsStaySound(s: State, es: seq<Event>, p: Post, y: Story, viewer: Id, now: int)
    requires Start(s)
    ensures var g := GraphOf(Run(s, es));
            && (InHomeFeed(g, p, viewer) <==>
                  CanView(g, p, viewer) && (p.owner == viewer || Edge(viewer, p.owner) in g.follows))
            && (InStoriesFeed(g, y, viewer, now) <==>
                  CanGetStory(g, y, viewer, now) && Edge(viewer, y.owner) in g.follows)
            && (p.visibility == FollowersOnly ==> (CanView(g, p, viewer) <==> InHomeFeed(g, p, viewer)))
            && (p.visibility == PublicPost ==>
                  (CanView(g, p, viewer) <==>
                    && p.owner in g.users && p.owner !in g.deleted
                    && Edge(p.owner, viewer) !in g.blocks && Edge(viewer, p.owner) !in g.blocks))
            && (y.visibility != PublicStory && y.owner != viewer ==>
                  (CanGetStory(g, y, viewer, now) <==>
                    InStoriesFeed(g, y, viewer, now) && Edge(y.owner, viewer) in g.follows))
  {
    StartIsOk(s);
    RunKeepsInv(s, es);
    GraphIsSound(Run(s, es));
    VisibilityMeans(GraphOf(Run(s, es)), p, y, viewer, now);
  }

  lemma GraphIsSound(s: State)
    requires Inv(s)
    ensures SocialGraph.Inv(GraphOf(s))
  {
    forall e | e in s.follows ensures !BlockedEitherWay(GraphOf(s), e.from, e.to) {
      assert Apart(s.blocks, e) && e == Edge(e.from, e.to);
    }
  }

  // ---------- A transaction on its own ----------

  lemma RunTwo(s: State, a: Event, b: Event)
    ensures Run(s, [a, b]) == Apply(Apply(s, a), b)
  {
    assert [a, b][1..] == [b] && [b][1..] == [];
    assert Run(Apply(s, a), [b]) == Run(Apply(Apply(s, a), b), []);
  }

  lemma RunFour(s: State, a: Event, b: Event, c: Event, d: Event)
    ensures Run(s, [a, b, c, d]) == Apply(Apply(Apply(Apply(s, a), b), c), d)
  {
    assert [a, b, c, d][1..] == [b, c, d] && [b, c, d][1..] == [c, d];
    assert Run(s, [a, b, c, d]) == Run(Apply(s, a), [b, c, d]);
    assert Run(Apply(s, a), [b, c, d]) == Run(Apply(Apply(s, a), b), [c, d]);
    RunTwo(Apply(Apply(s, a), b), c, d);
  }

  lemma RunFive(s: State, a: Event, b: Event, c: Event, d: Event, e: Event)
    ensures Run(s, [a, b, c, d, e]) == Apply(Apply(Apply(Apply(Apply(s, a), b), c), d), e)
  {
    assert [a, b, c, d, e][1..] == [b, c, d, e];
    assert Run(s, [a, b, c, d, e]) == Run(Apply(s, a), [b, c, d, e]);
    RunFour(Apply(s, a), b, c, d, e);
  }

  /** With nothing else open, the statements of follow take exactly the serialised step. */
  lemma FollowAlone(s: State, x: Id, edge: Edge)
    requires s.open == map[]
    ensures GraphOf(Run(s, [Begin(x, edge), Lock(x), Count(x), Insert(x), Commit(x)]))
         == FollowStep(GraphOf(s), edge.from, edge.to).0
  {
    RunFive(s, Begin(x, edge), Lock(x), Count(x), Insert(x), Commit(x));
    var s1 := Apply(s, Begin(x, edge));
    assert s1.open == map[x := Following(edge)];
    var s2 := Apply(s1, Lock(x));
    if Live(GraphOf(s), edge.to) {
      assert s2.open == map[x := Locked(edge)];
    } else {
      assert s2.open == map[];
    }
    assert Edge(edge.from, edge.to) == edge;
    assert edge in s.follows ==> s.follows + {edge} == s.follows;
  }

  /** And so do those of block; when one of the two does not exist, the foreign key undoes them. */
  lemma BlockAlone(s: State, x: Id, edge: Edge)
    requires s.open == map[]
    ensures var t := Run(s, [BlockBegin(x, edge), BlockInsert(x), Sever(x), Commit(x)]);
            GraphOf(t) == if edge.from != edge.to && edge !in s.blocks && !({edge.from, edge.to} <= s.users)
                          then GraphOf(s) else BlockStep(GraphOf(s), edge.from, edge.to)
  {
    RunFour(s, BlockBegin(x, edge), BlockInsert(x), Sever(x), Commit(x));
    if edge.from != edge.to && edge !in s.blocks && !({edge.from, edge.to} <= s.users) {
      var s1 := Apply(s, BlockBegin(x, edge));
      assert s1.open == map[x := Blocking(edge)];
      assert Apply(s1, BlockInsert(x)).open == map[];
    } else {
      BlockOfTwo(s, x, edge);
    }
  }

  lemma BlockOfTwo(s: State, x: Id, edge: Edge)
    requires s.open == map[] && (edge.from == edge.to || edge in s.blocks || {edge.from, edge.to} <= s.users)
    ensures GraphOf(Apply(Apply(Apply(Apply(s, BlockBegin(x, edge)), BlockInsert(x)), Sever(x)), Commit(x)))
         == BlockStep(GraphOf(s), edge.from, edge.to)
  {
    var s1 := Apply(s, BlockBegin(x, edge));
    assert s1.open == map[x := Blocking(edge)];
    var s2 := Apply(s1, BlockInsert(x));
    assert s2.open[x] == Claimed(edge, edge.from != edge.to && edge !in s.blocks);
    var s3 := Apply(s2, Sever(x));
    var both := set f | f in s.follows && (f == edge || f == Reverse(edge));
    assert s3.open[x] == Severed(edge, edge.from != edge.to && edge !in s.blocks, both);
    assert s.follows - both == s.follows - {Edge(edge.from, edge.to), Edge(edge.to, edge.from)};
    assert edge in s.blocks ==> s.blocks + {edge} == s.blocks;
  }

  /** And those of delete_account. */
  lemma DeleteAlone(s: State, x: Id, u: Id)
    requires s.open == map[]
    ensures GraphOf(Run(s, [DeleteBegin(x, u), Purge(x), PurgeBlocks(x), Commit(x)])) == DeleteStep(GraphOf(s), u)
  {
    RunFour(s, DeleteBegin(x, u), Purge(x), PurgeBlocks(x), Commit(x));
    var s1 := Apply(s, DeleteBegin(x, u));
    if Live(GraphOf(s), u) {
      assert s1.open == map[x := Deleting(u)];
      var rows := set f | f in s.follows && (f.from == u || f.to == u);
      var blocks := set f | f in s.blocks && (f.from == u || f.to == u);
      var s3 := Apply(Apply(s1, Purge(x)), PurgeBlocks(x));
      assert s3.open[x] == Unblocked(u, rows, blocks);
      assert s.follows - rows == Without(s.follows, u) && s.blocks - blocks == Without(s.blocks, u);
    } else {
      assert s1 == s;
    }
  }
}
