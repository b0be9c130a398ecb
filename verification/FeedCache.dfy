/**
 The first page of a home feed in Redis. A page is read from the database and written to the
 cache in two separate steps; creating a post inserts the row, lists the followers and then
 deletes their keys one by one. Database changes, clock ticks, reads, fills and deletions
 interleave freely.
 */
module FeedCache {
  import opened Common
  import opened Pagination
  import opened SocialGraph

  const TTL := 30

  /** The posts are listed in the order of the query, newest first. */
  datatype Db = Db(graph: Graph, posts: seq<Post>)

  /** The uncached first page. */
  function Query(db: Db, viewer: Id, limit: nat): Page { PageOf(HomeFeed(db.graph, db.posts, viewer), None, limit) }

  /** A committed database state and when it was committed. */
  datatype Version = Version(db: Db, at: nat)

  /** A page with the limit, database version and time it was read with. */
  datatype Read = Read(viewer: Id, limit: nat, page: Page, version: nat, at: nat)

  datatype Entry = Entry(read: Read, writtenAt: nat)

  /**
   A create_post call and the version its row was committed in; `clean` holds the users whose
   key was deleted while no older fill of theirs was open.
   */
  datatype Publish =
    | Committed(post: Post, version: nat)
    | Clearing(post: Post, version: nat, listed: seq<Id>, next: nat, clean: set<Id>)
    | Returned(post: Post, version: nat, listed: seq<Id>, clean: set<Id>)

  datatype State = State(
    log: seq<Version>, now: nat, cache: map<Id, Entry>, fills: map<Id, Read>, calls: map<Id, Publish>)

  datatype Event =
    | Tick(seconds: nat)
    | Change(db: Db)                                // any other committed database change
    | OpenFill(fill: Id, viewer: Id, limit: nat)    // a miss: the query has run
    | CloseFill(fill: Id, stored: bool)             // SETEX, or a failure to write
    | AtomicFill(viewer: Id, limit: nat)
    | Invalidate(user: Id, deleted: bool)           // DEL, or a failure to delete
    | Insert(call: Id, post: Post, place: nat)      // create_post commits its row
    | ListFollowers(call: Id, ids: seq<Id>, ok: bool)
    | ClearNext(call: Id, deleted: bool)
    | ClearAuthor(call: Id, deleted: bool)

  predicate Wf(s: State) { s.log != [] }

  function Last(s: State): nat
    requires Wf(s)
  {
    |s.log| - 1
  }

  function Current(s: State): Db
    requires Wf(s)
  {
    s.log[Last(s)].db
  }

  function ReadNow(s: State, viewer: Id, limit: nat): Read
    requires Wf(s)
  {
    Read(viewer, limit, Query(Current(s), viewer, limit), Last(s), s.now)
  }

  /** SELECT follower_id FROM follows WHERE followee_id = author. */
  ghost predicate Lists(db: Db, author: Id, ids: seq<Id>) {
    forall u :: u in ids <==> Edge(u, author) in db.graph.follows
  }

  function Placed(db: Db, p: Post, place: nat): Db
    requires place <= |db.posts|
  {
    db.(posts := db.posts[..place] + [p] + db.posts[place..])
  }

  /** Redis still has the key. */
  predicate Fresh(s: State, user: Id) { user in s.cache && s.now < s.cache[user].writtenAt + TTL }

  ghost predicate OlderFillOpen(s: State, user: Id, v: nat) {
    exists f :: f in s.fills && s.fills[f].viewer == user && s.fills[f].version < v
  }

  function Del(s: State, user: Id, deleted: bool): State { if deleted then s.(cache := s.cache - {user}) else s }

  ghost function Cleared(s: State, user: Id, v: nat, deleted: bool): set<Id> {
    if deleted && !OlderFillOpen(s, user, v) then {user} else {}
  }

  function Committing(s: State, db: Db): State { s.(log := s.log + [Version(db, s.now)]) }

  ghost function CallStep(s: State, e: Event): State
    requires Wf(s) && (e.ListFollowers? || e.ClearNext? || e.ClearAuthor?)
    requires e.call in s.calls
  {
    var c, p := e.call, s.calls[e.call];
    if e.ListFollowers? && p.Committed? then
      if !e.ok then s.(calls := s.calls[c := Returned(p.post, p.version, [], {})])
      else if Lists(Current(s), p.post.owner, e.ids) then
        s.(calls := s.calls[c := Clearing(p.post, p.version, e.ids, 0, {})])
      else s
    else if e.ClearNext? && p.Clearing? && p.next < |p.listed| then
      var user := p.listed[p.next];
      var q := p.(next := p.next + 1, clean := p.clean + Cleared(s, user, p.version, e.deleted));
      Del(s, user, e.deleted).(calls := s.calls[c := q])
    else if e.ClearAuthor? && p.Clearing? && p.next >= |p.listed| then
      var user := p.post.owner;
      var q := Returned(p.post, p.version, p.listed, p.clean + Cleared(s, user, p.version, e.deleted));
      Del(s, user, e.deleted).(calls := s.calls[c := q])
    else s
  }

  ghost function Apply(s: State, e: Event): State
    requires Wf(s)
  {
    match e
    case Tick(dt) => s.(now := s.now + dt)
    case Change(db) => if Ordered(db.posts) then Committing(s, db) else s
    case OpenFill(f, u, n) => if f in s.fills then s else s.(fills := s.fills[f := ReadNow(s, u, n)])
    case CloseFill(f, stored) =>
      if f !in s.fills then s
      else if stored then s.(cache := s.cache[s.fills[f].viewer := Entry(s.fills[f], s.now)], fills := s.fills - {f})
      else s.(fills := s.fills - {f})
    case AtomicFill(u, n) => s.(cache := s.cache[u := Entry(ReadNow(s, u, n), s.now)])
    case Invalidate(u, deleted) => Del(s, u, deleted)
    case Insert(c, p, k) =>
      if c in s.calls || k > |Current(s).posts| || !Ordered(Placed(Current(s), p, k).posts) then s
      else Committing(s, Placed(Current(s), p, k)).(calls := s.calls[c := Committed(p, |s.log|)])
    case ListFollowers(c, _, _) => if c in s.calls then CallStep(s, e) else s
    case ClearNext(c, _) => if c in s.calls then CallStep(s, e) else s
    case ClearAuthor(c, _) => if c in s.calls then CallStep(s, e) else s
  }

  lemma ApplyWf(s: State, e: Event)
    requires Wf(s)
    ensures Wf(Apply(s, e)) && s.log <= Apply(s, e).log && s.now <= Apply(s, e).now
  {}

  ghost function Run(s: State, es: seq<Event>): (t: State)
    requires Wf(s)
    ensures Wf(t) && s.log <= t.log && s.now <= t.now
    decreases |es|
  {
    if es == [] then s else ApplyWf(s, es[0]); Run(Apply(s, es[0]), es[1..])
  }

  ghost predicate Start(s: State) {
    && |s.log| == 1 && s.log[0].at <= s.now && Ordered(s.log[0].db.posts)
    && s.cache == map[] && s.fills == map[] && s.calls == map[]
  }

  // ---------- What a cached page is ----------

  /** Version `v` was the newest one at time `t`. */
  ghost predicate CurrentAt(log: seq<Version>, v: nat, t: nat) {
    v < |log| && log[v].at <= t && (v + 1 < |log| ==> t <= log[v + 1].at)
  }

  ghost predicate ReadOk(s: State, user: Id, r: Read) {
    && r.viewer == user && r.at <= s.now
    && CurrentAt(s.log, r.version, r.at)
    && r.page == Query(s.log[r.version].db, user, r.limit)
  }

  ghost predicate EntryOk(s: State, user: Id)
    requires user in s.cache
  {
    ReadOk(s, user, s.cache[user].read) && s.cache[user].read.at <= s.cache[user].writtenAt <= s.now
  }

  ghost predicate LogOk(s: State) {
    forall i :: 0 <= i < |s.log| ==> s.log[i].at <= s.now && Ordered(s.log[i].db.posts)
  }

  ghost predicate ReadsOk(s: State) {
    && LogOk(s)
    && (forall u {:trigger EntryOk(s, u)} :: u in s.cache ==> EntryOk(s, u))
    && (forall f {:trigger s.fills[f]} :: f in s.fills ==> ReadOk(s, s.fills[f].viewer, s.fills[f]))
  }

  lemma ReadStaysOk(s: State, e: Event, user: Id, r: Read)
    requires Wf(s) && ReadOk(s, user, r)
    ensures ReadOk(Apply(s, e), user, r)
  {
    ApplyWf(s, e);
    assert Apply(s, e).log[r.version] == s.log[r.version];
  }

  lemma EntryStaysOk(s: State, e: Event, user: Id)
    requires Wf(s) && ReadsOk(s) && user in Apply(s, e).cache
    ensures EntryOk(Apply(s, e), user)
  {
    ApplyWf(s, e);
    if user in s.cache && Apply(s, e).cache[user] == s.cache[user] {
      assert EntryOk(s, user);
      ReadStaysOk(s, e, user, s.cache[user].read);
    } else if e.CloseFill? {
      ReadStaysOk(s, e, user, s.fills[e.fill]);
    }
  }

  lemma FillStaysOk(s: State, e: Event, f: Id)
    requires Wf(s) && (f in s.fills ==> ReadOk(s, s.fills[f].viewer, s.fills[f])) && s.log[Last(s)].at <= s.now
    requires f in Apply(s, e).fills
    ensures ReadOk(Apply(s, e), Apply(s, e).fills[f].viewer, Apply(s, e).fills[f])
  {
    if f in s.fills { ReadStaysOk(s, e, s.fills[f].viewer, s.fills[f]); }
  }

  lemma LogStaysOk(s: State, e: Event)
    requires Wf(s) && LogOk(s)
    ensures LogOk(Apply(s, e))
  {
    assert |Apply(s, e).log| > |s.log| ==> Ordered(Current(Apply(s, e)).posts);
  }

  lemma ApplyKeepsReads(s: State, e: Event)
    requires Wf(s) && ReadsOk(s)
    ensures ReadsOk(Apply(s, e))
  {
    var s' := Apply(s, e);
    forall u | u in s'.cache ensures EntryOk(s', u) { EntryStaysOk(s, e, u); }
    forall f | f in s'.fills ensures ReadOk(s', s'.fills[f].viewer, s'.fills[f]) { FillStaysOk(s, e, f); }
    LogStaysOk(s, e);
  }

  lemma {:induction false} RunKeepsReads(s: State, es: seq<Event>)
    requires Wf(s) && ReadsOk(s)
    ensures ReadsOk(Run(s, es))
    decreases |es|
  {
    if es != [] {
      ApplyWf(s, es[0]);
      ApplyKeepsReads(s, es[0]);
      RunKeepsReads(Apply(s, es[0]), es[1..]);
    }
  }

  // ---------- How old a served page is ----------

  /** Every fill the run stores is written at most `d` seconds after its query ran. */
  ghost predicate FillsWithin(s: State, es: seq<Event>, d: nat)
    requires Wf(s)
    decreases |es|
  {
    es == [] ||
    (&& (es[0].CloseFill? && es[0].stored && es[0].fill in s.fills ==> s.now <= s.fills[es[0].fill].at + d)
     && (ApplyWf(s, es[0]); FillsWithin(Apply(s, es[0]), es[1..], d)))
  }

  ghost predicate Prompt(s: State, d: nat) {
    forall u :: u in s.cache ==> s.cache[u].writtenAt <= s.cache[u].read.at + d
  }

  lemma {:induction false} RunKeepsPrompt(s: State, es: seq<Event>, d: nat)
    requires Wf(s) && Prompt(s, d) && FillsWithin(s, es, d)
    ensures Prompt(Run(s, es), d)
    decreases |es|
  {
    if es != [] {
      ApplyWf(s, es[0]);
      RunKeepsPrompt(Apply(s, es[0]), es[1..], d);
    }
  }

  /** No two-step fills in the run. */
  ghost predicate OnlyAtomicFills(es: seq<Event>) { forall i :: 0 <= i < |es| ==> !es[i].OpenFill? }

  lemma {:induction false} AtomicFillsTakeNoTime(s: State, es: seq<Event>)
    requires Wf(s) && s.fills == map[] && OnlyAtomicFills(es)
    ensures FillsWithin(s, es, 0) && Run(s, es).fills == map[]
    decreases |es|
  {
    if es != [] {
      ApplyWf(s, es[0]);
      AtomicFillsTakeNoTime(Apply(s, es[0]), es[1..]);
    }
  }

  /** The page a first-page request returns: a fresh entry whatever its limit, or the query. */
  function Served(s: State, user: Id, limit: nat): Read
    requires Wf(s)
  {
    if Fresh(s, user) then s.cache[user].read else ReadNow(s, user, limit)
  }

  /**
   In every run, whatever fails, a served page is the query's page, for the limit it was filled
   with, on a version then current.
   */
  lemma ServedPageIsAQuery(s: State, es: seq<Event>, user: Id, limit: nat)
    requires Start(s)
    ensures var t := Run(s, es);
            var r := Served(t, user, limit);
            && CurrentAt(t.log, r.version, r.at) && r.at <= t.now
            && r.page == Query(t.log[r.version].db, user, r.limit)
            && Ordered(t.log[r.version].db.posts)
            && (!Fresh(t, user) ==> r.limit == limit && r.version == Last(t))
  {
    RunKeepsReads(s, es);
    var t := Run(s, es);
    if user in t.cache { assert EntryOk(t, user); }
    assert t.log[Last(t)].at <= t.now;
  }

  /** And it was read less than 30 seconds plus the slowest stored fill ago; with atomic fills, less than 30 seconds. */
  lemma ServedPageIsRecent(s: State, es: seq<Event>, user: Id, limit: nat, d: nat)
    requires Start(s) && FillsWithin(s, es, d)
    ensures var t := Run(s, es); t.now - Served(t, user, limit).at < 30 + d
    ensures var t := Run(s, es); OnlyAtomicFills(es) ==> t.now - Served(t, user, limit).at < 30
  {
    RunKeepsPrompt(s, es, d);
    if OnlyAtomicFills(es) {
      AtomicFillsTakeNoTime(s, es);
      RunKeepsPrompt(s, es, 0);
    }
  }

  /** Time, other database changes and queries: nothing that writes or deletes a key. */
  ghost predicate LeavesCache(es: seq<Event>) {
    forall i :: 0 <= i < |es| ==> es[i].Tick? || es[i].Change? || es[i].OpenFill? || es[i].Insert?
  }

  lemma {:induction false} CacheIsLeft(s: State, es: seq<Event>)
    requires Wf(s) && LeavesCache(es)
    ensures Run(s, es).cache == s.cache
    decreases |es|
  {
    if es != [] {
      ApplyWf(s, es[0]);
      CacheIsLeft(Apply(s, es[0]), es[1..]);
    }
  }

  /**
   A stored page is served, whatever the limit asked for and whatever the database does, for exactly 30
   seconds unless its key is written or deleted; then the query answers again.
   */
  lemma StoredPageIsServedFor30(s: State, es: seq<Event>, user: Id, n: nat, limit: nat)
    requires Wf(s) && LeavesCache(es)
    ensures var t := Run(Apply(s, AtomicFill(user, n)), es);
            if t.now < s.now + 30 then
              && Served(t, user, limit).page == Query(Current(s), user, n)
              && Served(t, user, limit).at == s.now
            else
              && Served(t, user, limit).page == Query(Current(t), user, limit)
              && Served(t, user, limit).at == t.now
  {
    CacheIsLeft(Apply(s, AtomicFill(user, n)), es);
  }

  /** The key omits the limit: pages for two limits agree exactly when they are equal or the whole feed fits both. */
  lemma LimitShowsIff(db: Db, viewer: Id, n: nat, m: nat)
    ensures Query(db, viewer, n) == Query(db, viewer, m)
            <==> n == m || (|HomeFeed(db.graph, db.posts, viewer)| <= n && |HomeFeed(db.graph, db.posts, viewer)| <= m)
  {
    var rows := HomeFeed(db.graph, db.posts, viewer);
    AfterWholeSuffix(rows, None);
    assert |Query(db, viewer, n).items| == if |rows| <= n then |rows| else n;
    assert |Query(db, viewer, m).items| == if |rows| <= m then |rows| else m;
    assert Query(db, viewer, n).next.Some? <==> |rows| > n;
    assert Query(db, viewer, m).next.Some? <==> |rows| > m;
  }

  // ---------- What a page shows ----------

  lemma PageRowsAreFeedRows(db: Db, viewer: Id, limit: nat, r: Row)
    requires r in Query(db, viewer, limit).items
    ensures r in HomeFeed(db.graph, db.posts, viewer)
  {
    AfterWholeSuffix(HomeFeed(db.graph, db.posts, viewer), None);
  }

  lemma SameRowSamePost(posts: seq<Post>, p: Post, q: Post)
    requires Ordered(posts) && p in posts && q in posts && p.row == q.row
    ensures p == q
  {
    var i :| 0 <= i < |posts| && posts[i] == p;
    var j :| 0 <= j < |posts| && posts[j] == q;
    assert i == j;
  }

  /** A page shows only posts of the viewer's feed: the row of any other post is not on it. */
  lemma PageHides(db: Db, viewer: Id, limit: nat, p: Post)
    requires Ordered(db.posts) && p in db.posts && !InHomeFeed(db.graph, p, viewer)
    ensures p.row !in Query(db, viewer, limit).items
  {
    if p.row in Query(db, viewer, limit).items {
      PageRowsAreFeedRows(db, viewer, limit, p.row);
      HomeFeedRows(db.graph, db.posts, viewer);
      var q :| q in db.posts && q.row == p.row && InHomeFeed(db.graph, q, viewer);
      SameRowSamePost(db.posts, p, q);
    }
  }

  /** `p` is the newest post of the viewer's feed. */
  ghost predicate Newest(db: Db, viewer: Id, p: Post) {
    && p in db.posts && InHomeFeed(db.graph, p, viewer)
    && forall q :: q in db.posts && q != p ==> Before(p.row, q.row)
  }

  lemma SortedFirst(rows: seq<Row>, r: Row)
    requires StrictlySorted(rows) && r in rows && forall x :: x in rows && x != r ==> Before(r, x)
    ensures rows[0] == r
  {
    var k :| 0 <= k < |rows| && rows[k] == r;
    assert rows[0] in rows;
    assert k == 0;
  }

  lemma NewestIsShown(db: Db, viewer: Id, limit: nat, p: Post)
    requires Ordered(db.posts) && Newest(db, viewer, p) && limit >= 1
    ensures p.row in Query(db, viewer, limit).items
  {
    var rows := HomeFeed(db.graph, db.posts, viewer);
    HomeFeedRows(db.graph, db.posts, viewer);
    forall x | x in rows && x != p.row ensures Before(p.row, x) {
      var q :| q in db.posts && q.row == x && InHomeFeed(db.graph, q, viewer);
    }
    SortedFirst(rows, p.row);
    AfterWholeSuffix(rows, None);
    assert Query(db, viewer, limit).items[0] == rows[0];
  }

  // ---------- Invalidation ----------

  /** A request could still be answered from a page older than version `v`. */
  ghost predicate Stale(s: State, user: Id, v: nat) { Fresh(s, user) && s.cache[user].read.version < v }

  /** After the events `es` it could. */
  ghost predicate StaleAfter(s: State, es: seq<Event>, user: Id, v: nat)
    requires Wf(s)
  {
    Stale(Run(s, es), user, v)
  }

  lemma StaleIsServed(s: State, user: Id, limit: nat, v: nat)
    requires Wf(s) && v <= Last(s)
    ensures Stale(s, user, v) <==> Served(s, user, limit).version < v
  {}

  /** No page of `user` older than `v` is served, and none can be written any more. */
  ghost predicate NothingOlder(s: State, user: Id, v: nat) { !Stale(s, user, v) && !OlderFillOpen(s, user, v) }

  lemma ApplyKeepsNothingOlder(s: State, e: Event, user: Id, v: nat)
    requires Wf(s) && v <= Last(s) && NothingOlder(s, user, v)
    ensures NothingOlder(Apply(s, e), user, v)
  {
    var s' := Apply(s, e);
    assert forall f :: f in s'.fills ==> (f in s.fills && s.fills[f] == s'.fills[f]) || s'.fills[f].version >= v;
    if e.CloseFill? && e.fill in s.fills && s.fills[e.fill].viewer == user {
      assert s.fills[e.fill].version >= v;
    }
  }

  lemma {:induction false} NothingOlderIsFinal(s: State, es: seq<Event>, user: Id, v: nat)
    requires Wf(s) && v <= Last(s) && NothingOlder(s, user, v)
    ensures NothingOlder(Run(s, es), user, v)
    decreases |es|
  {
    if es != [] {
      ApplyWf(s, es[0]);
      ApplyKeepsNothingOlder(s, es[0], user, v);
      NothingOlderIsFinal(Apply(s, es[0]), es[1..], user, v);
    }
  }

  /** Otherwise some continuation serves an older page: this state itself, or the one after the open fill is stored. */
  lemma OlderPageComes(s: State, user: Id, v: nat) returns (es: seq<Event>)
    requires Wf(s) && !NothingOlder(s, user, v)
    ensures Stale(Run(s, es), user, v)
  {
    es := [];
    if !Stale(s, user, v) {
      assert OlderFillOpen(s, user, v);
      var f :| f in s.fills && s.fills[f].viewer == user && s.fills[f].version < v;
      es := [CloseFill(f, true)];
      ApplyWf(s, es[0]);
      assert es[1..] == [];
      assert Run(s, es) == Run(Apply(s, es[0]), []) == Apply(s, es[0]);
    }
  }

  /** Every continuation is free of older pages exactly when none is served now and no older fill is open. */
  lemma FreeOfOlderPagesIff(s: State, user: Id, v: nat)
    requires Wf(s) && v <= Last(s)
    ensures (forall es :: !StaleAfter(s, es, user, v)) <==> NothingOlder(s, user, v)
  {
    if NothingOlder(s, user, v) {
      forall es ensures !StaleAfter(s, es, user, v) { NothingOlderIsFinal(s, es, user, v); }
    } else {
      var es := OlderPageComes(s, user, v);
      assert StaleAfter(s, es, user, v);
    }
  }

  /** A successful DEL leaves nothing older than `v` for good exactly when no older fill is open. */
  lemma InvalidationIsFinalIff(s: State, user: Id, v: nat)
    requires Wf(s) && v <= Last(s)
    ensures (forall es :: !StaleAfter(Apply(s, Invalidate(user, true)), es, user, v)) <==> !OlderFillOpen(s, user, v)
  {
    FreeOfOlderPagesIff(Apply(s, Invalidate(user, true)), user, v);
    assert OlderFillOpen(Apply(s, Invalidate(user, true)), user, v) <==> OlderFillOpen(s, user, v);
  }

  // ---------- create_post ----------

  ghost function Clean(p: Publish): set<Id> { if p.Committed? then {} else p.clean }

  ghost predicate CallOk(s: State, c: Id)
    requires Wf(s) && c in s.calls
  {
    && s.calls[c].version <= Last(s)
    && s.calls[c].post in s.log[s.calls[c].version].db.posts
    && (forall u :: u in Clean(s.calls[c]) ==> NothingOlder(s, u, s.calls[c].version))
  }

  lemma DelClears(s: State, c: Id, user: Id, v: nat, p: Publish)
    requires Wf(s) && v <= Last(s) && !OlderFillOpen(s, user, v)
    ensures NothingOlder(Del(s, user, true).(calls := s.calls[c := p]), user, v)
  {
    assert Del(s, user, true).(calls := s.calls[c := p]).fills == s.fills;
  }

  lemma CallStaysOk(s: State, e: Event, c: Id)
    requires Wf(s) && c in s.calls && CallOk(s, c)
    ensures Wf(Apply(s, e)) && c in Apply(s, e).calls && CallOk(Apply(s, e), c)
  {
    ApplyWf(s, e);
    var s' := Apply(s, e);
    var v := s.calls[c].version;
    assert s'.calls[c].version == v && s'.calls[c].post == s.calls[c].post && s'.log[v] == s.log[v];
    forall u | u in Clean(s'.calls[c]) ensures NothingOlder(s', u, v) {
      if u in Clean(s.calls[c]) {
        ApplyKeepsNothingOlder(s, e, u, v);
      } else {
        DelClears(s, c, u, v, s'.calls[c]);
      }
    }
  }

  lemma CallStartsOk(s: State, e: Event, c: Id)
    requires Wf(s) && c !in s.calls && c in Apply(s, e).calls
    ensures Wf(Apply(s, e)) && CallOk(Apply(s, e), c)
  {
    ApplyWf(s, e);
  }

  lemma {:induction false} RunKeepsCall(s: State, es: seq<Event>, c: Id)
    requires Wf(s) && (c in s.calls ==> CallOk(s, c))
    ensures c in Run(s, es).calls ==> CallOk(Run(s, es), c)
    decreases |es|
  {
    if es != [] {
      ApplyWf(s, es[0]);
      if c in s.calls { CallStaysOk(s, es[0], c); }
      else if c in Apply(s, es[0]).calls { CallStartsOk(s, es[0], c); }
      RunKeepsCall(Apply(s, es[0]), es[1..], c);
    }
  }

  /**
   What a user is shown once a post counts as delivered: a page read on the version holding the
   post or a later one.
   */
  ghost predicate ReadsWithPost(t: State, user: Id, limit: nat, p: Post, v: nat)
    requires Wf(t)
  {
    var r := Served(t, user, limit);
    && v <= r.version < |t.log| && p in t.log[v].db.posts
    && r.page == Query(t.log[r.version].db, user, r.limit)
    && (Newest(t.log[r.version].db, user, p) && r.limit >= 1 ==> p.row in r.page.items)
  }

  lemma {:induction false} RunConcat(s: State, es: seq<Event>, fs: seq<Event>)
    requires Wf(s)
    ensures Run(s, es + fs) == Run(Run(s, es), fs)
    decreases |es|
  {
    if es == [] {
      assert es + fs == fs;
    } else {
      ApplyWf(s, es[0]);
      assert (es + fs)[1..] == es[1..] + fs;
      RunConcat(Apply(s, es[0]), es[1..], fs);
    }
  }

  /**
   In every interleaving, once create_post has deleted a user's key with no fill open for that
   user that read the database before the post, every page the user is ever served was read on
   a version that has the post or followed it.
   */
  lemma ClearedUsersReadWithThePost(s: State, es: seq<Event>, c: Id, user: Id, more: seq<Event>, limit: nat)
    requires Start(s)
    ensures var t := Run(s, es);
            c in t.calls && user in Clean(t.calls[c]) ==>
              ReadsWithPost(Run(t, more), user, limit, t.calls[c].post, t.calls[c].version)
  {
    RunKeepsCall(s, es, c);
    var t := Run(s, es);
    if c in t.calls && user in Clean(t.calls[c]) {
      var t', p, v := Run(t, more), t.calls[c].post, t.calls[c].version;
      NothingOlderIsFinal(t, more, user, v);
      StaleIsServed(t', user, limit, v);
      RunConcat(s, es, more);
      ServedPageIsAQuery(s, es + more, user, limit);
      var r := Served(t', user, limit);
      assert t'.log[v] == t.log[v];
      if Newest(t'.log[r.version].db, user, p) && r.limit >= 1 {
        NewestIsShown(t'.log[r.version].db, user, r.limit, p);
      }
    }
  }

  /** No failed DEL, and no failure to list the followers. */
  ghost predicate NoDeleteErrors(es: seq<Event>) {
    forall i :: 0 <= i < |es| ==>
      && (es[i].ClearNext? || es[i].ClearAuthor? ==> es[i].deleted)
      && (es[i].ListFollowers? ==> es[i].ok)
  }

  ghost predicate AllClean(p: Publish) {
    && (p.Clearing? ==> p.next <= |p.listed| && forall i :: 0 <= i < p.next ==> p.listed[i] in p.clean)
    && (p.Returned? ==> p.post.owner in p.clean && forall i :: 0 <= i < |p.listed| ==> p.listed[i] in p.clean)
  }

  lemma {:induction false} AtomicRunsCleanAll(s: State, es: seq<Event>, c: Id)
    requires Wf(s) && s.fills == map[] && OnlyAtomicFills(es) && NoDeleteErrors(es)
    requires c in s.calls ==> AllClean(s.calls[c])
    ensures c in Run(s, es).calls ==> AllClean(Run(s, es).calls[c])
    decreases |es|
  {
    if es != [] {
      var s' := Apply(s, es[0]);
      ApplyWf(s, es[0]);
      assert forall u, v :: !OlderFillOpen(s, u, v);
      AtomicRunsCleanAll(s', es[1..], c);
    }
  }

  /**
   With atomic fills and no Redis errors, that holds of every listed follower and the author once
   create_post returned.
   */
  lemma ReturnedPostReachesAll(s: State, es: seq<Event>, c: Id, user: Id, more: seq<Event>, limit: nat)
    requires Start(s) && OnlyAtomicFills(es) && NoDeleteErrors(es)
    ensures var t := Run(s, es);
            c in t.calls && t.calls[c].Returned? && (user in t.calls[c].listed || user == t.calls[c].post.owner) ==>
              ReadsWithPost(Run(t, more), user, limit, t.calls[c].post, t.calls[c].version)
  {
    AtomicRunsCleanAll(s, es, c);
    ClearedUsersReadWithThePost(s, es, c, user, more, limit);
  }

  /** The call cleared the followers its author had in some version since the post. */
  ghost predicate ListedSince(log: seq<Version>, p: Publish, v: nat) {
    && !p.Committed? && p.version <= v < |log|
    && forall u :: u in p.listed <==> Edge(u, p.post.owner) in log[v].db.graph.follows
  }

  ghost predicate ListingOk(s: State, c: Id)
    requires c in s.calls
  {
    && s.calls[c].version < |s.log|
    && (!s.calls[c].Committed? ==> exists v :: ListedSince(s.log, s.calls[c], v))
  }

  lemma ListingLasts(s: State, t: State, c: Id, d: Id)
    requires c in s.calls && ListingOk(s, c) && d in t.calls && s.log <= t.log
    requires t.calls[d].version == s.calls[c].version && t.calls[d].post == s.calls[c].post
    requires !t.calls[d].Committed? ==> !s.calls[c].Committed? && t.calls[d].listed == s.calls[c].listed
    ensures ListingOk(t, d)
  {
    if !t.calls[d].Committed? {
      var v :| ListedSince(s.log, s.calls[c], v);
      assert ListedSince(t.log, t.calls[d], v);
    }
  }

  lemma ApplyKeepsListing(s: State, e: Event, c: Id)
    requires Wf(s) && (c in s.calls ==> ListingOk(s, c)) && (e.ListFollowers? ==> e.ok) && c in Apply(s, e).calls
    ensures ListingOk(Apply(s, e), c)
  {
    var t := Apply(s, e);
    ApplyWf(s, e);
    if c in s.calls {
      if e.ListFollowers? && e.call == c && s.calls[c].Committed? && t.calls[c].Clearing? {
        assert ListedSince(t.log, t.calls[c], Last(s));
      } else {
        ListingLasts(s, t, c, c);
      }
    }
  }

  lemma {:induction false} RunKeepsListing(s: State, es: seq<Event>, c: Id)
    requires Wf(s) && (c in s.calls ==> ListingOk(s, c)) && NoDeleteErrors(es)
    ensures c in Run(s, es).calls ==> ListingOk(Run(s, es), c)
    decreases |es|
  {
    if es != [] {
      ApplyWf(s, es[0]);
      if c in Apply(s, es[0]).calls { ApplyKeepsListing(s, es[0], c); }
      RunKeepsListing(Apply(s, es[0]), es[1..], c);
    }
  }

  /** So it holds of everybody who followed the author from the post on until the call returned. */
  lemma FollowersAreReached(s: State, es: seq<Event>, c: Id, user: Id, more: seq<Event>, limit: nat)
    requires Start(s) && OnlyAtomicFills(es) && NoDeleteErrors(es)
    ensures var t := Run(s, es);
            c in t.calls && t.calls[c].Returned?
            && (forall v :: t.calls[c].version <= v < |t.log| ==>
                  Edge(user, t.calls[c].post.owner) in t.log[v].db.graph.follows) ==>
              ReadsWithPost(Run(t, more), user, limit, t.calls[c].post, t.calls[c].version)
  {
    var t := Run(s, es);
    RunKeepsListing(s, es, c);
    if c in t.calls && t.calls[c].Returned? {
      var v :| ListedSince(t.log, t.calls[c], v);
      ReturnedPostReachesAll(s, es, c, user, more, limit);
    }
  }

  /** A call that could not list the followers returns having cleared nobody, and a returned call is over. */
  lemma {:induction false} ReturnedIsFinal(s: State, es: seq<Event>, c: Id, ids: seq<Id>)
    requires Wf(s) && c in s.calls
    ensures s.calls[c].Committed? ==>
              var t := Apply(s, ListFollowers(c, ids, false));
              t.cache == s.cache && c in t.calls && t.calls[c] == Returned(s.calls[c].post, s.calls[c].version, [], {})
    ensures s.calls[c].Returned? ==> c in Run(s, es).calls && Run(s, es).calls[c] == s.calls[c]
    decreases |es|
  {
    if es != [] {
      ApplyWf(s, es[0]);
      if s.calls[c].Returned? { ReturnedIsFinal(Apply(s, es[0]), es[1..], c, ids); }
    }
  }

  /** A key that was deleted leaves its user the current page; one that was not, and everybody else, what they had. */
  lemma DeletionServesCurrent(s: State, user: Id, deleted: bool, other: Id, limit: nat)
    requires Wf(s)
    ensures var t := Apply(s, Invalidate(user, deleted));
            && Wf(t)
            && Served(t, other, limit)
               == if other == user && deleted then Read(user, limit, Query(Current(s), user, limit), Last(s), s.now)
                  else Served(s, other, limit)
  {}

  // ---------- A fill that straddles the post ----------

  lemma RunThree(s: State, a: Event, b: Event, c: Event)
    requires Wf(s)
    ensures Wf(Apply(s, a)) && Wf(Apply(Apply(s, a), b))
    ensures Run(s, [a, b, c]) == Apply(Apply(Apply(s, a), b), c)
  {
    ApplyWf(s, a);
    ApplyWf(Apply(s, a), b);
    assert [a, b, c][1..] == [b, c] && [b, c][1..] == [c] && [c][1..] == [];
    ApplyWf(Apply(Apply(s, a), b), c);
    var s2 := Apply(Apply(s, a), b);
    assert Run(s, [a, b, c]) == Run(Apply(s, a), [b, c]);
    assert Run(Apply(s, a), [b, c]) == Run(s2, [c]);
    assert Run(s2, [c]) == Run(Apply(s2, c), []);
  }

  /** The follower's page was read before the post, and the keys are about to be deleted. */
  ghost predicate Straddled(s: State, r: Read, db: Db, p: Post, fill: Id, call: Id) {
    && |s.log| == 2 && s.log[1].db == db
    && fill in s.fills && s.fills[fill] == r && r.version == 0
    && call in s.calls && s.calls[call] == Clearing(p, 1, [r.viewer], 0, {})
  }

  /** The call has returned, and the old page was stored after the keys were deleted. */
  ghost predicate Landed(t: State, r: Read, db: Db, p: Post, call: Id) {
    && call in t.calls && t.calls[call].Returned? && t.calls[call].version == 1
    && t.calls[call].post == p && t.calls[call].listed == [r.viewer]
    && Fresh(t, r.viewer) && t.cache[r.viewer].read == r && Wf(t) && Current(t) == db
  }

  lemma PostCommits(s: State, p: Post, follower: Id, fill: Id, call: Id, n: nat)
    requires Start(s) && Lists(Current(s), p.owner, [follower]) && Ordered([p] + Current(s).posts)
    ensures Straddled(Run(s, [OpenFill(fill, follower, n), Insert(call, p, 0), ListFollowers(call, [follower], true)]),
                      ReadNow(s, follower, n), Current(s).(posts := [p] + Current(s).posts), p, fill, call)
  {
    RunThree(s, OpenFill(fill, follower, n), Insert(call, p, 0), ListFollowers(call, [follower], true));
    var s1 := Apply(s, OpenFill(fill, follower, n));
    var db := Current(s).(posts := [p] + Current(s).posts);
    assert Placed(Current(s), p, 0).posts == [p] + Current(s).posts;
    PostIsPlaced(s1, p, call, db);
  }

  lemma PostIsPlaced(s: State, p: Post, call: Id, db: Db)
    requires Wf(s) && call !in s.calls && Placed(Current(s), p, 0) == db && Ordered(db.posts)
    ensures var s' := Apply(s, Insert(call, p, 0));
            && s'.log == s.log + [Version(db, s.now)] && s'.fills == s.fills
            && s'.calls == s.calls[call := Committed(p, |s.log|)]
  {}

  lemma FillLandsLate(s: State, r: Read, db: Db, p: Post, fill: Id, call: Id)
    requires Straddled(s, r, db, p, fill, call)
    ensures Landed(Run(s, [ClearNext(call, true), ClearAuthor(call, true), CloseFill(fill, true)]), r, db, p, call)
  {
    RunThree(s, ClearNext(call, true), ClearAuthor(call, true), CloseFill(fill, true));
    var s1 := Apply(s, ClearNext(call, true));
    assert s1.calls[call].next == 1 && s1.fills == s.fills;
    var s2 := Apply(s1, ClearAuthor(call, true));
    assert s2.calls[call].Returned? && s2.fills == s.fills;
  }

  lemma FirstIsNewest(db: Db, viewer: Id, p: Post)
    requires Ordered(db.posts) && db.posts != [] && db.posts[0] == p && InHomeFeed(db.graph, p, viewer)
    ensures Newest(db, viewer, p)
  {}

  lemma NewRowNotOnOldPage(db: Db, p: Post, viewer: Id, n: nat)
    requires Ordered([p] + db.posts)
    ensures p.row !in Query(db, viewer, n).items
  {
    var all := [p] + db.posts;
    forall i | 0 <= i < |db.posts| ensures Before(p.row, db.posts[i].row) {
      assert all[0] == p && all[i + 1] == db.posts[i];
    }
    forall i, j | 0 <= i < j < |db.posts| ensures Before(db.posts[i].row, db.posts[j].row) {
      assert all[i + 1] == db.posts[i] && all[j + 1] == db.posts[j];
    }
    if p.row in Query(db, viewer, n).items {
      PageRowsAreFeedRows(db, viewer, n, p.row);
      HomeFeedRows(db.graph, db.posts, viewer);
    }
  }

  /**
   The call has returned and listed the follower, who is served a page read before the post, for
   the limit asked for, that lacks the post although the query shows it.
   */
  ghost predicate MissesPost(t: State, p: Post, follower: Id, call: Id, n: nat) {
    && Wf(t) && call in t.calls && t.calls[call].Returned?
    && t.calls[call].post == p && follower in t.calls[call].listed
    && Served(t, follower, n).limit == n && Served(t, follower, n).version < t.calls[call].version
    && p.row !in Served(t, follower, n).page.items
    && p.row in Query(Current(t), follower, n).items
  }

  lemma StraddlingRun(s: State, p: Post, follower: Id, fill: Id, call: Id, n: nat) returns (all: seq<Event>)
    requires Start(s) && n >= 1 && Lists(Current(s), p.owner, [follower])
    requires InHomeFeed(Current(s).graph, p, follower) && Ordered([p] + Current(s).posts)
    ensures NoDeleteErrors(all) && MissesPost(Run(s, all), p, follower, call, n)
  {
    var es := [OpenFill(fill, follower, n), Insert(call, p, 0), ListFollowers(call, [follower], true)];
    var more := [ClearNext(call, true), ClearAuthor(call, true), CloseFill(fill, true)];
    var r, db := ReadNow(s, follower, n), Current(s).(posts := [p] + Current(s).posts);
    all := es + more;
    PostCommits(s, p, follower, fill, call, n);
    FillLandsLate(Run(s, es), r, db, p, fill, call);
    RunConcat(s, es, more);
    LandedMisses(Run(s, all), r, Current(s), p, call, n);
  }

  /**
   Without atomic fills the law fails: a create_post call has returned, nothing failed, and a
   listed follower is served a page without the post, which the query would show.
   */
  lemma StraddlingFillHidesThePost(s: State, p: Post, follower: Id, fill: Id, call: Id, n: nat)
    requires Start(s) && n >= 1 && Lists(Current(s), p.owner, [follower])
    requires InHomeFeed(Current(s).graph, p, follower) && Ordered([p] + Current(s).posts)
    ensures exists es :: NoDeleteErrors(es) && MissesPost(Run(s, es), p, follower, call, n)
  {
    var es := StraddlingRun(s, p, follower, fill, call, n);
  }

  lemma LandedMisses(t: State, r: Read, old': Db, p: Post, call: Id, n: nat)
    requires Landed(t, r, old'.(posts := [p] + old'.posts), p, call) && n >= 1
    requires r.page == Query(old', r.viewer, n) && r.limit == n && r.version == 0
    requires Ordered([p] + old'.posts) && InHomeFeed(old'.graph, p, r.viewer)
    ensures MissesPost(t, p, r.viewer, call, n)
  {
    var db := old'.(posts := [p] + old'.posts);
    NewRowNotOnOldPage(old', p, r.viewer, n);
    FirstIsNewest(db, r.viewer, p);
    NewestIsShown(db, r.viewer, n, p);
  }

  // ---------- Blocks ----------

  function Blocked(db: Db, a: Id, b: Id): Db { db.(graph := BlockStep(db.graph, a, b)) }

  /**
   block_user commits the block and drops the blocker's key only. After it, whatever happened in
   between, the blocker is never served an older page exactly when no older fill of theirs is
   open, and the blocked user exactly when none is served to them now and no older fill is open.
   */
  lemma BlockServedLaw(s: State, a: Id, b: Id, mid: seq<Event>)
    requires Wf(s) && Ordered(Current(s).posts) && a != b
    ensures var s1 := Run(Apply(s, Change(Blocked(Current(s), a, b))), mid);
            var v := |s.log|;
            var s2 := Apply(s1, Invalidate(a, true));
            && ((forall es :: !StaleAfter(s2, es, a, v)) <==> !OlderFillOpen(s1, a, v))
            && ((forall es :: !StaleAfter(s2, es, b, v)) <==> NothingOlder(s1, b, v))
  {
    var v := |s.log|;
    var s1 := Run(Apply(s, Change(Blocked(Current(s), a, b))), mid);
    assert v <= Last(s1);
    InvalidationIsFinalIff(s1, a, v);
    FreeOfOlderPagesIff(Apply(s1, Invalidate(a, true)), b, v);
    assert OlderFillOpen(Apply(s1, Invalidate(a, true)), b, v) <==> OlderFillOpen(s1, b, v);
  }

  /** A page that is not older than a block still in force shows none of the other side's posts. */
  lemma PagesAfterBlockHide(s: State, es: seq<Event>, user: Id, other: Id, v: nat, limit: nat, p: Post)
    requires Start(s) && user != other && p.owner == other
    requires var t := Run(s, es);
             && v <= Last(t) && !Stale(t, user, v)
             && (forall w :: v <= w <= Last(t) ==> BlockedEitherWay(t.log[w].db.graph, other, user))
    ensures var t := Run(s, es);
            var r := Served(t, user, limit);
            r.version < |t.log| && (p in t.log[r.version].db.posts ==> p.row !in r.page.items)
  {
    var t := Run(s, es);
    ServedPageIsAQuery(s, es, user, limit);
    StaleIsServed(t, user, limit, v);
    var r := Served(t, user, limit);
    if p in t.log[r.version].db.posts { PageHides(t.log[r.version].db, user, r.limit, p); }
  }

  /**
   The law has teeth: with atomic fills and nothing failing, a user who loaded their feed just
   before being blocked is still served the blocker's post, which their query no longer shows.
   */
  lemma BlockedUserIsStillServed(s: State, a: Id, b: Id, p: Post, n: nat)
    requires Start(s) && a != b && p.owner == a && p in Current(s).posts && p.row in Query(Current(s), b, n).items
    ensures var t := Run(s, [AtomicFill(b, n), Change(Blocked(Current(s), a, b)), Invalidate(a, true)]);
            && Current(t) == Blocked(Current(s), a, b)
            && p.row in Served(t, b, n).page.items
            && p.row !in Query(Current(t), b, n).items && !InHomeFeed(Current(t).graph, p, b)
  {
    var db := Blocked(Current(s), a, b);
    var es := [AtomicFill(b, n), Change(db), Invalidate(a, true)];
    RunThree(s, AtomicFill(b, n), Change(db), Invalidate(a, true));
    var t := Run(s, es);
    assert Current(t) == db && Fresh(t, b);
    assert Edge(a, b) in db.graph.blocks;
    PageHides(db, b, n, p);
  }

  // ---------- The service ----------

  /** CachedHomeFeed: the cursor is stored as two optional parts. */
  datatype CachedHomeFeed = CachedHomeFeed(posts: seq<Row>, nextCursorNanos: Option<int>, nextCursorId: Option<int>)

  function FromPage(p: Page): CachedHomeFeed {
    if p.next.Some? then CachedHomeFeed(p.items, Some(p.next.value.createdAt), Some(p.next.value.id))
    else CachedHomeFeed(p.items, None, None)
  }

  function IntoPage(c: CachedHomeFeed): Option<Page> {
    if c.nextCursorNanos.Some? && c.nextCursorId.Some? then
      Some(Page(c.posts, Some(Row(c.nextCursorNanos.value, c.nextCursorId.value))))
    else if c.nextCursorNanos.None? && c.nextCursorId.None? then Some(Page(c.posts, None))
    else None
  }

  /** Storing a page loses nothing, and only records of stored pages read back. */
  lemma CachedPageRoundTrip(p: Page, c: CachedHomeFeed)
    ensures IntoPage(FromPage(p)) == Some(p)
    ensures IntoPage(c).Some? <==> exists q :: c == FromPage(q)
  {
    if IntoPage(c).Some? { assert c == FromPage(IntoPage(c).value); }
    if q :| c == FromPage(q) { assert IntoPage(FromPage(q)) == Some(q); }
  }

  /** A stored payload with the second it expires. */
  datatype Stored = Stored(payload: CachedHomeFeed, expiresAt: nat)

  /** What Redis holds for the cache of a state. */
  function Payloads(cache: map<Id, Entry>): map<Id, Stored> {
    map u | u in cache :: Stored(FromPage(cache[u].read.page), cache[u].writtenAt + TTL)
  }

  /** GET: the payload, unless the key is absent, expired or Redis fails. */
  function Get(store: map<Id, Stored>, user: Id, now: nat, fails: bool): Option<CachedHomeFeed> {
    if !fails && user in store && now < store[user].expiresAt then Some(store[user].payload) else None
  }

  /**
   The service's reads are the interleaved model's: a fresh entry is a hit and serves its page,
   else the query is served.
   */
  lemma ServiceReads(s: State, user: Id, limit: nat)
    requires Wf(s)
    ensures var got := Get(Payloads(s.cache), user, s.now, false);
            && (got.Some? <==> Fresh(s, user))
            && (got.Some? ==> IntoPage(got.value) == Some(Served(s, user, limit).page))
            && (got.None? ==> Query(Current(s), user, limit) == Served(s, user, limit).page)
  {
    if Fresh(s, user) { CachedPageRoundTrip(s.cache[user].read.page, FromPage(s.cache[user].read.page)); }
  }

  lemma PayloadsPut(cache: map<Id, Entry>, u: Id, e: Entry)
    ensures Payloads(cache[u := e]) == Payloads(cache)[u := Stored(FromPage(e.read.page), e.writtenAt + TTL)]
  {}

  lemma PayloadsDrop(cache: map<Id, Entry>, u: Id)
    ensures Payloads(cache - {u}) == Payloads(cache) - {u}
  {}

  /** And its writes are the model's events: a miss is an atomic fill, a refresh is an invalidation. */
  lemma ServiceWrites(s: State, user: Id, limit: nat)
    requires Wf(s)
    ensures Payloads(Apply(s, AtomicFill(user, limit)).cache)
         == Payloads(s.cache)[user := Stored(FromPage(Query(Current(s), user, limit)), s.now + TTL)]
    ensures Payloads(Apply(s, Invalidate(user, true)).cache) == Payloads(s.cache) - {user}
  {
    PayloadsPut(s.cache, user, Entry(ReadNow(s, user, limit), s.now));
    PayloadsDrop(s.cache, user);
  }

  class FeedService {
    var graph: Graph
    var posts: seq<Post>
    var cache: map<Id, Stored>

    /** A first page comes from the cache when it holds a readable one; a filled page is stored for TTL seconds. */
    method GetHomeFeed(user: Id, cursor: Option<Row>, limit: nat, now: nat, readFails: bool, writeFails: bool)
      returns (items: seq<Row>, next: Option<Row>)
      modifies this`cache
      ensures var got := Get(old(cache), user, now, readFails);
              var hit := if cursor.None? && got.Some? then IntoPage(got.value) else None;
              var page := PageOf(HomeFeed(graph, posts, user), cursor, limit);
              if hit.Some? then Page(items, next) == hit.value && cache == old(cache)
              else && Page(items, next) == page
                   && cache == if cursor.None? && !writeFails
                               then old(cache)[user := Stored(FromPage(page), now + TTL)] else old(cache)
    {
      var shouldCache := cursor.None?;
      if shouldCache {
        var payload := Get(cache, user, now, readFails);
        if payload.Some? {
          var cached := IntoPage(payload.value);
          if cached.Some? {
            return cached.value.items, cached.value.next;
          }
        }
      }
      items, next := ListPage(HomeFeed(graph, posts, user), cursor, limit);
      if shouldCache && !writeFails {
        cache := cache[user := Stored(FromPage(Page(items, next)), now + TTL)];
      }
    }

    method RefreshHomeFeed(user: Id, fails: bool)
      modifies this`cache
      ensures cache == if fails then old(cache) else old(cache) - {user}
    {
      if !fails {
        cache := cache - {user};
      }
    }

    /**
     Deletes the followers' keys one by one, then the author's, unless listing the followers
     failed; `failing` are the DELs Redis refuses.
     */
    method InvalidateFollowersFeeds(author: Id, listed: Option<seq<Id>>, failing: set<Id>)
      modifies this`cache
      ensures cache == if listed.None? then old(cache)
                       else old(cache) - ((set u | u in listed.value) + {author} - failing)
    {
      if listed.None? { return; }
      var followers := listed.value;
      for i := 0 to |followers|
        invariant cache == old(cache) - ((set u | u in followers[..i]) - failing)
      {
        RefreshHomeFeed(followers[i], followers[i] in failing);
        assert followers[..i + 1] == followers[..i] + [followers[i]];
      }
      assert followers[..|followers|] == followers;
      RefreshHomeFeed(author, author in failing);
    }
  }
}
