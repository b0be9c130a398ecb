/**
 The follow and block graph, and the feeds read from it. Transactions are serialised here;
 module FollowLock interleaves them.
 */
module SocialGraph {
  import opened Common
  import opened Pagination

  /** A follows row (follower, followee) or a blocks row (blocker, blocked). */
  datatype Edge = Edge(from: Id, to: Id)

  datatype Graph = Graph(users: set<Id>, deleted: set<Id>, follows: set<Edge>, blocks: set<Edge>)

  const MAX_FOLLOWERS := 5000

  predicate Live(g: Graph, u: Id) { u in g.users && u !in g.deleted }

  predicate BlockedEitherWay(g: Graph, a: Id, b: Id) { Edge(a, b) in g.blocks || Edge(b, a) in g.blocks }

  function Followers(follows: set<Edge>, u: Id): set<Edge> { set e | e in follows && e.to == u }

  datatype FollowResult = Done(followed: bool) | UserNotFound | FollowerLimitReached

  function FollowStep(g: Graph, a: Id, b: Id): (Graph, FollowResult) {
    if !Live(g, b) then (g, UserNotFound)
    else if |Followers(g.follows, b)| >= MAX_FOLLOWERS then (g, FollowerLimitReached)
    else if a == b || BlockedEitherWay(g, a, b) || Edge(a, b) in g.follows then (g, Done(false))
    else (g.(follows := g.follows + {Edge(a, b)}), Done(true))
  }

  function UnfollowStep(g: Graph, a: Id, b: Id): Graph { g.(follows := g.follows - {Edge(a, b)}) }

  function BlockStep(g: Graph, a: Id, b: Id): Graph {
    g.(blocks := if a != b then g.blocks + {Edge(a, b)} else g.blocks,
       follows := g.follows - {Edge(a, b), Edge(b, a)})
  }

  function UnblockStep(g: Graph, a: Id, b: Id): Graph { g.(blocks := g.blocks - {Edge(a, b)}) }

  function Without(rows: set<Edge>, u: Id): set<Edge> { set e | e in rows && e.from != u && e.to != u }

  /** The graph part of delete_account. */
  function DeleteStep(g: Graph, u: Id): Graph {
    if !Live(g, u) then g
    else g.(deleted := g.deleted + {u}, follows := Without(g.follows, u), blocks := Without(g.blocks, u))
  }

  datatype Event =
    | SignUp(user: Id)
    | Follow(from: Id, to: Id)
    | Unfollow(from: Id, to: Id)
    | Block(from: Id, to: Id)
    | Unblock(from: Id, to: Id)
    | DeleteAccount(user: Id)

  function Apply(g: Graph, e: Event): Graph {
    match e
    case SignUp(u) => g.(users := g.users + {u})
    case Follow(a, b) => FollowStep(g, a, b).0
    case Unfollow(a, b) => UnfollowStep(g, a, b)
    case Block(a, b) => BlockStep(g, a, b)
    case Unblock(a, b) => UnblockStep(g, a, b)
    case DeleteAccount(u) => DeleteStep(g, u)
  }

  function Run(g: Graph, es: seq<Event>): Graph
    decreases |es|
  {
    if es == [] then g else Run(Apply(g, es[0]), es[1..])
  }

  const EMPTY := Graph({}, {}, {}, {})

  // ---------- The graph's invariant ----------

  ghost predicate NoSelf(rows: set<Edge>) { forall e :: e in rows ==> e.from != e.to }

  ghost predicate BlocksExcludeFollows(g: Graph) {
    forall e :: e in g.follows ==> !BlockedEitherWay(g, e.from, e.to)
  }

  ghost predicate WithinLimit(follows: set<Edge>) {
    forall u :: |Followers(follows, u)| <= MAX_FOLLOWERS
  }

  ghost predicate Inv(g: Graph) {
    NoSelf(g.follows) && NoSelf(g.blocks) && BlocksExcludeFollows(g) && WithinLimit(g.follows)
  }

  lemma SubsetIsSmaller(a: set<Edge>, b: set<Edge>)
    requires a <= b
    ensures |a| <= |b|
    decreases |b|
  {
    if b != {} {
      var e :| e in b;
      SubsetIsSmaller(a - {e}, b - {e});
      if e in a { assert a == (a - {e}) + {e}; } else { assert a == a - {e}; }
    }
  }

  lemma FewerRowsStayWithin(follows: set<Edge>, fewer: set<Edge>)
    requires WithinLimit(follows) && fewer <= follows
    ensures WithinLimit(fewer)
  {
    forall u ensures |Followers(fewer, u)| <= MAX_FOLLOWERS {
      SubsetIsSmaller(Followers(fewer, u), Followers(follows, u));
    }
  }

  lemma OneMoreFollower(follows: set<Edge>, e: Edge)
    requires WithinLimit(follows) && |Followers(follows, e.to)| < MAX_FOLLOWERS
    ensures WithinLimit(follows + {e})
  {
    forall u ensures |Followers(follows + {e}, u)| <= MAX_FOLLOWERS {
      if u == e.to {
        assert Followers(follows + {e}, u) == Followers(follows, u) + {e};
      } else {
        assert Followers(follows + {e}, u) == Followers(follows, u);
      }
    }
  }

  lemma ApplyKeepsInv(g: Graph, e: Event)
    requires Inv(g)
    ensures Inv(Apply(g, e))
  {
    if e.Follow? && FollowStep(g, e.from, e.to).1 == Done(true) {
      OneMoreFollower(g.follows, Edge(e.from, e.to));
    } else {
      FewerRowsStayWithin(g.follows, Apply(g, e).follows);
    }
  }

  lemma {:induction false} RunKeepsInv(g: Graph, es: seq<Event>)
    requires Inv(g)
    ensures Inv(Run(g, es))
    decreases |es|
  {
    if es != [] {
      ApplyKeepsInv(g, es[0]);
      RunKeepsInv(Apply(g, es[0]), es[1..]);
    }
  }

  lemma EmptyIsOk()
    ensures Inv(EMPTY)
  {
    forall u ensures |Followers(EMPTY.follows, u)| <= MAX_FOLLOWERS { assert Followers(EMPTY.follows, u) == {}; }
  }

  /** Blocking and then unblocking is not the identity: it forgets the follows between the two, and nothing else. */
  lemma BlockThenUnblock(es: seq<Event>, a: Id, b: Id)
    ensures var g := Run(EMPTY, es);
            UnblockStep(BlockStep(g, a, b), a, b)
            == g.(follows := g.follows - {Edge(a, b), Edge(b, a)}, blocks := g.blocks - {Edge(a, b)})
    ensures var g := Run(EMPTY, es);
            UnblockStep(BlockStep(g, a, b), a, b) == g
            <==> Edge(a, b) !in g.follows && Edge(b, a) !in g.follows && Edge(a, b) !in g.blocks
  {
    var g := Run(EMPTY, es);
    EmptyIsOk();
    RunKeepsInv(EMPTY, es);
    var after := UnblockStep(BlockStep(g, a, b), a, b);
    assert after.blocks == g.blocks - {Edge(a, b)};
    if after == g { assert Edge(a, b) !in after.follows && Edge(b, a) !in after.follows; } else {
      assert after.follows != g.follows || after.blocks != g.blocks;
    }
  }

  /** A follow between the two is gone after a block and its removal. */
  lemma UnblockForgetsFollow(a: Id, b: Id)
    requires a != b
    ensures exists es :: Edge(a, b) in Run(EMPTY, es).follows
                         && Edge(a, b) !in UnblockStep(BlockStep(Run(EMPTY, es), a, b), a, b).follows
  {
    var es := [SignUp(b), Follow(a, b)];
    assert es[1..] == [Follow(a, b)] && es[1..][1..] == [];
    var g := Apply(EMPTY, SignUp(b));
    assert Followers(g.follows, b) == {};
    assert Run(EMPTY, es) == Run(g, es[1..]) == Run(Apply(g, Follow(a, b)), []);
    assert Edge(a, b) in Run(EMPTY, es).follows;
    BlockThenUnblock(es, a, b);
  }

  // ---------- Visibility ----------

  datatype PostVisibility = PublicPost | FollowersOnly

  datatype Post = Post(row: Row, owner: Id, visibility: PostVisibility)

  predicate CanView(g: Graph, p: Post, viewer: Id) {
    && Live(g, p.owner)
    && (p.visibility == PublicPost || p.owner == viewer
        || (p.visibility == FollowersOnly && Edge(viewer, p.owner) in g.follows))
    && !BlockedEitherWay(g, p.owner, viewer)
  }

  predicate InHomeFeed(g: Graph, p: Post, viewer: Id) {
    && Live(g, p.owner)
    && (p.owner == viewer || (Edge(viewer, p.owner) in g.follows && !BlockedEitherWay(g, p.owner, viewer)))
  }

  /** The home feed is the viewable posts of oneself and the accounts one follows. */
  lemma HomeFeedIsViewable(es: seq<Event>, p: Post, viewer: Id)
    ensures var g := Run(EMPTY, es);
            InHomeFeed(g, p, viewer) <==>
              CanView(g, p, viewer) && (p.owner == viewer || Edge(viewer, p.owner) in g.follows)
  {
    EmptyIsOk();
    RunKeepsInv(EMPTY, es);
  }

  datatype StoryVisibility = PublicStory | FriendsOnly | CloseFriendsOnly

  datatype Story = Story(owner: Id, expiresAt: int, visibility: StoryVisibility)

  predicate Mutual(g: Graph, a: Id, b: Id) { Edge(a, b) in g.follows && Edge(b, a) in g.follows }

  predicate CanGetStory(g: Graph, t: Story, viewer: Id, now: int) {
    && Live(g, t.owner) && t.expiresAt > now
    && !BlockedEitherWay(g, t.owner, viewer)
    && (t.visibility == PublicStory || t.owner == viewer
        || ((t.visibility == FriendsOnly || t.visibility == CloseFriendsOnly) && Mutual(g, viewer, t.owner)))
  }

  predicate InStoriesFeed(g: Graph, t: Story, viewer: Id, now: int) {
    && Live(g, t.owner) && t.expiresAt > now
    && Edge(viewer, t.owner) in g.follows
    && !BlockedEitherWay(g, t.owner, viewer)
    && (t.visibility == PublicStory
        || ((t.visibility == FriendsOnly || t.visibility == CloseFriendsOnly) && Mutual(g, viewer, t.owner)))
  }

  /**
   The stories feed is the readable stories of followed accounts, never one's own; the block test
   in it is redundant.
   */
  lemma StoriesFeedIsReadable(es: seq<Event>, t: Story, viewer: Id, now: int)
    ensures var g := Run(EMPTY, es);
            && (InStoriesFeed(g, t, viewer, now) <==>
                  CanGetStory(g, t, viewer, now) && Edge(viewer, t.owner) in g.follows)
            && (InStoriesFeed(g, t, viewer, now) ==> t.owner != viewer)
            && (Edge(viewer, t.owner) in g.follows ==> !BlockedEitherWay(g, t.owner, viewer))
  {
    EmptyIsOk();
    RunKeepsInv(EMPTY, es);
  }

  /** What a sound graph shows to whom, for friends and strangers alike; a follow already rules a block out. */
  lemma VisibilityMeans(g: Graph, p: Post, t: Story, viewer: Id, now: int)
    requires Inv(g)
    ensures p.visibility == FollowersOnly ==>
              (CanView(g, p, viewer) <==>
                && p.owner in g.users && p.owner !in g.deleted
                && (p.owner == viewer || Edge(viewer, p.owner) in g.follows))
    ensures p.visibility == PublicPost ==>
              (CanView(g, p, viewer) <==>
                && p.owner in g.users && p.owner !in g.deleted
                && Edge(p.owner, viewer) !in g.blocks && Edge(viewer, p.owner) !in g.blocks)
    ensures t.visibility != PublicStory ==>
              (CanGetStory(g, t, viewer, now) <==>
                && t.owner in g.users && t.owner !in g.deleted && now < t.expiresAt
                && (t.owner == viewer || (Edge(viewer, t.owner) in g.follows && Edge(t.owner, viewer) in g.follows)))
    ensures t.visibility == PublicStory ==>
              (CanGetStory(g, t, viewer, now) <==>
                && t.owner in g.users && t.owner !in g.deleted && now < t.expiresAt
                && Edge(t.owner, viewer) !in g.blocks && Edge(viewer, t.owner) !in g.blocks)
  {}

  lemma ReachableIsSound(es: seq<Event>)
    ensures Inv(Run(EMPTY, es))
  {
    EmptyIsOk();
    RunKeepsInv(EMPTY, es);
  }

  /** Over every run: who sees a post or a story. */
  lemma WhoSeesWhat(es: seq<Event>, p: Post, t: Story, viewer: Id, now: int)
    ensures var g := Run(EMPTY, es);
            && (p.visibility == FollowersOnly ==>
                  (CanView(g, p, viewer) <==>
                    && p.owner in g.users && p.owner !in g.deleted
                    && (p.owner == viewer || Edge(viewer, p.owner) in g.follows)))
            && (p.visibility == PublicPost ==>
                  (CanView(g, p, viewer) <==>
                    && p.owner in g.users && p.owner !in g.deleted
                    && Edge(p.owner, viewer) !in g.blocks && Edge(viewer, p.owner) !in g.blocks))
            && (t.visibility != PublicStory ==>
                  (CanGetStory(g, t, viewer, now) <==>
                    && t.owner in g.users && t.owner !in g.deleted && now < t.expiresAt
                    && (t.owner == viewer ||
                        (Edge(viewer, t.owner) in g.follows && Edge(t.owner, viewer) in g.follows))))
            && (t.visibility == PublicStory ==>
                  (CanGetStory(g, t, viewer, now) <==>
                    && t.owner in g.users && t.owner !in g.deleted && now < t.expiresAt
                    && Edge(t.owner, viewer) !in g.blocks && Edge(viewer, t.owner) !in g.blocks))
  {
    ReachableIsSound(es);
    VisibilityMeans(Run(EMPTY, es), p, t, viewer, now);
  }

  // ---------- What each operation changes for readers ----------

  /** A follow opens the followee's followers-only posts to the follower, exactly when it may, and nothing else. */
  lemma FollowOpens(es: seq<Event>, a: Id, b: Id, p: Post, viewer: Id)
    requires p.visibility == FollowersOnly
    ensures var g := Run(EMPTY, es);
            CanView(Apply(g, Follow(a, b)), p, viewer) <==>
              || CanView(g, p, viewer)
              || (&& viewer == a && p.owner == b && a != b && b in g.users && b !in g.deleted
                  && Edge(a, b) !in g.blocks && Edge(b, a) !in g.blocks && |Followers(g.follows, b)| < 5000)
  {
    var g := Run(EMPTY, es);
    ReachableIsSound(es);
    ApplyKeepsInv(g, Follow(a, b));
    VisibilityMeans(g, p, Story(p.owner, 0, PublicStory), viewer, 0);
    VisibilityMeans(Apply(g, Follow(a, b)), p, Story(p.owner, 0, PublicStory), viewer, 0);
  }

  /** What the caller of follow is told. */
  lemma FollowAnswers(es: seq<Event>, a: Id, b: Id)
    ensures var g := Run(EMPTY, es);
            var r := FollowStep(g, a, b).1;
            && (r == UserNotFound <==> b !in g.users || b in g.deleted)
            && (r == FollowerLimitReached <==> b in g.users && b !in g.deleted && |Followers(g.follows, b)| >= 5000)
            && (r == Done(true) <==> Apply(g, Follow(a, b)).follows != g.follows)
  {
    var g := Run(EMPTY, es);
    if FollowStep(g, a, b).1 == Done(true) { assert Edge(a, b) in Apply(g, Follow(a, b)).follows; }
  }

  /** An unfollow closes the followee's followers-only posts to the follower, and nothing else to anybody. */
  lemma UnfollowCloses(es: seq<Event>, a: Id, b: Id, p: Post, viewer: Id)
    requires p.visibility == FollowersOnly && a != b
    ensures var g := Run(EMPTY, es);
            CanView(Apply(g, Unfollow(a, b)), p, viewer) <==> CanView(g, p, viewer) && !(viewer == a && p.owner == b)
  {
    var g := Run(EMPTY, es);
    ReachableIsSound(es);
    ApplyKeepsInv(g, Unfollow(a, b));
    VisibilityMeans(g, p, Story(p.owner, 0, PublicStory), viewer, 0);
    VisibilityMeans(Apply(g, Unfollow(a, b)), p, Story(p.owner, 0, PublicStory), viewer, 0);
  }

  /** A block closes both sides' public posts to each other, an unblock opens them, and nobody else notices. */
  lemma BlockCloses(es: seq<Event>, a: Id, b: Id, p: Post, viewer: Id)
    requires p.visibility == PublicPost && a != b
    ensures var g := Run(EMPTY, es);
            var between := (p.owner == a && viewer == b) || (p.owner == b && viewer == a);
            && (CanView(Apply(g, Block(a, b)), p, viewer) <==> CanView(g, p, viewer) && !between)
            && (CanView(Apply(g, Unblock(a, b)), p, viewer) <==>
                  || CanView(g, p, viewer)
                  || (between && p.owner in g.users && p.owner !in g.deleted && Edge(b, a) !in g.blocks))
  {
    var g := Run(EMPTY, es);
    ReachableIsSound(es);
    ApplyKeepsInv(g, Block(a, b));
    ApplyKeepsInv(g, Unblock(a, b));
    VisibilityMeans(g, p, Story(p.owner, 0, PublicStory), viewer, 0);
    VisibilityMeans(Apply(g, Block(a, b)), p, Story(p.owner, 0, PublicStory), viewer, 0);
    VisibilityMeans(Apply(g, Unblock(a, b)), p, Story(p.owner, 0, PublicStory), viewer, 0);
  }

  /** Deleting an account closes its posts to everybody, and changes nothing among the others. */
  lemma DeletionCloses(es: seq<Event>, u: Id, p: Post, viewer: Id)
    requires viewer != u && u in Run(EMPTY, es).users
    ensures var g := Run(EMPTY, es);
            && (CanView(Apply(g, DeleteAccount(u)), p, viewer) <==> CanView(g, p, viewer) && p.owner != u)
            && forall e :: e in Apply(g, DeleteAccount(u)).follows + Apply(g, DeleteAccount(u)).blocks ==>
                 u in g.deleted || (e.from != u && e.to != u)
  {
    var g := Run(EMPTY, es);
    ReachableIsSound(es);
    ApplyKeepsInv(g, DeleteAccount(u));
    VisibilityMeans(g, p, Story(p.owner, 0, PublicStory), viewer, 0);
    VisibilityMeans(Apply(g, DeleteAccount(u)), p, Story(p.owner, 0, PublicStory), viewer, 0);
  }

  ghost predicate Undoes(e: Event, a: Id, b: Id) {
    e == Unblock(a, b) || e == DeleteAccount(a) || e == DeleteAccount(b)
  }

  lemma {:induction false} BlockPersists(g: Graph, es: seq<Event>, a: Id, b: Id)
    requires Edge(a, b) in g.blocks && forall i :: 0 <= i < |es| ==> !Undoes(es[i], a, b)
    ensures Edge(a, b) in Run(g, es).blocks
    decreases |es|
  {
    if es != [] {
      assert !Undoes(es[0], a, b);
      BlockPersists(Apply(g, es[0]), es[1..], a, b);
    }
  }

  /**
   A block keeps each side's posts and stories out of the other's queries, and keeps them from
   following, until it is undone.
   */
  lemma BlockHidesUntilUndone(es: seq<Event>, a: Id, b: Id, more: seq<Event>, p: Post, t: Story, now: int)
    requires a != b && forall i :: 0 <= i < |more| ==> !Undoes(more[i], a, b)
    ensures var g := Run(BlockStep(Run(EMPTY, es), a, b), more);
            && (p.owner == a ==> !CanView(g, p, b) && !InHomeFeed(g, p, b))
            && (p.owner == b ==> !CanView(g, p, a) && !InHomeFeed(g, p, a))
            && (t.owner == a ==> !CanGetStory(g, t, b, now) && !InStoriesFeed(g, t, b, now))
            && (t.owner == b ==> !CanGetStory(g, t, a, now) && !InStoriesFeed(g, t, a, now))
            && Edge(a, b) !in g.follows && Edge(b, a) !in g.follows
  {
    var g := BlockStep(Run(EMPTY, es), a, b);
    BlockPersists(g, more, a, b);
    EmptyIsOk();
    RunKeepsInv(EMPTY, es);
    ApplyKeepsInv(Run(EMPTY, es), Block(a, b));
    RunKeepsInv(g, more);
  }

  // ---------- The home-feed query ----------

  function HomeFeed(g: Graph, posts: seq<Post>, viewer: Id): seq<Row> {
    if posts == [] then []
    else (if InHomeFeed(g, posts[0], viewer) then [posts[0].row] else []) + HomeFeed(g, posts[1..], viewer)
  }

  ghost predicate Ordered(posts: seq<Post>) {
    forall i, j :: 0 <= i < j < |posts| ==> Before(posts[i].row, posts[j].row)
  }

  /** The query keeps the order and returns exactly the posts of the feed. */
  lemma {:induction false} HomeFeedRows(g: Graph, posts: seq<Post>, viewer: Id)
    requires Ordered(posts)
    ensures StrictlySorted(HomeFeed(g, posts, viewer))
    ensures forall r :: r in HomeFeed(g, posts, viewer) <==>
              exists p :: p in posts && p.row == r && InHomeFeed(g, p, viewer)
  {
    if posts != [] {
      var rest := HomeFeed(g, posts[1..], viewer);
      HomeFeedRows(g, posts[1..], viewer);
      assert forall p :: p in posts <==> p == posts[0] || p in posts[1..];
      forall r | r in rest ensures Before(posts[0].row, r) {
        var p :| p in posts[1..] && p.row == r;
        var k :| 0 <= k < |posts[1..]| && posts[1..][k] == p;
        assert posts[k + 1] == p;
      }
    }
  }

  // ---------- The service ----------

  class SocialService {
    var users: set<Id>
    var deleted: set<Id>
    var follows: set<Edge>
    var blocks: set<Edge>

    ghost function Snapshot(): Graph
      reads this
    {
      Graph(users, deleted, follows, blocks)
    }

    method FollowUser(follower: Id, followee: Id) returns (r: FollowResult)
      modifies this`follows
      ensures (Snapshot(), r) == FollowStep(old(Snapshot()), follower, followee)
    {
      if followee !in users || followee in deleted { return UserNotFound; }
      var count := |set e | e in follows && e.to == followee|;
      if count >= MAX_FOLLOWERS { return FollowerLimitReached; }
      var before := follows;
      if follower != followee && Edge(follower, followee) !in blocks && Edge(followee, follower) !in blocks {
        follows := follows + {Edge(follower, followee)};
      }
      r := Done(follows != before);
      assert Edge(follower, followee) in before ==> before + {Edge(follower, followee)} == before;
    }

    method UnfollowUser(follower: Id, followee: Id) returns (removed: bool)
      modifies this`follows
      ensures Snapshot() == UnfollowStep(old(Snapshot()), follower, followee)
      ensures removed <==> Snapshot() != old(Snapshot())
    {
      removed := Edge(follower, followee) in follows;
      follows := follows - {Edge(follower, followee)};
      assert !removed ==> follows == old(follows);
    }

    method BlockUser(blocker: Id, blocked: Id) returns (inserted: bool)
      modifies this`follows, this`blocks
      ensures Snapshot() == BlockStep(old(Snapshot()), blocker, blocked)
      ensures inserted <==> blocks != old(blocks)
    {
      inserted := false;
      if blocker != blocked && Edge(blocker, blocked) !in blocks {
        blocks := blocks + {Edge(blocker, blocked)};
        inserted := true;
      }
      follows := follows - {Edge(blocker, blocked)} - {Edge(blocked, blocker)};
      assert follows == old(follows) - {Edge(blocker, blocked), Edge(blocked, blocker)};
    }

    method UnblockUser(blocker: Id, blocked: Id) returns (removed: bool)
      modifies this`blocks
      ensures Snapshot() == UnblockStep(old(Snapshot()), blocker, blocked)
      ensures removed <==> Snapshot() != old(Snapshot())
    {
      removed := Edge(blocker, blocked) in blocks;
      blocks := blocks - {Edge(blocker, blocked)};
      assert !removed ==> blocks == old(blocks);
    }
  }
}
