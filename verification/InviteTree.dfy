/** The invite tree: the depth-limited recursive walk over relationship rows. */
module InviteTree {
  import opened Common
  import opened Invites

  /** SELECT ... WHERE inviter_id = u. */
  function Children(rs: seq<Relationship>, u: Id): (cs: seq<Relationship>)
    ensures |cs| <= |rs|
  {
    if rs == [] then [] else (if rs[0].inviter == u then [rs[0]] else []) + Children(rs[1..], u)
  }

  /** The rows the walk pushes, in its order: each child, then that child's subtree. */
  function Walk(rs: seq<Relationship>, u: Id, depth: int): seq<Relationship>
    decreases depth, |rs| + 1
  {
    if depth <= 0 then [] else WalkRows(rs, Children(rs, u), depth)
  }

  function WalkRows(rs: seq<Relationship>, rows: seq<Relationship>, depth: int): seq<Relationship>
    requires depth > 0
    decreases depth, |rows|
  {
    if rows == [] then []
    else [rows[0]] + Walk(rs, rows[0].invitee, depth - 1) + WalkRows(rs, rows[1..], depth)
  }

  lemma {:induction false} WalkRowsAppend(rs: seq<Relationship>, rows: seq<Relationship>, r: Relationship, depth: int)
    requires depth > 0
    ensures WalkRows(rs, rows + [r], depth) == WalkRows(rs, rows, depth) + [r] + Walk(rs, r.invitee, depth - 1)
    decreases |rows|
  {
    if rows == [] {
      assert rows + [r] == [r];
      assert [r][1..] == [];
    } else {
      assert (rows + [r])[1..] == rows[1..] + [r];
      WalkRowsAppend(rs, rows[1..], r, depth);
    }
  }

  lemma Regroup(a: seq<Relationship>, b: seq<Relationship>, r: Relationship, c: seq<Relationship>)
    ensures a + b + [r] + c == a + (b + [r] + c)
  {}

  /** get_invite_tree_recursive: pushes into the vector it is given. */
  method Push(rs: seq<Relationship>, u: Id, depth: int, relationships: seq<Relationship>)
    returns (out: seq<Relationship>)
    ensures out == relationships + Walk(rs, u, depth)
    decreases depth
  {
    out := relationships;
    if depth <= 0 { return; }
    var rows := Children(rs, u);
    for i := 0 to |rows|
      invariant out == relationships + WalkRows(rs, rows[..i], depth)
    {
      ghost var done, sub := WalkRows(rs, rows[..i], depth), Walk(rs, rows[i].invitee, depth - 1);
      out := out + [rows[i]];
      out := Push(rs, rows[i].invitee, depth - 1, out);
      Regroup(relationships, done, rows[i], sub);
      WalkRowsAppend(rs, rows[..i], rows[i], depth);
      assert rows[..i + 1] == rows[..i] + [rows[i]];
    }
    assert rows[..|rows|] == rows;
  }

  // ---------- Which rows ----------

  /** `v` is reached from `u` over exactly k invitations. */
  ghost predicate Reach(rs: seq<Relationship>, u: Id, v: Id, k: nat)
    decreases k
  {
    if k == 0 then u == v
    else exists r :: r in rs && r.invitee == v && Reach(rs, u, r.inviter, k - 1)
  }

  lemma {:induction false} ReachFromChild(rs: seq<Relationship>, r: Relationship, v: Id, k: nat)
    requires r in rs && Reach(rs, r.invitee, v, k)
    ensures Reach(rs, r.inviter, v, k + 1)
    decreases k
  {
    if k == 0 {
      assert Reach(rs, r.inviter, r.inviter, 0);
    } else {
      var last :| last in rs && last.invitee == v && Reach(rs, r.invitee, last.inviter, k - 1);
      ReachFromChild(rs, r, last.inviter, k - 1);
    }
  }

  lemma {:induction false} ReachThroughChild(rs: seq<Relationship>, u: Id, v: Id, k: nat) returns (r: Relationship)
    requires k > 0 && Reach(rs, u, v, k)
    ensures r in rs && r.inviter == u && Reach(rs, r.invitee, v, k - 1)
    decreases k
  {
    var last :| last in rs && last.invitee == v && Reach(rs, u, last.inviter, k - 1);
    if k == 1 {
      r := last;
    } else {
      r := ReachThroughChild(rs, u, last.inviter, k - 1);
      assert Reach(rs, r.invitee, v, k - 1);
    }
  }

  lemma {:induction false} ChildrenAre(rs: seq<Relationship>, u: Id)
    ensures forall r :: r in Children(rs, u) <==> r in rs && r.inviter == u
  {
    if rs != [] {
      ChildrenAre(rs[1..], u);
      assert forall r :: r in rs <==> r == rs[0] || r in rs[1..];
    }
  }

  /** `e` belongs to the tree: its inviter is within depth - 1 invitations of the root. */
  ghost predicate InTree(rs: seq<Relationship>, root: Id, depth: int, e: Relationship) {
    e in rs && exists k :: 0 <= k < depth && Reach(rs, root, e.inviter, k)
  }

  lemma {:induction false} WalkReturnsTree(rs: seq<Relationship>, root: Id, depth: int, e: Relationship)
    ensures e in Walk(rs, root, depth) <==> InTree(rs, root, depth, e)
    decreases depth, |rs| + 1
  {
    if depth > 0 {
      var rows := Children(rs, root);
      ChildrenAre(rs, root);
      WalkRowsReturn(rs, rows, depth, e);
      if InTree(rs, root, depth, e) {
        var k :| 0 <= k < depth && Reach(rs, root, e.inviter, k);
        if k > 0 {
          var r := ReachThroughChild(rs, root, e.inviter, k);
          assert InTree(rs, r.invitee, depth - 1, e);
        }
      }
      if r :| r in rows && InTree(rs, r.invitee, depth - 1, e) {
        var k :| 0 <= k < depth - 1 && Reach(rs, r.invitee, e.inviter, k);
        ReachFromChild(rs, r, e.inviter, k);
      }
      if e in rows { assert Reach(rs, root, e.inviter, 0); }
    }
  }

  lemma {:induction false} WalkRowsReturn(rs: seq<Relationship>, rows: seq<Relationship>, depth: int, e: Relationship)
    requires depth > 0
    ensures e in WalkRows(rs, rows, depth) <==>
            e in rows || exists r :: r in rows && InTree(rs, r.invitee, depth - 1, e)
    decreases depth, |rows|
  {
    if rows != [] {
      WalkReturnsTree(rs, rows[0].invitee, depth - 1, e);
      WalkRowsReturn(rs, rows[1..], depth, e);
      assert forall r :: r in rows <==> r == rows[0] || r in rows[1..];
    }
  }

  // ---------- Each once ----------

  predicate NoRepeat<T(==)>(s: seq<T>) { forall i, j :: 0 <= i < j < |s| ==> s[i] != s[j] }

  lemma NoRepeatConcat(a: seq<Relationship>, b: seq<Relationship>)
    requires NoRepeat(a) && NoRepeat(b) && forall e :: e in a ==> e !in b
    ensures NoRepeat(a + b)
  {
    var s := a + b;
    forall i, j | 0 <= i < j < |s| ensures s[i] != s[j] {
      if i < |a| && j >= |a| { assert a[i] in a && b[j - |a|] in b; }
    }
  }

  lemma {:induction false} ReachGoesForward(users: map<Id, nat>, rs: seq<Relationship>, u: Id, v: Id, k: nat)
    requires Forest(users, rs) && Reach(rs, u, v, k) && u in users
    ensures v in users && users[u] <= users[v]
    decreases k
  {
    if k > 0 {
      var last :| last in rs && last.invitee == v && Reach(rs, u, last.inviter, k - 1);
      ReachGoesForward(users, rs, u, last.inviter, k - 1);
    }
  }

  lemma SameInviter(users: map<Id, nat>, rs: seq<Relationship>, r: Relationship, q: Relationship)
    requires Forest(users, rs) && r in rs && q in rs && r.invitee == q.invitee
    ensures r == q
  {}

  /** A sibling is never below its sibling. */
  lemma SiblingNotBelow(users: map<Id, nat>, rs: seq<Relationship>, r: Relationship, q: Relationship, l: nat)
    requires Forest(users, rs) && r in rs && q in rs && r.inviter == q.inviter && l > 0
    ensures !Reach(rs, q.invitee, r.invitee, l)
  {
    if Reach(rs, q.invitee, r.invitee, l) {
      var y :| y in rs && y.invitee == r.invitee && Reach(rs, q.invitee, y.inviter, l - 1);
      SameInviter(users, rs, y, r);
      ReachGoesForward(users, rs, q.invitee, r.inviter, l - 1);
    }
  }

  /** Subtrees of different children of one user share no user. */
  lemma {:induction false} SubtreesAreDisjoint(users: map<Id, nat>, rs: seq<Relationship>, r: Relationship,
      q: Relationship, v: Id, k: nat, l: nat)
    requires Forest(users, rs) && r in rs && q in rs && r != q && r.inviter == q.inviter
    requires Reach(rs, r.invitee, v, k)
    ensures !Reach(rs, q.invitee, v, l)
    decreases k + l
  {
    if Reach(rs, q.invitee, v, l) {
      if k == 0 && l == 0 {
        SameInviter(users, rs, r, q);
      } else if k == 0 {
        SiblingNotBelow(users, rs, r, q, l);
      } else if l == 0 {
        SiblingNotBelow(users, rs, q, r, k);
      } else {
        var x :| x in rs && x.invitee == v && Reach(rs, r.invitee, x.inviter, k - 1);
        var y :| y in rs && y.invitee == v && Reach(rs, q.invitee, y.inviter, l - 1);
        SameInviter(users, rs, x, y);
        SubtreesAreDisjoint(users, rs, r, q, x.inviter, k - 1, l - 1);
      }
    }
  }

  lemma {:induction false} ChildrenNoRepeat(users: map<Id, nat>, rs: seq<Relationship>, u: Id)
    requires Forest(users, rs)
    ensures NoRepeat(Children(rs, u))
    decreases |rs|
  {
    if rs != [] {
      ForestTail(users, rs);
      ChildrenNoRepeat(users, rs[1..], u);
      ChildrenAre(rs[1..], u);
      assert rs[0] !in rs[1..];
    }
  }

  lemma ForestTail(users: map<Id, nat>, rs: seq<Relationship>)
    requires Forest(users, rs) && rs != []
    ensures Forest(users, rs[1..])
  {}

  /** In a forest the walk returns each row once. */
  lemma {:induction false} WalkReturnsOnce(users: map<Id, nat>, rs: seq<Relationship>, root: Id, depth: int)
    requires Forest(users, rs)
    ensures NoRepeat(Walk(rs, root, depth))
    decreases depth, |rs| + 1
  {
    if depth > 0 {
      ChildrenNoRepeat(users, rs, root);
      ChildrenAre(rs, root);
      WalkRowsOnce(users, rs, Children(rs, root), root, depth);
    }
  }

  lemma {:induction false} WalkRowsOnce(users: map<Id, nat>, rs: seq<Relationship>, rows: seq<Relationship>,
      root: Id, depth: int)
    requires Forest(users, rs) && depth > 0 && NoRepeat(rows)
    requires forall r :: r in rows ==> r in rs && r.inviter == root
    ensures NoRepeat(WalkRows(rs, rows, depth))
    decreases depth, |rows|
  {
    if rows != [] {
      var r := rows[0];
      var sub := Walk(rs, r.invitee, depth - 1);
      var rest := WalkRows(rs, rows[1..], depth);
      assert r in rows;
      WalkReturnsOnce(users, rs, r.invitee, depth - 1);
      WalkRowsOnce(users, rs, rows[1..], root, depth);
      forall e | e in sub ensures e != r && e !in rest { SubtreeApart(users, rs, rows, root, depth, e); }
      RowNotBelowSiblings(users, rs, rows, root, depth);
      NoRepeatConcat([r], sub);
      NoRepeatConcat([r] + sub, rest);
    }
  }

  /** A row below a child of `root` is neither a row of `root` nor below another child. */
  lemma SubtreeApart(users: map<Id, nat>, rs: seq<Relationship>, rows: seq<Relationship>, root: Id, depth: int,
      e: Relationship)
    requires Forest(users, rs) && depth > 0 && rows != [] && NoRepeat(rows)
    requires forall r :: r in rows ==> r in rs && r.inviter == root
    requires e in Walk(rs, rows[0].invitee, depth - 1)
    ensures e != rows[0] && e !in WalkRows(rs, rows[1..], depth)
  {
    var r := rows[0];
    assert r in rows;
    WalkReturnsTree(rs, r.invitee, depth - 1, e);
    var k :| 0 <= k < depth - 1 && Reach(rs, r.invitee, e.inviter, k);
    ReachGoesForward(users, rs, r.invitee, e.inviter, k);
    assert e.inviter != root;
    WalkRowsReturn(rs, rows[1..], depth, e);
    if q :| q in rows[1..] && InTree(rs, q.invitee, depth - 1, e) {
      var l :| 0 <= l < depth - 1 && Reach(rs, q.invitee, e.inviter, l);
      SubtreesAreDisjoint(users, rs, r, q, e.inviter, k, l);
    }
  }

  lemma RowNotBelowSiblings(users: map<Id, nat>, rs: seq<Relationship>, rows: seq<Relationship>, root: Id, depth: int)
    requires Forest(users, rs) && depth > 0 && rows != [] && NoRepeat(rows)
    requires forall r :: r in rows ==> r in rs && r.inviter == root
    ensures rows[0] !in WalkRows(rs, rows[1..], depth)
  {
    var r := rows[0];
    WalkRowsReturn(rs, rows[1..], depth, r);
    if q :| q in rows[1..] && InTree(rs, q.invitee, depth - 1, r) {
      var l :| 0 <= l < depth - 1 && Reach(rs, q.invitee, r.inviter, l);
      ReachGoesForward(users, rs, q.invitee, root, l);
    }
  }

  /** Over every run of the invite system, the depth-d walk returns exactly the tree's rows, each once. */
  lemma TreeWalkIsExact(s: State, es: seq<Event>, root: Id, depth: int, e: Relationship)
    requires Start(s)
    ensures var rs := Run(s, es).relationships;
            NoRepeat(Walk(rs, root, depth)) && (e in Walk(rs, root, depth) <==> InTree(rs, root, depth, e))
  {
    StartIsOk(s);
    RunKeepsInv(s, |s.users|, es);
    WalkReturnsOnce(Run(s, es).users, Run(s, es).relationships, root, depth);
    WalkReturnsTree(Run(s, es).relationships, root, depth, e);
  }
}
