/**
 What a delay between reading the clock and running the script can do: at the edge of a window
 a late script finds its counter expired and starts over under the old key.
 */
module RateEdge {
  import opened Common
  import opened RateLimiter

  /** The start of hour 24, and the length of an hour. */
  const T := 86400000
  const H := 3600000

  function Likes(user: Id, limit: nat): Request { Request(User(user), Like, [Check(limit, Hour)]) }

  function LikeAt(user: Id, limit: nat, read: nat, at: nat): Hit { Hit(User(user), Like, Hour, limit, read, at) }

  function RunOf(ids: seq<Id>, times: seq<Times>): seq<Round>
    requires |ids| == |times|
  {
    seq(|ids|, i requires 0 <= i < |ids| => Round(ids[i], 0, times[i].read, times[i].at))
  }

  predicate Distinct(ids: seq<Id>) { forall i, j :: 0 <= i < j < |ids| ==> ids[i] != ids[j] }

  /** One like per request, at the given times. */
  lemma LikesAreARun(user: Id, limit: nat, reqs: Requests, ids: seq<Id>, times: seq<Times>)
    requires |ids| == |times| && forall i :: 0 <= i < |ids| ==> ids[i] in reqs && reqs[ids[i]] == Likes(user, limit)
    requires forall i :: 0 <= i < |times| ==> T <= times[i].read <= times[i].at <= times[i].read + H
    requires forall i, j :: 0 <= i < j < |times| ==> times[i].at <= times[j].at
    ensures IsRun(reqs, RunOf(ids, times))
    ensures Hits(reqs, RunOf(ids, times)) ==
            seq(|ids|, i requires 0 <= i < |ids| => LikeAt(user, limit, times[i].read, times[i].at))
  {
    var hits := Hits(reqs, RunOf(ids, times));
    forall i | 0 <= i < |hits| ensures Timely(hits[i]) { IndexBounds(times[i].read, Hour); }
  }

  /** When every like is within the limit by its place, every request is let through. */
  lemma PlacedLikesPass(user: Id, limit: nat, reqs: Requests, ids: seq<Id>, times: seq<Times>, r: Id)
    requires |ids| == |times| && Distinct(ids) && r in ids
    requires forall i :: 0 <= i < |ids| ==> ids[i] in reqs && reqs[ids[i]] == Likes(user, limit)
    requires var run := RunOf(ids, times);
             && IsRun(reqs, run)
             && forall i :: 0 <= i < |run| ==> Place(Hits(reqs, run)[..i], Hits(reqs, run)[i]) <= limit
    ensures LetThrough(reqs, RunOf(ids, times), r)
  {
    var run := RunOf(ids, times);
    var i :| 0 <= i < |ids| && ids[i] == r;
    assert run[i].request == r && run[i].check == 0;
    assert Made(run, r, 0);
    LetThroughIff(reqs, run, r);
  }

  lemma CountingNext(hits: seq<Hit>, n: nat, q: Quota)
    requires n < |hits|
    ensures Counting(hits[..n + 1], q) ==
            if QuotaOf(hits[n]) == q then Some(Counted(Counting(hits[..n], q), hits[n])) else Counting(hits[..n], q)
  {
    assert hits[..n + 1] == hits[..n] + [hits[n]];
    CountingAfterHit(hits[..n], hits[n], q);
  }

  /**
   Two requests pass under one hourly limit of one: the second reads the clock in the window and
   runs as its counter expires.
   */
  lemma LateRoundGetsThrough(user: Id, one: Id, two: Id)
    requires one != two
    ensures exists reqs, run, q ::
              && IsRun(reqs, run) && LetThroughIn(reqs, run, q) == {one, two}
              && forall i :: 0 <= i < |run| ==> QuotaOf(Hits(reqs, run)[i]) == q && Hits(reqs, run)[i].limit == 1
  {
    var reqs := map[one := Likes(user, 1), two := Likes(user, 1)];
    var ids, times := [one, two], [Times(T, T), Times(T + H - 1, T + H)];
    var run := RunOf(ids, times);
    LikesAreARun(user, 1, reqs, ids, times);
    var hits := Hits(reqs, run);
    var q := QuotaOf(hits[0]);
    assert QuotaOf(hits[1]) == q;
    assert hits[..0] == [] && Counting([], q) == None;
    CountingNext(hits, 0, q);
    assert Counting(hits[..1], q) == Some(Count(T, 1));
    PlacedLikesPass(user, 1, reqs, ids, times, one);
    PlacedLikesPass(user, 1, reqs, ids, times, two);
    BothMarked(reqs, run, q, one, two);
  }

  lemma BothMarked(reqs: Requests, run: seq<Round>, q: Quota, one: Id, two: Id)
    requires AllKnown(reqs, run) && |run| == 2 && run[0].request == one && run[1].request == two
    requires CountsFor(reqs, run, q, 0) && CountsFor(reqs, run, q, 1)
    ensures LetThroughIn(reqs, run, q) == {one, two}
  {
    var marks := Marks(reqs, run, q);
    assert Marked(run, marks, 1) == {one};
    assert Marked(run, marks, 2) == {one, two};
  }

  /** Six likes around the end of hour 24: two in it, two late for it, two in hour 25. */
  function EdgeTimes(): seq<Times> {
    [Times(T, T), Times(T + H - 1, T + H - 1), Times(T + H - 1, T + H), Times(T + H - 1, T + H),
     Times(T + H, T + H), Times(T + H, T + H)]
  }

  lemma EdgePlaces(user: Id, hits: seq<Hit>)
    requires |hits| == 6
    requires forall i :: 0 <= i < 6 ==> hits[i] == LikeAt(user, 2, EdgeTimes()[i].read, EdgeTimes()[i].at)
    ensures forall i :: 0 <= i < 6 ==> Place(hits[..i], hits[i]) <= 2
  {
    var q, q' := QuotaOf(hits[0]), QuotaOf(hits[4]);
    assert q.index == 24 && q'.index == 25;
    assert QuotaOf(hits[1]) == QuotaOf(hits[2]) == QuotaOf(hits[3]) == q && QuotaOf(hits[5]) == q';
    assert hits[..0] == [];
    CountingNext(hits, 0, q);
    CountingNext(hits, 1, q);
    assert Counting(hits[..2], q) == Some(Count(T, 2));
    CountingNext(hits, 2, q);
    assert Counting(hits[..3], q) == Some(Count(T + H, 1));
    CountingNext(hits, 0, q');
    CountingNext(hits, 1, q');
    CountingNext(hits, 2, q');
    CountingNext(hits, 3, q');
    assert Counting(hits[..4], q') == None;
    CountingNext(hits, 4, q');
    assert Counting(hits[..5], q') == Some(Count(T + H, 1));
  }

  /** Five of them pass within one hour under an hourly limit of two. */
  lemma LateRoundsBreakInterval(user: Id, ids: seq<Id>)
    requires |ids| == 6 && Distinct(ids)
    ensures exists reqs, run ::
              && IsRun(reqs, run) && (forall i :: 0 <= i < |run| ==> Hits(reqs, run)[i].limit == 2)
              && |LetThroughSince(reqs, run, User(user), Like, Hour, T + H - 1)| >= 5
  {
    var reqs := map r | r in ids :: Likes(user, 2);
    var run := RunOf(ids, EdgeTimes());
    LikesAreARun(user, 2, reqs, ids, EdgeTimes());
    forall i | 1 <= i < 6 ensures ids[i] in LetThroughSince(reqs, run, User(user), Like, Hour, T + H - 1) {
      EdgeInSpan(user, reqs, ids, i);
    }
    FiveOf(ids, LetThroughSince(reqs, run, User(user), Like, Hour, T + H - 1));
  }

  lemma EdgeInSpan(user: Id, reqs: Requests, ids: seq<Id>, i: nat)
    requires |ids| == 6 && Distinct(ids) && 1 <= i < 6
    requires forall j :: 0 <= j < |ids| ==> ids[j] in reqs && reqs[ids[j]] == Likes(user, 2)
    ensures AllKnown(reqs, RunOf(ids, EdgeTimes()))
    ensures ids[i] in LetThroughSince(reqs, RunOf(ids, EdgeTimes()), User(user), Like, Hour, T + H - 1)
  {
    var run := RunOf(ids, EdgeTimes());
    LikesAreARun(user, 2, reqs, ids, EdgeTimes());
    EdgePlaces(user, Hits(reqs, run));
    PlacedLikesPass(user, 2, reqs, ids, EdgeTimes(), ids[i]);
    assert run[i].request == ids[i] && InSpan(Hits(reqs, run)[i], User(user), Like, Hour, T + H - 1);
  }

  lemma FiveOf(ids: seq<Id>, some: set<Id>)
    requires |ids| == 6 && Distinct(ids) && forall i :: 1 <= i < 6 ==> ids[i] in some
    ensures |some| >= 5
  {
    var five := {ids[1], ids[2], ids[3], ids[4], ids[5]};
    assert |five| == 5;
    SmallerSet(five, some);
  }
}
