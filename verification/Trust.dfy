/**
 Trust scores: points, flags, strikes, bans and the trust level derived from them. A run is
 any sequence of the operations the handlers issue on one user's row.
 */
module Trust {
  import opened Common

  datatype Level = New | Basic | Trusted | Verified

  function Num(l: Level): nat {
    match l
    case New => 0
    case Basic => 1
    case Trusted => 2
    case Verified => 3
  }

  datatype Score = Score(
    level: Level, points: int, ageDays: int, posts: int, comments: int, likes: int, followers: int,
    flags: int, strikes: int, bannedUntil: Option<int>)

  const Fresh := Score(New, 0, 0, 0, 0, 0, 0, 0, 0, None)

  /** The level the current metrics justify. */
  function Earned(s: Score): Level {
    if s.strikes >= 3 then New
    else if s.ageDays >= 90 && s.posts >= 50 && s.points >= 200 && s.flags < 3 then Trusted
    else if s.ageDays >= 7 && s.posts >= 5 && s.points >= 20 && s.flags < 5 then Basic
    else New
  }

  function Recalculated(s: Score): Score { s.(level := Earned(s)) }

  datatype Activity =
    | PostCreated | CommentCreated | LikeReceived | FollowerGained | FollowerLost
    | FlagReceived | ContentRemoved | Unknown

  function Delta(a: Activity): int {
    match a
    case PostCreated => 5
    case CommentCreated => 2
    case LikeReceived => 1
    case FollowerGained => 3
    case FollowerLost => -1
    case FlagReceived => -10
    case ContentRemoved => -25
    case Unknown => 0
  }

  function AtLeastZero(x: int): int { if x < 0 then 0 else x }

  function ActivityStep(s: Score, a: Activity): Score {
    var t := s.(points := AtLeastZero(s.points + Delta(a)),
                posts := s.posts + (if a.PostCreated? then 1 else 0),
                comments := s.comments + (if a.CommentCreated? then 1 else 0),
                likes := s.likes + (if a.LikeReceived? then 1 else 0),
                followers := s.followers + (if a.FollowerGained? then 1 else 0));
    if Delta(a) >= 5 || Delta(a) <= -5 then Recalculated(t) else t
  }

  const DAY: int := 86400

  function BanDays(strikes: int): int {
    if strikes == 3 then 7 else if strikes == 4 then 30 else 365
  }

  function StrikeStep(s: Score, now: int): Score {
    var t := s.(strikes := s.strikes + 1, flags := s.flags + 1, points := AtLeastZero(s.points - 50));
    Recalculated(if t.strikes >= 3 then t.(bannedUntil := Some(now + BanDays(t.strikes) * DAY), level := New) else t)
  }

  function FlagStep(s: Score, now: int): Score {
    var t := s.(flags := s.flags + 1, points := AtLeastZero(s.points - 10));
    if t.flags >= 10 && t.flags % 10 == 0 then StrikeStep(t, now) else Recalculated(t)
  }

  /** What the handlers and the hourly job do to a row. */
  datatype Event =
    | Act(activity: Activity)
    | Flag(now: int)
    | InviteUsed
    | Age(days: int)

  /** follower_lost and flag_received are defined but no handler records them. */
  predicate Issued(e: Event) {
    e.Act? ==> !e.activity.FollowerLost? && !e.activity.FlagReceived?
  }

  function Apply(s: Score, e: Event): Score {
    match e
    case Act(a) => ActivityStep(s, a)
    case Flag(now) => FlagStep(s, now)
    case InviteUsed => s.(points := s.points + 10)
    case Age(days) => if days >= s.ageDays then s.(ageDays := days) else s
  }

  function Run(s: Score, es: seq<Event>): Score
    decreases |es|
  {
    if es == [] then s else Run(Apply(s, es[0]), es[1..])
  }

  // ---------- Stored trust never exceeds earned trust ----------

  /** More points, posts and age, and no more flags or strikes, never justify less. */
  lemma EarnedIsMonotone(s: Score, t: Score)
    requires s.ageDays <= t.ageDays && s.posts <= t.posts && s.points <= t.points && t.flags <= s.flags
             && t.strikes <= s.strikes
    ensures Num(Earned(s)) <= Num(Earned(t))
  {}

  predicate NotOverstated(s: Score) { Num(s.level) <= Num(Earned(s)) && s.points >= 0 }

  lemma ApplyNotOverstated(s: Score, e: Event)
    requires NotOverstated(s) && Issued(e)
    ensures NotOverstated(Apply(s, e))
  {
    if !(e.Flag? || (e.Act? && e.activity.ContentRemoved?)) {
      EarnedIsMonotone(s, Apply(s, e));
    }
  }

  lemma {:induction false} StoredNeverExceedsEarned(s: Score, es: seq<Event>)
    requires NotOverstated(s) && forall i :: 0 <= i < |es| ==> Issued(es[i])
    ensures NotOverstated(Run(s, es))
    decreases |es|
  {
    if es != [] {
      ApplyNotOverstated(s, es[0]);
      StoredNeverExceedsEarned(Apply(s, es[0]), es[1..]);
    }
  }

  /** The restriction matters: a lost follower takes a point without recalculating. */
  lemma LostFollowerWouldOverstate()
    ensures exists s :: NotOverstated(s) && !NotOverstated(ActivityStep(s, FollowerLost))
  {
    var s := Score(Trusted, 200, 90, 50, 0, 0, 0, 0, 0, None);
    assert NotOverstated(s) && !NotOverstated(ActivityStep(s, FollowerLost));
  }

  // ---------- Strikes in closed form ----------

  function Flags(es: seq<Event>): nat
    decreases |es|
  {
    if es == [] then 0 else (if es[0].Flag? then 1 else 0) + Flags(es[1..])
  }

  /** Strikes after n flags. */
  function StrikesAfter(n: nat): nat { if n == 0 then 0 else (n - 1) / 9 }

  /** The row after n flags, whatever else happened. */
  predicate FlaggedTimes(s: Score, n: nat) {
    && s.strikes == StrikesAfter(n)
    && s.flags == n + s.strikes
    && (s.bannedUntil.Some? <==> n >= 28)
  }

  /** The n-th flag lands on a multiple of ten exactly when it must add a strike. */
  lemma FlagHitsEveryTen(s: Score, n: nat, now: int)
    requires FlaggedTimes(s, n)
    ensures FlaggedTimes(FlagStep(s, now), n + 1)
  {
    var flags := s.flags + 1;
    if n > 0 {
      var k, r := (n - 1) / 9, (n - 1) % 9;
      assert flags == 10 * k + r + 2;
      assert n == 9 * k + r + 1;
    }
  }

  lemma {:induction false} RunFlags(s: Score, n: nat, es: seq<Event>)
    requires FlaggedTimes(s, n)
    ensures FlaggedTimes(Run(s, es), n + Flags(es))
    decreases |es|
  {
    if es != [] {
      if es[0].Flag? {
        FlagHitsEveryTen(s, n, es[0].now);
        RunFlags(Apply(s, es[0]), n + 1, es[1..]);
      } else {
        RunFlags(Apply(s, es[0]), n, es[1..]);
      }
    }
  }

  /**
   After n flags on a fresh row, interleaved with anything else: (n - 1) / 9 strikes and n + strikes
   flags, so no multiple of ten is ever skipped, and the first ban falls on the 28th flag.
   */
  lemma StrikesInClosedForm(es: seq<Event>)
    requires Flags(es) >= 1
    ensures var s := Run(Fresh, es);
            && s.strikes == (Flags(es) - 1) / 9
            && s.flags == Flags(es) + s.strikes
            && (s.bannedUntil.Some? <==> Flags(es) >= 28)
  {
    RunFlags(Fresh, 0, es);
  }

  /** When the flags of a run were recorded. */
  function FlagTimes(es: seq<Event>): seq<int>
    decreases |es|
  {
    if es == [] then [] else (if es[0].Flag? then [es[0].now] else []) + FlagTimes(es[1..])
  }

  /** 7, then 30, then 365 days from the flag that added the k-th strike. */
  function BanEnd(times: seq<int>, k: int): Option<int> {
    if 0 <= 9 * k < |times|
    then Some(times[9 * k] + (if k == 3 then 7 else if k == 4 then 30 else 365) * 86400)
    else None
  }

  /** The row after flags at the given times. */
  predicate BanIs(s: Score, times: seq<int>) {
    FlaggedTimes(s, |times|) && (|times| >= 28 ==> s.bannedUntil == BanEnd(times, s.strikes))
  }

  lemma FlagMovesBan(s: Score, times: seq<int>, now: int)
    requires BanIs(s, times)
    ensures BanIs(FlagStep(s, now), times + [now])
  {
    var n := |times|;
    FlagHitsEveryTen(s, n, now);
    var s' := FlagStep(s, now);
    assert s'.strikes == n / 9;
    if s'.strikes == s.strikes {
      assert s'.bannedUntil == s.bannedUntil;
      if n >= 28 { assert BanEnd(times + [now], s.strikes) == BanEnd(times, s.strikes); }
    } else {
      assert n == 9 * s'.strikes;
      assert (times + [now])[n] == now;
    }
  }

  lemma {:induction false} RunBans(s: Score, times: seq<int>, es: seq<Event>)
    requires BanIs(s, times)
    ensures BanIs(Run(s, es), times + FlagTimes(es))
    decreases |es|
  {
    if es == [] {
      assert times + [] == times;
    } else if es[0].Flag? {
      FlagMovesBan(s, times, es[0].now);
      RunBans(Apply(s, es[0]), times + [es[0].now], es[1..]);
      assert times + FlagTimes(es) == times + [es[0].now] + FlagTimes(es[1..]);
    } else {
      RunBans(Apply(s, es[0]), times, es[1..]);
      assert FlagTimes(es) == FlagTimes(es[1..]);
    }
  }

  /**
   From the 28th flag on a fresh row is banned for 7, then 30, then 365 days, counted from flag 28,
   37, 46 and every ninth after.
   */
  lemma BanInClosedForm(es: seq<Event>)
    requires |FlagTimes(es)| >= 28
    ensures Run(Fresh, es).bannedUntil == BanEnd(FlagTimes(es), (|FlagTimes(es)| - 1) / 9)
    ensures Run(Fresh, es).bannedUntil.Some?
  {
    RunBans(Fresh, [], es);
    assert [] + FlagTimes(es) == FlagTimes(es);
    var s, times := Run(Fresh, es), FlagTimes(es);
    assert BanIs(s, times);
    assert s.strikes == StrikesAfter(|times|) == (|times| - 1) / 9;
  }

  // ---------- What a level takes ----------

  /** The events after which the level is computed anew. */
  predicate Recalculates(e: Event) {
    e.Flag? || e == Act(PostCreated) || e == Act(FlagReceived) || e == Act(ContentRemoved)
  }

  lemma {:induction false} RunLast(s: Score, es: seq<Event>, e: Event)
    ensures Run(s, es + [e]) == Apply(Run(s, es), e)
    decreases |es|
  {
    if es == [] {
      assert [] + [e] == [e] && [e][1..] == [];
    } else {
      RunLast(Apply(s, es[0]), es[1..], e);
      assert (es + [e])[1..] == es[1..] + [e];
    }
  }

  lemma LevelOfRow(s: Score, e: Event)
    ensures var t := Apply(s, e);
            var trusted := t.strikes < 3 && t.ageDays >= 90 && t.posts >= 50 && t.points >= 200 && t.flags < 3;
            var basic := t.strikes < 3 && t.ageDays >= 7 && t.posts >= 5 && t.points >= 20 && t.flags < 5;
            if Recalculates(e)
            then t.level == (if trusted then Trusted else if basic then Basic else New)
            else t.level == s.level
  {}

  /**
   The level of a fresh row after any run: once a flag, a post or a removal recalculates it, 90 days, 50
   posts, 200 points and at most two flags make it Trusted, and 7 days, 5 posts, 20 points and at most
   four flags Basic, where posts and flags are those of the run. No other event moves it.
   */
  lemma LevelLaw(es: seq<Event>, e: Event)
    ensures var t := Run(Fresh, es + [e]);
            var posts, flags := Times(es + [e], PostCreated), Flags(es + [e]);
            if Recalculates(e) then
              && (t.level == Trusted <==> t.ageDays >= 90 && posts >= 50 && t.points >= 200 && flags <= 2)
              && (t.level == Basic <==>
                    && t.ageDays >= 7 && posts >= 5 && t.points >= 20 && flags <= 4
                    && (t.ageDays < 90 || posts < 50 || t.points < 200 || flags > 2))
              && t.level != Verified
            else t.level == Run(Fresh, es).level
  {
    RunLast(Fresh, es, e);
    LevelOfRow(Run(Fresh, es), e);
    RunCounts(Fresh, es + [e]);
    if Flags(es + [e]) >= 1 { StrikesInClosedForm(es + [e]); } else { RunFlags(Fresh, 0, es + [e]); }
  }

  /** In every run the handlers can issue, five flags keep a fresh row at New and three keep it from Trusted. */
  lemma FlagsHoldLevelDown(es: seq<Event>)
    requires forall i :: 0 <= i < |es| ==> Issued(es[i])
    ensures Flags(es) >= 5 ==> Run(Fresh, es).level == New
    ensures Flags(es) >= 3 ==> Run(Fresh, es).level == New || Run(Fresh, es).level == Basic
    ensures Run(Fresh, es).level != Verified
  {
    StoredNeverExceedsEarned(Fresh, es);
    if Flags(es) >= 1 { StrikesInClosedForm(es); }
  }

  // ---------- The ledger ----------

  function Times(es: seq<Event>, a: Activity): nat
    decreases |es|
  {
    if es == [] then 0 else (if es[0] == Act(a) then 1 else 0) + Times(es[1..], a)
  }

  function InvitesUsed(es: seq<Event>): nat
    decreases |es|
  {
    if es == [] then 0 else (if es[0].InviteUsed? then 1 else 0) + InvitesUsed(es[1..])
  }

  /** The four counters count their activities. */
  lemma {:induction false} RunCounts(s: Score, es: seq<Event>)
    ensures var t := Run(s, es);
            && t.posts == s.posts + Times(es, PostCreated) && t.comments == s.comments + Times(es, CommentCreated)
            && t.likes == s.likes + Times(es, LikeReceived) && t.followers == s.followers + Times(es, FollowerGained)
    decreases |es|
  {
    if es != [] { RunCounts(Apply(s, es[0]), es[1..]); }
  }

  /** What an event takes: 1, 10 and 25 for the losses among the activities, 10 for a flag and 50 more for a strike. */
  function Cost(s: Score, e: Event): nat {
    if e.Flag? then (if FlagStep(s, e.now).strikes > s.strikes then 60 else 10)
    else if e == Act(FollowerLost) then 1 else if e == Act(FlagReceived) then 10
    else if e == Act(ContentRemoved) then 25 else 0
  }

  /** What a run takes. */
  function Taken(s: Score, es: seq<Event>): nat
    decreases |es|
  {
    if es == [] then 0 else Cost(s, es[0]) + Taken(Apply(s, es[0]), es[1..])
  }

  lemma {:induction false} TakenCounts(s: Score, es: seq<Event>)
    ensures Taken(s, es) == Times(es, FollowerLost) + 10 * Times(es, FlagReceived) + 25 * Times(es, ContentRemoved)
                            + 10 * Flags(es) + 50 * (Run(s, es).strikes - s.strikes)
    decreases |es|
  {
    if es != [] { TakenCounts(Apply(s, es[0]), es[1..]); }
  }

  /** One event on a row: what it earns less what it takes, or zero when the row cannot pay. */
  lemma OneEntry(s: Score, e: Event)
    requires s.points >= 0
    ensures var earned := if e == Act(PostCreated) then 5 else if e == Act(CommentCreated) then 2
                          else if e == Act(LikeReceived) then 1 else if e == Act(FollowerGained) then 3
                          else if e.InviteUsed? then 10 else 0;
            Apply(s, e).points == if s.points < Cost(s, e) then 0 else s.points + earned - Cost(s, e)
  {}

  lemma {:induction false} RunPays(s: Score, es: seq<Event>)
    requires s.points >= Taken(s, es)
    ensures Run(s, es).points
         == s.points + 5 * Times(es, PostCreated) + 2 * Times(es, CommentCreated) + Times(es, LikeReceived)
            + 3 * Times(es, FollowerGained) + 10 * InvitesUsed(es) - Taken(s, es)
    decreases |es|
  {
    if es != [] {
      OneEntry(s, es[0]);
      RunPays(Apply(s, es[0]), es[1..]);
    }
  }

  /**
   The points of a row that can pay for the run: 5 for a post, 2 for a comment, 1 for a like, 3 for a
   follower and 10 for a used invite, less what the run takes. A loss the row cannot pay leaves zero.
   */
  lemma PointsLedger(s: Score, es: seq<Event>, e: Event)
    requires s.points >= Taken(s, es)
    ensures Run(s, es).points
         == s.points + 5 * Times(es, PostCreated) + 2 * Times(es, CommentCreated) + Times(es, LikeReceived)
            + 3 * Times(es, FollowerGained) + 10 * InvitesUsed(es) - Taken(s, es)
    ensures Taken(s, es) == Times(es, FollowerLost) + 10 * Times(es, FlagReceived) + 25 * Times(es, ContentRemoved)
                            + 10 * Flags(es) + 50 * (Run(s, es).strikes - s.strikes)
    ensures Run(s, es).points < Cost(Run(s, es), e) ==> Run(s, es + [e]).points == 0
  {
    RunPays(s, es);
    TakenCounts(s, es);
    OneEntry(Run(s, es), e);
    RunLast(s, es, e);
  }

  /** The account age is the largest one recorded. */
  lemma {:induction false} AgeIsTheLargest(s: Score, es: seq<Event>)
    ensures Run(s, es).ageDays >= s.ageDays
    ensures forall i :: 0 <= i < |es| && es[i].Age? ==> es[i].days <= Run(s, es).ageDays
    ensures Run(s, es).ageDays == s.ageDays || Age(Run(s, es).ageDays) in es
    decreases |es|
  {
    if es != [] {
      var s' := Apply(s, es[0]);
      AgeIsTheLargest(s', es[1..]);
      forall i | 0 <= i < |es| && es[i].Age? ensures es[i].days <= Run(s, es).ageDays {
        if i > 0 { assert es[1..][i - 1] == es[i]; }
      }
    }
  }

  // ---------- The ban ratchet ----------

  /** Flags are recorded at times that never run backwards. */
  predicate Timed(clock: int, es: seq<Event>)
    decreases |es|
  {
    es == [] || (if es[0].Flag? then clock <= es[0].now && Timed(es[0].now, es[1..]) else Timed(clock, es[1..]))
  }

  predicate BanOk(s: Score, clock: int) {
    && s.strikes >= 0
    && (s.bannedUntil.Some? ==> s.strikes >= 3 && s.bannedUntil.value <= clock + BanDays(s.strikes) * DAY)
  }

  predicate NotEarlier(a: Option<int>, b: Option<int>) {
    a.Some? ==> b.Some? && a.value <= b.value
  }

  lemma {:induction false} BanNeverMovesEarlier(s: Score, clock: int, es: seq<Event>)
    requires BanOk(s, clock) && Timed(clock, es)
    ensures NotEarlier(s.bannedUntil, Run(s, es).bannedUntil)
    decreases |es|
  {
    if es != [] {
      if es[0].Flag? {
        BanNeverMovesEarlier(Apply(s, es[0]), es[0].now, es[1..]);
      } else {
        BanNeverMovesEarlier(Apply(s, es[0]), clock, es[1..]);
      }
    }
  }

  /** From the third strike on, the level stays New through everything the handlers do. */
  lemma {:induction false} ThreeStrikesStayNew(s: Score, es: seq<Event>)
    requires s.strikes >= 3 && s.level == New
    ensures Run(s, es).strikes >= 3 && Run(s, es).level == New && Earned(Run(s, es)) == New
    decreases |es|
  {
    if es != [] { ThreeStrikesStayNew(Apply(s, es[0]), es[1..]); }
  }

  /** So a fresh row that was flagged 28 times is New, whatever else its user does. */
  lemma TwentyEightFlagsMeanNew(es: seq<Event>)
    requires Flags(es) >= 28
    ensures Run(Fresh, es).level == New
  {
    BannedIsNew(Fresh, es);
    StrikesInClosedForm(es);
  }

  lemma {:induction false} BannedIsNew(s: Score, es: seq<Event>)
    requires s.strikes >= 3 ==> s.level == New
    ensures Run(s, es).strikes >= 3 ==> Run(s, es).level == New
    decreases |es|
  {
    if es != [] { BannedIsNew(Apply(s, es[0]), es[1..]); }
  }

  // ---------- The service ----------

  /** One row of user_trust_scores. */
  class TrustRow {
    var level: Level
    var points: int
    var ageDays: int
    var posts: int
    var comments: int
    var likes: int
    var followers: int
    var flags: int
    var strikes: int
    var bannedUntil: Option<int>

    ghost function Snapshot(): Score
      reads this
    {
      Score(level, points, ageDays, posts, comments, likes, followers, flags, strikes, bannedUntil)
    }

    method Recalculate()
      modifies this`level
      ensures Snapshot() == Recalculated(old(Snapshot()))
    {
      if strikes >= 3 {
        level := New;
      } else if ageDays >= 90 && posts >= 50 && points >= 200 && flags < 3 {
        level := Trusted;
      } else if ageDays >= 7 && posts >= 5 && points >= 20 && flags < 5 {
        level := Basic;
      } else {
        level := New;
      }
    }

    method RecordActivity(a: Activity)
      modifies this
      ensures Snapshot() == ActivityStep(old(Snapshot()), a)
    {
      var delta := Delta(a);
      points := if points + delta < 0 then 0 else points + delta;
      match a {
        case PostCreated => posts := posts + 1;
        case CommentCreated => comments := comments + 1;
        case LikeReceived => likes := likes + 1;
        case FollowerGained => followers := followers + 1;
        case _ =>
      }
      if delta >= 5 || delta <= -5 {
        Recalculate();
      }
    }

    method AddStrike(now: int) returns (count: int)
      modifies this
      ensures Snapshot() == StrikeStep(old(Snapshot()), now) && count == strikes
    {
      strikes := strikes + 1;
      flags := flags + 1;
      points := if points - 50 < 0 then 0 else points - 50;
      count := strikes;
      if count >= 3 {
        var days := match count { case 3 => 7 case 4 => 30 case _ => 365 };
        bannedUntil := Some(now + days * DAY);
        level := New;
      }
      Recalculate();
    }

    method RecordFlag(now: int)
      modifies this
      ensures Snapshot() == FlagStep(old(Snapshot()), now)
    {
      flags := flags + 1;
      points := if points - 10 < 0 then 0 else points - 10;
      if flags >= 10 && flags % 10 == 0 {
        var _ := AddStrike(now);
      } else {
        Recalculate();
      }
    }
  }
}
