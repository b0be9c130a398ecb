/**
 The rate limiter's service: which windows each action is held to, in the limits and counters
 themselves, and what a call reports.
 */
module RateService {
  import opened Common
  import opened RateLimiter

  datatype RateLimitInfo = RateLimitInfo(limited: bool, limit: nat, remaining: nat)

  /** The hourly limit get_remaining looks at, for the actions it knows. */
  function HourlyLimit(action: Action, l: Limits): Option<nat> {
    match action
    case Post => Some(l.postsPerHour)
    case Follow => Some(l.followsPerHour)
    case Like => Some(l.likesPerHour)
    case Comment => Some(l.commentsPerHour)
    case MediaRead => Some(l.mediaReadPerHour)
    case MediaUpload => Some(l.mediaUploadPerHour)
    case _ => None
  }

  /** The store after k more copies of a hit. */
  function Repeated(c: Store, h: Hit, k: nat): Store { if k == 0 then c else Incr(Repeated(c, h, k - 1), h) }

  lemma {:induction false} RepeatedCounts(c: Store, h: Hit, k: nat)
    ensures CountSeen(Repeated(c, h, k), h) == CountSeen(c, h) + k
    ensures k > 0 ==> Live(Repeated(c, h, k), KeyOf(h), h.at)
  {
    if k > 0 { RepeatedCounts(c, h, k - 1); }
  }

  /** One check's effect on the loop's variables. */
  function Tighten(info: RateLimitInfo, limit: nat, count: nat): RateLimitInfo {
    var remaining := SatSub(limit, count);
    RateLimitInfo(info.limited || count > limit,
                  if remaining < info.remaining then limit else info.limit,
                  if remaining < info.remaining then remaining else info.remaining)
  }

  /** The loop's variables after n checks. */
  function Fold(checks: seq<Check>, counts: seq<nat>, n: nat): RateLimitInfo
    requires n <= |checks| && n <= |counts|
  {
    if n == 0 then RateLimitInfo(false, 0, U32_MAX)
    else Tighten(Fold(checks, counts, n - 1), checks[n - 1].limit, counts[n - 1])
  }

  /** What they mean: limited when some check is exceeded, and then nothing remains; else the tightest check. */
  lemma {:induction false} FoldMeaning(checks: seq<Check>, counts: seq<nat>, n: nat)
    requires n <= |checks| && n <= |counts|
    requires forall i :: 0 <= i < n ==> checks[i].limit <= U32_MAX && counts[i] >= 1
    ensures var info := Fold(checks, counts, n);
            && (info.limited <==> Refused(checks, counts, n))
            && (info.limited ==> info.remaining == 0)
            && (n > 0 ==> Tightest(checks, counts, n, info.remaining, info.limit))
  {
    if n > 0 {
      FoldMeaning(checks, counts, n - 1);
    }
  }

  /** The loop's arithmetic for one check. */
  method Tally(limited: bool, effectiveLimit: nat, minRemaining: nat, limit: nat, count: nat)
    returns (limited': bool, effectiveLimit': nat, minRemaining': nat)
    ensures RateLimitInfo(limited', effectiveLimit', minRemaining')
         == Tighten(RateLimitInfo(limited, effectiveLimit, minRemaining), limit, count)
  {
    limited', effectiveLimit', minRemaining' := limited, effectiveLimit, minRemaining;
    var remaining := if limit < count then 0 else limit - count;
    if remaining < minRemaining {
      minRemaining', effectiveLimit' := remaining, limit;
    }
    if count > limit {
      limited' := true;
    }
  }

  // ---------- The table of windows ----------

  /** The counter of a window already holds `limit` when the script runs. */
  predicate Full(c: Store, user: Id, action: Action, index: nat, at: nat, limit: nat) {
    var k := Key(User(user), action, index);
    limit == 0 || (k in c && at < c[k].expiresAt && c[k].count >= limit)
  }

  /** What check_and_increment reports. */
  ghost predicate Limited(c: Store, user: Id, action: Action, l: Limits, times: seq<Times>)
    requires |times| == |Checks(action, l)|
  {
    var checks := Checks(action, l);
    Refused(checks, CountsSeen(c, HitsOf(User(user), action, checks, times)), |checks|)
  }

  /** Windows in milliseconds, and the life of a new counter. */
  lemma WindowsInMillis(t: nat, c: Store, h: Hit)
    ensures Index(t, Minute) == t / 60000 && Index(t, Hour) == t / 3600000 && Index(t, Day) == t / 86400000
    ensures KeyOf(h) !in c ==>
              Incr(c, h)[KeyOf(h)].expiresAt
              == h.at + (if h.window.Minute? then 60000 else if h.window.Hour? then 3600000 else 86400000)
  {
    SplitDivision(t, 60);
    SplitDivision(t, 3600);
    SplitDivision(t, 86400);
  }

  lemma SplitDivision(t: nat, n: nat)
    requires n == 60 || n == 3600 || n == 86400
    ensures (t / 1000) / n == t / (n * 1000)
  {
    var q := (t / 1000) / n;
    assert t == (t / 1000) * 1000 + t % 1000;
    assert t / 1000 == q * n + (t / 1000) % n;
    if n == 60 { assert 60000 * q <= t < 60000 * (q + 1); }
    else if n == 3600 { assert 3600000 * q <= t < 3600000 * (q + 1); }
    else { assert 86400000 * q <= t < 86400000 * (q + 1); }
  }

  /** One check is exceeded exactly when its counter is full. */
  lemma SeenBeyondIffFull(c: Store, user: Id, action: Action, w: RateWindow, limit: nat, t: Times)
    ensures CountSeen(c, Hit(User(user), action, w, limit, t.read, t.at)) > limit
            <==> Full(c, user, action, Index(t.read, w), t.at, limit)
  {}

  /** An action with one window is limited exactly when that counter is full. */
  lemma OneWindow(c: Store, user: Id, action: Action, l: Limits, check: Check, t: Times)
    requires Checks(action, l) == [check]
    ensures Limited(c, user, action, l, [t]) <==> Full(c, user, action, Index(t.read, check.window), t.at, check.limit)
  {
    var checks := Checks(action, l);
    var hits := HitsOf(User(user), action, checks, [t]);
    var counts := CountsSeen(c, hits);
    assert hits[0] == Hit(User(user), action, check.window, check.limit, t.read, t.at);
    assert counts[0] == CountAt(c, hits, 0) == CountSeen(c, hits[0]);
    SeenBeyondIffFull(c, user, action, check.window, check.limit, t);
  }

  /** The hour's increment leaves the day's counter alone. */
  lemma TwoWindows(c: Store, user: Id, action: Action, l: Limits, hour: nat, day: nat, t: Times, u: Times)
    requires Checks(action, l) == [Check(hour, Hour), Check(day, Day)] && Index(t.read, Hour) != Index(u.read, Day)
    ensures Limited(c, user, action, l, [t, u]) <==>
              || Full(c, user, action, Index(t.read, Hour), t.at, hour)
              || Full(c, user, action, Index(u.read, Day), u.at, day)
  {
    var checks := Checks(action, l);
    var hits := HitsOf(User(user), action, checks, [t, u]);
    var counts := CountsSeen(c, hits);
    var h, d := Hit(User(user), action, Hour, hour, t.read, t.at), Hit(User(user), action, Day, day, u.read, u.at);
    assert hits[0] == h && hits[1] == d;
    assert counts[0] == CountAt(c, hits, 0) == CountSeen(c, h);
    assert StoreAt(c, hits, 1) == Incr(StoreAt(c, hits, 0), hits[0]) == Incr(c, h);
    assert counts[1] == CountAt(c, hits, 1) == CountSeen(Incr(c, h), d);
    SeenBeyondIffFull(c, user, action, Hour, hour, t);
    SeenBeyondIffFull(Incr(c, h), user, action, Day, day, u);
    assert Full(Incr(c, h), user, action, Index(u.read, Day), u.at, day)
      <==> Full(c, user, action, Index(u.read, Day), u.at, day);
  }

  /** How many clock readings a call of the action takes. */
  function Rounds(action: Action): nat { if action.Post? || action.Follow? then 2 else if action.Other? then 0 else 1 }

  /** The hour and the day that one call checks have different numbers. */
  predicate KeysApart(action: Action, times: seq<Times>)
    requires |times| == Rounds(action)
  {
    Rounds(action) == 2 ==> times[0].read / 3600000 != times[1].read / 86400000
  }

  /** They do ever since the first day after the epoch, unless the call lasts 22 times the time since then. */
  lemma KeysAreApart(action: Action, times: seq<Times>)
    requires |times| == Rounds(action)
    requires Rounds(action) == 2 ==> 86400000 <= times[0].read && times[1].read < 23 * times[0].read
    ensures KeysApart(action, times)
  {}

  /** The counter of the hour, or of the day, in which the clock was read. */
  predicate FullHour(c: Store, user: Id, action: Action, t: Times, limit: nat) {
    Full(c, user, action, t.read / 3600000, t.at, limit)
  }

  predicate FullDay(c: Store, user: Id, action: Action, t: Times, limit: nat) {
    Full(c, user, action, t.read / 86400000, t.at, limit)
  }

  /** What each action is held to: some counter of its hour or its day is full. */
  predicate OverLimit(c: Store, user: Id, action: Action, l: Limits, ts: seq<Times>)
    requires |ts| == Rounds(action)
  {
    match action
    case Post => FullHour(c, user, Post, ts[0], l.postsPerHour) || FullDay(c, user, Post, ts[1], l.postsPerDay)
    case Follow =>
      FullHour(c, user, Follow, ts[0], l.followsPerHour) || FullDay(c, user, Follow, ts[1], l.followsPerDay)
    case Unfollow => FullDay(c, user, Unfollow, ts[0], l.unfollowsPerDay)
    case Like => FullHour(c, user, Like, ts[0], l.likesPerHour)
    case Comment => FullHour(c, user, Comment, ts[0], l.commentsPerHour)
    case Login => FullHour(c, user, Login, ts[0], l.loginAttemptsPerHour)
    case Feed => FullHour(c, user, Feed, ts[0], l.feedRequestsPerHour)
    case Notifications => FullHour(c, user, Notifications, ts[0], l.notificationsPerHour)
    case Search => FullHour(c, user, Search, ts[0], l.searchRequestsPerHour)
    case MediaRead => FullHour(c, user, MediaRead, ts[0], l.mediaReadPerHour)
    case MediaUpload => FullHour(c, user, MediaUpload, ts[0], l.mediaUploadPerHour)
    case Moderation => FullHour(c, user, Moderation, ts[0], l.moderationActionsPerHour)
    case Other(_) => false
  }

  lemma HourlyIffOver(c: Store, user: Id, action: Action, l: Limits, ts: seq<Times>)
    requires Rounds(action) == 1 && !action.Unfollow? && |ts| == 1
    ensures |Checks(action, l)| == 1
    ensures Limited(c, user, action, l, ts) <==> OverLimit(c, user, action, l, ts)
  {
    SplitDivision(ts[0].read, 3600);
    OneWindow(c, user, action, l, Checks(action, l)[0], ts[0]);
    assert ts == [ts[0]];
  }

  /** The loop over the action's checks reports limited exactly when one of these counters is full. */
  lemma LimitedIffOver(c: Store, user: Id, action: Action, l: Limits, ts: seq<Times>)
    requires |ts| == Rounds(action) && KeysApart(action, ts)
    ensures |Checks(action, l)| == Rounds(action)
    ensures Limited(c, user, action, l, ts) <==> OverLimit(c, user, action, l, ts)
  {
    if Rounds(action) == 2 {
      SplitDivision(ts[0].read, 3600);
      SplitDivision(ts[1].read, 86400);
      TwoWindows(c, user, action, l, Checks(action, l)[0].limit, Checks(action, l)[1].limit, ts[0], ts[1]);
      assert ts == [ts[0], ts[1]];
    } else if action.Unfollow? {
      SplitDivision(ts[0].read, 86400);
      OneWindow(c, user, action, l, Check(l.unfollowsPerDay, Day), ts[0]);
      assert ts == [ts[0]];
    } else if !action.Other? {
      HourlyIffOver(c, user, action, l, ts);
    }
  }

  lemma RefusedIffOver(c: Store, user: Id, action: Action, l: Limits, times: seq<Times>)
    requires |times| == |Checks(action, l)|
    ensures |times| == Rounds(action)
    ensures KeysApart(action, times) ==>
              (Refused(Checks(action, l), CountsSeen(c, HitsOf(User(user), action, Checks(action, l), times)), |times|)
               <==> OverLimit(c, user, action, l, times))
  {
    if KeysApart(action, times) { LimitedIffOver(c, user, action, l, times); }
  }

  /** An action the limiter does not know is never limited and charges nothing. */
  lemma UnknownActions(c: Store, user: Id, text: string, l: Limits)
    ensures Checks(Other(text), l) == [] && !Limited(c, user, Other(text), l, [])
    ensures IncrAll(c, HitsOf(User(user), Other(text), Checks(Other(text), l), [])) == c
  {}

  /** get_remaining looks at the hour window that a call of the same action charges, for six of the actions. */
  lemma RemainingIsOfTheHour(action: Action, l: Limits)
    ensures HourlyLimit(action, l).Some? ==>
              Checks(action, l) != [] && Checks(action, l)[0] == Check(HourlyLimit(action, l).value, Hour)
    ensures HourlyLimit(action, l).Some? <==>
              || action.Post? || action.Follow? || action.Like? || action.Comment?
              || action.MediaRead? || action.MediaUpload?
  {}

  // ---------- The service ----------

  class Limiter {
    var counters: Store

    /** incr_with_ttl: the script run by the store. */
    method IncrWithTtl(h: Hit) returns (count: nat)
      modifies this
      ensures counters == Incr(old(counters), h) && count == CountSeen(old(counters), h)
    {
      var k := Key(h.subject, h.action, (h.read / 1000) / Seconds(h.window));
      count := if k in counters && h.at < counters[k].expiresAt then counters[k].count + 1 else 1;
      if count == 1 {
        counters := counters[k := Counter(1, h.at + Seconds(h.window) * 1000, h.window)];
      } else {
        counters := counters[k := counters[k].(count := count)];
      }
    }

    /** One round of the loop, against the specified hits and counts. */
    method Charge(h: Hit, ghost c: Store, ghost hits: seq<Hit>, ghost n: nat) returns (count: nat)
      requires n < |hits| && hits[n] == h && counters == StoreAt(c, hits, n)
      modifies this
      ensures counters == StoreAt(c, hits, n + 1) && count == CountAt(c, hits, n)
    {
      count := IncrWithTtl(h);
    }

    /** The loop of check_and_increment over the windows to check. */
    method RunChecks(user: Id, action: Action, checks: seq<Check>, times: seq<Times>, ghost hits: seq<Hit>,
                     ghost counts: seq<nat>)
      returns (info: RateLimitInfo)
      requires |hits| == |checks| == |counts| == |times|
      requires forall i :: 0 <= i < |checks| ==>
                 hits[i] == Hit(User(user), action, checks[i].window, checks[i].limit, times[i].read, times[i].at)
      requires forall i :: 0 <= i < |checks| ==> counts[i] == CountAt(counters, hits, i)
      modifies this
      ensures counters == StoreAt(old(counters), hits, |hits|)
      ensures info == Fold(checks, counts, |checks|)
    {
      var minRemaining, effectiveLimit, limited := U32_MAX, 0, false;
      for n := 0 to |checks|
        invariant counters == StoreAt(old(counters), hits, n)
        invariant RateLimitInfo(limited, effectiveLimit, minRemaining) == Fold(checks, counts, n)
      {
        var Check(limit, window) := checks[n];
        var h := Hit(User(user), action, window, limit, times[n].read, times[n].at);
        var count := Charge(h, old(counters), hits, n);
        limited, effectiveLimit, minRemaining := Tally(limited, effectiveLimit, minRemaining, limit, count);
      }
      return RateLimitInfo(limited, effectiveLimit, minRemaining);
    }

    /** check_and_increment: charges every window of the action, and reports the tightest one. */
    method CheckAndIncrement(user: Id, action: Action, limits: Limits, times: seq<Times>) returns (info: RateLimitInfo)
      requires forall i :: 0 <= i < |Checks(action, limits)| ==> Checks(action, limits)[i].limit <= U32_MAX
      requires |times| == |Checks(action, limits)|
      modifies this
      ensures var checks := Checks(action, limits);
              var hits := HitsOf(User(user), action, checks, times);
              var counts := CountsSeen(old(counters), hits);
              && counters == IncrAll(old(counters), hits)
              && (info.limited <==> Refused(checks, counts, |checks|))
              && (info.limited ==> info.remaining == 0)
              && (if checks == [] then info == RateLimitInfo(false, 0, 0)
                  else Tightest(checks, counts, |checks|, info.remaining, info.limit))
      ensures |times| == Rounds(action)
      ensures KeysApart(action, times) ==> (info.limited <==> OverLimit(old(counters), user, action, limits, times))
    {
      var checks := Checks(action, limits);
      ghost var hits := HitsOf(User(user), action, checks, times);
      ghost var counts := CountsSeen(counters, hits);
      RefusedIffOver(counters, user, action, limits, times);
      if checks == [] { return RateLimitInfo(false, 0, 0); }
      FoldMeaning(checks, counts, |checks|);
      info := RunChecks(user, action, checks, times, hits, counts);
    }

    /** check_and_increment_ip: true when the request should be rejected. */
    method CheckAndIncrementIp(ip: string, action: Action, limit: nat, window: RateWindow, t: Times)
      returns (rejected: bool)
      modifies this
      ensures var h := Hit(Ip(ip), action, window, limit, t.read, t.at);
              counters == Incr(old(counters), h) && (rejected <==> !Admits(old(counters), h))
    {
      var count := IncrWithTtl(Hit(Ip(ip), action, window, limit, t.read, t.at));
      return count > limit;
    }

    /** get_remaining: how many more checks of the hour would pass now; nothing for actions it does not list. */
    method GetRemaining(user: Id, action: Action, limits: Limits, t: Times) returns (r: nat)
      ensures HourlyLimit(action, limits).None? ==> r == 0
      ensures HourlyLimit(action, limits).Some? ==>
                var h := Hit(User(user), action, Hour, HourlyLimit(action, limits).value, t.read, t.at);
                forall k: nat :: Admits(Repeated(counters, h, k), h) <==> k < r
    {
      if HourlyLimit(action, limits).None? { return 0; }
      var limit := HourlyLimit(action, limits).value;
      var k := Key(User(user), action, Index(t.read, Hour));
      var count := if k in counters && t.at < counters[k].expiresAt then counters[k].count else 0;
      r := if limit < count then 0 else limit - count;
      ghost var h := Hit(User(user), action, Hour, limit, t.read, t.at);
      forall k: nat ensures Admits(Repeated(counters, h, k), h) <==> k < r { RepeatedCounts(counters, h, k); }
    }
  }
}
