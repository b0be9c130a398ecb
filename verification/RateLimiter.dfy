/**
 The fixed-window rate limiter: counters in a store with expiry, incremented by an atomic
 script that sets the time to live on the first increment only. A round reads the clock to
 form its key and runs its script later, so it has two times. Times are in milliseconds on
 one clock that does not run backwards.
 */
module RateLimiter {
  import opened Common

  datatype RateWindow = Minute | Hour | Day

  function Seconds(w: RateWindow): nat {
    match w
    case Minute => 60
    case Hour => 3600
    case Day => 86400
  }

  function Millis(w: RateWindow): nat { Seconds(w) * 1000 }

  /** current_window: whole seconds divided by the window length. */
  function Index(now: nat, w: RateWindow): nat { (now / 1000) / Seconds(w) }

  datatype Subject = User(id: Id) | Ip(text: string)

  datatype Action =
    | Post | Follow | Unfollow | Like | Comment | Login | Feed | Notifications
    | Search | MediaRead | MediaUpload | Moderation | Other(text: string)

  /** The key names subject, action and window number, but not which window it counts. */
  datatype Key = Key(subject: Subject, action: Action, index: nat)

  /** `window` is history: the window of the increment that created the counter. */
  datatype Counter = Counter(count: nat, expiresAt: int, window: RateWindow)

  type Store = map<Key, Counter>

  predicate Live(c: Store, k: Key, now: nat) { k in c && now < c[k].expiresAt }

  /** One check of one window: its key is formed at `read`, its script runs at `at`. */
  datatype Hit = Hit(subject: Subject, action: Action, window: RateWindow, limit: nat, read: nat, at: nat)

  function KeyOf(h: Hit): Key { Key(h.subject, h.action, Index(h.read, h.window)) }

  /** The script: increment, and set the time to live when the counter is new. */
  function Incr(c: Store, h: Hit): Store {
    var k := KeyOf(h);
    var count := (if Live(c, k, h.at) then c[k].count else 0) + 1;
    if count == 1 then c[k := Counter(1, h.at + Millis(h.window), h.window)] else c[k := c[k].(count := count)]
  }

  function CountSeen(c: Store, h: Hit): nat { Incr(c, h)[KeyOf(h)].count }

  predicate Admits(c: Store, h: Hit) { CountSeen(c, h) <= h.limit }

  /** The store after `hits`, oldest first. */
  function After(hits: seq<Hit>): Store {
    if hits == [] then map[] else Incr(After(hits[..|hits| - 1]), hits[|hits| - 1])
  }

  // ---------- Quotas ----------

  /** The quota a hit is charged to: one subject and action in one window. */
  datatype Quota = Quota(subject: Subject, action: Action, window: RateWindow, index: nat)

  function QuotaOf(h: Hit): Quota { Quota(h.subject, h.action, h.window, Index(h.read, h.window)) }

  /** How many hits were charged to `q`. */
  function Used(hits: seq<Hit>, q: Quota): nat {
    if hits == [] then 0
    else Used(hits[..|hits| - 1], q) + (if QuotaOf(hits[|hits| - 1]) == q then 1 else 0)
  }

  /** When the first of them ran. */
  function FirstAt(hits: seq<Hit>, q: Quota): Option<nat> {
    if hits == [] then None else
    var front, h := hits[..|hits| - 1], hits[|hits| - 1];
    if FirstAt(front, q).None? && QuotaOf(h) == q then Some(h.at) else FirstAt(front, q)
  }

  datatype Count = Count(start: nat, count: nat)

  /** A count of `q` starts when it is first charged and starts over one window length later. */
  function Counting(hits: seq<Hit>, q: Quota): Option<Count> {
    if hits == [] then None else
    var front, h := hits[..|hits| - 1], hits[|hits| - 1];
    if QuotaOf(h) == q then Some(Counted(Counting(front, q), h)) else Counting(front, q)
  }

  function Counted(c: Option<Count>, h: Hit): Count {
    if c.Some? && h.at < c.value.start + Millis(h.window) then c.value.(count := c.value.count + 1) else Count(h.at, 1)
  }

  /** The place of a hit in the count it falls into. */
  function Place(hits: seq<Hit>, h: Hit): nat { Counted(Counting(hits, QuotaOf(h)), h).count }

  /**
   The script runs after the clock was read, within 21 window lengths for every window since the
   epoch: beyond a thousand years by now.
   */
  predicate Timely(h: Hit) {
    && h.read >= 86400000
    && h.read <= h.at <= h.read + 21 * Index(h.read, h.window) * Millis(h.window)
  }

  /** Scripts run one after the other. */
  predicate InOrder(hits: seq<Hit>) {
    && (forall i :: 0 <= i < |hits| ==> Timely(hits[i]))
    && (forall i, j :: 0 <= i < j < |hits| ==> hits[i].at <= hits[j].at)
  }

  lemma IndexBounds(now: nat, w: RateWindow)
    ensures Index(now, w) * Millis(w) <= now < (Index(now, w) + 1) * Millis(w)
  {
    var s := now / 1000;
    assert now == s * 1000 + now % 1000;
    match w
    case Minute => assert s == (s / 60) * 60 + s % 60;
    case Hour => assert s == (s / 3600) * 3600 + s % 3600;
    case Day => assert s == (s / 86400) * 86400 + s % 86400;
  }

  /** When a timely script of window number n runs. */
  lemma TimelyBounds(h: Hit)
    requires Timely(h)
    ensures var n := Index(h.read, h.window);
            n >= 1 && n * Millis(h.window) <= h.at < (22 * n + 1) * Millis(h.window)
  {
    IndexBounds(h.read, h.window);
    match h.window
    case Minute =>
    case Hour =>
    case Day =>
  }

  // ---------- What the counters mean ----------

  /** A counter holds the count of its quota and expires one window length after that count started. */
  ghost predicate EntryOk(c: Store, hits: seq<Hit>, now: nat, k: Key)
    requires k in c
  {
    var e := c[k];
    var m := Millis(e.window);
    && k.index >= 1 && e.count >= 1
    && (k.index + 1) * m <= e.expiresAt < (22 * k.index + 2) * m && e.expiresAt <= now + m
    && Counting(hits, Quota(k.subject, k.action, e.window, k.index)) == Some(Count(e.expiresAt - m, e.count))
  }

  /** A count that still runs has its counter. */
  ghost predicate Tracked(c: Store, hits: seq<Hit>, now: nat, q: Quota) {
    var n := Counting(hits, q);
    n.Some? && now < n.value.start + Millis(q.window) ==>
      var k := Key(q.subject, q.action, q.index);
      k in c && c[k] == Counter(n.value.count, n.value.start + Millis(q.window), q.window)
  }

  ghost predicate Inv(c: Store, hits: seq<Hit>, now: nat) {
    && (forall k {:trigger EntryOk(c, hits, now, k)} :: k in c ==> EntryOk(c, hits, now, k))
    && (forall q {:trigger Tracked(c, hits, now, q)} :: Tracked(c, hits, now, q))
  }

  /**
   Minute, hour and day keys look alike, but a live counter belongs to the window asked for:
   24 n < 22 n + 2 only for n = 0.
   */
  lemma NoLiveAlias(c: Store, hits: seq<Hit>, h: Hit)
    requires Timely(h) && KeyOf(h) in c && EntryOk(c, hits, h.at, KeyOf(h)) && Live(c, KeyOf(h), h.at)
    ensures c[KeyOf(h)].window == h.window
  {
    TimelyBounds(h);
  }

  /** Time passing breaks nothing: a count that ran out is forgotten. */
  lemma Advance(c: Store, hits: seq<Hit>, now: nat, t: nat)
    requires Inv(c, hits, now) && now <= t
    ensures Inv(c, hits, t)
  {
    forall k | k in c ensures EntryOk(c, hits, t, k) { assert EntryOk(c, hits, now, k); }
    forall q ensures Tracked(c, hits, t, q) { assert Tracked(c, hits, now, q); }
  }

  lemma CountingAfterHit(hits: seq<Hit>, h: Hit, q: Quota)
    ensures Counting(hits + [h], q) ==
            if QuotaOf(h) == q then Some(Counted(Counting(hits, q), h)) else Counting(hits, q)
  {
    assert (hits + [h])[..|hits + [h]| - 1] == hits;
  }

  /** The counter a hit sees is its place in the running count. */
  lemma HitSeesPlace(c: Store, hits: seq<Hit>, h: Hit)
    requires Inv(c, hits, h.at) && Timely(h)
    ensures CountSeen(c, h) == Place(hits, h)
    ensures Live(c, KeyOf(h), h.at) <==>
            Counting(hits, QuotaOf(h)).Some? && h.at < Counting(hits, QuotaOf(h)).value.start + Millis(h.window)
  {
    var k := KeyOf(h);
    assert Tracked(c, hits, h.at, QuotaOf(h));
    if Live(c, k, h.at) {
      assert EntryOk(c, hits, h.at, k);
      NoLiveAlias(c, hits, h);
    }
  }

  lemma OtherEntryKept(c: Store, hits: seq<Hit>, h: Hit, k: Key)
    requires k in c && k != KeyOf(h) && EntryOk(c, hits, h.at, k)
    ensures EntryOk(Incr(c, h), hits + [h], h.at, k)
  {
    CountingAfterHit(hits, h, Quota(k.subject, k.action, c[k].window, k.index));
  }

  lemma OwnEntryKept(c: Store, hits: seq<Hit>, h: Hit)
    requires Inv(c, hits, h.at) && Timely(h)
    ensures EntryOk(Incr(c, h), hits + [h], h.at, KeyOf(h))
  {
    var k := KeyOf(h);
    HitSeesPlace(c, hits, h);
    CountingAfterHit(hits, h, QuotaOf(h));
    if Live(c, k, h.at) {
      assert EntryOk(c, hits, h.at, k);
      NoLiveAlias(c, hits, h);
    } else {
      NewCounterSpan(h);
    }
  }

  /** A counter created for window number n expires after that window and before window 22 n + 2. */
  lemma NewCounterSpan(h: Hit)
    requires Timely(h)
    ensures var n, m := Index(h.read, h.window), Millis(h.window);
            n >= 1 && (n + 1) * m <= h.at + m < (22 * n + 2) * m
  {
    TimelyBounds(h);
  }

  lemma HitKeepsEntry(c: Store, hits: seq<Hit>, h: Hit, k: Key)
    requires Inv(c, hits, h.at) && Timely(h) && k in Incr(c, h)
    ensures EntryOk(Incr(c, h), hits + [h], h.at, k)
  {
    if k == KeyOf(h) {
      OwnEntryKept(c, hits, h);
    } else {
      assert EntryOk(c, hits, h.at, k);
      OtherEntryKept(c, hits, h, k);
    }
  }

  lemma HitKeepsTracked(c: Store, hits: seq<Hit>, h: Hit, q: Quota)
    requires Inv(c, hits, h.at) && Timely(h)
    ensures Tracked(Incr(c, h), hits + [h], h.at, q)
  {
    CountingAfterHit(hits, h, q);
    assert Tracked(c, hits, h.at, q);
    if Key(q.subject, q.action, q.index) == KeyOf(h) {
      HitSeesPlace(c, hits, h);
      if Live(c, KeyOf(h), h.at) {
        assert EntryOk(c, hits, h.at, KeyOf(h));
        NoLiveAlias(c, hits, h);
      }
    }
  }

  lemma HitKeepsInv(c: Store, hits: seq<Hit>, h: Hit)
    requires Inv(c, hits, h.at) && Timely(h)
    ensures Inv(Incr(c, h), hits + [h], h.at)
  {
    forall k | k in Incr(c, h) ensures EntryOk(Incr(c, h), hits + [h], h.at, k) { HitKeepsEntry(c, hits, h, k); }
    forall q ensures Tracked(Incr(c, h), hits + [h], h.at, q) { HitKeepsTracked(c, hits, h, q); }
  }

  lemma {:induction false} RunKeepsInv(hits: seq<Hit>, now: nat)
    requires InOrder(hits) && forall i :: 0 <= i < |hits| ==> hits[i].at <= now
    ensures Inv(After(hits), hits, now)
  {
    if hits == [] {
      forall q ensures Tracked(After(hits), hits, now, q) {}
    } else {
      var front, h := hits[..|hits| - 1], hits[|hits| - 1];
      RunKeepsInv(front, h.at);
      HitKeepsInv(After(front), front, h);
      assert front + [h] == hits;
      Advance(After(hits), hits, h.at, now);
    }
  }

  /** In every run a round sees its place in the count of its own quota that runs when its script runs. */
  lemma RoundSeesPlace(hits: seq<Hit>, i: nat)
    requires InOrder(hits) && i < |hits|
    ensures CountSeen(After(hits[..i]), hits[i]) == Place(hits[..i], hits[i])
  {
    RunKeepsInv(hits[..i], hits[i].at);
    HitSeesPlace(After(hits[..i]), hits[..i], hits[i]);
  }

  // ---------- The k-th round ----------

  /** The script ran before the counter its quota's first round created had expired. */
  predicate InTime(hits: seq<Hit>, h: Hit) {
    FirstAt(hits, QuotaOf(h)).None? || h.at < FirstAt(hits, QuotaOf(h)).value + Millis(h.window)
  }

  /** The running count holds every round of the quota exactly while it is the first. */
  lemma {:induction false} FirstCount(hits: seq<Hit>, q: Quota)
    requires InOrder(hits)
    ensures var c, f := Counting(hits, q), FirstAt(hits, q);
            && (c.Some? <==> f.Some?) && (c.Some? <==> Used(hits, q) > 0)
            && (c.Some? ==> || (c.value.start == f.value && c.value.count == Used(hits, q))
                            || (c.value.start >= f.value + Millis(q.window) && c.value.count < Used(hits, q)))
    ensures Counting(hits, q).Some? ==> exists i :: 0 <= i < |hits| && hits[i].at == Counting(hits, q).value.start
  {
    if hits != [] {
      var front := hits[..|hits| - 1];
      FirstCount(front, q);
      if Counting(hits, q).Some? {
        if QuotaOf(hits[|hits| - 1]) == q && Counting(hits, q).value.start == hits[|hits| - 1].at {
        } else {
          var i :| 0 <= i < |front| && front[i].at == Counting(front, q).value.start;
          assert hits[i].at == Counting(hits, q).value.start;
        }
      }
    }
  }

  /**
   The k-th round charged to a window sees the count k if and only if its script runs before the
   window's counter expires.
   */
  lemma KthRoundSeesKIff(hits: seq<Hit>, i: nat)
    requires InOrder(hits) && i < |hits|
    ensures CountSeen(After(hits[..i]), hits[i]) == Used(hits[..i], QuotaOf(hits[i])) + 1 <==>
            InTime(hits[..i], hits[i])
  {
    var front, h := hits[..i], hits[i];
    RoundSeesPlace(hits, i);
    FirstCount(front, QuotaOf(h));
    var c := Counting(front, QuotaOf(h));
    if c.Some? {
      var j :| 0 <= j < |front| && front[j].at == c.value.start;
      assert hits[j].at <= h.at;
    }
  }

  /** The script runs in the window its key names. */
  predicate Inside(h: Hit) { Index(h.at, h.window) == Index(h.read, h.window) }

  lemma {:induction false} FirstIsCharged(hits: seq<Hit>, q: Quota)
    requires FirstAt(hits, q).Some?
    ensures exists i :: 0 <= i < |hits| && QuotaOf(hits[i]) == q && hits[i].at == FirstAt(hits, q).value
  {
    var front, h := hits[..|hits| - 1], hits[|hits| - 1];
    if FirstAt(front, q).Some? {
      FirstIsCharged(front, q);
      var i :| 0 <= i < |front| && QuotaOf(front[i]) == q && front[i].at == FirstAt(front, q).value;
      assert hits[i] == front[i];
    }
  }

  lemma FirstNotBeforeWindow(hits: seq<Hit>, q: Quota)
    requires InOrder(hits) && FirstAt(hits, q).Some?
    ensures q.index * Millis(q.window) <= FirstAt(hits, q).value
  {
    FirstIsCharged(hits, q);
    var i :| 0 <= i < |hits| && QuotaOf(hits[i]) == q && hits[i].at == FirstAt(hits, q).value;
    TimelyBounds(hits[i]);
  }

  /** Running in one's own window is being in time. */
  lemma InsideIsInTime(hits: seq<Hit>, h: Hit)
    requires InOrder(hits) && Inside(h)
    ensures InTime(hits, h)
  {
    if FirstAt(hits, QuotaOf(h)).Some? {
      FirstNotBeforeWindow(hits, QuotaOf(h));
      IndexBounds(h.at, h.window);
      match h.window
      case Minute =>
      case Hour =>
      case Day =>
    }
  }

  // ---------- Passed checks ----------

  ghost predicate PassedFor(hits: seq<Hit>, q: Quota, i: nat)
    requires i < |hits|
  {
    QuotaOf(hits[i]) == q && Admits(After(hits[..i]), hits[i])
  }

  /** How many of the window checks charged to `q` were within their limit. */
  ghost function Admitted(hits: seq<Hit>, q: Quota): nat {
    if hits == [] then 0
    else Admitted(hits[..|hits| - 1], q) + (if PassedFor(hits, q, |hits| - 1) then 1 else 0)
  }

  lemma FrontInOrder(hits: seq<Hit>, n: nat)
    requires InOrder(hits) && n <= |hits|
    ensures InOrder(hits[..n])
  {}

  /** While every round of `q` is in time, no more of its checks pass than the largest limit. */
  lemma {:induction false} AtMostLargestLimit(hits: seq<Hit>, q: Quota, most: nat)
    requires InOrder(hits)
    requires forall i :: 0 <= i < |hits| && QuotaOf(hits[i]) == q ==>
               hits[i].limit <= most && InTime(hits[..i], hits[i])
    ensures Admitted(hits, q) <= most && Admitted(hits, q) <= Used(hits, q)
  {
    if hits != [] {
      var n := |hits| - 1;
      FrontInOrder(hits, n);
      assert forall i :: 0 <= i < n ==> hits[..n][i] == hits[i] && hits[..n][..i] == hits[..i];
      AtMostLargestLimit(hits[..n], q, most);
      KthRoundSeesKIff(hits, n);
    }
  }

  /** A script that runs less than one window length late meets the first counter of its quota or the one after. */
  predicate SlightlyLate(h: Hit) { h.at < (Index(h.read, h.window) + 2) * Millis(h.window) }

  lemma {:induction false} TwoCountsAtMost(hits: seq<Hit>, q: Quota, most: nat)
    requires InOrder(hits)
    requires forall i :: 0 <= i < |hits| && QuotaOf(hits[i]) == q ==> hits[i].limit <= most && SlightlyLate(hits[i])
    ensures var c, f := Counting(hits, q), FirstAt(hits, q);
            && (c.None? ==> Admitted(hits, q) == 0)
            && (c.Some? && f.Some? && c.value.start == f.value ==> Admitted(hits, q) <= Least(c.value.count, most))
            && (c.Some? && f.Some? && c.value.start != f.value ==>
                  Admitted(hits, q) <= most + Least(c.value.count, most))
  {
    if hits != [] {
      var n := |hits| - 1;
      FrontInOrder(hits, n);
      assert forall i :: 0 <= i < n ==> hits[..n][i] == hits[i];
      TwoCountsAtMost(hits[..n], q, most);
      if QuotaOf(hits[n]) == q {
        RoundSeesPlace(hits, n);
        SecondCountIsLast(hits, q, n);
      }
    }
  }

  function Least(a: nat, b: nat): nat { if a < b then a else b }

  /** A slightly late round never starts a third count. */
  lemma SecondCountIsLast(hits: seq<Hit>, q: Quota, n: nat)
    requires InOrder(hits) && n < |hits| && QuotaOf(hits[n]) == q && SlightlyLate(hits[n])
    ensures var c, f := Counting(hits[..n], q), FirstAt(hits[..n], q);
            && (c.Some? <==> f.Some?)
            && (c.Some? ==> f.value <= c.value.start <= hits[n].at)
            && (c.Some? && c.value.start > f.value ==> hits[n].at < c.value.start + Millis(q.window))
  {
    var front := hits[..n];
    FrontInOrder(hits, n);
    FirstCount(front, q);
    if FirstAt(front, q).Some? {
      FirstNotBeforeWindow(front, q);
      var j :| 0 <= j < |front| && front[j].at == Counting(front, q).value.start;
      assert hits[j].at <= hits[n].at;
      TwoWindowsOn(q.index, q.window, FirstAt(front, q).value, hits[n].at);
    }
  }

  lemma TwoWindowsOn(n: nat, w: RateWindow, first: nat, at: nat)
    requires n * Millis(w) <= first && at < (n + 2) * Millis(w)
    ensures at < first + 2 * Millis(w)
  {
    match w
    case Minute =>
    case Hour =>
    case Day =>
  }

  // ---------- The service ----------

  const U32_MAX: nat := 4294967295

  datatype Limits = Limits(
    postsPerHour: nat, postsPerDay: nat, followsPerHour: nat, followsPerDay: nat, unfollowsPerDay: nat,
    likesPerHour: nat, commentsPerHour: nat, loginAttemptsPerHour: nat, feedRequestsPerHour: nat,
    notificationsPerHour: nat, searchRequestsPerHour: nat, mediaReadPerHour: nat, mediaUploadPerHour: nat,
    moderationActionsPerHour: nat)

  datatype Check = Check(limit: nat, window: RateWindow)

  /** The windows an action is checked against; an unknown action is not limited. */
  function Checks(action: Action, l: Limits): seq<Check> {
    match action
    case Post => [Check(l.postsPerHour, Hour), Check(l.postsPerDay, Day)]
    case Follow => [Check(l.followsPerHour, Hour), Check(l.followsPerDay, Day)]
    case Unfollow => [Check(l.unfollowsPerDay, Day)]
    case Like => [Check(l.likesPerHour, Hour)]
    case Comment => [Check(l.commentsPerHour, Hour)]
    case Login => [Check(l.loginAttemptsPerHour, Hour)]
    case Feed => [Check(l.feedRequestsPerHour, Hour)]
    case Notifications => [Check(l.notificationsPerHour, Hour)]
    case Search => [Check(l.searchRequestsPerHour, Hour)]
    case MediaRead => [Check(l.mediaReadPerHour, Hour)]
    case MediaUpload => [Check(l.mediaUploadPerHour, Hour)]
    case Moderation => [Check(l.moderationActionsPerHour, Hour)]
    case Other(_) => []
  }

  /** When a round reads the clock and when its script runs. */
  datatype Times = Times(read: nat, at: nat)

  /** The loop's rounds: each window is checked at its own times. */
  function HitsOf(subject: Subject, action: Action, checks: seq<Check>, times: seq<Times>): seq<Hit>
    requires |times| == |checks|
  {
    seq(|checks|, i requires 0 <= i < |checks| =>
      Hit(subject, action, checks[i].window, checks[i].limit, times[i].read, times[i].at))
  }

  /** The store after the first i of the given hits. */
  function StoreAt(c: Store, hits: seq<Hit>, i: nat): Store
    requires i <= |hits|
  {
    if i == 0 then c else Incr(StoreAt(c, hits, i - 1), hits[i - 1])
  }

  function IncrAll(c: Store, hits: seq<Hit>): Store { StoreAt(c, hits, |hits|) }

  /** Running a call on the store of earlier calls is one longer run. */
  lemma {:induction false} CallExtendsRun(before: seq<Hit>, hits: seq<Hit>, i: nat)
    requires i <= |hits|
    ensures StoreAt(After(before), hits, i) == After(before + hits[..i])
  {
    if i == 0 {
      assert before + hits[..0] == before;
    } else {
      CallExtendsRun(before, hits, i - 1);
      AfterAppend(before + hits[..i - 1], hits[i - 1]);
      assert before + hits[..i] == before + hits[..i - 1] + [hits[i - 1]];
    }
  }

  lemma AfterAppend(hits: seq<Hit>, h: Hit)
    ensures After(hits + [h]) == Incr(After(hits), h)
  {
    assert (hits + [h])[..|hits + [h]| - 1] == hits;
  }

  function CountAt(c: Store, hits: seq<Hit>, i: nat): nat
    requires i < |hits|
  {
    CountSeen(StoreAt(c, hits, i), hits[i])
  }

  /** The counts the given hits see, one after the other. */
  function CountsSeen(c: Store, hits: seq<Hit>): seq<nat> {
    seq(|hits|, i requires 0 <= i < |hits| => CountAt(c, hits, i))
  }

  function SatSub(a: nat, b: nat): nat { if a < b then 0 else a - b }

  /** One of the first n checks counted beyond its limit. */
  predicate Refused(checks: seq<Check>, counts: seq<nat>, n: nat)
    requires n <= |checks| && n <= |counts|
  {
    exists i :: 0 <= i < n && counts[i] > checks[i].limit
  }

  /** `remaining` and `limit` are those of the tightest of the first n checks. */
  predicate Tightest(checks: seq<Check>, counts: seq<nat>, n: nat, remaining: nat, limit: nat)
    requires n <= |checks| && n <= |counts|
  {
    && (forall i :: 0 <= i < n ==> remaining <= SatSub(checks[i].limit, counts[i]))
    && (exists i :: 0 <= i < n && remaining == SatSub(checks[i].limit, counts[i]) && limit == checks[i].limit)
  }

  // ---------- Requests ----------

  /** A request as the loop sees it; an address has one window, a user action one or two. */
  datatype Request = Request(subject: Subject, action: Action, checks: seq<Check>)

  /** One round of one request's loop: the key is formed at `read`, the script runs at `at`. */
  datatype Round = Round(request: Id, check: nat, read: nat, at: nat)

  type Requests = map<Id, Request>

  predicate Known(reqs: Requests, r: Round) { r.request in reqs && r.check < |reqs[r.request].checks| }

  predicate AllKnown(reqs: Requests, run: seq<Round>) { forall i :: 0 <= i < |run| ==> Known(reqs, run[i]) }

  function HitAt(reqs: Requests, r: Round): Hit
    requires Known(reqs, r)
  {
    var q := reqs[r.request];
    Hit(q.subject, q.action, q.checks[r.check].window, q.checks[r.check].limit, r.read, r.at)
  }

  function Hits(reqs: Requests, run: seq<Round>): seq<Hit>
    requires AllKnown(reqs, run)
  {
    seq(|run|, i requires 0 <= i < |run| => HitAt(reqs, run[i]))
  }

  /** A run: rounds of any number of requests, interleaved in the order their scripts run. */
  ghost predicate IsRun(reqs: Requests, run: seq<Round>) { AllKnown(reqs, run) && InOrder(Hits(reqs, run)) }

  /** Round i saw a count within its limit. */
  ghost predicate Passes(reqs: Requests, run: seq<Round>, i: nat)
    requires i < |run| && AllKnown(reqs, run)
  {
    Admits(After(Hits(reqs, run)[..i]), Hits(reqs, run)[i])
  }

  /** Every check of the request was made. */
  ghost predicate Finished(reqs: Requests, run: seq<Round>, r: Id)
    requires r in reqs
  {
    forall k :: 0 <= k < |reqs[r].checks| ==> Made(run, r, k)
  }

  ghost predicate Made(run: seq<Round>, r: Id, k: nat) {
    exists i :: 0 <= i < |run| && run[i].request == r && run[i].check == k
  }

  /** A request is let through when all its checks were made and none exceeded its limit. */
  ghost predicate LetThrough(reqs: Requests, run: seq<Round>, r: Id)
    requires AllKnown(reqs, run)
  {
    r in reqs && Finished(reqs, run, r) && forall i :: 0 <= i < |run| && run[i].request == r ==> Passes(reqs, run, i)
  }

  /**
   Exactly when a request is let through: it is finished and each of its rounds is within the
   limit by its place in the running count of its window, refused rounds included.
   */
  lemma LetThroughIff(reqs: Requests, run: seq<Round>, r: Id)
    requires IsRun(reqs, run)
    ensures var hits := Hits(reqs, run);
            LetThrough(reqs, run, r) <==>
              && r in reqs && Finished(reqs, run, r)
              && forall i :: 0 <= i < |run| && run[i].request == r ==> Place(hits[..i], hits[i]) <= hits[i].limit
  {
    var hits := Hits(reqs, run);
    forall i | 0 <= i < |run| ensures Passes(reqs, run, i) <==> Place(hits[..i], hits[i]) <= hits[i].limit {
      RoundSeesPlace(hits, i);
    }
  }

  /** Round i is charged to `q` and its request is let through. */
  ghost predicate CountsFor(reqs: Requests, run: seq<Round>, q: Quota, i: nat)
    requires i < |run| && AllKnown(reqs, run)
  {
    QuotaOf(Hits(reqs, run)[i]) == q && LetThrough(reqs, run, run[i].request)
  }

  ghost function Marks(reqs: Requests, run: seq<Round>, q: Quota): seq<bool>
    requires AllKnown(reqs, run)
  {
    seq(|run|, i requires 0 <= i < |run| => CountsFor(reqs, run, q, i))
  }

  /** The requests let through with a round charged to `q`. */
  ghost function LetThroughIn(reqs: Requests, run: seq<Round>, q: Quota): set<Id>
    requires AllKnown(reqs, run)
  {
    Marked(run, Marks(reqs, run, q), |run|)
  }

  ghost function Marked(run: seq<Round>, marks: seq<bool>, n: nat): set<Id>
    requires n <= |run| == |marks|
  {
    if n == 0 then {} else Marked(run, marks, n - 1) + (if marks[n - 1] then {run[n - 1].request} else {})
  }

  lemma {:induction false} MarkedMeans(run: seq<Round>, marks: seq<bool>, n: nat, r: Id)
    requires n <= |run| == |marks|
    ensures r in Marked(run, marks, n) <==> exists i :: 0 <= i < n && marks[i] && run[i].request == r
  {
    if n > 0 { MarkedMeans(run, marks, n - 1, r); }
  }

  function Trues(marks: seq<bool>, n: nat): nat
    requires n <= |marks|
  {
    if n == 0 then 0 else Trues(marks, n - 1) + (if marks[n - 1] then 1 else 0)
  }

  lemma {:induction false} MarkedAtMost(run: seq<Round>, marks: seq<bool>, passed: seq<bool>, n: nat)
    requires n <= |run| == |marks| == |passed| && forall i :: 0 <= i < n ==> marks[i] ==> passed[i]
    ensures |Marked(run, marks, n)| <= Trues(passed, n)
  {
    if n > 0 { MarkedAtMost(run, marks, passed, n - 1); }
  }

  lemma {:induction false} AdmittedAreTrues(hits: seq<Hit>, q: Quota, passed: seq<bool>, n: nat)
    requires n <= |hits| == |passed| && forall i :: 0 <= i < n ==> passed[i] == PassedFor(hits, q, i)
    ensures Trues(passed, n) == Admitted(hits[..n], q)
  {
    if n > 0 {
      AdmittedAreTrues(hits, q, passed, n - 1);
      assert hits[..n][..n - 1] == hits[..n - 1];
      assert passed[n - 1] == PassedFor(hits, q, n - 1) == PassedFor(hits[..n], q, n - 1);
    }
  }

  /** Each of them accounts for a check of that window that passed. */
  lemma LetThroughArePassed(reqs: Requests, run: seq<Round>, q: Quota)
    requires AllKnown(reqs, run)
    ensures |LetThroughIn(reqs, run, q)| <= Admitted(Hits(reqs, run), q)
  {
    var hits := Hits(reqs, run);
    var passed := seq(|hits|, i requires 0 <= i < |hits| => PassedFor(hits, q, i));
    AdmittedAreTrues(hits, q, passed, |hits|);
    assert hits[..|hits|] == hits;
    forall i | 0 <= i < |run| && CountsFor(reqs, run, q, i) ensures PassedFor(hits, q, i) {
      assert Passes(reqs, run, i);
    }
    MarkedAtMost(run, Marks(reqs, run, q), passed, |run|);
  }

  /**
   However requests interleave, and whatever their other windows do, at most the limit of requests
   is let through per window while its rounds run before its counter expires.
   */
  lemma RequestsPerWindow(reqs: Requests, run: seq<Round>, q: Quota, most: nat)
    requires IsRun(reqs, run)
    requires var hits := Hits(reqs, run);
             forall i :: 0 <= i < |run| && QuotaOf(hits[i]) == q ==> hits[i].limit <= most && InTime(hits[..i], hits[i])
    ensures |LetThroughIn(reqs, run, q)| <= most
  {
    LetThroughArePassed(reqs, run, q);
    AtMostLargestLimit(Hits(reqs, run), q, most);
  }

  /** And at most twice the limit while they run less than one window length after their window. */
  lemma RequestsPerWindowWhenLate(reqs: Requests, run: seq<Round>, q: Quota, most: nat)
    requires IsRun(reqs, run)
    requires var hits := Hits(reqs, run);
             forall i :: 0 <= i < |run| && QuotaOf(hits[i]) == q ==> hits[i].limit <= most && SlightlyLate(hits[i])
    ensures |LetThroughIn(reqs, run, q)| <= 2 * most
  {
    LetThroughArePassed(reqs, run, q);
    TwoCountsAtMost(Hits(reqs, run), q, most);
    FirstCount(Hits(reqs, run), q);
  }

  predicate InSpan(h: Hit, s: Subject, a: Action, w: RateWindow, from: nat) {
    h.subject == s && h.action == a && h.window == w && from <= h.at < from + Millis(w)
  }

  /** The requests let through with a script of window `w` run in [from, from + window length). */
  ghost function LetThroughSince(reqs: Requests, run: seq<Round>, s: Subject, a: Action, w: RateWindow, from: nat)
    : set<Id>
    requires AllKnown(reqs, run)
  {
    set r | r in reqs && LetThrough(reqs, run, r)
            && exists i :: 0 <= i < |run| && run[i].request == r && InSpan(Hits(reqs, run)[i], s, a, w, from)
  }

  lemma SpanMeetsTwoQuotas(h: Hit, s: Subject, a: Action, w: RateWindow, from: nat)
    requires InSpan(h, s, a, w, from) && Inside(h)
    ensures QuotaOf(h) == Quota(s, a, w, Index(from, w)) || QuotaOf(h) == Quota(s, a, w, Index(from, w) + 1)
  {
    IndexBounds(from, w);
    IndexBounds(h.at, w);
  }

  /** When scripts run in their own windows, any interval of one window length lets at most twice the limit through. */
  lemma RequestsPerInterval(reqs: Requests, run: seq<Round>, s: Subject, a: Action, w: RateWindow, from: nat, most: nat)
    requires IsRun(reqs, run)
    requires var hits := Hits(reqs, run);
             forall i :: 0 <= i < |run| && hits[i].subject == s && hits[i].action == a && hits[i].window == w ==>
               hits[i].limit <= most && Inside(hits[i])
    ensures |LetThroughSince(reqs, run, s, a, w, from)| <= 2 * most
  {
    var hits := Hits(reqs, run);
    var q, q' := Quota(s, a, w, Index(from, w)), Quota(s, a, w, Index(from, w) + 1);
    forall i | 0 <= i < |run| && Inside(hits[i]) ensures InTime(hits[..i], hits[i]) {
      FrontInOrder(hits, i);
      InsideIsInTime(hits[..i], hits[i]);
    }
    RequestsPerWindow(reqs, run, q, most);
    RequestsPerWindow(reqs, run, q', most);
    var one, two := LetThroughIn(reqs, run, q), LetThroughIn(reqs, run, q');
    forall r | r in LetThroughSince(reqs, run, s, a, w, from) ensures r in one + two {
      var i :| 0 <= i < |run| && run[i].request == r && InSpan(hits[i], s, a, w, from);
      SpanMeetsTwoQuotas(hits[i], s, a, w, from);
      MarkedMeans(run, Marks(reqs, run, q), |run|, r);
      MarkedMeans(run, Marks(reqs, run, q'), |run|, r);
      assert Marks(reqs, run, q)[i] || Marks(reqs, run, q')[i];
    }
    SmallerSet(LetThroughSince(reqs, run, s, a, w, from), one + two);
    assert |one + two| <= |one| + |two|;
  }

  lemma SmallerSet(a: set<Id>, b: set<Id>)
    requires a <= b
    ensures |a| <= |b|
  {
    assert b == a + (b - a);
  }

  /** What a call on its own reports is what its rounds see in the run they extend. */
  lemma CallReportsItsRounds(before: seq<Hit>, checks: seq<Check>, hits: seq<Hit>)
    requires |checks| == |hits| && forall i :: 0 <= i < |hits| ==> hits[i].limit == checks[i].limit
    ensures Refused(checks, CountsSeen(After(before), hits), |checks|)
            <==> exists i :: 0 <= i < |hits| && !Admits(After(before + hits[..i]), hits[i])
  {
    forall i | 0 <= i < |hits|
      ensures CountsSeen(After(before), hits)[i] == CountSeen(After(before + hits[..i]), hits[i])
    {
      CallExtendsRun(before, hits, i);
    }
  }
}
