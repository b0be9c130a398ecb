/**
 The text of rate-limit keys: `ratelimit:{user}:{action}:{n}` and `ratelimit:ip:{ip}:{action}:{n}`.
 Different subjects, actions or window numbers never give the same text, although an IPv6
 address itself contains colons.
 */
module KeyText {
  import opened Common
  import opened Decimal
  import opened RateLimiter

  predicate NoColon(s: string) { ':' !in s }

  function UserKey(user: string, action: string, n: nat): string {
    "ratelimit:" + user + ":" + action + ":" + Show(n)
  }

  function IpKey(ip: string, action: string, n: nat): string {
    "ratelimit:ip:" + ip + ":" + action + ":" + Show(n)
  }

  lemma ShowHasNoColon(n: nat)
    ensures NoColon(Show(n))
  {
    ShowIsDigits(n);
  }

  /** Text splits at its last colon in one way only. */
  lemma SplitAtLast(a: string, b: string, a': string, b': string)
    requires NoColon(b) && NoColon(b') && a + ":" + b == a' + ":" + b'
    ensures a == a' && b == b'
  {
    var s := a + ":" + b;
    assert s[|a|] == ':' && s[|a'|] == ':';
    assert |a| == |a'|;
    assert a == s[..|a|] == a';
    assert b == s[|a| + 1..] == b';
  }

  /** And at its first colon in one way only. */
  lemma SplitAtFirst(a: string, b: string, a': string, b': string)
    requires NoColon(a) && NoColon(a') && a + ":" + b == a' + ":" + b'
    ensures a == a' && b == b'
  {
    var s := a + ":" + b;
    assert s[|a|] == ':' && s[|a'|] == ':';
    assert |a| == |a'|;
    assert a == s[..|a|] == a';
    assert b == s[|a| + 1..] == b';
  }

  lemma TailInjective(head: string, action: string, n: nat, head': string, action': string, n': nat)
    requires NoColon(action) && NoColon(action')
    requires head + ":" + action + ":" + Show(n) == head' + ":" + action' + ":" + Show(n')
    ensures head == head' && action == action' && n == n'
  {
    ShowHasNoColon(n);
    ShowHasNoColon(n');
    SplitAtLast(head + ":" + action, Show(n), head' + ":" + action', Show(n'));
    SplitAtLast(head, action, head', action');
    ReadShow(n);
    ReadShow(n');
  }

  lemma UserKeysAreDistinct(u: string, a: string, n: nat, u': string, a': string, n': nat)
    requires NoColon(a) && NoColon(a') && UserKey(u, a, n) == UserKey(u', a', n')
    ensures u == u' && a == a' && n == n'
  {
    TailInjective("ratelimit:" + u, a, n, "ratelimit:" + u', a', n');
    assert u == ("ratelimit:" + u)[10..] && u' == ("ratelimit:" + u')[10..];
  }

  lemma IpKeysAreDistinct(ip: string, a: string, n: nat, ip': string, a': string, n': nat)
    requires NoColon(a) && NoColon(a') && IpKey(ip, a, n) == IpKey(ip', a', n')
    ensures ip == ip' && a == a' && n == n'
  {
    TailInjective("ratelimit:ip:" + ip, a, n, "ratelimit:ip:" + ip', a', n');
    assert ip == ("ratelimit:ip:" + ip)[13..] && ip' == ("ratelimit:ip:" + ip')[13..];
  }

  /** A user key (a UUID has 36 characters and no colon) is never an address key. */
  lemma UserAndIpKeysAreDistinct(u: string, a: string, n: nat, ip: string, a': string, n': nat)
    requires NoColon(u) && |u| == 36
    ensures UserKey(u, a, n) != IpKey(ip, a', n')
  {
    if UserKey(u, a, n) == IpKey(ip, a', n') {
      var x := a + ":" + Show(n);
      var y := ip + ":" + a' + ":" + Show(n');
      assert UserKey(u, a, n)[10..] == u + ":" + x;
      assert IpKey(ip, a', n')[10..] == "ip" + ":" + y;
      SplitAtFirst(u, x, "ip", y);
      assert false;
    }
  }

  // ---------- The counters' keys ----------

  function ActionText(a: Action): string {
    match a
    case Post => "post"
    case Follow => "follow"
    case Unfollow => "unfollow"
    case Like => "like"
    case Comment => "comment"
    case Login => "login"
    case Feed => "feed"
    case Notifications => "notifications"
    case Search => "search"
    case MediaRead => "media_read"
    case MediaUpload => "media_upload"
    case Moderation => "moderation"
    case Other(text) => text
  }

  /** The action a text names. */
  function ActionOf(s: string): Action {
    if s == "post" then Post
    else if s == "follow" then Follow
    else if s == "unfollow" then Unfollow
    else if s == "like" then Like
    else if s == "comment" then Comment
    else if s == "login" then Login
    else if s == "feed" then Feed
    else if s == "notifications" then Notifications
    else if s == "search" then Search
    else if s == "media_read" then MediaRead
    else if s == "media_upload" then MediaUpload
    else if s == "moderation" then Moderation
    else Other(s)
  }

  /** An action written by its own name, without a colon. */
  predicate Proper(a: Action) { a.Other? ==> NoColon(a.text) && ActionOf(a.text) == a }

  lemma ActionTextReadsBack(a: Action)
    requires Proper(a)
    ensures ActionOf(ActionText(a)) == a && NoColon(ActionText(a))
  {
    if a.Feed? || a.Like? || a.Post? {
      assert "feed"[0] == 'f' && "like"[0] == 'l' && "post"[0] == 'p';
    }
    if a.Follow? || a.Search? {
      assert "follow"[0] == 'f' && "search"[0] == 's';
    }
    if a.MediaRead? || a.Moderation? {
      assert "media_read"[1] == 'e' && "moderation"[1] == 'o';
    }
  }

  /** The text of a counter's key, given how user ids are written. */
  function KeyString(write: Id -> string, k: Key): string {
    match k.subject
    case User(id) => UserKey(write(id), ActionText(k.action), k.index)
    case Ip(text) => IpKey(text, ActionText(k.action), k.index)
  }

  /**
   Counters never share a text: when ids are written injectively with 36 characters and no colon,
   keys and texts agree.
   */
  lemma KeysAreDistinct(write: Id -> string, k: Key, k': Key)
    requires forall id :: |write(id)| == 36 && NoColon(write(id))
    requires forall id, id' :: write(id) == write(id') ==> id == id'
    requires Proper(k.action) && Proper(k'.action)
    ensures KeyString(write, k) == KeyString(write, k') <==> k == k'
  {
    if KeyString(write, k) == KeyString(write, k') {
      var a, a' := ActionText(k.action), ActionText(k'.action);
      ActionTextReadsBack(k.action);
      ActionTextReadsBack(k'.action);
      if k.subject.User? && k'.subject.User? {
        UserKeysAreDistinct(write(k.subject.id), a, k.index, write(k'.subject.id), a', k'.index);
      } else if k.subject.Ip? && k'.subject.Ip? {
        IpKeysAreDistinct(k.subject.text, a, k.index, k'.subject.text, a', k'.index);
      } else if k.subject.User? {
        UserAndIpKeysAreDistinct(write(k.subject.id), a, k.index, k'.subject.text, a', k'.index);
      } else {
        UserAndIpKeysAreDistinct(write(k'.subject.id), a', k'.index, k.subject.text, a, k.index);
      }
    }
  }
}
