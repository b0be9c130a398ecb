/**
 Search patterns: the escaping loop of the search service, the LIKE matcher it feeds
 (section 9.7.1 of the PostgreSQL manual, escape character backslash), and the chain of
 three replacements the ports use instead of the loop.
 */
module SearchPattern {

  /** When two characters count as equal: identity for LIKE, a case-insensitive comparison for ILIKE. */
  type CharEq = (char, char) -> bool

  predicate Special(c: char) { c == '%' || c == '_' || c == '\\' }

  function Escape(s: string): string {
    if s == [] then [] else (if Special(s[0]) then ['\\', s[0]] else [s[0]]) + Escape(s[1..])
  }

  lemma {:induction false} EscapeAppends(s: string, c: char)
    ensures Escape(s + [c]) == Escape(s) + (if Special(c) then ['\\', c] else [c])
  {
    if s == [] {
      assert s + [c] == [c];
      assert [c][1..] == [];
    } else {
      assert (s + [c])[1..] == s[1..] + [c];
      EscapeAppends(s[1..], c);
    }
  }

  method EscapeLikePattern(input: string) returns (escaped: string)
    ensures escaped == Escape(input)
  {
    escaped := [];
    for i := 0 to |input|
      invariant escaped == Escape(input[..i])
    {
      var ch := input[i];
      EscapeAppends(input[..i], ch);
      assert input[..i + 1] == input[..i] + [ch];
      if ch == '%' || ch == '_' || ch == '\\' {
        escaped := escaped + ['\\'];
        escaped := escaped + [ch];
      } else {
        escaped := escaped + [ch];
      }
    }
    assert input[..|input|] == input;
  }

  // ---------- LIKE ----------

  predicate Like(p: string, t: string, eq: CharEq)
    decreases |p| + |t|
  {
    if p == [] then t == []
    else if p[0] == '%' then Like(p[1..], t, eq) || (t != [] && Like(p, t[1..], eq))
    else if p[0] == '_' then t != [] && Like(p[1..], t[1..], eq)
    else if p[0] == '\\' then |p| >= 2 && t != [] && eq(p[1], t[0]) && Like(p[2..], t[1..], eq)
    else t != [] && eq(p[0], t[0]) && Like(p[1..], t[1..], eq)
  }

  /** `q` occurs in `t` at position `i`. */
  predicate OccursAt(q: string, t: string, i: nat, eq: CharEq) {
    i + |q| <= |t| && forall k :: 0 <= k < |q| ==> eq(q[k], t[i + k])
  }

  lemma {:induction false} PercentTakesAnyPrefix(p: string, t: string, eq: CharEq)
    ensures Like("%" + p, t, eq) <==> exists i :: 0 <= i <= |t| && Like(p, t[i..], eq)
    decreases |t|
  {
    assert ("%" + p)[1..] == p;
    assert t[0..] == t;
    if t != [] {
      PercentTakesAnyPrefix(p, t[1..], eq);
      if i :| 0 <= i <= |t[1..]| && Like(p, t[1..][i..], eq) {
        assert t[1..][i..] == t[i + 1..];
      }
      if i :| 0 < i <= |t| && Like(p, t[i..], eq) {
        assert t[1..][i - 1..] == t[i..];
      }
    }
  }

  lemma {:induction false} PercentMatchesAll(t: string, eq: CharEq)
    ensures Like("%", t, eq)
    decreases |t|
  {
    if t != [] { PercentMatchesAll(t[1..], eq); }
  }

  /** An escaped text matches itself, character by character, and nothing else. */
  lemma {:induction false} EscapedMatchesItself(q: string, rest: string, t: string, eq: CharEq)
    ensures Like(Escape(q) + rest, t, eq) <==> OccursAt(q, t, 0, eq) && Like(rest, t[|q|..], eq)
    decreases |q|
  {
    var p := Escape(q) + rest;
    if q == [] {
      assert p == rest && t[0..] == t;
    } else if t != [] {
      var w := if Special(q[0]) then 2 else 1;
      assert p[w..] == Escape(q[1..]) + rest;
      assert w == 2 ==> p[0] == '\\' && p[1] == q[0];
      assert w == 1 ==> p[0] == q[0];
      EscapedMatchesItself(q[1..], rest, t[1..], eq);
      if |q| <= |t| { assert t[1..][|q[1..]|..] == t[|q|..]; }
      OccursSplits(q, t, eq);
    }
  }

  lemma OccursSplits(q: string, t: string, eq: CharEq)
    requires q != [] && t != []
    ensures OccursAt(q, t, 0, eq) <==> eq(q[0], t[0]) && OccursAt(q[1..], t[1..], 0, eq)
  {
    if OccursAt(q, t, 0, eq) {
      forall k | 0 <= k < |q[1..]| ensures eq(q[1..][k], t[1..][k]) { assert eq(q[k + 1], t[0 + (k + 1)]); }
    }
    if eq(q[0], t[0]) && OccursAt(q[1..], t[1..], 0, eq) {
      forall k | 0 <= k < |q| ensures eq(q[k], t[0 + k]) {
        if k > 0 { assert eq(q[1..][k - 1], t[1..][0 + (k - 1)]); }
      }
    }
  }

  /** Search escaping preserves meaning: the pattern matches exactly the texts in which the query occurs. */
  lemma PatternMeansSubstring(q: string, t: string, eq: CharEq)
    ensures Like("%" + Escape(q) + "%", t, eq) <==> exists i :: 0 <= i <= |t| && OccursAt(q, t, i, eq)
  {
    var p := Escape(q) + "%";
    assert "%" + Escape(q) + "%" == "%" + p;
    PercentTakesAnyPrefix(p, t, eq);
    forall i | 0 <= i <= |t| ensures Like(p, t[i..], eq) <==> OccursAt(q, t, i, eq) {
      EscapedMatchesItself(q, "%", t[i..], eq);
      if |q| <= |t[i..]| { PercentMatchesAll(t[i..][|q|..], eq); }
      OccursShifts(q, t, i, eq);
    }
  }

  lemma OccursShifts(q: string, t: string, i: nat, eq: CharEq)
    requires i <= |t|
    ensures OccursAt(q, t[i..], 0, eq) <==> OccursAt(q, t, i, eq)
  {
    if OccursAt(q, t[i..], 0, eq) {
      forall k | 0 <= k < |q| ensures eq(q[k], t[i + k]) { assert eq(q[k], t[i..][0 + k]); }
    }
    if OccursAt(q, t, i, eq) {
      forall k | 0 <= k < |q| ensures eq(q[k], t[i..][0 + k]) { assert eq(q[k], t[i + k]); }
    }
  }

  predicate Same(a: char, b: char) { a == b }

  predicate CopyAt(q: string, t: string, i: nat) { i + |q| <= |t| && t[i..i + |q|] == q }

  lemma CopyIsOccurrence(q: string, t: string, i: nat)
    ensures CopyAt(q, t, i) <==> OccursAt(q, t, i, Same)
  {
    if i + |q| <= |t| {
      var copy := t[i..i + |q|];
      assert forall k :: 0 <= k < |q| ==> copy[k] == t[i + k];
      if OccursAt(q, t, i, Same) {
        assert forall k :: 0 <= k < |q| ==> Same(q[k], t[i + k]);
      }
    }
  }

  /** For plain LIKE: the pattern matches exactly when the query is a substring. */
  lemma PatternMeansPlainSubstring(q: string, t: string)
    ensures Like("%" + Escape(q) + "%", t, Same) <==> exists i :: 0 <= i <= |t| && CopyAt(q, t, i)
  {
    PatternMeansSubstring(q, t, Same);
    forall i | 0 <= i <= |t| ensures CopyAt(q, t, i) <==> OccursAt(q, t, i, Same) { CopyIsOccurrence(q, t, i); }
  }

  // ---------- The ports' chain of replacements ----------

  /** String.replace with a one-character target. */
  function Replace(s: string, c: char, by': string): string {
    if s == [] then [] else (if s[0] == c then by' else [s[0]]) + Replace(s[1..], c, by')
  }

  function ThreeReplaces(s: string): string {
    Replace(Replace(Replace(s, '\\', "\\\\"), '%', "\\%"), '_', "\\_")
  }

  lemma {:induction false} ReplaceConcat(a: string, b: string, c: char, by': string)
    ensures Replace(a + b, c, by') == Replace(a, c, by') + Replace(b, c, by')
  {
    if a == [] {
      assert a + b == b;
    } else {
      assert (a + b)[1..] == a[1..] + b;
      ReplaceConcat(a[1..], b, c, by');
    }
  }

  lemma ThreeReplacesConcat(a: string, b: string)
    ensures ThreeReplaces(a + b) == ThreeReplaces(a) + ThreeReplaces(b)
  {
    ReplaceConcat(a, b, '\\', "\\\\");
    var a1, b1 := Replace(a, '\\', "\\\\"), Replace(b, '\\', "\\\\");
    ReplaceConcat(a1, b1, '%', "\\%");
    ReplaceConcat(Replace(a1, '%', "\\%"), Replace(b1, '%', "\\%"), '_', "\\_");
  }

  lemma ReplaceOne(x: char, c: char, by': string)
    ensures Replace([x], c, by') == if x == c then by' else [x]
  {
    assert [x][1..] == [];
  }

  lemma ReplaceTwo(x: char, y: char, c: char, by': string)
    ensures Replace([x, y], c, by') == (if x == c then by' else [x]) + (if y == c then by' else [y])
  {
    assert [x, y] == [x] + [y];
    ReplaceConcat([x], [y], c, by');
    ReplaceOne(x, c, by');
    ReplaceOne(y, c, by');
  }

  lemma ThreeReplacesOne(x: char)
    ensures ThreeReplaces([x]) == Escape([x])
  {
    assert [x][1..] == [];
    ReplaceOne(x, '\\', "\\\\");
    if x == '\\' {
      ReplaceTwo('\\', '\\', '%', "\\%");
      ReplaceTwo('\\', '\\', '_', "\\_");
    } else {
      ReplaceOne(x, '%', "\\%");
      if x == '%' { ReplaceTwo('\\', '%', '_', "\\_"); } else { ReplaceOne(x, '_', "\\_"); }
    }
  }

  /** The single pass and the three replacements agree on every string. */
  lemma {:induction false} PortsAgree(s: string)
    ensures ThreeReplaces(s) == Escape(s)
  {
    if s != [] {
      assert s == [s[0]] + s[1..];
      ThreeReplacesConcat([s[0]], s[1..]);
      ThreeReplacesOne(s[0]);
      PortsAgree(s[1..]);
    }
  }
}
