/**
 SQL placeholder rewriting: templates say $1, $2, ... and may repeat or reorder them; the
 driver understands only '?', bound from left to right. `prepare` replaces each $n by '?'
 and collects the arguments in the order of appearance.
 */
module Placeholders {
  import opened Decimal

  datatype Tok = Ch(c: char) | Param(n: nat)

  datatype Piece<V> = Text(c: char) | Value(v: V)

  datatype Result<T> = Ok(value: T) | OutOfRange

  /** Length of the leading run of digits. */
  function Digits(s: string): (k: nat)
    ensures k <= |s|
  {
    if s != [] && IsDigit(s[0]) then 1 + Digits(s[1..]) else 0
  }

  /** A match of the pattern \$(\d+) starts here. */
  predicate MatchHere(sql: string) {
    |sql| > 1 && sql[0] == '$' && IsDigit(sql[1])
  }

  /** The template as the regular expression reads it. */
  function Scan(sql: string): seq<Tok>
    decreases |sql|
  {
    if sql == [] then []
    else if MatchHere(sql) then
      var k := Digits(sql[1..]);
      [Param(Read(sql[1..1 + k]))] + Scan(sql[1 + k..])
    else [Ch(sql[0])] + Scan(sql[1..])
  }

  lemma {:induction false} DigitsOfRun(ds: string, rest: string)
    requires forall i :: 0 <= i < |ds| ==> IsDigit(ds[i])
    requires rest == [] || !IsDigit(rest[0])
    ensures Digits(ds + rest) == |ds|
  {
    if ds == [] {
      assert ds + rest == rest;
    } else {
      assert (ds + rest)[1..] == ds[1..] + rest;
      DigitsOfRun(ds[1..], rest);
    }
  }

  lemma ScanRun(ds: string, rest: string)
    requires ds != [] && forall i :: 0 <= i < |ds| ==> IsDigit(ds[i])
    requires rest == [] || !IsDigit(rest[0])
    ensures Scan(['$'] + ds + rest) == [Param(Read(ds))] + Scan(rest)
  {
    var sql := ['$'] + ds + rest;
    assert sql[1] == ds[0];
    assert sql[1..] == ds + rest;
    DigitsOfRun(ds, rest);
    assert sql[1..1 + |ds|] == ds && sql[1 + |ds|..] == rest;
  }

  /** A written placeholder is read back as its number, however long, up to the first non-digit. */
  lemma ScanReadsPlaceholder(n: nat, rest: string)
    requires rest == [] || !IsDigit(rest[0])
    ensures Scan(['$'] + Show(n) + rest) == [Param(n)] + Scan(rest)
  {
    ShowIsDigits(n);
    ScanRun(Show(n), rest);
    ReadShow(n);
  }

  predicate InRange<V>(toks: seq<Tok>, args: seq<V>) {
    forall i :: 0 <= i < |toks| && toks[i].Param? ==> 1 <= toks[i].n <= |args|
  }

  // ---------- What prepare produces ----------

  function Question(toks: seq<Tok>): string {
    if toks == [] then [] else [if toks[0].Ch? then toks[0].c else '?'] + Question(toks[1..])
  }

  function Ordered<V>(toks: seq<Tok>, args: seq<V>): seq<V>
    requires InRange(toks, args)
  {
    if toks == [] then []
    else (if toks[0].Param? then [args[toks[0].n - 1]] else []) + Ordered(toks[1..], args)
  }

  /** The digits of the match that starts at `i`. */
  method MatchEnd(sql: string, i: nat) returns (j: nat)
    requires i < |sql|
    ensures j == i + 1 + Digits(sql[i + 1..]) && j <= |sql|
  {
    j := i + 1;
    while j < |sql| && IsDigit(sql[j])
      invariant i + 1 <= j <= |sql|
      invariant Digits(sql[i + 1..]) == (j - i - 1) + Digits(sql[j..])
    {
      assert sql[j..][1..] == sql[j + 1..];
      j := j + 1;
    }
  }

  /** What the arguments collected so far are worth, with the tokens `rest` still to come. */
  ghost predicate Collected<V(!new)>(all: seq<Tok>, rest: seq<Tok>, args: seq<V>, ordered: seq<V>) {
    && (InRange(all, args) <==> InRange(rest, args))
    && (InRange(all, args) ==> Ordered(all, args) == ordered + Ordered(rest, args))
  }

  /** The matcher loop: copy up to the next match, write '?' for it, read its number, fetch the argument. */
  method Prepare<V(!new)>(sql: string, args: seq<V>) returns (r: Result<(string, seq<V>)>)
    ensures r.Ok? <==> InRange(Scan(sql), args)
    ensures r.Ok? ==> r.value == (Question(Scan(sql)), Ordered(Scan(sql), args))
  {
    var ordered: seq<V> := [];
    var text: string := [];
    var i := 0;
    ghost var all, rest := Scan(sql), Scan(sql);
    assert sql[0..] == sql;
    while i < |sql|
      invariant 0 <= i <= |sql| && rest == Scan(sql[i..])
      invariant Collected(all, rest, args, ordered) && Question(all) == text + Question(rest)
      decreases |sql| - i
    {
      if MatchHere(sql[i..]) {
        var j := MatchEnd(sql, i);
        var n := Read(sql[i + 1..j]);
        ScanMatch(sql, i, j);
        rest := Scan(sql[j..]);
        CollectParam(all, rest, args, ordered, n);
        if n < 1 || n > |args| {
          return OutOfRange;
        }
        QuestionCons(Param(n), rest, text);
        text, ordered := text + ['?'], ordered + [args[n - 1]];
        i := j;
      } else {
        ScanChar(sql, i);
        rest := Scan(sql[i + 1..]);
        CollectChar(all, rest, args, ordered, sql[i]);
        QuestionCons(Ch(sql[i]), rest, text);
        text := text + [sql[i]];
        i := i + 1;
      }
    }
    assert sql[i..] == [] && rest == [];
    assert text + Question(rest) == text;
    assert InRange(rest, args);
    assert ordered + Ordered(rest, args) == ordered;
    return Ok((text, ordered));
  }

  lemma CollectParam<V(!new)>(all: seq<Tok>, rest: seq<Tok>, args: seq<V>, ordered: seq<V>, n: nat)
    requires Collected(all, [Param(n)] + rest, args, ordered)
    ensures if 1 <= n <= |args| then Collected(all, rest, args, ordered + [args[n - 1]]) else !InRange(all, args)
  {
    InRangeCons(Param(n), rest, args);
    if 1 <= n <= |args| && InRange(all, args) {
      OrderedCons(Param(n), rest, args);
      assert ordered + ([args[n - 1]] + Ordered(rest, args)) == (ordered + [args[n - 1]]) + Ordered(rest, args);
    }
  }

  lemma CollectChar<V(!new)>(all: seq<Tok>, rest: seq<Tok>, args: seq<V>, ordered: seq<V>, c: char)
    requires Collected(all, [Ch(c)] + rest, args, ordered)
    ensures Collected(all, rest, args, ordered)
  {
    InRangeCons(Ch(c), rest, args);
    if InRange(all, args) {
      OrderedCons(Ch(c), rest, args);
    }
  }

  lemma ScanMatch(sql: string, i: nat, j: nat)
    requires i < |sql| && MatchHere(sql[i..]) && j == i + 1 + Digits(sql[i + 1..])
    ensures Scan(sql[i..]) == [Param(Read(sql[i + 1..j]))] + Scan(sql[j..])
  {
    var rest := sql[i..];
    assert rest[1..] == sql[i + 1..];
    var k := Digits(rest[1..]);
    assert rest[1..1 + k] == sql[i + 1..j] && rest[1 + k..] == sql[j..];
  }

  lemma ScanChar(sql: string, i: nat)
    requires i < |sql| && !MatchHere(sql[i..])
    ensures Scan(sql[i..]) == [Ch(sql[i])] + Scan(sql[i + 1..])
  {
    assert sql[i..][1..] == sql[i + 1..];
  }

  lemma QuestionCons(t: Tok, toks: seq<Tok>, text: string)
    ensures text + Question([t] + toks) == text + [if t.Ch? then t.c else '?'] + Question(toks)
  {
    assert ([t] + toks)[1..] == toks;
  }

  lemma OrderedCons<V>(t: Tok, toks: seq<Tok>, args: seq<V>)
    requires InRange([t] + toks, args) && InRange(toks, args) && (t.Param? ==> 1 <= t.n <= |args|)
    ensures Ordered([t] + toks, args) == (if t.Param? then [args[t.n - 1]] else []) + Ordered(toks, args)
  {
    assert ([t] + toks)[1..] == toks;
  }

  lemma InRangeCons<V>(t: Tok, toks: seq<Tok>, args: seq<V>)
    ensures InRange([t] + toks, args) <==> (t.Param? ==> 1 <= t.n <= |args|) && InRange(toks, args)
  {
    var all := [t] + toks;
    assert forall i :: 0 <= i < |toks| ==> all[i + 1] == toks[i];
    if InRange(all, args) {
      assert all[0] == t;
      forall i | 0 <= i < |toks| && toks[i].Param? ensures 1 <= toks[i].n <= |args| { assert all[i + 1] == toks[i]; }
    }
  }

  // ---------- What the two forms mean ----------

  /** $n stands for the n-th argument. */
  function Numbered<V>(toks: seq<Tok>, args: seq<V>): seq<Piece<V>>
    requires InRange(toks, args)
  {
    if toks == [] then []
    else [if toks[0].Param? then Value(args[toks[0].n - 1]) else Text(toks[0].c)] + Numbered(toks[1..], args)
  }

  /** Each '?' takes the next value; too few or too many values is an error. */
  function Positional<V>(sql: string, values: seq<V>): Result<seq<Piece<V>>> {
    if sql == [] then (if values == [] then Ok([]) else OutOfRange)
    else if sql[0] == '?' then
      if values == [] then OutOfRange else
      var rest := Positional(sql[1..], values[1..]);
      if rest.Ok? then Ok([Value(values[0])] + rest.value) else OutOfRange
    else
      var rest := Positional(sql[1..], values);
      if rest.Ok? then Ok([Text(sql[0])] + rest.value) else OutOfRange
  }

  predicate HasQuestion(toks: seq<Tok>) { Ch('?') in toks }

  lemma {:induction false} RewritingKeepsMeaning<V>(toks: seq<Tok>, args: seq<V>)
    requires InRange(toks, args) && !HasQuestion(toks)
    ensures Positional(Question(toks), Ordered(toks, args)) == Ok(Numbered(toks, args))
  {
    if toks != [] {
      assert toks == [toks[0]] + toks[1..];
      assert toks[0] in toks;
      RewritingKeepsMeaning(toks[1..], args);
      assert Question(toks)[1..] == Question(toks[1..]);
      if toks[0].Param? {
        assert Ordered(toks, args)[1..] == Ordered(toks[1..], args);
      } else {
        assert toks[0] == Ch(toks[0].c) && Ordered(toks, args) == Ordered(toks[1..], args);
      }
    }
  }

  function Questions(sql: string): nat {
    if sql == [] then 0 else (if sql[0] == '?' then 1 else 0) + Questions(sql[1..])
  }

  lemma {:induction false} PositionalCounts<V>(sql: string, values: seq<V>)
    ensures Positional(sql, values).Ok? <==> |values| == Questions(sql)
  {
    if sql != [] {
      if sql[0] == '?' {
        if values != [] { PositionalCounts(sql[1..], values[1..]); }
      } else {
        PositionalCounts(sql[1..], values);
      }
    }
  }

  lemma {:induction false} StrayQuestionsAreExtra<V>(toks: seq<Tok>, args: seq<V>)
    requires InRange(toks, args)
    ensures Questions(Question(toks)) >= |Ordered(toks, args)|
    ensures HasQuestion(toks) ==> Questions(Question(toks)) > |Ordered(toks, args)|
  {
    if toks != [] {
      StrayQuestionsAreExtra(toks[1..], args);
      assert toks == [toks[0]] + toks[1..];
      assert Question(toks)[1..] == Question(toks[1..]);
    }
  }

  lemma {:induction false} QuestionKept(sql: string)
    ensures HasQuestion(Scan(sql)) <==> '?' in sql
    decreases |sql|
  {
    if sql != [] {
      if MatchHere(sql) {
        var k := Digits(sql[1..]);
        QuestionKept(sql[1 + k..]);
        DigitsAreDigits(sql[1..]);
        assert sql == [sql[0]] + sql[1..][..k] + sql[1 + k..];
      } else {
        QuestionKept(sql[1..]);
        assert sql == [sql[0]] + sql[1..];
      }
    }
  }

  lemma {:induction false} DigitsAreDigits(s: string)
    ensures forall i :: 0 <= i < Digits(s) ==> IsDigit(s[i])
  {
    if s != [] && IsDigit(s[0]) {
      DigitsAreDigits(s[1..]);
      forall i | 0 <= i < Digits(s) ensures IsDigit(s[i]) {
        if i > 0 { assert s[i] == s[1..][i - 1]; }
      }
    }
  }

  /**
   For every template and every in-range argument list, binding the collected arguments to the
   rewritten text means the same statement exactly when the template holds no '?' of its own.
   */
  lemma PrepareKeepsMeaningExactly<V>(sql: string, args: seq<V>)
    requires InRange(Scan(sql), args)
    ensures Positional(Question(Scan(sql)), Ordered(Scan(sql), args)) == Ok(Numbered(Scan(sql), args)) <==> '?' !in sql
  {
    QuestionKept(sql);
    if '?' in sql {
      StrayQuestionsAreExtra(Scan(sql), args);
      PositionalCounts(Question(Scan(sql)), Ordered(Scan(sql), args));
    } else {
      RewritingKeepsMeaning(Scan(sql), args);
    }
  }

  /** The smallest template for which the meaning is lost. */
  lemma StrayQuestionBreaksIt()
    ensures exists sql, args: seq<int> ::
              && InRange(Scan(sql), args)
              && Positional(Question(Scan(sql)), Ordered(Scan(sql), args)) != Ok(Numbered(Scan(sql), args))
  {
    var sql: string := ['?'];
    var args: seq<int> := [];
    assert Scan(sql) == [Ch('?')] + Scan(sql[1..]) == [Ch('?')];
    assert InRange(Scan(sql), args);
    assert '?' in sql;
    PrepareKeepsMeaningExactly(sql, args);
  }
}
