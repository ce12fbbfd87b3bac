/**
  * The string operations of Rust's `str` that the program relies on, on `seq<char>`.
  * Text is treated as ASCII: byte offsets and character offsets coincide, and
  * `to_lowercase` only folds 'A'..'Z'.
  */
module Text {
  import opened Wrappers

  /** `char::is_whitespace` restricted to ASCII: space, tab, line feed, vertical tab, form feed, carriage return. */
  predicate IsWhitespace(c: char) {
    c == ' ' || c == '\t' || c == '\n' || c == '\U{000B}' || c == '\U{000C}' || c == '\r'
  }

  /** `s.trim().is_empty()`. */
  predicate IsBlank(s: string) {
    forall i :: 0 <= i < |s| ==> IsWhitespace(s[i])
  }

  /** `str::trim_start`. */
  function TrimStart(s: string): (r: string)
    ensures |r| <= |s|
  {
    if |s| > 0 && IsWhitespace(s[0]) then TrimStart(s[1..]) else s
  }

  /** `str::trim_end`. */
  function TrimEnd(s: string): (r: string)
    ensures |r| <= |s|
  {
    if |s| > 0 && IsWhitespace(s[|s| - 1]) then TrimEnd(s[..|s| - 1]) else s
  }

  /** Trimming the start drops a blank prefix and stops at the first other character. */
  lemma {:induction false} TrimStartSpec(s: string)
    ensures TrimStart(s) == s[|s| - |TrimStart(s)|..]
    ensures IsBlank(s[..|s| - |TrimStart(s)|])
    ensures TrimStart(s) == [] || !IsWhitespace(TrimStart(s)[0])
  {
    if |s| > 0 && IsWhitespace(s[0]) {
      TrimStartSpec(s[1..]);
      var k := |s| - |TrimStart(s)|;
      assert forall i :: 1 <= i < k ==> s[..k][i] == s[1..][..k - 1][i - 1];
    }
  }

  /** Trimming the end drops a blank suffix and stops at the last other character. */
  lemma {:induction false} TrimEndSpec(s: string)
    ensures TrimEnd(s) == s[..|TrimEnd(s)|]
    ensures IsBlank(s[|TrimEnd(s)|..])
    ensures TrimEnd(s) == [] || !IsWhitespace(TrimEnd(s)[|TrimEnd(s)| - 1])
  {
    if |s| > 0 && IsWhitespace(s[|s| - 1]) {
      var t := s[..|s| - 1];
      TrimEndSpec(t);
      assert TrimEnd(s) == TrimEnd(t);
      var n := |TrimEnd(t)|;
      assert s[n..] == t[n..] + [s[|s| - 1]];
    }
  }

  /** `str::trim`. */
  function Trim(s: string): string {
    TrimEnd(TrimStart(s))
  }

  /** A string is blank exactly when trimming it leaves nothing. */
  lemma BlankIffTrimEmpty(s: string)
    ensures IsBlank(s) <==> Trim(s) == []
  {
    var t := TrimStart(s);
    TrimStartSpec(s);
    TrimEndSpec(t);
    if Trim(s) == [] {
      assert IsBlank(t[0..]);
      assert s[..|s|] == s;
    }
  }

  lemma TrimStartOfBlankPrefix(w: string, s: string)
    requires IsBlank(w)
    ensures TrimStart(w + s) == TrimStart(s)
  {
    if |w| > 0 {
      assert (w + s)[1..] == w[1..] + s;
      TrimStartOfBlankPrefix(w[1..], s);
    } else {
      assert w + s == s;
    }
  }

  lemma TrimEndOfBlankSuffix(s: string, w: string)
    requires IsBlank(w)
    ensures TrimEnd(s + w) == TrimEnd(s)
  {
    if |w| > 0 {
      assert (s + w)[..|s + w| - 1] == s + w[..|w| - 1];
      TrimEndOfBlankSuffix(s, w[..|w| - 1]);
    } else {
      assert s + w == s;
    }
  }

  /** Once a non-blank character is reached, trimming the start leaves the rest, including what follows, alone. */
  lemma TrimStartAppend(s: string, w: string)
    requires TrimStart(s) != []
    ensures TrimStart(s + w) == TrimStart(s) + w
  {
    if IsWhitespace(s[0]) {
      assert (s + w)[1..] == s[1..] + w;
      TrimStartAppend(s[1..], w);
    }
  }

  /** `a.trim() == b.trim()` is unaffected by leading and trailing whitespace on `s`. */
  lemma TrimIgnoresSurroundingWhitespace(w1: string, s: string, w2: string)
    requires IsBlank(w1) && IsBlank(w2)
    ensures Trim(w1 + s + w2) == Trim(s)
  {
    assert w1 + s + w2 == w1 + (s + w2);
    TrimStartOfBlankPrefix(w1, s + w2);
    if TrimStart(s) == [] {
      BlankIffTrimEmpty(s);
      assert IsBlank(s + w2);
      BlankIffTrimEmpty(s + w2);
    } else {
      TrimStartAppend(s, w2);
      TrimEndOfBlankSuffix(TrimStart(s), w2);
    }
  }

  /** ASCII `char::to_lowercase`. */
  function ToLowerChar(c: char): char {
    if 'A' <= c <= 'Z' then (c as int + 32) as char else c
  }

  /** `str::to_lowercase` for ASCII text: same length, each character folded. */
  function ToLower(s: string): (r: string)
    ensures |r| == |s|
    ensures forall i :: 0 <= i < |s| ==> r[i] == ToLowerChar(s[i])
  {
    seq(|s|, i requires 0 <= i < |s| => ToLowerChar(s[i]))
  }

  /** `p` occurs in `s` at offset `i`. */
  predicate MatchAt(s: string, p: string, i: nat) {
    i + |p| <= |s| && s[i..i + |p|] == p
  }

  /** `str::contains`. */
  predicate Contains(s: string, p: string) {
    exists i: nat | i <= |s| :: MatchAt(s, p, i)
  }

  predicate StartsWith(s: string, p: string) {
    |p| <= |s| && s[..|p|] == p
  }

  predicate EndsWith(s: string, p: string) {
    |p| <= |s| && s[|s| - |p|..] == p
  }

  function FindFrom(s: string, p: string, from: nat): (r: Option<nat>)
    requires from <= |s|
    decreases |s| - from
    ensures r.Some? ==> from <= r.value && MatchAt(s, p, r.value)
    ensures r.Some? ==> forall j: nat :: from <= j < r.value ==> !MatchAt(s, p, j)
    ensures r.None? ==> forall j: nat :: from <= j ==> !MatchAt(s, p, j)
  {
    if MatchAt(s, p, from) then Some(from)
    else if from == |s| then None
    else FindFrom(s, p, from + 1)
  }

  /** `str::find`: the offset of the first occurrence of `p` in `s`. */
  function Find(s: string, p: string): (r: Option<nat>)
    ensures r.Some? ==> MatchAt(s, p, r.value) && forall j: nat :: j < r.value ==> !MatchAt(s, p, j)
    ensures r.None? <==> !Contains(s, p)
  {
    FindFrom(s, p, 0)
  }

  /** `Find` reports a match when no earlier offset even starts with the pattern's first character. */
  lemma FindFirstAt(s: string, p: string, i: nat)
    requires |p| > 0 && MatchAt(s, p, i)
    requires forall j :: 0 <= j < i ==> s[j] != p[0]
    ensures Find(s, p) == Some(i)
  {
    var r := Find(s, p);
    assert r.Some?;
    assert s[r.value] == s[r.value..r.value + |p|][0] == p[0];
  }

  /** `str::rfind` for one character: the offset of its last occurrence. */
  function RFind(s: string, c: char): (r: Option<nat>)
    ensures r.Some? ==> r.value < |s| && s[r.value] == c && forall j :: r.value < j < |s| ==> s[j] != c
    ensures r.None? ==> forall j :: 0 <= j < |s| ==> s[j] != c
  {
    if |s| == 0 then None
    else if s[|s| - 1] == c then Some(|s| - 1)
    else RFind(s[..|s| - 1], c)
  }

  lemma ContainsInPrefix(a: string, b: string, p: string)
    requires Contains(a, p)
    ensures Contains(a + b, p)
  {
    var i: nat :| i <= |a| && MatchAt(a, p, i);
    assert (a + b)[i..i + |p|] == a[i..i + |p|];
    assert MatchAt(a + b, p, i);
  }

  lemma ContainsInSuffix(a: string, b: string, p: string)
    requires Contains(b, p)
    ensures Contains(a + b, p)
  {
    var i: nat :| i <= |b| && MatchAt(b, p, i);
    assert (a + b)[|a| + i..|a| + i + |p|] == b[i..i + |p|];
    assert MatchAt(a + b, p, |a| + i);
  }

  lemma ContainsItself(p: string)
    ensures Contains(p, p)
  {
    assert MatchAt(p, p, 0);
  }

  /** A string that contains `p + q` contains `p`. */
  lemma ContainsPrefixOfPattern(s: string, p: string, q: string)
    requires Contains(s, p + q)
    ensures Contains(s, p)
  {
    var i: nat :| i <= |s| && MatchAt(s, p + q, i);
    assert s[i..i + |p|] == s[i..i + |p + q|][..|p|] == p;
    assert MatchAt(s, p, i);
  }

  /** A string contains whatever sits between any prefix and any suffix. */
  lemma ContainsMiddle(a: string, p: string, b: string)
    ensures Contains(a + p + b, p)
  {
    assert (a + p + b)[|a|..|a| + |p|] == p;
    assert MatchAt(a + p + b, p, |a|);
  }

  /** `n` copies of the character `c` (`str::repeat` on a one-character string). */
  function Repeat(c: char, n: nat): (r: string)
    ensures |r| == n && forall i :: 0 <= i < n ==> r[i] == c
  {
    seq(n, _ => c)
  }

  /**
    * `str::replace` for a non-empty pattern: every non-overlapping occurrence,
    * scanning left to right, is replaced by `to`.
    */
  function Replace(s: string, from: string, to: string): string
    requires |from| > 0
    decreases |s|
  {
    if |s| < |from| then s
    else if s[..|from|] == from then to + Replace(s[|from|..], from, to)
    else [s[0]] + Replace(s[1..], from, to)
  }

  /** Replacing a pattern that does not occur changes nothing. */
  lemma {:induction false} ReplaceAbsent(s: string, from: string, to: string)
    requires |from| > 0 && !Contains(s, from)
    ensures Replace(s, from, to) == s
  {
    if |s| < |from| {
    } else {
      assert !MatchAt(s, from, 0);
      assert s[..|from|] != from;
      if Contains(s[1..], from) {
        var i: nat :| i <= |s[1..]| && MatchAt(s[1..], from, i);
        assert s[1..][i..i + |from|] == s[i + 1..i + 1 + |from|];
        assert MatchAt(s, from, i + 1);
      }
      ReplaceAbsent(s[1..], from, to);
      assert s == [s[0]] + s[1..];
    }
  }

  /** Replacing a pattern by itself changes nothing. */
  lemma {:induction false} ReplaceBySelf(s: string, p: string)
    requires |p| > 0
    ensures Replace(s, p, p) == s
    decreases |s|
  {
    if |s| < |p| {
    } else if s[..|p|] == p {
      ReplaceBySelf(s[|p|..], p);
      assert s == s[..|p|] + s[|p|..];
    } else {
      ReplaceBySelf(s[1..], p);
      assert s == [s[0]] + s[1..];
    }
  }

  /** Up to the first character of `to`, the replaced text is the original text. */
  lemma {:induction false} ReplacePrefixUntouched(s: string, from: string, to: string, j: nat)
    requires |from| > 0 && |to| > 0 && j <= |Replace(s, from, to)|
    requires forall k :: 0 <= k < j ==> Replace(s, from, to)[k] !in to
    ensures j <= |s| && Replace(s, from, to)[..j] == s[..j]
    decreases |s|
  {
    var r := Replace(s, from, to);
    assert to[0] in to;
    assert |s| >= |from| && s[..|from|] == from ==> r == to + Replace(s[|from|..], from, to);
    assert j > 0 ==> r[0] !in to;
    if |s| < |from| || j == 0 {
    } else if s[..|from|] == from {
      assert false;
    } else {
      var rest := Replace(s[1..], from, to);
      assert r == [s[0]] + rest;
      assert forall k :: 0 <= k < j - 1 ==> rest[k] == r[k + 1];
      ReplacePrefixUntouched(s[1..], from, to, j - 1);
      assert r[..j] == [s[0]] + rest[..j - 1];
      assert s[..j] == [s[0]] + s[1..][..j - 1];
    }
  }

  /** A suffix of a text without `q` has no `q` either. */
  lemma AbsentFromSuffix(s: string, q: string, n: nat)
    requires n <= |s| && !Contains(s, q)
    ensures !Contains(s[n..], q)
  {
    forall i: nat | i <= |s[n..]|
      ensures !MatchAt(s[n..], q, i)
    {
      assert !MatchAt(s, q, n + i);
      if i + |q| <= |s[n..]| {
        assert s[n..][i..i + |q|] == s[n + i..n + i + |q|];
      }
    }
  }

  /**
    * Replacing with a text that shares no character with `q` creates no occurrence of `q`:
    * an occurrence would have to lie within untouched original text.
    */
  lemma {:induction false} ReplaceKeepsAbsent(s: string, from: string, to: string, q: string)
    requires |from| > 0 && |to| > 0 && |q| > 0 && !Contains(s, q)
    requires forall k :: 0 <= k < |to| ==> to[k] !in q
    ensures !Contains(Replace(s, from, to), q)
    decreases |s|
  {
    var r := Replace(s, from, to);
    if |s| < |from| {
    } else if s[..|from|] == from {
      var rest := Replace(s[|from|..], from, to);
      AbsentFromSuffix(s, q, |from|);
      ReplaceKeepsAbsent(s[|from|..], from, to, q);
      assert r == to + rest;
      forall i: nat | i <= |r|
        ensures !MatchAt(r, q, i)
      {
        if i < |to| && i + |q| <= |r| {
          assert r[i..i + |q|][0] == to[i] && to[i] !in q && q[0] in q;
        } else if i >= |to| {
          assert !MatchAt(rest, q, i - |to|);
          if i + |q| <= |r| {
            assert r[i..i + |q|] == rest[i - |to|..i - |to| + |q|];
          }
        }
      }
    } else {
      var rest := Replace(s[1..], from, to);
      AbsentFromSuffix(s, q, 1);
      ReplaceKeepsAbsent(s[1..], from, to, q);
      assert r == [s[0]] + rest;
      forall i: nat | i <= |r|
        ensures !MatchAt(r, q, i)
      {
        if i == 0 && |q| <= |r| {
          if forall k :: 0 <= k < |q| - 1 ==> rest[k] !in to {
            ReplacePrefixUntouched(s[1..], from, to, |q| - 1);
            assert r[..|q|] == [s[0]] + rest[..|q| - 1];
            assert s[..|q|] == [s[0]] + s[1..][..|q| - 1];
            assert !MatchAt(s, q, 0);
          } else {
            var k :| 0 <= k < |q| - 1 && rest[k] in to;
            var m :| 0 <= m < |to| && to[m] == rest[k];
            assert r[..|q|][k + 1] == to[m] && to[m] !in q;
          }
        } else if i > 0 {
          assert !MatchAt(rest, q, i - 1);
          if i + |q| <= |r| {
            assert r[i..i + |q|] == rest[i - 1..i - 1 + |q|];
          }
        }
      }
    }
  }

  /** A separator that occurs in neither left part splits two joined strings the same way. */
  lemma SplitAtSeparator(a: string, b: string, c: string, d: string, sep: char)
    requires forall i :: 0 <= i < |a| ==> a[i] != sep
    requires forall i :: 0 <= i < |c| ==> c[i] != sep
    requires a + [sep] + b == c + [sep] + d
    ensures a == c && b == d
  {
    var x := a + [sep] + b;
    assert forall i :: 0 <= i < |c| ==> x[i] == c[i];
    assert forall i :: 0 <= i < |a| ==> x[i] == a[i];
    assert x[|a|] == sep && x[|c|] == sep;
    assert |a| == |c|;
    assert a == x[..|a|] == c;
    assert b == x[|a| + 1..] == d;
  }

  /** The decimal digit for `d < 10`. */
  function Digit(d: nat): char
    requires d < 10
  {
    "0123456789"[d]
  }

  /** `format!("{}", n)` for a `usize`: decimal, no sign, no leading zeros. */
  function NatToString(n: nat): (r: string)
    ensures |r| >= 1
    ensures |r| == 1 <==> n < 10
    ensures forall i :: 0 <= i < |r| ==> '0' <= r[i] <= '9'
  {
    if n < 10 then [Digit(n)] else NatToString(n / 10) + [Digit(n % 10)]
  }

  /** Distinct numbers print differently. */
  lemma {:induction false} NatToStringInjective(a: nat, b: nat)
    requires NatToString(a) == NatToString(b)
    ensures a == b
  {
    if a < 10 || b < 10 {
      assert a < 10 && b < 10;
      assert Digit(a) == NatToString(a)[0] == NatToString(b)[0] == Digit(b);
    } else {
      var sa, sb := NatToString(a), NatToString(b);
      assert sa[..|sa| - 1] == NatToString(a / 10);
      assert sb[..|sb| - 1] == NatToString(b / 10);
      NatToStringInjective(a / 10, b / 10);
      assert Digit(a % 10) == sa[|sa| - 1] == sb[|sb| - 1] == Digit(b % 10);
    }
  }

  /** The offset of the first whitespace character in `s`, or `|s|` when there is none. */
  function WordEnd(s: string): (k: nat)
    ensures k <= |s|
    ensures forall i :: 0 <= i < k ==> !IsWhitespace(s[i])
    ensures k < |s| ==> IsWhitespace(s[k])
  {
    if |s| == 0 || IsWhitespace(s[0]) then 0 else 1 + WordEnd(s[1..])
  }

  /** A word as `split_whitespace` yields it: non-empty, without whitespace. */
  predicate IsWord(w: string) {
    |w| > 0 && forall i :: 0 <= i < |w| ==> !IsWhitespace(w[i])
  }

  /** `str::split_whitespace`. */
  function Words(s: string): (ws: seq<string>)
    decreases |s|
  {
    var t := TrimStart(s);
    if t == [] then []
    else
      TrimStartSpec(s);
      var k := WordEnd(t);
      assert k > 0 by { assert !IsWhitespace(t[0]); }
      [t[..k]] + Words(t[k..])
  }

  /** A whitespace-only text has no words. */
  lemma WordsOfBlank(s: string)
    requires IsBlank(s)
    ensures Words(s) == []
  {
    TrimStartSpec(s);
  }

  /** Every item `split_whitespace` yields is a non-empty run of non-whitespace characters. */
  lemma {:induction false} WordsAreWords(s: string)
    ensures forall i :: 0 <= i < |Words(s)| ==> IsWord(Words(s)[i])
    decreases |s|
  {
    var t := TrimStart(s);
    if t != [] {
      var k := WordEnd(t);
      TrimStartSpec(s);
      assert !IsWhitespace(t[0]);
      WordsAreWords(t[k..]);
      assert Words(s) == [t[..k]] + Words(t[k..]);
    }
  }

  /** `iter.join(sep)` for strings. */
  function Join(xs: seq<string>, sep: string): string {
    if |xs| == 0 then []
    else if |xs| == 1 then xs[0]
    else xs[0] + sep + Join(xs[1..], sep)
  }

  /** Every item appears, whole, in the joined text. */
  lemma {:induction false} JoinContainsEach(xs: seq<string>, sep: string, i: nat)
    requires i < |xs|
    ensures Contains(Join(xs, sep), xs[i])
    decreases |xs|
  {
    if |xs| == 1 {
      ContainsItself(xs[0]);
    } else if i == 0 {
      ContainsItself(xs[0]);
      ContainsInPrefix(xs[0], sep + Join(xs[1..], sep), xs[0]);
      assert xs[0] + sep + Join(xs[1..], sep) == xs[0] + (sep + Join(xs[1..], sep));
    } else {
      JoinContainsEach(xs[1..], sep, i - 1);
      ContainsInSuffix(sep, Join(xs[1..], sep), xs[i]);
      ContainsInSuffix(xs[0], sep + Join(xs[1..], sep), xs[i]);
      assert xs[0] + sep + Join(xs[1..], sep) == xs[0] + (sep + Join(xs[1..], sep));
    }
  }

  /** `s.split(c).next()`: the text before the first `c`, or all of `s`. */
  function BeforeFirst(s: string, c: char): (r: string)
    ensures |r| <= |s| && r == s[..|r|]
    ensures forall i :: 0 <= i < |r| ==> r[i] != c
    ensures |r| < |s| ==> s[|r|] == c
  {
    if |s| == 0 || s[0] == c then [] else [s[0]] + BeforeFirst(s[1..], c)
  }

  /** `s.lines().next()`: `None` for empty text, else the text before the first line feed, without a trailing carriage return. */
  function FirstLine(s: string): (r: Option<string>)
    ensures r.None? <==> s == []
    ensures r.Some? ==> StartsWith(s, r.value) && forall i :: 0 <= i < |r.value| ==> r.value[i] != '\n'
  {
    if s == [] then None
    else
      var line := BeforeFirst(s, '\n');
      if |line| > 0 && line[|line| - 1] == '\r' then Some(line[..|line| - 1]) else Some(line)
  }
}
