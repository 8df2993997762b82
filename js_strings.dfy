/**
 * The few JavaScript string operations the survey walker relies on:
 * `includes`, `toLowerCase`, `trim`, `split(':').pop()`, `substring(0, n)`
 * and the decimal rendering of a step counter inside a template literal.
 */
module JsStrings {

  /** `t` occurs in `s` starting at index `i`. */
  predicate OccursAt(s: string, t: string, i: nat)
  {
    i + |t| <= |s| && s[i..i + |t|] == t
  }

  /** `s.endsWith(t)`: `t` is the tail of `s`. */
  predicate EndsWith(s: string, t: string)
  {
    |t| <= |s| && s[|s| - |t|..] == t
  }

  /** The middle piece of a concatenation occurs right after the first. */
  lemma OccursInMiddle(a: string, b: string, c: string)
    ensures OccursAt(a + b + c, b, |a|)
  {
    assert (a + b + c)[|a|..|a| + |b|] == b;
  }

  /** `s.includes(t)`: `t` occurs somewhere in `s`, so it is no longer than `s`; the empty string occurs everywhere. */
  predicate Includes(s: string, t: string)
    ensures Includes(s, t) ==> |t| <= |s|
    ensures t == [] ==> Includes(s, t)
  {
    assert t == [] ==> OccursAt(s, t, 0);
    exists i | 0 <= i <= |s| - |t| :: OccursAt(s, t, i)
  }

  /** Whoever contains a string contains every prefix of it, at the same position. */
  lemma IncludesPrefix(s: string, t: string, u: string)
    requires Includes(s, t)
    requires u <= t
    ensures Includes(s, u)
  {
    var i :| 0 <= i <= |s| - |t| && OccursAt(s, t, i);
    assert s[i..i + |u|] == s[i..i + |t|][..|u|];
    assert OccursAt(s, u, i);
  }

  /** ASCII lower-casing of one character (other characters are left alone). */
  function LowerChar(c: char): char
  {
    if 'A' <= c <= 'Z' then (c as int + 32) as char else c
  }

  /** `s.toLowerCase()`, restricted to the ASCII letters: it works character by character. */
  function ToLower(s: string): (r: string)
    ensures |r| == |s|
  {
    seq(|s|, i requires 0 <= i < |s| => LowerChar(s[i]))
  }

  /** The piece of `s` as long as `t` that starts at index `i` lowers to `t`. */
  predicate LowersTo(s: string, t: string, i: nat)
  {
    i + |t| <= |s| && ToLower(s[i..i + |t|]) == t
  }

  /** `ToLower(s).includes(t)` holds exactly when some piece of `s` as long as `t` lowers to `t`. */
  lemma IncludesLowered(s: string, t: string)
    ensures Includes(ToLower(s), t) <==> exists i | 0 <= i <= |s| - |t| :: LowersTo(s, t, i)
  {
    var l := ToLower(s);
    if Includes(l, t) {
      var i :| 0 <= i <= |l| - |t| && OccursAt(l, t, i);
      assert ToLower(s[i..i + |t|]) == l[i..i + |t|];
      assert LowersTo(s, t, i);
    }
    if exists i | 0 <= i <= |s| - |t| :: LowersTo(s, t, i) {
      var i :| 0 <= i <= |s| - |t| && LowersTo(s, t, i);
      assert ToLower(s[i..i + |t|]) == l[i..i + |t|];
      assert OccursAt(l, t, i);
    }
  }

  /** Lower-casing is idempotent: a lowered text has no upper-case ASCII letter left. */
  lemma ToLowerIdempotent(s: string)
    ensures ToLower(ToLower(s)) == ToLower(s)
  {
  }

  /**
   * The ASCII part of what `String.prototype.trim` removes: space, and TAB,
   * LF, VT, FF and CR (code points 9 to 13).
   */
  predicate IsWhitespace(c: char)
  {
    c == ' ' || '\t' <= c <= '\r'
  }

  /** `r` neither starts nor ends with whitespace, as a result of `trim` never does. */
  predicate NoOuterWhitespace(r: string)
  {
    r == [] || (!IsWhitespace(r[0]) && !IsWhitespace(r[|r| - 1]))
  }

  /** Drops the leading whitespace: the result is the suffix that starts at the first non-white character. */
  function TrimStart(s: string): (r: string)
    ensures |r| <= |s| && r == s[|s| - |r|..]
    ensures forall k :: 0 <= k < |s| - |r| ==> IsWhitespace(s[k])
    ensures r == [] || !IsWhitespace(r[0])
    decreases |s|
  {
    if s != [] && IsWhitespace(s[0]) then
      assert forall k :: 1 <= k < |s| ==> s[k] == s[1..][k - 1];
      TrimStart(s[1..])
    else s
  }

  /** Drops the trailing whitespace: the result is the prefix that ends at the last non-white character. */
  function TrimEnd(s: string): (r: string)
    ensures |r| <= |s| && r == s[..|r|]
    ensures forall k :: |r| <= k < |s| ==> IsWhitespace(s[k])
    ensures r == [] || !IsWhitespace(r[|r| - 1])
    decreases |s|
  {
    if s != [] && IsWhitespace(s[|s| - 1]) then
      assert forall k :: 0 <= k < |s| - 1 ==> s[k] == s[..|s| - 1][k];
      TrimEnd(s[..|s| - 1])
    else s
  }

  /** `r` is `s` with exactly the whitespace before index `i` and after index `i + |r|` removed. */
  predicate TrimmedAt(s: string, r: string, i: nat)
  {
    && i + |r| <= |s| && r == s[i..i + |r|]
    && (forall k :: 0 <= k < i ==> IsWhitespace(s[k]))
    && (forall k :: i + |r| <= k < |s| ==> IsWhitespace(s[k]))
  }

  /** `s.trim()`: what is left once all leading and trailing whitespace is gone. */
  function Trim(s: string): (r: string)
    ensures NoOuterWhitespace(r)
    ensures exists i: nat :: TrimmedAt(s, r, i)
  {
    TrimBothEnds(s, TrimStart(s), TrimEnd(TrimStart(s)));
    TrimEnd(TrimStart(s))
  }

  /** Trimming the end of the suffix left by `TrimStart` trims `s` on both sides. */
  lemma TrimBothEnds(s: string, t: string, r: string)
    requires |t| <= |s| && t == s[|s| - |t|..]
    requires forall k :: 0 <= k < |s| - |t| ==> IsWhitespace(s[k])
    requires t == [] || !IsWhitespace(t[0])
    requires |r| <= |t| && r == t[..|r|]
    requires forall k :: |r| <= k < |t| ==> IsWhitespace(t[k])
    requires r == [] || !IsWhitespace(r[|r| - 1])
    ensures NoOuterWhitespace(r)
    ensures TrimmedAt(s, r, |s| - |t|)
  {
    var i := |s| - |t|;
    assert r != [] ==> r[0] == t[0];
    assert r == s[i..i + |r|];
    forall k | i + |r| <= k < |s| ensures IsWhitespace(s[k]) {
      assert s[k] == t[k - i];
    }
  }

  /** Every character of a trimmed text comes from the text. */
  lemma TrimKeepsChars(s: string, c: char)
    ensures c in Trim(s) ==> c in s
  {
    var r := Trim(s);
    var i: nat :| TrimmedAt(s, r, i);
    SliceKeepsChars(s, i, i + |r|, c);
  }

  /** Every character of a piece of a text comes from the text. */
  lemma SliceKeepsChars(s: string, i: nat, j: nat, c: char)
    requires i <= j <= |s|
    ensures c in s[i..j] ==> c in s
  {
    if c in s[i..j] {
      var k :| 0 <= k < j - i && s[i..j][k] == c;
      assert s[i + k] == c;
    }
  }

  /** Trimming a trimmed text changes nothing. */
  lemma TrimIdempotent(s: string)
    ensures Trim(Trim(s)) == Trim(s)
  {
    var r := Trim(s);
    if r != [] {
      assert TrimStart(r) == r;
      assert TrimEnd(r) == r;
    }
  }

  /** The position of the last `sep` in `s` below `end`, or -1 when there is none. */
  function LastIndexBelow(s: string, sep: char, end: nat): (i: int)
    requires end <= |s|
    ensures -1 <= i < end
    ensures i >= 0 ==> s[i] == sep
    ensures forall k :: i < k < end ==> s[k] != sep
    decreases end
  {
    if end == 0 then -1
    else if s[end - 1] == sep then end - 1
    else LastIndexBelow(s, sep, end - 1)
  }

  /**
   * `s.split(sep).pop()`: the last piece of the split, that is the longest
   * suffix of `s` free of `sep`; it is all of `s` when `sep` does not occur.
   */
  function AfterLast(s: string, sep: char): (r: string)
    ensures sep !in r
    ensures |r| <= |s| && r == s[|s| - |r|..]
    ensures |r| < |s| ==> s[|s| - |r| - 1] == sep
  {
    var i := LastIndexBelow(s, sep, |s|);
    s[i + 1..]
  }

  /** `s.substring(0, n)` for a non-negative `n`: at most the first `n` characters. */
  function Prefix(s: string, n: nat): (r: string)
    ensures |r| == if |s| < n then |s| else n
    ensures r <= s
  {
    if |s| < n then s else s[..n]
  }

  /** The decimal digit for `d`. */
  function Digit(d: nat): char
    requires d < 10
  {
    ('0' as int + d) as char
  }

  /** `${n}` for a natural number: its decimal digits, most significant first. */
  function NatToString(n: nat): (r: string)
    ensures |r| >= 1
    ensures forall k :: 0 <= k < |r| ==> '0' <= r[k] <= '9'
    ensures n >= 10 ==> r[0] != '0'
    decreases n
  {
    if n < 10 then [Digit(n)] else NatToString(n / 10) + [Digit(n % 10)]
  }

  /** The number a run of decimal digits denotes, most significant first. */
  function DecimalValue(s: string): nat
    requires forall k :: 0 <= k < |s| ==> '0' <= s[k] <= '9'
    decreases |s|
  {
    if s == [] then 0 else DecimalValue(s[..|s| - 1]) * 10 + (s[|s| - 1] as int - '0' as int)
  }

  /** Reading the digits of `${n}` back gives `n`: distinct numbers print differently. */
  lemma {:induction false} NatToStringRoundTrip(n: nat)
    ensures DecimalValue(NatToString(n)) == n
    decreases n
  {
    if n >= 10 {
      NatToStringRoundTrip(n / 10);
      var r := NatToString(n);
      assert r[..|r| - 1] == NatToString(n / 10);
    }
  }
}
