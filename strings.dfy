/**
 * The Kotlin string operations the app relies on: ordering with `<`,
 * `trim()`, and shortening with `take(n) + suffix`.
 * Characters are Unicode scalar values here; Kotlin counts and compares
 * UTF-16 code units, which agree with them on the Basic Multilingual Plane.
 */
module Strings {

  function Min(a: int, b: int): int {
    if a <= b then a else b
  }

  /** Kotlin's `a < b` on strings (`compareTo(b) < 0`): at the first index where
      the two differ the char of `a` is smaller, or `a` is a proper prefix of `b`. */
  predicate LexLess(a: string, b: string)
    ensures LexLess(a, b) ==> a != b
    ensures |a| < |b| && a == b[..|a|] ==> LexLess(a, b)
    ensures |b| <= |a| && b == a[..|b|] ==> !LexLess(a, b)
    decreases |a|
  {
    if |a| == 0 then |b| > 0
    else if |b| == 0 then false
    else if a[0] != b[0] then a[0] < b[0]
    else LexLess(a[1..], b[1..])
  }

  /** An independent statement of the same order, by its first difference. */
  ghost predicate FirstDifferenceLess(a: string, b: string) {
    || (|a| < |b| && a == b[..|a|])
    || (exists k :: 0 <= k < |a| && k < |b| && a[..k] == b[..k] && a[k] < b[k])
  }

  lemma {:induction false} LexLessIrreflexive(a: string)
    ensures !LexLess(a, a)
    decreases |a|
  {
    if |a| > 0 {
      LexLessIrreflexive(a[1..]);
    }
  }

  lemma {:induction false} LexLessAsymmetric(a: string, b: string)
    requires LexLess(a, b)
    ensures !LexLess(b, a)
    decreases |a|
  {
    if |a| > 0 && |b| > 0 && a[0] == b[0] {
      LexLessAsymmetric(a[1..], b[1..]);
    }
  }

  /** Any two different strings are ordered one way or the other. */
  lemma {:induction false} LexLessTotal(a: string, b: string)
    requires a != b
    ensures LexLess(a, b) || LexLess(b, a)
    decreases |a|
  {
    if |a| > 0 && |b| > 0 && a[0] == b[0] {
      assert a == [a[0]] + a[1..] && b == [b[0]] + b[1..];
      LexLessTotal(a[1..], b[1..]);
    }
  }

  /** The recursive order is exactly the first-difference order. */
  lemma {:induction false} LexLessIsFirstDifference(a: string, b: string)
    ensures LexLess(a, b) <==> FirstDifferenceLess(a, b)
    decreases |a|
  {
    if |a| == 0 {
      assert a == b[..0];
    } else if |b| == 0 {
    } else if a[0] != b[0] {
      HeadsDiffer(a, b);
    } else {
      LexLessIsFirstDifference(a[1..], b[1..]);
      HeadsEqual(a, b);
    }
  }

  lemma HeadsDiffer(a: string, b: string)
    requires |a| > 0 && |b| > 0 && a[0] != b[0]
    ensures FirstDifferenceLess(a, b) <==> a[0] < b[0]
  {
    if a[0] < b[0] {
      assert a[..0] == b[..0];
    }
  }

  /** With equal first characters, the order is decided by the tails. */
  lemma HeadsEqual(a: string, b: string)
    requires |a| > 0 && |b| > 0 && a[0] == b[0]
    ensures FirstDifferenceLess(a, b) <==> FirstDifferenceLess(a[1..], b[1..])
  {
    PrefixTails(a, b);
    FirstDifferenceTails(a, b);
  }

  lemma PrefixTails(a: string, b: string)
    requires |a| > 0 && |b| > 0 && a[0] == b[0]
    ensures (|a| < |b| && a == b[..|a|]) <==> (|a[1..]| < |b[1..]| && a[1..] == b[1..][..|a[1..]|])
  {
    var a', b' := a[1..], b[1..];
    assert a == [a[0]] + a' && b == [b[0]] + b';
    if |a'| < |b'| && a' == b'[..|a'|] {
      assert b[..|a|] == [b[0]] + b'[..|a'|];
    }
    if |a| < |b| && a == b[..|a|] {
      assert a' == a[1..] == b[..|a|][1..] == b'[..|a'|];
    }
  }

  lemma FirstDifferenceTails(a: string, b: string)
    requires |a| > 0 && |b| > 0 && a[0] == b[0]
    ensures (exists k :: 0 <= k < |a| && k < |b| && a[..k] == b[..k] && a[k] < b[k])
       <==> (exists k :: 0 <= k < |a| - 1 && k < |b| - 1 && a[1..][..k] == b[1..][..k] && a[1..][k] < b[1..][k])
  {
    var a', b' := a[1..], b[1..];
    if k' :| 0 <= k' < |a'| && k' < |b'| && a'[..k'] == b'[..k'] && a'[k'] < b'[k'] {
      var k := k' + 1;
      assert a[..k] == [a[0]] + a'[..k'] && b[..k] == [b[0]] + b'[..k'];
      assert a[k] == a'[k'] && b[k] == b'[k'];
    }
    if k :| 0 <= k < |a| && k < |b| && a[..k] == b[..k] && a[k] < b[k] {
      assert k != 0;
      var k' := k - 1;
      assert a'[..k'] == a[1..k] == b[1..k] == b'[..k'];
      assert a'[k'] == a[k] && b'[k'] == b[k];
    }
  }

  /** Kotlin's `Char.isWhitespace()` on the JVM: `Character.isWhitespace(c) ||
      Character.isSpaceChar(c)`, i.e. the control characters TAB..CR and
      FS..US, and every space, line and paragraph separator. */
  predicate IsWhitespace(c: char)
    ensures c == ' ' || c == '\t' || c == '\n' || c == '\r' || c == '\U{A0}' || c == '\U{3000}' ==> IsWhitespace(c)
    ensures ('0' <= c <= '9') || ('A' <= c <= 'Z') || ('a' <= c <= 'z') || c == '_' ==> !IsWhitespace(c)
    ensures c == '\U{200B}' || c == '\U{FEFF}' ==> !IsWhitespace(c)
  {
    || ('\t' <= c <= '\r')
    || ('\U{1C}' <= c <= ' ')
    || c == '\U{A0}' || c == '\U{1680}'
    || ('\U{2000}' <= c <= '\U{200A}')
    || c == '\U{2028}' || c == '\U{2029}' || c == '\U{202F}' || c == '\U{205F}'
    || c == '\U{3000}'
  }

  ghost predicate AllWhitespace(s: string) {
    forall i :: 0 <= i < |s| ==> IsWhitespace(s[i])
  }

  /** The length of the whitespace run that starts `s`. */
  function LeadingWhitespace(s: string): (n: nat)
    ensures n <= |s|
    ensures forall i :: 0 <= i < n ==> IsWhitespace(s[i])
    ensures n < |s| ==> !IsWhitespace(s[n])
  {
    if |s| > 0 && IsWhitespace(s[0]) then 1 + LeadingWhitespace(s[1..]) else 0
  }

  /** The length of the whitespace run that ends `s`. */
  function TrailingWhitespace(s: string): (n: nat)
    ensures n <= |s|
    ensures forall i :: |s| - n <= i < |s| ==> IsWhitespace(s[i])
    ensures n < |s| ==> !IsWhitespace(s[|s| - 1 - n])
  {
    if |s| > 0 && IsWhitespace(s[|s| - 1]) then 1 + TrailingWhitespace(s[..|s| - 1]) else 0
  }

  /** Kotlin's `trim()`: `s` without its leading and trailing whitespace. */
  function Trim(s: string): (r: string)
    ensures |r| <= |s|
    ensures LeadingWhitespace(s) + |r| <= |s|
    ensures r == s[LeadingWhitespace(s)..LeadingWhitespace(s) + |r|]
    ensures AllWhitespace(s[..LeadingWhitespace(s)])
    ensures AllWhitespace(s[LeadingWhitespace(s) + |r|..])
    ensures r != [] ==> !IsWhitespace(r[0]) && !IsWhitespace(r[|r| - 1])
    ensures r == [] <==> AllWhitespace(s)
  {
    var n := LeadingWhitespace(s);
    var rest := s[n..];
    var r := rest[..|rest| - TrailingWhitespace(rest)];
    TrimSplit(s, n, r);
    r
  }

  /** `s` is whitespace, then `r`, then whitespace. */
  lemma TrimSplit(s: string, n: nat, r: string)
    requires n == LeadingWhitespace(s)
    requires r == s[n..][..|s[n..]| - TrailingWhitespace(s[n..])]
    ensures n + |r| <= |s| && AllWhitespace(s[n + |r|..])
    ensures r == [] ==> AllWhitespace(s)
  {
    var rest := s[n..];
    assert s[n + |r|..] == rest[|r|..];
  }

  /** `s.take(limit) + suffix` when `s` is longer than `limit`, otherwise `s`. */
  function Truncate(s: string, limit: nat, suffix: string): (r: string)
    ensures |s| <= limit ==> r == s
    ensures |s| > limit ==> |r| == limit + |suffix| && r[..limit] == s[..limit] && r[limit..] == suffix
  {
    if |s| > limit then s[..limit] + suffix else s
  }

  /** Whatever the length, the shortened string starts with the first
      `min(limit, |s|)` characters of `s` and is at most `limit + |suffix|` long. */
  lemma TruncateKeepsPrefix(s: string, limit: nat, suffix: string)
    ensures var k := Min(limit, |s|);
      |Truncate(s, limit, suffix)| >= k && Truncate(s, limit, suffix)[..k] == s[..k]
    ensures |Truncate(s, limit, suffix)| <= if |s| <= limit then |s| else limit + |suffix|
  {
  }
}
