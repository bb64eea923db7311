/**
 * The string operations of PHP that the adapter uses, on strings of
 * characters: decimal rendering of integers, `preg_replace` with a negated
 * character class (a filter), `explode(...)[0]` (the part before the first
 * separator) and `substr($s, 0, $n)` (a prefix).
 */
module PhpString {

  predicate IsDigit(c: char) {
    '0' <= c <= '9'
  }

  /** The character class `[a-zA-Z0-9_-]`. */
  predicate IsTokenChar(c: char) {
    ('a' <= c <= 'z') || ('A' <= c <= 'Z') || IsDigit(c) || c == '_' || c == '-'
  }

  ghost predicate AllSatisfy(s: string, p: char -> bool) {
    forall i :: 0 <= i < |s| ==> p(s[i])
  }

  /** PHP's boolean conversion of a string: only "" and "0" are false. */
  predicate IsTruthyString(s: string) {
    s != "" && s != "0"
  }

  /** a can be obtained from b by deleting characters. */
  predicate IsSubsequence(a: string, b: string)
    decreases |b|
  {
    if a == [] then true
    else if b == [] then false
    else if a[0] == b[0] then IsSubsequence(a[1..], b[1..])
    else IsSubsequence(a, b[1..])
  }

  /** A prefix keeps the property every character has. */
  lemma AllSatisfyPrefix(s: string, n: nat, p: char -> bool)
    requires AllSatisfy(s, p) && n <= |s|
    ensures AllSatisfy(s[..n], p)
  {
    assert forall k :: 0 <= k < n ==> s[..n][k] == s[k];
  }

  /**
   * `preg_replace('/[^C]/', '', s)` where `keep` is the class C: the
   * characters of s that `keep` accepts, in their order, and nothing else.
   */
  function Filter(s: string, keep: char -> bool): (r: string)
    ensures |r| <= |s| && AllSatisfy(r, keep)
    ensures IsSubsequence(r, s)
    ensures AllSatisfy(s, keep) ==> r == s
    ensures (forall i :: 0 <= i < |s| ==> !keep(s[i])) ==> r == []
  {
    if s == [] then []
    else
      var rest := Filter(s[1..], keep);
      assert s == [s[0]] + s[1..];
      if keep(s[0]) then
        assert ([s[0]] + rest)[1..] == rest;
        [s[0]] + rest
      else
        rest
  }

  /** Filter drops no character that keep accepts: each occurs as often in the result. */
  lemma {:induction false} FilterKeepsAccepted(s: string, keep: char -> bool, c: char)
    requires keep(c)
    ensures multiset(Filter(s, keep))[c] == multiset(s)[c]
    decreases |s|
  {
    if s != [] {
      FilterKeepsAccepted(s[1..], keep, c);
      assert s == [s[0]] + s[1..];
    }
  }

  lemma {:induction false} FilterAppend(a: string, b: string, keep: char -> bool)
    ensures Filter(a + b, keep) == Filter(a, keep) + Filter(b, keep)
    decreases |a|
  {
    if a != [] {
      var s := a + b;
      assert s[0] == a[0];
      assert s[1..] == a[1..] + b;
      FilterAppend(a[1..], b, keep);
      var head := if keep(a[0]) then [a[0]] else [];
      assert Filter(s, keep) == head + Filter(a[1..] + b, keep);
      assert Filter(a, keep) == head + Filter(a[1..], keep);
    } else {
      assert a + b == b;
    }
  }

  /** Appending characters that keep rejects leaves the filtered text as it was. */
  lemma FilterAppendRejected(a: string, b: string, keep: char -> bool)
    requires Filter(b, keep) == []
    ensures Filter(a + b, keep) == Filter(a, keep)
  {
    FilterAppend(a, b, keep);
    assert Filter(a, keep) + [] == Filter(a, keep);
  }

  /** sep occurs in s starting at index i. */
  predicate OccursAt(s: string, sep: string, i: nat) {
    i + |sep| <= |s| && s[i..i + |sep|] == sep
  }

  lemma OccursAtTail(s: string, sep: string)
    requires s != []
    ensures forall i: nat :: 1 <= i ==> (OccursAt(s, sep, i) <==> OccursAt(s[1..], sep, i - 1))
  {
    forall i: nat | 1 <= i ensures OccursAt(s, sep, i) <==> OccursAt(s[1..], sep, i - 1) {
      if i + |sep| <= |s| {
        var t := s[1..];
        var a, b := s[i..i + |sep|], t[i - 1..i - 1 + |sep|];
        forall j | 0 <= j < |sep| ensures a[j] == b[j] {
          assert a[j] == s[i + j] && b[j] == t[i - 1 + j];
        }
        assert a == b;
      }
    }
  }

  /**
   * `explode($sep, $s)[0]`: the part of s before the first occurrence of
   * sep, or all of s when sep does not occur. The three ensures clauses
   * determine the result: a prefix of s, holding no occurrence of sep, and
   * followed by one unless it is all of s.
   */
  function Before(s: string, sep: string): (r: string)
    requires sep != []
    ensures r <= s
    ensures forall i: nat :: i < |r| ==> !OccursAt(s, sep, i)
    ensures |r| < |s| ==> OccursAt(s, sep, |r|)
    decreases |s|
  {
    if |s| < |sep| then s
    else if s[..|sep|] == sep then []
    else
      OccursAtTail(s, sep);
      assert !OccursAt(s, sep, 0);
      [s[0]] + Before(s[1..], sep)
  }

  /** Before never looks past characters that cannot start the separator. */
  lemma {:induction false} BeforeSkip(p: string, x: string, sep: string)
    requires sep != []
    requires forall i :: 0 <= i < |p| ==> p[i] != sep[0]
    ensures Before(p + x, sep) == p + Before(x, sep)
    decreases |p|
  {
    if p == [] {
      assert p + x == x;
    } else {
      var s := p + x;
      assert s[0] == p[0];
      assert s[1..] == p[1..] + x;
      if |s| < |sep| {
      } else {
        assert s[..|sep|][0] == p[0];
        BeforeSkip(p[1..], x, sep);
        assert p == [p[0]] + p[1..];
      }
    }
  }

  /** `substr($s, 0, $n)` for n >= 0: the first min(n, |s|) characters. */
  function Truncate(s: string, n: nat): (r: string)
    ensures |r| == if |s| <= n then |s| else n
    ensures r == s[..|r|]
  {
    if |s| <= n then s else s[..n]
  }

  /** Cutting `a + b + c` within a keeps only a prefix of a. */
  lemma TruncateWithin(a: string, b: string, c: string, n: nat)
    requires n <= |a|
    ensures Truncate(a + b + c, n) == a[..n]
  {
    assert (a + b + c)[..n] == a[..n];
  }

  lemma TruncateAppend(p: string, y: string, n: nat)
    requires |p| <= n
    ensures Truncate(p + y, n) == p + Truncate(y, n - |p|)
  {
    if |p + y| > n {
      assert (p + y)[..n] == p + y[..n - |p|];
    }
  }

  function Pow10(k: nat): (r: nat)
    ensures r >= 1
  {
    if k == 0 then 1 else 10 * Pow10(k - 1)
  }

  function DigitChar(d: nat): (c: char)
    requires d < 10
    ensures IsDigit(c)
  {
    ('0' as int + d) as char
  }

  function DigitValue(c: char): (d: nat)
    requires IsDigit(c)
    ensures d < 10
  {
    c as int - '0' as int
  }

  /** `(string)$n` for a non-negative integer: decimal digits, no leading zero. */
  function NatToString(n: nat): (r: string)
    ensures |r| >= 1 && AllSatisfy(r, IsDigit)
    ensures r[0] == '0' <==> n == 0
    decreases n
  {
    if n < 10 then [DigitChar(n)]
    else NatToString(n / 10) + [DigitChar(n % 10)]
  }

  /** `(string)$i` for any integer: a minus sign before the digits of a negative one. */
  function IntToString(i: int): (r: string)
    ensures |r| >= 1 && (r[0] == '-' <==> i < 0)
    ensures var digits := if i < 0 then r[1..] else r;
      |digits| >= 1 && AllSatisfy(digits, IsDigit) && DecimalValue(digits) == (if i < 0 then -i else i)
  {
    DecimalValueOfNatToString(if i < 0 then -i else i);
    if i < 0 then
      var r := "-" + NatToString(-i);
      assert r[1..] == NatToString(-i);
      r
    else NatToString(i)
  }

  /** A non-negative integer renders as its decimal digits. */
  lemma IntToStringOfNat(n: nat)
    ensures IntToString(n) == NatToString(n)
  {
  }

  /** The number a string of decimal digits denotes, as `(int)$s` reads it. */
  function DecimalValue(s: string): (v: nat)
    requires AllSatisfy(s, IsDigit)
    ensures v < Pow10(|s|)
    decreases |s|
  {
    if s == [] then 0
    else
      var prefix := s[..|s| - 1];
      assert AllSatisfy(prefix, IsDigit) by {
        forall i | 0 <= i < |prefix| ensures IsDigit(prefix[i]) { assert prefix[i] == s[i]; }
      }
      var high := DecimalValue(prefix);
      assert high * 10 <= (Pow10(|prefix|) - 1) * 10;
      high * 10 + DigitValue(s[|s| - 1])
  }

  /** Reading back the decimal rendering of n gives n. */
  lemma {:induction false} DecimalValueOfNatToString(n: nat)
    ensures DecimalValue(NatToString(n)) == n
    decreases n
  {
    var r := NatToString(n);
    if n >= 10 {
      var high := NatToString(n / 10);
      assert r[..|r| - 1] == high;
      assert r[|r| - 1] == DigitChar(n % 10);
      DecimalValueOfNatToString(n / 10);
    }
  }

  /** n has at most k decimal digits exactly when n < 10^k. */
  lemma {:induction false} NatToStringLength(n: nat, k: nat)
    requires k >= 1
    ensures |NatToString(n)| <= k <==> n < Pow10(k)
    decreases n
  {
    if n < 10 {
      PowAtLeastTen(k);
    } else if k == 1 {
      assert Pow10(1) == 10;
    } else {
      NatToStringLength(n / 10, k - 1);
    }
  }

  lemma {:induction false} PowAtLeastTen(k: nat)
    requires k >= 1
    ensures Pow10(k) >= 10
    decreases k
  {
    if k > 1 {
      PowAtLeastTen(k - 1);
    }
  }
}
