/** The JavaScript value semantics the handlers rely on: truthiness of request
    fields, the String built-ins `toLowerCase`, `toUpperCase`, `trim`,
    `startsWith`, `endsWith` and `includes`, the `\s` character class, and the
    decimal formatting of a non-negative integer inside a template literal. */
module Js {
  import opened Wrappers

  // ---------------------------------------------------------------------------
  // Truthiness
  // ---------------------------------------------------------------------------

  /** A string field passes `if (x)`: it is present and not the empty string. */
  predicate Truthy(x: Option<string>) {
    x.Some? && x.value != ""
  }

  /** A numeric field passes `if (x)`: it is present and not zero. */
  predicate TruthyNumber(x: Option<int>) {
    x.Some? && x.value != 0
  }

  /** `x || d` for a string field. */
  function OrElse(x: Option<string>, d: string): string {
    if Truthy(x) then x.value else d
  }

  /** `x || d` for a numeric field. */
  function OrElseNumber(x: Option<int>, d: int): int {
    if TruthyNumber(x) then x.value else d
  }

  // ---------------------------------------------------------------------------
  // Characters
  // ---------------------------------------------------------------------------

  /** The ECMAScript WhiteSpace and LineTerminator code points: what `trim`
      removes and what the regular-expression class `\s` matches. */
  predicate IsWhiteSpace(c: char) {
    var n := c as int;
    || 0x09 <= n <= 0x0D
    || n == 0x20 || n == 0xA0 || n == 0x1680
    || 0x2000 <= n <= 0x200A
    || n == 0x2028 || n == 0x2029 || n == 0x202F || n == 0x205F
    || n == 0x3000 || n == 0xFEFF
  }

  /** `toLowerCase` on one character (ASCII letters). */
  function LowerChar(c: char): char {
    if 'A' <= c <= 'Z' then (c as int + 32) as char else c
  }

  /** `toUpperCase` on one character (ASCII letters). */
  function UpperChar(c: char): char {
    if 'a' <= c <= 'z' then (c as int - 32) as char else c
  }

  /** `s.toLowerCase()`. */
  function Lower(s: string): (r: string)
    ensures |r| == |s|
    ensures forall i | 0 <= i < |s| :: r[i] == LowerChar(s[i])
  {
    seq(|s|, i requires 0 <= i < |s| => LowerChar(s[i]))
  }

  /** `s.toUpperCase()`. */
  function Upper(s: string): (r: string)
    ensures |r| == |s|
    ensures forall i | 0 <= i < |s| :: r[i] == UpperChar(s[i])
  {
    seq(|s|, i requires 0 <= i < |s| => UpperChar(s[i]))
  }

  /** Lower-casing twice is lower-casing once. */
  lemma LowerIdempotent(s: string)
    ensures Lower(Lower(s)) == Lower(s)
  {
  }

  /** A string without upper-case ASCII letters is its own lower case. */
  lemma LowerUnchanged(s: string)
    requires forall i | 0 <= i < |s| :: !('A' <= s[i] <= 'Z')
    ensures Lower(s) == s
  {
  }

  /** Lower-casing distributes over concatenation. */
  lemma LowerConcat(a: string, b: string)
    ensures Lower(a + b) == Lower(a) + Lower(b)
  {
    assert forall i | 0 <= i < |a + b| :: Lower(a + b)[i] == (Lower(a) + Lower(b))[i];
  }

  /** Lower-casing neither creates nor removes white space. */
  lemma LowerCharWhiteSpace(c: char)
    ensures IsWhiteSpace(LowerChar(c)) <==> IsWhiteSpace(c)
  {
  }

  // ---------------------------------------------------------------------------
  // trim
  // ---------------------------------------------------------------------------

  /** Has no leading and no trailing white space. */
  predicate IsTrimmed(s: string) {
    s == [] || (!IsWhiteSpace(s[0]) && !IsWhiteSpace(s[|s| - 1]))
  }

  /** The first position at or after `i` that does not hold white space. */
  function SkipWhiteSpace(s: string, i: nat): (r: nat)
    requires i <= |s|
    ensures i <= r <= |s|
    ensures forall k | i <= k < r :: IsWhiteSpace(s[k])
    ensures r == |s| || !IsWhiteSpace(s[r])
    decreases |s| - i
  {
    if i < |s| && IsWhiteSpace(s[i]) then SkipWhiteSpace(s, i + 1) else i
  }

  /** The end of `s[lo..j]` once its trailing white space is dropped. */
  function SkipWhiteSpaceBack(s: string, lo: nat, j: nat): (r: nat)
    requires lo <= j <= |s|
    ensures lo <= r <= j
    ensures forall k | r <= k < j :: IsWhiteSpace(s[k])
    ensures r == lo || !IsWhiteSpace(s[r - 1])
    decreases j - lo
  {
    if lo < j && IsWhiteSpace(s[j - 1]) then SkipWhiteSpaceBack(s, lo, j - 1) else j
  }

  /** The number of leading white-space characters of `s`. */
  function LeadingWhiteSpace(s: string): (n: nat)
    ensures n <= |s|
  {
    SkipWhiteSpace(s, 0)
  }

  /** `s.trim()`: the contiguous part of `s` left after removing leading and
      trailing white space. */
  function Trim(s: string): (r: string)
    ensures IsTrimmed(r)
    ensures LeadingWhiteSpace(s) + |r| <= |s|
    ensures r == s[LeadingWhiteSpace(s)..LeadingWhiteSpace(s) + |r|]
    ensures forall i | 0 <= i < LeadingWhiteSpace(s) :: IsWhiteSpace(s[i])
    ensures forall i | LeadingWhiteSpace(s) + |r| <= i < |s| :: IsWhiteSpace(s[i])
  {
    var a := SkipWhiteSpace(s, 0);
    s[a..SkipWhiteSpaceBack(s, a, |s|)]
  }

  /** `SkipWhiteSpace` is characterised by its contract. */
  lemma SkipWhiteSpaceAt(s: string, i: nat, m: nat)
    requires i <= m <= |s|
    requires forall k | i <= k < m :: IsWhiteSpace(s[k])
    requires m == |s| || !IsWhiteSpace(s[m])
    ensures SkipWhiteSpace(s, i) == m
  {
  }

  /** `SkipWhiteSpaceBack` is characterised by its contract. */
  lemma SkipWhiteSpaceBackAt(s: string, lo: nat, j: nat, m: nat)
    requires lo <= m <= j <= |s|
    requires forall k | m <= k < j :: IsWhiteSpace(s[k])
    requires m == lo || !IsWhiteSpace(s[m - 1])
    ensures SkipWhiteSpaceBack(s, lo, j) == m
  {
  }

  /** Trimming a string that has no surrounding white space changes nothing. */
  lemma TrimTrimmed(s: string)
    requires IsTrimmed(s)
    ensures Trim(s) == s
  {
    SkipWhiteSpaceAt(s, 0, 0);
    SkipWhiteSpaceBackAt(s, 0, |s|, |s|);
  }

  /** White space on either side of a trimmed string is removed by `trim`. */
  lemma TrimPadded(pre: string, s: string, post: string)
    requires IsTrimmed(s)
    requires forall i | 0 <= i < |pre| :: IsWhiteSpace(pre[i])
    requires forall i | 0 <= i < |post| :: IsWhiteSpace(post[i])
    ensures Trim(pre + s + post) == s
  {
    var x := pre + s + post;
    var a, b := |pre|, |pre| + |s|;
    if s == [] {
      SkipWhiteSpaceAt(x, 0, |x|);
      SkipWhiteSpaceBackAt(x, |x|, |x|, |x|);
    } else {
      assert x[a] == s[0] && x[b - 1] == s[|s| - 1];
      SkipWhiteSpaceAt(x, 0, a);
      SkipWhiteSpaceBackAt(x, a, |x|, b);
      assert x[a..b] == s;
    }
  }

  // ---------------------------------------------------------------------------
  // startsWith / endsWith / includes
  // ---------------------------------------------------------------------------

  /** `s.startsWith(p)`. */
  predicate StartsWith(s: string, p: string) {
    |p| <= |s| && s[..|p|] == p
  }

  /** `s.endsWith(p)`. */
  predicate EndsWith(s: string, p: string) {
    |p| <= |s| && s[|s| - |p|..] == p
  }

  /** `s.includes(k)`: `k` occurs in `s` at some position. */
  predicate Contains(s: string, k: string) {
    exists i: nat | i <= |s| :: OccursAt(s, k, i)
  }

  /** `k` occurs in `s` starting at position `i`. */
  predicate OccursAt(s: string, k: string, i: nat) {
    i + |k| <= |s| && s[i..i + |k|] == k
  }

  /** An occurrence at a known position witnesses `includes`. */
  lemma ContainsAt(s: string, k: string, i: nat)
    requires OccursAt(s, k, i)
    ensures Contains(s, k)
  {
  }

  /** A key whose first character never occurs in `s` is not included. */
  lemma NotContainsFirstChar(s: string, k: string)
    requires k != [] && k[0] !in s
    ensures !Contains(s, k)
  {
    forall i: nat | i + |k| <= |s|
      ensures !OccursAt(s, k, i)
    {
      assert s[i..i + |k|][0] == s[i];
    }
  }

  /** A key whose first two characters never occur side by side, at a position
      where the whole key would fit, is not included in `s`. */
  lemma NotContainsFirstPair(s: string, k: string)
    requires |k| >= 2
    requires forall i | 0 <= i <= |s| - |k| :: !(s[i] == k[0] && s[i + 1] == k[1])
    ensures !Contains(s, k)
  {
    forall i: nat | i + |k| <= |s|
      ensures !OccursAt(s, k, i)
    {
      assert s[i..i + |k|][0] == s[i] && s[i..i + |k|][1] == s[i + 1];
    }
  }

  // ---------------------------------------------------------------------------
  // Decimal formatting
  // ---------------------------------------------------------------------------

  predicate IsDigit(c: char) {
    '0' <= c <= '9'
  }

  function DigitChar(d: nat): (c: char)
    requires d < 10
    ensures IsDigit(c)
  {
    ('0' as int + d) as char
  }

  /** The value of a decimal digit. */
  function DigitValue(c: char): (d: nat)
    requires IsDigit(c)
    ensures d < 10 && DigitChar(d) == c
  {
    c as int - '0' as int
  }

  /** The number a string of decimal digits denotes, most significant digit
      first; the empty string denotes 0. */
  function DecimalValue(s: string): nat
    requires forall i | 0 <= i < |s| :: IsDigit(s[i])
  {
    if s == [] then 0 else 10 * DecimalValue(s[..|s| - 1]) + DigitValue(s[|s| - 1])
  }

  /** The decimal text of `n`, as `${n}` renders a non-negative integer: the
      digits denote `n`, and there is no leading zero. */
  function NatToString(n: nat): (r: string)
    ensures |r| >= 1
    ensures forall i | 0 <= i < |r| :: IsDigit(r[i])
    ensures DecimalValue(r) == n
    ensures |r| >= 2 ==> r[0] != '0'
    ensures n >= 10 <==> |r| >= 2
  {
    if n < 10 then
      var r := [DigitChar(n)];
      assert r[..0] == [];
      r
    else
      var p := NatToString(n / 10);
      var r := p + [DigitChar(n % 10)];
      assert r[..|r| - 1] == p;
      r
  }

  /** Distinct numbers have distinct decimal texts: the text determines its
      value. */
  lemma NatToStringInjective(a: nat, b: nat)
    requires NatToString(a) == NatToString(b)
    ensures a == b
  {
  }

  /** `prefix + x` determines `x`. */
  lemma ConcatCancel(prefix: string, x: string, y: string)
    requires prefix + x == prefix + y
    ensures x == y
  {
    assert x == (prefix + x)[|prefix|..];
    assert y == (prefix + y)[|prefix|..];
  }

  /** `${key}-${i}` identifiers are distinct for distinct indices. */
  lemma IndexedIdsDistinct(key: string, i: nat, j: nat)
    requires i != j
    ensures key + "-" + NatToString(i) != key + "-" + NatToString(j)
  {
    if key + "-" + NatToString(i) == key + "-" + NatToString(j) {
      assert key + "-" + NatToString(i) == (key + "-") + NatToString(i);
      assert key + "-" + NatToString(j) == (key + "-") + NatToString(j);
      ConcatCancel(key + "-", NatToString(i), NatToString(j));
      NatToStringInjective(i, j);
    }
  }

  /** A list whose `i`-th entry is `${key}-${i}` has pairwise distinct
      entries. */
  lemma IndexedIdsPairwiseDistinct(key: string, ids: seq<string>)
    requires forall i | 0 <= i < |ids| :: ids[i] == key + "-" + NatToString(i)
    ensures forall i, j | 0 <= i < j < |ids| :: ids[i] != ids[j]
  {
    forall i, j | 0 <= i < j < |ids|
      ensures ids[i] != ids[j]
    {
      IndexedIdsDistinct(key, i, j);
    }
  }

  /** Any string function that lets each character satisfying `keep` pass
      in front unchanged lets a whole prefix of such characters pass. */
  lemma {:induction false} PrefixCommutes(f: string -> string, keep: char -> bool, a: string, t: string)
    requires forall c: char, x: string | keep(c) :: f([c] + x) == [c] + f(x)
    requires forall i | 0 <= i < |a| :: keep(a[i])
    ensures f(a + t) == a + f(t)
  {
    if a == [] {
      assert a + t == t;
    } else {
      var rest := a[1..];
      assert forall i | 0 <= i < |rest| :: rest[i] == a[i + 1];
      PrefixCommutes(f, keep, rest, t);
      assert a + t == [a[0]] + (rest + t);
      assert a == [a[0]] + rest;
    }
  }
}
