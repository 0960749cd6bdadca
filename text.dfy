/**
 * The string operations the adapters use: `sep.join(parts)`, splitting,
 * ASCII lower-casing, `startswith`, and `str(n)` of a natural number.
 */
module Text {

  // ---------------------------------------------------------------------
  // Joining and splitting

  /** Python's `sep.join(parts)`: the parts in order, `sep` between neighbours. */
  function Join(parts: seq<string>, sep: string): (r: string)
    ensures parts == [] ==> r == ""
    ensures |parts| == 1 ==> r == parts[0]
  {
    if |parts| == 0 then ""
    else if |parts| == 1 then parts[0]
    else parts[0] + sep + Join(parts[1..], sep)
  }

  /** Pieces of `s` between occurrences of `c` (Python's `s.split(c)`; never empty). */
  function Split(s: string, c: char): (r: seq<string>)
    ensures |r| >= 1
  {
    if |s| == 0 then [""]
    else if s[0] == c then [""] + Split(s[1..], c)
    else
      var rest := Split(s[1..], c);
      [[s[0]] + rest[0]] + rest[1..]
  }

  /** The part of `s` before the first `c` and the part after it. */
  function SplitAtFirst(s: string, c: char): (string, string)
  {
    if |s| == 0 then ("", "")
    else if s[0] == c then ("", s[1..])
    else
      var (a, b) := SplitAtFirst(s[1..], c);
      ([s[0]] + a, b)
  }

  /** Appending one part to the list adds `sep` and that part at the end. */
  lemma {:induction false} JoinAppend(parts: seq<string>, x: string, sep: string)
    ensures Join(parts + [x], sep) == if parts == [] then x else Join(parts, sep) + sep + x
  {
    if |parts| >= 2 {
      assert (parts + [x])[1..] == parts[1..] + [x];
      JoinAppend(parts[1..], x, sep);
    } else if |parts| == 1 {
      assert (parts + [x])[1..] == [x];
    }
  }

  lemma {:induction false} SplitWithout(s: string, c: char)
    requires c !in s
    ensures Split(s, c) == [s]
  {
    if |s| > 0 {
      SplitWithout(s[1..], c);
      assert [s[0]] + s[1..] == s;
    }
  }

  lemma {:induction false} SplitAfter(a: string, b: string, c: char)
    requires c !in a
    ensures Split(a + [c] + b, c) == [a] + Split(b, c)
  {
    if |a| == 0 {
      assert a + [c] + b == [c] + b;
      assert ([c] + b)[1..] == b;
    } else {
      assert (a + [c] + b)[1..] == a[1..] + [c] + b;
      SplitAfter(a[1..], b, c);
      assert [a[0]] + a[1..] == a;
    }
  }

  /** Splitting a join at its one-character separator gives the parts back. */
  lemma {:induction false} SplitJoin(parts: seq<string>, c: char)
    requires |parts| >= 1
    requires forall i :: 0 <= i < |parts| ==> c !in parts[i]
    ensures Split(Join(parts, [c]), c) == parts
  {
    if |parts| == 1 {
      SplitWithout(parts[0], c);
    } else {
      SplitJoin(parts[1..], c);
      SplitAfter(parts[0], Join(parts[1..], [c]), c);
      assert [parts[0]] + parts[1..] == parts;
    }
  }

  /** Splitting `k + [c] + v` at its first `c` gives `k` and `v` when `k` has no `c`. */
  lemma {:induction false} SplitAtFirstJoin(k: string, v: string, c: char)
    requires c !in k
    ensures SplitAtFirst(k + [c] + v, c) == (k, v)
  {
    if |k| == 0 {
      assert k + [c] + v == [c] + v;
      assert ([c] + v)[1..] == v;
    } else {
      assert (k + [c] + v)[1..] == k[1..] + [c] + v;
      SplitAtFirstJoin(k[1..], v, c);
      assert [k[0]] + k[1..] == k;
    }
  }

  // ---------------------------------------------------------------------
  // Substrings and prefixes

  /** `sub` occurs in `s` at some position (Python's `sub in s`). */
  predicate Contains(s: string, sub: string) {
    StartsWith(s, sub) || (|s| > 0 && Contains(s[1..], sub))
  }

  /** What occurs in `s` occurs in any extension of `s` at the front. */
  lemma {:induction false} ContainsAfter(pre: string, s: string, sub: string)
    requires Contains(s, sub)
    ensures Contains(pre + s, sub)
  {
    if |pre| > 0 {
      ContainsAfter(pre[1..], s, sub);
      var t := pre + s;
      assert t[1..] == pre[1..] + s;
      assert |t| > 0 && Contains(t[1..], sub);
    } else {
      assert pre + s == s;
    }
  }

  /** Every part of a join occurs in the joined string. */
  lemma {:induction false} JoinContains(parts: seq<string>, sep: string, k: nat)
    requires k < |parts|
    ensures Contains(Join(parts, sep), parts[k])
  {
    var j := Join(parts, sep);
    if |parts| == 1 || k == 0 {
      assert StartsWith(j, parts[0]);
    } else {
      JoinContains(parts[1..], sep, k - 1);
      ContainsAfter(parts[0] + sep, Join(parts[1..], sep), parts[k]);
    }
  }

  /** Python's `s.startswith(prefix)`. */
  predicate StartsWith(s: string, prefix: string) {
    |prefix| <= |s| && s[..|prefix|] == prefix
  }

  // ---------------------------------------------------------------------
  // ASCII case

  predicate IsUpperChar(ch: char) {
    'A' <= ch <= 'Z'
  }

  /** The lower-case letter of an upper-case ASCII letter is the letter at the same place in `a`..`z`. */
  function LowerChar(ch: char): (r: char)
    ensures !IsUpperChar(r)
    ensures IsUpperChar(ch) ==> 'a' <= r <= 'z' && r as int - 'a' as int == ch as int - 'A' as int
    ensures !IsUpperChar(ch) ==> r == ch
  {
    if IsUpperChar(ch) then (ch as int + 32) as char else ch
  }

  /** `s` has no upper-case ASCII letter. */
  predicate IsLower(s: string) {
    forall i :: 0 <= i < |s| ==> !IsUpperChar(s[i])
  }

  /** Python's `s.lower()` on ASCII text. */
  function Lower(s: string): (r: string)
    ensures |r| == |s|
    ensures IsLower(r)
    ensures forall i :: 0 <= i < |s| && !IsUpperChar(s[i]) ==> r[i] == s[i]
    ensures forall i :: 0 <= i < |s| && IsUpperChar(s[i]) ==>
      'a' <= r[i] <= 'z' && r[i] as int - 'a' as int == s[i] as int - 'A' as int
  {
    seq(|s|, i requires 0 <= i < |s| => LowerChar(s[i]))
  }

  /** Lower-casing leaves lower-case text as it is, so it is idempotent. */
  lemma LowerOfLower(s: string)
    requires IsLower(s)
    ensures Lower(s) == s
  {
  }

  // ---------------------------------------------------------------------
  // Decimal numerals

  predicate IsDigit(ch: char) {
    '0' <= ch <= '9'
  }

  function DigitChar(d: nat): (ch: char)
    requires d < 10
    ensures IsDigit(ch)
  {
    ('0' as int + d) as char
  }

  /** Python's `str(n)` for a natural number. */
  function NatToDecimal(n: nat): (r: string)
    decreases n
  {
    if n < 10 then [DigitChar(n)] else NatToDecimal(n / 10) + [DigitChar(n % 10)]
  }

  predicate IsDigits(s: string) {
    forall i :: 0 <= i < |s| ==> IsDigit(s[i])
  }

  /** The value of a string of decimal digits (Python's `int(s)`). */
  function DecimalValue(s: string): nat
    requires IsDigits(s)
  {
    if |s| == 0 then 0
    else DecimalValue(s[..|s| - 1]) * 10 + (s[|s| - 1] as int - '0' as int)
  }

  /**
   * `str(n)` is a non-empty string of digits without a leading zero (unless it
   * is "0"), and reading it back gives `n`.
   */
  lemma {:induction false} DecimalRoundTrip(n: nat)
    ensures |NatToDecimal(n)| >= 1 && IsDigits(NatToDecimal(n))
    ensures NatToDecimal(n)[0] == '0' ==> n == 0
    ensures DecimalValue(NatToDecimal(n)) == n
  {
    if n >= 10 {
      DecimalRoundTrip(n / 10);
      var s := NatToDecimal(n);
      assert s[..|s| - 1] == NatToDecimal(n / 10);
    }
  }
}
