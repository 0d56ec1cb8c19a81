/** PHP strings as byte sequences, and the handful of PHP string built-ins
    the connector relies on: `substr(s, 0, n)`, `explode('-', s)[0]`,
    `strpos`, `str_replace`, `preg_replace("/[^A-Za-z0-9 ]/", '', s)` and
    the decimal rendering of integers used in `'…' . $count`. */
module Bytes {
  import opened Wrappers

  /** One byte of a PHP string, written as the character with that code so
      that ASCII string literals can be used directly. Nothing in the model
      depends on the code being below 256. */
  type Byte = char
  type Bytes = seq<Byte>

  /** `substr(s, 0, n)` for a non-negative length: exactly the first
      `min(n, |s|)` bytes, no ellipsis. */
  function Prefix(s: Bytes, n: nat): (r: Bytes)
    ensures |r| == if |s| < n then |s| else n
    ensures r == s[..|r|]
  {
    if |s| <= n then s else s[..n]
  }

  predicate StartsWith(s: Bytes, p: Bytes) {
    |p| <= |s| && s[..|p|] == p
  }

  /** `p` occurs in `s` at index `i`. */
  predicate OccursAt(s: Bytes, p: Bytes, i: nat) {
    i + |p| <= |s| && s[i..i + |p|] == p
  }

  /** `explode('-', s)[0]`: everything before the first `-`, or all of `s`. */
  function FirstSegment(s: Bytes): (r: Bytes)
    ensures |r| <= |s|
    ensures '-' !in r
    ensures r == s[..|r|]
    ensures |r| == |s| || s[|r|] == '-'
  {
    if |s| == 0 then []
    else if s[0] == '-' then []
    else [s[0]] + FirstSegment(s[1..])
  }

  /** `s` begins with `seg` followed by `-`: then `seg` is its first segment. */
  lemma {:induction false} FirstSegmentOfDashed(seg: Bytes, rest: Bytes)
    requires '-' !in seg
    ensures FirstSegment(seg + ['-'] + rest) == seg
  {
    if |seg| > 0 {
      assert (seg + ['-'] + rest)[1..] == seg[1..] + ['-'] + rest;
      FirstSegmentOfDashed(seg[1..], rest);
    }
  }

  /** `strpos(s, p)`: the first index where `p` occurs, searching from `from`. */
  function IndexOfFrom(s: Bytes, p: Bytes, from: nat): (r: Option<nat>)
    decreases |s| - from
    ensures r.Some? ==> from <= r.value && OccursAt(s, p, r.value)
    ensures r.Some? ==> forall j :: from <= j < r.value ==> !OccursAt(s, p, j)
    ensures r.None? ==> forall j :: from <= j ==> !OccursAt(s, p, j)
  {
    if from + |p| > |s| then None
    else if s[from..from + |p|] == p then Some(from)
    else IndexOfFrom(s, p, from + 1)
  }

  function IndexOf(s: Bytes, p: Bytes): Option<nat> {
    IndexOfFrom(s, p, 0)
  }

  /** `str_replace(pat, rep, s)`: every non-overlapping occurrence of `pat`,
      scanning left to right, is replaced by `rep`. */
  function ReplaceAll(s: Bytes, pat: Bytes, rep: Bytes): Bytes
    requires |pat| > 0
    decreases |s|
  {
    if |s| < |pat| then s
    else if s[..|pat|] == pat then rep + ReplaceAll(s[|pat|..], pat, rep)
    else [s[0]] + ReplaceAll(s[1..], pat, rep)
  }

  /** Replacing a pattern that does not occur changes nothing. */
  lemma {:induction false} ReplaceAllAbsent(s: Bytes, pat: Bytes, rep: Bytes)
    requires |pat| > 0
    requires forall j: nat :: !OccursAt(s, pat, j)
    ensures ReplaceAll(s, pat, rep) == s
    decreases |s|
  {
    if |s| >= |pat| {
      assert !OccursAt(s, pat, 0);
      forall j: nat ensures !OccursAt(s[1..], pat, j) {
        assert !OccursAt(s, pat, j + 1);
        if j + |pat| <= |s[1..]| {
          assert s[1..][j..j + |pat|] == s[j + 1..j + 1 + |pat|];
        }
      }
      ReplaceAllAbsent(s[1..], pat, rep);
    }
  }

  /** A string that starts with the pattern starts with the replacement. */
  lemma ReplaceAllLeading(s: Bytes, pat: Bytes, rep: Bytes)
    requires |pat| > 0 && StartsWith(s, pat)
    ensures StartsWith(ReplaceAll(s, pat, rep), rep)
  {
  }

  /** The characters `preg_replace("/[^A-Za-z0-9 ]/", '', s)` keeps. */
  predicate IsAlnumOrSpace(b: Byte) {
    ('A' <= b <= 'Z') || ('a' <= b <= 'z') || ('0' <= b <= '9') || b == ' '
  }

  function KeepAlnumOrSpace(s: Bytes): (r: Bytes)
    ensures |r| <= |s|
    ensures forall i :: 0 <= i < |r| ==> IsAlnumOrSpace(r[i])
  {
    if |s| == 0 then []
    else if IsAlnumOrSpace(s[0]) then [s[0]] + KeepAlnumOrSpace(s[1..])
    else KeepAlnumOrSpace(s[1..])
  }

  /** The filter leaves clean input alone, hence is idempotent. */
  lemma {:induction false} KeepAlnumOrSpaceClean(s: Bytes)
    requires forall i :: 0 <= i < |s| ==> IsAlnumOrSpace(s[i])
    ensures KeepAlnumOrSpace(s) == s
  {
    if |s| > 0 {
      KeepAlnumOrSpaceClean(s[1..]);
    }
  }

  lemma KeepAlnumOrSpaceIdempotent(s: Bytes)
    ensures KeepAlnumOrSpace(KeepAlnumOrSpace(s)) == KeepAlnumOrSpace(s)
  {
    KeepAlnumOrSpaceClean(KeepAlnumOrSpace(s));
  }

  predicate IsDigit(b: Byte) { '0' <= b <= '9' }

  function Digit(d: nat): (b: Byte)
    requires d < 10
    ensures IsDigit(b) && b as int - '0' as int == d
  {
    ('0' as int + d) as char
  }

  /** PHP's rendering of a non-negative integer: shortest decimal, no sign. */
  function NatToDecimal(n: nat): (r: Bytes)
    ensures 0 < |r|
    ensures forall i :: 0 <= i < |r| ==> IsDigit(r[i])
    ensures |r| == 1 <==> n < 10
  {
    if n < 10 then [Digit(n)] else NatToDecimal(n / 10) + [Digit(n % 10)]
  }

  /** Distinct numbers render differently: counters make distinct keys. */
  lemma {:induction false} NatToDecimalInjective(m: nat, n: nat)
    requires NatToDecimal(m) == NatToDecimal(n)
    ensures m == n
  {
    var a, b := NatToDecimal(m), NatToDecimal(n);
    if m >= 10 && n >= 10 {
      assert a[|a| - 1] == b[|b| - 1];
      assert a[..|a| - 1] == NatToDecimal(m / 10);
      assert b[..|b| - 1] == NatToDecimal(n / 10);
      NatToDecimalInjective(m / 10, n / 10);
    } else {
      assert a[0] == b[0];
    }
  }

  /** PHP's rendering of any integer. */
  function IntToDecimal(i: int): (r: Bytes)
    ensures 0 < |r|
    ensures (r[0] == '-') <==> i < 0
  {
    if i < 0 then ['-'] + NatToDecimal(-i) else NatToDecimal(i)
  }

  function DigitValue(b: Byte): (d: nat)
    requires IsDigit(b)
    ensures d < 10
  {
    b as int - '0' as int
  }

  /** The value of a run of decimal digits. */
  function DigitsValue(s: Bytes): nat
    requires forall i :: 0 <= i < |s| ==> IsDigit(s[i])
  {
    if |s| == 0 then 0
    else DigitsValue(s[..|s| - 1]) * 10 + DigitValue(s[|s| - 1])
  }

  /** A digit run is worth zero exactly when every digit is `0`. */
  lemma {:induction false} DigitsValueZero(s: Bytes)
    requires forall i :: 0 <= i < |s| ==> IsDigit(s[i])
    ensures DigitsValue(s) == 0 <==> forall i :: 0 <= i < |s| ==> s[i] == '0'
  {
    if |s| > 0 {
      var init := s[..|s| - 1];
      DigitsValueZero(init);
      assert forall i :: 0 <= i < |init| ==> init[i] == s[i];
    }
  }
}
