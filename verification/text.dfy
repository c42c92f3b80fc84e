/**
 * String helpers with the semantics of the Kotlin standard-library calls the extension
 * relies on: `indexOf`, `substringAfter`, `joinToString`, `split`, `Int.toString()` and
 * `String.toInt()`, plus 32-bit `Int` arithmetic.
 */
module Text {
  import opened Wrappers

  // ---------------------------------------------------------------------------
  // Substring search
  // ---------------------------------------------------------------------------

  /** `pat` occurs in `s` starting at position `k`. */
  predicate OccursAt(s: string, pat: string, k: int)
  {
    0 <= k && k + |pat| <= |s| && s[k..k + |pat|] == pat
  }

  /** The first position at or after `lo` where `pat` occurs (Kotlin's `indexOf(pat, lo)`). */
  function FirstAt(s: string, pat: string, lo: nat): (r: Option<nat>)
    ensures r.Some? ==> lo <= r.value && OccursAt(s, pat, r.value)
    ensures forall k :: lo <= k && (r.None? || k < r.value) ==> !OccursAt(s, pat, k)
    decreases |s| - lo
  {
    if lo + |pat| > |s| then None
    else if s[lo..lo + |pat|] == pat then Some(lo)
    else FirstAt(s, pat, lo + 1)
  }

  /** The last position in `[lo, hi]` where `pat` occurs: where a greedy `.*` before `pat` stops. */
  function LastAt(s: string, pat: string, lo: int, hi: int): (r: Option<int>)
    ensures r.Some? ==> lo <= r.value <= hi && OccursAt(s, pat, r.value)
    ensures forall k :: lo <= k <= hi && (r.None? || r.value < k) ==> !OccursAt(s, pat, k)
    decreases hi - lo
  {
    if hi < lo then None
    else if OccursAt(s, pat, hi) then Some(hi)
    else LastAt(s, pat, lo, hi - 1)
  }

  /** Kotlin's `substringAfter(delimiter)`: the text after the first occurrence of
      `delimiter`, or the whole text when it does not occur. */
  function SubstringAfter(s: string, delimiter: string): (r: string)
    ensures FirstAt(s, delimiter, 0).None? ==> r == s
    ensures FirstAt(s, delimiter, 0).Some? ==>
              s == s[..FirstAt(s, delimiter, 0).value] + delimiter + r
  {
    match FirstAt(s, delimiter, 0)
    case None => s
    case Some(i) =>
      assert s == s[..i] + s[i..i + |delimiter|] + s[i + |delimiter|..];
      s[i + |delimiter|..]
  }

  /** Stripping a prefix that was put in front of a text gives the text back. */
  lemma {:induction false} SubstringAfterPrefix(delimiter: string, rest: string)
    ensures SubstringAfter(delimiter + rest, delimiter) == rest
  {
    var s := delimiter + rest;
    assert OccursAt(s, delimiter, 0) by { assert s[..|delimiter|] == delimiter; }
  }

  // ---------------------------------------------------------------------------
  // joinToString and split
  // ---------------------------------------------------------------------------

  /** Kotlin's `joinToString(sep)`. */
  function JoinToString(xs: seq<string>, sep: string): string
  {
    if |xs| == 0 then ""
    else if |xs| == 1 then xs[0]
    else xs[0] + sep + JoinToString(xs[1..], sep)
  }

  /** Kotlin's `split(c)` on a single character: every occurrence separates two pieces,
      so the result always has at least one piece. */
  function Split(s: string, c: char): (r: seq<string>)
    ensures |r| >= 1
  {
    if s == [] then [[]]
    else
      var rest := Split(s[1..], c);
      if s[0] == c then [[]] + rest else [[s[0]] + rest[0]] + rest[1..]
  }

  lemma {:induction false} SplitNoSeparator(a: string, c: char)
    requires c !in a
    ensures Split(a, c) == [a]
  {
    if a != [] {
      SplitNoSeparator(a[1..], c);
      assert [a[0]] + a[1..] == a;
    }
  }

  lemma {:induction false} SplitAfterPiece(a: string, c: char, b: string)
    requires c !in a
    ensures Split(a + [c] + b, c) == [a] + Split(b, c)
  {
    if a == [] {
      assert a + [c] + b == [c] + b;
      assert ([c] + b)[1..] == b;
    } else {
      SplitAfterPiece(a[1..], c, b);
      assert (a + [c] + b)[1..] == a[1..] + [c] + b;
      assert [a[0]] + a[1..] == a;
    }
  }

  /** Splitting on a separator that no piece contains undoes `joinToString`. */
  lemma {:induction false} SplitJoinRoundTrip(xs: seq<string>, c: char)
    requires |xs| >= 1
    requires forall i :: 0 <= i < |xs| ==> c !in xs[i]
    ensures Split(JoinToString(xs, [c]), c) == xs
  {
    if |xs| == 1 {
      SplitNoSeparator(xs[0], c);
    } else {
      SplitJoinRoundTrip(xs[1..], c);
      SplitAfterPiece(xs[0], c, JoinToString(xs[1..], [c]));
      assert xs == [xs[0]] + xs[1..];
    }
  }

  // ---------------------------------------------------------------------------
  // Kotlin Int: 32-bit range, toString and toInt
  // ---------------------------------------------------------------------------

  const IntMin: int := -0x8000_0000
  const IntMax: int := 0x7fff_ffff

  predicate IsInt32(n: int)
  {
    IntMin <= n <= IntMax
  }

  /** The two's-complement wrap-around of 32-bit `Int` arithmetic. */
  function Wrap32(x: int): (r: int)
    ensures IsInt32(r)
    ensures IsInt32(x) ==> r == x
  {
    (x - IntMin) % 0x1_0000_0000 + IntMin
  }

  predicate IsDigit(ch: char)
  {
    '0' <= ch <= '9'
  }

  predicate AllDigits(s: string)
  {
    forall i :: 0 <= i < |s| ==> IsDigit(s[i])
  }

  function DigitChar(d: nat): (ch: char)
    requires d < 10
    ensures IsDigit(ch)
  {
    ('0' as int + d) as char
  }

  function DigitValue(ch: char): (d: nat)
    requires IsDigit(ch)
    ensures d < 10 && DigitChar(d) == ch
  {
    ch as int - '0' as int
  }

  /** The number a run of decimal digits denotes (leading zeros allowed). */
  function DigitsValue(s: string): nat
    requires AllDigits(s)
    decreases |s|
  {
    if s == [] then 0 else DigitsValue(s[..|s| - 1]) * 10 + DigitValue(s[|s| - 1])
  }

  /** Decimal digits of `n`, without leading zeros. */
  function NatToString(n: nat): (r: string)
    ensures |r| >= 1 && AllDigits(r)
  {
    if n < 10 then [DigitChar(n)] else NatToString(n / 10) + [DigitChar(n % 10)]
  }

  /** Kotlin's `Int.toString()` (and Java's `String.valueOf(int)`). */
  function IntToString(n: int): string
  {
    if n < 0 then "-" + NatToString(-n) else NatToString(n)
  }

  /** The shape `toInt()` reads: an optional `+` or `-`, then at least one digit. */
  predicate IsIntText(s: string)
  {
    |s| >= 1
    && if s[0] == '-' || s[0] == '+' then |s| >= 2 && AllDigits(s[1..]) else AllDigits(s)
  }

  /** The value such a text denotes, before any range check. */
  function SignedValue(s: string): int
    requires IsIntText(s)
  {
    if s[0] == '-' then -(DigitsValue(s[1..]) as int)
    else if s[0] == '+' then DigitsValue(s[1..])
    else DigitsValue(s)
  }

  /** Kotlin's `String.toIntOrNull()` in radix 10: an optional `+` or `-`, then at least
      one digit, and a value inside the 32-bit range; `toInt()` throws where this is null. */
  function ToIntOrNull(s: string): (r: Option<int>)
    ensures r.Some? ==> IsInt32(r.value)
    ensures r.Some? <==> IsIntText(s) && IsInt32(SignedValue(s))
    ensures r.Some? ==> r.value == SignedValue(s)
  {
    if |s| == 0 then None
    else if s[0] == '-' || s[0] == '+' then
      if |s| == 1 || !AllDigits(s[1..]) then None
      else
        var v: int := if s[0] == '-' then -(DigitsValue(s[1..]) as int) else DigitsValue(s[1..]);
        if IsInt32(v) then Some(v) else None
    else if AllDigits(s) && DigitsValue(s) <= IntMax then Some(DigitsValue(s))
    else None
  }

  lemma {:induction false} NatToStringValue(n: nat)
    ensures DigitsValue(NatToString(n)) == n
  {
    var r := NatToString(n);
    if n >= 10 {
      NatToStringValue(n / 10);
      assert r[..|r| - 1] == NatToString(n / 10);
    }
  }

  /** `toInt()` reads back what `toString()` wrote, for every 32-bit value. */
  lemma {:induction false} IntToStringRoundTrip(n: int)
    requires IsInt32(n)
    ensures ToIntOrNull(IntToString(n)) == Some(n)
  {
    if n < 0 {
      NatToStringValue(-n);
      var s := IntToString(n);
      assert s[1..] == NatToString(-n);
    } else {
      NatToStringValue(n);
      assert NatToString(n)[0] != '-' && NatToString(n)[0] != '+';
    }
  }
}
