/**
  Text helpers shared by the shader generator and the signature database:
  the digits printf writes for `%u` and `%08x`, the value a stream extractor
  reads back from hexadecimal digits, and a substring predicate.
 */
module Text {

  /** An unsigned 32-bit value (`u32` in the emulator). */
  type u32 = x: nat | x < 0x1_0000_0000

  predicate IsDecimalDigit(c: char) {
    '0' <= c <= '9'
  }

  predicate IsHexDigit(c: char) {
    '0' <= c <= '9' || 'a' <= c <= 'f' || 'A' <= c <= 'F'
  }

  predicate AllHexDigits(s: string) {
    forall i :: 0 <= i < |s| ==> IsHexDigit(s[i])
  }

  /** The lower-case digit printf writes for a digit value below 16. */
  function DigitChar(d: nat): (c: char)
    requires d < 16
    ensures IsHexDigit(c)
    ensures d < 10 <==> IsDecimalDigit(c)
    ensures !('A' <= c <= 'F')
  {
    if d < 10 then (48 + d) as char else (87 + d) as char
  }

  /** The value of a hexadecimal digit of either case. */
  function DigitValue(c: char): (d: nat)
    requires IsHexDigit(c)
    ensures d < 16
    ensures IsDecimalDigit(c) <==> d < 10
  {
    if c <= '9' then c as nat - 48
    else if c >= 'a' then c as nat - 87
    else c as nat - 55
  }

  lemma DigitRoundTrip(d: nat)
    requires d < 16
    ensures DigitValue(DigitChar(d)) == d
  {
  }

  /** The text `%u` (or `%d` of a non-negative value) produces. */
  function Decimal(n: nat): (s: string)
    ensures s != []
    ensures forall i :: 0 <= i < |s| ==> IsDecimalDigit(s[i])
    decreases n
  {
    if n < 10 then [DigitChar(n)] else Decimal(n / 10) + [DigitChar(n % 10)]
  }

  /** The number a string of decimal digits denotes. */
  function DecimalValue(s: string): nat
    requires forall i :: 0 <= i < |s| ==> IsDecimalDigit(s[i])
  {
    if s == [] then 0
    else
      var last := s[|s| - 1];
      assert IsDecimalDigit(last);
      DecimalValue(s[..|s| - 1]) * 10 + DigitValue(last)
  }

  /** Reading back what `%u` printed gives the printed number. */
  lemma {:induction false} DecimalRoundTrip(n: nat)
    ensures DecimalValue(Decimal(n)) == n
    decreases n
  {
    DigitRoundTrip(n % 10);
    if n >= 10 {
      DecimalRoundTrip(n / 10);
      var s := Decimal(n / 10);
      assert (s + [DigitChar(n % 10)])[..|s|] == s;
    }
  }

  /** Distinct numbers are printed as distinct numerals. */
  lemma DecimalInjective(a: nat, b: nat)
    ensures Decimal(a) == Decimal(b) ==> a == b
  {
    DecimalRoundTrip(a);
    DecimalRoundTrip(b);
  }

  /** The length of the run of decimal digits in s that starts at index k. */
  function DigitRun(s: string, k: nat): (n: nat)
    requires k <= |s|
    ensures k + n <= |s|
    decreases |s| - k
  {
    if k < |s| && IsDecimalDigit(s[k]) then 1 + DigitRun(s, k + 1) else 0
  }

  /** A run of n digits followed by a non-digit has length n. */
  lemma {:induction false} DigitRunIs(s: string, k: nat, n: nat)
    requires k + n < |s|
    requires forall i :: k <= i < k + n ==> IsDecimalDigit(s[i])
    requires !IsDecimalDigit(s[k + n])
    ensures DigitRun(s, k) == n
    decreases n
  {
    if n > 0 {
      DigitRunIs(s, k + 1, n - 1);
    }
  }

  /**
    A numeral printed between a common prefix and a text that does not start
    with a digit is recoverable: two such texts are equal only when the numbers are.
   */
  lemma DecimalFieldInjective(p: string, a: nat, x: string, b: nat, y: string)
    requires x != [] && !IsDecimalDigit(x[0])
    requires y != [] && !IsDecimalDigit(y[0])
    requires p + Decimal(a) + x == p + Decimal(b) + y
    ensures a == b
  {
    var da, db := Decimal(a), Decimal(b);
    var s1, s2 := p + da + x, p + db + y;
    DigitRunIs(s1, |p|, |da|);
    DigitRunIs(s2, |p|, |db|);
    forall i | 0 <= i < |da|
      ensures da[i] == db[i]
    {
      assert s1[|p| + i] == da[i];
      assert s2[|p| + i] == db[i];
    }
    assert da == db;
    DecimalInjective(a, b);
  }

  function Pow16(n: nat): (r: nat)
    ensures r >= 1
  {
    if n == 0 then 1 else 16 * Pow16(n - 1)
  }

  /** Exactly n lower-case hexadecimal digits of x, the last one the least significant. */
  function HexDigits(x: nat, n: nat): (s: string)
    ensures |s| == n && AllHexDigits(s)
    ensures forall i :: 0 <= i < |s| ==> !('A' <= s[i] <= 'F')
  {
    if n == 0 then [] else HexDigits(x / 16, n - 1) + [DigitChar(x % 16)]
  }

  /** The text `%08x` produces for a 32-bit value. */
  function Hex8(x: u32): (s: string)
    ensures |s| == 8 && AllHexDigits(s)
    ensures forall i :: 0 <= i < |s| ==> !('A' <= s[i] <= 'F')
  {
    HexDigits(x, 8)
  }

  /** The number a string of hexadecimal digits denotes. */
  function HexValue(s: string): nat
    requires AllHexDigits(s)
  {
    if s == [] then 0 else HexValue(s[..|s| - 1]) * 16 + DigitValue(s[|s| - 1])
  }

  /** Reading back n digits of a value below 16^n gives the value. */
  lemma {:induction false} HexRoundTrip(x: nat, n: nat)
    requires x < Pow16(n)
    ensures HexValue(HexDigits(x, n)) == x
  {
    if n > 0 {
      HexRoundTrip(x / 16, n - 1);
      DigitRoundTrip(x % 16);
      var s := HexDigits(x / 16, n - 1);
      assert (s + [DigitChar(x % 16)])[..|s|] == s;
    }
  }

  /** Reading back what `%08x` printed gives the printed value. */
  lemma Hex8RoundTrip(x: u32)
    ensures HexValue(Hex8(x)) == x
  {
    assert Pow16(8) == 0x1_0000_0000;
    HexRoundTrip(x, 8);
  }

  /** w occurs in s starting at index k. */
  predicate OccursAt(s: string, w: string, k: nat) {
    k + |w| <= |s| && s[k..k + |w|] == w
  }

  /** A text starts with itself. */
  lemma OccursAtStart(w: string, t: string)
    ensures OccursAt(w + t, w, 0)
  {
    assert (w + t)[..|w|] == w;
  }

  /** A text occurs right after what precedes it. */
  lemma OccursAfter(p: string, w: string)
    ensures OccursAt(p + w, w, |p|)
  {
    assert (p + w)[|p|..] == w;
  }

  /** An occurrence survives appending. */
  lemma OccursAtExtend(s: string, w: string, k: nat, t: string)
    requires OccursAt(s, w, k)
    ensures OccursAt(s + t, w, k)
  {
    assert (s + t)[k..k + |w|] == s[k..k + |w|];
  }

  /** An occurrence inside an occurring word occurs in the whole string. */
  lemma OccursWithin(s: string, w: string, k: nat, v: string, j: nat)
    requires OccursAt(s, w, k) && OccursAt(w, v, j)
    ensures OccursAt(s, v, k + j)
  {
    assert w == s[k..k + |w|];
    forall i | 0 <= i < |v| ensures s[k + j + i] == v[i] {
      assert v[i] == w[j + i];
    }
    assert s[k + j..k + j + |v|] == v;
  }

  predicate Contains(s: string, w: string) {
    exists k: nat | k <= |s| :: OccursAt(s, w, k)
  }

  /** A text lacking one of the characters of w does not contain w. */
  lemma AbsentCharacter(s: string, w: string, c: char)
    requires c in w && c !in s
    ensures !Contains(s, w)
  {
  }
}
