/** String helpers the formatters and the rotated-file naming rely on:
    JavaScript's `padEnd`/`padStart` and the decimal `toString` of a
    non-negative integer. */
module Text {

  /** `n` copies of `c`. */
  function Repeat(c: char, n: nat): (r: string)
    ensures |r| == n
    ensures forall i :: 0 <= i < n ==> r[i] == c
  {
    if n == 0 then [] else [c] + Repeat(c, n - 1)
  }

  function Max(a: int, b: int): int {
    if a < b then b else a
  }

  /** `s.padEnd(n, c)`: fill on the right up to `n` characters; never cut. */
  function PadEnd(s: string, n: nat, c: char): (r: string)
    ensures |r| == Max(|s|, n)
    ensures r[..|s|] == s
    ensures forall i :: |s| <= i < |r| ==> r[i] == c
  {
    if |s| >= n then s else s + Repeat(c, n - |s|)
  }

  /** `s.padStart(n, c)`: fill on the left up to `n` characters; never cut. */
  function PadStart(s: string, n: nat, c: char): (r: string)
    ensures |r| == Max(|s|, n)
    ensures r[|r| - |s|..] == s
    ensures forall i :: 0 <= i < |r| - |s| ==> r[i] == c
  {
    if |s| >= n then s else Repeat(c, n - |s|) + s
  }

  predicate IsDigit(c: char) {
    '0' <= c <= '9'
  }

  function DigitChar(d: nat): (c: char)
    requires d < 10
    ensures IsDigit(c)
  {
    ('0' as int + d) as char
  }

  function DigitValue(c: char): nat {
    if IsDigit(c) then (c as int - '0' as int) else 0
  }

  /** `n.toString()` for a non-negative integer. */
  function DecimalString(n: nat): (r: string)
    ensures |r| >= 1
    ensures forall i :: 0 <= i < |r| ==> IsDigit(r[i])
  {
    if n < 10 then [DigitChar(n)] else DecimalString(n / 10) + [DigitChar(n % 10)]
  }

  /** The value of a string of decimal digits. */
  function DecimalValue(s: string): nat {
    if s == [] then 0 else DecimalValue(s[..|s| - 1]) * 10 + DigitValue(s[|s| - 1])
  }

  /** Reading back a number's decimal string gives the number. */
  lemma {:induction false} DecimalRoundTrip(n: nat)
    ensures DecimalValue(DecimalString(n)) == n
  {
    if n >= 10 {
      var s := DecimalString(n);
      assert s[..|s| - 1] == DecimalString(n / 10);
      DecimalRoundTrip(n / 10);
    }
  }

  /** Zeros on the left do not change a decimal value. */
  lemma {:induction false} LeadingZerosIgnored(k: nat, s: string)
    ensures DecimalValue(Repeat('0', k) + s) == DecimalValue(s)
  {
    if s == [] {
      assert Repeat('0', k) + s == Repeat('0', k);
      ZerosAreZero(k);
    } else {
      var z := Repeat('0', k) + s;
      assert z[..|z| - 1] == Repeat('0', k) + s[..|s| - 1];
      LeadingZerosIgnored(k, s[..|s| - 1]);
    }
  }

  lemma {:induction false} ZerosAreZero(k: nat)
    ensures DecimalValue(Repeat('0', k)) == 0
  {
    if k > 0 {
      var z := Repeat('0', k);
      assert z[..k - 1] == Repeat('0', k - 1) by {
        assert Repeat('0', k) == [ '0' ] + Repeat('0', k - 1);
        assert forall i :: 0 <= i < k - 1 ==> z[i] == '0';
      }
      ZerosAreZero(k - 1);
    }
  }

  function Pow10(k: nat): (r: nat)
    ensures r >= 1
  {
    if k == 0 then 1 else 10 * Pow10(k - 1)
  }

  /** A number below 10^k has at most k digits. */
  lemma {:induction false} DecimalWidth(n: nat, k: nat)
    requires 1 <= k && n < Pow10(k)
    ensures |DecimalString(n)| <= k
  {
    if n >= 10 {
      assert n / 10 < Pow10(k - 1);
      DecimalWidth(n / 10, k - 1);
    }
  }
}
