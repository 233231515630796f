/**
 * Lower-case hexadecimal digits, as read by `parseInt(s, 16)` and written by
 * `Number.prototype.toString(16)` for non-negative integers.
 */
module Hex {

  predicate IsLowerHexDigit(c: char)
  {
    '0' <= c <= '9' || 'a' <= c <= 'f'
  }

  predicate AllLowerHex(s: string)
  {
    forall k :: 0 <= k < |s| ==> IsLowerHexDigit(s[k])
  }

  function DigitValue(c: char): (d: nat)
    requires IsLowerHexDigit(c)
    ensures d < 16
  {
    if c <= '9' then c as int - '0' as int else c as int - 'a' as int + 10
  }

  /** The digit `toString(16)` writes for d < 16: `0` to `9`, then `a` to `f`; reading it gives d back. */
  function Digit(d: nat): (c: char)
    requires d < 16
    ensures IsLowerHexDigit(c) && DigitValue(c) == d
  {
    if d < 10 then ('0' as int + d) as char else ('a' as int + d - 10) as char
  }

  /** `parseInt(s, 16)` for a non-empty run of lower-case hex digits, most significant first. */
  function HexValue(s: string): nat
    requires AllLowerHex(s)
  {
    if |s| == 0 then 0 else HexValue(s[..|s| - 1]) * 16 + DigitValue(s[|s| - 1])
  }

  /** `n.toString(16)` for n >= 0: lower-case digits, no leading zero. */
  function ToHex(n: nat): (s: string)
    ensures |s| > 0 && AllLowerHex(s)
    ensures n > 0 ==> s[0] != '0'
    decreases n
  {
    if n < 16 then [Digit(n)] else ToHex(n / 16) + [Digit(n % 16)]
  }

  /** Reading back what `ToHex` wrote gives the number again. */
  lemma {:induction false} ToHexRoundTrip(n: nat)
    ensures HexValue(ToHex(n)) == n
    decreases n
  {
    var s := ToHex(n);
    if n < 16 {
      assert s[..0] == [];
    } else {
      ToHexRoundTrip(n / 16);
      assert s[..|s| - 1] == ToHex(n / 16);
      assert DigitValue(s[|s| - 1]) == n % 16;
    }
  }

  /** `ToHex` writes exactly four digits for the numbers 0x1000 through 0xFFFF. */
  lemma {:induction false} ToHexFourDigits(n: nat)
    requires 0x1000 <= n <= 0xFFFF
    ensures |ToHex(n)| == 4
  {
    var a := n / 16;
    assert 0x100 <= a <= 0xFFF;
    var b := a / 16;
    assert 0x10 <= b <= 0xFF;
    var c := b / 16;
    assert 1 <= c < 16;
    assert |ToHex(c)| == 1;
    assert |ToHex(b)| == 2;
    assert |ToHex(a)| == 3;
  }

  /** A number that needs at least four digits, written, has at least four. */
  lemma {:induction false} ToHexAtLeastFourDigits(n: nat)
    requires 0x1000 <= n
    ensures |ToHex(n)| >= 4
    decreases n
  {
    if n <= 0xFFFF {
      ToHexFourDigits(n);
    } else {
      ToHexAtLeastFourDigits(n / 16);
    }
  }
}
