/**
 * The repair step an oEmbed provider applies to a JSON body before parsing
 * it: every `\U` escape of eight lower-case hex digits becomes a pair of
 * `\u` escapes holding the UTF-16 surrogates of that scalar value (section
 * 3.8 of the Unicode Standard, section 2.1 of RFC 2781), because a JSON parser
 * accepts only four-digit escapes.
 */
module Surrogates {
  import opened Hex

  /** JavaScript's `%` on integers: the remainder takes the sign of the dividend. */
  function JsRem(a: int, b: int): (r: int)
    requires b > 0
    ensures -b < r < b
    ensures a >= 0 ==> r == a % b
  {
    if a >= 0 then a % b else -((-a) % b)
  }

  /** `Math.floor((S - 0x10000) / 0x400) + 0xD800`; Dafny's `/` by a positive divisor rounds down too. */
  function High(scalar: int): int
  {
    (scalar - 0x10000) / 0x400 + 0xD800
  }

  /** `((S - 0x10000) % 0x400) + 0xDC00` with JavaScript's remainder. */
  function Low(scalar: int): int
  {
    JsRem(scalar - 0x10000, 0x400) + 0xDC00
  }

  /**
   * For a supplementary-plane scalar value the pair is a high surrogate and a
   * low surrogate, and the scalar is recovered from them.
   */
  lemma SurrogatePair(scalar: int)
    requires 0x10000 <= scalar <= 0x10FFFF
    ensures 0xD800 <= High(scalar) <= 0xDBFF
    ensures 0xDC00 <= Low(scalar) <= 0xDFFF
    ensures (High(scalar) - 0xD800) * 0x400 + (Low(scalar) - 0xDC00) + 0x10000 == scalar
  {
    var v := scalar - 0x10000;
    assert v == (v / 0x400) * 0x400 + v % 0x400;
  }

  /** Whatever the eight digits hold, both numbers are positive and need at least four hex digits. */
  lemma SurrogatesAtLeast(scalar: nat)
    ensures High(scalar) >= 0xD7C0
    ensures Low(scalar) >= 0xDC00 - 0x3FF
  {
  }

  /** `\U` followed by eight lower-case hex digits starts at position i of s. */
  predicate EscapeAt(s: string, i: nat)
  {
    i + 10 <= |s| && s[i] == '\\' && s[i + 1] == 'U' &&
    forall k :: i + 2 <= k < i + 10 ==> IsLowerHexDigit(s[k])
  }

  predicate NoEscape(s: string)
  {
    forall i: nat :: i < |s| ==> !EscapeAt(s, i)
  }

  /** The text the callback returns for the digits of one escape: `'\\u' + H.toString(16) + '\\u' + L.toString(16)`. */
  function Replacement(digits: string): string
    requires |digits| == 8 && AllLowerHex(digits)
  {
    var scalar := HexValue(digits);
    SurrogatesAtLeast(scalar);
    "\\u" + ToHex(High(scalar)) + "\\u" + ToHex(Low(scalar))
  }

  /**
   * `body.replace(/\\U([\da-f]{8})/gm, …)`: scanning left to right, each
   * escape is replaced and scanning resumes after its ten characters; every
   * other character is copied.
   */
  function ConvertHighBitUnicodeToSurrogates(body: string): string
    decreases |body|
  {
    if |body| == 0 then ""
    else if EscapeAt(body, 0) then Replacement(body[2..10]) + ConvertHighBitUnicodeToSurrogates(body[10..])
    else [body[0]] + ConvertHighBitUnicodeToSurrogates(body[1..])
  }

  /** Appending a digit multiplies by sixteen and adds the digit. */
  lemma HexValueSnoc(s: string, c: char)
    requires AllLowerHex(s) && IsLowerHexDigit(c)
    ensures AllLowerHex(s + [c])
    ensures HexValue(s + [c]) == HexValue(s) * 16 + DigitValue(c)
  {
    assert (s + [c])[..|s|] == s;
  }

  /** The digits of the rocket emoji's escape read as U+1F680. */
  lemma RocketDigits()
    ensures AllLowerHex("0001f680") && HexValue("0001f680") == 0x1F680
  {
    assert "0" == "" + ['0'];
    HexValueSnoc("", '0');
    assert HexValue("0") == 0;
    assert "00" == "0" + ['0'];
    HexValueSnoc("0", '0');
    assert HexValue("00") == 0;
    assert "000" == "00" + ['0'];
    HexValueSnoc("00", '0');
    assert HexValue("000") == 0;
    assert "0001" == "000" + ['1'];
    HexValueSnoc("000", '1');
    assert HexValue("0001") == 1;
    assert "0001f" == "0001" + ['f'];
    HexValueSnoc("0001", 'f');
    assert HexValue("0001f") == 0x1F;
    assert "0001f6" == "0001f" + ['6'];
    HexValueSnoc("0001f", '6');
    assert HexValue("0001f6") == 0x1F6;
    assert "0001f68" == "0001f6" + ['8'];
    HexValueSnoc("0001f6", '8');
    assert HexValue("0001f68") == 0x1F68;
    assert "0001f680" == "0001f68" + ['0'];
    HexValueSnoc("0001f68", '0');
    assert HexValue("0001f680") == 0x1F680;
  }

  lemma RocketPair()
    ensures ToHex(High(0x1F680)) == "d83d" && ToHex(Low(0x1F680)) == "de80"
  {
    assert High(0x1F680) == 0xD83D;
    assert Low(0x1F680) == 0xDE80;
    assert ToHex(0xD) == "d" && ToHex(0xD8) == "d8" && ToHex(0xD83) == "d83";
    assert ToHex(0xDE) == "de" && ToHex(0xDE8) == "de8";
  }

  /** The example the source's tests use: the rocket emoji U+1F680 becomes the pair D83D DE80. */
  lemma RocketExample()
    ensures ConvertHighBitUnicodeToSurrogates("\\U0001f680") == "\\ud83d\\ude80"
  {
    var body := "\\U0001f680";
    var digits := body[2..10];
    RocketDigits();
    assert digits == "0001f680";
    assert EscapeAt(body, 0);
    RocketPair();
    var h, l := ToHex(High(HexValue(digits))), ToHex(Low(HexValue(digits)));
    assert h == "d83d" && l == "de80";
    assert Replacement(digits) == "\\u" + h + "\\u" + l;
    assert body[10..] == "";
  }

  /**
   * An in-range escape of ten characters becomes twelve: `\u`, four digits of
   * a high surrogate, `\u`, four digits of a low surrogate; reading those digits
   * back gives a pair that recombines to the scalar value.
   */
  lemma ReplacementInRange(digits: string)
    requires |digits| == 8 && AllLowerHex(digits)
    requires 0x10000 <= HexValue(digits) <= 0x10FFFF
    ensures var r := Replacement(digits);
      |r| == 12 && r[0..2] == "\\u" && r[6..8] == "\\u" &&
      AllLowerHex(r[2..6]) && AllLowerHex(r[8..12]) &&
      0xD800 <= HexValue(r[2..6]) <= 0xDBFF && 0xDC00 <= HexValue(r[8..12]) <= 0xDFFF &&
      (HexValue(r[2..6]) - 0xD800) * 0x400 + (HexValue(r[8..12]) - 0xDC00) + 0x10000 == HexValue(digits)
  {
    var scalar := HexValue(digits);
    SurrogatePair(scalar);
    var h, l := ToHex(High(scalar)), ToHex(Low(scalar));
    ToHexFourDigits(High(scalar));
    ToHexFourDigits(Low(scalar));
    ToHexRoundTrip(High(scalar));
    ToHexRoundTrip(Low(scalar));
    var r := Replacement(digits);
    assert r == "\\u" + h + "\\u" + l;
    assert r[2..6] == h;
    assert r[8..12] == l;
  }

  /** Every backslash a replacement writes is followed by a lower-case `u`, never by `U`. */
  lemma ReplacementBackslashes(digits: string)
    requires |digits| == 8 && AllLowerHex(digits)
    ensures var r := Replacement(digits);
      forall i :: 0 <= i < |r| && r[i] == '\\' ==> i + 1 < |r| && r[i + 1] == 'u'
  {
    var scalar := HexValue(digits);
    SurrogatesAtLeast(scalar);
    var h, l := ToHex(High(scalar)), ToHex(Low(scalar));
    var r := Replacement(digits);
    assert r == "\\u" + h + "\\u" + l;
    forall i | 0 <= i < |r|
      ensures r[i] == '\\' ==> i + 1 < |r| && r[i + 1] == 'u'
    {
      if 2 <= i < 2 + |h| {
        assert r[i] == h[i - 2];
      } else if 4 + |h| <= i {
        assert r[i] == l[i - 4 - |h|];
      }
    }
  }

  /** An escape found after a prefix is an escape of the rest, and back. */
  lemma EscapeAtShift(x: string, t: string, j: nat)
    ensures EscapeAt(x + t, |x| + j) <==> EscapeAt(t, j)
  {
    var s := x + t;
    if j + 10 <= |t| {
      forall k | j + 2 <= k < j + 10 ensures s[|x| + k] == t[k] { }
    }
  }

  /** The repaired text begins with the same character as the body. */
  lemma ConvertStartsAlike(s: string)
    requires |s| > 0
    ensures |ConvertHighBitUnicodeToSurrogates(s)| > 0
    ensures ConvertHighBitUnicodeToSurrogates(s)[0] == s[0]
  {
  }

  /**
   * A run of hex digits at the start of the repaired text was copied from the
   * start of the body: no replacement can begin inside it.
   */
  lemma {:induction false} HexRunCopied(u: string, k: nat)
    requires k <= |ConvertHighBitUnicodeToSurrogates(u)|
    requires forall j :: 0 <= j < k ==> IsLowerHexDigit(ConvertHighBitUnicodeToSurrogates(u)[j])
    ensures k <= |u|
    ensures forall j :: 0 <= j < k ==> u[j] == ConvertHighBitUnicodeToSurrogates(u)[j]
    decreases k
  {
    if k > 0 {
      var c := ConvertHighBitUnicodeToSurrogates(u);
      assert |u| > 0;
      ConvertStartsAlike(u);
      assert !EscapeAt(u, 0);
      var rest := ConvertHighBitUnicodeToSurrogates(u[1..]);
      assert c == [u[0]] + rest;
      forall j | 0 <= j < k - 1 ensures IsLowerHexDigit(rest[j]) {
        assert rest[j] == c[j + 1];
      }
      HexRunCopied(u[1..], k - 1);
    }
  }

  /**
   * An escape at the first character of the repaired text was already an
   * escape in the text, so where the text has none there, the repair has none.
   */
  lemma NoEscapeAtHead(s: string)
    requires |s| > 0
    ensures EscapeAt([s[0]] + ConvertHighBitUnicodeToSurrogates(s[1..]), 0) ==> EscapeAt(s, 0)
  {
    var t := ConvertHighBitUnicodeToSurrogates(s[1..]);
    var c := [s[0]] + t;
    if EscapeAt(c, 0) {
      assert |t| >= 9;
      ConvertStartsAlike(s[1..]);
      assert s[1] == 'U';
      assert !EscapeAt(s[1..], 0);
      var w := ConvertHighBitUnicodeToSurrogates(s[2..]);
      assert s[1..][1..] == s[2..];
      assert t == ['U'] + w;
      forall j | 0 <= j < 8 ensures IsLowerHexDigit(w[j]) {
        assert w[j] == c[j + 2];
      }
      HexRunCopied(s[2..], 8);
      forall k | 2 <= k < 10 ensures IsLowerHexDigit(s[k]) {
        assert s[k] == s[2..][k - 2] == w[k - 2];
      }
    }
  }

  /** The repair introduces no new `\U` escape: its output has none at all. */
  lemma {:induction false} ConvertLeavesNoEscape(s: string)
    ensures NoEscape(ConvertHighBitUnicodeToSurrogates(s))
    decreases |s|
  {
    if |s| > 0 {
      var c := ConvertHighBitUnicodeToSurrogates(s);
      if EscapeAt(s, 0) {
        var r := Replacement(s[2..10]);
        var t := ConvertHighBitUnicodeToSurrogates(s[10..]);
        assert c == r + t;
        ConvertLeavesNoEscape(s[10..]);
        ReplacementBackslashes(s[2..10]);
        forall i: nat ensures !EscapeAt(c, i) {
          if i < |r| {
            if c[i] == '\\' {
              assert c[i + 1] == r[i + 1] == 'u';
            }
          } else {
            EscapeAtShift(r, t, i - |r|);
          }
        }
      } else {
        var t := ConvertHighBitUnicodeToSurrogates(s[1..]);
        assert c == [s[0]] + t;
        ConvertLeavesNoEscape(s[1..]);
        NoEscapeAtHead(s);
        forall i: nat ensures !EscapeAt(c, i) {
          if i > 0 {
            EscapeAtShift([s[0]], t, i - 1);
          }
        }
      }
    }
  }

  /** Text without any escape is copied unchanged. */
  lemma {:induction false} NoEscapeUnchanged(s: string)
    requires NoEscape(s)
    ensures ConvertHighBitUnicodeToSurrogates(s) == s
    decreases |s|
  {
    if |s| > 0 {
      assert !EscapeAt(s, 0);
      assert s == [s[0]] + s[1..];
      forall j: nat ensures !EscapeAt(s[1..], j) {
        EscapeAtShift([s[0]], s[1..], j);
        assert !EscapeAt(s, 1 + j);
      }
      NoEscapeUnchanged(s[1..]);
    }
  }

  /**
   * Text in front of which no escape starts is copied, and the repair goes on
   * with what follows: replacements happen left to right and only where an
   * escape starts.
   */
  lemma {:induction false} PlainPrefixCopied(x: string, t: string)
    requires forall i: nat :: i < |x| ==> !EscapeAt(x + t, i)
    ensures ConvertHighBitUnicodeToSurrogates(x + t) == x + ConvertHighBitUnicodeToSurrogates(t)
    decreases |x|
  {
    if |x| > 0 {
      var s := x + t;
      assert !EscapeAt(s, 0);
      assert s[1..] == x[1..] + t;
      forall i: nat | i < |x[1..]| ensures !EscapeAt(x[1..] + t, i) {
        EscapeAtShift([x[0]], x[1..] + t, i);
        assert [x[0]] + (x[1..] + t) == s;
        assert !EscapeAt(s, 1 + i);
      }
      PlainPrefixCopied(x[1..], t);
      calc {
        ConvertHighBitUnicodeToSurrogates(s);
        [s[0]] + ConvertHighBitUnicodeToSurrogates(s[1..]);
        [x[0]] + ConvertHighBitUnicodeToSurrogates(x[1..] + t);
        [x[0]] + (x[1..] + ConvertHighBitUnicodeToSurrogates(t));
        { assert x == [x[0]] + x[1..]; }
        x + ConvertHighBitUnicodeToSurrogates(t);
      }
    } else {
      assert x + t == t;
    }
  }

  /** A second pass of the repair changes nothing. */
  lemma ConvertIdempotent(s: string)
    ensures ConvertHighBitUnicodeToSurrogates(ConvertHighBitUnicodeToSurrogates(s)) == ConvertHighBitUnicodeToSurrogates(s)
  {
    ConvertLeavesNoEscape(s);
    NoEscapeUnchanged(ConvertHighBitUnicodeToSurrogates(s));
  }
}
