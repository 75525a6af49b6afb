/** Color(hex:): the integer alpha, red, green and blue channels read from
    a 3-, 6- or 8-digit hexadecimal colour string. */
module DesignSystem {
  import opened Text

  /** The channels as integers 0 to 255, before the division by 255 that
      turns them into the colour's components. */
  datatype Argb = Argb(a: nat, r: nat, g: nat, b: nat)

  predicate NotAlphanumeric(c: char) {
    !IsAlphanumeric(c)
  }

  predicate IsHexDigit(c: char) {
    ('0' <= c <= '9') || ('a' <= c <= 'f') || ('A' <= c <= 'F')
  }

  function HexDigitValue(c: char): (d: nat)
    requires IsHexDigit(c)
    ensures d < 16
  {
    if '0' <= c <= '9' then c as int - '0' as int
    else if 'a' <= c <= 'f' then c as int - 'a' as int + 10
    else c as int - 'A' as int + 10
  }

  function Pow16(n: nat): (p: nat)
    ensures p >= 1
  {
    if n == 0 then 1 else 16 * Pow16(n - 1)
  }

  /** The value of the hex numeral s[..n], most significant digit first. */
  function HexValue(s: string, n: nat): nat
    requires n <= |s|
    requires forall k :: 0 <= k < n ==> IsHexDigit(s[k])
  {
    if n == 0 then 0 else HexValue(s, n - 1) * 16 + HexDigitValue(s[n - 1])
  }

  /** An n-digit numeral is below 16^n. */
  lemma {:induction false} HexValueBound(s: string, n: nat)
    requires n <= |s|
    requires forall k :: 0 <= k < n ==> IsHexDigit(s[k])
    ensures HexValue(s, n) < Pow16(n)
  {
    if n > 0 {
      HexValueBound(s, n - 1);
    }
  }

  /** The length of the longest prefix of `s` made of hex digits. */
  function HexPrefixLength(s: string): (n: nat)
    ensures n <= |s|
    ensures forall k :: 0 <= k < n ==> IsHexDigit(s[k])
    ensures n < |s| ==> !IsHexDigit(s[n])
  {
    if s == [] || !IsHexDigit(s[0]) then 0
    else
      var n := 1 + HexPrefixLength(s[1..]);
      assert forall k :: 1 <= k < n ==> s[k] == s[1..][k - 1];
      n
  }

  /** Does `s` begin with "0x" or "0X"? */
  predicate HasHexPrefix(s: string) {
    |s| >= 2 && s[0] == '0' && (s[1] == 'x' || s[1] == 'X')
  }

  /** Scanner.scanHexInt64: skips an optional "0x"/"0X" and reads the hex
      digits that follow; without any, the value stays 0. */
  function ScanHex(s: string): nat {
    var body := if HasHexPrefix(s) then s[2..] else s;
    HexValue(body, HexPrefixLength(body))
  }

  /** The scanned value has no more digits than the string has characters. */
  lemma ScanHexBound(s: string)
    ensures ScanHex(s) < Pow16(|s|)
  {
    var body := if HasHexPrefix(s) then s[2..] else s;
    var n := HexPrefixLength(body);
    HexValueBound(body, n);
    Pow16Monotone(n, |s|);
  }

  lemma {:induction false} Pow16Monotone(m: nat, n: nat)
    requires m <= n
    ensures Pow16(m) <= Pow16(n)
    decreases n
  {
    if m < n {
      Pow16Monotone(m, n - 1);
    }
  }

  /** The switch on the digit count `n` of Color(hex:), applied to the
      scanned value `v`. */
  function Channels(n: nat, v: nat): Argb {
    if n == 3 then Argb(255, (v / 256) * 17, (v / 16 % 16) * 17, (v % 16) * 17)
    else if n == 6 then Argb(255, v / 65536, v / 256 % 256, v % 256)
    else if n == 8 then Argb(v / 16777216, v / 65536 % 256, v / 256 % 256, v % 256)
    else Argb(1, 1, 1, 0)
  }

  /** Color(hex:): trims everything but letters and digits from both ends,
      reads the number, and splits it by the trimmed length: 3 digits are
      one nibble per channel (times 17) with opaque alpha, 6 digits one byte
      per channel with opaque alpha, 8 digits alpha first; any other length
      gives (1, 1, 1, 0). */
  function HexColor(hex: string): (c: Argb)
    ensures var t := Trim(hex, NotAlphanumeric);
            && (|t| == 3 || |t| == 6 ==> c.a == 255)
            && (|t| != 3 && |t| != 6 && |t| != 8 ==> c == Argb(1, 1, 1, 0))
  {
    var t := Trim(hex, NotAlphanumeric);
    Channels(|t|, ScanHex(t))
  }

  /** A numeral of n digits (n = 3, 6 or 8) gives channels that fit in a byte. */
  lemma ChannelsFit(n: nat, v: nat)
    requires v < Pow16(n)
    ensures var c := Channels(n, v); c.a <= 255 && c.r <= 255 && c.g <= 255 && c.b <= 255
  {
    if n == 3 {
      assert Pow16(3) == 4096;
    } else if n == 6 {
      assert Pow16(6) == 16777216;
    } else if n == 8 {
      assert Pow16(8) == 4294967296;
    }
  }

  /** Every channel fits in a byte, whatever the input. */
  lemma ChannelsBounded(hex: string)
    ensures HexColor(hex).a <= 255 && HexColor(hex).r <= 255
    ensures HexColor(hex).g <= 255 && HexColor(hex).b <= 255
  {
    var t := Trim(hex, NotAlphanumeric);
    ScanHexBound(t);
    ChannelsFit(|t|, ScanHex(t));
  }

  /** Surrounding punctuation such as a leading '#' does not matter: an
      already trimmed string gives the same colour. */
  lemma HexColorTrimmed(hex: string)
    ensures HexColor(Trim(hex, NotAlphanumeric)) == HexColor(hex)
  {
    TrimIdempotent(hex, NotAlphanumeric);
  }

  /** Dividing by 16, 256, 65536 and 16777216 a value written as a
      quotient and a remainder below the divisor. */
  lemma DivideOff16(q: nat, r: nat)
    requires r < 16
    ensures (q * 16 + r) / 16 == q && (q * 16 + r) % 16 == r
  {
  }

  lemma DivideOff256(q: nat, r: nat)
    requires r < 256
    ensures (q * 256 + r) / 256 == q && (q * 256 + r) % 256 == r
  {
  }

  lemma DivideOff65536(q: nat, r: nat)
    requires r < 65536
    ensures (q * 65536 + r) / 65536 == q && (q * 65536 + r) % 65536 == r
  {
  }

  lemma DivideOff16777216(q: nat, r: nat)
    requires r < 16777216
    ensures (q * 16777216 + r) / 16777216 == q
  {
  }

  /** Nibble splitting of a three-digit numeral. */
  lemma SplitThree(v: nat, d0: nat, d1: nat, d2: nat)
    requires d0 < 16 && d1 < 16 && d2 < 16
    requires v == (d0 * 16 + d1) * 16 + d2
    ensures Channels(3, v) == Argb(255, 17 * d0, 17 * d1, 17 * d2)
  {
    DivideOff16(d0 * 16 + d1, d2);
    DivideOff16(d0, d1);
    DivideOff256(d0, d1 * 16 + d2);
  }

  /** Byte splitting of a three-byte value. */
  lemma SplitSix(v: nat, r: nat, g: nat, b: nat)
    requires r < 256 && g < 256 && b < 256
    requires v == (r * 256 + g) * 256 + b
    ensures Channels(6, v) == Argb(255, r, g, b)
  {
    DivideOff256(r * 256 + g, b);
    DivideOff256(r, g);
    DivideOff65536(r, g * 256 + b);
  }

  /** Byte splitting of a four-byte value. */
  lemma SplitEight(v: nat, a: nat, r: nat, g: nat, b: nat)
    requires a < 256 && r < 256 && g < 256 && b < 256
    requires v == ((a * 256 + r) * 256 + g) * 256 + b
    ensures Channels(8, v) == Argb(a, r, g, b)
  {
    DivideOff256((a * 256 + r) * 256 + g, b);
    DivideOff256(a * 256 + r, g);
    DivideOff65536(a * 256 + r, g * 256 + b);
    DivideOff256(a, r);
    DivideOff16777216(a, (r * 256 + g) * 256 + b);
  }

  /** Two more digits shift the value by a byte. */
  lemma HexValueTwoMore(t: string, n: nat)
    requires n + 2 <= |t| && forall k :: 0 <= k < n + 2 ==> IsHexDigit(t[k])
    ensures HexValue(t, n + 2)
            == HexValue(t, n) * 256 + (16 * HexDigitValue(t[n]) + HexDigitValue(t[n + 1]))
  {
  }

  /** The byte written by the hex digits at i and i + 1. */
  function Byte(t: string, i: nat): (v: nat)
    requires i + 1 < |t| && IsHexDigit(t[i]) && IsHexDigit(t[i + 1])
    ensures v < 256
  {
    16 * HexDigitValue(t[i]) + HexDigitValue(t[i + 1])
  }

  /** A six-digit numeral is three bytes. */
  lemma SixDigitValue(t: string)
    requires |t| == 6 && forall k :: 0 <= k < 6 ==> IsHexDigit(t[k])
    ensures HexValue(t, 6) == (Byte(t, 0) * 256 + Byte(t, 2)) * 256 + Byte(t, 4)
  {
    HexValueTwoMore(t, 0);
    HexValueTwoMore(t, 2);
    HexValueTwoMore(t, 4);
  }

  /** An eight-digit numeral is four bytes. */
  lemma EightDigitValue(t: string)
    requires |t| == 8 && forall k :: 0 <= k < 8 ==> IsHexDigit(t[k])
    ensures HexValue(t, 8) == ((Byte(t, 0) * 256 + Byte(t, 2)) * 256 + Byte(t, 4)) * 256 + Byte(t, 6)
  {
    HexValueTwoMore(t, 0);
    HexValueTwoMore(t, 2);
    HexValueTwoMore(t, 4);
    HexValueTwoMore(t, 6);
  }

  /** Six hex digits read as red, green and blue from the digit pairs. */
  lemma SixDigits(t: string)
    requires |t| == 6 && forall k :: 0 <= k < 6 ==> IsHexDigit(t[k])
    ensures HexColor(t) == Argb(255, Byte(t, 0), Byte(t, 2), Byte(t, 4))
  {
    SixDigitValue(t);
    HexColorOfDigits(t);
    SplitSix(HexValue(t, 6), Byte(t, 0), Byte(t, 2), Byte(t, 4));
  }

  /** Three hex digits d0 d1 d2 read as red d0d0, green d1d1, blue d2d2. */
  lemma ThreeDigits(t: string)
    requires |t| == 3 && forall k :: 0 <= k < 3 ==> IsHexDigit(t[k])
    ensures HexColor(t) == Argb(255,
      17 * HexDigitValue(t[0]), 17 * HexDigitValue(t[1]), 17 * HexDigitValue(t[2]))
  {
    ThreeDigitValue(t);
    HexColorOfDigits(t);
    SplitThree(HexValue(t, 3), HexDigitValue(t[0]), HexDigitValue(t[1]), HexDigitValue(t[2]));
  }

  /** A three-digit numeral, digit by digit. */
  lemma ThreeDigitValue(t: string)
    requires |t| == 3 && forall k :: 0 <= k < 3 ==> IsHexDigit(t[k])
    ensures HexValue(t, 3) == (HexDigitValue(t[0]) * 16 + HexDigitValue(t[1])) * 16 + HexDigitValue(t[2])
  {
    HexValueTwoMore(t, 0);
  }

  /** Eight hex digits read as alpha, red, green and blue from the digit pairs. */
  lemma EightDigits(t: string)
    requires |t| == 8 && forall k :: 0 <= k < 8 ==> IsHexDigit(t[k])
    ensures HexColor(t) == Argb(Byte(t, 0), Byte(t, 2), Byte(t, 4), Byte(t, 6))
  {
    EightDigitValue(t);
    HexColorOfDigits(t);
    SplitEight(HexValue(t, 8), Byte(t, 0), Byte(t, 2), Byte(t, 4), Byte(t, 6));
  }

  /** A string that trimming leaves alone is split as it stands. */
  lemma HexColorUntrimmed(t: string)
    requires Trim(t, NotAlphanumeric) == t
    ensures HexColor(t) == Channels(|t|, ScanHex(t))
  {
  }

  /** A string of hex digits gives the channels of its whole numeral. */
  lemma HexColorOfDigits(t: string)
    requires |t| >= 1 && forall k :: 0 <= k < |t| ==> IsHexDigit(t[k])
    ensures HexColor(t) == Channels(|t|, HexValue(t, |t|))
  {
    DigitsUntrimmed(t);
    DigitsScanned(t);
  }

  lemma DigitsUntrimmed(t: string)
    requires forall k :: 0 <= k < |t| ==> IsHexDigit(t[k])
    ensures HexColor(t) == Channels(|t|, ScanHex(t))
  {
    TrimKeeps(t);
    HexColorUntrimmed(t);
  }

  lemma DigitsScanned(t: string)
    requires |t| >= 1 && forall k :: 0 <= k < |t| ==> IsHexDigit(t[k])
    ensures Channels(|t|, ScanHex(t)) == Channels(|t|, HexValue(t, |t|))
  {
    ScanAllDigits(t);
  }

  /** A string of hex digits is not trimmed. */
  lemma TrimKeeps(t: string)
    requires forall k :: 0 <= k < |t| ==> IsHexDigit(t[k])
    ensures Trim(t, NotAlphanumeric) == t
  {
    if t != [] {
      assert IsHexDigit(t[0]) && IsHexDigit(t[|t| - 1]);
    }
    TrimKept(t, NotAlphanumeric);
  }

  /** A string of hex digits scans as its whole numeral. */
  lemma ScanAllDigits(t: string)
    requires |t| >= 1 && forall k :: 0 <= k < |t| ==> IsHexDigit(t[k])
    ensures ScanHex(t) == HexValue(t, |t|)
  {
    assert !HasHexPrefix(t) by {
      if |t| >= 2 {
        assert IsHexDigit(t[1]);
      }
    }
  }
}
