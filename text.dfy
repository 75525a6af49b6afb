/** The few Foundation string facilities the reducers rely on: trimming a
    character class from both ends, ASCII lower-casing, substring search and
    zero-padded decimal formatting ("%02d"). */
module Text {

  /** Members of Foundation's whitespacesAndNewlines set (Unicode White_Space). */
  predicate IsWhitespace(c: char) {
    c == ' ' || c == '\t' || c == '\n' || c == '\r' || c == '\U{0B}' || c == '\U{0C}'
    || c == '\U{85}' || c == '\U{A0}' || c == '\U{1680}' || ('\U{2000}' <= c <= '\U{200A}')
    || c == '\U{2028}' || c == '\U{2029}' || c == '\U{202F}' || c == '\U{205F}' || c == '\U{3000}'
  }

  /** ASCII letters and digits, standing for Foundation's alphanumerics set. */
  predicate IsAlphanumeric(c: char) {
    ('a' <= c <= 'z') || ('A' <= c <= 'Z') || ('0' <= c <= '9')
  }

  /** The first index at or after `i` whose character is kept, or |s|. */
  function SkipForward(s: string, i: nat, drop: char -> bool): (j: nat)
    requires i <= |s|
    ensures i <= j <= |s|
    ensures forall k :: i <= k < j ==> drop(s[k])
    ensures j < |s| ==> !drop(s[j])
    decreases |s| - i
  {
    if i == |s| || !drop(s[i]) then i else SkipForward(s, i + 1, drop)
  }

  /** The smallest index e in lo..j such that s[e..j] holds only dropped
      characters. */
  function SkipBackward(s: string, lo: nat, j: nat, drop: char -> bool): (e: nat)
    requires lo <= j <= |s|
    ensures lo <= e <= j
    ensures forall k :: e <= k < j ==> drop(s[k])
    ensures e > lo ==> !drop(s[e - 1])
  {
    if j == lo || !drop(s[j - 1]) then j else SkipBackward(s, lo, j - 1, drop)
  }

  /** `r` is s[i..j] and everything outside that window satisfies `drop`. */
  predicate Sliced(s: string, r: string, i: int, j: int, drop: char -> bool) {
    && 0 <= i <= j <= |s| && r == s[i..j]
    && (forall k :: 0 <= k < i ==> drop(s[k]))
    && (forall k :: j <= k < |s| ==> drop(s[k]))
  }

  /** String.trimmingCharacters(in:): removes `drop` characters from both ends. */
  function Trim(s: string, drop: char -> bool): (r: string)
    ensures exists i, j :: Sliced(s, r, i, j, drop)
    ensures r != [] ==> !drop(r[0]) && !drop(r[|r| - 1])
  {
    var i := SkipForward(s, 0, drop);
    var j := SkipBackward(s, i, |s|, drop);
    assert Sliced(s, s[i..j], i, j, drop);
    s[i..j]
  }

  /** Trimming leaves nothing exactly when every character is trimmed. */
  lemma TrimEmptyIff(s: string, drop: char -> bool)
    ensures Trim(s, drop) == [] <==> forall k :: 0 <= k < |s| ==> drop(s[k])
  {
    var r := Trim(s, drop);
    if r == [] {
      var i, j :| Sliced(s, r, i, j, drop);
      assert i == j;
    } else {
      var i, j :| Sliced(s, r, i, j, drop);
      assert s[i] == r[0];
    }
  }

  /** A text whose ends are kept is left as it is, so trimming twice is
      trimming once. */
  lemma TrimIdempotent(s: string, drop: char -> bool)
    ensures Trim(Trim(s, drop), drop) == Trim(s, drop)
  {
    TrimKept(Trim(s, drop), drop);
  }

  /** A string that starts and ends with kept characters is not trimmed. */
  lemma TrimKept(s: string, drop: char -> bool)
    requires s != [] ==> !drop(s[0]) && !drop(s[|s| - 1])
    ensures Trim(s, drop) == s
  {
    assert SkipForward(s, 0, drop) == 0;
    assert SkipBackward(s, 0, |s|, drop) == |s|;
    assert s[0..|s|] == s;
  }

  function LowerChar(c: char): char {
    if 'A' <= c <= 'Z' then (c as int - 'A' as int + 'a' as int) as char else c
  }

  /** String.lowercased(), restricted to the ASCII letters. */
  function Lower(s: string): (r: string)
    ensures |r| == |s|
    ensures forall k :: 0 <= k < |s| ==> r[k] == LowerChar(s[k])
  {
    seq(|s|, k requires 0 <= k < |s| => LowerChar(s[k]))
  }

  /** String.contains(_:) for a non-empty needle: `k` occurs at some offset of `s`. */
  predicate Contains(s: string, k: string) {
    exists i | 0 <= i <= |s| :: OccursAt(s, k, i)
  }

  predicate OccursAt(s: string, k: string, i: int) {
    0 <= i && i + |k| <= |s| && s[i..i + |k|] == k
  }

  /** Lower-casing commutes with taking a slice. */
  lemma LowerSlice(s: string, i: nat, j: nat)
    requires i <= j <= |s|
    ensures Lower(s)[i..j] == Lower(s[i..j])
  {
  }

  /** An occurrence of `w` in `s` is an occurrence of lower(w) in lower(s):
      matching after lower-casing ignores the case of the text. */
  lemma ContainsLower(s: string, w: string)
    requires Contains(s, w)
    ensures Contains(Lower(s), Lower(w))
  {
    var i :| 0 <= i <= |s| && OccursAt(s, w, i);
    LowerSlice(s, i, i + |w|);
    assert OccursAt(Lower(s), Lower(w), i);
  }

  function DigitChar(d: nat): char
    requires d < 10
  {
    ('0' as int + d) as char
  }

  predicate IsDigit(c: char) {
    '0' <= c <= '9'
  }

  function DigitValue(c: char): nat
    requires IsDigit(c)
  {
    c as int - '0' as int
  }

  /** The decimal numeral of `n`, most significant digit first, no leading zero. */
  function Decimal(n: nat): (r: string)
    ensures 1 <= |r|
    ensures forall k :: 0 <= k < |r| ==> IsDigit(r[k])
    ensures n < 10 <==> |r| == 1
    ensures n < 100 <==> |r| <= 2
    ensures n > 0 ==> r[0] != '0'
  {
    if n < 10 then [DigitChar(n)] else Decimal(n / 10) + [DigitChar(n % 10)]
  }

  /** The number a string of decimal digits denotes. */
  function DecimalValue(s: string): nat
    requires forall k :: 0 <= k < |s| ==> IsDigit(s[k])
  {
    if s == [] then 0 else 10 * DecimalValue(s[..|s| - 1]) + DigitValue(s[|s| - 1])
  }

  /** Reading back a numeral gives the number it was written from. */
  lemma {:induction false} DecimalRoundTrip(n: nat)
    ensures DecimalValue(Decimal(n)) == n
  {
    var r := Decimal(n);
    if n >= 10 {
      DecimalRoundTrip(n / 10);
      assert r[..|r| - 1] == Decimal(n / 10);
    }
  }

  /** String(format: "%02d", n) for n >= 0: at least two digits, zero-padded
      to two and never beyond. */
  function Pad2(n: nat): (r: string)
    ensures 2 <= |r|
    ensures n < 100 <==> |r| == 2
    ensures n >= 10 ==> r[0] != '0'
    ensures forall k :: 0 <= k < |r| ==> IsDigit(r[k])
    ensures DecimalValue(r) == n
  {
    DecimalRoundTrip(n);
    if n < 10 then
      var r := ['0'] + Decimal(n);
      assert r[..1] == ['0'];
      r
    else
      Decimal(n)
  }
}
