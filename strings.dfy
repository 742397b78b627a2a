/** Character classes, decimal and hexadecimal text, and substring search,
    as the standard libraries of Swift and Python provide them to the models. */
module Strings {

  import opened Wrappers

  // ---------------------------------------------------------------------
  // ASCII digits

  predicate IsAsciiDigit(c: char) {
    '0' <= c <= '9'
  }

  predicate AllAsciiDigits(s: string) {
    forall i :: 0 <= i < |s| ==> IsAsciiDigit(s[i])
  }

  /** A Unicode-aware digit classifier (Python's `str.isdigit`, Swift's
      `Character.isNumber`) is modelled as a parameter; every one of them
      accepts the ASCII digits. */
  predicate AcceptsAsciiDigits(isDigit: char -> bool) {
    forall c :: IsAsciiDigit(c) ==> isDigit(c)
  }

  predicate AllSatisfy(s: string, p: char -> bool) {
    forall i :: 0 <= i < |s| ==> p(s[i])
  }

  function DigitChar(d: nat): (c: char)
    requires d < 10
    ensures IsAsciiDigit(c) && c as int - '0' as int == d
  {
    (d + '0' as int) as char
  }

  function DigitValue(c: char): (d: nat)
    requires IsAsciiDigit(c)
    ensures d < 10 && DigitChar(d) == c
  {
    c as int - '0' as int
  }

  function Pow10(k: nat): (p: nat)
    ensures p >= 1
  {
    if k == 0 then 1 else 10 * Pow10(k - 1)
  }

  // ---------------------------------------------------------------------
  // Decimal text of a natural number (Swift `Int.description`, Python `str(int)`)

  function NatToDecimal(n: nat): (s: string)
    decreases n
  {
    if n < 10 then [DigitChar(n)] else NatToDecimal(n / 10) + [DigitChar(n % 10)]
  }

  /** The value of a string of ASCII digits. */
  function DecimalValue(s: string): nat
    requires AllAsciiDigits(s)
    decreases |s|
  {
    if s == [] then 0 else 10 * DecimalValue(s[..|s| - 1]) + DigitValue(s[|s| - 1])
  }

  /** The decimal text is made of digits, has no leading zero and reads back as `n`. */
  lemma {:induction false} NatToDecimalFacts(n: nat)
    ensures |NatToDecimal(n)| >= 1
    ensures AllAsciiDigits(NatToDecimal(n))
    ensures n > 0 ==> NatToDecimal(n)[0] != '0'
    ensures DecimalValue(NatToDecimal(n)) == n
    ensures n < Pow10(|NatToDecimal(n)|)
    ensures |NatToDecimal(n)| > 1 ==> Pow10(|NatToDecimal(n)| - 1) <= n
    decreases n
  {
    if n >= 10 {
      NatToDecimalFacts(n / 10);
      var s := NatToDecimal(n);
      var p := NatToDecimal(n / 10);
      assert s == p + [DigitChar(n % 10)];
      assert s[..|s| - 1] == p;
      assert forall i :: 0 <= i < |s| ==> IsAsciiDigit(s[i]) by {
        forall i | 0 <= i < |s| ensures IsAsciiDigit(s[i]) {
          if i < |p| { assert s[i] == p[i]; }
        }
      }
      assert s[0] == p[0];
    }
  }

  /** Distinct numbers have distinct decimal texts. */
  lemma NatToDecimalInjective(m: nat, n: nat)
    requires NatToDecimal(m) == NatToDecimal(n)
    ensures m == n
  {
    NatToDecimalFacts(m);
    NatToDecimalFacts(n);
  }

  /** Numbers from 10^(k-1) up to 10^k - 1 have exactly k digits. */
  lemma NatToDecimalLength(n: nat, k: nat)
    requires k >= 1 && Pow10(k - 1) <= n < Pow10(k)
    ensures |NatToDecimal(n)| == k
  {
    NatToDecimalFacts(n);
    var len := |NatToDecimal(n)|;
    if len < k { Pow10Monotone(len, k - 1); }
    if len > k { Pow10Monotone(k, len - 1); }
  }

  lemma {:induction false} Pow10Monotone(a: nat, b: nat)
    requires a <= b
    ensures Pow10(a) <= Pow10(b)
    decreases b
  {
    if a < b { Pow10Monotone(a, b - 1); }
  }

  /** Swift `Int.description` and Python `str(int)` for any integer. */
  function IntToString(i: int): (s: string)
  {
    if i < 0 then "-" + NatToDecimal(-i) else NatToDecimal(i)
  }

  lemma IntToStringInjective(a: int, b: int)
    requires IntToString(a) == IntToString(b)
    ensures a == b
  {
    NatToDecimalFacts(if a < 0 then -a else a);
    NatToDecimalFacts(if b < 0 then -b else b);
    if a < 0 && b < 0 {
      assert IntToString(a)[1..] == NatToDecimal(-a);
      assert IntToString(b)[1..] == NatToDecimal(-b);
      NatToDecimalInjective(-a, -b);
    } else if a >= 0 && b >= 0 {
      NatToDecimalInjective(a, b);
    } else {
      assert false;
    }
  }

  // ---------------------------------------------------------------------
  // Padding

  function Repeat(c: char, n: nat): (s: string)
    ensures |s| == n && forall i :: 0 <= i < n ==> s[i] == c
  {
    if n == 0 then [] else [c] + Repeat(c, n - 1)
  }

  /** Python `s.zfill(width)` for a string without a sign: left-pad with '0'. */
  function ZFill(s: string, width: nat): (r: string)
  {
    if |s| >= width then s else Repeat('0', width - |s|) + s
  }

  /** Swift `s.padding(toLength: n, withPad: "0", startingAt: 0)`: pad on the
      right, or cut down to the first `n` characters. */
  function PadRight(s: string, n: nat): (r: string)
  {
    if |s| >= n then s[..n] else s + Repeat('0', n - |s|)
  }

  lemma AllAsciiDigitsAppend(a: string, b: string)
    requires AllAsciiDigits(a) && AllAsciiDigits(b)
    ensures AllAsciiDigits(a + b)
  {
    forall i | 0 <= i < |a + b| ensures IsAsciiDigit((a + b)[i]) {
      if i >= |a| { assert (a + b)[i] == b[i - |a|]; }
    }
  }

  /** Reading digits: the value of a concatenation. */
  lemma {:induction false} DecimalValueAppend(a: string, b: string)
    requires AllAsciiDigits(a) && AllAsciiDigits(b)
    ensures AllAsciiDigits(a + b)
    ensures DecimalValue(a + b) == DecimalValue(a) * Pow10(|b|) + DecimalValue(b)
    decreases |b|
  {
    AllAsciiDigitsAppend(a, b);
    if b == [] {
      assert a + b == a;
    } else {
      var b' := b[..|b| - 1];
      var c := b[|b| - 1];
      assert AllAsciiDigits(b');
      assert (a + b)[..|a + b| - 1] == a + b';
      assert (a + b)[|a + b| - 1] == c;
      DecimalValueAppend(a, b');
      DecimalStep(a + b, a + b', c);
      DecimalStep(b, b', c);
      MulStep(DecimalValue(a), Pow10(|b'|));
    }
  }

  lemma DecimalStep(s: string, init: string, c: char)
    requires AllAsciiDigits(s) && |s| > 0 && s[..|s| - 1] == init && s[|s| - 1] == c
    ensures AllAsciiDigits(init) && IsAsciiDigit(c)
    ensures DecimalValue(s) == 10 * DecimalValue(init) + DigitValue(c)
  {
    assert forall i :: 0 <= i < |init| ==> init[i] == s[i];
  }

  lemma MulStep(x: nat, p: nat)
    ensures 10 * (x * p) == x * (10 * p)
  {
  }

  /** Leading zeros do not change the value. */
  lemma {:induction false} DecimalValueZeros(k: nat)
    ensures AllAsciiDigits(Repeat('0', k)) && DecimalValue(Repeat('0', k)) == 0
    decreases k
  {
    if k > 0 {
      var z := Repeat('0', k);
      assert z[..k - 1] == Repeat('0', k - 1);
      DecimalValueZeros(k - 1);
    }
  }

  /** Zero-filling a digit string to a width at least its length gives a
      digit string of exactly that width with the same value. */
  lemma ZFillDigits(s: string, width: nat)
    requires AllAsciiDigits(s) && |s| <= width
    ensures |ZFill(s, width)| == width
    ensures AllAsciiDigits(ZFill(s, width))
    ensures DecimalValue(ZFill(s, width)) == DecimalValue(s)
  {
    if |s| < width {
      DecimalValueZeros(width - |s|);
      DecimalValueAppend(Repeat('0', width - |s|), s);
    }
  }

  // ---------------------------------------------------------------------
  // Prefixes and substrings

  predicate StartsWith(s: string, prefix: string) {
    |prefix| <= |s| && s[..|prefix|] == prefix
  }

  /** Swift `String.contains(_:)` for a substring (and `Character`). */
  predicate Contains(s: string, sub: string)
    decreases |s|
  {
    StartsWith(s, sub) || (|s| > 0 && Contains(s[1..], sub))
  }

  lemma {:induction false} ContainsInMiddle(pre: string, sub: string, post: string)
    ensures Contains(pre + sub + post, sub)
    decreases |pre|
  {
    var s := pre + sub + post;
    if pre == [] {
      assert s[..|sub|] == sub;
    } else {
      assert s[1..] == pre[1..] + sub + post;
      ContainsInMiddle(pre[1..], sub, post);
    }
  }

  /** No character of `s` is `c`. */
  predicate Lacks(s: string, c: char) {
    forall i :: 0 <= i < |s| ==> s[i] != c
  }

  lemma LacksConcat(a: string, b: string, c: char)
    requires Lacks(a, c) && Lacks(b, c)
    ensures Lacks(a + b, c)
  {
  }

  /** A string with no character equal to `c` does not contain the one-character string `[c]`. */
  lemma {:induction false} NotContainsChar(s: string, c: char)
    requires forall i :: 0 <= i < |s| ==> s[i] != c
    ensures !Contains(s, [c])
    decreases |s|
  {
    if |s| > 0 {
      assert s[..1][0] == s[0];
      NotContainsChar(s[1..], c);
    }
  }

  /** The converse: a string that does not contain `[c]` has no character equal to `c`. */
  lemma {:induction false} NotContainsCharAt(s: string, c: char)
    requires !Contains(s, [c])
    ensures forall i :: 0 <= i < |s| ==> s[i] != c
    decreases |s|
  {
    if |s| > 0 {
      assert s[..1] != [c];
      assert s[0] != c by { assert s[..1] == [s[0]]; }
      NotContainsCharAt(s[1..], c);
      forall i | 1 <= i < |s| ensures s[i] != c {
        assert s[1..][i - 1] == s[i];
      }
    }
  }

  // ---------------------------------------------------------------------
  // Hexadecimal

  /** One octet of a Swift `Data` value or a Python `bytes` value. */
  type Byte = x: int | 0 <= x < 256

  const LowerHexDigits: string := "0123456789abcdef"
  const UpperHexDigits: string := "0123456789ABCDEF"

  predicate IsLowerHexChar(c: char) {
    IsAsciiDigit(c) || 'a' <= c <= 'f'
  }

  predicate IsUpperHexChar(c: char) {
    IsAsciiDigit(c) || 'A' <= c <= 'F'
  }

  /** Two hexadecimal digits of one byte, high nibble first. */
  function ByteToHex(b: Byte, alphabet: string): (s: string)
    requires |alphabet| == 16
  {
    [alphabet[b / 16], alphabet[b % 16]]
  }

  function HexEncode(bytes: seq<Byte>, alphabet: string): (s: string)
    requires |alphabet| == 16
    ensures |s| == 2 * |bytes|
  {
    if bytes == [] then [] else ByteToHex(bytes[0], alphabet) + HexEncode(bytes[1..], alphabet)
  }

  /** Character `k` of the encoding is the high or low nibble of byte `k / 2`. */
  lemma {:induction false} HexEncodeAt(bytes: seq<Byte>, alphabet: string, k: nat)
    requires |alphabet| == 16 && k < 2 * |bytes|
    ensures HexEncode(bytes, alphabet)[k] ==
            if k % 2 == 0 then alphabet[bytes[k / 2] / 16]
            else alphabet[bytes[k / 2] % 16]
    decreases |bytes|
  {
    if k >= 2 {
      HexEncodeAt(bytes[1..], alphabet, k - 2);
    }
  }

  function LowerHexValue(c: char): (r: nat)
    requires IsLowerHexChar(c)
    ensures r < 16 && LowerHexDigits[r] == c
  {
    if IsAsciiDigit(c) then c as int - '0' as int else c as int - 'a' as int + 10
  }

  /** The inverse of the lowercase encoding: `None` for odd length or a non-hex character. */
  function LowerHexDecode(s: string): (r: Option<seq<Byte>>)
    decreases |s|
  {
    if s == [] then Some([])
    else if |s| < 2 || !IsLowerHexChar(s[0]) || !IsLowerHexChar(s[1]) then None
    else match LowerHexDecode(s[2..])
      case None => None
      case Some(rest) => Some([(LowerHexValue(s[0]) * 16 + LowerHexValue(s[1]))] + rest)
  }

  lemma {:induction false} LowerHexRoundTrip(bytes: seq<Byte>)
    ensures LowerHexDecode(HexEncode(bytes, LowerHexDigits)) == Some(bytes)
    decreases |bytes|
  {
    if bytes != [] {
      var s := HexEncode(bytes, LowerHexDigits);
      assert s[..2] == ByteToHex(bytes[0], LowerHexDigits);
      assert s[2..] == HexEncode(bytes[1..], LowerHexDigits);
      LowerHexRoundTrip(bytes[1..]);
      LowerHexByte(bytes[0]);
      assert [bytes[0]] + bytes[1..] == bytes;
    }
  }

  /** The two characters of one byte decode back to that byte. */
  lemma LowerHexByte(b: Byte)
    ensures IsLowerHexChar(ByteToHex(b, LowerHexDigits)[0])
    ensures IsLowerHexChar(ByteToHex(b, LowerHexDigits)[1])
    ensures (LowerHexValue(ByteToHex(b, LowerHexDigits)[0]) * 16
             + LowerHexValue(ByteToHex(b, LowerHexDigits)[1])) == b
  {
    var n := b;
    var hi, lo := LowerHexDigits[n / 16], LowerHexDigits[n % 16];
    assert IsLowerHexChar(hi) && IsLowerHexChar(lo);
    LowerHexDigitsDistinct(LowerHexValue(hi), n / 16);
    LowerHexDigitsDistinct(LowerHexValue(lo), n % 16);
    assert LowerHexValue(hi) * 16 + LowerHexValue(lo) == n;
  }

  lemma LowerHexDigitsDistinct(i: nat, j: nat)
    requires i < 16 && j < 16 && LowerHexDigits[i] == LowerHexDigits[j]
    ensures i == j
  {
  }

  // ---------------------------------------------------------------------
  // UUIDs (Foundation `UUID`, Python `uuid.UUID`)

  /** The 16 octets of a UUID (RFC 9562, section 4). */
  type Uuid = b: seq<Byte> | |b| == 16 witness [0, 0, 0, 0, 0, 0, 0, 0, 0, 0, 0, 0, 0, 0, 0, 0]

  /** Foundation's `uuidString`: uppercase hexadecimal in groups of
      8-4-4-4-12 digits separated by dashes. */
  function UuidString(u: Uuid): (s: string)
  {
    HexEncode(u[..4], UpperHexDigits) + "-" + HexEncode(u[4..6], UpperHexDigits) + "-" +
    HexEncode(u[6..8], UpperHexDigits) + "-" + HexEncode(u[8..10], UpperHexDigits) + "-" +
    HexEncode(u[10..], UpperHexDigits)
  }

  /** The dash positions of the 8-4-4-4-12 layout. */
  predicate IsDashPosition(i: int) {
    i == 8 || i == 13 || i == 18 || i == 23
  }

  /** A UUID string has 36 characters: dashes at positions 8, 13, 18 and 23
      and an uppercase hexadecimal digit everywhere else. */
  lemma UuidStringLayout(u: Uuid)
    ensures |UuidString(u)| == 36
    ensures forall i :: 0 <= i < 36 && IsDashPosition(i) ==> UuidString(u)[i] == '-'
    ensures forall i :: 0 <= i < 36 && !IsDashPosition(i) ==> IsUpperHexChar(UuidString(u)[i])
  {
    var s := UuidString(u);
    var g := [HexEncode(u[..4], UpperHexDigits), HexEncode(u[4..6], UpperHexDigits),
              HexEncode(u[6..8], UpperHexDigits), HexEncode(u[8..10], UpperHexDigits),
              HexEncode(u[10..], UpperHexDigits)];
    forall k | 0 <= k < 5
      ensures forall j :: 0 <= j < |g[k]| ==> IsUpperHexChar(g[k][j])
    {
      var bytes := if k == 0 then u[..4] else if k == 1 then u[4..6] else if k == 2 then u[6..8]
                   else if k == 3 then u[8..10] else u[10..];
      assert g[k] == HexEncode(bytes, UpperHexDigits);
      UpperHexAll(bytes);
    }
    assert s == g[0] + "-" + g[1] + "-" + g[2] + "-" + g[3] + "-" + g[4];
    forall i | 0 <= i < 36 && !IsDashPosition(i) ensures IsUpperHexChar(s[i]) {
      if i < 8 { assert s[i] == g[0][i]; }
      else if i < 13 { assert s[i] == g[1][i - 9]; }
      else if i < 18 { assert s[i] == g[2][i - 14]; }
      else if i < 23 { assert s[i] == g[3][i - 19]; }
      else { assert s[i] == g[4][i - 24]; }
    }
  }

  /** Every character of an uppercase encoding is an uppercase hexadecimal digit. */
  lemma UpperHexAll(bytes: seq<Byte>)
    ensures forall j :: 0 <= j < |HexEncode(bytes, UpperHexDigits)| ==>
              IsUpperHexChar(HexEncode(bytes, UpperHexDigits)[j])
  {
    forall j | 0 <= j < |HexEncode(bytes, UpperHexDigits)|
      ensures IsUpperHexChar(HexEncode(bytes, UpperHexDigits)[j])
    {
      HexEncodeAt(bytes, UpperHexDigits, j);
      assert forall d :: 0 <= d < 16 ==> IsUpperHexChar(UpperHexDigits[d]);
    }
  }
}
