/** Decimal numerals, JavaScript strings as UTF-16 code units, and their UTF-8 encoding. */
module Text {

  // ---------------------------------------------------------------- decimal numerals

  const DIGITS := "0123456789"

  /** JavaScript's `String(n)` for a natural number. */
  function Decimal(n: nat): string {
    if n < 10 then [DIGITS[n]] else Decimal(n / 10) + [DIGITS[n % 10]]
  }

  predicate IsDigit(c: char) {
    '0' <= c <= '9'
  }

  /** The number a string of digits denotes. */
  function NumberOf(s: string): int {
    if s == [] then 0 else NumberOf(s[..|s| - 1]) * 10 + (s[|s| - 1] as int - '0' as int)
  }

  lemma {:induction false} DecimalDenotes(n: nat)
    ensures NumberOf(Decimal(n)) == n
    ensures Decimal(n) != [] && forall i :: 0 <= i < |Decimal(n)| ==> IsDigit(Decimal(n)[i])
  {
    if n < 10 {
      assert Decimal(n)[..0] == [];
      assert NumberOf([]) == 0;
    } else {
      DecimalDenotes(n / 10);
      assert Decimal(n)[..|Decimal(n)| - 1] == Decimal(n / 10);
    }
  }

  lemma DigitOf(c: char)
    requires IsDigit(c)
    ensures DIGITS[c as int - '0' as int] == c
  {
  }

  /** A numeral without a leading zero is the one its number is written with. */
  lemma {:induction false} DecimalOfNumber(s: string)
    requires s != [] && s[0] != '0' && forall i :: 0 <= i < |s| ==> IsDigit(s[i])
    ensures NumberOf(s) >= 1 && Decimal(NumberOf(s)) == s
  {
    var front, last := s[..|s| - 1], s[|s| - 1];
    DigitOf(last);
    if front != [] {
      DecimalOfNumber(front);
      assert NumberOf(s) == 10 * NumberOf(front) + (last as int - '0' as int);
      assert NumberOf(s) / 10 == NumberOf(front) && NumberOf(s) % 10 == last as int - '0' as int;
      assert front + [last] == s;
    } else {
      assert NumberOf(front) == 0;
      assert s == [last];
    }
  }

  /** `s.padStart(width, "0")`. */
  function PadStart(s: string, width: nat): (r: string)
    ensures |r| == if |s| < width then width else |s|
    decreases width - |s|
  {
    if |s| >= width then s else PadStart("0" + s, width)
  }

  lemma {:induction false} LeadingZero(s: string)
    ensures NumberOf("0" + s) == NumberOf(s)
    decreases |s|
  {
    var z := "0" + s;
    if s == [] {
      assert z[..0] == [];
    } else {
      assert z[..|z| - 1] == "0" + s[..|s| - 1];
      LeadingZero(s[..|s| - 1]);
    }
  }

  lemma {:induction false} PaddingDenotes(s: string, width: nat)
    ensures NumberOf(PadStart(s, width)) == NumberOf(s)
    ensures (forall i :: 0 <= i < |s| ==> IsDigit(s[i])) ==> forall i :: 0 <= i < |PadStart(s, width)| ==> IsDigit(PadStart(s, width)[i])
    decreases width - |s|
  {
    if |s| < width {
      LeadingZero(s);
      PaddingDenotes("0" + s, width);
    }
  }

  // ---------------------------------------------------------------- UTF-16 and UTF-8

  /** A UTF-16 code unit: what `length` counts and what an index addresses. */
  type Unit = u: int | 0 <= u < 0x10000

  type Byte = b: int | 0 <= b < 0x100

  predicate Ascii(s: seq<Unit>) {
    forall i :: 0 <= i < |s| ==> s[i] < 0x80
  }

  const SPACE: Unit := 32

  /** The class `\s` of JavaScript regular expressions, which `trim` uses too. */
  predicate IsSpace(u: Unit) {
    u == SPACE || 9 <= u <= 13 || u == 0xA0 || u == 0x1680 || 0x2000 <= u <= 0x200A || 0x2028 <= u <= 0x2029
    || u == 0x202F || u == 0x205F || u == 0x3000 || u == 0xFEFF
  }

  /** An ASCII literal. */
  function Units(s: string): (r: seq<Unit>)
    requires forall i :: 0 <= i < |s| ==> s[i] < 128 as char
    ensures |r| == |s| && Ascii(r) && forall i :: 0 <= i < |s| ==> r[i] == s[i] as int
  {
    seq(|s|, i requires 0 <= i < |s| => s[i] as int)
  }

  predicate High(u: Unit) {
    0xD800 <= u < 0xDC00
  }

  predicate Low(u: Unit) {
    0xDC00 <= u < 0xE000
  }

  function EncodeUnit(u: Unit): (r: seq<Byte>)
    ensures |r| >= 1 && (|r| == 1 <==> u < 0x80)
  {
    if u < 0x80 then [u]
    else if u < 0x800 then [0xC0 + u / 0x40, 0x80 + u % 0x40]
    else if High(u) || Low(u) then [0xEF, 0xBF, 0xBD]  // a lone surrogate becomes U+FFFD
    else [0xE0 + u / 0x1000, 0x80 + u / 0x40 % 0x40, 0x80 + u % 0x40]
  }

  function EncodePair(h: Unit, l: Unit): (r: seq<Byte>)
    requires High(h) && Low(l)
    ensures |r| == 4
  {
    var cp := 0x10000 + (h - 0xD800) * 0x400 + (l - 0xDC00);
    [0xF0 + cp / 0x40000, 0x80 + cp / 0x1000 % 0x40, 0x80 + cp / 0x40 % 0x40, 0x80 + cp % 0x40]
  }

  predicate StartsPair(s: seq<Unit>) {
    |s| >= 2 && High(s[0]) && Low(s[1])
  }

  /** `Buffer.from(s, "utf8")`. */
  function Encode(s: seq<Unit>): seq<Byte>
    decreases |s|
  {
    if s == [] then []
    else if StartsPair(s) then EncodePair(s[0], s[1]) + Encode(s[2..])
    else EncodeUnit(s[0]) + Encode(s[1..])
  }

  /** Joining two strings does not form a surrogate pair across the seam. */
  predicate Seamless(a: seq<Unit>, b: seq<Unit>) {
    a == [] || b == [] || !High(a[|a| - 1]) || !Low(b[0])
  }

  lemma {:induction false} EncodeConcat(a: seq<Unit>, b: seq<Unit>)
    requires Seamless(a, b)
    ensures Encode(a + b) == Encode(a) + Encode(b)
    decreases |a|
  {
    if a == [] {
      assert a + b == b;
    } else if StartsPair(a) {
      assert (a + b)[2..] == a[2..] + b;
      EncodeConcat(a[2..], b);
    } else {
      assert (a + b)[1..] == a[1..] + b;
      EncodeConcat(a[1..], b);
    }
  }

  /** Encoding an ASCII string changes nothing; any other unit costs extra bytes. */
  lemma {:induction false} EncodeLength(s: seq<Unit>)
    ensures |Encode(s)| >= |s|
    ensures |Encode(s)| == |s| <==> Ascii(s)
    ensures Ascii(s) ==> Encode(s) == s
    decreases |s|
  {
    if s != [] {
      if StartsPair(s) {
        EncodeLength(s[2..]);
        assert s[0] >= 0x80;
      } else {
        EncodeLength(s[1..]);
        if |Encode(s)| == |s| || Ascii(s) {
          assert s[0] < 0x80;
          assert s == [s[0]] + s[1..];
        }
      }
    }
  }

  // ---------------------------------------------------------------- reading UTF-8

  predicate Continues(b: Byte) {
    0x80 <= b < 0xC0
  }

  /** The bits of a continuation byte. */
  function Low6(b: Byte): int {
    b - 0x80
  }

  /** The UTF-16 units of a code point (section 2 of RFC 2781). */
  function Utf16(cp: int): seq<Unit>
    requires 0 <= cp < 0x110000
  {
    if cp < 0x10000 then [cp] else [0xD800 + (cp - 0x10000) / 0x400, 0xDC00 + (cp - 0x10000) % 0x400]
  }

  /** Reading UTF-8 (section 3 of RFC 3629); anything malformed ends the text. */
  function Decode(b: seq<Byte>): seq<Unit>
    decreases |b|
  {
    if b == [] then []
    else if b[0] < 0x80 then [b[0]] + Decode(b[1..])
    else if 0xC0 <= b[0] < 0xE0 && |b| > 1 && Continues(b[1]) then
      Utf16((b[0] - 0xC0) * 0x40 + Low6(b[1])) + Decode(b[2..])
    else if 0xE0 <= b[0] < 0xF0 && |b| > 2 && Continues(b[1]) && Continues(b[2]) then
      Utf16((b[0] - 0xE0) * 0x1000 + Low6(b[1]) * 0x40 + Low6(b[2])) + Decode(b[3..])
    else if 0xF0 <= b[0] < 0xF4 && |b| > 3 && Continues(b[1]) && Continues(b[2]) && Continues(b[3]) then
      Utf16((b[0] - 0xF0) * 0x40000 + Low6(b[1]) * 0x1000 + Low6(b[2]) * 0x40 + Low6(b[3])) + Decode(b[4..])
    else if b[0] == 0xF4 && |b| > 3 && 0x80 <= b[1] < 0x90 && Continues(b[2]) && Continues(b[3]) then
      Utf16(0x100000 + Low6(b[1]) * 0x1000 + Low6(b[2]) * 0x40 + Low6(b[3])) + Decode(b[4..])
    else []
  }

  /** What the encoder makes of surrogates without a partner. */
  function Repaired(s: seq<Unit>): seq<Unit>
    decreases |s|
  {
    if s == [] then []
    else if StartsPair(s) then [s[0], s[1]] + Repaired(s[2..])
    else [if High(s[0]) || Low(s[0]) then 0xFFFD else s[0]] + Repaired(s[1..])
  }

  lemma SixBits(u: nat)
    ensures u == u / 0x40 * 0x40 + u % 0x40 && u / 0x40 == u / 0x1000 * 0x40 + u / 0x40 % 0x40
  {
  }

  lemma DecodeUnit(u: Unit, rest: seq<Byte>)
    ensures Decode(EncodeUnit(u) + rest) == [if High(u) || Low(u) then 0xFFFD else u] + Decode(rest)
  {
    var b := EncodeUnit(u) + rest;
    var n := |EncodeUnit(u)|;
    assert b[n..] == rest;
    assert forall i :: 0 <= i < n ==> b[i] == EncodeUnit(u)[i];
    SixBits(u);
  }

  lemma FourBytes(cp: int)
    requires 0x10000 <= cp < 0x110000
    ensures cp == cp / 0x40000 * 0x40000 + cp / 0x1000 % 0x40 * 0x1000 + cp / 0x40 % 0x40 * 0x40 + cp % 0x40
    ensures 0 <= cp / 0x40000 <= 4 && (cp / 0x40000 == 4 ==> cp / 0x1000 % 0x40 < 0x10)
  {
    var a, b := cp / 0x40, cp / 0x1000;
    assert b == a / 0x40 && cp / 0x40000 == b / 0x40;
    assert cp == a * 0x40 + cp % 0x40;
    assert a == b * 0x40 + a % 0x40;
    assert b == b / 0x40 * 0x40 + b % 0x40;
  }

  lemma PairOf(h: Unit, l: Unit)
    requires High(h) && Low(l)
    ensures Utf16(0x10000 + (h - 0xD800) * 0x400 + (l - 0xDC00)) == [h, l]
  {
  }

  lemma DecodeFour(b: seq<Byte>, rest: seq<Byte>)
    requires |b| == 4 && 0xF0 <= b[0] <= 0xF4 && Continues(b[1]) && Continues(b[2]) && Continues(b[3])
    requires b[0] == 0xF4 ==> b[1] < 0x90
    ensures Decode(b + rest)
         == Utf16((b[0] - 0xF0) * 0x40000 + Low6(b[1]) * 0x1000 + Low6(b[2]) * 0x40 + Low6(b[3])) + Decode(rest)
  {
    assert (b + rest)[4..] == rest;
    assert forall i :: 0 <= i < 4 ==> (b + rest)[i] == b[i];
  }

  lemma DecodePair(h: Unit, l: Unit, rest: seq<Byte>)
    requires High(h) && Low(l)
    ensures Decode(EncodePair(h, l) + rest) == [h, l] + Decode(rest)
  {
    var cp := 0x10000 + (h - 0xD800) * 0x400 + (l - 0xDC00);
    FourBytes(cp);
    PairOf(h, l);
    DecodeFour(EncodePair(h, l), rest);
  }

  /** For every string: a UTF-8 reader gets back what was encoded, with U+FFFD for unpaired surrogates. */
  lemma {:induction false} DecodeEncode(s: seq<Unit>)
    ensures Decode(Encode(s)) == Repaired(s)
    decreases |s|
  {
    if s == [] {
    } else if StartsPair(s) {
      DecodePair(s[0], s[1], Encode(s[2..]));
      DecodeEncode(s[2..]);
    } else {
      DecodeUnit(s[0], Encode(s[1..]));
      DecodeEncode(s[1..]);
    }
  }

  // ---------------------------------------------------------------- sequences

  lemma Assoc<T>(a: seq<T>, b: seq<T>, c: seq<T>)
    ensures a + b + c == a + (b + c)
  {
  }

  lemma NoneBefore<T>(a: seq<T>)
    ensures [] + a == a && a + [] == a
  {
  }
}
