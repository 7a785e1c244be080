/**
 Escaping for PDF literal strings (backend/src/application/services/booking-contract-service.ts),
 against the reader of section 7.3.4.2 of ISO 32000-1, which works on the bytes of the file.
 */
module PdfStrings {
  import opened Base
  import opened Text

  const LF := 10
  const CR := 13
  const OPEN := 40
  const CLOSE := 41
  const BACKSLASH := 92

  // ---------------------------------------------------------------- escaping

  /** `s.replace(/u/g, ...)` where the replacement is a backslash followed by `u`. */
  function Guard(s: seq<Unit>, u: Unit): seq<Unit> {
    if s == [] then [] else (if s[0] == u then [BACKSLASH, u] else [s[0]]) + Guard(s[1..], u)
  }

  /** The three chained replacements of `escapePdfText`. */
  function Escape(s: seq<Unit>): seq<Unit> {
    Guard(Guard(Guard(s, BACKSLASH), OPEN), CLOSE)
  }

  predicate Special(u: Unit) {
    u == BACKSLASH || u == OPEN || u == CLOSE
  }

  function EscapeUnit(u: Unit): seq<Unit> {
    if Special(u) then [BACKSLASH, u] else [u]
  }

  function EscapeOnce(s: seq<Unit>): (r: seq<Unit>)
    ensures (forall i :: 0 <= i < |s| ==> s[i] < 0x100) ==> forall i :: 0 <= i < |r| ==> r[i] < 0x100
  {
    if s == [] then [] else EscapeUnit(s[0]) + EscapeOnce(s[1..])
  }

  lemma {:induction false} GuardConcat(a: seq<Unit>, b: seq<Unit>, u: Unit)
    ensures Guard(a + b, u) == Guard(a, u) + Guard(b, u)
    decreases |a|
  {
    if a == [] {
      assert a + b == b;
    } else {
      assert (a + b)[1..] == a[1..] + b;
      GuardConcat(a[1..], b, u);
    }
  }

  lemma GuardUnit(v: Unit, u: Unit)
    ensures Guard([v], u) == if v == u then [BACKSLASH, u] else [v]
  {
    var one: seq<Unit> := [v];
    assert one[1..] == [];
    assert Guard(one[1..], u) == [];
  }

  lemma GuardPair(v: Unit, u: Unit)
    requires u != BACKSLASH
    ensures Guard([BACKSLASH, v], u) == [BACKSLASH] + Guard([v], u)
  {
    var two: seq<Unit> := [BACKSLASH, v];
    assert two[1..] == [v];
  }

  lemma EscapeUnitAlone(u: Unit)
    ensures Escape([u]) == EscapeUnit(u)
  {
    GuardUnit(u, BACKSLASH);
    GuardUnit(u, OPEN);
    GuardUnit(u, CLOSE);
    GuardPair(u, OPEN);
    GuardPair(u, CLOSE);
  }

  lemma EscapeConcat(a: seq<Unit>, b: seq<Unit>)
    ensures Escape(a + b) == Escape(a) + Escape(b)
  {
    GuardConcat(a, b, BACKSLASH);
    GuardConcat(Guard(a, BACKSLASH), Guard(b, BACKSLASH), OPEN);
    GuardConcat(Guard(Guard(a, BACKSLASH), OPEN), Guard(Guard(b, BACKSLASH), OPEN), CLOSE);
  }

  /** The chain never escapes its own backslashes: it equals the one-pass escape. */
  lemma {:induction false} EscapeIsOnePass(s: seq<Unit>)
    ensures Escape(s) == EscapeOnce(s)
  {
    if s != [] {
      assert [s[0]] + s[1..] == s;
      EscapeConcat([s[0]], s[1..]);
      EscapeUnitAlone(s[0]);
      EscapeIsOnePass(s[1..]);
    }
  }

  lemma {:induction false} EscapeOnceConcat(a: seq<Unit>, b: seq<Unit>)
    ensures EscapeOnce(a + b) == EscapeOnce(a) + EscapeOnce(b)
    decreases |a|
  {
    if a == [] {
      assert a + b == b;
    } else {
      assert (a + b)[1..] == a[1..] + b;
      EscapeOnceConcat(a[1..], b);
    }
  }

  lemma {:induction false} NothingToEscape(s: seq<Unit>)
    requires forall i :: 0 <= i < |s| ==> !Special(s[i])
    ensures EscapeOnce(s) == s
  {
    if s != [] {
      NothingToEscape(s[1..]);
    }
  }

  lemma EncodeEscapesPair(h: Unit, l: Unit, t: seq<Unit>)
    requires High(h) && Low(l) && Encode(EscapeOnce(t)) == EscapeOnce(Encode(t))
    ensures Encode(EscapeOnce([h, l] + t)) == EscapeOnce(Encode([h, l] + t))
  {
    var bytes := EncodePair(h, l);
    EscapeOnceConcat([h, l], t);
    NothingToEscape([h, l]);
    EncodePairFirst(h, l, EscapeOnce(t));
    EncodePairFirst(h, l, t);
    PairBytes(h, l);
    NothingToEscape(bytes);
    EscapeOnceConcat(bytes, Encode(t));
  }

  lemma EncodePairFirst(h: Unit, l: Unit, t: seq<Unit>)
    requires High(h) && Low(l)
    ensures Encode([h, l] + t) == EncodePair(h, l) + Encode(t)
  {
    assert ([h, l] + t)[2..] == t;
  }

  lemma EscapedSeam(u: Unit, t: seq<Unit>)
    requires Seamless([u], t)
    ensures Seamless(EscapeUnit(u), EscapeOnce(t))
  {
    if t != [] {
      assert EscapeOnce(t)[0] == EscapeUnit(t[0])[0];
    }
  }

  lemma EncodeEscapesUnit(u: Unit, t: seq<Unit>)
    requires Seamless([u], t) && Encode(EscapeOnce(t)) == EscapeOnce(Encode(t))
    ensures Encode(EscapeOnce([u] + t)) == EscapeOnce(Encode([u] + t))
  {
    UnitFirst(u, t);
    EscapedSeam(u, t);
    EncodeConcat(EscapeUnit(u), EscapeOnce(t));
    UnitBytes(u);
    EscapeOnceConcat(EncodeUnit(u), Encode(t));
  }

  lemma UnitFirst(u: Unit, t: seq<Unit>)
    requires Seamless([u], t)
    ensures EscapeOnce([u] + t) == EscapeUnit(u) + EscapeOnce(t) && Encode([u] + t) == EncodeUnit(u) + Encode(t)
  {
    assert ([u] + t)[1..] == t;
  }

  /** Escaping text and then encoding it is encoding it and then escaping the bytes. */
  lemma {:induction false} EncodeEscapes(s: seq<Unit>)
    ensures Encode(EscapeOnce(s)) == EscapeOnce(Encode(s))
    decreases |s|
  {
    if s == [] {
    } else if StartsPair(s) {
      EncodeEscapes(s[2..]);
      assert s == [s[0], s[1]] + s[2..];
      EncodeEscapesPair(s[0], s[1], s[2..]);
    } else {
      EncodeEscapes(s[1..]);
      assert s == [s[0]] + s[1..];
      EncodeEscapesUnit(s[0], s[1..]);
    }
  }

  lemma PairBytes(h: Unit, l: Unit)
    requires High(h) && Low(l)
    ensures forall i :: 0 <= i < 4 ==> EncodePair(h, l)[i] >= 0x80
  {
  }

  lemma UnitBytes(u: Unit)
    ensures Encode(EscapeUnit(u)) == EscapeOnce(EncodeUnit(u))
  {
    if u < 0x80 {
      EncodeLength(EscapeUnit(u));
      var one: seq<Unit> := [u];
      assert one[1..] == [];
      assert EscapeOnce(one) == EscapeUnit(u) + EscapeOnce([]);
    } else {
      var one: seq<Unit> := [u];
      assert one[1..] == [];
      assert Encode(one) == EncodeUnit(u) + Encode([]);
      NothingToEscape(EncodeUnit(u));
    }
  }

  // ---------------------------------------------------------------- the reader of ISO 32000-1

  datatype Literal = Literal(text: seq<Byte>, rest: seq<Byte>)

  predicate Octal(b: Byte) {
    48 <= b < 56
  }

  /** How many of the first three bytes form an octal code. */
  function OctalDigits(s: seq<Byte>): (n: nat)
    ensures n <= |s| && n <= 3
  {
    if |s| < 1 || !Octal(s[0]) then 0 else if |s| < 2 || !Octal(s[1]) then 1 else if |s| < 3 || !Octal(s[2]) then 2 else 3
  }

  function OctalValue(s: seq<Byte>): int {
    if s == [] then 0 else OctalValue(s[..|s| - 1]) * 8 + s[|s| - 1] as int - 48
  }

  /** The single-letter escapes, and the characters that stand for themselves. */
  function NamedEscape(b: Byte): Option<Byte> {
    if b == 110 then Some(LF)
    else if b == 114 then Some(CR)
    else if b == 116 then Some(9)
    else if b == 98 then Some(8)
    else if b == 102 then Some(12)
    else if Special(b) then Some(b)
    else None
  }

  /** How many bytes an end-of-line marker takes at the start of `s`. */
  function LineEnd(s: seq<Byte>): (n: nat)
    ensures n <= |s|
  {
    if s == [] then 0
    else if s[0] == CR then (if |s| > 1 && s[1] == LF then 2 else 1)
    else if s[0] == LF then 1 else 0
  }

  function Prefixed(text: seq<Byte>, r: Option<Literal>): Option<Literal> {
    match r
    case None => None
    case Some(l) => Some(Literal(text + l.text, l.rest))
  }

  /** The string that starts after an opening parenthesis, and what follows its closing one. */
  function ReadString(s: seq<Byte>, depth: nat): (r: Option<Literal>)
    ensures r.Some? ==> |r.value.rest| < |s|
    decreases |s|
  {
    if s == [] then None
    else if s[0] == CLOSE then
      if depth == 0 then Some(Literal([], s[1..])) else Prefixed([CLOSE], ReadString(s[1..], depth - 1))
    else if s[0] == OPEN then Prefixed([OPEN], ReadString(s[1..], depth + 1))
    else if LineEnd(s) > 0 then Prefixed([LF], ReadString(s[LineEnd(s)..], depth))
    else if s[0] != BACKSLASH then Prefixed([s[0]], ReadString(s[1..], depth))
    else if |s| == 1 then None
    else if NamedEscape(s[1]).Some? then Prefixed([NamedEscape(s[1]).value], ReadString(s[2..], depth))
    else if LineEnd(s[1..]) > 0 then ReadString(s[1 + LineEnd(s[1..])..], depth)
    else if OctalDigits(s[1..]) > 0 then
      var n := OctalDigits(s[1..]);
      Prefixed([OctalValue(s[1..1 + n]) % 256], ReadString(s[1 + n..], depth))
    else ReadString(s[1..], depth)
  }

  /** What a reader makes of unescaped line ends: each marker becomes one line feed. */
  function LineFeeds(s: seq<Byte>): seq<Byte>
    decreases |s|
  {
    if s == [] then []
    else if LineEnd(s) > 0 then [LF] + LineFeeds(s[LineEnd(s)..])
    else [s[0]] + LineFeeds(s[1..])
  }

  lemma ReadSpecial(u: Byte, t: seq<Byte>)
    requires Special(u)
    ensures ReadString([BACKSLASH, u] + t, 0) == Prefixed([u], ReadString(t, 0))
  {
    var s: seq<Byte> := [BACKSLASH, u] + t;
    assert s[0] == BACKSLASH && s[1] == u && s[2..] == t && LineEnd(s) == 0;
    assert NamedEscape(u) == Some(u);
  }

  lemma ReadPlain(u: Byte, t: seq<Byte>)
    requires !Special(u) && u != CR
    ensures ReadString([u] + t, 0) == Prefixed([u], ReadString(t, 0))
  {
    assert ([u] + t)[1..] == t;
  }

  lemma ReadReturn(t: seq<Byte>)
    requires t == [] || t[0] != LF
    ensures ReadString([CR] + t, 0) == Prefixed([LF], ReadString(t, 0))
  {
    assert ([CR] + t)[1..] == t;
  }

  lemma ReadReturnFeed(t: seq<Byte>)
    ensures ReadString([CR, LF] + t, 0) == Prefixed([LF], ReadString(t, 0))
  {
    assert ([CR, LF] + t)[2..] == t;
  }

  function Closed(s: seq<Byte>, rest: seq<Byte>): seq<Byte> {
    EscapeOnce(s) + [CLOSE] + rest
  }

  lemma ClosedStep(s: seq<Byte>, rest: seq<Byte>)
    requires s != []
    ensures Closed(s, rest) == EscapeUnit(s[0]) + Closed(s[1..], rest)
  {
    Assoc(EscapeUnit(s[0]), EscapeOnce(s[1..]), [CLOSE]);
    Assoc(EscapeUnit(s[0]), EscapeOnce(s[1..]) + [CLOSE], rest);
  }

  lemma ClosedStart(s: seq<Byte>, rest: seq<Byte>)
    ensures Closed(s, rest)[0] == LF <==> s != [] && s[0] == LF
  {
  }

  /** What reading one more unit in front comes to. */
  lemma ReadStep(u: Byte, t: seq<Byte>, rest: seq<Byte>)
    requires u == CR ==> t == [] || t[0] != LF
    ensures ReadString(EscapeUnit(u) + Closed(t, rest), 0) == Prefixed([if u == CR then LF else u], ReadString(Closed(t, rest), 0))
  {
    if u == CR {
      ClosedStart(t, rest);
      ReadReturn(Closed(t, rest));
    } else if Special(u) {
      ReadSpecial(u, Closed(t, rest));
    } else {
      ReadPlain(u, Closed(t, rest));
    }
  }

  lemma ReadReturnFeedStep(t: seq<Byte>, rest: seq<Byte>)
    ensures ReadString(Closed([CR, LF] + t, rest), 0) == Prefixed([LF], ReadString(Closed(t, rest), 0))
  {
    var s: seq<Byte> := [CR, LF] + t;
    ClosedStep(s, rest);
    assert s[1..] == [LF] + t;
    ClosedStep([LF] + t, rest);
    assert ([LF] + t)[1..] == t;
    assert [CR] + ([LF] + Closed(t, rest)) == [CR, LF] + Closed(t, rest);
    ReadReturnFeed(Closed(t, rest));
  }

  lemma LineFeedsStep(s: seq<Byte>)
    requires s != []
    ensures LineFeeds(s) == if LineEnd(s) == 2 then [LF] + LineFeeds(s[2..])
                            else [if s[0] == CR then LF else s[0]] + LineFeeds(s[1..])
  {
  }

  /** For all bytes: reading an escaped string gives it back up to its line ends. */
  lemma {:induction false} ReadEscaped(s: seq<Byte>, rest: seq<Byte>)
    ensures ReadString(Closed(s, rest), 0) == Some(Literal(LineFeeds(s), rest))
    decreases |s|
  {
    if s == [] {
      assert Closed(s, rest)[0] == CLOSE && Closed(s, rest)[1..] == rest;
    } else {
      LineFeedsStep(s);
      if LineEnd(s) == 2 {
        ReadEscaped(s[2..], rest);
        assert s == [CR, LF] + s[2..];
        ReadReturnFeedStep(s[2..], rest);
      } else {
        ReadEscaped(s[1..], rest);
        ClosedStep(s, rest);
        ReadStep(s[0], s[1..], rest);
      }
    }
  }

  /** The line ends survive exactly when there is no carriage return. */
  lemma {:induction false} LineFeedsIff(s: seq<Byte>)
    ensures LineFeeds(s) == s <==> CR !in s
    ensures |LineFeeds(s)| <= |s|
    decreases |s|
  {
    if s != [] {
      if LineEnd(s) > 0 {
        LineFeedsIff(s[LineEnd(s)..]);
        assert s[0] == LF ==> s == [LF] + s[1..];
        assert LineFeeds(s)[0] == LF;
        if s[0] == LF {
          assert LineFeeds(s)[1..] == LineFeeds(s[1..]);
        }
      } else {
        LineFeedsIff(s[1..]);
        assert s == [s[0]] + s[1..];
        assert LineFeeds(s)[1..] == LineFeeds(s[1..]);
      }
    }
  }

  lemma {:induction false} EncodeHasCr(s: seq<Unit>)
    ensures CR in Encode(s) <==> CR in s
    decreases |s|
  {
    if s == [] {
    } else if StartsPair(s) {
      EncodeHasCr(s[2..]);
      PairBytes(s[0], s[1]);
      assert s == [s[0], s[1]] + s[2..];
    } else {
      EncodeHasCr(s[1..]);
      assert s == [s[0]] + s[1..];
      assert CR in EncodeUnit(s[0]) <==> s[0] == CR;
    }
  }

  /**
   For every text: the literal-string reader undoes the escape on the encoded file exactly when the
   text has no carriage return, and in any case reads on right after the closing parenthesis.
   */
  lemma ReaderUndoesEscape(s: seq<Unit>, rest: seq<Byte>)
    ensures ReadString(Encode(Escape(s)) + [CLOSE] + rest, 0) == Some(Literal(LineFeeds(Encode(s)), rest))
    ensures ReadString(Encode(Escape(s)) + [CLOSE] + rest, 0) == Some(Literal(Encode(s), rest)) <==> CR !in s
  {
    EscapeIsOnePass(s);
    EncodeEscapes(s);
    ReadEscaped(Encode(s), rest);
    LineFeedsIff(Encode(s));
    EncodeHasCr(s);
  }
}
