/**
 The file the hand-written PDF writer produces: five objects, the cross-reference table and the
 trailer (backend/src/application/services/booking-contract-service.ts), and where a reader that
 follows section 7.5 of ISO 32000-1 finds them.
 */
module PdfFile {
  import opened Text
  import opened PdfLines
  import PdfStream

  // ---------------------------------------------------------------- the writer

  function Number(n: nat): (r: Line)
    ensures r != [] && Ascii(r) && forall i :: 0 <= i < |r| ==> Digit(r[i])
  {
    DecimalDenotes(n);
    Units(Decimal(n))
  }

  predicate Digit(u: Unit) {
    48 <= u < 58
  }

  function Object(k: nat, inner: Line): Line {
    Number(k) + Units(" 0 obj\n") + inner + Units("\nendobj\n")
  }

  const CATALOG: Line := Units("<< /Type /Catalog /Pages 2 0 R >>")
  const PAGES: Line := Units("<< /Type /Pages /Kids [3 0 R] /Count 1 >>")
  const PAGE: Line :=
    Units("<< /Type /Page /Parent 2 0 R ") + Units("/MediaBox [0 0 612 842] /Contents 4 0 R")
    + Units(" /Resources << /Font << /F1 5 0 R >> >> >>")
  const FONT: Line := Units("<< /Type /Font /Subtype /Type1") + Units(" /BaseFont /Helvetica >>")

  /** The content stream, preceded by its size in bytes. */
  function Contents(stream: Line): Line {
    Units("<< /Length ") + Number(|Encode(stream)|) + Units(" >>\nstream\n") + stream + Units("\nendstream")
  }

  function Inner(stream: Line, k: nat): Line
    requires 1 <= k <= 5
  {
    if k == 1 then CATALOG else if k == 2 then PAGES else if k == 3 then PAGE
    else if k == 4 then Contents(stream) else FONT
  }

  function Objects(stream: Line): (r: seq<Line>)
    ensures |r| == 5 && forall k :: 0 <= k < 5 ==> r[k] == Object(k + 1, Inner(stream, k + 1))
  {
    seq(5, k requires 0 <= k < 5 => Object(k + 1, Inner(stream, k + 1)))
  }

  const HEADER: Line := Units("%PDF-1.4\n")

  /** `parts.join("")`. */
  function Chain(parts: seq<Line>): Line {
    if parts == [] then [] else Chain(parts[..|parts| - 1]) + parts[|parts| - 1]
  }

  /** The offset recorded for part `k`, counted in UTF-16 units as the writer does. */
  function Offset(parts: seq<Line>, k: nat): nat
    requires k <= |parts|
  {
    |HEADER + Chain(parts[..k])|
  }

  function Entry(offset: nat): Line {
    PadDigits(offset) + Units(" 00000 n \n")
  }

  function PadDigits(offset: nat): (r: Line)
    ensures |r| == if |Decimal(offset)| < 10 then 10 else |Decimal(offset)|
    ensures forall i :: 0 <= i < |r| ==> Digit(r[i])
  {
    DecimalDenotes(offset);
    PaddingDenotes(Decimal(offset), 10);
    Units(PadStart(Decimal(offset), 10))
  }

  function Entries(offsets: seq<nat>): (r: seq<Line>)
    ensures |r| == |offsets| && forall i :: 0 <= i < |r| ==> r[i] == Entry(offsets[i])
  {
    seq(|offsets|, i requires 0 <= i < |offsets| => Entry(offsets[i]))
  }

  function Xref(offsets: seq<nat>): Line {
    Units("xref\n0 ") + Number(|offsets| + 1) + Units("\n0000000000 65535 f \n") + Chain(Entries(offsets))
  }

  function Trailer(count: nat, start: nat): Line {
    Units("trailer\n<< /Size ") + Number(count) + Units(" /Root 1 0 R >>\nstartxref\n") + Number(start) + Units("\n%%EOF")
  }

  function Offsets(parts: seq<Line>): (r: seq<nat>)
    ensures |r| == |parts| && forall k :: 0 <= k < |parts| ==> r[k] == Offset(parts, k)
  {
    seq(|parts|, k requires 0 <= k < |parts| => Offset(parts, k))
  }

  function Assemble(parts: seq<Line>): Line {
    HEADER + Chain(parts) + Xref(Offsets(parts)) + Trailer(|parts| + 1, Offset(parts, |parts|))
  }

  /** The lines that fit on the page: the first 56 wrapped ones. */
  function KeptLines(title: Line, body: Line): seq<Line> {
    var lines := WrapAll(RawLines(title, body));
    if |lines| <= 56 then lines else lines[..56]
  }

  function Stream(title: Line, body: Line): Line {
    PdfStream.StreamText(KeptLines(title, body))
  }

  function File(title: Line, body: Line): seq<Byte> {
    Encode(Assemble(Objects(Stream(title, body))))
  }

  /** `buildSimplePdfBuffer`, with its wrapping and offset loops. */
  method BuildSimplePdfBuffer(title: Line, body: Line) returns (file: seq<Byte>)
    ensures file == File(title, body)
  {
    var wrappedLines := WrapLines(RawLines(title, body));
    var lines := if |wrappedLines| <= 56 then wrappedLines else wrappedLines[..56];
    var objects := Objects(PdfStream.StreamText(lines));
    var offsets, cursor := LayOut(objects);
    file := Encode(HEADER + Chain(objects) + Xref(offsets) + Trailer(|objects| + 1, cursor));
  }

  /** The offset loop: where each object starts, and where the table starts. */
  method LayOut(objects: seq<Line>) returns (offsets: seq<nat>, cursor: nat)
    ensures offsets == Offsets(objects)
    ensures cursor == Offset(objects, |objects|)
  {
    offsets := [];
    cursor := |HEADER|;
    for i := 0 to |objects|
      invariant |offsets| == i && forall k :: 0 <= k < i ==> offsets[k] == Offset(objects, k)
      invariant cursor == Offset(objects, i)
    {
      offsets := offsets + [cursor];
      cursor := cursor + |objects[i]|;
      assert objects[..i + 1][..i] == objects[..i];
    }
  }

  // ---------------------------------------------------------------- positions

  /** The bytes stand at that position of the file. */
  predicate StandsAt(file: seq<Byte>, position: nat, bytes: seq<Byte>) {
    position + |bytes| <= |file| && file[position..position + |bytes|] == bytes
  }

  lemma {:induction false} ChainCut(parts: seq<Line>, k: nat)
    requires k <= |parts|
    ensures Chain(parts) == Chain(parts[..k]) + Chain(parts[k..])
    decreases |parts|
  {
    var n := |parts| - 1;
    if k == |parts| {
      assert parts[..k] == parts;
    } else {
      ChainCut(parts[..n], k);
      assert parts[..n][..k] == parts[..k] && parts[..n][k..] == parts[k..][..n - k];
      assert parts[k..][n - k] == parts[n];
    }
  }

  lemma ChainFirst(parts: seq<Line>)
    requires parts != []
    ensures Chain(parts) == parts[0] + Chain(parts[1..])
  {
    ChainCut(parts, 1);
    assert Chain(parts[..1]) == parts[0] by {
      assert parts[..1][..0] == [];
      assert Chain([]) == [];
    }
  }

  lemma {:induction false} ChainAscii(parts: seq<Line>)
    ensures Ascii(Chain(parts)) <==> forall i :: 0 <= i < |parts| ==> Ascii(parts[i])
  {
    if parts != [] {
      var n := |parts| - 1;
      ChainAscii(parts[..n]);
      PdfStream.AsciiConcat(Chain(parts[..n]), parts[n]);
      assert forall i :: 0 <= i < n ==> parts[..n][i] == parts[i];
    }
  }

  predicate AsciiEnds(part: Line) {
    part != [] && part[0] < 0x80 && part[|part| - 1] < 0x80
  }

  lemma Placed(before: Line, part: Line, after: Line)
    requires AsciiEnds(part)
    ensures StandsAt(Encode(before + part + after), |Encode(before)|, Encode(part))
  {
    EncodeConcat(before, part);
    EncodeConcat(before + part, after);
  }

  /** Where part `k` starts in the encoded file (`k == |parts|`: the cross-reference table). */
  function Position(parts: seq<Line>, k: nat): nat
    requires k <= |parts|
  {
    |Encode(HEADER + Chain(parts[..k]))|
  }

  lemma OffsetIffAscii(parts: seq<Line>, k: nat)
    requires k <= |parts|
    ensures Offset(parts, k) == Position(parts, k) <==> forall i :: 0 <= i < k ==> Ascii(parts[i])
  {
    EncodeLength(HEADER + Chain(parts[..k]));
    PdfStream.AsciiConcat(HEADER, Chain(parts[..k]));
    ChainAscii(parts[..k]);
    assert forall i :: 0 <= i < k ==> parts[..k][i] == parts[i];
  }

  lemma Around(parts: seq<Line>, k: nat)
    requires k < |parts|
    ensures exists after :: Assemble(parts) == HEADER + Chain(parts[..k]) + parts[k] + after
  {
    ChainCut(parts, k);
    ChainFirst(parts[k..]);
    var last := Xref(Offsets(parts)) + Trailer(|parts| + 1, Offset(parts, |parts|));
    Regrouped(HEADER, Chain(parts[..k]), parts[k], Chain(parts[k..][1..]), Xref(Offsets(parts)),
              Trailer(|parts| + 1, Offset(parts, |parts|)));
    assert Assemble(parts) == HEADER + Chain(parts[..k]) + parts[k] + (Chain(parts[k..][1..]) + last);
  }

  lemma Regrouped(a: Line, b: Line, c: Line, d: Line, e: Line, f: Line)
    ensures a + (b + (c + d)) + e + f == a + b + c + (d + (e + f))
  {
  }

  lemma PartStands(parts: seq<Line>, k: nat)
    requires k < |parts| && AsciiEnds(parts[k])
    ensures StandsAt(Encode(Assemble(parts)), Position(parts, k), Encode(parts[k]))
  {
    Around(parts, k);
    var after :| Assemble(parts) == HEADER + Chain(parts[..k]) + parts[k] + after;
    Placed(HEADER + Chain(parts[..k]), parts[k], after);
  }

  lemma ObjectAscii(k: nat, inner: Line)
    ensures AsciiEnds(Object(k, inner))
    ensures Ascii(Object(k, inner)) <==> Ascii(inner)
  {
    PdfStream.AsciiConcat(Number(k) + Units(" 0 obj\n"), inner);
    PdfStream.AsciiConcat(Number(k) + Units(" 0 obj\n") + inner, Units("\nendobj\n"));
    PdfStream.AsciiConcat(Number(k), Units(" 0 obj\n"));
  }

  lemma ContentsAscii(stream: Line)
    ensures Ascii(Contents(stream)) <==> Ascii(stream)
  {
    var length := Units("<< /Length ") + Number(|Encode(stream)|) + Units(" >>\nstream\n");
    assert Ascii(length);
    PdfStream.AsciiConcat(length, stream);
    PdfStream.AsciiConcat(length + stream, Units("\nendstream"));
  }

  lemma ObjectsAscii(stream: Line, k: nat)
    requires k < 5
    ensures AsciiEnds(Objects(stream)[k])
    ensures Ascii(Objects(stream)[k]) <==> k != 3 || Ascii(stream)
  {
    ObjectAscii(k + 1, Inner(stream, k + 1));
    ContentsAscii(stream);
  }

  lemma OffsetsOf(stream: Line, k: nat)
    requires k <= 5
    ensures Offset(Objects(stream), k) == Position(Objects(stream), k) <==> k <= 3 || Ascii(stream)
  {
    OffsetIffAscii(Objects(stream), k);
    forall i | 0 <= i < 5 ensures Ascii(Objects(stream)[i]) <==> i != 3 || Ascii(stream) {
      ObjectsAscii(stream, i);
    }
    assert k > 3 && !Ascii(stream) ==> !Ascii(Objects(stream)[3]);
  }

  /** What a reader must find at the start of object `k`. */
  function ObjectHead(k: nat): seq<Byte> {
    Encode(Number(k) + Units(" 0 obj\n"))
  }

  lemma StandsShorter(file: seq<Byte>, position: nat, a: seq<Byte>, b: seq<Byte>)
    requires StandsAt(file, position, a + b)
    ensures StandsAt(file, position, a) && StandsAt(file, position + |a|, b)
  {
    var whole := file[position..position + |a + b|];
    assert whole[..|a|] == file[position..position + |a|];
    assert whole[|a|..] == file[position + |a|..position + |a| + |b|];
  }

  lemma ObjectStarts(k: nat, inner: Line)
    ensures exists tail :: Encode(Object(k, inner)) == ObjectHead(k) + tail
  {
    var head, rest := Number(k) + Units(" 0 obj\n"), inner + Units("\nendobj\n");
    assert Object(k, inner) == head + rest;
    EncodeConcat(head, rest);
    assert Encode(Object(k, inner)) == ObjectHead(k) + Encode(rest);
  }

  lemma HeadStands(stream: Line, k: nat)
    requires k < 5
    ensures StandsAt(Encode(Assemble(Objects(stream))), Position(Objects(stream), k), ObjectHead(k + 1))
  {
    ObjectsAscii(stream, k);
    HeadOfPart(Objects(stream), k, k + 1, Inner(stream, k + 1));
  }

  lemma HeadOfPart(parts: seq<Line>, i: nat, k: nat, inner: Line)
    requires i < |parts| && parts[i] == Object(k, inner) && AsciiEnds(parts[i])
    ensures StandsAt(Encode(Assemble(parts)), Position(parts, i), ObjectHead(k))
  {
    PartStands(parts, i);
    ObjectStarts(k, inner);
    var tail :| Encode(Object(k, inner)) == ObjectHead(k) + tail;
    StandsShorter(Encode(Assemble(parts)), Position(parts, i), ObjectHead(k), tail);
  }

  /** Object 4 up to the stream's first byte: its dictionary announces a size. */
  function StreamHead(size: nat): Line {
    Number(4) + Units(" 0 obj\n") + (Units("<< /Length ") + Number(size) + Units(" >>\nstream\n"))
  }

  const STREAM_END: Line := Units("\nendstream") + Units("\nendobj\n")

  lemma StreamObject(stream: Line)
    ensures Encode(Object(4, Contents(stream)))
         == Encode(StreamHead(|Encode(stream)|)) + (Encode(stream) + Encode(STREAM_END))
  {
    var head := StreamHead(|Encode(stream)|);
    StreamParts(Number(4) + Units(" 0 obj\n"), Units("<< /Length ") + Number(|Encode(stream)|) + Units(" >>\nstream\n"),
                stream, Units("\nendstream"), Units("\nendobj\n"));
    EncodeConcat(head, stream + STREAM_END);
    EncodeConcat(stream, STREAM_END);
  }

  lemma StreamParts(a: Line, b: Line, c: Line, d: Line, e: Line)
    ensures a + (b + c + d) + e == a + b + (c + (d + e))
  {
  }

  /**
   At that position: object 4's dictionary announcing exactly the bytes of the encoded stream, then
   those bytes, then the end of the object.
   */
  predicate Measured(file: seq<Byte>, position: nat, stream: Line) {
    StandInOrder(file, position, Encode(StreamHead(|Encode(stream)|)), Encode(stream), Encode(STREAM_END))
  }

  predicate StandInOrder(file: seq<Byte>, position: nat, a: seq<Byte>, b: seq<Byte>, c: seq<Byte>) {
    && StandsAt(file, position, a)
    && StandsAt(file, position + |a|, b)
    && StandsAt(file, position + |a| + |b|, c)
  }

  lemma StreamIsMeasured(stream: Line)
    ensures Measured(Encode(Assemble(Objects(stream))), Position(Objects(stream), 3), stream)
  {
    StreamObjectStands(stream);
    MeasuredThere(Encode(Assemble(Objects(stream))), Position(Objects(stream), 3), stream);
  }

  lemma MeasuredThere(file: seq<Byte>, position: nat, stream: Line)
    requires StandsAt(file, position, Encode(StreamHead(|Encode(stream)|)) + (Encode(stream) + Encode(STREAM_END)))
    ensures Measured(file, position, stream)
  {
    StandsInThree(file, position, Encode(StreamHead(|Encode(stream)|)), Encode(stream), Encode(STREAM_END));
  }

  lemma StreamObjectStands(stream: Line)
    ensures StandsAt(Encode(Assemble(Objects(stream))), Position(Objects(stream), 3),
                     Encode(StreamHead(|Encode(stream)|)) + (Encode(stream) + Encode(STREAM_END)))
  {
    ObjectsAscii(stream, 3);
    PartStands(Objects(stream), 3);
    StreamObject(stream);
    assert Objects(stream)[3] == Object(4, Contents(stream));
  }

  lemma StandsInThree(file: seq<Byte>, position: nat, a: seq<Byte>, b: seq<Byte>, c: seq<Byte>)
    requires StandsAt(file, position, a + (b + c))
    ensures StandInOrder(file, position, a, b, c)
  {
    StandsShorter(file, position, a, b + c);
    StandsShorter(file, position + |a|, b, c);
  }

  // ---------------------------------------------------------------- the reader's way in

  /** The number a run of digits denotes. */
  function Value(digits: seq<Byte>): int {
    if digits == [] then 0 else Value(digits[..|digits| - 1]) * 10 + digits[|digits| - 1] as int - 48
  }

  lemma {:induction false} ValueOfUnits(s: string)
    requires forall i :: 0 <= i < |s| ==> s[i] < 128 as char
    ensures Value(Units(s)) == NumberOf(s)
  {
    if s != [] {
      assert Units(s)[..|s| - 1] == Units(s[..|s| - 1]);
      ValueOfUnits(s[..|s| - 1]);
    }
  }

  lemma NumberDenotes(n: nat)
    ensures Value(Number(n)) == n
  {
    DecimalDenotes(n);
    ValueOfUnits(Decimal(n));
  }

  lemma PadDenotes(n: nat)
    ensures Value(PadDigits(n)) == n
  {
    DecimalDenotes(n);
    PaddingDenotes(Decimal(n), 10);
    ValueOfUnits(PadStart(Decimal(n), 10));
  }

  function LastDigits(s: seq<Byte>): seq<Byte> {
    if s != [] && Digit(s[|s| - 1]) then LastDigits(s[..|s| - 1]) + [s[|s| - 1]] else []
  }

  lemma {:induction false} LastDigitsOf(a: seq<Byte>, d: seq<Byte>)
    requires a != [] && !Digit(a[|a| - 1]) && forall i :: 0 <= i < |d| ==> Digit(d[i])
    ensures LastDigits(a + d) == d
    decreases |d|
  {
    if d == [] {
      assert a + d == a;
    } else {
      assert (a + d)[..|a + d| - 1] == a + d[..|d| - 1];
      LastDigitsOf(a, d[..|d| - 1]);
    }
  }

  /** The number on the last line but one of a file that ends with the six bytes LF `%%EOF`. */
  function StartXref(file: seq<Byte>): int {
    if |file| < 6 then 0 else Value(LastDigits(file[..|file| - 6]))
  }

  lemma StartXrefOfBytes(a: seq<Byte>, d: seq<Byte>, eof: seq<Byte>)
    requires |eof| == 6 && a != [] && a[|a| - 1] == LF && forall i :: 0 <= i < |d| ==> Digit(d[i])
    ensures StartXref(a + d + eof) == Value(d)
  {
    assert (a + d + eof)[..|a + d|] == a + d;
    LastDigitsOf(a, d);
  }

  lemma StartXrefOf(before: Line, digits: Line, eof: Line)
    requires before != [] && before[|before| - 1] == LF && |eof| == 6 && Ascii(eof) && Ascii(digits)
    requires forall i :: 0 <= i < |digits| ==> Digit(digits[i])
    ensures StartXref(Encode(before + digits + eof)) == Value(digits)
  {
    EncodeAsciiTail(before, digits);
    EncodeAsciiTail(before + digits, eof);
    EndsWithFeed(before);
    StartXrefOfBytes(Encode(before), digits, eof);
  }

  lemma EncodeAsciiTail(a: Line, b: Line)
    requires Ascii(b)
    ensures Encode(a + b) == Encode(a) + b
  {
    EncodeConcat(a, b);
    EncodeLength(b);
  }

  lemma EndsWithFeed(before: Line)
    requires before != [] && before[|before| - 1] == LF
    ensures Encode(before) != [] && Encode(before)[|Encode(before)| - 1] == LF
  {
    var n := |before| - 1;
    assert before == before[..n] + [LF];
    EncodeConcat(before[..n], [LF]);
    EncodeLength([LF]);
  }

  /** For every text, a reader takes the recorded table offset from the end of the file. */
  lemma StartXrefIsRead(parts: seq<Line>)
    ensures StartXref(Encode(Assemble(parts))) == Offset(parts, |parts|)
  {
    var size := Units("trailer\n<< /Size ") + Number(|parts| + 1) + Units(" /Root 1 0 R >>\nstartxref\n");
    var body := HEADER + Chain(parts) + Xref(Offsets(parts));
    assert Assemble(parts) == body + size + Number(Offset(parts, |parts|)) + Units("\n%%EOF");
    StartXrefOf(body + size, Number(Offset(parts, |parts|)), Units("\n%%EOF"));
    NumberDenotes(Offset(parts, |parts|));
  }

  function Pow10(w: nat): nat {
    if w == 0 then 1 else 10 * Pow10(w - 1)
  }

  lemma {:induction false} DecimalWidth(n: nat, w: nat)
    requires w >= 1
    ensures |Decimal(n)| <= w <==> n < Pow10(w)
    decreases n
  {
    if w == 1 {
      assert Pow10(1) == 10 * Pow10(0);
      if n >= 10 {
        DecimalDenotes(n / 10);
      }
    } else if n < 10 {
      PowAtLeastTen(w);
    } else {
      DecimalWidth(n / 10, w - 1);
    }
  }

  lemma {:induction false} PowAtLeastTen(w: nat)
    requires w >= 1
    ensures Pow10(w) >= 10
  {
    if w > 1 {
      PowAtLeastTen(w - 1);
    } else {
      assert Pow10(0) == 1;
    }
  }

  /** An entry has its twenty bytes exactly when its offset has at most ten digits. */
  lemma EntryWidth(offset: nat)
    ensures |Entry(offset)| == 20 <==> offset < Pow10(10)
  {
    DecimalWidth(offset, 10);
    assert |Units(" 00000 n \n")| == 10;
    assert |Entry(offset)| == |PadDigits(offset)| + 10;
  }

  lemma {:induction false} UniformChain(parts: seq<Line>, k: nat)
    requires k < |parts| && forall i :: 0 <= i < |parts| ==> |parts[i]| == 20
    ensures |Chain(parts)| == 20 * |parts|
    ensures Chain(parts)[20 * k..20 * k + 20] == parts[k]
  {
    var n := |parts| - 1;
    if n == 0 {
      assert Chain(parts[..0]) == [];
      assert Chain(parts) == parts[0];
    } else {
      UniformChain(parts[..n], if k < n then k else 0);
      assert |Chain(parts[..n])| == 20 * n;
      if k < n {
        assert Chain(parts)[20 * k..20 * k + 20] == Chain(parts[..n])[20 * k..20 * k + 20];
      }
    }
  }

  const XREF_HEAD: nat := 9

  /** The offset in entry `k` of the table that starts at `xref` (entry 0 is the free one). */
  function EntryOffset(file: seq<Byte>, xref: nat, k: nat): int {
    var at := xref + XREF_HEAD + 20 * k;
    if at + 10 <= |file| then Value(file[at..at + 10]) else 0
  }

  function TableHead(count: nat): Line {
    Units("xref\n0 ") + Number(count) + Units("\n0000000000 65535 f \n")
  }

  lemma TableHeadLength()
    ensures |TableHead(6)| == XREF_HEAD + 20 && Ascii(TableHead(6))
  {
    assert |Number(6)| == 1;
  }

  lemma EntriesUniform(offsets: seq<nat>)
    requires forall i :: 0 <= i < |offsets| ==> offsets[i] < Pow10(10)
    ensures forall i :: 0 <= i < |offsets| ==> |Entries(offsets)[i]| == 20
    ensures Ascii(Chain(Entries(offsets)))
  {
    forall i | 0 <= i < |offsets| ensures |Entries(offsets)[i]| == 20 && Ascii(Entries(offsets)[i]) {
      EntryWidth(offsets[i]);
    }
    ChainAscii(Entries(offsets));
  }

  lemma XrefEntries(offsets: seq<nat>, k: nat)
    requires |offsets| == 5 && 1 <= k <= 5 && forall i :: 0 <= i < 5 ==> offsets[i] < Pow10(10)
    ensures |Xref(offsets)| == XREF_HEAD + 120
    ensures Ascii(Xref(offsets))
    ensures Value(Xref(offsets)[XREF_HEAD + 20 * k..XREF_HEAD + 20 * k + 10]) == offsets[k - 1]
  {
    TableHeadLength();
    EntriesUniform(offsets);
    var head, chain := TableHead(6), Chain(Entries(offsets));
    UniformChain(Entries(offsets), k - 1);
    EntryDigits(chain, 20 * (k - 1), offsets[k - 1]);
    assert Xref(offsets) == head + chain;
    PdfStream.AsciiConcat(head, chain);
    SliceAfter(head, chain, 20 * (k - 1), 10);
  }

  lemma SliceAfter(head: Line, chain: Line, at: nat, n: nat)
    requires at + n <= |chain|
    ensures (head + chain)[|head| + at..|head| + at + n] == chain[at..at + n]
  {
  }

  lemma EntryDigits(chain: Line, at: nat, offset: nat)
    requires at + 20 <= |chain| && chain[at..at + 20] == Entry(offset) && Ascii(chain) && offset < Pow10(10)
    ensures Value(chain[at..at + 10]) == offset
  {
    EntryWidth(offset);
    assert chain[at..at + 10] == chain[at..at + 20][..10] == PadDigits(offset);
    PadDenotes(offset);
  }

  lemma KeptUnits(title: Line, body: Line)
    ensures PdfStream.NoReturns(KeptLines(title, body))
    ensures Ascii(title) && Ascii(body) ==> AllAscii(KeptLines(title, body))
  {
    WrappedUnits(title, body);
    KeptAreFirst(WrapAll(RawLines(title, body)), KeptLines(title, body));
  }

  lemma KeptAreFirst(lines: seq<Line>, kept: seq<Line>)
    requires |kept| <= |lines| && kept == lines[..|kept|]
    ensures NoLineEnds(lines) ==> PdfStream.NoReturns(kept)
    ensures AllAscii(lines) ==> AllAscii(kept)
  {
    forall i | 0 <= i < |kept| ensures kept[i] == lines[i] {
    }
  }

  /**
   For every text: the recorded offsets of objects 1 to 4 are where they stand in the file, and
   object 4 announces and holds exactly the encoded stream.
   */
  lemma FirstFourOffsetsAreRight(title: Line, body: Line, k: nat)
    requires 1 <= k <= 4
    ensures var offsets := Offsets(Objects(Stream(title, body)));
      && StandsAt(File(title, body), offsets[k - 1], ObjectHead(k))
      && Measured(File(title, body), offsets[3], Stream(title, body))
  {
    var stream := Stream(title, body);
    OffsetsOf(stream, k - 1);
    OffsetsOf(stream, 3);
    HeadStands(stream, k - 1);
    StreamIsMeasured(stream);
  }

  /**
   For every text: the bytes of the stream show exactly the first 56 wrapped lines, or all of them, one
   per line of text and each between two spaces.
   */
  lemma PageShowsKeptLines(title: Line, body: Line)
    ensures var lines := WrapAll(RawLines(title, body));
      PdfStream.Shown(Encode(Stream(title, body)), 0)
      == PdfStream.OnePerRow(if |lines| < 56 then lines else lines[..56], 0)
  {
    KeptUnits(title, body);
    PdfStream.StreamShowsLines(KeptLines(title, body));
    var lines := WrapAll(RawLines(title, body));
    assert |lines| == 56 ==> lines[..56] == lines;
  }

  /**
   For every text: the offset of object 5 is right, and so is `startxref`, exactly when every line
   on the page is ASCII; otherwise both come out too small.
   */
  lemma LaterOffsetsIffAscii(title: Line, body: Line)
    ensures var objects := Objects(Stream(title, body));
      && (Offset(objects, 4) == Position(objects, 4) <==> AllAscii(KeptLines(title, body)))
      && (Offset(objects, 5) == Position(objects, 5) <==> AllAscii(KeptLines(title, body)))
      && StandsAt(File(title, body), Position(objects, 4), ObjectHead(5))
      && StartXref(File(title, body)) == Offset(objects, 5) <= Position(objects, 5)
  {
    var stream := Stream(title, body);
    PdfStream.StreamAscii(KeptLines(title, body));
    OffsetsOf(stream, 4);
    OffsetsOf(stream, 5);
    HeadStands(stream, 4);
    StartXrefIsRead(Objects(stream));
    EncodeLength(HEADER + Chain(Objects(stream)[..5]));
  }

  /** One accented letter as title is enough: object 5 and the table are not where the file says. */
  lemma AccentMisplacesTable()
    ensures var objects := Objects(Stream([0xE8], []));
      && Offset(objects, 4) < Position(objects, 4)
      && StartXref(File([0xE8], [])) < Position(objects, 5)
  {
    AccentIsKept();
    LaterOffsetsIffAscii([0xE8], []);
    EncodeLength(HEADER + Chain(Objects(Stream([0xE8], []))[..4]));
  }

  lemma AccentIsKept()
    ensures !AllAscii(KeptLines([0xE8], []))
  {
    var title: Line := [0xE8];
    OneWord(title);
    NormalizeKeepsWords(title);
    var raws := RawLines(title, []);
    assert raws[..1] == [title];
    FirstRawFirst(raws);
    assert WrapAll(raws)[0] == title;
    assert !Ascii(title);
    assert KeptLines(title, [])[0] == title;
  }

  lemma {:induction false} FirstRawFirst(raws: seq<Line>)
    requires raws != [] && |raws[0]| <= MAX_CHARS
    ensures WrapAll(raws) != [] && WrapAll(raws)[0] == raws[0]
  {
    var n := |raws| - 1;
    if n == 0 {
      assert WrapAll(raws[..0]) == [];
    } else {
      FirstRawFirst(raws[..n]);
    }
  }

  lemma TableStands(parts: seq<Line>)
    ensures StandsAt(Encode(Assemble(parts)), Position(parts, |parts|), Encode(Xref(Offsets(parts))))
  {
    var before, table := HEADER + Chain(parts), Xref(Offsets(parts));
    var trailer := Trailer(|parts| + 1, Offset(parts, |parts|));
    assert parts[..|parts|] == parts;
    EncodeConcat(before, table);
    EncodeConcat(before + table, trailer);
  }

  lemma OffsetsGrow(parts: seq<Line>, k: nat)
    requires k <= |parts|
    ensures Offset(parts, k) <= Offset(parts, |parts|)
  {
    ChainCut(parts, k);
    assert parts[..|parts|] == parts;
  }

  lemma TableStart(offsets: seq<nat>)
    ensures Encode(Xref(offsets)) != [] && exists tail :: Encode(Xref(offsets)) == Encode(TABLE_HEAD) + tail
  {
    var first: Line := TABLE_HEAD;
    var rest := Xref(offsets)[5..];
    assert Units("xref\n0 ")[..5] == first;
    assert Xref(offsets) == first + rest;
    EncodeConcat(first, rest);
    assert Encode(Xref(offsets)) == Encode(first) + Encode(rest);
    EncodeLength(first);
  }

  lemma EntryIsRead(file: seq<Byte>, x: nat, offsets: seq<nat>, k: nat)
    requires |offsets| == 5 && 1 <= k <= 5 && forall i :: 0 <= i < 5 ==> offsets[i] < Pow10(10)
    requires StandsAt(file, x, Encode(Xref(offsets)))
    ensures EntryOffset(file, x, k) == offsets[k - 1]
  {
    XrefEntries(offsets, k);
    ReadSlice(file, x, Xref(offsets), XREF_HEAD + 20 * k);
  }

  lemma ReadSlice(file: seq<Byte>, x: nat, table: Line, at: nat)
    requires Ascii(table) && at + 10 <= |table| && StandsAt(file, x, Encode(table))
    ensures x + at + 10 <= |file| && Value(file[x + at..x + at + 10]) == Value(table[at..at + 10])
  {
    EncodeLength(table);
    SliceOfSlice(file, x, table, at);
  }

  lemma SliceOfSlice(file: seq<Byte>, x: nat, table: seq<Byte>, at: nat)
    requires StandsAt(file, x, table) && at + 10 <= |table|
    ensures x + at + 10 <= |file| && file[x + at..x + at + 10] == table[at..at + 10]
  {
    var window := file[x..x + |table|];
    var found, sought := file[x + at..x + at + 10], table[at..at + 10];
    forall i | 0 <= i < 10 ensures found[i] == sought[i] {
      assert window[at + i] == file[x + at + i];
    }
  }

  const TABLE_HEAD: Line := Units("xref\n")

  /** The number before the end-of-file marker is the position of a cross-reference table. */
  predicate LeadsToTable(file: seq<Byte>) {
    StartXref(file) >= 0 && StandsAt(file, StartXref(file), Encode(TABLE_HEAD))
  }

  /** Entry `k` of the table holds the position of object `k`. */
  predicate LeadsToObject(file: seq<Byte>, k: nat) {
    && StartXref(file) >= 0
    && EntryOffset(file, StartXref(file), k) >= 0
    && StandsAt(file, EntryOffset(file, StartXref(file), k), ObjectHead(k))
  }

  /**
   For every title and body whose kept lines are ASCII (all ASCII ones among them): the number before the
   end-of-file marker leads to the cross-reference table, and, while that number has at most ten
   digits, entry `k` of the table leads to `k 0 obj`.
   */
  lemma AsciiFileIsReadable(title: Line, body: Line, k: nat)
    requires 1 <= k <= 5
    ensures Ascii(title) && Ascii(body) ==> AllAscii(KeptLines(title, body))
    ensures AllAscii(KeptLines(title, body)) ==>
      && LeadsToTable(File(title, body))
      && (StartXref(File(title, body)) < Pow10(10) ==> LeadsToObject(File(title, body), k))
  {
    KeptUnits(title, body);
    if AllAscii(KeptLines(title, body)) {
      PdfStream.StreamAscii(KeptLines(title, body));
      AsciiStreamIsReadable(Stream(title, body), k);
    }
  }

  lemma AsciiStreamIsReadable(stream: Line, k: nat)
    requires Ascii(stream) && 1 <= k <= 5
    ensures LeadsToTable(Encode(Assemble(Objects(stream))))
    ensures StartXref(Encode(Assemble(Objects(stream)))) < Pow10(10) ==> LeadsToObject(Encode(Assemble(Objects(stream))), k)
  {
    var parts := Objects(stream);
    var file, x, offsets := Encode(Assemble(parts)), Offset(parts, 5), Offsets(parts);
    StartXrefIsRead(parts);
    OffsetsOf(stream, 5);
    TableStands(parts);
    TableStart(offsets);
    var tail :| Encode(Xref(offsets)) == Encode(TABLE_HEAD) + tail;
    StandsShorter(file, x, Encode(TABLE_HEAD), tail);
    if x < Pow10(10) {
      forall i | 0 <= i < 5 ensures offsets[i] < Pow10(10) {
        OffsetsGrow(parts, i);
      }
      EntryIsRead(file, x, offsets, k);
      OffsetsOf(stream, k - 1);
      HeadStands(stream, k - 1);
    }
  }
}
