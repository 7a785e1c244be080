/**
 The CSV export of the revenue report (backend/src/application/services/platform-admin-service.ts)
 against a reader for section 2 of RFC 4180, with line feeds as line ends.
 */
module Csv {
  import opened Base
  import opened Text

  type Field = seq<Unit>

  const LF: Unit := 10
  const QUOTE: Unit := 34
  const APOSTROPHE: Unit := 39
  const COMMA: Unit := 44

  // ---------------------------------------------------------------- the writer

  /** The characters `=`, `+`, `-` and `@`, with which a spreadsheet formula can start. */
  predicate StartsFormula(u: Unit) {
    u == 61 || u == 43 || u == 45 || u == 64
  }

  /** A formula character comes first, possibly after blanks. */
  predicate FormulaLike(v: Field) {
    v != [] && (StartsFormula(v[0]) || (IsSpace(v[0]) && FormulaLike(v[1..])))
  }

  function Safe(v: Field): Field {
    if FormulaLike(v) then [APOSTROPHE] + v else v
  }

  function Doubled(v: Field): Field {
    if v == [] then [] else (if v[0] == QUOTE then [QUOTE, QUOTE] else [v[0]]) + Doubled(v[1..])
  }

  /** `csvEscape`. */
  function Escape(v: Field): Field {
    [QUOTE] + Doubled(Safe(v)) + [QUOTE]
  }

  function Joined(parts: seq<Field>, separator: Unit): Field {
    if parts == [] then [] else if |parts| == 1 then parts[0] else parts[0] + [separator] + Joined(parts[1..], separator)
  }

  function EscapeAll(row: seq<Field>): (r: seq<Field>)
    ensures |r| == |row| && forall i :: 0 <= i < |r| ==> r[i] == Escape(row[i])
  {
    seq(|row|, i requires 0 <= i < |row| => Escape(row[i]))
  }

  function EmitRow(row: seq<Field>): Field {
    Joined(EscapeAll(row), COMMA)
  }

  function EmitRows(rows: seq<seq<Field>>): (r: seq<Field>)
    ensures |r| == |rows| && forall i :: 0 <= i < |r| ==> r[i] == EmitRow(rows[i])
  {
    seq(|rows|, i requires 0 <= i < |rows| => EmitRow(rows[i]))
  }

  /** The text of `revenueReportCsv`: the bare header names, then the escaped rows. */
  function Emit(headers: seq<Field>, rows: seq<seq<Field>>): Field {
    Joined([Joined(headers, COMMA)] + EmitRows(rows), LF)
  }

  // ---------------------------------------------------------------- the reader

  datatype Read<+T> = Read(value: T, rest: Field)

  /** The field after an opening quote, and what follows the closing one. */
  function ReadQuoted(s: Field): (r: Option<Read<Field>>)
    ensures r.Some? ==> |r.value.rest| < |s|
    decreases |s|
  {
    if s == [] then None
    else if s[0] != QUOTE then Prefixed(s[0], ReadQuoted(s[1..]))
    else if |s| > 1 && s[1] == QUOTE then Prefixed(QUOTE, ReadQuoted(s[2..]))
    else Some(Read([], s[1..]))
  }

  function Prefixed(u: Unit, r: Option<Read<Field>>): Option<Read<Field>> {
    match r
    case None => None
    case Some(q) => Some(Read([u] + q.value, q.rest))
  }

  predicate EndsBare(u: Unit) {
    u == COMMA || u == LF || u == QUOTE
  }

  function ReadBare(s: Field): (r: Read<Field>)
    ensures |r.rest| <= |s|
    decreases |s|
  {
    if s == [] || EndsBare(s[0]) then Read([], s)
    else var r := ReadBare(s[1..]); Read([s[0]] + r.value, r.rest)
  }

  function ReadField(s: Field): (r: Option<Read<Field>>)
    ensures r.Some? ==> |r.value.rest| <= |s|
  {
    if s != [] && s[0] == QUOTE then ReadQuoted(s[1..]) else Some(ReadBare(s))
  }

  function ReadRecord(s: Field): (r: Option<Read<seq<Field>>>)
    ensures r.Some? ==> |r.value.rest| <= |s|
    decreases |s|
  {
    match ReadField(s)
    case None => None
    case Some(f) =>
      if f.rest == [] || f.rest[0] != COMMA then Some(Read([f.value], f.rest))
      else
        match ReadRecord(f.rest[1..])
        case None => None
        case Some(r) => Some(Read([f.value] + r.value, r.rest))
  }

  /** All records; the last one may or may not end with a line break. */
  function ReadTable(s: Field): Option<seq<seq<Field>>>
    decreases |s|
  {
    match ReadRecord(s)
    case None => None
    case Some(r) =>
      if r.rest == [] || r.rest == [LF] then Some([r.value])
      else if r.rest[0] != LF then None
      else
        match ReadTable(r.rest[1..])
        case None => None
        case Some(t) => Some([r.value] + t)
  }

  // ---------------------------------------------------------------- reading back what was written

  /** Nothing, or something that cannot continue a quoted field. */
  predicate Ends(rest: Field) {
    rest == [] || rest[0] == COMMA || rest[0] == LF
  }

  lemma {:induction false} ReadDoubled(v: Field, rest: Field)
    requires Ends(rest)
    ensures ReadQuoted(Doubled(v) + [QUOTE] + rest) == Some(Read(v, rest))
    decreases |v|
  {
    var s := Doubled(v) + [QUOTE] + rest;
    if v == [] {
      assert s[1..] == rest;
    } else {
      var t := Doubled(v[1..]) + [QUOTE] + rest;
      ReadDoubled(v[1..], rest);
      assert [v[0]] + v[1..] == v;
      if v[0] == QUOTE {
        assert s[0] == QUOTE && s[1] == QUOTE && s[2..] == t;
      } else {
        assert s[0] == v[0] && s[1..] == t;
      }
    }
  }

  lemma ReadEscaped(v: Field, rest: Field)
    requires Ends(rest)
    ensures ReadField(Escape(v) + rest) == Some(Read(Safe(v), rest))
  {
    var s := Escape(v) + rest;
    assert s[1..] == Doubled(Safe(v)) + [QUOTE] + rest;
    ReadDoubled(Safe(v), rest);
  }

  /** A header name: no comma, quote or line feed. */
  predicate Bare(v: Field) {
    forall i :: 0 <= i < |v| ==> !EndsBare(v[i])
  }

  lemma {:induction false} ReadBareName(v: Field, rest: Field)
    requires Bare(v) && Ends(rest)
    ensures ReadBare(v + rest) == Read(v, rest)
    decreases |v|
  {
    if v == [] {
      assert v + rest == rest;
    } else {
      assert (v + rest)[1..] == v[1..] + rest && (v + rest)[0] == v[0];
      ReadBareName(v[1..], rest);
      assert [v[0]] + v[1..] == v;
    }
  }

  function SafeAll(row: seq<Field>): (r: seq<Field>)
    ensures |r| == |row| && forall i :: 0 <= i < |r| ==> r[i] == Safe(row[i])
  {
    seq(|row|, i requires 0 <= i < |row| => Safe(row[i]))
  }

  /** A written field reads back as `value`, whatever may follow it. */
  ghost predicate FieldReads(part: Field, value: Field) {
    forall rest | Ends(rest) :: ReadField(part + rest) == Some(Read(value, rest))
  }

  ghost predicate Writes(parts: seq<Field>, values: seq<Field>) {
    |parts| == |values| && forall i :: 0 <= i < |parts| ==> FieldReads(parts[i], values[i])
  }

  lemma RowWrites(row: seq<Field>)
    ensures Writes(EscapeAll(row), SafeAll(row))
  {
    forall i | 0 <= i < |row| ensures FieldReads(EscapeAll(row)[i], SafeAll(row)[i]) {
      forall rest | Ends(rest) ensures ReadField(EscapeAll(row)[i] + rest) == Some(Read(SafeAll(row)[i], rest)) {
        ReadEscaped(row[i], rest);
      }
    }
  }

  lemma HeadersWrite(headers: seq<Field>)
    requires forall i :: 0 <= i < |headers| ==> Bare(headers[i])
    ensures Writes(headers, headers)
  {
    forall i | 0 <= i < |headers| ensures FieldReads(headers[i], headers[i]) {
      forall rest | Ends(rest) ensures ReadField(headers[i] + rest) == Some(Read(headers[i], rest)) {
        ReadBareName(headers[i], rest);
        assert headers[i] + rest != [] ==> (headers[i] + rest)[0] != QUOTE;
      }
    }
  }

  lemma {:induction false} ReadJoined(parts: seq<Field>, values: seq<Field>, rest: Field)
    requires Writes(parts, values) && parts != [] && AtLineEnd(rest)
    ensures ReadRecord(Joined(parts, COMMA) + rest) == Some(Read(values, rest))
    decreases |parts|
  {
    assert FieldReads(parts[0], values[0]);
    if |parts| == 1 {
      assert Ends(rest);
      assert ReadField(parts[0] + rest) == Some(Read(values[0], rest));
      assert values == [values[0]];
    } else {
      var later := Joined(parts[1..], COMMA) + rest;
      assert Ends([COMMA] + later);
      assert ReadField(parts[0] + ([COMMA] + later)) == Some(Read(values[0], [COMMA] + later));
      assert Joined(parts, COMMA) + rest == parts[0] + ([COMMA] + later);
      assert ([COMMA] + later)[1..] == later;
      ReadJoined(parts[1..], values[1..], rest);
      assert values == [values[0]] + values[1..];
    }
  }

  predicate AtLineEnd(rest: Field) {
    rest == [] || rest[0] == LF
  }

  /** A written line reads back as `record`, whatever may follow it. */
  ghost predicate LineReads(line: Field, record: seq<Field>) {
    forall rest | AtLineEnd(rest) :: ReadRecord(line + rest) == Some(Read(record, rest))
  }

  ghost predicate WritesLines(lines: seq<Field>, records: seq<seq<Field>>) {
    |lines| == |records| && forall i :: 0 <= i < |lines| ==> LineReads(lines[i], records[i])
  }

  lemma {:induction false} ReadLines(lines: seq<Field>, records: seq<seq<Field>>)
    requires WritesLines(lines, records) && lines != []
    requires forall i :: 1 <= i < |lines| ==> lines[i] != []
    ensures ReadTable(Joined(lines, LF)) == Some(records)
    decreases |lines|
  {
    assert LineReads(lines[0], records[0]);
    if |lines| == 1 {
      assert AtLineEnd([]);
      assert ReadRecord(lines[0] + []) == Some(Read(records[0], []));
      assert lines[0] + [] == lines[0];
      assert records == [records[0]];
    } else {
      var later := Joined(lines[1..], LF);
      assert AtLineEnd([LF] + later);
      assert ReadRecord(lines[0] + ([LF] + later)) == Some(Read(records[0], [LF] + later));
      assert Joined(lines, LF) == lines[0] + ([LF] + later);
      assert later != [] by { assert lines[1..][0] != []; }
      assert ([LF] + later)[1..] == later;
      ReadLines(lines[1..], records[1..]);
      assert records == [records[0]] + records[1..];
    }
  }

  function SafeRows(rows: seq<seq<Field>>): (r: seq<seq<Field>>)
    ensures |r| == |rows| && forall i :: 0 <= i < |r| ==> r[i] == SafeAll(rows[i])
  {
    seq(|rows|, i requires 0 <= i < |rows| => SafeAll(rows[i]))
  }

  predicate IsTable(headers: seq<Field>, rows: seq<seq<Field>>) {
    && headers != [] && (forall i :: 0 <= i < |headers| ==> Bare(headers[i]))
    && forall i :: 0 <= i < |rows| ==> |rows[i]| == |headers|
  }

  lemma TableWrites(headers: seq<Field>, rows: seq<seq<Field>>)
    requires IsTable(headers, rows)
    ensures WritesLines([Joined(headers, COMMA)] + EmitRows(rows), [headers] + SafeRows(rows))
  {
    var lines, records := [Joined(headers, COMMA)] + EmitRows(rows), [headers] + SafeRows(rows);
    forall i | 0 <= i < |lines| ensures LineReads(lines[i], records[i]) {
      if i == 0 {
        HeadersWrite(headers);
        LineWrites(headers, headers);
      } else {
        RowWrites(rows[i - 1]);
        LineWrites(EscapeAll(rows[i - 1]), SafeAll(rows[i - 1]));
      }
    }
  }

  lemma LineWrites(parts: seq<Field>, values: seq<Field>)
    requires Writes(parts, values) && parts != []
    ensures LineReads(Joined(parts, COMMA), values)
  {
    forall rest | AtLineEnd(rest) ensures ReadRecord(Joined(parts, COMMA) + rest) == Some(Read(values, rest)) {
      ReadJoined(parts, values, rest);
    }
  }

  lemma RowNotEmpty(row: seq<Field>)
    requires row != []
    ensures EmitRow(row) != []
  {
    assert EscapeAll(row)[0] != [];
  }

  /**
   For every table of any fields, quotes, commas and line breaks included: reading the export gives
   back the header and every row field by field, with one apostrophe in front of exactly the
   formula-like ones, so that none is formula-like any more.
   */
  lemma ExportReadsBack(headers: seq<Field>, rows: seq<seq<Field>>)
    requires IsTable(headers, rows)
    ensures ReadTable(Emit(headers, rows)) == Some([headers] + SafeRows(rows))
    ensures forall i, j | 0 <= i < |rows| && 0 <= j < |headers| ::
      && SafeRows(rows)[i][j] == (if FormulaLike(rows[i][j]) then [APOSTROPHE] + rows[i][j] else rows[i][j])
      && !FormulaLike(SafeRows(rows)[i][j])
  {
    ExportIsRead(headers, rows);
    forall i, j | 0 <= i < |rows| && 0 <= j < |headers|
      ensures SafeRows(rows)[i][j] == (if FormulaLike(rows[i][j]) then [APOSTROPHE] + rows[i][j] else rows[i][j])
      ensures !FormulaLike(SafeRows(rows)[i][j])
    {
      SafeIsHarmless(rows[i][j]);
    }
  }

  lemma SafeIsHarmless(v: Field)
    ensures !FormulaLike(Safe(v))
  {
  }

  lemma ExportIsRead(headers: seq<Field>, rows: seq<seq<Field>>)
    requires IsTable(headers, rows)
    ensures ReadTable(Emit(headers, rows)) == Some([headers] + SafeRows(rows))
  {
    var lines := [Joined(headers, COMMA)] + EmitRows(rows);
    TableWrites(headers, rows);
    forall i | 1 <= i < |lines| ensures lines[i] != [] {
      RowNotEmpty(rows[i - 1]);
    }
    ReadLines(lines, [headers] + SafeRows(rows));
  }

  /** A spreadsheet would start a formula at position `k`. */
  predicate FormulaAt(v: Field, k: nat) {
    && k < |v| && (forall i :: 0 <= i < k ==> IsSpace(v[i]))
    && (v[k] == '=' as int || v[k] == '+' as int || v[k] == '-' as int || v[k] == '@' as int)
  }

  /** The values that get an apostrophe: after nothing but blanks comes `=`, `+`, `-` or `@`. */
  lemma {:induction false} FormulaLikeIff(v: Field)
    ensures FormulaLike(v) <==> exists k: nat :: FormulaAt(v, k)
  {
    if v != [] {
      FormulaLikeIff(v[1..]);
      if FormulaLike(v) {
        if StartsFormula(v[0]) {
          assert FormulaAt(v, 0);
        } else {
          var k: nat :| FormulaAt(v[1..], k);
          assert FormulaAt(v, k + 1);
        }
      } else if k: nat :| FormulaAt(v, k) {
        assert k > 0 ==> FormulaAt(v[1..], k - 1);
      }
    }
  }

  /** Two values export alike only when one is the other, formula-like, behind an apostrophe. */
  lemma SafeCollisions(a: Field, b: Field)
    ensures Safe(a) == Safe(b) <==>
      a == b || (FormulaLike(a) && b == [APOSTROPHE] + a) || (FormulaLike(b) && a == [APOSTROPHE] + b)
  {
    assert ([APOSTROPHE] + a)[1..] == a && ([APOSTROPHE] + b)[1..] == b;
  }
}
