/**
 The content stream of the hand-written PDF writer
 (backend/src/application/services/booking-contract-service.ts).
 */
module PdfStream {
  import opened Base
  import opened Text
  import opened PdfLines
  import S = PdfStrings

  // ---------------------------------------------------------------- the content stream

  /** Each part on a line of its own, after what came before. */
  function OnNewLines(parts: seq<Line>): Line {
    if parts == [] then [] else [LF] + parts[0] + OnNewLines(parts[1..])
  }

  /** `parts.join("\n")` for a first part and the others. */
  function JoinLines(first: Line, others: seq<Line>): Line {
    first + OnNewLines(others)
  }

  function Padded(line: Line): Line {
    [SPACE] + line + [SPACE]
  }

  /** The operators that show one line, before `trim`. */
  function Operator(line: Line, first: bool): Line {
    (if first then [] else Units("T* ")) + Units("( ") + S.Escape(line) + Units(" ) Tj")
  }

  function Operators(lines: seq<Line>, first: bool): seq<Line> {
    if lines == [] then [] else [Trim(Operator(lines[0], first))] + Operators(lines[1..], false)
  }

  function StreamText(lines: seq<Line>): Line {
    JoinLines(Units("BT"), SETUP + Operators(lines, true) + [Units("ET")])
  }

  const SETUP: seq<Line> := [Units("/F1 10 Tf"), Units("12 TL"), Units("48 804 Td")]

  const STAR: Unit := 42

  /** ASCII without an opening parenthesis or a star. */
  predicate Plain(s: Line) {
    Ascii(s) && S.OPEN !in s && STAR !in s
  }

  lemma {:induction false} OnNewLinesPlain(parts: seq<Line>)
    requires forall i :: 0 <= i < |parts| ==> Plain(parts[i])
    ensures Plain(OnNewLines(parts))
  {
    if parts != [] {
      assert Plain(parts[0]);
      OnNewLinesPlain(parts[1..]);
    }
  }

  lemma {:induction false} OnNewLinesConcat(a: seq<Line>, b: seq<Line>)
    ensures OnNewLines(a + b) == OnNewLines(a) + OnNewLines(b)
    decreases |a|
  {
    if a == [] {
      assert a + b == b;
    } else {
      assert (a + b)[1..] == a[1..] + b;
      OnNewLinesConcat(a[1..], b);
    }
  }

  function Lead(first: bool): Line {
    if first then [] else Units("T* ")
  }

  /** A string operand and the operator that shows it. */
  function ShowText(x: Line): Line {
    [S.OPEN] + S.Escape(x) + [S.CLOSE] + Units(" Tj")
  }

  lemma EscapePadded(line: Line)
    ensures S.Escape(Padded(line)) == [SPACE] + S.Escape(line) + [SPACE]
  {
    S.EscapeUnitAlone(SPACE);
    S.EscapeConcat([SPACE], line);
    S.EscapeConcat([SPACE] + line, [SPACE]);
  }

  lemma OperatorForm(line: Line, first: bool)
    ensures Operator(line, first) == Lead(first) + ShowText(Padded(line))
  {
    EscapePadded(line);
    assert Units("( ") == [S.OPEN] + [SPACE];
    assert Units(" ) Tj") == [SPACE] + [S.CLOSE] + Units(" Tj");
    OperatorParts(Lead(first), [S.OPEN], [SPACE], S.Escape(line), [S.CLOSE], Units(" Tj"));
  }

  lemma OperatorParts(lead: Line, open: Line, space: Line, text: Line, close: Line, show: Line)
    ensures lead + (open + space) + text + (space + close + show)
         == lead + (open + (space + text + space) + close + show)
  {
    var left, right := lead + (open + space) + text + (space + close + show), lead + (open + (space + text + space) + close + show);
    assert |left| == |right|;
    forall i | 0 <= i < |left| ensures left[i] == right[i] {
    }
  }

  lemma OperatorTrimmed(line: Line, first: bool)
    ensures Trim(Operator(line, first)) == Operator(line, first)
  {
    var op := Operator(line, first);
    assert !IsSpace(op[0]) && op[|op| - 1] == 'j' as int && !IsSpace(op[|op| - 1]);
  }

  lemma EncodeAt(a: Line, u: Unit, b: Line)
    requires u < 0x80
    ensures Encode(a + [u] + b) == Encode(a) + [u] + Encode(b)
  {
    EncodeConcat(a, [u]);
    EncodeConcat(a + [u], b);
    EncodeLength([u]);
  }

  /** A string on the page, and the line of text it stands on. */
  datatype ShownText = ShownText(row: nat, text: seq<Byte>)

  /** The operator `Tj` follows, which shows the string before it. */
  predicate IsShown(rest: seq<Byte>) {
    |rest| >= 3 && rest[0] == 32 && rest[1] == 84 && rest[2] == 106
  }

  /** The operator `T*`, which moves to the next line (section 9.4.2 of ISO 32000-1). */
  predicate MovesOn(s: seq<Byte>) {
    |s| >= 2 && s[0] == 84 && s[1] == STAR
  }

  /** What a content stream shows from a line of text on, by the literal-string syntax of ISO 32000-1. */
  function Shown(s: seq<Byte>, row: nat): seq<ShownText>
    decreases |s|
  {
    if s == [] then []
    else if MovesOn(s) then Shown(s[2..], row + 1)
    else if s[0] != S.OPEN then Shown(s[1..], row)
    else
      match S.ReadString(s[1..], 0)
      case None => []
      case Some(l) => (if IsShown(l.rest) then [ShownText(row, l.text)] else []) + Shown(l.rest, row)
  }

  lemma {:induction false} ShownSkips(a: seq<Byte>, t: seq<Byte>, row: nat)
    requires S.OPEN !in a && STAR !in a && (t == [] || t[0] != STAR)
    ensures Shown(a + t, row) == Shown(t, row)
    decreases |a|
  {
    if a == [] {
      assert a + t == t;
    } else {
      assert (a + t)[1..] == a[1..] + t;
      assert |a + t| > 1 ==> (a + t)[1] == if |a| > 1 then a[1] else t[0];
      ShownSkips(a[1..], t, row);
    }
  }

  lemma ShownOutside(a: Line, t: Line, row: nat)
    requires Plain(a) && (t == [] || t[0] != STAR)
    ensures Shown(Encode(a + t), row) == Shown(Encode(t), row)
  {
    EncodeConcat(a, t);
    EncodeLength(a);
    EncodeStart(t);
    ShownSkips(Encode(a), Encode(t), row);
  }

  lemma EncodeStart(t: Line)
    requires t == [] || t[0] != STAR
    ensures Encode(t) == [] || Encode(t)[0] != STAR
  {
    if t != [] && !StartsPair(t) {
      assert Encode(t)[0] == EncodeUnit(t[0])[0];
    }
  }

  lemma ShownMove(t: Line, row: nat)
    ensures Shown(Encode(Units("T*") + t), row) == Shown(Encode(t), row + 1)
  {
    EncodeConcat(Units("T*"), t);
    EncodeLength(Units("T*"));
    var b := Encode(Units("T*") + t);
    assert b[0] == 84 && b[1] == STAR && b[2..] == Encode(t);
  }

  lemma ShownString(x: Line, rest: Line, row: nat)
    requires S.CR !in x
    ensures Shown(Encode([S.OPEN] + (S.Escape(x) + [S.CLOSE] + (Units(" Tj") + rest))), row)
         == [ShownText(row, Encode(x))] + Shown(Encode(Units(" Tj") + rest), row)
  {
    var later := Units(" Tj") + rest;
    var inside := S.Escape(x) + [S.CLOSE] + later;
    EncodeAt([], S.OPEN, inside);
    assert [] + [S.OPEN] + inside == [S.OPEN] + inside;
    EncodeAt(S.Escape(x), S.CLOSE, later);
    S.ReaderUndoesEscape(x, Encode(later));
    TjFollows(rest);
    var t := Encode([S.OPEN] + inside);
    assert t[0] == S.OPEN && t[1..] == Encode(inside);
  }

  lemma TjFollows(rest: Line)
    ensures IsShown(Encode(Units(" Tj") + rest))
  {
    EncodeConcat(Units(" Tj"), rest);
    EncodeLength(Units(" Tj"));
  }

  lemma ShownOperator(x: Line, rest: Line, row: nat)
    requires S.CR !in x && (rest == [] || rest[0] != STAR)
    ensures Shown(Encode(ShowText(x) + rest), row) == [ShownText(row, Encode(x))] + Shown(Encode(rest), row)
  {
    ShowParts([S.OPEN], S.Escape(x), [S.CLOSE], Units(" Tj"), rest);
    ShownString(x, rest, row);
    ShownOutside(Units(" Tj"), rest, row);
  }

  lemma ShowParts(a: Line, b: Line, c: Line, d: Line, e: Line)
    ensures a + b + c + d + e == a + (b + c + (d + e))
  {
    Assoc(a, b, c);
    Assoc(a + (b + c), d, e);
    Assoc(a, b + c, d + e);
  }

  /** The lines on consecutive lines of text, each between two spaces. */
  function OnePerRow(lines: seq<Line>, row: nat): seq<ShownText> {
    if lines == [] then [] else [ShownText(row, Encode(Padded(lines[0])))] + OnePerRow(lines[1..], row + 1)
  }

  predicate NoReturns(lines: seq<Line>) {
    forall i :: 0 <= i < |lines| ==> S.CR !in lines[i]
  }

  function FirstRow(first: bool, row: nat): nat {
    if first then row else row + 1
  }

  /** The text of the operators of some lines, up to the end of the stream. */
  function Remaining(lines: seq<Line>, first: bool): Line {
    OnNewLines(Operators(lines, first)) + STREAM_TAIL
  }

  lemma {:induction false} ShownOperators(lines: seq<Line>, first: bool, row: nat)
    requires NoReturns(lines)
    ensures Shown(Encode(Remaining(lines, first)), row) == OnePerRow(lines, FirstRow(first, row))
    decreases |lines|
  {
    if lines == [] {
      ShownNone(first, row);
    } else {
      var here := FirstRow(first, row);
      ShownOperators(lines[1..], false, here);
      ShownStep(lines, first, row, OnePerRow(lines[1..], here + 1));
    }
  }

  lemma ShownNone(first: bool, row: nat)
    ensures Shown(Encode(Remaining([], first)), row) == []
  {
    assert Remaining([], first) == STREAM_TAIL;
    NothingInTail(row);
  }

  lemma ShownStep(lines: seq<Line>, first: bool, row: nat, later: seq<ShownText>)
    requires lines != [] && S.CR !in lines[0]
    requires Shown(Encode(Remaining(lines[1..], false)), FirstRow(first, row)) == later
    ensures Shown(Encode(Remaining(lines, first)), row) == [ShownText(FirstRow(first, row), Encode(Padded(lines[0])))] + later
  {
    RestStarts(lines[1..]);
    ShownFirst(lines[0], first, Remaining(lines[1..], false), row);
    OperatorsText(lines, first, STREAM_TAIL);
  }

  lemma NothingInTail(row: nat)
    ensures Shown(Encode(STREAM_TAIL), row) == []
  {
    StreamEndsPlain();
    ShownOutside(STREAM_TAIL, [], row);
    assert STREAM_TAIL + [] == STREAM_TAIL;
  }

  lemma RestStarts(lines: seq<Line>)
    ensures Remaining(lines, false) != [] && Remaining(lines, false)[0] == LF
  {
  }

  lemma ShownFirst(line: Line, first: bool, rest: Line, row: nat)
    requires S.CR !in line && rest != [] && rest[0] == LF
    ensures Shown(Encode([LF] + Lead(first) + (ShowText(Padded(line)) + rest)), row)
         == [ShownText(FirstRow(first, row), Encode(Padded(line)))] + Shown(Encode(rest), FirstRow(first, row))
  {
    var text := ShowText(Padded(line)) + rest;
    ShownOperator(Padded(line), rest, FirstRow(first, row));
    ShownLead(first, text, row);
  }

  lemma ShownLead(first: bool, text: Line, row: nat)
    requires text != [] && text[0] == S.OPEN
    ensures Shown(Encode([LF] + Lead(first) + text), row) == Shown(Encode(text), FirstRow(first, row))
  {
    if first {
      assert [LF] + Lead(first) + text == [LF] + text;
      ShownOutside([LF], text, row);
    } else {
      assert Lead(first) == Units("T*") + [SPACE];
      LeadParts([LF], Units("T*"), [SPACE], text);
      ShownOutside([LF], Units("T*") + ([SPACE] + text), row);
      ShownMove([SPACE] + text, row);
      ShownOutside([SPACE], text, row + 1);
    }
  }

  lemma LeadParts(a: Line, b: Line, c: Line, d: Line)
    ensures a + (b + c) + d == a + (b + (c + d))
  {
    Assoc(a, b + c, d);
    Assoc(b, c, d);
  }

  lemma OperatorsText(lines: seq<Line>, first: bool, tail: Line)
    requires lines != []
    ensures OnNewLines(Operators(lines, first)) + tail
         == [LF] + Lead(first) + (ShowText(Padded(lines[0])) + (OnNewLines(Operators(lines[1..], false)) + tail))
  {
    OperatorForm(lines[0], first);
    OperatorTrimmed(lines[0], first);
    NewLineFirst(Operator(lines[0], first), Operators(lines[1..], false));
    Regroup([LF], Lead(first), ShowText(Padded(lines[0])), OnNewLines(Operators(lines[1..], false)), tail);
  }

  lemma NewLineFirst(part: Line, parts: seq<Line>)
    ensures OnNewLines([part] + parts) == [LF] + part + OnNewLines(parts)
  {
    var all: seq<Line> := [part] + parts;
    assert all[1..] == parts;
  }

  lemma Regroup(a: Line, b: Line, c: Line, d: Line, e: Line)
    ensures a + (b + c) + d + e == a + b + (c + (d + e))
  {
    Assoc(a, b, c);
    Assoc(a + b, c, d);
    Assoc(a + b, c + d, e);
    Assoc(c, d, e);
  }

  const STREAM_LEAD: Line := Units("BT") + OnNewLines(SETUP)
  const STREAM_TAIL: Line := OnNewLines([Units("ET")])

  lemma StreamForm(lines: seq<Line>)
    ensures StreamText(lines) == STREAM_LEAD + (OnNewLines(Operators(lines, true)) + STREAM_TAIL)
  {
    var ops := Operators(lines, true);
    OnNewLinesConcat(SETUP + ops, [Units("ET")]);
    OnNewLinesConcat(SETUP, ops);
    Assoc(OnNewLines(SETUP), OnNewLines(ops), STREAM_TAIL);
    Assoc(Units("BT"), OnNewLines(SETUP), OnNewLines(ops) + STREAM_TAIL);
  }

  lemma StreamEndsPlain()
    ensures Plain(STREAM_LEAD) && Plain(STREAM_TAIL)
  {
    OnNewLinesPlain(SETUP);
    OnNewLinesPlain([Units("ET")]);
  }

  /** For all lines without carriage returns, the page shows them in order, one per line of text, each between two spaces. */
  lemma StreamShowsLines(lines: seq<Line>)
    requires NoReturns(lines)
    ensures Shown(Encode(StreamText(lines)), 0) == OnePerRow(lines, 0)
  {
    StreamForm(lines);
    StreamEndsPlain();
    assert Remaining(lines, true)[0] == LF;
    ShownOutside(STREAM_LEAD, Remaining(lines, true), 0);
    ShownOperators(lines, true, 0);
  }

  // ---------------------------------------------------------------- which streams are ASCII

  lemma AsciiConcat(a: Line, b: Line)
    ensures Ascii(a + b) <==> Ascii(a) && Ascii(b)
  {
    if Ascii(a + b) {
      assert forall i :: 0 <= i < |a| ==> (a + b)[i] == a[i];
      assert forall i :: 0 <= i < |b| ==> (a + b)[|a| + i] == b[i];
    }
  }

  lemma {:induction false} EscapeAscii(s: Line)
    ensures Ascii(S.EscapeOnce(s)) <==> Ascii(s)
  {
    if s != [] {
      EscapeAscii(s[1..]);
      AsciiConcat(S.EscapeUnit(s[0]), S.EscapeOnce(s[1..]));
      AsciiConcat([s[0]], s[1..]);
      assert [s[0]] + s[1..] == s;
    }
  }

  lemma OperatorAscii(line: Line, first: bool)
    ensures Ascii(Trim(Operator(line, first))) <==> Ascii(line)
  {
    OperatorTrimmed(line, first);
    S.EscapeIsOnePass(line);
    EscapeAscii(line);
    AsciiConcat(Lead(first), Units("( "));
    AsciiConcat(Lead(first) + Units("( "), S.Escape(line));
    AsciiConcat(Lead(first) + Units("( ") + S.Escape(line), Units(" ) Tj"));
  }

  lemma {:induction false} OperatorsAscii(lines: seq<Line>, first: bool)
    ensures Ascii(OnNewLines(Operators(lines, first))) <==> AllAscii(lines)
  {
    if lines != [] {
      var op, later := Trim(Operator(lines[0], first)), Operators(lines[1..], false);
      OperatorsAscii(lines[1..], false);
      OperatorAscii(lines[0], first);
      NewLineFirst(op, later);
      AsciiConcat([LF], op);
      AsciiConcat([LF] + op, OnNewLines(later));
      assert AllAscii(lines) <==> Ascii(lines[0]) && AllAscii(lines[1..]) by {
        if Ascii(lines[0]) && AllAscii(lines[1..]) {
          assert forall i :: 1 <= i < |lines| ==> lines[i] == lines[1..][i - 1];
        }
      }
    }
  }

  /** The stream is ASCII exactly when every line on the page is. */
  lemma StreamAscii(lines: seq<Line>)
    ensures Ascii(StreamText(lines)) <==> AllAscii(lines)
  {
    StreamForm(lines);
    StreamEndsPlain();
    var middle := OnNewLines(Operators(lines, true));
    OperatorsAscii(lines, true);
    AsciiConcat(STREAM_LEAD, middle + STREAM_TAIL);
    AsciiConcat(middle, STREAM_TAIL);
  }
}
