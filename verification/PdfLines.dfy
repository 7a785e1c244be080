/**
 The text side of the hand-written PDF writer: normalising and wrapping lines
 (backend/src/application/services/booking-contract-service.ts). Texts are UTF-16 code units.
 */
module PdfLines {
  import opened Text

  type Line = seq<Unit>

  const LF: Unit := 10
  const CR: Unit := 13

  const MAX_CHARS := 96

  // ---------------------------------------------------------------- words

  /** The maximal runs of non-blank units, in order. */
  function Words(s: Line): (ws: seq<Line>)
    ensures s != [] && !IsSpace(s[0]) ==> ws != []
  {
    if s == [] then []
    else if IsSpace(s[0]) then Words(s[1..])
    else if |s| == 1 || IsSpace(s[1]) then [[s[0]]] + Words(s[1..])
    else GlueFirst(s[0], Words(s[1..]))
  }

  /** The first piece grows by a unit on its left. */
  function GlueFirst(u: Unit, ws: seq<Line>): seq<Line>
    requires ws != []
  {
    [[u] + ws[0]] + ws[1..]
  }

  predicate IsWord(w: Line) {
    w != [] && forall i :: 0 <= i < |w| ==> !IsSpace(w[i])
  }

  predicate AllWords(ws: seq<Line>) {
    forall i :: 0 <= i < |ws| ==> IsWord(ws[i])
  }

  lemma {:induction false} WordsAreWords(s: Line)
    ensures AllWords(Words(s))
  {
    if s != [] {
      WordsAreWords(s[1..]);
    }
  }

  /** `ws.join(" ")`. */
  function Join(ws: seq<Line>): Line {
    if ws == [] then [] else if |ws| == 1 then ws[0] else ws[0] + [SPACE] + Join(ws[1..])
  }

  /** `s.replace(/\s+/g, " ")`: every run of blanks becomes one space. */
  function Collapse(s: Line): Line {
    if s == [] then []
    else if !IsSpace(s[0]) then [s[0]] + Collapse(s[1..])
    else if |s| > 1 && IsSpace(s[1]) then Collapse(s[1..])
    else [SPACE] + Collapse(s[1..])
  }

  function TrimStart(s: Line): Line {
    if s != [] && IsSpace(s[0]) then TrimStart(s[1..]) else s
  }

  function TrimEnd(s: Line): Line {
    if s != [] && IsSpace(s[|s| - 1]) then TrimEnd(s[..|s| - 1]) else s
  }

  function Trim(s: Line): Line {
    TrimEnd(TrimStart(s))
  }

  function Normalize(s: Line): Line {
    Trim(Collapse(s))
  }

  /** `s.split(separator)` for a separator of one unit. */
  function Split(s: Line, separator: Unit): (pieces: seq<Line>)
    ensures pieces != []
  {
    if s == [] then [[]]
    else if s[0] == separator then [[]] + Split(s[1..], separator)
    else GlueFirst(s[0], Split(s[1..], separator))
  }

  lemma GlueCons(w: Line, rest: seq<Line>)
    requires w != []
    ensures GlueFirst(w[0], [w[1..]] + rest) == [w] + rest
  {
    assert [w[0]] + w[1..] == w;
  }

  lemma {:induction false} SplitHead(w: Line, separator: Unit, t: Line)
    requires separator !in w
    ensures Split(w + [separator] + t, separator) == [w] + Split(t, separator)
    decreases |w|
  {
    var s := w + [separator] + t;
    if w == [] {
      assert s[1..] == t;
    } else {
      assert s[1..] == w[1..] + [separator] + t;
      SplitHead(w[1..], separator, t);
      GlueCons(w, Split(t, separator));
    }
  }

  lemma {:induction false} SplitWhole(w: Line, separator: Unit)
    requires separator !in w
    ensures Split(w, separator) == [w]
    decreases |w|
  {
    if w != [] {
      SplitWhole(w[1..], separator);
      GlueCons(w, []);
      assert [w[1..]] + [] == [w[1..]];
    }
  }

  lemma {:induction false} SplitJoin(ws: seq<Line>)
    requires AllWords(ws) && ws != []
    ensures Split(Join(ws), SPACE) == ws
    decreases |ws|
  {
    assert IsWord(ws[0]);
    if |ws| == 1 {
      SplitWhole(ws[0], SPACE);
    } else {
      SplitJoin(ws[1..]);
      SplitHead(ws[0], SPACE, Join(ws[1..]));
    }
  }

  lemma {:induction false} WordsHead(w: Line, t: Line)
    requires IsWord(w) && (t == [] || IsSpace(t[0]))
    ensures Words(w + t) == [w] + Words(t)
    decreases |w|
  {
    var s := w + t;
    assert s[0] == w[0] && s[1..] == w[1..] + t;
    if |w| == 1 {
      assert s[1..] == t && [s[0]] == w;
    } else {
      assert s[1] == w[1];
      WordsHead(w[1..], t);
      GlueCons(w, Words(t));
    }
  }

  lemma {:induction false} WordsJoin(ws: seq<Line>)
    requires AllWords(ws)
    ensures Words(Join(ws)) == ws
    decreases |ws|
  {
    if ws != [] {
      assert IsWord(ws[0]);
      if |ws| == 1 {
        WordsHead(ws[0], []);
        assert ws[0] + [] == ws[0];
      } else {
        WordsJoin(ws[1..]);
        var t := [SPACE] + Join(ws[1..]);
        assert t[1..] == Join(ws[1..]);
        WordsHead(ws[0], t);
        assert ws[0] + t == Join(ws);
      }
    }
  }

  lemma {:induction false} JoinEnds(ws: seq<Line>)
    requires AllWords(ws) && ws != []
    ensures Join(ws) != [] && !IsSpace(Join(ws)[0]) && !IsSpace(Join(ws)[|Join(ws)| - 1])
    decreases |ws|
  {
    assert IsWord(ws[0]);
    if |ws| > 1 {
      JoinEnds(ws[1..]);
    }
  }

  function Before(s: Line): Line {
    if s != [] && IsSpace(s[0]) then [SPACE] else []
  }

  function Behind(s: Line): Line {
    if s != [] && IsSpace(s[|s| - 1]) then [SPACE] else []
  }

  /** What collapsing yields: the words one space apart, with at most one space on either side. */
  function Shape(s: Line): Line {
    Shaped(Before(s), Words(s), Behind(s))
  }

  function Shaped(before: Line, ws: seq<Line>, behind: Line): Line {
    if ws == [] then before else before + Join(ws) + behind
  }

  lemma JoinGlue(u: Unit, ws: seq<Line>)
    requires ws != []
    ensures Join(GlueFirst(u, ws)) == [u] + Join(ws)
  {
    assert GlueFirst(u, ws)[1..] == ws[1..];
  }

  lemma JoinCons(w: Line, later: seq<Line>)
    ensures Join([w] + later) == if later == [] then w else w + [SPACE] + Join(later)
  {
    var ws: seq<Line> := [w] + later;
    assert ws[1..] == later;
  }

  lemma {:induction false} NoWordsIsBlank(s: Line)
    requires Words(s) == [] && s != []
    ensures IsSpace(s[|s| - 1])
  {
    if |s| > 1 {
      NoWordsIsBlank(s[1..]);
    }
  }

  lemma {:induction false} CollapseShape(s: Line)
    ensures Collapse(s) == Shape(s)
  {
    if s != [] {
      CollapseShape(s[1..]);
      if IsSpace(s[0]) {
        ShapeOfBlank(s);
      } else if |s| == 1 || IsSpace(s[1]) {
        ShapeOfWordEnd(s);
      } else {
        ShapeInsideWord(s);
      }
    }
  }

  lemma ShapedAfterSpace(ws: seq<Line>, behind: Line)
    ensures Shaped([SPACE], ws, behind) == [SPACE] + Shaped([], ws, behind)
  {
    NoneBefore([SPACE]);
    NoneBefore(Join(ws));
    Assoc([SPACE], Join(ws), behind);
  }

  lemma ShapedAfterWord(w: Line, later: seq<Line>, behind: Line)
    requires later == [] ==> behind == [SPACE]
    ensures Shaped([], [w] + later, behind) == w + Shaped([SPACE], later, behind)
  {
    JoinCons(w, later);
    NoneBefore(Join([w] + later));
    Assoc(w, [SPACE], Join(later));
    Assoc(w, [SPACE] + Join(later), behind);
  }

  lemma ShapedInWord(u: Unit, ws: seq<Line>, behind: Line)
    requires ws != []
    ensures Shaped([], GlueFirst(u, ws), behind) == [u] + Shaped([], ws, behind)
  {
    JoinGlue(u, ws);
    NoneBefore(Join(GlueFirst(u, ws)));
    NoneBefore(Join(ws));
    Assoc([u], Join(ws), behind);
  }

  lemma ShapeOfBlank(s: Line)
    requires s != [] && IsSpace(s[0])
    ensures Shape(s) == if |s| > 1 && IsSpace(s[1]) then Shape(s[1..]) else [SPACE] + Shape(s[1..])
  {
    var r := s[1..];
    assert Words(s) == Words(r);
    if r == [] {
      assert Words(r) == [];
    } else {
      assert Behind(s) == Behind(r);
      ShapedAfterSpace(Words(r), Behind(r));
    }
  }

  lemma ShapeOfWordEnd(s: Line)
    requires s != [] && !IsSpace(s[0]) && (|s| == 1 || IsSpace(s[1]))
    ensures Shape(s) == [s[0]] + Shape(s[1..])
  {
    var w, r := [s[0]], s[1..];
    assert Words(s) == [w] + Words(r);
    if r == [] {
      assert Words(r) == [] && Shape(r) == [] && Before(s) == [] && Behind(s) == [];
      JoinCons(w, []);
    } else {
      assert Behind(s) == Behind(r) && Before(r) == [SPACE];
      if Words(r) == [] {
        NoWordsIsBlank(r);
      }
      ShapedAfterWord(w, Words(r), Behind(r));
    }
  }

  lemma ShapeInsideWord(s: Line)
    requires |s| > 1 && !IsSpace(s[0]) && !IsSpace(s[1])
    ensures Shape(s) == [s[0]] + Shape(s[1..])
  {
    ShapedInWord(s[0], Words(s[1..]), Behind(s));
    assert Behind(s) == Behind(s[1..]);
  }

  lemma TrimsTo(a: Line, j: Line, b: Line)
    requires (a == [] || a == [SPACE]) && (b == [] || b == [SPACE])
    requires j != [] && !IsSpace(j[0]) && !IsSpace(j[|j| - 1])
    ensures Trim(a + j + b) == j
  {
    var t := a + j + b;
    assert TrimStart(j + b) == j + b;
    assert TrimStart(t) == j + b by {
      if a != [] {
        assert t[0] == SPACE && t[1..] == j + b;
      } else {
        assert t == j + b;
      }
    }
    assert TrimEnd(j) == j;
    if b != [] {
      assert (j + b)[|j + b| - 1] == SPACE && (j + b)[..|j + b| - 1] == j;
    } else {
      assert j + b == j;
    }
  }

  lemma TrimBlank()
    ensures Trim([SPACE]) == [] && Trim([]) == []
  {
    var one: Line := [SPACE];
    assert one[1..] == [];
    assert TrimStart(one) == TrimStart([]);
  }

  /** Normalising a line keeps exactly its words, one space apart. */
  lemma NormalizeKeepsWords(s: Line)
    ensures Normalize(s) == Join(Words(s))
    ensures Words(s) != [] ==> Split(Normalize(s), SPACE) == Words(s)
  {
    CollapseShape(s);
    WordsAreWords(s);
    if Words(s) == [] {
      TrimBlank();
    } else {
      JoinEnds(Words(s));
      TrimsTo(Before(s), Join(Words(s)), Behind(s));
      SplitJoin(Words(s));
    }
  }

  // ---------------------------------------------------------------- wrapping

  /** The inner loop of the wrapper: pack words greedily, starting from a partly filled line. */
  function Pack(words: seq<Line>, current: Line): seq<Line>
    decreases |words|
  {
    if words == [] then (if current == [] then [] else [current])
    else
      var candidate := Longer(current, words[0]);
      if |candidate| <= MAX_CHARS then Pack(words[1..], candidate)
      else [current] + Pack(words[1..], words[0])
  }

  function WrapLine(raw: Line): seq<Line> {
    if raw == [] then [[]] else if |raw| <= MAX_CHARS then [raw] else Pack(Split(raw, SPACE), [])
  }

  function WrapAll(raws: seq<Line>): seq<Line> {
    if raws == [] then [] else WrapAll(raws[..|raws| - 1]) + WrapLine(raws[|raws| - 1])
  }

  /** All words of a list of lines, in order. */
  function WordsOf(lines: seq<Line>): seq<Line> {
    if lines == [] then [] else Words(lines[0]) + WordsOf(lines[1..])
  }

  predicate Fits(line: Line) {
    |line| <= MAX_CHARS || |Words(line)| == 1
  }

  lemma WordsOfOne(line: Line)
    ensures WordsOf([line]) == Words(line)
  {
    var one: seq<Line> := [line];
    assert one[1..] == [];
    assert WordsOf(one) == Words(line) + WordsOf([]);
  }

  lemma {:induction false} WordsOfConcat(a: seq<Line>, b: seq<Line>)
    ensures WordsOf(a + b) == WordsOf(a) + WordsOf(b)
    decreases |a|
  {
    if a == [] {
      assert a + b == b;
    } else {
      assert (a + b)[1..] == a[1..] + b;
      WordsOfConcat(a[1..], b);
    }
  }

  lemma {:induction false} JoinSnoc(ws: seq<Line>, w: Line)
    requires ws != []
    ensures Join(ws + [w]) == Join(ws) + [SPACE] + w
    decreases |ws|
  {
    assert (ws + [w])[1..] == ws[1..] + [w];
    if |ws| > 1 {
      JoinSnoc(ws[1..], w);
    } else {
      assert ws[1..] + [w] == [w];
    }
  }

  /** Words one space apart and nothing else. */
  predicate Tidy(line: Line) {
    line == Join(Words(line))
  }

  lemma AppendWord(line: Line, w: Line)
    requires Tidy(line) && IsWord(w)
    ensures Tidy(Longer(line, w)) && Words(Longer(line, w)) == Words(line) + [w]
  {
    var ws := Words(line) + [w];
    WordsAreWords(line);
    WordsJoin(ws);
    if Words(line) == [] {
      assert ws == [w];
    } else {
      JoinEnds(Words(line));
      JoinSnoc(Words(line), w);
    }
  }

  lemma OneWord(w: Line)
    requires IsWord(w)
    ensures Tidy(w) && Words(w) == [w]
  {
    AppendWord([], w);
  }

  function Longer(current: Line, w: Line): Line {
    if current == [] then w else current + [SPACE] + w
  }

  /** The lines carry exactly these words one space apart; each is short enough or a single word. */
  predicate Carry(lines: seq<Line>, ws: seq<Line>) {
    WordsOf(lines) == ws && AllFit(lines) && AllTidy(lines)
  }

  predicate AllFit(lines: seq<Line>) {
    forall i :: 0 <= i < |lines| ==> Fits(lines[i])
  }

  predicate AllTidy(lines: seq<Line>) {
    forall i :: 0 <= i < |lines| ==> Tidy(lines[i])
  }

  lemma CarryCons(line: Line, later: seq<Line>, ws: seq<Line>)
    requires Fits(line) && Tidy(line) && Carry(later, ws)
    ensures Carry([line] + later, Words(line) + ws)
  {
    var all: seq<Line> := [line] + later;
    assert all[1..] == later;
  }

  lemma CarryRest(current: Line)
    requires Fits(current) && Tidy(current)
    ensures Carry(Pack([], current), Words(current))
  {
    WordsOfOne(current);
  }

  /** Packing loses no word, keeps their order and only exceeds the width for a single long word. */
  lemma {:induction false} PackKeepsWords(words: seq<Line>, current: Line)
    requires AllWords(words) && Tidy(current) && Fits(current)
    ensures Carry(Pack(words, current), Words(current) + words)
    decreases |words|
  {
    if words == [] {
      CarryRest(current);
      assert Words(current) + words == Words(current);
    } else {
      var w, later := words[0], words[1..];
      assert [w] + later == words;
      var longer := Longer(current, w);
      if |longer| <= MAX_CHARS {
        AppendWord(current, w);
        PackKeepsWords(later, longer);
        Assoc(Words(current), [w], later);
      } else {
        OneWord(w);
        PackKeepsWords(later, w);
        CarryCons(current, Pack(later, w), words);
      }
    }
  }

  /** The next line's first word would not have fitted onto this line. */
  predicate BrokenForWord(line: Line, next: Line) {
    Words(next) != [] && (if line == [] then |Words(next)[0]| else |line| + 1 + |Words(next)[0]|) > 96
  }

  predicate Greedy(lines: seq<Line>) {
    forall i :: 0 < i < |lines| ==> BrokenForWord(lines[i - 1], lines[i])
  }

  predicate StartsWith(lines: seq<Line>, w: Line) {
    lines != [] && Words(lines[0]) != [] && Words(lines[0])[0] == w
  }

  lemma GreedyCons(line: Line, later: seq<Line>, w: Line)
    requires Greedy(later) && StartsWith(later, w) && |Longer(line, w)| > 96
    ensures Greedy([line] + later)
  {
    var all: seq<Line> := [line] + later;
    forall i | 0 < i < |all| ensures BrokenForWord(all[i - 1], all[i]) {
      if i > 1 {
        assert BrokenForWord(later[i - 2], later[i - 1]);
      }
    }
  }

  /** Packing ends a line only when the next word would make it longer than 96 units. */
  lemma {:induction false} PackIsGreedy(words: seq<Line>, current: Line)
    requires AllWords(words) && Tidy(current)
    ensures Greedy(Pack(words, current))
    ensures Words(current) != [] ==> StartsWith(Pack(words, current), Words(current)[0])
    decreases |words|
  {
    if words != [] {
      var w, later := words[0], words[1..];
      OneWord(w);
      if |Longer(current, w)| <= MAX_CHARS {
        AppendWord(current, w);
        PackIsGreedy(later, Longer(current, w));
      } else {
        PackIsGreedy(later, w);
        GreedyCons(current, Pack(later, w), w);
      }
    }
  }

  /** For every line of text: what fits stays one line, and otherwise each line is filled before the next begins. */
  lemma WrappingIsGreedy(s: Line)
    ensures |Normalize(s)| <= 96 ==> WrapLine(Normalize(s)) == [Normalize(s)]
    ensures Greedy(WrapLine(Normalize(s)))
  {
    NormalizeKeepsWords(s);
    WordsAreWords(s);
    if |Normalize(s)| > MAX_CHARS {
      PackIsGreedy(Words(s), []);
    }
  }

  lemma WrapLineKeepsWords(raw: Line)
    requires Tidy(raw)
    ensures Carry(WrapLine(raw), Words(raw))
  {
    if |raw| <= MAX_CHARS {
      WordsOfOne(raw);
    } else {
      WordsAreWords(raw);
      SplitJoin(Words(raw));
      PackKeepsWords(Words(raw), []);
      assert [] + Words(raw) == Words(raw);
    }
  }

  function NormalizeAll(lines: seq<Line>): (r: seq<Line>)
    ensures |r| == |lines| && forall i :: 0 <= i < |r| ==> r[i] == Normalize(lines[i])
  {
    seq(|lines|, i requires 0 <= i < |lines| => Normalize(lines[i]))
  }

  /** The title, an empty line and the body's lines. */
  function SourceLines(title: Line, body: Line): seq<Line> {
    [title, []] + Split(body, LF)
  }

  function RawLines(title: Line, body: Line): seq<Line> {
    NormalizeAll(SourceLines(title, body))
  }

  lemma CarryConcat(a: seq<Line>, ws: seq<Line>, b: seq<Line>, vs: seq<Line>)
    requires Carry(a, ws) && Carry(b, vs)
    ensures Carry(a + b, ws + vs)
  {
    WordsOfConcat(a, b);
  }

  lemma NormalizedIsTidy(s: Line)
    ensures Tidy(Normalize(s)) && Words(Normalize(s)) == Words(s)
  {
    NormalizeKeepsWords(s);
    WordsAreWords(s);
    WordsJoin(Words(s));
  }

  lemma WordsOfSnoc(lines: seq<Line>, last: Line)
    ensures WordsOf(lines + [last]) == WordsOf(lines) + Words(last)
  {
    WordsOfConcat(lines, [last]);
    WordsOfOne(last);
  }

  lemma WrapAllSnoc(lines: seq<Line>, last: Line)
    ensures WrapAll(NormalizeAll(lines + [last])) == WrapAll(NormalizeAll(lines)) + WrapLine(Normalize(last))
  {
    var raws := NormalizeAll(lines + [last]);
    assert raws[..|lines|] == NormalizeAll(lines);
    assert raws[|lines|] == Normalize(last);
  }

  lemma {:induction false} WrapAllKeepsWords(lines: seq<Line>)
    ensures Carry(WrapAll(NormalizeAll(lines)), WordsOf(lines))
    decreases |lines|
  {
    if lines == [] {
      assert NormalizeAll(lines) == [];
    } else {
      var earlier, last := lines[..|lines| - 1], lines[|lines| - 1];
      assert earlier + [last] == lines;
      WrapAllKeepsWords(earlier);
      NormalizedIsTidy(last);
      WrapLineKeepsWords(Normalize(last));
      CarryConcat(WrapAll(NormalizeAll(earlier)), WordsOf(earlier), WrapLine(Normalize(last)), Words(last));
      WordsOfSnoc(earlier, last);
      WrapAllSnoc(earlier, last);
    }
  }

  lemma SplitStart(s: Line, separator: Unit)
    requires s != []
    ensures var first := Split(s, separator)[0];
      if s[0] == separator then first == [] else first != [] && first[0] == s[0]
  {
  }

  lemma WordsGrow(u: Unit, s: Line, piece: Line)
    requires piece == [] ==> s == [] || IsSpace(s[0])
    requires piece != [] ==> s != [] && piece[0] == s[0]
    requires !IsSpace(u)
    ensures (s == [] || IsSpace(s[0])) ==> Words([u] + s) == [[u]] + Words(s) && Words([u] + piece) == [[u]] + Words(piece)
    ensures s != [] && !IsSpace(s[0]) ==>
      Words([u] + s) == GlueFirst(u, Words(s)) && Words([u] + piece) == GlueFirst(u, Words(piece))
  {
    assert ([u] + s)[1..] == s && ([u] + piece)[1..] == piece;
  }

  lemma WordsOfGlue(u: Unit, pieces: seq<Line>)
    requires pieces != []
    ensures WordsOf(GlueFirst(u, pieces)) == Words([u] + pieces[0]) + WordsOf(pieces[1..])
  {
    assert GlueFirst(u, pieces)[1..] == pieces[1..];
  }

  /** Putting a unit in front of a text and in front of its first piece adds the same words. */
  lemma WordsOfPush(u: Unit, r: Line, pieces: seq<Line>)
    requires u != LF && pieces == Split(r, LF) && WordsOf(pieces) == Words(r)
    ensures WordsOf(GlueFirst(u, pieces)) == Words([u] + r)
  {
    var first, others := pieces[0], WordsOf(pieces[1..]);
    WordsOfGlue(u, pieces);
    if IsSpace(u) {
      assert ([u] + first)[1..] == first && ([u] + r)[1..] == r;
    } else {
      if r != [] {
        SplitStart(r, LF);
      }
      WordsGrow(u, r, first);
      if r == [] || IsSpace(r[0]) {
        Assoc([[u]], Words(first), others);
      } else {
        GlueBefore(u, Words(first), others);
      }
    }
  }

  lemma GlueBefore(u: Unit, a: seq<Line>, b: seq<Line>)
    requires a != []
    ensures GlueFirst(u, a + b) == GlueFirst(u, a) + b
  {
  }

  /** Splitting at line feeds separates no word, since a line feed is a blank. */
  lemma {:induction false} WordsOfSplit(s: Line)
    ensures WordsOf(Split(s, LF)) == Words(s)
  {
    if s == [] {
      WordsOfOne([]);
    } else {
      var u, r := s[0], s[1..];
      var pieces := Split(r, LF);
      WordsOfSplit(r);
      assert s == [u] + r;
      if u == LF {
        assert ([[]] + pieces)[1..] == pieces;
      } else {
        WordsOfPush(u, r, pieces);
      }
    }
  }

  lemma SourceWords(title: Line, body: Line)
    ensures WordsOf(SourceLines(title, body)) == Words(title) + Words(body)
  {
    var pieces := Split(body, LF);
    WordsOfSplit(body);
    WordsOfConcat([title, []], pieces);
    WordsOfConcat([title], [[]]);
    WordsOfOne(title);
    WordsOfOne([]);
    assert [title] + [[]] == [title, []];
  }

  lemma CarryMeans(lines: seq<Line>, ws: seq<Line>)
    requires Carry(lines, ws)
    ensures WordsOf(lines) == ws
    ensures forall i :: 0 <= i < |lines| ==> lines[i] == Join(Words(lines[i]))
    ensures forall i :: 0 <= i < |lines| ==> |lines[i]| <= 96 || |Words(lines[i])| == 1
  {
    forall i | 0 <= i < |lines| ensures Tidy(lines[i]) && Fits(lines[i]) {
    }
  }

  /**
   For every title and body, before the 56-line cut: the wrapped lines carry all words of the title
   and then the body, in order and one space apart, and each line has at most 96 units or is a
   single word.
   */
  lemma WrappingKeepsEveryWord(title: Line, body: Line)
    ensures var lines := WrapAll(RawLines(title, body));
      && WordsOf(lines) == Words(title) + Words(body)
      && (forall i :: 0 <= i < |lines| ==> lines[i] == Join(Words(lines[i])))
      && (forall i :: 0 <= i < |lines| ==> |lines[i]| <= 96 || |Words(lines[i])| == 1)
  {
    SourceWords(title, body);
    WrapAllKeepsWords(SourceLines(title, body));
    CarryMeans(WrapAll(RawLines(title, body)), Words(title) + Words(body));
  }

  // ---------------------------------------------------------------- units of wrapped lines

  predicate AllAscii(lines: seq<Line>) {
    forall i :: 0 <= i < |lines| ==> Ascii(lines[i])
  }

  /** The only blank in a tidy line is the space. */
  lemma {:induction false} JoinBlanks(ws: seq<Line>)
    requires AllWords(ws)
    ensures forall i :: 0 <= i < |Join(ws)| && IsSpace(Join(ws)[i]) ==> Join(ws)[i] == SPACE
    decreases |ws|
  {
    if ws != [] {
      assert IsWord(ws[0]);
      if |ws| > 1 {
        JoinBlanks(ws[1..]);
      }
    }
  }

  lemma TidyBlanks(line: Line)
    requires Tidy(line)
    ensures CR !in line && LF !in line
  {
    WordsAreWords(line);
    JoinBlanks(Words(line));
  }

  lemma {:induction false} WordsAscii(s: Line)
    requires Ascii(s)
    ensures AllAscii(Words(s))
  {
    if s != [] {
      WordsAscii(s[1..]);
    }
  }

  lemma {:induction false} JoinAscii(ws: seq<Line>)
    requires AllAscii(ws)
    ensures Ascii(Join(ws))
    decreases |ws|
  {
    if |ws| > 1 {
      JoinAscii(ws[1..]);
    }
  }

  lemma {:induction false} LinesAscii(lines: seq<Line>)
    requires AllAscii(WordsOf(lines)) && AllTidy(lines)
    ensures AllAscii(lines)
    decreases |lines|
  {
    if lines != [] {
      var ws, later := Words(lines[0]), WordsOf(lines[1..]);
      assert forall i :: 0 <= i < |ws| ==> ws[i] == (ws + later)[i];
      assert forall i :: 0 <= i < |later| ==> later[i] == (ws + later)[|ws| + i];
      JoinAscii(ws);
      assert Tidy(lines[0]);
      LinesAscii(lines[1..]);
    }
  }

  predicate NoLineEnds(lines: seq<Line>) {
    forall i :: 0 <= i < |lines| ==> CR !in lines[i] && LF !in lines[i]
  }

  /** Wrapping ASCII text gives ASCII lines, and no wrapped line holds a line end. */
  lemma WrappedUnits(title: Line, body: Line)
    ensures var lines := WrapAll(RawLines(title, body));
      && (Ascii(title) && Ascii(body) ==> AllAscii(lines))
      && NoLineEnds(lines)
  {
    var lines := WrapAll(RawLines(title, body));
    SourceWords(title, body);
    WrapAllKeepsWords(SourceLines(title, body));
    if Ascii(title) && Ascii(body) {
      WordsAscii(title);
      WordsAscii(body);
      LinesAscii(lines);
    }
    forall i | 0 <= i < |lines| ensures CR !in lines[i] && LF !in lines[i] {
      TidyBlanks(lines[i]);
    }
  }

  /** The inner loop of `buildSimplePdfBuffer`, pushing onto the lines so far. */
  method PushPacked(words: seq<Line>, before: seq<Line>) returns (wrapped: seq<Line>)
    ensures wrapped == before + Pack(words, [])
  {
    var current: Line := [];
    wrapped := before;
    for k := 0 to |words|
      invariant wrapped + Pack(words[k..], current) == before + Pack(words, [])
    {
      var rest := words[k + 1..];
      assert words[k..][0] == words[k] && words[k..][1..] == rest;
      var candidate := if current != [] then current + [SPACE] + words[k] else words[k];
      if |candidate| <= MAX_CHARS {
        current := candidate;
      } else {
        Assoc(wrapped, [current], Pack(rest, words[k]));
        wrapped := wrapped + [current];
        current := words[k];
      }
    }
    assert words[|words|..] == [];
    NoneBefore(wrapped);
    if current != [] {
      wrapped := wrapped + [current];
    }
  }

  /** The wrapping loop of `buildSimplePdfBuffer`. */
  method WrapLines(rawLines: seq<Line>) returns (wrapped: seq<Line>)
    ensures wrapped == WrapAll(rawLines)
  {
    wrapped := [];
    for i := 0 to |rawLines|
      invariant wrapped == WrapAll(rawLines[..i])
    {
      var rawLine := rawLines[i];
      assert rawLines[..i + 1][..i] == rawLines[..i];
      if rawLine == [] {
        wrapped := wrapped + [[]];
      } else if |rawLine| <= MAX_CHARS {
        wrapped := wrapped + [rawLine];
      } else {
        wrapped := PushPacked(Split(rawLine, SPACE), wrapped);
      }
    }
    assert rawLines[..|rawLines|] == rawLines;
  }
}
