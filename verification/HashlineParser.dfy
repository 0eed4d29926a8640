/** The hashline patch language: its text form and its parser. */
module HashlineParser {
  import opened Wrappers

  // ---------------------------------------------------------------- line texts

  function Split(text: string): (lines: seq<string>)
    ensures |lines| >= 1
    ensures forall l <- lines :: '\n' !in l
  {
    if text == "" then [""]
    else
      var rest := Split(text[1..]);
      if text[0] == '\n' then [""] + rest
      else [[text[0]] + rest[0]] + rest[1..]
  }

  function Join(lines: seq<string>): string {
    if lines == [] then ""
    else if |lines| == 1 then lines[0]
    else lines[0] + "\n" + Join(lines[1..])
  }

  lemma {:induction false} JoinSplit(text: string)
    ensures Join(Split(text)) == text
  {
    if text != "" {
      var rest := Split(text[1..]);
      JoinSplit(text[1..]);
      if text[0] == '\n' {
        assert ([""] + rest)[1..] == rest;
      } else {
        var lines := [[text[0]] + rest[0]] + rest[1..];
        assert lines[1..] == rest[1..];
        assert |rest| > 1 ==> lines[0] + "\n" + Join(lines[1..]) == [text[0]] + (rest[0] + "\n" + Join(rest[1..]));
      }
      assert text == [text[0]] + text[1..];
    }
  }

  lemma {:induction false} SplitOneLine(line: string)
    requires '\n' !in line
    ensures Split(line) == [line]
  {
    if line != "" {
      SplitOneLine(line[1..]);
      assert line == [line[0]] + line[1..];
    }
  }

  lemma {:induction false} SplitFirstLine(line: string, text: string)
    requires '\n' !in line
    ensures Split(line + "\n" + text) == [line] + Split(text)
  {
    var whole := line + "\n" + text;
    if line == "" {
      assert whole[1..] == text;
    } else {
      SplitFirstLine(line[1..], text);
      assert whole[1..] == line[1..] + "\n" + text;
      assert line == [line[0]] + line[1..];
    }
  }

  lemma {:induction false} SplitJoin(lines: seq<string>)
    requires |lines| >= 1
    requires forall l <- lines :: '\n' !in l
    ensures Split(Join(lines)) == lines
  {
    if |lines| == 1 {
      SplitOneLine(lines[0]);
    } else {
      SplitJoin(lines[1..]);
      SplitFirstLine(lines[0], Join(lines[1..]));
    }
  }

  // ---------------------------------------------------------------- decimal numbers

  predicate IsDigit(c: char) {
    '0' <= c <= '9'
  }

  function Digit(d: nat): (c: char)
    requires d < 10
    ensures IsDigit(c) && c as int - '0' as int == d
  {
    ('0' as int + d) as char
  }

  predicate AllDigits(s: string) {
    forall c <- s :: IsDigit(c)
  }

  /** What parseInt(s, 10) reads from a run of digits. */
  function Value(s: string): nat
    requires AllDigits(s)
  {
    assert s != "" ==> IsDigit(s[|s| - 1]);
    if s == "" then 0
    else 10 * Value(s[..|s| - 1]) + (s[|s| - 1] as int - '0' as int)
  }

  function Decimal(n: nat): (s: string)
    ensures s != "" && AllDigits(s)
  {
    if n < 10 then [Digit(n)] else Decimal(n / 10) + [Digit(n % 10)]
  }

  lemma {:induction false} ValueOfDecimal(n: nat)
    ensures Value(Decimal(n)) == n
  {
    if n < 10 {
      assert [Digit(n)][..0] == "";
    } else {
      ValueOfDecimal(n / 10);
      assert Decimal(n)[..|Decimal(n)| - 1] == Decimal(n / 10);
    }
  }

  // ---------------------------------------------------------------- header lines

  /** JavaScript's \s. */
  predicate IsSpace(c: char) {
    || c == ' ' || '\t' <= c <= '\r' || c == '\U{A0}' || c == '\U{1680}'
    || '\U{2000}' <= c <= '\U{200A}' || c == '\U{2028}' || c == '\U{2029}'
    || c == '\U{202F}' || c == '\U{205F}' || c == '\U{3000}' || c == '\U{FEFF}'
  }

  function SkipSpaces(s: string): string {
    if s != "" && IsSpace(s[0]) then SkipSpaces(s[1..]) else s
  }

  /** The longest run of digits at the head of s. */
  function DigitRun(s: string): (n: nat)
    ensures n <= |s|
    ensures AllDigits(s[..n])
    ensures n < |s| ==> !IsDigit(s[n])
  {
    if s != "" && IsDigit(s[0]) then
      var n := DigitRun(s[1..]);
      assert s[..n + 1] == [s[0]] + s[1..][..n];
      n + 1
    else 0
  }

  /** `\d+` at the head of s: the number, and what is left. */
  function ReadNumber(s: string): Option<(nat, string)> {
    var n := DigitRun(s);
    if n == 0 then None else Some((Value(s[..n]), s[n..]))
  }

  function ReadLiteral(literal: string, s: string): Option<string> {
    if literal <= s then Some(s[|literal|..]) else None
  }

  /** A keyword and `\s+`. */
  function ReadKeyword(keyword: string, s: string): Option<string> {
    if keyword <= s && |keyword| < |s| && IsSpace(s[|keyword|])
    then Some(SkipSpaces(s[|keyword|..])) else None
  }

  /** `(\d+)\.=(\d+)` */
  function ReadRange(s: string): Option<(nat, nat, string)> {
    var from :- ReadNumber(s);
    var sep :- ReadLiteral(".=", from.1);
    var to :- ReadNumber(sep);
    Some((from.0, to.0, to.1))
  }

  datatype Op = PutRange | PutBefore | PutAfter | Cut

  datatype Chunk = Chunk(op: Op, startLine: nat, endLine: Option<nat>, lines: seq<string>)

  function MatchPutRange(line: string): (r: Option<Chunk>)
    ensures r.Some? ==> r.value.op == PutRange && r.value.lines == []
  {
    var rest :- ReadKeyword("PUT", line);
    var range :- ReadRange(rest);
    var _ :- ReadLiteral(":", range.2);
    Some(Chunk(PutRange, range.0, Some(range.1), []))
  }

  function MatchPutAt(mark: string, op: Op, line: string): (r: Option<Chunk>)
    ensures r.Some? ==> r.value.op == op && r.value.lines == []
  {
    var rest :- ReadKeyword("PUT", line);
    var at :- ReadLiteral(mark, rest);
    var number :- ReadNumber(at);
    var _ :- ReadLiteral(":", number.1);
    Some(Chunk(op, number.0, None, []))
  }

  function MatchCut(line: string): (r: Option<Chunk>)
    ensures r.Some? ==> r.value.op == Cut && r.value.lines == []
  {
    var rest :- ReadKeyword("CUT", line);
    var range :- ReadRange(rest);
    Some(Chunk(Cut, range.0, Some(range.1), []))
  }

  /** The four header patterns, in the order they are tried. */
  function Header(line: string): Option<Chunk> {
    if MatchPutRange(line).Some? then MatchPutRange(line)
    else if MatchPutAt("<", PutBefore, line).Some? then MatchPutAt("<", PutBefore, line)
    else if MatchPutAt(">", PutAfter, line).Some? then MatchPutAt(">", PutAfter, line)
    else MatchCut(line)
  }

  // ---------------------------------------------------------------- the parser

  /** The chunks already closed, and the one that still collects body rows. */
  datatype Progress = Progress(closed: seq<Chunk>, current: Option<Chunk>)

  function Close(p: Progress): seq<Chunk> {
    if p.current.Some? then p.closed + [p.current.value] else p.closed
  }

  function ParseLine(p: Progress, line: string): Progress {
    var header := Header(line);
    if header.Some? then
      if header.value.op == Cut then Progress(Close(p) + [header.value], None)
      else Progress(Close(p), header)
    else if p.current.Some? && "+" <= line then
      var c := p.current.value;
      p.(current := Some(c.(lines := c.lines + [line[1..]])))
    else p
  }

  function ParseLines(p: Progress, lines: seq<string>): Progress
    decreases |lines|
  {
    if lines == [] then p else ParseLines(ParseLine(p, lines[0]), lines[1..])
  }

  function Parsed(text: string): seq<Chunk> {
    Close(ParseLines(Progress([], None), Split(text)))
  }

  lemma {:induction false} ParseLinesAppend(p: Progress, a: seq<string>, b: seq<string>)
    ensures ParseLines(p, a + b) == ParseLines(ParseLines(p, a), b)
    decreases |a|
  {
    if a == [] {
      assert a + b == b;
    } else {
      assert (a + b)[1..] == a[1..] + b;
      ParseLinesAppend(ParseLine(p, a[0]), a[1..], b);
    }
  }

  lemma ParseNothing(p: Progress)
    ensures ParseLines(p, []) == p
  {
  }

  lemma ParseOneMore(p: Progress, lines: seq<string>, i: nat)
    requires i < |lines|
    ensures ParseLines(p, lines[..i + 1]) == ParseLine(ParseLines(p, lines[..i]), lines[i])
  {
    var q := ParseLines(p, lines[..i]);
    assert lines[..i + 1] == lines[..i] + [lines[i]];
    ParseLinesAppend(p, lines[..i], [lines[i]]);
    assert ParseLines(q, [lines[i]]) == ParseLines(ParseLine(q, lines[i]), []);
  }

  /** The parser's loop, with its chunk under construction. */
  method ParseHashlinePatch(patchText: string) returns (chunks: seq<Chunk>)
    ensures chunks == Parsed(patchText)
  {
    hide MatchPutRange, MatchPutAt, MatchCut, ParseLines;
    var lines := Split(patchText);
    chunks := [];
    var currentChunk: Option<Chunk> := None;
    assert lines[..0] == [];
    ParseNothing(Progress([], None));
    for i := 0 to |lines|
      invariant Progress(chunks, currentChunk) == ParseLines(Progress([], None), lines[..i])
    {
      var line := lines[i];
      ParseOneMore(Progress([], None), lines, i);
      var putRange := MatchPutRange(line);
      var putBefore := MatchPutAt("<", PutBefore, line);
      var putAfter := MatchPutAt(">", PutAfter, line);
      var cut := MatchCut(line);
      if putRange.Some? {
        if currentChunk.Some? { chunks := chunks + [currentChunk.value]; }
        currentChunk := putRange;
      } else if putBefore.Some? {
        if currentChunk.Some? { chunks := chunks + [currentChunk.value]; }
        currentChunk := putBefore;
      } else if putAfter.Some? {
        if currentChunk.Some? { chunks := chunks + [currentChunk.value]; }
        currentChunk := putAfter;
      } else if cut.Some? {
        if currentChunk.Some? { chunks := chunks + [currentChunk.value]; }
        chunks := chunks + [cut.value];
        currentChunk := None;
      } else if currentChunk.Some? && "+" <= line {
        var c := currentChunk.value;
        currentChunk := Some(c.(lines := c.lines + [line[1..]]));
      }
    }
    assert lines[..|lines|] == lines;
    if currentChunk.Some? { chunks := chunks + [currentChunk.value]; }
  }

  // ---------------------------------------------------------------- canonical text

  /** A range has both ends, an insertion has one, a cut has no body. */
  predicate Canonical(c: Chunk) {
    && (c.endLine.Some? <==> c.op == PutRange || c.op == Cut)
    && (c.op == Cut ==> c.lines == [])
    && (forall l <- c.lines :: '\n' !in l)
  }

  function HeaderText(c: Chunk): string
    requires Canonical(c)
  {
    match c.op
    case PutRange => "PUT " + Decimal(c.startLine) + ".=" + Decimal(c.endLine.value) + ":"
    case PutBefore => "PUT <" + Decimal(c.startLine) + ":"
    case PutAfter => "PUT >" + Decimal(c.startLine) + ":"
    case Cut => "CUT " + Decimal(c.startLine) + ".=" + Decimal(c.endLine.value)
  }

  function BodyTexts(lines: seq<string>): seq<string> {
    if lines == [] then [] else BodyTexts(lines[..|lines| - 1]) + ["+" + lines[|lines| - 1]]
  }

  function OneChunkTexts(c: Chunk): seq<string>
    requires Canonical(c)
  {
    [HeaderText(c)] + BodyTexts(c.lines)
  }

  function ChunkTexts(chunks: seq<Chunk>): seq<string>
    requires forall c <- chunks :: Canonical(c)
  {
    if chunks == [] then []
    else ChunkTexts(chunks[..|chunks| - 1]) + OneChunkTexts(chunks[|chunks| - 1])
  }

  /** The text of a patch as its grammar writes it. */
  function Render(chunks: seq<Chunk>): string
    requires forall c <- chunks :: Canonical(c)
  {
    Join(ChunkTexts(chunks))
  }

  // ---------------------------------------------------------------- round trip

  predicate StopsDigits(s: string) {
    s == "" || !IsDigit(s[0])
  }

  lemma {:induction false} DigitRunOf(digits: string, rest: string)
    requires AllDigits(digits) && StopsDigits(rest)
    ensures DigitRun(digits + rest) == |digits|
  {
    if digits == "" {
      assert digits + rest == rest;
    } else {
      DigitRunOf(digits[1..], rest);
      assert (digits + rest)[1..] == digits[1..] + rest;
    }
  }

  lemma NumberReadsBack(n: nat, rest: string)
    requires StopsDigits(rest)
    ensures ReadNumber(Decimal(n) + rest) == Some((n, rest))
  {
    var d := Decimal(n);
    DigitRunOf(d, rest);
    ValueOfDecimal(n);
    assert (d + rest)[..|d|] == d && (d + rest)[|d|..] == rest;
  }

  lemma LiteralReadsBack(literal: string, rest: string)
    ensures ReadLiteral(literal, literal + rest) == Some(rest)
  {
  }

  lemma RangeReadsBack(n: nat, m: nat, rest: string)
    requires StopsDigits(rest)
    ensures ReadRange(Decimal(n) + ".=" + Decimal(m) + rest) == Some((n, m, rest))
  {
    var tail := Decimal(m) + rest;
    assert Decimal(n) + ".=" + Decimal(m) + rest == Decimal(n) + (".=" + tail);
    NumberReadsBack(n, ".=" + tail);
    LiteralReadsBack(".=", tail);
    NumberReadsBack(m, rest);
  }

  lemma KeywordReadsBack(keyword: string, rest: string)
    requires rest != "" && !IsSpace(rest[0])
    ensures ReadKeyword(keyword, keyword + " " + rest) == Some(rest)
  {
    var s := keyword + " " + rest;
    assert s[|keyword|..] == " " + rest;
    assert (" " + rest)[1..] == rest;
    assert SkipSpaces(rest) == rest;
  }

  lemma PutRangeReadsBack(n: nat, m: nat)
    ensures Header("PUT" + " " + (Decimal(n) + ".=" + Decimal(m) + ":")) == Some(Chunk(PutRange, n, Some(m), []))
  {
    var rest := Decimal(n) + ".=" + Decimal(m) + ":";
    assert rest[0] == Decimal(n)[0] && IsDigit(Decimal(n)[0]);
    KeywordReadsBack("PUT", rest);
    RangeReadsBack(n, m, ":");
  }

  lemma CutReadsBack(n: nat, m: nat)
    ensures Header("CUT" + " " + (Decimal(n) + ".=" + Decimal(m))) == Some(Chunk(Cut, n, Some(m), []))
  {
    var rest := Decimal(n) + ".=" + Decimal(m);
    var line := "CUT" + " " + rest;
    assert rest[0] == Decimal(n)[0] && IsDigit(Decimal(n)[0]);
    KeywordReadsBack("CUT", rest);
    assert rest + "" == rest;
    RangeReadsBack(n, m, "");
    assert line[0] == 'C';
    assert !("PUT" <= line);
  }

  lemma HeaderReadsBack(c: Chunk)
    requires Canonical(c)
    ensures Header(HeaderText(c)) == Some(c.(lines := []))
  {
    hide Header, Decimal;
    var n := Decimal(c.startLine);
    if c.op == PutRange {
      PutRangeReadsBack(c.startLine, c.endLine.value);
      assert HeaderText(c) == "PUT" + " " + (n + ".=" + Decimal(c.endLine.value) + ":");
    } else if c.op == PutBefore {
      MarkReadsBack("<", PutBefore, c.startLine);
      assert HeaderText(c) == "PUT" + " " + ("<" + n + ":");
    } else if c.op == PutAfter {
      MarkReadsBack(">", PutAfter, c.startLine);
      assert HeaderText(c) == "PUT" + " " + (">" + n + ":");
    } else {
      CutReadsBack(c.startLine, c.endLine.value);
      assert HeaderText(c) == "CUT" + " " + (n + ".=" + Decimal(c.endLine.value));
    }
  }

  lemma MarkReadsBack(mark: string, op: Op, n: nat)
    requires (mark == "<" && op == PutBefore) || (mark == ">" && op == PutAfter)
    ensures Header("PUT" + " " + (mark + Decimal(n) + ":")) == Some(Chunk(op, n, None, []))
  {
    var rest := mark + Decimal(n) + ":";
    KeywordReadsBack("PUT", rest);
    assert rest == mark + (Decimal(n) + ":");
    LiteralReadsBack(mark, Decimal(n) + ":");
    NumberReadsBack(n, ":");
    assert DigitRun(rest) == 0;
  }

  lemma BodyIsNoHeader(line: string)
    ensures Header("+" + line) == None
  {
    assert ("+" + line)[0] == '+';
    assert !("PUT" <= "+" + line) && !("CUT" <= "+" + line);
  }

  lemma {:induction false} BodyParses(p: Progress, header: Chunk, lines: seq<string>)
    requires p.current == Some(header) && header.lines == []
    ensures ParseLines(p, BodyTexts(lines)) == p.(current := Some(header.(lines := lines)))
  {
    if lines != [] {
      var n := |lines| - 1;
      BodyParses(p, header, lines[..n]);
      var last := "+" + lines[n];
      ParseLinesAppend(p, BodyTexts(lines[..n]), [last]);
      BodyIsNoHeader(lines[n]);
      assert last[1..] == lines[n];
      assert lines == lines[..n] + [lines[n]];
      var q := ParseLines(p, BodyTexts(lines[..n]));
      assert ParseLines(q, [last]) == ParseLine(q, last);
    }
  }

  lemma ChunkParses(p: Progress, c: Chunk)
    requires Canonical(c)
    ensures
      Close(ParseLines(p, OneChunkTexts(c))) == Close(p) + [c]
  {
    HeaderReadsBack(c);
    var bare := c.(lines := []);
    var q := ParseLine(p, HeaderText(c));
    assert ([HeaderText(c)] + BodyTexts(c.lines))[1..] == BodyTexts(c.lines);
    if c.op != Cut {
      BodyParses(q, bare, c.lines);
    }
  }

  lemma {:induction false} ChunksParse(chunks: seq<Chunk>)
    requires forall c <- chunks :: Canonical(c)
    ensures Close(ParseLines(Progress([], None), ChunkTexts(chunks))) == chunks
  {
    hide OneChunkTexts, ParseLines, ParseLine, Canonical;
    if chunks == [] {
      ParseNothing(Progress([], None));
    } else {
      var n := |chunks| - 1;
      ChunksParse(chunks[..n]);
      var start := Progress([], None);
      var last := OneChunkTexts(chunks[n]);
      ParseLinesAppend(start, ChunkTexts(chunks[..n]), last);
      ChunkParses(ParseLines(start, ChunkTexts(chunks[..n])), chunks[n]);
      assert chunks == chunks[..n] + [chunks[n]];
    }
  }

  lemma {:induction false} BodyTextsAreLines(lines: seq<string>)
    requires forall l <- lines :: '\n' !in l
    ensures forall l <- BodyTexts(lines) :: '\n' !in l
  {
    if lines != [] {
      BodyTextsAreLines(lines[..|lines| - 1]);
    }
  }

  lemma HeaderTextIsLine(c: Chunk)
    requires Canonical(c)
    ensures '\n' !in HeaderText(c)
  {
  }

  lemma {:induction false} ChunkTextsAreLines(chunks: seq<Chunk>)
    requires forall c <- chunks :: Canonical(c)
    ensures forall l <- ChunkTexts(chunks) :: '\n' !in l
  {
    if chunks != [] {
      var n := |chunks| - 1;
      ChunkTextsAreLines(chunks[..n]);
      HeaderTextIsLine(chunks[n]);
      BodyTextsAreLines(chunks[n].lines);
    }
  }

  /** Parsing the canonical text of any chunk list returns that list. */
  lemma RoundTrip(chunks: seq<Chunk>)
    requires forall c <- chunks :: Canonical(c)
    ensures Parsed(Render(chunks)) == chunks
  {
    if chunks == [] {
      assert Split("") == [""] && Header("") == None;
    } else {
      ChunkTextsAreLines(chunks);
      SplitJoin(ChunkTexts(chunks));
      ChunksParse(chunks);
    }
  }

  lemma HeaderIsCanonical(line: string)
    ensures Header(line).Some? ==> Canonical(Header(line).value)
  {
  }

  lemma LineKeepsCanonical(p: Progress, line: string)
    requires forall c <- Close(p) :: Canonical(c)
    requires p.current.Some? ==> p.current.value.op != Cut
    requires '\n' !in line
    ensures forall c <- Close(ParseLine(p, line)) :: Canonical(c)
    ensures ParseLine(p, line).current.Some? ==> ParseLine(p, line).current.value.op != Cut
  {
    HeaderIsCanonical(line);
    hide Header;
    forall i | 0 <= i < |p.closed| ensures Canonical(p.closed[i]) {
      assert Close(p)[i] == p.closed[i];
    }
    if p.current.Some? {
      assert p.current.value in Close(p);
    }
  }

  lemma {:induction false} ParsesCanonical(p: Progress, lines: seq<string>)
    requires forall c <- Close(p) :: Canonical(c)
    requires p.current.Some? ==> p.current.value.op != Cut
    requires forall l <- lines :: '\n' !in l
    ensures forall c <- Close(ParseLines(p, lines)) :: Canonical(c)
    decreases |lines|
  {
    if lines != [] {
      var q := ParseLine(p, lines[0]);
      LineKeepsCanonical(p, lines[0]);
      ParsesCanonical(q, lines[1..]);
    }
  }

  /** Whatever the text, rewriting it canonically from what the parser made of it
      changes nothing for the parser. */
  lemma Normalises(text: string)
    ensures forall c <- Parsed(text) :: Canonical(c)
    ensures Parsed(Render(Parsed(text))) == Parsed(text)
  {
    ParsesCanonical(Progress([], None), Split(text));
    RoundTrip(Parsed(text));
  }
}
