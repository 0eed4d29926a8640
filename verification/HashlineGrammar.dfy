/** What the patch parser accepts, line by line: which lines are headers, and which lines belong to which chunk. */
module HashlineGrammar {
  import opened Wrappers
  import opened HashlineParser

  // ---------------------------------------------------------------- header lines

  predicate AllSpaces(s: string) {
    forall c <- s :: IsSpace(c)
  }

  /** A run of digits that nothing longer contains, because `rest` does not go on with a digit. */
  predicate Number(digits: string, rest: string) {
    digits != "" && AllDigits(digits) && StopsDigits(rest)
  }

  /** The keyword, white space, then the arguments. */
  predicate Opens(line: string, keyword: string, spaces: string, arguments: string) {
    && line == keyword + spaces + arguments
    && spaces != "" && AllSpaces(spaces) && (arguments == "" || !IsSpace(arguments[0]))
  }

  /** Two numbers with a dot and an equals sign between them, then `rest`. */
  predicate IsRange(arguments: string, from: string, to: string, rest: string) {
    arguments == from + ".=" + to + rest && Number(from, ".=") && Number(to, rest)
  }

  /** The line is a replacement of lines `from` to `to`; whatever follows the colon is ignored. */
  ghost predicate WritesPutRange(line: string, c: Chunk) {
    exists spaces, from, to, rest ::
      && Opens(line, "PUT", spaces, from + ".=" + to + ":" + rest)
      && IsRange(from + ".=" + to + ":" + rest, from, to, ":" + rest)
      && c == Chunk(PutRange, Value(from), Some(Value(to)), [])
  }

  /** The line is an insertion before or after a line. */
  ghost predicate WritesPutAt(mark: string, op: Op, line: string, c: Chunk) {
    exists spaces, at, rest ::
      && Opens(line, "PUT", spaces, mark + at + ":" + rest) && Number(at, ":")
      && c == Chunk(op, Value(at), None, [])
  }

  /** The line is a cut; whatever follows its second number is ignored. */
  ghost predicate WritesCut(line: string, c: Chunk) {
    exists spaces, from, to, rest ::
      && Opens(line, "CUT", spaces, from + ".=" + to + rest)
      && IsRange(from + ".=" + to + rest, from, to, rest)
      && c == Chunk(Cut, Value(from), Some(Value(to)), [])
  }

  lemma {:induction false} SkipsExactly(spaces: string, rest: string)
    requires AllSpaces(spaces) && (rest == "" || !IsSpace(rest[0]))
    ensures SkipSpaces(spaces + rest) == rest
  {
    if spaces == "" {
      assert spaces + rest == rest;
    } else {
      assert spaces[0] in spaces;
      assert (spaces + rest)[1..] == spaces[1..] + rest;
      SkipsExactly(spaces[1..], rest);
    }
  }

  lemma {:induction false} SkipLeaves(s: string) returns (spaces: string)
    ensures s == spaces + SkipSpaces(s) && AllSpaces(spaces)
    ensures SkipSpaces(s) == "" || !IsSpace(SkipSpaces(s)[0])
    ensures s != "" && IsSpace(s[0]) ==> spaces != ""
  {
    if s != "" && IsSpace(s[0]) {
      var more := SkipLeaves(s[1..]);
      spaces := [s[0]] + more;
    } else {
      spaces := "";
    }
  }

  lemma KeywordExactly(keyword: string, line: string, rest: string)
    ensures ReadKeyword(keyword, line) == Some(rest) <==> exists spaces :: Opens(line, keyword, spaces, rest)
  {
    if ReadKeyword(keyword, line) == Some(rest) {
      var spaces := SkipLeaves(line[|keyword|..]);
      assert line == keyword + line[|keyword|..];
      assert Opens(line, keyword, spaces, rest);
    }
    if exists spaces :: Opens(line, keyword, spaces, rest) {
      var spaces :| Opens(line, keyword, spaces, rest);
      assert line[|keyword|..] == spaces + rest;
      assert spaces[0] in spaces;
      SkipsExactly(spaces, rest);
    }
  }

  /** A number is read exactly where one is written. */
  lemma NumberExactly(s: string, digits: string, rest: string)
    requires s == digits + rest && Number(digits, rest)
    ensures ReadNumber(s) == Some((Value(digits), rest))
  {
    DigitRunOf(digits, rest);
    assert s[..|digits|] == digits && s[|digits|..] == rest;
  }

  lemma NumberRead(s: string) returns (digits: string)
    requires ReadNumber(s).Some?
    ensures Number(digits, ReadNumber(s).value.1) && s == digits + ReadNumber(s).value.1
    ensures ReadNumber(s).value.0 == Value(digits)
  {
    digits := s[..DigitRun(s)];
  }

  lemma RangeExactly(s: string, from: string, to: string, rest: string)
    requires IsRange(s, from, to, rest)
    ensures ReadRange(s) == Some((Value(from), Value(to), rest))
  {
    assert s == from + (".=" + (to + rest));
    NumberExactly(s, from, ".=" + (to + rest));
    LiteralReadsBack(".=", to + rest);
    NumberExactly(to + rest, to, rest);
  }

  lemma RangeRead(s: string) returns (from: string, to: string)
    requires ReadRange(s).Some?
    ensures IsRange(s, from, to, ReadRange(s).value.2)
    ensures ReadRange(s).value.0 == Value(from) && ReadRange(s).value.1 == Value(to)
  {
    from := NumberRead(s);
    var after := ReadNumber(s).value.1;
    assert after == ".=" + after[2..];
    to := NumberRead(after[2..]);
    assert s == from + ".=" + to + ReadRange(s).value.2;
  }

  lemma PutRangeExactly(line: string, c: Chunk)
    ensures MatchPutRange(line) == Some(c) <==> WritesPutRange(line, c)
  {
    hide ReadKeyword, ReadRange, Value;
    if MatchPutRange(line) == Some(c) {
      var s := ReadKeyword("PUT", line).value;
      KeywordExactly("PUT", line, s);
      var spaces :| Opens(line, "PUT", spaces, s);
      var from, to := RangeRead(s);
      var rest := ReadRange(s).value.2[1..];
      assert ReadRange(s).value.2 == ":" + rest;
      assert s == from + ".=" + to + ":" + rest;
    }
    if WritesPutRange(line, c) {
      var spaces, from, to, rest :|
        && Opens(line, "PUT", spaces, from + ".=" + to + ":" + rest)
        && IsRange(from + ".=" + to + ":" + rest, from, to, ":" + rest)
        && c == Chunk(PutRange, Value(from), Some(Value(to)), []);
      var s := from + ".=" + to + ":" + rest;
      KeywordExactly("PUT", line, s);
      RangeExactly(s, from, to, ":" + rest);
      LiteralReadsBack(":", rest);
    }
  }

  lemma PutAtExactly(mark: string, op: Op, line: string, c: Chunk)
    ensures MatchPutAt(mark, op, line) == Some(c) <==> WritesPutAt(mark, op, line, c)
  {
    hide ReadKeyword, ReadNumber, Value;
    if MatchPutAt(mark, op, line) == Some(c) {
      var s := ReadKeyword("PUT", line).value;
      KeywordExactly("PUT", line, s);
      var spaces :| Opens(line, "PUT", spaces, s);
      var t := ReadLiteral(mark, s).value;
      var at := NumberRead(t);
      var rest := ReadNumber(t).value.1[1..];
      assert ReadNumber(t).value.1 == ":" + rest;
      assert s == mark + t && s == mark + at + ":" + rest;
    }
    if WritesPutAt(mark, op, line, c) {
      var spaces, at, rest :|
        && Opens(line, "PUT", spaces, mark + at + ":" + rest) && Number(at, ":")
        && c == Chunk(op, Value(at), None, []);
      var s := mark + at + ":" + rest;
      KeywordExactly("PUT", line, s);
      assert s == mark + (at + (":" + rest));
      LiteralReadsBack(mark, at + (":" + rest));
      NumberExactly(at + (":" + rest), at, ":" + rest);
      LiteralReadsBack(":", rest);
    }
  }

  lemma CutExactly(line: string, c: Chunk)
    ensures MatchCut(line) == Some(c) <==> WritesCut(line, c)
  {
    hide ReadKeyword, ReadRange, Value;
    if MatchCut(line) == Some(c) {
      var s := ReadKeyword("CUT", line).value;
      KeywordExactly("CUT", line, s);
      var spaces :| Opens(line, "CUT", spaces, s);
      var from, to := RangeRead(s);
      assert s == from + ".=" + to + ReadRange(s).value.2;
    }
    if WritesCut(line, c) {
      var spaces, from, to, rest :|
        && Opens(line, "CUT", spaces, from + ".=" + to + rest)
        && IsRange(from + ".=" + to + rest, from, to, rest)
        && c == Chunk(Cut, Value(from), Some(Value(to)), []);
      KeywordExactly("CUT", line, from + ".=" + to + rest);
      RangeExactly(from + ".=" + to + rest, from, to, rest);
    }
  }

  /** No line is a header in two ways. */
  lemma OnePatternOnly(line: string)
    ensures MatchPutAt("<", PutBefore, line).Some? ==> MatchPutRange(line).None?
    ensures MatchPutAt(">", PutAfter, line).Some? ==>
              MatchPutRange(line).None? && MatchPutAt("<", PutBefore, line).None?
    ensures MatchCut(line).Some? ==>
              MatchPutRange(line).None? && MatchPutAt("<", PutBefore, line).None? &&
              MatchPutAt(">", PutAfter, line).None?
  {
    hide Value, SkipSpaces;
    if MatchCut(line).Some? { assert line[0] == 'C' && "PUT"[0] == 'P'; }
  }

  /** A line is a header exactly when it is written as one of the four patterns, and says what it is written to say: white
      space of any kind and length after the keyword, any number of leading zeros, and any text behind. */
  lemma HeaderExactly(line: string, c: Chunk)
    ensures Header(line) == Some(c) <==>
            WritesPutRange(line, c) || WritesPutAt("<", PutBefore, line, c) || WritesPutAt(">", PutAfter, line, c) ||
            WritesCut(line, c)
  {
    hide MatchPutRange, MatchPutAt, MatchCut, WritesPutRange, WritesPutAt, WritesCut;
    OnePatternOnly(line);
    PutRangeExactly(line, c);
    PutAtExactly("<", PutBefore, line, c);
    PutAtExactly(">", PutAfter, line, c);
    CutExactly(line, c);
  }

  // ---------------------------------------------------------------- whole texts

  /** The rows among some lines, without their plus signs. */
  function Rows(lines: seq<string>): seq<string> {
    if lines == [] then []
    else
      var last := lines[|lines| - 1];
      Rows(lines[..|lines| - 1]) + if "+" <= last then [last[1..]] else []
  }

  /** Where the headers stand. */
  function Headers(lines: seq<string>): (hs: seq<nat>)
    ensures forall j | 0 <= j < |hs| :: hs[j] < |lines| && Header(lines[hs[j]]).Some?
    ensures forall i, j | 0 <= i < j < |hs| :: hs[i] < hs[j]
  {
    if lines == [] then []
    else
      var n := |lines| - 1;
      Headers(lines[..n]) + if Header(lines[n]).Some? then [n] else []
  }

  lemma {:induction false} AllHeaders(lines: seq<string>, k: nat)
    requires k < |lines| && Header(lines[k]).Some?
    ensures k in Headers(lines)
    decreases |lines|
  {
    var n := |lines| - 1;
    if k == n {
      assert Headers(lines)[|Headers(lines[..n])|] == n;
    } else {
      AllHeaders(lines[..n], k);
    }
  }

  /** The chunk of header number j: what the header says, with the rows up to the next header, or to the end of the text,
      as its lines. A cut takes none. */
  function ChunkOf(lines: seq<string>, j: nat): Chunk
    requires j < |Headers(lines)|
  {
    var hs := Headers(lines);
    var c := Header(lines[hs[j]]).value;
    var end := if j + 1 < |hs| then hs[j + 1] else |lines|;
    if c.op == Cut then c else c.(lines := Rows(lines[hs[j] + 1..end]))
  }

  function ChunksOf(lines: seq<string>): seq<Chunk> {
    seq(|Headers(lines)|, j requires 0 <= j < |Headers(lines)| => ChunkOf(lines, j))
  }

  /** What the parser has after some lines. */
  predicate ReadSoFar(p: Progress, lines: seq<string>) {
    && Close(p) == ChunksOf(lines)
    && (p.current.Some? <==> ChunksOf(lines) != [] && ChunksOf(lines)[|ChunksOf(lines)| - 1].op != Cut)
  }

  lemma HeadersSnoc(lines: seq<string>, line: string)
    ensures Headers(lines + [line]) == Headers(lines) + if Header(line).Some? then [|lines|] else []
  {
    assert (lines + [line])[..|lines|] == lines;
  }

  /** A chunk is the same with one more line, unless it is the last and the line is a row for it. */
  lemma ChunkSnoc(lines: seq<string>, line: string, j: nat)
    requires j < |Headers(lines)|
    ensures
      var more, last := lines + [line], j == |Headers(lines)| - 1;
      j < |Headers(more)| &&
      ChunkOf(more, j) ==
        var c := ChunkOf(lines, j);
        if last && Header(line).None? && c.op != Cut && "+" <= line then c.(lines := c.lines + [line[1..]]) else c
  {
    hide Header, Headers;
    var more, hs := lines + [line], Headers(lines);
    HeadersSnoc(lines, line);
    var from := hs[j] + 1;
    assert more[hs[j]] == lines[hs[j]];
    if j + 1 < |hs| {
      assert more[from..hs[j + 1]] == lines[from..hs[j + 1]];
    } else if Header(line).Some? {
      assert more[from..|lines|] == lines[from..|lines|];
    } else {
      assert more[from..|more|] == lines[from..|lines|] + [line];
      RowsSnoc(lines[from..|lines|], line);
    }
  }

  lemma RowsSnoc(lines: seq<string>, line: string)
    ensures Rows(lines + [line]) == Rows(lines) + if "+" <= line then [line[1..]] else []
  {
    assert (lines + [line])[..|lines|] == lines;
  }

  lemma ReadLine(p: Progress, lines: seq<string>, line: string)
    requires ReadSoFar(p, lines)
    ensures ReadSoFar(ParseLine(p, line), lines + [line])
  {
    hide Header, Headers, ChunkOf;
    var more, n := lines + [line], |Headers(lines)|;
    HeadersSnoc(lines, line);
    forall j | 0 <= j < n
      ensures ChunkOf(more, j) ==
        var c := ChunkOf(lines, j);
        if j == n - 1 && Header(line).None? && c.op != Cut && "+" <= line then c.(lines := c.lines + [line[1..]]) else c
    {
      ChunkSnoc(lines, line, j);
    }
    if Header(line).Some? {
      NewChunk(lines, line);
      assert ChunksOf(more) == ChunksOf(lines) + [Header(line).value];
    } else if n > 0 {
      assert ChunksOf(more) == ChunksOf(lines)[n - 1 := ChunkOf(more, n - 1)];
    } else {
      assert ChunksOf(more) == [];
    }
  }

  lemma NewChunk(lines: seq<string>, line: string)
    requires Header(line).Some?
    ensures
      var more, n := lines + [line], |Headers(lines)|;
      |Headers(more)| == n + 1 && ChunkOf(more, n) == Header(line).value
  {
    var more := lines + [line];
    HeadersSnoc(lines, line);
    HeaderBare(line);
    assert more[|lines| + 1..|more|] == [];
  }

  lemma HeaderBare(line: string)
    ensures Header(line).Some? ==> Header(line).value.lines == []
  {
  }

  lemma {:induction false} LinesRead(lines: seq<string>)
    ensures ReadSoFar(ParseLines(Progress([], None), lines), lines)
  {
    hide ParseLine, ParseLines, ReadSoFar;
    if lines == [] {
      ParseNothing(Progress([], None));
      NothingRead();
    } else {
      var n := |lines| - 1;
      LinesRead(lines[..n]);
      ParseOneMore(Progress([], None), lines, n);
      assert lines[..n + 1] == lines && lines[..n] + [lines[n]] == lines;
      ReadLine(ParseLines(Progress([], None), lines[..n]), lines[..n], lines[n]);
    }
  }

  lemma NothingRead()
    ensures ReadSoFar(Progress([], None), [])
  {
  }

  /** What the parser makes of any text at all: one chunk for every header line, in order, with the rows between it and the
      next header; rows in front of the first header or behind a cut, and all other lines, are ignored. */
  lemma ParsedExactly(text: string)
    ensures Parsed(text) == ChunksOf(Split(text))
  {
    LinesRead(Split(text));
  }
}
