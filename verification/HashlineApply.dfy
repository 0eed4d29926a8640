/** Applying a parsed patch: one splice per chunk, from the last start line to the
    first. */
module HashlineApply {
  import opened Wrappers
  import opened HashlineParser

  // ---------------------------------------------------------------- the algorithm

  datatype PatchError = InvalidStart(line: nat, size: nat) | InvalidRange(from: nat, to: nat)

  datatype Outcome = Outcome(doc: seq<string>, touched: int, error: Option<PatchError>)

  datatype ApplyResult = ApplyResult(content: string, linesModified: int, success: bool, error: Option<PatchError>)

  /** JavaScript's doc.splice(at, count, ...lines), for at >= 0. */
  function Splice(doc: seq<string>, at: nat, count: int, lines: seq<string>): seq<string> {
    var start := if at > |doc| then |doc| else at;
    var stop := if count <= 0 then start else if start + count > |doc| then |doc| else start + count;
    doc[..start] + lines + doc[stop..]
  }

  function EndLine(c: Chunk): nat {
    if c.endLine.Some? then c.endLine.value else c.startLine
  }

  function DeleteCount(c: Chunk): int {
    EndLine(c) - c.startLine + 1
  }

  function Max(a: int, b: int): int {
    if a < b then b else a
  }

  /** What one chunk adds to the modified-line counter. */
  function Touched(c: Chunk): int {
    match c.op
    case PutRange => Max(DeleteCount(c), |c.lines|)
    case PutBefore => |c.lines|
    case PutAfter => |c.lines|
    case Cut => DeleteCount(c)
  }

  function Refusal(doc: seq<string>, c: Chunk): Option<PatchError> {
    if c.startLine < 1 || c.startLine > |doc| + 1 then Some(InvalidStart(c.startLine, |doc|))
    else if c.op == PutRange && (DeleteCount(c) < 0 || c.startLine - 1 + DeleteCount(c) > |doc|)
    then Some(InvalidRange(c.startLine, EndLine(c)))
    else None
  }

  function Edited(doc: seq<string>, c: Chunk): seq<string>
    requires c.startLine >= 1
  {
    match c.op
    case PutRange => Splice(doc, c.startLine - 1, DeleteCount(c), c.lines)
    case PutBefore => Splice(doc, c.startLine - 1, 0, c.lines)
    case PutAfter => Splice(doc, c.startLine, 0, c.lines)
    case Cut => Splice(doc, c.startLine - 1, DeleteCount(c), [])
  }

  /** The state after the chunks have been applied one after the other, stopping at
      the first that is refused. */
  function Apply(doc: seq<string>, chunks: seq<Chunk>): Outcome {
    if chunks == [] then Outcome(doc, 0, None)
    else
      var before := Apply(doc, chunks[..|chunks| - 1]);
      var c := chunks[|chunks| - 1];
      if before.error.Some? then before
      else
        var refusal := Refusal(before.doc, c);
        if refusal.Some? then before.(error := refusal)
        else Outcome(Edited(before.doc, c), before.touched + Touched(c), None)
  }

  /** A stable sort by falling start line. */
  function Insert(c: Chunk, sorted: seq<Chunk>): seq<Chunk> {
    if sorted == [] then [c]
    else if sorted[|sorted| - 1].startLine < c.startLine
    then Insert(c, sorted[..|sorted| - 1]) + [sorted[|sorted| - 1]]
    else sorted + [c]
  }

  function SortDescending(chunks: seq<Chunk>): seq<Chunk> {
    if chunks == [] then []
    else Insert(chunks[|chunks| - 1], SortDescending(chunks[..|chunks| - 1]))
  }

  function Applied(original: string, chunks: seq<Chunk>): ApplyResult {
    if chunks == [] then ApplyResult(original, 0, true, None)
    else
      var out := Apply(Split(original), SortDescending(chunks));
      if out.error.Some? then ApplyResult(original, 0, false, out.error)
      else ApplyResult(Join(out.doc), out.touched, true, None)
  }

  lemma {:induction false} RefusalSticks(doc: seq<string>, chunks: seq<Chunk>, k: nat)
    requires k <= |chunks| && Apply(doc, chunks[..k]).error.Some?
    ensures Apply(doc, chunks).error == Apply(doc, chunks[..k]).error
    decreases |chunks|
  {
    if k < |chunks| {
      assert chunks[..|chunks| - 1][..k] == chunks[..k];
      RefusalSticks(doc, chunks[..|chunks| - 1], k);
    } else {
      assert chunks[..k] == chunks;
    }
  }

  lemma ApplyNothing(doc: seq<string>)
    ensures Apply(doc, []) == Outcome(doc, 0, None)
  {
  }

  lemma ApplyNext(doc: seq<string>, chunks: seq<Chunk>, i: nat)
    requires i < |chunks|
    ensures
      var before := Apply(doc, chunks[..i]);
      before.error == None ==>
        Apply(doc, chunks[..i + 1]) ==
          if Refusal(before.doc, chunks[i]).Some? then before.(error := Refusal(before.doc, chunks[i]))
          else Outcome(Edited(before.doc, chunks[i]), before.touched + Touched(chunks[i]), None)
  {
    assert chunks[..i + 1][..i] == chunks[..i];
    hide Refusal, Edited, Touched;
  }

  method ApplyHashlinePatch(original: string, patchText: string) returns (result: ApplyResult)
    ensures result == Applied(original, Parsed(patchText))
  {
    hide Splice, Apply, SortDescending, Split, Join, Parsed, Max, EndLine;
    var chunks := ParseHashlinePatch(patchText);
    if |chunks| == 0 {
      return ApplyResult(original, 0, true, None);
    }
    var docLines := Split(original);
    var totalModified := 0;
    var sortedChunks := SortDescending(chunks);
    ApplyNothing(docLines);
    assert sortedChunks[..0] == [];
    for i := 0 to |sortedChunks|
      invariant Apply(Split(original), sortedChunks[..i]) == Outcome(docLines, totalModified, None)
    {
      var c := sortedChunks[i];
      ApplyNext(Split(original), sortedChunks, i);
      if c.startLine < 1 || c.startLine > |docLines| + 1 {
        RefusalSticks(Split(original), sortedChunks, i + 1);
        return ApplyResult(original, 0, false, Some(InvalidStart(c.startLine, |docLines|)));
      }
      var zeroIndex := c.startLine - 1;
      if c.op == PutRange {
        var end := EndLine(c);
        var deleteCount := end - c.startLine + 1;
        if deleteCount < 0 || zeroIndex + deleteCount > |docLines| {
          RefusalSticks(Split(original), sortedChunks, i + 1);
          return ApplyResult(original, 0, false, Some(InvalidRange(c.startLine, end)));
        }
        docLines := Splice(docLines, zeroIndex, deleteCount, c.lines);
        totalModified := totalModified + Max(deleteCount, |c.lines|);
      } else if c.op == PutBefore {
        docLines := Splice(docLines, zeroIndex, 0, c.lines);
        totalModified := totalModified + |c.lines|;
      } else if c.op == PutAfter {
        docLines := Splice(docLines, zeroIndex + 1, 0, c.lines);
        totalModified := totalModified + |c.lines|;
      } else {
        var deleteCount := EndLine(c) - c.startLine + 1;
        docLines := Splice(docLines, zeroIndex, deleteCount, []);
        totalModified := totalModified + deleteCount;
      }
    }
    assert sortedChunks[..|sortedChunks|] == sortedChunks;
    SortIsPermutation(chunks);
    result := ApplyResult(Join(docLines), totalModified, true, None);
  }

  // ---------------------------------------------------------------- the sorting

  predicate Descending(chunks: seq<Chunk>) {
    forall i, j :: 0 <= i < j < |chunks| ==> chunks[i].startLine >= chunks[j].startLine
  }

  predicate DistinctStarts(chunks: seq<Chunk>) {
    forall i, j :: 0 <= i < j < |chunks| ==> chunks[i].startLine != chunks[j].startLine
  }

  lemma {:induction false} InsertIsPermutation(c: Chunk, sorted: seq<Chunk>)
    ensures multiset(Insert(c, sorted)) == multiset(sorted) + multiset{c}
  {
    if sorted != [] {
      assert sorted == sorted[..|sorted| - 1] + [sorted[|sorted| - 1]];
      InsertIsPermutation(c, sorted[..|sorted| - 1]);
    }
  }

  lemma {:induction false} SortIsPermutation(chunks: seq<Chunk>)
    ensures multiset(SortDescending(chunks)) == multiset(chunks)
    ensures |SortDescending(chunks)| == |chunks|
  {
    if chunks != [] {
      var n := |chunks| - 1;
      assert chunks == chunks[..n] + [chunks[n]];
      SortIsPermutation(chunks[..n]);
      InsertIsPermutation(chunks[n], SortDescending(chunks[..n]));
    }
    assert |multiset(SortDescending(chunks))| == |SortDescending(chunks)|;
  }

  predicate AtLeast(chunks: seq<Chunk>, line: nat) {
    forall c <- chunks :: c.startLine >= line
  }

  lemma {:induction false} InsertAtLeast(c: Chunk, sorted: seq<Chunk>, line: nat)
    requires AtLeast(sorted, line) && c.startLine >= line
    ensures AtLeast(Insert(c, sorted), line)
  {
    if sorted != [] {
      InsertAtLeast(c, sorted[..|sorted| - 1], line);
    }
  }

  lemma DescendingSnoc(chunks: seq<Chunk>, c: Chunk)
    requires Descending(chunks) && AtLeast(chunks, c.startLine)
    ensures Descending(chunks + [c])
  {
  }

  lemma DescendingLast(chunks: seq<Chunk>)
    requires Descending(chunks) && chunks != []
    ensures Descending(chunks[..|chunks| - 1]) && AtLeast(chunks, chunks[|chunks| - 1].startLine)
    ensures AtLeast(chunks[..|chunks| - 1], chunks[|chunks| - 1].startLine)
  {
  }

  lemma {:induction false} InsertSorts(c: Chunk, sorted: seq<Chunk>)
    requires Descending(sorted)
    ensures Descending(Insert(c, sorted))
  {
    hide Descending, AtLeast;
    if sorted == [] {
      NoneDescending(c);
    } else {
      var n := |sorted| - 1;
      DescendingLast(sorted);
      if sorted[n].startLine < c.startLine {
        InsertSorts(c, sorted[..n]);
        InsertAtLeast(c, sorted[..n], sorted[n].startLine);
        DescendingSnoc(Insert(c, sorted[..n]), sorted[n]);
      } else {
        LowerStart(sorted, sorted[n].startLine, c.startLine);
        DescendingSnoc(sorted, c);
      }
    }
  }

  lemma NoneDescending(c: Chunk)
    ensures Descending([]) && Descending([c])
  {
  }

  lemma LowerStart(chunks: seq<Chunk>, high: nat, low: nat)
    requires AtLeast(chunks, high) && low <= high
    ensures AtLeast(chunks, low)
  {
  }

  lemma {:induction false} SortSorts(chunks: seq<Chunk>)
    ensures Descending(SortDescending(chunks))
  {
    if chunks != [] {
      SortSorts(chunks[..|chunks| - 1]);
      InsertSorts(chunks[|chunks| - 1], SortDescending(chunks[..|chunks| - 1]));
    }
  }

  lemma StartsOf(a: seq<Chunk>, b: seq<Chunk>)
    requires multiset(a) == multiset(b) && DistinctStarts(a)
    ensures DistinctStarts(b)
  {
    forall i, j | 0 <= i < j < |b| ensures b[i].startLine != b[j].startLine {
      if b[i] == b[j] {
        SameTwice(b, i, j);
        TwiceInside(a, b[i]);
      } else {
        assert b[i] in multiset(a) && b[j] in multiset(a);
        var p :| 0 <= p < |a| && a[p] == b[i];
        var q :| 0 <= q < |a| && a[q] == b[j];
        assert p < q || q < p;
      }
    }
  }

  lemma SameTwice(s: seq<Chunk>, i: nat, j: nat)
    requires i < j < |s| && s[i] == s[j]
    ensures multiset(s)[s[i]] >= 2
  {
    assert s == s[..j] + s[j..];
    assert s[..j][i] == s[i] && s[j..][0] == s[i];
    assert s[i] in multiset(s[..j]) && s[i] in multiset(s[j..]);
  }

  lemma {:induction false} TwiceInside(s: seq<Chunk>, c: Chunk)
    requires multiset(s)[c] >= 2
    ensures !DistinctStarts(s)
  {
    var i :| 0 <= i < |s| && s[i] == c;
    assert s == s[..i] + [c] + s[i + 1..];
    assert c in multiset(s[..i]) || c in multiset(s[i + 1..]);
    if c in s[..i] {
      var j :| 0 <= j < i && s[j] == c;
    } else {
      var j :| 0 <= j < |s| - i - 1 && s[i + 1..][j] == c;
      assert s[i + 1 + j] == c;
    }
  }

  lemma SameLast(a: seq<Chunk>, b: seq<Chunk>)
    requires Descending(a) && Descending(b) && DistinctStarts(a)
    requires multiset(a) == multiset(b) && |a| > 0 && |b| > 0
    ensures a[|a| - 1] == b[|b| - 1]
  {
    assert a[|a| - 1] in multiset(b) && b[|b| - 1] in multiset(a);
    var i :| 0 <= i < |b| && b[i] == a[|a| - 1];
    var j :| 0 <= j < |a| && a[j] == b[|b| - 1];
    assert a[|a| - 1].startLine >= b[|b| - 1].startLine;
    assert a[j].startLine >= a[|a| - 1].startLine;
  }

  lemma PrefixMultiset(a: seq<Chunk>)
    requires |a| > 0
    ensures multiset(a) == multiset(a[..|a| - 1]) + multiset{a[|a| - 1]}
  {
    assert a == a[..|a| - 1] + [a[|a| - 1]];
  }

  lemma PrefixesPermute(a: seq<Chunk>, b: seq<Chunk>)
    requires multiset(a) == multiset(b) && |a| > 0 && |b| > 0
    requires a[|a| - 1] == b[|b| - 1]
    ensures multiset(a[..|a| - 1]) == multiset(b[..|b| - 1])
  {
    var c := a[|a| - 1];
    PrefixMultiset(a);
    PrefixMultiset(b);
    assert multiset(a[..|a| - 1]) == multiset(a) - multiset{c};
    assert multiset(b[..|b| - 1]) == multiset(b) - multiset{c};
  }

  lemma SameSize(a: seq<Chunk>, b: seq<Chunk>)
    requires multiset(a) == multiset(b)
    ensures |a| == |b|
  {
    assert |a| == |multiset(a)| && |b| == |multiset(b)|;
  }

  /** With distinct start lines there is only one descending order. */
  lemma {:induction false} OneOrder(a: seq<Chunk>, b: seq<Chunk>)
    requires Descending(a) && Descending(b) && DistinctStarts(a)
    requires multiset(a) == multiset(b)
    ensures a == b
    decreases |a|
  {
    SameSize(a, b);
    if |a| > 0 {
      var n := |a| - 1;
      SameLast(a, b);
      PrefixesPermute(a, b);
      OneOrder(a[..n], b[..n]);
      assert a == a[..n] + [a[n]] && b == b[..n] + [b[n]];
    }
  }

  /** Patches with the same chunks, in whatever order, do the same to a document:
      same text, same counter, same refusal. */
  lemma OrderIrrelevant(original: string, p: seq<Chunk>, q: seq<Chunk>)
    requires multiset(p) == multiset(q) && DistinctStarts(p)
    ensures Applied(original, p) == Applied(original, q)
  {
    SortIsPermutation(p);
    SortIsPermutation(q);
    SortSorts(p);
    SortSorts(q);
    StartsOf(p, SortDescending(p));
    OneOrder(SortDescending(p), SortDescending(q));
    assert |p| == |multiset(p)| == |multiset(q)| == |q|;
  }

  /** With a shared start line the order of the patch shows in the document. */
  lemma SharedStartOrderMatters()
    ensures
      var a := Chunk(PutBefore, 1, None, ["a"]);
      var b := Chunk(PutBefore, 1, None, ["b"]);
      Apply(["x"], SortDescending([a, b])).doc == ["b", "a", "x"]
      && Apply(["x"], SortDescending([b, a])).doc == ["a", "b", "x"]
  {
    TwoInserts("a", "b");
    TwoInserts("b", "a");
  }

  lemma TwoInserts(s: string, t: string)
    ensures
      var a := Chunk(PutBefore, 1, None, [s]);
      var b := Chunk(PutBefore, 1, None, [t]);
      Apply(["x"], SortDescending([a, b])).doc == [t, s, "x"]
  {
    var a := Chunk(PutBefore, 1, None, [s]);
    var b := Chunk(PutBefore, 1, None, [t]);
    assert [a, b][..1] == [a] && [a][..0] == [];
    assert SortDescending([a]) == [a] && SortDescending([a, b]) == [a, b];
    assert Apply(["x"], [a][..0]) == Outcome(["x"], 0, None);
    assert Apply(["x"], [a]).doc == [s, "x"];
  }

  // ---------------------------------------------------------------- the simultaneous edit

  /** In original numbering a chunk replaces the lines in [From, To), counted from 0.
      An insertion after the line past the end lands at the end. */
  function From(c: Chunk, size: nat): nat {
    if c.op == PutAfter then (if c.startLine > size then size else c.startLine)
    else if c.startLine == 0 then 0 else c.startLine - 1
  }

  function To(c: Chunk, size: nat): (to: nat)
    ensures From(c, size) <= to
  {
    if (c.op == PutRange || c.op == Cut) && EndLine(c) > From(c, size) then EndLine(c) else From(c, size)
  }

  function NewLines(c: Chunk): seq<string> {
    if c.op == Cut then [] else c.lines
  }

  /** A valid start, an end inside the document and, for a replacement, no backward range. */
  predicate InBounds(c: Chunk, size: nat) {
    && 1 <= c.startLine <= size + 1
    && To(c, size) <= size
    && (c.op == PutRange ==> DeleteCount(c) >= 0)
  }

  /** c ends before the place where d starts. */
  predicate Before(c: Chunk, d: Chunk, size: nat) {
    c.startLine < d.startLine && To(c, size) <= From(d, size)
  }

  predicate Disjoint(c: Chunk, d: Chunk, size: nat) {
    Before(c, d, size) || Before(d, c, size)
  }

  /** Distinct start lines, ranges in bounds, no overlap, and no insertion strictly
      inside a replaced range. */
  predicate Fits(chunks: seq<Chunk>, size: nat) {
    && (forall c <- chunks :: InBounds(c, size))
    && (forall i, j :: 0 <= i < j < |chunks| ==> Disjoint(chunks[i], chunks[j], size))
  }

  /** The texts anchored at a gap, lowest start line first (chunks are in falling order). */
  function TextAt(chunks: seq<Chunk>, gap: nat, size: nat): seq<string> {
    if chunks == [] then []
    else
      var c := chunks[|chunks| - 1];
      (if From(c, size) == gap then NewLines(c) else []) + TextAt(chunks[..|chunks| - 1], gap, size)
  }

  predicate Deleted(chunks: seq<Chunk>, line: nat, size: nat) {
    exists c <- chunks :: From(c, size) <= line < To(c, size)
  }

  /** At a gap: the texts anchored there, then the original line unless a chunk deletes it. */
  function Piece(doc: seq<string>, chunks: seq<Chunk>, gap: nat): seq<string>
    requires gap <= |doc|
  {
    TextAt(chunks, gap, |doc|) + (if gap == |doc| || Deleted(chunks, gap, |doc|) then [] else [doc[gap]])
  }

  /** The document from a gap on, every edit read off in original line numbers. */
  function Simultaneous(doc: seq<string>, chunks: seq<Chunk>, gap: nat): seq<string>
    requires gap <= |doc|
    decreases |doc| - gap
  {
    Piece(doc, chunks, gap) + (if gap == |doc| then [] else Simultaneous(doc, chunks, gap + 1))
  }

  lemma Unroll(doc: seq<string>, chunks: seq<Chunk>, gap: nat)
    requires gap < |doc|
    ensures Simultaneous(doc, chunks, gap) == Piece(doc, chunks, gap) + Simultaneous(doc, chunks, gap + 1)
  {
  }

  lemma UnrollEnd(doc: seq<string>, chunks: seq<Chunk>)
    ensures Simultaneous(doc, chunks, |doc|) == Piece(doc, chunks, |doc|)
  {
  }

  lemma Associates(a: seq<string>, b: seq<string>, c: seq<string>)
    ensures (a + b) + c == a + (b + c)
  {
  }

  lemma NothingInFront(s: seq<string>)
    ensures [] + s == s
  {
  }

  /** Nothing happens at or after `gap`. */
  predicate Quiet(c: Chunk, gap: nat, size: nat) {
    From(c, size) < gap && To(c, size) <= gap
  }

  lemma TextAtAdded(chunks: seq<Chunk>, c: Chunk, gap: nat, size: nat)
    ensures From(c, size) == gap ==> TextAt(chunks + [c], gap, size) == NewLines(c) + TextAt(chunks, gap, size)
    ensures From(c, size) != gap ==> TextAt(chunks + [c], gap, size) == TextAt(chunks, gap, size)
  {
  }

  /** What one more chunk, with a lower start than the others, does to a gap: outside its
      range nothing, at an insertion its text comes first. */
  lemma PieceOutside(doc: seq<string>, chunks: seq<Chunk>, c: Chunk, gap: nat)
    requires gap <= |doc| && From(c, |doc|) != gap
    requires gap < From(c, |doc|) || To(c, |doc|) <= gap
    ensures Piece(doc, chunks + [c], gap) == Piece(doc, chunks, gap)
  {
  }

  lemma PieceAtInsertion(doc: seq<string>, chunks: seq<Chunk>, c: Chunk)
    requires From(c, |doc|) == To(c, |doc|) <= |doc|
    ensures Piece(doc, chunks + [c], From(c, |doc|)) == NewLines(c) + Piece(doc, chunks, From(c, |doc|))
  {
    hide Deleted, From, To, TextAt, NewLines;
    TextAtAdded(chunks, c, From(c, |doc|), |doc|);
    AddedDeletes(chunks, c, From(c, |doc|), |doc|);
  }

  /** Inside its range, with every other chunk further on, only its own text is left. */
  lemma PieceInside(doc: seq<string>, chunks: seq<Chunk>, c: Chunk, gap: nat)
    requires From(c, |doc|) <= gap < To(c, |doc|) <= |doc|
    requires AllFrom(chunks, gap + 1, |doc|)
    ensures Piece(doc, chunks + [c], gap) == if From(c, |doc|) == gap then NewLines(c) else []
  {
    hide Deleted, From, To, TextAt, NewLines;
    TextAtAdded(chunks, c, gap, |doc|);
    AddedDeletes(chunks, c, gap, |doc|);
    NoTextBefore(chunks, gap, |doc|);
  }

  /** Adding a chunk that is finished before `gap` does not change what follows. */
  lemma {:induction false} QuietChunk(doc: seq<string>, chunks: seq<Chunk>, c: Chunk, gap: nat)
    requires gap <= |doc| && Quiet(c, gap, |doc|)
    ensures Simultaneous(doc, chunks + [c], gap) == Simultaneous(doc, chunks, gap)
    decreases |doc| - gap
  {
    hide Piece, Simultaneous, From, To;
    PieceOutside(doc, chunks, c, gap);
    if gap < |doc| {
      Unroll(doc, chunks, gap);
      Unroll(doc, chunks + [c], gap);
      QuietChunk(doc, chunks, c, gap + 1);
    } else {
      UnrollEnd(doc, chunks);
      UnrollEnd(doc, chunks + [c]);
    }
  }

  lemma AddedDeletes(chunks: seq<Chunk>, c: Chunk, line: nat, size: nat)
    ensures Deleted(chunks + [c], line, size) <==>
            Deleted(chunks, line, size) || From(c, size) <= line < To(c, size)
  {
  }

  predicate AllFrom(chunks: seq<Chunk>, gap: nat, size: nat) {
    forall c <- chunks :: From(c, size) >= gap
  }

  lemma AllFromLower(chunks: seq<Chunk>, high: nat, low: nat, size: nat)
    requires AllFrom(chunks, high, size) && low <= high
    ensures AllFrom(chunks, low, size)
  {
  }

  lemma {:induction false} NoTextBefore(chunks: seq<Chunk>, gap: nat, size: nat)
    requires AllFrom(chunks, gap + 1, size)
    ensures TextAt(chunks, gap, size) == []
  {
    if chunks != [] {
      assert chunks[|chunks| - 1] in chunks;
      NoTextBefore(chunks[..|chunks| - 1], gap, size);
    }
  }

  lemma PieceBefore(doc: seq<string>, chunks: seq<Chunk>, gap: nat)
    requires gap < |doc| && AllFrom(chunks, gap + 1, |doc|)
    ensures Piece(doc, chunks, gap) == [doc[gap]]
  {
    NoTextBefore(chunks, gap, |doc|);
  }

  /** Up to the first edit the document is unchanged. */
  lemma {:induction false} Untouched(doc: seq<string>, chunks: seq<Chunk>, gap: nat, first: nat)
    requires gap <= first <= |doc| && AllFrom(chunks, first, |doc|)
    ensures Simultaneous(doc, chunks, gap) == doc[gap..first] + Simultaneous(doc, chunks, first)
    decreases first - gap
  {
    hide Piece, Simultaneous, From;
    if gap < first {
      AllFromLower(chunks, first, gap + 1, |doc|);
      PieceBefore(doc, chunks, gap);
      Unroll(doc, chunks, gap);
      Untouched(doc, chunks, gap + 1, first);
      assert doc[gap..first] == [doc[gap]] + doc[gap + 1..first];
      Associates([doc[gap]], doc[gap + 1..first], Simultaneous(doc, chunks, first));
    } else {
      assert doc[gap..first] == [];
      NothingInFront(Simultaneous(doc, chunks, first));
    }
  }

  /** Inside a range that c deletes, with every other chunk further on, nothing is left. */
  lemma {:induction false} Swallowed(doc: seq<string>, chunks: seq<Chunk>, c: Chunk, gap: nat)
    requires From(c, |doc|) < gap <= To(c, |doc|) <= |doc|
    requires AllFrom(chunks, To(c, |doc|), |doc|)
    ensures Simultaneous(doc, chunks + [c], gap) == Simultaneous(doc, chunks + [c], To(c, |doc|))
    decreases To(c, |doc|) - gap
  {
    hide Simultaneous, Piece, From, To, AllFrom;
    if gap < To(c, |doc|) {
      assert Piece(doc, chunks + [c], gap) == [] by {
        AllFromLower(chunks, To(c, |doc|), gap + 1, |doc|);
        PieceInside(doc, chunks, c, gap);
      }
      Unroll(doc, chunks + [c], gap);
      NothingInFront(Simultaneous(doc, chunks + [c], gap + 1));
      Swallowed(doc, chunks, c, gap + 1);
    }
  }

  /** One more chunk, in front of all the others: its text, then everything from its end on. */
  lemma AddInFront(doc: seq<string>, chunks: seq<Chunk>, c: Chunk)
    requires To(c, |doc|) <= |doc|
    requires AllFrom(chunks, To(c, |doc|), |doc|)
    ensures Simultaneous(doc, chunks + [c], From(c, |doc|)) ==
            NewLines(c) + Simultaneous(doc, chunks, To(c, |doc|))
  {
    if From(c, |doc|) == To(c, |doc|) {
      AddInsertion(doc, chunks, c);
    } else {
      AddReplacement(doc, chunks, c);
    }
  }

  lemma AddInsertion(doc: seq<string>, chunks: seq<Chunk>, c: Chunk)
    requires From(c, |doc|) == To(c, |doc|) <= |doc|
    ensures Simultaneous(doc, chunks + [c], From(c, |doc|)) ==
            NewLines(c) + Simultaneous(doc, chunks, From(c, |doc|))
  {
    hide Piece, Simultaneous, From, To, NewLines;
    var gap := From(c, |doc|);
    PieceAtInsertion(doc, chunks, c);
    if gap < |doc| {
      Unroll(doc, chunks, gap);
      Unroll(doc, chunks + [c], gap);
      QuietChunk(doc, chunks, c, gap + 1);
      Associates(NewLines(c), Piece(doc, chunks, gap), Simultaneous(doc, chunks, gap + 1));
    } else {
      UnrollEnd(doc, chunks);
      UnrollEnd(doc, chunks + [c]);
    }
  }

  lemma AddReplacement(doc: seq<string>, chunks: seq<Chunk>, c: Chunk)
    requires From(c, |doc|) < To(c, |doc|) <= |doc|
    requires AllFrom(chunks, To(c, |doc|), |doc|)
    ensures Simultaneous(doc, chunks + [c], From(c, |doc|)) ==
            NewLines(c) + Simultaneous(doc, chunks, To(c, |doc|))
  {
    hide Piece, Simultaneous, From, To, NewLines, AllFrom;
    AllFromLower(chunks, To(c, |doc|), From(c, |doc|) + 1, |doc|);
    PieceInside(doc, chunks, c, From(c, |doc|));
    Unroll(doc, chunks + [c], From(c, |doc|));
    Swallowed(doc, chunks, c, From(c, |doc|) + 1);
    QuietChunk(doc, chunks, c, To(c, |doc|));
  }

  function Low(chunks: seq<Chunk>, size: nat): nat {
    if chunks == [] then size else From(chunks[|chunks| - 1], size)
  }

  function Inserted(chunks: seq<Chunk>): nat {
    if chunks == [] then 0 else Inserted(chunks[..|chunks| - 1]) + |NewLines(chunks[|chunks| - 1])|
  }

  function Removed(chunks: seq<Chunk>, size: nat): nat {
    if chunks == [] then 0
    else Removed(chunks[..|chunks| - 1], size) + (To(chunks[|chunks| - 1], size) - From(chunks[|chunks| - 1], size))
  }

  function AllTouched(chunks: seq<Chunk>): int {
    if chunks == [] then 0 else AllTouched(chunks[..|chunks| - 1]) + Touched(chunks[|chunks| - 1])
  }

  /** A splice in a document whose edits so far all lie behind the chunk's end. */
  lemma SpliceInFront(doc: seq<string>, tail: seq<string>, low: nat, c: Chunk)
    requires low <= |doc| && InBounds(c, |doc|) && To(c, |doc|) <= low
    requires c.op == PutAfter && c.startLine > |doc| ==> low == |doc| && tail == []
    ensures
      var now := doc[..low] + tail;
      && Refusal(now, c) == None
      && Edited(now, c) == doc[..From(c, |doc|)] + NewLines(c) + (doc[To(c, |doc|)..low] + tail)
  {
    var size := |doc|;
    var now := doc[..low] + tail;
    var from, to := From(c, size), To(c, size);
    assert now[..from] == doc[..from];
    assert now[to..] == doc[to..low] + tail;
  }

  /** What the descent has reached: the untouched head, then the edited tail. */
  function Descent(doc: seq<string>, chunks: seq<Chunk>, low: nat): seq<string>
    requires low <= |doc|
  {
    doc[..low] + Simultaneous(doc, chunks, low)
  }

  /** One splice in front of the descent extends it. */
  lemma DescentStep(doc: seq<string>, rest: seq<Chunk>, c: Chunk, low: nat)
    requires low <= |doc| && AllFrom(rest, low, |doc|)
    requires InBounds(c, |doc|) && To(c, |doc|) <= low
    requires c.op == PutAfter && c.startLine > |doc| ==> rest == [] && low == |doc|
    ensures Refusal(Descent(doc, rest, low), c) == None
    ensures Edited(Descent(doc, rest, low), c) == Descent(doc, rest + [c], From(c, |doc|))
  {
    hide Simultaneous, Refusal, Edited, NewLines, InBounds, From, To, AllFrom;
    var tail := Simultaneous(doc, rest, low);
    DescendsNothing(doc);
    SpliceInFront(doc, tail, low, c);
    DescentTail(doc, rest, c, low);
    Associates(doc[..From(c, |doc|)], NewLines(c), doc[To(c, |doc|)..low] + tail);
  }

  lemma DescentTail(doc: seq<string>, rest: seq<Chunk>, c: Chunk, low: nat)
    requires low <= |doc| && AllFrom(rest, low, |doc|) && To(c, |doc|) <= low
    ensures Simultaneous(doc, rest + [c], From(c, |doc|)) ==
            NewLines(c) + (doc[To(c, |doc|)..low] + Simultaneous(doc, rest, low))
  {
    hide Simultaneous, NewLines, AllFrom;
    AllFromLower(rest, low, To(c, |doc|), |doc|);
    Untouched(doc, rest, To(c, |doc|), low);
    AddInFront(doc, rest, c);
  }

  lemma DescendsNothing(doc: seq<string>)
    ensures AllFrom([], |doc|, |doc|) && Apply(doc, []) == Outcome(Descent(doc, [], |doc|), 0, None)
    ensures Simultaneous(doc, [], |doc|) == []
  {
  }

  lemma ApplyOne(doc: seq<string>, chunks: seq<Chunk>)
    requires chunks != []
    requires
      var before := Apply(doc, chunks[..|chunks| - 1]);
      before.error == None && Refusal(before.doc, chunks[|chunks| - 1]) == None
    ensures
      var before := Apply(doc, chunks[..|chunks| - 1]);
      var c := chunks[|chunks| - 1];
      Apply(doc, chunks) == Outcome(Edited(before.doc, c), before.touched + Touched(c), None)
  {
  }

  lemma FitsPrefix(chunks: seq<Chunk>, size: nat)
    requires Fits(chunks, size) && chunks != []
    ensures Fits(chunks[..|chunks| - 1], size)
  {
    hide InBounds, Disjoint;
  }

  lemma DescendingPrefix(chunks: seq<Chunk>)
    requires Descending(chunks) && chunks != []
    ensures Descending(chunks[..|chunks| - 1])
  {
  }

  lemma {:induction false} Descends(doc: seq<string>, chunks: seq<Chunk>)
    requires Fits(chunks, |doc|) && Descending(chunks)
    ensures Low(chunks, |doc|) <= |doc| && AllFrom(chunks, Low(chunks, |doc|), |doc|)
    ensures Apply(doc, chunks) == Outcome(Descent(doc, chunks, Low(chunks, |doc|)), AllTouched(chunks), None)
  {
    hide Simultaneous, Apply, Descent, Refusal, Edited, NewLines, InBounds, From, To, Touched, AllFrom, Fits, Descending;
    if chunks == [] {
      DescendsNothing(doc);
    } else {
      var n := |chunks| - 1;
      FitsPrefix(chunks, |doc|);
      DescendingPrefix(chunks);
      Descends(doc, chunks[..n]);
      FitsInFront(chunks, |doc|);
      DescentStep(doc, chunks[..n], chunks[n], Low(chunks[..n], |doc|));
      ApplyOne(doc, chunks);
      assert chunks == chunks[..n] + [chunks[n]];
    }
  }

  lemma {:induction false} DescendingCount(doc: seq<string>, chunks: seq<Chunk>)
    requires Fits(chunks, |doc|) && Descending(chunks)
    ensures Low(chunks, |doc|) <= |doc|
    ensures |Simultaneous(doc, chunks, Low(chunks, |doc|))| + Removed(chunks, |doc|) + Low(chunks, |doc|) ==
            |doc| + Inserted(chunks)
  {
    hide Simultaneous, Descent, NewLines, From, To, AllFrom, Apply;
    if chunks == [] {
      DescendsNothing(doc);
    } else {
      var n := |chunks| - 1;
      DescendingCount(doc, chunks[..n]);
      FitsInFront(chunks, |doc|);
      Descends(doc, chunks[..n]);
      DescentTail(doc, chunks[..n], chunks[n], Low(chunks[..n], |doc|));
      assert chunks == chunks[..n] + [chunks[n]];
    }
  }

  /** The last chunk of a fitting descending list ends before all the others start. */
  lemma FitsInFront(chunks: seq<Chunk>, size: nat)
    requires Fits(chunks, size) && Descending(chunks) && chunks != []
    ensures
      var n := |chunks| - 1;
      var c := chunks[n];
      && InBounds(c, size) && To(c, size) <= Low(chunks[..n], size)
      && AllFrom(chunks, From(c, size), size)
      && (c.op == PutAfter && c.startLine > size ==> n == 0)
  {
    var n := |chunks| - 1;
    var c := chunks[n];
    assert c in chunks;
    forall i | 0 <= i < n ensures To(c, size) <= From(chunks[i], size) && c.startLine < chunks[i].startLine <= size + 1 {
      assert Disjoint(chunks[i], c, size);
      assert chunks[i] in chunks;
    }
    if n > 0 { assert c.startLine < chunks[0].startLine <= size + 1; }
  }

  lemma FitsDistinct(chunks: seq<Chunk>, size: nat)
    requires Fits(chunks, size)
    ensures DistinctStarts(chunks)
  {
  }

  lemma DisjointEither(chunks: seq<Chunk>, c: Chunk, d: Chunk, size: nat)
    requires Fits(chunks, size) && c in chunks && d in chunks && c != d
    ensures Disjoint(c, d, size)
  {
  }

  lemma FitsSorted(chunks: seq<Chunk>, size: nat)
    requires Fits(chunks, size)
    ensures Fits(SortDescending(chunks), size) && Descending(SortDescending(chunks))
  {
    hide Disjoint, InBounds, SortDescending;
    var sorted := SortDescending(chunks);
    SortIsPermutation(chunks);
    SortSorts(chunks);
    FitsDistinct(chunks, size);
    StartsOf(chunks, sorted);
    forall c | c in sorted ensures c in chunks {
      assert c in multiset(sorted) && c in multiset(chunks);
    }
    forall i, j | 0 <= i < j < |sorted| ensures Disjoint(sorted[i], sorted[j], size) {
      assert sorted[i] in sorted && sorted[j] in sorted && sorted[i].startLine != sorted[j].startLine;
      DisjointEither(chunks, sorted[i], sorted[j], size);
    }
  }

  /** The descending splices of a fitting patch are the simultaneous edit in original
      line numbers. */
  lemma SplicesAreSimultaneous(original: string, chunks: seq<Chunk>)
    requires Fits(chunks, |Split(original)|) && chunks != []
    ensures Applied(original, chunks) ==
            ApplyResult(Join(Simultaneous(Split(original), SortDescending(chunks), 0)),
                        AllTouched(SortDescending(chunks)), true, None)
  {
    var doc := Split(original);
    var sorted := SortDescending(chunks);
    FitsSorted(chunks, |doc|);
    Descends(doc, sorted);
    Untouched(doc, sorted, 0, Low(sorted, |doc|));
  }

  /** Line count: original lines, minus the deleted ones, plus the inserted ones. */
  lemma LineCount(doc: seq<string>, chunks: seq<Chunk>)
    requires Fits(chunks, |doc|)
    ensures
      var out := Apply(doc, SortDescending(chunks));
      out.error == None && |out.doc| == |doc| - Removed(chunks, |doc|) + Inserted(chunks)
  {
    var sorted := SortDescending(chunks);
    FitsSorted(chunks, |doc|);
    Descends(doc, sorted);
    DescendingCount(doc, sorted);
    SortedSums(chunks, |doc|);
  }

  lemma SumsSnoc(chunks: seq<Chunk>, c: Chunk, size: nat)
    ensures Inserted(chunks + [c]) == Inserted(chunks) + |NewLines(c)|
    ensures Removed(chunks + [c], size) == Removed(chunks, size) + (To(c, size) - From(c, size))
  {
    hide From, To, NewLines;
    assert (chunks + [c])[..|chunks|] == chunks;
  }

  lemma {:induction false} InsertSums(c: Chunk, sorted: seq<Chunk>, size: nat)
    ensures Inserted(Insert(c, sorted)) == Inserted(sorted) + |NewLines(c)|
    ensures Removed(Insert(c, sorted), size) == Removed(sorted, size) + (To(c, size) - From(c, size))
  {
    hide From, To, NewLines, Inserted, Removed;
    SumsSnoc([], c, size);
    SumsSnoc(sorted, c, size);
    if sorted == [] {
      assert [] + [c] == [c];
    } else {
      var n := |sorted| - 1;
      InsertSums(c, sorted[..n], size);
      assert sorted == sorted[..n] + [sorted[n]];
      SumsSnoc(sorted[..n], sorted[n], size);
      SumsSnoc(Insert(c, sorted[..n]), sorted[n], size);
    }
  }

  lemma {:induction false} SortedSums(chunks: seq<Chunk>, size: nat)
    ensures Inserted(SortDescending(chunks)) == Inserted(chunks)
    ensures Removed(SortDescending(chunks), size) == Removed(chunks, size)
  {
    if chunks != [] {
      var n := |chunks| - 1;
      SortedSums(chunks[..n], size);
      InsertSums(chunks[n], SortDescending(chunks[..n]), size);
    }
  }

  /** A cut has no range check: one that reaches past the end also takes the text that
      a later chunk put in, so being in bounds is a real condition. */
  lemma LooseCutTakesInsertion()
    ensures
      var put := Chunk(PutAfter, 2, None, ["x"]);
      var cut := Chunk(Cut, 1, Some(5), []);
      Apply(["a", "b"], SortDescending([cut, put])).doc == []
      && !InBounds(cut, 2)
  {
    var put := Chunk(PutAfter, 2, None, ["x"]);
    var cut := Chunk(Cut, 1, Some(5), []);
    assert [cut, put][..1] == [cut] && [cut][..0] == [];
    assert SortDescending([cut]) == [cut];
    assert Insert(put, [cut][..0]) == [put];
    assert SortDescending([cut, put]) == Insert(put, [cut]) == [put, cut];
    assert [put, cut][..1] == [put] && [put][..0] == [];
    assert Apply(["a", "b"], [put][..0]) == Outcome(["a", "b"], 0, None);
    assert Apply(["a", "b"], [put]).doc == ["a", "b", "x"];
  }

  /** A range is checked against the document as it has grown: one that is refused alone is accepted beside a chunk that
      puts in a line behind it, and then replaces that line too. */
  lemma LooseRangeTakesInsertion()
    ensures
      var put := Chunk(PutAfter, 2, None, ["x"]);
      var range := Chunk(PutRange, 1, Some(3), ["z"]);
      && Apply(["a", "b"], SortDescending([range])).error == Some(InvalidRange(1, 3))
      && Apply(["a", "b"], SortDescending([range, put])) == Outcome(["z"], 4, None)
  {
    var put := Chunk(PutAfter, 2, None, ["x"]);
    var range := Chunk(PutRange, 1, Some(3), ["z"]);
    assert [range, put][..1] == [range] && [range][..0] == [];
    assert SortDescending([range]) == [range];
    assert Insert(put, [range][..0]) == [put];
    assert SortDescending([range, put]) == Insert(put, [range]) == [put, range];
    assert [put, range][..1] == [put] && [put][..0] == [];
    assert Apply(["a", "b"], [put][..0]) == Outcome(["a", "b"], 0, None);
    assert Apply(["a", "b"], [put]) == Outcome(["a", "b", "x"], 1, None);
  }

  // ---------------------------------------------------------------- chunks that reach past the end

  /** A cut or a range whose end lies past the document. */
  predicate Loose(c: Chunk, size: nat) {
    (c.op == Cut || c.op == PutRange) && EndLine(c) > size
  }

  function Clamp(c: Chunk, size: nat): Chunk {
    if Loose(c, size) then c.(endLine := Some(size)) else c
  }

  function ClampAll(chunks: seq<Chunk>, size: nat): seq<Chunk> {
    seq(|chunks|, i requires 0 <= i < |chunks| => Clamp(chunks[i], size))
  }

  /** The lines put in by chunks that start after a line. */
  function InsertedAfter(chunks: seq<Chunk>, line: nat): nat {
    if chunks == [] then 0
    else
      var c := chunks[|chunks| - 1];
      InsertedAfter(chunks[..|chunks| - 1], line) + if c.startLine > line then |NewLines(c)| else 0
  }

  /** A range that reaches past the end of the document even with the lines put in behind it. */
  predicate Overreaches(chunks: seq<Chunk>, c: Chunk, size: nat) {
    c.op == PutRange && EndLine(c) > size + InsertedAfter(chunks, c.startLine)
  }

  /** Some chunk that starts after a loose one inserts a line. */
  predicate Bites(chunks: seq<Chunk>, size: nat) {
    exists c, d | c in chunks && d in chunks :: Loose(c, size) && c.startLine < d.startLine && NewLines(d) != []
  }

  predicate InsertsNothing(chunks: seq<Chunk>) {
    forall d <- chunks :: NewLines(d) == []
  }

  function Min(a: nat, b: nat): nat {
    if a < b then a else b
  }

  /** Of chunks in falling order: the lines put in behind the last loose one, and how many of them it takes. */
  function Behind(chunks: seq<Chunk>, size: nat): nat {
    if chunks == [] then 0
    else
      var rest, c := chunks[..|chunks| - 1], chunks[|chunks| - 1];
      if Loose(c, size) then Inserted(rest) else Behind(rest, size)
  }

  function Taken(chunks: seq<Chunk>, size: nat): (taken: nat)
    ensures taken <= Behind(chunks, size)
  {
    if chunks == [] then 0
    else
      var rest, c := chunks[..|chunks| - 1], chunks[|chunks| - 1];
      if Loose(c, size) then Min(EndLine(c) - size, Inserted(rest)) else Taken(rest, size)
  }

  /** Of chunks in falling order: some range reaches past the document as it has grown. */
  predicate Refused(chunks: seq<Chunk>, size: nat) {
    chunks != [] &&
    var rest, c := chunks[..|chunks| - 1], chunks[|chunks| - 1];
    Refused(rest, size) || (c.op == PutRange && EndLine(c) > size + Inserted(rest))
  }

  /** Without the first `taken` of its last `behind` lines. */
  function Without(s: seq<string>, behind: nat, taken: nat): seq<string>
    requires taken <= behind <= |s|
  {
    s[..|s| - behind] + s[|s| - behind + taken..]
  }

  lemma WithoutBehind(head: seq<string>, s: seq<string>, behind: nat, taken: nat)
    requires taken <= behind <= |s|
    ensures Without(head + s, behind, taken) == head + Without(s, behind, taken)
    ensures |Without(s, behind, taken)| == |s| - taken
    ensures Without(s, behind, 0) == s
  {
  }

  lemma ClampAllSnoc(chunks: seq<Chunk>, c: Chunk, size: nat)
    ensures ClampAll(chunks + [c], size) == ClampAll(chunks, size) + [Clamp(c, size)]
  {
  }

  lemma {:induction false} InsertClamped(c: Chunk, sorted: seq<Chunk>, size: nat)
    ensures ClampAll(Insert(c, sorted), size) == Insert(Clamp(c, size), ClampAll(sorted, size))
  {
    if sorted != [] {
      var n := |sorted| - 1;
      assert sorted == sorted[..n] + [sorted[n]];
      assert ClampAll(sorted, size)[..n] == ClampAll(sorted[..n], size);
      if sorted[n].startLine < c.startLine {
        InsertClamped(c, sorted[..n], size);
        ClampAllSnoc(Insert(c, sorted[..n]), sorted[n], size);
      } else {
        ClampAllSnoc(sorted, c, size);
      }
    }
  }

  lemma {:induction false} SortClamped(chunks: seq<Chunk>, size: nat)
    ensures SortDescending(ClampAll(chunks, size)) == ClampAll(SortDescending(chunks), size)
  {
    if chunks != [] {
      var n := |chunks| - 1;
      assert ClampAll(chunks, size)[..n] == ClampAll(chunks[..n], size);
      SortClamped(chunks[..n], size);
      InsertClamped(chunks[n], SortDescending(chunks[..n]), size);
    }
  }

  /** Chunks that all start at the end leave exactly their texts there. */
  lemma {:induction false} TextAtEnd(chunks: seq<Chunk>, size: nat)
    requires AllFrom(chunks, size, size) && forall c <- chunks :: From(c, size) <= size
    ensures |TextAt(chunks, size, size)| == Inserted(chunks)
  {
    if chunks != [] {
      var n := |chunks| - 1;
      assert chunks[n] in chunks;
      TextAtEnd(chunks[..n], size);
      assert chunks == chunks[..n] + [chunks[n]];
    }
  }

  lemma BitesSnoc(rest: seq<Chunk>, c: Chunk, size: nat)
    requires forall d <- rest :: c.startLine < d.startLine
    ensures Bites(rest + [c], size) <==> Bites(rest, size) || (Loose(c, size) && !InsertsNothing(rest))
  {
    if Bites(rest, size) {
      var x, y :| x in rest && y in rest && Loose(x, size) && x.startLine < y.startLine && NewLines(y) != [];
      assert x in rest + [c] && y in rest + [c];
    }
    if Loose(c, size) && !InsertsNothing(rest) {
      var y :| y in rest && NewLines(y) != [];
      assert c in rest + [c] && y in rest + [c];
    }
  }

  lemma {:induction false} InsertedNothing(chunks: seq<Chunk>)
    ensures Inserted(chunks) == 0 <==> InsertsNothing(chunks)
  {
    if chunks != [] {
      var n := |chunks| - 1;
      InsertedNothing(chunks[..n]);
      assert chunks == chunks[..n] + [chunks[n]];
    }
  }

  lemma {:induction false} InsertedClamped(chunks: seq<Chunk>, size: nat)
    ensures Inserted(ClampAll(chunks, size)) == Inserted(chunks)
  {
    if chunks != [] {
      var n := |chunks| - 1;
      assert ClampAll(chunks, size)[..n] == ClampAll(chunks[..n], size);
      InsertedClamped(chunks[..n], size);
    }
  }

  /** A loose chunk replaces its own lines to the end and takes as many of the lines put in behind it as it reaches. */
  lemma SpliceLoose(doc: seq<string>, tail: seq<string>, c: Chunk)
    requires Loose(c, |doc|) && 1 <= c.startLine <= |doc| + 1
    requires c.startLine > |doc| ==> tail == []
    ensures
      var now := doc + tail;
      && Refusal(now, c) == (if c.op == PutRange && EndLine(c) > |doc| + |tail|
                             then Some(InvalidRange(c.startLine, EndLine(c))) else None)
      && (Refusal(now, c) == None ==>
            Edited(now, c) == doc[..c.startLine - 1] + NewLines(c) + tail[Min(EndLine(c) - |doc|, |tail|)..])
  {
    var now := doc + tail;
    var stop := if EndLine(c) > |now| then |now| else EndLine(c);
    assert now[..c.startLine - 1] == doc[..c.startLine - 1];
    assert now[stop..] == tail[stop - |doc|..];
  }

  /** What the descent has reached when chunks may be loose: the same as with clamped ones, without what was taken. */
  predicate Reaches(doc: seq<string>, out: seq<string>, fit: seq<Chunk>, low: nat, behind: nat, taken: nat)
    requires low <= |doc|
  {
    && taken <= behind <= |Simultaneous(doc, fit, low)|
    && out == doc[..low] + Without(Simultaneous(doc, fit, low), behind, taken)
  }

  lemma TightStep(doc: seq<string>, out: seq<string>, rest: seq<Chunk>, c: Chunk, low: nat, behind: nat, taken: nat)
    requires low <= |doc| && AllFrom(rest, low, |doc|) && Reaches(doc, out, rest, low, behind, taken)
    requires InBounds(c, |doc|) && To(c, |doc|) <= low
    requires c.op == PutAfter && c.startLine > |doc| ==> rest == [] && low == |doc|
    ensures From(c, |doc|) <= |doc| && Refusal(out, c) == None
    ensures Reaches(doc, Edited(out, c), rest + [c], From(c, |doc|), behind, taken)
  {
    hide Simultaneous, Refusal, Edited, NewLines, From, To, AllFrom, Without, InBounds;
    var after := Simultaneous(doc, rest, low);
    var tail := Without(after, behind, taken);
    DescendsNothing(doc);
    WithoutBehind([], after, behind, taken);
    SpliceInFront(doc, tail, low, c);
    DescentTail(doc, rest, c, low);
    var head := NewLines(c) + doc[To(c, |doc|)..low];
    WithoutBehind(head, after, behind, taken);
    assert NewLines(c) + (doc[To(c, |doc|)..low] + after) == head + after;
    assert doc[..From(c, |doc|)] + NewLines(c) + (doc[To(c, |doc|)..low] + tail) ==
           doc[..From(c, |doc|)] + (head + tail);
  }

  /** A loose chunk after chunks that all start at the end of the document. */
  lemma LooseStep(doc: seq<string>, out: seq<string>, rest: seq<Chunk>, c: Chunk, behind: nat)
    requires AllFrom(rest, |doc|, |doc|) && Reaches(doc, out, rest, |doc|, behind, 0)
    requires forall d <- rest :: From(d, |doc|) <= |doc|
    requires Loose(c, |doc|) && InBounds(Clamp(c, |doc|), |doc|)
    requires c.startLine > |doc| ==> rest == []
    ensures From(Clamp(c, |doc|), |doc|) <= |doc|
    ensures Refusal(out, c) == if c.op == PutRange && EndLine(c) > |doc| + Inserted(rest)
                               then Some(InvalidRange(c.startLine, EndLine(c))) else None
    ensures Refusal(out, c) == None ==>
              Reaches(doc, Edited(out, c), rest + [Clamp(c, |doc|)], From(Clamp(c, |doc|), |doc|),
                      Inserted(rest), Min(EndLine(c) - |doc|, Inserted(rest)))
  {
    hide Refusal, Edited, InBounds, From, To, AllFrom, TextAt, Clamp, Simultaneous, Without, NewLines, Inserted, Loose,
      EndLine;
    var k := Clamp(c, |doc|);
    LooseEnds(c, |doc|);
    var tail := Simultaneous(doc, rest, |doc|);
    TextAtEnd(rest, |doc|);
    SimultaneousAtEnd(doc, rest);
    DescendsNothing(doc);
    WithoutBehind([], tail, behind, 0);
    assert doc[..|doc|] == doc && out == doc + tail;
    SpliceLoose(doc, tail, c);
    DescentTail(doc, rest, k, |doc|);
    assert doc[|doc|..|doc|] + tail == tail;
    TakenFromTail(NewLines(c), tail, Min(EndLine(c) - |doc|, |tail|));
    Associates(doc[..c.startLine - 1], NewLines(c), tail[Min(EndLine(c) - |doc|, |tail|)..]);
  }

  lemma TakenFromTail(head: seq<string>, tail: seq<string>, taken: nat)
    requires taken <= |tail|
    ensures Without(head + tail, |tail|, taken) == head + tail[taken..]
  {
    assert (head + tail)[..|head|] == head;
    assert (head + tail)[|head| + taken..] == tail[taken..];
  }

  lemma LooseEnds(c: Chunk, size: nat)
    requires Loose(c, size) && InBounds(Clamp(c, size), size)
    ensures var k := Clamp(c, size);
      && From(k, size) == c.startLine - 1 && To(k, size) == size && NewLines(k) == NewLines(c)
      && 1 <= c.startLine <= size + 1 && EndLine(c) > size
  {
  }

  lemma SimultaneousAtEnd(doc: seq<string>, chunks: seq<Chunk>)
    ensures Simultaneous(doc, chunks, |doc|) == TextAt(chunks, |doc|, |doc|)
  {
  }

  /** The last chunk of a descending list that fits when clamped. */
  lemma LastChunk(rest: seq<Chunk>, c: Chunk, size: nat)
    requires Fits(ClampAll(rest + [c], size), size) && Descending(rest + [c])
    ensures var fit, k := ClampAll(rest, size), Clamp(c, size);
      && ClampAll(rest + [c], size) == fit + [k] && Fits(fit, size) && Descending(rest)
      && InBounds(k, size) && To(k, size) <= Low(fit, size) && AllFrom(fit + [k], From(k, size), size)
      && (k.op == PutAfter && k.startLine > size ==> rest == [])
      && (c.startLine > size ==> rest == [])
      && (forall d <- fit :: From(d, size) <= size)
      && (forall d <- rest :: c.startLine < d.startLine)
  {
    hide From, To, InBounds, Loose, Clamp, AllFrom, Fits, Descending, Low;
    var chunks := rest + [c];
    var fit := ClampAll(chunks, size);
    ClampAllSnoc(rest, c, size);
    ClampKeeps(chunks, size);
    assert chunks[..|rest|] == rest && fit[..|rest|] == ClampAll(rest, size);
    FitsPrefix(fit, size);
    DescendingPrefix(chunks);
    FitsInFront(fit, size);
    FromsInside(ClampAll(rest, size), size);
    StartsAbove(chunks, size);
  }

  /** Chunks that all start at the end of the document take nothing: a loose one among them starts past it, and is
      alone. */
  lemma {:induction false} NothingTaken(chunks: seq<Chunk>, size: nat)
    requires Fits(ClampAll(chunks, size), size) && Descending(chunks)
    requires AllFrom(ClampAll(chunks, size), size, size)
    ensures Taken(chunks, size) == 0
  {
    hide Fits, Descending, From, To, InBounds, Inserted;
    if chunks != [] {
      var rest, c := chunks[..|chunks| - 1], chunks[|chunks| - 1];
      assert chunks == rest + [c];
      LastChunk(rest, c, size);
      if Loose(c, size) {
        LooseEnds(c, size);
        assert Clamp(c, size) in ClampAll(chunks, size);
        assert Inserted([]) == 0 by { InsertedNothing([]); }
      } else {
        NothingTaken(rest, size);
      }
    }
  }

  /** One more chunk, in front. */
  lemma OneMore(rest: seq<Chunk>, c: Chunk, size: nat)
    ensures var chunks := rest + [c];
      && (Refused(chunks, size) <==> Refused(rest, size) || (c.op == PutRange && EndLine(c) > size + Inserted(rest)))
      && Behind(chunks, size) == (if Loose(c, size) then Inserted(rest) else Behind(rest, size))
      && Taken(chunks, size) == if Loose(c, size) then Min(EndLine(c) - size, Inserted(rest)) else Taken(rest, size)
  {
    hide Inserted, Min, EndLine;
    assert (rest + [c])[..|rest|] == rest;
    if Loose(c, size) { LoosePastEnd(c, size); }
  }

  lemma LoosePastEnd(c: Chunk, size: nat)
    requires Loose(c, size)
    ensures EndLine(c) > size
  {
  }

  /** Descending chunks that fit when clamped, one after the other. */
  lemma {:induction false} LooseDescends(doc: seq<string>, chunks: seq<Chunk>)
    requires Fits(ClampAll(chunks, |doc|), |doc|) && Descending(chunks)
    ensures var fit := ClampAll(chunks, |doc|); var low := Low(fit, |doc|);
      && low <= |doc| && AllFrom(fit, low, |doc|)
      && (Apply(doc, chunks).error.Some? <==> Refused(chunks, |doc|))
      && (!Refused(chunks, |doc|) ==>
            Reaches(doc, Apply(doc, chunks).doc, fit, low, Behind(chunks, |doc|), Taken(chunks, |doc|)))
  {
    hide Simultaneous, Apply, Refusal, Edited, InBounds, From, To, Touched, AllFrom, Reaches, Clamp, Loose, NewLines,
      Fits, Descending, ClampAll, Inserted, Low, Min, EndLine, Refused, Behind, Taken;
    if chunks == [] {
      LooseNothing(doc);
    } else {
      var n := |chunks| - 1;
      var rest, c := chunks[..n], chunks[n];
      assert chunks == rest + [c];
      LastChunk(rest, c, |doc|);
      LooseDescends(doc, rest);
      LowSnoc(ClampAll(rest, |doc|), Clamp(c, |doc|), |doc|);
      OneMore(rest, c, |doc|);
      if !Refused(rest, |doc|) { LooseNext(doc, rest, c); }
      ApplyLast(doc, chunks);
    }
  }

  /** One more chunk in front of what the descent has reached. */
  lemma LooseNext(doc: seq<string>, rest: seq<Chunk>, c: Chunk)
    requires Fits(ClampAll(rest + [c], |doc|), |doc|) && Descending(rest + [c])
    requires var fit := ClampAll(rest, |doc|); var low := Low(fit, |doc|);
      low <= |doc| && AllFrom(fit, low, |doc|) &&
      Reaches(doc, Apply(doc, rest).doc, fit, low, Behind(rest, |doc|), Taken(rest, |doc|))
    ensures var size := |doc|; var out := Apply(doc, rest).doc; var k := Clamp(c, size);
      && From(k, size) <= size
      && (Refusal(out, c).Some? <==> c.op == PutRange && EndLine(c) > size + Inserted(rest))
      && (Refusal(out, c) == None ==>
            c.startLine >= 1 &&
            Reaches(doc, Edited(out, c), ClampAll(rest, size) + [k], From(k, size),
                    if Loose(c, size) then Inserted(rest) else Behind(rest, size),
                    if Loose(c, size) then Min(EndLine(c) - size, Inserted(rest)) else Taken(rest, size)))
  {
    hide Simultaneous, Apply, Refusal, Edited, From, To, AllFrom, Reaches, NewLines, Fits, Descending, ClampAll, Inserted,
      Low;
    var fit, out := ClampAll(rest, |doc|), Apply(doc, rest).doc;
    LastChunk(rest, c, |doc|);
    if Loose(c, |doc|) {
      LooseEnds(c, |doc|);
      NothingTaken(rest, |doc|);
      InsertedClamped(rest, |doc|);
      NothingClamped(rest, |doc|);
      LooseStep(doc, out, fit, c, Behind(rest, |doc|));
    } else {
      TightEnds(c, |doc|);
      NothingClamped(rest, |doc|);
      TightStep(doc, out, fit, c, Low(fit, |doc|), Behind(rest, |doc|), Taken(rest, |doc|));
    }
  }

  lemma LowSnoc(rest: seq<Chunk>, c: Chunk, size: nat)
    ensures Low(rest + [c], size) == From(c, size)
    ensures InBounds(c, size) ==> From(c, size) <= size
  {
  }

  lemma NothingClamped(chunks: seq<Chunk>, size: nat)
    ensures chunks == [] ==> ClampAll(chunks, size) == [] && Low(ClampAll(chunks, size), size) == size
  {
  }

  lemma TightEnds(c: Chunk, size: nat)
    requires !Loose(c, size)
    ensures Clamp(c, size) == c && (c.op == PutRange ==> EndLine(c) <= size)
  {
  }

  lemma ApplyLast(doc: seq<string>, chunks: seq<Chunk>)
    requires chunks != []
    ensures
      var before := Apply(doc, chunks[..|chunks| - 1]);
      var c := chunks[|chunks| - 1];
      if before.error.Some? then Apply(doc, chunks) == before
      else if Refusal(before.doc, c).Some? then Apply(doc, chunks).error.Some?
      else Apply(doc, chunks).error == None && Apply(doc, chunks).doc == Edited(before.doc, c)
  {
    hide Refusal, Edited, Touched;
  }

  lemma LooseNothing(doc: seq<string>)
    ensures Low(ClampAll([], |doc|), |doc|) == |doc| && AllFrom(ClampAll([], |doc|), |doc|, |doc|)
    ensures Reaches(doc, Apply(doc, []).doc, ClampAll([], |doc|), |doc|, 0, 0) && Apply(doc, []).error == None
    ensures !Refused([], |doc|) && Behind([], |doc|) == Taken([], |doc|) == 0
  {
    assert ClampAll([], |doc|) == [];
    DescendsNothing(doc);
    hide Simultaneous;
    assert doc[..|doc|] + [] == doc;
  }

  lemma ClampKeeps(chunks: seq<Chunk>, size: nat)
    requires Descending(chunks)
    ensures Descending(ClampAll(chunks, size))
    ensures forall c :: Clamp(c, size).startLine == c.startLine
  {
  }

  lemma FromsInside(chunks: seq<Chunk>, size: nat)
    requires Fits(chunks, size)
    ensures forall d <- chunks :: From(d, size) <= size
  {
  }

  /** Of chunks with distinct starts in falling order the last starts first; one that starts past the end is alone. */
  lemma StartsAbove(chunks: seq<Chunk>, size: nat)
    requires Fits(ClampAll(chunks, size), size) && Descending(chunks) && chunks != []
    ensures forall d <- chunks[..|chunks| - 1] :: chunks[|chunks| - 1].startLine < d.startLine
    ensures chunks[|chunks| - 1].startLine > size ==> |chunks| == 1
  {
    var n := |chunks| - 1;
    var fit := ClampAll(chunks, size);
    forall i | 0 <= i < n ensures chunks[n].startLine < chunks[i].startLine <= size + 1 {
      assert Disjoint(fit[i], fit[n], size);
      assert fit[i] in fit;
    }
    if n > 0 { assert chunks[n].startLine < chunks[0].startLine; }
  }

  // ---------------------------------------------------------------- the same, whatever the order of the patch

  lemma BitesPermuted(a: seq<Chunk>, b: seq<Chunk>, size: nat)
    requires multiset(a) == multiset(b)
    ensures Bites(a, size) <==> Bites(b, size)
  {
    assert forall c :: c in a <==> c in multiset(a);
    assert forall c :: c in b <==> c in multiset(b);
  }

  lemma AfterSnoc(rest: seq<Chunk>, c: Chunk, line: nat)
    ensures InsertedAfter(rest + [c], line) == InsertedAfter(rest, line) + if c.startLine > line then |NewLines(c)| else 0
  {
    assert (rest + [c])[..|rest|] == rest;
  }

  lemma {:induction false} InsertAfterSums(c: Chunk, sorted: seq<Chunk>, line: nat)
    ensures InsertedAfter(Insert(c, sorted), line) ==
            InsertedAfter(sorted, line) + if c.startLine > line then |NewLines(c)| else 0
  {
    hide NewLines, InsertedAfter;
    AfterSnoc([], c, line);
    AfterSnoc(sorted, c, line);
    if sorted == [] {
      assert [] + [c] == [c];
    } else {
      var n := |sorted| - 1;
      InsertAfterSums(c, sorted[..n], line);
      assert sorted == sorted[..n] + [sorted[n]];
      AfterSnoc(sorted[..n], sorted[n], line);
      AfterSnoc(Insert(c, sorted[..n]), sorted[n], line);
    }
  }

  lemma {:induction false} SortedAfter(chunks: seq<Chunk>, line: nat)
    ensures InsertedAfter(SortDescending(chunks), line) == InsertedAfter(chunks, line)
  {
    if chunks != [] {
      var n := |chunks| - 1;
      SortedAfter(chunks[..n], line);
      InsertAfterSums(chunks[n], SortDescending(chunks[..n]), line);
    }
  }

  lemma {:induction false} AllAfter(chunks: seq<Chunk>, line: nat)
    requires forall d <- chunks :: line < d.startLine
    ensures InsertedAfter(chunks, line) == Inserted(chunks)
  {
    if chunks != [] {
      assert chunks[|chunks| - 1] in chunks;
      AllAfter(chunks[..|chunks| - 1], line);
    }
  }

  /** A chunk is refused exactly when some range overreaches. */
  lemma {:induction false} RefusedExactly(chunks: seq<Chunk>, size: nat)
    requires Fits(ClampAll(chunks, size), size) && Descending(chunks)
    ensures Refused(chunks, size) <==> exists c <- chunks :: Overreaches(chunks, c, size)
  {
    hide Fits, Descending, InsertedAfter, Inserted, ClampAll, From, To, InBounds, EndLine;
    if chunks != [] {
      var rest, c := chunks[..|chunks| - 1], chunks[|chunks| - 1];
      assert chunks == rest + [c];
      LastChunk(rest, c, size);
      RefusedExactly(rest, size);
      AllAfter(rest, c.startLine);
      AfterSnoc(rest, c, c.startLine);
      forall d | d in rest ensures Overreaches(chunks, d, size) <==> Overreaches(rest, d, size) {
        AfterSnoc(rest, c, d.startLine);
      }
      assert Overreaches(chunks, c, size) <==> c.op == PutRange && EndLine(c) > size + Inserted(rest);
      assert c in chunks && forall d <- rest :: d in chunks;
    }
  }

  /** Something is taken exactly when a line is put in behind a loose chunk. */
  lemma {:induction false} TakenExactly(chunks: seq<Chunk>, size: nat)
    requires Fits(ClampAll(chunks, size), size) && Descending(chunks)
    ensures Taken(chunks, size) > 0 <==> Bites(chunks, size)
  {
    hide Fits, Descending, ClampAll, From, To, InBounds, Inserted, NewLines, Bites, InsertsNothing, Loose, EndLine, Clamp;
    if chunks == [] {
      NothingBites(size);
    } else {
      var rest, c := chunks[..|chunks| - 1], chunks[|chunks| - 1];
      assert chunks == rest + [c];
      LastChunk(rest, c, size);
      TakenExactly(rest, size);
      BitesSnoc(rest, c, size);
      InsertedNothing(rest);
      if Loose(c, size) { LoosePastEnd(c, size); }
      if Bites(rest, size) { BitesInserts(rest, size); }
    }
  }

  lemma NothingBites(size: nat)
    ensures !Bites([], size)
  {
  }

  lemma BitesInserts(chunks: seq<Chunk>, size: nat)
    requires Bites(chunks, size)
    ensures !InsertsNothing(chunks)
  {
  }


  /** Only one chunk that starts inside the document can be loose. */
  lemma {:induction false} TakenBy(chunks: seq<Chunk>, c: Chunk, size: nat)
    requires Fits(ClampAll(chunks, size), size) && Descending(chunks)
    requires c in chunks && Loose(c, size) && c.startLine <= size
    ensures Behind(chunks, size) == InsertedAfter(chunks, c.startLine)
    ensures Taken(chunks, size) == Min(EndLine(c) - size, InsertedAfter(chunks, c.startLine))
  {
    hide Fits, Descending, ClampAll, From, To, InBounds, Inserted, NewLines, InsertedAfter, EndLine;
    var rest, k := chunks[..|chunks| - 1], chunks[|chunks| - 1];
    assert chunks == rest + [k];
    LastChunk(rest, k, size);
    AfterSnoc(rest, k, c.startLine);
    if k == c {
      AllAfter(rest, c.startLine);
    } else {
      assert c in rest;
      if Loose(k, size) { LooseAlone(chunks, c, size); }
      TakenBy(rest, c, size);
    }
  }

  lemma LooseAlone(chunks: seq<Chunk>, c: Chunk, size: nat)
    requires Fits(ClampAll(chunks, size), size) && Descending(chunks) && chunks != []
    requires c in chunks[..|chunks| - 1] && Loose(c, size) && c.startLine <= size
    ensures !Loose(chunks[|chunks| - 1], size)
  {
    var n, fit := |chunks| - 1, ClampAll(chunks, size);
    var i :| 0 <= i < n && chunks[i] == c;
    assert Disjoint(fit[i], fit[n], size);
    assert fit[i] in fit && fit[n] in fit;
  }

  /** Neither cuts nor ranges are checked against the original document. For chunks that fit once those that reach past
      its end are clamped to it: the patch is refused if and only if a range reaches past the document even with the
      lines put in behind it, and otherwise the splices are the simultaneous edit of the clamped chunks if and only if
      no chunk starting after a loose one inserts a line. */
  lemma LooseChunksExactly(doc: seq<string>, chunks: seq<Chunk>)
    requires Fits(ClampAll(chunks, |doc|), |doc|)
    ensures
      var out := Apply(doc, SortDescending(chunks));
      && (out.error == None <==> forall c <- chunks :: !Overreaches(chunks, c, |doc|))
      && (out.error == None ==>
            (out.doc == Simultaneous(doc, SortDescending(ClampAll(chunks, |doc|)), 0) <==> !Bites(chunks, |doc|)))
  {
    hide Simultaneous, Apply, Fits, Bites, ClampAll, AllFrom, SortDescending, Without, Descending, Refused, Taken, Behind;
    var sorted := SortDescending(chunks);
    SortedChunks(doc, chunks);
    RefusedExactly(sorted, |doc|);
    TakenExactly(sorted, |doc|);
    BitesPermuted(sorted, chunks, |doc|);
    OverreachPermuted(chunks, |doc|);
    if !Refused(sorted, |doc|) {
      var whole := Simultaneous(doc, ClampAll(sorted, |doc|), 0);
      WithoutBehind([], whole, Behind(sorted, |doc|), Taken(sorted, |doc|));
    }
  }

  lemma OverreachPermuted(chunks: seq<Chunk>, size: nat)
    ensures forall c :: c in SortDescending(chunks) <==> c in chunks
    ensures forall c :: Overreaches(SortDescending(chunks), c, size) <==> Overreaches(chunks, c, size)
  {
    hide InsertedAfter, SortDescending, EndLine;
    SortIsPermutation(chunks);
    var sorted := SortDescending(chunks);
    forall c ensures c in sorted <==> c in chunks {
      assert c in sorted <==> c in multiset(sorted);
      assert c in chunks <==> c in multiset(chunks);
    }
    forall c ensures Overreaches(sorted, c, size) <==> Overreaches(chunks, c, size) {
      SortedAfter(chunks, c.startLine);
    }
  }

  /** The descent of the sorted chunks, read off from the first line on. */
  lemma SortedChunks(doc: seq<string>, chunks: seq<Chunk>)
    requires Fits(ClampAll(chunks, |doc|), |doc|)
    ensures
      var sorted := SortDescending(chunks);
      var whole := Simultaneous(doc, SortDescending(ClampAll(chunks, |doc|)), 0);
      var out := Apply(doc, sorted);
      && multiset(sorted) == multiset(chunks) && Descending(sorted)
      && SortDescending(ClampAll(chunks, |doc|)) == ClampAll(sorted, |doc|) && Fits(ClampAll(sorted, |doc|), |doc|)
      && (out.error == None <==> !Refused(sorted, |doc|))
      && (out.error == None ==>
            Behind(sorted, |doc|) <= |whole| &&
            out.doc == Without(whole, Behind(sorted, |doc|), Taken(sorted, |doc|)))
  {
    hide Simultaneous, Apply, Fits, ClampAll, AllFrom, SortDescending, Without, Descending, Refused, Taken, Behind;
    var sorted := SortDescending(chunks);
    SortClamped(chunks, |doc|);
    FitsSorted(ClampAll(chunks, |doc|), |doc|);
    SortSorts(chunks);
    SortIsPermutation(chunks);
    LooseDescends(doc, sorted);
    var fit := ClampAll(sorted, |doc|);
    var low := Low(fit, |doc|);
    Untouched(doc, fit, 0, low);
    if !Refused(sorted, |doc|) {
      WithoutBehind(doc[0..low], Simultaneous(doc, fit, low), Behind(sorted, |doc|), Taken(sorted, |doc|));
      assert doc[0..low] == doc[..low];
    }
  }

  /** What an accepted loose chunk does: besides its own lines it takes the first of the lines put in behind it, as many
      as it reaches past the end, from the end of the simultaneous edit of the clamped chunks. */
  lemma LooseChunkTakes(doc: seq<string>, chunks: seq<Chunk>, c: Chunk)
    requires Fits(ClampAll(chunks, |doc|), |doc|) && c in chunks && Loose(c, |doc|) && c.startLine <= |doc|
    ensures
      var out := Apply(doc, SortDescending(chunks));
      var whole := Simultaneous(doc, SortDescending(ClampAll(chunks, |doc|)), 0);
      var behind := InsertedAfter(chunks, c.startLine);
      out.error == None ==>
        behind <= |whole| && out.doc == Without(whole, behind, Min(EndLine(c) - |doc|, behind))
  {
    hide Simultaneous, Apply, Fits, ClampAll, SortDescending, Without, Descending, Refused, Taken, Behind, InsertedAfter,
      EndLine, Loose;
    SortedChunks(doc, chunks);
    OverreachPermuted(chunks, |doc|);
    SortedAfter(chunks, c.startLine);
    TakenBy(SortDescending(chunks), c, |doc|);
  }

  /** Cuts alone are never refused. */
  lemma LooseCutsExactly(doc: seq<string>, chunks: seq<Chunk>)
    requires Fits(ClampAll(chunks, |doc|), |doc|)
    requires forall c <- chunks :: Loose(c, |doc|) ==> c.op == Cut
    ensures
      var out := Apply(doc, SortDescending(chunks));
      && out.error == None
      && (out.doc == Simultaneous(doc, SortDescending(ClampAll(chunks, |doc|)), 0) <==> !Bites(chunks, |doc|))
  {
    hide Simultaneous, Apply, Fits, Bites, ClampAll, SortDescending;
    LooseChunksExactly(doc, chunks);
  }
}
