/** The modified-line counter of an applied patch, against the lines that the patch deletes and puts in. */
module HashlineCount {
  import opened Wrappers
  import opened HashlineParser
  import opened HashlineApply

  // ---------------------------------------------------------------- what the counter should say

  /** The lines that a chunk of a fitting patch deletes or puts in, a replaced line counted once. */
  function Changed(size: nat): Chunk -> int {
    (c: Chunk) => Max(To(c, size) - From(c, size), |NewLines(c)|)
  }

  /** A cut whose end lies before its start. It deletes nothing. */
  predicate Backward(c: Chunk) {
    c.op == Cut && EndLine(c) + 1 < c.startLine
  }

  /** By how much the end of a backward cut lies too low. */
  function Shortfall(): Chunk -> int {
    (c: Chunk) => if Backward(c) then c.startLine - 1 - EndLine(c) else 0
  }

  function SumBy(f: Chunk -> int, chunks: seq<Chunk>): int {
    if chunks == [] then 0 else SumBy(f, chunks[..|chunks| - 1]) + f(chunks[|chunks| - 1])
  }

  lemma SumSnoc(f: Chunk -> int, chunks: seq<Chunk>, c: Chunk)
    ensures SumBy(f, chunks + [c]) == SumBy(f, chunks) + f(c)
  {
    assert (chunks + [c])[..|chunks|] == chunks;
  }

  lemma {:induction false} InsertSum(f: Chunk -> int, c: Chunk, sorted: seq<Chunk>)
    ensures SumBy(f, Insert(c, sorted)) == SumBy(f, sorted) + f(c)
  {
    SumSnoc(f, [], c);
    SumSnoc(f, sorted, c);
    if sorted == [] {
      assert [] + [c] == [c];
    } else {
      var n := |sorted| - 1;
      InsertSum(f, c, sorted[..n]);
      assert sorted == sorted[..n] + [sorted[n]];
      SumSnoc(f, Insert(c, sorted[..n]), sorted[n]);
    }
  }

  lemma {:induction false} SortedSum(f: Chunk -> int, chunks: seq<Chunk>)
    ensures SumBy(f, SortDescending(chunks)) == SumBy(f, chunks)
  {
    if chunks != [] {
      var n := |chunks| - 1;
      SortedSum(f, chunks[..n]);
      InsertSum(f, chunks[n], SortDescending(chunks[..n]));
    }
  }

  /** One chunk. */
  lemma TouchedIsChanged(c: Chunk, size: nat)
    requires InBounds(c, size)
    ensures Touched(c) == Changed(size)(c) - Shortfall()(c)
  {
  }

  lemma {:induction false} AllTouchedIsChanged(chunks: seq<Chunk>, size: nat)
    requires forall c <- chunks :: InBounds(c, size)
    ensures AllTouched(chunks) == SumBy(Changed(size), chunks) - SumBy(Shortfall(), chunks)
  {
    if chunks != [] {
      var n := |chunks| - 1;
      hide InBounds, Touched, Changed, Shortfall;
      forall c <- chunks[..n] ensures InBounds(c, size) { assert c in chunks; }
      AllTouchedIsChanged(chunks[..n], size);
      TouchedIsChanged(chunks[n], size);
    }
  }

  lemma {:induction false} ShortfallExactly(chunks: seq<Chunk>)
    ensures SumBy(Shortfall(), chunks) >= 0
    ensures SumBy(Shortfall(), chunks) == 0 <==> forall c <- chunks :: !Backward(c)
  {
    if chunks != [] {
      var n := |chunks| - 1;
      ShortfallExactly(chunks[..n]);
      assert chunks == chunks[..n] + [chunks[n]];
    }
  }

  lemma {:induction false} ChangedBounds(chunks: seq<Chunk>, size: nat)
    ensures Removed(chunks, size) <= SumBy(Changed(size), chunks) <= Removed(chunks, size) + Inserted(chunks)
    ensures Inserted(chunks) <= SumBy(Changed(size), chunks)
  {
    hide From, To, NewLines;
    if chunks != [] { ChangedBounds(chunks[..|chunks| - 1], size); }
  }

  // ---------------------------------------------------------------- what it does say

  /** The counter of a fitting patch: the lines deleted or put in, a replaced line once, less what backward cuts fall
      short. It is right exactly when no cut is backward, and then it lies between the larger and the sum of the
      numbers of deleted and of inserted lines. */
  lemma ModifiedExactly(original: string, chunks: seq<Chunk>)
    requires Fits(chunks, |Split(original)|) && chunks != []
    ensures
      var size := |Split(original)|;
      var said := Applied(original, chunks).linesModified;
      var changed := SumBy(Changed(size), chunks);
      && said == changed - SumBy(Shortfall(), chunks)
      && (said == changed <==> forall c <- chunks :: !Backward(c))
      && Max(Removed(chunks, size), Inserted(chunks)) <= changed <= Removed(chunks, size) + Inserted(chunks)
  {
    hide Applied, Fits, AllTouched, SumBy, Changed, Shortfall, Removed, Inserted, SortDescending, Split;
    var size := |Split(original)|;
    SplicesAreSimultaneous(original, chunks);
    FitsSorted(chunks, size);
    FitsInBounds(SortDescending(chunks), size);
    AllTouchedIsChanged(SortDescending(chunks), size);
    SortedSum(Changed(size), chunks);
    SortedSum(Shortfall(), chunks);
    ShortfallExactly(chunks);
    ChangedBounds(chunks, size);
  }

  lemma FitsInBounds(chunks: seq<Chunk>, size: nat)
    requires Fits(chunks, size)
    ensures forall c <- chunks :: InBounds(c, size)
  {
  }

  /** A cut applied alone, wherever its end lies: the counter is the number of lines lost exactly when the end lies in the
      document and not before the start. Past the end it overstates, before the start it goes below zero. */
  lemma CutCountExactly(doc: seq<string>, c: Chunk)
    requires c.op == Cut && 1 <= c.startLine <= |doc| + 1
    ensures var out := Apply(doc, [c]);
      && out.error == None
      && (out.touched == |doc| - |out.doc| <==> c.startLine <= EndLine(c) + 1 && EndLine(c) <= |doc|)
      && (EndLine(c) > |doc| ==> out.touched > |doc| - |out.doc|)
      && (Backward(c) ==> out.doc == doc && out.touched < 0)
  {
    assert [c][..0] == [] && Apply(doc, []) == Outcome(doc, 0, None);
    var at := c.startLine - 1;
    assert doc[..at] + [] + doc[at..] == doc;
  }

  /** A chunk that puts lines in, applied alone, counts those lines, and a range the larger of what it takes and puts. */
  lemma PutCountExactly(doc: seq<string>, c: Chunk)
    requires c.op != Cut && Refusal(doc, c) == None
    ensures var out := Apply(doc, [c]);
      && out.error == None
      && (c.op != PutRange ==> out.touched == |c.lines| == |out.doc| - |doc|)
      && (c.op == PutRange ==> out.touched == Max(|doc| + |c.lines| - |out.doc|, |c.lines|))
  {
    assert [c][..0] == [] && Apply(doc, []) == Outcome(doc, 0, None);
  }

  /** What a patch counts is the sum of what its chunks count, as long as none is refused. */
  lemma {:induction false} CounterAdds(doc: seq<string>, chunks: seq<Chunk>)
    requires Apply(doc, chunks).error == None
    ensures Apply(doc, chunks).touched == AllTouched(chunks)
  {
    if chunks != [] {
      hide Touched, Edited, Refusal;
      CounterAdds(doc, chunks[..|chunks| - 1]);
    }
  }
}
