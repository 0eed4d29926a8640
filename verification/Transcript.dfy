/** Transcripts and the pairing rule every provider imposes on them: an assistant message is followed
    at once by one tool result per call it made, except the calls a provider already ran itself. */
module Transcript {
  import opened Wrappers

  datatype StopReason = ToolUse | EndTurn | Length | Errored | Aborted

  /** `resolved` marks a call the provider executed on its own side. */
  datatype Call = Call(id: nat, name: nat, args: nat, resolved: bool)

  /** `Note` is any queued or prompted message of the user's side, `Reminder` a soft-requirement reminder.
      `synthetic` tells a placeholder result from one that came out of a tool batch. */
  datatype Msg =
    | Note(tag: nat)
    | Reminder(requirement: nat)
    | Assistant(calls: seq<Call>, stop: StopReason)
    | ToolResult(id: nat, synthetic: bool)

  /** The calls that need a result from this side. */
  function Runnable(calls: seq<Call>): (r: seq<Call>)
    ensures forall c | c in r :: c in calls && !c.resolved
  {
    if calls == [] then []
    else if calls[0].resolved then Runnable(calls[1..])
    else [calls[0]] + Runnable(calls[1..])
  }

  function Ids(calls: seq<Call>): (ids: seq<nat>)
    ensures |ids| == |calls|
  {
    seq(|calls|, k requires 0 <= k < |calls| => calls[k].id)
  }

  predicate AllResults(rs: seq<Msg>) {
    forall k | 0 <= k < |rs| :: rs[k].ToolResult?
  }

  predicate AllNotes(ms: seq<Msg>) {
    forall k | 0 <= k < |ms| :: ms[k].Note? || ms[k].Reminder?
  }

  /** The ids of a list of messages that are all tool results. */
  function ResultIds(rs: seq<Msg>): (ids: seq<nat>)
    requires AllResults(rs)
    ensures |ids| == |rs|
  {
    seq(|rs|, k requires 0 <= k < |rs| && rs[k].ToolResult? => rs[k].id)
  }

  // ---------------------------------------------------------------- the declarative rule

  /** The ids of the unbroken run of tool results that starts at `k`. */
  function Block(ms: seq<Msg>, k: nat): seq<nat>
    requires k <= |ms|
    decreases |ms| - k
  {
    if k < |ms| && ms[k].ToolResult? then [ms[k].id] + Block(ms, k + 1) else []
  }

  predicate BlockOk(ms: seq<Msg>, k: nat)
    requires k < |ms|
  {
    ms[k].Assistant? ==> multiset(Block(ms, k + 1)) == multiset(Ids(Runnable(ms[k].calls)))
  }

  predicate PlaceOk(ms: seq<Msg>, k: nat)
    requires k < |ms|
  {
    ms[k].ToolResult? ==> k > 0 && (ms[k - 1].Assistant? || ms[k - 1].ToolResult?)
  }

  /** Each assistant message is followed at once by results whose ids are exactly those of its runnable
      calls, and no result stands anywhere else. */
  predicate Paired(ms: seq<Msg>) {
    forall k: nat | k < |ms| :: BlockOk(ms, k) && PlaceOk(ms, k)
  }

  // ---------------------------------------------------------------- the same rule, message by message

  /** The results still owed after `ms`, or nothing once the rule is broken for good. */
  function Owed(ms: seq<Msg>): Option<multiset<nat>>
    decreases |ms|
  {
    if ms == [] then Some(multiset{})
    else Next(Owed(ms[..|ms| - 1]), ms[|ms| - 1])
  }

  function Next(owed: Option<multiset<nat>>, m: Msg): Option<multiset<nat>> {
    match m
    case ToolResult(id, _) =>
      if owed.Some? && id in owed.value then Some(owed.value - multiset{id}) else None
    case Assistant(calls, _) =>
      if owed == Some(multiset{}) then Some(multiset(Ids(Runnable(calls)))) else None
    case _ =>
      if owed == Some(multiset{}) then owed else None
  }

  lemma OwedSnoc(ms: seq<Msg>, m: Msg)
    ensures Owed(ms + [m]) == Next(Owed(ms), m)
  {
  }

  /** A broken transcript stays broken. */
  lemma {:induction false} BrokenStays(ms: seq<Msg>, more: seq<Msg>)
    requires Owed(ms).None?
    ensures Owed(ms + more).None?
    decreases |more|
  {
    if more == [] {
      assert ms + more == ms;
    } else {
      BrokenStays(ms, more[..|more| - 1]);
      assert ms + more == ms + more[..|more| - 1] + [more[|more| - 1]];
      OwedSnoc(ms + more[..|more| - 1], more[|more| - 1]);
    }
  }

  /** Results pay off what is owed in any order, and break the rule when they are not owed. */
  lemma {:induction false} ResultsPay(ms: seq<Msg>, rs: seq<Msg>)
    requires Owed(ms).Some? && AllResults(rs)
    ensures Owed(ms + rs) == Paid(Owed(ms).value, multiset(ResultIds(rs)))
    decreases |rs|
  {
    if rs == [] {
      assert ms + rs == ms;
      assert ResultIds(rs) == [];
      assert Owed(ms).value - multiset{} == Owed(ms).value;
    } else {
      var init, last := rs[..|rs| - 1], rs[|rs| - 1];
      assert rs == init + [last];
      ResultsPay(ms, init);
      PayLast(ms, init, last);
    }
  }

  function Paid(owed: multiset<nat>, paid: multiset<nat>): Option<multiset<nat>> {
    if paid <= owed then Some(owed - paid) else None
  }

  lemma PayLast(ms: seq<Msg>, rs: seq<Msg>, last: Msg)
    requires Owed(ms).Some? && AllResults(rs) && last.ToolResult?
    requires Owed(ms + rs) == Paid(Owed(ms).value, multiset(ResultIds(rs)))
    ensures Owed(ms + (rs + [last])) == Paid(Owed(ms).value, multiset(ResultIds(rs + [last])))
  {
    hide Owed, ResultIds;
    assert ms + (rs + [last]) == ms + rs + [last];
    OwedSnoc(ms + rs, last);
    ResultIdsSnoc(rs, last);
    PayNext(Owed(ms).value, multiset(ResultIds(rs)), last);
  }

  lemma PayNext(owed: multiset<nat>, paid: multiset<nat>, last: Msg)
    requires last.ToolResult?
    ensures Next(Paid(owed, paid), last) == Paid(owed, paid + multiset{last.id})
  {
    PayOne(paid, owed, last.id);
  }

  lemma ResultIdsSnoc(rs: seq<Msg>, r: Msg)
    requires AllResults(rs) && r.ToolResult?
    ensures multiset(ResultIds(rs + [r])) == multiset(ResultIds(rs)) + multiset{r.id}
  {
    assert ResultIds(rs + [r]) == ResultIds(rs) + [r.id];
  }

  lemma PayOne(paid: multiset<nat>, owed: multiset<nat>, x: nat)
    ensures paid + multiset{x} <= owed <==> paid <= owed && x in owed - paid
    ensures owed - paid - multiset{x} == owed - (paid + multiset{x})
  {
  }

  /** Messages of the user's side keep a paired transcript paired. */
  lemma {:induction false} NotesKeep(ms: seq<Msg>, notes: seq<Msg>)
    requires AllNotes(notes)
    requires Owed(ms) == None || Owed(ms) == Some(multiset{})
    ensures Owed(ms + notes) == Owed(ms)
    decreases |notes|
  {
    if notes == [] {
      assert ms + notes == ms;
    } else {
      var init, last := notes[..|notes| - 1], notes[|notes| - 1];
      NotesKeep(ms, init);
      assert ms + notes == ms + init + [last];
      OwedSnoc(ms + init, last);
    }
  }

  // ---------------------------------------------------------------- the two agree

  /** A run of results belongs to the messages before it only when nothing else comes in between. */
  lemma {:induction false} BlockStops(ms: seq<Msg>, m: Msg, k: nat)
    requires k <= |ms| && !m.ToolResult?
    ensures Block(ms + [m], k) == Block(ms, k)
    decreases |ms| - k
  {
    if k < |ms| && ms[k].ToolResult? { BlockStops(ms, m, k + 1); }
  }

  /** Only the last assistant message can see the results at the end. */
  lemma {:induction false} BlockBefore(ms: seq<Msg>, a: Msg, rs: seq<Msg>, k: nat)
    requires k <= |ms| && !a.ToolResult?
    ensures Block(ms + [a] + rs, k) == Block(ms, k)
    decreases |ms| - k
  {
    if k < |ms| && ms[k].ToolResult? { BlockBefore(ms, a, rs, k + 1); }
  }

  lemma {:induction false} BlockOfResults(ms: seq<Msg>, rs: seq<Msg>)
    requires AllResults(rs)
    ensures Block(ms + rs, |ms|) == ResultIds(rs)
    decreases |rs|
  {
    if rs != [] {
      assert ms + rs == (ms + [rs[0]]) + rs[1..];
      BlockOfResults(ms + [rs[0]], rs[1..]);
      assert ResultIds(rs) == [rs[0].id] + ResultIds(rs[1..]);
    }
  }

  /** Where the run of results at the end begins. */
  function TailStart(ms: seq<Msg>): (k: nat)
    ensures k <= |ms|
    ensures forall j | k <= j < |ms| :: ms[j].ToolResult?
    ensures k > 0 ==> !ms[k - 1].ToolResult?
    decreases |ms|
  {
    if ms != [] && ms[|ms| - 1].ToolResult? then TailStart(ms[..|ms| - 1]) else |ms|
  }

  /** The message-by-message rule accepts exactly the paired transcripts. */
  lemma {:induction false} OwedMeansPaired(ms: seq<Msg>)
    ensures Owed(ms) == Some(multiset{}) <==> Paired(ms)
    decreases |ms|
  {
    if ms != [] {
      var t := TailStart(ms);
      var rs := ms[t..];
      if t == 0 {
        assert ms == [] + rs;
        ResultsPay([], rs);
        assert multiset(ResultIds(rs))[rs[0].id] > 0 by { assert ResultIds(rs)[0] == rs[0].id; }
        assert ms[0].ToolResult? && !PlaceOk(ms, 0);
      } else {
        var q, a := ms[..t - 1], ms[t - 1];
        assert ms == q + [a] + rs;
        OwedMeansPaired(q);
        OwedSnoc(q, a);
        if a.Assistant? { AssistantEnds(q, a, rs); } else { NoteEnds(q, a, rs); }
      }
    }
  }

  lemma AssistantEnds(q: seq<Msg>, a: Msg, rs: seq<Msg>)
    requires a.Assistant? && (AllResults(rs))
    requires Owed(q) == Some(multiset{}) <==> Paired(q)
    ensures Owed(q + [a] + rs) == Some(multiset{}) <==> Paired(q + [a] + rs)
  {
    var due := multiset(Ids(Runnable(a.calls)));
    var paid := multiset(ResultIds(rs));
    PairedSplit(q, a, rs);
    OwedSnoc(q, a);
    if Paired(q) {
      ResultsPay(q + [a], rs);
      assert paid <= due && due - paid == multiset{} <==> paid == due;
    } else {
      BrokenStays(q + [a], rs);
    }
  }

  lemma EarlierUnmoved(q: seq<Msg>, a: Msg, rs: seq<Msg>, k: nat)
    requires !a.ToolResult? && k < |q|
    ensures BlockOk(q + [a] + rs, k) == BlockOk(q, k) && PlaceOk(q + [a] + rs, k) == PlaceOk(q, k)
  {
    BlockBefore(q, a, rs, k + 1);
    var ms := q + [a] + rs;
    assert ms[k] == q[k];
    assert k > 0 ==> ms[k - 1] == q[k - 1];
  }

  lemma PairedSplit(q: seq<Msg>, a: Msg, rs: seq<Msg>)
    requires a.Assistant? && AllResults(rs)
    ensures Paired(q + [a] + rs) <==>
              Paired(q) && multiset(ResultIds(rs)) == multiset(Ids(Runnable(a.calls)))
  {
    var ms := q + [a] + rs;
    BlockOfResults(q + [a], rs);
    assert ms[|q|] == a && PlaceOk(ms, |q|);
    var paysOff := multiset(ResultIds(rs)) == multiset(Ids(Runnable(a.calls)));
    assert BlockOk(ms, |q|) <==> paysOff;
    forall k: nat | |q| < k < |ms| ensures BlockOk(ms, k) && PlaceOk(ms, k) {
      ResultPlaced(q, a, rs, k);
    }
    forall k: nat | k < |q| ensures BlockOk(ms, k) == BlockOk(q, k) && PlaceOk(ms, k) == PlaceOk(q, k) {
      EarlierUnmoved(q, a, rs, k);
    }
    if Paired(ms) {
      assert BlockOk(ms, |q|);
      forall k: nat | k < |q| ensures BlockOk(q, k) && PlaceOk(q, k) {
        assert BlockOk(ms, k) && PlaceOk(ms, k);
      }
    }
  }

  lemma ResultPlaced(q: seq<Msg>, a: Msg, rs: seq<Msg>, k: nat)
    requires a.Assistant? && AllResults(rs) && |q| < k < |q| + 1 + |rs|
    ensures BlockOk(q + [a] + rs, k) && PlaceOk(q + [a] + rs, k)
  {
  }

  lemma NoteEnds(q: seq<Msg>, a: Msg, rs: seq<Msg>)
    requires (a.Note? || a.Reminder?) && (AllResults(rs))
    requires Owed(q) == Some(multiset{}) <==> Paired(q)
    ensures Owed(q + [a] + rs) == Some(multiset{}) <==> Paired(q + [a] + rs)
  {
    var ms := q + [a] + rs;
    OwedSnoc(q, a);
    if rs == [] {
      assert ms == q + [a];
      forall k: nat | k < |q| ensures BlockOk(ms, k) == BlockOk(q, k) && PlaceOk(ms, k) == PlaceOk(q, k) {
        EarlierUnmoved(q, a, [], k);
        assert q + [a] + [] == ms;
      }
    } else {
      assert ms[|q| + 1] == rs[0] && ms[|q|] == a;
      assert !PlaceOk(ms, |q| + 1);
      if Owed(q) == Some(multiset{}) {
        ResultsPay(q + [a], rs);
        assert multiset(ResultIds(rs))[rs[0].id] > 0 by { assert ResultIds(rs)[0] == rs[0].id; }
      } else {
        BrokenStays(q + [a], rs);
      }
    }
  }
}
