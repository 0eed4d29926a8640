/** Continuing an agent loop without a new message: what is refused, and what acceptance buys. */
module AgentContinue {
  import opened Wrappers
  import opened Transcript
  import opened AgentLoop

  /** A schedule that runs the calls of an unpaired tail, if there is one, to their end. */
  predicate ValidOpening(base: seq<Msg>, opening: Opening) {
    UnpairedTail(base) ==> RunsBatch(base[|base| - 1].calls, opening.batch, opening.schedule)
  }

  /** A context the model can answer: there is a last message, and it is not the model's own. */
  predicate Answerable(context: seq<Msg>) {
    context != [] && !context[|context| - 1].Assistant?
  }

  /** The context before the queues are folded in: an unpaired tail has its results. */
  function ResumedContext(base: seq<Msg>, opening: Opening): seq<Msg>
    requires ValidOpening(base, opening)
  {
    if UnpairedTail(base) then base + BatchResults(base[|base| - 1].calls, opening.batch, opening.schedule) else base
  }

  /** The reminders that the first directive adds. */
  function FirstReminders(soft0: SoftState, d: Directive): (ms: seq<Msg>)
    ensures AllNotes(ms)
  {
    if d.Soft? && soft0.id != Some(d.requirement.id) then Reminders(d.requirement) else []
  }

  lemma {:induction false} PlayAppends(tc: Option<ToolChoice>, gated: bool, script: seq<Round>, r: Run)
    requires ValidScript(script) && |r.calls| <= |script|
    ensures r.calls <= Play(tc, gated, script, r).0.calls
    decreases |script| - |r.calls|, if r.hasMore || r.pending != [] then 0 else 1
  {
    hide PlayRound, Yield, ValidScript;
    if r.hasMore || r.pending != [] {
      if |r.calls| < |script| && (r.resolved ==> r.turns != []) {
        ValidAt(script, |r.calls|);
        var s := PlayRound(tc, gated, script[|r.calls|], r);
        if s.stop.None? { PlayAppends(tc, gated, script, s.run); }
      }
    } else if r.calls != [] {
      var s := Yield(script[|r.calls| - 1], r);
      if s.stop.None? { PlayAppends(tc, gated, script, s.run); }
    }
  }

  /** What the first round sends to the model. */
  lemma FirstRound(tc: Option<ToolChoice>, gated: bool, round: Round, r: Run)
    requires ValidRound(round) && r.calls == [] && !r.resolved
    ensures var s := PlayRound(tc, gated, round, r);
      s.run.calls != [] ==>
        s.run.calls[0].context == r.context + Notes(r.pending) + FirstReminders(r.soft, round.directive)
  {
    hide CallAndSettle;
    var c := CommitPending(NoteHead(r));
    assert c.context + [] == c.context;
  }

  /** The context of the first model call of a run that continues `base`. */
  lemma FirstCall(tc: Option<ToolChoice>, gated: bool, base: seq<Msg>, soft0: SoftState, opening: Opening,
                  script: seq<Round>)
    requires ValidScript(script) && ValidOpening(base, opening)
    ensures var r := AgentRun(tc, gated, base, [], soft0, opening, script).0;
      r.calls != [] ==>
        script != [] &&
        r.calls[0].context ==
          ResumedContext(base, opening) + Notes(opening.steering) + FirstReminders(soft0, script[0].directive)
  {
    hide PlayRound, ValidScript;
    assert base + Notes([]) == base;
    var s := OpenRun(base, [], soft0, opening);
    if s.stop.None? && script != [] {
      ValidAt(script, 0);
      FirstRound(tc, gated, script[0], s.run);
      var t := PlayRound(tc, gated, script[0], s.run);
      if t.stop.None? { PlayAppends(tc, gated, script, t.run); }
    }
  }

  lemma NotesNeverPay(ms: seq<Msg>, notes: seq<Msg>)
    requires AllNotes(notes)
    ensures Owed(ms + notes) == Some(multiset{}) <==> Owed(ms) == Some(multiset{})
  {
    if notes == [] {
      assert ms + notes == ms;
    } else if Owed(ms) == Some(multiset{}) {
      NotesKeep(ms, notes);
    } else {
      assert ms + notes == ms + [notes[0]] + notes[1..];
      OwedSnoc(ms, notes[0]);
      BrokenStays(ms + [notes[0]], notes[1..]);
    }
  }

  /** The resumed context is paired exactly when the base was, up to its unpaired tail. */
  lemma ResumedPairs(base: seq<Msg>, opening: Opening)
    requires ValidOpening(base, opening)
    ensures Owed(ResumedContext(base, opening)) == Some(multiset{}) <==> ResumeOk(base, [], opening)
  {
    if UnpairedTail(base) {
      var tail := base[|base| - 1];
      var results := BatchResults(tail.calls, opening.batch, opening.schedule);
      TailOwes(base);
      BatchResultIds(tail.calls, opening.batch, opening.schedule);
      if Owed(base[..|base| - 1]) == Some(multiset{}) {
        PayExactly(base, results);
      } else {
        BrokenStays(base, results);
      }
    }
  }

  /** The results of an unpaired tail are there to answer. */
  lemma ResumedAnswerable(base: seq<Msg>, opening: Opening)
    requires ValidOpening(base, opening)
    ensures Answerable(ResumedContext(base, opening)) <==>
              base != [] && (base[|base| - 1].Assistant? ==> UnpairedTail(base))
  {
    if UnpairedTail(base) {
      var calls := base[|base| - 1].calls;
      var results := BatchResults(calls, opening.batch, opening.schedule);
      BatchResultIds(calls, opening.batch, opening.schedule);
      SameLength(ResultIds(results), Ids(Runnable(calls)));
      assert results[|results| - 1].ToolResult?;
    }
  }

  /** Continuing without a new message refuses an empty context and an assistant tail with nothing to run. Whatever
      it accepts reaches the model with something to answer, and paired exactly when the base was paired up to its
      unpaired tail. */
  method AgentLoopContinue(toolChoice: Option<ToolChoice>, gated: bool, base: seq<Msg>, soft0: SoftState,
                           opening: Opening, script: seq<Round>)
    returns (accepted: bool, r: Run, soft: SoftState, outcome: Outcome)
    requires ValidScript(script) && ValidOpening(base, opening)
    ensures accepted <==> Answerable(ResumedContext(base, opening))
    ensures accepted ==> (r, outcome) == AgentRun(toolChoice, gated, base, [], soft0, opening, script)
    ensures accepted && r.calls != [] ==> Answerable(r.calls[0].context)
    ensures accepted && r.calls != [] ==> (Paired(r.calls[0].context) <==> ResumeOk(base, [], opening))
    ensures !accepted ==> r == Start(base, [], soft0) && soft == soft0
  {
    hide AgentRun, ValidScript, ResumedContext, ResumeOk, UnpairedTail, Paired, Owed, FirstReminders, Start;
    r, soft, outcome := Start(base, [], soft0), soft0, Failed;
    ResumedAnswerable(base, opening);
    accepted := base != [] && (base[|base| - 1].Assistant? ==> UnpairedTail(base));
    if accepted {
      r, soft, outcome := RunLoopBody(toolChoice, gated, base, [], soft0, opening, script);
      if r.calls != [] {
        FirstCall(toolChoice, gated, base, soft0, opening, script);
        QueuedContext(base, soft0, opening, script[0].directive);
      }
    }
  }

  /** What the queues add keeps the context answerable and neither mends nor breaks the pairing. */
  lemma QueuedContext(base: seq<Msg>, soft0: SoftState, opening: Opening, d: Directive)
    requires ValidOpening(base, opening)
    ensures var resumed := ResumedContext(base, opening);
      var context := resumed + Notes(opening.steering) + FirstReminders(soft0, d);
      && (Answerable(resumed) ==> Answerable(context))
      && (Notes(opening.steering) + FirstReminders(soft0, d) == [] ==> context == resumed)
      && (Paired(context) <==> ResumeOk(base, [], opening))
  {
    hide ResumedContext, ResumeOk, Owed, Paired, FirstReminders;
    var resumed := ResumedContext(base, opening);
    var queued := Notes(opening.steering) + FirstReminders(soft0, d);
    var context := resumed + Notes(opening.steering) + FirstReminders(soft0, d);
    assert context == resumed + queued;
    ResumedPairs(base, opening);
    NotesNeverPay(resumed, queued);
    OwedMeansPaired(context);
    if queued == [] { assert context == resumed; }
  }

  /** The refusal is exact: with nothing queued and nothing announced, the model would be called on an answerable
      context if and only if the continuation is not refused. */
  lemma RefusedExactly(tc: Option<ToolChoice>, gated: bool, base: seq<Msg>, soft0: SoftState, opening: Opening,
                       script: seq<Round>)
    requires ValidScript(script) && ValidOpening(base, opening)
    requires opening.steering == [] && script != [] && FirstReminders(soft0, script[0].directive) == []
    ensures var r := AgentRun(tc, gated, base, [], soft0, opening, script).0;
      r.calls != [] ==>
        (Answerable(r.calls[0].context) <==>
          base != [] && (base[|base| - 1].Assistant? ==> UnpairedTail(base)))
  {
    hide AgentRun, ValidScript, ResumedContext, ResumeOk, UnpairedTail, Paired;
    FirstCall(tc, gated, base, soft0, opening, script);
    QueuedContext(base, soft0, opening, script[0].directive);
    ResumedAnswerable(base, opening);
  }
}
