/** What a run of `AgentLoop` says and when it is over, read off its inputs: the context of every model call and every
    loop head, the messages recorded as new, the turn events, and the round and the way the run ends. */
module AgentTranscript {
  import opened Wrappers
  import opened Transcript
  import ToolBatch
  import opened AgentLoop
  import opened AgentTrace

  // ---------------------------------------------------------------- what a round adds

  /** The reminders that the directive of round `k` announces: those of a requirement that was not in force before. */
  function Announced(x: Input, k: nat): seq<Msg>
    requires k < |x.script|
  {
    var d := x.script[k].directive;
    if (k > 0 && x.script[k - 1].response.Leaked?) || !d.Soft? || ActivationBefore(x, k) == IdOf(d) then []
    else Reminders(d.requirement)
  }

  /** Round `k` has a response that is committed. */
  predicate CommitsAt(script: seq<Round>, k: nat)
    requires k < |script|
  {
    var response := script[k].response;
    HasCalls(response) && (response.Recovered? ==> ResumesAt(script, k) < MAX_HARMONY_RETRIES)
  }

  /** The message of a response: it does not reach the context when its stream never started. */
  function Reply(response: Response, recorded: bool): seq<Msg>
    requires HasCalls(response)
  {
    if Unstarted(response) && !recorded then [] else [Assistant(response.calls, response.stop)]
  }

  /** The results that answer the calls of round `k`: those of its tools when they run, else one placeholder each;
      none when the run gives up. */
  function AnswersAt(x: Input, k: nat): seq<Msg>
    requires ValidScript(x.script) && k < |x.script| && CommitsAt(x.script, k)
  {
    if GivesUpAt(x, k) then []
    else if RunsAt(x, k) then BatchResults(x.script[k].response.calls, x.script[k].batch, x.script[k].schedule)
    else Placeholders(Runnable(x.script[k].response.calls))
  }

  function Committed(x: Input, k: nat, recorded: bool): seq<Msg>
    requires ValidScript(x.script) && k < |x.script|
  {
    if CommitsAt(x.script, k) then Reply(x.script[k].response, recorded) + AnswersAt(x, k) else []
  }

  /** What is said before the head of round `k`; `recorded` asks for the messages recorded as new, otherwise it is
      what the context holds. */
  function Said(x: Input, opening: Opening, k: nat, recorded: bool): seq<Msg>
    requires ValidScript(x.script) && k <= |x.script|
    decreases k, 0
  {
    if k == 0 then [] else Sent(x, opening, k - 1, recorded) + Committed(x, k - 1, recorded)
  }

  /** And before its model call: the queued messages fold in, then the reminders. */
  function Sent(x: Input, opening: Opening, k: nat, recorded: bool): seq<Msg>
    requires ValidScript(x.script) && k < |x.script|
    decreases k, 1
  {
    Said(x, opening, k, recorded) + Notes(Waiting(x, opening, k)) + Announced(x, k)
  }

  // ---------------------------------------------------------------- when the run is over

  /** How the run ends where the agent would stop, unless late messages bring it back. */
  function AfterYield(x: Input, k: nat): Option<Outcome>
    requires k < |x.script|
  {
    var round := x.script[k];
    if round.deadlineAtYield then Some(Ended)
    else if round.yieldThrows then Some(Failed)
    else if round.deadlineAfterYield then Some(Ended)
    else if round.lateFails.Some? then Some(Failed)
    else if round.lateMessages == [] then Some(Ended)
    else None
  }

  /** How the run ends with or after the model call of round `k`, if it does. */
  function AfterCall(x: Input, k: nat): Option<Outcome>
    requires k < |x.script|
  {
    var round := x.script[k];
    if !CommitsAt(x.script, k) && !RetriesLeak(x.script, k) then Some(Failed)
    else if CommitsAt(x.script, k) && (round.response.stop.Errored? || round.response.stop.Aborted?) then Some(Ended)
    else if GivesUpAt(x, k) then Some(SoftAborted)
    else if !RetriesLeak(x.script, k) && round.turnEndThrows then Some(Failed)
    else if !RetriesLeak(x.script, k) && round.deadlineAfterTurn then Some(Ended)
    else if !RetriesLeak(x.script, k) && round.pollFails.Some? then Some(Failed)
    else if YieldsAfter(x, k) then AfterYield(x, k)
    else None
  }

  /** How the run ends between the head of round `n` and its model call, if it does. */
  function BeforeCall(x: Input, gated: bool, n: nat): Option<Outcome>
    requires n <= |x.script|
  {
    if n == |x.script| then Some(Cut)
    else
      var round := x.script[n];
      if round.deadlineAtHead then Some(Ended)
      else if round.syncThrows || round.prepareThrows then Some(Failed)
      else if gated && (round.gateStops || round.aborted) then
        if n > 0 && x.script[n - 1].response.Leaked? && round.turnEndThrows then Some(Failed) else Some(GateStopped)
      else None
  }

  /** How a run ends that makes `n` model calls; none if it makes more. */
  function EndOf(x: Input, gated: bool, n: nat): Option<Outcome>
    requires n <= |x.script|
  {
    if n > 0 && AfterCall(x, n - 1).Some? then AfterCall(x, n - 1) else BeforeCall(x, gated, n)
  }

  /** The run of `n` calls is over before the queued messages of round `n` fold in. */
  predicate OverAtHead(x: Input, n: nat)
    requires n <= |x.script|
  {
    (n > 0 && AfterCall(x, n - 1).Some?) || n == |x.script| || x.script[n].deadlineAtHead
  }

  /** All that is said in a run of `n` calls; a gate stop closes an open turn with a message of its own. */
  function AllSaid(x: Input, opening: Opening, n: nat, recorded: bool): seq<Msg>
    requires ValidScript(x.script) && n <= |x.script|
  {
    if OverAtHead(x, n) then Said(x, opening, n, recorded)
    else if x.script[n].syncThrows then Said(x, opening, n, recorded) + Notes(Waiting(x, opening, n))
    else if x.script[n].prepareThrows || n == 0 || !x.script[n - 1].response.Leaked? then Sent(x, opening, n, recorded)
    else Sent(x, opening, n, recorded) + [Assistant([], Aborted)]
  }

  /** The events of complete turns. */
  function Turns(m: nat): seq<Event> {
    if m == 0 then [] else Turns(m - 1) + [TurnStart, TurnEnd]
  }

  /** The turn events so far: complete turns, then perhaps the start of an open one. */
  function TurnEvents(m: nat, open: bool): seq<Event> {
    Turns(m) + if open then [TurnStart] else []
  }

  /** The turn of round `k` was closed. */
  predicate ClosesAt(x: Input, k: nat)
    requires k < |x.script|
  {
    CommitsAt(x.script, k) && !GivesUpAt(x, k)
  }

  /** All the events of a run of `n` calls before whose first round `m` turns were complete. */
  function AllEvents(x: Input, gated: bool, m: nat, n: nat): seq<Event>
    requires n <= |x.script| && EndOf(x, gated, n).Some?
  {
    var leaked := n > 0 && x.script[n - 1].response.Leaked?;
    var turns :=
      if n > 0 && AfterCall(x, n - 1).Some? then
        if ClosesAt(x, n - 1) then TurnEvents(m + TurnAt(x.script, n), false)
        else TurnEvents(m + TurnAt(x.script, n - 1), true)
      else if OverAtHead(x, n) then TurnEvents(m + TurnAt(x.script, n), leaked)
      else if x.script[n].syncThrows || x.script[n].prepareThrows then TurnEvents(m + TurnAt(x.script, n), true)
      else TurnEvents(m + TurnAt(x.script, n) + (if leaked then 1 else 0), false);
    var outcome := EndOf(x, gated, n).value;
    turns + if outcome.Ended? || outcome.GateStopped? then [AgentEnd] else []
  }

  // ---------------------------------------------------------------- the run says that

  /** Where the first round starts. */
  datatype Begun = Begun(context: seq<Msg>, added: seq<Msg>, turns: nat)

  predicate HeadSaid(x: Input, opening: Opening, b: Begun, h: Head, k: nat)
    requires ValidScript(x.script) && k <= |x.script|
  {
    && h.context == b.context + Said(x, opening, k, false)
    && h.added == b.added + Said(x, opening, k, true)
  }

  /** Every model call so far was sent, and every head held, what the inputs say, and the run was not over before. */
  predicate SaidSoFar(x: Input, gated: bool, opening: Opening, b: Begun, r: Run)
    requires ValidScript(x.script)
  {
    && |r.calls| <= |r.heads| <= |x.script| + 1 && |r.calls| <= |x.script|
    && (forall k | 0 <= k < |r.heads| :: k <= |x.script| && HeadSaid(x, opening, b, r.heads[k], k))
    && (forall k | 0 <= k < |r.calls| :: r.calls[k].context == b.context + Sent(x, opening, k, false))
    && (forall k | 0 <= k < |r.calls| :: EndOf(x, gated, k).None?)
  }

  /** At the head of the loop. */
  predicate SaidHead(x: Input, gated: bool, opening: Opening, b: Begun, r: Run)
    requires ValidScript(x.script)
  {
    var n := |r.calls|;
    && SaidSoFar(x, gated, opening, b, r) && |r.heads| == n
    && r.context == b.context + Said(x, opening, n, false)
    && r.added == b.added + Said(x, opening, n, true)
    && (r.turnOpen <==> n > 0 && x.script[n - 1].response.Leaked?)
    && r.events == TurnEvents(b.turns + TurnAt(x.script, n), r.turnOpen)
    && (n > 0 ==> AfterCall(x, n - 1) == if r.hasMore || r.pending != [] then None else AfterYield(x, n - 1))
  }

  /** Before a model call. */
  predicate SaidTurn(x: Input, gated: bool, opening: Opening, b: Begun, r: Run)
    requires ValidScript(x.script)
  {
    var n := |r.calls|;
    && SaidSoFar(x, gated, opening, b, r) && |r.heads| == n + 1 && n < |x.script|
    && EndOf(x, gated, n).None?
    && r.context == b.context + Sent(x, opening, n, false)
    && r.added == b.added + Sent(x, opening, n, true)
    && r.turnOpen && r.events == TurnEvents(b.turns + TurnAt(x.script, n), true)
  }

  /** When the run is over. */
  predicate SaidEnd(x: Input, gated: bool, opening: Opening, b: Begun, r: Run, outcome: Outcome)
    requires ValidScript(x.script)
  {
    var n := |r.calls|;
    && SaidSoFar(x, gated, opening, b, r)
    && EndOf(x, gated, n) == Some(outcome)
    && r.context == b.context + AllSaid(x, opening, n, false)
    && r.added == b.added + AllSaid(x, opening, n, true)
    && r.events == AllEvents(x, gated, b.turns, n)
  }

  predicate SaidStep(x: Input, gated: bool, opening: Opening, b: Begun, s: Step)
    requires ValidScript(x.script)
  {
    if s.stop.Some? then SaidEnd(x, gated, opening, b, s.run, s.stop.value) else SaidHead(x, gated, opening, b, s.run)
  }

  lemma Joins(a: seq<Msg>, b: seq<Msg>, c: seq<Msg>)
    ensures a + (b + c) == a + b + c
  {
  }

  lemma EventsJoin(m: nat)
    ensures TurnEvents(m, true) + [TurnEnd] == TurnEvents(m + 1, false)
    ensures TurnEvents(m, false) + [TurnStart] == TurnEvents(m, true)
  {
    assert Turns(m) + [TurnStart] + [TurnEnd] == Turns(m + 1) + [];
  }

  // ---------------------------------------------------------------- the first half of a round

  /** Resolving the directive announces its reminders. */
  lemma ResolveSays(x: Input, resumed: seq<Msg>, r: Run)
    requires ValidScript(x.script) && RecordedHead(x, resumed, r) && |r.calls| < |x.script|
    ensures var n := |r.calls|;
      var q := ResolveDirective(r, x.script[n].directive);
      && q.context == r.context + Announced(x, n) && q.added == r.added + Announced(x, n)
      && q.turnOpen == r.turnOpen && q.events == r.events && q.heads == r.heads && q.calls == r.calls
  {
    hide Recorded, RealResults, InForce, ForcedBefore, SpentBefore, GivesUpAt;
    assert r.context + [] == r.context && r.added + [] == r.added;
  }

  lemma NoteHeadSays(x: Input, gated: bool, opening: Opening, b: Begun, r: Run)
    requires ValidScript(x.script) && SaidHead(x, gated, opening, b, r)
    ensures SaidSoFar(x, gated, opening, b, NoteHead(r))
  {
    hide Said, Sent, EndOf, AfterCall;
  }

  lemma SameSoFar(x: Input, gated: bool, opening: Opening, b: Begun, r: Run, r': Run)
    requires ValidScript(x.script) && SaidSoFar(x, gated, opening, b, r) && r'.calls == r.calls && r'.heads == r.heads
    ensures SaidSoFar(x, gated, opening, b, r')
  {
  }

  /** The queued messages fold in. */
  lemma CommitSays(x: Input, gated: bool, opening: Opening, b: Begun, start: Run)
    requires ValidScript(x.script) && SaidHead(x, gated, opening, b, start)
    requires start.pending == Waiting(x, opening, |start.calls|)
    ensures var n := |start.calls|; var c := CommitPending(NoteHead(start));
      && SaidSoFar(x, gated, opening, b, c) && |c.heads| == n + 1 && c.calls == start.calls
      && c.context == b.context + (Said(x, opening, n, false) + Notes(Waiting(x, opening, n)))
      && c.added == b.added + (Said(x, opening, n, true) + Notes(Waiting(x, opening, n)))
      && c.turnOpen == start.turnOpen && c.events == start.events
  {
    hide Said, Sent, EndOf, AfterCall, Waiting, Notes, SaidSoFar, TurnEvents;
    var n := |start.calls|;
    NoteHeadSays(x, gated, opening, b, start);
    SameSoFar(x, gated, opening, b, NoteHead(start), CommitPending(NoteHead(start)));
    Joins(b.context, Said(x, opening, n, false), Notes(Waiting(x, opening, n)));
    Joins(b.added, Said(x, opening, n, true), Notes(Waiting(x, opening, n)));
    assert SaidSoFar(x, gated, opening, b, start) && |start.heads| == n;
  }

  /** A prepared turn is opened, or the run ends without a call. */
  lemma PreparedSays(x: Input, gated: bool, opening: Opening, b: Begun, q: Run)
    requires ValidScript(x.script) && |q.calls| < |x.script|
    requires var n := |q.calls|;
      && SaidSoFar(x, gated, opening, b, q) && |q.heads| == n + 1
      && q.context == b.context + Sent(x, opening, n, false) && q.added == b.added + Sent(x, opening, n, true)
      && (q.turnOpen <==> n > 0 && x.script[n - 1].response.Leaked?)
      && q.events == TurnEvents(b.turns + TurnAt(x.script, n), q.turnOpen)
      && (n > 0 ==> AfterCall(x, n - 1).None?)
      && !x.script[n].deadlineAtHead && !x.script[n].syncThrows
    ensures var end := BeforeCall(x, gated, |q.calls|);
      && (x.script[|q.calls|].prepareThrows ==> SaidEnd(x, gated, opening, b, OpenTurn(q), Failed))
      && (end == Some(Failed) && !x.script[|q.calls|].prepareThrows ==>
            q.turnOpen && SaidEnd(x, gated, opening, b, CloseAtGate(q), Failed))
      && (end == Some(GateStopped) ==> SaidEnd(x, gated, opening, b, StopAtGate(q), GateStopped))
      && (end.None? ==> SaidTurn(x, gated, opening, b, OpenTurn(q)))
  {
    hide Said, Sent, AfterCall, SaidSoFar, TurnEvents, TurnAt;
    var n := |q.calls|;
    SameSoFar(x, gated, opening, b, q, OpenTurn(q));
    SameSoFar(x, gated, opening, b, q, CloseAtGate(q));
    SameSoFar(x, gated, opening, b, q, StopAtGate(q));
    Joins(b.context, Sent(x, opening, n, false), [Assistant([], Aborted)]);
    Joins(b.added, Sent(x, opening, n, true), [Assistant([], Aborted)]);
    EventsJoin(b.turns + TurnAt(x.script, n));
    var open, closed := OpenTurn(q).events, CloseAtGate(q).events;
    assert open + [] == open && closed + [] == closed;
  }

  /** The turn is prepared. */
  lemma PrepareSays(x: Input, gated: bool, opening: Opening, b: Begun, resumed: seq<Msg>, c: Run)
    requires ValidScript(x.script) && RecordedHead(x, resumed, c) && |c.calls| < |x.script|
    requires var n := |c.calls|;
      && SaidSoFar(x, gated, opening, b, c) && |c.heads| == n + 1
      && c.context == b.context + (Said(x, opening, n, false) + Notes(Waiting(x, opening, n)))
      && c.added == b.added + (Said(x, opening, n, true) + Notes(Waiting(x, opening, n)))
      && (c.turnOpen <==> n > 0 && x.script[n - 1].response.Leaked?)
      && c.events == TurnEvents(b.turns + TurnAt(x.script, n), c.turnOpen)
      && (n > 0 ==> AfterCall(x, n - 1).None?)
      && !x.script[n].deadlineAtHead && !x.script[n].syncThrows
    ensures var s := PrepareTurn(gated, x.script[|c.calls|], c);
      if s.stop.Some? then SaidEnd(x, gated, opening, b, s.run, s.stop.value) else SaidTurn(x, gated, opening, b, s.run)
  {
    hide Said, AfterCall, Waiting, Notes, SaidSoFar, TurnEvents, ResolveDirective, RecordedHead, Announced, SaidEnd,
      SaidTurn, OpenTurn, CloseAtGate, StopAtGate;
    var n := |c.calls|;
    var q := ResolveDirective(c, x.script[n].directive);
    ResolveSays(x, resumed, c);
    SameSoFar(x, gated, opening, b, c, q);
    Joins(b.context, Said(x, opening, n, false) + Notes(Waiting(x, opening, n)), Announced(x, n));
    Joins(b.added, Said(x, opening, n, true) + Notes(Waiting(x, opening, n)), Announced(x, n));
    PreparedSays(x, gated, opening, b, q);
  }

  lemma EnterSays(x: Input, gated: bool, opening: Opening, b: Begun, resumed: seq<Msg>, start: Run)
    requires ValidScript(x.script) && RecordedHead(x, resumed, start) && |start.calls| < |x.script|
    requires SaidHead(x, gated, opening, b, start) && start.pending == Waiting(x, opening, |start.calls|)
    requires start.hasMore || start.pending != []
    ensures var s := EnterTurn(gated, x.script[|start.calls|], start);
      if s.stop.Some? then SaidEnd(x, gated, opening, b, s.run, s.stop.value) else SaidTurn(x, gated, opening, b, s.run)
  {
    hide Said, AfterCall, Waiting, Notes, SaidSoFar, TurnEvents, PrepareTurn, RecordedHead, RealResults, Announced;
    var n := |start.calls|;
    NoteHeadSays(x, gated, opening, b, start);
    var r := NoteHead(start);
    SameSoFar(x, gated, opening, b, r, EndAgent(r));
    CommitSays(x, gated, opening, b, start);
    var c := CommitPending(r);
    SameSoFar(x, gated, opening, b, c, OpenTurn(c));
    EventsJoin(b.turns + TurnAt(x.script, n));
    var open := TurnEvents(b.turns + TurnAt(x.script, n), true);
    assert open + [] == open;
    if !x.script[n].deadlineAtHead && !x.script[n].syncThrows {
      RealPush(start.added, Notes(start.pending));
      SameHead(x, resumed, start, c);
      PrepareSays(x, gated, opening, b, resumed, c);
    }
  }

  // ---------------------------------------------------------------- the second half of a round

  /** The model call is sent the context as it is. */
  lemma CalledSays(x: Input, gated: bool, opening: Opening, b: Begun, start: Run)
    requires ValidScript(x.script) && SaidTurn(x, gated, opening, b, start) && start.turns != []
    ensures var r := CallModel(start, x.tc);
      SaidSoFar(x, gated, opening, b, r) && |r.calls| == |r.heads| == |start.calls| + 1
  {
    hide Said, Sent, EndOf, TurnEvents, EffectiveChoice;
  }

  /** What round `n` has said by the time it is over. */
  lemma SaidNext(x: Input, opening: Opening, b: seq<Msg>, n: nat, recorded: bool)
    requires ValidScript(x.script) && n < |x.script|
    ensures b + Said(x, opening, n + 1, recorded) == b + Sent(x, opening, n, recorded) + Committed(x, n, recorded)
    ensures !CommitsAt(x.script, n) ==>
              b + Said(x, opening, n + 1, recorded) == b + Sent(x, opening, n, recorded)
    ensures CommitsAt(x.script, n) ==>
              b + Said(x, opening, n + 1, recorded) ==
              b + Sent(x, opening, n, recorded) + Reply(x.script[n].response, recorded) + AnswersAt(x, n)
  {
    hide Sent, Reply, AnswersAt, ResumesAt;
    var sent := Sent(x, opening, n, recorded);
    Joins(b, sent, Committed(x, n, recorded));
    assert sent + [] == sent;
    if CommitsAt(x.script, n) {
      Joins(b + sent, Reply(x.script[n].response, recorded), AnswersAt(x, n));
    }
  }

  /** The run is over in its last round. */
  lemma EndSays(x: Input, gated: bool, opening: Opening, b: Begun, r: Run, n: nat, outcome: Outcome)
    requires ValidScript(x.script) && n < |x.script| && |r.calls| == n + 1 && SaidSoFar(x, gated, opening, b, r)
    requires AfterCall(x, n) == Some(outcome)
    requires r.context == b.context + Said(x, opening, n + 1, false)
    requires r.added == b.added + Said(x, opening, n + 1, true)
    requires r.events == (if ClosesAt(x, n) then TurnEvents(b.turns + TurnAt(x.script, n + 1), false)
                          else TurnEvents(b.turns + TurnAt(x.script, n), true)) +
                         if outcome.Ended? || outcome.GateStopped? then [AgentEnd] else []
    ensures SaidEnd(x, gated, opening, b, r, outcome)
  {
    hide Said, SaidSoFar, TurnEvents, AfterCall, ClosesAt, TurnAt;
  }

  /** The response is not committed, and the run fails. */
  lemma UncommittedEnds(x: Input, gated: bool, opening: Opening, b: Begun, start: Run)
    requires ValidScript(x.script) && SaidTurn(x, gated, opening, b, start) && start.turns != []
    requires !CommitsAt(x.script, |start.calls|) && !RetriesLeak(x.script, |start.calls|)
    ensures SaidEnd(x, gated, opening, b, CallModel(start, x.tc), Failed)
  {
    hide Sent, Said, Committed, SaidSoFar, TurnEvents, Turns, EffectiveChoice, AfterCall, CommitsAt, RetriesLeak,
      ClosesAt;
    var n := |start.calls|;
    var r := CallModel(start, x.tc);
    CalledSays(x, gated, opening, b, start);
    SaidNext(x, opening, b.context, n, false);
    SaidNext(x, opening, b.added, n, true);
    UncommittedSettles(x, n);
    assert r.events + [] == r.events;
    EndSays(x, gated, opening, b, r, n, Failed);
  }

  /** The leak is retried. */
  lemma RetrySays(x: Input, gated: bool, opening: Opening, b: Begun, start: Run)
    requires ValidScript(x.script) && SaidTurn(x, gated, opening, b, start) && FlowTurn(x, opening, start)
    requires start.turns != [] && RetriesLeak(x.script, |start.calls|)
    ensures var r := CallModel(start, x.tc);
      SaidHead(x, gated, opening, b, r.(retries := r.retries + 1))
  {
    hide Sent, Said, Committed, SaidSoFar, TurnEvents, Turns, EffectiveChoice, AfterCall, YieldsAfter, MoreAfter,
      Goes, PausedBefore, Polled, Waiting, LostAt, AfterYield;
    var n := |start.calls|;
    var r := CallModel(start, x.tc);
    CalledSays(x, gated, opening, b, start);
    SameSoFar(x, gated, opening, b, r, r.(retries := r.retries + 1));
    SaidNext(x, opening, b.context, n, false);
    SaidNext(x, opening, b.added, n, true);
    UncommittedSettles(x, n);
    UnsettledFlows(x, opening, start);
    SameOpener(x, n);
  }

  lemma UncommittedSettles(x: Input, n: nat)
    requires n < |x.script| && !CommitsAt(x.script, n)
    ensures !SettlesAt(x.script, n) && !GivesUpAt(x, n) && !ClosesAt(x, n)
    ensures AfterCall(x, n) == if !RetriesLeak(x.script, n) then Some(Failed)
                               else if YieldsAfter(x, n) then AfterYield(x, n) else None
  {
    hide YieldsAfter, AfterYield, SpentAt;
  }

  /** A committed response, before its calls are answered. */
  lemma CommittedSays(x: Input, gated: bool, opening: Opening, b: Begun, start: Run)
    requires ValidScript(x.script) && SaidTurn(x, gated, opening, b, start) && start.turns != []
    requires CommitsAt(x.script, |start.calls|)
    ensures var n := |start.calls|; var response := x.script[n].response;
      var r := CommitResponse(CallModel(start, x.tc), response);
      && SaidSoFar(x, gated, opening, b, r) && |r.calls| == |r.heads| == n + 1
      && r.context == b.context + Sent(x, opening, n, false) + Reply(response, false)
      && r.added == b.added + Sent(x, opening, n, true) + Reply(response, true)
      && r.turnOpen && r.events == start.events
      && TurnAt(x.script, n + 1) == TurnAt(x.script, n) + 1
  {
    hide Sent, Said, SaidSoFar, TurnEvents, EffectiveChoice;
    var r := CallModel(start, x.tc);
    CalledSays(x, gated, opening, b, start);
    var response := x.script[|start.calls|].response;
    SameSoFar(x, gated, opening, b, r, CommitResponse(r, response));
    assert r.context + [] == r.context;
  }

  /** The response failed: its calls get placeholders and the run ends. */
  lemma FailedSays(x: Input, gated: bool, opening: Opening, b: Begun, start: Run)
    requires ValidScript(x.script) && SaidTurn(x, gated, opening, b, start) && start.turns != []
    requires CommitsAt(x.script, |start.calls|) && !SettlesAt(x.script, |start.calls|)
    ensures var response := x.script[|start.calls|].response;
      SaidEnd(x, gated, opening, b, EndFailedTurn(CommitResponse(CallModel(start, x.tc), response), response), Ended)
  {
    hide Sent, Said, SaidSoFar, TurnEvents, Turns, EffectiveChoice, Committed, Runnable;
    var n := |start.calls|;
    CommittedSays(x, gated, opening, b, start);
    var response := x.script[n].response;
    var r := CommitResponse(CallModel(start, x.tc), response);
    var f := EndFailedTurn(r, response);
    SameSoFar(x, gated, opening, b, r, f);
    SaidNext(x, opening, b.context, n, false);
    SaidNext(x, opening, b.added, n, true);
    EventsJoin(b.turns + TurnAt(x.script, n));
    EndSays(x, gated, opening, b, f, n, Ended);
  }

  /** The requirement is given up: the response stays unanswered. */
  lemma GiveUpSays(x: Input, gated: bool, opening: Opening, b: Begun, start: Run, turns: seq<Turn>)
    requires ValidScript(x.script) && SaidTurn(x, gated, opening, b, start) && start.turns != []
    requires CommitsAt(x.script, |start.calls|) && GivesUpAt(x, |start.calls|)
    ensures var response := x.script[|start.calls|].response;
      SaidEnd(x, gated, opening, b, CommitResponse(CallModel(start, x.tc), response).(turns := turns), SoftAborted)
  {
    hide Sent, Said, SaidSoFar, TurnEvents, Turns, EffectiveChoice, Committed, SpentAt, Runnable;
    var n := |start.calls|;
    CommittedSays(x, gated, opening, b, start);
    var r := CommitResponse(CallModel(start, x.tc), x.script[n].response);
    var g := r.(turns := turns);
    SameSoFar(x, gated, opening, b, r, g);
    SaidNext(x, opening, b.context, n, false);
    SaidNext(x, opening, b.added, n, true);
    assert g.context + [] == g.context && g.added + [] == g.added && g.events + [] == g.events;
    EndSays(x, gated, opening, b, g, n, SoftAborted);
  }

  /** How the run goes on after a turn that is settled. */
  lemma FinishOutcome(x: Input, opening: Opening, t: Run, n: nat)
    requires FlowSettled(x, opening, t, n)
    ensures var s := FinishTurn(x.script[n], t);
      && ClosesAt(x, n)
      && (s.stop.Some? ==> AfterCall(x, n) == s.stop)
      && (s.stop.None? ==>
            AfterCall(x, n) == if s.run.hasMore || s.run.pending != [] then None else AfterYield(x, n))
      && s.run.turnOpen == false && s.run.context == t.context && s.run.added == t.added
      && s.run.calls == t.calls && s.run.heads == t.heads
      && s.run.events == t.events + [TurnEnd] + (if s.stop == Some(Ended) then [AgentEnd] else [])
      && !x.script[n].response.Leaked? && s.stop != Some(GateStopped)
  {
    hide MoreAfter, TurnPoll, AfterYield, Polled, GivesUpAt, WantsMore, PausedBefore, Runnable;
    FinishPolls(x, opening, t, n);
    var events := t.events + [TurnEnd];
    assert events + [] == events;
  }

  lemma FinishSays(x: Input, gated: bool, opening: Opening, b: Begun, t: Run, n: nat)
    requires ValidScript(x.script) && FlowSettled(x, opening, t, n)
    requires SaidSoFar(x, gated, opening, b, t) && |t.calls| == |t.heads| == n + 1
    requires t.context == b.context + Said(x, opening, n + 1, false)
    requires t.added == b.added + Said(x, opening, n + 1, true)
    requires t.events == TurnEvents(b.turns + TurnAt(x.script, n), true)
    requires TurnAt(x.script, n + 1) == TurnAt(x.script, n) + 1
    ensures SaidStep(x, gated, opening, b, FinishTurn(x.script[n], t))
  {
    hide FinishTurn, Polled, PausedBefore, WantsMore, GivesUpAt, Said, SaidSoFar, TurnEvents, AfterCall, AfterYield,
      ClosesAt, SaidEnd, TurnAt;
    FinishOutcome(x, opening, t, n);
    EventsJoin(b.turns + TurnAt(x.script, n));
    var s := FinishTurn(x.script[n], t);
    SameSoFar(x, gated, opening, b, t, s.run);
    if s.stop.Some? {
      EndSays(x, gated, opening, b, s.run, n, s.stop.value);
    } else {
      assert s.run.events == TurnEvents(b.turns + TurnAt(x.script, n + 1), false);
    }
  }

  /** A turn whose calls are run or paired. */
  lemma QuietSays(x: Input, gated: bool, opening: Opening, b: Begun, start: Run)
    requires ValidScript(x.script) && SaidTurn(x, gated, opening, b, start) && FlowTurn(x, opening, start)
    requires start.turns != [] && SettlesAt(x.script, |start.calls|) && !ViolatesAt(x, |start.calls|)
    ensures var round := x.script[|start.calls|];
      var t := SettleCalls(CommitResponse(CallModel(start, x.tc), round.response), round);
      SaidStep(x, gated, opening, b, FinishTurn(round, t))
  {
    hide Sent, Said, SaidSoFar, TurnEvents, EffectiveChoice, SaidStep, Committed, FlowTurn, FlowSettled, SettleCalls,
      ViolatesAt, FinishTurn, ValidRound, Reply, Runnable;
    var n := |start.calls|;
    var round := x.script[n];
    CommittedSays(x, gated, opening, b, start);
    QuietFlows(x, opening, start);
    var r := CommitResponse(CallModel(start, x.tc), round.response);
    SettlePushes(r, round);
    var t := SettleCalls(r, round);
    assert AnswersAt(x, n) == SettledResults(round);
    SameSoFar(x, gated, opening, b, r, t);
    SaidNext(x, opening, b.context, n, false);
    SaidNext(x, opening, b.added, n, true);
    FinishSays(x, gated, opening, b, t, n);
  }

  /** A detour: every call gets a placeholder. */
  lemma DetourSays(x: Input, gated: bool, opening: Opening, b: Begun, start: Run)
    requires ValidScript(x.script) && SaidTurn(x, gated, opening, b, start) && FlowTurn(x, opening, start)
    requires start.turns != [] && start.req.Some? && ViolatesAt(x, |start.calls|) && !GivesUpAt(x, |start.calls|)
    ensures var round := x.script[|start.calls|];
      var t := Escalate(CommitResponse(CallModel(start, x.tc), round.response), round.response);
      SaidStep(x, gated, opening, b, FinishTurn(round, t))
  {
    hide Sent, Said, SaidSoFar, TurnEvents, EffectiveChoice, SaidStep, Committed, FlowTurn, FlowSettled, GivesUpAt,
      FinishTurn, Reply, Compliant, DirectiveAt, Runnable, ResumesAt;
    var n := |start.calls|;
    var round := x.script[n];
    CommittedSays(x, gated, opening, b, start);
    EscalatedFlows(x, opening, start);
    var r := CommitResponse(CallModel(start, x.tc), round.response);
    var t := Escalate(r, round.response);
    SameSoFar(x, gated, opening, b, r, t);
    SaidNext(x, opening, b.context, n, false);
    SaidNext(x, opening, b.added, n, true);
    FinishSays(x, gated, opening, b, t, n);
  }

  lemma CallSays(x: Input, gated: bool, opening: Opening, b: Begun, resumed: seq<Msg>, start: Run)
    requires ValidScript(x.script) && RecordedTurn(x, resumed, start) && FlowTurn(x, opening, start)
    requires SaidTurn(x, gated, opening, b, start)
    ensures SaidStep(x, gated, opening, b, CallAndSettle(x.tc, x.script[|start.calls|], start))
  {
    hide Recorded, SaidTurn, SaidHead, SaidEnd, FlowTurn, EffectiveChoice, FinishTurn, SettleCalls, Escalate,
      CommitResponse, ViolatesAt, GivesUpAt, Violating, EndFailedTurn, ValidRound, ForcedAt, SpentAt;
    var n := |start.calls|;
    var response := x.script[n].response;
    if !CommitsAt(x.script, n) {
      RetriesMatch(x, opening, start);
      if RetriesLeak(x.script, n) {
        RetrySays(x, gated, opening, b, start);
      } else {
        UncommittedEnds(x, gated, opening, b, start);
      }
    } else if !SettlesAt(x.script, n) {
      FailedSays(x, gated, opening, b, start);
    } else {
      TestsMatch(x, start);
      if !ViolatesAt(x, n) {
        QuietSays(x, gated, opening, b, start);
      } else if !GivesUpAt(x, n) {
        DetourSays(x, gated, opening, b, start);
      } else {
        GiveUpSays(x, gated, opening, b, start, Marked(start.turns, Runnable(response.calls), false));
      }
    }
  }

  lemma RetriesMatch(x: Input, opening: Opening, start: Run)
    requires FlowTurn(x, opening, start)
    ensures start.retries == RetriesAt(x.script, |start.calls|)
  {
  }

  lemma RoundSays(x: Input, gated: bool, opening: Opening, b: Begun, prompts: seq<nat>, resumed: seq<Msg>, r: Run)
    requires ValidScript(x.script) && AtTraceHead(x, opening, prompts, resumed, r) && SaidHead(x, gated, opening, b, r)
    requires |r.calls| < |x.script| && (r.hasMore || r.pending != [])
    ensures r.resolved ==> r.turns != []
    ensures SaidStep(x, gated, opening, b, PlayRound(x.tc, gated, x.script[|r.calls|], r))
  {
    hide Recorded, RecordedHead, RecordedTurn, Drained, SaidHead, SaidTurn, SaidEnd, FlowTurn, FlowEnd, EnterTurn,
      CallAndSettle, ValidRound, Goes, Stops, GivesUpAt, Waiting;
    HeadNotGivenUp(x, resumed, r);
    EnterRecords(x, resumed, gated, r);
    EnterFlows(x, opening, gated, r);
    EnterSays(x, gated, opening, b, resumed, r);
    var e := EnterTurn(gated, x.script[|r.calls|], r);
    if e.stop.None? { CallSays(x, gated, opening, b, resumed, e.run); }
  }

  lemma HeadNotGivenUp(x: Input, resumed: seq<Msg>, r: Run)
    requires ValidScript(x.script) && RecordedHead(x, resumed, r)
    ensures r.calls != [] ==> |r.calls| <= |x.script| && !GivesUpAt(x, |r.calls| - 1)
    ensures r.resolved ==> r.turns != []
  {
  }

  /** The agent would stop. */
  lemma YieldSays(x: Input, gated: bool, opening: Opening, b: Begun, r: Run)
    requires ValidScript(x.script) && FlowHead(x, opening, r) && SaidHead(x, gated, opening, b, r)
    requires !r.hasMore && r.pending == [] && r.calls != []
    ensures SaidStep(x, gated, opening, b, Yield(x.script[|r.calls| - 1], r))
  {
    hide SaidSoFar, Said, AfterCall, TurnEvents, MoreAfter, TurnPoll, GivesUpAt, SaidEnd, RetriesAt, PausedBefore;
    var n := |r.calls| - 1;
    var s := Yield(x.script[n], r);
    SameSoFar(x, gated, opening, b, r, s.run);
    SameOpener(x, n);
    assert r.events + [] == r.events;
    if s.stop.Some? { EndSays(x, gated, opening, b, s.run, n, s.stop.value); }
  }

  lemma CutSays(x: Input, gated: bool, opening: Opening, b: Begun, r: Run)
    requires ValidScript(x.script) && SaidHead(x, gated, opening, b, r)
    requires |r.calls| == |x.script| && (r.hasMore || r.pending != [])
    ensures SaidEnd(x, gated, opening, b, r, Cut)
  {
    hide SaidSoFar, Said, AfterCall, TurnEvents;
    assert r.events + [] == r.events;
  }

  lemma {:induction false} PlaySays(x: Input, gated: bool, opening: Opening, b: Begun, prompts: seq<nat>, resumed: seq<Msg>,
                                    r: Run)
    requires ValidScript(x.script) && AtTraceHead(x, opening, prompts, resumed, r) && |r.calls| <= |x.script|
    requires SaidHead(x, gated, opening, b, r)
    ensures var (final, outcome) := Play(x.tc, gated, x.script, r);
      SaidEnd(x, gated, opening, b, final, outcome)
    decreases |x.script| - |r.calls|, if r.hasMore || r.pending != [] then 0 else 1
  {
    hide AtTraceHead, Traced, PlayRound, Yield, ValidScript, SaidHead, SaidEnd;
    if r.hasMore || r.pending != [] {
      if |r.calls| == |x.script| {
        CutSays(x, gated, opening, b, r);
        CutTraced(x, opening, prompts, resumed, r);
      } else {
        RoundTraced(x, opening, prompts, resumed, gated, r);
        RoundSays(x, gated, opening, b, prompts, resumed, r);
        ValidAt(x.script, |r.calls|);
        var s := PlayRound(x.tc, gated, x.script[|r.calls|], r);
        if s.stop.None? {
          HeadInScript(x, opening, prompts, resumed, s.run);
          PlaySays(x, gated, opening, b, prompts, resumed, s.run);
        }
      }
    } else {
      YieldTraced(x, opening, prompts, resumed, r);
      HeadFlows(x, opening, prompts, resumed, r);
      YieldSays(x, gated, opening, b, r);
      var s := Yield(x.script[|r.calls| - 1], r);
      if s.stop.None? { PlaySays(x, gated, opening, b, prompts, resumed, s.run); }
    }
  }

  lemma HeadFlows(x: Input, opening: Opening, prompts: seq<nat>, resumed: seq<Msg>, r: Run)
    requires ValidScript(x.script) && AtTraceHead(x, opening, prompts, resumed, r)
    ensures FlowHead(x, opening, r)
  {
  }

  // ---------------------------------------------------------------- every run

  /** Where the first round of a run starts: the prompts are added, and the calls of an unpaired tail have run. */
  function Opened(base: seq<Msg>, prompts: seq<nat>, opening: Opening): Begun {
    var resumed := ResumedResults(base, prompts, opening);
    Begun(base + Notes(prompts) + resumed, Notes(prompts) + resumed, if Resumes(base, prompts, opening) then 1 else 0)
  }

  /** How a run ends before its first round, if it does. */
  function EndAtOpening(base: seq<Msg>, prompts: seq<nat>, opening: Opening): Option<Outcome> {
    if opening.deadline then Some(Ended)
    else if opening.steeringThrows then Some(Failed)
    else if !Resumes(base, prompts, opening) then None
    else if opening.turnEndThrows then Some(Failed)
    else if opening.terminal then Some(Ended)
    else None
  }

  lemma OpenSays(x: Input, gated: bool, base: seq<Msg>, prompts: seq<nat>, opening: Opening)
    requires ValidScript(x.script)
    ensures var b := Opened(base, prompts, opening); var s := OpenRun(base, prompts, x.soft0, opening);
      && s.stop == EndAtOpening(base, prompts, opening)
      && s.run.context == b.context && s.run.added == b.added && s.run.heads == []
      && s.run.events == TurnEvents(b.turns, !opening.deadline && opening.steeringThrows) +
                         (if s.stop == Some(Ended) then [AgentEnd] else [])
      && (s.stop.None? ==> SaidHead(x, gated, opening, b, s.run))
  {
    hide BatchResults, RunsBatch, UnpairedTail, Notes;
    var notes := Notes(prompts);
    assert base + notes + [] == base + notes && notes + [] == notes;
    var b, s := Opened(base, prompts, opening), OpenRun(base, prompts, x.soft0, opening);
    assert b.context + [] == b.context && b.added + [] == b.added;
    assert Turns(0) == [] && Turns(1) == [] + [TurnStart, TurnEnd];
    assert [] + [TurnStart] + [TurnEnd] == [] + [TurnStart, TurnEnd];
  }

  /** Every run says exactly what its inputs demand. Each model call is sent the context that its head held, then the
      messages that were waiting, then the reminders its directive announces; the next head holds that, then the
      response as it came (unless its stream never started), then the results of its calls. The run makes calls up to
      the first round at which it ends, ends there in the way the inputs demand, and leaves the context, the new
      messages and the turn events they demand. */
  lemma ContextsFollowScript(x: Input, gated: bool, base: seq<Msg>, prompts: seq<nat>, opening: Opening)
    requires ValidScript(x.script) && x.soft0.escalations <= MAX_SOFT_TOOL_ESCALATIONS
    ensures var (r, outcome) := AgentRun(x.tc, gated, base, prompts, x.soft0, opening, x.script);
      var b := Opened(base, prompts, opening);
      match EndAtOpening(base, prompts, opening)
      case Some(end) =>
        && outcome == end && r.calls == [] && r.heads == [] && r.context == b.context && r.added == b.added
        && r.events == TurnEvents(b.turns, !opening.deadline && opening.steeringThrows) +
                       (if end.Ended? then [AgentEnd] else [])
      case None => SaidEnd(x, gated, opening, b, r, outcome)
  {
    hide OpenRun, Play, SaidHead, SaidEnd, Opened, EndAtOpening, AtTraceHead, Traced, ResumedResults, Over,
      TurnEvents;
    OpenSays(x, gated, base, prompts, opening);
    OpenTraced(x, base, prompts, opening);
    var s := OpenRun(base, prompts, x.soft0, opening);
    if s.stop.None? {
      PlaySays(x, gated, opening, Opened(base, prompts, opening), prompts, ResumedResults(base, prompts, opening), s.run);
    }
  }
}
