/** Concrete runs of `AgentLoop` in which a promise is broken. */
module AgentRuns {
  import opened Wrappers
  import opened Transcript
  import ToolBatch
  import opened AgentLoop

  /** A round in which nothing happens but this response. */
  function Plain(response: Response): Round {
    Round(false, false, Undirected, false, false, false, response, false, ToolBatch.Batch([], false, false), [],
          false, false, false, false, None, [], [], false, false, false, None, [])
  }

  const IDLE: Opening := Opening(false, false, [], ToolBatch.Batch([], false, false), [], false, false)

  const NO_SOFT: SoftState := SoftState(None, None, 0)

  /** The run of a script that starts with nothing. */
  function RunOf(script: seq<Round>): (Run, Outcome)
    requires ValidScript(script)
  {
    AgentRun(None, false, [], [], NO_SOFT, IDLE, script)
  }

  lemma PlainValid(round: Round)
    requires HasCalls(round.response) ==> round.response.calls == []
    requires round.batch == ToolBatch.Batch([], false, false) && round.schedule == []
    ensures ValidRound(round)
  {
  }

  /** A fresh turn whose response ends it without calls, with these messages steered in. */
  lemma PlainTurn(response: Response, steered: seq<nat>, r: Run)
    requires (response.Final? || response.Trailing?) && response.calls == [] && response.stop == EndTurn
    requires !r.resolved && !r.turnOpen && r.pending == []
    ensures ValidRound(Plain(response).(steering := steered))
    ensures var s := PlayRound(None, false, Plain(response).(steering := steered), r);
      && s.stop == None && !s.run.resolved && !s.run.turnOpen && !s.run.hasMore && s.run.retries == 0
      && s.run.pending == steered && s.run.events == r.events + [TurnStart, TurnEnd]
      && s.run.added == r.added + [Assistant([], EndTurn)]
      && s.run.context == (if Unstarted(response) then r.context else r.context + [Assistant([], EndTurn)])
      && |s.run.calls| == |r.calls| + 1 && s.run.heads == NoteHead(r).heads
  {
    PlainValid(Plain(response).(steering := steered));
    var round := Plain(response).(steering := steered);
    PlainEnters(round, r);
    var e := EnterTurn(false, round, r).run;
    assert e.events + [TurnEnd] == r.events + [TurnStart, TurnEnd];
    hide EnterTurn, ValidRound;
    var c := CommitResponse(CallModel(e, None), response);
    assert c.context == (if Unstarted(response) then r.context else r.context + [Assistant([], EndTurn)]);
    assert SettleTurn(None, round, CallModel(e, None)) == FinishTurn(round, SettleCalls(c, round));
  }

  lemma PlainEnters(round: Round, r: Run)
    requires !round.deadlineAtHead && !round.syncThrows && !round.prepareThrows && round.directive.Undirected?
    requires !r.resolved && !r.turnOpen
    ensures var s := EnterTurn(false, round, r);
      && s.stop == None && s.run.turnOpen && s.run.resolved && s.run.req == None && s.run.turns != []
      && s.run.pending == [] && s.run.events == r.events + [TurnStart] && s.run.added == r.added + Notes(r.pending)
      && s.run.context == r.context + Notes(r.pending) && s.run.hasMore == r.hasMore && s.run.retries == r.retries
      && s.run.paused == r.paused && s.run.polled == r.polled
  {
  }

  /** A stream that closes unstarted, and a queued message that leads to one more head. */
  lemma UnstartedRun()
    ensures var script := [Plain(Trailing([], EndTurn, false)).(steering := [5]), Plain(Throws)];
      ValidScript(script) &&
      var r := RunOf(script).0; |r.heads| == 2 && r.heads[1] == Head([], [Assistant([], EndTurn)])
  {
    hide PlayRound;
    var script := [Plain(Trailing([], EndTurn, false)).(steering := [5]), Plain(Throws)];
    assert [] + Notes([]) == [];
    var r0 := Start([], [], NO_SOFT);
    PlainTurn(script[0].response, [5], r0);
    var r1 := PlayRound(None, false, script[0], r0).run;
    PlainThrows(r1);
    assert Play(None, false, script, r0) == Play(None, false, script, r1);
  }

  lemma PlainThrows(r: Run)
    requires !r.resolved && !r.turnOpen
    ensures ValidRound(Plain(Throws))
    ensures var s := PlayRound(None, false, Plain(Throws), r);
      s.stop == Some(Failed) && s.run.heads == NoteHead(r).heads
  {
    PlainEnters(Plain(Throws), r);
    hide EnterTurn;
  }

  lemma PlainLeaks(r: Run)
    requires !r.resolved && !r.turnOpen && !r.hasMore && r.retries == 0
    ensures ValidRound(Plain(Leaked))
    ensures var s := PlayRound(None, false, Plain(Leaked), r);
      && s.stop == None && s.run.events == r.events + [TurnStart] && s.run.pending == [] && !s.run.hasMore
      && |s.run.calls| == |r.calls| + 1
  {
    PlainEnters(Plain(Leaked), r);
    hide EnterTurn;
  }

  /** A steered turn whose only response leaks: the run is over, and the turn is open. */
  lemma LeakedRun()
    ensures var script := [Plain(Final([], EndTurn)).(steering := [5]), Plain(Leaked)];
      ValidScript(script) &&
      var (r, outcome) := RunOf(script);
      outcome == Ended && r.events == [TurnStart, TurnEnd, TurnStart, AgentEnd] && TrackOf(r.events) == Open
  {
    hide PlayRound, ValidRound, TrackOf;
    var script := [Plain(Final([], EndTurn)).(steering := [5]), Plain(Leaked)];
    assert [] + Notes([]) == [];
    var r0 := Start([], [], NO_SOFT);
    PlainTurn(script[0].response, [5], r0);
    var r1 := PlayRound(None, false, script[0], r0).run;
    PlainLeaks(r1);
    var r2 := PlayRound(None, false, script[1], r1).run;
    assert Play(None, false, script, r2) == (EndAgent(r2), Ended);
    assert Play(None, false, script, r1) == Play(None, false, script, r2);
    assert Play(None, false, script, r0) == Play(None, false, script, r1);
    var events := EndAgent(r2).events;
    assert events == [] + [TurnStart] + [TurnEnd] + [TurnStart] + [AgentEnd];
    OneTurn();
    TrackSnoc([] + [TurnStart] + [TurnEnd], TurnStart);
    TrackSnoc([] + [TurnStart] + [TurnEnd] + [TurnStart], AgentEnd);
  }

  /** A paused turn whose poll throws after it took a message: the message is in neither the context nor the queue. */
  lemma LosingRun()
    ensures var script := [Plain(Final([], EndTurn)).(pauseTurn := true, pollFails := Some([7]))];
      ValidScript(script) &&
      var (r, outcome) := RunOf(script);
      outcome == Failed && r.lost == [7] && r.pending == [] && r.added == [Assistant([], EndTurn)]
  {
    hide PlayRound, ValidRound;
    var script := [Plain(Final([], EndTurn)).(pauseTurn := true, pollFails := Some([7]))];
    PlainValid(script[0]);
    assert [] + Notes([]) == [];
    var r0 := Start([], [], NO_SOFT);
    PausedTurnLoses(script[0], r0);
    assert Play(None, false, script, r0).0 == PlayRound(None, false, script[0], r0).run;
  }

  lemma PausedTurnLoses(round: Round, r: Run)
    requires round == Plain(Final([], EndTurn)).(pauseTurn := true, pollFails := Some([7])) && ValidRound(round)
    requires r == Start([], [], NO_SOFT)
    ensures var s := PlayRound(None, false, round, r);
      s.stop == Some(Failed) && s.run.lost == [7] && s.run.pending == [] && s.run.added == [Assistant([], EndTurn)]
  {
    PlainEnters(round, r);
    var e := EnterTurn(false, round, r).run;
    hide EnterTurn, ValidRound;
    var c := CommitResponse(CallModel(e, None), round.response);
    var t := SettleCalls(c, round);
    assert !t.hasMore && t.paused == 0 && t.pending == [] && t.added == [Assistant([], EndTurn)];
    assert SettleTurn(None, round, CallModel(e, None)) == FinishTurn(round, t);
  }

  /** A steer dequeued at the start of a run whose deadline then passes at the head of the first round: the run ends,
      no poll has thrown, and the steer is neither in the context nor in the queue. */
  lemma DiscardingRun()
    ensures var script := [Plain(Throws).(deadlineAtHead := true)];
      ValidScript(script) &&
      var (r, outcome) := AgentRun(None, false, [], [], NO_SOFT, IDLE.(steering := [5]), script);
      outcome == Ended && r.pending == [5] && r.lost == [] && r.context == [] && r.calls == []
  {
    hide PlayRound;
    var script := [Plain(Throws).(deadlineAtHead := true)];
    assert [] + Notes([]) == [];
    var r := Start([], [], NO_SOFT).(pending := [5], polled := [5]);
    DeadlineAtHead(script[0], r);
    assert Play(None, false, script, r) == (EndAgent(NoteHead(r)), Ended);
  }

  lemma DeadlineAtHead(round: Round, r: Run)
    requires round == Plain(Throws).(deadlineAtHead := true) && !r.resolved
    ensures ValidRound(round) && PlayRound(None, false, round, r) == Step(EndAgent(NoteHead(r)), Some(Ended))
  {
  }
}
