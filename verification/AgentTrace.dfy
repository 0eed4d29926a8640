/** What a run of `AgentLoop` does, read off its script.

    The functions here speak of the inputs of a run alone, never of its state: which logical turn a round belongs to,
    which directive governs it and which tool choice that sends, what the turn settles on, which tools run, whether
    the loop goes on, and what its polls of the queues hand over. The theorems say that every run does exactly that. */
module AgentTrace {
  import opened Wrappers
  import opened Transcript
  import ToolBatch
  import opened AgentLoop

  /** What a run depends on, apart from the messages it starts from. */
  datatype Input = Input(tc: Option<ToolChoice>, soft0: SoftState, script: seq<Round>)

  // ---------------------------------------------------------------- turns, directives and tools of a script

  /** The logical turn of round `k`: a leak asks for the same turn again, every other response completes its turn. */
  function TurnAt(script: seq<Round>, k: nat): nat
    requires k <= |script|
  {
    if k == 0 then 0 else TurnAt(script, k - 1) + if script[k - 1].response.Leaked? then 0 else 1
  }

  /** The round that opened the turn of round `k`. */
  function OpenerAt(script: seq<Round>, k: nat): (opener: nat)
    requires k <= |script|
    ensures opener <= k
  {
    if k > 0 && script[k - 1].response.Leaked? then OpenerAt(script, k - 1) else k
  }

  function DirectiveAt(script: seq<Round>, k: nat): Directive
    requires k <= |script| && OpenerAt(script, k) < |script|
  {
    script[OpenerAt(script, k)].directive
  }

  function ReqOf(d: Directive): Option<Requirement> {
    if d.Soft? then Some(d.requirement) else None
  }

  function IdOf(d: Directive): Option<nat> {
    if d.Soft? then Some(d.requirement.id) else None
  }

  /** The recovered responses in a row before round `k`; leaks do not interrupt the row. */
  function ResumesAt(script: seq<Round>, k: nat): nat
    requires k <= |script|
  {
    if k == 0 then 0
    else match script[k - 1].response
      case Recovered(_, _) => ResumesAt(script, k - 1) + 1
      case Leaked => ResumesAt(script, k - 1)
      case _ => 0
  }

  /** The leaks in a row before round `k`. */
  function RetriesAt(script: seq<Round>, k: nat): nat
    requires k <= |script|
  {
    if k > 0 && script[k - 1].response.Leaked? then RetriesAt(script, k - 1) + 1 else 0
  }

  /** Round `k` has a response whose calls the turn decides about: one that is committed and did not fail. */
  predicate SettlesAt(script: seq<Round>, k: nat)
    requires k < |script|
  {
    var response := script[k].response;
    && HasCalls(response) && !response.stop.Errored? && !response.stop.Aborted?
    && (response.Recovered? ==> ResumesAt(script, k) < MAX_HARMONY_RETRIES)
  }

  function SettledAt(script: seq<Round>, k: nat): Option<seq<Call>>
    requires k < |script|
  {
    if SettlesAt(script, k) then Some(Runnable(script[k].response.calls)) else None
  }

  /** Round `k` takes a detour while its turn's requirement is pending. */
  predicate ViolatesAt(x: Input, k: nat)
    requires k < |x.script|
  {
    var req := ReqOf(DirectiveAt(x.script, k));
    SettlesAt(x.script, k) && GateActive(x.tc, req) && !Compliant(req.value, Runnable(x.script[k].response.calls))
  }

  /** The requirement in force before the directive of round `k` is resolved. */
  function ActivationBefore(x: Input, k: nat): Option<nat>
    requires k <= |x.script|
  {
    if k == 0 then x.soft0.id else IdOf(DirectiveAt(x.script, k - 1))
  }

  /** The directive of round `k` goes on with the requirement of the turn before its own. */
  predicate ContinuesAt(x: Input, k: nat)
    requires k <= |x.script| && OpenerAt(x.script, k) < |x.script|
  {
    DirectiveAt(x.script, k).Soft? && ActivationBefore(x, OpenerAt(x.script, k)) == IdOf(DirectiveAt(x.script, k))
  }

  /** The choice that round `k - 1` leaves forced: its own requirement's tool if it took a detour. */
  function ForcedBefore(x: Input, k: nat): Option<ToolChoice>
    requires k <= |x.script|
  {
    if k == 0 then x.soft0.forced
    else if ViolatesAt(x, k - 1) then Some(Named(ReqOf(DirectiveAt(x.script, k - 1)).value.toolName))
    else None
  }

  /** The choice forced on the turn of round `k`: only a detour in the turn just before, in the same activation,
      forces one. */
  function ForcedAt(x: Input, k: nat): Option<ToolChoice>
    requires k <= |x.script| && OpenerAt(x.script, k) < |x.script|
  {
    if ContinuesAt(x, k) then ForcedBefore(x, OpenerAt(x.script, k)) else None
  }

  /** What the model is sent in round `k`: the host's own choice, else the forced one, else the configured one. */
  function ChoiceAt(x: Input, k: nat): Option<ToolChoice>
    requires k <= |x.script| && OpenerAt(x.script, k) < |x.script|
  {
    var d := DirectiveAt(x.script, k);
    var forced := ForcedAt(x, k);
    if d.Hard? then Some(d.choice) else if forced.Some? then forced else x.tc
  }

  /** The detours taken before round `k` in the activation then in force. */
  function SpentBefore(x: Input, k: nat): nat
    requires k <= |x.script|
    decreases k, 0
  {
    if k == 0 then x.soft0.escalations
    else SpentAt(x, k - 1) + if ViolatesAt(x, k - 1) then 1 else 0
  }

  /** Those that count against round `k`: none when its directive starts a new activation. */
  function SpentAt(x: Input, k: nat): nat
    requires k <= |x.script| && OpenerAt(x.script, k) < |x.script|
    decreases k, 1
  {
    if ContinuesAt(x, k) then SpentBefore(x, OpenerAt(x.script, k)) else 0
  }

  /** Round `k` takes a detour when no escalation is left. */
  predicate GivesUpAt(x: Input, k: nat)
    requires k < |x.script|
  {
    ViolatesAt(x, k) && SpentAt(x, k) >= MAX_SOFT_TOOL_ESCALATIONS
  }

  /** The calls of round `k` are executed. */
  predicate RunsAt(x: Input, k: nat)
    requires k < |x.script|
  {
    && SettlesAt(x.script, k) && !ViolatesAt(x, k) && !x.script[k].deadlinePassed
    && Runnable(x.script[k].response.calls) != [] && RunnableStop(x.script[k].response)
  }

  function ExecutionAt(x: Input, k: nat): seq<Execution>
    requires k < |x.script|
  {
    if RunsAt(x, k) then [Execution(TurnAt(x.script, k), Runnable(x.script[k].response.calls))] else []
  }

  function ExecutionsOf(x: Input, n: nat): seq<Execution>
    requires n <= |x.script|
  {
    if n == 0 then [] else ExecutionsOf(x, n - 1) + ExecutionAt(x, n - 1)
  }

  function ResultsAt(x: Input, k: nat): (ms: seq<Msg>)
    requires ValidScript(x.script) && k < |x.script|
    ensures AllResults(ms)
  {
    if RunsAt(x, k) then BatchResults(x.script[k].response.calls, x.script[k].batch, x.script[k].schedule) else []
  }

  /** The results of the tools that ran in the first `n` rounds. */
  function ResultsOf(x: Input, n: nat): seq<Msg>
    requires ValidScript(x.script) && n <= |x.script|
  {
    if n == 0 then [] else ResultsOf(x, n - 1) + ResultsAt(x, n - 1)
  }

  /** The results of the calls of an unpaired tail, which run before the first round. */
  function ResumedResults(base: seq<Msg>, prompts: seq<nat>, opening: Opening): seq<Msg> {
    var context := base + Notes(prompts);
    if Resumes(base, prompts, opening)
    then BatchResults(context[|context| - 1].calls, opening.batch, opening.schedule)
    else []
  }

  predicate Resumes(base: seq<Msg>, prompts: seq<nat>, opening: Opening) {
    var context := base + Notes(prompts);
    && !opening.deadline && !opening.steeringThrows && UnpairedTail(context)
    && RunsBatch(context[|context| - 1].calls, opening.batch, opening.schedule)
  }

  /** The turn of the resumed calls ends the run before its first round: its end throws, or one of them was terminal. */
  predicate Over(base: seq<Msg>, prompts: seq<nat>, opening: Opening) {
    (opening.turnEndThrows || opening.terminal) && Resumes(base, prompts, opening)
  }

  predicate IsReal(m: Msg) {
    m.ToolResult? && !m.synthetic
  }

  /** The results among `ms` that a tool produced. */
  function RealResults(ms: seq<Msg>): seq<Msg> {
    if ms == [] then []
    else RealResults(ms[..|ms| - 1]) + if IsReal(ms[|ms| - 1]) then [ms[|ms| - 1]] else []
  }

  // ---------------------------------------------------------------- the ledger of a run agrees with the script

  /** What a run records of its model call `k`: the choice it was sent, the turn it was made for, that turn's
      requirement and forced choice, and, unless it leaked, the calls its response settled on. */
  predicate CallRecorded(x: Input, r: Run, k: nat)
    requires k < |r.calls| && k < |x.script|
  {
    var turn := TurnAt(x.script, k);
    && r.calls[k].choice == ChoiceAt(x, k)
    && r.calls[k].turn == turn < |r.turns|
    && r.turns[turn].req == ReqOf(DirectiveAt(x.script, k))
    && r.turns[turn].forced == ForcedAt(x, k)
    && (!x.script[k].response.Leaked? ==> r.turns[turn].settled == SettledAt(x.script, k))
    && SpentAt(x, k) <= MAX_SOFT_TOOL_ESCALATIONS
    && (GivesUpAt(x, k) ==> k == |r.calls| - 1)
  }

  /** There is one turn for each completed response, and perhaps one under way, which has settled nothing. */
  predicate LastTurnRecorded(x: Input, turns: seq<Turn>, n: nat)
    requires n <= |x.script|
  {
    var turn := TurnAt(x.script, n);
    && turn <= |turns| <= turn + 1
    && (turn < |turns| && OpenerAt(x.script, n) < |x.script| ==> UnderWay(x, turns[turn], n))
  }

  predicate UnderWay(x: Input, t: Turn, n: nat)
    requires n <= |x.script| && OpenerAt(x.script, n) < |x.script|
  {
    t.settled.None? && t.req == ReqOf(DirectiveAt(x.script, n)) && t.forced == ForcedAt(x, n)
  }

  predicate CallsRecorded(x: Input, r: Run) {
    |r.calls| <= |x.script| && forall k | 0 <= k < |r.calls| :: CallRecorded(x, r, k)
  }

  /** Every call, turn, execution and result of a run is the one its script demands. */
  predicate Recorded(x: Input, resumed: seq<Msg>, r: Run)
    requires ValidScript(x.script)
  {
    && CallsRecorded(x, r)
    && LastTurnRecorded(x, r.turns, |r.calls|)
    && r.executions == ExecutionsOf(x, |r.calls|)
    && RealResults(r.added) == resumed + ResultsOf(x, |r.calls|)
  }

  /** The directive of the turn under way is in force. */
  predicate InForce(x: Input, r: Run)
    requires |r.calls| <= |x.script|
  {
    var n := |r.calls|;
    && OpenerAt(x.script, n) < |x.script|
    && var d := DirectiveAt(x.script, n);
       && |r.turns| == TurnAt(x.script, n) + 1
       && r.req == ReqOf(d)
       && r.hostChoice == (if d.Hard? then Some(d.choice) else None)
       && r.soft == SoftState(IdOf(d), ForcedAt(x, n), SpentAt(x, n))
       && SpentAt(x, n) <= MAX_SOFT_TOOL_ESCALATIONS
  }

  /** The turn before is complete, and what it leaves for the next is in the lifecycle state. */
  predicate BetweenTurns(x: Input, r: Run)
    requires |r.calls| <= |x.script|
  {
    var n := |r.calls|;
    && |r.turns| == TurnAt(x.script, n)
    && r.soft == SoftState(ActivationBefore(x, n), ForcedBefore(x, n), SpentBefore(x, n))
    && SpentBefore(x, n) <= MAX_SOFT_TOOL_ESCALATIONS
  }

  /** At the head of the loop. */
  predicate RecordedHead(x: Input, resumed: seq<Msg>, r: Run)
    requires ValidScript(x.script)
  {
    && Recorded(x, resumed, r)
    && (r.resolved <==> LastLeaked(x.script, r))
    && (if r.resolved then InForce(x, r) else BetweenTurns(x, r))
    && r.resumes == ResumesAt(x.script, |r.calls|)
    && (r.calls != [] ==> !GivesUpAt(x, |r.calls| - 1))
  }

  /** Before the model call of a round. */
  predicate RecordedTurn(x: Input, resumed: seq<Msg>, r: Run)
    requires ValidScript(x.script)
  {
    && Recorded(x, resumed, r) && |r.calls| < |x.script|
    && r.resolved && InForce(x, r) && r.resumes == ResumesAt(x.script, |r.calls|)
    && (r.calls != [] ==> !GivesUpAt(x, |r.calls| - 1))
  }

  lemma {:induction false} TurnsGrow(script: seq<Round>, k: nat, n: nat)
    requires k <= n <= |script|
    ensures TurnAt(script, k) <= TurnAt(script, n)
    ensures k < n && !script[k].response.Leaked? ==> TurnAt(script, k) < TurnAt(script, n)
    decreases n
  {
    if k < n { TurnsGrow(script, k, n - 1); }
  }

  lemma {:induction false} RealConcat(a: seq<Msg>, b: seq<Msg>)
    ensures RealResults(a + b) == RealResults(a) + RealResults(b)
  {
    if b == [] {
      assert a + b == a;
    } else {
      RealConcat(a, b[..|b| - 1]);
      assert (a + b)[..|a + b| - 1] == a + b[..|b| - 1];
    }
  }

  lemma {:induction false} RealNone(ms: seq<Msg>)
    requires forall m | m in ms :: !IsReal(m)
    ensures RealResults(ms) == []
  {
    if ms != [] { RealNone(ms[..|ms| - 1]); }
  }

  lemma {:induction false} RealAll(ms: seq<Msg>)
    requires forall m | m in ms :: IsReal(m)
    ensures RealResults(ms) == ms
  {
    if ms != [] {
      RealAll(ms[..|ms| - 1]);
      assert ms == ms[..|ms| - 1] + [ms[|ms| - 1]];
    }
  }

  lemma RealPush(added: seq<Msg>, ms: seq<Msg>)
    requires forall m | m in ms :: !IsReal(m)
    ensures RealResults(added + ms) == RealResults(added)
  {
    RealConcat(added, ms);
    RealNone(ms);
  }

  /** Nothing the ledger is about has changed. */
  lemma SameRecord(x: Input, resumed: seq<Msg>, r: Run, r': Run)
    requires ValidScript(x.script) && Recorded(x, resumed, r)
    requires r'.calls == r.calls && r'.turns == r.turns && r'.executions == r.executions
    requires RealResults(r'.added) == RealResults(r.added)
    ensures Recorded(x, resumed, r')
  {
    forall k | 0 <= k < |r'.calls| ensures CallRecorded(x, r', k) {
      assert CallRecorded(x, r, k);
    }
  }

  /** A directive resolved for a new turn is in force. */
  lemma ResolveInForce(x: Input, r: Run)
    requires |r.calls| < |x.script| && OpenerAt(x.script, |r.calls|) == |r.calls|
    requires BetweenTurns(x, r) && !r.resolved
    ensures var q := ResolveDirective(r, x.script[|r.calls|].directive);
      && InForce(x, q) && |q.turns| == |r.turns| + 1 && q.turns[..|r.turns|] == r.turns
      && UnderWay(x, q.turns[|r.turns|], |r.calls|)
      && q.resolved && q.calls == r.calls && q.executions == r.executions && q.resumes == r.resumes
  {
    hide TurnAt, ActivationBefore, ForcedBefore, SpentBefore;
  }

  lemma ResolvePushes(r: Run, d: Directive)
    ensures RealResults(ResolveDirective(r, d).added) == RealResults(r.added)
  {
    hide RealResults;
    if d.Soft? { RealPush(r.added, Reminders(d.requirement)); }
  }

  /** A new turn does not touch the records of the earlier ones. */
  lemma NewTurnRecords(x: Input, resumed: seq<Msg>, r: Run, q: Run)
    requires ValidScript(x.script) && Recorded(x, resumed, r) && |r.turns| == TurnAt(x.script, |r.calls|)
    requires q.calls == r.calls && q.executions == r.executions && RealResults(q.added) == RealResults(r.added)
    requires |q.turns| == |r.turns| + 1 && q.turns[..|r.turns|] == r.turns
    requires OpenerAt(x.script, |r.calls|) < |x.script| ==> UnderWay(x, q.turns[|r.turns|], |r.calls|)
    ensures Recorded(x, resumed, q)
  {
    hide RealResults, ChoiceAt, ForcedAt, SpentAt, GivesUpAt, SettledAt, UnderWay, DirectiveAt;
    forall k | 0 <= k < |q.calls| ensures CallRecorded(x, q, k) {
      assert CallRecorded(x, r, k);
      assert q.turns[TurnAt(x.script, k)] == q.turns[..|r.turns|][TurnAt(x.script, k)];
    }
  }

  lemma ResolveRecords(x: Input, resumed: seq<Msg>, r: Run)
    requires ValidScript(x.script) && RecordedHead(x, resumed, r) && |r.calls| < |x.script|
    ensures RecordedTurn(x, resumed, ResolveDirective(r, x.script[|r.calls|].directive))
  {
    hide RealResults, InForce, Recorded, GivesUpAt, UnderWay, ActivationBefore, ForcedBefore, SpentBefore;
    var d := x.script[|r.calls|].directive;
    if !r.resolved {
      ResolveInForce(x, r);
      ResolvePushes(r, d);
      NewTurnRecords(x, resumed, r, ResolveDirective(r, d));
    }
  }

  lemma SameSoftState(x: Input, r: Run, r': Run)
    requires |r.calls| <= |x.script| && r'.calls == r.calls && r'.turns == r.turns
    requires r'.req == r.req && r'.hostChoice == r.hostChoice && r'.soft == r.soft
    ensures InForce(x, r) <==> InForce(x, r')
    ensures BetweenTurns(x, r) <==> BetweenTurns(x, r')
  {
  }

  lemma CallsInScript(x: Input, resumed: seq<Msg>, r: Run)
    requires ValidScript(x.script) && Recorded(x, resumed, r)
    ensures |r.calls| <= |x.script|
  {
  }

  /** Nothing that matters at the head of the loop has changed. */
  lemma SameHead(x: Input, resumed: seq<Msg>, r: Run, r': Run)
    requires ValidScript(x.script) && RecordedHead(x, resumed, r)
    requires r'.calls == r.calls && r'.turns == r.turns && r'.executions == r.executions
    requires RealResults(r'.added) == RealResults(r.added)
    requires r'.req == r.req && r'.hostChoice == r.hostChoice && r'.soft == r.soft
    requires r'.resolved == r.resolved && r'.resumes == r.resumes
    ensures RecordedHead(x, resumed, r')
  {
    hide Recorded, RealResults, InForce, BetweenTurns, GivesUpAt, ResumesAt;
    CallsInScript(x, resumed, r);
    SameRecord(x, resumed, r, r');
    SameSoftState(x, r, r');
  }

  lemma HeadRecorded(x: Input, resumed: seq<Msg>, r: Run)
    requires ValidScript(x.script) && RecordedHead(x, resumed, r)
    ensures Recorded(x, resumed, r)
  {
  }

  lemma EnterRecords(x: Input, resumed: seq<Msg>, gated: bool, start: Run)
    requires ValidScript(x.script) && RecordedHead(x, resumed, start) && |start.calls| < |x.script|
    ensures var s := EnterTurn(gated, x.script[|start.calls|], start);
      && Recorded(x, resumed, s.run)
      && (s.stop.None? ==> RecordedTurn(x, resumed, s.run))
      && (s.stop == Some(GateStopped) ==> InForce(x, s.run))
  {
    hide Recorded, RecordedHead, RealResults, ResolveDirective, InForce, GivesUpAt, Notes;
    var round := x.script[|start.calls|];
    HeadRecorded(x, resumed, start);
    SameRecord(x, resumed, start, EndAgent(NoteHead(start)));
    var c := CommitPending(NoteHead(start));
    RealPush(start.added, Notes(start.pending));
    SameHead(x, resumed, start, c);
    HeadRecorded(x, resumed, c);
    SameRecord(x, resumed, c, OpenTurn(c));
    ResolveRecords(x, resumed, c);
    var q := ResolveDirective(c, round.directive);
    SameRecord(x, resumed, q, OpenTurn(q));
    SameSoftState(x, q, OpenTurn(q));
    RealPush(q.added, [Assistant([], Aborted)]);
    SameRecord(x, resumed, q, StopAtGate(q));
    SameRecord(x, resumed, q, CloseAtGate(q));
    SameSoftState(x, q, StopAtGate(q));
  }

  /** The turns after round `n`: the last one is marked when the response settled. */
  function TurnsAfter(script: seq<Round>, turns: seq<Turn>, n: nat, escalated: bool): seq<Turn>
    requires n < |script| && turns != []
  {
    if SettlesAt(script, n) then Marked(turns, Runnable(script[n].response.calls), escalated) else turns
  }

  /** Completing round `n` leaves the records of the earlier calls as they were. */
  lemma EarlierCall(x: Input, resumed: seq<Msg>, r: Run, s: Run, escalated: bool, k: nat)
    requires ValidScript(x.script) && RecordedTurn(x, resumed, r) && k < |r.calls|
    requires s.calls == CallModel(r, x.tc).calls && s.turns == TurnsAfter(x.script, r.turns, |r.calls|, escalated)
    ensures CallRecorded(x, s, k)
  {
    hide ChoiceAt, ForcedAt, SpentAt, GivesUpAt, SettledAt, DirectiveAt, RealResults, ResultsOf, ExecutionsOf, SettlesAt;
    TurnsGrow(x.script, k, |r.calls|);
    assert CallRecorded(x, r, k);
  }

  /** Completing round `n` records its own call. */
  lemma ThisCall(x: Input, resumed: seq<Msg>, r: Run, s: Run, escalated: bool)
    requires ValidScript(x.script) && RecordedTurn(x, resumed, r)
    requires s.calls == CallModel(r, x.tc).calls && s.turns == TurnsAfter(x.script, r.turns, |r.calls|, escalated)
    ensures CallRecorded(x, s, |r.calls|) && LastTurnRecorded(x, s.turns, |s.calls|)
  {
    hide ForcedAt, SpentAt, GivesUpAt, RealResults, ResultsOf, ExecutionsOf, CallsRecorded, Runnable;
    var n := |r.calls|;
    assert UnderWay(x, r.turns[TurnAt(x.script, n)], n);
    SameOpener(x, n);
  }

  /** A leak keeps the turn and everything its directive decided. */
  lemma SameOpener(x: Input, n: nat)
    requires n < |x.script|
    ensures TurnAt(x.script, n + 1) == TurnAt(x.script, n) + if x.script[n].response.Leaked? then 0 else 1
    ensures x.script[n].response.Leaked? ==> OpenerAt(x.script, n + 1) == OpenerAt(x.script, n)
    ensures x.script[n].response.Leaked? ==> ForcedAt(x, n + 1) == ForcedAt(x, n)
  {
  }

  lemma CallsAfter(x: Input, resumed: seq<Msg>, r: Run, s: Run, escalated: bool)
    requires ValidScript(x.script) && RecordedTurn(x, resumed, r)
    requires s.calls == CallModel(r, x.tc).calls && s.turns == TurnsAfter(x.script, r.turns, |r.calls|, escalated)
    ensures CallsRecorded(x, s) && LastTurnRecorded(x, s.turns, |s.calls|)
  {
    hide CallRecorded, LastTurnRecorded, TurnsAfter, CallModel, RecordedTurn;
    ThisCall(x, resumed, r, s, escalated);
    CountCalls(x, resumed, r);
    forall k | 0 <= k < |s.calls| ensures CallRecorded(x, s, k) {
      if k < |r.calls| { EarlierCall(x, resumed, r, s, escalated, k); }
    }
  }

  lemma CountCalls(x: Input, resumed: seq<Msg>, r: Run)
    requires ValidScript(x.script) && RecordedTurn(x, resumed, r)
    ensures r.turns != [] && |CallModel(r, x.tc).calls| == |r.calls| + 1 <= |x.script|
  {
  }

  lemma RoundRecords(x: Input, resumed: seq<Msg>, r: Run, s: Run, escalated: bool)
    requires ValidScript(x.script) && RecordedTurn(x, resumed, r)
    requires s.calls == CallModel(r, x.tc).calls && s.turns == TurnsAfter(x.script, r.turns, |r.calls|, escalated)
    requires s.executions == r.executions + ExecutionAt(x, |r.calls|)
    requires RealResults(s.added) == RealResults(r.added) + ResultsAt(x, |r.calls|)
    ensures Recorded(x, resumed, s)
  {
    hide CallsRecorded, LastTurnRecorded, RealResults, ResultsAt, ExecutionAt;
    CallsAfter(x, resumed, r, s, escalated);
  }

  /** Closing the turn and polling the queues leads to the head of the loop. */
  lemma FinishRecords(x: Input, resumed: seq<Msg>, round: Round, start: Run)
    requires ValidScript(x.script) && Recorded(x, resumed, start) && HasCalls(round.response)
    requires !start.resolved && |start.calls| <= |x.script| && !LastLeaked(x.script, start)
    requires BetweenTurns(x, start) && start.resumes == ResumesAt(x.script, |start.calls|)
    requires start.calls != [] && !GivesUpAt(x, |start.calls| - 1)
    ensures var s := FinishTurn(round, start);
      Recorded(x, resumed, s.run) && RecordedHead(x, resumed, s.run)
  {
    hide Recorded, RealResults, BetweenTurns, TurnAt, ResumesAt, GivesUpAt, FinishTurn;
    assert RecordedHead(x, resumed, start);
    FinishTouches(round, start);
    SameHead(x, resumed, start, FinishTurn(round, start).run);
    SameRecord(x, resumed, start, FinishTurn(round, start).run);
  }

  lemma FinishTouches(round: Round, r: Run)
    requires HasCalls(round.response)
    ensures var s := FinishTurn(round, r).run;
      s == r.(events := s.events, turnOpen := s.turnOpen, hasMore := s.hasMore, paused := s.paused,
              pending := s.pending, polled := s.polled, lost := s.lost)
  {
  }

  /** A committed response: the turn is complete, and nothing is recorded of it yet. */
  lemma CommitRecords(x: Input, start: Run)
    requires |start.calls| < |x.script| && HasCalls(x.script[|start.calls|].response) && start.turns != []
    requires start.resumes == ResumesAt(x.script, |start.calls|)
    ensures var s := CommitResponse(CallModel(start, x.tc), x.script[|start.calls|].response);
      && s.resumes == ResumesAt(x.script, |s.calls|) && !LastLeaked(x.script, s)
      && RealResults(s.added) == RealResults(start.added)
      && TurnAt(x.script, |s.calls|) == TurnAt(x.script, |start.calls|) + 1
  {
    var response := x.script[|start.calls|].response;
    RealPush(start.added, [Assistant(response.calls, response.stop)]);
  }

  lemma BatchIsReal(calls: seq<Call>, batch: ToolBatch.Batch, schedule: seq<ToolBatch.Label>)
    requires RunsBatch(calls, batch, schedule)
    ensures forall m | m in BatchResults(calls, batch, schedule) :: IsReal(m)
  {
  }

  lemma QuietRecords(x: Input, resumed: seq<Msg>, start: Run)
    requires ValidScript(x.script) && RecordedTurn(x, resumed, start)
    requires SettlesAt(x.script, |start.calls|) && !ViolatesAt(x, |start.calls|)
    ensures var round := x.script[|start.calls|];
      var s := SettleCalls(CommitResponse(CallModel(start, x.tc), round.response), round);
      Recorded(x, resumed, s)
  {
    hide Recorded, RealResults, TurnAt, BatchResults;
    var round := x.script[|start.calls|];
    var calls := Runnable(round.response.calls);
    var r := CommitResponse(CallModel(start, x.tc), round.response);
    var s := SettleCalls(r, round);
    CommitRecords(x, start);
    SettlePushes(r, round);
    RealConcat(r.added, SettledResults(round));
    if RunsAt(x, |start.calls|) {
      BatchIsReal(round.response.calls, round.batch, round.schedule);
      RealAll(SettledResults(round));
    } else {
      RealNone(SettledResults(round));
    }
    assert RealResults(s.added) == RealResults(start.added) + ResultsAt(x, |start.calls|);
    assert s.executions == start.executions + ExecutionAt(x, |start.calls|);
    RoundRecords(x, resumed, start, s, false);
  }

  lemma EscalationRecords(x: Input, resumed: seq<Msg>, start: Run)
    requires ValidScript(x.script) && RecordedTurn(x, resumed, start)
    requires ViolatesAt(x, |start.calls|)
    ensures start.req.Some?
    ensures var response := x.script[|start.calls|].response;
      var r := CommitResponse(CallModel(start, x.tc), response);
      && Recorded(x, resumed, Escalate(r, response))
      && Recorded(x, resumed, r.(turns := Marked(start.turns, Runnable(response.calls), false)))
  {
    hide Recorded, RealResults, TurnAt, BatchResults;
    var response := x.script[|start.calls|].response;
    var r := CommitResponse(CallModel(start, x.tc), response);
    CommitRecords(x, start);
    RealPush(r.added, Placeholders(Runnable(response.calls)));
    assert RealResults(start.added) + [] == RealResults(start.added);
    assert start.executions + [] == start.executions;
    RoundRecords(x, resumed, start, Escalate(r, response), true);
    RoundRecords(x, resumed, start, r.(turns := Marked(start.turns, Runnable(response.calls), false)), false);
  }

  /** A response that settles nothing: it failed, leaked once too often, or never came. */
  lemma UnsettledRecords(x: Input, resumed: seq<Msg>, start: Run, s: Run)
    requires ValidScript(x.script) && RecordedTurn(x, resumed, start) && !SettlesAt(x.script, |start.calls|)
    requires s.calls == CallModel(start, x.tc).calls && s.turns == start.turns && s.executions == start.executions
    requires RealResults(s.added) == RealResults(start.added)
    ensures Recorded(x, resumed, s)
  {
    hide Recorded, RealResults, TurnAt, BatchResults;
    assert RealResults(start.added) + [] == RealResults(start.added);
    assert start.executions + [] == start.executions;
    RoundRecords(x, resumed, start, s, false);
  }

  /** What the loop tests is what the script says. */
  lemma TestsMatch(x: Input, start: Run)
    requires |start.calls| < |x.script| && InForce(x, start) && HasCalls(x.script[|start.calls|].response)
    requires SettlesAt(x.script, |start.calls|)
    ensures var n := |start.calls|;
      && start.turns != []
      && (Violating(CallModel(start, x.tc), x.tc, x.script[n].response) <==> ViolatesAt(x, n))
      && (GivesUpAt(x, n) <==> ViolatesAt(x, n) && start.soft.escalations >= MAX_SOFT_TOOL_ESCALATIONS)
      && (ViolatesAt(x, n) ==> start.req.Some?)
  {
    hide ForcedAt, SpentAt, Compliant;
  }

  /** What a settled turn leaves for the next. */
  lemma SettledBetween(x: Input, start: Run, s: Run)
    requires |start.calls| < |x.script| && InForce(x, start) && SettlesAt(x.script, |start.calls|)
    requires !GivesUpAt(x, |start.calls|) && |s.calls| == |start.calls| + 1 && |s.turns| == |start.turns|
    requires var violates := ViolatesAt(x, |start.calls|);
      s.soft == SoftState(start.soft.id,
                          if violates then Some(Named(ReqOf(DirectiveAt(x.script, |start.calls|)).value.toolName)) else None,
                          start.soft.escalations + if violates then 1 else 0)
    ensures BetweenTurns(x, s)
  {
    hide ForcedAt, SpentAt, ViolatesAt, DirectiveAt, SettlesAt;
    assert !x.script[|start.calls|].response.Leaked? by { SettlesNoLeak(x.script, |start.calls|); }
  }

  lemma SettlesNoLeak(script: seq<Round>, k: nat)
    requires k < |script| && SettlesAt(script, k)
    ensures HasCalls(script[k].response)
  {
  }

  lemma QuietTurnRecords(x: Input, resumed: seq<Msg>, start: Run)
    requires ValidScript(x.script) && RecordedTurn(x, resumed, start)
    requires SettlesAt(x.script, |start.calls|) && !ViolatesAt(x, |start.calls|)
    ensures var round := x.script[|start.calls|];
      var s := FinishTurn(round, SettleCalls(CommitResponse(CallModel(start, x.tc), round.response), round));
      Recorded(x, resumed, s.run) && RecordedHead(x, resumed, s.run)
  {
    hide Recorded, RealResults, SettleCalls, FinishTurn, ValidRound, GivesUpAt, SettledResults, BetweenTurns,
         ViolatesAt, TurnAt, ResumesAt;
    var round := x.script[|start.calls|];
    var r := CommitResponse(CallModel(start, x.tc), round.response);
    TestsMatch(x, start);
    CommitRecords(x, start);
    QuietRecords(x, resumed, start);
    SettlePushes(r, round);
    SettledBetween(x, start, SettleCalls(r, round));
    FinishRecords(x, resumed, round, SettleCalls(r, round));
  }

  lemma EscalatedTurnRecords(x: Input, resumed: seq<Msg>, start: Run)
    requires ValidScript(x.script) && RecordedTurn(x, resumed, start)
    requires ViolatesAt(x, |start.calls|) && !GivesUpAt(x, |start.calls|)
    ensures start.req.Some?
    ensures var round := x.script[|start.calls|];
      var s := FinishTurn(round, Escalate(CommitResponse(CallModel(start, x.tc), round.response), round.response));
      Recorded(x, resumed, s.run) && RecordedHead(x, resumed, s.run)
  {
    hide Recorded, RealResults, FinishTurn, ValidRound, GivesUpAt, BetweenTurns, TurnAt, ResumesAt, Placeholders;
    var round := x.script[|start.calls|];
    var r := CommitResponse(CallModel(start, x.tc), round.response);
    TestsMatch(x, start);
    CommitRecords(x, start);
    EscalationRecords(x, resumed, start);
    SettledBetween(x, start, Escalate(r, round.response));
    FinishRecords(x, resumed, round, Escalate(r, round.response));
  }

  lemma SettleRecords(x: Input, resumed: seq<Msg>, start: Run)
    requires ValidScript(x.script) && RecordedTurn(x, resumed, start)
    requires HasCalls(x.script[|start.calls|].response)
    requires x.script[|start.calls|].response.Recovered? ==> start.resumes < MAX_HARMONY_RETRIES
    ensures var s := SettleTurn(x.tc, x.script[|start.calls|], CallModel(start, x.tc));
      && Recorded(x, resumed, s.run)
      && (s.stop.None? ==> RecordedHead(x, resumed, s.run))
  {
    hide Recorded, RecordedHead, RealResults, SettleCalls, FinishTurn, ValidRound, Compliant, GivesUpAt, ViolatesAt,
         Violating, Escalate, ResumesAt;
    var n := |start.calls|;
    var response := x.script[n].response;
    var r := CommitResponse(CallModel(start, x.tc), response);
    if !SettlesAt(x.script, n) {
      CommitRecords(x, start);
      RealPush(r.added, Placeholders(Runnable(response.calls)));
      UnsettledRecords(x, resumed, start, EndFailedTurn(r, response));
    } else {
      TestsMatch(x, start);
      if !ViolatesAt(x, n) {
        QuietTurnRecords(x, resumed, start);
      } else if !GivesUpAt(x, n) {
        EscalatedTurnRecords(x, resumed, start);
      } else {
        EscalationRecords(x, resumed, start);
      }
    }
  }

  /** The retry of a leak is at the head of the loop again, with the same turn. */
  lemma RetryRecords(x: Input, resumed: seq<Msg>, start: Run, s: Run)
    requires ValidScript(x.script) && RecordedTurn(x, resumed, start) && x.script[|start.calls|].response.Leaked?
    requires Recorded(x, resumed, s) && |s.calls| == |start.calls| + 1 && start.turns != []
    requires s == start.(calls := s.calls, retries := s.retries)
    ensures RecordedHead(x, resumed, s)
  {
    hide Recorded, RealResults, ForcedBefore, ActivationBefore, SpentBefore;
    SameOpener(x, |start.calls|);
  }

  lemma CallRecords(x: Input, resumed: seq<Msg>, start: Run)
    requires ValidScript(x.script) && RecordedTurn(x, resumed, start)
    ensures var s := CallAndSettle(x.tc, x.script[|start.calls|], start);
      && Recorded(x, resumed, s.run)
      && (s.stop.None? ==> RecordedHead(x, resumed, s.run))
  {
    hide Recorded, RecordedHead, RealResults, SettleTurn, EffectiveChoice, ValidRound, ForcedAt, SpentAt, GivesUpAt;
    var response := x.script[|start.calls|].response;
    var r := CallModel(start, x.tc);
    if HasCalls(response) && (response.Recovered? ==> start.resumes < MAX_HARMONY_RETRIES) {
      SettleRecords(x, resumed, start);
    } else {
      UnsettledRecords(x, resumed, start, r);
      UnsettledRecords(x, resumed, start, r.(retries := r.retries + 1));
      if response.Leaked? { RetryRecords(x, resumed, start, r.(retries := r.retries + 1)); }
    }
  }

  lemma PlayRecords(x: Input, resumed: seq<Msg>, gated: bool, r: Run)
    requires ValidScript(x.script) && RecordedHead(x, resumed, r) && |r.calls| < |x.script|
    ensures r.resolved ==> r.turns != []
    ensures var s := PlayRound(x.tc, gated, x.script[|r.calls|], r);
      && Recorded(x, resumed, s.run)
      && (s.stop.None? ==> RecordedHead(x, resumed, s.run))
      && (s.stop == Some(GateStopped) ==> InForce(x, s.run))
  {
    hide Recorded, RealResults, ForcedAt, SpentAt, EnterTurn, CallAndSettle, ValidRound;
    EnterRecords(x, resumed, gated, r);
    var e := EnterTurn(gated, x.script[|r.calls|], r);
    if e.stop.None? { CallRecords(x, resumed, e.run); }
  }

  lemma YieldRecords(x: Input, resumed: seq<Msg>, r: Run, round: Round)
    requires ValidScript(x.script) && RecordedHead(x, resumed, r)
    ensures RecordedHead(x, resumed, Yield(round, r).run)
  {
    hide RecordedHead, RealResults;
    SameHead(x, resumed, r, Yield(round, r).run);
  }

  // ---------------------------------------------------------------- whether the loop goes on, and what it polls

  /** The turn that round `k` completes asks for another model call: it took a detour, ran tools, or was truncated. */
  predicate WantsMore(x: Input, k: nat)
    requires k < |x.script|
  {
    var response := x.script[k].response;
    && SettlesAt(x.script, k) && !x.script[k].terminal
    && (ViolatesAt(x, k) ||
        (Runnable(response.calls) != [] && !x.script[k].deadlinePassed &&
         (RunnableStop(response) || response.stop.Length?)))
  }

  /** The paused turns in a row before round `k`. */
  function PausedBefore(x: Input, k: nat): nat
    requires k <= |x.script|
    decreases k, 0
  {
    if k == 0 then 0
    else if !SettlesAt(x.script, k - 1) then PausedBefore(x, k - 1)
    else if Runnable(x.script[k - 1].response.calls) != [] then 0
    else PausedBefore(x, k - 1) + if PausesAt(x, k - 1) then 1 else 0
  }

  predicate PausesAt(x: Input, k: nat)
    requires k < |x.script|
    decreases k, 1
  {
    && SettlesAt(x.script, k) && !WantsMore(x, k) && Runnable(x.script[k].response.calls) == []
    && x.script[k].response.stop.EndTurn? && x.script[k].pauseTurn
    && PausedBefore(x, k) < MAX_PAUSED_TURN_CONTINUATIONS
  }

  /** Round `k` ends with a poll of the queues. */
  predicate PollsAt(x: Input, k: nat)
    requires k < |x.script|
  {
    && SettlesAt(x.script, k) && !GivesUpAt(x, k)
    && !x.script[k].turnEndThrows && !x.script[k].deadlineAfterTurn
  }

  /** Round `k` is a leak that may be retried. */
  predicate RetriesLeak(script: seq<Round>, k: nat)
    requires k < |script|
  {
    script[k].response.Leaked? && RetriesAt(script, k) < MAX_HARMONY_RETRIES
  }

  /** Another round is due before round `k` even without queued messages. */
  predicate MoreBefore(x: Input, k: nat)
    requires k <= |x.script|
    decreases k, 0
  {
    k == 0 || MoreAfter(x, k - 1) || YieldsAfter(x, k - 1)
  }

  predicate MoreAfter(x: Input, k: nat)
    requires k < |x.script|
    decreases k, 1
  {
    if x.script[k].response.Leaked? then MoreBefore(x, k) else WantsMore(x, k) || PausesAt(x, k)
  }

  /** What the poll at the end of round `k` hands over: the steering, with the asides when the work goes on; a poll that
      throws hands over what the callbacks before the throwing one had dequeued. */
  function TurnPoll(x: Input, k: nat): seq<nat>
    requires k < |x.script|
    decreases k, 2
  {
    var round := x.script[k];
    if !PollsAt(x, k) then []
    else if round.pollFails.Some? then (if MoreAfter(x, k) then round.pollFails.value else [])
    else round.steering + if MoreAfter(x, k) then round.asides else []
  }

  /** After round `k` the agent would stop. */
  predicate YieldsAfter(x: Input, k: nat)
    requires k < |x.script|
    decreases k, 3
  {
    && (RetriesLeak(x.script, k) || (PollsAt(x, k) && x.script[k].pollFails.None?))
    && !MoreAfter(x, k) && TurnPoll(x, k) == []
  }

  /** The queues are polled once more before the agent stops. */
  predicate PollsLate(x: Input, k: nat)
    requires k < |x.script|
  {
    var round := x.script[k];
    YieldsAfter(x, k) && !round.deadlineAtYield && !round.yieldThrows && !round.deadlineAfterYield
  }

  function LatePoll(x: Input, k: nat): seq<nat>
    requires k < |x.script|
  {
    if !PollsLate(x, k) then []
    else if x.script[k].lateFails.Some? then x.script[k].lateFails.value
    else x.script[k].lateMessages
  }

  /** What a poll of round `k` took before it threw. */
  function LostAt(x: Input, k: nat): seq<nat>
    requires k < |x.script|
  {
    if PollsAt(x, k) && x.script[k].pollFails.Some? then TurnPoll(x, k)
    else if PollsLate(x, k) && x.script[k].lateFails.Some? then LatePoll(x, k)
    else []
  }

  function OpeningPoll(opening: Opening): seq<nat> {
    if opening.deadline || opening.steeringThrows then [] else opening.steering
  }

  /** Everything the polls before round `n` hand over, in order. */
  function Polled(x: Input, opening: Opening, n: nat): seq<nat>
    requires n <= |x.script|
  {
    if n == 0 then OpeningPoll(opening)
    else Polled(x, opening, n - 1) + TurnPoll(x, n - 1) + LatePoll(x, n - 1)
  }

  /** What the polls since the last round hand over: it waits for round `n` to fold it in. */
  function Waiting(x: Input, opening: Opening, n: nat): seq<nat>
    requires n <= |x.script|
  {
    if n == 0 then OpeningPoll(opening) else TurnPoll(x, n - 1) + LatePoll(x, n - 1)
  }

  function LostBefore(x: Input, n: nat): seq<nat>
    requires n <= |x.script|
  {
    if n > 0 then LostAt(x, n - 1) else []
  }

  /** What is still waiting when a run with `n` model calls is over: everything, if round `n` never folds it in because
      its deadline has passed, or the run is cut off there or over with the resumed calls; otherwise nothing. */
  function Discarded(x: Input, opening: Opening, over: bool, n: nat): seq<nat>
    requires n <= |x.script|
  {
    if LostBefore(x, n) == [] && (over || n == |x.script| || x.script[n].deadlineAtHead) then Waiting(x, opening, n)
    else []
  }

  // ---------------------------------------------------------------- the loop follows its script

  /** A round is about to be played. */
  predicate Goes(x: Input, opening: Opening, r: Run)
    requires |r.calls| <= |x.script|
  {
    var n := |r.calls|;
    && r.hasMore == MoreBefore(x, n) && r.polled == Polled(x, opening, n)
    && (n > 0 ==> LostAt(x, n - 1) == [])
  }

  /** The agent is about to stop. */
  predicate Stops(x: Input, opening: Opening, r: Run)
    requires |r.calls| <= |x.script|
  {
    var n := |r.calls|;
    n > 0 && YieldsAfter(x, n - 1) && r.polled + LatePoll(x, n - 1) == Polled(x, opening, n)
  }

  /** At the head of the loop. */
  predicate FlowHead(x: Input, opening: Opening, r: Run) {
    var n := |r.calls|;
    && n <= |x.script| && r.lost == []
    && r.retries == RetriesAt(x.script, n) && r.paused == PausedBefore(x, n)
    && if r.hasMore || r.pending != [] then Goes(x, opening, r) && r.pending == Waiting(x, opening, n)
       else Stops(x, opening, r)
  }

  /** When the run is over: it took exactly what the polls of its rounds handed over, it dropped messages exactly when
      the last poll threw after taking them, and it discards exactly those that no round was left to fold in. */
  predicate FlowEnd(x: Input, opening: Opening, over: bool, r: Run, outcome: Outcome) {
    var n := |r.calls|;
    && n <= |x.script|
    && r.polled == Polled(x, opening, n)
    && r.lost == LostBefore(x, n)
    && r.pending == Discarded(x, opening, over, n)
    && (r.lost != [] ==> outcome.Failed?)
    && (r.pending != [] ==> outcome.Ended? || outcome.Cut? || opening.turnEndThrows)
    && (outcome.Cut? ==> n == |x.script|)
    && (outcome.SoftAborted? <==> n > 0 && GivesUpAt(x, n - 1))
  }

  /** In the middle of a round, before its model call. */
  predicate FlowTurn(x: Input, opening: Opening, r: Run) {
    var n := |r.calls|;
    && n < |x.script| && r.lost == [] && r.pending == []
    && r.retries == RetriesAt(x.script, n) && r.paused == PausedBefore(x, n)
    && Goes(x, opening, r)
  }

  lemma EnterFlows(x: Input, opening: Opening, gated: bool, start: Run)
    requires FlowHead(x, opening, start) && |start.calls| < |x.script| && (start.hasMore || start.pending != [])
    requires start.calls != [] ==> !GivesUpAt(x, |start.calls| - 1)
    ensures var s := EnterTurn(gated, x.script[|start.calls|], start);
      if s.stop.Some? then FlowEnd(x, opening, false, s.run, s.stop.value) else FlowTurn(x, opening, s.run)
  {
    hide EnterTurn, GivesUpAt, MoreBefore, Polled, LostAt, RetriesAt, PausedBefore;
    EnterTouches(gated, x.script[|start.calls|], start);
  }

  /** The first half of a round leaves the flow of the loop alone, except that it folds in what is pending. */
  lemma EnterTouches(gated: bool, round: Round, start: Run)
    ensures var s := EnterTurn(gated, round, start);
      && s.run.calls == start.calls && s.run.polled == start.polled && s.run.lost == start.lost
      && s.run.hasMore == start.hasMore && s.run.paused == start.paused && s.run.retries == start.retries
      && s.run.pending == (if round.deadlineAtHead then start.pending else [])
      && (s.stop == Some(Ended) <==> round.deadlineAtHead) && s.stop != Some(SoftAborted) && s.stop != Some(Cut)
  {
    hide ResolveDirective, CommitPending;
    var r := NoteHead(start);
    PushTouches(r, round.directive);
    var c := CommitPending(r);
    var q := ResolveDirective(c, round.directive);
    assert StopAtGate(q).polled == CloseAtGate(q).polled == q.polled;
    assert OpenTurn(q).polled == q.polled && OpenTurn(c).polled == c.polled;
  }

  lemma PushTouches(r: Run, d: Directive)
    ensures var q := ResolveDirective(CommitPending(r), d);
      q == r.(context := q.context, added := q.added, pending := [], soft := q.soft, req := q.req,
              hostChoice := q.hostChoice, resolved := q.resolved, turns := q.turns)
    ensures var c := CommitPending(r); c == r.(context := c.context, added := c.added, pending := [])
  {
    hide Notes, Reminders;
  }

  /** The turn of round `n` is settled and about to be finished. */
  predicate FlowSettled(x: Input, opening: Opening, r: Run, n: nat) {
    && n < |x.script| && |r.calls| == n + 1 && r.lost == [] && r.pending == []
    && SettlesAt(x.script, n) && !GivesUpAt(x, n)
    && r.retries == 0 && r.paused == PausedBefore(x, n)
    && (r.hasMore && !x.script[n].terminal <==> WantsMore(x, n))
    && r.polled == Polled(x, opening, n)
  }

  /** What the end of the turn makes of the flow. */
  lemma FinishPolls(x: Input, opening: Opening, r: Run, n: nat)
    requires FlowSettled(x, opening, r, n)
    ensures var s := FinishTurn(x.script[n], r); var t := s.run;
      && |t.calls| == n + 1 && t.hasMore == MoreAfter(x, n) && t.paused == PausedBefore(x, n + 1) && t.retries == 0
      && t.polled == Polled(x, opening, n) + TurnPoll(x, n)
      && (s.stop.None? || s.stop == Some(Ended) || s.stop == Some(Failed))
      && (s.stop.None? <==> PollsAt(x, n) && x.script[n].pollFails.None?)
      && t.lost == (if PollsAt(x, n) && x.script[n].pollFails.Some? then TurnPoll(x, n) else [])
      && (PollsAt(x, n) ==> s.stop != Some(Ended))
      && t.pending == (if s.stop.None? then TurnPoll(x, n) else [])
      && !x.script[n].response.Leaked?
  {
    hide GivesUpAt, WantsMore, Polled, Runnable, MoreBefore, YieldsAfter, Continuation, PausedBefore, ResumesAt;
    FinishContinues(x, opening, r, n);
    var q := CloseTurn(Continuation(r, x.script[n]));
    assert q.polled + [] == q.polled;
  }

  /** The rule for continuing is the script's. */
  lemma FinishContinues(x: Input, opening: Opening, r: Run, n: nat)
    requires FlowSettled(x, opening, r, n)
    ensures var q := Continuation(r, x.script[n]);
      && q == r.(hasMore := MoreAfter(x, n), paused := PausedBefore(x, n + 1))
      && !x.script[n].response.Leaked?
  {
    hide GivesUpAt, WantsMore, Polled, Runnable, MoreBefore, YieldsAfter, ResumesAt;
  }

  lemma FinishFlows(x: Input, opening: Opening, r: Run, n: nat)
    requires FlowSettled(x, opening, r, n)
    ensures var s := FinishTurn(x.script[n], r);
      if s.stop.Some? then FlowEnd(x, opening, false, s.run, s.stop.value) else FlowHead(x, opening, s.run)
  {
    hide GivesUpAt, WantsMore, Polled, Runnable, FinishTurn, MoreAfter, TurnPoll, PausedBefore, PollsAt;
    FinishPolls(x, opening, r, n);
    PolledNext(x, opening, n);
    var s := FinishTurn(x.script[n], r);
    assert RetriesAt(x.script, n + 1) == 0;
    if s.stop.Some? {
      assert !YieldsAfter(x, n) && LatePoll(x, n) == [];
      assert LostAt(x, n) == s.run.lost;
      if !PollsAt(x, n) { NoPoll(x, n); }
      assert Waiting(x, opening, n + 1) == TurnPoll(x, n);
    } else if s.run.hasMore || s.run.pending != [] {
      assert !YieldsAfter(x, n) && LatePoll(x, n) == [];
      assert Goes(x, opening, s.run);
    } else {
      assert YieldsAfter(x, n);
    }
  }

  lemma NoPoll(x: Input, n: nat)
    requires n < |x.script| && !PollsAt(x, n)
    ensures TurnPoll(x, n) == []
  {
  }

  lemma PolledNext(x: Input, opening: Opening, n: nat)
    requires n < |x.script|
    ensures Polled(x, opening, n + 1) == Polled(x, opening, n) + TurnPoll(x, n) + LatePoll(x, n)
  {
  }

  lemma SettleWants(x: Input, r: Run, n: nat)
    requires ValidScript(x.script) && n < |x.script| && r.turns != []
    requires SettlesAt(x.script, n) && !ViolatesAt(x, n)
    ensures SettleCalls(r, x.script[n]).hasMore && !x.script[n].terminal <==> WantsMore(x, n)
  {
    hide ViolatesAt, Runnable, BatchResults;
  }

  /** A round that settles nothing polls nothing, and goes on only as the retry of a leak. */
  lemma UnsettledFlows(x: Input, opening: Opening, start: Run)
    requires FlowTurn(x, opening, start) && !SettlesAt(x.script, |start.calls|)
    ensures var n := |start.calls|;
      && Polled(x, opening, n + 1) == start.polled + LatePoll(x, n) && Waiting(x, opening, n + 1) == LatePoll(x, n)
      && LostAt(x, n) == (if PollsLate(x, n) && x.script[n].lateFails.Some? then LatePoll(x, n) else [])
      && PausedBefore(x, n + 1) == start.paused && !GivesUpAt(x, n)
      && (YieldsAfter(x, n) <==> RetriesLeak(x.script, n) && !start.hasMore)
      && (RetriesLeak(x.script, n) ==>
            MoreAfter(x, n) == start.hasMore && RetriesAt(x.script, n + 1) == start.retries + 1)
  {
    hide Polled, WantsMore, SpentAt;
    PolledNext(x, opening, |start.calls|);
  }

  /** Such a round ends the run. */
  lemma UnsettledEnds(x: Input, opening: Opening, start: Run, s: Run, outcome: Outcome)
    requires FlowTurn(x, opening, start) && !SettlesAt(x.script, |start.calls|)
    requires !RetriesLeak(x.script, |start.calls|) && (outcome.Failed? || outcome.Ended?)
    requires |s.calls| == |start.calls| + 1 && s.polled == start.polled && s.pending == [] && s.lost == []
    ensures FlowEnd(x, opening, false, s, outcome)
  {
    hide Polled, Waiting, LostAt, GivesUpAt, SettlesAt, RetriesLeak, YieldsAfter, MoreAfter, Goes, PausedBefore, RetriesAt;
    UnsettledFlows(x, opening, start);
    NoYield(x, |start.calls|);
  }

  lemma NoYield(x: Input, n: nat)
    requires n < |x.script| && !YieldsAfter(x, n)
    ensures LatePoll(x, n) == [] && !PollsLate(x, n)
  {
  }

  /** Or it is the retry of a leak. */
  lemma RetryFlows(x: Input, opening: Opening, start: Run, s: Run)
    requires FlowTurn(x, opening, start) && RetriesLeak(x.script, |start.calls|)
    requires |s.calls| == |start.calls| + 1
    requires s == start.(calls := s.calls, retries := start.retries + 1)
    ensures FlowHead(x, opening, s)
  {
    hide Polled, Waiting, LostAt, GivesUpAt, MoreAfter, PausedBefore, RetriesAt, YieldsAfter;
    UnsettledFlows(x, opening, start);
    if s.hasMore { NoYield(x, |start.calls|); }
  }

  lemma QuietFlows(x: Input, opening: Opening, start: Run)
    requires ValidScript(x.script) && FlowTurn(x, opening, start) && start.turns != []
    requires SettlesAt(x.script, |start.calls|) && !ViolatesAt(x, |start.calls|)
    ensures var round := x.script[|start.calls|];
      FlowSettled(x, opening, SettleCalls(CommitResponse(CallModel(start, x.tc), round.response), round), |start.calls|)
  {
    hide ViolatesAt, SpentAt, Polled, MoreBefore, PausedBefore, SettleCalls, ValidRound, WantsMore, Runnable;
    var round := x.script[|start.calls|];
    var r := CommitResponse(CallModel(start, x.tc), round.response);
    SettleWants(x, r, |start.calls|);
    SettlePushes(r, round);
  }

  lemma EscalatedFlows(x: Input, opening: Opening, start: Run)
    requires FlowTurn(x, opening, start) && start.turns != [] && start.req.Some?
    requires ViolatesAt(x, |start.calls|) && !GivesUpAt(x, |start.calls|)
    ensures var response := x.script[|start.calls|].response;
      FlowSettled(x, opening, Escalate(CommitResponse(CallModel(start, x.tc), response), response), |start.calls|)
  {
    hide GivesUpAt, Polled, MoreBefore, PausedBefore, Runnable, Compliant, ResumesAt, DirectiveAt;
  }

  lemma SettleFlows(x: Input, opening: Opening, resumed: seq<Msg>, start: Run)
    requires ValidScript(x.script) && RecordedTurn(x, resumed, start) && FlowTurn(x, opening, start)
    requires HasCalls(x.script[|start.calls|].response)
    requires x.script[|start.calls|].response.Recovered? ==> start.resumes < MAX_HARMONY_RETRIES
    ensures var s := SettleTurn(x.tc, x.script[|start.calls|], CallModel(start, x.tc));
      if s.stop.Some? then FlowEnd(x, opening, false, s.run, s.stop.value) else FlowHead(x, opening, s.run)
  {
    hide Recorded, FinishTurn, Runnable, Violating, ViolatesAt, SpentAt, Polled, MoreBefore, ForcedAt, FlowSettled,
         PausedBefore, SettleCalls, FlowHead, ResumesAt, DirectiveAt, ValidRound, GivesUpAt, Escalate;
    var n := |start.calls|;
    var round := x.script[n];
    var r := CommitResponse(CallModel(start, x.tc), round.response);
    if !SettlesAt(x.script, n) {
      UnsettledEnds(x, opening, start, EndFailedTurn(r, round.response), Ended);
    } else {
      TestsMatch(x, start);
      if !ViolatesAt(x, n) {
        QuietFlows(x, opening, start);
        FinishFlows(x, opening, SettleCalls(r, round), n);
      } else if !GivesUpAt(x, n) {
        EscalatedFlows(x, opening, start);
        FinishFlows(x, opening, Escalate(r, round.response), n);
      } else {
        PolledNext(x, opening, n);
        GivingUpPollsNothing(x, n);
      }
    }
  }

  lemma GivingUpPollsNothing(x: Input, n: nat)
    requires n < |x.script| && GivesUpAt(x, n)
    ensures TurnPoll(x, n) == [] && LatePoll(x, n) == [] && LostAt(x, n) == []
  {
    hide ViolatesAt, SpentAt, MoreAfter;
    assert !x.script[n].response.Leaked? by { ViolationSettles(x, n); }
  }

  lemma ViolationSettles(x: Input, n: nat)
    requires n < |x.script| && ViolatesAt(x, n)
    ensures HasCalls(x.script[n].response)
  {
  }

  lemma CallFlows(x: Input, opening: Opening, resumed: seq<Msg>, start: Run)
    requires ValidScript(x.script) && RecordedTurn(x, resumed, start) && FlowTurn(x, opening, start)
    ensures var s := CallAndSettle(x.tc, x.script[|start.calls|], start);
      if s.stop.Some? then FlowEnd(x, opening, false, s.run, s.stop.value) else FlowHead(x, opening, s.run)
  {
    hide Recorded, SettleTurn, EffectiveChoice, ValidRound, SpentAt, Polled, ForcedAt, WantsMore, FlowEnd, FlowHead, Goes;
    var n := |start.calls|;
    var response := x.script[n].response;
    var r := CallModel(start, x.tc);
    if HasCalls(response) && (response.Recovered? ==> start.resumes < MAX_HARMONY_RETRIES) {
      SettleFlows(x, opening, resumed, start);
    } else if RetriesLeak(x.script, n) {
      RetryFlows(x, opening, start, r.(retries := r.retries + 1));
    } else {
      UnsettledEnds(x, opening, start, r, Failed);
    }
  }

  lemma PlayFlows(x: Input, opening: Opening, resumed: seq<Msg>, gated: bool, r: Run)
    requires ValidScript(x.script) && RecordedHead(x, resumed, r) && FlowHead(x, opening, r)
    requires |r.calls| < |x.script| && (r.hasMore || r.pending != [])
    ensures r.resolved ==> r.turns != []
    ensures var s := PlayRound(x.tc, gated, x.script[|r.calls|], r);
      if s.stop.Some? then FlowEnd(x, opening, false, s.run, s.stop.value) else FlowHead(x, opening, s.run)
  {
    hide Recorded, EnterTurn, CallAndSettle, ValidRound, FlowHead, FlowEnd, FlowTurn, GivesUpAt;
    EnterRecords(x, resumed, gated, r);
    EnterFlows(x, opening, gated, r);
    var e := EnterTurn(gated, x.script[|r.calls|], r);
    if e.stop.None? { CallFlows(x, opening, resumed, e.run); }
  }

  lemma YieldFlows(x: Input, opening: Opening, r: Run)
    requires FlowHead(x, opening, r) && !r.hasMore && r.pending == [] && r.calls != []
    requires !GivesUpAt(x, |r.calls| - 1)
    ensures var s := Yield(x.script[|r.calls| - 1], r);
      if s.stop.Some? then FlowEnd(x, opening, false, s.run, s.stop.value) else FlowHead(x, opening, s.run)
  {
    hide GivesUpAt, Polled, RetriesAt, PausedBefore, PausesAt, WantsMore;
  }

  // ---------------------------------------------------------------- queued messages

  /** The queued messages among `ms`, in order. */
  function NoteTags(ms: seq<Msg>): seq<nat> {
    if ms == [] then []
    else NoteTags(ms[..|ms| - 1]) + if ms[|ms| - 1].Note? then [ms[|ms| - 1].tag] else []
  }

  lemma {:induction false} NoteTagsConcat(a: seq<Msg>, b: seq<Msg>)
    ensures NoteTags(a + b) == NoteTags(a) + NoteTags(b)
  {
    if b == [] {
      assert a + b == a;
    } else {
      NoteTagsConcat(a, b[..|b| - 1]);
      assert (a + b)[..|a + b| - 1] == a + b[..|b| - 1];
    }
  }

  lemma {:induction false} NoteTagsNone(ms: seq<Msg>)
    requires forall m | m in ms :: !m.Note?
    ensures NoteTags(ms) == []
  {
    if ms != [] { NoteTagsNone(ms[..|ms| - 1]); }
  }

  lemma {:induction false} NoteTagsAll(tags: seq<nat>)
    ensures NoteTags(Notes(tags)) == tags
  {
    if tags != [] {
      NoteTagsAll(tags[..|tags| - 1]);
      assert Notes(tags)[..|tags| - 1] == Notes(tags[..|tags| - 1]);
    }
  }

  /** Every message is accounted for, in order: those folded in, then those pending, then those dropped, are the prompts
      followed by everything polled. */
  predicate Drained(prompts: seq<nat>, r: Run) {
    NoteTags(r.added) + r.pending + r.lost == prompts + r.polled
  }

  /** Messages that are not queued ones do not matter. */
  lemma OtherMessages(prompts: seq<nat>, r: Run, r': Run, ms: seq<Msg>)
    requires Drained(prompts, r) && r'.added == r.added + ms && forall m | m in ms :: !m.Note?
    requires r'.pending == r.pending && r'.lost == r.lost && r'.polled == r.polled
    ensures Drained(prompts, r')
  {
    NoteTagsConcat(r.added, ms);
    NoteTagsNone(ms);
  }

  lemma EnterDrains(prompts: seq<nat>, gated: bool, round: Round, start: Run)
    requires Drained(prompts, start) && start.lost == []
    ensures var s := EnterTurn(gated, round, start);
      Drained(prompts, s.run) && s.run.lost == [] && (s.stop.None? ==> s.run.pending == [])
  {
    hide NoteTags, Drained;
    var r := NoteHead(start);
    assert Drained(prompts, r) by { SameDrain(prompts, start, r); }
    SameDrain(prompts, r, EndAgent(r));
    CommitDrains(prompts, r);
    var c := CommitPending(r);
    var q := ResolveDirective(c, round.directive);
    if !c.resolved && round.directive.Soft? && c.soft.id != Some(round.directive.requirement.id) {
      OtherMessages(prompts, c, q, Reminders(round.directive.requirement));
    } else {
      SameDrain(prompts, c, q);
    }
    SameDrain(prompts, c, OpenTurn(c));
    SameDrain(prompts, q, OpenTurn(q));
    if q.turnOpen {
      OtherMessages(prompts, q, StopAtGate(q), [Assistant([], Aborted)]);
      OtherMessages(prompts, q, CloseAtGate(q), [Assistant([], Aborted)]);
    } else {
      SameDrain(prompts, q, StopAtGate(q));
    }
  }

  lemma SameDrain(prompts: seq<nat>, r: Run, r': Run)
    requires Drained(prompts, r) && r'.added == r.added
    requires r'.pending == r.pending && r'.lost == r.lost && r'.polled == r.polled
    ensures Drained(prompts, r')
  {
  }

  lemma CommitDrains(prompts: seq<nat>, r: Run)
    requires Drained(prompts, r) && r.lost == []
    ensures Drained(prompts, CommitPending(r))
  {
    NoteTagsConcat(r.added, Notes(r.pending));
    NoteTagsAll(r.pending);
  }

  lemma PollTakes(prompts: seq<nat>, r: Run, incoming: seq<nat>, r': Run)
    requires Drained(prompts, r) && r.pending == [] && r.lost == [] && r'.added == r.added
    requires r'.pending + r'.lost == incoming && r'.polled == r.polled + incoming
    ensures Drained(prompts, r')
  {
    var tags := NoteTags(r.added);
    assert tags + [] + [] == tags;
    assert tags + r'.pending + r'.lost == tags + incoming;
    assert prompts + r.polled + incoming == prompts + (r.polled + incoming);
  }

  lemma FinishDrains(prompts: seq<nat>, round: Round, start: Run)
    requires HasCalls(round.response) && Drained(prompts, start) && start.lost == [] && start.pending == []
    ensures var s := FinishTurn(round, start);
      Drained(prompts, s.run) && (s.stop.None? ==> s.run.lost == [])
  {
    hide NoteTags, Drained;
    var r := CloseTurn(Continuation(start, round));
    var s := FinishTurn(round, start);
    SameDrain(prompts, start, r);
    SameDrain(prompts, r, EndAgent(r));
    if !round.turnEndThrows && !round.deadlineAfterTurn { PollTakes(prompts, r, s.run.pending + s.run.lost, s.run); }
  }

  lemma SettleDrains(prompts: seq<nat>, tc: Option<ToolChoice>, round: Round, start: Run)
    requires HasCalls(round.response) && ValidRound(round) && start.turns != []
    requires Drained(prompts, start) && start.lost == [] && start.pending == []
    ensures var s := SettleTurn(tc, round, start);
      Drained(prompts, s.run) && (s.stop.None? ==> s.run.lost == [])
  {
    hide NoteTags, Drained, FinishTurn, ValidRound;
    var response := round.response;
    var m := Assistant(response.calls, response.stop);
    var r := CommitResponse(start, response);
    var skipped := Placeholders(Runnable(response.calls));
    OtherMessages(prompts, start, r, [m]);
    OtherMessages(prompts, r, EndFailedTurn(r, response), skipped);
    if !(response.stop.Errored? || response.stop.Aborted?) {
      if !Violating(start, tc, response) {
        SettlePushes(r, round);
        OtherMessages(prompts, r, SettleCalls(r, round), SettledResults(round));
        FinishDrains(prompts, round, SettleCalls(r, round));
      } else if start.soft.escalations < MAX_SOFT_TOOL_ESCALATIONS {
        OtherMessages(prompts, r, Escalate(r, response), skipped);
        FinishDrains(prompts, round, Escalate(r, response));
      } else {
        SameDrain(prompts, r, r.(turns := Marked(start.turns, Runnable(response.calls), false)));
      }
    }
  }

  /** One round accounts for every message. */
  lemma RoundDrains(prompts: seq<nat>, tc: Option<ToolChoice>, gated: bool, round: Round, start: Run)
    requires ValidRound(round) && (start.resolved ==> start.turns != [])
    requires Drained(prompts, start) && start.lost == []
    ensures var s := PlayRound(tc, gated, round, start);
      Drained(prompts, s.run) && (s.stop.None? ==> s.run.lost == [])
  {
    hide NoteTags, Drained, EnterTurn, SettleTurn, ValidRound;
    EnterDrains(prompts, gated, round, start);
    var e := EnterTurn(gated, round, start);
    if e.stop.None? {
      var r := CallModel(e.run, tc);
      SameDrain(prompts, e.run, r);
      SameDrain(prompts, r, r.(retries := r.retries + 1));
      if HasCalls(round.response) { SettleDrains(prompts, tc, round, r); }
    }
  }

  lemma YieldDrains(prompts: seq<nat>, round: Round, r: Run)
    requires Drained(prompts, r) && r.lost == [] && r.pending == []
    ensures var s := Yield(round, r);
      Drained(prompts, s.run) && (s.stop.None? ==> s.run.lost == [])
  {
    hide NoteTags, Drained;
    var s := Yield(round, r);
    SameDrain(prompts, r, EndAgent(r));
    if s.stop != Some(Ended) { PollTakes(prompts, r, s.run.pending + s.run.lost, s.run); }
  }

  // ---------------------------------------------------------------- every run

  /** The head of the loop, in every respect. */
  predicate AtTraceHead(x: Input, opening: Opening, prompts: seq<nat>, resumed: seq<Msg>, r: Run)
    requires ValidScript(x.script)
  {
    RecordedHead(x, resumed, r) && FlowHead(x, opening, r) && Drained(prompts, r)
  }

  /** A run that is over, in every respect. */
  predicate Traced(x: Input, opening: Opening, over: bool, prompts: seq<nat>, resumed: seq<Msg>, r: Run,
                   outcome: Outcome)
    requires ValidScript(x.script)
  {
    && Recorded(x, resumed, r) && FlowEnd(x, opening, over, r, outcome) && Drained(prompts, r)
    && (outcome.GateStopped? ==> |r.calls| <= |x.script| && InForce(x, r))
  }

  predicate StepTraced(x: Input, opening: Opening, prompts: seq<nat>, resumed: seq<Msg>, s: Step)
    requires ValidScript(x.script)
  {
    if s.stop.Some? then Traced(x, opening, false, prompts, resumed, s.run, s.stop.value)
    else AtTraceHead(x, opening, prompts, resumed, s.run)
  }

  lemma RoundTraced(x: Input, opening: Opening, prompts: seq<nat>, resumed: seq<Msg>, gated: bool, r: Run)
    requires ValidScript(x.script) && AtTraceHead(x, opening, prompts, resumed, r)
    requires |r.calls| < |x.script| && (r.hasMore || r.pending != [])
    ensures r.resolved ==> r.turns != []
    ensures StepTraced(x, opening, prompts, resumed, PlayRound(x.tc, gated, x.script[|r.calls|], r))
  {
    hide Recorded, RecordedHead, FlowEnd, Drained, PlayRound, ValidRound, Goes, Stops, RetriesAt, PausedBefore;
    PlayRecords(x, resumed, gated, r);
    PlayFlows(x, opening, resumed, gated, r);
    RoundDrains(prompts, x.tc, gated, x.script[|r.calls|], r);
  }

  lemma YieldTraced(x: Input, opening: Opening, prompts: seq<nat>, resumed: seq<Msg>, r: Run)
    requires ValidScript(x.script) && AtTraceHead(x, opening, prompts, resumed, r)
    requires !r.hasMore && r.pending == []
    ensures 0 < |r.calls| <= |x.script|
    ensures StepTraced(x, opening, prompts, resumed, Yield(x.script[|r.calls| - 1], r))
  {
    hide Recorded, FlowEnd, Drained, Yield, GivesUpAt, RetriesAt, PausedBefore, InForce, BetweenTurns, ResumesAt;
    assert 0 < |r.calls| <= |x.script|;
    YieldRecords(x, resumed, r, x.script[|r.calls| - 1]);
    YieldFlows(x, opening, r);
    YieldDrains(prompts, x.script[|r.calls| - 1], r);
  }

  /** A run cut off at the end of its script. */
  lemma CutTraced(x: Input, opening: Opening, prompts: seq<nat>, resumed: seq<Msg>, r: Run)
    requires ValidScript(x.script) && AtTraceHead(x, opening, prompts, resumed, r) && (r.hasMore || r.pending != [])
    requires |r.calls| == |x.script|
    ensures Traced(x, opening, false, prompts, resumed, r, Cut)
    ensures r.resolved ==> r.turns != []
  {
    hide Recorded, Drained, GivesUpAt, LostAt, Polled, RetriesAt, PausedBefore;
  }

  lemma {:induction false} PlayTraced(x: Input, opening: Opening, prompts: seq<nat>, resumed: seq<Msg>, gated: bool, r: Run)
    requires ValidScript(x.script) && AtTraceHead(x, opening, prompts, resumed, r) && |r.calls| <= |x.script|
    ensures var (final, outcome) := Play(x.tc, gated, x.script, r);
      Traced(x, opening, false, prompts, resumed, final, outcome)
    decreases |x.script| - |r.calls|, if r.hasMore || r.pending != [] then 0 else 1
  {
    hide AtTraceHead, Traced, PlayRound, Yield, ValidScript;
    if r.hasMore || r.pending != [] {
      if |r.calls| == |x.script| {
        CutTraced(x, opening, prompts, resumed, r);
      } else {
        RoundTraced(x, opening, prompts, resumed, gated, r);
        ValidAt(x.script, |r.calls|);
        var s := PlayRound(x.tc, gated, x.script[|r.calls|], r);
        if s.stop.None? {
          HeadInScript(x, opening, prompts, resumed, s.run);
          PlayTraced(x, opening, prompts, resumed, gated, s.run);
        }
      }
    } else {
      YieldTraced(x, opening, prompts, resumed, r);
      var s := Yield(x.script[|r.calls| - 1], r);
      if s.stop.None? { PlayTraced(x, opening, prompts, resumed, gated, s.run); }
    }
  }

  lemma HeadInScript(x: Input, opening: Opening, prompts: seq<nat>, resumed: seq<Msg>, r: Run)
    requires ValidScript(x.script) && AtTraceHead(x, opening, prompts, resumed, r)
    ensures |r.calls| <= |x.script|
  {
  }

  /** Nothing has happened yet. */
  lemma NewRunTraced(x: Input, opening: Opening, over: bool, prompts: seq<nat>, resumed: seq<Msg>, base: seq<Msg>,
                     r: Run)
    requires ValidScript(x.script) && x.soft0.escalations <= MAX_SOFT_TOOL_ESCALATIONS
    requires RealResults(r.added) == resumed && NoteTags(r.added) == prompts && AllResults(resumed)
    requires r == Start(base, prompts, x.soft0).(context := r.context, added := r.added, events := r.events,
                    turnOpen := r.turnOpen, pending := OpeningPoll(opening), polled := OpeningPoll(opening))
    ensures AtTraceHead(x, opening, prompts, resumed, r)
    ensures forall outcome: Outcome | outcome.Failed? || outcome.Ended? ::
              OpeningPoll(opening) == [] || (over && (outcome.Ended? || opening.turnEndThrows)) ==>
                Traced(x, opening, over, prompts, resumed, r, outcome)
  {
    assert resumed + [] == resumed;
  }

  lemma OpenTraced(x: Input, base: seq<Msg>, prompts: seq<nat>, opening: Opening)
    requires ValidScript(x.script) && x.soft0.escalations <= MAX_SOFT_TOOL_ESCALATIONS
    ensures var s := OpenRun(base, prompts, x.soft0, opening);
      var over, resumed := Over(base, prompts, opening), ResumedResults(base, prompts, opening);
      if s.stop.Some? then Traced(x, opening, over, prompts, resumed, s.run, s.stop.value)
      else !over && AtTraceHead(x, opening, prompts, resumed, s.run)
  {
    hide AtTraceHead, Traced, RealResults, NoteTags, BatchResults, RunsBatch, UnpairedTail;
    var resumed := ResumedResults(base, prompts, opening);
    var s := OpenRun(base, prompts, x.soft0, opening);
    var notes := Notes(prompts);
    RealNone(notes);
    RealConcat(notes, resumed);
    NoteTagsAll(prompts);
    NoteTagsConcat(notes, resumed);
    NoteTagsNone(resumed);
    assert [] + resumed == resumed && prompts + [] == prompts && notes + [] == notes;
    ResumedReal(base, prompts, opening);
    assert s.run.added == notes + resumed;
    NewRunTraced(x, opening, Over(base, prompts, opening), prompts, resumed, base, s.run);
  }

  lemma ResumedReal(base: seq<Msg>, prompts: seq<nat>, opening: Opening)
    ensures RealResults(ResumedResults(base, prompts, opening)) == ResumedResults(base, prompts, opening)
  {
    var context := base + Notes(prompts);
    if UnpairedTail(context) && RunsBatch(context[|context| - 1].calls, opening.batch, opening.schedule) {
      BatchIsReal(context[|context| - 1].calls, opening.batch, opening.schedule);
    }
    RealAll(ResumedResults(base, prompts, opening));
  }

  lemma RunTraced(x: Input, gated: bool, base: seq<Msg>, prompts: seq<nat>, opening: Opening)
    requires ValidScript(x.script) && x.soft0.escalations <= MAX_SOFT_TOOL_ESCALATIONS
    ensures var (r, outcome) := AgentRun(x.tc, gated, base, prompts, x.soft0, opening, x.script);
      Traced(x, opening, Over(base, prompts, opening), prompts, ResumedResults(base, prompts, opening), r, outcome)
  {
    hide AtTraceHead, Traced, OpenRun, Play;
    OpenTraced(x, base, prompts, opening);
    var s := OpenRun(base, prompts, x.soft0, opening);
    if s.stop.None? { PlayTraced(x, opening, prompts, ResumedResults(base, prompts, opening), gated, s.run); }
  }

  /** Every run makes exactly the calls, turns, executions and results its script demands. The choice sent with a call
      is the host's own, else the one a detour in the turn before forced in the same activation, else the configured
      one; at most three detours are forced in an activation, and the run is aborted exactly when its last call takes
      one more. What a gate stop hands on to the next run is the requirement of the refused round, with what it has
      forced and spent. */
  lemma TurnsFollowScript(x: Input, gated: bool, base: seq<Msg>, prompts: seq<nat>, opening: Opening)
    requires ValidScript(x.script) && x.soft0.escalations <= MAX_SOFT_TOOL_ESCALATIONS
    ensures var (r, outcome) := AgentRun(x.tc, gated, base, prompts, x.soft0, opening, x.script);
      && Recorded(x, ResumedResults(base, prompts, opening), r)
      && (outcome.SoftAborted? <==> r.calls != [] && GivesUpAt(x, |r.calls| - 1))
      && (outcome.GateStopped? ==> InForce(x, r))
  {
    hide AgentRun, ValidScript, Recorded, GivesUpAt, Drained, Polled, LostAt, InForce;
    RunTraced(x, gated, base, prompts, opening);
    CallsInScript(x, ResumedResults(base, prompts, opening),
                  AgentRun(x.tc, gated, base, prompts, x.soft0, opening, x.script).0);
  }

  /** A forced choice is carried by the one turn after the detour that forced it. */
  lemma ForcedByDetour(x: Input, k: nat)
    requires k < |x.script| && OpenerAt(x.script, k) > 0
    ensures var before := OpenerAt(x.script, k) - 1;
      && TurnAt(x.script, k) == TurnAt(x.script, before) + 1
      && (ForcedAt(x, k).Some? <==> ViolatesAt(x, before) && ContinuesAt(x, k))
      && (ForcedAt(x, k).Some? ==>
            IdOf(DirectiveAt(x.script, before)) == IdOf(DirectiveAt(x.script, k)) &&
            ForcedAt(x, k) == Some(Named(ReqOf(DirectiveAt(x.script, before)).value.toolName)))
  {
    OpenerStartsTurn(x.script, k);
  }

  /** All rounds from the opener of a turn on belong to that turn. */
  lemma {:induction false} OpenerStartsTurn(script: seq<Round>, k: nat)
    requires k <= |script|
    ensures TurnAt(script, OpenerAt(script, k)) == TurnAt(script, k)
    ensures OpenerAt(script, k) > 0 ==> !script[OpenerAt(script, k) - 1].response.Leaked?
  {
    if k > 0 && script[k - 1].response.Leaked? { OpenerStartsTurn(script, k - 1); }
  }

  /** Every queued message is delivered in order, with two exceptions, whatever happens in the run. The prompts and what
      the polls of the played rounds hand over are folded in in order, up to what the last poll took before it threw
      and what was waiting for a round that never came; the inputs say what that is, and when it is nothing. */
  lemma QueuesDrained(x: Input, gated: bool, base: seq<Msg>, prompts: seq<nat>, opening: Opening)
    requires ValidScript(x.script) && x.soft0.escalations <= MAX_SOFT_TOOL_ESCALATIONS
    ensures var (r, outcome) := AgentRun(x.tc, gated, base, prompts, x.soft0, opening, x.script);
      var n := |r.calls|;
      && n <= |x.script|
      && r.pending == Discarded(x, opening, Over(base, prompts, opening), n)
      && r.lost == LostBefore(x, n)
      && NoteTags(r.added) + r.pending + r.lost == prompts + Polled(x, opening, n)
      && (NoteTags(r.added) == prompts + Polled(x, opening, n) <==>
            Discarded(x, opening, Over(base, prompts, opening), n) == [] && LostBefore(x, n) == [])
      && (r.lost != [] ==> outcome.Failed?)
      && (r.pending != [] ==> outcome.Ended? || outcome.Cut? || opening.turnEndThrows)
      && (outcome.Cut? ==> n == |x.script|)
  {
    hide AgentRun, ValidScript, Recorded, GivesUpAt, NoteTags, Polled, LostBefore, Discarded, Over, ResumedResults;
    RunTraced(x, gated, base, prompts, opening);
    var r := AgentRun(x.tc, gated, base, prompts, x.soft0, opening, x.script).0;
    var tags := NoteTags(r.added);
    assert |tags + r.pending + r.lost| == |tags| + |r.pending| + |r.lost|;
    assert r.pending == [] && r.lost == [] ==> tags + r.pending + r.lost == tags;
  }
}
