/** The turn machine of `runLoopBody`: one model call per round, with every way a round can end.

    A run is driven by a finite script of rounds. Each round holds what the environment decides in it: the
    queues, the tool-choice directive, the pre-call gate, the model's response, the schedule of the tool
    batch and the deadline checks. Scripts are arbitrary, so a theorem about all scripts is a theorem about
    every prefix of every run. */
module AgentLoop {
  import opened Wrappers
  import opened Transcript
  import ToolBatch

  const MAX_PAUSED_TURN_CONTINUATIONS: nat := 8
  const MAX_SOFT_TOOL_ESCALATIONS: nat := 3
  const MAX_HARMONY_RETRIES: nat := 2

  // ---------------------------------------------------------------- tool choice

  datatype ToolChoice = AnyTool | NoTools | Named(name: nat)

  /** A soft requirement; `accepts` is the host's own compliance check, when it has one. */
  datatype Requirement = Requirement(id: nat, toolName: nat, accepts: Option<set<(nat, nat)>>, reminders: nat)

  datatype Directive = Undirected | Hard(choice: ToolChoice) | Soft(requirement: Requirement)

  /** The lifecycle the host keeps between runs. */
  datatype SoftState = SoftState(id: Option<nat>, forced: Option<ToolChoice>, escalations: nat)

  predicate HardChoiceBlocks(choice: Option<ToolChoice>, toolName: nat) {
    match choice
    case None => false
    case Some(AnyTool) => false
    case Some(NoTools) => true
    case Some(Named(name)) => name != toolName
  }

  predicate GateActive(toolChoice: Option<ToolChoice>, req: Option<Requirement>) {
    req.Some? && !HardChoiceBlocks(toolChoice, req.value.toolName)
  }

  predicate Satisfies(req: Requirement, c: Call) {
    match req.accepts
    case Some(accepted) => (c.name, c.args) in accepted
    case None => c.name == req.toolName
  }

  predicate Compliant(req: Requirement, calls: seq<Call>) {
    calls != [] && forall c | c in calls :: Satisfies(req, c)
  }

  // ---------------------------------------------------------------- the environment

  /** How one model call ends. `Final` is a terminal provider event or an abort; `Trailing` a stream that
      closed without one, `started` telling whether it had sent its start event; `Recovered` and `Leaked`
      are the two outcomes of leak detection. */
  datatype Response =
    | Final(calls: seq<Call>, stop: StopReason)
    | Trailing(calls: seq<Call>, stop: StopReason, started: bool)
    | Recovered(calls: seq<Call>, stop: StopReason)
    | Leaked
    | Throws

  /** What the environment decides in one round. `pollFails` and `lateFails` are polls of the queues that throw; they
      hold what the callbacks before the throwing one had already dequeued. */
  datatype Round = Round(
    deadlineAtHead: bool,
    syncThrows: bool,
    directive: Directive,
    prepareThrows: bool,
    gateStops: bool,
    aborted: bool,
    response: Response,
    deadlinePassed: bool,
    batch: ToolBatch.Batch,
    schedule: seq<ToolBatch.Label>,
    terminal: bool,
    pauseTurn: bool,
    turnEndThrows: bool,
    deadlineAfterTurn: bool,
    pollFails: Option<seq<nat>>,
    steering: seq<nat>,
    asides: seq<nat>,
    deadlineAtYield: bool,
    yieldThrows: bool,
    deadlineAfterYield: bool,
    lateFails: Option<seq<nat>>,
    lateMessages: seq<nat>)

  /** What precedes the first round. */
  datatype Opening = Opening(
    deadline: bool, steeringThrows: bool, steering: seq<nat>,
    batch: ToolBatch.Batch, schedule: seq<ToolBatch.Label>, turnEndThrows: bool, terminal: bool)

  /** A schedule that runs a batch of these calls to its end. */
  predicate RunsBatch(calls: seq<Call>, batch: ToolBatch.Batch, schedule: seq<ToolBatch.Label>) {
    && |batch.calls| == |Runnable(calls)|
    && ToolBatch.Exec(batch, schedule).Some?
    && ToolBatch.Done(ToolBatch.Exec(batch, schedule).value)
  }

  predicate HasCalls(response: Response) {
    response.Final? || response.Trailing? || response.Recovered?
  }

  predicate ValidRound(round: Round) {
    HasCalls(round.response) ==> RunsBatch(round.response.calls, round.batch, round.schedule)
  }

  // ---------------------------------------------------------------- the run

  datatype Event = TurnStart | TurnEnd | AgentEnd

  /** A model call: the context and the tool choice it was sent, and the turn it was made for. */
  datatype ModelCall = ModelCall(context: seq<Msg>, choice: Option<ToolChoice>, turn: nat)

  datatype Head = Head(context: seq<Msg>, added: seq<Msg>)

  /** A logical turn: its requirement, whether its reminder was injected, the forced choice it carried, the
      calls its response settled on, and whether it ended in an escalation. */
  datatype Turn = Turn(
    req: Option<Requirement>, reminded: bool, forced: Option<ToolChoice>,
    settled: Option<seq<Call>>, escalated: bool)

  datatype Execution = Execution(turn: nat, calls: seq<Call>)

  /** `polled` lists every queued message the loop has taken, `pending` those it has yet to fold in, and `lost` those
      it dropped. */
  datatype Run = Run(
    context: seq<Msg>, added: seq<Msg>, events: seq<Event>,
    calls: seq<ModelCall>, heads: seq<Head>, turns: seq<Turn>, executions: seq<Execution>,
    soft: SoftState, hostChoice: Option<ToolChoice>, req: Option<Requirement>, resolved: bool,
    turnOpen: bool, hasMore: bool, pending: seq<nat>, paused: nat, retries: nat, resumes: nat,
    polled: seq<nat>, lost: seq<nat>)

  datatype Outcome = Ended | GateStopped | SoftAborted | Failed | Cut

  function Notes(tags: seq<nat>): (ms: seq<Msg>)
    ensures |ms| == |tags| && AllNotes(ms)
  {
    seq(|tags|, k requires 0 <= k < |tags| => Note(tags[k]))
  }

  function Reminders(req: Requirement): (ms: seq<Msg>)
    ensures |ms| == req.reminders && AllNotes(ms)
  {
    seq(req.reminders, _ => Reminder(req.id))
  }

  function Placeholders(calls: seq<Call>): (ms: seq<Msg>)
    ensures |ms| == |calls| && AllResults(ms)
  {
    seq(|calls|, k requires 0 <= k < |calls| => ToolResult(calls[k].id, true))
  }

  /** The results of an executed batch, in the order the scheduler emitted them. */
  function BatchResults(calls: seq<Call>, batch: ToolBatch.Batch, schedule: seq<ToolBatch.Label>): (ms: seq<Msg>)
    requires RunsBatch(calls, batch, schedule)
    ensures AllResults(ms)
  {
    var ids := Ids(Runnable(calls));
    var order := ToolBatch.Exec(batch, schedule).value.order;
    seq(|order|, k requires 0 <= k < |order| => ToolResult(if order[k] < |ids| then ids[order[k]] else 0, false))
  }

  function Push(r: Run, ms: seq<Msg>): Run {
    r.(context := r.context + ms, added := r.added + ms)
  }

  function OpenTurn(r: Run): Run {
    if r.turnOpen then r else r.(events := r.events + [TurnStart], turnOpen := true)
  }

  function CloseTurn(r: Run): Run {
    r.(events := r.events + [TurnEnd], turnOpen := false)
  }

  function EndAgent(r: Run): Run {
    r.(events := r.events + [AgentEnd])
  }

  function CommitPending(r: Run): Run {
    Push(r, Notes(r.pending)).(pending := [])
  }

  /** Resolve the directive once per logical turn; a requirement new to the host is announced. */
  function ResolveDirective(r: Run, d: Directive): Run {
    if r.resolved then r
    else match d
      case Soft(req) =>
        var unannounced := r.soft.id != Some(req.id);
        var soft := if unannounced then SoftState(Some(req.id), None, 0) else r.soft;
        var s := if unannounced then Push(r, Reminders(req)) else r;
        s.(soft := soft, req := Some(req), hostChoice := None, resolved := true,
           turns := r.turns + [Turn(Some(req), unannounced, soft.forced, None, false)])
      case _ =>
        r.(soft := SoftState(None, None, 0), req := None, resolved := true,
           hostChoice := if d.Hard? then Some(d.choice) else None,
           turns := r.turns + [Turn(None, false, None, None, false)])
  }

  /** The gate refused the model call: an open turn is closed with a stop message. */
  function StopAtGate(r: Run): Run {
    EndAgent(if r.turnOpen then CloseAtGate(r) else r)
  }

  function CloseAtGate(r: Run): Run {
    CloseTurn(Push(r, [Assistant([], Aborted)]))
  }

  function EffectiveChoice(r: Run, toolChoice: Option<ToolChoice>): Option<ToolChoice> {
    if r.hostChoice.Some? then r.hostChoice
    else if r.soft.forced.Some? then r.soft.forced
    else toolChoice
  }

  function CallModel(r: Run, toolChoice: Option<ToolChoice>): Run
    requires r.turns != []
  {
    r.(calls := r.calls + [ModelCall(r.context, EffectiveChoice(r, toolChoice), |r.turns| - 1)])
  }

  /** Commit the response. A stream that closed before its start event never reached the context. */
  function CommitResponse(r: Run, response: Response): (s: Run)
    requires HasCalls(response)
    ensures s.turns == r.turns && s.req == r.req && s.turnOpen == r.turnOpen && !s.resolved
    ensures s.calls == r.calls && s.heads == r.heads && s.events == r.events
  {
    var m := Assistant(response.calls, response.stop);
    var reached := if response.Trailing? && !response.started then [] else [m];
    r.(context := r.context + reached, added := r.added + [m], resolved := false,
       soft := r.soft.(forced := None), retries := 0,
       resumes := if response.Recovered? then r.resumes + 1 else 0)
  }

  function EndFailedTurn(r: Run, response: Response): Run
    requires HasCalls(response)
  {
    EndAgent(CloseTurn(Push(r, Placeholders(Runnable(response.calls)))))
  }

  predicate RunnableStop(response: Response)
    requires HasCalls(response)
  {
    response.stop.ToolUse? || response.stop.EndTurn?
  }

  predicate Violating(r: Run, toolChoice: Option<ToolChoice>, response: Response)
    requires HasCalls(response)
  {
    GateActive(toolChoice, r.req) && !Compliant(r.req.value, Runnable(response.calls))
  }

  function Marked(turns: seq<Turn>, calls: seq<Call>, escalated: bool): seq<Turn>
    requires turns != []
  {
    var t := turns[|turns| - 1];
    turns[..|turns| - 1] + [t.(settled := Some(calls), escalated := escalated)]
  }

  /** A detour while a requirement is pending: nothing runs, every call is skipped, and the next turn is
      forced. */
  function Escalate(r: Run, response: Response): (s: Run)
    requires HasCalls(response) && r.turns != [] && r.req.Some?
    ensures s.turnOpen == r.turnOpen && s.resolved == r.resolved
    ensures s.calls == r.calls && s.heads == r.heads && s.events == r.events && s.executions == r.executions
  {
    var calls := Runnable(response.calls);
    Push(r, Placeholders(calls)).(
      turns := Marked(r.turns, calls, true), hasMore := true,
      soft := r.soft.(forced := Some(Named(r.req.value.toolName)), escalations := r.soft.escalations + 1))
  }

  /** A turn that meets its requirement, if any: run its calls or pair them with placeholders. */
  function SettleCalls(r: Run, round: Round): (s: Run)
    requires HasCalls(round.response) && r.turns != [] && ValidRound(round)
    ensures s.turnOpen == r.turnOpen && s.resolved == r.resolved
    ensures s.calls == r.calls && s.heads == r.heads && s.events == r.events
  {
    var calls := Runnable(round.response.calls);
    var s := r.(turns := Marked(r.turns, calls, false));
    if calls == [] then
      s.(hasMore := false)
    else if RunnableStop(round.response) && !round.deadlinePassed then
      Push(s, BatchResults(round.response.calls, round.batch, round.schedule)).(
        executions := r.executions + [Execution(|r.turns| - 1, calls)], hasMore := true)
    else
      Push(s, Placeholders(calls)).(hasMore := round.response.stop.Length? && !round.deadlinePassed)
  }

  /** The terminal-result rule, then the bounded continuation of a paused turn. */
  function Continuation(r: Run, round: Round): Run
    requires HasCalls(round.response)
  {
    var hasMore := r.hasMore && !round.terminal;
    if Runnable(round.response.calls) != [] then
      r.(hasMore := hasMore, paused := 0)
    else if !hasMore && round.response.stop.EndTurn? && round.pauseTurn &&
            r.paused < MAX_PAUSED_TURN_CONTINUATIONS then
      r.(hasMore := true, paused := r.paused + 1)
    else
      r.(hasMore := hasMore)
  }

  function Start(base: seq<Msg>, prompts: seq<nat>, soft: SoftState): Run {
    Run(base + Notes(prompts), Notes(prompts), [], [], [], [], [], soft, None, None, false,
        false, true, [], 0, 0, 0, [], [])
  }

  /** A trailing assistant message whose runnable calls have no results yet. */
  predicate UnpairedTail(ms: seq<Msg>) {
    && ms != []
    && var tail := ms[|ms| - 1];
       tail.Assistant? && (tail.stop.ToolUse? || tail.stop.EndTurn?) && Runnable(tail.calls) != []
  }

  /** A step of the run, and its outcome when it was the last. */
  datatype Step = Step(run: Run, stop: Option<Outcome>)

  function NoteHead(r: Run): Run {
    r.(heads := r.heads + [Head(r.context, r.added)])
  }

  /** The directive is resolved, the gate is asked, and the turn is opened. */
  function PrepareTurn(gated: bool, round: Round, r: Run): (s: Step)
    ensures s.run.calls == r.calls && s.run.heads == r.heads
    ensures s.stop.None? ==> s.run.turns != [] || r.resolved
    ensures r.resolved ==> s.run.turns == r.turns
  {
    var q := ResolveDirective(r, round.directive);
    if round.prepareThrows then Step(OpenTurn(q), Some(Failed))
    else if gated && (round.gateStops || round.aborted) then
      if q.turnOpen && round.turnEndThrows then Step(CloseAtGate(q), Some(Failed))
      else Step(StopAtGate(q), Some(GateStopped))
    else Step(OpenTurn(q), None)
  }

  /** The first half of a round: queued messages fold in and the turn is prepared. A host callback can throw before
      its directive is resolved as well as after. */
  function EnterTurn(gated: bool, round: Round, start: Run): (s: Step)
    ensures s.run.calls == start.calls && s.run.heads == NoteHead(start).heads
    ensures s.stop.None? ==> s.run.turns != [] || start.resolved
    ensures start.resolved ==> s.run.turns == start.turns
  {
    var r := NoteHead(start);
    if round.deadlineAtHead then Step(EndAgent(r), Some(Ended))
    else if round.syncThrows then Step(OpenTurn(CommitPending(r)), Some(Failed))
    else PrepareTurn(gated, round, CommitPending(r))
  }

  /** The turn is closed and the queues are polled for the next one. Asides wait for a stop boundary to pass. */
  function FinishTurn(round: Round, start: Run): (s: Step)
    requires HasCalls(round.response)
    ensures s.run.calls == start.calls && s.run.heads == start.heads && s.stop != Some(GateStopped)
  {
    var r := CloseTurn(Continuation(start, round));
    if round.turnEndThrows then Step(r, Some(Failed))
    else if round.deadlineAfterTurn then Step(EndAgent(r), Some(Ended))
    else if round.pollFails.Some? then
      var taken := if r.hasMore then round.pollFails.value else [];
      Step(r.(polled := r.polled + taken, lost := taken), Some(Failed))
    else
      var incoming := if r.hasMore then round.steering + round.asides else round.steering;
      Step(r.(pending := incoming, polled := r.polled + incoming), None)
  }

  /** The response is committed and its turn settled. */
  function SettleTurn(toolChoice: Option<ToolChoice>, round: Round, start: Run): (s: Step)
    requires HasCalls(round.response) && ValidRound(round) && start.turns != []
    ensures s.run.calls == start.calls && s.run.heads == start.heads && s.stop != Some(GateStopped)
    ensures s.stop.None? ==> !s.run.resolved
  {
    var response := round.response;
    var r := CommitResponse(start, response);
    if response.stop.Errored? || response.stop.Aborted? then
      Step(EndFailedTurn(r, response), Some(Ended))
    else if !Violating(start, toolChoice, response) then
      FinishTurn(round, SettleCalls(r, round))
    else if start.soft.escalations < MAX_SOFT_TOOL_ESCALATIONS then
      FinishTurn(round, Escalate(r, response))
    else
      Step(r.(turns := Marked(start.turns, Runnable(response.calls), false)), Some(SoftAborted))
  }

  /** The second half of a round. A leak that may be retried asks for the same turn again. */
  function CallAndSettle(toolChoice: Option<ToolChoice>, round: Round, start: Run): (s: Step)
    requires ValidRound(round) && start.turns != []
    ensures s.run.calls == CallModel(start, toolChoice).calls
    ensures s.run.heads == start.heads && s.stop != Some(GateStopped)
    ensures s.stop.None? && s.run.resolved ==> s.run.turns != []
  {
    hide SettleTurn;
    var r := CallModel(start, toolChoice);
    match round.response
    case Throws => Step(r, Some(Failed))
    case Leaked =>
      if r.retries >= MAX_HARMONY_RETRIES then Step(r, Some(Failed))
      else Step(r.(retries := r.retries + 1), None)
    case Recovered(_, _) =>
      if r.resumes >= MAX_HARMONY_RETRIES then Step(r, Some(Failed)) else SettleTurn(toolChoice, round, r)
    case _ => SettleTurn(toolChoice, round, r)
  }

  /** One iteration of the inner loop. */
  function PlayRound(toolChoice: Option<ToolChoice>, gated: bool, round: Round, start: Run): (s: Step)
    requires ValidRound(round) && (start.resolved ==> start.turns != [])
    ensures s.stop.None? ==> |s.run.calls| == |start.calls| + 1
    ensures s.stop.None? && s.run.resolved ==> s.run.turns != []
    ensures s.stop == Some(GateStopped) ==> s.run.calls == start.calls
    ensures start.calls <= s.run.calls
  {
    var s := EnterTurn(gated, round, start);
    if s.stop.Some? then s else CallAndSettle(toolChoice, round, s.run)
  }

  /** The agent would stop here: the deadline is read twice, and late messages start another pass. */
  function Yield(round: Round, r: Run): (s: Step)
    ensures s.run.calls == r.calls && s.run.turns == r.turns && s.run.resolved == r.resolved
    ensures s.stop.None? ==> s.run.hasMore
    ensures s.stop != Some(GateStopped)
  {
    if round.deadlineAtYield then Step(EndAgent(r), Some(Ended))
    else if round.yieldThrows then Step(r, Some(Failed))
    else if round.deadlineAfterYield then Step(EndAgent(r), Some(Ended))
    else if round.lateFails.Some? then
      Step(r.(polled := r.polled + round.lateFails.value, lost := round.lateFails.value), Some(Failed))
    else if round.lateMessages == [] then Step(EndAgent(r), Some(Ended))
    else Step(r.(pending := round.lateMessages, polled := r.polled + round.lateMessages, hasMore := true), None)
  }

  predicate ValidScript(script: seq<Round>) {
    forall k | 0 <= k < |script| :: ValidRound(script[k])
  }

  /** The rounds that remain to be played from the head of the inner loop. */
  function Play(toolChoice: Option<ToolChoice>, gated: bool, script: seq<Round>, r: Run): (Run, Outcome)
    requires ValidScript(script) && |r.calls| <= |script|
    decreases |script| - |r.calls|, if r.hasMore || r.pending != [] then 0 else 1
  {
    if r.hasMore || r.pending != [] then
      if |r.calls| == |script| || (r.resolved && r.turns == []) then (r, Cut)
      else
        var s := PlayRound(toolChoice, gated, script[|r.calls|], r);
        if s.stop.Some? then (s.run, s.stop.value) else Play(toolChoice, gated, script, s.run)
    else if r.calls == [] then (r, Cut)
    else
      var s := Yield(script[|r.calls| - 1], r);
      if s.stop.Some? then (s.run, s.stop.value) else Play(toolChoice, gated, script, s.run)
  }

  predicate ResumeOk(base: seq<Msg>, prompts: seq<nat>, opening: Opening) {
    || Owed(base) == Some(multiset{})
    || (prompts == [] && UnpairedTail(base) && Owed(base[..|base| - 1]) == Some(multiset{}) &&
        RunsBatch(base[|base| - 1].calls, opening.batch, opening.schedule))
  }

  /** A turn that only runs the calls of the unpaired tail. */
  function OneTurnOf(r: Run, opening: Opening): (s: Run)
    requires UnpairedTail(r.context) && RunsBatch(r.context[|r.context| - 1].calls, opening.batch, opening.schedule)
    ensures s.calls == r.calls && s.heads == r.heads && s.pending == r.pending
    ensures s.hasMore == r.hasMore && s.resolved == r.resolved && !s.turnOpen
  {
    var results := BatchResults(r.context[|r.context| - 1].calls, opening.batch, opening.schedule);
    CloseTurn(Push(OpenTurn(r), results))
  }

  /** What precedes the first round: the entry deadline, the steering poll, and the calls of an unpaired tail. */
  function OpenRun(base: seq<Msg>, prompts: seq<nat>, soft0: SoftState, opening: Opening): (s: Step)
    ensures s.run.calls == []
    ensures s.stop.Some? ==> !s.stop.value.GateStopped?
    ensures s.stop.None? ==> s.run.hasMore && !s.run.resolved
  {
    var r := Start(base, prompts, soft0).(pending := opening.steering, polled := opening.steering);
    if opening.deadline then Step(EndAgent(Start(base, prompts, soft0)), Some(Ended))
    else if opening.steeringThrows then Step(OpenTurn(Start(base, prompts, soft0)), Some(Failed))
    else if UnpairedTail(r.context) && RunsBatch(r.context[|r.context| - 1].calls, opening.batch, opening.schedule) then
      var resumed := OneTurnOf(r, opening);
      if opening.turnEndThrows then Step(resumed, Some(Failed))
      else if opening.terminal then Step(EndAgent(resumed), Some(Ended))
      else Step(resumed, None)
    else Step(r, None)
  }

  function AgentRun(toolChoice: Option<ToolChoice>, gated: bool, base: seq<Msg>, prompts: seq<nat>,
                    soft0: SoftState, opening: Opening, script: seq<Round>): (Run, Outcome)
    requires ValidScript(script)
  {
    var s := OpenRun(base, prompts, soft0, opening);
    if s.stop.Some? then (s.run, s.stop.value) else Play(toolChoice, gated, script, s.run)
  }

  /** The run as the source drives it: an outer loop that polls the queues before the agent yields, and an inner
      loop of rounds. The soft requirement outlives the run only through a gate stop. */
  method RunLoopBody(toolChoice: Option<ToolChoice>, gated: bool, base: seq<Msg>, prompts: seq<nat>,
                     soft0: SoftState, opening: Opening, script: seq<Round>)
    returns (r: Run, soft: SoftState, outcome: Outcome)
    requires ValidScript(script)
    ensures (r, outcome) == AgentRun(toolChoice, gated, base, prompts, soft0, opening, script)
    ensures soft == if outcome.GateStopped? && |r.calls| < |script| && !script[|r.calls|].aborted
                    then r.soft else SoftState(None, None, 0)
  {
    hide PlayRound, OpenRun, Yield;
    soft := SoftState(None, None, 0);
    var s := OpenRun(base, prompts, soft0, opening);
    r := s.run;
    if s.stop.Some? { return r, soft, s.stop.value; }
    ghost var spec := Play(toolChoice, gated, script, r);
    while true
      invariant |r.calls| <= |script| && (r.hasMore || r.calls == [])
      invariant r.resolved ==> r.turns != []
      invariant Play(toolChoice, gated, script, r.(hasMore := true)) == spec
      decreases |script| - |r.calls|
    {
      r := r.(hasMore := true);
      ghost var before := |r.calls|;
      while r.hasMore || r.pending != []
        invariant before <= |r.calls| <= |script| && (r.hasMore || |r.calls| > before)
        invariant r.resolved ==> r.turns != []
        invariant Play(toolChoice, gated, script, r) == spec
        decreases |script| - |r.calls|
      {
        if |r.calls| == |script| { return r, soft, Cut; }
        var round := script[|r.calls|];
        s := PlayRound(toolChoice, gated, round, r);
        r := s.run;
        if s.stop.Some? {
          if s.stop.value.GateStopped? && !round.aborted { soft := r.soft; }
          return r, soft, s.stop.value;
        }
      }
      s := Yield(script[|r.calls| - 1], r);
      r := s.run;
      if s.stop.Some? { return r, soft, s.stop.value; }
    }
  }

  // ---------------------------------------------------------------- what the theorems speak of

  /** A response whose stream closed without ever sending a start or a terminal event. */
  predicate Unstarted(response: Response) {
    response.Trailing? && !response.started
  }

  function UnstartedBefore(script: seq<Round>, n: nat): nat
    requires n <= |script|
  {
    if n == 0 then 0 else UnstartedBefore(script, n - 1) + if Unstarted(script[n - 1].response) then 1 else 0
  }

  predicate Orphans(response: Response) {
    Unstarted(response) && Runnable(response.calls) != []
  }

  predicate OrphanBefore(script: seq<Round>, n: nat)
    requires n <= |script|
  {
    exists k | 0 <= k < n :: Orphans(script[k].response)
  }

  datatype Track = Closed | Open | Broken

  /** Turn starts and ends must alternate. */
  function TrackOf(events: seq<Event>): Track {
    if events == [] then Closed
    else
      var before := TrackOf(events[..|events| - 1]);
      match events[|events| - 1]
      case TurnStart => if before.Closed? then Open else Broken
      case TurnEnd => if before.Open? then Closed else Broken
      case AgentEnd => before
  }

  function ReqId(t: Turn): Option<nat> {
    if t.req.Some? then Some(t.req.value.id) else None
  }

  /** The requirement id in force before turn `n`. */
  function IdBefore(soft0: SoftState, turns: seq<Turn>, n: nat): Option<nat>
    requires n <= |turns|
  {
    if n == 0 then soft0.id else ReqId(turns[n - 1])
  }

  /** Turn `k` continues the activation of the turn before it. */
  predicate Continues(soft0: SoftState, turns: seq<Turn>, k: nat)
    requires k < |turns|
  {
    turns[k].req.Some? && ReqId(turns[k]) == IdBefore(soft0, turns, k)
  }

  /** The escalations spent, after `n` turns, in the activation then in force. */
  function Used(soft0: SoftState, turns: seq<Turn>, n: nat): nat
    requires n <= |turns|
  {
    if n == 0 then soft0.escalations
    else
      var carried := if Continues(soft0, turns, n - 1) then Used(soft0, turns, n - 1) else 0;
      if turns[n - 1].escalated then carried + 1 else carried
  }

  /** The forced choice left for turn `k` by the turn before it. */
  function ForcedFor(soft0: SoftState, turns: seq<Turn>, k: nat): Option<ToolChoice>
    requires k <= |turns|
  {
    if k == 0 then soft0.forced
    else if turns[k - 1].escalated && turns[k - 1].req.Some? then Some(Named(turns[k - 1].req.value.toolName))
    else None
  }

  predicate Violates(toolChoice: Option<ToolChoice>, t: Turn) {
    t.settled.Some? && GateActive(toolChoice, t.req) && !Compliant(t.req.value, t.settled.value)
  }

  /** The soft-requirement policy for one turn: it announces its requirement exactly when that is new, carries
      exactly the choice forced by the turn before it in the same activation, spends at most the allowed
      escalations, and escalates exactly when its response violates the active gate. */
  predicate TurnOk(toolChoice: Option<ToolChoice>, soft0: SoftState, turns: seq<Turn>, k: nat)
    requires k < |turns|
  {
    && (turns[k].reminded <==> turns[k].req.Some? && !Continues(soft0, turns, k))
    && turns[k].forced == (if Continues(soft0, turns, k) then ForcedFor(soft0, turns, k) else None)
    && Used(soft0, turns, k + 1) <= MAX_SOFT_TOOL_ESCALATIONS
    && (turns[k].escalated <==> Violates(toolChoice, turns[k]))
  }

  /** The one way out of the policy: a violation when every escalation of the activation is spent. */
  predicate GivesUp(toolChoice: Option<ToolChoice>, soft0: SoftState, turns: seq<Turn>, k: nat)
    requires k < |turns|
  {
    && Violates(toolChoice, turns[k]) && !turns[k].escalated
    && Used(soft0, turns, k + 1) == MAX_SOFT_TOOL_ESCALATIONS
  }

  /** The reminder messages owed for requirement `id`: one batch for each turn that announced it. */
  function RemindersDue(turns: seq<Turn>, id: nat): nat {
    if turns == [] then 0
    else
      var t := turns[|turns| - 1];
      RemindersDue(turns[..|turns| - 1], id)
      + if t.reminded && t.req.Some? && t.req.value.id == id then t.req.value.reminders else 0
  }

  ghost predicate RemindersOk(r: Run) {
    forall id: nat :: multiset(r.added)[Reminder(id)] == RemindersDue(r.turns, id)
  }

  /** Tools ran only for the settled calls of a turn that did not violate its gate. */
  predicate ExecutionsOk(toolChoice: Option<ToolChoice>, r: Run) {
    forall e | e in r.executions ::
      e.turn < |r.turns| && r.turns[e.turn].settled == Some(e.calls) && !Violates(toolChoice, r.turns[e.turn])
  }

  // ---------------------------------------------------------------- invariants

  predicate History(base: seq<Msg>, script: seq<Round>, r: Run) {
    && |r.calls| <= |r.heads| <= |script|
    && (forall k | 0 <= k < |r.calls| :: Paired(r.calls[k].context) <==> !OrphanBefore(script, k))
    && (forall k | 0 <= k < |r.heads| ::
          r.heads[k].context == base + r.heads[k].added <==> UnstartedBefore(script, k) == 0)
  }

  predicate Books(base: seq<Msg>, script: seq<Round>, r: Run, n: nat)
    requires n <= |script|
  {
    && |r.context| + UnstartedBefore(script, n) == |base| + |r.added|
    && (UnstartedBefore(script, n) == 0 ==> r.context == base + r.added)
  }

  predicate PairedNow(script: seq<Round>, r: Run, n: nat)
    requires n <= |script|
  {
    Owed(r.context) == if OrphanBefore(script, n) then None else Some(multiset{})
  }

  ghost predicate SoftInv(toolChoice: Option<ToolChoice>, soft0: SoftState, r: Run) {
    && (forall k | 0 <= k < |r.turns| :: TurnOk(toolChoice, soft0, r.turns, k))
    && r.soft.id == IdBefore(soft0, r.turns, |r.turns|)
    && r.soft.escalations == Used(soft0, r.turns, |r.turns|)
    && (if r.resolved then
          r.turns != [] && r.turns[|r.turns| - 1].settled.None? && r.req == r.turns[|r.turns| - 1].req &&
          r.soft.forced == r.turns[|r.turns| - 1].forced
        else
          r.soft.forced == ForcedFor(soft0, r.turns, |r.turns|))
    && ExecutionsOk(toolChoice, r)
    && RemindersOk(r)
  }

  ghost predicate Inv(toolChoice: Option<ToolChoice>, base: seq<Msg>, soft0: SoftState, script: seq<Round>, r: Run, n: nat)
    requires n <= |script|
  {
    && History(base, script, r) && Books(base, script, r, n) && PairedNow(script, r, n)
    && TrackOf(r.events) == (if r.turnOpen then Open else Closed)
    && SoftInv(toolChoice, soft0, r)
    && r.paused <= MAX_PAUSED_TURN_CONTINUATIONS
  }

  lemma TrackSnoc(events: seq<Event>, e: Event)
    ensures TrackOf(events + [e]) == match e
      case TurnStart => if TrackOf(events).Closed? then Open else Broken
      case TurnEnd => if TrackOf(events).Open? then Closed else Broken
      case AgentEnd => TrackOf(events)
  {
  }

  // ---------------------------------------------------------------- steps that keep the invariant

  lemma NoRemindersIn(added: seq<Msg>, ms: seq<Msg>, id: nat)
    requires forall k | 0 <= k < |ms| :: !ms[k].Reminder?
    ensures multiset(added + ms)[Reminder(id)] == multiset(added)[Reminder(id)]
  {
  }

  lemma {:induction false} CountReminders(added: seq<Msg>, req: Requirement, n: nat, id: nat)
    ensures multiset(added + seq(n, _ => Reminder(req.id)))[Reminder(id)]
         == multiset(added)[Reminder(id)] + if id == req.id then n else 0
    decreases n
  {
    if n == 0 {
      assert added + seq(n, _ => Reminder(req.id)) == added;
    } else {
      CountReminders(added, req, n - 1, id);
      assert added + seq(n, _ => Reminder(req.id)) == added + seq(n - 1, _ => Reminder(req.id)) + [Reminder(req.id)];
    }
  }

  lemma PushNotes(base: seq<Msg>, script: seq<Round>, r: Run, n: nat, ms: seq<Msg>)
    requires n <= |script| && Books(base, script, r, n) && PairedNow(script, r, n) && AllNotes(ms)
    ensures Books(base, script, Push(r, ms), n) && PairedNow(script, Push(r, ms), n)
  {
    NotesKeep(r.context, ms);
    if UnstartedBefore(script, n) == 0 {
      assert base + r.added + ms == base + (r.added + ms);
    }
  }

  lemma CommitPendingInv(tc: Option<ToolChoice>, base: seq<Msg>, soft0: SoftState, script: seq<Round>, r: Run, n: nat)
    requires n <= |script| && Inv(tc, base, soft0, script, r, n)
    ensures Inv(tc, base, soft0, script, CommitPending(r), n)
  {
    PushNotes(base, script, r, n, Notes(r.pending));
    forall id: nat ensures multiset(CommitPending(r).added)[Reminder(id)] == RemindersDue(r.turns, id) {
      NoRemindersIn(r.added, Notes(r.pending), id);
    }
  }

  /** What earlier turns did does not depend on the turns after them. */
  lemma {:induction false} PrefixTurns(tc: Option<ToolChoice>, soft0: SoftState, turns: seq<Turn>, more: seq<Turn>, k: nat)
    requires k <= |turns|
    ensures Used(soft0, turns + more, k) == Used(soft0, turns, k)
    ensures IdBefore(soft0, turns + more, k) == IdBefore(soft0, turns, k)
    ensures ForcedFor(soft0, turns + more, k) == ForcedFor(soft0, turns, k)
    ensures k < |turns| ==> (Continues(soft0, turns + more, k) <==> Continues(soft0, turns, k))
    ensures k < |turns| ==> (TurnOk(tc, soft0, turns + more, k) <==> TurnOk(tc, soft0, turns, k))
    decreases k
  {
    assert forall j | 0 <= j < |turns| :: (turns + more)[j] == turns[j];
    if k > 0 { PrefixTurns(tc, soft0, turns, more, k - 1); }
  }

  lemma NewTurnInv(tc: Option<ToolChoice>, soft0: SoftState, r: Run, r': Run, t: Turn)
    requires SoftInv(tc, soft0, r) && !r.resolved && r'.turns == r.turns + [t]
    requires t.settled.None? && !t.escalated
    requires t.reminded <==> t.req.Some? && ReqId(t) != r.soft.id
    requires t.forced == if t.req.Some? && ReqId(t) == r.soft.id then r.soft.forced else None
    requires r'.soft == SoftState(ReqId(t), t.forced, if t.req.Some? && ReqId(t) == r.soft.id then r.soft.escalations else 0)
    requires soft0.escalations <= MAX_SOFT_TOOL_ESCALATIONS
    requires r'.resolved && r'.req == t.req && r'.executions == r.executions
    requires r'.added == r.added + if t.reminded then Reminders(t.req.value) else []
    ensures SoftInv(tc, soft0, r')
  {
    var n := |r.turns|;
    forall k | 0 <= k < n ensures TurnOk(tc, soft0, r'.turns, k) {
      PrefixTurns(tc, soft0, r.turns, [t], k);
      assert TurnOk(tc, soft0, r.turns, k);
    }
    PrefixTurns(tc, soft0, r.turns, [t], n);
    assert r'.turns[n] == t && r'.turns[..n] == r.turns;
    assert Continues(soft0, r'.turns, n) <==> t.req.Some? && ReqId(t) == r.soft.id;
    assert n > 0 ==> TurnOk(tc, soft0, r.turns, n - 1);
    assert TurnOk(tc, soft0, r'.turns, n);
    forall id: nat ensures multiset(r'.added)[Reminder(id)] == RemindersDue(r'.turns, id) {
      if t.reminded {
        CountReminders(r.added, t.req.value, t.req.value.reminders, id);
      } else {
        assert r'.added == r.added;
      }
    }
  }

  lemma ResolveInv(tc: Option<ToolChoice>, base: seq<Msg>, soft0: SoftState, script: seq<Round>, r: Run, n: nat,
                   d: Directive)
    requires n <= |script| && Inv(tc, base, soft0, script, r, n)
    requires soft0.escalations <= MAX_SOFT_TOOL_ESCALATIONS
    ensures Inv(tc, base, soft0, script, ResolveDirective(r, d), n) && ResolveDirective(r, d).resolved
  {
    if !r.resolved {
      var r' := ResolveDirective(r, d);
      var t := r'.turns[|r.turns|];
      if d.Soft? {
        PushNotes(base, script, r, n, Reminders(d.requirement));
      } else {
        assert r'.added == r.added + [];
      }
      assert r'.added == r.added + if t.reminded then Reminders(t.req.value) else [];
      NewTurnInv(tc, soft0, r, r', t);
    }
  }

  lemma OpenTurnInv(tc: Option<ToolChoice>, base: seq<Msg>, soft0: SoftState, script: seq<Round>, r: Run, n: nat)
    requires n <= |script| && Inv(tc, base, soft0, script, r, n)
    ensures Inv(tc, base, soft0, script, OpenTurn(r), n)
  {
    hide SoftInv, History, Books, PairedNow, TrackOf;
    SameHistory(base, script, r, OpenTurn(r));
    SameBooks(base, script, r, OpenTurn(r), n);
    SameSoft(tc, soft0, r, OpenTurn(r));
    TrackSnoc(r.events, TurnStart);
  }

  lemma CallModelInv(tc: Option<ToolChoice>, base: seq<Msg>, soft0: SoftState, script: seq<Round>, r: Run)
    requires |r.calls| < |r.heads| <= |script| && Inv(tc, base, soft0, script, r, |r.calls|) && r.turns != []
    ensures Inv(tc, base, soft0, script, CallModel(r, tc), |r.calls|)
  {
    OwedMeansPaired(r.context);
    var r' := CallModel(r, tc);
    forall k | 0 <= k < |r'.calls| ensures Paired(r'.calls[k].context) <==> !OrphanBefore(script, k) {
      if k < |r.calls| { assert r'.calls[k] == r.calls[k]; }
    }
  }

  // ---------------------------------------------------------------- committing a response

  lemma NextRound(script: seq<Round>, n: nat)
    requires n < |script|
    ensures OrphanBefore(script, n + 1) <==> OrphanBefore(script, n) || Orphans(script[n].response)
  {
  }

  /** After a response is committed, the context owes exactly its runnable calls, unless the response never
      reached it. */
  predicate Owing(script: seq<Round>, r: Run, n: nat)
    requires n < |script| && HasCalls(script[n].response)
  {
    Owed(r.context) ==
    if OrphanBefore(script, n) then None
    else if Unstarted(script[n].response) then Some(multiset{})
    else Some(multiset(Ids(Runnable(script[n].response.calls))))
  }

  lemma CommitBooks(base: seq<Msg>, script: seq<Round>, r: Run, n: nat)
    requires n < |script| && HasCalls(script[n].response)
    requires Books(base, script, r, n) && PairedNow(script, r, n)
    ensures Books(base, script, CommitResponse(r, script[n].response), n + 1)
    ensures Owing(script, CommitResponse(r, script[n].response), n)
  {
    var m := Assistant(script[n].response.calls, script[n].response.stop);
    OwedSnoc(r.context, m);
    if UnstartedBefore(script, n) == 0 {
      assert base + r.added + [m] == base + (r.added + [m]);
    }
    assert r.context + [] == r.context;
  }

  lemma PushBooks(base: seq<Msg>, script: seq<Round>, r: Run, n: nat, ms: seq<Msg>)
    requires n <= |script| && Books(base, script, r, n)
    ensures Books(base, script, Push(r, ms), n)
  {
  }

  lemma PayExactly(ms: seq<Msg>, rs: seq<Msg>)
    requires Owed(ms).Some? && AllResults(rs) && multiset(ResultIds(rs)) == Owed(ms).value
    ensures Owed(ms + rs) == Some(multiset{})
  {
    ResultsPay(ms, rs);
    assert Owed(ms).value - Owed(ms).value == multiset{};
  }

  lemma PayNothingDue(ms: seq<Msg>, rs: seq<Msg>)
    requires Owed(ms) == Some(multiset{}) && AllResults(rs)
    ensures Owed(ms + rs) == if rs == [] then Some(multiset{}) else None
  {
    ResultsPay(ms, rs);
    if rs == [] {
      assert ms + rs == ms;
    } else {
      assert ResultIds(rs)[0] in multiset(ResultIds(rs));
    }
  }

  lemma PayResults(base: seq<Msg>, script: seq<Round>, r: Run, n: nat, results: seq<Msg>)
    requires n < |script| && HasCalls(script[n].response)
    requires Books(base, script, r, n + 1) && Owing(script, r, n) && AllResults(results)
    requires multiset(ResultIds(results)) == multiset(Ids(Runnable(script[n].response.calls)))
    ensures Books(base, script, Push(r, results), n + 1) && PairedNow(script, Push(r, results), n + 1)
  {
    PushBooks(base, script, r, n + 1, results);
    NextRound(script, n);
    SameLength(ResultIds(results), Ids(Runnable(script[n].response.calls)));
    if OrphanBefore(script, n) {
      BrokenStays(r.context, results);
    } else if Unstarted(script[n].response) {
      PayNothingDue(r.context, results);
    } else {
      PayExactly(r.context, results);
    }
  }

  lemma SameLength(xs: seq<nat>, ys: seq<nat>)
    requires multiset(xs) == multiset(ys)
    ensures |xs| == |ys|
  {
    assert |multiset(xs)| == |xs| && |multiset(ys)| == |ys|;
  }

  lemma PlaceholderIds(calls: seq<Call>)
    ensures ResultIds(Placeholders(calls)) == Ids(calls)
  {
  }

  /** The results of an executed batch name its calls exactly, whatever its schedule was. */
  lemma BatchResultIds(calls: seq<Call>, batch: ToolBatch.Batch, schedule: seq<ToolBatch.Label>)
    requires RunsBatch(calls, batch, schedule)
    ensures multiset(ResultIds(BatchResults(calls, batch, schedule))) == multiset(Ids(Runnable(calls)))
  {
    var ids := Ids(Runnable(calls));
    ToolBatch.BatchPairs(batch, schedule, ids);
    assert ResultIds(BatchResults(calls, batch, schedule))
        == ToolBatch.ResultIds(ids, ToolBatch.Exec(batch, schedule).value.order);
  }

  /** Settling the last turn changes nothing about the turns before it. */
  lemma MarkEarlier(tc: Option<ToolChoice>, soft0: SoftState, turns: seq<Turn>, calls: seq<Call>, escalated: bool)
    requires turns != []
    requires forall k | 0 <= k < |turns| :: TurnOk(tc, soft0, turns, k)
    ensures var n := |turns| - 1; var marked := Marked(turns, calls, escalated);
      && |marked| == n + 1
      && (forall k | 0 <= k < n :: marked[k] == turns[k] && TurnOk(tc, soft0, marked, k))
      && Used(soft0, marked, n) == Used(soft0, turns, n)
      && (Continues(soft0, marked, n) <==> Continues(soft0, turns, n))
      && ForcedFor(soft0, marked, n) == ForcedFor(soft0, turns, n)
      && (forall id: nat :: RemindersDue(marked, id) == RemindersDue(turns, id))
  {
    var n, marked := |turns| - 1, Marked(turns, calls, escalated);
    var before := turns[..n];
    assert turns == before + [turns[n]] && marked == before + [marked[n]] && marked[..n] == before;
    forall k | 0 <= k < n ensures TurnOk(tc, soft0, marked, k) {
      PrefixTurns(tc, soft0, before, [turns[n]], k);
      PrefixTurns(tc, soft0, before, [marked[n]], k);
      assert TurnOk(tc, soft0, turns, k);
    }
    PrefixTurns(tc, soft0, before, [turns[n]], n);
    PrefixTurns(tc, soft0, before, [marked[n]], n);
    assert Continues(soft0, marked, n) <==> Continues(soft0, turns, n) by {
      assert IdBefore(soft0, marked, n) == IdBefore(soft0, turns, n);
    }
  }

  lemma MarkExecutions(tc: Option<ToolChoice>, r: Run, r': Run, calls: seq<Call>, escalated: bool)
    requires ExecutionsOk(tc, r) && r.turns != [] && r.turns[|r.turns| - 1].settled.None?
    requires r'.turns == Marked(r.turns, calls, escalated)
    requires r'.executions == r.executions ||
             (!Violates(tc, r'.turns[|r.turns| - 1]) &&
              r'.executions == r.executions + [Execution(|r.turns| - 1, calls)])
    ensures ExecutionsOk(tc, r')
  {
  }

  /** Marking the last turn settled keeps the policy when it escalates exactly on a violation. */
  lemma MarkInv(tc: Option<ToolChoice>, soft0: SoftState, r: Run, r': Run, calls: seq<Call>, escalated: bool)
    requires SoftInv(tc, soft0, r) && r.resolved && r'.turns == Marked(r.turns, calls, escalated) && !r'.resolved
    requires escalated <==> Violates(tc, r'.turns[|r'.turns| - 1])
    requires escalated ==> r.soft.escalations < MAX_SOFT_TOOL_ESCALATIONS
    requires r'.soft == r.soft.(
                        forced := if escalated then Some(Named(r.req.value.toolName)) else None,
                        escalations := r.soft.escalations + if escalated then 1 else 0)
    requires r'.executions == r.executions ||
             (!escalated && r'.executions == r.executions + [Execution(|r.turns| - 1, calls)])
    requires forall id: nat :: multiset(r'.added)[Reminder(id)] == multiset(r.added)[Reminder(id)]
    ensures SoftInv(tc, soft0, r')
  {
    var n := |r.turns| - 1;
    MarkEarlier(tc, soft0, r.turns, calls, escalated);
    MarkExecutions(tc, r, r', calls, escalated);
    assert TurnOk(tc, soft0, r.turns, n);
    assert TurnOk(tc, soft0, r'.turns, n);
    forall id: nat ensures multiset(r'.added)[Reminder(id)] == RemindersDue(r'.turns, id) {
      assert multiset(r.added)[Reminder(id)] == RemindersDue(r.turns, id);
    }
  }

  lemma NoNewReminders(r: Run, response: Response, results: seq<Msg>, r': Run)
    requires HasCalls(response) && AllResults(results)
    requires r'.added == CommitResponse(r, response).added + results
    ensures forall id: nat :: multiset(r'.added)[Reminder(id)] == multiset(r.added)[Reminder(id)]
  {
  }

  lemma SameHistory(base: seq<Msg>, script: seq<Round>, r: Run, r': Run)
    requires History(base, script, r) && r'.calls == r.calls && r'.heads == r.heads
    ensures History(base, script, r')
  {
  }

  lemma SameBooks(base: seq<Msg>, script: seq<Round>, r: Run, r': Run, n: nat)
    requires n <= |script| && r'.context == r.context && r'.added == r.added
    requires Books(base, script, r, n) && PairedNow(script, r, n)
    ensures Books(base, script, r', n) && PairedNow(script, r', n)
  {
  }

  /** The turn that is under way. */
  lemma ResolvedHasTurn(tc: Option<ToolChoice>, soft0: SoftState, r: Run)
    requires SoftInv(tc, soft0, r) && r.resolved
    ensures r.turns != [] && r.req == r.turns[|r.turns| - 1].req && r.turns[|r.turns| - 1].settled.None?
  {
  }

  lemma InvHasTurn(tc: Option<ToolChoice>, base: seq<Msg>, soft0: SoftState, script: seq<Round>, r: Run, n: nat)
    requires n <= |script| && Inv(tc, base, soft0, script, r, n) && r.resolved
    ensures r.turns != [] && r.req == r.turns[|r.turns| - 1].req && r.turns[|r.turns| - 1].settled.None?
  {
  }

  /** A turn that ends unsettled leaves nothing forced. */
  lemma FailedSoft(tc: Option<ToolChoice>, soft0: SoftState, r: Run, r': Run)
    requires SoftInv(tc, soft0, r) && r.resolved
    requires r'.turns == r.turns && r'.executions == r.executions && r'.soft == r.soft.(forced := None) && !r'.resolved
    requires forall id: nat :: multiset(r'.added)[Reminder(id)] == multiset(r.added)[Reminder(id)]
    ensures SoftInv(tc, soft0, r')
  {
    assert TurnOk(tc, soft0, r.turns, |r.turns| - 1);
    forall id: nat ensures multiset(r'.added)[Reminder(id)] == RemindersDue(r'.turns, id) {
      assert multiset(r.added)[Reminder(id)] == RemindersDue(r.turns, id);
    }
  }

  /** A response that failed: its calls get placeholders and the run ends. */
  lemma FailedTurnInv(tc: Option<ToolChoice>, base: seq<Msg>, soft0: SoftState, script: seq<Round>, r: Run, n: nat)
    requires n < |script| && HasCalls(script[n].response)
    requires Inv(tc, base, soft0, script, r, n) && r.resolved && r.turnOpen
    ensures Inv(tc, base, soft0, script, EndFailedTurn(CommitResponse(r, script[n].response), script[n].response), n + 1)
  {
    hide SoftInv, History, Books, PairedNow, Owing, TrackOf;
    var response := script[n].response;
    var s := CommitResponse(r, response);
    var results := Placeholders(Runnable(response.calls));
    CommitBooks(base, script, r, n);
    PlaceholderIds(Runnable(response.calls));
    PayResults(base, script, s, n, results);
    var f := EndFailedTurn(s, response);
    NoNewReminders(r, response, results, f);
    SameHistory(base, script, r, f);
    SameBooks(base, script, Push(s, results), f, n + 1);
    FailedSoft(tc, soft0, r, f);
    TrackSnoc(r.events, TurnEnd);
    TrackSnoc(r.events + [TurnEnd], AgentEnd);
  }

  /** An escalation: the detour is answered with placeholders and nothing runs. */
  lemma EscalateInv(tc: Option<ToolChoice>, base: seq<Msg>, soft0: SoftState, script: seq<Round>, r: Run, n: nat)
    requires n < |script| && HasCalls(script[n].response)
    requires Inv(tc, base, soft0, script, r, n) && r.resolved
    requires Violating(r, tc, script[n].response) && r.soft.escalations < MAX_SOFT_TOOL_ESCALATIONS
    ensures r.turns != []
    ensures Inv(tc, base, soft0, script, Escalate(CommitResponse(r, script[n].response), script[n].response), n + 1)
  {
    hide SoftInv, History, Books, PairedNow, Owing, TrackOf;
    ResolvedHasTurn(tc, soft0, r);
    var response := script[n].response;
    var s := CommitResponse(r, response);
    var results := Placeholders(Runnable(response.calls));
    CommitBooks(base, script, r, n);
    PlaceholderIds(Runnable(response.calls));
    PayResults(base, script, s, n, results);
    var e := Escalate(s, response);
    NoNewReminders(r, response, results, e);
    SameHistory(base, script, r, e);
    SameBooks(base, script, Push(s, results), e, n + 1);
    MarkInv(tc, soft0, r, e, Runnable(response.calls), true);
  }

  /** The results a settled turn appends: those of its batch, or placeholders. */
  function SettledResults(round: Round): (results: seq<Msg>)
    requires HasCalls(round.response) && ValidRound(round)
    ensures AllResults(results)
  {
    var calls := Runnable(round.response.calls);
    if calls != [] && RunnableStop(round.response) && !round.deadlinePassed
    then BatchResults(round.response.calls, round.batch, round.schedule)
    else Placeholders(calls)
  }

  lemma SettledIds(round: Round)
    requires HasCalls(round.response) && ValidRound(round)
    ensures multiset(ResultIds(SettledResults(round))) == multiset(Ids(Runnable(round.response.calls)))
  {
    PlaceholderIds(Runnable(round.response.calls));
    BatchResultIds(round.response.calls, round.batch, round.schedule);
  }

  lemma SettlePushes(r: Run, round: Round)
    requires HasCalls(round.response) && r.turns != [] && ValidRound(round)
    ensures var s := SettleCalls(r, round);
      && s == Push(r, SettledResults(round)).(turns := s.turns, executions := s.executions, hasMore := s.hasMore)
      && s.turns == Marked(r.turns, Runnable(round.response.calls), false)
      && (s.executions == r.executions ||
          s.executions == r.executions + [Execution(|r.turns| - 1, Runnable(round.response.calls))])
  {
    hide BatchResults, Marked, Runnable, RunsBatch;
    if Runnable(round.response.calls) == [] {
      var none := Placeholders([]);
      assert none == [] && r.context + none == r.context && r.added + none == r.added;
    }
  }

  /** A turn that does not violate its gate runs its calls or pairs them. */
  lemma SettleInv(tc: Option<ToolChoice>, base: seq<Msg>, soft0: SoftState, script: seq<Round>, r: Run, n: nat)
    requires n < |script| && HasCalls(script[n].response) && ValidRound(script[n])
    requires Inv(tc, base, soft0, script, r, n) && r.resolved
    requires !Violating(r, tc, script[n].response)
    ensures r.turns != []
    ensures Inv(tc, base, soft0, script, SettleCalls(CommitResponse(r, script[n].response), script[n]), n + 1)
  {
    hide SoftInv, History, Books, PairedNow, Owing, TrackOf, SettleCalls, SettledResults;
    ResolvedHasTurn(tc, soft0, r);
    var round, response := script[n], script[n].response;
    var s := CommitResponse(r, response);
    var r' := SettleCalls(s, round);
    CommitBooks(base, script, r, n);
    SettlePushes(s, round);
    SettledIds(round);
    PayResults(base, script, s, n, SettledResults(round));
    NoNewReminders(r, response, SettledResults(round), r');
    SameHistory(base, script, r, r');
    SameBooks(base, script, Push(s, SettledResults(round)), r', n + 1);
    MarkInv(tc, soft0, r, r', Runnable(response.calls), false);
  }

  // ---------------------------------------------------------------- the loop

  lemma StartInv(tc: Option<ToolChoice>, base: seq<Msg>, prompts: seq<nat>, soft0: SoftState, script: seq<Round>)
    requires soft0.escalations <= MAX_SOFT_TOOL_ESCALATIONS
    ensures var r := Start(base, prompts, soft0);
      History(base, script, r) && Books(base, script, r, 0) && SoftInv(tc, soft0, r)
    ensures Owed(base) == Some(multiset{}) ==> PairedNow(script, Start(base, prompts, soft0), 0)
  {
    if Owed(base) == Some(multiset{}) { NotesKeep(base, Notes(prompts)); }
    forall id: nat ensures multiset(Notes(prompts))[Reminder(id)] == 0 {
      assert Reminder(id) !in Notes(prompts);
    }
  }

  /** Running the calls of an unpaired tail pairs it before the first model call. */
  lemma ResumeInv(tc: Option<ToolChoice>, base: seq<Msg>, opening: Opening, soft0: SoftState, script: seq<Round>, r: Run)
    requires soft0.escalations <= MAX_SOFT_TOOL_ESCALATIONS
    requires ResumeOk(base, [], opening) && UnpairedTail(base)
    requires r == Start(base, [], soft0).(pending := r.pending, polled := r.polled)
    ensures RunsBatch(base[|base| - 1].calls, opening.batch, opening.schedule)
    ensures Inv(tc, base, soft0, script, OneTurnOf(r, opening), 0)
  {
    var tail := base[|base| - 1];
    TailOwes(base);
    var results := BatchResults(tail.calls, opening.batch, opening.schedule);
    BatchResultIds(tail.calls, opening.batch, opening.schedule);
    assert r.context == base && r.added == [];
    PayExactly(base, results);
    OneTurn();
    StartInv(tc, base, [], soft0, script);
    PushBooks(base, script, r, 0, results);
    forall id: nat ensures multiset(r.added + results)[Reminder(id)] == 0 {
      NoRemindersIn(r.added, results, id);
    }
  }

  lemma TailOwes(base: seq<Msg>)
    requires UnpairedTail(base)
    ensures Owed(base[..|base| - 1]) == Some(multiset{}) ==>
              Owed(base) == Some(multiset(Ids(Runnable(base[|base| - 1].calls))))
    ensures Owed(base) != Some(multiset{})
  {
    var ids := Ids(Runnable(base[|base| - 1].calls));
    assert ids[0] in multiset(ids);
  }

  lemma OneTurn()
    ensures TrackOf([] + [TurnStart] + [TurnEnd]) == Closed
  {
    TrackSnoc([], TurnStart);
    TrackSnoc([] + [TurnStart], TurnEnd);
  }

  predicate LastLeaked(script: seq<Round>, r: Run)
    requires |r.calls| <= |script|
  {
    r.calls != [] && script[|r.calls| - 1].response.Leaked?
  }

  /** The policy over a whole run: every turn obeys it, except that the last may be the one that gave up. */
  predicate PolicyKept(tc: Option<ToolChoice>, soft0: SoftState, turns: seq<Turn>, gaveUp: bool) {
    && (forall k | 0 <= k < |turns| - 1 :: TurnOk(tc, soft0, turns, k))
    && (turns == [] ==> !gaveUp)
    && (turns != [] ==>
          if gaveUp then GivesUp(tc, soft0, turns, |turns| - 1) else TurnOk(tc, soft0, turns, |turns| - 1))
  }

  lemma GiveUpKept(tc: Option<ToolChoice>, soft0: SoftState, r: Run, calls: seq<Call>)
    requires SoftInv(tc, soft0, r) && r.resolved && soft0.escalations <= MAX_SOFT_TOOL_ESCALATIONS
    requires GateActive(tc, r.req) && !Compliant(r.req.value, calls)
    requires r.soft.escalations >= MAX_SOFT_TOOL_ESCALATIONS
    ensures PolicyKept(tc, soft0, Marked(r.turns, calls, false), true)
    ensures forall e | e in r.executions ::
              e.turn < |r.turns| && Marked(r.turns, calls, false)[e.turn].settled == Some(e.calls) &&
              !Violates(tc, Marked(r.turns, calls, false)[e.turn])
    ensures forall id: nat :: RemindersDue(Marked(r.turns, calls, false), id) == RemindersDue(r.turns, id)
  {
    var n := |r.turns| - 1;
    MarkEarlier(tc, soft0, r.turns, calls, false);
    assert TurnOk(tc, soft0, r.turns, n);
    MarkExecutions(tc, r, r.(turns := Marked(r.turns, calls, false)), calls, false);
  }

  /** What holds when a run is over, or is cut off at the end of its script. */
  ghost predicate RunOk(tc: Option<ToolChoice>, base: seq<Msg>, soft0: SoftState, script: seq<Round>, r: Run,
                        outcome: Outcome)
  {
    && History(base, script, r)
    && TrackOf(r.events) != Broken
    && (outcome.Ended? ==> r.events != [] && r.events[|r.events| - 1] == AgentEnd)
    && (outcome.Ended? ==> (TrackOf(r.events) == Open <==> LastLeaked(script, r)))
    && (outcome.GateStopped? ==> TrackOf(r.events) == Closed)
    && (outcome.Ended? && r.heads != [] ==> (Paired(r.context) <==> !OrphanBefore(script, |r.calls|)))
    && PolicyKept(tc, soft0, r.turns, outcome.SoftAborted?)
    && ExecutionsOk(tc, r)
    && RemindersOk(r)
    && r.paused <= MAX_PAUSED_TURN_CONTINUATIONS
  }

  /** The state at the head of the inner loop. */
  ghost predicate AtHead(tc: Option<ToolChoice>, base: seq<Msg>, soft0: SoftState, script: seq<Round>, r: Run) {
    && |r.calls| == |r.heads| <= |script|
    && Inv(tc, base, soft0, script, r, |r.calls|)
    && r.turnOpen == r.resolved == LastLeaked(script, r)
  }

  lemma HeadInv(tc: Option<ToolChoice>, base: seq<Msg>, soft0: SoftState, script: seq<Round>, r: Run, n: nat)
    requires n < |script| && |r.calls| == n && |r.heads| == n + 1
    requires r.heads[n] == Head(r.context, r.added)
    requires Inv(tc, base, soft0, script, r.(heads := r.heads[..n]), n)
    ensures Inv(tc, base, soft0, script, r, n)
  {
    var r0 := r.(heads := r.heads[..n]);
    forall k | 0 <= k < |r.heads|
      ensures r.heads[k].context == base + r.heads[k].added <==> UnstartedBefore(script, k) == 0
    {
      if k < n { assert r.heads[k] == r0.heads[k]; }
    }
  }

  lemma GateStopOk(tc: Option<ToolChoice>, base: seq<Msg>, soft0: SoftState, script: seq<Round>, r: Run, n: nat)
    requires n == |r.calls| <= |r.heads| && n <= |script| && Inv(tc, base, soft0, script, r, n)
    requires soft0.escalations <= MAX_SOFT_TOOL_ESCALATIONS
    ensures RunOk(tc, base, soft0, script, StopAtGate(r), GateStopped)
    ensures r.turnOpen ==> RunOk(tc, base, soft0, script, CloseAtGate(r), Failed)
    ensures StopAtGate(r).soft == r.soft && r.soft.escalations <= MAX_SOFT_TOOL_ESCALATIONS
  {
    TrackSnoc(r.events, TurnEnd);
    TrackSnoc(r.events, AgentEnd);
    TrackSnoc(CloseTurn(r).events, AgentEnd);
    assert CloseAtGate(r).added == r.added + [Assistant([], Aborted)];
    assert r.turns != [] ==> TurnOk(tc, soft0, r.turns, |r.turns| - 1);
    forall id: nat ensures multiset(StopAtGate(r).added)[Reminder(id)] == RemindersDue(r.turns, id)
    ensures multiset(CloseAtGate(r).added)[Reminder(id)] == RemindersDue(r.turns, id) {
      NoRemindersIn(r.added, [Assistant([], Aborted)], id);
    }
  }

  /** What the policy's invariant says of a finished run. */
  lemma SoftRunOk(tc: Option<ToolChoice>, soft0: SoftState, r: Run)
    requires SoftInv(tc, soft0, r)
    ensures PolicyKept(tc, soft0, r.turns, false) && ExecutionsOk(tc, r) && RemindersOk(r)
  {
  }

  lemma StopOk(tc: Option<ToolChoice>, base: seq<Msg>, soft0: SoftState, script: seq<Round>, r: Run, n: nat,
               outcome: Outcome)
    requires n <= |script| && Inv(tc, base, soft0, script, r, n) && (outcome.Cut? || outcome.Failed?)
    ensures RunOk(tc, base, soft0, script, r, outcome)
  {
  }

  lemma EndOk(tc: Option<ToolChoice>, base: seq<Msg>, soft0: SoftState, script: seq<Round>, r: Run, n: nat)
    requires n == |r.calls| <= |r.heads| && n <= |script| && Inv(tc, base, soft0, script, r, n)
    requires r.turnOpen == LastLeaked(script, r)
    ensures RunOk(tc, base, soft0, script, EndAgent(r), Ended)
  {
    hide SoftInv, PolicyKept, ExecutionsOk, RemindersOk, TrackOf, TurnOk, RemindersDue, Owed, Paired;
    SameSoft(tc, soft0, r, EndAgent(r));
    SoftRunOk(tc, soft0, EndAgent(r));
    SameHistory(base, script, r, EndAgent(r));
    TrackSnoc(r.events, AgentEnd);
    OwedMeansPaired(r.context);
  }

  lemma SameSoft(tc: Option<ToolChoice>, soft0: SoftState, r: Run, r': Run)
    requires SoftInv(tc, soft0, r)
    requires r'.turns == r.turns && r'.executions == r.executions && r'.soft == r.soft && r'.resolved == r.resolved
    requires r'.req == r.req && r'.added == r.added
    ensures SoftInv(tc, soft0, r')
  {
  }

  lemma FailedTurnOk(tc: Option<ToolChoice>, base: seq<Msg>, soft0: SoftState, script: seq<Round>, r: Run, n: nat)
    requires n < |script| && HasCalls(script[n].response) && n + 1 == |r.calls| == |r.heads|
    requires Inv(tc, base, soft0, script, r, n) && r.resolved && r.turnOpen
    ensures RunOk(tc, base, soft0, script,
                  EndFailedTurn(CommitResponse(r, script[n].response), script[n].response), Ended)
  {
    hide SoftInv, PolicyKept, ExecutionsOk, RemindersOk, TrackOf, Owed, Paired, Books, History;
    var f := EndFailedTurn(CommitResponse(r, script[n].response), script[n].response);
    FailedTurnInv(tc, base, soft0, script, r, n);
    SoftRunOk(tc, soft0, f);
    OwedMeansPaired(f.context);
  }

  lemma GiveUpOk(tc: Option<ToolChoice>, base: seq<Msg>, soft0: SoftState, script: seq<Round>, r: Run, n: nat)
    requires n < |script| && HasCalls(script[n].response)
    requires Inv(tc, base, soft0, script, r, n) && r.resolved && r.turnOpen
    requires Violating(r, tc, script[n].response) && r.soft.escalations >= MAX_SOFT_TOOL_ESCALATIONS
    requires soft0.escalations <= MAX_SOFT_TOOL_ESCALATIONS
    ensures r.turns != []
    ensures RunOk(tc, base, soft0, script,
                  CommitResponse(r, script[n].response).(
                    turns := Marked(r.turns, Runnable(script[n].response.calls), false)), SoftAborted)
  {
    var response := script[n].response;
    GiveUpKept(tc, soft0, r, Runnable(response.calls));
    assert CommitResponse(r, response).added + [] == CommitResponse(r, response).added;
    NoNewReminders(r, response, [], CommitResponse(r, response));
  }

  lemma CloseInv(tc: Option<ToolChoice>, base: seq<Msg>, soft0: SoftState, script: seq<Round>, r: Run, n: nat,
                 round: Round)
    requires n <= |script| && Inv(tc, base, soft0, script, r, n) && r.turnOpen && HasCalls(round.response)
    ensures Inv(tc, base, soft0, script, CloseTurn(Continuation(r, round)), n)
  {
    hide SoftInv, History, Books, PairedNow, TrackOf;
    var r' := CloseTurn(Continuation(r, round));
    SameHistory(base, script, r, r');
    SameBooks(base, script, r, r', n);
    SameSoft(tc, soft0, r, r');
    TrackSnoc(r.events, TurnEnd);
  }

  /** Polling the queues only decides what the next round starts with. */
  lemma PollInv(tc: Option<ToolChoice>, base: seq<Msg>, soft0: SoftState, script: seq<Round>, r: Run, n: nat,
                r': Run)
    requires n <= |script| && Inv(tc, base, soft0, script, r, n)
    requires r' == r.(pending := r'.pending, hasMore := r'.hasMore, retries := r'.retries,
                      polled := r'.polled, lost := r'.lost)
    ensures Inv(tc, base, soft0, script, r', n)
  {
  }

  /** A leaked response commits nothing. */
  lemma LeakInv(tc: Option<ToolChoice>, base: seq<Msg>, soft0: SoftState, script: seq<Round>, r: Run, n: nat)
    requires n < |script| && script[n].response.Leaked? && Inv(tc, base, soft0, script, r, n)
    ensures Inv(tc, base, soft0, script, r, n + 1)
  {
    NextRound(script, n);
  }

  lemma PrepareOk(tc: Option<ToolChoice>, gated: bool, base: seq<Msg>, soft0: SoftState, script: seq<Round>, r: Run,
                  n: nat, round: Round)
    requires n == |r.calls| <= |r.heads| && n <= |script| && Inv(tc, base, soft0, script, r, n)
    requires soft0.escalations <= MAX_SOFT_TOOL_ESCALATIONS
    ensures var s := PrepareTurn(gated, round, r);
      && (s.stop.Some? ==> RunOk(tc, base, soft0, script, s.run, s.stop.value))
      && (s.stop == Some(GateStopped) ==> s.run.soft.escalations <= MAX_SOFT_TOOL_ESCALATIONS)
      && (s.stop.None? ==> Inv(tc, base, soft0, script, s.run, n) && s.run.turnOpen && s.run.resolved)
  {
    hide Inv, RunOk, ResolveDirective, StopAtGate, CloseAtGate;
    ResolveInv(tc, base, soft0, script, r, n, round.directive);
    var q := ResolveDirective(r, round.directive);
    ResolveKeeps(r, round.directive);
    OpenTurnInv(tc, base, soft0, script, q, n);
    StopOk(tc, base, soft0, script, OpenTurn(q), n, Failed);
    GateStopOk(tc, base, soft0, script, q, n);
  }

  lemma ResolveKeeps(r: Run, d: Directive)
    ensures ResolveDirective(r, d).calls == r.calls && ResolveDirective(r, d).heads == r.heads
  {
  }

  lemma EnterOk(tc: Option<ToolChoice>, gated: bool, base: seq<Msg>, soft0: SoftState, script: seq<Round>, start: Run)
    requires AtHead(tc, base, soft0, script, start) && |start.calls| < |script|
    requires soft0.escalations <= MAX_SOFT_TOOL_ESCALATIONS
    ensures var s := EnterTurn(gated, script[|start.calls|], start);
      && (s.stop.Some? ==> RunOk(tc, base, soft0, script, s.run, s.stop.value))
      && (s.stop == Some(GateStopped) ==> s.run.soft.escalations <= MAX_SOFT_TOOL_ESCALATIONS)
      && (s.stop.None? ==>
            Inv(tc, base, soft0, script, s.run, |start.calls|) && s.run.turnOpen && s.run.resolved)
  {
    hide Inv, RunOk, PrepareTurn, Notes;
    var n := |start.calls|;
    var r := NoteHead(start);
    HeadInv(tc, base, soft0, script, r, n);
    EndOk(tc, base, soft0, script, r, n);
    var c := CommitPending(r);
    CommitPendingInv(tc, base, soft0, script, r, n);
    OpenTurnInv(tc, base, soft0, script, c, n);
    StopOk(tc, base, soft0, script, OpenTurn(c), n, Failed);
    PrepareOk(tc, gated, base, soft0, script, c, n, script[n]);
  }

  lemma FinishOk(tc: Option<ToolChoice>, base: seq<Msg>, soft0: SoftState, script: seq<Round>, start: Run)
    requires 0 < |start.calls| == |start.heads| <= |script|
    requires Inv(tc, base, soft0, script, start, |start.calls|) && start.turnOpen && !start.resolved
    requires HasCalls(script[|start.calls| - 1].response)
    ensures StepOk(tc, base, soft0, script, FinishTurn(script[|start.calls| - 1], start))
  {
    hide Inv, RunOk;
    var n := |start.calls|;
    var round := script[n - 1];
    CloseInv(tc, base, soft0, script, start, n, round);
    var r := CloseTurn(Continuation(start, round));
    EndOk(tc, base, soft0, script, r, n);
    var s := FinishTurn(round, start);
    if s.stop != Some(Ended) {
      PollInv(tc, base, soft0, script, r, n, s.run);
      StopOk(tc, base, soft0, script, s.run, n, Failed);
    }
  }

  /** A step either ends the run as it should or leads back to the head of the loop. */
  ghost predicate StepOk(tc: Option<ToolChoice>, base: seq<Msg>, soft0: SoftState, script: seq<Round>, s: Step) {
    && (s.stop.Some? ==>
          RunOk(tc, base, soft0, script, s.run, s.stop.value) &&
          (s.stop.value.GateStopped? ==> s.run.soft.escalations <= MAX_SOFT_TOOL_ESCALATIONS))
    && (s.stop.None? ==> AtHead(tc, base, soft0, script, s.run))
  }

  lemma QuietTurnOk(tc: Option<ToolChoice>, base: seq<Msg>, soft0: SoftState, script: seq<Round>, start: Run)
    requires 0 < |start.calls| == |start.heads| <= |script|
    requires Inv(tc, base, soft0, script, start, |start.calls| - 1) && start.turnOpen && start.resolved
    requires ValidRound(script[|start.calls| - 1]) && HasCalls(script[|start.calls| - 1].response)
    requires !Violating(start, tc, script[|start.calls| - 1].response)
    ensures start.turns != []
    ensures var round := script[|start.calls| - 1];
      StepOk(tc, base, soft0, script, FinishTurn(round, SettleCalls(CommitResponse(start, round.response), round)))
  {
    hide Inv, StepOk, CommitResponse, SettleCalls, FinishTurn, Violating;
    var n := |start.calls| - 1;
    InvHasTurn(tc, base, soft0, script, start, n);
    SettleInv(tc, base, soft0, script, start, n);
    FinishOk(tc, base, soft0, script, SettleCalls(CommitResponse(start, script[n].response), script[n]));
  }

  lemma EscalatedTurnOk(tc: Option<ToolChoice>, base: seq<Msg>, soft0: SoftState, script: seq<Round>, start: Run)
    requires 0 < |start.calls| == |start.heads| <= |script|
    requires Inv(tc, base, soft0, script, start, |start.calls| - 1) && start.turnOpen && start.resolved
    requires HasCalls(script[|start.calls| - 1].response)
    requires Violating(start, tc, script[|start.calls| - 1].response)
    requires start.soft.escalations < MAX_SOFT_TOOL_ESCALATIONS
    ensures start.turns != []
    ensures var round := script[|start.calls| - 1];
      StepOk(tc, base, soft0, script, FinishTurn(round, Escalate(CommitResponse(start, round.response), round.response)))
  {
    ResolvedHasTurn(tc, soft0, start);
    assert start.req.Some?;
    hide Inv, StepOk, CommitResponse, Escalate, FinishTurn, Violating;
    var n := |start.calls| - 1;
    EscalateInv(tc, base, soft0, script, start, n);
    FinishOk(tc, base, soft0, script, Escalate(CommitResponse(start, script[n].response), script[n].response));
  }

  lemma SettleOk(tc: Option<ToolChoice>, base: seq<Msg>, soft0: SoftState, script: seq<Round>, start: Run)
    requires 0 < |start.calls| == |start.heads| <= |script|
    requires Inv(tc, base, soft0, script, start, |start.calls| - 1) && start.turnOpen && start.resolved
    requires soft0.escalations <= MAX_SOFT_TOOL_ESCALATIONS
    requires ValidRound(script[|start.calls| - 1]) && HasCalls(script[|start.calls| - 1].response)
    ensures start.turns != []
    ensures StepOk(tc, base, soft0, script, SettleTurn(tc, script[|start.calls| - 1], start))
  {
    hide Inv, RunOk, AtHead, CommitResponse, Escalate, SettleCalls, EndFailedTurn, FinishTurn, Violating, ValidRound,
      Marked, Runnable;
    var n := |start.calls| - 1;
    InvHasTurn(tc, base, soft0, script, start, n);
    var response := script[n].response;
    if response.stop.Errored? || response.stop.Aborted? {
      FailedTurnOk(tc, base, soft0, script, start, n);
    } else if !Violating(start, tc, response) {
      QuietTurnOk(tc, base, soft0, script, start);
    } else if start.soft.escalations < MAX_SOFT_TOOL_ESCALATIONS {
      EscalatedTurnOk(tc, base, soft0, script, start);
    } else {
      GiveUpOk(tc, base, soft0, script, start, n);
    }
  }

  /** A leak asks for the same turn again: nothing is committed, and the turn stays open. */
  lemma RetryOk(tc: Option<ToolChoice>, base: seq<Msg>, soft0: SoftState, script: seq<Round>, r: Run)
    requires 0 < |r.calls| == |r.heads| <= |script| && script[|r.calls| - 1].response.Leaked?
    requires Inv(tc, base, soft0, script, r, |r.calls| - 1) && r.turnOpen && r.resolved
    ensures AtHead(tc, base, soft0, script, r.(retries := r.retries + 1))
  {
    hide Inv;
    var n := |r.calls| - 1;
    PollInv(tc, base, soft0, script, r, n, r.(retries := r.retries + 1));
    LeakInv(tc, base, soft0, script, r.(retries := r.retries + 1), n);
  }

  lemma CallAndSettleOk(tc: Option<ToolChoice>, base: seq<Msg>, soft0: SoftState, script: seq<Round>, start: Run)
    requires |start.calls| < |start.heads| <= |script| && |start.heads| == |start.calls| + 1
    requires Inv(tc, base, soft0, script, start, |start.calls|) && start.turnOpen && start.resolved
    requires soft0.escalations <= MAX_SOFT_TOOL_ESCALATIONS
    requires ValidRound(script[|start.calls|])
    ensures start.turns != []
    ensures StepOk(tc, base, soft0, script, CallAndSettle(tc, script[|start.calls|], start))
  {
    hide Inv, RunOk, SettleTurn, EffectiveChoice, AtHead, ValidRound;
    var n := |start.calls|;
    InvHasTurn(tc, base, soft0, script, start, n);
    CallModelInv(tc, base, soft0, script, start);
    var r := CallModel(start, tc);
    StopOk(tc, base, soft0, script, r, n, Failed);
    if script[n].response.Leaked? {
      RetryOk(tc, base, soft0, script, r);
    } else if !script[n].response.Throws? {
      SettleOk(tc, base, soft0, script, r);
    }
  }

  /** One iteration of the inner loop. */
  lemma RoundOk(tc: Option<ToolChoice>, gated: bool, base: seq<Msg>, soft0: SoftState, script: seq<Round>, r: Run)
    requires ValidScript(script) && AtHead(tc, base, soft0, script, r) && |r.calls| < |script|
    requires soft0.escalations <= MAX_SOFT_TOOL_ESCALATIONS
    ensures r.resolved ==> r.turns != []
    ensures StepOk(tc, base, soft0, script, PlayRound(tc, gated, script[|r.calls|], r))
  {
    HeadHasTurn(tc, base, soft0, script, r);
    hide Inv, RunOk, EnterTurn, CallAndSettle;
    EnterOk(tc, gated, base, soft0, script, r);
    var e := EnterTurn(gated, script[|r.calls|], r);
    if e.stop.None? { CallAndSettleOk(tc, base, soft0, script, e.run); }
  }

  lemma HeadHasTurn(tc: Option<ToolChoice>, base: seq<Msg>, soft0: SoftState, script: seq<Round>, r: Run)
    requires AtHead(tc, base, soft0, script, r)
    ensures r.resolved ==> r.turns != []
  {
  }

  /** The agent would yield: it ends, or late messages bring it back to the head of the loop. */
  lemma YieldOk(tc: Option<ToolChoice>, base: seq<Msg>, soft0: SoftState, script: seq<Round>, r: Run)
    requires AtHead(tc, base, soft0, script, r) && r.calls != []
    ensures StepOk(tc, base, soft0, script, Yield(script[|r.calls| - 1], r))
    ensures !Yield(script[|r.calls| - 1], r).stop.Some? ==> Yield(script[|r.calls| - 1], r).run.hasMore
    ensures Yield(script[|r.calls| - 1], r).run.calls == r.calls
  {
    hide Inv, RunOk;
    EndOk(tc, base, soft0, script, r, |r.calls|);
    var s := Yield(script[|r.calls| - 1], r);
    if s.stop != Some(Ended) {
      PollInv(tc, base, soft0, script, r, |r.calls|, s.run);
      StopOk(tc, base, soft0, script, s.run, |r.calls|, Failed);
    }
  }

  lemma {:induction false} PlayOk(tc: Option<ToolChoice>, gated: bool, base: seq<Msg>, soft0: SoftState,
                                  script: seq<Round>, r: Run)
    requires ValidScript(script) && AtHead(tc, base, soft0, script, r)
    requires soft0.escalations <= MAX_SOFT_TOOL_ESCALATIONS
    ensures var (final, outcome) := Play(tc, gated, script, r);
      RunOk(tc, base, soft0, script, final, outcome) &&
      (outcome.GateStopped? ==> final.soft.escalations <= MAX_SOFT_TOOL_ESCALATIONS)
    decreases |script| - |r.calls|, if r.hasMore || r.pending != [] then 0 else 1
  {
    hide Inv, RunOk, PlayRound, Yield, ValidScript;
    HeadHasTurn(tc, base, soft0, script, r);
    StopOk(tc, base, soft0, script, r, |r.calls|, Cut);
    if r.hasMore || r.pending != [] {
      if |r.calls| < |script| {
        RoundOk(tc, gated, base, soft0, script, r);
        ValidAt(script, |r.calls|);
        var s := PlayRound(tc, gated, script[|r.calls|], r);
        if s.stop.None? { PlayOk(tc, gated, base, soft0, script, s.run); }
      }
    } else if r.calls != [] {
      YieldOk(tc, base, soft0, script, r);
      var s := Yield(script[|r.calls| - 1], r);
      if s.stop.None? { PlayOk(tc, gated, base, soft0, script, s.run); }
    }
  }

  lemma ValidAt(script: seq<Round>, n: nat)
    requires ValidScript(script) && n < |script|
    ensures ValidRound(script[n])
  {
  }

  lemma EarlyEndOk(tc: Option<ToolChoice>, base: seq<Msg>, prompts: seq<nat>, soft0: SoftState, script: seq<Round>)
    requires soft0.escalations <= MAX_SOFT_TOOL_ESCALATIONS
    ensures RunOk(tc, base, soft0, script, EndAgent(Start(base, prompts, soft0)), Ended)
    ensures RunOk(tc, base, soft0, script, OpenTurn(Start(base, prompts, soft0)), Failed)
  {
    StartInv(tc, base, prompts, soft0, script);
    TrackSnoc([], AgentEnd);
    TrackSnoc([], TurnStart);
  }

  lemma PromptAtTail(base: seq<Msg>, prompts: seq<nat>)
    requires prompts != []
    ensures !UnpairedTail(base + Notes(prompts))
  {
  }

  lemma FreshStartInv(tc: Option<ToolChoice>, base: seq<Msg>, prompts: seq<nat>, opening: Opening, soft0: SoftState,
                      script: seq<Round>)
    requires soft0.escalations <= MAX_SOFT_TOOL_ESCALATIONS && ResumeOk(base, prompts, opening)
    requires !UnpairedTail(base + Notes(prompts))
    ensures Inv(tc, base, soft0, script, Start(base, prompts, soft0), 0)
  {
    if prompts == [] { assert base + Notes(prompts) == base; }
    StartInv(tc, base, prompts, soft0, script);
  }

  /** The run that starts with the calls of an unpaired tail. */
  lemma ResumedOk(tc: Option<ToolChoice>, base: seq<Msg>, soft0: SoftState, opening: Opening, script: seq<Round>, r: Run)
    requires ResumeOk(base, [], opening) && UnpairedTail(base) && soft0.escalations <= MAX_SOFT_TOOL_ESCALATIONS
    requires r == Start(base, [], soft0).(pending := opening.steering, polled := opening.steering) && r.context == base
    ensures RunsBatch(base[|base| - 1].calls, opening.batch, opening.schedule)
    ensures AtHead(tc, base, soft0, script, OneTurnOf(r, opening))
    ensures RunOk(tc, base, soft0, script, EndAgent(OneTurnOf(r, opening)), Ended)
    ensures RunOk(tc, base, soft0, script, OneTurnOf(r, opening), Failed)
  {
    hide Inv, RunOk, Owed, RunsBatch, BatchResults, UnpairedTail, ResumeOk;
    ResumeInv(tc, base, opening, soft0, script, r);
    EndOk(tc, base, soft0, script, OneTurnOf(r, opening), 0);
    StopOk(tc, base, soft0, script, OneTurnOf(r, opening), 0, Failed);
  }

  lemma FreshOk(tc: Option<ToolChoice>, base: seq<Msg>, prompts: seq<nat>, soft0: SoftState, opening: Opening,
                script: seq<Round>, r: Run)
    requires ResumeOk(base, prompts, opening) && soft0.escalations <= MAX_SOFT_TOOL_ESCALATIONS
    requires !UnpairedTail(base + Notes(prompts))
    requires r == Start(base, prompts, soft0).(pending := opening.steering, polled := opening.steering)
    ensures AtHead(tc, base, soft0, script, r)
  {
    hide Inv, Owed, UnpairedTail, ResumeOk;
    FreshStartInv(tc, base, prompts, opening, soft0, script);
    PollInv(tc, base, soft0, script, Start(base, prompts, soft0), 0, r);
  }

  lemma OpenOk(tc: Option<ToolChoice>, base: seq<Msg>, prompts: seq<nat>, soft0: SoftState, opening: Opening,
               script: seq<Round>)
    requires ResumeOk(base, prompts, opening) && soft0.escalations <= MAX_SOFT_TOOL_ESCALATIONS
    ensures StepOk(tc, base, soft0, script, OpenRun(base, prompts, soft0, opening))
  {
    hide AtHead, RunOk, OneTurnOf, RunsBatch, UnpairedTail, ResumeOk;
    EarlyEndOk(tc, base, prompts, soft0, script);
    var r := Start(base, prompts, soft0).(pending := opening.steering, polled := opening.steering);
    if UnpairedTail(r.context) {
      if prompts != [] { PromptAtTail(base, prompts); }
      assert base + Notes([]) == base;
      ResumedOk(tc, base, soft0, opening, script, r);
    } else {
      FreshOk(tc, base, prompts, soft0, opening, script, r);
    }
  }

  /** The laws of the loop, for every run: `RunOk` spells them out. */
  lemma {:induction false} RunKeepsLaws(tc: Option<ToolChoice>, gated: bool, base: seq<Msg>, prompts: seq<nat>,
                                        soft0: SoftState, opening: Opening, script: seq<Round>)
    requires ValidScript(script) && ResumeOk(base, prompts, opening)
    requires soft0.escalations <= MAX_SOFT_TOOL_ESCALATIONS
    ensures var (r, outcome) := AgentRun(tc, gated, base, prompts, soft0, opening, script);
      RunOk(tc, base, soft0, script, r, outcome) &&
      (outcome.GateStopped? ==> r.soft.escalations <= MAX_SOFT_TOOL_ESCALATIONS)
  {
    hide Inv, RunOk;
    OpenOk(tc, base, prompts, soft0, opening, script);
    var s := OpenRun(base, prompts, soft0, opening);
    if s.stop.None? { PlayOk(tc, gated, base, soft0, script, s.run); }
  }

  // ---------------------------------------------------------------- when the laws hold, and when they do not

  /** A script without unstarted responses and without leaks: every model call sees a paired transcript, the books
      balance at every head, and a run that ends does so outside its turns. */
  lemma WellBehavedRun(tc: Option<ToolChoice>, gated: bool, base: seq<Msg>, prompts: seq<nat>, soft0: SoftState,
                       opening: Opening, script: seq<Round>)
    requires ValidScript(script) && ResumeOk(base, prompts, opening)
    requires soft0.escalations <= MAX_SOFT_TOOL_ESCALATIONS
    requires forall k | 0 <= k < |script| :: !Unstarted(script[k].response) && !script[k].response.Leaked?
    ensures var (r, outcome) := AgentRun(tc, gated, base, prompts, soft0, opening, script);
      && (forall k | 0 <= k < |r.calls| :: Paired(r.calls[k].context))
      && (forall k | 0 <= k < |r.heads| :: r.heads[k].context == base + r.heads[k].added)
      && (outcome.Ended? ==> TrackOf(r.events) == Closed)
  {
    hide AgentRun, ResumeOk, ValidScript, TrackOf, Paired;
    RunKeepsLaws(tc, gated, base, prompts, soft0, opening, script);
    var r := AgentRun(tc, gated, base, prompts, soft0, opening, script).0;
    forall k | 0 <= k < |r.heads| ensures r.heads[k].context == base + r.heads[k].added {
      NoneUnstarted(script, k);
    }
  }

  lemma {:induction false} NoneUnstarted(script: seq<Round>, n: nat)
    requires n <= |script|
    requires forall k | 0 <= k < |script| :: !Unstarted(script[k].response)
    ensures UnstartedBefore(script, n) == 0
    decreases n
  {
    if n > 0 { NoneUnstarted(script, n - 1); }
  }

  /** The bookkeeping law fails for a stream that closes before its start event: its message is recorded as
      new but never reaches the context, at any later head of the run. */
  lemma UnstartedLosesMessage(tc: Option<ToolChoice>, gated: bool, base: seq<Msg>, prompts: seq<nat>,
                              soft0: SoftState, opening: Opening, script: seq<Round>, j: nat, k: nat)
    requires ValidScript(script) && ResumeOk(base, prompts, opening)
    requires soft0.escalations <= MAX_SOFT_TOOL_ESCALATIONS
    requires j < k && j < |script| && Unstarted(script[j].response)
    ensures var r := AgentRun(tc, gated, base, prompts, soft0, opening, script).0;
      k < |r.heads| ==> r.heads[k].context != base + r.heads[k].added
  {
    hide AgentRun, ResumeOk, ValidScript, TrackOf, Paired;
    RunKeepsLaws(tc, gated, base, prompts, soft0, opening, script);
    var r := AgentRun(tc, gated, base, prompts, soft0, opening, script).0;
    if k < |r.heads| { SomeUnstarted(script, k, j); }
  }

  lemma {:induction false} SomeUnstarted(script: seq<Round>, n: nat, j: nat)
    requires j < n <= |script| && Unstarted(script[j].response)
    ensures UnstartedBefore(script, n) > 0
    decreases n
  {
    if j < n - 1 { SomeUnstarted(script, n - 1, j); }
  }

  /** A round that reaches its model call, which leaks. */
  predicate LeakingRound(gated: bool, round: Round) {
    && !round.deadlineAtHead && !round.syncThrows && !round.prepareThrows && !(gated && (round.gateStops || round.aborted))
    && round.response.Leaked?
    && !round.yieldThrows && round.lateFails.None? && round.lateMessages == []
  }

  /** The turn law fails for a leak whose retry is never made: from any stop boundary where only queued messages
      open the next turn, a leaking response leaves the loop guard nothing to do, and the run ends inside the open
      turn. */
  lemma {:induction false} LeakLeavesTurnOpen(tc: Option<ToolChoice>, gated: bool, base: seq<Msg>, soft0: SoftState,
                                              script: seq<Round>, r: Run)
    requires ValidScript(script) && AtHead(tc, base, soft0, script, r)
    requires soft0.escalations <= MAX_SOFT_TOOL_ESCALATIONS
    requires !r.hasMore && r.pending != [] && |r.calls| < |script|
    requires r.retries < MAX_HARMONY_RETRIES && LeakingRound(gated, script[|r.calls|])
    ensures var (final, outcome) := Play(tc, gated, script, r);
      outcome.Ended? && TrackOf(final.events) == Open
  {
    hide Inv, RunOk, PlayRound, ValidScript;
    ValidAt(script, |r.calls|);
    HeadHasTurn(tc, base, soft0, script, r);
    var round := script[|r.calls|];
    RoundOk(tc, gated, base, soft0, script, r);
    LeakedRound(tc, gated, round, r);
    var s := PlayRound(tc, gated, round, r).run;
    assert Play(tc, gated, script, s) == (EndAgent(s), Ended);
    OpenAtHead(tc, base, soft0, script, s);
  }

  /** The round of an unretried leak leaves nothing to do. */
  lemma LeakedRound(tc: Option<ToolChoice>, gated: bool, round: Round, r: Run)
    requires ValidRound(round) && (r.resolved ==> r.turns != [])
    requires !r.hasMore && r.retries < MAX_HARMONY_RETRIES && LeakingRound(gated, round)
    ensures var s := PlayRound(tc, gated, round, r);
      s.stop.None? && s.run.pending == [] && !s.run.hasMore
  {
  }

  lemma OpenAtHead(tc: Option<ToolChoice>, base: seq<Msg>, soft0: SoftState, script: seq<Round>, r: Run)
    requires AtHead(tc, base, soft0, script, r) && LastLeaked(script, r)
    ensures TrackOf(EndAgent(r).events) == Open
  {
  }
}
