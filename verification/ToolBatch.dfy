/** One batch of tool calls, as `executeToolCalls` runs it: a promise graph that lets shared
    calls overlap and makes exclusive calls run alone, interrupts that arrive in the middle of
    the batch, and the final sweep that gives every call a result.

    A run is a sequence of labels. The host callbacks, the tools, the aborts and the order in
    which promises settle are the labels the environment chooses; `Step` is what the code does
    with each of them. */
module ToolBatch {
  import opened Wrappers

  // ---------------------------------------------------------------- the batch

  /** What is known of a call once its dispatch is prepared: how it is scheduled, whether an
      interrupt may cut it short, whether its arguments failed validation, whether a tool was
      found, and whether the pre-call hook blocked it or threw. */
  datatype Call = Call(exclusive: bool, interruptible: bool, invalid: bool, hasTool: bool, refused: bool)

  /** `immediate` is the interrupt mode; `hasHook` says whether an after-call hook is installed. */
  datatype Batch = Batch(calls: seq<Call>, immediate: bool, hasHook: bool)

  datatype Payload = Output(value: nat) | ErrorText | AbortText | InvalidText

  /** A result shown to the model. `Placeholder` is the interrupt placeholder; `executed` tells
      whether the tool had been entered. */
  datatype Result = Real(payload: Payload, isError: bool) | Placeholder(executed: bool)

  datatype Event = StartOf(index: nat) | EndOf(index: nat)

  /** Where the task of one call stands. `Returned` and `Finishing` carry the result so far;
      `completed` is true when the tool itself returned. */
  datatype Phase =
    | Waiting
    | Gate
    | Starting
    | Executing
    | Returned(payload: Payload, isError: bool, completed: bool, executed: bool)
    | Finishing(payload: Payload, isError: bool, completed: bool, executed: bool)
    | Polling
    | Fulfilled
    | Rejected

  /** `entered` records that the task body was invoked and `output` what the tool returned. */
  datatype Record = Record(
    phase: Phase, entered: bool, started: bool, output: Option<Payload>, emitted: Option<Result>)

  /** `order` lists the calls in the order their results were emitted. `external` is the run's own
      abort, `triggered` a steering or peer interrupt, `faulted` a rejected task. */
  datatype State = State(
    records: seq<Record>, order: seq<nat>, events: seq<Event>,
    external: bool, triggered: bool, faulted: bool)

  datatype HookOutcome = Keep | Replace(value: nat, isError: bool) | HookThrows

  /** What the task of one call does next. */
  datatype Act =
    | Begin
    | Inherit
    | Enter
    | Crash
    | Launch(throws: bool)
    | Return(value: nat, isError: bool)
    | Throw
    | Hook(outcome: HookOutcome)
    | Finish
    | Settle(ok: bool)
    | Sweep

  datatype Label = Task(i: nat, act: Act) | ExternalAbort | Interrupt

  // ---------------------------------------------------------------- the promise graph

  /** Call `i` and a later call `j` must not overlap. */
  predicate Conflict(calls: seq<Call>, i: nat, j: nat)
    requires i < |calls| && j < |calls|
  {
    calls[i].exclusive || calls[j].exclusive
  }

  predicate NoExclusiveBetween(calls: seq<Call>, i: nat, j: nat)
    requires j <= |calls|
  {
    forall k | i < k < j :: !calls[k].exclusive
  }

  /** The calls that call `j` waits for directly: earlier conflicting calls with no exclusive call
      in between. */
  function Waits(calls: seq<Call>, j: nat): (w: set<nat>)
    requires j < |calls|
    ensures forall i | i in w :: i < j
  {
    set i: nat | i < j && Conflict(calls, i, j) && NoExclusiveBetween(calls, i, j)
  }

  /** The scheduling loop: each task is chained to the last exclusive task and, when it is exclusive
      itself, to every shared task since. */
  method BuildWaits(calls: seq<Call>) returns (waits: seq<set<nat>>)
    ensures |waits| == |calls|
    ensures forall j | 0 <= j < |calls| :: waits[j] == Waits(calls, j)
  {
    var lastExclusive: set<nat> := {};
    var sharedTasks: set<nat> := {};
    waits := [];
    for index := 0 to |calls|
      invariant |waits| == index
      invariant forall j | 0 <= j < index :: waits[j] == Waits(calls, j)
      invariant lastExclusive ==
                set i: nat | i < index && calls[i].exclusive && NoExclusiveBetween(calls, i, index)
      invariant sharedTasks ==
                set i: nat | i < index && !calls[i].exclusive && NoExclusiveBetween(calls, i, index)
    {
      if calls[index].exclusive {
        waits := waits + [lastExclusive + sharedTasks];
        lastExclusive := {index};
        sharedTasks := {};
      } else {
        waits := waits + [lastExclusive];
        sharedTasks := sharedTasks + {index};
      }
    }
  }

  // ---------------------------------------------------------------- steps

  function Init(b: Batch): State {
    State(seq(|b.calls|, _ => Record(Waiting, false, false, None, None)), [], [], false, false, false)
  }

  predicate Settled(r: Record) {
    r.phase.Fulfilled? || r.phase.Rejected?
  }

  predicate AllSettled(s: State) {
    forall r | r in s.records :: Settled(r)
  }

  /** The abort signal call `i` observes: interruptible calls also see the interrupts. */
  predicate SignalAborted(b: Batch, s: State, i: nat)
    requires i < |b.calls|
  {
    s.external || (b.calls[i].interruptible && s.triggered)
  }

  /** Emit the result of call `i`, with its start event first when it never started. */
  function Emitted(s: State, i: nat, result: Result, phase: Phase): State
    requires i < |s.records|
  {
    var r := s.records[i];
    var opening := if r.started then [] else [StartOf(i)];
    s.(records := s.records[i := r.(phase := phase, emitted := Some(result))],
       order := s.order + [i],
       events := s.events + opening + [EndOf(i)])
  }

  function EnterStep(b: Batch, s: State, i: nat): State
    requires |s.records| == |b.calls| && i < |b.calls|
  {
    if b.calls[i].invalid then
      Emitted(s, i, Real(InvalidText, true), Fulfilled)
    else if SignalAborted(b, s, i) then
      Emitted(s, i, Real(AbortText, true), Fulfilled)
    else
      var t := s.(records := s.records[i := s.records[i].(phase := Starting, started := true)]);
      t.(events := s.events + [StartOf(i)])
  }

  /** The acts that neither emit a result nor push an event. */
  predicate Quiet(act: Act) {
    act.Begin? || act.Inherit? || act.Crash? || act.Launch? || act.Return? || act.Throw? || act.Hook? || act.Settle?
  }

  predicate PhaseAllows(phase: Phase, act: Act) {
    match act
    case Begin => phase.Waiting?
    case Inherit => phase.Waiting?
    case Enter => phase.Gate?
    case Crash => phase.Starting?
    case Launch(_) => phase.Starting?
    case Return(_, _) => phase.Executing?
    case Throw => phase.Executing?
    case Hook(_) => phase.Returned?
    case Finish => phase.Finishing?
    case Settle(_) => phase.Polling?
    case Sweep => phase.Fulfilled? || phase.Rejected?
  }

  /** Entering the tool: a missing tool, a raised signal or a refused call ends the attempt first. */
  function Launched(call: Call, aborted: bool, throws: bool): Phase {
    if !call.hasTool then Returned(ErrorText, true, false, false)
    else if aborted then Finishing(AbortText, true, false, false)
    else if call.refused || throws then Returned(ErrorText, true, false, false)
    else Executing
  }

  /** The after-call hook runs unless the signal cut the tool short. */
  function Hooked(hasHook: bool, aborted: bool, p: Phase, outcome: HookOutcome): Phase
    requires p.Returned?
  {
    var kept := Finishing(p.payload, p.isError, p.completed, p.executed);
    if hasHook && (!aborted || p.completed) then
      match outcome
      case Keep => kept
      case Replace(value, isError) => kept.(payload := Output(value), isError := isError)
      case HookThrows => kept.(payload := ErrorText, isError := true)
    else
      kept
  }

  /** The effect of a quiet act on the record of its call. A pending interrupt skips an interruptible call that
      has not begun. */
  function Advance(hasHook: bool, call: Call, aborted: bool, triggered: bool, r: Record, act: Act): Record
    requires Quiet(act) && PhaseAllows(r.phase, act)
  {
    match act
    case Begin => r.(entered := true, phase := if triggered && call.interruptible then Fulfilled else Gate)
    case Inherit => r.(phase := Rejected)
    case Crash => r.(phase := Rejected)
    case Launch(throws) => r.(phase := Launched(call, aborted, throws))
    case Return(value, isError) =>
      r.(phase := Returned(Output(value), isError, true, true), output := Some(Output(value)))
    case Throw => r.(phase := Returned(ErrorText, true, false, true))
    case Hook(outcome) => r.(phase := Hooked(hasHook, aborted, r.phase, outcome))
    case Settle(ok) => r.(phase := if ok then Fulfilled else Rejected)
  }

  function QuietStep(b: Batch, s: State, i: nat, act: Act): State
    requires |s.records| == |b.calls| && i < |b.calls| && Quiet(act) && PhaseAllows(s.records[i].phase, act)
  {
    var r := Advance(b.hasHook, b.calls[i], SignalAborted(b, s, i), s.triggered, s.records[i], act);
    s.(records := s.records[i := r], faulted := s.faulted || act.Crash? || act == Settle(false))
  }

  function FinishStep(b: Batch, s: State, i: nat): State
    requires |s.records| == |b.calls| && i < |b.calls| && s.records[i].phase.Finishing?
  {
    var p := s.records[i].phase;
    var abortedDuringExecution := SignalAborted(b, s, i) && p.isError && !p.completed;
    if s.triggered && abortedDuringExecution then Emitted(s, i, Placeholder(p.executed), Polling)
    else Emitted(s, i, Real(p.payload, p.isError), Polling)
  }

  predicate SweepEnabled(s: State, i: nat)
    requires i < |s.records|
  {
    AllSettled(s) && s.records[i].emitted.None? && forall j | 0 <= j < i :: s.records[j].emitted.Some?
  }

  predicate ActEnabled(b: Batch, s: State, i: nat, act: Act)
    requires |s.records| == |b.calls| && i < |b.calls|
  {
    && PhaseAllows(s.records[i].phase, act)
    && (act.Begin? ==> forall k | k in Waits(b.calls, i) :: s.records[k].phase.Fulfilled?)
    && (act.Inherit? ==> exists k | k in Waits(b.calls, i) :: s.records[k].phase.Rejected?)
    && (act.Sweep? ==> SweepEnabled(s, i))
  }

  predicate Enabled(b: Batch, s: State, l: Label)
    requires |s.records| == |b.calls|
  {
    match l
    case ExternalAbort => true
    case Interrupt => b.immediate
    case Task(i, act) => i < |b.calls| && ActEnabled(b, s, i, act)
  }

  function ActStep(b: Batch, s: State, i: nat, act: Act): State
    requires |s.records| == |b.calls| && i < |b.calls| && ActEnabled(b, s, i, act)
  {
    match act
    case Enter => EnterStep(b, s, i)
    case Finish => FinishStep(b, s, i)
    case Sweep => Emitted(s, i, Placeholder(false), s.records[i].phase)
    case _ => QuietStep(b, s, i, act)
  }

  /** What the code does on one label. */
  function Step(b: Batch, s: State, l: Label): State
    requires |s.records| == |b.calls| && Enabled(b, s, l)
  {
    match l
    case Task(i, act) => ActStep(b, s, i, act)
    case ExternalAbort => s.(external := true)
    case Interrupt => s.(triggered := true)
  }

  /** The state after a whole sequence of labels, if each was enabled in turn. */
  function Exec(b: Batch, labels: seq<Label>): (s: Option<State>)
    ensures s.Some? ==> |s.value.records| == |b.calls|
    decreases |labels|
  {
    if labels == [] then Some(Init(b))
    else
      var before := Exec(b, labels[..|labels| - 1]);
      if before.Some? && Enabled(b, before.value, labels[|labels| - 1])
      then Some(Step(b, before.value, labels[|labels| - 1]))
      else None
  }

  predicate Done(s: State) {
    AllSettled(s) && forall r | r in s.records :: r.emitted.Some?
  }

  // ---------------------------------------------------------------- the invariant

  predicate RecordOk(r: Record) {
    && (r.phase.Waiting? ==> !r.entered)
    && (r.phase.Gate? ==> r.entered && !r.started && r.emitted.None? && r.output.None?)
    && (!r.entered ==> !r.started && r.output.None? && (r.phase.Waiting? || r.phase.Rejected?))
    && (r.phase.Waiting? ==> r.emitted.None?)
    && (r.phase.Starting? || r.phase.Executing? ==>
          r.entered && r.started && r.emitted.None? && r.output.None?)
    && (r.phase.Returned? || r.phase.Finishing? ==>
          r.entered && r.started && r.emitted.None? && (r.phase.completed <==> r.output.Some?))
    && (r.phase.Polling? ==> r.emitted.Some?)
    && (r.emitted.None? && Settled(r) ==> r.output.None?)
    && (r.emitted.Some? && r.output.Some? ==> r.emitted.value.Real?)
  }

  /** What holds of call `i` beside its own record. */
  predicate CallOk(b: Batch, s: State, i: nat)
    requires |s.records| == |b.calls| && i < |b.calls|
  {
    var r := s.records[i];
    && RecordOk(r)
    && (r.entered ==> forall k | k in Waits(b.calls, i) :: s.records[k].phase.Fulfilled?)
    && (i in s.order <==> r.emitted.Some?)
    && multiset(s.events)[StartOf(i)] == (if r.started || r.emitted.Some? then 1 else 0)
    && multiset(s.events)[EndOf(i)] == (if r.emitted.Some? then 1 else 0)
    && (!s.faulted ==> !r.phase.Rejected?)
    && (!b.calls[i].interruptible && r.phase.Fulfilled? ==> r.emitted.Some?)
    && (!b.calls[i].interruptible && !s.external && !s.faulted && r.emitted.Some? ==> r.emitted.value.Real?)
    && (!b.hasHook && r.output.Some? ==>
          (r.phase.Returned? || r.phase.Finishing? ==> r.phase.payload == r.output.value) &&
          (r.emitted.Some? ==> r.emitted.value.payload == r.output.value))
  }

  predicate Distinct(xs: seq<nat>) {
    forall i, j | 0 <= i < j < |xs| :: xs[i] != xs[j]
  }

  predicate Within(xs: seq<nat>, n: nat) {
    forall k | 0 <= k < |xs| :: xs[k] < n
  }

  predicate Covers(xs: seq<nat>, n: nat) {
    forall k: nat | k < n :: k in xs
  }

  predicate Inv(b: Batch, s: State)
    requires |s.records| == |b.calls|
  {
    && (forall i | 0 <= i < |b.calls| :: CallOk(b, s, i))
    && Within(s.order, |b.calls|)
    && Distinct(s.order)
  }


  lemma InitInv(b: Batch)
    ensures Inv(b, Init(b))
  {
  }

  lemma EmittedInv(b: Batch, s: State, i: nat, result: Result, phase: Phase)
    requires |s.records| == |b.calls| && i < |b.calls| && Inv(b, s)
    requires s.records[i].emitted.None?
    requires phase != s.records[i].phase ==> !s.records[i].phase.Fulfilled?
    requires RecordOk(s.records[i].(phase := phase, emitted := Some(result)))
    requires !s.faulted ==> !phase.Rejected?
    requires !b.calls[i].interruptible && !s.external && !s.faulted ==> result.Real?
    requires !b.hasHook && s.records[i].output.Some? ==>
               !phase.Returned? && !phase.Finishing? && result == Real(s.records[i].output.value, result.isError)
    ensures Inv(b, Emitted(s, i, result, phase))
  {
    var s' := Emitted(s, i, result, phase);
    assert CallOk(b, s, i);
    forall k | 0 <= k < |b.calls| ensures CallOk(b, s', k) {
      assert CallOk(b, s, k);
    }
  }

  /** How far a task is from being settled with a result. */
  function Rank(r: Record): nat {
    (match r.phase
     case Waiting => 8
     case Gate => 7
     case Starting => 6
     case Executing => 5
     case Returned(_, _, _, _) => 4
     case Finishing(_, _, _, _) => 3
     case Polling => 2
     case Fulfilled => 1
     case Rejected => 1)
    + if r.emitted.None? then 1 else 0
  }

  lemma AdvanceOk(hasHook: bool, call: Call, aborted: bool, triggered: bool, r: Record, act: Act)
    requires Quiet(act) && PhaseAllows(r.phase, act) && RecordOk(r)
    ensures var r' := Advance(hasHook, call, aborted, triggered, r, act);
      && RecordOk(r') && Rank(r') < Rank(r)
      && r'.emitted == r.emitted && r'.started == r.started
      && (r.entered || act.Begin? <==> r'.entered)
      && (r'.phase.Rejected? ==> act.Inherit? || act.Crash? || act == Settle(false))
      && (!call.interruptible && r'.phase.Fulfilled? ==> r'.emitted.Some?)
      && (!hasHook && r'.output.Some? && (r'.phase.Returned? || r'.phase.Finishing?) ==>
            if act.Return? then r'.phase.payload == r'.output.value
            else act.Hook? && r.output == r'.output && r'.phase.payload == r.phase.payload)
      && (!act.Return? ==> r'.output == r.output)
  {
  }

  /** A quiet act keeps the invariant of its own call. */
  lemma QuietKeepsOwn(b: Batch, s: State, i: nat, act: Act)
    requires |s.records| == |b.calls| && i < |b.calls| && Inv(b, s) && ActEnabled(b, s, i, act) && Quiet(act)
    ensures CallOk(b, QuietStep(b, s, i, act), i)
  {
    hide Advance, Rank;
    assert CallOk(b, s, i);
    AdvanceOk(b.hasHook, b.calls[i], SignalAborted(b, s, i), s.triggered, s.records[i], act);
    if act.Inherit? {
      var k :| k in Waits(b.calls, i) && s.records[k].phase.Rejected?;
      assert CallOk(b, s, k);
    }
  }

  /** A quiet act leaves every other call as it was; only a fulfilled call could be awaited, and it takes no more acts. */
  lemma QuietKeepsOther(b: Batch, s: State, i: nat, act: Act, k: nat)
    requires |s.records| == |b.calls| && i < |b.calls| && ActEnabled(b, s, i, act) && Quiet(act)
    requires k < |b.calls| && k != i && CallOk(b, s, k)
    ensures CallOk(b, QuietStep(b, s, i, act), k)
  {
    hide Advance, RecordOk, SignalAborted;
  }

  lemma QuietKeepsInv(b: Batch, s: State, i: nat, act: Act)
    requires |s.records| == |b.calls| && i < |b.calls| && Inv(b, s) && ActEnabled(b, s, i, act) && Quiet(act)
    ensures Inv(b, QuietStep(b, s, i, act))
  {
    hide CallOk, Advance, SignalAborted;
    var s' := QuietStep(b, s, i, act);
    QuietKeepsOwn(b, s, i, act);
    forall k | 0 <= k < |b.calls| ensures CallOk(b, s', k) {
      assert CallOk(b, s, k);
      if k != i { QuietKeepsOther(b, s, i, act, k); }
    }
  }

  /** One act changes one record, uses up some of its rank, and keeps what it had emitted. */
  lemma ActIsLocal(b: Batch, s: State, i: nat, act: Act)
    requires |s.records| == |b.calls| && i < |b.calls| && RecordOk(s.records[i]) && ActEnabled(b, s, i, act)
    ensures var s' := ActStep(b, s, i, act);
      && s'.records == s.records[i := s'.records[i]]
      && Rank(s'.records[i]) < Rank(s.records[i])
      && (s.records[i].emitted.Some? ==> s'.records[i].emitted == s.records[i].emitted)
      && s.order <= s'.order && s.events <= s'.events
  {
    if Quiet(act) {
      AdvanceOk(b.hasHook, b.calls[i], SignalAborted(b, s, i), s.triggered, s.records[i], act);
    }
  }

  lemma EnterKeepsInv(b: Batch, s: State, i: nat)
    requires |s.records| == |b.calls| && i < |b.calls| && Inv(b, s) && ActEnabled(b, s, i, Enter)
    ensures Inv(b, EnterStep(b, s, i))
  {
    assert CallOk(b, s, i);
    if b.calls[i].invalid {
      EmittedInv(b, s, i, Real(InvalidText, true), Fulfilled);
    } else if SignalAborted(b, s, i) {
      EmittedInv(b, s, i, Real(AbortText, true), Fulfilled);
    } else {
      var s' := EnterStep(b, s, i);
      forall k | 0 <= k < |b.calls| ensures CallOk(b, s', k) {
        assert CallOk(b, s, k);
      }
    }
  }

  lemma ActKeepsInv(b: Batch, s: State, i: nat, act: Act)
    requires |s.records| == |b.calls| && i < |b.calls| && Inv(b, s) && ActEnabled(b, s, i, act)
    ensures Inv(b, ActStep(b, s, i, act))
  {
    assert CallOk(b, s, i);
    if Quiet(act) {
      QuietKeepsInv(b, s, i, act);
    } else if act.Enter? {
      EnterKeepsInv(b, s, i);
    } else if act.Finish? {
      var p := s.records[i].phase;
      if s.triggered && SignalAborted(b, s, i) && p.isError && !p.completed {
        EmittedInv(b, s, i, Placeholder(p.executed), Polling);
      } else {
        EmittedInv(b, s, i, Real(p.payload, p.isError), Polling);
      }
    } else {
      EmittedInv(b, s, i, Placeholder(false), s.records[i].phase);
    }
  }

  lemma {:induction false} ReachableInv(b: Batch, labels: seq<Label>)
    requires Exec(b, labels).Some?
    ensures Inv(b, Exec(b, labels).value)
    decreases |labels|
  {
    if labels == [] {
      InitInv(b);
    } else {
      var s := Exec(b, labels[..|labels| - 1]).value;
      ReachableInv(b, labels[..|labels| - 1]);
      match labels[|labels| - 1]
      case Task(i, act) => ActKeepsInv(b, s, i, act);
      case ExternalAbort =>
        forall k | 0 <= k < |b.calls| ensures CallOk(b, s.(external := true), k) { assert CallOk(b, s, k); }
      case Interrupt =>
        forall k | 0 <= k < |b.calls| ensures CallOk(b, s.(triggered := true), k) { assert CallOk(b, s, k); }
    }
  }

  // ---------------------------------------------------------------- exclusion

  /** The last exclusive call strictly between `i` and `j`. */
  lemma {:induction false} LastExclusiveBetween(calls: seq<Call>, i: nat, j: nat) returns (k: nat)
    requires i < j < |calls| && !NoExclusiveBetween(calls, i, j)
    ensures i < k < j && calls[k].exclusive && NoExclusiveBetween(calls, k, j)
  {
    k := j - 1;
    while !calls[k].exclusive
      invariant i < k < j && NoExclusiveBetween(calls, k, j)
      decreases k
    {
      if k == i + 1 { assert NoExclusiveBetween(calls, i, j); }
      k := k - 1;
    }
  }

  /** A task that was entered has every earlier conflicting task behind it, although it waits for only
      some of them directly. */
  lemma {:induction false} EnteredAfter(b: Batch, s: State, i: nat, j: nat)
    requires |s.records| == |b.calls| && Inv(b, s)
    requires i < j < |b.calls| && Conflict(b.calls, i, j) && s.records[j].entered
    ensures s.records[i].phase.Fulfilled?
    decreases j - i
  {
    assert CallOk(b, s, j);
    if NoExclusiveBetween(b.calls, i, j) {
      assert i in Waits(b.calls, j);
    } else {
      var k := LastExclusiveBetween(b.calls, i, j);
      assert k in Waits(b.calls, j);
      assert CallOk(b, s, k);
      EnteredAfter(b, s, i, k);
    }
  }

  /** Batch exclusion: in every interleaving, when either of two calls is exclusive the earlier one has
      finished completely before the later one is entered. */
  lemma {:induction false} Exclusion(b: Batch, labels: seq<Label>, i: nat, j: nat)
    requires Exec(b, labels).Some?
    requires i < j < |b.calls| && Conflict(b.calls, i, j)
    requires Exec(b, labels).value.records[j].entered
    ensures Exec(b, labels).value.records[i].phase.Fulfilled?
  {
    ReachableInv(b, labels);
    EnteredAfter(b, Exec(b, labels).value, i, j);
  }

  // ---------------------------------------------------------------- progress

  function Work(rs: seq<Record>): nat {
    if rs == [] then 0 else Rank(rs[0]) + Work(rs[1..])
  }

  lemma {:induction false} WorkOfUpdate(rs: seq<Record>, i: nat, r: Record)
    requires i < |rs|
    ensures Work(rs[i := r]) == Work(rs) - Rank(rs[i]) + Rank(r)
    decreases i
  {
    if i == 0 {
      assert rs[i := r][1..] == rs[1..];
    } else {
      assert rs[i := r][1..] == rs[1..][i - 1 := r];
      WorkOfUpdate(rs[1..], i - 1, r);
    }
  }

  /** Every step of a task uses up work, and no interrupt or abort adds any: a batch takes a bounded
      number of task steps however it is scheduled. */
  lemma StepUsesWork(b: Batch, s: State, l: Label)
    requires |s.records| == |b.calls| && Inv(b, s) && Enabled(b, s, l)
    ensures l.Task? ==> Work(Step(b, s, l).records) < Work(s.records)
    ensures !l.Task? ==> Work(Step(b, s, l).records) == Work(s.records)
  {
    if l.Task? {
      assert CallOk(b, s, l.i);
      ActIsLocal(b, s, l.i, l.act);
      WorkOfUpdate(s.records, l.i, Step(b, s, l).records[l.i]);
    }
  }

  /** The act that task `i` can take when it is not waiting. */
  function NextAct(r: Record): Act
    requires !Settled(r) && !r.phase.Waiting?
  {
    match r.phase
    case Gate => Enter
    case Starting => Launch(false)
    case Executing => Throw
    case Returned(_, _, _, _) => Hook(Keep)
    case Finishing(_, _, _, _) => Finish
    case Polling => Settle(true)
  }

  lemma {:induction false} FirstUnsettled(rs: seq<Record>) returns (i: nat)
    requires exists r | r in rs :: !Settled(r)
    ensures i < |rs| && !Settled(rs[i]) && forall k | 0 <= k < i :: Settled(rs[k])
  {
    i := 0;
    while Settled(rs[i])
      invariant i < |rs| && forall k | 0 <= k < i :: Settled(rs[k])
      decreases |rs| - i
    {
      assert i < |rs| - 1;
      i := i + 1;
    }
  }

  lemma {:induction false} FirstUnemitted(rs: seq<Record>) returns (i: nat)
    requires exists r | r in rs :: r.emitted.None?
    ensures i < |rs| && rs[i].emitted.None? && forall k | 0 <= k < i :: rs[k].emitted.Some?
  {
    i := 0;
    while rs[i].emitted.Some?
      invariant i < |rs| && forall k | 0 <= k < i :: rs[k].emitted.Some?
      decreases |rs| - i
    {
      assert i < |rs| - 1;
      i := i + 1;
    }
  }

  /** No deadlock: until every call has its result, some task (or the final sweep) can move. */
  lemma {:induction false} Progress(b: Batch, labels: seq<Label>) returns (l: Label)
    requires Exec(b, labels).Some? && !Done(Exec(b, labels).value)
    ensures l.Task? && Enabled(b, Exec(b, labels).value, l)
    ensures Exec(b, labels + [l]).Some?
    ensures Work(Exec(b, labels + [l]).value.records) < Work(Exec(b, labels).value.records)
  {
    var s := Exec(b, labels).value;
    ReachableInv(b, labels);
    if AllSettled(s) {
      var i := FirstUnemitted(s.records);
      assert Settled(s.records[i]);
      l := Task(i, Sweep);
    } else {
      var i := FirstUnsettled(s.records);
      assert CallOk(b, s, i);
      if !s.records[i].phase.Waiting? {
        l := Task(i, NextAct(s.records[i]));
      } else if exists k | k in Waits(b.calls, i) :: s.records[k].phase.Rejected? {
        l := Task(i, Inherit);
      } else {
        assert forall k | k in Waits(b.calls, i) :: Settled(s.records[k]);
        l := Task(i, Begin);
      }
    }
    assert (labels + [l])[..|labels|] == labels;
    StepUsesWork(b, s, l);
  }

  function TaskSteps(labels: seq<Label>): nat {
    if labels == [] then 0
    else TaskSteps(labels[..|labels| - 1]) + if labels[|labels| - 1].Task? then 1 else 0
  }

  lemma {:induction false} WorkAtStart(rs: seq<Record>)
    requires forall r | r in rs :: r.phase.Waiting? && r.emitted.None?
    ensures Work(rs) == 9 * |rs|
  {
    if rs != [] { WorkAtStart(rs[1..]); }
  }

  /** A batch of n calls settles after at most 9n task steps, whatever the interleaving. */
  lemma {:induction false} Bounded(b: Batch, labels: seq<Label>)
    requires Exec(b, labels).Some?
    ensures TaskSteps(labels) + Work(Exec(b, labels).value.records) <= 9 * |b.calls|
    decreases |labels|
  {
    if labels == [] {
      WorkAtStart(Init(b).records);
    } else {
      var before := labels[..|labels| - 1];
      Bounded(b, before);
      ReachableInv(b, before);
      StepUsesWork(b, Exec(b, before).value, labels[|labels| - 1]);
    }
  }

  // ---------------------------------------------------------------- results

  /** One result per call: when the batch is done, the emitted results name each call exactly once, and
      the stream carries exactly one execution start and one execution end for it. At every earlier
      point an end is never ahead of its start. */
  lemma {:induction false} OneResultPerCall(b: Batch, labels: seq<Label>, i: nat)
    requires Exec(b, labels).Some? && i < |b.calls|
    ensures var s := Exec(b, labels).value;
      && multiset(s.events)[EndOf(i)] <= multiset(s.events)[StartOf(i)] <= 1
      && Distinct(s.order)
      && (Done(s) ==>
            i in s.order && |s.order| == |b.calls| &&
            multiset(s.events)[EndOf(i)] == 1 == multiset(s.events)[StartOf(i)])
  {
    var s := Exec(b, labels).value;
    ReachableInv(b, labels);
    assert CallOk(b, s, i);
    if Done(s) {
      DoneCovers(b, s);
    }
  }

  lemma DoneCovers(b: Batch, s: State)
    requires |s.records| == |b.calls| && Inv(b, s) && Done(s)
    ensures Covers(s.order, |b.calls|) && |s.order| == |b.calls|
  {
    forall k: nat | k < |b.calls| ensures k in s.order {
      assert CallOk(b, s, k);
      assert s.records[k] in s.records;
    }
    DistinctCover(s.order, |b.calls|);
  }

  /** Removing the largest of a list of distinct indices that covers 0..n leaves one that covers 0..n-1. */
  lemma {:induction false} RemoveLargest(xs: seq<nat>, n: nat) returns (p: nat)
    requires n > 0 && Distinct(xs) && Covers(xs, n) && Within(xs, n)
    ensures p < |xs| && xs[p] == n - 1
    ensures Distinct(xs[..p] + xs[p + 1..]) && Covers(xs[..p] + xs[p + 1..], n - 1)
    ensures Within(xs[..p] + xs[p + 1..], n - 1)
  {
    var top: nat := n - 1;
    assert top in xs;
    p :| p < |xs| && xs[p] == top;
    var ys := xs[..p] + xs[p + 1..];
    assert forall q: nat | q < |ys| :: ys[q] == xs[if q < p then q else q + 1];
    forall k: nat | k < n - 1 ensures k in ys {
      assert k in xs;
      var q: nat :| q < |xs| && xs[q] == k;
      assert ys[if q < p then q else q - 1] == k;
    }
  }

  lemma NonEmptyWithin(xs: seq<nat>, n: nat)
    requires Within(xs, n) && xs != []
    ensures n > 0
  {
    assert xs[0] < n;
  }

  /** A list of distinct indices that covers 0..n has length n. */
  lemma {:induction false} DistinctCover(xs: seq<nat>, n: nat)
    requires Distinct(xs) && Covers(xs, n) && Within(xs, n)
    ensures |xs| == n
    decreases n
  {
    if n == 0 {
      if xs != [] { NonEmptyWithin(xs, n); }
    } else {
      var p := RemoveLargest(xs, n);
      DistinctCover(xs[..p] + xs[p + 1..], n - 1);
    }
  }

  /** A result, once emitted, is never replaced, and later results come after it. */
  lemma EmittedIsFinal(b: Batch, s: State, l: Label, i: nat)
    requires |s.records| == |b.calls| && Inv(b, s) && Enabled(b, s, l) && i < |b.calls|
    ensures s.records[i].emitted.Some? ==> Step(b, s, l).records[i].emitted == s.records[i].emitted
    ensures s.order <= Step(b, s, l).order && s.events <= Step(b, s, l).events
  {
    if l.Task? {
      assert CallOk(b, s, l.i);
      ActIsLocal(b, s, l.i, l.act);
    }
  }

  datatype ToolReturn = ToolReturn(value: nat, isError: bool)

  /** What the tool of call `i` returned in a schedule. */
  function ReturnOf(labels: seq<Label>, i: nat): Option<ToolReturn> {
    if labels == [] then None
    else
      match labels[|labels| - 1]
      case Task(k, act) =>
        if k == i && act.Return? then Some(ToolReturn(act.value, act.isError)) else ReturnOf(labels[..|labels| - 1], i)
      case _ => ReturnOf(labels[..|labels| - 1], i)
  }

  /** What the after-call hook of call `i` answered in a schedule. */
  function HookOf(labels: seq<Label>, i: nat): Option<HookOutcome> {
    if labels == [] then None
    else
      match labels[|labels| - 1]
      case Task(k, act) => if k == i && act.Hook? then Some(act.outcome) else HookOf(labels[..|labels| - 1], i)
      case _ => HookOf(labels[..|labels| - 1], i)
  }

  /** The result that the model should see of a tool that returned: its own, unless a hook replaced it or threw. */
  function Due(hasHook: bool, returned: ToolReturn, hooked: Option<HookOutcome>): Result {
    if !hasHook || hooked.None? then Real(Output(returned.value), returned.isError)
    else match hooked.value
      case Keep => Real(Output(returned.value), returned.isError)
      case Replace(value, isError) => Real(Output(value), isError)
      case HookThrows => Real(ErrorText, true)
  }

  /** How far the record of a call that may have returned agrees with the schedule. */
  predicate Follows(hasHook: bool, r: Record, returned: Option<ToolReturn>, hooked: Option<HookOutcome>) {
    && (r.phase.Waiting? || r.phase.Gate? || r.phase.Starting? || r.phase.Executing? ==>
          returned.None? && hooked.None? && r.output.None? && r.emitted.None?)
    && (r.phase.Returned? ==> hooked.None? && r.emitted.None?)
    && (r.phase.Finishing? ==> r.emitted.None?)
    && (r.phase.Polling? ==> r.emitted.Some?)
    && (r.output.Some? <==> returned.Some?)
    && (returned.Some? ==> r.output == Some(Output(returned.value.value)))
    && (r.phase.Returned? && r.phase.completed ==>
          returned.Some? && Real(r.phase.payload, r.phase.isError) == Due(false, returned.value, None))
    && (r.phase.Finishing? && r.phase.completed ==>
          returned.Some? && Real(r.phase.payload, r.phase.isError) == Due(hasHook, returned.value, hooked))
    && (r.phase.Returned? || r.phase.Finishing? ==> (r.phase.completed <==> returned.Some?))
    && (r.emitted.Some? && returned.Some? ==> r.emitted.value == Due(hasHook, returned.value, hooked))
    && (Settled(r) && returned.Some? ==> r.emitted.Some?)
  }

  lemma FollowsQuiet(hasHook: bool, call: Call, aborted: bool, triggered: bool, r: Record, act: Act,
                     returned: Option<ToolReturn>, hooked: Option<HookOutcome>)
    requires Quiet(act) && PhaseAllows(r.phase, act) && RecordOk(r) && Follows(hasHook, r, returned, hooked)
    ensures Follows(hasHook, Advance(hasHook, call, aborted, triggered, r, act),
                    if act.Return? then Some(ToolReturn(act.value, act.isError)) else returned,
                    if act.Hook? then Some(act.outcome) else hooked)
  {
  }

  lemma FollowsEmitted(hasHook: bool, r: Record, result: Result, phase: Phase,
                       returned: Option<ToolReturn>, hooked: Option<HookOutcome>)
    requires Follows(hasHook, r, returned, hooked) && r.emitted.None?
    requires
      || (r.phase.Gate? && phase.Fulfilled?)
      || (r.phase.Finishing? && phase.Polling? &&
          (r.phase.completed ==> result == Real(r.phase.payload, r.phase.isError)))
      || (Settled(r) && phase == r.phase)
    ensures Follows(hasHook, r.(phase := phase, emitted := Some(result)), returned, hooked)
  {
  }

  lemma FollowsAct(b: Batch, s: State, i: nat, act: Act, returned: Option<ToolReturn>, hooked: Option<HookOutcome>)
    requires |s.records| == |b.calls| && i < |b.calls| && ActEnabled(b, s, i, act) && RecordOk(s.records[i])
    requires Follows(b.hasHook, s.records[i], returned, hooked)
    ensures Follows(b.hasHook, ActStep(b, s, i, act).records[i],
                    if act.Return? then Some(ToolReturn(act.value, act.isError)) else returned,
                    if act.Hook? then Some(act.outcome) else hooked)
  {
    var r := s.records[i];
    if Quiet(act) {
      hide Follows, Advance;
      FollowsQuiet(b.hasHook, b.calls[i], SignalAborted(b, s, i), s.triggered, r, act, returned, hooked);
    } else {
      EmissionFollows(b, s, i, act, returned, hooked);
    }
  }

  lemma EmissionFollows(b: Batch, s: State, i: nat, act: Act, returned: Option<ToolReturn>, hooked: Option<HookOutcome>)
    requires |s.records| == |b.calls| && i < |b.calls| && ActEnabled(b, s, i, act) && !Quiet(act)
    requires RecordOk(s.records[i]) && Follows(b.hasHook, s.records[i], returned, hooked)
    ensures Follows(b.hasHook, ActStep(b, s, i, act).records[i], returned, hooked)
  {
    var r, r' := s.records[i], ActStep(b, s, i, act).records[i];
    if r'.emitted.Some? { FollowsEmitted(b.hasHook, r, r'.emitted.value, r'.phase, returned, hooked); }
  }

  lemma {:induction false} FollowsSchedule(b: Batch, labels: seq<Label>, i: nat)
    requires Exec(b, labels).Some? && i < |b.calls|
    ensures Follows(b.hasHook, Exec(b, labels).value.records[i], ReturnOf(labels, i), HookOf(labels, i))
    decreases |labels|
  {
    if labels != [] {
      var before := labels[..|labels| - 1];
      var s, l := Exec(b, before).value, labels[|labels| - 1];
      FollowsSchedule(b, before, i);
      hide Follows;
      if l.Task? {
        ReachableInv(b, before);
        assert CallOk(b, s, l.i);
        if l.i == i {
          FollowsAct(b, s, i, l.act, ReturnOf(before, i), HookOf(before, i));
        } else {
          ActIsLocal(b, s, l.i, l.act);
        }
      }
    }
  }

  /** A tool that returned is never shown as skipped: the model sees what the tool returned or, with an after-call hook,
      what that made of it. */
  lemma {:induction false} CompletedKept(b: Batch, labels: seq<Label>, i: nat)
    requires Exec(b, labels).Some? && i < |b.calls| && ReturnOf(labels, i).Some?
    ensures var r := Exec(b, labels).value.records[i];
      && (Settled(r) ==> r.emitted.Some?)
      && (r.emitted.Some? ==> r.emitted.value == Due(b.hasHook, ReturnOf(labels, i).value, HookOf(labels, i)))
  {
    FollowsSchedule(b, labels, i);
  }

  /** With no external abort and no failing host callback, no interrupt ever costs a non-interruptible call its
      result. */
  lemma {:induction false} NonInterruptibleKept(b: Batch, labels: seq<Label>, i: nat)
    requires Exec(b, labels).Some? && i < |b.calls| && !b.calls[i].interruptible
    requires ExternalAbort !in labels
    requires forall l | l in labels && l.Task? :: l.act != Crash && l.act != Settle(false)
    ensures Exec(b, labels).value.records[i].emitted.Some? ==>
              Exec(b, labels).value.records[i].emitted.value.Real?
  {
    ReachableInv(b, labels);
    Undisturbed(b, labels);
    assert CallOk(b, Exec(b, labels).value, i);
  }

  lemma {:induction false} Undisturbed(b: Batch, labels: seq<Label>)
    requires Exec(b, labels).Some?
    requires ExternalAbort !in labels
    requires forall l | l in labels && l.Task? :: l.act != Crash && l.act != Settle(false)
    ensures !Exec(b, labels).value.external && !Exec(b, labels).value.faulted
    decreases |labels|
  {
    if labels != [] {
      var before := labels[..|labels| - 1];
      assert labels[|labels| - 1] in labels;
      Undisturbed(b, before);
    }
  }

  // ---------------------------------------------------------------- pairing with call ids

  /** The ids of the emitted results, in emission order. */
  function ResultIds(ids: seq<nat>, order: seq<nat>): seq<nat>
    requires Within(order, |ids|)
  {
    seq(|order|, k requires 0 <= k < |order| => ids[order[k]])
  }

  lemma ResultIdsSplit(ids: seq<nat>, xs: seq<nat>, ys: seq<nat>)
    requires ids != [] && Within(xs + ys, |ids| - 1)
    ensures Within(xs + [|ids| - 1] + ys, |ids|)
    ensures multiset(ResultIds(ids, xs + [|ids| - 1] + ys))
         == multiset(ResultIds(ids[..|ids| - 1], xs + ys)) + multiset{ids[|ids| - 1]}
  {
    var n := |ids| - 1;
    assert forall k | 0 <= k < |xs| :: (xs + ys)[k] == xs[k];
    assert forall k | 0 <= k < |ys| :: (xs + ys)[k + |xs|] == ys[k];
    var left, right := ResultIds(ids, xs), ResultIds(ids, ys);
    assert ResultIds(ids[..n], xs + ys) == left + right;
    assert ResultIds(ids, xs + [n] + ys) == left + [ids[n]] + right;
  }

  /** Results emitted once per call, in any order, carry exactly the ids of the calls, duplicates included. */
  lemma {:induction false} IdsPermuted(ids: seq<nat>, order: seq<nat>)
    requires Distinct(order) && Covers(order, |ids|) && Within(order, |ids|)
    ensures multiset(ResultIds(ids, order)) == multiset(ids)
    decreases |ids|
  {
    if ids == [] {
      if order != [] { NonEmptyWithin(order, |ids|); }
    } else {
      var n := |ids| - 1;
      var p := RemoveLargest(order, |ids|);
      var xs, ys := order[..p], order[p + 1..];
      assert order == xs + [n] + ys;
      IdsPermuted(ids[..n], xs + ys);
      ResultIdsSplit(ids, xs, ys);
      assert ids == ids[..n] + [ids[n]];
    }
  }

  /** What a finished batch hands back to the loop: results whose ids are exactly the ids of its calls. */
  lemma {:induction false} BatchPairs(b: Batch, labels: seq<Label>, ids: seq<nat>)
    requires Exec(b, labels).Some? && Done(Exec(b, labels).value) && |ids| == |b.calls|
    ensures Within(Exec(b, labels).value.order, |ids|)
    ensures multiset(ResultIds(ids, Exec(b, labels).value.order)) == multiset(ids)
  {
    var s := Exec(b, labels).value;
    ReachableInv(b, labels);
    DoneCovers(b, s);
    IdsPermuted(ids, s.order);
  }
}
