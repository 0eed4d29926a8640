/** What a tool batch does with each call, read off its schedule: whether the tool is executed at all, and the exact
    result that the model is shown. */
module ToolOutcome {
  import opened Wrappers
  import opened ToolBatch

  // ---------------------------------------------------------------- moments of a schedule

  datatype Kind = Beginning | Faulting | Entering | Launching | Ending | Hooking | Closing | Sweeping | Other

  function KindOf(act: Act): Kind {
    match act
    case Begin => Beginning
    case Inherit => Faulting
    case Crash => Faulting
    case Enter => Entering
    case Launch(_) => Launching
    case Return(_, _) => Ending
    case Throw => Ending
    case Hook(_) => Hooking
    case Finish => Closing
    case Sweep => Sweeping
    case Settle(_) => Other
  }

  /** The act of a call at one moment, and what had been signalled by then: whether an interrupt had arrived, and whether
      the call's own signal was raised, by the run's abort or, for an interruptible call, by an interrupt. */
  datatype Moment = Moment(act: Act, interrupted: bool, raised: bool)

  /** When call `i` last did an act of this kind. */
  function MomentOf(b: Batch, labels: seq<Label>, i: nat, kind: Kind): Option<Moment>
    requires i < |b.calls|
  {
    if labels == [] then None
    else
      var before := labels[..|labels| - 1];
      match labels[|labels| - 1]
      case Task(k, act) =>
        if k == i && KindOf(act) == kind then
          Some(Moment(act, Interrupt in before,
                      ExternalAbort in before || (b.calls[i].interruptible && Interrupt in before)))
        else MomentOf(b, before, i, kind)
      case _ => MomentOf(b, before, i, kind)
  }

  /** The moments of a call. */
  datatype Story = Story(
    begin: Option<Moment>, fault: Option<Moment>, enter: Option<Moment>, launch: Option<Moment>, end: Option<Moment>,
    hook: Option<Moment>, close: Option<Moment>, sweep: Option<Moment>)

  function StoryOf(b: Batch, labels: seq<Label>, i: nat): Story
    requires i < |b.calls|
  {
    Story(MomentOf(b, labels, i, Beginning), MomentOf(b, labels, i, Faulting), MomentOf(b, labels, i, Entering),
          MomentOf(b, labels, i, Launching), MomentOf(b, labels, i, Ending), MomentOf(b, labels, i, Hooking),
          MomentOf(b, labels, i, Closing), MomentOf(b, labels, i, Sweeping))
  }

  // ---------------------------------------------------------------- what is due

  /** A call may run its tool when its arguments are valid, a tool was found and the pre-call hook let it pass. */
  predicate MayRun(c: Call) {
    !c.invalid && c.hasTool && !c.refused
  }

  /** The tool is executed: the call may run, no host callback threw, and its signal was raised neither when it was entered
      nor when its tool was about to start. */
  predicate Executes(c: Call, t: Story) {
    && MayRun(c) && t.enter.Some? && !t.enter.value.raised
    && t.launch.Some? && t.launch.value.act == Launch(false) && !t.launch.value.raised
  }

  /** The call never got to its own result: an interrupt was pending when an interruptible call began, or its task was
      rejected before. */
  predicate LeftOut(c: Call, t: Story) {
    (t.begin.Some? && t.begin.value.interrupted && c.interruptible) || t.fault.Some?
  }

  /** What the attempt at a call has come to: its payload, whether it is an error, whether the tool completed, whether it
      was executed, and whether the after-call hook still gets to see it. */
  datatype Attempt = Attempt(payload: Payload, isError: bool, completed: bool, executed: bool, hooked: bool)

  /** The attempt, from the launch of the call and what ended its execution. A missing tool comes before a raised signal,
      and that before a refusal or a callback that throws. */
  function Made(c: Call, launch: Moment, end: Option<Moment>): Attempt
    requires launch.act.Launch?
  {
    if !c.hasTool then Attempt(ErrorText, true, false, false, true)
    else if launch.raised then Attempt(AbortText, true, false, false, false)
    else if c.refused || launch.act.throws then Attempt(ErrorText, true, false, false, true)
    else if end.Some? && end.value.act.Return?
    then Attempt(Output(end.value.act.value), end.value.act.isError, true, true, true)
    else Attempt(ErrorText, true, false, true, true)
  }

  /** The hook may replace the result, unless the signal cut the attempt short. */
  function AfterHook(hasHook: bool, a: Attempt, hook: Option<Moment>): Attempt {
    if hook.None? || !hook.value.act.Hook? || !a.hooked || !hasHook || (hook.value.raised && !a.completed) then a
    else match hook.value.act.outcome
      case Keep => a
      case Replace(value, isError) => a.(payload := Output(value), isError := isError)
      case HookThrows => a.(payload := ErrorText, isError := true)
  }

  /** The attempt was cut short by an interrupt. */
  predicate CutShort(a: Attempt, close: Moment) {
    close.interrupted && close.raised && a.isError && !a.completed
  }

  /** The attempt that is shown when the call finishes. */
  function Finished(b: Batch, c: Call, t: Story): Option<Attempt> {
    if t.close.Some? && t.launch.Some? && t.launch.value.act.Launch?
    then Some(AfterHook(b.hasHook, Made(c, t.launch.value, t.end), t.hook))
    else None
  }

  /** The result a call is due after its story so far, if it is due one yet. */
  function DueResult(b: Batch, c: Call, t: Story): Option<Result> {
    if t.sweep.Some? then Some(Placeholder(false))
    else if t.enter.None? then None
    else if c.invalid then Some(Real(InvalidText, true))
    else if t.enter.value.raised then Some(Real(AbortText, true))
    else match Finished(b, c, t)
      case None => None
      case Some(a) => Some(if CutShort(a, t.close.value) then Placeholder(a.executed) else Real(a.payload, a.isError))
  }

  // ---------------------------------------------------------------- the record of a call agrees with its story

  predicate Launches(c: Call, t: Story) {
    !c.invalid && t.enter.Some? && !t.enter.value.raised && t.launch.Some? && t.launch.value.act.Launch?
  }

  predicate Kept(p: Phase, a: Attempt)
    requires p.Returned? || p.Finishing?
  {
    p.payload == a.payload && p.isError == a.isError && p.completed == a.completed && p.executed == a.executed
  }

  /** How far along the call is. */
  predicate PhaseTold(b: Batch, c: Call, r: Record, t: Story) {
    match r.phase
    case Waiting => t == Story(None, None, None, None, None, None, None, None)
    case Gate => t == Story(t.begin, None, None, None, None, None, None, None) && t.begin.Some? && !LeftOut(c, t)
    case Starting =>
      && !c.invalid && t.enter.Some? && !t.enter.value.raised && !LeftOut(c, t)
      && t == Story(t.begin, None, t.enter, None, None, None, None, None)
    case Executing =>
      Executes(c, t) && !LeftOut(c, t) && t == Story(t.begin, None, t.enter, t.launch, None, None, None, None)
    case Returned(_, _, _, _) =>
      && Launches(c, t) && !LeftOut(c, t) && t == Story(t.begin, None, t.enter, t.launch, t.end, None, None, None)
      && Made(c, t.launch.value, t.end).hooked && Kept(r.phase, Made(c, t.launch.value, t.end))
    case Finishing(_, _, _, _) =>
      && Launches(c, t) && !LeftOut(c, t) && t == Story(t.begin, None, t.enter, t.launch, t.end, t.hook, None, None)
      && Kept(r.phase, AfterHook(b.hasHook, Made(c, t.launch.value, t.end), t.hook))
    case Polling => r.emitted.Some? && !LeftOut(c, t)
    case _ => r.emitted.None? ==> LeftOut(c, t) && t.launch.None? && t.close.None?
  }

  predicate Told(b: Batch, c: Call, r: Record, t: Story) {
    && r.emitted == DueResult(b, c, t)
    && (t.end.Some? ==> t.end.value.act.Return? || t.end.value.act.Throw?)
    && (t.end.Some? ==> Executes(c, t))
    && (Executes(c, t) ==> t.end.Some? || r.phase.Executing?)
    && (r.output.Some? <==> t.end.Some? && t.end.value.act.Return?)
    && (r.emitted.Some? ==> (t.sweep.Some? <==> LeftOut(c, t)))
    && (LeftOut(c, t) ==> t.launch.None? && (t.enter.Some? ==> !c.invalid && !t.enter.value.raised))
    && PhaseTold(b, c, r, t)
  }

  /** The story after one more act. */
  function Add(t: Story, m: Moment): Story {
    match KindOf(m.act)
    case Beginning => t.(begin := Some(m))
    case Faulting => t.(fault := Some(m))
    case Entering => t.(enter := Some(m))
    case Launching => t.(launch := Some(m))
    case Ending => t.(end := Some(m))
    case Hooking => t.(hook := Some(m))
    case Closing => t.(close := Some(m))
    case Sweeping => t.(sweep := Some(m))
    case Other => t
  }

  lemma HookTold(b: Batch, c: Call, aborted: bool, triggered: bool, r: Record, act: Act, t: Story)
    requires Quiet(act) && PhaseAllows(r.phase, act) && RecordOk(r) && Told(b, c, r, t)
    requires act.Hook?
    ensures Told(b, c, Advance(b.hasHook, c, aborted, triggered, r, act), Add(t, Moment(act, triggered, aborted)))
  {
    hide MayRun, RecordOk;
  }

  lemma LaunchTold(b: Batch, c: Call, aborted: bool, triggered: bool, r: Record, act: Act, t: Story)
    requires Quiet(act) && PhaseAllows(r.phase, act) && RecordOk(r) && Told(b, c, r, t)
    requires act.Launch?
    ensures Told(b, c, Advance(b.hasHook, c, aborted, triggered, r, act), Add(t, Moment(act, triggered, aborted)))
  {
    hide RecordOk;
  }

  lemma EndTold(b: Batch, c: Call, aborted: bool, triggered: bool, r: Record, act: Act, t: Story)
    requires Quiet(act) && PhaseAllows(r.phase, act) && RecordOk(r) && Told(b, c, r, t)
    requires act.Return? || act.Throw?
    ensures Told(b, c, Advance(b.hasHook, c, aborted, triggered, r, act), Add(t, Moment(act, triggered, aborted)))
  {
    hide AfterHook;
  }

  lemma TaskTold(b: Batch, c: Call, aborted: bool, triggered: bool, r: Record, act: Act, t: Story)
    requires Quiet(act) && PhaseAllows(r.phase, act) && RecordOk(r) && Told(b, c, r, t)
    requires !act.Hook? && !act.Launch? && !act.Return? && !act.Throw?
    ensures Told(b, c, Advance(b.hasHook, c, aborted, triggered, r, act), Add(t, Moment(act, triggered, aborted)))
  {
    hide Made, AfterHook, Kept, MayRun;
  }

  lemma QuietTold(b: Batch, c: Call, aborted: bool, triggered: bool, r: Record, act: Act, t: Story)
    requires Quiet(act) && PhaseAllows(r.phase, act) && RecordOk(r) && Told(b, c, r, t)
    ensures Told(b, c, Advance(b.hasHook, c, aborted, triggered, r, act), Add(t, Moment(act, triggered, aborted)))
  {
    hide Told, Add, Advance, RecordOk;
    if act.Hook? {
      HookTold(b, c, aborted, triggered, r, act, t);
    } else if act.Launch? {
      LaunchTold(b, c, aborted, triggered, r, act, t);
    } else if act.Return? || act.Throw? {
      EndTold(b, c, aborted, triggered, r, act, t);
    } else {
      TaskTold(b, c, aborted, triggered, r, act, t);
    }
  }

  lemma EnterTold(b: Batch, s: State, i: nat, t: Story)
    requires |s.records| == |b.calls| && i < |b.calls| && ActEnabled(b, s, i, Enter)
    requires RecordOk(s.records[i]) && Told(b, b.calls[i], s.records[i], t)
    ensures Told(b, b.calls[i], ActStep(b, s, i, Enter).records[i],
                 Add(t, Moment(Enter, s.triggered, SignalAborted(b, s, i))))
  {
    hide Made, AfterHook, Kept, SignalAborted;
  }

  lemma FinishTold(b: Batch, s: State, i: nat, t: Story)
    requires |s.records| == |b.calls| && i < |b.calls| && ActEnabled(b, s, i, Finish)
    requires RecordOk(s.records[i]) && Told(b, b.calls[i], s.records[i], t)
    ensures Told(b, b.calls[i], ActStep(b, s, i, Finish).records[i],
                 Add(t, Moment(Finish, s.triggered, SignalAborted(b, s, i))))
  {
    hide Made, AfterHook, SignalAborted, MayRun;
  }

  lemma SweepTold(b: Batch, s: State, i: nat, t: Story)
    requires |s.records| == |b.calls| && i < |b.calls| && ActEnabled(b, s, i, Sweep)
    requires RecordOk(s.records[i]) && Told(b, b.calls[i], s.records[i], t)
    ensures Told(b, b.calls[i], ActStep(b, s, i, Sweep).records[i],
                 Add(t, Moment(Sweep, s.triggered, SignalAborted(b, s, i))))
  {
    hide Made, AfterHook, Kept, SignalAborted, SweepEnabled;
    assert s.records[i].emitted.None? by { SweepsUnshown(s, i); }
  }

  lemma SweepsUnshown(s: State, i: nat)
    requires i < |s.records| && SweepEnabled(s, i)
    ensures s.records[i].emitted.None?
  {
  }

  lemma ActTold(b: Batch, s: State, i: nat, act: Act, t: Story)
    requires |s.records| == |b.calls| && i < |b.calls| && ActEnabled(b, s, i, act)
    requires RecordOk(s.records[i]) && Told(b, b.calls[i], s.records[i], t)
    ensures Told(b, b.calls[i], ActStep(b, s, i, act).records[i],
                 Add(t, Moment(act, s.triggered, SignalAborted(b, s, i))))
  {
    hide Told, Add, Advance;
    if Quiet(act) {
      QuietTold(b, b.calls[i], SignalAborted(b, s, i), s.triggered, s.records[i], act, t);
    } else {
      match act
      case Enter => EnterTold(b, s, i, t);
      case Finish => FinishTold(b, s, i, t);
      case Sweep => SweepTold(b, s, i, t);
    }
  }

  lemma StoryGrows(b: Batch, before: seq<Label>, i: nat, act: Act)
    requires i < |b.calls|
    ensures StoryOf(b, before + [Task(i, act)], i) ==
            Add(StoryOf(b, before, i),
                Moment(act, Interrupt in before,
                       ExternalAbort in before || (b.calls[i].interruptible && Interrupt in before)))
  {
    assert (before + [Task(i, act)])[..|before|] == before;
  }

  lemma OtherStory(b: Batch, before: seq<Label>, l: Label, i: nat)
    requires i < |b.calls| && (l.Task? ==> l.i != i)
    ensures StoryOf(b, before + [l], i) == StoryOf(b, before, i)
  {
    assert (before + [l])[..|before|] == before;
  }

  lemma StepSignals(b: Batch, s: State, l: Label)
    requires |s.records| == |b.calls| && Enabled(b, s, l)
    ensures Step(b, s, l).external == (s.external || l.ExternalAbort?)
    ensures Step(b, s, l).triggered == (s.triggered || l.Interrupt?)
  {
    hide Advance, Emitted;
    EmitSignals(s);
  }

  lemma EmitSignals(s: State)
    ensures forall i: nat, result, phase | i < |s.records| ::
              Emitted(s, i, result, phase).external == s.external && Emitted(s, i, result, phase).triggered == s.triggered
  {
  }

  lemma {:induction false} SignalsHeard(b: Batch, labels: seq<Label>)
    requires Exec(b, labels).Some?
    ensures var s := Exec(b, labels).value;
      (s.external <==> ExternalAbort in labels) && (s.triggered <==> Interrupt in labels)
    decreases |labels|
  {
    if labels != [] {
      var before, l := labels[..|labels| - 1], labels[|labels| - 1];
      SignalsHeard(b, before);
      hide Step, Enabled;
      StepSignals(b, Exec(b, before).value, l);
      assert labels == before + [l];
    }
  }

  lemma {:induction false} ToldBySchedule(b: Batch, labels: seq<Label>, i: nat)
    requires Exec(b, labels).Some? && i < |b.calls|
    ensures Told(b, b.calls[i], Exec(b, labels).value.records[i], StoryOf(b, labels, i))
    decreases |labels|
  {
    if labels != [] {
      hide Told, StoryOf, Add, ActStep, CallOk;
      var before, l := labels[..|labels| - 1], labels[|labels| - 1];
      assert labels == before + [l];
      var s := Exec(b, before).value;
      ToldBySchedule(b, before, i);
      SignalsHeard(b, before);
      if l.Task? {
        ReachableInv(b, before);
        RecordFine(b, s, l.i);
        ActIsLocal(b, s, l.i, l.act);
        if l.i == i {
          ActTold(b, s, i, l.act, StoryOf(b, before, i));
          StoryGrows(b, before, i, l.act);
        } else {
          OtherStory(b, before, l, i);
        }
      } else {
        OtherStory(b, before, l, i);
      }
    } else {
      NothingTold(b, i);
    }
  }

  lemma NothingTold(b: Batch, i: nat)
    requires i < |b.calls|
    ensures Told(b, b.calls[i], Init(b).records[i], StoryOf(b, [], i))
  {
  }

  lemma RecordFine(b: Batch, s: State, i: nat)
    requires |s.records| == |b.calls| && i < |b.calls| && Inv(b, s)
    ensures RecordOk(s.records[i])
  {
    assert CallOk(b, s, i);
  }

  // ---------------------------------------------------------------- what every schedule does

  /** Every call is shown exactly the result its schedule makes due, and nothing before that. */
  lemma ResultDue(b: Batch, labels: seq<Label>, i: nat)
    requires Exec(b, labels).Some? && i < |b.calls|
    ensures Exec(b, labels).value.records[i].emitted == DueResult(b, b.calls[i], StoryOf(b, labels, i))
  {
    ToldBySchedule(b, labels, i);
  }

  /** The tool of a call returns or throws only if it was executed, and once its task is settled it did exactly then: the
      call is valid, has a tool and was not refused, no callback threw, and its signal was down when it was entered and when
      its tool was about to start. It has an output exactly when its tool returned. */
  lemma RunsExactly(b: Batch, labels: seq<Label>, i: nat)
    requires Exec(b, labels).Some? && i < |b.calls|
    ensures var r := Exec(b, labels).value.records[i]; var t := StoryOf(b, labels, i);
      && (t.end.Some? ==> Executes(b.calls[i], t))
      && (Settled(r) ==> (t.end.Some? <==> Executes(b.calls[i], t)))
      && (r.output.Some? <==> t.end.Some? && t.end.value.act.Return?)
  {
    ToldBySchedule(b, labels, i);
  }

  /** A call that is invalid, has no tool or was refused is never executed: no schedule holds an end of its tool, it has no
      output, and what it is shown is a placeholder or an error, unless the after-call hook replaced that; an invalid call
      that is entered gets the validation error. */
  lemma BarredNeverRuns(b: Batch, labels: seq<Label>, i: nat)
    requires Exec(b, labels).Some? && i < |b.calls| && !MayRun(b.calls[i])
    ensures var r := Exec(b, labels).value.records[i]; var t := StoryOf(b, labels, i);
      && t.end.None? && r.output.None?
      && (r.emitted.Some? && r.emitted.value.Real? && !r.emitted.value.isError ==>
            b.hasHook && t.hook.Some? && t.hook.value.act.Hook? && t.hook.value.act.outcome.Replace?)
      && (b.calls[i].invalid && t.enter.Some? ==> r.emitted == Some(Real(InvalidText, true)))
  {
    hide StoryOf, Exec, Told;
    ToldBySchedule(b, labels, i);
    BarredRecord(b, b.calls[i], Exec(b, labels).value.records[i], StoryOf(b, labels, i));
  }

  lemma BarredRecord(b: Batch, c: Call, r: Record, t: Story)
    requires Told(b, c, r, t) && !MayRun(c)
    ensures t.end.None? && r.output.None?
    ensures r.emitted.Some? && r.emitted.value.Real? && !r.emitted.value.isError ==>
              b.hasHook && t.hook.Some? && t.hook.value.act.Hook? && t.hook.value.act.outcome.Replace?
    ensures c.invalid && t.enter.Some? ==> r.emitted == Some(Real(InvalidText, true))
  {
    hide PhaseTold;
    if c.invalid && t.enter.Some? { InvalidShown(b, c, r, t); }
  }

  lemma InvalidShown(b: Batch, c: Call, r: Record, t: Story)
    requires Told(b, c, r, t) && c.invalid && t.enter.Some?
    ensures r.emitted == Some(Real(InvalidText, true))
  {
  }

  /** A call whose signal was raised before it was entered, or before its tool was to start, is never executed. */
  lemma RaisedNeverRuns(b: Batch, labels: seq<Label>, i: nat)
    requires Exec(b, labels).Some? && i < |b.calls|
    requires var t := StoryOf(b, labels, i);
      (t.enter.Some? && t.enter.value.raised) || (t.launch.Some? && t.launch.value.raised)
    ensures StoryOf(b, labels, i).end.None? && Exec(b, labels).value.records[i].output.None?
  {
    ToldBySchedule(b, labels, i);
  }

  /** A result is the interrupt placeholder exactly when the call was left out, or finished after an interrupt with its
      signal raised and an error from a tool that had not completed; it says whether the tool had been executed. */
  lemma PlaceholderExactly(b: Batch, labels: seq<Label>, i: nat)
    requires Exec(b, labels).Some? && i < |b.calls| && Exec(b, labels).value.records[i].emitted.Some?
    ensures var result := Exec(b, labels).value.records[i].emitted.value;
      var c, t := b.calls[i], StoryOf(b, labels, i);
      var a := Finished(b, c, t);
      && (result.Placeholder? <==>
            LeftOut(c, t) ||
            (!c.invalid && t.enter.Some? && !t.enter.value.raised && a.Some? && CutShort(a.value, t.close.value)))
      && (result.Placeholder? ==> (result.executed <==> Executes(c, t)))
  {
    ToldBySchedule(b, labels, i);
  }
}
