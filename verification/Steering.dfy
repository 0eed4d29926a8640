/** Steering and follow-up messages: the two queues of the agent with their dequeue modes, and
    the watcher that turns a queued steer into an interrupt while tools are running. */
module Steering {

  // ---------------------------------------------------------------- the queues

  datatype Mode = All | OneAtATime

  datatype Role = UserRole | OtherRole | NoRole
  datatype Attribution = ByUser | ByAgent | OtherAttribution | NoAttribution

  datatype Message = Message(id: nat, role: Role, attribution: Attribution)

  /** What the next dequeue hands out. */
  function NextDelivery(queue: seq<Message>, mode: Mode): (d: seq<Message>)
    ensures d <= queue
    ensures |d| == if mode.All? then |queue| else if |queue| == 0 then 0 else 1
  {
    if mode == OneAtATime && |queue| > 0 then queue[..1] else queue
  }

  class AgentQueues {
    var steeringQueue: seq<Message>
    var followUpQueue: seq<Message>
    var steeringMode: Mode
    var followUpMode: Mode

    constructor (steeringMode: Mode, followUpMode: Mode)
      ensures steeringQueue == [] && followUpQueue == []
      ensures this.steeringMode == steeringMode && this.followUpMode == followUpMode
    {
      steeringQueue := [];
      followUpQueue := [];
      this.steeringMode := steeringMode;
      this.followUpMode := followUpMode;
    }

    method Steer(m: Message)
      modifies this`steeringQueue
      ensures steeringQueue == old(steeringQueue) + [m]
    {
      steeringQueue := steeringQueue + [m];
    }

    method FollowUp(m: Message)
      modifies this`followUpQueue
      ensures followUpQueue == old(followUpQueue) + [m]
    {
      followUpQueue := followUpQueue + [m];
    }

    method PopLastSteer() returns (removed: seq<Message>)
      modifies this`steeringQueue
      ensures old(steeringQueue) == steeringQueue + removed
      ensures |removed| == if old(steeringQueue) == [] then 0 else 1
    {
      if |steeringQueue| == 0 { return []; }
      removed := [steeringQueue[|steeringQueue| - 1]];
      steeringQueue := steeringQueue[..|steeringQueue| - 1];
    }

    method ReplaceQueues(steering: seq<Message>, followUp: seq<Message>)
      modifies this`steeringQueue, this`followUpQueue
      ensures steeringQueue == steering && followUpQueue == followUp
    {
      steeringQueue := steering;
      followUpQueue := followUp;
    }

    /** Nothing is lost by a dequeue, and nothing overtakes: what is handed out is the head of
        the queue, all of it or its first message, and the rest stays. */
    method DequeueSteeringMessages() returns (delivered: seq<Message>)
      modifies this`steeringQueue
      ensures delivered + steeringQueue == old(steeringQueue)
      ensures delivered == NextDelivery(old(steeringQueue), steeringMode)
    {
      if steeringMode == OneAtATime {
        if |steeringQueue| > 0 {
          var first := steeringQueue[0];
          steeringQueue := steeringQueue[1..];
          return [first];
        }
        return [];
      }
      delivered := steeringQueue;
      steeringQueue := [];
    }

    method DequeueFollowUpMessages() returns (delivered: seq<Message>)
      modifies this`followUpQueue
      ensures delivered + followUpQueue == old(followUpQueue)
      ensures delivered == NextDelivery(old(followUpQueue), followUpMode)
    {
      if followUpMode == OneAtATime {
        if |followUpQueue| > 0 {
          var first := followUpQueue[0];
          followUpQueue := followUpQueue[1..];
          return [first];
        }
        return [];
      }
      delivered := followUpQueue;
      followUpQueue := [];
    }

    /** The hooks run between the two abort checks; `arrivals` are the steers they let in. The hooks
        do not run for an empty queue. */
    method DequeueSteeringAfterHooks(abortedBefore: bool, arrivals: seq<Message>, abortedAfter: bool)
      returns (delivered: seq<Message>)
      modifies this`steeringQueue
      ensures
        var ran := !abortedBefore && old(steeringQueue) != [];
        var queued := if ran then old(steeringQueue) + arrivals else old(steeringQueue);
        && delivered + steeringQueue == queued
        && delivered == if ran && !abortedAfter then NextDelivery(queued, steeringMode) else []
    {
      if abortedBefore || |steeringQueue| == 0 { return []; }
      for i := 0 to |arrivals|
        invariant steeringQueue == old(steeringQueue) + arrivals[..i]
      {
        Steer(arrivals[i]);
      }
      assert arrivals[..|arrivals|] == arrivals;
      if abortedAfter { return []; }
      delivered := DequeueSteeringMessages();
    }
  }

  // ---------------------------------------------------------------- whole histories

  /** One thing that happens to a queue; `Replace` stands for replacing, clearing and resetting. */
  datatype QueueOp = Enqueue(m: Message) | Dequeue(mode: Mode) | PopLast | Replace(ms: seq<Message>)

  /** The queue, and everything handed out, thrown away and put in so far. */
  datatype Ledger = Ledger(
    waiting: seq<Message>, delivered: seq<Message>, dropped: multiset<Message>, entered: seq<Message>)

  function Booked(l: Ledger, op: QueueOp): Ledger {
    match op
    case Enqueue(m) => l.(waiting := l.waiting + [m], entered := l.entered + [m])
    case Dequeue(mode) =>
      var d := NextDelivery(l.waiting, mode);
      l.(waiting := l.waiting[|d|..], delivered := l.delivered + d)
    case PopLast =>
      if l.waiting == [] then l
      else l.(waiting := l.waiting[..|l.waiting| - 1],
              dropped := l.dropped + multiset{l.waiting[|l.waiting| - 1]})
    case Replace(ms) =>
      l.(waiting := ms, dropped := l.dropped + multiset(l.waiting), entered := l.entered + ms)
  }

  function History(ops: seq<QueueOp>): Ledger {
    if ops == [] then Ledger([], [], multiset{}, [])
    else Booked(History(ops[..|ops| - 1]), ops[|ops| - 1])
  }

  /** `s` is `t` with some elements left out. */
  predicate Subsequence(s: seq<Message>, t: seq<Message>) {
    if s == [] then true
    else if t == [] then false
    else if s[|s| - 1] == t[|t| - 1] && Subsequence(s[..|s| - 1], t[..|t| - 1]) then true
    else Subsequence(s, t[..|t| - 1])
  }

  lemma {:induction false} SubsequenceGrows(s: seq<Message>, t: seq<Message>, more: seq<Message>)
    requires Subsequence(s, t)
    ensures Subsequence(s, t + more) && Subsequence(s + more, t + more)
    decreases |more|
  {
    if more == [] {
      assert s + more == s && t + more == t;
    } else {
      var n := |more| - 1;
      SubsequenceGrows(s, t, more[..n]);
      assert (s + more)[..|s + more| - 1] == s + more[..n];
      assert (t + more)[..|t + more| - 1] == t + more[..n];
    }
  }

  lemma {:induction false} SubsequencePrefix(s: seq<Message>, t: seq<Message>, k: nat)
    requires Subsequence(s, t) && k <= |s|
    ensures Subsequence(s[..k], t)
    decreases |t|
  {
    if 0 < k < |s| {
      var n := |t| - 1;
      if s[|s| - 1] == t[n] && Subsequence(s[..|s| - 1], t[..n]) {
        SubsequencePrefix(s[..|s| - 1], t[..n], k);
        assert s[..|s| - 1][..k] == s[..k];
      } else {
        SubsequencePrefix(s, t[..n], k);
      }
    } else {
      assert s[..|s|] == s;
    }
  }

  lemma DeliverySplits(waiting: seq<Message>, delivered: seq<Message>, mode: Mode)
    ensures
      var d := NextDelivery(waiting, mode);
      (delivered + d) + waiting[|d|..] == delivered + waiting
  {
  }

  /** No message is duplicated or overtaken, and each one is delivered, waiting or dropped. */
  ghost predicate Accounted(l: Ledger) {
    && Subsequence(l.delivered + l.waiting, l.entered)
    && multiset(l.delivered) + multiset(l.waiting) + l.dropped == multiset(l.entered)
  }

  lemma EnqueueAccounts(l: Ledger, m: Message)
    requires Accounted(l)
    ensures Accounted(Booked(l, Enqueue(m)))
  {
    hide Subsequence;
    SubsequenceGrows(l.delivered + l.waiting, l.entered, [m]);
    assert l.delivered + (l.waiting + [m]) == (l.delivered + l.waiting) + [m];
  }

  lemma DequeueAccounts(l: Ledger, mode: Mode)
    requires Accounted(l)
    ensures Accounted(Booked(l, Dequeue(mode)))
  {
    hide Subsequence;
    DeliverySplits(l.waiting, l.delivered, mode);
    var d := NextDelivery(l.waiting, mode);
    assert l.waiting == d + l.waiting[|d|..];
  }

  lemma LastOut(delivered: seq<Message>, waiting: seq<Message>)
    requires waiting != []
    ensures
      var n := |waiting| - 1;
      && (delivered + waiting)[..|delivered| + n] == delivered + waiting[..n]
      && multiset(waiting) == multiset(waiting[..n]) + multiset{waiting[n]}
  {
    var n := |waiting| - 1;
    assert waiting == waiting[..n] + [waiting[n]];
  }

  lemma PopAccounts(l: Ledger)
    requires Accounted(l)
    ensures Accounted(Booked(l, PopLast))
  {
    hide Subsequence, NextDelivery;
    if l.waiting != [] {
      LastOut(l.delivered, l.waiting);
      SubsequencePrefix(l.delivered + l.waiting, l.entered, |l.delivered| + |l.waiting| - 1);
    }
  }

  lemma ReplaceAccounts(l: Ledger, ms: seq<Message>)
    requires Accounted(l)
    ensures Accounted(Booked(l, Replace(ms)))
  {
    hide Subsequence;
    SubsequencePrefix(l.delivered + l.waiting, l.entered, |l.delivered|);
    assert (l.delivered + l.waiting)[..|l.delivered|] == l.delivered;
    SubsequenceGrows(l.delivered, l.entered, ms);
  }

  /** In every history, in both modes and with any mix of them, the books balance. */
  lemma {:induction false} NothingLost(ops: seq<QueueOp>)
    ensures Accounted(History(ops))
  {
    if ops != [] {
      var l := History(ops[..|ops| - 1]);
      var op := ops[|ops| - 1];
      NothingLost(ops[..|ops| - 1]);
      assert History(ops) == Booked(l, op);
      hide Accounted, Booked;
      match op {
        case Enqueue(m) => EnqueueAccounts(l, m);
        case Dequeue(mode) => DequeueAccounts(l, mode);
        case PopLast => PopAccounts(l);
        case Replace(ms) => ReplaceAccounts(l, ms);
      }
    }
  }

  /** Without pops, clears and replacements, what was delivered followed by what still waits is
      exactly what was put in. */
  lemma {:induction false} FirstInFirstOut(ops: seq<QueueOp>)
    requires forall op <- ops :: op.Enqueue? || op.Dequeue?
    ensures History(ops).delivered + History(ops).waiting == History(ops).entered
  {
    if ops != [] {
      FirstInFirstOut(ops[..|ops| - 1]);
      var l := History(ops[..|ops| - 1]);
      var op := ops[|ops| - 1];
      assert op in ops;
      if op.Enqueue? {
        assert l.delivered + (l.waiting + [op.m]) == (l.delivered + l.waiting) + [op.m];
      } else {
        DeliverySplits(l.waiting, l.delivered, op.mode);
      }
    }
  }

  // ---------------------------------------------------------------- who is steering

  datatype Source = FromUser | FromAgent | FromSystem

  datatype QueueState = Empty | Queued(source: Source)

  predicate ByHuman(m: Message) {
    m.attribution == ByUser || (m.role == UserRole && m.attribution != ByAgent)
  }

  predicate ByAnAgent(m: Message) {
    m.role == UserRole && m.attribution == ByAgent
  }

  /** The non-consuming peek names the source of the very messages the next dequeue will
      hand out: a human if one of them is a human's, else an agent, else the system. */
  method HasSteeringMessages(queue: seq<Message>, mode: Mode) returns (state: QueueState)
    ensures state == Empty <==> NextDelivery(queue, mode) == []
    ensures state == Queued(FromUser) <==> exists m <- NextDelivery(queue, mode) :: ByHuman(m)
    ensures state == Queued(FromAgent) <==>
            (exists m <- NextDelivery(queue, mode) :: ByAnAgent(m)) &&
            (forall m <- NextDelivery(queue, mode) :: !ByHuman(m))
  {
    if |queue| == 0 { return Empty; }
    var messageCount := if mode == OneAtATime then 1 else |queue|;
    var hasAgentSteering := false;
    assert NextDelivery(queue, mode) == queue[..messageCount];
    for i := 0 to messageCount
      invariant hasAgentSteering <==> exists k :: 0 <= k < i && ByAnAgent(queue[k])
      invariant forall k :: 0 <= k < i ==> !ByHuman(queue[k])
    {
      var message := queue[i];
      assert NextDelivery(queue, mode)[i] == message;
      assert message in NextDelivery(queue, mode);
      if message.attribution == ByUser {
        assert ByHuman(message);
        return Queued(FromUser);
      }
      if message.role == UserRole {
        if message.attribution != ByAgent { return Queued(FromUser); }
        hasAgentSteering := true;
      }
    }
    assert forall k :: 0 <= k < messageCount ==> queue[..messageCount][k] == queue[k];
    state := Queued(if hasAgentSteering then FromAgent else FromSystem);
  }

  // ---------------------------------------------------------------- the watcher

  /** Where the event-driven watcher stands. `Checking` is suspended on the peek, whose answer was
      taken when the check began; `Asking` is suspended on the peer-interrupt callback; `Settled`
      has a finished check; `Waiting` is suspended on the wait it subscribed to before checking. */
  datatype Phase = Head | Checking(seen: bool) | Asking | Settled | Waiting | Exited

  /** `queue` is the length of the steering queue, `resolved` the state of the current wait,
      `failed` records that a check threw, `stopped` that the watch was cancelled by the end of the
      batch or an external abort. */
  datatype Watch = Watch(queue: nat, phase: Phase, resolved: bool, triggered: bool, failed: bool, stopped: bool)

  datatype Label =
    | Advance(peer: bool)    // the watcher runs to its next suspension
    | CheckThrows            // the peer-interrupt callback rejects
    | Arrive                 // a steer
    | Pop                    // the last steer is taken back, without a notification
    | Refill(size: nat)      // clear, reset or replace, with a notification
    | OtherTrigger           // another check of the batch, or the peer timer, triggers
    | Cancel

  function Start(queue: nat): Watch {
    Watch(queue, Head, false, false, false, false)
  }

  predicate Enabled(s: Watch, l: Label) {
    match l
    case Advance(_) => s.phase != Exited && (s.phase == Waiting ==> s.resolved || s.stopped)
    case CheckThrows => s.phase == Asking
    case Arrive => true
    case Pop => true
    case Refill(_) => true
    case OtherTrigger => true
    case Cancel => true
  }

  /** What the watcher does when it runs. It subscribes and peeks in one go, in this order. */
  function Advanced(s: Watch, peer: bool): Watch {
    if s.stopped then s.(phase := Exited)
    else
      match s.phase
      case Head => s.(resolved := s.queue > 0, phase := Checking(s.queue > 0))
      case Checking(seen) =>
        if seen then s.(triggered := true, phase := Settled)
        else if s.triggered then s.(phase := Settled)
        else s.(phase := Asking)
      case Asking => s.(triggered := s.triggered || peer, phase := Settled)
      case Settled => s.(phase := if s.triggered then Exited else Waiting)
      case Waiting => s.(phase := Head)
      case Exited => s
  }

  function Step(s: Watch, l: Label): Watch
    requires Enabled(s, l)
  {
    match l
    case Advance(peer) => Advanced(s, peer)
    case CheckThrows => s.(phase := Exited, failed := true)
    case Arrive => s.(queue := s.queue + 1, resolved := true)
    case Pop => s.(queue := if s.queue == 0 then 0 else s.queue - 1)
    case Refill(size) => s.(queue := size, resolved := true)
    case OtherTrigger => s.(triggered := true)
    case Cancel => s.(stopped := true)
  }

  /** The states of a run, every label enabled where it happens. */
  predicate Run(s: Watch, labels: seq<Label>)
    decreases |labels|
  {
    labels == [] || (Enabled(s, labels[0]) && Run(Step(s, labels[0]), labels[1..]))
  }

  function After(s: Watch, labels: seq<Label>): Watch
    requires Run(s, labels)
    decreases |labels|
  {
    if labels == [] then s else After(Step(s, labels[0]), labels[1..])
  }

  /** A queued steer is taken care of: the interrupt is out, the watch is over, or the watcher has
      the peek before it, has seen the steer, or has a wait that is already resolved. */
  predicate Attended(s: Watch) {
    || s.triggered || s.stopped
    || s.phase == Head || s.phase == Checking(true)
    || (s.phase != Exited && s.resolved)
  }

  predicate WatchInv(s: Watch) {
    && (s.queue > 0 && !s.failed ==> Attended(s))
    && (s.phase == Exited ==> s.triggered || s.stopped || s.failed)
    && (s.failed ==> s.phase == Exited)
    && (s.phase == Checking(true) ==> s.resolved)
  }

  lemma StepKeepsWatch(s: Watch, l: Label)
    requires WatchInv(s) && Enabled(s, l)
    ensures WatchInv(Step(s, l))
  {
  }

  lemma {:induction false} WatchKept(s: Watch, labels: seq<Label>)
    requires WatchInv(s) && Run(s, labels)
    ensures WatchInv(After(s, labels))
    decreases |labels|
  {
    if labels != [] {
      StepKeepsWatch(s, labels[0]);
      WatchKept(Step(s, labels[0]), labels[1..]);
    }
  }

  /** In every reachable state, with pops, clears and replacements allowed, a non-empty steering
      queue is attended, unless a peer-interrupt callback has thrown inside a check. */
  lemma SteerAttended(queue: nat, labels: seq<Label>)
    requires Run(Start(queue), labels)
    ensures
      var s := After(Start(queue), labels);
      s.queue > 0 && !s.failed ==> Attended(s)
  {
    WatchKept(Start(queue), labels);
  }

  /** The exception is exact: in a reachable state whose interrupt is not out and whose watch is not
      over, the next steer is attended if and only if no check has thrown. After a throw, no
      step of the watcher is left. */
  lemma AttendedExactly(queue: nat, labels: seq<Label>)
    requires Run(Start(queue), labels)
    ensures
      var s := After(Start(queue), labels);
      !s.triggered && !s.stopped ==>
        && (Attended(Step(s, Arrive)) <==> !s.failed)
        && (s.failed ==> forall peer :: !Enabled(Step(s, Arrive), Advance(peer)))
  {
    WatchKept(Start(queue), labels);
  }

  /** Such a run: the first check finds nothing, its peer-interrupt callback throws, and the steer that then arrives waits
      with nobody to see it. */
  lemma ThrownCheckStrandsSteer()
    ensures
      var labels := [Advance(false), Advance(false), CheckThrows, Arrive];
      Run(Start(0), labels) && After(Start(0), labels).queue == 1 && !Attended(After(Start(0), labels))
  {
    var s1 := Step(Start(0), Advance(false));
    var s2 := Step(s1, Advance(false));
    var s3 := Step(s2, CheckThrows);
    var s4 := Step(s3, Arrive);
    var labels := [Advance(false), Advance(false), CheckThrows, Arrive];
    assert labels[1..] == [Advance(false), CheckThrows, Arrive];
    assert labels[1..][1..] == [CheckThrows, Arrive] && [CheckThrows, Arrive][1..] == [Arrive] && [Arrive][1..] == [];
    assert Run(s4, []) && After(s4, []) == s4;
    assert Run(s3, [Arrive]) && After(s3, [Arrive]) == s4;
    assert Run(s2, [CheckThrows, Arrive]) && After(s2, [CheckThrows, Arrive]) == s4;
    assert Run(s1, labels[1..]) && After(s1, labels[1..]) == s4;
  }

  /** A step that sets off the interrupt: another check of the batch does, or the watcher has seen a steer, or the peer
      callback it asked says yes. */
  predicate Triggers(s: Watch, l: Label) {
    match l
    case OtherTrigger => true
    case Advance(peer) => !s.stopped && (s.phase == Checking(true) || (s.phase == Asking && peer))
    case _ => false
  }

  lemma {:induction false} RunPrefix(s: Watch, labels: seq<Label>, k: nat)
    requires Run(s, labels) && k <= |labels|
    ensures Run(s, labels[..k])
    decreases k
  {
    if k > 0 {
      RunPrefix(Step(s, labels[0]), labels[1..], k - 1);
      assert labels[..k][1..] == labels[1..][..k - 1];
    }
  }

  /** The interrupt is out after a run exactly when it was out before, or some step of the run set it off in the state
      it found: no such step is ignored, and no other raises it. */
  lemma {:induction false} TriggeredExactly(s: Watch, labels: seq<Label>)
    requires Run(s, labels)
    ensures After(s, labels).triggered <==>
            s.triggered ||
            exists k | 0 <= k < |labels| :: Run(s, labels[..k]) && Triggers(After(s, labels[..k]), labels[k])
    decreases |labels|
  {
    if labels != [] {
      var t, rest := Step(s, labels[0]), labels[1..];
      TriggeredExactly(t, rest);
      assert labels[..0] == [];
      if exists k | 0 <= k < |rest| :: Run(t, rest[..k]) && Triggers(After(t, rest[..k]), rest[k]) {
        var k :| 0 <= k < |rest| && Run(t, rest[..k]) && Triggers(After(t, rest[..k]), rest[k]);
        ShiftedStep(s, labels, k);
        assert Run(s, labels[..k + 1]) && Triggers(After(s, labels[..k + 1]), labels[k + 1]);
      }
      if exists k | 1 <= k < |labels| :: Run(s, labels[..k]) && Triggers(After(s, labels[..k]), labels[k]) {
        var k :| 1 <= k < |labels| && Run(s, labels[..k]) && Triggers(After(s, labels[..k]), labels[k]);
        RunPrefix(t, rest, k - 1);
        ShiftedStep(s, labels, k - 1);
        assert Run(t, rest[..k - 1]) && Triggers(After(t, rest[..k - 1]), rest[k - 1]);
      }
      FirstStep(s, labels[0]);
    }
  }

  lemma FirstStep(s: Watch, l: Label)
    requires Enabled(s, l)
    ensures Step(s, l).triggered <==> s.triggered || Triggers(s, l)
  {
  }

  lemma ShiftedStep(s: Watch, labels: seq<Label>, k: nat)
    requires Run(s, labels) && k < |labels| - 1 && Run(Step(s, labels[0]), labels[1..][..k])
    ensures Run(s, labels[..k + 1]) && After(s, labels[..k + 1]) == After(Step(s, labels[0]), labels[1..][..k])
    ensures labels[1..][k] == labels[k + 1]
  {
    assert labels[..k + 1][1..] == labels[1..][..k] && labels[..k + 1][0] == labels[0];
  }

  /** Runs of the watcher that are left before an attended steer is an interrupt. */
  function Distance(s: Watch): nat {
    if s.triggered then 0
    else match s.phase
      case Checking(seen) => if seen then 1 else 6
      case Head => 2
      case Waiting => 3
      case Settled => 4
      case Asking => 5
      case Exited => 7
  }

  function Advances(labels: seq<Label>): nat {
    if labels == [] then 0 else (if labels[0].Advance? then 1 else 0) + Advances(labels[1..])
  }

  /** While the queue is only added to, an attended steer becomes an interrupt within six runs of
      the watcher, whatever else arrives in between. */
  lemma {:induction false} SteerReachesInterrupt(s: Watch, labels: seq<Label>)
    requires Run(s, labels) && WatchInv(s)
    requires s.queue > 0 && Attended(s) && !s.stopped && !s.failed
    requires forall l <- labels :: l.Advance? || l.Arrive? || l.OtherTrigger?
    requires Advances(labels) >= Distance(s)
    ensures After(s, labels).triggered
    ensures Distance(s) <= 6
    decreases |labels|
  {
    if labels != [] {
      var l := labels[0];
      assert l in labels;
      StepKeepsWatch(s, l);
      SteerReachesInterrupt(Step(s, l), labels[1..]);
    }
  }
}
