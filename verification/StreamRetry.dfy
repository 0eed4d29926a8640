/** The retrying stream: attempts whose credential is refused are replayed with the next bearer, behind an outer
    event stream that should show only the last attempt. */
module StreamRetry {
  import opened Wrappers
  import opened AuthRetry

  /** Events of one provider stream; `Done` and `Error` are terminal. */
  datatype Event =
    | Start(n: nat)
    | Update(n: nat)
    | Done(n: nat)
    | Error(n: nat, refused: Option<Failure>)

  predicate Terminal(e: Event) {
    e.Done? || e.Error?
  }

  /** How a stream ends after its events: with a result, with an iterator that throws, or with a result promise
      that rejects. `refused` classifies the error as a retryable authentication failure. */
  datatype End = Ends(n: nat) | Throws(n: nat, refused: Option<Failure>) | Rejects(n: nat, refused: Option<Failure>)

  datatype Inner = Inner(events: seq<Event>, end: End)

  /** How the outer stream was closed. */
  datatype Ending = Open | Closed | EndedWith(n: nat) | FailedWith(n: nat)

  datatype Shown = Shown(events: seq<Event>, ending: Ending)

  class EventStream {
    var events: seq<Event>
    var ending: Ending

    function Abs(): Shown
      reads this
    {
      Shown(events, ending)
    }

    constructor ()
      ensures Abs() == Shown([], Open)
    {
      events, ending := [], Open;
    }

    /** A closed stream ignores further events. */
    method Push(e: Event)
      modifies this
      ensures Abs() == Pushed(old(Abs()), [e])
    {
      OneEvent(e);
      if !ending.Open? { return; }
      if Terminal(e) { ending := Closed; }
      events := events + [e];
    }

    method PushAll(es: seq<Event>)
      modifies this
      ensures Abs() == Pushed(old(Abs()), es)
    {
      for i := 0 to |es|
        invariant Abs() == Pushed(old(Abs()), es[..i])
      {
        PushedSnoc(old(Abs()), es[..i], es[i]);
        assert es[..i + 1] == es[..i] + [es[i]];
        Push(es[i]);
      }
      assert es[..|es|] == es;
    }

    method Finish(how: Ending)
      requires !how.Open?
      modifies this
      ensures Abs() == if old(ending).Open? then old(Abs()).(ending := how) else old(Abs())
    {
      if ending.Open? { ending := how; }
    }
  }

  /** Events up to the first terminal one. */
  function UpToTerminal(es: seq<Event>): (r: seq<Event>) {
    if es == [] then []
    else if Terminal(es[0]) then [es[0]]
    else [es[0]] + UpToTerminal(es[1..])
  }

  predicate HasTerminal(es: seq<Event>) {
    exists e | e in es :: Terminal(e)
  }

  function Pushed(s: Shown, es: seq<Event>): Shown {
    if !s.ending.Open? then s
    else Shown(s.events + UpToTerminal(es), if HasTerminal(es) then Closed else Open)
  }

  lemma {:induction false} UpToTerminalSnoc(es: seq<Event>, e: Event)
    ensures UpToTerminal(es + [e]) == if HasTerminal(es) then UpToTerminal(es) else es + [e]
    ensures !HasTerminal(es) ==> UpToTerminal(es) == es
  {
    if es != [] {
      assert (es + [e])[1..] == es[1..] + [e];
      UpToTerminalSnoc(es[1..], e);
      if Terminal(es[0]) { assert es[0] in es; }
    }
  }

  lemma PushedSnoc(s: Shown, es: seq<Event>, e: Event)
    ensures Pushed(s, es + [e]) == Pushed(Pushed(s, es), [e])
  {
    UpToTerminalSnoc(es, e);
    assert HasTerminal(es + [e]) <==> HasTerminal(es) || Terminal(e) by {
      if HasTerminal(es) {
        var x :| x in es && Terminal(x);
        assert x in es + [e];
      }
      assert e in es + [e];
    }
    OneEvent(e);
  }

  lemma OneEvent(e: Event)
    ensures UpToTerminal([e]) == [e] && (HasTerminal([e]) <==> Terminal(e))
  {
  }

  // ---------------------------------------------------------------- one attempt

  /** What a consumer of the attempt alone would see. */
  function Observed(inner: Inner): Shown {
    if HasTerminal(inner.events) then Shown(UpToTerminal(inner.events), Closed)
    else Shown(inner.events, if inner.end.Ends? then EndedWith(inner.end.n) else FailedWith(inner.end.n))
  }

  /** The index of the first event that is not a start. */
  function Lead(es: seq<Event>): (k: nat)
    ensures k <= |es| && (forall i | 0 <= i < k :: es[i].Start?) && (k < |es| ==> !es[k].Start?)
  {
    if es != [] && es[0].Start? then 1 + Lead(es[1..]) else 0
  }

  /** The refusal an attempt ends in before any event other than a start: the only ground for a retry. */
  function Refusal(inner: Inner): Option<Failure> {
    var k := Lead(inner.events);
    if k < |inner.events| then
      (if inner.events[k].Error? then inner.events[k].refused else None)
    else if inner.end.Ends? then None
    else inner.end.refused
  }

  /** The attempt fails with `f`, as an error event or in its end, and showed nothing but starts before that. */
  predicate RefusedAfter(inner: Inner, k: nat, f: Failure) {
    && k <= |inner.events| && (forall i | 0 <= i < k :: inner.events[i].Start?)
    && (if k < |inner.events| then inner.events[k].Error? && inner.events[k].refused == Some(f)
        else !inner.end.Ends? && inner.end.refused == Some(f))
  }

  /** An attempt is a ground for a retry exactly when it is refused and had shown nothing but starts. */
  lemma {:induction false} RefusalExactly(inner: Inner, f: Failure)
    ensures Refusal(inner) == Some(f) <==> exists k: nat :: RefusedAfter(inner, k, f)
  {
    var k := Lead(inner.events);
    if Refusal(inner) == Some(f) {
      assert RefusedAfter(inner, k, f);
    }
  }

  /** What a refused attempt keeps back, to be shown if it turns out to be the last. */
  datatype Held = Held(failure: Failure, buffered: seq<Event>, terminal: Option<Event>, n: nat)

  /** Showing a held attempt: its buffered events, then its terminal event or its error. */
  function Released(s: Shown, h: Held): Shown {
    var t := Pushed(s, h.buffered);
    if h.terminal.Some? then Pushed(t, [h.terminal.value])
    else if t.ending.Open? then t.(ending := FailedWith(h.n))
    else t
  }

  /** A stream object of another make can reject its result promise with a retryable error after its iterator has ended,
      when the starts it had sent were already passed on. */
  predicate FlushedThenRefused(inner: Inner) {
    Lead(inner.events) == |inner.events| && inner.end.Rejects? && inner.end.refused.Some?
  }

  /** The events of a refused attempt that reached the consumer all the same. */
  function Leaked(inner: Inner): seq<Event> {
    if FlushedThenRefused(inner) then inner.events else []
  }

  lemma StartsPass(s: Shown, es: seq<Event>)
    requires s.ending.Open? && forall i | 0 <= i < |es| :: es[i].Start?
    ensures Pushed(s, es) == Shown(s.events + es, Open)
  {
    NoTerminalAmong(es);
  }

  lemma {:induction false} NoTerminalAmong(es: seq<Event>)
    requires forall i | 0 <= i < |es| :: !Terminal(es[i])
    ensures !HasTerminal(es) && UpToTerminal(es) == es
  {
    if es != [] { NoTerminalAmong(es[1..]); }
  }

  /** The attempt is refused by its error event, with nothing but starts before it. */
  lemma RefusedByEvent(s: Shown, inner: Inner, i: nat)
    requires s.ending.Open? && i < |inner.events| && i == Lead(inner.events)
    requires inner.events[i].Error? && inner.events[i].refused.Some?
    ensures Refusal(inner) == inner.events[i].refused && Leaked(inner) == []
    ensures Released(s, Held(inner.events[i].refused.value, inner.events[..i], Some(inner.events[i]), inner.events[i].n))
            == Shown(s.events + Observed(inner).events, Observed(inner).ending)
  {
    StartsPass(s, inner.events[..i]);
    PrefixStep(inner.events, i);
    OneEvent(inner.events[i]);
    assert s.events + inner.events[..i] + [inner.events[i]] == s.events + inner.events[..i + 1];
  }

  /** The attempt was passed on up to its first terminal event. */
  lemma PassedOn(inner: Inner, i: nat)
    requires i < |inner.events| && Terminal(inner.events[i])
    requires forall j | 0 <= j < i :: !Terminal(inner.events[j])
    requires i == Lead(inner.events) ==> !(inner.events[i].Error? && inner.events[i].refused.Some?)
    requires i >= Lead(inner.events)
    ensures Refusal(inner) == None && Observed(inner) == Shown(inner.events[..i + 1], Closed)
  {
    PrefixStep(inner.events, i);
    assert inner.events[i] in inner.events;
  }

  /** The attempt had no terminal event: it is settled by its end. */
  lemma SettledByEnd(s: Shown, inner: Inner)
    requires s.ending.Open? && forall j | 0 <= j < |inner.events| :: !Terminal(inner.events[j])
    ensures Observed(inner) ==
            Shown(inner.events, if inner.end.Ends? then EndedWith(inner.end.n) else FailedWith(inner.end.n))
    ensures Refusal(inner) ==
            if Lead(inner.events) < |inner.events| || inner.end.Ends? then None else inner.end.refused
    ensures Lead(inner.events) == |inner.events| ==>
              Pushed(s, inner.events) == Shown(s.events + inner.events, Open)
    ensures Pushed(s, []) == s
    ensures inner.end.Throws? ==> Leaked(inner) == []
    ensures inner.end.Rejects? && Refusal(inner).Some? ==> Leaked(inner) == inner.events
  {
    NoTerminalAmong(inner.events);
    assert s.events + [] == s.events;
    if Lead(inner.events) == |inner.events| { StartsPass(s, inner.events); }
  }

  /** One attempt against the outer stream: starts are held back until the attempt is known to go on. */
  method RunAttempt(outer: EventStream, inner: Inner) returns (held: Option<Held>)
    requires outer.ending.Open?
    modifies outer
    ensures held.Some? <==> Refusal(inner).Some?
    ensures held.None? ==>
              outer.Abs() == Shown(old(outer.events) + Observed(inner).events, Observed(inner).ending)
    ensures held.Some? ==> held.value.failure == Refusal(inner).value
    ensures held.Some? ==> outer.Abs() == Shown(old(outer.events) + Leaked(inner), Open)
    ensures held.Some? ==>
              Released(outer.Abs(), held.value)
              == Shown(old(outer.events) + Observed(inner).events, Observed(inner).ending)
  {
    hide Observed, Refusal, Leaked, Pushed, UpToTerminal, HasTerminal, FlushedThenRefused, Lead;
    var buffered: seq<Event> := [];
    var unsafe := false;
    ghost var before := outer.events;
    ghost var lead := Lead(inner.events);
    for i := 0 to |inner.events|
      invariant outer.ending.Open?
      invariant unsafe <==> i > lead
      invariant forall j | 0 <= j < i :: !Terminal(inner.events[j])
      invariant !unsafe ==> buffered == inner.events[..i] && outer.events == before
      invariant unsafe ==> buffered == [] && outer.events == before + inner.events[..i]
    {
      var event := inner.events[i];
      PrefixStep(inner.events, i);
      if !unsafe && event.Start? {
        buffered := buffered + [event];
        continue;
      }
      if !unsafe && event.Error? && event.refused.Some? {
        RefusedByEvent(outer.Abs(), inner, i);
        assert before + [] == before;
        return Some(Held(event.refused.value, buffered, Some(event), event.n));
      }
      FlushAndPush(outer, buffered, event);
      assert before + inner.events[..i] + [event] == before + inner.events[..i + 1];
      buffered := [];
      unsafe := true;
      if !outer.ending.Open? {
        PassedOn(inner, i);
        return None;
      }
    }
    assert inner.events[..|inner.events|] == inner.events;
    assert before + [] == before;
    SettledByEnd(outer.Abs(), inner);
    match inner.end {
      case Throws(n, refused) =>
        if !unsafe && refused.Some? {
          var h := Held(refused.value, buffered, None, n);
          return Some(h);
        }
        outer.PushAll(buffered);
        outer.Finish(FailedWith(n));
      case Ends(n) =>
        outer.PushAll(buffered);
        outer.Finish(EndedWith(n));
      case Rejects(n, refused) =>
        outer.PushAll(buffered);
        SettledByEnd(outer.Abs(), inner);
        if !unsafe && refused.Some? { return Some(Held(refused.value, [], None, n)); }
        outer.Finish(FailedWith(n));
    }
    held := None;
  }

  /** The starts that were held back, then the event that shows the attempt goes on. */
  method FlushAndPush(outer: EventStream, buffered: seq<Event>, event: Event)
    requires outer.ending.Open? && forall j | 0 <= j < |buffered| :: buffered[j].Start?
    modifies outer
    ensures outer.Abs() == Shown(old(outer.events) + buffered + [event], if Terminal(event) then Closed else Open)
  {
    StartsPass(outer.Abs(), buffered);
    OneEvent(event);
    outer.PushAll(buffered);
    outer.Push(event);
  }

  /** The prefix through event `i`, when nothing terminal came before it. */
  lemma PrefixStep(es: seq<Event>, i: nat)
    requires i < |es| && forall j | 0 <= j < i :: !Terminal(es[j])
    ensures es[..i] + [es[i]] == es[..i + 1]
    ensures Terminal(es[i]) ==> HasTerminal(es) && UpToTerminal(es) == es[..i + 1]
  {
    if Terminal(es[i]) {
      assert es[i] in es;
      FirstTerminal(es, i);
    }
  }

  lemma {:induction false} FirstTerminal(es: seq<Event>, i: nat)
    requires i < |es| && Terminal(es[i]) && forall j | 0 <= j < i :: !Terminal(es[j])
    ensures UpToTerminal(es) == es[..i + 1]
    decreases i
  {
    if i > 0 {
      FirstTerminal(es[1..], i - 1);
      assert es[..i + 1] == [es[0]] + es[1..][..i];
    }
  }

  // ---------------------------------------------------------------- the whole request

  /** The key environment in which attempt `n` fails exactly when the stream of attempt `n` is refused. */
  function EnvOf(env: KeyEnv, inner: nat -> Inner): KeyEnv {
    env.(outcome := (n: nat) => if Refusal(inner(n)).Some? then Refused(Refusal(inner(n)).value) else Succeeds)
  }

  /** What attempts 1 to n-1 let through although they were superseded. */
  function LeakedBefore(inner: nat -> Inner, n: nat): seq<Event> {
    if n <= 1 then [] else LeakedBefore(inner, n - 1) + Leaked(inner(n - 1))
  }

  lemma {:induction false} LeakedNothing(inner: nat -> Inner, n: nat)
    ensures LeakedBefore(inner, n) == [] <==> forall k: nat | 1 <= k < n :: Leaked(inner(k)) == []
  {
    hide Leaked;
    if n > 1 {
      LeakedNothing(inner, n - 1);
      var before, last := LeakedBefore(inner, n - 1), Leaked(inner(n - 1));
      assert |before + last| == |before| + |last|;
      assert (forall k: nat | 1 <= k < n :: Leaked(inner(k)) == []) <==>
             (forall k: nat | 1 <= k < n - 1 :: Leaked(inner(k)) == []) && last == [];
    }
  }

  // ---------------------------------------------------------------- the repository's own streams

  /** What a producer does to its stream; `Fails` carries the classification of its error. */
  datatype Produce = Pushes(e: Event) | EndsWith(n: nat) | EndsBare | Fails(n: nat, refused: Option<Failure>)

  datatype Settled = Value(n: nat) | NoResult

  /** The producer's side of a stream: the first terminal event, end or failure closes it, and the first of them settles
      the result. */
  datatype Source = Source(
    events: seq<Event>, done: bool, failed: Option<(nat, Option<Failure>)>, result: Option<Settled>)

  function Produced(ops: seq<Produce>): Source {
    if ops == [] then Source([], false, None, None)
    else
      var s := Produced(ops[..|ops| - 1]);
      match ops[|ops| - 1]
      case Pushes(e) =>
        if s.done then s
        else if Terminal(e) then s.(events := s.events + [e], done := true, result := Some(Value(e.n)))
        else s.(events := s.events + [e])
      case EndsWith(n) => s.(done := true, result := if s.failed.None? && s.result.None? then Some(Value(n)) else s.result)
      case EndsBare => s.(done := true, result := if s.failed.None? && s.result.None? then Some(NoResult) else s.result)
      case Fails(n, refused) => if s.done then s else s.(done := true, failed := Some((n, refused)))
  }

  /** What closes a stream: a terminal event, an end or a failure. */
  predicate Closes(op: Produce) {
    op.Pushes? ==> Terminal(op.e)
  }

  /** The index of the first operation that closes the stream. */
  function ClosedAt(ops: seq<Produce>): (k: nat)
    ensures k <= |ops| && (forall i | 0 <= i < k :: !Closes(ops[i])) && (k < |ops| ==> Closes(ops[k]))
  {
    if ops == [] || Closes(ops[0]) then 0 else 1 + ClosedAt(ops[1..])
  }

  lemma {:induction false} ClosedOnce(ops: seq<Produce>, k: nat)
    requires k <= |ops| && (forall i | 0 <= i < k :: !Closes(ops[i])) && (k < |ops| ==> Closes(ops[k]))
    ensures k == ClosedAt(ops)
  {
  }

  /** How the closing operation settles the stream. */
  function SettledBy(op: Produce): (Option<(nat, Option<Failure>)>, Option<Settled>)
    requires Closes(op)
  {
    match op
    case Pushes(e) => (None, Some(Value(e.n)))
    case EndsWith(n) => (None, Some(Value(n)))
    case EndsBare => (None, Some(NoResult))
    case Fails(n, refused) => (Some((n, refused)), None)
  }

  /** The events of operations that close nothing. */
  function EventsOf(ops: seq<Produce>): seq<Event>
    requires forall i | 0 <= i < |ops| :: !Closes(ops[i])
  {
    seq(|ops|, i requires 0 <= i < |ops| && !Closes(ops[i]) => ops[i].e)
  }

  /** What a producer delivers: every event pushed until the stream closes, the terminal one included, in order, and
      nothing later; the first operation that closes the stream settles it, and the later ones change nothing. */
  lemma {:induction false} ProducedExactly(ops: seq<Produce>)
    ensures
      var s, k := Produced(ops), ClosedAt(ops);
      && (s.done <==> k < |ops|)
      && s.events == EventsOf(ops[..k]) + (if k < |ops| && ops[k].Pushes? then [ops[k].e] else [])
      && (s.failed, s.result) == (if k < |ops| then SettledBy(ops[k]) else (None, None))
  {
    if ops != [] {
      var n, k := |ops| - 1, ClosedAt(ops);
      ProducedExactly(ops[..n]);
      ClosedOnce(ops[..n], if k < n then k else n);
      hide ClosedAt, HasTerminal;
      if k < n {
        assert ops[..n][..k] == ops[..k] && ops[..n][k] == ops[k];
        LaterIgnored(Produced(ops[..n]), ops);
      } else if k == n {
        assert ops[..n][..n] == ops[..n];
      } else {
        assert ops[..n][..n] == ops[..n] && ops[..k] == ops;
        assert EventsOf(ops) == EventsOf(ops[..n]) + [ops[n].e];
      }
    } else {
      assert ops[..0] == [] && EventsOf([]) == [];
    }
  }

  lemma LaterIgnored(s: Source, ops: seq<Produce>)
    requires ops != [] && s == Produced(ops[..|ops| - 1]) && s.done && (s.failed.Some? || s.result.Some?)
    ensures Produced(ops) == s
  {
  }

  /** The error of a stream that ended without a result; it names no status and no limit, so it is not retryable. */
  const NO_FINAL_RESULT: nat := 2

  /** What a consumer that iterates and then awaits the result gets from a closed stream. */
  function Iterated(s: Source): Inner {
    Inner(s.events,
          if s.failed.Some? then Throws(s.failed.value.0, s.failed.value.1)
          else if s.result == Some(NoResult) then Rejects(NO_FINAL_RESULT, None)
          else Ends(if s.result.Some? then s.result.value.n else 0))
  }

  /** The result promise rejects after a normal end of iteration only with an error that is not retryable. */
  predicate OwnStream(inner: Inner) {
    inner.end.Rejects? ==> inner.end.refused.None?
  }

  /** Whatever its producer does, a closed stream of the repository's own make has its result or its failure settled, and
      is of this kind. */
  lemma {:induction false} ProducedIsOwn(ops: seq<Produce>)
    ensures var s := Produced(ops);
      && (s.done <==> s.failed.Some? || s.result.Some?) && !(s.failed.Some? && s.result.Some?)
      && (HasTerminal(s.events) ==> s.result.Some? && s.result.value.Value?)
      && OwnStream(Iterated(s))
  {
    if ops != [] {
      ProducedIsOwn(ops[..|ops| - 1]);
      var s, t := Produced(ops[..|ops| - 1]), Produced(ops);
      if HasTerminal(t.events) {
        var e :| e in t.events && Terminal(e);
        assert e in s.events ==> HasTerminal(s.events);
      }
    }
  }

  ghost predicate OwnStreams(inner: nat -> Inner) {
    forall k: nat :: OwnStream(inner(k))
  }

  /** Superseded streams of the repository's own make let nothing through. */
  lemma {:induction false} Transparent(inner: nat -> Inner, n: nat)
    ensures OwnStreams(inner) ==>
              LeakedBefore(inner, n) == [] &&
              Shown(LeakedBefore(inner, n) + Observed(inner(n)).events, Observed(inner(n)).ending) == Observed(inner(n))
  {
    if OwnStreams(inner) {
      LeakedNothing(inner, n);
      assert forall k: nat | 1 <= k < n :: OwnStream(inner(k)) && Leaked(inner(k)) == [];
    }
  }

  /** Show the attempt that was kept back. */
  method EmitFailure(outer: EventStream, held: Held)
    modifies outer
    ensures outer.Abs() == Released(old(outer.Abs()), held)
  {
    outer.PushAll(held.buffered);
    if held.terminal.Some? {
      outer.Push(held.terminal.value);
    } else {
      outer.Finish(FailedWith(held.n));
    }
  }

  const RESOLVER_FAILED: nat := 0
  const MISSING_KEY: nat := 1

  /** A request without a key of its own resolver still runs once when its provider allows that. */
  method KeylessRequest(outer: EventStream, inner: Inner)
    requires outer.Abs() == Shown([], Open)
    modifies outer
    ensures outer.Abs() == Observed(inner)
  {
    var held := RunAttempt(outer, inner);
    if held.Some? { EmitFailure(outer, held.value); }
    assert [] + Observed(inner).events == Observed(inner).events;
  }

  lemma NoMoreKeys(env: KeyEnv, s: KeyState)
    requires !env.outcome(s.attempts).Refused?
    ensures KeySends(env, s) == []
  {
  }

  /** The first attempt, then one attempt for each bearer the retry policy accepts. */
  method RetryAttempts(outer: EventStream, env: KeyEnv, inner: nat -> Inner, key: string) returns (attempts: nat)
    requires KeyOf(env.initial) == Some(key) && outer.Abs() == Shown([], Open)
    modifies outer
    ensures 1 <= attempts == |AllKeySends(EnvOf(env, inner))|
    ensures outer.Abs() == Shown(LeakedBefore(inner, attempts) + Observed(inner(attempts)).events,
                                 Observed(inner(attempts)).ending)
    ensures forall k | 1 <= k < attempts :: Refusal(inner(k)).Some?
  {
    hide OwnStreams, NextKey, Released, Observed, Refusal, Leaked, KeySends;
    var keys := EnvOf(env, inner);
    var state := new AuthRetryKeyState(key);
    attempts := 1;
    var held := RunAttempt(outer, inner(1));
    while held.Some?
      invariant fresh(state) && state.attempts == attempts >= 1
      invariant held.Some? <==> keys.outcome(attempts).Refused?
      invariant held.Some? ==> keys.outcome(attempts).failure == held.value.failure
      invariant held.Some? ==> outer.Abs() == Shown(LeakedBefore(inner, attempts + 1), Open)
      invariant (if held.Some? then Released(outer.Abs(), held.value) else outer.Abs())
             == Shown(LeakedBefore(inner, attempts) + Observed(inner(attempts)).events, Observed(inner(attempts)).ending)
      invariant attempts + |KeySends(keys, state.Abs())| == |AllKeySends(keys)|
      invariant forall k | 1 <= k < attempts :: Refusal(inner(k)).Some?
      decreases if attempts <= AUTH_RETRY_MAX_ATTEMPTS then AUTH_RETRY_MAX_ATTEMPTS - attempts else 0,
                if held.Some? then 1 else 0
    {
      UnrollKey(keys, state.Abs(), held.value.failure, []);
      var next := state.ResolveNextAuthRetryKey(keys, held.value.failure);
      if next.None? {
        EmitFailure(outer, held.value);
        return;
      }
      attempts := attempts + 1;
      held := RunAttempt(outer, inner(attempts));
    }
    NoMoreKeys(keys, state.Abs());
  }

  /** The request. The consumer sees the last attempt, preceded by whatever superseded attempts let through. */
  method StreamRequest(env: KeyEnv, inner: nat -> Inner, allowsMissingKey: bool)
    returns (outer: EventStream, attempts: nat)
    ensures fresh(outer)
    ensures KeyOf(env.initial).None? ==>
              attempts == 0 &&
              outer.Abs() == if env.initial.Raises? then Shown([], FailedWith(RESOLVER_FAILED))
                             else if allowsMissingKey then Observed(inner(0))
                             else Shown([], FailedWith(MISSING_KEY))
    ensures KeyOf(env.initial).Some? ==> 1 <= attempts == |AllKeySends(EnvOf(env, inner))|
    ensures KeyOf(env.initial).Some? ==>
              outer.Abs() == Shown(LeakedBefore(inner, attempts) + Observed(inner(attempts)).events,
                                   Observed(inner(attempts)).ending)
    ensures forall k | 1 <= k < attempts :: Refusal(inner(k)).Some?
    ensures KeyOf(env.initial).Some? && OwnStreams(inner) ==> outer.Abs() == Observed(inner(attempts))
  {
    hide OwnStreams, Released, Observed, Refusal, Leaked, KeySends, AllKeySends, LeakedBefore, EnvOf;
    outer := new EventStream();
    attempts := 0;
    if env.initial.Raises? {
      outer.Finish(FailedWith(RESOLVER_FAILED));
      return;
    }
    var initial := KeyOf(env.initial);
    if initial.None? {
      if allowsMissingKey { KeylessRequest(outer, inner(0)); } else { outer.Finish(FailedWith(MISSING_KEY)); }
      return;
    }
    attempts := RetryAttempts(outer, env, inner, initial.value);
    Transparent(inner, attempts);
  }

  /** With stream objects of any make, transparency holds exactly when no superseded attempt was refused by its result
      promise after its iterator had ended: then the consumer sees the last attempt and nothing else. */
  lemma TransparentExactly(inner: nat -> Inner, attempts: nat)
    requires attempts >= 1
    ensures LeakedBefore(inner, attempts) + Observed(inner(attempts)).events == Observed(inner(attempts)).events
       <==> forall k: nat | 1 <= k < attempts :: !FlushedThenRefused(inner(k)) || inner(k).events == []
  {
    LeakedNothing(inner, attempts);
    var shown := Observed(inner(attempts)).events;
    assert |LeakedBefore(inner, attempts) + shown| == |LeakedBefore(inner, attempts)| + |shown|;
    assert [] + shown == shown;
  }

  /** A superseded attempt never showed anything but starts. */
  lemma OnlyStartsLeak(inner: Inner)
    ensures forall i | 0 <= i < |Leaked(inner)| :: Leaked(inner)[i].Start?
  {
  }

  /** A request in which such a stream is superseded, and its start stays visible in front of the second attempt. */
  lemma ForeignStreamLeaks()
    ensures exists env: KeyEnv, inner: nat -> Inner ::
              var n := |AllKeySends(EnvOf(env, inner))|;
              n == 2 && LeakedBefore(inner, n) + Observed(inner(n)).events == [Start(7)] + Observed(inner(2)).events
  {
    var f := Failure(false, false);
    var first, second := Inner([Start(7)], Rejects(0, Some(f))), Inner([Done(9)], Ends(9));
    var inner := (k: nat) => if k == 1 then first else second;
    var env := KeyEnv(Gives("a"), (k: nat, last: bool) => Gives("b"), (k: nat) => Succeeds, (k: nat, p: Point) => false);
    var keys := EnvOf(env, inner);
    assert Lead([Start(7)]) == 1 && Refusal(first) == Some(f);
    assert Lead([Done(9)]) == 0 && Refusal(second) == None;
    var s := NewState("a");
    var (t, next) := NextKey(keys, s, f);
    assert next == Some(Send("b", Refresh)) && t.attempts == 2;
    assert KeySends(keys, t) == [];
    assert KeySends(keys, s) == [Send("b", Refresh)];
    assert |AllKeySends(keys)| == 2;
    assert LeakedBefore(inner, 1) == [] && LeakedBefore(inner, 2) == [] + [Start(7)];
  }
}
