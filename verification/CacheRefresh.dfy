/** The prompt-cache refresh timer: an armed plan refreshes the provider's cache a bounded number of times, and a
    generation number keeps timers and refreshes of an earlier arming from touching a later one. */
module CacheRefresh {
  import opened Wrappers

  const ANTHROPIC_CACHE_REFRESH_LIMIT: nat := 3

  /** What can happen next: the owner arms or cancels, the pending timer fires, or a refresh in flight ends. */
  datatype Op = Arm(plan: nat) | Cancel | Fire | Complete(controller: nat, touched: bool)

  class AnthropicCacheRefreshState {
    var controller: Option<nat>
    var generation: nat
    var plan: Option<nat>
    var refreshesRemaining: nat
    var timer: Option<nat>

    // The event loop's side: the timeouts it still holds and the refreshes in flight, each with the generation
    // that started it, and how many refreshes each generation has started.
    var timeouts: map<nat, nat>
    var inFlight: map<nat, nat>
    var started: map<nat, nat>
    var nextId: nat

    function StartedBy(g: nat): nat
      reads this
    {
      if g in started then started[g] else 0
    }

    predicate Valid()
      reads this
    {
      && timeouts == (if timer.Some? then map[timer.value := generation] else map[])
      && (timer.Some? ==> plan.Some? && refreshesRemaining > 0 && controller.None? && timer.value < nextId)
      && (forall c | c in inFlight :: c < nextId && inFlight[c] <= generation)
      && (forall c | c in inFlight :: inFlight[c] == generation <==> controller == Some(c))
      && (controller.Some? ==> controller.value in inFlight && plan.Some? && refreshesRemaining > 0)
      && refreshesRemaining <= ANTHROPIC_CACHE_REFRESH_LIMIT
      && (forall g | g in started :: g <= generation && started[g] <= ANTHROPIC_CACHE_REFRESH_LIMIT)
      && StartedBy(generation) + refreshesRemaining
         <= ANTHROPIC_CACHE_REFRESH_LIMIT + (if controller.Some? then 1 else 0)
    }

    constructor ()
      ensures Valid() && generation == 0 && started == map[] && inFlight == map[] && timer.None? && plan.None?
    {
      controller, generation, plan, refreshesRemaining, timer := None, 0, None, 0, None;
      timeouts, inFlight, started, nextId := map[], map[], map[], 0;
    }

    method CancelRefresh()
      requires Valid()
      modifies this
      ensures Valid()
      ensures generation == old(generation) + 1 && plan.None? && refreshesRemaining == 0
      ensures timer.None? && timeouts == map[] && controller.None?
      ensures inFlight == old(inFlight) && started == old(started) && nextId == old(nextId)
    {
      generation := generation + 1;
      if timer.Some? {
        timeouts := timeouts - {timer.value};
        timer := None;
      }
      controller := None;
      plan := None;
      refreshesRemaining := 0;
    }

    method ArmRefresh(p: nat)
      requires Valid()
      modifies this
      ensures Valid()
      ensures generation == old(generation) + 1 && plan == Some(p)
      ensures refreshesRemaining == ANTHROPIC_CACHE_REFRESH_LIMIT && StartedBy(generation) == 0
      ensures timer == Some(old(nextId)) && timeouts == map[old(nextId) := generation] && controller.None?
      ensures inFlight == old(inFlight) && started == old(started)
    {
      CancelRefresh();
      plan := Some(p);
      refreshesRemaining := ANTHROPIC_CACHE_REFRESH_LIMIT;
      Schedule(generation);
    }

    method Schedule(g: nat)
      modifies this`timer, this`timeouts, this`nextId
      ensures timer == Some(old(nextId)) && nextId == old(nextId) + 1
      ensures timeouts == old(timeouts)[old(nextId) := g]
    {
      timer := Some(nextId);
      timeouts := timeouts[nextId := g];
      nextId := nextId + 1;
    }

    /** A timeout fires. It always belongs to the current generation, so a refresh of the current plan begins. */
    method FireTimer(id: nat)
      requires Valid() && id in timeouts
      modifies this
      ensures Valid()
      ensures timer.None? && timeouts == map[] && generation == old(generation) && plan == old(plan)
      ensures refreshesRemaining == old(refreshesRemaining)
      ensures controller == Some(old(nextId)) && inFlight == old(inFlight)[old(nextId) := generation]
      ensures started == old(started)[generation := old(StartedBy(generation)) + 1]
    {
      var g := timeouts[id];
      timeouts := timeouts - {id};
      timer := None;
      BeginRefresh(g);
    }

    /** The part of a refresh before it awaits the provider. */
    method BeginRefresh(g: nat)
      modifies this`controller, this`inFlight, this`started, this`nextId
      ensures
        if g != generation || plan.None? || refreshesRemaining <= 0 then
          controller == old(controller) && inFlight == old(inFlight) && started == old(started) && nextId == old(nextId)
        else
          controller == Some(old(nextId)) && nextId == old(nextId) + 1 &&
          inFlight == old(inFlight)[old(nextId) := g] && started == old(started)[g := old(StartedBy(g)) + 1]
    {
      if g != generation || plan.None? || refreshesRemaining <= 0 { return; }
      controller := Some(nextId);
      inFlight := inFlight[nextId := g];
      started := started[g := StartedBy(g) + 1];
      nextId := nextId + 1;
    }

    /** The part after the provider answered. A refresh of an earlier generation changes nothing any more. */
    method CompleteRefresh(c: nat, touched: bool)
      requires Valid() && c in inFlight
      modifies this
      ensures Valid()
      ensures inFlight == old(inFlight) - {c} && started == old(started) && generation == old(generation)
      ensures old(inFlight[c]) != old(generation) ==>
                controller == old(controller) && plan == old(plan) && timer == old(timer) &&
                refreshesRemaining == old(refreshesRemaining) && timeouts == old(timeouts)
      ensures old(inFlight[c]) == old(generation) ==>
                controller.None? &&
                (timer.Some? <==> touched && old(refreshesRemaining) > 1) &&
                refreshesRemaining == (if touched then old(refreshesRemaining) - 1 else 0) &&
                plan == (if touched && old(refreshesRemaining) > 1 then old(plan) else None)
    {
      var g := inFlight[c];
      inFlight := inFlight - {c};
      if g != generation { return; }
      controller := None;
      if !touched {
        plan := None;
        refreshesRemaining := 0;
        return;
      }
      refreshesRemaining := refreshesRemaining - 1;
      if refreshesRemaining <= 0 {
        plan := None;
        return;
      }
      Schedule(g);
    }
  }

  /** The bound is met: from any state, an arming whose refreshes all reach the cache is refreshed three times, each once
      the timer has fired, and then it is over. */
  method RefreshToTheEnd(state: AnthropicCacheRefreshState, p: nat)
    requires state.Valid()
    modifies state
    ensures state.Valid() && state.generation == old(state.generation) + 1
    ensures state.StartedBy(state.generation) == ANTHROPIC_CACHE_REFRESH_LIMIT
    ensures state.timer.None? && state.controller.None? && state.plan.None? && state.refreshesRemaining == 0
  {
    state.ArmRefresh(p);
    for k := 0 to ANTHROPIC_CACHE_REFRESH_LIMIT
      invariant state.Valid() && state.generation == old(state.generation) + 1
      invariant state.StartedBy(state.generation) == k
      invariant state.refreshesRemaining == ANTHROPIC_CACHE_REFRESH_LIMIT - k && state.controller.None?
      invariant state.timer.Some? <==> k < ANTHROPIC_CACHE_REFRESH_LIMIT
      invariant state.plan.Some? <==> k < ANTHROPIC_CACHE_REFRESH_LIMIT
    {
      state.FireTimer(state.timer.value);
      state.CompleteRefresh(state.controller.value, true);
    }
  }

  /** Any interleaving of operations, those not possible at their moment being no-ops: at every point at most one timer is
      pending and it belongs to the current generation, and no arming ever starts more than three refreshes. */
  method RunInterleaving(ops: seq<Op>) returns (timeouts: map<nat, nat>, generation: nat, started: map<nat, nat>)
    ensures |timeouts| <= 1 && forall id | id in timeouts :: timeouts[id] == generation
    ensures forall g | g in started :: started[g] <= ANTHROPIC_CACHE_REFRESH_LIMIT && g <= generation
    ensures generation == Armings(ops)
  {
    var state := new AnthropicCacheRefreshState();
    for i := 0 to |ops|
      invariant fresh(state) && state.Valid()
      invariant state.generation == Armings(ops[..i])
    {
      assert ops[..i + 1] == ops[..i] + [ops[i]];
      ArmingsSnoc(ops[..i], ops[i]);
      match ops[i] {
        case Arm(p) => state.ArmRefresh(p);
        case Cancel => state.CancelRefresh();
        case Fire =>
          if state.timer.Some? { state.FireTimer(state.timer.value); }
        case Complete(c, touched) =>
          if c in state.inFlight { state.CompleteRefresh(c, touched); }
      }
    }
    assert ops[..|ops|] == ops;
    timeouts, generation, started := state.timeouts, state.generation, state.started;
  }

  /** Each arming and each cancellation opens a generation of its own. */
  function Armings(ops: seq<Op>): nat {
    if ops == [] then 0
    else (if ops[0].Arm? || ops[0].Cancel? then 1 else 0) + Armings(ops[1..])
  }

  lemma {:induction false} ArmingsSnoc(ops: seq<Op>, op: Op)
    ensures Armings(ops + [op]) == Armings(ops) + if op.Arm? || op.Cancel? then 1 else 0
  {
    if ops == [] {
      assert [op][1..] == [];
    } else {
      assert (ops + [op])[1..] == ops[1..] + [op];
      ArmingsSnoc(ops[1..], op);
    }
  }
}
