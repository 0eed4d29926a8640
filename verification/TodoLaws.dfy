/** What an operation on the todo list leaves behind, item by item, read off the list before it and its parameters. */
module TodoLaws {
  import opened Wrappers
  import opened Todo

  // ---------------------------------------------------------------- the status operations

  /** The operation `op` is asked for and is about item x. */
  ghost predicate Hits(before: seq<Phase>, params: Params, op: Op, x: Pos) {
    params.op == op && Targets(before, params, x)
  }

  /** A start names one item by its task; a phase alone starts nothing. */
  ghost predicate StartsAt(before: seq<Phase>, params: Params, x: Pos) {
    Truthy(params.task) && Hits(before, params, Start, x)
  }

  /** Finishing a phase spares what was dropped. */
  ghost predicate Finishes(before: seq<Phase>, params: Params, x: Pos) {
    Hits(before, params, Finish, x) && (Truthy(params.task) || !HasStatus(before, x, Dropped))
  }

  /** Blocking a phase spares what was done or dropped. */
  ghost predicate Blocks(before: seq<Phase>, params: Params, x: Pos) {
    && Hits(before, params, Block, x)
    && (Truthy(params.task) || (!HasStatus(before, x, Done) && !HasStatus(before, x, Dropped)))
  }

  ghost predicate Unblocks(before: seq<Phase>, params: Params, x: Pos) {
    Hits(before, params, Unblock, x) && HasStatus(before, x, Blocked)
  }

  /** What became of one item before the promotion, as far as the promotion leaves it. */
  lemma {:induction false} ClosedStays(
    before: seq<Phase>, params: Params, marked: seq<Phase>, after: seq<Phase>, x: Pos)
    requires IsStatusOp(params.op) && Executes(before, params, marked, after) && At(before, x)
    ensures At(marked, x) && At(after, x)
    ensures Get(marked, x) == if params.op == View then Get(before, x) else Marked(before, params, x)
    ensures Get(after, x).reason == Get(marked, x).reason
    ensures Get(marked, x).status in {Done, Dropped, Blocked} || Get(after, x).status in {Done, Dropped, Blocked} ==>
              Get(after, x) == Get(marked, x)
  {
    assert At(marked, x) && Get(after, x) == Promoted(marked, x);
    if params.op != View {
      assert Get(marked, x) == Marked(before, params, x);
    }
  }

  /** An item is done afterwards exactly when it is finished now, or was done and is neither started, blocked by its
      name, nor dropped. */
  lemma {:induction false} DoneAfter(before: seq<Phase>, params: Params, marked: seq<Phase>, after: seq<Phase>, x: Pos)
    requires IsStatusOp(params.op) && Executes(before, params, marked, after)
    ensures HasStatus(after, x, Done) <==>
            Finishes(before, params, x) ||
            (HasStatus(before, x, Done) && !StartsAt(before, params, x) && !Blocks(before, params, x) &&
             !Hits(before, params, Drop, x))
  {
    if At(before, x) { ClosedStays(before, params, marked, after, x); }
  }

  /** An item is dropped afterwards exactly when it is dropped now, or was dropped and no operation names its task to
      start, finish or block it. */
  lemma {:induction false} DroppedAfter(
    before: seq<Phase>, params: Params, marked: seq<Phase>, after: seq<Phase>, x: Pos)
    requires IsStatusOp(params.op) && Executes(before, params, marked, after)
    ensures HasStatus(after, x, Dropped) <==>
            Hits(before, params, Drop, x) ||
            (HasStatus(before, x, Dropped) && !StartsAt(before, params, x) && !Finishes(before, params, x) &&
             !Blocks(before, params, x))
  {
    if At(before, x) { ClosedStays(before, params, marked, after, x); }
  }

  /** An item is blocked afterwards exactly when it is blocked now, or was blocked and is not started, finished, dropped
      or unblocked. */
  lemma {:induction false} BlockedAfter(
    before: seq<Phase>, params: Params, marked: seq<Phase>, after: seq<Phase>, x: Pos)
    requires IsStatusOp(params.op) && Executes(before, params, marked, after)
    ensures HasStatus(after, x, Blocked) <==>
            Blocks(before, params, x) ||
            (HasStatus(before, x, Blocked) && !StartsAt(before, params, x) && !Finishes(before, params, x) &&
             !Hits(before, params, Drop, x) && !Unblocks(before, params, x))
  {
    if At(before, x) { ClosedStays(before, params, marked, after, x); }
  }

  /** The reason of an item is the one given when it is blocked, is gone when it is unblocked, and stays otherwise, even
      when a blocked item is started, finished or dropped. */
  lemma {:induction false} ReasonAfter(
    before: seq<Phase>, params: Params, marked: seq<Phase>, after: seq<Phase>, x: Pos)
    requires IsStatusOp(params.op) && Executes(before, params, marked, after) && At(before, x)
    ensures At(after, x)
    ensures Get(after, x).reason ==
            if Blocks(before, params, x) && Truthy(params.reason) then params.reason
            else if Unblocks(before, params, x) then None
            else Get(before, x).reason
  {
    ClosedStays(before, params, marked, after, x);
  }

  // ---------------------------------------------------------------- the active item

  /** Neither done, dropped nor blocked. */
  ghost predicate Open(phases: seq<Phase>, x: Pos) {
    HasStatus(phases, x, Pending) || HasStatus(phases, x, InProgress)
  }

  /** It was active and the operation has not closed it. */
  ghost predicate Carries(before: seq<Phase>, after: seq<Phase>, x: Pos) {
    HasStatus(before, x, InProgress) && Open(after, x)
  }

  /** No open item comes earlier. */
  ghost predicate FirstOpen(after: seq<Phase>, x: Pos) {
    Open(after, x) && forall y :: Open(after, y) ==> !Earlier(y, x)
  }

  ghost predicate FirstCarried(before: seq<Phase>, after: seq<Phase>, x: Pos) {
    Carries(before, after, x) && forall y :: Carries(before, after, y) ==> !Earlier(y, x)
  }

  /** Before the promotion, an item is in progress exactly when it is started, or carries on and nothing is started. */
  lemma {:induction false} MarkedActive(
    before: seq<Phase>, params: Params, marked: seq<Phase>, after: seq<Phase>, x: Pos)
    requires IsStatusOp(params.op) && Executes(before, params, marked, after)
    requires !(params.op == Start && Starts(before, params))
    ensures HasStatus(marked, x, InProgress) <==> Carries(before, after, x)
    ensures Open(marked, x) <==> Open(after, x)
  {
    if At(before, x) { ClosedStays(before, params, marked, after, x); }
  }

  /** Which item is active afterwards: the one started; else the earliest that was active and is still open; else the
      earliest that is open at all. */
  lemma {:induction false} ActiveAfter(
    before: seq<Phase>, params: Params, marked: seq<Phase>, after: seq<Phase>, x: Pos)
    requires IsStatusOp(params.op) && Executes(before, params, marked, after)
    ensures HasStatus(after, x, InProgress) <==>
            if params.op == Start && Starts(before, params) then StartsAt(before, params, x)
            else if exists y :: Carries(before, after, y) then FirstCarried(before, after, x)
            else FirstOpen(after, x)
  {
    if params.op == Start && Starts(before, params) {
      StartedIsActive(before, params, marked, after, x);
    } else {
      hide Executes, Enforced, Applied;
      forall y
        ensures HasStatus(marked, y, InProgress) <==> Carries(before, after, y)
        ensures Open(marked, y) <==> Open(after, y)
      {
        MarkedActive(before, params, marked, after, y);
      }
      FirstOfMarked(before, marked, after, x);
      ActiveIsFirst(before, params, marked, after, x);
    }
  }

  lemma ActiveIsFirst(before: seq<Phase>, params: Params, marked: seq<Phase>, after: seq<Phase>, x: Pos)
    requires Executes(before, params, marked, after)
    ensures HasStatus(after, x, InProgress) <==>
            IsFirst(marked, x, if Any(marked, InProgress) then InProgress else Pending)
  {
    if At(marked, x) { PromotionPicks(marked, after, x); }
  }

  lemma FirstOfMarked(before: seq<Phase>, marked: seq<Phase>, after: seq<Phase>, x: Pos)
    requires forall y :: HasStatus(marked, y, InProgress) <==> Carries(before, after, y)
    requires forall y :: Open(marked, y) <==> Open(after, y)
    ensures Any(marked, InProgress) <==> exists y :: Carries(before, after, y)
    ensures IsFirst(marked, x, InProgress) <==> FirstCarried(before, after, x)
    ensures !Any(marked, InProgress) ==> (IsFirst(marked, x, Pending) <==> FirstOpen(after, x))
  {
    if !Any(marked, InProgress) {
      assert forall y :: Open(after, y) <==> HasStatus(marked, y, Pending);
    }
  }

  // ---------------------------------------------------------------- the operations on the list itself

  /** An item with its activity left out: whether an open item is pending or in progress is for the promotion. */
  function Rested(it: Item): Item {
    if it.status == InProgress then it.(status := Pending) else it
  }

  function AllRested(items: seq<Item>): seq<Item> {
    seq(|items|, i requires 0 <= i < |items| => Rested(items[i]))
  }

  /** The same phase with the same items; only which open item is active may differ. */
  predicate SamePlace(a: Phase, b: Phase) {
    a.name == b.name && AllRested(a.items) == AllRested(b.items)
  }

  lemma PromotionKeepsPlace(marked: seq<Phase>, after: seq<Phase>, p: nat)
    requires Enforced(marked, after) && p < |marked|
    ensures p < |after| && SamePlace(marked[p], after[p])
  {
    forall i | 0 <= i < |marked[p].items| ensures AllRested(after[p].items)[i] == AllRested(marked[p].items)[i] {
      assert At(marked, Pos(p, i)) && Get(after, Pos(p, i)) == Promoted(marked, Pos(p, i));
    }
  }

  /** The positions of some elements, in order: each lies behind the one before it. */
  predicate Increasing(ks: seq<nat>) {
    forall i, j | 0 <= i < j < |ks| :: ks[i] < ks[j]
  }

  /** `kept` is what is left of `all` when exactly the elements to keep stay, in order, at the positions `ks`. */
  ghost predicate Keeps<T>(all: seq<T>, keep: T -> bool, kept: seq<T>, ks: seq<nat>) {
    && |ks| == |kept| && Increasing(ks)
    && (forall i | 0 <= i < |ks| :: ks[i] < |all| && kept[i] == all[ks[i]])
    && (forall k | 0 <= k < |all| :: k in ks <==> keep(all[k]))
  }

  lemma OneMore<T>(all: seq<T>, keep: T -> bool, kept: seq<T>, ks: seq<nat>)
    requires all != [] && Keeps(all[..|all| - 1], keep, kept, ks)
    ensures var n := |all| - 1;
      if keep(all[n]) then Keeps(all, keep, kept + [all[n]], ks + [n]) else Keeps(all, keep, kept, ks)
  {
    var n := |all| - 1;
    forall k | 0 <= k < n ensures k in ks <==> keep(all[k]) {
      assert all[..n][k] == all[k];
    }
    if keep(all[n]) {
      var more := ks + [n];
      assert forall k :: k in more <==> k in ks || k == n;
    }
  }

  function OtherTask(task: string): Item -> bool {
    (it: Item) => it.task != task
  }

  function OtherPhase(name: string): Phase -> bool {
    (ph: Phase) => ph.name != name
  }

  lemma {:induction false} WithoutTaskExactly(items: seq<Item>, task: string) returns (ks: seq<nat>)
    ensures Keeps(items, OtherTask(task), WithoutTask(items, task), ks)
    decreases |items|
  {
    hide Keeps;
    if items == [] {
      ks := [];
      KeepsNone(OtherTask(task));
    } else {
      var n := |items| - 1;
      ks := WithoutTaskExactly(items[..n], task);
      OneMore(items, OtherTask(task), WithoutTask(items[..n], task), ks);
      assert WithoutTask(items[..n], task) + [] == WithoutTask(items[..n], task);
      if items[n].task != task { ks := ks + [n]; }
    }
  }

  lemma KeepsNone<T>(keep: T -> bool)
    ensures Keeps([], keep, [], [])
  {
  }

  /** Removing a task takes every item with that text out of every phase, and nothing else: all phases stay, and the
      other items stay in order. */
  lemma {:induction false} TaskRemoved(
    before: seq<Phase>, params: Params, marked: seq<Phase>, after: seq<Phase>, p: nat) returns (ks: seq<nat>)
    requires params.op == Remove && Truthy(params.task) && Executes(before, params, marked, after) && p < |before|
    ensures |after| == |before| && after[p].name == before[p].name
    ensures |after[p].items| == |ks| && Increasing(ks)
    ensures forall k | 0 <= k < |before[p].items| :: k in ks <==> before[p].items[k].task != params.task.value
    ensures forall i | 0 <= i < |ks| ::
              ks[i] < |before[p].items| && Rested(after[p].items[i]) == Rested(before[p].items[ks[i]])
  {
    ks := WithoutTaskExactly(before[p].items, params.task.value);
    forall i | 0 <= i < |ks|
      ensures Rested(after[p].items[i]) == Rested(before[p].items[ks[i]])
    {
      assert At(marked, Pos(p, i)) && Get(after, Pos(p, i)) == Promoted(marked, Pos(p, i));
    }
  }

  lemma {:induction false} WithoutPhaseExactly(phases: seq<Phase>, name: string) returns (ks: seq<nat>)
    ensures Keeps(phases, OtherPhase(name), WithoutPhase(phases, name), ks)
    decreases |phases|
  {
    hide Keeps;
    if phases == [] {
      ks := [];
      KeepsNone(OtherPhase(name));
    } else {
      var n := |phases| - 1;
      ks := WithoutPhaseExactly(phases[..n], name);
      OneMore(phases, OtherPhase(name), WithoutPhase(phases[..n], name), ks);
      assert WithoutPhase(phases[..n], name) + [] == WithoutPhase(phases[..n], name);
      if phases[n].name != name { ks := ks + [n]; }
    }
  }

  /** Removing a phase takes out all phases of that name and nothing else; a removal that names neither a task nor a
      phase empties the list. */
  lemma {:induction false} PhaseRemoved(
    before: seq<Phase>, params: Params, marked: seq<Phase>, after: seq<Phase>) returns (ks: seq<nat>)
    requires params.op == Remove && !Truthy(params.task) && Executes(before, params, marked, after)
    ensures |after| == |ks| && Increasing(ks)
    ensures forall k | 0 <= k < |before| ::
              k in ks <==> Truthy(params.phase) && before[k].name != params.phase.value
    ensures forall j | 0 <= j < |ks| :: ks[j] < |before| && SamePlace(before[ks[j]], after[j])
  {
    ks := [];
    if Truthy(params.phase) { ks := WithoutPhaseExactly(before, params.phase.value); }
    forall j | 0 <= j < |ks| ensures ks[j] < |before| && SamePlace(before[ks[j]], after[j]) {
      assert marked[j] == before[ks[j]];
      PromotionKeepsPlace(marked, after, j);
    }
  }

  /** New items of a phase: pending, without a reason, in the order given. */
  ghost predicate NewItems(items: seq<Item>, phase: string, tasks: seq<string>) {
    |items| == |tasks| && forall i | 0 <= i < |tasks| :: items[i] == Item(tasks[i], phase, Pending, None)
  }

  /** Appending puts the new items, in order, behind those of the first phase of that name, and changes no other phase;
      if there is none, a new last phase holds just them. */
  lemma {:induction false} ItemsAppended(
    before: seq<Phase>, params: Params, marked: seq<Phase>, after: seq<Phase>, p: nat)
    requires params.op == Append && Executes(before, params, marked, after) && p < |after|
    ensures var name := if params.phase.Some? then params.phase.value else GENERAL;
      && |after| == |before| + (if exists q: nat :: FindsPhase(before, name, q) then 0 else 1)
      && (p < |before| && !FindsPhase(before, name, p) ==> SamePlace(before[p], after[p]))
      && (p < |before| && FindsPhase(before, name, p) ==>
            after[p].name == name && |after[p].items| == |before[p].items| + |params.items| &&
            AllRested(after[p].items)[..|before[p].items|] == AllRested(before[p].items) &&
            NewItems(AllRested(after[p].items)[|before[p].items|..], name, params.items))
      && (p == |before| ==> after[p].name == name && NewItems(AllRested(after[p].items), name, params.items))
  {
    var name := if params.phase.Some? then params.phase.value else GENERAL;
    FindsOnePhase(before, name);
    FirstPhase(before, name);
    assert |marked| == |after|;
    PromotionKeepsPlace(marked, after, p);
  }

  lemma {:induction false} FirstPhase(phases: seq<Phase>, name: string)
    ensures HasPhase(phases, name) <==> exists q: nat :: FindsPhase(phases, name, q)
    decreases |phases|
  {
    if phases != [] {
      var n := |phases| - 1;
      FirstPhase(phases[..n], name);
      if HasPhase(phases[..n], name) {
        var q: nat :| FindsPhase(phases[..n], name, q);
        assert FindsPhase(phases, name, q);
        assert phases[q] in phases;
      } else if phases[n].name == name {
        assert phases[n] in phases;
        forall q | 0 <= q < n ensures phases[q].name != name { assert phases[..n][q] in phases[..n]; }
        assert FindsPhase(phases, name, n);
      } else {
        forall ph | ph in phases ensures ph.name != name {
          var k :| 0 <= k < |phases| && phases[k] == ph;
          if k < n { assert phases[..n][k] in phases[..n]; }
        }
      }
    }
  }

  /** A fresh list has the phases given, in order, each with its items; a bare list of items goes under one heading;
      nothing of the list before remains. */
  lemma {:induction false} ListStarted(before: seq<Phase>, params: Params, marked: seq<Phase>, after: seq<Phase>, p: nat)
    requires params.op == Init && Executes(before, params, marked, after)
    ensures |after| == if |params.list| > 0 then |params.list| else if |params.items| > 0 then 1 else 0
    ensures p < |params.list| ==>
              after[p].name == params.list[p].0 &&
              NewItems(AllRested(after[p].items), params.list[p].0, params.list[p].1)
    ensures params.list == [] && params.items != [] ==>
              after[0].name == GENERAL && NewItems(AllRested(after[0].items), GENERAL, params.items)
  {
    assert |after| == |marked|;
    if p < |marked| { PromotionKeepsPlace(marked, after, p); }
    if params.list == [] && params.items != [] { PromotionKeepsPlace(marked, after, 0); }
  }

  // ---------------------------------------------------------------- the summary

  const ALL: set<Status> := {Pending, InProgress, Done, Dropped, Blocked}

  /** The positions of the items of some statuses in the first `p` phases and the first `i` items of the next. */
  function Where(phases: seq<Phase>, wanted: set<Status>, p: nat, i: nat): set<Pos>
    requires p <= |phases| && (p == |phases| ==> i == 0) && (p < |phases| ==> i <= |phases[p].items|)
  {
    set q, j | 0 <= q < |phases| && 0 <= j < |phases[q].items| && Earlier(Pos(q, j), Pos(p, i)) &&
               phases[q].items[j].status in wanted :: Pos(q, j)
  }

  lemma WhereAt(phases: seq<Phase>, wanted: set<Status>, p: nat, i: nat, x: Pos)
    requires p <= |phases| && (p == |phases| ==> i == 0) && (p < |phases| ==> i <= |phases[p].items|)
    ensures x in Where(phases, wanted, p, i) <==>
            At(phases, x) && Earlier(x, Pos(p, i)) && Get(phases, x).status in wanted
  {
  }

  lemma WhereStep(phases: seq<Phase>, wanted: set<Status>, p: nat, i: nat)
    requires p < |phases| && i < |phases[p].items|
    ensures |Where(phases, wanted, p, i + 1)| ==
            |Where(phases, wanted, p, i)| + if phases[p].items[i].status in wanted then 1 else 0
  {
    hide Where;
    var before, after := Where(phases, wanted, p, i), Where(phases, wanted, p, i + 1);
    var next := if phases[p].items[i].status in wanted then {Pos(p, i)} else {};
    forall x ensures x in after <==> x in before || x in next {
      WhereAt(phases, wanted, p, i, x);
      WhereAt(phases, wanted, p, i + 1, x);
    }
    WhereAt(phases, wanted, p, i, Pos(p, i));
    assert after == before + next && before !! next;
  }

  lemma {:induction false} CountedInPhase(phases: seq<Phase>, p: nat, i: nat)
    requires p < |phases| && i <= |phases[p].items|
    ensures |Where(phases, {Done}, p, i)| == |Where(phases, {Done}, p, 0)| + DoneIn(phases[p].items[..i])
    ensures |Where(phases, ALL, p, i)| == |Where(phases, ALL, p, 0)| + i
    decreases i
  {
    if i > 0 {
      CountedInPhase(phases, p, i - 1);
      WhereStep(phases, {Done}, p, i - 1);
      WhereStep(phases, ALL, p, i - 1);
      assert phases[p].items[..i][..i - 1] == phases[p].items[..i - 1];
    }
  }

  lemma {:induction false} CountedSoFar(phases: seq<Phase>, p: nat)
    requires p <= |phases|
    ensures |Where(phases, {Done}, p, 0)| == DoneCount(phases[..p])
    ensures |Where(phases, ALL, p, 0)| == ItemCount(phases[..p])
    decreases p
  {
    if p == 0 {
      assert Where(phases, {Done}, 0, 0) == {} && Where(phases, ALL, 0, 0) == {};
    } else {
      var n := |phases[p - 1].items|;
      CountedSoFar(phases, p - 1);
      CountedInPhase(phases, p - 1, n);
      assert phases[..p][..p - 1] == phases[..p - 1] && phases[p - 1].items[..n] == phases[p - 1].items;
      assert Where(phases, {Done}, p, 0) == Where(phases, {Done}, p - 1, n);
      assert Where(phases, ALL, p, 0) == Where(phases, ALL, p - 1, n);
    }
  }

  /** The counts of the summary are the number of places holding a done item and the number of places. */
  lemma {:induction false} SummaryExactly(phases: seq<Phase>, done: set<Pos>, all: set<Pos>)
    requires forall x :: x in done <==> HasStatus(phases, x, Done)
    requires forall x :: x in all <==> At(phases, x)
    ensures DoneCount(phases) == |done| && ItemCount(phases) == |all|
  {
    var p := |phases|;
    CountedSoFar(phases, p);
    assert phases[..p] == phases;
    assert done == Where(phases, {Done}, p, 0) by {
      forall x ensures x in done <==> x in Where(phases, {Done}, p, 0) {
        assert HasStatus(phases, x, Done) <==> x in Where(phases, {Done}, p, 0);
      }
    }
    assert all == Where(phases, ALL, p, 0) by {
      forall x ensures x in all <==> x in Where(phases, ALL, p, 0) {
        if At(phases, x) { EveryStatus(Get(phases, x).status); }
      }
    }
  }

  lemma EveryStatus(status: Status)
    ensures status in ALL
  {
  }
}
