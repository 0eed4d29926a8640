/** The phased todo list: its operations and the automatic promotion that follows each of them. */
module Todo {
  import opened Wrappers

  datatype Status = Pending | InProgress | Done | Dropped | Blocked

  datatype Item = Item(task: string, phase: string, status: Status, reason: Option<string>)

  datatype Phase = Phase(name: string, items: seq<Item>)

  datatype Op = Init | Start | Finish | Drop | Block | Unblock | Append | Remove | View

  datatype Params = Params(
    op: Op, list: seq<(string, seq<string>)>, items: seq<string>,
    task: Option<string>, phase: Option<string>, reason: Option<string>)

  /** Where an item stands: phase order first, then item order. */
  datatype Pos = Pos(p: nat, i: nat)

  predicate At(phases: seq<Phase>, x: Pos) {
    x.p < |phases| && x.i < |phases[x.p].items|
  }

  function Get(phases: seq<Phase>, x: Pos): Item
    requires At(phases, x)
  {
    phases[x.p].items[x.i]
  }

  function Set(phases: seq<Phase>, x: Pos, item: Item): (r: seq<Phase>)
    requires At(phases, x)
    ensures SameShape(phases, r)
    ensures forall y :: At(phases, y) ==> Get(r, y) == if y == x then item else Get(phases, y)
  {
    phases[x.p := phases[x.p].(items := phases[x.p].items[x.i := item])]
  }

  function SetStatus(phases: seq<Phase>, x: Pos, status: Status): (r: seq<Phase>)
    requires At(phases, x)
  {
    Set(phases, x, Get(phases, x).(status := status))
  }

  predicate Earlier(x: Pos, y: Pos) {
    x.p < y.p || (x.p == y.p && x.i < y.i)
  }

  /** Same phases, same numbers of items. */
  predicate SameShape(a: seq<Phase>, b: seq<Phase>) {
    |a| == |b| && forall p :: 0 <= p < |a| ==> a[p].name == b[p].name && |a[p].items| == |b[p].items|
  }

  /** The same list of tasks; statuses and block reasons may differ. */
  ghost predicate SameTasks(a: seq<Phase>, b: seq<Phase>) {
    SameShape(a, b) && forall x :: At(a, x) ==> Get(b, x).task == Get(a, x).task && Get(b, x).phase == Get(a, x).phase
  }

  lemma {:induction false} SamePhases(a: seq<Phase>, b: seq<Phase>)
    requires SameShape(a, b) && forall x :: At(a, x) ==> Get(a, x) == Get(b, x)
    ensures a == b
  {
    forall p | 0 <= p < |a| ensures a[p] == b[p] {
      forall i | 0 <= i < |a[p].items| ensures a[p].items[i] == b[p].items[i] {
        assert Get(a, Pos(p, i)) == Get(b, Pos(p, i));
      }
      assert a[p].items == b[p].items;
    }
  }

  // ---------------------------------------------------------------- the promotion, declaratively

  ghost predicate HasStatus(phases: seq<Phase>, x: Pos, status: Status) {
    At(phases, x) && Get(phases, x).status == status
  }

  ghost predicate Any(phases: seq<Phase>, status: Status) {
    exists x :: HasStatus(phases, x, status)
  }

  ghost predicate IsFirst(phases: seq<Phase>, x: Pos, status: Status) {
    HasStatus(phases, x, status) && forall y :: HasStatus(phases, y, status) ==> !Earlier(y, x)
  }

  /** If something is in progress, only the earliest of it stays so; otherwise the earliest pending
      item is promoted; nothing else changes. */
  ghost function Promoted(phases: seq<Phase>, x: Pos): Item
    requires At(phases, x)
  {
    var it := Get(phases, x);
    if Any(phases, InProgress) then
      if it.status == InProgress && !IsFirst(phases, x, InProgress) then it.(status := Pending) else it
    else
      if IsFirst(phases, x, Pending) then it.(status := InProgress) else it
  }

  ghost predicate Enforced(before: seq<Phase>, after: seq<Phase>) {
    SameShape(before, after) && forall x :: At(before, x) ==> Get(after, x) == Promoted(before, x)
  }

  /** Some position with the status is the first one. */
  lemma {:induction false} FirstExists(phases: seq<Phase>, x: Pos, status: Status) returns (first: Pos)
    requires HasStatus(phases, x, status)
    ensures IsFirst(phases, first, status)
    decreases x.p, x.i
  {
    if exists y :: HasStatus(phases, y, status) && Earlier(y, x) {
      var y :| HasStatus(phases, y, status) && Earlier(y, x);
      first := FirstExists(phases, y, status);
    } else {
      first := x;
    }
  }

  /** At most one item is in progress, and none is left pending while nothing is. */
  ghost predicate Settled(phases: seq<Phase>) {
    && (forall x, y :: HasStatus(phases, x, InProgress) && HasStatus(phases, y, InProgress) ==> x == y)
    && (Any(phases, Pending) ==> Any(phases, InProgress))
  }

  lemma {:induction false} ActiveWasFirst(before: seq<Phase>, after: seq<Phase>, x: Pos)
    requires Enforced(before, after) && HasStatus(after, x, InProgress)
    ensures IsFirst(before, x, if Any(before, InProgress) then InProgress else Pending)
  {
    assert At(before, x) && Get(after, x) == Promoted(before, x);
    if !Any(before, InProgress) {
      assert !HasStatus(before, x, InProgress);
    }
  }

  /** The promotion settles any list. */
  lemma {:induction false} PromotionSettles(before: seq<Phase>, after: seq<Phase>)
    requires Enforced(before, after)
    ensures Settled(after)
  {
    forall x, y | HasStatus(after, x, InProgress) && HasStatus(after, y, InProgress) ensures x == y {
      ActiveWasFirst(before, after, x);
      ActiveWasFirst(before, after, y);
      assert !Earlier(x, y) && !Earlier(y, x);
    }
    if Any(after, Pending) {
      var x :| HasStatus(after, x, Pending);
      assert At(before, x) && Get(after, x) == Promoted(before, x);
      if Any(before, InProgress) {
        var z :| HasStatus(before, z, InProgress);
        var first := FirstExists(before, z, InProgress);
        assert Get(after, first) == Promoted(before, first);
        assert HasStatus(after, first, InProgress);
      } else {
        var first := FirstExists(before, x, Pending);
        assert Get(after, first) == Promoted(before, first);
        assert HasStatus(after, first, InProgress);
      }
    }
  }

  /** A settled list is left alone, so running the promotion twice changes nothing. */
  lemma {:induction false} SettledStays(phases: seq<Phase>, after: seq<Phase>)
    requires Settled(phases) && Enforced(phases, after)
    ensures after == phases
  {
    forall x | At(phases, x) ensures Get(phases, x) == Get(after, x) {
      assert Get(after, x) == Promoted(phases, x);
      if Any(phases, InProgress) {
        if HasStatus(phases, x, InProgress) {
          assert IsFirst(phases, x, InProgress);
        }
      } else {
        assert !HasStatus(phases, x, Pending);
      }
    }
    SamePhases(phases, after);
  }

  // ---------------------------------------------------------------- what each operation does

  ghost predicate IsTask(phases: seq<Phase>, x: Pos, task: string) {
    At(phases, x) && Get(phases, x).task == task
  }

  /** The first item with this text. */
  ghost predicate Finds(phases: seq<Phase>, task: string, x: Pos) {
    IsTask(phases, x, task) && forall y :: IsTask(phases, y, task) ==> !Earlier(y, x)
  }

  /** The first phase with this name. */
  predicate FindsPhase(phases: seq<Phase>, name: string, p: nat) {
    p < |phases| && phases[p].name == name && forall q :: 0 <= q < p ==> phases[q].name != name
  }

  /** The items that an operation is about: the one item its task names or, without a task, all
      the items of the first phase it names. */
  ghost predicate Targets(phases: seq<Phase>, params: Params, x: Pos) {
    if Truthy(params.task) then Finds(phases, params.task.value, x)
    else Truthy(params.phase) && At(phases, x) && FindsPhase(phases, params.phase.value, x.p)
  }

  ghost predicate Starts(phases: seq<Phase>, params: Params) {
    Truthy(params.task) && exists x :: Finds(phases, params.task.value, x)
  }

  /** What a status operation makes of one item, before the promotion. */
  ghost function Marked(phases: seq<Phase>, params: Params, x: Pos): Item
    requires At(phases, x)
  {
    var it := Get(phases, x);
    var byTask := Truthy(params.task);
    match params.op
    case Start =>
      if !Starts(phases, params) then it
      else if Finds(phases, params.task.value, x) then it.(status := InProgress)
      else if it.status == InProgress then it.(status := Pending) else it
    case Finish =>
      if Targets(phases, params, x) && (byTask || it.status != Dropped) then it.(status := Done) else it
    case Drop =>
      if Targets(phases, params, x) then it.(status := Dropped) else it
    case Block =>
      if Targets(phases, params, x) && (byTask || (it.status != Done && it.status != Dropped))
      then it.(status := Blocked, reason := if Truthy(params.reason) then params.reason else it.reason) else it
    case Unblock =>
      if Targets(phases, params, x) && it.status == Blocked then it.(status := Pending, reason := None) else it
    case Init => it
    case Append => it
    case Remove => it
    case View => it
  }

  predicate IsStatusOp(op: Op) {
    op == Start || op == Finish || op == Drop || op == Block || op == Unblock || op == View
  }

  ghost predicate MarkedAll(before: seq<Phase>, params: Params, after: seq<Phase>) {
    SameShape(before, after) && forall x :: At(before, x) ==> Get(after, x) == Marked(before, params, x)
  }

  function Fresh(phase: string, tasks: seq<string>): seq<Item> {
    seq(|tasks|, i requires 0 <= i < |tasks| => Item(tasks[i], phase, Pending, None))
  }

  function Listed(list: seq<(string, seq<string>)>): seq<Phase> {
    seq(|list|, i requires 0 <= i < |list| => Phase(list[i].0, Fresh(list[i].0, list[i].1)))
  }

  const GENERAL := "General"

  function Initial(params: Params): seq<Phase> {
    if |params.list| > 0 then Listed(params.list)
    else if |params.items| > 0 then [Phase(GENERAL, Fresh(GENERAL, params.items))]
    else []
  }

  predicate HasPhase(phases: seq<Phase>, name: string) {
    exists ph <- phases :: ph.name == name
  }

  /** The items go to the end of the first phase of that name, which is added if there is none. */
  predicate Appended(before: seq<Phase>, name: string, tasks: seq<string>, after: seq<Phase>) {
    if HasPhase(before, name) then
      exists p :: 0 <= p < |before| && FindsPhase(before, name, p) &&
        after == before[p := before[p].(items := before[p].items + Fresh(name, tasks))]
    else after == before + [Phase(name, Fresh(name, tasks))]
  }

  function WithoutTask(items: seq<Item>, task: string): seq<Item> {
    if items == [] then []
    else WithoutTask(items[..|items| - 1], task) + if items[|items| - 1].task != task then [items[|items| - 1]] else []
  }

  function WithoutPhase(phases: seq<Phase>, name: string): seq<Phase> {
    if phases == [] then []
    else
      WithoutPhase(phases[..|phases| - 1], name) +
        if phases[|phases| - 1].name != name then [phases[|phases| - 1]] else []
  }

  function Removed(phases: seq<Phase>, params: Params): seq<Phase> {
    if Truthy(params.task) then
      seq(|phases|, p requires 0 <= p < |phases| =>
        phases[p].(items := WithoutTask(phases[p].items, params.task.value)))
    else if Truthy(params.phase) then WithoutPhase(phases, params.phase.value)
    else []
  }

  /** The list before the promotion. */
  ghost predicate Applied(before: seq<Phase>, params: Params, after: seq<Phase>) {
    match params.op
    case Init => after == Initial(params)
    case Append => Appended(before, if params.phase.Some? then params.phase.value else GENERAL, params.items, after)
    case Remove => after == Removed(before, params)
    case Start => MarkedAll(before, params, after)
    case Finish => MarkedAll(before, params, after)
    case Drop => MarkedAll(before, params, after)
    case Block => MarkedAll(before, params, after)
    case Unblock => MarkedAll(before, params, after)
    case View => after == before
  }

  datatype Result = Result(phases: seq<Phase>, activeTask: Option<Item>, completed: nat, total: nat)

  function DoneIn(items: seq<Item>): nat {
    if items == [] then 0
    else DoneIn(items[..|items| - 1]) + if items[|items| - 1].status == Done then 1 else 0
  }

  function DoneCount(phases: seq<Phase>): nat {
    if phases == [] then 0 else DoneCount(phases[..|phases| - 1]) + DoneIn(phases[|phases| - 1].items)
  }

  function ItemCount(phases: seq<Phase>): nat {
    if phases == [] then 0 else ItemCount(phases[..|phases| - 1]) + |phases[|phases| - 1].items|
  }

  /** `active` is the first item in progress, if there is one before position `end`. */
  ghost predicate ActiveSoFar(phases: seq<Phase>, end: Pos, active: Option<Item>) {
    if active.None? then forall x :: HasStatus(phases, x, InProgress) ==> !Earlier(x, end)
    else exists x :: IsFirst(phases, x, InProgress) && active == Some(Get(phases, x))
  }

  lemma {:induction false} ActiveStep(phases: seq<Phase>, p: nat, i: nat, active: Option<Item>)
    requires At(phases, Pos(p, i)) && ActiveSoFar(phases, Pos(p, i), active)
    ensures
      var it := phases[p].items[i];
      ActiveSoFar(phases, Pos(p, i + 1), if it.status == InProgress && active.None? then Some(it) else active)
  {
    if active.None? {
      if phases[p].items[i].status == InProgress {
        assert IsFirst(phases, Pos(p, i), InProgress);
      } else {
        assert !HasStatus(phases, Pos(p, i), InProgress);
      }
    }
  }

  // ---------------------------------------------------------------- the machine

  class TodoStateMachine {
    var phases: seq<Phase>

    constructor (initialPhases: seq<Phase>)
      ensures phases == initialPhases
    {
      phases := initialPhases;
    }

    /** Any operation on any list: its own effect, then the promotion, which leaves the
        list settled. */
    method Execute(params: Params) returns (result: Result)
      modifies this
      ensures exists marked :: Applied(old(phases), params, marked) && Enforced(marked, phases)
      ensures Settled(phases)
      ensures result.phases == phases
      ensures result.completed == DoneCount(phases) && result.total == ItemCount(phases)
      ensures result.activeTask.Some? <==> Any(phases, InProgress)
      ensures forall x :: HasStatus(phases, x, InProgress) ==> result.activeTask == Some(Get(phases, x))
    {
      match params.op {
        case Init => Initialise(params);
        case Start => MarkStarted(params);
        case Finish => MarkDone(params);
        case Drop => MarkDropped(params);
        case Block => MarkBlocked(params);
        case Unblock => MarkUnblocked(params);
        case Append => AppendItems(params);
        case Remove => RemoveItems(params);
        case View =>
      }
      ghost var marked := phases;
      assert Applied(old(phases), params, marked);
      EnforceAutoPromotion();
      PromotionSettles(marked, phases);
      result := CreateResult();
    }

    /** The items in progress, in order. */
    method GatherInProgress() returns (list: seq<Pos>)
      ensures forall x :: x in list <==> HasStatus(phases, x, InProgress)
      ensures forall a, b :: 0 <= a < b < |list| ==> Earlier(list[a], list[b])
    {
      list := [];
      for p := 0 to |phases|
        invariant forall x :: x in list <==> HasStatus(phases, x, InProgress) && Earlier(x, Pos(p, 0))
        invariant forall a, b :: 0 <= a < b < |list| ==> Earlier(list[a], list[b])
      {
        for i := 0 to |phases[p].items|
          invariant forall x :: x in list <==> HasStatus(phases, x, InProgress) && Earlier(x, Pos(p, i))
          invariant forall a, b :: 0 <= a < b < |list| ==> Earlier(list[a], list[b])
        {
          if phases[p].items[i].status == InProgress {
            assert HasStatus(phases, Pos(p, i), InProgress);
            assert forall x <- list :: Earlier(x, Pos(p, i));
            list := list + [Pos(p, i)];
          }
        }
      }
    }

    method PromoteEarliestPending()
      modifies this
      ensures SameShape(old(phases), phases)
      ensures forall x :: At(phases, x) ==>
                Get(phases, x) ==
                  var it := Get(old(phases), x);
                  if IsFirst(old(phases), x, Pending) then it.(status := InProgress) else it
    {
      for p := 0 to |phases|
        invariant phases == old(phases)
        invariant forall x :: HasStatus(phases, x, Pending) ==> !Earlier(x, Pos(p, 0))
      {
        for i := 0 to |phases[p].items|
          invariant phases == old(phases)
          invariant forall x :: HasStatus(phases, x, Pending) ==> !Earlier(x, Pos(p, i))
        {
          if phases[p].items[i].status == Pending {
            assert IsFirst(phases, Pos(p, i), Pending);
            phases := SetStatus(phases, Pos(p, i), InProgress);
            FirstIsOne(old(phases), Pending);
            return;
          }
          assert !HasStatus(phases, Pos(p, i), Pending);
        }
      }
    }

    method EnforceAutoPromotion()
      modifies this
      ensures Enforced(old(phases), phases)
    {
      var list := GatherInProgress();
      if |list| > 1 {
        for k := 1 to |list|
          invariant SameShape(old(phases), phases)
          invariant forall x :: At(phases, x) ==>
                      Get(phases, x) ==
                        var it := Get(old(phases), x);
                        if x in list[1..k] then it.(status := Pending) else it
        {
          assert list[k] in list;
          assert list[1..k + 1] == list[1..k] + [list[k]];
          phases := SetStatus(phases, list[k], Pending);
        }
      }
      if |list| == 0 {
        PromoteEarliestPending();
        assert !Any(old(phases), InProgress);
      } else {
        assert list[0] in list;
        assert list == [list[0]] + list[1..];
        assert IsFirst(old(phases), list[0], InProgress);
        FirstIsOne(old(phases), InProgress);
        assert forall x :: At(old(phases), x) ==>
            Get(phases, x) ==
              var it := Get(old(phases), x);
              if x in list[1..] then it.(status := Pending) else it;
        forall x | At(old(phases), x) ensures Get(phases, x) == Promoted(old(phases), x) {
          assert x in list <==> HasStatus(old(phases), x, InProgress);
          assert x in list[1..] ==> x != list[0];
        }
      }
    }

    /** The counts, and the first item in progress. */
    method CreateResult() returns (result: Result)
      ensures result.phases == phases
      ensures result.completed == DoneCount(phases) && result.total == ItemCount(phases)
      ensures result.activeTask.None? ==> !Any(phases, InProgress)
      ensures result.activeTask.Some? ==>
                exists x :: IsFirst(phases, x, InProgress) && result.activeTask == Some(Get(phases, x))
    {
      var total, completed := 0, 0;
      var inProgress: Option<Item> := None;
      for p := 0 to |phases|
        invariant total == ItemCount(phases[..p]) && completed == DoneCount(phases[..p])
        invariant ActiveSoFar(phases, Pos(p, 0), inProgress)
      {
        assert phases[..p + 1][..p] == phases[..p];
        for i := 0 to |phases[p].items|
          invariant total == ItemCount(phases[..p]) + i
          invariant completed == DoneCount(phases[..p]) + DoneIn(phases[p].items[..i])
          invariant ActiveSoFar(phases, Pos(p, i), inProgress)
        {
          hide ActiveSoFar, ItemCount, DoneCount;
          var it := phases[p].items[i];
          assert phases[p].items[..i + 1][..i] == phases[p].items[..i];
          total := total + 1;
          if it.status == Done { completed := completed + 1; }
          ActiveStep(phases, p, i, inProgress);
          if it.status == InProgress && inProgress.None? { inProgress := Some(it); }
        }
        assert phases[p].items[..|phases[p].items|] == phases[p].items;
      }
      assert phases[..|phases|] == phases;
      result := Result(phases, inProgress, completed, total);
    }

    method Initialise(params: Params)
      modifies this
      ensures phases == Initial(params)
    {
      phases := [];
      if |params.list| > 0 {
        for i := 0 to |params.list|
          invariant phases == Listed(params.list)[..i]
        {
          var items := MakeItems(params.list[i].0, params.list[i].1);
          phases := phases + [Phase(params.list[i].0, items)];
        }
      } else if |params.items| > 0 {
        var items := MakeItems(GENERAL, params.items);
        phases := phases + [Phase(GENERAL, items)];
      }
    }

    method MakeItems(phase: string, tasks: seq<string>) returns (items: seq<Item>)
      ensures items == Fresh(phase, tasks)
    {
      items := [];
      for i := 0 to |tasks|
        invariant items == Fresh(phase, tasks)[..i]
      {
        items := items + [Item(tasks[i], phase, Pending, None)];
      }
    }

    method FindItem(task: string) returns (found: Option<Pos>)
      ensures found.Some? ==> Finds(phases, task, found.value)
      ensures found.None? ==> forall x :: !IsTask(phases, x, task)
    {
      for p := 0 to |phases|
        invariant forall x :: IsTask(phases, x, task) ==> !Earlier(x, Pos(p, 0))
      {
        for i := 0 to |phases[p].items|
          invariant forall x :: IsTask(phases, x, task) ==> !Earlier(x, Pos(p, i))
        {
          if phases[p].items[i].task == task {
            return Some(Pos(p, i));
          }
        }
      }
      found := None;
    }

    method FindPhase(name: string) returns (p: nat)
      ensures p <= |phases|
      ensures p < |phases| ==> FindsPhase(phases, name, p)
      ensures p == |phases| ==> !HasPhase(phases, name)
    {
      for k := 0 to |phases|
        invariant forall q :: 0 <= q < k ==> phases[q].name != name
      {
        if phases[k].name == name { return k; }
      }
      p := |phases|;
    }

    method DemoteOtherInProgress()
      modifies this
      ensures SameShape(old(phases), phases)
      ensures forall x :: At(phases, x) ==>
                Get(phases, x) ==
                  var it := Get(old(phases), x);
                  if it.status == InProgress then it.(status := Pending) else it
    {
      for p := 0 to |phases|
        invariant SameShape(old(phases), phases)
        invariant forall x :: At(phases, x) ==>
                    Get(phases, x) ==
                      var it := Get(old(phases), x);
                      if it.status == InProgress && x.p < p then it.(status := Pending) else it
      {
        for i := 0 to |phases[p].items|
          invariant SameShape(old(phases), phases)
          invariant forall x :: At(phases, x) ==>
                      Get(phases, x) ==
                        var it := Get(old(phases), x);
                        if it.status == InProgress && Earlier(x, Pos(p, i)) then it.(status := Pending) else it
        {
          assert At(phases, Pos(p, i));
          if phases[p].items[i].status == InProgress {
            phases := SetStatus(phases, Pos(p, i), Pending);
          }
        }
      }
    }

    /** A loop over the items of one phase that rewrites each of them. */
    method RewritePhase(p: nat, f: Item -> Item)
      requires p < |phases|
      modifies this
      ensures SameShape(old(phases), phases)
      ensures forall x :: At(phases, x) ==>
                Get(phases, x) == if x.p == p then f(Get(old(phases), x)) else Get(old(phases), x)
    {
      for i := 0 to |phases[p].items|
        invariant SameShape(old(phases), phases)
        invariant forall x :: At(phases, x) ==>
                    Get(phases, x) == if x.p == p && x.i < i then f(Get(old(phases), x)) else Get(old(phases), x)
      {
        assert At(phases, Pos(p, i));
        phases := Set(phases, Pos(p, i), f(phases[p].items[i]));
      }
    }

    method MarkStarted(params: Params)
      requires params.op == Start
      modifies this
      ensures MarkedAll(old(phases), params, phases)
    {
      if Truthy(params.task) {
        var item := FindItem(params.task.value);
        if item.Some? {
          FindsOne(phases, params.task.value);
          DemoteOtherInProgress();
          phases := SetStatus(phases, item.value, InProgress);
        }
      }
    }

    method MarkDone(params: Params)
      requires params.op == Finish
      modifies this
      ensures MarkedAll(old(phases), params, phases)
    {
      if Truthy(params.task) {
        var item := FindItem(params.task.value);
        FindsOne(phases, params.task.value);
        if item.Some? { phases := SetStatus(phases, item.value, Done); }
      } else if Truthy(params.phase) {
        var p := FindPhase(params.phase.value);
        FindsOnePhase(phases, params.phase.value);
        if p < |phases| {
          RewritePhase(p, (it: Item) => if it.status != Dropped then it.(status := Done) else it);
        }
      }
    }

    method MarkDropped(params: Params)
      requires params.op == Drop
      modifies this
      ensures MarkedAll(old(phases), params, phases)
    {
      if Truthy(params.task) {
        var item := FindItem(params.task.value);
        FindsOne(phases, params.task.value);
        if item.Some? { phases := SetStatus(phases, item.value, Dropped); }
      } else if Truthy(params.phase) {
        var p := FindPhase(params.phase.value);
        FindsOnePhase(phases, params.phase.value);
        if p < |phases| {
          RewritePhase(p, (it: Item) => it.(status := Dropped));
        }
      }
    }

    method MarkBlocked(params: Params)
      requires params.op == Block
      modifies this
      ensures MarkedAll(old(phases), params, phases)
    {
      var reason := params.reason;
      if Truthy(params.task) {
        var item := FindItem(params.task.value);
        FindsOne(phases, params.task.value);
        if item.Some? {
          var it := Get(phases, item.value);
          phases := Set(phases, item.value,
                        it.(status := Blocked, reason := if Truthy(reason) then reason else it.reason));
        }
      } else if Truthy(params.phase) {
        var p := FindPhase(params.phase.value);
        FindsOnePhase(phases, params.phase.value);
        if p < |phases| {
          RewritePhase(p, (it: Item) =>
            if it.status != Done && it.status != Dropped
            then it.(status := Blocked, reason := if Truthy(reason) then reason else it.reason) else it);
        }
      }
    }

    method MarkUnblocked(params: Params)
      requires params.op == Unblock
      modifies this
      ensures MarkedAll(old(phases), params, phases)
    {
      if Truthy(params.task) {
        var item := FindItem(params.task.value);
        FindsOne(phases, params.task.value);
        if item.Some? && Get(phases, item.value).status == Blocked {
          phases := Set(phases, item.value, Get(phases, item.value).(status := Pending, reason := None));
        }
      } else if Truthy(params.phase) {
        var p := FindPhase(params.phase.value);
        FindsOnePhase(phases, params.phase.value);
        if p < |phases| {
          RewritePhase(p, (it: Item) =>
            if it.status == Blocked then it.(status := Pending, reason := None) else it);
        }
      }
    }

    method AppendItems(params: Params)
      modifies this
      ensures Appended(old(phases), if params.phase.Some? then params.phase.value else GENERAL, params.items, phases)
    {
      var name := if params.phase.Some? then params.phase.value else GENERAL;
      var p := FindPhase(name);
      var found := p < |phases|;
      if !found { phases := phases + [Phase(name, [])]; }
      ghost var target := phases;
      ghost var added := Fresh(name, params.items);
      for i := 0 to |params.items|
        invariant p < |phases| == |target|
        invariant forall q :: 0 <= q < |target| ==>
                    phases[q] == if q == p then target[q].(items := target[q].items + added[..i]) else target[q]
      {
        assert added[..i + 1] == added[..i] + [added[i]];
        phases := phases[p := phases[p].(items := phases[p].items + [Item(params.items[i], name, Pending, None)])];
      }
      assert added[..|params.items|] == added;
      assert phases == target[p := target[p].(items := target[p].items + added)];
      if found {
        assert HasPhase(old(phases), name) by { assert old(phases)[p] in old(phases); }
      } else {
        assert phases == old(phases) + [Phase(name, [] + added)];
        assert [] + added == added;
      }
    }

    static method FilterTask(items: seq<Item>, task: string) returns (kept: seq<Item>)
      ensures kept == WithoutTask(items, task)
    {
      kept := [];
      for i := 0 to |items|
        invariant kept == WithoutTask(items[..i], task)
      {
        assert items[..i + 1][..i] == items[..i];
        if items[i].task != task { kept := kept + [items[i]]; }
      }
      assert items[..|items|] == items;
    }

    static method FilterPhase(phases: seq<Phase>, name: string) returns (kept: seq<Phase>)
      ensures kept == WithoutPhase(phases, name)
    {
      kept := [];
      for p := 0 to |phases|
        invariant kept == WithoutPhase(phases[..p], name)
      {
        assert phases[..p + 1][..p] == phases[..p];
        if phases[p].name != name { kept := kept + [phases[p]]; }
      }
      assert phases[..|phases|] == phases;
    }

    method RemoveTask(task: string)
      modifies this
      ensures |phases| == |old(phases)|
      ensures forall p :: 0 <= p < |phases| ==>
                phases[p] == old(phases)[p].(items := WithoutTask(old(phases)[p].items, task))
    {
      for p := 0 to |phases|
        invariant |phases| == |old(phases)|
        invariant forall q :: 0 <= q < |phases| ==>
                    phases[q] ==
                      if q < p then old(phases)[q].(items := WithoutTask(old(phases)[q].items, task)) else old(phases)[q]
      {
        var items := FilterTask(phases[p].items, task);
        phases := phases[p := phases[p].(items := items)];
      }
    }

    method RemoveItems(params: Params)
      modifies this
      ensures phases == Removed(old(phases), params)
    {
      if Truthy(params.task) {
        RemoveTask(params.task.value);
      } else if Truthy(params.phase) {
        phases := FilterPhase(phases, params.phase.value);
      } else {
        phases := [];
      }
    }
  }

  lemma {:induction false} FirstIsOne(phases: seq<Phase>, status: Status)
    ensures forall x, y :: IsFirst(phases, x, status) && IsFirst(phases, y, status) ==> x == y
  {
  }

  lemma {:induction false} FindsOne(phases: seq<Phase>, task: string)
    ensures forall x, y :: Finds(phases, task, x) && Finds(phases, task, y) ==> x == y
  {
  }

  lemma {:induction false} FindsOnePhase(phases: seq<Phase>, name: string)
    ensures forall p, q :: FindsPhase(phases, name, p) && FindsPhase(phases, name, q) ==> p == q
  {
  }

  // ---------------------------------------------------------------- what an execution means

  /** An execution: the operation's own effect, then the promotion. */
  ghost predicate Executes(before: seq<Phase>, params: Params, marked: seq<Phase>, after: seq<Phase>) {
    Applied(before, params, marked) && Enforced(marked, after)
  }

  /** The one active item is the earliest in progress, or else the earliest pending; blocked, done and
      dropped items are never touched by the promotion. */
  lemma {:induction false} PromotionPicks(marked: seq<Phase>, after: seq<Phase>, x: Pos)
    requires Enforced(marked, after) && At(marked, x)
    ensures HasStatus(after, x, InProgress) <==>
            IsFirst(marked, x, if Any(marked, InProgress) then InProgress else Pending)
    ensures Get(marked, x).status in {Blocked, Done, Dropped} ==> Get(after, x) == Get(marked, x)
  {
    assert Get(after, x) == Promoted(marked, x);
    if HasStatus(after, x, InProgress) {
      ActiveWasFirst(marked, after, x);
    }
  }

  /** Status operations keep the list of tasks. */
  lemma {:induction false} StatusOpsKeepTasks(before: seq<Phase>, params: Params, marked: seq<Phase>, after: seq<Phase>)
    requires IsStatusOp(params.op) && Executes(before, params, marked, after)
    ensures SameTasks(before, after)
  {
    forall x | At(before, x)
      ensures Get(after, x).task == Get(before, x).task && Get(after, x).phase == Get(before, x).phase
    {
      assert At(marked, x) && Get(after, x) == Promoted(marked, x);
      if params.op != View {
        assert Get(marked, x) == Marked(before, params, x);
      }
    }
  }

  /** A start that finds its item leaves that item, and nothing else, active. */
  lemma {:induction false} StartedIsActive(
    before: seq<Phase>, params: Params, marked: seq<Phase>, after: seq<Phase>, x: Pos)
    requires params.op == Start && Starts(before, params) && Executes(before, params, marked, after)
    ensures HasStatus(after, x, InProgress) <==> Finds(before, params.task.value, x)
  {
    var item :| Finds(before, params.task.value, item);
    assert Get(marked, item) == Marked(before, params, item);
    assert HasStatus(marked, item, InProgress);
    FindsOne(before, params.task.value);
    forall y | HasStatus(marked, y, InProgress) ensures y == item {
      assert At(before, y) && Get(marked, y) == Marked(before, params, y);
    }
    assert IsFirst(marked, item, InProgress);
    if At(marked, x) {
      PromotionPicks(marked, after, x);
    }
  }

  /** A done item loses its status exactly to a start, block or drop that names it, or to a drop of
      its whole phase. */
  lemma {:induction false} DoneExactly(
    before: seq<Phase>, params: Params, marked: seq<Phase>, after: seq<Phase>, x: Pos)
    requires IsStatusOp(params.op) && Executes(before, params, marked, after)
    requires HasStatus(before, x, Done)
    ensures HasStatus(after, x, Done) <==>
            !(Targets(before, params, x) &&
              (params.op == Drop || (Truthy(params.task) && (params.op == Start || params.op == Block))))
  {
    assert At(marked, x) && Get(after, x) == Promoted(marked, x);
    if params.op != View {
      assert Get(marked, x) == Marked(before, params, x);
    }
    if params.op == Start && Truthy(params.task) && Finds(before, params.task.value, x) {
      StartedIsActive(before, params, marked, after, x);
    } else {
      PromotionPicks(marked, after, x);
    }
  }

  /** So completed tasks can revert: starting a done task makes it active again. */
  lemma {:induction false} CompletedReverts(marked: seq<Phase>, after: seq<Phase>)
    requires
      Executes([Phase("P", [Item("t", "P", Done, None)])],
               Params(Start, [], [], Some("t"), None, None), marked, after)
    ensures after == [Phase("P", [Item("t", "P", InProgress, None)])]
  {
    var before := [Phase("P", [Item("t", "P", Done, None)])];
    var params := Params(Start, [], [], Some("t"), None, None);
    assert forall y :: At(before, y) ==> y == Pos(0, 0);
    assert Finds(before, "t", Pos(0, 0)) by { assert IsTask(before, Pos(0, 0), "t"); }
    StartedIsActive(before, params, marked, after, Pos(0, 0));
    assert Get(marked, Pos(0, 0)) == Marked(before, params, Pos(0, 0));
    assert Get(after, Pos(0, 0)) == Promoted(marked, Pos(0, 0));
    SamePhases(after, [Phase("P", [Item("t", "P", InProgress, None)])]);
  }
}
