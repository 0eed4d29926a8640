/** Which reasoning items of a replayed history are tied to a computer call or to another output,
    and the passes that strip ids from the items that are not. */
module ReasoningLinkage {
  import opened Wrappers

  /** A field that is missing, a string, or something else. */
  datatype Field = Absent | Text(text: string) | NotText

  /** A history item; `ref` tells apart objects with the same fields, so that two slots hold the same
      object exactly when they hold the same value. */
  datatype Item = Item(
    ref: nat, kind: Field, role: Field, execution: Field, id: Field, callId: Field, hasStatus: bool)

  const CLIENT_KINDS: set<string> := {
    "input_text", "input_image", "input_file", "input_audio", "function_call_output",
    "custom_tool_call_output", "computer_call_output", "local_shell_call_output", "shell_call_output",
    "apply_patch_call_output", "mcp_approval_response", "compaction", "compaction_summary",
    "compaction_trigger", "item_reference"}

  /** Items that the client put in; they separate one response from the next. */
  predicate IsBoundary(item: Item) {
    if item.kind == Text("message") then item.role != Text("assistant")
    else if item.kind == Absent && item.role.Text? then item.role != Text("assistant")
    else if item.kind == Text("additional_tools") then item.role != Text("assistant")
    else if item.kind == Text("tool_search_output") then item.execution != Text("server")
    else item.kind.Text? && item.kind.text in CLIENT_KINDS
  }

  predicate IsReasoning(item: Item) {
    item.kind == Text("reasoning")
  }

  predicate IsComputerCall(item: Item) {
    item.kind == Text("computer_call") && item.id.Text?
  }

  predicate IsComputerOutput(item: Item) {
    item.kind == Text("computer_call_output") && item.callId.Text?
  }

  /** An output, other than reasoning and computer calls, that keeps its id. */
  predicate IsOtherOutput(item: Item) {
    !IsBoundary(item) && !IsReasoning(item) && item.kind != Text("computer_call") && item.id.Text?
  }

  // ---------------------------------------------------------------- what the passes mean

  predicate NoBoundary(items: seq<Item>, from: nat, to: nat)
    requires to <= |items|
  {
    forall k | from <= k < to :: !IsBoundary(items[k])
  }

  /** The output of a call comes after one of the slots of the call. */
  predicate OutputAfter(items: seq<Item>, j: nat, k: nat) {
    j < k < |items| && IsComputerOutput(items[k]) && items[k].callId == items[j].callId
  }

  ghost predicate AnsweredFrom(items: seq<Item>, from: nat, call: Item) {
    exists j: nat, k: nat :: from <= j < |items| && items[j] == call && OutputAfter(items, j, k)
  }

  ghost predicate Answered(items: seq<Item>, call: Item) {
    AnsweredFrom(items, 0, call)
  }

  /** The reasoning at slot i precedes a computer call at slot j in the same response. */
  ghost predicate Links(items: seq<Item>, answered: bool, i: nat, j: nat) {
    && i < j < |items| && IsReasoning(items[i]) && IsComputerCall(items[j])
    && NoBoundary(items, i, j) && (answered ==> Answered(items, items[j]))
  }

  ghost predicate Linked(items: seq<Item>, answered: bool, x: Item) {
    exists i: nat, j: nat :: i < |items| && items[i] == x && Links(items, answered, i, j)
  }

  /** The reasoning at slot i shares a response with another output at slot j, before or after it. */
  predicate Keeps(items: seq<Item>, i: nat, j: nat) {
    && i < |items| && j < |items| && IsReasoning(items[i]) && IsOtherOutput(items[j])
    && NoBoundary(items, i, j) && NoBoundary(items, j, i)
  }

  ghost predicate Retained(items: seq<Item>, x: Item) {
    exists i: nat, j: nat :: i < |items| && items[i] == x && Keeps(items, i, j)
  }

  // ---------------------------------------------------------------- the collectors

  ghost predicate OutputFrom(items: seq<Item>, from: nat, id: string) {
    exists k: nat :: from <= k < |items| && IsComputerOutput(items[k]) && items[k].callId == Text(id)
  }

  /** One more slot at the front of the part already seen. */
  lemma AnsweredFromFront(items: seq<Item>, index: nat, call: Item)
    requires index < |items|
    ensures AnsweredFrom(items, index, call) <==>
            AnsweredFrom(items, index + 1, call) ||
            (items[index] == call && call.callId.Text? && OutputFrom(items, index + 1, call.callId.text))
  {
    if AnsweredFrom(items, index, call) && !AnsweredFrom(items, index + 1, call) {
      var j: nat, k: nat :| index <= j < |items| && items[j] == call && OutputAfter(items, j, k);
      assert j == index;
    }
    if items[index] == call && call.callId.Text? && OutputFrom(items, index + 1, call.callId.text) {
      var k: nat :| index + 1 <= k < |items| && IsComputerOutput(items[k]) && items[k].callId == call.callId;
      assert OutputAfter(items, index, k);
    }
  }

  /** The backward pass: the id-bearing calls whose output lies behind them. */
  method CollectAnswered(items: seq<Item>) returns (answered: set<Item>)
    ensures forall x :: x in answered <==> IsComputerCall(x) && Answered(items, x)
  {
    answered := {};
    var laterOutputs: set<string> := {};
    var index: nat := |items|;
    while index > 0
      invariant index <= |items|
      invariant forall id :: id in laterOutputs <==> OutputFrom(items, index, id)
      invariant forall x :: x in answered <==> IsComputerCall(x) && AnsweredFrom(items, index, x)
    {
      index := index - 1;
      var item := items[index];
      forall x ensures AnsweredFrom(items, index, x) <==>
                       AnsweredFrom(items, index + 1, x) ||
                       (items[index] == x && x.callId.Text? && OutputFrom(items, index + 1, x.callId.text))
      {
        AnsweredFromFront(items, index, x);
      }
      OutputFromFront(items, index);
      if IsComputerOutput(item) {
        laterOutputs := laterOutputs + {item.callId.text};
      } else if IsComputerCall(item) && item.callId.Text? && item.callId.text in laterOutputs {
        answered := answered + {item};
      }
    }
  }

  lemma OutputFromFront(items: seq<Item>, index: nat)
    requires index < |items|
    ensures forall id :: OutputFrom(items, index, id) <==>
              OutputFrom(items, index + 1, id) || (IsComputerOutput(items[index]) && items[index].callId == Text(id))
  {
  }

  /** Links whose call is before slot n. */
  ghost predicate LinkedBefore(items: seq<Item>, answered: bool, n: nat, x: Item) {
    exists i: nat, j: nat :: j < n && i < |items| && items[i] == x && Links(items, answered, i, j)
  }

  /** Reasoning collected since the last boundary before slot n. */
  ghost predicate Pending(items: seq<Item>, n: nat, x: Item)
    requires n <= |items|
  {
    exists i: nat :: i < n && items[i] == x && IsReasoning(x) && NoBoundary(items, i, n)
  }

  lemma PendingStepOf(items: seq<Item>, n: nat, x: Item)
    requires n < |items|
    ensures Pending(items, n + 1, x) <==>
            !IsBoundary(items[n]) && (Pending(items, n, x) || (items[n] == x && IsReasoning(x)))
  {
  }

  lemma LinkedStepOf(items: seq<Item>, answered: bool, n: nat, x: Item)
    requires n < |items|
    ensures LinkedBefore(items, answered, n + 1, x) <==>
            LinkedBefore(items, answered, n, x) ||
            (IsComputerCall(items[n]) && (answered ==> Answered(items, items[n])) && Pending(items, n, x))
  {
    if LinkedBefore(items, answered, n + 1, x) && !LinkedBefore(items, answered, n, x) {
      var i: nat, j: nat :| j < n + 1 && i < |items| && items[i] == x && Links(items, answered, i, j);
      assert j == n;
    }
    if IsComputerCall(items[n]) && (answered ==> Answered(items, items[n])) && Pending(items, n, x) {
      var i: nat :| i < n && items[i] == x && IsReasoning(x) && NoBoundary(items, i, n);
      assert Links(items, answered, i, n);
    }
  }

  lemma PendingStep(items: seq<Item>, n: nat)
    requires n < |items|
    ensures forall x :: Pending(items, n + 1, x) <==>
              !IsBoundary(items[n]) && (Pending(items, n, x) || (items[n] == x && IsReasoning(x)))
  {
    forall x ensures Pending(items, n + 1, x) <==>
              !IsBoundary(items[n]) && (Pending(items, n, x) || (items[n] == x && IsReasoning(x)))
    {
      PendingStepOf(items, n, x);
    }
  }

  lemma LinkedStep(items: seq<Item>, answered: bool, n: nat)
    requires n < |items|
    ensures forall x :: LinkedBefore(items, answered, n + 1, x) <==>
              LinkedBefore(items, answered, n, x) ||
              (IsComputerCall(items[n]) && (answered ==> Answered(items, items[n])) && Pending(items, n, x))
  {
    forall x ensures LinkedBefore(items, answered, n + 1, x) <==>
              LinkedBefore(items, answered, n, x) ||
              (IsComputerCall(items[n]) && (answered ==> Answered(items, items[n])) && Pending(items, n, x))
    {
      LinkedStepOf(items, answered, n, x);
    }
  }

  lemma LinkedInAll(items: seq<Item>, answered: bool)
    ensures forall x :: LinkedBefore(items, answered, |items|, x) <==> Linked(items, answered, x)
  {
  }

  lemma CallsAreInside(x: Item)
    ensures IsComputerCall(x) || IsReasoning(x) ==> !IsBoundary(x)
  {
  }

  /** The reasoning items linked to a computer call; with `requireLaterOutput`, to one whose
      output follows. */
  method CollectComputerLinked(items: seq<Item>, requireLaterOutput: bool) returns (linked: set<Item>)
    ensures forall x :: x in linked <==> Linked(items, requireLaterOutput, x)
  {
    hide IsBoundary, Links, Answered, AnsweredFrom;
    var withLaterOutputs: set<Item> := {};
    if requireLaterOutput {
      withLaterOutputs := CollectAnswered(items);
    }
    linked := {};
    var pending: set<Item> := {};
    for n := 0 to |items|
      invariant forall x :: x in pending <==> Pending(items, n, x)
      invariant forall x :: x in linked <==> LinkedBefore(items, requireLaterOutput, n, x)
    {
      var item := items[n];
      PendingStep(items, n);
      LinkedStep(items, requireLaterOutput, n);
      CallsAreInside(item);
      if IsBoundary(item) {
        pending := {};
      } else if IsReasoning(item) {
        pending := pending + {item};
      } else if IsComputerCall(item) && (!requireLaterOutput || item in withLaterOutputs) {
        linked := linked + pending;
      }
    }
    LinkedInAll(items, requireLaterOutput);
  }

  /** Retained items of the responses that end before slot n. */
  ghost predicate RetainedBefore(items: seq<Item>, n: nat, x: Item)
    requires n <= |items|
  {
    exists i: nat, j: nat :: i < n && items[i] == x && Keeps(items, i, j) && !NoBoundary(items, i, n)
  }

  /** The response that slot n continues has another output so far. */
  ghost predicate Surviving(items: seq<Item>, n: nat)
    requires n <= |items|
  {
    exists j: nat :: j < n && IsOtherOutput(items[j]) && NoBoundary(items, j, n)
  }

  lemma SurvivingStep(items: seq<Item>, n: nat)
    requires n < |items|
    ensures Surviving(items, n + 1) <==>
            !IsBoundary(items[n]) && (Surviving(items, n) || IsOtherOutput(items[n]))
  {
  }

  /** Slot n closes a response (or the history ends there): its reasoning is retained exactly when
      it had another output. */
  lemma ClosedResponse(items: seq<Item>, n: nat, x: Item)
    requires n <= |items| && (n == |items| || IsBoundary(items[n]))
    ensures (exists i: nat, j: nat :: i < n && items[i] == x && Keeps(items, i, j) && NoBoundary(items, i, n)) <==>
            Pending(items, n, x) && Surviving(items, n)
  {
    if exists i: nat, j: nat :: i < n && items[i] == x && Keeps(items, i, j) && NoBoundary(items, i, n) {
      var i: nat, j: nat :| i < n && items[i] == x && Keeps(items, i, j) && NoBoundary(items, i, n);
      assert j < n;
      assert NoBoundary(items, j, n);
      assert Pending(items, n, x) && Surviving(items, n);
    }
    if Pending(items, n, x) && Surviving(items, n) {
      var i: nat :| i < n && items[i] == x && IsReasoning(x) && NoBoundary(items, i, n);
      var j: nat :| j < n && IsOtherOutput(items[j]) && NoBoundary(items, j, n);
      assert Keeps(items, i, j);
    }
  }

  ghost predicate RetainedInside(items: seq<Item>, n: nat, x: Item)
    requires n <= |items|
  {
    exists i: nat, j: nat :: i < n && items[i] == x && Keeps(items, i, j) && NoBoundary(items, i, n)
  }

  lemma ClosedResponses(items: seq<Item>, n: nat)
    requires n <= |items| && (n == |items| || IsBoundary(items[n]))
    ensures forall x :: RetainedInside(items, n, x) <==> Pending(items, n, x) && Surviving(items, n)
  {
    forall x ensures RetainedInside(items, n, x) <==> Pending(items, n, x) && Surviving(items, n) {
      ClosedResponse(items, n, x);
    }
  }

  lemma RetainedStep(items: seq<Item>, n: nat)
    requires n < |items|
    ensures IsBoundary(items[n]) ==>
              forall x :: RetainedBefore(items, n + 1, x) <==> RetainedBefore(items, n, x) || RetainedInside(items, n, x)
    ensures !IsBoundary(items[n]) ==>
              forall x :: RetainedBefore(items, n + 1, x) <==> RetainedBefore(items, n, x)
  {
    forall i: nat | i <= n
      ensures NoBoundary(items, i, n + 1) <==> (NoBoundary(items, i, n) && !IsBoundary(items[n]))
    {
    }
    forall x | RetainedBefore(items, n + 1, x)
      ensures RetainedBefore(items, n, x) || (IsBoundary(items[n]) && RetainedInside(items, n, x))
    {
      var i: nat, j: nat :| i < n + 1 && items[i] == x && Keeps(items, i, j) && !NoBoundary(items, i, n + 1);
      assert IsReasoning(items[i]);
      CallsAreInside(items[n]);
      assert i < n;
    }
    forall x | RetainedBefore(items, n, x) ensures RetainedBefore(items, n + 1, x) {
      var i: nat, j: nat :| i < n && items[i] == x && Keeps(items, i, j) && !NoBoundary(items, i, n);
    }
    if IsBoundary(items[n]) {
      forall x | RetainedInside(items, n, x) ensures RetainedBefore(items, n + 1, x) {
        var i: nat, j: nat :| i < n && items[i] == x && Keeps(items, i, j) && NoBoundary(items, i, n);
        assert !NoBoundary(items, i, n + 1);
      }
    }
  }

  lemma RetainedInAll(items: seq<Item>)
    ensures forall x :: Retained(items, x) <==>
              RetainedBefore(items, |items|, x) || RetainedInside(items, |items|, x)
  {
  }

  /** The reasoning items of the responses that have another output with an id. */
  method CollectRetained(items: seq<Item>) returns (retained: set<Item>)
    ensures forall x :: x in retained <==> Retained(items, x)
  {
    hide IsBoundary, Keeps, NoBoundary, RetainedBefore, RetainedInside, Surviving;
    retained := {};
    var pending: set<Item> := {};
    var hasSurvivingOutputId := false;
    NothingYet(items);
    for n := 0 to |items|
      invariant forall x :: x in pending <==> Pending(items, n, x)
      invariant hasSurvivingOutputId <==> Surviving(items, n)
      invariant forall x :: x in retained <==> RetainedBefore(items, n, x)
    {
      var item := items[n];
      PendingStep(items, n);
      SurvivingStep(items, n);
      RetainedStep(items, n);
      CallsAreInside(item);
      if IsBoundary(item) {
        ClosedResponses(items, n);
        if hasSurvivingOutputId { retained := retained + pending; }
        pending := {};
        hasSurvivingOutputId := false;
      } else if IsReasoning(item) {
        pending := pending + {item};
      } else if item.kind != Text("computer_call") && item.id.Text? {
        hasSurvivingOutputId := true;
      }
    }
    ClosedResponses(items, |items|);
    RetainedInAll(items);
    if hasSurvivingOutputId { retained := retained + pending; }
  }

  lemma NothingYet(items: seq<Item>)
    ensures !Surviving(items, 0) && forall x :: !Pending(items, 0, x) && !RetainedBefore(items, 0, x)
  {
  }

  // ---------------------------------------------------------------- the id-stripping passes

  function WithoutId(x: Item): Item {
    x.(id := Absent)
  }

  /** The id is stripped: its only tie is a computer call. */
  ghost predicate StripsLinked(items: seq<Item>, x: Item) {
    IsReasoning(x) && x.id.Text? && Linked(items, false, x) && !Retained(items, x)
  }

  /** The id is stripped: it was kept provisionally for a computer call that is not there. */
  ghost predicate StripsUnpaired(items: seq<Item>, provisional: set<Item>, x: Item) {
    IsReasoning(x) && x in provisional && x.id.Text? && !Linked(items, true, x)
  }

  ghost function StripLinked(items: seq<Item>): seq<Item> {
    seq(|items|, i requires 0 <= i < |items| =>
      if StripsLinked(items, items[i]) then WithoutId(items[i]) else items[i])
  }

  ghost function StripUnpaired(items: seq<Item>, provisional: set<Item>): seq<Item> {
    seq(|items|, i requires 0 <= i < |items| =>
      if StripsUnpaired(items, provisional, items[i]) then WithoutId(items[i]) else items[i])
  }

  /** The lazily copying loop is the pointwise pass, and hands back the caller's own array exactly
      when there is nothing to strip. */
  method StripComputerLinkedReasoningIds(items: seq<Item>) returns (result: seq<Item>, copied: bool)
    ensures result == StripLinked(items)
    ensures copied <==> result != items
  {
    hide Linked, Retained, IsReasoning;
    var linked := CollectComputerLinked(items, false);
    var retained := CollectRetained(items);
    var sanitized: Option<seq<Item>> := None;
    ghost var target := StripLinked(items);
    for index := 0 to |items|
      invariant sanitized.None? ==> target[..index] == items[..index]
      invariant sanitized.Some? ==> sanitized.value == target[..index] && target[..index] != items[..index]
    {
      var item := items[index];
      assert items[..index + 1] == items[..index] + [item];
      assert target[..index + 1] == target[..index] + [target[index]];
      if !IsReasoning(item) || !item.id.Text? || item !in linked || item in retained {
        if sanitized.Some? { sanitized := Some(sanitized.value + [item]); }
      } else {
        if sanitized.None? { sanitized := Some(items[..index]); }
        sanitized := Some(sanitized.value + [WithoutId(item)]);
        assert target[..index + 1][index] != items[..index + 1][index];
      }
    }
    assert target[..|items|] == target && items[..|items|] == items;
    result := if sanitized.Some? then sanitized.value else items;
    copied := sanitized.Some?;
  }

  method StripUnpairedComputerReasoningIds(items: seq<Item>, provisional: set<Item>)
    returns (result: seq<Item>, copied: bool)
    ensures result == StripUnpaired(items, provisional)
    ensures copied <==> result != items
  {
    hide Linked, Retained, IsReasoning;
    var linked := CollectComputerLinked(items, true);
    var sanitized: Option<seq<Item>> := None;
    ghost var target := StripUnpaired(items, provisional);
    for index := 0 to |items|
      invariant sanitized.None? ==> target[..index] == items[..index]
      invariant sanitized.Some? ==> sanitized.value == target[..index] && target[..index] != items[..index]
    {
      var item := items[index];
      assert items[..index + 1] == items[..index] + [item];
      assert target[..index + 1] == target[..index] + [target[index]];
      if !IsReasoning(item) || item !in provisional || !item.id.Text? || item in linked {
        if sanitized.Some? { sanitized := Some(sanitized.value + [item]); }
      } else {
        if sanitized.None? { sanitized := Some(items[..index]); }
        sanitized := Some(sanitized.value + [WithoutId(item)]);
        assert target[..index + 1][index] != items[..index + 1][index];
      }
    }
    assert target[..|items|] == target && items[..|items|] == items;
    result := if sanitized.Some? then sanitized.value else items;
    copied := sanitized.Some?;
  }

  /** Two histories that differ only in the ids of reasoning items. */
  ghost predicate SameButReasoningIds(a: seq<Item>, b: seq<Item>) {
    |a| == |b| && forall i :: 0 <= i < |a| ==> b[i] == a[i] || (IsReasoning(a[i]) && b[i] == WithoutId(a[i]))
  }

  lemma SameBoundaries(a: seq<Item>, b: seq<Item>, i: nat, j: nat)
    requires SameButReasoningIds(a, b) && j <= |a|
    ensures NoBoundary(a, i, j) <==> NoBoundary(b, i, j)
  {
  }

  lemma SameAnswers(a: seq<Item>, b: seq<Item>, call: Item)
    requires SameButReasoningIds(a, b) && IsComputerCall(call)
    ensures Answered(a, call) ==> Answered(b, call)
    ensures Answered(b, call) ==> Answered(a, call)
  {
    if Answered(a, call) {
      var j: nat, k: nat :| j < |a| && a[j] == call && OutputAfter(a, j, k);
      assert b[j] == call && OutputAfter(b, j, k);
    }
    if Answered(b, call) {
      var j: nat, k: nat :| j < |b| && b[j] == call && OutputAfter(b, j, k);
      assert a[j] == call && OutputAfter(a, j, k);
    }
  }

  lemma SameLinks(a: seq<Item>, b: seq<Item>, answered: bool, i: nat, j: nat)
    requires SameButReasoningIds(a, b)
    ensures Links(a, answered, i, j) <==> Links(b, answered, i, j)
  {
    if i < j < |a| {
      SameBoundaries(a, b, i, j);
      if IsComputerCall(a[j]) || IsComputerCall(b[j]) {
        assert a[j] == b[j];
        SameAnswers(a, b, a[j]);
      }
    }
  }

  lemma SameKeeps(a: seq<Item>, b: seq<Item>, i: nat, j: nat)
    requires SameButReasoningIds(a, b)
    ensures Keeps(a, i, j) <==> Keeps(b, i, j)
  {
    if i < |a| && j < |a| {
      SameBoundaries(a, b, i, j);
      SameBoundaries(a, b, j, i);
      if IsOtherOutput(a[j]) || IsOtherOutput(b[j]) {
        assert a[j] == b[j];
      }
    }
  }

  /** Where no slot of x was stripped, its ties are the ones it had. */
  lemma SameTies(a: seq<Item>, b: seq<Item>, answered: bool, x: Item)
    requires SameButReasoningIds(a, b) && x.id.Text?
    requires forall i :: 0 <= i < |a| && a[i] == x ==> b[i] == x
    ensures Linked(a, answered, x) <==> Linked(b, answered, x)
    ensures Retained(a, x) <==> Retained(b, x)
  {
    hide Links, Keeps, IsReasoning;
    forall i: nat, j: nat ensures Links(a, answered, i, j) <==> Links(b, answered, i, j) {
      SameLinks(a, b, answered, i, j);
    }
    forall i: nat, j: nat ensures Keeps(a, i, j) <==> Keeps(b, i, j) {
      SameKeeps(a, b, i, j);
    }
    assert forall i :: 0 <= i < |a| ==> (a[i] == x <==> b[i] == x);
    if Linked(a, answered, x) {
      var i: nat, j: nat :| i < |a| && a[i] == x && Links(a, answered, i, j);
      assert b[i] == x && Links(b, answered, i, j);
    }
    if Linked(b, answered, x) {
      var i: nat, j: nat :| i < |b| && b[i] == x && Links(b, answered, i, j);
      assert a[i] == x && Links(a, answered, i, j);
    }
    if Retained(a, x) {
      var i: nat, j: nat :| i < |a| && a[i] == x && Keeps(a, i, j);
      assert b[i] == x && Keeps(b, i, j);
    }
    if Retained(b, x) {
      var i: nat, j: nat :| i < |b| && b[i] == x && Keeps(b, i, j);
      assert a[i] == x && Keeps(a, i, j);
    }
  }

  /** The linked pass touches nothing but ids of reasoning items; after it every id-bearing
      reasoning item with a computer call also has another output; and running it again
      changes nothing. */
  lemma StripLinkedSettles(items: seq<Item>)
    ensures
      var out := StripLinked(items);
      && SameButReasoningIds(items, out)
      && (forall x <- out :: IsReasoning(x) && x.id.Text? && Linked(out, false, x) ==> Retained(out, x))
      && StripLinked(out) == out
  {
    hide Linked, Retained, IsReasoning;
    var out := StripLinked(items);
    forall x | x in out && IsReasoning(x) && x.id.Text?
      ensures Linked(out, false, x) ==> Retained(out, x)
    {
      var i :| 0 <= i < |out| && out[i] == x;
      assert items[i] == x && !StripsLinked(items, x);
      SameTies(items, out, false, x);
    }
    forall i | 0 <= i < |out| ensures !StripsLinked(out, out[i]) {
      assert out[i] in out;
    }
  }

  /** Likewise for the unpaired pass: the provisional ids that are left are those of reasoning
      items linked to a computer call whose output follows. */
  lemma StripUnpairedSettles(items: seq<Item>, provisional: set<Item>)
    ensures
      var out := StripUnpaired(items, provisional);
      && SameButReasoningIds(items, out)
      && (forall x <- out :: IsReasoning(x) && x in provisional && x.id.Text? ==> Linked(out, true, x))
      && StripUnpaired(out, provisional) == out
  {
    hide Linked, Retained, IsReasoning;
    var out := StripUnpaired(items, provisional);
    forall x | x in out && IsReasoning(x) && x in provisional && x.id.Text? ensures Linked(out, true, x) {
      var i :| 0 <= i < |out| && out[i] == x;
      assert items[i] == x && !StripsUnpaired(items, provisional, x);
      SameTies(items, out, true, x);
    }
    forall i | 0 <= i < |out| ensures !StripsUnpaired(out, provisional, out[i]) {
      assert out[i] in out;
    }
  }

  /** With distinct objects, membership in the collected sets is a matter of the slot: linked means a
      later call in the same response, retained another output of the same response. */
  lemma PerSlot(items: seq<Item>, i: nat)
    requires i < |items|
    requires forall k, l :: 0 <= k < l < |items| ==> items[k] != items[l]
    ensures Linked(items, false, items[i]) <==> exists j: nat :: Links(items, false, i, j)
    ensures Retained(items, items[i]) <==> exists j: nat :: Keeps(items, i, j)
    ensures Linked(items, true, items[i]) <==>
            exists j: nat, k: nat :: Links(items, false, i, j) && OutputAfter(items, j, k)
  {
    hide Keeps, IsReasoning, IsComputerCall;
    if Linked(items, true, items[i]) {
      var p: nat, j: nat :| p < |items| && items[p] == items[i] && Links(items, true, p, j);
      assert p == i;
      var q: nat, k: nat :| q < |items| && items[q] == items[j] && OutputAfter(items, q, k);
      assert q == j;
      assert Links(items, false, i, j) && OutputAfter(items, j, k);
    }
    if exists j: nat, k: nat :: Links(items, false, i, j) && OutputAfter(items, j, k) {
      var j: nat, k: nat :| Links(items, false, i, j) && OutputAfter(items, j, k);
      assert Answered(items, items[j]);
      assert Links(items, true, i, j);
    }
  }

  // ---------------------------------------------------------------- the status pass

  const OUTPUT_ONLY_STATUS: set<string> := {
    "message", "function_call", "custom_tool_call", "compaction", "compaction_summary"}

  predicate RejectsStatus(x: Item) {
    x.kind.Text? && x.kind.text in OUTPUT_ONLY_STATUS
  }

  function StatusStripped(x: Item): Item {
    if RejectsStatus(x) && x.hasStatus then x.(hasStatus := false) else x
  }

  /** The pass is pointwise; a second pass finds nothing. */
  function StripStatus(items: seq<Item>): seq<Item> {
    seq(|items|, i requires 0 <= i < |items| => StatusStripped(items[i]))
  }

  lemma {:induction false} StripStatusSettles(items: seq<Item>)
    ensures StripStatus(StripStatus(items)) == StripStatus(items)
    ensures !AnyStatus(StripStatus(items))
  {
  }

  ghost predicate AnyStatus(items: seq<Item>) {
    exists x <- items :: RejectsStatus(x) && x.hasStatus
  }

  /** The lazily copying loop of the status pass. */
  method StripOutputOnlyStatuses(items: seq<Item>) returns (result: seq<Item>, copied: bool)
    ensures result == StripStatus(items)
    ensures copied <==> result != items
  {
    hide RejectsStatus;
    var sanitized: Option<seq<Item>> := None;
    ghost var target := StripStatus(items);
    for index := 0 to |items|
      invariant sanitized.None? ==> target[..index] == items[..index]
      invariant sanitized.Some? ==> sanitized.value == target[..index] && target[..index] != items[..index]
    {
      var item := items[index];
      assert items[..index + 1] == items[..index] + [item];
      assert target[..index + 1] == target[..index] + [target[index]];
      if !RejectsStatus(item) || !item.hasStatus {
        if sanitized.Some? { sanitized := Some(sanitized.value + [item]); }
      } else {
        if sanitized.None? { sanitized := Some(items[..index]); }
        sanitized := Some(sanitized.value + [item.(hasStatus := false)]);
        assert target[..index + 1][index] != items[..index + 1][index];
      }
    }
    assert target[..|items|] == target && items[..|items|] == items;
    result := if sanitized.Some? then sanitized.value else items;
    copied := sanitized.Some?;
  }
}
