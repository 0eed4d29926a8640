/** What the figures of a run summary are: sums and numbers of records, each said without the way it is added up. */
module RunFigures {
  import opened Wrappers
  import opened RunCollector

  function Sum(xs: seq<int>): int {
    if xs == [] then 0 else Sum(xs[..|xs| - 1]) + xs[|xs| - 1]
  }

  function RealSum(xs: seq<real>): real {
    if xs == [] then 0.0 else RealSum(xs[..|xs| - 1]) + xs[|xs| - 1]
  }

  function Each<T, U>(xs: seq<T>, f: T -> U): seq<U> {
    seq(|xs|, i requires 0 <= i < |xs| => f(xs[i]))
  }

  lemma EachPrefix<T, U>(xs: seq<T>, f: T -> U)
    requires xs != []
    ensures Each(xs, f)[..|xs| - 1] == Each(xs[..|xs| - 1], f) && Each(xs, f)[|xs| - 1] == f(xs[|xs| - 1])
  {
  }

  /** Where the elements of one kind stand. */
  function Places<T>(xs: seq<T>, kind: T -> bool): set<nat> {
    set i: nat | i < |xs| && kind(xs[i])
  }

  lemma PlacesSnoc<T>(xs: seq<T>, kind: T -> bool)
    requires xs != []
    ensures |Places(xs, kind)| == |Places(xs[..|xs| - 1], kind)| + if kind(xs[|xs| - 1]) then 1 else 0
  {
    var n := |xs| - 1;
    var before, after := Places(xs[..n], kind), Places(xs, kind);
    if kind(xs[n]) {
      assert after == before + {n};
    } else {
      assert after == before;
    }
  }

  // ---------------------------------------------------------------- sums

  lemma {:induction false} UsageExactly(chats: seq<ChatRecord>)
    ensures Usage(chats).input == Sum(Each(chats, (c: ChatRecord) => c.tokens.input))
    ensures Usage(chats).output == Sum(Each(chats, (c: ChatRecord) => c.tokens.output))
    ensures Usage(chats).cachedInput == Sum(Each(chats, (c: ChatRecord) => c.tokens.cachedInput))
    ensures Usage(chats).cacheWrite == Sum(Each(chats, (c: ChatRecord) => c.tokens.cacheWrite))
    ensures Usage(chats).reasoningOutput == Sum(Each(chats, (c: ChatRecord) => c.tokens.reasoningOutput))
    ensures Usage(chats).total == Sum(Each(chats, (c: ChatRecord) => c.tokens.total))
  {
    if chats != [] {
      UsageExactly(chats[..|chats| - 1]);
      EachPrefix(chats, (c: ChatRecord) => c.tokens.input);
      EachPrefix(chats, (c: ChatRecord) => c.tokens.output);
      EachPrefix(chats, (c: ChatRecord) => c.tokens.cachedInput);
      EachPrefix(chats, (c: ChatRecord) => c.tokens.cacheWrite);
      EachPrefix(chats, (c: ChatRecord) => c.tokens.reasoningOutput);
      EachPrefix(chats, (c: ChatRecord) => c.tokens.total);
    }
  }

  /** Latencies and costs; a chat without a cost adds none. */
  lemma {:induction false} LatencyAndCostExactly(chats: seq<ChatRecord>, tools: seq<ToolRecord>)
    ensures ChatLatency(chats) == RealSum(Each(chats, (c: ChatRecord) => c.latencyMs))
    ensures Cost(chats) == RealSum(Each(chats, (c: ChatRecord) => if c.costUsd.Some? then c.costUsd.value else 0.0))
    ensures ToolLatency(tools) == RealSum(Each(tools, (t: ToolRecord) => t.latencyMs))
    decreases |chats| + |tools|
  {
    if chats != [] {
      LatencyAndCostExactly(chats[..|chats| - 1], []);
      EachPrefix(chats, (c: ChatRecord) => c.latencyMs);
      EachPrefix(chats, (c: ChatRecord) => if c.costUsd.Some? then c.costUsd.value else 0.0);
    }
    if tools != [] {
      LatencyAndCostExactly([], tools[..|tools| - 1]);
      EachPrefix(tools, (t: ToolRecord) => t.latencyMs);
    }
  }

  // ---------------------------------------------------------------- numbers of records

  function HasStatus(status: Status): ToolRecord -> bool {
    (t: ToolRecord) => t.status == status
  }

  function HasKey(key: string): Option<string> -> bool {
    (k: Option<string>) => k == Some(key)
  }

  lemma {:induction false} WithStatusExactly(tools: seq<ToolRecord>, status: Status)
    ensures WithStatus(tools, status) == |Places(tools, HasStatus(status))|
  {
    if tools != [] {
      WithStatusExactly(tools[..|tools| - 1], status);
      PlacesSnoc(tools, HasStatus(status));
    }
  }

  lemma {:induction false} OccurrencesExactly(keys: seq<Option<string>>, key: string)
    ensures Occurrences(keys, key) == |Places(keys, HasKey(key))|
  {
    if keys != [] {
      OccurrencesExactly(keys[..|keys| - 1], key);
      PlacesSnoc(keys, HasKey(key));
    }
  }

  function NotBlank(): Option<string> -> bool {
    (k: Option<string>) => Truthy(k)
  }

  lemma {:induction false} FailuresExactly(keys: seq<Option<string>>)
    ensures Failures(keys) == |Places(keys, NotBlank())|
  {
    if keys != [] {
      FailuresExactly(keys[..|keys| - 1]);
      PlacesSnoc(keys, NotBlank());
    }
  }

  /** Every count of tools in a summary, whole or under one name, is the number of records with that status. */
  lemma ToolCountsExactly(chats: seq<ChatRecord>, tools: seq<ToolRecord>, stepCount: int)
    ensures
      var s := Summarised(chats, tools, stepCount);
      && s.tools.total == |tools|
      && s.tools.ok == |Places(tools, HasStatus(Ok))| && s.tools.error == |Places(tools, HasStatus(Error))|
      && s.tools.skipped == |Places(tools, HasStatus(Skipped))| && s.tools.blocked == |Places(tools, HasStatus(Blocked))|
      && s.tools.timeout == |Places(tools, HasStatus(Timeout))| && s.tools.aborted == |Places(tools, HasStatus(Aborted))|
  {
    WithStatusExactly(tools, Ok);
    WithStatusExactly(tools, Error);
    WithStatusExactly(tools, Skipped);
    WithStatusExactly(tools, Blocked);
    WithStatusExactly(tools, Timeout);
    WithStatusExactly(tools, Aborted);
  }

  function OfName(name: string): ToolRecord -> bool {
    (t: ToolRecord) => t.toolName == name
  }

  function OfNameAndStatus(name: string, status: Status): ToolRecord -> bool {
    (t: ToolRecord) => t.toolName == name && t.status == status
  }

  function LatencyUnder(name: string): ToolRecord -> real {
    (t: ToolRecord) => if t.toolName == name then t.latencyMs else 0.0
  }

  lemma {:induction false} NamedExactly(tools: seq<ToolRecord>, name: string, status: Status)
    ensures |Named(tools, name)| == |Places(tools, OfName(name))|
    ensures WithStatus(Named(tools, name), status) == |Places(tools, OfNameAndStatus(name, status))|
    ensures ToolLatency(Named(tools, name)) == RealSum(Each(tools, LatencyUnder(name)))
  {
    if tools != [] {
      var n := |tools| - 1;
      NamedExactly(tools[..n], name, status);
      PlacesSnoc(tools, OfName(name));
      PlacesSnoc(tools, OfNameAndStatus(name, status));
      EachPrefix(tools, LatencyUnder(name));
      var before := Named(tools[..n], name);
      assert (before + [tools[n]])[..|before|] == before && before + [] == before;
    }
  }

  /** The counters under a name are those of the records with that name, and every name with a record has some. */
  lemma {:induction false} NameCountsExactly(tools: seq<ToolRecord>, name: string)
    ensures name in ByName(tools) <==> Places(tools, OfName(name)) != {}
    ensures name in ByName(tools) ==>
              var c := ByName(tools)[name];
              && c.total == |Places(tools, OfName(name))|
              && c.ok == |Places(tools, OfNameAndStatus(name, Ok))|
              && c.error == |Places(tools, OfNameAndStatus(name, Error))|
              && c.skipped == |Places(tools, OfNameAndStatus(name, Skipped))|
              && c.blocked == |Places(tools, OfNameAndStatus(name, Blocked))|
              && c.timeout == |Places(tools, OfNameAndStatus(name, Timeout))|
              && c.aborted == |Places(tools, OfNameAndStatus(name, Aborted))|
              && c.latencyMs == RealSum(Each(tools, LatencyUnder(name)))
  {
    hide Named, WithStatus, ToolLatency;
    NamedExactly(tools, name, Ok);
    NamedExactly(tools, name, Error);
    NamedExactly(tools, name, Skipped);
    NamedExactly(tools, name, Blocked);
    NamedExactly(tools, name, Timeout);
    NamedExactly(tools, name, Aborted);
    assert forall i: nat | i < |tools| && tools[i].toolName == name :: i in Places(tools, OfName(name));
  }

  /** A stop reason is tallied as often as chats stopped for it, an error type as often as chats and tools failed with
      it; an empty reason or type is no entry, and no error. */
  lemma TalliesExactly(chats: seq<ChatRecord>, tools: seq<ToolRecord>, stepCount: int, key: string)
    ensures
      var s := Summarised(chats, tools, stepCount);
      && CountOf(s.byStopReason, key) == (if key == "" then 0 else |Places(StopReasons(chats), HasKey(key))|)
      && CountOf(s.errorsByType, key) ==
           (if key == "" then 0 else |Places(ChatErrors(chats), HasKey(key))| + |Places(ToolErrors(tools), HasKey(key))|)
      && s.errorTotal == |Places(ChatErrors(chats), NotBlank())| + |Places(ToolErrors(tools), NotBlank())|
      && (key in s.unavailableReasons <==>
            key != "" && exists c <- chats :: c.costUnavailableReason == Some(key))
  {
    var errors := ChatErrors(chats) + ToolErrors(tools);
    NonEmptyKeys(errors);
    NonEmptyKeys(StopReasons(chats));
    if key != "" {
      OccursExactly(errors, key);
      OccursExactly(StopReasons(chats), key);
      OccurrencesConcat(ChatErrors(chats), ToolErrors(tools), key);
      OccurrencesExactly(ChatErrors(chats), key);
      OccurrencesExactly(ToolErrors(tools), key);
      OccurrencesExactly(StopReasons(chats), key);
    }
    FailuresConcat(ChatErrors(chats), ToolErrors(tools));
    FailuresExactly(ChatErrors(chats));
    FailuresExactly(ToolErrors(tools));
    CostReasonsExactly(chats, key);
  }

  lemma CostReasonsExactly(chats: seq<ChatRecord>, key: string)
    ensures key in TruthyKeys(CostReasons(chats)) <==>
            key != "" && exists c <- chats :: c.costUnavailableReason == Some(key)
  {
    if key != "" && exists c <- chats :: c.costUnavailableReason == Some(key) {
      var i :| 0 <= i < |chats| && chats[i].costUnavailableReason == Some(key);
      assert CostReasons(chats)[i] == Some(key);
    }
  }
}
