/** Run rollups: the records that one agent run buffers, the summary and coverage built from them,
    and the aggregation of several runs. Latencies and costs are exact numbers here; a record
    keyed by name is a map, and a sorted list without duplicates is a set. */
module RunCollector {
  import opened Wrappers

  // ---------------------------------------------------------------- values

  datatype Status = Ok | Error | Skipped | Blocked | Timeout | Aborted

  datatype Tokens = Tokens(
    input: int, output: int, cachedInput: int, cacheWrite: int, reasoningOutput: int, total: int)

  datatype ChatRecord = ChatRecord(
    stopReason: Option<string>, latencyMs: real, tokens: Tokens, costUsd: Option<real>,
    costUnavailableReason: Option<string>, errorType: Option<string>)

  datatype ToolRecord = ToolRecord(
    toolCallId: string, toolName: string, status: Status, latencyMs: real, errorType: Option<string>)

  datatype Counters = Counters(
    total: nat, ok: nat, error: nat, skipped: nat, blocked: nat, timeout: nat, aborted: nat, latencyMs: real)

  type Tally = map<string, nat>

  datatype Summary = Summary(
    chatTotal: nat, byStopReason: Tally, chatLatencyMs: real,
    tools: Counters, byName: map<string, Counters>,
    usage: Tokens, estimatedUsd: real, unavailableReasons: set<string>,
    errorTotal: nat, errorsByType: Tally, stepCount: int)

  datatype Coverage = Coverage(
    toolsAvailable: set<string>, toolsInvoked: set<string>, toolsUnused: set<string>,
    modelsUsed: set<string>, providersUsed: set<string>)

  const NO_TOKENS := Tokens(0, 0, 0, 0, 0, 0)
  const NO_COUNTERS := Counters(0, 0, 0, 0, 0, 0, 0, 0.0)
  const EMPTY_SUMMARY := Summary(0, map[], 0.0, NO_COUNTERS, map[], NO_TOKENS, 0.0, {}, 0, map[], 0)
  const EMPTY_COVERAGE := Coverage({}, {}, {}, {}, {})

  function AddTokens(a: Tokens, b: Tokens): Tokens {
    Tokens(a.input + b.input, a.output + b.output, a.cachedInput + b.cachedInput,
           a.cacheWrite + b.cacheWrite, a.reasoningOutput + b.reasoningOutput, a.total + b.total)
  }

  function AddCounters(a: Counters, b: Counters): Counters {
    Counters(a.total + b.total, a.ok + b.ok, a.error + b.error, a.skipped + b.skipped,
             a.blocked + b.blocked, a.timeout + b.timeout, a.aborted + b.aborted, a.latencyMs + b.latencyMs)
  }

  // ---------------------------------------------------------------- what a summary means

  /** How often a key occurs. */
  function Occurrences(keys: seq<Option<string>>, key: string): nat {
    if keys == [] then 0
    else Occurrences(keys[..|keys| - 1], key) + if keys[|keys| - 1] == Some(key) then 1 else 0
  }

  function TruthyKeys(keys: seq<Option<string>>): set<string> {
    set i | 0 <= i < |keys| && Truthy(keys[i]) :: keys[i].value
  }

  /** Each non-empty key with the number of its occurrences. */
  function Tallied(keys: seq<Option<string>>): Tally {
    map key | key in TruthyKeys(keys) :: Occurrences(keys, key)
  }

  function StopReasons(chats: seq<ChatRecord>): seq<Option<string>> {
    seq(|chats|, i requires 0 <= i < |chats| => chats[i].stopReason)
  }

  function CostReasons(chats: seq<ChatRecord>): seq<Option<string>> {
    seq(|chats|, i requires 0 <= i < |chats| => chats[i].costUnavailableReason)
  }

  function ChatErrors(chats: seq<ChatRecord>): seq<Option<string>> {
    seq(|chats|, i requires 0 <= i < |chats| => chats[i].errorType)
  }

  function ToolErrors(tools: seq<ToolRecord>): seq<Option<string>> {
    seq(|tools|, i requires 0 <= i < |tools| => tools[i].errorType)
  }

  function ChatLatency(chats: seq<ChatRecord>): real {
    if chats == [] then 0.0 else ChatLatency(chats[..|chats| - 1]) + chats[|chats| - 1].latencyMs
  }

  function Usage(chats: seq<ChatRecord>): Tokens {
    if chats == [] then NO_TOKENS else AddTokens(Usage(chats[..|chats| - 1]), chats[|chats| - 1].tokens)
  }

  function Cost(chats: seq<ChatRecord>): real {
    if chats == [] then 0.0
    else Cost(chats[..|chats| - 1]) + (match chats[|chats| - 1].costUsd case Some(usd) => usd case None => 0.0)
  }

  function WithStatus(tools: seq<ToolRecord>, status: Status): nat {
    if tools == [] then 0
    else WithStatus(tools[..|tools| - 1], status) + if tools[|tools| - 1].status == status then 1 else 0
  }

  function ToolLatency(tools: seq<ToolRecord>): real {
    if tools == [] then 0.0 else ToolLatency(tools[..|tools| - 1]) + tools[|tools| - 1].latencyMs
  }

  function Counted(tools: seq<ToolRecord>): Counters {
    Counters(|tools|, WithStatus(tools, Ok), WithStatus(tools, Error), WithStatus(tools, Skipped),
             WithStatus(tools, Blocked), WithStatus(tools, Timeout), WithStatus(tools, Aborted), ToolLatency(tools))
  }

  function Named(tools: seq<ToolRecord>, name: string): seq<ToolRecord> {
    if tools == [] then []
    else Named(tools[..|tools| - 1], name) + if tools[|tools| - 1].toolName == name then [tools[|tools| - 1]] else []
  }

  function Names(tools: seq<ToolRecord>): set<string> {
    set i | 0 <= i < |tools| :: tools[i].toolName
  }

  function ByName(tools: seq<ToolRecord>): map<string, Counters> {
    map name | name in Names(tools) :: Counted(Named(tools, name))
  }

  /** The number of records with an error type. */
  function Failures(keys: seq<Option<string>>): nat {
    if keys == [] then 0
    else Failures(keys[..|keys| - 1]) + if Truthy(keys[|keys| - 1]) then 1 else 0
  }

  /** The summary of a run, each figure read off the records directly. */
  function Summarised(chats: seq<ChatRecord>, tools: seq<ToolRecord>, stepCount: int): Summary {
    var errors := ChatErrors(chats) + ToolErrors(tools);
    Summary(|chats|, Tallied(StopReasons(chats)), ChatLatency(chats), Counted(tools), ByName(tools),
            Usage(chats), Cost(chats), TruthyKeys(CostReasons(chats)),
            Failures(errors), Tallied(errors), stepCount)
  }

  // ---------------------------------------------------------------- tallies

  function CountOf(t: Tally, key: string): nat {
    if key in t then t[key] else 0
  }

  function BumpAt(t: Tally, key: string): Tally {
    t[key := CountOf(t, key) + 1]
  }

  function Bump(t: Tally, key: Option<string>): Tally {
    if Truthy(key) then BumpAt(t, key.value) else t
  }

  function Merge(a: Tally, b: Tally): Tally {
    map key | key in a.Keys + b.Keys :: CountOf(a, key) + CountOf(b, key)
  }

  lemma {:induction false} OccursExactly(keys: seq<Option<string>>, key: string)
    requires key != ""
    ensures key in TruthyKeys(keys) <==> Occurrences(keys, key) > 0
  {
    if keys != [] {
      var n := |keys| - 1;
      OccursExactly(keys[..n], key);
      TruthyKeysSnoc(keys[..n], keys[n]);
      assert keys == keys[..n] + [keys[n]];
    }
  }

  lemma TruthyKeysSnoc(keys: seq<Option<string>>, key: Option<string>)
    ensures TruthyKeys(keys + [key]) == TruthyKeys(keys) + if Truthy(key) then {key.value} else {}
  {
    TruthyKeysConcat(keys, [key]);
    if Truthy(key) {
      assert TruthyKeys([key]) == {key.value} by { assert [key][0] == key; }
    } else {
      assert TruthyKeys([key]) == {};
    }
  }

  lemma TruthyKeysConcat(a: seq<Option<string>>, b: seq<Option<string>>)
    ensures TruthyKeys(a + b) == TruthyKeys(a) + TruthyKeys(b)
  {
    forall key | key in TruthyKeys(a) + TruthyKeys(b) ensures key in TruthyKeys(a + b) {
      if key in TruthyKeys(a) {
        var i :| 0 <= i < |a| && Truthy(a[i]) && a[i].value == key;
        assert (a + b)[i] == a[i];
      } else {
        var i :| 0 <= i < |b| && Truthy(b[i]) && b[i].value == key;
        assert (a + b)[|a| + i] == b[i];
      }
    }
  }

  lemma {:induction false} OccurrencesConcat(a: seq<Option<string>>, b: seq<Option<string>>, key: string)
    ensures Occurrences(a + b, key) == Occurrences(a, key) + Occurrences(b, key)
  {
    if b == [] {
      assert a + b == a;
    } else {
      OccurrencesConcat(a, b[..|b| - 1], key);
      assert (a + b)[..|a + b| - 1] == a + b[..|b| - 1];
    }
  }

  lemma NonEmptyKeys(keys: seq<Option<string>>)
    ensures "" !in TruthyKeys(keys)
  {
  }

  /** Tallying is a homomorphism. */
  lemma TallyConcat(a: seq<Option<string>>, b: seq<Option<string>>)
    ensures Tallied(a + b) == Merge(Tallied(a), Tallied(b))
  {
    TruthyKeysConcat(a, b);
    NonEmptyKeys(a + b);
    forall key | key in TruthyKeys(a + b) ensures Tallied(a + b)[key] == Merge(Tallied(a), Tallied(b))[key] {
      OccurrencesConcat(a, b, key);
      OccursExactly(a, key);
      OccursExactly(b, key);
    }
  }

  lemma TallySnoc(keys: seq<Option<string>>, key: Option<string>)
    ensures Tallied(keys + [key]) == Bump(Tallied(keys), key)
  {
    TruthyKeysSnoc(keys, key);
    NonEmptyKeys(keys);
    forall k | k in TruthyKeys(keys + [key])
      ensures k in Bump(Tallied(keys), key) && Tallied(keys + [key])[k] == Bump(Tallied(keys), key)[k]
    {
      assert (keys + [key])[..|keys|] == keys;
      OccursExactly(keys, k);
    }
  }

  lemma {:induction false} FailuresConcat(a: seq<Option<string>>, b: seq<Option<string>>)
    ensures Failures(a + b) == Failures(a) + Failures(b)
  {
    if b == [] {
      assert a + b == a;
    } else {
      FailuresConcat(a, b[..|b| - 1]);
      assert (a + b)[..|a + b| - 1] == a + b[..|b| - 1];
    }
  }

  /** The sum of a tally's counts. */
  ghost function Total(t: Tally): nat
    decreases |t|
  {
    if t == map[] then 0
    else
      var key :| key in t;
      t[key] + Total(t - {key})
  }

  lemma {:induction false} TotalWithout(t: Tally, key: string)
    requires key in t
    ensures Total(t) == t[key] + Total(t - {key})
    decreases |t|
  {
    var first :| first in t && Total(t) == t[first] + Total(t - {first});
    if first != key {
      TotalWithout(t - {first}, key);
      TotalWithout(t - {key}, first);
      assert t - {first} - {key} == t - {key} - {first};
    }
  }

  lemma TotalBump(t: Tally, key: string)
    ensures Total(BumpAt(t, key)) == Total(t) + 1
  {
    var after := BumpAt(t, key);
    TotalWithout(after, key);
    if key in t {
      TotalWithout(t, key);
      assert after - {key} == t - {key};
    } else {
      assert after - {key} == t;
    }
  }

  /** The counts of a tally add up to the number of records that have the key. */
  lemma {:induction false} TotalIsFailures(keys: seq<Option<string>>)
    ensures Total(Tallied(keys)) == Failures(keys)
  {
    if keys == [] {
      assert Tallied(keys) == map[];
    } else {
      var n := |keys| - 1;
      TotalIsFailures(keys[..n]);
      assert keys == keys[..n] + [keys[n]];
      TallySnoc(keys[..n], keys[n]);
      if Truthy(keys[n]) { TotalBump(Tallied(keys[..n]), keys[n].value); }
    }
  }

  // ---------------------------------------------------------------- counters by name

  function NamedCounters(byName: map<string, Counters>, name: string): Counters {
    if name in byName then byName[name] else NO_COUNTERS
  }

  function MergeCounters(a: map<string, Counters>, b: map<string, Counters>): map<string, Counters> {
    map name | name in a.Keys + b.Keys :: AddCounters(NamedCounters(a, name), NamedCounters(b, name))
  }

  /** The counters of a single record. */
  function One(tool: ToolRecord): Counters {
    Counters(1, if tool.status == Ok then 1 else 0, if tool.status == Error then 1 else 0,
             if tool.status == Skipped then 1 else 0, if tool.status == Blocked then 1 else 0,
             if tool.status == Timeout then 1 else 0, if tool.status == Aborted then 1 else 0, tool.latencyMs)
  }

  lemma CountedSnoc(tools: seq<ToolRecord>, tool: ToolRecord)
    ensures Counted(tools + [tool]) == AddCounters(Counted(tools), One(tool))
  {
  }

  lemma {:induction false} CountedConcat(a: seq<ToolRecord>, b: seq<ToolRecord>)
    ensures Counted(a + b) == AddCounters(Counted(a), Counted(b))
  {
    if b == [] {
      assert a + b == a;
    } else {
      var n := |b| - 1;
      CountedConcat(a, b[..n]);
      assert b == b[..n] + [b[n]];
      assert a + b == (a + b[..n]) + [b[n]];
      CountedSnoc(a + b[..n], b[n]);
      CountedSnoc(b[..n], b[n]);
    }
  }

  lemma {:induction false} NamedConcat(a: seq<ToolRecord>, b: seq<ToolRecord>, name: string)
    ensures Named(a + b, name) == Named(a, name) + Named(b, name)
  {
    if b == [] {
      assert a + b == a;
    } else {
      NamedConcat(a, b[..|b| - 1], name);
      assert (a + b)[..|a + b| - 1] == a + b[..|b| - 1];
    }
  }

  lemma NamesConcat(a: seq<ToolRecord>, b: seq<ToolRecord>)
    ensures Names(a + b) == Names(a) + Names(b)
  {
    forall name | name in Names(a) + Names(b) ensures name in Names(a + b) {
      if name in Names(a) {
        var i :| 0 <= i < |a| && a[i].toolName == name;
        assert (a + b)[i] == a[i];
      } else {
        var i :| 0 <= i < |b| && b[i].toolName == name;
        assert (a + b)[|a| + i] == b[i];
      }
    }
  }

  lemma {:induction false} NotNamed(tools: seq<ToolRecord>, name: string)
    requires name !in Names(tools)
    ensures Named(tools, name) == []
  {
    if tools != [] {
      var n := |tools| - 1;
      assert tools == tools[..n] + [tools[n]];
      NamesConcat(tools[..n], [tools[n]]);
      assert tools[n].toolName in Names(tools);
      NotNamed(tools[..n], name);
    }
  }

  lemma CountersOfName(tools: seq<ToolRecord>, name: string)
    ensures NamedCounters(ByName(tools), name) == Counted(Named(tools, name))
  {
  }

  lemma NameConcat(a: seq<ToolRecord>, b: seq<ToolRecord>, name: string)
    ensures Counted(Named(a + b, name)) == AddCounters(NamedCounters(ByName(a), name), NamedCounters(ByName(b), name))
  {
    NamedConcat(a, b, name);
    CountedConcat(Named(a, name), Named(b, name));
    CountersOfName(a, name);
    CountersOfName(b, name);
  }

  /** The per-name counters are a homomorphism, too. */
  lemma ByNameConcat(a: seq<ToolRecord>, b: seq<ToolRecord>)
    ensures ByName(a + b) == MergeCounters(ByName(a), ByName(b))
  {
    hide Counted, Named, AddCounters, NamedCounters;
    NamesConcat(a, b);
    forall name | name in Names(a + b)
      ensures Counted(Named(a + b, name)) == AddCounters(NamedCounters(ByName(a), name), NamedCounters(ByName(b), name))
    {
      NameConcat(a, b, name);
    }
  }

  lemma ByNameOne(tool: ToolRecord)
    ensures ByName([tool]) == map[tool.toolName := One(tool)]
  {
    assert [tool][..0] == [];
    assert Names([tool]) == {tool.toolName} by { assert [tool][0] == tool; }
    assert Named([tool], tool.toolName) == [tool];
    CountedSnoc([], tool);
    assert [] + [tool] == [tool];
  }

  lemma MergeOne(byName: map<string, Counters>, name: string, c: Counters)
    ensures MergeCounters(byName, map[name := c]) == byName[name := AddCounters(NamedCounters(byName, name), c)]
  {
  }

  lemma ByNameSnoc(tools: seq<ToolRecord>, tool: ToolRecord)
    ensures ByName(tools + [tool]) ==
            ByName(tools)[tool.toolName := AddCounters(NamedCounters(ByName(tools), tool.toolName), One(tool))]
  {
    hide ByName, AddCounters, NamedCounters, One;
    ByNameConcat(tools, [tool]);
    ByNameOne(tool);
    MergeOne(ByName(tools), tool.toolName, One(tool));
  }

  // ---------------------------------------------------------------- conservation

  ghost function NameTotals(byName: map<string, Counters>): Tally {
    map name | name in byName :: byName[name].total
  }

  lemma {:induction false} StatusesCover(tools: seq<ToolRecord>)
    ensures
      var c := Counted(tools);
      c.total == c.ok + c.error + c.skipped + c.blocked + c.timeout + c.aborted
  {
    if tools != [] {
      StatusesCover(tools[..|tools| - 1]);
    }
  }

  lemma BumpName(byName: map<string, Counters>, tool: ToolRecord)
    ensures NameTotals(byName[tool.toolName := AddCounters(NamedCounters(byName, tool.toolName), One(tool))]) ==
            BumpAt(NameTotals(byName), tool.toolName)
  {
  }

  lemma {:induction false} NamesCover(tools: seq<ToolRecord>)
    ensures Total(NameTotals(ByName(tools))) == |tools|
  {
    if tools == [] {
      assert NameTotals(ByName(tools)) == map[];
    } else {
      var n := |tools| - 1;
      NamesCover(tools[..n]);
      assert tools == tools[..n] + [tools[n]];
      ByNameSnoc(tools[..n], tools[n]);
      hide ByName;
      BumpName(ByName(tools[..n]), tools[n]);
      TotalBump(NameTotals(ByName(tools[..n])), tools[n].toolName);
    }
  }

  /** Every tool record is counted once by status and once by name, and every failed chat or tool
      once by error type. */
  lemma Conserved(chats: seq<ChatRecord>, tools: seq<ToolRecord>, stepCount: int)
    ensures
      var s := Summarised(chats, tools, stepCount);
      && s.tools.total == s.tools.ok + s.tools.error + s.tools.skipped + s.tools.blocked + s.tools.timeout + s.tools.aborted
      && s.tools.total == Total(NameTotals(s.byName))
      && s.errorTotal == Total(s.errorsByType)
  {
    StatusesCover(tools);
    NamesCover(tools);
    TotalIsFailures(ChatErrors(chats) + ToolErrors(tools));
  }

  // ---------------------------------------------------------------- building a summary

  /** The sum over Object.values, in whatever order they come. */
  method SumValues(t: Tally) returns (sum: nat)
    ensures sum == Total(t)
  {
    sum := 0;
    var rest := t;
    while rest != map[]
      invariant sum + Total(rest) == Total(t)
      decreases |rest|
    {
      var key :| key in rest;
      TotalWithout(rest, key);
      sum := sum + rest[key];
      rest := rest - {key};
    }
  }

  lemma ChatPrefix(chats: seq<ChatRecord>, i: nat)
    requires i < |chats|
    ensures chats[..i + 1][..i] == chats[..i]
    ensures StopReasons(chats[..i + 1]) == StopReasons(chats[..i]) + [chats[i].stopReason]
    ensures CostReasons(chats[..i + 1]) == CostReasons(chats[..i]) + [chats[i].costUnavailableReason]
    ensures ChatErrors(chats[..i + 1]) == ChatErrors(chats[..i]) + [chats[i].errorType]
    ensures Tallied(StopReasons(chats[..i + 1])) == Bump(Tallied(StopReasons(chats[..i])), chats[i].stopReason)
    ensures Tallied(ChatErrors(chats[..i + 1])) == Bump(Tallied(ChatErrors(chats[..i])), chats[i].errorType)
    ensures TruthyKeys(CostReasons(chats[..i + 1])) ==
            TruthyKeys(CostReasons(chats[..i])) +
              if Truthy(chats[i].costUnavailableReason) then {chats[i].costUnavailableReason.value} else {}
  {
    TallySnoc(StopReasons(chats[..i]), chats[i].stopReason);
    TallySnoc(ChatErrors(chats[..i]), chats[i].errorType);
    TruthyKeysSnoc(CostReasons(chats[..i]), chats[i].costUnavailableReason);
  }

  lemma ToolPrefix(errors: seq<Option<string>>, tools: seq<ToolRecord>, i: nat)
    requires i < |tools|
    ensures tools[..i + 1] == tools[..i] + [tools[i]]
    ensures Tallied(errors + ToolErrors(tools[..i + 1])) ==
            Bump(Tallied(errors + ToolErrors(tools[..i])), tools[i].errorType)
  {
    TallySnoc(errors + ToolErrors(tools[..i]), tools[i].errorType);
    assert errors + ToolErrors(tools[..i + 1]) == errors + ToolErrors(tools[..i]) + [tools[i].errorType];
  }

  datatype ChatSums = ChatSums(
    byStopReason: Tally, latencyMs: real, usage: Tokens, usd: real, reasons: set<string>, errorsByType: Tally)

  function ChatSumsOf(chats: seq<ChatRecord>): ChatSums {
    ChatSums(Tallied(StopReasons(chats)), ChatLatency(chats), Usage(chats), Cost(chats),
             TruthyKeys(CostReasons(chats)), Tallied(ChatErrors(chats)))
  }

  /** The loop over the chats. */
  method AccumulateChats(chats: seq<ChatRecord>) returns (sums: ChatSums)
    ensures sums == ChatSumsOf(chats)
  {
    hide Tallied, TruthyKeys;
    var byStopReason: Tally, chatLatency, usage, estimatedUsd := map[], 0.0, NO_TOKENS, 0.0;
    var unavailableReasons: set<string>, errorsByType: Tally := {}, map[];
    NothingTallied();
    for i := 0 to |chats|
      invariant ChatSums(byStopReason, chatLatency, usage, estimatedUsd, unavailableReasons, errorsByType) ==
                ChatSumsOf(chats[..i])
    {
      var chat := chats[i];
      ChatPrefix(chats, i);
      chatLatency := chatLatency + chat.latencyMs;
      usage := AddTokens(usage, chat.tokens);
      if Truthy(chat.stopReason) { byStopReason := BumpAt(byStopReason, chat.stopReason.value); }
      if chat.costUsd.Some? { estimatedUsd := estimatedUsd + chat.costUsd.value; }
      if Truthy(chat.costUnavailableReason) {
        unavailableReasons := unavailableReasons + {chat.costUnavailableReason.value};
      }
      if Truthy(chat.errorType) { errorsByType := BumpAt(errorsByType, chat.errorType.value); }
    }
    assert chats[..|chats|] == chats;
    sums := ChatSums(byStopReason, chatLatency, usage, estimatedUsd, unavailableReasons, errorsByType);
  }

  lemma NothingTallied()
    ensures Tallied([]) == map[] && TruthyKeys([]) == {}
    ensures StopReasons([]) == [] && CostReasons([]) == [] && ChatErrors([]) == []
  {
  }

  /** The loop over the tools; the error tally carries on where the chats left it. */
  method AccumulateTools(tools: seq<ToolRecord>, chatErrors: Tally, ghost errors: seq<Option<string>>)
    returns (counters: Counters, byName: map<string, Counters>, errorsByType: Tally)
    requires chatErrors == Tallied(errors)
    ensures counters == Counted(tools)
    ensures byName == ByName(tools)
    ensures errorsByType == Tallied(errors + ToolErrors(tools))
  {
    hide Tallied, Counted, ByName;
    errorsByType := chatErrors;
    counters, byName := NO_COUNTERS, map[];
    NothingCounted();
    assert errors + ToolErrors(tools[..0]) == errors;
    for i := 0 to |tools|
      invariant counters == Counted(tools[..i])
      invariant byName == ByName(tools[..i])
      invariant errorsByType == Tallied(errors + ToolErrors(tools[..i]))
    {
      var tool := tools[i];
      ToolPrefix(errors, tools, i);
      CountedSnoc(tools[..i], tool);
      ByNameSnoc(tools[..i], tool);
      counters := AddCounters(counters, One(tool));
      var existing := NamedCounters(byName, tool.toolName);
      byName := byName[tool.toolName := AddCounters(existing, One(tool))];
      if Truthy(tool.errorType) { errorsByType := BumpAt(errorsByType, tool.errorType.value); }
    }
    assert tools[..|tools|] == tools;
  }

  lemma NothingCounted()
    ensures Counted([]) == NO_COUNTERS && ByName([]) == map[]
  {
  }

  /** The accumulated summary is the one the records mean. */
  method BuildSummary(chats: seq<ChatRecord>, tools: seq<ToolRecord>, stepCount: int) returns (summary: Summary)
    ensures summary == Summarised(chats, tools, stepCount)
  {
    var sums := AccumulateChats(chats);
    var counters, byName, errorsByType := AccumulateTools(tools, sums.errorsByType, ChatErrors(chats));
    var errorTotal := SumValues(errorsByType);
    TotalIsFailures(ChatErrors(chats) + ToolErrors(tools));
    summary := Summary(|chats|, sums.byStopReason, sums.latencyMs, counters, byName, sums.usage, sums.usd,
                       sums.reasons, errorTotal, errorsByType, stepCount);
  }

  // ---------------------------------------------------------------- several runs

  function Combine(a: Summary, b: Summary): Summary {
    Summary(a.chatTotal + b.chatTotal, Merge(a.byStopReason, b.byStopReason), a.chatLatencyMs + b.chatLatencyMs,
            AddCounters(a.tools, b.tools), MergeCounters(a.byName, b.byName),
            AddTokens(a.usage, b.usage), a.estimatedUsd + b.estimatedUsd, a.unavailableReasons + b.unavailableReasons,
            a.errorTotal + b.errorTotal, Merge(a.errorsByType, b.errorsByType), a.stepCount + b.stepCount)
  }

  function Folded(summaries: seq<Summary>): Summary {
    if summaries == [] then EMPTY_SUMMARY
    else Combine(Folded(summaries[..|summaries| - 1]), summaries[|summaries| - 1])
  }

  lemma {:induction false} ChatLatencyConcat(a: seq<ChatRecord>, b: seq<ChatRecord>)
    ensures ChatLatency(a + b) == ChatLatency(a) + ChatLatency(b)
  {
    if b == [] {
      assert a + b == a;
    } else {
      ChatLatencyConcat(a, b[..|b| - 1]);
      assert (a + b)[..|a + b| - 1] == a + b[..|b| - 1];
    }
  }

  lemma AddTokensAssociates(a: Tokens, b: Tokens, c: Tokens)
    ensures AddTokens(AddTokens(a, b), c) == AddTokens(a, AddTokens(b, c))
    ensures AddTokens(a, NO_TOKENS) == a
  {
  }

  lemma {:induction false} UsageConcat(a: seq<ChatRecord>, b: seq<ChatRecord>)
    ensures Usage(a + b) == AddTokens(Usage(a), Usage(b))
  {
    hide AddTokens;
    AddTokensAssociates(Usage(a), NO_TOKENS, NO_TOKENS);
    if b == [] {
      assert a + b == a;
    } else {
      UsageConcat(a, b[..|b| - 1]);
      assert (a + b)[..|a + b| - 1] == a + b[..|b| - 1];
      AddTokensAssociates(Usage(a), Usage(b[..|b| - 1]), b[|b| - 1].tokens);
    }
  }

  lemma {:induction false} CostConcat(a: seq<ChatRecord>, b: seq<ChatRecord>)
    ensures Cost(a + b) == Cost(a) + Cost(b)
  {
    if b == [] {
      assert a + b == a;
    } else {
      CostConcat(a, b[..|b| - 1]);
      assert (a + b)[..|a + b| - 1] == a + b[..|b| - 1];
    }
  }

  lemma CountMerged(a: Tally, b: Tally, key: string)
    ensures CountOf(Merge(a, b), key) == CountOf(a, key) + CountOf(b, key)
  {
  }

  lemma SameCounts(a: Tally, b: Tally)
    requires a.Keys == b.Keys && forall key | key in a :: CountOf(a, key) == CountOf(b, key)
    ensures a == b
  {
    forall key | key in a ensures a[key] == b[key] {
      assert CountOf(a, key) == CountOf(b, key);
    }
  }

  lemma MergeAssociates(a: Tally, b: Tally, c: Tally)
    ensures Merge(Merge(a, b), c) == Merge(a, Merge(b, c))
    ensures Merge(a, b) == Merge(b, a)
  {
    var left, right := Merge(Merge(a, b), c), Merge(a, Merge(b, c));
    assert left.Keys == right.Keys && Merge(a, b).Keys == Merge(b, a).Keys;
    hide Merge, CountOf;
    forall key ensures CountOf(left, key) == CountOf(right, key) && CountOf(Merge(a, b), key) == CountOf(Merge(b, a), key) {
      CountMerged(Merge(a, b), c, key);
      CountMerged(a, Merge(b, c), key);
      CountMerged(a, b, key);
      CountMerged(b, c, key);
      CountMerged(b, a, key);
    }
    SameCounts(left, right);
    SameCounts(Merge(a, b), Merge(b, a));
  }

  /** Errors of chats and tools, tallied run by run or all chats before all tools. */
  lemma ErrorsConcat(c1: seq<Option<string>>, c2: seq<Option<string>>, t1: seq<Option<string>>, t2: seq<Option<string>>)
    ensures Tallied((c1 + c2) + (t1 + t2)) == Merge(Tallied(c1 + t1), Tallied(c2 + t2))
    ensures Failures((c1 + c2) + (t1 + t2)) == Failures(c1 + t1) + Failures(c2 + t2)
  {
    hide Tallied, Merge, Failures;
    TallyConcat(c1 + c2, t1 + t2);
    TallyConcat(c1, c2);
    TallyConcat(t1, t2);
    TallyConcat(c1, t1);
    TallyConcat(c2, t2);
    var a, b, c, d := Tallied(c1), Tallied(c2), Tallied(t1), Tallied(t2);
    MergeAssociates(Merge(a, b), c, d);
    MergeAssociates(a, b, c);
    MergeAssociates(b, c, d);
    MergeAssociates(a, c, b);
    MergeAssociates(Merge(a, c), b, d);
    FailuresConcat(c1 + c2, t1 + t2);
    FailuresConcat(c1, c2);
    FailuresConcat(t1, t2);
    FailuresConcat(c1, t1);
    FailuresConcat(c2, t2);
  }

  lemma KeysConcat(c1: seq<ChatRecord>, c2: seq<ChatRecord>, t1: seq<ToolRecord>, t2: seq<ToolRecord>)
    ensures StopReasons(c1 + c2) == StopReasons(c1) + StopReasons(c2)
    ensures CostReasons(c1 + c2) == CostReasons(c1) + CostReasons(c2)
    ensures ChatErrors(c1 + c2) == ChatErrors(c1) + ChatErrors(c2)
    ensures ToolErrors(t1 + t2) == ToolErrors(t1) + ToolErrors(t2)
  {
  }

  /** Summarising is a homomorphism: the summary of two runs' records put together is the
      combination of their summaries. */
  lemma SummaryConcat(c1: seq<ChatRecord>, t1: seq<ToolRecord>, n1: int, c2: seq<ChatRecord>, t2: seq<ToolRecord>, n2: int)
    ensures Summarised(c1 + c2, t1 + t2, n1 + n2) == Combine(Summarised(c1, t1, n1), Summarised(c2, t2, n2))
  {
    hide Tallied, Merge, Failures, TruthyKeys, StopReasons, CostReasons, ChatErrors, ToolErrors, ByName, MergeCounters,
      Counted, ChatLatency, Usage, Cost;
    KeysConcat(c1, c2, t1, t2);
    TallyConcat(StopReasons(c1), StopReasons(c2));
    TruthyKeysConcat(CostReasons(c1), CostReasons(c2));
    ErrorsConcat(ChatErrors(c1), ChatErrors(c2), ToolErrors(t1), ToolErrors(t2));
    ChatLatencyConcat(c1, c2);
    UsageConcat(c1, c2);
    CostConcat(c1, c2);
    CountedConcat(t1, t2);
    ByNameConcat(t1, t2);
  }

  datatype Run = Run(chats: seq<ChatRecord>, tools: seq<ToolRecord>, stepCount: int)

  function AllChats(runs: seq<Run>): seq<ChatRecord> {
    if runs == [] then [] else AllChats(runs[..|runs| - 1]) + runs[|runs| - 1].chats
  }

  function AllTools(runs: seq<Run>): seq<ToolRecord> {
    if runs == [] then [] else AllTools(runs[..|runs| - 1]) + runs[|runs| - 1].tools
  }

  function AllSteps(runs: seq<Run>): int {
    if runs == [] then 0 else AllSteps(runs[..|runs| - 1]) + runs[|runs| - 1].stepCount
  }

  function Summaries(runs: seq<Run>): seq<Summary> {
    seq(|runs|, i requires 0 <= i < |runs| => Summarised(runs[i].chats, runs[i].tools, runs[i].stepCount))
  }

  /** Aggregating any number of run summaries gives the summary of all their records. */
  lemma {:induction false} AggregateIsSummary(runs: seq<Run>)
    ensures Folded(Summaries(runs)) == Summarised(AllChats(runs), AllTools(runs), AllSteps(runs))
  {
    if runs == [] {
      NothingTallied();
      NothingCounted();
      assert Summaries(runs) == [];
      assert ChatErrors([]) + ToolErrors([]) == [];
    } else {
      var n := |runs| - 1;
      AggregateIsSummary(runs[..n]);
      assert Summaries(runs)[..n] == Summaries(runs[..n]);
      SummaryConcat(AllChats(runs[..n]), AllTools(runs[..n]), AllSteps(runs[..n]),
                    runs[n].chats, runs[n].tools, runs[n].stepCount);
    }
  }

  lemma MergeEntry(target: Tally, source: Tally, key: string, after: set<string>)
    requires key in source && key !in after
    ensures
      var before := Merge(target, source - (after + {key}));
      Merge(target, source - after) == before[key := CountOf(before, key) + source[key]]
  {
  }

  lemma MergeNothing(target: Tally, source: Tally)
    ensures Merge(target, source - source.Keys) == target
    ensures source - {} == source
  {
  }

  /** The loop over Object.entries of one tally. */
  method AddEntries(target: Tally, source: Tally) returns (merged: Tally)
    ensures merged == Merge(target, source)
  {
    hide Merge, CountOf;
    merged := target;
    var rest := source.Keys;
    MergeNothing(target, source);
    while rest != {}
      invariant rest <= source.Keys
      invariant merged == Merge(target, source - rest)
      decreases |rest|
    {
      var key :| key in rest;
      MergeEntry(target, source, key, rest - {key});
      assert rest - {key} + {key} == rest;
      merged := merged[key := CountOf(merged, key) + source[key]];
      rest := rest - {key};
    }
  }

  lemma MergeCounterEntry(target: map<string, Counters>, source: map<string, Counters>, name: string, after: set<string>)
    requires name in source && name !in after
    ensures
      var before := MergeCounters(target, source - (after + {name}));
      MergeCounters(target, source - after) ==
      before[name := if name in before then AddCounters(before[name], source[name]) else source[name]]
  {
  }

  lemma MergeNoCounters(target: map<string, Counters>, source: map<string, Counters>)
    ensures MergeCounters(target, source - source.Keys) == target
    ensures source - {} == source
  {
  }

  /** The loop over Object.entries of the per-name counters. */
  method AddCounterEntries(target: map<string, Counters>, source: map<string, Counters>)
    returns (merged: map<string, Counters>)
    ensures merged == MergeCounters(target, source)
  {
    hide MergeCounters, AddCounters;
    merged := target;
    var rest := source.Keys;
    MergeNoCounters(target, source);
    while rest != {}
      invariant rest <= source.Keys
      invariant merged == MergeCounters(target, source - rest)
      decreases |rest|
    {
      var name :| name in rest;
      MergeCounterEntry(target, source, name, rest - {name});
      assert rest - {name} + {name} == rest;
      var counters := source[name];
      merged := merged[name := if name in merged then AddCounters(merged[name], counters) else counters];
      rest := rest - {name};
    }
  }

  lemma CombineEmpty(s: Summary)
    ensures Combine(EMPTY_SUMMARY, s) == s
  {
    assert Merge(map[], s.byStopReason) == s.byStopReason;
    assert Merge(map[], s.errorsByType) == s.errorsByType;
    assert MergeCounters(map[], s.byName) == s.byName;
  }

  method AggregateAgentRunSummaries(summaries: seq<Summary>) returns (result: Summary)
    ensures result == Folded(summaries)
  {
    hide Merge, MergeCounters;
    if |summaries| == 0 { return EMPTY_SUMMARY; }
    if |summaries| == 1 {
      assert summaries[..0] == [];
      CombineEmpty(summaries[0]);
      return summaries[0];
    }
    var acc := EMPTY_SUMMARY;
    for i := 0 to |summaries|
      invariant acc == Folded(summaries[..i])
    {
      var s := summaries[i];
      assert summaries[..i + 1][..i] == summaries[..i];
      var byStopReason := AddEntries(acc.byStopReason, s.byStopReason);
      var byName := AddCounterEntries(acc.byName, s.byName);
      var errorsByType := AddEntries(acc.errorsByType, s.errorsByType);
      acc := Summary(
        acc.chatTotal + s.chatTotal, byStopReason, acc.chatLatencyMs + s.chatLatencyMs,
        AddCounters(acc.tools, s.tools), byName, AddTokens(acc.usage, s.usage),
        acc.estimatedUsd + s.estimatedUsd, acc.unavailableReasons + s.unavailableReasons,
        acc.errorTotal + s.errorTotal, errorsByType, acc.stepCount + s.stepCount);
    }
    assert summaries[..|summaries|] == summaries;
    result := acc;
  }

  // ---------------------------------------------------------------- coverage

  /** The names a run exposed, invoked and used. */
  datatype Usages = Usages(available: set<string>, invoked: set<string>, models: set<string>, providers: set<string>)

  function Covered(u: Usages): Coverage {
    Coverage(u.available, u.invoked, u.available - u.invoked, u.models, u.providers)
  }

  function Together(us: seq<Usages>): Usages {
    if us == [] then Usages({}, {}, {}, {})
    else
      var rest, u := Together(us[..|us| - 1]), us[|us| - 1];
      Usages(rest.available + u.available, rest.invoked + u.invoked, rest.models + u.models, rest.providers + u.providers)
  }

  function Declared(c: Coverage): Usages {
    Usages(c.toolsAvailable, c.toolsInvoked, c.modelsUsed, c.providersUsed)
  }

  function AllDeclared(coverages: seq<Coverage>): seq<Usages> {
    seq(|coverages|, i requires 0 <= i < |coverages| => Declared(coverages[i]))
  }

  /** A single coverage is handed back as it is; otherwise the result is the coverage of the united names. */
  function AggregatedCoverage(coverages: seq<Coverage>): Coverage {
    if |coverages| == 1 then coverages[0] else Covered(Together(AllDeclared(coverages)))
  }

  method AggregateAgentRunCoverage(coverages: seq<Coverage>) returns (result: Coverage)
    ensures result == AggregatedCoverage(coverages)
  {
    if |coverages| == 0 { return EMPTY_COVERAGE; }
    if |coverages| == 1 { return coverages[0]; }
    var available: set<string>, invoked: set<string>, models: set<string>, providers: set<string> := {}, {}, {}, {};
    for i := 0 to |coverages|
      invariant Usages(available, invoked, models, providers) == Together(AllDeclared(coverages[..i]))
    {
      var c := coverages[i];
      assert AllDeclared(coverages[..i + 1])[..i] == AllDeclared(coverages[..i]);
      available := available + c.toolsAvailable;
      invoked := invoked + c.toolsInvoked;
      models := models + c.modelsUsed;
      providers := providers + c.providersUsed;
    }
    assert coverages[..|coverages|] == coverages;
    result := Coverage(available, invoked, (set name | name in available && name !in invoked), models, providers);
  }

  /** Aggregating the coverages of any number of runs, one included, gives the coverage of all their names together. */
  lemma {:induction false} CoverageOfRuns(us: seq<Usages>)
    ensures AggregatedCoverage(seq(|us|, i requires 0 <= i < |us| => Covered(us[i]))) == Covered(Together(us))
  {
    var coverages := seq(|us|, i requires 0 <= i < |us| => Covered(us[i]));
    assert AllDeclared(coverages) == us;
    if |us| == 1 {
      assert us[..0] == [];
      assert us == [us[0]];
    }
  }

  /** A tool is unused in the aggregate exactly when some run had it available and no run invoked it;
      the unused tools of the single runs alone do not decide it. */
  lemma {:induction false} UnusedExactly(us: seq<Usages>, name: string)
    ensures name in AggregatedCoverage(seq(|us|, i requires 0 <= i < |us| => Covered(us[i]))).toolsUnused <==>
            (exists u <- us :: name in u.available) && (forall u <- us :: name !in u.invoked)
  {
    CoverageOfRuns(us);
    TogetherExactly(us, name);
  }

  lemma {:induction false} TogetherExactly(us: seq<Usages>, name: string)
    ensures name in Together(us).available <==> exists u <- us :: name in u.available
    ensures name in Together(us).invoked <==> exists u <- us :: name in u.invoked
    ensures name in Together(us).models <==> exists u <- us :: name in u.models
    ensures name in Together(us).providers <==> exists u <- us :: name in u.providers
  {
    if us != [] {
      var n := |us| - 1;
      TogetherExactly(us[..n], name);
      assert us == us[..n] + [us[n]];
      assert us[n] in us;
    }
  }

  // ---------------------------------------------------------------- the collector

  datatype ChatStart = ChatStart(startedAtMs: real, model: string)
  datatype ToolStart = ToolStart(toolCallId: string, toolName: string, startedAtMs: real)

  /** A tracing span, as far as the collector writes to it. */
  class Span {
    var chatStart: Option<ChatStart>
    var toolStart: Option<ToolStart>

    constructor ()
      ensures chatStart == None && toolStart == None
    {
      chatStart := None;
      toolStart := None;
    }
  }

  function Elapsed(now: real, startedAtMs: real): real {
    if now - startedAtMs > 0.0 then now - startedAtMs else 0.0
  }

  class AgentRunCollector {
    var chats: seq<ChatRecord>
    var tools: seq<ToolRecord>
    var availableTools: set<string>
    var invokedTools: set<string>
    var modelsUsed: set<string>
    var providersUsed: set<string>
    var runEnded: bool

    /** Every recorded tool counts as invoked; a span finished without a start has no name. */
    predicate Valid()
      reads this
    {
      Names(tools) <= invokedTools + {""}
    }

    /** A span that this collector began. */
    predicate Owns(span: Span)
      reads this, span
    {
      span.toolStart.Some? ==> span.toolStart.value.toolName in invokedTools
    }

    constructor ()
      ensures Valid() && chats == [] && tools == [] && availableTools == {} && invokedTools == {}
      ensures modelsUsed == {} && providersUsed == {} && !runEnded
    {
      chats, tools, availableTools, invokedTools, modelsUsed, providersUsed := [], [], {}, {}, {}, {};
      runEnded := false;
    }

    method MarkRunEnded() returns (first: bool)
      modifies this`runEnded
      ensures runEnded && first == !old(runEnded)
    {
      if runEnded { return false; }
      runEnded := true;
      first := true;
    }

    method NoteAvailableTools(names: seq<string>)
      modifies this`availableTools
      ensures availableTools == old(availableTools) + set i | 0 <= i < |names| :: names[i]
    {
      for i := 0 to |names|
        invariant availableTools == old(availableTools) + set j | 0 <= j < i :: names[j]
      {
        availableTools := availableTools + {names[i]};
      }
    }

    method BeginTool(span: Span, toolCallId: string, toolName: string, now: real)
      requires Valid()
      modifies span`toolStart, this`invokedTools
      ensures Valid() && Owns(span)
      ensures invokedTools == old(invokedTools) + {toolName}
      ensures span.toolStart == Some(ToolStart(toolCallId, toolName, now))
    {
      span.toolStart := Some(ToolStart(toolCallId, toolName, now));
      invokedTools := invokedTools + {toolName};
    }

    /** A start is used up by the first end; an end without a start is still recorded. */
    method EndTool(span: Span, status: Status, errorType: Option<string>, now: real)
      requires Valid() && Owns(span)
      modifies span`toolStart, this`tools
      ensures Valid() && span.toolStart == None
      ensures tools == old(tools) + [
                match old(span.toolStart)
                case Some(start) =>
                  ToolRecord(start.toolCallId, start.toolName, status, Elapsed(now, start.startedAtMs), errorType)
                case None => ToolRecord("", "", status, 0.0, errorType)]
    {
      var start := span.toolStart;
      span.toolStart := None;
      var record := ToolRecord(
        if start.Some? then start.value.toolCallId else "",
        if start.Some? then start.value.toolName else "",
        status,
        if start.Some? then Elapsed(now, start.value.startedAtMs) else 0.0,
        errorType);
      NamesConcat(tools, [record]);
      tools := tools + [record];
    }

    method RecordOrphanTool(toolCallId: string, toolName: string, status: Status)
      requires Valid()
      modifies this`invokedTools, this`tools
      ensures Valid() && invokedTools == old(invokedTools) + {toolName}
      ensures tools == old(tools) + [ToolRecord(toolCallId, toolName, status, 0.0, None)]
    {
      var record := ToolRecord(toolCallId, toolName, status, 0.0, None);
      NamesConcat(tools, [record]);
      invokedTools := invokedTools + {toolName};
      tools := tools + [record];
    }

    method BeginChat(span: Span, model: string, provider: string, now: real)
      modifies span`chatStart, this`modelsUsed, this`providersUsed
      ensures span.chatStart == Some(ChatStart(now, model))
      ensures modelsUsed == old(modelsUsed) + {model}
      ensures providersUsed == old(providersUsed) + if provider != "" then {provider} else {}
    {
      span.chatStart := Some(ChatStart(now, model));
      modelsUsed := modelsUsed + {model};
      if provider != "" { providersUsed := providersUsed + {provider}; }
    }

    /** `record` is what the finished message says of itself; its latency is measured here. */
    method EndChat(span: Span, record: ChatRecord, now: real)
      modifies span`chatStart, this`chats
      ensures span.chatStart == None
      ensures chats == old(chats) + [record.(latencyMs :=
                if old(span.chatStart).Some? then Elapsed(now, old(span.chatStart).value.startedAtMs) else 0.0)]
    {
      var start := span.chatStart;
      span.chatStart := None;
      chats := chats + [record.(latencyMs := if start.Some? then Elapsed(now, start.value.startedAtMs) else 0.0)];
    }

    /** A chat that failed without a message still counts: as an error of its type, with its latency, no tokens and no
        cost. */
    method FailChat(span: Span, errorType: string, now: real)
      modifies span`chatStart, this`chats
      ensures span.chatStart == None
      ensures chats == old(chats) + [ChatRecord(Some("error"),
                if old(span.chatStart).Some? then Elapsed(now, old(span.chatStart).value.startedAtMs) else 0.0,
                NO_TOKENS, None, None, Some(errorType))]
      ensures Usage(chats) == old(Usage(chats)) && Cost(chats) == old(Cost(chats))
      ensures forall key :: Occurrences(ChatErrors(chats), key) ==
                            old(Occurrences(ChatErrors(chats), key)) + if key == errorType then 1 else 0
    {
      var latencyMs := if span.chatStart.Some? then Elapsed(now, span.chatStart.value.startedAtMs) else 0.0;
      span.chatStart := None;
      ghost var before := chats;
      chats := chats + [ChatRecord(Some("error"), latencyMs, NO_TOKENS, None, None, Some(errorType))];
      assert chats[..|before|] == before;
      assert ChatErrors(chats) == ChatErrors(before) + [Some(errorType)];
    }

    /** Both rollups, read off the records; every tool the summary names was invoked. */
    method Snapshot(stepCount: int) returns (summary: Summary, coverage: Coverage)
      requires Valid()
      ensures summary == Summarised(chats, tools, stepCount)
      ensures coverage == Covered(Usages(availableTools, invokedTools, modelsUsed, providersUsed))
      ensures summary.byName.Keys <= coverage.toolsInvoked + {""}
    {
      summary := BuildSummary(chats, tools, stepCount);
      coverage := Coverage(availableTools, invokedTools, (set name | name in availableTools && name !in invokedTools),
                           modelsUsed, providersUsed);
    }
  }
}
