# Verification of the agent runtime

A Dafny model of the parts of this coding-agent runtime where state, interleaving and branching are densest, with
proofs of what those parts promise. `dafny verify dfyconfig.toml` checks everything.

| file | what it models |
|---|---|
| `ToolBatch.dfy` | one batch of tool calls: the promise graph of shared and exclusive calls, interrupts, the final sweep |
| `ToolOutcome.dfy` | which calls of a batch run, and the result each is shown, read off the schedule |
| `Transcript.dfy` | what a well-paired transcript is, declaratively and as an automaton |
| `AgentLoop.dfy` | the turn machine around the model call, with every way a round can end |
| `AgentTrace.dfy` | what a run of the turn machine calls, runs and polls, read off its inputs alone |
| `AgentTranscript.dfy` | what a run says: every context sent, every message recorded, every turn event, and how the run ends |
| `AgentContinue.dfy` | continuing a run without a new message |
| `AgentRuns.dfy` | concrete runs of the turn machine in which a promise is broken |
| `ProviderSlots.dfy` | the cross-process lock and lease directories that limit requests in flight |
| `ProviderScan.dfy` | leases, counts and refusals read off the calls made, and what dead requesters leave behind |
| `AuthRetry.dfy` | the key and the OAuth driver of the retry and rotation policy |
| `AuthRetryTrace.dfy` | the retry policy read off what has been sent |
| `StreamRetry.dfy` | the retrying stream that shows one attempt |
| `CacheRefresh.dfy` | the generation-guarded cache-refresh timer |
| `AppendOnly.dfy` | the incremental message log with memoised digests |
| `HashlineParser.dfy`, `HashlineApply.dfy`, `HashlineTag.dfy` | the patch language: parser, applier, line tags |
| `HashlineGrammar.dfy` | which lines the patch parser reads as headers, and which chunk gets which lines, for every text |
| `HashlineCount.dfy` | the modified-line counter of a patch |
| `Steering.dfy` | steering and follow-up queues, and the watcher that turns a steer into an interrupt |
| `ReasoningLinkage.dfy` | which replayed reasoning items are tied to computer calls or to other outputs |
| `RunCollector.dfy` | run summaries and coverage, and their aggregation |
| `RunFigures.dfy` | the figures of a summary as sums and numbers of records |
| `Todo.dfy` | the phased todo list with automatic promotion |
| `TodoLaws.dfy` | what each todo operation leaves behind, item by item |

How nondeterminism is modelled. The environment (model responses, host callbacks, task completions, abort and deadline
checks, file ages, the order in which processes and promises run) is an argument: a script, a sequence of labels, or a
total function of the attempt number. Theorems quantify over all of them, so each is about every run. Loops and
objects that the source updates in place are methods and classes proved against a specification function; the theorems
are then proved about that function.

Assumptions. Prompts and queued messages are user-side messages, so they neither make nor answer tool calls. Host callbacks
do not edit the context array of the loop. A deadline or abort that the source reads at several points may answer
differently at each. In `ProviderSlots`, each file-system call is one step, so a heartbeat is two; failing to write the
token and then removing the lock just made is one step, and so is removing a directory with its files. In `AgentLoop`, a
tool batch is any complete schedule of `ToolBatch`. In `ToolBatch`, an interrupt can arrive at any moment between two steps;
the watcher that raises it is modelled in `Steering`.

Findings. Where the code and the promise part, the code is modelled as it is, a lemma gives a concrete input, and
another says exactly when the promise holds:

- A provider stream that closes without a start or terminal event is recorded as new but never reaches the context
  (`UnstartedRun`): bookkeeping fails at every later head (`UnstartedLosesMessage`) and at no other (the history clause of
  `RunKeepsLaws`), and pairing fails exactly when that response carried runnable calls.
- A leaked response whose retry meets an empty loop guard ends the run inside an open turn (`LeakedRun`,
  `LeakLeavesTurnOpen`); an ended run is inside an open turn if and only if its last response leaked (`RunKeepsLaws`).
- A queued message that the loop has dequeued can miss the context in two ways. An aside or follow-up callback that throws
  after steering was dequeued in the same poll drops that steering, and the run fails (`LosingRun`). And a run that ends
  between two rounds, because the deadline passes at the head of the next one or because the resumed calls of an
  unpaired tail were terminal or their turn-end callback threw, discards what was waiting for that round; no poll need
  have thrown for that (`DiscardingRun`).
  Every other message is delivered, in order: `QueuesDrained` reads off the inputs what is lost and what is discarded,
  and everything is delivered if and only if both are empty.
- The slot limit can be exceeded by taking over a lock that has no owner record by age alone while its maker lives
  (`BareTimeoutOverflows`), and by the two-call check-then-remove of a stale lock (`SplitRemovalOverflows`). The code has
  both takeovers. A platform without them keeps the limit in all runs, and one with either does not
  (`SlotBoundExactly`); on any platform every run keeps it whose takeovers hit only the very lock that was checked, its
  maker being gone (`CleanSlotBound`).
- A superseded attempt leaves its start events visible when its result promise rejects with a retryable error after its
  iterator has ended (`ForeignStreamLeaks`), and only then (`TransparentExactly`). The repository's own streams never
  do that (`ProducedIsOwn`), so requests over them are transparent (`StreamRequest`, `Transparent`).
- The two authentication drivers differ for an empty bearer, for a fresh bearer of a credential already tried, and for
  an error that is both a token-refresh request and a direct rotation (`EmptyBearerDiffers`, `KnownCredentialDiffers`,
  `DoubleClassDiffers`); they agree if and only if none of these separates them at a state they visit
  (`DriversAgreeExactly`).
- A kept log entry that was rewritten in place since it was recorded is stale whenever the caller passes a fresh object
  with the old text (`StaleEntryKept`, `AgreesExactly`), and writing to the log directly breaks its length
  (`DirectWriteDesyncs`, `LengthExactly`).
- A cut has no range check, and a range is checked against the document as it has grown, so one that reaches past the
  original end also takes lines a later chunk put in (`LooseCutTakesInsertion`, `LooseRangeTakesInsertion`). A patch is
  refused exactly when a range reaches past the end even with those lines; otherwise the splices are the simultaneous
  edit exactly when no chunk starting after such a chunk inserts a line (`LooseChunksExactly`), and `LooseChunkTakes`
  says which lines are taken.
- The modified-line counter of a patch counts what a cut names, not what it deletes: it is right for a cut alone exactly
  when its end lies in the document and not before its start, too large past the end, and negative for a backward cut
  (`CutCountExactly`); for a fitting patch it is right exactly when no cut is backward (`ModifiedExactly`).
- A peer-interrupt callback that throws ends the event-driven steering watch for the rest of the batch
  (`ThrownCheckStrandsSteer`, `AttendedExactly`).
- The todo tool's header says that completed tasks never revert; start, block and drop do rewrite them
  (`CompletedReverts`, `DoneExactly`). The reason of a blocked item outlives its block unless it is
  unblocked: a start, finish or drop leaves it (`ReasonAfter`).

## Model

| member | source | states |
|---|---|---|
| ToolBatch.BuildWaits | packages/agent/src/agent-loop.ts:2841-2867 | The scheduling loop, which only stores the last exclusive task and the shared group after it, chains every call to exactly the earlier conflicting calls with no exclusive call in between. |
| ToolBatch.Exclusion | packages/agent/src/agent-loop.ts:2841-2867 | In every reachable state, if either of two calls is exclusive and the later one has been entered, the earlier one has fulfilled, though the graph has no direct edge for most such pairs. |
| ToolBatch.EnteredAfter | packages/agent/src/agent-loop.ts:2858-2866 | A call that has been entered has every call it waits for fulfilled; so dependents of a rejected task are never entered. |
| ToolBatch.Progress | packages/agent/src/agent-loop.ts:2841-2891 | No deadlock: in every reachable state that is not done some task or the final sweep can take a step. |
| ToolBatch.Bounded | packages/agent/src/agent-loop.ts:2560-2779 | Every schedule of a batch of n calls takes at most 9n task steps. |
| ToolBatch.OneResultPerCall | packages/agent/src/agent-loop.ts:2519-2558 | A finished batch emitted each call exactly once, with exactly one execution start and one execution end per call, whatever interrupts, aborts, hooks and faults did. |
| ToolBatch.EmittedIsFinal | packages/agent/src/agent-loop.ts:2519-2520 | Once a call has a result no step changes it. |
| ToolBatch.CompletedKept | packages/agent/src/agent-loop.ts:2721-2756 | A call whose tool returned has its result exactly as due: without a hook what the tool returned, with one what the hook in the schedule made of it (kept, replaced or the hook's error), and never the interrupt placeholder. |
| ToolBatch.NonInterruptibleKept | packages/agent/src/agent-loop.ts:2560-2580 | With no external abort and no faulted task, a non-interruptible call never gets an interrupt placeholder. |
| ToolBatch.BatchPairs | packages/agent/src/agent-loop.ts:2879-2891 | Read as results for the calls' ids, the emission order of a finished batch is a permutation of those ids as a multiset. |
| ToolOutcome.ResultDue | packages/agent/src/agent-loop.ts:2560-2756 | In every schedule, every call has been shown exactly the result due to it and nothing before that, where what is due is read off the schedule: when the call began, was entered, launched, ended, was hooked, closed or swept, and which signals were up at each of these moments. |
| ToolOutcome.RunsExactly | packages/agent/src/agent-loop.ts:2640-2700 | A tool returns or throws only if it was executed, and once its task is settled exactly then: the call is valid, has a tool, was not blocked or failed in preparation, no callback threw, and its signal was down on entry and at launch; it has an output exactly when its tool returned. |
| ToolOutcome.BarredNeverRuns | packages/agent/src/agent-loop.ts:2640-2650 | A call that is invalid, has no tool or was refused is never executed in any schedule; what it is shown is a placeholder or an error unless the after-call hook replaced that, and an invalid one that is entered is shown its validation error. |
| ToolOutcome.RaisedNeverRuns | packages/agent/src/agent-loop.ts:2582-2645 | A call whose signal was raised before it was entered, or before its tool was to start, is never executed. |
| ToolOutcome.PlaceholderExactly | packages/agent/src/agent-loop.ts:2738-2756 | A result is the interrupt placeholder if and only if the call was left out, or ended after an interrupt with its signal raised, an error and no completed tool; it says truthfully whether the tool had been executed. |
| Transcript.OwedMeansPaired | packages/agent/src/agent-loop.ts:1319-1353 | Reference for pairing: the automaton that tracks the ids still owed accepts a transcript with nothing owed if and only if every assistant message is immediately followed by results whose ids are exactly its runnable call ids, and results occur nowhere else. |
| Transcript.ResultsPay | packages/agent/src/agent-loop.ts:1450-1453 | A run of results pays exactly the ids it names, and breaks the transcript when it names one that is not owed. |
| AgentLoop.RunLoopBody | packages/agent/src/agent-loop.ts:1029-1567 | The nested loops compute the run that the specification describes for every script; the soft requirement survives only a gate stop of a run that was not aborted. |
| AgentContinue.AgentLoopContinue | packages/agent/src/agent-loop.ts:589-619 | For every context: continuing is accepted exactly when the context, its unpaired tail executed, has something for the model to answer; an accepted run calls the model first on such a context, and on a paired one exactly when the base was paired up to that tail. |
| AgentContinue.RefusedExactly | packages/agent/src/agent-loop.ts:589-601 | The refusal is neither too strict nor too lax: with nothing queued and nothing announced, the first model call of the run would be answerable if and only if the continuation is not refused. |
| AgentLoop.RunKeepsLaws | packages/agent/src/agent-loop.ts:1098-1119 | For every script: every model call sees a paired transcript if and only if no orphaning response came before; at every loop head the context is the initial one followed by the new messages if and only if no unstarted response came before; turns never nest; an ended run is inside a turn if and only if its last call leaked; each turn announces its requirement exactly when it is new and escalates exactly when its settled calls violate its gate, at most three times an activation; the reminders in the transcript are those announced; at most 8 paused continuations. |
| AgentLoop.WellBehavedRun | packages/agent/src/agent-loop.ts:1134-1161 | Every run of a script whose streams all start and never leak keeps the pairing, bookkeeping and turn laws without exception. |
| AgentLoop.UnstartedLosesMessage | packages/agent/src/agent-loop.ts:1302-1308 | In every run, after a stream that closed unstarted the context differs from initial plus new messages at every later loop head. |
| AgentRuns.UnstartedRun | packages/agent/src/agent-loop.ts:1302-1308 | A concrete run in which that happens. |
| AgentLoop.LeakLeavesTurnOpen | packages/agent/src/agent-loop.ts:1291-1299 | From any loop head where only queued messages open the next turn, a leak that may be retried ends the run inside the open turn. |
| AgentRuns.LeakedRun | packages/agent/src/agent-loop.ts:1291-1299 | A concrete run that reaches such a head and ends inside the open turn. |
| AgentLoop.BatchResultIds | packages/agent/src/agent-loop.ts:1437-1453 | Whatever the schedule, the results of an executed batch name exactly the runnable calls of the response, as a multiset. |
| AgentLoop.ResumeInv | packages/agent/src/agent-loop.ts:1090-1127 | A context with an unpaired runnable tail, and otherwise well paired, is well paired again before the first model call. |
| AgentLoop.EscalateInv | packages/agent/src/agent-loop.ts:1406-1436 | An escalation answers every call of the detour, runs none of them, and keeps every invariant of the run. |
| AgentLoop.SettleInv | packages/agent/src/agent-loop.ts:1437-1473 | A settled turn, executed or paired with placeholders, keeps every invariant of the run. |
| AgentLoop.GiveUpKept | packages/agent/src/agent-loop.ts:1407-1411 | The run that gives up has spent exactly three escalations in the activation and violates an active gate in its last turn only; nothing of the detour ran. |
| AgentTrace.TurnsFollowScript | packages/agent/src/agent-loop.ts:1166-1436 | In every run, with everything on the right read off the inputs: model call k is made for the turn of round k and is sent the host's own choice, else the one forced by a detour in the turn just before in the same activation, else the configured one; that turn has the requirement of the directive of the round that opened it and settles exactly on the runnable calls of its response; executions, and the tool results in the transcript, are exactly those of the settled, runnable rounds that do not violate their gate before the deadline, after those of the resumed tail; at most three detours count in an activation, and the run is aborted exactly when its last call takes one more; a run stopped at the gate hands on the requirement in force. |
| AgentTrace.ForcedByDetour | packages/agent/src/agent-loop.ts:1309-1315 | A forced choice is carried by one logical turn only: the one right after the round that took the detour, for the same requirement, and it names that requirement's tool. |
| AgentTranscript.ContextsFollowScript | packages/agent/src/agent-loop.ts:1131-1473 | In every run, with everything on the right read off the inputs: each model call is sent the context its head held, then the messages that were waiting, then the reminders its directive announces; the next head holds that, then the response as it came (nothing if its stream never started), then the results of its calls; the run makes calls up to the first round at which the inputs end it, ends there in the way they demand, and leaves exactly the context, new messages and turn events they demand. |
| AgentTrace.QueuesDrained | packages/agent/src/agent-loop.ts:1513-1557 | Over every run, with lost and discarded messages read off the inputs: the prompts followed by what the polls of the played rounds hand over are folded in in order, then those discarded, then those lost. Lost is what a last poll took before it threw, and the run failed; discarded is what the polls since the last call handed over, when the next round is never entered because the deadline has passed at its head or because the resumed calls were terminal or their turn end threw (or the script is cut off there). Everything is folded in if and only if both are empty. |
| AgentRuns.LosingRun | packages/agent/src/agent-loop.ts:1501-1520 | A concrete run in which a poll throws after taking a message, which ends up in neither the context nor the queue. |
| AgentRuns.DiscardingRun | packages/agent/src/agent-loop.ts:1131-1135 | A concrete run in which a steer dequeued at the start is discarded by the deadline at the head of the first round, with no poll that threw. |
| ProviderSlots.CleanSlotBound | packages/ai/src/stream.ts:394-479 | On every platform: with any number of requesters, deaths, stale leases, failing calls and late heartbeats interleaved step by step, there are never more lease directories than the limit in a run whose takeovers hit only the very lock that was checked, its maker being gone. |
| ProviderSlots.SlotBound | packages/ai/src/stream.ts:394-479 | The same for all runs on platforms without the two unsafe takeovers. |
| ProviderSlots.HoldersBound | packages/ai/src/stream.ts:556-607 | In every clean run, requests in flight whose lease was not reaped hold distinct leases, so they are no more than the limit. |
| ProviderSlots.RemovedStaysRemoved | packages/ai/src/stream.ts:257-270 | A lease removed at some point of a run is absent from then on, files included: no heartbeat still under way between its write and its rename, and no other step, brings it back. |
| ProviderSlots.LateBeat | packages/ai/src/stream.ts:257-270 | A concrete run in which the release overtakes a heartbeat between its two calls. |
| ProviderSlots.BeatExactly | packages/ai/src/stream.ts:257-270 | In every reachable state a heartbeat's rename refreshes the info file exactly when the lease directory is still there. |
| ProviderSlots.OneOwner | packages/ai/src/stream.ts:360-392 | In every clean run at most one requester is in the critical section, and it owns the lock at the path. |
| ProviderSlots.ScanNeverUndercounts | packages/ai/src/stream.ts:394-421 | In every clean run a counting scan, interleaved with unlocked releases, reaps and heartbeats, never undercounts, and a requester that passed it still has room for its lease. |
| ProviderSlots.BareTimeoutOverflows | packages/ai/src/stream.ts:295-307 | A concrete run in which a lock without owner record is taken over by age while its maker lives, and the limit is exceeded. |
| ProviderSlots.SplitRemovalOverflows | packages/ai/src/stream.ts:323-346 | A concrete run in which check and removal of a stale lock are two calls, and the limit is exceeded. |
| ProviderSlots.SlotBoundExactly | packages/ai/src/stream.ts:360-479 | For every limit of at least one, the bound holds in all runs if and only if the platform has neither unsafe takeover. |
| ProviderScan.LeasesExactly | packages/ai/src/stream.ts:394-479 | In every run, clean or not, the lease directories there are exactly those that some requester made and that no stale judgement, release by its owner or clean-up after a failed write has removed since, all read off the calls made. |
| ProviderScan.ScanExactly | packages/ai/src/stream.ts:394-421 | In every run, what a scan has counted is the number of its looks since its listing that found the entry there and not stale, or gone although it had been seen; what it has still to examine is its listing less the entries looked at. |
| ProviderScan.RefusedExactly | packages/ai/src/stream.ts:434-435 | In every run a requester decides with its whole listing examined and is refused if and only if that count reaches the limit; otherwise it goes on to make its lease. |
| ProviderScan.StaleReaped | packages/ai/src/stream.ts:414-417 | A lease that a scan judges stale is gone, files included, right after that look and in every continuation. |
| ProviderScan.DeathsBlockNobody | packages/ai/src/stream.ts:360-479 | From every reachable state in which the lock, if any, is that of a dead maker, whatever leases are left, an idle requester can go on to hold the one lease there is: a dead requester costs no slot for good. |
| ProviderScan.SlotPassedOn | packages/ai/src/stream.ts:423-479 | A request that ends gives its slot back: even at the limit, another idle requester can then hold a lease, and as many leases are left as before. |
| ProviderScan.LockAccountedFor | packages/ai/src/stream.ts:348-392 | In every clean run the lock at the path was made by a requester that is still in the critical section or has died; one that goes on leaves no lock behind. |
| AuthRetry.AuthRetryKeyState.AcceptRetryKey | packages/ai/src/auth-retry.ts:150-157 | A key is accepted if and only if it is new and the ceiling is not reached; otherwise the state is unchanged. |
| AuthRetry.AuthRetryKeyState.ResolveNextAuthRetryKey | packages/ai/src/auth-retry.ts:159-195 | The in-place step makes the transition of the policy's specification function, new state and next bearer. |
| AuthRetry.WithAuth | packages/ai/src/auth-retry.ts:231-270 | The retry loop sends exactly the bearers of the specification, and its attempt counter is their number. |
| AuthRetry.WithOAuthAccess | packages/ai/src/auth-retry.ts:326-440 | The separately written OAuth loop sends exactly the accesses of its specification. |
| AuthRetry.KeyPolicy | packages/ai/src/auth-retry.ts:159-195 | Over all resolvers and errors: at most 64 sends, no bearer twice, at most one token-refresh replay, at most one ordinary switch, and refreshes bounded by the direct switches plus one. |
| AuthRetry.OrdinaryAtMostThree | packages/ai/src/auth-retry.ts:175-194 | Ordinary authentication failures alone cause at most three sends. |
| AuthRetry.AccessPolicy | packages/ai/src/auth-retry.ts:343-436 | The same bounds for the OAuth driver; each sibling switch uses a credential unlike all tried before: another id or, without ids, another bearer. |
| AuthRetryTrace.KeyRunExactly | packages/ai/src/auth-retry.ts:159-270 | Over all resolvers and errors, with no private state of the driver: it starts exactly when the resolver gives a key that is not empty, sends that first, after every failure sends exactly what the policy makes due from the causes and keys sent so far, and stops exactly when nothing is due. |
| AuthRetryTrace.AccessRunExactly | packages/ai/src/auth-retry.ts:326-440 | The same for the OAuth driver and the same policy, where an access was tried before if its bearer was sent or, for a sibling, if its credential id was tried or neither carries an id and the bearers are equal. |
| AuthRetryTrace.SiblingIsTried | packages/ai/src/auth-retry.ts:403-436 | After a direct-rotation failure with no abort and under 64 attempts, if the store rotated and hands out a bearer and a credential not tried before, the next send is that access, for that reason. |
| AuthRetry.DriversAgreeExactly | packages/ai/src/auth-retry.ts:231-436 | For every store: the two drivers send the same bearers for the same reasons if and only if the first bearer is not empty and, at each state visited, no refresh hands out a fresh empty bearer, no rotation hands out an unseen bearer of a tried credential or a fresh empty one, and at an error of both classes refresh and rotation are accepted alike. |
| AuthRetry.DriversAgree | packages/ai/src/auth-retry.ts:231-436 | A corollary that can be checked without running: they agree for stores without credential ids, empty bearers and errors of both classes. |
| AuthRetry.EmptyBearerDiffers | packages/ai/src/auth-retry.ts:115-118 | An empty bearer is a decline to one driver and is sent by the other. |
| AuthRetry.KnownCredentialDiffers | packages/ai/src/auth-retry.ts:420-427 | A fresh bearer of a known credential ends the OAuth driver while the key driver sends it. |
| AuthRetry.DoubleClassDiffers | packages/ai/src/auth-retry.ts:115-120 | An error that is a token-refresh request and a direct rotation separates the drivers. |
| StreamRetry.RunAttempt | packages/ai/src/stream.ts:1497-1552 | An attempt is held back exactly when it is refused before any event other than a start; otherwise the outer stream shows exactly what the attempt alone would show; releasing a held attempt completes exactly that. |
| StreamRetry.RefusalExactly | packages/ai/src/stream.ts:1497-1552 | An attempt is a ground for a retry if and only if it fails with a retryable refusal, as an error event or in its end, with nothing but starts before that. |
| StreamRetry.StreamRequest | packages/ai/src/stream.ts:1562-1602 | The consumer sees what superseded attempts leaked followed by exactly the last attempt, and exactly the last attempt when the streams are of the repository's own make; there is one attempt per bearer of the retry policy, each superseded one was refused, and a missing key fails or runs once. |
| StreamRetry.ProducedIsOwn | packages/ai/src/utils/event-stream.ts:51-118 | Whatever sequence of pushes, ends and failures a producer makes, a closed stream has settled its result or failed, and its result promise rejects after a normal end of iteration only with the non-retryable error of a missing result. |
| StreamRetry.ProducedExactly | packages/ai/src/utils/event-stream.ts:51-118 | A stream delivers every event pushed until it closes, the terminal one included, in order, and nothing later; its first closing operation settles it, and the later ones change nothing. |
| StreamRetry.Transparent | packages/ai/src/stream.ts:1538-1552 | Superseded streams of that kind let nothing through. |
| StreamRetry.TransparentExactly | packages/ai/src/stream.ts:1538-1552 | For stream objects of any make, only the last attempt is visible if and only if no superseded attempt that had sent events was refused by its result promise after its iterator ended. |
| StreamRetry.ForeignStreamLeaks | packages/ai/src/stream.ts:1538-1552 | A concrete request in which such a stream is superseded and its start stays visible. |
| StreamRetry.OnlyStartsLeak | packages/ai/src/stream.ts:1508-1511 | What a superseded attempt can leak is start events only. |
| CacheRefresh.AnthropicCacheRefreshState.ArmRefresh | packages/ai/src/stream.ts:1185-1190 | Arming opens a new generation, drops every pending timeout, and leaves one timer with three refreshes allowed. |
| CacheRefresh.AnthropicCacheRefreshState.FireTimer | packages/ai/src/stream.ts:1196-1216 | A timeout that fires always belongs to the current generation and starts one refresh of the current plan. |
| CacheRefresh.AnthropicCacheRefreshState.CompleteRefresh | packages/ai/src/stream.ts:1216-1237 | A refresh of an earlier generation changes nothing; one of the current generation reschedules exactly if it touched the cache and has refreshes left, and otherwise ends the plan. |
| CacheRefresh.RunInterleaving | packages/ai/src/stream.ts:1166-1238 | Over all interleavings at most one timer is pending, it is of the current generation, and no generation starts more than three refreshes. |
| CacheRefresh.RefreshToTheEnd | packages/ai/src/stream.ts:1185-1237 | The bound is met: from any state, an arming whose refreshes all reach the cache is refreshed exactly three times and is then over. |
| AppendOnly.HashPayload | packages/agent/src/append-only-context.ts:327-331 | The signed 32-bit shift-and-wrap loop computes the base-31 polynomial of the text modulo 2^32. |
| AppendOnly.DigestsCollide | packages/agent/src/append-only-context.ts:327-333 | Two different texts share a digest, so agreement is in digests only. |
| AppendOnly.StablePrefixStops | packages/agent/src/append-only-context.ts:296-304 | The comparison loop's stopping point is the longest common prefix of recorded and fresh digests. |
| AppendOnly.SyncResends | packages/agent/src/append-only-context.ts:226-256 | From a state in step, the three-case sync leaves exactly the caller's array after a kept prefix of the very same entries, as long as the recorded digests match and the log reaches, and records exactly the fresh digests. |
| AppendOnly.AgreesExactly | packages/agent/src/append-only-context.ts:187-199 | After a sync every entry is digest-equal to the message at its position if and only if no kept entry was rewritten since it was recorded; an entry passed again as the same object is never the cause. |
| AppendOnly.StaleEntryKept | packages/agent/src/append-only-context.ts:187-199 | A concrete run in which an entry rewritten since it was recorded is kept for a fresh object with the old text. |
| AppendOnly.LengthExactly | packages/agent/src/append-only-context.ts:273-279 | From any recorded state, also after direct writes to the log, a sync restores the length if and only if the log had no surplus or the surplus fell to the shrink or the cut. |
| AppendOnly.DirectWriteDesyncs | packages/agent/src/append-only-context.ts:273-279 | A concrete direct write that leaves the next sync one entry too long. |
| AppendOnly.Provenance | packages/agent/src/append-only-context.ts:226-271 | In every state reachable by syncs, clears, truncations and resets, each log entry was handed over at its own position by a sync with the digest recorded for it now. |
| AppendOnly.FrozenRunAgrees | packages/agent/src/append-only-context.ts:226-271 | Through a whole run of messages that keep their digests, the log after a sync is digest for digest the conversation. |
| AppendOnly.CutResends | packages/agent/src/append-only-context.ts:226-271 | After any run and then a clear, truncation or reset, the next sync sends the caller's own object at every position, except exactly those the truncation left, when the array has not shrunk and every digest up to there is still the recorded one. |
| AppendOnly.AppendOnlyContextManager.MessageDigest | packages/agent/src/append-only-context.ts:311-334 | With a coherent memo the digest returned is the digest of the current text, and the memo stays coherent. |
| AppendOnly.AppendOnlyContextManager.SyncMessages | packages/agent/src/append-only-context.ts:226-256 | The object's new log, cursor and digests are those of the specification, computed through the memo. |
| AppendOnly.MutationsKeepMemo | packages/agent/src/append-only-context.ts:189-199 | Whatever owners do to messages between two states, the memo equals recomputation if and only if no currently memoised message came to another digest under its old version. |
| HashlineParser.ParseHashlinePatch | core/hashline/index.ts:49-119 | The parser's loop computes the fold of its line step over the lines of the text. |
| HashlineParser.JoinSplit | core/hashline/index.ts:128-185 | Splitting a text into lines and joining them again is the identity. |
| HashlineParser.HeaderReadsBack | core/hashline/index.ts:58-106 | The written header of every canonical chunk is read as that chunk, line numbers included, and by no other pattern first. |
| HashlineParser.RoundTrip | core/hashline/index.ts:49-119 | Parsing the canonical text of any chunk list returns the same chunks in order. |
| HashlineParser.Normalises | core/hashline/index.ts:49-119 | Whatever the text, the parsed chunks are canonical and rendering them changes nothing for the parser. |
| HashlineGrammar.HeaderExactly | core/hashline/index.ts:57-106 | A line is a header if and only if it is written as one of the four patterns, with white space of any kind and length, leading zeros and trailing text allowed, and it gives the numbers written; no line matches two patterns. |
| HashlineGrammar.ParsedExactly | core/hashline/index.ts:49-119 | For every text: one chunk per header line, in order, with the plus rows between it and the next header as its lines; a cut takes none, and rows before the first header or behind a cut, and all other lines, are ignored. |
| HashlineApply.ApplyHashlinePatch | core/hashline/index.ts:122-189 | The splice loop over the sorted chunks computes the specified outcome: text, counter, success and error. |
| HashlineApply.SplicesAreSimultaneous | core/hashline/index.ts:128-188 | For in-bounds, pairwise disjoint chunks the descending splices succeed and equal the edit read off gap by gap in original line numbers. |
| HashlineApply.OrderIrrelevant | core/hashline/index.ts:131-134 | Two patches with the same chunks at distinct start lines do the same to every document, including the same refusal. |
| HashlineApply.SharedStartOrderMatters | core/hashline/index.ts:131-134 | With a shared start line the order of the patch shows in the document. |
| HashlineApply.LineCount | core/hashline/index.ts:134-188 | The result has the original lines minus the deleted ones plus the inserted ones. |
| HashlineCount.ModifiedExactly | core/hashline/index.ts:149-188 | For every fitting patch the counter is the number of lines deleted or put in, a replaced line once, less what backward cuts fall short: right if and only if no cut is backward, and then between the larger and the sum of the numbers of deleted and of inserted lines. |
| HashlineCount.CutCountExactly | core/hashline/index.ts:174-180 | For a cut alone, wherever it ends, the counter is the number of lines lost if and only if the end lies in the document and not before the start; past the end it overstates, and a backward cut changes nothing and counts below zero. |
| HashlineCount.PutCountExactly | core/hashline/index.ts:150-173 | An insertion alone counts the lines by which the document grows, a replacement the larger of what it takes and what it puts in. |
| HashlineApply.LooseChunksExactly | core/hashline/index.ts:128-188 | For all chunks that fit once the cuts and ranges that reach past the end are clamped to the document: the patch is refused if and only if some range ends beyond the document plus the lines put in by chunks starting after it; otherwise the splices equal the simultaneous edit of the clamped chunks if and only if no chunk starting after an out-of-range one inserts a line. |
| HashlineApply.LooseChunkTakes | core/hashline/index.ts:150-181 | An accepted chunk that reaches past the end takes, besides its own lines, exactly as many of the lines put in behind it as it reaches, first ones first. |
| HashlineApply.LooseCutsExactly | core/hashline/index.ts:174-180 | The case of cuts only, which are never refused. |
| HashlineApply.LooseCutTakesInsertion | core/hashline/index.ts:174-180 | A concrete out-of-bounds cut that removes text another chunk inserted. |
| HashlineApply.LooseRangeTakesInsertion | core/hashline/index.ts:151-160 | A concrete range that is refused alone, and accepted beside an insertion that it then replaces. |
| HashlineTag.ShortHashSuffices | core/hashline/index.ts:27-36 | The tag of the 32-bit hash is the same hash run on sixteen bits of state. |
| HashlineTag.ComputeLineTag | core/hashline/index.ts:27-36 | The tag is the four-digit form of the short hash of the line without one trailing carriage return. |
| HashlineTag.SameTagExactly | core/hashline/index.ts:27-36 | Lines get the same tag exactly when their short hashes agree. |
| Steering.AgentQueues.DequeueSteeringMessages | packages/agent/src/agent.ts:1055-1067 | In both modes what is delivered followed by what stays is the old queue. |
| Steering.AgentQueues.DequeueSteeringAfterHooks | packages/agent/src/agent.ts:832-836 | With hooks, arrivals during the hooks and either abort check, nothing is lost: delivered plus queue is the old queue plus the arrivals. |
| Steering.NothingLost | packages/agent/src/agent.ts:973-1081 | Over every history of enqueues, dequeues in either mode, pops and replacements, nothing is duplicated or overtaken and each message is delivered, waiting or dropped. |
| Steering.FirstInFirstOut | packages/agent/src/agent.ts:1055-1081 | Without pops and replacements, delivered messages followed by the queue equal what was put in. |
| Steering.HasSteeringMessages | packages/agent/src/agent.ts:1494-1514 | The peek names the source of the very messages the next dequeue delivers: human, else agent, else system. |
| Steering.SteerAttended | packages/agent/src/agent-loop.ts:2810-2829 | In every reachable state of the watcher a non-empty queue has the interrupt out, a check before it or seeing it, or a resolved wait, unless a check threw. |
| Steering.AttendedExactly | packages/agent/src/agent-loop.ts:2810-2829 | While the interrupt is not out and the watch not over, the next steer is attended if and only if no check has thrown. |
| Steering.ThrownCheckStrandsSteer | packages/agent/src/agent-loop.ts:2810-2829 | A concrete run in which a check throws and the next steer waits with nobody to see it. |
| Steering.SteerReachesInterrupt | packages/agent/src/agent-loop.ts:2478-2517 | While the queue only grows, an attended steer becomes an interrupt within six runs of the watcher, whatever arrives in between. |
| Steering.TriggeredExactly | packages/agent/src/agent-loop.ts:2463-2517 | Over every run of the watcher, the interrupt is out if and only if it was before, another check raised it, the watcher had seen a queued steer, or the peer callback it asked said yes: none of these is ignored and nothing else raises it. |
| ReasoningLinkage.CollectAnswered | packages/ai/src/utils.ts:177-194 | The backward pass collects exactly the id-bearing computer calls with a later output of the same call id. |
| ReasoningLinkage.CollectComputerLinked | packages/ai/src/utils.ts:173-212 | Exactly the reasoning items that precede, in the same boundary-delimited response, an id-bearing computer call, answered later when that is required. |
| ReasoningLinkage.CollectRetained | packages/ai/src/utils.ts:240-265 | Exactly the reasoning items whose response has another id-bearing output, before or after them. |
| ReasoningLinkage.StripComputerLinkedReasoningIds | packages/ai/src/utils.ts:268-291 | The lazily copying loop equals the pointwise pass and copies exactly when something changes. |
| ReasoningLinkage.StripUnpairedComputerReasoningIds | packages/ai/src/utils.ts:297-319 | Likewise for the pass over provisional ids. |
| ReasoningLinkage.StripLinkedSettles | packages/ai/src/utils.ts:268-291 | The pass changes only ids of reasoning items, leaves no id-bearing item tied to a computer call alone, and is idempotent. |
| ReasoningLinkage.StripUnpairedSettles | packages/ai/src/utils.ts:297-319 | The provisional ids that are left are those of items linked to an answered computer call; the pass is idempotent. |
| ReasoningLinkage.PerSlot | packages/ai/src/utils.ts:196-211 | With distinct item objects the three memberships are properties of the slot. |
| ReasoningLinkage.StripOutputOnlyStatuses | packages/ai/src/utils.ts:91-113 | The status loop equals the pointwise pass and copies exactly when something changes. |
| ReasoningLinkage.StripStatusSettles | packages/ai/src/utils.ts:91-113 | The status pass leaves no status on an item kind that rejects it, and is idempotent. |
| RunCollector.BuildSummary | packages/agent/src/run-collector.ts:315-416 | The accumulating loops compute the summary whose every figure is defined directly on the records. |
| RunCollector.Conserved | packages/agent/src/run-collector.ts:351-411 | The tool total is the sum of the six statuses and of the per-name totals, and the error total is the sum by type. |
| RunFigures.UsageExactly | packages/agent/src/run-collector.ts:328-334 | Each field of the usage is the sum of that field over the chats. |
| RunFigures.LatencyAndCostExactly | packages/agent/src/run-collector.ts:328-336 | Latencies and cost are the sums over the records, a chat without a cost adding none. |
| RunFigures.ToolCountsExactly | packages/agent/src/run-collector.ts:351-360 | Each status count is the number of tool records with that status. |
| RunFigures.NameCountsExactly | packages/agent/src/run-collector.ts:351-383 | A name has counters exactly when a record has that name, and they are the numbers and the latency of the records with that name. |
| RunFigures.TalliesExactly | packages/agent/src/run-collector.ts:335-388 | A stop reason is tallied as often as chats stopped for it, an error type as often as chats and tools failed with it, the error total is the number of failed records, and the cost reasons are exactly those given; empty ones are no entry. |
| RunCollector.SummaryConcat | packages/agent/src/run-collector.ts:445-543 | The summary of two runs' records put together is the combination of their summaries. |
| RunCollector.AggregateAgentRunSummaries | packages/agent/src/run-collector.ts:445-543 | For none, one or more summaries the loop computes their fold. |
| RunCollector.AggregateIsSummary | packages/agent/src/run-collector.ts:435-543 | Aggregating the summaries of any number of runs gives the summary of all their records. |
| RunCollector.AggregateAgentRunCoverage | packages/agent/src/run-collector.ts:546-567 | The loop computes the aggregate: one coverage is handed back, otherwise the coverage of the united names. |
| RunCollector.CoverageOfRuns | packages/agent/src/run-collector.ts:546-567 | For every number of runs, the aggregate of their coverages is the coverage of everything together. |
| RunCollector.UnusedExactly | packages/agent/src/run-collector.ts:559-563 | A tool is unused in the aggregate if and only if some run had it and no run invoked it. |
| RunCollector.AgentRunCollector.EndTool | packages/agent/src/run-collector.ts:272-282 | One record per end, with the name and latency of the start it uses up, or unnamed without a start; every recorded name stays among the invoked ones. |
| RunCollector.AgentRunCollector.FailChat | packages/agent/src/run-collector.ts:242-261 | A chat that failed without a message adds one record with its latency: one more error of exactly its type, and no tokens or cost. |
| RunCollector.AgentRunCollector.Snapshot | packages/agent/src/run-collector.ts:305-313 | Summary and coverage of the collector's records; every tool the summary names was invoked. |
| Todo.TodoStateMachine.Execute | core/tools/todo.ts:53-202 | Every operation on every list has its own effect, then the promotion; the list is settled and the result names the active item and the counts. |
| Todo.TodoStateMachine.EnforceAutoPromotion | core/tools/todo.ts:223-249 | The three-step loop keeps only the earliest item in progress or, when there is none, promotes the earliest pending one, and changes nothing else. |
| Todo.PromotionSettles | core/tools/todo.ts:223-249 | After the promotion at most one item is in progress, and exactly one if any is pending. |
| Todo.SettledStays | core/tools/todo.ts:223-249 | A settled list is left alone, so the promotion is idempotent. |
| Todo.PromotionPicks | core/tools/todo.ts:223-249 | The active item is exactly the earliest in progress, or else the earliest pending; blocked, done and dropped items are untouched. |
| Todo.StatusOpsKeepTasks | core/tools/todo.ts:79-158 | Status operations keep the list of tasks. |
| Todo.StartedIsActive | core/tools/todo.ts:79-88 | A start that finds its item leaves exactly that item active. |
| Todo.DoneExactly | core/tools/todo.ts:79-158 | A done item loses its status if and only if a start, block or drop names it or a drop names its phase. |
| TodoLaws.DoneAfter | core/tools/todo.ts:79-158 | Over every execution of a status operation an item is done afterwards if and only if it is finished now (it is the task named, or an item of the phase named that is not dropped), or was done and is not started, blocked by name or dropped. |
| TodoLaws.DroppedAfter | core/tools/todo.ts:79-137 | An item is dropped afterwards if and only if a drop is about it, or it was dropped and no start, finish or block names its task. |
| TodoLaws.BlockedAfter | core/tools/todo.ts:79-158 | An item is blocked afterwards if and only if it is blocked now (done and dropped items of a phase are spared), or was blocked and is not started, finished, dropped or unblocked. |
| TodoLaws.ReasonAfter | core/tools/todo.ts:118-158 | The reason of an item is the one given when it is blocked, is gone when it is unblocked, and stays otherwise. |
| TodoLaws.ActiveAfter | core/tools/todo.ts:79-249 | After any status operation the active item is the one started, else the earliest that was active and is still open, else the earliest open one. |
| TodoLaws.TaskRemoved | core/tools/todo.ts:180-191 | Removing a task takes exactly the items with that text out of every phase; the others stay in order. |
| TodoLaws.PhaseRemoved | core/tools/todo.ts:180-191 | Removing a phase takes out exactly the phases of that name; a removal that names nothing empties the list. |
| TodoLaws.ItemsAppended | core/tools/todo.ts:160-178 | Appending puts the new open items, in order, behind those of the first phase of that name, or into a new last phase, and changes no other phase. |
| TodoLaws.ListStarted | core/tools/todo.ts:55-77 | A fresh list has exactly the phases and items given, in order, all open. |
| TodoLaws.SummaryExactly | core/tools/todo.ts:251-264 | The counts of the result are the number of done items and the number of items. |
| Todo.CompletedReverts | core/tools/todo.ts:79-88 | Starting a done task makes it active again. |

## Left out

- AppendOnly.HashPayload: takes the text that is digested as given; which fields are serialised, and how, is not modelled.
- AppendOnly.AgreesExactly: agreement is in digests; equal texts follow only where the digest is injective on the messages seen.
- HashlineParser.RoundTrip: line numbers are exact integers; the source's numbers lose precision above 2^53.
- RunCollector.AggregateIsSummary: latencies and costs are exact, so rounding of floating-point sums is not modelled; the order of keys in a record, and the reserved key that sets an object's prototype, are not either.
- StreamRetry.StreamRequest: assumes that the consumer does not close the outer stream early.
- StreamRetry.ProducedIsOwn: a stream is looked at once its producer has closed it; the waiting queue of its consumers, and subclasses that override the result promise, are not modelled.
- AgentLoop.RunKeepsLaws: takes base contexts that are paired up to an unpaired tail; what a run makes of any other base is in `AgentLoopContinue`.
- Steering.SteerAttended: the watcher is that of the agent, whose queue peek is synchronous and never throws; the timer fallback for peer interrupts appears only as another trigger.
- Todo.TodoStateMachine.Execute: item ids are made of time and randomness and play no part, and the one-line summary text is left to its counts and active item.
- The stable prefix snapshot of the append-only context: a single cached value with a fingerprint.
- `seedApiKeyResolver`, `formatHashlines`, the commit and discard hooks of aside messages: single-step helpers.
- Message start and end events, telemetry spans, and what the host's turn-end callback does; that it can throw is modelled.
- Leak detection and recovery, in-band dialects, schema validation and argument preparation: outcomes chosen by the environment.
- Provider clients, transport, key lookup and option mapping.
- The wait between two attempts to take a slot, and the wake-up file: they affect timing only.
- Wall-clock time: staleness and passed deadlines are arbitrary answers.
- Session storage, file, git and terminal tools, the RPC dispatcher, and the user interface.
