# AICT backend and sandbox services: a verified model

This project models the parts of the AICT platform (an AI development team run by LLM agents in sandboxes) whose
correctness rests on state carried across several functions, and proves what they keep.

| files | what they model |
|---|---|
| `Messages`, `Repair`, `PromptSpec`, `History`, `HistorySafety`, `PromptAssembly` | the message list of an agent session: repair of dangling tool calls, reload from the database, result budget, expiry, compaction |
| `AgentSpec`, `AgentSafety`, `AgentResults`, `Agent` | the agent loop: dispatch of a reply, tool batches, END and thinking handling, whole runs |
| `AnthropicBuilder`, `AnthropicSafety`, `GoogleBuilder`, `ScriptBuilders`, `Validators`, `ValidatorIssues`, `CrossProvider`, `AnthropicCheck` | the provider message builders, and the script that checks a history for three wire formats |
| `RequestSafety` | the loop and the builder together: what every request of a run looks like |
| `ToolNames`, `ToolRequests` | the tool-name adapter and the renaming of requests and responses |
| `ClusterState`, `ClusterConvergence`, `ClusterRows`, `ClusterCount`, `ClusterNesting`, `ClusterSpec` | diffing a cluster manifest with the live agents, applying it, and what that does to another manifest |
| `Text`, `Splitting`, `Chunker`, `ChunkSafety` | the overlapping text chunker of the knowledge base |
| `BudgetSpec`, `BudgetSafety`, `Budget` | the resource budget of a sandbox host |
| `Pool`, `PoolInvariant`, `HealthMonitor` | units, ports, agent index and budget of a sandbox host, and its background passes |
| `PoolRequests`, `PoolAnswers`, `PoolAccounts`, `PoolRequestsSafety`, `PoolDiscipline`, `PoolOverlap`, `PoolManager` | the requests of a sandbox host, split at their awaits: what overlapping requests keep, and what they break |
| `Watchdog` | the restart limiter |
| `OrchestratorSpec`, `OrchestratorSafety`, `OrchestratorAnswers`, `OrchestratorMirror`, `Orchestrator` | the GKE orchestrator's cache and agent index, with handlers split at their awaits |
| `MessageRouter`, `WakeUp` | wake-up signals, and the protocol of senders, router, workers and restarts |
| `ShellStream`, `ShellDrain` | incremental parsing of a shell command's output, and the draining of its prompt |
| `Prelude` | small definitions that several components share |

Objects that the source updates in place are classes whose methods are proved against functions on values; the laws are
lemmas about those functions, and what an operation leaves is also told without them, field by field or message by
message (the modules `...Answers`, `...Results`, `...Rows` and the predicates `...Says`). Protocols with concurrent
parties are state machines over their steps, one step per stretch of code that runs without an await, and laws about
them quantify over all sequences of steps.

## Behaviour worth knowing

Where a law one would expect is false of the code, the model keeps the code as it is, shows how it fails and gives the
exact condition under which it holds:

- A `thinking_done` call outside the thinking stage, or a second one in a reply, gets no result (`DispatchAnswers`, `UndisciplinedRun`).
- `compact_messages(keep_recent=0)` keeps everything (`CompactionKeepsAtMost`).
- A history that is clean for Anthropic can fail for Gemini, which knows a call without an id by its name (`ProvidersAgree`, `GeminiFailsAlone`).
- The script builds one message per tool result, so its Anthropic check fails every turn with two calls (`PassesExact`, `TwoCallsFail`).
- With a tool-call id that is used again, compaction can leave a call without its result (`ReusedIdLost`); `EveryRequestComplete` has the hypothesis that avoids it.
- Normalizing a request drops `api_key`, and images on messages with calls (`RequestRoundTrip`).
- A suffixed tool name exceeds 128 characters once the suffix has more than 126 digits (`WithSuffixLegal`).
- Applying a manifest keeps duplicates of a display name (`ApplySettles`, `ExactReplicas`, `DuplicateStays`), and deletes the agents of a cluster whose name starts like its own (`OtherManifest`, `NestedPrefix`).
- `promote` does not check the disk and `demote` not the headless count (`RunWithinLimits`, `PromoteCanExceedDisk`, `DemoteCanExceedHeadless`).
- Pool manager requests hold no lock across their awaits. Two session starts for one agent, two conversions of one unit, a destruction or a session end during a conversion, two destructions of one unit and an eviction of a removed one each put index, ports or budget out of step (`OverlappingStarts`, `OverlappingConversions`, `DestroyedWhileConverted`, `EndedWhileConverted`, `DestroyedTwice`, `StaleEviction`); `RunExact` is the exact condition, `DisciplinedBalanced` what callers have to keep.
- A demotion that fails cannot be rolled back when its slot was taken meanwhile, or when the budget was over its limits, as it can be after a start (`SlotTaken`, `RollbacksExact`, `FailedDemotion`, `OverLimitStart`).
- A session start for an agent whose unit is unhealthy or converting hands out a second unit; evicting the first then drops the second from the index (`StepExact`, `StrandedLosesAgent`). The assign endpoint has the same gap (`AssignUnit`).
- A pool manager that starts with a running but unhealthy unit does not count it, yet releases its cost on eviction (`Start`, `UnhealthyStartUndercounts`).
- A release of a sandbox that is idle, or being released already, can leave an agent indexed for a sandbox without an agent (`RunIndexExact`, `ReleaseSafeExact`, `IdleReleaseBreaksIndex`, `OverlappingReleasesBreakIndex`). A released sandbox is not free after the cache is rebuilt, because release leaves an empty agent label (`ReleasedThenRebuilt`). An agent given a second sandbox loses its index entry when the first is destroyed (`RunMirrorExact`, `SecondSandboxOrphaned`).
- A wake-up consumed without a read, a rolled-back cycle and a re-registered worker can leave messages without a signal (`RunExact` of `WakeUp`, `SkipExact`, `RollbackExact`, `WakeupsLost`).
- An empty stream piece ends the collection of shell output, and the prompt drain misses a sentinel that arrives in pieces (`EmptyPieceEnds`, `SeenExact`, `DrainEndsExact`, `DrainDependsOnFragments`). Output can be flagged as truncated although it is complete (`SentinelRoundTrip`).

## Model

| member | source | states |
|---|---|---|
| AgentSafety.EveryPromptAnswered | backend/agents/agent.py:552-613 | In every run of any length, every prompt sent to the model has a result for every tool call with an id, through failed tools, END warnings, expiry, mid-loop messages and compaction inside a batch, if thinking_done comes at most once and only with thinking enabled |
| AgentSafety.DispatchAnswers | backend/agents/agent.py:785-841 | Exact condition for one response: a dispatch that goes on leaves every call answered if and only if a compaction ran in it or every thinking_done call of the response gets a result |
| AgentSafety.IterationAnswers | backend/agents/agent.py:552-613 | From an answered prompt the model is called with an answered prompt, and an iteration that goes on keeps that exactly when its reply meets the dispatch condition |
| AgentSafety.UndisciplinedRun | backend/agents/agent.py:785-841 | With thinking disabled, from every answered prompt and for every budget, a model that says thinking_done is called a second time with an unanswered tool call in its prompt |
| AgentSafety.BatchIds | backend/agents/agent.py:842-924 | A batch without compaction adds results for exactly its own calls and issues none |
| AgentSafety.BatchWithCompaction | backend/agents/agent.py:842-924 | A batch in which a compact_history succeeds ends with every call answered, the calls executed after it included |
| AgentSafety.StageAfter | backend/agents/agent.py:1090-1124 | The session is still in the thinking stage if and only if no reply so far said thinking_done |
| AgentSafety.IterationCharge | backend/agents/agent.py:552-613 | In one iteration the characters charged for tool results exceed the allowance by at most one notice per result |
| AgentModule.Agent.Run | backend/agents/agent.py:328-372 | The loop sends exactly the prompts of the iterations it runs, ends for the reason the last one gives or after 1000 iterations, and under the stage discipline each prompt it sent is answered |
| AgentModule.Agent.RunIteration | backend/agents/agent.py:552-613 | One iteration does what the iteration semantics says, reports the prompt the model was called with, and ends for the reason and with the messages that IterationSays states |
| AgentModule.Agent.DispatchToolCalls | backend/agents/agent.py:785-841 | Transition, END warnings and batch are carried out in the source's order, their results are appended as DispatchResults states, and the session ends exactly on END calls without other work |
| AgentModule.Agent.ExecuteToolBatch | backend/agents/agent.py:842-924 | Unless a compact_history succeeds, exactly one result per call is appended, in order and under its id: the refusal of a disabled or unknown tool, or the error or output of that very call, the output cut to 12000 characters, and of all this as much as the allowance lets in; update_memory re-arms its warning |
| AgentResults.BatchResults | backend/agents/agent.py:842-924 | The same for the batch semantics, for every batch, tool set and outcome |
| AgentResults.OneCompaction | backend/agents/agent.py:842-924 | A compact_history that returns appends its own result first and then compacts to keep_recent messages, 20 by default, and re-arms the history warning |
| AgentResults.BatchInTwo | backend/agents/agent.py:842-924 | A batch can be cut anywhere: its first calls run, and then the others with the outcomes that are left, so a batch with compactions is told piece by piece |
| AgentResults.DispatchResults | backend/agents/agent.py:785-841 | Unless a compaction succeeds, a dispatch appends the transition result, the END warnings and the results of the regular calls, in this order, and nothing else |
| AgentResults.SelectConcat | backend/agents/agent.py:785-841 | Sorting the calls of a reply into END, thinking_done and regular ones keeps their order and number |
| AgentResults.SentSays | backend/agents/agent.py:552-613 | The model is sent every message of the prompt and what is put behind it, unread messages, memory warning and history warning in this order, with old results cut to 200 characters and the notice |
| AgentResults.IterationSays | backend/agents/agent.py:552-613 | What an iteration leaves, for each way it can end: nothing changed, what was injected, what was sent, or that with the reply behind it and its calls dispatched |
| AgentModule.Agent.ExpirePreviousToolResults | backend/agents/agent.py:741-781 | Rewrites in place exactly the tool results before the last assistant message |
| AgentModule.Agent.HandleThinkingTransition | backend/agents/agent.py:1090-1124 | Leaves the session in the execution stage; no call is issued, and one result is appended: the fixed text and the summary, cut to the allowance, under the id of the thinking_done call or the fixed one when it has none |
| AgentModule.Agent.HandleEndSoloWarning | backend/agents/agent.py:1126-1143 | Appends one warning result per END call, in order, under a fixed id when the call has none |
| AgentModule.Agent.CheckAndInjectSummarization | backend/agents/agent.py:1023-1060 | Appends the memory warning under memory pressure and the history warning when the session fills 70% of its budget, each once until it is re-armed |
| PromptSpec.ExpiryKeepsIds | backend/agents/agent.py:741-781 | Expiry changes no id: the same calls are issued and the same results are there |
| PromptSpec.ExpiryShortensOldResults | backend/tools/base.py:31-45 | Expiry cuts exactly the results longer than 200 characters that have an assistant message behind them, to their first 200 characters and the notice, and leaves every other message as it is |
| PromptSpec.CompactionAnswers | backend/prompts/assembly.py:567-589 | Compaction answers every call it keeps, for every keep_recent and at any point of a batch |
| PromptSpec.CompactionKeepsAtMost | backend/prompts/assembly.py:567-589 | Compaction keeps at most keep_recent messages if and only if keep_recent is positive, or is zero with nothing to keep ([-0:] is the whole list); it always keeps a suffix |
| PromptSpec.CompactedKeeps | backend/prompts/assembly.py:567-589 | What compaction leaves, placeholders aside, is the end of the current session: its last keep_recent messages, all of it for zero, all but the first ones for a negative count; the session starts at the front |
| PromptSpec.ResultBudget | backend/prompts/assembly.py:619-627 | After any number of results real output is at most the allowance, and the characters charged exceed it by at most one notice per result |
| PromptSpec.PoolSplit | backend/prompts/assembly.py:226-260 | Memory, past-session and current-session budgets add up to the dynamic pool exactly |
| PromptSpec.ShareIs | backend/prompts/assembly.py:226-260 | Memory and past-session budgets are their own ratio of the pool, rounded down |
| PromptAssemblyModule.PromptAssembly.LoadHistory | backend/prompts/assembly.py:290-370 | Behind the old messages come the turns of the past rows with a separator for each session, each at its place, user and assistant texts whole, tool rows and calls gone, then the note; from the session start on one message per current row, in order, in its role with its text, restored calls and saved id, with one placeholder for each call without a result; and the incoming text last |
| HistorySafety.LoadedSays | backend/prompts/assembly.py:290-370 | The same for the loading semantics, for all rows |
| HistorySafety.PastKeepsTexts | backend/prompts/assembly.py:308-345 | Where each past row stands: behind as many messages as there are separators and turns before it, with its own text, and a remark with the names of its calls in place of them |
| HistorySafety.RestoredKeeps | backend/prompts/assembly.py:372-404 | The restored calls are the saved ones that have an id and a name still in use, in order, with the legacy name replaced |
| HistorySafety.JoinConcat | backend/prompts/assembly.py:330-342 | The names of the calls of a past turn are joined by commas |
| PromptAssemblyModule.PromptAssembly.AppendAssistant | backend/prompts/assembly.py:461-466 | The reply is appended with its calls; those that have no result yet become dangling, and the tool-result charge starts again at zero |
| PromptAssemblyModule.PromptAssembly.AppendToolResult | backend/prompts/assembly.py:468-496 | The result is appended whole if it fits a quarter of the session budget less what was charged, else its first characters and a notice, else the notice that it is omitted; the call it answers stops dangling and no other does |
| PromptAssemblyModule.PromptAssembly.CompactMessages | backend/prompts/assembly.py:567-589 | Keeps the last keep_recent messages of the session (all for zero, as Python slices), adds placeholders and nothing else, answers every call it keeps, and restarts the session at the front |
| History.BuildHistoryAssistant | backend/prompts/assembly.py:372-404 | Restores exactly the saved calls with an id and a name the agent still knows, renaming the legacy command tool |
| History.LoadAnswers | backend/prompts/assembly.py:290-370 | Whatever rows survive in the database, loading them into an answered prompt gives an answered prompt |
| Repair.RepairDanglingToolUse | backend/prompts/assembly.py:417-457 | The two-pass loop computes the patched list: one placeholder result behind the message of each dangling call |
| Repair.RepairAnswers | backend/prompts/assembly.py:417-457 | After repair every call with an id has a result |
| Repair.RepairLossless | backend/prompts/assembly.py:417-457 | Taking the results of the dangling ids out of the output gives the input back |
| Repair.RepairAddsOneEach | backend/prompts/assembly.py:417-457 | Repair adds exactly one placeholder for each dangling call, in the order of the calls, with its id and its name in the text |
| Repair.RepairIdempotent | backend/prompts/assembly.py:417-457 | Repairing twice is repairing once |
| Repair.RepairPlacement | backend/prompts/assembly.py:417-457 | Each dangling call is answered in the block of results directly behind its own message |
| AnthropicBuilder.BuildMessages | backend/services/llm_service.py:350-423 | The two-pass builder (emit all, then strip dangling calls in place) equals a reference that translates each message on its own keeping exactly the settled calls |
| AnthropicSafety.BuiltIds | backend/services/llm_service.py:399-415 | The tool_use ids that survive are exactly the answered ones, and so are the tool_result ids |
| AnthropicSafety.BuiltResultsFollowUses | backend/services/llm_service.py:381-397 | For every message list each tool_result follows a surviving tool_use of its id |
| AnthropicSafety.BuiltShape | backend/services/llm_service.py:350-423 | No message is empty, no text block is empty, and a non-empty request ends with a user message |
| AnthropicSafety.BuiltFillers | backend/services/llm_service.py:350-423 | The request has one message for each message of the history but the results of calls not announced before, and at most a final filler more; a filler stands only where nothing else does |
| AnthropicSafety.BuiltSaysHistory | backend/services/llm_service.py:350-423 | Fillers aside, the request says what the history says, in its order and by the same side: every text, exactly the settled calls, and exactly the results of calls that came before them |
| AnthropicSafety.RepairedKeepsEveryCall | backend/services/llm_service.py:399-415 | On a repaired history the builder strips nothing if and only if each announced call was dangling or has a result after it |
| RequestSafety.EveryRequestComplete | backend/agents/agent.py:552-613 | The loop and the builder together: under the stage discipline, from a prompt in which each call has its result behind it, every prompt of every run, compactions included, becomes a request from which no call is stripped and in which each tool_use has its tool_result in a later message |
| RequestSafety.DispatchCloses | backend/agents/agent.py:785-841 | A dispatch, compaction or not, leaves without a result behind it no call that it handles and none that had one |
| RequestSafety.RepairedCloses | backend/prompts/assembly.py:417-457 | In a repaired history each call has its result behind it if and only if every call that had none behind it had none anywhere |
| RequestSafety.ReusedIdLost | backend/prompts/assembly.py:567-589 | With an id used twice, a prompt whose announced calls are all settled is compacted into one whose call is not |
| GoogleBuilder.BuildContents | backend/services/llm_service.py:502-561 | The request says what the history says, one content for each message that says anything: user texts by the user, assistant texts and their named calls by the model, and each result whose call has been named before by the user, under the latest name; or one empty user turn when that is nothing |
| GoogleBuilder.GoogleResponsesFollowCalls | backend/services/llm_service.py:502-557 | For every message list each functionResponse follows a functionCall of its id and its name |
| Validators.ValidateInternal | scripts/validate_llm_messages.py:250-294 | After the per-message issues, one error per announced id without a result, in order of first announcement, at the last message that issued it |
| ValidatorIssues.InternalIssues | scripts/validate_llm_messages.py:250-294 | Exactly when an issue is reported: a call without id or name, a result without id or with an unannounced one, an announced id without a result, at the last message that issued it |
| ScriptBuilders.BuildAnthropicMessages | scripts/validate_llm_messages.py:135-168 | The script's builder, which strips nothing: its request says what the history says, in order and by the same side |
| ScriptBuilders.AnthropicSaysHistory | scripts/validate_llm_messages.py:135-168 | Texts, well-formed calls, and results whose id a named call before them has, in the order of the history |
| Validators.ValidateAnthropic | scripts/validate_llm_messages.py:297-372 | The issues of the Anthropic check in its order: first message, roles, pairing, orphans |
| ValidatorIssues.AnthropicIssuesAre | scripts/validate_llm_messages.py:297-372 | Exactly when an issue is reported: a first message not of the user, a role twice in a row, calls the next message does not answer, a result no assistant message has a call for |
| ScriptBuilders.BuildOpenAiMessages | scripts/validate_llm_messages.py:171-209 | Behind the system prompt, if there is one, one wire message per message, which says what that message says |
| ScriptBuilders.OpenAiSaysHistory | scripts/validate_llm_messages.py:171-209 | Each message says in its own turn its text, its well-formed calls in order, or its result under its id |
| Validators.ValidateOpenAi | scripts/validate_llm_messages.py:375-405 | After the orphan warnings, one error per tool_call id without a tool message, in order of first appearance, at its last turn |
| ValidatorIssues.OpenAiOrphansAre | scripts/validate_llm_messages.py:375-405 | The check warns of exactly the tool turns whose id no assistant turn issued |
| ScriptBuilders.BuildGeminiContents | scripts/validate_llm_messages.py:212-246 | The Gemini build says what the history says, in order and by the same side, in one content per message that says anything |
| ScriptBuilders.GeminiSaysHistory | scripts/validate_llm_messages.py:212-246 | Every text, every call with a name, and every result whose id a named call before it has, under the name of the last such call, and nothing else |
| Validators.ValidateGemini | scripts/validate_llm_messages.py:408-443 | After the orphan warnings, one error per call key (id, else name) without a response, in order of first appearance, at its last turn |
| ValidatorIssues.GeminiOrphansAre | scripts/validate_llm_messages.py:408-443 | The check warns of exactly the user responses whose key no model call has |
| CrossProvider.CleanSettles | scripts/validate_llm_messages.py:297-372 | The pairing rule of the Anthropic check alone (roles aside) means that every announced call is settled |
| CrossProvider.ProvidersAgree | scripts/validate_llm_messages.py:250-443 | Under the pairing rule the OpenAI build and the internal check have no unanswered call, and the Gemini build has none if and only if every call without an id bears a name that is the id of an answered call |
| CrossProvider.GeminiFailsAlone | scripts/validate_llm_messages.py:408-443 | A history of two messages that passes the whole Anthropic check and has an unanswered call for Gemini |
| AnthropicCheck.PassesExact | scripts/validate_llm_messages.py:135-168 | The Anthropic check passes on the build of a history if and only if, orphaned results aside, it does not begin with an assistant turn, assistant turns and others alternate, and the announced calls of each assistant turn share one id whose result comes next |
| AnthropicCheck.TwoCallsFail | scripts/validate_llm_messages.py:297-372 | A history with two differently named announced calls in one turn never passes, whatever answers them |
| CrossProvider.RepairedPasses | scripts/validate_llm_messages.py:250-294 | No repaired history makes the internal check report a call without a result |
| CrossProvider.Preflight | scripts/validate_llm_messages.py:447-480 | The verdicts of the three provider checks on one history are related as above |
| ToolNames.SanitizeClean | backend/llm/tool_name_adapter.py:13-23 | A sanitized name is non-empty, at most 128 characters of the alphabet, without double underscore or dash at an end; a name is unchanged if and only if it is one already |
| ToolNames.SanitizeIdempotent | backend/llm/tool_name_adapter.py:13-23 | Sanitizing twice is sanitizing once |
| ToolNames.SanitizeSays | backend/llm/tool_name_adapter.py:13-23 | A sanitized name is the stripped one with its runs replaced and collapsed, without the dashes at its ends, and cut to its first 128 characters |
| ToolNames.RunReplaced | backend/llm/tool_name_adapter.py:13-23 | A run of characters outside the alphabet becomes exactly one underscore and nothing around it changes |
| ToolNames.UnderscoresCollapsed | backend/llm/tool_name_adapter.py:13-23 | So does a run of underscores |
| ToolNames.WithSuffixKeeps | backend/llm/tool_name_adapter.py:26-30 | A name that leaves room for the suffix keeps all its characters in front of it |
| ToolNames.WithSuffixInjective | backend/llm/tool_name_adapter.py:26-30 | Different suffixes give different names, however the stem is cut |
| ToolNames.WithSuffixLegal | backend/llm/tool_name_adapter.py:26-30 | A suffixed name is in the alphabet, and fits 128 characters if and only if the suffix has at most 126 digits |
| ToolNames.ToolNameAdapter.FreeSuffix | backend/llm/tool_name_adapter.py:43-58 | The unbounded search ends with the first free suffix after at most one more try than there are names |
| ToolNames.ToolNameAdapter.ToCanonical | backend/llm/tool_name_adapter.py:38-58 | Keeps the two maps inverse; known names are stable, new ones get the sanitized name or the first free suffix of it |
| ToolNames.CanonicalInjective | backend/llm/tool_name_adapter.py:33-62 | Canonical names are equal exactly when the originals are |
| ToolRequests.NormalizeRequestToolNames | backend/llm/tool_name_adapter.py:65-119 | Without tools and calls the request is returned as it is; otherwise every tool and call name is replaced by its canonical name and nothing else changes but the fields the code does not copy |
| ToolRequests.DenormalizeToolCalls | backend/llm/tool_name_adapter.py:122-138 | Each call of the response gets its original name back, unknown names pass through |
| ToolRequests.RenamingRoundTrip | backend/llm/tool_name_adapter.py:60-138 | Denormalizing a normalized call gives it back, and names of different calls stay different exactly when they were |
| ToolRequests.RequestRoundTrip | backend/llm/tool_name_adapter.py:65-119 | Undoing the renaming gives the whole request back if and only if it carries no api_key and images only on messages without calls |
| ClusterSpec.Cluster.ComputeDiff | backend/cluster/spec.py:274-344 | One item per wanted name, in order: create, update when the model differs, or nothing; then one deletion for each row that an unwanted name stands for, each name once |
| ClusterSpec.Cluster.Apply | backend/cluster/spec.py:346-410 | The rows that stay keep their order; those with another model get it and the labels, everything else as before; the deleted ones are gone, and one new agent stands for each missing name; workers follow |
| ClusterRows.AppliedRows | backend/cluster/spec.py:346-410 | The same for the closed form, field by field: which row is removed, edited, kept or created, and with which memory entries |
| ClusterRows.DiffIs | backend/cluster/spec.py:274-344 | Which item each wanted name and each surplus row gets |
| ClusterSpec.DiffNames | backend/cluster/spec.py:346-410 | The agents the diff updates and deletes are exactly those the closed form updates and deletes |
| ClusterSpec.DiffCreates | backend/cluster/spec.py:346-370 | The names the diff creates are exactly the wanted names no agent carries |
| ClusterState.DiffDetectsChanges | backend/cluster/spec.py:274-344 | The diff has no change if and only if every replica is there with the right model and no other agent matches |
| ClusterState.ReplicaNamesDistinct | backend/cluster/spec.py:302-306 | Generated replica names are pairwise different for every count |
| ClusterConvergence.ApplySettles | backend/cluster/spec.py:346-410 | One apply converges if and only if no unwanted name is carried by two matching agents (the diff sees one agent per name) |
| ClusterConvergence.SettledIsStable | backend/cluster/spec.py:346-410 | On a converged cluster apply changes no agent |
| ClusterConvergence.EveryReplicaHeld | backend/cluster/spec.py:346-384 | After any apply every wanted name is held by an agent with the wanted model |
| ClusterConvergence.OutsidersUntouched | backend/cluster/spec.py:286-299 | Agents of another project, role or name prefix keep their fields and order |
| ClusterCount.CountAfterApply | backend/cluster/spec.py:346-410 | Matching agents after an apply: as many as before, less the different names, plus the replicas |
| ClusterCount.ExactReplicas | backend/cluster/spec.py:346-410 | Exactly the wanted number matches after one apply if and only if the matching names were all different |
| ClusterCount.DuplicateStays | backend/cluster/spec.py:289-299 | Of two agents with the same unwanted name the later one is deleted and the earlier one stays: not converged, one agent too many |
| ClusterCount.DuplicateExample | backend/cluster/spec.py:289-299 | A concrete cluster with a duplicate that is still there after an apply |
| ClusterNesting.OtherManifest | backend/cluster/spec.py:286-410 | A converged cluster with different names is still converged after another manifest was applied if and only if project or role differ, or each claims by its prefix only names of the other that it wants itself, for the same model |
| ClusterNesting.NestedPrefix | backend/cluster/spec.py:286-299 | Applying a manifest named web to a converged web2 never leaves it converged |
| Splitting.PiecesShape | backend/services/knowledge_service.py:256-267 | Every paragraph or sentence is stripped, non-empty, and holds no further place to cut |
| Splitting.SplitCutsUp | backend/services/knowledge_service.py:256-267 | Splitting cuts only at separators: the text is the pieces with one separator between each two |
| Splitting.PiecesKeep | backend/services/knowledge_service.py:256-267 | Splitting loses only whitespace |
| Chunker.Chunk | backend/services/knowledge_service.py:212-253 | The two-mode loop with its carried overlap renders exactly the packing of the text |
| ChunkSafety.GroupsKeepUnits | backend/services/knowledge_service.py:212-253 | The groups hold exactly the paragraphs, and the sentences of those too long, in order |
| ChunkSafety.GroupsShape | backend/services/knowledge_service.py:212-253 | Every group is within the limit or is a single piece |
| ChunkSafety.GroupsTight | backend/services/knowledge_service.py:243-249 | When every paragraph fits, a chunk ends only where the next paragraph would have made it too long |
| ChunkSafety.GroupsJoined | backend/services/knowledge_service.py:212-253 | The pieces of a chunk are joined by single lines if a sentence behind them, not the first of its paragraph, made it too long, and by blank lines otherwise |
| ChunkSafety.ChunkText | backend/services/knowledge_service.py:278-286 | A chunk is its overlap followed by its body: the final strip changes nothing; its counts are its length and a quarter of it, at least one |
| ChunkSafety.ChunkOverlap | backend/services/knowledge_service.py:270-275 | A chunk after the first starts with the last characters of the previous body, as many as configured less the whitespace they start with |
| ChunkSafety.ChunkBound | backend/services/knowledge_service.py:212-275 | Closed bound on chunk length, separators and overlap included |
| ChunkSafety.ChunksConserve | backend/services/knowledge_service.py:212-275 | Dropping the overlaps and all whitespace, the chunks are the text, in order |
| ChunkSafety.ChunksExist | backend/services/knowledge_service.py:212-253 | There is a chunk if and only if the text has a non-whitespace character |
| BudgetModule.CapacityBudget.Reserve | sandbox/pool_manager/capacity_budget.py:121-182 | The first limit exceeded, in the order count, total, CPU, RAM and disk, is reported with its figures and nothing changes; otherwise the unit is charged, and exact totals stay exact |
| BudgetModule.CapacityBudget.Release | sandbox/pool_manager/capacity_budget.py:184-195 | Giving back a unit that is there is undone by charging it again, keeps the totals exact, and keeps every limit that held |
| BudgetModule.CapacityBudget.CanPromote | sandbox/pool_manager/capacity_budget.py:199-211 | Holds if and only if promote would succeed now and the disk limit would hold afterwards |
| BudgetModule.CapacityBudget.Promote | sandbox/pool_manager/capacity_budget.py:213-231 | Checks count, CPU and RAM and swaps a headless unit for a desktop |
| BudgetModule.CapacityBudget.Demote | sandbox/pool_manager/capacity_budget.py:233-244 | A promotion undoes it; exact totals stay exact; from within the limits that promotion is never refused; the headless limit holds afterwards if and only if there was room |
| BudgetModule.CapacityBudget.TakeSnapshot | sandbox/pool_manager/capacity_budget.py:95-105 | can_add holds of the snapshot if and only if reserve would succeed now |
| BudgetModule.CapacityBudget.RebuildFromUnits | sandbox/pool_manager/capacity_budget.py:265-272 | The one state with exact totals for these counts, whatever it was before |
| BudgetSafety.RunAccurate | sandbox/pool_manager/capacity_budget.py:121-272 | Over every run with matched units the totals are counts times costs, so the state equals the rebuilt one |
| BudgetSafety.ReleaseUndoesReserve | sandbox/pool_manager/capacity_budget.py:121-195 | Releasing undoes reserving: the clamps never bite |
| BudgetSafety.ReserveExact | sandbox/pool_manager/capacity_budget.py:121-182 | reserve succeeds if and only if the budget with one more unit is within every limit |
| BudgetSafety.PromoteExact | sandbox/pool_manager/capacity_budget.py:199-231 | promote succeeds if and only if the swapped budget is within the limits it checks; can_promote adds the disk |
| BudgetSafety.RunWithinLimits | sandbox/pool_manager/capacity_budget.py:121-244 | Over every matched run total, desktop, CPU and RAM limits hold; the disk limit always holds if and only if can_promote held before each successful promotion; the headless limit if and only if no demotion was at it |
| BudgetSafety.PromoteCanExceedDisk | sandbox/pool_manager/capacity_budget.py:213-231 | With disk for a headless unit but not for a desktop, reserve then promote exceeds the disk limit |
| BudgetSafety.DemoteCanExceedHeadless | sandbox/pool_manager/capacity_budget.py:233-244 | With room for one headless unit and one desktop, reserving both and demoting the desktop passes the headless limit |
| Pool.PortAllocator.Allocate | sandbox/pool_manager/port_allocator.py:22-34 | The lowest free port of the kind's range, or none exactly when the range is full |
| Pool.PoolState.GetByAgent | sandbox/pool_manager/models.py:187-189 | In step, the answer is the unit that records the agent |
| Pool.PoolState.Assign | sandbox/pool_manager/models.py:191-197 | From a right index, the index is right afterwards if and only if the agent has a name and no other unit, and the unit no other agent |
| Pool.PoolState.Detach | sandbox/pool_manager/models.py:199-219 | release and mark_resetting: the unit loses its agent in both places |
| Pool.PoolState.ActiveUnits | sandbox/pool_manager/models.py:236-248 | Counts the units of a kind that are not unhealthy |
| PoolInvariant.EvictedInStep | sandbox/pool_manager/health_monitor.py:264-280 | Evicting keeps units, index, ports and budget in step |
| PoolInvariant.AssignInStep | sandbox/pool_manager/models.py:191-197 | Assigning keeps the index in step if and only if the agent has a name and no other unit and the unit no other agent |
| HealthMonitorModule.HealthMonitor.Evict | sandbox/pool_manager/health_monitor.py:264-280 | Whether the backend raises or not, unit, index entry, port and cost are released together |
| HealthMonitorModule.HealthMonitor.SweepIdle | sandbox/pool_manager/health_monitor.py:126-140 | A sweep removes exactly the temporary units, idle or assigned, that no command or use has touched for longer than the threshold, in any order, changes no other, and all stays in step |
| HealthMonitorModule.HealthMonitor.CheckAllHealth | sandbox/pool_manager/health_monitor.py:67-112 | Unit by unit: left alone while resetting, converting or booting; gone if unhealthy; without its agent and resetting if temporary and unused for too long; with no failures if it answers; with one more below the threshold; evicted, idle, assigned or unhealthy by its restart at the threshold. All stays in step |
| HealthMonitorModule.FailuresCounted | sandbox/pool_manager/health_monitor.py:94-112 | Over any number of passes that ping a unit its failures are the pings unanswered since the last answer, and nothing else about it changes before they reach the threshold |
| HealthMonitorModule.RestartedAtThreshold | sandbox/pool_manager/health_monitor.py:94-112 | It is restarted by the pass at which as many pings in a row as the threshold are unanswered, and by no earlier one |
| HealthMonitorModule.HealthMonitor.Restart | sandbox/pool_manager/health_monitor.py:161-214 | Evicted if the backend raises or there is no VM host, unhealthy if not ready, else assigned or idle by its agent; no other unit changes |
| HealthMonitorModule.HealthMonitor.ResetUnit | sandbox/pool_manager/health_monitor.py:218-245 | A scheduled reset leaves an idle unit without agent and failures, or, for a container that is not ready, none |
| PoolRequestsSafety.StepExact | sandbox/pool_manager/main.py:207-835 | From balance (index, ports and budget agree with the units there are and those on their way) every stretch of a request between two awaits stays in balance if and only if it finds what its guard says |
| PoolAnswers.NextSays | sandbox/pool_manager/main.py:207-835 | What each stretch of each request changes, field by field, in records, index, ports, budget and waiting work, and that nothing else does |
| PoolRequestsSafety.RunExact | sandbox/pool_manager/main.py:207-835 | However requests overlap and end, everything is in balance at every moment of a run if and only if every stretch finds what its guard says |
| PoolAccounts.StepTraced | sandbox/pool_manager/main.py:207-835 | What waits always refers to records that exist or existed: new ids stay new, and a conversion never waits for a unit of its own kind |
| PoolRequestsSafety.QuietInStep | sandbox/pool_manager/main.py:207-835 | With nothing in flight, being in balance is being in step |
| PoolDiscipline.DisciplinedBalanced | sandbox/pool_manager/main.py:385-769 | If callers start no session for an agent whose unit is on its way or not given back, make no second request for a unit that a request waits for, and leave free the slots that waiting demotions gave up, every run is in balance throughout, whatever the backend does |
| PoolOverlap.OverlappingStarts | sandbox/pool_manager/main.py:399-447 | Two session starts for one agent without a unit, both within every check: when both units are there, two record the agent and the index holds one |
| PoolOverlap.EndedWhileConverted | sandbox/pool_manager/main.py:482-630 | An agent whose session ends while its unit is promoted and that is given an idle one ends up with two units |
| PoolOverlap.OverlappingConversions | sandbox/pool_manager/main.py:543-720 | A second conversion of a unit begins while the first waits, and they cannot both end in balance once one succeeds |
| PoolOverlap.DestroyedWhileConverted | sandbox/pool_manager/main.py:297-318 | A unit destroyed while it is converted: the conversion, well or not, leaves the records out of balance |
| PoolOverlap.DestroyedTwice | sandbox/pool_manager/main.py:297-318 | Two overlapping destructions of a unit take it off the budget twice |
| PoolOverlap.StaleEviction | sandbox/pool_manager/health_monitor.py:226-245 | A failed reset that evicts a record removed meanwhile takes its cost off the budget once more |
| PoolOverlap.SlotTaken | sandbox/pool_manager/main.py:641-683 | A desktop session that takes the slot of a waiting demotion, within every limit, makes the rollback of that demotion fail: the unit stays demoting and the budget demoted |
| PoolOverlap.RollbacksExact | sandbox/pool_manager/main.py:672-683 | Demotions that wait can all fail in balance if and only if, with all of them taken back, the budget is within the limits that promote checks |
| PoolOverlap.FailedDemotion | sandbox/pool_manager/main.py:641-683 | A demotion that fails with nothing else in flight restores everything but the status if and only if the budget was within the limits that promote checks; otherwise the unit stays demoting and the budget demoted |
| PoolOverlap.OverLimitStart | sandbox/pool_manager/main.py:135-141 | A start that counts more desktops than allowed is such a budget |
| PoolOverlap.FailedCreation | sandbox/pool_manager/main.py:207-280 | A creation that fails with nothing else in flight leaves no trace |
| PoolOverlap.FailedPromotion | sandbox/pool_manager/main.py:543-587 | A promotion that fails with nothing else in flight restores everything but the status, always |
| PoolOverlap.ConvertedAlone | sandbox/pool_manager/main.py:543-720 | A conversion that succeeds with nothing else in flight replaces the unit, hands the new one to its agent, moves the port and swaps the budget; no other unit changes |
| PoolOverlap.DestroyedAlone | sandbox/pool_manager/main.py:297-318 | A destruction with nothing else in flight is an eviction |
| PoolOverlap.QuietCalm | sandbox/pool_manager/main.py:85-143 | A host in step and within the limits that promote checks, with nothing in flight, is a state from which every disciplined run stays in balance |
| PoolManagerModule.PoolManager.StartSession | sandbox/pool_manager/main.py:385-443 | Up to the await: serves the agent's unit, else an idle one of the kind, else begins to create one, persistent if asked or a desktop, exactly when machine, budget and ports allow; each refusal under its own condition; balance is kept exactly under the guard |
| PoolManagerModule.PoolManager.FinishCreate | sandbox/pool_manager/main.py:219-280 | After the await: the unit is there with its port and its agent indexed, or nothing of it is left; balance is kept exactly under the guard |
| PoolManagerModule.PoolManager.BeginPromote | sandbox/pool_manager/main.py:543-575 | Each refusal under its own condition, changing nothing; without a port everything but the status is restored; otherwise port, cost and agent wait |
| PoolManagerModule.PoolManager.FinishPromote | sandbox/pool_manager/main.py:576-630 | The desktop replaces the unit and has its agent, or the swap is undone, or (when copying files raises) the request is lost with port and slot taken |
| PoolManagerModule.PoolManager.BeginDemote | sandbox/pool_manager/main.py:641-669 | The same for demotion, whose undoing the budget may refuse: then the unit is left demoting and the budget demoted |
| PoolManagerModule.PoolManager.FinishDemote | sandbox/pool_manager/main.py:670-720 | The headless unit replaces the desktop and has its agent, or the swap is undone, or exactly when the budget refuses the promotion it is not |
| PoolManagerModule.PoolManager.EndSession | sandbox/pool_manager/main.py:482-501 | A persistent unit is idle without its agent, a temporary container resetting without it, a temporary desktop stays until its destruction, which waits, is over; no other unit changes |
| PoolManagerModule.PoolManager.BeginDestroy | sandbox/pool_manager/main.py:729-738 | A unit that is there begins to be destroyed and nothing else changes yet; for an unknown id nothing happens |
| PoolManagerModule.PoolManager.FinishDestroy | sandbox/pool_manager/main.py:297-318 | The unit is gone and the index stays right, also when another destruction already took it out |
| PoolManagerModule.PoolManager.FinishReset | sandbox/pool_manager/main.py:504-533 | A reset that is over detaches the unit again or marks it unhealthy, if it is still there |
| PoolManagerModule.StrandedLosesAgent | sandbox/pool_manager/models.py:174-178 | After an agent whose unit is neither assigned nor idle was handed a second one, evicting the first takes the second out of the index |
| PoolManagerModule.PoolManager.AssignUnit | sandbox/pool_manager/main.py:757-769 | The endpoint checks only the status; from balance it stays in balance if and only if the agent has a name and no other unit, and the unit no other agent |
| PoolManagerModule.Start | sandbox/pool_manager/main.py:85-143 | After reconciling saved records all is in step if and only if no surviving unit is unhealthy |
| PoolManagerModule.UnhealthyStartUndercounts | sandbox/pool_manager/main.py:135-141 | After a start with an unhealthy unit, its eviction leaves the budget below the units that run |
| WatchdogModule.Watchdog.RestartPoolManager | sandbox/pool_manager/watchdog.py:172-204 | Records the attempt, prunes the window in a loop, and restarts while the window has room, else latches; the window bound is kept |
| WatchdogModule.Watchdog.TickOnce | sandbox/pool_manager/watchdog.py:278-311 | An exit counts as many failures as the threshold, an answer none; below the threshold or with the alert latched only count and status change, else it restarts or latches; the window bound is kept |
| WatchdogModule.Watchdog.PostRestart | sandbox/pool_manager/watchdog.py:221-226 | The alert is off afterwards if and only if a restart was counted; the window bound is kept |
| WatchdogModule.Watchdog.PostClearAlert | sandbox/pool_manager/watchdog.py:227-232 | The window bound holds at every later time, and the next attempt is let through whenever one restart is allowed |
| WatchdogModule.RestartsRateLimited | sandbox/pool_manager/watchdog.py:172-204 | For any clock that does not run backwards and any mix of attempts, no window holds more than the allowed restarts since the last clearing |
| WatchdogModule.AlertLatches | sandbox/pool_manager/watchdog.py:300-309 | While the alert is latched the main loop performs no restart, however long it runs |
| WatchdogModule.TickRestarts | sandbox/pool_manager/watchdog.py:278-309 | Without an alert a turn restarts if and only if the process exited, or failed to answer often enough in a row, and the window has room; it latches without room |
| WatchdogModule.WindowOf | sandbox/pool_manager/watchdog.py:172-204 | What counts against the limit is exactly the attempts of the last window |
| OrchestratorModule.Orchestrator.SessionStartHandler | sandbox/k8s_orchestrator/main.py:329-470 | The agent gets its own sandbox if that may still serve, else an idle one of the image, else a new one with its pod, persistent as asked, else none exactly at the limit or when creation fails; entry, index and label agree, nothing else changes, and a right index stays right |
| OrchestratorModule.Orchestrator.SessionEndHandler | sandbox/k8s_orchestrator/main.py:481-502 | A persistent sandbox stays as it is, idle and without agent and label; any other is gone with its pod; no other sandbox or pod changes, and a right index stays right |
| OrchestratorModule.Orchestrator.ClaimSandbox | sandbox/k8s_orchestrator/main.py:508-530 | Succeeds exactly on an idle sandbox without agent, which is then held in entry, index and label; nothing else changes, and a right index stays right for an agent with a name |
| OrchestratorModule.Orchestrator.ReleaseSandboxBegin | sandbox/k8s_orchestrator/main.py:549-565 | Up to the await: a persistent sandbox is free at once, an ephemeral one keeps its entry and pod and waits; the agent is out of the index, nobody is indexed for the sandbox, nothing else changes |
| OrchestratorModule.Orchestrator.ReleaseSandboxResume | sandbox/k8s_orchestrator/main.py:565-573 | After the await: the sandbox is free, with image and persistence kept, if the held entry is still the cached one; its pod loses the label anyway; a right index stays right if and only if the entry is stale or nobody is indexed for the sandbox |
| OrchestratorModule.Orchestrator.CreateSandbox | sandbox/k8s_orchestrator/main.py:224-312 | A pooled sandbox is created, with its pod and without agent, exactly below the limit |
| OrchestratorModule.Orchestrator.DestroySandbox | sandbox/k8s_orchestrator/main.py:579-595 | The sandbox and its pod are gone, its agent is out of the index, no other changes, and a right index stays right |
| OrchestratorModule.Orchestrator.RebuildCache | sandbox/k8s_orchestrator/main.py:56-87 | Every entry comes from the labels of its pod and its status, the last pod listed for an agent is indexed, and the index is right whatever it was |
| OrchestratorAnswers.ReleaseFrees | sandbox/k8s_orchestrator/main.py:549-573 | A release that nothing overtakes leaves the sandbox free, the same in everything else, and nobody indexed for it |
| OrchestratorAnswers.LastIndexed | sandbox/k8s_orchestrator/main.py:56-87 | A rebuild indexes an agent for the pod listed last with its label, and for no other |
| OrchestratorAnswers.PersistenceAnswers | sandbox/k8s_orchestrator/main.py:734-756 | Making a sandbox persistent or not reaches its entry and its pod, and nothing else |
| OrchestratorSafety.RunIndexed | sandbox/k8s_orchestrator/main.py:56-629 | If every release that waits is of a sandbox that has an agent and that no other release waits for, the index is right at every moment of every interleaving |
| OrchestratorSafety.StepIndexExact | sandbox/k8s_orchestrator/main.py:56-629 | From a right index every possible step leaves a right index if and only if it is not a resuming release with a live entry that meets somebody indexed for its sandbox |
| OrchestratorSafety.RunIndexExact | sandbox/k8s_orchestrator/main.py:56-629 | Over every interleaving the index is right at every moment if and only if every resuming release meets nobody |
| OrchestratorSafety.ReleaseSafeExact | sandbox/k8s_orchestrator/main.py:549-573 | A release that waits meets nobody in every continuation without another release of its sandbox if and only if, when it was called, the sandbox had an agent and no release of it was waiting |
| OrchestratorMirror.StepMirrorExact | sandbox/k8s_orchestrator/main.py:56-629 | Where in addition every agent that holds a sandbox is indexed for it, a step keeps that both ways if and only if it meets nobody, gives a sandbox only to an agent that holds no other, removes an entry by name only for an agent that holds no other, and rebuilds only from labels that differ |
| OrchestratorMirror.RunMirrorExact | sandbox/k8s_orchestrator/main.py:56-629 | Over every interleaving index and cache mirror each other at every moment if and only if every step finds that |
| OrchestratorMirror.SecondSandboxOrphaned | sandbox/k8s_orchestrator/main.py:329-470 | A run of four steps from nothing after which an agent holds a sandbox that it is not indexed for, while the index shows nothing wrong |
| OrchestratorSafety.ResumeExact | sandbox/k8s_orchestrator/main.py:565-573 | A resuming release keeps the index if and only if the entry it holds is stale or nobody is indexed for its sandbox at that moment |
| OrchestratorSafety.IdleReleaseBreaksIndex | sandbox/k8s_orchestrator/main.py:549-573 | Releasing an idle sandbox while it is claimed breaks the index, from any state |
| OrchestratorSafety.OverlappingReleasesBreakIndex | sandbox/k8s_orchestrator/main.py:549-573 | So do two overlapping releases with a claim between their ends |
| OrchestratorSafety.OneAgentEach | sandbox/k8s_orchestrator/main.py:52-53 | Two agents are never indexed for one sandbox |
| OrchestratorSafety.NeverReassigned | sandbox/k8s_orchestrator/main.py:329-573 | No step of any handler turns one agent's sandbox straight into another's; nor does a rebuild while labels and cache agree |
| OrchestratorSafety.RebuildKeepsHolder | sandbox/k8s_orchestrator/main.py:56-87 | Where labels and cache agree, a rebuild leaves every held sandbox with its holder |
| OrchestratorSafety.LabelsAgreeExact | sandbox/k8s_orchestrator/main.py:56-629 | Every step keeps labels and cache in agreement if and only if it is not a release that resumes with a stale entry on a sandbox that is held again |
| OrchestratorSafety.CapacityKept | sandbox/k8s_orchestrator/main.py:224-470 | No handler takes the cache beyond the limit |
| OrchestratorSafety.ReleasedThenRebuilt | sandbox/k8s_orchestrator/main.py:570-573 | A released sandbox is free before a rebuild and not free after it: release leaves an empty label |
| MessageRouterModule.MessageRouter.Notify | backend/workers/message_router.py:84-114 | A registered agent gets one more signal and a clean record; otherwise one more failure is counted, and escalated from the third on; no other agent changes |
| MessageRouterModule.MessageRouter.Replay | backend/workers/message_router.py:147-154 | Each agent has one signal more for each time it is named, or one failure more without a queue; the others are unchanged |
| MessageRouterModule.MessageRouter.Register | backend/workers/message_router.py:46-50 | A registered queue starts empty |
| MessageRouterModule.MessageRouter.RegisterClusterMember | backend/workers/message_router.py:61-71 | The agent is a member of the cluster once, behind those that were; no other agent joins and no other cluster changes |
| MessageRouterModule.MessageRouter.Unregister | backend/workers/message_router.py:52-59 | Queue, record and every cluster membership are gone, other members stay in their order |
| MessageRouterModule.MessageRouter.RouteToCluster | backend/workers/message_router.py:116-141 | The registered member with the fewest waiting signals, the earliest among equals; none exactly without one |
| WakeUp.RunKeepsInv | backend/workers/agent_worker.py:113-230 | In every interleaving of sends, notifications, wakes, bounded reads, restarts and replays in which the agent's wakes read, its cycles commit and its worker stays, its unread messages never exceed what will make it look |
| WakeUp.RunExact | backend/workers/agent_worker.py:113-230 | In every interleaving, hazards included, the agent's unread messages are accounted for at every moment if and only if every skipped wake-up, rolled-back cycle and replaced worker of the run had promises to spare |
| WakeUp.StepExact | backend/workers/agent_worker.py:113-230 | Every possible step keeps the agent accounted for if and only if it is no hazard or there were promises to spare |
| WakeUp.MessagesConserved | backend/workers/agent_worker.py:113-230 | Along every run, hazards and restarts included, every message sent is unread, held by a running cycle, or was read by a cycle that committed: none is lost and none is read twice |
| WakeUp.StepConserves | backend/agents/agent.py:412-423 | The same for one step; a read takes all unread messages or the first hundred |
| WakeUp.WakeupsLost | backend/workers/agent_worker.py:131-212 | Three runs from nothing in which a skip, a rollback and a second registration each leave a sleeping agent with an unread message and nothing that would wake it |
| WakeUp.NoLostWakeup | backend/api_internal/messaging.py:50-63 | A sleeping agent with an unread message and no notification pending has a signal waiting |
| WakeUp.QuiescentMeansRead | backend/agents/agent.py:412-423 | Consuming the waiting signals empties the mailbox, although each read is bounded |
| WakeUp.RestartCovers | backend/workers/worker_manager.py:109-149 | A restart accounts for every agent registered before the undelivered messages are looked up, whatever happened before |
| WakeUp.SkipExact | backend/workers/agent_worker.py:131-150 | A wake-up used without reading is harmless if and only if a promise was to spare |
| WakeUp.RollbackExact | backend/workers/agent_worker.py:206-212 | A rolled-back cycle is harmless if and only if enough promises remain for the messages it gives back |
| ShellStream.CollectShellOutput | backend/services/sandbox_client.py:198-257 | The incremental loop returns what parsing everything received at once returns |
| ShellStream.FragmentationIndependent | backend/services/sandbox_client.py:198-257 | Two ways of cutting the same bytes into non-empty pieces give the same result |
| ShellStream.CompleteSettles | backend/services/sandbox_client.py:216-246 | Once the sentinel line is complete nothing received later changes the result |
| ShellStream.SentinelRoundTrip | backend/services/sandbox_client.py:170-246 | Decoding what the wrapped command writes gives the output (cut to the cap) and the exit text back; the truncation flag counts the sentinel line too |
| ShellStream.OutputCapped | backend/services/sandbox_client.py:248-257 | The output is never longer than the cap; an exit text is there exactly when a complete sentinel line is, and without one the output is the end of the stream, flagged if it was cut |
| ShellStream.EmptyPieceEnds | backend/services/sandbox_client.py:214-216 | An empty piece ends the collection, and loses the exit text if and only if the sentinel line was not complete |
| ShellDrain.DrainShellPrompt | backend/services/sandbox_client.py:186-196 | The loop ends well if and only if two sentinels are seen inside the pieces that arrive before the deadline, and with the first piece at which that is so |
| ShellDrain.SeenExact | backend/services/sandbox_client.py:186-196 | Where sentinels do not overlap, what is seen piece by piece is what the whole stream holds if and only if no sentinel straddles a boundary between pieces |
| ShellDrain.DrainExact | backend/services/sandbox_client.py:186-196 | The drain ends in time if and only if the whole stream holds two sentinels more than are cut by boundaries |
| ShellDrain.DrainEndsExact | backend/services/sandbox_client.py:166-196 | Of the two lines the drain command prints, with any prompt around them that holds no byte like the first of the sentinel, the drain ends well if and only if no boundary between pieces cuts a sentinel |
| ShellDrain.PromptedApart | backend/services/sandbox_client.py:166-196 | In what arrives the sentinels, which begin and end alike, do not overlap, and there are two |
| ShellDrain.DrainDependsOnFragments | backend/services/sandbox_client.py:186-196 | For every cut inside the sentinel: the two lines the drain command prints hold two sentinels, received at once both are seen, cut like this none is |

## Left out

- AgentModule.Agent.HandleThinkingTransition: an absent id of a thinking_done call and an empty one are not told apart; the fixed id stands for both, and may be the empty one.
- ScriptBuilders.BuildAnthropicMessages: `input or {}` and other JSON values are one opaque payload.
- PoolManagerModule.Start: assumes records that were in step when saved; a damaged state file is not modelled.
- OrchestratorSafety.StepIndexExact: an agent is taken to claim under a non-empty name.
- ClusterNesting.OtherManifest: assumes that the matching agents of the settled cluster have different names.
- ShellDrain.SeenExact: assumes that no two sentinels of the stream overlap, which `PromptedApart` shows of the stream the drain command causes. Decoding with replacement characters is not modelled.
- ShellDrain.DrainEndsExact: takes a prompt that holds no byte like the first of the sentinel, and no echo of the command; `DrainExact` covers any other stream without overlaps.
- HealthMonitorModule.HealthMonitor.Evict: the background passes are taken one at a time with no request in flight; their evictions, detachments and status changes that overlap requests are the events DestroyBegin, DestroyEnd, Detach and Store of `PoolRequests`.
- ShellStream.CollectShellOutput: the exit code is the text of the sentinel line after the first colon; parsing it as an integer, UTF-8 decoding and the passing of time are not modelled.
- ClusterSpec.Cluster.Apply: the reason texts of diff items, and the validation of manifests, are not modelled; the database is taken to list agents in a stable order and to hand out unused ids.
- Unit records are values in a map: the source shares one mutable object between pool, monitor and the requests that wait. `PoolRequests` keeps removed records, so that writing back a stale one is captured there; aliasing within one background pass is not.
- Agent workers and the worker manager are steps of the wake-up state machine, not classes; bookkeeping of running workers, respawning and the reconciler are not modelled.
- The watchdog's HTTP thread and main loop are taken to run one event at a time.
- Fixed texts (warnings, notices, refusals, summarization prompts) are parameters, and so are the outcomes of gates, model calls and tools; reloading of the configuration during a session is not modelled.
- The capping of incoming messages and the building of their text happen outside the loop model, which takes the capped text.
- A non-integer keep_recent, image parts and screenshots of messages, and provider tool declarations are not modelled.
- Page numbers in chunk metadata, parsing of PDF and CSV files, and embeddings are not modelled.
- Signal queues are unbounded, as the workers create them, so the queue-full branch of notify is not modelled.
- The release and restart endpoints of the pool manager are sequences of the events Detach, Store and Assign of `PoolRequests`, not methods; a record's other fields (container id, persistence, command times) are not followed there.
- The pool manager's choice of the first idle unit is any idle unit of the kind, and a new id is any unused one.
- Dead-letter records, snapshots, proxies and VNC are not modelled.
- Floating-point rounding is not modelled: amounts are real numbers and the tolerance of 0.001 is a constant.
- HTTP, WebSocket, Docker, QEMU, Kubernetes and database calls are outcomes that a step takes as input.
