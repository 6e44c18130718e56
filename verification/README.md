# Verified model of the agent loop and the migration scripts

This project models, in Dafny, the parts of the repository that keep real state or do
real search, and proves what they promise for every input, every run and every
scheduler.

* **The agent loop and its owner.** `AgentLoops` states one run of `runLoop` as a
  function of everything the outside world supplies: the provider's stream, the answers
  to every tool call, the scheduler of a parallel batch, the two hooks after a turn, and
  what callers do to the queues before each poll. `ToolCalls`, `ToolBatches` and
  `ToolExecutors` do the same for one call and one batch. What a run shows is a log of
  observations: the emitted events, and, tagged with the number of the started call, the
  validated arguments, the classifier's answer, the hook's answer with the arguments it
  leaves, each prompt with its reply, and each execution. `Agents`, `AgentStates` and `Queues` hold the classes;
  their methods have the loops of the source and are proved to do exactly what those
  functions say. What the functions mean is stated without them: `CallOutcomes` says of one
  call when its tool runs, what the user is asked and what the model is told, `BatchOrder`
  in which order the calls of a batch proceed, `TurnResults` what a turn answers to the
  blocks of its reply, `RunPolls` what the queues hand out, `RunMessages` and `RunViews`
  what listeners and the agent's state see. `ApprovalGate`, `RunLogs`, `RunShape`,
  `RunTranscripts`, `RunQueues`, `RunTools`, `PendingCalls` and `RunPending` prove the
  properties of whole runs.
* **Strongly connected components** (`Graphs`, `Tarjan*`, `MigrationOrder`). The
  explicit-stack algorithm is a deterministic machine; its invariant is proved step by
  step, the nested loops are proved to carry the machine out, and the meaning of the
  result is proved of its final state. `TarjanOrder` says in which order batches come, by
  a recursive depth-first search and reachability.
* **Kahn ordering** (`KahnOrder`, `Kahn`). The order is characterised without the
  algorithm: the lexicographically least one, and exactly which nodes are left over.
* **Canonical JSON** (`CanonicalJson`, `JsonParser`, `JsonEquality`, `JsonForm`). A reader
  that undoes the printer shows that a text decides a value up to key order. Strings are
  the shortest spelling section 7 of RFC 8259 allows, and keys ascend by UTF-16 code units
  as in section 3.2.3 of RFC 8785.
* **Stream reconstruction** (`ProxyMessages`, `ProxyStreams`, `ProxyOutcomes`) and **transcript
  packing** (`SessionTranscripts`).

`Ordering` and `AgentTypes` hold what the others share.

Where the code falls short of a plain statement, the exact condition is proved:

* Canonical texts of values with `undefined` or `NaN` collide with `null`
  (`UndefinedCollidesWithNull`); `TextsEqualIffBlankedSame` says exactly which values
  share a text.
* A `beforeToolCall` hook may patch the arguments in place, and the classifier's prompt
  is computed before the hook. An approval the classifier demanded therefore need not be
  of the arguments that run (`PatchOutrunsApproval`, `HelloApprovedNumberRuns`);
  `ApprovedAsRunIff`, `ApprovedArgumentsIff` and, for whole runs, `RunApprovedAsRunIff`
  give the exact condition.
* A stream that starts a second message leaves the loop's context and the agent's
  transcript apart for the rest of the run; `TranscriptsAgreeIff` gives both directions.
* A tool-call delta after the call's end brings `partialJson` back, and not as the
  concatenation of the deltas (`LateDeltaReopens`); `JsonGoneIff` and `BlocksAreRebuilt`
  say exactly what is kept.

`dafny verify dfyconfig.toml` checks the whole project.

## Model

| member | source | states |
|---|---|---|
| TarjanRun.StepInv | migration-kit/scripts/depmap_python.py:126-158 | every step of the loops (start a root, examine a slot, emit and pop) keeps the whole invariant, for any preorder that contains the edges |
| TarjanRun.Run | migration-kit/scripts/depmap_python.py:122-158 | from any invariant state the algorithm comes to rest, with no frame and no root left |
| TarjanRun.RunCorrect | migration-kit/scripts/depmap_python.py:110-159 | the batches partition the nodes into the classes of mutual reachability, in reverse topological order; each node is opened once and each adjacency slot examined once |
| TarjanClose.CloseInv | migration-kit/scripts/depmap_python.py:145-158 | closing a frame keeps the invariant: the stack above a root is one complete component, and otherwise the link handed to the parent loses nothing |
| TarjanClose.RootReached | migration-kit/scripts/depmap_python.py:145-154 | everything stacked above a root reaches the root, by descent on the low-links |
| TarjanClose.RootClosed | migration-kit/scripts/depmap_python.py:145-154 | no edge leaves the part of the stack above a root except into batches already emitted |
| TarjanInvariant.LookInv | migration-kit/scripts/depmap_python.py:132-144 | examining one adjacency slot keeps the invariant whether the successor is new, on the stack, or finished |
| Tarjan.PopComponent | migration-kit/scripts/depmap_python.py:146-153 | popping down to the root splits the stack there and collects the upper part in popping order |
| Tarjan.Scan | migration-kit/scripts/depmap_python.py:133-142 | the `for` loop stops at the first slot whose successor was never opened, with all earlier slots accounted for in the low-link |
| Tarjan.CloseFrame | migration-kit/scripts/depmap_python.py:145-158 | the code after the `for` loop performs exactly the machine's closing step on the program's own tables |
| Tarjan.Components | migration-kit/scripts/depmap_python.py:113-159 | the nested loops over the explicit frame stack compute the machine's final batches; its ghost counts say how often the loops' bodies run |
| MigrationOrder.BuildAdjacency | migration-kit/scripts/depmap_python.py:113-117 | the adjacency lists are, for each node, the sorted targets listed for it |
| MigrationOrder.TarjanScc | migration-kit/scripts/depmap_python.py:110-159 | for edges inside the node set: the batches are the strongly connected components, each sorted, every reachable batch earlier; each node gets its index once, the `for` body runs once for each listed edge, and the `while work` body at most twice for each node |
| MigrationOrder.TarjanSccAsListed | migration-kit/scripts/depmap_c.py:68-114 | the same, with the same counts, for the twin that tries roots in the order given |
| MigrationOrder.MigrationOrder | migration-kit/scripts/depmap_python.py:162-170 | the order is the components in dependencies-first order and the cycles are its batches of more than one node |
| MigrationOrder.DependenciesFirst | migration-kit/scripts/depmap_python.py:162-170 | an edge between different batches points to a strictly earlier batch |
| MigrationOrder.CyclesEmptyIffAcyclic | migration-kit/scripts/depmap_python.py:169-170 | without self-loops the cycle list is empty if and only if the graph is acyclic |
| MigrationOrder.AcyclicOrderIsTopological | migration-kit/scripts/depmap_python.py:162-170 | on an acyclic graph the flattened order is a topological sort of all nodes |
| MigrationOrder.OnlySetsMatter | migration-kit/scripts/depmap_python.py:113-158 | the batches and their order depend only on the set of nodes and the set of edges, not on the order or number of times they are listed |
| MigrationOrder.OnlyEdgeSetMatters | migration-kit/scripts/depmap_c.py:68-114 | for the twin, given the order of the nodes, the result depends only on the set of edges |
| TarjanOrder.OpensDepthFirst | migration-kit/scripts/depmap_python.py:122-142 | nodes get their index in the order in which a recursive depth-first search over the roots and the lists visits them first |
| TarjanOrder.EmissionOrder | migration-kit/scripts/depmap_python.py:122-158 | of two nodes in different batches the one visited first is in the earlier batch if and only if it does not reach the other, which decides the order of all batches |
| MigrationOrder.BatchOrder | migration-kit/scripts/depmap_python.py:113-158 | the same for the migration order, where roots and lists are tried in dictionary order, smallest unit first |
| Ordering.LexLeIff | migration-kit/scripts/depmap_python.py:118-122 | the order of names and keys: a proper beginning comes first, and else the smaller unit at the first difference |
| TarjanRepeats.RepeatsIrrelevant | migration-kit/scripts/depmap_python.py:133-142 | examining an edge or trying a root again teaches the algorithm nothing: the run is step for step that of the graph without repeats |
| MigrationOrder.WorkIsLinear | migration-kit/scripts/depmap_python.py:113-158 | every node is opened exactly once and the number of slot examinations equals the number of listed edges |
| Kahn.TopologicalOrder | migration/scripts/depmap_rust.py:74-85 | the loop over counters and a sorted queue yields a greedy order that cannot be extended, and `cyc` is the sorted rest |
| Kahn.Drain | migration/scripts/depmap_rust.py:79-84 | each pass places the smallest node all of whose dependencies are placed, until none is ready |
| Kahn.Release | migration/scripts/depmap_rust.py:81-83 | decrementing the counters of the users queues exactly those that became ready |
| KahnOrder.GreedyIsLeast | migration/scripts/depmap_rust.py:79-84 | the order precedes, lexicographically, every dependencies-first order of the nodes |
| KahnOrder.GreedyUnique | migration/scripts/depmap_rust.py:79-84 | there is only one greedy order that cannot be extended |
| KahnOrder.AcyclicOrderIsLeastComplete | migration/scripts/depmap_rust.py:73-84 | for an acyclic graph every node is placed and the order is the least dependencies-first order of all nodes |
| KahnOrder.OrderedOnce | migration/scripts/depmap_rust.py:78-84 | for any graph each node is placed at most once and after all its dependencies |
| KahnOrder.LeftoverIffReachesCycle | migration/scripts/depmap_rust.py:85 | a node is left over if and only if it can reach a cycle |
| JsonParser.ValueRead | packages/agent/src/agent-loop.ts:820-831 | a reader gives back the printed value with its keys sorted and leaves what follows it: canonical texts are uniquely readable |
| JsonParser.StringRead | packages/agent/src/agent-loop.ts:825-830 | a printed string or key is read back unit by unit, surrogates and control characters included |
| JsonEquality.TextsEqualIffSame | packages/agent/src/agent-loop.ts:820-831 | canonical texts are equal if and only if the values are equal up to object key order |
| JsonEquality.TextsEqualIffBlankedSame | packages/agent/src/agent-loop.ts:820-831 | for every two values, `undefined` and `NaN` included: the texts agree if and only if the values agree up to key order once those read as null |
| JsonEquality.UndefinedCollidesWithNull | packages/agent/src/agent-loop.ts:830 | two values that are not the same share a canonical text when one has undefined for null |
| JsonEquality.CanonicalWellFormed | packages/agent/src/agent-loop.ts:807-831 | a canonical text holds no lone surrogate, so encoding it as UTF-8 for the digest loses nothing |
| JsonEquality.HashBindsArguments | packages/agent/src/agent-loop.ts:807-814 | with a collision-free digest, argument hashes are equal if and only if the arguments are equal up to key order |
| JsonForm.CanonicalKeysAscend | packages/agent/src/agent-loop.ts:825 | read back, the keys of every object ascend strictly in dictionary order of their code units, at every depth |
| JsonForm.CanonicalReadsBack | packages/agent/src/agent-loop.ts:820-831 | reading a canonical text gives the value itself up to key order, arrays in their order, with null for what JSON cannot express |
| JsonForm.CanonicalIsShortest | packages/agent/src/agent-loop.ts:830 | of all ways to write a string by section 7 of RFC 8259 without a lone surrogate, the canonical one is the shortest, with small hexadecimal letters |
| JsonForm.CanonicalSpells | packages/agent/src/agent-loop.ts:830 | and it is one of those ways |
| ApprovalGate.CallLogGated | packages/agent/src/agent-loop.ts:633-799 | a tool runs at most once, unvetoed, on the validated arguments as the hook left them, and if a prompt was demanded then only after the one prompt naming the call was answered with allow; that prompt carries the hash from before the hook if the classifier demanded it, and else of the arguments that run |
| ApprovalGate.CallLogBinds | packages/agent/src/agent-loop.ts:633-799 | every request shown, also one whose channel then throws, names the call itself; its hash is that of the arguments before the hook if the classifier demanded it and else of those the hook left; an answer is announced with the same data |
| ApprovalGate.NoChannelNoExecution | packages/agent/src/agent-loop.ts:743-775 | without a prompt channel a demanded prompt means the tool does not run and the call ends in an error |
| CallOutcomes.RunsIffPermitted | packages/agent/src/agent-loop.ts:633-799 | for all inputs: the tool runs if and only if it is known, its arguments are valid, neither classifier nor hook fails or blocks, what they want confirmed is allowed, and no abort comes first; it runs on the arguments as left |
| CallOutcomes.BatchRunsPermitted | packages/agent/src/agent-loop.ts:444-587 | the same of every call of a batch, under either executor and any scheduler |
| CallOutcomes.AskedIff | packages/agent/src/agent-loop.ts:704-749 | the user is asked if and only if classifier or hook wants it, nobody objected before, and there is a channel |
| CallOutcomes.RequestShows | packages/agent/src/agent-loop.ts:669-741 | a merged prompt shows the classifier's reason and the hook's label and payload, each falling back to the other source |
| CallOutcomes.ResolvedIff | packages/agent/src/agent-loop.ts:743-760 | every decision on a demanded prompt is announced, the denial for want of a channel as well, with the call's own id and name and the hash and label shown; only a channel that throws decides nothing |
| CallOutcomes.RunShows | packages/agent/src/agent-loop.ts:851-890 | while a tool runs exactly its updates are shown, in order, and then the end of the call |
| CallOutcomes.PermittedIffNoObjection | packages/agent/src/agent-loop.ts:633-799 | a call is permitted exactly if none of the nine objections is made |
| CallOutcomes.FinalTells | packages/agent/src/agent-loop.ts:743-934 | what a call ends with: the message of the first objection as an error, or what the tool came to with exactly the fields the after-hook gives replaced, or that hook's own failure |
| ApprovalGate.ApprovedAsRunIff | packages/agent/src/agent-loop.ts:669-741 | for a call that ran under a demanded prompt: an allowed prompt carries the hash of exactly the arguments that run if and only if the classifier did not demand it or the hook left the hash as it was |
| ApprovalGate.ApprovedArgumentsIff | packages/agent/src/agent-loop.ts:669-741 | with a collision-free digest the approval covers the arguments that run if and only if the classifier did not demand it or the hook changed no more than the key order |
| ApprovalGate.PatchOutrunsApproval | packages/agent/src/agent-loop.ts:669-791 | when the classifier demands a prompt and the hook then patches the arguments, the old hash is approved and the patched arguments run |
| ApprovalGate.HelloApprovedNumberRuns | packages/agent/test/agent-loop.test.ts:310-368 | a concrete case: `{"value":"hello"}` is approved and `{"value":123}` runs |
| RunTools.RunApprovedAsRunIff | packages/agent/src/agent-loop.ts:157-288 | over every run, the same exact condition for every executed call whose prompt was demanded |
| ApprovalGate.HookCannotSpoof | packages/agent/src/agent-loop.ts:710-741 | whatever call a hook's prompt names, its patch of the arguments being the same, the request shown, its resolution, the execution and the final result stay the same |
| RunTools.RunIsGated | packages/agent/src/agent-loop.ts:157-288 | over every run, under every scheduler and with any abort, each started call's observations pass the gate and its requests are bound |
| ToolBatches.BatchCallLog | packages/agent/src/agent-loop.ts:444-587 | whichever executor ran and however it was scheduled, each started call shows its complete life and no other call shows anything |
| ToolBatches.InterleaveKeepsThreads | packages/agent/src/agent-loop.ts:555-575 | any interleaving of the prepared calls keeps the steps of each call in order and loses none |
| ToolBatches.ResultsInSourceOrder | packages/agent/src/agent-loop.ts:466-587 | the results are in the order of the calls, one for each started call; the started calls are a prefix, and all of them if no abort is noticed |
| TurnResults.CallsAt | packages/agent/src/agent-loop.ts:203 | the calls of a reply are those of exactly its tool-call blocks, in the order of the blocks |
| TurnResults.TurnConcludes | packages/agent/src/agent-loop.ts:192-230 | in every turn the turn_end, the announcements and the new messages carry the same results: one for each tool-call block in block order, telling what that call came to, up to the first call after which an abort is noticed |
| TurnResults.TurnAccounts | packages/agent/src/agent-loop.ts:444-587 | the n-th call of a reply begins, runs if and only if it is permitted, and ends as its result message says |
| TurnResults.TurnSilent | packages/agent/src/agent-loop.ts:444-587 | a call without a result shows nothing at all |
| TurnResults.EndTells | packages/agent/src/agent-loop.ts:951-971 | the only end of a started call and the message announced for it tell the same: unchanged result, overridden fields or error |
| TurnResults.TurnStopsIff | packages/agent/src/agent-loop.ts:236-245 | with no error stop and no word of the hook, a turn stops the run hard if and only if some call ended and every one that did asked for it |
| TurnResults.TurnLeaves | packages/agent/src/agent-loop.ts:247-267 | the next turn starts from the context with reply and results, or from the replacement, which a hard stop does not ask for |
| BatchOrder.RunsSequentiallyIff | packages/agent/src/agent-loop.ts:451-457 | the calls take turns if and only if the configuration wants it or the first tool of some call's name does |
| BatchOrder.SequentialTakesTurns | packages/agent/src/agent-loop.ts:466-514 | then no call begins before the one before it has ended and its result was announced |
| BatchOrder.ParallelGoesInWaves | packages/agent/src/agent-loop.ts:522-587 | else all calls begin in order before any tool runs, and results are announced after everything else, whatever the scheduler |
| BatchOrder.SchedulesCoverAll | packages/agent/src/agent-loop.ts:573-575 | whatever order the steps of the concurrent calls come in, some schedule gives it |
| BatchOrder.InterleaveMerges | packages/agent/src/agent-loop.ts:573-575 | and every schedule gives such an order |
| ToolBatches.StartedAll | packages/agent/src/agent-loop.ts:477-514 | all calls are started if and only if no abort is noticed before the last |
| ToolBatches.ImmediateNeverTerminates | packages/agent/src/agent-loop.ts:615-617 | a batch with a missing, blocked, denied or aborted call never asks to end the run |
| ToolExecutors.ExecuteSequential | packages/agent/src/agent-loop.ts:466-514 | the sequential loop's messages, terminate flag, started count and log, up to the call after which it notices an abort |
| ToolExecutors.ExecuteParallel | packages/agent/src/agent-loop.ts:522-587 | the preflight loop, the concurrent calls under any scheduler and the final loop give the same messages, flag and count as the sequential loop, and the log of that schedule |
| ToolExecutors.RunThreads | packages/agent/src/agent-loop.ts:573-575 | awaiting the concurrent calls returns their results in source order whatever the completion order |
| ToolExecutors.ExecuteBatch | packages/agent/src/agent-loop.ts:444-458 | one sequential tool or the configuration makes the whole batch sequential |
| RunLogs.ExecutorsAgree | packages/agent/src/agent-loop.ts:466-587 | with the outcome of each call fixed, both executors say the same results and show the same life of every call |
| RunLogs.BatchSaid | packages/agent/src/agent-loop.ts:505-509 | a batch announces exactly its result messages, in source order, under every scheduler |
| RunLogs.TranscriptIsSaid | packages/agent/src/agent.ts:534-547 | for every log, the reduced transcript is the initial messages followed by the completed ones |
| RunLogs.PendingIsOpen | packages/agent/src/agent.ts:549-561 | in every state, the pending set holds exactly the ids started and not ended since |
| RunPending.PendingIsExact | packages/agent/src/agent-loop.ts:157-288 | in every state of every run whose batches have distinct ids, under any scheduler and abort, the pending set is exactly the ids of the calls started and not ended |
| PendingCalls.PendingIsUnderWay | packages/agent/src/agent-loop.ts:522-587 | the same inside one batch, call by call: an id is pending if and only if its call has started and not ended |
| PendingCalls.PendingIsStarted | packages/agent/src/agent-loop.ts:466-587 | distinct ids or not, only ids of started calls are ever pending |
| RunTools.BatchLeavesNothingPending | packages/agent/src/agent-loop.ts:477-514 | whatever the scheduler, an abort or duplicate ids do, a batch leaves no call pending |
| RunTools.NothingPendingAtTurnEnds | packages/agent/src/agent-loop.ts:157-288 | over every run no call is pending at any turn_end, nor when the run is over |
| RunTranscripts.StreamAgreesIff | packages/agent/src/agent-loop.ts:363-438 | a reply extends the context by exactly itself if and only if its stream starts at most one message; the transcript gains exactly the reply in any case |
| RunTranscripts.TranscriptsAgreeIff | packages/agent/src/agent-loop.ts:157-288 | at every turn boundary of a run that neither throws nor has its context replaced, state messages, context, and initial followed by new messages are one sequence if and only if every stream so far started at most one message |
| RunShape.TraceIsWellFormed | packages/agent/src/agent-loop.ts:157-288 | every finished run, also one whose stream threw or was aborted, is agent_start, one or more closed turns, one final agent_end |
| RunShape.ClosedIsIdle | packages/agent/src/agent.ts:534-572 | a finished trace leaves no message streaming |
| RunMessages.MessagesAreWhole | packages/agent/src/agent-loop.ts:157-288 | over every run, broken ones included: a message is started before it is updated or completed, what is completed is what was started, nothing else happens in between, and none is left open |
| RunMessages.ReplyStarts | packages/agent/src/agent-loop.ts:340-438 | a reply starts as many messages as its stream does, and one if the stream starts none |
| RunViews.StreamingIs | packages/agent/src/agent.ts:534-547 | after any log the streaming message is the one last started or updated, unless completed or the run ended since |
| RunViews.ErrorIs | packages/agent/src/agent.ts:563-568 | after any log the error is that of the last turn that had a non-empty one |
| RunViews.LatestIsShown | packages/agent/src/agent-loop.ts:348-385 | while a reply is streamed, the context ends in the latest partial message and the state shows it |
| RunViews.FailureShows | packages/agent/src/agent.ts:502-517 | after a failure the transcript has one more assistant message with the error and the stop reason for it, and the state shows that error |
| RunViews.BrokenRunTells | packages/agent/src/agent.ts:489-517 | a run whose stream threw is over, and its last event hands out that message alone |
| RunShape.TurnEndsIff | packages/agent/src/agent-loop.ts:196-285 | a turn ends the run if and only if it has an error or aborted stop, a true shouldStopAfterTurn or a unanimous batch, or a stop without tool use with both drains empty; the first three leave both queues untouched |
| RunShape.LastTurnIsFirstStop | packages/agent/src/agent-loop.ts:174-287 | in any run a turn is the last if and only if it satisfies a stop condition, so the last turn is the first that does |
| RunShape.ImmediateNeverHardStops | packages/agent/src/agent-loop.ts:239-242 | a batch with a call that never ran does not hard-stop the run |
| RunShape.FollowUpsWait | packages/agent/src/agent.ts:289-292 | a follow-up is drained only when the run would otherwise stop: no hard stop, no tool use and no steering message |
| RunShape.TurnsAreBounded | packages/agent/src/agent-loop.ts:174-287 | the number of turns is at most one plus the tool-use stops plus the messages drained at turn ends |
| RunQueues.PerformKept | packages/agent/src/agent-loop.ts:169-190 | a run keeps the account of both queues: what was drained is what was injected, in order, and nothing is in flight when it is over |
| RunQueues.StartKept | packages/agent/src/agent.ts:407-421 | starting a run with messages drained from a queue keeps the account, as `continue()` does |
| RunPolls.TurnPolls | packages/agent/src/agent-loop.ts:269-287 | after a turn that goes on, steering messages are in flight if any waited, else, without tool use, follow-ups; all that wait in mode `All`, the first one otherwise, and the rest still waits |
| RunPolls.FirstPollTakes | packages/agent/src/agent.ts:465-471 | the same for the poll before the first turn, which a continuation skips |
| RunPolls.RunRegular | packages/agent/src/agent.ts:149-162 | over a run whose steering queue stays in one mode: never more than one steering message in flight, or nothing waiting that was there at the last poll |
| RunPolls.ContinuesWith | packages/agent/src/agent.ts:359-386 | `continue()` after an assistant message starts from the steering queue as its mode says, else from the follow-ups, and is refused if and only if neither holds any |
| RunPolls.OpsQueue | packages/agent/src/agent.ts:133-147 | messages are queued behind those that wait, in the order in which they come |
| Queues.DrainConserves | packages/agent/src/agent.ts:149-162 | in both modes a drain hands out a prefix of what waits and keeps the rest |
| Queues.ApplyConserves | packages/agent/src/agent.ts:133-167 | any sequence of enqueues and mode changes keeps every enqueued message, in order, and drains nothing |
| Queues.PendingMessageQueue.Drain | packages/agent/src/agent.ts:149-162 | in mode `All` everything that waits is handed out and nothing left; otherwise the first message, if there is one, and the rest is left |
| AgentStates.ReplayConcat | packages/agent/src/agent.ts:534-572 | reducing a log in two parts is reducing it whole |
| AgentStates.AgentState.ProcessEvent | packages/agent/src/agent.ts:534-572 | one event updates the fields exactly as the reduction says |
| AgentStates.AgentState.Observe | packages/agent/src/agent.ts:534-572 | the fields are at all times the reduction of everything observed |
| Agents.StreamAssistantResponse | packages/agent/src/agent-loop.ts:324-439 | the loop over stream events leaves the context and emits the events that the stream says |
| Agents.Agent.InjectPending | packages/agent/src/agent-loop.ts:181-190 | pending messages are announced in order before the assistant response |
| Agents.Agent.FinishTurn | packages/agent/src/agent-loop.ts:203-218 | the tool results enter the context and the new messages, and the turn is ended with them |
| Agents.Agent.GetSteeringMessages | packages/agent/src/agent.ts:465-471 | the first steering poll after `continue()` is skipped once and later polls drain the queue |
| Agents.Agent.Advance | packages/agent/src/agent-loop.ts:269-287 | steering is drained always, follow-ups only if the turn would end and no steering came, and a queued message continues the run |
| Agents.Agent.TakeReply | packages/agent/src/agent-loop.ts:196-287 | from the reply to the decision whether another turn follows |
| Agents.Agent.RunLoop | packages/agent/src/agent-loop.ts:157-288 | the loop performs exactly the turns of the run function, on the agent's own state and queues |
| Agents.Agent.Execute | packages/agent/src/agent.ts:489-517 | a run whose stream threw is closed with the failure message and the two end events |
| Agents.Agent.RunWithLifecycle | packages/agent/src/agent.ts:476-525 | a run from an idle agent keeps the account of both queues and, when over, leaves the agent idle with nothing pending or streaming |
| Agents.Agent.Prompt | packages/agent/src/agent.ts:346-357 | a prompt is refused, changing nothing, if and only if a run is active; otherwise it performs the run that starts with it |
| Agents.Agent.DrainToContinue | packages/agent/src/agent.ts:370-383 | after an assistant message, `continue()` starts from the steering queue, else the follow-up queue, else not at all |
| Agents.Agent.Continue | packages/agent/src/agent.ts:359-386 | `continue()` performs exactly the run its rules choose, or refuses and leaves queues and state as they were |
| Agents.Agent.NothingLost | packages/agent/src/agent.ts:443-474 | between runs, each queue's enqueued sequence is what entered the conversation from it followed by what it still holds |
| Agents.Agent.ClearAllQueues | packages/agent/src/agent.ts:305-308 | clearing drops everything that waits and nothing that was delivered |
| ProxyMessages.BlocksAreRebuilt | packages/agent/src/proxy.ts:238-350 | in every replay that does not throw, a block exists if and only if it was started, and is its last start with the later deltas, signature and arguments |
| ProxyMessages.ThrowsIffMisplaced | packages/agent/src/proxy.ts:250-334 | the replay throws if and only if some delta, text_end or thinking_end comes while its block was not last started as that kind |
| ProxyMessages.CallsAreRebuilt | packages/agent/src/proxy.ts:310-348 | a call whose deltas precede its end has the parsed concatenation as arguments, and keeps `partialJson` exactly until it ends |
| ProxyMessages.JsonGoneIff | packages/agent/src/proxy.ts:320-348 | in any replay an ended call has no `partialJson` if and only if no delta followed its last end |
| ProxyMessages.LateDeltaReopens | packages/agent/src/proxy.ts:320-348 | a delta after the end brings `partialJson` back with the text `undefined` in front |
| ProxyMessages.BlocksAreIndependent | packages/agent/src/proxy.ts:238-350 | however the blocks are interleaved, each is what its own events alone build |
| ProxyMessages.ClosingCarriesText | packages/agent/src/proxy.ts:264-308 | the event that closes a text or thinking block hands out the whole text of it |
| ProxyOutcomes.StopIs | packages/agent/src/proxy.ts:350-360 | stop reason and usage are those of the last `done` or `error` |
| ProxyOutcomes.ErrorIs | packages/agent/src/proxy.ts:355-360 | the error message is that of the last `error`, whatever follows |
| ProxyOutcomes.PushesAreSpoken | packages/agent/src/proxy.ts:238-367 | what is handed on is, event by event, what was sent: block ends carry their whole block, unknown events and the end of something that is no call are passed over, the rest goes on as it is |
| ProxyOutcomes.ThrowKeepsWhatCame | packages/agent/src/proxy.ts:195-206 | a throw leaves what the events before the first misplaced one built and handed on |
| ProxyStreams.FramingUnique | packages/agent/src/proxy.ts:192-193 | there is exactly one way to cut a text into newline-terminated lines and an unterminated tail |
| ProxyStreams.SplitFrames | packages/agent/src/proxy.ts:192-193 | splitting at newlines and popping the last piece is that cut |
| ProxyStreams.LinesAcross | packages/agent/src/proxy.ts:191-193 | a text cut anywhere has the lines of the first piece followed by those of its tail joined to the second |
| ProxyStreams.ListenedToLines | packages/agent/src/proxy.ts:184-208 | however the text is cut into chunks, exactly its newline-terminated lines are handled, in order, and the tail is not |
| ProxyStreams.LinesReplay | packages/agent/src/proxy.ts:195-206 | handling the lines is replaying the events they decode to, up to the first error |
| ProxyOutcomes.DataIff | packages/agent/src/proxy.ts:195-199 | a line carries a payload if and only if it is `data: ` and that payload with nothing but blanks around it |
| ProxyOutcomes.HeardIs | packages/agent/src/proxy.ts:184-191 | exactly the text before the first chunk that finds the request aborted is looked at |
| ProxyOutcomes.EndsWith | packages/agent/src/proxy.ts:184-226 | the stream ends without an error exactly if every line is handled, no abort is found and the body is complete; otherwise with the first of these that fails |
| ProxyStreams.PartialMessage.ProcessProxyEvent | packages/agent/src/proxy.ts:238-367 | one event updates the message in place and returns or throws as the step function says |
| ProxyStreams.ReadAll | packages/agent/src/proxy.ts:181-212 | the read loop with its buffer does what the whole text says, for every cut into chunks and any abort |
| ProxyStreams.StreamProxy | packages/agent/src/proxy.ts:181-226 | with the catch clause: an error or abort ends the stream with one error event and the matching stop reason |
| SessionTranscripts.Split | scripts/session-transcripts.ts:196-241 | the loop writes exactly the greedy groups, numbered from zero, and never reaches the inner branch that writes pending content first |
| SessionTranscripts.GreedyIsGrouping | scripts/session-transcripts.ts:201-234 | every transcript is in exactly one file, in order, and only a lone transcript can make a file exceed the limit |
| SessionTranscripts.GreedyStaysAhead | scripts/session-transcripts.ts:201-234 | against any admissible grouping the greedy one has no more files, and with as many its last file holds no more transcripts |
| SessionTranscripts.GreedyIsMinimal | scripts/session-transcripts.ts:196-241 | no order-preserving grouping whose groups fit the limit, separators counted, or are a lone transcript uses fewer files |
| SessionTranscripts.JoinedConcat | scripts/session-transcripts.ts:196-241 | a file holds its transcripts in order with one blank line between them |

## Left out

- SHA-256, UTF-8, schema validation, `parseStreamingJson`, `JSON.parse`, tool bodies, hooks, the provider and `defaultPromptPayload` are inputs: functions or answers chosen by the caller of the model.
- `EventStream`, `selectBiased` and the `agentLoop` wrappers: the stream delivers its events in order, and an abort during streaming is a stream that throws.
- The abort flag is read as an independent input at each place where the source reads it; this covers every behaviour of a flag that never goes back, and more.
- The request decision of the embedder is modelled as one answer per prompt; concurrent prompts do not arise, since calls are prepared one after another.
- Timestamps, model names, usage of assistant messages, images, thinking signatures in the transcript and `stopReason` details are not part of `AgentTypes`; message content of a tool result is one string.
- Listeners, their ordering and their errors; the copies of partial messages: messages are values, so aliasing between an emitted partial message and the context is not captured.
- Update events of a tool that arrive after its execution settled.
- Hooks that break their no-throw contract (`shouldStopAfterTurn`, `prepareNextTurn`, the polls): a throw there comes outside an open turn. A throw of `transformContext` or `convertToLlm` is a stream that breaks before its first event.
- `prepareNextTurn` replaces context and tools; model and thinking level do not influence the model.
- `reset()`, assignments to `state.messages` and `state.tools` from outside during a run.
- `runAgentLoopContinue` with an empty context: `continue()` refuses before it can arise.
- Numbers in canonical JSON are their JSON text; `toJSON`, `BigInt`, symbols and sparse arrays do not arise in parsed arguments.
- Agents.Agent.RunLoop: covers any finite script of turns, of which a run may use a prefix; a run still under way when the script ends has status `Going`.
- RunTranscripts.TranscriptsAgreeIff: says nothing of runs whose context a hook replaces, where the three are not meant to agree.
- PendingCalls.PendingIsUnderWay: is stated for the states inside one batch; RunPending.PendingIsExact covers whole runs.
- ApprovalGate.CallLogGated: the arguments are those the hook leaves when it returns; code that keeps the object and changes it later, and a classifier that changes it, are not modelled.
- HTTP, request building, authentication and `TextDecoder` in proxy.ts: the stream starts with decoded chunks, and an error before the first chunk is not modelled.
- The import scanners of the dependency scripts, file walking, file names beyond their number, and the reports around the splitting loop: the models start from node and edge sets, and from the list of non-empty transcripts.
- Usage arithmetic, model catalogues, registries, generator scripts, statistics scripts and UI: short or foreign code that would only add easy members.
