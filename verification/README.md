# Verification of the agent loop, the markdown transformers, the proxy stream and the transcript packer

This project models four parts of the repository in Dafny and proves what they promise.

1. **The agent** (`AgentEvents`, `AgentState`, `AgentEnvironment`, `TurnLogs`, `RunLogs`, `AgentLoop`,
   `AgentSession`, with the theorems in `GrammarTheorems`, `TurnTheorems` and `RunTheorems`, and one
   history played through in `LateTools`). The loop and the `Agent` wrapper are methods over mutable objects, function
   by function as in the source. At every `await` the run is suspended in an `Environment`: a finite
   script of ticks, each of which says what other code did meanwhile (steer, follow up, clear a queue,
   change a mode, abort, reset, assign the transcript, a tool reporting progress or finishing, a tool
   that a failed run left behind reporting or finishing) and what the awaited party answers, including
   a failure. Every contract therefore holds for every interleaving. A method ends `Done`, `Threw`, or
   `Cut` when the script ends while the run is still suspended, so contracts on `Cut` are about every
   prefix of a run.
   - An `Observer` is the event grammar as an automaton; every emitted event keeps it from being
     `Broken`. `GrammarTheorems` says in terms of the plain event sequence what that means.
   - The environment keeps a history `heard` of its answers (stream events, final messages, gates,
     outcomes of executions, hooks) and `failures` of what awaited parties threw. A ghost `RunLog`
     records the turns; every contract from a single `await` up to a whole run says that the turns
     are made of exactly what was heard, and that code throws only what an awaited party threw.
     `TurnTheorems` says what a turn is made of, in messages, gates and outcomes; `RunTheorems` derives
     independence of the schedule, turn bounds, the reasons for which runs end and queue conservation.
   - Each queue keeps a history `polls` of its drains: the mode, and the messages found. The log balances
     this history, so a batch of a turn is a real drain of the queue, and no drain is missing from it.
   - What listeners receive is a sequence of deliveries: the events of the run, and late reports of
     executions that a failed run left behind.
2. **The markdown transformers** (`Texts`, `Fences`, `FenceSyntax`, `FenceTheorems`, `CodeWrapping`,
   `ProtectedRewrite`, `MermaidBlocks`, `LatexText`, `LatexMeaning`, `Emphasis`, `EmphasisTheorems`,
   `EmphasisMeaning`, `AnnotationScanner`, `ScannerMeaning`). Loops are methods proved against functions
   on strings and lines.
3. **The proxy stream** (`ProxyMessage`, `ProxyTheorems`, `ProxyStream`, `ProxyMeaning`). The message is
   a class whose invariant says that each block is what its own events make of it.
4. **The transcript packer** (`TranscriptPacker`): no message is lost, and greedy stays ahead of every
   other split.

What the functions mean that the methods are proved against is said without them: `TurnTheorems`,
`FenceSyntax`, `LatexMeaning`, `EmphasisMeaning`, `ScannerMeaning` and `ProxyMeaning` characterise them by
explicit strings, characters, stop reasons, gates and outcomes, and the other modules do the same beside
the definitions.

`Wrappers` holds `Option`, `Outcome` and `Key`. A fact under `forall k {:trigger Key(k)}` is sealed:
it reaches a proof only where that proof writes `assert Key(0)`; `Seal` does the same with a number.
A `hide` statement keeps definitions that a proof does not need out of it.

## What was found

- Parallel tool results are not always in source order (`packages/agent/src/types.ts:34-35` says they
  are): immediate outcomes come first. `TurnTheorems.ParallelOrderExample` is an input where they are not,
  and `TurnTheorems.ParallelIsSourceOrder` says exactly when the two orders agree.
- A run that fails does not stop the tools it has launched. The updates of such a tool go to whatever run is
  active when they come (the sink passed to the loop at `packages/agent/src/agent.ts:403` reads the current
  run), whose listeners then see an update of an execution that never started, possibly after their
  `agent_end`. `LateTools.ToolOutlivesItsRun` plays this through; `GrammarTheorems.LateReports` says exactly
  when the event sequence stays legal. It does whenever no execution of a failed run is in flight when the run
  begins, however the run then ends (`AgentSession.Prompt`, `AgentSession.Continue`).
- A run that `continue` starts from follow-ups polls steering before its first response, so more than one
  queued message may precede it; each queue in one-at-a-time mode gives at most one
  (`AgentSession.ContinuedBeforeFirst`).
- At the turn cap no message with stop reason "max_turns" is emitted (`packages/agent/src/types.ts:227-231`
  promises one): the loop emits `agent_end` only, and drops the batch it polled last.
- A response that starts twice leaves a stale partial message in the loop's context that the transcript
  does not have. `RunTheorems.ContextAgrees` and `GrammarTheorems.OneMessageAtATime` are equivalences.
- The fence normaliser is not idempotent on every input, and rescanning its output can find other blocks.
  `FenceTheorems.RescanIsExact` gives the exact condition: no info string of a rewritten block begins with
  the new fence character, and no rewritten fence closes an opening that was never closed.
  `FenceTheorems.SecondApplicationChanges` and `FenceTheorems.DoubleCarriageReturn` are counterexamples;
  `FenceTheorems.NormalizeFixed` says exactly which texts are left alone, and on safe documents
  `FenceTheorems.NormalizeIdempotent` is an equivalence.
- Code wrapping is not a round trip when the code has a carriage return before a CRLF, or when the language
  tag begins with the marker or has a newline: `CodeWrapping.WrapRoundTrip` is an equivalence. A file name with
  a fence on a line of its own also breaks it: `CodeWrapping.HeadedRoundTrip` and `CodeWrapping.FenceInName`.
- The LaTeX decoder does not invert the escaping of a backslash, whose group the second pass re-escapes:
  `LatexText.DecodeEscaped` and `LatexText.DecodeInverts`.
- Annotation math in `\(...\)` and `\[...\]` is never recognised, because the scan for the closing delimiter
  skips escapes first: `AnnotationScanner.BackslashMathIsNeverRead`.
- A tool-call delta after the end of its call is accepted and appended to "undefined":
  `ProxyTheorems.DeltaAfterEnd`. `ProxyTheorems.ParsedIsDeltas` says exactly when what is parsed is the
  concatenation of the deltas.
- The messages of a transcript cannot always be told apart, even when none contains the separator: a message
  that ends in a line of three dashes makes one together with the separator after it.
  `TranscriptPacker.CutMessages` says exactly when cutting gives the messages back, and
  `TranscriptPacker.OverlappingSeparator` is an input on which it does not.
- The packer's flush inside its oversized branch is unreachable (the `assert false` in
  `TranscriptPacker.WriteTranscripts`).

## Model

| member | source | states |
|---|---|---|
| AgentState.PendingMessageQueue.Enqueue | packages/agent/src/agent.ts:127-129 | the message goes to the end of the queue; conservation is kept |
| AgentState.PendingMessageQueue.Drain | packages/agent/src/agent.ts:135-148 | in mode "all" the whole queue is taken and none stays; in one-at-a-time mode exactly its first message, and the others stay in order; from an empty queue nothing; mode and messages found enter the history of drains |
| AgentState.PendingMessageQueue.Clear | packages/agent/src/agent.ts:150-152 | only messages still queued are lost |
| AgentState.Agent.constructor | packages/agent/src/agent.ts:206-237 | a new agent is idle, with its transcript and empty queues |
| AgentState.Agent.ReduceEvent | packages/agent/src/agent.ts:519-557 | the state after an event is the reducer's; during an undisturbed run the whole state is the reduction of the run's events |
| AgentState.Agent.BeginRun | packages/agent/src/agent.ts:462-476 | refuses while a run is active and then changes nothing; otherwise a run begins with no streaming message and no error |
| AgentState.Agent.RecordFailure | packages/agent/src/agent.ts:487-501 | pushes exactly one message, with empty text, the error, and stop reason "aborted" if the run was aborted and "error" otherwise |
| AgentState.Agent.FinishRun | packages/agent/src/agent.ts:504-510 | afterwards the agent is idle |
| AgentState.Agent.Abort | packages/agent/src/agent.ts:308-315 | marks an active run aborted and begins or ends none |
| AgentState.Agent.Reset | packages/agent/src/agent.ts:322-330 | empties transcript, runtime state and both queues; an active run stays active |
| AgentState.Agent.ReduceLate | packages/agent/src/agent.ts:519-566 | a late report of an execution that a failed run left behind reaches the listeners of the active run and changes no state |
| AgentEnvironment.Environment.Perform | packages/agent/src/agent.ts:272-330 | what each action does to queues, their modes, transcript, deliveries, running tools and executions left behind; none touches the observer of the run's own events or drains a queue, and a tool settles once |
| AgentEnvironment.Environment.Leave | packages/agent/src/agent.ts:478-502 | the executions in flight, and no others, join those that failed runs have left behind |
| TurnTheorems.StillInFlight | packages/agent/src/agent.ts:478-502 | the executions in flight are those launched and not settled: each once, in order, and no others |
| AgentEnvironment.UserActions | packages/agent/src/agent.ts:272-330 | what steering, following up, clearing, changing a mode, resetting and assigning do to both queues, their modes and the transcript, action by action |
| AgentEnvironment.ToolActions | packages/agent/src/agent-loop.ts:560-595 | an unsettled execution reports and settles once; one left behind reports late until it has finished |
| AgentEnvironment.Environment.Await | packages/agent/src/agent.ts:563-565 | at a suspension exactly the actions of the next tick happen, any finite sequence of them; the grammar, the settled executions and the discipline of the queues survive it; it is cut off exactly when the observation ends |
| AgentEvents.ReducerAgrees | packages/agent/src/agent.ts:519-557 | on any legal event sequence the reduced transcript is the old one followed by the messages the grammar saw completed, and the streaming message is the open one |
| AgentLoop.Emit | packages/agent/src/agent.ts:519-566 | one event advances the observer by exactly that event; it throws, after the state change, exactly when a listener fails |
| AgentLoop.ReceiveStream | packages/agent/src/agent-loop.ts:309-340 | for any sequence of stream events, context, trace and observer are those of exactly the events the provider yielded |
| AgentLoop.StreamAssistantResponse | packages/agent/src/agent-loop.ts:245-367 | for the events and the final message that the provider gave: the context grows by that message, plus one stale partial for each start but the last, and the emitted events are one stream trace |
| TurnTheorems.StreamCollapses | packages/agent/src/agent-loop.ts:309-366 | the context grows by exactly the final message if and only if the response starts at most once |
| TurnTheorems.StreamShape | packages/agent/src/agent-loop.ts:309-366 | with at most one start: one message start, then only updates, then one message end with the final message |
| TurnTheorems.StartedMessage | packages/agent/src/agent-loop.ts:309-340 | a start opens a new slot of the context and shows a message start; each update after it replaces the slot and shows one message update; what earlier starts left stays |
| TurnTheorems.NeverStarted | packages/agent/src/agent-loop.ts:309-366 | without a start nothing is shown or added before the final message |
| TurnTheorems.OrdinaryResponse | packages/agent/src/agent-loop.ts:309-366 | one start, updates and an end: exactly one message start, one update each and one message end, and nothing stale |
| AgentLoop.PrepareToolCall | packages/agent/src/agent-loop.ts:508-558 | the gate is asked exactly about a tool that exists; a call is prepared if and only if its gate has admitted it, and otherwise answered with the error (`TurnTheorems.ReplyMeaning`); preparation never throws |
| AgentLoop.EmitToolCallOutcome | packages/agent/src/agent-loop.ts:640-667 | ends a running execution and answers it with one result message |
| AgentEnvironment.Environment.AwaitExecution | packages/agent/src/agent-loop.ts:560-595 | gives the outcome the execution settled with, whatever else settles meanwhile, and that is what is heard; throws only what the execution threw |
| AgentLoop.FinalizeExecutedToolCall | packages/agent/src/agent-loop.ts:597-631 | the answer is the execution's outcome as amended by what the hook gave |
| AgentLoop.RunAlone | packages/agent/src/agent-loop.ts:407-420 | one execution runs alone; its answer is made of the outcome it settled with, and of nothing else |
| AgentLoop.ExecuteToolCallsSequential | packages/agent/src/agent-loop.ts:386-424 | every call is started, judged by its own gate, run alone if admitted and answered before the next; the answers are made of the gates, outcomes and hook answers heard, in this order |
| AgentLoop.PrepareToolCalls | packages/agent/src/agent-loop.ts:437-451 | all calls are started in source order and judged by their own gates, the refused ones answered, the others collected |
| AgentLoop.FinalizeToolCalls | packages/agent/src/agent-loop.ts:453-471 | in whatever order executions settle, they are answered in launch order, each with its own outcome |
| AgentLoop.ExecuteToolCallsParallel | packages/agent/src/agent-loop.ts:426-474 | exactly the admitted calls have run; the fate of each is the outcome its own execution settled with; results are the replies in the parallel order of the fates |
| AgentLoop.ExecuteToolCalls | packages/agent/src/agent-loop.ts:372-384 | every call is started once in source order, ended once, answered once, in the mode's order, from its own gate and outcome |
| TurnLogs.SequentialDone | packages/agent/src/agent-loop.ts:386-424 | sequential answers are the replies in source order |
| TurnLogs.ParallelDone | packages/agent/src/agent-loop.ts:426-474 | the answers of the two passes together are the replies in parallel order |
| TurnTheorems.ParallelPermutes | packages/agent/src/agent-loop.ts:434-473 | the parallel order is a permutation: immediate outcomes in source order, then executed calls in source order |
| TurnTheorems.ParallelIsSourceOrder | packages/agent/src/agent-loop.ts:434-473 | it is source order if and only if no executed call precedes an immediate one |
| TurnTheorems.ParallelOrderExample | packages/agent/src/agent-loop.ts:434-473 | an executed call before a refused one: the refused one is answered first |
| TurnTheorems.EachCallAnswered | packages/agent/src/agent-loop.ts:207-221 | each call of a response that ended neither with an error nor by abortion has exactly one result in its turn, with its id and name: an unknown tool, invalid arguments and a block give their error and the tool does not run, a block without a reason gives "Tool execution was blocked", an admitted call gives the outcome of its own execution as its hook left or amended it; there are no others |
| TurnTheorems.OnlyAdmittedRun | packages/agent/src/agent-loop.ts:508-558 | a tool runs if and only if its gate has admitted the call; a gate is asked if and only if the tool exists |
| TurnTheorems.ReplyMeaning | packages/agent/src/agent-loop.ts:508-631 | the result of a refused, blocked, unknown and executed call, field by field |
| TurnTheorems.ResultOrder | packages/agent/src/agent-loop.ts:386-474 | results are a permutation of the calls: in source order when sequential; in parallel mode first the calls not admitted, then the admitted ones, both in source order |
| TurnTheorems.GatesFirst | packages/agent/src/agent-loop.ts:437-471 | in parallel mode every call is judged before the loop waits for any execution |
| TurnTheorems.CallsOfBlocks | packages/agent/src/agent-loop.ts:207-209 | the tool calls of a message are its call blocks: each once, in order, and no others |
| TurnTheorems.FailedRunsNothing | packages/agent/src/agent-loop.ts:201-205 | a turn whose response ended with an error or by abortion has no results and has asked and run nothing |
| RunTheorems.ScheduleIndependent | packages/agent/src/agent-loop.ts:426-474 | the same response, gates, outcomes and hook answers give the same results, whatever the schedule was |
| RunTheorems.RunsDependOnAnswers | packages/agent/src/agent-loop.ts:155-239 | two runs that have been told the same made the same turns, up to the queued messages injected into them: when and in which order executions settle does not matter |
| AgentLoop.InjectPending | packages/agent/src/agent-loop.ts:187-195 | the polled messages enter context and transcript in order, before the response |
| AgentLoop.RunTools | packages/agent/src/agent-loop.ts:207-221 | results, made of the gates and outcomes heard, enter the context in order and the turn then ends legally |
| AgentLoop.FinishTurn | packages/agent/src/agent-loop.ts:201-221 | a response with stop reason "error" or "aborted" asks no gate, runs no tool and has no results; any other has one fate for each of its calls |
| AgentLoop.Respond | packages/agent/src/agent-loop.ts:198-221 | the turn's message and stream are what the provider gave, its results what gates, executions and hooks gave, and nothing else has been heard |
| AgentLoop.RunTurn | packages/agent/src/agent-loop.ts:180-221 | one round: context and observed transcript grow by what the logged turn remembers and says, and the turn is made of exactly what has been heard |
| AgentLoop.RunLoggedTurn | packages/agent/src/agent-loop.ts:179-221 | at every turn end the new messages, the observed transcript, the context, the queue ledger and the answers heard agree with the log |
| AgentLoop.GetSteeringMessages | packages/agent/src/agent.ts:451-457 | the skip flag suppresses one poll and is then spent; otherwise the queue is drained once, as its mode at that time says |
| AgentLoop.GetFollowUpMessages | packages/agent/src/agent.ts:458 | the follow-up queue is drained once, as its mode at that time says |
| AgentLoop.AfterResponse | packages/agent/src/agent-loop.ts:201-223 | a response with stop reason "error" or "aborted" ends the run without a poll; after any other the steering queue is drained, what it gave is pending and the run goes on |
| AgentLoop.InnerRound | packages/agent/src/agent-loop.ts:174-224 | the cap is checked before each turn; the invariant of both loops is kept, in which the log accounts for every drain of the queues |
| AgentLoop.OuterRound | packages/agent/src/agent-loop.ts:226-238 | follow-ups are polled only when there are no tool calls and nothing is pending; without any the run ends |
| AgentLoop.RunLoop | packages/agent/src/agent-loop.ts:155-239 | for every environment: at any point the turns' batches are exactly the drains of the queues, every turn is polled for, justified and answered, and the turns are made of what was heard; if it returns, it ended in one of its three ways (`RunTheorems.EndsFor`), and all copies of the transcript agree; it throws exactly what one awaited party threw, and without a failure it returns or exhausts the observation |
| RunTheorems.FailureIsLast | packages/agent/src/agent-loop.ts:201-205 | only the last response of a run can have ended with an error or by abortion |
| RunTheorems.EndsFor | packages/agent/src/agent-loop.ts:155-239 | a run ends in error if and only if its last response ended with an error or by abortion, and has then run no tools; normally only after a response without tool calls and with both queues found empty; by the cap only when a positive cap is reached and something was left to respond to |
| RunTheorems.ContextAgrees | packages/agent/src/agent-loop.ts:191-219 | the loop's context is start plus transcript if and only if no response restarted |
| RunTheorems.CapBounds | packages/agent/src/agent-loop.ts:164-179 | with a positive cap there are at most its ceiling of LLM calls, and exactly that many when the cap ends the run |
| RunTheorems.TurnsAreJustified | packages/agent/src/agent-loop.ts:170-236 | a run makes at most one turn more than it has tool-calling turns before the last and injected messages, so without a cap it ends when those are finite |
| RunTheorems.QueuesConserved | packages/agent/src/agent-loop.ts:167-231 | at any point of any run every message enqueued and not cleared is, in queue order, drained earlier, in a turn of the transcript, pending, or still queued |
| RunTheorems.OnlyTheCapDrops | packages/agent/src/agent-loop.ts:175-238 | a normal or error exit leaves nothing pending; of the runs that return, only one ended by the cap drops the batch polled last |
| RunTheorems.LosesAtMostPending | packages/agent/src/agent-loop.ts:155-239 | however a run ends, also by a failure, what has left the queues and is in no completed turn is exactly its pending batch: from one queue only, and one message at most when the drain found that queue in one-at-a-time mode |
| RunTheorems.OneAtATimeDelivery | packages/agent/src/agent.ts:135-148 | a queue that is in one-at-a-time mode when the run begins gives at most one message between two responses as long as nobody puts it into the other mode during the run, whatever the other queue's mode is |
| RunTheorems.BeforeFirstResponse | packages/agent/src/agent-loop.ts:109-199 | before its first response a run has said its prompts and the first polled batch and nothing else |
| RunTheorems.PolledPerTurn | packages/agent/src/agent-loop.ts:167-231 | the steering queue is drained once for every turn, but for a first one that is to be skipped |
| RunTheorems.BatchPolled | packages/agent/src/agent-loop.ts:167-231 | every turn's batch is the next drain of the steering queue, and a drain of the follow-up queue only after a response without tool calls and a steering poll that gave nothing |
| RunTheorems.ResponsePolls | packages/agent/src/agent-loop.ts:221-231 | after every response that ended neither with an error nor by abortion, a run that ends by itself drains the steering queue again: it takes everything found in mode "all", and the first message in one-at-a-time mode |
| RunTheorems.FinishedEmpty | packages/agent/src/agent-loop.ts:226-238 | a run that ends normally has found both queues empty, steering first |
| RunTheorems.InjectedIsSaid | packages/agent/src/agent-loop.ts:187-199 | an injected batch stands in the transcript right before the response it was polled for |
| RunTheorems.DrawnInjected | packages/agent/src/agent-loop.ts:187-195 | the batches taken from a queue, concatenated, are the messages injected from it |
| GrammarTheorems.RunGrammar | packages/agent/src/agent-loop.ts:109-239 | a completed run has its only agent start first and its only agent end last, and turn starts and ends alternate in every prefix |
| GrammarTheorems.OneMessageAtATime | packages/agent/src/agent-loop.ts:309-366 | no two messages are ever open at once if and only if no response restarted |
| GrammarTheorems.TurnEndMeaning | packages/agent/src/agent-loop.ts:201-221 | at a turn end exactly the message's calls have been started, in source order, each ended once and answered once within the turn; none when its stop reason is "error" or "aborted" |
| GrammarTheorems.CompletedMeans | packages/agent/src/agent.ts:529-532 | the completed messages, and what the reduced transcript has grown by, are those of the message ends, in order |
| GrammarTheorems.ErrorIsLast | packages/agent/src/agent.ts:548-552 | the reduced error is that of the last turn that ended with an assistant message carrying one, and unchanged without any |
| GrammarTheorems.PendingToolCalls | packages/agent/src/agent.ts:534-546 | with distinct ids the reduced pending set is exactly the ids started and not ended |
| GrammarTheorems.LateReports | packages/agent/src/agent-loop.ts:568-580 | listeners see a legal sequence if and only if every late report has the id of an execution running in their own run; with none late they see exactly the run's events |
| RunTheorems.LateReportBreaks | packages/agent/src/agent-loop.ts:568-580 | one more late report keeps the sequence legal if and only if the active run is executing a call with that id |
| RunTheorems.ReportIntoNextRun | packages/agent/src/agent-loop.ts:453-471 | a hook failing after the first of two parallel calls leaves the second running, and its report breaks the next run's sequence |
| LateTools.FailWithToolRunning | packages/agent/src/agent-loop.ts:453-471 | on a script: two calls are admitted and launched, the first returns, its hook fails; the run is then over, the agent idle, and the second tool is left behind |
| LateTools.ToolOutlivesItsRun | packages/agent/src/agent.ts:394-408 | on that script the next run begins, its own events are legal, and its listeners have received an illegal sequence |
| GrammarTheorems.NothingRunning | packages/agent/src/agent-loop.ts:640-667 | between turns no execution is running |
| GrammarTheorems.PrefixLegal | packages/agent/src/agent-loop.ts:109-239 | every prefix of a legal event sequence is legal |
| AgentSession.RunAgentLoop | packages/agent/src/agent-loop.ts:95-118 | if it returns, the new messages are the prompts and the turns' messages, the observer saw exactly those completed, the context is the snapshot and the turns', and all that was heard is in the turns; it throws only what an awaited party threw and is cut off only when the observation ends |
| AgentSession.RunAgentLoopContinue | packages/agent/src/agent-loop.ts:120-143 | throws on an empty context or one ending in an assistant message, before any event; otherwise as above without prompts |
| AgentSession.HandleRunFailure | packages/agent/src/agent.ts:487-502 | the transcript grows by exactly the failure message, even when a listener fails again; executions in flight are left behind, none forgotten; it is cut off exactly when the observation ends |
| AgentSession.SettleRun | packages/agent/src/agent.ts:478-484 | whether the run returned, failed, or its failure handler failed, the agent is idle afterwards, unless the observation ends first; it throws only when the failure handler's listeners do |
| AgentSession.TranscriptAgrees | packages/agent/src/agent.ts:519-557 | at any moment of an undisturbed run the transcript is the one it began with and the messages completed since, and the streaming message is the open one |
| AgentSession.PendingAgrees | packages/agent/src/agent.ts:534-546 | at any moment of an undisturbed run with distinct ids the agent's pending tool calls are exactly those started and not ended in the turn |
| AgentSession.ErrorAgrees | packages/agent/src/agent.ts:548-552 | at any moment of an undisturbed run the agent's error is that of the last turn that ended with one, and the one at the beginning if none has |
| AgentSession.ListenersAgree | packages/agent/src/agent.ts:394-408 | what listeners have received of a run is legal if and only if every late report has the id of an execution running in it, and is the run's own events when none was late |
| AgentSession.RunPromptMessages | packages/agent/src/agent.ts:394-408 | the run's report holds however the run ends: legal events, log, context and transcript agree, one message at a time from disciplined queues; with the skip flag the steering queue is not drained before the first response; with nothing left behind by failed runs nothing is reported late |
| AgentSession.RunContinuation | packages/agent/src/agent.ts:410-420 | the same for a run without prompts |
| AgentSession.Prompt | packages/agent/src/agent.ts:335-343 | refused and without effect while a run is active; otherwise one run of these prompts on the agent's transcript, tools, cap and mode, whose report holds also when it fails or is cut off: legal events, nothing late if no failed run has left an execution in flight, at most one message between two responses from a queue that is in one-at-a-time mode and is not put into the other by the ticks that happened; its loop returns, unless the observation ends, if nothing that is awaited fails |
| AgentSession.ContinueFromQueues | packages/agent/src/agent.ts:356-370 | steering goes before follow-ups; a run from steering does not drain steering again before its first response; every drain of both queues is accounted for |
| AgentSession.Continue | packages/agent/src/agent.ts:346-373 | when it starts a run, with which prompts, and when it throws; the run's report holds as for prompts |
| AgentSession.ContinuedBeforeFirst | packages/agent/src/agent.ts:356-370 | before the first response of a run from the queues: at most one steering message, or at most one follow-up and one steering message, from queues that are in one-at-a-time mode and stay so |
| AgentSession.Session | packages/agent/src/agent.ts:308-373 | over any history of prompts, continuations, aborts, resets, steering and failing runs that leave executions behind, no active run implies not streaming, no streaming message, no pending tool call; a run stays active for good only when the observation ends inside it |
| Fences.ParseWritten | packages/markdown-preview/index.ts:886-900 | a written fence line parses back, growing into an info string that begins with its character |
| Fences.ScanCases | packages/markdown-preview/index.ts:886-917 | a scanned document begins with a line that stays plain or a block closed by its first closing line |
| Fences.ScanKeepsLines | packages/markdown-preview/index.ts:886-946 | the scanned segments are the document's lines, in order |
| Fences.GetLongestFenceRun | packages/markdown-preview/index.ts:844-852 | run by run gives the longest run at any position |
| Fences.FindClosingLine | packages/markdown-preview/index.ts:901-912 | the first closing line after the opening, or none; `FenceSyntax.ClosesMeans` says which lines close |
| Fences.RewriteBlock | packages/markdown-preview/index.ts:919-943 | the lines written for a block are those of the rewritten segment; an unneeded rewriting keeps its lines |
| Fences.NormalizeMarkdownFencedBlocks | packages/markdown-preview/index.ts:882-947 | the loop computes the normalisation of the scanned segments, which `FenceSyntax.BlockFirst`, `FenceSyntax.LineFirst` and `FenceSyntax.RewriteMeans` spell out |
| FenceSyntax.OpeningMeans | packages/markdown-preview/index.ts:888-898 | a line opens a block if and only if it is at most three white-space characters, at least three equal fence characters, and a suffix that does not go on with them |
| FenceSyntax.ClosesMeans | packages/markdown-preview/index.ts:903-906 | a line closes a block if and only if it is at most three white-space characters, at least as many of the same fence character, and white space: a fence with a tag closes nothing |
| FenceSyntax.LongestRunMeans | packages/markdown-preview/index.ts:844-852 | the longest run is at least n long if and only if n of the characters stand in a row somewhere |
| FenceSyntax.RewriteMeans | packages/markdown-preview/index.ts:922-942 | a block is rewritten if and only if its content has a run of its fence character as long as the fence; it keeps indentation, suffix and content and gets the same fence twice, no run inside reaches it, no other such fence is shorter, and an equally short one only loses to tildes |
| FenceSyntax.BlockFirst | packages/markdown-preview/index.ts:886-944 | a document that begins with a block normalises to the rewritten block, up to its first closing line, and the normalised rest |
| FenceSyntax.LineFirst | packages/markdown-preview/index.ts:889-914 | a line that opens nothing, or a block that is never closed, is kept |
| FenceSyntax.TaggedFenceInside | packages/markdown-preview/index.ts:903-942 | a fence with a tag inside a block is content, and makes the block change to tildes |
| FenceTheorems.RescanIsExact | packages/markdown-preview/index.ts:882-947 | rescanning the output finds the same positions, info strings and contents if and only if the document is safe |
| FenceTheorems.WellBehavedIsSafe | packages/markdown-preview/index.ts:882-947 | documents whose openings are all closed and whose info strings have no fence character are safe |
| FenceTheorems.OnlyFencesChange | packages/markdown-preview/index.ts:882-947 | for any input the line count is kept and only fence lines of rewritten blocks change |
| FenceTheorems.RewrittenExceeds | packages/markdown-preview/index.ts:928-940 | both fence lines written for a block parse as fences strictly longer than any run of their character inside it |
| FenceTheorems.NormalizeLinesIdempotent | packages/markdown-preview/index.ts:882-947 | on the lines of a safe document the normaliser is idempotent |
| FenceTheorems.NormalizeFixed | packages/markdown-preview/index.ts:882-947 | for every text: the normaliser leaves it alone if and only if it has no CRLF and every scanned block has a fence that exceeds what is inside |
| FenceTheorems.NormalizeIdempotent | packages/markdown-preview/index.ts:882-947 | on a safe text the second application of the pipelines changes nothing if and only if the first has left no CRLF, which it never does when none is left after line-end normalisation |
| FenceTheorems.LineEndsShrink | packages/markdown-preview/index.ts:883 | a text with a CRLF is never a fixed point: each application takes one carriage return from each such line end |
| FenceTheorems.DropCRLines | packages/markdown-preview/index.ts:883 | normalising line ends takes one carriage return from every line but the last that ends in one |
| FenceTheorems.NormalizeKeepsLines | packages/markdown-preview/index.ts:882-947 | every output line is one line, and none ends in more carriage returns than before |
| FenceTheorems.GluedDocument | packages/markdown-preview/index.ts:928-943 | an unsafe document: an info string beginning with the new fence character |
| FenceTheorems.ReopenedDocument | packages/markdown-preview/index.ts:914-943 | an unsafe document: an unclosed opening closed by a later rewritten fence |
| FenceTheorems.LoudLine | packages/markdown-preview/index.ts:919-926 | lines of the kind that the three counterexamples need exist |
| FenceTheorems.SecondApplicationChanges | packages/markdown-preview/index.ts:882-947 | on the text of that document a second application changes the text again |
| FenceTheorems.DoubleCarriageReturn | packages/markdown-preview/index.ts:883 | a text on which the two applications differ through line ends alone |
| CodeWrapping.WrapCodeAsMarkdown | packages/markdown-preview/index.ts:854-875 | the marker selection computes the wrapped text |
| CodeWrapping.WrapMeans | packages/markdown-preview/index.ts:855-874 | heading, fence, tag, the code with normalised line ends and without the white space at its end, fence; no run inside reaches the fence and no shorter one would do; backticks if and only if the code has no fence character or a run of tildes longer than all of backticks |
| CodeWrapping.WrapRoundTrip | packages/markdown-preview/index.ts:854-947 | scanning the wrapped text recovers the tag and the normalised, right-trimmed code if and only if the tag is one line that does not begin with the marker and no CRLF is left in the code; the normaliser then leaves it unchanged |
| CodeWrapping.HeadedRoundTrip | packages/markdown-preview/index.ts:855-947 | for every file name: the block is found below its heading if and only if it is found without and no line of the heading opens a block; the normaliser then leaves the text unchanged if and only if it has no CRLF |
| CodeWrapping.PlainAbove | packages/markdown-preview/index.ts:886-917 | lines above a document leave its scan alone if and only if none of them opens a block that a later line closes |
| CodeWrapping.OrdinaryName | packages/markdown-preview/index.ts:855 | a name of one line never does |
| CodeWrapping.FenceInName | packages/markdown-preview/index.ts:855 | a name with a fence on a line of its own does |
| ProtectedRewrite.RewriteOutsideFences | packages/markdown-preview/index.ts:375-485 | the output is the document's pieces in order, protected lines verbatim and each run rewritten once |
| ProtectedRewrite.PiecesCut | packages/markdown-preview/index.ts:386-419 | the pieces are all lines in order; a line is in a run if and only if it is no fence line and inside no fence, and runs are maximal |
| ProtectedRewrite.FenceMeans | packages/markdown-preview/index.ts:390-396 | a line is a fence line if and only if it is white space, at least three equal fence characters, and anything that does not go on with them |
| ProtectedRewrite.OpenSnoc | packages/markdown-preview/index.ts:393-415 | a fence line opens a fence when none is open, and closes the open one exactly when it has its character and is at least as long |
| ProtectedRewrite.OutputsAt | packages/markdown-preview/index.ts:383-424 | a protected line is written as it is, a run joined and rewritten as a whole |
| ProtectedRewrite.TransformMarkdownOutsideFences | packages/markdown-preview/shared/annotation-scanner.js:144-201 | the same after line-end normalisation; an empty text is not rewritten |
| ProtectedRewrite.IdentityRewrite | packages/markdown-preview/index.ts:375-485 | a rewriting that changes no run leaves the whole text unchanged |
| MermaidBlocks.FindBlocks | packages/markdown-preview/index.ts:2168-2184 | the matches, none overlapping, numbered from one |
| MermaidBlocks.BlockFound | packages/markdown-preview/index.ts:2168-2182 | what is a block: its opening in any case, anything on that line, a body, and the first three backticks after it; the source is the body without the white space at its end |
| MermaidBlocks.BlockShape | packages/markdown-preview/index.ts:2168-2182 | every block has this form |
| MermaidBlocks.AllBlocks | packages/markdown-preview/index.ts:2173-2183 | the found blocks are all of them, leftmost first, numbered in order: before, between and after them no block begins |
| MermaidBlocks.RenderSources | packages/markdown-preview/index.ts:2198-2235 | each source is attempted at most once, in first-seen order, and none after the renderer is found missing |
| MermaidBlocks.AttemptedOnce | packages/markdown-preview/index.ts:2202-2235 | attempts are distinct and never cached, and complete unless the renderer is missing |
| MermaidBlocks.FirstSeenOrder | packages/markdown-preview/index.ts:2202-2235 | attempts follow the order in which sources are first met |
| MermaidBlocks.PreprocessMermaidForPdf | packages/markdown-preview/index.ts:2167-2264 | found is replaced plus failed; exactly the blocks whose source was rendered are replaced, everything else is kept |
| MermaidBlocks.BlockReplaced | packages/markdown-preview/index.ts:2237-2256 | text before a block is kept; the block becomes its image if its rendering was on disk or has succeeded and stays otherwise; the text after the last block is kept |
| MermaidBlocks.UnrenderedIsUnchanged | packages/markdown-preview/index.ts:2237-2256 | when nothing was rendered the document is unchanged |
| LatexText.EscapeIsMap | packages/markdown-preview/index.ts:487-493 | the four successive replacements are one per-character map |
| LatexMeaning.EscapeTable | packages/markdown-preview/index.ts:487-493 | what is written for each character, wherever it stands |
| LatexText.CodesDiffer | packages/markdown-preview/index.ts:487-493 | that map is a prefix code |
| LatexText.EscapeInjective | packages/markdown-preview/index.ts:487-493 | escaping is injective on strings |
| LatexText.DecodeEscaped | packages/markdown-preview/index.ts:1857-1866 | decoding an escaped text gives it back, with each backslash turned into its control word |
| LatexText.DecodeInverts | packages/markdown-preview/index.ts:1857-1866 | the decoder inverts the escaping if and only if the text has no backslash |
| LatexMeaning.DecodeTable | packages/markdown-preview/index.ts:1857-1866 | what is read for each control sequence and escaped character between texts without a backslash, which stay as they are |
| Emphasis.RenderCodeSpan | packages/markdown-preview/index.ts:553-565 | a span fenced at both ends loses its fences; any other text is escaped whole |
| EmphasisMeaning.CodeSpanMeans | packages/markdown-preview/index.ts:553-565 | equal backtick fences around something that begins with another character give that text in typewriter type; anything else is escaped whole |
| Emphasis.RenderContent | packages/markdown-preview/index.ts:583-617 | terminates and gives the LaTeX of the parse tree |
| EmphasisMeaning.FirstToken | packages/markdown-preview/index.ts:589-610 | text up to the first token is plain; the token is rendered by its kind; rendering goes on behind it |
| Emphasis.ReadEmphasisSpan | packages/markdown-preview/index.ts:619-647 | terminates and gives the LaTeX and the end of the span whose delimiter closes first |
| EmphasisMeaning.SpanMeans | packages/markdown-preview/index.ts:567-581 | a span begins where its delimiter is followed by no white space and not preceded by a letter or digit, and ends where it is preceded by no white space and not followed by one |
| EmphasisMeaning.ClosingMeans | packages/markdown-preview/index.ts:622-646 | the first such place closes, past escaped characters and whole tokens |
| Emphasis.RenderPlainText | packages/markdown-preview/index.ts:649-676 | terminates; strong spans are tried before emphasis, asterisks before underscores |
| EmphasisMeaning.PlainMeans | packages/markdown-preview/index.ts:649-676 | up to the first span text is escaped; the first of the four delimiters that gives a span there is set in bold type or emphasised, and rendering goes on behind it |
| EmphasisMeaning.PlainIsEscaped | packages/markdown-preview/index.ts:583-676 | a text where no token begins and no delimiter opens is escaped and nothing else |
| EmphasisMeaning.WordEmphasis | packages/markdown-preview/index.ts:649-676 | with the repository's scanner, a word in double delimiters gives bold type and in single ones emphasis, and nothing else is written |
| EmphasisMeaning.SnakeCase | packages/markdown-preview/index.ts:567-573 | underscores inside and at the end of a word open nothing |
| EmphasisTheorems.ParseKeepsText | packages/markdown-preview/index.ts:583-676 | the tree stands for exactly the text: nothing is lost, repeated or reordered |
| EmphasisTheorems.RenderingIsBalanced | packages/markdown-preview/index.ts:553-676 | without math tokens, or with balanced ones, unescaped braces are balanced |
| EmphasisTheorems.BalancedText | packages/markdown-preview/index.ts:487-493 | escaped text is balanced |
| AnnotationScanner.ReadToken | packages/markdown-preview/shared/annotation-scanner.js:364-393 | a token ends strictly past its start and within the text |
| AnnotationScanner.AdvancePastCode | packages/markdown-preview/shared/annotation-scanner.js:9-37 | the scan moves past a code span's fence and stays within the text |
| AnnotationScanner.LinkEnd | packages/markdown-preview/shared/annotation-scanner.js:241-308 | a link ends within the text |
| ScannerMeaning.CodeToken | packages/markdown-preview/shared/annotation-scanner.js:9-37 | code between equally long backtick runs on one line is one token |
| ScannerMeaning.LinkToken | packages/markdown-preview/shared/annotation-scanner.js:241-308 | a link without nested brackets is one token |
| ScannerMeaning.FormulaToken | packages/markdown-preview/shared/annotation-scanner.js:335-351 | a formula between dollar signs on one line is one token |
| ScannerMeaning.DisplayToken | packages/markdown-preview/shared/annotation-scanner.js:335-351 | a formula between double dollar signs is one token, also across lines |
| ScannerMeaning.UrlToken | packages/markdown-preview/shared/annotation-scanner.js:353-362 | an address, its scheme in any case, is one token, up to white space, an angle bracket or the end |
| AnnotationScanner.BackslashMathIsNeverRead | packages/markdown-preview/shared/annotation-scanner.js:310-342 | no protected token begins with a backslash |
| AnnotationScanner.DollarFreeIsBalanced | packages/markdown-preview/index.ts:553-676 | with the repository's own scanner, a text without a dollar sign renders to balanced LaTeX, whatever its delimiters |
| AnnotationScanner.MathIsInDollars | packages/markdown-preview/shared/annotation-scanner.js:335-351 | a math token begins and ends with a dollar sign |
| ProxyMessage.Message.constructor | packages/agent/src/proxy.ts:89-105 | an empty message |
| ProxyMessage.Message.ProcessProxyEvent | packages/agent/src/proxy.ts:211-340 | fails, with the message for its kind, exactly on an event for a block of another kind and then changes nothing; otherwise every block is what its own events since its last start make of it, and the pushed event reports it |
| ProxyMessage.BlockStep | packages/agent/src/proxy.ts:211-340 | updating a block in place and rebuilding it from its events agree |
| ProxyMeaning.WholeBlock | packages/agent/src/proxy.ts:211-322 | a start, deltas and an end after anything accepted: accepted; the block is the concatenation of the deltas with the signature, or the call with the arguments parsed from it; pushed are the start, every delta, and the end with that block |
| ProxyMeaning.OtherPushes | packages/agent/src/proxy.ts:216-340 | what is pushed for events outside blocks, and nothing for the end of a call where there is none |
| ProxyMeaning.AcceptsMeans | packages/agent/src/proxy.ts:222-310 | an event is accepted if and only if its block is there and of its kind; starts and events outside blocks always are |
| ProxyMessage.PartialJsonSnoc | packages/agent/src/proxy.ts:290-319 | the accumulated text after one more event, with the deletion at the end of a call |
| ProxyTheorems.InterleavingIrrelevant | packages/agent/src/proxy.ts:211-340 | two event sequences with the same events per block are both accepted or both not, and give the same blocks |
| ProxyTheorems.Commute | packages/agent/src/proxy.ts:211-340 | events for different indexes commute anywhere in a sequence |
| ProxyTheorems.StartForgets | packages/agent/src/proxy.ts:219-288 | a start forgets everything before it for its block |
| ProxyTheorems.ParsedIsDeltas | packages/agent/src/proxy.ts:280-319 | what is parsed in the end is the concatenation of the call's deltas if and only if no delta comes after an end, or the deltas before the last such end spell "undefined" |
| ProxyTheorems.ArgumentsFromDeltas | packages/agent/src/proxy.ts:280-319 | with no delta after the end, arguments are parsed from the concatenation of the deltas, which is kept until the end |
| ProxyTheorems.DeltaAfterEnd | packages/agent/src/proxy.ts:290-319 | a delta after the end is accepted and parsed with "undefined" before it |
| ProxyStream.SplitAppend | packages/agent/src/proxy.ts:164-166 | splitting a longer text continues the split of its beginning at the unterminated piece |
| ProxyStream.FramedAppend | packages/agent/src/proxy.ts:164-180 | the payloads of a longer text are those of its beginning and those of the buffer with the next chunk |
| ProxyStream.HandleLine | packages/agent/src/proxy.ts:168-179 | a line without the prefix or without data is ignored; any other is one payload |
| ProxyMeaning.PayloadMeans | packages/agent/src/proxy.ts:169-171 | a line has a payload if and only if it is the prefix, white space, the payload, white space, and the payload is not empty and begins and ends with something else |
| ProxyMeaning.FramedLine | packages/agent/src/proxy.ts:164-180 | one more terminated line adds its payload, or nothing |
| ProxyStream.ReadBody | packages/agent/src/proxy.ts:152-187 | for every way of cutting the body, the payloads handled are those of the whole text up to the first rejected one, failed read or abort |
| ProxyStream.StreamProxy | packages/agent/src/proxy.ts:152-207 | message, pushed events and ending are determined by the text and the outcome of the reads (`ProxyMeaning.StreamOutcome`); a failure adds one error event, its reason and its message; without one, stop reason, usage and error are those last reported |
| ProxyMeaning.StreamOutcome | packages/agent/src/proxy.ts:152-207 | reading stops at the first failed or aborted read; payloads are handled in order up to one that is no event or does not fit, which gives an error; otherwise aborted, error or a good end, by the read that stopped and the flag at the end |
| ProxyStream.ChunkIndependent | packages/agent/src/proxy.ts:152-180 | two bodies with the same text give the same events and the same ending |
| TranscriptPacker.TranscriptAt | scripts/session-transcripts.ts:185-192 | each session with messages gives exactly one transcript, between those of the sessions before and after it; any other gives none |
| TranscriptPacker.MessageInTranscript | scripts/session-transcripts.ts:188 | a transcript has every message of its session, after the header with the file name and before the end line |
| TranscriptPacker.TranscriptRead | scripts/session-transcripts.ts:188 | a transcript is header, body and end line, and cutting the body at the separators gives the messages back, in order and completely, if and only if they are separable |
| TranscriptPacker.CutMessages | scripts/session-transcripts.ts:188 | separable: none has the separator inside, and none but the last ends with what makes one together with the separator after it |
| TranscriptPacker.OverlappingSeparator | scripts/session-transcripts.ts:188 | two messages without a separator inside that cannot be told apart |
| TranscriptPacker.SessionInFile | scripts/session-transcripts.ts:197-242 | every session with messages has its whole transcript in one of the written files |
| TranscriptPacker.CollectTranscripts | scripts/session-transcripts.ts:185-192 | the loop collects those transcripts |
| TranscriptPacker.WriteTranscripts | scripts/session-transcripts.ts:184-242 | the files hold all transcripts once and in order, none over 100,000 characters unless it holds a single transcript; every message of every session is in one of them; numbered without overwriting; no order-preserving split obeying the rule has fewer |
| TranscriptPacker.GreedyStaysAhead | scripts/session-transcripts.ts:197-242 | a greedy split covers at least as much as any other with the same number of files |
| TranscriptPacker.Oversized | scripts/session-transcripts.ts:209-230 | in the oversized branch nothing is pending |
| TranscriptPacker.Add | scripts/session-transcripts.ts:233 | adding a transcript to the pending file keeps the split greedy and within the limit |

## Left out

- AgentEnvironment.Environment.Await: a user of the agent acts only at suspension points, and starts no second run from inside one; calls to `prompt` and `continue` during a run are covered by `AgentSession.Prompt` and `AgentSession.Continue`, which refuse them.
- AgentEnvironment.Environment.Perform: a tool reports progress only while its execution has not settled. An execution that a failed run left behind only reports and finishes: nobody awaits it, so what becomes of its outcome, or of a listener that fails on its report, is not modelled; while no run is active its reports reach nobody.
- AgentLoop.StreamAssistantResponse: context transformation, message conversion, system prompt, tool filter, model routing and the API key are one await that may fail; their values are not modelled.
- AgentLoop.PrepareToolCall: argument preparation, schema validation and the `beforeToolCall` hook are one verdict of the environment.
- AgentState.Agent.ReduceEvent: the listeners are one await that may fail, not a list; message details, usage and timestamps are opaque or absent, and messages are values, so aliasing between the context's and the events' partial message is not captured.
- RunTheorems.TurnsAreJustified: states the bound on turns; that the environment is finite is the model's (a script of ticks), so non-termination of a provider or a tool is not modelled.
- `agentLoop` and `agentLoopContinue` (packages/agent/src/agent-loop.ts:31-93): an EventStream around the functions modelled here.
- Fences.NormalizeMarkdownFencedBlocks: reads lines with an indent of white space as ECMAScript defines it; whether another markdown parser sees the same blocks is not claimed.
- FenceTheorems.NormalizeIdempotent: is about safe documents; of an unsafe one only its normalised text says whether a second pass changes it (`FenceTheorems.NormalizeFixed`), while recovery of the same blocks is an equivalence on all documents (`FenceTheorems.RescanIsExact`).
- CodeWrapping.WrapRoundTrip: `language` is the tag after trimming, lower-casing and aliasing, which are not modelled; only that it is trimmed is used.
- ProtectedRewrite.RewriteOutsideFences: the rewriting of a run (math delimiters, sub- and superscript tags, annotation markers) is an arbitrary function.
- MermaidBlocks.PreprocessMermaidForPdf: rendering is a function of the source, the cache is a predicate on sources, and the image reference is an arbitrary function of source and block number; hashing and paths are not modelled.
- Emphasis.RenderContent: the renderer of math tokens is an arbitrary function; the white-space normalisation before rendering and the final trim are not modelled.
- AnnotationScanner.ReadToken: the scanner's loops are recursive functions here; update in place is not captured.
- ProxyMessage.Message.ProcessProxyEvent: `content` is a map from index to block, so holes of a sparse array are absent keys; pushed events do not carry the message they share.
- ProxyStream.ReadBody: chunks are decoded text; splitting a character between two reads is the decoder's business. The request, its response status and the abort handler are not modelled, and an abort is seen where the source tests it.
- TranscriptPacker.WriteTranscripts: reading and parsing session files, and file names beyond their number, are not modelled.
- Text is a sequence of characters; `parseStreamingJson` and `JSON.parse` are arbitrary functions.
- The preview page cache, the overlay, pandoc, LaTeX and browser processes, model tables, routing, worktrees and cost reports.
