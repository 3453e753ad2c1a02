# Verified models of the PatchCage harness and the pi client stack

The repository drives language-model agents: a TypeScript stack (a framed wire protocol, a client, a
model registry, an agent loop, a proxy stream) and a Python harness that runs a remediation agent in a
sandbox and hands out a patch only when it has earned it. This project models the parts whose
correctness rests on state kept over time, and proves what they promise for every input, every
interleaving and every run.

`dafny verify dfyconfig.toml` checks everything.

- **Frames** (`FrameFormat`, `FrameStream`, `FrameDecoder`). A pure parser of length-prefixed frames, the
  behaviour of a decoder over any chunks, and the decoder itself with its header buffer and payload
  blocks, proved to do the same.
- **Agent** (`AgentEvents`, `MessageQueue`, `ToolCalls`, `ToolTimeline`, `ToolBatches`, `AgentPlay`,
  `AgentRun`, `AgentCalls`, `AgentLogs`, `AgentTurns`). The reducer, the queues, sequential and parallel tool batches, the nested loop.
  The environment (the answer of the model to whatever it is sent, tools, hooks, aborts, commands to the
  queues, the order in which parallel calls take steps) is an arbitrary script; a script that ends before the
  run does leaves a run in progress, of which the same is promised. A ghost log records events and requests,
  and automata over the log say what a proper run is; a flat play of the turns says which messages enter,
  what every request sends, what is announced and what stays queued, and the nested loops are proved to lead
  there.
- **Proxy** (`ProxyLines`, `ProxyMessage`, `ProxyStream`, `ProxyOutcomes`). The line-buffering read loop and the message
  rebuilt from stripped events.
- **Harness** (`Phases`, `Budgets`, `Supervisor`, `Checks`, `Environment`, `RunHistory`, `Runner`). A run
  against any gateway and any workspace session, which may answer or raise anything, including a cancellation
  at every await. The run keeps a record of its questions, each with its tick and what came of it. A record
  is real if every entry is what the environment answered and every operation for the model was asked for and
  supervised; the record of every run is, and theorems about runs end in statements about the answers
  themselves.
- **Persistence** (`Persistence`, `RunExport`). Crash-ordered saving and the gated export, and the two
  together with the run: no patch comes out that was not replayed.
- **Model registry** (`Publication`, `PublicationArrival`, `ProviderRefreshes`) and **client**
  (`ClientRequests`, `ClientOutcomes`, `ProtocolClient`, `SessionLeases`, `LeaseGrants`, `LeaseTable`). Protocols over promises. Each stretch of code between
  two awaits is one atomic step of a state machine, and theorems are about all sequences of steps; the
  classes keep the maps and fields of the program, and their methods are proved to take just those steps.
- **Snapshot** (`PathNames`, `NameOrder`, `Archive`, `RecordStream`). Sanitising an archive and the stream
  of records whose hash identifies it.

Safety is not enough for a protocol: one that never delivers anything is safe. For each state machine the
theorems therefore also say what arrives and when (`PublicationArrival`, `ClientOutcomes`, `LeaseGrants`,
`ProxyOutcomes`), and that whatever fails does so for a stated reason. The functions that decide things (which
check is met, how a call is answered, which member or export is refused) are tied to independent statements of
what they must decide, in both directions.

Where the code does not do what one would expect, the model follows the code:

- A push that meets an oversize header drops the frames it had already completed
  (`FrameStream.FailingPushDropsItsFrames`, `FrameStream.FrameBeforeOversizeIsLost`).
- A response with a second `start` event opens a message that is never closed and leaves a stray partial
  in the context. Over a whole run, bracketing holds if and only if no response has one
  (`AgentCalls.PlayIsFaithful`, `AgentRunning.SecondStartCrosses`).
- A `health()` call that raises anything but a cancellation or an operating-system error makes the runner
  attempt a transition outside its table; nothing else does (`Runner.HarnessRunner.Run`).
- Leases go wrong in exactly three situations: a session is removed or the connection lost during an
  acquisition; a detach succeeds late, after its lease was invalidated, while another token is in hand; an
  acquisition sends an owed clean-up detach while a lease is active. `SessionLeases.Safe` names them by what
  holds before the step, and the promises hold if and only if none occurs
  (`SessionLeases.RunsAreSoundIffSafe`, with three concrete runs).
- The stagnation verdict is not looked at after a rejected patch. A run that has stagnated for too long goes
  on if and only if its last turn was one (`Runner.HarnessRunner.TakeTurn`,
  `Runner.HarnessRunner.StagnatesUnnoticed`); budgets still bound the loop.
- A tool-call delta after the end of its call is read behind the text `undefined`, with the exact condition
  for intact arguments in `ProxyMessage.ArgumentsAreIntactIff`.

## Model

| member | source | states |
|---|---|---|
| `FrameFormat.HeaderRoundTrip` | cli/packages/protocol/src/framing.ts:31-36 | the four header bytes of every unsigned 32-bit length read back as that length |
| `FrameFormat.HeaderIsCanonical` | cli/packages/protocol/src/framing.ts:88-89 | every four bytes are the header of exactly the length they read as |
| `FrameFormat.HeaderIsBigEndian` | cli/packages/protocol/src/framing.ts:31-36 | the header is the length in base 256, most significant byte first: a short length stands in the last byte, and one more digit moves the others one byte to the front |
| `FrameFormat.ParseIsLossless` | cli/packages/protocol/src/framing.ts:73-144 | the one-shot parse loses nothing: re-encoding its frames and appending its rest gives the stream back |
| `FrameFormat.ParseIsComplete` | cli/packages/protocol/src/framing.ts:80-142 | every frame is within the limit, and what is left over is an unfinished frame, or starts with an oversize header exactly when the parse says so |
| `FrameFormat.ParseIsUnique` | cli/packages/protocol/src/framing.ts:80-142 | only one list of frames and one unfinished rest encode to a given stream |
| `FrameFormat.ParseContinues` | cli/packages/protocol/src/framing.ts:80-142 | parsing a stream from the rest of its beginning gives the same frames as parsing it whole |
| `FrameFormat.ParseStaysOversize` | cli/packages/protocol/src/framing.ts:91-93 | bytes after an oversize header never change the parse |
| `FrameStream.ChunkingIsInvisible` | cli/packages/protocol/src/framing.ts:73-144 | for every cut of a stream into chunks the decoder fails exactly if the one-shot parse meets an oversize header, and otherwise has returned exactly its frames and holds exactly its rest |
| `FrameStream.PushFailsExactlyAtOversize` | cli/packages/protocol/src/framing.ts:74-93 | a push fails exactly when the bytes received up to and including it hold a complete oversize header |
| `FrameStream.FailureIsPermanent` | cli/packages/protocol/src/framing.ts:74-75 | a failed decoder stays failed and delivers nothing more, whatever is pushed |
| `FrameStream.FailingPushDropsItsFrames` | cli/packages/protocol/src/framing.ts:78-93 | on an oversize header the frames delivered plus those completed inside the failing push are the frames of the parse, so they are all of them exactly if the failing push completed none |
| `FrameStream.FrameBeforeOversizeIsLost` | cli/packages/protocol/src/framing.ts:78-93 | the concrete failing input: a whole frame and an oversize header in one chunk deliver nothing |
| `FrameStream.RoundTrip` | cli/packages/protocol/src/framing.ts:28-153 | any list of payloads within the limit, encoded and cut into any chunks, comes back as the same list and the decoder may end |
| `FrameStream.TruncatedStream` | cli/packages/protocol/src/framing.ts:73-153 | a stream cut anywhere delivers exactly its whole frames, and ending it fails exactly when the cut is not on a frame boundary |
| `FrameDecoding.ResolveMaxFrameLength` | cli/packages/protocol/src/framing.ts:19-25 | the limit is 16 MiB or the option, refused exactly unless it is a whole number in the unsigned 32-bit range: fractions, infinities and not-a-number are refused too |
| `FrameDecoding.EncodeFrame` | cli/packages/protocol/src/framing.ts:28-39 | the array filled byte by byte is the header of the payload length followed by the payload; longer payloads are refused |
| `FrameDecoding.AssertCompleteFrame` | cli/packages/protocol/src/framing.ts:42-53 | accepted exactly if the bytes are the encoding of one payload within the limit; a missing header and an oversize length are reported exactly when they apply |
| `FrameDecoding.CompleteFrames` | cli/packages/protocol/src/framing.ts:42-53 | bytes pass the check exactly if they are the encoding of one payload within the limit |
| `FrameDecoding.JoinBlocks` | cli/packages/protocol/src/framing.ts:128-134 | the blocks copied one after the other fill the payload exactly and in order |
| `FrameDecoding.FrameDecoder.constructor` | cli/packages/protocol/src/framing.ts:69-71 | a new decoder is open and holds nothing |
| `FrameDecoding.FrameDecoder.Push` | cli/packages/protocol/src/framing.ts:73-144 | the loop over header buffer and 64 KiB blocks returns the frames, or the error, of the pure decoder on the same state, and reaches its state; frames returned no longer belong to the decoder |
| `FrameDecoding.FrameDecoder.End` | cli/packages/protocol/src/framing.ts:146-153 | ending succeeds exactly when no byte of a frame is held; otherwise the decoder fails for good |
| `FrameDecoding.FrameDecoder.Fail` | cli/packages/protocol/src/framing.ts:155-164 | failing clears everything the decoder held |
| `FrameDecoding.FrameDecoder.CarryIsIncomplete` | cli/packages/protocol/src/framing.ts:81-123 | between two pushes the bytes held are an unfinished frame |
| `FrameDecoding.FrameDecoder.CapacityIsTight` | cli/packages/protocol/src/framing.ts:98-123 | between two pushes the blocks before the current one are full, total capacity never exceeds the declared length and exceeds the received bytes by less than 64 KiB |
| `AgentEvents.StageMeansMarks` | cli/packages/agent/src/agent-loop.ts:96-273 | a run whose stage is in order consists of one agent_start, strictly alternating turn_start and turn_end, and, once over, at least one turn and one agent_end |
| `AgentEvents.EveryPayloadIsCounted` | cli/packages/agent/src/agent-loop.ts:96-273 | in every log each message that ended is counted once: as a steering message, as a follow-up, or as neither |
| `AgentLogs.ViewPicks` | cli/packages/agent/src/agent-loop.ts:96-273 | the summary of a log holds exactly what stands in it, in order: payloads by where they come from, calls started, outcomes, and each request with the transcript as the log has it then |
| `AgentLogs.ToldMeans` | cli/packages/agent/src/agent-loop.ts:243-252 | a log counts as told if and only if every turn_end names the reply and results that were the last payloads before it, and its final messages are those of the last agent_end |
| `AgentLogs.BracketMeans` | cli/packages/agent/src/agent-loop.ts:279-370 | brackets are in order if and only if every update and end belongs to a start before it with nothing but updates between, and after every start or update comes an update or an end |
| `AgentLogs.CrowdedMeans` | cli/packages/agent/src/agent-loop.ts:176-209 | some turn took two steering messages if and only if two stand in the log with no turn opened between them |
| `AgentLogs.ReducedMeans` | cli/packages/agent/src/agent.ts:544-582 | after any events the transcript is the old one followed by the payloads in order, and a call is pending if and only if it has started and not ended since |
| `AgentLogs.ReducedShows` | cli/packages/agent/src/agent.ts:544-582 | the error shown is that of the last turn that ended with one, and a message is shown as streaming from its start to its end, as it was last told |
| `MessageQueue.PendingMessageQueue.Enqueue` | cli/packages/agent/src/agent.ts:133-135 | a message goes to the end of the queue |
| `MessageQueue.PendingMessageQueue.Drain` | cli/packages/agent/src/agent.ts:141-154 | exactly all messages or the first one are taken by mode, the others stay in order; what was queued is always what left followed by what waits |
| `MessageQueue.PendingMessageQueue.Clear` | cli/packages/agent/src/agent.ts:156-158 | clearing empties the queue and drains nothing |
| `MessageQueue.AllLeave` | cli/packages/agent/src/agent.ts:141-158 | messages that leave together leave in order, and are drained in order or, when cleared, not at all |
| `ToolCalls.CompletionOrderIsInvisible` | cli/packages/agent/src/agent-loop.ts:431-561 | two executions of a batch have the same result messages and the same verdict, whatever order their calls completed in |
| `ToolCalls.ModesAgree` | cli/packages/agent/src/agent-loop.ts:431-561 | when no abort is seen, a parallel batch and a sequential one have the same messages and the same verdict |
| `ToolCalls.UnabortedRunsAll` | cli/packages/agent/src/agent-loop.ts:442-479 | a batch that sees no abort has one result for every call |
| `ToolCalls.BatchTerminates` | cli/packages/agent/src/agent-loop.ts:589-591 | a batch asks to stop exactly if some call was run and every call run asks to |
| `ToolCalls.OutcomeAnswers` | cli/packages/agent/src/agent-loop.ts:593-765 | a call is answered by the first thing that stands in its way (no such tool, bad arguments, a hook that raises, an abort, a hook that blocks, with its reason or the default text), and otherwise by its result or its error, each field of an after-hook override winning over it; it asks to stop exactly if the blocking hook, the after-hook or the tool says so |
| `ToolCalls.IsBatchAnswers` | cli/packages/agent/src/agent-loop.ts:431-591 | in a batch every message answers its own call as the environment treats it, and the batch asks to stop exactly if it ran some calls and all of them say so |
| `ToolCalls.CallsOfAll` | cli/packages/agent/src/agent-loop.ts:222-224 | the calls of a reply are all of its call parts, in the order they stand in it |
| `ToolBatches.Agent.constructor` | cli/packages/agent/src/agent.ts:216-238 | a new agent is idle, with two empty queues of its own |
| `ToolBatches.Agent.Emit` | cli/packages/agent/src/agent.ts:544-582 | the in-place reduction of the agent state agrees with the pure reducer, event by event |
| `ToolBatches.ExecuteCall` | cli/packages/agent/src/agent-loop.ts:677-765 | a prepared call emits each of its updates once and in order, nothing else, and comes to its executed result as the after-hook leaves it |
| `ToolBatches.RunCall` | cli/packages/agent/src/agent-loop.ts:443-474 | one call of a sequential batch: start, every update in order exactly if nothing stands in its way, end, result message, and nothing else in the log; the message is what the treatment of the call calls for, so that a blocked call is not executed and answers with the reason |
| `ToolBatches.ExecuteToolCallsSequential` | cli/packages/agent/src/agent-loop.ts:431-485 | results in source order, one per call, for all calls or up to the first after which an abort is seen, each what the treatment of its call calls for; the log is exactly the calls one after the other, and nothing is pending at the end |
| `ToolBatches.FailToolCallsFromTruncatedMessage` | cli/packages/agent/src/agent-loop.ts:379-404 | a reply cut off by the token limit gives every call its error message, in order, and never asks to stop |
| `ToolBatches.StartCalls` | cli/packages/agent/src/agent-loop.ts:497-545 | calls are announced and prepared in order until an abort is seen; those that something stands in the way of have their outcome, and exactly the others are left to run |
| `ToolBatches.FinishCalls` | cli/packages/agent/src/agent-loop.ts:520-549 | whatever order the running calls take steps in, every one of them sends all its updates once and in order, then ends once, with its own outcome |
| `ToolBatches.ExecuteToolCallsParallel` | cli/packages/agent/src/agent-loop.ts:487-561 | for every interleaving the result messages stand in source order for all calls or up to an abort, each what the treatment of its call calls for, and the events before them are an interleaving in which each call tells its start, its updates in order and its end, once; no call stays pending |
| `ToolBatches.ExecuteToolCalls` | cli/packages/agent/src/agent-loop.ts:409-424 | one sequential tool, or the configuration, makes the whole batch sequential; every message answers its call as the environment treats it, the batch asks to stop exactly if all calls run say so, and the log is that of a sequential or of a parallel batch accordingly |
| `ToolBatches.RunBatch` | cli/packages/agent/src/agent-loop.ts:222-241 | a truncated reply fails its calls, any other executes them, and the messages entered and the calls and outcomes announced are those the calls determine |
| `ToolBatches.BatchHasResults` | cli/packages/agent/src/agent-loop.ts:409-424 | the result messages of a batch are those of outcomes that its calls and their treatment determine |
| `ToolTimelines.LineUpdates` | cli/packages/agent/src/agent-loop.ts:685-706 | when a running call sends its next update, its events are its start and one more of its updates in order, and those of the other calls are as they were |
| `ToolTimelines.LineEnds` | cli/packages/agent/src/agent-loop.ts:520-541 | a call ends after all the updates it has to send, whatever the others do |
| `ToolTimelines.AllTold` | cli/packages/agent/src/agent-loop.ts:487-561 | when all calls have ended, the events of each are its start, all its updates in order and its end |
| `ToolTimelines.NoUpdatesUnlessRun` | cli/packages/agent/src/agent-loop.ts:603-660 | a call that something stands in the way of sends no update |
| `ToolTimelines.AllUpdatesIfRun` | cli/packages/agent/src/agent-loop.ts:677-706 | a call that nothing stands in the way of sends all its updates, in order |
| `AgentPlay.OwnMessages` | cli/packages/agent/src/agent-loop.ts:164-273 | apart from what came from the queues, a run adds exactly the replies and tool results of the turns played, in order |
| `AgentPlay.OneRequestPerTurn` | cli/packages/agent/src/agent-loop.ts:211-213 | every turn makes exactly one request, and it sends the context held once the waiting messages of the turn have entered |
| `AgentPlay.RequestsSendTheTranscript` | cli/packages/agent/src/agent-loop.ts:176-213 | as long as no callback replaces the context and no reply leaves a stray message, every request sends the transcript as it stood |
| `AgentPlay.BracketedIff` | cli/packages/agent/src/agent-loop.ts:279-370 | messages stay bracketed over the turns played if and only if no reply leaves more than itself in the context |
| `AgentPlay.TurnsAreCounted` | cli/packages/agent/src/agent-loop.ts:174-249 | every turn played is one turn completed |
| `AgentPlay.CallsAnnounced` | cli/packages/agent/src/agent-loop.ts:221-241 | the calls announced over a run are those of the turns played, in order, and each outcome is announced once |
| `AgentPlay.EnteredGrows` | cli/packages/agent/src/agent-loop.ts:104-107 | what entered stays: the transcript only grows and the prompts stay in front |
| `AgentPlay.PollTakesInOrder` | cli/packages/agent/src/agent.ts:141-154 | a poll finds nothing only if nothing is queued, takes from the front, leaves the rest in order, and takes at most one message when one at a time |
| `AgentPlay.EndsForAReason` | cli/packages/agent/src/agent-loop.ts:175-270 | a turn ends a play if and only if it stopped it, or it asked for nothing more, the steering queue was empty at the poll after it, and so was the follow-up queue at the poll where the run would stop |
| `AgentPlay.EntersATurn` | cli/packages/agent/src/agent-loop.ts:176-209 | what enters a turn is what waits already; otherwise, before every turn but the first, the steering queue is asked, hands over from its front, and something if it holds anything |
| `AgentPlay.WaitsAfterATurn` | cli/packages/agent/src/agent-loop.ts:249-270 | after a turn that goes on, what the steering queue hands over waits; the follow-up queue is asked exactly if nothing does and no call asks for more |
| `AgentPlay.TurnLeads` | cli/packages/agent/src/agent-loop.ts:174-258 | after one more turn the play is over, about to stop, or goes on, exactly as the turn and the polls decide |
| `AgentTurns.SpokenMeans` | cli/packages/agent/src/agent-loop.ts:211-249 | a reply that failed or was aborted runs no call and ends the run; one that was cut off answers every call with an error and asks again; any other has its calls answered as they are treated and asks again exactly if it made some and not all that were run say to stop; nothing but a failure or the callback ends the run |
| `AgentTurns.TrailMeans` | cli/packages/agent/src/agent-loop.ts:308-370 | a response leaves its reply last in the context, and before it one message for every start that was followed by another, as it was last told |
| `AgentRunning.SecondStartCrosses` | cli/packages/agent/src/agent-loop.ts:315-322 | the failing input: a response with two start events leaves a message unclosed and a stray partial in the context |
| `AgentRunning.InjectedBalances` | cli/packages/agent/src/agent-loop.ts:201-209 | the books stay balanced when one waiting message enters, and no turn takes a second steering message of a queue drained one at a time |
| `AgentRunning.AgentRun.Start` | cli/packages/agent/src/agent-loop.ts:104-115 | the prompts are announced in order in the first turn, and context, new messages and transcript hold just them |
| `AgentRunning.AgentRun.Obey` | cli/packages/agent/src/agent.ts:282-306 | commands given while the loop waits leave the queues as the commands say, one after the other, and drain nothing |
| `AgentRunning.AgentRun.GetSteeringMessages` | cli/packages/agent/src/agent.ts:475-481 | the poller takes exactly what the mode says from the steering queue, except for the first poll of a run that began with steering messages |
| `AgentRunning.AgentRun.GetFollowUpMessages` | cli/packages/agent/src/agent.ts:482 | the poller takes exactly what the mode says from the follow-up queue |
| `AgentRunning.AgentRun.PollIfIdle` | cli/packages/agent/src/agent-loop.ts:191-196 | steering is polled if and only if nothing waits already |
| `AgentRunning.AgentRun.PrepareTurn` | cli/packages/agent/src/agent-loop.ts:176-198 | the context becomes the replacement, if there is one, and is otherwise kept; steering is polled exactly if nothing waits; the turn is opened |
| `AgentRunning.AgentRun.Inject` | cli/packages/agent/src/agent-loop.ts:200-209 | context and new messages grow by exactly the waiting messages, in order, and nothing else happens |
| `AgentRunning.AgentRun.StreamAssistantResponse` | cli/packages/agent/src/agent-loop.ts:279-370 | the model is asked with exactly the context and the reply is its answer to that; one message_end with the final message; the context grows by exactly the partials of the start events, the last one become the reply; the message is bracketed if and only if at most one start came before the end |
| `AgentRunning.AgentRun.Work` | cli/packages/agent/src/agent-loop.ts:221-241 | context and new messages grow by exactly the results of the calls in order, just these calls and outcomes are announced, and the model is asked again exactly if there were calls and not all of them ask to stop |
| `AgentRunning.AgentRun.Turn` | cli/packages/agent/src/agent-loop.ts:175-258 | one pass of the inner loop leads where the play of its turn leads: waiting messages, one request with the context, reply, results, one turn completed, then the steering poll, or the end on an error, an abort or a stop |
| `AgentRunning.AgentRun.RunTurns` | cli/packages/agent/src/agent-loop.ts:174-258 | the inner loop goes on as long as results are due or messages wait, and stops where the play would stop |
| `AgentRunning.AgentRun.RunOn` | cli/packages/agent/src/agent-loop.ts:171-270 | where the run would stop the follow-up queue is polled, and the run ends exactly if that is empty |
| `AgentRunning.AgentRun.RunLoop` | cli/packages/agent/src/agent-loop.ts:156-273 | for every environment the nested loops lead exactly where the play of the turns leads: messages, context, requests, brackets, calls, outcomes, number of turns and queues; agent_end carries exactly the message_end payloads; the run is over exactly if and when the play is |
| `AgentCalls.RunPromptMessages` | cli/packages/agent/src/agent.ts:409-423 | a run from its start to finishRun, with everything promised of a run that begins with these prompts |
| `AgentCalls.BeginRun` | cli/packages/agent/src/agent.ts:486-500 | an idle agent becomes active and opens its first turn |
| `AgentCalls.FinishRun` | cli/packages/agent/src/agent.ts:529-535 | the runtime state is cleared and the agent is idle |
| `AgentCalls.Prompt` | cli/packages/agent/src/agent.ts:350-358 | refused exactly while a run is active; otherwise the run is where the play of its messages, the queues and the script leads, with one request and one pair of turn marks per turn played; messages are bracketed if and only if no response to these requests brings a second start; every request sent the transcript as it stood unless a callback replaced the context or a response brought a second start; and if the steering queue is one-at-a-time at the call and no command changes that, no turn takes more than one steering message |
| `AgentCalls.Continue` | cli/packages/agent/src/agent.ts:361-388 | refused exactly when a run is active or there is nothing to go on from, with nothing changed; otherwise the same promises hold of the run that begins with what its own drain took, first poll skipped after steering messages |
| `AgentCalls.PromisedMeans` | cli/packages/agent/src/agent.ts:350-388 | in a promised run every message that ended is one of the prompts, a reply or result of the turns played, or a drained queue message, each counted once, with the prompts in front |
| `AgentCalls.PlayIsFaithful` | cli/packages/agent/src/agent-loop.ts:156-370 | whatever the script, a log that shows its play has one request and one turn pair per turn, is bracketed if and only if no response brought a second start, and then, unless a callback replaced the context, every request sent the transcript as it stood |
| `AgentCalls.TurnsAndCallsAreTold` | cli/packages/agent/src/agent-loop.ts:164-273 | over a promised run the turns marked are the turns played, the calls announced are theirs in order, and each outcome is announced once |
| `ProxyLines.SplitIsLossless` | cli/packages/agent/src/proxy.ts:193-195 | the lines and the rest of a text, with newlines put back, are the text, and none holds a newline |
| `ProxyLines.SplitIsUnique` | cli/packages/agent/src/proxy.ts:193-195 | there is no other way to read a text as lines and a rest |
| `ProxyLines.LinesContinue` | cli/packages/agent/src/proxy.ts:193-195 | reading on from the kept rest gives exactly the lines of the whole text |
| `ProxyMessage.BlocksAreIndependent` | cli/packages/agent/src/proxy.ts:240-351 | however events are interleaved, the message can be rebuilt if and only if each block can be rebuilt from its own events, and then holds just those blocks |
| `ProxyMessage.InterleavingIsInvisible` | cli/packages/agent/src/proxy.ts:240-351 | two interleavings of the same per-index events rebuild the same content, or both fail |
| `ProxyMessage.WellFormedBuilds` | cli/packages/agent/src/proxy.ts:248-351 | start, deltas and end of one block give the concatenated text or thinking with its signature, or the final tool call as sent |
| `ProxyMessage.WellFormedMessageIsRebuilt` | cli/packages/agent/src/proxy.ts:240-351 | any interleaving of well-formed blocks is rebuilt without an error, block by block |
| `ProxyMessage.ArgumentsAreIntactIff` | cli/packages/agent/src/proxy.ts:322-350 | while a call is streamed, its arguments are read from the text of all its deltas if and only if no end came since its opening, or what that end cut off spells the text undefined |
| `ProxyMessage.DeltaAfterEnd` | cli/packages/agent/src/proxy.ts:322-343 | the failing input: a delta after the end of its call is read behind the text undefined |
| `ProxyOutcomes.MessageRebuildsIff` | cli/packages/agent/src/proxy.ts:248-351 | a message can be rebuilt if and only if every delta and every end comes for the kind as which its own block was last opened |
| `ProxyOutcomes.MessageEndsAsTold` | cli/packages/agent/src/proxy.ts:353-369 | stop reason and usage are those of the last done or error event, the error message is that of the last error event, and without one they stay |
| `ProxyOutcomes.ListenersAreTold` | cli/packages/agent/src/proxy.ts:240-369 | for any interleaving of well-formed blocks the listeners are told every event once and in order, each block in full when it ends |
| `ProxyOutcomes.ResponseIsTold` | cli/packages/agent/src/proxy.ts:183-209 | a response of well-formed blocks, in any chunks, tells its listeners every event once and in order and ends as its last end says |
| `ProxyOutcomes.ReadingStops` | cli/packages/agent/src/proxy.ts:185-214 | a reading that fails or finds the signal raised keeps just the text before it and stops there; the signal is looked at once more at the end |
| `ProxyOutcomes.OutcomeMeans` | cli/packages/agent/src/proxy.ts:216-226 | a response raises exactly if one of its lines or its reading does, and then the first error is its message, its reason and the last event pushed, after just the events of the lines before it |
| `ProxyOutcomes.PayloadMeans` | cli/packages/agent/src/proxy.ts:198-201 | a line carries what follows its prefix without the blanks around it, and nothing if it starts otherwise |
| `ProxyStreaming.ProxyReader.constructor` | cli/packages/agent/src/proxy.ts:123-139 | the message begins pending and without content |
| `ProxyStreaming.ProxyReader.ProcessProxyEvent` | cli/packages/agent/src/proxy.ts:240-369 | one event changes the message in place, or raises and changes nothing, as the pure step does, and tells what it pushes |
| `ProxyStreaming.ProxyReader.HandleOne` | cli/packages/agent/src/proxy.ts:198-207 | a line is handled only if it carries data; a parse error raises |
| `ProxyStreaming.ProxyReader.Fail` | cli/packages/agent/src/proxy.ts:216-226 | an exception sets reason and message and pushes one error event |
| `ProxyStreaming.ProxyReader.Read` | cli/packages/agent/src/proxy.ts:183-226 | for every cut of the response into chunks the message and the pushed events are those of the newline-terminated lines of the text read before the loop stops, and the first line that raises decides |
| `ProxyStreaming.LinesApplyEvents` | cli/packages/agent/src/proxy.ts:197-208 | handling readable lines is applying their events, and raises exactly when that does |
| `ProxyStreaming.ResponseIsRebuilt` | cli/packages/agent/src/proxy.ts:183-209 | a response made of well-formed blocks in any interleaving and any chunks is read without an error and gives every block in full |
| `ProxyStreaming.ChunkingIsInvisible` | cli/packages/agent/src/proxy.ts:185-209 | without aborts and read errors only the concatenated text matters |
| `Phases.TerminalIsDeadEnd` | src/patchcage/harness/state_machine.py:142-153 | a phase is terminal exactly if it allows no transition |
| `Phases.TableReadBackwards` | src/patchcage/harness/state_machine.py:31-135 | the table agrees with the list of phases from which each phase may be entered |
| `Phases.ApprovalNeedsVerification` | src/patchcage/harness/state_machine.py:31-135 | every path of the table to awaiting_approval begins with preflight, snapshot and verified baseline and ends with working verification and clean replay |
| `Budgets.BudgetTracker.constructor` | src/patchcage/harness/budgets.py:42-44 | a tracker begins with nothing used |
| `Budgets.BudgetTracker.Remaining` | src/patchcage/harness/budgets.py:71-72 | what is left of a budget, never negative |
| `Budgets.BudgetTracker.Consume` | src/patchcage/harness/budgets.py:74-85 | each error exactly when it applies and then without effect; otherwise that budget and no other grows, within its limit |
| `Budgets.BudgetTracker.ClockMeans` | src/patchcage/harness/budgets.py:46-57 | time is up exactly once as many seconds have passed since the start as the limit says |
| `Supervision.OneMorePatch` | src/patchcage/harness/loop_supervisor.py:121-136 | a patch let through never closes an A, B, A pattern in the history |
| `Supervision.FailuresAreFailedTurns` | src/patchcage/harness/loop_supervisor.py:96-119 | the failures counted for a signature are the failed turns under it, each once |
| `Supervision.NoProgressIsTheTail` | src/patchcage/harness/loop_supervisor.py:96-119 | the stagnation counter is the length of the stretch of turns without progress at the end of the record |
| `Supervision.LoopSupervisor.constructor` | src/patchcage/harness/loop_supervisor.py:59-63 | counters and history begin empty |
| `Supervision.LoopSupervisor.EvaluateAction` | src/patchcage/harness/loop_supervisor.py:65-94 | an action is blocked exactly once its signature has failed the allowed number of times |
| `Supervision.LoopSupervisor.RecordActionResult` | src/patchcage/harness/loop_supervisor.py:96-119 | failures are counted per signature, no signature is let through and fails more often than allowed, and the stagnation counter is the number of turns since one made progress |
| `Supervision.LoopSupervisor.EvaluatePatch` | src/patchcage/harness/loop_supervisor.py:121-136 | a patch is blocked exactly if recording it would flip back |
| `Supervision.LoopSupervisor.RecordPatch` | src/patchcage/harness/loop_supervisor.py:138-139 | the hash joins the end of the history and nothing else changes |
| `Checks.MetOneMore` | src/patchcage/harness/runner.py:559-562 | a ladder with one more result is met so far exactly if it was and the result is as expected |
| `Checks.LadderMetIff` | src/patchcage/harness/runner.py:127-146 | a ladder is met if and only if all four checks were run and each said what it must: passed where a pass or no finding is wanted, failed with exit code 1 where a finding is, with the marker in the summary where the vulnerability is to be reproduced |
| `RunHistory.LadderSnoc` | src/patchcage/harness/runner.py:552-554 | one more check, a tick later, extends the record of a ladder |
| `RunHistory.LadderIsReal` | src/patchcage/harness/runner.py:541-563 | the results of a ladder in a real history are, one by one, what the checks of an open session answered |
| `RunHistory.RealThroughout` | src/patchcage/harness/runner.py:193-427 | every beginning of a real history is real, and its questions were put earlier |
| `RunHistory.SumsAreCounts` | src/patchcage/harness/runner.py:193-427 | the sums kept of a history are the numbers of its answers, tool calls, patches, ladders, replay sessions and results |
| `RunHistory.SameSignatureIff` | src/patchcage/harness/runner.py:316-322 | two answers are supervised as the same action if and only if they do the same in the same phase on the same candidate |
| `RunHistory.BooksAreTrue` | src/patchcage/harness/runner.py:316-427 | the books of a disciplined history are those of its operations: failures per signature, diffs that landed, turns |
| `RunHistory.FailsAtMost` | src/patchcage/harness/loop_supervisor.py:65-94 | in a disciplined history no action, under the signature that its own content, the phase and the candidate give it, was carried out and failed more often than allowed |
| `RunHistory.DutyWasAnswered` | src/patchcage/harness/runner.py:290-324 | what the runner owes the model is an answer the model really gave, and the signature it is supervised under names that action |
| `RunHistory.CarriedOutInOrder` | src/patchcage/harness/runner.py:317-363 | wherever an operation for the model stands in a real history, the model had asked for exactly that, its signature had failed less often than allowed, a tool is one that the model may see and a diff one that the policy lets pass |
| `Runner.HarnessRunner.Advance` | src/patchcage/harness/runner.py:565-567 | a transition outside the table is refused and recorded, any other is taken |
| `Runner.HarnessRunner.Conclude` | src/patchcage/harness/runner.py:580-597 | one transition and one saved result, or a refusal without effect |
| `Runner.HarnessRunner.Book` | src/patchcage/harness/runner.py:359-369 | the turn due goes on record with the supervisor and in the history at once, let through exactly if the supervisor let it through and successful exactly if its operation was, and settles a failed operation |
| `Runner.HarnessRunner.RunCheck` | src/patchcage/harness/runner.py:553-558 | what is recorded and returned is what the session answers to this check, now |
| `Runner.HarnessRunner.RunLadder` | src/patchcage/harness/runner.py:541-563 | the checks in their fixed order on an open session, each result the answer of the session, cut short only when failing fast, with the verdict exactly when all expectations are met |
| `Runner.HarnessRunner.RunToolAction` | src/patchcage/harness/runner.py:479-501 | an unknown tool costs a policy violation and nothing is carried out; any other costs a tool call and is called once, with the model's own arguments, and the outcome is what the session answered |
| `Runner.HarnessRunner.RunPatchAction` | src/patchcage/harness/runner.py:503-529 | a patch lands exactly if the policy and the supervisor let it pass and the session takes it; its hash then joins the history, and otherwise the history stays |
| `Runner.HarnessRunner.CleanReplay` | src/patchcage/harness/runner.py:531-539 | a fresh session is opened, takes exactly the candidate, answers the full ladder, and is left, whatever happens inside |
| `Runner.HarnessRunner.ReadCandidate` | src/patchcage/harness/runner.py:364-365 | the candidate and its hash are those of the text the work session gives back |
| `Runner.HarnessRunner.AskModel` | src/patchcage/harness/runner.py:276-310 | the action taken up is what the model answers, now; once time is up it is not asked; every question costs a model turn or an invalid output, or ends the run |
| `Runner.HarnessRunner.HandlePatch` | src/patchcage/harness/runner.py:351-415 | a patch that did not land goes on record as a failed turn and the run goes on whatever the stagnation; one that landed is verified, then replayed and approved, repaired, or given up |
| `Runner.HarnessRunner.HandleAction` | src/patchcage/harness/runner.py:316-427 | every answer is supervised under the signature of its own action and comes to one turn: blocked, carried out, or excused |
| `Runner.HarnessRunner.TakeTurn` | src/patchcage/harness/runner.py:275-427 | a pass puts at most one turn on record, and if the run has then stagnated too long it goes on if and only if that turn is a patch that was let through and did not land |
| `Runner.HarnessRunner.StagnatesUnnoticed` | src/patchcage/harness/runner.py:356-363 | the failing input: after three rejected patches the stagnation limit is reached and the loop goes on |
| `Runner.HarnessRunner.RunLoop` | src/patchcage/harness/runner.py:275-427 | at most model_turns + invalid_outputs + 1 passes, within all budgets |
| `Runner.HarnessRunner.RunBaseline` | src/patchcage/harness/runner.py:250-269 | the run goes on only if the session's answers meet all four baseline expectations; otherwise they really missed one |
| `Runner.HarnessRunner.LeaveSession` | src/patchcage/harness/runner.py:248-249 | the session is left once, and leaving it can raise after the result was saved, without losing it |
| `Runner.HarnessRunner.RunBody` | src/patchcage/harness/runner.py:215-248 | how the body can end, for every behaviour of gateway and session |
| `Runner.HarnessRunner.Cancel` | src/patchcage/harness/runner.py:429-439 | a cancellation after the result returns it; before it the run is cancelled and saved once |
| `Runner.HarnessRunner.Recover` | src/patchcage/harness/runner.py:443-477 | every other exception ends the run once, and a first-phase failure of the health question is refused by the table |
| `Runner.HarnessRunner.Run` | src/patchcage/harness/runner.py:193-477 | for every environment: the record is what the environment answered, every session opened is left, the phase table, budgets and supervision are kept, at most one result is saved; a saved result, returned or not, awaits approval with evidence or is in a terminal phase that something in the environment or the budgets warrants; exceptions that get out were raised by the environment; and a transition outside the table is attempted if and only if the health question fails with an unexpected error |
| `Runner.HarnessRunner.ApprovalHappened` | src/patchcage/harness/runner.py:248-403 | behind every result that awaits approval, saved or returned: the sessions themselves answered with all four baseline expectations met, the model asked for a diff that the policy lets pass, the work session took it and gave back the candidate, its checks were met, and a fresh session took that very candidate and met them again |
| `Runner.ApprovedHappened` | src/patchcage/harness/runner.py:248-403 | a real history of the approved shape happened, question by question, one tick after the other |
| `Runner.ReplayHappened` | src/patchcage/harness/runner.py:531-539 | the end of a real history that replays a candidate: a session was opened, took the candidate, answered the checks, was left in order |
| `Runner.PatchHappened` | src/patchcage/harness/runner.py:351-365 | a diff that landed in a real history was asked for by the model after nothing else was due, inspected, taken by the session, and read back |
| `Runner.HarnessRunner.SupervisionHolds` | src/patchcage/harness/runner.py:316-369 | over the whole run, which is real, no action is carried out and fails more often than allowed under its signature, counted operation by operation; the landed diffs never flip back and are the patch history, and the stagnation counter is that of the turns on record |
| `Runner.HarnessRunner.BudgetsHold` | src/patchcage/harness/runner.py:275-427 | over the whole run so many answers, tool calls, patches, ladders of the patched code and replays stand on record as the limits allow, at most, and one saved result |
| `Persistence.CrashNeverForges` | src/patchcage/harness/runner.py:617-644 | after a crash anywhere in saving, also in the middle of a write, an export refuses or hands out exactly the candidate and evidence of that run |
| `Persistence.SavedRunIsExportable` | src/patchcage/engine_cli.py:60-116 | a run awaiting approval that was saved to the end is exported with its candidate and evidence |
| `Persistence.TamperingIsRefused` | src/patchcage/engine_cli.py:94-104 | whatever happened to the other files, a state file lets through nothing but its own candidate and evidence |
| `Persistence.ExportIsAtomic` | src/patchcage/engine_cli.py:107-115 | wherever a crash hits an export, the bundle is there completely or not at all |
| `Persistence.BundleArrives` | src/patchcage/engine_cli.py:108-113 | an export that finishes leaves exactly the patch and the evidence |
| `Persistence.ExportSparesTheRun` | src/patchcage/engine_cli.py:54-57 | no step of an export changes the run directory |
| `Persistence.GateMeans` | src/patchcage/engine_cli.py:60-104 | an export is refused for its first obstacle, told from files, state and arguments, and goes through if and only if there is none; then the patch has the reviewed hash |
| `Persistence.InPlaceIsRefusedIff` | src/patchcage/engine_cli.py:60-106 | a run that awaits approval with every artifact in place is refused if and only if the destination is inside the run or exists, or the reviewed hash differs |
| `Persistence.NothingElseSaved` | src/patchcage/harness/runner.py:617-644 | saving touches its artifacts and nothing else, and no pending file stays |
| `Persistence.FileSystem.Persist` | src/patchcage/harness/runner.py:617-644 | the writes of saving, in the order of the plan |
| `Persistence.FileSystem.ExportRun` | src/patchcage/engine_cli.py:60-116 | an export succeeds exactly if nothing stands in its way, each refusal names an obstacle that is really there, a patch comes out only if it has the reviewed hash, and then exactly the candidate and the evidence stand at the destination, by the steps of the export plan |
| `RunExport.BackedIsApprovable` | src/patchcage/harness/runner.py:396-403 | a result backed by evidence saves the hash of its own candidate |
| `RunExport.ExportedPatchWasReplayed` | src/patchcage/engine_cli.py:60-116 | run, save with a crash anywhere, export: behind a patch that comes out, the sessions really met the baseline, took the model's inspected diff, gave back that patch, and met every check on the work session and again in a fresh one that took that very patch |
| `Publication.EveryRunIsSafe` | cli/packages/ai/src/models.ts:320-365 | in every interleaving of refreshes, provider changes, aborts and publications the invariant of the protocol holds |
| `Publication.StepKeepsInvariant` | cli/packages/ai/src/models.ts:338-365 | every step, from every state that satisfies it, keeps the invariant |
| `Publication.MutationsNeverOverlap` | cli/packages/ai/src/models.ts:344-353 | at most one store mutation of a provider runs at a time |
| `Publication.SupersededNeverOverwrites` | cli/packages/ai/src/models.ts:347-356 | updates in memory run under the current generation and in non-decreasing generation order |
| `Publication.UpdateSeesItsEntry` | cli/packages/ai/src/models.ts:349-356 | when a publication updates the models, the store shows exactly what it persisted |
| `Publication.MutationsStartInOrder` | cli/packages/ai/src/models.ts:346-353 | store mutations start in non-decreasing generation order |
| `PublicationArrival.CurrentUntil` | cli/packages/ai/src/models.ts:320-336 | a refresh stays current until it is superseded, another one begins or its caller aborts it; nothing else ends it and nothing brings it back |
| `PublicationArrival.ChangeStopsTheRefresh` | cli/packages/ai/src/models.ts:320-336 | over every run a refresh that was begun and has not finished is aborted by the next change of its provider, whatever happened meanwhile |
| `PublicationArrival.ResumePublishesIff` | cli/packages/ai/src/models.ts:345-358 | a publication in its turn with nothing left to store updates the models if and only if its refresh is current, as one more update under the current generation, and is given up otherwise |
| `PublicationArrival.ResumeStoresIff` | cli/packages/ai/src/models.ts:345-353 | a publication in its turn begins its store mutation if and only if its refresh is current, and is given up otherwise |
| `PublicationArrival.WaitsItsTurn` | cli/packages/ai/src/models.ts:344-346 | while one before it is not over a publication waits |
| `PublicationArrival.PublicationArrives` | cli/packages/ai/src/models.ts:338-358 | over every run: a publication that resumes while current with everything before it over, whose mutation goes well and that is still current when it resumes again, whatever happens between, leaves its entry in the store and its update in memory and counts as published |
| `PublicationArrival.GivenUpForAReason` | cli/packages/ai/src/models.ts:345-358 | over every run a publication is given up only because its refresh was aborted or superseded or because its store mutation failed |
| `PublicationArrival.OnePublication` | cli/packages/ai/src/models.ts:338-358 | the shortest run: one refresh and one publication end published |
| `ProviderRefreshes.ModelsRegistry.SupersedeProviderRefresh` | cli/packages/ai/src/models.ts:320-329 | a new generation, the controller dropped and its refresh aborted, for that provider only |
| `ProviderRefreshes.ModelsRegistry.BeginProviderRefresh` | cli/packages/ai/src/models.ts:331-336 | a refresh begins under a new generation with its own controller |
| `ProviderRefreshes.ModelsRegistry.FinishRefresh` | cli/packages/ai/src/models.ts:431-435 | the controller is forgotten unless a newer one took its place |
| `ProviderRefreshes.ModelsRegistry.PublishProviderModels` | cli/packages/ai/src/models.ts:338-365 | a publication queues behind the last one of its provider |
| `ProviderRefreshes.ModelsRegistry.ResumePublication` | cli/packages/ai/src/models.ts:345-358 | a publication goes on only in its turn, unaborted and current, and then stores, or updates the models and counts as published |
| `ProviderRefreshes.ModelsRegistry.EndMutation` | cli/packages/ai/src/models.ts:349-353 | a finished mutation leaves its entry in the store, a failed one anything |
| `ProviderRefreshes.ModelsRegistry.ForgetChain` | cli/packages/ai/src/models.ts:361-363 | the chain is taken down only by its last publication |
| `ProviderRefreshes.ModelsRegistry.ClearProviders` | cli/packages/ai/src/models.ts:279-284 | each listed provider takes exactly the superseding step, the others none |
| `ProviderRefreshes.ModelsRegistry.EveryProvider` | cli/packages/ai/src/models.ts:320-365 | whatever the methods have done, the protocol invariant holds for every provider |
| `ClientRequests.EveryRunIsSafe` | cli/packages/client/src/client.ts:189-353 | over every run each request is pending or settled exactly once, results reach only requests for their command, and each handshake settles once |
| `ClientRequests.NothingPendsWithoutConnection` | cli/packages/client/src/client.ts:321-353 | after a disconnect or dispose every request issued has settled exactly once |
| `ClientRequests.StaleDataIsIgnored` | cli/packages/client/src/connection.ts:142-144 | a chunk on a superseded connection changes nothing |
| `ClientRequests.OutcomesAreFinal` | cli/packages/client/src/client.ts:189-207 | an outcome once reached stays, and no request id is issued twice, across reconnects too |
| `ClientOutcomes.ResponseSettles` | cli/packages/client/src/client.ts:300-318 | a successful response of the right command resolves the pending request with its id, an error response rejects it, and nothing else changes |
| `ClientOutcomes.OtherCommandGoesDown` | cli/packages/client/src/client.ts:305-312 | a successful response of another command rejects its request as such and takes the connection down with all others |
| `ClientOutcomes.StrayMessageGoesDown` | cli/packages/client/src/client.ts:294-304 | a response to nothing, a second greeting or a greeting error takes the connection down, an event changes nothing |
| `ClientOutcomes.RequestWaits` | cli/packages/client/src/client.ts:189-207 | a request that is sent waits under the next id, and nothing else changes |
| `ClientOutcomes.RequestFails` | cli/packages/client/src/client.ts:189-207 | a request that cannot be encoded fails by itself, one that cannot be sent takes the connection down |
| `ClientOutcomes.HandshakeConnects` | cli/packages/client/src/connection.ts:66-198 | connecting, the transport opening and the greeting make a connection, and the handshake settles once |
| `ClientOutcomes.GreetingComesFirst` | cli/packages/client/src/connection.ts:142-177 | a connection is given up when data comes before its transport is open, when a chunk cannot be decoded, and when anything but the greeting comes first |
| `ClientOutcomes.ConnectionEnds` | cli/packages/client/src/connection.ts:81-119 | whatever ends the current connection ends it with everything pending, and does nothing for another connection |
| `ClientOutcomes.OutcomesAreExplained` | cli/packages/client/src/client.ts:189-353 | over every run a request resolves only by a successful response with its id and command, is rejected by the server only by an error response, as a wrong command only by a response of another, as not encodable only if it was, as disposed only if the client was, as lost only if the connection went |
| `ClientOutcomes.ResultsArrive` | cli/packages/client/src/client.ts:300-318 | over every run a successful response with id and command of a pending request that arrives on the current connection resolves it, for good |
| `ClientRequests.StepKeeps` | cli/packages/client/src/connection.ts:66-235 | every handler keeps the invariant |
| `ProtocolClients.ProtocolClient.Connect` | cli/packages/client/src/connection.ts:66-78 | only a disconnected client connects, under a new connection id; the protocol invariant is kept |
| `ProtocolClients.ProtocolClient.OpenTransport` | cli/packages/client/src/connection.ts:127-132 | a transport is taken only by the connection that asked for it; the protocol invariant is kept |
| `ProtocolClients.ProtocolClient.LoseTransport` | cli/packages/client/src/connection.ts:81-86 | a closed or failing transport matters only to the current connection; the protocol invariant is kept |
| `ProtocolClients.ProtocolClient.SendCommand` | cli/packages/client/src/client.ts:189-207 | a request gets the next id and waits, or settles at once when it cannot be sent; the protocol invariant is kept |
| `ProtocolClients.ProtocolClient.ReceiveResponse` | cli/packages/client/src/client.ts:300-318 | a response settles the request with its id, by its own command, or takes the connection down |
| `ProtocolClients.ProtocolClient.ReceiveMessages` | cli/packages/client/src/connection.ts:156-159 | the loop over one chunk stops once the connection is gone, which is to ignore the rest |
| `ProtocolClients.ProtocolClient.ReceiveData` | cli/packages/client/src/connection.ts:142-160 | data before the transport is open, or that cannot be decoded, takes the connection down; the protocol invariant is kept |
| `ProtocolClients.ProtocolClient.FailConnection` | cli/packages/client/src/connection.ts:225-231 | the open handshake and every pending request fail together with the connection |
| `ProtocolClients.ProtocolClient.DisposeClient` | cli/packages/client/src/client.ts:342-353 | dispose rejects everything pending, once; the protocol invariant is kept |
| `SessionLeases.StepIff` | cli/packages/client/src/client.ts:151-177 | from a sound state a step keeps count, exclusivity, single release and lone detaches if and only if it is harmless, where the harmful steps are named by conditions checked before the step |
| `SessionLeases.RunsAreSoundIffSafe` | cli/packages/client/src/client.ts:151-400 | at every moment of a run the count is the number of live tokens, a live exclusive token is the only one, each token is given back at most once and no detach is sent while another lease is active, if and only if every step of the run is harmless; nothing else is in the equivalence |
| `SessionLeases.SoundRunMeans` | cli/packages/client/src/client.ts:381-400 | in a run of harmless steps two leases active at once are both shared, and the count knows of both |
| `SessionLeases.RemovedDuringAcquire` | cli/packages/client/src/client.ts:395-407 | the failing run with a session removed during an acquisition |
| `SessionLeases.RemovedDuringDetach` | cli/packages/client/src/client.ts:237-253 | the failing run with a session removed while its last lease detaches |
| `SessionLeases.LeaseInTheShadowOfAFailedDetach` | cli/packages/client/src/client.ts:254-266 | the failing run with a lease acquired behind a detach that then fails: the next acquisition sends its clean-up detach while that lease is active |
| `LeaseGrants.GrantedIff` | cli/packages/client/src/client.ts:381-393 | from a sound state an acquisition gets a token if and only if a shared one is wanted and only shared ones are in hand, or an exclusive one and none is; a refused one changes nothing |
| `LeaseGrants.SharedIsShared` | cli/packages/client/src/client.ts:151-177 | on every safe run a shared lease is granted for as long as nobody holds the session alone |
| `LeaseGrants.AcquisitionArrives` | cli/packages/client/src/client.ts:151-177 | an acquisition that nothing stands in the way of is a lease at once if the session is attached, and otherwise once its attach request is answered well |
| `LeaseGrants.AcquisitionWaits` | cli/packages/client/src/client.ts:151-160 | while a detachment is under way an acquisition waits for it and sends nothing |
| `LeaseGrants.CleanupComesFirst` | cli/packages/client/src/client.ts:363-379 | with a clean-up owed an acquisition attaches only after a detach request was answered well, and gives up if it was not |
| `LeaseGrants.AcquisitionEndsForAReason` | cli/packages/client/src/client.ts:151-177 | an acquisition becomes a lease only by its attach reply or an attached session with no clean-up owed, and is given back only because its attach or its clean-up failed |
| `LeaseGrants.LeaseEndsForAReason` | cli/packages/client/src/client.ts:231-266 | a lease stays usable until its holder releases it, the session is removed or the connection goes |
| `LeaseGrants.InvalidationEndsAll` | cli/packages/client/src/client.ts:402-412 | no lease outlives the removal of its session or the loss of the connection |
| `LeaseGrants.ReleaseIsSparing` | cli/packages/client/src/client.ts:231-252 | releasing one of several leases just gives it back, releasing the last one sends one detach request and keeps the token in hand meanwhile |
| `LeaseGrants.DetachIsDecided` | cli/packages/client/src/client.ts:237-266 | a detach that succeeds gives the token back; one that fails leaves the lease as it was, or gives it back with a clean-up owed |
| `LeaseTables.LeaseTable.ReserveSessionLease` | cli/packages/client/src/client.ts:381-393 | a reservation is refused exactly by an existing lease or an exclusive one, and otherwise counted |
| `LeaseTables.LeaseTable.ReleaseSessionLease` | cli/packages/client/src/client.ts:395-400 | a release lowers the count and drops its own exclusive mark, whatever the generation |
| `LeaseTables.LeaseTable.InvalidateSessionLeases` | cli/packages/client/src/client.ts:402-407 | count, exclusive mark and owed clean-up go, and the generation rises |
| `LeaseTables.LeaseTable.InvalidateAllSessionLeases` | cli/packages/client/src/client.ts:409-412 | every session with leases is invalidated, the others only lose their owed clean-up |
| `LeaseTables.LeaseTable.ConnectionLost` | cli/packages/client/src/client.ts:321-328 | a lost connection is one step of the protocol for every session at once, and on record for every one |
| `LeaseTables.LeaseTable.AcquireSession` | cli/packages/client/src/client.ts:151-160 | an acquisition reserves first, then waits for a detachment under way or goes on |
| `LeaseTables.LeaseTable.ResumeAcquire` | cli/packages/client/src/client.ts:155-176 | an acquisition goes on after the detachment or clean-up it waited for, or gives its token back |
| `LeaseTables.LeaseTable.AttachAnswered` | cli/packages/client/src/client.ts:160-176 | an attach reply makes the lease active in the generation of that moment, or gives the token back |
| `LeaseTables.LeaseTable.ReleaseLease` | cli/packages/client/src/client.ts:231-252 | the last lease detaches from the server, any other is just given back |
| `LeaseTables.LeaseTable.DetachAnswered` | cli/packages/client/src/client.ts:240-249 | a detach reply ends the detachment and gives the token back, or reports the failure |
| `LeaseTables.LeaseTable.DetachRejected` | cli/packages/client/src/client.ts:254-266 | a failed detach is forgotten if invalidated, else gives the lease up with a clean-up owed, or keeps it |
| `LeaseTables.LeaseTable.CleanupAnswered` | cli/packages/client/src/client.ts:363-379 | the reply to a clean-up reaches everyone who waits for it and clears the debt if it went well |
| `LeaseTables.LeaseTable.SessionRemoved` | cli/packages/client/src/client.ts:294-299 | a removed session loses its leases and its attachment |
| `LeaseTables.LeaseTable.EverySession` | cli/packages/client/src/client.ts:151-400 | whatever the methods have done, a session keeps its promises at every moment if and only if every step taken for it was harmless |
| `PathNames.SafeNameIsNormal` | src/patchcage/snapshot/service.py:128-136 | an accepted member name is a non-empty join of proper pieces, without NUL, backslash or parent steps |
| `PathNames.NormalIsKept` | src/patchcage/policy/paths.py:25-38 | a normal name is accepted and left as it is |
| `PathNames.SafeNameIff` | src/patchcage/snapshot/service.py:128-136 | a name is accepted if and only if it does not start at the root, has no NUL and no backslash, no parent step, and names something; the accepted name has just its proper pieces, in order |
| `Archive.OneMore` | src/patchcage/snapshot/service.py:162-193 | one more member is acceptable exactly if it is sound by itself, new by name, and still fits |
| `Archive.AcceptableIff` | src/patchcage/snapshot/service.py:161-193 | a member list is accepted if and only if every member is a directory or a readable file within the limit under a safe name that is not blocked, never a link or anything special, no two have the same safe name, and the files together fit |
| `Archive.CheckMember` | src/patchcage/snapshot/service.py:162-193 | a member is refused exactly if it does not fit, with the code of the first check it fails |
| `Archive.CanonicalMeans` | src/patchcage/snapshot/service.py:195-208 | the output holds, sorted by name, one file for every regular member, with its safe name, permission bits and bytes, one directory for every directory member, and nothing else |
| `Archive.Collect` | src/patchcage/snapshot/service.py:161-193 | the loop accepts a member list if and only if every member is sound, names are distinct and the total fits, and then holds the names, files and total of that list; otherwise the code tells what is wrong with the first member that cannot be taken |
| `Archive.Sanitize` | src/patchcage/snapshot/service.py:148-218 | accepted exactly when acceptable, with directories and files sorted by name and exactly those of the members; refused with the code of the first member that cannot be taken |
| `Archive.OrderDoesNotMatter` | src/patchcage/snapshot/service.py:148-218 | a member list is accepted if and only if every permutation of it is, with the same output |
| `Archive.SanitizingTwiceIsOnce` | src/patchcage/snapshot/service.py:195-218 | sanitising the output again accepts it and changes nothing |
| `NameOrder.SortedIsUnique` | src/patchcage/snapshot/service.py:199-208 | a set of entries with distinct names has only one sorted list |
| `NameOrder.LessIff` | src/patchcage/snapshot/service.py:199-208 | names are ordered by their first difference, and a proper beginning comes first |
| `RecordStream.ValueOfDigits` | src/patchcage/snapshot/service.py:215 | the number written into a record reads back, in octal and in decimal |
| `RecordStream.SampleStream` | src/patchcage/snapshot/service.py:206-216 | the format on one directory and one file |
| `RecordStream.FirstRecord` | src/patchcage/snapshot/service.py:206-216 | the first record of a stream and what follows it are determined by the stream |
| `RecordStream.StreamIsUniquelyReadable` | src/patchcage/snapshot/service.py:206-216 | equal hash pre-images come from equal records |
| `RecordStream.SameStreamSameArchive` | src/patchcage/snapshot/service.py:199-216 | equal pre-images mean equal directories and equal name, mode, length and digest lists |
| `RecordStream.RealNamesAreStable` | src/patchcage/snapshot/service.py:128-136 | the path normalisation of the code leaves its own output alone, as re-sanitising needs |
| `RecordStream.SanitizedIsHashable` | src/patchcage/snapshot/service.py:199-216 | every accepted archive has names without NUL, so its records can be read back |

## Left out

- CBOR encoding, schema checks and the decoding of server messages: messages are abstract values and a chunk that cannot be decoded is one case.
- Docker, MCP, git, HTTP, sockets and model gateways: they are oracles that may return or raise anything.
- GitIgnore patterns, secret and reserved path tests, SHA-256, tar bytes, JSON text, streaming JSON and UTF-8 decoding: functions given from outside, with a hash taken as injective only in `Persistence.TamperingIsRefused` and JSON as round-tripping where a saved state is read.
- Timestamps of messages, and the texts of most error messages.
- OAuth and credential resolution, `createProvider`'s merge of static and fetched models, header merging, cost formulas, thinking levels, model catalogs, telemetry, the terminal interface and all entry points.
- Callbacks that throw inside the agent loop and `handleRunFailure`: runs are those whose callbacks do not throw, as the event trace is promised for those only.
- Listeners that call back into the client or the agent while they are being notified.
- Identity of objects in emitted events: a pushed event holds the value of the message at that moment, not the shared partial message.
- Snapshots and listeners of `ClientState`: only which sessions are attached.
- Attach requests shared between concurrent acquisitions are one reply per token, so that a shared reply is a run of equal replies.
- The order in which promise reactions run is not fixed: every order is a run, so the theorems hold for the order of the runtime too.
- Symbolic links and unreadable files in an export: paths are resolved and files readable.
- ToolCalls.Truncated: the notice of a truncated call is abridged, because its wording is not the point.
- RunExport.PhaseName: spells only the phase name the export looks at.
- AgentRunning.AgentRun.RunLoop: a run is followed for as many turns as the script of the environment has, because a loop that an environment can keep going for ever has no bound of its own.
- Runner.HarnessRunner.Run: saving and the event sink do not fail, and a budget is exceeded only by the tracker itself, never by an exception a session makes up.
- ProviderRefreshes.ModelsRegistry.EndMutation: a store mutation that fails may leave any entry behind, because the store is not part of the repository's promise.
