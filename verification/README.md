# Nannos, verified in parts

A Dafny model of six parts of the Nannos platform, each proved against what its code and comments
promise.

| files | part |
|---|---|
| `ChatTurn`, `ChatKeys`, `ChatServer`, `ChatProtocol`, `ChatBackend`, `ChatOwnership`, `ChatReply`, `ChatThoughts`, `ChatRepeats`, `ChatFeed`, `ChatResume`, `ChatSegments`, `ChatEnds` | the console backend's chat turns |
| `Capabilities`, `Probe`, `ProbeVerdicts`, `StreamAssembly` | the model registration probe and its stream reader |
| `RequestRewrite`, `RequestHook`, `SchemaClosing`, `Billing`, `UsageQueue` | the LiteLLM proxy's hooks, billing and usage delivery |
| `Frontmatter`, `FrontmatterPrint`, `FrontmatterParser`, `FrontmatterDocument`, `FrontmatterScalars` | the frontmatter parser of the vite plugin |
| `ScheduledRun` | parked and resumed scheduled runs |
| `Origins` | the origin allowlist |
| `Common` | options, and the stripping of blanks |

**Chat turns.** `ChatTurn` states the await-free sections as functions on one conversation's shared
slots. `ChatServer.Server` is the code: the five module dictionaries as fields, methods that update
them, each proved to do what its section says to its own conversation and nothing to any other
(this is where the assumption that ids contain no `:` is used). `ChatProtocol` lets sends, events,
turn progress, database failures, cancels, disconnects, joins and snapshots interleave in any order.
A step is what the code does between two `await`s, or a piece of it, so that the theorems, which
quantify over every schedule, hold of every run of the code and of some others; the runs of the code
alone are those with `ChatProtocol.Real`, and every example is one of them. `ChatBackend` joins the
two: whatever calls of whatever conversations interleave on the server, each conversation's
dictionaries are where its own run of the protocol leads. `ChatEnds` says what each kind of event does
without the server's own tests on events.

**Probe.** `Prober` is the algorithm over an arbitrary oracle. Its log of requests and answers is the
evidence every verdict is measured against; `ProbeVerdicts` reads every flag off the status codes,
messages and replies in it. `RequestRewrite.NoRefusedPairIsSent` and `AnsweredPairIsSent` tie the record
to what the proxy sends.

**Proxy.** `RequestHook` keeps messages, tools and content parts as shared mutable objects: that a
failover attempt cannot disturb the next is a matter of which objects are written. A response schema
is a graph of nodes closed in place. The usage queue is a class whose methods refine a state machine.

**Frontmatter.** The printer takes a document with every freedom the syntax leaves (quotes, folds,
indents, blanks, comments, line endings) and the parser undoes it; `FrontmatterScalars` says what an
accepted text can be.

**Scheduled runs.** The derivation of task ids is an injective function (version 5 UUIDs, section 5.5
of RFC 9562); the in-process server's rule for proposed ids is part of the chain.

## Where the code falls short of its promise

Each of these is a proved counterexample, with the condition under which the promise does hold.

- A send that arrives after a turn's task ended and before its handler tore it down inherits the
  turn's reply buffer and remembered answer (`ChatOwnership.OverlappingStartInherits`,
  `ChatRepeats.OverlapDropsNewText`). No residue stays in any run (`ChatOwnership.NoResidue`); a dropped
  status repeats its own turn's answer exactly under the condition of `ChatRepeats.RepeatsAreStored`,
  which calm runs meet: those in which no send starts a turn before earlier handlers have torn down.
- A cancelled turn goes on streaming until its cancellation takes effect; a turn started meanwhile
  shares the buffer, and emissions may leave in another order than they were accumulated. By the
  client rule the server's documentation states, a resumed client then shows the pieces in the wrong
  order; the shipped widget, which moves its offset on with every chunk, loses one
  (`ChatResume.OverlapReorders`). Contiguous emission is the exact condition
  (`ChatResume.ExactMeansContiguous`), and a segment with one writer always has it.
- Within one turn the server's offsets start again at 0 when a last chunk pops the buffer, while the
  widget keeps its offset: chunks of the next segment up to it are lost
  (`ChatSegments.NextSegmentIsLost`, and `ChatSegments.NextSegmentIsShown` for exactly which).
- A context id with a `:` is within the reach of another's prefix match, exactly as
  `ChatKeys.PrefixReach` says.
- A probe that sees a stored thinking switch refused and then breaks off leaves the switch in the
  record (`Probe.StaleSwitchHappens`).
- A floor request that fails transiently with an empty reason drops the row of the report
  (`Probe.ReportIsPlanUnlessFloorLost`), and with it the "no floor" that a level refused before calls
  for. When the pinned deployment is not listed and the whole stored record is kept, a stored floor
  just refused survives (`Probe.StaleFloorHappens`). `Probe.MergedRecordIsSound` shows that this and
  the switch are the only ways.
- A lone `total_tokens` next to cache-only usage is billed as base input
  (`Billing.BillIsShapeIndependent`).
- Keys and sub-keys named like members of `Object.prototype` are rejected as repeated
  (`FrontmatterPrint.RoundTrip`).
- A repeated fresh run on a context strands its park (`ScheduledRun.SecondStartIsStranded`); that is
  the only way (`ScheduledRun.AnswersReachTheirTask`), and the scheduler gives every run its own
  context.
- A payload that holds U+0085, U+2028 or U+2029 raw is cut by `splitlines` and lost
  (`StreamAssembly.LineSurvives`).

## Model

| member | source | states |
|---|---|---|
| `ChatKeys.KeyInjective` | packages/console-backend/app.py:1294 | distinct (conversation, agent) pairs have distinct buffer keys when ids contain no `:` |
| `ChatKeys.PrefixIsOwnership` | packages/console-backend/app.py:976-977 | a key starts with `c:` exactly when it belongs to conversation `c` |
| `ChatKeys.PrefixReach` | packages/console-backend/app.py:976-977 | for a colon-free `c` and any other id: the match finds its keys if and only if it is `c` or starts with `c:` |
| `ChatKeys.ColonsBreakOwnership` | packages/console-backend/app.py:976-977 | an id with a `:` is within the reach of another |
| `ChatKeys.WriteKey` | packages/console-backend/app.py:1294-1301 | writing one key extends one agent's thoughts of one conversation and no other |
| `ChatKeys.RemoveKey` | packages/console-backend/app.py:1100-1103 | popping one key removes one agent's thoughts of one conversation and no other |
| `ChatKeys.RemovePrefix` | packages/console-backend/app.py:976-979 | removing every key with the prefix empties the conversation and touches no other |
| `ChatServer.Server.AccumulateReplyBuffer` | packages/console-backend/app.py:932-954 | the buffer grows by the chunk; the offset is the length of the buffer that already contains it; other conversations are untouched |
| `ChatServer.Server.CaptureEvent` | packages/console-backend/app.py:1264-1305 | a prompt is captured, a thought appended, for this conversation alone |
| `ChatServer.Server.AppendThought` | packages/console-backend/app.py:1290-1301 | the agent's buffer grows by the text, every other buffer of every conversation stays |
| `ChatServer.Server.PopIntermediate` | packages/console-backend/app.py:1100-1104 | one pop of the flush: the agent's whole text, or nothing when another coroutine took it |
| `ChatServer.Server.DropThoughts` | packages/console-backend/app.py:976-979 | the prefix loop empties this conversation's thoughts and no other's |
| `ChatServer.Server.ClearTurnState` | packages/console-backend/app.py:957-979 | all turn state but, on request, the prompt is gone; other conversations are untouched |
| `ChatServer.Server.BeginTurn` | packages/console-backend/app.py:2556-2585 | a send steers exactly when a registered turn still runs; else its turn is registered and the answered prompt dropped |
| `ChatServer.Server.TeardownTurn` | packages/console-backend/app.py:2597-2613 | teardown by identity: a superseded turn changes nothing, an owner clears everything but a pending input-required prompt |
| `ChatServer.Server.Disconnect` | packages/console-backend/app.py:1892-1899 | exactly the finished turns this socket started are forgotten; says whether one still runs |
| `ChatBackend.StepIsSection` | packages/console-backend/app.py:1160-1466 | each step of the protocol does to the shared state what one call of a server method does, a piece of an await-free section, and starts or ends no turn |
| `ChatBackend.EffectNamed` | packages/console-backend/app.py:2604-2607 | sections treat turn objects as the protocol treats turn numbers, identity test included |
| `ChatBackend.Backend.Perform` | packages/console-backend/app.py:664-676 | a server method called at its turn, among any calls for other conversations, moves this conversation one step on in its run of the protocol and no other; its caller is told what the protocol branches on |
| `ChatBackend.Backend.Begin` | packages/console-backend/app.py:2556-2585 | so does a send, which starts a turn exactly when the protocol does |
| `ChatBackend.Backend.End` | packages/console-backend/app.py:2587-2599 | so does the end of a turn's task |
| `ChatBackend.Backend.Drop` | packages/console-backend/app.py:1880-1899 | a disconnect is one disconnect step of every conversation's run |
| `ChatProtocol.AdvanceFrame` | packages/console-backend/app.py:1215-1466 | a turn's own progress moves only that turn and never the registration |
| `ChatOwnership.TurnOwnership` | packages/console-backend/app.py:2556-2613 | in every interleaving, a running turn no cancel has popped is the registered one; hence at most one |
| `ChatOwnership.StaleTeardownIsHarmless` | packages/console-backend/app.py:2597-2607 | the teardown of a superseded turn changes no registration, buffer or prompt |
| `ChatOwnership.OnlyCancelUnregisters` | packages/console-backend/app.py:1892-1899 | while a registered turn runs, no step but a cancel takes it off the register |
| `ChatOwnership.NoResidue` | packages/console-backend/app.py:957-994 | in every run, once every handler has torn down, the conversation is in flight exactly when an input-required prompt with a message is pending, and every buffer is empty |
| `ChatOwnership.CleanStart` | packages/console-backend/app.py:2571-2585 | a turn started after its predecessors were torn down starts on empty state |
| `ChatOwnership.OverlappingStartInherits` | packages/console-backend/app.py:2600-2605 | a run of the code in which a send between a turn's end and its teardown starts on the old half-written reply |
| `ChatOwnership.CalmMeansOnlyLastAlive` | packages/console-backend/app.py:2597-2607 | if no send starts a turn before earlier teardowns, only the last turn is ever alive |
| `ChatOwnership.CancelFreeMeansSolo` | packages/console-backend/app.py:2561-2566 | without a cancel two turns never run at once, however closely sends follow each other |
| `ChatOwnership.PromptSurvives` | packages/console-backend/app.py:2608-2613 | without a cancel, an input-required prompt pending at turn exit stays pending until the next send |
| `ChatOwnership.CapturedPromptIsShown` | packages/console-backend/app.py:1274-1275 | without a cancel, every snapshot shows an input-required prompt from its capture until a send, another prompt, or an event that ends the turn without asking |
| `ChatOwnership.EndedTurnKeepsNoPrompt` | packages/console-backend/app.py:1390-1394 | in every run of the code, a turn that ended without asking leaves no prompt when it saves its last row |
| `ChatReply.ReplyConserved` | packages/console-backend/app.py:1325-1388 | at every step all reply text received is the popped segments in order, then the buffer; the non-blank segments popped at a turn's end are offered to the store once each, in order |
| `ChatThoughts.ThoughtsBeforeAnswers` | packages/console-backend/app.py:1317-1327 | in every interleaving a thought buffer is popped with all its agent thought, and an answer is offered when none of its own turn's thoughts is left to save |
| `ChatThoughts.AloneNothingIsLeft` | packages/console-backend/app.py:1317-1327 | when turns run one at a time, no turn's thought is left then |
| `ChatThoughts.OverlapLeavesThought` | packages/console-backend/app.py:1317-1327 | a run of the code in which a cancelled turn offers its answer while its successor's thought waits |
| `ChatRepeats.RepeatsAreStored` | packages/console-backend/app.py:728-759 | in every run a dropped status begins the row last stored since the state was last cleared; the row is the dropping turn's own if and only if this turn stored an answer after which no other did and nothing was cleared |
| `ChatRepeats.OwnAnswerRemembered` | packages/console-backend/app.py:1376-1378 | that condition is exactly when the remembered answer is the turn's own |
| `ChatRepeats.CalmRepeatsAreOwn` | packages/console-backend/app.py:1376-1433 | in calm runs it always holds |
| `ChatRepeats.OverlapDropsNewText` | packages/console-backend/app.py:728-759 | a run of the code in which an overlapping send makes a new turn's status disappear as a repeat of the old turn's answer |
| `ChatEnds.EveryEndTakesAll` | packages/console-backend/app.py:1307-1394 | in every run: a turn that carries a last chunk, or a status completed, failed, canceled or input-required, through its block takes the whole reply and offers it unless blank, pops every captured thought, and drops the prompt unless the event asks for input or feedback; any other event takes nothing |
| `ChatEnds.EveryEndComes` | packages/console-backend/app.py:1312-1394 | and left alone it always gets there: thoughts, then the reply, then its row |
| `ChatEnds.AllThatIsSaidIsReceived` | packages/console-backend/app.py:932-954 | in every run the reply text received is the text of every artifact that is no sub-agent's, appended or not |
| `ChatEnds.WhatIsCaptured` | packages/console-backend/app.py:1264-1305 | feedback requests and input-required statuses with a message are captured as prompts, sub-agent texts appended to their agent's thoughts, and nothing else |
| `ChatEnds.AfterAnAnswer` | packages/console-backend/app.py:1366-1378 | the stored answer is remembered stripped, and replaces the row of any event but a last chunk or a request for input |
| `ChatEnds.RowOfAnEvent` | packages/console-backend/app.py:1396-1434 | which events leave a row of their own, kind by kind and state by state |
| `ChatEnds.RepeatsAreBeginnings` | packages/console-backend/app.py:728-759 | a plain text repeats exactly when the remembered answer begins with it |
| `ChatEnds.OnlyPlainTextRepeats` | packages/console-backend/app.py:746-756 | messages with extensions or other parts never count as repeats, nor anything when nothing is remembered |
| `ChatEnds.WhatASendDoes` | packages/console-backend/app.py:2556-2585 | a send opens a turn unless the registered turn's task goes on, drops the prompt it answers and leaves every buffer |
| `ChatEnds.WhatADisconnectDoes` | packages/console-backend/app.py:1880-1899 | a disconnect forgets a finished turn of its socket and nothing else |
| `ChatEnds.WhatATeardownLeaves` | packages/console-backend/app.py:2597-2613 | of an owner's state only a request for input stays, and only when the turn was not cancelled; a superseded turn's teardown leaves all |
| `ChatFeed.RunGood` | packages/console-backend/app.py:932-954 | in every run each chunk is the piece of its segment ending at its offset, no snapshot cuts a chunk in two, and a member of the room gets every emission since it joined |
| `ChatResume.ResumeIsExact` | packages/console-backend/app.py:932-941 | in every run: if the segment's chunks were emitted one after the other, snapshot plus uncovered live chunks is the prefix of its reply of length max(snapshot offset, last emitted offset); earlier deliveries are covered in any case |
| `ChatResume.ExactMeansContiguous` | packages/console-backend/app.py:932-941 | for a client present since offset 0 this condition is exact: right after every delivery if and only if emissions were contiguous |
| `ChatResume.OneWriterIsContiguous` | packages/console-backend/app.py:1215-1232 | in every run a segment written by one turn is emitted contiguously |
| `ChatResume.CalmIsContiguous` | packages/console-backend/app.py:2597-2607 | in calm runs every segment is |
| `ChatResume.CaughtUpClientShowsAll` | packages/console-backend/app.py:2747-2761 | once the only writer of the open segment has emitted all it heard, a client shows the whole open reply |
| `ChatResume.WidgetAgrees` | packages/embed-sdk/src/transport/demux.ts:493-512 | while emissions are contiguous, the shipped widget, which also moves its offset on with each chunk, shows the same |
| `ChatResume.OverlapReorders` | packages/console-backend/app.py:2710-2716 | a run of the code in which a cancelled turn overlaps its successor: by the server's rule the pieces come out in the wrong order, in the widget one is lost |
| `ChatSegments.NextSegmentIsShown` | packages/embed-sdk/src/transport/demux.ts:493-512 | in every run a widget present since a contiguous segment began, whatever offset it brings along from an earlier one, shows what was emitted of it whole if and only if every chunk that says something ends beyond that offset |
| `ChatSegments.WidgetTakesChain` | packages/embed-sdk/src/transport/demux.ts:493-512 | otherwise it shows strictly less: what it does not take is lost |
| `ChatSegments.NextSegmentIsLost` | packages/embed-sdk/src/transport/demux.ts:493-512 | a run of the code with one turn in which the widget shows the first segment and nothing of the second |
| `Probe.Prober.Attempt` | packages/ringier-a2a-sdk/ringier_a2a_sdk/model_capabilities.py:683-706 | one request at most; what is returned says exactly whether the answer was an acceptance, a definite refusal or transient; nothing is sent after a cooldown answer |
| `Probe.Prober.Graded` | packages/ringier-a2a-sdk/ringier_a2a_sdk/model_capabilities.py:708-716 | a routable shape passes exactly on an honoured reply, fails exactly on a definite refusal or a complete dishonoured one |
| `Probe.Prober.ProbeForced` | packages/ringier-a2a-sdk/ringier_a2a_sdk/model_capabilities.py:727-735 | the forced flag is true if both forms passed, false if one was definitely rejected, else unset |
| `Probe.Prober.ProbeFormat` | packages/ringier-a2a-sdk/ringier_a2a_sdk/model_capabilities.py:737-741 | the format flag is written exactly when the shape was measured |
| `Probe.Prober.Verify` | packages/ringier-a2a-sdk/ringier_a2a_sdk/model_capabilities.py:751-761 | at most one control request goes out, and it leaves the evidence for the recorded way standing |
| `Probe.Prober.ProbeThinkingOff` | packages/ringier-a2a-sdk/ringier_a2a_sdk/model_capabilities.py:743-801 | the recorded way is backed by the trail of requests it sent |
| `Probe.Prober.ProbeFloor` | packages/ringier-a2a-sdk/ringier_a2a_sdk/model_capabilities.py:817-848 | the floor is the first candidate accepted; after a refusal "no floor" is recorded unless the probe then broke off without a reason |
| `Probe.Prober.ProbeFloorRow` | packages/ringier-a2a-sdk/ringier_a2a_sdk/model_capabilities.py:803-848 | the floor is measured on always-on deployments only, and written as absent where thinking turns off; the row is missing exactly when the last failure came without a reason |
| `Probe.Prober.ProbeReplay` | packages/ringier-a2a-sdk/ringier_a2a_sdk/model_capabilities.py:850-865 | the replay flag follows the replayed turn, when there was a block to replay |
| `Probe.ProbeModel` | packages/ringier-a2a-sdk/ringier_a2a_sdk/model_capabilities.py:630-867 | for every oracle: at most 13 requests, none after a cooldown answer; rows and flags agree with the log; the rows are the planned shapes but for a floor lost without a reason |
| `Probe.FreshRecordIsSound` | packages/ringier-a2a-sdk/ringier_a2a_sdk/model_capabilities.py:767-848 | a thinking-off pair rewritten with the fresh record is never one this probe saw definitely refused |
| `Probe.MergedRecordIsSound` | packages/console-backend/console_backend/services/model_gateway_service.py:700-722 | a record merged over a stored one goes on sending what this probe saw refused if and only if a stored switch was refused by a probe that then broke off, or the whole stored record was kept and its floor was refused by a probe that then lost a reason |
| `Probe.StaleSwitchHappens` | packages/console-backend/console_backend/services/model_gateway_service.py:700-722 | a log on which the merged record goes on sending a switch just refused |
| `Probe.StaleFloorHappens` | packages/console-backend/console_backend/services/model_gateway_service.py:717-720 | a log after which the kept record goes on sending a floor just refused |
| `Probe.RecordIsFirstThatWorks` | packages/ringier-a2a-sdk/ringier_a2a_sdk/model_capabilities.py:767-848 | the recorded way is the first in order that works, a recorded floor the lowest candidate accepted |
| `Probe.RejectedMeansRefused` | packages/ringier-a2a-sdk/ringier_a2a_sdk/model_capabilities.py:267-269 | a model is rejected only on a definite refusal of a shape every turn sends |
| `Probe.ReportIsPlanUnlessFloorLost` | packages/ringier-a2a-sdk/ringier_a2a_sdk/model_capabilities.py:143-146 | the rows are exactly `planned_shapes` if and only if no floor request failed transiently with an empty reason |
| `Capabilities.DefiniteMeans` | packages/ringier-a2a-sdk/ringier_a2a_sdk/model_capabilities.py:219-233 | an answer counts against the deployment exactly when it is an error with a status below 500, not 408 or 429, whose message holds neither cooldown marker |
| `ProbeVerdicts.EveryTurnVerdicts` | packages/ringier-a2a-sdk/ringier_a2a_sdk/model_capabilities.py:718-726 | a shape every turn sends rejects the model if and only if the deployment itself said no to it, and passes if and only if it was answered |
| `ProbeVerdicts.FlagVerdicts` | packages/ringier-a2a-sdk/ringier_a2a_sdk/model_capabilities.py:727-741 | both values of the forced and the format flag, by replies and status codes |
| `ProbeVerdicts.OffWayVerdict` | packages/ringier-a2a-sdk/ringier_a2a_sdk/model_capabilities.py:743-801 | each recorded way, if and only if its request was answered without reasoning; always-on and unsupported by the answer to the effort alone |
| `ProbeVerdicts.WaysInOrder` | packages/ringier-a2a-sdk/ringier_a2a_sdk/model_capabilities.py:767-801 | a way is tried only after the one before it was refused or still reasoned |
| `ProbeVerdicts.FloorVerdict` | packages/ringier-a2a-sdk/ringier_a2a_sdk/model_capabilities.py:803-848 | the recorded floor is the level accepted; "no floor" if and only if some level was refused, none accepted and no reason lost |
| `ProbeVerdicts.LevelsTried` | packages/ringier-a2a-sdk/ringier_a2a_sdk/model_capabilities.py:819-821 | the levels tried: the first two declared, else `minimal` and `low` |
| `ProbeVerdicts.ReplayVerdictMeans` | packages/ringier-a2a-sdk/ringier_a2a_sdk/model_capabilities.py:850-865 | each value of the replay flag, by the answers to the two requests |
| `ProbeVerdicts.RefusedPairs` | packages/ringier-a2a-sdk/ringier_a2a_sdk/model_capabilities.py:767-848 | the pairs seen refused are those of the requests the deployment said no to |
| `ProbeVerdicts.NothingAfterCooldown` | packages/ringier-a2a-sdk/ringier_a2a_sdk/model_capabilities.py:683-706 | no request follows an answer that names the cooldown |
| `ProbeVerdicts.RowsInOrder` | packages/ringier-a2a-sdk/ringier_a2a_sdk/model_capabilities.py:143-146 | the rows of a report in their order |
| `ProbeVerdicts.StoredKeyByKey` | packages/console-backend/console_backend/services/model_gateway_service.py:701-723 | what is stored, key by key: what was measured, else what was stored if the shape was attempted in vain or the probe ran elsewhere, else nothing |
| `ProbeVerdicts.ThinkingRowMeans` | packages/ringier-a2a-sdk/ringier_a2a_sdk/model_capabilities.py:796-801 | when the thinking row passes and when it counts as a limitation |
| `StreamAssembly.PayloadIsRead` | packages/ringier-a2a-sdk/ringier_a2a_sdk/model_capabilities.py:522-533 | a payload line is read whatever blanks surround it |
| `StreamAssembly.UnmarkedSaysNothing` | packages/ringier-a2a-sdk/ringier_a2a_sdk/model_capabilities.py:523-525 | a line without `data:` says nothing |
| `StreamAssembly.EmptySaysNothing` | packages/ringier-a2a-sdk/ringier_a2a_sdk/model_capabilities.py:526-528 | nor does one with an empty payload |
| `StreamAssembly.DoneSaysNothing` | packages/ringier-a2a-sdk/ringier_a2a_sdk/model_capabilities.py:526-528 | nor the `[DONE]` line |
| `StreamAssembly.LineSurvives` | packages/ringier-a2a-sdk/ringier_a2a_sdk/model_capabilities.py:522 | a line comes out of `splitlines` whole if and only if it holds no character `splitlines` cuts at |
| `StreamAssembly.BreaksAre` | packages/ringier-a2a-sdk/ringier_a2a_sdk/model_capabilities.py:522 | the ten characters `splitlines` cuts at |
| `StreamAssembly.AssembleStream` | packages/ringier-a2a-sdk/ringier_a2a_sdk/model_capabilities.py:512-555 | stops at the first error line, fails exactly when there is one; else the fold of all lines with calls in index order |
| `StreamAssembly.AssembledMeans` | packages/ringier-a2a-sdk/ringier_a2a_sdk/model_capabilities.py:512-555 | for any stream without an error: all content in order, the last finish reason and usage, and per index a call with the last id and name given and all its arguments |
| `StreamAssembly.StreamingUndone` | packages/ringier-a2a-sdk/ringier_a2a_sdk/model_capabilities.py:512-555 | from raw text: any message with named calls, cut up in any way that sends all of it, interleaved and with lines between that say nothing, is assembled back, its calls in index order |
| `StreamAssembly.OrderIsUnique` | packages/ringier-a2a-sdk/ringier_a2a_sdk/model_capabilities.py:552-553 | the calls in index order are determined by the slots |
| `RequestRewrite.CleanList` | packages/litellm-proxy/custom_logger.py:286-320 | stripping changes a list exactly when it holds a marker, leaves none, and changes nothing the second time |
| `RequestRewrite.UnblockList` | packages/litellm-proxy/custom_logger.py:323-342 | the same for thinking blocks |
| `RequestRewrite.RewriteSettles` | packages/litellm-proxy/custom_logger.py:652-729 | rewriting a rewritten request for the same deployment changes nothing |
| `RequestRewrite.NothingUnwelcome` | packages/litellm-proxy/custom_logger.py:657-676 | no deployment outside the idiom gets a marker or block, none recorded as rejecting a forced choice or a replay gets one, probes aside |
| `RequestRewrite.OnlyMarksGo` | packages/litellm-proxy/custom_logger.py:698-719 | a deployment in the idiom keeps its markers; entries, order and every other field stay as they were |
| `RequestRewrite.WhoKeepsMarkers` | packages/litellm-proxy/custom_logger.py:205-247 | markers are kept for every Anthropic model of the direct API, for models named Anthropic on Bedrock, for Claude on Vertex, and for nobody else |
| `RequestRewrite.PrefixNamesProvider` | packages/litellm-proxy/custom_logger.py:698-703 | a provider named by prefix is judged as one named outright |
| `RequestRewrite.BedrockProfiles` | packages/litellm-proxy/custom_logger.py:205-247 | an Anthropic id on Bedrock keeps its markers wherever the name occurs in it, the same id without provider loses them |
| `RequestRewrite.NoRefusedPairIsSent` | packages/litellm-proxy/custom_logger.py:683-686 | a thinking-off request reaching a freshly probed deployment never carries a pair the probe saw refused |
| `RequestRewrite.FieldsSent` | packages/ringier-a2a-sdk/ringier_a2a_sdk/model_capabilities.py:895-947 | a request that asks for some thinking, and a probe, keeps both thinking fields; what a request for none becomes, way by way; a choice changes only to `auto`, only where it forces and is recorded as refused |
| `RequestRewrite.KeysSent` | packages/litellm-proxy/custom_logger.py:657-729 | each message and tool loses `cache_control` outside the idiom and nothing else, parts included; a message `thinking_blocks` there and where its replay is refused |
| `RequestRewrite.AnsweredPairIsSent` | packages/ringier-a2a-sdk/ringier_a2a_sdk/model_capabilities.py:936-947 | where the probe recorded a way, the pair sent is one the deployment answered; where it refused all, both fields are left out |
| `RequestRewrite.NamedProviderWins` | packages/litellm-proxy/custom_logger.py:698-703 | a provider named outright decides, whatever the prefix |
| `RequestHook.StripCacheControl` | packages/litellm-proxy/custom_logger.py:286-320 | nothing if no entry is marked, else the cleaned list, sharing every unmarked entry; no object is written |
| `RequestHook.StripThinkingBlocks` | packages/litellm-proxy/custom_logger.py:323-342 | the same for thinking blocks |
| `RequestHook.ApplyThinkingOff` | packages/ringier-a2a-sdk/ringier_a2a_sdk/model_capabilities.py:920-947 | the two fields become the recorded off request, and the answer says whether they changed |
| `RequestHook.DowngradeForced` | packages/ringier-a2a-sdk/ringier_a2a_sdk/model_capabilities.py:903-914 | a forced choice becomes `auto` exactly on a deployment recorded as rejecting it |
| `RequestHook.PreCallDeployment` | packages/litellm-proxy/custom_logger.py:652-729 | the request becomes its rewrite, the answer says whether that is a change, no message, tool or part is written |
| `RequestHook.Failover` | packages/litellm-proxy/custom_logger.py:652-729 | over any sequence of attempts each deployment gets the rewrite of the original for itself alone, and the original still says what it said |
| `SchemaClosing.ChildrenAre` | packages/litellm-proxy/custom_logger.py:128-147 | the pass looks exactly into properties, items, the four lists and the two tables of definitions |
| `SchemaClosing.Force` | packages/litellm-proxy/custom_logger.py:109-147 | exactly the object nodes at most 64 steps down become or stay boolean, on graphs with sharing and cycles; nothing else is written |
| `SchemaClosing.WithinMeansPath` | packages/litellm-proxy/custom_logger.py:121-147 | leading to a node in so many steps, by the keys a schema may stand under, is having a path of that length |
| `SchemaClosing.CloseSchema` | packages/litellm-proxy/custom_logger.py:109-147 | every object node below is closed if and only if those beyond the guard were; a closed schema is left alone; booleans stay |
| `SchemaClosing.SanitizeResponseFormat` | packages/litellm-proxy/custom_logger.py:150-170 | a `json_schema` format is closed wherever its schema lies, any other is left alone |
| `Billing.BillingUnitBreakdown` | packages/litellm-proxy/custom_logger.py:363-440 | exactly the positive units are billed, each with the amount due |
| `Billing.BillIsShapeIndependent` | packages/litellm-proxy/custom_logger.py:369-381 | every reporting shape of one usage gives the same positive buckets back, if and only if a lone total is not taken for a prompt |
| `Billing.EveryUnitIsDue` | packages/litellm-proxy/custom_logger.py:387-440 | every unit of any report, count by count, the whole input where the cache is said to hold more than it |
| `Billing.BillAddsUp` | packages/litellm-proxy/custom_logger.py:366-368 | input units sum to base plus caches, output units to the reported output: no cache token is billed twice |
| `Billing.OutputAddsUp` | packages/litellm-proxy/custom_logger.py:427-431 | for any report the output units add up exactly when reasoning stays within the output |
| `Billing.EstimateTextTokenUnits` | packages/litellm-proxy/custom_logger.py:443-471 | the least whole number of tokens for the characters of text parts, plus one per token id |
| `Billing.CountImageInputs` | packages/litellm-proxy/custom_logger.py:474-501 | one per binary string or image part |
| `Billing.WhatAPartCosts` | packages/litellm-proxy/custom_logger.py:457-500 | the characters, tokens and images of each kind of part |
| `Billing.EachStringBilledOnce` | packages/litellm-proxy/custom_logger.py:483-487 | adding any non-empty string anywhere adds its characters or one image, never both nor neither |
| `Billing.SplittingCostsOnePerCut` | packages/litellm-proxy/custom_logger.py:469-471 | splitting a request costs at most one token per cut and never less |
| `Billing.BuildBill` | packages/litellm-proxy/custom_logger.py:538-554 | token units, images, and a text estimate exactly where no base input was reported |
| `Billing.WhatACallAdds` | packages/litellm-proxy/custom_logger.py:538-554 | an image unit each, and where no base was reported a token for every four characters begun and one per id |
| `Billing.EmbeddingIsBilled` | packages/litellm-proxy/custom_logger.py:538-554 | an embedding call with anything billable is never free, and its text never billed twice |
| `UsageQueue.CostLogger.LogSuccess` | packages/litellm-proxy/custom_logger.py:731-757 | a record is accepted while there is room, else dead-lettered on the spot |
| `UsageQueue.CostLogger.Wake` | packages/litellm-proxy/custom_logger.py:763-769 | the worker takes the oldest records, up to a hundred |
| `UsageQueue.CostLogger.Answer` | packages/litellm-proxy/custom_logger.py:776-806 | an answer settles the batch, or earns another try; settled records leave the unfinished count |
| `UsageQueue.CostLogger.Flush` | packages/litellm-proxy/custom_logger.py:776-806 | the retry loop is the machine's answers one after the other, and leaves nothing unsettled |
| `UsageQueue.CostLogger.DeadLetter` | packages/litellm-proxy/custom_logger.py:808-821 | one redacted line per record, in order |
| `UsageQueue.RunsAreBounded` | packages/litellm-proxy/custom_logger.py:759-806 | in every run: queue at most 10000, batches of 1 to 100, at most 4 posts, retries only on retryable failures, unfinished is queued plus in the batch |
| `UsageQueue.BatchesAreTriedFairly` | packages/litellm-proxy/custom_logger.py:576-588 | in every run: no batch is given up after a transport error, a 408, a 429 or a 5xx before its fourth post, none posted again after anything else |
| `UsageQueue.AnswerDecides` | packages/litellm-proxy/custom_logger.py:781-806 | what each kind of answer does to the batch being posted |
| `UsageQueue.OfferAndTake` | packages/litellm-proxy/custom_logger.py:743-769 | a record is queued below ten thousand, else logged; the worker takes the oldest hundred |
| `UsageQueue.RecordsAreConserved` | packages/litellm-proxy/custom_logger.py:759-774 | settled batches, the current batch and the queue are, in this order, exactly what was accepted |
| `UsageQueue.EachRecordInOnePlace` | packages/litellm-proxy/custom_logger.py:759-806 | each accepted record is in exactly one of acknowledged, given up, in the batch, queued |
| `UsageQueue.OfferedAreAcceptedOrDropped` | packages/litellm-proxy/custom_logger.py:743-755 | every record offered is accepted or dead-lettered, in the order offered |
| `UsageQueue.FourAnswersSettle` | packages/litellm-proxy/custom_logger.py:782-806 | four answers of any kind settle a batch, and it alone: no poison batch wedges the worker |
| `UsageQueue.LogIsCompleteAndDiscreet` | packages/litellm-proxy/custom_logger.py:808-821 | one line for each record dropped or given up, with allow-listed keys only |
| `UsageQueue.LineKeeps` | packages/litellm-proxy/custom_logger.py:603-612 | the eight keys a line of the log keeps |
| `UsageQueue.DiscreetNamesNobody` | packages/litellm-proxy/custom_logger.py:591-612 | no such line names a user or a conversation |
| `FrontmatterParser.ReadFold` | packages/console-frontend/vite-plugins/agentSkills.ts:191-199 | the folded lines, trimmed and joined by single spaces, and where they end |
| `FrontmatterParser.ReadBlock` | packages/console-frontend/vite-plugins/agentSkills.ts:200-209 | the block's lines without comments and blanks, and where it ends |
| `FrontmatterParser.ReadItems` | packages/console-frontend/vite-plugins/agentSkills.ts:212-217 | the items of a list block, or its first fault |
| `FrontmatterParser.ReadPairs` | packages/console-frontend/vite-plugins/agentSkills.ts:218-230 | the pairs of a map block, or its first fault |
| `FrontmatterParser.ParseFrontmatter` | packages/console-frontend/vite-plugins/agentSkills.ts:171-241 | the index loop computes the specified parse, with the lines left strictly decreasing |
| `FrontmatterPrint.RoundTrip` | packages/console-frontend/vite-plugins/agentSkills.ts:171-241 | printing a document of distinct keys, with any styles, blanks and comments, then parsing gives its map back if and only if no key or sub-key is inherited from `Object.prototype` |
| `FrontmatterPrint.AcceptedHeaders` | packages/console-frontend/vite-plugins/agentSkills.ts:189 | an accepted document repeats no key |
| `FrontmatterPrint.EveryMapRoundTrips` | packages/console-frontend/vite-plugins/agentSkills.ts:171-241 | every map of printable values has a document that parses back to it |
| `FrontmatterScalars.ScalarMeans` | packages/console-frontend/vite-plugins/agentSkills.ts:154-168 | quoted text is taken as it is; unquoted text with a colon before a blank or at its end, or a hash behind a blank, is refused; any other is itself |
| `FrontmatterScalars.AcceptedIsReadThrough` | packages/console-frontend/vite-plugins/agentSkills.ts:171-241 | no accepted text holds, in an entry, an item or a pair, an unquoted value YAML would misread |
| `FrontmatterScalars.EntryIs` | packages/console-frontend/vite-plugins/agentSkills.ts:182 | an entry line is a key, a colon and a rest |
| `FrontmatterScalars.ItemIs` | packages/console-frontend/vite-plugins/agentSkills.ts:212-217 | an item line is blanks, a dash, blanks and a text |
| `FrontmatterScalars.PairIs` | packages/console-frontend/vite-plugins/agentSkills.ts:218-230 | a pair line is blanks, a key, a colon, blanks and a text |
| `FrontmatterScalars.KeysAre` | packages/console-frontend/vite-plugins/agentSkills.ts:182 | the characters of a key |
| `FrontmatterScalars.OneEntry` | packages/console-frontend/vite-plugins/agentSkills.ts:189 | which keys are taken for repeated in an empty document |
| `FrontmatterScalars.WordsAreSpaced` | packages/console-frontend/vite-plugins/agentSkills.ts:191-199 | folded words are joined by single spaces |
| `FrontmatterScalars.FoldsAre` | packages/console-frontend/vite-plugins/agentSkills.ts:191-199 | under either marker |
| `FrontmatterParser.SplitJoined` | packages/console-frontend/vite-plugins/agentSkills.ts:173 | joining lines with either line ending and splitting gives the lines back |
| `FrontmatterParser.TextRoundTrip` | packages/console-frontend/vite-plugins/agentSkills.ts:171-241 | the round trip on the text itself |
| `FrontmatterDocument.AcceptedHasNoRule` | packages/console-frontend/vite-plugins/agentSkills.ts:171-241 | accepted frontmatter holds no line that could be taken for its end |
| `FrontmatterDocument.DocumentIsReadBack` | packages/console-frontend/vite-plugins/agentSkills.ts:243-253 | a document put together from accepted frontmatter and a body, with any line endings, is taken apart again |
| `FrontmatterDocument.OptionalToolList` | packages/console-frontend/vite-plugins/agentSkills.ts:311-326 | accepted exactly when a non-empty list of distinct tool names, else the first offender is reported |
| `FrontmatterScalars.AcceptedIsFenced` | packages/console-frontend/vite-plugins/agentSkills.ts:243-253 | what is taken for a document is frontmatter that parses between two rules, and a trimmed body |
| `FrontmatterScalars.RefusedBodies` | packages/console-frontend/vite-plugins/agentSkills.ts:243-253 | a blank body, or one with two opening braces, is refused |
| `FrontmatterScalars.ToolNamesAre` | packages/console-frontend/vite-plugins/agentSkills.ts:78 | the characters of a tool name |
| `ScheduledRun.ExtractText` | packages/agent-runner/agent/core.py:599-618 | the readable text of the last message that has any |
| `ScheduledRun.WhatIsReadable` | packages/agent-runner/agent/core.py:605-617 | a text, or text blocks, without the blanks around; nothing else |
| `ScheduledRun.BlocksJoin` | packages/agent-runner/agent/core.py:612 | text blocks are joined by single spaces |
| `ScheduledRun.WhatIsStreamed` | packages/agent-runner/agent/core.py:499-536 | an artifact adds its content wherever it stands unless marked intermediate; nothing else adds anything |
| `ScheduledRun.LastUpdateCounts` | packages/agent-runner/agent/core.py:499-536 | the last task data counts |
| `ScheduledRun.CollectSubAgentRun` | packages/agent-runner/agent/core.py:499-536 | the first error ends the run as failed; else the streamed text or the last message's, the last reported state, and an ask only on auth_required |
| `ScheduledRun.Conclude` | packages/agent-runner/agent/core.py:1077-1252 | task state and scheduler status always agree; parked exactly with an ask and a job id; success exactly when nothing failed or stopped; interrupted exactly on an infrastructure failure |
| `ScheduledRun.ProvenanceFollows` | packages/agent-runner/agent/core.py:539-549 | the provenance follows the message after a blank line, if it says anything |
| `ScheduledRun.WhatIsSent` | packages/agent-runner/agent/core.py:346-381 | a run resumes exactly with a non-empty answer on a context; what it addresses and proposes |
| `ScheduledRun.WhoTakesIt` | packages/agent-common/agent_common/a2a/local_server/context_builder.py:44-55 | which task takes a run, and what the run leaves behind |
| `ScheduledRun.ResumeAddressesProposed` | packages/agent-runner/agent/core.py:346-381 | in any sequence of runs every resume addresses the id the fresh runs of its context propose, and no other context's |
| `ScheduledRun.AnswersReachTheirTask` | packages/agent-runner/agent/core.py:352-361 | in any sequence of fresh, parked and resumed runs an answer reaches the open task that asked if and only if the last run on its context was no repeated fresh start |
| `ScheduledRun.ContextsNeverShare` | packages/agent-runner/agent/core.py:352-361 | two runs are taken by one task exactly when they are on one context and neither restarted it |
| `ScheduledRun.TakenBy` | packages/agent-common/agent_common/a2a/local_server/context_builder.py:44-55 | a fresh run is taken by the derived task, or by a minted one when it restarts its context |
| `ScheduledRun.StartedOnceNeverRestarted` | packages/agent-runner/agent/core.py:360-361 | contexts with one fresh run are never restarted |
| `ScheduledRun.SecondStartIsStranded` | packages/agent-common/agent_common/a2a/local_server/context_builder.py:44-55 | started twice, a context parks on a minted task that no answer reaches |
| `Origins.CompilesByCharacter` | packages/console-backend/console_backend/cors_origins.py:26-31 | splitting at stars, escaping and joining compiles character by character |
| `Origins.MatcherMeansFilling` | packages/console-backend/console_backend/cors_origins.py:41-61 | the backtracking matcher accepts exactly the origins got by filling each `*` with a non-empty run without `.` or `/` |
| `Origins.OneStarAdmits` | packages/console-backend/console_backend/cors_origins.py:23-31 | one star admits exactly one or more characters, none a dot or a slash |
| `Origins.WildcardStaysInItsLabel` | packages/console-backend/console_backend/cors_origins.py:23-31 | an accepted origin has its entry's separators in order and its literal head and tail |
| `Origins.NormalMeans` | packages/console-backend/console_backend/cors_origins.py:70-75 | an entry counts without the blanks around it and the slashes at its end |
| `Origins.ParseOriginAllowlist` | packages/console-backend/console_backend/cors_origins.py:70-81 | both lists are without duplicates and hold exactly the normalised entries, with and without star |
| `Origins.StarFreeMeansItself` | packages/console-backend/console_backend/cors_origins.py:55-59 | an entry without star admits itself alone |
| `Origins.AllowedIffListed` | packages/console-backend/console_backend/cors_origins.py:55-61 | an origin is accepted exactly when some listed entry admits it |
| `Origins.OrderDoesNotMatter` | packages/console-backend/console_backend/cors_origins.py:70-81 | acceptance depends neither on order nor on duplicates |

## Left out

- ChatResume.ResumeIsExact: speaks of one buffer segment at a time; a non-appending last chunk emitted after its buffer was popped belongs to the closed segment. Its converse is proved for clients present since offset 0, who see every chunk.
- ChatThoughts.ThoughtsBeforeAnswers: the arrival times stamped on thought rows are not modelled, and the order in which thought buffers are flushed is arbitrary. Thoughts a teardown cleared count as gone.
- ChatBackend.Backend.Perform: a caller is taken to call the section its coroutine has come to; the code between two sections (building payloads, database calls, emits) is not modelled.
- In theorems about every schedule, database failures may strike at any point of the block that swallows them, and a turn may be left between any two of its steps: more than the code allows. Titling, debug events, steering replies, authentication and socket sessions are not modelled.
- The text notes on probe rows (control turn, token counts) and progress events; the probe's clock is an oracle that may end the budget before any request.
- StreamAssembly.StreamingUndone: calls must have a non-empty id and name, since an empty one is never streamed; JSON decoding is a parameter, and the stream ends each line with a line feed.
- RequestHook.Failover: the router and its shallow copies are LiteLLM's; the model copies the top-level fields as the hook's comments describe. Values below a content part, and the exceptions the hook swallows on values of an unexpected type, are not modelled.
- SchemaClosing.Force: schemas are built so that a table of properties is not itself a schema node; parsed JSON has no such sharing.
- Billing.BillingUnitBreakdown: absent and zero counts are one, as the code reads them; counts are whole numbers. The fields of a usage record besides its units are not modelled.
- UsageQueue.CostLogger: task cancellation, back-off times and the shape of the HTTP request. A post ends with one of four kinds of answer.
- FrontmatterDocument.DocumentIsReadBack: for lines without stray carriage returns.
- The typed accessors of the vite plugin (required and optional strings, enums, metadata, unknown keys), reading files and building the index: they would add easy members.
- ScheduledRun.Conclude: correlation fields echoed into the result, user lookup, model and tool setup; payloads are opaque maps.
- ScheduledRun.AnswersReachTheirTask: what the server promises is a hypothesis: a published park leaves its task open, and minted ids, being version 4, never equal a derived one.
- The regular-expression engine itself: patterns are token sequences, matched by backtracking.
- Catalogue worker, authorization tables, voice agent, office worker, storage and the front end.
