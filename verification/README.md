# Okto in Dafny

A model of the parts of Okto where several actors, several views or several forms of the same
data have to agree, with proofs that they do, or exactly when they do.

- **The turn gate** of a chat session (`TurnGate.dfy`, `TurnScheduler.dfy`, `TurnTheorems.dfy`,
  `TurnTasks.dfy`, `TurnLog.dfy`). The gate is a class with the source's lock sections as methods.
  Each method is proved against a function on the gate's state, and those functions are the steps of
  a transition system in which WebSocket frames, injections, background completions and the ends of
  turns interleave freely, one lock section at a time. The theorems are about all its runs.
- **One turn** (`SendMessage.dfy`, `TurnContents.dfy`, `ReplyAssembly.dfy`, `OpenAiReply.dfy`,
  `ReplyContents.dfy`, `TurnEvents.dfy`, `AssembledReplies.dfy`). The tool loop and the two stream
  readers. The environment (replies, tool runs, the moment the cancel token fires) is a script, so
  each statement about all scripts is also one about every point of the loop.
- **The views of the conversation log** (`Conversation.dfy`, `History.dfy`, `HistoryContents.dfy`,
  `ChatPane.dfy`, `ChatPaneObject.dfy`, `PaneLaws.dfy`, `LiveRows.dfy`, `ToolSchedule.dfy`,
  `LiveHistory.dfy`, `LiveEqualsHistory.dfy`). The history projection, the client's fold of events
  into rows, and exactly when they show the same after a completed turn. Rows are compared without
  their ids through a live view the pane is proved to refine.
- **Reconnecting and reconciling** (`Fanout.dfy`, `TaskRows.dfy`, `Replays.dfy`,
  `Cuts.dfy`, `ReplayCuts.dfy`, `LostRows.dfy`, `Reconnect.dfy`, `ReconnectTheorems.dfy`,
  `Reconcile.dfy`). The event buffer with its subscribers, the client's shadow list, and the merge
  with the server's history.
- **What the model is sent** (`Compaction.dfy`, `CompactedContents.dfy`,
  `RequestContents.dfy`, `OpenAiRequest.dfy`, `TurnRequests.dfy`).
- **The agent forest** (`AgentForest.dfy`, `Registry.dfy`), **background tasks**
  (`TaskOutput.dfy`, `TaskRegistry.dfy`) and three codecs (`Base32.dfy`, `Utf8.dfy`, `Sse.dfy` with
  `SseRoundTrip.dfy`).

Objects the source updates in place are classes, and loops are methods with invariants; each is
proved equal to a function that the laws are stated about. What such a function computes is also
stated without it: the modules named `…Contents`, `PaneLaws` and `TurnTasks` read results off the
fields, blocks and decisions they come from. Mutex-protected sections are atomic.
Clocks, the network, disk writes, logging and generated ids are parameters or absent; a `uid()` is
the next number of a counter.

## What holds only sometimes

Some of the expected properties are not true of the code as it stands. For these the model gives
the exact condition, and a concrete run where it fails.

- A turn ends by overwriting the log with its own copy. An injection folded in between release and
  fold of `finalize_turn` can therefore be lost (`TurnLog.LateFoldLosesInjection`). It survives if
  and only if nobody folds behind a turn in flight (`TurnLog.InjectionsSurviveSchedule`).
- That copy is taken without `interrupted` and `error` rows. The live rows equal the history of
  the log a completed turn leaves exactly when there was no such row before it and each of its
  replies streamed its text before its tools. A turn after an interrupted one is enough to make
  them differ (`LiveEqualsHistory.MarkerRowIsLost`). This is about the turn's own events, without a
  background or peer row in their midst. The Anthropic reader passes replies with late
  text on as they are; the OpenAI reader never produces one.
- Messages stay paired exactly when each reply with tool calls stops for `tool_use`.
- A resumed client cuts its rows at the last anchor, that is a user, background or peer row, and
  replays the turn from there. It ends with the right rows exactly when two cuts are clean, the one
  at the moment it dropped and the one at the farthest point of the turn it ever had on screen. A
  cut is clean if and only if, at every anchor the turn had brought, all rows of the turn were
  those of completed tasks; and there was such an anchor, or the rows from before the turn end with
  one, or they hold none and the turn has shown nothing (`ReplayCuts.CleanMeans`,
  `ReconnectTheorems.ReconnectsAreInvisible`). Otherwise it *repeats* rows if the first cut keeps
  the rows from before the turn (`ReconnectTheorems.LateCompletionIsNotClean`), and *loses* rows if
  not: those after the last anchor. The latter can happen when what triggered the turn has no row of
  its own, or not the last one: a turn that a peer message or another client started, or an
  auto-turn after a failed one. There a drop after one piece of text is enough to lose the last
  answer (`ReconnectTheorems.AnswerIsLost`). A resume into a turn with an empty buffer gets no
  `replay_end`, so the rebuilt rows stay in the shadow.
- A client that comes back after the end of the turn may go on showing a tool as running, even
  after a history load (`ReconnectTheorems.TurnEndedMeanwhile`).
- The history merge loses a row exactly when a kept row carries the id of a queued one. Ids stay at
  their index, so this cannot happen, except after the row cache trimmed the list.
- `mobile/App.tsx:1354-1360` says the reload at the end of a turn is a no-op for the client that
  drove the turn. `/history` carries only the last cost while the client keeps every turn's, so
  from the second turn on it is not; the model follows the code (`Reconcile.SecondTurnIsReplaced`).
- Cutting a stream with both kinds of blank lines depends on the chunks, and so does decoding a
  chunk that begins inside a character.
- The walk over descendants ends exactly when the agent is not its own ancestor.
- Cancel tokens stay in step with running records exactly as long as task ids are not repeated.

One observation without a lemma: `lair/src/agent.rs:316-317` says a peer message is shown live, but
`chat_event_to_wire_json` (`core/src/app.rs:299`) drops that event, so today such a row first
appears with the next history load. The client's handling of the event is modelled as it is written.

The comment on `compact_history` (`core/src/lib.rs:1011-1015`) has old results and texts replaced
outright. The code keeps results of up to 300 bytes and texts of up to 200, and the longest prefix
of longer ones; the model follows the code (`CompactedContents.CompactedBlocks`).

## Model

| member | source | states |
|---|---|---|
| `TurnGates.TurnGate.constructor` | lair/src/agent.rs:173-182 | a new gate is idle, with an unfired token and nothing queued |
| `TurnGates.TurnGate.BeginTurn` | lair/src/agent.rs:187-192 | a fresh, unfired token is installed and the interrupt flag cleared in one section |
| `TurnGates.TurnGate.Interrupt` | lair/src/agent.rs:198-203 | accepted exactly while streaming; fires the token in the gate and no other |
| `TurnGates.TurnGate.Inject` | lair/src/agent.rs:312-315 | the message joins the end of the injection queue; nothing else changes |
| `TurnGates.TurnGate.UserMessage` | lair/src/agent.rs:706-734 | claims an idle gate with a fresh token, fills the one-slot queue of a busy one, refuses when the slot is taken |
| `TurnGates.TurnGate.TryClaimAuto` | lair/src/agent.rs:563-582 | claims exactly when injections wait, nobody streams, no user message waits, no interrupt is pending and the depth is below the cap |
| `TurnGates.TurnGate.DrainInjections` | lair/src/agent.rs:585-588 | hands over the whole queue and leaves it empty |
| `TurnGates.TurnGate.FinalizeTurn` | lair/src/agent.rs:494-518 | a waiting user message gets the next turn; without one an auto-turn does if and only if nobody interrupted, fewer than three came before and something is queued; otherwise release; the next token is fresh and installed before the lock is left |
| `TurnScheduler.StepKeepsInv` | lair/src/agent.rs:487-606 | every lock section keeps one owner, tokens in order, a clean idle gate, and only lawful decisions |
| `TurnScheduler.RunKeepsInv` | lair/src/agent.rs:487-606 | the same for every interleaving of any number of tasks |
| `TurnTheorems.SingleOwnership` | lair/src/agent.rs:487-606 | in every reachable state `streaming` holds exactly when one task owns the gate; two turns never overlap; the lost-race exit of `try_continue_auto` is unreachable; an idle gate is clean |
| `TurnTheorems.IdleGateContinues` | lair/src/agent.rs:563-582 | an idle gate with queued injections can always be claimed: the other three guards never block it |
| `TurnTheorems.InterruptHitsTheOwner` | lair/src/agent.rs:187-203 | an accepted interrupt fires the token of the owner, spawned or not, which is the newest token ever minted |
| `TurnTheorems.InterruptOfIdleGateIsIgnored` | lair/src/agent.rs:198-203 | without an owner an interrupt changes nothing |
| `TurnTheorems.NextBoundary` | lair/src/agent.rs:494-518 | after an accepted interrupt the next boundary starts no auto-turn; after an accepted user message it starts the turn of that message |
| `TurnTasks.BoundaryDecides` | lair/src/agent.rs:494-518 | in every reachable state in which a turn has ended: the next decision is an auto-turn if and only if no user text waits, nobody interrupted, fewer than three auto-turns came in a row and something is queued; release if and only if no text waits and one of these fails; else the turn of the text |
| `TurnTasks.UserFrameDecides` | lair/src/agent.rs:706-734 | in every reachable state a user message starts its turn if and only if nobody owns the gate, waits if somebody does and none waits yet, and is refused otherwise |
| `TurnTasks.PushThenContinue` | lair/src/agent.rs:312-318 | in every reachable state a background message is queued, and starts an auto-turn at once if and only if nobody owns the gate |
| `TurnTasks.TurnsHaveTheirMessage` | lair/src/agent.rs:395-408 | in every reachable state: a spawned task has the trigger of the last turn start, and the turn of a user message works on a log that holds the message, twice if it had been queued |
| `TurnTasks.TurnWritesBack` | lair/src/agent.rs:426-457 | in every run the end of a turn leaves what it started from, what it added and a row that tells of an interrupt or an error; its user message is still there |
| `TurnTasks.SnapshotIs` | lair/src/agent.rs:405-408 | the snapshot drops the `interrupted` and `error` rows and no others |
| `TurnTheorems.AutoTurnsAreBounded` | lair/src/agent.rs:206-207 | no stretch without a user turn or a release starts more than three auto-turns |
| `TurnTheorems.StepConserves` | lair/src/agent.rs:436-606 | every lock section keeps each injection in exactly one of queue, hand and log |
| `TurnTheorems.InjectionsConserved` | lair/src/agent.rs:436-606 | the same in every reachable state: everything ever pushed is queued, in one hand, or folded once |
| `TurnLog.InjectionsSurvive` | lair/src/agent.rs:436-533 | the log holds all folded injections, in fold order and once each, if and only if no turn ended after an injection was folded behind its snapshot |
| `TurnLog.InjectionsSurviveSchedule` | lair/src/agent.rs:405-533 | the same in terms of the schedule: if and only if no task that has released the gate folds injections between the snapshot and the end of another turn |
| `TurnLog.LateFoldLosesInjection` | lair/src/agent.rs:511-533 | a run in which the fold after the release is overwritten by the next turn: the injection is gone from the log |
| `TurnLog.PromptFoldsSurvive` | lair/src/agent.rs:494-533 | if decision and fold are one step, no injection is lost |
| `TurnLog.ToolCallsStayPaired` | lair/src/agent.rs:405-533 | in every interleaving, with interrupts anywhere, the log and every running copy keep each tool call followed by its results, if replies with calls stop for `tool_use` |
| `Conversation.SnapshotKeepsPairs` | lair/src/agent.rs:405-408 | filtering out `interrupted` and `error` rows never separates calls from their results |
| `SendMessage.RunTools` | core/src/lib.rs:1774-1804 | the tool loop: one result per call in order, `interrupted` once the token has fired, one acknowledgement |
| `SendMessage.SendMessage` | core/src/lib.rs:1714-1807 | the whole loop computes the outcome the laws below are about: messages, events, status and calls used |
| `SendMessage.ResultsAnswer` | core/src/lib.rs:1774-1806 | results carry the ids of the calls, in their order, wherever the token fires |
| `SendMessage.LoopPairs` | core/src/lib.rs:1714-1807 | at every point of the loop the added messages are paired if and only if every consumed reply with tool calls stopped for `tool_use` |
| `SendMessage.LoopRoles` | core/src/lib.rs:1765-1806 | a turn only adds assistant and user messages |
| `TurnContents.ResultsFrom` | core/src/lib.rs:1774-1804 | from the first fired sample on each result reads `interrupted`, before it each is what its tool returned |
| `TurnContents.EventsFrom` | core/src/lib.rs:1774-1804 | the tools that ran show their lines and results in order; once the token has fired one acknowledgement follows and nothing else |
| `TurnContents.LoopAccounts` | core/src/lib.rs:1714-1807 | at every point of every turn: each reply used adds its message and the results of its calls and tells what it should, in order, with nothing in between; the turn goes on after `tool_use` only and ends with the status its last reply or the token gives |
| `ReplyAssembly.StreamAnthropic` | core/src/lib.rs:1234-1327 | the frame loop, with its early exit on an error frame |
| `ReplyAssembly.OtherFramesAreIgnored` | core/src/lib.rs:1241-1324 | frames without content change nothing, and of the stop reasons the last one counts |
| `ReplyAssembly.AnthropicAssembles` | core/src/lib.rs:1230-1327 | however text and tool input are cut into deltas, and with any other frames in between, a stream yields the blocks and events of the reply it carries and its last stop reason |
| `ReplyContents.AnthropicSays` | core/src/lib.rs:1230-1327 | part by part: each text whole as a block and piece by piece as events, each call with id, name and input, `{}` without one; the last stop reason, or `end_turn` |
| `ReplyContents.ErrorEndsTheStream` | core/src/lib.rs:1319-1323 | an `error` frame ends the reading with its message; nothing after it counts |
| `OpenAiReply.StreamOpenAi` | core/src/lib.rs:1349-1422 | the chunk loop: text live, tool calls after the stream, unnamed calls dropped, the last finish reason |
| `OpenAiReply.AddOne` | core/src/lib.rs:1382-1393 | one fragment lands in the accumulator of its index; missing accumulators are created |
| `OpenAiReply.InterleavingIsIrrelevant` | core/src/lib.rs:1380-1395 | the accumulated calls depend only on the order of fragments within each index |
| `OpenAiReply.CallsAreMadeOf` | core/src/lib.rs:1380-1395 | the arguments of a call are those of all its fragments in order, id and name the last ones given; there are as many calls as the largest index says |
| `ReplyContents.OpenAiSays` | core/src/lib.rs:1349-1422 | all text in one block and live piece by piece, then the named calls by index with their arguments; the last finish reason, `tool_calls` read as `tool_use` |
| `AssembledReplies.PartsAreAssembled` | core/src/lib.rs:1255-1308 | streamed events and assembled blocks of a reply tell of the same text and the same tools |
| `AssembledReplies.ReadAsParts` | core/src/lib.rs:1724-1770 | the model call made of what the Anthropic reader returns for a stream has the blocks, events and stop reason of the reply it carries |
| `AssembledReplies.TextFirstIffTextLeads` | core/src/lib.rs:1272-1304 | the events stream text first if and only if no text run with text follows a tool call |
| `AssembledReplies.StreamedTurnsMatch` | core/src/lib.rs:1714-1807 | for turns read from Anthropic streams the two views match if and only if the log held no marker and no reply used puts text after a tool call |
| `AssembledReplies.OpenAiTurnsMatch` | core/src/lib.rs:1402-1422 | with an OpenAI-compatible model the two views match if and only if the log held no marker |
| `History.CollectOutputs` | core/src/app.rs:178-191 | the output map of all tool results in user messages |
| `History.MessagesToHistory` | core/src/app.rs:177-266 | the whole projection, cost stamp included |
| `History.LastAnswerWins` | core/src/app.rs:178-191 | an id has an output if and only if some result answers it, and it is that of the last one |
| `History.CostOnLastAnswer` | core/src/app.rs:258-264 | the cost goes on the last assistant row and nowhere else |
| `HistoryContents.HistorySaysTheLog` | core/src/app.rs:177-257 | message by message, nothing left out or moved: every role has its own row with the text of the message, every call a row with its name and the text of the last result for its id |
| `HistoryContents.OutputIsLastResult` | core/src/app.rs:178-191 | the output of an id is the text of the last result for it in the user messages of the log |
| `LiveHistory.TextFirstReply` | mobile/App.tsx:1253-1296 | a reply with its text first streams exactly the rows the history makes of it |
| `LiveHistory.LateTextReply` | mobile/App.tsx:1253-1296 | with text after a tool, the first row of the reply already differs |
| `LiveEqualsHistory.LoopAnswers` | core/src/lib.rs:1774-1806 | the messages and the events of a completed turn carry the same results |
| `LiveEqualsHistory.LogLeftIs` | lair/src/agent.rs:405-450 | a completed turn leaves the log without its markers, plus what it added |
| `LiveEqualsHistory.LiveViewEqualsHistory` | core/src/app.rs:177-266 | for every completed turn the folded events and the history of the log it leaves agree row by row if and only if the log held no `interrupted` or `error` row and every reply used streamed its text before its tools |
| `LiveEqualsHistory.MarkerRowIsLost` | lair/src/agent.rs:405-450 | an ordinary turn after an interrupted one: the client still shows the marker, the history has lost it |
| `LiveEqualsHistory.PaneShowsHistory` | mobile/App.tsx:1253-1364 | the same for the rows of a chat pane, whatever fresh ids it hands out |
| `LiveRows.PaneActs` | mobile/App.tsx:1253-1406 | one event of a turn changes the rows of the pane exactly as it changes rows without ids |
| `LiveRows.PaneFolds` | mobile/App.tsx:1253-1406 | the same for whole traces, on the screen or in the shadow |
| `ToolSchedule.FoldIsScheduled` | mobile/App.tsx:1291-1326 | at every point of an orderly turn its tools sit in order: finished with their result, one running, the rest waiting; rows before the turn are untouched |
| `ToolSchedule.RunningFollowsServer` | mobile/App.tsx:1291-1406 | the rows shown as running are exactly the earliest announced tool without a result, and none after the end |
| `TurnEvents.LoopIsOrderly` | core/src/lib.rs:1776-1804 | whatever the model and the tools do, output and results come from the tool being executed |
| `TurnEvents.TurnIsOrderly` | lair/src/agent.rs:415-466 | the same for the whole trace of a turn with its end frame |
| `TurnEvents.ClientFollowsServer` | core/src/lib.rs:1776-1804 | for every turn that can run, the client runs exactly the tool the server executes |
| `ChatPaneObject.ChatPane.constructor` | mobile/App.tsx:1057-1060 | a pane starts from its cached rows |
| `ChatPaneObject.ChatPane.HandleStreamEvent` | mobile/App.tsx:1149-1436 | every event changes the whole state as specified, target list and streaming id included; the end of a turn leaves the pane ready |
| `ChatPaneObject.ChatPane.NextQueued` | mobile/App.tsx:1307-1319 | the first waiting tool row after the finished one |
| `ChatPaneObject.ChatPane.OnReady` | mobile/App.tsx:1178-1240 | queue folded in, running marks cleared, shadow cut at the last anchor |
| `ChatPaneObject.ChatPane.TickHistoryStagger` | mobile/App.tsx:1459-1470 | one queued row appended, unless its id is there already |
| `ChatPaneObject.ChatPane.SendMessage` | mobile/App.tsx:1779-1801 | the client's own row, a busy status and a fresh streaming id; an error row when there is no connection; nothing for an empty text or while streaming |
| `ChatPaneObject.ChatPane.ClearConversation` | mobile/App.tsx:1805-1809 | an empty list and a ready status; queue and shadow stay |
| `PaneLaws.ReadyAfterTurn` | mobile/App.tsx:1329-1406 | after any events that end with the end of a turn the pane is ready, not busy unless it replays, and its next message appends one row and starts streaming |
| `PaneLaws.EndedRows` | mobile/App.tsx:1329-1406 | the end of a turn stops every row, stamps its cost on the last answer only, adds a row for an interrupt or an error, and changes nothing else |
| `PaneLaws.EndRowIsHistory` | lair/src/agent.rs:426-457 | however a turn ends, the row its last frame adds on the client is the one the history shows for what it wrote to the log |
| `PaneLaws.CostOnLastRow` | mobile/App.tsx:1341-1347 | the cost goes on the last assistant row and nowhere else |
| `PaneLaws.SendDecides` | mobile/App.tsx:1779-1801 | a message is sent if and only if it is not empty and nothing streams; its row is the last one, followed by an error row without a connection |
| `PaneLaws.StatusFollowsTurn` | mobile/App.tsx:1253-1406 | outside a replay the status is streaming after output of the model and ready after an end, over any events |
| `PaneLaws.GreetingDecides` | mobile/App.tsx:1178-1240 | after a greeting the pane is busy if and only if a turn is on; then nothing runs on screen and the shadow is the rows up to the last user, background or peer row |
| `PaneLaws.ReplayIsUnseen` | mobile/App.tsx:1241-1252 | while a replay rebuilds the rows nothing on screen moves |
| `PaneLaws.LinesAreCollected` | mobile/App.tsx:1297-1302 | what a tool prints is collected in its row line by line; all other rows stay |
| `PaneLaws.BackgroundRowIsHistory` | mobile/App.tsx:1415-1436 | a background or peer event adds the row the history shows for its message, and a task that has a row adds none |
| `ChatPaneObject.ChatPane.LoadHistory` | mobile/App.tsx:1487-1547 | the common-prefix loop and the merge; the rows that pass for the history are kept and each other one gets role, text, cost, output and id of the history |
| `TaskRows.PaneFollows` | mobile/App.tsx:1253-1436 | any event the server buffers changes the pane as it changes the rows of the view, background and peer rows included |
| `Replays.TurnExtends` | mobile/App.tsx:1253-1436 | a turn only appends rows; those before it and those of completed tasks stay as they were |
| `Replays.FoldsAddAlike` | mobile/App.tsx:1253-1436 | from whatever rows, the same events add as many rows that are not of completed tasks |
| `Replays.RowsForNextTurn` | mobile/App.tsx:1415-1423 | a turn leaves each completed task with at most one row, and that a background completion: what the next turn is taken to start from |
| `Cuts.FirmIs` | mobile/App.tsx:1221-1229 | the cut takes nothing away if and only if the last row is an anchor or none is |
| `ReplayCuts.CleanMeans` | mobile/App.tsx:1214-1233 | a cut is clean if and only if at every anchor the turn had brought all its rows were those of completed tasks, and there was such an anchor, or the rows before the turn end with one, or they hold none and the turn has shown nothing |
| `ReplayCuts.GoodReplays` | mobile/App.tsx:1178-1252 | from a clean cut a whole replay shows the rows of the turn |
| `ReplayCuts.BadRepeats` | mobile/App.tsx:1178-1252 | from a cut that keeps the rows before the turn and a plain row of the turn, it shows more |
| `ReplayCuts.GoodThen` | mobile/App.tsx:1214-1233 | the cut after a clean one is decided by the farthest point of the turn seen so far |
| `LostRows.CutsToFront` | mobile/App.tsx:1221-1229 | until the turn has brought an anchor, the cut is that of the rows before it, so rows after their last anchor go |
| `LostRows.TurnAlike` | mobile/App.tsx:1253-1436 | on rows without those lost ones the turn makes the same rows, roles and tasks |
| `LostRows.LostDiffers` | mobile/App.tsx:1178-1252 | from a cut that lost rows of before the turn, a replay never shows the rows of the turn; from the bare front exactly as many fewer |
| `Reconnect.OrderlyTurnSoFar` | lair/src/agent.rs:415-466 | every moment of an orderly turn, background and peer events anywhere in between, meets what these theorems ask of its events |
| `Reconnect.BrokenStaysResumable` | mobile/App.tsx:1178-1252 | a connection that breaks at any frame leaves the client able to rebuild the turn |
| `ReconnectTheorems.LastCutIs` | mobile/App.tsx:1178-1252 | over any number of broken connections a clean cut stays one if and only if the cut at the farthest point seen is clean |
| `ReconnectTheorems.JoinsATurn` | lair/src/agent.rs:612-640 | a client that joins with part of its rows still queued rebuilds exactly the turn so far, on top of its rows as a resume cuts them, if the cut at the farthest point it had on screen is clean, and more rows otherwise |
| `ReconnectTheorems.ReconnectsAreInvisible` | lair/src/agent.rs:612-640 | after any number of drops and resumes, whatever rows were there before the turn: the rows of a client that never dropped if and only if the cuts at the drop and at the farthest point seen are clean; otherwise more rows, or others if the first cut took rows from before the turn; on screen if and only if the last replay was not empty |
| `ReconnectTheorems.ReconnectsBeforeAnchors` | mobile/App.tsx:1214-1233 | before any anchor of the turn: invisible if and only if the rows before it end with an anchor, or hold none and nothing was shown; else more rows without an anchor, and fewer by exactly those after the last one with one |
| `ReconnectTheorems.PlainTurnsAreClean` | mobile/App.tsx:1221-1229 | without background and peer events a cut is clean if and only if the rows before the turn end with an anchor, or hold none and nothing was shown |
| `ReconnectTheorems.AnswerIsLost` | mobile/App.tsx:1347-1353 | a turn whose trigger has no row: a drop after one piece of text loses the last answer |
| `ReconnectTheorems.EarlyCompletionIsClean` | mobile/App.tsx:1415-1423 | a task that completes before anything else of the turn is shown does no harm to rows that end with an anchor |
| `ReconnectTheorems.LateCompletionIsNotClean` | mobile/App.tsx:1415-1423 | one that completes after text was shown makes a resumed client repeat the text |
| `ReconnectTheorems.TurnEndedMeanwhile` | mobile/App.tsx:1235-1240 | back after the end of the turn, the client shows what it had seen; a load then shows the server rows, but a kept row that was marked as running stays marked |
| `Fanout.Retain` | core/src/app.rs:66 | every open subscriber gets the event, closed ones are dropped, order kept |
| `Fanout.StreamState.BufferAndFanout` | core/src/app.rs:62-72 | buffer and every open channel grow by the event; replay and channel stay all events since the starting point |
| `Fanout.StreamState.ClearBuffer` | lair/src/agent.rs:417 | the buffer restarts; no channel loses anything |
| `Fanout.StreamState.Subscribe` | lair/src/agent.rs:612-619 | the replay is the buffer of a running turn, nothing otherwise, taken together with the subscription |
| `Fanout.Greeting` | lair/src/agent.rs:621-640 | greeting, task list, replay, and an end marker only after a replay |
| `Fanout.ConnectionSeesTheTurn` | lair/src/agent.rs:612-650 | what a client that joined in this turn has been sent is exactly what the reconnect theorems start from |
| `Reconcile.CommonIsLongest` | mobile/App.tsx:1518-1525 | the common prefix matches under the lenient equality and cannot be longer |
| `Reconcile.ReconcileIsCorrect` | mobile/App.tsx:1487-1547 | an idle load and a full drain show the server rows if and only if no kept row has the id of a queued one |
| `Reconcile.LoadedRows` | mobile/App.tsx:1512-1547 | the kept prefix is verbatim, the rest is the server rows; on a clash rows are missing |
| `Reconcile.LoadFields` | mobile/App.tsx:1487-1547 | a load field by field, in every state: which rows pass for the history, that as many as do are kept, and what role, text, cost, output and id the others get, at once or queued |
| `Reconcile.LoadedFields` | mobile/App.tsx:1487-1547 | field by field: rows that pass for the history stay, from there on each row has the role, text, cost, output and id of the history, tool rows included, unless a kept row has the id of one of them |
| `Reconcile.LiveRowsAreKept` | mobile/App.tsx:1528-1535 | while a turn is streamed or replayed, rows ahead of the server stay |
| `Reconcile.ReconcileIsIdempotent` | mobile/App.tsx:1526-1529 | a second load of the same history changes nothing |
| `Reconcile.EventKeepsInPlace` | mobile/App.tsx:1178-1436 | with nothing queued every event keeps `h<i>` at index i and every previous role right |
| `Reconcile.LoadKeepsInPlace` | mobile/App.tsx:1487-1547 | so does every load |
| `Reconcile.TickKeepsInPlace` | mobile/App.tsx:1459-1470 | so does every tick, and it never drops its row |
| `Reconcile.QueueIsFoldedIn` | mobile/App.tsx:1208-1217 | the dedupe of a resume drops no queued row |
| `Reconcile.SendKeepsInPlace` | mobile/App.tsx:1779-1801 | so does a message of the client's own, sent or not |
| `Reconcile.ReconcileAlwaysWorks` | mobile/App.tsx:1459-1547 | after any run of events, loads, ticks, own messages and clears in which nothing but greetings, loads and ticks comes while rows are queued: the merge is correct, keeps the prefix verbatim and every previous role right, and is idempotent |
| `Reconcile.CacheInPlace` | mobile/src/historyCache.ts:56-68 | rows from the cache keep ids in place if and only if none was trimmed or no kept row has a history id |
| `Reconcile.CacheGivesBack` | mobile/src/historyCache.ts:56-68 | the cache gives back the newest 500 rows, stopped, with their previous roles, and nothing else changed |
| `Reconcile.TrimmedCacheLosesARow` | mobile/App.tsx:1466 | a trimmed cache with which a row of the server is never shown |
| `Reconcile.ReloadIsNoOp` | mobile/App.tsx:1354-1360 | for rows that agree otherwise, the reload at a turn boundary is a no-op if and only if the costs agree |
| `Reconcile.SecondTurnIsReplaced` | core/src/app.rs:258-264 | after the second turn they do not: everything from the first answer on is replaced |
| `Compaction.PreviewEndsAtBoundary` | core/src/lib.rs:1065-1069 | a preview is cut at the greatest UTF-8 character boundary not above the limit |
| `Compaction.OldIsStale` | core/src/lib.rs:1030-1040 | the indices up to the cutoff are those of result messages with at least `keep_full` newer ones |
| `Compaction.CompactionIsExact` | core/src/lib.rs:1016-1112 | every message keeps role (translated), block count, kinds, ids and names; exactly the stale results and the message before each are stubbed |
| `Compaction.FreshSuffix` | core/src/lib.rs:1030-1040 | nothing newer than an intact result message is stubbed |
| `Compaction.CallsAndResultsTogether` | core/src/lib.rs:1042-1112 | calls and their results are stubbed together or left alone together |
| `Compaction.CompactionKeepsPairs` | core/src/lib.rs:1016-1112 | a compacted log is still paired |
| `CompactedContents.CompactedBlocks` | core/src/lib.rs:1016-1112 | block by block: a result with `keep_full` newer ones stays if it has at most 300 bytes and else gives its size, outcome and longest prefix; likewise texts before it at 200 bytes; those calls lose their input; nothing else changes but the role of background messages |
| `CompactedContents.StaleMeans` | core/src/lib.rs:1030-1040 | results are old if and only if at least `keep_full` later messages are nothing but results |
| `CompactedContents.DecimalReads` | core/src/lib.rs:1070-1072 | the size reads back as the number of bytes |
| `OpenAiRequest.MessagesToOpenAi` | core/src/lib.rs:1129-1180 | the system prompt, then message by message, nothing left out or moved: the texts of a user message joined by line feeds and one tool message for each result, the text and the calls of an assistant message with names and inputs |
| `RequestContents.RequestSaysTheMessages` | core/src/lib.rs:1129-1180 | the same as a property of every log |
| `OpenAiRequest.RequestIsAnswered` | core/src/lib.rs:1129-1180 | for a paired log without stray results, every call is answered once, in order, right after it, and nothing else is a tool message |
| `OpenAiRequest.CompactedRequestIsAnswered` | core/src/lib.rs:1016-1180 | the same after compaction |
| `OpenAiRequest.TurnRequestIsAnswered` | core/src/lib.rs:1438-1513 | the same at every point of a turn, with an interrupt anywhere |
| `TurnRequests.ReachableRequestsAreAnswered` | core/src/lib.rs:1438-1513 | the same for every turn of every reachable state of the scheduler |
| `Registry.Registry.Set` | core/src/registry.rs:176-186 | replaces in place or appends; every other slug is found as before |
| `Registry.Registry.Add` | core/src/registry.rs:188-196 | refused if and only if the slug is taken |
| `Registry.Registry.Remove` | core/src/registry.rs:198-209 | the record is gone, the others stay in order; true if and only if it was there |
| `Registry.Registry.DepthOf` | core/src/registry.rs:247-265 | the smaller of 256 and the number of parent hops, `None` for an unknown slug |
| `Registry.Registry.DescendantsLeavesFirst` | core/src/registry.rs:278-290 | terminates and returns each transitive descendant once, before all its ancestors |
| `Registry.Registry.Terminate` | lair/src/lair.rs:996-1054 | the cascade removes exactly the descendants, and the agent itself when that succeeds; at every moment no surviving record has lost its parent |
| `AgentForest.WalkEndsIffNoCycle` | core/src/registry.rs:282-288 | the level walk ends if and only if the agent is not its own ancestor |
| `AgentForest.LeavesFirstIsExact` | core/src/registry.rs:278-290 | the levels hold every descendant exactly once, each before its ancestors |
| `AgentForest.RemovalOrphansNobody` | core/src/registry.rs:275-277 | removal in that order, stopped anywhere, orphans nobody |
| `AgentForest.LateChildrenOfTheRemoved` | lair/src/lair.rs:1000-1048 | records registered meanwhile: nobody is orphaned if and only if none of them has a parent that is removed already |
| `AgentForest.ChainsAreShort` | core/src/registry.rs:282-288 | no parent chain to an agent off any cycle is longer than the registry |
| `AgentForest.OneDepth` | core/src/registry.rs:247-265 | the depth is determined by its specification |
| `AgentForest.DepthUnderCycle` | core/src/registry.rs:250-264 | on a cycle or below one the depth is 256 |
| `AgentForest.ChildIsOneDeeper` | core/src/registry.rs:247-265 | a child is one deeper than its parent, up to the cap |
| `TaskOutputs.TaskOutput.Append` | core/src/background.rs:38-46 | the tail stays the last 65536 characters of everything ever appended |
| `TaskOutputs.TaskOutput.ReadSince` | core/src/background.rs:52-64 | the characters from the later of the cursor and the start of the tail on, and the new watermark |
| `TaskOutputs.Monitor.Poll` | lair/src/agent.rs:1776-1777 | one round: the cursor moves to the watermark |
| `TaskOutputs.ReadsConcatenate` | lair/src/agent.rs:1755-1777 | the reads concatenate to the output up to the cursor if and only if no gap between reads exceeded the cap |
| `TaskRegistry.TaskRegistry.constructor` | core/src/app.rs:129-154 | whatever was saved: none runs any more, and there are no tokens and no buffers |
| `TaskRegistry.TaskRegistry.RegisterTask` | core/src/background.rs:301-329 | the newest 50 records stay, tokens and buffers of evicted ids go; for a running record the maps stay in step if and only if its id is not recorded yet |
| `TaskRegistry.TaskRegistry.FinalizeTask` | core/src/background.rs:333-357 | the record says how it ended, its token is gone, the others are untouched; an evicted id changes no record |
| `TaskRegistry.TaskRegistry.CancelTask` | core/src/background.rs:363-373 | fires, and returns true, exactly for a running record |
| `TaskRegistry.IdsRegistered` | core/src/background.rs:314-324 | with a fresh id the tokens are exactly those of the running records kept |
| `TaskRegistry.IdsRepeated` | core/src/background.rs:310-324 | with a recorded one they can not be |
| `Base32.ToBase32` | core/src/noise.rs:62-79 | the bits of the bytes, zero-filled, five to a letter; length ceil(8n/5) |
| `Base32.FromBase32` | core/src/noise.rs:82-98 | `None` if and only if a character is invalid; otherwise the bits eight to a byte, the rest ignored |
| `Base32.PushedBits` | core/src/noise.rs:68 | shifting into the 32-bit accumulator keeps the pending bits although high bits are lost |
| `Base32.RoundTrip` | core/src/noise.rs:62-98 | decoding an encoding gives the bytes back, for every byte string |
| `Base32.OneEncoding` | core/src/noise.rs:62-79 | there is one encoding |
| `Base32.LettersAre` | core/src/noise.rs:63 | the alphabet is that of section 6 of RFC 4648 |
| `Base32.CaseIsIgnored` | core/src/noise.rs:88 | lower case decodes like upper case |
| `Base32.DecodeEncode` | core/src/noise.rs:82-98 | encoding what was decoded gives the text back if and only if the ignored bits are fewer than five zeros |
| `Sse.ChunkingIsInvisible` | core/src/lib.rs:1187-1193 | for any stream and any chunks, draining after every chunk equals one drain of the whole if and only if every cut at CR LF CR LF is final |
| `Sse.CrFreeChunkingIsInvisible` | core/src/lib.rs:1187-1193 | so for streams without carriage returns, or with one kind of blank line, chunking never shows |
| `Sse.MixedEndingsDepend` | core/src/lib.rs:1189-1191 | a stream with both kinds for which it does |
| `Utf8.DecodingChunkByChunk` | core/src/lib.rs:1239 | for the bytes of any text, decoding chunk by chunk gives the text if and only if no chunk begins inside a character |
| `Sse.ByteChunkingIsInvisible` | core/src/lib.rs:1239-1241 | for chunks of bytes at character boundaries: the blocks of the whole text if and only if every cut at CR LF CR LF is final |
| `Compaction.ByteLenIs` | core/src/lib.rs:1062-1069 | the length previews are measured by is that of the UTF-8 encoding |
| `Sse.DataIsJoined` | core/src/lib.rs:1197-1204 | data lines are joined by line feeds as in the standard, unless an empty one is the first of several |
| `SseRoundTrip.EventIsReadBack` | core/src/lib.rs:1194-1206 | an event written line by line, with either line ending and any spaces before its values, is read back: its kind, and its data joined by line feeds |
| `SseRoundTrip.LastKindCounts` | core/src/lib.rs:1197-1200 | of several kinds given the last one counts |
| `SseRoundTrip.StreamIsReadBack` | core/src/lib.rs:1187-1206 | round trip: however a stream of written events is cut into chunks, exactly these events are read, and nothing is left over |
| `Sse.SseBuffer.Pop` | core/src/lib.rs:1187-1206 | takes the first complete event off the buffer, or leaves it alone |
| `Sse.SseBuffer.Receive` | core/src/lib.rs:1239-1241 | all complete events after a chunk of bytes that is decoded by itself, and the rest |
| `Sse.SseBuffer.ReceiveAll` | core/src/lib.rs:1230-1241 | the same over all chunks |

## Left out

- SendMessage.SendMessage: costs, token counts and the text of the outcome are not modelled; truncating a tool's output is part of the script's result, as events and log get the same truncated text.
- ReplyAssembly.StreamAnthropic: tool input is an opaque string, so input that is not valid JSON is kept where the code puts `{}`; the token usage frames are ignored.
- OpenAiReply.StreamOpenAi: the same for malformed arguments; the token usage is not part of the result.
- History.MessagesToHistory: the text of a tool row is the tool's name, without the preview of its input and without the display label.
- ChatPaneObject.ChatPane.HandleStreamEvent: the same for tool rows; the history load that `done` starts is a step of its own, and the callback at the end of a turn is not modelled.
- LiveEqualsHistory.LiveViewEqualsHistory: costs are not compared (see `Reconcile.ReloadIsNoOp`); the rows before the turn are assumed to show the log before it, which leaves out a queued user message, whose text the code adds to the log twice (`lair/src/agent.rs:525-530` and `lair/src/agent.rs:395-403`); refused second user messages, which send an `error` frame into the running turn, are assumed absent. The trace is that of the turn's own events: a background or peer row that arrives in mid-turn stands between live rows on the client, while the log holds its message only after the fold at the end of the turn, so with such a row the two can differ although the stated condition holds.
- ReconnectTheorems.ReconnectsAreInvisible: no history load happens during the episodes, so rows lost or repeated are those until the next load; when rows were lost and the turn's first anchor has been on screen, it says that the rows differ, not by how many; and the rows are compared without ids (but with the task of a completed task's row), costs and previous roles.
- Reconcile.ReconcileAlwaysWorks: the size limit of the row cache and failed fetches are not modelled; a React state updater runs at once.
- Registry.Registry.Terminate: the registry is not changed by anybody else during the removals, although the source releases its lock between them (`AgentForest.LateChildrenOfTheRemoved` says who is orphaned otherwise); stopping a process is a parameter for the agent itself and ignored for descendants, as in the source; tokens and directories are not modelled.
- Sse.DataIsJoined: compares the values as the code reads them; the code drops all leading blanks of a value, the standard one space.
- The startup prompt turn, which claims and releases the gate on its own terms, and the exit of a turn without an API key.
- Clearing the conversation during a turn.
- What the client shows of a reply that fails or is cut short after text was streamed: that text is not in the log.
- Deadlocks: the stream lock and the gate lock are taken in both orders; sections are atomic here.
- Notices, keepalive pings, tool label wording, markdown and other rendering, floating-point cost arithmetic.
- The desktop client, the command-line tools, the relay, SSH, MCP, git worktrees, Noise cryptography, JSON encoding and all persistence to disk.
