# Verified model of the Cogito runtime core

Cogito is an event-sourced agent runtime. Everything a session does is appended to a log
before it takes effect, and whatever is in memory must be recoverable from that log. This
project models the parts where that promise is decided and proves what they keep, over every
log, every run and every interleaving.

Dafny 4.11 checks the whole project with `dafny verify dfyconfig.toml`.

## How it is organised

| file | models |
|---|---|
| `Events.dfy` | the persisted events and the values they carry; lists of positions |
| `Resume.dfy`, `ResumeMeaning.dfy` | the resume coordinator: the runtime's backward searches, an independent forward machine they are proved equal to, and what the answer says of the log itself |
| `Runtime.dfy`, `RuntimeSafety.dfy`, `JobResults.dfy`, `TurnEvents.dfy` | the session actor and turn driver as a step machine with crashes and reopenings; what every run keeps; what the model hears of its jobs; under which turn events are logged and how turns end |
| `Recorder.dfy`, `StreamDemux.dfy`, `StreamMeaning.dfy` | the step recorder and the stream demultiplexer, the writers whose log the coordinator reads back; what a response leaves in message and log, by its own events |
| `Jobs.dfy`, `JobProtocol.dfy` | the job manager, lock-scoped block by block, and all its interleavings |
| `Dispatcher.dfy`, `SessionJobs.dfy`, `SessionRuns.dfy` | the dispatcher; session, dispatcher, triggers, workers and channel sends running side by side; concrete runs of that system |
| `Compactor.dfy`, `CompactionDecision.dfy`, `CompactorRuns.dfy` | the truncating compactor, when it writes and what, and runs of growing logs with repeated compactions |
| `Projector.dfy`, `ProjectionMeaning.dfy`, `Faithful.dfy`, `CompactedProjection.dfy` | the projector, what it makes of each event, what it conserves, and what a compaction changes in a prompt |
| `Utf8.dfy`, `Sigil.dfy`, `SkillInjector.dfy`, `SkillMeaning.dfy` | well-formed UTF-8, the code-fence-aware sigil scanner, the once-only skill injector and the skills it activates |
| `Truncate.dfy`, `Naming.dfy` | head-and-tail truncation, qualified tool names |

Where the source updates state, the model is a method or a class proved against a specification
function; the theorems are lemmas about those functions. What the main operations answer is also said of the log, the
response or the text they read, without the specification function's own parts.

## What the proofs found

Each of these is a lemma; the model follows the code.

- **A pause loses the calls queued behind it.** When a dispatched call turns asynchronous, the rest of
  the queue is dropped (`tool_dispatching.rs:81-90`, and `pending: vec![]` on the way back). After the
  wake-up the next model call finds every tool use answered if and only if nothing was queued
  (`PauseDropsTheQueue`, witness `PauseCanLoseACall`), and the lost calls are never answered later
  (`LostStaysUnanswered`).
- **An interrupted turn poisons the log.** `RestartCurrentTurn` is downgraded to an idle session, so the
  next turn starts inside the interrupted one and every later replay is refused (`StartingATurn`,
  `NestedForever`, witness `InterruptedTurnPoisonsLog`).
- **A fast job's wake-up is lost.** A completion that reaches the actor after the registration but before the
  pause is dropped, and nothing but a restart can wake that turn (`WakesUnlessMissed`, `FastJobIsMissed`,
  `ReopeningHeals`). Dropping it also clears the actor's in-flight marker, so the next trigger starts a turn over the
  running one (`TriggerBeforePauseIsFatal`). Over any run the log stays readable if and only if no trigger was taken
  in that window or on an interrupted turn (`LogStaysReadable`). Both harms happen on concrete runs from the start
  (`FastJobsHappen`).
- **A text block sealed without deltas is in the message but not in the log**; the round trip of a response
  holds exactly when sealed text equals its deltas (`DemuxThenReplay`, `EmptyTextBlockIsLost`).
- **Text of a failed response leaks into the next one.** No error path resets the recorder's buffers, so unsealed text
  is flushed with the next sealed text block, under the failed turn's id (witness `LeftoverIsFlushed`); `LeftoverShows`
  says exactly when the log is none the worse for it.
- **Compaction leaves the body of the last dropped turn behind, for good** (`LeftoverForever`); in the steady
  state each compaction hides one user message and nothing else (`SteadyState`).
- **With no recent turn kept, compaction need not converge** (`ConvergesWithoutRecentTurns` gives the exact condition,
  `RepeatsItself` an input). The turn driver itself cannot get there: it records a context pass before it calls the
  compactor (`transitions/init.rs:54-58`), so the last turn's span is closed.
- **Cutting a chunk changes what the sigil scanner reports**: after a newline single backticks no longer count,
  unless the chunk ends there (`CuttingAtNewlineMatters`). The module's comment promises multi-chunk streaming
  unconditionally. `CuttingIsSafe` says exactly which cuts are harmless for every continuation: behind nothing; behind a
  newline unless that newline lies in plain text; or inside an inline span unless the chunk ends in a backtick at
  a line start. Any other cut goes wrong before one backtick or before three (`UnsafeCutMatters`).
- **A truncated qualified name need not start with `mcp__<server>__`**, which the documentation of `qualify` says it
  does. It does if and only if the name was not truncated or the server has at most 17 characters (`NamesItsServer`);
  `LostServerName` is an input for which it does not.

## Assumptions about the writers

Call ids and job ids are fresh. A turn start and a pause carry their turn id. The response stream ends with one
`MessageCompleted`, and a `ToolUse` stop comes with a tool use. Sequence numbers are consecutive, from 0 in the
recorder's own log. Readers see less: the store hands out the events numbered above 0 (`store.rs:45-49`,
`jsonl.rs:136`), so the theorems about the compactor and the projector hold for consecutive numbers from any `base`,
1 in practice, and `OpeningEventIsUnseen` shows that the resume coordinator does not miss the opening event.
`Runtime` takes a sealed text to equal its deltas; `DemuxThenReplay` says what happens when it does not. For tool
pairs: a turn's tool events follow its first context pass, as the turn driver writes them.

## Model

| member | source | states |
|---|---|---|
| Resume.Replay | crates/cogito-core/src/harness/resume.rs:165-246 | on every log, well-formed or not, the backward searches answer exactly what a one-pass forward machine answers, errors included |
| Resume.CheckNoNestedTurnStarted | crates/cogito-core/src/harness/resume.rs:255-276 | the loop's flag finds a start inside an open turn exactly when the forward machine does |
| Resume.OpenMeans | crates/cogito-core/src/harness/resume.rs:255-276 | a turn counts as open exactly when some start has no completion or failure after it; a pause does not close it |
| Resume.NestingMeans | crates/cogito-core/src/harness/resume.rs:248-276 | the log is nested exactly when some start lies where an earlier turn is still open |
| Resume.ResumeFromTurnPaused | crates/cogito-core/src/harness/resume.rs:283-328 | a paused turn resumes by its job's first completion after the pause and its latest submission, with the results since the turn start |
| Resume.ResumeFromTurnStarted | crates/cogito-core/src/harness/resume.rs:334-430 | the last model call decides: unsealed restarts, unanswered or answered tool uses dispatch, none continues from the message, a promise without tool use is malformed |
| Resume.RebuildModelOutput | crates/cogito-core/src/harness/resume.rs:434-476 | text and tool uses in log order, with the latest seal's stop reason and usage |
| Resume.CollectPausedCallContext | crates/cogito-core/src/harness/resume.rs:511-540 | the results before the pause are those since the turn start, and no pending call survives |
| Resume.JobTables | crates/cogito-core/src/harness/resume.rs:487-499 | the reverse lookup finds a job's latest submission, and the pause search finds whether any turn paused on it |
| Resume.ModeAtBoundary | crates/cogito-core/src/harness/resume.rs:199-245 | the latest boundary determines the forward machine's mode |
| Resume.CallAtPositions | crates/cogito-core/src/harness/resume.rs:339-376 | the two backward positions determine whether the last call is open or sealed, and with which blocks and results |
| Resume.OpeningEventIsUnseen | crates/cogito-core/src/runtime/builder.rs:218-226 | without the opening event, which the store leaves out, the decision is the same, except that a log of nothing else has no last sequence number |
| ResumeMeaning.RefusesExactly | crates/cogito-core/src/harness/resume.rs:165-276 | on every log: an unreadable event refuses it first, with the version of the first such event; otherwise it is malformed for a reason exactly when the events meet that reason's condition and no earlier one's; in all other cases there is an answer |
| ResumeMeaning.AnswersWithPoint | crates/cogito-core/src/harness/resume.rs:194-430 | the resume point, by positions of the log: which boundary and model call are the latest, which tool uses behind it are unanswered, which results and blocks it hands on, each once and in order |
| RuntimeSafety.ReplayRecoversPhase | crates/cogito-core/src/runtime/session_loop.rs:310-471 | for one turn driver at a time: after any run with any number of crashes, replay answers the writer's phase and the last sequence number, unless a turn was ever started over an interrupted one; then it refuses |
| RuntimeSafety.PrefixIsRun | crates/cogito-core/src/harness/resume.rs:356-363 | every prefix of a written log is the log of a shorter run, so the recovery theorem covers every cut |
| RuntimeSafety.StartingATurn | crates/cogito-core/src/runtime/session_loop.rs:319-339 | starting a turn keeps the log readable if and only if replay would have answered a fresh turn |
| RuntimeSafety.NestedForever | crates/cogito-core/src/harness/resume.rs:255-276 | once nested, every extension of the log is refused |
| RuntimeSafety.InterruptedTurnPoisonsLog | crates/cogito-core/src/runtime/session_loop.rs:319-339 | a crash before the first seal, a reopening and a new turn leave a log that cannot be replayed |
| RuntimeSafety.NoCallAnsweredTwice | crates/cogito-core/src/runtime/session_loop.rs:424-468 | over every run, pauses and crashes included, no tool call has two recorded results |
| RuntimeSafety.NextCallFindsEveryResult | crates/cogito-core/src/harness/resume.rs:355-428 | in a turn that has not resumed from a pause, every tool use of the sealed call has exactly one result before the next model call |
| RuntimeSafety.NextCallOwesOnlyLost | crates/cogito-core/src/harness/turn_driver/transitions/tool_dispatching.rs:35-113 | what any turn leaves unanswered at the next model call was lost at a pause or by a crash after one |
| RuntimeSafety.LostStaysUnanswered | crates/cogito-core/src/harness/turn_driver/transitions/tool_dispatching.rs:81-90 | a call lost at a pause never gets a result, however the run goes on |
| RuntimeSafety.PauseDropsTheQueue | crates/cogito-core/src/harness/turn_driver/transitions/tool_dispatching.rs:81-90 | after any pause answered without a crash, the first of a turn or a later one, exactly the queued calls are unanswered; all are answered if and only if none was queued |
| RuntimeSafety.PauseCanLoseACall | crates/cogito-core/src/runtime/session_loop.rs:755-772 | a concrete run in which the synchronous call behind an asynchronous one is lost |
| JobResults.ModelHearsOutcome | crates/cogito-core/src/runtime/session_loop.rs:835-857 | over every run, crashes and pauses included: the result recorded for a job's call is what the job returned, its failure under its own message, or its cancellation |
| JobResults.CarriedIsRecorded | crates/cogito-core/src/runtime/session_loop.rs:424-468 | every result a turn carries to its next model call is in the log, also in a turn reopened behind a wake-up |
| JobResults.TurnCarriesOutcome | crates/cogito-core/src/runtime/session_loop.rs:424-468 | so what a turn carries for a job's call is the job's outcome |
| JobResults.WakeUpIsAnswered | crates/cogito-core/src/runtime/session_loop.rs:720-772 | from every woken state the next step records a result for the job's call, saying its outcome, and carries just that |
| JobResults.ReopenedHearsOutcome | crates/cogito-core/src/runtime/session_loop.rs:424-468 | reopened behind a logged wake-up: with the result recorded the turn carries just that result, saying the outcome; without it, it is about to record it |
| TurnEvents.EventsCarryTheirTurn | crates/cogito-core/src/harness/step_recorder.rs:777-800 | over every run with any crashes, each event but the session's opening is logged under the turn started last |
| TurnEvents.AnsweredTurnCompletes | crates/cogito-core/src/harness/turn_driver/transitions/model_completed.rs:29-100 | where replay continues from a sealed answer, the turn can complete, and replay then answers a fresh turn |
| TurnEvents.CompletesBehindSeal | crates/cogito-core/src/harness/turn_driver/transitions/model_completed.rs:61-100 | a turn completes only right behind the seal of a model call |
| Recorder.StepRecorder.AppendEvent | crates/cogito-core/src/harness/step_recorder.rs:777-800 | an append numbers the event with its position and changes nothing else |
| Recorder.StepRecorder.OnTextBlockComplete | crates/cogito-core/src/harness/step_recorder.rs:201-219 | sealing flushes the buffer as one event, or writes nothing when there is none |
| Recorder.StepRecorder.OnThinkingBlockComplete | crates/cogito-core/src/harness/step_recorder.rs:244-264 | as for text, with the opaque data of the seal |
| Recorder.StepRecorder.RecordContextCompacted | crates/cogito-core/src/harness/step_recorder.rs:643-735 | a compaction is appended exactly when its range meets the five range invariants; otherwise the first one violated is reported and nothing changes |
| Recorder.RefusalMeans | crates/cogito-core/src/harness/step_recorder.rs:658-716 | a range is refused for the first of the five invariants it fails, each stated on the log, and for nothing else |
| Recorder.StepRecorder.RecordSystemPromptInjected | crates/cogito-core/src/harness/step_recorder.rs:432-462 | one injection per turn: a repeat returns the event already there |
| Recorder.InjectedIsFirst | crates/cogito-core/src/harness/step_recorder.rs:432-462 | the existing event is the turn's first injection |
| StreamDemux.Demultiplex | crates/cogito-core/src/harness/stream_demux.rs:69-195 | log, buffers and message are those of feeding the events up to the first error one by one |
| StreamMeaning.MessageHoldsEveryBlock | crates/cogito-core/src/harness/stream_demux.rs:103-195 | the sealed message is every completed block once, thinking and its opaque data included, by block index and in order of arrival where the index is the same |
| StreamMeaning.LastReportCounts | crates/cogito-core/src/harness/stream_demux.rs:159-178 | stop reason and usage are those reported last |
| StreamMeaning.LogHoldsEveryWrite | crates/cogito-core/src/harness/step_recorder.rs:177-264 | the log gains one event for each tool use, each text or thinking block sealed behind a delta, and the end of the response, in order of arrival, a block's event with its joined deltas and the seal's opaque data |
| StreamMeaning.BufferWaits | crates/cogito-core/src/harness/step_recorder.rs:177-264 | a buffer holds the deltas since the latest seal, behind a leftover if there was no seal yet |
| StreamDemux.SortSorts | crates/cogito-core/src/harness/stream_demux.rs:188-189 | the block sort orders by index and keeps every block |
| StreamDemux.SortSpoken | crates/cogito-core/src/harness/stream_demux.rs:188-189 | sorting and leaving out the thinking blocks commute |
| StreamDemux.FeedContent | crates/cogito-core/src/harness/stream_demux.rs:80-186 | logged tool uses always equal those of the message; logged blocks equal its blocks, thinking aside, exactly when sealed text equals its deltas |
| StreamDemux.SealedStream | crates/cogito-core/src/harness/stream_demux.rs:159-178 | a complete response leaves the coordinator a call sealed with what was logged and the reported stop reason and usage |
| StreamDemux.DemuxThenReplay | crates/cogito-core/src/harness/resume.rs:434-476 | the round trip: tool uses come back as pending, in order; without any, the message itself comes back, thinking aside, exactly when its text is faithful |
| StreamDemux.EmptyTextBlockIsLost | crates/cogito-core/src/harness/step_recorder.rs:201-219 | a text block sealed without a delta is in the message and leaves no event |
| StreamDemux.LeftoverShows | crates/cogito-core/src/harness/stream_demux.rs:80-110 | text buffered by a failed response leaves the log of the next response alone if and only if that one seals no text, or the leftover is empty, of the same turn, and text comes before the first seal |
| StreamDemux.LeftoverIsFlushed | crates/cogito-core/src/harness/step_recorder.rs:177-219 | two responses, the first cut off: the second one's block carries both texts under the first one's turn |
| Jobs.LocalJobManager.CompleteInternal | crates/cogito-jobs/src/local.rs:117-159 | settles a running job and takes its sink; does nothing to a terminal or unknown one |
| Jobs.LocalJobManager.Cancel | crates/cogito-jobs/src/local.rs:192-225 | settles as cancelled and hands out sink and handle; a second cancel is a no-op, an unknown job an error |
| Jobs.LocalJobManager.OnComplete | crates/cogito-jobs/src/local.rs:227-253 | a registration replaces the stored sink, or on a terminal job is owed its event at once |
| Jobs.LocalJobManager.Result | crates/cogito-jobs/src/local.rs:172-182 | the outcome, or an error for an unknown or unfinished job |
| JobProtocol.TerminalMeansSettled | crates/cogito-jobs/src/local.rs:88-159 | in every interleaving a job is running exactly while it has no outcome; a success ends completed, a failure failed, a cancel cancelled, and a terminal job holds no sink |
| JobProtocol.SettledForever | crates/cogito-jobs/src/local.rs:117-159 | status and outcome never change once terminal, also when a cancelled job's future still finishes |
| JobProtocol.FirstSettlementDecides | crates/cogito-jobs/src/local.rs:117-225 | in every interleaving a job's outcome is that of the first completion or cancel behind its submission, and until one comes there is none |
| JobProtocol.OneEventPerRegistration | crates/cogito-jobs/src/local.rs:117-159 | a registration has exactly one event, sent or owed, with the outcome the manager reports, if and only if its job is terminal and no later registration replaced it; otherwise none |
| JobProtocol.EventsAgreeWithResult | crates/cogito-jobs/src/local.rs:172-253 | every event agrees with what `result` answers at any later time |
| JobProtocol.HistoryGrows | crates/cogito-jobs/src/local.rs:150-157 | events, sends and registrations are never undone |
| JobProtocol.TerminalJobMayKeepItsHandle | crates/cogito-jobs/src/local.rs:104-106 | a job that completes before the patch keeps an abort handle |
| Dispatcher.Dispatch | crates/cogito-core/src/harness/dispatcher.rs:55-140 | the call id is set; a synchronous result is handed back as it is, a panic, an unknown answer and an unknown job are error results of their own kind; an asynchronous call is recorded and its sink registered, and any event then owed is for a job whose recorded call is this one |
| Dispatcher.RegisterRecorded | crates/cogito-core/src/harness/dispatcher.rs:99-131 | a sink can only be registered once the log has the job's submission for this call, so the recording comes first |
| SessionJobs.ActorRuns | crates/cogito-core/src/runtime/session_loop.rs:656-770 | until a trigger starts a turn over another one, every run of session, triggers, dispatcher and workers is, for the actor, one of its own runs, so all its theorems hold here |
| SessionJobs.LogStaysReadable | crates/cogito-core/src/runtime/session_loop.rs:664-704 | over any run the log can be replayed at the end if and only if no trigger was taken on an interrupted turn, or between a completion that came too early and its pause |
| SessionJobs.TriggerIsFatal | crates/cogito-core/src/runtime/session_loop.rs:875-930 | a trigger makes a readable log unreadable exactly in those two states, and then no further events can repair it |
| SessionJobs.ExecKeepsMarker | crates/cogito-core/src/runtime/session_loop.rs:939-1052 | on every run the in-flight marker is set exactly while a turn runs, is paused or has just ended, unless its completion came too early |
| SessionJobs.CompletionsAreSubmitted | crates/cogito-core/src/harness/dispatcher.rs:99-131 | in every interleaving a completion that reaches the session is for a job whose submission, with the right call id, is in the log, and carries the outcome the manager reports |
| SessionJobs.ReplayFindsEverySubmission | crates/cogito-core/src/harness/resume.rs:307-312 | until then replay never reports a missing submission |
| SessionJobs.WakesUnlessMissed | crates/cogito-core/src/runtime/session_loop.rs:684-772 | a paused turn can be woken without a restart if and only if its event was not taken from the mailbox before the pause and its registration was not replaced |
| SessionRuns.FastJobIsMissed | crates/cogito-core/src/runtime/session_loop.rs:684-704 | on any run about to register, a job that completes and is delivered before the pause leaves the turn paused, and nothing without a restart wakes it |
| SessionRuns.FastJobLetsATriggerIn | crates/cogito-core/src/runtime/session_loop.rs:664-704 | on any such run, a trigger taken before that pause makes every later log unreadable |
| SessionRuns.FastJobsHappen | crates/cogito-core/src/runtime/session_loop.rs:690-704 | both happen on concrete runs from the start |
| SessionJobs.ReopeningHeals | crates/cogito-core/src/runtime/session_loop.rs:372-422 | closing and reopening a paused session, in the same process or a new one, restores the wake-up whenever its log can be replayed |
| SessionJobs.TriggerBeforePauseIsFatal | crates/cogito-core/src/runtime/session_loop.rs:690-704 | on any run, taking any completion while a submitted call waits for its pause lets the next trigger in, and every later log is unreadable |
| Coverage.CollectCoveredRanges | crates/cogito-context/src/compactor/truncate.rs:178-197 | the collected ranges hide exactly the numbers some compaction in the log hides |
| Compactor.MaybeCompact | crates/cogito-context/src/compactor/truncate.rs:49-158 | the turn's existing compaction, nothing, or one event for the planned range with its estimates, unless the recorder refuses it; with a reported usage below the threshold never an event |
| Compactor.CompactionIsFirst | crates/cogito-context/src/compactor/truncate.rs:54-71 | the existing compaction is the turn's first |
| CompactionDecision.DecidesExactly | crates/cogito-context/src/compactor/truncate.rs:90-131 | there is a range to write if and only if the tokens, reported or estimated, have reached the threshold and some turn that may go has something visible left; it runs from the first such turn to the end of the last |
| CompactionDecision.EstimateIsTokens | crates/cogito-context/src/compactor/truncate.rs:275-324 | the estimate is the reported usage, or a quarter of the UTF-8 bytes of the visible events' texts, tool uses and results |
| CompactionDecision.WritesDrop | crates/cogito-context/src/compactor/truncate.rs:133-151 | the event drops the range, with the tokens before it and what is left without the range's own |
| Compactor.CollectTurnBoundaries | crates/cogito-context/src/compactor/truncate.rs:208-269 | one span per turn start that carries a turn id |
| CompactorRuns.SpanMeaning | crates/cogito-context/src/compactor/truncate.rs:225-263 | a span ends just before the first context pass or turn start behind its own start |
| CompactorRuns.SpanStable | crates/cogito-context/src/compactor/truncate.rs:228-263 | a closed span does not change as the log grows |
| CompactorRuns.DropRangeMeaning | crates/cogito-context/src/compactor/truncate.rs:113-131 | the range runs from the first to the last turn of the window not fully hidden, and is absent exactly when all are |
| CompactorRuns.PlanStaysInWindow | crates/cogito-context/src/compactor/truncate.rs:105-131 | the range starts at a turn start behind the kept first turn and ends before the first recent turn to keep |
| CompactorRuns.PlanPassesRecorder | crates/cogito-core/src/harness/step_recorder.rs:655-716 | a range planned on the history without the opening events always meets the recorder's five invariants on the whole log |
| CompactorRuns.PlanMakesProgress | crates/cogito-context/src/compactor/truncate.rs:113-131 | every planned range hides something that was visible |
| CompactorRuns.WindowStaysCovered | crates/cogito-context/src/compactor/truncate.rs:113-131 | after a compaction every closed turn span of the window is hidden, in every later log |
| CompactorRuns.CompactionConverges | crates/cogito-context/src/compactor/truncate.rs:54-131 | with a recent turn kept and no new turn, another call writes nothing; a repeat for the same turn returns the same descriptor |
| CompactorRuns.ConvergesWithoutRecentTurns | crates/cogito-context/src/compactor/truncate.rs:107-131 | with none kept, a repeat finds nothing if and only if the last turn had entered a context pass |
| CompactorRuns.RepeatsItself | crates/cogito-context/src/compactor/truncate.rs:107-131 | a one-event history on which every call finds its own event to hide |
| CompactorRuns.AfterEstimate | crates/cogito-context/src/compactor/truncate.rs:134-141 | the recorded estimate exceeds the one recomputed on the compacted log by at most one |
| CompactorRuns.RunsGoOn | crates/cogito-context/src/compactor/truncate.rs:142-151 | the runs the theorems speak of are closed under calls at any moment and under every other event |
| CompactorRuns.HiddenIsOld | crates/cogito-context/src/compactor/truncate.rs:101-131 | over any run of growing logs and compactions, what is hidden lies before the oldest recent turn to keep and behind a kept first turn |
| CompactorRuns.LeftoverForever | crates/cogito-context/src/compactor/truncate.rs:228-263 | what is visible of the last dropped turn's body when the range is written stays visible in every later log |
| CompactorRuns.SteadyState | crates/cogito-context/src/compactor/truncate.rs:113-131 | one turn after the last compaction, the next range is that turn's span, the user message alone when its context pass follows at once |
| Projector.Project | crates/cogito-context/src/projector/standard.rs:22-113 | the loop over the mutable buffer yields the system message and the fold of the visible events |
| ProjectionMeaning.PromptSaysTheLog | crates/cogito-context/src/projector/standard.rs:43-112 | behind the system message the prompt is one piece for each visible event with content, each saying what its event says: a user message the input's texts with one space between, a summary in its tags, blocks and results as recorded; thoughts in log order and everything else in log order |
| ProjectionMeaning.UserIsHeard | crates/cogito-context/src/projector/standard.rs:60-67 | every visible turn start has a user message that says its input |
| ProjectionMeaning.OneTextIsTheMessage | crates/cogito-context/src/projector/standard.rs:172-188 | a lone text block is the whole message; without any the message is empty |
| Faithful.SuffixIsLatest | crates/cogito-context/src/projector/standard.rs:29-35 | the system message carries the latest suffix injected for the turn, or none |
| Projector.AssistantBuffer.Drain | crates/cogito-context/src/projector/standard.rs:232-236 | hands out all blocks, thinking first, and empties the buffer |
| Projector.FlushAssistant | crates/cogito-context/src/projector/standard.rs:241-245 | adds one assistant message, or none when the buffer is empty |
| Faithful.CutSplits | crates/cogito-context/src/projector/standard.rs:49-93 | a user message, a tool result or a compaction separates the projection: both sides project on their own, with its own message between |
| Faithful.ContentConserved | crates/cogito-context/src/projector/standard.rs:43-112 | the messages hold exactly one piece per contributing event, the thoughts in order and everything else in order |
| Faithful.AssistantMessagesShaped | crates/cogito-context/src/projector/standard.rs:208-245 | assistant messages are not empty and think first |
| Faithful.AdjacentAcrossDrops | crates/cogito-context/src/projector/standard.rs:49-58 | two messages of the assistant follow each other exactly where a visible drop lies between them |
| Faithful.DropSplits | crates/cogito-context/src/projector/standard.rs:49-58 | a visible drop splits the projection without a message of its own |
| CompactedProjection.CompactionDeletesSlice | crates/cogito-context/src/projector/standard.rs:43-112 | appending a drop projects like deleting its slice from the log, with the same system message |
| CompactedProjection.CompactionIsFaithful | crates/cogito-context/src/compactor/truncate.rs:105-151 | after the compactor's event the system message and all messages from the first kept recent turn on are the same |
| CompactedProjection.FirstUserMessageStays | crates/cogito-context/src/compactor/truncate.rs:105-151 | with the first user message kept, all messages up to and including it are the same |
| CompactedProjection.PairsHideTogether | crates/cogito-context/src/compactor/truncate.rs:228-263 | over any run of truncations that keep a recent turn, a tool call is hidden exactly when its result is |
| CompactedProjection.ResultsFollowTheirCalls | crates/cogito-context/src/projector/standard.rs:74-93 | every tool result in the prompt still follows a message that asks for it |
| Utf8.BoundaryCuts | crates/cogito-sandbox/src/truncate.rs:23-39 | in valid text the boundary test holds exactly where both sides are valid UTF-8 |
| Utf8.BoundaryNear | crates/cogito-sandbox/src/truncate.rs:23-39 | of four neighbouring positions at least one is a boundary |
| Utf8.EncodedIsValid | crates/cogito-context/src/injector/skill.rs:164-169 | encoding a string gives valid UTF-8 |
| Utf8.EncodedReadsBack | crates/cogito-context/src/injector/skill.rs:164-169 | decoding what was encoded gives back the characters |
| Sigil.FindSigilsOutsideCode | crates/cogito-protocol/src/sigil.rs:51-138 | the skip-ahead scanner ends in the state of a byte-by-byte automaton and reports exactly its sigils, cutting only at character boundaries |
| Sigil.FindAtLineStart | crates/cogito-protocol/src/sigil.rs:144-154 | the first triple backtick at a line start, if any |
| Sigil.Captures | crates/cogito-protocol/src/sigil.rs:79-91 | all leftmost greedy matches of a dollar sign and a name |
| Sigil.EndsInFence | crates/cogito-protocol/src/sigil.rs:59-113 | the scan ends inside a fence exactly when the line-start toggles say so |
| Sigil.ReportsAreSound | crates/cogito-protocol/src/sigil.rs:76-91 | every report is a dollar sign with its longest name, lies outside every fence, and reports neither overlap nor come out of order |
| Sigil.ReportsAreComplete | crates/cogito-protocol/src/sigil.rs:76-91 | a sigil is reported exactly when the automaton reads it in plain text |
| Sigil.InlineMeans | crates/cogito-protocol/src/sigil.rs:113-138 | text counts as inline code exactly from an opening backtick, or a chunk that began in one, until the next backtick or the line's end |
| Sigil.QuietMeans | crates/cogito-protocol/src/sigil.rs:60-76 | single backticks stop counting exactly when a line has ended in plain text and no fence has opened since |
| Sigil.CuttingIsSafe | crates/cogito-protocol/src/sigil.rs:49-51 | which ends of a chunk leave state and reports alone for every continuation, as an if-and-only-if on the chunk and the state it leaves |
| Sigil.UnsafeCutMatters | crates/cogito-protocol/src/sigil.rs:49-51 | at any other end, one backtick or three in the next chunk already make the difference |
| Sigil.ModeAcrossCut | crates/cogito-protocol/src/sigil.rs:49-51 | at a safe cut the second chunk is read position by position as the uncut text is |
| Sigil.StreamingHits | crates/cogito-protocol/src/sigil.rs:49-51 | at a safe cut the reports of the uncut text are those of the two chunks, the second ones shifted |
| Sigil.CuttingAtNewlineMatters | crates/cogito-protocol/src/sigil.rs:65-76 | a chunk whose reports change when it is cut behind its newline |
| SkillInjector.Inject | crates/cogito-context/src/injector/skill.rs:46-114 | the existing injection, or one activation per first mention of a new skill with content, then the turn's injection |
| SkillInjector.CollectModelChannel | crates/cogito-context/src/injector/skill.rs:145-189 | the sigils of earlier messages the model may invoke, each once |
| SkillMeaning.ModelIsAsked | crates/cogito-context/src/injector/skill.rs:145-189 | the model's names are just those of its sigils before the turn that it may invoke, each once, earlier messages first |
| SkillMeaning.UserIsAsked | crates/cogito-context/src/injector/skill.rs:132-143 | the user's names are those of the turn's first start |
| SkillInjector.CollectPriorActivations | crates/cogito-context/src/injector/skill.rs:191-227 | exactly the names with an activation event or a successful `activate_skill` call |
| SkillMeaning.PriorMeans | crates/cogito-context/src/injector/skill.rs:191-227 | a skill counts as activated exactly with an activation event, or an `activate_skill` call for it with a result that is no error |
| SkillInjector.CallIsItsWrites | crates/cogito-context/src/injector/skill.rs:46-114 | the writes a run may cut off are, all together, what one call leaves in the log |
| SkillMeaning.ActivatesTheDue | crates/cogito-context/src/injector/skill.rs:58-94 | a call activates a skill if and only if the user or the model asks for it, it is new to the log and it has content; the user's channel counts when both ask |
| SkillMeaning.DueIsLogged | crates/cogito-context/src/injector/skill.rs:80-91 | behind an uncut call every skill that was due has its activation in the log, under the turn |
| SkillMeaning.ExistingIsFirst | crates/cogito-context/src/injector/skill.rs:121-129 | a repeat finds the turn's first injection |
| SkillInjector.SkillsActivateOnce | crates/cogito-context/src/injector/skill.rs:46-114 | over any run of turns, with calls cut off anywhere and repeated, no skill is activated that was activated before |
| SkillInjector.NoSecondActivation | crates/cogito-context/src/injector/skill.rs:59-94 | no name ever gets two activation events |
| SkillInjector.NoActivationAfterToolSuccess | crates/cogito-context/src/injector/skill.rs:201-226 | no name gets one after a successful `activate_skill` call for it |
| SkillInjector.RepeatWritesNothing | crates/cogito-context/src/injector/skill.rs:47-51 | a repeat call for a finished turn finds the old event on any later log and writes nothing |
| Truncate.HeadTail | crates/cogito-sandbox/src/truncate.rs:7-21 | text within budget is unchanged; over it, the output begins with the longest valid head and ends with the longest valid tail of at most `max` bytes, each within three bytes of it, disjoint, with the exact elided count between them, and is valid |
| Truncate.DigitsReadBack | crates/cogito-sandbox/src/truncate.rs:16-20 | the printed count reads back as the exact number of elided bytes |
| Truncate.FloorCharBoundary | crates/cogito-sandbox/src/truncate.rs:24-30 | the end of the longest valid prefix, at most three bytes below |
| Truncate.CeilCharBoundary | crates/cogito-sandbox/src/truncate.rs:33-39 | the start of the longest valid suffix, at most three bytes above |
| Naming.QualifiedIsBounded | crates/cogito-mcp/src/naming.rs:50-63 | at most 64 characters, all of them allowed |
| Naming.RoundTrip | crates/cogito-mcp/src/naming.rs:74-86 | an untruncated name parses back to the sanitized server and tool if and only if the tool is not empty and the server neither contains a double underscore nor ends in an underscore |
| Naming.ParsesExactly | crates/cogito-mcp/src/naming.rs:74-86 | on any string, the parser yields a server and a tool exactly for the spelling that joins them, with a tool, and a server that neither contains nor runs into the delimiter |
| Naming.SanitizedAt | crates/cogito-mcp/src/naming.rs:22-33 | allowed characters stay and every other one becomes an underscore |
| Naming.JoinInvertsSplit | crates/cogito-mcp/src/naming.rs:75-81 | joining the split parts gives back the whole |
| Naming.NamesItsServer | crates/cogito-mcp/src/naming.rs:38-63 | the qualified name starts with `mcp__<server>__` if and only if it was not truncated or the server has at most 17 characters |
| Naming.LostServerName | crates/cogito-mcp/src/naming.rs:56-63 | a server and a tool whose qualified name does not |
| Naming.TruncatedParts | crates/cogito-mcp/src/naming.rs:56-63 | a truncated name is 24 characters of the sanitized form and the hash |

## Left out

- Store failures: every append succeeds; the error branches of the recorder's callers are not modelled.
- Runtime.Live: hooks appear only as rejected tool calls and notes, and schema validation of arguments as a rejection; timeouts and cancellation end a turn like any failure.
- Runtime.Fresh: freshness of call and job ids is assumed, as the identifiers are random in the source.
- SessionJobs.Do: a trigger held back while the marker is set is forgotten and may come again as a later step, which is when the source's one-place queue is drained. Once two turns run side by side only their log is followed, as any events whatever.
- SessionJobs.Own: a turn that has submitted a job pauses or gives the job up, as the dispatcher returns nothing else; the actor's own machine also lets it fail.
- Message ids, live broadcasts and metrics: nothing in the log depends on them.
- The demultiplexer's live sigil broadcast: it uses the scanner modelled here but writes no event.
- JSON contents: opaque values with their rendered text, and the `name` argument of `activate_skill`.
- SHA-1 (FIPS 180-4): a function parameter returning 40 hexadecimal digits.
- The regular expression engine: the sigil pattern is matched by a hand-written leftmost greedy loop.
- The ratio token threshold: the effective threshold is a given number.
- 64-bit saturation of sequence numbers: the numbered logs considered hold at most 2^64 - 1 events.
- The registry and body text of the skill injector: a function parameter of the activated names.
- JSONL files, HTTP, subprocesses, MCP transports, configuration, command line and terminal interface: input and output.
