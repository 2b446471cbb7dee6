/**
 The session actor and its turn driver as a step machine. Every live step appends
 at most one event before the in-memory state moves on; a crash may fall between
 any two steps, and reopening rebuilds the memory from `Forward`, which is what
 `Replay` returns. Histories that the runtime does not keep (`latch`, `overlapped`,
 `lost`, `results`) ride along so that theorems can speak of them.
 */
module Runtime {
  import opened Wrappers
  import opened Events
  import opened Resume

  datatype Memory =
    | Ready(interrupted: Option<TurnId>)                    // idle; a restart may have left a turn unfinished
    | Preparing(turn: TurnId, done: seq<(CallId, ToolResult)>)
    | Streaming(turn: TurnId, content: seq<ContentBlock>)
    | Resolving(turn: TurnId, output: ModelOutput, kept: seq<Call>, todo: seq<Call>, done: seq<(CallId, ToolResult)>)
    | Dispatching(turn: TurnId, queue: seq<Call>, done: seq<(CallId, ToolResult)>)
    | Submitted(turn: TurnId, job: JobId, call: Call, rest: seq<Call>, done: seq<(CallId, ToolResult)>)
    | Paused(turn: TurnId, job: JobId, callId: CallId)
    | Woken(turn: TurnId, job: JobId, callId: CallId, outcome: JobOutcome)

  datatype Control = Control(
    mem: Memory,
    live: bool,
    latch: Option<ResumePoint>,             // set once the turn resumed from a pause, until its next boundary
    overlapped: bool,                       // a turn was started over an interrupted one
    lost: set<CallId>,                      // calls dropped at a pause, or by a crash after one
    results: seq<(CallId, ToolResult)>)     // results recorded in the current turn

  datatype State = State(log: Log, ctl: Control)

  const START := State([], Control(Ready(None), true, None, false, {}, []))

  datatype Label =
    | Open
    | Begin(turn: TurnId, input: seq<ContentBlock>)
    | Note(payload: Payload)
    | OpenCall
    | EmitText(text: string)
    | EmitThinking(text: string, opaqueData: Option<Json>)
    | EmitToolUse(call: Call)
    | SealCall(stop: StopReason, usage: Usage)
    | Keep
    | Reject(result: ToolResult)
    | Finish
    | BeginDispatch
    | Answer(result: ToolResult)
    | Submit(job: JobId)
    | RegisterFailed(result: ToolResult)
    | Pause
    | NextRound
    | JobDone(outcome: JobOutcome)
    | Wake
    | Fail
    | Crash
    | Reopen

  /** Events that only mark progress of context management, or a hook's refusal. */
  predicate IsNote(p: Payload) {
    p.ContextManageEntered? || p.ContextManageCompleted? || p.PromptComposed? || p.HookRejected? ||
    p.ContextCompacted? || p.SystemPromptInjected? || p.ToolFilterOverridden? || p.ContextDecisionRecorded? ||
    p.SkillActivated?
  }

  function OutcomeToToolResult(outcome: JobOutcome): ToolResult {
    match outcome
    case Success(result) => result
    case Failed(message) => Error(AsyncFailed, message, false)
    case Cancelled => Error(CallCancelled, "job cancelled", false)
  }

  function Ids(calls: seq<Call>): set<CallId> {
    set c | c in calls :: c.callId
  }

  // ----- steps -----

  /** A step's new control state, and the event it writes first, if any. */
  datatype Move = Move(ctl: Control, write: Option<Payload>)

  function Silent(c: Control, mem: Memory): Option<Move> {
    Some(Move(c.(mem := mem), None))
  }

  function Writing(c: Control, mem: Memory, p: Payload): Option<Move> {
    Some(Move(c.(mem := mem), Some(p)))
  }

  function WriteResult(c: Control, mem: Memory, id: CallId, result: ToolResult): Option<Move> {
    Some(Move(c.(mem := mem, results := c.results + [(id, result)]), Some(ToolResultRecorded(id, result))))
  }

  function Close(c: Control, p: Payload): Option<Move> {
    Some(Move(c.(mem := Ready(None), latch := None), Some(p)))
  }

  function Live(c: Control, l: Label): Option<Move> {
    match l
    case Open => if c.mem.Ready? then Writing(c, c.mem, SessionStarted) else None
    case Begin(turn, input) =>
      if !c.mem.Ready? then None
      else Some(Move(c.(mem := Preparing(turn, []), latch := None, results := [],
                        overlapped := c.overlapped || c.mem.interrupted.Some?), Some(TurnStarted(input, []))))
    case Note(p) =>
      if IsNote(p) && (c.mem.Preparing? || (c.mem.Dispatching? && p.HookRejected?)) then Writing(c, c.mem, p) else None
    case OpenCall => if c.mem.Preparing? then Writing(c, Streaming(c.mem.turn, []), ModelCallStarted) else None
    case EmitText(text) =>
      if c.mem.Streaming?
      then Writing(c, c.mem.(content := c.mem.content + [TextBlock(text)]), AssistantMessageAppended(text)) else None
    case EmitThinking(text, data) =>
      if c.mem.Streaming?
      then Writing(c, c.mem.(content := c.mem.content + [ThinkingBlock(text, data)]), ThinkingBlockRecorded(text, data))
      else None
    case EmitToolUse(call) =>
      if c.mem.Streaming?
      then Writing(c, c.mem.(content := c.mem.content + [ToolUseBlock(call.callId, call.toolName, call.args)]),
                   ToolUseRecorded(call.callId, call.toolName, call.args))
      else None
    case SealCall(stop, usage) =>
      if c.mem.Streaming? && (stop == ToolUse ==> Calls(c.mem.content) != [])
      then Writing(c, Resolving(c.mem.turn, ModelOutput(c.mem.content, stop, usage), [], Calls(c.mem.content), []),
                   ModelCallCompleted(stop, usage))
      else None
    case Keep =>
      if c.mem.Resolving? && c.mem.todo != []
      then Silent(c, c.mem.(kept := c.mem.kept + [c.mem.todo[0]], todo := c.mem.todo[1..])) else None
    case Reject(result) =>
      if c.mem.Resolving? && c.mem.todo != []
      then var id := c.mem.todo[0].callId;
           WriteResult(c, c.mem.(todo := c.mem.todo[1..], done := c.mem.done + [(id, result)]), id, result)
      else None
    case Finish =>
      if c.mem.Resolving? && c.mem.kept + c.mem.todo == [] && c.mem.done == [] then Close(c, TurnCompleted) else None
    case BeginDispatch =>
      if c.mem.Resolving? && c.mem.todo == [] && (c.mem.kept != [] || c.mem.done != [])
      then Silent(c, Dispatching(c.mem.turn, c.mem.kept, c.mem.done)) else None
    case Answer(result) =>
      if c.mem.Dispatching? && c.mem.queue != []
      then var id := c.mem.queue[0].callId;
           WriteResult(c, c.mem.(queue := c.mem.queue[1..], done := c.mem.done + [(id, result)]), id, result)
      else None
    case Submit(job) =>
      if c.mem.Dispatching? && c.mem.queue != []
      then var call := c.mem.queue[0];
           Writing(c, Submitted(c.mem.turn, job, call, c.mem.queue[1..], c.mem.done),
                   JobSubmitted(call.callId, job, call.toolName))
      else None
    case RegisterFailed(result) =>
      if c.mem.Submitted?
      then var id := c.mem.call.callId;
           WriteResult(c, Dispatching(c.mem.turn, c.mem.rest, c.mem.done + [(id, result)]), id, result)
      else None
    case Pause =>
      if c.mem.Submitted?
      then Some(Move(c.(mem := Paused(c.mem.turn, c.mem.job, c.mem.call.callId), latch := None,
                        lost := c.lost + Ids(c.mem.rest)), Some(TurnPaused(c.mem.job))))
      else None
    case NextRound =>
      if c.mem.Dispatching? && c.mem.queue == [] then Silent(c, Preparing(c.mem.turn, c.mem.done)) else None
    case JobDone(outcome) =>
      if c.mem.Paused?
      then Some(Move(c.(mem := Woken(c.mem.turn, c.mem.job, c.mem.callId, outcome),
                        latch := Some(AfterJobCompletion(c.mem.turn, c.mem.job, outcome, c.mem.callId, c.results, []))),
                     Some(JobCompletedRecorded(c.mem.job, outcome))))
      else None
    case Wake =>
      if c.mem.Woken?
      then var result := OutcomeToToolResult(c.mem.outcome);
           WriteResult(c, Dispatching(c.mem.turn, [], [(c.mem.callId, result)]), c.mem.callId, result)
      else None
    case Fail =>
      if c.mem.Ready? || c.mem.Paused? || c.mem.Woken? then None else Close(c, TurnFailed)
    case Crash => Some(Move(c.(live := false), None))
    case Reopen => None
  }

  predicate Answered(log: Log, id: CallId) {
    exists i :: 0 <= i < |log| && log[i].payload.ToolResultRecorded? && log[i].payload.callId == id
  }

  /** What a restart does with the resume point. */
  function Restore(s: State, point: ResumePoint): Control {
    var up := s.ctl.(live := true);
    match point
    case FreshTurn => up.(mem := Ready(None))
    case RestartCurrentTurn(turn) => up.(mem := Ready(Some(turn)))
    case FromModelCompleted(turn, output) => up.(mem := Resolving(turn, output, [], Calls(output.content), []))
    case FromToolDispatching(turn, pending, completed) => up.(mem := Dispatching(turn, pending, completed))
    case PausedJob(turn, job) =>
      (match LookupCallId(s.log, job)
       case None => s.ctl
       case Some(id) => up.(mem := Paused(turn, job, id)))
    case AfterJobCompletion(turn, job, outcome, id, _, _) =>
      if Answered(s.log, id)
      then up.(mem := Dispatching(turn, [], [(id, OutcomeToToolResult(outcome))]),
               lost := s.ctl.lost + LedgerOf(s.log).owed)
      else up.(mem := Woken(turn, job, id, outcome))
  }

  function TurnOf(m: Memory): Option<TurnId> {
    if m.Ready? then None else Some(m.turn)
  }

  /** The turn an event belongs to: the one it starts or ends counts. */
  function EnvelopeTurn(before: Memory, after: Memory): Option<TurnId> {
    if before.Ready? then TurnOf(after) else TurnOf(before)
  }

  /** Call ids and job ids are fresh. */
  predicate Fresh(log: Log, l: Label) {
    match l
    case EmitToolUse(call) => call.callId !in LedgerOf(log).used
    case Submit(job) => job !in ScanOf(log).jobs
    case _ => true
  }

  function Apply(s: State, l: Label): Option<State> {
    if l.Reopen? then
      if s.ctl.live then None
      else match Forward(s.log)
        case Err(_) => None
        case Ok(d) => Some(s.(ctl := Restore(s, d.point)))
    else if !s.ctl.live || !Fresh(s.log, l) then None
    else match Live(s.ctl, l)
      case None => None
      case Some(m) =>
        if m.write.None? then Some(s.(ctl := m.ctl))
        else Some(State(Append(s.log, EnvelopeTurn(s.ctl.mem, m.ctl.mem), m.write.value), m.ctl))
  }

  /** Where a sequence of steps leads, or None if some step is not enabled. */
  function Run(s: State, steps: seq<Label>): Option<State> {
    if steps == [] then Some(s)
    else match Run(s, DropLast(steps))
      case None => None
      case Some(t) => Apply(t, LastOf(steps))
  }

  // ----- what the log says about calls and results -----

  datatype Ledger = Ledger(
    used: set<CallId>,          // every recorded tool use
    answered: set<CallId>,      // every call with a recorded result
    streaming: set<CallId>,     // tool uses of the latest model call
    owed: set<CallId>,          // tool uses of the turn's latest sealed call without a result
    doubled: bool)              // some call got two results

  function StepLedger(g: Ledger, p: Payload): Ledger {
    match p
    case TurnStarted(_, _) => g.(streaming := {}, owed := {})
    case ModelCallStarted => g.(streaming := {})
    case ToolUseRecorded(id, _, _) => g.(used := g.used + {id}, streaming := g.streaming + {id})
    case ModelCallCompleted(_, _) => g.(owed := g.streaming)
    case ToolResultRecorded(id, _) =>
      g.(answered := g.answered + {id}, owed := g.owed - {id}, doubled := g.doubled || id in g.answered)
    case _ => g
  }

  function LedgerOf(log: Log): Ledger {
    if log == [] then Ledger({}, {}, {}, {}, false) else StepLedger(LedgerOf(DropLast(log)), LastOf(log).payload)
  }
}
