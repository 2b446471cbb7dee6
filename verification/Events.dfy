/** Stock result types. */
module Wrappers {
  datatype Option<+T> = None | Some(value: T)
  datatype Result<+T, +E> = Ok(value: T) | Err(error: E)

  /** Unsigned subtraction that stops at zero. */
  function SaturatingSub(a: nat, b: nat): nat {
    if a < b then 0 else a - b
  }
}

/** The persisted conversation log: envelope, payloads and the values they carry. */
module Events {
  import opened Wrappers

  type TurnId = nat
  type JobId = nat
  type EventId = nat
  type CallId = string

  /** An opaque JSON value: its rendered text and, for an object, its string member `name`. */
  datatype Json = Json(text: string, name: Option<string>)

  datatype ToolErrorKind = ToolPanicked | InvocationFailed | AsyncFailed | CallCancelled

  datatype ToolResult =
    | Output(values: seq<Json>)
    | Error(kind: ToolErrorKind, message: string, retryable: bool)

  datatype JobOutcome = Success(result: ToolResult) | Failed(message: string) | Cancelled

  datatype StopReason = EndTurn | ToolUse | MaxTokens | StopSequence

  datatype Usage = Usage(inputTokens: nat, outputTokens: nat)

  datatype ContentBlock =
    | TextBlock(text: string)
    | ToolUseBlock(callId: CallId, toolName: string, args: Json)
    | ToolResultBlock(callId: CallId, result: ToolResult)
    | ThinkingBlock(text: string, opaqueData: Option<Json>)

  datatype Replacement = Drop | Summary(text: string)

  datatype Channel = UserSlash | ModelSigil

  datatype Payload =
    | SessionStarted
    | TurnStarted(userInput: seq<ContentBlock>, activateSkills: seq<string>)
    | AssistantMessageAppended(text: string)
    | ToolUseRecorded(callId: CallId, toolName: string, args: Json)
    | ToolResultRecorded(callId: CallId, result: ToolResult)
    | JobSubmitted(callId: CallId, jobId: JobId, toolName: string)
    | TurnPaused(jobId: JobId)
    | JobCompletedRecorded(jobId: JobId, outcome: JobOutcome)
    | TurnCompleted
    | TurnFailed
    | ContextManageEntered
    | ContextManageCompleted
    | PromptComposed
    | ModelCallStarted
    | ModelCallCompleted(stopReason: StopReason, usage: Usage)
    | ThinkingBlockRecorded(text: string, opaqueData: Option<Json>)
    | HookRejected
    | ContextCompacted(forTurn: TurnId, first: nat, last: nat, replacement: Replacement,
                       before: Option<nat>, after: Option<nat>)
    | SystemPromptInjected(forTurn: TurnId, suffix: string)
    | ToolFilterOverridden(forTurn: TurnId)
    | ContextDecisionRecorded(forTurn: TurnId)
    | SkillActivated(skillName: string, channel: Channel)

  datatype Event = Event(schema: nat, id: EventId, turn: Option<TurnId>, seqNo: nat, payload: Payload)

  type Log = seq<Event>

  /** The newest schema version this build reads, and the one it writes. */
  const SCHEMA_VERSION := 1

  /** A sealed assistant message. */
  datatype ModelOutput = ModelOutput(content: seq<ContentBlock>, stopReason: StopReason, usage: Usage)

  function DropLast<T>(s: seq<T>): (r: seq<T>)
    requires s != []
  {
    s[..|s| - 1]
  }

  function LastOf<T>(s: seq<T>): (x: T)
    requires s != []
  {
    s[|s| - 1]
  }

  /** The log with one more event, numbered in sequence. */
  function Append(log: Log, turn: Option<TurnId>, p: Payload): Log {
    log + [Event(SCHEMA_VERSION, |log|, turn, |log|, p)]
  }

  lemma Assoc<T>(a: seq<T>, b: seq<T>, c: seq<T>)
    ensures (a + b) + c == a + (b + c)
  {
  }

  lemma Snoc<T>(s: seq<T>)
    requires s != []
    ensures s == DropLast(s) + [LastOf(s)]
  {
  }
}

/** Lists of positions. */
module Listing {
  /** `at` lists the wanted positions, in order. */
  ghost predicate Lists(at: seq<nat>, want: set<nat>) {
    (forall i, j :: 0 <= i < j < |at| ==> at[i] < at[j]) && forall k :: k in at <==> k in want
  }

  lemma ListsSnoc(at: seq<nat>, want: set<nat>, k: nat)
    requires Lists(at, want) && forall i :: i in want ==> i < k
    ensures Lists(at + [k], want + {k})
  {
    assert forall i :: 0 <= i < |at| ==> at[i] in want;
  }
}
