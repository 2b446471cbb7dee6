/**
 The standard projector: folds the visible part of the log into the messages of a
 prompt. Assistant blocks are buffered, thinking apart, and flushed as one message.
 */
module Projector {
  import opened Events
  import opened Coverage

  datatype Message =
    | System(text: string)
    | User(text: string)
    | Assistant(blocks: seq<ContentBlock>)
    | ToolMessage(callId: CallId, blocks: seq<ContentBlock>)

  function Texts(blocks: seq<ContentBlock>): seq<string> {
    if blocks == [] then []
    else if LastOf(blocks).TextBlock? then Texts(DropLast(blocks)) + [LastOf(blocks).text]
    else Texts(DropLast(blocks))
  }

  function JoinBySpace(parts: seq<string>): string {
    if parts == [] then "" else if |parts| == 1 then parts[0] else JoinBySpace(DropLast(parts)) + " " + LastOf(parts)
  }

  function ExtractText(blocks: seq<ContentBlock>): string {
    JoinBySpace(Texts(blocks))
  }

  /** The suffix injected last for `turn`, or nothing. */
  function FindSuffix(log: Log, turn: TurnId): string {
    if log == [] then ""
    else if LastOf(log).payload.SystemPromptInjected? && LastOf(log).payload.forTurn == turn then LastOf(log).payload.suffix
    else FindSuffix(DropLast(log), turn)
  }

  function SystemText(log: Log, prompt: string, turn: TurnId): string {
    var suffix := FindSuffix(log, turn);
    if suffix == "" then prompt else prompt + "\n\n" + suffix
  }

  function SummaryText(text: string): string {
    "<conversation_summary>\n" + text + "\n</conversation_summary>"
  }

  // ----- the fold -----

  datatype Draft = Draft(messages: seq<Message>, thinking: seq<ContentBlock>, body: seq<ContentBlock>)

  function Flushed(d: Draft): Draft {
    if d.thinking == [] && d.body == [] then d else Draft(d.messages + [Assistant(d.thinking + d.body)], [], [])
  }

  /** Events that end the assistant message being built. */
  predicate IsCut(p: Payload) {
    p.ContextCompacted? || p.TurnStarted? || p.ToolResultRecorded?
  }

  /** The message such an event contributes itself. */
  function OwnMessage(p: Payload): seq<Message> {
    match p
    case ContextCompacted(_, _, _, Summary(text), _, _) => [User(SummaryText(text))]
    case TurnStarted(input, _) => [User(ExtractText(input))]
    case ToolResultRecorded(id, result) => [ToolMessage(id, [ToolResultBlock(id, result)])]
    case _ => []
  }

  function Take(d: Draft, p: Payload): Draft {
    match p
    case AssistantMessageAppended(text) => d.(body := d.body + [TextBlock(text)])
    case ToolUseRecorded(id, name, args) => d.(body := d.body + [ToolUseBlock(id, name, args)])
    case ThinkingBlockRecorded(text, data) => d.(thinking := d.thinking + [ThinkingBlock(text, data)])
    case _ => if IsCut(p) then var f := Flushed(d); f.(messages := f.messages + OwnMessage(p)) else d
  }

  function Drafted(ps: seq<Payload>): Draft {
    if ps == [] then Draft([], [], []) else Take(Drafted(DropLast(ps)), LastOf(ps))
  }

  function Messages(ps: seq<Payload>): seq<Message> {
    Flushed(Drafted(ps)).messages
  }

  /** The payloads of `log` not hidden by a compaction in `whole`. */
  function Visible(whole: Log, log: Log): seq<Payload> {
    if log == [] then []
    else if Covered(whole, LastOf(log).seqNo) then Visible(whole, DropLast(log))
    else Visible(whole, DropLast(log)) + [LastOf(log).payload]
  }

  function Projection(log: Log, prompt: string, turn: TurnId): seq<Message> {
    [System(SystemText(log, prompt, turn))] + Messages(Visible(log, log))
  }

  // ----- the projector's own loop -----

  class AssistantBuffer {
    var thinking: seq<ContentBlock>
    var body: seq<ContentBlock>

    constructor ()
      ensures thinking == [] && body == []
    {
      thinking, body := [], [];
    }

    predicate IsEmpty()
      reads this
    {
      thinking == [] && body == []
    }

    method PushText(text: string)
      modifies `body
      ensures body == old(body) + [TextBlock(text)]
    {
      body := body + [TextBlock(text)];
    }

    method PushToolUse(id: CallId, name: string, args: Json)
      modifies `body
      ensures body == old(body) + [ToolUseBlock(id, name, args)]
    {
      body := body + [ToolUseBlock(id, name, args)];
    }

    method PrependThinking(text: string, data: Wrappers.Option<Json>)
      modifies `thinking
      ensures thinking == old(thinking) + [ThinkingBlock(text, data)]
    {
      thinking := thinking + [ThinkingBlock(text, data)];
    }

    /** Hands out all blocks, thinking first, and starts over. */
    method Drain() returns (blocks: seq<ContentBlock>)
      modifies this
      ensures IsEmpty() && blocks == old(thinking) + old(body)
    {
      blocks := thinking + body;
      thinking, body := [], [];
    }
  }

  method FlushAssistant(buf: AssistantBuffer, messages: seq<Message>) returns (out: seq<Message>)
    modifies buf
    ensures buf.IsEmpty()
    ensures out == if old(buf.IsEmpty()) then messages else messages + [Assistant(old(buf.thinking) + old(buf.body))]
  {
    out := messages;
    if !buf.IsEmpty() {
      var blocks := buf.Drain();
      out := out + [Assistant(blocks)];
    }
  }

  lemma VisibleSnoc(whole: Log, events: Log, i: nat)
    requires i < |events|
    ensures var seen := Visible(whole, events[..i]);
            Visible(whole, events[..i + 1]) ==
              (if Covered(whole, events[i].seqNo) then seen else seen + [events[i].payload]) &&
            Drafted(Visible(whole, events[..i + 1])) ==
              (if Covered(whole, events[i].seqNo) then Drafted(seen) else Take(Drafted(seen), events[i].payload))
  {
    assert DropLast(events[..i + 1]) == events[..i];
    assert DropLast(Visible(whole, events[..i]) + [events[i].payload]) == Visible(whole, events[..i]);
  }

  /** One visible event of the loop. */
  method TakeEvent(p: Payload, buf: AssistantBuffer, messages: seq<Message>, ghost d: Draft) returns (out: seq<Message>)
    requires |messages| > 0 && d == Draft(messages[1..], buf.thinking, buf.body)
    modifies buf
    ensures |out| > 0 && out[0] == messages[0] && Take(d, p) == Draft(out[1..], buf.thinking, buf.body)
  {
    out := messages;
    match p
    case ContextCompacted(_, _, _, replacement, _, _) =>
      out := FlushAssistant(buf, messages);
      if replacement.Summary? { out := out + [User(SummaryText(replacement.text))]; }
    case TurnStarted(input, _) =>
      out := FlushAssistant(buf, messages);
      out := out + [User(ExtractText(input))];
    case AssistantMessageAppended(text) => buf.PushText(text);
    case ToolUseRecorded(id, name, args) => buf.PushToolUse(id, name, args);
    case ToolResultRecorded(id, result) =>
      out := FlushAssistant(buf, messages);
      out := out + [ToolMessage(id, [ToolResultBlock(id, result)])];
    case ThinkingBlockRecorded(text, data) => buf.PrependThinking(text, data);
    case _ =>
  }

  method Project(events: Log, prompt: string, turn: TurnId) returns (messages: seq<Message>)
    ensures messages == Projection(events, prompt, turn)
  {
    var covered := CollectCoveredRanges(events);
    var suffix := FindSuffix(events, turn);
    var system := if suffix == "" then prompt else prompt + "\n\n" + suffix;
    messages := [System(system)];
    var buf := new AssistantBuffer();
    for i := 0 to |events|
      invariant fresh(buf) && |messages| > 0 && messages[0] == System(system)
      invariant Draft(messages[1..], buf.thinking, buf.body) == Drafted(Visible(events, events[..i]))
    {
      VisibleSnoc(events, events, i);
      if !IsCovered(events[i].seqNo, covered) {
        messages := TakeEvent(events[i].payload, buf, messages, Drafted(Visible(events, events[..i])));
      }
    }
    assert events[..|events|] == events;
    messages := FlushAssistant(buf, messages);
  }
}
