/**
 The stream demultiplexer: reads one model response, drives the recorder, and
 returns the sealed message. The log it leaves is read back by the resume
 coordinator; the theorems say when the two agree.
 */
module StreamDemux {
  import opened Wrappers
  import opened Events
  import opened Resume
  import opened Recorder

  datatype ModelEvent =
    | TextDelta(index: nat, chunk: string)
    | TextBlockCompleted(index: nat, text: string)
    | ToolUseStarted(index: nat, callId: CallId, toolName: string)
    | ToolUseCompleted(index: nat, callId: CallId, toolName: string, args: Json)
    | ThinkingDelta(index: nat, chunk: string)
    | ThinkingBlockCompleted(index: nat, text: string, opaqueData: Option<Json>)
    | MessageCompleted(stopReason: StopReason, usage: Usage)

  datatype ModelError = ModelError(message: string)

  type Indexed = (nat, ContentBlock)

  // ----- sorting by block index -----

  function InsertByIndex(x: Indexed, s: seq<Indexed>): seq<Indexed> {
    if s == [] || LastOf(s).0 <= x.0 then s + [x] else InsertByIndex(x, DropLast(s)) + [LastOf(s)]
  }

  /** Stable sort by block index. */
  function SortByIndex(s: seq<Indexed>): seq<Indexed> {
    if s == [] then [] else InsertByIndex(LastOf(s), SortByIndex(DropLast(s)))
  }

  predicate InIndexOrder(s: seq<Indexed>) {
    forall i, j :: 0 <= i < j < |s| ==> s[i].0 <= s[j].0
  }

  lemma OrderedSnoc(s: seq<Indexed>, last: Indexed)
    requires InIndexOrder(s) && (s == [] || LastOf(s).0 <= last.0)
    ensures InIndexOrder(s + [last])
  {
  }

  lemma OrderedPrefix(s: seq<Indexed>)
    requires InIndexOrder(s) && s != []
    ensures InIndexOrder(DropLast(s)) && (DropLast(s) == [] || LastOf(DropLast(s)).0 <= LastOf(s).0)
  {
    if |s| > 1 { assert LastOf(DropLast(s)) == s[|s| - 2]; }
  }

  lemma {:induction false} InsertSorts(x: Indexed, s: seq<Indexed>)
    requires InIndexOrder(s)
    ensures var r := InsertByIndex(x, s);
            InIndexOrder(r) && |r| == |s| + 1 && multiset(r) == multiset(s) + multiset{x} &&
            (LastOf(r) == x || (s != [] && LastOf(r) == LastOf(s)))
  {
    if s == [] || LastOf(s).0 <= x.0 {
      OrderedSnoc(s, x);
    } else {
      var pre, last := DropLast(s), LastOf(s);
      OrderedPrefix(s);
      InsertSorts(x, pre);
      OrderedSnoc(InsertByIndex(x, pre), last);
      assert s == pre + [last];
    }
  }

  /** The sort orders the blocks and keeps every one of them. */
  lemma {:induction false} SortSorts(s: seq<Indexed>)
    ensures InIndexOrder(SortByIndex(s)) && multiset(SortByIndex(s)) == multiset(s) && |SortByIndex(s)| == |s|
  {
    if s != [] {
      SortSorts(DropLast(s));
      InsertSorts(LastOf(s), SortByIndex(DropLast(s)));
      assert s == DropLast(s) + [LastOf(s)];
    }
  }

  lemma {:induction false} SortKeepsOrdered(s: seq<Indexed>)
    requires InIndexOrder(s)
    ensures SortByIndex(s) == s
  {
    if s != [] {
      var pre := DropLast(s);
      SortKeepsOrdered(pre);
      assert pre != [] ==> LastOf(pre) == s[|s| - 2];
      assert s == pre + [LastOf(s)];
    }
  }

  /** Everything but the thinking blocks. */
  function Spoken(s: seq<Indexed>): seq<Indexed> {
    if s == [] then []
    else if LastOf(s).1.ThinkingBlock? then Spoken(DropLast(s))
    else Spoken(DropLast(s)) + [LastOf(s)]
  }

  function Blocks(s: seq<Indexed>): seq<ContentBlock> {
    if s == [] then [] else Blocks(DropLast(s)) + [LastOf(s).1]
  }

  lemma SpokenEnd(s: seq<Indexed>, x: Indexed)
    ensures Spoken(s + [x]) == if x.1.ThinkingBlock? then Spoken(s) else Spoken(s) + [x]
  {
    assert DropLast(s + [x]) == s;
  }

  lemma {:induction false} SpokenStaysBelow(s: seq<Indexed>)
    requires InIndexOrder(s) && Spoken(s) != []
    ensures s != [] && LastOf(Spoken(s)).0 <= LastOf(s).0
  {
    if LastOf(s).1.ThinkingBlock? {
      OrderedPrefix(s);
      SpokenStaysBelow(DropLast(s));
    }
  }

  lemma {:induction false} InsertSpoken(x: Indexed, s: seq<Indexed>)
    requires InIndexOrder(s)
    ensures Spoken(InsertByIndex(x, s)) == if x.1.ThinkingBlock? then Spoken(s) else InsertByIndex(x, Spoken(s))
  {
    if s == [] || LastOf(s).0 <= x.0 {
      SpokenEnd(s, x);
      if Spoken(s) != [] { SpokenStaysBelow(s); }
    } else {
      var pre, last := DropLast(s), LastOf(s);
      OrderedPrefix(s);
      InsertSpoken(x, pre);
      SpokenEnd(InsertByIndex(x, pre), last);
      if !last.1.ThinkingBlock? { InsertBelow(x, Spoken(pre), last); }
    }
  }

  lemma InsertBelow(x: Indexed, s: seq<Indexed>, last: Indexed)
    requires last.0 > x.0
    ensures InsertByIndex(x, s + [last]) == InsertByIndex(x, s) + [last]
  {
    assert DropLast(s + [last]) == s;
  }

  /** Sorting and dropping the thinking blocks commute. */
  lemma {:induction false} SortSpoken(s: seq<Indexed>)
    ensures Spoken(SortByIndex(s)) == SortByIndex(Spoken(s))
  {
    if s != [] {
      var pre := DropLast(s);
      SortSpoken(pre);
      SortSorts(pre);
      InsertSpoken(LastOf(s), SortByIndex(pre));
      assert DropLast(Spoken(pre) + [LastOf(s)]) == Spoken(pre);
    }
  }

  // ----- what one event does -----

  datatype Demux = Demux(
    log: Log, text: Option<Buffer>, thinking: Option<Buffer>,
    content: seq<Indexed>, stop: StopReason, usage: Usage)

  function Feed(d: Demux, turn: TurnId, e: ModelEvent): Demux {
    match e
    case TextDelta(_, chunk) => d.(text := Some(Extend(d.text, turn, chunk)))
    case TextBlockCompleted(index, text) =>
      d.(content := d.content + [(index, TextBlock(text))], text := None,
         log := if d.text.None? then d.log
                else Append(d.log, Some(d.text.value.turn), AssistantMessageAppended(d.text.value.text)))
    case ThinkingDelta(_, chunk) => d.(thinking := Some(Extend(d.thinking, turn, chunk)))
    case ThinkingBlockCompleted(index, text, data) =>
      d.(content := d.content + [(index, ThinkingBlock(text, data))], thinking := None,
         log := if d.thinking.None? then d.log
                else Append(d.log, Some(d.thinking.value.turn), ThinkingBlockRecorded(d.thinking.value.text, data)))
    case ToolUseCompleted(index, id, name, args) =>
      d.(content := d.content + [(index, ToolUseBlock(id, name, args))],
         log := Append(d.log, Some(turn), ToolUseRecorded(id, name, args)))
    case MessageCompleted(stop, usage) =>
      d.(stop := stop, usage := usage, log := Append(d.log, Some(turn), ModelCallCompleted(stop, usage)))
    case ToolUseStarted(_, _, _) => d
  }

  function FeedAll(d: Demux, turn: TurnId, events: seq<ModelEvent>): Demux {
    if events == [] then d else Feed(FeedAll(d, turn, DropLast(events)), turn, LastOf(events))
  }

  /** The stream up to its first error, and that error. */
  function BeforeError(stream: seq<Result<ModelEvent, ModelError>>): seq<ModelEvent> {
    if stream == [] || stream[0].Err? then [] else [stream[0].value] + BeforeError(stream[1..])
  }

  function FirstError(stream: seq<Result<ModelEvent, ModelError>>): Option<ModelError> {
    if stream == [] then None else if stream[0].Err? then Some(stream[0].error) else FirstError(stream[1..])
  }

  function Sealed(d: Demux): ModelOutput {
    ModelOutput(Blocks(SortByIndex(d.content)), d.stop, d.usage)
  }

  function Begun(log: Log, text: Option<Buffer>, thinking: Option<Buffer>): Demux {
    Demux(log, text, thinking, [], EndTurn, Usage(0, 0))
  }

  /** One event of the loop: the recorder first, then the message. */
  method OnEvent(event: ModelEvent, recorder: StepRecorder, turn: TurnId, content: seq<Indexed>, stop: StopReason, usage: Usage)
    returns (content': seq<Indexed>, stop': StopReason, usage': Usage)
    requires recorder.Valid()
    modifies recorder
    ensures recorder.Valid()
    ensures Demux(recorder.log, recorder.text, recorder.thinking, content', stop', usage') ==
            Feed(Demux(old(recorder.log), old(recorder.text), old(recorder.thinking), content, stop, usage), turn, event)
  {
    content', stop', usage' := content, stop, usage;
    match event {
      case TextDelta(_, chunk) => recorder.OnTextDelta(turn, chunk);
      case TextBlockCompleted(index, text) =>
        var id := recorder.OnTextBlockComplete();
        content' := content + [(index, TextBlock(text))];
      case ThinkingDelta(_, chunk) => recorder.OnThinkingDelta(turn, chunk);
      case ThinkingBlockCompleted(index, text, data) =>
        var id := recorder.OnThinkingBlockComplete(data);
        content' := content + [(index, ThinkingBlock(text, data))];
      case ToolUseCompleted(index, callId, name, args) =>
        var id := recorder.AppendEvent(Some(turn), ToolUseRecorded(callId, name, args));
        content' := content + [(index, ToolUseBlock(callId, name, args))];
      case MessageCompleted(sr, u) =>
        var id := recorder.AppendEvent(Some(turn), ModelCallCompleted(sr, u));
        stop', usage' := sr, u;
      case ToolUseStarted(_, _, _) =>
    }
  }

  method Demultiplex(stream: seq<Result<ModelEvent, ModelError>>, recorder: StepRecorder, turn: TurnId)
    returns (r: Result<ModelOutput, ModelError>)
    requires recorder.Valid()
    modifies recorder
    ensures recorder.Valid()
    ensures var d := FeedAll(old(Begun(recorder.log, recorder.text, recorder.thinking)), turn, BeforeError(stream));
            recorder.log == d.log && recorder.text == d.text && recorder.thinking == d.thinking &&
            r == match FirstError(stream) case Some(e) => Err(e) case None => Ok(Sealed(d))
  {
    var content: seq<Indexed> := [];
    var stop, usage := EndTurn, Usage(0, 0);
    ghost var fed: seq<ModelEvent> := [];
    ghost var start := Begun(recorder.log, recorder.text, recorder.thinking);
    for i := 0 to |stream|
      invariant recorder.Valid()
      invariant FeedAll(start, turn, fed) == Demux(recorder.log, recorder.text, recorder.thinking, content, stop, usage)
      invariant BeforeError(stream) == fed + BeforeError(stream[i..])
      invariant FirstError(stream) == FirstError(stream[i..])
    {
      assert stream[i..][1..] == stream[i + 1..];
      match stream[i] {
        case Err(e) =>
          assert fed + [] == fed;
          return Err(e);
        case Ok(event) =>
          content, stop, usage := OnEvent(event, recorder, turn, content, stop, usage);
          FeedSnoc(start, turn, fed, event);
          assert fed + ([event] + BeforeError(stream[i + 1..])) == (fed + [event]) + BeforeError(stream[i + 1..]);
          fed := fed + [event];
      }
    }
    assert fed + BeforeError(stream[|stream|..]) == fed;
    return Ok(ModelOutput(Blocks(SortByIndex(content)), stop, usage));
  }

  // ----- what the coordinator reads back -----

  /** Every sealed text block has the text of the deltas buffered since the last one, and there were some. */
  predicate TextFaithful(d: Demux, turn: TurnId, events: seq<ModelEvent>) {
    events == [] ||
    var before, e := FeedAll(d, turn, DropLast(events)), LastOf(events);
    TextFaithful(d, turn, DropLast(events)) &&
    (e.TextBlockCompleted? ==> before.text.Some? && before.text.value.text == e.text)
  }

  lemma AppendContent(log: Log, n: nat, turn: Option<TurnId>, p: Payload)
    requires n <= |log|
    ensures ContentOf(Append(log, turn, p)[n..]) == AddBlock(ContentOf(log[n..]), p)
  {
    assert DropLast(Append(log, turn, p)[n..]) == log[n..];
  }

  lemma SpokenSnoc(s: seq<Indexed>, x: Indexed)
    ensures Blocks(Spoken(s + [x])) == if x.1.ThinkingBlock? then Blocks(Spoken(s)) else Blocks(Spoken(s)) + [x.1]
  {
    assert DropLast(s + [x]) == s && DropLast(Spoken(s) + [x]) == Spoken(s);
  }

  /** What an event adds to the logged blocks and to the blocks of the message. */
  predicate AddsBlocks(d: Demux, d': Demux, n: nat, logged: seq<ContentBlock>, spoken: seq<ContentBlock>)
    requires n <= |d.log|
  {
    d.log <= d'.log &&
    ContentOf(d'.log[n..]) == ContentOf(d.log[n..]) + logged && Blocks(Spoken(d'.content)) == Blocks(Spoken(d.content)) + spoken
  }

  lemma SealTextAdds(d: Demux, turn: TurnId, index: nat, text: string, n: nat)
    requires n <= |d.log|
    ensures AddsBlocks(d, Feed(d, turn, TextBlockCompleted(index, text)), n,
                       if d.text.None? then [] else [TextBlock(d.text.value.text)], [TextBlock(text)])
  {
    SpokenSnoc(d.content, (index, TextBlock(text)));
    if d.text.Some? {
      AppendContent(d.log, n, Some(d.text.value.turn), AssistantMessageAppended(d.text.value.text));
    } else {
      assert ContentOf(d.log[n..]) + [] == ContentOf(d.log[n..]);
    }
  }

  lemma SealThinkingAdds(d: Demux, turn: TurnId, index: nat, text: string, data: Option<Json>, n: nat)
    requires n <= |d.log|
    ensures AddsBlocks(d, Feed(d, turn, ThinkingBlockCompleted(index, text, data)), n, [], [])
  {
    SpokenSnoc(d.content, (index, ThinkingBlock(text, data)));
    if d.thinking.Some? {
      AppendContent(d.log, n, Some(d.thinking.value.turn), ThinkingBlockRecorded(d.thinking.value.text, data));
    }
    assert ContentOf(d.log[n..]) + [] == ContentOf(d.log[n..]);
    assert Blocks(Spoken(d.content)) + [] == Blocks(Spoken(d.content));
  }

  lemma ToolUseAdds(d: Demux, turn: TurnId, index: nat, id: CallId, name: string, args: Json, n: nat)
    requires n <= |d.log|
    ensures AddsBlocks(d, Feed(d, turn, ToolUseCompleted(index, id, name, args)), n,
                       [ToolUseBlock(id, name, args)], [ToolUseBlock(id, name, args)])
  {
    SpokenSnoc(d.content, (index, ToolUseBlock(id, name, args)));
    AppendContent(d.log, n, Some(turn), ToolUseRecorded(id, name, args));
  }

  /** The blocks an event adds to the log and to the message differ at most in a text block. */
  lemma FeedAddsBlock(d: Demux, turn: TurnId, e: ModelEvent, n: nat)
    requires n <= |d.log|
    ensures match e
            case TextBlockCompleted(_, text) =>
              AddsBlocks(d, Feed(d, turn, e), n, if d.text.None? then [] else [TextBlock(d.text.value.text)], [TextBlock(text)])
            case ToolUseCompleted(_, id, name, args) =>
              AddsBlocks(d, Feed(d, turn, e), n, [ToolUseBlock(id, name, args)], [ToolUseBlock(id, name, args)])
            case _ => AddsBlocks(d, Feed(d, turn, e), n, [], [])
  {
    match e
    case TextBlockCompleted(index, text) => SealTextAdds(d, turn, index, text, n);
    case ThinkingBlockCompleted(index, text, data) => SealThinkingAdds(d, turn, index, text, data, n);
    case ToolUseCompleted(index, id, name, args) => ToolUseAdds(d, turn, index, id, name, args, n);
    case MessageCompleted(stop, usage) =>
      AppendContent(d.log, n, Some(turn), ModelCallCompleted(stop, usage));
      AddsNothing(d, Feed(d, turn, e), n);
    case _ => AddsNothing(d, Feed(d, turn, e), n);
  }

  lemma AddsNothing(d: Demux, d': Demux, n: nat)
    requires n <= |d.log| <= |d'.log| && d.log <= d'.log && ContentOf(d'.log[n..]) == ContentOf(d.log[n..])
    requires d'.content == d.content
    ensures AddsBlocks(d, d', n, [], [])
  {
    assert ContentOf(d.log[n..]) + [] == ContentOf(d.log[n..]);
    assert Blocks(Spoken(d.content)) + [] == Blocks(Spoken(d.content));
  }

  /** The logged blocks are the sealed ones, thinking aside, exactly when the text is faithful; the calls always are. */
  lemma {:induction false} FeedContent(d: Demux, turn: TurnId, events: seq<ModelEvent>)
    requires d.content == []
    ensures var d' := FeedAll(d, turn, events);
            d.log <= d'.log &&
            Agree(ContentOf(d'.log[|d.log|..]), Blocks(Spoken(d'.content)), TextFaithful(d, turn, events))
  {
    if events == [] {
      assert d.log[|d.log|..] == [];
    } else {
      var pre, e := DropLast(events), LastOf(events);
      FeedContent(d, turn, pre);
      var before := FeedAll(d, turn, pre);
      FeedAddsBlock(before, turn, e, |d.log|);
      var was, said := ContentOf(before.log[|d.log|..]), Blocks(Spoken(before.content));
      var faithful := TextFaithful(d, turn, pre);
      match e {
        case TextBlockCompleted(_, text) =>
          if before.text.Some? {
            AgreeOnText(was, said, faithful, before.text.value.text, text);
          } else {
            AgreeOnLostText(was, said, faithful, text);
          }
        case ToolUseCompleted(_, id, name, args) => AgreeOnCall(was, said, faithful, ToolUseBlock(id, name, args));
        case _ => assert was + [] == was && said + [] == said;
      }
    }
  }

  /** The logged blocks are never more than the spoken, hold the same calls, and are the same just when `faithful`. */
  predicate Agree(was: seq<ContentBlock>, said: seq<ContentBlock>, faithful: bool) {
    |was| <= |said| && (was == said <==> faithful) && Calls(was) == Calls(said)
  }

  lemma AgreeOnText(was: seq<ContentBlock>, said: seq<ContentBlock>, faithful: bool, a: string, b: string)
    requires Agree(was, said, faithful)
    ensures Agree(was + [TextBlock(a)], said + [TextBlock(b)], faithful && a == b)
  {
    WithoutThinkingSnoc(was, TextBlock(a));
    WithoutThinkingSnoc(said, TextBlock(b));
    if was + [TextBlock(a)] == said + [TextBlock(b)] { SnocCancels(was, TextBlock(a), said, TextBlock(b)); }
  }

  lemma AgreeOnLostText(was: seq<ContentBlock>, said: seq<ContentBlock>, faithful: bool, b: string)
    requires Agree(was, said, faithful)
    ensures Agree(was + [], said + [TextBlock(b)], false)
  {
    WithoutThinkingSnoc(said, TextBlock(b));
    assert was + [] == was;
  }

  lemma AgreeOnCall(was: seq<ContentBlock>, said: seq<ContentBlock>, faithful: bool, b: ContentBlock)
    requires Agree(was, said, faithful) && b.ToolUseBlock?
    ensures Agree(was + [b], said + [b], faithful)
  {
    WithoutThinkingSnoc(was, b);
    WithoutThinkingSnoc(said, b);
    if was + [b] == said + [b] { SnocCancels(was, b, said, b); }
  }

  lemma SnocCancels<T>(a: seq<T>, x: T, b: seq<T>, y: T)
    requires a + [x] == b + [y]
    ensures a == b && x == y
  {
    assert |a| == |b|;
    assert a == (a + [x])[..|a|] && b == (b + [y])[..|b|];
    assert (a + [x])[|a|] == x && (b + [y])[|b|] == y;
  }

  predicate IsCallEvent(e: Event) {
    e.schema == SCHEMA_VERSION &&
    (e.payload.AssistantMessageAppended? || e.payload.ToolUseRecorded? || e.payload.ThinkingBlockRecorded? ||
     e.payload.ModelCallCompleted?)
  }

  lemma {:induction false} ScanThroughCall(log: Log, more: Log)
    requires ScanOf(log).mode.Running? && !ScanOf(log).orphan
    requires forall i :: 0 <= i < |more| ==> IsCallEvent(more[i])
    ensures ScanOf(log + more) == ScanOf(log).(mode := ScanOf(log).mode.(call := CallFrom(ScanOf(log).mode.call, more)))
  {
    if more == [] {
      assert log + more == log;
    } else {
      assert DropLast(log + more) == log + DropLast(more);
      ScanThroughCall(log, DropLast(more));
    }
  }

  predicate Unfinished(events: seq<ModelEvent>) {
    forall i :: 0 <= i < |events| ==> !events[i].MessageCompleted?
  }

  lemma {:induction false} FeedWritesCallEvents(d: Demux, turn: TurnId, events: seq<ModelEvent>)
    ensures var log := FeedAll(d, turn, events).log;
            d.log <= log && (forall i :: |d.log| <= i < |log| ==> IsCallEvent(log[i])) &&
            (Unfinished(events) ==> forall i :: |d.log| <= i < |log| ==> !log[i].payload.ModelCallCompleted?)
  {
    if events != [] {
      FeedWritesCallEvents(d, turn, DropLast(events));
      if Unfinished(events) {
        assert forall i :: 0 <= i < |events| - 1 ==> DropLast(events)[i] == events[i];
      }
    }
  }

  predicate IsUnsealed(mid: Log) {
    forall i :: 0 <= i < |mid| ==> IsCallEvent(mid[i]) && !mid[i].payload.ModelCallCompleted?
  }

  lemma CallSeals(mid: Log, e: Event)
    requires IsUnsealed(mid) && e.payload.ModelCallCompleted?
    ensures CallFrom(Calling([], None), mid + [e]) ==
            Calling(ContentOf(mid), Some(Seal(ContentOf(mid), e.payload.stopReason, e.payload.usage, [])))
  {
    CallGrows(Calling([], None), mid);
    assert [] + ContentOf(mid) == ContentOf(mid);
    assert DropLast(mid + [e]) == mid;
  }

  /** Sealing a call: the coordinator sees the logged blocks and the reported stop reason and usage. */
  lemma SealScan(log: Log, turn: TurnId, mid: Log, e: Event)
    requires ScanOf(log).mode == Running(Some(turn), Calling([], None)) && !ScanOf(log).orphan
    requires IsUnsealed(mid) && IsCallEvent(e) && e.payload.ModelCallCompleted?
    ensures var was := ContentOf(mid);
            ScanOf(log + (mid + [e])) ==
            ScanOf(log).(mode := Running(Some(turn), Calling(was, Some(Seal(was, e.payload.stopReason, e.payload.usage, [])))))
  {
    ScanThroughCall(log, mid + [e]);
    CallSeals(mid, e);
  }

  lemma FeedSnoc(start: Demux, turn: TurnId, body: seq<ModelEvent>, last: ModelEvent)
    ensures FeedAll(start, turn, body + [last]) == Feed(FeedAll(start, turn, body), turn, last)
  {
    assert DropLast(body + [last]) == body;
  }

  lemma SealedStream(start: Demux, turn: TurnId, body: seq<ModelEvent>, stop: StopReason, usage: Usage)
    requires ScanOf(start.log).mode == Running(Some(turn), Calling([], None)) && !ScanOf(start.log).orphan
    requires Unfinished(body)
    ensures var d := FeedAll(start, turn, body + [MessageCompleted(stop, usage)]);
            start.log < d.log && LastSeq(d.log) == Some(|d.log| - 1) && d.stop == stop && d.usage == usage &&
            var was := ContentOf(d.log[|start.log|..]);
            ScanOf(d.log) ==
            ScanOf(start.log).(mode := Running(Some(turn), Calling(was, Some(Seal(was, stop, usage, [])))))
  {
    var pre := FeedAll(start, turn, body);
    FeedSnoc(start, turn, body, MessageCompleted(stop, usage));
    FeedWritesCallEvents(start, turn, body);
    SealEnds(start, turn, pre, stop, usage);
    SealReads(start, turn, pre, stop, usage);
  }

  lemma SealReads(start: Demux, turn: TurnId, pre: Demux, stop: StopReason, usage: Usage)
    requires ScanOf(start.log).mode == Running(Some(turn), Calling([], None)) && !ScanOf(start.log).orphan
    requires start.log <= pre.log
    requires forall i :: |start.log| <= i < |pre.log| ==> IsCallEvent(pre.log[i]) && !pre.log[i].payload.ModelCallCompleted?
    ensures var log := Append(pre.log, Some(turn), ModelCallCompleted(stop, usage));
            var was := ContentOf(log[|start.log|..]);
            ScanOf(log) == ScanOf(start.log).(mode := Running(Some(turn), Calling(was, Some(Seal(was, stop, usage, [])))))
  {
    AppendContent(pre.log, |start.log|, Some(turn), ModelCallCompleted(stop, usage));
    SealAppended(start.log, pre.log, turn, stop, usage);
  }

  lemma SealEnds(start: Demux, turn: TurnId, pre: Demux, stop: StopReason, usage: Usage)
    requires start.log <= pre.log
    ensures var d := Feed(pre, turn, MessageCompleted(stop, usage));
            start.log < d.log && LastSeq(d.log) == Some(|d.log| - 1) && d.stop == stop && d.usage == usage &&
            d.log == Append(pre.log, Some(turn), ModelCallCompleted(stop, usage))
  {
  }

  lemma SealAppended(log: Log, pre: Log, turn: TurnId, stop: StopReason, usage: Usage)
    requires ScanOf(log).mode == Running(Some(turn), Calling([], None)) && !ScanOf(log).orphan
    requires log <= pre
    requires forall i :: |log| <= i < |pre| ==> IsCallEvent(pre[i]) && !pre[i].payload.ModelCallCompleted?
    ensures var was := ContentOf(pre[|log|..]);
            ScanOf(pre + [Event(SCHEMA_VERSION, |pre|, Some(turn), |pre|, ModelCallCompleted(stop, usage))]) ==
            ScanOf(log).(mode := Running(Some(turn), Calling(was, Some(Seal(was, stop, usage, [])))))
  {
    var e, mid := Event(SCHEMA_VERSION, |pre|, Some(turn), |pre|, ModelCallCompleted(stop, usage)), pre[|log|..];
    assert forall i :: 0 <= i < |mid| ==> mid[i] == pre[|log| + i];
    SealScan(log, turn, mid, e);
    Reassociate(log, pre, e);
  }

  lemma Reassociate(log: Log, pre: Log, e: Event)
    requires log <= pre
    ensures pre + [e] == log + (pre[|log|..] + [e])
  {
  }

  /** What a log that ends with a seal replays to. */
  lemma SealedForward(log: Log, sc: Scan, turn: TurnId, was: seq<ContentBlock>, stop: StopReason, usage: Usage)
    requires !sc.orphan && !sc.nested && sc.newer.None?
    requires ScanOf(log) == sc.(mode := Running(Some(turn), Calling(was, Some(Seal(was, stop, usage, [])))))
    ensures Forward(log) ==
            if Calls(was) != [] then Ok(Decision(FromToolDispatching(turn, Calls(was), []), LastSeq(log)))
            else if stop == ToolUse then Err(Malformed(ToolUseStopWithoutToolUse))
            else Ok(Decision(FromModelCompleted(turn, ModelOutput(was, stop, usage)), LastSeq(log)))
  {
    UnansweredByNone(Calls(was));
  }

  /** What `Replay` must answer for a sealed message: its calls as pending, in order, or the message without thinking. */
  predicate ReadsBack(r: Result<Decision, ResumeError>, turn: TurnId, out: ModelOutput, faithful: bool, lastSeq: Option<nat>) {
    var calls := Calls(out.content);
    if calls != [] then r == Ok(Decision(FromToolDispatching(turn, calls, []), lastSeq))
    else if out.stopReason == ToolUse then r == Err(Malformed(ToolUseStopWithoutToolUse))
    else faithful <==>
         r == Ok(Decision(FromModelCompleted(turn, out.(content := WithoutThinking(out.content))), lastSeq))
  }

  lemma SealedReadsBack(log: Log, sc: Scan, turn: TurnId, was: seq<ContentBlock>, out: ModelOutput)
    requires !sc.orphan && !sc.nested && sc.newer.None?
    requires ScanOf(log) ==
             sc.(mode := Running(Some(turn), Calling(was, Some(Seal(was, out.stopReason, out.usage, [])))))
    requires Calls(was) == Calls(out.content)
    ensures ReadsBack(Forward(log), turn, out, was == WithoutThinking(out.content), LastSeq(log))
  {
    SealedForward(log, sc, turn, was, out.stopReason, out.usage);
  }

  /**
   The round trip. For a response that ends the way the gateway promises, with its
   spoken blocks sealed in index order: whatever the text, the tool calls of the
   sealed message come back as pending, in order; with none, the message itself comes
   back, thinking aside, exactly when the text is faithful to its deltas.
   */
  lemma DemuxThenReplay(start: Demux, turn: TurnId, body: seq<ModelEvent>, stop: StopReason, usage: Usage)
    requires start.content == []
    requires ScanOf(start.log).mode == Running(Some(turn), Calling([], None))
    requires !ScanOf(start.log).orphan && !ScanOf(start.log).nested && ScanOf(start.log).newer.None?
    requires Unfinished(body)
    requires InIndexOrder(Spoken(FeedAll(start, turn, body + [MessageCompleted(stop, usage)]).content))
    ensures var events := body + [MessageCompleted(stop, usage)];
            var d := FeedAll(start, turn, events);
            Sealed(d).stopReason == stop && Sealed(d).usage == usage &&
            ReadsBack(Forward(d.log), turn, Sealed(d), TextFaithful(start, turn, events), Some(|d.log| - 1))
  {
    var events := body + [MessageCompleted(stop, usage)];
    var d := FeedAll(start, turn, events);
    SealedStream(start, turn, body, stop, usage);
    FeedContent(start, turn, events);
    SpokenBlocks(d.content);
    SealedReadsBack(d.log, ScanOf(start.log), turn, ContentOf(d.log[|start.log|..]), Sealed(d));
  }

  /** In index order, the sealed message without thinking is the blocks as they were sealed. */
  lemma SpokenBlocks(s: seq<Indexed>)
    requires InIndexOrder(Spoken(s))
    ensures WithoutThinking(Blocks(SortByIndex(s))) == Blocks(Spoken(s))
    ensures Calls(Blocks(SortByIndex(s))) == Calls(Blocks(Spoken(s)))
  {
    SortSpoken(s);
    SortKeepsOrdered(Spoken(s));
    BlocksSpoken(SortByIndex(s));
    CallsWithoutThinking(Blocks(SortByIndex(s)));
  }

  lemma {:induction false} BlocksSpoken(s: seq<Indexed>)
    ensures WithoutThinking(Blocks(s)) == Blocks(Spoken(s))
  {
    if s != [] {
      var pre := DropLast(s);
      BlocksSpoken(pre);
      WithoutThinkingSnoc(Blocks(pre), LastOf(s).1);
      assert DropLast(Spoken(pre) + [LastOf(s)]) == Spoken(pre);
    }
  }

  /** A text block sealed without a single delta is in the message but never in the log. */
  lemma EmptyTextBlockIsLost(start: Demux, turn: TurnId, stop: StopReason, usage: Usage)
    requires start.content == [] && start.text.None?
    ensures var d := FeedAll(start, turn, [TextBlockCompleted(0, ""), MessageCompleted(stop, usage)]);
            Sealed(d).content == [TextBlock("")] &&
            d.log == Append(start.log, Some(turn), ModelCallCompleted(stop, usage))
  {
    var first := TextBlockCompleted(0, "");
    FeedSnoc(start, turn, [], first);
    FeedSnoc(start, turn, [first], MessageCompleted(stop, usage));
    assert [] + [first] == [first] && [first] + [MessageCompleted(stop, usage)] == [first, MessageCompleted(stop, usage)];
    var content: seq<Indexed> := [(0, TextBlock(""))];
    assert FeedAll(start, turn, [first, MessageCompleted(stop, usage)]).content == content;
    SortKeepsOrdered(content);
    assert DropLast(content) == [] && Blocks(content) == [TextBlock("")];
  }

  // ----- what a failed stream leaves behind -----

  predicate SealsText(events: seq<ModelEvent>) {
    exists i :: 0 <= i < |events| && events[i].TextBlockCompleted?
  }

  /** Some text arrives before the first text block is sealed. */
  predicate TextComesFirst(events: seq<ModelEvent>) {
    exists i :: 0 <= i < |events| && events[i].TextDelta? && !SealsText(events[..i])
  }

  lemma SealsSnoc(events: seq<ModelEvent>)
    requires events != []
    ensures SealsText(events) <==> SealsText(DropLast(events)) || LastOf(events).TextBlockCompleted?
  {
    assert forall i :: 0 <= i < |events| - 1 ==> DropLast(events)[i] == events[i];
  }

  lemma TextFirstSnoc(events: seq<ModelEvent>)
    requires events != []
    ensures TextComesFirst(events) <==>
            TextComesFirst(DropLast(events)) || (LastOf(events).TextDelta? && !SealsText(DropLast(events)))
  {
    var pre := DropLast(events);
    assert events[..|pre|] == pre;
    assert forall i :: 0 <= i < |pre| ==> events[..i] == pre[..i];
  }

  lemma AppendInjective(a: Log, b: Log, turn: Option<TurnId>, p: Payload, turn': Option<TurnId>, p': Payload)
    ensures Append(a, turn, p) == Append(b, turn', p') <==> a == b && turn == turn' && p == p'
  {
    if Append(a, turn, p) == Append(b, turn', p') { AppendReadsOff(a, turn, p, b, turn', p'); }
  }

  lemma AppendReadsOff(a: Log, turn: Option<TurnId>, p: Payload, b: Log, turn': Option<TurnId>, p': Payload)
    requires Append(a, turn, p) == Append(b, turn', p')
    ensures a == b && turn == turn' && p == p'
  {
    assert Append(a, turn, p)[..|a|] == a && Append(b, turn', p')[..|b|] == b;
    assert LastOf(Append(a, turn, p)).turn == turn && LastOf(Append(b, turn', p')).turn == turn';
    assert LastOf(Append(a, turn, p)).payload == p && LastOf(Append(b, turn', p')).payload == p';
  }

  /** Up to the first sealed text block both runs write the same; one holds the leftover in front of the text. */
  predicate Held(dirty: Demux, clean: Demux, left: Buffer, turn: TurnId, began: bool) {
    clean == dirty.(text := clean.text) && (clean.text.Some? <==> began) &&
    (clean.text.Some? ==> clean.text.value.turn == turn) &&
    dirty.text == Some(left.(text := left.text + if clean.text.None? then "" else clean.text.value.text))
  }

  /** From then on they only differ in their logs, if at all. */
  predicate Released(dirty: Demux, clean: Demux, same: bool) {
    clean == dirty.(log := clean.log) && (clean.log == dirty.log <==> same)
  }

  lemma HeldOn(dirty: Demux, clean: Demux, left: Buffer, turn: TurnId, began: bool, e: ModelEvent)
    requires Held(dirty, clean, left, turn, began) && !e.TextBlockCompleted?
    ensures Held(Feed(dirty, turn, e), Feed(clean, turn, e), left, turn, began || e.TextDelta?)
  {
    if e.TextDelta? {
      Assoc(left.text, if began then clean.text.value.text else "", e.chunk);
      assert "" + e.chunk == e.chunk;
    }
  }

  lemma Release(dirty: Demux, clean: Demux, left: Buffer, turn: TurnId, began: bool, e: ModelEvent)
    requires Held(dirty, clean, left, turn, began) && e.TextBlockCompleted?
    ensures Released(Feed(dirty, turn, e), Feed(clean, turn, e), left == Buffer(turn, "") && began)
  {
    var text := if began then clean.text.value.text else "";
    assert left.text + text == text <==> left.text == "" by { assert |left.text + text| == |left.text| + |text|; }
    AppendInjective(dirty.log, clean.log, Some(left.turn), AssistantMessageAppended(left.text + text),
                    Some(turn), AssistantMessageAppended(text));
  }

  lemma ReleasedOn(dirty: Demux, clean: Demux, turn: TurnId, same: bool, e: ModelEvent)
    requires Released(dirty, clean, same)
    ensures Released(Feed(dirty, turn, e), Feed(clean, turn, e), same)
  {
    match e
    case TextBlockCompleted(_, _) =>
      if clean.text.Some? {
        var p := AssistantMessageAppended(clean.text.value.text);
        AppendInjective(dirty.log, clean.log, Some(clean.text.value.turn), p, Some(clean.text.value.turn), p);
      }
    case ThinkingBlockCompleted(_, _, data) =>
      if clean.thinking.Some? {
        var p := ThinkingBlockRecorded(clean.thinking.value.text, data);
        AppendInjective(dirty.log, clean.log, Some(clean.thinking.value.turn), p, Some(clean.thinking.value.turn), p);
      }
    case ToolUseCompleted(_, id, name, args) =>
      AppendInjective(dirty.log, clean.log, Some(turn), ToolUseRecorded(id, name, args), Some(turn), ToolUseRecorded(id, name, args));
    case MessageCompleted(stop, usage) =>
      AppendInjective(dirty.log, clean.log, Some(turn), ModelCallCompleted(stop, usage), Some(turn), ModelCallCompleted(stop, usage));
    case _ =>
  }

  /** Both runs in step, with and without the leftover. */
  lemma {:induction false} InStep(log: Log, left: Buffer, thinking: Option<Buffer>, turn: TurnId, events: seq<ModelEvent>)
    ensures var dirty := FeedAll(Begun(log, Some(left), thinking), turn, events);
            var clean := FeedAll(Begun(log, None, thinking), turn, events);
            if SealsText(events) then Released(dirty, clean, left == Buffer(turn, "") && TextComesFirst(events))
            else Held(dirty, clean, left, turn, TextComesFirst(events))
  {
    if events == [] {
      assert left.text + "" == left.text;
    } else {
      var pre, e := DropLast(events), LastOf(events);
      InStep(log, left, thinking, turn, pre);
      SealsSnoc(events);
      TextFirstSnoc(events);
      var dirty, clean := FeedAll(Begun(log, Some(left), thinking), turn, pre), FeedAll(Begun(log, None, thinking), turn, pre);
      if SealsText(pre) {
        ReleasedOn(dirty, clean, turn, left == Buffer(turn, "") && TextComesFirst(pre), e);
      } else if e.TextBlockCompleted? {
        Release(dirty, clean, left, turn, TextComesFirst(pre), e);
      } else {
        HeldOn(dirty, clean, left, turn, TextComesFirst(pre), e);
      }
    }
  }

  /**
   No stream error resets the buffers. Text that a failed response left unsealed leaves
   the log of the next response alone exactly when that one seals no text, or when the
   leftover is empty, of the same turn, and text comes before the first seal.
   */
  lemma LeftoverShows(log: Log, left: Buffer, thinking: Option<Buffer>, turn: TurnId, events: seq<ModelEvent>)
    ensures FeedAll(Begun(log, Some(left), thinking), turn, events).log == FeedAll(Begun(log, None, thinking), turn, events).log
            <==> (SealsText(events) ==> left == Buffer(turn, "") && TextComesFirst(events))
  {
    InStep(log, left, thinking, turn, events);
  }

  /** A response of one turn fails after its first text; the next turn's first block carries it, under the failed turn's id. */
  lemma LeftoverIsFlushed(log: Log, failed: TurnId, turn: TurnId, more: Log)
    ensures var d := FeedAll(Begun(log, None, None), failed, [TextDelta(0, "lost ")]);
            d.text == Some(Buffer(failed, "lost ")) && d.log == log &&
            FeedAll(Begun(log + more, d.text, None), turn, [TextDelta(0, "found"), TextBlockCompleted(0, "found")]).log ==
            Append(log + more, Some(failed), AssistantMessageAppended("lost found"))
  {
    FeedSnoc(Begun(log, None, None), failed, [], TextDelta(0, "lost "));
    assert [] + [TextDelta(0, "lost ")] == [TextDelta(0, "lost ")];
    var start := Begun(log + more, Some(Buffer(failed, "lost ")), None);
    FeedSnoc(start, turn, [], TextDelta(0, "found"));
    assert [] + [TextDelta(0, "found")] == [TextDelta(0, "found")];
    FeedSnoc(start, turn, [TextDelta(0, "found")], TextBlockCompleted(0, "found"));
    assert [TextDelta(0, "found")] + [TextBlockCompleted(0, "found")] == [TextDelta(0, "found"), TextBlockCompleted(0, "found")];
    assert "lost " + "found" == "lost found";
  }
}
