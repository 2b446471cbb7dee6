/**
 What every run of the actor keeps, whatever the number of crashes and reopenings:
 `Replay` recovers exactly the phase the writer was in, no tool call gets two
 results, and the calls a turn leaves unanswered are exactly those lost at a pause.
 */
module RuntimeSafety {
  import opened Wrappers
  import opened Events
  import opened Resume
  import opened Runtime

  // ----- the phase of the writer, as a resume point -----

  /** The resume point a crash in this control state must lead to. */
  function Phase(c: Control): ResumePoint {
    if c.latch.Some? then c.latch.value
    else match c.mem
      case Ready(None) => FreshTurn
      case Ready(Some(turn)) => RestartCurrentTurn(turn)
      case Preparing(turn, done) => if done == [] then RestartCurrentTurn(turn) else FromToolDispatching(turn, [], done)
      case Streaming(turn, _) => RestartCurrentTurn(turn)
      case Resolving(turn, output, kept, todo, done) =>
        if kept + todo == [] && done == []
        then FromModelCompleted(turn, output.(content := WithoutThinking(output.content)))
        else FromToolDispatching(turn, kept + todo, done)
      case Dispatching(turn, queue, done) => FromToolDispatching(turn, queue, done)
      case Submitted(turn, _, call, rest, done) => FromToolDispatching(turn, [call] + rest, done)
      case Paused(turn, job, _) => PausedJob(turn, job)
      case Woken(turn, job, id, outcome) => AfterJobCompletion(turn, job, outcome, id, c.results, [])
  }

  // ----- the invariant -----

  predicate Unsealed(m: Mode, turn: TurnId) {
    m.Running? && m.turn == Some(turn) && (m.call.NoCall? || m.call.seal.None?)
  }

  predicate SealedWith(m: Mode, turn: TurnId, pending: seq<Call>, done: seq<(CallId, ToolResult)>) {
    m.Running? && m.turn == Some(turn) && m.call.Calling? && m.call.seal.Some? &&
    var seal := m.call.seal.value;
    seal.results == done && Unanswered(Calls(seal.content), done) == pending
  }

  predicate LatchFits(sc: Scan, c: Control, p: ResumePoint) {
    p.AfterJobCompletion? && p.pendingAfter == [] &&
    sc.mode == PausedOn(Some(p.turn), p.job, Some(p.outcome), p.before) &&
    p.job in sc.jobs && sc.jobs[p.job] == p.callId &&
    !c.mem.Ready? && !c.mem.Paused? && c.mem.turn == p.turn &&
    (c.mem.Woken? ==> c.mem == Woken(p.turn, p.job, p.callId, p.outcome))
  }

  predicate MemoryFits(sc: Scan, c: Control) {
    match c.mem
    case Ready(None) => sc.mode == Idle
    case Ready(Some(turn)) => Unsealed(sc.mode, turn)
    case Preparing(turn, done) => if done == [] then Unsealed(sc.mode, turn) else SealedWith(sc.mode, turn, [], done)
    case Streaming(turn, content) => sc.mode == Running(Some(turn), Calling(WithoutThinking(content), None))
    case Resolving(turn, output, kept, todo, done) =>
      SealedWith(sc.mode, turn, kept + todo, done) &&
      (kept + todo == [] && done == [] ==>
         var seal := sc.mode.call.seal.value;
         output.stopReason != ToolUse && seal.stop == output.stopReason && seal.usage == output.usage &&
         seal.content == WithoutThinking(output.content))
    case Dispatching(turn, queue, done) => SealedWith(sc.mode, turn, queue, done) && (queue != [] || done != [])
    case Submitted(turn, job, call, rest, done) => SealedWith(sc.mode, turn, [call] + rest, done)
    case Paused(turn, job, id) =>
      sc.mode == PausedOn(Some(turn), job, None, c.results) && job in sc.jobs && sc.jobs[job] == id
    case Woken(_, _, _, _) => false
  }

  predicate ScanFits(sc: Scan, c: Control) {
    sc.newer.None? && !sc.orphan && sc.nested == c.overlapped && sc.answered == c.results &&
    (sc.inTurn <==> c.mem != Ready(None)) &&
    (c.mem.Submitted? ==> c.mem.job in sc.jobs && sc.jobs[c.mem.job] == c.mem.call.callId) &&
    (c.mem.Paused? ==> c.mem.job in sc.paused) &&
    if c.latch.Some? then LatchFits(sc, c, c.latch.value) else MemoryFits(sc, c)
  }

  predicate Distinct(calls: seq<Call>) {
    forall i, j :: 0 <= i < j < |calls| ==> calls[i].callId != calls[j].callId
  }

  /** The calls the memory still has to answer. */
  function Remaining(m: Memory): seq<Call> {
    match m
    case Resolving(_, _, kept, todo, _) => kept + todo
    case Dispatching(_, queue, _) => queue
    case Submitted(_, _, call, rest, _) => [call] + rest
    case _ => []
  }

  /** The calls it knows only by id. */
  function Awaited(m: Memory): set<CallId> {
    if m.Paused? || m.Woken? then {m.callId} else {}
  }

  predicate LedgerFits(g: Ledger, c: Control) {
    !g.doubled && g.owed <= g.used && g.streaming <= g.used && g.answered <= g.used && c.lost <= g.used &&
    c.lost !! g.answered && g.owed !! g.answered &&
    (!c.mem.Ready? ==> Distinct(Remaining(c.mem)) && g.owed - c.lost == Ids(Remaining(c.mem)) + Awaited(c.mem)) &&
    (c.latch.None? && !c.mem.Ready? && !c.mem.Paused? ==> g.owed !! c.lost) &&
    (c.latch.Some? && c.latch.value.AfterJobCompletion? ==>
       (c.latch.value.callId in g.answered <==> !c.mem.Woken?)) &&
    (c.mem.Streaming? ==>
       Distinct(Calls(c.mem.content)) && Ids(Calls(c.mem.content)) == g.streaming &&
       g.streaming !! g.answered && g.streaming !! c.lost)
  }

  predicate Inv(s: State) {
    ScanFits(ScanOf(s.log), s.ctl) && LedgerFits(LedgerOf(s.log), s.ctl)
  }

  // ----- lists of calls -----

  function Without(calls: seq<Call>, id: CallId): seq<Call> {
    if calls == [] then []
    else if LastOf(calls).callId == id then Without(DropLast(calls), id)
    else Without(DropLast(calls), id) + [LastOf(calls)]
  }

  lemma {:induction false} UnansweredAfter(calls: seq<Call>, results: seq<(CallId, ToolResult)>, r: (CallId, ToolResult))
    ensures Unanswered(calls, results + [r]) == Without(Unanswered(calls, results), r.0)
  {
    if calls != [] {
      UnansweredAfter(DropLast(calls), results, r);
      var id := LastOf(calls).callId;
      if Answers(results, id) {
        var i :| 0 <= i < |results| && results[i].0 == id;
        assert (results + [r])[i].0 == id;
      } else if id == r.0 {
        assert (results + [r])[|results|].0 == id;
      }
      assert DropLast(Unanswered(DropLast(calls), results) + [LastOf(calls)]) == Unanswered(DropLast(calls), results);
    }
  }

  lemma {:induction false} WithoutAbsent(calls: seq<Call>, id: CallId)
    requires forall i :: 0 <= i < |calls| ==> calls[i].callId != id
    ensures Without(calls, id) == calls
  {
    if calls != [] {
      var pre, n := DropLast(calls), |calls| - 1;
      assert forall i :: 0 <= i < n ==> pre[i] == calls[i];
      WithoutAbsent(pre, id);
      assert LastOf(calls) == calls[n];
      assert pre + [calls[n]] == calls;
    }
  }

  lemma {:induction false} WithoutMiddle(a: seq<Call>, b: seq<Call>)
    requires b != [] && Distinct(a + b)
    ensures Without(a + b, b[0].callId) == a + b[1..]
  {
    var id := b[0].callId;
    if |b| == 1 {
      assert DropLast(a + b) == a && a + b[1..] == a;
      assert forall i :: 0 <= i < |a| ==> a[i] == (a + b)[i];
      assert (a + b)[|a|].callId == id;
      WithoutAbsent(a, id);
    } else {
      var pre := a + DropLast(b);
      assert DropLast(a + b) == pre;
      assert forall i :: 0 <= i < |pre| ==> pre[i] == (a + b)[i];
      WithoutMiddle(a, DropLast(b));
      assert (a + b)[|a|].callId == id && (a + b)[|pre|] == LastOf(b);
      assert a + b[1..] == (a + DropLast(b)[1..]) + [LastOf(b)];
    }
  }

  lemma IdsWithoutMiddle(a: seq<Call>, b: seq<Call>)
    requires b != [] && Distinct(a + b)
    ensures Distinct(a + b[1..]) && Ids(a + b[1..]) == Ids(a + b) - {b[0].callId}
  {
    var all, short := a + b, a + b[1..];
    assert all[|a|] == b[0];
    assert forall i :: 0 <= i < |short| ==> short[i] == all[if i < |a| then i else i + 1];
    forall id | id in Ids(all) && id != b[0].callId ensures id in Ids(short) {
      var c :| c in all && c.callId == id;
      var i :| 0 <= i < |all| && all[i] == c;
      assert short[if i < |a| then i else i - 1] == c;
    }
    forall id | id in Ids(short) ensures id in Ids(all) && id != b[0].callId {
      var c :| c in short && c.callId == id;
      var i :| 0 <= i < |short| && short[i] == c;
      assert all[if i < |a| then i else i + 1] == c;
    }
  }

  // ----- one event -----

  lemma AppendReads(log: Log, turn: Option<TurnId>, p: Payload)
    ensures var log' := Append(log, turn, p);
            DropLast(log') == log && LastOf(log').payload == p && LastOf(log').turn == turn
    ensures ScanOf(Append(log, turn, p)) == Step(ScanOf(log), LastOf(Append(log, turn, p)))
    ensures LedgerOf(Append(log, turn, p)) == StepLedger(LedgerOf(log), p)
  {
    assert DropLast(Append(log, turn, p)) == log;
  }

  predicate Writes(c: Control, m: Move, e: Event) {
    m.write == Some(e.payload) && e.schema == SCHEMA_VERSION && e.turn == EnvelopeTurn(c.mem, m.ctl.mem)
  }

  lemma SilentKeepsScan(sc: Scan, c: Control, l: Label)
    requires ScanFits(sc, c) && Live(c, l).Some? && Live(c, l).value.write.None?
    ensures ScanFits(sc, Live(c, l).value.ctl)
  {
    if l.Keep? {
      var kept, todo := c.mem.kept, c.mem.todo;
      assert (kept + [todo[0]]) + todo[1..] == kept + todo;
    } else if l.BeginDispatch? {
      assert c.mem.kept + [] == c.mem.kept;
    }
  }

  /** Writing a result moves one call from the pending to the completed side of the seal. */
  lemma ResultMovesCall(sc: Scan, turn: TurnId, a: seq<Call>, b: seq<Call>, done: seq<(CallId, ToolResult)>, e: Event)
    requires SealedWith(sc.mode, turn, a + b, done) && b != [] && Distinct(a + b)
    requires e.payload.ToolResultRecorded? && e.payload.callId == b[0].callId
    ensures SealedWith(StepMode(sc, e), turn, a + b[1..], done + [(e.payload.callId, e.payload.result)])
  {
    UnansweredAfter(Calls(sc.mode.call.seal.value.content), done, (e.payload.callId, e.payload.result));
    WithoutMiddle(a, b);
  }

  /** A result changes nothing the scan tracks but the results themselves and the sealed call. */
  lemma ResultFits(sc: Scan, c: Control, d: Control, e: Event)
    requires ScanFits(sc, c) && e.payload.ToolResultRecorded? && e.schema == SCHEMA_VERSION
    requires d.latch == c.latch && d.overlapped == c.overlapped
    requires d.results == c.results + [(e.payload.callId, e.payload.result)]
    requires !c.mem.Ready? && (d.mem.Resolving? || d.mem.Dispatching?) && d.mem.turn == c.mem.turn
    requires c.latch.None? ==> MemoryFits(Step(sc, e), d)
    ensures ScanFits(Step(sc, e), d)
  {
  }

  lemma ResultKeepsScan(sc: Scan, c: Control, l: Label, e: Event)
    requires l.Reject? || l.Answer? || l.RegisterFailed? || l.Wake?
    requires ScanFits(sc, c) && Distinct(Remaining(c.mem)) && Live(c, l).Some? && Writes(c, Live(c, l).value, e)
    ensures ScanFits(Step(sc, e), Live(c, l).value.ctl)
  {
    if c.latch.None? {
      match l
      case Reject(_) => RejectKeepsMemory(sc, c, l, e);
      case Answer(_) => AnswerKeepsMemory(sc, c, l, e);
      case RegisterFailed(_) => RegisterFailedKeepsMemory(sc, c, l, e);
      case Wake =>
    }
    ResultFits(sc, c, Live(c, l).value.ctl, e);
  }

  lemma RejectKeepsMemory(sc: Scan, c: Control, l: Label, e: Event)
    requires l.Reject?
    requires MemoryFits(sc, c) && Distinct(Remaining(c.mem)) && Live(c, l).Some? && Writes(c, Live(c, l).value, e)
    ensures MemoryFits(Step(sc, e), Live(c, l).value.ctl)
  {
    ResultMovesCall(sc, c.mem.turn, c.mem.kept, c.mem.todo, c.mem.done, e);
  }

  lemma AnswerKeepsMemory(sc: Scan, c: Control, l: Label, e: Event)
    requires l.Answer?
    requires MemoryFits(sc, c) && Distinct(Remaining(c.mem)) && Live(c, l).Some? && Writes(c, Live(c, l).value, e)
    ensures MemoryFits(Step(sc, e), Live(c, l).value.ctl)
  {
    var queue := c.mem.queue;
    assert [] + queue == queue && [] + queue[1..] == queue[1..];
    ResultMovesCall(sc, c.mem.turn, [], queue, c.mem.done, e);
  }

  lemma RegisterFailedKeepsMemory(sc: Scan, c: Control, l: Label, e: Event)
    requires l.RegisterFailed?
    requires MemoryFits(sc, c) && Distinct(Remaining(c.mem)) && Live(c, l).Some? && Writes(c, Live(c, l).value, e)
    ensures MemoryFits(Step(sc, e), Live(c, l).value.ctl)
  {
    var all := [c.mem.call] + c.mem.rest;
    assert [] + all == all && [] + all[1..] == c.mem.rest;
    ResultMovesCall(sc, c.mem.turn, [], all, c.mem.done, e);
  }

  lemma EmittedFits(sc: Scan, c: Control, d: Control, e: Event, block: ContentBlock)
    requires ScanFits(sc, c) && c.mem.Streaming? && d == c.(mem := c.mem.(content := c.mem.content + [block]))
    requires e.schema == SCHEMA_VERSION
    requires (e.payload.AssistantMessageAppended? && block == TextBlock(e.payload.text)) ||
             (e.payload.ThinkingBlockRecorded? && block.ThinkingBlock?) ||
             (e.payload.ToolUseRecorded? && block == ToolUseBlock(e.payload.callId, e.payload.toolName, e.payload.args))
    ensures ScanFits(Step(sc, e), d)
  {
    WithoutThinkingSnoc(c.mem.content, block);
  }

  lemma EmitKeepsScan(sc: Scan, c: Control, l: Label, e: Event)
    requires l.EmitText? || l.EmitThinking? || l.EmitToolUse?
    requires ScanFits(sc, c) && Live(c, l).Some? && Writes(c, Live(c, l).value, e)
    ensures ScanFits(Step(sc, e), Live(c, l).value.ctl)
  {
    var d := Live(c, l).value.ctl;
    match l
    case EmitText(text) => EmittedFits(sc, c, d, e, TextBlock(text));
    case EmitThinking(text, data) => EmittedFits(sc, c, d, e, ThinkingBlock(text, data));
    case EmitToolUse(call) => EmittedFits(sc, c, d, e, ToolUseBlock(call.callId, call.toolName, call.args));
  }

  lemma FreshSeal(turn: TurnId, w: seq<ContentBlock>, stop: StopReason, usage: Usage)
    ensures SealedWith(Running(Some(turn), Calling(w, Some(Seal(w, stop, usage, [])))), turn, [] + Calls(w), [])
  {
    UnansweredByNone(Calls(w));
    assert [] + Calls(w) == Calls(w);
  }

  lemma SealedMemoryFits(sc: Scan, d: Control, turn: TurnId, content: seq<ContentBlock>, stop: StopReason, usage: Usage)
    requires var w := WithoutThinking(content); sc.mode == Running(Some(turn), Calling(w, Some(Seal(w, stop, usage, []))))
    requires stop == ToolUse ==> Calls(content) != []
    requires d.mem == Resolving(turn, ModelOutput(content, stop, usage), [], Calls(content), [])
    ensures MemoryFits(sc, d)
  {
    CallsWithoutThinking(content);
    FreshSeal(turn, WithoutThinking(content), stop, usage);
  }

  lemma SealKeepsScan(sc: Scan, c: Control, l: Label, e: Event)
    requires l.SealCall?
    requires ScanFits(sc, c) && Live(c, l).Some? && Writes(c, Live(c, l).value, e)
    ensures ScanFits(Step(sc, e), Live(c, l).value.ctl)
  {
    if c.latch.None? {
      SealedMemoryFits(Step(sc, e), Live(c, l).value.ctl, c.mem.turn, c.mem.content, l.stop, l.usage);
    }
  }

  lemma MarkKeepsScan(sc: Scan, c: Control, l: Label, e: Event)
    requires l.Open? || l.Note? || l.OpenCall?
    requires ScanFits(sc, c) && Live(c, l).Some? && Writes(c, Live(c, l).value, e)
    ensures ScanFits(Step(sc, e), Live(c, l).value.ctl)
  {
  }

  lemma BoundaryKeepsScan(sc: Scan, c: Control, l: Label, e: Event)
    requires l.Begin? || l.Finish? || l.Fail? || l.JobDone?
    requires ScanFits(sc, c) && Live(c, l).Some? && Writes(c, Live(c, l).value, e)
    ensures ScanFits(Step(sc, e), Live(c, l).value.ctl)
  {
  }

  lemma JobKeepsScan(sc: Scan, c: Control, l: Label, e: Event)
    requires l.Submit? || l.Pause?
    requires ScanFits(sc, c) && Live(c, l).Some? && Writes(c, Live(c, l).value, e)
    requires l.Submit? ==> l.job !in sc.jobs
    ensures ScanFits(Step(sc, e), Live(c, l).value.ctl)
  {
    if l.Submit? {
      assert [c.mem.queue[0]] + c.mem.queue[1..] == c.mem.queue;
    }
  }

  // ----- the ledger -----

  lemma IdsOf(calls: seq<Call>)
    ensures forall c :: c in calls ==> c.callId in Ids(calls)
    ensures Ids([]) == {}
  {
  }

  lemma IdsSnoc(calls: seq<Call>, c: Call)
    ensures Ids(calls + [c]) == Ids(calls) + {c.callId}
    ensures Distinct(calls) && c.callId !in Ids(calls) ==> Distinct(calls + [c])
  {
    assert forall x :: x in calls + [c] <==> x in calls || x == c;
    forall id | id in Ids(calls) ensures id in Ids(calls + [c]) {
      var x :| x in calls && x.callId == id;
      assert x in calls + [c];
    }
    assert c in calls + [c];
    if c.callId !in Ids(calls) {
      assert forall i :: 0 <= i < |calls| ==> calls[i] in calls;
    }
  }

  lemma SilentKeepsLedger(g: Ledger, c: Control, l: Label)
    requires LedgerFits(g, c) && Live(c, l).Some? && Live(c, l).value.write.None?
    ensures LedgerFits(g, Live(c, l).value.ctl)
  {
    if l.Keep? {
      var kept, todo := c.mem.kept, c.mem.todo;
      assert (kept + [todo[0]]) + todo[1..] == kept + todo;
    } else if l.BeginDispatch? {
      assert c.mem.kept + [] == c.mem.kept;
    }
  }

  /** Answering one of the remaining calls settles exactly that call. */
  lemma AnswerSettles(owed: set<CallId>, lost: set<CallId>, a: seq<Call>, b: seq<Call>)
    requires owed - lost == Ids(a + b) && b != [] && Distinct(a + b)
    ensures var id := b[0].callId;
            id in owed && id !in lost && (owed - {id}) - lost == Ids(a + b[1..]) && Distinct(a + b[1..])
  {
    IdsWithoutMiddle(a, b);
    IdsOf(a + b);
    assert (a + b)[|a|] == b[0];
  }

  lemma RejectKeepsLedger(g: Ledger, c: Control, l: Label, p: Payload)
    requires l.Reject? && LedgerFits(g, c) && Live(c, l).Some? && Live(c, l).value.write == Some(p)
    ensures LedgerFits(StepLedger(g, p), Live(c, l).value.ctl)
  {
    AnswerSettles(g.owed, c.lost, c.mem.kept, c.mem.todo);
  }

  lemma QueueSettles(owed: set<CallId>, lost: set<CallId>, queue: seq<Call>)
    requires owed - lost == Ids(queue) && queue != [] && Distinct(queue)
    ensures var id := queue[0].callId;
            id in owed && id !in lost && (owed - {id}) - lost == Ids(queue[1..]) && Distinct(queue[1..])
  {
    assert [] + queue == queue && [] + queue[1..] == queue[1..];
    AnswerSettles(owed, lost, [], queue);
  }

  lemma AnswerKeepsLedger(g: Ledger, c: Control, l: Label, p: Payload)
    requires l.Answer? && LedgerFits(g, c) && Live(c, l).Some? && Live(c, l).value.write == Some(p)
    ensures LedgerFits(StepLedger(g, p), Live(c, l).value.ctl)
  {
    QueueSettles(g.owed, c.lost, c.mem.queue);
  }

  lemma FirstSettles(owed: set<CallId>, lost: set<CallId>, call: Call, rest: seq<Call>)
    requires owed - lost == Ids([call] + rest) && Distinct([call] + rest)
    ensures call.callId in owed && call.callId !in lost && (owed - {call.callId}) - lost == Ids(rest) && Distinct(rest)
  {
    var all := [call] + rest;
    assert [] + all == all && [] + all[1..] == rest && all[0] == call;
    AnswerSettles(owed, lost, [], all);
  }

  lemma RegisterFailedKeepsLedger(g: Ledger, c: Control, l: Label, p: Payload)
    requires l.RegisterFailed? && LedgerFits(g, c) && Live(c, l).Some? && Live(c, l).value.write == Some(p)
    ensures LedgerFits(StepLedger(g, p), Live(c, l).value.ctl)
  {
    FirstSettles(g.owed, c.lost, c.mem.call, c.mem.rest);
  }

  lemma WakeKeepsLedger(g: Ledger, c: Control, l: Label, p: Payload)
    requires l.Wake? && LedgerFits(g, c) && Live(c, l).Some? && Live(c, l).value.write == Some(p)
    requires c.latch.Some? && c.latch.value.AfterJobCompletion? && c.latch.value.callId == c.mem.callId
    ensures LedgerFits(StepLedger(g, p), Live(c, l).value.ctl)
  {
  }

  /** A block without a call leaves the calls of the message alone. */
  lemma SpokenKeepsLedger(g: Ledger, c: Control, block: ContentBlock)
    requires LedgerFits(g, c) && c.mem.Streaming? && !block.ToolUseBlock?
    ensures LedgerFits(g, c.(mem := c.mem.(content := c.mem.content + [block])))
  {
    WithoutThinkingSnoc(c.mem.content, block);
  }

  lemma EmitUseKeepsLedger(g: Ledger, c: Control, l: Label, p: Payload)
    requires l.EmitToolUse? && l.call.callId !in g.used
    requires LedgerFits(g, c) && Live(c, l).Some? && Live(c, l).value.write == Some(p)
    ensures LedgerFits(StepLedger(g, p), Live(c, l).value.ctl)
  {
    WithoutThinkingSnoc(c.mem.content, ToolUseBlock(l.call.callId, l.call.toolName, l.call.args));
    IdsSnoc(Calls(c.mem.content), l.call);
  }

  lemma NoteKeepsLedger(g: Ledger, c: Control, l: Label, p: Payload)
    requires l.Open? || l.Note?
    requires LedgerFits(g, c) && Live(c, l).Some? && Live(c, l).value.write == Some(p)
    ensures LedgerFits(StepLedger(g, p), Live(c, l).value.ctl)
  {
  }

  lemma OpenCallKeepsLedger(g: Ledger, c: Control, l: Label, p: Payload)
    requires l.OpenCall?
    requires LedgerFits(g, c) && Live(c, l).Some? && Live(c, l).value.write == Some(p)
    ensures LedgerFits(StepLedger(g, p), Live(c, l).value.ctl)
  {
    assert Ids([]) == {};
  }

  lemma SealKeepsLedger(g: Ledger, c: Control, l: Label, p: Payload)
    requires l.SealCall?
    requires LedgerFits(g, c) && Live(c, l).Some? && Live(c, l).value.write == Some(p)
    ensures LedgerFits(StepLedger(g, p), Live(c, l).value.ctl)
  {
    assert [] + Calls(c.mem.content) == Calls(c.mem.content);
  }

  lemma BeginKeepsLedger(g: Ledger, c: Control, l: Label, p: Payload)
    requires l.Begin?
    requires LedgerFits(g, c) && Live(c, l).Some? && Live(c, l).value.write == Some(p)
    ensures LedgerFits(StepLedger(g, p), Live(c, l).value.ctl)
  {
    assert Ids([]) == {};
  }

  lemma CloseKeepsLedger(g: Ledger, c: Control, l: Label, p: Payload)
    requires l.Finish? || l.Fail?
    requires LedgerFits(g, c) && Live(c, l).Some? && Live(c, l).value.write == Some(p)
    ensures LedgerFits(StepLedger(g, p), Live(c, l).value.ctl)
  {
  }

  lemma SubmitKeepsLedger(g: Ledger, c: Control, l: Label, p: Payload)
    requires l.Submit? && LedgerFits(g, c) && Live(c, l).Some? && Live(c, l).value.write == Some(p)
    ensures LedgerFits(StepLedger(g, p), Live(c, l).value.ctl)
  {
    assert [c.mem.queue[0]] + c.mem.queue[1..] == c.mem.queue;
  }

  /** Pausing keeps the submitted call awaited and loses the rest. */
  lemma PauseSplits(owed: set<CallId>, lost: set<CallId>, call: Call, rest: seq<Call>)
    requires Distinct([call] + rest) && owed - lost == Ids([call] + rest)
    ensures owed - (lost + Ids(rest)) == {call.callId} && call.callId in owed && call.callId !in lost && Ids(rest) <= owed
  {
    var all := [call] + rest;
    assert [] + all == all && [] + all[1..] == rest && all[0] == call;
    IdsWithoutMiddle([], all);
    IdsOf(all);
    assert call in all;
  }

  lemma PauseKeepsLedger(g: Ledger, c: Control, l: Label, p: Payload)
    requires l.Pause? && LedgerFits(g, c) && Live(c, l).Some? && Live(c, l).value.write == Some(p)
    ensures LedgerFits(StepLedger(g, p), Live(c, l).value.ctl)
  {
    PauseSplits(g.owed, c.lost, c.mem.call, c.mem.rest);
    assert Ids([]) == {} && Distinct([]);
  }

  lemma JobDoneKeepsLedger(g: Ledger, c: Control, l: Label, p: Payload)
    requires l.JobDone? && LedgerFits(g, c) && Live(c, l).Some? && Live(c, l).value.write == Some(p)
    ensures LedgerFits(StepLedger(g, p), Live(c, l).value.ctl)
  {
  }

  // ----- reopening -----

  lemma {:induction false} AnsweredInLedger(log: Log, id: CallId)
    ensures Answered(log, id) <==> id in LedgerOf(log).answered
  {
    if log != [] {
      var pre, n := DropLast(log), |log| - 1;
      AnsweredInLedger(pre, id);
      if Answered(log, id) {
        var i :| 0 <= i < |log| && log[i].payload.ToolResultRecorded? && log[i].payload.callId == id;
        assert i == n || pre[i] == log[i];
      }
      if Answered(pre, id) {
        var i :| 0 <= i < n && pre[i].payload.ToolResultRecorded? && pre[i].payload.callId == id;
        assert log[i] == pre[i];
      }
    }
  }

  lemma ForwardIsPhase(s: State)
    requires ScanFits(ScanOf(s.log), s.ctl)
    ensures Forward(s.log) ==
            if s.ctl.overlapped then Err(Malformed(NestedTurnStarted))
            else Ok(Decision(Phase(s.ctl), LastSeq(s.log)))
  {
    if s.ctl.latch.None? && s.ctl.mem.Submitted? {
      assert [s.ctl.mem.call] + s.ctl.mem.rest != [];
    }
  }

  /** A latched turn comes back behind its wake-up, answered or not. */
  lemma LatchedReopens(s: State)
    requires Inv(s) && s.ctl.latch.Some?
    ensures var up := Restore(s, s.ctl.latch.value); Inv(s.(ctl := up)) && up.latch == s.ctl.latch
  {
    AnsweredInLedger(s.log, s.ctl.latch.value.callId);
    assert Ids([]) == {} && Distinct([]);
  }

  lemma IdleReopens(s: State)
    requires Inv(s) && s.ctl.latch.None? && (Phase(s.ctl).FreshTurn? || Phase(s.ctl).RestartCurrentTurn?)
    ensures var up := Restore(s, Phase(s.ctl)); Inv(s.(ctl := up)) && Phase(up) == Phase(s.ctl)
  {
  }

  lemma SealedReopens(s: State)
    requires Inv(s) && s.ctl.latch.None? && Phase(s.ctl).FromModelCompleted?
    ensures var up := Restore(s, Phase(s.ctl)); Inv(s.(ctl := up)) && Phase(up) == Phase(s.ctl)
  {
    CallsWithoutThinking(s.ctl.mem.output.content);
    UnansweredByNone(Calls(ScanOf(s.log).mode.call.seal.value.content));
  }

  lemma DispatchingReopens(s: State)
    requires Inv(s) && s.ctl.latch.None? && Phase(s.ctl).FromToolDispatching?
    ensures var up := Restore(s, Phase(s.ctl)); Inv(s.(ctl := up)) && Phase(up) == Phase(s.ctl)
  {
  }

  lemma PausedReopens(s: State)
    requires Inv(s) && s.ctl.latch.None? && s.ctl.mem.Paused?
    ensures var up := Restore(s, Phase(s.ctl)); Inv(s.(ctl := up)) && Phase(up) == Phase(s.ctl)
  {
    JobTables(s.log, s.ctl.mem.job);
  }

  lemma RestoreKeepsInv(s: State)
    requires Inv(s)
    ensures var up := Restore(s, Phase(s.ctl)); Inv(s.(ctl := up)) && Phase(up) == Phase(s.ctl)
  {
    if s.ctl.latch.Some? {
      LatchedReopens(s);
    } else {
      match Phase(s.ctl)
      case FreshTurn => IdleReopens(s);
      case RestartCurrentTurn(_) => IdleReopens(s);
      case FromModelCompleted(_, _) => SealedReopens(s);
      case FromToolDispatching(_, _, _) => DispatchingReopens(s);
      case _ => PausedReopens(s);
    }
  }

  lemma ReopenKeepsInv(s: State)
    requires Inv(s) && !s.ctl.live && Apply(s, Reopen).Some?
    ensures Inv(Apply(s, Reopen).value)
    ensures Phase(Apply(s, Reopen).value.ctl) == Phase(s.ctl)
  {
    ForwardIsPhase(s);
    RestoreKeepsInv(s);
  }

  // ----- runs -----

  lemma LiveKeepsScan(sc: Scan, c: Control, l: Label, e: Event)
    requires ScanFits(sc, c) && Distinct(Remaining(c.mem)) && Live(c, l).Some? && Writes(c, Live(c, l).value, e)
    requires l.Submit? ==> l.job !in sc.jobs
    ensures ScanFits(Step(sc, e), Live(c, l).value.ctl)
  {
    if l.EmitText? || l.EmitThinking? || l.EmitToolUse? {
      EmitKeepsScan(sc, c, l, e);
    } else if l.SealCall? {
      SealKeepsScan(sc, c, l, e);
    } else if l.Reject? || l.Answer? || l.RegisterFailed? || l.Wake? {
      ResultKeepsScan(sc, c, l, e);
    } else if l.Submit? || l.Pause? {
      JobKeepsScan(sc, c, l, e);
    } else if l.Open? || l.Note? || l.OpenCall? {
      MarkKeepsScan(sc, c, l, e);
    } else {
      BoundaryKeepsScan(sc, c, l, e);
    }
  }

  lemma LiveKeepsLedger(g: Ledger, c: Control, l: Label, p: Payload)
    requires LedgerFits(g, c) && Live(c, l).Some? && Live(c, l).value.write == Some(p)
    requires l.EmitToolUse? ==> l.call.callId !in g.used
    requires c.mem.Woken? ==> c.latch.Some? && c.latch.value.AfterJobCompletion? && c.latch.value.callId == c.mem.callId
    ensures LedgerFits(StepLedger(g, p), Live(c, l).value.ctl)
  {
    match l
    case EmitText(text) => SpokenKeepsLedger(g, c, TextBlock(text));
    case EmitThinking(text, data) => SpokenKeepsLedger(g, c, ThinkingBlock(text, data));
    case EmitToolUse(_) => EmitUseKeepsLedger(g, c, l, p);
    case Reject(_) => RejectKeepsLedger(g, c, l, p);
    case Answer(_) => AnswerKeepsLedger(g, c, l, p);
    case RegisterFailed(_) => RegisterFailedKeepsLedger(g, c, l, p);
    case Wake => WakeKeepsLedger(g, c, l, p);
    case Submit(_) => SubmitKeepsLedger(g, c, l, p);
    case Pause => PauseKeepsLedger(g, c, l, p);
    case JobDone(_) => JobDoneKeepsLedger(g, c, l, p);
    case OpenCall => OpenCallKeepsLedger(g, c, l, p);
    case SealCall(_, _) => SealKeepsLedger(g, c, l, p);
    case Begin(_, _) => BeginKeepsLedger(g, c, l, p);
    case Finish => CloseKeepsLedger(g, c, l, p);
    case Fail => CloseKeepsLedger(g, c, l, p);
    case _ => NoteKeepsLedger(g, c, l, p);
  }

  lemma WokenIsLatched(sc: Scan, c: Control)
    requires ScanFits(sc, c) && c.mem.Woken?
    ensures c.latch.Some? && c.latch.value.AfterJobCompletion? && c.latch.value.callId == c.mem.callId
  {
  }

  lemma WriteKeepsInv(s: State, l: Label, m: Move, p: Payload)
    requires Inv(s) && !l.Reopen? && Fresh(s.log, l) && Live(s.ctl, l) == Some(m) && m.write == Some(p)
    ensures Inv(State(Append(s.log, EnvelopeTurn(s.ctl.mem, m.ctl.mem), p), m.ctl))
  {
    var turn := EnvelopeTurn(s.ctl.mem, m.ctl.mem);
    AppendReads(s.log, turn, p);
    if s.ctl.mem.Woken? { WokenIsLatched(ScanOf(s.log), s.ctl); }
    RemainingDistinct(LedgerOf(s.log), s.ctl);
    LiveKeepsScan(ScanOf(s.log), s.ctl, l, LastOf(Append(s.log, turn, p)));
    LiveKeepsLedger(LedgerOf(s.log), s.ctl, l, p);
  }

  lemma RemainingDistinct(g: Ledger, c: Control)
    requires LedgerFits(g, c)
    ensures Distinct(Remaining(c.mem))
  {
  }

  lemma LiveKeepsInv(s: State, l: Label)
    requires Inv(s) && !l.Reopen? && Apply(s, l).Some?
    ensures Inv(Apply(s, l).value)
  {
    var m := Live(s.ctl, l).value;
    if m.write.None? {
      SilentKeepsScan(ScanOf(s.log), s.ctl, l);
      SilentKeepsLedger(LedgerOf(s.log), s.ctl, l);
    } else {
      WriteKeepsInv(s, l, m, m.write.value);
    }
  }

  lemma {:induction false} RunKeepsInv(steps: seq<Label>)
    requires Run(START, steps).Some?
    ensures Inv(Run(START, steps).value)
  {
    if steps != [] {
      RunKeepsInv(DropLast(steps));
      var s := Run(START, DropLast(steps)).value;
      if LastOf(steps).Reopen? {
        ReopenKeepsInv(s);
      } else {
        LiveKeepsInv(s, LastOf(steps));
      }
    }
  }

  /**
   Resume inverts logging: after any run, with any number of crashes, the log yields
   exactly the writer's phase, unless a turn was ever started over an interrupted one;
   from then on the log is refused for good.
   */
  lemma ReplayRecoversPhase(steps: seq<Label>)
    requires Run(START, steps).Some?
    ensures var s := Run(START, steps).value;
            Forward(s.log) == if s.ctl.overlapped then Err(Malformed(NestedTurnStarted))
                              else Ok(Decision(Phase(s.ctl), LastSeq(s.log)))
  {
    RunKeepsInv(steps);
    ForwardIsPhase(Run(START, steps).value);
  }

  lemma {:induction false} RunSplits(s: State, a: seq<Label>, b: seq<Label>)
    ensures Run(s, a + b) == match Run(s, a) case None => None case Some(t) => Run(t, b)
  {
    if b == [] {
      assert a + b == a;
    } else {
      assert DropLast(a + b) == a + DropLast(b);
      RunSplits(s, a, DropLast(b));
    }
  }

  lemma {:induction false} RunExtends(s: State, steps: seq<Label>)
    requires Run(s, steps).Some?
    ensures s.log <= Run(s, steps).value.log
  {
    if steps != [] { RunExtends(s, DropLast(steps)); }
  }

  /** Any cut of a log the runtime wrote is the log of a shorter run, so every prefix is covered. */
  lemma {:induction false} PrefixIsRun(steps: seq<Label>, n: nat)
    requires Run(START, steps).Some? && n <= |Run(START, steps).value.log|
    ensures exists k :: 0 <= k <= |steps| && Run(START, steps[..k]).Some? &&
                        Run(START, steps[..k]).value.log == Run(START, steps).value.log[..n]
  {
    var log := Run(START, steps).value.log;
    if n == |log| {
      assert steps[..|steps|] == steps && log[..n] == log;
    } else {
      var pre := DropLast(steps);
      PrefixIsRun(pre, n);
      var k :| 0 <= k <= |pre| && Run(START, pre[..k]).Some? &&
               Run(START, pre[..k]).value.log == Run(START, pre).value.log[..n];
      assert pre[..k] == steps[..k];
      assert Run(START, pre).value.log[..n] == log[..n];
    }
  }

  /** Starting a turn keeps the log readable exactly when `Replay` would answer `FreshTurn` just before. */
  lemma StartingATurn(steps: seq<Label>, turn: TurnId, input: seq<ContentBlock>)
    requires Run(START, steps + [Begin(turn, input)]).Some?
    ensures var before, after := Run(START, steps).value.log, Run(START, steps + [Begin(turn, input)]).value.log;
            Run(START, steps).Some? &&
            (Forward(after).Ok? <==> Forward(before).Ok? && Forward(before).value.point == FreshTurn)
  {
    assert DropLast(steps + [Begin(turn, input)]) == steps;
    ReplayRecoversPhase(steps);
    ReplayRecoversPhase(steps + [Begin(turn, input)]);
    RunKeepsInv(steps);
  }

  /** A turn started inside an open one makes every later log unreadable. */
  lemma {:induction false} NestedForever(log: Log, more: Log)
    requires ScanOf(log).nested
    ensures Forward(log + more).Err?
  {
    NestedStays(log + more, |log|) by { assert (log + more)[..|log|] == log; }
  }

  // ----- results -----

  lemma {:induction false} UndoubledMeansOnce(log: Log, i: nat, j: nat)
    requires !LedgerOf(log).doubled && i < j < |log|
    requires log[i].payload.ToolResultRecorded? && log[j].payload.ToolResultRecorded?
    ensures log[i].payload.callId != log[j].payload.callId
  {
    var pre := DropLast(log);
    if j < |log| - 1 {
      UndoubledMeansOnce(pre, i, j);
    } else {
      AnsweredInLedger(pre, log[j].payload.callId);
      assert pre[i] == log[i];
    }
  }

  /** Over every run, pauses and crashes included, no tool call has two recorded results. */
  lemma NoCallAnsweredTwice(steps: seq<Label>, i: nat, j: nat)
    requires Run(START, steps).Some?
    requires var log := Run(START, steps).value.log;
             i < j < |log| && log[i].payload.ToolResultRecorded? && log[j].payload.ToolResultRecorded?
    ensures var log := Run(START, steps).value.log; log[i].payload.callId != log[j].payload.callId
  {
    RunKeepsInv(steps);
    UndoubledMeansOnce(Run(START, steps).value.log, i, j);
  }

  /** The tool uses of the latest sealed call of the open turn are owed or answered. */
  lemma {:induction false} OwedOrAnswered(log: Log, k: nat)
    requires var st := RPosition(log, CallStart);
             st.Some? && st.value < k < |log| && Lacks(log[st.value + 1..], Start) && log[k].payload.ToolUseRecorded?
    ensures log[k].payload.callId in LedgerOf(log).streaming
    ensures RPosition(log, CallSeal).Some? && k < RPosition(log, CallSeal).value ==>
              log[k].payload.callId in LedgerOf(log).owed + LedgerOf(log).answered
  {
    var pre, st := DropLast(log), RPosition(log, CallStart).value;
    var tail := log[st + 1..];
    assert LastOf(log) == tail[|log| - st - 2];
    if k < |log| - 1 {
      var short := pre[st + 1..];
      assert forall i :: 0 <= i < |short| ==> short[i] == tail[i];
      OwedOrAnswered(pre, k);
    }
  }

  predicate ResultAt(log: Log, i: int, id: CallId) {
    0 <= i < |log| && log[i].payload.ToolResultRecorded? && log[i].payload.callId == id
  }

  ghost predicate AnsweredOnce(log: Log, id: CallId) {
    (exists i :: ResultAt(log, i, id)) && forall i, j :: ResultAt(log, i, id) && ResultAt(log, j, id) ==> i == j
  }

  /**
   In a turn that has not resumed from a pause, when the next model call is due every
   tool use of the sealed call has exactly one result.
   */
  lemma NextCallFindsEveryResult(steps: seq<Label>, k: nat)
    requires Run(START, steps).Some?
    requires var s := Run(START, steps).value;
             var st, c := RPosition(s.log, CallStart), RPosition(s.log, CallSeal);
             s.ctl.mem.Preparing? && s.ctl.latch.None? &&
             st.Some? && c.Some? && st.value < k < c.value && Lacks(s.log[st.value + 1..], Start) &&
             s.log[k].payload.ToolUseRecorded?
    ensures var log := Run(START, steps).value.log; AnsweredOnce(log, log[k].payload.callId)
  {
    var s := Run(START, steps).value;
    var id := s.log[k].payload.callId;
    NextCallOwesOnlyLost(steps);
    OwedOrAnswered(s.log, k);
    AnsweredInLedger(s.log, id);
    var i :| 0 <= i < |s.log| && s.log[i].payload.ToolResultRecorded? && s.log[i].payload.callId == id;
    assert ResultAt(s.log, i, id);
    forall i, j | ResultAt(s.log, i, id) && ResultAt(s.log, j, id) ensures i == j {
      if i < j { NoCallAnsweredTwice(steps, i, j); }
      if j < i { NoCallAnsweredTwice(steps, j, i); }
    }
  }

  /** In any turn, what the next model call leaves unanswered was lost at a pause, or by a crash after one. */
  lemma NextCallOwesOnlyLost(steps: seq<Label>)
    requires Run(START, steps).Some? && Run(START, steps).value.ctl.mem.Preparing?
    ensures var s := Run(START, steps).value;
            LedgerOf(s.log).owed <= s.ctl.lost && (s.ctl.latch.None? ==> LedgerOf(s.log).owed == {})
  {
    RunKeepsInv(steps);
    var s := Run(START, steps).value;
    assert LedgerOf(s.log).owed - s.ctl.lost == {} by { assert Ids([]) == {}; }
    forall id | id in LedgerOf(s.log).owed ensures id in s.ctl.lost {
      assert id !in LedgerOf(s.log).owed - s.ctl.lost;
    }
  }

  /** Lost calls never get a result, however the run goes on. */
  lemma LostStaysUnanswered(steps: seq<Label>, more: seq<Label>, id: CallId)
    requires Run(START, steps).Some? && Run(START, steps + more).Some?
    requires id in Run(START, steps).value.ctl.lost
    ensures id in Run(START, steps + more).value.ctl.lost
    ensures !Answered(Run(START, steps + more).value.log, id)
  {
    RunSplits(START, steps, more);
    LostGrows(Run(START, steps).value, more);
    RunKeepsInv(steps + more);
    AnsweredInLedger(Run(START, steps + more).value.log, id);
  }

  lemma LostStays(s: State, l: Label)
    requires Apply(s, l).Some?
    ensures s.ctl.lost <= Apply(s, l).value.ctl.lost
  {
  }

  lemma {:induction false} LostGrows(s: State, steps: seq<Label>)
    requires Run(s, steps).Some?
    ensures s.ctl.lost <= Run(s, steps).value.ctl.lost
  {
    if steps != [] {
      LostGrows(s, DropLast(steps));
      LostStays(Run(s, DropLast(steps)).value, LastOf(steps));
    }
  }

  /** While calls remain to be answered, what is owed is apart from what was lost, after earlier pauses too. */
  predicate OwedApart(s: State) {
    Remaining(s.ctl.mem) != [] ==> LedgerOf(s.log).owed !! s.ctl.lost
  }

  lemma LiveKeepsApart(g: Ledger, c: Control, l: Label, m: Move)
    requires LedgerFits(g, c) && Live(c, l) == Some(m)
    requires Remaining(c.mem) != [] ==> g.owed !! c.lost
    ensures var g' := if m.write.None? then g else StepLedger(g, m.write.value);
            Remaining(m.ctl.mem) != [] ==> g'.owed !! m.ctl.lost
  {
    if l.SealCall? {
      SealKeepsApart(g, c, l, m);
    } else {
      OnlySealOwes(c, l, m);
      if m.write.Some? { OwedShrinks(g, m.write.value); }
    }
  }

  lemma SealKeepsApart(g: Ledger, c: Control, l: Label, m: Move)
    requires LedgerFits(g, c) && l.SealCall? && Live(c, l) == Some(m)
    ensures m.write.Some? && StepLedger(g, m.write.value).owed == g.streaming && g.streaming !! m.ctl.lost
  {
  }

  lemma OwedShrinks(g: Ledger, p: Payload)
    requires !p.ModelCallCompleted?
    ensures StepLedger(g, p).owed <= g.owed
  {
  }

  /** Only the seal of a call brings new calls to answer; no other step adds to what is owed. */
  lemma OnlySealOwes(c: Control, l: Label, m: Move)
    requires Live(c, l) == Some(m) && !l.SealCall?
    ensures Remaining(m.ctl.mem) != [] ==> Remaining(c.mem) != [] && m.ctl.lost == c.lost
    ensures m.write.Some? ==> !m.write.value.ModelCallCompleted?
  {
  }

  lemma ReopenKeepsApart(s: State)
    requires Inv(s) && OwedApart(s) && Apply(s, Reopen).Some?
    ensures OwedApart(Apply(s, Reopen).value)
  {
    ForwardIsPhase(s);
    RestoredRemaining(s, Phase(s.ctl));
  }

  /** A restart has calls to answer only where the writer had, with nothing more lost. */
  lemma RestoredRemaining(s: State, point: ResumePoint)
    requires Inv(s) && OwedApart(s) && point == Phase(s.ctl)
    ensures Remaining(Restore(s, point).mem) != [] ==> LedgerOf(s.log).owed !! Restore(s, point).lost
  {
  }

  lemma StepKeepsApart(s: State, l: Label)
    requires Inv(s) && OwedApart(s) && Apply(s, l).Some?
    ensures OwedApart(Apply(s, l).value)
  {
    if l.Reopen? {
      ReopenKeepsApart(s);
    } else {
      var m := Live(s.ctl, l).value;
      LiveKeepsApart(LedgerOf(s.log), s.ctl, l, m);
      if m.write.Some? { AppendReads(s.log, EnvelopeTurn(s.ctl.mem, m.ctl.mem), m.write.value); }
    }
  }

  lemma {:induction false} RunKeepsApart(steps: seq<Label>)
    requires Run(START, steps).Some?
    ensures OwedApart(Run(START, steps).value)
  {
    if steps != [] {
      RunKeepsApart(DropLast(steps));
      RunKeepsInv(DropLast(steps));
      StepKeepsApart(Run(START, DropLast(steps)).value, LastOf(steps));
    }
  }

  /**
   A pause answered without a crash: the next model call finds every tool use answered
   exactly when no call was queued behind the asynchronous one.
   */
  lemma PauseDropsTheQueue(steps: seq<Label>, outcome: JobOutcome)
    requires Run(START, steps).Some?
    requires var c := Run(START, steps).value.ctl; c.mem.Submitted? && c.live
    ensures var c := Run(START, steps).value.ctl;
            var resumed := Run(START, steps + [Pause, JobDone(outcome), Wake, NextRound]);
            resumed.Some? && resumed.value.ctl.mem.Preparing? &&
            LedgerOf(resumed.value.log).owed == Ids(c.mem.rest) &&
            (LedgerOf(resumed.value.log).owed == {} <==> c.mem.rest == [])
  {
    RunKeepsInv(steps);
    RunKeepsApart(steps);
    PauseAndResume(Run(START, steps).value, outcome);
    RunSplits(START, steps, [Pause, JobDone(outcome), Wake, NextRound]);
  }

  lemma PauseAndResume(s: State, outcome: JobOutcome)
    requires Inv(s) && OwedApart(s) && s.ctl.mem.Submitted? && s.ctl.live
    ensures var t := Run(s, [Pause, JobDone(outcome), Wake, NextRound]);
            t.Some? && t.value.ctl.mem.Preparing? && LedgerOf(t.value.log).owed == Ids(s.ctl.mem.rest) &&
            (Ids(s.ctl.mem.rest) == {} <==> s.ctl.mem.rest == [])
  {
    PausePath(s, outcome);
    OwedAfterPause(s.log, Some(s.ctl.mem.turn), s.ctl.mem.job, s.ctl.mem.call.callId, outcome);
    OwedAfterOne(LedgerOf(s.log), s.ctl);
  }

  /** The log of a pause answered without a crash. */
  function PauseLog(log: Log, turn: Option<TurnId>, job: JobId, id: CallId, outcome: JobOutcome): Log {
    var paused := Append(log, turn, TurnPaused(job));
    var done := Append(paused, turn, JobCompletedRecorded(job, outcome));
    Append(done, turn, ToolResultRecorded(id, OutcomeToToolResult(outcome)))
  }

  lemma OwedAfterPause(log: Log, turn: Option<TurnId>, job: JobId, id: CallId, outcome: JobOutcome)
    ensures LedgerOf(PauseLog(log, turn, job, id, outcome)).owed == LedgerOf(log).owed - {id}
  {
    var paused := Append(log, turn, TurnPaused(job));
    var done := Append(paused, turn, JobCompletedRecorded(job, outcome));
    AppendReads(log, turn, TurnPaused(job));
    AppendReads(paused, turn, JobCompletedRecorded(job, outcome));
    AppendReads(done, turn, ToolResultRecorded(id, OutcomeToToolResult(outcome)));
  }

  lemma Wrote(s: State, l: Label, d: Control, p: Payload)
    requires s.ctl.live && !l.Reopen? && Fresh(s.log, l) && Live(s.ctl, l) == Some(Move(d, Some(p)))
    ensures Apply(s, l) == Some(State(Append(s.log, EnvelopeTurn(s.ctl.mem, d.mem), p), d))
  {
  }

  lemma PausePath(s: State, outcome: JobOutcome)
    requires s.ctl.mem.Submitted? && s.ctl.live
    ensures var t := Run(s, [Pause, JobDone(outcome), Wake, NextRound]);
            t.Some? && t.value.ctl.mem.Preparing? &&
            t.value.log == PauseLog(s.log, Some(s.ctl.mem.turn), s.ctl.mem.job, s.ctl.mem.call.callId, outcome)
  {
    var m, turn := s.ctl.mem, Some(s.ctl.mem.turn);
    var c1 := Live(s.ctl, Pause).value.ctl;
    Wrote(s, Pause, c1, TurnPaused(m.job));
    var s1 := State(Append(s.log, turn, TurnPaused(m.job)), c1);
    var c2 := Live(c1, JobDone(outcome)).value.ctl;
    Wrote(s1, JobDone(outcome), c2, JobCompletedRecorded(m.job, outcome));
    var s2 := State(Append(s1.log, turn, JobCompletedRecorded(m.job, outcome)), c2);
    var c3 := Live(c2, Wake).value.ctl;
    var result := ToolResultRecorded(m.call.callId, OutcomeToToolResult(outcome));
    Wrote(s2, Wake, c3, result);
    NextRoundStep(State(Append(s2.log, turn, result), c3));
    FourSteps(s, Pause, JobDone(outcome), Wake, NextRound);
  }

  lemma NextRoundStep(s: State)
    requires s.ctl.live && s.ctl.mem.Dispatching? && s.ctl.mem.queue == []
    ensures Apply(s, NextRound) == Some(s.(ctl := s.ctl.(mem := Preparing(s.ctl.mem.turn, s.ctl.mem.done))))
  {
  }

  lemma OwedAfterOne(g: Ledger, c: Control)
    requires LedgerFits(g, c) && c.mem.Submitted? && g.owed !! c.lost
    ensures g.owed - {c.mem.call.callId} == Ids(c.mem.rest)
    ensures Ids(c.mem.rest) == {} <==> c.mem.rest == []
  {
    var rest := c.mem.rest;
    FirstSettles(g.owed, c.lost, c.mem.call, rest);
    assert g.owed - c.lost == g.owed && (g.owed - {c.mem.call.callId}) - c.lost == g.owed - {c.mem.call.callId};
    IdsOf(rest);
    if rest != [] { assert rest[0] in rest; }
  }

  lemma FourSteps(s: State, a: Label, b: Label, c: Label, d: Label)
    requires Apply(s, a).Some? && Apply(Apply(s, a).value, b).Some?
    requires Apply(Apply(Apply(s, a).value, b).value, c).Some?
    ensures Run(s, [a, b, c, d]) == Apply(Apply(Apply(Apply(s, a).value, b).value, c).value, d)
  {
    assert DropLast([a, b, c, d]) == [a, b, c] && DropLast([a, b, c]) == [a, b];
    assert DropLast([a, b]) == [a] && DropLast([a]) == [];
    assert Run(s, [a]) == Apply(s, a);
    assert Run(s, [a, b]) == Apply(Apply(s, a).value, b);
  }

  // ----- witnesses -----

  const A := Call("a", "build", Json("{}", None))
  const B := Call("b", "read", Json("{}", None))

  /** The model asks for an asynchronous call and a synchronous one, in that order; the first is submitted. */
  const ASKING: seq<Label> := [Begin(0, []), OpenCall, EmitToolUse(A), EmitToolUse(B), SealCall(ToolUse, Usage(0, 0))]
  const SUBMITTING: seq<Label> := [Keep, Keep, BeginDispatch, Submit(7)]

  const CONTENT := [ToolUseBlock("a", "build", A.args), ToolUseBlock("b", "read", B.args)]

  function WithMemory(m: Memory): Control {
    START.ctl.(mem := m)
  }

  lemma RunSnoc(steps: seq<Label>, l: Label, s: State)
    requires Run(START, steps) == Some(s)
    ensures Run(START, steps + [l]) == Apply(s, l)
  {
    assert DropLast(steps + [l]) == steps;
  }

  /** A run that leads to a log with these calls and no jobs, and this memory. */
  predicate Stage(steps: seq<Label>, log: Log, mem: Memory, used: set<CallId>) {
    Run(START, steps) == Some(State(log, WithMemory(mem))) && LedgerOf(log).used == used && ScanOf(log).jobs == map[]
  }

  lemma WriteStage(steps: seq<Label>, log: Log, mem: Memory, used: set<CallId>, l: Label, next: Memory, p: Payload)
    requires Stage(steps, log, mem, used) && !l.Reopen? && !p.JobSubmitted?
    requires Live(WithMemory(mem), l) == Some(Move(WithMemory(next), Some(p)))
    requires match l case EmitToolUse(call) => call.callId !in used case _ => true
    ensures Stage(steps + [l], Append(log, EnvelopeTurn(mem, next), p), next,
                  if p.ToolUseRecorded? then used + {p.callId} else used)
  {
    Wrote(State(log, WithMemory(mem)), l, WithMemory(next), p);
    RunSnoc(steps, l, State(log, WithMemory(mem)));
    AppendReads(log, EnvelopeTurn(mem, next), p);
  }

  lemma SilentStage(steps: seq<Label>, log: Log, mem: Memory, used: set<CallId>, l: Label, next: Memory)
    requires Stage(steps, log, mem, used) && !l.Reopen? && !l.EmitToolUse? && !l.Submit?
    requires Live(WithMemory(mem), l) == Some(Move(WithMemory(next), None))
    ensures Stage(steps + [l], log, next, used)
  {
    RunSnoc(steps, l, State(log, WithMemory(mem)));
  }

  const OUTPUT := ModelOutput(CONTENT, ToolUse, Usage(0, 0))
  const BEGUN := Append([], Some(0), TurnStarted([], []))
  const OPENED := Append(BEGUN, Some(0), ModelCallStarted)
  const ASKED_ONE := Append(OPENED, Some(0), ToolUseRecorded("a", "build", A.args))
  const ASKED_TWO := Append(ASKED_ONE, Some(0), ToolUseRecorded("b", "read", B.args))
  const SEALED := Append(ASKED_TWO, Some(0), ModelCallCompleted(ToolUse, Usage(0, 0)))

  lemma PrefixSnoc<T>(s: seq<T>, i: nat)
    requires i < |s|
    ensures s[..i] + [s[i]] == s[..i + 1]
  {
  }

  lemma BeginStage()
    ensures Stage(ASKING[..1], BEGUN, Preparing(0, []), {})
  {
    assert Stage([], [], Ready(None), {});
    WriteStage([], [], Ready(None), {}, Begin(0, []), Preparing(0, []), TurnStarted([], []));
    PrefixSnoc(ASKING, 0);
    assert ASKING[..0] == [];
  }

  lemma OpenStage()
    ensures Stage(ASKING[..2], OPENED, Streaming(0, []), {})
  {
    BeginStage();
    WriteStage(ASKING[..1], BEGUN, Preparing(0, []), {}, OpenCall, Streaming(0, []), ModelCallStarted);
    PrefixSnoc(ASKING, 1);
  }

  lemma AskOneStage()
    ensures Stage(ASKING[..3], ASKED_ONE, Streaming(0, CONTENT[..1]), {"a"})
  {
    OpenStage();
    assert [] + [CONTENT[0]] == CONTENT[..1];
    WriteStage(ASKING[..2], OPENED, Streaming(0, []), {}, EmitToolUse(A), Streaming(0, CONTENT[..1]),
               ToolUseRecorded("a", "build", A.args));
    PrefixSnoc(ASKING, 2);
  }

  lemma AskTwoStage()
    ensures Stage(ASKING[..4], ASKED_TWO, Streaming(0, CONTENT), {"a", "b"})
  {
    AskOneStage();
    assert CONTENT[..1] + [CONTENT[1]] == CONTENT;
    WriteStage(ASKING[..3], ASKED_ONE, Streaming(0, CONTENT[..1]), {"a"}, EmitToolUse(B), Streaming(0, CONTENT),
               ToolUseRecorded("b", "read", B.args));
    PrefixSnoc(ASKING, 3);
    assert {"a"} + {"b"} == {"a", "b"};
  }

  lemma SealStage()
    ensures Stage(ASKING, SEALED, Resolving(0, OUTPUT, [], [A, B], []), {"a", "b"})
  {
    AskTwoStage();
    CallsOfTwo();
    WriteStage(ASKING[..4], ASKED_TWO, Streaming(0, CONTENT), {"a", "b"}, SealCall(ToolUse, Usage(0, 0)),
               Resolving(0, OUTPUT, [], [A, B], []), ModelCallCompleted(ToolUse, Usage(0, 0)));
    PrefixSnoc(ASKING, 4);
    assert ASKING[..5] == ASKING;
  }

  lemma KeepStage(steps: seq<Label>, kept: seq<Call>, todo: seq<Call>)
    requires todo != [] && Stage(steps, SEALED, Resolving(0, OUTPUT, kept, todo, []), {"a", "b"})
    ensures Stage(steps + [Keep], SEALED, Resolving(0, OUTPUT, kept + [todo[0]], todo[1..], []), {"a", "b"})
  {
    SilentStage(steps, SEALED, Resolving(0, OUTPUT, kept, todo, []), {"a", "b"}, Keep,
                Resolving(0, OUTPUT, kept + [todo[0]], todo[1..], []));
  }

  lemma DispatchStage(steps: seq<Label>)
    requires Stage(steps, SEALED, Resolving(0, OUTPUT, [A, B], [], []), {"a", "b"})
    ensures Stage(steps + [BeginDispatch], SEALED, Dispatching(0, [A, B], []), {"a", "b"})
  {
    SilentStage(steps, SEALED, Resolving(0, OUTPUT, [A, B], [], []), {"a", "b"}, BeginDispatch, Dispatching(0, [A, B], []));
  }

  lemma KeptBoth()
    ensures Stage(ASKING + [Keep] + [Keep], SEALED, Resolving(0, OUTPUT, [A, B], [], []), {"a", "b"})
  {
    SealStage();
    KeepStage(ASKING, [], [A, B]);
    assert [] + [[A, B][0]] == [A] && [A, B][1..] == [B];
    KeepStage(ASKING + [Keep], [A], [B]);
    assert [A] + [[B][0]] == [A, B] && [B][1..] == [];
  }

  lemma SubmittingSteps()
    ensures ASKING + [Keep] + [Keep] + [BeginDispatch] + [Submit(7)] == ASKING + SUBMITTING
  {
  }

  lemma SubmittingRun()
    ensures Run(START, ASKING + SUBMITTING).Some?
    ensures Run(START, ASKING + SUBMITTING).value.ctl == WithMemory(Submitted(0, 7, A, [B], []))
  {
    KeptBoth();
    DispatchStage(ASKING + [Keep] + [Keep]);
    SubmitStage(ASKING + [Keep] + [Keep] + [BeginDispatch], SEALED, {"a", "b"});
    SubmittingSteps();
  }

  lemma SubmitStage(steps: seq<Label>, log: Log, used: set<CallId>)
    requires Stage(steps, log, Dispatching(0, [A, B], []), used)
    ensures Run(START, steps + [Submit(7)]).Some?
    ensures Run(START, steps + [Submit(7)]).value.ctl == WithMemory(Submitted(0, 7, A, [B], []))
  {
    var s := State(log, WithMemory(Dispatching(0, [A, B], [])));
    assert [A, B][1..] == [B];
    RunSnoc(steps, Submit(7), s);
    Wrote(s, Submit(7), WithMemory(Submitted(0, 7, A, [B], [])), JobSubmitted("a", 7, "build"));
  }

  lemma CallsOfTwo()
    ensures Calls(CONTENT) == [A, B]
  {
    assert DropLast(CONTENT[..1]) == [] && Calls(CONTENT[..1]) == [A];
    assert DropLast(CONTENT) == CONTENT[..1];
  }

  /** The synchronous call queued behind the asynchronous one is still unanswered when the next model call is due. */
  lemma PauseCanLoseACall(outcome: JobOutcome)
    ensures var s := Run(START, ASKING + SUBMITTING + [Pause, JobDone(outcome), Wake, NextRound]);
            s.Some? && s.value.ctl.mem.Preparing? && LedgerOf(s.value.log).owed == {"b"}
  {
    SubmittingRun();
    PauseDropsTheQueue(ASKING + SUBMITTING, outcome);
    assert forall c :: c in [B] <==> c == B;
  }

  lemma InterruptedStep(log: Log)
    requires ScanOf(log) == INITIAL.(mode := Running(Some(0), NoCall), inTurn := true)
    ensures var s := State(log, WithMemory(Preparing(0, [])));
            var down := s.(ctl := s.ctl.(live := false));
            Apply(s, Crash) == Some(down) && Apply(down, Reopen) == Some(State(log, WithMemory(Ready(Some(0)))))
  {
  }

  const INTERRUPTED: seq<Label> := [Begin(0, []), Crash, Reopen, Begin(1, [])]

  lemma InterruptedRun()
    ensures Run(START, INTERRUPTED).Some? && Run(START, INTERRUPTED).value.ctl.overlapped
  {
    AppendReads([], Some(0), TurnStarted([], []));
    Wrote(START, Begin(0, []), WithMemory(Preparing(0, [])), TurnStarted([], []));
    InterruptedStep(BEGUN);
    Wrote(State(BEGUN, WithMemory(Ready(Some(0)))), Begin(1, []), WithMemory(Preparing(1, [])).(overlapped := true),
          TurnStarted([], []));
    FourSteps(START, Begin(0, []), Crash, Reopen, Begin(1, []));
  }

  /** A crash before the first seal, then a new turn: the log can no longer be replayed. */
  lemma InterruptedTurnPoisonsLog()
    ensures var s := Run(START, INTERRUPTED);
            s.Some? && s.value.ctl.overlapped && Forward(s.value.log) == Err(Malformed(NestedTurnStarted))
  {
    InterruptedRun();
    ReplayRecoversPhase(INTERRUPTED);
  }
}
