/**
 The resume coordinator. `Replay` finds the in-flight state by searching the log
 backwards, the way the runtime does; `Scan` is an independent one-pass machine
 that reads the same log forwards. `Replay` is proved equal to the forward
 machine on every log, well-formed or not.
 */
module Resume {
  import opened Wrappers
  import opened Events

  /** A tool call the model asked for. */
  datatype Call = Call(callId: CallId, toolName: string, args: Json)

  datatype ResumePoint =
    | FreshTurn
    | RestartCurrentTurn(turn: TurnId)
    | FromModelCompleted(turn: TurnId, output: ModelOutput)
    | FromToolDispatching(turn: TurnId, pending: seq<Call>, completed: seq<(CallId, ToolResult)>)
    | PausedJob(turn: TurnId, job: JobId)
    | AfterJobCompletion(turn: TurnId, job: JobId, outcome: JobOutcome, callId: CallId,
                         before: seq<(CallId, ToolResult)>, pendingAfter: seq<Call>)

  datatype Decision = Decision(point: ResumePoint, lastSeq: Option<nat>)

  datatype Malformation =
    | OrphanJobCompletion | NestedTurnStarted | StartWithoutTurnId | PauseWithoutTurnId
    | PauseWithoutJobSubmitted | ToolUseStopWithoutToolUse | NoModelCallCompleted

  datatype ResumeError = UnsupportedSchema(version: nat) | Malformed(why: Malformation)

  // ----- searches -----

  datatype Mark = Boundary | Start | CallStart | CallSeal

  predicate Is(m: Mark, p: Payload) {
    match m
    case Boundary => p.TurnStarted? || p.TurnCompleted? || p.TurnFailed? || p.TurnPaused?
    case Start => p.TurnStarted?
    case CallStart => p.ModelCallStarted?
    case CallSeal => p.ModelCallCompleted?
  }

  /** Position of the last event bearing a mark, found by searching from the end. */
  function RPosition(log: Log, m: Mark): (r: Option<nat>)
    ensures r.Some? ==> r.value < |log| && Is(m, log[r.value].payload)
  {
    if log == [] then None
    else if Is(m, LastOf(log).payload) then Some(|log| - 1)
    else RPosition(DropLast(log), m)
  }

  /** The first event of a newer schema, searching from the front. */
  function FindNewerSchema(log: Log): Option<nat> {
    if log == [] then None
    else if log[0].schema > SCHEMA_VERSION then Some(log[0].schema)
    else FindNewerSchema(log[1..])
  }

  predicate PausedBefore(log: Log, job: JobId) {
    exists i :: 0 <= i < |log| && log[i].payload == TurnPaused(job)
  }

  /** The first recorded outcome of `job`, searching from the front. */
  function FindJobDone(log: Log, job: JobId): Option<JobOutcome> {
    if log == [] then None
    else if log[0].payload.JobCompletedRecorded? && log[0].payload.jobId == job then Some(log[0].payload.outcome)
    else FindJobDone(log[1..], job)
  }

  /** The call id of the most recent submission of `job`, searching from the end. */
  function LookupCallId(log: Log, job: JobId): Option<CallId> {
    if log == [] then None
    else if LastOf(log).payload.JobSubmitted? && LastOf(log).payload.jobId == job then Some(LastOf(log).payload.callId)
    else LookupCallId(DropLast(log), job)
  }

  function LastSeq(log: Log): Option<nat> {
    if log == [] then None else Some(LastOf(log).seqNo)
  }

  // ----- the forward machine -----

  /** One model call as read so far: its blocks, and what its latest seal fixed. */
  datatype CallState = NoCall | Calling(content: seq<ContentBlock>, seal: Option<Seal>)
  datatype Seal = Seal(content: seq<ContentBlock>, stop: StopReason, usage: Usage, results: seq<(CallId, ToolResult)>)

  datatype Mode =
    | Idle
    | Running(turn: Option<TurnId>, call: CallState)
    | PausedOn(turn: Option<TurnId>, job: JobId, done: Option<JobOutcome>, before: seq<(CallId, ToolResult)>)

  datatype Scan = Scan(
    newer: Option<nat>,                         // first unsupported schema version
    inTurn: bool,                               // a turn is open
    nested: bool,                               // a turn was started inside an open one
    orphan: bool,                               // the last event completes a job that never paused a turn
    paused: set<JobId>,                         // jobs some turn paused on
    jobs: map<JobId, CallId>,                   // call of each job's latest submission
    answered: seq<(CallId, ToolResult)>,        // results since the latest turn start
    mode: Mode)

  const INITIAL := Scan(None, false, false, false, {}, map[], [], Idle)

  /** Adds the block an event contributes to the rebuilt message; thinking is not rebuilt. */
  function AddBlock(content: seq<ContentBlock>, p: Payload): seq<ContentBlock> {
    match p
    case AssistantMessageAppended(text) => content + [TextBlock(text)]
    case ToolUseRecorded(id, name, args) => content + [ToolUseBlock(id, name, args)]
    case _ => content
  }

  function AddResult(results: seq<(CallId, ToolResult)>, p: Payload): seq<(CallId, ToolResult)> {
    if p.ToolResultRecorded? then results + [(p.callId, p.result)] else results
  }

  function StepCall(c: CallState, p: Payload): CallState {
    if p.ModelCallStarted? then Calling([], None)
    else if c.NoCall? then c
    else match p
      case AssistantMessageAppended(_) => c.(content := AddBlock(c.content, p))
      case ToolUseRecorded(_, _, _) => c.(content := AddBlock(c.content, p))
      case ModelCallCompleted(stop, usage) => c.(seal := Some(Seal(c.content, stop, usage, [])))
      case ToolResultRecorded(_, _) =>
        if c.seal.None? then c else c.(seal := Some(c.seal.value.(results := AddResult(c.seal.value.results, p))))
      case _ => c
  }

  function StepMode(s: Scan, e: Event): Mode {
    match e.payload
    case TurnStarted(_, _) => Running(e.turn, NoCall)
    case TurnCompleted => Idle
    case TurnFailed => Idle
    case TurnPaused(job) => PausedOn(e.turn, job, None, s.answered)
    case JobCompletedRecorded(job, outcome) =>
      if s.mode.PausedOn? && s.mode.job == job && s.mode.done.None? then s.mode.(done := Some(outcome)) else s.mode
    case p => if s.mode.Running? then s.mode.(call := StepCall(s.mode.call, p)) else s.mode
  }

  function Step(s: Scan, e: Event): Scan {
    var p := e.payload;
    Scan(if s.newer.None? && e.schema > SCHEMA_VERSION then Some(e.schema) else s.newer,
         if p.TurnStarted? then true else if p.TurnCompleted? || p.TurnFailed? then false else s.inTurn,
         s.nested || (p.TurnStarted? && s.inTurn),
         p.JobCompletedRecorded? && p.jobId !in s.paused,
         if p.TurnPaused? then s.paused + {p.jobId} else s.paused,
         if p.JobSubmitted? then s.jobs[p.jobId := p.callId] else s.jobs,
         if p.TurnStarted? then [] else AddResult(s.answered, p),
         StepMode(s, e))
  }

  /** Reads the whole log in one forward pass. */
  function ScanOf(log: Log): Scan {
    if log == [] then INITIAL else Step(ScanOf(DropLast(log)), LastOf(log))
  }

  function Calls(content: seq<ContentBlock>): seq<Call> {
    if content == [] then []
    else
      var b := LastOf(content);
      if b.ToolUseBlock? then Calls(DropLast(content)) + [Call(b.callId, b.toolName, b.args)] else Calls(DropLast(content))
  }

  function WithoutThinking(content: seq<ContentBlock>): seq<ContentBlock> {
    if content == [] then []
    else if LastOf(content).ThinkingBlock? then WithoutThinking(DropLast(content))
    else WithoutThinking(DropLast(content)) + [LastOf(content)]
  }

  predicate Answers(results: seq<(CallId, ToolResult)>, id: CallId) {
    exists i :: 0 <= i < |results| && results[i].0 == id
  }

  /** The calls no result answers, in the order given. */
  function Unanswered(calls: seq<Call>, results: seq<(CallId, ToolResult)>): seq<Call> {
    if calls == [] then []
    else if Answers(results, LastOf(calls).callId) then Unanswered(DropLast(calls), results)
    else Unanswered(DropLast(calls), results) + [LastOf(calls)]
  }

  function DecideSealed(turn: TurnId, seal: Seal): Result<ResumePoint, ResumeError> {
    var pending := Unanswered(Calls(seal.content), seal.results);
    if pending != [] || seal.results != [] then Ok(FromToolDispatching(turn, pending, seal.results))
    else if seal.stop == ToolUse then Err(Malformed(ToolUseStopWithoutToolUse))
    else Ok(FromModelCompleted(turn, ModelOutput(seal.content, seal.stop, seal.usage)))
  }

  function DecideMode(m: Mode, jobs: map<JobId, CallId>): Result<ResumePoint, ResumeError> {
    match m
    case Idle => Ok(FreshTurn)
    case Running(None, _) => Err(Malformed(StartWithoutTurnId))
    case Running(Some(turn), Calling(_, Some(seal))) => DecideSealed(turn, seal)
    case Running(Some(turn), _) => Ok(RestartCurrentTurn(turn))
    case PausedOn(None, _, _, _) => Err(Malformed(PauseWithoutTurnId))
    case PausedOn(Some(turn), job, None, _) => Ok(PausedJob(turn, job))
    case PausedOn(Some(turn), job, Some(outcome), before) =>
      if job !in jobs then Err(Malformed(PauseWithoutJobSubmitted))
      else Ok(AfterJobCompletion(turn, job, outcome, jobs[job], before, []))
  }

  function Decide(s: Scan): Result<ResumePoint, ResumeError> {
    if s.newer.Some? then Err(UnsupportedSchema(s.newer.value))
    else if s.orphan then Err(Malformed(OrphanJobCompletion))
    else if s.nested then Err(Malformed(NestedTurnStarted))
    else DecideMode(s.mode, s.jobs)
  }

  /** What `Replay` returns, as the forward machine computes it. */
  function Forward(log: Log): Result<Decision, ResumeError> {
    match Decide(ScanOf(log))
    case Ok(point) => Ok(Decision(point, LastSeq(log)))
    case Err(e) => Err(e)
  }

  function Deciding(m: Mode, jobs: map<JobId, CallId>, lastSeq: Option<nat>): Result<Decision, ResumeError> {
    match DecideMode(m, jobs)
    case Ok(point) => Ok(Decision(point, lastSeq))
    case Err(e) => Err(e)
  }

  // ----- what the backward searches find, in terms of the forward machine -----

  function ContentOf(slice: Log): seq<ContentBlock> {
    if slice == [] then [] else AddBlock(ContentOf(DropLast(slice)), LastOf(slice).payload)
  }

  function ResultsOf(slice: Log): seq<(CallId, ToolResult)> {
    if slice == [] then [] else AddResult(ResultsOf(DropLast(slice)), LastOf(slice).payload)
  }

  lemma {:induction false} NewerSchemaIsFirst(log: Log)
    ensures ScanOf(log).newer == FindNewerSchema(log)
  {
    if log != [] {
      NewerSchemaIsFirst(DropLast(log));
      FindNewerSchemaSnoc(DropLast(log), LastOf(log));
      assert DropLast(log) + [LastOf(log)] == log;
    }
  }

  lemma {:induction false} FindNewerSchemaSnoc(log: Log, e: Event)
    ensures FindNewerSchema(log + [e]) ==
            if FindNewerSchema(log).None? && e.schema > SCHEMA_VERSION then Some(e.schema) else FindNewerSchema(log)
  {
    if log != [] {
      FindNewerSchemaSnoc(log[1..], e);
      assert (log + [e])[1..] == log[1..] + [e];
    }
  }

  lemma {:induction false} FindJobDoneSnoc(log: Log, e: Event, job: JobId)
    ensures FindJobDone(log + [e], job) ==
            if FindJobDone(log, job).None? && e.payload.JobCompletedRecorded? && e.payload.jobId == job
            then Some(e.payload.outcome) else FindJobDone(log, job)
  {
    if log != [] {
      FindJobDoneSnoc(log[1..], e, job);
      assert (log + [e])[1..] == log[1..] + [e];
    }
  }

  lemma {:induction false} JobTables(log: Log, job: JobId)
    ensures LookupCallId(log, job) == if job in ScanOf(log).jobs then Some(ScanOf(log).jobs[job]) else None
    ensures job in ScanOf(log).paused <==> PausedBefore(log, job)
  {
    if log != [] {
      JobTables(DropLast(log), job);
      var n := |log| - 1;
      if PausedBefore(DropLast(log), job) {
        var i :| 0 <= i < n && DropLast(log)[i].payload == TurnPaused(job);
        assert log[i].payload == TurnPaused(job);
      }
      if PausedBefore(log, job) {
        var i :| 0 <= i < |log| && log[i].payload == TurnPaused(job);
        assert i == n || DropLast(log)[i].payload == TurnPaused(job);
      }
    }
  }

  /** The results collected for a pause are those after the latest turn start. */
  lemma {:induction false} AnsweredSinceStart(log: Log)
    ensures var s := RPosition(log, Start);
            ScanOf(log).answered == ResultsOf(log[if s.None? then 0 else s.value + 1..])
  {
    if log != [] {
      AnsweredSinceStart(DropLast(log));
      var s := RPosition(log, Start);
      var k := if s.None? then 0 else s.value + 1;
      if k < |log| {
        assert DropLast(log[k..]) == DropLast(log)[k..];
      }
    }
  }

  function CallFrom(c: CallState, slice: Log): CallState {
    if slice == [] then c else StepCall(CallFrom(c, DropLast(slice)), LastOf(slice).payload)
  }

  predicate Lacks(slice: Log, m: Mark) {
    forall i :: 0 <= i < |slice| ==> !Is(m, slice[i].payload)
  }

  lemma LacksSnoc(slice: Log, e: Event, m: Mark)
    requires Lacks(slice, m) && !Is(m, e.payload)
    ensures Lacks(slice + [e], m)
  {
  }

  lemma {:induction false} RPositionIsLatest(log: Log, m: Mark)
    ensures match RPosition(log, m)
            case None => Lacks(log, m)
            case Some(i) => Lacks(log[i + 1..], m)
  {
    if log != [] {
      var pre, e := DropLast(log), LastOf(log);
      if Is(m, e.payload) {
        assert log[|log|..] == [];
      } else {
        RPositionIsLatest(pre, m);
        match RPosition(pre, m)
        case None =>
          LacksSnoc(pre, e, m);
          assert pre + [e] == log;
        case Some(i) =>
          LacksSnoc(pre[i + 1..], e, m);
          assert pre[i + 1..] + [e] == log[i + 1..];
      }
    }
  }

  lemma {:induction false} CallFromConcat(c: CallState, a: Log, b: Log)
    ensures CallFrom(c, a + b) == CallFrom(CallFrom(c, a), b)
  {
    if b == [] {
      assert a + b == a;
    } else {
      assert DropLast(a + b) == a + DropLast(b);
      CallFromConcat(c, a, DropLast(b));
    }
  }

  /** Without a new start, a call only gains blocks. */
  lemma {:induction false} CallGrows(c: CallState, slice: Log)
    requires c.Calling? && Lacks(slice, CallStart)
    ensures CallFrom(c, slice).Calling? && CallFrom(c, slice).content == c.content + ContentOf(slice)
    ensures Lacks(slice, CallSeal) && c.seal.None? ==> CallFrom(c, slice).seal.None?
    ensures Lacks(slice, CallSeal) && c.seal.Some? ==>
              CallFrom(c, slice).seal == Some(c.seal.value.(results := c.seal.value.results + ResultsOf(slice)))
  {
    if slice == [] {
      assert c.seal.Some? ==> c.seal.value.results + [] == c.seal.value.results;
    } else {
      CallGrows(c, DropLast(slice));
      if c.seal.Some? {
        var was, p := c.seal.value.results, LastOf(slice).payload;
        assert was + ResultsOf(slice) == AddResult(was + ResultsOf(DropLast(slice)), p);
      }
    }
  }

  /** From the latest start on, only the rest of the slice counts. */
  lemma CallSinceStart(slice: Log)
    ensures match RPosition(slice, CallStart)
            case None => CallFrom(NoCall, slice) == NoCall
            case Some(st) => CallFrom(NoCall, slice) == CallFrom(Calling([], None), slice[st + 1..])
                             && Lacks(slice[st + 1..], CallStart)
  {
    RPositionIsLatest(slice, CallStart);
    match RPosition(slice, CallStart)
    case None => NoCallStays(slice);
    case Some(st) =>
      StartResets(slice[..st], slice[st]);
      assert slice == slice[..st] + [slice[st]] + slice[st + 1..];
      CallFromConcat(NoCall, slice[..st] + [slice[st]], slice[st + 1..]);
  }

  /** A call is sealed by its latest seal. */
  lemma SealedCall(mid: Log, e: Event, after: Log)
    requires e.payload.ModelCallCompleted? && Lacks(mid, CallStart)
    requires Lacks(after, CallStart) && Lacks(after, CallSeal)
    ensures var c := CallFrom(Calling([], None), mid + [e] + after);
            c.Calling? &&
            c.seal == Some(Seal(ContentOf(mid), e.payload.stopReason, e.payload.usage, ResultsOf(after)))
  {
    CallFromConcat(Calling([], None), mid + [e], after);
    CallGrows(Calling([], None), mid);
    assert DropLast(mid + [e]) == mid;
    CallGrows(CallFrom(Calling([], None), mid + [e]), after);
    assert [] + ContentOf(mid) == ContentOf(mid) && [] + ResultsOf(after) == ResultsOf(after);
  }

  lemma UnsealedTail(tail: Log)
    requires Lacks(tail, CallStart) && Lacks(tail, CallSeal)
    ensures var call := CallFrom(Calling([], None), tail); call.Calling? && call.seal.None?
  {
    CallGrows(Calling([], None), tail);
  }

  lemma LacksInTail(slice: Log, from: nat, later: nat)
    requires from <= later <= |slice| && Lacks(slice[from..], CallSeal)
    ensures Lacks(slice[later..], CallSeal)
  {
    var tail := slice[later..];
    forall i | 0 <= i < |tail| ensures !Is(CallSeal, tail[i].payload) {
      assert tail[i] == slice[from..][i + later - from];
    }
  }

  predicate SealedAt(call: CallState, slice: Log, st: nat, c: nat)
    requires st < c < |slice| && slice[c].payload.ModelCallCompleted?
  {
    call.Calling? &&
    call.seal == Some(Seal(ContentOf(slice[st + 1..c]), slice[c].payload.stopReason, slice[c].payload.usage,
                           ResultsOf(slice[c + 1..])))
  }

  lemma SealedTail(slice: Log, st: nat, c: nat)
    requires st < c < |slice| && slice[c].payload.ModelCallCompleted?
    requires Lacks(slice[st + 1..], CallStart) && Lacks(slice[c + 1..], CallSeal)
    ensures SealedAt(CallFrom(Calling([], None), slice[st + 1..]), slice, st, c)
  {
    SplitAtSeal(slice, st, c);
    SealedCall(slice[st + 1..c], slice[c], slice[c + 1..]);
  }

  /** The latest model call of a slice, located by the two backward searches. */
  lemma CallAtPositions(slice: Log)
    ensures var st, c := RPosition(slice, CallStart), RPosition(slice, CallSeal);
            var call := CallFrom(NoCall, slice);
            if st.None? then call.NoCall?
            else if c.None? || c.value < st.value then call.Calling? && call.seal.None?
            else st.value < c.value && SealedAt(call, slice, st.value, c.value)
  {
    CallSinceStart(slice);
    RPositionIsLatest(slice, CallSeal);
    var st, c := RPosition(slice, CallStart), RPosition(slice, CallSeal);
    if st.Some? {
      if c.None? || c.value < st.value {
        assert c.None? ==> slice[0..] == slice;
        LacksInTail(slice, if c.None? then 0 else c.value + 1, st.value + 1);
        UnsealedTail(slice[st.value + 1..]);
      } else {
        SealedTail(slice, st.value, c.value);
      }
    }
  }

  lemma SplitAtSeal(slice: Log, st: nat, c: nat)
    requires st < c < |slice| && Lacks(slice[st + 1..], CallStart)
    ensures slice[st + 1..] == slice[st + 1..c] + [slice[c]] + slice[c + 1..]
    ensures Lacks(slice[st + 1..c], CallStart) && Lacks(slice[c + 1..], CallStart)
  {
    var tail := slice[st + 1..];
    assert forall i :: 0 <= i < c - st - 1 ==> slice[st + 1..c][i] == tail[i];
    var after := slice[c + 1..];
    forall i | 0 <= i < |after| ensures !Is(CallStart, after[i].payload) {
      assert after[i] == tail[i + c - st];
    }
  }

  lemma {:induction false} NoCallStays(slice: Log)
    requires Lacks(slice, CallStart)
    ensures CallFrom(NoCall, slice) == NoCall
  {
    if slice != [] { NoCallStays(DropLast(slice)); }
  }

  lemma StartResets(pre: Log, start: Event)
    requires Is(CallStart, start.payload)
    ensures CallFrom(NoCall, pre + [start]) == Calling([], None)
  {
    assert DropLast(pre + [start]) == pre;
  }

  /** The mode a boundary at `b` leads to by the end of the log. */
  function ModeFrom(log: Log, b: nat): Mode
    requires b < |log|
  {
    match log[b].payload
    case TurnStarted(_, _) => Running(log[b].turn, CallFrom(NoCall, log[b..]))
    case TurnPaused(job) => PausedOn(log[b].turn, job, FindJobDone(log[b + 1..], job), ScanOf(log[..b]).answered)
    case _ => Idle
  }

  lemma StartedGoesOn(pre: Log, e: Event, b: nat)
    requires b < |pre| && pre[b].payload.TurnStarted? && !Is(Boundary, e.payload)
    ensures ModeFrom(pre + [e], b) ==
            Running(pre[b].turn, StepCall(CallFrom(NoCall, pre[b..]), e.payload))
  {
    assert DropLast((pre + [e])[b..]) == pre[b..];
  }

  lemma PausedGoesOn(pre: Log, e: Event, b: nat)
    requires b < |pre| && pre[b].payload.TurnPaused? && !Is(Boundary, e.payload)
    ensures var was, job := ModeFrom(pre, b), pre[b].payload.jobId;
            ModeFrom(pre + [e], b) ==
            if e.payload.JobCompletedRecorded? && e.payload.jobId == job && was.done.None?
            then was.(done := Some(e.payload.outcome)) else was
  {
    var job := pre[b].payload.jobId;
    assert (pre + [e])[b + 1..] == pre[b + 1..] + [e] && (pre + [e])[..b] == pre[..b];
    FindJobDoneSnoc(pre[b + 1..], e, job);
  }

  /** Between boundaries the mode goes on as the forward machine steps it. */
  lemma ModeGoesOn(s: Scan, pre: Log, e: Event, b: nat)
    requires b < |pre| && Is(Boundary, pre[b].payload) && !Is(Boundary, e.payload) && s.mode == ModeFrom(pre, b)
    ensures StepMode(s, e) == ModeFrom(pre + [e], b)
  {
    match pre[b].payload
    case TurnStarted(_, _) => StartedGoesOn(pre, e, b);
    case TurnPaused(_) => PausedGoesOn(pre, e, b);
    case _ =>
  }

  lemma ModeBegins(pre: Log, e: Event)
    requires Is(Boundary, e.payload)
    ensures StepMode(ScanOf(pre), e) == ModeFrom(pre + [e], |pre|)
  {
    assert (pre + [e])[|pre|..] == [e] && (pre + [e])[..|pre|] == pre && (pre + [e])[|pre| + 1..] == [];
    assert DropLast([e]) == [] && CallFrom(NoCall, [e]) == StepCall(NoCall, e.payload);
  }

  /** The mode of the forward machine, located by the backward search for the latest boundary. */
  lemma {:induction false} ModeAtBoundary(log: Log)
    ensures var b := RPosition(log, Boundary);
            ScanOf(log).mode == if b.None? then Idle else ModeFrom(log, b.value)
  {
    if log != [] {
      var pre, e := DropLast(log), LastOf(log);
      ModeAtBoundary(pre);
      assert log == pre + [e];
      if Is(Boundary, e.payload) {
        ModeBegins(pre, e);
      } else if RPosition(pre, Boundary).Some? {
        ModeGoesOn(ScanOf(pre), pre, e, RPosition(pre, Boundary).value);
      }
    }
  }

  /** Some turn started at `i` is still open where the log ends. */
  ghost predicate OpenSince(log: Log, i: int) {
    0 <= i < |log| && log[i].payload.TurnStarted? &&
    forall k :: i < k < |log| ==> !log[k].payload.TurnCompleted? && !log[k].payload.TurnFailed?
  }

  /** What the flags mean: a turn is open where the log ends, ... */
  lemma {:induction false} OpenMeans(log: Log)
    ensures ScanOf(log).inTurn <==> exists i :: OpenSince(log, i)
  {
    if log != [] {
      var pre, n := DropLast(log), |log| - 1;
      OpenMeans(pre);
      if log[n].payload.TurnStarted? {
        assert OpenSince(log, n);
      } else if ScanOf(log).inTurn {
        var i :| OpenSince(pre, i);
        assert OpenSince(log, i);
      } else if exists i :: OpenSince(log, i) {
        var i :| OpenSince(log, i);
        assert i < n && OpenSince(pre, i);
      }
    }
  }

  predicate NestsAt(log: Log, j: int) {
    0 <= j < |log| && log[j].payload.TurnStarted? && ScanOf(log[..j]).inTurn
  }

  /** ... and some start came where an earlier turn was still open. */
  lemma {:induction false} NestingMeans(log: Log)
    ensures ScanOf(log).nested <==> exists j :: NestsAt(log, j)
  {
    if log != [] {
      var pre, n := DropLast(log), |log| - 1;
      NestingMeans(pre);
      assert log[..n] == pre;
      forall j | 0 <= j < n ensures NestsAt(log, j) <==> NestsAt(pre, j) {
        assert log[..j] == pre[..j];
      }
      assert ScanOf(log).nested <==> ScanOf(pre).nested || NestsAt(log, n);
    }
  }

  // ----- blocks and calls -----

  lemma {:induction false} UnansweredByNone(calls: seq<Call>)
    ensures Unanswered(calls, []) == calls
  {
    if calls != [] {
      UnansweredByNone(DropLast(calls));
      assert calls == DropLast(calls) + [LastOf(calls)];
    }
  }

  lemma AddBlockShifts(x: seq<ContentBlock>, y: seq<ContentBlock>, p: Payload)
    ensures AddBlock(x + y, p) == x + AddBlock(y, p)
  {
  }

  lemma {:induction false} ContentConcat(a: Log, b: Log)
    ensures ContentOf(a + b) == ContentOf(a) + ContentOf(b)
  {
    if b == [] {
      assert a + b == a;
    } else {
      var pre, p := DropLast(b), LastOf(b).payload;
      ContentConcat(a, pre);
      ContentSnoc(a + pre, LastOf(b));
      assert a + b == (a + pre) + [LastOf(b)];
      AddBlockShifts(ContentOf(a), ContentOf(pre), p);
    }
  }

  lemma ContentSnoc(slice: Log, e: Event)
    ensures ContentOf(slice + [e]) == AddBlock(ContentOf(slice), e.payload)
  {
    assert DropLast(slice + [e]) == slice;
  }

  lemma {:induction false} CallsWithoutThinking(content: seq<ContentBlock>)
    ensures Calls(WithoutThinking(content)) == Calls(content)
    ensures WithoutThinking(WithoutThinking(content)) == WithoutThinking(content)
  {
    if content != [] {
      CallsWithoutThinking(DropLast(content));
      var kept := WithoutThinking(DropLast(content));
      assert DropLast(kept + [LastOf(content)]) == kept;
    }
  }

  lemma WithoutThinkingSnoc(content: seq<ContentBlock>, b: ContentBlock)
    ensures WithoutThinking(content + [b]) ==
            if b.ThinkingBlock? then WithoutThinking(content) else WithoutThinking(content) + [b]
    ensures Calls(content + [b]) ==
            if b.ToolUseBlock? then Calls(content) + [Call(b.callId, b.toolName, b.args)] else Calls(content)
  {
    assert DropLast(content + [b]) == content;
  }

  // ----- the runtime's search -----

  method CheckNoNestedTurnStarted(events: Log) returns (ok: bool)
    ensures ok <==> !ScanOf(events).nested
  {
    var inTurn := false;
    for i := 0 to |events|
      invariant inTurn == ScanOf(events[..i]).inTurn && !ScanOf(events[..i]).nested
    {
      var e := events[i];
      assert DropLast(events[..i + 1]) == events[..i];
      if e.payload.TurnStarted? {
        if inTurn {
          NestedStays(events, i + 1);
          return false;
        }
        inTurn := true;
      } else if e.payload.TurnCompleted? || e.payload.TurnFailed? {
        inTurn := false;
      }
    }
    assert events[..|events|] == events;
    return true;
  }

  lemma {:induction false} NestedStays(log: Log, n: nat)
    requires n <= |log| && ScanOf(log[..n]).nested
    ensures ScanOf(log).nested
  {
    if n == |log| {
      assert log[..n] == log;
    } else {
      assert DropLast(log)[..n] == log[..n];
      NestedStays(DropLast(log), n);
    }
  }

  method RebuildModelOutput(slice: Log) returns (r: Result<ModelOutput, ResumeError>)
    ensures match RPosition(slice, CallSeal)
            case None => r == Err(Malformed(NoModelCallCompleted))
            case Some(c) => r == Ok(ModelOutput(ContentOf(slice), slice[c].payload.stopReason, slice[c].payload.usage))
  {
    var content: seq<ContentBlock> := [];
    var sealing: Option<(StopReason, Usage)> := None;
    for i := 0 to |slice|
      invariant content == ContentOf(slice[..i])
      invariant var c := RPosition(slice[..i], CallSeal);
                sealing == if c.None? then None else Some((slice[c.value].payload.stopReason, slice[c.value].payload.usage))
    {
      assert DropLast(slice[..i + 1]) == slice[..i];
      match slice[i].payload {
        case AssistantMessageAppended(text) => content := content + [TextBlock(text)];
        case ToolUseRecorded(id, name, args) => content := content + [ToolUseBlock(id, name, args)];
        case ModelCallCompleted(stop, usage) => sealing := Some((stop, usage));
        case _ =>
      }
    }
    assert slice[..|slice|] == slice;
    if sealing.None? { return Err(Malformed(NoModelCallCompleted)); }
    return Ok(ModelOutput(content, sealing.value.0, sealing.value.1));
  }

  method CollectResults(slice: Log) returns (results: seq<(CallId, ToolResult)>, ids: seq<CallId>)
    ensures results == ResultsOf(slice)
    ensures |ids| == |results| && forall k :: 0 <= k < |ids| ==> ids[k] == results[k].0
  {
    results, ids := [], [];
    for i := 0 to |slice|
      invariant results == ResultsOf(slice[..i])
      invariant |ids| == |results| && forall k :: 0 <= k < |ids| ==> ids[k] == results[k].0
    {
      assert DropLast(slice[..i + 1]) == slice[..i];
      var p := slice[i].payload;
      if p.ToolResultRecorded? {
        results, ids := results + [(p.callId, p.result)], ids + [p.callId];
      }
    }
    assert slice[..|slice|] == slice;
  }

  method CollectPending(slice: Log, results: seq<(CallId, ToolResult)>, ids: seq<CallId>) returns (pending: seq<Call>)
    requires |ids| == |results| && forall k :: 0 <= k < |ids| ==> ids[k] == results[k].0
    ensures pending == Unanswered(Calls(ContentOf(slice)), results)
  {
    pending := [];
    for i := 0 to |slice|
      invariant pending == Unanswered(Calls(ContentOf(slice[..i])), results)
    {
      assert DropLast(slice[..i + 1]) == slice[..i];
      CallsSnoc(ContentOf(slice[..i]), slice[i].payload);
      var p := slice[i].payload;
      if p.ToolUseRecorded? {
        assert Answers(results, p.callId) <==> p.callId in ids by {
          if p.callId in ids {
            var k :| 0 <= k < |ids| && ids[k] == p.callId;
            assert results[k].0 == p.callId;
          }
        }
        if p.callId !in ids {
          pending := pending + [Call(p.callId, p.toolName, p.args)];
        }
      }
    }
    assert slice[..|slice|] == slice;
  }

  lemma CallsSnoc(content: seq<ContentBlock>, p: Payload)
    ensures var calls, calls' := Calls(content), Calls(AddBlock(content, p));
            if p.ToolUseRecorded?
            then calls' == calls + [Call(p.callId, p.toolName, p.args)] && DropLast(calls') == calls
            else calls' == calls
  {
    assert AddBlock(content, p) != content ==> DropLast(AddBlock(content, p)) == content;
  }

  /** `slice` runs from the turn's start to the end of the log. */
  method ResumeFromTurnStarted(turn: TurnId, slice: Log, lastSeq: Option<nat>)
    returns (r: Result<Decision, ResumeError>)
    ensures r == Deciding(Running(Some(turn), CallFrom(NoCall, slice)), map[], lastSeq)
  {
    var started, completed := RPosition(slice, CallStart), RPosition(slice, CallSeal);
    CallAtPositions(slice);
    if started.None? || completed.None? || started.value > completed.value {
      return Ok(Decision(RestartCurrentTurn(turn), lastSeq));
    }
    var st, c := started.value, completed.value;
    var results, ids := CollectResults(slice[c + 1..]);
    WithinCall(slice, st, c);
    var pending := CollectPending(slice[st + 1..c + 1], results, ids);
    if pending == [] && results == [] {
      var rebuilt := RebuildModelOutput(slice[st..c + 1]);
      assert LastOf(slice[st..c + 1]) == slice[c];
      match rebuilt {
        case Err(e) => return Err(e);
        case Ok(output) =>
          if output.stopReason == ToolUse { return Err(Malformed(ToolUseStopWithoutToolUse)); }
          return Ok(Decision(FromModelCompleted(turn, output), lastSeq));
      }
    }
    return Ok(Decision(FromToolDispatching(turn, pending, results), lastSeq));
  }

  lemma ContentCons(e: Event, slice: Log)
    requires AddBlock([], e.payload) == []
    ensures ContentOf([e] + slice) == ContentOf(slice)
  {
    ContentConcat([e], slice);
    assert DropLast([e]) == [] && ContentOf([e]) == [];
    assert [] + ContentOf(slice) == ContentOf(slice);
  }

  /** The two slices the search reads hold the same blocks as the call between start and seal. */
  lemma WithinCall(slice: Log, st: nat, c: nat)
    requires st < c < |slice| && Is(CallStart, slice[st].payload) && Is(CallSeal, slice[c].payload)
    ensures ContentOf(slice[st + 1..c + 1]) == ContentOf(slice[st + 1..c]) == ContentOf(slice[st..c + 1])
  {
    var mid := slice[st + 1..c];
    ContentSnoc(mid, slice[c]);
    ContentCons(slice[st], mid + [slice[c]]);
    assert slice[st + 1..c + 1] == mid + [slice[c]];
    assert slice[st..c + 1] == [slice[st]] + (mid + [slice[c]]);
  }

  method CollectPausedCallContext(events: Log, pausedIdx: nat)
    returns (completed: seq<(CallId, ToolResult)>, pendingAfter: seq<Call>)
    requires pausedIdx < |events|
    ensures completed == ScanOf(events[..pausedIdx]).answered && pendingAfter == []
  {
    var s := RPosition(events[..pausedIdx], Start);
    var from := if s.None? then 0 else s.value + 1;
    AnsweredSinceStart(events[..pausedIdx]);
    assert events[..pausedIdx][from..] == events[from..pausedIdx];
    var ids: seq<CallId>;
    completed, ids := CollectResults(events[from..pausedIdx]);
    pendingAfter := [];
  }

  method ResumeFromTurnPaused(events: Log, idx: nat, job: JobId, lastSeq: Option<nat>)
    returns (r: Result<Decision, ResumeError>)
    requires idx < |events|
    ensures r == Deciding(PausedOn(events[idx].turn, job, FindJobDone(events[idx + 1..], job), ScanOf(events[..idx]).answered),
                          ScanOf(events).jobs, lastSeq)
  {
    if events[idx].turn.None? { return Err(Malformed(PauseWithoutTurnId)); }
    var turn := events[idx].turn.value;
    var done := FindJobDone(events[idx + 1..], job);
    if done.None? { return Ok(Decision(PausedJob(turn, job), lastSeq)); }
    JobTables(events, job);
    var callId := LookupCallId(events, job);
    if callId.None? { return Err(Malformed(PauseWithoutJobSubmitted)); }
    var before, after := CollectPausedCallContext(events, idx);
    return Ok(Decision(AfterJobCompletion(turn, job, done.value, callId.value, before, after), lastSeq));
  }

  /** Once the log has passed its checks, the latest boundary decides. */
  method DecideAtBoundary(events: Log, lastSeq: Option<nat>) returns (r: Result<Decision, ResumeError>)
    ensures r == Deciding(ScanOf(events).mode, ScanOf(events).jobs, lastSeq)
  {
    ModeAtBoundary(events);
    var boundary := RPosition(events, Boundary);
    if boundary.None? { return Ok(Decision(FreshTurn, lastSeq)); }
    var b := boundary.value;
    match events[b].payload {
      case TurnPaused(job) => r := ResumeFromTurnPaused(events, b, job, lastSeq);
      case TurnStarted(_, _) =>
        if events[b].turn.None? { return Err(Malformed(StartWithoutTurnId)); }
        r := ResumeFromTurnStarted(events[b].turn.value, events[b..], lastSeq);
      case _ => r := Ok(Decision(FreshTurn, lastSeq));
    }
  }

  /** Does the last event complete a job that never paused a turn? */
  method CheckOrphan(events: Log) returns (orphan: bool)
    requires events != []
    ensures orphan == ScanOf(events).orphan
  {
    var p := LastOf(events).payload;
    if !p.JobCompletedRecorded? { return false; }
    JobTables(DropLast(events), p.jobId);
    orphan := !PausedBefore(DropLast(events), p.jobId);
  }

  /** The whole coordinator: on every log it answers what the forward machine answers. */
  method Replay(events: Log) returns (r: Result<Decision, ResumeError>)
    ensures r == Forward(events)
  {
    NewerSchemaIsFirst(events);
    var newer := FindNewerSchema(events);
    if newer.Some? { return Err(UnsupportedSchema(newer.value)); }
    var lastSeq := LastSeq(events);
    if events == [] { return Ok(Decision(FreshTurn, lastSeq)); }
    var orphan := CheckOrphan(events);
    if orphan { return Err(Malformed(OrphanJobCompletion)); }
    var ok := CheckNoNestedTurnStarted(events);
    if !ok { return Err(Malformed(NestedTurnStarted)); }
    r := DecideAtBoundary(events, lastSeq);
  }

  // ----- what the coordinator is given -----

  lemma {:induction false} ScanSkips(e: Event, rest: Log)
    requires e.payload.SessionStarted? && e.schema <= SCHEMA_VERSION
    ensures ScanOf([e] + rest) == ScanOf(rest)
  {
    if rest == [] {
      assert [e] + rest == [e] && DropLast([e]) == [];
    } else {
      assert DropLast([e] + rest) == [e] + DropLast(rest);
      ScanSkips(e, DropLast(rest));
    }
  }

  /** Two logs read alike, with the same last number, replay alike. */
  lemma SameScanSameForward(a: Log, b: Log)
    requires ScanOf(a) == ScanOf(b) && LastSeq(a) == LastSeq(b)
    ensures Forward(a) == Forward(b)
  {
  }

  lemma EmptyForward()
    ensures Forward([]) == Ok(Decision(FreshTurn, None))
  {
  }

  /**
   The store hands out events numbered above 0, so the session's opening event is not
   among them: the forward machine reads the same, and a log of nothing else has no last number.
   */
  lemma OpeningEventIsUnseen(opening: Event, rest: Log)
    requires opening.payload.SessionStarted? && opening.schema <= SCHEMA_VERSION
    ensures ScanOf(rest) == ScanOf([opening] + rest)
    ensures Forward(rest) == if rest == [] then Ok(Decision(FreshTurn, None)) else Forward([opening] + rest)
  {
    ScanSkips(opening, rest);
    if rest == [] {
      EmptyForward();
    } else {
      SameScanSameForward(rest, [opening] + rest);
    }
  }
}
