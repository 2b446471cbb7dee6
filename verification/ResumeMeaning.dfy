/**
 What the coordinator's answer says of the log itself: when it refuses and why, and which
 events a resume point is made of. Nothing here mentions the forward machine but the
 answer, so a coordinator that skips a check or reads the wrong stretch has no proof.
 */
module ResumeMeaning {
  import opened Wrappers
  import opened Events
  import opened Resume
  import opened Listing

  // ----- refusals -----

  ghost predicate Supported(log: Log) {
    forall i :: 0 <= i < |log| ==> log[i].schema <= SCHEMA_VERSION
  }

  /** `v` is the schema version of the first event this build cannot read. */
  ghost predicate FirstUnsupported(log: Log, v: nat) {
    exists i :: 0 <= i < |log| && log[i].schema == v > SCHEMA_VERSION && Supported(log[..i])
  }

  /** The last event completes a job that no earlier event paused on. */
  ghost predicate EndsInOrphan(log: Log) {
    log != [] && log[|log| - 1].payload.JobCompletedRecorded? &&
    forall i :: 0 <= i < |log| - 1 ==> log[i].payload != TurnPaused(log[|log| - 1].payload.jobId)
  }

  /** The turn started at `i` is neither completed nor failed before `j`. */
  ghost predicate OpenUntil(log: Log, i: nat, j: nat) {
    i < j <= |log| && log[i].payload.TurnStarted? &&
    forall k :: i < k < j ==> !log[k].payload.TurnCompleted? && !log[k].payload.TurnFailed?
  }

  ghost predicate HasNestedStart(log: Log) {
    exists i: nat, j: nat :: j < |log| && log[j].payload.TurnStarted? && OpenUntil(log, i, j)
  }

  predicate StartsEndsOrPauses(p: Payload) {
    p.TurnStarted? || p.TurnCompleted? || p.TurnFailed? || p.TurnPaused?
  }

  /** The latest of all events that start, end or pause a turn. */
  ghost predicate LatestBoundary(log: Log, b: nat) {
    b < |log| && StartsEndsOrPauses(log[b].payload) && forall k :: b < k < |log| ==> !StartsEndsOrPauses(log[k].payload)
  }

  /** Behind the boundary `b`, the latest model call starts at `st` and is sealed, last, at `c`. */
  ghost predicate SealedCallAt(log: Log, b: nat, st: nat, c: nat) {
    b < st < c < |log| && log[st].payload.ModelCallStarted? && log[c].payload.ModelCallCompleted? &&
    (forall k :: st < k < |log| ==> !log[k].payload.ModelCallStarted?) &&
    (forall k :: c < k < |log| ==> !log[k].payload.ModelCallCompleted?)
  }

  /** The call between `st` and `c` stops for tools, but asks for none, and no result follows it. */
  ghost predicate BreaksItsPromise(log: Log, st: nat, c: nat) {
    st < c < |log| && log[c].payload.ModelCallCompleted? && log[c].payload.stopReason == ToolUse &&
    (forall k :: st < k < c ==> !log[k].payload.ToolUseRecorded?) &&
    (forall k :: c < k < |log| ==> !log[k].payload.ToolResultRecorded?)
  }

  ghost predicate HasBrokenPromise(log: Log, b: nat) {
    exists st: nat, c: nat :: SealedCallAt(log, b, st, c) && BreaksItsPromise(log, st, c)
  }

  ghost predicate CompletedAfter(log: Log, b: nat, job: JobId) {
    exists k :: b < k < |log| && log[k].payload.JobCompletedRecorded? && log[k].payload.jobId == job
  }

  ghost predicate NeverSubmitted(log: Log, job: JobId) {
    forall k :: 0 <= k < |log| ==> !(log[k].payload.JobSubmitted? && log[k].payload.jobId == job)
  }

  /** No earlier check of the coordinator fails. */
  ghost predicate Sane(log: Log) {
    Supported(log) && !EndsInOrphan(log) && !HasNestedStart(log)
  }

  ghost predicate RefusedAt(log: Log, b: nat, why: Malformation) {
    LatestBoundary(log, b) &&
    match why
    case StartWithoutTurnId => log[b].payload.TurnStarted? && log[b].turn.None?
    case PauseWithoutTurnId => log[b].payload.TurnPaused? && log[b].turn.None?
    case PauseWithoutJobSubmitted =>
      log[b].payload.TurnPaused? && log[b].turn.Some? &&
      CompletedAfter(log, b, log[b].payload.jobId) && NeverSubmitted(log, log[b].payload.jobId)
    case ToolUseStopWithoutToolUse =>
      log[b].payload.TurnStarted? && log[b].turn.Some? && HasBrokenPromise(log, b)
    case _ => false
  }

  ghost predicate Refused(log: Log, why: Malformation) {
    exists b: nat :: RefusedAt(log, b, why)
  }

  /** The log is malformed in just this way, and in none that is checked earlier. */
  ghost predicate MalformedBy(log: Log, why: Malformation) {
    Supported(log) &&
    match why
    case OrphanJobCompletion => EndsInOrphan(log)
    case NestedTurnStarted => !EndsInOrphan(log) && HasNestedStart(log)
    case _ => Sane(log) && Refused(log, why)
  }

  // ----- resume points -----

  ghost function ResultsIn(log: Log, lo: nat, hi: nat): set<nat>
    requires hi <= |log|
  {
    set k: nat | lo <= k < hi && log[k].payload.ToolResultRecorded?
  }

  ghost function BlocksIn(log: Log, lo: nat, hi: nat): set<nat>
    requires hi <= |log|
  {
    set k: nat | lo <= k < hi && (log[k].payload.AssistantMessageAppended? || log[k].payload.ToolUseRecorded?)
  }

  ghost predicate AnsweredAfter(log: Log, c: nat, id: CallId) {
    exists k :: c < k < |log| && log[k].payload.ToolResultRecorded? && log[k].payload.callId == id
  }

  /** Tool uses between `lo` and `hi` that no result behind `c` answers. */
  ghost function OpenUsesIn(log: Log, lo: nat, hi: nat, c: nat): set<nat>
    requires hi <= |log|
  {
    set k: nat | lo <= k < hi && log[k].payload.ToolUseRecorded? && !AnsweredAfter(log, c, log[k].payload.callId)
  }

  ghost predicate ReadsResults(log: Log, at: seq<nat>, rs: seq<(CallId, ToolResult)>) {
    |rs| == |at| &&
    forall i :: 0 <= i < |at| ==>
      at[i] < |log| && log[at[i]].payload.ToolResultRecorded? &&
      rs[i] == (log[at[i]].payload.callId, log[at[i]].payload.result)
  }

  ghost predicate ReadsCalls(log: Log, at: seq<nat>, calls: seq<Call>) {
    |calls| == |at| &&
    forall i :: 0 <= i < |at| ==>
      at[i] < |log| && log[at[i]].payload.ToolUseRecorded? &&
      calls[i] == Call(log[at[i]].payload.callId, log[at[i]].payload.toolName, log[at[i]].payload.args)
  }

  ghost predicate ReadsBlock(p: Payload, b: ContentBlock) {
    match p
    case AssistantMessageAppended(text) => b == TextBlock(text)
    case ToolUseRecorded(id, name, args) => b == ToolUseBlock(id, name, args)
    case _ => false
  }

  ghost predicate ReadsBlocks(log: Log, at: seq<nat>, blocks: seq<ContentBlock>) {
    |blocks| == |at| && forall i :: 0 <= i < |at| ==> at[i] < |log| && ReadsBlock(log[at[i]].payload, blocks[i])
  }

  /** `rs` are the results recorded from `lo` up to `hi`, in order. */
  ghost predicate AllResults(log: Log, lo: nat, hi: nat, rs: seq<(CallId, ToolResult)>)
    requires hi <= |log|
  {
    exists at :: Lists(at, ResultsIn(log, lo, hi)) && ReadsResults(log, at, rs)
  }

  /** `calls` are the tool uses of the model call that are still unanswered, in order. */
  ghost predicate AllOpenCalls(log: Log, st: nat, c: nat, calls: seq<Call>)
    requires c <= |log|
  {
    exists at :: Lists(at, OpenUsesIn(log, st + 1, c, c)) && ReadsCalls(log, at, calls)
  }

  ghost predicate AllBlocks(log: Log, st: nat, c: nat, blocks: seq<ContentBlock>)
    requires c <= |log|
  {
    exists at :: Lists(at, BlocksIn(log, st + 1, c)) && ReadsBlocks(log, at, blocks)
  }

  /** The first completion of `job` behind `b` has this outcome. */
  ghost predicate FirstCompletion(log: Log, b: nat, job: JobId, outcome: JobOutcome) {
    exists k :: b < k < |log| && log[k].payload == JobCompletedRecorded(job, outcome) &&
      forall j :: b < j < k ==> !(log[j].payload.JobCompletedRecorded? && log[j].payload.jobId == job)
  }

  /** The latest submission of `job` was for this call. */
  ghost predicate LatestSubmission(log: Log, job: JobId, id: CallId) {
    exists k :: 0 <= k < |log| && log[k].payload.JobSubmitted? && log[k].payload.jobId == job && log[k].payload.callId == id &&
      forall j :: k < j < |log| ==> !(log[j].payload.JobSubmitted? && log[j].payload.jobId == job)
  }

  /** Where the results of the turn paused at `b` begin: behind the latest turn start before it. */
  ghost predicate TurnBegins(log: Log, b: nat, lo: nat) {
    lo <= b <= |log| && (lo > 0 ==> log[lo - 1].payload.TurnStarted?) &&
    forall k :: lo <= k < b ==> !log[k].payload.TurnStarted?
  }

  ghost predicate Unsealed(log: Log, b: nat) {
    forall st: nat, c: nat :: !SealedCallAt(log, b, st, c)
  }

  /** What a resume point says about the log whose latest boundary is `b`. */
  ghost predicate PointAt(log: Log, b: nat, point: ResumePoint)
    requires b < |log|
  {
    match point
    case FreshTurn => log[b].payload.TurnCompleted? || log[b].payload.TurnFailed?
    case RestartCurrentTurn(turn) => log[b].payload.TurnStarted? && log[b].turn == Some(turn) && Unsealed(log, b)
    case FromModelCompleted(turn, out) =>
      log[b].payload.TurnStarted? && log[b].turn == Some(turn) &&
      HasMessage(log, b, out)
    case FromToolDispatching(turn, pending, completed) =>
      log[b].payload.TurnStarted? && log[b].turn == Some(turn) && (pending != [] || completed != []) &&
      HasToolsLeft(log, b, pending, completed)
    case PausedJob(turn, job) =>
      log[b].payload == TurnPaused(job) && log[b].turn == Some(turn) && !CompletedAfter(log, b, job)
    case AfterJobCompletion(turn, job, outcome, id, before, after) =>
      log[b].payload == TurnPaused(job) && log[b].turn == Some(turn) &&
      FirstCompletion(log, b, job, outcome) && LatestSubmission(log, job, id) && after == [] &&
      (exists lo: nat :: TurnBegins(log, b, lo) && AllResults(log, lo, b, before))
  }

  /** A message without tool uses, sealed, and nothing answered since. */
  ghost predicate SealedMessage(log: Log, st: nat, c: nat, out: ModelOutput) {
    c < |log| && log[c].payload == ModelCallCompleted(out.stopReason, out.usage) && out.stopReason != ToolUse &&
    AllBlocks(log, st, c, out.content) && AllOpenCalls(log, st, c, []) && AllResults(log, c + 1, |log|, [])
  }

  ghost predicate ToolsLeft(log: Log, st: nat, c: nat, pending: seq<Call>, completed: seq<(CallId, ToolResult)>) {
    c < |log| && AllOpenCalls(log, st, c, pending) && AllResults(log, c + 1, |log|, completed)
  }

  ghost predicate HasMessage(log: Log, b: nat, out: ModelOutput) {
    exists st: nat, c: nat :: SealedCallAt(log, b, st, c) && SealedMessage(log, st, c, out)
  }

  ghost predicate HasToolsLeft(log: Log, b: nat, pending: seq<Call>, completed: seq<(CallId, ToolResult)>) {
    exists st: nat, c: nat :: SealedCallAt(log, b, st, c) && ToolsLeft(log, st, c, pending, completed)
  }

  ghost predicate PointMeans(log: Log, point: ResumePoint) {
    if (forall b: nat :: !LatestBoundary(log, b)) then point == FreshTurn
    else exists b: nat :: LatestBoundary(log, b) && PointAt(log, b, point)
  }

  // ----- the checks -----

  lemma {:induction false} NewerMeans(log: Log)
    ensures match ScanOf(log).newer
            case None => Supported(log)
            case Some(v) => FirstUnsupported(log, v)
  {
    if log != [] {
      var pre, n := DropLast(log), |log| - 1;
      NewerMeans(pre);
      if ScanOf(pre).newer.Some? {
        var i :| 0 <= i < n && pre[i].schema == ScanOf(pre).newer.value > SCHEMA_VERSION && Supported(pre[..i]);
        assert log[i] == pre[i] && log[..i] == pre[..i];
      } else if log[n].schema > SCHEMA_VERSION {
        assert log[..n] == pre;
      } else {
        assert forall i :: 0 <= i < n ==> log[i] == pre[i];
      }
    }
  }

  lemma FirstIsUnique(log: Log, v: nat, w: nat)
    requires FirstUnsupported(log, v)
    ensures !Supported(log) && (FirstUnsupported(log, w) ==> v == w)
  {
    var i :| 0 <= i < |log| && log[i].schema == v > SCHEMA_VERSION && Supported(log[..i]);
    assert forall k :: 0 <= k < i ==> log[..i][k] == log[k];
    if FirstUnsupported(log, w) {
      var j :| 0 <= j < |log| && log[j].schema == w > SCHEMA_VERSION && Supported(log[..j]);
      assert forall k :: 0 <= k < j ==> log[..j][k] == log[k];
    }
  }

  lemma OrphanMeans(log: Log)
    ensures ScanOf(log).orphan <==> EndsInOrphan(log)
  {
    if log != [] && LastOf(log).payload.JobCompletedRecorded? {
      var pre, job := DropLast(log), LastOf(log).payload.jobId;
      JobTables(pre, job);
      assert forall i :: 0 <= i < |pre| ==> pre[i] == log[i];
    }
  }

  lemma NestMeans(log: Log)
    ensures ScanOf(log).nested <==> HasNestedStart(log)
  {
    NestingMeans(log);
    forall j: nat | j < |log| ensures NestsAt(log, j) <==> log[j].payload.TurnStarted? && exists i: nat :: OpenUntil(log, i, j) {
      OpenMeans(log[..j]);
      SameOpen(log, j);
    }
    if ScanOf(log).nested {
      var j :| NestsAt(log, j);
      var i: nat :| OpenUntil(log, i, j);
    }
    if HasNestedStart(log) {
      var i: nat, j: nat :| j < |log| && log[j].payload.TurnStarted? && OpenUntil(log, i, j);
      assert NestsAt(log, j);
    }
  }

  lemma SameOpen(log: Log, j: nat)
    requires j <= |log|
    ensures (exists i :: OpenSince(log[..j], i)) <==> exists i: nat :: OpenUntil(log, i, j)
  {
    if i :| OpenSince(log[..j], i) {
      assert forall k :: i < k < j ==> log[..j][k] == log[k];
      assert OpenUntil(log, i, j);
    }
    if i: nat :| OpenUntil(log, i, j) {
      assert OpenSince(log[..j], i);
    }
  }

  lemma BoundaryFound(log: Log)
    ensures match RPosition(log, Boundary)
            case None => forall b: nat :: !LatestBoundary(log, b)
            case Some(b) => LatestBoundary(log, b) && forall b': nat :: LatestBoundary(log, b') ==> b' == b
  {
    RPositionIsLatest(log, Boundary);
    match RPosition(log, Boundary)
    case None =>
    case Some(b) =>
      forall k | b < k < |log| ensures !Is(Boundary, log[k].payload) { assert log[k] == log[b + 1..][k - b - 1]; }
  }

  // ----- model calls -----

  /** The two backward searches in the slice of a turn find the sealed call of the log. */
  lemma SealedFound(log: Log, b: nat)
    requires LatestBoundary(log, b) && log[b].payload.TurnStarted?
    ensures var slice := log[b..];
            var st, c := RPosition(slice, CallStart), RPosition(slice, CallSeal);
            if st.Some? && c.Some? && st.value < c.value
            then SealedCallAt(log, b, b + st.value, b + c.value) &&
                 forall st': nat, c': nat :: SealedCallAt(log, b, st', c') ==> st' == b + st.value && c' == b + c.value
            else Unsealed(log, b)
  {
    var slice := log[b..];
    LatestInSlice(log, b, CallStart);
    LatestInSlice(log, b, CallSeal);
    var st, c := RPosition(slice, CallStart), RPosition(slice, CallSeal);
    if st.Some? && c.Some? && st.value < c.value {
      assert slice[0] == log[b] && slice[st.value] == log[b + st.value] && slice[c.value] == log[b + c.value];
      forall k | b + st.value < k < |log| ensures !log[k].payload.ModelCallStarted? { assert !Is(CallStart, log[k].payload); }
      forall k | b + c.value < k < |log| ensures !log[k].payload.ModelCallCompleted? { assert !Is(CallSeal, log[k].payload); }
    } else {
      forall st': nat, c': nat ensures !SealedCallAt(log, b, st', c') {
        if b < st' < c' < |log| {
          assert Is(CallStart, log[st'].payload) <==> log[st'].payload.ModelCallStarted?;
          assert Is(CallSeal, log[c'].payload) <==> log[c'].payload.ModelCallCompleted?;
        }
      }
    }
  }

  lemma LatestInSlice(log: Log, b: nat, m: Mark)
    requires b <= |log|
    ensures match RPosition(log[b..], m)
            case None => forall k :: b <= k < |log| ==> !Is(m, log[k].payload)
            case Some(i) => b + i < |log| && Is(m, log[b + i].payload) && forall k :: b + i < k < |log| ==> !Is(m, log[k].payload)
  {
    RPositionIsLatest(log[b..], m);
    match RPosition(log[b..], m)
    case None => forall k | b <= k < |log| ensures !Is(m, log[k].payload) { assert log[k] == log[b..][k - b]; }
    case Some(i) =>
      forall k | b + i < k < |log| ensures !Is(m, log[k].payload) { assert log[k] == log[b..][i + 1..][k - b - i - 1]; }
  }

  // ----- lists of events -----

  lemma SliceEnds(log: Log, lo: nat, hi: nat)
    requires lo < hi <= |log|
    ensures DropLast(log[lo..hi]) == log[lo..hi - 1] && LastOf(log[lo..hi]) == log[hi - 1]
  {
  }

  lemma ResultsStep(log: Log, lo: nat, hi: nat)
    requires lo < hi <= |log|
    ensures ResultsIn(log, lo, hi) == ResultsIn(log, lo, hi - 1) + if log[hi - 1].payload.ToolResultRecorded? then {hi - 1} else {}
  {
  }

  lemma ResultListed(log: Log, at: seq<nat>, rs: seq<(CallId, ToolResult)>, k: nat)
    requires ReadsResults(log, at, rs) && k < |log| && log[k].payload.ToolResultRecorded?
    ensures ReadsResults(log, at + [k], rs + [(log[k].payload.callId, log[k].payload.result)])
  {
  }

  lemma {:induction false} ResultsListed(log: Log, lo: nat, hi: nat) returns (at: seq<nat>)
    requires lo <= hi <= |log|
    ensures Lists(at, ResultsIn(log, lo, hi)) && ReadsResults(log, at, ResultsOf(log[lo..hi]))
    decreases hi
  {
    at := [];
    if lo < hi {
      at := ResultsListed(log, lo, hi - 1);
      SliceEnds(log, lo, hi);
      ResultsStep(log, lo, hi);
      if log[hi - 1].payload.ToolResultRecorded? {
        ListsSnoc(at, ResultsIn(log, lo, hi - 1), hi - 1);
        ResultListed(log, at, ResultsOf(log[lo..hi - 1]), hi - 1);
        at := at + [hi - 1];
      }
    }
  }

  predicate IsBlock(p: Payload) {
    p.AssistantMessageAppended? || p.ToolUseRecorded?
  }

  lemma BlocksStep(log: Log, lo: nat, hi: nat)
    requires lo < hi <= |log|
    ensures BlocksIn(log, lo, hi) == BlocksIn(log, lo, hi - 1) + if IsBlock(log[hi - 1].payload) then {hi - 1} else {}
  {
  }

  lemma BlockListed(log: Log, at: seq<nat>, blocks: seq<ContentBlock>, k: nat)
    requires ReadsBlocks(log, at, blocks) && k < |log|
    ensures IsBlock(log[k].payload) ==> ReadsBlocks(log, at + [k], AddBlock(blocks, log[k].payload))
    ensures !IsBlock(log[k].payload) ==> AddBlock(blocks, log[k].payload) == blocks
  {
  }

  lemma {:induction false} BlocksListed(log: Log, lo: nat, hi: nat) returns (at: seq<nat>)
    requires lo <= hi <= |log|
    ensures Lists(at, BlocksIn(log, lo, hi)) && ReadsBlocks(log, at, ContentOf(log[lo..hi]))
    decreases hi
  {
    at := [];
    if lo < hi {
      at := BlocksListed(log, lo, hi - 1);
      SliceEnds(log, lo, hi);
      BlocksStep(log, lo, hi);
      BlockListed(log, at, ContentOf(log[lo..hi - 1]), hi - 1);
      if IsBlock(log[hi - 1].payload) {
        ListsSnoc(at, BlocksIn(log, lo, hi - 1), hi - 1);
        at := at + [hi - 1];
      }
    }
  }

  lemma AnswersMeans(log: Log, c: nat, id: CallId)
    requires c < |log|
    ensures Answers(ResultsOf(log[c + 1..]), id) <==> AnsweredAfter(log, c, id)
  {
    var at := ResultsListed(log, c + 1, |log|);
    var rs := ResultsOf(log[c + 1..]);
    assert log[c + 1..|log|] == log[c + 1..];
    if Answers(rs, id) {
      var i :| 0 <= i < |rs| && rs[i].0 == id;
      assert at[i] in at;
    }
    if AnsweredAfter(log, c, id) {
      var k: nat :| c < k < |log| && log[k].payload.ToolResultRecorded? && log[k].payload.callId == id;
      assert k in ResultsIn(log, c + 1, |log|);
      var i :| 0 <= i < |at| && at[i] == k;
      assert rs[i].0 == id;
    }
  }

  lemma UnansweredStep(log: Log, lo: nat, hi: nat, rs: seq<(CallId, ToolResult)>)
    requires lo < hi <= |log|
    ensures var was, p := Unanswered(Calls(ContentOf(log[lo..hi - 1])), rs), log[hi - 1].payload;
            Unanswered(Calls(ContentOf(log[lo..hi])), rs) ==
            if p.ToolUseRecorded? && !Answers(rs, p.callId) then was + [Call(p.callId, p.toolName, p.args)] else was
  {
    assert DropLast(log[lo..hi]) == log[lo..hi - 1] && LastOf(log[lo..hi]) == log[hi - 1];
    CallsSnoc(ContentOf(log[lo..hi - 1]), log[hi - 1].payload);
  }

  lemma OpenUsesStep(log: Log, lo: nat, hi: nat, c: nat)
    requires lo < hi <= |log|
    ensures var was, p := OpenUsesIn(log, lo, hi - 1, c), log[hi - 1].payload;
            OpenUsesIn(log, lo, hi, c) ==
            if p.ToolUseRecorded? && !AnsweredAfter(log, c, p.callId) then was + {hi - 1} else was
  {
  }

  lemma CallListed(log: Log, at: seq<nat>, calls: seq<Call>, k: nat)
    requires ReadsCalls(log, at, calls) && k < |log| && log[k].payload.ToolUseRecorded?
    ensures ReadsCalls(log, at + [k], calls + [Call(log[k].payload.callId, log[k].payload.toolName, log[k].payload.args)])
  {
  }

  lemma {:induction false} CallsListed(log: Log, lo: nat, hi: nat, c: nat, rs: seq<(CallId, ToolResult)>) returns (at: seq<nat>)
    requires lo <= hi <= |log| && c < |log| && rs == ResultsOf(log[c + 1..])
    ensures Lists(at, OpenUsesIn(log, lo, hi, c)) && ReadsCalls(log, at, Unanswered(Calls(ContentOf(log[lo..hi])), rs))
    decreases hi
  {
    if lo == hi {
      at := [];
    } else {
      at := CallsListed(log, lo, hi - 1, c, rs);
      at := OneMoreCall(log, lo, hi, c, rs, at, Unanswered(Calls(ContentOf(log[lo..hi - 1])), rs));
    }
  }

  lemma OneMoreCall(log: Log, lo: nat, hi: nat, c: nat, rs: seq<(CallId, ToolResult)>, was: seq<nat>, calls: seq<Call>)
    returns (at: seq<nat>)
    requires lo < hi <= |log| && c < |log| && rs == ResultsOf(log[c + 1..])
    requires calls == Unanswered(Calls(ContentOf(log[lo..hi - 1])), rs)
    requires Lists(was, OpenUsesIn(log, lo, hi - 1, c)) && ReadsCalls(log, was, calls)
    ensures Lists(at, OpenUsesIn(log, lo, hi, c)) && ReadsCalls(log, at, Unanswered(Calls(ContentOf(log[lo..hi])), rs))
  {
    at := was;
    var p := log[hi - 1].payload;
    UnansweredStep(log, lo, hi, rs);
    OpenUsesStep(log, lo, hi, c);
    if p.ToolUseRecorded? {
      AnswersMeans(log, c, p.callId);
      if !AnsweredAfter(log, c, p.callId) {
        ListsSnoc(was, OpenUsesIn(log, lo, hi - 1, c), hi - 1);
        CallListed(log, was, calls, hi - 1);
        at := was + [hi - 1];
      }
    }
  }

  // ----- pauses -----

  lemma {:induction false} FirstCompletionFound(log: Log, b: nat, job: JobId)
    requires b < |log|
    ensures match FindJobDone(log[b + 1..], job)
            case None => !CompletedAfter(log, b, job)
            case Some(outcome) => CompletedAfter(log, b, job) && FirstCompletion(log, b, job, outcome)
    decreases |log| - b
  {
    if b + 1 < |log| {
      FirstCompletionFound(log, b + 1, job);
      assert log[b + 1..][1..] == log[b + 2..] && log[b + 1..][0] == log[b + 1];
    }
  }

  lemma {:induction false} LatestSubmissionFound(log: Log, job: JobId)
    ensures match LookupCallId(log, job)
            case None => NeverSubmitted(log, job)
            case Some(id) => !NeverSubmitted(log, job) && LatestSubmission(log, job, id)
  {
    if log != [] {
      var pre, n := DropLast(log), |log| - 1;
      LatestSubmissionFound(pre, job);
      if log[n].payload.JobSubmitted? && log[n].payload.jobId == job {
        assert LatestSubmission(log, job, log[n].payload.callId);
      } else if LookupCallId(pre, job).Some? {
        LatestSubmissionStays(pre, log[n], job, LookupCallId(pre, job).value);
        assert log == pre + [log[n]];
      } else {
        assert forall k :: 0 <= k < n ==> log[k] == pre[k];
      }
    }
  }

  lemma LatestSubmissionStays(pre: Log, e: Event, job: JobId, id: CallId)
    requires LatestSubmission(pre, job, id) && !(e.payload.JobSubmitted? && e.payload.jobId == job)
    ensures LatestSubmission(pre + [e], job, id) && !NeverSubmitted(pre + [e], job)
  {
    var log := pre + [e];
    var k :| 0 <= k < |pre| && pre[k].payload.JobSubmitted? && pre[k].payload.jobId == job && pre[k].payload.callId == id &&
      forall j :: k < j < |pre| ==> !(pre[j].payload.JobSubmitted? && pre[j].payload.jobId == job);
    assert log[k] == pre[k];
    forall j | k < j < |log| ensures !(log[j].payload.JobSubmitted? && log[j].payload.jobId == job) {
      if j < |pre| { assert log[j] == pre[j]; }
    }
  }

  lemma ResultsBefore(log: Log, b: nat)
    requires b < |log|
    ensures exists lo: nat :: TurnBegins(log, b, lo) && AllResults(log, lo, b, ScanOf(log[..b]).answered)
  {
    var s := RPosition(log[..b], Start);
    var lo := if s.None? then 0 else s.value + 1;
    AnsweredSinceStart(log[..b]);
    StartFound(log, b);
    assert log[..b][lo..] == log[lo..b];
    var at := ResultsListed(log, lo, b);
  }

  lemma StartFound(log: Log, b: nat)
    requires b < |log|
    ensures var s := RPosition(log[..b], Start); TurnBegins(log, b, if s.None? then 0 else s.value + 1)
  {
    var pre, s := log[..b], RPosition(log[..b], Start);
    RPositionIsLatest(pre, Start);
    var lo := if s.None? then 0 else s.value + 1;
    forall k | lo <= k < b ensures !log[k].payload.TurnStarted? {
      assert pre[k] == log[k] && pre[lo..][k - lo] == pre[k];
      assert !Is(Start, pre[lo..][k - lo].payload) by { if s.None? { assert pre[lo..] == pre; } }
    }
  }

  // ----- the answer -----

  /** What the forward machine decides where the latest boundary is `b`. */
  ghost predicate AnswersAt(log: Log, b: nat, r: Result<ResumePoint, ResumeError>)
    requires b < |log|
  {
    if r.Ok? then PointAt(log, b, r.value) && forall why :: !RefusedAt(log, b, why)
    else r.error.Malformed? && forall why :: RefusedAt(log, b, why) <==> why == r.error.why
  }

  ghost predicate AnswersAsFound(log: Log, r: Result<ResumePoint, ResumeError>) {
    if r.Ok? then PointMeans(log, r.value) && forall why :: !Refused(log, why)
    else r.error.Malformed? && forall why :: Refused(log, why) <==> why == r.error.why
  }

  lemma PausedAnswer(log: Log, b: nat)
    requires LatestBoundary(log, b) && log[b].payload.TurnPaused?
    ensures AnswersAt(log, b, DecideMode(ModeFrom(log, b), ScanOf(log).jobs))
  {
    var job := log[b].payload.jobId;
    FirstCompletionFound(log, b, job);
    LatestSubmissionFound(log, job);
    JobTables(log, job);
    ResultsBefore(log, b);
  }

  lemma StartedAnswer(log: Log, b: nat)
    requires LatestBoundary(log, b) && log[b].payload.TurnStarted?
    ensures AnswersAt(log, b, DecideMode(ModeFrom(log, b), ScanOf(log).jobs))
  {
    CallRead(log, b, CallFrom(NoCall, log[b..]));
    StartedDecides(log, b, CallFrom(NoCall, log[b..]), ScanOf(log).jobs);
  }

  /** The call as read is the latest call of the log: sealed, or not. */
  ghost predicate ReadsCall(log: Log, b: nat, call: CallState)
    requires b < |log|
  {
    if call.Calling? && call.seal.Some?
    then exists st: nat, c: nat :: SealedCallAt(log, b, st, c) && SealOf(log, b, st, c, call.seal.value)
    else Unsealed(log, b)
  }

  ghost predicate SealOf(log: Log, b: nat, st: nat, c: nat, seal: Seal) {
    st < c < |log| && log[c].payload.ModelCallCompleted? &&
    seal == Seal(ContentOf(log[st + 1..c]), log[c].payload.stopReason, log[c].payload.usage, ResultsOf(log[c + 1..])) &&
    forall st': nat, c': nat :: SealedCallAt(log, b, st', c') ==> st' == st && c' == c
  }

  lemma CallRead(log: Log, b: nat, call: CallState)
    requires LatestBoundary(log, b) && log[b].payload.TurnStarted? && call == CallFrom(NoCall, log[b..])
    ensures ReadsCall(log, b, call)
  {
    var slice := log[b..];
    CallAtPositions(slice);
    SealedFound(log, b);
    var st, c := RPosition(slice, CallStart), RPosition(slice, CallSeal);
    if st.Some? && c.Some? && st.value < c.value {
      SealInLog(log, b, st.value, c.value, call);
      assert SealOf(log, b, b + st.value, b + c.value, call.seal.value);
    }
  }

  lemma StartedDecides(log: Log, b: nat, call: CallState, jobs: map<JobId, CallId>)
    requires LatestBoundary(log, b) && log[b].payload.TurnStarted? && ReadsCall(log, b, call)
    ensures AnswersAt(log, b, DecideMode(Running(log[b].turn, call), jobs))
  {
    if log[b].turn.Some? && call.Calling? && call.seal.Some? {
      var st: nat, c: nat :| SealedCallAt(log, b, st, c) && SealOf(log, b, st, c, call.seal.value);
      SealedAnswer(log, b, st, c, call.seal.value);
    } else {
      UnsealedAnswer(log, b);
    }
  }

  lemma UnsealedAnswer(log: Log, b: nat)
    requires LatestBoundary(log, b) && log[b].payload.TurnStarted? && (log[b].turn.Some? ==> Unsealed(log, b))
    ensures AnswersAt(log, b, if log[b].turn.Some? then Ok(RestartCurrentTurn(log[b].turn.value))
                              else Err(Malformed(StartWithoutTurnId)))
  {
  }

  lemma SealInLog(log: Log, b: nat, st: nat, c: nat, call: CallState)
    requires b + st < b + c < |log| && log[b..][c].payload.ModelCallCompleted? && SealedAt(call, log[b..], st, c)
    ensures log[b + c].payload.ModelCallCompleted? && call.Calling?
    ensures call.seal == Some(Seal(ContentOf(log[b + st + 1..b + c]), log[b + c].payload.stopReason, log[b + c].payload.usage,
                                   ResultsOf(log[b + c + 1..])))
  {
    assert log[b..][st + 1..c] == log[b + st + 1..b + c] && log[b..][c + 1..] == log[b + c + 1..];
  }

  lemma SealedAnswer(log: Log, b: nat, st: nat, c: nat, seal: Seal)
    requires LatestBoundary(log, b) && log[b].payload.TurnStarted? && log[b].turn.Some? && SealedCallAt(log, b, st, c)
    requires SealOf(log, b, st, c, seal)
    ensures AnswersAt(log, b, DecideSealed(log[b].turn.value, seal))
  {
    var pending := Unanswered(Calls(seal.content), seal.results);
    SealListed(log, st, c, seal, pending);
    assert HasBrokenPromise(log, b) <==> BreaksItsPromise(log, st, c);
    if pending != [] || seal.results != [] {
      assert ToolsLeft(log, st, c, pending, seal.results);
    } else if seal.stop != ToolUse {
      assert SealedMessage(log, st, c, ModelOutput(seal.content, seal.stop, seal.usage));
    }
  }

  lemma SealListed(log: Log, st: nat, c: nat, seal: Seal, pending: seq<Call>)
    requires st < c < |log| && log[c].payload.ModelCallCompleted?
    requires seal == Seal(ContentOf(log[st + 1..c]), log[c].payload.stopReason, log[c].payload.usage, ResultsOf(log[c + 1..]))
    requires pending == Unanswered(Calls(seal.content), seal.results)
    ensures AllOpenCalls(log, st, c, pending) && AllResults(log, c + 1, |log|, seal.results) && AllBlocks(log, st, c, seal.content)
    ensures seal.stop == ToolUse ==> (BreaksItsPromise(log, st, c) <==> pending == [] && seal.results == [])
  {
    var blocks := BlocksListed(log, st + 1, c);
    var calls := CallsListed(log, st + 1, c, c, seal.results);
    var results := ResultsListed(log, c + 1, |log|);
    assert log[c + 1..|log|] == log[c + 1..];
    NothingLeft(log, st, c, pending, seal.results, calls, results);
  }

  /** With nothing to dispatch, the call asked for nothing and nothing was answered. */
  lemma NothingLeft(log: Log, st: nat, c: nat, pending: seq<Call>, rs: seq<(CallId, ToolResult)>, calls: seq<nat>, results: seq<nat>)
    requires st < c < |log| && Lists(calls, OpenUsesIn(log, st + 1, c, c)) && ReadsCalls(log, calls, pending)
    requires Lists(results, ResultsIn(log, c + 1, |log|)) && ReadsResults(log, results, rs)
    ensures pending == [] && rs == [] <==>
            (forall k :: st < k < c ==> !log[k].payload.ToolUseRecorded?) &&
            (forall k :: c < k < |log| ==> !log[k].payload.ToolResultRecorded?)
  {
    if pending == [] && rs == [] {
      forall k: nat | c < k < |log| ensures !log[k].payload.ToolResultRecorded? { assert k !in ResultsIn(log, c + 1, |log|); }
      forall k: nat | st < k < c ensures !log[k].payload.ToolUseRecorded? { assert k !in OpenUsesIn(log, st + 1, c, c); }
    }
    if calls != [] { assert calls[0] in OpenUsesIn(log, st + 1, c, c); }
    if results != [] { assert results[0] in ResultsIn(log, c + 1, |log|); }
  }

  lemma AnswerAtBoundary(log: Log, b: nat)
    requires LatestBoundary(log, b)
    ensures AnswersAt(log, b, DecideMode(ModeFrom(log, b), ScanOf(log).jobs))
  {
    match log[b].payload
    case TurnStarted(_, _) => StartedAnswer(log, b);
    case TurnPaused(_) => PausedAnswer(log, b);
    case _ =>
  }

  /** The answer once the log has passed the three checks. */
  lemma SaneAnswer(log: Log)
    ensures AnswersAsFound(log, DecideMode(ScanOf(log).mode, ScanOf(log).jobs))
  {
    BoundaryFound(log);
    ModeAtBoundary(log);
    if RPosition(log, Boundary).Some? {
      var b := RPosition(log, Boundary).value;
      AnswerAtBoundary(log, b);
      forall why ensures Refused(log, why) <==> RefusedAt(log, b, why) {}
    }
  }

  /**
   When the coordinator refuses a log, and why: an unreadable event refuses it before
   anything else, with the version of the first such event; otherwise it is refused just
   for being malformed, for the one reason that is found first.
   */
  lemma RefusesExactly(log: Log)
    ensures forall v :: Forward(log) == Err(UnsupportedSchema(v)) <==> FirstUnsupported(log, v)
    ensures forall why :: Forward(log) == Err(Malformed(why)) <==> MalformedBy(log, why)
    ensures Forward(log).Ok? <==> Sane(log) && forall why :: !MalformedBy(log, why)
  {
    NewerMeans(log);
    OrphanMeans(log);
    NestMeans(log);
    SaneAnswer(log);
    if ScanOf(log).newer.Some? {
      var v := ScanOf(log).newer.value;
      forall w ensures FirstUnsupported(log, w) <==> w == v { FirstIsUnique(log, v, w); }
    } else {
      forall w ensures !FirstUnsupported(log, w) { if FirstUnsupported(log, w) { FirstIsUnique(log, w, w); } }
      forall why ensures Forward(log) == Err(Malformed(why)) <==> MalformedBy(log, why) {
        assert why == OrphanJobCompletion || why == NestedTurnStarted ==> !Refused(log, why);
      }
    }
  }

  /** Otherwise it names the resume point the log calls for, and the last sequence number. */
  lemma AnswersWithPoint(log: Log)
    requires Forward(log).Ok?
    ensures var d := Forward(log).value;
            PointMeans(log, d.point) && d.lastSeq == if log == [] then None else Some(log[|log| - 1].seqNo)
  {
    SaneAnswer(log);
  }
}
