/** Sequence ranges that past compactions hide; read by the compactor and by the projector. */
module Coverage {
  import opened Events

  /** Inclusive on both ends. */
  datatype Range = Range(first: nat, last: nat)

  predicate IsCovered(s: nat, ranges: seq<Range>) {
    exists i :: 0 <= i < |ranges| && ranges[i].first <= s <= ranges[i].last
  }

  predicate Hides(p: Payload, s: nat) {
    p.ContextCompacted? && p.first <= s <= p.last
  }

  /** Some compaction in the log hides `s`. */
  predicate Covered(log: Log, s: nat) {
    exists i :: 0 <= i < |log| && Hides(log[i].payload, s)
  }

  lemma CoveredSnoc(log: Log, e: Event, s: nat)
    ensures Covered(log + [e], s) <==> Covered(log, s) || Hides(e.payload, s)
  {
    if Covered(log, s) {
      var i :| 0 <= i < |log| && Hides(log[i].payload, s);
      assert Hides((log + [e])[i].payload, s);
    }
    assert (log + [e])[|log|] == e;
  }

  lemma CoveredConcat(a: Log, b: Log, s: nat)
    ensures Covered(a + b, s) <==> Covered(a, s) || Covered(b, s)
  {
    if Covered(a, s) {
      var i :| 0 <= i < |a| && Hides(a[i].payload, s);
      assert (a + b)[i] == a[i];
    }
    if Covered(b, s) {
      var i :| 0 <= i < |b| && Hides(b[i].payload, s);
      assert (a + b)[|a| + i] == b[i];
    }
  }

  method CollectCoveredRanges(events: Log) returns (ranges: seq<Range>)
    ensures forall s: nat :: IsCovered(s, ranges) <==> Covered(events, s)
  {
    ranges := [];
    for i := 0 to |events|
      invariant forall s: nat :: IsCovered(s, ranges) <==> Covered(events[..i], s)
    {
      ghost var was := ranges;
      assert events[..i + 1] == events[..i] + [events[i]];
      if events[i].payload.ContextCompacted? {
        ranges := ranges + [Range(events[i].payload.first, events[i].payload.last)];
      }
      forall s: nat ensures IsCovered(s, ranges) <==> Covered(events[..i + 1], s) {
        CoveredSnoc(events[..i], events[i], s);
        if IsCovered(s, was) {
          var j :| 0 <= j < |was| && was[j].first <= s <= was[j].last;
          assert ranges[j] == was[j];
        }
        if events[i].payload.ContextCompacted? { assert ranges[|was|] == Range(events[i].payload.first, events[i].payload.last); }
      }
    }
    assert events[..|events|] == events;
  }
}

/**
 The truncating compactor: when the estimated size of the visible history passes a
 threshold, it hides the oldest turns outside the window it must keep.
 */
module Compactor {
  import opened Wrappers
  import opened Events
  import opened Coverage
  import opened Recorder
  import Utf8

  const U64_MAX: nat := 0xFFFF_FFFF_FFFF_FFFF

  /** `maxTokens` is the effective threshold; None stands for a kind of threshold this build does not know. */
  datatype Config = Config(maxTokens: Option<nat>, keepFirstUser: bool, keepRecentTurns: nat)

  datatype Applied = Applied(event: EventId, range: Range)

  datatype ContextError = Storage(error: StoreError)

  // ----- turns -----

  predicate OpensTurn(e: Event) {
    e.payload.TurnStarted? && e.turn.Some?
  }

  /** Sequence numbers of the turn starts, in log order. */
  function StartsOf(log: Log): seq<nat> {
    if log == [] then []
    else if OpensTurn(LastOf(log)) then StartsOf(DropLast(log)) + [LastOf(log).seqNo]
    else StartsOf(DropLast(log))
  }

  /** The first context pass numbered strictly between the two bounds, if any. */
  function FindContextPass(log: Log, after: nat, before: Option<nat>): Option<nat> {
    if log == [] then None
    else
      var e := log[0];
      if e.seqNo > after && (before.Some? ==> e.seqNo < before.value) && e.payload.ContextManageEntered? then Some(e.seqNo)
      else FindContextPass(log[1..], after, before)
  }

  /** The largest number strictly between the two bounds, or `after` itself when there is none. */
  function LargestBetween(log: Log, after: nat, before: nat): nat {
    if log == [] then after
    else
      var rest := LargestBetween(DropLast(log), after, before);
      if after < LastOf(log).seqNo < before && LastOf(log).seqNo > rest then LastOf(log).seqNo else rest
  }

  /** Where a turn's span ends: at its first context pass, the next turn, or never. */
  function NextBoundary(log: Log, starts: seq<nat>, i: nat): nat
    requires i < |starts|
  {
    var next := if i + 1 < |starts| then Some(starts[i + 1]) else None;
    match FindContextPass(log, starts[i], next)
    case Some(s) => s
    case None => if next.Some? then next.value else U64_MAX
  }

  function SpanOf(log: Log, i: nat): Range
    requires i < |StartsOf(log)|
  {
    var starts := StartsOf(log);
    Range(starts[i], LargestBetween(log, starts[i], NextBoundary(log, starts, i)))
  }

  function SpansUpTo(log: Log, n: nat): seq<Range>
    requires n <= |StartsOf(log)|
  {
    if n == 0 then [] else SpansUpTo(log, n - 1) + [SpanOf(log, n - 1)]
  }

  method CollectStarts(events: Log) returns (starts: seq<nat>)
    ensures starts == StartsOf(events)
  {
    starts := [];
    for i := 0 to |events|
      invariant starts == StartsOf(events[..i])
    {
      assert DropLast(events[..i + 1]) == events[..i];
      if OpensTurn(events[i]) { starts := starts + [events[i].seqNo]; }
    }
    assert events[..|events|] == events;
  }

  method CollectTurnBoundaries(events: Log) returns (spans: seq<Range>)
    ensures spans == SpansUpTo(events, |StartsOf(events)|)
  {
    var starts := CollectStarts(events);
    spans := [];
    for i := 0 to |starts|
      invariant spans == SpansUpTo(events, i)
    {
      var end := LargestBetween(events, starts[i], NextBoundary(events, starts, i));
      spans := spans + [Range(starts[i], end)];
    }
  }

  // ----- sizes -----

  /** Lengths are in UTF-8 bytes. */
  function Length(text: string): nat {
    |Utf8.Encode(text)|
  }

  function SumText(blocks: seq<ContentBlock>): nat {
    if blocks == [] then 0
    else SumText(DropLast(blocks)) + if LastOf(blocks).TextBlock? then Length(LastOf(blocks).text) else 0
  }

  function SumValues(values: seq<Json>): nat {
    if values == [] then 0 else SumValues(DropLast(values)) + Length(LastOf(values).text)
  }

  function CharCount(p: Payload): nat {
    match p
    case TurnStarted(input, _) => SumText(input)
    case AssistantMessageAppended(text) => Length(text)
    case ToolUseRecorded(_, name, args) => Length(name) + Length(args.text)
    case ToolResultRecorded(_, Output(values)) => SumValues(values)
    case ToolResultRecorded(_, Error(_, message, _)) => Length(message)
    case _ => 0
  }

  /** Characters of the events not hidden by `whole`. */
  function VisibleChars(whole: Log, log: Log): nat {
    if log == [] then 0
    else VisibleChars(whole, DropLast(log)) +
         if Covered(whole, LastOf(log).seqNo) then 0 else CharCount(LastOf(log).payload)
  }

  function CharsIn(log: Log, r: Range): nat {
    if log == [] then 0
    else CharsIn(DropLast(log), r) + if r.first <= LastOf(log).seqNo <= r.last then CharCount(LastOf(log).payload) else 0
  }

  function EstimateVisibleTokens(log: Log): nat {
    VisibleChars(log, log) / 4
  }

  function EstimateDroppedTokens(log: Log, r: Range): nat {
    CharsIn(log, r) / 4
  }

  // ----- the decision -----

  /** Position of the turn's compaction, searching from the front. */
  function FindCompaction(log: Log, turn: TurnId): Option<Applied> {
    if log == [] then None
    else if log[0].payload.ContextCompacted? && log[0].payload.forTurn == turn
    then Some(Applied(log[0].id, Range(log[0].payload.first, log[0].payload.last)))
    else FindCompaction(log[1..], turn)
  }

  predicate CompactsFor(e: Event, turn: TurnId) {
    e.payload.ContextCompacted? && e.payload.forTurn == turn
  }

  predicate Describes(e: Event, done: Applied) {
    e.payload.ContextCompacted? && done.event == e.id && done.range == Range(e.payload.first, e.payload.last)
  }

  /** The compaction found is the turn's first. */
  lemma {:induction false} CompactionIsFirst(log: Log, turn: TurnId)
    ensures match FindCompaction(log, turn)
            case None => forall i :: 0 <= i < |log| ==> !CompactsFor(log[i], turn)
            case Some(done) => exists i :: 0 <= i < |log| && CompactsFor(log[i], turn) && Describes(log[i], done) &&
                                           forall j :: 0 <= j < i ==> !CompactsFor(log[j], turn)
  {
    if log != [] && !CompactsFor(log[0], turn) {
      var rest := log[1..];
      CompactionIsFirst(rest, turn);
      assert forall i :: 0 < i < |log| ==> log[i] == rest[i - 1];
      if FindCompaction(rest, turn).Some? {
        var i :| 0 <= i < |rest| && CompactsFor(rest[i], turn) && Describes(rest[i], FindCompaction(rest, turn).value) &&
                 forall j :: 0 <= j < i ==> !CompactsFor(rest[j], turn);
        assert CompactsFor(log[i + 1], turn);
      }
    }
  }

  predicate FullyCovered(log: Log, span: Range) {
    forall s: nat :: span.first <= s <= span.last ==> Covered(log, s)
  }

  /** From the start of the first turn in the window not fully hidden to the end of the last such turn. */
  function DropRange(log: Log, from: nat, end: nat): Option<Range>
    requires end <= |StartsOf(log)|
    decreases end
  {
    if end <= from then None
    else
      var before, span := DropRange(log, from, end - 1), SpanOf(log, end - 1);
      if FullyCovered(log, span) then before
      else if before.None? then Some(span)
      else Some(Range(before.value.first, span.last))
  }

  function Estimated(log: Log, usage: Option<nat>): nat {
    if usage.Some? then usage.value else EstimateVisibleTokens(log)
  }

  function WindowStart(cfg: Config): nat {
    if cfg.keepFirstUser then 1 else 0
  }

  function WindowEnd(log: Log, cfg: Config): nat {
    SaturatingSub(|StartsOf(log)|, cfg.keepRecentTurns)
  }

  /** The range a call would write for a turn not compacted yet, if any. */
  function Plan(log: Log, cfg: Config, usage: Option<nat>): Option<Range> {
    if cfg.maxTokens.None? || Estimated(log, usage) < cfg.maxTokens.value then None
    else DropRange(log, WindowStart(cfg), WindowEnd(log, cfg))
  }

  function After(log: Log, usage: Option<nat>, r: Range): nat {
    SaturatingSub(Estimated(log, usage), EstimateDroppedTokens(log, r))
  }

  /** The event a call writes for `r`. */
  function Compaction(log: Log, turn: TurnId, usage: Option<nat>, r: Range): Payload {
    ContextCompacted(turn, r.first, r.last, Drop, Some(Estimated(log, usage)), Some(After(log, usage, r)))
  }

  lemma DropRangeFrom(log: Log, from: nat, end: nat)
    requires end <= |StartsOf(log)| && from >= end
    ensures DropRange(log, from, end) == None
  {
  }

  method IsFullyCovered(log: Log, ranges: seq<Range>, span: Range) returns (all: bool)
    requires forall s: nat :: IsCovered(s, ranges) <==> Covered(log, s)
    ensures all == FullyCovered(log, span)
  {
    all := true;
    var s := span.first;
    while s <= span.last && all
      invariant span.first <= s
      invariant all ==> forall t: nat :: span.first <= t < s ==> Covered(log, t)
      invariant !all ==> !FullyCovered(log, span)
      decreases span.last + 1 - s, all
    {
      if IsCovered(s, ranges) {
        s := s + 1;
      } else {
        all := false;
      }
    }
  }

  lemma SpansAt(log: Log, n: nat, i: nat)
    requires i < n <= |StartsOf(log)|
    ensures |SpansUpTo(log, n)| == n && SpansUpTo(log, n)[i] == SpanOf(log, i)
  {
    SpansLength(log, n - 1);
    if i < n - 1 { SpansAt(log, n - 1, i); }
  }

  lemma SpansLength(log: Log, n: nat)
    requires n <= |StartsOf(log)|
    ensures |SpansUpTo(log, n)| == n
  {
  }

  /** One call: the turn's existing compaction, nothing, or one new event that the recorder may still refuse. */
  method MaybeCompact(cfg: Config, history: Log, turn: TurnId, lastUsage: Option<nat>, recorder: StepRecorder)
    returns (r: Result<seq<Applied>, ContextError>)
    requires recorder.Valid()
    modifies recorder
    ensures recorder.Valid()
    ensures match FindCompaction(history, turn)
            case Some(done) => r == Ok([done]) && recorder.log == old(recorder.log)
            case None =>
              match Plan(history, cfg, lastUsage)
              case None => r == Ok([]) && recorder.log == old(recorder.log)
              case Some(range) =>
                var why := RefusalOf(old(recorder.log), turn, range.first, range.last);
                if why == 0
                then recorder.log == Append(old(recorder.log), Some(turn), Compaction(history, turn, lastUsage, range))
                     && r == Ok([Applied(|old(recorder.log)|, range)])
                else r == Err(Storage(InvariantViolated(why))) && recorder.log == old(recorder.log)
    ensures recorder.log != old(recorder.log) && lastUsage.Some? ==>
              cfg.maxTokens.Some? && lastUsage.value >= cfg.maxTokens.value
  {
    for i := 0 to |history|
      invariant FindCompaction(history, turn) == FindCompaction(history[i..], turn)
    {
      assert history[i..][1..] == history[i + 1..];
      if history[i].payload.ContextCompacted? && history[i].payload.forTurn == turn {
        return Ok([Applied(history[i].id, Range(history[i].payload.first, history[i].payload.last))]);
      }
    }
    if cfg.maxTokens.None? { return Ok([]); }
    var estimated := Estimated(history, lastUsage);
    if estimated < cfg.maxTokens.value { return Ok([]); }
    var spans := CollectTurnBoundaries(history);
    var covered := CollectCoveredRanges(history);
    SpansLength(history, |StartsOf(history)|);
    var first := if cfg.keepFirstUser then 1 else 0;
    var last := SaturatingSub(|spans|, cfg.keepRecentTurns);
    if first >= last {
      DropRangeFrom(history, first, last);
      return Ok([]);
    }
    var start: Option<nat>, end: Option<nat> := None, None;
    for i := first to last
      invariant DropRange(history, first, i) ==
                if start.Some? && end.Some? then Some(Range(start.value, end.value)) else None
      invariant start.Some? <==> end.Some?
      invariant recorder.Valid() && recorder.log == old(recorder.log)
    {
      SpansAt(history, |spans|, i);
      var full := IsFullyCovered(history, covered, spans[i]);
      if !full {
        if start.None? { start := Some(spans[i].first); }
        end := Some(spans[i].last);
      }
    }
    if start.None? || end.None? { return Ok([]); }
    var range := Range(start.value, end.value);
    var after := SaturatingSub(estimated, EstimateDroppedTokens(history, range));
    var id := recorder.RecordContextCompacted(turn, range.first, range.last, Drop, Some(estimated), Some(after));
    match id
    case Ok(event) => return Ok([Applied(event, range)]);
    case Err(e) => return Err(Storage(e));
  }
}
