/**
 What the compactor's ranges mean on a numbered log, and what any run of growing logs
 and repeated compactions keeps.
 */
module CompactorRuns {
  import opened Wrappers
  import opened Events
  import opened Coverage
  import opened Compactor
  import Recorder

  /** Consecutive sequence numbers from `base` on; the store hands out those above 0, so a history's base is 1. */
  predicate Numbered(log: Log, base: nat) {
    base + |log| <= U64_MAX && forall i :: 0 <= i < |log| ==> log[i].seqNo == base + i
  }

  /** The event numbered `s`. */
  function At(log: Log, base: nat, s: nat): Event
    requires base <= s < base + |log|
  {
    log[s - base]
  }

  /** The number the next event gets. */
  function Next(log: Log, base: nat): nat {
    base + |log|
  }

  lemma NumberedPrefix(log: Log, base: nat, n: nat)
    requires Numbered(log, base) && n <= |log|
    ensures Numbered(log[..n], base)
  {
  }

  // ----- turn starts -----

  predicate InLog(log: Log, base: nat, starts: seq<nat>) {
    forall i :: 0 <= i < |starts| ==> base <= starts[i] < Next(log, base) && OpensTurn(log[starts[i] - base])
  }

  predicate Increasing(starts: seq<nat>) {
    forall i, j :: 0 <= i < j < |starts| ==> starts[i] < starts[j]
  }

  predicate HasEveryStart(log: Log, base: nat, starts: seq<nat>) {
    forall p :: 0 <= p < |log| && OpensTurn(log[p]) ==> base + p in starts
  }

  /** The starts are the numbers of the events that open a turn, in order. */
  predicate StartsFit(log: Log, base: nat, starts: seq<nat>) {
    InLog(log, base, starts) && Increasing(starts) && HasEveryStart(log, base, starts)
  }

  lemma FitGrows(pre: Log, base: nat, e: Event, starts: seq<nat>)
    requires StartsFit(pre, base, starts)
    ensures StartsFit(pre + [e], base, if OpensTurn(e) then starts + [Next(pre, base)] else starts)
  {
    AllInLog(pre, base, e, starts);
    EveryStartKept(pre, base, e, starts);
  }

  lemma OneMoreStart(log: Log, base: nat, pre: Log, e: Event, starts: seq<nat>, all: seq<nat>)
    requires log != [] && pre == DropLast(log) && e == LastOf(log) && e.seqNo == Next(pre, base)
    requires StartsFit(pre, base, starts) && all == if OpensTurn(e) then starts + [e.seqNo] else starts
    ensures StartsFit(log, base, all)
  {
    Snoc(log);
    FitGrows(pre, base, e, starts);
  }

  lemma AllInLog(pre: Log, base: nat, e: Event, starts: seq<nat>)
    requires InLog(pre, base, starts)
    ensures InLog(pre + [e], base, if OpensTurn(e) then starts + [Next(pre, base)] else starts)
  {
  }

  lemma EveryStartKept(pre: Log, base: nat, e: Event, starts: seq<nat>)
    requires HasEveryStart(pre, base, starts)
    ensures HasEveryStart(pre + [e], base, if OpensTurn(e) then starts + [Next(pre, base)] else starts)
  {
  }

  lemma {:induction false} StartsArePositions(log: Log, base: nat)
    requires Numbered(log, base)
    ensures StartsFit(log, base, StartsOf(log))
  {
    if log != [] {
      var pre, e := DropLast(log), LastOf(log);
      NumberedPrefix(log, base, |log| - 1);
      StartsArePositions(pre, base);
      OneMoreStart(log, base, pre, e, StartsOf(pre), StartsOf(log));
    }
  }

  lemma StartsIncrease(log: Log, base: nat, i: nat, j: nat)
    requires Numbered(log, base) && i <= j < |StartsOf(log)|
    ensures base <= StartsOf(log)[i] <= StartsOf(log)[j] < Next(log, base)
  {
    StartsArePositions(log, base);
  }

  lemma {:induction false} StartsGrow(a: Log, b: Log)
    ensures StartsOf(a) <= StartsOf(a + b)
    ensures (forall i :: 0 <= i < |b| ==> !OpensTurn(b[i])) ==> StartsOf(a + b) == StartsOf(a)
  {
    if b == [] {
      assert a + b == a;
    } else {
      assert DropLast(a + b) == a + DropLast(b);
      StartsGrow(a, DropLast(b));
    }
  }

  /** Between two consecutive starts no turn opens. */
  lemma NoneBetween(log: Log, base: nat, i: nat, x: nat)
    requires Numbered(log, base) && i < |StartsOf(log)| && StartsOf(log)[i] < x < Next(log, base)
    requires i + 1 < |StartsOf(log)| ==> x < StartsOf(log)[i + 1]
    ensures base <= x && !OpensTurn(At(log, base, x))
  {
    StartsArePositions(log, base);
    var starts := StartsOf(log);
    forall j | 0 <= j < |starts| ensures starts[j] != x {}
  }

  // ----- spans -----

  predicate Breaks(e: Event) {
    OpensTurn(e) || e.payload.ContextManageEntered?
  }

  /** `last` is the last position before the first break after `first`. */
  predicate IsSpan(log: Log, base: nat, first: nat, last: nat) {
    base <= first <= last < Next(log, base) &&
    (forall x :: first < x <= last ==> !Breaks(At(log, base, x))) &&
    (last + 1 < Next(log, base) ==> Breaks(At(log, base, last + 1)))
  }

  lemma SpanIsUnique(log: Log, base: nat, first: nat, a: nat, b: nat)
    requires IsSpan(log, base, first, a) && IsSpan(log, base, first, b)
    ensures a == b
  {
  }

  predicate IsPass(e: Event, after: nat, before: Option<nat>) {
    e.seqNo > after && (before.Some? ==> e.seqNo < before.value) && e.payload.ContextManageEntered?
  }

  lemma {:induction false} FindContextPassFinds(log: Log, after: nat, before: Option<nat>)
    requires forall i, j :: 0 <= i < j < |log| ==> log[i].seqNo < log[j].seqNo
    ensures match FindContextPass(log, after, before)
            case Some(s) =>
              (exists e :: e in log && e.seqNo == s && IsPass(e, after, before)) &&
              (forall e :: e in log && e.seqNo < s ==> !IsPass(e, after, before))
            case None => forall e :: e in log ==> !IsPass(e, after, before)
  {
    if log != [] {
      assert log == [log[0]] + log[1..];
      FindContextPassFinds(log[1..], after, before);
    }
  }

  lemma {:induction false} LargestIsLast(log: Log, base: nat, after: nat, before: nat)
    requires forall i :: 0 <= i < |log| ==> log[i].seqNo == base + i
    requires base <= after < before
    ensures LargestBetween(log, after, before) ==
            (if Next(log, base) <= after + 1 then after
             else if before <= Next(log, base) then before - 1 else Next(log, base) - 1)
  {
    if log != [] { LargestIsLast(DropLast(log), base, after, before); }
  }

  /** No context pass behind `after`, up to but without `end`. */
  predicate NoPass(log: Log, base: nat, after: nat, end: nat) {
    forall x :: after < x < Next(log, base) && base <= x < end ==> !At(log, base, x).payload.ContextManageEntered?
  }

  lemma PassBetween(log: Log, base: nat, after: nat, before: Option<nat>)
    requires Numbered(log, base) && base <= after
    ensures match FindContextPass(log, after, before)
            case Some(s) =>
              after < s < Next(log, base) && (before.Some? ==> s < before.value) &&
              At(log, base, s).payload.ContextManageEntered? && NoPass(log, base, after, s)
            case None => NoPass(log, base, after, if before.Some? then before.value else Next(log, base))
  {
    FindContextPassFinds(log, after, before);
    var end := match FindContextPass(log, after, before)
               case Some(s) => s
               case None => if before.Some? then before.value else Next(log, base);
    forall x | after < x < Next(log, base) && x < end ensures !At(log, base, x).payload.ContextManageEntered? {
      var e := At(log, base, x);
      assert e in log && e.seqNo == x && !IsPass(e, after, before);
    }
  }

  lemma BoundaryMeaning(log: Log, base: nat, i: nat)
    requires Numbered(log, base) && i < |StartsOf(log)|
    ensures var starts := StartsOf(log);
            var bound := NextBoundary(log, starts, i);
            base <= starts[i] < Next(log, base) && starts[i] < bound &&
            (i + 1 < |starts| ==> bound <= starts[i + 1] < Next(log, base)) &&
            (bound < Next(log, base) ==> Breaks(At(log, base, bound))) && (bound >= Next(log, base) ==> i + 1 == |starts|) &&
            NoPass(log, base, starts[i], bound)
  {
    StartsArePositions(log, base);
    var starts := StartsOf(log);
    PassBetween(log, base, starts[i], if i + 1 < |starts| then Some(starts[i + 1]) else None);
  }

  /** The span the compactor computes for a turn is the stretch up to its first context pass or the next turn. */
  lemma SpanMeaning(log: Log, base: nat, i: nat)
    requires Numbered(log, base) && i < |StartsOf(log)|
    ensures SpanOf(log, i).first == StartsOf(log)[i]
    ensures IsSpan(log, base, StartsOf(log)[i], SpanOf(log, i).last)
    ensures i + 1 < |StartsOf(log)| ==> SpanOf(log, i).last < StartsOf(log)[i + 1]
  {
    BoundaryMeaning(log, base, i);
    var st, last := StartsOf(log)[i], SpanOf(log, i).last;
    LargestIsLast(log, base, st, NextBoundary(log, StartsOf(log), i));
    forall x | st < x <= last ensures !Breaks(At(log, base, x)) { NoneBetween(log, base, i, x); }
  }

  /** A span followed by a break stays what it is as the log grows. */
  lemma SpanStable(log: Log, base: nat, more: Log, i: nat)
    requires Numbered(log, base) && Numbered(log + more, base) && i < |StartsOf(log)|
    requires SpanOf(log, i).last + 1 < Next(log, base)
    ensures i < |StartsOf(log + more)| && SpanOf(log + more, i) == SpanOf(log, i)
  {
    StartsGrow(log, more);
    SpanMeaning(log, base, i);
    SpanMeaning(log + more, base, i);
    var last := SpanOf(log, i).last;
    assert forall x :: base <= x < Next(log, base) ==> At(log + more, base, x) == At(log, base, x);
    assert IsSpan(log + more, base, StartsOf(log)[i], last);
    SpanIsUnique(log + more, base, StartsOf(log)[i], last, SpanOf(log + more, i).last);
  }

  /** Spans follow each other: a turn's span ends before the next turn starts. */
  lemma SpansInOrder(log: Log, base: nat, i: nat, j: nat)
    requires Numbered(log, base) && i < j < |StartsOf(log)|
    ensures SpanOf(log, i).last < StartsOf(log)[j] && SpanOf(log, i).last + 1 < Next(log, base)
  {
    StartsArePositions(log, base);
    SpanMeaning(log, base, i);
  }

  // ----- the range -----

  predicate WindowCovered(log: Log, from: nat, end: nat)
    requires end <= |StartsOf(log)|
  {
    forall k :: from <= k < end ==> FullyCovered(log, SpanOf(log, k))
  }

  /** The range runs from the first to the last turn of the window that is not fully hidden. */
  ghost predicate Runs(log: Log, from: nat, end: nat, r: Range, i: nat, j: nat)
    requires end <= |StartsOf(log)|
  {
    from <= i <= j < end && r == Range(SpanOf(log, i).first, SpanOf(log, j).last) &&
    !FullyCovered(log, SpanOf(log, i)) && !FullyCovered(log, SpanOf(log, j)) &&
    WindowCovered(log, from, i) && WindowCovered(log, j + 1, end)
  }

  ghost predicate HasEnds(log: Log, from: nat, end: nat, r: Range)
    requires end <= |StartsOf(log)|
  {
    exists i: nat, j: nat :: Runs(log, from, end, r, i, j)
  }

  lemma RunsBetween(log: Log, from: nat, end: nat, r: Range, i: nat, j: nat)
    requires end <= |StartsOf(log)| && Runs(log, from, end, r, i, j)
    ensures HasEnds(log, from, end, r)
  {
  }

  lemma FirstInWindow(log: Log, from: nat, end: nat)
    requires from < end <= |StartsOf(log)| && WindowCovered(log, from, end - 1) && !FullyCovered(log, SpanOf(log, end - 1))
    ensures HasEnds(log, from, end, SpanOf(log, end - 1))
  {
    RunsBetween(log, from, end, SpanOf(log, end - 1), end - 1, end - 1);
  }

  lemma WindowGrows(log: Log, from: nat, end: nat, r: Range)
    requires from < end <= |StartsOf(log)| && HasEnds(log, from, end - 1, r)
    ensures var span := SpanOf(log, end - 1);
            HasEnds(log, from, end, if FullyCovered(log, span) then r else Range(r.first, span.last))
  {
    var i: nat, j: nat :| Runs(log, from, end - 1, r, i, j);
    var span := SpanOf(log, end - 1);
    if FullyCovered(log, span) {
      RunsBetween(log, from, end, r, i, j);
    } else {
      RunsBetween(log, from, end, Range(r.first, span.last), i, end - 1);
    }
  }

  lemma {:induction false} DropRangeMeaning(log: Log, from: nat, end: nat)
    requires end <= |StartsOf(log)|
    ensures match DropRange(log, from, end)
            case None => WindowCovered(log, from, end)
            case Some(r) => HasEnds(log, from, end, r)
    decreases end
  {
    if end > from {
      DropRangeMeaning(log, from, end - 1);
      match DropRange(log, from, end - 1)
      case None =>
        if FullyCovered(log, SpanOf(log, end - 1)) {
          forall k | from <= k < end ensures FullyCovered(log, SpanOf(log, k)) {}
        } else {
          FirstInWindow(log, from, end);
        }
      case Some(r) => WindowGrows(log, from, end, r);
    }
  }

  lemma PlanMeaning(log: Log, cfg: Config, usage: Option<nat>) returns (i: nat, j: nat)
    requires Plan(log, cfg, usage).Some?
    ensures Runs(log, WindowStart(cfg), WindowEnd(log, cfg), Plan(log, cfg, usage).value, i, j)
  {
    DropRangeMeaning(log, WindowStart(cfg), WindowEnd(log, cfg));
    i, j :| Runs(log, WindowStart(cfg), WindowEnd(log, cfg), Plan(log, cfg, usage).value, i, j);
  }

  /** The first and the last turn of a planned range. */
  lemma PlanEnds(log: Log, cfg: Config, usage: Option<nat>) returns (i: nat, j: nat)
    requires Plan(log, cfg, usage).Some?
    ensures WindowStart(cfg) <= i <= j < WindowEnd(log, cfg) <= |StartsOf(log)|
    ensures Plan(log, cfg, usage).value == Range(SpanOf(log, i).first, SpanOf(log, j).last)
  {
    i, j := PlanMeaning(log, cfg, usage);
  }

  /** A planned range starts a kept-out-of-window turn and ends before the first turn to keep. */
  lemma PlanStaysInWindow(log: Log, base: nat, cfg: Config, usage: Option<nat>)
    requires Numbered(log, base) && Plan(log, cfg, usage).Some?
    ensures var r, starts := Plan(log, cfg, usage).value, StartsOf(log);
            base <= r.first <= r.last < Next(log, base) && OpensTurn(At(log, base, r.first)) &&
            (cfg.keepRecentTurns > 0 ==>
               cfg.keepRecentTurns < |starts| && r.last < starts[|starts| - cfg.keepRecentTurns]) &&
            (cfg.keepFirstUser ==> |starts| > 1 && starts[1] <= r.first)
  {
    var i, j := PlanEnds(log, cfg, usage);
    RunIsOrdered(log, base, i, j);
    if cfg.keepRecentTurns > 0 { SpansInOrder(log, base, j, |StartsOf(log)| - cfg.keepRecentTurns); }
    if cfg.keepFirstUser { StartsIncrease(log, base, 1, i); }
  }

  lemma RunIsOrdered(log: Log, base: nat, i: nat, j: nat)
    requires Numbered(log, base) && i <= j < |StartsOf(log)|
    ensures var first, last := SpanOf(log, i).first, SpanOf(log, j).last;
            first == StartsOf(log)[i] && base <= first <= last < Next(log, base) && OpensTurn(At(log, base, first))
  {
    StartsArePositions(log, base);
    SpanMeaning(log, base, i);
    SpanMeaning(log, base, j);
    if i < j { SpansInOrder(log, base, i, j); }
  }

  // ----- the recorder's range invariants -----

  lemma {:induction false} FindCompactionConcat(a: Log, b: Log, turn: TurnId)
    ensures FindCompaction(a + b, turn) ==
            if FindCompaction(a, turn).Some? then FindCompaction(a, turn) else FindCompaction(b, turn)
  {
    if a == [] {
      assert a + b == b;
    } else {
      assert (a + b)[1..] == a[1..] + b;
      FindCompactionConcat(a[1..], b, turn);
    }
  }

  lemma {:induction false} NoCompactionFound(log: Log, turn: TurnId)
    requires FindCompaction(log, turn) == None
    ensures forall e :: e in log ==> !(e.payload.ContextCompacted? && e.payload.forTurn == turn)
  {
    if log != [] {
      assert log == [log[0]] + log[1..];
      NoCompactionFound(log[1..], turn);
    }
  }

  lemma {:induction false} EndsBeforeBreak(log: Log, last: nat)
    requires forall i :: 0 <= i < |log| ==> log[i].seqNo == log[0].seqNo + i
    requires log != [] ==> log[0].seqNo <= last + 1
    requires forall e :: e in log && e.seqNo == last + 1 ==> e.payload.TurnStarted? || e.payload.ContextManageEntered?
    ensures Recorder.EndsTurn(log, last)
  {
    if log != [] && log[0].seqNo <= last {
      if |log| > 1 { assert log[1].seqNo == log[0].seqNo + 1; }
      EndsBeforeBreak(log[1..], last);
    }
  }

  lemma {:induction false} EndsTurnBehind(head: Log, log: Log, last: nat)
    requires forall e :: e in head ==> e.seqNo <= last
    ensures Recorder.EndsTurn(head + log, last) == Recorder.EndsTurn(log, last)
  {
    if head == [] {
      assert head + log == log;
    } else {
      assert (head + log)[1..] == head[1..] + log;
      EndsTurnBehind(head[1..], log, last);
    }
  }

  lemma RangeEndsTurn(log: Log, base: nat, cfg: Config, usage: Option<nat>)
    requires Numbered(log, base) && Plan(log, cfg, usage).Some?
    ensures Recorder.EndsTurn(log, Plan(log, cfg, usage).value.last)
  {
    var r := Plan(log, cfg, usage).value;
    PlanStaysInWindow(log, base, cfg, usage);
    var i, j := PlanMeaning(log, cfg, usage);
    SpanMeaning(log, base, j);
    forall e | e in log && e.seqNo == r.last + 1 ensures e.payload.TurnStarted? || e.payload.ContextManageEntered? {
      var x :| 0 <= x < |log| && log[x] == e;
      assert e == At(log, base, r.last + 1);
    }
    EndsBeforeBreak(log, r.last);
  }

  /** What the recorder asks of a range, as facts about the log. */
  lemma Unrefused(log: Log, turn: TurnId, first: nat, last: nat)
    requires first <= last < |log| && log[first].seqNo == first && log[first].payload.TurnStarted?
    requires Recorder.EndsTurn(log, last)
    requires forall i :: 0 <= i < |log| ==> !(log[i].payload.ContextCompacted? && log[i].payload.forTurn == turn)
    ensures Recorder.RefusalOf(log, turn, first, last) == 0
  {
  }

  lemma HistoryNumbered(opening: Log, history: Log)
    requires Numbered(opening + history, 0)
    ensures Numbered(history, |opening|) && forall e :: e in opening ==> e.seqNo < |opening|
  {
    var log := opening + history;
    assert forall i :: 0 <= i < |history| ==> history[i] == log[|opening| + i];
    assert forall i :: 0 <= i < |opening| ==> opening[i] == log[i];
  }

  lemma NotYetCompacted(opening: Log, history: Log, turn: TurnId)
    requires (forall e :: e in opening ==> !e.payload.ContextCompacted?) && FindCompaction(history, turn) == None
    ensures var log := opening + history;
            forall i :: 0 <= i < |log| ==> !(log[i].payload.ContextCompacted? && log[i].payload.forTurn == turn)
  {
    NoCompactionFound(history, turn);
    var log := opening + history;
    assert forall i :: 0 <= i < |log| ==> log[i] in opening || log[i] in history;
  }

  /**
   The recorder, which has the whole log, never refuses a range the compactor plans on the
   history the store hands it, the log without the session's opening events.
   */
  lemma PlanPassesRecorder(opening: Log, history: Log, cfg: Config, usage: Option<nat>, turn: TurnId)
    requires Numbered(opening + history, 0) && forall e :: e in opening ==> !e.payload.ContextCompacted?
    requires Plan(history, cfg, usage).Some? && FindCompaction(history, turn) == None
    ensures var r := Plan(history, cfg, usage).value; Recorder.RefusalOf(opening + history, turn, r.first, r.last) == 0
  {
    var log, base, r := opening + history, |opening|, Plan(history, cfg, usage).value;
    HistoryNumbered(opening, history);
    PlanStaysInWindow(history, base, cfg, usage);
    assert log[r.first] == At(history, base, r.first);
    RangeEndsTurn(history, base, cfg, usage);
    EndsTurnBehind(opening, history, r.last);
    NotYetCompacted(opening, history, turn);
    Unrefused(log, turn, r.first, r.last);
  }

  // ----- progress and convergence -----

  /** Every planned range hides something that was visible. */
  lemma PlanMakesProgress(log: Log, base: nat, cfg: Config, usage: Option<nat>)
    requires Numbered(log, base) && Plan(log, cfg, usage).Some?
    ensures var r := Plan(log, cfg, usage).value; exists s: nat :: r.first <= s <= r.last && !Covered(log, s)
  {
    var r := Plan(log, cfg, usage).value;
    var i, j := PlanMeaning(log, cfg, usage);
    if i < j { RunIsOrdered(log, base, j, j); SpansInOrder(log, base, i, j); }
    var s: nat :| SpanOf(log, i).first <= s <= SpanOf(log, i).last && !Covered(log, s);
    assert r.first <= s <= r.last;
  }

  /** `later` is `log`, then the compaction `c` of the range `r` drawn from the window, then `more`. */
  ghost predicate Cut(log: Log, base: nat, from: nat, end: nat, r: Range, c: Event, more: Log, later: Log) {
    end <= |StartsOf(log)| && HasEnds(log, from, end, r) &&
    c.payload.ContextCompacted? && c.payload.first == r.first && c.payload.last == r.last &&
    later == log + ([c] + more) && Numbered(log, base) && Numbered(later, base)
  }

  lemma InWindowInRange(log: Log, base: nat, from: nat, end: nat, r: Range, t: nat, s: nat)
    requires Numbered(log, base) && end <= |StartsOf(log)| && HasEnds(log, from, end, r) && from <= t < end
    requires SpanOf(log, t).first <= s <= SpanOf(log, t).last
    ensures Covered(log, s) || r.first <= s <= r.last
  {
    var i: nat, j: nat :| Runs(log, from, end, r, i, j);
    if t < i || t > j {
      assert FullyCovered(log, SpanOf(log, t));
    } else {
      SpansNest(log, base, i, j, t);
    }
  }

  lemma SpansNest(log: Log, base: nat, i: nat, j: nat, t: nat)
    requires Numbered(log, base) && i <= t <= j < |StartsOf(log)|
    ensures SpanOf(log, i).first <= SpanOf(log, t).first && SpanOf(log, t).last <= SpanOf(log, j).last
  {
    StartsArePositions(log, base);
    SpanMeaning(log, base, j);
    if t < j { SpansInOrder(log, base, t, j); }
  }

  lemma NowCovered(log: Log, base: nat, from: nat, end: nat, r: Range, c: Event, more: Log, later: Log, s: nat)
    requires Cut(log, base, from, end, r, c, more, later) && (Covered(log, s) || r.first <= s <= r.last)
    ensures Covered(later, s)
  {
    CoveredConcat(log, [c] + more, s);
    assert ([c] + more)[0] == c;
    if r.first <= s <= r.last { assert Hides(([c] + more)[0].payload, s); }
  }

  /** Once a call has written, every closed turn span that was in the window is hidden, for good. */
  lemma WindowStaysCovered(log: Log, base: nat, from: nat, end: nat, r: Range, c: Event, more: Log, later: Log, t: nat)
    requires Cut(log, base, from, end, r, c, more, later) && from <= t < end && SpanOf(log, t).last + 1 < Next(log, base)
    ensures t < |StartsOf(later)| && FullyCovered(later, SpanOf(later, t))
  {
    SpanStable(log, base, [c] + more, t);
    forall s: nat | SpanOf(log, t).first <= s <= SpanOf(log, t).last ensures Covered(later, s) {
      InWindowInRange(log, base, from, end, r, t, s);
      NowCovered(log, base, from, end, r, c, more, later, s);
    }
  }

  lemma NothingLeft(log: Log, from: nat, end: nat)
    requires end <= |StartsOf(log)| && WindowCovered(log, from, end)
    ensures DropRange(log, from, end) == None
  {
    DropRangeMeaning(log, from, end);
    forall r, i: nat, j: nat ensures !Runs(log, from, end, r, i, j) {}
  }

  lemma SomethingLeft(log: Log, from: nat, end: nat, t: nat)
    requires end <= |StartsOf(log)| && from <= t < end && !FullyCovered(log, SpanOf(log, t))
    ensures DropRange(log, from, end).Some?
  {
    DropRangeMeaning(log, from, end);
  }

  /** The log after a call wrote its compaction and `more` was appended. */
  ghost predicate Compacted(log: Log, base: nat, cfg: Config, usage: Option<nat>, c: Event, more: Log, later: Log) {
    Plan(log, cfg, usage).Some? && c.payload.ContextCompacted? &&
    c.payload == Compaction(log, c.payload.forTurn, usage, Plan(log, cfg, usage).value) &&
    later == log + ([c] + more) && Numbered(later, base)
  }

  lemma CompactedCuts(log: Log, base: nat, cfg: Config, usage: Option<nat>, c: Event, more: Log, later: Log)
    requires Compacted(log, base, cfg, usage, c, more, later)
    ensures Cut(log, base, WindowStart(cfg), WindowEnd(log, cfg), Plan(log, cfg, usage).value, c, more, later)
    ensures StartsOf(log) <= StartsOf(later)
  {
    assert forall i :: 0 <= i < |log| ==> later[i] == log[i];
    StartsGrow(log, [c] + more);
    DropRangeMeaning(log, WindowStart(cfg), WindowEnd(log, cfg));
  }

  lemma StartsUnchanged(log: Log, c: Event, more: Log)
    requires !OpensTurn(c) && forall i :: 0 <= i < |more| ==> !OpensTurn(more[i])
    ensures StartsOf(log + ([c] + more)) == StartsOf(log)
  {
    assert forall i :: 0 <= i < |[c] + more| ==> ([c] + more)[i] == if i == 0 then c else more[i - 1];
    StartsGrow(log, [c] + more);
  }

  /**
   After a compaction, and until a new turn starts, another call for any turn writes
   nothing, provided at least one recent turn is kept. A repeat call for the same turn
   returns the same descriptor.
   */
  lemma CompactionConverges(log: Log, base: nat, cfg: Config, usage: Option<nat>, c: Event, more: Log, later: Log, again: Option<nat>)
    requires Compacted(log, base, cfg, usage, c, more, later) && cfg.keepRecentTurns > 0
    requires forall i :: 0 <= i < |more| ==> !OpensTurn(more[i])
    ensures Plan(later, cfg, again) == None
    ensures var turn := c.payload.forTurn;
            FindCompaction(log, turn) == None ==>
              FindCompaction(later, turn) == Some(Applied(c.id, Plan(log, cfg, usage).value))
  {
    CompactedCuts(log, base, cfg, usage, c, more, later);
    StartsUnchanged(log, c, more);
    var from, end, r := WindowStart(cfg), WindowEnd(log, cfg), Plan(log, cfg, usage).value;
    forall t | from <= t < end ensures FullyCovered(later, SpanOf(later, t)) {
      SpansInOrder(log, base, t, t + 1);
      WindowStaysCovered(log, base, from, end, r, c, more, later, t);
    }
    NothingLeft(later, from, end);
    FindCompactionConcat(log, [c] + more, c.payload.forTurn);
  }

  lemma ClosedTurnConverges(log: Log, base: nat, cfg: Config, usage: Option<nat>, c: Event, later: Log, again: Option<nat>)
    requires Compacted(log, base, cfg, usage, c, [], later) && cfg.keepRecentTurns == 0 && StartsOf(log) != []
    requires SpanOf(log, |StartsOf(log)| - 1).last + 1 < Next(log, base)
    ensures Plan(later, cfg, again) == None
  {
    CompactedCuts(log, base, cfg, usage, c, [], later);
    StartsUnchanged(log, c, []);
    var from, n, r := WindowStart(cfg), |StartsOf(log)|, Plan(log, cfg, usage).value;
    forall t | from <= t < n ensures FullyCovered(later, SpanOf(later, t)) {
      if t < n - 1 { SpansInOrder(log, base, t, n - 1); }
      WindowStaysCovered(log, base, from, n, r, c, [], later, t);
    }
    NothingLeft(later, from, n);
  }

  lemma OpenTurnRepeats(log: Log, base: nat, cfg: Config, usage: Option<nat>, c: Event, later: Log)
    requires Compacted(log, base, cfg, usage, c, [], later) && cfg.keepRecentTurns == 0
    requires StartsOf(log) != [] && WindowStart(cfg) < |StartsOf(log)|
    requires SpanOf(log, |StartsOf(log)| - 1).last + 1 >= Next(log, base) && !Covered(log, Next(log, base))
    ensures DropRange(later, WindowStart(cfg), WindowEnd(later, cfg)).Some?
  {
    CompactedCuts(log, base, cfg, usage, c, [], later);
    StartsUnchanged(log, c, []);
    PlanStaysInWindow(log, base, cfg, usage);
    assert [c] + [] == [c];
    OpenSpanGrows(log, base, c, later);
    CoveredSnoc(log, c, Next(log, base));
    SomethingLeft(later, WindowStart(cfg), |StartsOf(log)|, |StartsOf(log)| - 1);
  }

  /**
   With no recent turn kept, a repeat call still finds nothing exactly when the last turn
   has already entered a context pass; otherwise the compaction event itself falls into
   that turn's span.
   */
  lemma ConvergesWithoutRecentTurns(log: Log, base: nat, cfg: Config, usage: Option<nat>, c: Event, later: Log, again: Option<nat>)
    requires Compacted(log, base, cfg, usage, c, [], later) && cfg.keepRecentTurns == 0
    requires cfg.maxTokens.Some? && Estimated(later, again) >= cfg.maxTokens.value
    requires !Covered(log, Next(log, base))
    ensures |StartsOf(log)| > 0 &&
            (Plan(later, cfg, again) == None <==> SpanOf(log, |StartsOf(log)| - 1).last + 1 < Next(log, base))
  {
    var i, j := PlanMeaning(log, cfg, usage);
    if SpanOf(log, |StartsOf(log)| - 1).last + 1 < Next(log, base) {
      ClosedTurnConverges(log, base, cfg, usage, c, later, again);
    } else {
      OpenTurnRepeats(log, base, cfg, usage, c, later);
    }
  }

  /** One turn without a context pass, compacted with nothing to keep: the call repeats itself on its own event. */
  lemma RepeatsItself(turn: TurnId, again: TurnId, input: seq<ContentBlock>)
    ensures var cfg := Config(Some(0), false, 0);
            var log := [Event(SCHEMA_VERSION, 1, Some(turn), 1, TurnStarted(input, []))];
            Plan(log, cfg, None) == Some(Range(1, 1)) &&
            var c := Event(SCHEMA_VERSION, 2, Some(turn), 2, Compaction(log, turn, None, Range(1, 1)));
            Plan(log + [c], cfg, None).Some?
  {
    var cfg := Config(Some(0), false, 0);
    var log := [Event(SCHEMA_VERSION, 1, Some(turn), 1, TurnStarted(input, []))];
    assert DropLast(log) == [] && StartsOf(log) == [1] && FindContextPass(log, 1, None) == None;
    assert LargestBetween([], 1, U64_MAX) == 1 && SpanOf(log, 0) == Range(1, 1);
    assert !Covered(log, 1) && !FullyCovered(log, SpanOf(log, 0));
    assert DropRange(log, 0, 0) == None && DropRange(log, 0, 1) == Some(Range(1, 1));
    var c := Event(SCHEMA_VERSION, 2, Some(turn), 2, Compaction(log, turn, None, Range(1, 1)));
    assert [c] + [] == [c];
    assert Compacted(log, 1, cfg, None, c, [], log + [c]);
    ConvergesWithoutRecentTurns(log, 1, cfg, None, c, log + [c], None);
  }

  lemma OpenSpanGrows(log: Log, base: nat, c: Event, later: Log)
    requires later == log + [c] && Numbered(later, base) && Numbered(log, base) && !Breaks(c) && StartsOf(later) == StartsOf(log) != []
    requires SpanOf(log, |StartsOf(log)| - 1).last + 1 >= Next(log, base)
    ensures SpanOf(later, |StartsOf(log)| - 1).last == Next(log, base)
    ensures SpanOf(later, |StartsOf(log)| - 1).first <= Next(log, base)
  {
    var n := |StartsOf(log)|;
    SpanMeaning(log, base, n - 1);
    SpanMeaning(later, base, n - 1);
    assert forall x :: base <= x < Next(log, base) ==> At(later, base, x) == At(log, base, x);
    assert At(later, base, Next(log, base)) == c;
    assert IsSpan(later, base, StartsOf(log)[n - 1], Next(log, base));
    SpanIsUnique(later, base, StartsOf(log)[n - 1], Next(log, base), SpanOf(later, n - 1).last);
  }

  /** The recorded `after` estimate exceeds the estimate recomputed on the compacted log by at most one. */
  lemma AfterEstimate(log: Log, c: Event, r: Range, turn: TurnId)
    requires c.payload == Compaction(log, turn, None, r)
    ensures c.payload.after.value <= EstimateVisibleTokens(log + [c]) + 1
  {
    assert DropLast(log + [c]) == log;
    StillVisible(log, c, r, log);
  }

  /** What a range takes away from the visible characters is at most what it contains. */
  lemma {:induction false} StillVisible(whole: Log, c: Event, r: Range, log: Log)
    requires c.payload.ContextCompacted? && c.payload.first == r.first && c.payload.last == r.last
    ensures VisibleChars(whole + [c], log) + CharsIn(log, r) >= VisibleChars(whole, log)
  {
    if log != [] {
      StillVisible(whole, c, r, DropLast(log));
      CoveredSnoc(whole, c, LastOf(log).seqNo);
    }
  }

  // ----- runs of growing logs -----

  ghost predicate WrittenAs(log: Log, base: nat, cfg: Config, i: nat, usage: Option<nat>)
    requires i < |log|
  {
    Compacted(log[..i], base, cfg, usage, log[i], log[i + 1..], log)
  }

  /** Every compaction in the log was written by a call on the log as it was then. */
  ghost predicate ByCompactor(log: Log, base: nat, cfg: Config) {
    Numbered(log, base) &&
    forall i :: 0 <= i < |log| && log[i].payload.ContextCompacted? ==> exists usage :: WrittenAs(log, base, cfg, i, usage)
  }

  lemma WrittenStays(log: Log, base: nat, e: Event, cfg: Config, i: nat, usage: Option<nat>)
    requires i < |log| && WrittenAs(log, base, cfg, i, usage) && Numbered(log + [e], base)
    ensures WrittenAs(log + [e], base, cfg, i, usage)
  {
    var later := log + [e];
    assert later[..i] == log[..i] && later[i] == log[i];
    assert later == later[..i] + ([later[i]] + later[i + 1..]);
  }

  lemma JustWritten(log: Log, base: nat, e: Event, cfg: Config, usage: Option<nat>)
    requires Numbered(log + [e], base) && Plan(log, cfg, usage).Some? && e.payload.ContextCompacted?
    requires e.payload == Compaction(log, e.payload.forTurn, usage, Plan(log, cfg, usage).value)
    ensures WrittenAs(log + [e], base, cfg, |log|, usage)
  {
    var later := log + [e];
    assert later[..|log|] == log && later[|log| + 1..] == [] && [e] + [] == [e];
  }

  /** Runs are closed under calls, at any moment and for any turn, and under every other event. */
  lemma RunsGoOn(log: Log, base: nat, e: Event, cfg: Config, usage: Option<nat>)
    requires ByCompactor(log, base, cfg) && Numbered(log + [e], base)
    requires e.payload.ContextCompacted? ==>
               Plan(log, cfg, usage).Some? &&
               e.payload == Compaction(log, e.payload.forTurn, usage, Plan(log, cfg, usage).value)
    ensures ByCompactor(log + [e], base, cfg)
  {
    var later := log + [e];
    forall i | 0 <= i < |later| && later[i].payload.ContextCompacted? ensures exists u :: WrittenAs(later, base, cfg, i, u) {
      if i < |log| {
        var u :| WrittenAs(log, base, cfg, i, u);
        WrittenStays(log, base, e, cfg, i, u);
      } else {
        JustWritten(log, base, e, cfg, usage);
      }
    }
  }

  /** Strictly before the oldest recent turn to keep, and behind the first turn if that is kept. */
  predicate InWindow(starts: seq<nat>, cfg: Config, r: Range) {
    0 < cfg.keepRecentTurns < |starts| && r.last < starts[|starts| - cfg.keepRecentTurns] &&
    (cfg.keepFirstUser ==> |starts| > 1 && starts[1] <= r.first)
  }

  lemma WindowMovesOn(was: seq<nat>, starts: seq<nat>, cfg: Config, r: Range)
    requires was <= starts && InWindow(was, cfg, r)
    requires forall i, j :: 0 <= i < j < |starts| ==> starts[i] < starts[j]
    ensures InWindow(starts, cfg, r)
  {
    var k := cfg.keepRecentTurns;
    assert was[|was| - k] == starts[|was| - k];
    assert cfg.keepFirstUser ==> starts[1] == was[1];
  }

  lemma PlanInWindow(log: Log, base: nat, cfg: Config, usage: Option<nat>)
    requires Numbered(log, base) && Plan(log, cfg, usage).Some? && cfg.keepRecentTurns > 0
    ensures InWindow(StartsOf(log), cfg, Plan(log, cfg, usage).value)
  {
    PlanStaysInWindow(log, base, cfg, usage);
  }

  lemma WrittenStaysOld(log: Log, base: nat, cfg: Config, i: nat, usage: Option<nat>)
    requires i < |log| && WrittenAs(log, base, cfg, i, usage) && cfg.keepRecentTurns > 0
    ensures InWindow(StartsOf(log), cfg, Range(log[i].payload.first, log[i].payload.last))
  {
    var pre := log[..i];
    CompactedCuts(pre, base, cfg, usage, log[i], log[i + 1..], log);
    PlanInWindow(pre, base, cfg, usage);
    StartsArePositions(log, base);
    WindowMovesOn(StartsOf(pre), StartsOf(log), cfg, Plan(pre, cfg, usage).value);
  }

  /**
   Over any run of growing logs and repeated compactions, what is hidden lies strictly
   before the start of the oldest of the `keepRecentTurns` latest turns, and outside the
   first turn when that one is kept.
   */
  lemma HiddenIsOld(log: Log, base: nat, cfg: Config, s: nat)
    requires ByCompactor(log, base, cfg) && Covered(log, s) && cfg.keepRecentTurns > 0
    ensures InWindow(StartsOf(log), cfg, Range(s, s))
  {
    var i :| 0 <= i < |log| && Hides(log[i].payload, s);
    CompactionStaysOld(log, base, cfg, i);
  }

  lemma CompactionStaysOld(log: Log, base: nat, cfg: Config, i: nat)
    requires i < |log| && log[i].payload.ContextCompacted? && ByCompactor(log, base, cfg) && cfg.keepRecentTurns > 0
    ensures InWindow(StartsOf(log), cfg, Range(log[i].payload.first, log[i].payload.last))
  {
    var usage :| WrittenAs(log, base, cfg, i, usage);
    WrittenStaysOld(log, base, cfg, i, usage);
  }

  /** A later range starts behind every turn of a window that an earlier one has hidden. */
  lemma LaterStartsLater(log: Log, base: nat, from: nat, end: nat, r: Range, c: Event, more: Log, later: Log,
                         end': nat, r': Range, i: nat, j: nat)
    requires Cut(log, base, from, end, r, c, more, later) && end < |StartsOf(log)| <= |StartsOf(later)|
    requires end' <= |StartsOf(later)| && Runs(later, from, end', r', i, j)
    ensures i >= end && StartsOf(later)[end] <= r'.first
  {
    if i < end {
      SpansInOrder(log, base, i, end);
      WindowStaysCovered(log, base, from, end, r, c, more, later, i);
      assert false;
    }
    SpanMeaning(later, base, i);
    StartsArePositions(later, base);
  }

  lemma LaterPlanStartsLater(log: Log, base: nat, cfg: Config, usage: Option<nat>, c: Event, more: Log, later: Log, again: Option<nat>)
    returns (i: nat, j: nat)
    requires Compacted(log, base, cfg, usage, c, more, later) && cfg.keepRecentTurns > 0 && Plan(later, cfg, again).Some?
    ensures Runs(later, WindowStart(cfg), WindowEnd(later, cfg), Plan(later, cfg, again).value, i, j)
    ensures var end := WindowEnd(log, cfg);
            end < |StartsOf(log)| && i >= end && StartsOf(log)[end] <= Plan(later, cfg, again).value.first
  {
    CompactedCuts(log, base, cfg, usage, c, more, later);
    i, j := PlanMeaning(later, cfg, again);
    var from, end := WindowStart(cfg), WindowEnd(log, cfg);
    var i0, j0 := PlanMeaning(log, cfg, usage);
    LaterStartsLater(log, base, from, end, Plan(log, cfg, usage).value, c, more, later,
                     WindowEnd(later, cfg), Plan(later, cfg, again).value, i, j);
    assert StartsOf(later)[end] == StartsOf(log)[end];
  }

  /** Behind `after`, up to `s`, no turn opens. */
  predicate NoTurnOpens(log: Log, base: nat, after: nat, s: nat) {
    forall y :: after < y <= s && base <= y < Next(log, base) ==> !OpensTurn(At(log, base, y))
  }

  /** The first turn kept starts behind anything between the range and the next turn. */
  lemma StartBehind(log: Log, base: nat, cfg: Config, usage: Option<nat>, x: nat)
    requires Numbered(log, base) && Plan(log, cfg, usage).Some? && cfg.keepRecentTurns > 0
    requires Plan(log, cfg, usage).value.last < x < Next(log, base)
    requires NoTurnOpens(log, base, Plan(log, cfg, usage).value.last, x)
    ensures WindowEnd(log, cfg) < |StartsOf(log)| && x < StartsOf(log)[WindowEnd(log, cfg)]
  {
    PlanStaysInWindow(log, base, cfg, usage);
    StartBeyond(log, base, Plan(log, cfg, usage).value.last, x, WindowEnd(log, cfg));
  }

  lemma StartBeyond(log: Log, base: nat, last: nat, x: nat, i: nat)
    requires Numbered(log, base) && i < |StartsOf(log)| && last < StartsOf(log)[i] && NoTurnOpens(log, base, last, x)
    ensures x < StartsOf(log)[i]
  {
    StartsArePositions(log, base);
    var s := StartsOf(log)[i];
    assert At(log, base, s) == log[s - base];
  }

  lemma LaterHidesNothingBehind(log: Log, base: nat, cfg: Config, usage: Option<nat>, c: Event, later: Log, m: nat, x: nat)
    requires |log| < m < |later| && Compacted(log, base, cfg, usage, c, later[|log| + 1..], later) && cfg.keepRecentTurns > 0
    requires later[m].payload.ContextCompacted? && exists again :: WrittenAs(later, base, cfg, m, again)
    requires WindowEnd(log, cfg) < |StartsOf(log)| && x < StartsOf(log)[WindowEnd(log, cfg)]
    ensures !Hides(later[m].payload, x)
  {
    var again :| WrittenAs(later, base, cfg, m, again);
    var rest := later[|log| + 1..m];
    assert later[..m] == log + ([c] + rest);
    NumberedPrefix(later, base, m);
    var i, j := LaterPlanStartsLater(log, base, cfg, usage, c, rest, later[..m], again);
  }

  /**
   The body of the last dropped turn, behind its first context pass, is left over: what
   of it is still visible when the range is written stays visible in every later log.
   */
  lemma LeftoverForever(log: Log, base: nat, cfg: Config, usage: Option<nat>, c: Event, more: Log, later: Log, x: nat)
    requires Compacted(log, base, cfg, usage, c, more, later) && ByCompactor(later, base, cfg) && cfg.keepRecentTurns > 0
    requires Plan(log, cfg, usage).value.last < x < Next(log, base) && !Covered(log, x)
    requires NoTurnOpens(log, base, Plan(log, cfg, usage).value.last, x)
    ensures !Covered(later, x)
  {
    CompactedCuts(log, base, cfg, usage, c, more, later);
    StartBehind(log, base, cfg, usage, x);
    assert later[|log| + 1..] == more;
    forall m | 0 <= m < |later| ensures !Hides(later[m].payload, x) {
      if m < |log| {
        assert later[m] == log[m];
      } else if m == |log| {
        assert later[m] == c;
      } else if later[m].payload.ContextCompacted? {
        LaterHidesNothingBehind(log, base, cfg, usage, c, later, m, x);
      }
    }
  }

  /**
   The steady state: when one more turn has left the window since the last compaction, the
   next one hides just that turn's span; if its context pass came right behind its start,
   that is the user message alone.
   */
  lemma SteadyState(log: Log, base: nat, cfg: Config, usage: Option<nat>, c: Event, more: Log, later: Log, again: Option<nat>)
    requires Compacted(log, base, cfg, usage, c, more, later) && cfg.keepRecentTurns > 0 && Plan(later, cfg, again).Some?
    requires |StartsOf(later)| == |StartsOf(log)| + 1
    ensures var r, end := Plan(later, cfg, again).value, WindowEnd(log, cfg);
            end < |StartsOf(later)| && r == SpanOf(later, end) &&
            base <= r.first &&
            (r.first + 1 < Next(later, base) && At(later, base, r.first + 1).payload.ContextManageEntered? ==> r.last == r.first)
  {
    var i, j := LaterPlanStartsLater(log, base, cfg, usage, c, more, later, again);
    SpanMeaning(later, base, i);
  }
}
