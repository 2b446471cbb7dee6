/** The compactor and the projector together: what a compaction leaves of the prompt. */
module CompactedProjection {
  import opened Wrappers
  import opened Events
  import opened Coverage
  import opened Compactor
  import opened CompactorRuns
  import opened Projector
  import opened Faithful

  lemma VisibleEnd(whole: Log, log: Log, e: Event)
    ensures Visible(whole, log + [e]) ==
            if Covered(whole, e.seqNo) then Visible(whole, log) else Visible(whole, log) + [e.payload]
  {
    assert DropLast(log + [e]) == log;
  }

  lemma {:induction false} VisibleConcat(whole: Log, a: Log, b: Log)
    ensures Visible(whole, a + b) == Visible(whole, a) + Visible(whole, b)
  {
    if b == [] {
      assert a + b == a;
    } else {
      var pre, e := DropLast(b), LastOf(b);
      VisibleConcat(whole, a, pre);
      VisibleEnd(whole, a + pre, e);
      Snoc(b);
      Assoc(a, pre, [e]);
      Assoc(Visible(whole, a), Visible(whole, pre), [e.payload]);
    }
  }

  /** Only what the two logs hide among these events matters. */
  lemma {:induction false} VisibleSame(a: Log, b: Log, log: Log)
    requires forall i :: 0 <= i < |log| ==> (Covered(a, log[i].seqNo) <==> Covered(b, log[i].seqNo))
    ensures Visible(a, log) == Visible(b, log)
  {
    if log != [] {
      assert forall i :: 0 <= i < |log| - 1 ==> DropLast(log)[i] == log[i];
      VisibleSame(a, b, DropLast(log));
    }
  }

  lemma {:induction false} VisibleNone(whole: Log, log: Log)
    requires forall i :: 0 <= i < |log| ==> Covered(whole, log[i].seqNo)
    ensures Visible(whole, log) == []
  {
    if log != [] {
      assert forall i :: 0 <= i < |log| - 1 ==> DropLast(log)[i] == log[i];
      VisibleNone(whole, DropLast(log));
    }
  }

  predicate Drops(c: Event, r: Range) {
    c.payload.ContextCompacted? && c.payload.first == r.first && c.payload.last == r.last && c.payload.replacement.Drop?
  }

  /** The range names events of the log. */
  predicate Within(log: Log, base: nat, r: Range) {
    base <= r.first <= r.last < Next(log, base)
  }

  /** The log without the events of a range. */
  function Without(log: Log, base: nat, r: Range): Log
    requires Within(log, base, r)
  {
    log[..r.first - base] + log[r.last + 1 - base..]
  }

  lemma VisibleUncut(log: Log, c: Event, r: Range, part: Log)
    requires Drops(c, r) && forall i :: 0 <= i < |part| ==> !(r.first <= part[i].seqNo <= r.last)
    ensures Visible(log + [c], part) == Visible(log, part)
  {
    forall i | 0 <= i < |part| ensures Covered(log + [c], part[i].seqNo) <==> Covered(log, part[i].seqNo) {
      CoveredSnoc(log, c, part[i].seqNo);
    }
    VisibleSame(log + [c], log, part);
  }

  lemma InThreeParts(log: Log, base: nat, r: Range)
    requires Within(log, base, r)
    ensures log == log[..r.first - base] + (log[r.first - base..r.last + 1 - base] + log[r.last + 1 - base..])
  {
  }

  lemma HeadUncut(log: Log, base: nat, c: Event, r: Range)
    requires Numbered(log, base) && Within(log, base, r) && Drops(c, r)
    ensures Visible(log + [c], log[..r.first - base]) == Visible(log, log[..r.first - base])
  {
    VisibleUncut(log, c, r, log[..r.first - base]);
  }

  lemma TailUncut(log: Log, base: nat, c: Event, r: Range)
    requires Numbered(log, base) && Within(log, base, r) && Drops(c, r)
    ensures Visible(log + [c], log[r.last + 1 - base..]) == Visible(log, log[r.last + 1 - base..])
  {
    var tail := log[r.last + 1 - base..];
    forall i | 0 <= i < |tail| ensures !(r.first <= tail[i].seqNo <= r.last) {
      assert tail[i] == log[r.last + 1 - base + i];
    }
    VisibleUncut(log, c, r, tail);
  }

  lemma MiddleCut(log: Log, base: nat, c: Event, r: Range)
    requires Numbered(log, base) && Within(log, base, r) && Drops(c, r)
    ensures Visible(log + [c], log[r.first - base..r.last + 1 - base]) == []
  {
    var mid := log[r.first - base..r.last + 1 - base];
    forall i | 0 <= i < |mid| ensures Covered(log + [c], mid[i].seqNo) {
      assert mid[i] == log[r.first - base + i];
      CoveredSnoc(log, c, mid[i].seqNo);
    }
    VisibleNone(log + [c], mid);
  }

  lemma DropParts(whole: Log, later: Log, log: Log, short: Log, a: Log, mid: Log, b: Log)
    requires log == a + (mid + b) && short == a + b
    requires Visible(later, a) == Visible(whole, a) && Visible(later, b) == Visible(whole, b) && Visible(later, mid) == []
    ensures Visible(later, log) == Visible(whole, short)
  {
    VisibleConcat(later, a, mid + b);
    VisibleConcat(later, mid, b);
    assert [] + Visible(later, b) == Visible(later, b);
    VisibleConcat(whole, a, b);
  }

  lemma CutParts(log: Log, base: nat, c: Event, r: Range, a: Log, mid: Log, b: Log)
    requires Numbered(log, base) && Within(log, base, r) && Drops(c, r)
    requires a == log[..r.first - base] && mid == log[r.first - base..r.last + 1 - base] && b == log[r.last + 1 - base..]
    ensures Visible(log + [c], a) == Visible(log, a) && Visible(log + [c], b) == Visible(log, b)
    ensures Visible(log + [c], mid) == []
  {
    HeadUncut(log, base, c, r);
    TailUncut(log, base, c, r);
    MiddleCut(log, base, c, r);
  }

  /** For what is visible, a drop is the deletion of its slice from the log. */
  lemma DropDeletesSlice(log: Log, base: nat, c: Event, r: Range)
    requires Numbered(log, base) && Within(log, base, r) && Drops(c, r)
    ensures Visible(log + [c], log) == Visible(log, Without(log, base, r))
  {
    DropSlice(log, base, c, r, log[..r.first - base], log[r.first - base..r.last + 1 - base], log[r.last + 1 - base..]);
  }

  lemma DropSlice(log: Log, base: nat, c: Event, r: Range, a: Log, mid: Log, b: Log)
    requires Numbered(log, base) && Within(log, base, r) && Drops(c, r)
    requires a == log[..r.first - base] && mid == log[r.first - base..r.last + 1 - base] && b == log[r.last + 1 - base..]
    ensures Visible(log + [c], log) == Visible(log, Without(log, base, r))
  {
    InThreeParts(log, base, r);
    CutParts(log, base, c, r, a, mid, b);
    DropParts(log, log + [c], log, Without(log, base, r), a, mid, b);
  }

  lemma DropAddsNothing(log: Log, c: Event, r: Range)
    requires Drops(c, r)
    ensures Messages(Visible(log + [c], log + [c])) == Messages(Visible(log + [c], log))
  {
    var ps := Visible(log + [c], log);
    assert DropLast(log + [c]) == log;
    if !Covered(log + [c], c.seqNo) {
      assert [c.payload] + [] == [c.payload];
      DropSplits(ps, c.payload, []);
      assert Messages([]) == [] && Messages(ps) + [] == Messages(ps);
    }
  }

  lemma SystemUnchanged(log: Log, c: Event, prompt: string, turn: TurnId)
    requires !c.payload.SystemPromptInjected?
    ensures SystemText(log + [c], prompt, turn) == SystemText(log, prompt, turn)
  {
    assert DropLast(log + [c]) == log;
  }

  /** Appending a drop projects like deleting its slice, system message included. */
  lemma CompactionDeletesSlice(log: Log, base: nat, c: Event, r: Range, prompt: string, turn: TurnId)
    requires Numbered(log, base) && Within(log, base, r) && Drops(c, r)
    ensures Projection(log + [c], prompt, turn) ==
            [System(SystemText(log, prompt, turn))] + Messages(Visible(log, Without(log, base, r)))
  {
    DropAddsNothing(log, c, r);
    DropDeletesSlice(log, base, c, r);
    SystemUnchanged(log, c, prompt, turn);
  }

  // ----- faithfulness -----

  /** Projecting around a visible turn start: both sides on their own, and its user message between them. */
  lemma TurnSplits(whole: Log, a: Log, e: Event, b: Log)
    requires e.payload.TurnStarted? && !Covered(whole, e.seqNo)
    ensures Messages(Visible(whole, a + ([e] + b))) ==
            (Messages(Visible(whole, a)) + [User(ExtractText(e.payload.userInput))]) + Messages(Visible(whole, b))
  {
    VisibleConcat(whole, a, [e] + b);
    VisibleConcat(whole, [e], b);
    assert DropLast([e]) == [] && Visible(whole, [e]) == [e.payload];
    CutSplits(Visible(whole, a), e.payload, Visible(whole, b));
  }

  /** The messages from a visible turn start on. */
  function From(whole: Log, log: Log, k: nat): seq<Message>
    requires k < |log| && log[k].payload.TurnStarted?
  {
    [User(ExtractText(log[k].payload.userInput))] + Messages(Visible(whole, log[k + 1..]))
  }

  /** The range lies before the event at position `k`. */
  predicate Before(log: Log, base: nat, r: Range, k: nat) {
    base <= r.first <= r.last < base + k < Next(log, base)
  }

  /** A drop that ends before a visible turn start leaves everything from there on alone. */
  lemma SuffixUnchanged(log: Log, base: nat, c: Event, r: Range, k: nat)
    requires Numbered(log, base) && Before(log, base, r, k) && Drops(c, r)
    requires log[k].payload.TurnStarted? && !Covered(log, base + k)
    ensures Messages(Visible(log, log)) == Messages(Visible(log, log[..k])) + From(log, log, k)
    ensures Messages(Visible(log, Without(log, base, r))) ==
            Messages(Visible(log, Without(log[..k], base, r))) + From(log, log, k)
  {
    SplitBehind(log, base, r, k);
    SuffixOf(log, log, k, log[..k], log);
    SuffixOf(log, log, k, Without(log[..k], base, r), Without(log, base, r));
  }

  lemma SuffixOf(whole: Log, log: Log, k: nat, head: Log, all: Log)
    requires k < |log| && log[k].payload.TurnStarted? && !Covered(whole, log[k].seqNo)
    requires all == head + ([log[k]] + log[k + 1..])
    ensures Messages(Visible(whole, all)) == Messages(Visible(whole, head)) + From(whole, log, k)
  {
    SuffixAfter(whole, head, log[k], log[k + 1..]);
  }

  lemma SuffixAfter(whole: Log, head: Log, e: Event, rest: Log)
    requires e.payload.TurnStarted? && !Covered(whole, e.seqNo)
    ensures Messages(Visible(whole, head + ([e] + rest))) ==
            Messages(Visible(whole, head)) + ([User(ExtractText(e.payload.userInput))] + Messages(Visible(whole, rest)))
  {
    TurnSplits(whole, head, e, rest);
    Assoc(Messages(Visible(whole, head)), [User(ExtractText(e.payload.userInput))], Messages(Visible(whole, rest)));
  }

  lemma SplitBehind(log: Log, base: nat, r: Range, k: nat)
    requires Before(log, base, r, k)
    ensures log == log[..k] + ([log[k]] + log[k + 1..])
    ensures Without(log, base, r) == Without(log[..k], base, r) + ([log[k]] + log[k + 1..])
  {
  }

  lemma HeadIsPrefix(whole: Log, a: Log, e: Event, b: Log)
    requires e.payload.TurnStarted? && !Covered(whole, e.seqNo)
    ensures Messages(Visible(whole, a)) + [User(ExtractText(e.payload.userInput))] <= Messages(Visible(whole, a + ([e] + b)))
  {
    TurnSplits(whole, a, e, b);
  }

  /** A drop that begins after a visible turn start leaves everything up to its user message alone. */
  lemma PrefixUnchanged(log: Log, base: nat, r: Range, k: nat)
    requires Numbered(log, base) && Within(log, base, r) && base + k < r.first
    requires log[k].payload.TurnStarted? && !Covered(log, base + k)
    ensures var head := Messages(Visible(log, log[..k])) + [User(ExtractText(log[k].payload.userInput))];
            head <= Messages(Visible(log, log)) && head <= Messages(Visible(log, Without(log, base, r)))
  {
    SplitAt(log, base, r, k);
    HeadIsPrefix(log, log[..k], log[k], log[k + 1..]);
    HeadIsPrefix(log, log[..k], log[k], log[k + 1..r.first - base] + log[r.last + 1 - base..]);
  }

  lemma SplitAt(log: Log, base: nat, r: Range, k: nat)
    requires Within(log, base, r) && base + k < r.first
    ensures log == log[..k] + ([log[k]] + log[k + 1..])
    ensures Without(log, base, r) == log[..k] + ([log[k]] + (log[k + 1..r.first - base] + log[r.last + 1 - base..]))
  {
  }

  lemma RecentVisible(log: Log, base: nat, cfg: Config, s: nat)
    requires ByCompactor(log, base, cfg)
    requires 0 < cfg.keepRecentTurns <= |StartsOf(log)| && s == StartsOf(log)[|StartsOf(log)| - cfg.keepRecentTurns]
    ensures !Covered(log, s)
  {
    if Covered(log, s) { HiddenIsOld(log, base, cfg, s); }
  }

  lemma FirstVisible(log: Log, base: nat, cfg: Config, s: nat)
    requires ByCompactor(log, base, cfg) && cfg.keepRecentTurns > 0 && cfg.keepFirstUser
    requires StartsOf(log) != [] && s == StartsOf(log)[0]
    ensures !Covered(log, s)
  {
    if Covered(log, s) {
      HiddenIsOld(log, base, cfg, s);
      StartsArePositions(log, base);
    }
  }

  /** A turn start as a position. */
  lemma StartPosition(log: Log, base: nat, i: nat, k: nat)
    requires Numbered(log, base) && i < |StartsOf(log)| && base + k == StartsOf(log)[i]
    ensures k < |log| && log[k].payload.TurnStarted?
  {
    StartsArePositions(log, base);
    assert OpensTurn(At(log, base, base + k));
  }

  lemma PlanBeforeRecent(log: Log, base: nat, cfg: Config, usage: Option<nat>)
    requires Numbered(log, base) && Plan(log, cfg, usage).Some? && cfg.keepRecentTurns > 0
    ensures Within(log, base, Plan(log, cfg, usage).value) && cfg.keepRecentTurns < |StartsOf(log)|
    ensures Plan(log, cfg, usage).value.last < StartsOf(log)[|StartsOf(log)| - cfg.keepRecentTurns]
  {
    PlanStaysInWindow(log, base, cfg, usage);
  }

  lemma PlanBehindFirst(log: Log, base: nat, cfg: Config, usage: Option<nat>)
    requires Numbered(log, base) && Plan(log, cfg, usage).Some? && cfg.keepFirstUser
    ensures Within(log, base, Plan(log, cfg, usage).value) && StartsOf(log) != []
    ensures StartsOf(log)[0] < Plan(log, cfg, usage).value.first
  {
    PlanStaysInWindow(log, base, cfg, usage);
    StartsArePositions(log, base);
  }

  /** The first recent turn to keep, at position `k`, lies behind the planned range and is visible. */
  lemma RecentKept(log: Log, base: nat, cfg: Config, usage: Option<nat>, k: nat)
    requires ByCompactor(log, base, cfg) && Plan(log, cfg, usage).Some?
    requires 0 < cfg.keepRecentTurns <= |StartsOf(log)| && base + k == StartsOf(log)[|StartsOf(log)| - cfg.keepRecentTurns]
    ensures Before(log, base, Plan(log, cfg, usage).value, k) && log[k].payload.TurnStarted? && !Covered(log, base + k)
  {
    PlanBeforeRecent(log, base, cfg, usage);
    StartPosition(log, base, |StartsOf(log)| - cfg.keepRecentTurns, k);
    RecentVisible(log, base, cfg, base + k);
  }

  lemma FirstKept(log: Log, base: nat, cfg: Config, usage: Option<nat>, k: nat)
    requires ByCompactor(log, base, cfg) && Plan(log, cfg, usage).Some? && cfg.keepRecentTurns > 0 && cfg.keepFirstUser
    requires StartsOf(log) != [] && base + k == StartsOf(log)[0]
    ensures var r := Plan(log, cfg, usage).value;
            Within(log, base, r) && k < |log| && base + k < r.first && log[k].payload.TurnStarted? && !Covered(log, base + k)
  {
    PlanBehindFirst(log, base, cfg, usage);
    StartPosition(log, base, 0, k);
    FirstVisible(log, base, cfg, base + k);
  }

  lemma BothProjections(log: Log, base: nat, c: Event, r: Range, k: nat, prompt: string, turn: TurnId)
    requires Numbered(log, base) && Before(log, base, r, k) && Drops(c, r)
    requires log[k].payload.TurnStarted? && !Covered(log, base + k)
    ensures var sys := [System(SystemText(log, prompt, turn))];
            Projection(log, prompt, turn) == sys + (Messages(Visible(log, log[..k])) + From(log, log, k)) &&
            Projection(log + [c], prompt, turn) == sys + (Messages(Visible(log, Without(log[..k], base, r))) + From(log, log, k))
  {
    CompactionDeletesSlice(log, base, c, r, prompt, turn);
    SuffixUnchanged(log, base, c, r, k);
  }

  /**
   Compaction then projection: after the compactor's event the prompt has the same system
   message and the same messages from the first kept recent turn on, the one at position `k`; in between it is the
   projection of the log with the range deleted.
   */
  lemma CompactionIsFaithful(log: Log, base: nat, cfg: Config, usage: Option<nat>, c: Event, k: nat, prompt: string, turn: TurnId)
    requires ByCompactor(log, base, cfg) && Plan(log, cfg, usage).Some? && Drops(c, Plan(log, cfg, usage).value)
    requires 0 < cfg.keepRecentTurns <= |StartsOf(log)| && base + k == StartsOf(log)[|StartsOf(log)| - cfg.keepRecentTurns]
    ensures var r, sys := Plan(log, cfg, usage).value, [System(SystemText(log, prompt, turn))];
            Before(log, base, r, k) && log[k].payload.TurnStarted? &&
            Projection(log, prompt, turn) == sys + (Messages(Visible(log, log[..k])) + From(log, log, k)) &&
            Projection(log + [c], prompt, turn) == sys + (Messages(Visible(log, Without(log[..k], base, r))) + From(log, log, k))
  {
    RecentKept(log, base, cfg, usage, k);
    BothProjections(log, base, c, Plan(log, cfg, usage).value, k, prompt, turn);
  }

  lemma UnderSystem(system: string, a: seq<Message>, b: seq<Message>)
    requires a <= b
    ensures [System(system)] + a <= [System(system)] + b
  {
  }

  lemma PrefixStays(log: Log, base: nat, c: Event, r: Range, k: nat, prompt: string, turn: TurnId)
    requires Numbered(log, base) && Within(log, base, r) && base + k < r.first && Drops(c, r)
    requires log[k].payload.TurnStarted? && !Covered(log, base + k)
    ensures var head := [System(SystemText(log, prompt, turn))] +
                        (Messages(Visible(log, log[..k])) + [User(ExtractText(log[k].payload.userInput))]);
            head <= Projection(log, prompt, turn) && head <= Projection(log + [c], prompt, turn)
  {
    CompactionDeletesSlice(log, base, c, r, prompt, turn);
    PrefixUnchanged(log, base, r, k);
    var head := Messages(Visible(log, log[..k])) + [User(ExtractText(log[k].payload.userInput))];
    UnderSystem(SystemText(log, prompt, turn), head, Messages(Visible(log, log)));
    UnderSystem(SystemText(log, prompt, turn), head, Messages(Visible(log, Without(log, base, r))));
  }

  /** With the first user message kept, all messages up to and including it stay as well. */
  lemma FirstUserMessageStays(log: Log, base: nat, cfg: Config, usage: Option<nat>, c: Event, k: nat, prompt: string, turn: TurnId)
    requires ByCompactor(log, base, cfg) && Plan(log, cfg, usage).Some? && Drops(c, Plan(log, cfg, usage).value)
    requires cfg.keepRecentTurns > 0 && cfg.keepFirstUser && StartsOf(log) != [] && base + k == StartsOf(log)[0]
    ensures var sys := [System(SystemText(log, prompt, turn))];
            k < |log| && log[k].payload.TurnStarted? &&
            var head := sys + (Messages(Visible(log, log[..k])) + [User(ExtractText(log[k].payload.userInput))]);
            head <= Projection(log, prompt, turn) && head <= Projection(log + [c], prompt, turn)
  {
    FirstKept(log, base, cfg, usage, k);
    PrefixStays(log, base, c, Plan(log, cfg, usage).value, k, prompt, turn);
  }

  // ----- tool calls and their results -----

  predicate IsTool(p: Payload) {
    p.ToolUseRecorded? || p.ToolResultRecorded?
  }

  predicate SameTurn(log: Log, u: nat, v: nat) {
    v < |log| && forall x :: u < x <= v ==> !OpensTurn(log[x])
  }

  /** The tool events of a turn follow its first context pass, if it has one. */
  predicate ToolsFollowPass(log: Log) {
    forall x, y :: 0 <= x < y < |log| && IsTool(log[x].payload) && log[y].payload.ContextManageEntered? && SameTurn(log, x, y) ==>
      exists z :: 0 <= z < x && log[z].payload.ContextManageEntered? && SameTurn(log, z, x)
  }

  /** A span boundary never falls between a tool call and its result. */
  lemma SpanKeepsPair(log: Log, base: nat, st: nat, last: nat, u: nat, v: nat)
    requires ToolsFollowPass(log) && IsSpan(log, base, st, last) && OpensTurn(At(log, base, st))
    requires u < v && SameTurn(log, u, v) && IsTool(log[u].payload)
    ensures !(st <= base + u <= last < base + v)
  {
    if st <= base + u <= last { NoPassBehindTool(log, base, st, last, u, v, last + 1); }
  }

  /** Behind the start of its turn, within the span, there is no context pass. */
  lemma PassInside(log: Log, base: nat, st: nat, last: nat, z: nat, u: nat)
    requires IsSpan(log, base, st, last) && OpensTurn(At(log, base, st)) && st <= base + u <= last
    requires z < u && SameTurn(log, z, u)
    ensures !log[z].payload.ContextManageEntered?
  {
    assert base + z < st ==> !SameTurn(log, z, u) by { assert OpensTurn(log[st - base]); }
    assert st <= base + z ==> log[z] == At(log, base, base + z);
  }

  lemma NoPassBehindTool(log: Log, base: nat, st: nat, last: nat, u: nat, v: nat, x: nat)
    requires ToolsFollowPass(log) && IsSpan(log, base, st, last) && OpensTurn(At(log, base, st))
    requires u < v && SameTurn(log, u, v) && IsTool(log[u].payload) && st <= base + u <= last < x
    ensures base + u < x <= base + v ==> !Breaks(At(log, base, x))
  {
    if base + u < x <= base + v && log[x - base].payload.ContextManageEntered? {
      assert SameTurn(log, u, x - base);
      var z :| 0 <= z < u && log[z].payload.ContextManageEntered? && SameTurn(log, z, u);
      PassInside(log, base, st, last, z, u);
    }
  }

  lemma LastPlannedTurn(log: Log, base: nat, cfg: Config, usage: Option<nat>) returns (st: nat)
    requires Numbered(log, base) && Plan(log, cfg, usage).Some?
    ensures var r := Plan(log, cfg, usage).value;
            base <= r.first <= st && IsSpan(log, base, st, r.last) && OpensTurn(At(log, base, st)) &&
            OpensTurn(At(log, base, r.first))
  {
    var i, j := PlanEnds(log, cfg, usage);
    RunIsOrdered(log, base, i, j);
    RunIsOrdered(log, base, j, j);
    SpanMeaning(log, base, j);
    st := StartsOf(log)[j];
    StartsIncrease(log, base, i, j);
  }

  lemma RangeKeepsPair(log: Log, base: nat, r: Range, st: nat, u: nat, v: nat)
    requires ToolsFollowPass(log) && IsSpan(log, base, st, r.last) && OpensTurn(At(log, base, st))
    requires base <= r.first <= st && OpensTurn(At(log, base, r.first))
    requires u < v && SameTurn(log, u, v) && IsTool(log[u].payload)
    ensures r.first <= base + u <= r.last <==> r.first <= base + v <= r.last
  {
    SpanKeepsPair(log, base, st, r.last, u, v);
    assert !(base + u < r.first <= base + v) by { assert OpensTurn(log[r.first - base]); }
    assert !(base + u < st <= base + v) by { assert OpensTurn(log[st - base]); }
  }

  /** A range the compactor plans hides a tool call exactly when it hides the call's result. */
  lemma PlanKeepsPair(log: Log, base: nat, cfg: Config, usage: Option<nat>, u: nat, v: nat)
    requires Numbered(log, base) && ToolsFollowPass(log) && Plan(log, cfg, usage).Some?
    requires u < v && SameTurn(log, u, v) && IsTool(log[u].payload)
    ensures var r := Plan(log, cfg, usage).value; r.first <= base + u <= r.last <==> r.first <= base + v <= r.last
  {
    var st := LastPlannedTurn(log, base, cfg, usage);
    RangeKeepsPair(log, base, Plan(log, cfg, usage).value, st, u, v);
  }

  lemma ToolsFollowPassPrefix(log: Log, m: nat)
    requires ToolsFollowPass(log) && m <= |log|
    ensures ToolsFollowPass(log[..m])
  {
    var pre := log[..m];
    forall x, y | 0 <= x < y < m && IsTool(pre[x].payload) && pre[y].payload.ContextManageEntered? && SameTurn(pre, x, y)
      ensures exists z :: 0 <= z < x && pre[z].payload.ContextManageEntered? && SameTurn(pre, z, x)
    {
      assert SameTurn(log, x, y) by { assert forall i :: 0 <= i < m ==> pre[i] == log[i]; }
      var z :| 0 <= z < x && log[z].payload.ContextManageEntered? && SameTurn(log, z, x);
      assert pre[z] == log[z] && SameTurn(pre, z, x);
    }
  }

  lemma WrittenKeepsPair(log: Log, base: nat, cfg: Config, m: nat, usage: Option<nat>, u: nat, v: nat)
    requires m < |log| && WrittenAs(log, base, cfg, m, usage) && cfg.keepRecentTurns > 0 && ToolsFollowPass(log)
    requires u < v && SameTurn(log, u, v) && IsTool(log[u].payload)
    ensures Hides(log[m].payload, base + u) <==> Hides(log[m].payload, base + v)
  {
    var pre := log[..m];
    CompactedCuts(pre, base, cfg, usage, log[m], log[m + 1..], log);
    ToolsFollowPassPrefix(log, m);
    PlanKeepsPairSoFar(log, base, pre, cfg, usage, u, v);
  }

  lemma PlanKeepsPairSoFar(log: Log, base: nat, pre: Log, cfg: Config, usage: Option<nat>, u: nat, v: nat)
    requires Numbered(pre, base) && pre <= log && ToolsFollowPass(pre) && cfg.keepRecentTurns > 0 && Plan(pre, cfg, usage).Some?
    requires u < v && SameTurn(log, u, v) && IsTool(log[u].payload)
    ensures var r := Plan(pre, cfg, usage).value; r.first <= base + u <= r.last <==> r.first <= base + v <= r.last
  {
    var r, starts := Plan(pre, cfg, usage).value, StartsOf(pre);
    PlanStaysInWindow(pre, base, cfg, usage);
    StartsArePositions(pre, base);
    var k := starts[|starts| - cfg.keepRecentTurns];
    assert OpensTurn(At(log, base, k)) && r.last < k < Next(pre, base);
    if v < |pre| {
      PlanKeepsPair(pre, base, cfg, usage, u, v);
    }
  }

  /**
   Over any run of truncations that keep a recent turn, a tool call is hidden exactly when
   its result is.
   */
  lemma PairsHideTogether(log: Log, base: nat, cfg: Config, u: nat, v: nat)
    requires ByCompactor(log, base, cfg) && cfg.keepRecentTurns > 0 && ToolsFollowPass(log)
    requires u < v && SameTurn(log, u, v) && IsTool(log[u].payload)
    ensures Covered(log, base + u) <==> Covered(log, base + v)
  {
    forall m | 0 <= m < |log| ensures Hides(log[m].payload, base + u) <==> Hides(log[m].payload, base + v) {
      if log[m].payload.ContextCompacted? {
        var usage :| WrittenAs(log, base, cfg, m, usage);
        WrittenKeepsPair(log, base, cfg, m, usage, u, v);
      }
    }
  }

  // ----- seen from the prompt -----

  predicate AsksFor(m: Message, id: CallId) {
    m.Assistant? && exists b :: b in m.blocks && b.ToolUseBlock? && b.callId == id
  }

  predicate IsAsk(x: Piece, id: CallId) {
    x.BlockPiece? && x.block.ToolUseBlock? && x.block.callId == id
  }

  lemma {:induction false} AskInBlocks(blocks: seq<ContentBlock>, x: Piece, id: CallId)
    requires x in BlockPieces(blocks) && IsAsk(x, id)
    ensures AsksFor(Assistant(blocks), id)
  {
    if x == BlockPiece(LastOf(blocks)) {
      assert LastOf(blocks) in blocks;
    } else {
      AskInBlocks(DropLast(blocks), x, id);
    }
  }

  lemma {:induction false} AskInMessages(ms: seq<Message>, x: Piece, id: CallId)
    requires x in Unpacked(ms) && IsAsk(x, id)
    ensures exists i :: 0 <= i < |ms| && AsksFor(ms[i], id)
  {
    var pre, last := DropLast(ms), LastOf(ms);
    if x in Unpacked(pre) {
      AskInMessages(pre, x, id);
      var i :| 0 <= i < |pre| && AsksFor(pre[i], id);
      assert ms[i] == pre[i];
    } else {
      assert x in MessagePieces(last) && last == ms[|ms| - 1];
      if last.Assistant? { AskInBlocks(last.blocks, x, id); } else if last.ToolMessage? { NoAskInResults(last.blocks, x, id); }
    }
  }

  lemma {:induction false} NoAskInResults(blocks: seq<ContentBlock>, x: Piece, id: CallId)
    requires IsAsk(x, id)
    ensures x !in ResultPieces(blocks)
  {
    if blocks != [] { NoAskInResults(DropLast(blocks), x, id); }
  }

  lemma {:induction false} OnlyIsPart(thoughts: bool, s: seq<Piece>, x: Piece)
    ensures x in Only(thoughts, s) <==> x in s && IsThought(x) == thoughts
  {
    if s != [] {
      OnlyIsPart(thoughts, DropLast(s), x);
      assert s == DropLast(s) + [LastOf(s)];
    }
  }

  lemma {:induction false} PieceIsHeld(ps: seq<Payload>, i: nat)
    requires i < |ps| && PieceOf(ps[i]).Some?
    ensures PieceOf(ps[i]).value in Pieces(ps)
  {
    if i < |ps| - 1 {
      assert DropLast(ps)[i] == ps[i];
      PieceIsHeld(DropLast(ps), i);
    }
  }

  lemma {:induction false} VisibleHolds(whole: Log, log: Log, u: nat)
    requires u < |log| && !Covered(whole, log[u].seqNo)
    ensures log[u].payload in Visible(whole, log)
  {
    if u < |log| - 1 {
      assert DropLast(log)[u] == log[u];
      VisibleHolds(whole, DropLast(log), u);
    }
  }

  /** Projecting a visible tool use yields a message that asks for it. */
  lemma UseIsAsked(whole: Log, log: Log, u: nat)
    requires u < |log| && !Covered(whole, log[u].seqNo) && log[u].payload.ToolUseRecorded?
    ensures var ms := Messages(Visible(whole, log)); exists i :: 0 <= i < |ms| && AsksFor(ms[i], log[u].payload.callId)
  {
    var ps := Visible(whole, log);
    VisibleHolds(whole, log, u);
    var i :| 0 <= i < |ps| && ps[i] == log[u].payload;
    PieceIsHeld(ps, i);
    var x := PieceOf(ps[i]).value;
    ContentConserved(ps, false);
    OnlyIsPart(false, Pieces(ps), x);
    OnlyIsPart(false, Unpacked(Messages(ps)), x);
    AskInMessages(Messages(ps), x, log[u].payload.callId);
  }

  /** The messages before, the result's own message, and the messages after. */
  lemma ResultSplits(whole: Log, log: Log, v: nat)
    requires v < |log| && !Covered(whole, log[v].seqNo) && log[v].payload.ToolResultRecorded?
    ensures Messages(Visible(whole, log)) ==
            (Messages(Visible(whole, log[..v])) + OwnMessage(log[v].payload)) + Messages(Visible(whole, log[v + 1..]))
  {
    assert log == log[..v] + ([log[v]] + log[v + 1..]);
    VisibleConcat(whole, log[..v], [log[v]] + log[v + 1..]);
    VisibleConcat(whole, [log[v]], log[v + 1..]);
    assert DropLast([log[v]]) == [] && Visible(whole, [log[v]]) == [log[v].payload];
    CutSplits(Visible(whole, log[..v]), log[v].payload, Visible(whole, log[v + 1..]));
  }

  /**
   After any run of truncations, every result in the prompt still follows a message that
   asks for it, given that the log has its tool use earlier in the same turn.
   */
  lemma ResultsFollowTheirCalls(log: Log, base: nat, cfg: Config, u: nat, v: nat, prompt: string, turn: TurnId)
    requires ByCompactor(log, base, cfg) && cfg.keepRecentTurns > 0 && ToolsFollowPass(log)
    requires u < v && SameTurn(log, u, v) && log[u].payload.ToolUseRecorded? && log[v].payload.ToolResultRecorded?
    requires log[u].payload.callId == log[v].payload.callId && !Covered(log, base + v)
    ensures var ms, id, result := Projection(log, prompt, turn), log[v].payload.callId, log[v].payload.result;
            exists i, j :: 0 <= i < j < |ms| && AsksFor(ms[i], id) && ms[j] == ToolMessage(id, [ToolResultBlock(id, result)])
  {
    PairsHideTogether(log, base, cfg, u, v);
    assert log[..v][u] == log[u];
    UseIsAsked(log, log[..v], u);
    ResultSplits(log, log, v);
    AskedBefore(Projection(log, prompt, turn)[0], Messages(Visible(log, log[..v])), log[v].payload,
                Messages(Visible(log, log[v + 1..])));
  }

  lemma AskedBefore(first: Message, head: seq<Message>, p: Payload, tail: seq<Message>)
    requires p.ToolResultRecorded? && exists i :: 0 <= i < |head| && AsksFor(head[i], p.callId)
    ensures var ms := [first] + ((head + OwnMessage(p)) + tail);
            exists i, j :: 0 <= i < j < |ms| && AsksFor(ms[i], p.callId) &&
                           ms[j] == ToolMessage(p.callId, [ToolResultBlock(p.callId, p.result)])
  {
    var ms := [first] + ((head + OwnMessage(p)) + tail);
    var i :| 0 <= i < |head| && AsksFor(head[i], p.callId);
    assert ms[i + 1] == head[i];
    assert ms[|head| + 1] == OwnMessage(p)[0];
  }
}
