/**
 When the compactor writes, and what: the threshold, the estimates and the range, said of
 the events themselves.
 */
module CompactionDecision {
  import opened Wrappers
  import opened Events
  import opened Coverage
  import opened Compactor
  import opened CompactorRuns
  import Utf8

  // ----- sizes -----

  function Sum(ns: seq<nat>): nat {
    if ns == [] then 0 else Sum(DropLast(ns)) + LastOf(ns)
  }

  /** Bytes a character takes in UTF-8, by the table in section 3 of RFC 3629. */
  function CharBytes(c: char): nat {
    if c as int <= 0x7F then 1 else if c as int <= 0x7FF then 2 else if c as int <= 0xFFFF then 3 else 4
  }

  function Bytes(text: string): nat {
    Sum(seq(|text|, i requires 0 <= i < |text| => CharBytes(text[i])))
  }

  ghost predicate BlockSizes(blocks: seq<ContentBlock>, ns: seq<nat>) {
    |ns| == |blocks| && forall i :: 0 <= i < |ns| ==> ns[i] == if blocks[i].TextBlock? then Bytes(blocks[i].text) else 0
  }

  ghost predicate ValueSizes(values: seq<Json>, ns: seq<nat>) {
    |ns| == |values| && forall i :: 0 <= i < |ns| ==> ns[i] == Bytes(values[i].text)
  }

  /** The size of what an event adds to the conversation, in bytes. */
  ghost predicate HasSize(p: Payload, n: nat) {
    match p
    case TurnStarted(input, _) => exists ns :: BlockSizes(input, ns) && n == Sum(ns)
    case AssistantMessageAppended(text) => n == Bytes(text)
    case ToolUseRecorded(_, name, args) => n == Bytes(name) + Bytes(args.text)
    case ToolResultRecorded(_, Output(values)) => exists ns :: ValueSizes(values, ns) && n == Sum(ns)
    case ToolResultRecorded(_, Error(_, message, _)) => n == Bytes(message)
    case _ => n == 0
  }

  /** The size of each event that no compaction hides, and 0 for the hidden ones. */
  ghost predicate VisibleSizes(whole: Log, log: Log, ns: seq<nat>) {
    |ns| == |log| &&
    forall i :: 0 <= i < |ns| ==> if Covered(whole, log[i].seqNo) then ns[i] == 0 else HasSize(log[i].payload, ns[i])
  }

  ghost predicate SizesWithin(log: Log, r: Range, ns: seq<nat>) {
    |ns| == |log| &&
    forall i :: 0 <= i < |ns| ==>
      if r.first <= log[i].seqNo <= r.last then HasSize(log[i].payload, ns[i]) else ns[i] == 0
  }

  /** The tokens of the conversation: as the model reported them, or a quarter of the visible bytes. */
  ghost predicate HasTokens(log: Log, usage: Option<nat>, n: nat) {
    if usage.Some? then n == usage.value else exists ns :: VisibleSizes(log, log, ns) && n == Sum(ns) / 4
  }

  ghost predicate HasTokensWithin(log: Log, r: Range, n: nat) {
    exists ns :: SizesWithin(log, r, ns) && n == Sum(ns) / 4
  }

  lemma SumSnoc(ns: seq<nat>, n: nat)
    ensures Sum(ns + [n]) == Sum(ns) + n
  {
    assert DropLast(ns + [n]) == ns;
  }

  lemma {:induction false} SumCons(n: nat, ns: seq<nat>)
    ensures Sum([n] + ns) == n + Sum(ns)
  {
    if ns == [] {
      assert [n] + ns == [] + [n];
      SumSnoc([], n);
    } else {
      SumCons(n, DropLast(ns));
      assert [n] + ns == ([n] + DropLast(ns)) + [LastOf(ns)];
      SumSnoc([n] + DropLast(ns), LastOf(ns));
    }
  }

  lemma {:induction false} LengthIsBytes(text: string)
    ensures Length(text) == Bytes(text)
  {
    var ns := seq(|text|, i requires 0 <= i < |text| => CharBytes(text[i]));
    if text != "" {
      var rest := text[1..];
      LengthIsBytes(rest);
      SumCons(CharBytes(text[0]), seq(|rest|, i requires 0 <= i < |rest| => CharBytes(rest[i])));
      assert ns == [CharBytes(text[0])] + seq(|rest|, i requires 0 <= i < |rest| => CharBytes(rest[i]));
    }
  }

  lemma {:induction false} TextSized(blocks: seq<ContentBlock>) returns (ns: seq<nat>)
    ensures BlockSizes(blocks, ns) && SumText(blocks) == Sum(ns)
  {
    ns := [];
    if blocks != [] {
      ns := TextSized(DropLast(blocks));
      var n := if LastOf(blocks).TextBlock? then Bytes(LastOf(blocks).text) else 0;
      if LastOf(blocks).TextBlock? { LengthIsBytes(LastOf(blocks).text); }
      SumSnoc(ns, n);
      ns := ns + [n];
    }
  }

  lemma {:induction false} ValuesSized(values: seq<Json>) returns (ns: seq<nat>)
    ensures ValueSizes(values, ns) && SumValues(values) == Sum(ns)
  {
    ns := [];
    if values != [] {
      ns := ValuesSized(DropLast(values));
      LengthIsBytes(LastOf(values).text);
      SumSnoc(ns, Bytes(LastOf(values).text));
      ns := ns + [Bytes(LastOf(values).text)];
    }
  }

  lemma CountIsSize(p: Payload)
    ensures HasSize(p, CharCount(p))
  {
    match p
    case TurnStarted(input, _) => var ns := TextSized(input);
    case AssistantMessageAppended(text) => LengthIsBytes(text);
    case ToolUseRecorded(_, name, args) =>
      LengthIsBytes(name);
      LengthIsBytes(args.text);
    case ToolResultRecorded(_, Output(values)) => var ns := ValuesSized(values);
    case ToolResultRecorded(_, Error(_, message, _)) => LengthIsBytes(message);
    case _ =>
  }

  lemma {:induction false} VisibleSized(whole: Log, log: Log) returns (ns: seq<nat>)
    ensures VisibleSizes(whole, log, ns) && VisibleChars(whole, log) == Sum(ns)
  {
    ns := [];
    if log != [] {
      ns := VisibleSized(whole, DropLast(log));
      CountIsSize(LastOf(log).payload);
      var n := if Covered(whole, LastOf(log).seqNo) then 0 else CharCount(LastOf(log).payload);
      SumSnoc(ns, n);
      ns := ns + [n];
    }
  }

  lemma {:induction false} WithinSized(log: Log, r: Range) returns (ns: seq<nat>)
    ensures SizesWithin(log, r, ns) && CharsIn(log, r) == Sum(ns)
  {
    ns := [];
    if log != [] {
      ns := WithinSized(DropLast(log), r);
      CountIsSize(LastOf(log).payload);
      var n := if r.first <= LastOf(log).seqNo <= r.last then CharCount(LastOf(log).payload) else 0;
      SumSnoc(ns, n);
      ns := ns + [n];
    }
  }

  lemma EstimateIsTokens(log: Log, usage: Option<nat>)
    ensures HasTokens(log, usage, Estimated(log, usage))
  {
    if usage.None? { var ns := VisibleSized(log, log); }
  }

  // ----- the threshold and the window -----

  /** Some event of the turn that starts at `st` and is spanned up to `last` is visible. */
  predicate LeftIn(log: Log, st: nat, last: nat) {
    exists s :: st <= s <= last && !Covered(log, s)
  }

  /** The `k`-th turn may go: it is neither the kept first one nor a recent one. */
  predicate MayGo(starts: seq<nat>, cfg: Config, k: nat) {
    (cfg.keepFirstUser ==> k > 0) && k + cfg.keepRecentTurns < |starts|
  }

  /** The `k`-th turn may go, spans up to `last`, and is not fully hidden. */
  ghost predicate Droppable(log: Log, base: nat, starts: seq<nat>, cfg: Config, k: nat, last: nat) {
    k < |starts| && MayGo(starts, cfg, k) && IsSpan(log, base, starts[k], last) && LeftIn(log, starts[k], last)
  }

  /** The range starts with the first droppable turn and ends with the last one. */
  ghost predicate FromFirstToLast(log: Log, base: nat, starts: seq<nat>, cfg: Config, r: Range) {
    (exists k: nat, last: nat :: Droppable(log, base, starts, cfg, k, last) && r.first == starts[k]) &&
    (exists k: nat :: Droppable(log, base, starts, cfg, k, r.last)) &&
    (forall k: nat, last: nat :: Droppable(log, base, starts, cfg, k, last) ==> r.first <= starts[k] && last <= r.last)
  }

  ghost predicate Reached(log: Log, cfg: Config, usage: Option<nat>) {
    cfg.maxTokens.Some? && exists n: nat :: HasTokens(log, usage, n) && n >= cfg.maxTokens.value
  }

  lemma SizeIsCount(p: Payload, n: nat)
    requires HasSize(p, n)
    ensures n == CharCount(p)
  {
    match p
    case TurnStarted(input, _) =>
      var ms := TextSized(input);
      var ns :| BlockSizes(input, ns) && n == Sum(ns);
      assert ns == ms;
    case AssistantMessageAppended(text) => LengthIsBytes(text);
    case ToolUseRecorded(_, name, args) =>
      LengthIsBytes(name);
      LengthIsBytes(args.text);
    case ToolResultRecorded(_, Output(values)) =>
      var ms := ValuesSized(values);
      var ns :| ValueSizes(values, ns) && n == Sum(ns);
      assert ns == ms;
    case ToolResultRecorded(_, Error(_, message, _)) => LengthIsBytes(message);
    case _ =>
  }

  lemma VisibleSizesUnique(whole: Log, log: Log, ns: seq<nat>, ms: seq<nat>)
    requires VisibleSizes(whole, log, ns) && VisibleSizes(whole, log, ms)
    ensures ns == ms
  {
    forall i | 0 <= i < |ns| ensures ns[i] == ms[i] {
      if !Covered(whole, log[i].seqNo) {
        SizeIsCount(log[i].payload, ns[i]);
        SizeIsCount(log[i].payload, ms[i]);
      }
    }
  }

  lemma TokensAreEstimate(log: Log, usage: Option<nat>, n: nat)
    requires HasTokens(log, usage, n)
    ensures n == Estimated(log, usage)
  {
    if usage.None? {
      var ms := VisibleSized(log, log);
      var ns :| VisibleSizes(log, log, ns) && n == Sum(ns) / 4;
      VisibleSizesUnique(log, log, ns, ms);
    }
  }

  lemma ReachedMeans(log: Log, cfg: Config, usage: Option<nat>)
    ensures Reached(log, cfg, usage) <==> cfg.maxTokens.Some? && Estimated(log, usage) >= cfg.maxTokens.value
  {
    EstimateIsTokens(log, usage);
    if Reached(log, cfg, usage) {
      var n: nat :| HasTokens(log, usage, n) && n >= cfg.maxTokens.value;
      TokensAreEstimate(log, usage, n);
    }
  }

  // ----- the range -----

  lemma StartsAreUnique(log: Log, base: nat, starts: seq<nat>)
    requires Numbered(log, base) && StartsFit(log, base, starts)
    ensures starts == StartsOf(log)
  {
    StartsArePositions(log, base);
    forall s ensures s in starts <==> s in StartsOf(log) {
      if s in starts { InOther(log, base, starts, StartsOf(log), s); }
      if s in StartsOf(log) { InOther(log, base, StartsOf(log), starts, s); }
    }
    SameIncreasing(starts, StartsOf(log));
  }

  lemma InOther(log: Log, base: nat, a: seq<nat>, b: seq<nat>, s: nat)
    requires InLog(log, base, a) && HasEveryStart(log, base, b) && s in a
    ensures s in b
  {
    var i :| 0 <= i < |a| && a[i] == s;
    assert OpensTurn(log[s - base]);
  }

  lemma {:induction false} SameIncreasing(a: seq<nat>, b: seq<nat>)
    requires Increasing(a) && Increasing(b) && forall s :: s in a <==> s in b
    ensures a == b
  {
    assert a != [] ==> a[0] in a;
    assert b != [] ==> b[0] in b;
    if a != [] && b != [] {
      LargestIsLast(a, b);
      LargestIsLast(b, a);
      InPrefix(a);
      InPrefix(b);
      SameIncreasing(DropLast(a), DropLast(b));
      Snoc(a);
      Snoc(b);
    }
  }

  lemma LargestIsLast(a: seq<nat>, b: seq<nat>)
    requires Increasing(a) && b != [] && a != [] && forall s :: s in b ==> s in a
    ensures LastOf(b) <= LastOf(a)
  {
    assert LastOf(b) in b;
    var i :| 0 <= i < |a| && a[i] == LastOf(b);
  }

  lemma InPrefix(a: seq<nat>)
    requires Increasing(a) && a != []
    ensures Increasing(DropLast(a)) && forall s :: s in DropLast(a) <==> s in a && s != LastOf(a)
  {
    forall s | s in a && s != LastOf(a) ensures s in DropLast(a) {
      var i :| 0 <= i < |a| && a[i] == s;
      assert DropLast(a)[i] == s;
    }
  }

  lemma CoveredMeans(log: Log, span: Range)
    ensures FullyCovered(log, span) <==> !LeftIn(log, span.first, span.last)
  {
  }

  /** What may go and is left of a turn is what the compactor finds not fully hidden in its window. */
  lemma DroppableMeans(log: Log, base: nat, cfg: Config, k: nat, last: nat)
    requires Numbered(log, base)
    ensures Droppable(log, base, StartsOf(log), cfg, k, last) <==>
            WindowStart(cfg) <= k < WindowEnd(log, cfg) && last == SpanOf(log, k).last && !FullyCovered(log, SpanOf(log, k))
  {
    if k < |StartsOf(log)| {
      SpanMeaning(log, base, k);
      CoveredMeans(log, SpanOf(log, k));
      if IsSpan(log, base, StartsOf(log)[k], last) { SpanIsUnique(log, base, StartsOf(log)[k], last, SpanOf(log, k).last); }
    }
  }

  lemma RangeMeans(log: Log, base: nat, cfg: Config, r: Range, i: nat, j: nat)
    requires Numbered(log, base) && Runs(log, WindowStart(cfg), WindowEnd(log, cfg), r, i, j)
    ensures FromFirstToLast(log, base, StartsOf(log), cfg, r)
  {
    RunIsOrdered(log, base, i, i);
    DroppableMeans(log, base, cfg, i, SpanOf(log, i).last);
    DroppableMeans(log, base, cfg, j, SpanOf(log, j).last);
    forall k: nat, last: nat | Droppable(log, base, StartsOf(log), cfg, k, last)
      ensures r.first <= StartsOf(log)[k] && last <= r.last
    {
      DroppableMeans(log, base, cfg, k, last);
      WithinRuns(log, base, cfg, r, i, j, k);
    }
  }

  lemma WithinRuns(log: Log, base: nat, cfg: Config, r: Range, i: nat, j: nat, k: nat)
    requires Numbered(log, base) && Runs(log, WindowStart(cfg), WindowEnd(log, cfg), r, i, j)
    requires WindowStart(cfg) <= k < WindowEnd(log, cfg) && !FullyCovered(log, SpanOf(log, k))
    ensures r.first <= StartsOf(log)[k] && SpanOf(log, k).last <= r.last
  {
    assert i <= k <= j;
    StartsIncrease(log, base, i, k);
    RunIsOrdered(log, base, i, i);
    if k < j {
      SpansInOrder(log, base, k, j);
      RunIsOrdered(log, base, j, j);
    }
  }

  /**
   The decision. A call for a turn not compacted yet has a range to write exactly when the
   conversation has reached the threshold and some turn outside the kept ones still has
   something visible; the range then runs from the first such turn to the last.
   */
  lemma DecidesExactly(log: Log, base: nat, starts: seq<nat>, cfg: Config, usage: Option<nat>)
    requires Numbered(log, base) && StartsFit(log, base, starts)
    ensures Plan(log, cfg, usage).Some? <==>
            Reached(log, cfg, usage) && exists k: nat, last: nat :: Droppable(log, base, starts, cfg, k, last)
    ensures Plan(log, cfg, usage).Some? ==> FromFirstToLast(log, base, starts, cfg, Plan(log, cfg, usage).value)
  {
    StartsAreUnique(log, base, starts);
    ReachedMeans(log, cfg, usage);
    if Plan(log, cfg, usage).Some? {
      var i, j := PlanMeaning(log, cfg, usage);
      RangeMeans(log, base, cfg, Plan(log, cfg, usage).value, i, j);
    } else if Reached(log, cfg, usage) {
      DropRangeMeaning(log, WindowStart(cfg), WindowEnd(log, cfg));
      forall k: nat, last: nat ensures !Droppable(log, base, starts, cfg, k, last) { DroppableMeans(log, base, cfg, k, last); }
    }
  }

  /** What is written for a range: a drop, with the tokens before it and what is left when the range's own are taken off. */
  lemma WritesDrop(log: Log, turn: TurnId, usage: Option<nat>, r: Range) returns (before: nat, within: nat)
    ensures HasTokens(log, usage, before) && HasTokensWithin(log, r, within)
    ensures Compaction(log, turn, usage, r) ==
            ContextCompacted(turn, r.first, r.last, Drop, Some(before), Some(if before < within then 0 else before - within))
  {
    before, within := Estimated(log, usage), EstimateDroppedTokens(log, r);
    EstimateIsTokens(log, usage);
    var ns := WithinSized(log, r);
  }
}
