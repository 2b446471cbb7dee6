/**
 What one model response leaves in the sealed message and in the log, said of the
 response's own events.
 */
module StreamMeaning {
  import opened Wrappers
  import opened Events
  import opened Listing
  import opened Recorder
  import opened StreamDemux

  // ----- the sealed message -----

  predicate Completes(e: ModelEvent) {
    e.TextBlockCompleted? || e.ToolUseCompleted? || e.ThinkingBlockCompleted?
  }

  /** The block an event completes. */
  predicate CompletesWith(e: ModelEvent, b: ContentBlock) {
    match e
    case TextBlockCompleted(_, text) => b == TextBlock(text)
    case ToolUseCompleted(_, id, name, args) => b == ToolUseBlock(id, name, args)
    case ThinkingBlockCompleted(_, text, data) => b == ThinkingBlock(text, data)
    case _ => false
  }

  ghost function Completions(events: seq<ModelEvent>): set<nat> {
    set k: nat | k < |events| && Completes(events[k])
  }

  /** Every completed block once, by block index, and in order of arrival where the index is the same. */
  ghost predicate Arranges(events: seq<ModelEvent>, order: seq<nat>) {
    (forall k :: k in order <==> k in Completions(events)) &&
    (forall i :: 0 <= i < |order| ==> order[i] < |events| && Completes(events[order[i]])) &&
    forall i, j :: 0 <= i < j < |order| ==>
      events[order[i]].index < events[order[j]].index ||
      (events[order[i]].index == events[order[j]].index && order[i] < order[j])
  }

  ghost predicate Holds(events: seq<ModelEvent>, order: seq<nat>, blocks: seq<ContentBlock>) {
    |blocks| == |order| &&
    forall i :: 0 <= i < |order| ==> order[i] < |events| && CompletesWith(events[order[i]], blocks[i])
  }

  ghost predicate Collects(events: seq<ModelEvent>, at: seq<nat>, content: seq<Indexed>) {
    |content| == |at| &&
    forall i :: 0 <= i < |at| ==>
      at[i] < |events| && Completes(events[at[i]]) && content[i].0 == events[at[i]].index &&
      CompletesWith(events[at[i]], content[i].1)
  }

  lemma CompletionsStep(events: seq<ModelEvent>)
    requires events != []
    ensures Completions(events) == Completions(DropLast(events)) + if Completes(LastOf(events)) then {|events| - 1} else {}
  {
  }

  lemma CollectsMore(events: seq<ModelEvent>, at: seq<nat>, content: seq<Indexed>, d: Demux, turn: TurnId)
    requires events != [] && Collects(DropLast(events), at, content) && d.content == content
    ensures var d' := Feed(d, turn, LastOf(events));
            if Completes(LastOf(events)) then Collects(events, at + [|events| - 1], d'.content) else Collects(events, at, d'.content)
  {
    assert forall i :: 0 <= i < |at| ==> DropLast(events)[at[i]] == events[at[i]];
  }

  lemma {:induction false} ContentCollected(start: Demux, turn: TurnId, events: seq<ModelEvent>) returns (at: seq<nat>)
    requires start.content == []
    ensures Lists(at, Completions(events)) && Collects(events, at, FeedAll(start, turn, events).content)
  {
    at := [];
    if events != [] {
      var pre := DropLast(events);
      at := ContentCollected(start, turn, pre);
      CompletionsStep(events);
      CollectsMore(events, at, FeedAll(start, turn, pre).content, FeedAll(start, turn, pre), turn);
      if Completes(LastOf(events)) {
        ListsSnoc(at, Completions(pre), |events| - 1);
        at := at + [|events| - 1];
      }
    }
  }

  // ----- the sort -----

  lemma SplitBefore<T>(s: seq<T>, k: nat, x: T)
    requires s != [] && k < |s|
    ensures DropLast(s)[..k] + [x] + DropLast(s)[k..] + [LastOf(s)] == s[..k] + [x] + s[k..]
  {
  }

  lemma {:induction false} InsertsAt(x: Indexed, s: seq<Indexed>) returns (k: nat)
    requires InIndexOrder(s)
    ensures k <= |s| && InsertByIndex(x, s) == s[..k] + [x] + s[k..]
    ensures (forall i :: 0 <= i < k ==> s[i].0 <= x.0) && (forall i :: k <= i < |s| ==> x.0 < s[i].0)
  {
    if s == [] || LastOf(s).0 <= x.0 {
      k := |s|;
    } else {
      OrderedPrefix(s);
      k := InsertsAt(x, DropLast(s));
      SplitBefore(s, k, x);
    }
  }

  /** `p` rearranges `s` by index, stably. */
  ghost predicate Rearranges(s: seq<Indexed>, p: seq<nat>, sorted: seq<Indexed>) {
    |p| == |sorted| == |s| && (forall i :: 0 <= i < |p| ==> p[i] < |s| && sorted[i] == s[p[i]]) &&
    (forall k :: 0 <= k < |s| ==> k in p) &&
    forall i, j :: 0 <= i < j < |p| ==> sorted[i].0 < sorted[j].0 || (sorted[i].0 == sorted[j].0 && p[i] < p[j])
  }

  lemma StillEvery(p: seq<nat>, n: nat, k: nat)
    requires k <= |p| && forall m :: 0 <= m < n ==> m in p
    ensures forall m :: 0 <= m < n + 1 ==> m in p[..k] + [n] + p[k..]
  {
    var q := p[..k] + [n] + p[k..];
    assert q[k] == n && p == p[..k] + p[k..];
    forall m | 0 <= m < n ensures m in q { assert m in p; }
  }

  lemma InsertRearranges(s: seq<Indexed>, p: seq<nat>, sorted: seq<Indexed>, x: Indexed, k: nat)
    requires Rearranges(s, p, sorted) && k <= |sorted|
    requires (forall i :: 0 <= i < k ==> sorted[i].0 <= x.0) && (forall i :: k <= i < |sorted| ==> x.0 < sorted[i].0)
    ensures Rearranges(s + [x], p[..k] + [|s|] + p[k..], sorted[..k] + [x] + sorted[k..])
  {
    StillEvery(p, |s|, k);
  }

  lemma {:induction false} SortRearranges(s: seq<Indexed>) returns (p: seq<nat>)
    ensures Rearranges(s, p, SortByIndex(s))
  {
    if s == [] {
      p := [];
    } else {
      var pre, x := DropLast(s), LastOf(s);
      p := SortRearranges(pre);
      SortSorts(pre);
      p := OneInserted(pre, x, p, SortByIndex(pre));
      Snoc(s);
    }
  }

  lemma OneInserted(s: seq<Indexed>, x: Indexed, p: seq<nat>, sorted: seq<Indexed>) returns (q: seq<nat>)
    requires Rearranges(s, p, sorted) && InIndexOrder(sorted)
    ensures Rearranges(s + [x], q, InsertByIndex(x, sorted))
  {
    var k := InsertsAt(x, sorted);
    InsertRearranges(s, p, sorted, x, k);
    q := p[..k] + [|s|] + p[k..];
  }

  lemma {:induction false} BlocksAt(s: seq<Indexed>)
    ensures |Blocks(s)| == |s| && forall i :: 0 <= i < |s| ==> Blocks(s)[i] == s[i].1
  {
    if s != [] { BlocksAt(DropLast(s)); }
  }

  lemma EveryOneThere(at: seq<nat>, p: seq<nat>, order: seq<nat>)
    requires (forall m :: 0 <= m < |at| ==> m in p) && (forall i :: 0 <= i < |p| ==> p[i] < |at|)
    requires |order| == |p| && forall i :: 0 <= i < |p| ==> order[i] == at[p[i]]
    ensures forall k :: k in order <==> k in at
  {
    forall k | k in at ensures k in order {
      var m :| 0 <= m < |at| && at[m] == k;
      assert m in p;
      var i :| 0 <= i < |p| && p[i] == m;
      assert order[i] == k;
    }
  }

  lemma Composed(events: seq<ModelEvent>, at: seq<nat>, content: seq<Indexed>, p: seq<nat>, sorted: seq<Indexed>)
    returns (order: seq<nat>)
    requires Lists(at, Completions(events)) && Collects(events, at, content) && Rearranges(content, p, sorted)
    ensures Arranges(events, order) && Holds(events, order, Blocks(sorted))
  {
    order := seq(|p|, i requires 0 <= i < |p| => at[p[i]]);
    BlocksAt(sorted);
    EveryOneThere(at, p, order);
    InOrder(events, at, content, p, sorted, order);
  }

  lemma InOrder(events: seq<ModelEvent>, at: seq<nat>, content: seq<Indexed>, p: seq<nat>, sorted: seq<Indexed>, order: seq<nat>)
    requires Lists(at, Completions(events)) && Collects(events, at, content) && Rearranges(content, p, sorted)
    requires |order| == |p| && forall i :: 0 <= i < |p| ==> order[i] == at[p[i]]
    ensures forall i, j :: 0 <= i < j < |order| ==>
              events[order[i]].index < events[order[j]].index ||
              (events[order[i]].index == events[order[j]].index && order[i] < order[j])
  {
    forall i | 0 <= i < |order| ensures order[i] < |events| && Completes(events[order[i]]) && sorted[i].0 == events[order[i]].index {
      assert content[p[i]].0 == events[at[p[i]]].index;
    }
  }

  /** The sealed message: every completed block, thinking included, arranged by index. */
  lemma MessageHoldsEveryBlock(start: Demux, turn: TurnId, events: seq<ModelEvent>) returns (order: seq<nat>)
    requires start.content == []
    ensures Arranges(events, order) && Holds(events, order, Sealed(FeedAll(start, turn, events)).content)
  {
    var at := ContentCollected(start, turn, events);
    var content := FeedAll(start, turn, events).content;
    var p := SortRearranges(content);
    order := Composed(events, at, content, p, SortByIndex(content));
  }

  /** Stop reason and usage are those reported last. */
  lemma {:induction false} LastReportCounts(start: Demux, turn: TurnId, events: seq<ModelEvent>, k: nat)
    requires k < |events| && events[k].MessageCompleted?
    requires forall j :: k < j < |events| ==> !events[j].MessageCompleted?
    ensures var out := Sealed(FeedAll(start, turn, events));
            out.stopReason == events[k].stopReason && out.usage == events[k].usage
  {
    if k < |events| - 1 {
      assert DropLast(events)[k] == events[k];
      LastReportCounts(start, turn, DropLast(events), k);
    }
  }

  // ----- the log -----

  /** Text and thinking are buffered apart, in the same way. */
  datatype Kind = Speech | Thought

  predicate IsDelta(kind: Kind, e: ModelEvent) {
    if kind.Speech? then e.TextDelta? else e.ThinkingDelta?
  }

  predicate IsSeal(kind: Kind, e: ModelEvent) {
    if kind.Speech? then e.TextBlockCompleted? else e.ThinkingBlockCompleted?
  }

  function Buffered(d: Demux, kind: Kind): Option<Buffer> {
    if kind.Speech? then d.text else d.thinking
  }

  /** All deltas of a kind, joined. */
  function Joined(kind: Kind, events: seq<ModelEvent>): string {
    if events == [] then ""
    else if IsDelta(kind, LastOf(events)) then Joined(kind, DropLast(events)) + LastOf(events).chunk
    else Joined(kind, DropLast(events))
  }

  predicate HasDelta(kind: Kind, events: seq<ModelEvent>) {
    exists j :: 0 <= j < |events| && IsDelta(kind, events[j])
  }

  /** Behind the latest seal of a kind, or from the beginning. */
  predicate SealedLastAt(kind: Kind, events: seq<ModelEvent>, lo: nat) {
    lo <= |events| && (lo > 0 ==> IsSeal(kind, events[lo - 1])) &&
    forall j :: lo <= j < |events| ==> !IsSeal(kind, events[j])
  }

  /** What waits for the next seal: the deltas since the last one, behind a leftover if there was no seal yet. */
  function Waiting(left: Option<Buffer>, turn: TurnId, kind: Kind, events: seq<ModelEvent>, lo: nat): Option<Buffer>
    requires lo <= |events|
  {
    var deltas := events[lo..];
    if lo == 0 && left.Some? then Some(Buffer(left.value.turn, left.value.text + Joined(kind, deltas)))
    else if HasDelta(kind, deltas) then Some(Buffer(turn, Joined(kind, deltas)))
    else None
  }

  /** What the event writes, given the events before it. */
  ghost predicate Writes(start: Demux, turn: TurnId, before: seq<ModelEvent>, e: ModelEvent, of: Option<TurnId>, p: Payload) {
    match e
    case ToolUseCompleted(_, id, name, args) => of == Some(turn) && p == ToolUseRecorded(id, name, args)
    case MessageCompleted(stop, usage) => of == Some(turn) && p == ModelCallCompleted(stop, usage)
    case TextBlockCompleted(_, _) =>
      exists lo: nat :: SealedLastAt(Speech, before, lo) &&
        var b := Waiting(start.text, turn, Speech, before, lo);
        b.Some? && of == Some(b.value.turn) && p == AssistantMessageAppended(b.value.text)
    case ThinkingBlockCompleted(_, _, data) =>
      exists lo: nat :: SealedLastAt(Thought, before, lo) &&
        var b := Waiting(start.thinking, turn, Thought, before, lo);
        b.Some? && of == Some(b.value.turn) && p == ThinkingBlockRecorded(b.value.text, data)
    case _ => false
  }

  ghost predicate WritesSome(start: Demux, turn: TurnId, before: seq<ModelEvent>, e: ModelEvent) {
    exists of, p :: Writes(start, turn, before, e, of, p)
  }

  ghost function Writers(start: Demux, turn: TurnId, events: seq<ModelEvent>): set<nat> {
    set k: nat | k < |events| && WritesSome(start, turn, events[..k], events[k])
  }

  ghost predicate WrittenBy(start: Demux, turn: TurnId, events: seq<ModelEvent>, k: nat, e: Event, n: nat) {
    k < |events| && Writes(start, turn, events[..k], events[k], e.turn, e.payload) &&
    e.schema == SCHEMA_VERSION && e.id == n && e.seqNo == n
  }

  ghost predicate Wrote(start: Demux, turn: TurnId, events: seq<ModelEvent>, at: seq<nat>, log: Log) {
    |log| == |start.log| + |at| && start.log <= log &&
    forall i :: 0 <= i < |at| ==> WrittenBy(start, turn, events, at[i], log[|start.log| + i], |start.log| + i)
  }

  lemma {:induction false} LatestSeal(kind: Kind, events: seq<ModelEvent>) returns (lo: nat)
    ensures SealedLastAt(kind, events, lo)
  {
    lo := 0;
    if events != [] {
      if IsSeal(kind, LastOf(events)) {
        lo := |events|;
      } else {
        lo := LatestSeal(kind, DropLast(events));
        assert forall j :: 0 <= j < |events| - 1 ==> DropLast(events)[j] == events[j];
      }
    }
  }

  lemma JoinedSnoc(kind: Kind, events: seq<ModelEvent>, e: ModelEvent)
    ensures Joined(kind, events + [e]) == if IsDelta(kind, e) then Joined(kind, events) + e.chunk else Joined(kind, events)
    ensures HasDelta(kind, events + [e]) <==> HasDelta(kind, events) || IsDelta(kind, e)
  {
    assert DropLast(events + [e]) == events && (events + [e])[|events|] == e;
    assert forall j :: 0 <= j < |events| ==> (events + [e])[j] == events[j];
  }

  lemma {:induction false} NothingJoined(kind: Kind, events: seq<ModelEvent>)
    ensures !HasDelta(kind, events) ==> Joined(kind, events) == ""
  {
    if events != [] {
      NothingJoined(kind, DropLast(events));
      Snoc(events);
      JoinedSnoc(kind, DropLast(events), LastOf(events));
    }
  }

  lemma FeedBuffers(d: Demux, turn: TurnId, kind: Kind, e: ModelEvent)
    ensures Buffered(Feed(d, turn, e), kind) ==
            if IsSeal(kind, e) then None
            else if IsDelta(kind, e) then Some(Extend(Buffered(d, kind), turn, e.chunk)) else Buffered(d, kind)
  {
  }

  /** One event more: what waits grows as the buffer does. */
  lemma WaitingGrows(left: Option<Buffer>, turn: TurnId, kind: Kind, pre: seq<ModelEvent>, e: ModelEvent, lo: nat)
    requires lo <= |pre|
    ensures Waiting(left, turn, kind, pre + [e], lo) ==
            if IsDelta(kind, e) then Some(Extend(Waiting(left, turn, kind, pre, lo), turn, e.chunk))
            else Waiting(left, turn, kind, pre, lo)
  {
    var deltas := pre[lo..];
    assert (pre + [e])[lo..] == deltas + [e];
    JoinedSnoc(kind, deltas, e);
    NothingJoined(kind, deltas);
    if IsDelta(kind, e) {
      assert "" + e.chunk == e.chunk;
      if lo == 0 && left.Some? { Assoc(left.value.text, Joined(kind, deltas), e.chunk); }
    }
  }

  /** The buffer is what waits since the latest seal. */
  lemma {:induction false} BufferWaits(start: Demux, turn: TurnId, kind: Kind, events: seq<ModelEvent>, lo: nat)
    requires SealedLastAt(kind, events, lo)
    ensures Buffered(FeedAll(start, turn, events), kind) == Waiting(Buffered(start, kind), turn, kind, events, lo)
  {
    if events == [] {
      assert events[lo..] == [];
      assert Buffered(start, kind).Some? ==> Buffered(start, kind).value.text + "" == Buffered(start, kind).value.text;
    } else {
      var pre, e := DropLast(events), LastOf(events);
      FeedBuffers(FeedAll(start, turn, pre), turn, kind, e);
      if lo == |events| {
        assert events[lo..] == [];
      } else {
        assert forall j :: 0 <= j < |pre| ==> pre[j] == events[j];
        BufferWaits(start, turn, kind, pre, lo);
        Snoc(events);
        WaitingGrows(Buffered(start, kind), turn, kind, pre, e, lo);
      }
    }
  }

  /** The one event, if any, that feeding `e` appends. */
  lemma FeedWrites(start: Demux, turn: TurnId, pre: seq<ModelEvent>, e: ModelEvent)
    ensures var was, log := FeedAll(start, turn, pre).log, Feed(FeedAll(start, turn, pre), turn, e).log;
            if WritesSome(start, turn, pre, e)
            then |log| == |was| + 1 && log[..|was|] == was && Writes(start, turn, pre, e, log[|was|].turn, log[|was|].payload) &&
                 log[|was|] == Event(SCHEMA_VERSION, |was|, log[|was|].turn, |was|, log[|was|].payload)
            else log == was
  {
    var d := FeedAll(start, turn, pre);
    var speech := LatestSeal(Speech, pre);
    var thought := LatestSeal(Thought, pre);
    BufferWaits(start, turn, Speech, pre, speech);
    BufferWaits(start, turn, Thought, pre, thought);
    match e
    case TextBlockCompleted(_, _) =>
      OneLatestSeal(Speech, pre, speech);
      if d.text.Some? { assert Writes(start, turn, pre, e, Some(d.text.value.turn), AssistantMessageAppended(d.text.value.text)); }
    case ThinkingBlockCompleted(_, _, data) =>
      OneLatestSeal(Thought, pre, thought);
      if d.thinking.Some? {
        assert Writes(start, turn, pre, e, Some(d.thinking.value.turn), ThinkingBlockRecorded(d.thinking.value.text, data));
      }
    case ToolUseCompleted(_, id, name, args) => assert Writes(start, turn, pre, e, Some(turn), ToolUseRecorded(id, name, args));
    case MessageCompleted(stop, usage) => assert Writes(start, turn, pre, e, Some(turn), ModelCallCompleted(stop, usage));
    case _ =>
  }

  lemma OneLatestSeal(kind: Kind, events: seq<ModelEvent>, lo: nat)
    requires SealedLastAt(kind, events, lo)
    ensures forall other: nat :: SealedLastAt(kind, events, other) ==> other == lo
  {
  }

  lemma WritersStep(start: Demux, turn: TurnId, events: seq<ModelEvent>)
    requires events != []
    ensures Writers(start, turn, events) == Writers(start, turn, DropLast(events)) +
            if WritesSome(start, turn, DropLast(events), LastOf(events)) then {|events| - 1} else {}
  {
    assert forall k :: 0 <= k < |events| - 1 ==> DropLast(events)[..k] == events[..k];
    assert events[..|events| - 1] == DropLast(events);
  }

  lemma WroteStays(start: Demux, turn: TurnId, events: seq<ModelEvent>, at: seq<nat>, log: Log)
    requires events != [] && Wrote(start, turn, DropLast(events), at, log)
    ensures Wrote(start, turn, events, at, log)
  {
    forall i | 0 <= i < |at| ensures WrittenBy(start, turn, events, at[i], log[|start.log| + i], |start.log| + i) {
      assert WrittenBy(start, turn, DropLast(events), at[i], log[|start.log| + i], |start.log| + i);
      assert DropLast(events)[..at[i]] == events[..at[i]];
    }
  }

  lemma WroteMore(start: Demux, turn: TurnId, events: seq<ModelEvent>, at: seq<nat>, log: Log, e: Event)
    requires events != [] && Wrote(start, turn, events, at, log)
    requires WrittenBy(start, turn, events, |events| - 1, e, |log|)
    ensures Wrote(start, turn, events, at + [|events| - 1], log + [e])
  {
  }

  /**
   The log: one event for each tool use, for each text or thinking block sealed behind a
   delta, and for the end of the response, in order of arrival. A sealed block's event has
   the joined deltas, and for thinking the opaque data that came with the seal.
   */
  lemma {:induction false} LogHoldsEveryWrite(start: Demux, turn: TurnId, events: seq<ModelEvent>) returns (at: seq<nat>)
    ensures Lists(at, Writers(start, turn, events)) && Wrote(start, turn, events, at, FeedAll(start, turn, events).log)
  {
    at := [];
    if events != [] {
      var pre, n := DropLast(events), |events| - 1;
      at := LogHoldsEveryWrite(start, turn, pre);
      var was, log := FeedAll(start, turn, pre).log, FeedAll(start, turn, events).log;
      FeedWrites(start, turn, pre, LastOf(events));
      WritersStep(start, turn, events);
      WroteStays(start, turn, events, at, was);
      if WritesSome(start, turn, pre, LastOf(events)) {
        assert events[..n] == pre && log == was + [log[|was|]];
        WroteMore(start, turn, events, at, was, log[|was|]);
        ListsSnoc(at, Writers(start, turn, pre), n);
        at := at + [n];
      }
    }
  }
}
