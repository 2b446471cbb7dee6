/** What a projection keeps of the log, and what a compaction changes in it. */
module Faithful {
  import opened Wrappers
  import opened Events
  import opened Projector

  predicate InjectedAt(log: Log, turn: TurnId, i: int) {
    0 <= i < |log| && log[i].payload.SystemPromptInjected? && log[i].payload.forTurn == turn
  }

  /** The system message ends in the latest suffix injected for the turn, whatever else was injected. */
  lemma {:induction false} SuffixIsLatest(log: Log, prompt: string, turn: TurnId)
    ensures (forall i :: !InjectedAt(log, turn, i)) ==> SystemText(log, prompt, turn) == prompt
    ensures forall i :: InjectedAt(log, turn, i) && (forall j :: i < j ==> !InjectedAt(log, turn, j)) ==>
              SystemText(log, prompt, turn) ==
              if log[i].payload.suffix == "" then prompt else prompt + "\n\n" + log[i].payload.suffix
  {
    if log != [] {
      var pre, n := DropLast(log), |log| - 1;
      SuffixIsLatest(pre, prompt, turn);
      forall i ensures InjectedAt(log, turn, i) <==> InjectedAt(pre, turn, i) || (i == n && InjectedAt(log, turn, n)) {
        assert 0 <= i < n ==> log[i] == pre[i];
      }
      assert InjectedAt(log, turn, n) <==>
             LastOf(log).payload.SystemPromptInjected? && LastOf(log).payload.forTurn == turn;
    }
  }

  // ----- cuts -----

  lemma {:induction false} DraftSplits(a: seq<Payload>, p: Payload, b: seq<Payload>)
    requires IsCut(p)
    ensures var d := Drafted(b);
            Drafted(a + ([p] + b)) == d.(messages := (Messages(a) + OwnMessage(p)) + d.messages)
  {
    if b == [] {
      assert [p] + b == [p] && DropLast(a + [p]) == a;
      assert (Messages(a) + OwnMessage(p)) + [] == Messages(a) + OwnMessage(p);
    } else {
      var pre, last := DropLast(b), LastOf(b);
      assert DropLast(a + ([p] + b)) == a + ([p] + pre);
      DraftSplits(a, p, pre);
      TakeShifts(Messages(a) + OwnMessage(p), Drafted(pre), last);
    }
  }

  lemma FlushShifts(head: seq<Message>, d: Draft)
    ensures Flushed(d.(messages := head + d.messages)) == Flushed(d).(messages := head + Flushed(d).messages)
  {
  }

  lemma TakeShifts(head: seq<Message>, d: Draft, p: Payload)
    ensures Take(d.(messages := head + d.messages), p) == Take(d, p).(messages := head + Take(d, p).messages)
  {
    FlushShifts(head, d);
    if IsCut(p) {
      assert (head + Flushed(d).messages) + OwnMessage(p) == head + (Flushed(d).messages + OwnMessage(p));
    }
  }

  /** A user message, a tool result and a compaction end the message before them: both sides project on their own. */
  lemma CutSplits(a: seq<Payload>, p: Payload, b: seq<Payload>)
    requires IsCut(p)
    ensures Messages(a + ([p] + b)) == (Messages(a) + OwnMessage(p)) + Messages(b)
  {
    DraftSplits(a, p, b);
    FlushShifts(Messages(a) + OwnMessage(p), Drafted(b));
  }

  // ----- conservation -----

  datatype Piece = UserPiece(text: string) | BlockPiece(block: ContentBlock) | ResultPiece(callId: CallId, result: ToolResult)

  /** What an event contributes: exactly one piece, or none. */
  function PieceOf(p: Payload): Option<Piece> {
    match p
    case TurnStarted(input, _) => Some(UserPiece(ExtractText(input)))
    case ContextCompacted(_, _, _, Summary(text), _, _) => Some(UserPiece(SummaryText(text)))
    case AssistantMessageAppended(text) => Some(BlockPiece(TextBlock(text)))
    case ToolUseRecorded(id, name, args) => Some(BlockPiece(ToolUseBlock(id, name, args)))
    case ThinkingBlockRecorded(text, data) => Some(BlockPiece(ThinkingBlock(text, data)))
    case ToolResultRecorded(id, result) => Some(ResultPiece(id, result))
    case _ => None
  }

  predicate IsThought(x: Piece) {
    x.BlockPiece? && x.block.ThinkingBlock?
  }

  /** The thoughts, or everything else, in order. */
  function Only(thoughts: bool, s: seq<Piece>): seq<Piece> {
    if s == [] then []
    else if IsThought(LastOf(s)) == thoughts then Only(thoughts, DropLast(s)) + [LastOf(s)]
    else Only(thoughts, DropLast(s))
  }

  function Pieces(ps: seq<Payload>): seq<Piece> {
    if ps == [] then []
    else match PieceOf(LastOf(ps))
      case None => Pieces(DropLast(ps))
      case Some(x) => Pieces(DropLast(ps)) + [x]
  }

  function BlockPieces(blocks: seq<ContentBlock>): seq<Piece> {
    if blocks == [] then [] else BlockPieces(DropLast(blocks)) + [BlockPiece(LastOf(blocks))]
  }

  function ResultPieces(blocks: seq<ContentBlock>): seq<Piece> {
    if blocks == [] then []
    else if LastOf(blocks).ToolResultBlock?
    then ResultPieces(DropLast(blocks)) + [ResultPiece(LastOf(blocks).callId, LastOf(blocks).result)]
    else ResultPieces(DropLast(blocks))
  }

  function MessagePieces(m: Message): seq<Piece> {
    match m
    case System(_) => []
    case User(text) => [UserPiece(text)]
    case Assistant(blocks) => BlockPieces(blocks)
    case ToolMessage(_, blocks) => ResultPieces(blocks)
  }

  /** The pieces of all messages, in order. */
  function Unpacked(ms: seq<Message>): seq<Piece> {
    if ms == [] then [] else Unpacked(DropLast(ms)) + MessagePieces(LastOf(ms))
  }

  lemma {:induction false} OnlyConcat(thoughts: bool, a: seq<Piece>, b: seq<Piece>)
    ensures Only(thoughts, a + b) == Only(thoughts, a) + Only(thoughts, b)
  {
    if b == [] {
      assert a + b == a;
    } else {
      assert DropLast(a + b) == a + DropLast(b);
      OnlyConcat(thoughts, a, DropLast(b));
    }
  }

  lemma {:induction false} BlockPiecesConcat(a: seq<ContentBlock>, b: seq<ContentBlock>)
    ensures BlockPieces(a + b) == BlockPieces(a) + BlockPieces(b)
  {
    if b == [] {
      assert a + b == a;
    } else {
      assert DropLast(a + b) == a + DropLast(b);
      BlockPiecesConcat(a, DropLast(b));
    }
  }

  lemma UnpackedSnoc(ms: seq<Message>, m: Message)
    ensures Unpacked(ms + [m]) == Unpacked(ms) + MessagePieces(m)
  {
    assert DropLast(ms + [m]) == ms;
  }

  /** All pieces a draft holds, the buffered ones last. */
  function Held(d: Draft): seq<Piece> {
    Unpacked(d.messages) + BlockPieces(d.thinking + d.body)
  }

  lemma FlushHolds(d: Draft)
    ensures Held(Flushed(d)) == Held(d)
  {
    if !(d.thinking == [] && d.body == []) {
      UnpackedSnoc(d.messages, Assistant(d.thinking + d.body));
      assert Unpacked(d.messages + [Assistant(d.thinking + d.body)]) + [] == Held(d);
    }
  }

  lemma ToolMessagePieces(id: CallId, result: ToolResult)
    ensures MessagePieces(ToolMessage(id, [ToolResultBlock(id, result)])) == [ResultPiece(id, result)]
  {
    var blocks := [ToolResultBlock(id, result)];
    assert DropLast(blocks) == [] && ResultPieces([]) == [];
    assert ResultPieces(blocks) == [] + [ResultPiece(id, result)];
  }

  lemma OwnMessagePieces(ms: seq<Message>, p: Payload)
    requires IsCut(p)
    ensures Unpacked(ms + OwnMessage(p)) == Unpacked(ms) + (if PieceOf(p).None? then [] else [PieceOf(p).value])
  {
    if p.ToolResultRecorded? {
      ToolMessagePieces(p.callId, p.result);
      UnpackedSnoc(ms, ToolMessage(p.callId, [ToolResultBlock(p.callId, p.result)]));
    } else if p.TurnStarted? {
      UnpackedSnoc(ms, User(ExtractText(p.userInput)));
    } else if p.replacement.Summary? {
      UnpackedSnoc(ms, User(SummaryText(p.replacement.text)));
    } else {
      assert ms + [] == ms && Unpacked(ms) + [] == Unpacked(ms);
    }
  }

  /** The body never holds a thought and the thoughts are nothing else. */
  predicate Apart(d: Draft) {
    (forall i :: 0 <= i < |d.thinking| ==> d.thinking[i].ThinkingBlock?) &&
    (forall i :: 0 <= i < |d.body| ==> !d.body[i].ThinkingBlock?)
  }

  lemma {:induction false} OnlyBlocks(thoughts: bool, blocks: seq<ContentBlock>, are: bool)
    requires forall i :: 0 <= i < |blocks| ==> blocks[i].ThinkingBlock? == are
    ensures Only(thoughts, BlockPieces(blocks)) == if thoughts == are then BlockPieces(blocks) else []
  {
    if blocks != [] {
      var pre := DropLast(blocks);
      assert forall i :: 0 <= i < |pre| ==> pre[i] == blocks[i];
      OnlyBlocks(thoughts, pre, are);
      assert DropLast(BlockPieces(pre) + [BlockPiece(LastOf(blocks))]) == BlockPieces(pre);
    }
  }

  lemma OnlyBuffered(thoughts: bool, thinking: seq<ContentBlock>, body: seq<ContentBlock>)
    requires forall i :: 0 <= i < |thinking| ==> thinking[i].ThinkingBlock?
    requires forall i :: 0 <= i < |body| ==> !body[i].ThinkingBlock?
    ensures Only(thoughts, BlockPieces(thinking + body)) == BlockPieces(if thoughts then thinking else body)
  {
    BlockPiecesConcat(thinking, body);
    OnlyConcat(thoughts, BlockPieces(thinking), BlockPieces(body));
    OnlyBlocks(thoughts, thinking, true);
    OnlyBlocks(thoughts, body, false);
    assert [] + BlockPieces(body) == BlockPieces(body) && BlockPieces(thinking) + [] == BlockPieces(thinking);
  }

  lemma OnlyHeld(thoughts: bool, d: Draft)
    requires Apart(d)
    ensures Only(thoughts, Held(d)) ==
            Only(thoughts, Unpacked(d.messages)) + BlockPieces(if thoughts then d.thinking else d.body)
  {
    OnlyConcat(thoughts, Unpacked(d.messages), BlockPieces(d.thinking + d.body));
    OnlyBuffered(thoughts, d.thinking, d.body);
  }

  function Adding(thoughts: bool, s: seq<Piece>, p: Payload): seq<Piece> {
    match PieceOf(p)
    case None => s
    case Some(x) => if IsThought(x) == thoughts then s + [x] else s
  }

  lemma BlockPiecesSnoc(blocks: seq<ContentBlock>, b: ContentBlock)
    ensures BlockPieces(blocks + [b]) == BlockPieces(blocks) + [BlockPiece(b)]
  {
    assert DropLast(blocks + [b]) == blocks;
  }

  lemma OnlySnoc(thoughts: bool, s: seq<Piece>, x: Piece)
    ensures Only(thoughts, s + [x]) == if IsThought(x) == thoughts then Only(thoughts, s) + [x] else Only(thoughts, s)
  {
    assert DropLast(s + [x]) == s;
  }

  lemma ThoughtStaysApart(d: Draft, b: ContentBlock)
    requires Apart(d)
    ensures b.ThinkingBlock? ==> Apart(d.(thinking := d.thinking + [b]))
    ensures !b.ThinkingBlock? ==> Apart(d.(body := d.body + [b]))
  {
  }

  lemma AppendThought(thoughts: bool, d: Draft, b: ContentBlock)
    requires Apart(d) && b.ThinkingBlock?
    ensures var d' := d.(thinking := d.thinking + [b]);
            Apart(d') &&
            Only(thoughts, Held(d')) == if thoughts then Only(thoughts, Held(d)) + [BlockPiece(b)] else Only(thoughts, Held(d))
  {
    ThoughtStaysApart(d, b);
    OnlyHeld(thoughts, d);
    OnlyHeld(thoughts, d.(thinking := d.thinking + [b]));
    if thoughts {
      BlockPiecesSnoc(d.thinking, b);
      Assoc(Only(thoughts, Unpacked(d.messages)), BlockPieces(d.thinking), [BlockPiece(b)]);
    }
  }

  lemma AppendSpoken(thoughts: bool, d: Draft, b: ContentBlock)
    requires Apart(d) && !b.ThinkingBlock?
    ensures var d' := d.(body := d.body + [b]);
            Apart(d') &&
            Only(thoughts, Held(d')) == if thoughts then Only(thoughts, Held(d)) else Only(thoughts, Held(d)) + [BlockPiece(b)]
  {
    ThoughtStaysApart(d, b);
    OnlyHeld(thoughts, d);
    OnlyHeld(thoughts, d.(body := d.body + [b]));
    if !thoughts {
      BlockPiecesSnoc(d.body, b);
      Assoc(Only(thoughts, Unpacked(d.messages)), BlockPieces(d.body), [BlockPiece(b)]);
    }
  }

  lemma HeldFlat(ms: seq<Message>)
    ensures Held(Draft(ms, [], [])) == Unpacked(ms)
  {
    assert Unpacked(ms) + [] == Unpacked(ms);
  }

  lemma CutHoldsFlat(thoughts: bool, ms: seq<Message>, p: Payload)
    requires IsCut(p)
    ensures Only(thoughts, Unpacked(ms + OwnMessage(p))) == Adding(thoughts, Only(thoughts, Unpacked(ms)), p)
  {
    OwnMessagePieces(ms, p);
    if PieceOf(p).Some? {
      OnlySnoc(thoughts, Unpacked(ms), PieceOf(p).value);
    } else {
      assert Unpacked(ms) + [] == Unpacked(ms);
    }
  }

  lemma CutHolds(thoughts: bool, d: Draft, p: Payload)
    requires Apart(d) && IsCut(p)
    ensures Apart(Take(d, p)) && Only(thoughts, Held(Take(d, p))) == Adding(thoughts, Only(thoughts, Held(d)), p)
  {
    FlushHolds(d);
    var ms := Flushed(d).messages;
    HeldFlat(ms);
    HeldFlat(ms + OwnMessage(p));
    assert Flushed(d) == Draft(ms, [], []) && Take(d, p) == Draft(ms + OwnMessage(p), [], []);
    CutHoldsFlat(thoughts, ms, p);
  }

  lemma BlockHolds(thoughts: bool, d: Draft, p: Payload, b: ContentBlock)
    requires Apart(d) && PieceOf(p) == Some(BlockPiece(b))
    requires Take(d, p) == if b.ThinkingBlock? then d.(thinking := d.thinking + [b]) else d.(body := d.body + [b])
    ensures Apart(Take(d, p)) && Only(thoughts, Held(Take(d, p))) == Adding(thoughts, Only(thoughts, Held(d)), p)
  {
    if b.ThinkingBlock? { AppendThought(thoughts, d, b); } else { AppendSpoken(thoughts, d, b); }
  }

  lemma TakeHolds(thoughts: bool, d: Draft, p: Payload)
    requires Apart(d)
    ensures Apart(Take(d, p)) && Only(thoughts, Held(Take(d, p))) == Adding(thoughts, Only(thoughts, Held(d)), p)
  {
    match p
    case AssistantMessageAppended(text) => BlockHolds(thoughts, d, p, TextBlock(text));
    case ToolUseRecorded(id, name, args) => BlockHolds(thoughts, d, p, ToolUseBlock(id, name, args));
    case ThinkingBlockRecorded(text, data) => BlockHolds(thoughts, d, p, ThinkingBlock(text, data));
    case _ => if IsCut(p) { CutHolds(thoughts, d, p); }
  }

  lemma {:induction false} DraftHolds(thoughts: bool, ps: seq<Payload>)
    ensures Apart(Drafted(ps)) && Only(thoughts, Held(Drafted(ps))) == Only(thoughts, Pieces(ps))
  {
    if ps != [] {
      var pre, p := DropLast(ps), LastOf(ps);
      DraftHolds(thoughts, pre);
      TakeHolds(thoughts, Drafted(pre), p);
      if PieceOf(p).Some? { OnlySnoc(thoughts, Pieces(pre), PieceOf(p).value); }
    }
  }

  /**
   Projection conserves content: the messages hold exactly one piece per contributing
   event, the thoughts in log order and everything else in log order.
   */
  lemma ContentConserved(ps: seq<Payload>, thoughts: bool)
    ensures Only(thoughts, Unpacked(Messages(ps))) == Only(thoughts, Pieces(ps))
  {
    DraftHolds(thoughts, ps);
    FlushHolds(Drafted(ps));
    HeldFlat(Messages(ps));
  }

  // ----- the shape of assistant messages -----

  predicate ThinkingFirst(blocks: seq<ContentBlock>) {
    forall i, j :: 0 <= i < j < |blocks| && blocks[j].ThinkingBlock? ==> blocks[i].ThinkingBlock?
  }

  predicate WellShaped(m: Message) {
    m.Assistant? ==> m.blocks != [] && ThinkingFirst(m.blocks)
  }

  lemma FlushShaped(d: Draft)
    requires Apart(d) && forall i :: 0 <= i < |d.messages| ==> WellShaped(d.messages[i])
    ensures forall i :: 0 <= i < |Flushed(d).messages| ==> WellShaped(Flushed(d).messages[i])
    ensures Apart(Flushed(d))
  {
  }

  lemma {:induction false} DraftShaped(ps: seq<Payload>)
    ensures var d := Drafted(ps); Apart(d) && forall i :: 0 <= i < |d.messages| ==> WellShaped(d.messages[i])
  {
    if ps != [] {
      DraftShaped(DropLast(ps));
      FlushShaped(Drafted(DropLast(ps)));
    }
  }

  predicate EndsOpen(ms: seq<Message>) {
    ms != [] && LastOf(ms).Assistant?
  }

  predicate Alternating(ms: seq<Message>) {
    forall i :: 0 <= i < |ms| - 1 ==> !(ms[i].Assistant? && ms[i + 1].Assistant?)
  }

  predicate NoDrop(ps: seq<Payload>) {
    forall i :: 0 <= i < |ps| ==> !(ps[i].ContextCompacted? && ps[i].replacement.Drop?)
  }

  lemma TakeAlternates(d: Draft, p: Payload)
    requires Alternating(d.messages) && !EndsOpen(d.messages) && !(p.ContextCompacted? && p.replacement.Drop?)
    ensures Alternating(Take(d, p).messages) && !EndsOpen(Take(d, p).messages)
  {
    if IsCut(p) {
      var f := Flushed(d).messages;
      assert |OwnMessage(p)| == 1 && !OwnMessage(p)[0].Assistant?;
      assert Take(d, p).messages == f + OwnMessage(p);
    }
  }

  lemma {:induction false} DraftAlternates(ps: seq<Payload>)
    requires NoDrop(ps)
    ensures Alternating(Drafted(ps).messages) && !EndsOpen(Drafted(ps).messages)
  {
    if ps != [] {
      assert forall i :: 0 <= i < |ps| - 1 ==> DropLast(ps)[i] == ps[i];
      DraftAlternates(DropLast(ps));
      TakeAlternates(Drafted(DropLast(ps)), LastOf(ps));
    }
  }

  lemma DropSplits(a: seq<Payload>, c: Payload, b: seq<Payload>)
    requires c.ContextCompacted? && c.replacement.Drop?
    ensures Messages(a + ([c] + b)) == Messages(a) + Messages(b)
  {
    CutSplits(a, c, b);
    assert Messages(a) + [] == Messages(a);
  }

  /** Every assistant message has content, with all thinking first. */
  lemma AssistantMessagesShaped(ps: seq<Payload>)
    ensures forall i :: 0 <= i < |Messages(ps)| ==> WellShaped(Messages(ps)[i])
  {
    DraftShaped(ps);
    FlushShaped(Drafted(ps));
  }

  lemma WithoutDropsAlternates(ps: seq<Payload>)
    requires NoDrop(ps)
    ensures Alternating(Messages(ps))
  {
    DraftAlternates(ps);
  }

  predicate IsDrop(p: Payload) {
    p.ContextCompacted? && p.replacement.Drop?
  }

  /** Messages `i` and `i + 1` are both the assistant's. */
  predicate Adjacent(ms: seq<Message>, i: nat) {
    i + 1 < |ms| && ms[i].Assistant? && ms[i + 1].Assistant?
  }

  predicate StartsOpen(ms: seq<Message>) {
    ms != [] && ms[0].Assistant?
  }

  /** A drop at `n` with exactly `i + 1` messages before it, the last and the next of them the assistant's. */
  predicate DropBetween(ps: seq<Payload>, n: nat, i: nat) {
    n < |ps| && IsDrop(ps[n]) && |Messages(ps[..n])| == i + 1 &&
    EndsOpen(Messages(ps[..n])) && StartsOpen(Messages(ps[n + 1..]))
  }

  lemma SplitAtDrop(ps: seq<Payload>, n: nat)
    requires n < |ps| && IsDrop(ps[n])
    ensures Messages(ps) == Messages(ps[..n]) + Messages(ps[n + 1..])
  {
    DropSplits(ps[..n], ps[n], ps[n + 1..]);
    assert ps == ps[..n] + ([ps[n]] + ps[n + 1..]);
  }

  lemma DropBetweenIsAdjacent(ps: seq<Payload>, n: nat, i: nat)
    requires DropBetween(ps, n, i)
    ensures Adjacent(Messages(ps), i)
  {
    SplitAtDrop(ps, n);
  }

  /** A drop found left of another one stays where it is. */
  lemma DropOnTheLeft(ps: seq<Payload>, cut: nat, n: nat, i: nat)
    requires cut < |ps| && IsDrop(ps[cut]) && DropBetween(ps[..cut], n, i) && i + 1 < |Messages(ps[..cut])|
    ensures DropBetween(ps, n, i)
  {
    assert ps[..cut][..n] == ps[..n];
    SplitAtDrop(ps, cut);
    SplitAtDrop(ps, n);
    SplitAtDrop(ps[..cut], n);
    assert Messages(ps)[i + 1] == Messages(ps[..cut])[i + 1];
    assert Messages(ps)[i + 1] == Messages(ps[n + 1..])[0];
  }

  /** One found right of it is shifted by what comes before. */
  lemma DropOnTheRight(ps: seq<Payload>, cut: nat, n: nat, i: nat)
    requires cut < |ps| && IsDrop(ps[cut]) && DropBetween(ps[cut + 1..], n, i)
    ensures DropBetween(ps, cut + 1 + n, |Messages(ps[..cut])| + i)
  {
    var m := cut + 1 + n;
    assert ps[m] == ps[cut + 1..][n] && ps[m + 1..] == ps[cut + 1..][n + 1..];
    assert ps[..m][..cut] == ps[..cut] && ps[..m][cut + 1..] == ps[cut + 1..][..n];
    SplitAtDrop(ps[..m], cut);
  }

  /** Where an adjacent pair lies in messages that come in two parts. */
  lemma AroundCut(ms: seq<Message>, a: seq<Message>, b: seq<Message>, i: nat)
    requires ms == a + b && Adjacent(ms, i)
    ensures i + 1 < |a| ==> Adjacent(a, i)
    ensures i + 1 == |a| ==> EndsOpen(a) && StartsOpen(b)
    ensures i + 1 > |a| ==> Adjacent(b, i - |a|)
  {
  }

  lemma {:induction false} AdjacentNeedsDrop(ps: seq<Payload>, i: nat) returns (n: nat)
    requires Adjacent(Messages(ps), i)
    ensures DropBetween(ps, n, i)
    decreases |ps|
  {
    var cut := SomeDrop(ps, i);
    var k := |Messages(ps[..cut])|;
    SplitAtDrop(ps, cut);
    AroundCut(Messages(ps), Messages(ps[..cut]), Messages(ps[cut + 1..]), i);
    if i + 1 < k {
      n := AdjacentNeedsDrop(ps[..cut], i);
      DropOnTheLeft(ps, cut, n, i);
    } else if i + 1 == k {
      n := cut;
    } else {
      var m := AdjacentNeedsDrop(ps[cut + 1..], i - k);
      DropOnTheRight(ps, cut, m, i - k);
      n := cut + 1 + m;
    }
  }

  lemma SomeDrop(ps: seq<Payload>, i: nat) returns (cut: nat)
    requires Adjacent(Messages(ps), i)
    ensures cut < |ps| && IsDrop(ps[cut])
  {
    if NoDrop(ps) { WithoutDropsAlternates(ps); }
    cut :| 0 <= cut < |ps| && IsDrop(ps[cut]);
  }

  /**
   Two assistant messages are adjacent exactly where a visible drop stands between them:
   as many messages come before it as up to the first of the two, which is the last of
   them, and the second is the first behind it.
   */
  lemma AdjacentAcrossDrops(ps: seq<Payload>, i: nat)
    ensures Adjacent(Messages(ps), i) <==> exists n: nat :: DropBetween(ps, n, i)
  {
    if Adjacent(Messages(ps), i) {
      var n := AdjacentNeedsDrop(ps, i);
    } else {
      forall n: nat ensures !DropBetween(ps, n, i) {
        if DropBetween(ps, n, i) { DropBetweenIsAdjacent(ps, n, i); }
      }
    }
  }
}
