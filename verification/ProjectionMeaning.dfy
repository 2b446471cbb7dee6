/** What the projector makes of each visible event, said of the event itself. */
module ProjectionMeaning {
  import opened Wrappers
  import opened Events
  import opened Listing
  import opened Coverage
  import opened Projector
  import opened Faithful

  // ----- the text of a user message -----

  ghost function TextPositions(blocks: seq<ContentBlock>): set<nat> {
    set k: nat | k < |blocks| && blocks[k].TextBlock?
  }

  /** `parts` are the texts of the text blocks, in order; other blocks add nothing. */
  ghost predicate PartsOf(blocks: seq<ContentBlock>, parts: seq<string>) {
    exists at :: Lists(at, TextPositions(blocks)) && ReadsParts(blocks, at, parts)
  }

  ghost predicate ReadsParts(blocks: seq<ContentBlock>, at: seq<nat>, parts: seq<string>) {
    |parts| == |at| && forall i :: 0 <= i < |at| ==> at[i] < |blocks| && blocks[at[i]] == TextBlock(parts[i])
  }

  /** The part that begins at `off` stands there in the text. */
  predicate StandsAt(text: string, part: string, off: nat) {
    off + |part| <= |text| && text[off..off + |part|] == part
  }

  /** The parts fill the text in order, with one space between neighbours. */
  predicate SpacedAt(parts: seq<string>, text: string, offs: seq<nat>) {
    |offs| == |parts| &&
    (forall i :: 0 <= i < |parts| ==> StandsAt(text, parts[i], offs[i])) &&
    (forall i :: 0 < i < |parts| ==> offs[i] == offs[i - 1] + |parts[i - 1]| + 1 && text[offs[i] - 1] == ' ') &&
    if parts == [] then text == "" else offs[0] == 0 && offs[|parts| - 1] + |parts[|parts| - 1]| == |text|
  }

  ghost predicate SaysInput(input: seq<ContentBlock>, text: string) {
    exists parts, offs :: PartsOf(input, parts) && SpacedAt(parts, text, offs)
  }

  lemma {:induction false} TextsListed(blocks: seq<ContentBlock>) returns (at: seq<nat>)
    ensures Lists(at, TextPositions(blocks)) && ReadsParts(blocks, at, Texts(blocks))
  {
    at := [];
    if blocks != [] {
      var pre, n := DropLast(blocks), |blocks| - 1;
      at := TextsListed(pre);
      if blocks[n].TextBlock? {
        ListsSnoc(at, TextPositions(pre), n);
        assert TextPositions(blocks) == TextPositions(pre) + {n};
        at := at + [n];
      } else {
        assert TextPositions(blocks) == TextPositions(pre);
      }
    }
  }

  lemma StillStands(text: string, part: string, off: nat, more: string)
    requires StandsAt(text, part, off)
    ensures StandsAt(text + more, part, off)
  {
    assert (text + more)[off..off + |part|] == text[off..off + |part|];
  }

  lemma SpacedSnoc(parts: seq<string>, text: string, offs: seq<nat>, part: string)
    requires SpacedAt(parts, text, offs) && parts != []
    ensures SpacedAt(parts + [part], text + " " + part, offs + [|text| + 1])
  {
    var more := text + (" " + part);
    assert text + " " + part == more && StandsAt(more, part, |text| + 1) && more[|text|] == ' ';
    forall i | 0 <= i < |parts| ensures StandsAt(more, parts[i], offs[i]) { StillStands(text, parts[i], offs[i], " " + part); }
    assert forall i :: 0 <= i < |text| ==> more[i] == text[i];
  }

  lemma {:induction false} JoinIsSpaced(parts: seq<string>) returns (offs: seq<nat>)
    ensures SpacedAt(parts, JoinBySpace(parts), offs)
  {
    if |parts| <= 1 {
      offs := if parts == [] then [] else [0];
    } else {
      offs := JoinIsSpaced(DropLast(parts));
      SpacedSnoc(DropLast(parts), JoinBySpace(DropLast(parts)), offs, LastOf(parts));
      Snoc(parts);
      offs := offs + [|JoinBySpace(DropLast(parts))| + 1];
    }
  }

  lemma InputIsSaid(input: seq<ContentBlock>)
    ensures SaysInput(input, ExtractText(input))
  {
    var at := TextsListed(input);
    var offs := JoinIsSpaced(Texts(input));
  }

  // ----- pieces -----

  /** What a visible event brings to the prompt. */
  ghost predicate Brings(p: Payload, x: Piece) {
    match p
    case TurnStarted(input, _) => x.UserPiece? && SaysInput(input, x.text)
    case ContextCompacted(_, _, _, Summary(text), _, _) =>
      x == UserPiece("<conversation_summary>\n" + text + "\n</conversation_summary>")
    case AssistantMessageAppended(text) => x == BlockPiece(TextBlock(text))
    case ToolUseRecorded(id, name, args) => x == BlockPiece(ToolUseBlock(id, name, args))
    case ThinkingBlockRecorded(text, data) => x == BlockPiece(ThinkingBlock(text, data))
    case ToolResultRecorded(id, result) => x == ResultPiece(id, result)
    case _ => false
  }

  predicate IsContent(p: Payload) {
    p.TurnStarted? || (p.ContextCompacted? && p.replacement.Summary?) || p.AssistantMessageAppended? ||
    p.ToolUseRecorded? || p.ThinkingBlockRecorded? || p.ToolResultRecorded?
  }

  /** The positions of the content that no compaction in `whole` hides. */
  ghost function ContentPositions(whole: Log, log: Log): set<nat> {
    set k: nat | k < |log| && !Covered(whole, log[k].seqNo) && IsContent(log[k].payload)
  }

  ghost predicate BringAt(log: Log, at: seq<nat>, xs: seq<Piece>) {
    |xs| == |at| && forall i :: 0 <= i < |at| ==> at[i] < |log| && Brings(log[at[i]].payload, xs[i])
  }

  lemma PieceIsBrought(p: Payload)
    ensures PieceOf(p).Some? <==> IsContent(p)
    ensures PieceOf(p).Some? ==> Brings(p, PieceOf(p).value)
  {
    if p.TurnStarted? { InputIsSaid(p.userInput); }
  }

  lemma ContentStep(whole: Log, log: Log)
    requires log != []
    ensures ContentPositions(whole, log) == ContentPositions(whole, DropLast(log)) +
            if !Covered(whole, LastOf(log).seqNo) && IsContent(LastOf(log).payload) then {|log| - 1} else {}
  {
  }

  lemma PiecesStep(whole: Log, log: Log)
    requires log != []
    ensures var e, was := LastOf(log), Pieces(Visible(whole, DropLast(log)));
            Pieces(Visible(whole, log)) ==
            if Covered(whole, e.seqNo) || PieceOf(e.payload).None? then was else was + [PieceOf(e.payload).value]
  {
    var seen := Visible(whole, DropLast(log));
    assert DropLast(seen + [LastOf(log).payload]) == seen;
  }

  lemma PieceBroughtAt(log: Log, at: seq<nat>, xs: seq<Piece>)
    requires log != [] && BringAt(DropLast(log), at, xs)
    ensures BringAt(log, at, xs)
    ensures forall x :: Brings(LastOf(log).payload, x) ==> BringAt(log, at + [|log| - 1], xs + [x])
  {
    assert forall i :: 0 <= i < |at| ==> DropLast(log)[at[i]] == log[at[i]];
  }

  lemma {:induction false} PiecesListed(whole: Log, log: Log) returns (at: seq<nat>)
    ensures Lists(at, ContentPositions(whole, log)) && BringAt(log, at, Pieces(Visible(whole, log)))
  {
    at := [];
    if log != [] {
      var e, n := LastOf(log), |log| - 1;
      at := PiecesListed(whole, DropLast(log));
      PieceBroughtAt(log, at, Pieces(Visible(whole, DropLast(log))));
      ContentStep(whole, log);
      PiecesStep(whole, log);
      PieceIsBrought(e.payload);
      if !Covered(whole, e.seqNo) && IsContent(e.payload) {
        ListsSnoc(at, ContentPositions(whole, DropLast(log)), n);
        at := at + [n];
      }
    }
  }

  lemma {:induction false} UnpackedConcat(a: seq<Message>, b: seq<Message>)
    ensures Unpacked(a + b) == Unpacked(a) + Unpacked(b)
  {
    if b == [] {
      assert a + b == a;
    } else {
      assert DropLast(a + b) == a + DropLast(b) && LastOf(a + b) == LastOf(b);
      UnpackedConcat(a, DropLast(b));
      Assoc(Unpacked(a), Unpacked(DropLast(b)), MessagePieces(LastOf(b)));
    }
  }

  lemma SystemAddsNoPiece(text: string, ms: seq<Message>)
    ensures Unpacked([System(text)] + ms) == Unpacked(ms)
  {
    UnpackedConcat([System(text)], ms);
    UnpackedSnoc([], System(text));
    assert [] + [System(text)] == [System(text)] && [] + Unpacked(ms) == Unpacked(ms);
  }

  /**
   Conservation, said of the log: behind the system message, the prompt consists of one
   piece for each event that is visible and has content, each saying what its event says;
   the thoughts are in log order and so is everything else.
   */
  lemma PromptSaysTheLog(log: Log, prompt: string, turn: TurnId) returns (at: seq<nat>, xs: seq<Piece>)
    ensures Lists(at, ContentPositions(log, log)) && BringAt(log, at, xs)
    ensures var ms := Projection(log, prompt, turn);
            ms[0].System? && Systemless(ms[1..]) &&
            Only(true, Unpacked(ms)) == Only(true, xs) && Only(false, Unpacked(ms)) == Only(false, xs)
  {
    at := PiecesListed(log, log);
    xs := Pieces(Visible(log, log));
    ContentConserved(Visible(log, log), true);
    ContentConserved(Visible(log, log), false);
    SystemAddsNoPiece(SystemText(log, prompt, turn), Messages(Visible(log, log)));
    NoSystem(Visible(log, log));
  }

  predicate Systemless(ms: seq<Message>) {
    forall i :: 0 <= i < |ms| ==> !ms[i].System?
  }

  lemma FlushAddsNoSystem(d: Draft)
    requires Systemless(d.messages)
    ensures Systemless(Flushed(d).messages)
  {
  }

  lemma TakeAddsNoSystem(d: Draft, p: Payload)
    requires Systemless(d.messages)
    ensures Systemless(Take(d, p).messages)
  {
    FlushAddsNoSystem(d);
    assert Systemless(OwnMessage(p));
  }

  lemma {:induction false} DraftHasNoSystem(ps: seq<Payload>)
    ensures Systemless(Drafted(ps).messages)
  {
    if ps != [] {
      DraftHasNoSystem(DropLast(ps));
      TakeAddsNoSystem(Drafted(DropLast(ps)), LastOf(ps));
    }
  }

  lemma NoSystem(ps: seq<Payload>)
    ensures Systemless(Messages(ps))
  {
    DraftHasNoSystem(ps);
    FlushAddsNoSystem(Drafted(ps));
  }

  // ----- user messages -----

  lemma AloneIsAll(parts: seq<string>, text: string, offs: seq<nat>)
    requires SpacedAt(parts, text, offs) && |parts| <= 1
    ensures text == if parts == [] then "" else parts[0]
  {
    if |parts| == 1 { assert StandsAt(text, parts[0], offs[0]); }
  }

  lemma Ascends(at: seq<nat>)
    requires forall i, j :: 0 <= i < j < |at| ==> at[i] < at[j]
    ensures |at| >= 2 ==> at[0] < at[1]
  {
  }

  lemma OnlyText(input: seq<ContentBlock>, at: seq<nat>, k: nat)
    requires Lists(at, TextPositions(input)) && forall i :: 0 <= i < |input| && i != k ==> !input[i].TextBlock?
    ensures at == if k < |input| && input[k].TextBlock? then [k] else []
  {
    assert forall i :: 0 <= i < |at| ==> at[i] in at;
    Ascends(at);
    if k < |input| && input[k].TextBlock? { assert k in at; }
  }

  /** One text block alone is the whole message; without any, it is empty. */
  lemma OneTextIsTheMessage(input: seq<ContentBlock>, text: string, k: nat)
    requires SaysInput(input, text)
    requires forall i :: 0 <= i < |input| && i != k ==> !input[i].TextBlock?
    ensures text == if k < |input| && input[k].TextBlock? then input[k].text else ""
  {
    var parts, offs :| PartsOf(input, parts) && SpacedAt(parts, text, offs);
    var at :| Lists(at, TextPositions(input)) && ReadsParts(input, at, parts);
    OnlyText(input, at, k);
    AloneIsAll(parts, text, offs);
  }

  /** The user message of a visible turn says its input. */
  lemma UserIsHeard(log: Log, prompt: string, turn: TurnId, k: nat) returns (i: nat)
    requires k < |log| && log[k].payload.TurnStarted? && !Covered(log, log[k].seqNo)
    ensures var ms := Projection(log, prompt, turn);
            i < |ms| && ms[i].User? && SaysInput(log[k].payload.userInput, ms[i].text)
  {
    var a, p, b := Visible(log, log[..k]), log[k].payload, Visible(log, log[k + 1..]);
    VisibleAround(log, log, k);
    CutSplits(a, p, b);
    InputIsSaid(p.userInput);
    i := BetweenParts(System(SystemText(log, prompt, turn)), Messages(a), OwnMessage(p)[0], Messages(b));
  }

  lemma BetweenParts<T>(first: T, a: seq<T>, x: T, b: seq<T>) returns (i: nat)
    ensures var all := [first] + ((a + [x]) + b); i < |all| && all[i] == x
  {
    i := 1 + |a|;
  }

  lemma {:induction false} VisibleAround(whole: Log, log: Log, k: nat)
    requires k < |log| && !Covered(whole, log[k].seqNo)
    ensures Visible(whole, log) == Visible(whole, log[..k]) + ([log[k].payload] + Visible(whole, log[k + 1..]))
  {
    var pre, n := DropLast(log), |log| - 1;
    if k == n {
      assert log[..k] == pre && log[k + 1..] == [];
      assert [log[k].payload] + [] == [log[k].payload];
    } else {
      VisibleAround(whole, pre, k);
      assert pre[..k] == log[..k] && pre[k] == log[k];
      assert DropLast(log[k + 1..]) == pre[k + 1..] && LastOf(log[k + 1..]) == log[n];
      if !Covered(whole, log[n].seqNo) {
        var a, x, b, y := Visible(whole, log[..k]), log[k].payload, Visible(whole, pre[k + 1..]), log[n].payload;
        Assoc(a, [x] + b, [y]);
        Assoc([x], b, [y]);
      }
    }
  }
}
