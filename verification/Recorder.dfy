/** The step recorder: buffers streamed text and appends one event per sealed block. */
module Recorder {
  import opened Wrappers
  import opened Events

  datatype Buffer = Buffer(turn: TurnId, text: string)

  function Extend(buf: Option<Buffer>, turn: TurnId, chunk: string): Buffer {
    match buf
    case None => Buffer(turn, chunk)
    case Some(b) => b.(text := b.text + chunk)
  }

  datatype StoreError = InvariantViolated(which: nat)

  /** Why a compaction range may be refused, numbered as the recorder numbers its invariants; 0 when it may not. */
  function RefusalOf(log: Log, turn: TurnId, first: nat, last: nat): nat {
    if last >= |log| then 1
    else if first > last then 2
    else if !exists i :: 0 <= i < |log| && log[i].seqNo == first && log[i].payload.TurnStarted? then 3
    else if !EndsTurn(log, last) then 4
    else if exists i :: 0 <= i < |log| && log[i].payload.ContextCompacted? && log[i].payload.forTurn == turn then 5
    else 0
  }

  /** The first event numbered above `last`, if any, opens a turn or a context pass. */
  predicate EndsTurn(log: Log, last: nat) {
    log == [] ||
    if log[0].seqNo > last then log[0].payload.TurnStarted? || log[0].payload.ContextManageEntered?
    else EndsTurn(log[1..], last)
  }

  /** The five invariants of a compaction range. */
  ghost predicate Meets(which: nat, log: Log, turn: TurnId, first: nat, last: nat) {
    match which
    case 1 => last < |log|
    case 2 => first <= last
    case 3 => exists i :: 0 <= i < |log| && log[i].seqNo == first && log[i].payload.TurnStarted?
    case 4 =>
      forall i :: 0 <= i < |log| && log[i].seqNo > last && (forall j :: 0 <= j < i ==> log[j].seqNo <= last) ==>
        log[i].payload.TurnStarted? || log[i].payload.ContextManageEntered?
    case 5 => forall i :: 0 <= i < |log| ==> !(log[i].payload.ContextCompacted? && log[i].payload.forTurn == turn)
    case _ => true
  }

  lemma {:induction false} EndsTurnMeans(log: Log, turn: TurnId, first: nat, last: nat)
    ensures EndsTurn(log, last) <==> Meets(4, log, turn, first, last)
  {
    if log != [] {
      var rest := log[1..];
      EndsTurnMeans(rest, turn, first, last);
      if log[0].seqNo <= last {
        assert forall i :: 0 <= i < |rest| ==> rest[i] == log[i + 1];
        FirstAboveShifts(log, last);
      }
    }
  }

  /** Behind a first event that is not above `last`, the first one above is the first of the rest. */
  lemma FirstAboveShifts(log: Log, last: nat)
    requires log != [] && log[0].seqNo <= last
    ensures forall i :: 0 <= i < |log| ==>
              ((log[i].seqNo > last && forall j :: 0 <= j < i ==> log[j].seqNo <= last) <==>
               (i > 0 && log[1..][i - 1].seqNo > last && forall j :: 0 <= j < i - 1 ==> log[1..][j].seqNo <= last))
  {
    forall i | 0 <= i < |log|
      ensures (log[i].seqNo > last && forall j :: 0 <= j < i ==> log[j].seqNo <= last) <==>
              (i > 0 && log[1..][i - 1].seqNo > last && forall j :: 0 <= j < i - 1 ==> log[1..][j].seqNo <= last)
    {
      assert forall j :: 0 < j < |log| ==> log[1..][j - 1] == log[j];
    }
  }

  /** A range is refused for the first invariant it fails, and for nothing else. */
  lemma RefusalMeans(log: Log, turn: TurnId, first: nat, last: nat)
    ensures var why := RefusalOf(log, turn, first, last);
            why <= 5 && (why > 0 ==> !Meets(why, log, turn, first, last)) &&
            forall k :: 1 <= k <= 5 && (why == 0 || k < why) ==> Meets(k, log, turn, first, last)
  {
    EndsTurnMeans(log, turn, first, last);
  }

  class StepRecorder {
    var log: Log
    var seqCounter: nat
    var text: Option<Buffer>
    var thinking: Option<Buffer>

    ghost predicate Valid()
      reads this
    {
      seqCounter == |log|
    }

    constructor (existing: Log)
      ensures Valid() && log == existing && text == None && thinking == None
    {
      log, seqCounter, text, thinking := existing, |existing|, None, None;
    }

    method AppendEvent(turn: Option<TurnId>, p: Payload) returns (id: EventId)
      requires Valid()
      modifies `log, `seqCounter
      ensures Valid() && log == Append(old(log), turn, p) && id == |old(log)|
    {
      id := |log|;
      log := log + [Event(SCHEMA_VERSION, id, turn, seqCounter, p)];
      seqCounter := seqCounter + 1;
    }

    method OnTextDelta(turn: TurnId, chunk: string)
      modifies `text
      ensures text == Some(Extend(old(text), turn, chunk))
    {
      text := Some(Extend(text, turn, chunk));
    }

    /** Flushes the buffered text as one event; writes nothing when no delta arrived. */
    method OnTextBlockComplete() returns (id: Option<EventId>)
      requires Valid()
      modifies `log, `seqCounter, `text
      ensures Valid() && text == None
      ensures match old(text)
              case None => log == old(log) && id == None
              case Some(b) => log == Append(old(log), Some(b.turn), AssistantMessageAppended(b.text)) && id == Some(|old(log)|)
    {
      if text.None? { return None; }
      var b := text.value;
      text := None;
      var eid := AppendEvent(Some(b.turn), AssistantMessageAppended(b.text));
      return Some(eid);
    }

    method OnThinkingDelta(turn: TurnId, chunk: string)
      modifies `thinking
      ensures thinking == Some(Extend(old(thinking), turn, chunk))
    {
      thinking := Some(Extend(thinking, turn, chunk));
    }

    method OnThinkingBlockComplete(data: Option<Json>) returns (id: Option<EventId>)
      requires Valid()
      modifies `log, `seqCounter, `thinking
      ensures Valid() && thinking == None
      ensures match old(thinking)
              case None => log == old(log) && id == None
              case Some(b) => log == Append(old(log), Some(b.turn), ThinkingBlockRecorded(b.text, data)) && id == Some(|old(log)|)
    {
      if thinking.None? { return None; }
      var b := thinking.value;
      thinking := None;
      var eid := AppendEvent(Some(b.turn), ThinkingBlockRecorded(b.text, data));
      return Some(eid);
    }

    /** Appends a compaction only when its range meets the five range invariants. */
    method RecordContextCompacted(turn: TurnId, first: nat, last: nat, replacement: Replacement,
                                  before: Option<nat>, after: Option<nat>)
      returns (r: Result<EventId, StoreError>)
      requires Valid()
      modifies `log, `seqCounter
      ensures Valid()
      ensures var why := RefusalOf(old(log), turn, first, last);
              if why == 0
              then log == Append(old(log), Some(turn), ContextCompacted(turn, first, last, replacement, before, after))
                   && r == Ok(|old(log)|)
              else log == old(log) && r == Err(InvariantViolated(why))
    {
      var why := RefusalOf(log, turn, first, last);
      if why != 0 { return Err(InvariantViolated(why)); }
      var id := AppendEvent(Some(turn), ContextCompacted(turn, first, last, replacement, before, after));
      return Ok(id);
    }

    /** Returns the turn's existing injection event if there is one. */
    method RecordSystemPromptInjected(turn: TurnId, suffix: string) returns (id: EventId)
      requires Valid()
      modifies `log, `seqCounter
      ensures Valid()
      ensures match FindInjected(old(log), turn)
              case Some(existing) => log == old(log) && id == existing
              case None => log == Append(old(log), Some(turn), SystemPromptInjected(turn, suffix)) && id == |old(log)|
    {
      var existing := FindInjected(log, turn);
      if existing.Some? { return existing.value; }
      id := AppendEvent(Some(turn), SystemPromptInjected(turn, suffix));
    }
  }

  /** The injection found is the turn's first. */
  lemma {:induction false} InjectedIsFirst(log: Log, turn: TurnId)
    ensures match FindInjected(log, turn)
            case None => forall i :: 0 <= i < |log| ==> !InjectsFor(log[i], turn)
            case Some(id) => exists i :: 0 <= i < |log| && InjectsFor(log[i], turn) && log[i].id == id &&
                                         forall j :: 0 <= j < i ==> !InjectsFor(log[j], turn)
  {
    if log != [] && !InjectsFor(log[0], turn) {
      var rest := log[1..];
      InjectedIsFirst(rest, turn);
      assert forall i :: 0 < i < |log| ==> log[i] == rest[i - 1];
      if FindInjected(rest, turn).Some? {
        var i :| 0 <= i < |rest| && InjectsFor(rest[i], turn) && rest[i].id == FindInjected(rest, turn).value &&
                 forall j :: 0 <= j < i ==> !InjectsFor(rest[j], turn);
        assert InjectsFor(log[i + 1], turn);
      }
    }
  }

  predicate InjectsFor(e: Event, turn: TurnId) {
    e.payload.SystemPromptInjected? && e.payload.forTurn == turn
  }

  function FindInjected(log: Log, turn: TurnId): Option<EventId> {
    if log == [] then None
    else if log[0].payload.SystemPromptInjected? && log[0].payload.forTurn == turn then Some(log[0].id)
    else FindInjected(log[1..], turn)
  }
}
