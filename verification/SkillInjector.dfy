/**
 The skill injector: activates the skills a turn asks for, each at most once in the life
 of the log, and records the turn's system prompt suffix.
 */
module SkillInjector {
  import opened Wrappers
  import opened Events
  import opened Recorder
  import Sigil
  import Utf8

  /** What the skill provider answers: which names it lists, which the model may not invoke, which have content. */
  datatype Provider = Provider(registered: set<string>, disabled: set<string>, available: set<string>)

  type Candidate = (string, Channel)

  function NameText(name: seq<Utf8.Byte>): string {
    seq(|name|, i requires 0 <= i < |name| => name[i] as char)
  }

  function HitNames(hits: seq<Sigil.Hit>): seq<string> {
    if hits == [] then [] else HitNames(DropLast(hits)) + [NameText(LastOf(hits).name)]
  }

  /** The sigils of one finished text block, scanned on its own. */
  function SigilsIn(text: string): seq<string> {
    var bytes := Utf8.Encode(text);
    HitNames(Sigil.HitsBefore(Sigil.Normal, bytes, |bytes|))
  }

  // ----- collecting -----

  function FindExisting(log: Log, turn: TurnId): Option<EventId> {
    if log == [] then None
    else if log[0].turn == Some(turn) && log[0].payload.SystemPromptInjected? then Some(log[0].id)
    else FindExisting(log[1..], turn)
  }

  function UserChannel(log: Log, turn: TurnId): seq<string> {
    if log == [] then []
    else if log[0].turn == Some(turn) && log[0].payload.TurnStarted? then log[0].payload.activateSkills
    else UserChannel(log[1..], turn)
  }

  predicate MayInvoke(p: Provider, name: string) {
    name in p.registered && name !in p.disabled
  }

  /** Appends the names the model may invoke, without repeats. */
  function AddNew(names: seq<string>, more: seq<string>, p: Provider): seq<string> {
    if more == [] then names
    else
      var before := AddNew(names, DropLast(more), p);
      if MayInvoke(p, LastOf(more)) && LastOf(more) !in before then before + [LastOf(more)] else before
  }

  predicate Reached(log: Log, turn: TurnId) {
    exists i :: 0 <= i < |log| && log[i].turn == Some(turn)
  }

  /** Names the model wrote as sigils before the current turn. */
  function ModelChannel(log: Log, turn: TurnId, p: Provider): seq<string> {
    if log == [] then []
    else
      var before := ModelChannel(DropLast(log), turn, p);
      if Reached(log, turn) || !LastOf(log).payload.AssistantMessageAppended? then before
      else AddNew(before, SigilsIn(LastOf(log).payload.text), p)
  }

  predicate Succeeded(log: Log, id: CallId) {
    exists i :: 0 <= i < |log| && log[i].payload.ToolResultRecorded? && log[i].payload.callId == id &&
                log[i].payload.result.Output?
  }

  predicate ActivatesByTool(log: Log, p: Payload, name: string) {
    p.ToolUseRecorded? && p.toolName == "activate_skill" && p.args.name == Some(name) && Succeeded(log, p.callId)
  }

  predicate ActivatesHere(p: Payload, name: string) {
    p.SkillActivated? && p.skillName == name
  }

  /** Activated before: by an event of its own, or by an `activate_skill` call whose result succeeded. */
  predicate Prior(log: Log, name: string) {
    exists i :: 0 <= i < |log| && (ActivatesHere(log[i].payload, name) || ActivatesByTool(log, log[i].payload, name))
  }

  method CollectModelChannel(history: Log, turn: TurnId, p: Provider) returns (names: seq<string>)
    ensures names == ModelChannel(history, turn, p)
  {
    names := [];
    var hitCurrent := false;
    for i := 0 to |history|
      invariant names == ModelChannel(history[..i], turn, p)
      invariant hitCurrent <==> Reached(history[..i], turn)
    {
      assert DropLast(history[..i + 1]) == history[..i];
      ReachedSnoc(history[..i], history[i], turn);
      assert history[..i + 1] == history[..i] + [history[i]];
      if history[i].turn == Some(turn) { hitCurrent := true; }
      if !hitCurrent && history[i].payload.AssistantMessageAppended? {
        var text := history[i].payload.text;
        Utf8.EncodedIsValid(text);
        var hits, state := Sigil.FindSigilsOutsideCode(Sigil.Normal, Utf8.Encode(text));
        names := AddSigils(names, HitNames(hits), p);
      }
    }
    assert history[..|history|] == history;
  }

  method AddSigils(names: seq<string>, found: seq<string>, p: Provider) returns (out: seq<string>)
    ensures out == AddNew(names, found, p)
  {
    out := names;
    for i := 0 to |found|
      invariant out == AddNew(names, found[..i], p)
    {
      assert DropLast(found[..i + 1]) == found[..i];
      if MayInvoke(p, found[i]) && found[i] !in out { out := out + [found[i]]; }
    }
    assert found[..|found|] == found;
  }

  lemma ReachedSnoc(log: Log, e: Event, turn: TurnId)
    ensures Reached(log + [e], turn) <==> Reached(log, turn) || e.turn == Some(turn)
  {
    assert (log + [e])[|log|] == e;
    if Reached(log, turn) {
      var i :| 0 <= i < |log| && log[i].turn == Some(turn);
      assert (log + [e])[i] == log[i];
    }
  }

  method CollectPriorActivations(history: Log) returns (out: set<string>)
    ensures forall name :: name in out <==> Prior(history, name)
  {
    out := {};
    for i := 0 to |history|
      invariant forall name :: name in out <==> exists j :: 0 <= j < i && ActivatesHere(history[j].payload, name)
    {
      if history[i].payload.SkillActivated? { out := out + {history[i].payload.skillName}; }
    }
    var succeeded: set<CallId> := {};
    for i := 0 to |history|
      invariant forall id :: id in succeeded <==>
                  exists j :: 0 <= j < i && history[j].payload.ToolResultRecorded? && history[j].payload.callId == id &&
                              history[j].payload.result.Output?
    {
      if history[i].payload.ToolResultRecorded? && history[i].payload.result.Output? {
        succeeded := succeeded + {history[i].payload.callId};
      }
    }
    ghost var explicit := out;
    for i := 0 to |history|
      invariant forall name :: name in out <==>
                  name in explicit || exists j :: 0 <= j < i && ActivatesByTool(history, history[j].payload, name)
    {
      var p := history[i].payload;
      if p.ToolUseRecorded? && p.toolName == "activate_skill" && p.callId in succeeded && p.args.name.Some? {
        assert ActivatesByTool(history, p, p.args.name.value);
        out := out + {p.args.name.value};
      }
    }
  }

  // ----- choosing -----

  predicate Named(candidates: seq<Candidate>, name: string) {
    exists i :: 0 <= i < |candidates| && candidates[i].0 == name
  }

  /** First mentions of names not activated before that have content. */
  function Chosen(candidates: seq<Candidate>, log: Log, p: Provider): seq<Candidate> {
    if candidates == [] then []
    else
      var before, c := Chosen(DropLast(candidates), log, p), LastOf(candidates);
      if Prior(log, c.0) || Named(DropLast(candidates), c.0) || c.0 !in p.available then before else before + [c]
  }

  function Tagged(names: seq<string>, channel: Channel): seq<Candidate> {
    seq(|names|, i requires 0 <= i < |names| => (names[i], channel))
  }

  function Candidates(log: Log, turn: TurnId, p: Provider): seq<Candidate> {
    Tagged(UserChannel(log, turn), UserSlash) + Tagged(ModelChannel(log, turn, p), ModelSigil)
  }

  function NamesOf(chosen: seq<Candidate>): seq<string> {
    if chosen == [] then [] else NamesOf(DropLast(chosen)) + [LastOf(chosen).0]
  }

  function Activating(chosen: seq<Candidate>): seq<Payload> {
    if chosen == [] then [] else Activating(DropLast(chosen)) + [SkillActivated(LastOf(chosen).0, LastOf(chosen).1)]
  }

  function AppendAll(log: Log, turn: TurnId, ps: seq<Payload>): Log {
    if ps == [] then log else Append(AppendAll(log, turn, DropLast(ps)), Some(turn), LastOf(ps))
  }

  lemma NamedSnoc(cs: seq<Candidate>, c: Candidate, name: string)
    ensures Named(cs + [c], name) <==> Named(cs, name) || c.0 == name
  {
    assert (cs + [c])[|cs|] == c;
    if Named(cs, name) {
      var i :| 0 <= i < |cs| && cs[i].0 == name;
      assert (cs + [c])[i] == cs[i];
    }
  }

  /** The activations a call writes for a turn without an injection, in order. */
  function Activations(log: Log, turn: TurnId, p: Provider): seq<Candidate> {
    Chosen(Candidates(log, turn, p), log, p)
  }

  /** One call; the text of the suffix is the provider's business and comes in as `render`. */
  method Inject(p: Provider, render: seq<string> -> string, history: Log, turn: TurnId, recorder: StepRecorder)
    returns (id: EventId)
    requires recorder.Valid()
    modifies recorder
    ensures recorder.Valid()
    ensures match FindExisting(history, turn)
            case Some(existing) => id == existing && recorder.log == old(recorder.log)
            case None =>
              var chosen := Activations(history, turn, p);
              var activated := AppendAll(old(recorder.log), turn, Activating(chosen));
              match FindInjected(activated, turn)
              case Some(existing) => id == existing && recorder.log == activated
              case None =>
                id == |activated| &&
                recorder.log == Append(activated, Some(turn), SystemPromptInjected(turn, render(NamesOf(chosen))))
  {
    var existing := FindExisting(history, turn);
    if existing.Some? { return existing.value; }
    var userNames := UserChannel(history, turn);
    var modelNames := CollectModelChannel(history, turn, p);
    var prior := CollectPriorActivations(history);
    var seen: set<string> := {};
    var contributors: seq<string> := [];
    var candidates := Tagged(userNames, UserSlash) + Tagged(modelNames, ModelSigil);
    for i := 0 to |candidates|
      invariant recorder.Valid()
      invariant forall name :: name in seen <==> Named(candidates[..i], name) && name !in prior
      invariant contributors == NamesOf(Chosen(candidates[..i], history, p))
      invariant recorder.log == AppendAll(old(recorder.log), turn, Activating(Chosen(candidates[..i], history, p)))
    {
      var (name, channel) := candidates[i];
      ghost var before := Chosen(candidates[..i], history, p);
      assert DropLast(candidates[..i + 1]) == candidates[..i] && candidates[..i + 1] == candidates[..i] + [candidates[i]];
      forall n ensures Named(candidates[..i + 1], n) <==> Named(candidates[..i], n) || name == n {
        NamedSnoc(candidates[..i], candidates[i], n);
      }
      if name !in prior && name !in seen {
        seen := seen + {name};
        if name in p.available {
          ChosenSnoc(old(recorder.log), turn, before, candidates[i]);
          var activation := recorder.AppendEvent(Some(turn), SkillActivated(name, channel));
          contributors := contributors + [name];
        }
      }
    }
    assert candidates[..|candidates|] == candidates;
    id := recorder.RecordSystemPromptInjected(turn, render(contributors));
  }

  lemma ChosenSnoc(log: Log, turn: TurnId, chosen: seq<Candidate>, c: Candidate)
    ensures NamesOf(chosen + [c]) == NamesOf(chosen) + [c.0]
    ensures AppendAll(log, turn, Activating(chosen + [c])) ==
            Append(AppendAll(log, turn, Activating(chosen)), Some(turn), SkillActivated(c.0, c.1))
  {
    assert DropLast(chosen + [c]) == chosen;
    var ps, p := Activating(chosen), SkillActivated(c.0, c.1);
    assert Activating(chosen + [c]) == ps + [p];
    assert DropLast(ps + [p]) == ps;
  }

  // ----- runs -----

  /** A call may be cut off after any number of its writes; between calls anything but an activation is logged. */
  datatype Step =
    | Other(event: Event)
    | Call(turn: TurnId, provider: Provider, suffix: string, writes: nat)

  /** Everything a call writes, in order. */
  function Writes(log: Log, turn: TurnId, p: Provider, suffix: string): seq<Payload> {
    if FindExisting(log, turn).Some? then []
    else
      var activations := Activating(Activations(log, turn, p));
      if FindInjected(AppendAll(log, turn, activations), turn).Some? then activations
      else activations + [SystemPromptInjected(turn, suffix)]
  }

  /** A call that is not cut off leaves the log `Inject` leaves. */
  lemma CallIsItsWrites(log: Log, turn: TurnId, p: Provider, suffix: string)
    ensures AppendAll(log, turn, Writes(log, turn, p, suffix)) ==
            if FindExisting(log, turn).Some? then log
            else
              var activated := AppendAll(log, turn, Activating(Activations(log, turn, p)));
              if FindInjected(activated, turn).Some? then activated
              else Append(activated, Some(turn), SystemPromptInjected(turn, suffix))
  {
    var acts := Activating(Activations(log, turn, p));
    assert DropLast(acts + [SystemPromptInjected(turn, suffix)]) == acts;
  }

  function Do(log: Log, step: Step): Option<Log> {
    match step
    case Other(e) => if e.payload.SkillActivated? then None else Some(log + [e])
    case Call(turn, p, suffix, n) =>
      var ws := Writes(log, turn, p, suffix);
      if n <= |ws| then Some(AppendAll(log, turn, ws[..n])) else None
  }

  function Run(steps: seq<Step>): Option<Log> {
    if steps == [] then Some([])
    else match Run(DropLast(steps))
      case None => None
      case Some(log) => Do(log, LastOf(steps))
  }

  /** No activation in the log names a skill that was activated before it. */
  predicate ActivatesOnce(log: Log) {
    forall i :: 0 <= i < |log| && log[i].payload.SkillActivated? ==> !Prior(log[..i], log[i].payload.skillName)
  }

  lemma OnceSnoc(log: Log, e: Event)
    requires ActivatesOnce(log) && (e.payload.SkillActivated? ==> !Prior(log, e.payload.skillName))
    ensures ActivatesOnce(log + [e])
  {
    var longer := log + [e];
    forall i | 0 <= i < |longer| && longer[i].payload.SkillActivated?
      ensures !Prior(longer[..i], longer[i].payload.skillName)
    {
      if i < |log| {
        assert longer[..i] == log[..i] && longer[i] == log[i];
      } else {
        assert longer[..i] == log && longer[i] == e;
      }
    }
  }

  /** An activation event makes its own name a prior one, and no other. */
  lemma PriorAfterActivation(log: Log, e: Event, name: string)
    requires e.payload.SkillActivated?
    ensures Prior(log + [e], name) <==> Prior(log, name) || e.payload.skillName == name
  {
    var longer := log + [e];
    assert longer[|log|] == e && forall i :: 0 <= i < |log| ==> longer[i] == log[i];
    forall id ensures Succeeded(longer, id) <==> Succeeded(log, id) {
      if Succeeded(log, id) {
        var i :| 0 <= i < |log| && log[i].payload.ToolResultRecorded? && log[i].payload.callId == id &&
                 log[i].payload.result.Output?;
        assert longer[i] == log[i];
      }
    }
    if Prior(log, name) {
      var i :| 0 <= i < |log| && (ActivatesHere(log[i].payload, name) || ActivatesByTool(log, log[i].payload, name));
      assert ActivatesHere(longer[i].payload, name) || ActivatesByTool(longer, longer[i].payload, name);
    }
    if Prior(longer, name) && e.payload.skillName != name {
      var i :| 0 <= i < |longer| && (ActivatesHere(longer[i].payload, name) || ActivatesByTool(longer, longer[i].payload, name));
      assert i < |log| && (ActivatesHere(log[i].payload, name) || ActivatesByTool(log, log[i].payload, name));
    }
  }

  lemma {:induction false} ChosenAreNew(cs: seq<Candidate>, log: Log, p: Provider)
    ensures forall i :: 0 <= i < |Chosen(cs, log, p)| ==> !Prior(log, Chosen(cs, log, p)[i].0) && Named(cs, Chosen(cs, log, p)[i].0)
    ensures forall i, j :: 0 <= i < j < |Chosen(cs, log, p)| ==> Chosen(cs, log, p)[i].0 != Chosen(cs, log, p)[j].0
  {
    if cs != [] {
      var pre, c := DropLast(cs), LastOf(cs);
      ChosenAreNew(pre, log, p);
      assert cs == pre + [c];
      forall name ensures Named(cs, name) <==> Named(pre, name) || c.0 == name { NamedSnoc(pre, c, name); }
    }
  }

  lemma {:induction false} ActivatingAt(chosen: seq<Candidate>, i: nat)
    requires i < |chosen|
    ensures |Activating(chosen)| == |chosen| && Activating(chosen)[i] == SkillActivated(chosen[i].0, chosen[i].1)
  {
    ActivatingLength(DropLast(chosen));
    if i < |chosen| - 1 { ActivatingAt(DropLast(chosen), i); }
  }

  lemma {:induction false} ActivatingLength(chosen: seq<Candidate>)
    ensures |Activating(chosen)| == |chosen|
  {
    if chosen != [] { ActivatingLength(DropLast(chosen)); }
  }

  /** Payloads that activate distinct new skills, and otherwise are no activations. */
  predicate Harmless(log: Log, ps: seq<Payload>) {
    (forall i :: 0 <= i < |ps| && ps[i].SkillActivated? ==> !Prior(log, ps[i].skillName)) &&
    (forall i :: 0 <= i < |ps| - 1 ==> ps[i].SkillActivated?) &&
    (forall i, j :: 0 <= i < j < |ps| && ps[i].SkillActivated? && ps[j].SkillActivated? ==> ps[i].skillName != ps[j].skillName)
  }

  lemma {:induction false} HarmlessKeepsOnce(log: Log, turn: TurnId, ps: seq<Payload>)
    requires ActivatesOnce(log) && Harmless(log, ps)
    ensures ActivatesOnce(AppendAll(log, turn, ps))
    ensures (forall i :: 0 <= i < |ps| ==> ps[i].SkillActivated?) ==>
              forall name :: Prior(AppendAll(log, turn, ps), name) ==>
                Prior(log, name) || exists i :: 0 <= i < |ps| && ps[i].SkillActivated? && ps[i].skillName == name
  {
    if ps != [] {
      var pre, p := DropLast(ps), LastOf(ps);
      assert forall i :: 0 <= i < |pre| ==> pre[i] == ps[i];
      HarmlessKeepsOnce(log, turn, pre);
      var was := AppendAll(log, turn, pre);
      var e := Event(SCHEMA_VERSION, |was|, Some(turn), |was|, p);
      OnceSnoc(was, e);
      if p.SkillActivated? {
        forall name | Prior(was + [e], name)
          ensures Prior(log, name) || exists i :: 0 <= i < |ps| && ps[i].SkillActivated? && ps[i].skillName == name
        {
          PriorAfterActivation(was, e, name);
          if name == p.skillName { assert ps[|ps| - 1].skillName == name; }
        }
      }
    }
  }

  lemma HarmlessPrefix(log: Log, ps: seq<Payload>, n: nat)
    requires Harmless(log, ps) && n <= |ps|
    ensures Harmless(log, ps[..n])
  {
  }

  lemma HarmlessThenInjected(log: Log, ps: seq<Payload>, p: Payload)
    requires Harmless(log, ps) && (forall i :: 0 <= i < |ps| ==> ps[i].SkillActivated?) && !p.SkillActivated?
    ensures Harmless(log, ps + [p])
  {
    assert (ps + [p])[|ps|] == p && forall i :: 0 <= i < |ps| ==> (ps + [p])[i] == ps[i];
  }

  lemma ActivationsAreHarmless(log: Log, turn: TurnId, p: Provider)
    ensures var acts := Activating(Activations(log, turn, p));
            Harmless(log, acts) && forall i :: 0 <= i < |acts| ==> acts[i].SkillActivated?
  {
    var chosen := Activations(log, turn, p);
    ChosenAreNew(Candidates(log, turn, p), log, p);
    ActivatingLength(chosen);
    forall i | 0 <= i < |chosen| ensures Activating(chosen)[i] == SkillActivated(chosen[i].0, chosen[i].1) {
      ActivatingAt(chosen, i);
    }
  }

  lemma WritesAreHarmless(log: Log, turn: TurnId, p: Provider, suffix: string, n: nat)
    requires n <= |Writes(log, turn, p, suffix)|
    ensures Harmless(log, Writes(log, turn, p, suffix)[..n])
  {
    ActivationsAreHarmless(log, turn, p);
    HarmlessThenInjected(log, Activating(Activations(log, turn, p)), SystemPromptInjected(turn, suffix));
    HarmlessPrefix(log, Writes(log, turn, p, suffix), n);
  }

  /**
   Over any run of turns, with calls cut off anywhere between their writes and repeated: no
   skill is activated that was activated before, by an event or by a successful tool call.
   */
  lemma {:induction false} SkillsActivateOnce(steps: seq<Step>)
    requires Run(steps).Some?
    ensures ActivatesOnce(Run(steps).value)
  {
    if steps != [] {
      SkillsActivateOnce(DropLast(steps));
      var log := Run(DropLast(steps)).value;
      match LastOf(steps)
      case Other(e) => OnceSnoc(log, e);
      case Call(turn, p, suffix, n) =>
        WritesAreHarmless(log, turn, p, suffix, n);
        HarmlessKeepsOnce(log, turn, Writes(log, turn, p, suffix)[..n]);
    }
  }

  /** In particular no name has two activation events. */
  lemma NoSecondActivation(steps: seq<Step>, i: nat, j: nat)
    requires Run(steps).Some? && i < j < |Run(steps).value|
    requires Run(steps).value[i].payload.SkillActivated? && Run(steps).value[j].payload.SkillActivated?
    ensures Run(steps).value[i].payload.skillName != Run(steps).value[j].payload.skillName
  {
    SkillsActivateOnce(steps);
    var log := Run(steps).value;
    assert log[..j][i] == log[i];
    assert ActivatesHere(log[..j][i].payload, log[i].payload.skillName);
    assert Prior(log[..j], log[i].payload.skillName);
  }

  /** And none is activated once an `activate_skill` call for it has succeeded. */
  lemma NoActivationAfterToolSuccess(steps: seq<Step>, u: nat, r: nat, i: nat, name: string)
    requires Run(steps).Some? && u < i < |Run(steps).value| && r < i && ActivatesHere(Run(steps).value[i].payload, name)
    requires var p := Run(steps).value[u].payload;
             p.ToolUseRecorded? && p.toolName == "activate_skill" && p.args.name == Some(name)
    requires var q := Run(steps).value[r].payload; q.ToolResultRecorded? && q.callId == Run(steps).value[u].payload.callId
    ensures Run(steps).value[r].payload.result.Error?
  {
    SkillsActivateOnce(steps);
    var log := Run(steps).value;
    var before := log[..i];
    assert before[u] == log[u] && before[r] == log[r] && !Prior(before, name);
    assert ActivatesByTool(before, before[u].payload, name) <==> Succeeded(before, before[u].payload.callId);
  }

  lemma {:induction false} FindExistingConcat(a: Log, b: Log, turn: TurnId)
    ensures FindExisting(a + b, turn) == if FindExisting(a, turn).Some? then FindExisting(a, turn) else FindExisting(b, turn)
  {
    if a == [] {
      assert a + b == b;
    } else {
      assert (a + b)[1..] == a[1..] + b;
      FindExistingConcat(a[1..], b, turn);
    }
  }

  /** Injections carry the turn they are for. */
  predicate WellAddressed(log: Log) {
    forall i :: 0 <= i < |log| && log[i].payload.SystemPromptInjected? ==> log[i].turn == Some(log[i].payload.forTurn)
  }

  lemma {:induction false} SameInjection(log: Log, turn: TurnId)
    requires WellAddressed(log)
    ensures FindInjected(log, turn) == FindExisting(log, turn)
  {
    if log != [] { SameInjection(log[1..], turn); }
  }

  lemma {:induction false} AppendAllKeeps(log: Log, turn: TurnId, ps: seq<Payload>)
    requires WellAddressed(log) && forall i :: 0 <= i < |ps| && ps[i].SystemPromptInjected? ==> ps[i].forTurn == turn
    ensures log <= AppendAll(log, turn, ps) && WellAddressed(AppendAll(log, turn, ps))
    ensures (forall i :: 0 <= i < |ps| ==> !ps[i].SystemPromptInjected?) ==>
              FindExisting(AppendAll(log, turn, ps), turn) == FindExisting(log, turn)
  {
    if ps != [] {
      var pre := DropLast(ps);
      assert forall i :: 0 <= i < |pre| ==> pre[i] == ps[i];
      AppendAllKeeps(log, turn, pre);
      var was := AppendAll(log, turn, pre);
      FindExistingConcat(was, [Event(SCHEMA_VERSION, |was|, Some(turn), |was|, LastOf(ps))], turn);
    }
  }

  /**
   Once a call has gone through, a repeat for the same turn finds its injection event, on
   any later log, and writes nothing.
   */
  lemma RepeatWritesNothing(log: Log, turn: TurnId, p: Provider, suffix: string, more: Log, again: Provider, other: string)
    requires WellAddressed(log)
    ensures var done := AppendAll(log, turn, Writes(log, turn, p, suffix));
            FindExisting(done, turn).Some? && FindExisting(done + more, turn) == FindExisting(done, turn) &&
            Writes(done + more, turn, again, other) == []
  {
    var ws := Writes(log, turn, p, suffix);
    var done := AppendAll(log, turn, ws);
    if FindExisting(log, turn).None? {
      var chosen := Activations(log, turn, p);
      var acts := Activating(chosen);
      ActivatingLength(chosen);
      forall i | 0 <= i < |acts| ensures acts[i].SkillActivated? { ActivatingAt(chosen, i); }
      AppendAllKeeps(log, turn, acts);
      var was := AppendAll(log, turn, acts);
      SameInjection(was, turn);
      assert DropLast(acts + [SystemPromptInjected(turn, suffix)]) == acts;
      FindExistingConcat(was, [Event(SCHEMA_VERSION, |was|, Some(turn), |was|, SystemPromptInjected(turn, suffix))], turn);
    }
    FindExistingConcat(done, more, turn);
  }
}
