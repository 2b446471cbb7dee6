/** Which skills one uncut call activates, said of the log and the provider. */
module SkillMeaning {
  import opened Wrappers
  import opened Events
  import opened Listing
  import opened SkillInjector
  import Sigil
  import Utf8

  // ----- what is asked for -----

  predicate InjectedFor(e: Event, turn: TurnId) {
    e.turn == Some(turn) && e.payload.SystemPromptInjected?
  }

  predicate StartsTurn(e: Event, turn: TurnId) {
    e.turn == Some(turn) && e.payload.TurnStarted?
  }

  /** The names the user listed when the turn started. */
  ghost predicate UserAsks(log: Log, turn: TurnId, names: seq<string>) {
    if exists k :: 0 <= k < |log| && StartsTurn(log[k], turn)
    then exists k :: 0 <= k < |log| && StartsTurn(log[k], turn) && names == log[k].payload.activateSkills &&
                     forall j :: 0 <= j < k ==> !StartsTurn(log[j], turn)
    else names == []
  }

  /** The model wrote the name as a sigil outside code before the turn began, and may invoke it. */
  ghost predicate ModelAsks(log: Log, turn: TurnId, p: Provider, name: string) {
    name in p.registered && name !in p.disabled && exists k :: MentionedAt(log, turn, name, k)
  }

  ghost predicate MentionedAt(log: Log, turn: TurnId, name: string, k: int) {
    0 <= k < |log| && (forall j :: 0 <= j <= k ==> log[j].turn != Some(turn)) &&
    log[k].payload.AssistantMessageAppended? && IsSigilOf(log[k].payload.text, name)
  }

  /** Scanned on its own, the text has a reported sigil of this name. */
  ghost predicate IsSigilOf(text: string, name: string) {
    var bytes := Utf8.Encode(text);
    exists k :: 0 <= k < |Sigil.HitsBefore(Sigil.Normal, bytes, |bytes|)| &&
                NameText(Sigil.HitsBefore(Sigil.Normal, bytes, |bytes|)[k].name) == name
  }

  predicate Distinct(names: seq<string>) {
    forall i, j :: 0 <= i < j < |names| ==> names[i] != names[j]
  }

  lemma {:induction false} UserIsAsked(log: Log, turn: TurnId)
    ensures UserAsks(log, turn, UserChannel(log, turn))
  {
    if log != [] && !StartsTurn(log[0], turn) {
      var rest := log[1..];
      UserIsAsked(rest, turn);
      assert forall k :: 0 < k < |log| ==> log[k] == rest[k - 1];
      if exists k :: 0 <= k < |rest| && StartsTurn(rest[k], turn) {
        var k :| 0 <= k < |rest| && StartsTurn(rest[k], turn) && UserChannel(rest, turn) == rest[k].payload.activateSkills &&
                 forall j :: 0 <= j < k ==> !StartsTurn(rest[j], turn);
        assert StartsTurn(log[k + 1], turn);
      }
    }
  }

  lemma {:induction false} ExistingIsFirst(log: Log, turn: TurnId)
    ensures match FindExisting(log, turn)
            case None => forall i :: 0 <= i < |log| ==> !InjectedFor(log[i], turn)
            case Some(id) => exists i :: 0 <= i < |log| && InjectedFor(log[i], turn) && log[i].id == id &&
                                         forall j :: 0 <= j < i ==> !InjectedFor(log[j], turn)
  {
    if log != [] && !InjectedFor(log[0], turn) {
      var rest := log[1..];
      ExistingIsFirst(rest, turn);
      assert forall i :: 0 < i < |log| ==> log[i] == rest[i - 1];
      if FindExisting(rest, turn).Some? {
        var i :| 0 <= i < |rest| && InjectedFor(rest[i], turn) && rest[i].id == FindExisting(rest, turn).value &&
                 forall j :: 0 <= j < i ==> !InjectedFor(rest[j], turn);
        assert InjectedFor(log[i + 1], turn);
      }
    }
  }

  lemma {:induction false} AddedNames(names: seq<string>, more: seq<string>, p: Provider)
    requires Distinct(names)
    ensures var out := AddNew(names, more, p);
            names <= out && Distinct(out) && forall n :: n in out <==> n in names || (n in more && MayInvoke(p, n))
  {
    if more != [] {
      AddedNames(names, DropLast(more), p);
      assert more == DropLast(more) + [LastOf(more)];
    }
  }

  lemma {:induction false} HitNamesAt(hits: seq<Sigil.Hit>)
    ensures |HitNames(hits)| == |hits| && forall k :: 0 <= k < |hits| ==> HitNames(hits)[k] == NameText(hits[k].name)
  {
    if hits != [] { HitNamesAt(DropLast(hits)); }
  }

  lemma SigilsAreNames(text: string, name: string)
    ensures name in SigilsIn(text) <==> IsSigilOf(text, name)
  {
    var bytes := Utf8.Encode(text);
    var hits := Sigil.HitsBefore(Sigil.Normal, bytes, |bytes|);
    HitNamesAt(hits);
    if name in SigilsIn(text) {
      var k :| 0 <= k < |HitNames(hits)| && HitNames(hits)[k] == name;
      assert NameText(hits[k].name) == name;
    }
    if IsSigilOf(text, name) {
      var k :| 0 <= k < |hits| && NameText(hits[k].name) == name;
      assert HitNames(hits)[k] == name;
    }
  }

  lemma MentionedMore(log: Log, turn: TurnId, name: string)
    requires log != []
    ensures (exists k :: MentionedAt(log, turn, name, k)) <==>
            (exists k :: MentionedAt(DropLast(log), turn, name, k)) ||
            (!Reached(log, turn) && LastOf(log).payload.AssistantMessageAppended? && IsSigilOf(LastOf(log).payload.text, name))
  {
    var pre, n := DropLast(log), |log| - 1;
    forall k | 0 <= k < n ensures MentionedAt(log, turn, name, k) <==> MentionedAt(pre, turn, name, k) {
      assert forall j :: 0 <= j < n ==> pre[j] == log[j];
    }
    if exists k :: MentionedAt(log, turn, name, k) {
      var k :| MentionedAt(log, turn, name, k);
      assert k < n ==> MentionedAt(pre, turn, name, k);
    }
    if !Reached(log, turn) && LastOf(log).payload.AssistantMessageAppended? && IsSigilOf(LastOf(log).payload.text, name) {
      assert MentionedAt(log, turn, name, n);
    }
    if exists k :: MentionedAt(pre, turn, name, k) {
      var k :| MentionedAt(pre, turn, name, k);
      assert MentionedAt(log, turn, name, k);
    }
  }

  /** The model's channel: just the names it asks for, each once, those of earlier messages first. */
  lemma {:induction false} ModelIsAsked(log: Log, turn: TurnId, p: Provider)
    ensures var names := ModelChannel(log, turn, p);
            Distinct(names) && (forall name :: name in names <==> ModelAsks(log, turn, p, name)) &&
            (log != [] ==> ModelChannel(DropLast(log), turn, p) <= names)
  {
    if log == [] {
      forall name ensures !ModelAsks(log, turn, p, name) {}
    } else {
      var pre := DropLast(log);
      ModelIsAsked(pre, turn, p);
      var before := ModelChannel(pre, turn, p);
      if LastOf(log).payload.AssistantMessageAppended? { AddedNames(before, SigilsIn(LastOf(log).payload.text), p); }
      forall name ensures name in ModelChannel(log, turn, p) <==> ModelAsks(log, turn, p, name) {
        MentionedMore(log, turn, name);
        if LastOf(log).payload.AssistantMessageAppended? { SigilsAreNames(LastOf(log).payload.text, name); }
        assert ModelAsks(pre, turn, p, name) <==> MayInvoke(p, name) && exists k :: MentionedAt(pre, turn, name, k);
      }
    }
  }

  // ----- what was activated before -----

  /** The tool use at `u` asked for the skill, and the result at `r` says it went well. */
  predicate LoadedByTool(log: Log, name: string, u: int, r: int) {
    0 <= u < |log| && 0 <= r < |log| && log[u].payload.ToolUseRecorded? && log[u].payload.toolName == "activate_skill" &&
    log[u].payload.args.name == Some(name) && log[r].payload.ToolResultRecorded? &&
    log[r].payload.callId == log[u].payload.callId && log[r].payload.result.Output?
  }

  predicate ActivatedAt(log: Log, name: string, k: int) {
    0 <= k < |log| && log[k].payload.SkillActivated? && log[k].payload.skillName == name
  }

  /** In the log already: by an activation event, or by an `activate_skill` call whose result is no error. */
  ghost predicate Activated(log: Log, name: string) {
    (exists k :: ActivatedAt(log, name, k)) || exists u, r :: LoadedByTool(log, name, u, r)
  }

  lemma PriorMeans(log: Log, name: string)
    ensures Prior(log, name) <==> Activated(log, name)
  {
    if Prior(log, name) {
      var i :| 0 <= i < |log| && (ActivatesHere(log[i].payload, name) || ActivatesByTool(log, log[i].payload, name));
      if ActivatesHere(log[i].payload, name) {
        assert ActivatedAt(log, name, i);
      } else {
        var r :| 0 <= r < |log| && log[r].payload.ToolResultRecorded? && log[r].payload.callId == log[i].payload.callId &&
                 log[r].payload.result.Output?;
        assert LoadedByTool(log, name, i, r);
      }
    }
    if k :| ActivatedAt(log, name, k) { assert ActivatesHere(log[k].payload, name); }
    if u, r :| LoadedByTool(log, name, u, r) {
      assert Succeeded(log, log[u].payload.callId);
      assert ActivatesByTool(log, log[u].payload, name);
    }
  }

  // ----- what is activated -----

  /** The first mentions of names that were not activated before and have content. */
  ghost function Wanted(candidates: seq<Candidate>, log: Log, p: Provider): set<nat> {
    set k: nat | k < |candidates| && !Prior(log, candidates[k].0) && candidates[k].0 in p.available &&
                 forall j :: 0 <= j < k ==> candidates[j].0 != candidates[k].0
  }

  ghost predicate Picks(candidates: seq<Candidate>, at: seq<nat>, chosen: seq<Candidate>) {
    |chosen| == |at| && forall i :: 0 <= i < |at| ==> at[i] < |candidates| && chosen[i] == candidates[at[i]]
  }

  lemma WantedStep(candidates: seq<Candidate>, log: Log, p: Provider)
    requires candidates != []
    ensures var pre, c := DropLast(candidates), LastOf(candidates);
            Wanted(candidates, log, p) == Wanted(pre, log, p) +
            if Prior(log, c.0) || Named(pre, c.0) || c.0 !in p.available then {} else {|pre|}
  {
    var pre := DropLast(candidates);
    assert forall j :: 0 <= j < |pre| ==> pre[j] == candidates[j];
  }

  lemma {:induction false} ChosenListed(candidates: seq<Candidate>, log: Log, p: Provider) returns (at: seq<nat>)
    ensures Lists(at, Wanted(candidates, log, p)) && Picks(candidates, at, Chosen(candidates, log, p))
  {
    at := [];
    if candidates != [] {
      var pre, c := DropLast(candidates), LastOf(candidates);
      at := ChosenListed(pre, log, p);
      WantedStep(candidates, log, p);
      assert forall i :: 0 <= i < |at| ==> pre[at[i]] == candidates[at[i]];
      if !(Prior(log, c.0) || Named(pre, c.0) || c.0 !in p.available) {
        ListsSnoc(at, Wanted(pre, log, p), |pre|);
        at := at + [|pre|];
      }
    }
  }

  /** Asked for by the user or the model, new to the log, and with content. */
  ghost predicate Due(log: Log, turn: TurnId, p: Provider, name: string) {
    (name in UserChannel(log, turn) || ModelAsks(log, turn, p, name)) && !Activated(log, name) && name in p.available
  }

  /** The channel that counts: the user's, when both asked. */
  function ChannelOf(log: Log, turn: TurnId, name: string): Channel {
    if name in UserChannel(log, turn) then UserSlash else ModelSigil
  }

  lemma CandidateAt(log: Log, turn: TurnId, p: Provider, k: nat)
    ensures var user, model := UserChannel(log, turn), ModelChannel(log, turn, p);
            |Candidates(log, turn, p)| == |user| + |model| &&
            (k < |user| ==> Candidates(log, turn, p)[k] == (user[k], UserSlash)) &&
            (|user| <= k < |user| + |model| ==> Candidates(log, turn, p)[k] == (model[k - |user|], ModelSigil))
  {
  }

  lemma {:induction false} FirstMention(candidates: seq<Candidate>, name: string) returns (k: nat)
    requires Named(candidates, name)
    ensures k < |candidates| && candidates[k].0 == name && forall j :: 0 <= j < k ==> candidates[j].0 != name
  {
    if candidates[0].0 == name {
      k := 0;
    } else {
      var rest := candidates[1..];
      var i :| 0 <= i < |candidates| && candidates[i].0 == name;
      assert rest[i - 1].0 == name;
      k := FirstMention(rest, name);
      k := k + 1;
      assert forall j :: 0 < j < |candidates| ==> candidates[j] == rest[j - 1];
    }
  }

  lemma NamedMeansAsked(log: Log, turn: TurnId, p: Provider, name: string)
    ensures Named(Candidates(log, turn, p), name) <==> name in UserChannel(log, turn) || ModelAsks(log, turn, p, name)
  {
    var cs, user, model := Candidates(log, turn, p), UserChannel(log, turn), ModelChannel(log, turn, p);
    ModelIsAsked(log, turn, p);
    forall k: nat ensures k < |user| ==> cs[k].0 == user[k] { CandidateAt(log, turn, p, k); }
    forall k: nat ensures |user| <= k < |user| + |model| ==> cs[k].0 == model[k - |user|] { CandidateAt(log, turn, p, k); }
    if name in user {
      var k :| 0 <= k < |user| && user[k] == name;
      assert cs[k].0 == name;
    }
    if name in model {
      var k :| 0 <= k < |model| && model[k] == name;
      assert cs[|user| + k].0 == name;
    }
  }

  lemma PickedOnce(candidates: seq<Candidate>, log: Log, p: Provider, name: string)
    ensures (exists c :: c in Chosen(candidates, log, p) && c.0 == name) <==>
            Named(candidates, name) && !Prior(log, name) && name in p.available
  {
    var chosen := Chosen(candidates, log, p);
    var at := ChosenListed(candidates, log, p);
    if Named(candidates, name) && !Prior(log, name) && name in p.available {
      var k := FirstMention(candidates, name);
      assert k in Wanted(candidates, log, p);
      assert k in at;
      var i :| 0 <= i < |at| && at[i] == k;
      assert chosen[i] in chosen && chosen[i].0 == name;
    }
    if c :| c in chosen && c.0 == name {
      var i :| 0 <= i < |chosen| && chosen[i] == c;
      assert at[i] in at;
    }
  }

  lemma ChannelCounts(log: Log, turn: TurnId, p: Provider, c: Candidate)
    requires c in Activations(log, turn, p)
    ensures c.1 == ChannelOf(log, turn, c.0)
  {
    var cs, chosen, user := Candidates(log, turn, p), Activations(log, turn, p), UserChannel(log, turn);
    var at := ChosenListed(cs, log, p);
    var i :| 0 <= i < |chosen| && chosen[i] == c;
    assert at[i] in at;
    CandidateAt(log, turn, p, at[i]);
    if c.0 in user {
      var u :| 0 <= u < |user| && user[u] == c.0;
      CandidateAt(log, turn, p, u);
      assert cs[u].0 == c.0;
    }
  }

  /**
   What a call activates: just the skills asked for by the user or the model that are new
   to the log and have content, through the channel that asked first.
   */
  lemma ActivatesTheDue(log: Log, turn: TurnId, p: Provider, name: string, channel: Channel)
    ensures (name, channel) in Activations(log, turn, p) <==> Due(log, turn, p, name) && channel == ChannelOf(log, turn, name)
  {
    PickedOnce(Candidates(log, turn, p), log, p, name);
    PriorMeans(log, name);
    NamedMeansAsked(log, turn, p, name);
    if Due(log, turn, p, name) {
      var c :| c in Activations(log, turn, p) && c.0 == name;
      ChannelCounts(log, turn, p, c);
      assert c == (name, c.1);
    }
    if (name, channel) in Activations(log, turn, p) { ChannelCounts(log, turn, p, (name, channel)); }
  }

  /** The log gained just the activations of these, in order, under the turn. */
  predicate Gained(log: Log, turn: TurnId, chosen: seq<Candidate>, done: Log) {
    |done| == |log| + |chosen| && log <= done &&
    forall k :: |log| <= k < |done| ==>
      done[k].turn == Some(turn) && done[k].payload == SkillActivated(chosen[k - |log|].0, chosen[k - |log|].1)
  }

  lemma GainedOne(log: Log, turn: TurnId, pre: seq<Candidate>, c: Candidate, was: Log)
    requires Gained(log, turn, pre, was)
    ensures Gained(log, turn, pre + [c], Append(was, Some(turn), SkillActivated(c.0, c.1)))
  {
  }

  lemma {:induction false} AppendedAll(log: Log, turn: TurnId, chosen: seq<Candidate>)
    ensures Gained(log, turn, chosen, AppendAll(log, turn, Activating(chosen)))
  {
    if chosen != [] {
      var pre, c := DropLast(chosen), LastOf(chosen);
      AppendedAll(log, turn, pre);
      GainedOne(log, turn, pre, c, AppendAll(log, turn, Activating(pre)));
      ChosenSnoc(log, turn, pre, c);
      Snoc(chosen);
    }
  }

  /** Behind an uncut call every skill that was due has its activation in the log, under the turn. */
  lemma DueIsLogged(log: Log, history: Log, turn: TurnId, p: Provider, name: string) returns (k: nat)
    requires Due(history, turn, p, name)
    ensures var done := AppendAll(log, turn, Activating(Activations(history, turn, p)));
            |log| <= k < |done| && done[k].turn == Some(turn) &&
            done[k].payload == SkillActivated(name, ChannelOf(history, turn, name))
  {
    var chosen, channel := Activations(history, turn, p), ChannelOf(history, turn, name);
    ActivatesTheDue(history, turn, p, name, channel);
    AppendedAll(log, turn, chosen);
    var i :| 0 <= i < |chosen| && chosen[i] == (name, channel);
    k := |log| + i;
  }
}
