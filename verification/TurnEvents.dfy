/** Under which turn every event of a run is logged, and how a turn ends. */
module TurnEvents {
  import opened Wrappers
  import opened Events
  import opened Resume
  import opened Runtime
  import opened RuntimeSafety

  /** The turn started last, at or before `k`. */
  ghost predicate StartedLast(log: Log, k: nat, turn: Option<TurnId>) {
    exists i :: 0 <= i <= k < |log| && log[i].payload.TurnStarted? && log[i].turn == turn &&
                forall j :: i < j <= k ==> !log[j].payload.TurnStarted?
  }

  /** The opening of the session has no turn; every other event has that of the latest start. */
  ghost predicate Attributed(log: Log, k: nat)
    requires k < |log|
  {
    if log[k].payload.SessionStarted? then log[k].turn == None
    else log[k].turn.Some? && StartedLast(log, k, log[k].turn)
  }

  ghost predicate InTurn(s: State) {
    !s.ctl.mem.Ready? ==> s.log != [] && StartedLast(s.log, |s.log| - 1, Some(s.ctl.mem.turn))
  }

  ghost predicate AllAttributed(s: State) {
    InTurn(s) && forall k :: 0 <= k < |s.log| ==> Attributed(s.log, k)
  }

  lemma StartedLastStays(log: Log, e: Event, k: nat, turn: Option<TurnId>)
    requires k < |log| && StartedLast(log, k, turn)
    ensures StartedLast(log + [e], k, turn)
    ensures k == |log| - 1 && !e.payload.TurnStarted? ==> StartedLast(log + [e], |log|, turn)
  {
    var i :| 0 <= i <= k && log[i].payload.TurnStarted? && log[i].turn == turn &&
             forall j :: i < j <= k ==> !log[j].payload.TurnStarted?;
    var more := log + [e];
    assert forall j :: 0 <= j < |log| ==> more[j] == log[j];
    assert more[i].payload.TurnStarted?;
  }

  /** A step's event, if it writes one: the first of a turn, the session's opening, or one more of the turn. */
  lemma StepWrites(c: Control, l: Label)
    requires Live(c, l).Some?
    ensures var m := Live(c, l).value;
            (m.write.None? ==> !m.ctl.mem.Ready? ==> !c.mem.Ready? && m.ctl.mem.turn == c.mem.turn) &&
            (m.write.Some? && c.mem.Ready? ==>
               (m.write.value.SessionStarted? && m.ctl.mem.Ready?) || (m.write.value.TurnStarted? && !m.ctl.mem.Ready?)) &&
            (m.write.Some? && !c.mem.Ready? ==>
               !m.write.value.SessionStarted? && !m.write.value.TurnStarted? &&
               (!m.ctl.mem.Ready? ==> m.ctl.mem.turn == c.mem.turn))
  {
  }

  lemma OthersStay(log: Log, e: Event)
    requires forall k :: 0 <= k < |log| ==> Attributed(log, k)
    ensures forall k :: 0 <= k < |log| ==> Attributed(log + [e], k)
  {
    forall k | 0 <= k < |log| ensures Attributed(log + [e], k) {
      assert Attributed(log, k) && (log + [e])[k] == log[k];
      if !log[k].payload.SessionStarted? { StartedLastStays(log, e, k, log[k].turn); }
    }
  }

  lemma WriteAttributed(s: State, l: Label)
    requires AllAttributed(s) && !l.Reopen? && Apply(s, l).Some? && Live(s.ctl, l).value.write.Some?
    ensures AllAttributed(Apply(s, l).value)
  {
    StepWrites(s.ctl, l);
    var m, t := Live(s.ctl, l).value, Apply(s, l).value;
    var e := LastOf(t.log);
    assert t.log == s.log + [e];
    OthersStay(s.log, e);
    if s.ctl.mem.Ready? {
      if m.write.value.TurnStarted? { assert StartedLast(t.log, |s.log|, e.turn); }
    } else {
      StartedLastStays(s.log, e, |s.log| - 1, Some(s.ctl.mem.turn));
    }
  }

  lemma ReopenedTurn(s: State)
    requires Inv(s) && !s.ctl.live && Apply(s, Reopen).Some?
    ensures var t := Apply(s, Reopen).value;
            t.log == s.log && (!t.ctl.mem.Ready? ==> !s.ctl.mem.Ready? && t.ctl.mem.turn == s.ctl.mem.turn)
  {
    ForwardIsPhase(s);
  }

  lemma {:induction false} RunAttributed(steps: seq<Label>)
    requires Run(START, steps).Some?
    ensures AllAttributed(Run(START, steps).value)
  {
    if steps != [] {
      RunAttributed(DropLast(steps));
      var s, l := Run(START, DropLast(steps)).value, LastOf(steps);
      if l.Reopen? {
        RunKeepsInv(DropLast(steps));
        ReopenedTurn(s);
      } else {
        StepWrites(s.ctl, l);
        if Live(s.ctl, l).value.write.Some? { WriteAttributed(s, l); }
      }
    }
  }

  /** Over any run with any crashes, every event but the session's opening is logged under the turn started last. */
  lemma EventsCarryTheirTurn(steps: seq<Label>, k: nat)
    requires Run(START, steps).Some? && k < |Run(START, steps).value.log|
    ensures Attributed(Run(START, steps).value.log, k)
  {
    RunAttributed(steps);
  }

  // ----- endings -----

  /** A turn whose answer is sealed and asks for no tools can complete, and then a fresh one may start. */
  lemma AnsweredTurnCompletes(steps: seq<Label>, turn: TurnId, out: ModelOutput)
    requires Run(START, steps).Some? && Run(START, steps).value.ctl.live
    requires Forward(Run(START, steps).value.log).Ok?
    requires Forward(Run(START, steps).value.log).value.point == FromModelCompleted(turn, out)
    ensures var s, t := Run(START, steps).value, Run(START, steps + [Finish]);
            t.Some? && t.value.log == Append(s.log, Some(turn), TurnCompleted) &&
            Forward(t.value.log) == Ok(Decision(FreshTurn, Some(|s.log|)))
  {
    var s := Run(START, steps).value;
    RunKeepsInv(steps);
    ReplayRecoversPhase(steps);
    AnswerIsInMemory(s.ctl, turn, out);
    RunSnoc(steps, Finish, s);
    Wrote(s, Finish, s.ctl.(mem := Ready(None), latch := None), TurnCompleted);
    ReplayRecoversPhase(steps + [Finish]);
  }

  lemma AnswerIsInMemory(c: Control, turn: TurnId, out: ModelOutput)
    requires Phase(c) == FromModelCompleted(turn, out) && (c.latch.Some? ==> c.latch.value.AfterJobCompletion?)
    ensures Live(c, Finish) == Some(Move(c.(mem := Ready(None), latch := None), Some(TurnCompleted))) && TurnOf(c.mem) == Some(turn)
  {
  }

  /** A turn completes only right behind the seal of a model call. */
  lemma {:induction false} CompletesBehindSeal(steps: seq<Label>, k: nat)
    requires Run(START, steps).Some? && k < |Run(START, steps).value.log| && Run(START, steps).value.log[k].payload.TurnCompleted?
    ensures k > 0 && Run(START, steps).value.log[k - 1].payload.ModelCallCompleted?
  {
    if steps != [] {
      var s, t := Run(START, DropLast(steps)).value, Run(START, steps).value;
      LogGrows(s, LastOf(steps));
      if k < |s.log| {
        CompletesBehindSeal(DropLast(steps), k);
      } else {
        RunResolves(DropLast(steps));
        FinishWrites(s, LastOf(steps));
      }
    }
  }

  lemma LogGrows(s: State, l: Label)
    requires Apply(s, l).Some?
    ensures var t := Apply(s, l).value; s.log <= t.log && |t.log| <= |s.log| + 1
  {
  }

  /** With nothing kept, open or rejected, the seal is the log's last event. */
  ghost predicate Resolves(s: State) {
    s.ctl.mem.Resolving? && s.ctl.mem.done == [] ==> s.log != [] && LastOf(s.log).payload.ModelCallCompleted?
  }

  lemma FinishWrites(s: State, l: Label)
    requires Resolves(s) && Apply(s, l).Some? && |Apply(s, l).value.log| == |s.log| + 1
    requires LastOf(Apply(s, l).value.log).payload.TurnCompleted?
    ensures s.log != [] && LastOf(s.log).payload.ModelCallCompleted?
  {
    assert l.Finish?;
  }

  lemma LiveResolves(c: Control, l: Label)
    requires Live(c, l).Some?
    ensures var m := Live(c, l).value;
            m.ctl.mem.Resolving? && m.ctl.mem.done == [] ==>
              (m.write.Some? && m.write.value.ModelCallCompleted?) ||
              (m.write.None? && c.mem.Resolving? && c.mem.done == [])
  {
  }

  lemma ResolvesOn(s: State, l: Label)
    requires Resolves(s) && Apply(s, l).Some? && !l.Reopen?
    ensures Resolves(Apply(s, l).value)
  {
    LiveResolves(s.ctl, l);
  }

  lemma {:induction false} RunResolves(steps: seq<Label>)
    requires Run(START, steps).Some?
    ensures Resolves(Run(START, steps).value)
  {
    if steps != [] {
      RunResolves(DropLast(steps));
      RunKeepsInv(DropLast(steps));
      var s := Run(START, DropLast(steps)).value;
      if LastOf(steps).Reopen? { ReopenResolves(s); } else { ResolvesOn(s, LastOf(steps)); }
    }
  }

  lemma ReopenResolves(s: State)
    requires Inv(s) && Resolves(s) && !s.ctl.live && Apply(s, Reopen).Some?
    ensures Resolves(Apply(s, Reopen).value)
  {
    ForwardIsPhase(s);
  }
}
