/** Concrete runs of a session with its job manager, from the very start. */
module SessionRuns {
  import opened Wrappers
  import opened Events
  import opened Resume
  import opened Runtime
  import opened SessionJobs
  import RuntimeSafety
  import Jobs
  import P = JobProtocol

  // ----- a job that is faster than the pause -----

  lemma FourSteps(s: Sys, a: Act, b: Act, c: Act, d: Act, s1: Sys, s2: Sys, s3: Sys)
    requires Do(s, a) == Some(s1) && Do(s1, b) == Some(s2) && Do(s2, c) == Some(s3)
    ensures Exec(s, [a, b, c, d]) == Do(s3, d)
  {
    assert DropLast([a, b, c, d]) == [a, b, c];
    assert DropLast([a, b, c]) == [a, b] && DropLast([a, b]) == [a] && DropLast([a]) == [];
    assert Exec(s, [a]) == Some(s1);
    assert Exec(s, [a, b]) == Some(s2);
  }

  /** Registering for a running job stores the sink, and its completion then issues the event. */
  lemma RegisterThenComplete(w: P.World, job: JobId, outcome: JobOutcome)
    requires P.Inv(w) && job in w.table && !Jobs.Terminal(w.table[job].status)
    ensures var n, k := |w.issued|, |w.regs|;
            var done := P.Act(P.Enrol(w, job), P.Complete(job, outcome));
            done.Some? && n !in done.value.sent && done.value.issued == w.issued + [Jobs.Send(k, job, outcome)]
  {
  }

  lemma DropEarly(s: Sys, m: Mail, k: Jobs.Sink)
    requires Waiting(s) && !s.overrun && s.mail == [m] && m.from == Some(k)
    ensures Do(s, Receive) == Some(s.(mail := [], handled := s.handled + {k}, marker := false))
  {
    assert s.mail[1..] == [];
  }

  lemma DeliverOne(s: Sys, n: nat, e: Jobs.Send)
    requires !s.overrun && n < |s.world.issued| && s.world.issued[n] == e && n !in s.world.sent && e.sink in s.mine && s.mail == []
    ensures Do(s, Worker(P.Deliver(n))) ==
            Some(s.(world := s.world.(sent := s.world.sent + {n}), mail := [Mail(e.job, e.outcome, Some(e.sink))]))
  {
    assert s.mail + [Mail(e.job, e.outcome, Some(e.sink))] == [Mail(e.job, e.outcome, Some(e.sink))];
  }

  lemma RegisteredNow(s: Sys)
    requires Waiting(s) && !s.overrun && s.reg.None? && s.actor.ctl.mem.job in s.world.table
    ensures var s1 := Enrolled(s, s.actor.ctl.mem.job, s.actor.ctl.mem.call.callId);
            Do(s, Register) == Some(s1) && |s.world.regs| in s1.mine && s1.reg == Some(|s.world.regs|) && !s1.overrun
  {
  }

  lemma CompletedNow(s: Sys, job: JobId, outcome: JobOutcome)
    requires !s.overrun && P.Act(s.world, P.Complete(job, outcome)).Some?
    ensures Do(s, Worker(P.Complete(job, outcome))) == Some(s.(world := P.Act(s.world, P.Complete(job, outcome)).value))
  {
  }

  lemma RegisteredAndDone(s: Sys, outcome: JobOutcome)
    requires SysInv(s) && Waiting(s) && s.reg.None?
    requires s.actor.ctl.mem.job in s.world.table && !Jobs.Terminal(s.world.table[s.actor.ctl.mem.job].status)
    ensures var job, n, k := s.actor.ctl.mem.job, |s.world.issued|, |s.world.regs|;
            var s1 := Enrolled(s, job, s.actor.ctl.mem.call.callId);
            var done := P.Act(s1.world, P.Complete(job, outcome));
            Do(s, Register) == Some(s1) && done.Some? &&
            Do(s1, Worker(P.Complete(job, outcome))) == Some(s1.(world := done.value)) &&
            k in s1.mine && s1.reg == Some(k) &&
            n !in done.value.sent && n < |done.value.issued| && done.value.issued[n] == Jobs.Send(k, job, outcome)
  {
    RegisterThenComplete(s.world, s.actor.ctl.mem.job, outcome);
    RegisteredNow(s);
    CompletedNow(Enrolled(s, s.actor.ctl.mem.job, s.actor.ctl.mem.call.callId), s.actor.ctl.mem.job, outcome);
  }

  /** The worker is faster than the pause: registered, completed, delivered, and taken from the mailbox too early. */
  function Fast(job: JobId, outcome: JobOutcome, n: nat): seq<Act> {
    [Register, Worker(P.Complete(job, outcome)), Worker(P.Deliver(n)), Receive]
  }

  lemma FastJob(s: Sys, outcome: JobOutcome)
    requires SysInv(s) && Waiting(s) && s.reg.None? && s.mail == []
    requires s.actor.ctl.mem.job in s.world.table && !Jobs.Terminal(s.world.table[s.actor.ctl.mem.job].status)
    ensures var t := Exec(s, Fast(s.actor.ctl.mem.job, outcome, |s.world.issued|));
            t.Some? && t.value.actor == s.actor && !t.value.overrun && !t.value.marker &&
            t.value.reg.Some? && t.value.reg.value in t.value.handled
  {
    var job, n, k := s.actor.ctl.mem.job, |s.world.issued|, |s.world.regs|;
    RegisteredAndDone(s, outcome);
    var s1 := Enrolled(s, job, s.actor.ctl.mem.call.callId);
    var w := P.Act(s1.world, P.Complete(job, outcome)).value;
    var s2 := s1.(world := w);
    DeliverOne(s2, n, Jobs.Send(k, job, outcome));
    var s3 := s2.(world := w.(sent := w.sent + {n}), mail := [Mail(job, outcome, Some(k))]);
    DropEarly(s3, Mail(job, outcome, Some(k)), k);
    FourSteps(s, Register, Worker(P.Complete(job, outcome)), Worker(P.Deliver(n)), Receive, s1, s2, s3);
  }

  lemma ThenOne(s: Sys, acts: seq<Act>, a: Act)
    requires Exec(s, acts).Some?
    ensures Exec(s, acts + [a]) == Do(Exec(s, acts).value, a)
  {
    assert DropLast(acts + [a]) == acts;
  }

  lemma ParkStep(s: Sys)
    requires Waiting(s) && !s.overrun && s.reg.Some?
    ensures Do(s, Park).Some?
    ensures var t := Do(s, Park).value; Parked(t) && !t.overrun && t.reg == s.reg && t.handled == s.handled
  {
    var m := Live(s.actor.ctl, Pause).value;
    assert m.ctl.mem.Paused? && m.write.Some?;
  }

  /** Parked on such a job, no run without a restart wakes the session. */
  lemma FastJobIsMissed(acts: seq<Act>, outcome: JobOutcome)
    requires Exec(BOOT, acts).Some? && Idles(Exec(BOOT, acts).value)
    ensures var s := Exec(BOOT, acts).value;
            var t := Exec(BOOT, acts + Fast(s.actor.ctl.mem.job, outcome, |s.world.issued|) + [Park]);
            t.Some? && Parked(t.value) && Missed(t.value) && !CanWake(t.value)
  {
    var s := Exec(BOOT, acts).value;
    var fast := Fast(s.actor.ctl.mem.job, outcome, |s.world.issued|);
    ExecKeepsInv(acts);
    FastJob(s, outcome);
    ExecSplits(BOOT, acts, fast);
    ParkStep(Exec(s, fast).value);
    ThenOne(BOOT, acts + fast, Park);
    WakesUnlessMissed(acts + fast + [Park]);
  }

  /** The next trigger, coming before the pause instead, starts a turn over the running one. */
  lemma FastJobLetsATriggerIn(acts: seq<Act>, outcome: JobOutcome, turn: TurnId, input: seq<ContentBlock>)
    requires Exec(BOOT, acts).Some? && Idles(Exec(BOOT, acts).value)
    ensures var s := Exec(BOOT, acts).value;
            var t := Exec(BOOT, acts + Fast(s.actor.ctl.mem.job, outcome, |s.world.issued|) + [Trigger(turn, input)]);
            t.Some? && t.value.overrun && forall more :: Forward(t.value.actor.log + more).Err?
  {
    var s := Exec(BOOT, acts).value;
    var fast := Fast(s.actor.ctl.mem.job, outcome, |s.world.issued|);
    ExecKeepsInv(acts);
    FastJob(s, outcome);
    ExecSplits(BOOT, acts, fast);
    TriggerTaken(Exec(s, fast).value, turn, input);
    ThenOne(BOOT, acts + fast, Trigger(turn, input));
    OverrunIsNested(acts + fast + [Trigger(turn, input)]);
    var log := Exec(BOOT, acts + fast + [Trigger(turn, input)]).value.actor.log;
    forall more ensures Forward(log + more).Err? { RuntimeSafety.NestedForever(log, more); }
  }

  /** A job was just submitted and runs, but is not registered for yet, and the mailbox is empty. */
  predicate Idles(s: Sys) {
    Waiting(s) && !s.overrun && s.reg.None? && s.mail == [] &&
    s.actor.ctl.mem.job in s.world.table && !Jobs.Terminal(s.world.table[s.actor.ctl.mem.job].status)
  }

  // ----- from the start -----

  /** Steps of one turn before any pause, as steps of the whole system. */
  function Lifted(steps: seq<Label>): seq<Act> {
    if steps == [] then []
    else var l := LastOf(steps);
         Lifted(DropLast(steps)) + [if l.Begin? then Trigger(l.turn, l.input) else Actor(l)]
  }

  predicate OfOneTurn(l: Label) {
    l.Begin? || !(Coordinated(l) || l.Finish? || l.Fail?)
  }

  /** The system with its actor at `t`, and the marker where a turn runs. */
  function At(s: Sys, t: State): Sys {
    s.(actor := t, marker := !t.ctl.mem.Ready?)
  }

  lemma LiftStep(s: Sys, a: State, l: Label)
    requires OfOneTurn(l) && a.ctl.live && !s.overrun && s.reg.None? && Apply(a, l).Some?
    ensures var t := Apply(a, l).value;
            t.ctl.live &&
            Do(At(s, a), if l.Begin? then Trigger(l.turn, l.input) else Actor(l)) == Some(At(s, t))
  {
    StaysRunning(a, l);
  }

  lemma StaysRunning(a: State, l: Label)
    requires OfOneTurn(l) && a.ctl.live && Apply(a, l).Some?
    ensures var t := Apply(a, l).value;
            t.ctl.live && (t.ctl.mem.Ready? <==> a.ctl.mem.Ready? && !l.Begin?) && (l.Begin? ==> a.ctl.mem.Ready?)
  {
  }

  lemma {:induction false} Lift(s: Sys, steps: seq<Label>)
    requires s.actor == START && !s.overrun && s.reg.None? && !s.marker
    requires Run(START, steps).Some? && forall i :: 0 <= i < |steps| ==> OfOneTurn(steps[i])
    ensures var t := Run(START, steps).value; t.ctl.live && Exec(s, Lifted(steps)) == Some(At(s, t))
  {
    if steps != [] {
      assert forall i :: 0 <= i < |steps| - 1 ==> DropLast(steps)[i] == steps[i];
      Lift(s, DropLast(steps));
      LiftStep(s, Run(START, DropLast(steps)).value, LastOf(steps));
      ThenOne(s, Lifted(DropLast(steps)), LastOf(Lifted(steps)));
    }
  }

  const INSERTED: seq<Act> := [Worker(P.Insert(7))]
  const SUBMITTED: seq<Act> := INSERTED + Lifted(RuntimeSafety.ASKING + RuntimeSafety.SUBMITTING)

  lemma Inserted()
    ensures Exec(BOOT, INSERTED).Some?
    ensures var s := Exec(BOOT, INSERTED).value;
            s == BOOT.(world := s.world) && s.world.issued == [] && 7 in s.world.table && !Jobs.Terminal(s.world.table[7].status)
  {
    assert DropLast(INSERTED) == [];
    assert P.Act(P.EMPTY, P.Insert(7)).Some?;
  }

  lemma LabelsOfOneTurn(steps: seq<Label>)
    requires steps == RuntimeSafety.ASKING + RuntimeSafety.SUBMITTING
    ensures forall i :: 0 <= i < |steps| ==> OfOneTurn(steps[i])
  {
    assert forall l :: l in RuntimeSafety.ASKING ==> OfOneTurn(l);
    assert forall l :: l in RuntimeSafety.SUBMITTING ==> OfOneTurn(l);
  }

  /** The model asks for two tools; the first becomes job 7. */
  lemma SubmittedIdles()
    ensures Exec(BOOT, SUBMITTED).Some? && Idles(Exec(BOOT, SUBMITTED).value)
    ensures Exec(BOOT, SUBMITTED).value.actor.ctl.mem.job == 7 && |Exec(BOOT, SUBMITTED).value.world.issued| == 0
  {
    var steps := RuntimeSafety.ASKING + RuntimeSafety.SUBMITTING;
    Inserted();
    RuntimeSafety.SubmittingRun();
    LabelsOfOneTurn(steps);
    Lift(Exec(BOOT, INSERTED).value, steps);
    ExecSplits(BOOT, INSERTED, Lifted(steps));
  }

  /** From the very start: a run that misses its wake-up, and one whose log can never be replayed again. */
  lemma FastJobsHappen(outcome: JobOutcome)
    ensures var stuck := Exec(BOOT, SUBMITTED + Fast(7, outcome, 0) + [Park]);
            stuck.Some? && Parked(stuck.value) && !CanWake(stuck.value)
    ensures var over := Exec(BOOT, SUBMITTED + Fast(7, outcome, 0) + [Trigger(1, [])]);
            over.Some? && forall more :: Forward(over.value.actor.log + more).Err?
  {
    SubmittedIdles();
    FastJobIsMissed(SUBMITTED, outcome);
    FastJobLetsATriggerIn(SUBMITTED, outcome, 1, []);
  }
}
