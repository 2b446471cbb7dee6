/**
 A session and the job manager running side by side: the actor's steps, the
 dispatcher's registration, the workers and the sends interleave freely, and both the
 session and the whole process may go down at any point. Until a turn is started over
 another one, every run of this system is, seen from the log, a run of `Runtime`.
 */
module SessionJobs {
  import opened Wrappers
  import opened Events
  import opened Resume
  import opened Runtime
  import RuntimeSafety
  import Jobs
  import P = JobProtocol

  /** A completion event in the session's mailbox; a registration sent it, or the restart made it up. */
  datatype Mail = Mail(job: JobId, outcome: JobOutcome, from: Option<Jobs.Sink>)

  datatype Sys = Sys(
    actor: State,
    world: P.World,
    mail: seq<Mail>,
    mine: map<Jobs.Sink, CallId>,     // registrations the open session made, and the call each was for
    reg: Option<Jobs.Sink>,           // the one for the job the turn is waiting for
    handled: set<Jobs.Sink>,          // those whose event left the mailbox
    marker: bool,                     // the actor's own note that a turn runs or is paused
    unreported: nat,                  // turns that ended but whose outcome the actor has not taken yet
    overrun: bool)                    // a turn was started over one that had not ended

  const BOOT := Sys(START, P.EMPTY, [], map[], None, {}, false, 0, false)
  const LOST := Failed("lost across process restart")

  datatype Act =
    | Actor(own: Label)
    | Trigger(turn: TurnId, input: seq<ContentBlock>)
    | Report
    | Register
    | GiveUp(result: ToolResult)
    | Park
    | Receive
    | Worker(step: P.JobStep)
    | Shutdown
    | Die
    | Reopen
    | Stray(event: Event)             // whatever two turns write side by side

  /** Actor steps that this module ties to the job manager, the mailbox or the marker. */
  predicate Coordinated(l: Label) {
    l.Begin? || l.Pause? || l.RegisterFailed? || l.JobDone? || l.Crash? || l.Reopen?
  }

  function Stepping(s: Sys, l: Label): Option<Sys> {
    match Apply(s.actor, l)
    case None => None
    case Some(t) => Some(s.(actor := t))
  }

  /** Registers the session's channel for `job`. */
  function Enrolled(s: Sys, job: JobId, callId: CallId): Sys
    requires job in s.world.table
  {
    var k := |s.world.regs|;
    s.(world := P.Enrol(s.world, job), mine := s.mine[k := callId], reg := Some(k))
  }

  function Closed(s: Sys): Sys {
    s.(mine := map[], mail := [], reg := None, handled := {}, marker := false, unreported := 0)
  }

  predicate Waiting(s: Sys) {
    s.actor.ctl.live && s.actor.ctl.mem.Submitted?
  }

  predicate Resting(s: Sys) {
    s.actor.ctl.live && s.actor.ctl.mem.Paused?
  }

  /** Paused, and the actor knows it. */
  predicate Parked(s: Sys) {
    Resting(s) && s.marker
  }

  function Marked(t: Option<Sys>, marker: bool): Option<Sys> {
    if t.None? then None else Some(t.value.(marker := marker))
  }

  /** The first mail out of the mailbox. */
  function Taken(s: Sys): Sys
    requires s.mail != []
  {
    var from := s.mail[0].from;
    s.(mail := s.mail[1..], handled := if from.None? then s.handled else s.handled + {from.value})
  }

  /** Taking a completion clears the marker; it is put back when the turn wakes up, or waits for another job. */
  function Received(s: Sys): Option<Sys>
    requires s.mail != []
  {
    var m, rest := s.mail[0], Taken(s);
    if Parked(s) && s.actor.ctl.mem.job == m.job then Stepping(rest, JobDone(m.outcome))
    else Some(rest.(marker := Parked(s)))
  }

  function Working(s: Sys, step: P.JobStep): Option<Sys> {
    if step.Insert? && step.job in ScanOf(s.actor.log).jobs then None
    else match P.Act(s.world, step)
      case None => None
      case Some(w) =>
        if step.Deliver? && s.world.issued[step.index].sink in s.mine
        then var e := s.world.issued[step.index];
             Some(s.(world := w, mail := s.mail + [Mail(e.job, e.outcome, Some(e.sink))]))
        else Some(s.(world := w))
  }

  function Reopened(s: Sys): Option<Sys> {
    match Stepping(s, Label.Reopen)
    case None => None
    case Some(t0) =>
      var t := t0.(marker := t0.actor.ctl.live && !t0.actor.ctl.mem.Ready?);
      if !Parked(t) then Some(t)
      else if t.actor.ctl.mem.job in t.world.table then Some(Enrolled(t, t.actor.ctl.mem.job, t.actor.ctl.mem.callId))
      else Some(t.(mail := t.mail + [Mail(t.actor.ctl.mem.job, LOST, None)]))
  }

  /**
   A trigger is held back while the marker is set. Otherwise it starts a turn: the next one
   when the actor is idle, or one on top of the turn that is still there.
   */
  function Triggered(s: Sys, turn: TurnId, input: seq<ContentBlock>): Option<Sys> {
    if !s.actor.ctl.live then None
    else if s.marker then Some(s)
    else if s.actor.ctl.mem.Ready? then Marked(Stepping(s, Begin(turn, input)), true)
    else Some(s.(actor := s.actor.(log := Append(s.actor.log, Some(turn), TurnStarted(input, []))), overrun := true))
  }

  /** The actor's other steps; a turn that has submitted a job goes on to its pause, or gives the job up. */
  function Own(s: Sys, l: Label): Option<Sys> {
    if Coordinated(l) || (l.Fail? && s.actor.ctl.mem.Submitted?) then None
    else match Stepping(s, l)
      case None => None
      case Some(t) =>
        Some(if l.Submit? then t.(reg := None)
             else if l.Finish? || l.Fail? then t.(unreported := t.unreported + 1)
             else t)
  }

  /** With two turns at work only the log matters. */
  predicate StillModelled(a: Act) {
    a.Worker? || Restarts(a) || a.Stray?
  }

  predicate Restarts(a: Act) {
    a.Shutdown? || a.Die? || a.Reopen?
  }

  function Do(s: Sys, a: Act): Option<Sys> {
    if s.overrun && !StillModelled(a) then None
    else match a
    case Actor(l) => Own(s, l)
    case Trigger(turn, input) => Triggered(s, turn, input)
    case Report =>
      if s.actor.ctl.live && s.unreported > 0 then Some(s.(unreported := s.unreported - 1, marker := false)) else None
    case Register =>
      if Waiting(s) && s.reg.None? && s.actor.ctl.mem.job in s.world.table
      then Some(Enrolled(s, s.actor.ctl.mem.job, s.actor.ctl.mem.call.callId)) else None
    case GiveUp(result) =>
      if Waiting(s) && s.reg.None? && s.actor.ctl.mem.job !in s.world.table
      then Stepping(s, RegisterFailed(result)) else None
    case Park => if Waiting(s) && s.reg.Some? then Marked(Stepping(s, Pause), true) else None
    case Receive => if s.actor.ctl.live && s.mail != [] then Received(s) else None
    case Worker(step) => Working(s, step)
    case Shutdown => Stepping(Closed(s), Crash)
    case Die => Stepping(Closed(s).(world := P.EMPTY), Crash)
    case Reopen => Reopened(s)
    case Stray(e) => if s.overrun then Some(s.(actor := s.actor.(log := s.actor.log + [e]))) else None
  }

  function Exec(s: Sys, acts: seq<Act>): Option<Sys> {
    if acts == [] then Some(s)
    else match Exec(s, DropLast(acts))
      case None => None
      case Some(t) => Do(t, LastOf(acts))
  }

  // ----- the actor's part of a run -----

  /** The actor's own step, if any, in a step of the system. */
  function LabelOf(s: Sys, a: Act): seq<Label> {
    match a
    case Actor(l) => [l]
    case Trigger(turn, input) => if s.marker || !s.actor.ctl.mem.Ready? then [] else [Begin(turn, input)]
    case GiveUp(result) => [RegisterFailed(result)]
    case Park => [Pause]
    case Receive =>
      if s.mail != [] && Parked(s) && s.actor.ctl.mem.job == s.mail[0].job then [JobDone(s.mail[0].outcome)] else []
    case Shutdown => [Crash]
    case Die => [Crash]
    case Reopen => [Label.Reopen]
    case _ => []
  }

  function Trace(s: Sys, acts: seq<Act>): seq<Label>
    requires Exec(s, acts).Some?
  {
    if acts == [] then []
    else Trace(s, DropLast(acts)) + LabelOf(Exec(s, DropLast(acts)).value, LastOf(acts))
  }

  lemma DoIsRun(s: Sys, a: Act)
    requires Do(s, a).Some? && !Do(s, a).value.overrun
    ensures Run(s.actor, LabelOf(s, a)) == Some(Do(s, a).value.actor)
  {
    var ls := LabelOf(s, a);
    if ls != [] { assert DropLast(ls) == []; }
  }

  /** An overrun is for good. */
  lemma OverrunStays(s: Sys, a: Act)
    requires Do(s, a).Some? && s.overrun
    ensures Do(s, a).value.overrun
  {
  }

  /** Until a turn is started over a running one, every run of the whole system is, for the actor, one of its own runs. */
  lemma {:induction false} ActorRuns(acts: seq<Act>)
    requires Exec(BOOT, acts).Some? && !Exec(BOOT, acts).value.overrun
    ensures Run(START, Trace(BOOT, acts)) == Some(Exec(BOOT, acts).value.actor)
  {
    if acts != [] {
      var pre := DropLast(acts);
      var s := Exec(BOOT, pre).value;
      if s.overrun { OverrunStays(s, LastOf(acts)); }
      ActorRuns(pre);
      DoIsRun(s, LastOf(acts));
      RuntimeSafety.RunSplits(START, Trace(BOOT, pre), LabelOf(s, LastOf(acts)));
    }
  }

  // ----- the invariant -----

  function JobsOf(s: Sys): map<JobId, CallId> {
    ScanOf(s.actor.log).jobs
  }

  predicate IsSent(w: P.World, e: Jobs.Send) {
    exists n :: n in w.sent && n < |w.issued| && w.issued[n] == e
  }

  predicate InMail(mail: seq<Mail>, from: Option<Jobs.Sink>) {
    exists i :: 0 <= i < |mail| && mail[i].from == from
  }

  /** The session's registrations: of submitted jobs, for the call that submitted them, one per job. */
  predicate MineFits(s: Sys) {
    (forall k :: k in s.mine ==>
       k < |s.world.regs| && s.world.regs[k] in JobsOf(s) && JobsOf(s)[s.world.regs[k]] == s.mine[k]) &&
    (forall a, b :: a in s.mine && b in s.mine && s.world.regs[a] == s.world.regs[b] ==> a == b)
  }

  /** A mail reports a sent event of one of these, or that a job did not survive the restart. */
  predicate MailFits(s: Sys, m: Mail) {
    m.job in JobsOf(s) &&
    match m.from
    case Some(k) => k in s.mine && k !in s.handled && IsSent(s.world, Jobs.Send(k, m.job, m.outcome))
    case None => m.outcome == LOST && m.job !in s.world.table
  }

  predicate MailboxFits(s: Sys) {
    (forall i :: 0 <= i < |s.mail| ==> MailFits(s, s.mail[i])) &&
    (forall i, j :: 0 <= i < j < |s.mail| ==> s.mail[i].from != s.mail[j].from) &&
    (forall n :: n in s.world.sent && n < |s.world.issued| && s.world.issued[n].sink in s.mine ==>
       s.world.issued[n].sink in s.handled || InMail(s.mail, Some(s.world.issued[n].sink))) &&
    (forall k :: k in s.handled ==> k in s.mine && exists n :: n in s.world.sent && P.At(s.world.issued, n, k))
  }

  predicate Uninvolved(s: Sys, job: JobId) {
    forall k :: k in s.mine && k < |s.world.regs| ==> s.world.regs[k] != job
  }

  predicate CurrentFits(s: Sys) {
    if !s.actor.ctl.live then s.mine == map[] && s.mail == [] && s.handled == {} && s.reg == None && !s.marker && s.unreported == 0
    else s.actor.ctl.mem.Submitted? || s.actor.ctl.mem.Paused? ==>
      var job := s.actor.ctl.mem.job;
      match s.reg
      case Some(k) => k in s.mine && k < |s.world.regs| && s.world.regs[k] == job
      case None =>
        Uninvolved(s, job) &&
        (s.actor.ctl.mem.Paused? ==>
           s.marker && s.unreported == 0 && job !in s.world.table && Mail(job, LOST, None) in s.mail)
  }

  ghost predicate Reachable(s: State) {
    exists steps :: Run(START, steps) == Some(s)
  }

  ghost predicate SysInv(s: Sys) {
    !s.overrun && Reachable(s.actor) && P.Inv(s.world) && MineFits(s) && MailboxFits(s) && CurrentFits(s)
  }

  lemma ActorKeepsInv(s: State, l: Label)
    requires Reachable(s) && Apply(s, l).Some?
    ensures Reachable(Apply(s, l).value)
  {
    var steps :| Run(START, steps) == Some(s);
    assert DropLast(steps + [l]) == steps;
    assert Run(START, steps + [l]) == Apply(s, l);
  }

  /** The log knows the call of the job a turn has submitted or is paused on. */
  lemma CurrentJob(s: State)
    requires Reachable(s) && (s.ctl.mem.Submitted? || s.ctl.mem.Paused?)
    ensures var jobs, m := ScanOf(s.log).jobs, s.ctl.mem;
            m.job in jobs && jobs[m.job] == (if m.Submitted? then m.call.callId else m.callId)
    ensures ScanOf(s.log).inTurn
  {
    var steps :| Run(START, steps) == Some(s);
    RuntimeSafety.RunKeepsInv(steps);
  }

  /** What an actor step does to a submission or a pause. */
  lemma ActorMoves(c: Control, l: Label)
    requires Live(c, l).Some?
    ensures var d := Live(c, l).value.ctl;
            (l.Submit? ==> d.mem.Submitted? && d.mem.job == l.job && Live(c, l).value.write.Some? &&
                           Live(c, l).value.write.value.JobSubmitted? && Live(c, l).value.write.value.jobId == l.job) &&
            (d.mem.Submitted? && !l.Submit? ==> d.mem == c.mem) &&
            (d.mem.Paused? && !l.Pause? ==> d.mem == c.mem) &&
            (l.Pause? ==> c.mem.Submitted? && d.mem.Paused? && d.mem.job == c.mem.job)
    ensures !l.Submit? ==> Live(c, l).value.write.None? || !Live(c, l).value.write.value.JobSubmitted?
    ensures c.live ==> (Live(c, l).value.ctl.live <==> !l.Crash?)
  {
  }

  /** Jobs are only ever added, by a submission. */
  lemma ActorJobs(s: State, l: Label)
    requires Apply(s, l).Some? && !l.Reopen?
    ensures var jobs, jobs' := ScanOf(s.log).jobs, ScanOf(Apply(s, l).value.log).jobs;
            if l.Submit? then l.job !in jobs && l.job in jobs' && jobs' == jobs[l.job := jobs'[l.job]] else jobs' == jobs
  {
    ActorMoves(s.ctl, l);
    var m := Live(s.ctl, l).value;
    if m.write.Some? {
      RuntimeSafety.AppendReads(s.log, EnvelopeTurn(s.ctl.mem, m.ctl.mem), m.write.value);
    }
  }

  // ----- every step keeps it -----

  lemma SameMailFits(s: Sys, s': Sys)
    requires s'.mail == s.mail && s'.mine == s.mine && s'.handled == s.handled && s'.world == s.world
    requires MailboxFits(s) && MineFits(s)
    requires forall job :: job in JobsOf(s) ==> job in JobsOf(s') && JobsOf(s')[job] == JobsOf(s)[job]
    ensures MailboxFits(s') && MineFits(s')
  {
    forall i | 0 <= i < |s'.mail| ensures MailFits(s', s'.mail[i]) { assert MailFits(s, s.mail[i]); }
  }

  lemma ActorActKeepsInv(s: Sys, l: Label)
    requires SysInv(s) && Do(s, Actor(l)).Some?
    ensures SysInv(Do(s, Actor(l)).value)
  {
    var t := OwnStep(s, l);
    ActorKeepsInv(s.actor, l);
    ActorJobs(s.actor, l);
    SameMailFits(s, t);
    OwnCurrentFits(s, l, t);
  }

  lemma OwnStep(s: Sys, l: Label) returns (t: Sys)
    requires Do(s, Actor(l)).Some?
    ensures Do(s, Actor(l)) == Some(t) && Apply(s.actor, l) == Some(t.actor) && !Coordinated(l)
    ensures t == s.(actor := t.actor, reg := t.reg, unreported := t.unreported)
    ensures t.reg == (if l.Submit? then None else s.reg)
    ensures t.unreported == s.unreported || t.actor.ctl.mem.Ready?
  {
    t := Do(s, Actor(l)).value;
    if l.Finish? || l.Fail? { assert Live(s.actor.ctl, l).value.ctl.mem.Ready?; }
  }

  lemma OwnCurrentFits(s: Sys, l: Label, t: Sys)
    requires CurrentFits(s) && MineFits(s) && Apply(s.actor, l) == Some(t.actor) && !Coordinated(l)
    requires t == s.(actor := t.actor, reg := t.reg, unreported := t.unreported)
    requires t.reg == (if l.Submit? then None else s.reg) && (t.unreported == s.unreported || t.actor.ctl.mem.Ready?)
    ensures CurrentFits(t)
  {
    ActorMoves(s.actor.ctl, l);
    ActorJobs(s.actor, l);
  }

  lemma TriggerKeepsInv(s: Sys, turn: TurnId, input: seq<ContentBlock>)
    requires SysInv(s) && Do(s, Trigger(turn, input)).Some? && !Do(s, Trigger(turn, input)).value.overrun
    ensures SysInv(Do(s, Trigger(turn, input)).value)
  {
    if !s.marker {
      var l := Begin(turn, input);
      ActorKeepsInv(s.actor, l);
      ActorMoves(s.actor.ctl, l);
      ActorJobs(s.actor, l);
      SameMailFits(s, Do(s, Trigger(turn, input)).value);
    }
  }

  lemma ReportKeepsInv(s: Sys)
    requires SysInv(s) && Do(s, Report).Some?
    ensures SysInv(Do(s, Report).value)
  {
    SameMailFits(s, Do(s, Report).value);
  }

  lemma ParkKeepsInv(s: Sys, a: Act)
    requires a.Park? || a.GiveUp?
    requires SysInv(s) && Do(s, a).Some?
    ensures SysInv(Do(s, a).value)
  {
    var l := if a.Park? then Pause else RegisterFailed(a.result);
    ActorKeepsInv(s.actor, l);
    ActorMoves(s.actor.ctl, l);
    ActorJobs(s.actor, l);
    SameMailFits(s, Do(s, a).value);
  }

  predicate Unconnected(s: Sys) {
    s.mine == map[] && s.mail == [] && s.handled == {} && s.reg == None && s.unreported == 0
  }

  lemma UnconnectedFits(s: Sys)
    requires Unconnected(s)
    ensures MineFits(s) && MailboxFits(s) && (!s.actor.ctl.live && !s.marker ==> CurrentFits(s))
  {
  }

  lemma ClosedKeepsInv(s: Sys, world: P.World)
    requires SysInv(s) && s.actor.ctl.live && P.Inv(world)
    ensures var t := Stepping(Closed(s).(world := world), Crash); t.Some? && SysInv(t.value)
  {
    ActorKeepsInv(s.actor, Crash);
    UnconnectedFits(Stepping(Closed(s).(world := world), Crash).value);
  }

  lemma CloseKeepsInv(s: Sys, a: Act)
    requires a.Shutdown? || a.Die?
    requires SysInv(s) && Do(s, a).Some?
    ensures SysInv(Do(s, a).value)
  {
    ClosedKeepsInv(s, if a.Die? then P.EMPTY else s.world);
  }

  lemma EnrolledKeepsInv(s: Sys, job: JobId, callId: CallId)
    requires Reachable(s.actor) && P.Inv(s.world) && MineFits(s) && MailboxFits(s)
    requires job in s.world.table && job in JobsOf(s) && JobsOf(s)[job] == callId && Uninvolved(s, job)
    ensures var s' := Enrolled(s, job, callId); P.Inv(s'.world) && MineFits(s') && MailboxFits(s')
  {
    P.EnrolKeepsInv(s.world, job);
    var s', k := Enrolled(s, job, callId), |s.world.regs|;
    assert forall a :: a in s.mine ==> a < k && s'.world.regs[a] == s.world.regs[a];
    assert s'.world.sent == s.world.sent && s.world.issued <= s'.world.issued;
    forall i | 0 <= i < |s'.mail| ensures MailFits(s', s'.mail[i]) { EnrolledMailFits(s, job, callId, s.mail[i]); }
    forall n | n in s'.world.sent && n < |s'.world.issued| && s'.world.issued[n].sink in s'.mine
      ensures s'.world.issued[n].sink in s'.handled || InMail(s'.mail, Some(s'.world.issued[n].sink))
    {
      assert n < |s.world.issued| && P.EventFits(s.world, s.world.issued[n]);
    }
    forall h | h in s'.handled ensures exists n :: n in s'.world.sent && P.At(s'.world.issued, n, h) {
      var n :| n in s.world.sent && P.At(s.world.issued, n, h);
      assert P.At(s'.world.issued, n, h);
    }
  }

  lemma EnrolledMailFits(s: Sys, job: JobId, callId: CallId, m: Mail)
    requires P.Inv(s.world) && job in s.world.table && MailFits(s, m)
    ensures MailFits(Enrolled(s, job, callId), m)
  {
    var w' := P.Enrol(s.world, job);
    if m.from.Some? {
      var e := Jobs.Send(m.from.value, m.job, m.outcome);
      var n :| n in s.world.sent && n < |s.world.issued| && s.world.issued[n] == e;
      assert w'.issued[n] == e;
    }
  }

  lemma RegisterKeepsInv(s: Sys)
    requires SysInv(s) && Do(s, Register).Some?
    ensures SysInv(Do(s, Register).value)
  {
    CurrentJob(s.actor);
    EnrolledKeepsInv(s, s.actor.ctl.mem.job, s.actor.ctl.mem.call.callId);
  }

  lemma RestoredMemory(s: State)
    requires Apply(s, Label.Reopen).Some?
    ensures var t := Apply(s, Label.Reopen).value;
            t.log == s.log && !s.ctl.live && (t.ctl.live ==> !t.ctl.mem.Submitted?)
  {
  }

  lemma ReconnectKeepsInv(s: Sys)
    requires !s.overrun && Reachable(s.actor) && P.Inv(s.world) && Unconnected(s) && Parked(s)
    requires var mem := s.actor.ctl.mem; mem.job in JobsOf(s) && JobsOf(s)[mem.job] == mem.callId
    ensures var mem := s.actor.ctl.mem;
            if mem.job in s.world.table then SysInv(Enrolled(s, mem.job, mem.callId))
            else SysInv(s.(mail := s.mail + [Mail(mem.job, LOST, None)]))
  {
    var mem := s.actor.ctl.mem;
    assert MailboxFits(s);
    if mem.job in s.world.table {
      EnrolledKeepsInv(s, mem.job, mem.callId);
    } else {
      var s' := s.(mail := s.mail + [Mail(mem.job, LOST, None)]);
      assert s'.mail[0] == Mail(mem.job, LOST, None);
    }
  }

  lemma ReopenKeepsInv(s: Sys)
    requires SysInv(s) && Do(s, Act.Reopen).Some?
    ensures SysInv(Do(s, Act.Reopen).value)
  {
    RestoredMemory(s.actor);
    ActorKeepsInv(s.actor, Label.Reopen);
    var t0 := Stepping(s, Label.Reopen).value;
    var t := t0.(marker := t0.actor.ctl.live && !t0.actor.ctl.mem.Ready?);
    assert Unconnected(t);
    UnconnectedFits(t);
    if Parked(t) {
      CurrentJob(t.actor);
      ReconnectKeepsInv(t);
    }
  }

  lemma ReceivingKeepsMailbox(s: Sys)
    requires MailboxFits(s) && s.mail != []
    ensures MailboxFits(Taken(s))
  {
    var from, s' := s.mail[0].from, Taken(s);
    assert MailFits(s, s.mail[0]);
    assert forall i :: 0 <= i < |s'.mail| ==> s'.mail[i] == s.mail[i + 1];
    forall i | 0 <= i < |s'.mail| ensures MailFits(s', s'.mail[i]) { assert MailFits(s, s.mail[i + 1]); }
    forall n | n in s.world.sent && n < |s.world.issued| && s.world.issued[n].sink in s.mine
      ensures s.world.issued[n].sink in s'.handled || InMail(s'.mail, Some(s.world.issued[n].sink))
    {
      var k := s.world.issued[n].sink;
      if k !in s.handled {
        var i :| 0 <= i < |s.mail| && s.mail[i].from == Some(k);
        assert i > 0 ==> s'.mail[i - 1].from == Some(k);
      }
    }
    if from.Some? {
      var e := Jobs.Send(from.value, s.mail[0].job, s.mail[0].outcome);
      var n :| n in s.world.sent && n < |s.world.issued| && s.world.issued[n] == e;
      assert P.At(s.world.issued, n, from.value);
    }
  }

  lemma ReceivedCurrentFits(s: Sys)
    requires s.actor.ctl.live && s.mail != [] && CurrentFits(s)
    requires !(Parked(s) && s.actor.ctl.mem.job == s.mail[0].job)
    ensures CurrentFits(Received(s).value)
  {
    var s' := Received(s).value;
    if Resting(s) && s.reg.None? {
      var job := s.actor.ctl.mem.job;
      var i :| 0 <= i < |s.mail| && s.mail[i] == Mail(job, LOST, None);
      assert s'.mail[i - 1] == Mail(job, LOST, None);
    }
  }

  lemma ReceiveKeepsInv(s: Sys)
    requires SysInv(s) && Do(s, Receive).Some?
    ensures SysInv(Do(s, Receive).value)
  {
    ReceivingKeepsMailbox(s);
    var m, s' := s.mail[0], Do(s, Receive).value;
    if Parked(s) && s.actor.ctl.mem.job == m.job {
      WakeKeepsInv(s);
    } else {
      ReceivedCurrentFits(s);
    }
  }

  lemma WakeIsEnabled(s: Sys)
    requires Parked(s) && !s.overrun && s.mail != [] && s.mail[0].job == s.actor.ctl.mem.job
    ensures Apply(s.actor, JobDone(s.mail[0].outcome)).Some?
    ensures var t := Apply(s.actor, JobDone(s.mail[0].outcome)).value; t.ctl.mem.Woken? && t.ctl.live
    ensures Do(s, Receive).Some? && Do(s, Receive).value.actor.ctl.mem.Woken?
  {
    var m := Live(s.actor.ctl, JobDone(s.mail[0].outcome)).value;
    assert m.ctl.mem.Woken? && m.write.Some?;
  }

  lemma AwakeFits(s: Sys, t: State)
    requires !s.overrun && Reachable(t) && P.Inv(s.world) && MineFits(s) && MailboxFits(s)
    requires t.ctl.live && t.ctl.mem.Woken? && ScanOf(t.log).jobs == JobsOf(s)
    ensures SysInv(s.(actor := t))
  {
    SameMailFits(s, s.(actor := t));
  }

  lemma WakeKeepsInv(s: Sys)
    requires SysInv(s) && Parked(s) && s.mail != [] && s.actor.ctl.mem.job == s.mail[0].job
    ensures Do(s, Receive).Some? && SysInv(Do(s, Receive).value)
  {
    var l := JobDone(s.mail[0].outcome);
    WakeIsEnabled(s);
    ActorKeepsInv(s.actor, l);
    ActorJobs(s.actor, l);
    var t := WakeStep(s);
    WokenFits(s, t);
  }

  lemma WakeStep(s: Sys) returns (t: State)
    requires Parked(s) && !s.overrun && s.mail != [] && s.mail[0].job == s.actor.ctl.mem.job
    ensures Apply(s.actor, JobDone(s.mail[0].outcome)) == Some(t)
    ensures Do(s, Receive) == Some(Taken(s).(actor := t))
  {
    WakeIsEnabled(s);
    t := Apply(s.actor, JobDone(s.mail[0].outcome)).value;
  }

  lemma WokenFits(s: Sys, t: State)
    requires SysInv(s) && s.mail != [] && Reachable(t)
    requires t.ctl.live && t.ctl.mem.Woken? && ScanOf(t.log).jobs == JobsOf(s)
    ensures SysInv(Taken(s).(actor := t))
  {
    ReceivingKeepsMailbox(s);
    AwakeFits(Taken(s), t);
  }

  // ----- worker steps -----

  lemma ActGrows(w: P.World, step: P.JobStep)
    requires P.Act(w, step).Some?
    ensures var w' := P.Act(w, step).value;
            w.issued <= w'.issued && w.regs <= w'.regs && w.overwritten <= w'.overwritten &&
            w'.sent == (if step.Deliver? then w.sent + {step.index} else w.sent) &&
            (forall job :: job in w'.table ==> job in w.table || step == P.Insert(job)) &&
            (forall job :: job in w.table ==> job in w'.table)
  {
  }

  lemma WorkMailFits(s: Sys, step: P.JobStep, m: Mail)
    requires Working(s, step).Some? && MailFits(s, m)
    requires step.Insert? ==> step.job !in JobsOf(s)
    ensures MailFits(Working(s, step).value, m)
  {
    var w' := P.Act(s.world, step).value;
    ActGrows(s.world, step);
    if m.from.Some? {
      var e := Jobs.Send(m.from.value, m.job, m.outcome);
      var n :| n in s.world.sent && n < |s.world.issued| && s.world.issued[n] == e;
      assert n in w'.sent && n < |w'.issued| && w'.issued[n] == e;
    }
  }

  /** Delivering to the session puts one new, not yet handled event in its mailbox. */
  lemma DeliveredMailFits(s: Sys, n: nat)
    requires P.Inv(s.world) && MailboxFits(s) && n < |s.world.issued| && n !in s.world.sent
    requires s.world.issued[n].sink in s.mine && s.world.issued[n].job in JobsOf(s)
    ensures var e, s' := s.world.issued[n], Working(s, P.Deliver(n)).value;
            MailFits(s', Mail(e.job, e.outcome, Some(e.sink))) && !InMail(s.mail, Some(e.sink))
  {
    var e, s' := s.world.issued[n], Working(s, P.Deliver(n)).value;
    assert s'.world.issued[n] == e && n in s'.world.sent;
    assert forall j :: P.At(s.world.issued, j, e.sink) ==> j == n;
    assert P.At(s.world.issued, n, e.sink);
    if InMail(s.mail, Some(e.sink)) {
      var i :| 0 <= i < |s.mail| && s.mail[i].from == Some(e.sink);
      assert MailFits(s, s.mail[i]);
      SentAt(s.world, Jobs.Send(e.sink, s.mail[i].job, s.mail[i].outcome));
    }
  }

  lemma SentAt(w: P.World, e: Jobs.Send)
    requires IsSent(w, e)
    ensures exists j :: j in w.sent && P.At(w.issued, j, e.sink) && w.issued[j] == e
  {
    var j :| j in w.sent && j < |w.issued| && w.issued[j] == e;
    assert P.At(w.issued, j, e.sink);
  }

  lemma InMailSnoc(mail: seq<Mail>, m: Mail)
    ensures forall from :: InMail(mail + [m], from) <==> InMail(mail, from) || from == m.from
  {
    assert (mail + [m])[|mail|] == m;
    forall from | InMail(mail, from) ensures InMail(mail + [m], from) {
      var i :| 0 <= i < |mail| && mail[i].from == from;
      assert (mail + [m])[i].from == from;
    }
  }

  lemma WorkMailsFit(s: Sys, step: P.JobStep)
    requires P.Inv(s.world) && MineFits(s) && MailboxFits(s) && Working(s, step).Some?
    ensures var s' := Working(s, step).value;
            (forall i :: 0 <= i < |s'.mail| ==> MailFits(s', s'.mail[i])) &&
            (forall i, j :: 0 <= i < j < |s'.mail| ==> s'.mail[i].from != s'.mail[j].from)
  {
    var s' := Working(s, step).value;
    forall i | 0 <= i < |s.mail| ensures MailFits(s', s.mail[i]) { WorkMailFits(s, step, s.mail[i]); }
    if step.Deliver? && s.world.issued[step.index].sink in s.mine {
      assert P.EventFits(s.world, s.world.issued[step.index]);
      DeliveredMailFits(s, step.index);
    }
  }

  lemma WorkKeepsMailbox(s: Sys, step: P.JobStep)
    requires P.Inv(s.world) && MineFits(s) && MailboxFits(s) && Working(s, step).Some?
    ensures MailboxFits(Working(s, step).value)
  {
    WorkMailsFit(s, step);
    WorkAccounts(s, step);
  }

  /** Every sent event of the session is in the mailbox or was taken from it. */
  lemma WorkAccounts(s: Sys, step: P.JobStep)
    requires P.Inv(s.world) && MailboxFits(s) && Working(s, step).Some?
    ensures var s' := Working(s, step).value;
            (forall n :: n in s'.world.sent && n < |s'.world.issued| && s'.world.issued[n].sink in s'.mine ==>
               s'.world.issued[n].sink in s'.handled || InMail(s'.mail, Some(s'.world.issued[n].sink))) &&
            (forall k :: k in s'.handled ==> k in s'.mine && exists n :: n in s'.world.sent && P.At(s'.world.issued, n, k))
  {
    ActGrows(s.world, step);
    var s' := Working(s, step).value;
    forall h | h in s'.handled ensures exists n :: n in s'.world.sent && P.At(s'.world.issued, n, h) {
      var n :| n in s.world.sent && P.At(s.world.issued, n, h);
      assert P.At(s'.world.issued, n, h);
    }
    if step.Deliver? && s.world.issued[step.index].sink in s.mine {
      var e := s.world.issued[step.index];
      InMailSnoc(s.mail, Mail(e.job, e.outcome, Some(e.sink)));
    }
    forall n | n in s'.world.sent && n < |s'.world.issued| && s'.world.issued[n].sink in s'.mine
      ensures s'.world.issued[n].sink in s'.handled || InMail(s'.mail, Some(s'.world.issued[n].sink))
    {
      if n in s.world.sent { assert n < |s.world.issued| && s'.world.issued[n] == s.world.issued[n]; }
    }
  }

  /** What a worker step leaves alone. */
  lemma WorkLeaves(s: Sys, step: P.JobStep)
    requires Working(s, step).Some?
    ensures var s' := Working(s, step).value;
            s' == s.(world := s'.world, mail := s'.mail) && s.mail <= s'.mail && s.world.regs <= s'.world.regs &&
            (forall job :: job in JobsOf(s) && job !in s.world.table ==> job !in s'.world.table)
  {
    ActGrows(s.world, step);
  }

  lemma WorkKeepsMine(s: Sys, step: P.JobStep)
    requires MineFits(s) && Working(s, step).Some?
    ensures MineFits(Working(s, step).value)
  {
    WorkLeaves(s, step);
    var s' := Working(s, step).value;
    assert forall k :: 0 <= k < |s.world.regs| ==> s'.world.regs[k] == s.world.regs[k];
  }

  lemma WorkKeepsCurrent(s: Sys, step: P.JobStep)
    requires MineFits(s) && MailboxFits(s) && CurrentFits(s) && Working(s, step).Some?
    ensures CurrentFits(Working(s, step).value)
  {
    WorkLeaves(s, step);
    CurrentStays(s, Working(s, step).value);
  }

  lemma CurrentStays(s: Sys, s': Sys)
    requires MineFits(s) && MailboxFits(s) && CurrentFits(s)
    requires s' == s.(world := s'.world, mail := s'.mail) && s.mail <= s'.mail && s.world.regs <= s'.world.regs
    requires !s.actor.ctl.live ==> s'.mail == s.mail
    requires forall job :: job in JobsOf(s) && job !in s.world.table ==> job !in s'.world.table
    ensures CurrentFits(s')
  {
    assert forall k :: 0 <= k < |s.world.regs| ==> s'.world.regs[k] == s.world.regs[k];
    if Resting(s) && s.reg.None? {
      var job := s.actor.ctl.mem.job;
      var i :| 0 <= i < |s.mail| && s.mail[i] == Mail(job, LOST, None);
      assert MailFits(s, s.mail[i]) && s'.mail[i] == s.mail[i];
    }
  }

  lemma WorkerKeepsInv(s: Sys, step: P.JobStep)
    requires SysInv(s) && Do(s, Worker(step)).Some?
    ensures SysInv(Do(s, Worker(step)).value)
  {
    P.ActKeepsInv(s.world, step);
    WorkKeepsMine(s, step);
    WorkKeepsCurrent(s, step);
    WorkKeepsMailbox(s, step);
  }

  lemma DoKeepsInv(s: Sys, a: Act)
    requires SysInv(s) && Do(s, a).Some? && !Do(s, a).value.overrun
    ensures SysInv(Do(s, a).value)
  {
    match a
    case Actor(l) => ActorActKeepsInv(s, l);
    case Trigger(turn, input) => TriggerKeepsInv(s, turn, input);
    case Report => ReportKeepsInv(s);
    case Register => RegisterKeepsInv(s);
    case GiveUp(_) => ParkKeepsInv(s, a);
    case Park => ParkKeepsInv(s, a);
    case Receive => ReceiveKeepsInv(s);
    case Worker(step) => WorkerKeepsInv(s, step);
    case Shutdown => CloseKeepsInv(s, a);
    case Die => CloseKeepsInv(s, a);
    case Reopen => ReopenKeepsInv(s);
    case Stray(_) =>
  }

  lemma {:induction false} ExecKeepsInv(acts: seq<Act>)
    requires Exec(BOOT, acts).Some? && !Exec(BOOT, acts).value.overrun
    ensures SysInv(Exec(BOOT, acts).value)
  {
    if acts == [] {
      assert Run(START, []) == Some(START);
    } else {
      var s := Exec(BOOT, DropLast(acts)).value;
      if s.overrun { OverrunStays(s, LastOf(acts)); }
      ExecKeepsInv(DropLast(acts));
      DoKeepsInv(s, LastOf(acts));
    }
  }

  // ----- the marker -----

  /** The completion was taken from the mailbox before the pause it was meant for. */
  predicate Early(s: Sys) {
    Waiting(s) && s.reg.Some? && s.reg.value in s.handled
  }

  predicate Expected(s: Sys, k: Jobs.Sink) {
    (s.actor.ctl.mem.Submitted? || s.actor.ctl.mem.Paused?) && s.reg == Some(k)
  }

  /**
   The actor's marker is set while a turn runs, is paused, or has just ended, except when its
   completion came too early; and no registration is open but the one the turn waits for.
   */
  predicate MarkerFits(s: Sys) {
    s.actor.ctl.live ==>
      s.unreported <= 1 && (s.unreported == 1 ==> s.actor.ctl.mem == Ready(None)) &&
      (s.marker <==> (!s.actor.ctl.mem.Ready? || s.unreported == 1) && !Early(s)) &&
      (forall k :: k in s.mine && k !in s.handled ==> Expected(s, k)) &&
      (InMail(s.mail, None) ==> Resting(s) && s.reg.None?)
  }

  lemma OwnKeepsMarker(s: Sys, l: Label)
    requires MarkerFits(s) && Do(s, Actor(l)).Some?
    ensures MarkerFits(Do(s, Actor(l)).value)
  {
    var t := OwnStep(s, l);
    OwnMoves(s.actor, l);
    OwnReports(s, l);
  }

  lemma OwnReports(s: Sys, l: Label)
    requires Do(s, Actor(l)).Some?
    ensures Do(s, Actor(l)).value.unreported == if l.Finish? || l.Fail? then s.unreported + 1 else s.unreported
  {
  }

  /** Only a finished or failed turn makes the actor idle. */
  lemma OwnMoves(s: State, l: Label)
    requires Apply(s, l).Some? && !Coordinated(l)
    ensures var before, after := s.ctl.mem, Apply(s, l).value.ctl.mem;
            s.ctl.live && Apply(s, l).value.ctl.live &&
            (if l.Finish? || l.Fail? then !before.Ready? && after == Ready(None)
             else if before.Ready? then after == before else !after.Ready?) &&
            (after.Submitted? <==> l.Submit? || (before.Submitted? && !l.Fail?)) && (before.Submitted? && after.Submitted? ==> !l.Submit?) &&
            (l.Submit? ==> !before.Submitted? && !before.Paused?) && (after.Paused? <==> before.Paused?)
  {
  }

  lemma TriggerKeepsMarker(s: Sys, turn: TurnId, input: seq<ContentBlock>)
    requires SysInv(s) && MarkerFits(s) && Do(s, Trigger(turn, input)).Some? && !Do(s, Trigger(turn, input)).value.overrun
    ensures MarkerFits(Do(s, Trigger(turn, input)).value)
  {
    if !s.marker { ActorMoves(s.actor.ctl, Begin(turn, input)); }
  }

  lemma RegisterKeepsMarker(s: Sys)
    requires SysInv(s) && MarkerFits(s) && Do(s, Register).Some?
    ensures MarkerFits(Do(s, Register).value)
  {
    var t := Enrolled(s, s.actor.ctl.mem.job, s.actor.ctl.mem.call.callId);
    assert t.reg.value !in s.mine && t.mail == s.mail;
  }

  lemma GiveUpKeepsMarker(s: Sys, result: ToolResult)
    requires MarkerFits(s) && Do(s, GiveUp(result)).Some?
    ensures MarkerFits(Do(s, GiveUp(result)).value)
  {
    assert Live(s.actor.ctl, RegisterFailed(result)).value.ctl.mem.Dispatching?;
  }

  lemma ParkKeepsMarker(s: Sys)
    requires MarkerFits(s) && Do(s, Park).Some?
    ensures MarkerFits(Do(s, Park).value)
  {
    assert Live(s.actor.ctl, Pause).value.ctl.mem.Paused?;
  }

  /** Outside a pause, what is in the mailbox is the completion of the job just submitted. */
  lemma FirstMail(s: Sys)
    requires SysInv(s) && MarkerFits(s) && s.actor.ctl.live && s.mail != []
    ensures var m := s.mail[0];
            if m.from.Some? then Expected(s, m.from.value) && m.job == s.actor.ctl.mem.job
            else Resting(s) && s.reg.None? && m.job == s.actor.ctl.mem.job
  {
  }

  lemma ReceiveKeepsMarker(s: Sys)
    requires SysInv(s) && MarkerFits(s) && Do(s, Receive).Some?
    ensures MarkerFits(Do(s, Receive).value)
  {
    FirstMail(s);
    if Parked(s) { WokenKeepsMarker(s); } else { EarlyKeepsMarker(s); }
  }

  lemma WokenKeepsMarker(s: Sys)
    requires SysInv(s) && MarkerFits(s) && Parked(s) && s.mail != [] && s.mail[0].job == s.actor.ctl.mem.job
    requires s.mail[0].from.Some? ==> Expected(s, s.mail[0].from.value)
    requires s.mail[0].from.None? ==> s.reg.None?
    ensures Do(s, Receive).Some? && MarkerFits(Do(s, Receive).value)
  {
    var t := WakeStep(s);
    WakeIsEnabled(s);
    TakenLeavesNone(s);
  }

  /** Behind the mail taken there is none of the same origin. */
  lemma TakenLeavesNone(s: Sys)
    requires MailboxFits(s) && s.mail != []
    ensures !InMail(Taken(s).mail, s.mail[0].from)
    ensures InMail(Taken(s).mail, None) ==> InMail(s.mail, None)
  {
    assert forall i :: 0 <= i < |Taken(s).mail| ==> Taken(s).mail[i] == s.mail[i + 1];
  }

  lemma EarlyKeepsMarker(s: Sys)
    requires SysInv(s) && MarkerFits(s) && !Parked(s) && s.actor.ctl.live && s.mail != []
    requires s.mail[0].from.Some? && Expected(s, s.mail[0].from.value)
    ensures Received(s).Some? && MarkerFits(Received(s).value)
  {
    TakenLeavesNone(s);
  }

  lemma WorkKeepsMarker(s: Sys, step: P.JobStep)
    requires MarkerFits(s) && Working(s, step).Some?
    ensures MarkerFits(Working(s, step).value)
  {
  }

  lemma ReopenKeepsMarker(s: Sys)
    requires SysInv(s) && Do(s, Act.Reopen).Some?
    ensures MarkerFits(Do(s, Act.Reopen).value)
  {
  }

  lemma DoKeepsMarker(s: Sys, a: Act)
    requires SysInv(s) && MarkerFits(s) && Do(s, a).Some? && !Do(s, a).value.overrun
    ensures MarkerFits(Do(s, a).value)
  {
    match a
    case Actor(l) => OwnKeepsMarker(s, l);
    case Trigger(turn, input) => TriggerKeepsMarker(s, turn, input);
    case Receive => ReceiveKeepsMarker(s);
    case Worker(step) => WorkKeepsMarker(s, step);
    case Reopen => ReopenKeepsMarker(s);
    case Register => RegisterKeepsMarker(s);
    case GiveUp(result) => GiveUpKeepsMarker(s, result);
    case Park => ParkKeepsMarker(s);
    case _ =>
  }

  lemma {:induction false} ExecKeepsMarker(acts: seq<Act>)
    requires Exec(BOOT, acts).Some? && !Exec(BOOT, acts).value.overrun
    ensures MarkerFits(Exec(BOOT, acts).value)
  {
    if acts != [] {
      var s := Exec(BOOT, DropLast(acts)).value;
      if s.overrun { OverrunStays(s, LastOf(acts)); }
      ExecKeepsMarker(DropLast(acts));
      ExecKeepsInv(DropLast(acts));
      DoKeepsMarker(s, LastOf(acts));
    }
  }

  // ----- theorems -----

  /**
   Record before register: every completion that reaches the session is for a job whose
   submission, with the right call id, is already in the log; a real one carries the
   outcome the job manager reports. So `Replay` never misses a submission.
   */
  lemma CompletionsAreSubmitted(acts: seq<Act>, i: nat)
    requires Exec(BOOT, acts).Some? && !Exec(BOOT, acts).value.overrun && i < |Exec(BOOT, acts).value.mail|
    ensures var s := Exec(BOOT, acts).value;
            var m := s.mail[i];
            var found := LookupCallId(s.actor.log, m.job);
            found.Some? && (Resting(s) && s.actor.ctl.mem.job == m.job ==> found == Some(s.actor.ctl.mem.callId)) &&
            match m.from
            case Some(k) =>
              k in s.mine && found == Some(s.mine[k]) && Jobs.ResultOf(s.world.table, m.job) == Ok(m.outcome)
            case None => m.outcome == Failed("lost across process restart") && Jobs.ResultOf(s.world.table, m.job) == Err(Jobs.UnknownJob)
  {
    ExecKeepsInv(acts);
    var s := Exec(BOOT, acts).value;
    var m := s.mail[i];
    assert MailFits(s, m);
    JobTables(s.actor.log, m.job);
    if Resting(s) { CurrentJob(s.actor); }
    if m.from.Some? { SentJob(s, m); }
  }

  lemma SentJob(s: Sys, m: Mail)
    requires P.Inv(s.world) && m.from.Some? && MailFits(s, m)
    ensures m.from.value < |s.world.regs| && s.world.regs[m.from.value] == m.job
    ensures Jobs.ResultOf(s.world.table, m.job) == Ok(m.outcome)
  {
    SentAt(s.world, Jobs.Send(m.from.value, m.job, m.outcome));
    var n :| n in s.world.sent && n < |s.world.issued| &&
             s.world.issued[n] == Jobs.Send(m.from.value, m.job, m.outcome);
    assert P.EventFits(s.world, s.world.issued[n]);
  }

  lemma ReplayFindsEverySubmission(acts: seq<Act>)
    requires Exec(BOOT, acts).Some? && !Exec(BOOT, acts).value.overrun
    ensures Forward(Exec(BOOT, acts).value.actor.log) != Err(Malformed(PauseWithoutJobSubmitted))
  {
    ActorRuns(acts);
    RuntimeSafety.ReplayRecoversPhase(Trace(BOOT, acts));
  }

  predicate Uninterrupted(acts: seq<Act>) {
    forall i :: 0 <= i < |acts| ==> !Restarts(acts[i])
  }

  predicate WakesBy(s: Sys, acts: seq<Act>) {
    Uninterrupted(acts) && Exec(s, acts).Some? && Exec(s, acts).value.actor.ctl.mem.Woken?
  }

  ghost predicate CanWake(s: Sys) {
    exists acts :: WakesBy(s, acts)
  }

  /** The turn's registration can no longer bring an event: it came before the pause, or another registration replaced it. */
  predicate Missed(s: Sys) {
    s.reg.Some? && (s.reg.value in s.handled || s.reg.value in s.world.overwritten)
  }

  lemma {:induction false} ExecSplits(s: Sys, a: seq<Act>, b: seq<Act>)
    ensures Exec(s, a + b) == match Exec(s, a) case None => None case Some(t) => Exec(t, b)
  {
    if b == [] {
      assert a + b == a;
    } else {
      assert DropLast(a + b) == a + DropLast(b) && LastOf(a + b) == LastOf(b);
      ExecSplits(s, a, DropLast(b));
    }
  }

  lemma FirstStep(s: Sys, a: Act, acts: seq<Act>)
    requires !Restarts(a) && Do(s, a).Some? && WakesBy(Do(s, a).value, acts)
    ensures WakesBy(s, [a] + acts)
  {
    assert DropLast([a]) == [] && Exec(s, [a]) == Do(s, a);
    ExecSplits(s, [a], acts);
  }

  lemma NoMailForMissed(s: Sys, i: nat)
    requires SysInv(s) && Parked(s) && Missed(s) && i < |s.mail|
    ensures s.mail[i].job != s.actor.ctl.mem.job
  {
    assert MailFits(s, s.mail[i]);
    var k := s.reg.value;
    assert P.Settling(s.world, k);
    if s.mail[i].from.Some? {
      SentJob(s, s.mail[i]);
      if s.mail[i].from.value == k && k in s.world.overwritten {
        SentAt(s.world, Jobs.Send(k, s.mail[i].job, s.mail[i].outcome));
      }
    }
  }

  /** A paused actor waits: it only takes a completion, or goes down. */
  lemma PausedIsQuiet(s: State, l: Label)
    requires s.ctl.live && s.ctl.mem.Paused? && Apply(s, l).Some?
    ensures l.JobDone? || l.Crash?
  {
  }

  /** At rest, and either unaware of the pause or with no event left to come. */
  predicate Stuck(s: Sys) {
    Resting(s) && (!s.marker || Missed(s))
  }

  lemma StuckStays(s: Sys, a: Act)
    requires SysInv(s) && Stuck(s) && !Restarts(a) && Do(s, a).Some? && !Do(s, a).value.overrun
    ensures Stuck(Do(s, a).value)
  {
    match a
    case Actor(l) => PausedIsQuiet(s.actor, l);
    case Receive => if s.marker { NoMailForMissed(s, 0); }
    case Worker(step) => ActGrows(s.world, step);
    case _ =>
  }

  lemma StuckIsPaused(s: Sys, a: Act)
    requires s.actor.ctl.mem.Paused? && !Restarts(a) && Do(s, a).Some? && Do(s, a).value.overrun
    ensures Do(s, a).value.actor.ctl == s.actor.ctl
  {
  }

  lemma {:induction false} StuckNeverWakes(s: Sys, acts: seq<Act>)
    requires SysInv(s) && Stuck(s) && Uninterrupted(acts) && Exec(s, acts).Some?
    ensures var t := Exec(s, acts).value; t.actor.ctl.mem.Paused? && (t.overrun || (SysInv(t) && Stuck(t)))
  {
    if acts != [] {
      assert forall i :: 0 <= i < |acts| - 1 ==> DropLast(acts)[i] == acts[i];
      StuckNeverWakes(s, DropLast(acts));
      var t := Exec(s, DropLast(acts)).value;
      if Do(t, LastOf(acts)).value.overrun {
        StuckIsPaused(t, LastOf(acts));
      } else {
        if t.overrun { OverrunStays(t, LastOf(acts)); }
        DoKeepsInv(t, LastOf(acts));
        StuckStays(t, LastOf(acts));
      }
    }
  }

  lemma SkipMail(s: Sys)
    requires Parked(s) && !s.overrun && s.mail != [] && s.mail[0].job != s.actor.ctl.mem.job
    ensures Do(s, Receive).Some?
    ensures var t := Do(s, Receive).value; t.actor == s.actor && t.mail == s.mail[1..] && t.marker && !t.overrun
  {
  }

  lemma AwakeAlready(s: Sys)
    requires s.actor.ctl.mem.Woken?
    ensures WakesBy(s, [])
  {
  }

  lemma WakeOnFirst(s: Sys)
    requires Parked(s) && !s.overrun && s.mail != [] && s.mail[0].job == s.actor.ctl.mem.job
    ensures WakesBy(s, [Receive])
  {
    WakeIsEnabled(s);
    AwakeAlready(Do(s, Receive).value);
    FirstStep(s, Receive, []);
    assert [Receive] + [] == [Receive];
  }

  /** With its event in the mailbox, the session only has to read on. */
  lemma {:induction false} ReadsOn(s: Sys, i: nat) returns (acts: seq<Act>)
    requires SysInv(s) && Parked(s) && i < |s.mail| && s.mail[i].job == s.actor.ctl.mem.job
    ensures WakesBy(s, acts)
    decreases i
  {
    if s.mail[0].job == s.actor.ctl.mem.job {
      WakeOnFirst(s);
      acts := [Receive];
    } else {
      SkipMail(s);
      DoKeepsInv(s, Receive);
      var rest := ReadsOn(Do(s, Receive).value, i - 1);
      FirstStep(s, Receive, rest);
      acts := [Receive] + rest;
    }
  }

  lemma Delivering(s: Sys, n: nat) returns (t: Sys)
    requires n < |s.world.issued| && n !in s.world.sent && s.world.issued[n].sink in s.mine
    ensures Do(s, Worker(P.Deliver(n))) == Some(t) && t.actor == s.actor && t.marker == s.marker && t.overrun == s.overrun
    ensures |t.mail| == |s.mail| + 1 && t.mail[|s.mail|].job == s.world.issued[n].job
  {
    t := Do(s, Worker(P.Deliver(n))).value;
  }

  lemma DeliveredWakes(s: Sys, n: nat) returns (acts: seq<Act>)
    requires SysInv(s) && Parked(s) && n < |s.world.issued| && n !in s.world.sent
    requires s.world.issued[n].sink in s.mine && s.world.issued[n].job == s.actor.ctl.mem.job
    ensures WakesBy(s, acts)
  {
    var t := Delivering(s, n);
    DoKeepsInv(s, Worker(P.Deliver(n)));
    var rest := ReadsOn(t, |s.mail|);
    FirstStep(s, Worker(P.Deliver(n)), rest);
    acts := [Worker(P.Deliver(n))] + rest;
  }

  lemma SettledWakes(s: Sys, k: Jobs.Sink) returns (acts: seq<Act>)
    requires SysInv(s) && Parked(s) && s.reg == Some(k) && !Missed(s)
    requires k < |s.world.regs| && s.world.regs[k] in s.world.table && Jobs.Terminal(s.world.table[s.world.regs[k]].status)
    ensures WakesBy(s, acts)
  {
    assert P.Settling(s.world, k);
    var n :| 0 <= n < |s.world.issued| && s.world.issued[n].sink == k;
    assert P.EventFits(s.world, s.world.issued[n]);
    if n in s.world.sent {
      var i :| 0 <= i < |s.mail| && s.mail[i].from == Some(k);
      assert MailFits(s, s.mail[i]);
      SentJob(s, s.mail[i]);
      acts := ReadsOn(s, i);
    } else {
      acts := DeliveredWakes(s, n);
    }
  }

  lemma NotMissedWakes(s: Sys) returns (acts: seq<Act>)
    requires SysInv(s) && Parked(s) && !Missed(s)
    ensures WakesBy(s, acts)
  {
    var job := s.actor.ctl.mem.job;
    match s.reg
    case None =>
      var i :| 0 <= i < |s.mail| && s.mail[i] == Mail(job, LOST, None);
      acts := ReadsOn(s, i);
    case Some(k) =>
      assert P.Settling(s.world, k);
      if Jobs.Terminal(s.world.table[job].status) {
        acts := SettledWakes(s, k);
      } else {
        acts := CompletedWakes(s, k);
      }
  }

  lemma CompletedWakes(s: Sys, k: Jobs.Sink) returns (acts: seq<Act>)
    requires SysInv(s) && Parked(s) && s.reg == Some(k) && !Missed(s)
    requires s.actor.ctl.mem.job in s.world.table && !Jobs.Terminal(s.world.table[s.actor.ctl.mem.job].status)
    ensures WakesBy(s, acts)
  {
    var a := Worker(P.Complete(s.actor.ctl.mem.job, Cancelled));
    var t := Completing(s, s.actor.ctl.mem.job, Cancelled);
    DoKeepsInv(s, a);
    var rest := SettledWakes(t, k);
    FirstStep(s, a, rest);
    acts := [a] + rest;
  }

  lemma Completing(s: Sys, job: JobId, outcome: JobOutcome) returns (t: Sys)
    requires !s.overrun && job in s.world.table && !Jobs.Terminal(s.world.table[job].status)
    ensures Do(s, Worker(P.Complete(job, outcome))) == Some(t)
    ensures t == s.(world := t.world) && t.world.regs == s.world.regs && t.world.overwritten == s.world.overwritten
    ensures job in t.world.table && Jobs.Terminal(t.world.table[job].status)
  {
    t := Do(s, Worker(P.Complete(job, outcome))).value;
  }

  /**
   A paused turn can still be woken without a restart exactly when its completion was
   neither taken from the mailbox before the pause nor cut off by a later registration.
   A job that finishes between registration and pause therefore leaves the session paused
   until it is reopened. The actor's marker always says that it is paused.
   */
  lemma WakesUnlessMissed(acts: seq<Act>)
    requires Exec(BOOT, acts).Some? && Resting(Exec(BOOT, acts).value) && !Exec(BOOT, acts).value.overrun
    ensures var s := Exec(BOOT, acts).value; s.marker && (CanWake(s) <==> !Missed(s))
  {
    ExecKeepsInv(acts);
    ExecKeepsMarker(acts);
    var s := Exec(BOOT, acts).value;
    if Stuck(s) {
      forall more ensures !WakesBy(s, more) {
        if Uninterrupted(more) && Exec(s, more).Some? { StuckNeverWakes(s, more); }
      }
    } else {
      var more := NotMissedWakes(s);
    }
  }

  // ----- triggers -----

  /** With two turns at work the log has a turn start inside an open turn. */
  lemma {:induction false} OverrunIsNested(acts: seq<Act>)
    requires Exec(BOOT, acts).Some? && Exec(BOOT, acts).value.overrun
    ensures ScanOf(Exec(BOOT, acts).value.actor.log).nested
  {
    if acts != [] {
      var s := Exec(BOOT, DropLast(acts)).value;
      if s.overrun {
        OverrunIsNested(DropLast(acts));
        NestedAfter(s, LastOf(acts));
      } else {
        ExecKeepsInv(DropLast(acts));
        StartedOver(s, LastOf(acts));
      }
    }
  }

  lemma StartedOver(s: Sys, a: Act)
    requires SysInv(s) && Do(s, a).Some? && Do(s, a).value.overrun
    ensures ScanOf(Do(s, a).value.actor.log).nested
  {
    if a.Trigger? { TriggerReads(s, a.turn, a.input); }
  }

  lemma NestedAfter(s: Sys, a: Act)
    requires s.overrun && ScanOf(s.actor.log).nested && Do(s, a).Some?
    ensures ScanOf(Do(s, a).value.actor.log).nested
  {
    NestedUnread(s.actor.log);
    if a.Stray? { assert DropLast(s.actor.log + [a.event]) == s.actor.log; }
  }

  lemma NestedUnread(log: Log)
    requires ScanOf(log).nested
    ensures Forward(log).Err?
  {
    RuntimeSafety.NestedForever(log, []);
    assert log + [] == log;
  }

  /** The marker is clear although a turn is still there. */
  predicate Unguarded(s: Sys) {
    s.actor.ctl.live && !s.overrun && !s.marker && s.actor.ctl.mem != Ready(None)
  }

  /** A restart has left a turn interrupted, or the running turn's completion was taken before its pause. */
  predicate Fatal(s: Sys) {
    s.actor.ctl.live && !s.overrun && ((s.actor.ctl.mem.Ready? && s.actor.ctl.mem.interrupted.Some?) || Early(s))
  }

  lemma FatalIsUnguarded(acts: seq<Act>)
    requires Exec(BOOT, acts).Some?
    ensures Fatal(Exec(BOOT, acts).value) <==> Unguarded(Exec(BOOT, acts).value)
  {
    if !Exec(BOOT, acts).value.overrun { ExecKeepsMarker(acts); }
  }

  lemma OpenUnlessReady(s: State)
    requires Reachable(s)
    ensures ScanOf(s.log).nested == s.ctl.overlapped && (ScanOf(s.log).inTurn <==> s.ctl.mem != Ready(None))
    ensures Forward(s.log).Ok? <==> !s.ctl.overlapped
  {
    var steps :| Run(START, steps) == Some(s);
    RuntimeSafety.RunKeepsInv(steps);
    RuntimeSafety.ForwardIsPhase(s);
  }

  lemma TriggerReads(s: Sys, turn: TurnId, input: seq<ContentBlock>)
    requires SysInv(s) && Do(s, Trigger(turn, input)).Some?
    ensures ScanOf(Do(s, Trigger(turn, input)).value.actor.log).nested <==> s.actor.ctl.overlapped || Unguarded(s)
  {
    OpenUnlessReady(s.actor);
    RuntimeSafety.AppendReads(s.actor.log, Some(turn), TurnStarted(input, []));
  }

  /** A trigger makes a readable log unreadable exactly when it is fatal, and then no events can repair it. */
  lemma TriggerIsFatal(acts: seq<Act>, turn: TurnId, input: seq<ContentBlock>)
    requires Exec(BOOT, acts).Some? && Forward(Exec(BOOT, acts).value.actor.log).Ok? && Exec(BOOT, acts).value.actor.ctl.live
    ensures var s := Exec(BOOT, acts).value;
            var t := Do(s, Trigger(turn, input));
            t.Some? && (Forward(t.value.actor.log).Err? <==> Fatal(s)) &&
            (Fatal(s) ==> forall more :: Forward(t.value.actor.log + more).Err?)
  {
    ReadableRuns(acts);
    ExecKeepsInv(acts);
    FatalIsUnguarded(acts);
    var s := Exec(BOOT, acts).value;
    TriggerTaken(s, turn, input);
    var t := Do(s, Trigger(turn, input)).value;
    TriggerReads(s, turn, input);
    if Unguarded(s) {
      forall more ensures Forward(t.actor.log + more).Err? { RuntimeSafety.NestedForever(t.actor.log, more); }
      assert t.actor.log + [] == t.actor.log;
    } else {
      TriggerKeepsInv(s, turn, input);
      OpenUnlessReady(t.actor);
    }
  }

  lemma TriggerTaken(s: Sys, turn: TurnId, input: seq<ContentBlock>)
    requires s.actor.ctl.live && !s.overrun
    ensures Do(s, Trigger(turn, input)).Some?
    ensures Do(s, Trigger(turn, input)).value.overrun <==> Unguarded(s) && !s.actor.ctl.mem.Ready?
  {
    if s.actor.ctl.mem.Ready? {
      var m := Live(s.actor.ctl, Begin(turn, input)).value;
      assert m.write.Some?;
    }
  }

  /** The log can be replayed until a turn has been started over another one. */
  lemma ReadableRuns(acts: seq<Act>)
    requires Exec(BOOT, acts).Some?
    ensures var s := Exec(BOOT, acts).value; Forward(s.actor.log).Ok? <==> !s.overrun && !s.actor.ctl.overlapped
  {
    var s := Exec(BOOT, acts).value;
    if s.overrun {
      OverrunIsNested(acts);
      NestedUnread(s.actor.log);
    } else {
      ExecKeepsInv(acts);
      OpenUnlessReady(s.actor);
    }
  }

  predicate TakesFatal(acts: seq<Act>, i: nat)
    requires i < |acts|
  {
    acts[i].Trigger? && var s := Exec(BOOT, acts[..i]); s.Some? && Fatal(s.value)
  }

  lemma OverlapsOnlyByBegin(s: State, l: Label)
    requires Apply(s, l).Some?
    ensures Apply(s, l).value.ctl.overlapped <==>
            s.ctl.overlapped || (l.Begin? && s.ctl.live && s.ctl.mem.Ready? && s.ctl.mem.interrupted.Some?)
  {
  }

  lemma StepStaysReadable(s: Sys, a: Act)
    requires SysInv(s) && Do(s, a).Some?
    ensures var t := Do(s, a).value;
            !t.overrun && !t.actor.ctl.overlapped <==> !s.actor.ctl.overlapped && !(a.Trigger? && Unguarded(s))
  {
    if a.Trigger? { TriggerOverlaps(s, a.turn, a.input); } else { OtherStepsReadable(s, a); }
  }

  lemma TriggerOverlaps(s: Sys, turn: TurnId, input: seq<ContentBlock>)
    requires !s.overrun && Do(s, Trigger(turn, input)).Some?
    ensures var t := Do(s, Trigger(turn, input)).value;
            !t.overrun && !t.actor.ctl.overlapped <==> !s.actor.ctl.overlapped && !Unguarded(s)
  {
    if !s.marker && s.actor.ctl.mem.Ready? { OverlapsOnlyByBegin(s.actor, Begin(turn, input)); }
  }

  lemma OtherStepsReadable(s: Sys, a: Act)
    requires !s.overrun && Do(s, a).Some? && !a.Trigger?
    ensures !Do(s, a).value.overrun && Do(s, a).value.actor.ctl.overlapped == s.actor.ctl.overlapped
  {
    var ls := LabelOf(s, a);
    if ls != [] && Apply(s.actor, ls[0]).Some? { OverlapsOnlyByBegin(s.actor, ls[0]); }
  }

  /**
   Over any run, the log can be replayed at the end exactly when no trigger was taken while
   a turn lay interrupted, or between a completion that came too early and its pause.
   */
  lemma {:induction false} LogStaysReadable(acts: seq<Act>)
    requires Exec(BOOT, acts).Some?
    ensures Forward(Exec(BOOT, acts).value.actor.log).Ok? <==> forall i :: 0 <= i < |acts| ==> !TakesFatal(acts, i)
  {
    ReadableRuns(acts);
    if acts != [] {
      LogStaysReadable(DropLast(acts));
      ReadableRuns(DropLast(acts));
      forall i | 0 <= i < |acts| - 1 ensures TakesFatal(acts, i) <==> TakesFatal(DropLast(acts), i) {
        SameSoFar(acts, DropLast(acts), i);
      }
      LastTaken(acts, |acts| - 1);
      LastStep(acts);
    }
  }

  lemma SameSoFar(acts: seq<Act>, pre: seq<Act>, i: nat)
    requires i < |pre| && pre <= acts
    ensures TakesFatal(acts, i) <==> TakesFatal(pre, i)
  {
    assert acts[..i] == pre[..i];
  }

  lemma LastTaken(acts: seq<Act>, i: nat)
    requires Exec(BOOT, acts).Some? && i + 1 == |acts|
    ensures TakesFatal(acts, i) <==> LastOf(acts).Trigger? && Fatal(Exec(BOOT, DropLast(acts)).value)
  {
    assert acts[..i] == DropLast(acts);
  }

  lemma LastStep(acts: seq<Act>)
    requires acts != [] && Exec(BOOT, acts).Some?
    ensures var s, t := Exec(BOOT, DropLast(acts)).value, Exec(BOOT, acts).value;
            !t.overrun && !t.actor.ctl.overlapped <==>
            !s.overrun && !s.actor.ctl.overlapped && !(LastOf(acts).Trigger? && Fatal(s))
  {
    var s := Exec(BOOT, DropLast(acts)).value;
    if s.overrun {
      OverrunStays(s, LastOf(acts));
    } else {
      ExecKeepsInv(DropLast(acts));
      FatalIsUnguarded(DropLast(acts));
      StepStaysReadable(s, LastOf(acts));
    }
  }

  /** Taking a completion before the pause clears the marker: the next trigger starts a turn over the running one. */
  lemma TriggerBeforePauseIsFatal(acts: seq<Act>, turn: TurnId, input: seq<ContentBlock>, more: Log)
    requires Exec(BOOT, acts).Some? && !Exec(BOOT, acts).value.overrun
    requires Waiting(Exec(BOOT, acts).value) && Exec(BOOT, acts).value.mail != []
    ensures var t := Exec(BOOT, acts + [Receive, Trigger(turn, input)]);
            t.Some? && t.value.overrun && Forward(t.value.actor.log + more).Err?
  {
    var s := Exec(BOOT, acts).value;
    var r := Do(s, Receive).value;
    TriggerTaken(r, turn, input);
    assert DropLast([Receive, Trigger(turn, input)]) == [Receive] && DropLast([Receive]) == [];
    assert Exec(s, [Receive]) == Some(r);
    ExecSplits(BOOT, acts, [Receive, Trigger(turn, input)]);
    OverrunIsNested(acts + [Receive, Trigger(turn, input)]);
    RuntimeSafety.NestedForever(Do(r, Trigger(turn, input)).value.actor.log, more);
  }

  // ----- restarts -----

  lemma PausedPhase(s: State)
    requires Reachable(s) && s.ctl.mem.Paused? && !s.ctl.overlapped
    ensures Forward(s.log) == Ok(Decision(PausedJob(s.ctl.mem.turn, s.ctl.mem.job), LastSeq(s.log)))
    ensures LookupCallId(s.log, s.ctl.mem.job) == Some(s.ctl.mem.callId)
  {
    var steps :| Run(START, steps) == Some(s);
    RuntimeSafety.RunKeepsInv(steps);
    RuntimeSafety.ForwardIsPhase(s);
    CurrentJob(s);
    JobTables(s.log, s.ctl.mem.job);
  }

  lemma ActorRestarts(s: State)
    requires Reachable(s) && s.ctl.live && s.ctl.mem.Paused? && !s.ctl.overlapped
    ensures var d := s.(ctl := s.ctl.(live := false));
            Apply(s, Crash) == Some(d) && Apply(d, Label.Reopen) == Some(s)
  {
    PausedPhase(s);
  }

  lemma Restarted(s: Sys, down: Act)
    requires SysInv(s) && Resting(s) && !s.actor.ctl.overlapped && (down.Shutdown? || down.Die?)
    ensures Do(s, down).Some? && Do(Do(s, down).value, Act.Reopen).Some?
    ensures var t := Do(Do(s, down).value, Act.Reopen).value;
            SysInv(t) && Parked(t) && t.actor == s.actor && !Missed(t)
  {
    ActorRestarts(s.actor);
    DoKeepsInv(s, down);
    ReopenedAfter(Do(s, down).value, s.actor);
  }

  lemma ReopenedAfter(d: Sys, actor: State)
    requires SysInv(d) && Unconnected(d) && Apply(d.actor, Label.Reopen) == Some(actor)
    requires actor.ctl.live && actor.ctl.mem.Paused?
    ensures Do(d, Act.Reopen).Some?
    ensures var t := Do(d, Act.Reopen).value; SysInv(t) && Parked(t) && t.actor == actor && !Missed(t)
  {
    FreshlyEnrolled(d, actor);
    assert Do(d, Act.Reopen) == Reopened(d);
    ReopenKeepsInv(d);
  }

  lemma FreshlyEnrolled(d: Sys, actor: State)
    requires Unconnected(d) && P.Inv(d.world) && Apply(d.actor, Label.Reopen) == Some(actor)
    requires actor.ctl.live && actor.ctl.mem.Paused?
    ensures Reopened(d).Some? && Reopened(d).value.actor == actor && !Missed(Reopened(d).value)
  {
    var t := d.(actor := actor);
    var job := actor.ctl.mem.job;
    if job in t.world.table {
      var k := |t.world.regs|;
      P.EnrolKeepsInv(t.world, job);
      assert P.Settling(P.Enrol(t.world, job), k);
      if t.world.table[job].sink.Some? { assert P.SinkFits(t.world, job); }
    }
  }

  /** Reopening, in the same process or a new one, always restores the wake-up of a readable log. */
  lemma ReopeningHeals(acts: seq<Act>, down: Act)
    requires Exec(BOOT, acts).Some? && Resting(Exec(BOOT, acts).value) && Forward(Exec(BOOT, acts).value.actor.log).Ok?
    requires down.Shutdown? || down.Die?
    ensures var s, t := Exec(BOOT, acts).value, Exec(BOOT, acts + [down, Act.Reopen]);
            t.Some? && Parked(t.value) && t.value.actor.ctl.mem == s.actor.ctl.mem && CanWake(t.value)
  {
    ReadableRuns(acts);
    ExecKeepsInv(acts);
    var s := Exec(BOOT, acts).value;
    Restarted(s, down);
    assert DropLast([down, Act.Reopen]) == [down] && DropLast([down]) == [];
    assert Exec(s, [down]) == Do(s, down);
    ExecSplits(BOOT, acts, [down, Act.Reopen]);
    var more := NotMissedWakes(Do(Do(s, down).value, Act.Reopen).value);
  }
}
