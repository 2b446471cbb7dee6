/**
 The job manager under every interleaving. Each lock-scoped block of `LocalJobManager`
 is one atomic step; each channel send is a later step of its own. Nobody takes turns:
 a run is any sequence of steps, by any callers, in any order.
 */
module JobProtocol {
  import opened Wrappers
  import opened Events
  import opened Jobs

  /**
   The job table, with the history the theorems speak of: the jobs registered for, by
   registration number; the registrations replaced by a later one; the events taken
   under the lock, in that order; and which of them have been sent.
   */
  datatype World = World(
    table: Table, regs: seq<JobId>, overwritten: set<Sink>, issued: seq<Send>, sent: set<nat>)

  const EMPTY := World(map[], [], {}, [], {})

  datatype JobStep =
    | Insert(job: JobId)
    | Patch(job: JobId)
    | Complete(job: JobId, outcome: JobOutcome)
    | Cancel(job: JobId)
    | OnComplete(job: JobId)
    | Deliver(index: nat)

  function Issue(w: World, result: (Table, Option<Send>)): World {
    w.(table := result.0, issued := if result.1.None? then w.issued else w.issued + [result.1.value])
  }

  /** Registers the next sink; a non-terminal job forgets the sink it held. */
  function Enrol(w: World, job: JobId): World
    requires job in w.table
  {
    var held := w.table[job].sink;
    Issue(w, Registered(w.table, job, |w.regs|)).(
      regs := w.regs + [job],
      overwritten := if Terminal(w.table[job].status) || held.None? then w.overwritten
                     else w.overwritten + {held.value})
  }

  function Act(w: World, step: JobStep): Option<World> {
    match step
    case Insert(job) => if job in w.table then None else Some(w.(table := Inserted(w.table, job)))
    case Patch(job) => Some(w.(table := Patched(w.table, job)))
    case Complete(job, outcome) => Some(Issue(w, Settled(w.table, job, outcome)))
    case Cancel(job) => Some(Issue(w, Settled(w.table, job, Cancelled)))
    case OnComplete(job) => Some(if job in w.table then Enrol(w, job) else w)
    case Deliver(i) => if i < |w.issued| && i !in w.sent then Some(w.(sent := w.sent + {i})) else None
  }

  function Acts(w: World, steps: seq<JobStep>): Option<World> {
    if steps == [] then Some(w)
    else match Acts(w, DropLast(steps))
      case None => None
      case Some(v) => Act(v, LastOf(steps))
  }

  // ----- the invariant -----

  /** Terminal exactly with an outcome, the status fits it, and nothing is registered any more. */
  predicate Coherent(j: Job) {
    (j.status == Running <==> j.outcome.None?) && (j.outcome.Some? ==> j.sink.None?) &&
    (j.status == Completed <==> j.outcome.Some? && j.outcome.value.Success?) &&
    (j.status == FailedStatus <==> j.outcome.Some? && j.outcome.value.Failed?) &&
    (j.status == CancelledStatus <==> j.outcome == Some(Cancelled))
  }

  predicate Distinct(issued: seq<Send>) {
    forall i, j :: 0 <= i < j < |issued| ==> issued[i].sink != issued[j].sink
  }

  predicate HasEvent(issued: seq<Send>, k: Sink) {
    exists i :: 0 <= i < |issued| && issued[i].sink == k
  }

  predicate Settling(w: World, k: Sink)
    requires k < |w.regs|
  {
    var job := w.regs[k];
    job in w.table &&
    (k in w.overwritten ==> !HasEvent(w.issued, k)) &&
    (k !in w.overwritten ==>
       (HasEvent(w.issued, k) <==> Terminal(w.table[job].status)) &&
       (!Terminal(w.table[job].status) ==> w.table[job].sink == Some(k)))
  }

  predicate EventFits(w: World, e: Send) {
    e.sink < |w.regs| && w.regs[e.sink] == e.job && ResultOf(w.table, e.job) == Ok(e.outcome)
  }

  predicate SinkFits(w: World, job: JobId)
    requires job in w.table
  {
    w.table[job].sink.Some? ==>
      w.table[job].sink.value < |w.regs| && w.regs[w.table[job].sink.value] == job &&
      w.table[job].sink.value !in w.overwritten
  }

  ghost predicate Inv(w: World) {
    (forall job :: job in w.table ==> Coherent(w.table[job]) && SinkFits(w, job)) &&
    (forall k :: k in w.overwritten ==> k < |w.regs|) &&
    (forall k :: 0 <= k < |w.regs| ==> Settling(w, k)) &&
    (forall i :: 0 <= i < |w.issued| ==> EventFits(w, w.issued[i])) &&
    Distinct(w.issued) &&
    (forall i :: i in w.sent ==> i < |w.issued|)
  }

  lemma HasEventSnoc(issued: seq<Send>, e: Send, k: Sink)
    ensures HasEvent(issued + [e], k) <==> HasEvent(issued, k) || k == e.sink
  {
    if HasEvent(issued, k) {
      var i :| 0 <= i < |issued| && issued[i].sink == k;
      assert (issued + [e])[i].sink == k;
    }
    assert (issued + [e])[|issued|] == e;
  }

  lemma SettleKeepsInv(w: World, job: JobId, outcome: JobOutcome)
    requires Inv(w)
    ensures Inv(Issue(w, Settled(w.table, job, outcome)))
  {
    if job in w.table && !Terminal(w.table[job].status) {
      var w' := Issue(w, Settled(w.table, job, outcome));
      var sink := w.table[job].sink;
      forall k | 0 <= k < |w'.regs| ensures Settling(w', k) {
        assert Settling(w, k);
        if sink.Some? { HasEventSnoc(w.issued, Send(sink.value, job, outcome), k); }
      }
      forall i | 0 <= i < |w'.issued| ensures EventFits(w', w'.issued[i]) {
        if i < |w.issued| { assert EventFits(w, w.issued[i]); }
      }
      if sink.Some? { assert Settling(w, sink.value); }
      forall other | other in w'.table ensures Coherent(w'.table[other]) && SinkFits(w', other) {
        if other != job { assert SinkFits(w, other); }
      }
    }
  }

  lemma EnrolKeepsInv(w: World, job: JobId)
    requires Inv(w) && job in w.table
    ensures Inv(Enrol(w, job))
  {
    var w', n := Enrol(w, job), |w.regs|;
    var held := w.table[job].sink;
    assert !HasEvent(w.issued, n) by {
      forall i | 0 <= i < |w.issued| ensures w.issued[i].sink != n { assert EventFits(w, w.issued[i]); }
    }
    forall k | 0 <= k < |w'.regs| ensures Settling(w', k) {
      if k < n { assert Settling(w, k) && w'.regs[k] == w.regs[k]; }
      if Terminal(w.table[job].status) { HasEventSnoc(w.issued, Send(n, job, w.table[job].outcome.value), k); }
    }
    forall i | 0 <= i < |w'.issued| ensures EventFits(w', w'.issued[i]) {
      if i < |w.issued| { assert EventFits(w, w.issued[i]); }
    }
    forall other | other in w'.table ensures Coherent(w'.table[other]) && SinkFits(w', other) {
      assert SinkFits(w, other) && Coherent(w.table[other]);
    }
  }

  lemma ActKeepsInv(w: World, step: JobStep)
    requires Inv(w) && Act(w, step).Some?
    ensures Inv(Act(w, step).value)
  {
    var w' := Act(w, step).value;
    match step
    case Complete(job, outcome) => SettleKeepsInv(w, job, outcome);
    case Cancel(job) => SettleKeepsInv(w, job, Cancelled);
    case OnComplete(job) => if job in w.table { EnrolKeepsInv(w, job); }
    case Deliver(_) =>
      forall k | 0 <= k < |w'.regs| ensures Settling(w', k) { assert Settling(w, k); }
      forall job | job in w'.table ensures SinkFits(w', job) { assert SinkFits(w, job); }
    case _ =>
      forall k | 0 <= k < |w'.regs| ensures Settling(w', k) { assert Settling(w, k); }
      forall i | 0 <= i < |w'.issued| ensures EventFits(w', w'.issued[i]) { assert EventFits(w, w.issued[i]); }
      forall job | job in w'.table ensures Coherent(w'.table[job]) && SinkFits(w', job) {
        if job in w.table { assert SinkFits(w, job) && Coherent(w.table[job]); }
      }
  }

  lemma {:induction false} ActsKeepInv(w: World, steps: seq<JobStep>)
    requires Inv(w) && Acts(w, steps).Some?
    ensures Inv(Acts(w, steps).value)
  {
    if steps != [] {
      ActsKeepInv(w, DropLast(steps));
      ActKeepsInv(Acts(w, DropLast(steps)).value, LastOf(steps));
    }
  }

  // ----- theorems -----

  /** In every reachable table a job is terminal exactly when it has an outcome, which its status fits; it then holds no sink. */
  lemma {:induction false} TerminalMeansSettled(steps: seq<JobStep>, job: JobId)
    requires Acts(EMPTY, steps).Some? && job in Acts(EMPTY, steps).value.table
    ensures Coherent(Acts(EMPTY, steps).value.table[job])
  {
    ActsKeepInv(EMPTY, steps);
  }

  predicate At(issued: seq<Send>, i: int, k: Sink) {
    0 <= i < |issued| && issued[i].sink == k
  }

  /** Registration `k` has exactly one event, with the outcome `result` returns. */
  ghost predicate ExactlyOne(w: World, k: Sink)
    requires k < |w.regs|
  {
    exists i :: At(w.issued, i, k) && w.issued[i].job == w.regs[k] &&
                ResultOf(w.table, w.regs[k]) == Ok(w.issued[i].outcome) &&
                forall j :: At(w.issued, j, k) ==> i == j
  }

  /**
   A registration has exactly one event, sent or owed, and it carries the outcome `result`
   returns, if and only if its job is terminal and no later registration replaced it;
   otherwise it has none.
   */
  lemma OneEventPerRegistration(steps: seq<JobStep>, k: Sink)
    requires Acts(EMPTY, steps).Some? && k < |Acts(EMPTY, steps).value.regs|
    ensures var w := Acts(EMPTY, steps).value;
            w.regs[k] in w.table &&
            (ExactlyOne(w, k) <==> k !in w.overwritten && Terminal(w.table[w.regs[k]].status)) &&
            (!ExactlyOne(w, k) ==> !HasEvent(w.issued, k))
  {
    ActsKeepInv(EMPTY, steps);
    var w := Acts(EMPTY, steps).value;
    assert Settling(w, k);
    if HasEvent(w.issued, k) {
      var i :| 0 <= i < |w.issued| && w.issued[i].sink == k;
      assert EventFits(w, w.issued[i]) && At(w.issued, i, k);
      forall j | At(w.issued, j, k) ensures i == j {}
    } else {
      forall i ensures !At(w.issued, i, k) {}
    }
  }

  lemma SettledStays(w: World, step: JobStep, job: JobId)
    requires Act(w, step).Some? && job in w.table && Terminal(w.table[job].status)
    ensures var w' := Act(w, step).value;
            job in w'.table && w'.table[job].status == w.table[job].status && w'.table[job].outcome == w.table[job].outcome
  {
  }

  /** Status and outcome never change once terminal, whatever still arrives: late completions, cancels, registrations. */
  lemma {:induction false} SettledForever(w: World, steps: seq<JobStep>, job: JobId)
    requires Acts(w, steps).Some? && job in w.table && Terminal(w.table[job].status)
    ensures var w' := Acts(w, steps).value;
            job in w'.table && w'.table[job].status == w.table[job].status && w'.table[job].outcome == w.table[job].outcome
  {
    if steps != [] {
      SettledForever(w, DropLast(steps), job);
      SettledStays(Acts(w, DropLast(steps)).value, LastOf(steps), job);
    }
  }

  /** Events are only added, and a sent one stays sent. */
  lemma {:induction false} HistoryGrows(w: World, steps: seq<JobStep>)
    requires Acts(w, steps).Some?
    ensures var w' := Acts(w, steps).value;
            w.issued <= w'.issued && w.sent <= w'.sent && w.regs <= w'.regs && w.overwritten <= w'.overwritten
  {
    if steps != [] { HistoryGrows(w, DropLast(steps)); }
  }

  /** Every event reports the outcome its job has at every later time. */
  lemma EventsAgreeWithResult(steps: seq<JobStep>, more: seq<JobStep>, i: nat)
    requires Acts(EMPTY, steps).Some? && Acts(Acts(EMPTY, steps).value, more).Some?
    requires i < |Acts(EMPTY, steps).value.issued|
    ensures var e := Acts(EMPTY, steps).value.issued[i];
            ResultOf(Acts(Acts(EMPTY, steps).value, more).value.table, e.job) == Ok(e.outcome)
  {
    ActsKeepInv(EMPTY, steps);
    var w := Acts(EMPTY, steps).value;
    assert EventFits(w, w.issued[i]);
    assert Coherent(w.table[w.issued[i].job]);
    SettledForever(w, more, w.issued[i].job);
  }

  /** The abort handle, unlike the sink, can outlive the job: the patch does not look at the status. */
  lemma TerminalJobMayKeepItsHandle(job: JobId, outcome: JobOutcome)
    ensures var w := Acts(EMPTY, [Insert(job), Complete(job, outcome), Patch(job)]);
            w.Some? && job in w.value.table && w.value.table[job].outcome == Some(outcome) && w.value.table[job].abort
  {
    var one, two := [Insert(job)], [Insert(job), Complete(job, outcome)];
    assert DropLast(two) == one && DropLast(one) == [] && DropLast([Insert(job), Complete(job, outcome), Patch(job)]) == two;
    assert Acts(EMPTY, one) == Act(EMPTY, Insert(job));
    var begun, done := Inserted(map[], job), map[job := Job(StatusOf(outcome), Some(outcome), None, false)];
    assert begun[job].status == Running && Settled(begun, job, outcome).0 == done;
    assert Acts(EMPTY, two) == Some(EMPTY.(table := done));
  }

  // ----- the first settlement -----

  /** The step, on a running job, settles it this way. */
  predicate SettlesAs(step: JobStep, job: JobId, outcome: JobOutcome) {
    step == Complete(job, outcome) || (step == JobStep.Cancel(job) && outcome == Cancelled)
  }

  predicate Settles(step: JobStep, job: JobId) {
    (step.Complete? || step.Cancel?) && step.job == job
  }

  /** The job is submitted at `n`, and what settles it first behind that is the step at `i`. */
  predicate FirstSettled(steps: seq<JobStep>, job: JobId, n: int, i: int, outcome: JobOutcome) {
    0 <= n < i < |steps| && steps[n] == Insert(job) && SettlesAs(steps[i], job, outcome) &&
    forall j :: n < j < i ==> !Settles(steps[j], job)
  }

  predicate SubmittedAt(steps: seq<JobStep>, job: JobId, n: int) {
    0 <= n < |steps| && steps[n] == Insert(job) && forall j :: n < j < |steps| ==> !Settles(steps[j], job)
  }

  /** What a step does to one job. */
  lemma OneJob(w: World, step: JobStep, job: JobId)
    requires Inv(w) && Act(w, step).Some?
    ensures var t, t' := w.table, Act(w, step).value.table;
            if job !in t then (job in t' <==> step == Insert(job)) && (job in t' ==> t'[job].outcome == None)
            else job in t' && step != Insert(job) &&
                 if t[job].outcome.Some? || !Settles(step, job) then t'[job].outcome == t[job].outcome
                 else t'[job].outcome == Some(if step.Complete? then step.outcome else Cancelled)
  {
    if job in w.table { assert Coherent(w.table[job]); }
  }

  /**
   In every interleaving the first completion or cancel behind a job's submission decides
   its outcome for good: an outcome is that step's own, and until such a step there is none.
   */
  lemma {:induction false} FirstSettlementDecides(steps: seq<JobStep>, job: JobId)
    requires Acts(EMPTY, steps).Some? && job in Acts(EMPTY, steps).value.table
    ensures var result := ResultOf(Acts(EMPTY, steps).value.table, job);
            if result.Ok? then exists n, i :: FirstSettled(steps, job, n, i, result.value)
            else exists n :: SubmittedAt(steps, job, n)
  {
    var pre, step, last := DropLast(steps), LastOf(steps), |steps| - 1;
    var w := Acts(EMPTY, pre).value;
    ActsKeepInv(EMPTY, pre);
    OneJob(w, step, job);
    assert forall j :: 0 <= j < last ==> pre[j] == steps[j];
    if job !in w.table {
      assert SubmittedAt(steps, job, last);
    } else {
      FirstSettlementDecides(pre, job);
      SettlementStays(pre, step, job, ResultOf(w.table, job));
      Snoc(steps);
    }
  }

  lemma SettlementStays(pre: seq<JobStep>, step: JobStep, job: JobId, was: Result<JobOutcome, JobError>)
    requires if was.Ok? then exists n, i :: FirstSettled(pre, job, n, i, was.value) else exists n :: SubmittedAt(pre, job, n)
    ensures var steps, outcome := pre + [step], if step.Complete? then step.outcome else Cancelled;
            if was.Ok? then exists n, i :: FirstSettled(steps, job, n, i, was.value)
            else if !Settles(step, job) then exists n :: SubmittedAt(steps, job, n)
            else exists n, i :: FirstSettled(steps, job, n, i, outcome)
  {
    var steps := pre + [step];
    assert steps[|pre|] == step && forall j :: 0 <= j < |pre| ==> steps[j] == pre[j];
    if was.Ok? {
      var n, i :| FirstSettled(pre, job, n, i, was.value);
      assert FirstSettled(steps, job, n, i, was.value);
    } else {
      var n :| SubmittedAt(pre, job, n);
      if Settles(step, job) {
        assert FirstSettled(steps, job, n, |pre|, if step.Complete? then step.outcome else Cancelled);
      } else {
        assert SubmittedAt(steps, job, n);
      }
    }
  }
}
