/** What the model hears of its jobs: over every run, the result recorded and handed on is the job's own outcome. */
module JobResults {
  import opened Wrappers
  import opened Events
  import opened Resume
  import opened Runtime
  import opened RuntimeSafety

  /** The log has this payload. */
  predicate Has(log: Log, p: Payload) {
    exists k :: 0 <= k < |log| && log[k].payload == p
  }

  lemma HasAppended(log: Log, turn: Option<TurnId>, q: Payload, p: Payload)
    ensures Has(Append(log, turn, q), p) <==> Has(log, p) || p == q
  {
    var log' := Append(log, turn, q);
    assert log'[|log|].payload == q && forall k :: 0 <= k < |log| ==> log'[k] == log[k];
  }

  /** The result of a call that became a job: what the job returned, or the error for its failure or cancellation. */
  predicate Says(outcome: JobOutcome, result: ToolResult) {
    match outcome
    case Success(value) => result == value
    case Failed(message) => result.Error? && result.kind == AsyncFailed && result.message == message && !result.retryable
    case Cancelled =>
      result.Error? && result.kind == CallCancelled && result.message == "job cancelled" && !result.retryable
  }

  /** The results a turn carries to its next model call. */
  function Carried(m: Memory): seq<(CallId, ToolResult)> {
    match m
    case Preparing(_, done) => done
    case Resolving(_, _, _, _, done) => done
    case Dispatching(_, _, done) => done
    case Submitted(_, _, _, _, done) => done
    case _ => []
  }

  // ----- the invariant -----

  /** A job's submissions are all for the call the log's job table has. */
  ghost predicate SubmittedOnce(s: State) {
    forall id, job, name :: Has(s.log, JobSubmitted(id, job, name)) ==>
      job in ScanOf(s.log).jobs && ScanOf(s.log).jobs[job] == id
  }

  /** A completed job was submitted, and no turn waits for it any more. */
  ghost predicate CompletedOnce(s: State) {
    forall job, outcome :: Has(s.log, JobCompletedRecorded(job, outcome)) ==>
      job in ScanOf(s.log).jobs && ((s.ctl.mem.Submitted? || s.ctl.mem.Paused?) ==> s.ctl.mem.job != job)
  }

  predicate WokenBy(m: Memory, job: JobId, id: CallId, outcome: JobOutcome) {
    m.Woken? && m.job == job && m.callId == id && m.outcome == outcome
  }

  ghost predicate ResultSays(log: Log, id: CallId, outcome: JobOutcome) {
    id in LedgerOf(log).answered && forall result :: Has(log, ToolResultRecorded(id, result)) ==> Says(outcome, result)
  }

  /** Either the turn is about to record its job's result, or the recorded one says what the outcome is. */
  ghost predicate OutcomesHeard(s: State) {
    forall job, outcome :: Has(s.log, JobCompletedRecorded(job, outcome)) && job in ScanOf(s.log).jobs ==>
      var id := ScanOf(s.log).jobs[job];
      WokenBy(s.ctl.mem, job, id, outcome) || ResultSays(s.log, id, outcome)
  }

  ghost predicate CarriedRecorded(s: State) {
    forall i :: 0 <= i < |Carried(s.ctl.mem)| ==>
      Has(s.log, ToolResultRecorded(Carried(s.ctl.mem)[i].0, Carried(s.ctl.mem)[i].1))
  }

  ghost predicate Hears(s: State) {
    SubmittedOnce(s) && CompletedOnce(s) && OutcomesHeard(s) && CarriedRecorded(s)
  }

  lemma {:induction false} ResultAnswers(log: Log, id: CallId, result: ToolResult)
    requires Has(log, ToolResultRecorded(id, result))
    ensures id in LedgerOf(log).answered
  {
    var k :| 0 <= k < |log| && log[k].payload == ToolResultRecorded(id, result);
    if k < |log| - 1 {
      assert DropLast(log)[k] == log[k];
      ResultAnswers(DropLast(log), id, result);
    }
  }

  // ----- steps that concern no job and no result -----

  predicate Bears(p: Payload) {
    p.JobSubmitted? || p.JobCompletedRecorded? || p.ToolResultRecorded?
  }

  /** The memory waits for the same job, if for any, and carries nothing new. */
  predicate GoesOn(m: Memory, m': Memory) {
    (m'.Submitted? || m'.Paused? ==> (m.Submitted? || m.Paused?) && m'.job == m.job) &&
    (m.Woken? ==> m' == m) && (Carried(m') == Carried(m) || Carried(m') == [])
  }

  lemma SilentHears(s: State, t: State)
    requires Hears(s) && t.log == s.log && GoesOn(s.ctl.mem, t.ctl.mem)
    ensures Hears(t)
  {
  }

  lemma SameFacts(log: Log, turn: Option<TurnId>, p: Payload)
    requires !Bears(p)
    ensures var log' := Append(log, turn, p);
            ScanOf(log').jobs == ScanOf(log).jobs && LedgerOf(log').answered == LedgerOf(log).answered &&
            forall q :: Bears(q) ==> (Has(log', q) <==> Has(log, q))
  {
    AppendReads(log, turn, p);
    forall q | Bears(q) ensures Has(Append(log, turn, p), q) <==> Has(log, q) { HasAppended(log, turn, p, q); }
  }

  lemma PlainHears(s: State, t: State, turn: Option<TurnId>, p: Payload)
    requires Hears(s) && !Bears(p) && t.log == Append(s.log, turn, p) && GoesOn(s.ctl.mem, t.ctl.mem)
    ensures Hears(t)
  {
    SameFacts(s.log, turn, p);
    forall job, outcome | Has(t.log, JobCompletedRecorded(job, outcome)) && job in ScanOf(t.log).jobs
      ensures var id := ScanOf(t.log).jobs[job]; WokenBy(t.ctl.mem, job, id, outcome) || ResultSays(t.log, id, outcome)
    {
      assert Has(s.log, JobCompletedRecorded(job, outcome));
      var id := ScanOf(s.log).jobs[job];
      if !WokenBy(s.ctl.mem, job, id, outcome) { assert ResultSays(s.log, id, outcome); }
    }
  }

  // ----- results -----

  lemma ResultFacts(log: Log, turn: Option<TurnId>, id: CallId, result: ToolResult)
    ensures var log' := Append(log, turn, ToolResultRecorded(id, result));
            ScanOf(log').jobs == ScanOf(log).jobs && LedgerOf(log').answered == LedgerOf(log).answered + {id} &&
            (forall q :: Has(log', q) <==> Has(log, q) || q == ToolResultRecorded(id, result))
  {
    var p := ToolResultRecorded(id, result);
    AppendReads(log, turn, p);
    forall q ensures Has(Append(log, turn, p), q) <==> Has(log, q) || q == p { HasAppended(log, turn, p, q); }
  }

  /** A result for a call that no completed job answers: the other calls' results stay as they are. */
  lemma ResultHears(s: State, t: State, turn: Option<TurnId>, id: CallId, result: ToolResult)
    requires Hears(s) && t.log == Append(s.log, turn, ToolResultRecorded(id, result))
    requires t.ctl.mem.Dispatching? || t.ctl.mem.Resolving?
    requires Carried(t.ctl.mem) == Carried(s.ctl.mem) + [(id, result)]
    requires id !in LedgerOf(s.log).answered
    requires s.ctl.mem.Woken? ==> s.ctl.mem.callId == id && Says(s.ctl.mem.outcome, result)
    ensures Hears(t)
  {
    ResultFacts(s.log, turn, id, result);
    forall job, outcome | Has(t.log, JobCompletedRecorded(job, outcome)) && job in ScanOf(t.log).jobs
      ensures ResultSays(t.log, ScanOf(t.log).jobs[job], outcome)
    {
      ResultStillSays(s, t.log, id, result, job, outcome);
    }
    CarriedGrows(s, t, id, result);
  }

  lemma CarriedGrows(s: State, t: State, id: CallId, result: ToolResult)
    requires CarriedRecorded(s) && Carried(t.ctl.mem) == Carried(s.ctl.mem) + [(id, result)]
    requires forall q :: Has(t.log, q) <==> Has(s.log, q) || q == ToolResultRecorded(id, result)
    ensures CarriedRecorded(t)
  {
    var was, now := Carried(s.ctl.mem), Carried(t.ctl.mem);
    forall i | 0 <= i < |now| ensures Has(t.log, ToolResultRecorded(now[i].0, now[i].1)) {
      if i < |was| { assert Has(s.log, ToolResultRecorded(was[i].0, was[i].1)); }
    }
  }

  lemma ResultStillSays(s: State, log: Log, id: CallId, result: ToolResult, job: JobId, outcome: JobOutcome)
    requires OutcomesHeard(s) && Has(s.log, JobCompletedRecorded(job, outcome)) && job in ScanOf(s.log).jobs
    requires LedgerOf(log).answered == LedgerOf(s.log).answered + {id}
    requires forall q :: Has(log, q) <==> Has(s.log, q) || q == ToolResultRecorded(id, result)
    requires id !in LedgerOf(s.log).answered
    requires s.ctl.mem.Woken? ==> s.ctl.mem.callId == id && Says(s.ctl.mem.outcome, result)
    ensures ResultSays(log, ScanOf(s.log).jobs[job], outcome)
  {
    var mine := ScanOf(s.log).jobs[job];
    forall r | Has(log, ToolResultRecorded(mine, r)) ensures Says(outcome, r) {
      if Has(s.log, ToolResultRecorded(mine, r)) { ResultAnswers(s.log, mine, r); }
    }
  }

  // ----- submissions and completions -----

  lemma SubmitHears(s: State, t: State, turn: Option<TurnId>, id: CallId, job: JobId, name: string)
    requires Hears(s) && t.log == Append(s.log, turn, JobSubmitted(id, job, name)) && job !in ScanOf(s.log).jobs
    requires t.ctl.mem.Submitted? && t.ctl.mem.job == job && s.ctl.mem.Dispatching? && Carried(t.ctl.mem) == Carried(s.ctl.mem)
    ensures Hears(t)
  {
    var p := JobSubmitted(id, job, name);
    AppendReads(s.log, turn, p);
    forall q ensures Has(t.log, q) <==> Has(s.log, q) || q == p { HasAppended(s.log, turn, p, q); }
    forall j, outcome | Has(t.log, JobCompletedRecorded(j, outcome)) && j in ScanOf(t.log).jobs
      ensures ResultSays(t.log, ScanOf(t.log).jobs[j], outcome)
    {
      assert Has(s.log, JobCompletedRecorded(j, outcome));
      assert ResultSays(s.log, ScanOf(s.log).jobs[j], outcome);
    }
  }

  /** The first completion of the job the turn is paused on: it wakes up, with its call still unanswered. */
  lemma CompletionHears(s: State, t: State, turn: Option<TurnId>, outcome: JobOutcome)
    requires Hears(s) && s.ctl.mem.Paused? && t.log == Append(s.log, turn, JobCompletedRecorded(s.ctl.mem.job, outcome))
    requires s.ctl.mem.job in ScanOf(s.log).jobs && ScanOf(s.log).jobs[s.ctl.mem.job] == s.ctl.mem.callId
    requires WokenBy(t.ctl.mem, s.ctl.mem.job, s.ctl.mem.callId, outcome)
    ensures Hears(t)
  {
    CompletionFacts(s.log, turn, s.ctl.mem.job, outcome);
    CompletionHeard(s, t, s.ctl.mem.job, outcome);
  }

  lemma CompletionHeard(s: State, t: State, done: JobId, outcome: JobOutcome)
    requires OutcomesHeard(s) && !s.ctl.mem.Woken?
    requires ScanOf(t.log).jobs == ScanOf(s.log).jobs && LedgerOf(t.log).answered == LedgerOf(s.log).answered
    requires forall q :: Has(t.log, q) <==> Has(s.log, q) || q == JobCompletedRecorded(done, outcome)
    requires done in ScanOf(s.log).jobs && WokenBy(t.ctl.mem, done, ScanOf(s.log).jobs[done], outcome)
    ensures OutcomesHeard(t)
  {
    forall job, o | Has(t.log, JobCompletedRecorded(job, o)) && job in ScanOf(t.log).jobs
      ensures var id := ScanOf(t.log).jobs[job]; WokenBy(t.ctl.mem, job, id, o) || ResultSays(t.log, id, o)
    {
      if Has(s.log, JobCompletedRecorded(job, o)) { SaysOn(s, t.log, job, o); }
    }
  }

  lemma CompletionFacts(log: Log, turn: Option<TurnId>, job: JobId, outcome: JobOutcome)
    ensures var log' := Append(log, turn, JobCompletedRecorded(job, outcome));
            ScanOf(log').jobs == ScanOf(log).jobs && LedgerOf(log').answered == LedgerOf(log).answered &&
            (forall q :: Has(log', q) <==> Has(log, q) || q == JobCompletedRecorded(job, outcome))
  {
    var p := JobCompletedRecorded(job, outcome);
    AppendReads(log, turn, p);
    forall q ensures Has(Append(log, turn, p), q) <==> Has(log, q) || q == p { HasAppended(log, turn, p, q); }
  }

  lemma SaysOn(s: State, log: Log, job: JobId, outcome: JobOutcome)
    requires OutcomesHeard(s) && !s.ctl.mem.Woken? && Has(s.log, JobCompletedRecorded(job, outcome)) && job in ScanOf(s.log).jobs
    requires LedgerOf(log).answered == LedgerOf(s.log).answered
    requires forall id, result :: Has(log, ToolResultRecorded(id, result)) ==> Has(s.log, ToolResultRecorded(id, result))
    ensures ResultSays(log, ScanOf(s.log).jobs[job], outcome)
  {
    assert ResultSays(s.log, ScanOf(s.log).jobs[job], outcome);
  }

  // ----- every step keeps it -----

  /** The steps that write no submission, completion or result. */
  predicate IsPlain(l: Label) {
    !(l.Reject? || l.Answer? || l.Submit? || l.RegisterFailed? || l.JobDone? || l.Wake? || l.Reopen?)
  }

  lemma PlainMoves(c: Control, l: Label)
    requires IsPlain(l) && Live(c, l).Some?
    ensures var m := Live(c, l).value; GoesOn(c.mem, m.ctl.mem) && (m.write.Some? ==> !Bears(m.write.value))
  {
  }

  lemma PlainKeeps(s: State, l: Label)
    requires Hears(s) && IsPlain(l) && Apply(s, l).Some?
    ensures Hears(Apply(s, l).value)
  {
    PlainMoves(s.ctl, l);
    var m, t := Live(s.ctl, l).value, Apply(s, l).value;
    if m.write.None? { SilentHears(s, t); } else { PlainHears(s, t, EnvelopeTurn(s.ctl.mem, m.ctl.mem), m.write.value); }
  }

  lemma UnansweredIds(s: State, id: CallId)
    requires Inv(s) && !s.ctl.mem.Ready? && (id in Ids(Remaining(s.ctl.mem)) || id in Awaited(s.ctl.mem))
    ensures id !in LedgerOf(s.log).answered
  {
    var g := LedgerOf(s.log);
    assert id in g.owed - s.ctl.lost;
  }

  lemma FirstIsThere(calls: seq<Call>)
    requires calls != []
    ensures calls[0].callId in Ids(calls)
  {
    assert calls[0] in calls;
  }

  lemma RejectKeeps(s: State, result: ToolResult)
    requires Inv(s) && Hears(s) && Apply(s, Reject(result)).Some?
    ensures Hears(Apply(s, Reject(result)).value)
  {
    var t, id := Apply(s, Reject(result)).value, s.ctl.mem.todo[0].callId;
    assert s.ctl.mem.todo[0] in s.ctl.mem.kept + s.ctl.mem.todo;
    UnansweredIds(s, id);
    ResultHears(s, t, EnvelopeTurn(s.ctl.mem, t.ctl.mem), id, result);
  }

  lemma AnswerKeeps(s: State, result: ToolResult)
    requires Inv(s) && Hears(s) && Apply(s, Answer(result)).Some?
    ensures Hears(Apply(s, Answer(result)).value)
  {
    var t, id := Apply(s, Answer(result)).value, s.ctl.mem.queue[0].callId;
    FirstIsThere(s.ctl.mem.queue);
    UnansweredIds(s, id);
    ResultHears(s, t, EnvelopeTurn(s.ctl.mem, t.ctl.mem), id, result);
  }

  lemma RegisterFailedKeeps(s: State, result: ToolResult)
    requires Inv(s) && Hears(s) && Apply(s, RegisterFailed(result)).Some?
    ensures Hears(Apply(s, RegisterFailed(result)).value)
  {
    var t, id := Apply(s, RegisterFailed(result)).value, s.ctl.mem.call.callId;
    assert Remaining(s.ctl.mem)[0] == s.ctl.mem.call;
    FirstIsThere(Remaining(s.ctl.mem));
    UnansweredIds(s, id);
    ResultHears(s, t, EnvelopeTurn(s.ctl.mem, t.ctl.mem), id, result);
  }

  lemma WakeKeeps(s: State)
    requires Inv(s) && Hears(s) && Apply(s, Wake).Some?
    ensures Hears(Apply(s, Wake).value)
  {
    var t, id, result := Apply(s, Wake).value, s.ctl.mem.callId, OutcomeToToolResult(s.ctl.mem.outcome);
    UnansweredIds(s, id);
    assert [] + [(id, result)] == [(id, result)];
    ResultHears(s, t, EnvelopeTurn(s.ctl.mem, t.ctl.mem), id, result);
  }

  lemma SubmitKeeps(s: State, job: JobId)
    requires Hears(s) && Apply(s, Submit(job)).Some?
    ensures Hears(Apply(s, Submit(job)).value)
  {
    var t, call := Apply(s, Submit(job)).value, s.ctl.mem.queue[0];
    SubmitHears(s, t, EnvelopeTurn(s.ctl.mem, t.ctl.mem), call.callId, job, call.toolName);
  }

  lemma JobDoneKeeps(s: State, outcome: JobOutcome)
    requires Inv(s) && Hears(s) && Apply(s, JobDone(outcome)).Some?
    ensures Hears(Apply(s, JobDone(outcome)).value)
  {
    var t := Apply(s, JobDone(outcome)).value;
    PausedIsKnown(s);
    CompletionHears(s, t, EnvelopeTurn(s.ctl.mem, t.ctl.mem), outcome);
  }

  lemma PausedIsKnown(s: State)
    requires Inv(s) && s.ctl.mem.Paused?
    ensures s.ctl.mem.job in ScanOf(s.log).jobs && ScanOf(s.log).jobs[s.ctl.mem.job] == s.ctl.mem.callId
  {
  }

  // ----- reopening -----

  /** A wake-up the forward machine has read is an event of the log. */
  lemma {:induction false} WakeUpIsLogged(log: Log)
    requires ScanOf(log).mode.PausedOn? && ScanOf(log).mode.done.Some?
    ensures Has(log, JobCompletedRecorded(ScanOf(log).mode.job, ScanOf(log).mode.done.value))
  {
    if log != [] {
      var pre, e, m := DropLast(log), LastOf(log), ScanOf(log).mode;
      var p := JobCompletedRecorded(m.job, m.done.value);
      if e.payload == p {
        assert log[|log| - 1].payload == p;
      } else {
        WakeUpIsLogged(pre);
        var k :| 0 <= k < |pre| && pre[k].payload == p;
        assert log[k].payload == p;
      }
    }
  }

  lemma AnsweredHasResult(log: Log, id: CallId)
    requires Answered(log, id)
    ensures exists result :: Has(log, ToolResultRecorded(id, result))
  {
    var i :| 0 <= i < |log| && log[i].payload.ToolResultRecorded? && log[i].payload.callId == id;
    assert log[i].payload == ToolResultRecorded(id, log[i].payload.result);
    assert Has(log, ToolResultRecorded(id, log[i].payload.result));
  }

  /** The result made up for an answered wake-up is the one the log has. */
  lemma LatchedResult(s: State)
    requires Inv(s) && Hears(s) && s.ctl.latch.Some? && !s.ctl.mem.Woken?
    ensures var p := s.ctl.latch.value;
            p.AfterJobCompletion? && Answered(s.log, p.callId) &&
            Has(s.log, ToolResultRecorded(p.callId, OutcomeToToolResult(p.outcome)))
  {
    var p := s.ctl.latch.value;
    WakeUpIsLogged(s.log);
    AnsweredInLedger(s.log, p.callId);
    AnsweredHasResult(s.log, p.callId);
    var result :| Has(s.log, ToolResultRecorded(p.callId, result));
    assert Has(s.log, JobCompletedRecorded(p.job, p.outcome));
    assert Says(p.outcome, result);
  }

  lemma ReopenKeeps(s: State)
    requires Inv(s) && Hears(s) && Apply(s, Reopen).Some?
    ensures Hears(Apply(s, Reopen).value)
  {
    ForwardIsPhase(s);
    var t := Apply(s, Reopen).value;
    if s.ctl.latch.Some? {
      LatchedKeeps(s, t);
    } else {
      UnlatchedGoesOn(s);
      SilentHears(s, t);
    }
  }

  lemma LatchedKeeps(s: State, t: State)
    requires Inv(s) && Hears(s) && s.ctl.latch.Some? && t == s.(ctl := Restore(s, s.ctl.latch.value))
    ensures Hears(t)
  {
    AnsweredInLedger(s.log, s.ctl.latch.value.callId);
    if s.ctl.mem.Woken? {
      SilentHears(s, t);
    } else {
      LatchedResult(s);
      assert Carried(t.ctl.mem) == [(s.ctl.latch.value.callId, OutcomeToToolResult(s.ctl.latch.value.outcome))];
    }
  }

  lemma UnlatchedGoesOn(s: State)
    requires Inv(s) && s.ctl.latch.None?
    ensures GoesOn(s.ctl.mem, Restore(s, Phase(s.ctl)).mem)
  {
    if s.ctl.mem.Paused? { JobTables(s.log, s.ctl.mem.job); }
  }

  lemma StepHears(s: State, l: Label)
    requires Inv(s) && Hears(s) && Apply(s, l).Some?
    ensures Hears(Apply(s, l).value)
  {
    match l
    case Reject(result) => RejectKeeps(s, result);
    case Answer(result) => AnswerKeeps(s, result);
    case RegisterFailed(result) => RegisterFailedKeeps(s, result);
    case Submit(job) => SubmitKeeps(s, job);
    case JobDone(outcome) => JobDoneKeeps(s, outcome);
    case Wake => WakeKeeps(s);
    case Reopen => ReopenKeeps(s);
    case _ => PlainKeeps(s, l);
  }

  lemma {:induction false} RunHears(steps: seq<Label>)
    requires Run(START, steps).Some?
    ensures Hears(Run(START, steps).value)
  {
    if steps != [] {
      RunHears(DropLast(steps));
      RunKeepsInv(DropLast(steps));
      StepHears(Run(START, DropLast(steps)).value, LastOf(steps));
    }
  }

  // ----- theorems -----

  /**
   Over any run, whatever crashes and pauses it had: where the log has a job of a call, the
   job's completion and the call's result, the result is what the job returned, its failure
   under its own message, or its cancellation.
   */
  lemma ModelHearsOutcome(steps: seq<Label>, id: CallId, job: JobId, name: string, outcome: JobOutcome, result: ToolResult)
    requires Run(START, steps).Some?
    requires var log := Run(START, steps).value.log;
             Has(log, JobSubmitted(id, job, name)) && Has(log, JobCompletedRecorded(job, outcome)) &&
             Has(log, ToolResultRecorded(id, result))
    ensures match outcome
            case Success(value) => result == value
            case Failed(message) => result == Error(AsyncFailed, message, false)
            case Cancelled => result == Error(CallCancelled, "job cancelled", false)
  {
    RunHears(steps);
    RunKeepsInv(steps);
    var s := Run(START, steps).value;
    ResultAnswers(s.log, id, result);
    if WokenBy(s.ctl.mem, job, id, outcome) {
      UnansweredIds(s, id);
      assert false;
    }
  }

  /** What a turn carries to its next model call is in the log, also after it was reopened behind a wake-up. */
  lemma CarriedIsRecorded(steps: seq<Label>, i: nat)
    requires Run(START, steps).Some? && i < |Carried(Run(START, steps).value.ctl.mem)|
    ensures var s := Run(START, steps).value;
            Has(s.log, ToolResultRecorded(Carried(s.ctl.mem)[i].0, Carried(s.ctl.mem)[i].1))
  {
    RunHears(steps);
  }

  /** So what it carries for a job's call is the job's outcome too. */
  lemma TurnCarriesOutcome(steps: seq<Label>, i: nat, job: JobId, name: string, outcome: JobOutcome)
    requires Run(START, steps).Some? && i < |Carried(Run(START, steps).value.ctl.mem)|
    requires var s := Run(START, steps).value;
             Has(s.log, JobSubmitted(Carried(s.ctl.mem)[i].0, job, name)) && Has(s.log, JobCompletedRecorded(job, outcome))
    ensures Says(outcome, Carried(Run(START, steps).value.ctl.mem)[i].1)
  {
    CarriedIsRecorded(steps, i);
    var carried := Carried(Run(START, steps).value.ctl.mem)[i];
    ModelHearsOutcome(steps, carried.0, job, name, outcome, carried.1);
  }

  /** The step behind a wake-up records a result for the job's call and carries just that. */
  lemma WakeUpIsAnswered(steps: seq<Label>)
    requires Run(START, steps).Some? && Run(START, steps).value.ctl.mem.Woken? && Run(START, steps).value.ctl.live
    ensures var s, t := Run(START, steps).value, Run(START, steps + [Wake]);
            t.Some? && |Carried(t.value.ctl.mem)| == 1 && Carried(t.value.ctl.mem)[0].0 == s.ctl.mem.callId &&
            Has(t.value.log, ToolResultRecorded(s.ctl.mem.callId, Carried(t.value.ctl.mem)[0].1)) &&
            Says(s.ctl.mem.outcome, Carried(t.value.ctl.mem)[0].1)
  {
    var s := Run(START, steps).value;
    RunSnoc(steps, Wake, s);
    var result := WakeStep(s);
    CarriedIsRecorded(steps + [Wake], 0);
  }

  lemma WakeStep(s: State) returns (result: ToolResult)
    requires s.ctl.live && s.ctl.mem.Woken?
    ensures Apply(s, Wake).Some? && Carried(Apply(s, Wake).value.ctl.mem) == [(s.ctl.mem.callId, result)]
    ensures Says(s.ctl.mem.outcome, result)
  {
    result := OutcomeToToolResult(s.ctl.mem.outcome);
    assert Live(s.ctl, Wake).value.write.Some?;
  }

  /**
   Reopened behind a wake-up the log has: with the result recorded, the turn carries just
   that result, saying the outcome; without it, the turn is woken and about to record it.
   */
  lemma ReopenedHearsOutcome(steps: seq<Label>, turn: TurnId, job: JobId, outcome: JobOutcome, id: CallId,
                             before: seq<(CallId, ToolResult)>)
    requires Run(START, steps).Some? && !Run(START, steps).value.ctl.live
    requires Forward(Run(START, steps).value.log).Ok?
    requires Forward(Run(START, steps).value.log).value.point == AfterJobCompletion(turn, job, outcome, id, before, [])
    ensures var s, t := Run(START, steps).value, Run(START, steps + [Reopen]);
            t.Some? && t.value.log == s.log && t.value.ctl.live && t.value.ctl.mem.turn == turn &&
            if Answered(s.log, id)
            then |Carried(t.value.ctl.mem)| == 1 && Carried(t.value.ctl.mem)[0].0 == id &&
                 Says(outcome, Carried(t.value.ctl.mem)[0].1) && Has(s.log, ToolResultRecorded(id, Carried(t.value.ctl.mem)[0].1))
            else WokenBy(t.value.ctl.mem, job, id, outcome)
  {
    var s := Run(START, steps).value;
    RunSnoc(steps, Reopen, s);
    var t := Apply(s, Reopen).value;
    if Answered(s.log, id) { CarriedIsRecorded(steps + [Reopen], 0); }
  }
}
