/**
 The local job manager. Each lock-scoped block of the source is one method here, and
 one atomic step of the interleaved protocol in `JobProtocol`; both are stated by
 the same functions on the job table.
 */
module Jobs {
  import opened Wrappers
  import opened Events

  /** The states this manager uses. */
  datatype Status = Running | Completed | FailedStatus | CancelledStatus

  /** A completion sink, known by the registration that supplied it. */
  type Sink = nat

  datatype Job = Job(status: Status, outcome: Option<JobOutcome>, sink: Option<Sink>, abort: bool)

  type Table = map<JobId, Job>

  datatype JobError = UnknownJob | NotYetCompleted

  predicate Terminal(s: Status) {
    s == Completed || s == FailedStatus || s == CancelledStatus
  }

  function StatusOf(o: JobOutcome): Status {
    match o
    case Success(_) => Completed
    case Failed(_) => FailedStatus
    case Cancelled => CancelledStatus
  }

  /** A completion event owed to a sink once the lock is released. */
  datatype Send = Send(sink: Sink, job: JobId, outcome: JobOutcome)

  // ----- one function per lock-scoped block -----

  function Inserted(t: Table, job: JobId): Table {
    t[job := Job(Running, None, None, false)]
  }

  function Patched(t: Table, job: JobId): Table {
    if job in t then t[job := t[job].(abort := true)] else t
  }

  /** Moves a running job to a terminal state; the sink, if any, is taken and owed one event. */
  function Settled(t: Table, job: JobId, outcome: JobOutcome): (Table, Option<Send>) {
    if job !in t || Terminal(t[job].status) then (t, None)
    else (t[job := Job(StatusOf(outcome), Some(outcome), None, false)],
          if t[job].sink.None? then None else Some(Send(t[job].sink.value, job, outcome)))
  }

  /** A registration on a terminal job is owed its event at once; otherwise it replaces the stored sink. */
  function Registered(t: Table, job: JobId, sink: Sink): (Table, Option<Send>) {
    if job !in t then (t, None)
    else if Terminal(t[job].status)
    then (t, if t[job].outcome.None? then None else Some(Send(sink, job, t[job].outcome.value)))
    else (t[job := t[job].(sink := Some(sink))], None)
  }

  function ResultOf(t: Table, job: JobId): Result<JobOutcome, JobError> {
    if job !in t then Err(UnknownJob)
    else if t[job].outcome.None? then Err(NotYetCompleted)
    else Ok(t[job].outcome.value)
  }

  class LocalJobManager {
    var jobs: Table

    constructor ()
      ensures jobs == map[]
    {
      jobs := map[];
    }

    /** First block of `submit_internal`; the spawned task may run before the second. */
    method InsertRunning(job: JobId)
      modifies this
      ensures jobs == Inserted(old(jobs), job)
    {
      jobs := jobs[job := Job(Running, None, None, false)];
    }

    /** Second block of `submit_internal`: the abort handle is patched in, terminal or not. */
    method PatchAbortHandle(job: JobId)
      modifies this
      ensures jobs == Patched(old(jobs), job)
    {
      if job in jobs {
        jobs := jobs[job := jobs[job].(abort := true)];
      }
    }

    method CompleteInternal(job: JobId, outcome: JobOutcome) returns (owed: Option<Send>)
      modifies this
      ensures (jobs, owed) == Settled(old(jobs), job, outcome)
    {
      if job !in jobs { return None; }
      var entry := jobs[job];
      if Terminal(entry.status) { return None; }
      var status := match outcome
        case Success(_) => Completed
        case Failed(_) => FailedStatus
        case Cancelled => CancelledStatus;
      jobs := jobs[job := entry.(status := status, outcome := Some(outcome), abort := false, sink := None)];
      if entry.sink.None? { return None; }
      return Some(Send(entry.sink.value, job, outcome));
    }

    method Cancel(job: JobId) returns (r: Result<(), JobError>, owed: Option<Send>, abort: bool)
      modifies this
      ensures (jobs, owed) == Settled(old(jobs), job, Cancelled)
      ensures r == if job in old(jobs) then Ok(()) else Err(UnknownJob)
      ensures abort <==> job in old(jobs) && !Terminal(old(jobs)[job].status) && old(jobs)[job].abort
    {
      if job !in jobs { return Err(UnknownJob), None, false; }
      var entry := jobs[job];
      if Terminal(entry.status) { return Ok(()), None, false; }
      jobs := jobs[job := entry.(status := CancelledStatus, outcome := Some(Cancelled), abort := false, sink := None)];
      if entry.sink.None? { return Ok(()), None, entry.abort; }
      return Ok(()), Some(Send(entry.sink.value, job, Cancelled)), entry.abort;
    }

    method OnComplete(job: JobId, sink: Sink) returns (r: Result<(), JobError>, owed: Option<Send>)
      modifies this
      ensures (jobs, owed) == Registered(old(jobs), job, sink)
      ensures r == if job in old(jobs) then Ok(()) else Err(UnknownJob)
    {
      if job !in jobs { return Err(UnknownJob), None; }
      if Terminal(jobs[job].status) {
        var outcome := jobs[job].outcome;
        return Ok(()), if outcome.None? then None else Some(Send(sink, job, outcome.value));
      }
      jobs := jobs[job := jobs[job].(sink := Some(sink))];
      return Ok(()), None;
    }

    method Result(job: JobId) returns (r: Result<JobOutcome, JobError>)
      ensures r == ResultOf(jobs, job)
    {
      if job !in jobs { return Err(UnknownJob); }
      if jobs[job].outcome.None? { return Err(NotYetCompleted); }
      return Ok(jobs[job].outcome.value);
    }
  }
}
