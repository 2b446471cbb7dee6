/** The tool dispatcher: one validated call, with its effects on the log and on the job manager in order. */
module Dispatcher {
  import opened Wrappers
  import opened Events
  import opened Recorder
  import Resume
  import Jobs

  /** What the tool provider did with the call; `Panicked` is an unwind caught around it. */
  datatype Invoked = Panicked(message: string) | Sync(result: ToolResult) | Async(job: JobId) | Unsupported

  datatype DispatchOutcome = SyncResult(result: ToolResult) | AsyncJob(job: JobId)

  /** The context handed to the provider; the dispatcher sets its call id. */
  class ExecCtx {
    var callId: Option<CallId>

    constructor ()
      ensures callId == None
    {
      callId := None;
    }
  }

  /**
   Hands the job's completion to `sink`. Requiring the submission in the log is the
   write-before-transition rule: an event owed from here on finds its call.
   */
  method RegisterRecorded(callId: CallId, job: JobId, jobs: Jobs.LocalJobManager, sink: Jobs.Sink, recorder: StepRecorder)
    returns (r: Result<(), Jobs.JobError>, owed: Option<Jobs.Send>)
    requires recorder.Valid() && Resume.LookupCallId(recorder.log, job) == Some(callId)
    modifies jobs
    ensures (jobs.jobs, owed) == Jobs.Registered(old(jobs.jobs), job, sink)
    ensures r == if job in old(jobs.jobs) then Ok(()) else Err(Jobs.UnknownJob)
  {
    r, owed := jobs.OnComplete(job, sink);
  }

  /**
   The call is recorded against its job, and only then can the job's completion be sent to
   `sink`. A synchronous result is handed back as it is; a panic, an unknown answer and a
   job the manager does not know become error results of their own kind.
   */
  method Dispatch(call: Resume.Call, did: Invoked, ctx: ExecCtx, jobs: Jobs.LocalJobManager, sink: Jobs.Sink,
                  recorder: StepRecorder, turn: TurnId)
    returns (out: DispatchOutcome, owed: Option<Jobs.Send>)
    requires recorder.Valid()
    modifies ctx, jobs, recorder
    ensures recorder.Valid() && ctx.callId == Some(call.callId)
    ensures did.Sync? ==> out == SyncResult(did.result)
    ensures did.Async? && did.job in old(jobs.jobs) ==> out == AsyncJob(did.job)
    ensures did.Async? && did.job !in old(jobs.jobs) ==>
              out == SyncResult(Error(AsyncFailed, "on_complete failed: unknown job", false))
    ensures did.Panicked? ==>
              out == SyncResult(Error(ToolPanicked, "tool `" + call.toolName + "` panicked: " + did.message, false))
    ensures did.Unsupported? ==> out.SyncResult? && out.result.Error? && out.result.kind == InvocationFailed
    ensures recorder.text == old(recorder.text) && recorder.thinking == old(recorder.thinking)
    ensures !did.Async? ==> recorder.log == old(recorder.log) && jobs.jobs == old(jobs.jobs) && owed == None
    ensures did.Async? ==>
              recorder.log == Append(old(recorder.log), Some(turn), JobSubmitted(call.callId, did.job, call.toolName)) &&
              (jobs.jobs, owed) == Jobs.Registered(old(jobs.jobs), did.job, sink)
    ensures owed.Some? ==> Resume.LookupCallId(recorder.log, owed.value.job) == Some(call.callId)
  {
    ctx.callId := Some(call.callId);
    match did
    case Panicked(message) =>
      return SyncResult(Error(ToolPanicked, "tool `" + call.toolName + "` panicked: " + message, false)), None;
    case Sync(result) => return SyncResult(result), None;
    case Async(job) =>
      var id := recorder.AppendEvent(Some(turn), JobSubmitted(call.callId, job, call.toolName));
      var registered, event := RegisterRecorded(call.callId, job, jobs, sink, recorder);
      if registered.Err? {
        var r, none, abort := jobs.Cancel(job);
        return SyncResult(Error(AsyncFailed, "on_complete failed: unknown job", false)), None;
      }
      return AsyncJob(job), event;
    case Unsupported =>
      return SyncResult(Error(InvocationFailed,
                              "tool `" + call.toolName + "` returned an unsupported InvokeOutcome variant", false)), None;
  }
}
