/** The controller: the only object that mutates a task record. It also holds
    the task's cancellation request, which the body may observe. */
module Controllers {
  import opened Models
  import opened Tasks

  /** `status` is a copy of `task` as it stands: same id, state, result and
      error, and the progress list as a sequence of the entries so far. */
  predicate IsSnapshotOf(status: WebTaskStatus, task: WebTask)
    reads task
  {
    && status.webTaskId == task.id
    && status.state == task.state
    && status.result == task.result
    && status.progresses == task.progresses
    && status.error == task.error
  }

  class WebTaskController {
    const webTask: WebTask
    /** Whether cancellation has been requested through the token source. */
    var cancellationRequested: bool

    constructor (webTask: WebTask)
      ensures this.webTask == webTask && !cancellationRequested
    {
      this.webTask := webTask;
      this.cancellationRequested := false;
    }

    /** A side-effect-free copy of the record. */
    method GetStatus() returns (status: WebTaskStatus)
      ensures IsSnapshotOf(status, webTask)
    {
      status := WebTaskStatus(webTask.id, webTask.state, webTask.error, webTask.progresses, webTask.result);
    }

    /** The body returned `result`: the task is Finished at `now` with that
        result; its error and progress are left as they were. */
    method Completed(result: Option<WebTaskResult>, now: Time)
      modifies webTask
      ensures webTask.state == Finished && webTask.finished == Some(now) && webTask.result == result
      ensures webTask.error == old(webTask.error) && webTask.progresses == old(webTask.progresses)
      ensures old(webTask.Consistent()) && !IsTerminal(old(webTask.state)) ==> webTask.Consistent()
    {
      webTask.finished := Some(now);
      webTask.state := Finished;
      webTask.result := result;
    }

    /** Requests cancellation; the record itself is not touched. */
    method Cancel()
      modifies this
      ensures cancellationRequested
      ensures unchanged(webTask)
    {
      cancellationRequested := true;
    }

    /** The body is about to run: the task becomes Running and nothing else changes. */
    method Started()
      modifies webTask
      ensures webTask.state == Running
      ensures webTask.finished == old(webTask.finished) && webTask.result == old(webTask.result)
      ensures webTask.error == old(webTask.error) && webTask.progresses == old(webTask.progresses)
      ensures old(webTask.Consistent()) && old(webTask.state) == Idle ==> webTask.Consistent()
    {
      webTask.state := Running;
    }

    /** Appends one report; the earlier reports keep their order and values. */
    method ReportProgress(progress: WebTaskProgress)
      modifies webTask
      ensures webTask.progresses == old(webTask.progresses) + [progress]
      ensures webTask.state == old(webTask.state) && webTask.finished == old(webTask.finished)
      ensures webTask.result == old(webTask.result) && webTask.error == old(webTask.error)
      ensures old(webTask.Consistent()) ==> webTask.Consistent()
    {
      webTask.progresses := webTask.progresses + [progress];
    }

    /** The body was cancelled: the task is Canceled at `now`, with no result
        or error written. */
    method Canceled(now: Time)
      modifies webTask
      ensures webTask.state == WebTaskState.Canceled && webTask.finished == Some(now)
      ensures webTask.result == old(webTask.result) && webTask.error == old(webTask.error)
      ensures webTask.progresses == old(webTask.progresses)
      ensures old(webTask.Consistent()) && !IsTerminal(old(webTask.state)) ==> webTask.Consistent()
    {
      webTask.finished := Some(now);
      webTask.state := WebTaskState.Canceled;
    }

    /** The body threw an exception with message `message`: the task is Failed
        at `now` with that error; the result is left as it was. */
    method Faulted(message: string, now: Time)
      modifies webTask
      ensures webTask.state == Failed && webTask.finished == Some(now) && webTask.error == Some(message)
      ensures webTask.result == old(webTask.result) && webTask.progresses == old(webTask.progresses)
      ensures old(webTask.Consistent()) && !IsTerminal(old(webTask.state)) ==> webTask.Consistent()
    {
      webTask.finished := Some(now);
      webTask.state := Failed;
      webTask.error := Some(message);
    }
  }
}
