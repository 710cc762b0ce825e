/** Whole-engine runs that the test suite of the system describes: each starts
    from an empty registry, submits, lets the worker run (as one atomic step,
    or step by step where the timing matters), and polls. */
module Scenarios {
  import opened Models
  import opened Runner

  /** A body that returns a result: the read sees Finished, that result and no error. */
  method RunWebTaskSuccess(id: Id, submittedAt: Time, finishedAt: Time, r: WebTaskResult)
    returns (status: Option<WebTaskStatus>)
    ensures status.Some? && status.value.webTaskId == id
    ensures status.value.state == Finished && status.value.result == Some(r) && status.value.error == None
  {
    var runner := new WebTaskRunner();
    var webTaskId := runner.RunWebTask(id, submittedAt);
    ExecuteWebTask(runner.controllers[webTaskId], WithoutContext, RanToCompletion(Some(r)), finishedAt);
    status := runner.GetWebTaskStatus(webTaskId);
  }

  /** A body that throws: the read sees Failed with the exception's message and no result. */
  method RunWebTaskFailed(id: Id, submittedAt: Time, finishedAt: Time, message: string)
    returns (status: Option<WebTaskStatus>)
    ensures status.Some? && status.value.state == Failed
    ensures status.value.result == None && status.value.error == Some(message)
  {
    var runner := new WebTaskRunner();
    var webTaskId := runner.RunWebTask(id, submittedAt);
    ExecuteWebTask(runner.controllers[webTaskId], WithoutContext, Faulted(message), finishedAt);
    status := runner.GetWebTaskStatus(webTaskId);
  }

  /** A context-aware body cancelled by its caller ends Canceled with neither
      result nor error, whether the request arrives before the worker starts
      (the body never runs) or while the body waits (it then observes the
      request and stops). Progress made before the stop is kept. */
  method RunWebTaskCanceled(id: Id, submittedAt: Time, finishedAt: Time,
                            startedBeforeCancel: bool, progresses: seq<WebTaskProgress>)
    returns (status: Option<WebTaskStatus>)
    ensures status.Some? && status.value.state == WebTaskState.Canceled
    ensures status.value.result == None && status.value.error == None
    ensures status.value.progresses == if startedBeforeCancel then progresses else []
  {
    var runner := new WebTaskRunner();
    var webTaskId := runner.RunWebTask(id, submittedAt);
    var controller := runner.controllers[webTaskId];
    if startedBeforeCancel {
      RunWithContext(controller, progresses);
      runner.CancelTask(webTaskId);
      SetWebTaskStateOnController(TaskOutcome.Canceled, controller, finishedAt);
    } else {
      runner.CancelTask(webTaskId);
      ExecuteWebTask(controller, WithContext(progresses), RanToCompletion(None), finishedAt);
    }
    status := runner.GetWebTaskStatus(webTaskId);
  }

  /** Two submissions under distinct ids are independent: each read sees its
      own task's result. */
  method RunTwoWebTasks(id1: Id, id2: Id, now: Time, r1: WebTaskResult, r2: WebTaskResult)
    returns (status1: Option<WebTaskStatus>, status2: Option<WebTaskStatus>)
    requires id1 != id2
    ensures status1.Some? && status1.value.webTaskId == id1
    ensures status1.value.state == Finished && status1.value.result == Some(r1)
    ensures status2.Some? && status2.value.webTaskId == id2
    ensures status2.value.state == Finished && status2.value.result == Some(r2)
  {
    var runner := new WebTaskRunner();
    var webTaskId1 := runner.RunWebTask(id1, now);
    var webTaskId2 := runner.RunWebTask(id2, now);
    ExecuteWebTask(runner.controllers[webTaskId1], WithContext([]), RanToCompletion(Some(r1)), now);
    ExecuteWebTask(runner.controllers[webTaskId2], WithContext([]), RanToCompletion(Some(r2)), now);
    status1 := runner.GetWebTaskStatus(webTaskId1);
    status2 := runner.GetWebTaskStatus(webTaskId2);
  }

  /** Every report of a finished body is in its status, in order and unchanged. */
  method ProgressesSavedInResult(id: Id, now: Time, progresses: seq<WebTaskProgress>, r: WebTaskResult)
    returns (status: Option<WebTaskStatus>)
    ensures status.Some? && status.value.state == Finished
    ensures status.value.progresses == progresses
  {
    var runner := new WebTaskRunner();
    var webTaskId := runner.RunWebTask(id, now);
    ExecuteWebTask(runner.controllers[webTaskId], WithContext(progresses), RanToCompletion(Some(r)), now);
    status := runner.GetWebTaskStatus(webTaskId);
  }

  /** A read while the body runs sees Running and the reports so far; it does
      not evict, and a status already returned is not altered by later reports. */
  method ProgressReportedWhileRunning(id: Id, now: Time, first: WebTaskProgress, second: WebTaskProgress)
    returns (early: Option<WebTaskStatus>, late: Option<WebTaskStatus>)
    ensures early.Some? && early.value.state == Running && early.value.progresses == [first]
    ensures late.Some? && late.value.state == Running && late.value.progresses == [first, second]
  {
    var runner := new WebTaskRunner();
    var webTaskId := runner.RunWebTask(id, now);
    var controller := runner.controllers[webTaskId];
    RunWithContext(controller, [first]);
    early := runner.GetWebTaskStatus(webTaskId);
    controller.ReportProgress(second);
    late := runner.GetWebTaskStatus(webTaskId);
  }

  /** With the default configuration a finished task is handed out once: the
      first read returns it and the second finds nothing. */
  method ResultRemovedAfterPickedOut(id: Id, now: Time, r: WebTaskResult)
    returns (first: Option<WebTaskStatus>, second: Option<WebTaskStatus>)
    ensures first.Some? && first.value.state == Finished && first.value.result == Some(r)
    ensures second.None?
  {
    var runner := new WebTaskRunner();
    var webTaskId := runner.RunWebTask(id, now);
    ExecuteWebTask(runner.controllers[webTaskId], WithContext([]), RanToCompletion(Some(r)), now);
    first := runner.GetWebTaskStatus(webTaskId);
    second := runner.GetWebTaskStatus(webTaskId);
  }

  /** With results persisted, repeated reads of a finished task return the same status. */
  method ResultPersistsAfterPickedOut(id: Id, now: Time, r: WebTaskResult)
    returns (first: Option<WebTaskStatus>, second: Option<WebTaskStatus>)
    ensures first.Some? && first.value.state == Finished && first.value.result == Some(r)
    ensures second == first
  {
    var runner := new WebTaskRunner();
    var configuration := DefaultConfiguration().(persistResultWhenPickedOut := true);
    var webTaskId := runner.RunWebTaskWithConfiguration(configuration, id, now);
    ExecuteWebTask(runner.controllers[webTaskId], WithContext([]), RanToCompletion(Some(r)), now);
    first := runner.GetWebTaskStatus(webTaskId);
    second := runner.GetWebTaskStatus(webTaskId);
  }

  /** A result kept for one millisecond and never read is gone after a sweep
      that runs more than one millisecond after the task finished; a sweep at
      exactly the deadline keeps it. */
  method ExpiredResultDeleted(id: Id, now: Time, finishedAt: Time, sweptAt: Time, r: WebTaskResult)
    returns (status: Option<WebTaskStatus>)
    ensures finishedAt + TicksPerMillisecond < sweptAt ==> status.None?
    ensures sweptAt == finishedAt + TicksPerMillisecond ==> status.Some? && status.value.result == Some(r)
  {
    var runner := new WebTaskRunner();
    var configuration := DefaultConfiguration().(resultExpiration := TicksPerMillisecond);
    var webTaskId := runner.RunWebTaskWithConfiguration(configuration, id, now);
    ExecuteWebTask(runner.controllers[webTaskId], WithContext([]), RanToCompletion(Some(r)), finishedAt);
    runner.ClearExpired(sweptAt);
    status := runner.GetWebTaskStatus(webTaskId);
  }
}
