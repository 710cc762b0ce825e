/** The registry of controllers, the worker's steps that drive one controller
    through its lifecycle, and the expiry sweep. Each operation is one atomic
    step; the clock and the new GUID are parameters. */
module Runner {
  import opened Models
  import opened Tasks
  import opened Controllers
  import Factory

  /** How the worker's task ended, as the continuation observes it. */
  datatype TaskOutcome =
    | RanToCompletion(result: Option<WebTaskResult>)
    | Faulted(message: string)
    | Canceled

  /** What the body does with its context before it ends: a context-free body
      cannot report progress; a context-aware one reports `progresses` in order. */
  datatype WebTaskAction =
    | WithoutContext
    | WithContext(progresses: seq<WebTaskProgress>)

  function ReportsOf(action: WebTaskAction): (r: seq<WebTaskProgress>) {
    match action
    case WithoutContext => []
    case WithContext(progresses) => progresses
  }

  /** `task` ended with `outcome` at `now`: exactly one terminal transition was
      taken, the one that belongs to the outcome, and the fields that belong to
      the other transitions were left alone. */
  twostate predicate SettledBy(task: WebTask, outcome: TaskOutcome, now: Time)
    reads task
  {
    && task.finished == Some(now)
    && match outcome
       case RanToCompletion(r) =>
         task.state == Finished && task.result == r && task.error == old(task.error)
       case Faulted(message) =>
         task.state == Failed && task.error == Some(message) && task.result == old(task.result)
       case Canceled =>
         task.state == WebTaskState.Canceled && task.result == old(task.result) && task.error == old(task.error)
  }

  /** The worker of a context-free body: the task is started before the body
      is invoked; the body itself cannot touch the task. The worker runs once,
      on the fresh Idle record of its submission. */
  method RunWithoutContext(controller: WebTaskController)
    requires controller.webTask.state == Idle && controller.webTask.Consistent()
    modifies controller.webTask
    ensures controller.webTask.state == Running
    ensures controller.webTask.finished == old(controller.webTask.finished)
    ensures controller.webTask.result == old(controller.webTask.result)
    ensures controller.webTask.error == old(controller.webTask.error)
    ensures controller.webTask.progresses == old(controller.webTask.progresses)
    ensures controller.webTask.Consistent()
    ensures MovesForward(old(controller.webTask.state), controller.webTask.state)
  {
    controller.Started();
  }

  /** The worker of a context-aware body: the task is started before the body
      is invoked, and the body's reports are appended in the order it makes them.
      The worker runs once, on the fresh Idle record of its submission. */
  method RunWithContext(controller: WebTaskController, progresses: seq<WebTaskProgress>)
    requires controller.webTask.state == Idle && controller.webTask.Consistent()
    modifies controller.webTask
    ensures controller.webTask.state == Running
    ensures controller.webTask.finished == old(controller.webTask.finished)
    ensures controller.webTask.result == old(controller.webTask.result)
    ensures controller.webTask.error == old(controller.webTask.error)
    ensures controller.webTask.progresses == old(controller.webTask.progresses) + progresses
    ensures controller.webTask.Consistent()
    ensures MovesForward(old(controller.webTask.state), controller.webTask.state)
  {
    var task := controller.webTask;
    controller.Started();
    var i := 0;
    while i < |progresses|
      invariant 0 <= i <= |progresses|
      invariant task.state == Running
      invariant task.finished == old(task.finished) && task.result == old(task.result)
      invariant task.error == old(task.error)
      invariant task.progresses == old(task.progresses) + progresses[..i]
      invariant task.Consistent()
    {
      controller.ReportProgress(progresses[i]);
      i := i + 1;
    }
    assert progresses[..i] == progresses;
  }

  /** Maps the outcome to exactly one terminal transition: a fault to Faulted
      with the exception's message, a cancellation to Canceled, a completion to
      Completed with the returned result. The continuation runs once, after the
      worker, so the task has not settled yet. */
  method SetWebTaskStateOnController(outcome: TaskOutcome, controller: WebTaskController, now: Time)
    requires !IsTerminal(controller.webTask.state) && controller.webTask.Consistent()
    modifies controller.webTask
    ensures SettledBy(controller.webTask, outcome, now)
    ensures controller.webTask.progresses == old(controller.webTask.progresses)
    ensures IsTerminal(controller.webTask.state)
    ensures controller.webTask.Consistent()
    ensures MovesForward(old(controller.webTask.state), controller.webTask.state)
  {
    match outcome
    case Faulted(message) => controller.Faulted(message, now);
    case Canceled => controller.Canceled(now);
    case RanToCompletion(result) => controller.Completed(result, now);
  }

  /** One scheduled task from start to continuation: if cancellation was
      requested before the worker starts, the body never runs (the task is not
      started) and the continuation sees Canceled; otherwise the task is started,
      the body runs, and the continuation maps the body's outcome. Either way
      the task ends in one terminal state with its finish time set. Each
      submission schedules this once, on its fresh Idle record. */
  method ExecuteWebTask(controller: WebTaskController, action: WebTaskAction, outcome: TaskOutcome, now: Time)
    requires controller.webTask.state == Idle && controller.webTask.Consistent()
    modifies controller.webTask
    ensures IsTerminal(controller.webTask.state) && controller.webTask.finished == Some(now)
    ensures old(controller.cancellationRequested) ==>
      SettledBy(controller.webTask, TaskOutcome.Canceled, now) && controller.webTask.progresses == old(controller.webTask.progresses)
    ensures !old(controller.cancellationRequested) ==>
      SettledBy(controller.webTask, outcome, now)
      && controller.webTask.progresses == old(controller.webTask.progresses) + ReportsOf(action)
    ensures controller.webTask.Consistent()
    ensures MovesForward(old(controller.webTask.state), controller.webTask.state)
  {
    if controller.cancellationRequested {
      SetWebTaskStateOnController(TaskOutcome.Canceled, controller, now);
    } else {
      match action {
        case WithoutContext => RunWithoutContext(controller);
        case WithContext(progresses) => RunWithContext(controller, progresses);
      }
      SetWebTaskStateOnController(outcome, controller, now);
    }
  }

  /** A non-empty set has a member to pick. */
  lemma NonEmptyHasMember(s: set<Id>)
    requires s != {}
    ensures exists id :: id in s
  {
    if forall id :: id !in s {
      assert false;
    }
  }

  /** The registry. The sweeper of the system shares this dictionary; its pass
      is `ClearExpired`. */
  class WebTaskRunner {
    var controllers: map<Id, WebTaskController>

    /** The records of the registered tasks. */
    function Records(): (records: set<WebTask>)
      reads this
      ensures forall id :: id in controllers ==> controllers[id].webTask in records
    {
      set id | id in controllers :: controllers[id].webTask
    }

    /** Every entry is keyed by its own task's id, and its record keeps the
        lifecycle invariant. Since a record has one id, distinct keys hold
        distinct controllers and distinct records. */
    predicate Valid()
      reads this, Records()
    {
      forall id :: id in controllers ==> controllers[id].webTask.id == id && controllers[id].webTask.Consistent()
    }

    constructor ()
      ensures Valid() && controllers == map[]
    {
      controllers := map[];
    }

    /** The status of `taskId`, or null when it is not registered. Reading a
        Finished task that does not persist its result removes it, so the next
        read of the same id returns null; any other read leaves the registry as it is. */
    method GetWebTaskStatus(taskId: Id) returns (status: Option<WebTaskStatus>)
      requires Valid()
      modifies this
      ensures Valid()
      ensures taskId !in old(controllers) ==> status == None && controllers == old(controllers)
      ensures taskId in old(controllers) ==>
        && status.Some?
        && IsSnapshotOf(status.value, old(controllers)[taskId].webTask)
        && (status.value.result.Some? ==> status.value.state == Finished)
        && (status.value.error.Some? ==> status.value.state == Failed)
        && controllers == if EvictsOnRead(old(controllers)[taskId].webTask)
                          then old(controllers) - {taskId}
                          else old(controllers)
    {
      if taskId in controllers {
        var controller := controllers[taskId];
        var snapshot := controller.GetStatus();
        if snapshot.state == Finished && !controller.webTask.persistResultWhenPickedOut {
          controllers := controllers - {snapshot.webTaskId};
        }
        status := Some(snapshot);
      } else {
        status := None;
      }
    }

    /** Raises the cancellation request of `taskId`'s controller; an unknown id
        is ignored. The registry is never changed. */
    method CancelTask(taskId: Id)
      requires Valid()
      modifies if taskId in controllers then {controllers[taskId]} else {}
      ensures Valid()
      ensures controllers == old(controllers)
      ensures taskId in controllers ==> controllers[taskId].cancellationRequested
      ensures taskId in controllers ==> unchanged(controllers[taskId].webTask)
    {
      if taskId in controllers {
        var controller := controllers[taskId];
        controller.Cancel();
      }
    }

    /** Wraps `webTask` in a new controller and adds it under the task's id
        unless that key is already present, in which case the existing entry
        stays and the new controller is not registered. */
    method CreateAndStoreWebTaskController(webTask: WebTask) returns (controller: WebTaskController)
      requires Valid()
      requires webTask.Consistent()
      modifies this
      ensures Valid()
      ensures fresh(controller) && controller.webTask == webTask && !controller.cancellationRequested
      ensures webTask.id !in old(controllers) ==> controllers == old(controllers)[webTask.id := controller]
      ensures webTask.id in old(controllers) ==> controllers == old(controllers)
    {
      controller := new WebTaskController(webTask);
      if webTask.id !in controllers {
        controllers := controllers[webTask.id := controller];
      }
    }

    /** Submission with the default configuration (both the context-free and
        the context-aware form): builds an Idle record under `id`, registers
        its controller and returns the record's id. */
    method RunWebTask(id: Id, now: Time) returns (webTaskId: Id)
      requires Valid()
      modifies this
      ensures Valid()
      ensures webTaskId == id
      ensures id in old(controllers) ==> controllers == old(controllers)
      ensures id !in old(controllers) ==>
        && id in controllers
        && controllers == old(controllers)[id := controllers[id]]
        && fresh(controllers[id]) && fresh(controllers[id].webTask)
        && !controllers[id].cancellationRequested
        && Factory.CreatedFrom(controllers[id].webTask, DefaultConfiguration(), id, now)
        && controllers[id].webTask.Consistent()
    {
      var webTask := Factory.CreateWebTaskWithDefaultConfiguration(id, now);
      var controller := CreateAndStoreWebTaskController(webTask);
      webTaskId := webTask.id;
    }

    /** Submission with a caller-given configuration (both forms of body). */
    method RunWebTaskWithConfiguration(configuration: WebTaskConfiguration, id: Id, now: Time) returns (webTaskId: Id)
      requires Valid()
      modifies this
      ensures Valid()
      ensures webTaskId == id
      ensures id in old(controllers) ==> controllers == old(controllers)
      ensures id !in old(controllers) ==>
        && id in controllers
        && controllers == old(controllers)[id := controllers[id]]
        && fresh(controllers[id]) && fresh(controllers[id].webTask)
        && !controllers[id].cancellationRequested
        && Factory.CreatedFrom(controllers[id].webTask, configuration, id, now)
        && controllers[id].webTask.Consistent()
    {
      var webTask := Factory.CreateWebTask(configuration, id, now);
      var controller := CreateAndStoreWebTaskController(webTask);
      webTaskId := webTask.id;
    }

    /** The first loop of a sweep: the ids of the registered tasks that are
        expired at `now`, each once. */
    method ExpiredWebTaskIds(now: Time) returns (expiredWebTaskIds: seq<Id>)
      requires Valid()
      ensures forall id :: id in expiredWebTaskIds <==> id in controllers && IsExpired(controllers[id].webTask, now)
      ensures forall i, j :: 0 <= i < j < |expiredWebTaskIds| ==> expiredWebTaskIds[i] != expiredWebTaskIds[j]
    {
      expiredWebTaskIds := [];
      var pending := controllers.Keys;
      while pending != {}
        invariant pending <= controllers.Keys
        invariant forall id :: id in expiredWebTaskIds <==>
          id in controllers && id !in pending && IsExpired(controllers[id].webTask, now)
        invariant forall i :: 0 <= i < |expiredWebTaskIds| ==> expiredWebTaskIds[i] !in expiredWebTaskIds[..i]
        decreases pending
      {
        NonEmptyHasMember(pending);
        var key :| key in pending;
        var webTask := controllers[key].webTask;
        if IsExpired(webTask, now) {
          expiredWebTaskIds := expiredWebTaskIds + [webTask.id];
        }
        pending := pending - {key};
      }
    }

    /** One sweep at `now`: removes exactly the entries whose task is expired;
        every other entry keeps its controller. */
    method ClearExpired(now: Time)
      requires Valid()
      modifies this
      ensures Valid()
      ensures forall id :: id in controllers <==> id in old(controllers) && !IsExpired(old(controllers)[id].webTask, now)
      ensures forall id :: id in controllers ==> controllers[id] == old(controllers)[id]
    {
      var expiredWebTaskIds := ExpiredWebTaskIds(now);
      var i := 0;
      while i < |expiredWebTaskIds|
        invariant 0 <= i <= |expiredWebTaskIds|
        invariant forall id :: id in controllers <==> id in old(controllers) && id !in expiredWebTaskIds[..i]
        invariant forall id :: id in controllers ==> controllers[id] == old(controllers)[id]
      {
        controllers := controllers - {expiredWebTaskIds[i]};
        i := i + 1;
      }
      assert expiredWebTaskIds[..i] == expiredWebTaskIds;
    }
  }

  /** The read-once rule: a read removes the entry exactly when the task is
      Finished and does not persist its result. */
  predicate EvictsOnRead(task: WebTask)
    reads task
  {
    task.state == Finished && !task.persistResultWhenPickedOut
  }
}
