# Web-task engine: a Dafny model of its lifecycle core

The system lets a caller submit a long-running body of work, get a GUID handle
back at once, and later poll that handle for the task's state, its progress
reports, an error or a result. This project models the engine behind that:

- the **task record** (`Tasks.WebTask`), a mutable object holding identity,
  state, timestamps, expiration, the persist-on-read flag, result, error and an
  append-only progress list, and the expiry test `Tasks.IsExpired`;
- the **controller** (`Controllers.WebTaskController`), the only mutator of one
  record: `Started`, `ReportProgress`, the three terminal transitions
  `Completed`, `Faulted`, `Canceled`, the cancellation request `Cancel`, and the
  side-effect-free snapshot `GetStatus`;
- the **factory** (`Factory`), which builds an Idle record from a configuration
  or from the defaults (one-minute expiration, ten-minute timeout, no persistence);
- the **runner** (`Runner`): the registry `WebTaskRunner` (a map from id to
  controller with insert-on-submit, read-once eviction in `GetWebTaskStatus`,
  `CancelTask`, and the sweeper's pass `ClearExpired`), and the worker side that
  starts the task before the body runs and maps the body's outcome to exactly
  one terminal transition (`SetWebTaskStateOnController`, `ExecuteWebTask`);
- **scenarios** (`Scenarios`), whole-engine runs that the system's test suite
  describes, proved from the contracts above.

Every operation is one atomic step. Clock readings are `Time` parameters
(100-nanosecond ticks, so one minute is 600 000 000), durations are `Duration`,
new GUIDs are `Id` parameters, exceptions are their message strings, and the
cancellation token source is the controller's `cancellationRequested` flag.

Modelling choices:

- `WebTask` is a class. Its id, creation time, expiration, timeout and persist
  flag are `const`: only the object initializer of the factory assigns them. The
  lifecycle fields are `var`s that the controller assigns in place.
- The registry invariant `WebTaskRunner.Valid()` says every key equals its
  task's id and every registered record is consistent (see below). Since a record has a single id, distinct keys hold distinct
  controllers and records, so a worker step on one task leaves all others alone.
- The sweeper in the system is a nested class sharing the runner's dictionary;
  here its pass is the runner method `ClearExpired`. Its first loop (collecting
  expired ids) is the read-only method `ExpiredWebTaskIds`; its second loop
  removes them.
- Insertion is `TryAdd`: an id already present keeps its entry, and the new
  controller is then not registered (the id is still returned). No freshness is
  demanded of the id; only the scenarios that submit twice assume distinct ids,
  as GUIDs are.
- The task is handed to the thread pool together with the controller's
  cancellation token. When cancellation was requested before the worker starts,
  the body never runs and `Started` is never called: the continuation sees a
  cancelled task, so the record goes from Idle straight to Canceled.
  `ExecuteWebTask` models this. So a task can skip Running, although the
  intended lifecycle is Idle, then Running, then one terminal state; the model
  follows the code.
- The controller's transitions have no state guards in the code (calling
  `Completed` after `Faulted` would leave both an error and a result), and the
  model keeps them unguarded. What keeps the lifecycle sound is the runner: each
  submission schedules its worker and its continuation once, on the fresh Idle
  record. The worker steps demand exactly that (the worker an Idle record, the
  continuation one not yet settled), so each of them moves the state forward
  (`MovesForward`: Idle, then Running, then one end state, which is final) and
  keeps the lifecycle invariant `WebTask.Consistent()` (finish time exactly in
  the end states, a result only when Finished, an error only when Failed).
  `WebTaskRunner.Valid()` holds that invariant for every registered record, so
  every polled status carries a result only when Finished and an error only
  when Failed. `ReportProgress` appends in any state.
- Only a Finished, non-persisting task is evicted by a read; Failed and Canceled
  tasks stay until swept, as in the code.

## Model

| member | source | states |
|---|---|---|
| `Models.DefaultConfiguration` | WebTasksImpl/Models/WebTaskConfiguration.cs:7-15 | the defaults are a one-minute result expiration, a ten-minute timeout and no persistence on read |
| `Tasks.WebTask.constructor` | WebTasksImpl/Models/WebTask.cs:8-24 | a new record carries the initializer's id, state, times and flags, an empty progress list, and null finish time, result and error |
| `Tasks.IsExpired` | WebTasksImpl/Models/WebTask.cs:30-33 | never expired without a finish time; expired when finish time plus expiration is strictly before now; not expired at equality or earlier |
| `Tasks.ExpiryIsMonotone` | WebTasksImpl/Models/WebTask.cs:32 | an unchanged record expired at `now` is expired at every later instant |
| `Tasks.UnfinishedTaskNeverExpires` | WebTasksImpl/Models/WebTask.cs:32 | a consistent Idle or Running record is never expired, so a sweep never selects it |
| `Controllers.WebTaskController.constructor` | WebTasksImpl/Impl/WebTaskController.cs:14-23 | the controller owns the given record and no cancellation is requested yet |
| `Controllers.WebTaskController.GetStatus` | WebTasksImpl/Impl/WebTaskController.cs:30-40 | changes nothing and returns the record's id, state, result and error with the progress list as it stands |
| `Controllers.WebTaskController.Completed` | WebTasksImpl/Impl/WebTaskController.cs:42-48 | state Finished, finish time now, result set; error and progress untouched; from a non-terminal consistent record the result is consistent |
| `Controllers.WebTaskController.Cancel` | WebTasksImpl/Impl/WebTaskController.cs:50-53 | raises the cancellation request and leaves the record unchanged |
| `Controllers.WebTaskController.Started` | WebTasksImpl/Impl/WebTaskController.cs:55-58 | state Running; finish time, result, error and progress untouched; Idle and consistent stays consistent |
| `Controllers.WebTaskController.ReportProgress` | WebTasksImpl/Impl/WebTaskController.cs:65-68 | the new progress list is the old one followed by the report; everything else unchanged |
| `Controllers.WebTaskController.Canceled` | WebTasksImpl/Impl/WebTaskController.cs:70-74 | state Canceled, finish time now; result, error and progress untouched |
| `Controllers.WebTaskController.Faulted` | WebTasksImpl/Impl/WebTaskController.cs:76-83 | state Failed, finish time now, error is the message; result (null for a task that never completed) and progress untouched |
| `Factory.CreateWebTask` | WebTasksImpl/Impl/WebTaskFactory.cs:8-21 | a fresh Idle record created now under the given id, copying expiration, timeout and persist flag from the configuration, with nothing recorded and consistent |
| `Factory.CreateWebTaskWithDefaultConfiguration` | WebTasksImpl/Impl/WebTaskFactory.cs:24-32 | the same, built from the default configuration: one-minute expiration, ten-minute timeout, no persistence |
| `Runner.RunWithoutContext` | WebTasksImpl/Impl/WebTaskRunner.cs:106-118 | on the fresh Idle record, the worker starts the task (Running) before the body is invoked; nothing else in the record changes; the state moves forward and the record stays consistent |
| `Runner.RunWithContext` | WebTasksImpl/Impl/WebTaskRunner.cs:136-148 | on the fresh Idle record, the task is Running before the body runs, and the body's reports are appended in order after the existing ones; the state moves forward and the record stays consistent |
| `Runner.SetWebTaskStateOnController` | WebTasksImpl/Impl/WebTaskRunner.cs:168-186 | a fault leads to Failed with the message, a cancellation to Canceled, a completion to Finished with the result; exactly one terminal transition from a not yet settled record, finish time now, progress untouched; the state moves forward and the record stays consistent |
| `Runner.ExecuteWebTask` | WebTasksImpl/Impl/WebTaskRunner.cs:120-134 | the scheduled task always ends terminal with a finish time; cancelled before start it ends Canceled with no reports; otherwise it ends as its outcome says with the body's reports appended; run once on the fresh Idle record, it moves the state forward and leaves the record consistent |
| `Runner.WebTaskRunner.constructor` | WebTasksImpl/Impl/WebTaskRunner.cs:17-26 | the registry starts empty |
| `Runner.WebTaskRunner.GetWebTaskStatus` | WebTasksImpl/Impl/WebTaskRunner.cs:28-47 | an unknown id yields null and no change; a known id yields its controller's snapshot, and the entry is removed exactly when the task is Finished and does not persist; the status carries a result only when Finished and an error only when Failed |
| `Runner.WebTaskRunner.CancelTask` | WebTasksImpl/Impl/WebTaskRunner.cs:49-59 | the registry is unchanged; a known id's controller has its request raised and its record untouched; an unknown id changes nothing |
| `Runner.WebTaskRunner.CreateAndStoreWebTaskController` | WebTasksImpl/Impl/WebTaskRunner.cs:97-104 | a new controller over the record is added under the record's id, unless the key is taken, when the registry is unchanged |
| `Runner.WebTaskRunner.RunWebTask` | WebTasksImpl/Impl/WebTaskRunner.cs:61-68 | (also the context-aware overload at lines 79-86) returns the given id; a new id now maps to a fresh controller over a fresh Idle record built from the defaults; a taken id leaves the registry unchanged |
| `Runner.WebTaskRunner.RunWebTaskWithConfiguration` | WebTasksImpl/Impl/WebTaskRunner.cs:70-77 | (also the context-aware overload at lines 88-95) the same with the caller's configuration copied into the record |
| `Runner.WebTaskRunner.ExpiredWebTaskIds` | WebTasksImpl/Impl/WebTaskRunner.cs:212-223 | changes nothing and lists, each once, exactly the registered ids whose task is expired now |
| `Runner.WebTaskRunner.ClearExpired` | WebTasksImpl/Impl/WebTaskRunner.cs:208-232 | the new registry is the old one minus exactly the expired entries; every remaining id keeps its controller |
| `Scenarios.RunWebTaskSuccess` | WebTaskImpl.Tests/WebTaskRunnerTests.cs:58-70 | a body that returns a result is read as Finished with that result and no error |
| `Scenarios.RunWebTaskFailed` | WebTaskImpl.Tests/WebTaskRunnerTests.cs:72-87 | a throwing body is read as Failed with the message and no result |
| `Scenarios.RunWebTaskCanceled` | WebTaskImpl.Tests/WebTaskRunnerTests.cs:89-113 | a body cancelled before or while it runs is read as Canceled with no result and no error, keeping the progress made |
| `Scenarios.RunTwoWebTasks` | WebTaskImpl.Tests/WebTaskRunnerTests.cs:115-151 | two tasks under distinct ids are read back with their own ids and results |
| `Scenarios.ProgressesSavedInResult` | WebTaskImpl.Tests/WebTaskRunnerTests.cs:153-189 | a finished task's status holds every report in order with its values |
| `Scenarios.ProgressReportedWhileRunning` | WebTaskImpl.Tests/WebTaskRunnerTests.cs:191-215 | a read while Running sees the reports so far, does not evict, and is not altered by later reports |
| `Scenarios.ResultRemovedAfterPickedOut` | WebTaskImpl.Tests/WebTaskRunnerTests.cs:217-232 | by default the first read of a finished task returns it and the second returns null |
| `Scenarios.ResultPersistsAfterPickedOut` | WebTaskImpl.Tests/WebTaskRunnerTests.cs:234-249 | with persistence on, a second read returns the same status as the first |
| `Scenarios.ExpiredResultDeleted` | WebTaskImpl.Tests/WebTaskRunnerTests.cs:251-268 | a one-millisecond result swept later than a millisecond after finishing is gone; swept exactly at the deadline it remains |

## Left out

- Thread-pool execution and interleavings: `StartNew`, `ContinueWith` and worker threads are modelled as atomic worker steps whose outcome is an input (`TaskOutcome`).
- Torn reads of a record: the controller's transitions write the state, the finish time and the result or error one at a time without a lock (WebTasksImpl/Impl/WebTaskController.cs:44-46 and 80-82), and `GetStatus` reads them one at a time. A poll between `State = Finished` and `Result = result` can see Finished with a null result and evict the entry, losing the result. Here `Completed` and `GetStatus` are atomic, so the model cannot exhibit this.
- The thread-safety of the concurrent dictionary and the race between a sweep and a read: the registry is a plain map changed by atomic methods.
- The sweeper's timer (start, stop, interval) and the runner's constructor argument for the cleaning interval: only one pass of `ClearExpired` is modelled.
- The internals of the cancellation token source and token, and the `CancellationToken` property: a boolean request flag stands for them.
- The system clock, `TimeSpan` arithmetic and `Guid.NewGuid`: clock values, durations and ids are parameters; `DateTime` overflow is not modelled.
- Exception objects and the choice between the inner exception and the aggregate one: a fault carries only its message.
- The `else` branch of `SetWebTaskStateOnController` that throws `InvalidOperationException`: the continuation only runs once the task has completed, so `TaskOutcome` has exactly the three completed cases.
- The null-argument checks of the controller's and the sweeper's constructors: Dafny references here are non-null.
- The `WebTask` getter of the controller: the model reads the controller's `webTask` field directly.
- `Runner.ExecuteWebTask` and `Runner.SetWebTaskStateOnController`: accept a cancelled outcome for any body, also when no cancellation was ever requested. In the system a task ends Canceled only after its token was signalled by `CancelTask`; a context-free body cannot see the token, so only a pre-start cancellation can cancel it. The model does not state "Canceled only after `CancelTask`", because a cancellation that arrives while the body runs is not visible inside the atomic `ExecuteWebTask` step.
- Progress entries and results are values here; in the system they are objects shared by reference between the record and the snapshots.
- The stored `Timeout` is never enforced by the engine; it is kept as an inert field.
- Serialization attributes of the status and progress types, and the `IWebTaskRunner` and `IWebTaskActionContext` interfaces (signatures only).
- WebTaskState.cs and WebTaskResult.cs are not part of this model: the state is the five-value datatype `WebTaskState` and the result an opaque payload.
- The ignored performance test and the test fixture's scheduler swap.
