/** Value types of the web-task engine: identifiers, clock values, task states,
    progress entries, results, the submission configuration and the status
    snapshot handed to pollers. */
module Models {

  /** A reference that may be null. */
  datatype Option<+T> = None | Some(value: T)

  /** A task handle (a GUID in the system); only equality matters. */
  type Id = int

  /** An instant on the UTC clock, counted in 100-nanosecond ticks. */
  type Time = int

  /** A span of time, counted in the same ticks. */
  type Duration = int

  const TicksPerMillisecond: Duration := 10_000
  const TicksPerMinute: Duration := 60_000 * TicksPerMillisecond

  /** The lifecycle states of a task. */
  datatype WebTaskState = Idle | Running | Finished | Failed | Canceled

  /** The three states a task ends in; a task in one of them has a finish time. */
  predicate IsTerminal(s: WebTaskState) {
    s == Finished || s == Failed || s == Canceled
  }

  /** The lifecycle only moves forward: from Idle to Running or to an end
      state, from Running to an end state; an end state is final. */
  predicate MovesForward(before: WebTaskState, after: WebTaskState) {
    || before == after
    || (before == Idle && after != Idle)
    || (before == Running && IsTerminal(after))
  }

  /** One progress report of a running body. */
  datatype WebTaskProgress = WebTaskProgress(total: int, current: int, message: string)

  /** The caller's result object. The engine only stores it and hands it back,
      so its content is an uninterpreted payload. */
  datatype WebTaskResult = WebTaskResult(payload: string)

  /** What a caller may choose at submission. */
  datatype WebTaskConfiguration = WebTaskConfiguration(
    resultExpiration: Duration,
    webTaskTimeout: Duration,
    persistResultWhenPickedOut: bool)

  const DefaultResultExpiration: Duration := TicksPerMinute
  const DefaultWebTaskTimeout: Duration := 10 * TicksPerMinute
  const DefaultPersistResultWhenPickedOut: bool := false

  /** The configuration a parameterless construction gives: results kept for
      one minute after finishing, a ten-minute (advisory) timeout, and eviction
      on the first read of a finished task. */
  function DefaultConfiguration(): (c: WebTaskConfiguration)
    ensures c.resultExpiration == 600_000_000
    ensures c.webTaskTimeout == 6_000_000_000
    ensures !c.persistResultWhenPickedOut
  {
    WebTaskConfiguration(DefaultResultExpiration, DefaultWebTaskTimeout, DefaultPersistResultWhenPickedOut)
  }

  /** The snapshot of one task returned to a poller. It is a value: once
      returned it no longer follows the task. */
  datatype WebTaskStatus = WebTaskStatus(
    webTaskId: Id,
    state: WebTaskState,
    error: Option<string>,
    progresses: seq<WebTaskProgress>,
    result: Option<WebTaskResult>)
}
