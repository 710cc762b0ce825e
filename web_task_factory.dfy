/** Building a task record for a new submission. The clock reading and the new
    GUID are parameters. */
module Factory {
  import opened Models
  import opened Tasks

  /** `webTask` is the Idle record built at `now` under identity `id` from
      `configuration`, with nothing recorded yet. */
  predicate CreatedFrom(webTask: WebTask, configuration: WebTaskConfiguration, id: Id, now: Time)
    reads webTask
  {
    && webTask.id == id
    && webTask.state == Idle
    && webTask.created == now
    && webTask.expiration == configuration.resultExpiration
    && webTask.timeout == configuration.webTaskTimeout
    && webTask.persistResultWhenPickedOut == configuration.persistResultWhenPickedOut
    && webTask.finished == None && webTask.result == None && webTask.error == None
    && webTask.progresses == []
  }

  method CreateWebTask(configuration: WebTaskConfiguration, id: Id, now: Time) returns (webTask: WebTask)
    ensures fresh(webTask)
    ensures CreatedFrom(webTask, configuration, id, now)
    ensures webTask.Consistent()
  {
    webTask := new WebTask(id, Idle, now, configuration.resultExpiration,
                           configuration.webTaskTimeout, configuration.persistResultWhenPickedOut);
  }

  method CreateWebTaskWithDefaultConfiguration(id: Id, now: Time) returns (webTask: WebTask)
    ensures fresh(webTask)
    ensures CreatedFrom(webTask, DefaultConfiguration(), id, now)
    ensures webTask.expiration == TicksPerMinute && webTask.timeout == 10 * TicksPerMinute
    ensures !webTask.persistResultWhenPickedOut
    ensures webTask.Consistent()
  {
    webTask := CreateWebTask(DefaultConfiguration(), id, now);
  }
}
