/** The task record: a mutable object owned by one controller, and the expiry
    test the sweeper applies to it. */
module Tasks {
  import opened Models

  /** One unit of submitted work. The identity, creation time and the three
      configuration-derived fields are assigned once, when the record is built;
      the lifecycle fields are updated in place by the controller. */
  class WebTask {
    const id: Id
    var state: WebTaskState
    const created: Time
    const expiration: Duration
    var finished: Option<Time>
    const timeout: Duration
    const persistResultWhenPickedOut: bool
    var result: Option<WebTaskResult>
    var progresses: seq<WebTaskProgress>
    var error: Option<string>

    /** Builds a record with the initializer's values; the progress list starts
        empty and the finish time, result and error start null. */
    constructor (id: Id, state: WebTaskState, created: Time, expiration: Duration,
                 timeout: Duration, persistResultWhenPickedOut: bool)
      ensures this.id == id && this.state == state && this.created == created
      ensures this.expiration == expiration && this.timeout == timeout
      ensures this.persistResultWhenPickedOut == persistResultWhenPickedOut
      ensures finished == None && result == None && error == None
      ensures progresses == []
    {
      this.id := id;
      this.state := state;
      this.created := created;
      this.expiration := expiration;
      this.finished := None;
      this.timeout := timeout;
      this.persistResultWhenPickedOut := persistResultWhenPickedOut;
      this.result := None;
      this.progresses := [];
      this.error := None;
    }

    /** The lifecycle invariant: a finish time exactly in the terminal states,
        a result only when Finished, an error only when Failed. */
    predicate Consistent()
      reads this
    {
      && (finished.Some? <==> IsTerminal(state))
      && (result.Some? ==> state == Finished)
      && (error.Some? ==> state == Failed)
    }
  }

  /** A task is expired once its finish time plus its expiration lies strictly
      before `now`; a task that has not finished is never expired. */
  predicate IsExpired(me: WebTask, now: Time)
    reads me
    ensures IsExpired(me, now) ==> me.finished.Some?
    ensures me.finished.Some? && now <= me.finished.value + me.expiration ==> !IsExpired(me, now)
    ensures me.finished.Some? && me.finished.value + me.expiration < now ==> IsExpired(me, now)
  {
    me.finished.Some? && me.finished.value + me.expiration < now
  }

  /** Once expired, a record that does not change stays expired at every later instant. */
  lemma ExpiryIsMonotone(me: WebTask, now: Time, later: Time)
    requires IsExpired(me, now) && now <= later
    ensures IsExpired(me, later)
  {
  }

  /** A consistent record that is still Idle or Running has no finish time, so
      the sweeper can never select it. */
  lemma UnfinishedTaskNeverExpires(me: WebTask, now: Time)
    requires me.Consistent() && !IsTerminal(me.state)
    ensures !IsExpired(me, now)
  {
  }
}
