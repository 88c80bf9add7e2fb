/** The `disconnect` override (lib/server.js, `methodOverride.disconnect`) and the timer queue
    its callback goes through. */
module DisconnectOverride {
  import opened Common

  /** A callback function, by identity. */
  type Callback = nat

  /** A callback queued by `setTimeout(fn, 0)`; `receiver` is the `this` it was bound to
      (`cb.bind(err)`). It is invoked with no arguments. */
  datatype Task = Task(callback: Callback, receiver: Option<Error>)

  /** What one `disconnect(cb)` call leaves behind: the task it queued and the error it threw. */
  datatype Plan = Plan(scheduled: Option<Task>, rethrown: Option<Error>)

  /** `disconnect(cb)` given how the supervisor's own disconnect ended (`failure` is what it
      threw): a given callback is always queued, with the error as its receiver on the throw
      path; the error is re-thrown only when there is no callback to hand it to. */
  function DisconnectPlan(cb: Option<Callback>, failure: Option<Error>): (p: Plan)
    ensures p.scheduled.Some? <==> cb.Some?
    ensures p.scheduled.Some? ==> p.scheduled.value == Task(cb.value, failure)
    ensures p.rethrown.Some? <==> failure.Some? && cb.None?
    ensures p.rethrown.Some? ==> p.rethrown == failure
  {
    match cb
    case Some(f) => Plan(Some(Task(f, failure)), None)
    case None => Plan(None, failure)
  }

  /** The event loop's timer queue: callbacks waiting for a later turn, and those already run. */
  class EventLoop {
    var pending: seq<Task>
    var ran: seq<Task>

    constructor ()
      ensures pending == [] && ran == []
    {
      pending := [];
      ran := [];
    }

    /** `setTimeout(fn, 0)`: queue for a later turn; nothing runs now. */
    method SetTimeout(t: Task)
      modifies this
      ensures pending == old(pending) + [t] && ran == old(ran)
    {
      pending := pending + [t];
    }

    /** A later turn of the loop runs the oldest queued callback. */
    method RunNext() returns (t: Option<Task>)
      modifies this
      ensures old(pending) == [] ==> t == None && pending == [] && ran == old(ran)
      ensures old(pending) != [] ==>
        && t == Some(old(pending)[0])
        && pending == old(pending)[1..]
        && ran == old(ran) + [old(pending)[0]]
    {
      if pending == [] {
        t := None;
      } else {
        t := Some(pending[0]);
        ran := ran + [pending[0]];
        pending := pending[1..];
      }
    }
  }

  /** The override itself. `failure` is what the supervisor's `disconnect()` threw, if anything.
      The callback is never run during the call: it is queued, on both paths. */
  method Disconnect(loop: EventLoop, cb: Option<Callback>, failure: Option<Error>) returns (thrown: Option<Error>)
    modifies loop
    ensures loop.ran == old(loop.ran)
    ensures thrown == DisconnectPlan(cb, failure).rethrown
    ensures loop.pending == old(loop.pending) + match DisconnectPlan(cb, failure).scheduled
      case Some(t) => [t]
      case None => []
  {
    thrown := None;
    if failure.Some? {
      if cb.Some? {
        loop.SetTimeout(Task(cb.value, failure));
        return;
      } else {
        thrown := failure;
        return;
      }
    }
    if cb.Some? {
      loop.SetTimeout(Task(cb.value, None));
    }
  }
}
