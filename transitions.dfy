/** The state cell of Jetty's IteratingCallback and the atomic compare-and-set steps
    that its entry points take on it, one function per step.

    A machine is a `Config`: the state cell, the `_iterate` flag, and the completion
    hooks fired since the last successful reset. Each entry point of the class reads
    the state and performs one compare-and-set; in this model that read-and-set is a
    single atomic step, so the transient LOCKED state is never observed between steps
    (see module LockWindow for the window split open). */
module Transitions {

  /** The eight values of the `_state` reference. */
  datatype State = Idle | Processing | Pending | Called | Succeeded | Failed | Closed | Locked

  /** A state that can be observed between two atomic steps. */
  type Resting = s: State | s != Locked witness State.Idle

  /** What `process()` reports back to the processing loop. */
  datatype Action = Idle | Scheduled | Succeeded

  /** Why `onCompleteFailure` was called: the exception `process()` threw, a failure
      reported through `failed(x)`, or the ClosedChannelException made up by `close()`. */
  datatype Cause = ProcessThrew | Reported | ClosedChannel

  /** One call of a completion hook. */
  datatype Hook = CompleteSuccess | CompleteFailure(cause: Cause)

  /** The machine between atomic steps. `hooks` lists the completion hooks fired in the
      current job, that is since construction or the last successful `reset()`. */
  datatype Config = Config(state: Resting, iterate: bool, hooks: seq<Hook>)

  /** How an atomic step leaves its caller: return normally, throw
      IllegalStateException, or go on into the processing loop. */
  datatype Next = Return | Raise | Proceed

  /** The machine after one atomic step and what the caller does next. */
  datatype Step = Step(after: Config, next: Next)

  /** The entry points a caller can invoke on the callback. */
  datatype Event = IterateCall | SucceededCall | FailedCall | CloseCall | ResetCall

  /** The entry points that may run while a `process()` call is under way: the step's own
      synchronous completion, another thread's completion, drive or close. */
  type Interleaved = e: Event | e != ResetCall witness IterateCall

  /** The states the machine can be in while `process()` runs. */
  predicate InStep(s: State) {
    s == Processing || s == Called || s == State.Failed || s == Closed
  }

  /** A job is under way: `process()` has been called and the job has not ended. */
  predicate UnderWay(s: State) {
    s == Processing || s == Pending || s == Called
  }

  /** A job is finished: the callback may be reset or closed without a hook. */
  predicate Finished(s: State) {
    s == State.Succeeded || s == State.Failed
  }

  /** Completion hooks fired since the last reset agree with the state:
      none while the job is under way, the success hook at most once when it
      succeeded, exactly one failure hook when it failed, at most one of either
      once closed. */
  ghost predicate JobInv(c: Config) {
    match c.state
    case Idle | Processing | Pending | Called => c.hooks == []
    case Succeeded => c.hooks == [] || c.hooks == [CompleteSuccess]
    case Failed => |c.hooks| == 1 && c.hooks[0].CompleteFailure?
    case Closed => |c.hooks| <= 1
  }

  /** The state a constructor starts in: `needReset` asks for SUCCEEDED, so that
      the first job needs a `reset()` before `iterate()`. */
  function Initial(needReset: bool): (c: Config)
    ensures c.state == (if needReset then State.Succeeded else State.Idle)
    ensures c.hooks == [] && !c.iterate && JobInv(c)
  {
    Config(if needReset then State.Succeeded else State.Idle, false, [])
  }

  /** The compare-and-set step of `iterate()`. */
  function IterateStep(c: Config): (t: Step)
    ensures t.next == Proceed <==> c.state == State.Idle
    ensures t.next == Proceed ==> t.after.state == Processing
  {
    match c.state
    case Pending | Called => Step(c, Return)
    case Idle => Step(c.(state := Processing), Proceed)
    case Processing => Step(c.(iterate := true), Return)
    case Succeeded | Failed | Closed => Step(c, Raise)
  }

  /** The compare-and-set step of `succeeded()`. */
  function SucceededStep(c: Config): (t: Step)
    ensures t.next == Proceed <==> c.state == Pending
    ensures t.next == Proceed ==> t.after.state == Processing
  {
    match c.state
    case Processing => Step(c.(state := Called), Return)
    case Pending => Step(c.(state := Processing), Proceed)
    case Closed => Step(c, Return)
    case Idle | Called | Succeeded | Failed => Step(c, Raise)
  }

  /** The compare-and-set step of `failed(x)`, which always returns. */
  function FailedStep(c: Config, x: Cause): (r: Config)
    ensures r.iterate == c.iterate
    ensures UnderWay(c.state) ==> r.state == State.Failed && r.hooks == c.hooks + [CompleteFailure(x)]
    ensures !UnderWay(c.state) ==> r == c
  {
    match c.state
    case Succeeded | Failed | Idle | Closed => c
    case Processing | Pending | Called =>
      c.(state := State.Failed, hooks := c.hooks + [CompleteFailure(x)])
  }

  /** The compare-and-set step of `close()`, which always returns. */
  function CloseStep(c: Config): (r: Config)
    ensures r.state == Closed && r.iterate == c.iterate
    ensures UnderWay(c.state) ==> r.hooks == c.hooks + [CompleteFailure(ClosedChannel)]
    ensures !UnderWay(c.state) ==> r.hooks == c.hooks
  {
    match c.state
    case Idle | Succeeded | Failed => c.(state := Closed)
    case Closed => c
    case Processing | Pending | Called =>
      c.(state := Closed, hooks := c.hooks + [CompleteFailure(ClosedChannel)])
  }

  /** The compare-and-set step of `reset()` and the boolean it returns. A successful
      reset starts a new job, so the hooks of the previous one are forgotten; the
      `_iterate` flag is not touched. */
  function ResetStep(c: Config): (r: (Config, bool))
    ensures r.1 <==> c.state == State.Idle || Finished(c.state)
    ensures r.1 && c.state != State.Idle ==> r.0 == Config(State.Idle, c.iterate, [])
    ensures !r.1 || c.state == State.Idle ==> r.0 == c
  {
    match c.state
    case Idle => (c, true)
    case Succeeded | Failed => (c.(state := State.Idle, hooks := []), true)
    case Processing | Pending | Called | Closed => (c, false)
  }

  /** One pass of the loop's `acting` block: the action `process()` returned, resolved
      against the state observed after it returned. `Proceed` means `continue processing`,
      `Return` means `break processing`, `Raise` an IllegalStateException. */
  function ActStep(c: Config, a: Action): (t: Step)
    ensures t.next == Proceed ==> t.after.state == Processing
    ensures t.next == Return ==> t.after.state in {State.Idle, Pending, State.Succeeded, State.Failed, Closed}
    ensures t.next == Raise ==> t.after == c
    ensures t.next == Return && t.after.state == State.Idle <==> c.state == Processing && a == Action.Idle && !c.iterate
    ensures t.after.hooks != c.hooks ==> c.state == Processing && a == Action.Succeeded
  {
    match a
    case Idle =>
      if c.state == Processing then
        if c.iterate then Step(c.(iterate := false), Proceed)
        else Step(c.(state := State.Idle), Return)
      else Step(c, Raise)
    case Scheduled =>
      if c.state == Processing then Step(c.(state := Pending), Return)
      else if c.state == Called then Step(c.(state := Processing), Proceed)
      else if c.state == State.Failed || c.state == Closed then Step(c, Return)
      else Step(c, Raise)
    case Succeeded =>
      if c.state == State.Succeeded || c.state == State.Failed then Step(c, Return)
      else if c.state == Processing then
        Step(c.(state := State.Succeeded, hooks := c.hooks + [CompleteSuccess]), Return)
      else Step(c, Raise)
  }

  /** The atomic step an interleaved call takes while `process()` runs. */
  function Interfere(c: Config, e: Interleaved): (r: Config)
    ensures InStep(c.state) ==> InStep(r.state)
  {
    match e
    case IterateCall => IterateStep(c).after
    case SucceededCall => SucceededStep(c).after
    case FailedCall => FailedStep(c, Reported)
    case CloseCall => CloseStep(c)
  }

  /** The calls that run, in order, while one `process()` call is under way. */
  function InterfereAll(c: Config, es: seq<Interleaved>): (r: Config)
    ensures InStep(c.state) ==> InStep(r.state)
    decreases |es|
  {
    if es == [] then c else InterfereAll(Interfere(c, es[0]), es[1..])
  }
}
