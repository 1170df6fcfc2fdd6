/** The LOCKED window of `iterate()` split into the steps the class takes in it:
    compare-and-set PROCESSING to LOCKED, write `_iterate`, then set PROCESSING
    unconditionally. Between the first and the last step other threads may call
    `failed(x)`, `close()` or `succeeded()`, or the loop may resolve a SUCCEEDED
    action, and none of these waits for LOCKED to clear as `iterate()` does:
    `failed` and `close` compare-and-set LOCKED away and fire their hook, and the
    lock holder's unconditional write then puts PROCESSING back; `succeeded` and the
    loop throw. The corrected steps yield on LOCKED, and with them the window is
    exactly the single atomic step that the rest of the model uses for `iterate()`.
    The IDLE branch of the loop opens the same window and is split the same way. */
module LockWindow {
  import opened Transitions

  /** The state cell with LOCKED observable. */
  datatype Cell = Cell(state: State, iterate: bool, hooks: seq<Hook>)

  function FromConfig(c: Config): Cell {
    Cell(c.state, c.iterate, c.hooks)
  }

  /** A step of another thread that lands inside the window: one of the entry points,
      or the processing loop resolving a SUCCEEDED action from `process()`. */
  datatype Other = OtherFailed(x: Cause) | OtherClose | OtherSucceeded | LoopSucceeded

  /** What one attempt of such a call does: it takes effect, it throws
      IllegalStateException and changes nothing, or it yields and will read the
      state again once the window is over. */
  datatype Attempt = Done(after: Cell) | Throws | Yields

  /** `_state.compareAndSet(PROCESSING, LOCKED)` in `iterate()`. */
  function Lock(c: Cell): (r: Cell)
    requires c.state == Processing
    ensures r.state == Locked && r.hooks == c.hooks
  {
    c.(state := Locked)
  }

  /** `_iterate = true; _state.set(PROCESSING)`: the write does not look at the state. */
  function Unlock(c: Cell): (r: Cell)
    ensures r.state == Processing && r.iterate && r.hooks == c.hooks
  {
    c.(state := Processing, iterate := true)
  }

  /** A cell that is not LOCKED, as module Transitions sees it. */
  function ToConfig(c: Cell): Config
    requires c.state != Locked
  {
    Config(c.state, c.iterate, c.hooks)
  }

  /** `failed(x)`, `close()`, `succeeded()` and the SUCCEEDED branch of the loop as
      written, for every state of the cell. Off LOCKED each is the atomic step of
      module Transitions; on LOCKED `failed(x)` and `close()` take the cell and fire
      their hook, and the other two throw. */
  function OtherAsWritten(c: Cell, o: Other): (r: Attempt)
    ensures r != Yields && (r.Done? ==> c.hooks <= r.after.hooks && r.after.iterate == c.iterate)
    ensures c.state != Locked && o.OtherFailed? ==> r == Done(FromConfig(FailedStep(ToConfig(c), o.x)))
    ensures c.state != Locked && o.OtherClose? ==> r == Done(FromConfig(CloseStep(ToConfig(c))))
    ensures c.state != Locked && o.OtherSucceeded? ==>
      if SucceededStep(ToConfig(c)).next == Raise then r == Throws
      else r == Done(FromConfig(SucceededStep(ToConfig(c)).after))
    ensures c.state != Locked && o.LoopSucceeded? ==>
      if ActStep(ToConfig(c), Action.Succeeded).next == Raise then r == Throws
      else r == Done(FromConfig(ActStep(ToConfig(c), Action.Succeeded).after))
    ensures c.state == Locked && (o.OtherFailed? || o.OtherClose?) ==>
      r.Done? && r.after.state != Locked && |r.after.hooks| == |c.hooks| + 1
    ensures c.state == Locked && (o.OtherSucceeded? || o.LoopSucceeded?) ==> r == Throws
  {
    if c.state == Locked then
      match o
      case OtherFailed(x) => Done(c.(state := State.Failed, hooks := c.hooks + [CompleteFailure(x)]))
      case OtherClose => Done(c.(state := Closed, hooks := c.hooks + [CompleteFailure(ClosedChannel)]))
      case OtherSucceeded | LoopSucceeded => Throws
    else
      var k := ToConfig(c);
      match o
      case OtherFailed(x) => Done(FromConfig(FailedStep(k, x)))
      case OtherClose => Done(FromConfig(CloseStep(k)))
      case OtherSucceeded =>
        var t := SucceededStep(k);
        if t.next == Raise then Throws else Done(FromConfig(t.after))
      case LoopSucceeded =>
        var t := ActStep(k, Action.Succeeded);
        if t.next == Raise then Throws else Done(FromConfig(t.after))
  }

  /** The same steps yielding while the state is LOCKED, as `iterate()` does. */
  function OtherCorrected(c: Cell, o: Other): (r: Attempt)
    ensures c.state != Locked ==> r == OtherAsWritten(c, o)
  {
    if c.state == Locked then Yields else OtherAsWritten(c, o)
  }

  /** The window with `others` landing in it, in order; a call that yields has no effect
      inside the window. Nothing in it touches `_iterate` or takes a hook back; with the
      corrected steps nothing changes a LOCKED cell. */
  function WindowWith(c: Cell, others: seq<Other>, corrected: bool): (r: Cell)
    ensures r.iterate == c.iterate && c.hooks <= r.hooks
    ensures corrected && c.state == Locked ==> r == c
    decreases |others|
  {
    if others == [] then c
    else
      var a := if corrected then OtherCorrected(c, others[0]) else OtherAsWritten(c, others[0]);
      WindowWith(if a.Done? then a.after else c, others[1..], corrected)
  }

  /** The whole of `iterate()` from PROCESSING with `others` landing in its window. */
  function IterateWindow(c: Config, others: seq<Other>, corrected: bool): (r: Cell)
    requires c.state == Processing
    ensures r.state == Processing && r.iterate
  {
    Unlock(WindowWith(Lock(FromConfig(c)), others, corrected))
  }

  /** As written, a `failed(x)` inside the window fires the failure hook and is then
      undone: the job is back in PROCESSING, and when `process()` next returns
      SUCCEEDED the success hook fires as well, two hooks for one job. */
  lemma FailureLostInLockWindow()
    ensures var c := Config(Processing, false, []);
      var w := IterateWindow(c, [OtherFailed(Reported)], false);
      && w == Cell(Processing, true, [CompleteFailure(Reported)])
      && !JobInv(ToConfig(w))
      && ActStep(Config(Processing, w.iterate, w.hooks), Action.Succeeded).after.hooks
         == [CompleteFailure(Reported), CompleteSuccess]
  {
  }

  /** As written, a `close()` inside the window fires the failure hook with the "closed"
      cause and is then undone: the callback is PROCESSING again and can go on calling
      `process()` although it was closed. */
  lemma CloseLostInLockWindow()
    ensures var c := Config(Processing, false, []);
      IterateWindow(c, [OtherClose], false) == Cell(Processing, true, [CompleteFailure(ClosedChannel)])
  {
  }

  /** As written, a sub task's `succeeded()` that lands inside the window throws
      IllegalStateException on the completing thread, although both calls are legal. */
  lemma CompletionThrowsInLockWindow()
    ensures OtherAsWritten(Lock(Cell(Processing, false, [])), OtherSucceeded) == Throws
  {
  }

  /** As written, the loop that resolves SUCCEEDED while another thread's `iterate()`
      holds the window throws IllegalStateException instead of completing the job. */
  lemma LoopThrowsInLockWindow()
    ensures OtherAsWritten(Lock(Cell(Processing, true, [])), LoopSucceeded) == Throws
  {
  }

  /** With the corrected entry points, whatever lands in the window, `iterate()` from
      PROCESSING does exactly what the atomic step of module Transitions does: it
      raises `_iterate` and changes nothing else, and no hook fires. The steps that
      yielded read the state again after the window. */
  lemma CorrectedWindowIsAtomic(c: Config, others: seq<Other>)
    requires c.state == Processing
    ensures IterateWindow(c, others, true) == FromConfig(IterateStep(c).after)
  {
  }

  /** With the corrected entry points the window keeps the one-hook-per-job invariant
      of module Transitions: whatever lands in it, the job leaves it with the hooks it
      had, so the theorems of module Lifecycle cover `iterate()` with its window open. */
  lemma CorrectedWindowKeepsJobInv(c: Config, others: seq<Other>)
    requires c.state == Processing && JobInv(c)
    ensures var w := IterateWindow(c, others, true); w.hooks == c.hooks && JobInv(ToConfig(w))
  {
    CorrectedWindowIsAtomic(c, others);
  }

  /** The IDLE branch of the loop's `acting` block from PROCESSING, split the same way:
      compare-and-set PROCESSING to LOCKED, then, with `others` landing in the window,
      read `_iterate` and set PROCESSING (clearing the flag) or IDLE unconditionally. */
  function IdleWindow(c: Config, others: seq<Other>, corrected: bool): (r: Cell)
    requires c.state == Processing
    ensures r.state == (if c.iterate then Processing else State.Idle) && !r.iterate
    ensures c.hooks <= r.hooks
  {
    var w := WindowWith(Lock(FromConfig(c)), others, corrected);
    if w.iterate then w.(state := Processing, iterate := false) else w.(state := State.Idle)
  }

  /** As written, a `failed(x)` inside the IDLE window fires the failure hook and the
      loop then parks the job in IDLE: a failed job accepts `iterate()` again, which
      starts a new loop. */
  lemma FailureLostInIdleWindow()
    ensures var w := IdleWindow(Config(Processing, false, []), [OtherFailed(Reported)], false);
      && w == Cell(State.Idle, false, [CompleteFailure(Reported)])
      && !JobInv(ToConfig(w))
      && IterateStep(ToConfig(w)).next == Proceed
  {
  }

  /** With the corrected entry points, whatever lands in the IDLE window, the branch does
      exactly what the atomic `ActStep` for the IDLE action does, and keeps the
      one-hook-per-job invariant. */
  lemma CorrectedIdleWindowIsAtomic(c: Config, others: seq<Other>)
    requires c.state == Processing
    ensures IdleWindow(c, others, true) == FromConfig(ActStep(c, Action.Idle).after)
    ensures JobInv(c) ==> JobInv(ToConfig(IdleWindow(c, others, true)))
  {
  }
}
