/** The IteratingCallback class itself: the state cell and `_iterate` flag as fields,
    each entry point as a method that performs its compare-and-set step on them, and
    the processing loop as a `while` loop. Every method is proved to do what the
    functions of modules Transitions and Processing say, so the lemmas of module
    Lifecycle apply to it. */
module Callback {
  import opened Transitions
  import opened Processing

  class IteratingCallback {
    /** The `_state` reference. Each compare-and-set is one atomic step here, so the
        transient LOCKED value is never stored between steps. */
    var state: Resting
    /** The `_iterate` flag: an `iterate()` arrived while the loop was processing. */
    var iterate: bool
    /** The completion hooks fired in the current job. */
    ghost var hooks: seq<Hook>
    /** The subclass's `process()`: the calls it will make, in order. */
    var script: seq<ProcessCall>

    /** The machine as module Transitions sees it. */
    ghost function Snapshot(): Config
      reads this
    {
      Config(state, iterate, hooks)
    }

    /** `IteratingCallback(needReset)`; the no-argument constructor is `needReset == false`. */
    constructor (needReset: bool, supply: seq<ProcessCall>)
      ensures Snapshot() == Initial(needReset) && script == supply
    {
      state := if needReset then State.Succeeded else State.Idle;
      iterate := false;
      hooks := [];
      script := supply;
    }

    /** `isIdle()`: the next `iterate()` starts the loop on the caller's thread. */
    predicate IsIdle()
      reads this
      ensures IsIdle() <==> IterateStep(Snapshot()).next == Proceed
    {
      state == State.Idle
    }

    /** `isClosed()`: the callback is closed for good; `reset()` refuses it. */
    predicate IsClosed()
      reads this
      ensures IsClosed() ==> !ResetStep(Snapshot()).1 && CloseStep(Snapshot()) == Snapshot()
    {
      state == Closed
    }

    /** `isFailed()`: the job ended in `onCompleteFailure`; `reset()` may start a new one. */
    predicate IsFailed()
      reads this
      ensures IsFailed() ==> ResetStep(Snapshot()).1 && FailedStep(Snapshot(), Reported) == Snapshot()
      ensures IsFailed() && JobInv(Snapshot()) ==> |hooks| == 1 && hooks[0].CompleteFailure?
    {
      state == State.Failed
    }

    /** `isSucceeded()`: the job ended (or, with `needReset`, has not begun); `reset()`
        may start a new one and no failure can follow. */
    predicate IsSucceeded()
      reads this
      ensures IsSucceeded() ==> ResetStep(Snapshot()).1 && FailedStep(Snapshot(), Reported) == Snapshot()
      ensures IsSucceeded() && JobInv(Snapshot()) ==> forall h :: h in hooks ==> h == CompleteSuccess
    {
      state == State.Succeeded
    }

    /** The compare-and-set step of `iterate()`; the LOCKED window around the write of
        `_iterate` is part of the same atomic step. */
    method IterateCas() returns (next: Next)
      modifies this
      ensures Step(Snapshot(), next) == IterateStep(old(Snapshot()))
      ensures script == old(script)
    {
      match state
      case Pending | Called =>
        next := Return;
      case Idle =>
        state := State.Processing;
        next := Proceed;
      case Processing =>
        iterate := true;
        next := Return;
      case Succeeded | Failed | Closed =>
        next := Raise;
    }

    /** `iterate()`. */
    method Iterate() returns (exit: Exit)
      modifies this
      ensures Result(Snapshot(), script, exit) == Invoke(old(Snapshot()), IterateCall, old(script))
    {
      var next := IterateCas();
      if next == Proceed {
        exit := ProcessingLoop();
      } else {
        exit := if next == Raise then IllegalState else Normal;
      }
    }

    /** The compare-and-set step of `succeeded()`. */
    method SucceededCas() returns (next: Next)
      modifies this
      ensures Step(Snapshot(), next) == SucceededStep(old(Snapshot()))
      ensures script == old(script)
    {
      match state
      case Processing =>
        state := Called;
        next := Return;
      case Pending =>
        state := State.Processing;
        next := Proceed;
      case Closed =>
        next := Return;
      case Idle | Called | Succeeded | Failed =>
        next := Raise;
    }

    /** `succeeded()`: a sub task completed. */
    method Succeeded() returns (exit: Exit)
      modifies this
      ensures Result(Snapshot(), script, exit) == Invoke(old(Snapshot()), SucceededCall, old(script))
    {
      var next := SucceededCas();
      if next == Proceed {
        exit := ProcessingLoop();
      } else {
        exit := if next == Raise then IllegalState else Normal;
      }
    }

    /** `failed(x)`: the sub task, `process()` or the caller reports a failure. */
    method Failed(x: Cause)
      modifies this`state, this`hooks
      ensures Snapshot() == FailedStep(old(Snapshot()), x)
    {
      match state
      case Succeeded | Failed | Idle | Closed =>
      case Processing | Pending | Called =>
        state := State.Failed;
        hooks := hooks + [CompleteFailure(x)];  // onCompleteFailure(x)
    }

    /** `close()`. */
    method Close()
      modifies this`state, this`hooks
      ensures Snapshot() == CloseStep(old(Snapshot()))
    {
      match state
      case Idle | Succeeded | Failed =>
        state := Closed;
      case Closed =>
      case Processing | Pending | Called =>
        state := Closed;
        hooks := hooks + [CompleteFailure(ClosedChannel)];  // onCompleteFailure(new ClosedChannelException())
    }

    /** `reset()`. */
    method Reset() returns (ok: bool)
      modifies this`state, this`hooks
      ensures (Snapshot(), ok) == ResetStep(old(Snapshot()))
    {
      match state
      case Idle =>
        ok := true;
      case Succeeded | Failed =>
        state := State.Idle;
        hooks := [];
        ok := true;
      case Processing | Pending | Called | Closed =>
        ok := false;
    }

    /** A call made on this callback while `process()` runs. Such a call never finds
        the state IDLE or PENDING (Lifecycle.MeanwhileNeverEntersLoop), so only its
        compare-and-set step takes place. */
    method Interleave(e: Interleaved)
      requires InStep(state)
      modifies this
      ensures Snapshot() == Interfere(old(Snapshot()), e) && script == old(script)
    {
      match e
      case IterateCall =>
        var _ := IterateCas();
      case SucceededCall =>
        var _ := SucceededCas();
      case FailedCall =>
        Failed(Reported);
      case CloseCall =>
        Close();
    }

    /** `process()`: the next scripted call, with the calls it makes on this callback. */
    method Process() returns (outcome: Outcome)
      requires script != [] && state == State.Processing
      modifies this
      ensures Snapshot() == InterfereAll(old(Snapshot()), old(script[0].meanwhile))
      ensures script == old(script[1..]) && outcome == old(script[0].outcome)
    {
      var call := script[0];
      script := script[1..];
      ghost var start := Snapshot();
      var i := 0;
      while i < |call.meanwhile|
        invariant 0 <= i <= |call.meanwhile| && script == old(script[1..])
        invariant InStep(state)
        invariant InterfereAll(Snapshot(), call.meanwhile[i..]) == InterfereAll(start, call.meanwhile)
      {
        assert call.meanwhile[i..][1..] == call.meanwhile[i + 1..];
        Interleave(call.meanwhile[i]);
        i := i + 1;
      }
      outcome := call.outcome;
    }

    /** The `acting` block for the action `process()` returned. */
    method Act(a: Action) returns (next: Next)
      modifies this`state, this`iterate, this`hooks
      ensures Step(Snapshot(), next) == ActStep(old(Snapshot()), a)
    {
      match a
      case Idle =>
        if state == State.Processing {
          if iterate {
            iterate := false;
            next := Proceed;
          } else {
            state := State.Idle;
            next := Return;
          }
        } else {
          next := Raise;
        }
      case Scheduled =>
        if state == State.Processing {
          state := Pending;
          next := Return;
        } else if state == Called {
          state := State.Processing;
          next := Proceed;
        } else if state == State.Failed || state == Closed {
          next := Return;
        } else {
          next := Raise;
        }
      case Succeeded =>
        if state == State.Succeeded || state == State.Failed {
          next := Return;
        } else if state == State.Processing {
          state := State.Succeeded;
          hooks := hooks + [CompleteSuccess];  // onCompleteSuccess()
          next := Return;
        } else {
          next := Raise;
        }
    }

    /** `processing()`: one loop, however many sub tasks complete synchronously. */
    method ProcessingLoop() returns (exit: Exit)
      requires state == State.Processing
      modifies this
      ensures Result(Snapshot(), script, exit) == Run(old(Snapshot()), old(script))
    {
      ghost var goal := Run(Snapshot(), script);
      while true
        invariant state == State.Processing
        invariant Run(Snapshot(), script) == goal
        decreases |script|
      {
        if script == [] {
          return Exhausted;
        }
        ghost var before, calls := Snapshot(), script;
        var outcome := Process();
        match outcome
        case Threw =>
          Failed(ProcessThrew);
          return Normal;
        case Returned(a) =>
          var next := Act(a);
          if next == Return {
            return Normal;
          } else if next == Raise {
            return IllegalState;
          }
          assert Run(before, calls) == Run(Snapshot(), script);
      }
    }
  }
}
