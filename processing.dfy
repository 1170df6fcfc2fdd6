/** The processing loop of IteratingCallback and the entry points that lead into it,
    as functions over a `Config` and a script of `process()` calls. */
module Processing {
  import opened Transitions

  /** How one call of `process()` ends: it returns an action or throws. */
  datatype Outcome = Returned(action: Action) | Threw

  /** One call of `process()`: the entry points invoked on this callback while it runs
      (by `process()` itself, as a completion that arrives synchronously, or by other
      threads), then its outcome. The subclass's `process()` is this script. */
  datatype ProcessCall = ProcessCall(meanwhile: seq<Interleaved>, outcome: Outcome)

  /** How a call into the callback ends: it returns (`Answer` carries what `reset()`
      returns), it throws IllegalStateException, or the script ran out before the
      loop stopped. */
  datatype Exit = Normal | Answer(ok: bool) | IllegalState | Exhausted

  /** The machine and the unused script after a call, and how the call ended. */
  datatype Result = Result(after: Config, rest: seq<ProcessCall>, exit: Exit)

  /** The `processing()` loop, entered by the thread that moved the state to PROCESSING.
      Each round calls `process()`; a thrown exception goes to `failed(x)` and stops the
      loop; a returned action is resolved by `ActStep`, which either continues the loop
      (without recursion: the next round is the next script entry) or stops it. */
  function Run(c: Config, script: seq<ProcessCall>): (r: Result)
    requires c.state == Processing
    ensures |r.rest| <= |script|
    ensures r.exit == Normal || r.exit == IllegalState || r.exit == Exhausted
    ensures r.exit == Exhausted ==> r.rest == [] && r.after.state == Processing
    ensures r.exit != Exhausted ==> |r.rest| < |script|
    ensures r.exit == Normal ==>
      r.after.state in {State.Idle, Pending, State.Succeeded, State.Failed, Closed}
    ensures r.exit == Normal && r.after.state == State.Idle ==> !r.after.iterate
    ensures r.exit == IllegalState ==> r.after.state in {Called, State.Failed, Closed}
    ensures script != [] && script[0].outcome == Threw ==> r.exit == Normal && r.rest == script[1..]
    decreases |script|
  {
    if script == [] then Result(c, [], Exhausted)
    else
      var c1 := InterfereAll(c, script[0].meanwhile);
      match script[0].outcome
      case Threw => Result(FailedStep(c1, ProcessThrew), script[1..], Normal)
      case Returned(a) =>
        var t := ActStep(c1, a);
        match t.next
        case Proceed => Run(t.after, script[1..])
        case Return => Result(t.after, script[1..], Normal)
        case Raise => Result(t.after, script[1..], IllegalState)
  }

  /** `rest` is what is left of `script` once some calls at its front are used. */
  predicate SuffixOf(rest: seq<ProcessCall>, script: seq<ProcessCall>) {
    |rest| <= |script| && rest == script[|script| - |rest|..]
  }

  /** The end of an entry point after its compare-and-set step: return, throw, or
      run the processing loop on the caller's thread. */
  function Continue(t: Step, script: seq<ProcessCall>): (r: Result)
    requires t.next == Proceed ==> t.after.state == Processing
    ensures !r.exit.Answer? && |r.rest| <= |script|
    ensures t.next != Proceed ==> r.after == t.after && r.rest == script
    ensures t.next == Return ==> r.exit == Normal
    ensures t.next == Raise ==> r.exit == IllegalState
  {
    match t.next
    case Return => Result(t.after, script, Normal)
    case Raise => Result(t.after, script, IllegalState)
    case Proceed => Run(t.after, script)
  }

  /** One call of a public entry point, from beginning to end. */
  function Invoke(c: Config, e: Event, script: seq<ProcessCall>): (r: Result)
    ensures r.exit.Answer? <==> e == ResetCall
  {
    match e
    case IterateCall => Continue(IterateStep(c), script)
    case SucceededCall => Continue(SucceededStep(c), script)
    case FailedCall => Result(FailedStep(c, Reported), script, Normal)
    case CloseCall => Result(CloseStep(c), script, Normal)
    case ResetCall => Result(ResetStep(c).0, script, Answer(ResetStep(c).1))
  }

  /** What a sequence of entry-point calls does, each running to completion before the
      next starts, with the script of `process()` calls shared between them. */
  datatype Trace = Trace(after: Config, rest: seq<ProcessCall>, exits: seq<Exit>)

  function Exec(c: Config, events: seq<Event>, script: seq<ProcessCall>): (tr: Trace)
    ensures |tr.exits| == |events|
    decreases |events|
  {
    if events == [] then Trace(c, script, [])
    else
      var r := Invoke(c, events[0], script);
      var tail := Exec(r.after, events[1..], r.rest);
      Trace(tail.after, tail.rest, [r.exit] + tail.exits)
  }
}
