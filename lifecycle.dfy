/** What the entry points of IteratingCallback promise: the transition table entry point
    by entry point, the rounds of the processing loop, and properties of whole runs of
    calls (completion hooks fire at most once per job, CLOSED is absorbing, chains of
    synchronous completions are handled by one loop). */
module Lifecycle {
  import opened Transitions
  import opened Processing

  // ---------------------------------------------------------------------------
  // The transition table, entry point by entry point

  /** `iterate()`: from PENDING or CALLED it leaves everything as it is; from IDLE it
      takes the state to PROCESSING and runs the loop on the caller; from PROCESSING it
      only raises the `_iterate` flag; from SUCCEEDED, FAILED or CLOSED it throws. */
  lemma IterateTable(c: Config, script: seq<ProcessCall>)
    ensures var r := Invoke(c, IterateCall, script);
      && (c.state == Pending || c.state == Called ==> r == Result(c, script, Normal))
      && (c.state == State.Idle ==> r == Run(c.(state := Processing), script))
      && (c.state == Processing ==> r == Result(c.(iterate := true), script, Normal))
      && (c.state in {State.Succeeded, State.Failed, Closed} ==> r == Result(c, script, IllegalState))
  {
  }

  /** `succeeded()`: from PROCESSING it records the completion as CALLED for the loop
      to pick up; from PENDING it takes the state to PROCESSING and resumes the loop on
      the caller; from CLOSED it is ignored; from any other state it throws. */
  lemma SucceededTable(c: Config, script: seq<ProcessCall>)
    ensures var r := Invoke(c, SucceededCall, script);
      && (c.state == Processing ==> r == Result(c.(state := Called), script, Normal))
      && (c.state == Pending ==> r == Run(c.(state := Processing), script))
      && (c.state == Closed ==> r == Result(c, script, Normal))
      && (c.state in {State.Idle, Called, State.Succeeded, State.Failed} ==>
            r == Result(c, script, IllegalState))
  {
  }

  /** `failed(x)`: a job that is finished, closed or not started is left alone and no hook
      fires; a job under way becomes FAILED and `onCompleteFailure(x)` fires once. */
  lemma FailedTable(c: Config, script: seq<ProcessCall>)
    ensures var r := Invoke(c, FailedCall, script);
      && r.exit == Normal && r.rest == script
      && (c.state in {State.Succeeded, State.Failed, State.Idle, Closed} ==> r.after == c)
      && (c.state in {Processing, Pending, Called} ==>
            r.after == c.(state := State.Failed, hooks := c.hooks + [CompleteFailure(Reported)]))
  {
  }

  /** `close()` always ends in CLOSED and never calls `process()`; it fires
      `onCompleteFailure` with a ClosedChannelException exactly when a job was under
      way, and a second `close()` changes nothing. */
  lemma CloseTable(c: Config, script: seq<ProcessCall>)
    ensures var r := Invoke(c, CloseCall, script);
      && r.exit == Normal && r.rest == script && r.after.state == Closed
      && r.after.iterate == c.iterate
      && (c.state in {State.Idle, State.Succeeded, State.Failed, Closed} ==> r.after.hooks == c.hooks)
      && (c.state in {Processing, Pending, Called} ==>
            r.after.hooks == c.hooks + [CompleteFailure(ClosedChannel)])
      && Invoke(r.after, CloseCall, r.rest) == r
  {
  }

  /** `reset()` answers true exactly from IDLE, SUCCEEDED and FAILED, and then leaves the
      machine IDLE for a new job; otherwise it answers false and changes nothing. */
  lemma ResetTable(c: Config, script: seq<ProcessCall>)
    ensures var r := Invoke(c, ResetCall, script);
      && r.rest == script
      && (r.exit == Answer(true) <==> c.state in {State.Idle, State.Succeeded, State.Failed})
      && (r.exit == Answer(true) ==> r.after.state == State.Idle && r.after.iterate == c.iterate)
      && (r.exit == Answer(false) ==> r.after == c)
  {
  }

  /** The constructors: `needReset` starts the machine finished, so that `iterate()`
      throws until `reset()` has been called; otherwise it starts IDLE. */
  lemma InitialStates(script: seq<ProcessCall>)
    ensures Invoke(Initial(true), IterateCall, script).exit == IllegalState
    ensures Invoke(Initial(true), ResetCall, script).after == Initial(false)
    ensures Invoke(Initial(false), IterateCall, script) == Run(Config(Processing, false, []), script)
  {
  }

  // ---------------------------------------------------------------------------
  // Rounds of the processing loop

  /** The state the loop observes when `call` has returned: the effect of the calls made
      on the callback while it ran. */
  function Observed(c: Config, call: ProcessCall): Config {
    InterfereAll(c, call.meanwhile)
  }

  /** `process()` returned IDLE while the state is PROCESSING: with `_iterate` raised the
      flag is cleared and `process()` is called again; otherwise the machine parks IDLE. */
  lemma IdleRound(c: Config, call: ProcessCall, rest: seq<ProcessCall>)
    requires c.state == Processing && call.outcome == Returned(Action.Idle)
    requires Observed(c, call).state == Processing
    ensures var o := Observed(c, call);
      && (o.iterate ==> Run(c, [call] + rest) == Run(o.(iterate := false), rest))
      && (!o.iterate ==> Run(c, [call] + rest) == Result(o.(state := State.Idle), rest, Normal))
  {
  }

  /** `process()` returned SCHEDULED: if the loop wins the race the machine waits in
      PENDING for the completion; if the completion already arrived (CALLED) the loop
      takes the state back to PROCESSING and goes round again, without recursion; if the
      job was failed or closed meanwhile the loop stops and changes nothing. */
  lemma ScheduledRound(c: Config, call: ProcessCall, rest: seq<ProcessCall>)
    requires c.state == Processing && call.outcome == Returned(Scheduled)
    ensures var o := Observed(c, call);
      && (o.state == Processing ==> Run(c, [call] + rest) == Result(o.(state := Pending), rest, Normal))
      && (o.state == Called ==> Run(c, [call] + rest) == Run(o.(state := Processing), rest))
      && (o.state in {State.Failed, Closed} ==> Run(c, [call] + rest) == Result(o, rest, Normal))
  {
  }

  /** `process()` returned SUCCEEDED: from PROCESSING the job succeeds and
      `onCompleteSuccess` fires once; a job already failed stops the loop with no hook;
      a completion or a close that arrived meanwhile makes the loop throw. */
  lemma SucceededRound(c: Config, call: ProcessCall, rest: seq<ProcessCall>)
    requires c.state == Processing && call.outcome == Returned(Action.Succeeded)
    ensures var o := Observed(c, call);
      && (o.state == Processing ==>
            Run(c, [call] + rest) == Result(o.(state := State.Succeeded, hooks := o.hooks + [CompleteSuccess]), rest, Normal))
      && (o.state == State.Failed ==> Run(c, [call] + rest) == Result(o, rest, Normal))
      && (o.state in {Called, Closed} ==> Run(c, [call] + rest) == Result(o, rest, IllegalState))
  {
  }

  /** `process()` threw: `failed(x)` is called with the exception and the loop stops,
      so `process()` is not called again in this run. */
  lemma ThrewRound(c: Config, call: ProcessCall, rest: seq<ProcessCall>)
    requires c.state == Processing && call.outcome == Threw
    ensures Run(c, [call] + rest) == Result(FailedStep(Observed(c, call), ProcessThrew), rest, Normal)
  {
  }

  /** Whether the atomic step of `e` would hand the caller the processing loop. */
  predicate EntersLoop(c: Config, e: Event) {
    match e
    case IterateCall => IterateStep(c).next == Proceed
    case SucceededCall => SucceededStep(c).next == Proceed
    case FailedCall | CloseCall | ResetCall => false
  }

  /** While `process()` runs, no call made on the callback (a synchronous completion,
      a concurrent `iterate()`, `failed(x)` or `close()`) is handed a second processing
      loop: `process()` is never run by two loops at once. */
  lemma MeanwhileNeverEntersLoop(c: Config, es: seq<Interleaved>)
    requires InStep(c.state)
    ensures forall i :: 0 <= i < |es| ==> !EntersLoop(InterfereAll(c, es[..i]), es[i])
  {
  }

  // ---------------------------------------------------------------------------
  // Completion hooks fire at most once per job

  lemma {:induction false} InterfereAllKeepsJobInv(c: Config, es: seq<Interleaved>)
    requires JobInv(c)
    ensures JobInv(InterfereAll(c, es))
    decreases |es|
  {
    if es != [] {
      InterfereAllKeepsJobInv(Interfere(c, es[0]), es[1..]);
    }
  }

  lemma {:induction false} RunKeepsJobInv(c: Config, script: seq<ProcessCall>)
    requires c.state == Processing && JobInv(c)
    ensures JobInv(Run(c, script).after)
    decreases |script|
  {
    if script != [] {
      InterfereAllKeepsJobInv(c, script[0].meanwhile);
      var c1 := InterfereAll(c, script[0].meanwhile);
      match script[0].outcome
      case Threw =>
      case Returned(a) =>
        var t := ActStep(c1, a);
        if t.next == Proceed {
          RunKeepsJobInv(t.after, script[1..]);
        }
    }
  }

  lemma InvokeKeepsJobInv(c: Config, e: Event, script: seq<ProcessCall>)
    requires JobInv(c)
    ensures JobInv(Invoke(c, e, script).after)
  {
    match e
    case IterateCall =>
      if c.state == State.Idle { RunKeepsJobInv(c.(state := Processing), script); }
    case SucceededCall =>
      if c.state == Pending { RunKeepsJobInv(c.(state := Processing), script); }
    case FailedCall | CloseCall | ResetCall =>
  }

  /** Whatever entry points are called, one after another, on a callback whose hooks
      agree with its state, the hooks keep agreeing with it: in each job the success
      and failure hooks together fire at most once, never both, the success hook only
      when the job succeeded, and a FAILED job has fired exactly one failure hook. */
  lemma {:induction false} HooksAtMostOncePerJob(c: Config, events: seq<Event>, script: seq<ProcessCall>)
    requires JobInv(c)
    ensures var tr := Exec(c, events, script);
      && JobInv(tr.after)
      && |tr.after.hooks| <= 1
      && (CompleteSuccess in tr.after.hooks ==> tr.after.state in {State.Succeeded, Closed})
    decreases |events|
  {
    if events != [] {
      InvokeKeepsJobInv(c, events[0], script);
      var r := Invoke(c, events[0], script);
      HooksAtMostOncePerJob(r.after, events[1..], r.rest);
    }
  }

  /** A freshly constructed callback, driven by any calls, never fires more than one
      completion hook per job. */
  lemma FromConstruction(needReset: bool, events: seq<Event>, script: seq<ProcessCall>)
    ensures |Exec(Initial(needReset), events, script).after.hooks| <= 1
  {
    HooksAtMostOncePerJob(Initial(needReset), events, script);
  }

  // ---------------------------------------------------------------------------
  // CLOSED is absorbing

  /** The machine just before call `i` of a sequence of calls. */
  function Before(c: Config, events: seq<Event>, script: seq<ProcessCall>, i: nat): Config
    requires i <= |events|
    decreases i
  {
    if i == 0 then c
    else
      var r := Invoke(c, events[0], script);
      Before(r.after, events[1..], r.rest, i - 1)
  }

  /** Only `reset()` answers, and its answer says whether the machine it found was IDLE,
      SUCCEEDED or FAILED, whatever calls came before it. */
  lemma {:induction false} ExecAnswersExactlyResets(c: Config, events: seq<Event>, script: seq<ProcessCall>)
    ensures var tr := Exec(c, events, script);
      forall i :: 0 <= i < |events| ==>
        && (tr.exits[i].Answer? <==> events[i] == ResetCall)
        && (events[i] == ResetCall ==>
              tr.exits[i] == Answer(Before(c, events, script, i).state == State.Idle || Finished(Before(c, events, script, i).state)))
    decreases |events|
  {
    if events != [] {
      var r := Invoke(c, events[0], script);
      var tail := Exec(r.after, events[1..], r.rest);
      ExecAnswersExactlyResets(r.after, events[1..], r.rest);
      var exits := [r.exit] + tail.exits;
      assert Exec(c, events, script).exits == exits;
      forall i | 0 <= i < |events|
        ensures && (exits[i].Answer? <==> events[i] == ResetCall)
                && (events[i] == ResetCall ==>
                      exits[i] == Answer(Before(c, events, script, i).state == State.Idle || Finished(Before(c, events, script, i).state)))
      {
        if i > 0 {
          assert exits[i] == tail.exits[i - 1] && events[i] == events[1..][i - 1];
          assert Before(c, events, script, i) == Before(r.after, events[1..], r.rest, i - 1);
        }
      }
    }
  }

  /** The loop uses up a front part of the script: what is left is a suffix of it. */
  lemma {:induction false} RunUsesScriptFront(c: Config, script: seq<ProcessCall>)
    requires c.state == Processing
    ensures SuffixOf(Run(c, script).rest, script)
    decreases |script|
  {
    if script != [] && script[0].outcome.Returned? {
      var t := ActStep(InterfereAll(c, script[0].meanwhile), script[0].outcome.action);
      if t.next == Proceed {
        RunUsesScriptFront(t.after, script[1..]);
        var rest := Run(t.after, script[1..]).rest;
        assert script[1..][|script[1..]| - |rest|..] == script[|script| - |rest|..];
      }
    }
  }

  lemma SuffixOfTransitive(a: seq<ProcessCall>, b: seq<ProcessCall>, c: seq<ProcessCall>)
    requires SuffixOf(a, b) && SuffixOf(b, c)
    ensures SuffixOf(a, c)
  {
    assert c[|c| - |b|..][|b| - |a|..] == c[|c| - |a|..];
  }

  /** A call uses up a front part of the script of `process()` calls, and only the calls
      that can run the loop, `iterate()` and `succeeded()`, use any. */
  lemma InvokeUsesScriptFront(c: Config, e: Event, script: seq<ProcessCall>)
    ensures SuffixOf(Invoke(c, e, script).rest, script)
    ensures Invoke(c, e, script).rest != script ==> e == IterateCall || e == SucceededCall
  {
    if (e == IterateCall && c.state == State.Idle) || (e == SucceededCall && c.state == Pending) {
      RunUsesScriptFront(c.(state := Processing), script);
    }
  }

  /** The same for a sequence of calls. */
  lemma {:induction false} ExecUsesScriptFront(c: Config, events: seq<Event>, script: seq<ProcessCall>)
    ensures SuffixOf(Exec(c, events, script).rest, script)
    decreases |events|
  {
    if events != [] {
      var r := Invoke(c, events[0], script);
      var rest := Exec(r.after, events[1..], r.rest).rest;
      assert Exec(c, events, script).rest == rest;
      InvokeUsesScriptFront(c, events[0], script);
      ExecUsesScriptFront(r.after, events[1..], r.rest);
      SuffixOfTransitive(rest, r.rest, script);
    }
  }

  /** Calls none of which is `iterate()` or `succeeded()` never call `process()`. */
  lemma {:induction false} NoLoopWithoutIterateOrSucceeded(c: Config, events: seq<Event>, script: seq<ProcessCall>)
    requires forall i :: 0 <= i < |events| ==> events[i] != IterateCall && events[i] != SucceededCall
    ensures Exec(c, events, script).rest == script
    decreases |events|
  {
    if events != [] {
      var r := Invoke(c, events[0], script);
      assert r.rest == script;
      assert Exec(c, events, script).rest == Exec(r.after, events[1..], script).rest;
      assert forall i :: 0 <= i < |events[1..]| ==> events[1..][i] == events[i + 1];
      NoLoopWithoutIterateOrSucceeded(r.after, events[1..], script);
    }
  }

  /** How each entry point ends on a closed callback. */
  function ClosedExit(e: Event): Exit {
    match e
    case IterateCall => IllegalState
    case ResetCall => Answer(false)
    case SucceededCall | FailedCall | CloseCall => Normal
  }

  /** Calls that land on a closed callback while `process()` runs change nothing. */
  lemma {:induction false} InterfereAllOnClosed(c: Config, es: seq<Interleaved>)
    requires c.state == Closed
    ensures InterfereAll(c, es) == c
    decreases |es|
  {
    if es != [] {
      InterfereAllOnClosed(Interfere(c, es[0]), es[1..]);
    }
  }

  /** A `close()` among the calls that land while `process()` runs leaves the callback
      CLOSED when `process()` returns, whatever the other calls are. */
  lemma {:induction false} InterfereAllWithClose(c: Config, es: seq<Interleaved>)
    requires CloseCall in es
    ensures InterfereAll(c, es).state == Closed
    decreases |es|
  {
    if es[0] == CloseCall {
      InterfereAllOnClosed(CloseStep(c), es[1..]);
    } else {
      assert CloseCall in es[1..] by {
        var k :| 0 <= k < |es| && es[k] == CloseCall;
        assert es[1..][k - 1] == CloseCall;
      }
      InterfereAllWithClose(Interfere(c, es[0]), es[1..]);
    }
  }

  /** A `close()` that lands while `process()` runs stops the loop: whatever `process()`
      answers, the callback ends CLOSED, the loop calls `process()` no more, and the call
      that ran the loop returns or throws. */
  lemma CloseDuringProcessStopsLoop(c: Config, call: ProcessCall, rest: seq<ProcessCall>)
    requires c.state == Processing && CloseCall in call.meanwhile
    ensures var r := Run(c, [call] + rest);
      r.after.state == Closed && r.rest == rest && r.exit != Exhausted
  {
    InterfereAllWithClose(c, call.meanwhile);
    assert ([call] + rest)[0] == call && ([call] + rest)[1..] == rest;
  }

  /** Once closed, a callback stays closed whatever is called on it: no hook fires,
      `process()` is never called again, `reset()` always answers false and `iterate()`
      always throws. */
  lemma {:induction false} ClosedIsAbsorbing(c: Config, events: seq<Event>, script: seq<ProcessCall>)
    requires c.state == Closed
    ensures var tr := Exec(c, events, script);
      && tr.after == c && tr.rest == script
      && forall i :: 0 <= i < |events| ==> tr.exits[i] == ClosedExit(events[i])
    decreases |events|
  {
    if events != [] {
      ClosedIsAbsorbing(c, events[1..], script);
    }
  }

  /** `close()` followed by anything leaves the callback closed for good. */
  lemma CloseIsFinal(c: Config, events: seq<Event>, script: seq<ProcessCall>)
    ensures var tr := Exec(c, [CloseCall] + events, script);
      && tr.after.state == Closed
      && forall i :: 1 <= i < |events| + 1 && events[i - 1] == ResetCall ==> tr.exits[i] == Answer(false)
  {
    var c1 := CloseStep(c);
    ClosedIsAbsorbing(c1, events, script);
    assert ([CloseCall] + events)[1..] == events;
  }

  // ---------------------------------------------------------------------------
  // Synchronous completions: iteration, not recursion

  /** `n` calls of `process()` that each schedule a sub task whose completion arrives
      before `process()` returns. */
  function SyncChain(n: nat): (s: seq<ProcessCall>)
    ensures |s| == n
  {
    if n == 0 then [] else [ProcessCall([SucceededCall], Returned(Scheduled))] + SyncChain(n - 1)
  }

  /** One synchronously completed sub task: the completion turns PROCESSING into CALLED
      before `process()` returns SCHEDULED, and the loop takes the state back to
      PROCESSING and goes round again with nothing else changed. */
  lemma SyncRound(c: Config, rest: seq<ProcessCall>)
    requires c.state == Processing
    ensures Run(c, [ProcessCall([SucceededCall], Returned(Scheduled))] + rest) == Run(c, rest)
  {
    var script := [ProcessCall([SucceededCall], Returned(Scheduled))] + rest;
    assert script[1..] == rest;
    assert InterfereAll(c, [SucceededCall]) == c.(state := Called);
  }

  /** A loop that meets `n` synchronously completed sub tasks and then the end of the
      job goes round `n + 1` times in the same run and succeeds with exactly one
      success hook; the completions never start a loop of their own. */
  lemma {:induction false} SyncChainIterates(c: Config, n: nat, rest: seq<ProcessCall>)
    requires c.state == Processing
    ensures Run(c, SyncChain(n) + [ProcessCall([], Returned(Action.Succeeded))] + rest)
         == Result(c.(state := State.Succeeded, hooks := c.hooks + [CompleteSuccess]), rest, Normal)
    decreases n
  {
    var done := ProcessCall([], Returned(Action.Succeeded));
    if n == 0 {
      assert SyncChain(0) + [done] + rest == [done] + rest;
      assert ([done] + rest)[1..] == rest;
    } else {
      var tail := SyncChain(n - 1) + [done] + rest;
      assert SyncChain(n) + [done] + rest == [ProcessCall([SucceededCall], Returned(Scheduled))] + tail;
      SyncRound(c, tail);
      SyncChainIterates(c, n - 1, rest);
    }
  }

  /** From IDLE, one `iterate()` drives a whole chain of synchronous completions to the
      end of the job. */
  lemma IterateRunsSyncChain(n: nat, rest: seq<ProcessCall>)
    ensures Invoke(Initial(false), IterateCall, SyncChain(n) + [ProcessCall([], Returned(Action.Succeeded))] + rest)
         == Result(Config(State.Succeeded, false, [CompleteSuccess]), rest, Normal)
  {
    SyncChainIterates(Config(Processing, false, []), n, rest);
  }

  // ---------------------------------------------------------------------------
  // Scenarios

  /** `process()` answering IDLE parks the machine: each IDLE needs a new `iterate()`,
      and three of them take IDLE, IDLE, SUCCEEDED to one success hook. */
  lemma IdleNeedsNewIterate()
    ensures var script := [ProcessCall([], Returned(Action.Idle)), ProcessCall([], Returned(Action.Idle)),
                           ProcessCall([], Returned(Action.Succeeded))];
      && Invoke(Initial(false), IterateCall, script) == Result(Initial(false), script[1..], Normal)
      && Exec(Initial(false), [IterateCall, IterateCall, IterateCall], script)
         == Trace(Config(State.Succeeded, false, [CompleteSuccess]), [], [Normal, Normal, Normal])
  {
    var idle, done := ProcessCall([], Returned(Action.Idle)), ProcessCall([], Returned(Action.Succeeded));
    var finished := Config(State.Succeeded, false, [CompleteSuccess]);
    assert Invoke(Initial(false), IterateCall, [idle, idle, done]) == Result(Initial(false), [idle, done], Normal) by {
      assert [idle, idle, done][1..] == [idle, done];
    }
    assert Exec(Initial(false), [IterateCall, IterateCall], [idle, done]) == Trace(finished, [], [Normal, Normal]) by {
      assert Invoke(Initial(false), IterateCall, [idle, done]) == Result(Initial(false), [done], Normal) by {
        assert [idle, done][1..] == [done];
      }
      assert Exec(Initial(false), [IterateCall], [done]) == Trace(finished, [], [Normal]) by {
        assert Invoke(Initial(false), IterateCall, [done]) == Result(finished, [], Normal);
      }
      assert [IterateCall, IterateCall][1..] == [IterateCall];
    }
    assert [IterateCall, IterateCall, IterateCall][1..] == [IterateCall, IterateCall];
  }

  /** An `iterate()` that arrives while `process()` runs is not lost: the loop goes
      round once more instead of parking, and parks only after a round with no request. */
  lemma IterateDuringProcess()
    ensures var script := [ProcessCall([IterateCall], Returned(Action.Idle)), ProcessCall([], Returned(Action.Idle))];
      Invoke(Initial(false), IterateCall, script) == Result(Initial(false), [], Normal)
  {
  }

  /** `close()` while a sub task is outstanding fires the failure hook once with the
      "closed" cause, and the late completion of that sub task is ignored. */
  lemma CloseWhilePending()
    ensures var script := [ProcessCall([], Returned(Scheduled))];
      Exec(Initial(false), [IterateCall, CloseCall, SucceededCall], script)
      == Trace(Config(Closed, false, [CompleteFailure(ClosedChannel)]), [], [Normal, Normal, Normal])
  {
  }

  /** `reset()` does not clear `_iterate`: an `iterate()` that arrived in the job's last
      round survives into the next job. */
  lemma IterateFlagSurvivesReset()
    ensures var script := [ProcessCall([IterateCall], Returned(Action.Succeeded))];
      Exec(Initial(false), [IterateCall, ResetCall], script)
      == Trace(Config(State.Idle, true, []), [], [Normal, Answer(true)])
  {
  }

  /** The surviving flag makes the next job's first IDLE round go round again: that job
      needs two IDLE answers before it parks, and parks with the flag clear. */
  lemma SurvivingFlagSkipsFirstIdle()
    ensures var idle := ProcessCall([], Returned(Action.Idle));
      && Invoke(Config(State.Idle, true, []), IterateCall, [idle]) == Result(Config(Processing, false, []), [], Exhausted)
      && Invoke(Config(State.Idle, true, []), IterateCall, [idle, idle]) == Result(Initial(false), [], Normal)
  {
  }

  /** The two jobs together: `iterate()`, `reset()`, `iterate()` with an `iterate()` landing
      in the last round of the first job ends parked with the flag clear, after the second
      job has called `process()` twice. */
  lemma FlagCarriesIntoNextJob()
    ensures var idle := ProcessCall([], Returned(Action.Idle));
      var script := [ProcessCall([IterateCall], Returned(Action.Succeeded)), idle, idle];
      Exec(Initial(false), [IterateCall, ResetCall, IterateCall], script).after == Config(State.Idle, false, [])
  {
    var last := ProcessCall([IterateCall], Returned(Action.Succeeded));
    var idle := ProcessCall([], Returned(Action.Idle));
    var done, reopened := Config(State.Succeeded, true, [CompleteSuccess]), Config(State.Idle, true, []);
    LastRoundRaisesFlag([idle, idle]);
    SurvivingFlagSkipsFirstIdle();
    assert Exec(reopened, [IterateCall], [idle, idle]).after == Initial(false);
    assert Exec(done, [ResetCall, IterateCall], [idle, idle]).after == Initial(false) by {
      assert Invoke(done, ResetCall, [idle, idle]) == Result(reopened, [idle, idle], Answer(true));
      assert [ResetCall, IterateCall][1..] == [IterateCall];
    }
    assert [IterateCall, ResetCall, IterateCall][1..] == [ResetCall, IterateCall];
  }

  /** An `iterate()` that lands in the round whose `process()` answers SUCCEEDED leaves the
      flag raised on the finished job. */
  lemma LastRoundRaisesFlag(rest: seq<ProcessCall>)
    ensures Invoke(Initial(false), IterateCall, [ProcessCall([IterateCall], Returned(Action.Succeeded))] + rest)
         == Result(Config(State.Succeeded, true, [CompleteSuccess]), rest, Normal)
  {
    var script := [ProcessCall([IterateCall], Returned(Action.Succeeded))] + rest;
    assert script[1..] == rest;
    assert InterfereAll(Config(Processing, false, []), [IterateCall]) == Config(Processing, true, []);
  }
}
