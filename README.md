# IteratingCallback, modelled and verified in Dafny

Jetty's `IteratingCallback` breaks a large job into sub tasks and runs them by
iteration rather than recursion. A subclass's `process()` starts the next sub
task and answers IDLE (nothing to do now), SCHEDULED (a sub task was started and
will call `succeeded()` or `failed(x)`) or SUCCEEDED (the job is done). The
callback keeps one state cell with eight values: IDLE, PROCESSING, PENDING,
CALLED, SUCCEEDED, FAILED, CLOSED and LOCKED. It also keeps an `_iterate` flag.
Six entry points drive it: `iterate()`, the internal `processing()` loop,
`succeeded()`, `failed(x)`, `close()` and `reset()`. Each reads the state and
compare-and-sets it to the next one. Some also fire one of the completion hooks
`onCompleteSuccess()` and `onCompleteFailure(x)`.

The project has five modules:

- `Transitions` (transitions.dfy): the state, the action, the hooks, and one
  function per atomic compare-and-set step. `JobInv` relates the hooks fired in
  the current job to the state.
- `Processing` (processing.dfy): the processing loop as the function `Run`. It
  works over a script of `process()` calls. Each call lists the entry points
  invoked on the callback while it runs (a synchronous completion, a concurrent
  `iterate()`, `failed(x)` or `close()`), then what it returned or that it threw.
  `Invoke` is one whole entry-point call. `Exec` is a sequence of such calls.
- `Lifecycle` (lifecycle.dfy): the transition table entry point by entry point,
  and the rounds of the loop. It also proves properties of whole runs: hooks
  fire at most once per job, CLOSED is absorbing, chains of synchronous
  completions are handled by one loop, and a call made while `process()` runs
  never starts a second loop.
- `Callback` (callback.dfy): the class, with `state`, `iterate` and `script`
  fields and a ghost log of hook calls. Each method performs the source's steps
  on the fields and is proved equal to the function above. `ProcessingLoop` is
  a `while` loop whose invariant keeps it equal to `Run`.
- `LockWindow` (lockwindow.dfy): the LOCKED windows of `iterate()` and of the
  IDLE branch of the loop, split into their steps, for the findings below. Off
  LOCKED its entry points are the atomic steps of `Transitions`.

Each compare-and-set, together with the read before it, is one atomic step.
Concurrency is modelled as a sequence of atomic calls. The probes `isIdle`,
`isClosed`, `isFailed` and `isSucceeded` are the class predicates `IsIdle`,
`IsClosed`, `IsFailed` and `IsSucceeded`. Each is tied by its contract to the
step functions: `IsIdle` holds exactly when the next `iterate()` starts the
loop; `IsClosed` implies `reset()` refuses and `close()` changes nothing;
`IsFailed` and `IsSucceeded` imply `reset()` may start a new job and
`failed(x)` changes nothing, and under the hook invariant the job fired exactly
one failure hook (`IsFailed`) or no failure hook at all (`IsSucceeded`).

A `process()` that answers IDLE parks the callback in IDLE unless an
`iterate()` arrived during that round. So IDLE, IDLE, SUCCEEDED needs three
`iterate()` calls, not one (`Lifecycle.IdleNeedsNewIterate`). `reset()` leaves
`_iterate` alone. A request that arrived in the last round of one job therefore
carries over into the next (`Lifecycle.IterateFlagSurvivesReset`).

## Model

| member | source | states |
|---|---|---|
| `Transitions.Initial` | jetty-util/src/main/java/org/eclipse/jetty/util/IteratingCallback.java:132-140 | a new callback starts in SUCCEEDED with `needReset`, otherwise in IDLE; no hook has fired and `_iterate` is clear |
| `Transitions.IterateStep` | jetty-util/src/main/java/org/eclipse/jetty/util/IteratingCallback.java:184-218 | `iterate()` runs the processing loop exactly when it finds IDLE, and then the state is PROCESSING |
| `Transitions.SucceededStep` | jetty-util/src/main/java/org/eclipse/jetty/util/IteratingCallback.java:358-392 | `succeeded()` resumes the processing loop exactly when it finds PENDING, and then the state is PROCESSING |
| `Transitions.FailedStep` | jetty-util/src/main/java/org/eclipse/jetty/util/IteratingCallback.java:400-425 | `failed(x)` on a job under way (PROCESSING, PENDING, CALLED) moves it to FAILED and fires `onCompleteFailure(x)` once; from any other state it changes nothing; `_iterate` is untouched |
| `Transitions.CloseStep` | jetty-util/src/main/java/org/eclipse/jetty/util/IteratingCallback.java:427-456 | `close()` always ends in CLOSED; it fires `onCompleteFailure` with the closed cause exactly when a job is under way and otherwise fires nothing |
| `Transitions.ResetStep` | jetty-util/src/main/java/org/eclipse/jetty/util/IteratingCallback.java:496-519 | `reset()` answers true exactly from IDLE, SUCCEEDED and FAILED; from SUCCEEDED or FAILED it starts a new job in IDLE with no hooks and `_iterate` kept; when it answers false, or from IDLE, nothing changes |
| `Transitions.ActStep` | jetty-util/src/main/java/org/eclipse/jetty/util/IteratingCallback.java:241-346 | resolving an action either goes round again in PROCESSING, or stops in IDLE, PENDING, SUCCEEDED, FAILED or CLOSED, or throws and changes nothing; it stops in IDLE exactly when IDLE meets PROCESSING with `_iterate` clear; only SUCCEEDED in PROCESSING fires a hook |
| `Transitions.Interfere` | jetty-util/src/main/java/org/eclipse/jetty/util/IteratingCallback.java:228-233 | a call made while `process()` runs keeps the state among PROCESSING, CALLED, FAILED and CLOSED |
| `Transitions.InterfereAll` | jetty-util/src/main/java/org/eclipse/jetty/util/IteratingCallback.java:228-233 | any number of such calls keep the state among those four |
| `Processing.Run` | jetty-util/src/main/java/org/eclipse/jetty/util/IteratingCallback.java:220-350 | the loop consumes a prefix of the script; when it stops normally the state is IDLE, PENDING, SUCCEEDED, FAILED or CLOSED, never PROCESSING or CALLED; it parks IDLE only with `_iterate` clear; it throws only from CALLED, FAILED or CLOSED; a thrown `process()` stops it after that call |
| `Processing.Continue` | jetty-util/src/main/java/org/eclipse/jetty/util/IteratingCallback.java:195-199 | after its compare-and-set step an entry point returns normally or throws with the step's state and the script untouched, and runs the loop only when the step says so; it never answers a boolean |
| `Processing.Invoke` | jetty-util/src/main/java/org/eclipse/jetty/util/IteratingCallback.java:184-519 | of the entry points only `reset()` answers a boolean |
| `Processing.Exec` | jetty-util/src/main/java/org/eclipse/jetty/util/IteratingCallback.java:184-519 | a sequence of calls, each running to completion before the next, gives exactly one exit per call |
| `Lifecycle.IterateTable` | jetty-util/src/main/java/org/eclipse/jetty/util/IteratingCallback.java:184-218 | `iterate()` changes nothing from PENDING or CALLED, runs the loop from IDLE, only raises `_iterate` from PROCESSING, and throws from SUCCEEDED, FAILED or CLOSED |
| `Lifecycle.SucceededTable` | jetty-util/src/main/java/org/eclipse/jetty/util/IteratingCallback.java:358-392 | `succeeded()` moves PROCESSING to CALLED, resumes the loop from PENDING, ignores CLOSED and throws from every other state |
| `Lifecycle.FailedTable` | jetty-util/src/main/java/org/eclipse/jetty/util/IteratingCallback.java:400-425 | `failed(x)` changes nothing from SUCCEEDED, FAILED, IDLE or CLOSED; from the other states it moves to FAILED and fires `onCompleteFailure(x)` once |
| `Lifecycle.CloseTable` | jetty-util/src/main/java/org/eclipse/jetty/util/IteratingCallback.java:427-456 | `close()` always ends in CLOSED; it fires the failure hook with the closed cause exactly from PROCESSING, PENDING or CALLED; a second `close()` changes nothing |
| `Lifecycle.ResetTable` | jetty-util/src/main/java/org/eclipse/jetty/util/IteratingCallback.java:496-519 | `reset()` answers true exactly from IDLE, SUCCEEDED or FAILED and then leaves IDLE with `_iterate` untouched; otherwise it answers false and changes nothing |
| `Lifecycle.ExecAnswersExactlyResets` | jetty-util/src/main/java/org/eclipse/jetty/util/IteratingCallback.java:496-519 | over any sequence of calls, a call's exit carries a boolean exactly when the call is `reset()`, and that boolean is true exactly when the machine the call found was IDLE, SUCCEEDED or FAILED |
| `Lifecycle.RunUsesScriptFront` | jetty-util/src/main/java/org/eclipse/jetty/util/IteratingCallback.java:220-238 | the loop calls `process()` in order: what is left of the script is a suffix of it |
| `Lifecycle.InvokeUsesScriptFront` | jetty-util/src/main/java/org/eclipse/jetty/util/IteratingCallback.java:184-519 | one call uses up a front part of the script, and only `iterate()` and `succeeded()` use any |
| `Lifecycle.ExecUsesScriptFront` | jetty-util/src/main/java/org/eclipse/jetty/util/IteratingCallback.java:184-519 | any sequence of calls uses up a front part of the script |
| `Lifecycle.NoLoopWithoutIterateOrSucceeded` | jetty-util/src/main/java/org/eclipse/jetty/util/IteratingCallback.java:400-519 | calls among `failed(x)`, `close()` and `reset()` never call `process()` |
| `Lifecycle.InitialStates` | jetty-util/src/main/java/org/eclipse/jetty/util/IteratingCallback.java:137-140 | with `needReset`, `iterate()` throws until `reset()` gives the IDLE start of the other constructor |
| `Lifecycle.IdleRound` | jetty-util/src/main/java/org/eclipse/jetty/util/IteratingCallback.java:247-271 | IDLE in PROCESSING with `_iterate` set clears it and calls `process()` again; with it clear the callback parks IDLE |
| `Lifecycle.ScheduledRound` | jetty-util/src/main/java/org/eclipse/jetty/util/IteratingCallback.java:281-318 | SCHEDULED moves PROCESSING to PENDING and stops; it moves CALLED to PROCESSING and goes round again in the same loop; it stops without change on FAILED or CLOSED |
| `Lifecycle.SucceededRound` | jetty-util/src/main/java/org/eclipse/jetty/util/IteratingCallback.java:321-343 | SUCCEEDED in PROCESSING moves to SUCCEEDED and fires `onCompleteSuccess` once; on FAILED it stops with no hook; on CALLED or CLOSED it throws |
| `Lifecycle.ThrewRound` | jetty-util/src/main/java/org/eclipse/jetty/util/IteratingCallback.java:229-238 | a throwing `process()` leads to `failed(x)` and the loop stops, with the rest of the script untouched |
| `Lifecycle.MeanwhileNeverEntersLoop` | jetty-util/src/main/java/org/eclipse/jetty/util/IteratingCallback.java:191-208 | no `iterate()` or `succeeded()` made while `process()` runs is handed the processing loop, so `process()` never runs twice at once |
| `Lifecycle.InterfereAllKeepsJobInv` | jetty-util/src/main/java/org/eclipse/jetty/util/IteratingCallback.java:400-456 | calls made while `process()` runs keep the hooks of the job in agreement with the state |
| `Lifecycle.RunKeepsJobInv` | jetty-util/src/main/java/org/eclipse/jetty/util/IteratingCallback.java:220-350 | a whole run of the loop keeps the hooks of the job in agreement with the state |
| `Lifecycle.InvokeKeepsJobInv` | jetty-util/src/main/java/org/eclipse/jetty/util/IteratingCallback.java:184-519 | every entry point keeps the hooks of the job in agreement with the state |
| `Lifecycle.HooksAtMostOncePerJob` | jetty-util/src/main/java/org/eclipse/jetty/util/IteratingCallback.java:159-175 | over any sequence of calls, at most one completion hook fires per job; the success hook fires only in SUCCEEDED or CLOSED; FAILED has fired exactly one failure hook |
| `Lifecycle.FromConstruction` | jetty-util/src/main/java/org/eclipse/jetty/util/IteratingCallback.java:132-140 | a newly constructed callback fires at most one hook per job, whatever is called on it |
| `Lifecycle.ClosedIsAbsorbing` | jetty-util/src/main/java/org/eclipse/jetty/util/IteratingCallback.java:427-456 | once CLOSED, any sequence of calls leaves it CLOSED with no hook and no `process()` call; `reset()` always answers false, `iterate()` always throws, the others return |
| `Lifecycle.InterfereAllOnClosed` | jetty-util/src/main/java/org/eclipse/jetty/util/IteratingCallback.java:184-456 | calls landing on a CLOSED callback while `process()` runs change nothing |
| `Lifecycle.InterfereAllWithClose` | jetty-util/src/main/java/org/eclipse/jetty/util/IteratingCallback.java:427-456 | a `close()` among the calls landing while `process()` runs leaves the callback CLOSED when `process()` returns, whatever the other calls are |
| `Lifecycle.CloseDuringProcessStopsLoop` | jetty-util/src/main/java/org/eclipse/jetty/util/IteratingCallback.java:220-350 | a `close()` landing while `process()` runs stops the loop: whatever `process()` answers, the callback ends CLOSED, no further `process()` call is made, and the loop returns or throws |
| `Lifecycle.CloseIsFinal` | jetty-util/src/main/java/org/eclipse/jetty/util/IteratingCallback.java:467-470 | after `close()`, `isClosed()` stays true and every later `reset()` answers false |
| `Lifecycle.SyncRound` | jetty-util/src/main/java/org/eclipse/jetty/util/IteratingCallback.java:297-302 | a sub task that completes before `process()` returns SCHEDULED leaves the loop where it was, ready for the next call |
| `Lifecycle.SyncChainIterates` | jetty-util/src/main/java/org/eclipse/jetty/util/IteratingCallback.java:24-43 | `n` synchronous completions followed by SUCCEEDED are handled in one loop, ending in SUCCEEDED with one success hook |
| `Lifecycle.IterateRunsSyncChain` | jetty-util/src/main/java/org/eclipse/jetty/util/IteratingCallback.java:184-200 | one `iterate()` from IDLE drives such a chain to SUCCEEDED |
| `Lifecycle.IdleNeedsNewIterate` | jetty-util/src/main/java/org/eclipse/jetty/util/IteratingCallback.java:268-270 | IDLE parks the callback; three `iterate()` calls take IDLE, IDLE, SUCCEEDED to one success hook |
| `Lifecycle.IterateDuringProcess` | jetty-util/src/main/java/org/eclipse/jetty/util/IteratingCallback.java:259-266 | an `iterate()` that arrives while `process()` runs makes the loop go round once more instead of parking |
| `Lifecycle.CloseWhilePending` | jetty-util/src/main/java/org/eclipse/jetty/util/IteratingCallback.java:380-384 | `close()` with a sub task outstanding fires the failure hook once with the closed cause; the late `succeeded()` is ignored |
| `Lifecycle.IterateFlagSurvivesReset` | jetty-util/src/main/java/org/eclipse/jetty/util/IteratingCallback.java:496-519 | `reset()` leaves an `iterate()` that landed in the last round of the job pending: the new job starts IDLE with `_iterate` set |
| `Lifecycle.LastRoundRaisesFlag` | jetty-util/src/main/java/org/eclipse/jetty/util/IteratingCallback.java:259-266 | an `iterate()` that lands in the round whose `process()` answers SUCCEEDED leaves the finished job with `_iterate` set |
| `Lifecycle.SurvivingFlagSkipsFirstIdle` | jetty-util/src/main/java/org/eclipse/jetty/util/IteratingCallback.java:255-270 | with `_iterate` carried over, the first IDLE answer of the next job does not park it: the loop goes round again, and parks with the flag clear on the second |
| `Lifecycle.FlagCarriesIntoNextJob` | jetty-util/src/main/java/org/eclipse/jetty/util/IteratingCallback.java:496-519 | `iterate()`, `reset()`, `iterate()` with an `iterate()` landing in the first job's last round ends IDLE with the flag clear only after two IDLE answers |
| `Callback.IteratingCallback.constructor` | jetty-util/src/main/java/org/eclipse/jetty/util/IteratingCallback.java:132-140 | the fields start as `Transitions.Initial` says |
| `Callback.IteratingCallback.IsIdle` | jetty-util/src/main/java/org/eclipse/jetty/util/IteratingCallback.java:458-465 | `isIdle()` is true exactly when the next `iterate()` would start the loop |
| `Callback.IteratingCallback.IsClosed` | jetty-util/src/main/java/org/eclipse/jetty/util/IteratingCallback.java:467-470 | `isClosed()` implies `reset()` refuses and a further `close()` changes nothing |
| `Callback.IteratingCallback.IsFailed` | jetty-util/src/main/java/org/eclipse/jetty/util/IteratingCallback.java:472-478 | `isFailed()` implies `reset()` may start a new job, a further `failed(x)` changes nothing, and the job fired exactly one failure hook |
| `Callback.IteratingCallback.IsSucceeded` | jetty-util/src/main/java/org/eclipse/jetty/util/IteratingCallback.java:480-486 | `isSucceeded()` implies `reset()` may start a new job, a later `failed(x)` changes nothing, and no failure hook fired in the job |
| `Callback.IteratingCallback.IterateCas` | jetty-util/src/main/java/org/eclipse/jetty/util/IteratingCallback.java:186-217 | the compare-and-set step of `iterate()` on the fields is `Transitions.IterateStep` |
| `Callback.IteratingCallback.Iterate` | jetty-util/src/main/java/org/eclipse/jetty/util/IteratingCallback.java:184-218 | `iterate()` on the fields is `Processing.Invoke` of an iterate call |
| `Callback.IteratingCallback.SucceededCas` | jetty-util/src/main/java/org/eclipse/jetty/util/IteratingCallback.java:360-391 | the compare-and-set step of `succeeded()` on the fields is `Transitions.SucceededStep` |
| `Callback.IteratingCallback.Succeeded` | jetty-util/src/main/java/org/eclipse/jetty/util/IteratingCallback.java:358-392 | `succeeded()` on the fields is `Processing.Invoke` of a succeeded call |
| `Callback.IteratingCallback.Failed` | jetty-util/src/main/java/org/eclipse/jetty/util/IteratingCallback.java:400-425 | `failed(x)` on the fields is `Transitions.FailedStep` |
| `Callback.IteratingCallback.Close` | jetty-util/src/main/java/org/eclipse/jetty/util/IteratingCallback.java:427-456 | `close()` on the fields is `Transitions.CloseStep` |
| `Callback.IteratingCallback.Reset` | jetty-util/src/main/java/org/eclipse/jetty/util/IteratingCallback.java:496-519 | `reset()` on the fields and its answer are `Transitions.ResetStep` |
| `Callback.IteratingCallback.Interleave` | jetty-util/src/main/java/org/eclipse/jetty/util/IteratingCallback.java:228-233 | a call made while `process()` runs, from a state the loop can be in while `process()` runs, is the atomic step `Transitions.Interfere` |
| `Callback.IteratingCallback.Process` | jetty-util/src/main/java/org/eclipse/jetty/util/IteratingCallback.java:142-157 | `process()` consumes one script entry, makes its calls on the callback in order and returns its outcome |
| `Callback.IteratingCallback.Act` | jetty-util/src/main/java/org/eclipse/jetty/util/IteratingCallback.java:241-346 | the `acting` block on the fields is `Transitions.ActStep` |
| `Callback.IteratingCallback.ProcessingLoop` | jetty-util/src/main/java/org/eclipse/jetty/util/IteratingCallback.java:220-350 | the `while` loop of `processing()` ends in the state, script and exit that `Processing.Run` gives |
| `LockWindow.Lock` | jetty-util/src/main/java/org/eclipse/jetty/util/IteratingCallback.java:203-204 | `iterate()` takes PROCESSING to LOCKED and fires no hook |
| `LockWindow.Unlock` | jetty-util/src/main/java/org/eclipse/jetty/util/IteratingCallback.java:206-207 | `iterate()` leaves the window in PROCESSING with `_iterate` set, whatever the state was |
| `LockWindow.OtherAsWritten` | jetty-util/src/main/java/org/eclipse/jetty/util/IteratingCallback.java:321-456 | off LOCKED, `failed(x)`, `close()`, `succeeded()` and the SUCCEEDED branch of the loop are the atomic steps of module Transitions; on LOCKED `failed(x)` and `close()` take the cell out of LOCKED and add one hook, and the other two throw; no call clears a hook or touches `_iterate` |
| `LockWindow.WindowWith` | jetty-util/src/main/java/org/eclipse/jetty/util/IteratingCallback.java:202-207 | calls landing in the window never touch `_iterate` or take a hook back; with the corrected steps they leave the LOCKED cell as it is |
| `LockWindow.OtherCorrected` | jetty-util/src/main/java/org/eclipse/jetty/util/IteratingCallback.java:210-212 | the corrected `failed(x)`, `close()`, `succeeded()` and SUCCEEDED branch of the loop differ from the code only on LOCKED, where they yield |
| `LockWindow.IterateWindow` | jetty-util/src/main/java/org/eclipse/jetty/util/IteratingCallback.java:202-208 | `iterate()` from PROCESSING always leaves PROCESSING with `_iterate` set |
| `LockWindow.FailureLostInLockWindow` | jetty-util/src/main/java/org/eclipse/jetty/util/IteratingCallback.java:415-421 | as written, a `failed(x)` inside the window is undone and the job later fires both hooks |
| `LockWindow.CloseLostInLockWindow` | jetty-util/src/main/java/org/eclipse/jetty/util/IteratingCallback.java:446-452 | as written, a `close()` inside the window is undone and the callback is PROCESSING again |
| `LockWindow.CompletionThrowsInLockWindow` | jetty-util/src/main/java/org/eclipse/jetty/util/IteratingCallback.java:386-389 | as written, a `succeeded()` inside the window throws |
| `LockWindow.LoopThrowsInLockWindow` | jetty-util/src/main/java/org/eclipse/jetty/util/IteratingCallback.java:326-341 | as written, the loop that resolves SUCCEEDED while `iterate()` holds the window throws |
| `LockWindow.CorrectedWindowIsAtomic` | jetty-util/src/main/java/org/eclipse/jetty/util/IteratingCallback.java:202-212 | with the corrected entry points, the window does exactly what the atomic `Transitions.IterateStep` does, whatever lands in it |
| `LockWindow.CorrectedWindowKeepsJobInv` | jetty-util/src/main/java/org/eclipse/jetty/util/IteratingCallback.java:159-175 | with the corrected entry points the window of `iterate()` keeps the one-hook-per-job invariant and fires no hook |
| `LockWindow.IdleWindow` | jetty-util/src/main/java/org/eclipse/jetty/util/IteratingCallback.java:255-270 | the IDLE branch from PROCESSING ends PROCESSING with the flag cleared if `_iterate` was set and IDLE otherwise, and never takes a hook back |
| `LockWindow.FailureLostInIdleWindow` | jetty-util/src/main/java/org/eclipse/jetty/util/IteratingCallback.java:262-270 | as written, a `failed(x)` inside the IDLE window is overwritten by IDLE: the failed job breaks the one-hook invariant and the next `iterate()` starts a new loop |
| `LockWindow.CorrectedIdleWindowIsAtomic` | jetty-util/src/main/java/org/eclipse/jetty/util/IteratingCallback.java:255-270 | with the corrected entry points, the IDLE window does exactly what the atomic `Transitions.ActStep` does for IDLE, and keeps the one-hook-per-job invariant |

## Left out

- The retry of a failed compare-and-set and the `Thread.yield()` spin on LOCKED. Each read-and-set is one atomic step, so LOCKED is never observed between steps. `LockWindow` opens the window of `iterate()` for the findings below. `LockWindow.IdleWindow` opens the window of the IDLE branch of `processing()` for the fifth finding.
- Java memory-model visibility of `AtomicReference` and the plain `_iterate` field, and true parallel interleaving. Threads are modelled as a sequence of atomic calls. Calls that land while `process()` runs are listed in the script.
- The IllegalStateException raised at lines 333-341 when the compare-and-set from PROCESSING to SUCCEEDED loses a race. In this model the read and the compare-and-set are one step, so that compare-and-set never fails. The same branch reading LOCKED is the fourth finding below.
- `reset()` while `process()` runs. It could reopen a FAILED job to IDLE under a running loop and hand a second thread a loop. The script cannot express it.
- The bodies of `process()` and of the hooks, which belong to subclasses. `process()` is a script; the hooks are a ghost log of their calls. The hook log holds the current job only: a successful `reset()` empties it. Hooks that call back into the callback are not modelled.
- Processing.Run: when the script runs out where the loop would call `process()` again, the run ends with `Exhausted` in PROCESSING. This is a limit of the finite script, not a behaviour of the class.
- The `Callback` interface, `toString()`, and the exception objects. A throw is the `IllegalState` exit. The cause passed to `onCompleteFailure` is one of three tags. The `action=` default of the action switch cannot be reached with three actions.

## Findings

| source | as written | input that shows it | evidently intended | confidence | as-written member | corrected member |
|---|---|---|---|---|---|---|
| jetty-util/src/main/java/org/eclipse/jetty/util/IteratingCallback.java:400-425 | `failed(x)` that reads LOCKED compare-and-sets it to FAILED and fires `onCompleteFailure`; the `iterate()` holding the lock then sets PROCESSING unconditionally (line 207) | in PROCESSING, `iterate()` takes LOCKED; another thread calls `failed(x)`; `iterate()` sets PROCESSING; `process()` then returns SUCCEEDED and `onCompleteSuccess` fires too | `failed(x)` yields on LOCKED, as `iterate()` does, so the job ends FAILED with one hook | high, not executed | `LockWindow.FailureLostInLockWindow` | `LockWindow.CorrectedWindowIsAtomic`, `LockWindow.CorrectedWindowKeepsJobInv`, `LockWindow.OtherCorrected` |
| jetty-util/src/main/java/org/eclipse/jetty/util/IteratingCallback.java:427-456 | `close()` that reads LOCKED compare-and-sets it to CLOSED and fires the failure hook; the lock holder then sets PROCESSING | in PROCESSING, `iterate()` takes LOCKED; another thread calls `close()`; `iterate()` sets PROCESSING, and the closed callback goes on processing | `close()` yields on LOCKED, so CLOSED stays absorbing | high, not executed | `LockWindow.CloseLostInLockWindow` | `LockWindow.CorrectedWindowIsAtomic`, `LockWindow.OtherCorrected`, `Lifecycle.CloseDuringProcessStopsLoop` |
| jetty-util/src/main/java/org/eclipse/jetty/util/IteratingCallback.java:358-392 | `succeeded()` that reads LOCKED falls to the default branch and throws IllegalStateException | in PROCESSING, `iterate()` takes LOCKED while a sub task completes on another thread and calls `succeeded()` | `succeeded()` yields on LOCKED and then moves PROCESSING to CALLED | high, not executed | `LockWindow.CompletionThrowsInLockWindow` | `LockWindow.CorrectedWindowIsAtomic`, `LockWindow.OtherCorrected` |
| jetty-util/src/main/java/org/eclipse/jetty/util/IteratingCallback.java:321-343 | the SUCCEEDED branch of `processing()` has no LOCKED case, so reading LOCKED falls to the default branch and throws IllegalStateException | the loop is in PROCESSING and `process()` returns SUCCEEDED while another thread's `iterate()` holds LOCKED | the branch yields on LOCKED, as the IDLE and SCHEDULED branches do, and then moves PROCESSING to SUCCEEDED | high, not executed | `LockWindow.LoopThrowsInLockWindow` | `LockWindow.CorrectedWindowIsAtomic`, `LockWindow.OtherCorrected` |
| jetty-util/src/main/java/org/eclipse/jetty/util/IteratingCallback.java:255-270 | the IDLE branch of `processing()` takes PROCESSING to LOCKED, then sets IDLE (or PROCESSING) without looking at the state; a `failed(x)` or `close()` that reads LOCKED in between takes the state and fires its hook, and is then overwritten | the loop is in PROCESSING with `_iterate` clear and `process()` returns IDLE; another thread calls `failed(x)` while the loop holds LOCKED; the loop sets IDLE, so the job is IDLE after `onCompleteFailure`, and the next `iterate()` starts a new loop | `failed(x)` and `close()` yield on LOCKED, so the IDLE branch takes effect as one atomic step | high, not executed | `LockWindow.FailureLostInIdleWindow` | `LockWindow.CorrectedIdleWindowIsAtomic`, `LockWindow.OtherCorrected` |
