# JLCF dynamic reconfiguration, modelled in Dafny

JLCF is a Java component framework. Each component sits behind two wrappers:

- a **component proxy** (`ComponentProxyHandler`). It reports every call to the component's state manager (`ComponentProxyReconfigurationManager`), which tracks a state (IDLE, WORKING, WAITING, QUIESCENT), a pending-call counter and a list of observers.
- one **connector** per provided interface (`ConnectorHandler`). Each connector owns an admission gate (`ConnectorTimingBasedReconfigurationManager`). While a reconfiguration is running, the gate admits or parks a call from the component's state and from how long the same method took last time.

A replacement request is handled by the container's processor (`JLCFContainerProcessor`). It calls `start` on a reconfiguration manager (`SingleComponentReconfigurationManager`). That class extends `Thread` but overrides `start` (SingleComponentReconfigurationManager.java:95-96), so no thread is started and everything below runs on the processor thread. Inside `start`, the processor thread marks every connector, arms a watchdog timer, and asks the component to become quiescent. It then waits for the first reply (quiescence reached, or time elapsed) and puts it in its own reply queue. Depending on the reply, the processor either swaps the component's implementation under the unchanged connectors, or lets the old one proceed.

The model also covers:
- how receptacles chain their interceptors (`JLCFReceptacle`);
- how reference paths are split and looked up (`JLCFFrameworkUtilities`, `handleComponentTargetRequest`);
- the rules that turn a constructor's annotated parameters into arguments.

How the model is built:
- **Concurrency.** The model runs the threads as one sequential interleaving, in these steps:
  - `start`'s locked section is one step: marking the connectors, arming the watchdog, registering, RECONFIGURATION_START. The watchdog's task takes no lock, so it may run inside that section, between `t.schedule` and `reachQuiescentState` (SingleComponentReconfigurationManager.java:110-122). The parameter `timerFirst` chooses that order.
  - A call's CALLING on entry and its FINISHED_CALLING on return are one step each, taken under the component lock.
  - `finishCall` writes the call's duration into the gate after the component lock is released (ConnectorHandler.java:82). Only the call's own thread writes it, and the model places that write right after the body returns.
  - A lock is a hold count; the model does not record which thread holds it. Once `start` has released its own hold, any hold left is the processor thread's, from an earlier `start` that threw. While it is there, a call waits in `lock()` (ConnectorTimingBasedReconfigurationManager.java:77, ComponentProxyHandler.java:123) and changes nothing. The race records this as `lockedOut`.
  - A call the gate parks comes back as `Block`; its retry is a new attempt.
  - Whatever other threads do while the processor thread waits inside `start` is a list of `WaitEvent`s: the watchdog fires, a call is admitted, a call returns, a call throws.
- **Time.** The clock is an integer parameter.
- **Refused window.** `java.util.Timer.schedule(task, delay)` throws an IllegalArgumentException in two cases:
  - a negative delay, with "Negative delay.";
  - an execution time `currentTimeMillis() + delay` that wraps past the largest `long` to a negative value, with "Illegal execution time.".

  In `start` this happens after the component lock is taken and the connectors are marked, so the exception leaves both in place. The model returns it as an error, and the processor answers with its message. The lock stays held by the processor thread, so calls on that component wait from then on, and a later reconfiguration of it with calls pending times out (`LockLeftHeldTimesOut`).
- **Observer callbacks.** These are returned as lists of `Notification`s, in the order they are made; the caller delivers those addressed to the reconfiguration manager.
- **Modules.** Each core Java file is one module:
  - `DynrecTypes` (types.dfy)
  - `ComponentProxyReconfiguration` (state_manager.dfy)
  - `ComponentProxy` (proxy_handler.dfy)
  - `ConnectorTimingReconfiguration` (admission.dfy)
  - `Connector` and `ConnectorList` (connector.dfy)
  - `SingleComponentReconfiguration` (orchestrator.dfy)
  - `ContainerProcessor` (processor.dfy)
  - `FrameworkUtilities` (utilities.dfy)
  - `Receptacles` (receptacle.dfy)
- **Whole runs.** `ReconfigurationProtocol` (protocol.dfy) puts the pieces together over whole runs. This is where the two findings below are stated.

Where the code and the project's design description disagree, the model follows the code:
- The description says a call's duration is recorded after every call, success or failure. `ConnectorHandler.invoke` skips `finishCall` when the body throws (ConnectorHandler.java:75-82), so the model records durations only for calls that return.
- The description says that after a timeout the component is resumed and the blocked callers are admitted. The code never releases the connectors on that path; this is Finding 1.

## Model

All source paths are under `src/org/jlcf/core/`.

| member | source | states |
|---|---|---|
| DynrecTypes.Rethrown | src/org/jlcf/core/ComponentProxyHandler.java:114-119 | a reflective wrapper is rethrown as its cause when it has one, otherwise as itself |
| DynrecTypes.Reflect | src/org/jlcf/core/ComponentProxyHandler.java:112-120 | `Method.invoke` passes a returned value through and wraps a thrown exception so that `Rethrown` gives back exactly the body's exception |
| ComponentProxyReconfiguration.InitialTracker | src/org/jlcf/core/dynrec/ComponentProxyReconfigurationManager.java:45-49 | a new manager is IDLE with no calls pending and no observers |
| ComponentProxyReconfiguration.Step | src/org/jlcf/core/dynrec/ComponentProxyReconfigurationManager.java:58-164 | CALLING adds one and FINISHED_CALLING subtracts one whatever the state; the state changes exactly along the seven moves of the table (`Moves`), and every move the table allows is taken; only RECONFIGURATION_END touches the observers, and it empties them |
| ComponentProxyReconfiguration.Notifications | src/org/jlcf/core/dynrec/ComponentProxyReconfigurationManager.java:166-172 | reports go out only when the state changed: one per observer still registered, in list order, each carrying the new state; none for RECONFIGURATION_END |
| ComponentProxyReconfiguration.EndIsNeverReported | src/org/jlcf/core/dynrec/ComponentProxyReconfigurationManager.java:137-172 | RECONFIGURATION_END from QUIESCENT or WAITING changes the state yet reports it to no observer, because the list is cleared first |
| ComponentProxyReconfiguration.CounterMovesInInvalidStates | src/org/jlcf/core/dynrec/ComponentProxyReconfigurationManager.java:62-95 | FINISHED_CALLING in IDLE drives the counter to -1; CALLING in QUIESCENT raises it and the component stays QUIESCENT |
| ComponentProxyReconfiguration.StepKeepsCountMatchingState | src/org/jlcf/core/dynrec/ComponentProxyReconfigurationManager.java:62-163 | if FINISHED_CALLING is sent only with a call pending and CALLING never in QUIESCENT, one event keeps "IDLE/QUIESCENT have 0 pending, WORKING/WAITING at least 1" |
| ComponentProxyReconfiguration.RunKeepsCountMatchingState | src/org/jlcf/core/dynrec/ComponentProxyReconfigurationManager.java:62-163 | the same invariant over any run of such events |
| ComponentProxyReconfiguration.PendingNeverNegative | src/org/jlcf/core/dynrec/ComponentProxyReconfigurationManager.java:43-85 | from a new manager, such a run never makes the counter negative |
| ComponentProxyReconfiguration.CallsFromIdle | src/org/jlcf/core/dynrec/ComponentProxyReconfigurationManager.java:62-83 | n CALLING events take an IDLE component to WORKING with n pending, and a WORKING one from k to k + n |
| ComponentProxyReconfiguration.FinishesWhileWorking | src/org/jlcf/core/dynrec/ComponentProxyReconfigurationManager.java:84-111 | with n pending, WORKING stays WORKING until the n-th FINISHED_CALLING, which makes it IDLE |
| ComponentProxyReconfiguration.DrainWhileWaiting | src/org/jlcf/core/dynrec/ComponentProxyReconfigurationManager.java:96-172 | with n pending, WAITING becomes QUIESCENT at the n-th FINISHED_CALLING, and each observer hears of it exactly once |
| ComponentProxyReconfiguration.ComponentProxyReconfigurationManager.constructor | src/org/jlcf/core/dynrec/ComponentProxyReconfigurationManager.java:45-49 | the fields are the initial tracker |
| ComponentProxyReconfiguration.ComponentProxyReconfigurationManager.ReceiveEvent | src/org/jlcf/core/dynrec/ComponentProxyReconfigurationManager.java:58-174 | the new fields are `Step` of the old ones, and the reports made are `Notifications` of the old fields |
| ComponentProxyReconfiguration.ComponentProxyReconfigurationManager.ObserveState | src/org/jlcf/core/dynrec/ComponentProxyReconfigurationManager.java:181-184 | the observer is appended, without deduplication; nothing else changes |
| ComponentProxyReconfiguration.ComponentProxyReconfigurationManager.GetState | src/org/jlcf/core/dynrec/ComponentProxyReconfigurationManager.java:190-193 | returns the state and changes nothing |
| ComponentProxy.InvokeEvents | src/org/jlcf/core/ComponentProxyHandler.java:100-128 | a call sends [CALLING, FINISHED_CALLING] exactly when its body returns, and only [CALLING] exactly when it throws |
| ComponentProxy.InvokeNetCount | src/org/jlcf/core/ComponentProxyHandler.java:104-125 | a returning call leaves the pending count as it was; a throwing one leaves it one higher |
| ComponentProxy.InvokeEventsFinally | src/org/jlcf/core/ComponentProxyHandler.java:100-128 | corrected: every call sends the events of a returning call, whatever its body did |
| ComponentProxy.InvokeFinallyNetCount | src/org/jlcf/core/ComponentProxyHandler.java:104-125 | corrected: every call leaves the pending count as it was |
| ComponentProxy.ComponentProxyHandler.constructor | src/org/jlcf/core/ComponentProxyHandler.java:65-94 | a new handler owns a fresh state manager in the initial state, and its lock is free |
| ComponentProxy.ComponentProxyHandler.Lock | src/org/jlcf/core/ComponentProxyHandler.java:206-212 | one more hold on the component lock |
| ComponentProxy.ComponentProxyHandler.Unlock | src/org/jlcf/core/ComponentProxyHandler.java:214-219 | one hold fewer; the caller must hold the lock |
| ComponentProxy.ComponentProxyHandler.BeginInvoke | src/org/jlcf/core/ComponentProxyHandler.java:104-108 | CALLING is sent under the connector's lock, and that lock is then released |
| ComponentProxy.ComponentProxyHandler.EndInvoke | src/org/jlcf/core/ComponentProxyHandler.java:112-127 | a thrown body is rethrown unwrapped and sends nothing; a returning body sends FINISHED_CALLING under the lock; the hold count ends where it began |
| ComponentProxy.ComponentProxyHandler.Invoke | src/org/jlcf/core/ComponentProxyHandler.java:100-128 | the state manager ends as `Run` of `InvokeEvents(body)`, the reports are those of that run, the caller sees the body's own result or exception, and the connector's hold is given up |
| ComponentProxy.ComponentProxyHandler.InvokeFinally | src/org/jlcf/core/ComponentProxyHandler.java:100-128 | corrected `invoke`: the same, with `InvokeEventsFinally` |
| ComponentProxy.ComponentProxyHandler.ReachQuiescentState | src/org/jlcf/core/ComponentProxyHandler.java:146-162 | the observer is registered before RECONFIGURATION_START, so it already receives that event's report; a reconfigurable implementation stops its threads |
| ComponentProxy.ComponentProxyHandler.Proceed | src/org/jlcf/core/ComponentProxyHandler.java:165-177 | RECONFIGURATION_END is sent and leaves no observers; a reconfigurable implementation resumes its threads |
| ComponentProxy.ComponentProxyHandler.GetInternalState | src/org/jlcf/core/ComponentProxyHandler.java:180-188 | the implementation's state, or none when it is not reconfigurable |
| ComponentProxy.ComponentProxyHandler.SetInternalState | src/org/jlcf/core/ComponentProxyHandler.java:191-198 | a reconfigurable implementation takes the state; any other ignores it |
| ComponentProxy.ComponentProxyHandler.GetExternalState | src/org/jlcf/core/ComponentProxyHandler.java:202-204 | the state manager's state |
| ConnectorTimingReconfiguration.Decide | src/org/jlcf/core/dynrec/ConnectorTimingBasedReconfigurationManager.java:79-135 | outside a reconfiguration every call is admitted; inside one a call is parked exactly when the component is QUIESCENT, or when it is WAITING and the method's last duration exceeds the time left |
| ConnectorTimingReconfiguration.Remaining | src/org/jlcf/core/dynrec/ConnectorTimingBasedReconfigurationManager.java:109 | the whole window at its start, and strictly less once time has passed |
| ConnectorTimingReconfiguration.AdmittedCallFitsWindow | src/org/jlcf/core/dynrec/ConnectorTimingBasedReconfigurationManager.java:105-125 | while WAITING, a timed method is admitted exactly when its last duration ends it no later than the end of the window; a tie is admitted |
| ConnectorTimingReconfiguration.BlockingPersists | src/org/jlcf/core/dynrec/ConnectorTimingBasedReconfigurationManager.java:109 | a parked call stays parked later in the same window, and so does any method that took longer |
| ConnectorTimingReconfiguration.WindowExamples | src/org/jlcf/core/dynrec/ConnectorTimingBasedReconfigurationManager.java:84-135 | with 300 ms left: 500 ms is parked, 100 ms admitted; a method never timed is parked only by a QUIESCENT component |
| ConnectorTimingReconfiguration.Lookup | src/org/jlcf/core/dynrec/ConnectorTimingBasedReconfigurationManager.java:105-106 | the duration table's entry, or none when the method was never timed |
| ConnectorTimingReconfiguration.ConnectorTimingBasedReconfigurationManager.constructor | src/org/jlcf/core/dynrec/ConnectorTimingBasedReconfigurationManager.java:55-63 | an empty duration table, not reconfiguring, the call blocker free |
| ConnectorTimingReconfiguration.ConnectorTimingBasedReconfigurationManager.StartCall | src/org/jlcf/core/dynrec/ConnectorTimingBasedReconfigurationManager.java:70-137 | the decision is `Decide` on the fields and the component's state; an admitted call keeps the component lock it took; a parked call has released it; an admitted call starts at `now` |
| ConnectorTimingReconfiguration.ConnectorTimingBasedReconfigurationManager.FinishCall | src/org/jlcf/core/dynrec/ConnectorTimingBasedReconfigurationManager.java:144-149 | the entry for the method becomes the latest elapsed time; all other entries are unchanged |
| ConnectorTimingReconfiguration.ConnectorTimingBasedReconfigurationManager.SetReconfiguring | src/org/jlcf/core/dynrec/ConnectorTimingBasedReconfigurationManager.java:157-176 | stores the flag and window; starting notes the start time and takes the call blocker; ending releases it |
| ConnectorTimingReconfiguration.ConnectorTimingBasedReconfigurationManager.SetComponentProxy | src/org/jlcf/core/dynrec/ConnectorTimingBasedReconfigurationManager.java:183-185 | the gate asks the given proxy from now on |
| Connector.ConnectorHandler.constructor | src/org/jlcf/core/ConnectorHandler.java:54-60 | a connector forwards to the given proxy and owns a new gate asking that same proxy |
| Connector.ConnectorHandler.Invoke | src/org/jlcf/core/ConnectorHandler.java:66-84 | a parked attempt touches nothing; an admitted call runs `invoke`'s events and keeps the lock balanced; the duration is recorded only when the body returned; a thrown exception reaches the caller unwrapped |
| Connector.ConnectorHandler.SetTarget | src/org/jlcf/core/ConnectorHandler.java:88-93 | both forwarding targets and the gate's proxy become the new proxy |
| Connector.ConnectorHandler.SetReconfiguring | src/org/jlcf/core/ConnectorHandler.java:97-99 | passes the flag and window unchanged to the gate |
| ConnectorList.SetReconfiguringAll | src/org/jlcf/core/dynrec/SingleComponentReconfigurationManager.java:105-107 | every listed gate gets the flag and window and takes or releases its call blocker once; nothing else in the gates changes |
| SingleComponentReconfiguration.Reported | src/org/jlcf/core/dynrec/SingleComponentReconfigurationManager.java:80-93 | one success reply per report of QUIESCENT to this manager, and nothing for any other report |
| SingleComponentReconfiguration.Deliver | src/org/jlcf/core/dynrec/SingleComponentReconfigurationManager.java:80-93 | an event moves the state manager by `Step` and appends the replies its reports cause; who holds the lock is unchanged |
| SingleComponentReconfiguration.Started | src/org/jlcf/core/dynrec/SingleComponentReconfigurationManager.java:110-126 | when `start` releases the lock, the queue is empty exactly when the watchdog is still scheduled; it starts with "time elapsed" exactly when the watchdog's task ran inside the locked section, and every other queued reply is a success; a hold left by the processor thread is carried over |
| SingleComponentReconfiguration.AfterWaitEvent | src/org/jlcf/core/dynrec/SingleComponentReconfigurationManager.java:80-119 | another thread's step only appends replies, each a success or "time elapsed"; a cancelled watchdog stays cancelled; while the processor thread holds the lock the state manager does not move; a call that throws changes nothing the race sees |
| SingleComponentReconfiguration.Drain | src/org/jlcf/core/dynrec/SingleComponentReconfigurationManager.java:128-130 | from a queue holding only the two replies, any steps of the other threads keep it so |
| SingleComponentReconfiguration.RaceReply | src/org/jlcf/core/dynrec/SingleComponentReconfigurationManager.java:128-133 | the reply forwarded is always a success or "time elapsed" |
| SingleComponentReconfiguration.QueueOnlyGrows | src/org/jlcf/core/dynrec/SingleComponentReconfigurationManager.java:110-130 | replies are only appended, and while none is queued the watchdog is still scheduled, so the wait for a reply always ends |
| SingleComponentReconfiguration.FirstReplyStays | src/org/jlcf/core/dynrec/SingleComponentReconfigurationManager.java:128-133 | once a reply is queued, no later step of another thread changes the reply that is forwarded |
| SingleComponentReconfiguration.StartedIsRacing | src/org/jlcf/core/dynrec/SingleComponentReconfigurationManager.java:102-126 | after the start the component is WAITING or QUIESCENT, and a success is queued only if it is QUIESCENT |
| SingleComponentReconfiguration.AfterWaitEventKeepsRacing | src/org/jlcf/core/dynrec/SingleComponentReconfigurationManager.java:80-119 | any other thread's step keeps that invariant |
| SingleComponentReconfiguration.DrainKeepsRacing | src/org/jlcf/core/dynrec/SingleComponentReconfigurationManager.java:128-130 | so does any sequence of them |
| SingleComponentReconfiguration.SuccessMeansQuiescent | src/org/jlcf/core/dynrec/SingleComponentReconfigurationManager.java:83-133 | the forwarded reply is one of the two, and a success means the component is QUIESCENT |
| SingleComponentReconfiguration.IdleComponentSucceeds | src/org/jlcf/core/dynrec/SingleComponentReconfigurationManager.java:110-133 | an IDLE component yields success, whatever happens next, unless the watchdog's task ran inside `start`'s locked section; then it yields "time elapsed" |
| SingleComponentReconfiguration.BusyComponentDrainsInTime | src/org/jlcf/core/dynrec/SingleComponentReconfigurationManager.java:83-133 | a component with one call in flight yields success if that call returns before the watchdog fires |
| SingleComponentReconfiguration.WatchdogFiresFirst | src/org/jlcf/core/dynrec/SingleComponentReconfigurationManager.java:110-133 | a watchdog firing while calls are pending yields "time elapsed", whatever happens next and whoever holds the lock |
| SingleComponentReconfiguration.LockedOutStandsStill | src/org/jlcf/core/dynrec/ConnectorTimingBasedReconfigurationManager.java:77 | while the processor thread still holds the component lock, no sequence of other threads' steps moves the state manager |
| SingleComponentReconfiguration.LockLeftHeldTimesOut | src/org/jlcf/core/dynrec/SingleComponentReconfigurationManager.java:102-133 | after a refused window left the lock held, a reconfiguration of a component with calls pending yields "time elapsed", whatever the other threads do |
| SingleComponentReconfiguration.AddLong | src/org/jlcf/core/dynrec/SingleComponentReconfigurationManager.java:110 | Java's `long` sum: the sum itself when it is in range; for two non-negative `long`s whose sum passes the largest, that sum less 2^64, a negative value |
| SingleComponentReconfiguration.ScheduleFailure | src/org/jlcf/core/dynrec/SingleComponentReconfigurationManager.java:110 | a negative delay throws "Negative delay."; a non-negative delay whose execution time fits in a `long` is scheduled; one whose execution time passes the largest `long` throws "Illegal execution time." |
| SingleComponentReconfiguration.SingleComponentReconfigurationManager.constructor | src/org/jlcf/core/dynrec/SingleComponentReconfigurationManager.java:65-77 | the fields as given, an empty internal queue and no timer |
| SingleComponentReconfiguration.SingleComponentReconfigurationManager.ReceiveComponentExternalState | src/org/jlcf/core/dynrec/SingleComponentReconfigurationManager.java:80-93 | QUIESCENT cancels the timer and queues the success; every other state is ignored |
| SingleComponentReconfiguration.SingleComponentReconfigurationManager.RunTimerTask | src/org/jlcf/core/dynrec/SingleComponentReconfigurationManager.java:110-119 | a still-scheduled watchdog queues "time elapsed"; a cancelled one does nothing |
| SingleComponentReconfiguration.SingleComponentReconfigurationManager.Dispatch | src/org/jlcf/core/dynrec/SingleComponentReconfigurationManager.java:80-93 | delivering the reports appends exactly `Reported` and cancels the timer exactly when something was queued |
| SingleComponentReconfiguration.SingleComponentReconfigurationManager.OnWaitEvent | src/org/jlcf/core/ComponentProxyHandler.java:100-128 | another thread's step changes the race exactly as `AfterWaitEvent` says, with the lock balanced; a call that finds the lock held by the processor thread changes nothing |
| SingleComponentReconfiguration.SingleComponentReconfigurationManager.Announce | src/org/jlcf/core/dynrec/SingleComponentReconfigurationManager.java:110-126 | after the marking, under the lock: the watchdog is armed, its task possibly running at once, the thread registers and RECONFIGURATION_START is sent, then the lock is released once; the race is then `Started`, locked out exactly when a hold remains |
| SingleComponentReconfiguration.SingleComponentReconfigurationManager.AwaitAll | src/org/jlcf/core/dynrec/SingleComponentReconfigurationManager.java:128-130 | the race after the other threads' steps is `Drain` of it |
| SingleComponentReconfiguration.SingleComponentReconfigurationManager.AwaitReply | src/org/jlcf/core/dynrec/SingleComponentReconfigurationManager.java:128-138 | the one reply forwarded is the interruption failure, or else the first reply queued once the other threads' steps are done; the state manager ends as `Drain` says and the lock ends as it began |
| SingleComponentReconfiguration.SingleComponentReconfigurationManager.Start | src/org/jlcf/core/dynrec/SingleComponentReconfigurationManager.java:96-142 | every gate is marked and takes its call blocker once more. A window the timer refuses makes scheduling throw `ScheduleFailure`'s message after the marking: no reply is forwarded, the state manager is untouched and the component lock stays held. Otherwise exactly one reply is forwarded, the interruption failure or the first queued one (`RaceReply`), and the lock ends as it began |
| ReconfigurationProtocol.CallMatchesInvoke | src/org/jlcf/core/ComponentProxyHandler.java:100-128 | an admitted call and its end send exactly `invoke`'s events, as written and corrected |
| ReconfigurationProtocol.ApplyKeepsAccounted | src/org/jlcf/core/ComponentProxyHandler.java:104-125 | one activity keeps "pending = in flight + thrown" and the state agreeing with it; with FINISHED_CALLING after every body nothing is counted as thrown |
| ReconfigurationProtocol.ReplayKeepsAccounted | src/org/jlcf/core/ComponentProxyHandler.java:104-125 | the same over any run |
| ReconfigurationProtocol.ThrownCallBlocksQuiescence | src/org/jlcf/core/ComponentProxyHandler.java:112-125 | as written: after one call throws, the component is never IDLE or QUIESCENT again |
| ReconfigurationProtocol.DrainedComponentQuiesces | src/org/jlcf/core/dynrec/ComponentProxyReconfigurationManager.java:96-101 | corrected: from any component with no thrown calls (a new one included), pending always equals the calls in flight, so with none in flight a reconfiguring component is QUIESCENT |
| ReconfigurationProtocol.ThrowThenReconfigure | src/org/jlcf/core/ComponentProxyHandler.java:112-125 | after a call threw, a reconfiguration finds the component WAITING as written, QUIESCENT when corrected |
| ReconfigurationProtocol.HoldsAfterRequest | src/org/jlcf/core/JLCFContainerProcessor.java:143-197 | one request takes each call blocker once and gives it back exactly when the component was replaced or the handler releases after every outcome; the count stays or rises by one |
| ReconfigurationProtocol.FailedRequestsKeepBlocker | src/org/jlcf/core/JLCFContainerProcessor.java:163-197 | as written: over any series of requests, each changing the blocker as the handlers state through `HoldsAfterRequest`, every one that does not replace the component leaves it held once more |
| ReconfigurationProtocol.TimeoutStrandsParkedCallers | src/org/jlcf/core/JLCFContainerProcessor.java:183-197 | as written: after a timed-out request the blocker stays held whatever follows |
| ReconfigurationProtocol.ReleasingAlwaysRestoresBlocker | src/org/jlcf/core/JLCFContainerProcessor.java:178-182 | corrected: over any series of requests, each changing the blocker as the handlers state through `HoldsAfterRequest`, releasing after every outcome brings it back to where it was |
| ContainerProcessor.JLCFComponent.constructor | src/org/jlcf/core/JLCFComponent.java:55-62 | the holder keeps the given proxy, receptacles and interfaces |
| ContainerProcessor.CollectConnectors | src/org/jlcf/core/JLCFContainerProcessor.java:143-150 | the list holds each interface's connector exactly once, in some order of the keys; separate gates stay distinct |
| ContainerProcessor.CollectedGates | src/org/jlcf/core/JLCFContainerProcessor.java:143-150 | the listed connectors' gates are exactly the component's gates |
| ContainerProcessor.RetargetConnectors | src/org/jlcf/core/JLCFContainerProcessor.java:229-231 | every connector and its gate point at the new proxy; no gate's reconfiguration fields change |
| ContainerProcessor.ReplacementFailure | src/org/jlcf/core/JLCFContainerProcessor.java:214-274 | the replacement succeeds exactly when instantiation and connection both do; otherwise it fails with the first failure's message |
| ContainerProcessor.SwapIn | src/org/jlcf/core/JLCFContainerProcessor.java:229-234 | the holder has the new proxy and receptacles, every connector forwards to the new proxy, and the gates are untouched |
| ContainerProcessor.ReplaceComponent | src/org/jlcf/core/JLCFContainerProcessor.java:214-274 | a new proxy with a fresh state manager replaces the old one; a reconfigurable one gets the old state once connected; a failed instantiation changes nothing; gates are untouched |
| ContainerProcessor.ListConnectors | src/org/jlcf/core/JLCFContainerProcessor.java:143-150 | every connector of the component is listed, and only those; the listed gates are exactly the component's gates, each once |
| ContainerProcessor.Reconfigure | src/org/jlcf/core/JLCFContainerProcessor.java:143-160 | a window the timer refuses fails with that message, the state manager untouched and the component lock held once more; otherwise the reply is the one `start` forwards and the lock is balanced; either way every gate of the component is marked once more and the component stays wired |
| ContainerProcessor.ResumeComponent | src/org/jlcf/core/JLCFContainerProcessor.java:189-196 | under the lock, RECONFIGURATION_END is sent and the lock ends as it began |
| ContainerProcessor.ReleaseConnectors | src/org/jlcf/core/JLCFContainerProcessor.java:178-182 | every gate of the component is unmarked and releases its call blocker once |
| ContainerProcessor.ReleaseWired | src/org/jlcf/core/JLCFContainerProcessor.java:178-182 | the same for a wired component, which stays wired |
| ContainerProcessor.ReplaceThenRelease | src/org/jlcf/core/JLCFContainerProcessor.java:163-182 | as written: a failed replacement leaves every gate marked and held; a successful one releases them all |
| ContainerProcessor.AfterReplyAsWritten | src/org/jlcf/core/JLCFContainerProcessor.java:163-197 | as written: an exception from `start` is passed on with the proxy untouched and every gate marked and held; a failure reply resumes the old component with the gates still marked and held; a success replaces, then releases |
| ContainerProcessor.ReplaceOrResume | src/org/jlcf/core/JLCFContainerProcessor.java:163-197 | corrected: replace on success; resume the old proxy whenever it is still in place |
| ContainerProcessor.AfterReplyReleasing | src/org/jlcf/core/JLCFContainerProcessor.java:163-197 | corrected: every gate is released whatever the outcome, an exception from `start` included, which is then passed on |
| ContainerProcessor.ReplaceAsWritten | src/org/jlcf/core/JLCFContainerProcessor.java:143-199 | as written, end to end: a refused window fails with the timer's message and leaves the component lock held; the gates end unmarked with the blocker back where it was only after a replacement; after any other outcome, a refused window included, they stay marked and hold it once more |
| ContainerProcessor.ReplaceReleasing | src/org/jlcf/core/JLCFContainerProcessor.java:143-199 | corrected, end to end: the same replies, and every gate ends unmarked with its blocker back where it was, after a refused window too |
| ContainerProcessor.JLCFContainerProcessor.constructor | src/org/jlcf/core/JLCFContainerProcessor.java:64-72 | no components |
| ContainerProcessor.JLCFContainerProcessor.HandleComponentTargetRequest | src/org/jlcf/core/JLCFContainerProcessor.java:285-313 | exactly the empty path resolves to nothing; a path not splitting into two fails as undecodable; any target found is the context manager of some component's interface |
| ContainerProcessor.JLCFContainerProcessor.ResolveTwoPartPath | src/org/jlcf/core/JLCFContainerProcessor.java:293-309 | `c/i` fails naming an unknown component, fails naming the path for an unknown interface, and otherwise gives that interface's context manager |
| ContainerProcessor.JLCFContainerProcessor.HandleComponentReplacementRequest | src/org/jlcf/core/JLCFContainerProcessor.java:132-200 | as written: an unknown component fails before anything is touched; a refused window fails with the timer's message; every gate stays marked exactly when the component was not replaced, and its blocker ends as `HoldsAfterRequest` says without releasing on failure |
| ContainerProcessor.JLCFContainerProcessor.HandleReplacementReleasingConnectors | src/org/jlcf/core/JLCFContainerProcessor.java:132-200 | corrected: the same replies, with every gate unmarked in the end and its blocker as `HoldsAfterRequest` says when releasing after every outcome, which is where it was |
| ContainerProcessor.JLCFContainerProcessor.ProcessEvent | src/org/jlcf/core/JLCFContainerProcessor.java:75-123 | exactly one response for a load, target or replacement request, success or failure, the failure then rethrown; none for any other request. A replacement request runs the handler as written: a refused window, or a failing replacement after a success reply, responds "proessing error" plus the exception's message and is rethrown, and the gates keep their marking and blocker hold unless the component was replaced |
| Receptacles.Interceptor.constructor | src/org/jlcf/core/Interceptor.java:31 | a new interceptor forwards nowhere |
| Receptacles.Interceptor.SetTarget | src/org/jlcf/core/Interceptor.java:52-54 | the target becomes the given one |
| Receptacles.Interceptor.GetTarget | src/org/jlcf/core/Interceptor.java:42-44 | returns the target |
| Receptacles.JLCFReceptacle.constructor | src/org/jlcf/core/JLCFReceptacle.java:60-66 | `hasInterceptors` holds exactly for a non-null, non-empty array; the chain is set up at once, linked when the interceptors are distinct |
| Receptacles.JLCFReceptacle.SetupInterceptors | src/org/jlcf/core/JLCFReceptacle.java:103-116 | each interceptor's last write points it at the next one, and the last one at the context manager; with no interceptors nothing is touched |
| Receptacles.JLCFReceptacle.FollowLinked | src/org/jlcf/core/JLCFReceptacle.java:107-115 | in a linked chain, k hops from interceptor j lead to interceptor j + k, or to the context manager |
| Receptacles.JLCFReceptacle.WalkReachesTarget | src/org/jlcf/core/JLCFReceptacle.java:107-115 | a call reaches the context manager in exactly n hops, passing every interceptor in order |
| Receptacles.JLCFReceptacle.Invoke | src/org/jlcf/core/JLCFReceptacle.java:72-95 | dispatches to the first interceptor if there is one, else to the context manager; the result or exception reaches the caller unwrapped |
| Receptacles.JLCFReceptacle.AddInterceptor | src/org/jlcf/core/JLCFReceptacle.java:121-124 | the chain is unchanged |
| Receptacles.JLCFReceptacle.RemoveInterceptor | src/org/jlcf/core/JLCFReceptacle.java:127-130 | the chain is unchanged |
| FrameworkUtilities.Fields | src/org/jlcf/core/JLCFFrameworkUtilities.java:482 | the pieces between separators: at least one, none holding the separator |
| FrameworkUtilities.DropTrailingEmpty | src/org/jlcf/core/JLCFFrameworkUtilities.java:482 | a prefix of the pieces, ending in a non-empty one, with only empty pieces cut |
| FrameworkUtilities.JavaSplit | src/org/jlcf/core/JLCFFrameworkUtilities.java:482 | no piece holds the separator; a string without it is one piece; otherwise trailing empty pieces are removed, so there is no piece or the last one is non-empty |
| FrameworkUtilities.JoinFields | src/org/jlcf/core/JLCFFrameworkUtilities.java:482 | joining the pieces gives back the string |
| FrameworkUtilities.FieldsOfJoin | src/org/jlcf/core/JLCFFrameworkUtilities.java:482 | splitting a join of separator-free pieces gives them back |
| FrameworkUtilities.SplitOfJoin | src/org/jlcf/core/JLCFFrameworkUtilities.java:482 | the same for Java's split, when the last piece is not empty |
| FrameworkUtilities.SplitPath | src/org/jlcf/core/JLCFFrameworkUtilities.java:482-487 | `a/b` splits into `a` and `b` |
| FrameworkUtilities.SplitExamples | src/org/jlcf/core/JLCFFrameworkUtilities.java:482 | "/b" is ["", "b"], "a//b" keeps the empty middle piece, "ab" is one piece and "" is [""] |
| FrameworkUtilities.TrailingSeparatorSplit | src/org/jlcf/core/JLCFFrameworkUtilities.java:482 | "a/b/" splits into "a" and "b" |
| FrameworkUtilities.LoneSeparatorSplit | src/org/jlcf/core/JLCFFrameworkUtilities.java:482 | "/" splits into no pieces at all |
| FrameworkUtilities.IndexOfInterface | src/org/jlcf/core/JLCFFrameworkUtilities.java:461-466 | the first interface with the name, or none if there is none |
| FrameworkUtilities.IndexOfReceptacle | src/org/jlcf/core/JLCFFrameworkUtilities.java:436-441 | the first receptacle with the name, or none if there is none |
| FrameworkUtilities.FindInterface | src/org/jlcf/core/JLCFFrameworkUtilities.java:457-468 | the first matching (component, interface) position in list order, or none if none exists |
| FrameworkUtilities.FindReceptacle | src/org/jlcf/core/JLCFFrameworkUtilities.java:432-443 | the same for receptacles |
| FrameworkUtilities.GetInterfaceDescription | src/org/jlcf/core/JLCFFrameworkUtilities.java:455-471 | null exactly when no component of that name has that interface; otherwise the first match |
| FrameworkUtilities.GetReceptacleDescription | src/org/jlcf/core/JLCFFrameworkUtilities.java:430-446 | null exactly when no component of that name has that receptacle; otherwise the first match |
| FrameworkUtilities.GetReceptacleType | src/org/jlcf/core/JLCFFrameworkUtilities.java:480-502 | a path that does not split into two pieces cannot be decoded |
| FrameworkUtilities.ReceptacleTypeOfPath | src/org/jlcf/core/JLCFFrameworkUtilities.java:486-501 | for `c/i`, the type of the first matching interface description, or "cannot be mapped" |
| FrameworkUtilities.TrailingSeparatorPath | src/org/jlcf/core/JLCFFrameworkUtilities.java:482-501 | "a/b/" resolves exactly as "a/b" does |
| FrameworkUtilities.SingleNamePath | src/org/jlcf/core/JLCFFrameworkUtilities.java:482-485 | "a" cannot be decoded, and the message quotes it |
| FrameworkUtilities.ParseInt | src/org/jlcf/core/JLCFFrameworkUtilities.java:244 | only a signed or unsigned digit string within 32 bits parses |
| FrameworkUtilities.ParseIntOfDecimal | src/org/jlcf/core/JLCFFrameworkUtilities.java:244 | the decimal text of any 32-bit value, signed or not, parses back to that value; a larger one does not parse |
| FrameworkUtilities.ParseIntRejects | src/org/jlcf/core/JLCFFrameworkUtilities.java:244 | "", "-" and "12a" do not parse |
| FrameworkUtilities.ParseBoolean | src/org/jlcf/core/JLCFFrameworkUtilities.java:250 | only a four-letter text can be true |
| FrameworkUtilities.ParseBooleanExamples | src/org/jlcf/core/JLCFFrameworkUtilities.java:250 | "true" in any case is true; "yes", "1", "" and "truee" are false |
| FrameworkUtilities.PropertyValue | src/org/jlcf/core/JLCFFrameworkUtilities.java:241-253 | a property always gives a value or an error, never nothing |
| FrameworkUtilities.Convert | src/org/jlcf/core/JLCFFrameworkUtilities.java:231-275 | exactly the unrecognised annotations contribute nothing; an absent property fails; a value is never null |
| FrameworkUtilities.ParameterValue | src/org/jlcf/core/JLCFFrameworkUtilities.java:227-279 | a filled slot is never null; the slot fails as not annotated properly exactly when no annotation from here on is recognised and none was before; the first failing annotation otherwise decides |
| FrameworkUtilities.FillSlot | src/org/jlcf/core/JLCFFrameworkUtilities.java:227-279 | the loop over one parameter's annotations computes `ParameterValue` |
| FrameworkUtilities.AllAnnotated | src/org/jlcf/core/JLCFFrameworkUtilities.java:215-220 | true exactly when every parameter has an annotation |
| FrameworkUtilities.GetComponentPojoInstance | src/org/jlcf/core/JLCFFrameworkUtilities.java:195-289 | the arguments built, or the rejection, are `ConstructorArguments` |
| FrameworkUtilities.ConstructorArguments | src/org/jlcf/core/JLCFFrameworkUtilities.java:195-289 | more than one constructor is rejected first, none as no constructor; accepted arguments come from the single constructor, one per parameter, none null |
| FrameworkUtilities.AbsentPropertyFailsSlot | src/org/jlcf/core/JLCFFrameworkUtilities.java:233-237 | an annotation naming an absent property fails its parameter |
| FrameworkUtilities.FailedSlotRejects | src/org/jlcf/core/JLCFFrameworkUtilities.java:224-280 | one failing parameter rejects the constructor |
| FrameworkUtilities.AbsentPropertyRejected | src/org/jlcf/core/JLCFFrameworkUtilities.java:233-237 | a property annotation naming an absent property rejects the implementation |
| FrameworkUtilities.UnrecognisedParameterRejected | src/org/jlcf/core/JLCFFrameworkUtilities.java:215-279 | a parameter with no recognised annotation rejects the implementation, as unannotated when it has none |
| FrameworkUtilities.FilledSlotIsLastRecognised | src/org/jlcf/core/JLCFFrameworkUtilities.java:229-276 | a filled parameter holds the value of its last recognised annotation |
| FrameworkUtilities.AcceptedArgumentsFrom | src/org/jlcf/core/JLCFFrameworkUtilities.java:224-280 | accepted arguments: one per parameter, each from its last recognised annotation |
| FrameworkUtilities.AcceptedArguments | src/org/jlcf/core/JLCFFrameworkUtilities.java:210-286 | accepted arguments come from the single constructor: one per parameter, never null, each from that parameter's last recognised annotation |

## Left out

- Threads, blocking queues and the processor thread (`AbstractQueueProcessor` and the request classes). They are run as one sequential interleaving. A request and its response are values.
- Real blocking:
  - a call parked on the call blocker is one `Block` attempt; the retry is a new attempt;
  - `take()` on the reply queue ends with the next queued reply (the watchdog's, if nothing else came first);
  - an interruption is a boolean parameter.
- `System.currentTimeMillis()`: an integer parameter. `java.util.Timer`: the environment event `TimerFires`.
- Java's `long` and `int` wrap-around in the duration arithmetic and the pending-call counter: the model uses unbounded integers. Overflow would need about 2^31 calls or times near 2^63 ms.
- Reflection and dynamic proxies: `Method.invoke` on the component, `Proxy.newProxyInstance`, the init-method search, `instantiatePOJO` and `Constructor.newInstance`.
  - A call's body is a `BodyOutcome` parameter.
  - The new implementation, or the exception its creation throws, is the `instantiation` parameter. This includes an unknown component description, which ends in a null dereference.
  - The outcome of connecting its receptacles is the `later` parameter.
- `connect` and the receptacle context managers (`ReceptacleContextManager`, `InterfaceContextManager`). They are opaque objects; `setTarget`/`setCallback` on them are not modelled.
- ComponentProxy.ComponentProxyHandler.ReachQuiescentState, ComponentProxy.ComponentProxyHandler.Proceed, ComponentProxy.ComponentProxyHandler.GetInternalState, ComponentProxy.ComponentProxyHandler.SetInternalState: the callbacks of a reconfigurable implementation (`stopAliveThreads`, `proceed`, `extractState`, `insertState`) are assumed not to throw. The Java catches only ClassCastException around them (ComponentProxyHandler.java:153-158, 166-172, 181-186, 192-197), so any other exception propagates, with these effects:
  - from `stopAliveThreads` (SingleComponentReconfigurationManager.java:122), `start` ends with the component lock held, the gates marked and the manager registered as observer, and RECONFIGURATION_START is never sent;
  - from `proceed` (JLCFContainerProcessor.java:192), the component lock stays held, since nothing releases it in a `finally`;
  - from `extractState` (JLCFContainerProcessor.java:168), the replacement and the release of the connectors are both skipped;
  - from `insertState` (JLCFContainerProcessor.java:257), the replacement fails after the swap. The model covers this case only through `LaterPhases.ConnectFails`, which stands for any exception after the retargeting.
- `callInitMethod`: it catches every exception, so it has no effect on the outcome and is not modelled.
- The dynamic proxy object versus its handler: `ConnectorHandler.setTarget` receives both. The model passes the handler for both.
- `handleLoadAppRequest` (XML parsing, instantiation and wiring of a whole application): its failure message is the `loadFailure` parameter of `ProcessEvent`.
- FrameworkUtilities.PropertyValue: a float or double property is kept as its text, so it accepts malformed numeric text that `Float.parseFloat` and `Double.parseDouble` reject with a NumberFormatException (JLCFFrameworkUtilities.java:245-248). Floating-point parsing is not modelled.
- `ParseInt`: accepts only ASCII digits. Java also accepts other Unicode decimal digits.
- `Class.cast` of a receptacle proxy: the model does not check the proxy's type.
- Iteration order of the `connectors` and `components` hash maps: any order of the key set is allowed.
- A `null` interface map on a component: the model assumes every component holder has one.
- `SingleComponentReconfigurationManager.OnWaitEvent`: its `CallAdmitted` event enters through the component lock as a connector does, without the gate's duration test. A parked call is simply absent from `during`.
- Reports sent to observers other than the reconfiguration manager: they are returned, but nobody delivers them.
- FrameworkUtilities.TrailingSeparatorPath: for "a/b/" versus "a/b" it proves equal success and equal types, not equal error messages, since the messages quote the path.
- `JLCFContainer` (a facade over the request queue), its thread-local callback context, and logging.

## Findings

| source | as written | input that shows it | evidently intended | confidence | as-written member | corrected member |
|---|---|---|---|---|---|---|
| src/org/jlcf/core/JLCFContainerProcessor.java:163-197 | The connectors get `setReconfiguring(false, 0)` only after a successful replacement. After a timeout, an interrupted wait, a refused window, or a replacement that throws, every gate stays reconfiguring and its call blocker stays held by the processor thread. Callers parked on it never go on, and a later admission attempt on a QUIESCENT or short-of-time component parks for good. | Replacing a component with one call in flight, within a window that ends before the call returns (`WatchdogFiresFirst`). | The connectors are released on every outcome, so that blocked callers are admitted once the session ends. | not executed | ContainerProcessor.JLCFContainerProcessor.HandleComponentReplacementRequest, ReconfigurationProtocol.TimeoutStrandsParkedCallers | ContainerProcessor.JLCFContainerProcessor.HandleReplacementReleasingConnectors, ContainerProcessor.ReplaceReleasing |
| src/org/jlcf/core/ComponentProxyHandler.java:112-125 | When the component's method throws, `invoke` rethrows before sending FINISHED_CALLING. The pending-call counter keeps that call for good, so the component is never IDLE or QUIESCENT again, and every later reconfiguration of it times out. | One call whose body throws, then a replacement request: the component is WAITING, not QUIESCENT (`ThrowThenReconfigure`). | FINISHED_CALLING is sent after every body, as if from a `finally` block. | not executed | ComponentProxy.ComponentProxyHandler.Invoke, ReconfigurationProtocol.ThrownCallBlocksQuiescence | ComponentProxy.ComponentProxyHandler.InvokeFinally, ReconfigurationProtocol.DrainedComponentQuiesces |

`ProcessEvent` runs the replacement handler as written; the corrected handler is stated beside it. Both versions of `invoke` are kept side by side: the connector and the reconfiguration manager model the code as written, and `ReconfigurationProtocol` states both.
