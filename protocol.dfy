/** The reconfiguration engine over whole runs: how the pending-call counter accounts for
    the calls in flight, and how the call blocker's hold count evolves over successive
    replacement requests. Each is given as the code does it and as it is evidently meant. */
module ReconfigurationProtocol {
  import opened DynrecTypes
  import opened ComponentProxyReconfiguration
  import opened ComponentProxy

  // ---------------------------------------------------------------------------
  // Calls in flight and the pending-call counter
  // ---------------------------------------------------------------------------

  /** What happens to a component: a call is admitted (its CALLING is sent), a call in
      flight returns or throws, or a reconfiguration starts or ends. */
  datatype Activity = Enter | Return | Throw | Start | End

  /** A component's state manager together with the number of calls that are running and
      the number that ended by throwing. */
  datatype Sys = Sys(tracker: Tracker, inFlight: nat, thrown: nat)

  /** One activity. A call is not admitted while the component is QUIESCENT (the gate
      parks it). When `finishOnThrow` is false a throwing call sends nothing more, as
      `invoke` does; when true it sends FINISHED_CALLING like a returning one. */
  function Apply(s: Sys, a: Activity, finishOnThrow: bool): Sys
  {
    match a
    case Enter =>
      if s.tracker.state == QUIESCENT then s else Sys(Step(s.tracker, CALLING), s.inFlight + 1, s.thrown)
    case Return =>
      if s.inFlight == 0 then s else Sys(Step(s.tracker, FINISHED_CALLING), s.inFlight - 1, s.thrown)
    case Throw =>
      if s.inFlight == 0 then s
      else if finishOnThrow then Sys(Step(s.tracker, FINISHED_CALLING), s.inFlight - 1, s.thrown)
      else Sys(s.tracker, s.inFlight - 1, s.thrown + 1)
    case Start => s.(tracker := Step(s.tracker, RECONFIGURATION_START))
    case End => s.(tracker := Step(s.tracker, RECONFIGURATION_END))
  }

  function Replay(s: Sys, acts: seq<Activity>, finishOnThrow: bool): Sys
    decreases |acts|
  {
    if acts == [] then s else Replay(Apply(s, acts[0], finishOnThrow), acts[1..], finishOnThrow)
  }

  /** An admitted call followed by its end sends exactly the events of `invoke` (as
      written, or with FINISHED_CALLING after every body). */
  lemma CallMatchesInvoke(s: Sys, v: nat, ex: Throwable)
    requires s.tracker.state != QUIESCENT
    ensures Replay(s, [Enter, Return], false).tracker == Run(s.tracker, InvokeEvents(Returns(v)))
    ensures Replay(s, [Enter, Throw], false).tracker == Run(s.tracker, InvokeEvents(Throws(ex)))
    ensures Replay(s, [Enter, Throw], true).tracker == Run(s.tracker, InvokeEventsFinally(Throws(ex)))
  {
    assert [Enter, Return][1..] == [Return];
    assert [Enter, Throw][1..] == [Throw];
    assert [Return][1..] == [] && [Throw][1..] == [];
    RunOneOrTwo(s.tracker, CALLING, FINISHED_CALLING);
  }

  /** The counter agrees with the state and counts the calls in flight plus those that
      threw. */
  predicate Accounted(s: Sys)
  {
    CountMatchesState(s.tracker) && s.tracker.pendingCalls == s.inFlight + s.thrown
  }

  lemma ApplyKeepsAccounted(s: Sys, a: Activity, finishOnThrow: bool)
    requires Accounted(s)
    ensures Accounted(Apply(s, a, finishOnThrow))
    ensures Apply(s, a, finishOnThrow).thrown >= s.thrown
    ensures finishOnThrow ==> Apply(s, a, finishOnThrow).thrown == s.thrown
  {
    match a
    case Enter =>
      if s.tracker.state != QUIESCENT {
        StepKeepsCountMatchingState(s.tracker, CALLING);
      }
    case Return =>
      if s.inFlight > 0 {
        StepKeepsCountMatchingState(s.tracker, FINISHED_CALLING);
      }
    case Throw =>
      if s.inFlight > 0 && finishOnThrow {
        StepKeepsCountMatchingState(s.tracker, FINISHED_CALLING);
      }
    case Start =>
      StepKeepsCountMatchingState(s.tracker, RECONFIGURATION_START);
    case End =>
      StepKeepsCountMatchingState(s.tracker, RECONFIGURATION_END);
  }

  /** The accounting holds over any run; calls that threw are never forgotten, and none
      are added when FINISHED_CALLING follows every body. */
  lemma {:induction false} ReplayKeepsAccounted(s: Sys, acts: seq<Activity>, finishOnThrow: bool)
    requires Accounted(s)
    ensures Accounted(Replay(s, acts, finishOnThrow))
    ensures Replay(s, acts, finishOnThrow).thrown >= s.thrown
    ensures finishOnThrow ==> Replay(s, acts, finishOnThrow).thrown == s.thrown
    decreases |acts|
  {
    if acts != [] {
      ApplyKeepsAccounted(s, acts[0], finishOnThrow);
      ReplayKeepsAccounted(Apply(s, acts[0], finishOnThrow), acts[1..], finishOnThrow);
    }
  }

  function Fresh(): Sys
  {
    Sys(InitialTracker(), 0, 0)
  }

  /** As written: once a call has thrown, the component is never IDLE or QUIESCENT again,
      whatever happens afterwards, so every later reconfiguration can only time out. */
  lemma ThrownCallBlocksQuiescence(later: seq<Activity>)
    ensures Replay(Fresh(), [Enter, Throw] + later, false).tracker.state != QUIESCENT
    ensures Replay(Fresh(), [Enter, Throw] + later, false).tracker.state != IDLE
  {
    var entered := Apply(Fresh(), Enter, false);
    assert entered == Sys(Tracker(WORKING, 1, []), 1, 0);
    var s := Apply(entered, Throw, false);
    assert s == Sys(Tracker(WORKING, 1, []), 0, 1);
    var acts := [Enter, Throw] + later;
    assert acts[0] == Enter && acts[1..] == [Throw] + later;
    assert ([Throw] + later)[0] == Throw && ([Throw] + later)[1..] == later;
    assert Replay(Fresh(), acts, false) == Replay(s, later, false);
    ReplayKeepsAccounted(s, later, false);
  }

  /** With FINISHED_CALLING after every body, from a new component or any accounted one
      with no thrown calls: the counter is exactly the calls in flight, so when none is in
      flight a component under reconfiguration is QUIESCENT. */
  lemma DrainedComponentQuiesces(s0: Sys, acts: seq<Activity>)
    requires Accounted(s0) && s0.thrown == 0
    ensures var s := Replay(s0, acts, true);
      s.inFlight == 0 && (s.tracker.state == WAITING || s.tracker.state == QUIESCENT) ==> s.tracker.state == QUIESCENT
    ensures Replay(s0, acts, true).tracker.pendingCalls == Replay(s0, acts, true).inFlight
  {
    ReplayKeepsAccounted(s0, acts, true);
  }

  /** The call that throws and the reconfiguration that follows it, both ways. */
  lemma ThrowThenReconfigure()
    ensures Replay(Fresh(), [Enter, Throw, Start], false).tracker.state == WAITING
    ensures Replay(Fresh(), [Enter, Throw, Start], true).tracker.state == QUIESCENT
  {
    var entered := Apply(Fresh(), Enter, false);
    assert entered == Sys(Tracker(WORKING, 1, []), 1, 0);
    var thrown := Apply(entered, Throw, false);
    assert thrown == Sys(Tracker(WORKING, 1, []), 0, 1);
    var finished := Apply(entered, Throw, true);
    assert finished == Sys(Tracker(IDLE, 0, []), 0, 0);
    assert [Enter, Throw, Start][1..] == [Throw, Start];
    assert [Throw, Start][1..] == [Start];
    assert [Start][1..] == [];
    assert Replay(thrown, [Start], false) == Apply(thrown, Start, false);
    assert Replay(finished, [Start], true) == Apply(finished, Start, true);
  }

  // ---------------------------------------------------------------------------
  // The call blocker over successive replacement requests
  // ---------------------------------------------------------------------------

  /** How a replacement request ended: replaced, or not (the watchdog fired, the wait was
      interrupted, or the new implementation could not be put in place). */
  datatype RequestOutcome = Replaced | NotReplaced

  /** One replacement request's effect on a connector's call blocker, held `h` times
      before it: `start` takes the blocker once, and the handler releases it after a
      replacement, or after any outcome when `releaseAlways`. The handlers of the
      processor state their effect on every gate with this function. */
  function HoldsAfterRequest(h: nat, outcome: RequestOutcome, releaseAlways: bool): (r: nat)
    ensures r == h <==> releaseAlways || outcome == Replaced
    ensures h <= r <= h + 1
  {
    if releaseAlways || outcome == Replaced then h else h + 1
  }

  /** The hold count of one connector's call blocker after a series of requests for its
      component, from `h`, each as `HoldsAfterRequest` says. Callers parked on the
      blocker go on only when the count is back to 0. */
  function BlockerHolds(h: nat, outcomes: seq<RequestOutcome>, releaseAlways: bool): nat
    decreases |outcomes|
  {
    if outcomes == [] then h
    else BlockerHolds(HoldsAfterRequest(h, outcomes[0], releaseAlways), outcomes[1..], releaseAlways)
  }

  function Failures(outcomes: seq<RequestOutcome>): nat
    decreases |outcomes|
  {
    if outcomes == [] then 0 else (if outcomes[0] == NotReplaced then 1 else 0) + Failures(outcomes[1..])
  }

  /** As written: every request that does not replace the component leaves the blocker
      held once more, for good; so after one such request parked callers never go on. */
  lemma {:induction false} FailedRequestsKeepBlocker(h: nat, outcomes: seq<RequestOutcome>)
    ensures BlockerHolds(h, outcomes, false) == h + Failures(outcomes)
    decreases |outcomes|
  {
    if outcomes != [] {
      FailedRequestsKeepBlocker(if outcomes[0] == Replaced then h else h + 1, outcomes[1..]);
    }
  }

  /** A timed-out request followed by any number of others leaves the blocker held. */
  lemma TimeoutStrandsParkedCallers(later: seq<RequestOutcome>)
    ensures BlockerHolds(0, [NotReplaced] + later, false) >= 1
  {
    FailedRequestsKeepBlocker(0, [NotReplaced] + later);
  }

  /** Releasing after every outcome brings the blocker back to where it was. */
  lemma {:induction false} ReleasingAlwaysRestoresBlocker(h: nat, outcomes: seq<RequestOutcome>)
    ensures BlockerHolds(h, outcomes, true) == h
    decreases |outcomes|
  {
    if outcomes != [] {
      ReleasingAlwaysRestoresBlocker(h, outcomes[1..]);
    }
  }
}
