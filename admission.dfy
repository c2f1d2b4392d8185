/** The per-interface admission gate: while a reconfiguration is in progress it lets a
    call through or parks it, from the component's state and the last observed duration
    of the called method. */
module ConnectorTimingReconfiguration {
  import opened DynrecTypes
  import opened ComponentProxy

  /** Admit: the call goes on, holding the component lock. Block: the call releases the
      component lock, waits until the reconfiguration releases the call blocker, and then
      starts its admission over. */
  datatype Decision = Admit | Block

  /** Milliseconds of the reconfiguration window still left at `now`. */
  function Remaining(millis: int, now: int, startTime: int): (r: int)
    ensures now == startTime ==> r == millis
    ensures r < millis <==> now > startTime
  {
    millis - (now - startTime)
  }

  /** The decision of one admission attempt, switch by switch as `startCall`. */
  function Decide(reconfiguring: bool, state: ComponentState, lastDuration: Option<int>,
                  millis: int, now: int, startTime: int): (d: Decision)
    ensures !reconfiguring ==> d == Admit
    ensures d == Block <==>
      && reconfiguring
      && (|| state == QUIESCENT
          || (state == WAITING && lastDuration.Some? && lastDuration.value > Remaining(millis, now, startTime)))
  {
    if !reconfiguring then Admit
    else match state
      case IDLE => Admit
      case QUIESCENT => Block
      case WAITING =>
        (match lastDuration
         case None => Admit
         case Some(time) => if time > Remaining(millis, now, startTime) then Block else Admit)
      case WORKING => Admit
  }

  /** A call with a recorded duration that is admitted while the component is WAITING is
      predicted to end no later than the end of the window; a duration exactly equal to
      what is left still fits. */
  lemma AdmittedCallFitsWindow(state: ComponentState, d: int, millis: int, now: int, startTime: int)
    requires state == WAITING
    ensures Decide(true, state, Some(d), millis, now, startTime) == Admit <==> now + d <= startTime + millis
  {
  }

  /** Once a call is blocked in a window, the same call is blocked at every later moment
      of that window, and so is any call whose method took longer. */
  lemma BlockingPersists(state: ComponentState, d: int, d': int, millis: int, now: int, now': int, startTime: int)
    requires Decide(true, state, Some(d), millis, now, startTime) == Block
    requires now <= now' && d <= d'
    ensures Decide(true, state, Some(d'), millis, now', startTime) == Block
  {
  }

  /** With 300 ms of the window left, a method last seen taking 500 ms is parked and one
      taking 100 ms goes in; a method never timed is parked only by a QUIESCENT component. */
  lemma WindowExamples(millis: int, now: int, startTime: int)
    requires Remaining(millis, now, startTime) == 300
    ensures Decide(true, WAITING, Some(500), millis, now, startTime) == Block
    ensures Decide(true, WAITING, Some(100), millis, now, startTime) == Admit
    ensures forall s :: Decide(true, s, None, millis, now, startTime) == Block <==> s == QUIESCENT
  {
  }

  function Lookup(m: map<MethodId, int>, k: MethodId): (r: Option<int>)
    ensures r.Some? <==> k in m
    ensures r.Some? ==> r.value == m[k]
  {
    if k in m then Some(m[k]) else None
  }

  /** The connector's reconfiguration manager. `callBlockerHolds` is the hold count of
      the call blocker lock, held by the processor thread for a reconfiguration window. */
  class ConnectorTimingBasedReconfigurationManager {
    var methodTimes: map<MethodId, int>
    var reconfiguring: bool
    var millis: int
    var reconfigurationStartTime: int
    var componentProxyHandler: ComponentProxyHandler
    var callBlockerHolds: nat

    constructor (componentProxy: ComponentProxyHandler)
      ensures componentProxyHandler == componentProxy
      ensures methodTimes == map[] && !reconfiguring && callBlockerHolds == 0
    {
      componentProxyHandler := componentProxy;
      methodTimes := map[];
      reconfiguring := false;
      millis := 0;
      reconfigurationStartTime := 0;
      callBlockerHolds := 0;
    }

    /** The decision `startCall` takes for method `m` at time `now`. */
    function Admission(m: MethodId, now: int): Decision
      reads this, componentProxyHandler, componentProxyHandler.componentExternalStateManager
    {
      Decide(reconfiguring, componentProxyHandler.Tracked().state, Lookup(methodTimes, m),
             millis, now, reconfigurationStartTime)
    }

    /** One admission attempt of `startCall` at time `now`: take the component lock,
        then either keep it and let the call go (returning the call's start time), or
        release it and park the call on the call blocker. */
    method StartCall(m: MethodId, now: int) returns (d: Decision, callInitTime: int)
      modifies componentProxyHandler`lockHolds
      ensures d == old(Admission(m, now))
      ensures d == Admit ==> componentProxyHandler.lockHolds == old(componentProxyHandler.lockHolds) + 1
      ensures d == Block ==> componentProxyHandler.lockHolds == old(componentProxyHandler.lockHolds)
      ensures d == Admit ==> callInitTime == now
    {
      componentProxyHandler.Lock();
      callInitTime := now;
      if reconfiguring {
        var externalState := componentProxyHandler.GetExternalState();
        match externalState {
          case IDLE =>
          case QUIESCENT =>
            componentProxyHandler.Unlock();
            return Block, callInitTime;
          case WAITING =>
            if m in methodTimes {
              var time := methodTimes[m];
              if time > millis - (now - reconfigurationStartTime) {
                componentProxyHandler.Unlock();
                return Block, callInitTime;
              }
            }
          case WORKING =>
        }
      }
      d := Admit;
    }

    /** Record how long the call that started at `callInitTime` took, replacing the
        previous figure for `m`. */
    method FinishCall(m: MethodId, callInitTime: int, now: int)
      modifies this`methodTimes
      ensures methodTimes == old(methodTimes)[m := now - callInitTime]
    {
      methodTimes := methodTimes[m := now - callInitTime];
    }

    /** Start (take the call blocker, note the window and its start time) or end (release
        the call blocker) a reconfiguration window. Releasing a lock not held is an error
        of the caller. */
    method SetReconfiguring(reconfiguring: bool, millis: int, now: int)
      requires !reconfiguring ==> callBlockerHolds > 0
      modifies this`reconfiguring, this`millis, this`reconfigurationStartTime, this`callBlockerHolds
      ensures this.reconfiguring == reconfiguring && this.millis == millis
      ensures reconfiguring ==> reconfigurationStartTime == now && callBlockerHolds == old(callBlockerHolds) + 1
      ensures !reconfiguring ==> reconfigurationStartTime == old(reconfigurationStartTime)
                                 && callBlockerHolds == old(callBlockerHolds) - 1
    {
      this.reconfiguring := reconfiguring;
      this.millis := millis;
      if reconfiguring {
        reconfigurationStartTime := now;
        callBlockerHolds := callBlockerHolds + 1;
      } else {
        callBlockerHolds := callBlockerHolds - 1;
      }
    }

    method SetComponentProxy(componentProxy: ComponentProxyHandler)
      modifies this`componentProxyHandler
      ensures componentProxyHandler == componentProxy
    {
      componentProxyHandler := componentProxy;
    }
  }
}
