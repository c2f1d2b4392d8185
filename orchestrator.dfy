/** The reconfiguration manager of one component replacement. It extends `Thread` but
    overrides `start`, so everything it does runs on the processor thread that calls
    `start`: it marks the connectors, arms a watchdog, asks the component to become
    quiescent, and forwards the first of two competing replies (quiescence reached, or
    time elapsed) to the processor's reply queue. */
module SingleComponentReconfiguration {
  import opened DynrecTypes
  import opened ComponentProxyReconfiguration
  import opened ComponentProxy
  import opened Connector
  import opened ConnectorList

  /** What other threads do while the processor thread, inside `start`, waits for a reply. */
  datatype WaitEvent =
    | TimerFires    // the watchdog's timer thread runs its task, if it is still scheduled
    | CallAdmitted  // a connector lets a call in (CALLING); a QUIESCENT component blocks it
    | CallReturns   // a call in flight returns (FINISHED_CALLING); only when one is pending
    | CallThrows    // a call in flight throws: no event reaches the state manager

  /** The replies the manager queues for the reports addressed to `me`:
      one per report of QUIESCENT, and nothing for any other state. */
  function Reported(ns: seq<Notification>, me: object): (r: seq<Reply>)
    ensures forall x :: x in r ==> x == QuiescentReply
    ensures r == [] <==> forall i :: 0 <= i < |ns| ==> !(ns[i].observer == me && ns[i].state == QUIESCENT)
    decreases |ns|
  {
    if ns == [] then []
    else
      var here := if ns[0].observer == me && ns[0].state == QUIESCENT then [QuiescentReply] else [];
      assert forall i :: 1 <= i < |ns| ==> ns[1..][i - 1] == ns[i];
      here + Reported(ns[1..], me)
  }

  /** Appending replies in two steps is appending them in one. */
  lemma AppendAssociates(a: seq<Reply>, b: seq<Reply>, c: seq<Reply>)
    ensures (a + b) + c == a + (b + c)
  {
  }

  /** What the race depends on: the component's state manager, the replies queued so far,
      whether the watchdog is still scheduled, and whether the component lock is still
      held by the processor thread once `start` has released its own hold (an earlier
      `start` that threw leaves one behind). A call needs that lock to enter and to report
      its return, so while it is held no call gets through; the timer thread needs no lock. */
  datatype RaceState = Waiting(tracker: Tracker, queue: seq<Reply>, timerScheduled: bool, lockedOut: bool)

  /** Sending `e` to the state manager and delivering its reports to `me`: a report of
      QUIESCENT queues a success and cancels the watchdog. */
  function Deliver(s: RaceState, me: object, e: ComponentStateEvent): (r: RaceState)
    ensures r.tracker == Step(s.tracker, e)
    ensures r.queue == s.queue + Reported(Notifications(s.tracker, e), me)
    ensures r.lockedOut == s.lockedOut
  {
    var replies := Reported(Notifications(s.tracker, e), me);
    s.(tracker := Step(s.tracker, e), queue := s.queue + replies, timerScheduled := s.timerScheduled && replies == [])
  }

  /** The race once `start` has released its hold on the component lock: `me` is the last
      observer and RECONFIGURATION_START has been sent. The watchdog was armed before
      that; when `timerFirst`, the timer thread ran its task in between, which it can do
      without the lock. */
  function Started(t0: Tracker, lockedOut: bool, me: object, timerFirst: bool): (r: RaceState)
    ensures r.queue == [] <==> r.timerScheduled
    ensures r.lockedOut == lockedOut
    ensures timerFirst <==> r.queue != [] && r.queue[0] == TimeElapsedReply
    ensures forall i :: (if timerFirst then 1 else 0) <= i < |r.queue| ==> r.queue[i] == QuiescentReply
  {
    var armed := t0.(observers := t0.observers + [me]);
    var replies := Reported(Notifications(armed, RECONFIGURATION_START), me);
    var early := if timerFirst then [TimeElapsedReply] else [];
    var r := Waiting(Step(armed, RECONFIGURATION_START), early + replies, !timerFirst && replies == [], lockedOut);
    assert forall i :: |early| <= i < |r.queue| ==> r.queue[i] == replies[i - |early|];
    assert forall i :: 0 <= i < |replies| ==> replies[i] == QuiescentReply by {
      forall i | 0 <= i < |replies| ensures replies[i] == QuiescentReply {
        assert replies[i] in replies;
      }
    }
    r
  }

  /** One event of another thread. */
  function AfterWaitEvent(s: RaceState, me: object, e: WaitEvent): (r: RaceState)
    ensures |s.queue| <= |r.queue| && r.queue[..|s.queue|] == s.queue
    ensures forall x :: x in r.queue[|s.queue|..] ==> x == QuiescentReply || x == TimeElapsedReply
    ensures !s.timerScheduled ==> !r.timerScheduled
    ensures r.lockedOut == s.lockedOut
    ensures s.lockedOut ==> r.tracker == s.tracker
    ensures e == CallThrows ==> r == s
  {
    match e
    case TimerFires =>
      if s.timerScheduled then s.(queue := s.queue + [TimeElapsedReply], timerScheduled := false) else s
    case CallAdmitted =>
      if s.lockedOut || s.tracker.state == QUIESCENT then s else Deliver(s, me, CALLING)
    case CallReturns =>
      if !s.lockedOut && s.tracker.pendingCalls >= 1 then Deliver(s, me, FINISHED_CALLING) else s
    case CallThrows => s
  }

  function Drain(s: RaceState, me: object, es: seq<WaitEvent>): (r: RaceState)
    ensures (forall x :: x in s.queue ==> x == QuiescentReply || x == TimeElapsedReply)
            ==> forall x :: x in r.queue ==> x == QuiescentReply || x == TimeElapsedReply
    decreases |es|
  {
    if es == [] then s else Drain(AfterWaitEvent(s, me, es[0]), me, es[1..])
  }

  /** The reply `start` forwards when it is not interrupted: the first one queued; when
      none is queued yet, the watchdog's, which is the next thing to happen. */
  function RaceReply(t0: Tracker, lockedOut: bool, me: object, timerFirst: bool, during: seq<WaitEvent>): (r: Reply)
    ensures r == QuiescentReply || r == TimeElapsedReply
  {
    var s := Drain(Started(t0, lockedOut, me, timerFirst), me, during);
    assert s.queue != [] ==> s.queue[0] in s.queue;
    RaceReplyOf(s)
  }

  /** Replies are only ever appended, and while none is queued the watchdog is still
      scheduled, so the wait inside `start` always ends. */
  lemma {:induction false} QueueOnlyGrows(s: RaceState, me: object, es: seq<WaitEvent>)
    requires s.queue != [] || s.timerScheduled
    ensures Drain(s, me, es).queue != [] || Drain(s, me, es).timerScheduled
    ensures |s.queue| <= |Drain(s, me, es).queue| && Drain(s, me, es).queue[..|s.queue|] == s.queue
    decreases |es|
  {
    if es != [] {
      var s' := AfterWaitEvent(s, me, es[0]);
      QueueOnlyGrows(s', me, es[1..]);
      assert |s.queue| <= |s'.queue| && s'.queue[..|s.queue|] == s.queue;
    }
  }

  /** The state of the race `start` waits in: the counter agrees with the state, the
      component is WAITING or QUIESCENT, every queued reply is one of the two, and a
      success is queued only once the component is QUIESCENT. */
  predicate Racing(s: RaceState)
  {
    && CountMatchesState(s.tracker)
    && (s.tracker.state == WAITING || s.tracker.state == QUIESCENT)
    && (forall x :: x in s.queue ==> x == QuiescentReply || x == TimeElapsedReply)
    && (QuiescentReply in s.queue ==> s.tracker.state == QUIESCENT)
  }

  lemma StartedIsRacing(t0: Tracker, lockedOut: bool, me: object, timerFirst: bool)
    requires CountMatchesState(t0)
    ensures Racing(Started(t0, lockedOut, me, timerFirst))
  {
    var t := t0.(observers := t0.observers + [me]);
    var ns := Notifications(t, RECONFIGURATION_START);
    var r := Started(t0, lockedOut, me, timerFirst);
    if QuiescentReply in r.queue {
      assert Reported(ns, me) != [];
    }
  }

  lemma AfterWaitEventKeepsRacing(s: RaceState, me: object, e: WaitEvent)
    requires Racing(s)
    ensures Racing(AfterWaitEvent(s, me, e))
  {
    match e {
      case TimerFires =>
      case CallThrows =>
      case CallAdmitted =>
        if s.tracker.state != QUIESCENT {
          StepKeepsCountMatchingState(s.tracker, CALLING);
          assert Reported(Notifications(s.tracker, CALLING), me) == [];
        }
      case CallReturns =>
        if s.tracker.pendingCalls >= 1 {
          StepKeepsCountMatchingState(s.tracker, FINISHED_CALLING);
          var ns := Notifications(s.tracker, FINISHED_CALLING);
          if Reported(ns, me) != [] {
            var i :| 0 <= i < |ns| && ns[i].observer == me && ns[i].state == QUIESCENT;
            assert ns[i] in ns;
          }
        }
    }
  }

  lemma {:induction false} DrainKeepsRacing(s: RaceState, me: object, es: seq<WaitEvent>)
    requires Racing(s)
    ensures Racing(Drain(s, me, es))
    decreases |es|
  {
    if es != [] {
      AfterWaitEventKeepsRacing(s, me, es[0]);
      DrainKeepsRacing(AfterWaitEvent(s, me, es[0]), me, es[1..]);
    }
  }

  /** A successful reply means the component is QUIESCENT when the processor acts on it,
      provided its counter agreed with its state when the reconfiguration began. */
  lemma SuccessMeansQuiescent(t0: Tracker, lockedOut: bool, me: object, timerFirst: bool, during: seq<WaitEvent>)
    requires CountMatchesState(t0)
    ensures RaceReply(t0, lockedOut, me, timerFirst, during).success
            ==> Drain(Started(t0, lockedOut, me, timerFirst), me, during).tracker.state == QUIESCENT
    ensures RaceReply(t0, lockedOut, me, timerFirst, during) == QuiescentReply
            || RaceReply(t0, lockedOut, me, timerFirst, during) == TimeElapsedReply
  {
    StartedIsRacing(t0, lockedOut, me, timerFirst);
    DrainKeepsRacing(Started(t0, lockedOut, me, timerFirst), me, during);
    var s := Drain(Started(t0, lockedOut, me, timerFirst), me, during);
    if s.queue != [] {
      assert s.queue[0] in s.queue;
    }
  }

  /** The first reply queued stays first, whatever the other threads do. */
  lemma FirstReplyStays(s: RaceState, me: object, during: seq<WaitEvent>)
    requires s.queue != []
    ensures RaceReplyOf(Drain(s, me, during)) == s.queue[0]
  {
    QueueOnlyGrows(s, me, during);
    assert Drain(s, me, during).queue[..|s.queue|] == s.queue;
  }

  /** The reply `take` returns from a race state. */
  function RaceReplyOf(s: RaceState): Reply
  {
    if s.queue != [] then s.queue[0] else TimeElapsedReply
  }

  /** Scenario: an IDLE component becomes QUIESCENT as the reconfiguration starts, and
      the success is first whatever happens afterwards, unless the watchdog fired inside
      `start`'s locked section, before the announcement. */
  lemma IdleComponentSucceeds(obs: seq<object>, lockedOut: bool, me: object, timerFirst: bool, during: seq<WaitEvent>)
    ensures RaceReply(Tracker(IDLE, 0, obs), lockedOut, me, timerFirst, during)
            == if timerFirst then TimeElapsedReply else QuiescentReply
  {
    var t := Tracker(IDLE, 0, obs + [me]);
    assert Tracker(IDLE, 0, obs).(observers := obs + [me]) == t;
    var ns := Notifications(t, RECONFIGURATION_START);
    assert Step(t, RECONFIGURATION_START).state == QUIESCENT;
    assert |ns| == |obs| + 1;
    assert ns[|obs|].observer == me && ns[|obs|].state == QUIESCENT;
    assert Reported(ns, me) != [];
    var s := Started(Tracker(IDLE, 0, obs), lockedOut, me, timerFirst);
    assert s.queue[0] == if timerFirst then TimeElapsedReply else QuiescentReply by {
      if !timerFirst {
        assert s.queue == Reported(ns, me);
        assert s.queue[0] in s.queue;
      }
    }
    FirstReplyStays(s, me, during);
  }

  /** Scenario: a component busy with one call goes WAITING; when that call returns
      before the watchdog fires, it becomes QUIESCENT and the success is first. */
  lemma BusyComponentDrainsInTime(obs: seq<object>, me: object, rest: seq<WaitEvent>)
    ensures RaceReply(Tracker(WORKING, 1, obs), false, me, false, [CallReturns] + rest) == QuiescentReply
  {
    var t := Tracker(WAITING, 1, obs + [me]);
    var s0 := Started(Tracker(WORKING, 1, obs), false, me, false);
    assert s0 == Waiting(t, [], true, false) by {
      assert forall n :: n in Notifications(Tracker(WORKING, 1, obs + [me]), RECONFIGURATION_START) ==> n.state == WAITING;
    }
    var s1 := AfterWaitEvent(s0, me, CallReturns);
    var ns := Notifications(t, FINISHED_CALLING);
    assert Step(t, FINISHED_CALLING).state == QUIESCENT;
    assert |ns| == |obs| + 1;
    assert ns[|obs|].observer == me && ns[|obs|].state == QUIESCENT;
    assert Reported(ns, me) != [];
    assert s1.queue == Reported(ns, me);
    assert s1.queue[0] in s1.queue;
    assert ([CallReturns] + rest)[1..] == rest;
    FirstReplyStays(s1, me, rest);
  }

  /** Scenario: when the watchdog fires while calls are still pending, the failure is
      first, and a quiescence reached afterwards does not change the reply. */
  lemma WatchdogFiresFirst(obs: seq<object>, n: nat, lockedOut: bool, me: object, rest: seq<WaitEvent>)
    requires n >= 1
    ensures RaceReply(Tracker(WORKING, n, obs), lockedOut, me, false, [TimerFires] + rest) == TimeElapsedReply
  {
    var s0 := Started(Tracker(WORKING, n, obs), lockedOut, me, false);
    assert s0 == Waiting(Tracker(WAITING, n, obs + [me]), [], true, lockedOut) by {
      assert forall x :: x in Notifications(Tracker(WORKING, n, obs + [me]), RECONFIGURATION_START) ==> x.state == WAITING;
    }
    var s1 := AfterWaitEvent(s0, me, TimerFires);
    assert s1.queue == [TimeElapsedReply];
    assert ([TimerFires] + rest)[1..] == rest;
    FirstReplyStays(s1, me, rest);
  }

  /** While the component lock stays held, no call gets through, so the state manager
      does not move. */
  lemma {:induction false} LockedOutStandsStill(s: RaceState, me: object, es: seq<WaitEvent>)
    requires s.lockedOut
    ensures Drain(s, me, es).tracker == s.tracker
    decreases |es|
  {
    if es != [] {
      LockedOutStandsStill(AfterWaitEvent(s, me, es[0]), me, es[1..]);
    }
  }

  /** Scenario: a component with calls in flight, replaced while an earlier `start` has
      left the component lock held, can only time out: the calls cannot report their
      return, whatever the other threads do. */
  lemma LockLeftHeldTimesOut(obs: seq<object>, n: nat, me: object, timerFirst: bool, during: seq<WaitEvent>)
    requires n >= 1
    ensures RaceReply(Tracker(WORKING, n, obs), true, me, timerFirst, during) == TimeElapsedReply
  {
    var t0 := Tracker(WORKING, n, obs);
    var s0 := Started(t0, true, me, timerFirst);
    assert s0.tracker.state == WAITING by {
      assert Step(t0.(observers := obs + [me]), RECONFIGURATION_START).state == WAITING;
    }
    StartedIsRacing(t0, true, me, timerFirst);
    DrainKeepsRacing(s0, me, during);
    LockedOutStandsStill(s0, me, during);
    var s := Drain(s0, me, during);
    if s.queue != [] {
      assert s.queue[0] in s.queue;
    }
  }

  /** The messages of the exceptions `java.util.Timer.schedule(task, delay)` throws: for a
      negative delay, and for an execution time that is negative as a `long`. */
  const NegativeDelay: string := "Negative delay."
  const IllegalExecutionTime: string := "Illegal execution time."

  const LongMin: int := -0x8000_0000_0000_0000
  const LongMax: int := 0x7fff_ffff_ffff_ffff

  /** Java's `long` addition, which wraps around. */
  function AddLong(a: int, b: int): (r: int)
    ensures LongMin <= r <= LongMax
    ensures LongMin <= a + b <= LongMax ==> r == a + b
    ensures 0 <= a <= LongMax && 0 <= b <= LongMax && a + b > LongMax ==> r == a + b - 0x1_0000_0000_0000_0000
  {
    var m := (a + b) % 0x1_0000_0000_0000_0000;
    if m > LongMax then m - 0x1_0000_0000_0000_0000 else m
  }

  /** The exception `java.util.Timer.schedule(task, delay)` throws at time `now`, if any:
      the delay is checked first, then the execution time `now + delay` as a `long`. */
  function ScheduleFailure(now: int, delay: int): (r: Option<string>)
    ensures delay < 0 ==> r == Some(NegativeDelay)
    ensures 0 <= now && 0 <= delay && now + delay <= LongMax ==> r == None
    ensures 0 <= now <= LongMax && 0 <= delay <= LongMax && now + delay > LongMax ==> r == Some(IllegalExecutionTime)
  {
    if delay < 0 then Some(NegativeDelay)
    else if AddLong(now, delay) < 0 then Some(IllegalExecutionTime)
    else None
  }

  class SingleComponentReconfigurationManager {
    const compProxy: ComponentProxyHandler
    const connectorList: seq<ConnectorHandler>
    const millis: int
    var reconfigurationResponseQueue: seq<Reply>
    var reconfigurationThreadQueue: seq<Reply>
    var timerScheduled: bool

    /** The race as one value. Calls are balanced on the component lock and `start`
        releases its own hold before it waits, so a hold left while it waits is the
        processor thread's, from an earlier `start` that threw. */
    function Race(): RaceState
      reads this, compProxy, compProxy.componentExternalStateManager
    {
      Waiting(compProxy.Tracked(), reconfigurationThreadQueue, timerScheduled, compProxy.lockHolds > 0)
    }

    constructor (compProxy: ComponentProxyHandler, connectorList: seq<ConnectorHandler>,
                 reconfigurationResponseQueue: seq<Reply>, millis: int)
      ensures this.compProxy == compProxy && this.connectorList == connectorList && this.millis == millis
      ensures this.reconfigurationResponseQueue == reconfigurationResponseQueue
      ensures reconfigurationThreadQueue == [] && !timerScheduled
    {
      this.compProxy := compProxy;
      this.connectorList := connectorList;
      this.reconfigurationResponseQueue := reconfigurationResponseQueue;
      this.millis := millis;
      reconfigurationThreadQueue := [];
      timerScheduled := false;
    }

    /** A state report: QUIESCENT cancels the watchdog and queues a success; any other
        state is ignored. */
    method ReceiveComponentExternalState(s: ComponentState)
      modifies this`reconfigurationThreadQueue, this`timerScheduled
      ensures s == QUIESCENT ==> reconfigurationThreadQueue == old(reconfigurationThreadQueue) + [QuiescentReply] && !timerScheduled
      ensures s != QUIESCENT ==> reconfigurationThreadQueue == old(reconfigurationThreadQueue) && timerScheduled == old(timerScheduled)
    {
      if s == QUIESCENT {
        timerScheduled := false;
        reconfigurationThreadQueue := reconfigurationThreadQueue + [QuiescentReply];
      }
    }

    /** The watchdog's task, run by the timer thread unless cancelled first. */
    method RunTimerTask()
      modifies this`reconfigurationThreadQueue, this`timerScheduled
      ensures Race() == AfterWaitEvent(old(Race()), this, TimerFires)
    {
      if timerScheduled {
        reconfigurationThreadQueue := reconfigurationThreadQueue + [TimeElapsedReply];
        timerScheduled := false;
      }
    }

    /** Deliver the reports the state manager sent that are addressed to this manager. */
    method Dispatch(notified: seq<Notification>)
      modifies this`reconfigurationThreadQueue, this`timerScheduled
      ensures reconfigurationThreadQueue == old(reconfigurationThreadQueue) + Reported(notified, this)
      ensures timerScheduled == (old(timerScheduled) && Reported(notified, this) == [])
    {
      var i := 0;
      while i < |notified|
        invariant 0 <= i <= |notified|
        invariant reconfigurationThreadQueue + Reported(notified[i..], this)
               == old(reconfigurationThreadQueue) + Reported(notified, this)
        invariant (timerScheduled && Reported(notified[i..], this) == [])
               == (old(timerScheduled) && Reported(notified, this) == [])
      {
        assert notified[i..][1..] == notified[i + 1..];
        ghost var queued := reconfigurationThreadQueue;
        ghost var here := if notified[i].observer == this && notified[i].state == QUIESCENT then [QuiescentReply] else [];
        assert Reported(notified[i..], this) == here + Reported(notified[i + 1..], this);
        if notified[i].observer == this {
          ReceiveComponentExternalState(notified[i].state);
        }
        assert reconfigurationThreadQueue == queued + here;
        AppendAssociates(queued, here, Reported(notified[i + 1..], this));
        i := i + 1;
      }
      assert notified[i..] == [];
    }

    /** One event of another thread while the processor thread waits inside `start`; calls go through the component
        lock exactly as `invoke` does, and while another thread holds that lock a call
        stays blocked in `lock()` and changes nothing. */
    method OnWaitEvent(e: WaitEvent)
      modifies this`reconfigurationThreadQueue, this`timerScheduled, compProxy`lockHolds,
               compProxy.componentExternalStateManager
      ensures Race() == AfterWaitEvent(old(Race()), this, e)
      ensures compProxy.lockHolds == old(compProxy.lockHolds)
    {
      match e
      case TimerFires =>
        RunTimerTask();
      case CallAdmitted =>
        if compProxy.lockHolds == 0 {
          compProxy.Lock();
          var state := compProxy.GetExternalState();
          if state == QUIESCENT {
            compProxy.Unlock();
          } else {
            var notified := compProxy.BeginInvoke();
            Dispatch(notified);
          }
        }
      case CallReturns =>
        if compProxy.lockHolds == 0 && compProxy.Tracked().pendingCalls >= 1 {
          var result, notified := compProxy.EndInvoke(Returns(0));
          Dispatch(notified);
        }
      case CallThrows =>
    }

    /** The rest of `start`'s locked part, once the connectors are marked: arm the
        watchdog, register for reports and send RECONFIGURATION_START; then release the
        lock. When `timerFirst`, the timer thread runs the watchdog's task right after it
        is armed. */
    method Announce(timerFirst: bool)
      requires compProxy.lockHolds > 0
      requires reconfigurationThreadQueue == [] && !timerScheduled
      modifies this`reconfigurationThreadQueue, this`timerScheduled,
               compProxy`lockHolds, compProxy`aliveThreadsRunning, compProxy.componentExternalStateManager
      ensures Race() == Started(old(compProxy.Tracked()), old(compProxy.lockHolds) > 1, this, timerFirst)
      ensures compProxy.lockHolds == old(compProxy.lockHolds) - 1
      ensures compProxy.aliveThreadsRunning == (old(compProxy.aliveThreadsRunning) && !compProxy.reconfigurable)
    {
      timerScheduled := true;
      if timerFirst {
        RunTimerTask();
      }
      var notified := compProxy.ReachQuiescentState(this);
      Dispatch(notified);
      compProxy.Unlock();
      assert [] + Reported(notified, this) == Reported(notified, this);
    }

    /** What other threads do, event by event, while the processor thread waits inside `start`. */
    method AwaitAll(during: seq<WaitEvent>)
      modifies this`reconfigurationThreadQueue, this`timerScheduled, compProxy`lockHolds,
               compProxy.componentExternalStateManager
      ensures Race() == Drain(old(Race()), this, during)
      ensures compProxy.lockHolds == old(compProxy.lockHolds)
    {
      var i := 0;
      while i < |during|
        invariant 0 <= i <= |during|
        invariant Drain(Race(), this, during[i..]) == Drain(old(Race()), this, during)
        invariant compProxy.lockHolds == old(compProxy.lockHolds)
      {
        assert during[i..][1..] == during[i + 1..];
        OnWaitEvent(during[i]);
        i := i + 1;
      }
      assert during[i..] == [];
    }

    /** `start`, run on the processor thread: under the component lock every connector
        is marked; then the watchdog is scheduled, which throws for a negative delay or an
        execution time past the `long` range and leaves the lock held. Otherwise the
        locked announcement (with the watchdog possibly firing inside it), then `during`
        on other threads, then the first reply (or a failure if interrupted) is taken and
        forwarded. */
    method Start(now: int, timerFirst: bool, during: seq<WaitEvent>, interrupted: bool) returns (thrown: Option<string>)
      requires DistinctGates(connectorList)
      requires reconfigurationThreadQueue == [] && !timerScheduled
      modifies this`reconfigurationThreadQueue, this`timerScheduled, this`reconfigurationResponseQueue,
               compProxy`lockHolds, compProxy`aliveThreadsRunning, compProxy.componentExternalStateManager,
               Gates(connectorList)
      ensures thrown == ScheduleFailure(now, millis)
      ensures thrown.Some? ==>
        && reconfigurationResponseQueue == old(reconfigurationResponseQueue)
        && compProxy.Tracked() == old(compProxy.Tracked())
        && compProxy.lockHolds == old(compProxy.lockHolds) + 1
        && compProxy.aliveThreadsRunning == old(compProxy.aliveThreadsRunning)
      ensures thrown.None? ==>
        var started := Started(old(compProxy.Tracked()), old(compProxy.lockHolds) > 0, this, timerFirst);
        && reconfigurationResponseQueue == old(reconfigurationResponseQueue)
             + [if interrupted then InterruptedReply
                else RaceReply(old(compProxy.Tracked()), old(compProxy.lockHolds) > 0, this, timerFirst, during)]
        && compProxy.Tracked() == Drain(started, this, during).tracker
        && compProxy.lockHolds == old(compProxy.lockHolds)
        && compProxy.aliveThreadsRunning == (old(compProxy.aliveThreadsRunning) && !compProxy.reconfigurable)
      ensures forall c :: c in connectorList ==>
        var g := c.connectorReconfigurationManager;
        && g.reconfiguring && g.millis == millis && g.reconfigurationStartTime == now
        && g.callBlockerHolds == old(g.callBlockerHolds) + 1
        && g.methodTimes == old(g.methodTimes)
        && g.componentProxyHandler == old(g.componentProxyHandler)
    {
      ghost var t0 := compProxy.Tracked();
      compProxy.Lock();
      SetReconfiguringAll(connectorList, true, millis, now);
      thrown := ScheduleFailure(now, millis);
      if thrown.Some? {
        return;
      }
      Announce(timerFirst);
      AwaitReply(during, interrupted);
    }

    /** Lines 128-138: wait, while other threads act, for the first reply or for an
        interruption, and put it in the processor's reply queue. */
    method AwaitReply(during: seq<WaitEvent>, interrupted: bool)
      requires reconfigurationThreadQueue != [] || timerScheduled
      modifies this`reconfigurationThreadQueue, this`timerScheduled, this`reconfigurationResponseQueue,
               compProxy`lockHolds, compProxy.componentExternalStateManager
      ensures reconfigurationResponseQueue == old(reconfigurationResponseQueue)
        + [if interrupted then InterruptedReply else RaceReplyOf(Drain(old(Race()), this, during))]
      ensures compProxy.Tracked() == Drain(old(Race()), this, during).tracker
      ensures compProxy.lockHolds == old(compProxy.lockHolds)
    {
      QueueOnlyGrows(Race(), this, during);
      AwaitAll(during);
      if interrupted {
        reconfigurationResponseQueue := reconfigurationResponseQueue + [InterruptedReply];
        return;
      }
      if reconfigurationThreadQueue == [] {
        RunTimerTask();
      }
      var reply := reconfigurationThreadQueue[0];
      reconfigurationThreadQueue := reconfigurationThreadQueue[1..];
      reconfigurationResponseQueue := reconfigurationResponseQueue + [reply];
    }
  }
}
