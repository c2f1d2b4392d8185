/** The first wrapper around a component implementation: it reports every call to the
    component's state manager and drives that manager through a reconfiguration. */
module ComponentProxy {
  import opened DynrecTypes
  import opened ComponentProxyReconfiguration

  /** The events `invoke` sends for one call, in order: FINISHED_CALLING only follows a
      body that returned (a throwing body leaves its CALLING unmatched). */
  function InvokeEvents(outcome: BodyOutcome): (es: seq<ComponentStateEvent>)
    ensures |es| >= 1 && es[0] == CALLING
    ensures outcome.Returns? <==> es == [CALLING, FINISHED_CALLING]
    ensures outcome.Throws? <==> es == [CALLING]
  {
    if outcome.Returns? then [CALLING, FINISHED_CALLING] else [CALLING]
  }

  /** A call that returns leaves the pending count where it was; one that throws leaves
      it one higher. */
  lemma InvokeNetCount(t: Tracker, outcome: BodyOutcome)
    ensures Run(t, InvokeEvents(outcome)).pendingCalls
         == if outcome.Returns? then t.pendingCalls else t.pendingCalls + 1
  {
    RunOneOrTwo(t, CALLING, FINISHED_CALLING);
  }

  /** The events `invoke` is evidently meant to send for one call: FINISHED_CALLING
      after the body whatever it did, as if sent from a `finally` block. */
  function InvokeEventsFinally(outcome: BodyOutcome): (es: seq<ComponentStateEvent>)
    ensures es == InvokeEvents(Returns(0))
  {
    [CALLING, FINISHED_CALLING]
  }

  /** With FINISHED_CALLING sent after every body, a call leaves the pending count where
      it was, whether it returned or threw. */
  lemma InvokeFinallyNetCount(t: Tracker, outcome: BodyOutcome)
    ensures Run(t, InvokeEventsFinally(outcome)).pendingCalls == t.pendingCalls
  {
    RunOneOrTwo(t, CALLING, FINISHED_CALLING);
  }

  /** The component proxy handler. `lockHolds` is the hold count of the component's
      reentrant lock, shared with the connectors and the processor thread; the
      implementation object is seen through `reconfigurable` (whether it implements
      IReconfigurableComponent), the state it hands out and takes in, and whether its
      own alive threads run. */
  class ComponentProxyHandler {
    const componentExternalStateManager: ComponentProxyReconfigurationManager
    const reconfigurable: bool
    var lockHolds: nat
    var pojoState: Option<nat>
    var aliveThreadsRunning: bool

    /** The state manager's fields as one value. */
    function Tracked(): Tracker
      reads componentExternalStateManager
    {
      componentExternalStateManager.View()
    }

    /** A new handler owns a new state manager: IDLE, nothing pending, no observers. */
    constructor (reconfigurable: bool, pojoState: Option<nat>)
      ensures fresh(componentExternalStateManager)
      ensures Tracked() == InitialTracker()
      ensures this.reconfigurable == reconfigurable && this.pojoState == pojoState
      ensures lockHolds == 0 && aliveThreadsRunning
    {
      componentExternalStateManager := new ComponentProxyReconfigurationManager();
      this.reconfigurable := reconfigurable;
      this.pojoState := pojoState;
      lockHolds := 0;
      aliveThreadsRunning := true;
    }

    method Lock()
      modifies this`lockHolds
      ensures lockHolds == old(lockHolds) + 1
    {
      lockHolds := lockHolds + 1;
    }

    /** `ReentrantLock.unlock` demands that the caller holds the lock. */
    method Unlock()
      requires lockHolds > 0
      modifies this`lockHolds
      ensures lockHolds == old(lockHolds) - 1
    {
      lockHolds := lockHolds - 1;
    }

    /** First half of `invoke`: with the lock the connector took, record CALLING, then
        release that lock before the body runs. */
    method BeginInvoke() returns (notified: seq<Notification>)
      requires lockHolds > 0
      modifies this`lockHolds, componentExternalStateManager
      ensures Tracked() == Step(old(Tracked()), CALLING)
      ensures notified == Notifications(old(Tracked()), CALLING)
      ensures lockHolds == old(lockHolds) - 1
    {
      notified := componentExternalStateManager.ReceiveEvent(CALLING);
      Unlock();
    }

    /** Second half of `invoke`, once the body is over: a body that threw has its
        exception unwrapped and rethrown with no further event; a body that returned is
        followed by FINISHED_CALLING under the lock, and the lock is released again. */
    method EndInvoke(body: BodyOutcome) returns (result: BodyOutcome, notified: seq<Notification>)
      modifies this`lockHolds, componentExternalStateManager
      ensures result == body
      ensures body.Throws? ==> Tracked() == old(Tracked()) && notified == []
      ensures body.Returns? ==> Tracked() == Step(old(Tracked()), FINISHED_CALLING)
      ensures body.Returns? ==> notified == Notifications(old(Tracked()), FINISHED_CALLING)
      ensures lockHolds == old(lockHolds)
    {
      var reflected := Reflect(body);
      if reflected.Throws? {
        result := Throws(Rethrown(reflected.ex));
        notified := [];
        return;
      }
      Lock();
      notified := componentExternalStateManager.ReceiveEvent(FINISHED_CALLING);
      Unlock();
      result := reflected;
    }

    /** `invoke`: CALLING, release of the connector's lock, the body, then (only if it
        returned) FINISHED_CALLING under the lock. */
    method Invoke(body: BodyOutcome) returns (result: BodyOutcome, notified: seq<Notification>)
      requires lockHolds > 0
      modifies this`lockHolds, componentExternalStateManager
      ensures result == body
      ensures Tracked() == Run(old(Tracked()), InvokeEvents(body))
      ensures notified == RunNotifications(old(Tracked()), InvokeEvents(body))
      ensures lockHolds == old(lockHolds) - 1
    {
      var before := Tracked();
      var first := BeginInvoke();
      var second;
      result, second := EndInvoke(body);
      notified := first + second;
      RunOneOrTwo(before, CALLING, FINISHED_CALLING);
    }

    /** `invoke` with FINISHED_CALLING sent under the lock after every body, the thrown
        exception still reaching the caller unwrapped. */
    method InvokeFinally(body: BodyOutcome) returns (result: BodyOutcome, notified: seq<Notification>)
      requires lockHolds > 0
      modifies this`lockHolds, componentExternalStateManager
      ensures result == body
      ensures Tracked() == Run(old(Tracked()), InvokeEventsFinally(body))
      ensures notified == RunNotifications(old(Tracked()), InvokeEventsFinally(body))
      ensures lockHolds == old(lockHolds) - 1
    {
      var before := Tracked();
      var first := BeginInvoke();
      var second;
      result, second := EndInvoke(Returns(0));
      result := body;
      var reflected := Reflect(body);
      if reflected.Throws? {
        result := Throws(Rethrown(reflected.ex));
      }
      notified := first + second;
      RunOneOrTwo(before, CALLING, FINISHED_CALLING);
    }

    /** Register the observer first, ask a reconfigurable implementation to stop its own
        threads, then send RECONFIGURATION_START, whose reports already reach the new
        observer. */
    method ReachQuiescentState(observer: object) returns (notified: seq<Notification>)
      modifies this`aliveThreadsRunning, componentExternalStateManager
      ensures Tracked() == Step(old(Tracked()).(observers := old(Tracked()).observers + [observer]), RECONFIGURATION_START)
      ensures notified == Notifications(old(Tracked()).(observers := old(Tracked()).observers + [observer]), RECONFIGURATION_START)
      ensures aliveThreadsRunning == (old(aliveThreadsRunning) && !reconfigurable)
    {
      componentExternalStateManager.ObserveState(observer);
      if reconfigurable {
        aliveThreadsRunning := false;
      }
      notified := componentExternalStateManager.ReceiveEvent(RECONFIGURATION_START);
    }

    /** Let a reconfigurable implementation resume its own threads, then send
        RECONFIGURATION_END, which drops every observer and reports to no one. */
    method Proceed()
      modifies this`aliveThreadsRunning, componentExternalStateManager
      ensures Tracked() == Step(old(Tracked()), RECONFIGURATION_END)
      ensures Tracked().observers == []
      ensures aliveThreadsRunning == (old(aliveThreadsRunning) || reconfigurable)
    {
      if reconfigurable {
        aliveThreadsRunning := true;
      }
      var notified := componentExternalStateManager.ReceiveEvent(RECONFIGURATION_END);
      assert notified == [];
    }

    /** The implementation's state, or null when it is not reconfigurable. */
    method GetInternalState() returns (s: Option<nat>)
      ensures s == if reconfigurable then pojoState else None
    {
      if reconfigurable {
        s := pojoState;
      } else {
        s := None;
      }
    }

    /** Hand a state to a reconfigurable implementation; ignored otherwise. */
    method SetInternalState(s: Option<nat>)
      modifies this`pojoState
      ensures pojoState == if reconfigurable then s else old(pojoState)
    {
      if reconfigurable {
        pojoState := s;
      }
    }

    method GetExternalState() returns (s: ComponentState)
      ensures s == Tracked().state
    {
      s := componentExternalStateManager.GetState();
    }
  }
}
