/** The second wrapper, one per formal interface of a component: it asks its admission
    gate before forwarding a call to the component proxy, and times the call afterwards. */
module Connector {
  import opened DynrecTypes
  import opened ComponentProxyReconfiguration
  import opened ComponentProxy
  import opened ConnectorTimingReconfiguration

  /** What one attempt to call through a connector produces: the call was parked on the
      call blocker (and will be attempted again), or it ran and returned or threw. */
  datatype CallResult = Parked | Returned(value: nat) | Raised(ex: Throwable)

  class ConnectorHandler {
    var componentProxy: ComponentProxyHandler
    var componentProxyHandler: ComponentProxyHandler
    const connectorReconfigurationManager: ConnectorTimingBasedReconfigurationManager

    /** Calls are forwarded to the same component proxy whose lock the gate takes. */
    ghost predicate Valid()
      reads this, connectorReconfigurationManager
    {
      && componentProxy == componentProxyHandler
      && connectorReconfigurationManager.componentProxyHandler == componentProxyHandler
    }

    constructor (componentProxyInstance: ComponentProxyHandler)
      ensures Valid() && fresh(connectorReconfigurationManager)
      ensures componentProxy == componentProxyInstance
      ensures connectorReconfigurationManager.methodTimes == map[]
      ensures !connectorReconfigurationManager.reconfiguring
      ensures connectorReconfigurationManager.callBlockerHolds == 0
    {
      componentProxy := componentProxyInstance;
      componentProxyHandler := componentProxyInstance;
      connectorReconfigurationManager := new ConnectorTimingBasedReconfigurationManager(componentProxyInstance);
    }

    /** One attempt of `invoke` for method `m`, admitted at `now` and, if it runs, ending
        at `endTime`: admission (which takes the component lock) completes before the call
        is forwarded; the duration is recorded only when the body returned; a thrown
        exception reaches the caller unwrapped. */
    method Invoke(m: MethodId, now: int, body: BodyOutcome, endTime: int)
      returns (r: CallResult, notified: seq<Notification>)
      requires Valid()
      modifies connectorReconfigurationManager`methodTimes, componentProxy`lockHolds,
               componentProxy.componentExternalStateManager
      ensures Valid()
      ensures old(connectorReconfigurationManager.Admission(m, now)) == Block ==>
        && r == Parked && notified == []
        && componentProxy.Tracked() == old(componentProxy.Tracked())
        && connectorReconfigurationManager.methodTimes == old(connectorReconfigurationManager.methodTimes)
      ensures old(connectorReconfigurationManager.Admission(m, now)) == Admit ==>
        && componentProxy.Tracked() == Run(old(componentProxy.Tracked()), InvokeEvents(body))
        && notified == RunNotifications(old(componentProxy.Tracked()), InvokeEvents(body))
        && (body.Returns? ==>
              && r == Returned(body.value)
              && connectorReconfigurationManager.methodTimes
                 == old(connectorReconfigurationManager.methodTimes)[m := endTime - now])
        && (body.Throws? ==>
              && r == Raised(body.ex)
              && connectorReconfigurationManager.methodTimes == old(connectorReconfigurationManager.methodTimes))
      ensures componentProxy.lockHolds == old(componentProxy.lockHolds)
    {
      var d, callInitTime := connectorReconfigurationManager.StartCall(m, now);
      if d == Block {
        return Parked, [];
      }
      var result;
      result, notified := componentProxy.Invoke(body);
      var reflected := Reflect(result);
      if reflected.Throws? {
        return Raised(Rethrown(reflected.ex)), notified;
      }
      connectorReconfigurationManager.FinishCall(m, callInitTime, endTime);
      r := Returned(reflected.value);
    }

    /** Point the connector, and its gate, at a new component proxy. */
    method SetTarget(target: ComponentProxyHandler)
      modifies this`componentProxy, this`componentProxyHandler, connectorReconfigurationManager`componentProxyHandler
      ensures Valid() && componentProxy == target
    {
      componentProxy := target;
      componentProxyHandler := target;
      connectorReconfigurationManager.SetComponentProxy(target);
    }

    /** Pass the reconfiguration flag and window on to the gate unchanged. */
    method SetReconfiguring(reconfiguring: bool, millis: int, now: int)
      requires !reconfiguring ==> connectorReconfigurationManager.callBlockerHolds > 0
      modifies connectorReconfigurationManager`reconfiguring, connectorReconfigurationManager`millis,
               connectorReconfigurationManager`reconfigurationStartTime,
               connectorReconfigurationManager`callBlockerHolds
      ensures connectorReconfigurationManager.reconfiguring == reconfiguring
      ensures connectorReconfigurationManager.millis == millis
      ensures reconfiguring ==> connectorReconfigurationManager.reconfigurationStartTime == now
      ensures !reconfiguring ==> connectorReconfigurationManager.reconfigurationStartTime
                                 == old(connectorReconfigurationManager.reconfigurationStartTime)
      ensures connectorReconfigurationManager.callBlockerHolds
              == if reconfiguring then old(connectorReconfigurationManager.callBlockerHolds) + 1
                 else old(connectorReconfigurationManager.callBlockerHolds) - 1
    {
      connectorReconfigurationManager.SetReconfiguring(reconfiguring, millis, now);
    }
  }
}

/** Marking or unmarking every connector of a component, as `start` and the request
    handler do in their loops over the connector list. */
module ConnectorList {
  import opened Connector
  import opened ConnectorTimingReconfiguration

  /** The gates of a connector list. */
  function Gates(connectors: seq<ConnectorHandler>): set<ConnectorTimingBasedReconfigurationManager>
  {
    set c | c in connectors :: c.connectorReconfigurationManager
  }

  /** No two connectors of the list share a gate (each connector builds its own). */
  predicate DistinctGates(connectors: seq<ConnectorHandler>)
  {
    forall i, j :: 0 <= i < j < |connectors| ==>
      connectors[i].connectorReconfigurationManager != connectors[j].connectorReconfigurationManager
  }

  /** `setReconfiguring(reconfiguring, millis)` on every connector, in list order: each
      gate gets the flag and window, a start time when the window opens, and takes or
      releases its call blocker once; nothing else in the gates changes. */
  method SetReconfiguringAll(connectors: seq<ConnectorHandler>, reconfiguring: bool, millis: int, now: int)
    requires DistinctGates(connectors)
    requires !reconfiguring ==> forall c :: c in connectors ==> c.connectorReconfigurationManager.callBlockerHolds > 0
    modifies Gates(connectors)
    ensures forall c :: c in connectors ==>
      var g := c.connectorReconfigurationManager;
      && g.reconfiguring == reconfiguring && g.millis == millis
      && g.reconfigurationStartTime == (if reconfiguring then now else old(g.reconfigurationStartTime))
      && g.callBlockerHolds == (if reconfiguring then old(g.callBlockerHolds) + 1 else old(g.callBlockerHolds) - 1)
      && g.methodTimes == old(g.methodTimes)
      && g.componentProxyHandler == old(g.componentProxyHandler)
  {
    var i := 0;
    while i < |connectors|
      invariant 0 <= i <= |connectors|
      invariant forall j :: 0 <= j < i ==>
        var g := connectors[j].connectorReconfigurationManager;
        && g.reconfiguring == reconfiguring && g.millis == millis
        && g.reconfigurationStartTime == (if reconfiguring then now else old(g.reconfigurationStartTime))
        && g.callBlockerHolds == (if reconfiguring then old(g.callBlockerHolds) + 1 else old(g.callBlockerHolds) - 1)
        && g.methodTimes == old(g.methodTimes)
        && g.componentProxyHandler == old(g.componentProxyHandler)
      invariant forall j :: i <= j < |connectors| ==>
        var g := connectors[j].connectorReconfigurationManager;
        && g.reconfiguring == old(g.reconfiguring) && g.millis == old(g.millis)
        && g.reconfigurationStartTime == old(g.reconfigurationStartTime)
        && g.callBlockerHolds == old(g.callBlockerHolds)
        && g.methodTimes == old(g.methodTimes)
        && g.componentProxyHandler == old(g.componentProxyHandler)
    {
      connectors[i].SetReconfiguring(reconfiguring, millis, now);
      i := i + 1;
    }
  }
}
