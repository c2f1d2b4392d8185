/** The framework's processor: it resolves interface paths for receptacles and, on a
    replacement request, runs a reconfiguration of one component and acts on its outcome. */
module ContainerProcessor {
  import opened DynrecTypes
  import opened ComponentProxyReconfiguration
  import opened ComponentProxy
  import opened ConnectorTimingReconfiguration
  import opened Connector
  import opened ConnectorList
  import opened SingleComponentReconfiguration
  import FrameworkUtilities
  import ReconfigurationProtocol

  /** One formal interface of a component: its connector, and its interface context
      manager (what the receptacles of other components are pointed at). */
  datatype InterfaceEntry = InterfaceEntry(connector: ConnectorHandler, contextManager: object)

  /** The holder the processor keeps per component name. */
  class JLCFComponent {
    var componentProxy: ComponentProxyHandler
    var receptacles: map<string, object>
    var connectors: map<string, InterfaceEntry>

    constructor (component: ComponentProxyHandler, rec: map<string, object>, intf: map<string, InterfaceEntry>)
      ensures componentProxy == component && receptacles == rec && connectors == intf
    {
      componentProxy := component;
      receptacles := rec;
      connectors := intf;
    }
  }

  function Gate(e: InterfaceEntry): ConnectorTimingBasedReconfigurationManager
  {
    e.connector.connectorReconfigurationManager
  }

  /** The connectors of an interface map. */
  function ConnectorsOf(connectors: map<string, InterfaceEntry>): set<ConnectorHandler>
  {
    set k | k in connectors :: connectors[k].connector
  }

  /** The admission gates of an interface map. */
  function GatesOf(connectors: map<string, InterfaceEntry>): set<ConnectorTimingBasedReconfigurationManager>
  {
    set k | k in connectors :: Gate(connectors[k])
  }

  /** Every interface has a gate of its own (each connector builds its own). */
  predicate SeparateGates(connectors: map<string, InterfaceEntry>)
  {
    forall k1, k2 :: k1 in connectors && k2 in connectors && k1 != k2 ==> Gate(connectors[k1]) != Gate(connectors[k2])
  }

  /** How a component is wired: separate gates, and every connector forwarding to the
      component's current proxy, its gate asking that same proxy. */
  ghost predicate Wired(c: JLCFComponent)
    reads c, ConnectorsOf(c.connectors), GatesOf(c.connectors)
  {
    && SeparateGates(c.connectors)
    && forall k :: k in c.connectors ==>
         && c.connectors[k].connector.Valid()
         && c.connectors[k].connector.componentProxy == c.componentProxy
  }

  /** Everything a replacement of `c` may change. */
  ghost function Footprint(c: JLCFComponent): set<object>
    reads c, c.componentProxy
  {
    {c, c.componentProxy, c.componentProxy.componentExternalStateManager}
      + ConnectorsOf(c.connectors) + GatesOf(c.connectors)
  }

  /** The reconfiguration fields and duration table of a gate are as they were. */
  twostate predicate GateKept(g: ConnectorTimingBasedReconfigurationManager)
    reads g
  {
    && g.reconfiguring == old(g.reconfiguring) && g.millis == old(g.millis)
    && g.reconfigurationStartTime == old(g.reconfigurationStartTime)
    && g.callBlockerHolds == old(g.callBlockerHolds)
    && g.methodTimes == old(g.methodTimes)
  }

  /** The loop over the key set of the interface map that lists its connectors; the key
      set's iteration order is not specified, so `order` is any order of the keys. */
  method CollectConnectors(connectors: map<string, InterfaceEntry>)
    returns (list: seq<ConnectorHandler>, ghost order: seq<string>)
    ensures |order| == |list|
    ensures forall i :: 0 <= i < |list| ==> order[i] in connectors && list[i] == connectors[order[i]].connector
    ensures forall i, j :: 0 <= i < j < |order| ==> order[i] != order[j]
    ensures forall k :: k in connectors ==> k in order && connectors[k].connector in list
    ensures SeparateGates(connectors) ==> DistinctGates(list)
  {
    var keys := connectors.Keys;
    list := [];
    order := [];
    while keys != {}
      invariant keys <= connectors.Keys
      invariant forall k :: k in connectors ==> (k in keys <==> k !in order)
      invariant |order| == |list|
      invariant forall i :: 0 <= i < |list| ==> order[i] in connectors && list[i] == connectors[order[i]].connector
      invariant forall i, j :: 0 <= i < j < |order| ==> order[i] != order[j]
      decreases keys
    {
      var k :| k in keys;
      list := list + [connectors[k].connector];
      order := order + [k];
      keys := keys - {k};
    }
    forall k | k in connectors
      ensures connectors[k].connector in list
    {
      var i :| 0 <= i < |order| && order[i] == k;
      assert list[i] == connectors[k].connector;
    }
  }

  /** The gates of the collected list are those of the interface map. */
  lemma CollectedGates(connectors: map<string, InterfaceEntry>, list: seq<ConnectorHandler>)
    requires forall c :: c in list ==> c in ConnectorsOf(connectors)
    requires forall k :: k in connectors ==> connectors[k].connector in list
    ensures Gates(list) == GatesOf(connectors)
  {
    forall g | g in Gates(list)
      ensures g in GatesOf(connectors)
    {
      var c :| c in list && c.connectorReconfigurationManager == g;
      var k :| k in connectors && connectors[k].connector == c;
      assert Gate(connectors[k]) == g;
    }
    forall g | g in GatesOf(connectors)
      ensures g in Gates(list)
    {
      var k :| k in connectors && Gate(connectors[k]) == g;
      assert connectors[k].connector in list;
    }
  }

  /** The loop of `replaceComponent` that points every connector of the component, and
      its gate, at the new proxy; nothing else of the gates changes. */
  method RetargetConnectors(connectors: map<string, InterfaceEntry>, target: ComponentProxyHandler)
    modifies ConnectorsOf(connectors), GatesOf(connectors)
    ensures forall k :: k in connectors ==> connectors[k].connector.Valid() && connectors[k].connector.componentProxy == target
    ensures forall k :: k in connectors ==> GateKept(Gate(connectors[k]))
  {
    var keys := connectors.Keys;
    while keys != {}
      invariant keys <= connectors.Keys
      invariant forall k :: k in connectors && k !in keys ==>
        connectors[k].connector.Valid() && connectors[k].connector.componentProxy == target
      invariant forall k :: k in connectors ==> GateKept(Gate(connectors[k]))
      decreases keys
    {
      var k :| k in keys;
      var c := connectors[k].connector;
      label before:
      assert c in ConnectorsOf(connectors) && Gate(connectors[k]) in GatesOf(connectors);
      c.SetTarget(target);
      forall j | j in connectors && j !in keys - {k}
        ensures connectors[j].connector.Valid() && connectors[j].connector.componentProxy == target
      {
        if j != k && connectors[j].connector != c {
          assert connectors[j].connector.componentProxy == old@before(connectors[j].connector.componentProxy);
        }
      }
      keys := keys - {k};
    }
  }

  /** A new implementation as `instantiatePOJO` builds it: whether it is reconfigurable,
      the state it starts with, and its receptacles. */
  datatype Instance = Instance(reconfigurable: bool, pojoState: Option<nat>, receptacles: map<string, object>)

  /** How the steps of `replaceComponent` after the retargeting end: connecting the new
      component's receptacles may throw, and so may the new implementation's `insertState`
      called through `setInternalState`; either way the state is not inserted and the
      replacement fails with the message. Its init method is called with every exception
      caught, so it cannot. */
  datatype LaterPhases = Completed | ConnectFails(message: string)

  /** The message `replaceComponent` fails with, if it fails. */
  function ReplacementFailure(instantiation: Result<Instance>, later: LaterPhases): (r: Option<string>)
    ensures r.None? <==> instantiation.Ok? && later.Completed?
    ensures instantiation.Error? ==> r == Some(instantiation.message)
  {
    match instantiation
    case Error(m) => Some(m)
    case Ok(_) =>
      match later
      case Completed => None
      case ConnectFails(m) => Some(m)
  }

  /** The retargeting loop and the two setters at lines 229-234 of `replaceComponent`. */
  method SwapIn(comp: JLCFComponent, newProxy: ComponentProxyHandler, receptacles: map<string, object>)
    requires SeparateGates(comp.connectors)
    modifies comp`componentProxy, comp`receptacles, ConnectorsOf(comp.connectors), GatesOf(comp.connectors)
    ensures comp.componentProxy == newProxy && comp.receptacles == receptacles && Wired(comp)
    ensures forall k :: k in comp.connectors ==> GateKept(Gate(comp.connectors[k]))
  {
    RetargetConnectors(comp.connectors, newProxy);
    comp.receptacles := receptacles;
    comp.componentProxy := newProxy;
  }

  /** The part of `replaceComponent` this model covers: a new proxy for the new
      implementation (a fresh state manager: IDLE, nothing pending, no observers); every
      connector pointed at it; the holder's proxy and receptacles swapped; the old
      internal state handed to it once its receptacles are connected. */
  method ReplaceComponent(comp: JLCFComponent, internalState: Option<nat>, instantiation: Result<Instance>, later: LaterPhases)
    returns (failure: Option<string>)
    requires Wired(comp)
    modifies comp`componentProxy, comp`receptacles, ConnectorsOf(comp.connectors), GatesOf(comp.connectors)
    ensures failure == ReplacementFailure(instantiation, later)
    ensures Wired(comp)
    ensures forall k :: k in comp.connectors ==> GateKept(Gate(comp.connectors[k]))
    ensures instantiation.Error? ==> comp.componentProxy == old(comp.componentProxy) && comp.receptacles == old(comp.receptacles)
    ensures instantiation.Ok? ==>
      var inst := instantiation.value;
      && fresh(comp.componentProxy) && fresh(comp.componentProxy.componentExternalStateManager)
      && comp.componentProxy.Tracked() == InitialTracker() && comp.componentProxy.lockHolds == 0
      && comp.componentProxy.reconfigurable == inst.reconfigurable
      && comp.receptacles == inst.receptacles
      && comp.componentProxy.pojoState
         == if inst.reconfigurable && !later.ConnectFails? then internalState else inst.pojoState
  {
    if instantiation.Error? {
      return Some(instantiation.message);
    }
    var inst := instantiation.value;
    var newProxy := new ComponentProxyHandler(inst.reconfigurable, inst.pojoState);
    SwapIn(comp, newProxy, inst.receptacles);
    if later.ConnectFails? {
      return Some(later.message);
    }
    newProxy.SetInternalState(internalState);
    failure := None;
  }

  /** Lines 143-150 of the request handler: the component's connectors, each once, their
      gates exactly the component's gates and distinct. */
  method ListConnectors(comp: JLCFComponent) returns (connectorList: seq<ConnectorHandler>)
    requires Wired(comp)
    ensures DistinctGates(connectorList) && Gates(connectorList) == GatesOf(comp.connectors)
    ensures forall c :: c in connectorList ==> c in ConnectorsOf(comp.connectors)
    ensures forall k :: k in comp.connectors ==> comp.connectors[k].connector in connectorList
  {
    ghost var order;
    connectorList, order := CollectConnectors(comp.connectors);
    forall c | c in connectorList
      ensures c in ConnectorsOf(comp.connectors)
    {
      var i :| 0 <= i < |connectorList| && connectorList[i] == c;
      assert order[i] in comp.connectors;
    }
    CollectedGates(comp.connectors, connectorList);
  }

  /** Lines 143-160 of the request handler: list the connectors, call `start` on a
      reconfiguration manager over them (it runs on this thread) and take its one reply. For a
      delay `Timer.schedule` refuses (negative, or past the largest time) `start` throws
      instead, the component lock still held. */
  method Reconfigure(comp: JLCFComponent, millis: int, now: int, timerFirst: bool, during: seq<WaitEvent>, interrupted: bool)
    returns (response: Result<Reply>, connectorList: seq<ConnectorHandler>, ghost observer: object)
    requires Wired(comp)
    modifies comp.componentProxy, comp.componentProxy.componentExternalStateManager, GatesOf(comp.connectors)
    ensures fresh(observer)
    ensures response == if ScheduleFailure(now, millis).Some? then Error(ScheduleFailure(now, millis).value)
                        else Ok(Outcome(old(comp.componentProxy.Tracked()), old(comp.componentProxy.lockHolds) > 0, observer, timerFirst, during, interrupted))
    ensures ScheduleFailure(now, millis).Some? ==>
      && comp.componentProxy.Tracked() == old(comp.componentProxy.Tracked())
      && comp.componentProxy.lockHolds == old(comp.componentProxy.lockHolds) + 1
    ensures ScheduleFailure(now, millis).None? ==>
      && comp.componentProxy.Tracked() == Drained(old(comp.componentProxy.Tracked()), old(comp.componentProxy.lockHolds) > 0, observer, timerFirst, during)
      && comp.componentProxy.lockHolds == old(comp.componentProxy.lockHolds)
    ensures comp.componentProxy.pojoState == old(comp.componentProxy.pojoState)
    ensures DistinctGates(connectorList) && Gates(connectorList) == GatesOf(comp.connectors)
    ensures forall c :: c in connectorList ==> c in ConnectorsOf(comp.connectors)
    ensures forall k :: k in comp.connectors ==> comp.connectors[k].connector in connectorList
    ensures Wired(comp) && ListsConnectors(comp.connectors, connectorList) && Marked(comp.connectors)
    ensures forall k :: k in comp.connectors ==>
      var g := Gate(comp.connectors[k]);
      && g.reconfiguring && g.millis == millis && g.reconfigurationStartTime == now
      && g.callBlockerHolds == old(g.callBlockerHolds) + 1
      && g.methodTimes == old(g.methodTimes)
  {
    var compProxy := comp.componentProxy;
    connectorList := ListConnectors(comp);
    var reconfManager := new SingleComponentReconfigurationManager(compProxy, connectorList, [], millis);
    var thrown := reconfManager.Start(now, timerFirst, during, interrupted);
    observer := reconfManager;
    if thrown.Some? {
      response := Error(thrown.value);
    } else {
      response := Ok(reconfManager.reconfigurationResponseQueue[0]);
    }
    forall k | k in comp.connectors
      ensures comp.connectors[k].connector.Valid()
    {
      assert comp.connectors[k].connector in connectorList;
    }
  }

  /** Lines 189-196: under the component lock, let the old component proceed. */
  method ResumeComponent(compProxy: ComponentProxyHandler)
    modifies compProxy`lockHolds, compProxy`aliveThreadsRunning, compProxy.componentExternalStateManager
    ensures compProxy.Tracked() == Step(old(compProxy.Tracked()), RECONFIGURATION_END)
    ensures compProxy.lockHolds == old(compProxy.lockHolds)
    ensures compProxy.aliveThreadsRunning == (old(compProxy.aliveThreadsRunning) || compProxy.reconfigurable)
  {
    compProxy.Lock();
    compProxy.Proceed();
    compProxy.Unlock();
  }

  /** The lines 178-182: `setReconfiguring(false, 0)` on every listed connector. */
  method ReleaseConnectors(comp: JLCFComponent, connectorList: seq<ConnectorHandler>, now: int)
    requires DistinctGates(connectorList) && Gates(connectorList) == GatesOf(comp.connectors)
    requires forall k :: k in comp.connectors ==> comp.connectors[k].connector in connectorList
    requires forall c :: c in connectorList ==> c.connectorReconfigurationManager.callBlockerHolds > 0
    modifies GatesOf(comp.connectors)
    ensures forall k :: k in comp.connectors ==>
      var g := Gate(comp.connectors[k]);
      && !g.reconfiguring && g.millis == 0
      && g.reconfigurationStartTime == old(g.reconfigurationStartTime)
      && g.callBlockerHolds == old(g.callBlockerHolds) - 1
      && g.methodTimes == old(g.methodTimes)
      && g.componentProxyHandler == old(g.componentProxyHandler)
  {
    SetReconfiguringAll(connectorList, false, 0, now);
  }

  /** The reply `start` forwards, from the component's state `t0` when
      the request arrived. */
  ghost function Outcome(t0: Tracker, lockedOut: bool, observer: object, timerFirst: bool, during: seq<WaitEvent>, interrupted: bool): Reply
  {
    if interrupted then InterruptedReply else RaceReply(t0, lockedOut, observer, timerFirst, during)
  }

  /** The component's state when the wait inside `start` ends, from its state
      `t0` when the request arrived. */
  ghost function Drained(t0: Tracker, lockedOut: bool, observer: object, timerFirst: bool, during: seq<WaitEvent>): Tracker
  {
    Drain(Started(t0, lockedOut, observer, timerFirst), observer, during).tracker
  }

  /** Every gate of `connectors` has the flag `reconfiguring`, its call blocker's hold
      count moved by `delta`, and its duration table as it was. */
  twostate predicate GatesNow(connectors: map<string, InterfaceEntry>, reconfiguring: bool, delta: int)
    reads GatesOf(connectors)
  {
    forall k :: k in connectors ==>
      var g := Gate(connectors[k]);
      && g.reconfiguring == reconfiguring
      && g.callBlockerHolds == old(g.callBlockerHolds) + delta
      && g.methodTimes == old(g.methodTimes)
  }

  /** The outcome of one replacement request, as far as the call blockers are concerned. */
  function Ended(replaced: bool): ReconfigurationProtocol.RequestOutcome
  {
    if replaced then ReconfigurationProtocol.Replaced else ReconfigurationProtocol.NotReplaced
  }

  /** Every gate of `connectors` after one replacement request that ended with `outcome`:
      still reconfiguring exactly when its blocker was not released, its hold count as
      `HoldsAfterRequest` says, its duration table as it was. */
  twostate predicate GatesAfterRequest(connectors: map<string, InterfaceEntry>,
                                       outcome: ReconfigurationProtocol.RequestOutcome, releaseAlways: bool)
    reads GatesOf(connectors)
  {
    forall k :: k in connectors ==>
      var g := Gate(connectors[k]);
      && g.reconfiguring == (outcome == ReconfigurationProtocol.NotReplaced && !releaseAlways)
      && g.callBlockerHolds == ReconfigurationProtocol.HoldsAfterRequest(old(g.callBlockerHolds), outcome, releaseAlways)
      && g.methodTimes == old(g.methodTimes)
  }

  /** What the connector list built for a reconfiguration is: the component's connectors,
      each once, their gates those of the component. */
  predicate ListsConnectors(connectors: map<string, InterfaceEntry>, connectorList: seq<ConnectorHandler>)
  {
    && DistinctGates(connectorList) && Gates(connectorList) == GatesOf(connectors)
    && (forall k :: k in connectors ==> connectors[k].connector in connectorList)
  }

  /** Every gate of the component is reconfiguring, its call blocker held. */
  ghost predicate Marked(connectors: map<string, InterfaceEntry>)
    reads GatesOf(connectors)
  {
    forall k :: k in connectors ==> Gate(connectors[k]).reconfiguring && Gate(connectors[k]).callBlockerHolds > 0
  }

  /** The call blockers of a listed connector are held when those of the component are. */
  lemma ListedGatesHeld(connectors: map<string, InterfaceEntry>, connectorList: seq<ConnectorHandler>)
    requires ListsConnectors(connectors, connectorList) && Marked(connectors)
    ensures forall c :: c in connectorList ==> c.connectorReconfigurationManager.callBlockerHolds > 0
  {
    forall c | c in connectorList
      ensures c.connectorReconfigurationManager.callBlockerHolds > 0
    {
      assert c.connectorReconfigurationManager in Gates(connectorList);
      var k :| k in connectors && Gate(connectors[k]) == c.connectorReconfigurationManager;
    }
  }

  /** The release of a wired component's connectors, which leaves it wired. */
  method ReleaseWired(comp: JLCFComponent, connectorList: seq<ConnectorHandler>, now: int)
    requires Wired(comp) && ListsConnectors(comp.connectors, connectorList) && Marked(comp.connectors)
    modifies GatesOf(comp.connectors)
    ensures Wired(comp) && GatesNow(comp.connectors, false, -1)
  {
    ListedGatesHeld(comp.connectors, connectorList);
    ReleaseConnectors(comp, connectorList, now);
  }

  /** Lines 163-182 as written: take the old state, replace the component and only then,
      if the replacement did not throw, release the connectors. */
  method ReplaceThenRelease(comp: JLCFComponent, connectorList: seq<ConnectorHandler>, now: int,
                            instantiation: Result<Instance>, later: LaterPhases)
    returns (failure: Option<string>)
    requires Wired(comp) && ListsConnectors(comp.connectors, connectorList) && Marked(comp.connectors)
    modifies comp`componentProxy, comp`receptacles, ConnectorsOf(comp.connectors), GatesOf(comp.connectors)
    ensures Wired(comp) && failure == ReplacementFailure(instantiation, later)
    ensures instantiation.Ok? ==> fresh(comp.componentProxy) && comp.componentProxy.Tracked() == InitialTracker()
    ensures failure.Some? ==> GatesNow(comp.connectors, true, 0)
    ensures failure.None? ==> GatesNow(comp.connectors, false, -1)
  {
    var internalState := comp.componentProxy.GetInternalState();
    failure := ReplaceComponent(comp, internalState, instantiation, later);
    if failure.Some? {
      return;
    }
    ReleaseWired(comp, connectorList, now);
  }

  /** Lines 163-197 as written, once `start` has returned or thrown: on success, replace
      and then release the connectors; on a failure reply let the old component proceed
      and leave the connectors as they are. A failing replacement skips the release too,
      and `start`'s exception passes through with nothing done. */
  method AfterReplyAsWritten(comp: JLCFComponent, response: Result<Reply>, connectorList: seq<ConnectorHandler>, now: int,
                             instantiation: Result<Instance>, later: LaterPhases)
    returns (r: Result<Reply>)
    requires Wired(comp) && ListsConnectors(comp.connectors, connectorList) && Marked(comp.connectors)
    modifies comp`componentProxy, comp`receptacles, comp.componentProxy, comp.componentProxy.componentExternalStateManager,
             ConnectorsOf(comp.connectors), GatesOf(comp.connectors)
    ensures Wired(comp)
    ensures old(comp.componentProxy).lockHolds == old(comp.componentProxy.lockHolds)
    ensures response.Error? ==>
      && r == response && comp.componentProxy == old(comp.componentProxy)
      && comp.componentProxy.Tracked() == old(comp.componentProxy.Tracked())
      && GatesNow(comp.connectors, true, 0)
    ensures response.Ok? && !response.value.success ==>
      && r == response && comp.componentProxy == old(comp.componentProxy)
      && comp.componentProxy.Tracked() == Step(old(comp.componentProxy.Tracked()), RECONFIGURATION_END)
      && GatesNow(comp.connectors, true, 0)
    ensures response.Ok? && response.value.success ==>
      var failure := ReplacementFailure(instantiation, later);
      && r == (match failure case Some(m) => Error(m) case None => response)
      && (instantiation.Ok? ==> fresh(comp.componentProxy) && comp.componentProxy.Tracked() == InitialTracker())
      && (failure.Some? ==> GatesNow(comp.connectors, true, 0))
      && (failure.None? ==> GatesNow(comp.connectors, false, -1))
  {
    if response.Error? {
      return response;
    }
    if response.value.success {
      var failure := ReplaceThenRelease(comp, connectorList, now, instantiation, later);
      r := if failure.Some? then Error(failure.value) else response;
    } else {
      ResumeComponent(comp.componentProxy);
      r := response;
    }
  }

  /** The evidently intended handling of the reply, before the release: replace on
      success; let the old component proceed whenever it is still the component's. */
  method ReplaceOrResume(comp: JLCFComponent, response: Reply, instantiation: Result<Instance>, later: LaterPhases)
    returns (failure: Option<string>)
    requires Wired(comp)
    modifies comp`componentProxy, comp`receptacles, comp.componentProxy, comp.componentProxy.componentExternalStateManager,
             ConnectorsOf(comp.connectors), GatesOf(comp.connectors)
    ensures Wired(comp)
    ensures forall k :: k in comp.connectors ==> GateKept(Gate(comp.connectors[k]))
    ensures old(comp.componentProxy).lockHolds == old(comp.componentProxy.lockHolds)
    ensures failure == if response.success then ReplacementFailure(instantiation, later) else None
    ensures !(response.success && instantiation.Ok?) ==>
      && comp.componentProxy == old(comp.componentProxy)
      && comp.componentProxy.Tracked() == Step(old(comp.componentProxy.Tracked()), RECONFIGURATION_END)
    ensures response.success && instantiation.Ok? ==>
      fresh(comp.componentProxy) && comp.componentProxy.Tracked() == InitialTracker()
  {
    var compProxy := comp.componentProxy;
    failure := None;
    if response.success {
      var internalState := compProxy.GetInternalState();
      failure := ReplaceComponent(comp, internalState, instantiation, later);
    }
    if !response.success || instantiation.Error? {
      ResumeComponent(compProxy);
    }
  }

  /** The same steps as evidently intended: the connectors are released whatever the
      outcome, `start`'s exception included, and the old component proceeds whenever a
      reply came and it was not replaced. */
  method AfterReplyReleasing(comp: JLCFComponent, response: Result<Reply>, connectorList: seq<ConnectorHandler>, now: int,
                             instantiation: Result<Instance>, later: LaterPhases)
    returns (r: Result<Reply>)
    requires Wired(comp) && ListsConnectors(comp.connectors, connectorList) && Marked(comp.connectors)
    modifies comp`componentProxy, comp`receptacles, comp.componentProxy, comp.componentProxy.componentExternalStateManager,
             ConnectorsOf(comp.connectors), GatesOf(comp.connectors)
    ensures Wired(comp) && GatesNow(comp.connectors, false, -1)
    ensures old(comp.componentProxy).lockHolds == old(comp.componentProxy.lockHolds)
    ensures response.Error? ==>
      && r == response && comp.componentProxy == old(comp.componentProxy)
      && comp.componentProxy.Tracked() == old(comp.componentProxy.Tracked())
    ensures response.Ok? && !response.value.success ==>
      && r == response && comp.componentProxy == old(comp.componentProxy)
      && comp.componentProxy.Tracked() == Step(old(comp.componentProxy.Tracked()), RECONFIGURATION_END)
    ensures response.Ok? && response.value.success ==>
      var failure := ReplacementFailure(instantiation, later);
      && r == (match failure case Some(m) => Error(m) case None => response)
      && (instantiation.Ok? ==> fresh(comp.componentProxy) && comp.componentProxy.Tracked() == InitialTracker())
      && (instantiation.Error? ==>
            comp.componentProxy.Tracked() == Step(old(comp.componentProxy.Tracked()), RECONFIGURATION_END))
  {
    if response.Error? {
      ReleaseWired(comp, connectorList, now);
      return response;
    }
    var failure := ReplaceOrResume(comp, response.value, instantiation, later);
    ReleaseWired(comp, connectorList, now);
    r := if failure.Some? then Error(failure.value) else response;
  }

  /** `handleComponentReplacementRequest` as written, for a component that exists. Only a
      replacement releases the connectors: after a timeout, an interrupted wait, a failed
      replacement or a refused delay every gate stays reconfiguring, its call blocker
      held once more; a refused delay also leaves the component lock held. */
  method ReplaceAsWritten(comp: JLCFComponent, millis: int, now: int, timerFirst: bool, during: seq<WaitEvent>,
                          interrupted: bool, instantiation: Result<Instance>, later: LaterPhases)
    returns (r: Result<Reply>, ghost observer: object)
    requires Wired(comp)
    modifies comp`componentProxy, comp`receptacles, comp.componentProxy, comp.componentProxy.componentExternalStateManager,
             ConnectorsOf(comp.connectors), GatesOf(comp.connectors)
    ensures comp.connectors == old(comp.connectors) && Wired(comp) && fresh(observer)
    ensures old(comp.componentProxy).lockHolds == old(comp.componentProxy.lockHolds) + (if ScheduleFailure(now, millis).Some? then 1 else 0)
    ensures var reply := Outcome(old(comp.componentProxy.Tracked()), old(comp.componentProxy.lockHolds) > 0, observer, timerFirst, during, interrupted);
      var replaced := ScheduleFailure(now, millis).None? && reply.success && ReplacementFailure(instantiation, later).None?;
      && (ScheduleFailure(now, millis).Some? ==>
            && r == Error(ScheduleFailure(now, millis).value) && comp.componentProxy == old(comp.componentProxy)
            && comp.componentProxy.Tracked() == old(comp.componentProxy.Tracked()))
      && (ScheduleFailure(now, millis).None? && !reply.success ==>
            && r == Ok(reply) && comp.componentProxy == old(comp.componentProxy)
            && comp.componentProxy.Tracked()
               == Step(Drained(old(comp.componentProxy.Tracked()), old(comp.componentProxy.lockHolds) > 0, observer, timerFirst, during), RECONFIGURATION_END))
      && (ScheduleFailure(now, millis).None? && reply.success ==>
            r == match ReplacementFailure(instantiation, later) case Some(m) => Error(m) case None => Ok(reply))
      && (ScheduleFailure(now, millis).None? && reply.success && instantiation.Ok? ==>
            fresh(comp.componentProxy) && comp.componentProxy.Tracked() == InitialTracker())
      && GatesNow(old(comp.connectors), !replaced, if replaced then 0 else 1)
  {
    ghost var failed := ScheduleFailure(now, millis);
    ghost var t0, h0 := comp.componentProxy.Tracked(), comp.componentProxy.lockHolds;
    var response, connectorList;
    response, connectorList, observer := Reconfigure(comp, millis, now, timerFirst, during, interrupted);
    ghost var reply := Outcome(t0, h0 > 0, observer, timerFirst, during, interrupted);
    if response.Error? {
      assert failed.Some? && response == Error(failed.value);
      r := AfterReplyAsWritten(comp, response, connectorList, now, instantiation, later);
    } else {
      assert failed.None? && response == Ok(reply);
      r := AfterReplyAsWritten(comp, response, connectorList, now, instantiation, later);
    }
  }

  /** The corrected handler for a component that exists: every gate ends released,
      whatever the outcome, as if from a `finally` block around lines 153-197. */
  method ReplaceReleasing(comp: JLCFComponent, millis: int, now: int, timerFirst: bool, during: seq<WaitEvent>,
                          interrupted: bool, instantiation: Result<Instance>, later: LaterPhases)
    returns (r: Result<Reply>, ghost observer: object)
    requires Wired(comp)
    modifies comp`componentProxy, comp`receptacles, comp.componentProxy, comp.componentProxy.componentExternalStateManager,
             ConnectorsOf(comp.connectors), GatesOf(comp.connectors)
    ensures comp.connectors == old(comp.connectors)
    ensures Wired(comp) && fresh(observer)
    ensures old(comp.componentProxy).lockHolds == old(comp.componentProxy.lockHolds) + (if ScheduleFailure(now, millis).Some? then 1 else 0)
    ensures ScheduleFailure(now, millis).Some? ==>
      && r == Error(ScheduleFailure(now, millis).value) && comp.componentProxy == old(comp.componentProxy)
      && comp.componentProxy.Tracked() == old(comp.componentProxy.Tracked())
    ensures var reply := Outcome(old(comp.componentProxy.Tracked()), old(comp.componentProxy.lockHolds) > 0, observer, timerFirst, during, interrupted);
      ScheduleFailure(now, millis).None? && !reply.success ==>
      && r == Ok(reply) && comp.componentProxy == old(comp.componentProxy)
      && comp.componentProxy.Tracked() == Step(Drained(old(comp.componentProxy.Tracked()), old(comp.componentProxy.lockHolds) > 0, observer, timerFirst, during), RECONFIGURATION_END)
    ensures var reply := Outcome(old(comp.componentProxy.Tracked()), old(comp.componentProxy.lockHolds) > 0, observer, timerFirst, during, interrupted);
      ScheduleFailure(now, millis).None? && reply.success ==>
      && r == (match ReplacementFailure(instantiation, later) case Some(m) => Error(m) case None => Ok(reply))
      && (instantiation.Ok? ==> fresh(comp.componentProxy) && comp.componentProxy.Tracked() == InitialTracker())
      && (instantiation.Error? ==>
            comp.componentProxy.Tracked() == Step(Drained(old(comp.componentProxy.Tracked()), old(comp.componentProxy.lockHolds) > 0, observer, timerFirst, during), RECONFIGURATION_END))
    ensures GatesNow(old(comp.connectors), false, 0)
  {
    ghost var failed := ScheduleFailure(now, millis);
    ghost var t0, h0 := comp.componentProxy.Tracked(), comp.componentProxy.lockHolds;
    var response, connectorList;
    response, connectorList, observer := Reconfigure(comp, millis, now, timerFirst, during, interrupted);
    label started:
    ghost var reply := Outcome(t0, h0 > 0, observer, timerFirst, during, interrupted);
    if response.Error? {
      assert failed.Some? && response == Error(failed.value);
      r := AfterReplyReleasing(comp, response, connectorList, now, instantiation, later);
    } else {
      assert failed.None? && response == Ok(reply);
      r := AfterReplyReleasing(comp, response, connectorList, now, instantiation, later);
    }
    forall k | k in comp.connectors
      ensures !Gate(comp.connectors[k]).reconfiguring
      ensures Gate(comp.connectors[k]).callBlockerHolds == old(Gate(comp.connectors[k]).callBlockerHolds)
      ensures Gate(comp.connectors[k]).methodTimes == old(Gate(comp.connectors[k]).methodTimes)
    {
      var g := Gate(comp.connectors[k]);
      assert old@started(g.callBlockerHolds) == old(g.callBlockerHolds) + 1;
    }
  }

  /** A request for a component, with what the model takes as given about it: the time
      `now`, what other threads do while the processor thread waits inside `start`, whether that
      wait is interrupted, and how the new implementation is put in place. */
  datatype Environment = Environment(
    loadFailure: Option<string>,
    now: int,
    timerFirst: bool,
    during: seq<WaitEvent>,
    interrupted: bool,
    instantiation: Result<Instance>,
    later: LaterPhases)

  datatype Request =
    | LoadApplication(applicationFile: string)
    | GetTargetReference(path: string)
    | QuisceSingle(targetComponent: string, newComponent: string, millis: int)
    | OtherRequest

  /** What `insertResponse` puts in a request's reply queue. */
  datatype Response =
    | LoadResponse(ok: bool, message: string)
    | TargetResponse(ok: bool, target: Option<object>)
    | ReplacementResponse(reply: Reply)

  class JLCFContainerProcessor {
    var components: map<string, JLCFComponent>

    constructor ()
      ensures components == map[]
    {
      components := map[];
    }

    /** `handleComponentTargetRequest`: the empty path has no target; a path that splits
        into two names is looked up as component and interface; anything else fails. */
    function HandleComponentTargetRequest(targetPath: string): (r: Result<Option<object>>)
      reads this, components.Values
      ensures targetPath == "" <==> r == Ok(None)
      ensures targetPath != "" && |FrameworkUtilities.JavaSplit(targetPath, '/')| != 2 ==>
        r == Error("Path:" + targetPath + " cannot be decoded")
      ensures r.Ok? && r.value.Some? ==>
        exists k :: k in components && r.value.value in (set e | e in components[k].connectors.Values :: e.contextManager)
    {
      if targetPath == "" then Ok(None)
      else
        var path := FrameworkUtilities.JavaSplit(targetPath, '/');
        if |path| != 2 then Error("Path:" + targetPath + " cannot be decoded")
        else if path[0] !in components then Error("cannot find component:" + path[0])
        else
          var compHolder := components[path[0]];
          if path[1] in compHolder.connectors then
            assert compHolder.connectors[path[1]] in compHolder.connectors.Values;
            Ok(Some(compHolder.connectors[path[1]].contextManager))
          else Error("cannot find interface on path:" + targetPath)
    }

    /** A path `component/interface` resolves to that interface's context manager, or
        fails naming the component or the path when either is unknown. */
    lemma ResolveTwoPartPath(component: string, intf: string)
      requires '/' !in component && '/' !in intf && intf != []
      ensures HandleComponentTargetRequest(component + "/" + intf)
           == if component !in components then Error("cannot find component:" + component)
              else if intf !in components[component].connectors
              then Error("cannot find interface on path:" + component + "/" + intf)
              else Ok(Some(components[component].connectors[intf].contextManager))
    {
      FrameworkUtilities.SplitPath(component, intf);
    }

    /** `handleComponentReplacementRequest` as written: an unknown component fails before
        anything is touched; otherwise as `ReplaceAsWritten`. */
    method HandleComponentReplacementRequest(targetComponent: string, millis: int, now: int, timerFirst: bool, during: seq<WaitEvent>,
                                             interrupted: bool, instantiation: Result<Instance>, later: LaterPhases)
      returns (r: Result<Reply>, ghost observer: object)
      requires targetComponent in components ==> Wired(components[targetComponent])
      modifies if targetComponent in components then Footprint(components[targetComponent]) else {}
      ensures targetComponent !in old(components) ==> r == Error("cannot find target component")
      ensures targetComponent in old(components) ==>
        var comp := old(components[targetComponent]);
        var reply := Outcome(old(comp.componentProxy.Tracked()), old(comp.componentProxy.lockHolds) > 0, observer, timerFirst, during, interrupted);
        var replaced := ScheduleFailure(now, millis).None? && reply.success && ReplacementFailure(instantiation, later).None?;
        && Wired(comp) && fresh(observer)
        && (ScheduleFailure(now, millis).Some? ==> r == Error(ScheduleFailure(now, millis).value) && comp.componentProxy == old(comp.componentProxy))
        && (ScheduleFailure(now, millis).None? && !reply.success ==> r == Ok(reply) && comp.componentProxy == old(comp.componentProxy))
        && (ScheduleFailure(now, millis).None? && reply.success ==>
              r == match ReplacementFailure(instantiation, later) case Some(m) => Error(m) case None => Ok(reply))
        && GatesAfterRequest(old(comp.connectors), Ended(replaced), false)
    {
      if targetComponent !in components {
        observer := this;
        return Error("cannot find target component"), observer;
      }
      var holder := components[targetComponent];
      ghost var t0 := holder.componentProxy.Tracked();
      ghost var h0 := holder.componentProxy.lockHolds > 0;
      r, observer := ReplaceAsWritten(holder, millis, now, timerFirst, during, interrupted, instantiation, later);
      ghost var replaced := ScheduleFailure(now, millis).None? && Outcome(t0, h0, observer, timerFirst, during, interrupted).success
                            && ReplacementFailure(instantiation, later).None?;
      forall k | k in holder.connectors
        ensures Gate(holder.connectors[k]).callBlockerHolds
             == ReconfigurationProtocol.HoldsAfterRequest(old(Gate(holder.connectors[k]).callBlockerHolds), Ended(replaced), false)
      {
      }
    }

    /** The handler as evidently intended: every gate ends released, whatever the outcome. */
    method HandleReplacementReleasingConnectors(targetComponent: string, millis: int, now: int, timerFirst: bool, during: seq<WaitEvent>,
                                                interrupted: bool, instantiation: Result<Instance>, later: LaterPhases)
      returns (r: Result<Reply>, ghost observer: object)
      requires targetComponent in components ==> Wired(components[targetComponent])
      modifies if targetComponent in components then Footprint(components[targetComponent]) else {}
      ensures targetComponent !in old(components) ==> r == Error("cannot find target component")
      ensures targetComponent in old(components) ==>
        var comp := old(components[targetComponent]);
        var reply := Outcome(old(comp.componentProxy.Tracked()), old(comp.componentProxy.lockHolds) > 0, observer, timerFirst, during, interrupted);
        var replaced := ScheduleFailure(now, millis).None? && reply.success && ReplacementFailure(instantiation, later).None?;
        && Wired(comp) && fresh(observer)
        && (ScheduleFailure(now, millis).Some? ==> r == Error(ScheduleFailure(now, millis).value) && comp.componentProxy == old(comp.componentProxy))
        && (ScheduleFailure(now, millis).None? && !reply.success ==> r == Ok(reply) && comp.componentProxy == old(comp.componentProxy))
        && (ScheduleFailure(now, millis).None? && reply.success ==>
              r == match ReplacementFailure(instantiation, later) case Some(m) => Error(m) case None => Ok(reply))
        && GatesAfterRequest(old(comp.connectors), Ended(replaced), true)
    {
      if targetComponent !in components {
        observer := this;
        return Error("cannot find target component"), observer;
      }
      var holder := components[targetComponent];
      ghost var t0 := holder.componentProxy.Tracked();
      ghost var h0 := holder.componentProxy.lockHolds > 0;
      r, observer := ReplaceReleasing(holder, millis, now, timerFirst, during, interrupted, instantiation, later);
      ghost var replaced := ScheduleFailure(now, millis).None? && Outcome(t0, h0, observer, timerFirst, during, interrupted).success
                            && ReplacementFailure(instantiation, later).None?;
      forall k | k in holder.connectors
        ensures Gate(holder.connectors[k]).callBlockerHolds
             == ReconfigurationProtocol.HoldsAfterRequest(old(Gate(holder.connectors[k]).callBlockerHolds), Ended(replaced), true)
      {
      }
    }

    /** `processEvent`: one response for each of the three request kinds it handles,
        success or failure (a failure is rethrown after its response is queued), none for
        any other request. A replacement request goes to the handler as written, so the
        gates stay marked after any outcome but a replacement. */
    method ProcessEvent(req: Request, env: Environment)
      returns (responses: seq<Response>, rethrown: bool, ghost observer: object)
      requires req.QuisceSingle? && req.targetComponent in components ==> Wired(components[req.targetComponent])
      modifies if req.QuisceSingle? && req.targetComponent in components then Footprint(components[req.targetComponent]) else {}
      ensures |responses| == if req.OtherRequest? then 0 else 1
      ensures req.OtherRequest? ==> !rethrown
      ensures req.LoadApplication? ==>
        responses == [match env.loadFailure case None => LoadResponse(true, "") case Some(m) => LoadResponse(false, m)]
        && (rethrown <==> env.loadFailure.Some?)
      ensures req.GetTargetReference? ==>
        var t := old(HandleComponentTargetRequest(req.path));
        && responses == [match t case Ok(v) => TargetResponse(true, v) case Error(_) => TargetResponse(false, None)]
        && (rethrown <==> t.Error?)
      ensures req.QuisceSingle? && req.targetComponent !in old(components) ==>
        && responses == [ReplacementResponse(Reply(false, "proessing error" + "cannot find target component"))]
        && rethrown
      ensures req.QuisceSingle? && req.targetComponent in old(components) ==>
        var comp := old(components[req.targetComponent]);
        var reply := Outcome(old(comp.componentProxy.Tracked()), old(comp.componentProxy.lockHolds) > 0, observer, env.timerFirst, env.during, env.interrupted);
        var failure := if ScheduleFailure(env.now, req.millis).Some? then ScheduleFailure(env.now, req.millis)
                       else if reply.success then ReplacementFailure(env.instantiation, env.later) else None;
        && responses == [ReplacementResponse(match failure case None => reply case Some(m) => Reply(false, "proessing error" + m))]
        && (rethrown <==> failure.Some?)
        && GatesAfterRequest(old(comp.connectors), Ended(failure.None? && reply.success), false)
    {
      observer := this;
      match req
      case LoadApplication(_) =>
        match env.loadFailure {
          case None =>
            responses, rethrown := [LoadResponse(true, "")], false;
          case Some(m) =>
            responses, rethrown := [LoadResponse(false, m)], true;
        }
      case GetTargetReference(path) =>
        match HandleComponentTargetRequest(path) {
          case Ok(v) =>
            responses, rethrown := [TargetResponse(true, v)], false;
          case Error(_) =>
            responses, rethrown := [TargetResponse(false, None)], true;
        }
      case QuisceSingle(target, _, millis) =>
        var r;
        r, observer := HandleComponentReplacementRequest(target, millis, env.now, env.timerFirst, env.during, env.interrupted,
                                                         env.instantiation, env.later);
        match r {
          case Ok(reply) =>
            responses, rethrown := [ReplacementResponse(reply)], false;
          case Error(m) =>
            responses, rethrown := [ReplacementResponse(Reply(false, "proessing error" + m))], true;
        }
      case OtherRequest =>
        responses, rethrown := [], false;
    }
  }
}
