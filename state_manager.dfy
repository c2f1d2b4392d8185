/** The per-component quiescence state machine: a state, a pending-call counter and a
    list of observers that are told about state changes. */
module ComponentProxyReconfiguration {
  import opened DynrecTypes

  /** A state change report `observer.receiveComponentExternalState(state)`. */
  datatype Notification = Notification(observer: object, state: ComponentState)

  /** The value held by a manager: its three fields. */
  datatype Tracker = Tracker(state: ComponentState, pendingCalls: int, observers: seq<object>)

  /** The state of a freshly constructed manager. */
  function InitialTracker(): (t: Tracker)
    ensures t.state == IDLE && t.pendingCalls == 0 && t.observers == []
  {
    Tracker(IDLE, 0, [])
  }

  /** The transition table as a relation: `from --e--> to` is a move, where `countAfter`
      is the pending-call count once the event's own increment or decrement is applied.
      Every pair not listed here leaves the state where it is. */
  predicate Moves(from: ComponentState, e: ComponentStateEvent, countAfter: int, to: ComponentState)
  {
    || (from == IDLE && e == CALLING && to == WORKING)
    || (from == WORKING && e == FINISHED_CALLING && countAfter == 0 && to == IDLE)
    || (from == WAITING && e == FINISHED_CALLING && countAfter == 0 && to == QUIESCENT)
    || (from == IDLE && e == RECONFIGURATION_START && to == QUIESCENT)
    || (from == WORKING && e == RECONFIGURATION_START && to == WAITING)
    || (from == QUIESCENT && e == RECONFIGURATION_END && to == IDLE)
    || (from == WAITING && e == RECONFIGURATION_END && to == WORKING)
  }

  /** The effect of one event on the manager's fields, switch by switch as `receiveEvent`. */
  function Step(t: Tracker, e: ComponentStateEvent): (r: Tracker)
    // the counter moves by exactly one on CALLING and FINISHED_CALLING, whatever the state
    ensures e == CALLING ==> r.pendingCalls == t.pendingCalls + 1
    ensures e == FINISHED_CALLING ==> r.pendingCalls == t.pendingCalls - 1
    ensures e == RECONFIGURATION_START || e == RECONFIGURATION_END ==> r.pendingCalls == t.pendingCalls
    // the state changes exactly along the table
    ensures r.state != t.state ==> Moves(t.state, e, r.pendingCalls, r.state)
    ensures forall to :: Moves(t.state, e, r.pendingCalls, to) ==> r.state == to
    // only RECONFIGURATION_END touches the observers, and it empties them
    ensures e == RECONFIGURATION_END ==> r.observers == []
    ensures e != RECONFIGURATION_END ==> r.observers == t.observers
  {
    match e
    case CALLING =>
      var s := match t.state
        case IDLE => WORKING
        case QUIESCENT => QUIESCENT
        case WAITING => WAITING
        case WORKING => WORKING;
      Tracker(s, t.pendingCalls + 1, t.observers)
    case FINISHED_CALLING =>
      var n := t.pendingCalls - 1;
      var s := match t.state
        case IDLE => IDLE
        case QUIESCENT => QUIESCENT
        case WAITING => if n == 0 then QUIESCENT else WAITING
        case WORKING => if n == 0 then IDLE else WORKING;
      Tracker(s, n, t.observers)
    case RECONFIGURATION_START =>
      var s := match t.state
        case IDLE => QUIESCENT
        case QUIESCENT => QUIESCENT
        case WAITING => WAITING
        case WORKING => WAITING;
      Tracker(s, t.pendingCalls, t.observers)
    case RECONFIGURATION_END =>
      var s := match t.state
        case IDLE => IDLE
        case QUIESCENT => IDLE
        case WAITING => WORKING
        case WORKING => WORKING;
      Tracker(s, t.pendingCalls, [])
  }

  /** The reports sent while processing `e`: one per observer still registered after
      the event, in list order, each carrying the new state; none when the state stays. */
  function Notifications(t: Tracker, e: ComponentStateEvent): (r: seq<Notification>)
    ensures r != [] ==> Step(t, e).state != t.state
    ensures Step(t, e).state != t.state ==> |r| == |Step(t, e).observers|
    ensures forall i :: 0 <= i < |r| ==> r[i].observer == Step(t, e).observers[i]
    ensures forall n :: n in r ==> n.state == Step(t, e).state
    ensures e == RECONFIGURATION_END ==> r == []
  {
    var next := Step(t, e);
    if next.state != t.state then
      seq(|next.observers|, i requires 0 <= i < |next.observers| => Notification(next.observers[i], next.state))
    else
      []
  }

  /** RECONFIGURATION_END empties the list before the reports go out, so an END
      transition, even QUIESCENT to IDLE, is reported to no one. */
  lemma EndIsNeverReported(t: Tracker)
    requires t.observers != []
    requires t.state == QUIESCENT || t.state == WAITING
    ensures Step(t, RECONFIGURATION_END).state != t.state
    ensures Notifications(t, RECONFIGURATION_END) == []
  {
  }

  /** Pairs the source's own comments call invalid still move the counter. */
  lemma CounterMovesInInvalidStates(obs: seq<object>)
    ensures Step(Tracker(IDLE, 0, obs), FINISHED_CALLING) == Tracker(IDLE, -1, obs)
    ensures Step(Tracker(QUIESCENT, 0, obs), CALLING) == Tracker(QUIESCENT, 1, obs)
  {
  }

  /** The counter agrees with the state: none pending when IDLE or QUIESCENT, some
      pending when WORKING or WAITING. */
  predicate CountMatchesState(t: Tracker)
  {
    && (t.state == IDLE || t.state == QUIESCENT ==> t.pendingCalls == 0)
    && (t.state == WORKING || t.state == WAITING ==> t.pendingCalls >= 1)
  }

  /** What the senders are meant to respect: FINISHED_CALLING only with a call pending,
      CALLING never in QUIESCENT. */
  predicate Expected(t: Tracker, e: ComponentStateEvent)
  {
    && (e == FINISHED_CALLING ==> t.pendingCalls >= 1)
    && (e == CALLING ==> t.state != QUIESCENT)
  }

  lemma StepKeepsCountMatchingState(t: Tracker, e: ComponentStateEvent)
    requires CountMatchesState(t) && Expected(t, e)
    ensures CountMatchesState(Step(t, e))
  {
  }

  /** The manager after a sequence of events. */
  function Run(t: Tracker, es: seq<ComponentStateEvent>): Tracker
    decreases |es|
  {
    if es == [] then t else Run(Step(t, es[0]), es[1..])
  }

  /** All reports sent during a sequence of events, in order. */
  function RunNotifications(t: Tracker, es: seq<ComponentStateEvent>): seq<Notification>
    decreases |es|
  {
    if es == [] then [] else Notifications(t, es[0]) + RunNotifications(Step(t, es[0]), es[1..])
  }

  lemma RunOneOrTwo(t: Tracker, a: ComponentStateEvent, b: ComponentStateEvent)
    ensures Run(t, [a]) == Step(t, a) && RunNotifications(t, [a]) == Notifications(t, a)
    ensures Run(t, [a, b]) == Step(Step(t, a), b)
    ensures RunNotifications(t, [a, b]) == Notifications(t, a) + Notifications(Step(t, a), b)
  {
    assert [a][1..] == [];
    assert [b][1..] == [];
    assert [a, b][1..] == [b];
    assert Run(Step(t, a), [b]) == Step(Step(t, a), b);
    assert RunNotifications(Step(t, a), [b]) == Notifications(Step(t, a), b);
  }

  /** Every event of the sequence is sent the way the senders are meant to send it. */
  predicate ExpectedRun(t: Tracker, es: seq<ComponentStateEvent>)
    decreases |es|
  {
    es == [] || (Expected(t, es[0]) && ExpectedRun(Step(t, es[0]), es[1..]))
  }

  lemma {:induction false} RunKeepsCountMatchingState(t: Tracker, es: seq<ComponentStateEvent>)
    requires CountMatchesState(t) && ExpectedRun(t, es)
    ensures CountMatchesState(Run(t, es))
    decreases |es|
  {
    if es != [] {
      StepKeepsCountMatchingState(t, es[0]);
      RunKeepsCountMatchingState(Step(t, es[0]), es[1..]);
    }
  }

  /** Any run that sends only the expected events, from a fresh manager, never drives the
      counter negative. */
  lemma {:induction false} PendingNeverNegative(es: seq<ComponentStateEvent>)
    requires ExpectedRun(InitialTracker(), es)
    ensures Run(InitialTracker(), es).pendingCalls >= 0
  {
    RunKeepsCountMatchingState(InitialTracker(), es);
  }

  function Repeat(e: ComponentStateEvent, n: nat): (r: seq<ComponentStateEvent>)
    ensures |r| == n && forall i :: 0 <= i < n ==> r[i] == e
  {
    if n == 0 then [] else [e] + Repeat(e, n - 1)
  }

  /** From IDLE, n CALLING events lead to WORKING with n pending. */
  lemma {:induction false} CallsFromIdle(obs: seq<object>, n: nat, k: nat)
    requires 1 <= k
    ensures Run(Tracker(IDLE, 0, obs), Repeat(CALLING, n)) == if n == 0 then Tracker(IDLE, 0, obs) else Tracker(WORKING, n, obs)
    ensures Run(Tracker(WORKING, k, obs), Repeat(CALLING, n)) == Tracker(WORKING, k + n, obs)
    decreases n
  {
    if n > 0 {
      CallsFromIdle(obs, n - 1, k + 1);
      CallsFromIdle(obs, n - 1, 1);
      assert Repeat(CALLING, n)[1..] == Repeat(CALLING, n - 1);
    }
  }

  /** With n calls pending, WORKING stays WORKING until the n-th FINISHED_CALLING, which
      brings it to IDLE; each of them reports nothing before the last. */
  lemma {:induction false} FinishesWhileWorking(obs: seq<object>, n: nat, k: nat)
    requires k <= n
    ensures k < n ==> Run(Tracker(WORKING, n, obs), Repeat(FINISHED_CALLING, k)) == Tracker(WORKING, n - k, obs)
    ensures n >= 1 && k == n ==> Run(Tracker(WORKING, n, obs), Repeat(FINISHED_CALLING, k)) == Tracker(IDLE, 0, obs)
    decreases k
  {
    if k > 0 {
      assert Repeat(FINISHED_CALLING, k)[1..] == Repeat(FINISHED_CALLING, k - 1);
      if n - 1 >= 1 {
        FinishesWhileWorking(obs, n - 1, k - 1);
      }
    }
  }

  /** Once a reconfiguration has put a component with n pending calls into WAITING, the
      n-th FINISHED_CALLING makes it QUIESCENT, and each observer hears of it exactly once. */
  lemma {:induction false} DrainWhileWaiting(obs: seq<object>, n: nat)
    requires n >= 1
    ensures Run(Tracker(WAITING, n, obs), Repeat(FINISHED_CALLING, n)) == Tracker(QUIESCENT, 0, obs)
    ensures RunNotifications(Tracker(WAITING, n, obs), Repeat(FINISHED_CALLING, n))
         == seq(|obs|, i requires 0 <= i < |obs| => Notification(obs[i], QUIESCENT))
    decreases n
  {
    var es := Repeat(FINISHED_CALLING, n);
    assert es[1..] == Repeat(FINISHED_CALLING, n - 1);
    if n > 1 {
      DrainWhileWaiting(obs, n - 1);
      assert Notifications(Tracker(WAITING, n, obs), FINISHED_CALLING) == [];
    } else {
      assert es[1..] == [];
    }
  }

  /** The component state manager of one component. All methods run with the
      component's lock held by the caller. */
  class ComponentProxyReconfigurationManager {
    var observers: seq<object>
    var componentState: ComponentState
    var pendingCalls: int

    /** The fields as one value. */
    function View(): Tracker
      reads this
    {
      Tracker(componentState, pendingCalls, observers)
    }

    constructor ()
      ensures View() == InitialTracker()
    {
      observers := [];
      componentState := IDLE;
      pendingCalls := 0;
    }

    /** Transit the state for `event`, then report the new state to every registered
        observer if it changed; the reports are returned in the order they are made. */
    method ReceiveEvent(event: ComponentStateEvent) returns (notified: seq<Notification>)
      modifies this
      ensures View() == Step(old(View()), event)
      ensures notified == Notifications(old(View()), event)
    {
      var initialState := componentState;
      match event {
        case CALLING =>
          pendingCalls := pendingCalls + 1;
          if componentState == IDLE {
            componentState := WORKING;
          }
        case FINISHED_CALLING =>
          pendingCalls := pendingCalls - 1;
          if componentState == WAITING && pendingCalls == 0 {
            componentState := QUIESCENT;
          } else if componentState == WORKING && pendingCalls == 0 {
            componentState := IDLE;
          }
        case RECONFIGURATION_START =>
          if componentState == IDLE {
            componentState := QUIESCENT;
          } else if componentState == WORKING {
            componentState := WAITING;
          }
        case RECONFIGURATION_END =>
          observers := [];
          if componentState == QUIESCENT {
            componentState := IDLE;
          } else if componentState == WAITING {
            componentState := WORKING;
          }
      }
      notified := [];
      if initialState != componentState {
        var i := 0;
        while i < |observers|
          invariant 0 <= i <= |observers|
          invariant |notified| == i
          invariant forall j :: 0 <= j < i ==> notified[j] == Notification(observers[j], componentState)
        {
          notified := notified + [Notification(observers[i], componentState)];
          i := i + 1;
        }
      }
    }

    /** Register an observer: appended, never deduplicated. */
    method ObserveState(stateReceiver: object)
      modifies this
      ensures View() == old(View()).(observers := old(observers) + [stateReceiver])
    {
      observers := observers + [stateReceiver];
    }

    /** The current state; changes nothing. */
    method GetState() returns (s: ComponentState)
      ensures s == View().state
    {
      s := componentState;
    }
  }
}
