/** Values shared by the reconfiguration engine: the externally visible state of a
    component, the events that drive it, and the (success, message) replies that the
    reconfiguration manager puts in the processor's reply queue. */
module DynrecTypes {

  /** The external state of a component as seen by connectors and the framework. */
  datatype ComponentState = IDLE | WORKING | WAITING | QUIESCENT

  /** Events sent to a component's state manager. */
  datatype ComponentStateEvent = CALLING | FINISHED_CALLING | RECONFIGURATION_START | RECONFIGURATION_END

  datatype Option<T> = None | Some(value: T)

  /** A value, or the message of the exception thrown instead. */
  datatype Result<T> = Ok(value: T) | Error(message: string)

  /** A `Pair<Boolean, String>` reply of a reconfiguration attempt. */
  datatype Reply = Reply(success: bool, message: string)

  const QuiescentReply := Reply(true, "component reached quiescent state")
  const TimeElapsedReply := Reply(false, "reconfiguration time elapsed")
  const InterruptedReply := Reply(false, "processing error. interrupted while waiting for a reply for the reconfiguration")

  /** Method identity (a `java.lang.reflect.Method`), used as the key of the duration table. */
  type MethodId = nat

  /** Something a call can throw: an exception of the component implementation, or the
      reflective wrapper `InvocationTargetException` around an optional cause. */
  datatype Throwable = AppException(code: nat) | InvocationTargetException(cause: Option<Throwable>)

  /** What `catch (InvocationTargetException ex)` rethrows: the cause when there is one,
      otherwise the wrapper itself. */
  function Rethrown(ex: Throwable): (r: Throwable)
    requires ex.InvocationTargetException?
    ensures ex.cause.Some? ==> r == ex.cause.value && r < ex
    ensures ex.cause.None? ==> r == ex
  {
    match ex.cause
    case Some(c) => c
    case None => ex
  }

  /** What a reflective call of a component body produced. */
  datatype BodyOutcome = Returns(value: nat) | Throws(ex: Throwable)

  /** The effect of `Method.invoke` on the body: a thrown exception is wrapped with it as cause. */
  function Reflect(outcome: BodyOutcome): (r: BodyOutcome)
    ensures outcome.Returns? ==> r == outcome
    ensures outcome.Throws? ==> r.Throws? && r.ex.InvocationTargetException? && Rethrown(r.ex) == outcome.ex
  {
    match outcome
    case Returns(v) => Returns(v)
    case Throws(e) => Throws(InvocationTargetException(Some(e)))
  }
}
