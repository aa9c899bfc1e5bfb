/** The `useChannelEvents` hook: the switch on a channel event's type, and
    the effect that subscribes and unsubscribes through the manager.

    The manager's `subscribeToChannelEvents` / `unsubscribeFromChannelEvents`
    are collaborators outside this model; each call is given by its outcome:
    its promise resolves or rejects, or the call itself throws, as calling a
    method the manager does not define throws a `TypeError`. */
module ChannelEvents {
  import opened Common
  import opened FrontendTypes

  const CreatedType := "CREATED"
  const DeletedType := "DELETED"
  const UnknownError := "Unknown error"

  datatype ChannelEvent = ChannelEvent(eventType: string, channel: Channel)

  /** What `handleChannelEvent` does. */
  datatype Dispatch =
    | CreatedCalled(channel: Channel)
    | DeletedCalled(channel: Channel)
    | NoCallback
    | UnknownTypeWarned(eventType: string)

  function HandleChannelEvent(event: ChannelEvent, hasOnCreated: bool, hasOnDeleted: bool): (r: Dispatch)
    ensures r.CreatedCalled? <==> event.eventType == CreatedType && hasOnCreated
    ensures r.DeletedCalled? <==> event.eventType == DeletedType && hasOnDeleted
    ensures r.UnknownTypeWarned? <==> event.eventType != CreatedType && event.eventType != DeletedType
    ensures r.CreatedCalled? ==> r.channel == event.channel
    ensures r.DeletedCalled? ==> r.channel == event.channel
    ensures r.UnknownTypeWarned? ==> r.eventType == event.eventType
  {
    if event.eventType == CreatedType then
      if hasOnCreated then CreatedCalled(event.channel) else NoCallback
    else if event.eventType == DeletedType then
      if hasOnDeleted then DeletedCalled(event.channel) else NoCallback
    else UnknownTypeWarned(event.eventType)
  }

  /** A thrown value: an `Error` (with its message) or anything else. */
  datatype Thrown = ErrorObject(message: string) | OtherValue

  /** `error instanceof Error ? error.message : 'Unknown error'`. */
  function ErrorDetail(thrown: Thrown): (r: string)
    ensures thrown.ErrorObject? ==> r == thrown.message
    ensures thrown.OtherValue? ==> r == UnknownError
  {
    match thrown
    case ErrorObject(message) => message
    case OtherValue => UnknownError
  }

  /** How a call to a manager method ends. */
  datatype CallOutcome =
    | Resolved
    | Rejected(reason: Thrown)   // the returned promise rejects
    | Threw(thrown: Thrown)      // the call throws before returning a promise

  /** What a failed call hands to whoever handles it. */
  function Failure(outcome: CallOutcome): Thrown
    requires !outcome.Resolved?
  {
    if outcome.Rejected? then outcome.reason else outcome.thrown
  }

  /** One run of the effect. */
  datatype EffectRun =
    | Disabled                              // not enabled or not connected: nothing attempted, no cleanup
    | Attempted(loggedError: Option<string>) // subscribe called; a failure is logged, never rethrown

  /** The effect. The subscribe call is awaited inside `try` in an async
      function, so a throw and a rejection are both caught and logged. */
  function RunEffect(enabled: bool, isConnected: bool, subscribe: CallOutcome): (r: EffectRun)
    ensures r.Disabled? <==> !(enabled && isConnected)
    ensures r.Attempted? ==> (r.loggedError.Some? <==> !subscribe.Resolved?)
    ensures r.Attempted? && !subscribe.Resolved? ==> r.loggedError.value == ErrorDetail(Failure(subscribe))
  {
    if !enabled || !isConnected then Disabled
    else Attempted(if subscribe.Resolved? then None else Some(ErrorDetail(Failure(subscribe))))
  }

  /** One run of the cleanup. */
  datatype CleanupRun =
    | CleanedUp(loggedError: Option<string>)  // the unsubscribe promise settled; a rejection is logged
    | Escaped(thrown: Thrown)                  // the call threw, and the throw leaves the cleanup

  /** The cleanup. Only the returned promise has a `.catch`: a rejection is
      logged, but a call that throws, outside any `try`, throws out of the
      cleanup. */
  function RunCleanup(unsubscribe: CallOutcome): (r: CleanupRun)
    ensures r.Escaped? <==> unsubscribe.Threw?
    ensures r.Escaped? ==> r.thrown == unsubscribe.thrown
    ensures r.CleanedUp? ==> (r.loggedError.Some? <==> unsubscribe.Rejected?)
    ensures r.CleanedUp? && unsubscribe.Rejected? ==> r.loggedError.value == ErrorDetail(unsubscribe.reason)
  {
    match unsubscribe
    case Resolved => CleanedUp(None)
    case Rejected(reason) => CleanedUp(Some(ErrorDetail(reason)))
    case Threw(thrown) => Escaped(thrown)
  }

  /** With a manager that defines neither method, each call throws a
      `TypeError`: the effect logs the subscribe's message, while the
      cleanup's error escapes it. */
  lemma UndefinedMethods(subscribeMessage: string, unsubscribeMessage: string)
    ensures RunEffect(true, true, Threw(ErrorObject(subscribeMessage))) == Attempted(Some(subscribeMessage))
    ensures RunCleanup(Threw(ErrorObject(unsubscribeMessage))) == Escaped(ErrorObject(unsubscribeMessage))
  {
  }
}
