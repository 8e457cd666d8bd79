/** The ways either hook can fail a request. */
module Errors {
  import opened Wrappers
  import opened Pipeline

  const DefaultMessage: string := "You are not authorized to make this request"

  datatype HookError =
    /** The `NotAuthorized` error (a `Forbidden` error of the framework). */
    | NotAuthorized(message: string, data: Option<Value>)
    /** The role has no entry in the permission table, so `.map` is called
        on `undefined` and throws a `TypeError`. */
    | PermissionsUndefined(role: string)
    /** An `accessQuery` promise rejected with `reason`. */
    | ConditionRejected(reason: Value)

  /** `new NotAuthorized(message, data)`: the message defaults to
      DefaultMessage only when it is not given. */
  function NewNotAuthorized(message: Option<string>, data: Option<Value>): (e: HookError)
    ensures e.NotAuthorized? && e.data == data
    ensures message.None? ==> e.message == DefaultMessage
    ensures message.Some? ==> e.message == message.value
  {
    NotAuthorized(message.GetOr(DefaultMessage), data)
  }
}
