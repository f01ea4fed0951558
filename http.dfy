/**
 * What a route handler sends back, and the two middleware functions of
 * middleware/: `validate(validator, requestType)` and `admin`.
 */
module Http {
  import opened Wrappers
  import opened Joi
  import UserModel

  /**
   * Which program a handler follows where the code and its evident intent
   * part ways: the code as written, or the corrected code. Handlers with a
   * finding take one; the lemmas beside them cover both.
   */
  datatype Version = AsWritten | Corrected

  /** A response body text: a fixed message, or the first Joi error's message. */
  datatype Message = Text(s: string) | Invalid(issue: Issue)

  /**
   * The outcome of a request: a 200 response with its body, an error status
   * with its message, or an exception thrown before any response was sent.
   */
  datatype Reply<T> = Ok(body: T) | Error(status: int, message: Message) | Threw

  /** What a middleware decides: call the next handler, respond and stop, or throw. */
  datatype Gate = Next | Stop(status: int, message: Message) | Throws

  /** The reply of a middleware that did not hand on to the next handler. */
  function Halted<T>(g: Gate): (r: Reply<T>)
    requires !g.Next?
    ensures g.Stop? ==> r == Error(g.status, g.message)
    ensures g.Throws? ==> r.Threw?
  {
    match g
    case Stop(status, message) => Error(status, message)
    case Throws => Threw
  }

  /**
   * The validator handed to `validate`: a function of the body and the request
   * type, or an imported name the module does not export, which is `undefined`.
   */
  datatype Binding = Bound(check: (Payload, Mode) -> Check) | Unbound

  /** `validate(validator, requestType)`: a 400 with the first error, or on to the handler. */
  function ValidateGate(validator: Binding, requestType: Mode, body: Payload): Gate {
    match validator
    case Unbound => Throws
    case Bound(check) =>
      var c := check(body, requestType);
      if c.Fail? then Stop(400, Invalid(c.issue)) else Next
  }

  /** A bound validator hands on exactly the bodies it accepts and reports the first error of the rest. */
  lemma BoundGateFollowsValidator(check: (Payload, Mode) -> Check, requestType: Mode, body: Payload)
    ensures ValidateGate(Bound(check), requestType, body).Next? <==> check(body, requestType).Pass?
    ensures check(body, requestType).Fail?
            ==> ValidateGate(Bound(check), requestType, body) == Stop(400, Invalid(check(body, requestType).issue))
  {
  }

  /** Calling an undefined validator throws, whatever the body. */
  lemma UnboundGateThrows(requestType: Mode, body: Payload)
    ensures ValidateGate(Unbound, requestType, body) == Throws
  {
  }

  /** `admin`: only a user whose token says `isAdmin: true` passes; everyone else gets a 403. */
  function AdminGate(user: UserModel.Principal): Gate {
    if user.isAdmin == Some(true) then Next else Stop(403, Text("Access denied."))
  }

  /** The admin gate passes exactly the administrators and answers everyone else with a 403. */
  lemma AdminGateAdmitsOnlyAdmins(user: UserModel.Principal)
    ensures AdminGate(user).Next? <==> user.isAdmin == Some(true)
    ensures !AdminGate(user).Next? ==> AdminGate(user) == Stop(403, Text("Access denied."))
  {
  }
}
