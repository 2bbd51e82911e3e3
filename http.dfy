/** What the request handlers and middleware share: the request's session
    and current user, the errors they raise, how a handler ends, and the
    jobs they hand to the queues. */
module Http {
  import opened Wrappers
  import opened Entities

  /** The error classes the handlers raise, by name. */
  datatype ErrorClass =
    | BadRequestError
    | NotAutorizedError
    | JoiRequestValidationError
    | ServerError
    | TypeError
    | Error

  datatype AppError = AppError(cls: ErrorClass, message: string)

  /** How a handler ends: it hands an error to `next`, it throws (an
      `async` handler then rejects), or it writes a response. */
  datatype Ending<B> = Next(err: AppError) | Throw(err: AppError) | Respond(status: int, body: B)

  const OK: int := 200
  const CREATED: int := 201

  /** A response body that only carries a message. */
  datatype Message = Message(message: string)

  /** Whether an optional string is truthy in JavaScript: `undefined` and
      the empty string are not. */
  predicate Truthy(s: Option<string>) {
    s.Some? && s.value != ""
  }

  /** The parts of an Express request the handlers read and assign:
      `req.session?.jwt` and `req.currentUser`. */
  class Request {
    var jwt: Option<string>
    var currentUser: Option<AuthPayload>

    constructor (jwt: Option<string>, currentUser: Option<AuthPayload>)
      ensures this.jwt == jwt && this.currentUser == currentUser
    {
      this.jwt := jwt;
      this.currentUser := currentUser;
    }
  }

  /** The queue a job is added to. */
  datatype QueueName = AuthQueue | UserQueue | EmailQueue

  /** The data of a job. */
  datatype JobData =
    | AuthValue(auth: AuthRecord)
    | UserValue(user: User)
    | EmailValue(template: string, receiverEmail: string, subject: string)

  datatype Job = Job(queue: QueueName, name: string, data: JobData)
}
