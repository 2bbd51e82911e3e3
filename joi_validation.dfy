/** `joiValidation(schema)`: the decorator that validates `req.body`
    before a handler runs. The schema itself is not modelled: what Joi
    answers is a parameter, `error` of `schema.validate(req.body)`. */
module JoiValidation {
  import opened Wrappers
  import opened Http

  /** One entry of Joi's `error.details`, as far as the decorator reads it. */
  datatype Detail = Detail(message: string)

  /** The `error` Joi returns: its `details` list may be missing. */
  datatype ValidationError = ValidationError(details: Option<seq<Detail>>)

  /** What `error.details[0].message` raises on an empty `details` list. */
  const NoFirstDetail: string := "Cannot read properties of undefined (reading 'message')"

  /** What the wrapper decides before the handler: call the original
      method with the same arguments, or end the request without it. */
  datatype Gate<B> = Invoke | Halt(end: Ending<B>)

  /** The wrapper's branch. No error, or an error without details, calls
      the original method. Otherwise the first detail's message goes to
      `next` as a `JoiRequestValidationError`; since an empty array is
      truthy, an empty `details` list reaches `details[0].message` and the
      wrapper rejects with a `TypeError`. */
  function Check<B>(error: Option<ValidationError>): (g: Gate<B>)
    ensures g.Invoke? <==> error.None? || error.value.details.None?
    ensures g.Halt? ==> g.end.Next? || g.end.Throw?
    ensures g.Halt? && g.end.Next? <==> error.Some? && error.value.details.Some? && |error.value.details.value| > 0
    ensures g.Halt? && g.end.Next? ==>
      g.end.err == AppError(JoiRequestValidationError, error.value.details.value[0].message)
  {
    match error
    case None => Invoke
    case Some(e) =>
      match e.details
      case None => Invoke
      case Some(ds) =>
        if |ds| > 0 then Halt(Next(AppError(JoiRequestValidationError, ds[0].message)))
        else Halt(Throw(AppError(TypeError, NoFirstDetail)))
  }

  /** How the decorated handler ends, given how the original would end
      were it called. */
  function Decorated<B>(error: Option<ValidationError>, original: Ending<B>): Ending<B> {
    match Check<B>(error)
    case Invoke => original
    case Halt(end) => end
  }

  /** With nothing to report, the decorated handler ends exactly as the
      original does. */
  lemma PassesThrough<B>(error: Option<ValidationError>, original: Ending<B>)
    requires error.None? || error.value.details.None?
    ensures Decorated(error, original) == original
  {
  }

  /** With details to report, the decorated handler's ending does not
      depend on the original at all, and it never responds. */
  lemma RejectsWithoutOriginal<B>(error: Option<ValidationError>, original1: Ending<B>, original2: Ending<B>)
    requires error.Some? && error.value.details.Some?
    ensures Decorated(error, original1) == Decorated(error, original2)
    ensures !Decorated(error, original1).Respond?
  {
  }

  /** Only the first detail's message is used: errors whose lists start
      with the same message end the same way, whatever follows. */
  lemma FirstDetailOnly<B>(first: Detail, rest1: seq<Detail>, rest2: seq<Detail>)
    ensures Check<B>(Some(ValidationError(Some([first] + rest1))))
         == Check<B>(Some(ValidationError(Some([first] + rest2))))
         == Halt(Next(AppError(JoiRequestValidationError, first.message)))
  {
  }
}
