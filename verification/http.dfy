/** What an Express handler sees and answers: request identifiers, thrown
    errors, and the three ways a handler ends (a success body, an error body,
    or `next(error)`). */
module Http {
  import opened Optional

  /** A store identifier (a MongoDB ObjectId). */
  type Id = nat

  /** An identifier as it arrives in a request as a string: either it casts
      to an ObjectId or Mongoose rejects it with a `CastError` when a query
      uses it. A body field that is an array or an object of query operators
      is not represented. */
  datatype IdArg = ObjectId(id: Id) | Uncastable(text: string)

  /** JavaScript truthiness of an optional string field: absent and "" are falsy. */
  predicate Present(s: Option<string>) {
    s.Some? && s.value != ""
  }

  /** JavaScript truthiness of an optional identifier field. */
  predicate PresentId(a: Option<IdArg>) {
    a.Some? && (a.value.ObjectId? || a.value.text != "")
  }

  /** A thrown error's `code`: a number (Mongo), a string (Multer), or absent. */
  datatype Code = NoCode | NumCode(n: int) | TextCode(text: string)

  /** The fields of a thrown error that the backend inspects. An absent field is
      given its falsy value ("" or 0): every test the backend makes on these
      fields (`===` against a non-empty constant, `||` fallback) treats that
      value exactly as it treats `undefined`. `keyValue` lists the keys of the
      duplicate-key object in order; `errors` the `message` of each value of the
      validation-errors object, in order. */
  datatype Fault = Fault(
    name: string,
    message: string,
    statusCode: int,
    status: int,
    code: Code,
    keyValue: seq<string>,
    errors: seq<string>,
    stack: string)

  /** The error Mongoose throws when a query uses an identifier that does not
      cast to an ObjectId. */
  function CastFault(text: string): Fault {
    Fault("CastError", "Cast to ObjectId failed for value \"" + text + "\"", 0, 0, NoCode, [], [], "")
  }

  /** The outcome of a call into code outside the model: a value, or a throw. */
  datatype Attempt<T> = Done(value: T) | Threw(fault: Fault)

  /** `{ success, error, statusCode, stack? }`. */
  datatype ErrorBody = ErrorBody(success: bool, error: string, statusCode: int, stack: Option<string>)

  /** An HTTP status with an error body. */
  datatype ErrorReply = ErrorReply(status: int, body: ErrorBody)

  /** How a handler ends: `res.status(s).json({ success: true, data, message })`,
      `res.status(s).json({ success: false, ... })`, or `next(error)`. */
  datatype Reply<T> =
    | Ok(status: int, data: T, message: Option<string>)
    | Fail(response: ErrorReply)
    | Forward(fault: Fault)

  /** The error body the controllers write themselves, with `statusCode`
      repeating the HTTP status. */
  function Refuse<T>(status: int, error: string): Reply<T> {
    Fail(ErrorReply(status, ErrorBody(false, error, status, None)))
  }
}
