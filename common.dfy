/** Shared vocabulary of the messenger model: document ids, optional values,
    the failures the services throw, and the lower-casing that Mongoose's
    `lowercase` schema option applies. */
module Common {

  /** Document ids as the services handle them: strings taken from request
      bodies and route parameters. The empty string stands for a missing
      (falsy) value. */
  type Id = string

  datatype Option<+T> = None | Some(value: T)

  /** What an operation throws, by the class of the thrown object. */
  datatype Failure =
      /** A NestJS `HttpException` (or a subclass such as
          `UnauthorizedException`) with its HTTP status and its `message`. */
    | HttpError(status: int, message: string)
      /** An `HttpException` constructed with an object response
          `{ status, error }`: the client sees `error`, while the exception's
          own `message` is the generic "Http Exception". */
    | HttpBodyError(status: int, error: string)
      /** The application's own `AppError(message, status)`. */
    | AppError(status: int, message: string)
      /** A Mongoose `ValidationError` raised by `save`, naming the paths
          whose validators failed, in schema order. */
    | ValidationError(paths: seq<string>)
      /** A MongoDB unique-index violation (E11000) raised by an insert. */
    | DuplicateKey
      /** A JavaScript runtime error (a `TypeError` from reading a property
          of a missing document, or a token that does not parse). */
    | RuntimeError(message: string)

  datatype Result<+T> = Ok(value: T) | Err(failure: Failure)

  /** The message of a `TypeError` raised by reading a property of `null`
      or `undefined` (a document the store did not find). */
  const NullRead := "Cannot read properties of null"

  /** The message of a `TypeError` raised by reading a property of an
      absent array element. */
  const UndefinedRead := "Cannot read properties of undefined"

  /** `e.message` of a thrown failure: the controllers copy it into the
      bodies of the exceptions they rethrow. An exception built from a
      string keeps that string; one built from an object body gets Nest's
      generic message instead. */
  function MessageOf(f: Failure): (m: string)
    ensures f.HttpError? || f.AppError? || f.RuntimeError? ==> m == f.message
    ensures f.HttpBodyError? ==> m == "Http Exception"
  {
    match f
    case HttpError(_, m) => m
    case HttpBodyError(_, _) => "Http Exception"
    case AppError(_, m) => m
    case ValidationError(_) => "Validation failed"
    case DuplicateKey => "E11000 duplicate key error"
    case RuntimeError(m) => m
  }

  predicate IsUpperAscii(c: char) { 'A' <= c <= 'Z' }

  /** `String.prototype.toLowerCase` on one character; only the ASCII
      letters are modelled. */
  function LowerChar(c: char): char
  {
    if IsUpperAscii(c) then (c as int + 32) as char else c
  }

  /** `String.prototype.toLowerCase`, which Mongoose's `lowercase` option
      applies both to stored values and to query filter values. */
  function Lower(s: string): (r: string)
    ensures |r| == |s|
    ensures IsLower(r)
    ensures forall i :: 0 <= i < |s| && !IsUpperAscii(s[i]) ==> r[i] == s[i]
    ensures forall i :: 0 <= i < |s| && IsUpperAscii(s[i]) ==> r[i] as int == s[i] as int + 32
  {
    seq(|s|, i requires 0 <= i < |s| => LowerChar(s[i]))
  }

  /** No ASCII upper-case letter occurs in `s`. */
  predicate IsLower(s: string)
  {
    forall i :: 0 <= i < |s| ==> !IsUpperAscii(s[i])
  }
}
