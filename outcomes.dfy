/**
 * The settlement of a service promise: `resolve(value)` or `reject(error)`,
 * and how the handlers turn a rejection into an HTTP status and message.
 */
module Outcomes {
  import opened Wrappers
  import Codes

  /**
   * Why a data-store call rejected. `Remote` stands for every failure of the
   * database itself (lost connection, timeouts, ...), which the model does not
   * produce but the handlers must still answer.
   */
  datatype Failure =
    | ValidationError          // Mongoose document validation (required, enum, cast on save)
    | CastError                // a filter value that cannot be cast to an ObjectId
    | DuplicateKey             // a unique index rejected the write
    | TypeError                // JavaScript property access on `undefined`
    | WriteConflict            // MongoDB refused an update path under a value that is not an object
    | BadCursorOption          // a `skip` or `limit` that is NaN or negative, or not a number at all
    | Remote(status: Option<int>, message: string)

  datatype Outcome<+T> = Resolved(value: T) | Rejected(failure: Failure)

  /** `error?.status || statusCode.httpInternalServerError` */
  function ErrorStatus(f: Failure): (code: int)
    ensures f.Remote? && f.status.Some? && f.status.value != 0 ==> code == f.status.value
    ensures !(f.Remote? && f.status.Some? && f.status.value != 0) ==> code == Codes.HttpInternalServerError
  {
    match f
    case Remote(Some(s), _) => if s != 0 then s else Codes.HttpInternalServerError
    case _ => Codes.HttpInternalServerError
  }

  /** `error?.message || error`, with the error object shown by its kind. */
  function ErrorMessage(f: Failure): string {
    match f
    case ValidationError => "ValidationError"
    case CastError => "CastError"
    case DuplicateKey => "MongoServerError: E11000 duplicate key error"
    case TypeError => "TypeError"
    case WriteConflict => "MongoServerError: Cannot create field in element"
    case BadCursorOption => "MongoServerError: skip and limit must be non-negative integers"
    case Remote(_, m) => if m != "" then m else "Error"
  }
}
