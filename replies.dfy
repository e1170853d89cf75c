/**
 * The answers the currency and notification controllers share: the `catch`
 * of a service promise, the validator's 412, the id check's 400, and the
 * `then` that turns `null` into 404 and anything else into the success code.
 */
module Replies {
  import opened Wrappers
  import opened Outcomes
  import Codes
  import CustomResponse
  import Helpers

  /** `{status: error?.status || 500, errNo: genericError, errMsg: error?.message || error}` */
  function Failed<T>(f: Failure): (r: CustomResponse.Sent<T>)
    ensures !CustomResponse.IsSuccess(r) && CustomResponse.WellFormed(r)
    ensures r.code == ErrorStatus(f) && r.body.data == CustomResponse.ErrorData(Codes.ErrGeneric, ErrorMessage(f))
  {
    CustomResponse.Error(ErrorStatus(f), Codes.ErrGeneric, ErrorMessage(f))
  }

  /** 404 with `resourceNotFound`. */
  function NotFound<T>(message: string): (r: CustomResponse.Sent<T>)
    ensures !CustomResponse.IsSuccess(r) && CustomResponse.WellFormed(r)
    ensures r.code == Codes.HttpNotFound && r.body.data == CustomResponse.ErrorData(Codes.ErrResourceNotFound, message)
  {
    CustomResponse.Error(Codes.HttpNotFound, Codes.ErrResourceNotFound, message)
  }

  /** 400 with `ivalidResource`: the path id failed `checkObjectId`. */
  function InvalidId<T>(message: string): (r: CustomResponse.Sent<T>)
    ensures !CustomResponse.IsSuccess(r) && CustomResponse.WellFormed(r)
    ensures r.code == Codes.HttpBadRequest && r.body.data == CustomResponse.ErrorData(Codes.ErrInvalidResource, message)
  {
    CustomResponse.Error(Codes.HttpBadRequest, Codes.ErrInvalidResource, message)
  }

  /** 412 with `validator`; the error bag is shown by the name of the first field that failed. */
  function InvalidBody<T>(field: string): (r: CustomResponse.Sent<T>)
    ensures !CustomResponse.IsSuccess(r) && CustomResponse.WellFormed(r)
    ensures r.code == Codes.HttpPreconditionFailed && r.body.data == CustomResponse.ErrorData(Codes.ErrValidator, field)
  {
    CustomResponse.Error(Codes.HttpPreconditionFailed, Codes.ErrValidator, field)
  }

  /**
   * The `then`/`catch` pair after a service call whose result may be `null`:
   * a rejection is answered by `Failed`, `null` by 404, and a value by
   * `code` with the value as payload.
   */
  function Answer<T, B>(result: Outcome<Option<T>>, code: int, wrap: T -> B, notFoundMessage: string): (r: CustomResponse.Sent<B>)
    ensures CustomResponse.WellFormed(r)
    ensures CustomResponse.IsSuccess(r) <==> result.Resolved? && result.value.Some?
    ensures CustomResponse.IsSuccess(r) ==> r.code == code && r.body.data.data == wrap(result.value.value)
    ensures result.Resolved? && result.value.None? ==> r == NotFound(notFoundMessage)
    ensures result.Rejected? ==> r == Failed(result.failure)
  {
    match result
    case Rejected(f) => Failed(f)
    case Resolved(None) => NotFound(notFoundMessage)
    case Resolved(Some(v)) => CustomResponse.Success(code, wrap(v))
  }

  /** A service result that is never `null`, seen by the same `then`. */
  function Lift<T>(result: Outcome<T>): (r: Outcome<Option<T>>)
    ensures r.Resolved? <==> result.Resolved?
    ensures r.Resolved? ==> r.value == Some(result.value)
    ensures r.Rejected? ==> r.failure == result.failure
  {
    match result
    case Resolved(v) => Resolved(Some(v))
    case Rejected(f) => Rejected(f)
  }

  /** The `null` branch is dead for a service that always resolves with a value. */
  lemma LiftedNeverNotFound<T, B>(result: Outcome<T>, code: int, wrap: T -> B, message: string)
    ensures Answer(Lift(result), code, wrap, message).code != Codes.HttpNotFound
      || (result.Rejected? && ErrorStatus(result.failure) == Codes.HttpNotFound)
      || (result.Resolved? && code == Codes.HttpNotFound)
    ensures Answer(Lift(result), code, wrap, message).body.data != CustomResponse.ErrorData(Codes.ErrResourceNotFound, message)
  {
  }

  /** `req.params.<ids>.split(",")`: the ids a `deleteMany` handler passes on. */
  function PathIds(param: string): (ids: seq<string>)
    ensures |ids| >= 1 && Helpers.Join(ids) == param
    ensures forall k :: 0 <= k < |ids| ==> ',' !in ids[k]
  {
    Helpers.JoinSplit(param);
    Helpers.Split(param)
  }
}
