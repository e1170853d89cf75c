/**
 * The two response envelopes of src/app/utils/custom-response.util.ts. Every
 * handler answers through one of them: a success carries the payload under
 * `data`, a failure carries `{errNo, errMsg}` under `data`, and the HTTP code
 * is whatever the caller passed.
 */
module CustomResponse {
  import Wrappers

  datatype Payload<+T> = Data(data: T) | ErrorData(errNo: int, errMsg: string)

  /** The JSON body: exactly the two fields `status` and `data`. */
  datatype Envelope<+T> = Envelope(status: string, data: Payload<T>)

  /** What `res.status(code).send(body)` puts on the wire. */
  datatype Sent<+T> = Sent(code: int, body: Envelope<T>)

  const OkTag := "OK"
  const FailedTag := "FAILED"

  /** An envelope one of the two builders can produce: the tag names the payload's shape. */
  predicate WellFormed<T>(s: Sent<T>) {
    (s.body.status == OkTag && s.body.data.Data?)
    || (s.body.status == FailedTag && s.body.data.ErrorData?)
  }

  predicate IsSuccess<T>(s: Sent<T>) { s.body.status == OkTag }

  function Success<T>(status: int, data: T): (r: Sent<T>)
    ensures WellFormed(r) && IsSuccess(r)
    ensures r.code == status && r.body.data.data == data
  {
    Sent(status, Envelope(OkTag, Data(data)))
  }

  function Error<T>(status: int, errNo: int, errMsg: string): (r: Sent<T>)
    ensures WellFormed(r) && !IsSuccess(r)
    ensures r.code == status && r.body.data.errNo == errNo && r.body.data.errMsg == errMsg
  {
    Sent(status, Envelope(FailedTag, ErrorData(errNo, errMsg)))
  }

  /** Reading an envelope back: the success payload, if it is a success. */
  function SuccessData<T>(s: Sent<T>): (r: Wrappers.Option<T>)
    requires WellFormed(s)
    ensures r.Some? <==> IsSuccess(s)
  {
    if s.body.status == OkTag then Wrappers.Some(s.body.data.data) else Wrappers.None
  }

  /** A well-formed envelope is rebuilt exactly by the builder its tag names. */
  lemma WellFormedIsBuilt<T>(s: Sent<T>)
    requires WellFormed(s)
    ensures IsSuccess(s) ==> s == Success(s.code, s.body.data.data)
    ensures !IsSuccess(s) ==> s == Error(s.code, s.body.data.errNo, s.body.data.errMsg)
  {
  }

  /** Decoding undoes `success`: code and payload come back unchanged. */
  lemma SuccessRoundTrip<T>(status: int, data: T)
    ensures SuccessData(Success(status, data)) == Wrappers.Some(data)
    ensures Success(status, data).code == status
  {
  }

  /** No success envelope equals a failure envelope, whatever the arguments. */
  lemma SuccessNeverError<T>(a: int, x: T, b: int, n: int, m: string)
    ensures Success(a, x) != Error<T>(b, n, m)
  {
    assert Success(a, x).body.status != Error<T>(b, n, m).body.status;
  }

  lemma SuccessInjective<T>(a: int, x: T, b: int, y: T)
    requires Success(a, x) == Success(b, y)
    ensures a == b && x == y
  {
    assert Success(a, x).body.data.data == Success(b, y).body.data.data;
  }
}
