/**
 * src/app/modules/currency/currency.controller.ts: each handler's decision
 * from the request (body valid? path id valid?) and the settled service
 * promise to exactly one response. The service result is a parameter; the
 * lemmas at the end connect the handlers to the collection operations of
 * CurrencyService.
 */
module CurrencyController {
  import opened Wrappers
  import opened Outcomes
  import opened Fields
  import Codes
  import CustomResponse
  import Helpers
  import Documents
  import Schema
  import opened Replies
  import opened CurrencyModel

  /** The payloads the handlers send. */
  datatype Body =
    | One(currency: Currency)
    | Many(currencies: seq<Currency>)
    | Updated(update: Documents.UpdateResult)
    | Deleted(deletion: Documents.DeleteResult)

  type Reply = CustomResponse.Sent<Body>

  /** The i18n keys; translation is not modelled, so the key is the message. */
  const NotFoundMessage := "currency.currencyNotFound"
  const InvalidIdMessage := "currency.invalidCurrencyId"

  function AsOne(c: Currency): Body { One(c) }
  function AsDeleted(d: Documents.DeleteResult): Body { Deleted(d) }

  /** `show`: the id is checked first; the service is consulted only for a valid one. */
  function Show(id: string, found: Outcome<Option<Currency>>): (r: Reply)
    ensures CustomResponse.WellFormed(r)
    ensures !Helpers.CheckObjectId(id) ==> r == InvalidId(InvalidIdMessage)
    ensures Helpers.CheckObjectId(id) && found == Resolved(None) ==> r == NotFound(NotFoundMessage)
    ensures Helpers.CheckObjectId(id) && found.Rejected? ==> r == Failed(found.failure)
    ensures CustomResponse.IsSuccess(r) <==> Helpers.CheckObjectId(id) && found.Resolved? && found.value.Some?
    ensures CustomResponse.IsSuccess(r) ==> r.code == Codes.HttpOk && r.body.data.data == One(found.value.value)
  {
    if Helpers.CheckObjectId(id) then Answer(found, Codes.HttpOk, AsOne, NotFoundMessage)
    else InvalidId(InvalidIdMessage)
  }

  /** `index` and `getShowingCurrency`: the list, or the failure. */
  function List(result: Outcome<seq<Currency>>): (r: Reply)
    ensures CustomResponse.WellFormed(r)
    ensures result.Resolved? ==> r == CustomResponse.Success(Codes.HttpOk, Many(result.value))
    ensures result.Rejected? ==> r == Failed(result.failure)
  {
    match result
    case Resolved(s) => CustomResponse.Success(Codes.HttpOk, Many(s))
    case Rejected(f) => Failed(f)
  }

  /** `store`: `name` must be a non-blank string; a saved currency is answered with 201. */
  function Store(body: CurrencyInput, stored: Outcome<Currency>): (r: Reply)
    ensures CustomResponse.WellFormed(r)
    ensures !RequiredString(body.name) ==> r == InvalidBody("name")
    ensures RequiredString(body.name) && stored.Resolved? ==> r == CustomResponse.Success(Codes.HttpCreated, One(stored.value))
    ensures RequiredString(body.name) && stored.Rejected? ==> r == Failed(stored.failure)
  {
    if !RequiredString(body.name) then InvalidBody("name")
    else match stored
      case Resolved(c) => CustomResponse.Success(Codes.HttpCreated, One(c))
      case Rejected(f) => Failed(f)
  }

  /** `storeMany`: no validation; 201 with the inserted list. */
  function StoreMany(stored: Outcome<seq<Currency>>): (r: Reply)
    ensures CustomResponse.WellFormed(r)
    ensures stored.Resolved? ==> r == CustomResponse.Success(Codes.HttpCreated, Many(stored.value))
    ensures stored.Rejected? ==> r == Failed(stored.failure)
  {
    match stored
    case Resolved(s) => CustomResponse.Success(Codes.HttpCreated, Many(s))
    case Rejected(f) => Failed(f)
  }

  /**
   * The shape of `update`, `updateStatus` and `updateLiveExchangeRateStatus`:
   * the body field is validated, then the id is checked, then the service
   * result decides between 404, 200 and the failure.
   */
  function ValidatedUpdate(field: string, value: Field, id: string, result: Outcome<Option<Currency>>): (r: Reply)
    ensures CustomResponse.WellFormed(r)
    ensures !RequiredString(value) ==> r == InvalidBody(field)
    ensures RequiredString(value) && !Helpers.CheckObjectId(id) ==> r == InvalidId(InvalidIdMessage)
    ensures RequiredString(value) && Helpers.CheckObjectId(id) && result == Resolved(None) ==> r == NotFound(NotFoundMessage)
    ensures RequiredString(value) && Helpers.CheckObjectId(id) && result.Rejected? ==> r == Failed(result.failure)
    ensures CustomResponse.IsSuccess(r) <==>
      RequiredString(value) && Helpers.CheckObjectId(id) && result.Resolved? && result.value.Some?
    ensures CustomResponse.IsSuccess(r) ==> r.code == Codes.HttpOk && r.body.data.data == One(result.value.value)
  {
    if !RequiredString(value) then InvalidBody(field)
    else if !Helpers.CheckObjectId(id) then InvalidId(InvalidIdMessage)
    else Answer(result, Codes.HttpOk, AsOne, NotFoundMessage)
  }

  /** `update`: validates `name`. */
  function Update(id: string, body: CurrencyInput, result: Outcome<Option<Currency>>): (r: Reply)
    ensures !RequiredString(body.name) ==> r == InvalidBody("name")
    ensures RequiredString(body.name) ==> r == ValidatedUpdate("name", body.name, id, result)
  {
    ValidatedUpdate("name", body.name, id, result)
  }

  /** `updateStatus`: validates `status`. */
  function UpdateStatus(id: string, status: Field, result: Outcome<Option<Currency>>): (r: Reply)
    ensures !RequiredString(status) ==> r == InvalidBody("status")
    ensures RequiredString(status) ==> r == ValidatedUpdate("status", status, id, result)
  {
    ValidatedUpdate("status", status, id, result)
  }

  /** `updateLiveExchangeRateStatus`: validates `live_exchange_rates`. */
  function UpdateLiveExchangeRateStatus(id: string, live: Field, result: Outcome<Option<Currency>>): (r: Reply)
    ensures !RequiredString(live) ==> r == InvalidBody("live_exchange_rates")
    ensures RequiredString(live) ==> r == ValidatedUpdate("live_exchange_rates", live, id, result)
  {
    ValidatedUpdate("live_exchange_rates", live, id, result)
  }

  function AsUpdated(u: Documents.UpdateResult): Body { Updated(u) }

  /** `updateMany`: the `null` test is kept, but the service always resolves with a result. */
  function UpdateMany(result: Outcome<Documents.UpdateResult>): (r: Reply)
    ensures CustomResponse.WellFormed(r)
    ensures result.Resolved? ==> r == CustomResponse.Success(Codes.HttpOk, Updated(result.value))
    ensures result.Rejected? ==> r == Failed(result.failure)
  {
    Answer(Lift(result), Codes.HttpOk, AsUpdated, NotFoundMessage)
  }

  /** `delete`: invalid id 400, no such record 404, removed 204. */
  function Delete(id: string, result: Outcome<Option<Documents.DeleteResult>>): (r: Reply)
    ensures CustomResponse.WellFormed(r)
    ensures !Helpers.CheckObjectId(id) ==> r == InvalidId(InvalidIdMessage)
    ensures Helpers.CheckObjectId(id) && result == Resolved(None) ==> r == NotFound(NotFoundMessage)
    ensures Helpers.CheckObjectId(id) && result.Rejected? ==> r == Failed(result.failure)
    ensures CustomResponse.IsSuccess(r) <==> Helpers.CheckObjectId(id) && result.Resolved? && result.value.Some?
    ensures CustomResponse.IsSuccess(r) ==> r.code == Codes.HttpNoContent && r.body.data.data == Deleted(result.value.value)
  {
    if Helpers.CheckObjectId(id) then Answer(result, Codes.HttpNoContent, AsDeleted, NotFoundMessage)
    else InvalidId(InvalidIdMessage)
  }

  /** `deleteMany`: 204 with the count; the `null` branch is dead here too. */
  function DeleteMany(result: Outcome<Documents.DeleteResult>): (r: Reply)
    ensures CustomResponse.WellFormed(r)
    ensures result.Resolved? ==> r == CustomResponse.Success(Codes.HttpNoContent, Deleted(result.value))
    ensures result.Rejected? ==> r == Failed(result.failure)
  {
    Answer(Lift(result), Codes.HttpNoContent, AsDeleted, NotFoundMessage)
  }

  /**
   * `PUT /:currencyId/live-exchange-rates` is wired to `updateStatus`
   * (currency.route.ts:871), so the route validates and writes `status`.
   */
  function LiveExchangeRatesRoute(id: string, body: CurrencyInput, result: Outcome<Option<Currency>>): (r: Reply)
    ensures !RequiredString(body.status) ==> r == InvalidBody("status")
  {
    UpdateStatus(id, body.status, result)
  }

  // ---------------------------------------------------------------------------
  // Properties of the decision tables, and the handlers against the service.

  /** For a bad id, the reply does not depend on what the service would have said. */
  lemma InvalidIdSkipsService(id: string, a: Outcome<Option<Currency>>, b: Outcome<Option<Currency>>,
                                  x: Outcome<Option<Documents.DeleteResult>>, y: Outcome<Option<Documents.DeleteResult>>)
    requires !Helpers.CheckObjectId(id)
    ensures Show(id, a) == Show(id, b) && Delete(id, x) == Delete(id, y)
    ensures Show(id, a).code == Codes.HttpBadRequest
    ensures Show(id, a).body.data == CustomResponse.ErrorData(Codes.ErrInvalidResource, InvalidIdMessage)
  {
  }

  /** A bad body beats a bad id: 412, never 400, and the service result is not looked at. */
  lemma BodyCheckedBeforeId(id: string, body: CurrencyInput, result: Outcome<Option<Currency>>)
    requires !RequiredString(body.name) && !Helpers.CheckObjectId(id)
    ensures Update(id, body, result).code == Codes.HttpPreconditionFailed
    ensures Update(id, body, result).body.data == CustomResponse.ErrorData(Codes.ErrValidator, "name")
    ensures UpdateStatus(id, body.status, result).code == Codes.HttpPreconditionFailed || RequiredString(body.status)
  {
  }

  /** `show` against the collection: never a failure; 200 exactly for a valid id that is stored. */
  lemma ShowAgainstStore(s: seq<Currency>, id: string)
    ensures var r := Show(id, Documents.FindById(s, IdOf, id));
      (r.code == Codes.HttpOk || r.code == Codes.HttpBadRequest || r.code == Codes.HttpNotFound)
      && (r.code == Codes.HttpOk <==> Helpers.CheckObjectId(id) && Documents.HasIdIn(s, IdOf, Documents.CastId(id)))
      && (r.code == Codes.HttpOk ==> r.body.data.data.currency in s && r.body.data.data.currency.id == Documents.CastId(id))
  {
    var found := Documents.FindById(s, IdOf, id);
    if Helpers.CheckObjectId(id) {
      assert found.Resolved?;
    }
  }

  /** Deleting a stored currency twice: 204, then 404 with the collection left as the first call left it. */
  lemma DeleteTwice(s: seq<Currency>, id: string)
    requires Documents.UniqueKeys(s, IdOf) && Helpers.CheckObjectId(id) && Documents.HasIdIn(s, IdOf, Documents.CastId(id))
    ensures var first := Documents.DeleteById(s, IdOf, id);
      var second := Documents.DeleteById(first.0, IdOf, id);
      Delete(id, first.1).code == Codes.HttpNoContent
      && Delete(id, second.1) == NotFound(NotFoundMessage)
      && second.0 == first.0 && |first.0| == |s| - 1
  {
    Documents.DeleteTwice(s, IdOf, id);
  }

  /** Updating an id that is not stored: 404 and nothing written, whatever the new values. */
  lemma UpdateUnknownIdNotFound(s: seq<Currency>, id: string, body: CurrencyInput)
    requires RequiredString(body.name) && Helpers.CheckObjectId(id) && !Documents.HasIdIn(s, IdOf, Documents.CastId(id))
    ensures var after := Documents.SaveById(s, IdOf, id, c => Overwritten(c, body));
      after.0 == s && Update(id, body, after.1) == NotFound(NotFoundMessage)
  {
  }

  /**
   * The validator is at least as strict as the schema on `name`: a body that
   * passes it never fails `save()` on the name path.
   */
  lemma ValidatorImpliesSchemaName(f: Field)
    requires RequiredString(f)
    ensures Schema.RequiredText(f) == Resolved(f.s)
  {
    assert f.s != [] by {
      var i :| 0 <= i < |f.s| && !IsSpace(f.s[i]);
    }
  }

  /** A name-only body is stored and answered with 201 and the defaults "show" / "show". */
  lemma StoreNameOnly(id: string, name: string)
    requires HasNonSpace(name)
    ensures var body := CurrencyInput(Text(name), Absent, Absent, Absent, Absent, Absent);
      Store(body, NewCurrency(id, body))
        == CustomResponse.Success(Codes.HttpCreated, One(Currency(id, name, Schema.Unset, None, None, Some("show"), Some("show"))))
  {
    ValidatorImpliesSchemaName(Text(name));
    NameOnlyCurrency(id, name);
  }

  /**
   * On the live-exchange-rates route a body that carries only
   * `live_exchange_rates` is refused with 412 on `status`, although the
   * handler written for that route would have accepted it.
   */
  lemma LiveRouteNeedsStatus(id: string, live: string, result: Outcome<Option<Currency>>)
    requires HasNonSpace(live) && Helpers.CheckObjectId(id)
    ensures var body := CurrencyInput(Absent, Absent, Absent, Absent, Absent, Text(live));
      LiveExchangeRatesRoute(id, body, result) == InvalidBody("status")
    ensures UpdateLiveExchangeRateStatus(id, Text(live), result).code != Codes.HttpPreconditionFailed
      || (result.Rejected? && ErrorStatus(result.failure) == Codes.HttpPreconditionFailed)
  {
  }

  /** Neither `updateMany` nor `deleteMany` ever answers 404 `resourceNotFound`. */
  lemma ManyNeverNotFound(u: Outcome<Documents.UpdateResult>, d: Outcome<Documents.DeleteResult>)
    ensures UpdateMany(u).body.data != CustomResponse.ErrorData(Codes.ErrResourceNotFound, NotFoundMessage)
    ensures DeleteMany(d).body.data != CustomResponse.ErrorData(Codes.ErrResourceNotFound, NotFoundMessage)
  {
  }

  /** `deleteMany` against the collection: the split ids are removed and the count comes back with 204. */
  lemma DeleteManyAgainstStore(s: seq<Currency>, param: string)
    requires Documents.AllObjectIds(PathIds(param))
    ensures var after := Documents.DeleteIdsIn(s, IdOf, PathIds(param));
      DeleteMany(after.1) == CustomResponse.Success(Codes.HttpNoContent, Deleted(Documents.DeleteResult(|s| - |after.0|)))
      && forall k :: 0 <= k < |after.0| ==> after.0[k].id !in Documents.CastIds(PathIds(param))
  {
  }
}
