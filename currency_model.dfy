/**
 * The currency schema (src/app/modules/currency/currency.model.ts) and what
 * Mongoose does with a document of it on `save()`: cast every String path,
 * apply the `lowercase` setter, check `required` and `enum`, and fill in
 * defaults when a document is first created.
 */
module CurrencyModel {
  import opened Wrappers
  import opened Outcomes
  import opened Fields
  import opened Schema
  import Helpers
  import Documents

  /**
   * A stored currency. `None` is a path without a value in the database; the
   * symbol also keeps a stored `null` apart from an unset path, because
   * `updateGlobalSetting` copies it as it is.
   */
  datatype Currency = Currency(
    id: string,
    name: string,
    symbol: Slot,
    isoCode: Option<string>,
    exchangeRate: Option<string>,
    status: Option<string>,
    liveExchangeRates: Option<string>)

  /** The request body fields a currency is built or overwritten from. */
  datatype CurrencyInput = CurrencyInput(
    name: Field,
    symbol: Field,
    isoCode: Field,
    exchangeRate: Field,
    status: Field,
    liveExchangeRates: Field)

  /** What `save()` guarantees of the paths it validated. */
  predicate ValidCurrency(c: Currency) {
    c.name != ""
    && (c.status.Some? ==> IsVisibility(c.status.value))
    && (c.liveExchangeRates.Some? ==> IsVisibility(c.liveExchangeRates.value))
  }

  /**
   * Builds the document with the given paths and validates it; `statusFallback`
   * and `liveFallback` are what an `undefined` status takes.
   */
  function Build(id: string, input: CurrencyInput, statusFallback: Option<string>, liveFallback: Option<string>): (r: Outcome<Currency>)
    ensures r.Resolved? ==> r.value.id == id
    ensures r.Resolved? <==>
      RequiredText(input.name).Resolved? && OptionalSlot(input.symbol).Resolved?
      && OptionalText(input.isoCode).Resolved? && OptionalText(input.exchangeRate).Resolved?
      && Visibility(input.status, statusFallback).Resolved?
      && Visibility(input.liveExchangeRates, liveFallback).Resolved?
    ensures r.Resolved? ==>
      r.value.name == RequiredText(input.name).value
      && r.value.symbol == OptionalSlot(input.symbol).value
      && r.value.isoCode == OptionalText(input.isoCode).value
      && r.value.exchangeRate == OptionalText(input.exchangeRate).value
      && r.value.status == Visibility(input.status, statusFallback).value
      && r.value.liveExchangeRates == Visibility(input.liveExchangeRates, liveFallback).value
    ensures r.Rejected? ==> r.failure == ValidationError
  {
    var name := RequiredText(input.name);
    var symbol := OptionalSlot(input.symbol);
    var isoCode := OptionalText(input.isoCode);
    var rate := OptionalText(input.exchangeRate);
    var status := Visibility(input.status, statusFallback);
    var live := Visibility(input.liveExchangeRates, liveFallback);
    if name.Resolved? && symbol.Resolved? && isoCode.Resolved? && rate.Resolved? && status.Resolved? && live.Resolved? then
      Resolved(Currency(id, name.value, symbol.value, isoCode.value, rate.value, status.value, live.value))
    else
      Rejected(ValidationError)
  }

  /**
   * `new Currencie(data).save()`: both enum paths default to "show" when
   * `undefined`; an explicit `null` is stored as no value.
   */
  function NewCurrency(id: string, input: CurrencyInput): (r: Outcome<Currency>)
    ensures r.Resolved? ==> ValidCurrency(r.value) && r.value.id == id
    ensures r.Resolved? ==> (r.value.status.Some? <==> !input.status.Null?)
    ensures r.Resolved? ==> (r.value.liveExchangeRates.Some? <==> !input.liveExchangeRates.Null?)
    ensures input.status.Absent? && r.Resolved? ==> r.value.status == Some(DefaultVisibility)
    ensures input.liveExchangeRates.Absent? && r.Resolved? ==> r.value.liveExchangeRates == Some(DefaultVisibility)
    ensures r.Resolved? ==> (r.value.symbol.Unset? <==> input.symbol.Absent?) && (r.value.symbol.NullSlot? <==> input.symbol.Null?)
    ensures input.name.Absent? || input.name.Null? || input.name == Text("") ==> r == Rejected(ValidationError)
  {
    Build(id, input, Some(DefaultVisibility), Some(DefaultVisibility))
  }

  /** A currency created from a name alone shows, and shows live rates. */
  lemma NameOnlyCurrency(id: string, name: string)
    requires name != ""
    ensures NewCurrency(id, CurrencyInput(Text(name), Absent, Absent, Absent, Absent, Absent))
      == Resolved(Currency(id, name, Unset, None, None, Some("show"), Some("show")))
  {
  }

  /** A `null` status takes no default: the currency is stored without one and does not show. */
  lemma NullStatusCurrency(id: string, name: string)
    requires name != ""
    ensures NewCurrency(id, CurrencyInput(Text(name), Absent, Absent, Absent, Null, Absent))
      == Resolved(Currency(id, name, Unset, None, None, None, Some("show")))
    ensures !Showing(NewCurrency(id, CurrencyInput(Text(name), Absent, Absent, Absent, Null, Absent)).value)
  {
  }

  /** The loaded document, as the set of paths `save()` will validate again. */
  function AsInput(c: Currency): (input: CurrencyInput)
    ensures input.name == Text(c.name)
  {
    CurrencyInput(Text(c.name), SlotField(c.symbol), StoredField(c.isoCode),
                  StoredField(c.exchangeRate), StoredField(c.status), StoredField(c.liveExchangeRates))
  }

  /** Saving a loaded, valid document without changes gives it back as it was. */
  lemma ResaveUnchanged(c: Currency)
    requires ValidCurrency(c)
    ensures Build(c.id, AsInput(c), None, None) == Resolved(c)
  {
    if c.status.Some? { VisibilityIsLowercase(c.status.value); }
    if c.liveExchangeRates.Some? { VisibilityIsLowercase(c.liveExchangeRates.value); }
  }

  /** `update`: all six paths are assigned from the input, then saved (no fallback). */
  function Overwritten(c: Currency, input: CurrencyInput): (r: Outcome<Currency>)
    ensures r.Resolved? ==> ValidCurrency(r.value) && r.value.id == c.id
    ensures (input.status.Absent? || input.status.Null?) && r.Resolved? ==> r.value.status == None
    ensures input.symbol.Absent? && r.Resolved? ==> r.value.symbol == Unset
    ensures input.symbol.Null? && r.Resolved? ==> r.value.symbol == NullSlot
  {
    Build(c.id, input, None, None)
  }

  /** `update` never reads the old values: two records with the same id end up identical. */
  lemma OverwriteForgetsOldValues(c1: Currency, c2: Currency, input: CurrencyInput)
    requires c1.id == c2.id
    ensures Overwritten(c1, input) == Overwritten(c2, input)
  {
  }

  /** `updateStatus`: `status := data.status; live_exchange_rates := data.status || live_exchange_rates`. */
  function StatusUpdated(c: Currency, status: Field): (r: Outcome<Currency>)
    ensures r.Resolved? ==> ValidCurrency(r.value) && r.value.id == c.id
  {
    var old_ := AsInput(c);
    var live := if Truthy(status) then status else old_.liveExchangeRates;
    Build(c.id, old_.(status := status, liveExchangeRates := live), None, None)
  }

  /** A truthy status value is copied into `live_exchange_rates`; nothing else changes. */
  lemma StatusUpdateCopiesIntoLive(c: Currency, s: string)
    requires ValidCurrency(c) && s != ""
    ensures StatusUpdated(c, Text(s)).Resolved? <==> IsVisibility(Helpers.Lower(s))
    ensures StatusUpdated(c, Text(s)).Resolved? ==>
      StatusUpdated(c, Text(s)).value
        == c.(status := Some(Helpers.Lower(s)), liveExchangeRates := Some(Helpers.Lower(s)))
  {
    ResaveUnchanged(c);
  }

  /** An `undefined` or `null` status unsets `status` and keeps `live_exchange_rates`. */
  lemma StatusUpdateUnsetKeepsLive(c: Currency, status: Field)
    requires ValidCurrency(c) && (status.Absent? || status.Null?)
    ensures StatusUpdated(c, status) == Resolved(c.(status := None))
  {
    ResaveUnchanged(c);
  }

  /** `updateLiveExchangeRateStatus`: only `live_exchange_rates` is assigned. */
  function LiveUpdated(c: Currency, live: Field): (r: Outcome<Currency>)
    ensures r.Resolved? ==> ValidCurrency(r.value) && r.value.id == c.id
  {
    Build(c.id, AsInput(c).(liveExchangeRates := live), None, None)
  }

  lemma LiveUpdateChangesOnlyLive(c: Currency, live: Field)
    requires ValidCurrency(c)
    ensures LiveUpdated(c, live).Resolved? <==> Visibility(live, None).Resolved?
    ensures LiveUpdated(c, live).Resolved? ==>
      LiveUpdated(c, live).value == c.(liveExchangeRates := Visibility(live, None).value)
  {
    ResaveUnchanged(c);
  }

  /**
   * `updateMany`'s `$set: {status}`: update queries run the `lowercase` setter
   * but not the validators, so the enum is not checked here; a stripped
   * `undefined` changes nothing and a `null` unsets the status.
   */
  function StatusSet(c: Currency, w: PathWrite): (r: Currency)
    ensures r.id == c.id && r.name == c.name && r.liveExchangeRates == c.liveExchangeRates
    ensures w.Keep? ==> r == c
    ensures w == Write(None) ==> r == c.(status := None)
    ensures w.Write? && w.value.Some? ==> r == c.(status := Some(Helpers.Lower(w.value.value)))
  {
    match w
    case Keep => c
    case Write(v) => c.(status := if v.Some? then Some(Helpers.Lower(v.value)) else None)
  }

  function IdOf(c: Currency): string { c.id }

  function NameOf(c: Currency): string { c.name }

  predicate Showing(c: Currency) { c.status == Some("show") }

  /** What every stored currency satisfies, whichever operation wrote it last. */
  predicate Stored(c: Currency) {
    Documents.IsStoredId(c.id) && c.name != ""
    && (c.liveExchangeRates.Some? ==> IsVisibility(c.liveExchangeRates.value))
  }

  /** `insertMany(data)`: every document is validated first; one failure stores none. */
  function NewCurrencies(ids: seq<string>, inputs: seq<CurrencyInput>): (r: Outcome<seq<Currency>>)
    requires |ids| == |inputs|
    ensures r.Resolved? <==> forall k :: 0 <= k < |inputs| ==> NewCurrency(ids[k], inputs[k]).Resolved?
    ensures r.Resolved? ==> |r.value| == |inputs|
    ensures r.Resolved? ==> forall k :: 0 <= k < |inputs| ==> r.value[k] == NewCurrency(ids[k], inputs[k]).value
    ensures r.Rejected? ==> r.failure == ValidationError
  {
    if inputs == [] then Resolved([])
    else
      match NewCurrency(ids[0], inputs[0])
      case Rejected(e) => Rejected(e)
      case Resolved(c) =>
        match NewCurrencies(ids[1..], inputs[1..])
        case Rejected(e) => Rejected(e)
        case Resolved(cs) => Resolved([c] + cs)
  }
}
