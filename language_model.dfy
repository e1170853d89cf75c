/**
 * The language schema (src/app/modules/language/language.model.ts): `name`
 * is required and has a unique index, `iso_code` is required, `flag` is
 * optional, `status` is a lowercase show/hide enum defaulting to "show".
 * Also the document-level rules of language.service.ts: the `iso_code`
 * default of `store` and the field-by-field fallback of `update`.
 */
module LanguageModel {
  import opened Wrappers
  import opened Outcomes
  import opened Fields
  import opened Schema
  import Helpers
  import Documents

  datatype Language = Language(
    id: string,
    name: string,
    isoCode: string,
    flag: Option<string>,
    status: Option<string>)

  datatype LanguageInput = LanguageInput(
    name: Field,
    isoCode: Field,
    flag: Field,
    status: Field)

  predicate ValidLanguage(l: Language) {
    l.name != "" && l.isoCode != ""
    && (l.status.Some? ==> IsVisibility(l.status.value))
  }

  function IdOf(l: Language): string { l.id }

  function NameOf(l: Language): string { l.name }

  predicate Showing(l: Language) { l.status == Some("show") }

  /** What every stored language satisfies, whichever operation wrote it last. */
  predicate Stored(l: Language) {
    Documents.IsStoredId(l.id) && l.name != "" && l.isoCode != ""
  }

  /** Another stored language already has this one's name (the unique index on `name`). */
  predicate NameTaken(s: seq<Language>, l: Language) {
    exists k :: 0 <= k < |s| && s[k].id != l.id && s[k].name == l.name
  }

  /**
   * `save()` of a document with these paths: validation first, then the
   * unique index, checked against the other documents of the collection.
   */
  function Save(s: seq<Language>, id: string, input: LanguageInput, statusFallback: Option<string>): (r: Outcome<Language>)
    requires statusFallback.Some? ==> IsVisibility(statusFallback.value)
    ensures r.Resolved? ==> ValidLanguage(r.value) && r.value.id == id && !NameTaken(s, r.value)
    ensures r.Resolved? <==>
      RequiredText(input.name).Resolved? && RequiredText(input.isoCode).Resolved?
      && OptionalText(input.flag).Resolved? && Visibility(input.status, statusFallback).Resolved?
      && !NameTaken(s, Language(id, RequiredText(input.name).value, "", None, None))
    ensures r.Resolved? ==>
      r.value.name == RequiredText(input.name).value
      && r.value.isoCode == RequiredText(input.isoCode).value
      && r.value.flag == OptionalText(input.flag).value
      && r.value.status == Visibility(input.status, statusFallback).value
    ensures r.Rejected? ==> r.failure == ValidationError || r.failure == DuplicateKey
  {
    var name := RequiredText(input.name);
    var isoCode := RequiredText(input.isoCode);
    var flag := OptionalText(input.flag);
    var status := Visibility(input.status, statusFallback);
    if name.Resolved? && isoCode.Resolved? && flag.Resolved? && status.Resolved? then
      var l := Language(id, name.value, isoCode.value, flag.value, status.value);
      if NameTaken(s, l) then Rejected(DuplicateKey) else Resolved(l)
    else
      Rejected(ValidationError)
  }

  /**
   * `data.iso_code = data.iso_code || data.name.toLowerCase().substring(0, 2)`:
   * calling `toLowerCase` on a name that is not a string throws a TypeError.
   */
  function DefaultIsoCode(input: LanguageInput): (r: Outcome<Field>)
    ensures Truthy(input.isoCode) ==> r == Resolved(input.isoCode)
    ensures !Truthy(input.isoCode) && input.name.Text? ==> r == Resolved(Text(Helpers.Take(Helpers.Lower(input.name.s), 2)))
    ensures !Truthy(input.isoCode) && !input.name.Text? ==> r == Rejected(TypeError)
  {
    if Truthy(input.isoCode) then Resolved(input.isoCode)
    else if input.name.Text? then Resolved(Text(Helpers.Take(Helpers.Lower(input.name.s), 2)))
    else Rejected(TypeError)
  }

  /** `store`: the defaulted `iso_code`, then `new Language(data).save()`. */
  function NewLanguage(s: seq<Language>, id: string, input: LanguageInput): (r: Outcome<Language>)
    ensures r.Resolved? ==> ValidLanguage(r.value) && r.value.id == id && !NameTaken(s, r.value)
    ensures r.Resolved? && input.status.Absent? ==> r.value.status == Some(DefaultVisibility)
    ensures r.Resolved? && input.status.Null? ==> r.value.status == None
    ensures r.Resolved? && !Truthy(input.isoCode) ==>
      input.name.Text? && r.value.isoCode == Helpers.Take(Helpers.Lower(input.name.s), 2)
    ensures r.Resolved? && input.isoCode.Text? && input.isoCode.s != "" ==> r.value.isoCode == input.isoCode.s
  {
    match DefaultIsoCode(input)
    case Rejected(e) => Rejected(e)
    case Resolved(iso) => Save(s, id, input.(isoCode := iso), Some(DefaultVisibility))
  }

  /** A new language under a name already stored is refused by the unique index. */
  lemma StoreDuplicateNameRefused(s: seq<Language>, id: string, input: LanguageInput, k: nat)
    requires k < |s| && s[k].id != id && input.name == Text(s[k].name)
    ensures NewLanguage(s, id, input).Rejected?
  {
  }

  /** A language stored from its name alone gets "show" and the lowercased first two letters. */
  lemma NameOnlyLanguage(s: seq<Language>, id: string, name: string)
    requires name != ""
    requires forall k :: 0 <= k < |s| ==> s[k].name != name
    ensures NewLanguage(s, id, LanguageInput(Text(name), Absent, Absent, Absent))
      == Resolved(Language(id, name, Helpers.Take(Helpers.Lower(name), 2), None, Some("show")))
  {
  }

  /** A `null` status takes no default: the language is stored without one and does not show. */
  lemma NullStatusLanguage(s: seq<Language>, id: string, name: string)
    requires name != ""
    requires forall k :: 0 <= k < |s| ==> s[k].name != name
    ensures NewLanguage(s, id, LanguageInput(Text(name), Absent, Absent, Null))
      == Resolved(Language(id, name, Helpers.Take(Helpers.Lower(name), 2), None, None))
  {
  }

  /** The stored value as the path `save()` sees again; a set path keeps its string. */
  function StoredText(v: string): (f: Field)
    ensures v != "" ==> Truthy(f) && RequiredText(f) == Resolved(v)
  {
    Text(v)
  }

  /** JavaScript's `a || b` on a body field and the document's current value. */
  function OrElse(f: Field, current: Field): (r: Field)
    ensures Truthy(f) ==> r == f
    ensures !Truthy(f) ==> r == current
  {
    if Truthy(f) then f else current
  }

  /** `update`: each of the four paths takes `data.x || language.x`, then `save()`. */
  function FallbackUpdated(s: seq<Language>, l: Language, input: LanguageInput): (r: Outcome<Language>)
    ensures r.Resolved? ==> ValidLanguage(r.value) && r.value.id == l.id
    ensures r.Resolved? && !Truthy(input.name) ==> r.value.name == l.name
  {
    var merged := LanguageInput(
      OrElse(input.name, StoredText(l.name)),
      OrElse(input.isoCode, StoredText(l.isoCode)),
      OrElse(input.flag, StoredField(l.flag)),
      OrElse(input.status, StoredField(l.status)));
    Save(s, l.id, merged, None)
  }

  /** Every path whose input is falsy keeps its old value; a string input replaces it. */
  lemma UpdateFallsBack(s: seq<Language>, l: Language, input: LanguageInput)
    requires ValidLanguage(l) && !NameTaken(s, l)
    requires !Truthy(input.name) && !Truthy(input.isoCode) && !Truthy(input.flag) && !Truthy(input.status)
    ensures FallbackUpdated(s, l, input) == Resolved(l)
  {
    if l.status.Some? { VisibilityIsLowercase(l.status.value); }
  }

  /** A non-empty string name replaces the old one, as long as no other language has it. */
  lemma UpdateTakesGivenName(s: seq<Language>, l: Language, input: LanguageInput, n: string)
    requires ValidLanguage(l) && input.name == Text(n) && n != ""
    requires !Truthy(input.isoCode) && !Truthy(input.flag) && !Truthy(input.status)
    ensures !NameTaken(s, l.(name := n)) ==> FallbackUpdated(s, l, input) == Resolved(l.(name := n))
    ensures NameTaken(s, l.(name := n)) ==> FallbackUpdated(s, l, input) == Rejected(DuplicateKey)
  {
    if l.status.Some? { VisibilityIsLowercase(l.status.value); }
  }

  /** `updateStatus`: `status := data.status` only, then `save()`. */
  function StatusUpdated(s: seq<Language>, l: Language, status: Field): (r: Outcome<Language>)
    ensures r.Resolved? ==> ValidLanguage(r.value) && r.value.id == l.id
  {
    Save(s, l.id, LanguageInput(StoredText(l.name), StoredText(l.isoCode), StoredField(l.flag), status), None)
  }

  lemma StatusUpdateChangesOnlyStatus(s: seq<Language>, l: Language, status: Field)
    requires ValidLanguage(l) && !NameTaken(s, l)
    ensures StatusUpdated(s, l, status).Resolved? <==> Visibility(status, None).Resolved?
    ensures StatusUpdated(s, l, status).Resolved? ==>
      StatusUpdated(s, l, status).value == l.(status := Visibility(status, None).value)
  {
  }

  /**
   * `updateMany`'s `$set: {status}`: the `lowercase` setter runs, the
   * validators do not; a stripped `undefined` changes nothing and a `null`
   * unsets the status.
   */
  function StatusSet(l: Language, w: PathWrite): (r: Language)
    ensures r.id == l.id && r.name == l.name && r.isoCode == l.isoCode && r.flag == l.flag
    ensures w.Keep? ==> r == l
    ensures w == Write(None) ==> r == l.(status := None)
    ensures w.Write? && w.value.Some? ==> r == l.(status := Some(Helpers.Lower(w.value.value)))
  {
    match w
    case Keep => l
    case Write(v) => l.(status := if v.Some? then Some(Helpers.Lower(v.value)) else None)
  }
}
