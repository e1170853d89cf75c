/**
 * The String-path rules of the Mongoose schemas in the core, as `save()`
 * applies them to one value: cast to string, the `lowercase` setter, the
 * `required` and `enum` validators, and schema defaults.
 */
module Schema {
  import opened Wrappers
  import opened Outcomes
  import opened Fields
  import Helpers

  /** `enum: ["show", "hide"]` */
  predicate IsVisibility(v: string) { v == "show" || v == "hide" }

  const DefaultVisibility := "show"

  /** `{type: String, required: true}`: a string path that is set and non-empty. */
  function RequiredText(f: Field): (r: Outcome<string>)
    ensures r.Resolved? <==> CastString(f).Resolved? && CastString(f).value.Some? && CastString(f).value.value != ""
    ensures r.Resolved? ==> Some(r.value) == CastString(f).value
    ensures r.Rejected? ==> r.failure == ValidationError
  {
    match CastString(f)
    case Resolved(Some(s)) => if s != "" then Resolved(s) else Rejected(ValidationError)
    case Resolved(None) => Rejected(ValidationError)
    case Rejected(_) => Rejected(ValidationError)
  }

  /**
   * A `lowercase` enum path with a default: the value is cast, lowercased and
   * checked against {show, hide}. An `undefined` value takes `fallback` (the
   * schema default on creation, `None` when an existing path is assigned
   * `undefined`); a `null` takes no default, passes the enum validator and
   * leaves the path without a value.
   */
  function Visibility(f: Field, fallback: Option<string>): (r: Outcome<Option<string>>)
    ensures f.Absent? ==> r == Resolved(fallback)
    ensures f.Null? ==> r == Resolved(None)
    ensures !f.Absent? && !f.Null? && r.Resolved? ==> r.value.Some? && IsVisibility(r.value.value)
    ensures f.Text? ==> (r.Resolved? <==> IsVisibility(Helpers.Lower(f.s)))
    ensures f.Text? && r.Resolved? ==> r.value == Some(Helpers.Lower(f.s))
    ensures r.Rejected? ==> r.failure == ValidationError
  {
    match CastString(f)
    case Resolved(None) => if f.Absent? then Resolved(fallback) else Resolved(None)
    case Resolved(Some(s)) =>
      var v := Helpers.Lower(s);
      if IsVisibility(v) then Resolved(Some(v)) else Rejected(ValidationError)
    case Rejected(_) => Rejected(ValidationError)
  }

  /** An optional String path: cast, no other check. */
  function OptionalText(f: Field): (r: Outcome<Option<string>>)
    ensures r.Rejected? <==> f.Structured?
    ensures r.Rejected? ==> r.failure == ValidationError
    ensures f.Absent? || f.Null? ==> r == Resolved(None)
    ensures f.Text? ==> r == Resolved(Some(f.s))
  {
    match CastString(f)
    case Resolved(v) => Resolved(v)
    case Rejected(_) => Rejected(ValidationError)
  }

  /**
   * An optional String path as a document holds it: unset (assigned
   * `undefined`, or never given), an explicit `null`, which `save()` writes to
   * the database as it is, or a string.
   */
  datatype Slot = Unset | NullSlot | Held(text: string)

  /** An optional String path that keeps `null` apart from `undefined`. */
  function OptionalSlot(f: Field): (r: Outcome<Slot>)
    ensures f.Absent? <==> r == Resolved(Unset)
    ensures f.Null? <==> r == Resolved(NullSlot)
    ensures r.Rejected? <==> OptionalText(f).Rejected?
    ensures r.Resolved? && r.value.Held? <==> OptionalText(f).Resolved? && OptionalText(f).value.Some?
    ensures r.Resolved? && r.value.Held? ==> OptionalText(f).value == Some(r.value.text)
  {
    match f
    case Absent => Resolved(Unset)
    case Null => Resolved(NullSlot)
    case _ =>
      match OptionalText(f)
      case Resolved(Some(v)) => Resolved(Held(v))
      case Resolved(None) => assert false; Resolved(Unset)
      case Rejected(e) => Rejected(e)
  }

  /** A stored slot read back as a field of a document about to be saved again. */
  function SlotField(v: Slot): (f: Field)
    ensures OptionalSlot(f) == Resolved(v)
  {
    match v
    case Unset => Absent
    case NullSlot => Null
    case Held(s) => Text(s)
  }

  lemma VisibilityIsLowercase(v: string)
    requires IsVisibility(v)
    ensures Helpers.Lower(v) == v
  {
    Helpers.LowerFixesLowercase(v);
  }

  /** A stored value read back as a field of a document about to be saved again. */
  function StoredField(v: Option<string>): (f: Field)
    ensures CastString(f) == Resolved(v)
  {
    match v
    case None => Absent
    case Some(s) => Text(s)
  }
}
