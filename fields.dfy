/**
 * A field of a JSON request body or queue payload, as the handlers and the
 * services see it, together with the three readings the source applies to
 * it: JavaScript truthiness (`x || fallback`), the validatorjs rule
 * `required|string`, and Mongoose's cast of a value assigned to a String path.
 */
module Fields {
  import opened Wrappers
  import opened Outcomes

  /**
   * `Absent` is `undefined` (a key the body does not have); `Null` is an
   * explicit JSON `null`; `Number` carries the text JavaScript prints for
   * the number (`String(n)`); `Structured` is an object or array.
   */
  datatype Field =
    | Absent
    | Null
    | Text(s: string)
    | Number(literal: string)
    | Boolean(b: bool)
    | Structured

  /** JavaScript truthiness. A number is falsy exactly when it prints as "0" or "NaN". */
  predicate Truthy(f: Field) {
    match f
    case Absent => false
    case Null => false
    case Text(s) => s != ""
    case Number(l) => l != "0" && l != "NaN"
    case Boolean(b) => b
    case Structured => true
  }

  /**
   * The characters JavaScript's `\s` matches: the ASCII tab, line feed,
   * vertical tab, form feed, carriage return and space, and the Unicode
   * spaces U+00A0, U+1680, U+2000 to U+200A, U+2028, U+2029, U+202F,
   * U+205F, U+3000 and U+FEFF.
   */
  predicate IsSpace(c: char) {
    var n := c as int;
    n == 0x20 || 0x09 <= n <= 0x0D || n == 0xA0 || n == 0x1680 || 0x2000 <= n <= 0x200A
    || n == 0x2028 || n == 0x2029 || n == 0x202F || n == 0x205F || n == 0x3000 || n == 0xFEFF
  }

  /** validatorjs `required`: `String(v)` is non-empty once all whitespace is removed. */
  predicate HasNonSpace(s: string) {
    exists i :: 0 <= i < |s| && !IsSpace(s[i])
  }

  /** validatorjs `required|string`: a string value that is not blank. */
  predicate RequiredString(f: Field) {
    f.Text? && HasNonSpace(f.s)
  }

  lemma RequiredStringIsTruthyText(f: Field)
    requires RequiredString(f)
    ensures Truthy(f) && f == Text(f.s) && f.s != ""
  {
  }

  /** Absent, null, non-string and blank values all fail `required|string`. */
  lemma RequiredStringRejects(f: Field)
    requires f.Absent? || f.Null? || f.Number? || f.Boolean? || f.Structured? || f == Text("") || f == Text(" ")
    ensures !RequiredString(f)
  {
  }

  /** A string made only of Unicode spaces (here a no-break space and an ideographic space) is blank too. */
  lemma {:induction false} UnicodeBlankRejected(f: Field)
    requires f == Text([0xA0 as char, 0x3000 as char, 0xFEFF as char])
    ensures !RequiredString(f)
  {
    assert forall i :: 0 <= i < |f.s| ==> IsSpace(f.s[i]);
  }

  /**
   * Mongoose's cast of a value assigned to a String path: `undefined` and
   * `null` leave the path without a value, numbers and booleans become their
   * printed text, objects and arrays cannot be cast.
   */
  function CastString(f: Field): (r: Outcome<Option<string>>)
    ensures f.Absent? || f.Null? <==> r == Resolved(None)
    ensures f.Structured? <==> r.Rejected?
    ensures f.Text? ==> r == Resolved(Some(f.s))
  {
    match f
    case Absent => Resolved(None)
    case Null => Resolved(None)
    case Text(s) => Resolved(Some(s))
    case Number(l) => Resolved(Some(l))
    case Boolean(b) => Resolved(Some(if b then "true" else "false"))
    case Structured => Rejected(ValidationError)
  }

  /** What `{$set: {path: value}}` does to one String path of the matched documents. */
  datatype PathWrite =
    | Keep                        // the key was `undefined`: Mongoose strips it from the update
    | Write(value: Option<string>) // the path is set to the cast value, `None` for `null`

  /** The `$set` cast of an update query's value: `undefined` is dropped, `null` is written. */
  function SetString(f: Field): (r: Outcome<PathWrite>)
    ensures f.Absent? <==> r == Resolved(Keep)
    ensures f.Null? <==> r == Resolved(Write(None))
    ensures r.Rejected? <==> CastString(f).Rejected?
    ensures !f.Absent? && r.Resolved? ==> r.value == Write(CastString(f).value)
  {
    match f
    case Absent => Resolved(Keep)
    case Structured => Rejected(CastError)
    case _ => Resolved(Write(CastString(f).value))
  }
}
