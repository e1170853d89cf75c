/**
 * String helpers of the core: the ObjectId recogniser of
 * src/app/utils/helpers.util.ts and the few JavaScript string primitives the
 * middlewares and handlers rely on (`indexOf`, `split(",")`, `toLowerCase`,
 * `slice`).
 */
module Helpers {

  predicate IsHexDigit(c: char) {
    ('0' <= c <= '9') || ('a' <= c <= 'f') || ('A' <= c <= 'F')
  }

  /** Every character of `s` is a hexadecimal digit (checked left to right). */
  function AllHex(s: string): (r: bool)
    ensures r <==> forall i :: 0 <= i < |s| ==> IsHexDigit(s[i])
  {
    if s == [] then true
    else IsHexDigit(s[0]) && AllHex(s[1..])
  }

  /** `id.match(/^[0-9a-fA-F]{24}$/)`, read as a boolean. */
  function CheckObjectId(id: string): (r: bool)
    ensures r <==> |id| == 24 && forall i :: 0 <= i < |id| ==> IsHexDigit(id[i])
  {
    |id| == 24 && AllHex(id)
  }

  /** Lower-case and upper-case hex digits are accepted side by side. */
  lemma ObjectIdAcceptsBothCases()
    ensures CheckObjectId("0123456789abcdefABCDEF00")
  {
    var s := "0123456789abcdefABCDEF00";
    forall i | 0 <= i < |s| ensures IsHexDigit(s[i]) {
    }
  }

  lemma ObjectIdRejectsWrongLength(s: string)
    requires |s| == 0 || |s| == 23 || |s| == 25
    ensures !CheckObjectId(s)
  {
  }

  /** One character outside 0-9, a-f, A-F anywhere in a 24-character string is fatal. */
  lemma ObjectIdRejectsNonHex(s: string, k: nat)
    requires |s| == 24 && k < 24 && !IsHexDigit(s[k])
    ensures !CheckObjectId(s)
  {
  }

  /** `sub` occurs in `s` starting at position `j`. */
  predicate OccursAt(s: string, sub: string, j: int) {
    0 <= j && j + |sub| <= |s| && s[j..j + |sub|] == sub
  }

  /** First occurrence of `sub` in `s` at or after `from`, or -1. */
  function IndexFrom(s: string, sub: string, from: nat): (r: int)
    requires from <= |s|
    ensures r == -1 || (from <= r && OccursAt(s, sub, r))
    ensures r == -1 ==> forall j :: from <= j ==> !OccursAt(s, sub, j)
    ensures r != -1 ==> forall j :: from <= j < r ==> !OccursAt(s, sub, j)
    decreases |s| - from
  {
    if from + |sub| > |s| then -1
    else if s[from..from + |sub|] == sub then from
    else IndexFrom(s, sub, from + 1)
  }

  /** JavaScript's `s.indexOf(sub)`: the first position of `sub` in `s`, or -1. */
  function IndexOf(s: string, sub: string): (r: int)
    ensures r == -1 <==> forall j :: 0 <= j ==> !OccursAt(s, sub, j)
    ensures r != -1 ==> OccursAt(s, sub, r) && forall j :: 0 <= j < r ==> !OccursAt(s, sub, j)
  {
    IndexFrom(s, sub, 0)
  }

  /** `s.indexOf(sub) > -1` */
  predicate Contains(s: string, sub: string) {
    IndexOf(s, sub) > -1
  }

  lemma ContainsIffOccurs(s: string, sub: string)
    ensures Contains(s, sub) <==> exists j :: OccursAt(s, sub, j)
  {
    if Contains(s, sub) {
      assert OccursAt(s, sub, IndexOf(s, sub));
    }
  }

  /** A string contains itself and every string it starts with. */
  lemma ContainsPrefix(s: string, p: string)
    requires |p| <= |s| && s[..|p|] == p
    ensures Contains(s, p)
  {
    assert OccursAt(s, p, 0);
  }

  /** JavaScript's `s.slice(n, s.length)` for a non-negative `n`. */
  function Drop(s: string, n: nat): (r: string)
    ensures |s| <= n ==> r == ""
    ensures n < |s| ==> |r| == |s| - n && forall i :: 0 <= i < |r| ==> r[i] == s[n + i]
  {
    if n < |s| then s[n..] else ""
  }

  /** JavaScript's `s.substring(0, n)`. */
  function Take(s: string, n: nat): (r: string)
    ensures |r| == if n < |s| then n else |s|
    ensures forall i :: 0 <= i < |r| ==> r[i] == s[i]
  {
    if n < |s| then s[..n] else s
  }

  function LowerChar(c: char): char {
    if 'A' <= c <= 'Z' then (c as int + 32) as char else c
  }

  /** `s.toLowerCase()` over the ASCII letters. */
  function Lower(s: string): (r: string)
    ensures |r| == |s|
    ensures forall i :: 0 <= i < |s| ==> r[i] == LowerChar(s[i])
  {
    seq(|s|, i requires 0 <= i < |s| => LowerChar(s[i]))
  }

  /** A string with no ASCII capital is its own lowercase. */
  lemma LowerFixesLowercase(s: string)
    requires forall i :: 0 <= i < |s| ==> !('A' <= s[i] <= 'Z')
    ensures Lower(s) == s
  {
  }

  lemma LowerIdempotent(s: string)
    ensures Lower(Lower(s)) == Lower(s)
  {
  }

  /** `s.split(",")`: the pieces between commas, empty pieces included. */
  function Split(s: string): (r: seq<string>)
    ensures |r| >= 1
    ensures forall k :: 0 <= k < |r| ==> ',' !in r[k]
  {
    if s == [] then [""]
    else
      var rest := Split(s[1..]);
      if s[0] == ',' then [""] + rest
      else [[s[0]] + rest[0]] + rest[1..]
  }

  /** `pieces.join(",")` */
  function Join(pieces: seq<string>): string
    requires |pieces| >= 1
  {
    if |pieces| == 1 then pieces[0] else pieces[0] + "," + Join(pieces[1..])
  }

  /** Splitting on commas loses nothing: joining the pieces gives the string back. */
  lemma {:induction false} JoinSplit(s: string)
    ensures Join(Split(s)) == s
  {
    if s != [] {
      var rest := Split(s[1..]);
      JoinSplit(s[1..]);
      if s[0] == ',' {
        assert Split(s) == [""] + rest;
        assert Join(Split(s)) == "" + "," + Join(rest);
        assert s == [s[0]] + s[1..];
      } else {
        var head := [s[0]] + rest[0];
        assert Split(s) == [head] + rest[1..];
        if |rest| == 1 {
          assert Join(Split(s)) == head;
        } else {
          assert Join(Split(s)) == head + "," + Join(rest[1..]);
          assert Join(rest) == rest[0] + "," + Join(rest[1..]);
        }
        assert s == [s[0]] + s[1..];
      }
    }
  }

  /** Splitting a comma-free string yields that one string. */
  lemma {:induction false} SplitNoComma(s: string)
    requires ',' !in s
    ensures Split(s) == [s]
  {
    if s != [] {
      SplitNoComma(s[1..]);
      assert s == [s[0]] + s[1..];
    }
  }
}
