/**
 * The query shapes the services hand to MongoDB, on a collection kept in
 * insertion (that is, `_id`) order: filtering, newest-first order, sorting by
 * a string key, counting and `skip`/`limit` paging.
 */
module Collections {
  import opened Wrappers

  function Filter<T>(s: seq<T>, p: T -> bool): (r: seq<T>)
    ensures |r| <= |s|
    ensures forall k :: 0 <= k < |r| ==> r[k] in s && p(r[k])
    ensures forall k :: 0 <= k < |s| && p(s[k]) ==> s[k] in r
  {
    if s == [] then []
    else if p(s[0]) then [s[0]] + Filter(s[1..], p)
    else Filter(s[1..], p)
  }

  function Reverse<T>(s: seq<T>): (r: seq<T>)
    ensures |r| == |s|
    ensures forall k :: 0 <= k < |s| ==> r[k] == s[|s| - 1 - k]
  {
    if s == [] then [] else Reverse(s[1..]) + [s[0]]
  }

  lemma ReverseReverse<T>(s: seq<T>)
    ensures Reverse(Reverse(s)) == s
  {
  }

  function Count<T>(s: seq<T>, p: T -> bool): (n: nat)
    ensures n <= |s|
    ensures n == |Filter(s, p)|
  {
    if s == [] then 0
    else (if p(s[0]) then 1 else 0) + Count(s[1..], p)
  }

  /** `r` keeps some of the elements of `s`, in the order they have in `s`. */
  ghost predicate SubsequenceOf<T>(r: seq<T>, s: seq<T>)
    decreases |s|
  {
    if r == [] then true
    else if s == [] then false
    else (r[0] == s[0] && SubsequenceOf(r[1..], s[1..])) || SubsequenceOf(r, s[1..])
  }

  lemma {:induction false} FilterIsSubsequence<T>(s: seq<T>, p: T -> bool)
    ensures SubsequenceOf(Filter(s, p), s)
  {
    if s != [] {
      FilterIsSubsequence(s[1..], p);
      if p(s[0]) {
        assert Filter(s, p) == [s[0]] + Filter(s[1..], p);
        assert Filter(s, p)[1..] == Filter(s[1..], p);
      } else if Filter(s, p) != [] {
        assert Filter(s, p) == Filter(s[1..], p);
      }
    }
  }

  /** `skip(skip).limit(limit)` with `limit > 0`: at most `limit` elements, from `skip` on. */
  function Page<T>(s: seq<T>, skip: nat, limit: nat): (r: seq<T>)
    ensures |r| <= limit
    ensures |r| == if skip >= |s| then 0 else if |s| - skip < limit then |s| - skip else limit
    ensures forall k :: 0 <= k < |r| ==> r[k] == s[skip + k]
  {
    if skip >= |s| then []
    else if |s| - skip < limit then s[skip..]
    else s[skip..skip + limit]
  }

  /** Two consecutive pages together are the page spanning both: pages neither overlap nor leave gaps. */
  lemma PagesAreConsecutive<T>(s: seq<T>, skip: nat, a: nat, b: nat)
    ensures Page(s, skip, a) + Page(s, skip + a, b) == Page(s, skip, a + b)
  {
    var l, r, whole := Page(s, skip, a), Page(s, skip + a, b), Page(s, skip, a + b);
    assert |l + r| == |whole|;
    forall k | 0 <= k < |whole| ensures (l + r)[k] == whole[k] {
      if k >= |l| { assert (l + r)[k] == r[k - |l|]; }
    }
  }

  /** Binary (code point) order on strings, MongoDB's default string order. */
  predicate StrLe(a: string, b: string) {
    if a == [] then true
    else if b == [] then false
    else if a[0] != b[0] then a[0] < b[0]
    else StrLe(a[1..], b[1..])
  }

  lemma {:induction false} StrLeTotal(a: string, b: string)
    ensures StrLe(a, b) || StrLe(b, a)
  {
    if a != [] && b != [] && a[0] == b[0] {
      StrLeTotal(a[1..], b[1..]);
    }
  }

  lemma {:induction false} StrLeTransitive(a: string, b: string, c: string)
    requires StrLe(a, b) && StrLe(b, c)
    ensures StrLe(a, c)
  {
    if a != [] && b != [] && c != [] && a[0] == b[0] && b[0] == c[0] {
      StrLeTransitive(a[1..], b[1..], c[1..]);
    }
  }

  /** Strictly before in binary string order. */
  predicate StrLt(a: string, b: string) {
    StrLe(a, b) && a != b
  }

  ghost predicate SortedBy<T>(s: seq<T>, key: T -> string) {
    forall i, j :: 0 <= i < j < |s| ==> StrLe(key(s[i]), key(s[j]))
  }

  /** Inserts `x` before the first element whose key is larger than `x`'s. */
  function Insert<T>(x: T, s: seq<T>, key: T -> string): (r: seq<T>)
    requires SortedBy(s, key)
    ensures SortedBy(r, key)
    ensures multiset(r) == multiset(s) + multiset{x}
    ensures |r| == |s| + 1
  {
    if s == [] then [x]
    else if StrLe(key(x), key(s[0])) then
      assert forall j :: 0 <= j < |s| ==> StrLe(key(x), key(s[j])) by {
        forall j | 0 <= j < |s| ensures StrLe(key(x), key(s[j])) {
          if j > 0 { StrLeTransitive(key(x), key(s[0]), key(s[j])); }
        }
      }
      [x] + s
    else
      StrLeTotal(key(x), key(s[0]));
      var tail := Insert(x, s[1..], key);
      assert s == [s[0]] + s[1..];
      var r := [s[0]] + tail;
      assert forall j :: 0 <= j < |tail| ==> StrLe(key(s[0]), key(tail[j])) by {
        forall j | 0 <= j < |tail| ensures StrLe(key(s[0]), key(tail[j])) {
          assert tail[j] in multiset(tail);
          assert tail[j] == x || tail[j] in multiset(s[1..]);
          if tail[j] != x {
            var m :| 0 <= m < |s[1..]| && s[1..][m] == tail[j];
            assert s[1 + m] == tail[j];
          }
        }
      }
      r
  }

  /** `.sort({ <key>: "asc" })`: a sorted permutation of the collection. */
  function SortBy<T>(s: seq<T>, key: T -> string): (r: seq<T>)
    ensures SortedBy(r, key)
    ensures multiset(r) == multiset(s)
    ensures |r| == |s|
  {
    if s == [] then []
    else
      assert s == [s[0]] + s[1..];
      Insert(s[0], SortBy(s[1..], key), key)
  }

  /** The first position whose element satisfies `p` (`findOne` on insertion order). */
  function FindFirst<T>(s: seq<T>, p: T -> bool): (r: Option<nat>)
    ensures r.Some? ==> r.value < |s| && p(s[r.value])
    ensures r.Some? ==> forall k :: 0 <= k < r.value ==> !p(s[k])
    ensures r.None? ==> forall k :: 0 <= k < |s| ==> !p(s[k])
  {
    if s == [] then None
    else if p(s[0]) then Some(0)
    else match FindFirst(s[1..], p)
      case None => None
      case Some(i) => Some(i + 1)
  }

  /** An update query: `f` applied to exactly the elements satisfying `p`, in place. */
  function MapWhere<T>(s: seq<T>, p: T -> bool, f: T -> T): (r: seq<T>)
    ensures |r| == |s|
    ensures forall k :: 0 <= k < |s| && p(s[k]) ==> r[k] == f(s[k])
    ensures forall k :: 0 <= k < |s| && !p(s[k]) ==> r[k] == s[k]
  {
    seq(|s|, k requires 0 <= k < |s| => if p(s[k]) then f(s[k]) else s[k])
  }

  function RemoveAt<T>(s: seq<T>, i: nat): (r: seq<T>)
    requires i < |s|
    ensures |r| == |s| - 1
    ensures forall k :: 0 <= k < i ==> r[k] == s[k]
    ensures forall k :: i <= k < |r| ==> r[k] == s[k + 1]
  {
    s[..i] + s[i + 1..]
  }
}
