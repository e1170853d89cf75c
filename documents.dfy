/**
 * The Mongoose calls the three record services share, on a collection held
 * as a sequence in insertion (`_id`) order: `findById`, the
 * `findById` / assign / `save()` shape of every single-record update,
 * `deleteOne` after `findById`, `updateMany` and `deleteMany` over a list of
 * ids. A filter id that is not an ObjectId makes the query reject with a
 * CastError and touches nothing; one that is, is cast to the ObjectId it
 * spells, so hex digits match whatever their case.
 */
module Documents {
  import opened Wrappers
  import opened Outcomes
  import opened Collections
  import Helpers

  datatype UpdateResult = UpdateResult(matchedCount: nat, modifiedCount: nat)
  datatype DeleteResult = DeleteResult(deletedCount: nat)

  predicate UniqueKeys<T>(s: seq<T>, idOf: T -> string) {
    forall i, j :: 0 <= i < j < |s| ==> idOf(s[i]) != idOf(s[j])
  }

  /**
   * `_id` order. ObjectIds in stored form have the same length and hex digits
   * whose code points rise with their value, so binary string order on them is
   * the ObjectIds' own order; `sort({_id: 1})` keeps the records ascending.
   */
  predicate IdsAscending<T>(s: seq<T>, idOf: T -> string) {
    forall i, j :: 0 <= i < j < |s| ==> StrLt(idOf(s[i]), idOf(s[j]))
  }

  /** `sort({_id: -1})`: newest first. */
  predicate IdsDescending<T>(s: seq<T>, idOf: T -> string) {
    forall i, j :: 0 <= i < j < |s| ==> StrLt(idOf(s[j]), idOf(s[i]))
  }

  /**
   * A freshly generated ObjectId sorts after every stored one: its leading
   * bytes are the creation time, its trailing ones a per-process counter.
   */
  predicate NewerThanAll<T>(s: seq<T>, idOf: T -> string, id: string) {
    forall k :: 0 <= k < |s| ==> StrLt(idOf(s[k]), id)
  }

  /** How an ObjectId reads back: 24 lowercase hex digits. */
  predicate IsStoredId(id: string) {
    Helpers.CheckObjectId(id) && Helpers.Lower(id) == id
  }

  /** The stored form of a filter id that passed the cast. */
  function CastId(id: string): (r: string)
    requires Helpers.CheckObjectId(id)
    ensures IsStoredId(r)
    ensures IsStoredId(id) ==> r == id
  {
    Helpers.LowerIdempotent(id);
    Helpers.Lower(id)
  }

  /** Each listed id in stored form (`$in: ids`). */
  function CastIds(ids: seq<string>): (r: seq<string>)
    requires AllObjectIds(ids)
    ensures |r| == |ids| && forall k :: 0 <= k < |ids| ==> r[k] == CastId(ids[k])
  {
    seq(|ids|, k requires 0 <= k < |ids| => CastId(ids[k]))
  }

  predicate HasIdIn<T>(s: seq<T>, idOf: T -> string, id: string) {
    exists k :: 0 <= k < |s| && idOf(s[k]) == id
  }

  /** The position of the first record with that id. */
  function Locate<T>(s: seq<T>, idOf: T -> string, id: string): (r: Option<nat>)
    ensures r.Some? ==> r.value < |s| && idOf(s[r.value]) == id
    ensures r.Some? ==> forall k :: 0 <= k < r.value ==> idOf(s[k]) != id
    ensures r.None? <==> !HasIdIn(s, idOf, id)
  {
    if s == [] then None
    else if idOf(s[0]) == id then Some(0)
    else match Locate(s[1..], idOf, id)
      case None => assert forall k :: 1 <= k < |s| ==> s[k] == s[1..][k - 1]; None
      case Some(i) => Some(i + 1)
  }

  /** With distinct ids, the located record is the only one with that id. */
  lemma LocateUnique<T>(s: seq<T>, idOf: T -> string, id: string, k: nat)
    requires UniqueKeys(s, idOf) && k < |s| && idOf(s[k]) == id
    ensures Locate(s, idOf, id) == Some(k)
  {
  }

  /** `Model.findById(id)` */
  function FindById<T>(s: seq<T>, idOf: T -> string, id: string): (r: Outcome<Option<T>>)
    ensures !Helpers.CheckObjectId(id) ==> r == Rejected(CastError)
    ensures Helpers.CheckObjectId(id) ==> r.Resolved? && (r.value.Some? <==> HasIdIn(s, idOf, CastId(id)))
    ensures r.Resolved? && r.value.Some? ==> r.value.value in s && idOf(r.value.value) == CastId(id)
  {
    if !Helpers.CheckObjectId(id) then Rejected(CastError)
    else match Locate(s, idOf, CastId(id))
      case None => Resolved(None)
      case Some(i) => Resolved(Some(s[i]))
  }

  /**
   * `findById`, then `if (doc) { <assign paths>; resolve(await doc.save()) }
   * else resolve(doc)`. `change` is the assignment plus the save's validation.
   */
  function SaveById<T>(s: seq<T>, idOf: T -> string, id: string, change: T -> Outcome<T>): (r: (seq<T>, Outcome<Option<T>>))
    ensures !Helpers.CheckObjectId(id) ==> r == (s, Rejected(CastError))
    ensures Helpers.CheckObjectId(id) && !HasIdIn(s, idOf, CastId(id)) ==> r == (s, Resolved(None))
    ensures Helpers.CheckObjectId(id) && HasIdIn(s, idOf, CastId(id)) ==>
      var i := Locate(s, idOf, CastId(id)).value;
      (change(s[i]).Rejected? ==> r == (s, Rejected(change(s[i]).failure)))
      && (change(s[i]).Resolved? ==> r == (s[i := change(s[i]).value], Resolved(Some(change(s[i]).value))))
  {
    match FindById(s, idOf, id)
    case Rejected(e) => (s, Rejected(e))
    case Resolved(None) => (s, Resolved(None))
    case Resolved(Some(doc)) =>
      var i := Locate(s, idOf, CastId(id)).value;
      match change(doc)
      case Rejected(e) => (s, Rejected(e))
      case Resolved(d) => (s[i := d], Resolved(Some(d)))
  }

  /** `findById`, then `doc.deleteOne()` or `resolve(null)`. */
  function DeleteById<T>(s: seq<T>, idOf: T -> string, id: string): (r: (seq<T>, Outcome<Option<DeleteResult>>))
    ensures !Helpers.CheckObjectId(id) ==> r == (s, Rejected(CastError))
    ensures Helpers.CheckObjectId(id) && !HasIdIn(s, idOf, CastId(id)) ==> r == (s, Resolved(None))
    ensures Helpers.CheckObjectId(id) && HasIdIn(s, idOf, CastId(id)) ==>
      r == (RemoveAt(s, Locate(s, idOf, CastId(id)).value), Resolved(Some(DeleteResult(1))))
  {
    match FindById(s, idOf, id)
    case Rejected(e) => (s, Rejected(e))
    case Resolved(None) => (s, Resolved(None))
    case Resolved(Some(_)) =>
      (RemoveAt(s, Locate(s, idOf, CastId(id)).value), Resolved(Some(DeleteResult(1))))
  }

  /** Removing the only record with an id leaves none with that id. */
  lemma {:induction false} DeleteRemovesId<T>(s: seq<T>, idOf: T -> string, id: string)
    requires UniqueKeys(s, idOf) && Helpers.CheckObjectId(id) && HasIdIn(s, idOf, CastId(id))
    ensures !HasIdIn(DeleteById(s, idOf, id).0, idOf, CastId(id))
    ensures UniqueKeys(DeleteById(s, idOf, id).0, idOf)
  {
    var i := Locate(s, idOf, CastId(id)).value;
    var t := DeleteById(s, idOf, id).0;
    assert t == RemoveAt(s, i);
    forall k | 0 <= k < |t| ensures idOf(t[k]) != CastId(id) {
      if k < i { assert t[k] == s[k]; } else { assert t[k] == s[k + 1]; }
    }
  }

  /** Deleting the same id twice: the second call finds nothing and changes nothing. */
  lemma DeleteTwice<T>(s: seq<T>, idOf: T -> string, id: string)
    requires UniqueKeys(s, idOf) && Helpers.CheckObjectId(id) && HasIdIn(s, idOf, CastId(id))
    ensures DeleteById(s, idOf, id).1 == Resolved(Some(DeleteResult(1)))
    ensures var t := DeleteById(s, idOf, id).0; DeleteById(t, idOf, id) == (t, Resolved(None))
  {
    DeleteRemovesId(s, idOf, id);
  }

  predicate AllObjectIds(ids: seq<string>) {
    forall k :: 0 <= k < |ids| ==> Helpers.CheckObjectId(ids[k])
  }

  /** `updateMany({_id: {$in: ids}}, ...)`: `f` applied to exactly the listed records. */
  function UpdateIdsIn<T>(s: seq<T>, idOf: T -> string, ids: seq<string>, f: T -> T): (r: (seq<T>, Outcome<UpdateResult>))
    ensures !AllObjectIds(ids) ==> r == (s, Rejected(CastError))
    ensures AllObjectIds(ids) ==> r.1.Resolved? && |r.0| == |s|
    ensures AllObjectIds(ids) ==> forall k :: 0 <= k < |s| ==> r.0[k] == (if idOf(s[k]) in CastIds(ids) then f(s[k]) else s[k])
    // `timestamps` sets `updated_at` on every matched record, so each match is also a modification
    ensures AllObjectIds(ids) ==>
      r.1.value.matchedCount == Count(s, (d: T) => idOf(d) in CastIds(ids)) && r.1.value.modifiedCount == r.1.value.matchedCount
  {
    if !AllObjectIds(ids) then (s, Rejected(CastError))
    else
      var listed := (d: T) => idOf(d) in CastIds(ids);
      (MapWhere(s, listed, f), Resolved(UpdateResult(Count(s, listed), Count(s, listed))))
  }

  /** `deleteMany({_id: ids})`: the array is matched as `$in`, every listed record goes. */
  function DeleteIdsIn<T>(s: seq<T>, idOf: T -> string, ids: seq<string>): (r: (seq<T>, Outcome<DeleteResult>))
    ensures !AllObjectIds(ids) ==> r == (s, Rejected(CastError))
    ensures AllObjectIds(ids) ==> r.1.Resolved? && r.1.value.deletedCount == |s| - |r.0|
    ensures AllObjectIds(ids) ==> forall k :: 0 <= k < |r.0| ==> r.0[k] in s && idOf(r.0[k]) !in CastIds(ids)
    ensures AllObjectIds(ids) ==> forall k :: 0 <= k < |s| && idOf(s[k]) !in CastIds(ids) ==> s[k] in r.0
    ensures UniqueKeys(s, idOf) ==> UniqueKeys(r.0, idOf)
    ensures IdsAscending(s, idOf) ==> IdsAscending(r.0, idOf)
  {
    if !AllObjectIds(ids) then (s, Rejected(CastError))
    else
      var unlisted := (d: T) => idOf(d) !in CastIds(ids);
      var kept := Filter(s, unlisted);
      assert UniqueKeys(s, idOf) ==> UniqueKeys(kept, idOf) by {
        if UniqueKeys(s, idOf) { FilterKeepsUniqueKeys(s, idOf, unlisted); }
      }
      assert IdsAscending(s, idOf) ==> IdsAscending(kept, idOf) by {
        if IdsAscending(s, idOf) { FilterKeepsIdsAscending(s, idOf, unlisted); }
      }
      (kept, Resolved(DeleteResult(|s| - |kept|)))
  }

  /** Applying `f` in place keeps ids distinct when `f` keeps each id. */
  lemma MapKeepsUniqueKeys<T>(s: seq<T>, idOf: T -> string, t: seq<T>)
    requires UniqueKeys(s, idOf) && |t| == |s|
    requires forall k :: 0 <= k < |s| ==> idOf(t[k]) == idOf(s[k])
    ensures UniqueKeys(t, idOf)
  {
  }

  /** Deleting by a filter keeps ids distinct. */
  lemma {:induction false} FilterKeepsUniqueKeys<T>(s: seq<T>, idOf: T -> string, p: T -> bool)
    requires UniqueKeys(s, idOf)
    ensures UniqueKeys(Filter(s, p), idOf)
  {
    if s != [] {
      FilterKeepsUniqueKeys(s[1..], idOf, p);
      assert UniqueKeys(s[1..], idOf);
      if p(s[0]) {
        var t := Filter(s, p);
        assert t == [s[0]] + Filter(s[1..], p);
        forall k | 1 <= k < |t| ensures idOf(t[0]) != idOf(t[k]) {
          assert t[k] in s[1..];
        }
      }
    }
  }

  /** Appending records under ids not yet used keeps ids distinct. */
  lemma AppendKeepsUniqueKeys<T>(s: seq<T>, idOf: T -> string, t: seq<T>)
    requires UniqueKeys(s, idOf) && UniqueKeys(t, idOf)
    requires forall k :: 0 <= k < |t| ==> !HasIdIn(s, idOf, idOf(t[k]))
    ensures UniqueKeys(s + t, idOf)
  {
    var u := s + t;
    forall i, j | 0 <= i < j < |u| ensures idOf(u[i]) != idOf(u[j]) {
      if j >= |s| && i < |s| {
        assert u[j] == t[j - |s|];
        assert !HasIdIn(s, idOf, idOf(t[j - |s|]));
      } else if i >= |s| {
        assert u[i] == t[i - |s|] && u[j] == t[j - |s|];
      }
    }
  }

  /** Removing one record keeps any key distinct. */
  lemma RemoveAtKeepsUniqueKeys<T>(s: seq<T>, key: T -> string, i: nat)
    requires UniqueKeys(s, key) && i < |s|
    ensures UniqueKeys(RemoveAt(s, i), key)
  {
    var t := RemoveAt(s, i);
    forall a, b | 0 <= a < b < |t| ensures key(t[a]) != key(t[b]) {
      var sa := if a < i then a else a + 1;
      var sb := if b < i then b else b + 1;
      assert t[a] == s[sa] && t[b] == s[sb];
    }
  }

  lemma DeleteKeepsUniqueKeys<T>(s: seq<T>, idOf: T -> string, key: T -> string, id: string)
    requires UniqueKeys(s, key) && Helpers.CheckObjectId(id) && HasIdIn(s, idOf, CastId(id))
    ensures UniqueKeys(DeleteById(s, idOf, id).0, key)
  {
    RemoveAtKeepsUniqueKeys(s, key, Locate(s, idOf, CastId(id)).value);
  }

  /** A newer id is not yet in use. */
  lemma NewerIsUnused<T>(s: seq<T>, idOf: T -> string, id: string)
    requires NewerThanAll(s, idOf, id)
    ensures !HasIdIn(s, idOf, id)
  {
  }

  /** Ascending ids are distinct. */
  lemma AscendingIsUnique<T>(s: seq<T>, idOf: T -> string)
    requires IdsAscending(s, idOf)
    ensures UniqueKeys(s, idOf)
  {
  }

  /** Newest first is the reverse of oldest first. */
  lemma {:induction false} ReverseDescends<T>(s: seq<T>, idOf: T -> string)
    requires IdsAscending(s, idOf)
    ensures IdsDescending(Reverse(s), idOf)
  {
    var r := Reverse(s);
    forall i, j | 0 <= i < j < |r| ensures StrLt(idOf(r[j]), idOf(r[i])) {
      assert r[i] == s[|s| - 1 - i] && r[j] == s[|s| - 1 - j];
    }
  }

  /** A run of consecutive records taken from a newest-first sequence is newest first. */
  lemma WindowKeepsIdsDescending<T>(t: seq<T>, idOf: T -> string, skip: nat, r: seq<T>)
    requires IdsDescending(t, idOf)
    requires forall k :: 0 <= k < |r| ==> skip + k < |t| && r[k] == t[skip + k]
    ensures IdsDescending(r, idOf)
  {
    forall i, j | 0 <= i < j < |r| ensures StrLt(idOf(r[j]), idOf(r[i])) {
      assert r[i] == t[skip + i] && r[j] == t[skip + j];
    }
  }

  /**
   * `find(filter).sort({_id: -1})` taken as the reversed filter: read back to
   * front it keeps the collection's order, and on a collection in `_id` order
   * it is newest first.
   */
  lemma FilterNewestFirst<T>(s: seq<T>, idOf: T -> string, p: T -> bool)
    ensures var listing := Reverse(Filter(s, p));
      SubsequenceOf(Reverse(listing), s) && (IdsAscending(s, idOf) ==> IdsDescending(listing, idOf))
  {
    ReverseReverse(Filter(s, p));
    FilterIsSubsequence(s, p);
    if IdsAscending(s, idOf) {
      FilterKeepsIdsAscending(s, idOf, p);
      ReverseDescends(Filter(s, p), idOf);
    }
  }

  /** The reversed filter holds exactly the records that meet the condition. */
  lemma ReverseFilterMembers<T>(s: seq<T>, p: T -> bool)
    ensures forall k :: 0 <= k < |Reverse(Filter(s, p))| ==> Reverse(Filter(s, p))[k] in s && p(Reverse(Filter(s, p))[k])
    ensures forall k :: 0 <= k < |s| && p(s[k]) ==> s[k] in Reverse(Filter(s, p))
  {
    ReverseKeepsElements(Filter(s, p));
  }

  lemma ReverseKeepsElements<T>(s: seq<T>)
    ensures forall x :: x in Reverse(s) <==> x in s
  {
    var r := Reverse(s);
    forall x | x in s ensures x in r {
      var m :| 0 <= m < |s| && s[m] == x;
      assert r[|s| - 1 - m] == x;
    }
  }

  /** Applying `f` in place keeps the `_id` order when `f` keeps each id. */
  lemma MapKeepsIdsAscending<T>(s: seq<T>, idOf: T -> string, t: seq<T>)
    requires IdsAscending(s, idOf) && |t| == |s|
    requires forall k :: 0 <= k < |s| ==> idOf(t[k]) == idOf(s[k])
    ensures IdsAscending(t, idOf)
  {
    forall i, j | 0 <= i < j < |t| ensures StrLt(idOf(t[i]), idOf(t[j])) {
      assert idOf(t[i]) == idOf(s[i]) && idOf(t[j]) == idOf(s[j]);
    }
  }

  /** A filtered collection keeps the `_id` order. */
  lemma {:induction false} FilterKeepsIdsAscending<T>(s: seq<T>, idOf: T -> string, p: T -> bool)
    requires IdsAscending(s, idOf)
    ensures IdsAscending(Filter(s, p), idOf)
  {
    if s != [] {
      assert IdsAscending(s[1..], idOf) by {
        forall i, j | 0 <= i < j < |s[1..]| ensures StrLt(idOf(s[1..][i]), idOf(s[1..][j])) {
          assert s[1..][i] == s[i + 1] && s[1..][j] == s[j + 1];
        }
      }
      FilterKeepsIdsAscending(s[1..], idOf, p);
      if p(s[0]) {
        var t := Filter(s, p);
        var rest := Filter(s[1..], p);
        assert t == [s[0]] + rest;
        forall i, j | 0 <= i < j < |t| ensures StrLt(idOf(t[i]), idOf(t[j])) {
          if i == 0 {
            assert t[j] == rest[j - 1] && rest[j - 1] in s[1..];
            var m :| 0 <= m < |s[1..]| && s[1..][m] == t[j];
            assert s[m + 1] == t[j];
          } else {
            assert t[i] == rest[i - 1] && t[j] == rest[j - 1];
          }
        }
      }
    }
  }

  /** Appending records under newer ids, oldest first, keeps the `_id` order. */
  lemma AppendKeepsIdsAscending<T>(s: seq<T>, idOf: T -> string, t: seq<T>)
    requires IdsAscending(s, idOf) && IdsAscending(t, idOf)
    requires forall k :: 0 <= k < |t| ==> NewerThanAll(s, idOf, idOf(t[k]))
    ensures IdsAscending(s + t, idOf)
  {
    var u := s + t;
    forall i, j | 0 <= i < j < |u| ensures StrLt(idOf(u[i]), idOf(u[j])) {
      if j >= |s| && i < |s| {
        assert u[i] == s[i] && u[j] == t[j - |s|];
        assert NewerThanAll(s, idOf, idOf(t[j - |s|]));
      } else if i >= |s| {
        assert u[i] == t[i - |s|] && u[j] == t[j - |s|];
      } else {
        assert u[i] == s[i] && u[j] == s[j];
      }
    }
  }

  /** Removing one record keeps the `_id` order. */
  lemma RemoveAtKeepsIdsAscending<T>(s: seq<T>, idOf: T -> string, i: nat)
    requires IdsAscending(s, idOf) && i < |s|
    ensures IdsAscending(RemoveAt(s, i), idOf)
  {
    var t := RemoveAt(s, i);
    forall a, b | 0 <= a < b < |t| ensures StrLt(idOf(t[a]), idOf(t[b])) {
      var sa := if a < i then a else a + 1;
      var sb := if b < i then b else b + 1;
      assert t[a] == s[sa] && t[b] == s[sb];
    }
  }

  lemma DeleteKeepsIdsAscending<T>(s: seq<T>, idOf: T -> string, id: string)
    requires IdsAscending(s, idOf)
    ensures IdsAscending(DeleteById(s, idOf, id).0, idOf)
  {
    if Helpers.CheckObjectId(id) && HasIdIn(s, idOf, CastId(id)) {
      RemoveAtKeepsIdsAscending(s, idOf, Locate(s, idOf, CastId(id)).value);
    }
  }
}
