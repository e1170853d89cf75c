/**
 * src/app/modules/language/language.service.ts: the language collection.
 * Besides distinct ids, the unique index on `name` keeps names distinct:
 * a write that would repeat a name is refused with a duplicate-key error.
 */
module LanguageService {
  import opened Wrappers
  import opened Outcomes
  import opened Fields
  import opened Collections
  import opened Documents
  import opened Schema
  import opened LanguageModel
  import Helpers

  /** What `update` does to the collection: `findById`, fallback assignment, `save()`. */
  function UpdateResultOf(s: seq<Language>, id: string, input: LanguageInput): (seq<Language>, Outcome<Option<Language>>) {
    SaveById(s, IdOf, id, l => FallbackUpdated(s, l, input))
  }

  /** What `updateStatus` does to the collection. */
  function UpdateStatusResultOf(s: seq<Language>, id: string, status: Field): (seq<Language>, Outcome<Option<Language>>) {
    SaveById(s, IdOf, id, l => StatusUpdated(s, l, status))
  }

  /** The documents `insertMany` sends: each one validated, without `store`'s `iso_code` default. */
  function ValidatedLanguages(ids: seq<string>, inputs: seq<LanguageInput>): (r: Outcome<seq<Language>>)
    requires |ids| == |inputs|
    ensures r.Resolved? <==> forall k :: 0 <= k < |inputs| ==> Save([], ids[k], inputs[k], Some(DefaultVisibility)).Resolved?
    ensures r.Resolved? ==> |r.value| == |inputs|
    ensures r.Resolved? ==> forall k :: 0 <= k < |inputs| ==> r.value[k] == Save([], ids[k], inputs[k], Some(DefaultVisibility)).value
  {
    if inputs == [] then Resolved([])
    else
      match Save([], ids[0], inputs[0], Some(DefaultVisibility))
      case Rejected(e) => Rejected(e)
      case Resolved(l) =>
        match ValidatedLanguages(ids[1..], inputs[1..])
        case Rejected(e) => Rejected(e)
        case Resolved(ls) => Resolved([l] + ls)
  }

  /**
   * An ordered bulk insert: documents go in one after another, and the first
   * one whose name is taken stops the batch; the ones before it stay.
   */
  function InsertOrdered(s: seq<Language>, docs: seq<Language>): (r: (seq<Language>, Outcome<seq<Language>>))
    ensures exists n :: 0 <= n <= |docs| && r.0 == s + docs[..n]
    ensures r.1.Resolved? ==> r.0 == s + docs && r.1.value == docs
    ensures r.1.Rejected? ==> r.1.failure == DuplicateKey
    decreases |docs|
  {
    if docs == [] then
      assert s + docs[..0] == s;
      (s, Resolved([]))
    else if NameTaken(s, docs[0]) then
      assert s + docs[..0] == s;
      (s, Rejected(DuplicateKey))
    else
      var rest := InsertOrdered(s + [docs[0]], docs[1..]);
      var n :| 0 <= n <= |docs[1..]| && rest.0 == s + [docs[0]] + docs[1..][..n];
      assert s + [docs[0]] + docs[1..][..n] == s + docs[..n + 1];
      assert docs == [docs[0]] + docs[1..];
      (rest.0, if rest.1.Resolved? then Resolved([docs[0]] + rest.1.value) else rest.1)
  }

  /** Every name a language in `s` has, appears once, and the ids stay in `_id` order. */
  lemma {:induction false} InsertOrderedKeepsUnique(s: seq<Language>, docs: seq<Language>)
    requires UniqueKeys(s, IdOf) && UniqueKeys(s, NameOf) && IdsAscending(s, IdOf) && IdsAscending(docs, IdOf)
    requires forall k :: 0 <= k < |docs| ==> NewerThanAll(s, IdOf, docs[k].id)
    ensures UniqueKeys(InsertOrdered(s, docs).0, IdOf) && UniqueKeys(InsertOrdered(s, docs).0, NameOf)
    ensures IdsAscending(InsertOrdered(s, docs).0, IdOf)
    decreases |docs|
  {
    if docs != [] && !NameTaken(s, docs[0]) {
      var t := s + [docs[0]];
      NewerIsUnused(s, IdOf, docs[0].id);
      AppendKeepsUniqueKeys(s, IdOf, [docs[0]]);
      AppendKeepsUniqueKeys(s, NameOf, [docs[0]]);
      AppendKeepsIdsAscending(s, IdOf, [docs[0]]);
      var rest := docs[1..];
      forall k | 0 <= k < |rest| ensures NewerThanAll(t, IdOf, rest[k].id) {
        assert rest[k] == docs[k + 1];
        assert StrLt(docs[0].id, docs[k + 1].id);
        assert NewerThanAll(s, IdOf, docs[k + 1].id);
      }
      assert IdsAscending(rest, IdOf) by {
        forall i, j | 0 <= i < j < |rest| ensures StrLt(IdOf(rest[i]), IdOf(rest[j])) {
          assert rest[i] == docs[i + 1] && rest[j] == docs[j + 1];
        }
      }
      InsertOrderedKeepsUnique(t, rest);
    }
  }

  /** The bulk insert stores only documents that were in the batch. */
  lemma InsertOrderedStored(s: seq<Language>, docs: seq<Language>)
    requires forall k :: 0 <= k < |s| ==> Stored(s[k])
    requires forall k :: 0 <= k < |docs| ==> Stored(docs[k])
    ensures forall k :: 0 <= k < |InsertOrdered(s, docs).0| ==> Stored(InsertOrdered(s, docs).0[k])
  {
    var t := InsertOrdered(s, docs).0;
    var n :| 0 <= n <= |docs| && t == s + docs[..n];
    forall k | 0 <= k < |t| ensures Stored(t[k]) {
      if k >= |s| { assert t[k] == docs[k - |s|]; }
    }
  }

  /** Replacing the record with id `d.id` by `d` keeps names distinct if `d`'s name is free. */
  lemma ReplaceKeepsUniqueNames(s: seq<Language>, i: nat, d: Language)
    requires i < |s| && s[i].id == d.id && UniqueKeys(s, IdOf) && UniqueKeys(s, NameOf) && !NameTaken(s, d)
    ensures UniqueKeys(s[i := d], NameOf) && UniqueKeys(s[i := d], IdOf)
  {
    var t := s[i := d];
    forall a, b | 0 <= a < b < |t| ensures NameOf(t[a]) != NameOf(t[b]) && IdOf(t[a]) != IdOf(t[b]) {
      if a == i { assert s[b].id != d.id; } else if b == i { assert s[a].id != d.id; }
    }
  }

  class LanguageCollection {
    var records: seq<Language>

    ghost predicate Valid()
      reads this
    {
      UniqueKeys(records, IdOf) && UniqueKeys(records, NameOf) && IdsAscending(records, IdOf)
      && forall k :: 0 <= k < |records| ==> Stored(records[k])
    }

    constructor()
      ensures Valid() && records == []
    {
      records := [];
    }

    /** `Language.findById(languageId)` */
    function GetById(id: string): (r: Outcome<Option<Language>>)
      reads this
      ensures !Helpers.CheckObjectId(id) ==> r == Rejected(CastError)
      ensures Helpers.CheckObjectId(id) ==> r.Resolved? && (r.value.Some? <==> HasIdIn(records, IdOf, CastId(id)))
      ensures r.Resolved? && r.value.Some? ==> r.value.value in records && r.value.value.id == CastId(id)
    {
      FindById(records, IdOf, id)
    }

    /** `find({status: "show"}).sort({_id: -1})` */
    function GetShowingLanguage(): (r: seq<Language>)
      reads this
      ensures forall k :: 0 <= k < |r| ==> r[k] in records && r[k].status == Some("show")
      ensures forall k :: 0 <= k < |records| && records[k].status == Some("show") ==> records[k] in r
      ensures SubsequenceOf(Reverse(r), records)
      ensures IdsAscending(records, IdOf) ==> IdsDescending(r, IdOf)
    {
      FilterNewestFirst(records, IdOf, Showing);
      ReverseFilterMembers(records, Showing);
      Reverse(Filter(records, Showing))
    }

    /** `find().sort({name: "asc"})` */
    function GetAll(): (r: seq<Language>)
      reads this
      ensures SortedBy(r, NameOf)
      ensures multiset(r) == multiset(records)
    {
      SortBy(records, NameOf)
    }

    /** `store`: the `iso_code` default, then `save()` under a fresh ObjectId. */
    method Store(freshId: string, input: LanguageInput) returns (r: Outcome<Language>)
      requires Valid() && IsStoredId(freshId) && NewerThanAll(records, IdOf, freshId)
      modifies this
      ensures Valid()
      ensures r == NewLanguage(old(records), freshId, input)
      ensures records == if r.Resolved? then old(records) + [r.value] else old(records)
    {
      var iso := DefaultIsoCode(input);
      if iso.Rejected? {
        r := Rejected(iso.failure);
        return;
      }
      var data := input.(isoCode := iso.value);
      r := Save(records, freshId, data, Some(DefaultVisibility));
      if r.Resolved? {
        NewerIsUnused(records, IdOf, freshId);
        AppendKeepsIdsAscending(records, IdOf, [r.value]);
        AppendKeepsUniqueKeys(records, IdOf, [r.value]);
        AppendKeepsUniqueKeys(records, NameOf, [r.value]);
        records := records + [r.value];
      }
    }

    /** `Language.insertMany(data)` under fresh ObjectIds. */
    method StoreMany(freshIds: seq<string>, inputs: seq<LanguageInput>) returns (r: Outcome<seq<Language>>)
      requires Valid() && |freshIds| == |inputs| && (forall k :: 0 <= k < |freshIds| ==> IsStoredId(freshIds[k]))
      requires forall k :: 0 <= k < |freshIds| ==> NewerThanAll(records, IdOf, freshIds[k])
      requires forall i, j :: 0 <= i < j < |freshIds| ==> StrLt(freshIds[i], freshIds[j])
      modifies this
      ensures Valid()
      ensures ValidatedLanguages(freshIds, inputs).Rejected? ==> r == ValidatedLanguages(freshIds, inputs) && records == old(records)
      ensures ValidatedLanguages(freshIds, inputs).Resolved? ==>
        (records, r) == InsertOrdered(old(records), ValidatedLanguages(freshIds, inputs).value)
    {
      var docs := ValidatedLanguages(freshIds, inputs);
      if docs.Rejected? {
        r := docs;
        return;
      }
      var batch := docs.value;
      assert forall k :: 0 <= k < |batch| ==> batch[k].id == freshIds[k] && Stored(batch[k]);
      assert IdsAscending(batch, IdOf);
      InsertOrderedKeepsUnique(records, batch);
      InsertOrderedStored(records, batch);
      var after := InsertOrdered(records, batch);
      records, r := after.0, after.1;
    }

    /** The `findById` / assign / `save()` shape of `update` and `updateStatus`. */
    method SaveChanged(id: string, change: Language -> Outcome<Language>) returns (r: Outcome<Option<Language>>)
      requires Valid()
      requires forall l :: change(l).Resolved? ==>
        change(l).value.id == l.id && ValidLanguage(change(l).value) && !NameTaken(records, change(l).value)
      modifies this
      ensures Valid()
      ensures (records, r) == SaveById(old(records), IdOf, id, change)
    {
      var found := FindById(records, IdOf, id);
      if found.Rejected? {
        r := Rejected(found.failure);
      } else if found.value.None? {
        r := Resolved(None);
      } else {
        var i := Locate(records, IdOf, CastId(id)).value;
        var saved := change(records[i]);
        if saved.Rejected? {
          r := Rejected(saved.failure);
        } else {
          ReplaceKeepsUniqueNames(records, i, saved.value);
          MapKeepsIdsAscending(records, IdOf, records[i := saved.value]);
          records := records[i := saved.value];
          r := Resolved(Some(saved.value));
        }
      }
    }

    /** `update`: `data.x || language.x` for name, iso_code, flag and status. */
    method Update(id: string, input: LanguageInput) returns (r: Outcome<Option<Language>>)
      requires Valid()
      modifies this
      ensures Valid()
      ensures (records, r) == UpdateResultOf(old(records), id, input)
    {
      var current := records;
      r := SaveChanged(id, l => FallbackUpdated(current, l, input));
    }

    /** `updateStatus`: `status` only. */
    method UpdateStatus(id: string, status: Field) returns (r: Outcome<Option<Language>>)
      requires Valid()
      modifies this
      ensures Valid()
      ensures (records, r) == UpdateStatusResultOf(old(records), id, status)
    {
      var current := records;
      r := SaveChanged(id, l => StatusUpdated(current, l, status));
    }

    /** `updateMany({_id: {$in: ids}}, {$set: {status}})` */
    method UpdateMany(ids: seq<string>, status: Field) returns (r: Outcome<UpdateResult>)
      requires Valid()
      modifies this
      ensures Valid()
      ensures SetString(status).Rejected? ==> r == Rejected(CastError) && records == old(records)
      ensures SetString(status).Resolved? ==>
        (records, r) == UpdateIdsIn(old(records), IdOf, ids, l => StatusSet(l, SetString(status).value))
    {
      var write := SetString(status);
      if write.Rejected? {
        r := Rejected(CastError);
      } else {
        var f := l => StatusSet(l, write.value);
        var after := UpdateIdsIn(records, IdOf, ids, f);
        MapKeepsIdsAscending(records, IdOf, after.0);
        MapKeepsUniqueKeys(records, IdOf, after.0);
        MapKeepsUniqueKeys(records, NameOf, after.0);
        records, r := after.0, after.1;
      }
    }

    /** `delete`: `findById`, then `deleteOne()` or `null`. */
    method Delete(id: string) returns (r: Outcome<Option<DeleteResult>>)
      requires Valid()
      modifies this
      ensures Valid()
      ensures (records, r) == DeleteById(old(records), IdOf, id)
    {
      var after := DeleteById(records, IdOf, id);
      DeleteKeepsIdsAscending(records, IdOf, id);
      if after.1 == Resolved(Some(DeleteResult(1))) {
        DeleteRemovesId(records, IdOf, id);
        DeleteKeepsUniqueKeys(records, IdOf, NameOf, id);
      }
      records, r := after.0, after.1;
    }

    /** `deleteMany({_id: ids})` */
    method DeleteMany(ids: seq<string>) returns (r: Outcome<DeleteResult>)
      requires Valid()
      modifies this
      ensures Valid()
      ensures (records, r) == DeleteIdsIn(old(records), IdOf, ids)
    {
      var after := DeleteIdsIn(records, IdOf, ids);
      if AllObjectIds(ids) {
        FilterKeepsUniqueKeys(records, NameOf, (d: Language) => IdOf(d) !in CastIds(ids));
      }
      records, r := after.0, after.1;
    }
  }
}
