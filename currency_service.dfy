/**
 * src/app/modules/currency/currency.service.ts: the currency collection and
 * the operations on it. Queries are functions of the collection; every write
 * is a method that changes `records` as the Mongoose call does.
 */
module CurrencyService {
  import opened Wrappers
  import opened Outcomes
  import opened Fields
  import opened Collections
  import opened Documents
  import opened CurrencyModel
  import Helpers

  /** `PUT /currencies/many` with `status: null` unsets the status of every listed currency. */
  lemma UpdateManyNullUnsets(s: seq<Currency>, ids: seq<string>)
    requires AllObjectIds(ids)
    ensures var t := UpdateIdsIn(s, IdOf, ids, c => StatusSet(c, SetString(Null).value)).0;
      forall k :: 0 <= k < |s| ==> t[k] == if s[k].id in CastIds(ids) then s[k].(status := None) else s[k]
  {
  }

  /** With no `status` key the update is `$set: {}`: nothing changes, though the ids still match. */
  lemma UpdateManyUndefinedKeeps(s: seq<Currency>, ids: seq<string>)
    requires AllObjectIds(ids)
    ensures UpdateIdsIn(s, IdOf, ids, c => StatusSet(c, SetString(Absent).value)).0 == s
  {
    var t := UpdateIdsIn(s, IdOf, ids, c => StatusSet(c, SetString(Absent).value)).0;
    assert forall k :: 0 <= k < |s| ==> t[k] == s[k];
  }

  class CurrencyCollection {
    /** The stored currencies, oldest `_id` first. */
    var records: seq<Currency>

    ghost predicate Valid()
      reads this
    {
      UniqueKeys(records, IdOf) && IdsAscending(records, IdOf)
      && forall k :: 0 <= k < |records| ==> Stored(records[k])
    }

    constructor()
      ensures Valid() && records == []
    {
      records := [];
    }

    /** `Currencie.findById(currencyId)` */
    function GetById(id: string): (r: Outcome<Option<Currency>>)
      reads this
      ensures !Helpers.CheckObjectId(id) ==> r == Rejected(CastError)
      ensures Helpers.CheckObjectId(id) ==> r.Resolved? && (r.value.Some? <==> HasIdIn(records, IdOf, CastId(id)))
      ensures r.Resolved? && r.value.Some? ==> r.value.value in records && r.value.value.id == CastId(id)
    {
      FindById(records, IdOf, id)
    }

    /** `find({status: "show"}).sort({_id: -1})`: the showing currencies, newest first. */
    function GetShowingCurrency(): (r: seq<Currency>)
      reads this
      ensures forall k :: 0 <= k < |r| ==> r[k] in records && r[k].status == Some("show")
      ensures forall k :: 0 <= k < |records| && records[k].status == Some("show") ==> records[k] in r
      ensures SubsequenceOf(Reverse(r), records)
      ensures IdsAscending(records, IdOf) ==> IdsDescending(r, IdOf)
    {
      FilterNewestFirst(records, IdOf, Showing);
      ReverseFilterMembers(records, Showing);
      Reverse(Filter(records, Showing))
    }

    /** `find().sort({name: "asc"})`: every currency, ordered by name. */
    function GetAll(): (r: seq<Currency>)
      reads this
      ensures SortedBy(r, NameOf)
      ensures multiset(r) == multiset(records)
    {
      SortBy(records, NameOf)
    }

    /** `new Currencie(data).save()` under a fresh ObjectId. */
    method Store(freshId: string, input: CurrencyInput) returns (r: Outcome<Currency>)
      requires Valid() && IsStoredId(freshId) && NewerThanAll(records, IdOf, freshId)
      modifies this
      ensures Valid()
      ensures r == NewCurrency(freshId, input)
      ensures records == if r.Resolved? then old(records) + [r.value] else old(records)
    {
      r := NewCurrency(freshId, input);
      if r.Resolved? {
        NewerIsUnused(records, IdOf, freshId);
        AppendKeepsIdsAscending(records, IdOf, [r.value]);
        records := records + [r.value];
      }
    }

    /** `Currencie.insertMany(data)` under fresh ObjectIds. */
    method StoreMany(freshIds: seq<string>, inputs: seq<CurrencyInput>) returns (r: Outcome<seq<Currency>>)
      requires Valid() && |freshIds| == |inputs| && (forall k :: 0 <= k < |freshIds| ==> IsStoredId(freshIds[k]))
      requires forall k :: 0 <= k < |freshIds| ==> NewerThanAll(records, IdOf, freshIds[k])
      requires forall i, j :: 0 <= i < j < |freshIds| ==> StrLt(freshIds[i], freshIds[j])
      modifies this
      ensures Valid()
      ensures r == NewCurrencies(freshIds, inputs)
      ensures records == if r.Resolved? then old(records) + r.value else old(records)
    {
      r := NewCurrencies(freshIds, inputs);
      if r.Resolved? {
        var created := r.value;
        assert forall k :: 0 <= k < |created| ==> IdOf(created[k]) == freshIds[k];
        assert IdsAscending(created, IdOf);
        AscendingIsUnique(created, IdOf);
        forall k | 0 <= k < |created| ensures !HasIdIn(records, IdOf, IdOf(created[k])) {
          NewerIsUnused(records, IdOf, IdOf(created[k]));
        }
        AppendKeepsUniqueKeys(records, IdOf, created);
        AppendKeepsIdsAscending(records, IdOf, created);
        records := records + created;
      }
    }

    /** The `findById` / assign / `save()` shape shared by the three single-record updates. */
    method SaveChanged(id: string, change: Currency -> Outcome<Currency>) returns (r: Outcome<Option<Currency>>)
      requires Valid()
      requires forall c :: Stored(c) && change(c).Resolved? ==> change(c).value.id == c.id && Stored(change(c).value)
      modifies this
      ensures Valid()
      ensures (records, r) == SaveById(old(records), IdOf, id, change)
    {
      var found := FindById(records, IdOf, id);
      if found.Rejected? {
        r := Rejected(found.failure);
      } else if found.value.None? {
        r := Resolved(None);
      } else {
        var i := Locate(records, IdOf, CastId(id)).value;
        var saved := change(records[i]);
        if saved.Rejected? {
          r := Rejected(saved.failure);
        } else {
          MapKeepsIdsAscending(records, IdOf, records[i := saved.value]);
          records := records[i := saved.value];
          r := Resolved(Some(saved.value));
        }
      }
    }

    /** `update`: overwrites all six paths from the input. */
    method Update(id: string, input: CurrencyInput) returns (r: Outcome<Option<Currency>>)
      requires Valid()
      modifies this
      ensures Valid()
      ensures (records, r) == SaveById(old(records), IdOf, id, c => Overwritten(c, input))
    {
      r := SaveChanged(id, c => Overwritten(c, input));
    }

    /** `updateStatus`: `status`, and `live_exchange_rates` when the new status is truthy. */
    method UpdateStatus(id: string, status: Field) returns (r: Outcome<Option<Currency>>)
      requires Valid()
      modifies this
      ensures Valid()
      ensures (records, r) == SaveById(old(records), IdOf, id, c => StatusUpdated(c, status))
    {
      r := SaveChanged(id, c => StatusUpdated(c, status));
    }

    /** `updateLiveExchangeRateStatus`: `live_exchange_rates` only. */
    method UpdateLiveExchangeRateStatus(id: string, live: Field) returns (r: Outcome<Option<Currency>>)
      requires Valid()
      modifies this
      ensures Valid()
      ensures (records, r) == SaveById(old(records), IdOf, id, c => LiveUpdated(c, live))
    {
      r := SaveChanged(id, c => LiveUpdated(c, live));
    }

    /** `updateMany({_id: {$in: ids}}, {$set: {status}})` */
    method UpdateMany(ids: seq<string>, status: Field) returns (r: Outcome<UpdateResult>)
      requires Valid()
      modifies this
      ensures Valid()
      ensures SetString(status).Rejected? ==> r == Rejected(CastError) && records == old(records)
      ensures SetString(status).Resolved? ==>
        (records, r) == UpdateIdsIn(old(records), IdOf, ids, c => StatusSet(c, SetString(status).value))
    {
      var write := SetString(status);
      if write.Rejected? {
        r := Rejected(CastError);
      } else {
        var f := c => StatusSet(c, write.value);
        var after := UpdateIdsIn(records, IdOf, ids, f);
        MapKeepsUniqueKeys(records, IdOf, after.0);
        MapKeepsIdsAscending(records, IdOf, after.0);
        records, r := after.0, after.1;
      }
    }

    /** `delete`: `findById`, then `deleteOne()` or `null`. */
    method Delete(id: string) returns (r: Outcome<Option<DeleteResult>>)
      requires Valid()
      modifies this
      ensures Valid()
      ensures (records, r) == DeleteById(old(records), IdOf, id)
    {
      var after := DeleteById(records, IdOf, id);
      DeleteKeepsIdsAscending(records, IdOf, id);
      if after.1 == Resolved(Some(DeleteResult(1))) {
        DeleteRemovesId(records, IdOf, id);
      }
      records, r := after.0, after.1;
    }

    /** `deleteMany({_id: ids})` */
    method DeleteMany(ids: seq<string>) returns (r: Outcome<DeleteResult>)
      requires Valid()
      modifies this
      ensures Valid()
      ensures (records, r) == DeleteIdsIn(old(records), IdOf, ids)
    {
      var after := DeleteIdsIn(records, IdOf, ids);
      records, r := after.0, after.1;
    }
  }
}
