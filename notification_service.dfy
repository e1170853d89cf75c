/**
 * src/app/modules/notification/notification.service.ts: the notification
 * collection, the listing with its counts, and the writes. Every stored
 * notification is also emitted on the socket; the emits are kept as a log.
 */
module NotificationService {
  import opened Wrappers
  import opened Outcomes
  import opened Fields
  import opened Collections
  import opened Documents
  import opened NotificationModel
  import Helpers

  const DefaultPageSize := 5
  const StatusReplyMessage := "Notification Read!"

  /** What `getAll` resolves with. */
  datatype Listing = Listing(totalDoc: nat, totalUnreadDoc: nat, notifications: seq<Notification>)

  /** What `updateStatus` resolves with: the unread count after the update. */
  datatype StatusReply = StatusReply(totalDoc: nat, message: string)

  /**
   * A value of `req.query` as `getAll` uses it. Query values are strings:
   * `Blank` is the empty string, which is falsy and 0 in arithmetic;
   * `Numeral(v)` is a non-empty string JavaScript reads as the integer `v`
   * ("0" included, which is truthy); `NotNumeric` is anything it reads as NaN,
   * a repeated key (an array) included.
   */
  datatype QueryNumber = Missing | Blank | Numeral(value: int) | NotNumeric

  /** The value in arithmetic: `undefined - 1` and `"abc" - 1` are NaN, which is `None` here. */
  function Arith(q: QueryNumber): (r: Option<int>)
    ensures r.None? <==> q.Missing? || q.NotNumeric?
    ensures q.Blank? ==> r == Some(0)
    ensures q.Numeral? ==> r == Some(q.value)
  {
    match q
    case Missing => None
    case Blank => Some(0)
    case Numeral(v) => Some(v)
    case NotNumeric => None
  }

  /** `limits = data.limit || 5`: a missing or empty limit is 5, any other string is kept as it is. */
  function Limits(limit: QueryNumber): (n: QueryNumber)
    ensures limit.Missing? || limit.Blank? ==> n == Numeral(DefaultPageSize)
    ensures !limit.Missing? && !limit.Blank? ==> n == limit
  {
    if limit.Missing? || limit.Blank? then Numeral(DefaultPageSize) else limit
  }

  /**
   * How many notifications `.limit(limits)` lets through, 0 standing for no
   * limit: MongoDB reads `limit(0)` as no limit and a negative limit as a
   * single batch of its magnitude.
   */
  function PageSize(limit: QueryNumber): (n: nat)
    requires !limit.NotNumeric?
    ensures limit.Missing? || limit.Blank? ==> n == DefaultPageSize
    ensures limit.Numeral? && limit.value >= 0 ==> n == limit.value
    ensures limit.Numeral? && limit.value < 0 ==> n == -limit.value
  {
    var l := Limits(limit).value;
    if l < 0 then -l else l
  }

  /** `skip = (pages - 1) * limits`, with NaN as `None`. */
  function Skip(page: QueryNumber, limit: QueryNumber): (skip: Option<int>)
    ensures skip.None? <==> page.Missing? || page.NotNumeric? || limit.NotNumeric?
    ensures page == Numeral(1) && !limit.NotNumeric? ==> skip == Some(0)
    ensures page.Numeral? && !limit.NotNumeric? ==>
      skip.value + Limits(limit).value == page.value * Limits(limit).value
    ensures page.Numeral? && page.value >= 1 && !limit.NotNumeric? && Limits(limit).value >= 0 ==> skip.value >= 0
  {
    var pages := Arith(page);
    var limits := Arith(Limits(limit));
    if pages.None? || limits.None? then None else Some((pages.value - 1) * limits.value)
  }

  /** `find({status: {$in: ["read", "unread"]}}).sort({_id: -1})` */
  function NewestListed(s: seq<Notification>): (r: seq<Notification>)
    ensures forall k :: 0 <= k < |r| ==> r[k] in s && IsListed(r[k])
    ensures forall k :: 0 <= k < |s| && IsListed(s[k]) ==> s[k] in r
    ensures SubsequenceOf(Reverse(r), s)
  {
    FilterNewestFirst(s, IdOf, IsListed);
    ReverseFilterMembers(s, IsListed);
    Reverse(Filter(s, IsListed))
  }

  /** On a collection in `_id` order the listing is newest first. */
  lemma NewestListedNewestFirst(s: seq<Notification>)
    requires IdsAscending(s, IdOf)
    ensures IdsDescending(NewestListed(s), IdOf)
  {
    FilterNewestFirst(s, IdOf, IsListed);
  }

  /** `.skip(skip).limit(n)`, where `.limit(0)` takes everything from `skip` on. */
  function Window(s: seq<Notification>, skip: nat, n: nat): (r: seq<Notification>)
    ensures n > 0 ==> r == Page(s, skip, n)
    ensures n == 0 ==> r == if skip < |s| then s[skip..] else []
  {
    if n > 0 then Page(s, skip, n) else if skip < |s| then s[skip..] else []
  }

  /**
   * `getAll(data)`: the two counts and one page of the listing. A skip that
   * is NaN or negative, or a limit that is not a number, makes the query
   * reject: a plain `GET /notifications` has no `page`, so its skip is NaN.
   */
  function ListingOf(s: seq<Notification>, page: QueryNumber, limit: QueryNumber): (r: Outcome<Listing>)
    ensures r.Rejected? <==> Skip(page, limit).None? || Skip(page, limit).value < 0
    ensures r.Rejected? ==> r.failure == BadCursorOption
    ensures page.Missing? ==> r == Rejected(BadCursorOption)
    ensures r.Resolved? ==> r.value.totalDoc == |s| && r.value.totalUnreadDoc == Count(s, IsUnread)
    ensures r.Resolved? ==> r.value.totalUnreadDoc <= r.value.totalDoc
    ensures r.Resolved? && PageSize(limit) > 0 ==> |r.value.notifications| <= PageSize(limit)
    ensures r.Resolved? ==> forall k :: 0 <= k < |r.value.notifications| ==>
      Skip(page, limit).value + k < |NewestListed(s)|
      && r.value.notifications[k] == NewestListed(s)[Skip(page, limit).value + k]
  {
    var skip := Skip(page, limit);
    if skip.None? || skip.value < 0 then Rejected(BadCursorOption)
    else Resolved(ListingAt(s, skip.value, PageSize(limit)))
  }

  /** The listing once the skip and the limit are known. */
  function ListingAt(s: seq<Notification>, skip: nat, n: nat): (r: Listing)
    ensures r.totalDoc == |s| && r.totalUnreadDoc == Count(s, IsUnread)
    ensures r.totalUnreadDoc <= r.totalDoc
    ensures n > 0 ==> |r.notifications| <= n
    ensures forall k :: 0 <= k < |r.notifications| ==> skip + k < |NewestListed(s)| && r.notifications[k] == NewestListed(s)[skip + k]
  {
    var newest := NewestListed(s);
    var shown := Window(newest, skip, n);
    assert forall k :: 0 <= k < |shown| ==> skip + k < |newest| && shown[k] == newest[skip + k];
    Listing(|s|, Count(s, IsUnread), shown)
  }

  /** On a collection in `_id` order every page of the listing is newest first. */
  lemma ListingNewestFirst(s: seq<Notification>, page: QueryNumber, limit: QueryNumber)
    requires IdsAscending(s, IdOf) && ListingOf(s, page, limit).Resolved?
    ensures IdsDescending(ListingOf(s, page, limit).value.notifications, IdOf)
  {
    var skip := Skip(page, limit).value;
    assert ListingOf(s, page, limit) == Resolved(ListingAt(s, skip, PageSize(limit)));
    WindowNewestFirst(s, skip, PageSize(limit));
  }

  /** A window of the newest-first listing keeps the newest-first order. */
  lemma WindowNewestFirst(s: seq<Notification>, skip: nat, n: nat)
    requires IdsAscending(s, IdOf)
    ensures IdsDescending(ListingAt(s, skip, n).notifications, IdOf)
  {
    NewestListedNewestFirst(s);
    WindowKeepsIdsDescending(NewestListed(s), IdOf, skip, ListingAt(s, skip, n).notifications);
  }

  /** A numeric page from 1 on, with a positive limit, is the page of that size after the pages before it. */
  lemma NumericPage(s: seq<Notification>, page: nat, n: nat, skip: nat)
    requires page >= 1 && n > 0 && skip == (page - 1) * n
    ensures ListingOf(s, Numeral(page), Numeral(n)).Resolved?
    ensures ListingOf(s, Numeral(page), Numeral(n)).value.notifications == Page(NewestListed(s), skip, n)
  {
    assert Skip(Numeral(page), Numeral(n)) == Some(skip);
  }

  /** The next page starts one page further on. */
  lemma NextSkip(page: nat, n: nat)
    requires page >= 1
    ensures (page + 1 - 1) * n == (page - 1) * n + n
  {
  }

  /** Pages `p` and `p + 1` of one size are the two halves of the double-size window at page `p`. */
  lemma NextPageFollows(s: seq<Notification>, page: nat, n: nat)
    requires page >= 1 && n > 0
    ensures ListingOf(s, Numeral(page), Numeral(n)).Resolved? && ListingOf(s, Numeral(page + 1), Numeral(n)).Resolved?
    ensures ListingOf(s, Numeral(page), Numeral(n)).value.notifications + ListingOf(s, Numeral(page + 1), Numeral(n)).value.notifications
      == Page(NewestListed(s), (page - 1) * n, 2 * n)
  {
    var skip, newest := (page - 1) * n, NewestListed(s);
    NextSkip(page, n);
    NumericPage(s, page, n, skip);
    NumericPage(s, page + 1, n, skip + n);
    calc {
      ListingOf(s, Numeral(page), Numeral(n)).value.notifications + ListingOf(s, Numeral(page + 1), Numeral(n)).value.notifications;
      Page(newest, skip, n) + Page(newest, skip + n, n);
      { PagesAreConsecutive(newest, skip, n, n); }
      Page(newest, skip, 2 * n);
    }
  }

  /** The first page with no limit given: the five newest listed notifications. */
  lemma DefaultFirstPage(s: seq<Notification>)
    ensures ListingOf(s, Numeral(1), Missing).Resolved?
    ensures ListingOf(s, Numeral(1), Missing).value.notifications == Page(NewestListed(s), 0, 5)
  {
  }

  /** Page 0, or a page given as the empty string, skips back past the start: the query rejects. */
  lemma PageBeforeFirstRejected(s: seq<Notification>, page: QueryNumber)
    requires page == Numeral(0) || page == Blank
    ensures ListingOf(s, page, Missing) == Rejected(BadCursorOption)
  {
  }

  /** With `limit=0` any numeric page skips nothing and lists every listed notification. */
  lemma NoLimitListsAll(s: seq<Notification>, page: int)
    ensures ListingOf(s, Numeral(page), Numeral(0)).Resolved?
    ensures ListingOf(s, Numeral(page), Numeral(0)).value.notifications == NewestListed(s)
  {
  }

  /** `updateStatus`: `findByIdAndUpdate` with `$set: {status}`, then the unread count. */
  function StatusUpdateOf(s: seq<Notification>, id: string, status: Field): (r: (seq<Notification>, Outcome<StatusReply>))
    ensures !Helpers.CheckObjectId(id) || SetString(status).Rejected? ==> r == (s, Rejected(CastError))
    ensures Helpers.CheckObjectId(id) && SetString(status).Resolved? ==>
      r.1 == Resolved(StatusReply(Count(r.0, IsUnread), StatusReplyMessage))
      && |r.0| == |s|
      && forall k :: 0 <= k < |s| ==>
           r.0[k] == if s[k].id == CastId(id) then StatusSet(s[k], SetString(status).value) else s[k]
  {
    if !Helpers.CheckObjectId(id) || SetString(status).Rejected? then (s, Rejected(CastError))
    else
      var target := CastId(id);
      var v := SetString(status).value;
      var after := MapWhere(s, (n: Notification) => n.id == target, n => StatusSet(n, v));
      (after, Resolved(StatusReply(Count(after, IsUnread), StatusReplyMessage)))
  }

  /** An unknown id changes nothing and still resolves with the count: the service never yields null. */
  lemma StatusUpdateUnknownId(s: seq<Notification>, id: string, status: Field)
    requires Helpers.CheckObjectId(id) && SetString(status).Resolved? && !HasIdIn(s, IdOf, CastId(id))
    ensures StatusUpdateOf(s, id, status) == (s, Resolved(StatusReply(Count(s, IsUnread), StatusReplyMessage)))
  {
    var r := StatusUpdateOf(s, id, status).0;
    assert forall k :: 0 <= k < |s| ==> s[k].id != CastId(id);
    assert r == s;
  }

  /** `findOne({product_id})`, then that document's `deleteOne()`, or `null`. */
  function DeleteByProductIdOf(s: seq<Notification>, productId: string): (r: (seq<Notification>, Outcome<Option<DeleteResult>>))
    ensures !Helpers.CheckObjectId(productId) ==> r == (s, Rejected(CastError))
    ensures Helpers.CheckObjectId(productId) ==> r.1.Resolved?
    ensures Helpers.CheckObjectId(productId) && FindFirst(s, ForProduct(productId)).None? ==> r == (s, Resolved(None))
    ensures Helpers.CheckObjectId(productId) && FindFirst(s, ForProduct(productId)).Some? ==>
      r == (RemoveAt(s, FindFirst(s, ForProduct(productId)).value), Resolved(Some(DeleteResult(1))))
  {
    if !Helpers.CheckObjectId(productId) then (s, Rejected(CastError))
    else match FindFirst(s, ForProduct(productId))
      case None => (s, Resolved(None))
      case Some(i) => (RemoveAt(s, i), Resolved(Some(DeleteResult(1))))
  }

  /** At most one notification goes, the oldest for that product; later ones for it stay. */
  lemma DeleteByProductIdRemovesOne(s: seq<Notification>, productId: string, j: nat)
    requires Helpers.CheckObjectId(productId) && j < |s| && ForProduct(productId)(s[j])
    ensures |DeleteByProductIdOf(s, productId).0| == |s| - 1
    ensures forall k :: j < k < |s| ==> s[k] == DeleteByProductIdOf(s, productId).0[k - 1]
  {
    var i := FindFirst(s, ForProduct(productId)).value;
    assert i <= j;
  }

  /** `store`: the new document is saved whatever is already stored (the duplicate check is commented out). */
  function StoreOf(s: seq<Notification>, id: string, input: NotificationInput): (r: (seq<Notification>, Outcome<Notification>))
    ensures r.1 == NewNotification(id, input)
    ensures r.0 == if r.1.Resolved? then s + [r.1.value] else s
  {
    match NewNotification(id, input)
    case Resolved(n) => (s + [n], Resolved(n))
    case Rejected(e) => (s, Rejected(e))
  }

  /** Storing the same data twice keeps both records, with the same product reference. */
  lemma StoringTwiceKeepsBoth(s: seq<Notification>, id1: string, id2: string, input: NotificationInput)
    requires NewNotification(id1, input).Resolved?
    ensures StoreOf(s, id1, input).1.Resolved? && StoreOf(StoreOf(s, id1, input).0, id2, input).1.Resolved?
    ensures var t := StoreOf(StoreOf(s, id1, input).0, id2, input).0;
      |t| == |s| + 2 && t[..|s|] == s && t[|s|].productId == t[|s| + 1].productId
  {
    var t1 := StoreOf(s, id1, input).0;
    assert NewNotification(id2, input).Resolved?;
    assert StoreOf(t1, id2, input).0[..|s|] == t1[..|s|];
  }

  class NotificationCollection {
    /** The stored notifications, oldest `_id` first. */
    var records: seq<Notification>
    /** Every `socket.emit('notification', n)`, in order. */
    var emitted: seq<Notification>

    ghost predicate Valid()
      reads this
    {
      UniqueKeys(records, IdOf) && IdsAscending(records, IdOf)
      && forall k :: 0 <= k < |records| ==> Stored(records[k])
    }

    constructor()
      ensures Valid() && records == [] && emitted == []
    {
      records := [];
      emitted := [];
    }

    /** `Notification.findById(notificationId)` */
    function Show(id: string): (r: Outcome<Option<Notification>>)
      reads this
      ensures !Helpers.CheckObjectId(id) ==> r == Rejected(CastError)
      ensures Helpers.CheckObjectId(id) ==> r.Resolved? && (r.value.Some? <==> HasIdIn(records, IdOf, CastId(id)))
      ensures r.Resolved? && r.value.Some? ==> r.value.value in records && r.value.value.id == CastId(id)
    {
      FindById(records, IdOf, id)
    }

    /** `getAll(req.query)`: the query's `page` and `limit` as they arrive. */
    function GetAll(page: QueryNumber, limit: QueryNumber): (r: Outcome<Listing>)
      reads this
      ensures r.Rejected? <==> Skip(page, limit).None? || Skip(page, limit).value < 0
      ensures r.Rejected? ==> r.failure == BadCursorOption
      ensures r.Resolved? ==> r.value.totalDoc == |records| && r.value.totalUnreadDoc == Count(records, IsUnread)
      ensures r.Resolved? && PageSize(limit) > 0 ==> |r.value.notifications| <= PageSize(limit)
      ensures r.Resolved? ==> forall k :: 0 <= k < |r.value.notifications| ==>
        r.value.notifications[k] in records && IsListed(r.value.notifications[k])
      ensures r.Resolved? && IdsAscending(records, IdOf) ==> IdsDescending(r.value.notifications, IdOf)
    {
      var l := ListingOf(records, page, limit);
      assert l.Resolved? ==> forall k :: 0 <= k < |l.value.notifications| ==> l.value.notifications[k] in NewestListed(records);
      if l.Resolved? && IdsAscending(records, IdOf) then ListingNewestFirst(records, page, limit); l else l
    }

    /** `new Notification(data).save()`, then the socket emit; always a new record. */
    method Store(freshId: string, input: NotificationInput) returns (r: Outcome<Notification>)
      requires Valid() && IsStoredId(freshId) && NewerThanAll(records, IdOf, freshId)
      modifies this
      ensures Valid()
      ensures (records, r) == StoreOf(old(records), freshId, input)
      ensures emitted == if r.Resolved? then old(emitted) + [r.value] else old(emitted)
    {
      r := NewNotification(freshId, input);
      if r.Resolved? {
        NewerIsUnused(records, IdOf, freshId);
        AppendKeepsUniqueKeys(records, IdOf, [r.value]);
        AppendKeepsIdsAscending(records, IdOf, [r.value]);
        records := records + [r.value];
        emitted := emitted + [r.value];
      }
    }

    /** `updateStatus(notificationId, data)` */
    method UpdateStatus(id: string, status: Field) returns (r: Outcome<StatusReply>)
      requires Valid()
      modifies this
      ensures Valid() && emitted == old(emitted)
      ensures (records, r) == StatusUpdateOf(old(records), id, status)
    {
      var after := StatusUpdateOf(records, id, status);
      MapKeepsUniqueKeys(records, IdOf, after.0);
      MapKeepsIdsAscending(records, IdOf, after.0);
      records, r := after.0, after.1;
    }

    /** `updateMany({_id: {$in: data?.ids.map(...)}}, {$set: {status}})`; missing ids throw. */
    method UpdateManyStatus(ids: Option<seq<string>>, status: Field) returns (r: Outcome<UpdateResult>)
      requires Valid()
      modifies this
      ensures Valid() && emitted == old(emitted)
      ensures ids.None? ==> r == Rejected(TypeError) && records == old(records)
      ensures ids.Some? && SetString(status).Rejected? ==> r == Rejected(CastError) && records == old(records)
      ensures ids.Some? && SetString(status).Resolved? ==>
        (records, r) == UpdateIdsIn(old(records), IdOf, ids.value, n => StatusSet(n, SetString(status).value))
    {
      if ids.None? {
        r := Rejected(TypeError);
        return;
      }
      var write := SetString(status);
      if write.Rejected? {
        r := Rejected(CastError);
      } else {
        var after := UpdateIdsIn(records, IdOf, ids.value, n => StatusSet(n, write.value));
        MapKeepsUniqueKeys(records, IdOf, after.0);
        MapKeepsIdsAscending(records, IdOf, after.0);
        records, r := after.0, after.1;
      }
    }

    /** `delete`: `findById`, then `deleteOne()` or `null`. */
    method Delete(id: string) returns (r: Outcome<Option<DeleteResult>>)
      requires Valid()
      modifies this
      ensures Valid() && emitted == old(emitted)
      ensures (records, r) == DeleteById(old(records), IdOf, id)
    {
      var after := DeleteById(records, IdOf, id);
      DeleteKeepsIdsAscending(records, IdOf, id);
      if after.1 == Resolved(Some(DeleteResult(1))) {
        DeleteRemovesId(records, IdOf, id);
      }
      records, r := after.0, after.1;
    }

    /** `deleteByProductId(productId)` */
    method DeleteByProductId(productId: string) returns (r: Outcome<Option<DeleteResult>>)
      requires Valid()
      modifies this
      ensures Valid() && emitted == old(emitted)
      ensures (records, r) == DeleteByProductIdOf(old(records), productId)
    {
      var after := DeleteByProductIdOf(records, productId);
      if Helpers.CheckObjectId(productId) && FindFirst(records, ForProduct(productId)).Some? {
        var i := FindFirst(records, ForProduct(productId)).value;
        RemoveAtKeepsUniqueKeys(records, IdOf, i);
        RemoveAtKeepsIdsAscending(records, IdOf, i);
      }
      records, r := after.0, after.1;
    }

    /** `deleteMany({_id: ids})` */
    method DeleteMany(ids: seq<string>) returns (r: Outcome<DeleteResult>)
      requires Valid()
      modifies this
      ensures Valid() && emitted == old(emitted)
      ensures (records, r) == DeleteIdsIn(old(records), IdOf, ids)
    {
      var after := DeleteIdsIn(records, IdOf, ids);
      records, r := after.0, after.1;
    }
  }
}
