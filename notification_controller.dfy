/**
 * src/app/modules/notification/notification.controller.ts. The handlers that
 * only decide a response are functions of the request and the settled
 * service promise. `store` also hands a contact e-mail to the message
 * broker without waiting for it; that handler is a method of `Controller`,
 * whose `published` field records what was handed over.
 */
module NotificationController {
  import opened Wrappers
  import opened Outcomes
  import opened Fields
  import Codes
  import CustomResponse
  import Helpers
  import Documents
  import Schema
  import opened Collections
  import opened Replies
  import opened NotificationModel
  import opened NotificationService

  datatype Body =
    | One(notification: Notification)
    | Listed(listing: Listing)
    | Read(reply: StatusReply)
    | Updated(update: Documents.UpdateResult)
    | Deleted(deletion: Documents.DeleteResult)

  type Reply = CustomResponse.Sent<Body>

  /** The i18n keys; translation is not modelled, so the key is the message. */
  const NotFoundMessage := "notification.notificationNotFound"
  const InvalidIdMessage := "notification.invalidNotificationId"
  const AlreadyExistsMessage := "This notification already exists"

  const ContactKind := "contact"
  const MailExchange := "eluxe.email.sendMail"
  const MailRoutingKey := "sendMail"
  const ContactTemplate := "contact-notification-template.html"

  /** What the handler expects `store` to resolve with: the saved record, or the marker "ISADDED". */
  datatype StoreAnswer = Saved(notification: Notification) | IsAdded

  /** The service's `store`, seen through that type: it only ever resolves with a record. */
  function AsStoreAnswer(o: Outcome<Notification>): (r: Outcome<StoreAnswer>)
    ensures r.Resolved? <==> o.Resolved?
    ensures r.Resolved? ==> r.value == Saved(o.value)
    ensures r.Rejected? ==> r.failure == o.failure
  {
    match o
    case Resolved(n) => Resolved(Saved(n))
    case Rejected(f) => Rejected(f)
  }

  /** The `store` request body: the schema's fields and the three the e-mail also reads. */
  datatype StoreBody = StoreBody(
    input: NotificationInput,
    appName: Field,
    supportUrl: Field,
    receivers: Option<seq<string>>)   // `None`: absent or falsy

  /** The replacements handed to the contact template. */
  datatype ContactEmail = ContactEmail(
    name: Field,
    email: Field,
    phone: Field,
    subject: Field,
    message: Field,
    productName: Field,
    supportUrl: Field)

  /** The message published for the mail service; `body` is the template's data, not its rendering. */
  datatype MailMessage = MailMessage(
    senderName: Field,
    receivers: seq<string>,
    senderEmail: Field,
    subject: Field,
    template: string,
    body: ContactEmail)

  datatype Publication = Publication(exchange: string, routingKey: string, message: MailMessage)

  /** `value || fallback` */
  function Or(value: Field, fallback: string): (r: Field)
    ensures Truthy(value) ==> r == value
    ensures !Truthy(value) ==> r == Text(fallback)
  {
    if Truthy(value) then value else Text(fallback)
  }

  /** What `sendContactEmail` publishes for a body. */
  function ContactPublication(body: StoreBody): (p: Publication)
    ensures p.exchange == MailExchange && p.routingKey == MailRoutingKey
    ensures p.message.senderName == body.input.name && p.message.subject == body.input.subject
    ensures p.message.receivers == if body.receivers.Some? then body.receivers.value else []
    ensures Truthy(p.message.senderEmail) || p.message.senderEmail == Text("")
    ensures var d := p.message.body;
      (Truthy(d.name) || d.name == Text("")) && (Truthy(d.email) || d.email == Text(""))
      && (Truthy(d.phone) || d.phone == Text("")) && (Truthy(d.subject) || d.subject == Text(""))
      && (Truthy(d.message) || d.message == Text("")) && (Truthy(d.productName) || d.productName == Text(""))
      && (Truthy(d.supportUrl) || d.supportUrl == Text("#"))
  {
    var input := body.input;
    var data := ContactEmail(Or(input.name, ""), Or(input.email, ""), Or(input.phone, ""), Or(input.subject, ""),
                             Or(input.message, ""), Or(body.appName, ""), Or(body.supportUrl, "#"));
    var receivers := if body.receivers.Some? then body.receivers.value else [];
    Publication(MailExchange, MailRoutingKey,
                MailMessage(input.name, receivers, Or(input.email, ""), input.subject, ContactTemplate, data))
  }

  /** `type: "required|string", message: "required|string"`; the first failing field is reported. */
  function StoreRejection(input: NotificationInput): (r: Option<string>)
    ensures r.None? <==> RequiredString(input.kind) && RequiredString(input.message)
    ensures r.Some? ==> r.value == (if RequiredString(input.kind) then "message" else "type")
  {
    if !RequiredString(input.kind) then Some("type")
    else if !RequiredString(input.message) then Some("message")
    else None
  }

  /** `store`'s response: 412, then 409 for "ISADDED", 201 for a record, or the failure. */
  function StoreReply(body: StoreBody, stored: Outcome<StoreAnswer>): (r: Reply)
    ensures CustomResponse.WellFormed(r)
    ensures StoreRejection(body.input).Some? ==> r == InvalidBody(StoreRejection(body.input).value)
    ensures StoreRejection(body.input).None? && stored == Resolved(IsAdded) ==>
      r == CustomResponse.Error(Codes.HttpConflict, Codes.ErrResourceAlreadyExists, AlreadyExistsMessage)
    ensures CustomResponse.IsSuccess(r) <==> StoreRejection(body.input).None? && stored.Resolved? && stored.value.Saved?
    ensures CustomResponse.IsSuccess(r) ==> r.code == Codes.HttpCreated && r.body.data.data == One(stored.value.notification)
    ensures StoreRejection(body.input).None? && stored.Rejected? ==> r == Failed(stored.failure)
  {
    match StoreRejection(body.input)
    case Some(field) => InvalidBody(field)
    case None =>
      match stored
      case Rejected(f) => Failed(f)
      case Resolved(IsAdded) => CustomResponse.Error(Codes.HttpConflict, Codes.ErrResourceAlreadyExists, AlreadyExistsMessage)
      case Resolved(Saved(n)) => CustomResponse.Success(Codes.HttpCreated, One(n))
  }

  /** `store` calls `sendContactEmail` exactly when it answers 201 for a body of type "contact". */
  predicate SendsContactEmail(body: StoreBody, stored: Outcome<StoreAnswer>) {
    StoreRejection(body.input).None? && stored.Resolved? && stored.value.Saved? && body.input.kind == Text(ContactKind)
  }

  /** `index`: the page and the two counts, or the failure. */
  function Index(listing: Outcome<Listing>): (r: Reply)
    ensures CustomResponse.WellFormed(r)
    ensures listing.Resolved? ==> r == CustomResponse.Success(Codes.HttpOk, Listed(listing.value))
    ensures listing.Rejected? ==> r == Failed(listing.failure)
  {
    match listing
    case Resolved(l) => CustomResponse.Success(Codes.HttpOk, Listed(l))
    case Rejected(f) => Failed(f)
  }

  function AsRead(s: StatusReply): Body { Read(s) }
  function AsUpdated(u: Documents.UpdateResult): Body { Updated(u) }
  function AsDeleted(d: Documents.DeleteResult): Body { Deleted(d) }

  /** `updateStatus`: the body, then the id, then the service; its `null` branch is dead. */
  function UpdateStatus(id: string, status: Field, result: Outcome<StatusReply>): (r: Reply)
    ensures CustomResponse.WellFormed(r)
    ensures !RequiredString(status) ==> r == InvalidBody("status")
    ensures RequiredString(status) && !Helpers.CheckObjectId(id) ==> r == InvalidId(InvalidIdMessage)
    ensures RequiredString(status) && Helpers.CheckObjectId(id) && result.Resolved? ==>
      r == CustomResponse.Success(Codes.HttpOk, Read(result.value))
    ensures RequiredString(status) && Helpers.CheckObjectId(id) && result.Rejected? ==> r == Failed(result.failure)
  {
    if !RequiredString(status) then InvalidBody("status")
    else if !Helpers.CheckObjectId(id) then InvalidId(InvalidIdMessage)
    else Answer(Lift(result), Codes.HttpOk, AsRead, NotFoundMessage)
  }

  /** `updateManyStatus`: no validation; 200 with the update counts. */
  function UpdateManyStatus(result: Outcome<Documents.UpdateResult>): (r: Reply)
    ensures CustomResponse.WellFormed(r)
    ensures result.Resolved? ==> r == CustomResponse.Success(Codes.HttpOk, Updated(result.value))
    ensures result.Rejected? ==> r == Failed(result.failure)
  {
    match result
    case Resolved(u) => CustomResponse.Success(Codes.HttpOk, Updated(u))
    case Rejected(f) => Failed(f)
  }

  /** `delete` and `deleteByProductId`: invalid id 400, nothing found 404, removed 204. */
  function Delete(id: string, result: Outcome<Option<Documents.DeleteResult>>): (r: Reply)
    ensures CustomResponse.WellFormed(r)
    ensures !Helpers.CheckObjectId(id) ==> r == InvalidId(InvalidIdMessage)
    ensures Helpers.CheckObjectId(id) && result == Resolved(None) ==> r == NotFound(NotFoundMessage)
    ensures Helpers.CheckObjectId(id) && result.Rejected? ==> r == Failed(result.failure)
    ensures CustomResponse.IsSuccess(r) <==> Helpers.CheckObjectId(id) && result.Resolved? && result.value.Some?
    ensures CustomResponse.IsSuccess(r) ==> r.code == Codes.HttpNoContent && r.body.data.data == Deleted(result.value.value)
  {
    if Helpers.CheckObjectId(id) then Answer(result, Codes.HttpNoContent, AsDeleted, NotFoundMessage)
    else InvalidId(InvalidIdMessage)
  }

  /** `deleteMany`: 204 with the count; the `null` branch is dead. */
  function DeleteMany(result: Outcome<Documents.DeleteResult>): (r: Reply)
    ensures CustomResponse.WellFormed(r)
    ensures result.Resolved? ==> r == CustomResponse.Success(Codes.HttpNoContent, Deleted(result.value))
    ensures result.Rejected? ==> r == Failed(result.failure)
  {
    Answer(Lift(result), Codes.HttpNoContent, AsDeleted, NotFoundMessage)
  }

  class Controller {
    /** Every message handed to `rabbitmqManager.publishMessage`, in order. */
    var published: seq<Publication>

    constructor()
      ensures published == []
    {
      published := [];
    }

    /** `sendContactEmail(body)`; whether the broker accepts it is not awaited and not modelled. */
    method SendContactEmail(body: StoreBody)
      modifies this
      ensures published == old(published) + [ContactPublication(body)]
    {
      var input := body.input;
      var data := ContactEmail(Or(input.name, ""), Or(input.email, ""), Or(input.phone, ""), Or(input.subject, ""),
                               Or(input.message, ""), Or(body.appName, ""), Or(body.supportUrl, "#"));
      var receivers := if body.receivers.Some? then body.receivers.value else [];
      var message := MailMessage(input.name, receivers, Or(input.email, ""), input.subject, ContactTemplate, data);
      published := published + [Publication(MailExchange, MailRoutingKey, message)];
    }

    /** `store(req, res)` under a fresh ObjectId for the new record. */
    method Store(notifications: NotificationCollection, freshId: string, body: StoreBody) returns (reply: Reply)
      requires notifications.Valid() && Documents.IsStoredId(freshId)
      requires Documents.NewerThanAll(notifications.records, IdOf, freshId)
      modifies this, notifications
      ensures notifications.Valid()
      ensures StoreRejection(body.input).Some? ==>
        notifications.records == old(notifications.records) && published == old(published)
        && notifications.emitted == old(notifications.emitted)
        && reply == InvalidBody(StoreRejection(body.input).value)
      ensures StoreRejection(body.input).None? ==>
        var after := StoreOf(old(notifications.records), freshId, body.input);
        notifications.records == after.0
        && notifications.emitted == old(notifications.emitted) + (if after.1.Resolved? then [after.1.value] else [])
        && reply == StoreReply(body, AsStoreAnswer(after.1))
        && published == old(published)
           + (if SendsContactEmail(body, AsStoreAnswer(after.1)) then [ContactPublication(body)] else [])
    {
      var rejection := StoreRejection(body.input);
      if rejection.Some? {
        reply := InvalidBody(rejection.value);
        return;
      }
      var result := notifications.Store(freshId, body.input);
      var answer := AsStoreAnswer(result);
      if answer.Rejected? {
        reply := Failed(answer.failure);
      } else if answer.value.IsAdded? {
        reply := CustomResponse.Error(Codes.HttpConflict, Codes.ErrResourceAlreadyExists, AlreadyExistsMessage);
      } else {
        if body.input.kind == Text(ContactKind) {
          SendContactEmail(body);
        }
        reply := CustomResponse.Success(Codes.HttpCreated, One(answer.value.notification));
      }
    }
  }

  // ---------------------------------------------------------------------------
  // Properties of the decision tables, and the handlers against the service.

  /** The 409 branch is dead: against the service, `store` answers 412, 201 or the save's failure. */
  lemma StoreNeverConflicts(s: seq<Notification>, id: string, body: StoreBody)
    ensures var r := StoreReply(body, AsStoreAnswer(StoreOf(s, id, body.input).1));
      r.code == Codes.HttpPreconditionFailed || r.code == Codes.HttpCreated || r.code == Codes.HttpInternalServerError
    ensures StoreReply(body, AsStoreAnswer(StoreOf(s, id, body.input).1)).body.data
         != CustomResponse.ErrorData(Codes.ErrResourceAlreadyExists, AlreadyExistsMessage)
  {
  }

  /** A body that passes the validator with a known type is stored and answered with 201. */
  lemma StoreValidContact(s: seq<Notification>, id: string, message: string, body: StoreBody)
    requires body.input == MinimalInput(Text(ContactKind), Text(message)) && HasNonSpace(message)
    ensures var stored := AsStoreAnswer(StoreOf(s, id, body.input).1);
      StoreReply(body, stored).code == Codes.HttpCreated && SendsContactEmail(body, stored)
  {
    assert message != [] by {
      var i :| 0 <= i < |message| && !IsSpace(message[i]);
    }
    assert HasNonSpace(ContactKind) by { assert !IsSpace(ContactKind[0]); }
    MinimalNotificationIsUnread(id, ContactKind, message);
  }

  /** An empty contact form still publishes: every template field falls back, and there are no receivers. */
  lemma ContactEmailDefaults(body: StoreBody)
    requires body.input.name.Absent? && body.input.email.Absent? && body.input.phone.Absent?
    requires body.input.subject.Absent? && body.input.message.Absent?
    requires body.appName.Absent? && body.supportUrl.Absent? && body.receivers.None?
    ensures ContactPublication(body)
      == Publication(MailExchange, MailRoutingKey,
                     MailMessage(Absent, [], Text(""), Absent, ContactTemplate,
                                 ContactEmail(Text(""), Text(""), Text(""), Text(""), Text(""), Text(""), Text("#"))))
  {
  }

  /** Only a contact notification sends mail, and only once it is saved. */
  lemma OnlyContactSendsMail(body: StoreBody, stored: Outcome<StoreAnswer>)
    ensures SendsContactEmail(body, stored) ==> StoreReply(body, stored).code == Codes.HttpCreated
    ensures body.input.kind != Text(ContactKind) ==> !SendsContactEmail(body, stored)
    ensures stored.Rejected? ==> !SendsContactEmail(body, stored)
  {
  }

  /** `updateStatus` against the service: a valid id and status string always give 200 with the unread count. */
  lemma UpdateStatusAlwaysOk(s: seq<Notification>, id: string, status: string)
    requires HasNonSpace(status) && Helpers.CheckObjectId(id)
    ensures var after := StatusUpdateOf(s, id, Text(status));
      UpdateStatus(id, Text(status), after.1)
        == CustomResponse.Success(Codes.HttpOk, Read(StatusReply(Count(after.0, IsUnread), StatusReplyMessage)))
  {
  }

  /** `delete` against the service: 204 exactly for a valid id that is stored, 404 for a valid id that is not. */
  lemma DeleteAgainstStore(s: seq<Notification>, id: string)
    ensures var r := Delete(id, Documents.DeleteById(s, IdOf, id).1);
      (r.code == Codes.HttpNoContent <==> Helpers.CheckObjectId(id) && Documents.HasIdIn(s, IdOf, Documents.CastId(id)))
      && (r.code == Codes.HttpNotFound <==> Helpers.CheckObjectId(id) && !Documents.HasIdIn(s, IdOf, Documents.CastId(id)))
      && (r.code == Codes.HttpBadRequest <==> !Helpers.CheckObjectId(id))
  {
  }

  /** `deleteByProductId` against the service: 204 exactly when some notification is about that product. */
  lemma DeleteByProductIdAgainstStore(s: seq<Notification>, productId: string)
    requires Helpers.CheckObjectId(productId)
    ensures var after := DeleteByProductIdOf(s, productId);
      var r := Delete(productId, after.1);
      (r.code == Codes.HttpNoContent <==> FindFirst(s, ForProduct(productId)).Some?)
      && (r.code == Codes.HttpNotFound <==> after.0 == s)
  {
    var after := DeleteByProductIdOf(s, productId);
    if FindFirst(s, ForProduct(productId)).Some? {
      assert |after.0| == |s| - 1;
    }
  }

  /**
   * `index` against the service: 200 with both counts and at most one page of
   * notifications, or, for a query whose skip is not a non-negative number,
   * the error reply.
   */
  lemma IndexAgainstStore(s: seq<Notification>, page: QueryNumber, limit: QueryNumber)
    ensures var r := Index(ListingOf(s, page, limit));
      (r.code == Codes.HttpOk <==> ListingOf(s, page, limit).Resolved?)
      && (ListingOf(s, page, limit).Resolved? ==>
            r.body.data.data.listing.totalDoc == |s|
            && r.body.data.data.listing.totalUnreadDoc == Count(s, IsUnread)
            && (PageSize(limit) > 0 ==> |r.body.data.data.listing.notifications| <= PageSize(limit)))
      && (ListingOf(s, page, limit).Rejected? ==> r == Failed(BadCursorOption))
  {
  }

  /** A plain `GET /notifications`, without `page`, is answered 500 with the generic error number. */
  lemma IndexWithoutPageFails(s: seq<Notification>, limit: QueryNumber)
    ensures Index(ListingOf(s, Missing, limit)) == Failed(BadCursorOption)
    ensures Index(ListingOf(s, Missing, limit)).code == Codes.HttpInternalServerError
  {
  }
}
