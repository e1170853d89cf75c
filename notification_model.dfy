/**
 * The notification schema (src/app/modules/notification/notification.model.ts):
 * `type` and `message` are required, `type` is one of four kinds, the three
 * references are optional ObjectIds, `status` is read/unread and defaults to
 * "unread". Neither enum path lowercases.
 */
module NotificationModel {
  import opened Wrappers
  import opened Outcomes
  import opened Fields
  import opened Schema
  import Helpers
  import Documents

  datatype Notification = Notification(
    id: string,
    kind: string,
    orderId: Option<string>,
    productId: Option<string>,
    userId: Option<string>,
    name: Option<string>,
    email: Option<string>,
    phone: Option<string>,
    subject: Option<string>,
    message: string,
    image: Option<string>,
    status: Option<string>)

  datatype NotificationInput = NotificationInput(
    kind: Field,
    orderId: Field,
    productId: Field,
    userId: Field,
    name: Field,
    email: Field,
    phone: Field,
    subject: Field,
    message: Field,
    image: Field,
    status: Field)

  /** `enum: ["order", "product", "contact", "customization"]` */
  predicate IsNotificationType(t: string) {
    t == "order" || t == "product" || t == "contact" || t == "customization"
  }

  /** `enum: ["read", "unread"]` */
  predicate IsReadState(v: string) { v == "read" || v == "unread" }

  const DefaultReadState := "unread"

  predicate ValidNotification(n: Notification) {
    IsNotificationType(n.kind) && n.message != ""
    && (n.status.Some? ==> IsReadState(n.status.value))
    && (n.orderId.Some? ==> Documents.IsStoredId(n.orderId.value))
    && (n.productId.Some? ==> Documents.IsStoredId(n.productId.value))
    && (n.userId.Some? ==> Documents.IsStoredId(n.userId.value))
  }

  /** What every stored notification satisfies; status updates skip validation, so not `status`. */
  predicate Stored(n: Notification) {
    Documents.IsStoredId(n.id) && IsNotificationType(n.kind) && n.message != ""
  }

  function IdOf(n: Notification): string { n.id }

  predicate IsUnread(n: Notification) { n.status == Some("unread") }

  /** `status: {$in: ["read", "unread"]}` */
  predicate IsListed(n: Notification) { n.status.Some? && IsReadState(n.status.value) }

  /** `{type: ObjectId}`: unset (`undefined` or `null`), or a string that casts to an ObjectId. */
  function ObjectIdPath(f: Field): (r: Outcome<Option<string>>)
    ensures f.Absent? || f.Null? <==> r == Resolved(None)
    ensures r.Resolved? && r.value.Some? ==> f.Text? && Helpers.CheckObjectId(f.s) && r.value.value == Documents.CastId(f.s)
    ensures f.Text? ==> (r.Resolved? <==> Helpers.CheckObjectId(f.s))
    ensures r.Rejected? ==> r.failure == ValidationError
  {
    match f
    case Absent => Resolved(None)
    case Null => Resolved(None)
    case Text(s) => if Helpers.CheckObjectId(s) then Resolved(Some(Documents.CastId(s))) else Rejected(ValidationError)
    case _ => Rejected(ValidationError)
  }

  /** `type`: required, then the enum, with no setter. */
  function KindPath(f: Field): (r: Outcome<string>)
    ensures r.Resolved? ==> IsNotificationType(r.value)
    ensures f.Text? ==> (r.Resolved? <==> IsNotificationType(f.s)) && (r.Resolved? ==> r.value == f.s)
    ensures f.Absent? || f.Null? ==> r.Rejected?
  {
    match RequiredText(f)
    case Rejected(e) => Rejected(e)
    case Resolved(t) => if IsNotificationType(t) then Resolved(t) else Rejected(ValidationError)
  }

  /**
   * `status`: the enum with its default, with no setter (unlike the show/hide
   * paths). `undefined` takes the default; `null` passes the enum and leaves
   * the path without a value.
   */
  function ReadStatePath(f: Field, fallback: Option<string>): (r: Outcome<Option<string>>)
    ensures f.Absent? ==> r == Resolved(fallback)
    ensures f.Null? ==> r == Resolved(None)
    ensures !f.Absent? && !f.Null? && r.Resolved? ==> r.value.Some? && IsReadState(r.value.value)
    ensures f.Text? ==> (r.Resolved? <==> IsReadState(f.s))
    ensures r.Rejected? ==> r.failure == ValidationError
  {
    match OptionalText(f)
    case Rejected(e) => Rejected(e)
    case Resolved(None) => if f.Absent? then Resolved(fallback) else Resolved(None)
    case Resolved(Some(s)) => if IsReadState(s) then Resolved(Some(s)) else Rejected(ValidationError)
  }

  /** `new Notification(data).save()` */
  function NewNotification(id: string, input: NotificationInput): (r: Outcome<Notification>)
    ensures r.Resolved? ==> ValidNotification(r.value) && r.value.id == id
    ensures r.Resolved? && input.status.Absent? ==> r.value.status == Some(DefaultReadState)
    ensures r.Resolved? && input.status.Null? ==> r.value.status == None
    ensures r.Resolved? <==>
      KindPath(input.kind).Resolved? && RequiredText(input.message).Resolved?
      && ObjectIdPath(input.orderId).Resolved? && ObjectIdPath(input.productId).Resolved? && ObjectIdPath(input.userId).Resolved?
      && OptionalText(input.name).Resolved? && OptionalText(input.email).Resolved? && OptionalText(input.phone).Resolved?
      && OptionalText(input.subject).Resolved? && OptionalText(input.image).Resolved?
      && ReadStatePath(input.status, Some(DefaultReadState)).Resolved?
    ensures r.Resolved? ==>
      r.value.kind == KindPath(input.kind).value && r.value.message == RequiredText(input.message).value
      && r.value.orderId == ObjectIdPath(input.orderId).value
      && r.value.productId == ObjectIdPath(input.productId).value
      && r.value.userId == ObjectIdPath(input.userId).value
    ensures r.Rejected? ==> r.failure == ValidationError
  {
    var kind := KindPath(input.kind);
    var orderId := ObjectIdPath(input.orderId);
    var productId := ObjectIdPath(input.productId);
    var userId := ObjectIdPath(input.userId);
    var name := OptionalText(input.name);
    var email := OptionalText(input.email);
    var phone := OptionalText(input.phone);
    var subject := OptionalText(input.subject);
    var message := RequiredText(input.message);
    var image := OptionalText(input.image);
    var status := ReadStatePath(input.status, Some(DefaultReadState));
    if kind.Resolved? && orderId.Resolved? && productId.Resolved? && userId.Resolved? && name.Resolved?
      && email.Resolved? && phone.Resolved? && subject.Resolved? && message.Resolved? && image.Resolved? && status.Resolved?
    then
      Resolved(Notification(id, kind.value, orderId.value, productId.value, userId.value, name.value,
                            email.value, phone.value, subject.value, message.value, image.value, status.value))
    else
      Rejected(ValidationError)
  }

  /** A type outside the four kinds, or a missing message, is refused on save. */
  lemma KindAndMessageRequired(id: string, input: NotificationInput)
    requires input.kind.Absent? || input.kind.Null? || (input.kind.Text? && !IsNotificationType(input.kind.s))
             || input.message.Absent? || input.message.Null? || input.message == Text("")
    ensures NewNotification(id, input) == Rejected(ValidationError)
  {
  }

  /** The body's fields under the names the schema knows; nothing else is stored. */
  function MinimalInput(kind: Field, message: Field): (input: NotificationInput)
    ensures input.kind == kind && input.message == message && input.status.Absent?
  {
    NotificationInput(kind, Absent, Absent, Absent, Absent, Absent, Absent, Absent, message, Absent, Absent)
  }

  /** A notification stored from a kind and a message alone is unread and references nothing. */
  lemma MinimalNotificationIsUnread(id: string, kind: string, message: string)
    requires IsNotificationType(kind) && message != ""
    ensures NewNotification(id, MinimalInput(Text(kind), Text(message)))
      == Resolved(Notification(id, kind, None, None, None, None, None, None, None, message, None, Some("unread")))
  {
  }

  /** A notification saved with a `null` status has none, so neither `getAll` nor the unread count sees it. */
  lemma NullStatusUnlisted(id: string, kind: string, message: string)
    requires IsNotificationType(kind) && message != ""
    ensures NewNotification(id, MinimalInput(Text(kind), Text(message)).(status := Null))
      == Resolved(Notification(id, kind, None, None, None, None, None, None, None, message, None, None))
    ensures !IsListed(NewNotification(id, MinimalInput(Text(kind), Text(message)).(status := Null)).value)
    ensures !IsUnread(NewNotification(id, MinimalInput(Text(kind), Text(message)).(status := Null)).value)
  {
  }

  /**
   * `$set: {status}` on an update query: the cast runs, the enum does not; a
   * stripped `undefined` changes nothing and a `null` unsets the status.
   */
  function StatusSet(n: Notification, w: PathWrite): (r: Notification)
    ensures w.Keep? ==> r == n
    ensures w.Write? ==> r == n.(status := w.value)
  {
    match w
    case Keep => n
    case Write(v) => n.(status := v)
  }

  /** The notification is about that product (`findOne({product_id})` after the cast). */
  function ForProduct(productId: string): (p: Notification -> bool)
    requires Helpers.CheckObjectId(productId)
  {
    (n: Notification) => n.productId == Some(Documents.CastId(productId))
  }
}
