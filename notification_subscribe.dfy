/**
 * src/app/modules/notification/notification.subscribe.ts: the consumer that
 * turns "create order notification" messages from the broker into stored
 * notifications. The broker and the database connection are given as data
 * (whether the queue could be set up, whether the connection was obtained);
 * the class records what the consumer did, in order.
 */
module NotificationSubscribe {
  import opened Wrappers
  import opened Outcomes
  import opened Fields
  import Documents
  import Schema
  import opened NotificationModel
  import opened NotificationService

  const OrderExchange := "eluxe.order.createOrderNotification"
  const OrderQueue := "createOrderNotificationQueue"
  const OrderRoutingKey := "createOrderNotification"

  /** A queue bound to an exchange under a routing key, with a consumer on it. */
  datatype Binding = Binding(exchange: string, queue: string, routingKey: string)

  /** `data.message` of a parsed message; the four fields the handler reads. */
  datatype OrderMessage = OrderMessage(orderId: Field, message: Field, userId: Field, kind: Field)

  /**
   * `JSON.parse(msg.content)`: text that does not parse, or a value whose
   * `message` is `None` (undefined or null, so reading its fields throws).
   */
  datatype Payload = Unparsable | Parsed(message: Option<OrderMessage>)

  datatype Event =
    | Connect                           // `dbManager.asyncOnConnect()` resolved
    | Store(outcome: Outcome<Notification>)
    | StoreThrew                        // reading a field of a missing `data.message`
    | Disconnect                        // `dbConnection.disconnect()`
    | Ack                               // `channel.ack(msg)`

  /** The object handed to `notificationService.store`: four fields, nothing else. */
  function OrderInput(m: OrderMessage): (input: NotificationInput)
    ensures input.orderId == m.orderId && input.message == m.message
    ensures input.userId == m.userId && input.kind == m.kind
    ensures input.productId.Absent? && input.name.Absent? && input.email.Absent? && input.phone.Absent?
    ensures input.subject.Absent? && input.image.Absent? && input.status.Absent?
  {
    NotificationInput(m.kind, m.orderId, Absent, m.userId, Absent, Absent, Absent, Absent, m.message, Absent, Absent)
  }

  /** `handleCreateOrderNotification`: store, swallow any failure, then disconnect. */
  function HandleEvents(message: Option<OrderMessage>, freshId: string): seq<Event> {
    match message
    case None => [StoreThrew, Disconnect]
    case Some(m) => [Store(NewNotification(freshId, OrderInput(m))), Disconnect]
  }

  /** The consumer callback's whole trace for one message. */
  function RelayEvents(payload: Payload, connects: bool, freshId: string): seq<Event> {
    match payload
    case Unparsable => [Ack]
    case Parsed(message) =>
      if connects then [Connect] + HandleEvents(message, freshId) + [Ack] else [Ack]
  }

  /** The record the relay stores for a message, if any. */
  function RelayStored(payload: Payload, connects: bool, freshId: string): (r: Option<Notification>)
    ensures r.Some? ==> Store(Resolved(r.value)) in RelayEvents(payload, connects, freshId)
  {
    if payload.Parsed? && connects && payload.message.Some?
       && NewNotification(freshId, OrderInput(payload.message.value)).Resolved?
    then
      var r := NewNotification(freshId, OrderInput(payload.message.value)).value;
      assert RelayEvents(payload, connects, freshId)[1] == Store(Resolved(r));
      Some(r)
    else None
  }

  class Subscriber {
    /** The consumers registered so far. */
    var bindings: seq<Binding>
    /** What the consumer callbacks did, across all messages. */
    var log: seq<Event>

    constructor()
      ensures bindings == [] && log == []
    {
      bindings := [];
      log := [];
    }

    /** `createOrderNotification()`: a failed queue setup is logged and registers nothing. */
    method CreateOrderNotification(setupSucceeds: bool)
      modifies this
      ensures bindings == old(bindings) + (if setupSucceeds then [Binding(OrderExchange, OrderQueue, OrderRoutingKey)] else [])
      ensures log == old(log)
    {
      if setupSucceeds {
        bindings := bindings + [Binding(OrderExchange, OrderQueue, OrderRoutingKey)];
      }
    }

    /** `handleCreateOrderNotification(data, dbConnection)` */
    method HandleCreateOrderNotification(notifications: NotificationCollection, message: Option<OrderMessage>, freshId: string)
      requires notifications.Valid() && Documents.IsStoredId(freshId)
      requires Documents.NewerThanAll(notifications.records, IdOf, freshId)
      modifies this, notifications
      ensures notifications.Valid() && bindings == old(bindings)
      ensures log == old(log) + HandleEvents(message, freshId)
      ensures message.None? ==> notifications.records == old(notifications.records) && notifications.emitted == old(notifications.emitted)
      ensures message.Some? ==>
        var after := StoreOf(old(notifications.records), freshId, OrderInput(message.value));
        notifications.records == after.0
        && notifications.emitted == old(notifications.emitted) + (if after.1.Resolved? then [after.1.value] else [])
    {
      if message.None? {
        log := log + [StoreThrew];
      } else {
        var m := message.value;
        var stored := notifications.Store(freshId, NotificationInput(m.kind, m.orderId, Absent, m.userId, Absent, Absent,
                                                                       Absent, Absent, m.message, Absent, Absent));
        log := log + [Store(stored)];
      }
      log := log + [Disconnect];
    }

    /** The consumer callback for one delivered message: parse, connect, handle, and always ack. */
    method OnMessage(notifications: NotificationCollection, payload: Payload, connects: bool, freshId: string)
      requires |bindings| > 0
      requires notifications.Valid() && Documents.IsStoredId(freshId)
      requires Documents.NewerThanAll(notifications.records, IdOf, freshId)
      modifies this, notifications
      ensures notifications.Valid() && bindings == old(bindings)
      ensures log == old(log) + RelayEvents(payload, connects, freshId)
      ensures notifications.records
        == old(notifications.records) + (if RelayStored(payload, connects, freshId).Some? then [RelayStored(payload, connects, freshId).value] else [])
      ensures notifications.emitted
        == old(notifications.emitted) + (if RelayStored(payload, connects, freshId).Some? then [RelayStored(payload, connects, freshId).value] else [])
    {
      if payload.Parsed? {
        if connects {
          log := log + [Connect];
          HandleCreateOrderNotification(notifications, payload.message, freshId);
        }
      }
      log := log + [Ack];
    }
  }

  // ---------------------------------------------------------------------------
  // Properties of the trace.

  /** Every message is acknowledged exactly once, and the ack is the last thing done. */
  lemma AckedOnceLast(payload: Payload, connects: bool, freshId: string)
    ensures var e := RelayEvents(payload, connects, freshId);
      |e| > 0 && e[|e| - 1] == Ack && multiset(e)[Ack] == 1
  {
  }

  /** A message that does not parse opens no connection and stores nothing. */
  lemma ParseFailureTouchesNothing(connects: bool, freshId: string)
    ensures RelayEvents(Unparsable, connects, freshId) == [Ack]
    ensures RelayStored(Unparsable, connects, freshId).None?
  {
  }

  /** Without a connection nothing is stored and nothing is disconnected. */
  lemma ConnectFailureStoresNothing(payload: Payload, freshId: string)
    ensures multiset(RelayEvents(payload, false, freshId))[Disconnect] == 0
    ensures forall k :: 0 <= k < |RelayEvents(payload, false, freshId)| ==> !RelayEvents(payload, false, freshId)[k].Store?
    ensures RelayStored(payload, false, freshId).None?
  {
  }

  /** A connection, once obtained, is closed exactly once, after the store attempt and before the ack. */
  lemma DisconnectIffConnected(payload: Payload, connects: bool, freshId: string)
    ensures var e := RelayEvents(payload, connects, freshId);
      multiset(e)[Connect] <= 1 && multiset(e)[Disconnect] == multiset(e)[Connect]
      && (multiset(e)[Connect] == 1 <==> payload.Parsed? && connects)
      && (multiset(e)[Connect] == 1 ==> |e| == 4 && e[0] == Connect && e[2] == Disconnect && e[3] == Ack)
  {
  }

  /** A store that fails, or a message without `message`, is swallowed: the trace still disconnects and acks. */
  lemma StoreFailureSwallowed(m: Option<OrderMessage>, freshId: string)
    requires m.None? || NewNotification(freshId, OrderInput(m.value)).Rejected?
    ensures RelayEvents(Parsed(m), true, freshId)[2..] == [Disconnect, Ack]
    ensures RelayStored(Parsed(m), true, freshId).None?
  {
  }

  /** The stored record takes its type, message, order and user from `data.message`, and nothing else. */
  lemma StoredFromMessage(m: OrderMessage, freshId: string)
    requires RelayStored(Parsed(Some(m)), true, freshId).Some?
    ensures var n := RelayStored(Parsed(Some(m)), true, freshId).value;
      n.id == freshId
      && n.kind == KindPath(m.kind).value && n.message == Schema.RequiredText(m.message).value
      && n.orderId == ObjectIdPath(m.orderId).value && n.userId == ObjectIdPath(m.userId).value
      && n.productId.None? && n.name.None? && n.subject.None? && n.image.None?
      && n.status == Some(DefaultReadState)
  {
  }
}
