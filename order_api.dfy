/**
 * order-api/index.js, the older order API: `POST /orders` checks the three fields,
 * inserts a PENDING order, publishes `order.created` through the older client and
 * answers 202 with the new order's id. Anything that throws becomes a 500.
 */
module OrderApi {
  import opened Wrappers
  import opened Js
  import opened Http
  import Tables
  import Amqp
  import Config
  import Envelope
  import LegacyRabbit

  const RequiredMessage: string := "userId, showId, quantity are required"

  /** The three request fields. */
  datatype Fields = Fields(userId: Value, showId: Value, quantity: Value)

  /** `const { userId, showId, quantity } = req.body`, which throws (None) on a
      nullish body. */
  function Destructure(body: Value): (f: Option<Fields>)
    ensures f.None? <==> Nullish(body)
    ensures body.Obj? ==> f == Some(Fields(Prop(body.props, "userId"), Prop(body.props, "showId"),
                                             Prop(body.props, "quantity")))
  {
    match (Field(body, "userId"), Field(body, "showId"), Field(body, "quantity"))
    case (Some(u), Some(s), Some(q)) => Some(Fields(u, s, q))
    case _ => None
  }

  /** The guard `!userId || !showId || !quantity` lets the request through. */
  predicate Complete(f: Fields) {
    Truthy(f.userId) && Truthy(f.showId) && Truthy(f.quantity)
  }

  /** The request before any effect: the fields when it may go on, otherwise the
      response it gets at once. */
  function Validate(body: Value): (r: Result<Fields, Response>)
    ensures r.Success? <==> Destructure(body).Some? && Complete(Destructure(body).value)
    ensures r.Success? ==> r.value == Destructure(body).value
    ensures r.Failure? && Nullish(body) ==> r.error == ErrorResponse(500, "internal_error")
    ensures r.Failure? && !Nullish(body) ==> r.error == ErrorResponse(400, RequiredMessage)
  {
    match Destructure(body)
    case None => Failure(ErrorResponse(500, "internal_error"))
    case Some(f) => if Complete(f) then Success(f) else Failure(ErrorResponse(400, RequiredMessage))
  }

  /** The `order.created` payload for order `id`. */
  function CreatedPayload(id: int, f: Fields): (p: Envelope.Record)
    ensures p.Keys == {"type", "orderId", "userId", "showId", "quantity", "status"}
    ensures p["type"] == Str("order.created") && p["orderId"] == Num(id) && p["status"] == Str("PENDING")
    ensures p["userId"] == f.userId && p["showId"] == f.showId && p["quantity"] == f.quantity
  {
    map["type" := Str("order.created"), "orderId" := Num(id), "userId" := f.userId,
        "showId" := f.showId, "quantity" := f.quantity, "status" := Str("PENDING")]
  }

  /** `res.status(202).json({ status: "accepted", orderId })` */
  function AcceptedResponse(id: int): (r: Response)
    ensures r.status == 202 && r.body.Obj? && r.body.props.Keys == {"status", "orderId"}
    ensures r.body.props["status"] == Str("accepted") && r.body.props["orderId"] == Num(id)
  {
    Response(202, Obj(map["status" := Str("accepted"), "orderId" := Num(id)]))
  }

  /** What `publishEvent("order.created", payload)` sends for order `id`. */
  function CreatedEvent(env: Env, id: int, f: Fields, randomId: string, createdAt: string): LegacyRabbit.Outgoing {
    var payload := CreatedPayload(id, f);
    LegacyRabbit.Outgoing(Config.EventsExchange(env), "order.created", LegacyRabbit.LegacyProps(map[]),
                          Envelope.Build(payload, Envelope.MessageIdFor(payload, Str(randomId)), createdAt))
  }

  class Api {
    const db: Tables.Database
    const client: LegacyRabbit.Client
    const broker: Amqp.Broker

    constructor (db: Tables.Database, client: LegacyRabbit.Client, broker: Amqp.Broker)
      ensures this.db == db && this.client == client && this.broker == broker
    {
      this.db, this.client, this.broker := db, client, broker;
    }

    /** The `POST /orders` handler. `insertFails` is a failing INSERT; `conn`, `ch` and
        `fault` are what `getChannel()` meets; `randomId`, `createdAt` and `bufferAccepted`
        are what `randomId()`, the clock and `ch.publish` give. */
    method PostOrders(body: Value, insertFails: bool, conn: LegacyRabbit.Handle, ch: LegacyRabbit.Handle,
                      fault: LegacyRabbit.Fault, randomId: string, createdAt: string, bufferAccepted: bool)
      returns (resp: Response)
      requires db.Valid()
      modifies db, client, broker
      ensures db.Valid() && db.tx == old(db.tx) && db.clientsOut == old(db.clientsOut)
      ensures Validate(body).Failure? || insertFails ==>
                db.Contents() == old(db.Contents()) && db.nextOrderId == old(db.nextOrderId) &&
                client.sent == old(client.sent) && client.connection == old(client.connection) &&
                client.channel == old(client.channel) && broker.View() == old(broker.View())
      ensures Validate(body).Failure? ==> resp == Validate(body).error
      ensures Validate(body).Success? && insertFails ==> resp == ErrorResponse(500, "internal_error")
      ensures Validate(body).Success? && !insertFails ==>
                db.nextOrderId == old(db.nextOrderId) + 1 &&
                if old(client.channel).Some? then
                  client.connection == old(client.connection) && client.channel == old(client.channel) &&
                  broker.View() == old(broker.View())
                else
                  client.connection == (if fault == LegacyRabbit.ConnectFails then old(client.connection) else Some(conn)) &&
                  client.channel == (if fault in {LegacyRabbit.ConnectFails, LegacyRabbit.CreateChannelFails} then None else Some(ch)) &&
                  broker.View() == LegacyRabbit.Declared(client.env, fault, old(broker.View()))
      ensures Validate(body).Success? && !insertFails ==>
                var f := Validate(body).value;
                var id := old(db.nextOrderId);
                db.Contents() == old(db.Contents()).(orders := old(db.orders) + [Tables.Order(id, f.userId, f.showId, f.quantity, Tables.OrderPending)]) &&
                (if old(client.channel).Some? || fault == LegacyRabbit.NoFault
                 then resp == AcceptedResponse(id) &&
                      client.sent == old(client.sent) + [CreatedEvent(client.env, id, f, randomId, createdAt)]
                 else resp == ErrorResponse(500, "internal_error") && client.sent == old(client.sent))
    {
      var v := Validate(body);
      if v.Failure? {
        return v.error;
      }
      var f := v.value;
      if insertFails {
        return ErrorResponse(500, "internal_error");
      }
      var orderId := db.InsertOrder(f.userId, f.showId, f.quantity, Tables.OrderPending);
      var payload := CreatedPayload(orderId, f);
      var r, _ := client.GetChannel(conn, ch, fault, broker);
      if r.Failure? {
        return ErrorResponse(500, "internal_error");
      }
      var event := client.PublishEvent("order.created", payload, map[], randomId, createdAt, bufferAccepted);
      resp := AcceptedResponse(orderId);
    }
  }

  // ---------------------------------------------------------------- properties

  /** A zero, empty or missing field is refused with 400 before anything is stored. */
  lemma FalsyFieldRejected(fields: map<string, Value>, k: string)
    requires k in {"userId", "showId", "quantity"}
    requires k !in fields || !Truthy(fields[k])
    ensures Validate(Obj(fields)) == Failure(ErrorResponse(400, RequiredMessage))
  {
  }

  /** A quantity of 0 is refused like a missing one. */
  lemma ZeroQuantityRejected(u: Value, s: Value)
    ensures Validate(Obj(map["userId" := u, "showId" := s, "quantity" := Num(0)])) ==
            Failure(ErrorResponse(400, RequiredMessage))
  {
  }

  /** A truthy value of any type passes: the guard checks presence, not type. */
  lemma AnyTruthyFieldsPass(fields: map<string, Value>)
    requires forall k :: k in {"userId", "showId", "quantity"} ==> k in fields && Truthy(fields[k])
    ensures Validate(Obj(fields)).Success?
  {
    assert "userId" in {"userId", "showId", "quantity"};
    assert "showId" in {"userId", "showId", "quantity"};
    assert "quantity" in {"userId", "showId", "quantity"};
  }

  /** The published event names the stored order: its `orderId` is the id the response
      carries, its `messageId` the generated one, and it keeps the payload's fields. */
  lemma {:induction false} EventNamesTheOrder(env: Env, id: int, f: Fields, randomId: string, createdAt: string)
    ensures var m := CreatedEvent(env, id, f, randomId, createdAt).message;
            m.Keys == {"type", "orderId", "userId", "showId", "quantity", "status", "messageId", "createdAt"} &&
            m["orderId"] == AcceptedResponse(id).body.props["orderId"] &&
            m["messageId"] == Str(randomId) && m["createdAt"] == Str(createdAt) &&
            m["type"] == Str("order.created") && m["status"] == Str("PENDING") &&
            m["quantity"] == f.quantity
  {
    var payload := CreatedPayload(id, f);
    assert "messageId" !in payload && "createdAt" !in payload;
    assert Envelope.MessageIdFor(payload, Str(randomId)) == Str(randomId);
  }
}
