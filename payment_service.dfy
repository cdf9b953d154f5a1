/**
 * app/payment-service/index.js: the order-created consumer that records a PENDING
 * payment once per message id, the optional payment-events consumer, the
 * approve/reject handlers that settle a payment, its order and the order's
 * reservations in one transaction and publish the outcome after the commit, and the
 * start-up sequence.
 */
module PaymentService {
  import opened Wrappers
  import opened Js
  import opened Tables
  import opened Http
  import Envelope
  import Amqp
  import Config
  import PaymentRabbit
  import PaymentTopology
  import OrderTopology

  // ---------------------------------------------------------------- the settling transaction

  datatype Decision = Approve | Reject

  function PaymentTarget(d: Decision): PaymentStatus {
    if d == Approve then Succeeded else Failed
  }

  function OrderTarget(d: Decision): OrderStatus {
    if d == Approve then Confirmed else Cancelled
  }

  function ReservationTarget(d: Decision): ReservationStatus {
    if d == Approve then Committed else Expired
  }

  /** A thrown `Error`: the `statusCode` the handler attached, if any, and its message. */
  datatype Error = Error(statusCode: Option<int>, message: string)

  const PaymentNotFound := Error(Some(404), "payment_not_found")
  const AlreadyProcessed := Error(Some(400), "payment_already_processed")
  const OrderNotFound := Error(Some(404), "order_not_found")

  /** The database calls of one request, in the order they are issued. */
  datatype Statement = ConnectStmt | BeginStmt | SelectStmt | UpdatePaymentsStmt
                     | UpdateOrdersStmt | UpdateReservationsStmt | CommitStmt

  /** Whether, and at which call, the database throws, and the error's message. */
  datatype DbFault = NoDbFault | FailsAt(stmt: Statement, message: string)

  predicate Throws(f: DbFault, s: Statement) {
    f.FailsAt? && f.stmt == s
  }

  function DbError(f: DbFault): Error {
    Error(None, if f.FailsAt? then f.message else "")
  }

  /** The transaction's body (the callback both handlers pass to `withTx`): the tables
      it leaves and the order row it keeps for the event, or the error it throws. */
  function Body(t: Snapshot, d: Decision, orderId: int, f: DbFault): Result<(Snapshot, Order), Error> {
    if Throws(f, SelectStmt) then Failure(DbError(f))
    else
      var rows := PaymentsOf(t.payments, orderId);
      if |rows| == 0 then Failure(PaymentNotFound)
      else if rows[0].status != PaymentPending then Failure(AlreadyProcessed)
      else if Throws(f, UpdatePaymentsStmt) then Failure(DbError(f))
      else
        var t1 := t.(payments := SetPaymentStatus(t.payments, orderId, PaymentTarget(d)));
        if Throws(f, UpdateOrdersStmt) then Failure(DbError(f))
        else
          var t2 := t1.(orders := SetOrderStatus(t1.orders, orderId, OrderTarget(d)));
          var updated := OrdersWithId(t2.orders, orderId);
          if |updated| == 0 then Failure(OrderNotFound)
          else if Throws(f, UpdateReservationsStmt) then Failure(DbError(f))
          else Success((t2.(reservations := SetReservedStatus(t2.reservations, orderId, ReservationTarget(d))), updated[0]))
  }

  /** `withTx(body)`: the body's result once BEGIN and COMMIT both succeed. */
  function Tx(t: Snapshot, d: Decision, orderId: int, f: DbFault): Result<(Snapshot, Order), Error> {
    if Throws(f, ConnectStmt) || Throws(f, BeginStmt) then Failure(DbError(f))
    else match Body(t, d, orderId, f)
      case Failure(e) => Failure(e)
      case Success(x) => if Throws(f, CommitStmt) then Failure(DbError(f)) else Success(x)
  }

  /** `res.status(err.statusCode || 500).json({ error: err.message || "internal_error" })` */
  function ErrorFor(e: Error): (r: Response)
    ensures r.status == if e.statusCode.Some? && e.statusCode.value != 0 then e.statusCode.value else 500
    ensures r.body == Obj(map["error" := Str(if e.message != "" then e.message else "internal_error")])
  {
    ErrorResponse(if e.statusCode.Some? && e.statusCode.value != 0 then e.statusCode.value else 500,
                  if e.message != "" then e.message else "internal_error")
  }

  /** The event published after the commit, built from the order row the UPDATE returned. */
  function EventPayload(d: Decision, o: Order): (p: Envelope.Record)
    ensures p.Keys == {"type", "orderId", "userId", "showId", "quantity"} + (if d == Reject then {"reason"} else {})
    ensures p["orderId"] == Num(o.id) && p["userId"] == o.userId
    ensures p["showId"] == o.showId && p["quantity"] == o.quantity
    ensures p["type"] == Str(EventType(d))
    ensures d == Reject ==> p["reason"] == Str("MANUAL_REJECTION")
  {
    var p := map["type" := Str(EventType(d)), "orderId" := Num(o.id), "userId" := o.userId,
                 "showId" := o.showId, "quantity" := o.quantity];
    if d == Reject then p["reason" := Str("MANUAL_REJECTION")] else p
  }

  function EventType(d: Decision): string {
    if d == Approve then "payment.succeeded" else "payment.failed"
  }

  /** `res.json({ status, orderId })` on success. */
  function Accepted(d: Decision, orderId: int): Response {
    Response(200, Obj(map["status" := Str(if d == Approve then "ok" else "rejected"), "orderId" := Num(orderId)]))
  }

  /** What the broker side of `publishEvent` does with the event: whether getting the
      publisher channel throws (and with what message), the generated id and clock, and
      the channel's reactions, with the message `waitForConfirms` rejects with on a nack. */
  datatype PublishOracle = PublishOracle(channelError: Option<string>, uuid: string, createdAt: string,
                                         nowMs: int, bufferAccepted: bool, returned: bool, nacked: bool,
                                         nackError: string)

  /** The event `publishEvent` hands to the channel for committed order row `o`. */
  function PublishedEvent(env: Env, d: Decision, o: Order, pub: PublishOracle): PaymentRabbit.Outgoing {
    var payload := EventPayload(d, o);
    var mid := Envelope.MessageIdFor(payload, Str(pub.uuid));
    PaymentRabbit.Outgoing(Config.EventsExchange(env), EventType(d),
                           PaymentRabbit.PublishProps(env, map[], mid, pub.nowMs),
                           Envelope.Build(payload, mid, pub.createdAt))
  }

  /** What one approve/reject request leaves behind: the tables, the event published (if
      any) and the response. */
  datatype Settled = Settled(tables: Snapshot, event: Option<PaymentRabbit.Outgoing>, resp: Response)

  function SettleSpec(t: Snapshot, env: Env, d: Decision, rawOrderId: string, f: DbFault, pub: PublishOracle): Settled {
    match ParseInt(rawOrderId)
    case None => Settled(t, None, ErrorResponse(400, "invalid_order_id"))
    case Some(orderId) =>
      match Tx(t, d, orderId, f)
      case Failure(e) => Settled(t, None, ErrorFor(e))
      case Success(committed) =>
        if pub.channelError.Some? then Settled(committed.0, None, ErrorFor(Error(None, pub.channelError.value)))
        else Settled(committed.0, Some(PublishedEvent(env, d, committed.1, pub)),
                     if PaymentRabbit.WaitForConfirms(env) && pub.nacked then ErrorFor(Error(None, pub.nackError))
                     else Accepted(d, orderId))
  }

  // ---------------------------------------------------------------- the order-created consumer

  /** `const { messageId, orderId, userId, quantity } = JSON.parse(content)`, the check
      that all four are truthy, and the amount `quantity * 100`; `parsed` is what
      JSON.parse returned, None when it threw. The result is the row the consumer
      inserts; None means the delivery is nacked, by the guard or by the catch. */
  function PaymentRowFor(parsed: Option<Value>): (row: Option<Payment>)
    ensures row.Some? <==>
              parsed.Some? && !Nullish(parsed.value) &&
              Truthy(Field(parsed.value, "messageId").value) && Truthy(Field(parsed.value, "orderId").value) &&
              Truthy(Field(parsed.value, "userId").value) && Truthy(Field(parsed.value, "quantity").value) &&
              !ToPrimitiveThrows(Field(parsed.value, "quantity").value)
    ensures row.Some? ==>
              row.value == Payment(Field(parsed.value, "orderId").value, Field(parsed.value, "userId").value,
                                   Times(Field(parsed.value, "quantity").value, 100).value, PaymentPending,
                                   Field(parsed.value, "messageId").value)
  {
    if parsed.None? || Nullish(parsed.value) then None
    else
      var v := parsed.value;
      var messageId, orderId, userId, quantity :=
        Field(v, "messageId").value, Field(v, "orderId").value, Field(v, "userId").value, Field(v, "quantity").value;
      if !Truthy(messageId) || !Truthy(orderId) || !Truthy(userId) || !Truthy(quantity) then None
      else match Times(quantity, 100)
        case None => None
        case Some(amount) => Some(Payment(orderId, userId, amount, PaymentPending, messageId))
  }

  /** The declaration `startOrderCreatedConsumer` makes itself before consuming. */
  function ConsumerQueueTopology(env: Env): Amqp.Topology {
    Amqp.Topology(
      {},
      {Amqp.Queue("payment.order-created.q", true,
                  map["x-dead-letter-exchange" := Amqp.StrArg(Config.DlxExchange(env)),
                      "x-dead-letter-routing-key" := Amqp.StrArg("events.dlq")])},
      {Amqp.Binding("payment.order-created.q", Config.EventsExchange(env), "order.created")})
  }

  /** `startPaymentEventsConsumer`: the queue it consumes, only when enabled. */
  function PaymentEventsConsumerQueue(env: Env): (q: Option<string>)
    ensures q.Some? <==> EnvIs(env, "ENABLE_PAYMENT_EVENTS_CONSUMER", "true")
    ensures q.Some? ==> q.value == "payment.events.q"
  {
    if EnvIs(env, "ENABLE_PAYMENT_EVENTS_CONSUMER", "true") then Some("payment.events.q") else None
  }

  // ---------------------------------------------------------------- start-up

  /** The awaited steps of `start()`, in order. */
  datatype StartStep = BaseTopologyStep | OrderCreatedQueueStep | PaymentEventsQueueStep
                     | PublisherChannelStep | OrderCreatedConsumerStep | PaymentEventsConsumerStep
                     | ListenStep

  const StartSequence: seq<StartStep> := [BaseTopologyStep, OrderCreatedQueueStep, PaymentEventsQueueStep,
                                          PublisherChannelStep, OrderCreatedConsumerStep,
                                          PaymentEventsConsumerStep, ListenStep]

  /** The names the two `require` calls actually yield. */
  datatype Imports = Imports(rabbit: set<string>, topology: set<string>)

  /** The step's imported function is a function (a name the module does not export is
      `undefined`, and calling it throws a TypeError). */
  predicate Callable(s: StartStep, imports: Imports) {
    match s
    case BaseTopologyStep => "ensureBaseTopology" in imports.topology
    case OrderCreatedQueueStep => "ensureOrderCreatedQueue" in imports.topology
    case PaymentEventsQueueStep => "ensurePaymentEventsQueue" in imports.topology
    case PublisherChannelStep => "getPublisherChannel" in imports.rabbit
    case OrderCreatedConsumerStep => "getChannel" in imports.rabbit
    case PaymentEventsConsumerStep => "getChannel" in imports.rabbit
    case ListenStep => true
  }

  /** The steps from step `k` on that complete, and the step at which `start()`
      rejects (ending in the fatal exit). Only the publisher-channel step sits inside a
      try: its failure is logged and start-up goes on. */
  function RunFrom(k: nat, imports: Imports): (seq<StartStep>, Option<StartStep>)
    requires k <= |StartSequence|
    decreases |StartSequence| - k
  {
    if k == |StartSequence| then ([], None)
    else
      var s := StartSequence[k];
      if Callable(s, imports) then
        var rest := RunFrom(k + 1, imports);
        ([s] + rest.0, rest.1)
      else if s == PublisherChannelStep then RunFrom(k + 1, imports)
      else ([], Some(s))
  }

  /** The `ran` steps done so far, followed by what the steps from `k` on do, make up
      the whole of `start()`. */
  ghost predicate SoFar(imports: Imports, ran: seq<StartStep>, k: nat)
    requires k <= |StartSequence|
  {
    RunFrom(0, imports) == (ran + RunFrom(k, imports).0, RunFrom(k, imports).1)
  }

  /** Awaiting step `k` either extends the completed steps, skips the logged step, or
      ends `start()` there. */
  lemma {:induction false} SoFarAdvances(imports: Imports, ran: seq<StartStep>, k: nat)
    requires k < |StartSequence| && SoFar(imports, ran, k)
    ensures Callable(StartSequence[k], imports) ==> SoFar(imports, ran + [StartSequence[k]], k + 1)
    ensures !Callable(StartSequence[k], imports) && StartSequence[k] == PublisherChannelStep ==>
              SoFar(imports, ran, k + 1)
    ensures !Callable(StartSequence[k], imports) && StartSequence[k] != PublisherChannelStep ==>
              RunFrom(0, imports) == (ran, Some(StartSequence[k]))
  {
    var s, rest := StartSequence[k], RunFrom(k + 1, imports);
    if Callable(s, imports) {
      assert ran + ([s] + rest.0) == (ran + [s]) + rest.0;
    } else if s != PublisherChannelStep {
      assert ran + [] == ran;
    }
  }

  /** The start-up sequence, step by step. */
  lemma StartSequenceSteps()
    ensures |StartSequence| == 7
    ensures StartSequence[0] == BaseTopologyStep && StartSequence[1] == OrderCreatedQueueStep
    ensures StartSequence[2] == PaymentEventsQueueStep && StartSequence[3] == PublisherChannelStep
    ensures StartSequence[4] == OrderCreatedConsumerStep && StartSequence[5] == PaymentEventsConsumerStep
    ensures StartSequence[6] == ListenStep
  {
  }

  /** What the lib files export as written (rabbit.js:230-234, rabbit-topology.js:49-52). */
  const AsWrittenImports := Imports({"getChannel", "publishEvent", "closeRabbit"},
                                    {"ensureBaseTopology", "ensurePaymentEventsQueue"})

  /** The exports `start()` evidently relies on. */
  const IntendedImports := Imports({"getChannel", "getPublisherChannel", "publishEvent", "closeRabbit"},
                                   {"ensureBaseTopology", "ensureOrderCreatedQueue", "ensurePaymentEventsQueue"})

  /** What each completed step declares on the broker. The first channel either getter
      creates asserts the two exchanges; the intended `ensureOrderCreatedQueue` declares
      what the consumer itself declares. */
  function StepTopology(s: StartStep, env: Env): Amqp.Topology {
    match s
    case BaseTopologyStep => PaymentRabbit.ExchangesOf(env).Plus(PaymentTopology.BaseTopology(env))
    case OrderCreatedQueueStep => ConsumerQueueTopology(env)
    case PaymentEventsQueueStep => PaymentTopology.PaymentEventsTopology(env)
    case PublisherChannelStep => PaymentRabbit.ExchangesOf(env)
    case OrderCreatedConsumerStep => ConsumerQueueTopology(env)
    case PaymentEventsConsumerStep => Amqp.NoTopology
    case ListenStep => Amqp.NoTopology
  }

  /** The declarations of the completed steps, in order. */
  function StepsTopology(ran: seq<StartStep>, env: Env): Amqp.Topology
    decreases |ran|
  {
    if ran == [] then Amqp.NoTopology
    else StepsTopology(ran[..|ran| - 1], env).Plus(StepTopology(ran[|ran| - 1], env))
  }

  /** One more completed step adds its declarations on top of the earlier ones. */
  lemma {:induction false} StepsTopologyAppend(base: Amqp.Topology, ran: seq<StartStep>, s: StartStep, env: Env)
    ensures base.Plus(StepsTopology(ran + [s], env)) == base.Plus(StepsTopology(ran, env)).Plus(StepTopology(s, env))
  {
    assert (ran + [s])[..|ran|] == ran;
    Amqp.PlusAssociates(base, StepsTopology(ran, env), StepTopology(s, env));
  }

  // ---------------------------------------------------------------- the service

  class Service {
    const db: Database
    const rabbit: PaymentRabbit.Rabbit
    const consumer: Amqp.ConsumerChannel
    const broker: Amqp.Broker

    constructor (db: Database, rabbit: PaymentRabbit.Rabbit, consumer: Amqp.ConsumerChannel, broker: Amqp.Broker)
      ensures this.db == db && this.rabbit == rabbit && this.consumer == consumer && this.broker == broker
    {
      this.db, this.rabbit, this.consumer, this.broker := db, rabbit, consumer, broker;
    }

    /** The callback both handlers pass to `withTx`, run inside the open transaction. On
        a throw the tables may hold the statements that already ran; `WithTx` undoes them. */
    method Callback(d: Decision, orderId: int, f: DbFault) returns (r: Result<Order, Error>)
      requires db.Valid() && db.tx.Some?
      modifies db
      ensures db.Valid() && db.tx == old(db.tx)
      ensures db.clientsOut == old(db.clientsOut) && db.nextOrderId == old(db.nextOrderId)
      ensures match Body(old(db.Contents()), d, orderId, f)
              case Success(x) => r == Success(x.1) && db.Contents() == x.0
              case Failure(e) => r == Failure(e)
    {
      if Throws(f, SelectStmt) {
        return Failure(DbError(f));
      }
      var pmt := db.SelectPayments(orderId);
      if |pmt| == 0 {
        return Failure(PaymentNotFound);
      }
      if pmt[0].status != PaymentPending {
        return Failure(AlreadyProcessed);
      }
      if Throws(f, UpdatePaymentsStmt) {
        return Failure(DbError(f));
      }
      db.UpdatePayments(orderId, PaymentTarget(d));
      if Throws(f, UpdateOrdersStmt) {
        return Failure(DbError(f));
      }
      var orderResult := db.UpdateOrders(orderId, OrderTarget(d));
      if |orderResult| == 0 {
        return Failure(OrderNotFound);
      }
      var orderForEvent := orderResult[0];
      if Throws(f, UpdateReservationsStmt) {
        return Failure(DbError(f));
      }
      db.UpdateReservations(orderId, ReservationTarget(d));
      return Success(orderForEvent);
    }

    /** `withTx(callback)`: BEGIN, the callback, COMMIT; on any throw a ROLLBACK whose own
        failure is swallowed, and the original error rethrown; the client
        is released on every path. The tables end as the callback left them exactly when
        it returns, and as they were otherwise. */
    method WithTx(d: Decision, orderId: int, f: DbFault) returns (r: Result<Order, Error>)
      requires db.Valid() && db.tx == None
      modifies db
      ensures db.Valid() && db.tx == None
      ensures db.clientsOut == old(db.clientsOut) && db.nextOrderId == old(db.nextOrderId)
      ensures match Tx(old(db.Contents()), d, orderId, f)
              case Success(x) => r == Success(x.1) && db.Contents() == x.0
              case Failure(e) => r == Failure(e) && db.Contents() == old(db.Contents())
    {
      if Throws(f, ConnectStmt) {
        return Failure(DbError(f));
      }
      db.Connect();
      if Throws(f, BeginStmt) {
        r := Failure(DbError(f));
      } else {
        db.Begin();
        r := Callback(d, orderId, f);
        if r.Success? && Throws(f, CommitStmt) {
          r := Failure(DbError(f));
        } else if r.Success? {
          db.Commit();
        }
      }
      if r.Failure? {
        // A failing ROLLBACK ends the session, which discards the transaction just the same.
        db.Rollback();
      }
      db.Release();
    }

    /** What follows the commit in both handlers: publish the event for the committed
        order row `o` and answer. */
    method PublishCommitted(d: Decision, orderId: int, o: Order, pub: PublishOracle) returns (resp: Response)
      modifies rabbit
      ensures rabbit.Handles() == old(rabbit.Handles())
      ensures pub.channelError.Some? ==>
                resp == ErrorFor(Error(None, pub.channelError.value)) && rabbit.sent == old(rabbit.sent)
      ensures pub.channelError.None? ==>
                rabbit.sent == old(rabbit.sent) + [PublishedEvent(rabbit.env, d, o, pub)] &&
                resp == if PaymentRabbit.WaitForConfirms(rabbit.env) && pub.nacked
                        then ErrorFor(Error(None, pub.nackError)) else Accepted(d, orderId)
    {
      if pub.channelError.Some? {
        return ErrorFor(Error(None, pub.channelError.value));
      }
      var published := rabbit.PublishEvent(EventType(d), EventPayload(d, o), map[],
                                            pub.uuid, pub.createdAt, pub.nowMs,
                                            pub.bufferAccepted, pub.returned, pub.nacked, pub.nackError);
      if published.Failure? {
        return ErrorFor(Error(None, published.error));
      }
      return Accepted(d, orderId);
    }

    /** `POST /payments/:orderId/approve` and `.../reject`: parse the id, run the
        transaction, and only after it commits publish the outcome; a failed publish is an
        error response but the commit stands. */
    method Settle(d: Decision, rawOrderId: string, f: DbFault, pub: PublishOracle)
      returns (resp: Response)
      requires db.Valid() && db.tx == None
      modifies db, rabbit
      ensures db.Valid() && db.tx == None && db.clientsOut == old(db.clientsOut)
      ensures db.nextOrderId == old(db.nextOrderId)
      ensures rabbit.Handles() == old(rabbit.Handles())
      ensures var spec := SettleSpec(old(db.Contents()), rabbit.env, d, rawOrderId, f, pub);
              db.Contents() == spec.tables && resp == spec.resp &&
              rabbit.sent == old(rabbit.sent) + (if spec.event.Some? then [spec.event.value] else [])
    {
      var parsed := ParseInt(rawOrderId);
      if parsed.None? {
        return ErrorResponse(400, "invalid_order_id");
      }
      var orderId := parsed.value;
      var tx := WithTx(d, orderId, f);
      if tx.Failure? {
        return ErrorFor(tx.error);
      }
      resp := PublishCommitted(d, orderId, tx.value, pub);
    }

    /** The `ch.consume(queueName, ...)` callback of `startOrderCreatedConsumer`: a null
        delivery is ignored; any other is acked exactly when its fields are all present and
        the insert succeeded, and nacked without requeue otherwise. `insertError` is the
        insert's failure, if it fails. */
    method HandleOrderCreated(msg: Option<Amqp.Delivery>, parsed: Option<Value>, insertError: Option<string>)
      requires db.Valid()
      modifies db, consumer
      ensures db.Valid() && db.tx == old(db.tx) && db.clientsOut == old(db.clientsOut)
      ensures db.nextOrderId == old(db.nextOrderId)
      ensures msg.None? ==> consumer.settlements == old(consumer.settlements) && db.Contents() == old(db.Contents())
      ensures msg.Some? ==>
                var ok := PaymentRowFor(parsed).Some? && insertError.None?;
                consumer.settlements == old(consumer.settlements) +
                  [if ok then Amqp.Acked(msg.value.tag) else Amqp.Nacked(msg.value.tag, false)] &&
                db.Contents() == (if ok then old(db.Contents()).(payments := InsertPayment(old(db.payments), PaymentRowFor(parsed).value))
                                  else old(db.Contents()))
    {
      if msg.None? {
        return;
      }
      var row := PaymentRowFor(parsed);
      if row.None? {
        consumer.Nack(msg.value.tag, false);
        return;
      }
      if insertError.Some? {
        consumer.Nack(msg.value.tag, false);
        return;
      }
      var _ := db.InsertPaymentRow(row.value);
      consumer.Ack(msg.value.tag);
    }

    /** The declarations `startOrderCreatedConsumer` makes before it starts consuming. */
    method StartOrderCreatedConsumer()
      modifies broker
      ensures broker.View() == old(broker.View()).Plus(ConsumerQueueTopology(rabbit.env))
    {
      broker.AssertQueue(Amqp.Queue("payment.order-created.q", true,
                                    map["x-dead-letter-exchange" := Amqp.StrArg(Config.DlxExchange(rabbit.env)),
                                        "x-dead-letter-routing-key" := Amqp.StrArg("events.dlq")]));
      broker.BindQueue(Amqp.Binding("payment.order-created.q", Config.EventsExchange(rabbit.env), "order.created"));
    }

    /** The `ch.consume` callback of `startPaymentEventsConsumer`: ack what parses, nack
        without requeue what does not. */
    method HandlePaymentEvent(msg: Option<Amqp.Delivery>, parsed: Option<Value>)
      modifies consumer
      ensures msg.None? ==> consumer.settlements == old(consumer.settlements)
      ensures msg.Some? ==>
                consumer.settlements == old(consumer.settlements) +
                  [if parsed.Some? then Amqp.Acked(msg.value.tag) else Amqp.Nacked(msg.value.tag, false)]
    {
      if msg.None? {
        return;
      }
      if parsed.Some? {
        consumer.Ack(msg.value.tag);
      } else {
        consumer.Nack(msg.value.tag, false);
      }
    }

    /** Carry out one completed start-up step's declarations. */
    method DeclareFor(s: StartStep)
      modifies broker
      ensures broker.View() == old(broker.View()).Plus(StepTopology(s, rabbit.env))
    {
      match s
      case BaseTopologyStep =>
        rabbit.AssertExchanges(broker);
        PaymentTopology.EnsureBaseTopology(rabbit.env, broker);
      case OrderCreatedQueueStep =>
        StartOrderCreatedConsumer();
      case PaymentEventsQueueStep =>
        PaymentTopology.EnsurePaymentEventsQueue(rabbit.env, broker);
      case PublisherChannelStep =>
        rabbit.AssertExchanges(broker);
      case OrderCreatedConsumerStep =>
        StartOrderCreatedConsumer();
      case PaymentEventsConsumerStep =>
      case ListenStep =>
    }

    /** Step `k` of `start()`, awaited: `fatal` names it when it throws outside the try.
        `base` is the broker's topology before `start()` began. */
    method Await(k: nat, imports: Imports, ran: seq<StartStep>, ghost base: Amqp.Topology)
      returns (ran': seq<StartStep>, fatal: Option<StartStep>)
      requires k < |StartSequence| && SoFar(imports, ran, k)
      requires broker.View() == base.Plus(StepsTopology(ran, rabbit.env))
      modifies broker
      ensures fatal.Some? ==> RunFrom(0, imports) == (ran', fatal)
      ensures fatal.None? ==> SoFar(imports, ran', k + 1)
      ensures broker.View() == base.Plus(StepsTopology(ran', rabbit.env))
    {
      var s := StartSequence[k];
      SoFarAdvances(imports, ran, k);
      if Callable(s, imports) {
        DeclareFor(s);
        StepsTopologyAppend(base, ran, s, rabbit.env);
        ran', fatal := ran + [s], None;
      } else {
        ran' := ran;
        fatal := if s == PublisherChannelStep then None else Some(s);
      }
    }

    /** `start()`, given what the two `require` calls yield: the steps in order, stopping
        at the first that throws outside the try. */
    method Start(imports: Imports) returns (ran: seq<StartStep>, fatal: Option<StartStep>)
      modifies broker
      ensures (ran, fatal) == RunFrom(0, imports)
      ensures broker.View() == old(broker.View()).Plus(StepsTopology(ran, rabbit.env))
    {
      ghost var base := broker.View();
      assert [] + RunFrom(0, imports).0 == RunFrom(0, imports).0;
      ran, fatal := Await(0, imports, [], base);
      if fatal.Some? { return; }
      ran, fatal := Await(1, imports, ran, base);
      if fatal.Some? { return; }
      ran, fatal := Await(2, imports, ran, base);
      if fatal.Some? { return; }
      ran, fatal := Await(3, imports, ran, base);
      if fatal.Some? { return; }
      ran, fatal := Await(4, imports, ran, base);
      if fatal.Some? { return; }
      ran, fatal := Await(5, imports, ran, base);
      if fatal.Some? { return; }
      ran, fatal := Await(6, imports, ran, base);
      if fatal.Some? { return; }
      assert ran + [] == ran;
    }
  }

  // ---------------------------------------------------------------- properties of the transaction

  /** The order-level outcomes when the database itself never fails. */
  lemma {:induction false} TxOutcomes(t: Snapshot, d: Decision, orderId: int)
    ensures PaymentsOf(t.payments, orderId) == [] ==> Tx(t, d, orderId, NoDbFault) == Failure(PaymentNotFound)
    ensures PaymentsOf(t.payments, orderId) != [] && PaymentsOf(t.payments, orderId)[0].status != PaymentPending ==>
              Tx(t, d, orderId, NoDbFault) == Failure(AlreadyProcessed)
    ensures PaymentsOf(t.payments, orderId) != [] && PaymentsOf(t.payments, orderId)[0].status == PaymentPending ==>
              (Tx(t, d, orderId, NoDbFault).Success? <==> OrdersWithId(t.orders, orderId) != []) &&
              (OrdersWithId(t.orders, orderId) == [] ==> Tx(t, d, orderId, NoDbFault) == Failure(OrderNotFound))
  {
    UpdatedOrdersStillThere(t.orders, orderId, OrderTarget(d));
  }

  /** Updating an order's status keeps as many rows with that id as before, each now with
      the new status. */
  lemma {:induction false} UpdatedOrdersStillThere(os: seq<Order>, id: int, s: OrderStatus)
    ensures |OrdersWithId(SetOrderStatus(os, id, s), id)| == |OrdersWithId(os, id)|
    ensures forall o :: o in OrdersWithId(SetOrderStatus(os, id, s), id) ==> o.status == s
    decreases |os|
  {
    if os != [] {
      var r := SetOrderStatus(os, id, s);
      UpdatedOrdersStillThere(os[1..], id, s);
      assert r[1..] == SetOrderStatus(os[1..], id, s);
    }
  }

  /** A transaction commits only when no statement failed, the first payment row was
      pending and the order exists; it then holds the three updates in order. */
  lemma {:induction false} TxCommitted(t: Snapshot, d: Decision, orderId: int, f: DbFault)
    requires Tx(t, d, orderId, f).Success?
    ensures f == NoDbFault
    ensures PaymentsOf(t.payments, orderId) != [] && PaymentsOf(t.payments, orderId)[0].status == PaymentPending
    ensures var u2 := SetOrderStatus(t.orders, orderId, OrderTarget(d));
            OrdersWithId(u2, orderId) != [] &&
            Tx(t, d, orderId, f).value ==
              (Snapshot(SetPaymentStatus(t.payments, orderId, PaymentTarget(d)), u2,
                        SetReservedStatus(t.reservations, orderId, ReservationTarget(d))),
               OrdersWithId(u2, orderId)[0])
  {
    assert Body(t, d, orderId, f).Success?;
  }

  /** A committed decision changes the order's payments, the order, and that order's
      RESERVED reservations, and no other row; the event carries the order's own row. */
  lemma {:induction false} CommittedEffects(t: Snapshot, d: Decision, orderId: int, f: DbFault)
    requires Tx(t, d, orderId, f).Success?
    ensures var (u, o) := Tx(t, d, orderId, f).value;
            |u.payments| == |t.payments| && |u.orders| == |t.orders| && |u.reservations| == |t.reservations| &&
            (forall i :: 0 <= i < |t.payments| ==>
               u.payments[i] == if t.payments[i].orderId == Num(orderId)
                                then t.payments[i].(status := PaymentTarget(d)) else t.payments[i]) &&
            (forall i :: 0 <= i < |t.orders| ==>
               u.orders[i] == if t.orders[i].id == orderId then t.orders[i].(status := OrderTarget(d)) else t.orders[i]) &&
            (forall i :: 0 <= i < |t.reservations| ==>
               u.reservations[i] == if t.reservations[i] == Reservation(orderId, Reserved)
                                    then Reservation(orderId, ReservationTarget(d)) else t.reservations[i]) &&
            o.id == orderId && o.status == OrderTarget(d) && o in u.orders
  {
    TxCommitted(t, d, orderId, f);
    var u2 := SetOrderStatus(t.orders, orderId, OrderTarget(d));
    UpdatedOrdersStillThere(t.orders, orderId, OrderTarget(d));
    assert OrdersWithId(u2, orderId)[0] in OrdersWithId(u2, orderId);
  }

  /** Once a decision has committed, a second one on the same order, either way, is
      refused as already processed. */
  lemma {:induction false} SecondDecisionRefused(t: Snapshot, d1: Decision, d2: Decision, orderId: int, f: DbFault)
    requires Tx(t, d1, orderId, f).Success?
    ensures Tx(Tx(t, d1, orderId, f).value.0, d2, orderId, NoDbFault) == Failure(AlreadyProcessed)
  {
    TxCommitted(t, d1, orderId, f);
    var u := Tx(t, d1, orderId, f).value.0;
    UpdatedPaymentsHaveStatus(t.payments, orderId, PaymentTarget(d1));
    var rows := PaymentsOf(u.payments, orderId);
    assert rows[0] in rows;
    assert rows[0].status != PaymentPending;
    TxOutcomes(u, d2, orderId);
  }

  /** Only the first payment row's status is checked, but every payment of the order is
      updated: a reject whose first row is pending turns an earlier success into FAILED. */
  lemma RejectOverwritesLaterSuccess()
    ensures var t := Snapshot([Payment(Num(7), Str("u"), Num(100), PaymentPending, Str("m1")),
                               Payment(Num(7), Str("u"), Num(100), Succeeded, Str("m2"))],
                              [Order(7, Str("u"), Str("s"), Num(1), OrderPending)], []);
            Tx(t, Reject, 7, NoDbFault).Success? &&
            Tx(t, Reject, 7, NoDbFault).value.0.payments[1].status == Failed
  {
    var t := Snapshot([Payment(Num(7), Str("u"), Num(100), PaymentPending, Str("m1")),
                       Payment(Num(7), Str("u"), Num(100), Succeeded, Str("m2"))],
                      [Order(7, Str("u"), Str("s"), Num(1), OrderPending)], []);
    assert PaymentsOf(t.payments, 7)[0] == t.payments[0];
    assert OrdersWithId(SetOrderStatus(t.orders, 7, Cancelled), 7) == [Order(7, Str("u"), Str("s"), Num(1), Cancelled)];
  }

  /** An event goes out only after the transaction committed, and carries the row the
      order UPDATE returned. */
  lemma PublishOnlyAfterCommit(t: Snapshot, env: Env, d: Decision, rawOrderId: string, f: DbFault, pub: PublishOracle)
    requires SettleSpec(t, env, d, rawOrderId, f, pub).event.Some?
    ensures ParseInt(rawOrderId).Some? && Tx(t, d, ParseInt(rawOrderId).value, f).Success?
    ensures var c := Tx(t, d, ParseInt(rawOrderId).value, f).value;
            SettleSpec(t, env, d, rawOrderId, f, pub).tables == c.0 &&
            SettleSpec(t, env, d, rawOrderId, f, pub).event.value == PublishedEvent(env, d, c.1, pub)
  {
  }

  /** A publish that fails (no channel, or a nack while waiting for confirms) is a 500,
      but the committed tables stay. */
  lemma FailedPublishKeepsCommit(t: Snapshot, env: Env, d: Decision, rawOrderId: string, f: DbFault, pub: PublishOracle)
    requires ParseInt(rawOrderId).Some? && Tx(t, d, ParseInt(rawOrderId).value, f).Success?
    requires pub.channelError.Some? || (PaymentRabbit.WaitForConfirms(env) && pub.nacked)
    ensures SettleSpec(t, env, d, rawOrderId, f, pub).tables == Tx(t, d, ParseInt(rawOrderId).value, f).value.0
    ensures SettleSpec(t, env, d, rawOrderId, f, pub).resp.status == 500
  {
  }

  /** The transaction only ever fails with one of the handlers' three errors or a
      database error, which carries no status code, so its answer is a 404, 400 or 500. */
  lemma {:induction false} TxErrors(t: Snapshot, d: Decision, orderId: int, f: DbFault)
    ensures Tx(t, d, orderId, f).Failure? ==>
              Tx(t, d, orderId, f).error in {PaymentNotFound, AlreadyProcessed, OrderNotFound, DbError(f)}
    ensures Tx(t, d, orderId, f).Failure? ==> ErrorFor(Tx(t, d, orderId, f).error).status in {400, 404, 500}
  {
  }

  /** A request that does not commit changes no table, publishes nothing and answers
      400, 404 or 500. */
  lemma RefusalChangesNothing(t: Snapshot, env: Env, d: Decision, rawOrderId: string, f: DbFault, pub: PublishOracle)
    requires ParseInt(rawOrderId).None? || Tx(t, d, ParseInt(rawOrderId).value, f).Failure?
    ensures SettleSpec(t, env, d, rawOrderId, f, pub).tables == t
    ensures SettleSpec(t, env, d, rawOrderId, f, pub).event == None
    ensures SettleSpec(t, env, d, rawOrderId, f, pub).resp.status in {400, 404, 500}
  {
    if ParseInt(rawOrderId).Some? {
      TxErrors(t, d, ParseInt(rawOrderId).value, f);
    }
  }

  /** The success answer names the decision and the parsed order id. */
  lemma AcceptedResponse(t: Snapshot, env: Env, d: Decision, rawOrderId: string, f: DbFault, pub: PublishOracle)
    requires SettleSpec(t, env, d, rawOrderId, f, pub).resp.status == 200
    ensures ParseInt(rawOrderId).Some? && Tx(t, d, ParseInt(rawOrderId).value, f).Success?
    ensures pub.channelError.None? && !(PaymentRabbit.WaitForConfirms(env) && pub.nacked)
    ensures SettleSpec(t, env, d, rawOrderId, f, pub).resp == Accepted(d, ParseInt(rawOrderId).value)
  {
    if ParseInt(rawOrderId).Some? {
      TxErrors(t, d, ParseInt(rawOrderId).value, f);
    }
  }

  /** A thrown error with no status code is a 500, and one with no message says
      "internal_error". */
  lemma ErrorDefaults(message: string)
    ensures ErrorFor(Error(None, message)).status == 500
    ensures ErrorFor(Error(None, "")).body == Obj(map["error" := Str("internal_error")])
    ensures ErrorFor(PaymentNotFound).status == 404 && ErrorFor(AlreadyProcessed).status == 400
  {
  }

  // ---------------------------------------------------------------- properties of the consumer

  /** A delivery whose JSON lacks a truthy messageId, orderId, userId or quantity gets no row. */
  lemma InvalidPayloadHasNoRow(fields: map<string, Value>, k: string)
    requires k in {"messageId", "orderId", "userId", "quantity"}
    requires k !in fields || !Truthy(fields[k])
    ensures PaymentRowFor(Some(Obj(fields))) == None
  {
  }

  /** A parsed payload of null throws on destructuring, so it is nacked too. */
  lemma NullPayloadHasNoRow()
    ensures PaymentRowFor(Some(Null)) == None && PaymentRowFor(None) == None
  {
  }

  /** A truthy quantity whose conversion throws, such as `{"toString": 0}`, makes
      `quantity * 100` throw before the insert, so the delivery gets no row. */
  lemma ThrowingQuantityHasNoRow(fields: map<string, Value>, q: map<string, Value>)
    requires "messageId" in fields && Truthy(fields["messageId"])
    requires "orderId" in fields && Truthy(fields["orderId"])
    requires "userId" in fields && Truthy(fields["userId"])
    requires "quantity" in fields && (fields["quantity"] == Obj(q) || fields["quantity"] == Arr([Obj(q)]))
    requires "toString" in q
    ensures PaymentRowFor(Some(Obj(fields))) == None
  {
    Js.ObjectOperands(q, 100);
  }

  /** The amount recorded is the quantity times 100. */
  lemma AmountIsQuantityTimes100(fields: map<string, Value>, q: int)
    requires "messageId" in fields && Truthy(fields["messageId"])
    requires "orderId" in fields && Truthy(fields["orderId"])
    requires "userId" in fields && Truthy(fields["userId"])
    requires "quantity" in fields && fields["quantity"] == Num(q) && q != 0
    ensures PaymentRowFor(Some(Obj(fields))) ==
            Some(Payment(fields["orderId"], fields["userId"], Num(100 * q), PaymentPending, fields["messageId"]))
  {
  }

  /** With nothing configured, the consumer's own declaration of its queue and the
      order-api's are the same, so redeclaring it is accepted. */
  lemma ConsumerQueueMatchesOrderApi()
    ensures ConsumerQueueTopology(map[]) == OrderTopology.OrderCreatedTopology(map[])
  {
  }

  /** Changing the dead-letter routing key makes the two declarations of the same queue
      disagree on its arguments, which the broker refuses. */
  lemma {:induction false} ConsumerQueueDivergesOnDlqKey()
    ensures var env := map["RABBITMQ_DLQ_ROUTING_KEY" := "other.dlq"];
            var mine := Amqp.Queue("payment.order-created.q", true, map["x-dead-letter-exchange" := Amqp.StrArg("dlx.direct"), "x-dead-letter-routing-key" := Amqp.StrArg("events.dlq")]);
            var theirs := Amqp.Queue("payment.order-created.q", true, OrderTopology.DeadLetterArgs(env));
            mine in ConsumerQueueTopology(env).queues && theirs in OrderTopology.OrderCreatedTopology(env).queues &&
            mine.name == theirs.name && mine.args != theirs.args
  {
    var env := map["RABBITMQ_DLQ_ROUTING_KEY" := "other.dlq"];
    assert OrderTopology.DeadLetterArgs(env)["x-dead-letter-routing-key"] == Amqp.StrArg("other.dlq");
  }

  // ---------------------------------------------------------------- properties of start-up

  /** As written, `ensureOrderCreatedQueue` is not exported, so `start()` rejects at its
      second step after declaring only the base topology, and the service exits. */
  lemma StartAsWrittenIsFatal()
    ensures RunFrom(0, AsWrittenImports) == ([BaseTopologyStep], Some(OrderCreatedQueueStep))
  {
    StartSequenceSteps();
    assert RunFrom(1, AsWrittenImports) == ([], Some(OrderCreatedQueueStep));
    assert [BaseTopologyStep] + [] == [BaseTopologyStep];
  }

  /** When every step from `k` on has its function, those steps all complete, in order. */
  lemma {:induction false} CallableSuffixRuns(k: nat, imports: Imports)
    requires k <= |StartSequence|
    requires forall j :: k <= j < |StartSequence| ==> Callable(StartSequence[j], imports)
    ensures RunFrom(k, imports) == (StartSequence[k..], None)
    decreases |StartSequence| - k
  {
    if k < |StartSequence| {
      CallableSuffixRuns(k + 1, imports);
      assert StartSequence[k..] == [StartSequence[k]] + StartSequence[k + 1..];
    }
  }

  /** When every step's function is there, every step completes, in order. */
  lemma {:induction false} AllCallableRunsAll(imports: Imports)
    requires forall k :: 0 <= k < |StartSequence| ==> Callable(StartSequence[k], imports)
    ensures RunFrom(0, imports) == (StartSequence, None)
  {
    CallableSuffixRuns(0, imports);
  }

  /** With the exports `start()` relies on, every step completes, in order. */
  lemma StartIntendedRunsAll()
    ensures RunFrom(0, IntendedImports) == (StartSequence, None)
  {
    StartSequenceSteps();
    AllCallableRunsAll(IntendedImports);
  }

  /** When only `getPublisherChannel` is missing, its step is skipped and every other
      step completes, in order. */
  lemma {:induction false} OnlyPublisherChannelMissing(imports: Imports)
    requires forall k :: 0 <= k < |StartSequence| && k != 3 ==> Callable(StartSequence[k], imports)
    requires !Callable(PublisherChannelStep, imports)
    ensures RunFrom(0, imports) == (StartSequence[..3] + StartSequence[4..], None)
  {
    StartSequenceSteps();
    CallableSuffixRuns(4, imports);
    var tail := StartSequence[4..];
    assert RunFrom(3, imports) == (tail, None);
    assert RunFrom(2, imports) == ([PaymentEventsQueueStep] + tail, None);
    assert RunFrom(1, imports) == ([OrderCreatedQueueStep] + ([PaymentEventsQueueStep] + tail), None);
    assert RunFrom(0, imports) == ([BaseTopologyStep] + ([OrderCreatedQueueStep] + ([PaymentEventsQueueStep] + tail)), None);
    assert StartSequence[..3] == [BaseTopologyStep, OrderCreatedQueueStep, PaymentEventsQueueStep];
    assert [BaseTopologyStep] + ([OrderCreatedQueueStep] + ([PaymentEventsQueueStep] + tail)) ==
           StartSequence[..3] + tail;
  }

  /** A missing `getPublisherChannel` alone is tolerated: the step is skipped and logged. */
  lemma MissingPublisherChannelIsLogged()
    ensures RunFrom(0, Imports(AsWrittenImports.rabbit, IntendedImports.topology)) ==
            ([BaseTopologyStep, OrderCreatedQueueStep, PaymentEventsQueueStep,
              OrderCreatedConsumerStep, PaymentEventsConsumerStep, ListenStep], None)
  {
    var imports := Imports(AsWrittenImports.rabbit, IntendedImports.topology);
    StartSequenceSteps();
    OnlyPublisherChannelMissing(imports);
    assert StartSequence[..3] + StartSequence[4..] ==
           [BaseTopologyStep, OrderCreatedQueueStep, PaymentEventsQueueStep,
            OrderCreatedConsumerStep, PaymentEventsConsumerStep, ListenStep];
  }
}
