/**
 * app/order-api/lib/rabbit-topology.js: the exchanges, the dead-letter queue, the
 * order-created queue and the optional payment-events queue, declared on the broker
 * through the consumer channel. Names come from the environment with defaults.
 */
module OrderTopology {
  import opened Wrappers
  import opened Js
  import opened Amqp
  import Config

  function OrderCreatedQueue(env: Env): string {
    EnvOrDefault(env, "RABBITMQ_ORDER_CREATED_QUEUE", "payment.order-created.q")
  }

  function PaymentEventsQueue(env: Env): string {
    EnvOrDefault(env, "RABBITMQ_PAYMENT_EVENTS_QUEUE", "payment.events.q")
  }

  function DlqQueue(env: Env): string {
    EnvOrDefault(env, "RABBITMQ_DLQ_QUEUE", "events.dlq.q")
  }

  function DlqRoutingKey(env: Env): string {
    EnvOrDefault(env, "RABBITMQ_DLQ_ROUTING_KEY", "events.dlq")
  }

  /** The two dead-letter arguments every work queue carries. */
  function DeadLetterArgs(env: Env): map<string, Arg> {
    map["x-dead-letter-exchange" := StrArg(Config.DlxExchange(env)),
        "x-dead-letter-routing-key" := StrArg(DlqRoutingKey(env))]
  }

  /** `parseInt(process.env.PAYMENT_EVENTS_TTL_MS || "0", 10)`; None is NaN. */
  function TtlMs(env: Env): Option<int> {
    ParseInt(EnvOrDefault(env, "PAYMENT_EVENTS_TTL_MS", "0"))
  }

  /** The dead-letter arguments, plus `x-message-ttl` when the TTL is a positive number. */
  function PaymentEventsArgs(env: Env): (args: map<string, Arg>)
    ensures "x-message-ttl" in args <==> TtlMs(env).Some? && TtlMs(env).value > 0
    ensures "x-message-ttl" in args ==> args["x-message-ttl"] == IntArg(TtlMs(env).value)
    ensures "x-message-ttl" !in args ==> args == DeadLetterArgs(env)
    ensures forall k :: k in DeadLetterArgs(env) ==> k in args && args[k] == DeadLetterArgs(env)[k]
  {
    var args := DeadLetterArgs(env);
    var ttl := TtlMs(env);
    if ttl.Some? && ttl.value > 0 then args["x-message-ttl" := IntArg(ttl.value)] else args
  }

  /** What `ensureBaseTopology()` declares. */
  function BaseTopology(env: Env): Topology {
    Topology(
      {Exchange(Config.EventsExchange(env), Topic, true), Exchange(Config.DlxExchange(env), Direct, true)},
      {Queue(DlqQueue(env), true, map[])},
      {Binding(DlqQueue(env), Config.DlxExchange(env), DlqRoutingKey(env))})
  }

  /** What `ensureOrderCreatedQueue()` declares. */
  function OrderCreatedTopology(env: Env): Topology {
    Topology(
      {},
      {Queue(OrderCreatedQueue(env), true, DeadLetterArgs(env))},
      {Binding(OrderCreatedQueue(env), Config.EventsExchange(env), "order.created")})
  }

  /** `process.env.ENABLE_PAYMENT_EVENTS_QUEUE === "true"` */
  predicate PaymentEventsEnabled(env: Env) {
    EnvIs(env, "ENABLE_PAYMENT_EVENTS_QUEUE", "true")
  }

  /** What `ensurePaymentEventsQueue()` declares: nothing unless enabled. */
  function PaymentEventsTopology(env: Env): Topology {
    if !PaymentEventsEnabled(env) then NoTopology
    else Topology(
      {},
      {Queue(PaymentEventsQueue(env), true, PaymentEventsArgs(env))},
      {Binding(PaymentEventsQueue(env), Config.EventsExchange(env), "payment.*")})
  }

  /** `ensureBaseTopology()` */
  method EnsureBaseTopology(env: Env, broker: Broker)
    modifies broker
    ensures broker.View() == old(broker.View()).Plus(BaseTopology(env))
  {
    broker.AssertExchange(Exchange(Config.EventsExchange(env), Topic, true));
    broker.AssertExchange(Exchange(Config.DlxExchange(env), Direct, true));
    broker.AssertQueue(Queue(DlqQueue(env), true, map[]));
    broker.BindQueue(Binding(DlqQueue(env), Config.DlxExchange(env), DlqRoutingKey(env)));
  }

  /** `ensureOrderCreatedQueue()` */
  method EnsureOrderCreatedQueue(env: Env, broker: Broker)
    modifies broker
    ensures broker.View() == old(broker.View()).Plus(OrderCreatedTopology(env))
  {
    broker.AssertQueue(Queue(OrderCreatedQueue(env), true, DeadLetterArgs(env)));
    broker.BindQueue(Binding(OrderCreatedQueue(env), Config.EventsExchange(env), "order.created"));
  }

  /** `ensurePaymentEventsQueue()`: the arguments start as the dead-letter pair and
      gain `x-message-ttl` only for a positive TTL. */
  method EnsurePaymentEventsQueue(env: Env, broker: Broker)
    modifies broker
    ensures broker.View() == old(broker.View()).Plus(PaymentEventsTopology(env))
  {
    if !PaymentEventsEnabled(env) {
      return;
    }
    var ttlMs := TtlMs(env);
    var args := DeadLetterArgs(env);
    if ttlMs.Some? && ttlMs.value > 0 {
      args := args["x-message-ttl" := IntArg(ttlMs.value)];
    }
    assert args == PaymentEventsArgs(env);
    broker.AssertQueue(Queue(PaymentEventsQueue(env), true, args));
    broker.BindQueue(Binding(PaymentEventsQueue(env), Config.EventsExchange(env), "payment.*"));
  }

  // ---------------------------------------------------------------- properties

  /** The default names. */
  lemma DefaultNames()
    ensures Config.EventsExchange(map[]) == "events.topic" && Config.DlxExchange(map[]) == "dlx.direct"
    ensures OrderCreatedQueue(map[]) == "payment.order-created.q"
    ensures PaymentEventsQueue(map[]) == "payment.events.q"
    ensures DlqQueue(map[]) == "events.dlq.q" && DlqRoutingKey(map[]) == "events.dlq"
  {
  }

  /** After `ensureBaseTopology` the two exchanges and the bound dead-letter queue exist,
      whatever the broker held before. */
  lemma BaseTopologyDeclared(t: Topology, env: Env)
    ensures var r := t.Plus(BaseTopology(env));
            Exchange(Config.EventsExchange(env), Topic, true) in r.exchanges &&
            Exchange(Config.DlxExchange(env), Direct, true) in r.exchanges &&
            Queue(DlqQueue(env), true, map[]) in r.queues &&
            Binding(DlqQueue(env), Config.DlxExchange(env), DlqRoutingKey(env)) in r.bindings
  {
  }

  /** The order-created queue dead-letters to the DLX with the DLQ key and receives
      `order.created` from the events exchange. */
  lemma OrderCreatedQueueWiring(env: Env)
    ensures var q := Queue(OrderCreatedQueue(env), true, DeadLetterArgs(env));
            q in OrderCreatedTopology(env).queues &&
            q.args.Keys == {"x-dead-letter-exchange", "x-dead-letter-routing-key"} &&
            q.args["x-dead-letter-exchange"] == StrArg(Config.DlxExchange(env)) &&
            q.args["x-dead-letter-routing-key"] == StrArg(DlqRoutingKey(env))
    ensures OrderCreatedTopology(env).bindings ==
            {Binding(OrderCreatedQueue(env), Config.EventsExchange(env), "order.created")}
  {
  }

  /** Unless the flag is exactly "true", nothing is declared. */
  lemma PaymentEventsQueueGated(t: Topology, env: Env)
    requires !PaymentEventsEnabled(env)
    ensures t.Plus(PaymentEventsTopology(env)) == t
  {
  }

  /** When enabled, the queue is bound to `payment.*` on the events exchange. */
  lemma PaymentEventsQueueBinding(env: Env)
    requires PaymentEventsEnabled(env)
    ensures Binding(PaymentEventsQueue(env), Config.EventsExchange(env), "payment.*") in PaymentEventsTopology(env).bindings
  {
  }

  /** With the TTL variable unset the default "0" adds no TTL. */
  lemma {:induction false} NoTtlByDefault(env: Env)
    requires "PAYMENT_EVENTS_TTL_MS" !in env
    ensures PaymentEventsArgs(env) == DeadLetterArgs(env)
  {
    ParseIntOfDecimal(0, "");
    assert Decimal(0) + "" == "0";
  }

  /** `parseInt` reads a leading number, so "1500ms" gives a 1500 ms TTL. */
  lemma {:induction false} TtlReadsLeadingDigits(env: Env)
    requires "PAYMENT_EVENTS_TTL_MS" in env && env["PAYMENT_EVENTS_TTL_MS"] == Decimal(1500) + "ms"
    ensures "x-message-ttl" in PaymentEventsArgs(env) && PaymentEventsArgs(env)["x-message-ttl"] == IntArg(1500)
  {
    ParseIntOfDecimal(1500, "ms");
    assert TtlMs(env) == Some(1500);
  }

  /** Running an ensure function again leaves the broker as the first run left it. */
  lemma {:induction false} EnsureIsIdempotent(t: Topology, env: Env)
    ensures t.Plus(BaseTopology(env)).Plus(BaseTopology(env)) == t.Plus(BaseTopology(env))
    ensures t.Plus(OrderCreatedTopology(env)).Plus(OrderCreatedTopology(env)) == t.Plus(OrderCreatedTopology(env))
    ensures t.Plus(PaymentEventsTopology(env)).Plus(PaymentEventsTopology(env)) == t.Plus(PaymentEventsTopology(env))
  {
    PlusIdempotent(t, BaseTopology(env));
    PlusIdempotent(t, OrderCreatedTopology(env));
    PlusIdempotent(t, PaymentEventsTopology(env));
  }
}
