/**
 * app/payment-service/lib/rabbit-topology.js: the payment service's own dead-letter
 * queue and the optional payment-events queue, whose arguments are a fixed literal
 * that bounds the queue with a drop-head overflow policy.
 */
module PaymentTopology {
  import opened Wrappers
  import opened Js
  import opened Amqp
  import Config
  import OrderTopology

  /** The dead-letter queue and its routing key, both literally "events.dlq". */
  const DlqName: string := "events.dlq"

  const PaymentEventsQueue: string := "payment.events.q"

  /** 24 hours in milliseconds. */
  const DayMs: int := 24 * 60 * 60 * 1000

  const MaxLength: nat := 100000

  /** The argument literal of the payment-events queue. */
  function PaymentEventsArgs(env: Env): map<string, Arg> {
    map["x-dead-letter-exchange" := StrArg(Config.DlxExchange(env)),
        "x-dead-letter-routing-key" := StrArg(DlqName),
        "x-message-ttl" := IntArg(DayMs),
        "x-max-length" := IntArg(MaxLength),
        "x-overflow" := StrArg("drop-head")]
  }

  /** What `ensureBaseTopology()` declares: the queue and its binding, no exchanges. */
  function BaseTopology(env: Env): Topology {
    Topology({}, {Queue(DlqName, true, map[])}, {Binding(DlqName, Config.DlxExchange(env), DlqName)})
  }

  /** What `ensurePaymentEventsQueue()` declares: nothing unless enabled. */
  function PaymentEventsTopology(env: Env): Topology {
    if !OrderTopology.PaymentEventsEnabled(env) then NoTopology
    else Topology(
      {},
      {Queue(PaymentEventsQueue, true, PaymentEventsArgs(env))},
      {Binding(PaymentEventsQueue, Config.EventsExchange(env), "payment.*")})
  }

  /** `ensureBaseTopology()` */
  method EnsureBaseTopology(env: Env, broker: Broker)
    modifies broker
    ensures broker.View() == old(broker.View()).Plus(BaseTopology(env))
  {
    broker.AssertQueue(Queue(DlqName, true, map[]));
    broker.BindQueue(Binding(DlqName, Config.DlxExchange(env), DlqName));
  }

  /** `ensurePaymentEventsQueue()` */
  method EnsurePaymentEventsQueue(env: Env, broker: Broker)
    modifies broker
    ensures broker.View() == old(broker.View()).Plus(PaymentEventsTopology(env))
  {
    if !OrderTopology.PaymentEventsEnabled(env) {
      return;
    }
    broker.AssertQueue(Queue(PaymentEventsQueue, true, PaymentEventsArgs(env)));
    broker.BindQueue(Binding(PaymentEventsQueue, Config.EventsExchange(env), "payment.*"));
  }

  /** The bound on a queue's length, when its arguments ask for `x-max-length` with the
      drop-head overflow policy. */
  function DropHeadLimit(args: map<string, Arg>): (limit: Option<nat>)
    ensures limit.Some? ==> "x-max-length" in args && args["x-max-length"] == IntArg(limit.value)
    ensures limit.Some? ==> "x-overflow" in args && args["x-overflow"] == StrArg("drop-head")
  {
    if "x-max-length" in args && args["x-max-length"].IntArg? && args["x-max-length"].i >= 0
       && "x-overflow" in args && args["x-overflow"] == StrArg("drop-head")
    then Some(args["x-max-length"].i as nat)
    else None
  }

  /** The queues of `t` bound to exchange `x` with pattern `key` exactly. */
  function BoundQueues(t: Topology, x: string, key: string): set<string> {
    set b | b in t.bindings && b.exchange == x && b.pattern == key :: b.queue
  }

  // ---------------------------------------------------------------- properties

  /** The base topology is exactly one durable "events.dlq" queue bound to the DLX with
      key "events.dlq". */
  lemma BaseTopologyContents(env: Env)
    ensures BaseTopology(env).queues == {Queue("events.dlq", true, map[])}
    ensures BaseTopology(env).bindings == {Binding("events.dlq", Config.DlxExchange(env), "events.dlq")}
    ensures BaseTopology(env).exchanges == {}
  {
  }

  /** The arguments are exactly the five entries of the literal. */
  lemma PaymentEventsArgsExact(env: Env)
    requires OrderTopology.PaymentEventsEnabled(env)
    ensures var q := Queue("payment.events.q", true, PaymentEventsArgs(env));
            PaymentEventsTopology(env).queues == {q} &&
            q.args.Keys == {"x-dead-letter-exchange", "x-dead-letter-routing-key",
                            "x-message-ttl", "x-max-length", "x-overflow"} &&
            q.args["x-dead-letter-exchange"] == StrArg(Config.DlxExchange(env)) &&
            q.args["x-dead-letter-routing-key"] == StrArg("events.dlq") &&
            q.args["x-message-ttl"] == IntArg(86400000) &&
            q.args["x-max-length"] == IntArg(100000) &&
            q.args["x-overflow"] == StrArg("drop-head")
    ensures PaymentEventsTopology(env).bindings ==
            {Binding("payment.events.q", Config.EventsExchange(env), "payment.*")}
  {
  }

  /** Unless the flag is exactly "true", nothing is declared. */
  lemma PaymentEventsQueueGated(t: Topology, env: Env)
    requires !OrderTopology.PaymentEventsEnabled(env)
    ensures t.Plus(PaymentEventsTopology(env)) == t
  {
  }

  /** A drop-head queue with these arguments, fed any messages, never holds more than
      100000 and holds exactly the newest ones in arrival order. */
  lemma {:induction false} PaymentEventsQueueKeepsNewest<T>(env: Env, held: seq<T>, arriving: seq<T>)
    requires |held| <= 100000
    ensures DropHeadLimit(PaymentEventsArgs(env)) == Some(100000)
    ensures |ArriveAll(held, 100000, arriving)| <= 100000
    ensures ArriveAll(held, 100000, arriving) == Newest(held + arriving, 100000)
  {
    ArriveAllKeepsNewest(held, 100000, arriving);
  }

  /** Either ensure function run twice leaves the broker as one run left it. */
  lemma {:induction false} EnsureIsIdempotent(t: Topology, env: Env)
    ensures t.Plus(BaseTopology(env)).Plus(BaseTopology(env)) == t.Plus(BaseTopology(env))
    ensures t.Plus(PaymentEventsTopology(env)).Plus(PaymentEventsTopology(env)) == t.Plus(PaymentEventsTopology(env))
  {
    PlusIdempotent(t, BaseTopology(env));
    PlusIdempotent(t, PaymentEventsTopology(env));
  }

  /** With nothing configured, the two revisions' base topologies together bind two
      different queues to "dlx.direct" with key "events.dlq", so the direct exchange
      copies every dead letter into both. */
  lemma {:induction false} DeadLettersReachBothDlqs()
    ensures var t := OrderTopology.BaseTopology(map[]).Plus(BaseTopology(map[]));
            BoundQueues(t, "dlx.direct", "events.dlq") == {"events.dlq.q", "events.dlq"}
  {
    var t := OrderTopology.BaseTopology(map[]).Plus(BaseTopology(map[]));
    assert t.bindings == {Binding("events.dlq.q", "dlx.direct", "events.dlq"),
                          Binding("events.dlq", "dlx.direct", "events.dlq")};
    assert Binding("events.dlq.q", "dlx.direct", "events.dlq") in t.bindings;
    assert Binding("events.dlq", "dlx.direct", "events.dlq") in t.bindings;
  }
}
