/**
 * app/payment-service/lib/rabbit.js: the same connection/channel cache as the
 * order-api copy, except that both channel getters assert the two exchanges before
 * caching the channel. `publishEvent` keeps no pending map: returned messages are
 * only logged, and the call waits for the broker's confirms unless told not to.
 */
module PaymentRabbit {
  import opened Wrappers
  import opened Js
  import opened Envelope
  import opened AmqpUrl
  import opened Connections
  import Amqp
  import Config
  import OrderRabbit

  /** `process.env.RABBITMQ_PUBLISH_MANDATORY !== "false"` */
  predicate MandatoryDefault(env: Env) {
    !EnvIs(env, "RABBITMQ_PUBLISH_MANDATORY", "false")
  }

  /** `process.env.RABBITMQ_WAIT_FOR_CONFIRMS !== "false"` */
  predicate WaitForConfirms(env: Env) {
    !EnvIs(env, "RABBITMQ_WAIT_FOR_CONFIRMS", "false")
  }

  /** `options.mandatory ?? mandatoryDefault` */
  function Mandatory(env: Env, options: Record): (m: Value)
    ensures Nullish(Prop(options, "mandatory")) ==> m == Bool(MandatoryDefault(env))
    ensures !Nullish(Prop(options, "mandatory")) ==> m == options["mandatory"]
  {
    Coalesce(Prop(options, "mandatory"), Bool(MandatoryDefault(env)))
  }

  /** The properties `ch.publish` gets: the defaults, then every caller option on top. */
  function PublishProps(env: Env, options: Record, messageId: Value, nowMs: int): Record {
    Overlay(map[
      "contentType" := Str("application/json"),
      "deliveryMode" := Num(2),
      "messageId" := messageId,
      "correlationId" := CorrelationIdFor(options, messageId),
      "timestamp" := Num(nowMs),
      "mandatory" := Mandatory(env, options)], options)
  }

  /** The two exchanges `assertExchanges` declares. */
  function ExchangesOf(env: Env): Amqp.Topology {
    Amqp.ExchangeDecl(Amqp.Exchange(Config.EventsExchange(env), Amqp.Topic, true))
      .Plus(Amqp.ExchangeDecl(Amqp.Exchange(Config.DlxExchange(env), Amqp.Direct, true)))
  }

  /** What one `ch.publish` handed to the broker. */
  datatype Outgoing = Outgoing(exchange: string, routingKey: string, props: Record, message: Record)

  class Rabbit {
    const env: Env
    const parse: UrlParser

    var connection: Option<Handle>
    var connectionPromise: PromiseState
    var consumerChannel: Option<Handle>
    var consumerChannelPromise: PromiseState
    var publisherChannel: Option<Handle>
    var publisherChannelPromise: PromiseState

    /** The identity the next promise created by a getter gets. */
    var nextAttempt: nat
    /** Every message published so far. */
    var sent: seq<Outgoing>

    function Handles(): Connections.Handles
      reads this
    {
      Connections.Handles(
        Slot(connection, connectionPromise),
        Slot(consumerChannel, consumerChannelPromise),
        Slot(publisherChannel, publisherChannelPromise),
        nextAttempt)
    }

    constructor (env: Env, parse: UrlParser)
      ensures this.env == env && this.parse == parse
      ensures Handles() == Connections.Handles(Empty, Empty, Empty, 0)
      ensures sent == []
    {
      this.env, this.parse := env, parse;
      connection, connectionPromise := None, NoPromise;
      consumerChannel, consumerChannelPromise := None, NoPromise;
      publisherChannel, publisherChannelPromise := None, NoPromise;
      nextAttempt, sent := 0, [];
    }

    /** `resetState()`: the six variables back to null. */
    method ResetState()
      modifies this
      ensures Handles() == Cleared(old(Handles()))
      ensures sent == old(sent)
    {
      connection, connectionPromise := None, NoPromise;
      consumerChannel, consumerChannelPromise := None, NoPromise;
      publisherChannel, publisherChannelPromise := None, NoPromise;
    }

    /** `getConnection()` */
    method GetConnection() returns (l: Lookup, url: Option<string>)
      modifies this
      ensures Handles() == Step(old(Handles()), Connections.GetConnection)
      ensures Some(l) == Answer(old(Handles()), Connections.GetConnection)
      ensures url == if l.Started? then Some(BuildAmqpUrl(env, parse)) else None
      ensures sent == old(sent)
    {
      if connection.Some? {
        return Cached(connection.value), None;
      }
      if !connectionPromise.NoPromise? {
        return Shared(connectionPromise), None;
      }
      url := Some(BuildAmqpUrl(env, parse));
      l := Started(nextAttempt);
      connectionPromise := Pending(nextAttempt);
      nextAttempt := nextAttempt + 1;
    }

    /** The `.then` of attempt `id`. */
    method OnConnected(id: nat, h: Handle)
      modifies this
      ensures Handles() == Step(old(Handles()), ConnectSucceeded(id, h))
      ensures sent == old(sent)
    {
      connection := Some(h);
      if connectionPromise == Pending(id) {
        connectionPromise := Fulfilled(id, h);
      }
    }

    /** The `.catch` of attempt `id`. */
    method OnConnectFailed(id: nat)
      modifies this
      ensures Handles() == Step(old(Handles()), ConnectFailed(id))
      ensures sent == old(sent)
    {
      ResetState();
    }

    /** `conn.on("close")` */
    method OnConnectionClose()
      modifies this
      ensures Handles() == Step(old(Handles()), ConnectionClosed)
      ensures sent == old(sent)
    {
      ResetState();
    }

    /** `getChannel()` */
    method GetChannel() returns (l: Lookup)
      modifies this
      ensures Handles() == Step(old(Handles()), Connections.GetChannel(ConsumerRole))
      ensures Some(l) == Answer(old(Handles()), Connections.GetChannel(ConsumerRole))
      ensures sent == old(sent)
    {
      if consumerChannel.Some? {
        return Cached(consumerChannel.value);
      }
      if !consumerChannelPromise.NoPromise? {
        return Shared(consumerChannelPromise);
      }
      l := Started(nextAttempt);
      consumerChannelPromise := Pending(nextAttempt);
      nextAttempt := nextAttempt + 1;
      var _, _ := GetConnection();
    }

    /** `getPublisherChannel()` */
    method GetPublisherChannel() returns (l: Lookup)
      modifies this
      ensures Handles() == Step(old(Handles()), Connections.GetChannel(PublisherRole))
      ensures Some(l) == Answer(old(Handles()), Connections.GetChannel(PublisherRole))
      ensures sent == old(sent)
    {
      if publisherChannel.Some? {
        return Cached(publisherChannel.value);
      }
      if !publisherChannelPromise.NoPromise? {
        return Shared(publisherChannelPromise);
      }
      l := Started(nextAttempt);
      publisherChannelPromise := Pending(nextAttempt);
      nextAttempt := nextAttempt + 1;
      var _, _ := GetConnection();
    }

    /** `assertExchanges(ch)`: the events exchange (topic) and the DLX (direct), both durable. */
    method AssertExchanges(broker: Amqp.Broker)
      modifies broker
      ensures broker.View() == old(broker.View()).Plus(ExchangesOf(env))
    {
      broker.AssertExchange(Amqp.Exchange(Config.EventsExchange(env), Amqp.Topic, true));
      broker.AssertExchange(Amqp.Exchange(Config.DlxExchange(env), Amqp.Direct, true));
    }

    /** Channel attempt `id` got channel `h`: it asserts the exchanges through it and
        only then stores it (`xChannel = ch`). */
    method OnChannelCreated(role: Role, id: nat, h: Handle, broker: Amqp.Broker)
      modifies this, broker
      ensures broker.View() == old(broker.View()).Plus(ExchangesOf(env))
      ensures Handles() == Step(old(Handles()), ChannelReady(role, id, h))
      ensures sent == old(sent)
    {
      AssertExchanges(broker);
      match role
      case ConsumerRole =>
        consumerChannel := Some(h);
        if consumerChannelPromise == Pending(id) {
          consumerChannelPromise := Fulfilled(id, h);
        }
      case PublisherRole =>
        publisherChannel := Some(h);
        if publisherChannelPromise == Pending(id) {
          publisherChannelPromise := Fulfilled(id, h);
        }
    }

    /** Channel attempt `id` threw (createChannel or an exchange assertion). */
    method OnChannelFailed(role: Role, id: nat)
      modifies this
      ensures Handles() == Step(old(Handles()), ChannelFailed(role, id))
      ensures sent == old(sent)
    {
      match role
      case ConsumerRole =>
        if consumerChannelPromise == Pending(id) {
          consumerChannelPromise := Rejected(id);
        }
      case PublisherRole =>
        if publisherChannelPromise == Pending(id) {
          publisherChannelPromise := Rejected(id);
        }
    }

    /** `ch.on("close")` */
    method OnChannelClose(role: Role)
      modifies this
      ensures Handles() == Step(old(Handles()), ChannelClosed(role))
      ensures sent == old(sent)
    {
      match role
      case ConsumerRole =>
        consumerChannel, consumerChannelPromise := None, NoPromise;
      case PublisherRole =>
        publisherChannel, publisherChannelPromise := None, NoPromise;
    }

    /** The part of `publishEvent` after `await getPublisherChannel()`. `bufferAccepted`
        is what `ch.publish` returned, `returned` whether the broker sent the message
        back as unroutable, `nacked` whether `waitForConfirms` saw a nack and `nackError`
        the message of the error it then rejects with; the first two are only logged. */
    method PublishEvent(routingKey: string, payload: Record, options: Record,
                        uuid: string, createdAt: string, nowMs: int,
                        bufferAccepted: bool, returned: bool, nacked: bool, nackError: string)
      returns (r: Result<Record, string>)
      modifies this
      ensures var mid := MessageIdFor(payload, Str(uuid));
              sent == old(sent) + [Outgoing(Config.EventsExchange(env), routingKey,
                                            PublishProps(env, options, mid, nowMs),
                                            Build(payload, mid, createdAt))]
      ensures r.Failure? <==> WaitForConfirms(env) && nacked
      ensures r.Failure? ==> r.error == nackError
      ensures r.Success? ==> r.value == Build(payload, MessageIdFor(payload, Str(uuid)), createdAt)
      ensures Handles() == old(Handles())
    {
      var exchange := Config.EventsExchange(env);
      var messageId := MessageIdFor(payload, Str(uuid));
      var message := Build(payload, messageId, createdAt);
      sent := sent + [Outgoing(exchange, routingKey, PublishProps(env, options, messageId, nowMs), message)];
      if WaitForConfirms(env) && nacked {
        return Failure(nackError);
      }
      return Success(message);
    }

    /** `closeRabbit()` */
    method CloseRabbit()
      modifies this
      ensures Handles() == Step(old(Handles()), CloseAll)
      ensures sent == old(sent)
    {
      ResetState();
    }
  }

  // ---------------------------------------------------------------- properties

  /** Unlike the order-api copy, publishes are mandatory unless the environment says
      exactly "false". */
  lemma MandatoryUnlessFalse(env: Env, options: Record, mid: Value, nowMs: int)
    requires "mandatory" !in options
    ensures PublishProps(env, options, mid, nowMs)["mandatory"] == Bool(true)
        <==> !EnvIs(env, "RABBITMQ_PUBLISH_MANDATORY", "false")
  {
  }

  /** With nothing configured the two revisions disagree on `mandatory`. */
  lemma {:induction false} MandatoryDefaultsDiffer(options: Record, mid: Value, nowMs: int)
    requires "mandatory" !in options
    ensures PublishProps(map[], options, mid, nowMs)["mandatory"] == Bool(true)
    ensures OrderRabbit.PublishProps(map[], options, mid, nowMs)["mandatory"] == Bool(false)
  {
  }
}
