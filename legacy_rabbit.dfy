/**
 * order-api/lib/rabbit.js and payment-service/lib/rabbit.js, the older clients:
 * one cached connection and one channel, no in-flight sharing, no confirms. The two
 * files differ only in how they compose the URL (`AmqpUrl.LegacyOrderUrl` and
 * `AmqpUrl.LegacyPaymentUrl`) and in whether a false `publish` result is logged.
 */
module LegacyRabbit {
  import opened Wrappers
  import opened Js
  import opened Envelope
  import opened AmqpUrl
  import Amqp
  import Config

  type Handle = nat

  datatype Revision = OrderApi | PaymentService

  /** The URL `getChannel` connects to in each revision. */
  function UrlFor(env: Env, rev: Revision): string {
    match rev
    case OrderApi => LegacyOrderUrl(env)
    case PaymentService => LegacyPaymentUrl(env)
  }

  /** `{ contentType: "application/json", deliveryMode: 2, ...options }` */
  function LegacyProps(options: Record): (p: Record)
    ensures p.Keys == {"contentType", "deliveryMode"} + options.Keys
    ensures "contentType" !in options ==> p["contentType"] == Str("application/json")
    ensures "deliveryMode" !in options ==> p["deliveryMode"] == Num(2)
    ensures forall k :: k in options ==> p[k] == options[k]
  {
    Overlay(map["contentType" := Str("application/json"), "deliveryMode" := Num(2)], options)
  }

  /** Where `getChannel` can throw: the awaited connect, createChannel, or one of the
      two exchange assertions. */
  datatype Fault = NoFault | ConnectFails | CreateChannelFails | EventsExchangeFails | DlxExchangeFails

  datatype Outgoing = Outgoing(exchange: string, routingKey: string, props: Record, message: Record)

  class Client {
    const env: Env
    const rev: Revision
    var connection: Option<Handle>
    var channel: Option<Handle>
    /** Every message published so far. */
    var sent: seq<Outgoing>

    constructor (env: Env, rev: Revision)
      ensures this.env == env && this.rev == rev
      ensures connection == None && channel == None && sent == []
    {
      this.env, this.rev := env, rev;
      connection, channel, sent := None, None, [];
    }

    /** `getChannel()`: a cached channel is returned as it is; otherwise connect to the
        URL, create a channel, store both, then assert the two exchanges. `conn` and
        `ch` are what the awaited calls produce, `connectedTo` the URL used. */
    method GetChannel(conn: Handle, ch: Handle, fault: Fault, broker: Amqp.Broker)
      returns (r: Result<Handle, string>, connectedTo: Option<string>)
      modifies this, broker
      ensures old(channel).Some? ==>
                r == Success(old(channel).value) && connectedTo == None &&
                connection == old(connection) && channel == old(channel) &&
                broker.View() == old(broker.View())
      ensures old(channel).None? ==> connectedTo == Some(UrlFor(env, rev))
      ensures old(channel).None? ==>
                connection == (if fault == ConnectFails then old(connection) else Some(conn)) &&
                channel == (if fault in {ConnectFails, CreateChannelFails} then None else Some(ch))
      ensures old(channel).None? ==>
                broker.View() == Declared(env, fault, old(broker.View()))
      ensures r.Success? <==> old(channel).Some? || fault == NoFault
      ensures r.Success? && old(channel).None? ==> r.value == ch
      ensures sent == old(sent)
    {
      if channel.Some? {
        return Success(channel.value), None;
      }
      connectedTo := Some(UrlFor(env, rev));
      if fault == ConnectFails {
        return Failure("connect failed"), connectedTo;
      }
      connection := Some(conn);
      if fault == CreateChannelFails {
        return Failure("createChannel failed"), connectedTo;
      }
      channel := Some(ch);
      if fault == EventsExchangeFails {
        return Failure("assertExchange failed"), connectedTo;
      }
      broker.AssertExchange(Amqp.Exchange(Config.EventsExchange(env), Amqp.Topic, true));
      if fault == DlxExchangeFails {
        return Failure("assertExchange failed"), connectedTo;
      }
      broker.AssertExchange(Amqp.Exchange(Config.DlxExchange(env), Amqp.Direct, true));
      return Success(ch), connectedTo;
    }

    /** The part of `publishEvent` after `await getChannel()`: build the envelope, hand
        it to the channel and return it at once; `randomId` is the generated id and
        `bufferAccepted` what `ch.publish` returned, which changes nothing. */
    method PublishEvent(routingKey: string, payload: Record, options: Record,
                        randomId: string, createdAt: string, bufferAccepted: bool)
      returns (message: Record)
      modifies this
      ensures message == Build(payload, MessageIdFor(payload, Str(randomId)), createdAt)
      ensures sent == old(sent) + [Outgoing(Config.EventsExchange(env), routingKey, LegacyProps(options), message)]
      ensures connection == old(connection) && channel == old(channel)
    {
      message := Build(payload, MessageIdFor(payload, Str(randomId)), createdAt);
      sent := sent + [Outgoing(Config.EventsExchange(env), routingKey, LegacyProps(options), message)];
    }
  }

  /** The broker's declarations after a first `getChannel()` that meets `fault`: each
      exchange assertion that is reached adds its exchange. */
  function Declared(env: Env, fault: Fault, v: Amqp.Topology): Amqp.Topology {
    match fault
    case ConnectFails => v
    case CreateChannelFails => v
    case EventsExchangeFails => v
    case DlxExchangeFails => v.Plus(EventsOnly(env))
    case NoFault => v.Plus(EventsOnly(env)).Plus(DlxOnly(env))
  }

  function EventsOnly(env: Env): Amqp.Topology {
    Amqp.ExchangeDecl(Amqp.Exchange(Config.EventsExchange(env), Amqp.Topic, true))
  }

  function DlxOnly(env: Env): Amqp.Topology {
    Amqp.ExchangeDecl(Amqp.Exchange(Config.DlxExchange(env), Amqp.Direct, true))
  }

  // ---------------------------------------------------------------- properties

  /** The older publish properties carry no message id, correlation id or mandatory
      flag unless the caller passes them. */
  lemma LegacyPropsCarryNoIds(options: Record)
    requires "messageId" !in options && "correlationId" !in options && "mandatory" !in options
    ensures "messageId" !in LegacyProps(options) && "correlationId" !in LegacyProps(options)
    ensures "mandatory" !in LegacyProps(options)
  {
  }
}
