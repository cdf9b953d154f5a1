/**
 * app/order-api/lib/rabbit.js: the module-level connection/channel cache, the
 * `pendingPublishes` map, and `publishEvent` with confirm, return and reset
 * tracking. The module's variables are the fields of `Rabbit`; each exported
 * function and each callback it registers is a method, proved to follow the
 * state machines of `Connections` and `Publisher`.
 */
module OrderRabbit {
  import opened Wrappers
  import opened Js
  import opened Envelope
  import opened AmqpUrl
  import opened Connections
  import Publisher
  import Config

  /** `options.mandatory ?? (process.env.RABBITMQ_PUBLISH_MANDATORY === "true")` */
  function Mandatory(env: Env, options: Record): (m: Value)
    ensures Nullish(Prop(options, "mandatory")) ==> m == Bool(EnvIs(env, "RABBITMQ_PUBLISH_MANDATORY", "true"))
    ensures !Nullish(Prop(options, "mandatory")) ==> m == options["mandatory"]
  {
    Coalesce(Prop(options, "mandatory"), Bool(EnvIs(env, "RABBITMQ_PUBLISH_MANDATORY", "true")))
  }

  /** The properties `ch.publish` gets: the defaults, then every caller option on top. */
  function PublishProps(env: Env, options: Record, messageId: Value, nowMs: int): Record {
    Overlay(map[
      "contentType" := Str("application/json"),
      "deliveryMode" := Num(2),
      "messageId" := messageId,
      "correlationId" := CorrelationIdFor(options, messageId),
      "timestamp" := Num(nowMs),
      "mandatory" := Mandatory(env, options)], options)
  }

  class Rabbit {
    const env: Env
    const parse: UrlParser

    var connection: Option<Handle>
    var connectionPromise: PromiseState
    var consumerChannel: Option<Handle>
    var consumerChannelPromise: PromiseState
    var publisherChannel: Option<Handle>
    var publisherChannelPromise: PromiseState

    var pendingPublishes: map<Value, nat>
    /** The promise of every publish so far, by index. */
    var publishes: seq<Publisher.Publish>
    /** The identity the next promise created by a getter gets. */
    var nextAttempt: nat

    function Handles(): Connections.Handles
      reads this
    {
      Connections.Handles(
        Slot(connection, connectionPromise),
        Slot(consumerChannel, consumerChannelPromise),
        Slot(publisherChannel, publisherChannelPromise),
        nextAttempt)
    }

    function Pub(): Publisher.Pub
      reads this
    {
      Publisher.Pub(pendingPublishes, publishes)
    }

    ghost predicate Valid()
      reads this
    {
      Publisher.Inv(Pub())
    }

    /** The module as it is loaded: every variable null, the map empty. */
    constructor (env: Env, parse: UrlParser)
      ensures Valid()
      ensures this.env == env && this.parse == parse
      ensures Handles() == Connections.Handles(Empty, Empty, Empty, 0)
      ensures Pub() == Publisher.Idle
    {
      this.env, this.parse := env, parse;
      connection, connectionPromise := None, NoPromise;
      consumerChannel, consumerChannelPromise := None, NoPromise;
      publisherChannel, publisherChannelPromise := None, NoPromise;
      pendingPublishes, publishes, nextAttempt := map[], [], 0;
    }

    /** `resetState()`: null the six variables, reject every pending publish with
        `rabbitmq_connection_reset`, clear the map. */
    method ResetState()
      requires Valid()
      modifies this
      ensures Valid()
      ensures Handles() == Cleared(old(Handles()))
      ensures Pub() == Publisher.ResetPending(old(Pub()))
    {
      connection, connectionPromise := None, NoPromise;
      consumerChannel, consumerChannelPromise := None, NoPromise;
      publisherChannel, publisherChannelPromise := None, NoPromise;

      var pending := pendingPublishes;
      var remaining := pending.Keys;
      ghost var done: set<nat> := {};
      while remaining != {}
        invariant remaining <= pending.Keys
        invariant done <= pending.Values
        invariant forall k :: k in pending && k !in remaining ==> pending[k] in done
        invariant publishes == Publisher.RejectAll(old(publishes), done)
        modifies this`publishes
        decreases |remaining|
      {
        var k :| k in remaining;
        Publisher.RejectOneMore(old(publishes), done, pending[k]);
        publishes := Publisher.SettleAt(publishes, pending[k], Publisher.Reset);
        done := done + {pending[k]};
        remaining := remaining - {k};
      }
      assert done == pending.Values by {
        forall v | v in pending.Values ensures v in done {
          var k :| k in pending && pending[k] == v;
        }
      }
      pendingPublishes := map[];
    }

    /** `getConnection()`: the cached connection, the shared attempt, or a new attempt
        that connects to `buildAmqpUrl()`. */
    method GetConnection() returns (l: Lookup, url: Option<string>)
      modifies this
      ensures Handles() == Step(old(Handles()), Connections.GetConnection)
      ensures Some(l) == Answer(old(Handles()), Connections.GetConnection)
      ensures url == if l.Started? then Some(BuildAmqpUrl(env, parse)) else None
      ensures Pub() == old(Pub())
    {
      if connection.Some? {
        return Cached(connection.value), None;
      }
      if !connectionPromise.NoPromise? {
        return Shared(connectionPromise), None;
      }
      url := Some(BuildAmqpUrl(env, parse));
      l := Started(nextAttempt);
      connectionPromise := Pending(nextAttempt);
      nextAttempt := nextAttempt + 1;
    }

    /** The `.then` of attempt `id`: `connection = conn`. */
    method OnConnected(id: nat, h: Handle)
      modifies this
      ensures Handles() == Step(old(Handles()), ConnectSucceeded(id, h))
      ensures Pub() == old(Pub())
    {
      connection := Some(h);
      if connectionPromise == Pending(id) {
        connectionPromise := Fulfilled(id, h);
      }
    }

    /** The `.catch` of attempt `id`: `resetState()`, then the error is rethrown. */
    method OnConnectFailed(id: nat)
      requires Valid()
      modifies this
      ensures Valid()
      ensures Handles() == Step(old(Handles()), ConnectFailed(id))
      ensures Pub() == Publisher.ResetPending(old(Pub()))
    {
      ResetState();
    }

    /** `conn.on("close")` */
    method OnConnectionClose()
      requires Valid()
      modifies this
      ensures Valid()
      ensures Handles() == Step(old(Handles()), ConnectionClosed)
      ensures Pub() == Publisher.ResetPending(old(Pub()))
    {
      ResetState();
    }

    /** `getChannel()`: a new attempt runs up to its first `await getConnection()`. */
    method GetChannel() returns (l: Lookup)
      modifies this
      ensures Handles() == Step(old(Handles()), Connections.GetChannel(ConsumerRole))
      ensures Some(l) == Answer(old(Handles()), Connections.GetChannel(ConsumerRole))
      ensures Pub() == old(Pub())
    {
      if consumerChannel.Some? {
        return Cached(consumerChannel.value);
      }
      if !consumerChannelPromise.NoPromise? {
        return Shared(consumerChannelPromise);
      }
      l := Started(nextAttempt);
      consumerChannelPromise := Pending(nextAttempt);
      nextAttempt := nextAttempt + 1;
      var _, _ := GetConnection();
    }

    /** `getPublisherChannel()`: the same over the confirm channel's variables. */
    method GetPublisherChannel() returns (l: Lookup)
      modifies this
      ensures Handles() == Step(old(Handles()), Connections.GetChannel(PublisherRole))
      ensures Some(l) == Answer(old(Handles()), Connections.GetChannel(PublisherRole))
      ensures Pub() == old(Pub())
    {
      if publisherChannel.Some? {
        return Cached(publisherChannel.value);
      }
      if !publisherChannelPromise.NoPromise? {
        return Shared(publisherChannelPromise);
      }
      l := Started(nextAttempt);
      publisherChannelPromise := Pending(nextAttempt);
      nextAttempt := nextAttempt + 1;
      var _, _ := GetConnection();
    }

    /** The async body of channel attempt `id` reaches `xChannel = ch; return ch`. */
    method OnChannelReady(role: Role, id: nat, h: Handle)
      modifies this
      ensures Handles() == Step(old(Handles()), ChannelReady(role, id, h))
      ensures Pub() == old(Pub())
    {
      match role
      case ConsumerRole =>
        consumerChannel := Some(h);
        if consumerChannelPromise == Pending(id) {
          consumerChannelPromise := Fulfilled(id, h);
        }
      case PublisherRole =>
        publisherChannel := Some(h);
        if publisherChannelPromise == Pending(id) {
          publisherChannelPromise := Fulfilled(id, h);
        }
    }

    /** The async body of channel attempt `id` throws: its promise rejects and stays. */
    method OnChannelFailed(role: Role, id: nat)
      modifies this
      ensures Handles() == Step(old(Handles()), ChannelFailed(role, id))
      ensures Pub() == old(Pub())
    {
      match role
      case ConsumerRole =>
        if consumerChannelPromise == Pending(id) {
          consumerChannelPromise := Rejected(id);
        }
      case PublisherRole =>
        if publisherChannelPromise == Pending(id) {
          publisherChannelPromise := Rejected(id);
        }
    }

    /** `ch.on("close")`: only that channel's two variables. */
    method OnChannelClose(role: Role)
      modifies this
      ensures Handles() == Step(old(Handles()), ChannelClosed(role))
      ensures Pub() == old(Pub())
    {
      match role
      case ConsumerRole =>
        consumerChannel, consumerChannelPromise := None, NoPromise;
      case PublisherRole =>
        publisherChannel, publisherChannelPromise := None, NoPromise;
    }

    /** `ch.on("return")` with the returned message's `properties.messageId`. */
    method OnReturn(messageId: Value)
      requires Valid()
      modifies this
      ensures Valid()
      ensures Pub() == Publisher.ReturnOf(old(Pub()), messageId)
      ensures Handles() == old(Handles())
    {
      if Truthy(messageId) && messageId in pendingPublishes {
        var i := pendingPublishes[messageId];
        pendingPublishes := pendingPublishes - {messageId};
        publishes := Publisher.SettleAt(publishes, i, Publisher.Returned);
      }
    }

    /** The part of `publishEvent` after `await getPublisherChannel()`: register the
        publish under its message id, then hand it to the channel. `uuid` and the clock
        are the generated values; `bufferAccepted` is what `ch.publish` returned, which
        is only logged, and `publishThrows` says that `ch.publish` threw instead (a closed
        channel): the executor then rejects the promise and the entry stays. The returned
        index names the publish's promise, which the confirm, return and reset callbacks
        settle; it resolves with `message`. */
    method PublishEvent(routingKey: string, payload: Record, options: Record,
                        uuid: string, createdAt: string, nowMs: int, bufferAccepted: bool,
                        publishThrows: bool)
      returns (index: nat, message: Record)
      requires Valid()
      modifies this
      ensures Valid()
      ensures message == Build(payload, MessageIdFor(payload, Str(uuid)), createdAt)
      ensures index == |old(publishes)|
      ensures var mid := MessageIdFor(payload, Str(uuid));
              !publishThrows ==>
              Pub() == Publisher.Register(old(Pub()), mid, Config.EventsExchange(env), routingKey,
                                PublishProps(env, options, mid, nowMs), message)
      ensures var mid := MessageIdFor(payload, Str(uuid));
              publishThrows ==>
              Pub() == Publisher.RegisterThrown(old(Pub()), mid, Config.EventsExchange(env), routingKey,
                                PublishProps(env, options, mid, nowMs), message)
      ensures Handles() == old(Handles())
    {
      var exchange := Config.EventsExchange(env);
      var messageId := MessageIdFor(payload, Str(uuid));
      message := Build(payload, messageId, createdAt);
      var props := PublishProps(env, options, messageId, nowMs);
      index := |publishes|;
      ghost var before := Pub();
      pendingPublishes := pendingPublishes[messageId := index];
      publishes := publishes + [Publisher.Publish(messageId, exchange, routingKey, props, message, Publisher.Sent)];
      assert Pub() == Publisher.Register(before, messageId, exchange, routingKey, props, message);
      if publishThrows {
        publishes := Publisher.SettleAt(publishes, index, Publisher.Threw);
        assert Pub() == Publisher.RegisterThrown(before, messageId, exchange, routingKey, props, message);
        Publisher.StepKeepsInv(before, Publisher.PublishThrew(messageId, exchange, routingKey, props, message));
      } else {
        Publisher.StepKeepsInv(before, Publisher.Published(messageId, exchange, routingKey, props, message));
      }
    }

    /** The broker confirm callback of publish `index` (`err` set on a nack). */
    method OnConfirm(index: nat, nacked: bool)
      requires Valid()
      modifies this
      ensures Valid()
      ensures Pub() == Publisher.ConfirmAt(old(Pub()), index, nacked)
      ensures Handles() == old(Handles())
    {
      if index < |publishes| {
        var messageId := publishes[index].key;
        if messageId in pendingPublishes {
          pendingPublishes := pendingPublishes - {messageId};
        }
        publishes := Publisher.SettleAt(publishes, index, if nacked then Publisher.Nacked else Publisher.Confirmed);
      }
    }

    /** `closeRabbit()`: each close error is swallowed, and `resetState()` runs last. */
    method CloseRabbit()
      requires Valid()
      modifies this
      ensures Valid()
      ensures Handles() == Step(old(Handles()), CloseAll)
      ensures Pub() == Publisher.ResetPending(old(Pub()))
    {
      ResetState();
    }
  }

  // ---------------------------------------------------------------- properties

  /** With no caller option and no environment switch, publishes are not mandatory. */
  lemma MandatoryDefaultsOff(env: Env, options: Record, mid: Value, nowMs: int)
    requires "mandatory" !in options
    ensures PublishProps(env, options, mid, nowMs)["mandatory"] ==
            Bool(EnvIs(env, "RABBITMQ_PUBLISH_MANDATORY", "true"))
    ensures !("RABBITMQ_PUBLISH_MANDATORY" in env) ==> PublishProps(env, options, mid, nowMs)["mandatory"] == Bool(false)
  {
  }

  /** The defaults that no caller option names are the ones sent. */
  lemma DefaultProperties(env: Env, options: Record, mid: Value, nowMs: int)
    requires forall k :: k in options ==> k == "headers"
    ensures var p := PublishProps(env, options, mid, nowMs);
            p["contentType"] == Str("application/json") && p["deliveryMode"] == Num(2) &&
            p["messageId"] == mid && p["correlationId"] == mid && p["timestamp"] == Num(nowMs)
  {
  }

  /** An explicit `mandatory: null` in the options survives the final spread, so the
      computed default is not what the channel sees. */
  lemma ExplicitNullMandatoryWins(env: Env, options: Record, mid: Value, nowMs: int)
    requires "mandatory" in options && options["mandatory"] == Null
    ensures PublishProps(env, options, mid, nowMs)["mandatory"] == Null
  {
  }

  /** When the options replace the `messageId` property, the broker returns the message
      under that id, which names no pending publish: the return rejects nothing and the
      publish still waits for its confirm. */
  lemma {:induction false} OverriddenIdEscapesReturn(
    p: Publisher.Pub, env: Env, rk: string, payload: Record, options: Record, uuid: string,
    createdAt: string, nowMs: int)
    requires Publisher.Inv(p)
    requires var mid := MessageIdFor(payload, Str(uuid));
             "messageId" in options && options["messageId"] != mid && options["messageId"] !in p.pending
    ensures var mid := MessageIdFor(payload, Str(uuid));
            var props := PublishProps(env, options, mid, nowMs);
            var q := Publisher.Register(p, mid, Config.EventsExchange(env), rk, props, Build(payload, mid, createdAt));
            Publisher.ReturnOf(q, props["messageId"]) == q && q.ops[|p.ops|].outcome == Publisher.Sent
  {
    var mid := MessageIdFor(payload, Str(uuid));
    var props := PublishProps(env, options, mid, nowMs);
    assert props["messageId"] == options["messageId"];
  }

  /** Without such an override, a return of the message rejects its publish. */
  lemma {:induction false} ReturnOfOwnMessageRejects(
    p: Publisher.Pub, env: Env, rk: string, payload: Record, options: Record, uuid: string,
    createdAt: string, nowMs: int)
    requires Publisher.Inv(p) && uuid != ""
    requires "messageId" !in options
    ensures var mid := MessageIdFor(payload, Str(uuid));
            var props := PublishProps(env, options, mid, nowMs);
            var q := Publisher.Register(p, mid, Config.EventsExchange(env), rk, props, Build(payload, mid, createdAt));
            Publisher.ReturnOf(q, props["messageId"]).ops[|p.ops|].outcome == Publisher.Returned
  {
    var mid := MessageIdFor(payload, Str(uuid));
    var props := PublishProps(env, options, mid, nowMs);
    assert props["messageId"] == mid;
    assert Truthy(mid);
  }
}
