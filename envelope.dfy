/**
 * What every `publishEvent` (all four `lib/rabbit.js` files) builds before it
 * publishes: the message id, the correlation id, the JSON envelope
 * `{ messageId, createdAt, ...payload }`, and the publish properties
 * `{ ...defaults, ...options }`.
 *
 * The generated id (`crypto.randomUUID()` or `randomId()`) and the clock
 * (`new Date().toISOString()`, `Date.now()`) are parameters.
 */
module Envelope {
  import opened Js

  /** A plain object: a JSON body, a payload, an options bag. */
  type Record = map<string, Value>

  /** `payload.messageId || generated` */
  function MessageIdFor(payload: Record, generated: Value): (mid: Value)
    ensures Truthy(Prop(payload, "messageId")) ==> mid == payload["messageId"]
    ensures !Truthy(Prop(payload, "messageId")) ==> mid == generated
  {
    Or(Prop(payload, "messageId"), generated)
  }

  /** `options.correlationId || messageId` (the two current revisions only). */
  function CorrelationIdFor(options: Record, messageId: Value): (cid: Value)
    ensures Truthy(Prop(options, "correlationId")) ==> cid == options["correlationId"]
    ensures !Truthy(Prop(options, "correlationId")) ==> cid == messageId
  {
    Or(Prop(options, "correlationId"), messageId)
  }

  /** `{ messageId, createdAt, ...payload }`: the payload's own fields win. */
  function Build(payload: Record, messageId: Value, createdAt: string): (m: Record)
    ensures m.Keys == payload.Keys + {"messageId", "createdAt"}
    ensures forall k :: k in payload ==> m[k] == payload[k]
    ensures "messageId" !in payload ==> m["messageId"] == messageId
    ensures "createdAt" !in payload ==> m["createdAt"] == Str(createdAt)
  {
    map["messageId" := messageId, "createdAt" := Str(createdAt)] + payload
  }

  /** `{ ...defaults, ...options }`: every caller option replaces the default of the
      same name, including an explicit `null` or `undefined`. */
  function Overlay(defaults: Record, options: Record): (p: Record)
    ensures p.Keys == defaults.Keys + options.Keys
    ensures forall k :: k in options ==> p[k] == options[k]
    ensures forall k :: k in defaults && k !in options ==> p[k] == defaults[k]
  {
    defaults + options
  }

  // ---------------------------------------------------------------- properties

  /** The envelope's `messageId` is the id the publish uses exactly when the payload's
      own `messageId` is truthy or absent. */
  lemma EnvelopeIdIsPublishId(payload: Record, generated: Value, createdAt: string)
    requires Truthy(generated)
    ensures var mid := MessageIdFor(payload, generated);
            (Build(payload, mid, createdAt)["messageId"] == mid)
              <==> ("messageId" !in payload || Truthy(payload["messageId"]))
    ensures Truthy(MessageIdFor(payload, generated))
  {
  }

  /** A payload whose `messageId` is present but falsy (`""`, `0`, `null`, `false`)
      keeps that value in the envelope while the AMQP `messageId` property is the
      generated id. */
  lemma {:induction false} FalsyPayloadIdDiverges(payload: Record, generated: Value, createdAt: string)
    requires "messageId" in payload && !Truthy(payload["messageId"]) && Truthy(generated)
    ensures Build(payload, MessageIdFor(payload, generated), createdAt)["messageId"] != MessageIdFor(payload, generated)
  {
    assert MessageIdFor(payload, generated) == generated;
  }

  /** With no caller correlation id the correlation id is the message id. */
  lemma CorrelationDefaultsToMessageId(payload: Record, options: Record, generated: Value)
    requires "correlationId" !in options
    ensures CorrelationIdFor(options, MessageIdFor(payload, generated)) == MessageIdFor(payload, generated)
  {
  }
}
