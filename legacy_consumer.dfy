/**
 * payment-service/index.js, the older consumer: every delivery whose insert succeeds,
 * except a JSON `null`, is stored verbatim in `processed_messages`, with the message id
 * the JSON carries, or null. Content that is not JSON is stored too. Nothing is
 * deduplicated.
 */
module LegacyConsumer {
  import opened Wrappers
  import opened Js
  import Amqp

  /** A `processed_messages` row: `message_id` and the raw `payload` text. */
  datatype Processed = Processed(messageId: Value, payload: string)

  /** `data`: what JSON.parse returned, or `{ messageId: null, text: content }` when it threw. */
  function DataFor(content: string, parsed: Option<Value>): (data: Value)
    ensures parsed.None? ==> data == Obj(map["messageId" := Null, "text" := Str(content)])
    ensures parsed.Some? ==> data == parsed.value
  {
    match parsed
    case Some(v) => v
    case None => Obj(map["messageId" := Null, "text" := Str(content)])
  }

  /** The row inserted: `[data.messageId || null, content]`, or None when reading
      `data.messageId` throws (the JSON was `null`). */
  function RowFor(content: string, parsed: Option<Value>): (row: Option<Processed>)
    ensures row.None? <==> parsed.Some? && Nullish(parsed.value)
    ensures row.Some? ==> row.value.payload == content
    ensures row.Some? ==> row.value.messageId == Or(Field(DataFor(content, parsed), "messageId").value, Null)
  {
    match Field(DataFor(content, parsed), "messageId")
    case None => None
    case Some(mid) => Some(Processed(Or(mid, Null), content))
  }

  /** How many rows carry message id `mid`. */
  function CountId(rows: seq<Processed>, mid: Value): nat {
    if rows == [] then 0
    else CountId(rows[..|rows| - 1], mid) + (if rows[|rows| - 1].messageId == mid then 1 else 0)
  }

  /** The table, appended to by each insert. */
  class ProcessedMessages {
    var rows: seq<Processed>

    constructor ()
      ensures rows == []
    {
      rows := [];
    }

    /** `INSERT INTO processed_messages (message_id, payload) VALUES ($1, $2)` */
    method Insert(r: Processed)
      modifies this
      ensures rows == old(rows) + [r]
    {
      rows := rows + [r];
    }
  }

  class Consumer {
    const table: ProcessedMessages
    const channel: Amqp.ConsumerChannel

    constructor (table: ProcessedMessages, channel: Amqp.ConsumerChannel)
      ensures this.table == table && this.channel == channel
    {
      this.table, this.channel := table, channel;
    }

    /** The `channel.consume` callback: a null delivery is ignored; otherwise the row is
        inserted and the delivery acked, or, when reading the id or the insert throws
        (`insertFails`), nacked without requeue. */
    method Handle(msg: Option<Amqp.Delivery>, parsed: Option<Value>, insertFails: bool)
      modifies table, channel
      ensures msg.None? ==> table.rows == old(table.rows) && channel.settlements == old(channel.settlements)
      ensures msg.Some? ==>
                var row := RowFor(msg.value.content, parsed);
                var ok := row.Some? && !insertFails;
                table.rows == old(table.rows) + (if ok then [row.value] else []) &&
                channel.settlements == old(channel.settlements) +
                  [if ok then Amqp.Acked(msg.value.tag) else Amqp.Nacked(msg.value.tag, false)]
    {
      if msg.None? {
        return;
      }
      var content := msg.value.content;
      var row := RowFor(content, parsed);
      if row.None? || insertFails {
        channel.Nack(msg.value.tag, false);
        return;
      }
      table.Insert(row.value);
      channel.Ack(msg.value.tag);
    }
  }

  // ---------------------------------------------------------------- properties

  /** Content that is not JSON is stored as it came, with a null message id. */
  lemma NonJsonIsStored(content: string)
    ensures RowFor(content, None) == Some(Processed(Null, content))
  {
  }

  /** A JSON object's falsy or missing id is stored as null, a truthy one as it is. */
  lemma StoredMessageId(content: string, fields: map<string, Value>)
    ensures "messageId" in fields && Truthy(fields["messageId"]) ==>
              RowFor(content, Some(Obj(fields))) == Some(Processed(fields["messageId"], content))
    ensures ("messageId" !in fields || !Truthy(fields["messageId"])) ==>
              RowFor(content, Some(Obj(fields))) == Some(Processed(Null, content))
  {
  }

  lemma {:induction false} CountIdAppend(rows: seq<Processed>, r: Processed, mid: Value)
    ensures CountId(rows + [r], mid) == CountId(rows, mid) + (if r.messageId == mid then 1 else 0)
  {
    assert (rows + [r])[..|rows + [r]| - 1] == rows;
  }

  /** Nothing deduplicates: delivering the same message twice stores it twice. */
  lemma {:induction false} RedeliveryStoresTwice(rows: seq<Processed>, content: string, parsed: Option<Value>)
    requires RowFor(content, parsed).Some?
    ensures var r := RowFor(content, parsed).value;
            CountId(rows + [r] + [r], r.messageId) == CountId(rows, r.messageId) + 2
  {
    var r := RowFor(content, parsed).value;
    CountIdAppend(rows, r, r.messageId);
    CountIdAppend(rows + [r], r, r.messageId);
  }
}
