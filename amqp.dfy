/**
 * The broker as the services see it through amqplib: the declared topology
 * (exchanges, queues with their argument tables, bindings), the acknowledgements a
 * consumer sends on its channel, and a queue bounded by `x-max-length` with the
 * `drop-head` overflow policy.
 */
module Amqp {

  datatype ExchangeKind = Topic | Direct

  datatype Exchange = Exchange(name: string, kind: ExchangeKind, durable: bool)

  /** A value in a queue's `arguments` table. */
  datatype Arg = IntArg(i: int) | StrArg(s: string)

  datatype Queue = Queue(name: string, durable: bool, args: map<string, Arg>)

  /** `bindQueue(queue, exchange, pattern)` */
  datatype Binding = Binding(queue: string, exchange: string, pattern: string)

  /** A set of declarations; declaring is set insertion, so a declaration the broker
      already has changes nothing. */
  datatype Topology = Topology(exchanges: set<Exchange>, queues: set<Queue>, bindings: set<Binding>) {

    function Plus(d: Topology): (r: Topology)
      ensures r.Includes(this) && r.Includes(d)
      ensures forall e :: e in r.exchanges ==> e in exchanges || e in d.exchanges
      ensures forall q :: q in r.queues ==> q in queues || q in d.queues
      ensures forall b :: b in r.bindings ==> b in bindings || b in d.bindings
    {
      Topology(exchanges + d.exchanges, queues + d.queues, bindings + d.bindings)
    }

    predicate Includes(d: Topology) {
      d.exchanges <= exchanges && d.queues <= queues && d.bindings <= bindings
    }

    /** The names of the declared queues. */
    function QueueNames(): set<string> {
      set q | q in queues :: q.name
    }
  }

  const NoTopology := Topology({}, {}, {})

  function ExchangeDecl(e: Exchange): Topology {
    Topology({e}, {}, {})
  }

  function QueueDecl(q: Queue): Topology {
    Topology({}, {q}, {})
  }

  function BindingDecl(b: Binding): Topology {
    Topology({}, {}, {b})
  }

  /** Declaring the same things again leaves the topology as it was after the first time. */
  lemma PlusIdempotent(t: Topology, d: Topology)
    ensures t.Plus(d).Plus(d) == t.Plus(d)
  {
  }

  lemma PlusAssociates(a: Topology, b: Topology, c: Topology)
    ensures a.Plus(b).Plus(c) == a.Plus(b.Plus(c))
  {
  }

  /** The broker's declared topology, changed in place by the assert/bind calls. */
  class Broker {
    var exchanges: set<Exchange>
    var queues: set<Queue>
    var bindings: set<Binding>

    constructor ()
      ensures View() == NoTopology
    {
      exchanges, queues, bindings := {}, {}, {};
    }

    function View(): Topology
      reads this
    {
      Topology(exchanges, queues, bindings)
    }

    /** `ch.assertExchange(name, kind, { durable })` */
    method AssertExchange(e: Exchange)
      modifies this
      ensures View() == old(View()).Plus(ExchangeDecl(e))
    {
      exchanges := exchanges + {e};
    }

    /** `ch.assertQueue(name, { durable, arguments })` */
    method AssertQueue(q: Queue)
      modifies this
      ensures View() == old(View()).Plus(QueueDecl(q))
    {
      queues := queues + {q};
    }

    /** `ch.bindQueue(queue, exchange, pattern)` */
    method BindQueue(b: Binding)
      modifies this
      ensures View() == old(View()).Plus(BindingDecl(b))
    {
      bindings := bindings + {b};
    }
  }

  // ---------------------------------------------------------------- consumer acknowledgements

  /** A message handed to a consumer: its delivery tag and its body as text
      (`msg.content.toString()`). */
  datatype Delivery = Delivery(tag: nat, content: string)

  /** What a consumer sends back for a delivery: `ch.ack(msg)` or `ch.nack(msg, false, requeue)`. */
  datatype Settlement = Acked(tag: nat) | Nacked(tag: nat, requeue: bool)

  /** The acknowledgements a consumer has sent on its channel, in order. */
  class ConsumerChannel {
    var settlements: seq<Settlement>

    constructor ()
      ensures settlements == []
    {
      settlements := [];
    }

    method Ack(tag: nat)
      modifies this
      ensures settlements == old(settlements) + [Acked(tag)]
    {
      settlements := settlements + [Acked(tag)];
    }

    method Nack(tag: nat, requeue: bool)
      modifies this
      ensures settlements == old(settlements) + [Nacked(tag, requeue)]
    {
      settlements := settlements + [Nacked(tag, requeue)];
    }
  }

  // ---------------------------------------------------------------- x-max-length with drop-head

  function Min(a: nat, b: nat): nat {
    if a <= b then a else b
  }

  /** The last `n` elements of `s` (all of them when there are fewer). */
  function Newest<T>(s: seq<T>, n: nat): (r: seq<T>)
    ensures |r| == Min(|s|, n)
  {
    s[|s| - Min(|s|, n)..]
  }

  /** One arrival at a queue holding at most `max` messages: when it is full the
      oldest message (the head) is dropped to make room. */
  function Arrive<T>(ms: seq<T>, max: nat, m: T): (r: seq<T>)
    requires |ms| <= max
    ensures |r| <= max
    ensures |ms| < max ==> r == ms + [m]
    ensures 0 < max == |ms| ==> r == ms[1..] + [m]
  {
    Newest(ms + [m], max)
  }

  /** Arrivals in order. */
  function ArriveAll<T>(ms: seq<T>, max: nat, xs: seq<T>): (r: seq<T>)
    requires |ms| <= max
    ensures |r| <= max
    decreases |xs|
  {
    if xs == [] then ms else ArriveAll(Arrive(ms, max, xs[0]), max, xs[1..])
  }

  lemma NewestOfNewest<T>(s: seq<T>, max: nat, m: T)
    ensures Newest(Newest(s, max) + [m], max) == Newest(s + [m], max)
  {
  }

  /** However many messages arrive, the queue holds exactly the newest `max` of
      everything that ever arrived, in arrival order. */
  lemma {:induction false} ArriveAllKeepsNewest<T>(ms: seq<T>, max: nat, xs: seq<T>)
    requires |ms| <= max
    ensures ArriveAll(ms, max, xs) == Newest(ms + xs, max)
    decreases |xs|
  {
    if xs == [] {
      assert ms + xs == ms;
    } else {
      var next := Arrive(ms, max, xs[0]);
      ArriveAllKeepsNewest(next, max, xs[1..]);
      assert ms == Newest(ms, max);
      NewestOfNewest(ms, max, xs[0]);
      assert next + xs[1..] == Newest(ms + [xs[0]], max) + xs[1..];
      NewestOfAppend(ms + [xs[0]], max, xs[1..]);
      assert ms + [xs[0]] + xs[1..] == ms + xs;
    }
  }

  /** Keeping the newest `max` before appending does not change the newest `max` after. */
  lemma NewestOfAppend<T>(s: seq<T>, max: nat, t: seq<T>)
    ensures Newest(Newest(s, max) + t, max) == Newest(s + t, max)
  {
    var k := |s| - Min(|s|, max);
    assert s + t == s[..k] + (s[k..] + t);
  }

  /** A durable queue declared with `x-max-length` and `x-overflow: drop-head`. */
  class DropHeadQueue<T> {
    const maxLength: nat
    var messages: seq<T>

    ghost predicate Valid()
      reads this
    {
      |messages| <= maxLength
    }

    constructor (maxLength: nat)
      ensures Valid() && this.maxLength == maxLength && messages == []
    {
      this.maxLength := maxLength;
      messages := [];
    }

    /** A message routed to the queue. */
    method Enqueue(m: T)
      requires Valid()
      modifies this
      ensures Valid()
      ensures messages == Arrive(old(messages), maxLength, m)
    {
      if |messages| < maxLength {
        messages := messages + [m];
      } else if maxLength == 0 {
        messages := [];
      } else {
        messages := messages[1..] + [m];
      }
    }
  }
}
