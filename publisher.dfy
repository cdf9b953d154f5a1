/**
 * The confirm-tracked publisher of app/order-api/lib/rabbit.js as a state machine:
 * the `pendingPublishes` map from message id to the publish it tracks, and the
 * outcome of every publish promise. A promise settles at most once (the first of
 * confirm, return and reset wins); later `resolve`/`reject` calls do nothing. When
 * `ch.publish` throws, the promise executor rejects with the thrown error after the
 * entry was set, and the entry stays behind.
 */
module Publisher {
  import opened Js
  import opened Envelope

  /** `Threw`: `ch.publish` threw inside the promise executor, which rejects the promise. */
  datatype Outcome = Sent | Confirmed | Nacked | Returned | Reset | Threw

  /** One `publishEvent` call that reached `ch.publish`: the id it is tracked under
      (the local `messageId`), what went to the broker, and its promise's state. */
  datatype Publish = Publish(
    key: Value,
    exchange: string,
    routingKey: string,
    props: Record,
    message: Record,
    outcome: Outcome)

  /** `pendingPublishes` (values are indices into `ops`) and all publishes so far. */
  datatype Pub = Pub(pending: map<Value, nat>, ops: seq<Publish>)

  const Idle := Pub(map[], [])

  /** Every pending entry names a publish tracked under that very key, which is either
      unsettled or one whose `ch.publish` threw (a stale entry). */
  predicate Inv(p: Pub) {
    forall k :: k in p.pending ==>
      p.pending[k] < |p.ops| && p.ops[p.pending[k]].key == k &&
      (p.ops[p.pending[k]].outcome == Sent || p.ops[p.pending[k]].outcome == Threw)
  }

  /** `resolve`/`reject` on a promise: only the first settlement takes effect. */
  function SettleOp(op: Publish, o: Outcome): (r: Publish)
    ensures r.(outcome := op.outcome) == op
    ensures op.outcome == Sent ==> r.outcome == o
    ensures op.outcome != Sent ==> r.outcome == op.outcome
  {
    if op.outcome == Sent then op.(outcome := o) else op
  }

  /** A settled promise absorbs every later settlement, whatever it is. */
  lemma {:induction false} SettleOpAbsorbs(op: Publish, o1: Outcome, o2: Outcome)
    requires o1 != Sent
    ensures SettleOp(SettleOp(op, o1), o2) == SettleOp(op, o1)
    ensures SettleOp(op, o1).outcome != Sent
  {
  }

  /** Settle publish `i` (nothing when there is no such publish). */
  function SettleAt(ops: seq<Publish>, i: nat, o: Outcome): (r: seq<Publish>)
    ensures |r| == |ops|
    ensures forall j :: 0 <= j < |ops| ==> r[j] == if j == i then SettleOp(ops[j], o) else ops[j]
  {
    if i < |ops| then ops[i := SettleOp(ops[i], o)] else ops
  }

  /** Reject every publish whose index is in `idx` with the connection-reset error:
      exactly the unsettled ones among them end `Reset`, and nothing else changes. */
  function RejectAll(ops: seq<Publish>, idx: set<nat>): (r: seq<Publish>)
    ensures |r| == |ops|
    ensures forall j :: 0 <= j < |ops| ==> r[j].(outcome := ops[j].outcome) == ops[j]
    ensures forall j :: 0 <= j < |ops| ==>
              (r[j].outcome == Reset <==> ops[j].outcome == Reset || (j in idx && ops[j].outcome == Sent))
    ensures forall j :: 0 <= j < |ops| && ops[j].outcome != Sent ==> r[j] == ops[j]
    ensures forall j :: 0 <= j < |ops| && j !in idx ==> r[j] == ops[j]
  {
    seq(|ops|, j requires 0 <= j < |ops| => if j in idx then SettleOp(ops[j], Reset) else ops[j])
  }

  /** Rejecting one more publish extends the set of rejected ones. */
  lemma {:induction false} RejectOneMore(ops: seq<Publish>, done: set<nat>, j: nat)
    ensures SettleAt(RejectAll(ops, done), j, Reset) == RejectAll(ops, done + {j})
  {
    var a := SettleAt(RejectAll(ops, done), j, Reset);
    var b := RejectAll(ops, done + {j});
    assert |a| == |b|;
    forall i | 0 <= i < |a| ensures a[i] == b[i] {
    }
  }

  datatype Event =
    | Published(key: Value, exchange: string, routingKey: string, props: Record, message: Record)
                                          // pendingPublishes.set(messageId, ...); ch.publish(...)
    | Confirm(index: nat, nacked: bool)   // the broker confirm callback of publish `index`
    | PublishThrew(key: Value, exchange: string, routingKey: string, props: Record, message: Record)
                                          // pendingPublishes.set(messageId, ...); ch.publish throws
    | Return(messageId: Value)            // ch.on("return") with msg.properties.messageId
    | ConnectionReset                     // resetState()

  /** The publish with index |p.ops| is registered; an entry under the same key is replaced. */
  function Register(p: Pub, key: Value, exchange: string, routingKey: string, props: Record, message: Record): Pub {
    Pub(p.pending[key := |p.ops|], p.ops + [Publish(key, exchange, routingKey, props, message, Sent)])
  }

  /** The entry is set first; then `ch.publish` throws and the executor rejects the
      promise, leaving the entry in the map. */
  function RegisterThrown(p: Pub, key: Value, exchange: string, routingKey: string, props: Record, message: Record): Pub {
    var q := Register(p, key, exchange, routingKey, props, message);
    Pub(q.pending, SettleAt(q.ops, |p.ops|, Threw))
  }

  /** Confirm callback: delete the entry under the publish's own key (whichever publish
      it belongs to), then reject on a nack or resolve. */
  function ConfirmAt(p: Pub, i: nat, nacked: bool): Pub {
    if i < |p.ops| then
      Pub(p.pending - {p.ops[i].key}, SettleAt(p.ops, i, if nacked then Nacked else Confirmed))
    else p
  }

  /** Return handler: only a truthy id that is pending does anything. */
  function ReturnOf(p: Pub, mid: Value): Pub {
    if Truthy(mid) && mid in p.pending then
      Pub(p.pending - {mid}, SettleAt(p.ops, p.pending[mid], Returned))
    else p
  }

  /** `resetState()`: reject every pending publish, then clear the map. */
  function ResetPending(p: Pub): Pub {
    Pub(map[], RejectAll(p.ops, p.pending.Values))
  }

  function Step(p: Pub, e: Event): (q: Pub)
    ensures |q.ops| == |p.ops| + (if e.Published? || e.PublishThrew? then 1 else 0)
  {
    match e
    case Published(key, ex, rk, props, message) => Register(p, key, ex, rk, props, message)
    case PublishThrew(key, ex, rk, props, message) => RegisterThrown(p, key, ex, rk, props, message)
    case Confirm(i, nacked) => ConfirmAt(p, i, nacked)
    case Return(mid) => ReturnOf(p, mid)
    case ConnectionReset => ResetPending(p)
  }

  function Run(p: Pub, es: seq<Event>): Pub
    decreases |es|
  {
    if es == [] then p else Run(Step(p, es[0]), es[1..])
  }

  // ---------------------------------------------------------------- properties

  /** Every event keeps the map consistent with the publishes. */
  lemma StepKeepsInv(p: Pub, e: Event)
    requires Inv(p)
    ensures Inv(Step(p, e))
  {
  }

  lemma {:induction false} RunKeepsInv(p: Pub, es: seq<Event>)
    requires Inv(p)
    ensures Inv(Run(p, es))
    decreases |es|
  {
    if es != [] {
      StepKeepsInv(p, es[0]);
      RunKeepsInv(Step(p, es[0]), es[1..]);
    }
  }

  /** Events only ever add publishes, and a settled publish never changes again. */
  lemma StepKeepsSettled(p: Pub, e: Event, i: nat)
    requires i < |p.ops| && p.ops[i].outcome != Sent
    ensures |Step(p, e).ops| >= |p.ops| && Step(p, e).ops[i] == p.ops[i]
  {
  }

  lemma {:induction false} SettledOnce(p: Pub, es: seq<Event>, i: nat)
    requires i < |p.ops| && p.ops[i].outcome != Sent
    ensures |Run(p, es).ops| >= |p.ops| && Run(p, es).ops[i] == p.ops[i]
    decreases |es|
  {
    if es != [] {
      StepKeepsSettled(p, es[0], i);
      SettledOnce(Step(p, es[0]), es[1..], i);
    }
  }

  /** A publish settled by a confirm, a return or a reset has left the map: an entry
      points only at an unsettled publish or at one whose `ch.publish` threw. */
  lemma SettledIsNotPending(p: Pub, i: nat)
    requires Inv(p) && i in p.pending.Values
    ensures i < |p.ops| && (p.ops[i].outcome == Sent || p.ops[i].outcome == Threw)
  {
  }

  /** A publish is tracked under its key and the earlier entry for that key is dropped;
      nothing already sent changes. */
  lemma RegisterTracks(p: Pub, key: Value, ex: string, rk: string, props: Record, message: Record)
    ensures var q := Register(p, key, ex, rk, props, message);
            q.pending == p.pending[key := |p.ops|] && q.ops[..|p.ops|] == p.ops &&
            q.ops[|p.ops|].outcome == Sent && q.ops[|p.ops|].key == key
  {
  }

  /** A confirm settles its own publish (Confirmed, or Nacked with the broker's error),
      removes the entry under its key, and changes no other publish or entry. */
  lemma {:induction false} ConfirmSettlesOnlyItsPublish(p: Pub, i: nat, nacked: bool)
    requires Inv(p) && i < |p.ops| && p.ops[i].outcome == Sent
    ensures var q := ConfirmAt(p, i, nacked);
            q.ops[i].outcome == (if nacked then Nacked else Confirmed) &&
            p.ops[i].key !in q.pending &&
            (forall k :: k in p.pending && k != p.ops[i].key ==> k in q.pending && q.pending[k] == p.pending[k]) &&
            (forall j :: 0 <= j < |p.ops| && j != i ==> q.ops[j] == p.ops[j])
  {
    assert SettleOp(p.ops[i], if nacked then Nacked else Confirmed).outcome == (if nacked then Nacked else Confirmed);
  }

  /** A returned message whose id is pending rejects exactly that publish as unroutable;
      a stale entry left by a throw is removed and its rejection stands. */
  lemma ReturnRejectsPending(p: Pub, mid: Value)
    requires Inv(p) && Truthy(mid) && mid in p.pending
    ensures var q := ReturnOf(p, mid);
            q.ops[p.pending[mid]].outcome == (if p.ops[p.pending[mid]].outcome == Threw then Threw else Returned) &&
            q.pending == p.pending - {mid} &&
            (forall j :: 0 <= j < |p.ops| && j != p.pending[mid] ==> q.ops[j] == p.ops[j])
  {
  }

  /** A returned message with a missing, falsy or unknown id changes nothing. */
  lemma ReturnUnknownIsNoop(p: Pub, mid: Value)
    requires !Truthy(mid) || mid !in p.pending
    ensures ReturnOf(p, mid) == p
  {
  }

  /** A reset rejects every unsettled pending publish, leaves the others alone (a stale
      entry's publish stays `Threw`) and empties the map. */
  lemma ResetRejectsEveryPending(p: Pub)
    requires Inv(p)
    ensures ResetPending(p).pending == map[]
    ensures |ResetPending(p).ops| == |p.ops|
    ensures forall j :: 0 <= j < |p.ops| ==>
              ResetPending(p).ops[j].outcome ==
                (if j in p.pending.Values && p.ops[j].outcome == Sent then Reset else p.ops[j].outcome)
  {
  }

  // ---------------------------------------------------------------- first settlement wins

  /** A mandatory publish that cannot be routed is returned before the broker acks it:
      the publish fails as unroutable and the later ack does not resolve it. */
  lemma {:induction false} ReturnBeforeAckFails(p: Pub, key: Value, ex: string, rk: string, props: Record, message: Record)
    requires Inv(p) && Truthy(key)
    ensures var i := |p.ops|;
            var q := Step(Step(Step(p, Published(key, ex, rk, props, message)), Return(key)), Confirm(i, false));
            q.ops[i].outcome == Returned
  {
    var i := |p.ops|;
    var q2 := ReturnOf(Register(p, key, ex, rk, props, message), key);
    assert q2.ops[i].outcome == Returned;
  }

  /** A return that arrives after the confirm finds no entry and changes nothing. */
  lemma {:induction false} AckBeforeReturnSucceeds(p: Pub, key: Value, ex: string, rk: string, props: Record, message: Record)
    requires Inv(p)
    ensures var i := |p.ops|;
            var q := Step(Step(Step(p, Published(key, ex, rk, props, message)), Confirm(i, false)), Return(key));
            q.ops[i].outcome == Confirmed
  {
    var i := |p.ops|;
    var q2 := ConfirmAt(Register(p, key, ex, rk, props, message), i, false);
    assert key !in q2.pending;
    assert q2.ops[i].outcome == Confirmed;
  }

  /** A reset rejects a publish still waiting for its confirm; the late confirm is ignored. */
  lemma {:induction false} ResetBeforeAckFails(p: Pub, key: Value, ex: string, rk: string, props: Record, message: Record)
    requires Inv(p)
    ensures var i := |p.ops|;
            var q := Step(Step(Step(p, Published(key, ex, rk, props, message)), ConnectionReset), Confirm(i, false));
            q.ops[i].outcome == Reset
  {
    var i := |p.ops|;
    var q1 := Register(p, key, ex, rk, props, message);
    assert i in q1.pending.Values by { assert q1.pending[key] == i; }
    assert ResetPending(q1).ops[i].outcome == Reset;
  }

  /** Two publishes tracked under the same id share one entry: the first one's confirm
      deletes it, so a later return of the second publish no longer rejects it. */
  lemma {:induction false} SharedIdLosesReturn(key: Value, ex: string, rk: string, props: Record, m1: Record, m2: Record)
    requires Truthy(key)
    ensures var q2 := Step(Step(Idle, Published(key, ex, rk, props, m1)), Published(key, ex, rk, props, m2));
            var q := Step(Step(Step(q2, Confirm(0, false)), Return(key)), Confirm(1, false));
            q.ops[1].outcome == Confirmed
  {
    var q2 := Register(Register(Idle, key, ex, rk, props, m1), key, ex, rk, props, m2);
    var q3 := ConfirmAt(q2, 0, false);
    assert key !in q3.pending;
    assert ReturnOf(q3, key) == q3;
    assert q3.ops[1].outcome == Sent;
  }

  // ---------------------------------------------------------------- a throwing publish

  /** When `ch.publish` throws, the promise rejects with the thrown error, yet the entry
      set just before it stays in the map under the message id. */
  lemma {:induction false} ThrowLeavesStaleEntry(p: Pub, key: Value, ex: string, rk: string, props: Record, message: Record)
    requires Inv(p)
    ensures var q := Step(p, PublishThrew(key, ex, rk, props, message));
            q.ops[|p.ops|].outcome == Threw && key in q.pending && q.pending[key] == |p.ops| &&
            q.ops[..|p.ops|] == p.ops
  {
    var q := RegisterThrown(p, key, ex, rk, props, message);
    assert q.ops[..|p.ops|] == p.ops;
  }

  /** Events that do not name an entry's key: no confirm, no return of that id, no reset,
      and no new publish under that id. */
  predicate Spares(e: Event, key: Value) {
    match e
    case Published(k, _, _, _, _) => k != key
    case PublishThrew(k, _, _, _, _) => k != key
    case Confirm(_, _) => false
    case Return(mid) => mid != key
    case ConnectionReset => false
  }

  /** Only a confirm, a return of the id, a reset or a new publish under the id removes or
      replaces an entry; so a stale entry stays until one of them comes. */
  lemma {:induction false} EntryStaysUntilNamed(p: Pub, es: seq<Event>, key: Value)
    requires key in p.pending
    requires forall j :: 0 <= j < |es| ==> Spares(es[j], key)
    ensures key in Run(p, es).pending && Run(p, es).pending[key] == p.pending[key]
    decreases |es|
  {
    if es != [] {
      assert Spares(es[0], key);
      var q := Step(p, es[0]);
      assert key in q.pending && q.pending[key] == p.pending[key];
      assert forall j :: 0 <= j < |es[1..]| ==> Spares(es[1..][j], key) by {
        forall j | 0 <= j < |es[1..]| ensures Spares(es[1..][j], key) {
          assert es[1..][j] == es[j + 1];
        }
      }
      EntryStaysUntilNamed(q, es[1..], key);
    }
  }
}
