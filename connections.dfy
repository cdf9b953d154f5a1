/**
 * The module-level connection and channel cache of the two current `lib/rabbit.js`
 * files: six variables, a handle and a promise for each of the connection, the
 * consumer channel and the confirm (publisher) channel.
 *
 * A promise is modelled by its state and its identity: `Pending(id)` is the promise
 * of establishment attempt `id`. The asynchronous continuations of an attempt
 * (`.then`, `.catch`, the rest of the async IIFE) are separate events, so the model
 * shows what happens when they interleave with close events.
 */
module Connections {
  import opened Wrappers

  /** A connection or channel object; distinct numbers are distinct objects. */
  type Handle = nat

  /** What a `...Promise` variable holds. */
  datatype PromiseState =
    | NoPromise
    | Pending(id: nat)
    | Fulfilled(id: nat, h: Handle)
    | Rejected(id: nat)

  /** One cached resource: `x` and `xPromise`. */
  datatype Slot = Slot(handle: Option<Handle>, promise: PromiseState)

  const Empty := Slot(None, NoPromise)

  /** What a getter hands its caller: the cached handle, the promise it joins, or the
      promise of a new attempt it has just started. */
  datatype Lookup = Cached(h: Handle) | Shared(p: PromiseState) | Started(id: nat)

  /** `if (x) return x; if (xPromise) return xPromise; xPromise = attempt(id)` */
  function Get(s: Slot, id: nat): (Lookup, Slot) {
    if s.handle.Some? then (Cached(s.handle.value), s)
    else if !s.promise.NoPromise? then (Shared(s.promise), s)
    else (Started(id), Slot(None, Pending(id)))
  }

  /** The continuation of attempt `id` stores the handle it got. It assigns the handle
      variable whatever has happened since; the promise variable only changes if it
      still holds that attempt's promise. */
  function Settle(s: Slot, id: nat, h: Handle): Slot {
    Slot(Some(h), if s.promise == Pending(id) then Fulfilled(id, h) else s.promise)
  }

  /** Attempt `id` rejects; nothing clears the variables. */
  function Fail(s: Slot, id: nat): Slot {
    s.(promise := if s.promise == Pending(id) then Rejected(id) else s.promise)
  }

  datatype Role = ConsumerRole | PublisherRole

  datatype Handles = Handles(connection: Slot, consumer: Slot, publisher: Slot, nextAttempt: nat) {
    function Channel(r: Role): Slot {
      match r
      case ConsumerRole => consumer
      case PublisherRole => publisher
    }

    function WithChannel(r: Role, s: Slot): Handles {
      match r
      case ConsumerRole => this.(consumer := s)
      case PublisherRole => this.(publisher := s)
    }
  }

  /** `resetState()`: all six variables back to null. */
  function Cleared(hs: Handles): Handles {
    Handles(Empty, Empty, Empty, hs.nextAttempt)
  }

  datatype Event =
    | GetConnection                                 // getConnection()
    | ConnectSucceeded(id: nat, h: Handle)          // amqp.connect(...).then(...)
    | ConnectFailed(id: nat)                        // amqp.connect(...).catch(...): resetState(), rethrow
    | ConnectionClosed                              // conn.on("close"): resetState()
    | GetChannel(role: Role)                        // getChannel() / getPublisherChannel()
    | ChannelReady(role: Role, id: nat, h: Handle)  // the IIFE reaches `xChannel = ch`
    | ChannelFailed(role: Role, id: nat)            // the IIFE rejects (createChannel or a later await threw)
    | ChannelClosed(role: Role)                     // ch.on("close"): xChannel = xChannelPromise = null
    | CloseAll                                      // closeRabbit(): close what is cached, then resetState()

  /** The events after which `resetState()` has run. */
  predicate Resets(e: Event) {
    e.ConnectFailed? || e.ConnectionClosed? || e.CloseAll?
  }

  /** getConnection(): a new attempt takes the next promise identity. */
  function GetConnectionStep(hs: Handles): Handles {
    var (l, conn) := Get(hs.connection, hs.nextAttempt);
    if l.Started? then hs.(connection := conn, nextAttempt := hs.nextAttempt + 1) else hs
  }

  /** A channel getter that starts an attempt runs its async body up to the first
      `await`, which calls getConnection(). */
  function GetChannelStep(hs: Handles, r: Role): Handles {
    var (l, ch) := Get(hs.Channel(r), hs.nextAttempt);
    if l.Started? then GetConnectionStep(hs.WithChannel(r, ch).(nextAttempt := hs.nextAttempt + 1))
    else hs
  }

  function Step(hs: Handles, e: Event): Handles {
    match e
    case GetConnection => GetConnectionStep(hs)
    case ConnectSucceeded(id, h) => hs.(connection := Settle(hs.connection, id, h))
    case ConnectFailed(_) => Cleared(hs)
    case ConnectionClosed => Cleared(hs)
    case GetChannel(r) => GetChannelStep(hs, r)
    case ChannelReady(r, id, h) => hs.WithChannel(r, Settle(hs.Channel(r), id, h))
    case ChannelFailed(r, id) => hs.WithChannel(r, Fail(hs.Channel(r), id))
    case ChannelClosed(r) => hs.WithChannel(r, Empty)
    case CloseAll => Cleared(hs)
  }

  /** What a getter event returns to its caller. */
  function Answer(hs: Handles, e: Event): Option<Lookup> {
    match e
    case GetConnection => Some(Get(hs.connection, hs.nextAttempt).0)
    case GetChannel(r) => Some(Get(hs.Channel(r), hs.nextAttempt).0)
    case _ => None
  }

  function Run(hs: Handles, es: seq<Event>): Handles
    decreases |es|
  {
    if es == [] then hs else Run(Step(hs, es[0]), es[1..])
  }

  function Repeat(e: Event, k: nat): (es: seq<Event>)
    ensures |es| == k
  {
    if k == 0 then [] else [e] + Repeat(e, k - 1)
  }

  // ---------------------------------------------------------------- properties

  /** A getter returns the cached handle when there is one, and then changes nothing. */
  lemma CachedIsReturned(hs: Handles, e: Event)
    requires e.GetConnection? || e.GetChannel?
    requires (if e.GetConnection? then hs.connection else hs.Channel(e.role)).handle.Some?
    ensures Answer(hs, e) == Some(Cached((if e.GetConnection? then hs.connection else hs.Channel(e.role)).handle.value))
    ensures Step(hs, e).connection == hs.connection
    ensures Step(hs, e).consumer == hs.consumer && Step(hs, e).publisher == hs.publisher
  {
  }

  /** A getter starts an attempt exactly when nothing is cached and no promise is held;
      otherwise it shares the promise held. */
  lemma GetterStartsOnlyWhenIdle(hs: Handles, r: Role)
    ensures Answer(hs, GetChannel(r)).value.Started?
        <==> hs.Channel(r).handle.None? && hs.Channel(r).promise.NoPromise?
    ensures hs.Channel(r).handle.None? && !hs.Channel(r).promise.NoPromise? ==>
              Answer(hs, GetChannel(r)) == Some(Shared(hs.Channel(r).promise))
    ensures Answer(hs, GetChannel(r)).value.Started? ==>
              Step(hs, GetChannel(r)).Channel(r) == Slot(None, Pending(hs.nextAttempt))
  {
  }

  /** Once a getter has run, running it again changes nothing: any number of
      callers share one establishment attempt. */
  lemma {:induction false} GetConnectionSharesOneAttempt(hs: Handles, k: nat)
    ensures Run(hs, Repeat(GetConnection, k + 1)) == Step(hs, GetConnection)
  {
    var once := Step(hs, GetConnection);
    assert Step(once, GetConnection) == once;
    if k > 0 {
      SameStateAfterRepeats(once, GetConnection, k);
    }
  }

  /** The same for the channel getters. */
  lemma {:induction false} GetChannelSharesOneAttempt(hs: Handles, r: Role, k: nat)
    ensures Run(hs, Repeat(GetChannel(r), k + 1)) == Step(hs, GetChannel(r))
  {
    var once := Step(hs, GetChannel(r));
    assert Step(once, GetChannel(r)) == once;
    if k > 0 {
      SameStateAfterRepeats(once, GetChannel(r), k);
    }
  }

  lemma {:induction false} SameStateAfterRepeats(hs: Handles, e: Event, k: nat)
    requires Step(hs, e) == hs
    ensures Run(hs, Repeat(e, k)) == hs
    decreases k
  {
    if k > 0 {
      var es := Repeat(e, k);
      assert es[0] == e && es[1..] == Repeat(e, k - 1);
      SameStateAfterRepeats(hs, e, k - 1);
    }
  }

  /** A connection close, a failed connect and closeRabbit() wipe every handle and promise. */
  lemma ResetClearsEverything(hs: Handles, e: Event)
    requires Resets(e)
    ensures Step(hs, e).connection == Empty
    ensures Step(hs, e).consumer == Empty && Step(hs, e).publisher == Empty
  {
  }

  /** A channel close wipes that channel's two variables and nothing else. */
  lemma ChannelCloseClearsOnlyThatChannel(hs: Handles, r: Role, other: Role)
    requires other != r
    ensures Step(hs, ChannelClosed(r)).Channel(r) == Empty
    ensures Step(hs, ChannelClosed(r)).Channel(other) == hs.Channel(other)
    ensures Step(hs, ChannelClosed(r)).connection == hs.connection
  {
  }

  /** After a reset the next getter starts a fresh attempt: recovery is on next use. */
  lemma ReconnectOnNextUse(hs: Handles, e: Event)
    requires Resets(e)
    ensures Answer(Step(hs, e), GetConnection) == Some(Started(hs.nextAttempt))
    ensures Answer(Step(hs, e), GetChannel(PublisherRole)) == Some(Started(hs.nextAttempt))
  {
  }

  /** A failed channel attempt stays in the promise variable: until a connection-level
      reset or a close of that channel, every later getter joins the rejected promise
      instead of retrying. */
  lemma {:induction false} FailedChannelAttemptIsShared(hs: Handles, r: Role, id: nat, k: nat)
    requires hs.Channel(r) == Slot(None, Pending(id))
    ensures Run(Step(hs, ChannelFailed(r, id)), Repeat(GetChannel(r), k)) == Step(hs, ChannelFailed(r, id))
    ensures Answer(Step(hs, ChannelFailed(r, id)), GetChannel(r)) == Some(Shared(Rejected(id)))
  {
    var failed := Step(hs, ChannelFailed(r, id));
    assert failed.Channel(r) == Slot(None, Rejected(id));
    assert Step(failed, GetChannel(r)) == failed;
    SameStateAfterRepeats(failed, GetChannel(r), k);
  }

  /** A channel whose attempt completes after a reset is still stored: the handle
      variable is assigned even though its promise variable was cleared. */
  lemma LateChannelIsStillCached(hs: Handles, reset: Event, r: Role, id: nat, h: Handle)
    requires Resets(reset)
    ensures Step(Step(hs, reset), ChannelReady(r, id, h)).Channel(r) == Slot(Some(h), NoPromise)
  {
  }
}
