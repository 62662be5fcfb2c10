/**
 The lifecycle event broker on values: what each operation of `eventBroker` does
 to its fields and to the channels it has handed out. `K` names a channel.
 */
module Brokers {
  import opened Decimal
  import opened Cursors

  /** Events kept for replay. */
  const WINDOW: nat := 256
  /** Slots a new channel has beyond the replay window. */
  const SLACK: nat := 33

  /** What the hypervisor callback reports. */
  datatype Notice = Notice(name: string, uuid: string, event: string, detail: int)

  datatype LifecycleEvent =
    LifecycleEvent(id: nat, cursor: string, occurredAt: int, notice: Notice, streamReset: bool)

  /** A buffered channel; a closed one can still be drained. */
  datatype Channel = Channel(queue: seq<LifecycleEvent>, capacity: nat, closed: bool)

  datatype Broker<K(==)> = Broker(
    nextID: nat,
    history: seq<LifecycleEvent>,
    channels: map<K, Channel>,
    subscribers: set<K>,
    closed: bool,
    generation: string)

  const BLANK := Notice("", "", "", 0)

  function Fresh<K>(generation: string): Broker<K> {
    Broker(0, [], map[], {}, false, generation)
  }

  function Stamp(generation: string, id: nat, now: int, notice: Notice): LifecycleEvent {
    LifecycleEvent(id, Cursor(generation, id), now, notice, false)
  }

  function ResetMarker(generation: string, id: nat, now: int): LifecycleEvent {
    LifecycleEvent(id, Cursor(generation, id), now, BLANK, true)
  }

  /** The last (at most) 256 entries. */
  function LastWindow(entries: seq<LifecycleEvent>): seq<LifecycleEvent> {
    if |entries| > WINDOW then entries[|entries| - WINDOW..] else entries
  }

  /** A non-blocking send: a subscriber without room is closed instead. */
  function Offer(channel: Channel, event: LifecycleEvent): Channel {
    if |channel.queue| < channel.capacity then channel.(queue := channel.queue + [event])
    else channel.(closed := true)
  }

  predicate HasRoom(channel: Channel) {
    |channel.queue| < channel.capacity
  }

  function Publish<K>(b: Broker<K>, notice: Notice, now: int): Broker<K>
    requires b.subscribers <= b.channels.Keys
  {
    if b.closed then b
    else
      var event := Stamp(b.generation, b.nextID + 1, now, notice);
      b.(nextID := b.nextID + 1,
         history := LastWindow(b.history + [event]),
         channels := map k | k in b.channels ::
           if k in b.subscribers then Offer(b.channels[k], event) else b.channels[k],
         subscribers := set k | k in b.subscribers && HasRoom(b.channels[k]))
  }

  /** 64-bit decrement, wrapping at zero. */
  function Decrement(x: nat): nat {
    if x == 0 then UINT64_LIMIT - 1 else x - 1
  }

  function Newer(entries: seq<LifecycleEvent>, after: nat): (r: seq<LifecycleEvent>)
    ensures |r| <= |entries|
  {
    if entries == [] then []
    else
      (if entries[0].id > after then [entries[0]] else []) + Newer(entries[1..], after)
  }

  predicate Unreplayable(generation: string, nextID: nat, history: seq<LifecycleEvent>, cursor: string) {
    var (after, unreplayable) := AfterCursor(generation, nextID, cursor);
    unreplayable || (|history| > 0 && after < Decrement(history[0].id))
  }

  /** What `subscribe` puts into the new channel before anyone reads it. */
  function Replay(
    generation: string, nextID: nat, history: seq<LifecycleEvent>, cursor: string, now: int): seq<LifecycleEvent>
  {
    if Unreplayable(generation, nextID, history, cursor) then [ResetMarker(generation, nextID, now)]
    else Newer(history, AfterCursor(generation, nextID, cursor).0)
  }

  predicate MustReset<K>(b: Broker<K>, cursor: string) {
    Unreplayable(b.generation, b.nextID, b.history, cursor)
  }

  function Preload<K>(b: Broker<K>, cursor: string, now: int): seq<LifecycleEvent> {
    Replay(b.generation, b.nextID, b.history, cursor, now)
  }

  function Subscribe<K>(b: Broker<K>, k: K, cursor: string, now: int): Broker<K> {
    var capacity := |b.history| + SLACK;
    if b.closed then b.(channels := b.channels[k := Channel([], capacity, true)])
    else b.(channels := b.channels[k := Channel(Preload(b, cursor, now), capacity, false)],
            subscribers := b.subscribers + {k})
  }

  function Cancel<K>(b: Broker<K>, k: K): Broker<K>
    requires b.subscribers <= b.channels.Keys
  {
    if k !in b.subscribers then b
    else b.(channels := b.channels[k := b.channels[k].(closed := true)],
            subscribers := b.subscribers - {k})
  }

  function Close<K>(b: Broker<K>): Broker<K> {
    if b.closed then b
    else b.(closed := true,
            channels := map k | k in b.channels ::
              if k in b.subscribers then b.channels[k].(closed := true) else b.channels[k],
            subscribers := {})
  }

  /** One read by the consumer of channel `k`. */
  function Receive<K>(b: Broker<K>, k: K): Broker<K>
    requires k in b.channels && b.channels[k].queue != []
  {
    var channel := b.channels[k];
    b.(channels := b.channels[k := channel.(queue := channel.queue[1..])])
  }
}
