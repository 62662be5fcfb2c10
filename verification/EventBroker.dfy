/**
 The broker as the program has it: an object whose methods update fields and
 channels in place, each proved to do what the corresponding function of `Brokers` says.
 */
module EventBroker {
  import opened Decimal
  import opened Cursors
  import opened Brokers

  /** A buffered channel. Sending on or closing a closed one panics: hence the preconditions. */
  class EventChannel {
    var queue: seq<LifecycleEvent>
    var closed: bool
    const capacity: nat

    constructor (capacity: nat)
      ensures State() == Channel([], capacity, false)
    {
      this.capacity := capacity;
      queue, closed := [], false;
    }

    ghost function State(): Channel
      reads this
    {
      Channel(queue, capacity, closed)
    }

    /** A send that has room, so it does not block. */
    method Send(event: LifecycleEvent)
      requires !closed && |queue| < capacity
      modifies this
      ensures State() == old(State()).(queue := old(queue) + [event])
    {
      queue := queue + [event];
    }

    method Close()
      requires !closed
      modifies this
      ensures State() == old(State()).(closed := true)
    {
      closed := true;
    }

    /** A receive; `open` is false once the channel is closed and drained. */
    method Receive() returns (event: LifecycleEvent, open: bool)
      requires queue != [] || closed
      modifies this
      ensures open <==> old(queue) != []
      ensures open ==> event == old(queue)[0] && State() == old(State()).(queue := old(queue)[1..])
      ensures !open ==> State() == old(State())
    {
      if queue != [] {
        event, open := queue[0], true;
        queue := queue[1..];
      } else {
        event, open := LifecycleEvent(0, "", 0, BLANK, false), false;
      }
    }
  }

  class EventBroker {
    var nextID: nat
    var history: seq<LifecycleEvent>
    var subscribers: set<EventChannel>
    var closed: bool
    const generation: string
    /** Every channel ever handed out. */
    ghost var channels: set<EventChannel>

    ghost predicate Valid()
      reads this, channels
    {
      && subscribers <= channels
      && (closed ==> subscribers == {})
      && forall c | c in channels :: (c in subscribers <==> !c.closed)
    }

    ghost function View(): Broker<EventChannel>
      reads this, channels
    {
      Broker(nextID, history, map c | c in channels :: c.State(), subscribers, closed, generation)
    }

    constructor (generation: string)
      ensures Valid() && View() == Fresh(generation)
    {
      this.generation := generation;
      nextID, history, subscribers, closed := 0, [], {}, false;
      channels := {};
    }

    /** Keep the event for replay, and the newest 256 only. */
    method Append(event: LifecycleEvent)
      modifies this`history
      ensures history == LastWindow(old(history) + [event])
      ensures history != [] && history[|history| - 1] == event
    {
      history := history + [event];
      if |history| > WINDOW {
        history := history[|history| - WINDOW..];
      }
    }

    method Publish(notice: Notice, now: int)
      requires Valid() && nextID + 1 < UINT64_LIMIT
      modifies this, channels
      ensures Valid() && channels == old(channels)
      ensures View() == Brokers.Publish(old(View()), notice, now)
      ensures old(closed) ==> nextID == old(nextID) && history == old(history)
      ensures !old(closed) ==>
                && nextID == old(nextID) + 1 && history != []
                && var e := history[|history| - 1];
                   && e.id == nextID && e.cursor == generation + ":" + FormatUint(nextID)
                   && e.notice == notice && e.occurredAt == now && !e.streamReset
    {
      if closed {
        return;
      }
      ghost var before := View();
      nextID := nextID + 1;
      var event := LifecycleEvent(nextID, Cursor(generation, nextID), now, notice, false);
      Append(event);
      Broadcast(event);
      assert View().channels == Brokers.Publish(before, notice, now).channels;
    }

    /** Offer `event` to every subscriber, in whatever order the map yields them. */
    method Broadcast(event: LifecycleEvent)
      requires Valid()
      modifies this`subscribers, channels
      ensures forall c | c in channels ::
        c.State() == if c in old(subscribers) then Offer(old(c.State()), event) else old(c.State())
      ensures subscribers == set c | c in old(subscribers) && HasRoom(old(c.State()))
    {
      var pending := subscribers;
      while pending != {}
        invariant pending <= subscribers <= old(subscribers)
        invariant forall c | c in channels ::
          c.State() == if c in old(subscribers) && c !in pending then Offer(old(c.State()), event) else old(c.State())
        invariant forall c | c in old(subscribers) ::
          c in subscribers <==> c in pending || HasRoom(old(c.State()))
        decreases pending
      {
        var subscriber :| subscriber in pending;
        assert subscriber.State() == old(subscriber.State());
        if |subscriber.queue| < subscriber.capacity {
          subscriber.Send(event);
        } else {
          subscriber.Close();
          subscribers := subscribers - {subscriber};
        }
        pending := pending - {subscriber};
      }
    }

    /** Queue the history entries after the cursor. */
    method Requeue(channel: EventChannel, after: nat)
      requires channel.State() == Channel([], |history| + SLACK, false)
      modifies channel
      ensures channel.State() == Channel(Newer(history, after), |history| + SLACK, false)
    {
      assert history[0..] == history;
      for i := 0 to |history|
        modifies channel
        invariant channel.State() == Channel(channel.queue, |history| + SLACK, false)
        invariant |channel.queue| <= i
        invariant channel.queue + Newer(history[i..], after) == Newer(history, after)
      {
        assert history[i..][1..] == history[i + 1..];
        if history[i].id > after {
          channel.Send(history[i]);
        }
      }
    }

    /** Queue the replay, or the marker that says there is none. */
    method Fill(channel: EventChannel, cursor: string, now: int)
      requires channel.State() == Channel([], |history| + SLACK, false)
      modifies channel
      ensures channel.State() ==
              Channel(Replay(generation, nextID, history, cursor, now), |history| + SLACK, false)
    {
      var (after, unreplayable) := AfterCursor(generation, nextID, cursor);
      if !unreplayable && |history| > 0 && after < Decrement(history[0].id) {
        unreplayable := true;
      }
      if unreplayable {
        channel.Send(ResetMarker(generation, nextID, now));
      } else {
        Requeue(channel, after);
      }
    }

    method Subscribe(cursor: string, now: int) returns (channel: EventChannel)
      requires Valid()
      modifies this
      ensures Valid() && fresh(channel) && channels == old(channels) + {channel}
      ensures View() == Brokers.Subscribe(old(View()), channel, cursor, now)
    {
      channel := new EventChannel(|history| + SLACK);
      if closed {
        channel.Close();
        channels := channels + {channel};
        return;
      }
      Fill(channel, cursor, now);
      subscribers := subscribers + {channel};
      channels := channels + {channel};
    }

    /** The critical section of a cancellation. */
    method Cancel(channel: EventChannel)
      requires Valid() && channel in channels
      modifies this, channel
      ensures Valid() && channels == old(channels)
      ensures View() == Brokers.Cancel(old(View()), channel)
      ensures subscribers == old(subscribers) - {channel} && channel.closed && channel.queue == old(channel.queue)
    {
      if channel in subscribers {
        subscribers := subscribers - {channel};
        channel.Close();
      }
    }

    method Close()
      requires Valid()
      modifies this, channels
      ensures Valid() && channels == old(channels)
      ensures View() == Brokers.Close(old(View()))
      ensures closed && subscribers == {} && forall c | c in channels :: c.closed && c.queue == old(c.queue)
    {
      if closed {
        return;
      }
      closed := true;
      var pending := subscribers;
      while pending != {}
        invariant pending <= subscribers <= channels
        invariant forall c | c in channels ::
          c.State() == if c in subscribers && c !in pending then old(c.State()).(closed := true) else old(c.State())
        modifies channels
        decreases pending
      {
        var subscriber :| subscriber in pending;
        subscriber.Close();
        pending := pending - {subscriber};
      }
      subscribers := {};
    }
  }

  /** What a subscriber holds: its channel and a cancel function that acts once. */
  class Subscription {
    const broker: EventBroker
    const channel: EventChannel
    var done: bool

    constructor (broker: EventBroker, channel: EventChannel)
      ensures this.broker == broker && this.channel == channel && !done
    {
      this.broker, this.channel, done := broker, channel, false;
    }

    /** Called by the subscriber and by the goroutine watching its context, in any order and number. */
    method Cancel()
      requires broker.Valid() && channel in broker.channels
      modifies this, broker, channel
      ensures done && broker.Valid() && broker.channels == old(broker.channels)
      ensures broker.View() ==
              if old(done) then old(broker.View()) else Brokers.Cancel(old(broker.View()), channel)
    {
      if !done {
        done := true;
        broker.Cancel(channel);
      }
    }
  }
}
