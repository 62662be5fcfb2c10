/**
 Whole runs of the broker: any number of publishes, subscribes, reads,
 cancellations and closes in any order, measured against a log that forgets nothing.
 */
module BrokerRuns {
  import opened Decimal
  import opened Cursors
  import opened Brokers

  /** Everything one channel was ever sent, in terms of the unbounded log. */
  datatype Feed = Feed(base: nat, lead: seq<LifecycleEvent>, taken: seq<LifecycleEvent>)

  datatype Run<K(==)> = Run(b: Broker<K>, log: seq<LifecycleEvent>, feeds: map<K, Feed>)

  /** `Cancel` is both the subscriber's own call and the one made when its context ends. */
  datatype Action<K> =
    | Publish(notice: Notice, now: int)
    | Subscribe(k: K, cursor: string, now: int)
    | Receive(k: K)
    | Cancel(k: K)
    | Close

  ghost predicate Enabled<K(!new)>(r: Run<K>, a: Action<K>) {
    && r.b.subscribers <= r.b.channels.Keys
    && match a
       case Publish(_, _) => r.b.nextID + 1 < UINT64_LIMIT
       case Subscribe(k, _, _) => k !in r.b.channels
       case Receive(k) => k in r.b.channels && k in r.feeds && r.b.channels[k].queue != []
       case Cancel(k) => k in r.b.channels
       case Close => true
  }

  ghost function Start<K>(generation: string): Run<K> {
    Run(Brokers.Fresh(generation), [], map[])
  }

  ghost function NewFeed<K>(b: Broker<K>, cursor: string, now: int): Feed {
    if b.closed then Feed(0, [], [])
    else if MustReset(b, cursor) then Feed(b.nextID, [ResetMarker(b.generation, b.nextID, now)], [])
    else Feed(AfterCursor(b.generation, b.nextID, cursor).0, [], [])
  }

  /** One step; an action that is not possible changes nothing. */
  ghost function Apply<K(!new)>(r: Run<K>, a: Action<K>): Run<K> {
    if !Enabled(r, a) then r
    else
      match a
      case Publish(notice, now) =>
        Run(Brokers.Publish(r.b, notice, now),
            if r.b.closed then r.log else r.log + [Stamp(r.b.generation, r.b.nextID + 1, now, notice)],
            r.feeds)
      case Subscribe(k, cursor, now) =>
        Run(Brokers.Subscribe(r.b, k, cursor, now), r.log, r.feeds[k := NewFeed(r.b, cursor, now)])
      case Receive(k) =>
        Run(Brokers.Receive(r.b, k), r.log,
            r.feeds[k := r.feeds[k].(taken := r.feeds[k].taken + [r.b.channels[k].queue[0]])])
      case Cancel(k) => r.(b := Brokers.Cancel(r.b, k))
      case Close => r.(b := Brokers.Close(r.b))
  }

  ghost function Exec<K(!new)>(r: Run<K>, actions: seq<Action<K>>): Run<K>
    decreases |actions|
  {
    if actions == [] then r else Exec(Apply(r, actions[0]), actions[1..])
  }

  // ----- The invariant

  /** The log numbers its entries 1, 2, 3, ... and stamps each with its own cursor. */
  ghost predicate LogInv(log: seq<LifecycleEvent>, generation: string) {
    forall i | 0 <= i < |log| ::
      log[i].id == i + 1 && log[i].cursor == Cursor(generation, i + 1) && !log[i].streamReset
  }

  /** Everything sent on a channel: what was read from it, then what still waits in it. */
  ghost function Stream(feed: Feed, channel: Channel): seq<LifecycleEvent> {
    feed.taken + channel.queue
  }

  /** Where in the log the last item sent on a channel lies. */
  ghost function Position(feed: Feed, channel: Channel): int {
    feed.base + |Stream(feed, channel)| - |feed.lead|
  }

  ghost predicate IsLead(lead: seq<LifecycleEvent>, base: nat, generation: string) {
    lead == [] || exists now :: lead == [ResetMarker(generation, base, now)]
  }

  /** At most one reset marker, then one gap-free slice of the log. */
  ghost predicate FeedInv(feed: Feed, channel: Channel, log: seq<LifecycleEvent>, generation: string) {
    && IsLead(feed.lead, feed.base, generation)
    && feed.base <= Position(feed, channel) <= |log|
    && Stream(feed, channel) == feed.lead + log[feed.base..Position(feed, channel)]
  }

  /** What holds of each channel; `registered` says whether it is among the subscribers. */
  ghost predicate ChannelInv(
    feed: Feed, channel: Channel, registered: bool, log: seq<LifecycleEvent>, generation: string)
  {
    && (registered <==> !channel.closed)
    && |channel.queue| <= channel.capacity
    && FeedInv(feed, channel, log, generation)
    && (registered ==> Position(feed, channel) == |log|)
  }

  ghost predicate Inv<K(!new)>(r: Run<K>) {
    && ':' !in r.b.generation
    && |r.log| == r.b.nextID < UINT64_LIMIT
    && LogInv(r.log, r.b.generation)
    && r.b.history == LastWindow(r.log)
    && r.feeds.Keys == r.b.channels.Keys
    && r.b.subscribers <= r.b.channels.Keys
    && (r.b.closed ==> r.b.subscribers == {})
    && forall k | k in r.b.channels ::
         ChannelInv(r.feeds[k], r.b.channels[k], k in r.b.subscribers, r.log, r.b.generation)
  }

  // ----- Exact replay

  lemma {:induction false} NewerIsSuffix(entries: seq<LifecycleEvent>, first: nat, after: nat)
    requires forall i | 0 <= i < |entries| :: entries[i].id == first + i
    ensures Newer(entries, after) ==
            if after < first then entries
            else if after - first < |entries| then entries[after - first + 1..]
            else []
  {
    if entries != [] {
      assert forall i | 0 <= i < |entries| - 1 :: entries[1..][i] == entries[i + 1];
      NewerIsSuffix(entries[1..], first + 1, after);
      if after < first {
        assert entries == [entries[0]] + entries[1..];
      }
    }
  }

  ghost predicate Numbered(log: seq<LifecycleEvent>) {
    forall i | 0 <= i < |log| :: log[i].id == i + 1
  }

  lemma WindowShape(log: seq<LifecycleEvent>)
    requires Numbered(log)
    ensures var h := LastWindow(log);
            && |h| == (if |log| > WINDOW then WINDOW else |log|)
            && h == log[|log| - |h|..]
            && forall i | 0 <= i < |h| :: h[i].id == |log| - |h| + 1 + i
  {
  }

  lemma ResetExactly(log: seq<LifecycleEvent>, generation: string, cursor: string)
    requires Numbered(log)
    ensures var (after, unreplayable) := AfterCursor(generation, |log|, cursor);
            && after <= |log|
            && (Unreplayable(generation, |log|, LastWindow(log), cursor) <==> unreplayable || after + WINDOW < |log|)
  {
    WindowShape(log);
  }

  lemma ReplaySlice(log: seq<LifecycleEvent>, after: nat)
    requires Numbered(log) && after <= |log| <= after + WINDOW
    ensures Newer(LastWindow(log), after) == log[after..]
  {
    WindowShape(log);
    var h := LastWindow(log);
    var start := |log| - |h|;
    NewerIsSuffix(h, start + 1, after);
    assert h[after - start..] == log[after..];
  }

  /** The decision to reset, and what is replayed otherwise, over every reachable broker. */
  lemma ReplayExactly<K(!new)>(r: Run<K>, cursor: string, now: int)
    requires Inv(r)
    ensures var (after, unreplayable) := AfterCursor(r.b.generation, r.b.nextID, cursor);
            && after <= r.b.nextID
            && (MustReset(r.b, cursor) <==> unreplayable || after + 256 < r.b.nextID)
            && (!MustReset(r.b, cursor) ==> Preload(r.b, cursor, now) == r.log[after..])
            && |Preload(r.b, cursor, now)| <= |r.b.history| + 1
            && (r.b.history != [] ==> r.b.history[0].id >= 1)
  {
    assert Numbered(r.log);
    WindowShape(r.log);
    ResetExactly(r.log, r.b.generation, cursor);
    if !MustReset(r.b, cursor) {
      ReplaySlice(r.log, AfterCursor(r.b.generation, r.b.nextID, cursor).0);
    }
  }

  // ----- Each step keeps the invariant

  lemma OfferKeeps(
    feed: Feed, channel: Channel, registered: bool, log: seq<LifecycleEvent>, generation: string,
    event: LifecycleEvent)
    requires ChannelInv(feed, channel, registered, log, generation)
    ensures var channel' := if registered then Offer(channel, event) else channel;
            ChannelInv(feed, channel', registered && HasRoom(channel), log + [event], generation)
  {
    var log' := log + [event];
    var at := Position(feed, channel);
    if registered && HasRoom(channel) {
      var channel' := Offer(channel, event);
      assert Stream(feed, channel') == Stream(feed, channel) + [event];
      assert log'[feed.base..at + 1] == log[feed.base..at] + [event];
    } else {
      assert log'[feed.base..at] == log[feed.base..at];
    }
  }

  lemma PublishKeepsChannel<K(!new)>(r: Run<K>, notice: Notice, now: int, k: K)
    requires Inv(r) && !r.b.closed && k in r.b.channels
    ensures var b' := Brokers.Publish(r.b, notice, now);
            ChannelInv(r.feeds[k], b'.channels[k], k in b'.subscribers,
                       r.log + [Stamp(r.b.generation, r.b.nextID + 1, now, notice)], r.b.generation)
  {
    OfferKeeps(r.feeds[k], r.b.channels[k], k in r.b.subscribers, r.log, r.b.generation,
               Stamp(r.b.generation, r.b.nextID + 1, now, notice));
  }

  lemma LogGrows(log: seq<LifecycleEvent>, generation: string, now: int, notice: Notice)
    requires LogInv(log, generation)
    ensures LogInv(log + [Stamp(generation, |log| + 1, now, notice)], generation)
  {
  }

  lemma PublishChannels<K(!new)>(r: Run<K>, notice: Notice, now: int)
    requires Inv(r) && !r.b.closed
    ensures var b' := Brokers.Publish(r.b, notice, now);
            var log' := r.log + [Stamp(r.b.generation, r.b.nextID + 1, now, notice)];
            && b'.channels.Keys == r.feeds.Keys
            && forall k | k in b'.channels ::
                 ChannelInv(r.feeds[k], b'.channels[k], k in b'.subscribers, log', r.b.generation)
  {
    forall k | k in r.b.channels
      ensures var b' := Brokers.Publish(r.b, notice, now);
              ChannelInv(r.feeds[k], b'.channels[k], k in b'.subscribers,
                         r.log + [Stamp(r.b.generation, r.b.nextID + 1, now, notice)], r.b.generation)
    {
      PublishKeepsChannel(r, notice, now, k);
    }
  }

  lemma WindowSlides(log: seq<LifecycleEvent>, event: LifecycleEvent)
    ensures LastWindow(LastWindow(log) + [event]) == LastWindow(log + [event])
  {
  }

  lemma PublishKeeps<K(!new)>(r: Run<K>, notice: Notice, now: int)
    requires Inv(r) && Enabled(r, Action.Publish(notice, now))
    ensures Inv(Apply(r, Action.Publish(notice, now)))
  {
    if !r.b.closed {
      WindowSlides(r.log, Stamp(r.b.generation, r.b.nextID + 1, now, notice));
      LogGrows(r.log, r.b.generation, now, notice);
      PublishChannels(r, notice, now);
    }
  }

  lemma EmptyFeedFits(log: seq<LifecycleEvent>, generation: string, capacity: nat)
    ensures ChannelInv(Feed(0, [], []), Channel([], capacity, true), false, log, generation)
  {
    assert Stream(Feed(0, [], []), Channel([], capacity, true)) == [] + log[0..0];
  }

  lemma ResetFeedFits(log: seq<LifecycleEvent>, generation: string, capacity: nat, now: int)
    requires capacity > 0
    ensures var marker := [ResetMarker(generation, |log|, now)];
            ChannelInv(Feed(|log|, marker, []), Channel(marker, capacity, false), true, log, generation)
  {
    var marker := [ResetMarker(generation, |log|, now)];
    assert Stream(Feed(|log|, marker, []), Channel(marker, capacity, false)) == marker + log[|log|..|log|];
    assert IsLead(marker, |log|, generation);
  }

  lemma ReplayFeedFits(log: seq<LifecycleEvent>, generation: string, capacity: nat, after: nat)
    requires after <= |log| && |log| - after <= capacity
    ensures ChannelInv(Feed(after, [], []), Channel(log[after..], capacity, false), true, log, generation)
  {
    assert Stream(Feed(after, [], []), Channel(log[after..], capacity, false)) == [] + log[after..|log|];
  }

  lemma FreshChannel<K(!new)>(r: Run<K>, k: K, cursor: string, now: int)
    requires Inv(r)
    ensures var b' := Brokers.Subscribe(r.b, k, cursor, now);
            ChannelInv(NewFeed(r.b, cursor, now), b'.channels[k], !r.b.closed, r.log, r.b.generation)
  {
    var capacity := |r.b.history| + SLACK;
    ReplayExactly(r, cursor, now);
    if r.b.closed {
      EmptyFeedFits(r.log, r.b.generation, capacity);
    } else if MustReset(r.b, cursor) {
      ResetFeedFits(r.log, r.b.generation, capacity, now);
    } else {
      ReplayFeedFits(r.log, r.b.generation, capacity, AfterCursor(r.b.generation, r.b.nextID, cursor).0);
    }
  }

  lemma SubscribeKeeps<K(!new)>(r: Run<K>, k: K, cursor: string, now: int)
    requires Inv(r) && Enabled(r, Action.Subscribe(k, cursor, now))
    ensures Inv(Apply(r, Action.Subscribe(k, cursor, now)))
  {
    var r' := Apply(r, Action.Subscribe(k, cursor, now));
    FreshChannel(r, k, cursor, now);
    forall k' | k' in r'.b.channels
      ensures ChannelInv(r'.feeds[k'], r'.b.channels[k'], k' in r'.b.subscribers, r'.log, r.b.generation)
    {
      if k' != k {
        assert ChannelInv(r.feeds[k'], r.b.channels[k'], k' in r.b.subscribers, r.log, r.b.generation);
      }
    }
  }

  lemma ReceiveKeepsChannel(
    feed: Feed, channel: Channel, registered: bool, log: seq<LifecycleEvent>, generation: string)
    requires ChannelInv(feed, channel, registered, log, generation) && channel.queue != []
    ensures ChannelInv(feed.(taken := feed.taken + [channel.queue[0]]), channel.(queue := channel.queue[1..]),
                       registered, log, generation)
  {
    var feed', channel' := feed.(taken := feed.taken + [channel.queue[0]]), channel.(queue := channel.queue[1..]);
    assert Stream(feed', channel') == Stream(feed, channel);
  }

  lemma ReceiveKeeps<K(!new)>(r: Run<K>, k: K)
    requires Inv(r) && Enabled(r, Action.Receive(k))
    ensures Inv(Apply(r, Action.Receive(k)))
  {
    ReceiveKeepsChannel(r.feeds[k], r.b.channels[k], k in r.b.subscribers, r.log, r.b.generation);
  }

  lemma ClosedChannel(feed: Feed, channel: Channel, registered: bool, log: seq<LifecycleEvent>, generation: string)
    requires ChannelInv(feed, channel, registered, log, generation)
    ensures ChannelInv(feed, channel.(closed := true), false, log, generation)
  {
    assert Stream(feed, channel.(closed := true)) == Stream(feed, channel);
  }

  lemma CancelKeeps<K(!new)>(r: Run<K>, k: K)
    requires Inv(r) && Enabled(r, Action.Cancel(k))
    ensures Inv(Apply(r, Action.Cancel(k)))
  {
    ClosedChannel(r.feeds[k], r.b.channels[k], k in r.b.subscribers, r.log, r.b.generation);
  }

  lemma CloseKeeps<K(!new)>(r: Run<K>)
    requires Inv(r)
    ensures Inv(Apply(r, Action.Close))
  {
    forall k | k in r.b.channels
      ensures ChannelInv(r.feeds[k], r.b.channels[k].(closed := true), false, r.log, r.b.generation)
    {
      ClosedChannel(r.feeds[k], r.b.channels[k], k in r.b.subscribers, r.log, r.b.generation);
    }
  }

  lemma StepKeeps<K(!new)>(r: Run<K>, a: Action<K>)
    requires Inv(r)
    ensures Inv(Apply(r, a)) && Apply(r, a).b.generation == r.b.generation
  {
    if Enabled(r, a) {
      match a
      case Publish(notice, now) => PublishKeeps(r, notice, now);
      case Subscribe(k, cursor, now) => SubscribeKeeps(r, k, cursor, now);
      case Receive(k) => ReceiveKeeps(r, k);
      case Cancel(k) => CancelKeeps(r, k);
      case Close => CloseKeeps(r);
    }
  }

  lemma {:induction false} ExecKeeps<K(!new)>(r: Run<K>, actions: seq<Action<K>>)
    requires Inv(r)
    ensures Inv(Exec(r, actions))
    decreases |actions|
  {
    if actions != [] {
      StepKeeps(r, actions[0]);
      ExecKeeps(Apply(r, actions[0]), actions[1..]);
    }
  }

  // ----- What every run guarantees

  /** A registered subscriber lacks nothing: its channel carries the log without a gap up to the newest event. */
  lemma RefinesLog<K(!new)>(generation: string, actions: seq<Action<K>>, k: K)
    requires ':' !in generation
    ensures var r := Exec(Start(generation), actions);
            && Inv(r)
            && (k in r.b.subscribers ==>
                  && k in r.b.channels && k in r.feeds
                  && var sent := Stream(r.feeds[k], r.b.channels[k]);
                     && sent == r.feeds[k].lead + r.log[r.feeds[k].base..]
                     && (r.b.channels[k].queue == [] && sent != [] ==>
                           sent[|sent| - 1].id == r.b.nextID))
  {
    ExecKeeps(Start(generation), actions);
    var r := Exec(Start<K>(generation), actions);
    if k in r.b.subscribers {
      assert ChannelInv(r.feeds[k], r.b.channels[k], true, r.log, r.b.generation);
      var sent := Stream(r.feeds[k], r.b.channels[k]);
      assert r.log[r.feeds[k].base..r.b.nextID] == r.log[r.feeds[k].base..];
      if sent != [] && r.feeds[k].base < r.b.nextID {
        assert sent[|sent| - 1] == r.log[r.b.nextID - 1];
      }
    }
  }

  /** Nothing more was sent on the channel. */
  ghost predicate SameStream<K(!new)>(r: Run<K>, r': Run<K>, k: K) {
    && k in r.feeds && k in r'.feeds && k in r.b.channels && k in r'.b.channels
    && Stream(r'.feeds[k], r'.b.channels[k]) == Stream(r.feeds[k], r.b.channels[k])
  }

  ghost predicate NothingSent<K(!new)>(r: Run<K>, k: K) {
    k in r.feeds && k in r.b.channels && Stream(r.feeds[k], r.b.channels[k]) == []
  }

  /** What never goes back: known channels, closed channels, a closed broker. */
  ghost predicate Onward<K(!new)>(r: Run<K>, r': Run<K>) {
    && r.b.channels.Keys <= r'.b.channels.Keys
    && (forall k | k in r.b.channels && r.b.channels[k].closed ::
          k in r'.b.channels && r'.b.channels[k].closed && SameStream(r, r', k))
    && (r.b.closed ==>
          && r'.b.closed && r'.log == r.log
          && forall k | k in r'.b.channels && k !in r.b.channels :: r'.b.channels[k].closed && NothingSent(r', k))
  }

  /** A feed keeps its start, and a closed channel its contents. */
  ghost predicate SameFeed<K(!new)>(r: Run<K>, r': Run<K>, k: K) {
    && k in r.feeds && k in r'.feeds && k in r.b.channels && k in r'.b.channels
    && r'.feeds[k].base == r.feeds[k].base && r'.feeds[k].lead == r.feeds[k].lead
    && (r.b.channels[k].closed ==> r'.b.channels[k].closed && SameStream(r, r', k))
  }

  lemma ReceiveStream<K(!new)>(r: Run<K>, k: K)
    requires Enabled(r, Action.Receive(k))
    ensures SameStream(r, Apply(r, Action.Receive(k)), k)
  {
  }

  lemma StepFeed<K(!new)>(r: Run<K>, a: Action<K>, k: K)
    requires Inv(r) && k in r.feeds
    ensures SameFeed(r, Apply(r, a), k)
    ensures a != Action.Receive(k) ==> Apply(r, a).feeds[k].taken == r.feeds[k].taken
  {
    assert ChannelInv(r.feeds[k], r.b.channels[k], k in r.b.subscribers, r.log, r.b.generation);
    if Enabled(r, a) {
      match a
      case Publish(_, _) =>
      case Subscribe(_, _, _) =>
      case Receive(k') =>
        if k' == k {
          ReceiveStream(r, k);
        }
      case Cancel(_) =>
      case Close =>
    }
  }

  lemma StepOnward<K(!new)>(r: Run<K>, a: Action<K>)
    requires Inv(r)
    ensures Onward(r, Apply(r, a))
  {
    forall k | k in r.b.channels && r.b.channels[k].closed
      ensures SameFeed(r, Apply(r, a), k)
    {
      StepFeed(r, a, k);
    }
  }

  lemma OnwardTrans<K(!new)>(r: Run<K>, r1: Run<K>, r2: Run<K>)
    requires Onward(r, r1) && Onward(r1, r2)
    ensures Onward(r, r2)
  {
  }

  lemma {:induction false} Settled<K(!new)>(r: Run<K>, actions: seq<Action<K>>)
    requires Inv(r)
    ensures Inv(Exec(r, actions)) && Onward(r, Exec(r, actions))
    decreases |actions|
  {
    if actions != [] {
      var r1 := Apply(r, actions[0]);
      StepKeeps(r, actions[0]);
      StepOnward(r, actions[0]);
      Settled(r1, actions[1..]);
      OnwardTrans(r, r1, Exec(r1, actions[1..]));
    }
  }

  /**
   Channels are open exactly while registered; a closed one never opens, registers or is sent to
   again. A closed broker has closed them all, for good, and whoever subscribes to it gets nothing.
   */
  lemma ChannelDiscipline<K(!new)>(generation: string, before: seq<Action<K>>, after: seq<Action<K>>)
    requires ':' !in generation
    ensures var r := Exec(Start(generation), before);
            var r' := Exec(r, after);
            && r.b.channels.Keys <= r'.b.channels.Keys
            && (forall k | k in r.b.channels ::
                  && (k in r.b.subscribers <==> !r.b.channels[k].closed)
                  && (r.b.channels[k].closed ==>
                        k !in r'.b.subscribers && r'.b.channels[k].closed && SameStream(r, r', k)))
            && (r.b.closed ==>
                  && r'.b.closed && r'.b.subscribers == {} && r'.log == r.log
                  && (forall k | k in r'.b.channels :: r'.b.channels[k].closed)
                  && (forall k | k in r'.b.channels && k !in r.b.channels :: NothingSent(r', k)))
  {
    ExecKeeps(Start(generation), before);
    Settled(Exec(Start<K>(generation), before), after);
  }

  // ----- A subscriber's stream is its own

  predicate Concerns<K(==)>(a: Action<K>, k: K) {
    match a
    case Publish(_, _) | Close => true
    case Subscribe(k', _, _) => k' == k
    case Receive(k') => k' == k
    case Cancel(k') => k' == k
  }

  function Only<K(==)>(actions: seq<Action<K>>, k: K): seq<Action<K>> {
    if actions == [] then []
    else (if Concerns(actions[0], k) then [actions[0]] else []) + Only(actions[1..], k)
  }

  /** What subscriber `k` can notice of a run. */
  ghost predicate LooksSame<K(!new)>(r: Run<K>, s: Run<K>, k: K) {
    && r.b.nextID == s.b.nextID && r.b.history == s.b.history && r.log == s.log
    && r.b.closed == s.b.closed && r.b.generation == s.b.generation
    && (k in r.b.channels <==> k in s.b.channels)
    && (k in r.b.subscribers <==> k in s.b.subscribers)
    && (k in r.b.channels ==>
          && k in r.feeds && k in s.feeds
          && r.b.channels[k] == s.b.channels[k] && r.feeds[k] == s.feeds[k])
  }

  lemma SharedStep<K(!new)>(r: Run<K>, s: Run<K>, a: Action<K>, k: K)
    requires Inv(r) && Inv(s) && LooksSame(r, s, k) && Concerns(a, k)
    ensures LooksSame(Apply(r, a), Apply(s, a), k)
  {
    match a
    case Publish(_, _) =>
    case Subscribe(_, _, _) =>
    case Receive(_) =>
    case Cancel(_) =>
    case Close =>
  }

  lemma ForeignStep<K(!new)>(r: Run<K>, s: Run<K>, a: Action<K>, k: K)
    requires Inv(r) && LooksSame(r, s, k) && !Concerns(a, k)
    ensures LooksSame(Apply(r, a), s, k)
  {
  }

  lemma {:induction false} OwnStream<K(!new)>(r: Run<K>, s: Run<K>, actions: seq<Action<K>>, k: K)
    requires Inv(r) && Inv(s) && LooksSame(r, s, k)
    ensures LooksSame(Exec(r, actions), Exec(s, Only(actions, k)), k)
    decreases |actions|
  {
    if actions != [] {
      var a, rest := actions[0], actions[1..];
      StepKeeps(r, a);
      if Concerns(a, k) {
        SharedStep(r, s, a, k);
        StepKeeps(s, a);
        assert Only(actions, k) == [a] + Only(rest, k);
        assert Only(actions, k)[1..] == Only(rest, k);
        OwnStream(Apply(r, a), Apply(s, a), rest, k);
      } else {
        ForeignStep(r, s, a, k);
        assert Only(actions, k) == Only(rest, k);
        OwnStream(Apply(r, a), s, rest, k);
      }
    }
  }

  // ----- Capacity

  /** Free slots of a channel: the publishes it survives without being read. */
  ghost function Free(channel: Channel): int {
    channel.capacity - |channel.queue|
  }

  predicate Touches<K(==)>(a: Action<K>, k: K) {
    a == Action.Close || a == Action.Receive(k) || a == Action.Cancel(k)
  }

  ghost function Sends<K(!new)>(r: Run<K>, a: Action<K>): nat {
    if a.Publish? && Enabled(r, a) then 1 else 0
  }

  ghost function Publishes<K(!new)>(r: Run<K>, actions: seq<Action<K>>): nat
    decreases |actions|
  {
    if actions == [] then 0
    else Sends(r, actions[0]) + Publishes(Apply(r, actions[0]), actions[1..])
  }

  lemma StepFree<K(!new)>(r: Run<K>, a: Action<K>, k: K)
    requires Inv(r) && k in r.b.subscribers && !Touches(a, k)
    ensures var r', free := Apply(r, a), Free(r.b.channels[k]);
            && k in r'.b.channels
            && free >= 0
            && (k in r'.b.subscribers <==> Sends(r, a) <= free)
            && (k in r'.b.subscribers ==> Free(r'.b.channels[k]) == free - Sends(r, a))
  {
    assert ChannelInv(r.feeds[k], r.b.channels[k], true, r.log, r.b.generation);
  }

  lemma StaysOut<K(!new)>(r: Run<K>, actions: seq<Action<K>>, k: K)
    requires Inv(r) && k in r.b.channels && k !in r.b.subscribers
    ensures k !in Exec(r, actions).b.subscribers
  {
    assert ChannelInv(r.feeds[k], r.b.channels[k], false, r.log, r.b.generation);
    Settled(r, actions);
    var r' := Exec(r, actions);
    assert ChannelInv(r'.feeds[k], r'.b.channels[k], k in r'.b.subscribers, r'.log, r'.b.generation);
  }

  /** A subscriber that reads nothing is evicted by the publish after its free slots run out, and by nothing else. */
  lemma {:induction false} EvictedExactly<K(!new)>(r: Run<K>, actions: seq<Action<K>>, k: K)
    requires Inv(r) && k in r.b.subscribers
    requires forall i | 0 <= i < |actions| :: !Touches(actions[i], k)
    ensures k in Exec(r, actions).b.subscribers <==> Publishes(r, actions) <= Free(r.b.channels[k])
    decreases |actions|
  {
    if actions == [] {
      assert ChannelInv(r.feeds[k], r.b.channels[k], true, r.log, r.b.generation);
    } else {
      var a, rest := actions[0], actions[1..];
      assert forall i | 0 <= i < |rest| :: rest[i] == actions[i + 1];
      StepFree(r, a, k);
      StepKeeps(r, a);
      if k in Apply(r, a).b.subscribers {
        EvictedExactly(Apply(r, a), rest, k);
      } else {
        StaysOut(Apply(r, a), rest, k);
      }
    }
  }

  lemma FreshFree<K(!new)>(r: Run<K>, k: K, cursor: string, now: int)
    requires Inv(r) && k !in r.b.channels && !r.b.closed
    ensures var r1 := Apply(r, Action.Subscribe(k, cursor, now));
            && Inv(r1) && k in r1.b.subscribers
            && Free(r1.b.channels[k]) == |r.b.history| + SLACK - |Preload(r.b, cursor, now)| >= SLACK - 1
            && (Free(r1.b.channels[k]) == SLACK - 1 <==> MustReset(r.b, cursor) && r.b.history == [])
  {
    ReplayExactly(r, cursor, now);
    SubscribeKeeps(r, k, cursor, now);
  }

  /**
   A new subscription that is not read absorbs 33 publishes, whatever other subscribers do;
   only one that began with a reset on an empty history absorbs just 32.
   */
  lemma FreshSubscriberAbsorbs<K(!new)>(r: Run<K>, k: K, cursor: string, now: int, actions: seq<Action<K>>)
    requires Inv(r) && k !in r.b.channels && !r.b.closed
    requires forall i | 0 <= i < |actions| :: !Touches(actions[i], k)
    ensures var r1 := Apply(r, Action.Subscribe(k, cursor, now));
            var stays, sent := k in Exec(r1, actions).b.subscribers, Publishes(r1, actions);
            && |Preload(r.b, cursor, now)| <= |r.b.history| + 33
            && (stays <==> sent <= |r.b.history| + 33 - |Preload(r.b, cursor, now)|)
            && (sent < 33 ==> stays)
            && (sent == 33 ==> (stays <==> !(MustReset(r.b, cursor) && r.b.history == [])))
  {
    FreshFree(r, k, cursor, now);
    EvictedExactly(Apply(r, Action.Subscribe(k, cursor, now)), actions, k);
  }
}
