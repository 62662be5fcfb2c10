/**
 The client the standard describes literally: every connection's last event ID buffer starts
 empty, so the blank line after the opening comment erases the client's place. What that
 costs, exactly, and a run on which an event arrives twice.
 */
module Forgetting {
  import opened Wrappers
  import opened Brokers
  import opened BrokerRuns
  import opened EventStream
  import opened Delivery

  /** A cut takes a client's place exactly when its parser started empty and nothing but comments came whole. */
  lemma ForgetsExactly(w: World, n: nat, carries: bool, json: Encoder)
    requires CleanEncoder(json) && WorldInv(w, json) && Possible(w, Cut(n, carries), json)
    requires w.lastEventId != ""
    ensures Forgets(w, Cut(n, carries), json) <==>
            && !carries
            && n >= 13
            && Dispatched(w.connection.value, n, json) == []
  {
    assert |Frame(Connected, json)| == 13;
    CutId(w, n, carries, json);
    LastHasCursor(w, n, carries, json);
  }

  ghost predicate NewFirst(w: World, k: nat) {
    k in w.run.feeds && k in w.run.b.channels && Stream(w.run.feeds[k], w.run.b.channels[k]) != []
  }

  /** The first item sent on channel `k` would be in sequence for the client. */
  ghost predicate FirstInSequence(w: World, k: nat)
    requires NewFirst(w, k)
  {
    var first := Stream(w.run.feeds[k], w.run.b.channels[k])[0];
    Chained(w.items + [Delivered(w.run.b.generation, first)], |w.items|)
  }

  lemma FirstItem(w: World, k: nat, json: Encoder)
    requires CoreInv(w, json) && NewFirst(w, k)
    ensures FirstInSequence(w, k) <==> CarriesOn(w.items, w.run.b.generation, w.run.feeds[k])
  {
    var feed, channel := w.run.feeds[k], w.run.b.channels[k];
    assert ChannelInv(feed, channel, k in w.run.b.subscribers, w.run.log, w.run.b.generation);
    StreamItem(feed, channel, w.run.log, w.run.b.generation, 0);
  }

  lemma AttachedFeed(w: World, k: nat, now: int, json: Encoder)
    requires Possible(w, Attach(k, now), json)
    ensures var w' := Next(w, Attach(k, now), json);
            && w'.items == w.items && w'.run.b.generation == w.run.b.generation
            && k in w'.run.feeds && w'.run.feeds[k] == NewFeed(w.run.b, w.lastEventId, now)
  {
  }

  /**
   On any run, wherever a client reconnects: its new feed carries on from what it has, and so does the
   first item it will bring, unless the client asks without a cursor although it has items, the broker
   has published no more than its window holds, and the client's last item is not the reset at
   position 0 of this generation.
   */
  lemma ForgottenPlace(generation: string, moves: seq<Move>, k: nat, now: int, json: Encoder)
    requires CleanEncoder(json) && GoodGeneration(generation)
    requires var w := Travel(Begin(generation), moves, json); Possible(w, Attach(k, now), json) && !w.run.b.closed
    ensures var w := Travel(Begin(generation), moves, json);
            var w' := Next(w, Attach(k, now), json);
            var lost := && w.lastEventId == "" && w.items != [] && w.run.b.nextID <= 256
                        && !(&& w.items[|w.items| - 1].generation == w.run.b.generation
                             && w.items[|w.items| - 1].event.id == 0);
            && k in w'.run.feeds
            && (CarriesOn(w'.items, w'.run.b.generation, w'.run.feeds[k]) <==> !lost)
            && (NewFirst(w', k) ==> (FirstInSequence(w', k) <==> !lost))
  {
    var w := Travel(Begin(generation), moves, json);
    BeginSafe(generation, json);
    TravelSafe(Begin(generation), moves, json);
    CarriesOnExactly(w, json, now);
    AttachedFeed(w, k, now, json);
    var w' := Next(w, Attach(k, now), json);
    if NewFirst(w', k) {
      StepKeepsWorld(w, Attach(k, now), json);
      FirstItem(w', k, json);
    }
  }

  // ----- A concrete run

  lemma {:induction false} TravelConcat(w: World, a: seq<Move>, b: seq<Move>, json: Encoder)
    ensures Travel(w, a + b, json) == Travel(Travel(w, a, json), b, json)
    decreases |a|
  {
    if a == [] {
      assert a + b == b;
    } else {
      assert (a + b)[1..] == a[1..] + b;
      TravelConcat(Next(w, a[0], json), a[1..], b, json);
    }
  }

  /** Connect, subscribe, pass on one item, and lose the connection after all of it arrived. */
  ghost function Session(k: nat, e: LifecycleEvent, json: Encoder): seq<Move> {
    [Connect, Attach(k, 0)] + [Relay, Cut(|Wire([Connected, Item(e)], json)|, false)]
  }

  /** Connect and lose the connection right after the opening comment. */
  ghost function Lost(json: Encoder): seq<Move> {
    [Connect, Cut(|Wire([Connected], json)|, false)]
  }

  lemma Two(w: World, a: Move, b: Move, json: Encoder)
    ensures Travel(w, [a, b], json) == Next(Next(w, a, json), b, json)
  {
    assert [a, b][1..] == [b] && [b][1..] == [];
    assert Travel(Next(w, a, json), [b], json) == Travel(Next(Next(w, a, json), b, json), [], json);
  }

  /** A broker that has published one event, `e`, and a client without a cursor. */
  ghost predicate Waiting(w: World, e: LifecycleEvent, json: Encoder) {
    && CoreInv(w, json)
    && w.run.log == [e] && !w.run.b.closed
    && w.connection.None? && w.lastEventId == ""
  }

  lemma Subscribed(w: World, k: nat, e: LifecycleEvent, json: Encoder)
    requires Waiting(w, e, json) && k !in w.run.b.channels
    ensures var w2 := Next(Next(w, Connect, json), Attach(k, 0), json);
            && w2.connection == Some(Connection(Some(k), [Connected], Astray(w)))
            && w2.lastEventId == "" && w2.items == w.items && w2.run.log == w.run.log
            && w2.run.b == Brokers.Subscribe(w.run.b, k, "", 0)
            && w2.run.feeds == w.run.feeds[k := Feed(0, [], [])]
            && w2.run.b.channels[k].queue == [e]
            && w2.run.b.generation == w.run.b.generation
  {
    ReplayExactly(w.run, "", 0);
    assert w.run.log[0..] == [e];
  }

  lemma OneItem(e: LifecycleEvent, n: nat, json: Encoder)
    requires n == |Wire([Connected, Item(e)], json)|
    ensures Items([Connected, Item(e)][..WholeFrames([Connected, Item(e)], n, json)]) == [e]
  {
    var chunks := [Connected, Item(e)];
    AllFrames(chunks, json);
    assert chunks[..2] == chunks;
    ItemsPlus([Connected], Item(e));
    assert [Connected] + [Item(e)] == chunks;
    ItemsOfOpening();
    assert [Connected][..1] == [Connected];
  }

  lemma RelayAndCut(w: World, k: nat, e: LifecycleEvent, n: nat, json: Encoder)
    requires w.connection.Some? && w.connection.value.channel == Some(k) && w.connection.value.chunks == [Connected]
    requires Enabled(w.run, Action.Receive(k)) && w.run.b.channels[k].queue == [e]
    requires n == |Wire([Connected, Item(e)], json)|
    ensures var w' := Travel(w, [Relay, Cut(n, false)], json);
            && w'.items == w.items + [Delivered(w.run.b.generation, e)]
            && w'.run == Apply(w.run, Action.Receive(k)) && w'.connection.None?
  {
    Two(w, Relay, Cut(n, false), json);
    var w1 := Next(w, Relay, json);
    assert [Connected] + [Item(e)] == [Connected, Item(e)];
    assert w1.connection.value.chunks == [Connected, Item(e)];
    OneItem(e, n, json);
    CutGives(w1, n, false, json);
    assert Tagged(w.run.b.generation, [e]) == [Delivered(w.run.b.generation, e)];
  }

  lemma SessionDelivers(w: World, k: nat, e: LifecycleEvent, json: Encoder)
    requires CleanEncoder(json) && Waiting(w, e, json) && k !in w.run.b.channels
    ensures var w' := Travel(w, Session(k, e, json), json);
            && w'.items == w.items + [Delivered(w.run.b.generation, e)]
            && w'.run.log == [e] && !w'.run.b.closed && w'.connection.None?
            && w'.run.b.channels.Keys == w.run.b.channels.Keys + {k}
            && w'.run.b.generation == w.run.b.generation
  {
    var n := |Wire([Connected, Item(e)], json)|;
    TravelConcat(w, [Connect, Attach(k, 0)], [Relay, Cut(n, false)], json);
    Two(w, Connect, Attach(k, 0), json);
    Subscribed(w, k, e, json);
    var w2 := Next(Next(w, Connect, json), Attach(k, 0), json);
    RelayAndCut(w2, k, e, n, json);
  }

  lemma SessionSafe(w: World, k: nat, e: LifecycleEvent, json: Encoder)
    requires CleanEncoder(json) && Waiting(w, e, json) && WorldInv(w, json) && k !in w.run.b.channels
    ensures WorldInv(Travel(w, Session(k, e, json), json), json)
  {
    var n := |Wire([Connected, Item(e)], json)|;
    var w1 := Next(w, Connect, json);
    var w2 := Next(w1, Attach(k, 0), json);
    var w3 := Next(w2, Relay, json);
    TravelConcat(w, [Connect, Attach(k, 0)], [Relay, Cut(n, false)], json);
    Two(w, Connect, Attach(k, 0), json);
    Two(w2, Relay, Cut(n, false), json);
    Subscribed(w, k, e, json);
    StepSafe(w, Connect, json);
    StepSafe(w1, Attach(k, 0), json);
    StepSafe(w2, Relay, json);
    StepSafe(w3, Cut(n, false), json);
  }

  /** A connection that brings the opening comment and no more takes the place of a client with an empty buffer. */
  lemma OnlyTheOpening(w: World, json: Encoder)
    requires CleanEncoder(json) && CoreInv(w, json)
    requires w.connection.Some? && w.connection.value.chunks == [Connected]
    ensures var w' := Next(w, Cut(|Wire([Connected], json)|, false), json);
            w'.lastEventId == "" && w'.items == w.items && w'.run == w.run && w'.connection.None?
  {
    var n := |Wire([Connected], json)|;
    AllFrames([Connected], json);
    assert [Connected][..1] == [Connected];
    ItemsOfOpening();
    CutId(w, n, false, json);
    CutGives(w, n, false, json);
    assert w.items + Tagged(w.run.b.generation, []) == w.items;
  }

  /** After a session, one connection that brings only the opening comment makes the client wait anew. */
  lemma LostForgets(w: World, e: LifecycleEvent, json: Encoder)
    requires CleanEncoder(json) && WorldInv(w, json)
    requires w.run.log == [e] && !w.run.b.closed && w.connection.None?
    ensures var w' := Travel(w, Lost(json), json);
            && Waiting(w', e, json)
            && w'.items == w.items && w'.run == w.run
  {
    var n := |Wire([Connected], json)|;
    var w1 := Next(w, Connect, json);
    Two(w, Connect, Cut(n, false), json);
    StepSafe(w, Connect, json);
    StepSafe(w1, Cut(n, false), json);
    OnlyTheOpening(w1, json);
  }

  ghost function First(generation: string): LifecycleEvent {
    Stamp(generation, 1, 0, BLANK)
  }

  /** Publish once; receive it; reconnect and lose the connection at once; reconnect. */
  ghost function RepeatingRun(generation: string, json: Encoder): seq<Move> {
    [Brokering(Action.Publish(BLANK, 0))]
    + (Session(0, First(generation), json) + (Lost(json) + Session(1, First(generation), json)))
  }

  lemma OncePublished(generation: string, json: Encoder)
    requires CleanEncoder(json) && GoodGeneration(generation)
    ensures var w0 := Travel(Begin(generation), [Brokering(Action.Publish(BLANK, 0))], json);
            && Waiting(w0, First(generation), json) && WorldInv(w0, json)
            && w0.items == [] && w0.run.b.channels == map[] && w0.run.b.generation == generation
  {
    CleanCursor(generation, 0);
    var publish := Brokering(Action.Publish(BLANK, 0));
    assert [publish][1..] == [];
    assert Travel(Begin(generation), [publish], json) == Travel(Next(Begin(generation), publish, json), [], json);
    StepSafe(Begin(generation), publish, json);
  }

  lemma OnceMore(w1: World, e: LifecycleEvent, json: Encoder)
    requires CleanEncoder(json) && WorldInv(w1, json)
    requires w1.run.log == [e] && !w1.run.b.closed && w1.connection.None? && 1 !in w1.run.b.channels
    ensures Travel(w1, Lost(json) + Session(1, e, json), json).items ==
            w1.items + [Delivered(w1.run.b.generation, e)]
  {
    TravelConcat(w1, Lost(json), Session(1, e, json), json);
    LostForgets(w1, e, json);
    SessionDelivers(Travel(w1, Lost(json), json), 1, e, json);
  }

  lemma Twice(w0: World, e: LifecycleEvent, json: Encoder)
    requires CleanEncoder(json) && Waiting(w0, e, json) && WorldInv(w0, json) && w0.run.b.channels == map[]
    ensures var w := Travel(w0, Session(0, e, json) + (Lost(json) + Session(1, e, json)), json);
            w.items == w0.items + [Delivered(w0.run.b.generation, e)] + [Delivered(w0.run.b.generation, e)]
  {
    var again := Lost(json) + Session(1, e, json);
    TravelConcat(w0, Session(0, e, json), again, json);
    SessionDelivers(w0, 0, e, json);
    SessionSafe(w0, 0, e, json);
    OnceMore(Travel(w0, Session(0, e, json), json), e, json);
  }

  /** On that run the literal client is given event 1 twice, although nothing was ever lost. */
  lemma EventRepeats(generation: string, json: Encoder)
    requires CleanEncoder(json) && GoodGeneration(generation)
    ensures var w := Travel(Begin(generation), RepeatingRun(generation, json), json);
            var d := Delivered(generation, First(generation));
            w.items == [d, d] && !NoSilentGap(w.items)
  {
    var e, d := First(generation), Delivered(generation, First(generation));
    OncePublished(generation, json);
    var publish := [Brokering(Action.Publish(BLANK, 0))];
    TravelConcat(Begin(generation), publish, Session(0, e, json) + (Lost(json) + Session(1, e, json)), json);
    Twice(Travel(Begin(generation), publish, json), e, json);
    assert !Chained([d, d], 1);
  }
}
