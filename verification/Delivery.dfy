/**
 End to end: one client that connects, is cut off at any byte and reconnects any number
 of times, against brokers that publish, evict, replay, close and restart meanwhile.
 */
module Delivery {
  import opened Wrappers
  import opened Cursors
  import opened Brokers
  import opened BrokerRuns
  import opened EventStream

  /** An item the client dispatched, with the generation of the broker that sent it. */
  datatype Delivered = Delivered(generation: string, event: LifecycleEvent)

  /**
   One connection: the channel it reads (once subscribed), the frames written so far, and whether
   it began with the client's place lost (see `Astray`).
   */
  datatype Connection = Connection(channel: Option<nat>, chunks: seq<Chunk>, astray: bool)

  datatype World = World(
    run: Run<nat>,
    archive: map<string, seq<LifecycleEvent>>,
    connection: Option<Connection>,
    lastEventId: string,
    inbox: seq<Message>,
    items: seq<Delivered>)

  /**
   `Cut` ends the connection after the client has received `n` bytes; `Restart` replaces the
   process. The parser of a connection starts with the client's own last event ID when
   `carries` holds, and with the empty string (as the standard says) otherwise.
   */
  datatype Move =
    | Brokering(action: Action<nat>)
    | Connect
    | Attach(channel: nat, now: int)
    | Relay
    | Beat
    | Cut(n: nat, carries: bool)
    | Restart(generation: string)

  /** Generations are hexadecimal, or base 36 with a possible sign. */
  predicate GoodGeneration(generation: string) {
    forall c | c in generation :: '0' <= c <= '9' || 'a' <= c <= 'z' || c == '-'
  }

  ghost function Begin(generation: string): World {
    World(Start(generation), map[generation := []], None, "", [], [])
  }

  ghost predicate OwnChannel(w: World, k: nat) {
    w.connection.Some? && w.connection.value.channel == Some(k)
  }

  ghost predicate Possible(w: World, m: Move, json: Encoder) {
    match m
    case Brokering(a) => !(a.Receive? && OwnChannel(w, a.k))
    case Connect => w.connection.None?
    case Attach(k, now) =>
      && w.connection.Some? && w.connection.value.channel.None?
      && k !in w.run.b.channels && w.run.b.subscribers <= w.run.b.channels.Keys
    case Relay =>
      && w.connection.Some? && w.connection.value.channel.Some?
      && Enabled(w.run, Action.Receive(w.connection.value.channel.value))
    case Beat => w.connection.Some? && w.connection.value.channel.Some?
    case Cut(n, _) => w.connection.Some? && n <= |Wire(w.connection.value.chunks, json)|
    case Restart(generation) =>
      w.connection.None? && GoodGeneration(generation) && generation !in w.archive
  }

  ghost function Tagged(generation: string, events: seq<LifecycleEvent>): seq<Delivered> {
    seq(|events|, i requires 0 <= i < |events| => Delivered(generation, events[i]))
  }

  ghost function WithRun(w: World, run: Run<nat>): World {
    w.(run := run, archive := w.archive[run.b.generation := run.log])
  }

  /**
   The client has items but asks with no cursor, and the broker will replay from event 1: neither
   has it outgrown its window, so that it would reset, nor is the last item the client has the
   reset at position 0 of this generation, which event 1 follows.
   */
  ghost predicate Astray(w: World) {
    && !w.run.b.closed
    && w.lastEventId == "" && w.items != []
    && w.run.b.nextID <= 256
    && var last := w.items[|w.items| - 1];
       !(last.generation == w.run.b.generation && last.event.id == 0)
  }

  /** What the client dispatches of a connection cut after `n` bytes. */
  ghost function Dispatched(c: Connection, n: nat, json: Encoder): seq<LifecycleEvent>
    requires n <= |Wire(c.chunks, json)|
  {
    Items(c.chunks[..WholeFrames(c.chunks, n, json)])
  }

  ghost function Next(w: World, m: Move, json: Encoder): World {
    if !Possible(w, m, json) then w
    else
      match m
      case Brokering(a) => WithRun(w, Apply(w.run, a))
      case Connect => w.(connection := Some(Connection(None, [Connected], false)))
      case Attach(k, now) =>
        WithRun(w, Apply(w.run, Action.Subscribe(k, w.lastEventId, now)))
          .(connection := Some(w.connection.value.(channel := Some(k), astray := Astray(w))))
      case Relay =>
        var k := w.connection.value.channel.value;
        WithRun(w, Apply(w.run, Action.Receive(k)))
          .(connection := Some(w.connection.value.(
              chunks := w.connection.value.chunks + [Item(w.run.b.channels[k].queue[0])])))
      case Beat =>
        w.(connection := Some(w.connection.value.(chunks := w.connection.value.chunks + [Heartbeat])))
      case Cut(n, carries) =>
        var wire := Wire(w.connection.value.chunks, json)[..n];
        var parser := Parse(Opened(if carries then w.lastEventId else "", w.lastEventId), wire);
        w.(connection := None,
           lastEventId := parser.lastEventId,
           inbox := w.inbox + parser.out,
           items := w.items + Tagged(w.run.b.generation, Dispatched(w.connection.value, n, json)))
      case Restart(generation) =>
        w.(run := Start(generation), archive := w.archive[generation := []])
  }

  ghost function Travel(w: World, moves: seq<Move>, json: Encoder): World
    decreases |moves|
  {
    if moves == [] then w else Travel(Next(w, moves[0], json), moves[1..], json)
  }

  // ----- The claim

  /** Item `i` directly follows what came before it, or announces that it does not. */
  ghost predicate Chained(items: seq<Delivered>, i: nat)
    requires i < |items|
  {
    || items[i].event.streamReset
    || (i == 0 && items[i].event.id == 1)
    || (&& i > 0
        && items[i - 1].generation == items[i].generation
        && items[i - 1].event.id == items[i].event.id - 1)
  }

  ghost predicate NoSilentGap(items: seq<Delivered>) {
    forall i | 0 <= i < |items| :: Chained(items, i)
  }

  /** An event is the one its generation published at that position. */
  ghost predicate Genuine(d: Delivered, archive: map<string, seq<LifecycleEvent>>) {
    && d.generation in archive
    && d.event.cursor == Cursor(d.generation, d.event.id)
    && d.event.id <= |archive[d.generation]|
    && (!d.event.streamReset ==> d.event.id >= 1 && d.event == archive[d.generation][d.event.id - 1])
  }

  ghost predicate AllGenuine(items: seq<Delivered>, archive: map<string, seq<LifecycleEvent>>) {
    forall i | 0 <= i < |items| :: Genuine(items[i], archive)
  }

  ghost function Events(items: seq<Delivered>): seq<LifecycleEvent> {
    seq(|items|, i requires 0 <= i < |items| => items[i].event)
  }

  // ----- The invariant

  ghost function LastCursor(items: seq<Delivered>): string {
    if items == [] then "" else items[|items| - 1].event.cursor
  }

  /** A feed that carries straight on from the items received so far. */
  ghost predicate CarriesOn(items: seq<Delivered>, generation: string, feed: Feed) {
    || feed.lead != []
    || (items == [] && feed.base == 0)
    || (&& items != []
        && items[|items| - 1].generation == generation
        && items[|items| - 1].event.id == feed.base)
  }

  ghost predicate ConnectionInv(run: Run<nat>, items: seq<Delivered>, c: Connection) {
    && CleanChunks(c.chunks)
    && c.chunks != [] && c.chunks[0] == Connected
    && match c.channel
       case None => c.chunks == [Connected] && !c.astray
       case Some(k) =>
         && k in run.feeds && k in run.b.channels
         && run.feeds[k].taken == Items(c.chunks)
         && (c.astray ==> run.feeds[k].base == 0)
         && (!run.b.channels[k].closed || Stream(run.feeds[k], run.b.channels[k]) != [] ==>
               (CarriesOn(items, run.b.generation, run.feeds[k]) <==> !c.astray))
  }

  /** Everything but what the client will ask to resume from. */
  ghost predicate CoreInv(w: World, json: Encoder) {
    && Inv(w.run)
    && GoodGeneration(w.run.b.generation)
    && w.run.b.generation in w.archive && w.archive[w.run.b.generation] == w.run.log
    && (forall g | g in w.archive :: GoodGeneration(g))
    && AllGenuine(w.items, w.archive)
    && w.inbox == Messages(Events(w.items), json)
    && (w.connection.Some? ==> ConnectionInv(w.run, w.items, w.connection.value))
  }

  ghost predicate WorldInv(w: World, json: Encoder) {
    CoreInv(w, json) && (w.lastEventId == "" || w.lastEventId == LastCursor(w.items))
  }

  // ----- Streams extend what was received

  lemma StreamItem(feed: Feed, channel: Channel, log: seq<LifecycleEvent>, generation: string, i: nat)
    requires LogInv(log, generation) && FeedInv(feed, channel, log, generation)
    requires i < |Stream(feed, channel)|
    ensures var e := Stream(feed, channel)[i];
            && e.cursor == Cursor(generation, e.id)
            && e.id == feed.base + i + 1 - |feed.lead| <= |log|
            && (e.streamReset <==> feed.lead != [] && i == 0)
            && (!e.streamReset ==> e.id >= 1 && e == log[e.id - 1])
  {
    if i >= |feed.lead| {
      assert Stream(feed, channel)[i] == log[feed.base + i - |feed.lead|];
    }
  }

  lemma CleanCursor(generation: string, id: nat)
    requires GoodGeneration(generation)
    ensures ':' !in generation
    ensures Unbroken(Cursor(generation, id)) && '\0' !in Cursor(generation, id)
  {
  }

  /** Successive events of one generation. */
  ghost predicate Successive(part: seq<LifecycleEvent>) {
    forall i | 0 < i < |part| :: part[i].id == part[i - 1].id + 1
  }

  lemma AppendSuccessive(items: seq<Delivered>, generation: string, part: seq<LifecycleEvent>)
    requires Successive(part)
    ensures NoSilentGap(items + Tagged(generation, part)) <==>
            && NoSilentGap(items)
            && (part != [] ==> Chained(items + [Delivered(generation, part[0])], |items|))
  {
    var all := items + Tagged(generation, part);
    assert forall i | 0 <= i < |items| :: Chained(all, i) <==> Chained(items, i);
    if part != [] {
      assert Chained(all, |items|) <==> Chained(items + [Delivered(generation, part[0])], |items|);
    }
  }

  lemma PartOfStream(feed: Feed, channel: Channel, log: seq<LifecycleEvent>, generation: string,
                     archive: map<string, seq<LifecycleEvent>>, j: nat)
    requires LogInv(log, generation) && FeedInv(feed, channel, log, generation)
    requires generation in archive && archive[generation] == log && j <= |Stream(feed, channel)|
    ensures var part := Stream(feed, channel)[..j];
            && Successive(part)
            && (forall i | 0 <= i < j :: Genuine(Delivered(generation, part[i]), archive))
            && (j > 0 ==> part[0].id == feed.base + 1 - |feed.lead| && (part[0].streamReset <==> feed.lead != []))
  {
    var part := Stream(feed, channel)[..j];
    forall i | 0 <= i < j
      ensures Genuine(Delivered(generation, part[i]), archive)
      ensures part[i].id == feed.base + i + 1 - |feed.lead|
      ensures part[i].streamReset <==> feed.lead != [] && i == 0
    {
      StreamItem(feed, channel, log, generation, i);
    }
  }

  /** Receiving an initial part of a feed leaves no gap exactly when the feed carries on. */
  lemma Extends(w: World, json: Encoder, k: nat, j: nat)
    requires CoreInv(w, json) && k in w.run.b.channels
    requires j <= |Stream(w.run.feeds[k], w.run.b.channels[k])|
    ensures var part := Stream(w.run.feeds[k], w.run.b.channels[k])[..j];
            var items := w.items + Tagged(w.run.b.generation, part);
            && AllGenuine(items, w.archive)
            && (NoSilentGap(items) <==>
                  NoSilentGap(w.items) && (j > 0 ==> CarriesOn(w.items, w.run.b.generation, w.run.feeds[k])))
  {
    var feed, channel := w.run.feeds[k], w.run.b.channels[k];
    var part := Stream(feed, channel)[..j];
    var generation := w.run.b.generation;
    assert ChannelInv(feed, channel, k in w.run.b.subscribers, w.run.log, generation);
    PartOfStream(feed, channel, w.run.log, generation, w.archive, j);
    AppendSuccessive(w.items, generation, part);
    assert AllGenuine(Tagged(generation, part), w.archive);
  }

  // ----- Reconnecting

  /** A client that asks with the cursor of its last item is carried on from that item, or told of a reset. */
  lemma ResumesWhereItStopped(w: World, json: Encoder, now: int)
    requires CoreInv(w, json) && w.lastEventId == LastCursor(w.items) && !w.run.b.closed
    ensures CarriesOn(w.items, w.run.b.generation, NewFeed(w.run.b, w.lastEventId, now))
  {
    if w.items != [] {
      var last := w.items[|w.items| - 1];
      var own := w.run.b.generation;
      CleanCursor(last.generation, 0);
      if last.generation == own {
        RoundTrip(own, last.event.id, w.run.b.nextID);
      } else {
        ForeignCursor(own, last.generation, last.event.id, w.run.b.nextID);
      }
    }
  }

  /** A new subscription carries on from what the client has exactly when the client is not astray. */
  lemma CarriesOnExactly(w: World, json: Encoder, now: int)
    requires WorldInv(w, json) && !w.run.b.closed
    ensures CarriesOn(w.items, w.run.b.generation, NewFeed(w.run.b, w.lastEventId, now)) <==> !Astray(w)
  {
    if w.lastEventId == LastCursor(w.items) {
      ResumesWhereItStopped(w, json, now);
      assert w.items != [] ==> Genuine(w.items[|w.items| - 1], w.archive);
    } else {
      ReplayExactly(w.run, "", now);
    }
  }

  // ----- Messages

  lemma {:induction false} MessagesConcat(a: seq<LifecycleEvent>, b: seq<LifecycleEvent>, json: Encoder)
    ensures Messages(a + b, json) == Messages(a, json) + Messages(b, json)
  {
    if a == [] {
      assert a + b == b;
    } else {
      assert (a + b)[1..] == a[1..] + b;
      MessagesConcat(a[1..], b, json);
    }
  }

  lemma {:induction false} ItemsConcat(a: seq<Chunk>, b: seq<Chunk>)
    ensures Items(a + b) == Items(a) + Items(b)
    decreases |a|
  {
    if a == [] {
      assert a + b == b;
    } else {
      assert (a + b)[0] == a[0] && (a + b)[1..] == a[1..] + b;
      ItemsConcat(a[1..], b);
    }
  }

  lemma ItemsPrefix(chunks: seq<Chunk>, m: nat)
    requires m <= |chunks|
    ensures |Items(chunks[..m])| <= |Items(chunks)|
    ensures Items(chunks[..m]) == Items(chunks)[..|Items(chunks[..m])|]
  {
    assert chunks == chunks[..m] + chunks[m..];
    ItemsConcat(chunks[..m], chunks[m..]);
  }

  // ----- Each move keeps the invariant

  /** How the broker's own steps look from outside: the log only grows. */
  lemma StepLog(r: Run<nat>, a: Action<nat>)
    requires Inv(r)
    ensures var r' := Apply(r, a);
            r'.b.generation == r.b.generation && |r.log| <= |r'.log| && r'.log[..|r.log|] == r.log
  {
  }

  lemma BrokeringKeeps(w: World, a: Action<nat>, json: Encoder)
    requires CoreInv(w, json)
    ensures var w' := WithRun(w, Apply(w.run, a));
            && CoreInv(w'.(connection := None), json)
            && (!(a.Receive? && OwnChannel(w, a.k)) ==> CoreInv(w', json))
  {
    StepKeeps(w.run, a);
    StepLog(w.run, a);
    var w' := WithRun(w, Apply(w.run, a));
    assert AllGenuine(w'.items, w'.archive);
    if w.connection.Some? && w.connection.value.channel.Some? {
      StepFeed(w.run, a, w.connection.value.channel.value);
    }
  }

  lemma AttachKeeps(w: World, k: nat, now: int, json: Encoder)
    requires WorldInv(w, json) && Possible(w, Attach(k, now), json)
    ensures WorldInv(Next(w, Attach(k, now), json), json)
  {
    var a := Action.Subscribe(k, w.lastEventId, now);
    BrokeringKeeps(w, a, json);
    if !w.run.b.closed {
      CarriesOnExactly(w, json, now);
    }
    assert Items([Connected]) == [];
  }

  lemma HeadIsClean(r: Run<nat>, k: nat)
    requires Inv(r) && GoodGeneration(r.b.generation) && k in r.b.channels && r.b.channels[k].queue != []
    ensures CleanChunk(Item(r.b.channels[k].queue[0]))
  {
    var feed, channel := r.feeds[k], r.b.channels[k];
    assert ChannelInv(feed, channel, k in r.b.subscribers, r.log, r.b.generation);
    assert Stream(feed, channel)[|feed.taken|] == channel.queue[0];
    StreamItem(feed, channel, r.log, r.b.generation, |feed.taken|);
    CleanCursor(r.b.generation, channel.queue[0].id);
  }

  lemma ItemsPlus(chunks: seq<Chunk>, chunk: Chunk)
    ensures Items(chunks + [chunk]) == Items(chunks) + if chunk.Item? then [chunk.event] else []
  {
    ItemsConcat(chunks, [chunk]);
    assert [chunk][1..] == [];
  }

  lemma RelayConnection(run: Run<nat>, items: seq<Delivered>, c: Connection, k: nat)
    requires Inv(run) && GoodGeneration(run.b.generation) && ConnectionInv(run, items, c)
    requires c.channel == Some(k) && Enabled(run, Action.Receive(k))
    ensures ConnectionInv(
              Apply(run, Action.Receive(k)), items, c.(chunks := c.chunks + [Item(run.b.channels[k].queue[0])]))
  {
    HeadIsClean(run, k);
    ItemsPlus(c.chunks, Item(run.b.channels[k].queue[0]));
    StepFeed(run, Action.Receive(k), k);
  }

  lemma RelayKeeps(w: World, json: Encoder)
    requires CoreInv(w, json) && Possible(w, Relay, json)
    ensures CoreInv(Next(w, Relay, json), json)
  {
    var k := w.connection.value.channel.value;
    BrokeringKeeps(w, Action.Receive(k), json);
    RelayConnection(w.run, w.items, w.connection.value, k);
  }

  lemma BeatKeeps(w: World, json: Encoder)
    requires CoreInv(w, json) && Possible(w, Beat, json)
    ensures CoreInv(Next(w, Beat, json), json)
  {
    var c := w.connection.value;
    ItemsPlus(c.chunks, Heartbeat);
  }

  /** The cut that shows the loss: it brings an item to a client that was astray when it connected. */
  ghost predicate Strays(w: World, m: Move, json: Encoder) {
    && m.Cut? && Possible(w, m, json)
    && w.connection.value.astray
    && Dispatched(w.connection.value, m.n, json) != []
  }

  lemma ItemsOfOpening()
    ensures forall m: nat | m <= 1 :: Items([Connected][..m]) == []
  {
    assert [Connected][..1] == [Connected] && [Connected][1..] == [];
  }

  lemma CutItems(w: World, n: nat, carries: bool, json: Encoder)
    requires CoreInv(w, json) && Possible(w, Cut(n, carries), json)
    ensures var items := w.items + Tagged(w.run.b.generation, Dispatched(w.connection.value, n, json));
            && AllGenuine(items, w.archive)
            && (NoSilentGap(items) <==> NoSilentGap(w.items) && !Strays(w, Cut(n, carries), json))
  {
    var c := w.connection.value;
    var got := Dispatched(c, n, json);
    var m := WholeFrames(c.chunks, n, json);
    ItemsPrefix(c.chunks, m);
    match c.channel
    case None =>
      ItemsOfOpening();
      assert w.items + Tagged(w.run.b.generation, got) == w.items;
    case Some(k) =>
      assert got == Stream(w.run.feeds[k], w.run.b.channels[k])[..|got|];
      Extends(w, json, k, |got|);
  }

  lemma EventsTagged(items: seq<Delivered>, generation: string, got: seq<LifecycleEvent>)
    ensures Events(items + Tagged(generation, got)) == Events(items) + got
  {
  }

  lemma LastTagged(items: seq<Delivered>, generation: string, got: seq<LifecycleEvent>)
    ensures LastCursor(items + Tagged(generation, got)) ==
            if got == [] then LastCursor(items) else got[|got| - 1].cursor
  {
    var tagged := Tagged(generation, got);
    if got == [] {
      assert items + tagged == items;
    } else {
      assert (items + tagged)[|items + tagged| - 1] == tagged[|got| - 1];
    }
  }

  lemma CutInbox(items: seq<Delivered>, generation: string, got: seq<LifecycleEvent>, json: Encoder)
    ensures Messages(Events(items + Tagged(generation, got)), json) ==
            Messages(Events(items), json) + Messages(got, json)
  {
    EventsTagged(items, generation, got);
    MessagesConcat(Events(items), got, json);
  }

  lemma CutCore(w: World, n: nat, carries: bool, json: Encoder)
    requires CleanEncoder(json) && CoreInv(w, json) && Possible(w, Cut(n, carries), json)
    ensures CoreInv(Next(w, Cut(n, carries), json), json)
  {
    var c := w.connection.value;
    CutItems(w, n, carries, json);
    CutInbox(w.items, w.run.b.generation, Dispatched(c, n, json), json);
    CutAnywhere(c.chunks, n, if carries then w.lastEventId else "", w.lastEventId, json);
  }

  /** The last event ID after a cut: the last item's cursor, the new parser's buffer, or what it was. */
  lemma CutId(w: World, n: nat, carries: bool, json: Encoder)
    requires CleanEncoder(json) && CoreInv(w, json) && Possible(w, Cut(n, carries), json)
    ensures var got := Dispatched(w.connection.value, n, json);
            Next(w, Cut(n, carries), json).lastEventId ==
            if got != [] then got[|got| - 1].cursor
            else if n >= |Frame(Connected, json)| && !carries then ""
            else w.lastEventId
  {
    var c := w.connection.value;
    CutAnywhere(c.chunks, n, if carries then w.lastEventId else "", w.lastEventId, json);
    assert WholeFrames(c.chunks, n, json) == 0 <==> n < |Frame(Connected, json)|;
  }

  lemma HasCursor(items: seq<Delivered>, archive: map<string, seq<LifecycleEvent>>)
    requires AllGenuine(items, archive) && items != []
    ensures LastCursor(items) != ""
  {
    assert Genuine(items[|items| - 1], archive);
  }

  lemma LastHasCursor(w: World, n: nat, carries: bool, json: Encoder)
    requires CoreInv(w, json) && Possible(w, Cut(n, carries), json)
    ensures var got := Dispatched(w.connection.value, n, json); got != [] ==> got[|got| - 1].cursor != ""
  {
    var got := Dispatched(w.connection.value, n, json);
    CutItems(w, n, carries, json);
    LastTagged(w.items, w.run.b.generation, got);
    if got != [] {
      HasCursor(w.items + Tagged(w.run.b.generation, got), w.archive);
    }
  }

  lemma CutKeeps(w: World, n: nat, carries: bool, json: Encoder)
    requires CleanEncoder(json) && WorldInv(w, json) && Possible(w, Cut(n, carries), json)
    ensures WorldInv(Next(w, Cut(n, carries), json), json)
  {
    CutCore(w, n, carries, json);
    CutId(w, n, carries, json);
    LastTagged(w.items, w.run.b.generation, Dispatched(w.connection.value, n, json));
  }

  // ----- The end-to-end theorem

  lemma StepKeepsWorld(w: World, m: Move, json: Encoder)
    requires CleanEncoder(json) && WorldInv(w, json)
    ensures WorldInv(Next(w, m, json), json)
  {
    if Possible(w, m, json) {
      match m
      case Brokering(a) => BrokeringKeeps(w, a, json);
      case Connect =>
        ItemsOfOpening();
      case Attach(k, now) => AttachKeeps(w, k, now, json);
      case Relay => RelayKeeps(w, json);
      case Beat => BeatKeeps(w, json);
      case Cut(n, carries) => CutKeeps(w, n, carries, json);
      case Restart(generation) =>
        CleanCursor(generation, 0);
        assert AllGenuine(w.items, w.archive[generation := []]);
    }
  }

  /** Every move keeps the invariant, and only a cut that strays makes a gap. */
  lemma StepSafe(w: World, m: Move, json: Encoder)
    requires CleanEncoder(json) && WorldInv(w, json)
    ensures WorldInv(Next(w, m, json), json)
    ensures NoSilentGap(Next(w, m, json).items) <==> NoSilentGap(w.items) && !Strays(w, m, json)
  {
    StepKeepsWorld(w, m, json);
    if m.Cut? && Possible(w, m, json) {
      CutItems(w, m.n, m.carries, json);
    }
  }

  /** No cut on the way brings an item to a client that connected with its place lost. */
  ghost predicate NeverStrays(w: World, moves: seq<Move>, json: Encoder)
    decreases |moves|
  {
    moves == [] || (!Strays(w, moves[0], json) && NeverStrays(Next(w, moves[0], json), moves[1..], json))
  }

  lemma {:induction false} TravelSafe(w: World, moves: seq<Move>, json: Encoder)
    requires CleanEncoder(json) && WorldInv(w, json)
    ensures WorldInv(Travel(w, moves, json), json)
    ensures NoSilentGap(Travel(w, moves, json).items) <==> NoSilentGap(w.items) && NeverStrays(w, moves, json)
    decreases |moves|
  {
    if moves != [] {
      StepSafe(w, moves[0], json);
      TravelSafe(Next(w, moves[0], json), moves[1..], json);
    }
  }

  lemma BeginSafe(generation: string, json: Encoder)
    requires GoodGeneration(generation)
    ensures WorldInv(Begin(generation), json)
  {
    CleanCursor(generation, 0);
  }

  /**
   Over any run of publishes, reads, evictions, closes, restarts and disconnects at any byte, what
   the client has is genuine; and it has every event directly after its predecessor, or after a
   reset, if and only if it was never given an item on a connection begun with its place lost.
   */
  lemma NoGapEndToEnd(generation: string, moves: seq<Move>, json: Encoder)
    requires CleanEncoder(json) && GoodGeneration(generation)
    ensures var w := Travel(Begin(generation), moves, json);
            && w.inbox == Messages(Events(w.items), json)
            && AllGenuine(w.items, w.archive)
            && (NoSilentGap(w.items) <==> NeverStrays(Begin(generation), moves, json))
  {
    BeginSafe(generation, json);
    TravelSafe(Begin(generation), moves, json);
  }

  // ----- Clients that never lose their place

  /** The move takes the client's place away. */
  ghost predicate Forgets(w: World, m: Move, json: Encoder) {
    w.lastEventId != "" && Next(w, m, json).lastEventId == ""
  }

  ghost predicate NeverForgets(w: World, moves: seq<Move>, json: Encoder)
    decreases |moves|
  {
    moves == [] || (!Forgets(w, moves[0], json) && NeverForgets(Next(w, moves[0], json), moves[1..], json))
  }

  /** The client's place is that of its last item, and it connected with it. */
  ghost predicate Placed(w: World) {
    w.lastEventId == LastCursor(w.items) && (w.connection.Some? ==> !w.connection.value.astray)
  }

  lemma PlacedIsNotAstray(w: World, json: Encoder)
    requires CoreInv(w, json) && w.lastEventId == LastCursor(w.items)
    ensures !Astray(w)
  {
    if w.items != [] {
      HasCursor(w.items, w.archive);
    }
  }

  lemma CutStaysPlaced(w: World, n: nat, carries: bool, json: Encoder)
    requires CleanEncoder(json) && CoreInv(w, json) && Possible(w, Cut(n, carries), json) && Placed(w)
    requires !Forgets(w, Cut(n, carries), json)
    ensures Placed(Next(w, Cut(n, carries), json))
  {
    CutId(w, n, carries, json);
    LastTagged(w.items, w.run.b.generation, Dispatched(w.connection.value, n, json));
  }

  /** A place once taken is kept, unless a move takes it away. */
  lemma StaysPlaced(w: World, m: Move, json: Encoder)
    requires CleanEncoder(json) && WorldInv(w, json) && Placed(w) && !Forgets(w, m, json)
    ensures Placed(Next(w, m, json)) && !Strays(w, m, json)
  {
    if m.Cut? {
      if Possible(w, m, json) {
        CutStaysPlaced(w, m.n, m.carries, json);
      }
    } else {
      PlacedIsNotAstray(w, json);
    }
  }

  /** So it is at every moment of a run on which nothing takes the place away; no connection is begun astray. */
  lemma {:induction false} PlacedNeverStrays(w: World, moves: seq<Move>, json: Encoder)
    requires CleanEncoder(json) && WorldInv(w, json) && Placed(w) && NeverForgets(w, moves, json)
    ensures NeverStrays(w, moves, json) && Placed(Travel(w, moves, json))
    decreases |moves|
  {
    if moves != [] {
      StaysPlaced(w, moves[0], json);
      StepSafe(w, moves[0], json);
      PlacedNeverStrays(Next(w, moves[0], json), moves[1..], json);
    }
  }

  lemma OnlyCutsChangeId(w: World, m: Move, json: Encoder)
    requires !m.Cut?
    ensures Next(w, m, json).lastEventId == w.lastEventId
  {
  }

  lemma CarryingCutKeepsPlace(w: World, n: nat, json: Encoder)
    requires CleanEncoder(json) && CoreInv(w, json) && Possible(w, Cut(n, true), json) && w.lastEventId != ""
    ensures Next(w, Cut(n, true), json).lastEventId != ""
  {
    CutId(w, n, true, json);
    LastHasCursor(w, n, true, json);
  }

  /** A client whose parser starts from its own last event ID loses it by no move. */
  lemma CarryingKeepsPlace(w: World, m: Move, json: Encoder)
    requires CleanEncoder(json) && WorldInv(w, json) && (m.Cut? ==> m.carries)
    ensures !Forgets(w, m, json)
  {
    if !m.Cut? {
      OnlyCutsChangeId(w, m, json);
    } else if Possible(w, m, json) && w.lastEventId != "" {
      CarryingCutKeepsPlace(w, m.n, json);
    }
  }

  /** Nor on any run. */
  lemma {:induction false} CarryingNeverForgets(w: World, moves: seq<Move>, json: Encoder)
    requires CleanEncoder(json) && WorldInv(w, json)
    requires forall i | 0 <= i < |moves| :: moves[i].Cut? ==> moves[i].carries
    ensures NeverForgets(w, moves, json)
    decreases |moves|
  {
    if moves != [] {
      assert forall i | 0 <= i < |moves| - 1 :: moves[1..][i] == moves[i + 1];
      CarryingKeepsPlace(w, moves[0], json);
      StepSafe(w, moves[0], json);
      CarryingNeverForgets(Next(w, moves[0], json), moves[1..], json);
    }
  }

  /** So for such a client the guarantee has no condition at all. */
  lemma NoGapForCarryingClients(generation: string, moves: seq<Move>, json: Encoder)
    requires CleanEncoder(json) && GoodGeneration(generation)
    requires forall i | 0 <= i < |moves| :: moves[i].Cut? ==> moves[i].carries
    ensures var w := Travel(Begin(generation), moves, json);
            && w.inbox == Messages(Events(w.items), json)
            && NoSilentGap(w.items)
            && AllGenuine(w.items, w.archive)
  {
    BeginSafe(generation, json);
    CarryingNeverForgets(Begin(generation), moves, json);
    PlacedNeverStrays(Begin(generation), moves, json);
    NoGapEndToEnd(generation, moves, json);
  }

  // ----- The same, in terms of nothing but the messages the client holds

  ghost predicate Carries(m: Message, generation: string, id: nat) {
    m.lastEventId == Cursor(generation, id)
  }

  /** Message `i` is a reset, or the very next event after message `i - 1`, or event 1 at the start. */
  ghost predicate InSequence(inbox: seq<Message>, i: nat)
    requires i < |inbox|
  {
    || inbox[i].kind == "stream.reset"
    || (&& inbox[i].kind == "vm.lifecycle"
        && exists generation, id: nat ::
             && ':' !in generation && Carries(inbox[i], generation, id)
             && if i == 0 then id == 1 else id > 0 && Carries(inbox[i - 1], generation, id - 1))
  }

  lemma {:induction false} MessagesByItem(items: seq<LifecycleEvent>, json: Encoder)
    ensures |Messages(items, json)| == |items|
    ensures forall i | 0 <= i < |items| :: Messages(items, json)[i] == ItemMessage(items[i], json)
  {
    if items != [] {
      MessagesByItem(items[1..], json);
    }
  }

  /** What a message says by its ID and type, against the item it came from. */
  lemma MessageTells(
    d: Delivered, archive: map<string, seq<LifecycleEvent>>, json: Encoder, generation: string, id: nat)
    requires Genuine(d, archive) && ':' !in d.generation && ':' !in generation
    ensures Carries(ItemMessage(d.event, json), generation, id) <==> d.generation == generation && d.event.id == id
    ensures ItemMessage(d.event, json).kind == "stream.reset" <==> d.event.streamReset
    ensures ItemMessage(d.event, json).kind == "vm.lifecycle" <==> !d.event.streamReset
  {
    assert "stream.reset" != "vm.lifecycle" by {
      assert "stream.reset"[0] != "vm.lifecycle"[0];
    }
    if Carries(ItemMessage(d.event, json), generation, id) {
      Injective(d.generation, d.event.id, generation, id);
    }
  }

  lemma SequenceExactly(items: seq<Delivered>, archive: map<string, seq<LifecycleEvent>>, json: Encoder, i: nat)
    requires AllGenuine(items, archive) && i < |items| && forall g | g in archive :: ':' !in g
    ensures |Messages(Events(items), json)| == |items|
    ensures InSequence(Messages(Events(items), json), i) <==> Chained(items, i)
  {
    MessagesByItem(Events(items), json);
    var inbox := Messages(Events(items), json);
    var d := items[i];
    assert inbox[i] == ItemMessage(d.event, json) && Genuine(d, archive);
    assert i > 0 ==> inbox[i - 1] == ItemMessage(items[i - 1].event, json) && Genuine(items[i - 1], archive);
    MessageTells(d, archive, json, d.generation, d.event.id);
    if i > 0 && d.event.id > 0 {
      MessageTells(items[i - 1], archive, json, d.generation, d.event.id - 1);
    }
    if InSequence(inbox, i) && !d.event.streamReset {
      var generation, id: nat :|
        && ':' !in generation && Carries(inbox[i], generation, id)
        && if i == 0 then id == 1 else id > 0 && Carries(inbox[i - 1], generation, id - 1);
      MessageTells(d, archive, json, generation, id);
    }
  }

  lemma {:induction false} TravelArchive(w: World, moves: seq<Move>, json: Encoder)
    requires CleanEncoder(json) && WorldInv(w, json)
    ensures forall g | g in Travel(w, moves, json).archive :: ':' !in g
  {
    TravelSafe(w, moves, json);
    forall g | g in Travel(w, moves, json).archive
      ensures ':' !in g
    {
      CleanCursor(g, 0);
    }
  }

  /** The messages a client holds are in sequence, by their IDs alone, if and only if it never strayed. */
  lemma ClientSeesASequence(generation: string, moves: seq<Move>, json: Encoder)
    requires CleanEncoder(json) && GoodGeneration(generation)
    ensures var inbox := Travel(Begin(generation), moves, json).inbox;
            (forall i | 0 <= i < |inbox| :: InSequence(inbox, i)) <==> NeverStrays(Begin(generation), moves, json)
  {
    BeginSafe(generation, json);
    NoGapEndToEnd(generation, moves, json);
    TravelArchive(Begin(generation), moves, json);
    var w := Travel(Begin(generation), moves, json);
    MessagesByItem(Events(w.items), json);
    forall i | 0 <= i < |w.items|
      ensures InSequence(w.inbox, i) <==> Chained(w.items, i)
    {
      SequenceExactly(w.items, w.archive, json, i);
    }
  }

  /** The client's last item is the newest there is. */
  ghost predicate AtNewest(w: World) {
    && w.items != []
    && w.items[|w.items| - 1].generation == w.run.b.generation
    && w.items[|w.items| - 1].event.id == w.run.b.nextID
  }

  lemma EndOfStream(
    items: seq<Delivered>, generation: string, feed: Feed, channel: Channel, log: seq<LifecycleEvent>)
    requires LogInv(log, generation) && ChannelInv(feed, channel, true, log, generation)
    requires Stream(feed, channel) != []
    ensures var all := items + Tagged(generation, Stream(feed, channel));
            && all[|all| - 1].generation == generation && all[|all| - 1].event.id == |log|
            && (|log| == 0 ==> feed.lead != [])
  {
    var stream := Stream(feed, channel);
    var all := items + Tagged(generation, stream);
    StreamItem(feed, channel, log, generation, |stream| - 1);
    assert all[|all| - 1] == Delivered(generation, stream[|stream| - 1]);
  }

  lemma WholeStream(
    items: seq<Delivered>, generation: string, feed: Feed, channel: Channel, log: seq<LifecycleEvent>)
    requires LogInv(log, generation) && ChannelInv(feed, channel, true, log, generation)
    requires CarriesOn(items, generation, feed) || feed.base == 0
    ensures var all := items + Tagged(generation, Stream(feed, channel));
            (all != [] && all[|all| - 1].generation == generation && all[|all| - 1].event.id == |log|) <==>
            !(|log| == 0 && (all == [] || !CarriesOn(items, generation, feed)))
  {
    if Stream(feed, channel) == [] {
      assert items + Tagged(generation, Stream(feed, channel)) == items;
    } else {
      EndOfStream(items, generation, feed, channel, log);
    }
  }

  lemma ReachesNewest(w: World, k: nat, json: Encoder)
    requires CoreInv(w, json) && w.connection.Some? && w.connection.value.channel == Some(k)
    requires k in w.run.b.subscribers
    ensures var all := w.items + Tagged(w.run.b.generation, Stream(w.run.feeds[k], w.run.b.channels[k]));
            (&& all != [] && all[|all| - 1].generation == w.run.b.generation
             && all[|all| - 1].event.id == w.run.b.nextID) <==>
            !(w.run.b.nextID == 0 && (all == [] || w.connection.value.astray))
  {
    assert ChannelInv(w.run.feeds[k], w.run.b.channels[k], true, w.run.log, w.run.b.generation);
    WholeStream(w.items, w.run.b.generation, w.run.feeds[k], w.run.b.channels[k], w.run.log);
  }

  lemma {:induction false} AllFrames(chunks: seq<Chunk>, json: Encoder)
    ensures WholeFrames(chunks, |Wire(chunks, json)|, json) == |chunks|
  {
    if chunks != [] {
      AllFrames(chunks[1..], json);
    }
  }

  lemma AllDispatched(w: World, json: Encoder)
    requires CoreInv(w, json) && w.connection.Some? && w.connection.value.channel.Some?
    requires w.run.b.channels[w.connection.value.channel.value].queue == []
    ensures var c, k := w.connection.value, w.connection.value.channel.value;
            Dispatched(c, |Wire(c.chunks, json)|, json) == Stream(w.run.feeds[k], w.run.b.channels[k])
  {
    var c := w.connection.value;
    AllFrames(c.chunks, json);
    assert c.chunks[..|c.chunks|] == c.chunks;
  }

  lemma CutGives(w: World, n: nat, carries: bool, json: Encoder)
    requires Possible(w, Cut(n, carries), json)
    ensures Next(w, Cut(n, carries), json).items ==
            w.items + Tagged(w.run.b.generation, Dispatched(w.connection.value, n, json))
  {
  }

  /**
   Once everything written has arrived and the queue is empty, the client is at the newest event;
   unless the broker has published nothing and the client has nothing of it, not even a reset.
   */
  lemma CaughtUp(w: World, carries: bool, json: Encoder)
    requires CleanEncoder(json) && CoreInv(w, json)
    requires w.connection.Some? && w.connection.value.channel.Some?
    requires var k := w.connection.value.channel.value; k in w.run.b.subscribers && w.run.b.channels[k].queue == []
    ensures var c := w.connection.value;
            var w' := Next(w, Cut(|Wire(c.chunks, json)|, carries), json);
            AtNewest(w') <==> !(w.run.b.nextID == 0 && (w'.items == [] || c.astray))
  {
    var c := w.connection.value;
    AllDispatched(w, json);
    ReachesNewest(w, c.channel.value, json);
    CutGives(w, |Wire(c.chunks, json)|, carries, json);
  }
}
