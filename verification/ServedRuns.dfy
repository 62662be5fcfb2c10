/**
 The connections of `Delivery` are connections that the handler's loop serves: what a client is cut
 off after is what `EventHandler.Serve` sent it for some arrivals.
 */
module ServedRuns {
  import opened Wrappers
  import opened Brokers
  import opened EventStream
  import opened EventHandler
  import opened Delivery

  /** What the loop's select yields for each frame after the opening comment. */
  function Arrived(chunks: seq<Chunk>): seq<Arrival> {
    if chunks == [] then []
    else [if chunks[0].Item? then Received(chunks[0].event) else Tick] + Arrived(chunks[1..])
  }

  predicate OpenedOnce(chunks: seq<Chunk>) {
    chunks != [] && chunks[0] == Connected && forall i | 1 <= i < |chunks| :: chunks[i] != Connected
  }

  lemma {:induction false} DueOfArrived(chunks: seq<Chunk>)
    requires forall i | 0 <= i < |chunks| :: chunks[i] != Connected
    ensures Due(Arrived(chunks)) == chunks
  {
    if chunks != [] {
      DueOfArrived(chunks[1..]);
      assert Arrived(chunks)[1..] == Arrived(chunks[1..]);
    }
  }

  ghost predicate OpenedOnceInv(w: World) {
    w.connection.Some? ==> OpenedOnce(w.connection.value.chunks)
  }

  lemma StaysOpenedOnce(w: World, m: Move, json: Encoder)
    requires OpenedOnceInv(w)
    ensures OpenedOnceInv(Next(w, m, json))
  {
  }

  lemma {:induction false} RunOpensOnce(w: World, moves: seq<Move>, json: Encoder)
    requires OpenedOnceInv(w)
    ensures OpenedOnceInv(Travel(w, moves, json))
    decreases |moves|
  {
    if moves != [] {
      StaysOpenedOnce(w, moves[0], json);
      RunOpensOnce(Next(w, moves[0], json), moves[1..], json);
    }
  }

  /** The events that the connection's loop has read from its channel. */
  ghost function Read(w: World): seq<LifecycleEvent>
    requires w.connection.Some?
    requires w.connection.value.channel.Some? ==> w.connection.value.channel.value in w.run.feeds
  {
    if w.connection.value.channel.None? then [] else w.run.feeds[w.connection.value.channel.value].taken
  }

  /** `arrivals` are what came to the loop that serves the client's connection. */
  ghost predicate Serves(w: World, arrivals: seq<Arrival>) {
    && w.connection.Some?
    && (w.connection.value.channel.Some? ==> w.connection.value.channel.value in w.run.feeds)
    && w.connection.value.chunks == [Connected] + Due(arrivals)
    && Items(Due(arrivals)) == Read(w)
  }

  lemma ConnectionIsServed(w: World, json: Encoder)
    requires CoreInv(w, json) && OpenedOnceInv(w) && w.connection.Some?
    ensures Serves(w, Arrived(w.connection.value.chunks[1..]))
  {
    var chunks := w.connection.value.chunks;
    DueOfArrived(chunks[1..]);
    assert chunks == [Connected] + chunks[1..];
    assert Items(chunks) == Items(chunks[1..]);
  }

  /**
   On any run, at any cut: the connection is one that the loop served, for arrivals that hold exactly
   the events read from the channel; the bytes that reached the client are those that `Serve` sends over
   a transport that takes so many; and the client goes on with what it makes of them.
   */
  lemma CutsAreServed(generation: string, moves: seq<Move>, n: nat, carries: bool, json: Encoder)
    requires CleanEncoder(json) && GoodGeneration(generation)
    requires Possible(Travel(Begin(generation), moves, json), Cut(n, carries), json)
    ensures var w := Travel(Begin(generation), moves, json);
            var w' := Next(w, Cut(n, carries), json);
            exists arrivals ::
              && Serves(w, arrivals)
              && var wire := Clip(Wire([Connected] + Due(arrivals), json), n);
                 var parser := Parse(Opened(if carries then w.lastEventId else "", w.lastEventId), wire);
                 |wire| == n && w'.inbox == w.inbox + parser.out && w'.lastEventId == parser.lastEventId
  {
    var w := Travel(Begin(generation), moves, json);
    BeginSafe(generation, json);
    TravelSafe(Begin(generation), moves, json);
    RunOpensOnce(Begin(generation), moves, json);
    ConnectionIsServed(w, json);
    var arrivals := Arrived(w.connection.value.chunks[1..]);
    assert Clip(Wire([Connected] + Due(arrivals), json), n) == Wire(w.connection.value.chunks, json)[..n];
  }
}
