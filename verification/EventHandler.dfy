/** The HTTP handler's loop: one connection, from its opening comment to its last byte. */
module EventHandler {
  import opened Brokers
  import opened EventStream

  /** What the loop's select yields: an event, a closed channel, a heartbeat tick, a finished request. */
  datatype Arrival = Received(event: LifecycleEvent) | Drained | Tick | Gone

  predicate Ends(arrival: Arrival) {
    arrival.Drained? || arrival.Gone?
  }

  function ChunkOf(arrival: Arrival): Chunk
    requires !Ends(arrival)
  {
    if arrival.Tick? then Heartbeat else Item(arrival.event)
  }

  /** The frames due for a run of arrivals, up to the one that ends the connection. */
  function Due(arrivals: seq<Arrival>): seq<Chunk> {
    if arrivals == [] || Ends(arrivals[0]) then []
    else [ChunkOf(arrivals[0])] + Due(arrivals[1..])
  }

  function Clip(text: string, room: nat): string {
    if |text| <= room then text else text[..room]
  }

  lemma {:induction false} WireConcat(a: seq<Chunk>, b: seq<Chunk>, json: Encoder)
    ensures Wire(a + b, json) == Wire(a, json) + Wire(b, json)
  {
    if a == [] {
      assert a + b == b;
    } else {
      assert (a + b)[1..] == a[1..] + b;
      WireConcat(a[1..], b, json);
    }
  }

  lemma WireOne(chunk: Chunk, json: Encoder)
    ensures Wire([chunk], json) == Frame(chunk, json)
  {
    assert [chunk][1..] == [];
  }

  lemma DueStep(arrivals: seq<Arrival>, i: nat, json: Encoder)
    requires i < |arrivals| && !Ends(arrivals[i])
    ensures Wire(Due(arrivals[i..]), json) ==
            Frame(ChunkOf(arrivals[i]), json) + Wire(Due(arrivals[i + 1..]), json)
  {
    assert arrivals[i..][1..] == arrivals[i + 1..];
    WireConcat([ChunkOf(arrivals[i])], Due(arrivals[i + 1..]), json);
    WireOne(ChunkOf(arrivals[i]), json);
  }

  lemma ClipWithin(sent: string, frame: string, rest: string, room: nat)
    requires |sent| <= room < |sent| + |frame|
    ensures Clip(sent + (frame + rest), room) == sent + frame[..room - |sent|]
  {
  }

  /** The handler goes on: an event or a tick came. */
  ghost predicate GoesOn(arrivals: seq<Arrival>, n: nat) {
    n <= |arrivals| && forall i | 0 <= i < n :: arrivals[i].Received? || arrivals[i].Tick?
  }

  /**
   One frame for each of the first `n` arrivals, and then nothing: the arrivals are used up, or the next
   one is a closed channel or a finished request.
   */
  ghost predicate SentFor(arrivals: seq<Arrival>, n: nat, chunks: seq<Chunk>) {
    && GoesOn(arrivals, n) && |chunks| == n
    && (forall i | 0 <= i < n ::
          chunks[i] == match arrivals[i] case Received(event) => Item(event) case _ => Heartbeat)
    && (n < |arrivals| ==> arrivals[n] == Drained || arrivals[n] == Gone)
  }

  lemma {:induction false} DueByIndex(arrivals: seq<Arrival>)
    ensures SentFor(arrivals, |Due(arrivals)|, Due(arrivals))
  {
    if arrivals != [] && !Ends(arrivals[0]) {
      DueByIndex(arrivals[1..]);
      var n := |Due(arrivals)|;
      forall i | 0 <= i < n
        ensures arrivals[i].Received? || arrivals[i].Tick?
        ensures Due(arrivals)[i] == match arrivals[i] case Received(event) => Item(event) case _ => Heartbeat
      {
        if i > 0 {
          assert arrivals[i] == arrivals[1..][i - 1];
        }
      }
    }
  }

  /**
   Serve one connection whose transport takes `room` bytes before writes fail. Whatever the
   arrivals, the bytes that left are an initial part of the opening comment and the due frames:
   one for each arrival before the channel is found closed or the request over, and none after it.
   */
  method Serve(arrivals: seq<Arrival>, json: Encoder, room: nat) returns (wire: string)
    ensures wire == Clip(Wire([Connected] + Due(arrivals), json), room)
    ensures exists n, chunks :: SentFor(arrivals, n, chunks) && wire == Clip(Wire([Connected] + chunks, json), room)
    ensures |wire| <= room && wire <= Wire([Connected] + Due(arrivals), json)
    ensures |wire| == room || wire == Wire([Connected] + Due(arrivals), json)
  {
    DueByIndex(arrivals);
    ghost var all := Wire([Connected] + Due(arrivals), json);
    WireConcat([Connected], Due(arrivals), json);
    WireOne(Connected, json);
    var opening := Frame(Connected, json);
    // The result of the first write is ignored; a transport that broke takes nothing more.
    wire := Clip(opening, room);
    if |opening| > room {
      assert all[..room] == opening[..room];
      return;
    }
    assert arrivals[0..] == arrivals;
    for i := 0 to |arrivals|
      invariant |wire| <= room && all == wire + Wire(Due(arrivals[i..]), json)
    {
      if Ends(arrivals[i]) {
        assert all == wire;
        return;
      }
      DueStep(arrivals, i, json);
      var frame := Frame(ChunkOf(arrivals[i]), json);
      if |wire| + |frame| > room {
        ClipWithin(wire, frame, Wire(Due(arrivals[i + 1..]), json), room);
        wire := wire + frame[..room - |wire|];
        return;
      }
      assert wire + (frame + Wire(Due(arrivals[i + 1..]), json)) ==
             wire + frame + Wire(Due(arrivals[i + 1..]), json);
      wire := wire + frame;
    }
    assert all == wire;
  }

  /** Clipped anywhere, what `Serve` sends is understood frame by frame. */
  lemma ClientOfServe(arrivals: seq<Arrival>, json: Encoder, room: nat, idBuffer: string, lastEventId: string)
    requires CleanEncoder(json) && CleanChunks(Due(arrivals))
    ensures var all := [Connected] + Due(arrivals);
            var wire := Clip(Wire(all, json), room);
            var whole := all[..WholeFrames(all, |wire|, json)];
            var q := Parse(Opened(idBuffer, lastEventId), wire);
            && q.out == Messages(Items(whole), json)
            && q.lastEventId == FinalId(whole, idBuffer, lastEventId)
  {
    var all := [Connected] + Due(arrivals);
    var wire := Clip(Wire(all, json), room);
    assert wire == Wire(all, json)[..|wire|];
    CutAnywhere(all, |wire|, idBuffer, lastEventId, json);
  }
}
