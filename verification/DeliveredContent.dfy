/**
 What the client is told: every message against the notice that was published, which is read off the
 moves of the run and not off the broker.
 */
module DeliveredContent {
  import opened Wrappers
  import opened Decimal
  import opened Cursors
  import opened Brokers
  import opened BrokerRuns
  import opened EventStream
  import opened Delivery
  import opened Publications

  /** The notices published so far by each generation, and whether the present one still publishes. */
  datatype Journal = Journal(generation: string, open: bool, posts: map<string, seq<Post>>)

  /** What a move adds; `restarts` is whether a restart was possible. */
  function Noted(j: Journal, m: Move, restarts: bool): Journal {
    match m
    case Brokering(Publish(notice, now)) =>
      if j.open && j.generation in j.posts && |j.posts[j.generation]| + 1 < 0x1_0000_0000_0000_0000
      then j.(posts := j.posts[j.generation := j.posts[j.generation] + [Post(notice, now)]])
      else j
    case Brokering(Close) => j.(open := false)
    case Restart(generation) =>
      if restarts then Journal(generation, true, j.posts[generation := []]) else j
    case _ => j
  }

  ghost function Notes(j: Journal, w: World, moves: seq<Move>, json: Encoder): Journal
    decreases |moves|
  {
    if moves == [] then j
    else Notes(Noted(j, moves[0], Possible(w, moves[0], json)), Next(w, moves[0], json), moves[1..], json)
  }

  ghost predicate LogSays(log: seq<LifecycleEvent>, posts: seq<Post>, generation: string) {
    Adds([], log, posts, generation)
  }

  ghost predicate NotesHold(j: Journal, w: World) {
    && j.generation == w.run.b.generation && j.open == !w.run.b.closed
    && j.posts.Keys == w.archive.Keys
    && j.generation in w.archive && w.archive[j.generation] == w.run.log
    && (forall g | g in j.posts :: LogSays(w.archive[g], j.posts[g], g))
  }

  lemma BrokeringHolds(j: Journal, w: World, a: Action<nat>)
    requires Inv(w.run) && NotesHold(j, w)
    ensures NotesHold(Noted(j, Brokering(a), true), WithRun(w, Apply(w.run, a)))
  {
    var p := PostOf(a, !w.run.b.closed, |w.run.log|);
    StepAdds(w.run, a);
    assert LogSays(w.run.log, j.posts[j.generation], j.generation);
    AddsTwice([], w.run.log, Apply(w.run, a).log, j.posts[j.generation], p, j.generation);
    assert j.posts[j.generation] + [] == j.posts[j.generation];
  }

  lemma MoveHolds(j: Journal, w: World, m: Move, json: Encoder)
    requires CoreInv(w, json) && NotesHold(j, w)
    ensures NotesHold(Noted(j, m, Possible(w, m, json)), Next(w, m, json))
  {
    match m
    case Brokering(a) => BrokeringHolds(j, w, a);
    case Attach(k, now) =>
      BrokeringHolds(j, w, Action.Subscribe(k, w.lastEventId, now));
    case Relay =>
      if Possible(w, m, json) {
        BrokeringHolds(j, w, Action.Receive(w.connection.value.channel.value));
      }
    case Restart(generation) =>
      assert LogSays([], [], generation);
    case _ =>
  }

  lemma {:induction false} RunHolds(j: Journal, w: World, moves: seq<Move>, json: Encoder)
    requires CleanEncoder(json) && WorldInv(w, json) && NotesHold(j, w)
    ensures NotesHold(Notes(j, w, moves, json), Travel(w, moves, json))
    decreases |moves|
  {
    if moves != [] {
      MoveHolds(j, w, moves[0], json);
      StepSafe(w, moves[0], json);
      RunHolds(Noted(j, moves[0], Possible(w, moves[0], json)), Next(w, moves[0], json), moves[1..], json);
    }
  }

  /** The message is a reset, or tells of the post that its generation published under its number. */
  ghost predicate TellsOf(m: Message, d: Delivered, posts: map<string, seq<Post>>, json: Encoder) {
    && m.data == json(d.event)
    && m.lastEventId == d.generation + ":" + FormatUint(d.event.id)
    && if d.event.streamReset then m.kind == "stream.reset"
       else && m.kind == "vm.lifecycle"
            && d.generation in posts && 1 <= d.event.id <= |posts[d.generation]|
            && Says(d.event, posts[d.generation][d.event.id - 1], d.event.id, d.generation)
  }

  lemma ItemTells(d: Delivered, w: World, j: Journal, json: Encoder)
    requires Genuine(d, w.archive) && NotesHold(j, w)
    ensures TellsOf(ItemMessage(d.event, json), d, j.posts, json)
  {
    if !d.event.streamReset {
      assert LogSays(w.archive[d.generation], j.posts[d.generation], d.generation);
      assert Says(w.archive[d.generation][0 + (d.event.id - 1)], j.posts[d.generation][d.event.id - 1],
                  0 + (d.event.id - 1) + 1, d.generation);
    }
  }

  /**
   On every run, each message the client holds is a reset or carries, marshalled, the notice that its
   generation published under its number: name, UUID, event, detail and time.
   */
  lemma MessagesTellWhatWasPublished(generation: string, moves: seq<Move>, json: Encoder)
    requires CleanEncoder(json) && GoodGeneration(generation)
    ensures var w := Travel(Begin(generation), moves, json);
            var posts := Notes(Journal(generation, true, map[generation := []]), Begin(generation), moves, json).posts;
            && |w.inbox| == |w.items|
            && forall i | 0 <= i < |w.items| :: TellsOf(w.inbox[i], w.items[i], posts, json)
  {
    var start := Journal(generation, true, map[generation := []]);
    var w := Travel(Begin(generation), moves, json);
    BeginSafe(generation, json);
    assert LogSays([], [], generation);
    RunHolds(start, Begin(generation), moves, json);
    TravelSafe(Begin(generation), moves, json);
    MessagesByItem(Events(w.items), json);
    forall i | 0 <= i < |w.items|
      ensures TellsOf(w.inbox[i], w.items[i], Notes(start, Begin(generation), moves, json).posts, json)
    {
      assert Genuine(w.items[i], w.archive);
      ItemTells(w.items[i], w, Notes(start, Begin(generation), moves, json), json);
    }
  }
}
