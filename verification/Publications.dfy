/**
 What the broker's operations come to, said without the operations: which notices the log holds is
 read off the actions of a run alone, and cancelling and closing are described field by field.
 */
module Publications {
  import opened Decimal
  import opened Cursors
  import opened Brokers
  import opened BrokerRuns

  /** A notice and the time at which it was published. */
  datatype Post = Post(notice: Notice, now: int)

  /** The notices that a run publishes: those before it closes the broker, as long as the counter lasts. */
  function Posted<K>(actions: seq<Action<K>>, open: bool, count: nat): seq<Post> {
    if actions == [] then []
    else
      match actions[0]
      case Publish(notice, now) =>
        if open && count + 1 < 0x1_0000_0000_0000_0000
        then [Post(notice, now)] + Posted(actions[1..], open, count + 1)
        else Posted(actions[1..], open, count)
      case Close => Posted(actions[1..], false, count)
      case _ => Posted(actions[1..], open, count)
  }

  /** The event carries the notice, its time and its number. */
  ghost predicate Says(e: LifecycleEvent, post: Post, id: nat, generation: string) {
    && e.notice.name == post.notice.name && e.notice.uuid == post.notice.uuid
    && e.notice.event == post.notice.event && e.notice.detail == post.notice.detail
    && e.occurredAt == post.now
    && e.id == id && e.cursor == generation + ":" + FormatUint(id) && !e.streamReset
  }

  /** `after` holds what `before` holds, and then the posts. */
  ghost predicate Adds(
    before: seq<LifecycleEvent>, after: seq<LifecycleEvent>, posts: seq<Post>, generation: string)
  {
    && |after| == |before| + |posts|
    && (forall i | 0 <= i < |before| :: after[i] == before[i])
    && (forall i | 0 <= i < |posts| :: Says(after[|before| + i], posts[i], |before| + i + 1, generation))
  }

  ghost predicate Closes<K>(actions: seq<Action<K>>) {
    exists i :: 0 <= i < |actions| && actions[i].Close?
  }

  /** What one action adds to the log. */
  function PostOf<K>(a: Action<K>, open: bool, count: nat): seq<Post> {
    if a.Publish? && open && count + 1 < 0x1_0000_0000_0000_0000 then [Post(a.notice, a.now)] else []
  }

  lemma StepAdds<K(!new)>(r: Run<K>, a: Action<K>)
    requires Inv(r)
    ensures var r' := Apply(r, a);
            && r'.b.generation == r.b.generation
            && Adds(r.log, r'.log, PostOf(a, !r.b.closed, |r.log|), r.b.generation)
            && (r'.b.closed <==> r.b.closed || a.Close?)
  {
    if Enabled(r, a) {
      match a
      case Publish(_, _) =>
      case Subscribe(_, _, _) =>
      case Receive(_) =>
      case Cancel(_) =>
      case Close =>
    }
  }

  lemma AddsTwice(
    a: seq<LifecycleEvent>, b: seq<LifecycleEvent>, c: seq<LifecycleEvent>, p: seq<Post>, q: seq<Post>,
    generation: string)
    requires Adds(a, b, p, generation) && Adds(b, c, q, generation)
    ensures Adds(a, c, p + q, generation)
  {
    forall i | 0 <= i < |p + q|
      ensures Says(c[|a| + i], (p + q)[i], |a| + i + 1, generation)
    {
      if i < |p| {
        assert Says(b[|a| + i], p[i], |a| + i + 1, generation);
      } else {
        assert Says(c[|b| + (i - |p|)], q[i - |p|], |b| + (i - |p|) + 1, generation);
      }
    }
  }

  lemma ClosesFirst<K>(actions: seq<Action<K>>)
    requires actions != []
    ensures Closes(actions) <==> actions[0].Close? || Closes(actions[1..])
  {
    if Closes(actions[1..]) {
      var i :| 0 <= i < |actions| - 1 && actions[1..][i].Close?;
      assert actions[i + 1].Close?;
    }
    if Closes(actions) && !actions[0].Close? {
      var i :| 0 <= i < |actions| && actions[i].Close?;
      assert actions[1..][i - 1].Close?;
    }
  }

  lemma {:induction false} RunAdds<K(!new)>(r: Run<K>, actions: seq<Action<K>>)
    requires Inv(r)
    ensures var r' := Exec(r, actions);
            && Adds(r.log, r'.log, Posted(actions, !r.b.closed, |r.log|), r.b.generation)
            && r'.b.generation == r.b.generation
            && (r'.b.closed <==> r.b.closed || Closes(actions))
    decreases |actions|
  {
    if actions != [] {
      var a, rest := actions[0], actions[1..];
      var r1 := Apply(r, a);
      StepKeeps(r, a);
      StepAdds(r, a);
      RunAdds(r1, rest);
      var p, q := PostOf(a, !r.b.closed, |r.log|), Posted(rest, !r1.b.closed, |r1.log|);
      AddsTwice(r.log, r1.log, Exec(r1, rest).log, p, q, r.b.generation);
      assert Posted(actions, !r.b.closed, |r.log|) == p + q;
      ClosesFirst(actions);
    }
  }

  /**
   On every run, event i of the log is the i-th notice published before the broker was closed, with its
   name, UUID, event, detail and time; the counter is their number, the broker is closed exactly if the
   run closes it, and the replay window holds the last 256 of them.
   */
  lemma EventsSayWhatWasPublished<K(!new)>(generation: string, actions: seq<Action<K>>)
    requires ':' !in generation
    ensures var r := Exec(Start(generation), actions);
            var posts := Posted(actions, true, 0);
            && |r.log| == r.b.nextID == |posts|
            && (forall i | 0 <= i < |posts| :: Says(r.log[i], posts[i], i + 1, generation))
            && (r.b.closed <==> Closes(actions))
            && |r.b.history| == (if |posts| > 256 then 256 else |posts|)
            && forall j | 0 <= j < |r.b.history| ::
                 var i := |posts| - |r.b.history| + j; Says(r.b.history[j], posts[i], i + 1, generation)
  {
    ExecKeeps(Start(generation), actions);
    RunAdds(Start(generation), actions);
    var r := Exec(Start<K>(generation), actions);
    var posts := Posted(actions, true, 0);
    forall i | 0 <= i < |posts|
      ensures Says(r.log[i], posts[i], i + 1, generation)
    {
      assert Says(r.log[0 + i], posts[i], 0 + i + 1, generation);
    }
    WindowShape(r.log);
  }

  // ----- Cancelling and closing

  /** Nobody but `k` notices anything. */
  ghost predicate OthersKeep<K(!new)>(r: Run<K>, r': Run<K>, k: K) {
    && r'.b.nextID == r.b.nextID && r'.b.history == r.b.history && r'.log == r.log
    && r'.b.closed == r.b.closed && r'.b.generation == r.b.generation
    && r'.b.channels.Keys == r.b.channels.Keys
    && (forall k' | k' in r.b.channels && k' != k ::
          r'.b.channels[k'] == r.b.channels[k'] && (k' in r'.b.subscribers <==> k' in r.b.subscribers))
  }

  /**
   Cancelling a registered subscriber unregisters it and closes its channel, with what is queued in
   it; whatever follows, it stays so and nothing more is sent to it. Nobody else notices. A cancellation
   of any other channel changes nothing.
   */
  lemma CancelTakesEffect<K(!new)>(generation: string, before: seq<Action<K>>, k: K, after: seq<Action<K>>)
    requires ':' !in generation
    requires k in Exec(Start(generation), before).b.channels
    ensures var r := Exec(Start(generation), before);
            var r' := Apply(r, Action.Cancel(k));
            var end := Exec(r', after);
            && OthersKeep(r, r', k)
            && k !in r'.b.subscribers && r'.b.channels[k].closed
            && r'.b.channels[k].queue == r.b.channels[k].queue
            && r'.b.channels[k].capacity == r.b.channels[k].capacity
            && (k !in r.b.subscribers ==> r' == r)
            && k !in end.b.subscribers && k in end.b.channels && end.b.channels[k].closed
            && SameStream(r', end, k)
  {
    var r := Exec(Start<K>(generation), before);
    ExecKeeps(Start(generation), before);
    StepKeeps(r, Action.Cancel(k));
    assert ChannelInv(r.feeds[k], r.b.channels[k], k in r.b.subscribers, r.log, r.b.generation);
    Settled(Apply(r, Action.Cancel(k)), after);
    StaysOut(Apply(r, Action.Cancel(k)), after, k);
  }

  /** Closing a broker closes it: nobody is subscribed, every channel is closed with what is queued in it. */
  lemma CloseTakesEffect<K(!new)>(generation: string, before: seq<Action<K>>)
    requires ':' !in generation
    ensures var r := Exec(Start(generation), before);
            var r' := Apply(r, Action.Close);
            && r'.b.closed && r'.b.subscribers == {}
            && r'.b.nextID == r.b.nextID && r'.b.history == r.b.history && r'.log == r.log
            && r'.b.channels.Keys == r.b.channels.Keys
            && forall k | k in r.b.channels ::
                 && r'.b.channels[k].closed && r'.b.channels[k].queue == r.b.channels[k].queue
                 && r'.b.channels[k].capacity == r.b.channels[k].capacity
  {
    var r := Exec(Start<K>(generation), before);
    ExecKeeps(Start(generation), before);
    forall k | k in r.b.channels
      ensures !r.b.channels[k].closed <==> k in r.b.subscribers
    {
      assert ChannelInv(r.feeds[k], r.b.channels[k], k in r.b.subscribers, r.log, r.b.generation);
    }
  }

  /**
   A new subscription of an open broker is registered and open, and holds the marker that says that
   there is no replay, dated now, or else the log after the cursor; nobody else notices.
   */
  lemma SubscribeTakesEffect<K(!new)>(generation: string, before: seq<Action<K>>, k: K, cursor: string, now: int)
    requires ':' !in generation
    requires var r := Exec(Start<K>(generation), before); k !in r.b.channels
    ensures var r := Exec(Start<K>(generation), before);
            var r' := Apply(r, Action.Subscribe(k, cursor, now));
            var n := r.b.nextID;
            var (after, unreplayable) := AfterCursor(generation, n, cursor);
            && k in r'.b.channels && r'.b.channels[k].capacity == |r.b.history| + 33
            && (r.b.closed ==>
                  k !in r'.b.subscribers && r'.b.channels[k].closed && r'.b.channels[k].queue == [])
            && (!r.b.closed ==>
                  && k in r'.b.subscribers && !r'.b.channels[k].closed && after <= n == |r.log|
                  && r'.b.channels[k].queue ==
                     if unreplayable || after + 256 < n
                     then [LifecycleEvent(n, generation + ":" + FormatUint(n), now, Notice("", "", "", 0), true)]
                     else r.log[after..])
  {
    var r := Exec(Start<K>(generation), before);
    ExecKeeps(Start(generation), before);
    RunAdds(Start(generation), before);
    ReplayExactly(r, cursor, now);
  }
}
