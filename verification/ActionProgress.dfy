/**
 What the lock gives the requests that run under it: nobody's calls come between a request's own,
 and every request comes to its end.
 */
module ActionProgress {
  import opened Actions
  import opened ActionRuns
  import L = LockTable

  lemma {:induction false} TableStaysSound(w: World, moves: seq<Move>)
    requires L.Inv(w.table)
    ensures L.Inv(Travel(w, moves).table)
    decreases |moves|
  {
    if moves != [] {
      TableKeeps(w, moves[0]);
      TableStaysSound(Next(w, moves[0]), moves[1..]);
    }
  }

  lemma {:induction false} StaysInStep(w: World, moves: seq<Move>)
    requires JobsInv(w)
    ensures JobsInv(Travel(w, moves))
    decreases |moves|
  {
    if moves != [] {
      JobsKeep(w, moves[0]);
      StaysInStep(Next(w, moves[0]), moves[1..]);
    }
  }

  lemma RunsAreSound(vms: map<string, Vm>, moves: seq<Move>)
    ensures var w := Travel(Begin(vms), moves); L.Inv(w.table) && JobsInv(w)
  {
    TableStaysSound(Begin(vms), moves);
    StaysInStep(Begin(vms), moves);
  }

  // ----- Undivided calls

  /** The request has made its first call and not yet its last. */
  ghost predicate AtWork(w: World, t: nat) {
    t in w.jobs && w.jobs[t].calls != [] && !w.jobs[t].pc.Finished?
  }

  lemma WorkerHolds(w: World, t: nat)
    requires JobsInv(w) && AtWork(w, t)
    ensures t in w.table.threads && w.table.threads[t].Holding?
    ensures w.table.threads[t].key == w.jobs[t].request.key
  {
    assert InStep(w.jobs[t], PhaseOf(w, t));
  }

  lemma CallerHolds(w: World, t: nat)
    requires JobsInv(w) && Possible(w, Invoke(t))
    ensures w.table.threads[t].Holding? && w.table.threads[t].key == w.jobs[t].request.key
  {
    assert InStep(w.jobs[t], PhaseOf(w, t));
  }

  /** Whatever changes from outside: of all requests on a VM, at most one is between its first and its last call. */
  lemma OneAtWork(vms: map<string, Vm>, moves: seq<Move>, t: nat, u: nat)
    ensures var w := Travel(Begin(vms), moves);
            AtWork(w, t) && AtWork(w, u) && w.jobs[t].request.key == w.jobs[u].request.key ==> t == u
  {
    var w := Travel(Begin(vms), moves);
    RunsAreSound(vms, moves);
    if AtWork(w, t) && AtWork(w, u) && w.jobs[t].request.key == w.jobs[u].request.key {
      WorkerHolds(w, t);
      WorkerHolds(w, u);
      OneHolder(w, t, u);
    }
  }

  /** Between a request's first call and its last, nothing reaches its VM but its own calls and outside changes. */
  lemma CallsAreUndivided(vms: map<string, Vm>, moves: seq<Move>, m: Move, t: nat)
    ensures var w := Travel(Begin(vms), moves);
            AtWork(w, t) && m != Invoke(t) && !(m.Outside? && m.key == w.jobs[t].request.key) ==>
              var key := w.jobs[t].request.key;
              key in w.traces && key in Next(w, m).traces && Next(w, m).traces[key] == w.traces[key]
  {
    var w := Travel(Begin(vms), moves);
    RunsAreSound(vms, moves);
    if AtWork(w, t) && m.Invoke? && Possible(w, m) && w.jobs[m.t].request.key == w.jobs[t].request.key {
      WorkerHolds(w, t);
      CallerHolds(w, m.t);
      OneHolder(w, t, m.t);
    }
  }

  // ----- Coming to an end

  /** The requests that have at least `n` calls left. */
  ghost function Behind(jobs: map<nat, Job>, n: nat): set<nat> {
    set t | t in jobs && CallsLeft(jobs[t].pc) >= n
  }

  /** Moves left before every request is over and the table empty, if nobody asks again. */
  ghost function Burden(w: World): nat {
    L.Work(w.table)
    + |Behind(w.jobs, 1)| + |Behind(w.jobs, 2)| + |Behind(w.jobs, 3)| + |Behind(w.jobs, 4)|
  }

  lemma BehindMoves(jobs: map<nat, Job>, t: nat, job: Job, n: nat)
    requires t in jobs
    ensures |Behind(jobs[t := job], n)| - Bit(CallsLeft(job.pc) >= n) ==
            |Behind(jobs, n)| - Bit(CallsLeft(jobs[t].pc) >= n)
  {
    var jobs' := jobs[t := job];
    L.CountWithout(Behind(jobs, n), t);
    L.CountWithout(Behind(jobs', n), t);
    forall u | u != t
      ensures u in Behind(jobs', n) <==> u in Behind(jobs, n)
    {
      assert u in jobs' <==> u in jobs;
      assert u in jobs ==> jobs'[u] == jobs[u];
    }
    assert Behind(jobs', n) - {t} == Behind(jobs, n) - {t};
  }

  lemma CallsFall(jobs: map<nat, Job>, t: nat, job: Job)
    requires t in jobs && CallsLeft(job.pc) <= CallsLeft(jobs[t].pc) <= 4
    ensures var jobs' := jobs[t := job];
            |Behind(jobs', 1)| + |Behind(jobs', 2)| + |Behind(jobs', 3)| + |Behind(jobs', 4)| ==
            |Behind(jobs, 1)| + |Behind(jobs, 2)| + |Behind(jobs, 3)| + |Behind(jobs, 4)|
            + CallsLeft(job.pc) - CallsLeft(jobs[t].pc)
  {
    BehindMoves(jobs, t, job, 1);
    BehindMoves(jobs, t, job, 2);
    BehindMoves(jobs, t, job, 3);
    BehindMoves(jobs, t, job, 4);
  }

  lemma AnswersLeaveFewer(kind: Kind, pc: Pc, reply: Reply)
    requires Fits(pc, reply)
    ensures CallsLeft(Advance(kind, pc, reply)) < CallsLeft(pc) <= 4
  {
  }

  /** A move that a request makes: neither a new request, nor something that happens to it. */
  predicate Own(m: Move) {
    m.Take? || m.GiveUp? || m.Invoke? || m.Return? || m.Release?
  }

  lemma BurdenFalls(w: World, m: Move)
    requires Possible(w, m) && !m.Ask?
    ensures Burden(Next(w, m)) <= Burden(w) - Bit(Own(m))
  {
    match m
    case Take(t) => L.WorkShrinks(w.table, L.Take(t));
    case GiveUp(t) =>
      L.WorkShrinks(w.table, L.GiveUp(t));
      CallsFall(w.jobs, t, Next(w, m).jobs[t]);
    case Invoke(t) =>
      var job := w.jobs[t];
      AnswersLeaveFewer(
        job.request.kind, job.pc, Perform(job.request, t in w.lapsed, job.pc, Now(w, job.request.key)).1);
      CallsFall(w.jobs, t, Invoked(w, t).jobs[t]);
    case Return(t) => L.WorkShrinks(w.table, L.Return(t));
    case Release(t) => L.WorkShrinks(w.table, L.Release(t));
    case Lapse(_) | Outside(_, _) =>
  }

  ghost predicate AllPossible(w: World, moves: seq<Move>)
    decreases |moves|
  {
    moves == [] || (!moves[0].Ask? && Possible(w, moves[0]) && AllPossible(Next(w, moves[0]), moves[1..]))
  }

  function OwnMoves(moves: seq<Move>): nat {
    if moves == [] then 0 else (if Own(moves[0]) then 1 else 0) + OwnMoves(moves[1..])
  }

  /** The move that a request makes next by itself. */
  ghost function NextMove(w: World, t: nat): Move
    requires t in w.table.threads && t in w.jobs
  {
    match w.table.threads[t]
    case Waiting(_, _, _) => Move.Take(t)
    case Holding(_, _) => if w.jobs[t].pc.Finished? then Move.Return(t) else Invoke(t)
    case Leaving(_, _) => Move.Release(t)
  }

  lemma CanMove(w: World, t: nat)
    requires t in w.table.threads && t in w.jobs && Tracked(w, w.jobs[t].request.key)
    requires L.Enabled(w.table, L.Helper(w.table, t))
    ensures Own(NextMove(w, t)) && Possible(w, NextMove(w, t))
  {
  }

  /** While any request is in flight, some request can move. */
  lemma SomeoneMoves(w: World)
    requires L.Inv(w.table) && JobsInv(w) && w.table.threads != map[]
    ensures exists m :: Own(m) && Possible(w, m)
  {
    var t :| t in w.table.threads;
    L.NoDeadlock(w.table, t);
    var u :| u in w.table.threads && L.Enabled(w.table, L.Helper(w.table, u));
    CanMove(w, u);
  }

  lemma AllOver(w: World)
    requires L.Inv(w.table) && JobsInv(w)
    requires forall m :: Own(m) ==> !Possible(w, m)
    ensures w.table.threads == map[] && w.table.entries == map[]
    ensures forall t | t in w.jobs :: w.jobs[t].pc.Finished?
  {
    if w.table.threads != map[] {
      SomeoneMoves(w);
    } else {
      L.NothingLeft(w.table);
      forall t | t in w.jobs
        ensures w.jobs[t].pc.Finished?
      {
        assert InStep(w.jobs[t], PhaseOf(w, t));
      }
    }
  }

  lemma {:induction false} MovesRunOut(w: World, moves: seq<Move>)
    requires AllPossible(w, moves)
    ensures Burden(Travel(w, moves)) + OwnMoves(moves) <= Burden(w)
    decreases |moves|
  {
    if moves != [] {
      BurdenFalls(w, moves[0]);
      MovesRunOut(Next(w, moves[0]), moves[1..]);
    }
  }

  /**
   From any point on without new requests, whatever changes from outside and whichever contexts
   end: the requests make no more moves than they have calls and lock steps left, and once none
   can move, each of them is over and the table is empty.
   */
  lemma RequestsEnd(vms: map<string, Vm>, before: seq<Move>, after: seq<Move>)
    requires AllPossible(Travel(Begin(vms), before), after)
    ensures var w := Travel(Begin(vms), before);
            var w' := Travel(w, after);
            && OwnMoves(after) <= Burden(w)
            && ((forall m :: Own(m) ==> !Possible(w', m)) ==>
                  && w'.table.threads == map[] && w'.table.entries == map[]
                  && forall t | t in w'.jobs :: w'.jobs[t].pc.Finished?)
  {
    var w := Travel(Begin(vms), before);
    var w' := Travel(w, after);
    MovesRunOut(w, after);
    RunsAreSound(vms, before);
    TableStaysSound(w, after);
    StaysInStep(w, after);
    if forall m :: Own(m) ==> !Possible(w', m) {
      AllOver(w');
    }
  }
}
