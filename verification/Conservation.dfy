/** Every activation of a VM is accounted for: by a Start that succeeded, or by something else. */
module Conservation {
  import opened Actions
  import opened ActionRuns

  ghost predicate Won(job: Job, kind: Kind, key: string) {
    job.request.key == key && job.request.kind == kind && job.pc.Finished? && job.pc.outcome.Success?
  }

  /** The requests of one kind on one VM that have succeeded. */
  ghost function Winners(jobs: map<nat, Job>, kind: Kind, key: string): set<nat> {
    set t | t in jobs && Won(jobs[t], kind, key)
  }

  ghost predicate Balanced(w: World, key: string)
    requires Tracked(w, key)
  {
    |Winners(w.jobs, Start, key)| - |Winners(w.jobs, Stop, key)| + w.shifts[key]
    == Bit(Now(w, key).active) - Bit(w.traces[key][0].active)
  }

  ghost predicate BalanceInv(w: World) {
    forall k | k in w.traces :: Tracked(w, k) && Balanced(w, k)
  }

  lemma WinnersReplace(jobs: map<nat, Job>, t: nat, job: Job, kind: Kind, key: string)
    requires t in jobs ==> !Won(jobs[t], kind, key)
    ensures |Winners(jobs[t := job], kind, key)| == |Winners(jobs, kind, key)| + Bit(Won(job, kind, key))
  {
    var jobs' := jobs[t := job];
    var before, after := Winners(jobs, kind, key), Winners(jobs', kind, key);
    forall u
      ensures u in after <==> u in before || (u == t && Won(job, kind, key))
    {
      if u == t {
        assert jobs'[u] == job;
      } else {
        assert u in jobs' <==> u in jobs;
        assert u in jobs ==> jobs'[u] == jobs[u];
      }
    }
    assert after == before + if Won(job, kind, key) then {t} else {};
    assert t !in before;
  }

  /** What one call does to the VM's activity, against what it does to the tally. */
  lemma CallBalances(request: Request, ended: bool, pc: Pc, vm: Vm)
    requires !pc.Finished? && Reachable(request.kind, pc)
    ensures var (vm', reply) := Perform(request, ended, pc, vm);
            var pc' := Advance(request.kind, pc, reply);
            var won := pc'.Finished? && pc'.outcome.Success?;
            !request.kind.RevertSnapshot? ==>
              Bit(vm'.active) - Bit(vm.active) ==
              if won && request.kind.Start? then 1 else if won && request.kind.Stop? then -1 else 0
  {
  }

  lemma InvokeBalances(w: World, t: nat, key: string)
    requires Possible(w, Invoke(t)) && Tracked(w, key) && Balanced(w, key)
    requires Reachable(w.jobs[t].request.kind, w.jobs[t].pc)
    ensures Tracked(Invoked(w, t), key) && Balanced(Invoked(w, t), key)
  {
    var job := w.jobs[t];
    var job' := Invoked(w, t).jobs[t];
    WinnersReplace(w.jobs, t, job', Start, key);
    WinnersReplace(w.jobs, t, job', Stop, key);
    CallBalances(job.request, t in w.lapsed, job.pc, Now(w, job.request.key));
  }

  lemma AskBalances(w: World, t: nat, request: Request, spare: nat, key: string)
    requires JobsInv(w) && Possible(w, Ask(t, request, spare)) && Tracked(w, key) && Balanced(w, key)
    ensures var w' := Next(w, Ask(t, request, spare)); Tracked(w', key) && Balanced(w', key)
  {
    var job := Next(w, Ask(t, request, spare)).jobs[t];
    WinnersReplace(w.jobs, t, job, Start, key);
    WinnersReplace(w.jobs, t, job, Stop, key);
  }

  lemma GiveUpBalances(w: World, t: nat, key: string)
    requires JobsInv(w) && Possible(w, GiveUp(t)) && Tracked(w, key) && Balanced(w, key)
    ensures var w' := Next(w, GiveUp(t)); Tracked(w', key) && Balanced(w', key)
  {
    assert InStep(w.jobs[t], PhaseOf(w, t));
    var job := Next(w, GiveUp(t)).jobs[t];
    WinnersReplace(w.jobs, t, job, Start, key);
    WinnersReplace(w.jobs, t, job, Stop, key);
  }

  lemma MoveBalances(w: World, m: Move, key: string)
    requires JobsInv(w) && Possible(w, m) && Tracked(w, key) && Balanced(w, key)
    ensures Tracked(Next(w, m), key) && Balanced(Next(w, m), key)
    ensures Next(w, m).traces[key][0] == w.traces[key][0]
  {
    match m
    case Invoke(t) =>
      assert InStep(w.jobs[t], PhaseOf(w, t));
      InvokeBalances(w, t, key);
    case Ask(t, request, spare) => AskBalances(w, t, request, spare, key);
    case GiveUp(t) => GiveUpBalances(w, t, key);
    case Take(_) =>
    case Lapse(_) =>
    case Return(_) =>
    case Release(_) =>
    case Outside(_, _) =>
  }

  lemma StepBalances(w: World, m: Move)
    requires JobsInv(w) && BalanceInv(w)
    ensures BalanceInv(Next(w, m)) && Next(w, m).traces.Keys == w.traces.Keys
    ensures forall k | k in w.traces :: Next(w, m).traces[k] != [] && Next(w, m).traces[k][0] == w.traces[k][0]
  {
    if Possible(w, m) {
      assert Next(w, m).traces.Keys == w.traces.Keys;
      forall k | k in w.traces
        ensures Tracked(Next(w, m), k) && Balanced(Next(w, m), k)
        ensures Next(w, m).traces[k][0] == w.traces[k][0]
      {
        assert Balanced(w, k);
        MoveBalances(w, m, k);
      }
    }
  }

  lemma {:induction false} RunBalances(w: World, moves: seq<Move>)
    requires JobsInv(w) && BalanceInv(w)
    ensures var w' := Travel(w, moves);
            && BalanceInv(w') && w'.traces.Keys == w.traces.Keys
            && forall k | k in w.traces :: w'.traces[k] != [] && w'.traces[k][0] == w.traces[k][0]
    decreases |moves|
  {
    if moves != [] {
      StepBalances(w, moves[0]);
      JobsKeep(w, moves[0]);
      RunBalances(Next(w, moves[0]), moves[1..]);
    }
  }

  /**
   On every run, with any outside changes and failures: successful Starts minus successful Stops,
   plus the net activations made by outside tools and snapshot reverts, is the net change of activity.
   */
  lemma ActivityIsConserved(vms: map<string, Vm>, moves: seq<Move>, key: string)
    requires key in vms
    ensures var w := Travel(Begin(vms), moves);
            && Tracked(w, key)
            && |Winners(w.jobs, Start, key)| - |Winners(w.jobs, Stop, key)| + w.shifts[key] ==
               Bit(Now(w, key).active) - Bit(vms[key].active)
  {
    var w := Begin(vms);
    forall k | k in w.traces
      ensures Tracked(w, k) && Balanced(w, k)
    {
      assert Winners(w.jobs, Start, k) == {} && Winners(w.jobs, Stop, k) == {};
    }
    RunBalances(w, moves);
  }
}
