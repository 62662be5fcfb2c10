/**
 Which requests act and what they then report, on every run with outside changes and contexts that
 end: read off the VM's trace at the request's own calls.
 */
module ActionReports {
  import opened Wrappers
  import opened Errors
  import opened Actions
  import opened ActionRuns

  // ----- What a success reports

  /** The state in which the request found the VM when it read it before acting. */
  ghost predicate ReadBefore(job: Job, trace: seq<Vm>, state: VmState) {
    exists i :: 0 <= i < |job.calls| && job.calls[i].pc.ReadState?
      && job.began <= job.calls[i].at < |trace| && trace[job.calls[i].at].state == state
  }

  lemma SawIsRead(job: Job, trace: seq<Vm>, state: VmState)
    requires TrueAnswers(job, trace) && Saw(job.calls, state)
    ensures ReadBefore(job, trace, state)
  {
    var i :| 0 <= i < |job.calls| && job.calls[i].pc.ReadState? && job.calls[i].reply == State(state);
    assert TrueAnswer(job.request, job.began, job.calls[i], trace);
  }

  ghost predicate ReportsTruly(job: Job, trace: seq<Vm>, state: VmState) {
    match job.request.kind
    case Start | Resume | Reset => state == VmState.Running
    case Stop => state == VmState.Shutoff
    case Pause => state == VmState.Paused
    case Reboot => ReadBefore(job, trace, state)
    case Shutdown =>
      && job.calls != []
      && var last := job.calls[|job.calls| - 1];
         && last.pc.Reread? && job.began <= last.at < |trace|
         && if job.request.faults.reread.None? then state == trace[last.at].state else ReadBefore(job, trace, state)
    case _ => state == VmState.NoState
  }

  lemma ReportsAreTrue(job: Job, trace: seq<Vm>, state: VmState)
    requires TrueAnswers(job, trace) && Reports(job.request.kind, job.calls, state)
    ensures ReportsTruly(job, trace, state)
  {
    forall s | Saw(job.calls, s)
      ensures ReadBefore(job, trace, s)
    {
      SawIsRead(job, trace, s);
    }
    if job.request.kind.Shutdown? {
      assert TrueAnswer(job.request, job.began, job.calls[|job.calls| - 1], trace);
    }
  }

  /**
   A successful Shutdown reports the state in which its last call found the VM, or, if that read
   failed, the one it found before it asked for the shutdown; a Reboot reports the one it found
   before; the others report a fixed state.
   */
  lemma SuccessesReport(vms: map<string, Vm>, moves: seq<Move>, t: nat)
    ensures var w := Travel(Begin(vms), moves);
            t in w.jobs && w.jobs[t].pc.Finished? && w.jobs[t].pc.outcome.Success? ==>
              && w.jobs[t].request.key in w.traces
              && ReportsTruly(w.jobs[t], w.traces[w.jobs[t].request.key], w.jobs[t].pc.outcome.state)
  {
    var w := Travel(Begin(vms), moves);
    EveryRun(vms, moves, t);
    if t in w.jobs && w.jobs[t].pc.Finished? && w.jobs[t].pc.outcome.Success? {
      ReportsAreTrue(w.jobs[t], w.traces[w.jobs[t].request.key], w.jobs[t].pc.outcome.state);
    }
  }

  // ----- Which requests do not act

  /** Why a call ended a request before it acted: the call failed, or the VM or the context ruled the operation out. */
  ghost predicate RulesOut(request: Request, lapsed: bool, pc: Pc, vm: Vm) {
    var f := request.faults;
    match pc
    case CheckActive => f.check.Some? || vm.active == request.kind.Start?
    case ReadState =>
      f.read.Some? || (request.kind.Pause? && vm.state.Paused?) || (request.kind.Resume? && !vm.state.Paused?)
    case FindSnapshot => f.find.Some? || (IsSnapshot(request.kind) && request.kind.name !in vm.snapshots)
    case CheckContext => lapsed
    case _ => false
  }

  /** The request was given up while it waited, or its last call ended it before it acted. */
  ghost predicate Excused(job: Job, trace: seq<Vm>, lapsed: bool) {
    if job.calls == [] then IsSnapshot(job.request.kind) && lapsed
    else
      var last := job.calls[|job.calls| - 1];
      last.at < |trace| && RulesOut(job.request, lapsed, last.pc, trace[last.at])
  }

  lemma LastCallExcuses(job: Job, trace: seq<Vm>, lapsed: bool)
    requires OutcomeInv(job, trace) && job.pc.Finished? && NeverActed(job.calls) && job.calls != []
    requires job.pc == Fail(Cancelled, ContextEnded) ==> lapsed
    ensures Excused(job, trace, lapsed)
  {
    assert TrueAnswer(job.request, job.began, job.calls[|job.calls| - 1], trace);
  }

  /**
   A finished request acted, unless its context had ended, or a call before failed, or found the VM
   in a state that rules the operation out, or without the snapshot. So a revert or deletion that
   found its snapshot, without a failure, for a caller still there, is carried to the hypervisor.
   */
  lemma ActsUnlessExcused(vms: map<string, Vm>, moves: seq<Move>, t: nat)
    ensures var w := Travel(Begin(vms), moves);
            t in w.jobs && w.jobs[t].pc.Finished? && NeverActed(w.jobs[t].calls) ==>
              && w.jobs[t].request.key in w.traces
              && Excused(w.jobs[t], w.traces[w.jobs[t].request.key], t in w.lapsed)
  {
    var w := Travel(Begin(vms), moves);
    EveryRun(vms, moves, t);
    OnlyTheLateAreCancelled(vms, moves, t);
    if t in w.jobs && w.jobs[t].pc.Finished? && NeverActed(w.jobs[t].calls) && w.jobs[t].calls != [] {
      LastCallExcuses(w.jobs[t], w.traces[w.jobs[t].request.key], t in w.lapsed);
    }
  }
}
