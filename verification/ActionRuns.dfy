/**
 Runs of many requests against many VMs: every request takes the lock of its VM, makes its
 calls one at a time and lets go, interleaved in any order with the other requests and with
 changes from outside.
 */
module ActionRuns {
  import opened Wrappers
  import opened Errors
  import opened Actions
  import L = LockTable

  /** One call, its answer, and the place in the VM's trace where it was answered. */
  datatype Call = Call(pc: Pc, reply: Reply, at: nat)

  /**
   `began` is where its VM's trace stood when the request came, `heard` whether its context had
   ended when it looked again.
   */
  datatype Job = Job(request: Request, pc: Pc, began: nat, calls: seq<Call>, heard: Option<bool>)

  datatype Turn = Turn(t: nat, request: Request)

  /**
   `lapsed` are the threads whose context has ended, `traces` holds every state each VM has been
   in, `order` the requests in the order they got their locks, `shifts` the activations minus
   deactivations that no Start or Stop made.
   */
  datatype World = World(
    table: L.Table<nat>,
    jobs: map<nat, Job>,
    lapsed: set<nat>,
    traces: map<string, seq<Vm>>,
    order: seq<Turn>,
    shifts: map<string, int>)

  datatype Move =
    | Ask(t: nat, request: Request, spare: nat)
    | Take(t: nat)
    | Lapse(t: nat)
    | GiveUp(t: nat)
    | Invoke(t: nat)
    | Return(t: nat)
    | Release(t: nat)
    | Outside(key: string, vm: Vm)

  ghost function Begin(vms: map<string, Vm>): World {
    World(L.Empty(), map[], {}, map k | k in vms :: [vms[k]], [], map k | k in vms :: 0)
  }

  ghost predicate Tracked(w: World, key: string) {
    key in w.traces && w.traces[key] != [] && key in w.shifts
  }

  ghost function Now(w: World, key: string): Vm
    requires Tracked(w, key)
  {
    w.traces[key][|w.traces[key]| - 1]
  }

  ghost function Bit(b: bool): int {
    if b then 1 else 0
  }

  ghost predicate Possible(w: World, m: Move) {
    match m
    case Ask(t, request, spare) =>
      && t !in w.jobs && Tracked(w, request.key)
      && L.Enabled(w.table, L.Retain(t, request.key, IsSnapshot(request.kind), spare))
    case Take(t) => t in w.jobs && L.Enabled(w.table, L.Take(t))
    case Lapse(_) => true
    case GiveUp(t) => t in w.jobs && t in w.lapsed && L.Enabled(w.table, L.GiveUp(t))
    case Invoke(t) =>
      && t in w.jobs && t in w.table.threads && w.table.threads[t].Holding?
      && !w.jobs[t].pc.Finished? && Tracked(w, w.jobs[t].request.key)
    case Return(t) => t in w.jobs && w.jobs[t].pc.Finished? && L.Enabled(w.table, L.Return(t))
    case Release(t) => L.Enabled(w.table, L.Release(t))
    case Outside(key, _) => Tracked(w, key)
  }

  /** VM `key` becomes `vm`; `counts` is whether the change is one that `shifts` counts. */
  ghost function Become(w: World, key: string, vm: Vm, counts: bool): World
    requires Tracked(w, key)
  {
    w.(traces := w.traces[key := w.traces[key] + [vm]],
       shifts := if counts then w.shifts[key := w.shifts[key] + Bit(vm.active) - Bit(Now(w, key).active)]
                 else w.shifts)
  }

  /** A request after the answer to its call. */
  ghost function Answered(job: Job, reply: Reply, at: nat): Job
    requires Fits(job.pc, reply)
  {
    job.(pc := Advance(job.request.kind, job.pc, reply),
         calls := job.calls + [Call(job.pc, reply, at)],
         heard := if reply.Context? then Some(reply.done) else job.heard)
  }

  ghost function Invoked(w: World, t: nat): World
    requires Possible(w, Invoke(t))
  {
    var job := w.jobs[t];
    var (vm, reply) := Perform(job.request, t in w.lapsed, job.pc, Now(w, job.request.key));
    var at := |w.traces[job.request.key]| - 1;
    Become(w, job.request.key, vm, job.request.kind.RevertSnapshot?).(jobs := w.jobs[t := Answered(job, reply, at)])
  }

  ghost function Next(w: World, m: Move): World {
    if !Possible(w, m) then w
    else
      match m
      case Ask(t, request, spare) =>
        w.(table := L.Apply(w.table, L.Retain(t, request.key, IsSnapshot(request.kind), spare)),
           jobs := w.jobs[t := Job(request, First(request.kind), |w.traces[request.key]| - 1, [], None)])
      case Take(t) =>
        w.(table := L.Apply(w.table, L.Take(t)), order := w.order + [Turn(t, w.jobs[t].request)])
      case Lapse(t) => w.(lapsed := w.lapsed + {t})
      case GiveUp(t) =>
        w.(table := L.Apply(w.table, L.GiveUp(t)),
           jobs := w.jobs[t := w.jobs[t].(pc := Fail(Cancelled, ContextEnded))])
      case Invoke(t) => Invoked(w, t)
      case Return(t) => w.(table := L.Apply(w.table, L.Return(t)))
      case Release(t) => w.(table := L.Apply(w.table, L.Release(t)))
      case Outside(key, vm) => Become(w, key, vm, true)
  }

  ghost function Travel(w: World, moves: seq<Move>): World
    decreases |moves|
  {
    if moves == [] then w else Travel(Next(w, moves[0]), moves[1..])
  }

  // ----- What holds of every world

  ghost function PhaseOf(w: World, t: nat): Option<L.Phase<nat>> {
    if t in w.table.threads then Some(w.table.threads[t]) else None
  }

  /** The request has yet to look at its context again. */
  ghost predicate Unheard(job: Job) {
    job.pc.FindSnapshot? || job.pc.CheckContext?
  }

  /** A request's progress agrees with where its thread is. */
  ghost predicate InStep(job: Job, phase: Option<L.Phase<nat>>) {
    && Reachable(job.request.kind, job.pc)
    && (Unheard(job) ==> job.heard.None?)
    && match phase
       case None => job.pc.Finished?
       case Some(Waiting(key, _, cancellable)) =>
         && key == job.request.key && cancellable == IsSnapshot(job.request.kind)
         && job.pc == First(job.request.kind) && job.calls == []
       case Some(Holding(key, _)) => key == job.request.key
       case Some(Leaving(key, _)) => key == job.request.key && job.pc.Finished?
  }

  ghost predicate JobsInv(w: World) {
    && w.table.threads.Keys <= w.jobs.Keys
    && (forall k | k in w.traces :: Tracked(w, k))
    && (forall t | t in w.jobs :: Tracked(w, w.jobs[t].request.key))
    && (forall t | t in w.jobs :: InStep(w.jobs[t], PhaseOf(w, t)))
  }

  lemma InvokeInStep(w: World, u: nat, t: nat)
    requires Possible(w, Invoke(u)) && InStep(w.jobs[u], PhaseOf(w, u))
    requires t in w.jobs && InStep(w.jobs[t], PhaseOf(w, t))
    ensures InStep(Invoked(w, u).jobs[t], PhaseOf(Invoked(w, u), t))
  {
    var job := w.jobs[u];
    StaysReachable(
      job.request.kind, job.pc, Perform(job.request, u in w.lapsed, job.pc, Now(w, job.request.key)).1);
  }

  lemma QuietInStep(w: World, m: Move, t: nat)
    requires Possible(w, m) && !m.Invoke? && t in Next(w, m).jobs
    requires t in w.jobs ==> InStep(w.jobs[t], PhaseOf(w, t))
    ensures InStep(Next(w, m).jobs[t], PhaseOf(Next(w, m), t))
  {
    match m
    case Ask(_, request, _) => StaysReachable(request.kind, Act(NoState), Performed);
    case Take(_) =>
    case Lapse(_) =>
    case GiveUp(_) =>
    case Return(_) =>
    case Release(_) =>
    case Outside(_, _) =>
  }

  lemma JobKeepsStep(w: World, m: Move, t: nat)
    requires JobsInv(w) && Possible(w, m) && t in Next(w, m).jobs
    ensures InStep(Next(w, m).jobs[t], PhaseOf(Next(w, m), t))
  {
    assert t in w.jobs ==> InStep(w.jobs[t], PhaseOf(w, t));
    if m.Invoke? {
      assert InStep(w.jobs[m.t], PhaseOf(w, m.t));
      InvokeInStep(w, m.t, t);
    } else {
      QuietInStep(w, m, t);
    }
  }

  lemma KnownKeeps(w: World, m: Move)
    requires JobsInv(w) && Possible(w, m)
    ensures var w' := Next(w, m);
            && w'.table.threads.Keys <= w'.jobs.Keys
            && (forall k | k in w'.traces :: Tracked(w', k))
            && (forall t | t in w'.jobs :: Tracked(w', w'.jobs[t].request.key))
  {
    match m
    case Invoke(_) =>
    case Ask(_, request, _) =>
    case Take(_) =>
    case Lapse(_) =>
    case GiveUp(_) =>
    case Return(_) =>
    case Release(_) =>
    case Outside(_, _) =>
  }

  lemma JobsKeep(w: World, m: Move)
    requires JobsInv(w)
    ensures JobsInv(Next(w, m))
  {
    if Possible(w, m) {
      KnownKeeps(w, m);
      forall t | t in Next(w, m).jobs
        ensures InStep(Next(w, m).jobs[t], PhaseOf(Next(w, m), t))
      {
        JobKeepsStep(w, m, t);
      }
    }
  }

  lemma TableKeeps(w: World, m: Move)
    requires L.Inv(w.table)
    ensures L.Inv(Next(w, m).table)
  {
    if Possible(w, m) {
      match m
      case Ask(t, request, spare) =>
        L.StepKeeps(w.table, L.Retain(t, request.key, IsSnapshot(request.kind), spare));
      case Take(t) => L.StepKeeps(w.table, L.Take(t));
      case GiveUp(t) => L.StepKeeps(w.table, L.GiveUp(t));
      case Return(t) => L.StepKeeps(w.table, L.Return(t));
      case Release(t) => L.StepKeeps(w.table, L.Release(t));
      case Invoke(_) | Lapse(_) | Outside(_, _) =>
    }
  }

  /** One holder per VM. */
  lemma OneHolder(w: World, t: nat, u: nat)
    requires L.Inv(w.table)
    requires t in w.table.threads && u in w.table.threads
    requires w.table.threads[t].key == w.table.threads[u].key
    requires w.table.threads[t].Holding? && w.table.threads[u].Holding?
    ensures t == u
  {
    L.UserCounts(w.table, t);
    L.UserCounts(w.table, u);
    L.SetOfOne(t, u, L.Holders(w.table, w.table.threads[t].lock));
  }

  // ----- Truthful outcomes

  /** The operation itself was called and answered so. */
  ghost predicate Acted(calls: seq<Call>, reply: Reply) {
    exists i :: 0 <= i < |calls| && calls[i].pc.Act? && calls[i].reply == reply
  }

  ghost predicate NeverActed(calls: seq<Call>) {
    forall i | 0 <= i < |calls| :: !calls[i].pc.Act?
  }

  ghost predicate SomeFailed(calls: seq<Call>) {
    exists i :: 0 <= i < |calls| && calls[i].reply.Failed?
  }

  ghost predicate Told(calls: seq<Call>, reply: Reply) {
    exists i :: 0 <= i < |calls| && calls[i].reply == reply
  }

  ghost predicate ToldPaused(calls: seq<Call>, paused: bool) {
    exists i :: 0 <= i < |calls| && calls[i].reply.State? && calls[i].reply.state.Paused? == paused
  }

  ghost predicate ClaimedFailure(kind: Kind, calls: seq<Call>, detail: Detail, cause: Error) {
    match detail
    case AlreadyRunning => kind.Start? && Told(calls, Activity(true))
    case AlreadyStopped | IsStopped => !kind.Start? && Told(calls, Activity(false))
    case WrongState =>
      if cause.Wrapped? then
        NeverActed(calls) && (kind.Pause? || kind.Resume?) && ToldPaused(calls, kind.Pause?)
      else Acted(calls, Failed(OperationInvalid))
    case NoSuchSupport => exists c :: c in Unsupporting(kind) && Acted(calls, Failed(c))
    case Cancelled => IsSnapshot(kind) && NeverActed(calls)
    case _ => SomeFailed(calls)
  }

  /** The state was read before the operation. */
  ghost predicate Saw(calls: seq<Call>, state: VmState) {
    exists i :: 0 <= i < |calls| && calls[i].pc.ReadState? && calls[i].reply == State(state)
  }

  /** The state that a success reports, from the answers. */
  ghost predicate Reports(kind: Kind, calls: seq<Call>, state: VmState) {
    match kind
    case Start | Resume | Reset => state == VmState.Running
    case Stop => state == VmState.Shutoff
    case Pause => state == VmState.Paused
    case Reboot => Saw(calls, state)
    case Shutdown =>
      && calls != []
      && var last := calls[|calls| - 1];
         last.pc.Reread? && if last.reply.Failed? then Saw(calls, state) else last.reply == State(state)
    case _ => state == VmState.NoState
  }

  /** Whether the operation reports or passes on a state that it reads first. */
  predicate Reads(kind: Kind) {
    !IsSnapshot(kind) && !kind.Start? && !kind.Stop?
  }

  /** What must have been answered for an outcome. */
  ghost predicate Claimed(kind: Kind, calls: seq<Call>, outcome: Outcome) {
    match outcome
    case Success(state) =>
      && Acted(calls, Performed) && (kind.CreateSnapshot? ==> Told(calls, Described))
      && Reports(kind, calls, state)
    case Failure(e) =>
      && e.Wrapped?
      && ClaimedFailure(kind, calls, e.detail, e.cause)
      && if e.detail.Describing? then kind.CreateSnapshot? && Acted(calls, Performed)
         else !Acted(calls, Performed)
  }

  ghost predicate Evidence(job: Job) {
    match job.pc
    case Finished(outcome) => Claimed(job.request.kind, job.calls, outcome)
    case Recheck(code) => Acted(job.calls, Failed(code)) && !Acted(job.calls, Performed)
    case Reread(state) => Acted(job.calls, Performed) && Saw(job.calls, state)
    case Describe => Acted(job.calls, Performed)
    case Act(state) => NeverActed(job.calls) && (Reads(job.request.kind) ==> Saw(job.calls, state))
    case _ => NeverActed(job.calls)
  }

  lemma ActedGrows(calls: seq<Call>, call: Call)
    ensures forall r | Acted(calls, r) :: Acted(calls + [call], r)
    ensures forall r | Acted(calls + [call], r) :: Acted(calls, r) || (call.pc.Act? && call.reply == r)
    ensures call.pc.Act? ==> Acted(calls + [call], call.reply)
    ensures !call.pc.Act? && NeverActed(calls) ==> NeverActed(calls + [call])
    ensures NeverActed(calls) ==> forall r :: !Acted(calls, r)
  {
    var calls' := calls + [call];
    assert calls'[|calls|] == call;
    assert forall i | 0 <= i < |calls| :: calls'[i] == calls[i];
    forall r | Acted(calls, r)
      ensures Acted(calls', r)
    {
      var i :| 0 <= i < |calls| && calls[i].pc.Act? && calls[i].reply == r;
      assert calls'[i] == calls[i];
    }
  }

  lemma ToldNow(calls: seq<Call>, call: Call)
    ensures Told(calls + [call], call.reply)
    ensures call.reply.State? ==> ToldPaused(calls + [call], call.reply.state.Paused?)
    ensures call.reply.Failed? || SomeFailed(calls) ==> SomeFailed(calls + [call])
    ensures call.pc.ReadState? && call.reply.State? ==> Saw(calls + [call], call.reply.state)
    ensures forall state | Saw(calls, state) :: Saw(calls + [call], state)
  {
    var calls' := calls + [call];
    assert calls'[|calls|] == call;
    forall state | Saw(calls, state)
      ensures Saw(calls', state)
    {
      var i :| 0 <= i < |calls| && calls[i].pc.ReadState? && calls[i].reply == State(state);
      assert calls'[i] == calls[i];
    }
    if SomeFailed(calls) {
      var i :| 0 <= i < |calls| && calls[i].reply.Failed?;
      assert calls'[i] == calls[i];
    }
  }

  lemma FailedIsSome(calls: seq<Call>, c: Code)
    requires Acted(calls, Failed(c))
    ensures SomeFailed(calls)
  {
    var i :| 0 <= i < |calls| && calls[i].pc.Act? && calls[i].reply == Failed(c);
  }

  lemma LookIsEvidence(job: Job, reply: Reply, at: nat)
    requires Evidence(job) && Reachable(job.request.kind, job.pc) && Fits(job.pc, reply)
    requires !job.pc.Finished? && !job.pc.Act? && !job.pc.Recheck?
    ensures Evidence(Answered(job, reply, at))
  {
    ActedGrows(job.calls, Call(job.pc, reply, at));
    ToldNow(job.calls, Call(job.pc, reply, at));
  }

  lemma RecheckIsEvidence(job: Job, reply: Reply, at: nat)
    requires Evidence(job) && Reachable(job.request.kind, job.pc) && Fits(job.pc, reply) && job.pc.Recheck?
    ensures Evidence(Answered(job, reply, at))
  {
    ActedGrows(job.calls, Call(job.pc, reply, at));
    ToldNow(job.calls, Call(job.pc, reply, at));
    FailedIsSome(job.calls, job.pc.code);
  }

  lemma ActIsEvidence(job: Job, reply: Reply, at: nat)
    requires Evidence(job) && Reachable(job.request.kind, job.pc) && Fits(job.pc, reply) && job.pc.Act?
    ensures Evidence(Answered(job, reply, at))
  {
    ActedGrows(job.calls, Call(job.pc, reply, at));
    ToldNow(job.calls, Call(job.pc, reply, at));
  }

  /** Each answer is evidence for what the request does next. */
  lemma AnswerIsEvidence(job: Job, reply: Reply, at: nat)
    requires Evidence(job) && !job.pc.Finished? && Reachable(job.request.kind, job.pc) && Fits(job.pc, reply)
    ensures Evidence(Answered(job, reply, at))
  {
    if job.pc.Recheck? {
      RecheckIsEvidence(job, reply, at);
    } else if job.pc.Act? {
      ActIsEvidence(job, reply, at);
    } else {
      LookIsEvidence(job, reply, at);
    }
  }

  /** The call was made after the request came, of the VM as it then was, and left it as it was next. */
  ghost predicate TrueAnswer(request: Request, began: nat, call: Call, trace: seq<Vm>) {
    && began <= call.at < |trace| - 1 && !call.pc.Finished?
    && Perform(request, call.reply == Context(true), call.pc, trace[call.at]) == (trace[call.at + 1], call.reply)
  }

  ghost predicate TrueAnswers(job: Job, trace: seq<Vm>) {
    && job.began < |trace|
    && forall i | 0 <= i < |job.calls| :: TrueAnswer(job.request, job.began, job.calls[i], trace)
  }

  lemma AnswersLast(job: Job, trace: seq<Vm>, vm: Vm)
    requires TrueAnswers(job, trace)
    ensures TrueAnswers(job, trace + [vm])
  {
    forall i | 0 <= i < |job.calls|
      ensures TrueAnswer(job.request, job.began, job.calls[i], trace + [vm])
    {
      assert TrueAnswer(job.request, job.began, job.calls[i], trace);
    }
  }

  lemma AnswersGrow(job: Job, trace: seq<Vm>, ended: bool)
    requires TrueAnswers(job, trace) && !job.pc.Finished?
    ensures var (vm, reply) := Perform(job.request, ended, job.pc, trace[|trace| - 1]);
            TrueAnswers(Answered(job, reply, |trace| - 1), trace + [vm])
  {
    var (vm, reply) := Perform(job.request, ended, job.pc, trace[|trace| - 1]);
    AnswersLast(job, trace, vm);
    assert TrueAnswer(job.request, job.began, Call(job.pc, reply, |trace| - 1), trace + [vm]);
  }

  /** A finished request ended with its last answer, or was given up before its first call. */
  ghost predicate EndedBy(job: Job) {
    job.pc.Finished? ==>
      if job.calls == [] then job.pc == Fail(Cancelled, ContextEnded)
      else
        var last := job.calls[|job.calls| - 1];
        && Reachable(job.request.kind, last.pc) && Fits(last.pc, last.reply)
        && (last.pc.Act? || CallsLeft(last.pc) == 1 ==> !NeverActed(job.calls))
        && job.pc == Advance(job.request.kind, last.pc, last.reply)
  }

  ghost predicate OutcomeInv(job: Job, trace: seq<Vm>) {
    Evidence(job) && EndedBy(job) && TrueAnswers(job, trace)
  }

  ghost predicate OutcomesInv(w: World) {
    && (forall k | k in w.traces :: Tracked(w, k))
    && (forall t | t in w.jobs :: Tracked(w, w.jobs[t].request.key))
    && forall t | t in w.jobs :: OutcomeInv(w.jobs[t], w.traces[w.jobs[t].request.key])
  }

  lemma ActedStays(job: Job, reply: Reply, at: nat)
    requires Evidence(job) && (job.pc.Act? || CallsLeft(job.pc) == 1)
    ensures !NeverActed(job.calls + [Call(job.pc, reply, at)])
  {
    var calls, call := job.calls, Call(job.pc, reply, at);
    assert (calls + [call])[|calls|] == call;
    if !job.pc.Act? {
      var i :| 0 <= i < |calls| && calls[i].pc.Act?;
      assert (calls + [call])[i].pc.Act?;
    }
  }

  lemma InvokedOutcome(job: Job, trace: seq<Vm>, ended: bool)
    requires OutcomeInv(job, trace) && !job.pc.Finished? && Reachable(job.request.kind, job.pc)
    ensures var (vm, reply) := Perform(job.request, ended, job.pc, trace[|trace| - 1]);
            OutcomeInv(Answered(job, reply, |trace| - 1), trace + [vm])
  {
    if job.pc.Act? || CallsLeft(job.pc) == 1 {
      ActedStays(job, Perform(job.request, ended, job.pc, trace[|trace| - 1]).1, |trace| - 1);
    }
    AnswerIsEvidence(job, Perform(job.request, ended, job.pc, trace[|trace| - 1]).1, |trace| - 1);
    AnswersGrow(job, trace, ended);
  }

  ghost predicate HasOutcomeInv(w: World, t: nat) {
    t in w.jobs && w.jobs[t].request.key in w.traces && OutcomeInv(w.jobs[t], w.traces[w.jobs[t].request.key])
  }

  lemma OwnInvoke(w: World, t: nat)
    requires Possible(w, Invoke(t)) && HasOutcomeInv(w, t) && Reachable(w.jobs[t].request.kind, w.jobs[t].pc)
    ensures HasOutcomeInv(Invoked(w, t), t)
  {
    InvokedOutcome(w.jobs[t], w.traces[w.jobs[t].request.key], t in w.lapsed);
  }

  lemma OthersInvoke(w: World, u: nat, t: nat)
    requires Possible(w, Invoke(u)) && HasOutcomeInv(w, t) && t != u
    ensures HasOutcomeInv(Invoked(w, u), t)
  {
    var job, key := w.jobs[t], w.jobs[u].request.key;
    if key == job.request.key {
      AnswersLast(job, w.traces[key], Perform(w.jobs[u].request, u in w.lapsed, w.jobs[u].pc, Now(w, key)).0);
    }
  }

  lemma InvokeOutcome(w: World, u: nat, t: nat)
    requires JobsInv(w) && OutcomesInv(w) && Possible(w, Invoke(u)) && t in w.jobs
    ensures HasOutcomeInv(Invoked(w, u), t)
  {
    assert HasOutcomeInv(w, t) && InStep(w.jobs[t], PhaseOf(w, t));
    if u == t {
      OwnInvoke(w, t);
    } else {
      OthersInvoke(w, u, t);
    }
  }

  lemma OutsideOutcome(w: World, key: string, vm: Vm, t: nat)
    requires OutcomesInv(w) && Tracked(w, key) && t in w.jobs
    ensures HasOutcomeInv(Become(w, key, vm, true), t)
  {
    var job := w.jobs[t];
    assert OutcomeInv(job, w.traces[job.request.key]);
    if job.request.key == key {
      AnswersLast(job, w.traces[key], vm);
    }
  }

  /** Moves that call nothing leave each request as it was, start one, or give one up. */
  lemma QuietOutcome(w: World, m: Move, t: nat)
    requires JobsInv(w) && OutcomesInv(w) && Possible(w, m) && !m.Invoke? && !m.Outside?
    requires t in Next(w, m).jobs
    ensures HasOutcomeInv(Next(w, m), t)
  {
    if t in w.jobs {
      assert OutcomeInv(w.jobs[t], w.traces[w.jobs[t].request.key]) && InStep(w.jobs[t], PhaseOf(w, t));
    }
    match m
    case Ask(_, _, _) =>
    case GiveUp(_) =>
    case _ =>
  }

  lemma OutcomeKeeps(w: World, m: Move, t: nat)
    requires JobsInv(w) && OutcomesInv(w) && Possible(w, m) && t in Next(w, m).jobs
    ensures HasOutcomeInv(Next(w, m), t)
  {
    match m
    case Invoke(u) => InvokeOutcome(w, u, t);
    case Outside(key, vm) => OutsideOutcome(w, key, vm, t);
    case _ => QuietOutcome(w, m, t);
  }

  lemma StepKeeps(w: World, m: Move)
    requires JobsInv(w) && OutcomesInv(w)
    ensures JobsInv(Next(w, m)) && OutcomesInv(Next(w, m))
  {
    JobsKeep(w, m);
    if Possible(w, m) {
      forall t | t in Next(w, m).jobs
        ensures HasOutcomeInv(Next(w, m), t)
      {
        OutcomeKeeps(w, m, t);
      }
    }
  }

  lemma BeginsSound(vms: map<string, Vm>)
    ensures JobsInv(Begin(vms)) && OutcomesInv(Begin(vms))
  {
  }

  lemma {:induction false} RunKeeps(w: World, moves: seq<Move>)
    requires JobsInv(w) && OutcomesInv(w)
    ensures JobsInv(Travel(w, moves)) && OutcomesInv(Travel(w, moves))
    decreases |moves|
  {
    if moves != [] {
      StepKeeps(w, moves[0]);
      RunKeeps(Next(w, moves[0]), moves[1..]);
    }
  }

  /** Both invariants, on every run from the start. */
  lemma EveryRun(vms: map<string, Vm>, moves: seq<Move>, t: nat)
    ensures var w := Travel(Begin(vms), moves);
            t in w.jobs ==> HasOutcomeInv(w, t)
  {
    BeginsSound(vms);
    RunKeeps(Begin(vms), moves);
  }

  /** One of the request's own calls found the VM active, or not. */
  ghost predicate FoundActive(job: Job, trace: seq<Vm>, active: bool) {
    exists i :: 0 <= i < |job.calls| && job.began <= job.calls[i].at < |trace|
      && job.calls[i].reply == Activity(active) && trace[job.calls[i].at].active == active
  }

  ghost predicate FoundPaused(job: Job, trace: seq<Vm>, paused: bool) {
    exists i :: 0 <= i < |job.calls| && job.began <= job.calls[i].at < |trace|
      && job.calls[i].reply == State(trace[job.calls[i].at].state)
      && trace[job.calls[i].at].state.Paused? == paused
  }

  /** The request's own operation call took the VM from one state to the next. */
  ghost predicate CarriedOut(job: Job, trace: seq<Vm>) {
    exists i :: 0 <= i < |job.calls| && job.began <= job.calls[i].at < |trace| - 1
      && job.calls[i].pc.Act? && job.calls[i].reply.Performed?
      && Operate(job.request.kind, trace[job.calls[i].at]) == Some(trace[job.calls[i].at + 1])
  }

  ghost predicate JustifiedFailure(job: Job, trace: seq<Vm>, detail: Detail, cause: Error) {
    match detail
    case AlreadyRunning => job.request.kind.Start? && FoundActive(job, trace, true)
    case AlreadyStopped | IsStopped => !job.request.kind.Start? && FoundActive(job, trace, false)
    case WrongState =>
      if cause.Wrapped? then
        && NeverActed(job.calls)
        && (job.request.kind.Pause? || job.request.kind.Resume?)
        && FoundPaused(job, trace, job.request.kind.Pause?)
      else Acted(job.calls, Failed(OperationInvalid))
    case NoSuchSupport => exists c :: c in Unsupporting(job.request.kind) && Acted(job.calls, Failed(c))
    case Cancelled => IsSnapshot(job.request.kind) && NeverActed(job.calls)
    case _ => SomeFailed(job.calls)
  }

  /** What an outcome claims is so, of the VM at the moment of one of the request's own calls. */
  ghost predicate Justified(job: Job, trace: seq<Vm>, outcome: Outcome) {
    match outcome
    case Success(_) => CarriedOut(job, trace)
    case Failure(e) =>
      && e.Wrapped?
      && JustifiedFailure(job, trace, e.detail, e.cause)
      && if e.detail.Describing? then job.request.kind.CreateSnapshot? && CarriedOut(job, trace)
         else !Acted(job.calls, Performed)
  }

  lemma ToldIsFound(job: Job, trace: seq<Vm>, active: bool)
    requires TrueAnswers(job, trace) && Told(job.calls, Activity(active))
    ensures FoundActive(job, trace, active)
  {
    var i :| 0 <= i < |job.calls| && job.calls[i].reply == Activity(active);
    assert TrueAnswer(job.request, job.began, job.calls[i], trace);
  }

  lemma ToldIsFoundPaused(job: Job, trace: seq<Vm>, paused: bool)
    requires TrueAnswers(job, trace) && ToldPaused(job.calls, paused)
    ensures FoundPaused(job, trace, paused)
  {
    var i :| 0 <= i < |job.calls| && job.calls[i].reply.State? && job.calls[i].reply.state.Paused? == paused;
    assert TrueAnswer(job.request, job.began, job.calls[i], trace);
  }

  lemma PerformedIsCarriedOut(job: Job, trace: seq<Vm>)
    requires TrueAnswers(job, trace) && Acted(job.calls, Performed)
    ensures CarriedOut(job, trace)
  {
    var i :| 0 <= i < |job.calls| && job.calls[i].pc.Act? && job.calls[i].reply == Performed;
    assert TrueAnswer(job.request, job.began, job.calls[i], trace);
  }

  lemma ClaimedIsJustified(job: Job, trace: seq<Vm>, outcome: Outcome)
    requires TrueAnswers(job, trace) && Claimed(job.request.kind, job.calls, outcome)
    ensures Justified(job, trace, outcome)
  {
    forall a | Told(job.calls, Activity(a))
      ensures FoundActive(job, trace, a)
    {
      ToldIsFound(job, trace, a);
    }
    forall p | ToldPaused(job.calls, p)
      ensures FoundPaused(job, trace, p)
    {
      ToldIsFoundPaused(job, trace, p);
    }
    if Acted(job.calls, Performed) {
      PerformedIsCarriedOut(job, trace);
    }
  }

  /**
   With outside tools changing VMs between any two calls: a conflict is reported only if one of the
   request's own calls found the VM in the offending state or libvirt itself refused, a success only
   if the request's own operation call took the VM from one state to the next, and each failure gets
   the status its last answer calls for.
   */
  lemma OutcomesAreTruthful(vms: map<string, Vm>, moves: seq<Move>, t: nat)
    ensures var w := Travel(Begin(vms), moves);
            t in w.jobs && w.jobs[t].pc.Finished? ==>
              var job := w.jobs[t];
              && job.request.key in w.traces
              && Justified(job, w.traces[job.request.key], job.pc.outcome)
              && (job.pc.outcome.Failure? ==>
                    Status(job.pc.outcome.error) ==
                    if job.calls == [] then 503
                    else var last := job.calls[|job.calls| - 1];
                         ExpectedStatus(job.request.kind, last.pc, last.reply))
  {
    var w := Travel(Begin(vms), moves);
    EveryRun(vms, moves, t);
    if t in w.jobs && w.jobs[t].pc.Finished? {
      var job := w.jobs[t];
      ClaimedIsJustified(job, w.traces[job.request.key], job.pc.outcome);
      if job.pc.outcome.Failure? && job.calls != [] {
        var last := job.calls[|job.calls| - 1];
        StatusAsIntended(job.request.kind, last.pc, last.reply);
      }
    }
  }

  // ----- Failures that hide a change

  /**
   The creation of a snapshot that does not fail of itself, made while the VM has no snapshot of that
   name, for a request whose look at the description fails.
   */
  ghost predicate Hides(job: Job, trace: seq<Vm>) {
    && job.request.kind.CreateSnapshot?
    && job.request.faults.act.None? && job.request.faults.describe.Some?
    && exists i :: 0 <= i < |job.calls| && job.calls[i].pc.Act? && job.calls[i].at < |trace|
         && job.request.kind.name !in trace[job.calls[i].at].snapshots
  }

  /** The request's own operation call brought the snapshot about. */
  ghost predicate Appeared(job: Job, trace: seq<Vm>, name: string) {
    exists i :: 0 <= i < |job.calls| && job.began <= job.calls[i].at < |trace| - 1 && job.calls[i].pc.Act?
      && name !in trace[job.calls[i].at].snapshots && name in trace[job.calls[i].at + 1].snapshots
  }

  ghost predicate Undescribed(job: Job) {
    && job.pc.Finished? && job.pc.outcome.Failure?
    && job.pc.outcome.error.Wrapped? && job.pc.outcome.error.detail.Describing?
  }

  lemma UndescribedHides(job: Job, trace: seq<Vm>)
    requires OutcomeInv(job, trace) && Undescribed(job)
    ensures Hides(job, trace) && Appeared(job, trace, job.request.kind.name)
    ensures Status(job.pc.outcome.error) == 503
  {
    var last := job.calls[|job.calls| - 1];
    assert TrueAnswer(job.request, job.began, last, trace);
    assert last.pc.Describe? && job.pc == Fail(Describing, Libvirt(last.reply.code));
    StatusIsOfRoot(job.pc.outcome.error);
    assert Root(job.pc.outcome.error) == Root(job.pc.outcome.error.cause);
    var i :| 0 <= i < |job.calls| && job.calls[i].pc.Act? && job.calls[i].reply == Performed;
    assert TrueAnswer(job.request, job.began, job.calls[i], trace);
  }

  lemma ToldDescribed(job: Job, trace: seq<Vm>)
    requires TrueAnswers(job, trace)
    ensures Told(job.calls, Described) ==> job.request.faults.describe.None?
  {
    if Told(job.calls, Described) {
      var i :| 0 <= i < |job.calls| && job.calls[i].reply == Described;
      assert TrueAnswer(job.request, job.began, job.calls[i], trace);
    }
  }

  lemma HidesIsUndescribed(job: Job, trace: seq<Vm>)
    requires OutcomeInv(job, trace) && job.pc.Finished? && Hides(job, trace)
    ensures Undescribed(job) && Acted(job.calls, Performed)
  {
    var i :| 0 <= i < |job.calls| && job.calls[i].pc.Act? && job.calls[i].at < |trace|
      && job.request.kind.name !in trace[job.calls[i].at].snapshots;
    assert TrueAnswer(job.request, job.began, job.calls[i], trace);
    assert Acted(job.calls, Performed);
    ToldDescribed(job, trace);
  }

  /**
   On every run, a request fails although its operation was carried out exactly if it is the creation
   of a snapshot whose call does not fail and finds no snapshot of that name, but whose description
   cannot be read afterwards. Its caller is told 503, and the VM has the snapshot.
   */
  lemma FailedButDone(vms: map<string, Vm>, moves: seq<Move>, t: nat)
    ensures var w := Travel(Begin(vms), moves);
            t in w.jobs && w.jobs[t].pc.Finished? ==>
              var job := w.jobs[t];
              && job.request.key in w.traces
              && var trace := w.traces[job.request.key];
              && (job.pc.outcome.Failure? && Acted(job.calls, Performed) <==> Hides(job, trace))
              && (Hides(job, trace) ==>
                    && Undescribed(job) && Status(job.pc.outcome.error) == 503
                    && Appeared(job, trace, job.request.kind.name))
  {
    var w := Travel(Begin(vms), moves);
    EveryRun(vms, moves, t);
    if t in w.jobs && w.jobs[t].pc.Finished? {
      var job, trace := w.jobs[t], w.traces[w.jobs[t].request.key];
      if Hides(job, trace) {
        HidesIsUndescribed(job, trace);
      }
      if Undescribed(job) {
        UndescribedHides(job, trace);
      }
    }
  }

  // ----- A run on which that happens

  lemma TravelOn(w: World, m: Move, rest: seq<Move>)
    ensures Travel(w, [m] + rest) == Travel(Next(w, m), rest)
  {
    assert ([m] + rest)[1..] == rest;
  }

  /** Get the lock, make three calls, and let go of the VM. */
  ghost function ThreeCallRun(request: Request): seq<Move> {
    [Ask(0, request, 0)] + ([Move.Take(0)] + ([Invoke(0)] + ([Invoke(0)] + ([Invoke(0)]
    + ([Move.Return(0)] + ([Move.Release(0)] + []))))))
  }

  /** Waiting for and getting a lock that nobody else wants. */
  lemma GetsTheLock(w: World, request: Request)
    requires w.table == L.Empty() && w.jobs == map[] && Tracked(w, request.key)
    ensures var w' := Next(Next(w, Ask(0, request, 0)), Move.Take(0));
            && w'.jobs == map[0 := Job(request, First(request.kind), |w.traces[request.key]| - 1, [], None)]
            && w'.table == L.Table(map[request.key := 0], map[0 := L.Lock(request.key, 0, 1)],
                                   map[0 := L.Holding(request.key, 0)])
            && w'.traces == w.traces && w'.lapsed == w.lapsed && w'.shifts == w.shifts
  {
    assert w.table.entries == map[] && w.table.locks == map[] && w.table.threads == map[];
  }

  lemma LetsGo(w: World, request: Request)
    requires w.table == L.Table(map[request.key := 0], map[0 := L.Lock(request.key, 0, 1)],
                                map[0 := L.Holding(request.key, 0)])
    requires 0 in w.jobs && w.jobs[0].pc.Finished?
    ensures var w' := Next(Next(w, Move.Return(0)), Move.Release(0));
            && w'.table.threads == map[] && w'.table.entries == map[]
            && w'.jobs == w.jobs && w'.traces == w.traces && w'.shifts == w.shifts
  {
  }

  lemma MakesTheSnapshot(w: World, request: Request)
    requires Possible(w, Invoke(0)) && w.jobs[0].request == request && w.jobs[0].pc == CheckContext
    requires 0 !in w.lapsed && request.kind.CreateSnapshot?
    requires request.faults.act.None? && request.faults.describe.Some?
    requires request.kind.name !in Now(w, request.key).snapshots
    ensures var w' := Next(Next(Next(w, Invoke(0)), Invoke(0)), Invoke(0));
            && w'.table == w.table && Tracked(w', request.key)
            && 0 in w'.jobs && w'.jobs[0].pc == Fail(Describing, Libvirt(request.faults.describe.value))
            && Now(w', request.key) ==
               Now(w, request.key).(snapshots := Now(w, request.key).snapshots + {request.kind.name})
  {
    var w1 := Next(w, Invoke(0));
    assert w1.jobs[0].pc == Act(NoState) && Now(w1, request.key) == Now(w, request.key);
    var w2 := Next(w1, Invoke(0));
    assert w2.jobs[0].pc == Describe;
  }

  ghost predicate LeftBehind(w: World, request: Request)
    requires request.kind.CreateSnapshot? && request.faults.describe.Some?
  {
    && w.table.threads == map[] && w.table.entries == map[]
    && 0 in w.jobs && w.jobs[0].pc == Fail(Describing, Libvirt(request.faults.describe.value))
    && Tracked(w, request.key) && request.kind.name in Now(w, request.key).snapshots
  }

  lemma ThreeCallRunEnds(w: World, request: Request)
    ensures Travel(w, ThreeCallRun(request)) ==
            var w2 := Next(Next(w, Ask(0, request, 0)), Move.Take(0));
            var w5 := Next(Next(Next(w2, Invoke(0)), Invoke(0)), Invoke(0));
            Next(Next(w5, Move.Return(0)), Move.Release(0))
  {
    var w2 := Next(Next(w, Ask(0, request, 0)), Move.Take(0));
    var w3 := Next(w2, Invoke(0));
    var w5 := Next(Next(w3, Invoke(0)), Invoke(0));
    var end: seq<Move> := [Move.Return(0)] + ([Move.Release(0)] + []);
    TravelOn(w, Ask(0, request, 0), ThreeCallRun(request)[1..]);
    TravelOn(Next(w, Ask(0, request, 0)), Move.Take(0), [Invoke(0)] + ([Invoke(0)] + ([Invoke(0)] + end)));
    TravelOn(w2, Invoke(0), [Invoke(0)] + ([Invoke(0)] + end));
    TravelOn(w3, Invoke(0), [Invoke(0)] + end);
    TravelOn(Next(w3, Invoke(0)), Invoke(0), end);
    TravelOn(w5, Move.Return(0), [Move.Release(0)] + []);
    TravelOn(Next(w5, Move.Return(0)), Move.Release(0), []);
  }

  lemma CreatingRunLeavesBehind(w: World, request: Request)
    requires w.table == L.Empty() && w.jobs == map[] && 0 !in w.lapsed && Tracked(w, request.key)
    requires request.kind.CreateSnapshot? && request.kind.name !in Now(w, request.key).snapshots
    requires request.faults.act.None? && request.faults.describe.Some?
    ensures LeftBehind(Travel(w, ThreeCallRun(request)), request)
  {
    var w2 := Next(Next(w, Ask(0, request, 0)), Move.Take(0));
    GetsTheLock(w, request);
    MakesTheSnapshot(w2, request);
    LetsGo(Next(Next(Next(w2, Invoke(0)), Invoke(0)), Invoke(0)), request);
    ThreeCallRunEnds(w, request);
  }

  lemma CreatesOnlyNew(request: Request, ended: bool, vm: Vm)
    requires request.kind.CreateSnapshot? && request.kind.name in vm.snapshots
    ensures Alone(request, ended, vm).1.Failure?
  {
    if !ended {
      assert Alone(request, ended, vm) == Finish(request, ended, Act(NoState), vm);
    }
  }

  /**
   The request is over, has failed with 503 and nobody is at the VM, yet the VM has the snapshot;
   and asking again can only fail.
   */
  lemma SnapshotLeftBehind(vms: map<string, Vm>, request: Request)
    requires request.key in vms && request.kind.CreateSnapshot?
    requires request.kind.name !in vms[request.key].snapshots
    requires request.faults.act.None? && request.faults.describe.Some?
    ensures var w := Travel(Begin(vms), ThreeCallRun(request));
            && LeftBehind(w, request)
            && Status(w.jobs[0].pc.outcome.error) == 503
            && forall faults, ended ::
                 Alone(Request(request.key, request.kind, faults), ended, Now(w, request.key)).1.Failure?
  {
    var w := Travel(Begin(vms), ThreeCallRun(request));
    CreatingRunLeavesBehind(Begin(vms), request);
    StatusIsOfRoot(w.jobs[0].pc.outcome.error);
    assert Root(w.jobs[0].pc.outcome.error) == Libvirt(request.faults.describe.value);
    forall faults, ended
      ensures Alone(Request(request.key, request.kind, faults), ended, Now(w, request.key)).1.Failure?
    {
      CreatesOnlyNew(Request(request.key, request.kind, faults), ended, Now(w, request.key));
    }
  }

  // ----- Requests whose context ends

  /** Over without having touched the VM: cancelled, or the snapshot could not be looked up. */
  ghost predicate TurnedAway(outcome: Outcome) {
    && outcome.Failure? && outcome.error.Wrapped?
    && (outcome.error == Wrapped(Cancelled, ContextEnded) || outcome.error.detail.LookingUp?)
  }

  ghost predicate TooLate(w: World, t: nat) {
    && t in w.jobs && t in w.lapsed
    && NeverActed(w.jobs[t].calls)
    && (Unheard(w.jobs[t]) || (w.jobs[t].pc.Finished? && TurnedAway(w.jobs[t].pc.outcome)))
  }

  lemma StaysTooLate(w: World, m: Move, t: nat)
    requires TooLate(w, t)
    ensures TooLate(Next(w, m), t)
  {
    if Possible(w, m) {
      match m
      case Invoke(_) =>
      case Ask(_, _, _) =>
      case Take(_) =>
      case Lapse(_) =>
      case GiveUp(_) =>
      case Return(_) =>
      case Release(_) =>
      case Outside(_, _) =>
    }
  }

  lemma {:induction false} RunStaysTooLate(w: World, moves: seq<Move>, t: nat)
    requires TooLate(w, t)
    ensures TooLate(Travel(w, moves), t)
    decreases |moves|
  {
    if moves != [] {
      StaysTooLate(w, moves[0], t);
      RunStaysTooLate(Next(w, moves[0]), moves[1..], t);
    }
  }

  /**
   A context that ends while the request waits, looks its snapshot up, or is about to look at the
   context again: whatever happens then, the request never acts, and it ends turned away.
   */
  lemma LateNeverActs(vms: map<string, Vm>, before: seq<Move>, after: seq<Move>, t: nat)
    ensures var w := Travel(Begin(vms), before);
            var w' := Travel(w, after);
            t in w.jobs && t in w.lapsed && Unheard(w.jobs[t]) ==>
              && t in w'.jobs && NeverActed(w'.jobs[t].calls)
              && (w'.jobs[t].pc.Finished? ==> TurnedAway(w'.jobs[t].pc.outcome))
  {
    var w := Travel(Begin(vms), before);
    EveryRun(vms, before, t);
    if t in w.jobs && t in w.lapsed && Unheard(w.jobs[t]) {
      RunStaysTooLate(w, after, t);
    }
  }

  ghost predicate CancelledLapsed(w: World) {
    forall t | t in w.jobs && w.jobs[t].pc == Fail(Cancelled, ContextEnded) :: t in w.lapsed
  }

  lemma CancelledStaysLapsed(w: World, m: Move)
    requires CancelledLapsed(w)
    ensures CancelledLapsed(Next(w, m))
  {
  }

  lemma {:induction false} RunCancelsTheLate(w: World, moves: seq<Move>)
    requires CancelledLapsed(w)
    ensures CancelledLapsed(Travel(w, moves))
    decreases |moves|
  {
    if moves != [] {
      CancelledStaysLapsed(w, moves[0]);
      RunCancelsTheLate(Next(w, moves[0]), moves[1..]);
    }
  }

  /** Nobody is told of a cancellation whose context goes on, and nobody is after having acted. */
  lemma OnlyTheLateAreCancelled(vms: map<string, Vm>, moves: seq<Move>, t: nat)
    ensures var w := Travel(Begin(vms), moves);
            t in w.jobs && w.jobs[t].pc == Fail(Cancelled, ContextEnded) ==>
              t in w.lapsed && IsSnapshot(w.jobs[t].request.kind) && NeverActed(w.jobs[t].calls)
  {
    EveryRun(vms, moves, t);
    RunCancelsTheLate(Begin(vms), moves);
  }
}
