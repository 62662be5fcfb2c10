/**
 Without outside changes, concurrent requests on a VM come out as if they had been made one
 at a time, in the order in which they got the VM's lock.
 */
module Serialization {
  import opened Wrappers
  import opened Errors
  import opened Actions
  import opened ActionRuns
  import L = LockTable

  // ----- One at a time

  datatype Serial = Serial(vms: map<string, Vm>, outcomes: map<nat, Outcome>)

  /** `late` are the requests whose context has ended by their re-check. */
  ghost function Alongside(s: Serial, turn: Turn, late: set<nat>): Serial {
    if turn.request.key !in s.vms then s
    else
      var (vm, outcome) := Alone(turn.request, turn.t in late, s.vms[turn.request.key]);
      Serial(s.vms[turn.request.key := vm], s.outcomes[turn.t := outcome])
  }

  /** Each request in turn, alone from start to end. */
  ghost function OneByOne(vms: map<string, Vm>, order: seq<Turn>, late: set<nat>): Serial {
    if order == [] then Serial(vms, map[])
    else Alongside(OneByOne(vms, order[..|order| - 1], late), order[|order| - 1], late)
  }

  /** The requests that found their context ended when they looked at it again. */
  ghost function Late(w: World): set<nat> {
    set t | t in w.jobs && w.jobs[t].heard == Some(true)
  }

  // ----- Interleaved

  /** What the last answer established still holds when the request acts on it, or asks again. */
  ghost predicate Ready(kind: Kind, pc: Pc, vm: Vm) {
    match pc
    case ReadState => vm.active
    case CheckContext => kind.CreateSnapshot? || HasNamed(kind, vm)
    case Act(read) =>
      || kind.CreateSnapshot?
      || (&& Operate(kind, vm).Some? && (kind.Pause? ==> !vm.state.Paused?)
          && (kind.Reset? || kind.Reboot? || kind.Shutdown? ==> read == vm.state))
    case Recheck(_) => vm.active == !kind.Start?
    case Reread(read) => read == vm.state
    case Describe => HasNamed(kind, vm)
    case _ => true
  }

  /** A request that is done with the VM has its serial outcome, unless it was given up while waiting. */
  ghost predicate Over(job: Job, t: nat, s: Serial) {
    && job.pc.Finished?
    && if t in s.outcomes then job.pc.outcome == s.outcomes[t]
       else IsSnapshot(job.request.kind) && job.pc == Fail(Cancelled, ContextEnded)
  }

  ghost predicate JobFollows(
    job: Job, t: nat, late: set<nat>, phase: Option<L.Phase<nat>>, vm: Vm, s: Serial)
    requires job.request.key in s.vms
  {
    match phase
    case Some(Waiting(_, _, _)) => t !in s.outcomes
    case Some(Holding(_, _)) =>
      && t in s.outcomes
      && Ready(job.request.kind, job.pc, vm)
      && Finish(job.request, t in late, job.pc, vm) == (s.vms[job.request.key], s.outcomes[t])
    case _ => Over(job, t, s)
  }

  ghost predicate Unheld(w: World, key: string) {
    forall t | t in w.table.threads :: !(w.table.threads[t].Holding? && w.table.threads[t].key == key)
  }

  ghost predicate JobHas(w: World, s: Serial, late: set<nat>, t: nat) {
    && t in w.jobs && w.jobs[t].request.key in s.vms && Tracked(w, w.jobs[t].request.key)
    && JobFollows(w.jobs[t], t, late, PhaseOf(w, t), Now(w, w.jobs[t].request.key), s)
  }

  ghost predicate VmHas(w: World, s: Serial, k: string) {
    k in s.vms && Tracked(w, k) && (Unheld(w, k) ==> Now(w, k) == s.vms[k])
  }

  ghost predicate Follows(w: World, s: Serial, late: set<nat>) {
    && s.vms.Keys == w.traces.Keys
    && (forall t | t in s.outcomes :: t in w.jobs)
    && (forall t | t in w.jobs :: JobHas(w, s, late, t))
    && (forall k | k in w.traces :: VmHas(w, s, k))
  }

  ghost predicate SerialInv(w: World, s: Serial, late: set<nat>) {
    L.Inv(w.table) && JobsInv(w) && Follows(w, s, late)
  }

  /** A request that looks at its context again finds it as `late` says. */
  ghost predicate Foretold(w: World, m: Move, late: set<nat>) {
    m.Invoke? && Possible(w, m) && w.jobs[m.t].pc.CheckContext? ==> (m.t in w.lapsed <==> m.t in late)
  }

  // ----- One holder per VM

  lemma TakerFindsItFree(w: World, t: nat)
    requires L.Inv(w.table) && JobsInv(w) && Possible(w, Take(t))
    ensures Unheld(w, w.jobs[t].request.key)
  {
    assert InStep(w.jobs[t], PhaseOf(w, t));
    L.UserCounts(w.table, t);
    forall u | u in w.table.threads && w.table.threads[u].Holding?
      ensures w.table.threads[u].key != w.table.threads[t].key
    {
      L.UserCounts(w.table, u);
    }
  }

  // ----- Each move

  /** Asking leaves the serial history alone; getting the lock adds a turn to it. */
  ghost function After(s: Serial, w: World, m: Move, late: set<nat>): Serial {
    if m.Take? && Possible(w, m) then Alongside(s, Turn(m.t, w.jobs[m.t].request), late) else s
  }

  /** What is asked of the VM is refused only to a snapshot creation, and only for a name that is taken. */
  ghost predicate NameTaken(kind: Kind, vm: Vm) {
    kind.CreateSnapshot? && kind.name in vm.snapshots
  }

  lemma CallFollows(request: Request, ended: bool, pc: Pc, vm: Vm)
    requires !pc.Finished? && Reachable(request.kind, pc) && Ready(request.kind, pc, vm)
    ensures var (vm', reply) := Perform(request, ended, pc, vm);
            var pc' := Advance(request.kind, pc, reply);
            && Ready(request.kind, pc', vm')
            && Finish(request, ended, pc', vm') == Finish(request, ended, pc, vm)
  {
  }

  lemma CallHolds(request: Request, ended: bool, pc: Pc, vm: Vm)
    requires !pc.Finished? && Reachable(request.kind, pc) && Ready(request.kind, pc, vm)
    ensures var reply := Perform(request, ended, pc, vm).1;
            && (pc.Recheck? ==> !Contradicts(request.kind, pc, reply))
            && (pc.Act? && request.faults.act.None? ==> (reply == Performed <==> !NameTaken(request.kind, vm)))
  {
  }

  ghost predicate Works(w: World, t: nat, key: string) {
    t in w.table.threads && w.table.threads[t].Holding? && w.table.threads[t].key == key
  }

  lemma InvokeJob(w: World, s: Serial, late: set<nat>, t: nat, u: nat)
    requires Possible(w, Invoke(t)) && InStep(w.jobs[t], PhaseOf(w, t)) && JobHas(w, s, late, t)
    requires JobHas(w, s, late, u) && InStep(w.jobs[u], PhaseOf(w, u))
    requires u != t ==> !Works(w, u, w.jobs[t].request.key)
    requires Foretold(w, Invoke(t), late)
    ensures JobHas(Invoked(w, t), s, late, u)
  {
    var job, vm := w.jobs[t], Now(w, w.jobs[t].request.key);
    if u == t {
      assert Perform(job.request, t in w.lapsed, job.pc, vm) == Perform(job.request, t in late, job.pc, vm);
      CallFollows(job.request, t in late, job.pc, vm);
    }
  }

  lemma NobodyElse(w: World, t: nat)
    requires L.Inv(w.table) && JobsInv(w) && Possible(w, Invoke(t))
    ensures forall u | u != t :: !Works(w, u, w.jobs[t].request.key)
  {
    assert InStep(w.jobs[t], PhaseOf(w, t));
    forall u | u != t
      ensures !Works(w, u, w.jobs[t].request.key)
    {
      if Works(w, u, w.jobs[t].request.key) {
        OneHolder(w, t, u);
      }
    }
  }

  lemma InvokeJobs(w: World, s: Serial, late: set<nat>, t: nat)
    requires JobsInv(w) && Follows(w, s, late) && Possible(w, Invoke(t)) && Foretold(w, Invoke(t), late)
    requires forall u | u != t :: !Works(w, u, w.jobs[t].request.key)
    ensures forall u | u in Invoked(w, t).jobs :: JobHas(Invoked(w, t), s, late, u)
  {
    assert InStep(w.jobs[t], PhaseOf(w, t)) && JobHas(w, s, late, t);
    forall u | u in Invoked(w, t).jobs
      ensures JobHas(Invoked(w, t), s, late, u)
    {
      assert JobHas(w, s, late, u) && InStep(w.jobs[u], PhaseOf(w, u));
      InvokeJob(w, s, late, t, u);
    }
  }

  lemma InvokeVm(w: World, s: Serial, t: nat, k: string)
    requires Possible(w, Invoke(t)) && VmHas(w, s, k) && Works(w, t, w.jobs[t].request.key)
    ensures VmHas(Invoked(w, t), s, k)
  {
    assert Works(Invoked(w, t), t, w.jobs[t].request.key);
  }

  lemma InvokeVms(w: World, s: Serial, late: set<nat>, t: nat)
    requires Follows(w, s, late) && Possible(w, Invoke(t)) && Works(w, t, w.jobs[t].request.key)
    ensures forall k | k in Invoked(w, t).traces :: VmHas(Invoked(w, t), s, k)
  {
    forall k | k in Invoked(w, t).traces
      ensures VmHas(Invoked(w, t), s, k)
    {
      assert VmHas(w, s, k);
      InvokeVm(w, s, t, k);
    }
  }

  lemma InvokeFollows(w: World, s: Serial, late: set<nat>, t: nat)
    requires JobsInv(w) && Follows(w, s, late) && Possible(w, Invoke(t)) && Foretold(w, Invoke(t), late)
    requires forall u | u != t :: !Works(w, u, w.jobs[t].request.key)
    ensures Follows(Invoked(w, t), s, late)
  {
    InvokeJobs(w, s, late, t);
    assert InStep(w.jobs[t], PhaseOf(w, t));
    InvokeVms(w, s, late, t);
  }

  lemma TakeJob(w: World, s: Serial, late: set<nat>, t: nat, u: nat)
    requires Possible(w, Take(t)) && InStep(w.jobs[t], PhaseOf(w, t)) && JobHas(w, s, late, t)
    requires Now(w, w.jobs[t].request.key) == s.vms[w.jobs[t].request.key]
    requires JobHas(w, s, late, u) && InStep(w.jobs[u], PhaseOf(w, u))
    requires !Works(w, u, w.jobs[t].request.key)
    ensures JobHas(Next(w, Take(t)), After(s, w, Take(t), late), late, u)
  {
  }

  /** A VM that only `t` could have been working on. */
  lemma UnheldBefore(w: World, w': World, t: nat, k: string)
    requires L.OnlyMoves(w.table, w'.table, t) && !Works(w, t, k)
    ensures Unheld(w', k) ==> Unheld(w, k)
  {
  }

  lemma TakeVm(w: World, s: Serial, late: set<nat>, t: nat, k: string)
    requires Possible(w, Take(t)) && InStep(w.jobs[t], PhaseOf(w, t)) && JobHas(w, s, late, t) && VmHas(w, s, k)
    ensures VmHas(Next(w, Take(t)), After(s, w, Take(t), late), k)
  {
    var w' := Next(w, Take(t));
    assert Works(w', t, w.jobs[t].request.key);
    UnheldBefore(w, w', t, k);
  }

  lemma TakeJobs(w: World, s: Serial, late: set<nat>, t: nat)
    requires JobsInv(w) && Follows(w, s, late) && Possible(w, Take(t)) && Unheld(w, w.jobs[t].request.key)
    ensures forall u | u in Next(w, Take(t)).jobs :: JobHas(Next(w, Take(t)), After(s, w, Take(t), late), late, u)
  {
    assert InStep(w.jobs[t], PhaseOf(w, t)) && JobHas(w, s, late, t) && VmHas(w, s, w.jobs[t].request.key);
    forall u | u in Next(w, Take(t)).jobs
      ensures JobHas(Next(w, Take(t)), After(s, w, Take(t), late), late, u)
    {
      assert JobHas(w, s, late, u) && InStep(w.jobs[u], PhaseOf(w, u));
      TakeJob(w, s, late, t, u);
    }
  }

  lemma TakeVms(w: World, s: Serial, late: set<nat>, t: nat)
    requires JobsInv(w) && Follows(w, s, late) && Possible(w, Take(t))
    ensures forall k | k in Next(w, Take(t)).traces :: VmHas(Next(w, Take(t)), After(s, w, Take(t), late), k)
  {
    assert InStep(w.jobs[t], PhaseOf(w, t)) && JobHas(w, s, late, t);
    forall k | k in Next(w, Take(t)).traces
      ensures VmHas(Next(w, Take(t)), After(s, w, Take(t), late), k)
    {
      assert VmHas(w, s, k);
      TakeVm(w, s, late, t, k);
    }
  }

  lemma TakeFollows(w: World, s: Serial, late: set<nat>, t: nat)
    requires JobsInv(w) && Follows(w, s, late) && Possible(w, Take(t)) && Unheld(w, w.jobs[t].request.key)
    ensures Follows(Next(w, Take(t)), After(s, w, Take(t), late), late)
  {
    assert InStep(w.jobs[t], PhaseOf(w, t)) && JobHas(w, s, late, t);
    TakeJobs(w, s, late, t);
    TakeVms(w, s, late, t);
  }

  /** The remaining moves call nothing and give nobody the lock. */
  ghost predicate Quiet(m: Move) {
    m.Ask? || m.Lapse? || m.GiveUp? || m.Return? || m.Release?
  }

  lemma QuietJob(w: World, s: Serial, late: set<nat>, m: Move, u: nat)
    requires Possible(w, m) && Quiet(m) && u in Next(w, m).jobs
    requires u in w.jobs ==> JobHas(w, s, late, u) && InStep(w.jobs[u], PhaseOf(w, u))
    requires u !in w.jobs ==> u !in s.outcomes
    requires s.vms.Keys == w.traces.Keys
    ensures JobHas(Next(w, m), s, late, u)
  {
    match m
    case Ask(_, _, _) =>
    case Lapse(_) =>
    case GiveUp(_) =>
    case Return(_) =>
    case Release(_) =>
  }

  lemma QuietVm(w: World, s: Serial, late: set<nat>, m: Move, k: string)
    requires Possible(w, m) && Quiet(m) && VmHas(w, s, k)
    requires m.t in w.jobs ==> JobHas(w, s, late, m.t) && InStep(w.jobs[m.t], PhaseOf(w, m.t))
    requires m.t in w.table.threads ==> m.t in w.jobs
    ensures VmHas(Next(w, m), s, k)
  {
    var w' := Next(w, m);
    assert L.OnlyMoves(w.table, w'.table, m.t);
    if !Works(w, m.t, k) {
      UnheldBefore(w, w', m.t, k);
    }
  }

  lemma QuietFollows(w: World, s: Serial, late: set<nat>, m: Move)
    requires SerialInv(w, s, late) && Possible(w, m) && Quiet(m)
    ensures Follows(Next(w, m), s, late)
  {
    var w' := Next(w, m);
    forall u | u in w'.jobs
      ensures JobHas(w', s, late, u)
    {
      assert u in w.jobs ==> JobHas(w, s, late, u) && InStep(w.jobs[u], PhaseOf(w, u));
      QuietJob(w, s, late, m, u);
    }
    forall k | k in w'.traces
      ensures VmHas(w', s, k)
    {
      assert VmHas(w, s, k);
      assert m.t in w.jobs ==> JobHas(w, s, late, m.t) && InStep(w.jobs[m.t], PhaseOf(w, m.t));
      QuietVm(w, s, late, m, k);
    }
  }

  lemma MoveFollows(w: World, s: Serial, late: set<nat>, m: Move)
    requires SerialInv(w, s, late) && !m.Outside? && Foretold(w, m, late)
    ensures Follows(Next(w, m), After(s, w, m, late), late)
  {
    if Possible(w, m) {
      match m
      case Take(t) =>
        TakerFindsItFree(w, t);
        TakeFollows(w, s, late, t);
      case Invoke(t) =>
        NobodyElse(w, t);
        InvokeFollows(w, s, late, t);
      case Ask(_, _, _) | Lapse(_) | GiveUp(_) | Return(_) | Release(_) => QuietFollows(w, s, late, m);
    }
  }

  lemma StepFollows(w: World, s: Serial, late: set<nat>, m: Move)
    requires SerialInv(w, s, late) && !m.Outside? && Foretold(w, m, late)
    ensures SerialInv(Next(w, m), After(s, w, m, late), late)
  {
    TableKeeps(w, m);
    JobsKeep(w, m);
    MoveFollows(w, s, late, m);
  }

  // ----- Whole runs

  ghost predicate Undisturbed(moves: seq<Move>) {
    forall i | 0 <= i < |moves| :: !moves[i].Outside?
  }

  /** What a request has heard of its context it never hears again. */
  lemma HearingLasts(w: World, m: Move, t: nat)
    requires JobsInv(w) && t in w.jobs
    ensures t in Next(w, m).jobs
    ensures w.jobs[t].heard.Some? ==> Next(w, m).jobs[t].heard == w.jobs[t].heard
  {
    assert InStep(w.jobs[t], PhaseOf(w, t));
  }

  lemma {:induction false} HearingStays(w: World, moves: seq<Move>, t: nat)
    requires JobsInv(w) && t in w.jobs
    ensures t in Travel(w, moves).jobs
    ensures w.jobs[t].heard.Some? ==> Travel(w, moves).jobs[t].heard == w.jobs[t].heard
    decreases |moves|
  {
    if moves != [] {
      HearingLasts(w, moves[0], t);
      JobsKeep(w, moves[0]);
      HearingStays(Next(w, moves[0]), moves[1..], t);
    }
  }

  lemma FirstMoveForetold(w: World, moves: seq<Move>)
    requires JobsInv(w) && moves != []
    ensures Foretold(w, moves[0], Late(Travel(w, moves)))
  {
    var m := moves[0];
    if m.Invoke? && Possible(w, m) && w.jobs[m.t].pc.CheckContext? {
      JobsKeep(w, m);
      HearingStays(Next(w, m), moves[1..], m.t);
    }
  }

  lemma TurnsAfter(vms: map<string, Vm>, w: World, m: Move, late: set<nat>)
    ensures OneByOne(vms, Next(w, m).order, late) == After(OneByOne(vms, w.order, late), w, m, late)
  {
    var w' := Next(w, m);
    if m.Take? && Possible(w, m) {
      assert w'.order[..|w'.order| - 1] == w.order;
    }
  }

  /** One move of the run, against the history that the whole run turns out to have. */
  lemma MoveInRun(vms: map<string, Vm>, w: World, m: Move, late: set<nat>)
    requires SerialInv(w, OneByOne(vms, w.order, late), late) && !m.Outside? && Foretold(w, m, late)
    ensures SerialInv(Next(w, m), OneByOne(vms, Next(w, m).order, late), late)
  {
    StepFollows(w, OneByOne(vms, w.order, late), late, m);
    TurnsAfter(vms, w, m, late);
  }

  lemma {:induction false} RunFollows(vms: map<string, Vm>, w: World, moves: seq<Move>, late: set<nat>)
    requires late == Late(Travel(w, moves))
    requires SerialInv(w, OneByOne(vms, w.order, late), late) && Undisturbed(moves)
    ensures SerialInv(Travel(w, moves), OneByOne(vms, Travel(w, moves).order, late), late)
    decreases |moves|
  {
    if moves != [] {
      FirstMoveForetold(w, moves);
      MoveInRun(vms, w, moves[0], late);
      assert forall i | 0 <= i < |moves| - 1 :: moves[1..][i] == moves[i + 1];
      RunFollows(vms, Next(w, moves[0]), moves[1..], late);
    }
  }

  lemma StartFollows(vms: map<string, Vm>, late: set<nat>)
    ensures SerialInv(Begin(vms), OneByOne(vms, [], late), late)
  {
  }

  /** The world at the end of an undisturbed run, and the one of its requests made one at a time. */
  lemma EndFollows(vms: map<string, Vm>, moves: seq<Move>)
    requires Undisturbed(moves)
    ensures var w := Travel(Begin(vms), moves); SerialInv(w, OneByOne(vms, w.order, Late(w)), Late(w))
  {
    var late := Late(Travel(Begin(vms), moves));
    StartFollows(vms, late);
    RunFollows(vms, Begin(vms), moves, late);
  }

  lemma {:induction false} KeysStay(w: World, moves: seq<Move>)
    ensures Travel(w, moves).traces.Keys == w.traces.Keys
    decreases |moves|
  {
    if moves != [] {
      assert Next(w, moves[0]).traces.Keys == w.traces.Keys;
      KeysStay(Next(w, moves[0]), moves[1..]);
    }
  }

  /**
   Every interleaving of any requests with any call failures and any contexts ending, but no outside
   change: each request that finished, whether or not it still has the lock, has the outcome, and each
   VM not being worked on the state, that running the requests one at a time in lock order gives, each
   with its context as it found it.
   (A snapshot request given up while waiting has no turn.)
   */
  lemma ActionsSerialize(vms: map<string, Vm>, moves: seq<Move>)
    requires Undisturbed(moves)
    ensures var w := Travel(Begin(vms), moves);
            var s := OneByOne(vms, w.order, Late(w));
            && (forall t | t in w.jobs && (w.jobs[t].pc.Finished? || PhaseOf(w, t).None?) :: Over(w.jobs[t], t, s))
            && (forall k | k in vms && Unheld(w, k) :: k in s.vms && Tracked(w, k) && Now(w, k) == s.vms[k])
  {
    EndFollows(vms, moves);
    var w := Travel(Begin(vms), moves);
    KeysStay(Begin(vms), moves);
    var s := OneByOne(vms, w.order, Late(w));
    forall t | t in w.jobs && (w.jobs[t].pc.Finished? || PhaseOf(w, t).None?)
      ensures Over(w.jobs[t], t, s)
    {
      assert JobHas(w, s, Late(w), t) && InStep(w.jobs[t], PhaseOf(w, t));
    }
    forall k | k in vms && Unheld(w, k)
      ensures k in s.vms && Tracked(w, k) && Now(w, k) == s.vms[k]
    {
      assert VmHas(w, s, k);
    }
  }

  lemma HolderIsReady(w: World, s: Serial, late: set<nat>, t: nat)
    requires JobsInv(w) && Follows(w, s, late) && Possible(w, Invoke(t))
    ensures Reachable(w.jobs[t].request.kind, w.jobs[t].pc)
    ensures Ready(w.jobs[t].request.kind, w.jobs[t].pc, Now(w, w.jobs[t].request.key))
  {
    assert JobHas(w, s, late, t) && InStep(w.jobs[t], PhaseOf(w, t));
  }

  lemma CallerIsReady(vms: map<string, Vm>, moves: seq<Move>, t: nat)
    requires Undisturbed(moves)
    ensures var w := Travel(Begin(vms), moves);
            Possible(w, Invoke(t)) ==>
              && Reachable(w.jobs[t].request.kind, w.jobs[t].pc)
              && Ready(w.jobs[t].request.kind, w.jobs[t].pc, Now(w, w.jobs[t].request.key))
  {
    EndFollows(vms, moves);
    var w := Travel(Begin(vms), moves);
    if Possible(w, Invoke(t)) {
      HolderIsReady(w, OneByOne(vms, w.order, Late(w)), Late(w), t);
    }
  }

  /**
   Without outside changes, what a request checked still holds when it acts: an operation is refused
   only by its own failure (or, creating a snapshot, by a name that is taken), and the re-check after
   a failure never turns it into a conflict.
   */
  lemma CheckedStateHolds(vms: map<string, Vm>, moves: seq<Move>, t: nat)
    requires Undisturbed(moves)
    ensures var w := Travel(Begin(vms), moves);
            Possible(w, Invoke(t)) ==>
              var job, vm := w.jobs[t], Now(w, w.jobs[t].request.key);
              var reply := Perform(job.request, t in w.lapsed, job.pc, vm).1;
              && (job.pc.Act? && job.request.faults.act.None? ==>
                    (reply == Performed <==> !NameTaken(job.request.kind, vm)))
              && (job.pc.Recheck? ==> !Contradicts(job.request.kind, job.pc, reply))
  {
    var w := Travel(Begin(vms), moves);
    CallerIsReady(vms, moves, t);
    if Possible(w, Invoke(t)) {
      CallHolds(w.jobs[t].request, t in w.lapsed, w.jobs[t].pc, Now(w, w.jobs[t].request.key));
    }
  }

  /**
   The state that a successful power operation reports is the VM's state when it ends, unless it is
   a Reset of a VM that was not running: that one reports "running" whatever the VM is.
   */
  lemma SuccessReportsState(vms: map<string, Vm>, moves: seq<Move>, t: nat)
    requires Undisturbed(moves)
    ensures var w := Travel(Begin(vms), moves);
            var w' := Next(w, Invoke(t));
            Possible(w, Invoke(t)) && w'.jobs[t].pc.Finished? && w'.jobs[t].pc.outcome.Success?
            && !IsSnapshot(w.jobs[t].request.kind) ==>
              var job := w.jobs[t];
              && Tracked(w', job.request.key)
              && (w'.jobs[t].pc.outcome.state == Now(w', job.request.key).state <==>
                    (job.request.kind.Reset? ==> Now(w, job.request.key).state.Running?))
  {
    CallerIsReady(vms, moves, t);
  }

  /** Alone, a Reset leaves any active VM as it is and reports that it runs. */
  lemma ResetAlone(key: string, ended: bool, vm: Vm)
    requires vm.active
    ensures Alone(Request(key, Reset, NO_FAULTS), ended, vm) == (vm, Success(VmState.Running))
  {
    var request := Request(key, Reset, NO_FAULTS);
    assert Alone(request, ended, vm) == Finish(request, ended, ReadState, vm);
    assert Finish(request, ended, ReadState, vm) == Finish(request, ended, Act(vm.state), vm);
    assert Finish(request, ended, Act(vm.state), vm) == (vm, Success(VmState.Running));
  }

  lemma MakesTheReset(w: World, request: Request)
    requires Possible(w, Invoke(0)) && w.jobs[0].request == request && w.jobs[0].pc == CheckActive
    requires request.kind == Reset && request.faults == NO_FAULTS && Now(w, request.key).active
    ensures var w' := Next(Next(Next(w, Invoke(0)), Invoke(0)), Invoke(0));
            && w'.table == w.table && Tracked(w', request.key)
            && 0 in w'.jobs && w'.jobs[0].pc == Finished(Success(VmState.Running))
            && Now(w', request.key) == Now(w, request.key)
  {
    var w1 := Next(w, Invoke(0));
    assert w1.jobs[0].pc == ReadState && Now(w1, request.key) == Now(w, request.key);
    var w2 := Next(w1, Invoke(0));
    assert w2.jobs[0].pc == Act(Now(w, request.key).state) && Now(w2, request.key) == Now(w, request.key);
  }

  lemma ResettingRun(w: World, request: Request)
    requires w.table == L.Empty() && w.jobs == map[] && Tracked(w, request.key)
    requires request.kind == Reset && request.faults == NO_FAULTS && Now(w, request.key).active
    ensures var w' := Travel(w, ThreeCallRun(request));
            && w'.table.threads == map[] && w'.table.entries == map[]
            && 0 in w'.jobs && w'.jobs[0].pc == Finished(Success(VmState.Running))
            && Tracked(w', request.key) && Now(w', request.key) == Now(w, request.key)
  {
    var w2 := Next(Next(w, Ask(0, request, 0)), Move.Take(0));
    GetsTheLock(w, request);
    MakesTheReset(w2, request);
    LetsGo(Next(Next(Next(w2, Invoke(0)), Invoke(0)), Invoke(0)), request);
    ThreeCallRunEnds(w, request);
  }

  /** Nothing in that run comes from outside. */
  lemma ThreeCallsUndisturbed(request: Request)
    ensures Undisturbed(ThreeCallRun(request))
  {
    assert ThreeCallRun(request) ==
           [Ask(0, request, 0), Move.Take(0), Invoke(0), Invoke(0), Invoke(0), Move.Return(0), Move.Release(0)];
  }

  /**
   A run, without outside changes, on which a paused VM is reset: the request succeeds, reports
   "running" and lets go, and the VM is paused.
   */
  lemma ResetReportsRunning(vms: map<string, Vm>, key: string)
    requires key in vms && vms[key].active && vms[key].state.Paused?
    ensures var moves := ThreeCallRun(Request(key, Reset, NO_FAULTS));
            var w := Travel(Begin(vms), moves);
            && Undisturbed(moves)
            && w.table.threads == map[] && w.table.entries == map[]
            && 0 in w.jobs && w.jobs[0].pc == Finished(Success(VmState.Running))
            && Tracked(w, key) && Now(w, key).state == VmState.Paused
  {
    var request := Request(key, Reset, NO_FAULTS);
    ResettingRun(Begin(vms), request);
    ThreeCallsUndisturbed(request);
  }

  // ----- Racing Starts

  ghost predicate PlainStart(request: Request) {
    request.kind == Start && request.faults == NO_FAULTS
  }

  /** All turns on `key` are Starts whose calls do not fail of themselves. */
  ghost predicate OnlyStarts(order: seq<Turn>, key: string) {
    forall i | 0 <= i < |order| && order[i].request.key == key :: PlainStart(order[i].request)
  }

  ghost predicate Distinct(order: seq<Turn>) {
    forall i, j | 0 <= i < j < |order| :: order[i].t != order[j].t
  }

  /** The thread with the first turn on `key`. */
  ghost function FirstOn(order: seq<Turn>, key: string): Option<nat> {
    if order == [] then None
    else
      var n := |order| - 1;
      var earlier := FirstOn(order[..n], key);
      if earlier.None? && order[n].request.key == key then Some(order[n].t) else earlier
  }

  const TOLD_RUNNING := Failure(Wrapped(AlreadyRunning, Known(Conflict)))

  lemma {:induction false} FirstIsATurn(order: seq<Turn>, key: string)
    ensures FirstOn(order, key).Some? ==>
              exists i :: 0 <= i < |order| && order[i].request.key == key && order[i].t == FirstOn(order, key).value
    decreases |order|
  {
    if order != [] {
      var n := |order| - 1;
      assert forall i | 0 <= i < n :: order[..n][i] == order[i];
      FirstIsATurn(order[..n], key);
    }
  }

  lemma StartAlone(request: Request, ended: bool, vm: Vm)
    requires PlainStart(request)
    ensures Alone(request, ended, vm) ==
            if vm.active then (vm, TOLD_RUNNING)
            else (vm.(active := true, state := VmState.Running), Success(VmState.Running))
  {
    if !vm.active {
      assert Finish(request, ended, Act(NoState), vm) ==
             (vm.(active := true, state := VmState.Running), Success(VmState.Running));
    }
  }

  /** The first turn on a stopped VM starts it; every other one is told it is already running. */
  lemma {:induction false} FirstStartWins(vms: map<string, Vm>, order: seq<Turn>, late: set<nat>, key: string)
    requires key in vms && !vms[key].active && OnlyStarts(order, key) && Distinct(order)
    ensures var s := OneByOne(vms, order, late);
            && key in s.vms && (s.vms[key].active <==> FirstOn(order, key).Some?)
            && forall i | 0 <= i < |order| && order[i].request.key == key ::
                 && FirstOn(order, key).Some?
                 && order[i].t in s.outcomes
                 && s.outcomes[order[i].t] ==
                    if FirstOn(order, key) == Some(order[i].t) then Success(VmState.Running) else TOLD_RUNNING
    decreases |order|
  {
    if order != [] {
      var n := |order| - 1;
      var init, turn := order[..n], order[n];
      assert forall i | 0 <= i < n :: init[i] == order[i];
      FirstStartWins(vms, init, late, key);
      FirstIsATurn(init, key);
      if turn.request.key == key {
        StartAlone(turn.request, turn.t in late, OneByOne(vms, init, late).vms[key]);
      }
    }
  }

  /** Each turn is one request's, and each request has at most one. */
  ghost predicate OrderInv(w: World) {
    && Distinct(w.order)
    && forall i | 0 <= i < |w.order| ::
         && w.order[i].t in w.jobs && w.jobs[w.order[i].t].request == w.order[i].request
         && !(w.order[i].t in w.table.threads && w.table.threads[w.order[i].t].Waiting?)
  }

  lemma OrderKeeps(w: World, m: Move)
    requires OrderInv(w)
    ensures OrderInv(Next(w, m))
  {
  }

  lemma {:induction false} RunKeepsOrder(w: World, moves: seq<Move>)
    requires OrderInv(w)
    ensures OrderInv(Travel(w, moves))
    decreases |moves|
  {
    if moves != [] {
      OrderKeeps(w, moves[0]);
      RunKeepsOrder(Next(w, moves[0]), moves[1..]);
    }
  }

  lemma {:induction false} OutcomesAreTurns(vms: map<string, Vm>, order: seq<Turn>, late: set<nat>, t: nat)
    requires t in OneByOne(vms, order, late).outcomes
    ensures exists i :: 0 <= i < |order| && order[i].t == t
    decreases |order|
  {
    var n := |order| - 1;
    assert forall i | 0 <= i < n :: order[..n][i] == order[i];
    if order[n].t != t {
      OutcomesAreTurns(vms, order[..n], late, t);
    }
  }

  /**
   Any number of concurrent Starts of a stopped VM, in any interleaving: exactly one succeeds
   and all others are told that the VM is already running.
   */
  lemma RacingStarts(vms: map<string, Vm>, moves: seq<Move>, key: string, someone: nat)
    requires Undisturbed(moves) && key in vms && !vms[key].active
    requires var w := Travel(Begin(vms), moves);
             && someone in w.jobs && w.jobs[someone].request.key == key
             && forall t | t in w.jobs && w.jobs[t].request.key == key ::
                  PlainStart(w.jobs[t].request) && PhaseOf(w, t).None?
    ensures var w := Travel(Begin(vms), moves);
            exists winner :: winner in w.jobs && w.jobs[winner].request.key == key
              && w.jobs[winner].pc == Finished(Success(VmState.Running))
              && forall t | t in w.jobs && w.jobs[t].request.key == key && t != winner ::
                   w.jobs[t].pc == Finished(TOLD_RUNNING)
  {
    var w := Travel(Begin(vms), moves);
    var s := OneByOne(vms, w.order, Late(w));
    ActionsSerialize(vms, moves);
    RunKeepsOrder(Begin(vms), moves);
    FirstStartWins(vms, w.order, Late(w), key);
    forall t | t in w.jobs && w.jobs[t].request.key == key
      ensures FirstOn(w.order, key).Some?
      ensures w.jobs[t].pc ==
              Finished(if FirstOn(w.order, key) == Some(t) then Success(VmState.Running) else TOLD_RUNNING)
    {
      assert Over(w.jobs[t], t, s);
      OutcomesAreTurns(vms, w.order, Late(w), t);
    }
    FirstIsATurn(w.order, key);
    var winner := FirstOn(w.order, key).value;
    assert winner in w.jobs && w.jobs[winner].request.key == key;
  }
}
