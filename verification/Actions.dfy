/**
 The operations on one VM as programs of single libvirt calls, each call answered by an
 abstract VM that may refuse, fail, or have been changed from outside in between.
 */
module Actions {
  import opened Wrappers
  import opened Errors

  datatype VmState = NoState | Running | Blocked | Paused | ShuttingDown | Shutoff | Crashed | PMSuspended

  /** `snapshots` are the names of the snapshots the VM has. */
  datatype Vm = Vm(active: bool, state: VmState, snapshots: set<string>)

  /**
   Reverting restores the activity and state that the snapshot holds; deleting may take the
   snapshots made after it along.
   */
  datatype Kind =
    | Start
    | Stop
    | Pause
    | Resume
    | Reset
    | Shutdown
    | Reboot
    | CreateSnapshot(name: string)
    | RevertSnapshot(name: string, active: bool, state: VmState)
    | DeleteSnapshot(name: string, descendants: set<string>)

  /** Which calls of one request fail of themselves, and the code with which an impossible operation is refused. */
  datatype Faults = Faults(
    check: Option<Code>,
    read: Option<Code>,
    act: Option<Code>,
    recheck: Option<Code>,
    reread: Option<Code>,
    find: Option<Code>,
    describe: Option<Code>,
    refusal: Code)

  const NO_FAULTS := Faults(None, None, None, None, None, None, None, OperationInvalid)

  datatype Request = Request(key: string, kind: Kind, faults: Faults)

  datatype Outcome = Success(state: VmState) | Failure(error: Error)

  /** The next call of a request that holds its lock, with what it remembers of earlier ones. */
  datatype Pc =
    | CheckActive
    | ReadState
    | FindSnapshot
    | CheckContext
    | Act(state: VmState)
    | Recheck(code: Code)
    | Reread(state: VmState)
    | Describe
    | Finished(outcome: Outcome)

  datatype Reply =
    | Activity(active: bool)
    | State(state: VmState)
    | Found
    | Context(done: bool)
    | Performed
    | Described
    | Failed(code: Code)

  predicate IsSnapshot(kind: Kind) {
    kind.CreateSnapshot? || kind.RevertSnapshot? || kind.DeleteSnapshot?
  }

  function First(kind: Kind): Pc {
    match kind
    case CreateSnapshot(_) => CheckContext
    case RevertSnapshot(_, _, _) | DeleteSnapshot(_, _) => FindSnapshot
    case _ => CheckActive
  }

  predicate Fits(pc: Pc, reply: Reply) {
    match pc
    case CheckActive | Recheck(_) => reply.Activity? || reply.Failed?
    case ReadState | Reread(_) => reply.State? || reply.Failed?
    case FindSnapshot => reply.Found? || reply.Failed?
    case CheckContext => reply.Context?
    case Act(_) => reply.Performed? || reply.Failed?
    case Describe => reply.Described? || reply.Failed?
    case Finished(_) => false
  }

  function Fail(detail: Detail, cause: Error): Pc {
    Finished(Failure(Wrapped(detail, cause)))
  }

  /** The state a successful operation reports; `read` is the one it saw before acting. */
  function Reported(kind: Kind, read: VmState): VmState {
    match kind
    case Start | Resume | Reset => Running
    case Stop => Shutoff
    case Pause => Paused
    case Shutdown | Reboot => read
    case _ => NoState
  }

  function Stopped(kind: Kind): Detail {
    if kind.Stop? || kind.Shutdown? then AlreadyStopped else IsStopped
  }

  /** The error made of a refused or failed operation. */
  function Classify(kind: Kind, code: Code): Error {
    match kind
    case Start | Stop => Wrapped(Operating, Libvirt(code))
    case Shutdown =>
      if code.OperationInvalid? then Wrapped(WrongState, Known(Conflict))
      else if code.NoSupport? || code.ConfigUnsupported? || code.ArgumentUnsupported? || code.OperationUnsupported?
        then Wrapped(NoSuchSupport, Known(Unsupported))
      else Wrapped(Operating, Libvirt(code))
    case Pause | Resume | Reset | Reboot =>
      if code.OperationInvalid? then Wrapped(WrongState, Known(Conflict))
      else if code.NoSupport? || code.OperationUnsupported? then Wrapped(NoSuchSupport, Known(Unsupported))
      else Wrapped(Operating, Libvirt(code))
    case CreateSnapshot(_) | RevertSnapshot(_, _, _) | DeleteSnapshot(_, _) =>
      if code.OperationInvalid? then Wrapped(WrongState, Known(Conflict))
      else if code.NoSupport? || code.OperationUnsupported? || code.ConfigUnsupported?
        then Wrapped(NoSuchSupport, Known(Unsupported))
      else Wrapped(Operating, Libvirt(code))
  }

  /** Where a request goes from `pc` when its call is answered. */
  function Advance(kind: Kind, pc: Pc, reply: Reply): Pc
    requires Fits(pc, reply)
  {
    match pc
    case CheckActive =>
      if reply.Failed? then Fail(GettingActivity, Libvirt(reply.code))
      else if kind.Start? then if reply.active then Fail(AlreadyRunning, Known(Conflict)) else Act(NoState)
      else if !reply.active then Fail(Stopped(kind), Known(Conflict))
      else if kind.Stop? then Act(NoState)
      else ReadState
    case ReadState =>
      if reply.Failed? then Fail(GettingState, Libvirt(reply.code))
      else if kind.Pause? && reply.state.Paused? then Fail(WrongState, Wrapped(AlreadyPaused, Known(Conflict)))
      else if kind.Resume? && !reply.state.Paused? then Fail(WrongState, Wrapped(NotPaused, Known(Conflict)))
      else Act(reply.state)
    case Act(read) =>
      if reply.Failed? then
        if kind.Start? || kind.Stop? || kind.Shutdown? then Recheck(reply.code)
        else Finished(Failure(Classify(kind, reply.code)))
      else if kind.Shutdown? then Reread(read)
      else if kind.CreateSnapshot? then Describe
      else Finished(Success(Reported(kind, read)))
    case Recheck(code) =>
      if reply == Activity(true) && kind.Start? then Fail(AlreadyRunning, Known(Conflict))
      else if reply == Activity(false) && !kind.Start? then Fail(AlreadyStopped, Known(Conflict))
      else Finished(Failure(Classify(kind, code)))
    case Reread(read) => Finished(Success(if reply.State? then reply.state else read))
    case Describe => if reply.Failed? then Fail(Describing, Libvirt(reply.code)) else Finished(Success(NoState))
    case FindSnapshot =>
      if reply == Failed(NoDomainSnapshot) then Fail(LookingUp, Known(SnapshotNotFound))
      else if reply.Failed? then Fail(LookingUp, Libvirt(reply.code))
      else CheckContext
    case CheckContext => if reply.done then Fail(Cancelled, ContextEnded) else Act(NoState)
    case Finished(_) => pc
  }

  /** The calls that a request of this kind can come to. */
  predicate Reachable(kind: Kind, pc: Pc) {
    match pc
    case CheckActive => !IsSnapshot(kind)
    case ReadState => !IsSnapshot(kind) && !kind.Start? && !kind.Stop?
    case FindSnapshot => kind.RevertSnapshot? || kind.DeleteSnapshot?
    case CheckContext => IsSnapshot(kind)
    case Recheck(_) => kind.Start? || kind.Stop? || kind.Shutdown?
    case Reread(_) => kind.Shutdown?
    case Describe => kind.CreateSnapshot?
    case _ => true
  }

  lemma StaysReachable(kind: Kind, pc: Pc, reply: Reply)
    requires Reachable(kind, pc) && Fits(pc, reply)
    ensures Reachable(kind, First(kind)) && Reachable(kind, Advance(kind, pc, reply))
  {
  }

  // ----- The hypervisor's side

  /** The effect of an operation on a VM that allows it. */
  function Operate(kind: Kind, vm: Vm): Option<Vm> {
    match kind
    case Start => if vm.active then None else Some(vm.(active := true, state := Running))
    case Stop => if vm.active then Some(vm.(active := false, state := Shutoff)) else None
    case Pause => if vm.active then Some(vm.(state := Paused)) else None
    case Resume => if vm.active && vm.state.Paused? then Some(vm.(state := Running)) else None
    case Reset | Shutdown | Reboot => if vm.active then Some(vm) else None
    case CreateSnapshot(name) =>
      if name in vm.snapshots then None else Some(vm.(snapshots := vm.snapshots + {name}))
    case RevertSnapshot(name, active, state) =>
      if name in vm.snapshots then Some(vm.(active := active, state := state)) else None
    case DeleteSnapshot(name, descendants) =>
      if name in vm.snapshots then Some(vm.(snapshots := vm.snapshots - {name} - descendants)) else None
  }

  /** The VM has the snapshot that the request names. */
  predicate HasNamed(kind: Kind, vm: Vm) {
    IsSnapshot(kind) && kind.name in vm.snapshots
  }

  function Or(fault: Option<Code>, reply: Reply): Reply {
    if fault.Some? then Failed(fault.value) else reply
  }

  /** One call: the VM afterwards and the answer. `ended` is whether the request's context has ended by then. */
  function Perform(request: Request, ended: bool, pc: Pc, vm: Vm): (r: (Vm, Reply))
    requires !pc.Finished?
    ensures Fits(pc, r.1)
  {
    var f := request.faults;
    match pc
    case CheckActive => (vm, Or(f.check, Activity(vm.active)))
    case Recheck(_) => (vm, Or(f.recheck, Activity(vm.active)))
    case ReadState => (vm, Or(f.read, State(vm.state)))
    case Reread(_) => (vm, Or(f.reread, State(vm.state)))
    case FindSnapshot => (vm, Or(f.find, if HasNamed(request.kind, vm) then Found else Failed(NoDomainSnapshot)))
    case CheckContext => (vm, Context(ended))
    case Describe => (vm, Or(f.describe, Described))
    case Act(_) =>
      if f.act.Some? then (vm, Failed(f.act.value))
      else match Operate(request.kind, vm) {
        case None => (vm, Failed(f.refusal))
        case Some(vm') => (vm', Performed)
      }
  }

  function CallsLeft(pc: Pc): nat {
    match pc
    case CheckActive | FindSnapshot => 4
    case ReadState | CheckContext => 3
    case Act(_) => 2
    case Recheck(_) | Reread(_) | Describe => 1
    case Finished(_) => 0
  }

  /** The rest of a request from `pc` on, with nobody else touching the VM. */
  function Finish(request: Request, ended: bool, pc: Pc, vm: Vm): (Vm, Outcome)
    decreases CallsLeft(pc)
  {
    if pc.Finished? then (vm, pc.outcome)
    else
      var (vm', reply) := Perform(request, ended, pc, vm);
      Finish(request, ended, Advance(request.kind, pc, reply), vm')
  }

  /** The whole request, alone, with a context that has or has not ended by the re-check. */
  function Alone(request: Request, ended: bool, vm: Vm): (Vm, Outcome) {
    Finish(request, ended, First(request.kind), vm)
  }

  // ----- What each request comes to, alone

  /** No call of the request fails of itself. */
  predicate Faultless(request: Request) {
    var f := request.faults;
    && f.check.None? && f.read.None? && f.act.None? && f.recheck.None? && f.reread.None?
    && f.find.None? && f.describe.None?
  }

  function Refuse(detail: Detail): Outcome {
    Failure(Wrapped(detail, Known(Conflict)))
  }

  lemma StartAndStopAlone(request: Request, ended: bool, vm: Vm)
    requires Faultless(request)
    ensures request.kind.Start? ==>
              Alone(request, ended, vm) ==
              if vm.active then (vm, Refuse(AlreadyRunning))
              else (Vm(true, Running, vm.snapshots), Success(Running))
    ensures request.kind.Stop? ==>
              Alone(request, ended, vm) ==
              if vm.active then (Vm(false, Shutoff, vm.snapshots), Success(Shutoff))
              else (vm, Refuse(AlreadyStopped))
  {
    if (request.kind.Start? && !vm.active) || (request.kind.Stop? && vm.active) {
      var vm' := Operate(request.kind, vm).value;
      assert Alone(request, ended, vm) == Finish(request, ended, Act(NoState), vm);
      assert Finish(request, ended, Act(NoState), vm) ==
             Finish(request, ended, Finished(Success(Reported(request.kind, NoState))), vm');
    }
  }

  lemma FromRead(request: Request, ended: bool, vm: Vm)
    requires Faultless(request) && vm.active
    requires !IsSnapshot(request.kind) && !request.kind.Start? && !request.kind.Stop?
    ensures Alone(request, ended, vm) ==
            Finish(request, ended, Advance(request.kind, ReadState, Reply.State(vm.state)), vm)
  {
    assert Alone(request, ended, vm) == Finish(request, ended, ReadState, vm);
  }

  lemma PauseAndResumeAlone(request: Request, ended: bool, vm: Vm)
    requires Faultless(request)
    ensures request.kind.Pause? ==>
              Alone(request, ended, vm) ==
              if !vm.active then (vm, Refuse(IsStopped))
              else if vm.state.Paused? then (vm, Failure(Wrapped(WrongState, Wrapped(AlreadyPaused, Known(Conflict)))))
              else (Vm(true, Paused, vm.snapshots), Success(Paused))
    ensures request.kind.Resume? ==>
              Alone(request, ended, vm) ==
              if !vm.active then (vm, Refuse(IsStopped))
              else if !vm.state.Paused? then (vm, Failure(Wrapped(WrongState, Wrapped(NotPaused, Known(Conflict)))))
              else (Vm(true, Running, vm.snapshots), Success(Running))
  {
    if vm.active && (request.kind.Pause? || request.kind.Resume?) {
      FromRead(request, ended, vm);
      if vm.state.Paused? == request.kind.Resume? {
        var vm' := Operate(request.kind, vm).value;
        assert Finish(request, ended, Act(vm.state), vm) ==
               Finish(request, ended, Finished(Success(Reported(request.kind, vm.state))), vm');
      }
    }
  }

  /** These leave the VM as it is, as far as the model goes; what the guest makes of them comes from outside. */
  lemma ResetRebootAndShutdownAlone(request: Request, ended: bool, vm: Vm)
    requires Faultless(request) && (request.kind.Reset? || request.kind.Reboot? || request.kind.Shutdown?)
    ensures Alone(request, ended, vm) ==
            if !vm.active then (vm, Refuse(if request.kind.Shutdown? then AlreadyStopped else IsStopped))
            else (vm, Success(if request.kind.Reset? then Running else vm.state))
  {
    if vm.active {
      FromRead(request, ended, vm);
      assert Finish(request, ended, Act(vm.state), vm) ==
             Finish(request, ended, Advance(request.kind, Act(vm.state), Performed), vm);
      if request.kind.Shutdown? {
        assert Finish(request, ended, Reread(vm.state), vm) == (vm, Success(vm.state));
      }
    }
  }

  lemma FromRecheckOfContext(request: Request, ended: bool, vm: Vm)
    requires request.kind.RevertSnapshot? || request.kind.DeleteSnapshot?
    requires request.faults.find.None? && request.kind.name in vm.snapshots
    ensures Alone(request, ended, vm) ==
            if ended then (vm, Failure(Wrapped(Cancelled, ContextEnded)))
            else Finish(request, ended, Act(NoState), vm)
  {
    assert Alone(request, ended, vm) == Finish(request, ended, CheckContext, vm);
  }

  /** Reverting and deleting, with whatever fails: the first thing that goes wrong decides, and else they act. */
  lemma ChangesAlone(request: Request, ended: bool, vm: Vm)
    requires request.kind.RevertSnapshot? || request.kind.DeleteSnapshot?
    ensures var f, name := request.faults, request.kind.name;
            Alone(request, ended, vm) ==
            if f.find == Some(NoDomainSnapshot) || (f.find.None? && name !in vm.snapshots)
            then (vm, Failure(Wrapped(LookingUp, Known(SnapshotNotFound))))
            else if f.find.Some? then (vm, Failure(Wrapped(LookingUp, Libvirt(f.find.value))))
            else if ended then (vm, Failure(Wrapped(Cancelled, ContextEnded)))
            else if f.act.Some? then (vm, Failure(Classify(request.kind, f.act.value)))
            else (match request.kind
                  case RevertSnapshot(_, active, state) => Vm(active, state, vm.snapshots)
                  case DeleteSnapshot(_, descendants) => Vm(vm.active, vm.state, vm.snapshots - {name} - descendants)
                  case _ => vm,
                  Success(NoState))
  {
    if request.faults.find.None? && request.kind.name in vm.snapshots {
      FromRecheckOfContext(request, ended, vm);
      if !ended {
        var (vm', reply) := Perform(request, ended, Act(NoState), vm);
        assert Finish(request, ended, Act(NoState), vm) ==
               Finish(request, ended, Advance(request.kind, Act(NoState), reply), vm');
      }
    }
  }

  // ----- When a failure hides a change

  lemma {:induction false} FailsUnchanged(request: Request, ended: bool, pc: Pc, vm: Vm)
    requires !request.kind.CreateSnapshot?
    ensures var (vm', outcome) := Finish(request, ended, pc, vm); outcome.Failure? ==> vm' == vm
    decreases CallsLeft(pc)
  {
    if !pc.Finished? {
      var (vm', reply) := Perform(request, ended, pc, vm);
      var pc' := Advance(request.kind, pc, reply);
      FailsUnchanged(request, ended, pc', vm');
      if pc.Act? && reply.Performed? && pc'.Reread? {
        assert Finish(request, ended, pc', vm').1.Success?;
      }
    }
  }

  lemma CreatesAlone(request: Request, ended: bool, vm: Vm)
    requires request.kind.CreateSnapshot?
    ensures Alone(request, ended, vm) ==
            if ended then (vm, Failure(Wrapped(Cancelled, ContextEnded)))
            else if request.faults.act.Some? then (vm, Failure(Classify(request.kind, request.faults.act.value)))
            else if request.kind.name in vm.snapshots then (vm, Failure(Classify(request.kind, request.faults.refusal)))
            else (vm.(snapshots := vm.snapshots + {request.kind.name}),
                  if request.faults.describe.Some?
                  then Failure(Wrapped(Describing, Libvirt(request.faults.describe.value)))
                  else Success(NoState))
  {
    if !ended {
      var (vm', reply) := Perform(request, ended, Act(NoState), vm);
      assert Alone(request, ended, vm) == Finish(request, ended, Act(NoState), vm);
      assert Finish(request, ended, Act(NoState), vm) ==
             Finish(request, ended, Advance(request.kind, Act(NoState), reply), vm');
    }
  }

  /**
   A request alone fails and yet leaves the VM changed exactly if it creates a snapshot, in time and
   without a failure, of a name that is free, and cannot read the description afterwards.
   */
  lemma FailureHidesChange(request: Request, ended: bool, vm: Vm)
    ensures var (vm', outcome) := Alone(request, ended, vm);
            outcome.Failure? && vm' != vm <==>
            && request.kind.CreateSnapshot? && !ended
            && request.faults.act.None? && request.kind.name !in vm.snapshots
            && request.faults.describe.Some?
  {
    if request.kind.CreateSnapshot? {
      CreatesAlone(request, ended, vm);
      assert request.kind.name in vm.snapshots + {request.kind.name};
    } else {
      FailsUnchanged(request, ended, First(request.kind), vm);
    }
  }

  // ----- Which status an outcome gets, from the last answer alone

  /** The answer shows the VM in a state that rules the operation out. */
  predicate Contradicts(kind: Kind, pc: Pc, reply: Reply) {
    match pc
    case CheckActive | Recheck(_) => reply == Activity(kind.Start?)
    case ReadState =>
      reply.State? && ((kind.Pause? && reply.state.Paused?) || (kind.Resume? && !reply.state.Paused?))
    case _ => false
  }

  /** The code the operation itself failed with, if that is what ended the request. */
  function Refusal(pc: Pc, reply: Reply): Option<Code> {
    if pc.Recheck? then Some(pc.code)
    else if pc.Act? && reply.Failed? then Some(reply.code)
    else None
  }

  function Unsupporting(kind: Kind): set<Code> {
    match kind
    case Start | Stop => {}
    case Shutdown => {NoSupport, OperationUnsupported, ConfigUnsupported, ArgumentUnsupported}
    case Pause | Resume | Reset | Reboot => {NoSupport, OperationUnsupported}
    case _ => {NoSupport, OperationUnsupported, ConfigUnsupported}
  }

  function ExpectedStatus(kind: Kind, pc: Pc, reply: Reply): nat {
    var refusal := Refusal(pc, reply);
    if pc.FindSnapshot? && reply == Failed(NoDomainSnapshot) then 404
    else if Contradicts(kind, pc, reply) then 409
    else if refusal == Some(OperationInvalid) && !kind.Start? && !kind.Stop? then 409
    else if refusal.Some? && refusal.value in Unsupporting(kind) then 422
    else 503
  }

  /** Through all its wrapping, a failure gets the status its cause calls for. */
  lemma StatusAsIntended(kind: Kind, pc: Pc, reply: Reply)
    requires Fits(pc, reply) && Advance(kind, pc, reply).Finished?
    requires Advance(kind, pc, reply).outcome.Failure?
    requires Reachable(kind, pc)
    ensures Status(Advance(kind, pc, reply).outcome.error) == ExpectedStatus(kind, pc, reply)
  {
    var e := Advance(kind, pc, reply).outcome.error;
    StatusIsOfRoot(e);
    assert e.Wrapped?;
    assert Root(e) == Root(e.cause);
    assert e.cause.Wrapped? ==> Root(e.cause) == e.cause.cause;
  }
}
