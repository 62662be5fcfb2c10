/**
 The operations written as the program writes them, straight through against a domain that
 nobody else touches, and proved to be the call-by-call requests of `Actions`.
 */
module DomainActions {
  import opened Wrappers
  import opened Errors
  import opened Actions

  datatype Answer<+T> = Ok(value: T) | Err(code: Code)

  /** A domain handle; `fault` says whether and how a call fails of itself. */
  class Domain {
    var vm: Vm

    constructor (vm: Vm)
      ensures this.vm == vm
    {
      this.vm := vm;
    }

    method IsActive(fault: Option<Code>) returns (answer: Answer<bool>)
      ensures answer == if fault.Some? then Err(fault.value) else Ok(vm.active)
    {
      answer := if fault.Some? then Err(fault.value) else Ok(vm.active);
    }

    method GetState(fault: Option<Code>) returns (answer: Answer<VmState>)
      ensures answer == if fault.Some? then Err(fault.value) else Ok(vm.state)
    {
      answer := if fault.Some? then Err(fault.value) else Ok(vm.state);
    }

    method SnapshotLookupByName(name: string, fault: Option<Code>) returns (err: Option<Code>)
      ensures err == if fault.Some? then fault else if name in vm.snapshots then None else Some(NoDomainSnapshot)
    {
      err := if fault.Some? then fault else if name in vm.snapshots then None else Some(NoDomainSnapshot);
    }

    /** The libvirt operation of `kind`: its error, if any. */
    method Carry(kind: Kind, fault: Option<Code>, refusal: Code) returns (err: Option<Code>)
      modifies this
      ensures err == if fault.Some? then fault
                     else if Operate(kind, old(vm)).None? then Some(refusal) else None
      ensures vm == if err.Some? then old(vm) else Operate(kind, old(vm)).value
    {
      if fault.Some? {
        return fault;
      }
      var after := Operate(kind, vm);
      if after.None? {
        return Some(refusal);
      }
      vm := after.value;
      err := None;
    }
  }

  method Start(domain: Domain, request: Request, ghost ended: bool) returns (outcome: Outcome)
    requires request.kind == Kind.Start
    modifies domain
    ensures (domain.vm, outcome) == Alone(request, ended, old(domain.vm))
  {
    var active := domain.IsActive(request.faults.check);
    if active.Err? {
      return Failure(Wrapped(GettingActivity, Libvirt(active.code)));
    }
    if active.value {
      return Failure(Wrapped(AlreadyRunning, Known(Conflict)));
    }
    assert Alone(request, ended, old(domain.vm)) == Finish(request, ended, Act(NoState), old(domain.vm));
    var err := domain.Carry(Kind.Start, request.faults.act, request.faults.refusal);
    if err.Some? {
      assert Alone(request, ended, old(domain.vm)) == Finish(request, ended, Recheck(err.value), domain.vm);
      active := domain.IsActive(request.faults.recheck);
      if active.Ok? && active.value {
        return Failure(Wrapped(AlreadyRunning, Known(Conflict)));
      }
      assert Finish(request, ended, Recheck(err.value), domain.vm) ==
             (domain.vm, Failure(Classify(Kind.Start, err.value)));
      return Failure(Wrapped(Operating, Libvirt(err.value)));
    }
    outcome := Success(Running);
  }

  method Stop(domain: Domain, request: Request, ghost ended: bool) returns (outcome: Outcome)
    requires request.kind == Kind.Stop
    modifies domain
    ensures (domain.vm, outcome) == Alone(request, ended, old(domain.vm))
  {
    var active := domain.IsActive(request.faults.check);
    if active.Err? {
      return Failure(Wrapped(GettingActivity, Libvirt(active.code)));
    }
    if !active.value {
      return Failure(Wrapped(AlreadyStopped, Known(Conflict)));
    }
    assert Alone(request, ended, old(domain.vm)) == Finish(request, ended, Act(NoState), old(domain.vm));
    var err := domain.Carry(Kind.Stop, request.faults.act, request.faults.refusal);
    if err.Some? {
      assert Alone(request, ended, old(domain.vm)) == Finish(request, ended, Recheck(err.value), domain.vm);
      active := domain.IsActive(request.faults.recheck);
      if active.Ok? && !active.value {
        return Failure(Wrapped(AlreadyStopped, Known(Conflict)));
      }
      assert Finish(request, ended, Recheck(err.value), domain.vm) ==
             (domain.vm, Failure(Classify(Kind.Stop, err.value)));
      return Failure(Wrapped(Operating, Libvirt(err.value)));
    }
    outcome := Success(Shutoff);
  }

  method RequestGracefulShutdown(domain: Domain, request: Request, ghost ended: bool) returns (outcome: Outcome)
    requires request.kind == Kind.Shutdown
    modifies domain
    ensures (domain.vm, outcome) == Alone(request, ended, old(domain.vm))
  {
    var active := domain.IsActive(request.faults.check);
    if active.Err? {
      return Failure(Wrapped(GettingActivity, Libvirt(active.code)));
    }
    if !active.value {
      return Failure(Wrapped(AlreadyStopped, Known(Conflict)));
    }
    assert Alone(request, ended, old(domain.vm)) == Finish(request, ended, ReadState, old(domain.vm));
    var state := domain.GetState(request.faults.read);
    if state.Err? {
      return Failure(Wrapped(GettingState, Libvirt(state.code)));
    }
    assert Alone(request, ended, old(domain.vm)) == Finish(request, ended, Act(state.value), old(domain.vm));
    var err := domain.Carry(Kind.Shutdown, request.faults.act, request.faults.refusal);
    if err.Some? {
      assert Alone(request, ended, old(domain.vm)) == Finish(request, ended, Recheck(err.value), domain.vm);
      active := domain.IsActive(request.faults.recheck);
      if active.Ok? && !active.value {
        return Failure(Wrapped(AlreadyStopped, Known(Conflict)));
      }
      assert Finish(request, ended, Recheck(err.value), domain.vm) ==
             (domain.vm, Failure(Classify(Kind.Shutdown, err.value)));
      match err.value
      case OperationInvalid => return Failure(Wrapped(WrongState, Known(Conflict)));
      case NoSupport | ConfigUnsupported | ArgumentUnsupported | OperationUnsupported =>
        return Failure(Wrapped(NoSuchSupport, Known(Unsupported)));
      case _ => return Failure(Wrapped(Operating, Libvirt(err.value)));
    }
    assert Alone(request, ended, old(domain.vm)) == Finish(request, ended, Reread(state.value), domain.vm);
    var current := domain.GetState(request.faults.reread);
    outcome := Success(if current.Ok? then current.value else state.value);
    assert Finish(request, ended, Reread(state.value), domain.vm) == (domain.vm, outcome);
  }

  /** What `simpleAction` is given to run. */
  method Operation(domain: Domain, request: Request, state: VmState) returns (failure: Option<Error>)
    requires request.kind.Pause? || request.kind.Resume? || request.kind.Reset?
    modifies domain
    ensures failure.Some? && Is(failure.value, Conflict) <==>
            (request.kind.Pause? && state.Paused?) || (request.kind.Resume? && !state.Paused?)
    ensures failure.Some? && Is(failure.value, Conflict) ==>
              && domain.vm == old(domain.vm)
              && failure.value == Wrapped(if request.kind.Pause? then AlreadyPaused else NotPaused, Known(Conflict))
    ensures !(failure.Some? && Is(failure.value, Conflict)) ==>
              var (vm, reply) := Perform(request, false, Act(state), old(domain.vm));
              && domain.vm == vm
              && failure == if reply.Failed? then Some(Libvirt(reply.code)) else None
  {
    if request.kind.Pause? && state.Paused? {
      return Some(Wrapped(AlreadyPaused, Known(Conflict)));
    }
    if request.kind.Resume? && !state.Paused? {
      return Some(Wrapped(NotPaused, Known(Conflict)));
    }
    var err := domain.Carry(request.kind, request.faults.act, request.faults.refusal);
    failure := if err.Some? then Some(Libvirt(err.value)) else None;
  }

  /** Pause, Resume and Reset share one body; the operation itself may refuse first. */
  method SimpleAction(domain: Domain, request: Request, ghost ended: bool) returns (outcome: Outcome)
    requires request.kind.Pause? || request.kind.Resume? || request.kind.Reset?
    modifies domain
    ensures (domain.vm, outcome) == Alone(request, ended, old(domain.vm))
  {
    var active := domain.IsActive(request.faults.check);
    if active.Err? {
      return Failure(Wrapped(GettingActivity, Libvirt(active.code)));
    }
    if !active.value {
      return Failure(Wrapped(IsStopped, Known(Conflict)));
    }
    assert Alone(request, ended, old(domain.vm)) == Finish(request, ended, ReadState, old(domain.vm));
    var state := domain.GetState(request.faults.read);
    if state.Err? {
      return Failure(Wrapped(GettingState, Libvirt(state.code)));
    }
    assert Advance(request.kind, ReadState, Reply.State(state.value)) == Act(state.value) ==>
             Alone(request, ended, old(domain.vm)) == Finish(request, ended, Act(state.value), old(domain.vm));
    var failure := Operation(domain, request, state.value);
    if failure.Some? {
      var e := failure.value;
      if Is(e, Conflict) {
        return Failure(Wrapped(WrongState, e));
      }
      assert Finish(request, ended, Act(state.value), old(domain.vm)) ==
             (domain.vm, Failure(Classify(request.kind, e.code)));
      if IsCode(e, OperationInvalid) {
        return Failure(Wrapped(WrongState, Known(Conflict)));
      }
      if IsCode(e, NoSupport) || IsCode(e, OperationUnsupported) {
        return Failure(Wrapped(NoSuchSupport, Known(Unsupported)));
      }
      return Failure(Wrapped(Operating, e));
    }
    outcome := Success(if request.kind.Pause? then Paused else Running);
    assert Finish(request, ended, Act(state.value), old(domain.vm)) == (domain.vm, outcome);
  }

  method Reboot(domain: Domain, request: Request, ghost ended: bool) returns (outcome: Outcome)
    requires request.kind == Kind.Reboot
    modifies domain
    ensures (domain.vm, outcome) == Alone(request, ended, old(domain.vm))
  {
    var active := domain.IsActive(request.faults.check);
    if active.Err? {
      return Failure(Wrapped(GettingActivity, Libvirt(active.code)));
    }
    if !active.value {
      return Failure(Wrapped(IsStopped, Known(Conflict)));
    }
    assert Alone(request, ended, old(domain.vm)) == Finish(request, ended, ReadState, old(domain.vm));
    var state := domain.GetState(request.faults.read);
    if state.Err? {
      return Failure(Wrapped(GettingState, Libvirt(state.code)));
    }
    assert Alone(request, ended, old(domain.vm)) == Finish(request, ended, Act(state.value), old(domain.vm));
    var err := domain.Carry(Kind.Reboot, request.faults.act, request.faults.refusal);
    if err.Some? {
      assert Finish(request, ended, Act(state.value), old(domain.vm)) ==
             (domain.vm, Failure(Classify(Kind.Reboot, err.value)));
      match err.value
      case OperationInvalid => return Failure(Wrapped(WrongState, Known(Conflict)));
      case NoSupport | OperationUnsupported => return Failure(Wrapped(NoSuchSupport, Known(Unsupported)));
      case _ => return Failure(Wrapped(Operating, Libvirt(err.value)));
    }
    outcome := Success(state.value);
    assert Finish(request, ended, Act(state.value), old(domain.vm)) == (domain.vm, outcome);
  }

  /** The error for a snapshot that could not be found. */
  method SnapshotLookupError(code: Code) returns (e: Error)
    ensures forall kind :: Advance(kind, FindSnapshot, Failed(code)) == Finished(Failure(e))
  {
    if IsCode(Libvirt(code), NoDomainSnapshot) {
      return Wrapped(LookingUp, Known(SnapshotNotFound));
    }
    e := Wrapped(LookingUp, Libvirt(code));
  }

  /** The error for a snapshot operation that libvirt refused or failed. */
  method SnapshotOperationError(kind: Kind, code: Code) returns (e: Error)
    requires IsSnapshot(kind)
    ensures e == Classify(kind, code)
  {
    match code
    case OperationInvalid => e := Wrapped(WrongState, Known(Conflict));
    case NoSupport | OperationUnsupported | ConfigUnsupported => e := Wrapped(NoSuchSupport, Known(Unsupported));
    case _ => e := Wrapped(Operating, Libvirt(code));
  }

  /** Revert or delete under the lock: find the snapshot, look at the context once more, act. */
  method ChangeSnapshot(domain: Domain, request: Request, ended: bool) returns (outcome: Outcome)
    requires request.kind.RevertSnapshot? || request.kind.DeleteSnapshot?
    modifies domain
    ensures (domain.vm, outcome) == Alone(request, ended, old(domain.vm))
  {
    var err := domain.SnapshotLookupByName(request.kind.name, request.faults.find);
    if err.Some? {
      var e := SnapshotLookupError(err.value);
      return Failure(e);
    }
    assert Alone(request, ended, old(domain.vm)) == Finish(request, ended, CheckContext, old(domain.vm));
    if ended {
      return Failure(Wrapped(Cancelled, ContextEnded));
    }
    assert Alone(request, ended, old(domain.vm)) == Finish(request, ended, Act(NoState), old(domain.vm));
    err := domain.Carry(request.kind, request.faults.act, request.faults.refusal);
    if err.Some? {
      var e := SnapshotOperationError(request.kind, err.value);
      outcome := Failure(e);
    } else {
      outcome := Success(NoState);
    }
    assert Finish(request, ended, Act(NoState), old(domain.vm)) == (domain.vm, outcome);
  }

  /**
   Creation has its description read afterwards; if that fails, so does the request, although
   the VM has the snapshot by then.
   */
  method CreateSnapshot(domain: Domain, request: Request, ended: bool) returns (outcome: Outcome)
    requires request.kind.CreateSnapshot?
    modifies domain
    ensures (domain.vm, outcome) == Alone(request, ended, old(domain.vm))
    ensures domain.vm.snapshots == old(domain.vm).snapshots + {request.kind.name} || domain.vm == old(domain.vm)
    ensures domain.vm != old(domain.vm) <==>
            outcome.Success? || (outcome.error.Wrapped? && outcome.error.detail.Describing?)
  {
    if ended {
      return Failure(Wrapped(Cancelled, ContextEnded));
    }
    assert Alone(request, ended, old(domain.vm)) == Finish(request, ended, Act(NoState), old(domain.vm));
    var err := domain.Carry(request.kind, request.faults.act, request.faults.refusal);
    if err.Some? {
      var e := SnapshotOperationError(request.kind, err.value);
      outcome := Failure(e);
      assert Finish(request, ended, Act(NoState), old(domain.vm)) == (domain.vm, outcome);
      return;
    }
    assert Alone(request, ended, old(domain.vm)) == Finish(request, ended, Describe, domain.vm);
    if request.faults.describe.Some? {
      return Failure(Wrapped(Describing, Libvirt(request.faults.describe.value)));
    }
    outcome := Success(NoState);
  }
}
