/** Error values, the chains built around them, and the HTTP status each chain comes out as. */
module Errors {

  datatype Sentinel = NotFound | SnapshotNotFound | Conflict | Unsupported

  /** The libvirt error codes the program distinguishes. */
  datatype Code =
    | NoDomain
    | NoDomainSnapshot
    | OperationInvalid
    | NoSupport
    | ConfigUnsupported
    | ArgumentUnsupported
    | OperationUnsupported
    | OtherCode(number: int)

  /** What a wrapping message says. */
  datatype Detail =
    | GettingActivity
    | GettingState
    | AlreadyRunning
    | AlreadyStopped
    | IsStopped
    | AlreadyPaused
    | NotPaused
    | WrongState
    | NoSuchSupport
    | LookingUp
    | Identifying
    | Operating
    | Describing
    | Cancelled

  datatype Error =
    | Known(sentinel: Sentinel)
    | Libvirt(code: Code)
    | ContextEnded
    | Wrapped(detail: Detail, cause: Error)

  /** Whether the chain contains the given sentinel. */
  predicate Is(e: Error, s: Sentinel) {
    match e
    case Known(s') => s' == s
    case Wrapped(_, cause) => Is(cause, s)
    case _ => false
  }

  /** Whether the chain contains the given libvirt code. */
  predicate IsCode(e: Error, c: Code) {
    match e
    case Libvirt(c') => c' == c
    case Wrapped(_, cause) => IsCode(cause, c)
    case _ => false
  }

  function Root(e: Error): Error {
    if e.Wrapped? then Root(e.cause) else e
  }

  /** The status written for a failed request, tested in the handler's order. */
  function Status(e: Error): nat {
    if Is(e, NotFound) then 404
    else if Is(e, SnapshotNotFound) then 404
    else if Is(e, Conflict) then 409
    else if Is(e, Unsupported) then 422
    else 503
  }

  /** Wrapping never changes the status, and no libvirt code leaks into one. */
  lemma {:induction false} StatusIsOfRoot(e: Error)
    ensures Status(e) == Status(Root(e))
    ensures !Root(e).Known? ==> Status(e) == 503
    ensures forall s :: Is(e, s) <==> Root(e) == Known(s)
    ensures forall c :: IsCode(e, c) <==> Root(e) == Libvirt(c)
  {
    if e.Wrapped? {
      StatusIsOfRoot(e.cause);
    }
  }
}
