/**
 One workspace row and everything the worker does to it: what a sweep decides, what a
 finished controller call records, and what the controller's list resolves.
 */
module Lifecycle {
  import opened Wrappers

  datatype State = Provisioning | Stopped | Starting | Running | Stopping | Error

  datatype Desired = WantStopped | WantRunning | WantRestarting

  datatype Operation = ResetDocker | Rebuild | RebuildResetDocker | ReplaceHome

  /** The error codes the decisions tell apart. */
  datatype Fault = NoFault | PoolFull | StopFailed | InstanceMissing | OtherFault

  /** `named` says whether the row has an instance name. */
  datatype Row = Row(
    state: State, desired: Desired, named: bool, archived: bool, operation: Option<Operation>,
    fault: Fault, retries: nat, updatedAt: int)

  /** An instance's status in the controller's list; Between is any other word. */
  datatype Status = Up | Down | Between

  const MAX_START_RETRIES: nat := 5

  /** The wait before retry number `retries + 1`, or none when retries have run out. */
  function RetryWait(retries: nat): Option<int> {
    match retries
    case 0 => Some(10_000)
    case 1 => Some(30_000)
    case 2 => Some(60_000)
    case 3 => Some(120_000)
    case 4 => Some(300_000)
    case _ => None
  }

  /* ---------- What a sweep decides ---------- */

  predicate WantsUp(r: Row) {
    r.desired == WantRunning || r.desired == WantRestarting
  }

  predicate WantsCreate(r: Row) {
    r.state == Provisioning && r.named
  }

  predicate WantsStart(r: Row) {
    r.state == Stopped && WantsUp(r) && r.operation.None? && !r.archived && r.named
  }

  predicate WantsStop(r: Row) {
    r.state == Running && (r.desired == WantStopped || r.desired == WantRestarting || r.archived) && r.named
  }

  predicate WantsOperationStop(r: Row, pointsDone: bool) {
    r.state == Running && r.operation.Some? && r.named && (r.operation == Some(ResetDocker) || pointsDone)
  }

  predicate WantsRetry(r: Row, now: int) {
    && r.state == Error && WantsUp(r) && r.retries < MAX_START_RETRIES
    && r.operation.None? && !r.archived && r.named
    && RetryWait(r.retries).Some? && r.updatedAt + RetryWait(r.retries).value <= now
  }

  predicate WantsMaintenance(r: Row) {
    (r.state == Stopped || r.state == Error) && r.operation.Some? && r.named
  }

  /* ---------- What is written to the row ---------- */

  /** 'restarting' settles as 'running'; anything else stays. */
  function Settled(d: Desired): Desired {
    if d == WantRestarting then WantRunning else d
  }

  function MoveToStarting(r: Row, now: int): Row {
    r.(state := Starting, retries := if r.state == Error then r.retries + 1 else 0, fault := NoFault,
       desired := Settled(r.desired), updatedAt := now)
  }

  function MoveToStopping(r: Row, now: int): Row {
    r.(state := Stopping, updatedAt := now)
  }

  /** A grace or idle stop also decides what the row wants next. */
  function TimedStop(r: Row, now: int): Row {
    r.(state := Stopping, desired := if r.desired == WantRestarting then WantRunning else WantStopped, updatedAt := now)
  }

  datatype CreateOutcome = Created | Full | CreateFailed

  function RecordCreate(r: Row, o: CreateOutcome, now: int): Row {
    if r.state != Provisioning then r else
    match o
    case Created => r.(state := Stopped, fault := NoFault, updatedAt := now)
    case Full => if r.fault == PoolFull then r else r.(fault := PoolFull, updatedAt := now)
    case CreateFailed => r.(state := Error, fault := OtherFault, updatedAt := now)
  }

  function RecordStart(r: Row, ok: bool, now: int): Row {
    if r.state != Starting then r
    else if ok then r.(state := Running, retries := 0, updatedAt := now)
    else r.(state := Error, fault := OtherFault, updatedAt := now)
  }

  function RecordStop(r: Row, ok: bool, now: int): Row {
    if r.state != Stopping then r
    else if ok then r.(state := Stopped, desired := Settled(r.desired), updatedAt := now)
    else r.(state := Error, fault := StopFailed, updatedAt := now)
  }

  /** A replace-home may also end with the home untouched, or not be over yet. */
  datatype OperationOutcome = Operated | OperationFailed | Untouched | Unfinished

  function RecordOperation(r: Row, from: State, o: OperationOutcome, now: int): Row {
    if r.state != from then r else
    match o
    case Operated => r.(state := Stopped, operation := None, fault := NoFault, updatedAt := now)
    case OperationFailed => r.(state := Error, operation := None, fault := OtherFault, updatedAt := now)
    case Untouched => r.(operation := None, updatedAt := now)
    case Unfinished => r
  }

  /* ---------- What the controller's list resolves ---------- */

  /** Stop on an errored workspace whose instance still runs. */
  predicate StopsErrored(r: Row, read: Row, status: Option<Status>) {
    && read.state == Error && read.desired == WantStopped && read.fault != StopFailed && status == Some(Up)
    && r.state == Error && r.desired == WantStopped
  }

  /** The row after one tracked row's resolution; `read` is the row as the sweep read it. */
  function Resolve(r: Row, read: Row, status: Option<Status>, now: int): Row {
    if status.None? then
      if read.state == Error || r.state != read.state then r
      else r.(state := Error, fault := InstanceMissing, updatedAt := now)
    else if StopsErrored(r, read, status) then r.(state := Stopping, fault := NoFault, updatedAt := now)
    else if r.state != read.state then r
    else match (read.state, status.value)
      case (Running, Down) => r.(state := Stopped, updatedAt := now)
      case (Stopped, Up) => r.(state := Running, retries := 0, updatedAt := now)
      case (Starting, Up) => r.(state := Running, retries := 0, updatedAt := now)
      case (Starting, Down) => r.(state := Error, fault := OtherFault, updatedAt := now)
      case (Stopping, Down) => r.(state := Stopped, updatedAt := now)
      case (Stopping, Up) => r.(state := Running, updatedAt := now)
      case _ => r
  }

  /** The row's state and the instance's status say the same. */
  predicate Agrees(r: Row, status: Option<Status>) {
    (r.state == Running ==> status == Some(Up)) && (r.state == Stopped ==> status == Some(Down))
  }

  /** Resolving from a true list never moves a row that already agrees, and makes any row it settles agree. */
  lemma ResolveAgrees(r: Row, read: Row, status: Option<Status>, now: int)
    requires r.state == read.state && Agrees(r, status)
    ensures Agrees(Resolve(r, read, status, now), status)
    ensures r.state == Running || r.state == Stopped ==> Resolve(r, read, status, now) == r
  {
  }

  /**
   Whatever a row that is still as it was read says, it says the same as the list once resolved:
   with an instance that is up or down, or none, it agrees and is neither starting nor stopping
   for want of an answer.  An instance that is between words leaves it as it is.
   */
  lemma ResolveFollowsList(r: Row, read: Row, status: Option<Status>, now: int)
    requires r.state == read.state && r.state != Provisioning
    ensures var n := Resolve(r, read, status, now);
      && (status == Some(Between) ==> n == r)
      && (status != Some(Between) ==> Agrees(n, status))
      && (status == Some(Up) && r.state != Error ==> n.state == Running)
      && (status == Some(Down) && r.state != Error ==> n.state == if r.state == Starting then Error else Stopped)
      && (status.None? ==> n.state == Error && (r.state != Error ==> n.fault == InstanceMissing))
      && (r.state == Error ==> n.state == Error || (n.state == Stopping && status == Some(Up)))
  {
  }

  /** An errored row that was asked to stop is stopped while its instance is up, once for each time of asking. */
  lemma ErroredIsStoppedIff(r: Row, read: Row, status: Option<Status>, now: int)
    requires r.state == Error && read.state == Error
    ensures Resolve(r, read, status, now) ==
      if status == Some(Up) && r.desired == WantStopped && read.desired == WantStopped && read.fault != StopFailed
      then r.(state := Stopping, fault := NoFault, updatedAt := now) else r
  {
  }

  /** A row that has moved since it was read is left alone; one that is moved is stamped, and keeps what the student asked. */
  lemma ResolveTouches(r: Row, read: Row, status: Option<Status>, now: int)
    ensures var n := Resolve(r, read, status, now);
      && (r.state != read.state || n.state == r.state ==> n == r)
      && (n.state != r.state ==> n.updatedAt == now)
      && n.desired == r.desired && n.named == r.named && n.archived == r.archived && n.operation == r.operation
      && n.retries == (if n.state == Running && (r.state == Stopped || r.state == Starting) then 0 else r.retries)
      && n.fault == (if n.state == r.state then r.fault
                     else if n.state == Error then (if status.None? then InstanceMissing else OtherFault)
                     else if n.state == Stopping then NoFault else r.fault)
  {
  }
}
