/**
 What a sweep decides for one row and what the end of a call writes to it, told as one decision:
 at most one stage of a sweep wants a row, and a call that ends says of the row what happened.
 */
module Decisions {
  import opened Wrappers
  import opened Lifecycle
  import opened Reconciler

  /** The milliseconds before the next retry, by how many there have been. */
  const WAITS: seq<int> := [10_000, 30_000, 60_000, 120_000, 300_000]

  /** The one stage that wants the row, timers apart. */
  function WantedBy(r: Row, now: int, pointsDone: bool): Option<Stage> {
    if !r.named then None
    else match r.state
      case Provisioning => Some(Creating)
      case Starting => None
      case Stopping => None
      case Running =>
        if r.archived || r.desired != WantRunning then Some(StoppingExplicit)
        else if r.operation.Some? && (pointsDone || r.operation.value == ResetDocker) then Some(StoppingExplicit)
        else None
      case Stopped =>
        if r.operation.Some? then Some(Maintaining)
        else if r.desired != WantStopped && !r.archived then Some(Starting_)
        else None
      case Error =>
        if r.operation.Some? then Some(Maintaining)
        else if r.desired != WantStopped && !r.archived && r.retries < 5 && now - r.updatedAt >= WAITS[r.retries] then Some(Retrying)
        else None
  }

  /** A stage of a sweep wants a row exactly when it is that one: never two, so their order does not matter to a row. */
  lemma OneStageWants(stage: Stage, r: Row, now: int, pointsDone: bool)
    requires IsWork(stage) && stage != StoppingTimed
    ensures Qualifies(stage, r, now, pointsDone) <==> WantedBy(r, now, pointsDone) == Some(stage)
  {
    assert r.state == Error && r.retries < 5 ==> RetryWait(r.retries) == Some(WAITS[r.retries]);
  }

  /** The state a call works in. */
  predicate WorksOn(r: Row, kind: Kind) {
    match kind
    case CreateCall => r.state == Provisioning
    case StartCall => r.state == Starting
    case StopCall => r.state == Stopping
    case OperateCall(from) => r.state == from
  }

  /** A row that has left its call's state is not written to. */
  lemma LateRecordIsNone(r: Row, kind: Kind, ok: bool, create: CreateOutcome, operation: OperationOutcome, now: int)
    requires !WorksOn(r, kind)
    ensures RecordRow(r, kind, ok, create, operation, now) == r
  {
  }

  /**
   What a call that succeeded leaves: a created workspace stopped; a started one running, its
   retries forgotten; a stopped one stopped, a restart turned into a start; after maintenance one
   stopped with nothing pending.
   */
  lemma SuccessIsRecorded(r: Row, kind: Kind, create: CreateOutcome, operation: OperationOutcome, now: int)
    requires WorksOn(r, kind)
    ensures var v := RecordRow(r, kind, true, create, operation, now);
      && v.state == (if kind == StartCall then Running else Stopped)
      && v.retries == (if kind == StartCall then 0 else r.retries)
      && v.desired == (if kind == StopCall && r.desired == WantRestarting then WantRunning else r.desired)
      && v.operation == (if kind.OperateCall? then None else r.operation)
      && v.fault == (if kind.OperateCall? || kind == CreateCall then NoFault else r.fault)
      && v.updatedAt == now && v.named == r.named && v.archived == r.archived
  {
  }

  /**
   What a call that failed leaves: an errored workspace with the kind of its fault, still wanting what
   it wanted and with its retries counted; but a creation that found the pool full waits for room,
   stamped the first time, and a home left untouched or not imported yet leaves the state as it was.
   */
  lemma FailureIsRecorded(r: Row, kind: Kind, create: CreateOutcome, operation: OperationOutcome, now: int)
    requires WorksOn(r, kind)
    ensures var v := RecordRow(r, kind, false, create, operation, now);
      var full := kind == CreateCall && create == Full;
      var still := kind.OperateCall? && (operation == Untouched || operation == Unfinished);
      && v.state == (if full || still then r.state else Error)
      && v.fault == (if full then PoolFull else if still then r.fault else if kind == StopCall then StopFailed else OtherFault)
      && v.operation == (if kind.OperateCall? && operation != Unfinished then None else r.operation)
      && v.updatedAt == (if (full && r.fault == PoolFull) || (still && operation == Unfinished) then r.updatedAt else now)
      && v.desired == r.desired && v.retries == r.retries && v.named == r.named && v.archived == r.archived
  {
  }

  /** What a sweep writes as it begins a start, a retry or a stop. */
  lemma BeginningsAreWritten(r: Row, now: int)
    ensures MoveToStarting(r, now) == Row(Starting, if r.desired == WantRestarting then WantRunning else r.desired, r.named, r.archived,
      r.operation, NoFault, if r.state == Error then r.retries + 1 else 0, now)
    ensures MoveToStopping(r, now) == Row(Stopping, r.desired, r.named, r.archived, r.operation, r.fault, r.retries, now)
    ensures TimedStop(r, now) == MoveToStopping(r, now).(desired := if r.desired == WantRestarting then WantRunning else WantStopped)
  {
  }
}
