/**
 Pending maintenance and timed stops in the reconciler's machine: a workspace with a pending
 operation is stopped first where it runs, the operation runs, and whatever comes of it is recorded
 on the row; one whose time is up is stopped.
 */
module Operations {
  import opened Wrappers
  import opened Lifecycle
  import opened SlotQueue
  import opened Reconciler
  import opened ReconcilerRuns

  ghost predicate Closed(R: World -> bool) {
    forall w, a :: R(w) ==> R(Next(w, a))
  }

  ghost predicate Reached(w: World, v: World) {
    exists actions: seq<Action> :: Reconciler.Run(w, actions) == v
  }

  lemma ReachedIsClosed(w: World) returns (R: World -> bool)
    ensures Closed(R) && R(w) && forall v :: R(v) ==> Reached(w, v)
  {
    R := v => Reached(w, v);
    assert Reconciler.Run(w, []) == w;
    forall v, a | R(v) ensures R(Next(v, a)) {
      var actions: seq<Action> :| Reconciler.Run(w, actions) == v;
      RunSnoc(w, actions, a);
    }
  }

  lemma {:induction false} RunSnoc(w: World, actions: seq<Action>, a: Action)
    ensures Reconciler.Run(w, actions + [a]) == Next(Reconciler.Run(w, actions), a)
    decreases |actions|
  {
    if actions == [] {
      assert actions + [a] == [a] && [a][1..] == [];
    } else {
      assert (actions + [a])[1..] == actions[1..] + [a];
      RunSnoc(Next(w, actions[0]), actions[1..], a);
    }
  }

  ghost predicate Stands(R: World -> bool, w: World) {
    Closed(R) && R(w) && Reconciler.Inv(w)
  }

  lemma Take(R: World -> bool, w: World, a: Action) returns (v: World)
    requires Stands(R, w)
    ensures v == Next(w, a) && Stands(R, v)
  {
    v := Next(w, a);
    StepKeepsInv(w, a);
  }

  /** No sweep is under way, the row has no call, and its instance is named. */
  predicate Idle(w: World, id: Id) {
    w.sweep == IDLE && id in w.rows && id !in w.calls && w.rows[id].named
  }

  /** The row with its call at a point, and nothing left for the sweep to do. */
  predicate With(w: World, id: Id, row: Row, call: Call) {
    w.sweep.todo == [] && w.sweep.moved == [] && id in w.rows && w.rows[id] == row && id in w.calls && w.calls[id] == call
  }

  lemma SlotGiven(w: World, id: Id, row: Row, kind: Kind)
    requires Reconciler.Inv(w) && With(w, id, row, Call(kind, Recorded))
    ensures var v := DoRelease(w, id); With(v, id, row, Call(kind, Released)) && v.slots.active <= w.slots.active
  {
    assert PointOk(w, id);
  }

  lemma RecordMade(w: World, id: Id, row: Row, kind: Kind, ok: bool, create: CreateOutcome, operation: OperationOutcome, now: int)
    requires With(w, id, row, Call(kind, Effected(ok)))
    ensures var v := DoRecord(w, id, create, operation, now);
      With(v, id, RecordRow(row, kind, ok, create, operation, now), Call(kind, Recorded)) && v.slots == w.slots
  {
  }

  lemma CallGone(w: World, id: Id, row: Row, kind: Kind)
    requires With(w, id, row, Call(kind, Released))
    ensures var v := Next(DoDrop(w, id), Abort);
      v.sweep == IDLE && id in v.rows && v.rows[id] == row && id !in v.calls && v.slots == w.slots
  {
  }

  lemma CallRecorded(R: World -> bool, w: World, id: Id, row: Row, kind: Kind, ok: bool, create: CreateOutcome, operation: OperationOutcome, now: int)
      returns (v: World)
    requires Stands(R, w) && With(w, id, row, Call(kind, Effected(ok)))
    ensures Stands(R, v) && With(v, id, RecordRow(row, kind, ok, create, operation, now), Call(kind, Recorded)) && v.slots == w.slots
  {
    RecordMade(w, id, row, kind, ok, create, operation, now);
    v := Take(R, w, RecordIt(id, create, operation, now));
  }

  lemma CallReleased(R: World -> bool, w: World, id: Id, row: Row, kind: Kind) returns (v: World)
    requires Stands(R, w) && With(w, id, row, Call(kind, Recorded))
    ensures Stands(R, v) && v.sweep == IDLE && id in v.rows && v.rows[id] == row && id !in v.calls && v.slots.active <= w.slots.active
  {
    SlotGiven(w, id, row, kind);
    v := Take(R, w, Release(id));
    CallGone(v, id, row, kind);
    v := Take(R, v, Drop(id));
    v := Take(R, v, Abort);
  }

  /** A finished call is recorded, gives its slot up and goes. */
  lemma CallEnds(R: World -> bool, w: World, id: Id, row: Row, kind: Kind, ok: bool, create: CreateOutcome, operation: OperationOutcome, now: int)
      returns (v: World)
    requires Stands(R, w) && With(w, id, row, Call(kind, Effected(ok)))
    ensures Stands(R, v) && v.sweep == IDLE && id in v.rows && id !in v.calls && v.slots.active <= w.slots.active
    ensures v.rows[id] == RecordRow(row, kind, ok, create, operation, now)
  {
    v := CallRecorded(R, w, id, row, kind, ok, create, operation, now);
    v := CallReleased(R, v, id, RecordRow(row, kind, ok, create, operation, now), kind);
  }

  /** A row that runs is stopped for its operation, which stays pending. */
  lemma StopsFirst(R: World -> bool, w: World, id: Id, now: int) returns (v: World)
    requires Stands(R, w) && Idle(w, id) && w.rows[id].state == Running && w.rows[id].operation.Some?
    ensures Stands(R, v) && Idle(v, id) && v.slots.active <= w.slots.active
    ensures v.rows[id].state == Stopped && v.rows[id].operation == w.rows[id].operation
    ensures v.rows[id].desired == if w.rows[id].desired == WantRestarting then WantRunning else w.rows[id].desired
  {
    var row := MoveToStopping(w.rows[id], now);
    v := StopBegins(R, w, id, row, now);
    v := StopFinishes(R, v, id, row, now);
  }

  lemma StopSelected(w: World, id: Id, now: int)
    requires Idle(w, id) && w.rows[id].state == Running && w.rows[id].operation.Some?
    ensures DoSelect(w, StoppingExplicit, [id], now, true) == w.(sweep := IDLE.(stage := StoppingExplicit, todo := [id]))
  {
  }

  lemma StopHanded(w: World, id: Id, row: Row, now: int)
    requires id in w.rows && id !in w.calls && w.rows[id].state == Running && row == MoveToStopping(w.rows[id], now)
    requires w.sweep == IDLE.(stage := StoppingExplicit, todo := [id])
    ensures var v := DoHand(DoAct(w, now)); With(v, id, row, Call(StopCall, Working)) && v.slots == w.slots
  {
  }

  lemma StopBegins(R: World -> bool, w: World, id: Id, row: Row, now: int) returns (v: World)
    requires Stands(R, w) && Idle(w, id) && w.rows[id].state == Running && w.rows[id].operation.Some?
    requires row == MoveToStopping(w.rows[id], now)
    ensures Stands(R, v) && With(v, id, row, Call(StopCall, Working)) && v.slots == w.slots
  {
    StopSelected(w, id, now);
    v := Take(R, w, Select(StoppingExplicit, [id], now, true));
    StopHanded(v, id, row, now);
    v := Take(R, v, Act(now));
    v := Take(R, v, Hand);
  }

  lemma OperationBegins(R: World -> bool, w: World, id: Id, now: int) returns (v: World)
    requires Stands(R, w) && Idle(w, id) && w.rows[id].operation.Some? && w.slots.active < 6
    requires w.rows[id].state == Stopped || w.rows[id].state == Error
    ensures Stands(R, v) && With(v, id, w.rows[id], Call(OperateCall(w.rows[id].state), Working))
  {
    v := Take(R, w, Select(Maintaining, [id], now, true));
    v := Take(R, v, Act(now));
  }

  /** With the row stopped or errored and a slot free, the operation runs and its outcome is recorded. */
  lemma OperationRuns(R: World -> bool, w: World, id: Id, outcome: OperationOutcome, now: int) returns (v: World)
    requires Stands(R, w) && Idle(w, id) && w.rows[id].operation.Some? && w.slots.active < 6
    requires w.rows[id].state == Stopped || w.rows[id].state == Error
    ensures Stands(R, v) && Idle(v, id)
    ensures v.rows[id].operation == if outcome == Unfinished then w.rows[id].operation else None
    ensures v.rows[id].state ==
      match outcome case Operated => Stopped case OperationFailed => Error case _ => w.rows[id].state
    ensures v.rows[id].desired == w.rows[id].desired && (outcome == Operated ==> v.rows[id].fault == NoFault)
  {
    var row, ok := w.rows[id], outcome == Operated;
    v := OperationBegins(R, w, id, now);
    v := Take(R, v, Effect(id, ok, Down));
    v := CallEnds(R, v, id, row, OperateCall(row.state), ok, Full, outcome, now);
  }

  // ---- Timed stops ----

  lemma TimedStopSelected(w: World, id: Id, now: int)
    requires Idle(w, id) && w.rows[id].state == Running
    ensures var v := DoHand(DoSelect(w, StoppingTimed, [id], now, false));
      && With(v, id, TimedStop(w.rows[id], now), Call(StopCall, Working)) && v.slots == w.slots
  {
  }

  lemma TimedStopBegins(R: World -> bool, w: World, id: Id, now: int) returns (v: World)
    requires Stands(R, w) && Idle(w, id) && w.rows[id].state == Running
    ensures Stands(R, v) && With(v, id, TimedStop(w.rows[id], now), Call(StopCall, Working))
  {
    TimedStopSelected(w, id, now);
    v := Take(R, w, Select(StoppingTimed, [id], now, false));
    v := Take(R, v, Hand);
  }

  lemma StopFinishes(R: World -> bool, w: World, id: Id, row: Row, now: int) returns (v: World)
    requires Stands(R, w) && With(w, id, row, Call(StopCall, Working)) && row.state == Stopping
    ensures Stands(R, v) && v.sweep == IDLE && id in v.rows && id !in v.calls && v.slots.active <= w.slots.active
    ensures v.rows[id] == row.(state := Stopped, desired := Settled(row.desired), updatedAt := now)
  {
    v := Take(R, w, Effect(id, true, Down));
    v := CallEnds(R, v, id, row, StopCall, true, Full, Unfinished, now);
  }

  /** A workspace whose time is up is stopped in one statement, and its stop begun and recorded; a restart under way is kept as a start. */
  lemma TimedStopIsCarriedOut(w: World, id: Id, now: int) returns (v: World)
    requires Reconciler.Inv(w) && Idle(w, id) && w.rows[id].state == Running
    ensures Reached(w, v) && Idle(v, id)
    ensures v.rows[id].state == Stopped && v.rows[id].operation == w.rows[id].operation
    ensures v.rows[id].desired == if w.rows[id].desired == WantRestarting then WantRunning else WantStopped
  {
    var R := ReachedIsClosed(w);
    v := TimedStopBegins(R, w, id, now);
    v := StopFinishes(R, v, id, TimedStop(w.rows[id], now), now);
  }

  /**
   Every pending operation can be carried out, wherever its workspace rests: from there a run stops
   it where it runs, and then the operation ends in each of the ways it may.  Done, the workspace is
   stopped and the operation no longer pending; failed, it is in error and not tried again; with the
   home untouched it rests where it was; and one that is not over yet stays pending.
   */
  lemma OperationIsCarriedOut(w: World, id: Id, outcome: OperationOutcome, now: int) returns (v: World)
    requires Reconciler.Inv(w) && Idle(w, id) && w.rows[id].operation.Some? && w.slots.active < 6
    requires w.rows[id].state == Running || w.rows[id].state == Stopped || w.rows[id].state == Error
    ensures Reached(w, v) && Idle(v, id)
    ensures v.rows[id].operation == if outcome == Unfinished then w.rows[id].operation else None
    ensures v.rows[id].state ==
      match outcome case Operated => Stopped case OperationFailed => Error
      case _ => if w.rows[id].state == Running then Stopped else w.rows[id].state
  {
    var R := ReachedIsClosed(w);
    var u := w;
    if w.rows[id].state == Running {
      u := StopsFirst(R, w, id, now);
    }
    v := OperationRuns(R, u, id, outcome, now);
  }
}
