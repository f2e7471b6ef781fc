/**
 What the reconciler promises over every run of its machine: no false drift, rows that agree
 with their instances, and one call per workspace within the slots.
 */
module ReconcilerRuns {
  import opened Wrappers
  import opened Lifecycle
  import opened SlotQueue
  import opened Reconciler

  lemma StepKeepsInv(w: World, a: Action)
    requires Reconciler.Inv(w)
    ensures Reconciler.Inv(Next(w, a))
  {
    match a
    case Select(stage, ids, now, pointsDone) => SelectKeepsInv(w, stage, ids, now, pointsDone);
    case Act(now) => ActKeepsInv(w, now);
    case Hand => HandKeepsInv(w);
    case Release(id) => ReleaseKeepsInv(w, id);
    case Drop(id) => DropKeepsInv(w, id);
    case ApiWrite(_, _) => ApiKeepsInv(w, a);
    case ApiAdd(_, _) => ApiKeepsInv(w, a);
    case Disturb(id, status) => EffectKeepsInv(w, id, true, status);
    case Effect(id, ok, status) => EffectKeepsInv(w, id, ok, status);
    case RecordIt(id, create, operation, now) => RecordKeepsInv(w, id, create, operation, now);
    case RecordLost(id) => RecordKeepsInv(w, id, Created, Operated, 0);
    case _ => ListKeepsInv(w, a);
  }

  lemma {:induction false} RunKeepsInv(w: World, actions: seq<Action>)
    requires Reconciler.Inv(w)
    ensures Reconciler.Inv(Reconciler.Run(w, actions))
    decreases |actions|
  {
    if actions != [] {
      StepKeepsInv(w, actions[0]);
      RunKeepsInv(Next(w, actions[0]), actions[1..]);
    }
  }

  /** A worker that starts with nothing in flight, over rows that agree with their instances. */
  lemma FreshWorkerInv(rows: map<Id, Row>, insts: map<Id, Status>)
    requires forall id :: id in rows && rows[id].named ==>
      Agrees(rows[id], if id in insts then Some(insts[id]) else None)
    ensures Reconciler.Inv(World(rows, insts, map[], NO_SLOTS, IDLE, false))
  {
  }

  /* ---------- The theorems ---------- */

  /** No false drift: after any run, no step of a list refresh moves a running or stopped row. */
  lemma NoFalseDrift(w: World, actions: seq<Action>, now: int, id: Id)
    requires Reconciler.Inv(w)
    requires var v := Reconciler.Run(w, actions);
      v.sweep.stage == Refreshing && id in v.rows && (v.rows[id].state == Running || v.rows[id].state == Stopped)
    ensures var v := Reconciler.Run(w, actions);
      RowOf(Next(v, Act(now)), id) == RowOf(v, id)
  {
    RunKeepsInv(w, actions);
    var v := Reconciler.Run(w, actions);
    if v.sweep.todo != [] && v.sweep.moved == [] {
      ResolveKeepsInv(v, now);
    }
  }

  /** Between calls every running row's instance is up and every stopped row's instance is down. */
  lemma RestingRowsAgree(w: World, actions: seq<Action>, id: Id)
    requires Reconciler.Inv(w)
    ensures var v := Reconciler.Run(w, actions);
      id in v.rows && v.rows[id].named && id !in v.calls ==> Agrees(v.rows[id], InstOf(v, id))
  {
    RunKeepsInv(w, actions);
    assert PointOk(Reconciler.Run(w, actions), id);
  }

  /** track() never throws, so a workspace never has two calls in flight; at most six capped calls work at once. */
  lemma OneCallPerWorkspace(w: World, actions: seq<Action>, id: Id)
    requires Reconciler.Inv(w)
    ensures var v := Reconciler.Run(w, actions);
      && !v.clash && (id in v.sweep.todo || id in v.sweep.moved ==> id !in v.calls)
      && |v.slots.holders| <= 6
      && v.slots.arrived == v.slots.granted + v.slots.waiting
      && (id in v.calls && v.calls[id].kind != StopCall && v.calls[id].progress == Working ==> id in v.slots.holders)
      && (id in v.calls && v.calls[id].progress == Queued ==> |v.slots.holders| == 6)
  {
    RunKeepsInv(w, actions);
    var v := Reconciler.Run(w, actions);
    assert PointOk(v, id);
    if id in v.sweep.todo {
      assert Waiting(v.sweep.stage, RowOf(v, id), CallOf(v, id));
    }
    if id in v.sweep.moved {
      assert HandedOver(RowOf(v, id), CallOf(v, id));
    }
  }

  /** The throw is there: a second call for a workspace would be noticed, and a first one is kept track of. */
  lemma TrackNotices(w: World, id: Id, kind: Kind)
    ensures id in w.calls ==> Track(w, id, kind) == w.(clash := true)
    ensures id !in w.calls ==> id in Track(w, id, kind).calls && Track(w, id, kind).calls[id].kind == kind && Track(w, id, kind).clash == w.clash
  {
  }

  /**
   What happens outside is free to: the API may write any column but the state and add new rows,
   and an instance that a call is working on may change as that call may change it.
   */
  lemma OutsideActs(w: World, id: Id, row: Row, status: Status)
    ensures id in w.rows && row.state == w.rows[id].state && row.named == w.rows[id].named ==>
      Next(w, ApiWrite(id, row)) == w.(rows := w.rows[id := row])
    ensures id !in w.rows && id !in w.insts && row.state == Provisioning ==> Next(w, ApiAdd(id, row)) == w.(rows := w.rows[id := row])
    ensures AtWork(w, id) && (!w.calls[id].kind.OperateCall? || status == Down) ==>
      Next(w, Disturb(id, status)) == w.(insts := w.insts[id := status])
    ensures AtWork(w, id) ==> Next(w, Effect(id, false, Down)).insts == w.insts[id := Down]
  {
  }
}
