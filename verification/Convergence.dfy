/**
 A row left to itself reaches what it wants: a ranking of one row's situation in the
 reconciler's world, which every step of a benign run lowers or leaves.
 */
module Convergence {
  import opened Wrappers
  import opened Lifecycle
  import opened SlotQueue
  import opened Reconciler
  import opened ReconcilerRuns

  function LegsDown(desired: Desired): nat {
    if desired == WantStopped then 0 else 1
  }

  function LegsUp(desired: Desired): nat {
    match desired
    case WantRunning => 0
    case WantStopped => 1
    case WantRestarting => 2
  }

  /** Controller calls still to be finished before the row is what it wants to be. */
  function Legs(state: State, desired: Desired): nat {
    match state
    case Stopped => LegsDown(desired)
    case Running => LegsUp(desired)
    case Starting => 1 + LegsUp(desired)
    case Stopping => 1 + LegsDown(desired)
    case Provisioning => 1 + LegsDown(desired)
    case Error => 0
  }

  /** Steps left within the present leg. */
  function Within(c: Option<Call>, moved: bool, legs: nat): nat {
    match c
    case None => if moved then 6 else if legs > 0 then 7 else 0
    case Some(call) =>
      match call.progress
      case Queued => 5
      case Working => 4
      case Effected(_) => 3
      case Recorded => 9
      case Released => 8
  }

  /** Everything about one row that the ranking looks at. */
  datatype Situation = Situation(row: Row, call: Option<Call>, moved: bool)

  function SituationOf(w: World, id: Id): Situation
    requires id in w.rows
  {
    Situation(w.rows[id], CallOf(w, id), id in w.sweep.moved)
  }

  function Rank(s: Situation): nat {
    10 * Legs(s.row.state, s.row.desired) + Within(s.call, s.moved, Legs(s.row.state, s.row.desired))
  }

  /** Nothing else is asked of the row, and a start or stop that is under way has its call. */
  predicate Calm(s: Situation) {
    && s.row.named && !s.row.archived && s.row.operation.None? && s.row.state != Error
    && (s.row.state == Starting || s.row.state == Stopping ==> s.call.Some? || s.moved)
    && (s.call.Some? ==> !s.call.value.kind.OperateCall? && s.call.value.progress != Effected(false))
    && (s.call.Some? ==> !s.moved)
    && (s.moved ==> s.row.state == Stopping)
    && (s.call.Some? && (s.row.state == Starting || s.row.state == Stopping) ==>
          s.call.value.progress != Recorded && s.call.value.progress != Released)
  }

  /** The row is as it wants to be and nothing is in flight. */
  predicate AtRest(s: Situation) {
    s.call.None? && !s.moved && s.row.state == (if s.row.desired == WantStopped then Stopped else Running)
    && s.row.desired != WantRestarting
  }

  /** If the sweep has selected the row, it still wants what it was selected for. */
  predicate SelectedFresh(w: World, id: Id)
    requires id in w.rows
  {
    id in w.sweep.todo ==>
      match w.sweep.stage
      case Creating => WantsCreate(w.rows[id])
      case Starting_ => WantsStart(w.rows[id])
      case StoppingExplicit => WantsStop(w.rows[id])
      case Refreshing => true
      case _ => false
  }

  /** The row is calm and nobody has a stale plan for it. */
  predicate Settling(w: World, id: Id) {
    id in w.rows && Calm(SituationOf(w, id)) && SelectedFresh(w, id)
  }

  /** The controller succeeds for this row, no timer stops it, and the API and the database leave it alone. */
  predicate Benign(w: World, a: Action, id: Id) {
    match a
    case Select(stage, ids, _, _) => stage == StoppingTimed ==> id !in ids
    case Abort => id !in w.sweep.moved
    case Effect(q, ok, _) => q == id ==> ok
    case RecordLost(q) => q != id
    case ApiWrite(q, _) => q != id
    case _ => true
  }

  lemma RankZeroIffAtRest(s: Situation)
    requires Calm(s)
    ensures Rank(s) == 0 <==> AtRest(s)
  {
  }

  /** What one step may do to the row's situation. */
  predicate Progresses(s: Situation, t: Situation) {
    Calm(t) && (t == s || Rank(t) < Rank(s))
  }

  /** One benign step leaves the row's situation alone or brings it closer to rest. */
  predicate StepsOn(w: World, v: World, id: Id)
    requires id in w.rows
  {
    Settling(v, id) && Progresses(SituationOf(w, id), SituationOf(v, id))
  }

  /** A step that leaves the row, its call and the sweep's plans for it alone. */
  lemma LeftAlone(w: World, v: World, id: Id)
    requires Settling(w, id) && id in v.rows && v.sweep == w.sweep
    requires v.rows[id] == w.rows[id] && CallOf(v, id) == CallOf(w, id)
    ensures StepsOn(w, v, id)
  {
  }

  /** A step of the row's own call; the sweep has no plans for a row in flight. */
  lemma OwnCall(w: World, v: World, id: Id)
    requires Reconciler.Inv(w) && Settling(w, id) && id in w.calls && id in v.rows && v.sweep == w.sweep
    requires Progresses(SituationOf(w, id), SituationOf(v, id))
    ensures StepsOn(w, v, id)
  {
  }

  lemma CallStepProgresses(w: World, a: Action, id: Id)
    requires Reconciler.Inv(w) && Settling(w, id) && Benign(w, a, id)
    requires a.Disturb? || a.Effect? || a.RecordIt? || a.RecordLost? || a.Drop?
    ensures StepsOn(w, Next(w, a), id)
  {
    var v := Next(w, a);
    if a.id != id || v == w || a.Disturb? {
      LeftAlone(w, v, id);
    } else {
      assert PointOk(w, id);
      OwnCall(w, v, id);
    }
  }

  lemma ReleaseProgresses(w: World, q: Id, id: Id)
    requires Reconciler.Inv(w) && Settling(w, id)
    ensures StepsOn(w, DoRelease(w, q), id)
  {
    var v := DoRelease(w, q);
    if CallOf(v, id) == CallOf(w, id) {
      LeftAlone(w, v, id);
    } else if q == id {
      assert PointOk(w, id);
      OwnCall(w, v, id);
    } else {
      assert w.slots.waiting != [] && w.slots.waiting[0] == id;
      assert PointOk(w, id);
      OwnCall(w, v, id);
    }
  }

  lemma TrackSituation(w: World, q: Id, kind: Kind, id: Id)
    requires id in w.rows && q !in w.calls
    ensures var v := Track(w, q, kind);
      && v.rows == w.rows && v.sweep == w.sweep
      && (q != id ==> CallOf(v, id) == CallOf(w, id))
      && (q == id ==> CallOf(v, id).Some? && CallOf(v, id).value.kind == kind
                      && (CallOf(v, id).value.progress == Working || CallOf(v, id).value.progress == Queued))
  {
  }

  lemma ResolvesElsewhere(w: World, q: Id, now: int, id: Id)
    requires q in w.rows && q != id && id in w.rows && w.sweep.moved == []
    ensures var v := DoResolve(w, q, now);
      && id in v.rows && v.rows[id] == w.rows[id] && v.calls == w.calls
      && v.sweep.stage == w.sweep.stage && v.sweep.todo == w.sweep.todo && id !in v.sweep.moved
  {
  }

  /** What acting on another row leaves of this one, its call and the sweep's plans for it. */
  lemma ActsElsewhere(w: World, now: int, id: Id)
    requires Reconciler.Inv(w) && id in w.rows && w.sweep.todo != [] && w.sweep.moved == [] && w.sweep.todo[0] != id
    ensures var v := DoAct(w, now);
      && id in v.rows && v.rows[id] == w.rows[id] && CallOf(v, id) == CallOf(w, id)
      && v.sweep.stage == w.sweep.stage && id !in v.sweep.moved && (id in v.sweep.todo ==> id in w.sweep.todo)
  {
    var q := w.sweep.todo[0];
    var v := w.(sweep := w.sweep.(todo := w.sweep.todo[1..]));
    assert Waiting(w.sweep.stage, RowOf(w, q), CallOf(w, q));
    assert id in w.sweep.todo[1..] ==> id in w.sweep.todo;
    match w.sweep.stage
    case Creating => TrackSituation(v, q, CreateCall, id);
    case Starting_ => TrackSituation(v.(rows := v.rows[q := MoveToStarting(w.rows[q], now)]), q, StartCall, id);
    case Retrying => TrackSituation(v.(rows := v.rows[q := MoveToStarting(w.rows[q], now)]), q, StartCall, id);
    case Maintaining => TrackSituation(v, q, OperateCall(w.rows[q].state), id);
    case Refreshing => ResolvesElsewhere(v, q, now, id);
    case _ =>
  }

  /** The sweep acts on another row. */
  lemma ActElsewhere(w: World, now: int, id: Id)
    requires Reconciler.Inv(w) && Settling(w, id) && w.sweep.todo != [] && w.sweep.moved == [] && w.sweep.todo[0] != id
    ensures StepsOn(w, DoAct(w, now), id)
  {
    ActsElsewhere(w, now, id);
    var v := DoAct(w, now);
    assert id !in v.sweep.moved;
  }

  /** The sweep acts on the row itself. */
  lemma ActHere(w: World, now: int, id: Id)
    requires Reconciler.Inv(w) && Settling(w, id) && w.sweep.todo != [] && w.sweep.moved == [] && w.sweep.todo[0] == id
    requires w.sweep.stage != Refreshing
    ensures StepsOn(w, DoAct(w, now), id)
  {
    assert id in w.sweep.todo;
    assert Waiting(w.sweep.stage, RowOf(w, id), CallOf(w, id));
    assert id !in w.sweep.todo[1..];
    var r := w.rows[id];
    var u := w.(sweep := w.sweep.(todo := w.sweep.todo[1..]));
    if w.sweep.stage == Creating {
      TrackSituation(u, id, CreateCall, id);
    } else if w.sweep.stage == Starting_ {
      TrackSituation(u.(rows := u.rows[id := MoveToStarting(r, now)]), id, StartCall, id);
    }
  }

  lemma ActProgresses(w: World, now: int, id: Id)
    requires Reconciler.Inv(w) && Settling(w, id)
    ensures StepsOn(w, DoAct(w, now), id)
  {
    if w.sweep.todo == [] || w.sweep.moved != [] {
      LeftAlone(w, DoAct(w, now), id);
    } else if w.sweep.todo[0] != id {
      ActElsewhere(w, now, id);
    } else if w.sweep.stage == Refreshing {
      ResolveProgresses(w, now, id);
    } else {
      ActHere(w, now, id);
    }
  }

  lemma ResolveProgresses(w: World, now: int, id: Id)
    requires Reconciler.Inv(w) && Settling(w, id)
    requires w.sweep.stage == Refreshing && w.sweep.todo != [] && w.sweep.moved == []
    ensures StepsOn(w, DoAct(w, now), id)
  {
    var q := w.sweep.todo[0];
    assert Waiting(w.sweep.stage, RowOf(w, q), CallOf(w, q));
    assert PointOk(w, q);
    assert ReadFits(RowOf(w, q), ReadOf(w.sweep, q), SeenOf(w.sweep, q), InstOf(w, q));
    if q == id {
      ResolveAgrees(w.rows[q], w.sweep.read[q], SeenOf(w.sweep, q), now);
    }
  }

  lemma HandProgresses(w: World, id: Id)
    requires Reconciler.Inv(w) && Settling(w, id)
    ensures StepsOn(w, DoHand(w), id)
  {
    if w.sweep.moved != [] {
      var q := w.sweep.moved[0];
      assert HandedOver(RowOf(w, q), CallOf(w, q));
      TrackSituation(w.(sweep := w.sweep.(moved := w.sweep.moved[1..])), q, StopCall, id);
      assert w.sweep.moved == [q] + w.sweep.moved[1..];
      assert id in w.sweep.moved[1..] ==> id != q;
    }
  }

  lemma SelectProgresses(w: World, stage: Stage, ids: seq<Id>, now: int, pointsDone: bool, id: Id)
    requires Reconciler.Inv(w) && Settling(w, id) && Benign(w, Select(stage, ids, now, pointsDone), id)
    ensures StepsOn(w, DoSelect(w, stage, ids, now, pointsDone), id)
  {
  }

  lemma StepProgresses(w: World, a: Action, id: Id)
    requires Reconciler.Inv(w) && Settling(w, id) && Benign(w, a, id)
    ensures StepsOn(w, Next(w, a), id)
  {
    match a
    case Select(stage, ids, now, pointsDone) => SelectProgresses(w, stage, ids, now, pointsDone, id);
    case Act(now) => ActProgresses(w, now, id);
    case Hand => HandProgresses(w, id);
    case Release(q) => ReleaseProgresses(w, q, id);
    case Disturb(_, _) => CallStepProgresses(w, a, id);
    case Effect(_, _, _) => CallStepProgresses(w, a, id);
    case RecordIt(_, _, _, _) => CallStepProgresses(w, a, id);
    case RecordLost(_) => CallStepProgresses(w, a, id);
    case Drop(_) => CallStepProgresses(w, a, id);
    case _ =>
  }

  predicate BenignRun(w: World, actions: seq<Action>, id: Id)
    decreases |actions|
  {
    actions == [] || (Benign(w, actions[0], id) && BenignRun(Next(w, actions[0]), actions[1..], id))
  }

  /** How often the row's situation changes in a run. */
  function Changes(w: World, actions: seq<Action>, id: Id): nat
    decreases |actions|
  {
    if actions == [] then 0 else
    var v := Next(w, actions[0]);
    (if id in w.rows && id in v.rows && SituationOf(v, id) != SituationOf(w, id) then 1 else 0)
    + Changes(v, actions[1..], id)
  }

  lemma RankBound(s: Situation)
    ensures Rank(s) <= 39
  {
  }

  /**
   Convergence: in every benign run, however it interleaves with other rows, the row's
   situation changes at most Rank times, which is never more than 39.
   */
  lemma {:induction false} Converges(w: World, actions: seq<Action>, id: Id)
    requires Reconciler.Inv(w) && Settling(w, id) && BenignRun(w, actions, id)
    ensures var v := Reconciler.Run(w, actions);
      Settling(v, id) && Changes(w, actions, id) + Rank(SituationOf(v, id)) <= Rank(SituationOf(w, id)) <= 39
    decreases |actions|
  {
    RankBound(SituationOf(w, id));
    if actions != [] {
      StepKeepsInv(w, actions[0]);
      StepProgresses(w, actions[0], id);
      Converges(Next(w, actions[0]), actions[1..], id);
    }
  }

  /** Once the row is as it wants to be, no sweep and no call moves it again. */
  lemma {:induction false} StaysAtRest(w: World, actions: seq<Action>, id: Id)
    requires Reconciler.Inv(w) && Settling(w, id) && BenignRun(w, actions, id) && AtRest(SituationOf(w, id))
    ensures var v := Reconciler.Run(w, actions); id in v.rows && SituationOf(v, id) == SituationOf(w, id)
    decreases |actions|
  {
    if actions != [] {
      StepKeepsInv(w, actions[0]);
      StepProgresses(w, actions[0], id);
      RankZeroIffAtRest(SituationOf(w, id));
      StaysAtRest(Next(w, actions[0]), actions[1..], id);
    }
  }

  /** The stage of a sweep that would act on a row with no call. */
  function StageFor(r: Row): Stage {
    match r.state
    case Provisioning => Creating
    case Stopped => Starting_
    case _ => StoppingExplicit
  }

  /** What would bring the row closer to rest, from between two stages of a sweep. */
  function Advance(w: World, id: Id, now: int): seq<Action>
    requires id in w.rows
  {
    match CallOf(w, id)
    case None => [Select(StageFor(w.rows[id]), [id], now, false), Act(now)]
    case Some(c) =>
      match c.progress
      case Queued => []
      case Working => [Effect(id, true, if c.kind == StartCall then Up else Down)]
      case Effected(_) => [RecordIt(id, Created, Operated, now)]
      case Recorded => [Release(id)]
      case Released => [Drop(id)]
  }

  lemma RunOne(w: World, a: Action)
    ensures Reconciler.Run(w, [a]) == Next(w, a)
  {
    assert [a][1..] == [];
  }

  lemma RunTwo(w: World, a: Action, b: Action)
    ensures Reconciler.Run(w, [a, b]) == Next(Next(w, a), b)
  {
    assert [a, b][1..] == [b];
    RunOne(Next(w, a), b);
  }

  lemma SweepAdvances(w: World, id: Id, now: int)
    requires Reconciler.Inv(w) && Settling(w, id) && !AtRest(SituationOf(w, id)) && w.sweep == IDLE && CallOf(w, id).None?
    ensures var v := Reconciler.Run(w, Advance(w, id, now));
      id in v.rows && Rank(SituationOf(v, id)) < Rank(SituationOf(w, id))
  {
    var stage := StageFor(w.rows[id]);
    var u := DoSelect(w, stage, [id], now, false);
    RunTwo(w, Select(stage, [id], now, false), Act(now));
    assert Qualifies(stage, w.rows[id], now, false);
    assert u == w.(sweep := IDLE.(stage := stage, todo := [id]));
    SelectProgresses(w, stage, [id], now, false, id);
    SelectKeepsInv(w, stage, [id], now, false);
    ActProgresses(u, now, id);
    assert SituationOf(DoAct(u, now), id) != SituationOf(u, id);
  }

  lemma CallAdvances(w: World, id: Id, now: int)
    requires Reconciler.Inv(w) && Settling(w, id) && CallOf(w, id).Some? && CallOf(w, id).value.progress != Queued
    ensures var v := Reconciler.Run(w, Advance(w, id, now));
      id in v.rows && Rank(SituationOf(v, id)) < Rank(SituationOf(w, id))
  {
    assert PointOk(w, id);
    var a := Advance(w, id, now)[0];
    RunOne(w, a);
    StepProgresses(w, a, id);
    assert CallOf(Next(w, a), id) != CallOf(w, id);
  }

  /** Until it is at rest something benign brings the row closer, unless it waits behind six working calls. */
  lemma NeverStuck(w: World, id: Id, now: int)
    requires Reconciler.Inv(w) && Settling(w, id) && !AtRest(SituationOf(w, id)) && w.sweep == IDLE
    ensures if CallOf(w, id).Some? && CallOf(w, id).value.progress == Queued
      then id in w.slots.waiting && |w.slots.holders| == 6
      else var v := Reconciler.Run(w, Advance(w, id, now));
        id in v.rows && Rank(SituationOf(v, id)) < Rank(SituationOf(w, id))
  {
    var c := CallOf(w, id);
    if c.None? {
      SweepAdvances(w, id, now);
    } else if c.value.progress != Queued {
      CallAdvances(w, id, now);
    } else {
      assert PointOk(w, id);
    }
  }
}
