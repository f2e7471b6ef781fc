/**
 From wherever it stands a calm row can be brought to rest: by its own steps, and where it waits
 for a slot by letting the calls ahead of it end, well or badly.
 */
module ReachRest {
  import opened Wrappers
  import opened Lifecycle
  import opened SlotQueue
  import opened Reconciler
  import opened ReconcilerRuns
  import opened Convergence

  /** A set of states that no benign step leaves. */
  ghost predicate Closed(R: World -> bool, id: Id) {
    forall w, a :: R(w) && Benign(w, a, id) ==> R(Next(w, a))
  }

  ghost predicate Held(R: World -> bool, w: World, id: Id) {
    Closed(R, id) && R(w) && Reconciler.Inv(w) && Settling(w, id)
  }

  lemma Take(R: World -> bool, w: World, a: Action, id: Id) returns (v: World)
    requires Held(R, w, id) && Benign(w, a, id)
    ensures v == Next(w, a) && Held(R, v, id) && Progresses(SituationOf(w, id), SituationOf(v, id))
  {
    v := Next(w, a);
    StepKeepsInv(w, a);
    StepProgresses(w, a, id);
  }

  /** The rest of a stage that has acted on the row, and the end of the sweep. */
  lemma EndSweep(R: World -> bool, w: World, id: Id) returns (v: World)
    requires Held(R, w, id) && (w.sweep.moved == [] || w.sweep.moved == [id])
    ensures Held(R, v, id) && v.sweep == IDLE && Rank(SituationOf(v, id)) <= Rank(SituationOf(w, id))
  {
    v := w;
    if w.sweep.moved != [] {
      v := Take(R, w, Hand, id);
      MovedIsHandedOver(w, id);
    }
    v := Take(R, v, Abort, id);
  }

  lemma MovedIsHandedOver(w: World, id: Id)
    requires Reconciler.Inv(w) && w.sweep.moved == [id]
    ensures DoHand(w).sweep.moved == []
  {
  }

  /** A sweep that selects the row alone. */
  lemma SweepBringsCloser(R: World -> bool, w: World, id: Id, now: int) returns (v: World)
    requires Held(R, w, id) && w.sweep == IDLE && CallOf(w, id).None? && !AtRest(SituationOf(w, id))
    ensures Held(R, v, id) && v.sweep == IDLE && Rank(SituationOf(v, id)) < Rank(SituationOf(w, id))
  {
    var stage := StageFor(w.rows[id]);
    SweepAdvances(w, id, now);
    RunTwo(w, Select(stage, [id], now, false), Act(now));
    var u := Take(R, w, Select(stage, [id], now, false), id);
    var a := Take(R, u, Act(now), id);
    ActsOnOne(w, stage, id, now);
    v := EndSweep(R, a, id);
  }

  lemma ActsOnOne(w: World, stage: Stage, id: Id, now: int)
    requires w.sweep == IDLE && id in w.rows && CallOf(w, id).None? && stage != StoppingTimed && stage != Listing && stage != Refreshing
    ensures var u := DoSelect(w, stage, [id], now, false);
      var v := DoAct(u, now);
      v.sweep.moved == [] || v.sweep.moved == [id]
  {
  }

  lemma CallBringsCloser(R: World -> bool, w: World, id: Id, now: int) returns (v: World)
    requires Held(R, w, id) && w.sweep == IDLE && CallOf(w, id).Some? && CallOf(w, id).value.progress != Queued
    ensures Held(R, v, id) && v.sweep == IDLE && Rank(SituationOf(v, id)) < Rank(SituationOf(w, id))
  {
    CallAdvances(w, id, now);
    var a := Advance(w, id, now)[0];
    RunOne(w, a);
    v := Take(R, w, a, id);
  }

  // ---- Waiting for a slot ----

  /** The row's call is queued at this place. */
  predicate WaitsAt(w: World, id: Id, place: nat) {
    place < |w.slots.waiting| && w.slots.waiting[place] == id && CallOf(w, id).Some? && CallOf(w, id).value.progress == Queued
  }

  /** Some other call holds a slot. */
  lemma SomeHolder(w: World, id: Id, place: nat) returns (h: Id)
    requires Reconciler.Inv(w) && WaitsAt(w, id, place)
    ensures h in w.slots.holders && h != id && h in w.calls && h in w.rows && w.slots.active > 0
    ensures w.calls[h].kind != StopCall && w.calls[h].progress != Queued && w.calls[h].progress != Released
  {
    assert w.slots.waiting != [];
    assert |w.slots.holders| == CONTROLLER_CONCURRENCY;
    h :| h in w.slots.holders;
    assert PointOk(w, h);
    assert PointOk(w, id);
  }

  /** A holder's call can be over and recorded, or its record lost, without touching the queue. */
  lemma HolderEnds(R: World -> bool, w: World, id: Id, h: Id) returns (v: World)
    requires Held(R, w, id) && w.sweep == IDLE && h != id && h in w.calls && h in w.rows
    requires w.calls[h].progress != Queued && w.calls[h].progress != Released
    ensures Held(R, v, id) && v.sweep == IDLE && v.slots == w.slots && CallOf(v, id) == CallOf(w, id)
    ensures SituationOf(v, id) == SituationOf(w, id)
    ensures h in v.calls && v.calls[h].progress == Recorded && v.calls[h].kind == w.calls[h].kind
  {
    v := w;
    if v.calls[h].progress == Working {
      v := Take(R, v, Effect(h, false, Down), id);
    }
    if v.calls[h].progress.Effected? {
      v := Take(R, v, RecordLost(h), id);
    }
  }

  /** When a holder ends, the row moves up one place or gets its slot. */
  lemma QueueMoves(R: World -> bool, w: World, id: Id, place: nat) returns (v: World)
    requires Held(R, w, id) && w.sweep == IDLE && WaitsAt(w, id, place)
    ensures Held(R, v, id) && v.sweep == IDLE
    ensures Rank(SituationOf(v, id)) < Rank(SituationOf(w, id))
      || (place > 0 && WaitsAt(v, id, place - 1) && SituationOf(v, id) == SituationOf(w, id))
  {
    var h := SomeHolder(w, id, place);
    var u := HolderEnds(R, w, id, h);
    v := Take(R, u, Release(h), id);
    ReleaseMovesUp(u, id, h, place);
  }

  lemma ReleaseMovesUp(w: World, id: Id, h: Id, place: nat)
    requires Reconciler.Inv(w) && WaitsAt(w, id, place) && h != id && w.slots.active > 0 && id in w.rows
    requires h in w.calls && w.calls[h].progress == Recorded && w.calls[h].kind != StopCall
    ensures var v := DoRelease(w, h);
      && v.rows == w.rows && v.sweep == w.sweep
      && if place == 0 then CallOf(v, id) != CallOf(w, id) else WaitsAt(v, id, place - 1) && CallOf(v, id) == CallOf(w, id)
  {
    assert Distinct(w.slots.waiting);
  }

  // ---- To rest ----

  lemma {:induction false} BroughtToRest(R: World -> bool, w: World, id: Id, now: int, place: nat) returns (v: World)
    requires Held(R, w, id) && w.sweep == IDLE
    requires CallOf(w, id).Some? && CallOf(w, id).value.progress == Queued ==> WaitsAt(w, id, place)
    ensures Held(R, v, id) && AtRest(SituationOf(v, id))
    decreases Rank(SituationOf(w, id)), place
  {
    if AtRest(SituationOf(w, id)) {
      return w;
    }
    var c := CallOf(w, id);
    var u: World;
    if c.None? {
      u := SweepBringsCloser(R, w, id, now);
    } else if c.value.progress != Queued {
      u := CallBringsCloser(R, w, id, now);
    } else {
      u := QueueMoves(R, w, id, place);
    }
    if CallOf(u, id).Some? && CallOf(u, id).value.progress == Queued {
      var p := PlaceOf(u, id);
      if Rank(SituationOf(u, id)) == Rank(SituationOf(w, id)) {
        SamePlace(u, id, p, place - 1);
      }
      v := BroughtToRest(R, u, id, now, p);
    } else {
      v := BroughtToRest(R, u, id, now, 0);
    }
  }

  lemma PlaceOf(w: World, id: Id) returns (place: nat)
    requires Reconciler.Inv(w) && CallOf(w, id).Some? && CallOf(w, id).value.progress == Queued
    ensures WaitsAt(w, id, place)
  {
    assert PointOk(w, id);
    place :| place < |w.slots.waiting| && w.slots.waiting[place] == id;
  }

  lemma SamePlace(w: World, id: Id, p: nat, q: nat)
    requires Reconciler.Inv(w) && WaitsAt(w, id, p) && WaitsAt(w, id, q)
    ensures p == q
  {
    assert Distinct(w.slots.waiting);
  }

  ghost predicate Reached(w: World, id: Id, v: World) {
    exists actions: seq<Action> :: BenignRun(w, actions, id) && Reconciler.Run(w, actions) == v
  }

  lemma {:induction false} RunAppend(w: World, actions: seq<Action>, a: Action, id: Id)
    requires BenignRun(w, actions, id) && Benign(Reconciler.Run(w, actions), a, id)
    ensures BenignRun(w, actions + [a], id) && Reconciler.Run(w, actions + [a]) == Next(Reconciler.Run(w, actions), a)
    decreases |actions|
  {
    if actions == [] {
      assert actions + [a] == [a];
      RunOne(w, a);
    } else {
      assert (actions + [a])[1..] == actions[1..] + [a];
      RunAppend(Next(w, actions[0]), actions[1..], a, id);
    }
  }

  lemma ReachedIsClosed(w: World, id: Id)
    ensures Closed(v => Reached(w, id, v), id) && Reached(w, id, w)
  {
    assert BenignRun(w, [], id) && Reconciler.Run(w, []) == w;
    forall v, a | Reached(w, id, v) && Benign(v, a, id) ensures Reached(w, id, Next(v, a)) {
      var actions: seq<Action> :| BenignRun(w, actions, id) && Reconciler.Run(w, actions) == v;
      RunAppend(w, actions, a, id);
    }
  }

  /**
   Every calm row, wherever its start, stop or create stands and whoever is ahead of it in the
   queue, reaches what it wants by a benign run, in which its situation changes at most 39 times.
   */
  lemma ReachesRest(w: World, id: Id, now: int) returns (actions: seq<Action>)
    requires Reconciler.Inv(w) && Settling(w, id) && w.sweep == IDLE
    ensures BenignRun(w, actions, id) && Changes(w, actions, id) <= 39
    ensures var v := Reconciler.Run(w, actions); id in v.rows && AtRest(SituationOf(v, id))
  {
    ReachedIsClosed(w, id);
    var place := 0;
    if CallOf(w, id).Some? && CallOf(w, id).value.progress == Queued {
      place := PlaceOf(w, id);
    }
    var v := BroughtToRest(x => Reached(w, id, x), w, id, now, place);
    actions :| BenignRun(w, actions, id) && Reconciler.Run(w, actions) == v;
    Converges(w, actions, id);
  }
}
