/**
 A fair run exists from wherever a calm row stands: brought to rest, with every other call let
 end, the worker may go on for ever with nothing left to do.
 */
module FairStarts {
  import opened Wrappers
  import opened Lifecycle
  import opened SlotQueue
  import opened Reconciler
  import opened ReconcilerRuns
  import opened Convergence
  import opened ReachRest
  import opened FairRuns

  // ---- The sweep under way ends ----

  lemma HandTakesFirst(w: World, id: Id)
    requires Reconciler.Inv(w) && w.sweep.moved != []
    ensures DoHand(w).sweep.moved == w.sweep.moved[1..]
  {
    assert HandedOver(RowOf(w, w.sweep.moved[0]), CallOf(w, w.sweep.moved[0]));
  }

  lemma {:induction false} SweepEnds(R: World -> bool, w: World, id: Id) returns (v: World)
    requires Held(R, w, id)
    ensures Held(R, v, id) && v.sweep == IDLE && Rank(SituationOf(v, id)) <= Rank(SituationOf(w, id))
    decreases |w.sweep.moved|
  {
    if id in w.sweep.moved {
      HandTakesFirst(w, id);
      v := Take(R, w, Hand, id);
      v := SweepEnds(R, v, id);
    } else {
      v := Take(R, w, Abort, id);
    }
  }

  // ---- The other calls end ----

  /** The row is at rest and no sweep is under way. */
  ghost predicate Resting(R: World -> bool, w: World, id: Id) {
    Held(R, w, id) && w.sweep == IDLE && AtRest(SituationOf(w, id))
  }

  /** What ends a call that need not wait: it fails, its record is lost, it gives its slot up and goes. */
  function Ending(c: Call, q: Id): Action {
    match c.progress
    case Working => Effect(q, false, Down)
    case Effected(_) => RecordLost(q)
    case Recorded => Release(q)
    case _ => Drop(q)
  }

  lemma EndingMoves(w: World, q: Id)
    requires Reconciler.Inv(w) && CanGoOn(w, q)
    ensures var v := Next(w, Ending(w.calls[q], q));
      && v.sweep == w.sweep
      && ((v.calls.Keys == w.calls.Keys && CanGoOn(v, q) && Level(v.calls[q]) < Level(w.calls[q])) || v.calls == w.calls - {q})
  {
    assert PointOk(w, q);
    if w.slots.waiting != [] {
      assert PointOk(w, w.slots.waiting[0]);
    }
  }

  lemma EndingKeepsRest(R: World -> bool, w: World, id: Id, q: Id) returns (v: World)
    requires Resting(R, w, id) && CanGoOn(w, q)
    ensures v == Next(w, Ending(w.calls[q], q)) && Resting(R, v, id)
  {
    RankZeroIffAtRest(SituationOf(w, id));
    EndingMoves(w, q);
    v := Take(R, w, Ending(w.calls[q], q), id);
    RankZeroIffAtRest(SituationOf(v, id));
  }

  lemma {:induction false} OneCallEnds(R: World -> bool, w: World, id: Id, q: Id) returns (v: World)
    requires Resting(R, w, id) && CanGoOn(w, q)
    ensures Resting(R, v, id) && v.calls.Keys == w.calls.Keys - {q}
    decreases Level(w.calls[q])
  {
    EndingMoves(w, q);
    v := EndingKeepsRest(R, w, id, q);
    if q in v.calls {
      v := OneCallEnds(R, v, id, q);
    }
  }

  /** Some call need not wait: where one does, others hold the slots. */
  lemma SomeCallGoesOn(w: World) returns (q: Id)
    requires Reconciler.Inv(w) && w.calls.Keys != {}
    ensures CanGoOn(w, q)
  {
    q :| q in w.calls;
    if w.calls[q].progress == Queued {
      var place := PlaceOf(w, q);
      q := SomeHolder(w, q, place);
    }
  }

  lemma {:induction false} AllCallsEnd(R: World -> bool, w: World, id: Id) returns (v: World)
    requires Resting(R, w, id)
    ensures Resting(R, v, id) && v.calls.Keys == {}
    decreases |w.calls.Keys|
  {
    v := w;
    if w.calls.Keys != {} {
      var q := SomeCallGoesOn(w);
      v := OneCallEnds(R, w, id, q);
      v := AllCallsEnd(R, v, id);
    }
  }

  // ---- A finite run, and then nothing more ----

  /** Every call is over and no sweep is under way. */
  predicate Still(w: World, id: Id) {
    id in w.rows && AtRest(SituationOf(w, id)) && w.sweep == IDLE && w.calls.Keys == {}
  }

  lemma RestsThenEnds(R: World -> bool, w: World, id: Id, now: int, place: nat) returns (v: World)
    requires Held(R, w, id) && w.sweep == IDLE
    requires CallOf(w, id).Some? && CallOf(w, id).value.progress == Queued ==> WaitsAt(w, id, place)
    ensures Resting(R, v, id)
  {
    var u := BroughtToRest(R, w, id, now, place);
    v := SweepEnds(R, u, id);
    RankZeroIffAtRest(SituationOf(u, id));
    RankZeroIffAtRest(SituationOf(v, id));
  }

  lemma ComesToStill(R: World -> bool, w: World, id: Id, now: int) returns (v: World)
    requires Held(R, w, id)
    ensures R(v) && Still(v, id)
  {
    var u := SweepEnds(R, w, id);
    var place := 0;
    if CallOf(u, id).Some? && CallOf(u, id).value.progress == Queued {
      place := PlaceOf(u, id);
    }
    v := RestsThenEnds(R, u, id, now, place);
    v := AllCallsEnd(R, v, id);
  }

  lemma ReachesStill(w: World, id: Id, now: int) returns (actions: seq<Action>)
    requires Reconciler.Inv(w) && Settling(w, id)
    ensures BenignRun(w, actions, id) && Still(Reconciler.Run(w, actions), id)
  {
    ReachedIsClosed(w, id);
    var u := ComesToStill(x => Reached(w, id, x), w, id, now);
    actions :| BenignRun(w, actions, id) && Reconciler.Run(w, actions) == u;
  }

  function StateAt(w: World, actions: seq<Action>, n: nat): World {
    Reconciler.Run(w, actions[..if n < |actions| then n else |actions|])
  }

  function ActionAt(actions: seq<Action>, n: nat): Action {
    if n < |actions| then actions[n] else Abort
  }

  function Continued(w: World, actions: seq<Action>): Endless {
    Endless((n: nat) => StateAt(w, actions, n), (n: nat) => ActionAt(actions, n))
  }

  lemma {:induction false} StepsOfRun(w: World, actions: seq<Action>, id: Id, n: nat)
    requires BenignRun(w, actions, id) && n < |actions|
    ensures Benign(Reconciler.Run(w, actions[..n]), actions[n], id)
    ensures Reconciler.Run(w, actions[..n + 1]) == Next(Reconciler.Run(w, actions[..n]), actions[n])
    decreases n
  {
    var a, rest := actions[0], actions[1..];
    if n == 0 {
      assert actions[..1] == [a];
      RunOne(w, a);
    } else {
      StepsOfRun(Next(w, a), rest, id, n - 1);
      assert actions[..n][1..] == rest[..n - 1] && actions[..n + 1][1..] == rest[..n];
    }
  }

  lemma ContinuedIsBenign(w: World, actions: seq<Action>, id: Id)
    requires Reconciler.Inv(w) && Settling(w, id) && BenignRun(w, actions, id) && Still(Reconciler.Run(w, actions), id)
    ensures BenignRunOf(Continued(w, actions), id) && Continued(w, actions).state(0) == w
  {
    var r := Continued(w, actions);
    assert actions[..|actions|] == actions;
    forall n: nat ensures Follows(r, id, n) {
      if n < |actions| {
        StepsOfRun(w, actions, id, n);
      }
    }
  }

  lemma ContinuedIsFair(w: World, actions: seq<Action>, id: Id)
    requires Still(Reconciler.Run(w, actions), id)
    ensures Fair(Continued(w, actions), id)
  {
    var r, k := Continued(w, actions), |actions|;
    assert actions[..k] == actions;
    forall n: nat ensures RowTurn(r, id, n) && HandTurn(r, id, n) {
      var m := n + k;
      assert r.state(m) == Reconciler.Run(w, actions);
      assert RowServed(r.state(m), r.action(m), id) && HandServed(r.state(m), r.action(m), id);
    }
    forall q: Id, n: nat ensures CallTurn(r, q, n) {
      var m := n + k;
      assert r.state(m) == Reconciler.Run(w, actions);
      assert CallServed(r.state(m), r.action(m), q);
    }
  }

  /**
   From every world that keeps the invariant, and for every calm row in it, at rest or not,
   there is a fair benign run; so what every such run comes to is come to from everywhere.
   */
  lemma FairRunFromAnywhere(w: World, id: Id, now: int) returns (r: Endless)
    requires Reconciler.Inv(w) && Settling(w, id)
    ensures r.state(0) == w && BenignRunOf(r, id) && Fair(r, id)
  {
    var actions := ReachesStill(w, id, now);
    r := Continued(w, actions);
    ContinuedIsBenign(w, actions, id);
    ContinuedIsFair(w, actions, id);
  }
}
