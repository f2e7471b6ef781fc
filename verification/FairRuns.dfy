/**
 Convergence of every fair run: when nobody asks anything else of a row and its controller calls
 succeed, then however sweeps, calls and other rows interleave, as long as each of them goes on,
 the row comes to be what it wants to be and stays so.
 */
module FairRuns {
  import opened Wrappers
  import opened Lifecycle
  import opened SlotQueue
  import opened Reconciler
  import opened ReconcilerRuns
  import opened Convergence
  import opened ReachRest

  /** A run without end: its states and the actions between them. */
  datatype Endless = Endless(state: nat -> World, action: nat -> Action)

  predicate Follows(r: Endless, id: Id, n: nat) {
    Benign(r.state(n), r.action(n), id) && r.state(n + 1) == Next(r.state(n), r.action(n))
  }

  /** The row is left to itself throughout. */
  ghost predicate BenignRunOf(r: Endless, id: Id) {
    && Reconciler.Inv(r.state(0)) && Settling(r.state(0), id)
    && forall n: nat :: Follows(r, id, n)
  }

  // ---- Fairness ----

  /** The row has no call and is not what it wants to be, so the next sweep would select it. */
  predicate Wants(s: Situation) {
    s.call.None? && !s.moved && Legs(s.row.state, s.row.desired) > 0
  }

  /** The sweep acts on the row it has selected. */
  predicate Attends(w: World, a: Action, id: Id) {
    a.Act? && w.sweep.moved == [] && w.sweep.todo != [] && w.sweep.todo[0] == id && w.sweep.stage != Refreshing
  }

  predicate RowServed(w: World, a: Action, id: Id) {
    id in w.rows && (Wants(SituationOf(w, id)) ==> Attends(w, a, id))
  }

  /** A row in stopping gets its stop. */
  predicate HandServed(w: World, a: Action, id: Id) {
    id in w.sweep.moved ==> a == Hand && w.sweep.moved[0] == id
  }

  /** The call can take its next step: all it may wait for is a slot. */
  predicate CanGoOn(w: World, q: Id) {
    q in w.calls && w.calls[q].progress != Queued
  }

  predicate CallServed(w: World, a: Action, q: Id) {
    CanGoOn(w, q) ==> CallOf(Next(w, a), q) != CallOf(w, q)
  }

  ghost predicate RowTurn(r: Endless, id: Id, n: nat) {
    exists m: nat {:trigger RowServed(r.state(m), r.action(m), id)} :: n <= m && RowServed(r.state(m), r.action(m), id)
  }

  ghost predicate HandTurn(r: Endless, id: Id, n: nat) {
    exists m: nat {:trigger HandServed(r.state(m), r.action(m), id)} :: n <= m && HandServed(r.state(m), r.action(m), id)
  }

  ghost predicate CallTurn(r: Endless, q: Id, n: nat) {
    exists m: nat {:trigger CallServed(r.state(m), r.action(m), q)} :: n <= m && CallServed(r.state(m), r.action(m), q)
  }

  /**
   From every point on: a row that would be selected is at some time selected and acted on, a
   row moved to stopping is handed its stop, and every call that can go on does.
   */
  ghost predicate Fair(r: Endless, id: Id) {
    && (forall n: nat :: RowTurn(r, id, n))
    && (forall n: nat :: HandTurn(r, id, n))
    && (forall q: Id, n: nat :: CallTurn(r, q, n))
  }

  // ---- The row's situation along the run ----

  function At(r: Endless, id: Id, n: nat): Situation
    requires id in r.state(n).rows
  {
    SituationOf(r.state(n), id)
  }

  lemma BenignStep(w: World, a: Action, id: Id)
    requires Reconciler.Inv(w) && Settling(w, id) && Benign(w, a, id)
    ensures Reconciler.Inv(Next(w, a)) && Settling(Next(w, a), id)
  {
    StepKeepsInv(w, a);
    StepProgresses(w, a, id);
  }

  lemma FollowsKeeps(r: Endless, id: Id, n: nat)
    requires Follows(r, id, n) && Reconciler.Inv(r.state(n)) && Settling(r.state(n), id)
    ensures Reconciler.Inv(r.state(n + 1)) && Settling(r.state(n + 1), id)
  {
    BenignStep(r.state(n), r.action(n), id);
  }

  lemma {:induction false} ByInduction(p: nat -> bool, n: nat)
    requires p(0) && forall k: nat :: p(k) ==> p(k + 1)
    ensures p(n)
  {
    if n > 0 {
      ByInduction(p, n - 1);
    }
  }

  lemma Keeps(r: Endless, id: Id, n: nat)
    requires BenignRunOf(r, id)
    ensures Reconciler.Inv(r.state(n)) && Settling(r.state(n), id)
  {
    var p := (k: nat) => Reconciler.Inv(r.state(k)) && Settling(r.state(k), id);
    forall k: nat | p(k) ensures p(k + 1) {
      FollowsKeeps(r, id, k);
    }
    ByInduction(p, n);
  }

  lemma StepAt(r: Endless, id: Id, n: nat)
    requires BenignRunOf(r, id)
    ensures Reconciler.Inv(r.state(n)) && Settling(r.state(n), id)
    ensures r.state(n + 1) == Next(r.state(n), r.action(n)) && Benign(r.state(n), r.action(n), id)
  {
    Keeps(r, id, n);
    assert Follows(r, id, n);
  }

  lemma OneOn(r: Endless, id: Id, n: nat)
    requires BenignRunOf(r, id)
    ensures Settling(r.state(n), id) && Settling(r.state(n + 1), id) && Progresses(At(r, id, n), At(r, id, n + 1))
  {
    StepAt(r, id, n);
    StepProgresses(r.state(n), r.action(n), id);
  }

  /** From n to m the row's situation is the same, or nearer to rest. */
  lemma {:induction false} Onwards(r: Endless, id: Id, n: nat, m: nat)
    requires BenignRunOf(r, id) && n <= m
    ensures Settling(r.state(n), id) && Settling(r.state(m), id)
    ensures At(r, id, m) == At(r, id, n) || Rank(At(r, id, m)) < Rank(At(r, id, n))
    decreases m - n
  {
    Keeps(r, id, n);
    if n < m {
      Onwards(r, id, n, m - 1);
      OneOn(r, id, m - 1);
    }
  }

  // ---- What brings the row nearer ----

  lemma AttendedMoves(w: World, a: Action, id: Id)
    requires Reconciler.Inv(w) && Settling(w, id) && Attends(w, a, id)
    ensures var v := Next(w, a); id in v.rows && SituationOf(v, id) != SituationOf(w, id)
  {
    assert id in w.sweep.todo;
    assert Waiting(w.sweep.stage, RowOf(w, id), CallOf(w, id));
  }

  lemma HandedMoves(w: World, id: Id)
    requires Reconciler.Inv(w) && Settling(w, id) && id in w.sweep.moved && w.sweep.moved[0] == id
    ensures var v := DoHand(w); id in v.rows && SituationOf(v, id) != SituationOf(w, id)
  {
    assert HandedOver(RowOf(w, id), CallOf(w, id));
    TrackSituation(w.(sweep := w.sweep.(moved := w.sweep.moved[1..])), id, StopCall, id);
  }

  /** The step after n changes the row's situation, and so brings it nearer. */
  predicate Jumps(r: Endless, id: Id, n: nat) {
    id in r.state(n).rows && id in r.state(n + 1).rows && At(r, id, n + 1) != At(r, id, n)
  }

  lemma AttendedJumps(r: Endless, id: Id, n: nat)
    requires BenignRunOf(r, id) && Attends(r.state(n), r.action(n), id)
    ensures Jumps(r, id, n)
  {
    StepAt(r, id, n);
    AttendedMoves(r.state(n), r.action(n), id);
  }

  lemma HandedJumps(r: Endless, id: Id, n: nat)
    requires BenignRunOf(r, id) && HandServed(r.state(n), r.action(n), id) && id in r.state(n).sweep.moved
    ensures Jumps(r, id, n)
  {
    StepAt(r, id, n);
    HandedMoves(r.state(n), id);
  }

  lemma CalledJumps(r: Endless, id: Id, n: nat)
    requires BenignRunOf(r, id) && CallServed(r.state(n), r.action(n), id) && CanGoOn(r.state(n), id)
    ensures Jumps(r, id, n)
  {
    StepAt(r, id, n);
    StepProgresses(r.state(n), r.action(n), id);
    assert CallOf(r.state(n + 1), id) != CallOf(r.state(n), id);
  }

  /** From n, where something is sure to move the row by m + 1. */
  lemma JumpsNearer(r: Endless, id: Id, n: nat, m: nat) returns (k: nat)
    requires BenignRunOf(r, id) && n <= m && id in r.state(n).rows
    requires id in r.state(m).rows && At(r, id, m) == At(r, id, n) ==> Jumps(r, id, m)
    ensures n < k && id in r.state(k).rows && Rank(At(r, id, k)) < Rank(At(r, id, n))
  {
    Onwards(r, id, n, m);
    k := m;
    if At(r, id, m) == At(r, id, n) {
      OneOn(r, id, m);
      k := m + 1;
    }
  }

  lemma RowNearer(r: Endless, id: Id, n: nat) returns (k: nat)
    requires BenignRunOf(r, id) && Fair(r, id) && id in r.state(n).rows && Wants(At(r, id, n))
    ensures n < k && id in r.state(k).rows && Rank(At(r, id, k)) < Rank(At(r, id, n))
  {
    assert RowTurn(r, id, n);
    var m: nat :| n <= m && RowServed(r.state(m), r.action(m), id);
    if At(r, id, m) == At(r, id, n) {
      AttendedJumps(r, id, m);
    }
    k := JumpsNearer(r, id, n, m);
  }

  lemma MovedNearer(r: Endless, id: Id, n: nat) returns (k: nat)
    requires BenignRunOf(r, id) && Fair(r, id) && id in r.state(n).rows && At(r, id, n).moved
    ensures n < k && id in r.state(k).rows && Rank(At(r, id, k)) < Rank(At(r, id, n))
  {
    assert HandTurn(r, id, n);
    var m: nat :| n <= m && HandServed(r.state(m), r.action(m), id);
    if id in r.state(m).rows && At(r, id, m) == At(r, id, n) {
      assert At(r, id, m).moved;
      HandedJumps(r, id, m);
    }
    k := JumpsNearer(r, id, n, m);
  }

  lemma CallNearer(r: Endless, id: Id, n: nat) returns (k: nat)
    requires BenignRunOf(r, id) && Fair(r, id) && id in r.state(n).rows && CanGoOn(r.state(n), id)
    ensures n < k && id in r.state(k).rows && Rank(At(r, id, k)) < Rank(At(r, id, n))
  {
    assert CallTurn(r, id, n);
    var m: nat :| n <= m && CallServed(r.state(m), r.action(m), id);
    if id in r.state(m).rows && At(r, id, m) == At(r, id, n) {
      assert CallOf(r.state(m), id) == CallOf(r.state(n), id);
      CalledJumps(r, id, m);
    }
    k := JumpsNearer(r, id, n, m);
  }

  // ---- Waiting for a slot ----

  function Level(c: Call): nat {
    match c.progress
    case Working => 3
    case Effected(_) => 2
    case Recorded => 1
    case _ => 0
  }

  /** The row's call waits at this place while h's call holds a slot. */
  predicate Behind(w: World, id: Id, place: nat, h: Id) {
    WaitsAt(w, id, place) && h in w.slots.holders && h in w.calls && Level(w.calls[h]) > 0
  }

  /** What one step does to the queue. */
  ghost predicate QueueStep(s: Slots, t: Slots) {
    || t == s
    || (exists q: Id :: t == Enter(s, q))
    || (s.active > 0 && exists q: Id :: t == Leave(s, q))
  }

  lemma TrackSlots(w: World, q: Id, kind: Kind)
    ensures QueueStep(w.slots, Track(w, q, kind).slots)
  {
  }

  lemma ActSlots(w: World, now: int)
    ensures QueueStep(w.slots, DoAct(w, now).slots)
  {
    if w.sweep.todo != [] && w.sweep.todo[0] in w.rows {
      var id := w.sweep.todo[0];
      var r := w.rows[id];
      var v := w.(sweep := w.sweep.(todo := w.sweep.todo[1..]));
      TrackSlots(v, id, CreateCall);
      TrackSlots(v.(rows := v.rows[id := MoveToStarting(r, now)]), id, StartCall);
      TrackSlots(v, id, OperateCall(r.state));
    }
  }

  lemma HandSlots(w: World)
    ensures QueueStep(w.slots, DoHand(w).slots)
  {
    if w.sweep.moved != [] {
      TrackSlots(w.(sweep := w.sweep.(moved := w.sweep.moved[1..])), w.sweep.moved[0], StopCall);
    }
  }

  lemma SlotsMove(w: World, a: Action)
    ensures QueueStep(w.slots, Next(w, a).slots)
  {
    match a
    case Act(now) => ActSlots(w, now);
    case Hand => HandSlots(w);
    case _ =>
  }

  /** A call in flight only ever goes forward. */
  lemma CallGoesForward(w: World, a: Action, h: Id)
    requires Reconciler.Inv(w) && CanGoOn(w, h) && CallOf(Next(w, a), h) != CallOf(w, h) && h in Next(w, a).calls
    ensures Level(Next(w, a).calls[h]) < Level(w.calls[h])
  {
    assert PointOk(w, h);
  }

  /** One step: the row's call gets its slot or moves up, or it stays behind the same holder, which has gone no way back. */
  lemma BehindStep(w: World, a: Action, id: Id, place: nat, h: Id)
    requires Reconciler.Inv(w) && Settling(w, id) && Benign(w, a, id) && Behind(w, id, place, h)
    ensures var v := Next(w, a);
      && id in v.rows
      && (|| SituationOf(v, id) != SituationOf(w, id)
          || (place > 0 && WaitsAt(v, id, place - 1))
          || (Behind(v, id, place, h) && (if CallOf(v, h) == CallOf(w, h) then Level(v.calls[h]) == Level(w.calls[h]) else Level(v.calls[h]) < Level(w.calls[h]))))
  {
    var v := Next(w, a);
    StepKeepsInv(w, a);
    StepProgresses(w, a, id);
    SlotsMove(w, a);
    if SituationOf(v, id) == SituationOf(w, id) {
      assert CallOf(v, id) == CallOf(w, id);
      assert PointOk(w, id) && PointOk(v, id) && PointOk(w, h) && PointOk(v, h);
      SamePlaceOrUp(w.slots, v.slots, id, place, h);
      if h in v.slots.holders && CallOf(v, h) != CallOf(w, h) {
        CallGoesForward(w, a, h);
      }
    }
  }

  lemma SamePlaceOrUp(s: Slots, t: Slots, id: Id, place: nat, h: Id)
    requires SlotQueue.Inv(s) && SlotQueue.Inv(t) && QueueStep(s, t) && place < |s.waiting| && s.waiting[place] == id && id in t.waiting && h in s.holders
    ensures (place > 0 && place - 1 < |t.waiting| && t.waiting[place - 1] == id)
      || (place < |t.waiting| && t.waiting[place] == id && h in t.holders)
  {
  }

  /** The step after n, seen from the queue. */
  lemma BehindOn(r: Endless, id: Id, n: nat, place: nat, h: Id)
    requires BenignRunOf(r, id) && Behind(r.state(n), id, place, h)
    ensures id in r.state(n).rows && id in r.state(n + 1).rows
    ensures || Rank(At(r, id, n + 1)) < Rank(At(r, id, n))
      || (At(r, id, n + 1) == At(r, id, n) && place > 0 && WaitsAt(r.state(n + 1), id, place - 1))
      || (At(r, id, n + 1) == At(r, id, n) && Behind(r.state(n + 1), id, place, h) && LevelAt(r, h, n + 1) <= LevelAt(r, h, n)
          && (CallServed(r.state(n), r.action(n), h) ==> LevelAt(r, h, n + 1) < LevelAt(r, h, n)))
  {
    OneOn(r, id, n);
    StepAt(r, id, n);
    BehindStep(r.state(n), r.action(n), id, place, h);
  }

  function LevelAt(r: Endless, h: Id, n: nat): nat {
    if h in r.state(n).calls then Level(r.state(n).calls[h]) else 0
  }

  /** One step of a wait: it ends, or goes on no further from its end, and nearer to it when served. */
  predicate WaitGoesOn(ends: nat -> bool, waits: nat -> bool, level: nat -> nat, served: nat -> bool, i: nat) {
    waits(i) ==> ends(i + 1) || (waits(i + 1) && level(i + 1) <= level(i) && (served(i) ==> level(i + 1) < level(i)))
  }

  ghost predicate ServedFrom(served: nat -> bool, n: nat) {
    exists m: nat :: n <= m && served(m)
  }

  lemma {:induction false} WaitUntil(ends: nat -> bool, waits: nat -> bool, level: nat -> nat, served: nat -> bool, n: nat, m: nat) returns (k: nat)
    requires n <= m && waits(n) && forall i: nat :: WaitGoesOn(ends, waits, level, served, i)
    ensures n <= k && (ends(k) || (k == m && waits(m) && level(m) <= level(n)))
    decreases m - n
  {
    k := n;
    if n < m {
      k := WaitUntil(ends, waits, level, served, n, m - 1);
      if !ends(k) {
        assert WaitGoesOn(ends, waits, level, served, k);
        k := m;
      }
    }
  }

  /** A wait that is served again and again comes to its end. */
  lemma {:induction false} WaitEnds(ends: nat -> bool, waits: nat -> bool, level: nat -> nat, served: nat -> bool, n: nat) returns (k: nat)
    requires waits(n) && forall i: nat :: WaitGoesOn(ends, waits, level, served, i)
    requires forall i: nat :: ServedFrom(served, i)
    ensures n <= k && ends(k)
    decreases level(n)
  {
    assert ServedFrom(served, n);
    var m: nat :| n <= m && served(m);
    k := WaitUntil(ends, waits, level, served, n, m);
    if !ends(k) {
      assert WaitGoesOn(ends, waits, level, served, m);
      k := m + 1;
      if !ends(k) {
        k := WaitEnds(ends, waits, level, served, k);
      }
    }
  }

  /** Nearer to rest than at n, or further up in the queue. */
  predicate Better(r: Endless, id: Id, n: nat, place: nat, k: nat) {
    && id in r.state(n).rows && id in r.state(k).rows
    && (|| Rank(At(r, id, k)) < Rank(At(r, id, n))
        || (At(r, id, k) == At(r, id, n) && place > 0 && WaitsAt(r.state(k), id, place - 1)))
  }

  predicate StillBehind(r: Endless, id: Id, n: nat, place: nat, h: Id, k: nat) {
    id in r.state(n).rows && id in r.state(k).rows && At(r, id, k) == At(r, id, n) && Behind(r.state(k), id, place, h)
  }

  /** A holder's call goes on until it gives its slot up, so the row gets nearer or moves up. */
  lemma HolderGoesOn(r: Endless, id: Id, n: nat, place: nat, h: Id) returns (k: nat)
    requires BenignRunOf(r, id) && Fair(r, id) && StillBehind(r, id, n, place, h, n)
    ensures n <= k && Better(r, id, n, place, k)
  {
    var ends, waits := (i: nat) => Better(r, id, n, place, i), (i: nat) => StillBehind(r, id, n, place, h, i);
    var level, served := (i: nat) => LevelAt(r, h, i), (i: nat) => CallServed(r.state(i), r.action(i), h);
    forall i: nat ensures WaitGoesOn(ends, waits, level, served, i) {
      if waits(i) {
        BehindOn(r, id, i, place, h);
      }
    }
    forall i: nat ensures ServedFrom(served, i) {
      assert CallTurn(r, h, i);
      var m: nat :| i <= m && CallServed(r.state(m), r.action(m), h);
      assert served(m);
    }
    k := WaitEnds(ends, waits, level, served, n);
  }

  lemma {:induction false} QueueNearer(r: Endless, id: Id, n: nat, place: nat) returns (m: nat)
    requires BenignRunOf(r, id) && Fair(r, id) && id in r.state(n).rows && WaitsAt(r.state(n), id, place)
    ensures n <= m && id in r.state(m).rows && Rank(At(r, id, m)) < Rank(At(r, id, n))
    decreases place
  {
    Keeps(r, id, n);
    var h := SomeHolder(r.state(n), id, place);
    m := HolderGoesOn(r, id, n, place, h);
    if Rank(At(r, id, m)) == Rank(At(r, id, n)) {
      m := QueueNearer(r, id, m, place - 1);
    }
  }

  // ---- To rest ----

  lemma Nearer(r: Endless, id: Id, n: nat) returns (m: nat)
    requires BenignRunOf(r, id) && Fair(r, id) && id in r.state(n).rows && !AtRest(At(r, id, n))
    ensures n <= m && id in r.state(m).rows && Rank(At(r, id, m)) < Rank(At(r, id, n))
  {
    Keeps(r, id, n);
    RankZeroIffAtRest(At(r, id, n));
    var c := CallOf(r.state(n), id);
    if At(r, id, n).moved {
      m := MovedNearer(r, id, n);
    } else if c.None? {
      m := RowNearer(r, id, n);
    } else if c.value.progress == Queued {
      var place := PlaceOf(r.state(n), id);
      m := QueueNearer(r, id, n, place);
    } else {
      m := CallNearer(r, id, n);
    }
  }

  lemma {:induction false} ComesToRest(r: Endless, id: Id, n: nat) returns (m: nat)
    requires BenignRunOf(r, id) && Fair(r, id) && id in r.state(n).rows
    ensures n <= m && id in r.state(m).rows && AtRest(At(r, id, m))
    decreases Rank(At(r, id, n))
  {
    if AtRest(At(r, id, n)) {
      m := n;
    } else {
      m := Nearer(r, id, n);
      m := ComesToRest(r, id, m);
    }
  }

  /** A benign step never changes whether the row wants to be stopped. */
  lemma WishStays(w: World, a: Action, id: Id)
    requires Reconciler.Inv(w) && Settling(w, id) && Benign(w, a, id)
    ensures var v := Next(w, a); id in v.rows && (v.rows[id].desired == WantStopped <==> w.rows[id].desired == WantStopped)
  {
    StepProgresses(w, a, id);
  }

  lemma {:induction false} WishKept(r: Endless, id: Id, n: nat)
    requires BenignRunOf(r, id)
    ensures id in r.state(0).rows && id in r.state(n).rows
    ensures r.state(n).rows[id].desired == WantStopped <==> r.state(0).rows[id].desired == WantStopped
  {
    Keeps(r, id, 0);
    if n > 0 {
      WishKept(r, id, n - 1);
      StepAt(r, id, n - 1);
      WishStays(r.state(n - 1), r.action(n - 1), id);
    }
  }

  /** The row, its call or the sweep's hold on it is another. */
  predicate Shifts(w: World, v: World, id: Id) {
    RowOf(v, id) != RowOf(w, id) || CallOf(v, id) != CallOf(w, id) || (id in v.sweep.moved) != (id in w.sweep.moved)
  }

  /** How often the row's situation has changed by step n. */
  function ChangesBy(r: Endless, id: Id, n: nat): nat {
    if n == 0 then 0
    else ChangesBy(r, id, n - 1) + if Shifts(r.state(n - 1), r.state(n), id) then 1 else 0
  }

  lemma {:induction false} FewChanges(r: Endless, id: Id, n: nat)
    requires BenignRunOf(r, id)
    ensures id in r.state(0).rows && id in r.state(n).rows
    ensures ChangesBy(r, id, n) + Rank(At(r, id, n)) <= Rank(At(r, id, 0)) <= 39
  {
    Keeps(r, id, 0);
    RankBound(At(r, id, 0));
    if n > 0 {
      FewChanges(r, id, n - 1);
      OneOn(r, id, n - 1);
    }
  }

  /**
   Every fair benign run brings the row to rest, in at most 39 changes of its own, and no step
   after that moves it: a row that wanted to be stopped is stopped, any other, a restarting one
   included, is running.
   */
  lemma EveryFairRunRests(r: Endless, id: Id) returns (n: nat)
    requires BenignRunOf(r, id) && Fair(r, id)
    ensures id in r.state(0).rows
    ensures forall m: nat :: n <= m ==>
      && id in r.state(m).rows && AtRest(At(r, id, m))
      && r.state(m).rows[id].state == (if r.state(0).rows[id].desired == WantStopped then Stopped else Running)
    ensures forall m: nat :: ChangesBy(r, id, m) <= 39
  {
    Keeps(r, id, 0);
    n := ComesToRest(r, id, 0);
    forall m: nat | n <= m
      ensures id in r.state(m).rows && AtRest(At(r, id, m))
      ensures r.state(m).rows[id].state == (if r.state(0).rows[id].desired == WantStopped then Stopped else Running)
    {
      Onwards(r, id, n, m);
      RankZeroIffAtRest(At(r, id, n));
      WishKept(r, id, m);
    }
    forall m: nat ensures ChangesBy(r, id, m) <= 39 {
      FewChanges(r, id, m);
    }
  }
}
