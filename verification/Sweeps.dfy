/**
 The steps of one sweep as the worker runs them: each reads the rows it will act on, then
 compares and sets them one by one and starts their calls.  Each loop is proved equal to a fold
 over the rows it read, and the fold to be a run of the reconciler's machine.
 */
module Sweeps {
  import opened Wrappers
  import opened Lifecycle
  import opened SlotQueue
  import opened Reconciler
  import opened ReconcilerRuns

  /** What a step does to each row it read; a compare-and-set is refused when the row has moved on. */
  datatype Change = ToStarting(from: State) | ToStopping | FromList(listed: map<Id, Status>, read: map<Id, Row>)

  function StatusIn(listed: map<Id, Status>, id: Id): Option<Status> {
    if id in listed then Some(listed[id]) else None
  }

  function Changed(c: Change, id: Id, r: Row, now: int): Row {
    match c
    case ToStarting(from) => if r.state == from then MoveToStarting(r, now) else r
    case ToStopping => if r.state == Running then MoveToStopping(r, now) else r
    case FromList(listed, read) => if id in read then Resolve(r, read[id], StatusIn(listed, id), now) else r
  }

  /** Whether the step starts a call for a row it read. */
  predicate Calls(c: Change, id: Id, r: Row) {
    match c
    case ToStarting(from) => r.state == from
    case ToStopping => r.state == Running
    case FromList(listed, read) => id in read && StopsErrored(r, read[id], StatusIn(listed, id))
  }

  function KindOf(c: Change): Kind {
    if c.ToStarting? then StartCall else StopCall
  }

  predicate AllIn(ids: seq<Id>, rows: map<Id, Row>) {
    forall i :: 0 <= i < |ids| ==> ids[i] in rows
  }

  predicate NoneIn(ids: seq<Id>, calls: set<Id>) {
    forall i :: 0 <= i < |ids| ==> ids[i] !in calls
  }

  /** The rows after the step has dealt with ids, in order. */
  function RowsAfter(c: Change, rows: map<Id, Row>, ids: seq<Id>, now: int): (r: map<Id, Row>)
    requires AllIn(ids, rows)
    ensures r.Keys == rows.Keys
    decreases |ids|
  {
    if ids == [] then rows else
    var rest := RowsAfter(c, rows, ids[..|ids| - 1], now);
    var id := ids[|ids| - 1];
    rest[id := Changed(c, id, rest[id], now)]
  }

  /** The calls after the step has dealt with ids, in order. */
  function CallsAfter(c: Change, rows: map<Id, Row>, calls: map<Id, Kind>, ids: seq<Id>): map<Id, Kind>
    requires AllIn(ids, rows)
    decreases |ids|
  {
    if ids == [] then calls else
    var rest := CallsAfter(c, rows, calls, ids[..|ids| - 1]);
    var id := ids[|ids| - 1];
    if Calls(c, id, rows[id]) then rest[id := KindOf(c)] else rest
  }

  /** Whether the step's compare-and-set moves the row's state. */
  predicate Moves(c: Change, id: Id, r: Row) {
    match c
    case ToStarting(from) => r.state == from
    case ToStopping => r.state == Running
    case FromList(listed, read) => id in read && Resolve(r, read[id], StatusIn(listed, id), r.updatedAt).state != r.state
  }

  /** How many rows the step moved. */
  function MovesAfter(c: Change, rows: map<Id, Row>, ids: seq<Id>): nat
    requires AllIn(ids, rows)
    decreases |ids|
  {
    if ids == [] then 0
    else MovesAfter(c, rows, ids[..|ids| - 1]) + if Moves(c, ids[|ids| - 1], rows[ids[|ids| - 1]]) then 1 else 0
  }

  function StateKind(calls: map<Id, Kind>, id: Id): Option<Kind> {
    if id in calls then Some(calls[id]) else None
  }

  /** Each row the step read is changed exactly once and gets a call exactly when it should; no other row is touched. */
  lemma {:induction false} StepTouchesExactly(c: Change, rows: map<Id, Row>, calls: map<Id, Kind>, ids: seq<Id>, now: int, id: Id)
    requires AllIn(ids, rows) && Distinct(ids) && id in rows
    ensures RowsAfter(c, rows, ids, now)[id] == if id in ids then Changed(c, id, rows[id], now) else rows[id]
    ensures StateKind(CallsAfter(c, rows, calls, ids), id)
      == if id in ids && Calls(c, id, rows[id]) then Some(KindOf(c)) else StateKind(calls, id)
    decreases |ids|
  {
    if ids != [] {
      var n := |ids| - 1;
      assert ids == ids[..n] + [ids[n]];
      StepTouchesExactly(c, rows, calls, ids[..n], now, id);
      StepTouchesExactly(c, rows, calls, ids[..n], now, ids[n]);
    }
  }

  /** The row says what the list says of its instance, and waits for no answer that the list has given. */
  predicate SaysAsListed(r: Row, status: Option<Status>) {
    && Agrees(r, status)
    && (status.None? ==> r.state == Error)
    && (status.Some? && r.state == Stopping ==> status == Some(Up) && r.desired == WantStopped)
    && r.state != Starting
  }

  /**
   Drift is repaired by one refresh: whatever the rows said before, every row it read that has not
   changed since and whose instance is up, down or gone says afterwards what the list says.
   */
  lemma RefreshRepairsDrift(listed: map<Id, Status>, read: map<Id, Row>, rows: map<Id, Row>, ids: seq<Id>, now: int, id: Id)
    requires AllIn(ids, rows) && Distinct(ids) && id in ids && id in read
    requires rows[id].state == read[id].state != Provisioning && StatusIn(listed, id) != Some(Between)
    ensures SaysAsListed(RowsAfter(FromList(listed, read), rows, ids, now)[id], StatusIn(listed, id))
  {
    StepTouchesExactly(FromList(listed, read), rows, map[], ids, now, id);
    ResolveFollowsList(rows[id], read[id], StatusIn(listed, id), now);
    if rows[id].state == Error {
      if StatusIn(listed, id).Some? {
        ErroredIsStoppedIff(rows[id], read[id], StatusIn(listed, id), now);
      }
    }
  }

  /** The rows whose state the step leaves different. */
  function MovedRows(c: Change, rows: map<Id, Row>, ids: seq<Id>, now: int): set<Id>
    requires AllIn(ids, rows)
  {
    set id | id in ids && RowsAfter(c, rows, ids, now)[id].state != rows[id].state
  }

  lemma MovesIsNewState(c: Change, id: Id, r: Row, now: int)
    requires !(c.ToStarting? && c.from == Starting)
    ensures Moves(c, id, r) <==> Changed(c, id, r, now).state != r.state
  {
  }

  /** The transitions counted are the rows left in another state, each once. */
  lemma {:induction false} MovesCountsMovedRows(c: Change, rows: map<Id, Row>, ids: seq<Id>, now: int)
    requires AllIn(ids, rows) && Distinct(ids) && !(c.ToStarting? && c.from == Starting)
    ensures MovesAfter(c, rows, ids) == |MovedRows(c, rows, ids, now)|
    decreases |ids|
  {
    if ids != [] {
      var n := |ids| - 1;
      var id := ids[n];
      MovesCountsMovedRows(c, rows, ids[..n], now);
      OneMoreMoved(c, rows, ids, now);
    }
  }

  lemma OneMoreMoved(c: Change, rows: map<Id, Row>, ids: seq<Id>, now: int)
    requires AllIn(ids, rows) && Distinct(ids) && !(c.ToStarting? && c.from == Starting) && ids != []
    ensures var n := |ids| - 1; var rest := MovedRows(c, rows, ids[..n], now);
      ids[n] !in rest && MovedRows(c, rows, ids, now) == if Moves(c, ids[n], rows[ids[n]]) then rest + {ids[n]} else rest
  {
    var n := |ids| - 1;
    assert ids == ids[..n] + [ids[n]];
    MovesIsNewState(c, ids[n], rows[ids[n]], now);
    forall id | id in ids
      ensures RowsAfter(c, rows, ids, now)[id] == Changed(c, id, rows[id], now)
      ensures id in ids[..n] ==> RowsAfter(c, rows, ids[..n], now)[id] == Changed(c, id, rows[id], now)
    {
      StepTouchesExactly(c, rows, map[], ids, now, id);
      StepTouchesExactly(c, rows, map[], ids[..n], now, id);
    }
  }

  // ---- The fold is a run of the machine ----

  function Kinds(calls: map<Id, Call>): map<Id, Kind> {
    map id | id in calls :: calls[id].kind
  }

  /** The stage in which the machine makes this change. */
  predicate MadeIn(c: Change, s: Sweep) {
    match c
    case ToStarting(from) => (s.stage == Starting_ && from == Stopped) || (s.stage == Retrying && from == Error)
    case ToStopping => s.stage == StoppingExplicit
    case FromList(listed, read) => s.stage == Refreshing && listed == s.seen && read == s.read
  }

  /** One row: the sweep acts on it, and hands on a stop that it began. */
  function Round(w: World, now: int): World {
    DoHand(DoAct(w, now))
  }

  lemma TrackKinds(w: World, id: Id, kind: Kind)
    requires id !in w.calls
    ensures var v := Track(w, id, kind);
      Kinds(v.calls) == Kinds(w.calls)[id := kind] && v.rows == w.rows && v.sweep == w.sweep && v.clash == w.clash
  {
  }

  /** A row that is to be started or stopped. */
  lemma MoveRound(w: World, c: Change, now: int)
    requires w.sweep.todo != [] && w.sweep.moved == [] && MadeIn(c, w.sweep) && !c.FromList?
    requires w.sweep.todo[0] in w.rows && w.sweep.todo[0] !in w.calls
    ensures var id := w.sweep.todo[0];
      var v := Round(w, now);
      && v.rows == w.rows[id := Changed(c, id, w.rows[id], now)] && v.sweep == w.sweep.(todo := w.sweep.todo[1..]) && v.clash == w.clash
      && Kinds(v.calls) == if Calls(c, id, w.rows[id]) then Kinds(w.calls)[id := KindOf(c)] else Kinds(w.calls)
  {
    var id := w.sweep.todo[0];
    var r := w.rows[id];
    var u := w.(sweep := w.sweep.(todo := w.sweep.todo[1..]));
    if Calls(c, id, r) {
      if c.ToStarting? {
        TrackKinds(u.(rows := u.rows[id := MoveToStarting(r, now)]), id, StartCall);
      } else {
        TrackKinds(u.(rows := u.rows[id := MoveToStopping(r, now)]), id, StopCall);
      }
    }
  }

  lemma ResolveAct(w: World, now: int)
    requires w.sweep.todo != [] && w.sweep.moved == [] && w.sweep.stage == Refreshing && w.sweep.todo[0] in w.rows
    ensures var id := w.sweep.todo[0];
      var c := FromList(w.sweep.seen, w.sweep.read);
      DoAct(w, now) == w.(rows := w.rows[id := Changed(c, id, w.rows[id], now)],
        sweep := w.sweep.(todo := w.sweep.todo[1..], moved := if Calls(c, id, w.rows[id]) then [id] else []))
  {
  }

  /** A row that is resolved from the list. */
  lemma ResolveRound(w: World, now: int)
    requires w.sweep.todo != [] && w.sweep.moved == [] && w.sweep.stage == Refreshing
    requires w.sweep.todo[0] in w.rows && w.sweep.todo[0] !in w.calls
    ensures var id := w.sweep.todo[0];
      var c := FromList(w.sweep.seen, w.sweep.read);
      var v := Round(w, now);
      && v.rows == w.rows[id := Changed(c, id, w.rows[id], now)] && v.sweep == w.sweep.(todo := w.sweep.todo[1..]) && v.clash == w.clash
      && Kinds(v.calls) == if Calls(c, id, w.rows[id]) then Kinds(w.calls)[id := StopCall] else Kinds(w.calls)
  {
    var id := w.sweep.todo[0];
    ResolveAct(w, now);
    var d := DoAct(w, now);
    TrackKinds(d.(sweep := d.sweep.(moved := [])), id, StopCall);
  }

  function Rounds(now: int, k: nat): seq<Action> {
    if k == 0 then [] else Rounds(now, k - 1) + [Act(now), Hand]
  }

  lemma {:induction false} RunConcat(w: World, a: seq<Action>, b: seq<Action>)
    ensures Reconciler.Run(w, a + b) == Reconciler.Run(Reconciler.Run(w, a), b)
    decreases |a|
  {
    if a == [] {
      assert a + b == b;
    } else {
      assert (a + b)[1..] == a[1..] + b;
      RunConcat(Next(w, a[0]), a[1..], b);
    }
  }

  lemma RunRound(w: World, now: int)
    ensures Reconciler.Run(w, [Act(now), Hand]) == Round(w, now)
  {
    assert [Act(now), Hand][1..] == [Hand] && [Hand][1..] == [];
  }

  /** The machine after the sweep has dealt with the first k rows. */
  predicate DealtWith(w: World, v: World, c: Change, ids: seq<Id>, k: nat, now: int)
    requires k <= |ids| && AllIn(ids, w.rows)
  {
    && v.rows == RowsAfter(c, w.rows, ids[..k], now)
    && Kinds(v.calls) == CallsAfter(c, w.rows, Kinds(w.calls), ids[..k])
    && v.sweep == w.sweep.(todo := ids[k..]) && v.clash == w.clash
  }

  lemma OneMoreDealt(w: World, v: World, c: Change, ids: seq<Id>, k: nat, now: int)
    requires k < |ids| && AllIn(ids, w.rows) && Distinct(ids) && NoneIn(ids, w.calls.Keys)
    requires w.sweep.moved == [] && MadeIn(c, w.sweep) && DealtWith(w, v, c, ids, k, now)
    ensures DealtWith(w, Round(v, now), c, ids, k + 1, now)
  {
    var id := ids[k];
    StepTouchesExactly(c, w.rows, Kinds(w.calls), ids[..k], now, id);
    assert id !in v.calls by { assert StateKind(Kinds(v.calls), id) == None; }
    assert ids[..k + 1][..k] == ids[..k] && ids[k..][1..] == ids[k + 1..];
    if c.FromList? {
      ResolveRound(v, now);
    } else {
      MoveRound(v, c, now);
    }
  }

  lemma {:induction false} RoundsDeal(w: World, c: Change, ids: seq<Id>, k: nat, now: int)
    requires k <= |ids| && AllIn(ids, w.rows) && Distinct(ids) && NoneIn(ids, w.calls.Keys)
    requires w.sweep.todo == ids && w.sweep.moved == [] && MadeIn(c, w.sweep)
    ensures DealtWith(w, Reconciler.Run(w, Rounds(now, k)), c, ids, k, now)
    decreases k
  {
    if k == 0 {
      assert ids[..0] == [] && ids[0..] == ids;
    } else {
      RoundsDeal(w, c, ids, k - 1, now);
      var v := Reconciler.Run(w, Rounds(now, k - 1));
      RunConcat(w, Rounds(now, k - 1), [Act(now), Hand]);
      RunRound(v, now);
      OneMoreDealt(w, v, c, ids, k - 1, now);
    }
  }

  /** The action that puts ids before the sweep for this change, from the state it is read in. */
  ghost predicate Begins(w: World, a: Action, c: Change, ids: seq<Id>) {
    match a
    case Select(stage, chosen, now, pointsDone) =>
      chosen == ids && Quiet(w) && Selectable(w, stage, ids, now, pointsDone) && stage != StoppingTimed && IsWork(stage)
      && MadeIn(c, IDLE.(stage := stage)) && !c.FromList?
    case ReturnList(chosen) => chosen == ids && Returnable(w, ids) && c == FromList(w.sweep.seen, w.rows)
    case _ => false
  }

  /**
   Every step of a sweep, the refresh from the list included, is a run of the machine: the
   selection, then for each row an act and the hand-over of a stop.  The rows and the calls it
   ends with are those of the fold, and track is never refused.
   */
  lemma StepIsRun(w: World, a: Action, c: Change, ids: seq<Id>, now: int)
    requires Reconciler.Inv(w) && Begins(w, a, c, ids)
    ensures AllIn(ids, w.rows)
    ensures var v := Reconciler.Run(w, [a] + Rounds(now, |ids|));
      && v.rows == RowsAfter(c, w.rows, ids, now)
      && Kinds(v.calls) == CallsAfter(c, w.rows, Kinds(w.calls), ids)
      && v.sweep.todo == [] && v.sweep.moved == [] && !v.clash
  {
    var u := Next(w, a);
    assert Reconciler.Run(w, [a]) == u by { assert [a][1..] == []; }
    RunConcat(w, [a], Rounds(now, |ids|));
    assert u.rows == w.rows && u.calls == w.calls && u.sweep.todo == ids && u.sweep.moved == [] && u.clash == w.clash;
    RoundsDeal(u, c, ids, |ids|, now);
    assert ids[..|ids|] == ids && ids[|ids|..] == [];
  }

  // ---- The list is read ----

  function Observes(order: seq<Id>): seq<Action> {
    if order == [] then [] else Observes(order[..|order| - 1]) + [Observe(order[|order| - 1])]
  }

  /** What has been seen is what stands there. */
  predicate SeesAll(s: Sweep, insts: map<Id, Status>, order: seq<Id>) {
    && (forall id :: id in s.seen ==> id in insts && s.seen[id] == insts[id])
    && (forall i :: 0 <= i < |order| ==> order[i] in s.seen)
  }

  lemma OneSeen(w: World, id: Id)
    requires w.sweep.stage == Listing && id in w.insts
    ensures Next(w, Observe(id)) == w.(sweep := w.sweep.(seen := w.sweep.seen[id := w.insts[id]]))
  {
  }

  lemma {:induction false} ObservesSee(w: World, order: seq<Id>)
    requires w.sweep.stage == Listing && w.sweep.seen == map[] && forall i :: 0 <= i < |order| ==> order[i] in w.insts
    ensures var v := Reconciler.Run(w, Observes(order));
      && v == w.(sweep := w.sweep.(seen := v.sweep.seen)) && SeesAll(v.sweep, w.insts, order)
    decreases |order|
  {
    if order != [] {
      var n := |order| - 1;
      ObservesSee(w, order[..n]);
      var u := Reconciler.Run(w, Observes(order[..n]));
      RunConcat(w, Observes(order[..n]), [Observe(order[n])]);
      RunLast(u, Observe(order[n]));
      OneSeen(u, order[n]);
    }
  }

  lemma RunLast(w: World, a: Action)
    ensures Reconciler.Run(w, [a]) == Next(w, a)
  {
    assert [a][1..] == [];
  }

  lemma AskedQuietly(w: World)
    requires Quiet(w)
    ensures Next(w, AskList) == w.(sweep := IDLE.(stage := Listing, flying := w.calls.Keys))
  {
  }

  lemma ReturnedWhole(w: World, order: seq<Id>, ids: seq<Id>)
    requires w.sweep.stage == Listing && w.sweep.flying == w.calls.Keys && SeesAll(w.sweep, w.insts, order)
    requires forall id :: id in w.insts ==> id in order
    requires Distinct(ids) && forall i :: 0 <= i < |ids| ==> ids[i] in w.rows && ids[i] !in w.calls && Tracked(w.rows[ids[i]])
    ensures var v := Next(w, ReturnList(ids));
      && v == w.(sweep := v.sweep) && v.sweep.stage == Refreshing && v.sweep.todo == ids && v.sweep.read == w.rows
      && forall id :: SeenOf(v.sweep, id) == InstOf(w, id)
  {
  }

  /**
   A refresh takes place: between its stages a sweep may ask for the list, which sees every
   instance, and then has before it whatever tracked rows have no call, as they stand, with what
   their instances say.
   */
  lemma ListIsRead(w: World, order: seq<Id>, ids: seq<Id>)
    requires Quiet(w) && (forall i :: 0 <= i < |order| ==> order[i] in w.insts) && (forall id :: id in w.insts ==> id in order)
    requires Distinct(ids) && forall i :: 0 <= i < |ids| ==> ids[i] in w.rows && ids[i] !in w.calls && Tracked(w.rows[ids[i]])
    ensures var v := Reconciler.Run(w, [AskList] + Observes(order) + [ReturnList(ids)]);
      && v == w.(sweep := v.sweep) && v.sweep.stage == Refreshing && v.sweep.todo == ids && v.sweep.read == w.rows
      && forall id :: SeenOf(v.sweep, id) == InstOf(w, id)
  {
    AskedQuietly(w);
    RunLast(w, AskList);
    var a := Next(w, AskList);
    RunConcat(w, [AskList], Observes(order));
    ObservesSee(a, order);
    var b := Reconciler.Run(a, Observes(order));
    RunConcat(w, [AskList] + Observes(order), [ReturnList(ids)]);
    RunLast(b, ReturnList(ids));
    ReturnedWhole(b, order, ids);
  }

  // ---- The loops ----

  class Worker {
    var rows: map<Id, Row>
    var inFlight: map<Id, Kind>
    var transitions: nat

    constructor (rows: map<Id, Row>)
      ensures this.rows == rows && inFlight == map[] && transitions == 0
    {
      this.rows, inFlight, transitions := rows, map[], 0;
    }

    /** Steps 3b and 3d: start every row the select returned that is still as it was read. */
    method StartAll(from: State, ids: seq<Id>, now: int)
      requires AllIn(ids, rows) && Distinct(ids)
      modifies this
      ensures rows == RowsAfter(ToStarting(from), old(rows), ids, now)
      ensures inFlight == CallsAfter(ToStarting(from), old(rows), old(inFlight), ids)
      ensures transitions == old(transitions) + MovesAfter(ToStarting(from), old(rows), ids)
    {
      ghost var before, flying := rows, inFlight;
      var i := 0;
      while i < |ids|
        invariant 0 <= i <= |ids|
        invariant rows == RowsAfter(ToStarting(from), before, ids[..i], now)
        invariant inFlight == CallsAfter(ToStarting(from), before, flying, ids[..i])
        invariant transitions == old(transitions) + MovesAfter(ToStarting(from), before, ids[..i])
      {
        assert ids[..i + 1][..i] == ids[..i];
        StepTouchesExactly(ToStarting(from), before, flying, ids[..i], now, ids[i]);
        StartOne(from, ids[i], now);
        i := i + 1;
      }
      assert ids[..i] == ids;
    }

    method StartOne(from: State, id: Id, now: int)
      requires id in rows
      modifies this
      ensures rows == old(rows)[id := Changed(ToStarting(from), id, old(rows)[id], now)]
      ensures var moved := Calls(ToStarting(from), id, old(rows)[id]);
        && inFlight == (if moved then old(inFlight)[id := StartCall] else old(inFlight))
        && transitions == old(transitions) + if moved then 1 else 0
    {
      if rows[id].state != from {
        assert rows[id := rows[id]] == rows;
        return;
      }
      rows := rows[id := MoveToStarting(rows[id], now)];
      transitions := transitions + 1;
      inFlight := inFlight[id := StartCall];
    }

    /** Step 3c, first part: stop every row the select returned that still runs. */
    method StopExplicit(ids: seq<Id>, now: int)
      requires AllIn(ids, rows) && Distinct(ids)
      modifies this
      ensures rows == RowsAfter(ToStopping, old(rows), ids, now)
      ensures inFlight == CallsAfter(ToStopping, old(rows), old(inFlight), ids)
      ensures transitions == old(transitions) + MovesAfter(ToStopping, old(rows), ids)
    {
      ghost var before, flying := rows, inFlight;
      var i := 0;
      while i < |ids|
        invariant 0 <= i <= |ids|
        invariant rows == RowsAfter(ToStopping, before, ids[..i], now)
        invariant inFlight == CallsAfter(ToStopping, before, flying, ids[..i])
        invariant transitions == old(transitions) + MovesAfter(ToStopping, before, ids[..i])
      {
        assert ids[..i + 1][..i] == ids[..i];
        StepTouchesExactly(ToStopping, before, flying, ids[..i], now, ids[i]);
        StopOne(ids[i], now);
        i := i + 1;
      }
      assert ids[..i] == ids;
    }

    method StopOne(id: Id, now: int)
      requires id in rows
      modifies this
      ensures rows == old(rows)[id := Changed(ToStopping, id, old(rows)[id], now)]
      ensures var moved := Calls(ToStopping, id, old(rows)[id]);
        && inFlight == (if moved then old(inFlight)[id := StopCall] else old(inFlight))
        && transitions == old(transitions) + if moved then 1 else 0
    {
      if rows[id].state != Running {
        assert rows[id := rows[id]] == rows;
        return;
      }
      rows := rows[id := MoveToStopping(rows[id], now)];
      transitions := transitions + 1;
      inFlight := inFlight[id := StopCall];
    }

    /**
     Steps 4 and 5: when a refresh is due and list() answers, every tracked row the select
     returned, as it read it, that was not in flight is resolved; otherwise nothing changes.
     */
    method RefreshFromList(last: Option<int>, period: int, wasUnreachable: bool, answer: Option<map<Id, Status>>,
        read: map<Id, Row>, ids: seq<Id>, now: int)
      returns (refreshed: Option<int>, unreachable: bool)
      requires Distinct(ids) && AllIn(ids, rows) && NoneIn(ids, inFlight.Keys)
      modifies this
      ensures var due := last.None? || now < last.value || now - last.value >= period;
        && refreshed == (if due && answer.Some? then Some(now) else last)
        && unreachable == (if due then answer.None? else wasUnreachable)
        && (due && answer.Some? ==>
              rows == RowsAfter(FromList(answer.value, read), old(rows), ids, now)
              && inFlight == CallsAfter(FromList(answer.value, read), old(rows), old(inFlight), ids)
              && transitions == old(transitions) + MovesAfter(FromList(answer.value, read), old(rows), ids))
        && (!(due && answer.Some?) ==> rows == old(rows) && inFlight == old(inFlight) && transitions == old(transitions))
    {
      if last.Some? && now >= last.value && now - last.value < period {
        return last, wasUnreachable;
      }
      if answer.None? {
        return last, true;
      }
      ResolveAll(answer.value, read, ids, now);
      return Some(now), false;
    }

    method ResolveAll(listed: map<Id, Status>, read: map<Id, Row>, ids: seq<Id>, now: int)
      requires Distinct(ids) && AllIn(ids, rows)
      modifies this
      ensures rows == RowsAfter(FromList(listed, read), old(rows), ids, now)
      ensures inFlight == CallsAfter(FromList(listed, read), old(rows), old(inFlight), ids)
      ensures transitions == old(transitions) + MovesAfter(FromList(listed, read), old(rows), ids)
    {
      ghost var before, flying, c := rows, inFlight, FromList(listed, read);
      var i := 0;
      while i < |ids|
        invariant 0 <= i <= |ids|
        invariant rows == RowsAfter(c, before, ids[..i], now)
        invariant inFlight == CallsAfter(c, before, flying, ids[..i])
        invariant transitions == old(transitions) + MovesAfter(c, before, ids[..i])
      {
        assert ids[..i + 1][..i] == ids[..i];
        StepTouchesExactly(c, before, flying, ids[..i], now, ids[i]);
        ResolveOne(ids[i], listed, read, now);
        i := i + 1;
      }
      assert ids[..i] == ids;
    }

    /** One tracked row, and the stop of an errored row whose instance still runs. */
    method ResolveOne(id: Id, listed: map<Id, Status>, read: map<Id, Row>, now: int)
      requires id in rows
      modifies this
      ensures rows == old(rows)[id := Changed(FromList(listed, read), id, old(rows)[id], now)]
      ensures inFlight == if Calls(FromList(listed, read), id, old(rows)[id]) then old(inFlight)[id := StopCall] else old(inFlight)
      ensures transitions == old(transitions) + if Moves(FromList(listed, read), id, old(rows)[id]) then 1 else 0
    {
      if id !in read {
        assert rows[id := rows[id]] == rows;
        return;
      }
      var row := rows[id];
      var after := Resolve(row, read[id], StatusIn(listed, id), now);
      if after.state != row.state {
        transitions := transitions + 1;
      }
      rows := rows[id := after];
      if StopsErrored(row, read[id], StatusIn(listed, id)) {
        inFlight := inFlight[id := StopCall];
      }
    }
  }
}
