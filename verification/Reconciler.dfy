/**
 The reconciler as interleaved steps: a sequential sweep selects rows, moves them and starts
 background calls; each call takes effect on its instance, records its result, gives its slot
 up and leaves the in-flight map, at any time; the API changes any column but the state.

 Selections are over-approximated (any selection of rows that qualify, in any order of
 stages), so what holds here holds for every sweep the worker makes.
 */
module Reconciler {
  import opened Wrappers
  import opened Lifecycle
  import opened SlotQueue

  datatype Kind = CreateCall | StartCall | StopCall | OperateCall(from: State)

  /** How far a background call has got. */
  datatype Progress = Queued | Working | Effected(ok: bool) | Recorded | Released

  datatype Call = Call(kind: Kind, progress: Progress)

  datatype Stage = Idle | Creating | Starting_ | StoppingExplicit | StoppingTimed | Retrying | Maintaining | Listing | Refreshing

  /**
   `todo` are selected rows still to be acted on; `moved` are rows already in stopping whose
   call has not been started yet; `flying` are the ids in flight when list() was asked, `seen`
   what list() saw, and `read` the rows as the refresh read them.
   */
  datatype Sweep = Sweep(
    stage: Stage, todo: seq<Id>, moved: seq<Id>, flying: set<Id>, seen: map<Id, Status>, read: map<Id, Row>)

  const IDLE := Sweep(Idle, [], [], {}, map[], map[])

  /** `clash` is set when track() would throw. */
  datatype World = World(
    rows: map<Id, Row>, insts: map<Id, Status>, calls: map<Id, Call>, slots: Slots, sweep: Sweep, clash: bool)

  datatype Action =
    | Select(stage: Stage, ids: seq<Id>, now: int, pointsDone: bool)
    | Act(now: int)
    | Hand
    | Abort
    | AskList
    | Observe(id: Id)
    | ReturnList(ids: seq<Id>)
    | Disturb(id: Id, status: Status)
    | Effect(id: Id, ok: bool, status: Status)
    | RecordIt(id: Id, create: CreateOutcome, operation: OperationOutcome, now: int)
    | RecordLost(id: Id)
    | Release(id: Id)
    | Drop(id: Id)
    | ApiWrite(id: Id, row: Row)
    | ApiAdd(id: Id, row: Row)

  /* ---------- The sweep ---------- */

  predicate Qualifies(stage: Stage, r: Row, now: int, pointsDone: bool) {
    match stage
    case Creating => WantsCreate(r)
    case Starting_ => WantsStart(r)
    case StoppingExplicit => WantsStop(r) || WantsOperationStop(r, pointsDone)
    case StoppingTimed => r.state == Running && r.named
    case Retrying => WantsRetry(r, now)
    case Maintaining => WantsMaintenance(r)
    case _ => false
  }

  predicate IsWork(stage: Stage) {
    stage != Idle && stage != Listing && stage != Refreshing
  }

  predicate Quiet(w: World) {
    w.sweep.todo == [] && w.sweep.moved == [] && w.sweep.stage != Listing
  }

  /** Rows that qualify, each once, none with a call in flight. */
  predicate Selectable(w: World, stage: Stage, ids: seq<Id>, now: int, pointsDone: bool) {
    && Distinct(ids)
    && forall i :: 0 <= i < |ids| ==>
         ids[i] in w.rows && ids[i] !in w.calls && Qualifies(stage, w.rows[ids[i]], now, pointsDone)
  }

  function UpdateAll(rows: map<Id, Row>, ids: seq<Id>, now: int): map<Id, Row> {
    map id | id in rows :: if id in ids then TimedStop(rows[id], now) else rows[id]
  }

  function DoSelect(w: World, stage: Stage, ids: seq<Id>, now: int, pointsDone: bool): World {
    if !Quiet(w) || !IsWork(stage) || !Selectable(w, stage, ids, now, pointsDone) then w
    else if stage == StoppingTimed
    then w.(rows := UpdateAll(w.rows, ids, now), sweep := IDLE.(stage := stage, moved := ids))
    else w.(sweep := IDLE.(stage := stage, todo := ids))
  }

  /** track(): the call is in flight from here on; a capped one may have to wait for its slot. */
  function Track(w: World, id: Id, kind: Kind): World {
    if id in w.calls then w.(clash := true)
    else if kind == StopCall then w.(calls := w.calls[id := Call(kind, Working)])
    else
      var slots := Enter(w.slots, id);
      w.(slots := slots, calls := w.calls[id := Call(kind, if id in slots.holders then Working else Queued)])
  }

  /** Acts on the first selected row. */
  function DoAct(w: World, now: int): World {
    if w.sweep.todo == [] || w.sweep.moved != [] || w.sweep.todo[0] !in w.rows then w else
    var id := w.sweep.todo[0];
    var r := w.rows[id];
    var v := w.(sweep := w.sweep.(todo := w.sweep.todo[1..]));
    match w.sweep.stage
    case Creating => Track(v, id, CreateCall)
    case Starting_ => if r.state == Stopped then Track(v.(rows := v.rows[id := MoveToStarting(r, now)]), id, StartCall) else v
    case Retrying => if r.state == Error then Track(v.(rows := v.rows[id := MoveToStarting(r, now)]), id, StartCall) else v
    case StoppingExplicit =>
      if r.state == Running then v.(rows := v.rows[id := MoveToStopping(r, now)], sweep := v.sweep.(moved := [id])) else v
    case Maintaining => Track(v, id, OperateCall(r.state))
    case Refreshing => DoResolve(v, id, now)
    case _ => v
  }

  function ListedStatus(w: World, id: Id): Option<Status> {
    if id in w.sweep.seen then Some(w.sweep.seen[id]) else None
  }

  function DoResolve(w: World, id: Id, now: int): World
    requires id in w.rows
  {
    if id !in w.sweep.read then w else
    var read := w.sweep.read[id];
    var status := ListedStatus(w, id);
    var v := w.(rows := w.rows[id := Resolve(w.rows[id], read, status, now)]);
    if StopsErrored(w.rows[id], read, status) then v.(sweep := v.sweep.(moved := [id])) else v
  }

  /** Ending the open terminals comes between moving a row to stopping and starting its stop. */
  function DoHand(w: World): World {
    if w.sweep.moved == [] then w
    else Track(w.(sweep := w.sweep.(moved := w.sweep.moved[1..])), w.sweep.moved[0], StopCall)
  }

  function DoAskList(w: World): World {
    if !Quiet(w) then w else w.(sweep := IDLE.(stage := Listing, flying := w.calls.Keys))
  }

  /** list() reads each instance at some moment of its own. */
  function DoObserve(w: World, id: Id): World {
    if w.sweep.stage == Listing && id in w.insts
    then w.(sweep := w.sweep.(seen := w.sweep.seen[id := w.insts[id]])) else w
  }

  predicate Tracked(r: Row) {
    r.named && r.state != Provisioning
  }

  /** The list is complete for instances no call was working on; rows in flight when it was asked are skipped. */
  predicate Returnable(w: World, ids: seq<Id>) {
    && w.sweep.stage == Listing
    && (forall id :: id in w.insts && id !in w.sweep.flying ==> id in w.sweep.seen)
    && Distinct(ids)
    && forall i :: 0 <= i < |ids| ==> ids[i] in w.rows && ids[i] !in w.sweep.flying && Tracked(w.rows[ids[i]])
  }

  function DoReturnList(w: World, ids: seq<Id>): World {
    if Returnable(w, ids) then w.(sweep := w.sweep.(stage := Refreshing, todo := ids, read := w.rows)) else w
  }

  /* ---------- Background calls ---------- */

  /** A call changes its instance only while it is working; maintenance never brings one up. */
  predicate MayBecome(kind: Kind, before: Option<Status>, status: Status) {
    kind.OperateCall? ==> status == Down || Some(status) == before
  }

  predicate Achieves(kind: Kind, status: Status) {
    status == if kind == StartCall then Up else Down
  }

  predicate AtWork(w: World, id: Id) {
    id in w.calls && w.calls[id].progress == Working
  }

  function InstOf(w: World, id: Id): Option<Status> {
    if id in w.insts then Some(w.insts[id]) else None
  }

  function DoDisturb(w: World, id: Id, status: Status): World {
    if AtWork(w, id) && MayBecome(w.calls[id].kind, InstOf(w, id), status) then w.(insts := w.insts[id := status]) else w
  }

  function DoEffect(w: World, id: Id, ok: bool, status: Status): World {
    if AtWork(w, id) && MayBecome(w.calls[id].kind, InstOf(w, id), status) && (ok ==> Achieves(w.calls[id].kind, status))
    then w.(insts := w.insts[id := status], calls := w.calls[id := w.calls[id].(progress := Effected(ok))]) else w
  }

  function RecordRow(r: Row, kind: Kind, ok: bool, create: CreateOutcome, operation: OperationOutcome, now: int): Row {
    match kind
    case CreateCall => RecordCreate(r, if ok then Created else if create == Full then Full else CreateFailed, now)
    case StartCall => RecordStart(r, ok, now)
    case StopCall => RecordStop(r, ok, now)
    case OperateCall(from) => RecordOperation(r, from, if ok then Operated else if operation == Operated then OperationFailed else operation, now)
  }

  predicate HasEffected(w: World, id: Id) {
    id in w.calls && id in w.rows && w.calls[id].progress.Effected?
  }

  function DoRecord(w: World, id: Id, create: CreateOutcome, operation: OperationOutcome, now: int): World {
    if HasEffected(w, id) then
      var c := w.calls[id];
      w.(rows := w.rows[id := RecordRow(w.rows[id], c.kind, c.progress.ok, create, operation, now)],
         calls := w.calls[id := c.(progress := Recorded)])
    else w
  }

  /** The database refused the write; the call is over all the same. */
  function DoRecordLost(w: World, id: Id): World {
    if HasEffected(w, id) then w.(calls := w.calls[id := w.calls[id].(progress := Recorded)]) else w
  }

  /** withSlot's finally: the first waiter starts working. */
  function DoRelease(w: World, id: Id): World {
    if id in w.calls && w.calls[id].progress == Recorded then
      var done := w.calls[id := w.calls[id].(progress := Released)];
      if w.calls[id].kind == StopCall || w.slots.active == 0 then w.(calls := done)
      else
        var next := w.slots.waiting;
        w.(slots := Leave(w.slots, id),
           calls := if next != [] && next[0] in done then done[next[0] := done[next[0]].(progress := Working)] else done)
    else w
  }

  /** track()'s finally: the id leaves the in-flight map. */
  function DoDrop(w: World, id: Id): World {
    if id in w.calls && w.calls[id].progress == Released then w.(calls := w.calls - {id}) else w
  }

  function Next(w: World, a: Action): World {
    match a
    case Select(stage, ids, now, pointsDone) => DoSelect(w, stage, ids, now, pointsDone)
    case Act(now) => DoAct(w, now)
    case Hand => DoHand(w)
    case Abort => w.(sweep := IDLE)
    case AskList => DoAskList(w)
    case Observe(id) => DoObserve(w, id)
    case ReturnList(ids) => DoReturnList(w, ids)
    case Disturb(id, status) => DoDisturb(w, id, status)
    case Effect(id, ok, status) => DoEffect(w, id, ok, status)
    case RecordIt(id, create, operation, now) => DoRecord(w, id, create, operation, now)
    case RecordLost(id) => DoRecordLost(w, id)
    case Release(id) => DoRelease(w, id)
    case Drop(id) => DoDrop(w, id)
    case ApiWrite(id, row) =>
      if id in w.rows && row.state == w.rows[id].state && row.named == w.rows[id].named then w.(rows := w.rows[id := row]) else w
    case ApiAdd(id, row) =>
      if id !in w.rows && id !in w.insts && row.state == Provisioning then w.(rows := w.rows[id := row]) else w
  }

  function Run(w: World, actions: seq<Action>): World
    decreases |actions|
  {
    if actions == [] then w else Run(Next(w, actions[0]), actions[1..])
  }

  /* ---------- What every step keeps ---------- */

  function RowOf(w: World, id: Id): Option<Row> {
    if id in w.rows then Some(w.rows[id]) else None
  }

  function CallOf(w: World, id: Id): Option<Call> {
    if id in w.calls then Some(w.calls[id]) else None
  }

  /** What is known of a row and its instance while its call is at each point. */
  predicate CallFits(c: Call, r: Row, inst: Option<Status>) {
    if c.progress == Recorded || c.progress == Released then Agrees(r, inst) else
    && (c.progress.Effected? && c.progress.ok ==> inst == Some(if c.kind == StartCall then Up else Down))
    && match c.kind
       case CreateCall => r.state == Provisioning
       case StartCall => r.state == Starting
       case StopCall => r.state == Stopping
       case OperateCall(from) => r.state == from && (from == Stopped || from == Error) && Agrees(r, inst)
  }

  /** The heart of the invariant: with no call in flight, a named row agrees with its instance. */
  predicate Fits(r: Option<Row>, inst: Option<Status>, c: Option<Call>) {
    match c
    case None => r.Some? && r.value.named ==> Agrees(r.value, inst)
    case Some(call) => r.Some? && r.value.named && CallFits(call, r.value, inst)
  }

  /** A capped call holds a slot from its grant to its release, and waits in the queue before. */
  predicate SlotFits(c: Option<Call>, waits: bool, holds: bool) {
    match c
    case None => !waits && !holds
    case Some(call) =>
      && (call.kind == StopCall ==> call.progress != Queued)
      && (waits <==> call.progress == Queued)
      && (holds <==> call.kind != StopCall && call.progress != Queued && call.progress != Released)
  }

  predicate PointOk(w: World, id: Id) {
    && Fits(RowOf(w, id), InstOf(w, id), CallOf(w, id))
    && SlotFits(CallOf(w, id), id in w.slots.waiting, id in w.slots.holders)
  }

  ghost predicate PointsOk(w: World) {
    !w.clash && SlotQueue.Inv(w.slots) && forall id :: PointOk(w, id)
  }

  predicate StageState(stage: Stage, state: State) {
    match stage
    case Creating => state == Provisioning
    case Starting_ => state == Stopped
    case StoppingExplicit => state == Running
    case Retrying => state == Error
    case Maintaining => state == Stopped || state == Error
    case Refreshing => state != Provisioning
    case _ => true
  }

  /** A selected row: named, in the stage's state, and with no call in flight. */
  predicate Waiting(stage: Stage, r: Option<Row>, c: Option<Call>) {
    c.None? && r.Some? && r.value.named && StageState(stage, r.value.state)
  }

  predicate HandedOver(r: Option<Row>, c: Option<Call>) {
    c.None? && r.Some? && r.value.named && r.value.state == Stopping
  }

  predicate Apart(a: seq<Id>, b: seq<Id>) {
    forall i, j :: 0 <= i < |a| && 0 <= j < |b| ==> a[i] != b[j]
  }

  predicate SweepOk(w: World) {
    var s := w.sweep;
    && Distinct(s.todo) && Distinct(s.moved) && Apart(s.todo, s.moved)
    && (forall i :: 0 <= i < |s.todo| ==> Waiting(s.stage, RowOf(w, s.todo[i]), CallOf(w, s.todo[i])))
    && (forall i :: 0 <= i < |s.moved| ==> HandedOver(RowOf(w, s.moved[i]), CallOf(w, s.moved[i])))
    && (s.stage == Idle || s.stage == Listing ==> s.todo == [] && s.moved == [])
  }

  /** What the refresh read of a row and its instance is still true. */
  predicate ReadFits(r: Option<Row>, read: Option<Row>, seen: Option<Status>, inst: Option<Status>) {
    r.Some? && read.Some? && r.value.state == read.value.state && seen == inst
  }

  function ReadOf(s: Sweep, id: Id): Option<Row> {
    if id in s.read then Some(s.read[id]) else None
  }

  function SeenOf(s: Sweep, id: Id): Option<Status> {
    if id in s.seen then Some(s.seen[id]) else None
  }

  /** While the list is out no new call starts, and what it saw of other rows is still true. */
  ghost predicate ListOk(w: World) {
    var s := w.sweep;
    && (s.stage == Listing ==>
          w.calls.Keys <= s.flying && forall id :: id in s.seen && id !in s.flying ==> InstOf(w, id) == SeenOf(s, id))
    && (s.stage == Refreshing ==> forall i :: 0 <= i < |s.todo| ==>
          ReadFits(RowOf(w, s.todo[i]), ReadOf(s, s.todo[i]), SeenOf(s, s.todo[i]), InstOf(w, s.todo[i])))
  }

  ghost predicate Inv(w: World) {
    PointsOk(w) && SweepOk(w) && ListOk(w)
  }

  predicate SameAt(w: World, v: World, id: Id) {
    && RowOf(v, id) == RowOf(w, id) && InstOf(v, id) == InstOf(w, id) && CallOf(v, id) == CallOf(w, id)
    && (id in v.slots.waiting <==> id in w.slots.waiting) && (id in v.slots.holders <==> id in w.slots.holders)
  }

  /** A step that changes only the ids in `changed` need only be checked there. */
  lemma PointwiseStep(w: World, v: World, changed: set<Id>)
    requires PointsOk(w) && !v.clash && SlotQueue.Inv(v.slots)
    requires forall id :: id !in changed ==> SameAt(w, v, id)
    requires forall id :: id in changed ==> PointOk(v, id)
    ensures PointsOk(v)
  {
    forall id ensures PointOk(v, id) {
      assert PointOk(w, id);
      if id !in changed {
        assert SameAt(w, v, id);
      }
    }
  }

  /** A step of background calls leaves what the sweep has selected, moved and read as it was. */
  lemma CallStep(w: World, v: World, changed: set<Id>)
    requires Inv(w) && PointsOk(v) && v.sweep == w.sweep
    requires changed <= w.calls.Keys && v.calls.Keys <= w.calls.Keys
    requires forall id :: id !in changed ==> SameAt(w, v, id)
    ensures Inv(v)
  {
    var s := w.sweep;
    forall i | 0 <= i < |s.todo| ensures SameAt(w, v, s.todo[i]) {
      assert Waiting(s.stage, RowOf(w, s.todo[i]), CallOf(w, s.todo[i]));
    }
    forall i | 0 <= i < |s.moved| ensures SameAt(w, v, s.moved[i]) {
      assert HandedOver(RowOf(w, s.moved[i]), CallOf(w, s.moved[i]));
    }
  }

  lemma SelectTimedKeepsInv(w: World, ids: seq<Id>, now: int, pointsDone: bool)
    requires Inv(w) && Quiet(w) && Selectable(w, StoppingTimed, ids, now, pointsDone)
    ensures Inv(DoSelect(w, StoppingTimed, ids, now, pointsDone))
  {
    var v := DoSelect(w, StoppingTimed, ids, now, pointsDone);
    var changed := set i | 0 <= i < |ids| :: ids[i];
    forall id | id in changed ensures PointOk(v, id) {
      assert PointOk(w, id);
    }
    forall id | id !in changed ensures SameAt(w, v, id) {
    }
    PointwiseStep(w, v, changed);
  }

  lemma SelectKeepsInv(w: World, stage: Stage, ids: seq<Id>, now: int, pointsDone: bool)
    requires Inv(w)
    ensures Inv(DoSelect(w, stage, ids, now, pointsDone))
  {
    var v := DoSelect(w, stage, ids, now, pointsDone);
    if Quiet(w) && IsWork(stage) && Selectable(w, stage, ids, now, pointsDone) {
      if stage == StoppingTimed {
        SelectTimedKeepsInv(w, ids, now, pointsDone);
      } else {
        PointwiseStep(w, v, {});
      }
    }
  }

  predicate MayTrack(r: Row, inst: Option<Status>, kind: Kind) {
    r.named && CallFits(Call(kind, Working), r, inst)
  }

  /** Starting a call on a row no call is working on: track() does not throw and the call begins well. */
  lemma TrackKeepsPoints(w: World, id: Id, kind: Kind)
    requires !w.clash && SlotQueue.Inv(w.slots) && CallOf(w, id).None? && RowOf(w, id).Some?
    requires MayTrack(w.rows[id], InstOf(w, id), kind)
    requires forall q :: q != id ==> PointOk(w, q)
    requires id !in w.slots.waiting && id !in w.slots.holders
    ensures PointsOk(Track(w, id, kind))
  {
    var v := Track(w, id, kind);
    if kind != StopCall {
      EnterKeepsInv(w.slots, id);
    }
    forall q ensures PointOk(v, q) {
      if q != id {
        assert PointOk(w, q);
        assert SameAt(w, v, q);
      }
    }
  }

  /** The sweep has dealt with the first selected row; the others are as they were. */
  lemma TodoStep(w: World, v: World, id: Id)
    requires Inv(w) && PointsOk(v) && w.sweep.stage != Listing && w.sweep.stage != Idle
    requires w.sweep.todo != [] && id == w.sweep.todo[0] && w.sweep.moved == []
    requires v.sweep == w.sweep.(todo := w.sweep.todo[1..], moved := v.sweep.moved)
    requires v.sweep.moved == [] || (v.sweep.moved == [id] && HandedOver(RowOf(v, id), CallOf(v, id)))
    requires forall q :: q != id ==> SameAt(w, v, q)
    ensures Inv(v)
  {
    var s, t := w.sweep, v.sweep;
    forall i | 0 <= i < |t.todo| ensures t.todo[i] == s.todo[i + 1] != id && SameAt(w, v, t.todo[i]) {
    }
  }

  /** The sweep has started the stop of the first moved row; the others are as they were. */
  lemma MovedStep(w: World, v: World, id: Id)
    requires Inv(w) && PointsOk(v) && w.sweep.moved != [] && id == w.sweep.moved[0]
    requires v.sweep == w.sweep.(moved := w.sweep.moved[1..])
    requires forall q :: q != id ==> SameAt(w, v, q)
    ensures Inv(v)
  {
    var s, t := w.sweep, v.sweep;
    forall i | 0 <= i < |t.moved| ensures t.moved[i] == s.moved[i + 1] != id && SameAt(w, v, t.moved[i]) {
    }
    forall i | 0 <= i < |t.todo| ensures t.todo[i] != id && SameAt(w, v, t.todo[i]) {
    }
  }

  lemma HandKeepsInv(w: World)
    requires Inv(w)
    ensures Inv(DoHand(w))
  {
    if w.sweep.moved != [] {
      var id := w.sweep.moved[0];
      var u := w.(sweep := w.sweep.(moved := w.sweep.moved[1..]));
      assert HandedOver(RowOf(w, id), CallOf(w, id));
      assert PointOk(w, id);
      forall q ensures PointOk(u, q) { assert PointOk(w, q); }
      TrackKeepsPoints(u, id, StopCall);
      var v := DoHand(w);
      forall q | q != id ensures SameAt(w, v, q) { }
      MovedStep(w, v, id);
    }
  }

  /** The first selected row gets its call. */
  lemma StartCallKeepsInv(w: World, r: Row, kind: Kind)
    requires Inv(w) && w.sweep.todo != [] && w.sweep.moved == []
    requires MayTrack(r, InstOf(w, w.sweep.todo[0]), kind)
    ensures var id := w.sweep.todo[0];
      Inv(Track(w.(sweep := w.sweep.(todo := w.sweep.todo[1..]), rows := w.rows[id := r]), id, kind))
  {
    var id := w.sweep.todo[0];
    var u := w.(sweep := w.sweep.(todo := w.sweep.todo[1..]), rows := w.rows[id := r]);
    assert Waiting(w.sweep.stage, RowOf(w, id), CallOf(w, id));
    assert PointOk(w, id);
    forall q | q != id ensures PointOk(u, q) { assert PointOk(w, q) && SameAt(w, u, q); }
    TrackKeepsPoints(u, id, kind);
    var v := Track(u, id, kind);
    forall q | q != id ensures SameAt(w, v, q) { }
    TodoStep(w, v, id);
  }

  /** The first selected row is only moved, or left alone. */
  lemma MoveKeepsInv(w: World, r: Row, moved: seq<Id>)
    requires Inv(w) && w.sweep.todo != [] && w.sweep.moved == []
    requires r.named && Agrees(r, InstOf(w, w.sweep.todo[0]))
    requires moved == [] || (moved == [w.sweep.todo[0]] && r.state == Stopping)
    ensures var id := w.sweep.todo[0];
      Inv(w.(rows := w.rows[id := r], sweep := w.sweep.(todo := w.sweep.todo[1..], moved := moved)))
  {
    var id := w.sweep.todo[0];
    var v := w.(rows := w.rows[id := r], sweep := w.sweep.(todo := w.sweep.todo[1..], moved := moved));
    assert Waiting(w.sweep.stage, RowOf(w, id), CallOf(w, id));
    assert PointOk(w, id);
    forall q | q != id ensures SameAt(w, v, q) { }
    PointwiseStep(w, v, {id});
    TodoStep(w, v, id);
  }

  lemma ActKeepsInv(w: World, now: int)
    requires Inv(w)
    ensures Inv(DoAct(w, now))
  {
    if w.sweep.todo != [] && w.sweep.moved == [] {
      var id := w.sweep.todo[0];
      assert Waiting(w.sweep.stage, RowOf(w, id), CallOf(w, id));
      assert PointOk(w, id);
      var r := w.rows[id];
      assert w.rows[id := r] == w.rows;
      match w.sweep.stage {
        case Creating => StartCallKeepsInv(w, r, CreateCall);
        case Maintaining => StartCallKeepsInv(w, r, OperateCall(r.state));
        case Starting_ => StartCallKeepsInv(w, MoveToStarting(r, now), StartCall);
        case Retrying => StartCallKeepsInv(w, MoveToStarting(r, now), StartCall);
        case StoppingExplicit => MoveKeepsInv(w, MoveToStopping(r, now), [id]);
        case Refreshing => ResolveKeepsInv(w, now);
        case StoppingTimed => MoveKeepsInv(w, r, []);
      }
    }
  }

  /** One resolution of a refresh keeps the invariant and moves no running or stopped row. */
  lemma ResolveKeepsInv(w: World, now: int)
    requires Inv(w) && w.sweep.stage == Refreshing && w.sweep.todo != [] && w.sweep.moved == []
    ensures Inv(DoAct(w, now))
    ensures forall id :: id in w.rows && (w.rows[id].state == Running || w.rows[id].state == Stopped) ==>
      RowOf(DoAct(w, now), id) == RowOf(w, id)
  {
    var id := w.sweep.todo[0];
    assert Waiting(w.sweep.stage, RowOf(w, id), CallOf(w, id));
    assert PointOk(w, id);
    assert ReadFits(RowOf(w, id), ReadOf(w.sweep, id), SeenOf(w.sweep, id), InstOf(w, id));
    var read, status := w.sweep.read[id], SeenOf(w.sweep, id);
    var r := Resolve(w.rows[id], read, status, now);
    ResolveAgrees(w.rows[id], read, status, now);
    var stops := StopsErrored(w.rows[id], read, status);
    MoveKeepsInv(w, r, if stops then [id] else []);
    assert w.sweep.(todo := w.sweep.todo[1..], moved := []) == w.sweep.(todo := w.sweep.todo[1..]);
  }

  lemma ListKeepsInv(w: World, a: Action)
    requires Inv(w) && (a.AskList? || a.Observe? || a.ReturnList? || a.Abort?)
    ensures Inv(Next(w, a))
  {
    var v := Next(w, a);
    forall q ensures SameAt(w, v, q) { }
    PointwiseStep(w, v, {});
    if a.ReturnList? && Returnable(w, a.ids) {
      forall i | 0 <= i < |a.ids|
        ensures Waiting(v.sweep.stage, RowOf(v, a.ids[i]), CallOf(v, a.ids[i]))
        ensures ReadFits(RowOf(v, a.ids[i]), ReadOf(v.sweep, a.ids[i]), SeenOf(v.sweep, a.ids[i]), InstOf(v, a.ids[i])) {
        assert a.ids[i] !in w.calls.Keys;
      }
    }
  }

  /** A call changes its own instance, and perhaps its progress, while it is at work. */
  lemma WorkKeepsInv(w: World, v: World, id: Id)
    requires Inv(w) && AtWork(w, id)
    requires v.rows == w.rows && v.sweep == w.sweep && v.slots == w.slots && v.clash == w.clash && v.calls.Keys == w.calls.Keys
    requires forall q :: q != id ==> InstOf(v, q) == InstOf(w, q) && CallOf(v, q) == CallOf(w, q)
    requires PointOk(v, id)
    ensures Inv(v)
  {
    forall q | q != id ensures SameAt(w, v, q) { }
    PointwiseStep(w, v, {id});
    CallStep(w, v, {id});
  }

  lemma EffectKeepsInv(w: World, id: Id, ok: bool, status: Status)
    requires Inv(w)
    ensures Inv(DoEffect(w, id, ok, status)) && Inv(DoDisturb(w, id, status))
  {
    assert PointOk(w, id);
    var u, v := DoEffect(w, id, ok, status), DoDisturb(w, id, status);
    if u != w {
      WorkKeepsInv(w, u, id);
    }
    if v != w {
      WorkKeepsInv(w, v, id);
    }
  }

  lemma RecordKeepsInv(w: World, id: Id, create: CreateOutcome, operation: OperationOutcome, now: int)
    requires Inv(w)
    ensures Inv(DoRecord(w, id, create, operation, now)) && Inv(DoRecordLost(w, id))
  {
    assert PointOk(w, id);
    var u, v := DoRecord(w, id, create, operation, now), DoRecordLost(w, id);
    forall q | q != id ensures SameAt(w, u, q) && SameAt(w, v, q) { }
    if HasEffected(w, id) {
      PointwiseStep(w, u, {id});
      CallStep(w, u, {id});
      PointwiseStep(w, v, {id});
      CallStep(w, v, {id});
    }
  }

  /** A capped call gives its slot up with nobody waiting. */
  lemma GiveSlotUp(w: World, id: Id)
    requires Inv(w) && id in w.calls && w.calls[id].progress == Recorded && w.calls[id].kind != StopCall
    requires w.slots.waiting == []
    ensures Inv(DoRelease(w, id))
  {
    assert PointOk(w, id);
    LeaveKeepsInv(w.slots, id);
    var v := DoRelease(w, id);
    forall q | q != id ensures SameAt(w, v, q) { }
    PointwiseStep(w, v, {id});
    CallStep(w, v, {id});
  }

  /** A capped call hands its slot to the first waiter, which starts working in the same step. */
  lemma HandOverSlot(w: World, id: Id)
    requires Inv(w) && id in w.calls && w.calls[id].progress == Recorded && w.calls[id].kind != StopCall
    requires w.slots.waiting != []
    ensures Inv(DoRelease(w, id))
  {
    assert PointOk(w, id);
    LeaveKeepsInv(w.slots, id);
    var v := DoRelease(w, id);
    var next := w.slots.waiting[0];
    assert next in w.slots.waiting && next !in w.slots.waiting[1..];
    assert PointOk(w, next);
    assert CallOf(v, next) == Some(w.calls[next].(progress := Working));
    assert PointOk(v, next);
    assert w.slots.waiting == [next] + w.slots.waiting[1..];
    forall q | q !in {id, next} ensures SameAt(w, v, q) { }
    PointwiseStep(w, v, {id, next});
    CallStep(w, v, {id, next});
  }

  lemma ReleaseKeepsInv(w: World, id: Id)
    requires Inv(w)
    ensures Inv(DoRelease(w, id))
  {
    if id in w.calls && w.calls[id].progress == Recorded {
      if w.calls[id].kind != StopCall {
        if w.slots.waiting == [] {
          GiveSlotUp(w, id);
        } else {
          HandOverSlot(w, id);
        }
      } else {
        assert PointOk(w, id);
        var v := DoRelease(w, id);
        forall q | q != id ensures SameAt(w, v, q) { }
        PointwiseStep(w, v, {id});
        CallStep(w, v, {id});
      }
    }
  }

  lemma DropKeepsInv(w: World, id: Id)
    requires Inv(w)
    ensures Inv(DoDrop(w, id))
  {
    if id in w.calls && w.calls[id].progress == Released {
      assert PointOk(w, id);
      var v := DoDrop(w, id);
      forall q | q != id ensures SameAt(w, v, q) { }
      PointwiseStep(w, v, {id});
      CallStep(w, v, {id});
    }
  }

  /** The API may write any column but the state, and the instance name once given. */
  lemma ApiKeepsInv(w: World, a: Action)
    requires Inv(w) && (a.ApiWrite? || a.ApiAdd?)
    ensures Inv(Next(w, a))
  {
    var v := Next(w, a);
    assert PointOk(w, a.id);
    forall q | q != a.id ensures SameAt(w, v, q) { }
    PointwiseStep(w, v, {a.id});
    ApiKeepsSweep(w, a);
  }

  lemma ApiKeepsSweep(w: World, a: Action)
    requires Inv(w) && (a.ApiWrite? || a.ApiAdd?)
    ensures SweepOk(Next(w, a)) && ListOk(Next(w, a))
  {
    var v := Next(w, a);
    var s := w.sweep;
    forall q ensures RowOf(w, q).Some? ==>
      RowOf(v, q).Some? && RowOf(v, q).value.state == RowOf(w, q).value.state && RowOf(v, q).value.named == RowOf(w, q).value.named { }
    forall i | 0 <= i < |s.todo| ensures Waiting(s.stage, RowOf(v, s.todo[i]), CallOf(v, s.todo[i])) {
      assert Waiting(s.stage, RowOf(w, s.todo[i]), CallOf(w, s.todo[i]));
    }
    forall i | 0 <= i < |s.moved| ensures HandedOver(RowOf(v, s.moved[i]), CallOf(v, s.moved[i])) {
      assert HandedOver(RowOf(w, s.moved[i]), CallOf(w, s.moved[i]));
    }
  }
}
