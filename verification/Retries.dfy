/**
 Automatic retries in the reconciler's machine: while a row's starts keep failing, sweeps retry
 it at most five times, each after its wait, and after that no step of any run moves it.
 */
module Retries {
  import opened Wrappers
  import opened Lifecycle
  import opened SlotQueue
  import opened Reconciler
  import opened ReconcilerRuns
  import opened Convergence

  /** When the present sweep read its clock; every sweep does so once, before its first selection. */
  function BeginAfter(begin: int, a: Action): int {
    if a.Select? then a.now else begin
  }

  /**
   A later sweep begins no earlier, and a sweep acts with the time it began.  A call reads the
   clock for itself when it ends, so the row's own record carries no time before the row's last
   stamp; what other rows' calls record, and when, does not matter.
   */
  predicate Timely(w: World, begin: int, a: Action, id: Id) {
    match a
    case Select(_, _, now, _) => begin <= now
    case Act(now) => now == begin
    case RecordIt(q, _, _, now) => q == id && id in w.rows ==> w.rows[id].updatedAt <= now
    case _ => true
  }

  /** The API writes nothing to this row. */
  predicate LeavesRow(a: Action, id: Id) {
    a.ApiWrite? ==> a.id != id
  }

  /** The clock never runs back, the API leaves the row alone, and no start of it succeeds. */
  predicate FailingRun(w: World, begin: int, actions: seq<Action>, id: Id)
    decreases |actions|
  {
    actions == [] ||
    (&& Timely(w, begin, actions[0], id) && LeavesRow(actions[0], id)
     && NotUp(Next(w, actions[0]), id)
     && FailingRun(Next(w, actions[0]), BeginAfter(begin, actions[0]), actions[1..], id))
  }

  predicate NotUp(w: World, id: Id) {
    id in w.rows ==> w.rows[id].state != Running
  }

  // ---- What every step keeps ----

  /** A row that wants to be up and whose start is under way, has failed, or waits to be retried. */
  predicate Failing(r: Row, begin: int) {
    && r.named && !r.archived && r.operation.None? && WantsUp(r)
    && (r.state == Error || r.state == Starting)
    && r.retries <= MAX_START_RETRIES && (r.state == Starting ==> r.updatedAt <= begin)
  }

  predicate MayRetry(r: Row, begin: int) {
    r.retries < MAX_START_RETRIES && RetryWait(r.retries).Some? && r.updatedAt + RetryWait(r.retries).value <= begin
  }

  /** If the sweep has selected the row for a retry, its wait is over. */
  predicate SelectedDue(s: Sweep, r: Row, id: Id, begin: int) {
    id in s.todo ==> s.stage != Maintaining && (s.stage == Retrying ==> MayRetry(r, begin))
  }

  predicate Retrying_(w: World, id: Id, begin: int) {
    && id in w.rows && Failing(w.rows[id], begin)
    && (id in w.calls ==> w.calls[id].kind == StartCall)
    && SelectedDue(w.sweep, w.rows[id], id, begin)
  }

  /** The step from w to v starts the row again. */
  predicate Retried(w: World, v: World, id: Id) {
    id in w.rows && w.rows[id].state == Error && id in v.rows && v.rows[id].state == Starting
  }

  /** What one step may do: nothing, record a failure, or retry after the wait. */
  predicate GoesOn(w: World, v: World, a: Action, id: Id, begin: int)
    requires id in w.rows
  {
    && Retrying_(v, id, BeginAfter(begin, a))
    && v.rows[id].retries == w.rows[id].retries + (if Retried(w, v, id) then 1 else 0)
    && v.rows[id].updatedAt >= w.rows[id].updatedAt
    && (Retried(w, v, id) ==>
          && a.Act? && MayRetry(w.rows[id], a.now)
          && v.rows[id].updatedAt == a.now >= w.rows[id].updatedAt + RetryWait(w.rows[id].retries).value)
  }

  ghost predicate Ordinary(w: World, a: Action, id: Id, begin: int) {
    && Reconciler.Inv(w) && Retrying_(w, id, begin)
    && Timely(w, begin, a, id) && LeavesRow(a, id) && NotUp(Next(w, a), id)
  }

  /** A step that leaves the row alone, and takes it into no new selection. */
  lemma UnmovedGoesOn(w: World, v: World, a: Action, id: Id, begin: int)
    requires Retrying_(w, id, begin) && Timely(w, begin, a, id) && id in v.rows && v.rows[id] == w.rows[id]
    requires id in v.calls ==> v.calls[id].kind == StartCall
    requires id in v.sweep.todo ==> v.sweep.stage == Refreshing || (id in w.sweep.todo && v.sweep.stage == w.sweep.stage)
    ensures GoesOn(w, v, a, id, begin)
  {
  }

  lemma SelectGoesOn(w: World, stage: Stage, ids: seq<Id>, now: int, pointsDone: bool, id: Id, begin: int)
    requires Retrying_(w, id, begin) && begin <= now
    ensures var a := Select(stage, ids, now, pointsDone);
      GoesOn(w, DoSelect(w, stage, ids, now, pointsDone), a, id, begin)
  {
    var v := DoSelect(w, stage, ids, now, pointsDone);
    if id in v.sweep.todo && v != w {
      assert id in ids && Qualifies(stage, w.rows[id], now, pointsDone);
    } else {
      UnmovedGoesOn(w, v, Select(stage, ids, now, pointsDone), id, begin);
    }
  }

  /** The refresh acts on the row: an errored row that wants to be up is left as it is. */
  lemma ResolveHereGoesOn(w: World, now: int, id: Id, begin: int)
    requires Reconciler.Inv(w) && Retrying_(w, id, begin) && now == begin && NotUp(DoAct(w, now), id)
    requires w.sweep.todo != [] && w.sweep.moved == [] && w.sweep.todo[0] == id && w.sweep.stage == Refreshing
    ensures GoesOn(w, DoAct(w, now), Act(now), id, begin)
  {
    assert id in w.sweep.todo && id !in w.sweep.todo[1..];
    assert Waiting(w.sweep.stage, RowOf(w, id), CallOf(w, id));
    assert ReadFits(RowOf(w, id), ReadOf(w.sweep, id), SeenOf(w.sweep, id), InstOf(w, id));
  }

  /** A stage acts on the row: only to retry it. */
  lemma StageHereGoesOn(w: World, now: int, id: Id, begin: int)
    requires Reconciler.Inv(w) && Retrying_(w, id, begin) && now == begin && NotUp(DoAct(w, now), id)
    requires w.sweep.todo != [] && w.sweep.moved == [] && w.sweep.todo[0] == id && w.sweep.stage != Refreshing
    ensures GoesOn(w, DoAct(w, now), Act(now), id, begin)
  {
    assert id in w.sweep.todo && id !in w.sweep.todo[1..];
    assert Waiting(w.sweep.stage, RowOf(w, id), CallOf(w, id));
  }

  lemma ActGoesOn(w: World, now: int, id: Id, begin: int)
    requires Reconciler.Inv(w) && Retrying_(w, id, begin) && now == begin && NotUp(DoAct(w, now), id)
    ensures GoesOn(w, DoAct(w, now), Act(now), id, begin)
  {
    if w.sweep.todo == [] || w.sweep.moved != [] {
      UnmovedGoesOn(w, DoAct(w, now), Act(now), id, begin);
    } else if w.sweep.todo[0] == id {
      if w.sweep.stage == Refreshing {
        ResolveHereGoesOn(w, now, id, begin);
      } else {
        StageHereGoesOn(w, now, id, begin);
      }
    } else {
      ActsElsewhere(w, now, id);
      assert CallOf(DoAct(w, now), id) == CallOf(w, id);
      UnmovedGoesOn(w, DoAct(w, now), Act(now), id, begin);
    }
  }

  /** A call's steps leave a row alone, but for its own record. */
  lemma CallLeavesRow(w: World, a: Action, id: Id)
    requires id in w.rows
    requires a.Disturb? || a.Effect? || a.RecordIt? || a.RecordLost? || a.Release? || a.Drop?
    ensures var v := Next(w, a);
      && id in v.rows && ((a.RecordIt? && a.id == id) || v.rows[id] == w.rows[id])
      && v.sweep == w.sweep && (id in v.calls ==> id in w.calls && v.calls[id].kind == w.calls[id].kind)
  {
  }

  lemma InFlightIsUnselected(w: World, id: Id)
    requires Reconciler.Inv(w) && id in w.calls
    ensures id !in w.sweep.todo
  {
    forall i | 0 <= i < |w.sweep.todo| ensures w.sweep.todo[i] != id {
      assert Waiting(w.sweep.stage, RowOf(w, w.sweep.todo[i]), CallOf(w, w.sweep.todo[i]));
    }
  }

  /** A start in flight is recorded: it failed, since the row is not up. */
  lemma RecordGoesOn(w: World, create: CreateOutcome, operation: OperationOutcome, id: Id, now: int, begin: int)
    requires Reconciler.Inv(w) && Retrying_(w, id, begin) && w.rows[id].updatedAt <= now
    requires NotUp(DoRecord(w, id, create, operation, now), id)
    ensures GoesOn(w, DoRecord(w, id, create, operation, now), RecordIt(id, create, operation, now), id, begin)
  {
    assert PointOk(w, id);
    if id in w.calls {
      InFlightIsUnselected(w, id);
    }
  }

  lemma CallGoesOn(w: World, a: Action, id: Id, begin: int)
    requires Ordinary(w, a, id, begin)
    requires a.Disturb? || a.Effect? || a.RecordIt? || a.RecordLost? || a.Release? || a.Drop?
    ensures GoesOn(w, Next(w, a), a, id, begin)
  {
    CallLeavesRow(w, a, id);
    if a.RecordIt? && a.id == id {
      RecordGoesOn(w, a.create, a.operation, id, a.now, begin);
    } else {
      UnmovedGoesOn(w, Next(w, a), a, id, begin);
    }
  }

  lemma HandGoesOn(w: World, id: Id, begin: int)
    requires Reconciler.Inv(w) && Retrying_(w, id, begin)
    ensures GoesOn(w, DoHand(w), Hand, id, begin)
  {
    if w.sweep.moved != [] {
      assert HandedOver(RowOf(w, w.sweep.moved[0]), CallOf(w, w.sweep.moved[0]));
    }
    UnmovedGoesOn(w, DoHand(w), Hand, id, begin);
  }

  lemma StepGoesOn(w: World, a: Action, id: Id, begin: int)
    requires Ordinary(w, a, id, begin)
    ensures GoesOn(w, Next(w, a), a, id, begin)
  {
    match a
    case Select(stage, ids, now, pointsDone) => SelectGoesOn(w, stage, ids, now, pointsDone, id, begin);
    case Act(now) => ActGoesOn(w, now, id, begin);
    case Hand => HandGoesOn(w, id, begin);
    case Disturb(_, _) => CallGoesOn(w, a, id, begin);
    case Effect(_, _, _) => CallGoesOn(w, a, id, begin);
    case RecordIt(_, _, _, _) => CallGoesOn(w, a, id, begin);
    case RecordLost(_) => CallGoesOn(w, a, id, begin);
    case Release(_) => CallGoesOn(w, a, id, begin);
    case Drop(_) => CallGoesOn(w, a, id, begin);
    case _ => UnmovedGoesOn(w, Next(w, a), a, id, begin);
  }

  // ---- Whole runs ----

  /** Automatic retries of the row in the run. */
  function RetriesIn(w: World, actions: seq<Action>, id: Id): nat
    decreases |actions|
  {
    if actions == [] then 0
    else (if Retried(w, Next(w, actions[0]), id) then 1 else 0) + RetriesIn(Next(w, actions[0]), actions[1..], id)
  }

  /** The waits before retries number from + 1 up to number to. */
  function Waits(from: nat, to: nat): int
    requires from <= to <= MAX_START_RETRIES
    decreases if from < to then to - from else 0
  {
    if from == to then 0 else RetryWait(from).value + Waits(from + 1, to)
  }

  function BeginAtEnd(begin: int, actions: seq<Action>): int
    decreases |actions|
  {
    if actions == [] then begin else BeginAtEnd(BeginAfter(begin, actions[0]), actions[1..])
  }

  /**
   However long starts keep failing, and whatever else the worker does, at most five automatic
   retries of the row are made; by the time the count is n the first n waits have passed.
   */
  lemma {:induction false} RetriesAreBounded(w: World, begin: int, actions: seq<Action>, id: Id)
    requires Reconciler.Inv(w) && Retrying_(w, id, begin) && FailingRun(w, begin, actions, id)
    ensures var v := Reconciler.Run(w, actions);
      && Reconciler.Inv(v) && Retrying_(v, id, BeginAtEnd(begin, actions))
      && v.rows[id].retries == w.rows[id].retries + RetriesIn(w, actions, id) <= MAX_START_RETRIES
      && v.rows[id].updatedAt >= w.rows[id].updatedAt + Waits(w.rows[id].retries, v.rows[id].retries)
    decreases |actions|
  {
    if actions != [] {
      var a := actions[0];
      var u := Next(w, a);
      StepGoesOn(w, a, id, begin);
      StepKeepsInv(w, a);
      RetriesAreBounded(u, BeginAfter(begin, a), actions[1..], id);
    }
  }

  /** At any point of such a run, a step that retries the row is a sweep's, and its wait has passed. */
  lemma EachRetryWaits(w: World, begin: int, actions: seq<Action>, a: Action, id: Id)
    requires Reconciler.Inv(w) && Retrying_(w, id, begin) && FailingRun(w, begin, actions, id)
    requires var v := Reconciler.Run(w, actions);
      Timely(v, BeginAtEnd(begin, actions), a, id) && LeavesRow(a, id) && NotUp(Next(v, a), id) && Retried(v, Next(v, a), id)
    ensures var v := Reconciler.Run(w, actions);
      a.Act? && v.rows[id].retries < MAX_START_RETRIES && v.rows[id].updatedAt + RetryWait(v.rows[id].retries).value <= a.now
  {
    RetriesAreBounded(w, begin, actions, id);
    StepGoesOn(Reconciler.Run(w, actions), a, id, BeginAtEnd(begin, actions));
  }

  /** The fifth retry comes no sooner than 520 seconds after the first failure. */
  lemma FiveRetriesTakeTime(w: World, begin: int, actions: seq<Action>, id: Id)
    requires Reconciler.Inv(w) && Retrying_(w, id, begin) && FailingRun(w, begin, actions, id)
    requires w.rows[id].retries == 0 && RetriesIn(w, actions, id) == 5
    ensures var v := Reconciler.Run(w, actions);
      id in v.rows && v.rows[id].updatedAt >= w.rows[id].updatedAt + 520_000
  {
    RetriesAreBounded(w, begin, actions, id);
    AllWaits();
  }

  lemma AllWaits()
    ensures Waits(0, 5) == 520_000
  {
    assert Waits(4, 5) == 300_000 + Waits(5, 5);
    assert Waits(3, 5) == 120_000 + Waits(4, 5);
    assert Waits(2, 5) == 60_000 + Waits(3, 5);
    assert Waits(1, 5) == 30_000 + Waits(2, 5);
    assert Waits(0, 5) == 10_000 + Waits(1, 5);
  }

  // ---- After the last retry ----

  /** Errored with its retries used up, wanting to be up, and nothing under way for it. */
  predicate Exhausted(w: World, id: Id) {
    && id in w.rows && w.rows[id].state == Error && WantsUp(w.rows[id])
    && w.rows[id].operation.None? && w.rows[id].retries >= MAX_START_RETRIES
    && CallOf(w, id).None? && (id in w.sweep.todo ==> w.sweep.stage == Refreshing)
  }

  predicate RowRests(w: World, v: World, id: Id) {
    Exhausted(v, id) && RowOf(v, id) == RowOf(w, id)
  }

  lemma ExhaustedBySelect(w: World, stage: Stage, ids: seq<Id>, now: int, pointsDone: bool, id: Id)
    requires Exhausted(w, id)
    ensures RowRests(w, DoSelect(w, stage, ids, now, pointsDone), id)
  {
    assert Qualifies(stage, w.rows[id], now, pointsDone) ==> stage == Refreshing;
  }

  lemma ExhaustedByAct(w: World, now: int, id: Id)
    requires Reconciler.Inv(w) && Exhausted(w, id)
    ensures RowRests(w, DoAct(w, now), id)
  {
    if w.sweep.todo != [] && w.sweep.moved == [] {
      if w.sweep.todo[0] == id {
        assert id in w.sweep.todo && id !in w.sweep.todo[1..];
        assert ReadFits(RowOf(w, id), ReadOf(w.sweep, id), SeenOf(w.sweep, id), InstOf(w, id));
      } else {
        ActsElsewhere(w, now, id);
      }
    }
  }

  lemma ExhaustedByHand(w: World, id: Id)
    requires Reconciler.Inv(w) && Exhausted(w, id)
    ensures RowRests(w, DoHand(w), id)
  {
    if w.sweep.moved != [] {
      assert HandedOver(RowOf(w, w.sweep.moved[0]), CallOf(w, w.sweep.moved[0]));
    }
  }

  lemma ExhaustedByCall(w: World, a: Action, id: Id)
    requires Exhausted(w, id) && (a.Disturb? || a.Effect? || a.RecordIt? || a.RecordLost? || a.Release? || a.Drop?)
    ensures RowRests(w, Next(w, a), id)
  {
    CallLeavesRow(w, a, id);
  }

  lemma ExhaustedStep(w: World, a: Action, id: Id)
    requires Reconciler.Inv(w) && Exhausted(w, id) && LeavesRow(a, id)
    ensures RowRests(w, Next(w, a), id)
  {
    match a
    case Select(stage, ids, now, pointsDone) => ExhaustedBySelect(w, stage, ids, now, pointsDone, id);
    case Act(now) => ExhaustedByAct(w, now, id);
    case Hand => ExhaustedByHand(w, id);
    case Disturb(_, _) => ExhaustedByCall(w, a, id);
    case Effect(_, _, _) => ExhaustedByCall(w, a, id);
    case RecordIt(_, _, _, _) => ExhaustedByCall(w, a, id);
    case RecordLost(_) => ExhaustedByCall(w, a, id);
    case Release(_) => ExhaustedByCall(w, a, id);
    case Drop(_) => ExhaustedByCall(w, a, id);
    case _ =>
  }

  /**
   When the retries have run out the row rests: in every run, until the API writes to it, no
   sweep, list refresh or call of the worker changes anything of it.
   */
  lemma {:induction false} ExhaustedRowRests(w: World, actions: seq<Action>, id: Id)
    requires Reconciler.Inv(w) && Exhausted(w, id) && forall i :: 0 <= i < |actions| ==> LeavesRow(actions[i], id)
    ensures var v := Reconciler.Run(w, actions); RowRests(w, v, id)
    decreases |actions|
  {
    if actions != [] {
      ExhaustedStep(w, actions[0], id);
      StepKeepsInv(w, actions[0]);
      ExhaustedRowRests(Next(w, actions[0]), actions[1..], id);
    }
  }
}
