/**
 "Keep running until" holds, the grace and idle timers and the activity throttle, for one
 workspace.  Every SQL statement is one step, so the API's statements fall between any two of
 the worker's.  Times are milliseconds.  A sweep reads the clock once and uses that value in all
 its statements, and an activity write lands some time after its clock was read.
 */
module KeepRunning {
  import opened Wrappers

  const IDLE_WARNING: int := 300_000
  const WRITE_INTERVAL: int := 60_000
  const SKEW: int := 300_000

  function Hours(n: nat): int { 3_600_000 * n }
  function Minutes(n: nat): int { 60_000 * n }
  function Seconds(n: nat): int { 1000 * n }

  /** Down covers every state that is neither running nor starting. */
  datatype Power = Down | Booting | Up

  datatype Timers = Timers(
    power: Power,
    connected: bool,
    hold: Option<int>,
    lastActivity: int,
    idleStopAt: Option<int>,
    disconnectedAt: Option<int>,
    deadline: Option<int>)

  // ---- The statements, each on the row as it finds it ----

  function Max(a: int, b: int): int { if a < b then b else a }
  function Min(a: int, b: int): int { if a < b then a else b }

  function Moved(stamp: Option<int>, at: int): Option<int> {
    if stamp.None? then None else Some(at)
  }

  function SettleOff(t: Timers, now: int, cap: nat): Timers {
    if t.hold.Some? && t.hold.value > now && cap == 0
    then t.(hold := None, lastActivity := now, idleStopAt := None, disconnectedAt := Moved(t.disconnectedAt, now))
    else t
  }

  function SettleCut(t: Timers, now: int, cap: nat): Timers {
    if t.hold.Some? && t.hold.value > now + Hours(cap) then t.(hold := Some(now + Hours(cap))) else t
  }

  function SettleExpire(t: Timers, now: int): Timers {
    if t.hold.Some? && t.hold.value <= now
    then t.(hold := None, idleStopAt := None,
            lastActivity := Max(t.lastActivity, t.hold.value),
            disconnectedAt := if t.disconnectedAt.None? then None else Some(Max(t.disconnectedAt.value, t.hold.value)))
    else t
  }

  function Stamp(t: Timers, now: int): Timers {
    if t.power == Up && t.disconnectedAt.None? && !t.connected then t.(disconnectedAt := Some(now)) else t
  }

  function Unstamp(t: Timers): Timers {
    if t.power == Up && t.connected then t.(disconnectedAt := None, deadline := None) else t
  }

  function Deadline(t: Timers, grace: nat): Timers {
    if t.power == Up && t.disconnectedAt.Some?
    then t.(deadline := if grace == 0 || t.hold.Some? then None else Some(t.disconnectedAt.value + Seconds(grace)))
    else t
  }

  predicate Passed(due: Option<int>, now: int) { due.Some? && due.value <= now }

  /** The guard of the grace stop.  It does not look at the hold. */
  predicate GraceStops(t: Timers, now: int, inFlight: bool) {
    t.power == Up && Passed(t.deadline, now) && !inFlight && !t.connected
  }

  function Withdraw(t: Timers, idle: nat): Timers {
    if t.idleStopAt.Some? && (idle == 0 || t.hold.Some?) then t.(idleStopAt := None) else t
  }

  predicate Warns(t: Timers, now: int, idle: nat) {
    t.power == Up && t.idleStopAt.None? && t.hold.None? && idle > 0 && t.lastActivity + Minutes(idle) <= now
  }

  function Warn(t: Timers, now: int, idle: nat): Timers {
    if Warns(t, now, idle) then t.(idleStopAt := Some(now + IDLE_WARNING)) else t
  }

  predicate IdleStops(t: Timers, now: int, inFlight: bool) {
    t.power == Up && Passed(t.idleStopAt, now) && !inFlight
  }

  predicate Refused(until: int, now: int, maxHours: nat) {
    maxHours == 0 || until <= now || until > now + Hours(maxHours) + SKEW
  }

  function SetHold(t: Timers, until: int, now: int, maxHours: nat): Timers {
    if Refused(until, now, maxHours) then t
    else t.(hold := Some(Min(until, now + Hours(maxHours))), lastActivity := now, idleStopAt := None)
  }

  function EndHold(t: Timers, now: int): Timers {
    if t.hold.Some? && t.hold.value > now
    then t.(hold := None, lastActivity := now, idleStopAt := None, disconnectedAt := Moved(t.disconnectedAt, now))
    else t
  }

  function Active(t: Timers, at: int): Timers {
    t.(lastActivity := at, idleStopAt := None)
  }

  /** Activity this soon after a claimed write makes no write of its own. */
  predicate Swallowed(claimed: Option<int>, clock: int) {
    claimed.Some? && clock - claimed.value < WRITE_INTERVAL
  }

  // ---- Whole runs ----

  /** The statement the sweep makes next; AtRefresh is its last part, where the list is read. */
  datatype Phase = Resting | AtOff | AtCut | AtExpire | AtStamp | AtUnstamp | AtDeadline | AtGrace | AtWithdraw | AtWarn | AtIdle | AtRefresh

  /** From here on in a sweep its holds have been settled. */
  predicate Settled(p: Phase) { p != Resting && p != AtOff && p != AtCut && p != AtExpire }

  datatype World = World(
    t: Timers,
    clock: int,
    phase: Phase,
    now: int,                  // when the present or latest sweep began
    claimed: Option<int>,      // the throttle's last claim
    landing: multiset<int>,    // activity writes under way, by the time they carry
    grace: nat,                // the seconds those deadlines were written with
    idle: nat)                 // the minutes the latest warning was written with

  /** The worker's statements, in the order a sweep makes them. */
  datatype Statement =
    | Off(cap: nat) | Cut(cap: nat) | Expire
    | StampAll | UnstampAll | Deadlines(grace: nat) | GraceStop(inFlight: bool)
    | WithdrawAll(idle: nat) | WarnAll(idle: nat) | IdleStop(inFlight: bool)

  /** What starts, stops and drift do to the timers. */
  datatype Change = MoveToStarting | Started | FoundRunning | StillRunning | StopOther | Stopped | ClearGuard

  datatype Step =
    | Tick(ms: nat)
    | Begin | Abandon | Sweep(does: Statement)
    | Connect(connected: bool)
    | Hold(until: int, maxHours: nat) | Unhold
    | Claim | Land(at: int) | Fail(at: int)
    | Power(change: Change)

  function PhaseOf(s: Statement): Phase {
    match s
    case Off(_) => AtOff
    case Cut(_) => AtCut
    case Expire => AtExpire
    case StampAll => AtStamp
    case UnstampAll => AtUnstamp
    case Deadlines(_) => AtDeadline
    case GraceStop(_) => AtGrace
    case WithdrawAll(_) => AtWithdraw
    case WarnAll(_) => AtWarn
    case IdleStop(_) => AtIdle
  }

  predicate Enabled(w: World, s: Step) {
    match s
    case Begin => w.phase == Resting
    case Sweep(does) => w.phase == PhaseOf(does)
    case Land(at) => at in w.landing
    case Fail(at) => at in w.landing
    case Power(change) => CanChange(w, change)
    case _ => true
  }

  predicate CanChange(w: World, c: Change) {
    match c
    case MoveToStarting => w.t.power == Down
    case Started => w.t.power == Booting
    case FoundRunning => w.t.power != Up && w.phase == AtRefresh
    case StillRunning => w.t.power == Down && w.phase == AtRefresh
    case Stopped => w.t.power == Down
    case _ => true
  }

  function Made(w: World, s: Statement): World {
    match s
    case Off(cap) => w.(t := SettleOff(w.t, w.now, cap), phase := AtCut)
    case Cut(cap) => w.(t := SettleCut(w.t, w.now, cap), phase := AtExpire)
    case Expire => w.(t := SettleExpire(w.t, w.now), phase := AtStamp)
    case StampAll => w.(t := Stamp(w.t, w.now), phase := AtUnstamp)
    case UnstampAll => w.(t := Unstamp(w.t), phase := AtDeadline)
    case Deadlines(grace) => w.(t := Deadline(w.t, grace), phase := AtGrace, grace := grace)
    case GraceStop(busy) => w.(t := StopIf(GraceStops(w.t, w.now, busy), w.t), phase := AtWithdraw)
    case WithdrawAll(idle) => w.(t := Withdraw(w.t, idle), phase := AtWarn)
    case WarnAll(idle) => w.(t := Warn(w.t, w.now, idle), phase := AtIdle, idle := if Warns(w.t, w.now, idle) then idle else w.idle)
    case IdleStop(busy) => w.(t := StopIf(IdleStops(w.t, w.now, busy), w.t), phase := AtRefresh)
  }

  function StopIf(stops: bool, t: Timers): Timers {
    if stops then t.(power := Down) else t
  }

  function Powered(t: Timers, c: Change, clock: int, now: int): Timers {
    match c
    case MoveToStarting => t.(power := Booting, disconnectedAt := None, deadline := None)
    case Started => Active(t.(power := Up), clock)
    case FoundRunning => Active(t.(power := Up), now)
    case StillRunning => t.(power := Up)
    case StopOther => t.(power := Down)
    case Stopped => t.(disconnectedAt := None, deadline := None)
    case ClearGuard => t.(idleStopAt := None)
  }

  function Next(w: World, s: Step): World {
    match s
    case Tick(ms) => w.(clock := w.clock + ms)
    case Begin => w.(phase := AtOff, now := w.clock)
    case Abandon => w.(phase := Resting)
    case Sweep(does) => Made(w, does)
    case Connect(c) => w.(t := w.t.(connected := c))
    case Hold(until, maxHours) => w.(t := SetHold(w.t, until, w.clock, maxHours))
    case Unhold => w.(t := EndHold(w.t, w.clock))
    case Claim =>
      if Swallowed(w.claimed, w.clock) then w
      else w.(claimed := Some(w.clock), landing := w.landing + multiset{w.clock})
    case Land(at) => w.(t := Active(w.t, at), landing := w.landing - multiset{at})
    case Fail(at) => w.(claimed := None, landing := w.landing - multiset{at})
    case Power(change) => w.(t := Powered(w.t, change, w.clock, w.now))
  }

  /** A run: each state follows from the one before by the step beside it. */
  predicate History(states: seq<World>, steps: seq<Step>) {
    && |states| == |steps| + 1
    && forall i :: 0 <= i < |steps| ==> Enabled(states[i], steps[i]) && states[i + 1] == Next(states[i], steps[i])
  }

  predicate Init(w: World) {
    && w.phase == Resting && w.now <= w.clock && w.claimed.None? && w.landing == multiset{}
    && w.t.hold.None? && w.t.idleStopAt.None? && w.t.disconnectedAt.None? && w.t.deadline.None?
    && w.t.lastActivity <= w.clock
  }

  /** What every step keeps. */
  ghost predicate Inv(w: World) {
    && w.now <= w.clock && w.t.lastActivity <= w.clock
    && (w.claimed.Some? ==> w.claimed.value <= w.clock)
    && (forall at :: at in w.landing ==> at <= w.clock)
    && (w.t.idleStopAt.Some? ==> w.t.hold.None? && w.t.idleStopAt.value - IDLE_WARNING <= w.now)
    && (w.t.deadline.Some? ==> w.t.disconnectedAt.Some?)
    && (w.t.power == Booting ==> w.t.disconnectedAt.None?)
    && (Settled(w.phase) && w.t.hold.Some? ==> w.t.hold.value > w.now)
  }

  lemma StatementKeepsInv(w: World, s: Statement)
    requires Inv(w) && w.phase == PhaseOf(s)
    ensures Inv(Made(w, s))
  {
  }

  lemma ChangeKeepsInv(w: World, c: Change)
    requires Inv(w) && CanChange(w, c)
    ensures Inv(w.(t := Powered(w.t, c, w.clock, w.now)))
  {
  }

  lemma NextKeepsInv(w: World, s: Step)
    requires Inv(w) && Enabled(w, s)
    ensures Inv(Next(w, s))
  {
    if s.Sweep? {
      StatementKeepsInv(w, s.does);
    } else if s.Power? {
      ChangeKeepsInv(w, s.change);
    }
  }

  lemma {:induction false} HistoryKeepsInv(states: seq<World>, steps: seq<Step>, k: nat)
    requires History(states, steps) && k <= |steps| && Inv(states[0])
    ensures Inv(states[k])
    decreases k
  {
    if k > 0 {
      HistoryKeepsInv(states, steps, k - 1);
      NextKeepsInv(states[k - 1], steps[k - 1]);
    }
  }

  // ---- Holds ----

  /** The API sets a hold here. */
  predicate SetsHold(w: World, s: Step) {
    s.Hold? && !Refused(s.until, w.clock, s.maxHours)
  }

  /** No idle step ever stops a held workspace. */
  lemma HeldNeverIdleStopped(states: seq<World>, steps: seq<Step>, k: nat, inFlight: bool)
    requires History(states, steps) && Init(states[0]) && k <= |steps| && states[k].t.hold.Some?
    ensures !IdleStops(states[k].t, states[k].now, inFlight)
  {
    HistoryKeepsInv(states, steps, k);
  }

  /** Step c is the cut of the sweep that state k stands in. */
  predicate CutAt(states: seq<World>, steps: seq<Step>, c: nat, k: nat)
    requires |states| == |steps| + 1
  {
    c < k < |states| && steps[c].Sweep? && steps[c].does.Cut?
    && forall j :: c < j <= k ==> states[j].now == states[k].now && (Settled(states[j].phase) || states[j].phase == AtExpire)
  }

  /** The API set at step j the hold that still stands in state k. */
  predicate SetAt(states: seq<World>, steps: seq<Step>, j: nat, k: nat)
    requires |states| == |steps| + 1
  {
    j < k < |states| && SetsHold(states[j], steps[j])
    && forall i :: j < i <= k ==> states[i].t.hold == Some(Min(steps[j].until, states[j].clock + Hours(steps[j].maxHours)))
  }

  ghost predicate SetSince(states: seq<World>, steps: seq<Step>, c: nat, k: nat)
    requires |states| == |steps| + 1
  {
    exists j: nat :: c < j && SetAt(states, steps, j, k)
  }

  /** A step that is no settling leaves a hold alone, ends it or sets another. */
  lemma HoldMoves(w: World, s: Step)
    requires Enabled(w, s) && (Settled(w.phase) || w.phase == AtExpire) && Next(w, s).t.hold.Some?
    ensures SetsHold(w, s) || Next(w, s).t.hold == w.t.hold
    ensures SetsHold(w, s) ==> Next(w, s).t.hold == Some(Min(s.until, w.clock + Hours(s.maxHours)))
  {
  }

  lemma SetLonger(states: seq<World>, steps: seq<Step>, j: nat, k: nat)
    requires History(states, steps) && k < |steps| && SetAt(states, steps, j, k) && states[k + 1].t.hold == states[k].t.hold
    ensures SetAt(states, steps, j, k + 1)
  {
    forall i | j < i <= k + 1 ensures states[i].t.hold == Some(Min(steps[j].until, states[j].clock + Hours(steps[j].maxHours))) {
      if i == k + 1 {
        assert states[k].t.hold == Some(Min(steps[j].until, states[j].clock + Hours(steps[j].maxHours)));
      }
    }
  }

  /** The cut leaves a hold of at most its cap. */
  lemma CutBounds(w: World, cap: nat)
    ensures SettleCut(w.t, w.now, cap).hold.Some? ==> SettleCut(w.t, w.now, cap).hold.value <= w.now + Hours(cap)
  {
  }

  lemma {:induction false} CutCame(states: seq<World>, steps: seq<Step>, k: nat) returns (c: nat)
    requires History(states, steps) && Init(states[0]) && k <= |steps|
    requires Settled(states[k].phase) || states[k].phase == AtExpire
    ensures CutAt(states, steps, c, k)
    ensures states[k].t.hold.Some? ==>
      states[k].t.hold.value <= states[k].now + Hours(steps[c].does.cap) || SetSince(states, steps, c, k)
    decreases k
  {
    var w, s := states[k - 1], steps[k - 1];
    if s.Sweep? && s.does.Cut? {
      c := k - 1;
      CutBounds(w, s.does.cap);
    } else {
      StaysInSweep(w, s);
      c := CutCame(states, steps, k - 1);
      if states[k].t.hold.Some? {
        OneStepSinceCut(states, steps, c, k);
      }
    }
  }

  lemma OneStepSinceCut(states: seq<World>, steps: seq<Step>, c: nat, k: nat)
    requires History(states, steps) && c < k - 1 < |steps| && (Settled(states[k - 1].phase) || states[k - 1].phase == AtExpire)
    requires states[k].t.hold.Some?
    ensures SetSince(states, steps, c, k)
      || (states[k].t.hold == states[k - 1].t.hold && !SetSince(states, steps, c, k - 1))
  {
    HoldMoves(states[k - 1], steps[k - 1]);
    if SetsHold(states[k - 1], steps[k - 1]) {
      assert SetAt(states, steps, k - 1, k);
    } else if SetSince(states, steps, c, k - 1) {
      var j: nat :| c < j && SetAt(states, steps, j, k - 1);
      SetLonger(states, steps, j, k - 1);
    }
  }

  lemma StaysInSweep(w: World, s: Step)
    requires Enabled(w, s) && (Settled(Next(w, s).phase) || Next(w, s).phase == AtExpire) && !(s.Sweep? && s.does.Cut?)
    ensures (Settled(w.phase) || w.phase == AtExpire) && Next(w, s).now == w.now
  {
  }

  /**
   In every run, from the settling to the end of a sweep, a hold lies ahead of the sweep's time
   and at most the cap beyond it, unless the API has set it since the cut.
   */
  lemma SettledHoldsLieWithin(states: seq<World>, steps: seq<Step>, k: nat) returns (c: nat)
    requires History(states, steps) && Init(states[0]) && k <= |steps| && Settled(states[k].phase) && states[k].t.hold.Some?
    ensures CutAt(states, steps, c, k)
    ensures states[k].now < states[k].t.hold.value
    ensures states[k].t.hold.value <= states[k].now + Hours(steps[c].does.cap) || SetSince(states, steps, c, k)
  {
    HistoryKeepsInv(states, steps, k);
    c := CutCame(states, steps, k);
  }

  /** The hold was set at step j, between the deadlines of this sweep and its grace step, and still stands. */
  predicate SetLate(states: seq<World>, steps: seq<Step>, j: nat, k: nat)
    requires |states| == |steps| + 1
  {
    j < k < |states| && SetsHold(states[j], steps[j])
    && forall i :: j <= i <= k ==> states[i].phase == AtGrace && (j < i ==> states[i].t.hold.Some?)
  }

  /** Between the deadlines and the grace step, only a hold set there makes a held row with a deadline. */
  lemma DueAndHeld(w: World, s: Step)
    requires Inv(w) && Enabled(w, s) && Next(w, s).phase == AtGrace
    requires Next(w, s).t.power == Up && Next(w, s).t.deadline.Some? && Next(w, s).t.hold.Some?
    ensures w.phase == AtGrace && (SetsHold(w, s) || (w.t.power == Up && w.t.deadline.Some? && w.t.hold.Some?))
  {
  }

  lemma {:induction false} HeldWasSetLate(states: seq<World>, steps: seq<Step>, k: nat) returns (j: nat)
    requires History(states, steps) && Init(states[0]) && k <= |steps| && states[k].phase == AtGrace
    requires states[k].t.power == Up && states[k].t.deadline.Some? && states[k].t.hold.Some?
    ensures SetLate(states, steps, j, k)
    decreases k
  {
    HistoryKeepsInv(states, steps, k - 1);
    DueAndHeld(states[k - 1], steps[k - 1]);
    if SetsHold(states[k - 1], steps[k - 1]) {
      j := k - 1;
    } else {
      j := HeldWasSetLate(states, steps, k - 1);
    }
  }

  /**
   What the grace step stops is held if and only if the hold was set after the same sweep had
   written its deadlines, and not ended since.
   */
  lemma HeldGraceStoppedIff(states: seq<World>, steps: seq<Step>, k: nat, inFlight: bool)
    requires History(states, steps) && Init(states[0]) && k <= |steps| && states[k].phase == AtGrace
    requires GraceStops(states[k].t, states[k].now, inFlight)
    ensures states[k].t.hold.Some? <==> exists j: nat :: SetLate(states, steps, j, k)
  {
    if states[k].t.hold.Some? {
      var j := HeldWasSetLate(states, steps, k);
    }
  }

  // ---- Reachable states ----

  /** A run from w to v that takes only allowed steps. */
  predicate Route(w: World, allowed: (World, Step) -> bool, v: World, states: seq<World>, steps: seq<Step>) {
    && History(states, steps) && states[0] == w && states[|steps|] == v
    && forall i :: 0 <= i < |steps| ==> allowed(states[i], steps[i])
  }

  ghost predicate ReachedBy(w: World, allowed: (World, Step) -> bool, v: World) {
    exists states: seq<World>, steps: seq<Step> :: Route(w, allowed, v, states, steps)
  }

  /** A set of states that no allowed step leaves. */
  ghost predicate Closed(R: World -> bool, allowed: (World, Step) -> bool) {
    forall w, s :: R(w) && Enabled(w, s) && allowed(w, s) ==> R(Next(w, s))
  }

  lemma OneStepFurther(w: World, allowed: (World, Step) -> bool, v: World, states: seq<World>, steps: seq<Step>, s: Step)
    requires Route(w, allowed, v, states, steps) && Enabled(v, s) && allowed(v, s)
    ensures Route(w, allowed, Next(v, s), states + [Next(v, s)], steps + [s])
  {
    var more, all := states + [Next(v, s)], steps + [s];
    forall i | 0 <= i < |all|
      ensures Enabled(more[i], all[i]) && more[i + 1] == Next(more[i], all[i]) && allowed(more[i], all[i])
    {
      if i < |steps| {
        assert more[i] == states[i] && more[i + 1] == states[i + 1] && all[i] == steps[i];
      }
    }
  }

  lemma ReachedIsClosed(w: World, allowed: (World, Step) -> bool)
    ensures Closed(v => ReachedBy(w, allowed, v), allowed) && ReachedBy(w, allowed, w)
  {
    assert Route(w, allowed, w, [w], []);
    forall v, s | ReachedBy(w, allowed, v) && Enabled(v, s) && allowed(v, s) ensures ReachedBy(w, allowed, Next(v, s)) {
      var states: seq<World>, steps: seq<Step> :| Route(w, allowed, v, states, steps);
      OneStepFurther(w, allowed, v, states, steps, s);
    }
  }

  lemma Take(R: World -> bool, allowed: (World, Step) -> bool, w: World, s: Step) returns (v: World)
    requires Closed(R, allowed) && R(w) && Enabled(w, s) && allowed(w, s)
    ensures v == Next(w, s) && R(v)
  {
    v := Next(w, s);
  }

  predicate AnyStep(w: World, s: Step) { true }

  /** A row that has been up since 0, with nothing recorded of it. */
  function Fresh(connected: bool): World {
    World(Timers(Up, connected, None, 0, None, None, None), 0, Resting, 0, None, multiset{}, 0, 0)
  }

  ghost predicate Reached(v: World) {
    exists connected :: Init(Fresh(connected)) && ReachedBy(Fresh(connected), AnyStep, v)
  }

  /** The states reached from a fresh row: a set that no step leaves. */
  lemma StartReached(connected: bool) returns (R: World -> bool)
    ensures Closed(R, AnyStep) && R(Fresh(connected)) && forall v :: R(v) ==> Reached(v)
  {
    ReachedIsClosed(Fresh(connected), AnyStep);
    R := v => ReachedBy(Fresh(connected), AnyStep, v);
    assert Init(Fresh(connected));
  }

  /** A sweep begins and finds no hold to settle. */
  lemma NothingToSettle(R: World -> bool, allowed: (World, Step) -> bool, w: World) returns (v: World)
    requires Closed(R, allowed) && R(w) && w.phase == Resting && w.t.hold.None?
    requires forall x, s: Step :: s == Begin || s.Sweep? ==> allowed(x, s)
    ensures R(v) && v == w.(phase := AtStamp, now := w.clock)
  {
    v := Take(R, allowed, w, Begin);
    v := Take(R, allowed, v, Sweep(Off(0)));
    v := Take(R, allowed, v, Sweep(Cut(0)));
    v := Take(R, allowed, v, Sweep(Expire));
  }

  /** A disconnected row comes to the grace step a second after its stamp, with a deadline of that second. */
  lemma ComesDue(R: World -> bool) returns (v: World)
    requires Closed(R, AnyStep) && R(Fresh(false))
    ensures R(v) && v.phase == AtGrace && v.clock == 1000 && v.now == 1000 && v.grace == 1
      && v.t == Timers(Up, false, None, 0, None, Some(0), Some(1000))
  {
    v := NothingToSettle(R, AnyStep, Fresh(false));
    v := Take(R, AnyStep, v, Sweep(StampAll));
    v := Take(R, AnyStep, v, Abandon);
    v := Take(R, AnyStep, v, Tick(1000));
    v := DeadlineIsWritten(R, v);
  }

  lemma DeadlineIsWritten(R: World -> bool, w: World) returns (v: World)
    requires Closed(R, AnyStep) && R(w) && w.phase == Resting && w.t == Timers(Up, false, None, 0, None, Some(0), None)
    ensures R(v) && v.phase == AtGrace && v.clock == w.clock && v.now == w.clock && v.grace == 1 && v.t == w.t.(deadline := Some(1000))
  {
    v := NothingToSettle(R, AnyStep, w);
    v := Take(R, AnyStep, v, Sweep(StampAll));
    v := Take(R, AnyStep, v, Sweep(UnstampAll));
    v := Take(R, AnyStep, v, Sweep(Deadlines(1)));
  }

  /** A sweep writes a deadline, the student sets a hold, and the same sweep's grace step stops the held workspace. */
  lemma LateHoldIsStopped() returns (v: World)
    ensures Reached(v) && v.phase == AtGrace && v.t.hold.Some? && v.t.hold.value > v.clock && GraceStops(v.t, v.now, false)
  {
    var R := StartReached(false);
    v := ComesDue(R);
    v := Take(R, AnyStep, v, Hold(7_200_000, 12));
  }

  // ---- The same statements as the worker and the API run them ----

  /** The worker's statements on one row, in the order a sweep makes them. */
  class Row {
    var t: Timers

    constructor (t: Timers)
      ensures this.t == t
    {
      this.t := t;
    }

    /** With nothing in between, every hold left lies in (now, now + cap]; an ended one restarts both timers from its end. */
    method SettleKeepRunning(now: int, cap: nat)
      modifies this
      ensures t == SettleExpire(SettleCut(SettleOff(old(t), now, cap), now, cap), now)
      ensures t.hold.Some? <==> old(t).hold.Some? && old(t).hold.value > now && cap > 0
      ensures t.hold.Some? ==> now < t.hold.value <= now + Hours(cap) && t == old(t).(hold := Some(Min(old(t).hold.value, now + Hours(cap))))
      ensures old(t).hold.Some? && t.hold.None? ==>
        && var end := Min(old(t).hold.value, now);
        && t.idleStopAt.None? && t.lastActivity >= end
        && (t.disconnectedAt.Some? <==> old(t).disconnectedAt.Some?)
        && (t.disconnectedAt.Some? ==> t.disconnectedAt.value >= end)
      ensures old(t).hold.None? ==> t == old(t)
    {
      if t.hold.Some? && t.hold.value > now && cap == 0 {
        t := t.(hold := None, lastActivity := now, idleStopAt := None, disconnectedAt := Moved(t.disconnectedAt, now));
      }
      if t.hold.Some? && t.hold.value > now + Hours(cap) {
        t := t.(hold := Some(now + Hours(cap)));
      }
      if t.hold.Some? && t.hold.value <= now {
        var end := t.hold.value;
        t := t.(hold := None, idleStopAt := None, lastActivity := Max(t.lastActivity, end));
        if t.disconnectedAt.Some? {
          t := t.(disconnectedAt := Some(Max(t.disconnectedAt.value, end)));
        }
      }
    }

    /** A running row ends with a deadline exactly when it is disconnected, not held, and the grace period is not 0. */
    method TrackDisconnections(now: int, grace: nat)
      modifies this
      ensures t == Deadline(Unstamp(Stamp(old(t), now)), grace)
      ensures t.power != Up ==> t == old(t)
      ensures t.power == Up && (old(t).deadline.Some? ==> old(t).disconnectedAt.Some?) ==>
        && (t.disconnectedAt.Some? <==> !t.connected)
        && (t.deadline.Some? <==> !t.connected && t.hold.None? && grace > 0)
        && (t.deadline.Some? ==> t.deadline.value == t.disconnectedAt.value + Seconds(grace))
    {
      if t.power == Up && t.disconnectedAt.None? && !t.connected {
        t := t.(disconnectedAt := Some(now));
      }
      if t.power == Up && t.connected && (t.disconnectedAt.Some? || t.deadline.Some?) {
        t := t.(disconnectedAt := None, deadline := None);
      }
      if t.power == Up && t.disconnectedAt.Some? {
        t := t.(deadline := if grace == 0 || t.hold.Some? then None else Some(t.disconnectedAt.value + Seconds(grace)));
      }
    }

    /** A warning that this call writes never stops anything in the same call. */
    method StopIdle(now: int, idle: nat, inFlight: bool) returns (stopped: bool)
      modifies this
      ensures var u := Warn(Withdraw(old(t), idle), now, idle);
        stopped == IdleStops(u, now, inFlight) && t == StopIf(stopped, u)
      ensures stopped ==> Passed(old(t).idleStopAt, now) && old(t).hold.None? && idle > 0
      ensures t.idleStopAt.Some? ==> t.hold.None? && idle > 0
    {
      if t.idleStopAt.Some? && (idle == 0 || t.hold.Some?) {
        t := t.(idleStopAt := None);
      }
      if Warns(t, now, idle) {
        t := t.(idleStopAt := Some(now + IDLE_WARNING));
      }
      stopped := t.power == Up && Passed(t.idleStopAt, now) && !inFlight;
      if stopped {
        t := t.(power := Down);
      }
    }
  }

  /** The API's throttle over all workspaces. */
  class Activity {
    var written: map<nat, int>
    var rows: map<nat, Timers>

    constructor (rows: map<nat, Timers>)
      ensures this.rows == rows && written == map[]
    {
      this.rows, written := rows, map[];
    }

    /**
     One write at most in any interval.  A write that fails leaves the row and gives up the
     claim, so the next activity is written; a write for a row that is gone changes nothing.
     */
    method RecordActivity(id: nat, now: int, succeeds: bool) returns (ok: bool)
      modifies this
      ensures var claimed := if id in old(written) then Some(old(written)[id]) else None;
        if Swallowed(claimed, now) then ok && written == old(written) && rows == old(rows)
        else if succeeds then
          ok && written == old(written)[id := now]
          && rows == (if id in old(rows) then old(rows)[id := Active(old(rows)[id], now)] else old(rows))
        else !ok && written == old(written) - {id} && rows == old(rows)
    {
      if id in written && now - written[id] < WRITE_INTERVAL {
        return true;
      }
      written := written[id := now];
      if succeeds {
        if id in rows {
          rows := rows[id := rows[id].(lastActivity := now, idleStopAt := None)];
        }
        ok := true;
      } else {
        written := written - {id};
        ok := false;
      }
    }
  }
}
