/**
 What one whole sweep with nothing in between does to a workspace's timers, told in numbers from
 the row it finds: who keeps a hold, who is stopped, who is warned.
 */
module TimerSweeps {
  import opened Wrappers
  import opened KeepRunning

  /** The statements of one sweep, with the cap and the settings it reads. */
  function SweepSteps(cap: nat, grace: nat, idle: nat, inFlight: bool): seq<Step> {
    [Begin, Sweep(Off(cap)), Sweep(Cut(cap)), Sweep(Expire), Sweep(StampAll), Sweep(UnstampAll), Sweep(Deadlines(grace)),
     Sweep(GraceStop(inFlight)), Sweep(WithdrawAll(idle)), Sweep(WarnAll(idle)), Sweep(IdleStop(inFlight))]
  }

  function Settle(t: Timers, now: int, cap: nat): Timers {
    SettleExpire(SettleCut(SettleOff(t, now, cap), now, cap), now)
  }

  function Track(t: Timers, now: int, grace: nat): Timers {
    Deadline(Unstamp(Stamp(t, now)), grace)
  }

  /** The row after the idle statements. */
  function Idle(t: Timers, now: int, idle: nat, inFlight: bool): Timers {
    var u := Warn(Withdraw(t, idle), now, idle);
    StopIf(IdleStops(u, now, inFlight), u)
  }

  function Swept(t: Timers, now: int, cap: nat, grace: nat, idle: nat, inFlight: bool): Timers {
    var u := Track(Settle(t, now, cap), now, grace);
    Idle(StopIf(GraceStops(u, now, inFlight), u), now, idle, inFlight)
  }

  lemma SettlingIsThat(w: World, cap: nat)
    ensures Next(Next(Next(Next(w, Begin), Sweep(Off(cap))), Sweep(Cut(cap))), Sweep(Expire))
      == w.(t := Settle(w.t, w.clock, cap), phase := AtStamp, now := w.clock)
  {
  }

  lemma TrackingIsThat(w: World, grace: nat)
    ensures Next(Next(Next(w, Sweep(StampAll)), Sweep(UnstampAll)), Sweep(Deadlines(grace)))
      == w.(t := Track(w.t, w.now, grace), phase := AtGrace, grace := grace)
  {
  }

  lemma IdlingIsThat(w: World, idle: nat, inFlight: bool)
    ensures var v := Next(Next(Next(w, Sweep(WithdrawAll(idle))), Sweep(WarnAll(idle))), Sweep(IdleStop(inFlight)));
      v == w.(t := Idle(w.t, w.now, idle, inFlight), phase := AtRefresh, idle := v.idle)
  {
  }

  lemma Consecutive(states: seq<World>, steps: seq<Step>, i: nat)
    requires History(states, steps) && i < |steps|
    ensures states[i + 1] == Next(states[i], steps[i])
  {
  }

  lemma FourSteps(states: seq<World>, steps: seq<Step>, i: nat)
    requires History(states, steps) && i + 4 <= |steps|
    ensures states[i + 4] == Next(Next(Next(Next(states[i], steps[i]), steps[i + 1]), steps[i + 2]), steps[i + 3])
  {
    Consecutive(states, steps, i);
    Consecutive(states, steps, i + 1);
    Consecutive(states, steps, i + 2);
    Consecutive(states, steps, i + 3);
  }

  lemma ThreeSteps(states: seq<World>, steps: seq<Step>, i: nat)
    requires History(states, steps) && i + 3 <= |steps|
    ensures states[i + 3] == Next(Next(Next(states[i], steps[i]), steps[i + 1]), steps[i + 2])
  {
    Consecutive(states, steps, i);
    Consecutive(states, steps, i + 1);
    Consecutive(states, steps, i + 2);
  }

  predicate SweepRun(states: seq<World>, steps: seq<Step>, cap: nat, grace: nat, idle: nat, inFlight: bool) {
    History(states, steps) && steps == SweepSteps(cap, grace, idle, inFlight)
  }

  lemma UpToTracking(states: seq<World>, steps: seq<Step>, cap: nat, grace: nat, idle: nat, inFlight: bool)
    requires SweepRun(states, steps, cap, grace, idle, inFlight)
    ensures var w := states[0]; states[4] == w.(t := Settle(w.t, w.clock, cap), phase := AtStamp, now := w.clock)
  {
    FourSteps(states, steps, 0);
    SettlingIsThat(states[0], cap);
  }

  lemma UpToGrace(states: seq<World>, steps: seq<Step>, cap: nat, grace: nat, idle: nat, inFlight: bool)
    requires SweepRun(states, steps, cap, grace, idle, inFlight)
    ensures var w := states[4]; states[7] == w.(t := Track(w.t, w.now, grace), phase := AtGrace, grace := grace)
  {
    ThreeSteps(states, steps, 4);
    TrackingIsThat(states[4], grace);
  }

  lemma UpToEnd(states: seq<World>, steps: seq<Step>, cap: nat, grace: nat, idle: nat, inFlight: bool)
    requires SweepRun(states, steps, cap, grace, idle, inFlight)
    ensures var w := states[7];
      var t := StopIf(GraceStops(w.t, w.now, inFlight), w.t);
      states[11].t == Idle(t, w.now, idle, inFlight) && states[11].phase == AtRefresh && states[11].clock == w.clock
  {
    Consecutive(states, steps, 7);
    ThreeSteps(states, steps, 8);
    IdlingIsThat(states[8], idle, inFlight);
  }

  /** The run that takes those steps one after another ends with that row. */
  lemma SweepIsThat(states: seq<World>, steps: seq<Step>, cap: nat, grace: nat, idle: nat, inFlight: bool)
    requires SweepRun(states, steps, cap, grace, idle, inFlight)
    ensures |states| == 12
    ensures var w := states[0];
      states[11].t == Swept(w.t, w.clock, cap, grace, idle, inFlight) && states[11].phase == AtRefresh && states[11].clock == w.clock
  {
    UpToTracking(states, steps, cap, grace, idle, inFlight);
    UpToGrace(states, steps, cap, grace, idle, inFlight);
    UpToEnd(states, steps, cap, grace, idle, inFlight);
  }

  // ---- In numbers ----

  /** The hold outlasts the sweep: it lies ahead and holds are not turned off. */
  predicate StillHeld(t: Timers, now: int, cap: nat) {
    t.hold.Some? && t.hold.value > now && cap > 0
  }

  /** When the timers start again, should the sweep end a hold: at its own end, or now when holds are turned off. */
  function EndedAt(t: Timers, now: int, cap: nat): Option<int> {
    if t.hold.None? || StillHeld(t, now, cap) then None else if t.hold.value <= now then t.hold else Some(now)
  }

  function NoSooner(at: int, end: Option<int>): int {
    if end.Some? && end.value > at then end.value else at
  }

  /** Since when nobody is connected. */
  function Since(t: Timers, now: int, cap: nat): int {
    if t.disconnectedAt.None? then now else NoSooner(t.disconnectedAt.value, EndedAt(t, now, cap))
  }

  predicate GraceDue(t: Timers, now: int, cap: nat, grace: nat) {
    t.power == Up && !t.connected && !StillHeld(t, now, cap) && grace > 0 && now - Since(t, now, cap) >= 1000 * grace
  }

  /** The warning that stands once it has been withdrawn from held rows, from those whose hold ended and where idling is not stopped. */
  function Standing(t: Timers, now: int, cap: nat, idle: nat): Option<int> {
    if t.hold.Some? || idle == 0 then None else t.idleStopAt
  }

  /** Idle for long enough and not warned yet. */
  predicate WarningDue(t: Timers, now: int, cap: nat, idle: nat) {
    && t.power == Up && !StillHeld(t, now, cap) && idle > 0 && Standing(t, now, cap, idle).None?
    && now - NoSooner(t.lastActivity, EndedAt(t, now, cap)) >= 60_000 * idle
  }

  /** Warned, and the five minutes over. */
  predicate IdleDue(t: Timers, now: int, cap: nat, idle: nat) {
    t.power == Up && Standing(t, now, cap, idle).Some? && Standing(t, now, cap, idle).value <= now
  }

  predicate Sound(t: Timers, now: int) {
    && t.lastActivity <= now && (t.disconnectedAt.Some? ==> t.disconnectedAt.value <= now)
    && (t.deadline.Some? ==> t.disconnectedAt.Some?)
  }

  lemma SettleInNumbers(t: Timers, now: int, cap: nat)
    requires Sound(t, now)
    ensures var u := Settle(t, now, cap);
      && u.hold == (if StillHeld(t, now, cap) then Some(if t.hold.value > now + 3_600_000 * cap then now + 3_600_000 * cap else t.hold.value) else None)
      && u.lastActivity == NoSooner(t.lastActivity, EndedAt(t, now, cap))
      && u.disconnectedAt == (if t.disconnectedAt.None? then None else Some(Since(t, now, cap)))
      && u.idleStopAt == (if EndedAt(t, now, cap).Some? then None else t.idleStopAt)
      && u.power == t.power && u.connected == t.connected && u.deadline == t.deadline
  {
  }

  /** The grace step stops a row exactly when nobody has been connected to it for the whole grace period and no hold stands. */
  lemma GraceInNumbers(t: Timers, now: int, cap: nat, grace: nat, inFlight: bool)
    requires Sound(t, now)
    ensures GraceStops(Track(Settle(t, now, cap), now, grace), now, inFlight) <==> GraceDue(t, now, cap, grace) && !inFlight
    ensures var u, s := Track(Settle(t, now, cap), now, grace), Settle(t, now, cap);
      u.power == s.power && u.hold == s.hold && u.lastActivity == s.lastActivity && u.idleStopAt == s.idleStopAt
  {
    SettleInNumbers(t, now, cap);
  }

  /**
   The stamp and the deadline a sweep leaves on a row that is up: none while someone is connected,
   so that the next disconnection starts anew; else since when nobody is, and the end of the grace
   period unless a hold stands or there is none.
   */
  lemma StampsInNumbers(t: Timers, now: int, cap: nat, grace: nat)
    requires Sound(t, now)
    ensures var u := Track(Settle(t, now, cap), now, grace);
      && (t.power == Up ==>
            && u.disconnectedAt == (if t.connected then None else Some(Since(t, now, cap)))
            && u.deadline == if t.connected || grace == 0 || StillHeld(t, now, cap) then None else Some(Since(t, now, cap) + 1000 * grace))
      && (t.power != Up ==> u.deadline == t.deadline && u.disconnectedAt == Settle(t, now, cap).disconnectedAt)
  {
    SettleInNumbers(t, now, cap);
  }

  /** What a sweep stops or warns keeps its stamp and its deadline. */
  lemma SweepKeepsStamps(t: Timers, now: int, cap: nat, grace: nat, idle: nat, inFlight: bool)
    ensures var u, v := Track(Settle(t, now, cap), now, grace), Swept(t, now, cap, grace, idle, inFlight);
      v.disconnectedAt == u.disconnectedAt && v.deadline == u.deadline && v.lastActivity == u.lastActivity && v.hold == u.hold
  {
  }

  /**
   The whole sweep: a row is stopped exactly when its grace period or the five minutes of its
   warning are over; it is warned exactly when it has been idle long enough, stays up and has no
   warning; and a hold that outlasts the sweep is cut to the cap and keeps both from happening.
   */
  lemma SweepDecides(t: Timers, now: int, cap: nat, grace: nat, idle: nat)
    requires Sound(t, now)
    ensures var v := Swept(t, now, cap, grace, idle, false);
      && (v.power == if GraceDue(t, now, cap, grace) || IdleDue(t, now, cap, idle) then Down else t.power)
      && v.idleStopAt == (if WarningDue(t, now, cap, idle) && !GraceDue(t, now, cap, grace) then Some(now + 300_000) else Standing(t, now, cap, idle))
      && (StillHeld(t, now, cap) ==> v.power == t.power && v.idleStopAt.None? && v.hold.Some?)
  {
    SettleInNumbers(t, now, cap);
    GraceInNumbers(t, now, cap, grace, false);
  }

  /** With a call in flight nothing is stopped, and warnings are written all the same. */
  lemma BusyIsNotStopped(t: Timers, now: int, cap: nat, grace: nat, idle: nat)
    requires Sound(t, now)
    ensures var v := Swept(t, now, cap, grace, idle, true);
      v.power == t.power && v.idleStopAt == if WarningDue(t, now, cap, idle) then Some(now + 300_000) else Standing(t, now, cap, idle)
  {
    SettleInNumbers(t, now, cap);
    GraceInNumbers(t, now, cap, grace, true);
  }

  // ---- Starts and stops ----

  /** A start leaves a row that is up, active now, with no warning, no stamp and no deadline, its hold as it was. */
  lemma StartIsFresh(w: World)
    requires w.t.power == Down
    ensures Enabled(w, Power(MoveToStarting)) && Enabled(Next(w, Power(MoveToStarting)), Power(Started))
    ensures Next(Next(w, Power(MoveToStarting)), Power(Started)).t == Timers(Up, w.t.connected, w.t.hold, w.clock, None, None, None)
  {
  }

  /** A stop and what follows it leave a row that is down, with no warning, no stamp and no deadline. */
  lemma StopIsClean(w: World)
    ensures var v := Next(w, Power(StopOther));
      && Enabled(v, Power(Stopped))
      && Next(Next(v, Power(Stopped)), Power(ClearGuard)).t == Timers(Down, w.t.connected, w.t.hold, w.t.lastActivity, None, None, None)
  {
  }

  /** The list finds a row running only in the last part of a sweep: an unexpected start is active as of that sweep, a stop that did not happen changes nothing but the state. */
  lemma FoundInTheList(w: World)
    ensures Enabled(w, Power(FoundRunning)) <==> w.phase == AtRefresh && w.t.power != Up
    ensures Enabled(w, Power(StillRunning)) <==> w.phase == AtRefresh && w.t.power == Down
    ensures Next(w, Power(FoundRunning)).t == w.t.(power := Up, lastActivity := w.now, idleStopAt := None)
    ensures Next(w, Power(StillRunning)).t == w.t.(power := Up)
  {
  }

  // ---- The API's own statements ----

  /** A hold is set exactly when holds are allowed and it lies ahead, at most the cap and five minutes; it is cut to the cap. */
  lemma HoldInNumbers(w: World, until: int, maxHours: nat)
    ensures var v := Next(w, Hold(until, maxHours));
      var cap := w.clock + 3_600_000 * maxHours;
      if maxHours > 0 && w.clock < until <= cap + 300_000
      then v == w.(t := w.t.(hold := Some(if until > cap then cap else until), lastActivity := w.clock, idleStopAt := None))
      else v == w
  {
  }

  /** Ending a hold that still runs starts both timers again now; any other end changes nothing. */
  lemma UnholdInNumbers(w: World)
    ensures var v := Next(w, Unhold);
      && (w.t.hold.Some? && w.t.hold.value > w.clock ==>
            v.t.hold.None? && v.t.lastActivity == w.clock && v.t.idleStopAt.None?
            && v.t.disconnectedAt == if w.t.disconnectedAt.Some? then Some(w.clock) else None)
      && (w.t.hold.None? || w.t.hold.value <= w.clock ==> v == w)
  {
  }

  /** Activity is written unless some was claimed within the last minute; the write clears the warning, and one that fails frees the claim. */
  lemma ActivityInNumbers(w: World, at: int)
    ensures var v := Next(w, Claim);
      if w.claimed.Some? && w.clock - w.claimed.value < 60_000 then v == w
      else v == w.(claimed := Some(w.clock), landing := w.landing + multiset{w.clock})
    ensures at in w.landing ==>
      Next(w, Land(at)) == w.(t := w.t.(lastActivity := at, idleStopAt := None), landing := w.landing - multiset{at})
    ensures at in w.landing ==> Next(w, Fail(at)) == w.(claimed := None, landing := w.landing - multiset{at})
  {
  }
}
