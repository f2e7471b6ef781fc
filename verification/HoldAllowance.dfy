/**
 What is left of a workspace's time once its hold has ended, by time, by a cap of 0 or by the
 student: exactly when the full grace period, and exactly when the full idle time.
 */
module HoldAllowance {
  import opened Wrappers
  import opened KeepRunning

  /** The moment both timers start again from, when this step ends a hold: by time, by a cap of 0, or by the student. */
  function EndsHoldAt(w: World, s: Step): Option<int> {
    if s == Sweep(Expire) && Passed(w.t.hold, w.now) then w.t.hold
    else if s == Sweep(Off(0)) && w.t.hold.Some? && w.t.hold.value > w.now then Some(w.now)
    else if s == Unhold && w.t.hold.Some? && w.t.hold.value > w.clock then Some(w.clock)
    else None
  }

  predicate NoHoldSet(w: World, s: Step) {
    !SetsHold(w, s)
  }

  predicate Unheld(states: seq<World>, steps: seq<Step>) {
    |states| == |steps| + 1 && forall i :: 0 <= i < |steps| ==> NoHoldSet(states[i], steps[i])
  }

  // ---- The grace period ----

  /** A sweep is under way that has yet to stamp disconnections with its time. */
  predicate StampAhead(p: Phase) {
    p == AtOff || p == AtCut || p == AtExpire || p == AtStamp
  }

  /** The disconnection, any stamp to come in this sweep and the deadline count from u or later. */
  predicate GraceFrom(u: int, w: World) {
    && u <= w.clock && w.t.hold.None?
    && (StampAhead(w.phase) ==> u <= w.now)
    && (w.t.disconnectedAt.Some? ==> u <= w.t.disconnectedAt.value)
    && (w.phase == AtGrace && w.t.power == Up && Passed(w.t.deadline, w.now) ==> u + Seconds(w.grace) <= w.now)
  }

  lemma StatementKeepsGrace(u: int, w: World, s: Statement)
    requires Inv(w) && GraceFrom(u, w) && w.phase == PhaseOf(s)
    ensures GraceFrom(u, Made(w, s))
  {
  }

  lemma ChangeKeepsGrace(u: int, w: World, c: Change)
    requires Inv(w) && GraceFrom(u, w) && CanChange(w, c)
    ensures GraceFrom(u, w.(t := Powered(w.t, c, w.clock, w.now)))
  {
  }

  lemma StepKeepsGrace(u: int, w: World, s: Step)
    requires Inv(w) && GraceFrom(u, w) && Enabled(w, s) && NoHoldSet(w, s)
    ensures GraceFrom(u, Next(w, s))
  {
    if s.Sweep? {
      StatementKeepsGrace(u, w, s.does);
    } else if s.Power? {
      ChangeKeepsGrace(u, w, s.change);
    }
  }

  lemma {:induction false} StaysGrace(u: int, states: seq<World>, steps: seq<Step>, k: nat)
    requires History(states, steps) && Unheld(states, steps) && k <= |steps| && Inv(states[0]) && GraceFrom(u, states[0])
    ensures GraceFrom(u, states[k])
    decreases k
  {
    if k > 0 {
      StaysGrace(u, states, steps, k - 1);
      HistoryKeepsInv(states, steps, k - 1);
      StepKeepsGrace(u, states[k - 1], steps[k - 1]);
    }
  }

  /** The grace step would stop the row before u plus the grace period. */
  predicate GraceStopsEarly(u: int, v: World) {
    v.phase == AtGrace && GraceStops(v.t, v.now, false) && v.now < u + Seconds(v.grace)
  }

  /**
   What the end of a hold needs for the grace period to start from it.  A hold that the worker
   ends always has it; one that the student ends does not while a sweep begun before it has yet
   to stamp, nor while one has a deadline in hand that is over and too early.
   */
  predicate GraceKept(w: World, s: Step) {
    s == Unhold ==>
      && !(StampAhead(w.phase) && w.now < w.clock)
      && !(w.phase == AtGrace && w.t.power == Up && Passed(w.t.deadline, w.now) && w.now < w.clock + Seconds(w.grace))
  }

  lemma EndStartsGrace(w: World, s: Step)
    requires Inv(w) && Enabled(w, s) && EndsHoldAt(w, s).Some? && GraceKept(w, s)
    ensures Inv(Next(w, s)) && GraceFrom(EndsHoldAt(w, s).value, Next(w, s))
  {
    NextKeepsInv(w, s);
  }

  // ---- The idle time ----

  /** The activity, any write under way, the sweep's time and any warning count from u or later. */
  ghost predicate IdleFrom(u: int, w: World) {
    && u <= w.clock && w.t.hold.None? && u <= w.t.lastActivity
    && (w.phase != Resting ==> u <= w.now)
    && (forall at :: at in w.landing ==> u <= at)
    && (w.t.idleStopAt.Some? ==> u + Minutes(w.idle) + IDLE_WARNING <= w.t.idleStopAt.value)
  }

  lemma StatementKeepsIdle(u: int, w: World, s: Statement)
    requires Inv(w) && IdleFrom(u, w) && w.phase == PhaseOf(s)
    ensures IdleFrom(u, Made(w, s))
  {
  }

  lemma ChangeKeepsIdle(u: int, w: World, c: Change)
    requires Inv(w) && IdleFrom(u, w) && CanChange(w, c)
    ensures IdleFrom(u, w.(t := Powered(w.t, c, w.clock, w.now)))
  {
  }

  lemma StepKeepsIdle(u: int, w: World, s: Step)
    requires Inv(w) && IdleFrom(u, w) && Enabled(w, s) && NoHoldSet(w, s)
    ensures IdleFrom(u, Next(w, s))
  {
    if s.Sweep? {
      StatementKeepsIdle(u, w, s.does);
    } else if s.Power? {
      ChangeKeepsIdle(u, w, s.change);
    }
  }

  lemma {:induction false} StaysIdle(u: int, states: seq<World>, steps: seq<Step>, k: nat)
    requires History(states, steps) && Unheld(states, steps) && k <= |steps| && Inv(states[0]) && IdleFrom(u, states[0])
    ensures IdleFrom(u, states[k])
    decreases k
  {
    if k > 0 {
      StaysIdle(u, states, steps, k - 1);
      HistoryKeepsInv(states, steps, k - 1);
      StepKeepsIdle(u, states[k - 1], steps[k - 1]);
    }
  }

  /** The idle step would stop the row before u plus the idle time and the five minutes of its warning. */
  predicate IdleStopsEarly(u: int, v: World) {
    v.phase == AtIdle && IdleStops(v.t, v.now, false) && v.now < u + Minutes(v.idle) + IDLE_WARNING
  }

  /**
   What the end of a hold at u needs for the idle time to start from it: no activity write under
   way carries an earlier time, and no sweep under way began earlier.
   */
  ghost predicate IdleKept(u: int, w: World) {
    (forall at :: at in w.landing ==> u <= at) && (w.phase == Resting || u <= w.now)
  }

  lemma EndStartsIdle(w: World, s: Step)
    requires Inv(w) && Enabled(w, s) && EndsHoldAt(w, s).Some?
    ensures var u, v := EndsHoldAt(w, s).value, Next(w, s);
      && Inv(v) && v.t.hold.None? && v.landing == w.landing && v.now == w.now && u <= v.clock
      && (v.phase == Resting <==> w.phase == Resting)
      && (IdleKept(u, w) ==> IdleFrom(u, v))
      && (s != Unhold ==> u <= w.now && w.phase != Resting)
  {
    NextKeepsInv(w, s);
  }

  /** The row is up again, with nothing else of it changed but the record of its activity. */
  lemma ComesUp(R: World -> bool, w: World) returns (v: World)
    requires Closed(R, NoHoldSet) && R(w) && w.t.hold.None?
    ensures R(v) && v.phase == Resting && v.t.power == Up && v.t.hold.None? && v.clock == w.clock && v.landing == w.landing
  {
    v := Take(R, NoHoldSet, w, Abandon);
    v := Take(R, NoHoldSet, v, Power(StopOther));
    v := Take(R, NoHoldSet, v, Power(MoveToStarting));
    v := Take(R, NoHoldSet, v, Power(Started));
  }

  /** A sweep of a row with no hold and no grace period comes to its idle statements. */
  lemma SweepComesToIdle(R: World -> bool, w: World) returns (v: World)
    requires Closed(R, NoHoldSet) && R(w) && w.phase == Resting && w.t.hold.None?
    ensures R(v) && v.phase == AtWithdraw && v.now == w.clock && v.clock == w.clock
    ensures v.t.power == w.t.power && v.t.hold.None? && v.t.lastActivity == w.t.lastActivity && v.t.idleStopAt == w.t.idleStopAt
    ensures v.idle == w.idle
  {
    v := NothingToSettle(R, NoHoldSet, w);
    v := Take(R, NoHoldSet, v, Sweep(StampAll));
    v := Take(R, NoHoldSet, v, Sweep(UnstampAll));
    v := Take(R, NoHoldSet, v, Sweep(Deadlines(0)));
    v := Take(R, NoHoldSet, v, Sweep(GraceStop(true)));
  }

  /** A sweep at the very moment the idle time is over writes the warning. */
  lemma SweepWarns(R: World -> bool, w: World, idle: nat) returns (v: World)
    requires Closed(R, NoHoldSet) && R(w) && w.phase == Resting && w.t.hold.None? && w.t.power == Up && w.t.idleStopAt.None?
    requires idle > 0 && w.clock == w.t.lastActivity + Minutes(idle)
    ensures R(v) && v.phase == Resting && v.clock == w.clock && v.idle == idle && v.t.power == Up && v.t.hold.None?
    ensures v.t.idleStopAt == Some(w.clock + IDLE_WARNING)
  {
    v := SweepComesToIdle(R, w);
    v := Take(R, NoHoldSet, v, Sweep(WithdrawAll(idle)));
    v := Take(R, NoHoldSet, v, Sweep(WarnAll(idle)));
    v := Take(R, NoHoldSet, v, Abandon);
  }

  /** And one five minutes later stops the row. */
  lemma SweepStops(R: World -> bool, w: World) returns (v: World)
    requires Closed(R, NoHoldSet) && R(w) && w.phase == Resting && w.t.hold.None? && w.t.power == Up
    requires w.idle > 0 && w.t.idleStopAt == Some(w.clock)
    ensures R(v) && v.phase == AtIdle && v.now == w.clock && v.idle == w.idle && IdleStops(v.t, v.now, false)
  {
    v := SweepComesToIdle(R, w);
    v := Take(R, NoHoldSet, v, Sweep(WithdrawAll(w.idle)));
    v := Take(R, NoHoldSet, v, Sweep(WarnAll(w.idle)));
  }

  /** The idle time that brings a moment past the clock. */
  lemma EnoughMinutes(at: int, clock: int) returns (idle: nat)
    ensures idle > 0 && clock <= at + Minutes(idle)
  {
    idle := if clock > at then clock - at else 1;
    assert Minutes(idle) >= idle;
  }

  /** With the record before u, the row can be stopped early. */
  lemma OldRecordStopsEarly(R: World -> bool, u: int, w: World) returns (v: World)
    requires Closed(R, NoHoldSet) && R(w) && w.phase == Resting && w.t.power == Up && w.t.hold.None? && w.t.idleStopAt.None?
    requires w.t.lastActivity < u
    ensures R(v) && IdleStopsEarly(u, v)
  {
    var idle := EnoughMinutes(w.t.lastActivity, w.clock);
    var a := Take(R, NoHoldSet, w, Tick(w.t.lastActivity + Minutes(idle) - w.clock));
    var b := SweepWarns(R, a, idle);
    b := Take(R, NoHoldSet, b, Tick(300_000));
    v := SweepStops(R, b);
  }

  lemma LateWriteStopsEarly(R: World -> bool, u: int, w: World, at: int) returns (v: World)
    requires Closed(R, NoHoldSet) && R(w) && w.t.hold.None? && at in w.landing && at < u
    ensures R(v) && IdleStopsEarly(u, v)
  {
    var a := ComesUp(R, w);
    a := Take(R, NoHoldSet, a, Land(at));
    v := OldRecordStopsEarly(R, u, a);
  }

  /** The statement of this phase, for a row that is not up and has no hold. */
  function IdleStatement(p: Phase): Statement
    requires p != Resting && p != AtRefresh
  {
    match p
    case AtOff => Off(0)
    case AtCut => Cut(0)
    case AtExpire => Expire
    case AtStamp => StampAll
    case AtUnstamp => UnstampAll
    case AtDeadline => Deadlines(0)
    case AtGrace => GraceStop(true)
    case AtWithdraw => WithdrawAll(0)
    case AtWarn => WarnAll(0)
    case AtIdle => IdleStop(true)
  }

  function Ahead(p: Phase): nat {
    match p
    case Resting => 0
    case AtOff => 11
    case AtCut => 10
    case AtExpire => 9
    case AtStamp => 8
    case AtUnstamp => 7
    case AtDeadline => 6
    case AtGrace => 5
    case AtWithdraw => 4
    case AtWarn => 3
    case AtIdle => 2
    case AtRefresh => 1
  }

  /** One statement that finds nothing to do. */
  lemma OneStatementOn(R: World -> bool, w: World) returns (v: World)
    requires Closed(R, NoHoldSet) && R(w) && w.phase != Resting && w.phase != AtRefresh && w.t.power == Down && w.t.hold.None?
    ensures R(v) && v.phase != Resting && Ahead(v.phase) < Ahead(w.phase)
    ensures v.t.power == Down && v.t.hold.None? && v.now == w.now && v.clock == w.clock
  {
    v := Take(R, NoHoldSet, w, Sweep(IdleStatement(w.phase)));
  }

  /** The sweep under way comes to its last part. */
  lemma {:induction false} ComesToRefresh(R: World -> bool, w: World) returns (v: World)
    requires Closed(R, NoHoldSet) && R(w) && w.phase != Resting && w.t.power == Down && w.t.hold.None?
    ensures R(v) && v.phase == AtRefresh && v.t.power == Down && v.t.hold.None? && v.now == w.now && v.clock == w.clock
    decreases Ahead(w.phase)
  {
    v := w;
    if w.phase != AtRefresh {
      v := OneStatementOn(R, w);
      v := ComesToRefresh(R, v);
    }
  }

  /** A sweep begun before u finds the row running, and so records activity before u. */
  lemma OldSweepStopsEarly(R: World -> bool, u: int, w: World) returns (v: World)
    requires Closed(R, NoHoldSet) && R(w) && w.phase != Resting && w.now < u && w.t.hold.None?
    ensures R(v) && IdleStopsEarly(u, v)
  {
    var a := Take(R, NoHoldSet, w, Power(StopOther));
    a := ComesToRefresh(R, a);
    a := Take(R, NoHoldSet, a, Power(FoundRunning));
    a := Take(R, NoHoldSet, a, Abandon);
    v := OldRecordStopsEarly(R, u, a);
  }

  /**
   When a hold has ended at u, by time, by a cap of 0 or by the student: every run from there,
   until another hold is set, leaves the idle time and its warning in full if and only if no
   activity write under way carries a time before u and no sweep under way began before u.
   */
  lemma FullIdleIff(before: seq<World>, did: seq<Step>, ending: Step)
    requires History(before, did) && Init(before[0])
    requires var w := before[|did|]; Enabled(w, ending) && EndsHoldAt(w, ending).Some?
    ensures var w := before[|did|];
      var u := EndsHoldAt(w, ending).value;
      (forall v :: ReachedBy(Next(w, ending), NoHoldSet, v) ==> !IdleStopsEarly(u, v)) <==> IdleKept(u, w)
  {
    var w := before[|did|];
    var u, x := EndsHoldAt(w, ending).value, Next(w, ending);
    HistoryKeepsInv(before, did, |did|);
    EndStartsIdle(w, ending);
    if IdleKept(u, w) {
      forall v | ReachedBy(x, NoHoldSet, v) ensures !IdleStopsEarly(u, v) {
        var states: seq<World>, steps: seq<Step> :| Route(x, NoHoldSet, v, states, steps);
        StaysIdle(u, states, steps, |steps|);
      }
    } else {
      ReachedIsClosed(x, NoHoldSet);
      var v := IdleIsCut(y => ReachedBy(x, NoHoldSet, y), u, w, x);
    }
  }

  lemma IdleIsCut(R: World -> bool, u: int, w: World, x: World) returns (v: World)
    requires Closed(R, NoHoldSet) && R(x) && !IdleKept(u, w)
    requires x.t.hold.None? && x.landing == w.landing && x.now == w.now && (x.phase == Resting <==> w.phase == Resting)
    ensures R(v) && IdleStopsEarly(u, v)
  {
    if at :| at in w.landing && at < u {
      v := LateWriteStopsEarly(R, u, x, at);
    } else {
      v := OldSweepStopsEarly(R, u, x);
    }
  }

  // ---- The student's end in the middle of a sweep ----

  lemma ComesToStamp(R: World -> bool, w: World) returns (v: World)
    requires Closed(R, NoHoldSet) && R(w) && StampAhead(w.phase) && w.t.hold.None?
    ensures R(v) && v == w.(phase := AtStamp)
  {
    v := w;
    if v.phase == AtOff {
      v := Take(R, NoHoldSet, v, Sweep(Off(0)));
    }
    if v.phase == AtCut {
      v := Take(R, NoHoldSet, v, Sweep(Cut(0)));
    }
    if v.phase == AtExpire {
      v := Take(R, NoHoldSet, v, Sweep(Expire));
    }
  }

  /** The row has just started and nobody is connected. */
  lemma StartsUnseen(R: World -> bool, w: World) returns (v: World)
    requires Closed(R, NoHoldSet) && R(w) && w.t.hold.None?
    ensures R(v) && v.phase == w.phase && v.now == w.now && v.clock == w.clock
    ensures v.t == Timers(Up, false, None, w.clock, None, None, None)
  {
    v := Take(R, NoHoldSet, w, Power(StopOther));
    v := Take(R, NoHoldSet, v, Power(MoveToStarting));
    v := Take(R, NoHoldSet, v, Power(Started));
    v := Take(R, NoHoldSet, v, Connect(false));
  }

  /** A sweep at the moment the grace period since the stamp is over comes to its grace step. */
  lemma SweepGraceStops(R: World -> bool, w: World, grace: nat) returns (v: World)
    requires Closed(R, NoHoldSet) && R(w) && w.phase == Resting && w.t.power == Up && !w.t.connected && w.t.hold.None?
    requires grace > 0 && w.t.disconnectedAt == Some(w.clock - Seconds(grace))
    ensures R(v) && v.phase == AtGrace && v.now == w.clock && v.grace == grace && GraceStops(v.t, v.now, false)
  {
    v := NothingToSettle(R, NoHoldSet, w);
    v := Take(R, NoHoldSet, v, Sweep(StampAll));
    v := Take(R, NoHoldSet, v, Sweep(UnstampAll));
    v := Take(R, NoHoldSet, v, Sweep(Deadlines(grace)));
  }

  lemma EnoughSeconds(at: int, clock: int) returns (grace: nat)
    ensures grace > 0 && clock <= at + Seconds(grace)
  {
    grace := if clock > at then clock - at else 1;
    assert Seconds(grace) >= grace;
  }

  /** A sweep begun before u stamps the disconnection with its own time. */
  lemma OldStampStopsEarly(R: World -> bool, u: int, w: World) returns (v: World)
    requires Closed(R, NoHoldSet) && R(w) && StampAhead(w.phase) && w.now < u && w.t.hold.None?
    ensures R(v) && GraceStopsEarly(u, v)
  {
    var a := StartsUnseen(R, w);
    a := ComesToStamp(R, a);
    a := Take(R, NoHoldSet, a, Sweep(StampAll));
    a := Take(R, NoHoldSet, a, Abandon);
    var grace := EnoughSeconds(w.now, w.clock);
    a := Take(R, NoHoldSet, a, Tick(w.now + Seconds(grace) - a.clock));
    v := SweepGraceStops(R, a, grace);
  }

  lemma GraceIsCut(R: World -> bool, w: World) returns (v: World)
    requires Closed(R, NoHoldSet) && R(Next(w, Unhold)) && EndsHoldAt(w, Unhold).Some? && !GraceKept(w, Unhold)
    ensures R(v) && GraceStopsEarly(EndsHoldAt(w, Unhold).value, v)
  {
    if StampAhead(w.phase) && w.now < w.clock {
      v := OldStampStopsEarly(R, w.clock, Next(w, Unhold));
    } else {
      v := Take(R, NoHoldSet, Next(w, Unhold), Connect(false));
    }
  }

  /**
   When a hold has ended at u: every run from there, until another hold is set, leaves the grace
   period in full if and only if the end was the worker's, or the student's at no such moment.
   */
  lemma FullGraceIff(before: seq<World>, did: seq<Step>, ending: Step)
    requires History(before, did) && Init(before[0])
    requires var w := before[|did|]; Enabled(w, ending) && EndsHoldAt(w, ending).Some?
    ensures var w := before[|did|];
      var u := EndsHoldAt(w, ending).value;
      (forall v :: ReachedBy(Next(w, ending), NoHoldSet, v) ==> !GraceStopsEarly(u, v)) <==> GraceKept(w, ending)
  {
    var w := before[|did|];
    var u, x := EndsHoldAt(w, ending).value, Next(w, ending);
    HistoryKeepsInv(before, did, |did|);
    if GraceKept(w, ending) {
      EndStartsGrace(w, ending);
      forall v | ReachedBy(x, NoHoldSet, v) ensures !GraceStopsEarly(u, v) {
        var states: seq<World>, steps: seq<Step> :| Route(x, NoHoldSet, v, states, steps);
        StaysGrace(u, states, steps, |steps|);
      }
    } else {
      ReachedIsClosed(x, NoHoldSet);
      var v := GraceIsCut(y => ReachedBy(x, NoHoldSet, y), w);
    }
  }

  // ---- Reachable moments ----

  /** A write claimed just before a hold ends by time is still under way as it does. */
  lemma WriteCrossesTheEnd() returns (w: World)
    ensures Reached(w) && w.phase == AtExpire && EndsHoldAt(w, Sweep(Expire)) == Some(2) && 1 in w.landing && !IdleKept(2, w)
  {
    var R := StartReached(true);
    w := HoldEndsOverWrite(R);
  }

  lemma HoldEndsOverWrite(R: World -> bool) returns (w: World)
    requires Closed(R, AnyStep) && R(Fresh(true))
    ensures R(w) && w.phase == AtExpire && EndsHoldAt(w, Sweep(Expire)) == Some(2) && 1 in w.landing
  {
    w := Take(R, AnyStep, Fresh(true), Hold(2, 12));
    w := Take(R, AnyStep, w, Tick(1));
    w := Take(R, AnyStep, w, Claim);
    w := Take(R, AnyStep, w, Tick(1));
    w := SweepComesToExpiry(R, w);
  }

  lemma SweepComesToExpiry(R: World -> bool, v: World) returns (w: World)
    requires Closed(R, AnyStep) && R(v) && v.phase == Resting && v.clock == 2 && v.t.hold == Some(2) && 1 in v.landing
    ensures R(w) && w.phase == AtExpire && EndsHoldAt(w, Sweep(Expire)) == Some(2) && 1 in w.landing
  {
    w := Take(R, AnyStep, v, Begin);
    w := Take(R, AnyStep, w, Sweep(Off(12)));
    w := Take(R, AnyStep, w, Sweep(Cut(12)));
  }

  /** The student ends a hold half a second into a sweep: neither timer is sure of its full time. */
  lemma StudentEndsMidSweep() returns (w: World)
    ensures Reached(w) && w.phase == AtStamp && EndsHoldAt(w, Unhold) == Some(500) && !GraceKept(w, Unhold) && !IdleKept(500, w)
  {
    var R := StartReached(true);
    w := HeldMidSweep(R);
  }

  lemma HeldMidSweep(R: World -> bool) returns (w: World)
    requires Closed(R, AnyStep) && R(Fresh(true))
    ensures R(w) && w.phase == AtStamp && w.now == 0 && w.clock == 500 && w.t.hold == Some(7_200_000)
  {
    w := Take(R, AnyStep, Fresh(true), Hold(7_200_000, 12));
    w := Take(R, AnyStep, w, Begin);
    w := Take(R, AnyStep, w, Sweep(Off(12)));
    w := Take(R, AnyStep, w, Sweep(Cut(12)));
    w := Take(R, AnyStep, w, Sweep(Expire));
    w := Take(R, AnyStep, w, Tick(500));
  }

  /** The student sets a hold between a sweep's deadlines and its grace step and ends it there: the old deadline stands. */
  lemma StudentEndsLateHold() returns (w: World)
    ensures Reached(w) && w.phase == AtGrace && EndsHoldAt(w, Unhold) == Some(1000) && !GraceKept(w, Unhold)
  {
    var R := StartReached(false);
    w := HeldLate(R);
  }

  lemma HeldLate(R: World -> bool) returns (w: World)
    requires Closed(R, AnyStep) && R(Fresh(false))
    ensures R(w) && w.phase == AtGrace && EndsHoldAt(w, Unhold) == Some(1000) && !GraceKept(w, Unhold)
  {
    w := ComesDue(R);
    w := Take(R, AnyStep, w, Hold(7_200_000, 12));
  }
}
