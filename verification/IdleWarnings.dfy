/**
 The "Still working?" warning and the answers to it: every idle stop was warned, and exactly
 when an answer can be swallowed by the once-a-minute throttle.
 */
module IdleWarnings {
  import opened Wrappers
  import opened KeepRunning

  // ---- Warnings ----

  /** The step writes a warning. */
  predicate Writes(w: World, s: Step) {
    s.Sweep? && s.does.WarnAll? && w.phase == AtWarn && Warns(w.t, w.now, s.does.idle)
  }

  /** The warning written at step i has stood unchanged up to state k. */
  predicate StoodSince(states: seq<World>, steps: seq<Step>, i: nat, k: nat)
    requires |states| == |steps| + 1
  {
    && i < k < |states| && Writes(states[i], steps[i])
    && forall j :: i < j <= k ==> states[j].t.idleStopAt == Some(states[i].now + IDLE_WARNING)
  }

  /** A standing warning is kept or cleared, never moved; only the warning statement writes one. */
  lemma WarningMoves(w: World, s: Step)
    requires Enabled(w, s) && Next(w, s).t.idleStopAt.Some?
    ensures Next(w, s).t.idleStopAt == w.t.idleStopAt
      || (w.t.idleStopAt.None? && Writes(w, s) && Next(w, s).t.idleStopAt == Some(w.now + IDLE_WARNING))
  {
  }

  lemma {:induction false} WarningStands(states: seq<World>, steps: seq<Step>, k: nat) returns (i: nat)
    requires History(states, steps) && Init(states[0]) && k <= |steps| && states[k].t.idleStopAt.Some?
    ensures StoodSince(states, steps, i, k)
    decreases k
  {
    WarningMoves(states[k - 1], steps[k - 1]);
    if states[k - 1].t.idleStopAt.Some? {
      i := WarningStands(states, steps, k - 1);
    } else {
      i := k - 1;
    }
  }

  /**
   Whatever the idle step stops was warned at least five minutes before, by a warning that
   nothing withdrew or answered since, and had then been idle for the whole idle time.
   */
  lemma IdleStopWasWarned(states: seq<World>, steps: seq<Step>, k: nat, inFlight: bool) returns (i: nat)
    requires History(states, steps) && Init(states[0]) && k <= |steps| && IdleStops(states[k].t, states[k].now, inFlight)
    ensures StoodSince(states, steps, i, k)
    ensures states[i].now + IDLE_WARNING <= states[k].now
    ensures states[i].t.lastActivity + Minutes(steps[i].does.idle) <= states[i].now
  {
    i := WarningStands(states, steps, k);
  }

  // ---- Answers ----

  /** The throttle's last claim, when its write is not under way any more. */
  predicate Landed(w: World) {
    w.claimed.Some? && w.claimed.value !in w.landing
  }

  /** Activity now would be swallowed by a claim whose write is over. */
  predicate SwallowsAnswer(w: World) {
    Landed(w) && Swallowed(w.claimed, w.clock)
  }

  predicate SameWarning(w: World, v: World) {
    v.t.idleStopAt == w.t.idleStopAt
  }

  /** While a warning stands no write lands; a write that ends has failed and gives its claim up. */
  lemma StandingKeepsClaim(x: World, w: World, s: Step)
    requires Enabled(w, s) && w.t.idleStopAt.Some? && SameWarning(w, Next(w, s)) && (Landed(w) ==> w.claimed == x.claimed && Landed(x))
    ensures Landed(Next(w, s)) ==> Next(w, s).claimed == x.claimed && Landed(x)
    ensures w.clock <= Next(w, s).clock
  {
  }

  lemma {:induction false} StandsOnClaim(states: seq<World>, steps: seq<Step>, k: nat)
    requires History(states, steps) && k <= |steps| && states[0].t.idleStopAt.Some?
    requires forall j :: 0 <= j < |states| ==> SameWarning(states[0], states[j])
    ensures (Landed(states[k]) ==> states[k].claimed == states[0].claimed && Landed(states[0])) && states[0].clock <= states[k].clock
    decreases k
  {
    if k > 0 {
      StandsOnClaim(states, steps, k - 1);
      assert SameWarning(states[0], states[k - 1]) && SameWarning(states[0], states[k]);
      StandingKeepsClaim(states[0], states[k - 1], steps[k - 1]);
    }
  }

  /** Some answer to the warning that stands in x can be swallowed although no write for it is under way. */
  ghost predicate CanSwallow(x: World) {
    exists states: seq<World>, steps: seq<Step> ::
      History(states, steps) && states[0] == x && (forall j :: 0 <= j < |states| ==> SameWarning(x, states[j]))
      && SwallowsAnswer(states[|steps|])
  }

  /**
   For every warning of every run: an answer to it can be swallowed, with its write over, if and
   only if the last claim's write had landed and was less than a minute old as the warning was written.
   */
  lemma AnswerSwallowedIff(w: World, s: Step)
    requires Writes(w, s)
    ensures CanSwallow(Next(w, s)) <==> Landed(w) && w.clock < w.claimed.value + WRITE_INTERVAL
  {
    var x := Next(w, s);
    if CanSwallow(x) {
      var states: seq<World>, steps: seq<Step> :|
        History(states, steps) && states[0] == x && (forall j :: 0 <= j < |states| ==> SameWarning(x, states[j]))
        && SwallowsAnswer(states[|steps|]);
      StandsOnClaim(states, steps, |steps|);
    }
    if SwallowsAnswer(x) {
      var none: seq<Step> := [];
      assert History([x], none) && [x][0] == x && SwallowsAnswer([x][|none|]);
    }
  }

  /** Put to a run: an answer swallowed in state k means its warning was written too early. */
  lemma SwallowedSinceWarning(states: seq<World>, steps: seq<Step>, i: nat, k: nat)
    requires History(states, steps) && k <= |steps| && StoodSince(states, steps, i, k) && SwallowsAnswer(states[k])
    ensures Landed(states[i]) && states[i].claimed == states[k].claimed && states[i].clock < states[i].claimed.value + WRITE_INTERVAL
  {
    var later, did := states[i + 1..k + 1], steps[i + 1..k];
    forall j | 0 <= j < |did| ensures Enabled(later[j], did[j]) && later[j + 1] == Next(later[j], did[j]) {
      assert later[j] == states[i + 1 + j] && later[j + 1] == states[i + 2 + j] && did[j] == steps[i + 1 + j];
    }
    StandsOnClaim(later, did, |did|);
  }

  /**
   So a warning written when the record of activity is no older than the last claim that landed
   never has an answer swallowed: the idle time that had passed since is a minute or more.
   */
  lemma AnswerIsNotSwallowed(states: seq<World>, steps: seq<Step>, i: nat, k: nat)
    requires History(states, steps) && Init(states[0]) && k <= |steps| && StoodSince(states, steps, i, k)
    requires Landed(states[i]) ==> states[i].claimed.value <= states[i].t.lastActivity
    ensures !SwallowsAnswer(states[k])
  {
    if SwallowsAnswer(states[k]) {
      SwallowedSinceWarning(states, steps, i, k);
      HistoryKeepsInv(states, steps, i);
    }
  }

  /** The step moves the recorded activity back in time. */
  predicate Backdates(w: World, s: Step) {
    Next(w, s).t.lastActivity < w.t.lastActivity
  }

  lemma StatementBackdates(w: World, s: Statement)
    requires Inv(w) && w.phase == PhaseOf(s)
    ensures Made(w, s).t.lastActivity < w.t.lastActivity
      <==> (s == Off(0) && w.t.hold.Some? && w.t.hold.value > w.now && w.now < w.t.lastActivity)
  {
  }

  /** The steps that can: a cap of 0 settled by a sweep begun earlier, a late write, a row found running. */
  lemma BackdatesOnlyWhen(w: World, s: Step)
    requires Inv(w) && Enabled(w, s)
    ensures Backdates(w, s) <==>
      || (s == Sweep(Off(0)) && w.t.hold.Some? && w.t.hold.value > w.now && w.now < w.t.lastActivity)
      || (s.Land? && s.at < w.t.lastActivity)
      || (s == Power(FoundRunning) && w.now < w.t.lastActivity)
  {
    if s.Sweep? {
      StatementBackdates(w, s.does);
    }
  }

  /** While no step has moved the record back, it is no older than the last claim that landed. */
  lemma {:induction false} RecordKeepsUp(states: seq<World>, steps: seq<Step>, k: nat)
    requires History(states, steps) && Init(states[0]) && k <= |steps|
    requires forall j :: 0 <= j < k ==> !Backdates(states[j], steps[j])
    ensures Landed(states[k]) ==> states[k].claimed.value <= states[k].t.lastActivity
    decreases k
  {
    if k > 0 {
      RecordKeepsUp(states, steps, k - 1);
      ClaimIsRecorded(states[k - 1], steps[k - 1]);
    }
  }

  lemma ClaimIsRecorded(w: World, s: Step)
    requires Enabled(w, s) && !Backdates(w, s) && (Landed(w) ==> w.claimed.value <= w.t.lastActivity)
    ensures Landed(Next(w, s)) ==> Next(w, s).claimed.value <= Next(w, s).t.lastActivity
  {
  }

  // ---- Answers under a write that fails ----

  /** One write fewer with this time is under way. */
  predicate Ends(w: World, v: World, at: int) {
    v.landing[at] < w.landing[at]
  }

  /** A swallowed answer stands or falls with the write it was left to: the warning outlives that write exactly when it fails. */
  lemma LostIffWriteFails(w: World, s: Step, at: int)
    requires Enabled(w, s) && w.t.idleStopAt.Some? && Ends(w, Next(w, s), at)
    ensures s == Fail(at) || s == Land(at)
    ensures SameWarning(w, Next(w, s)) <==> s == Fail(at)
    ensures s == Land(at) ==> Next(w, s).t.idleStopAt.None? && Next(w, s).t.lastActivity == at
    ensures s == Fail(at) ==> Next(w, s).claimed.None?
  {
  }

  lemma StandingEnds(w: World, v: World, s: Step, x: World, at: int)
    requires Enabled(w, s) && v == Next(w, s) && x.t.idleStopAt.Some? && SameWarning(x, w) && SameWarning(x, v)
    ensures Ends(w, v, at) ==> s == Fail(at)
  {
    if Ends(w, v, at) {
      LostIffWriteFails(w, s, at);
    }
  }

  /** Over a run: an answer given in state n under a write that is over in state k, with the warning still standing, was lost to that write's failure. */
  lemma {:induction false} LostToAFailure(states: seq<World>, steps: seq<Step>, n: nat, k: nat, at: int) returns (m: nat)
    requires History(states, steps) && n <= k <= |steps| && Ends(states[n], states[k], at) && states[n].t.idleStopAt.Some?
    requires forall j :: n <= j <= k ==> SameWarning(states[n], states[j])
    ensures n <= m < k && steps[m] == Fail(at)
    decreases k
  {
    StandingEnds(states[k - 1], states[k], steps[k - 1], states[n], at);
    if Ends(states[k - 1], states[k], at) {
      m := k - 1;
    } else {
      m := LostToAFailure(states, steps, n, k - 1, at);
    }
  }

  /** Nothing further is heard of the student. */
  predicate Unheard(w: World, s: Step) {
    s.Tick? || s.Fail? || s == Begin || s.Sweep? || s == Abandon
  }

  /** A row warned a minute after 0, the answer to it claimed at once and its write under way. */
  predicate JustAnswered(w: World) {
    && w.phase == Resting && w.clock == 60_000 && w.claimed == Some(60_000) && w.landing == multiset{60_000}
    && w.t == Timers(Up, true, None, 0, Some(360_000), None, None)
  }

  lemma ComesToAnswer() returns (w: World)
    ensures Reached(w) && JustAnswered(w)
  {
    var R := StartReached(true);
    w := AnsweredOnce(R);
  }

  /**
   The student answers a warning twice within the minute.  The second answer is left to the first
   one's write, that write fails, and the same warning stops the workspace.
   */
  lemma AnswerLostToFailedWrite() returns (w: World, v: World)
    ensures Reached(w) && w.t.idleStopAt.Some? && Swallowed(w.claimed, w.clock) && Next(w, Claim) == w && w.claimed.value in w.landing
    ensures ReachedBy(w, Unheard, v) && SameWarning(w, v) && v.phase == AtIdle && IdleStops(v.t, v.now, false)
  {
    w := ComesToAnswer();
    v := GoesUnheard(w);
  }

  lemma GoesUnheard(w: World) returns (v: World)
    requires w.phase == Resting && w.clock == 60_000 && w.landing == multiset{60_000}
    requires w.t == Timers(Up, true, None, 0, Some(360_000), None, None)
    ensures ReachedBy(w, Unheard, v) && SameWarning(w, v) && v.phase == AtIdle && IdleStops(v.t, v.now, false)
  {
    ReachedIsClosed(w, Unheard);
    v := StoppedUnheard(x => ReachedBy(w, Unheard, x), w);
  }

  lemma SweepOfConnected(R: World -> bool, allowed: (World, Step) -> bool, w: World) returns (v: World)
    requires Closed(R, allowed) && R(w) && w.phase == Resting
    requires forall x, s: Step :: s == Begin || s.Sweep? ==> allowed(x, s)
    requires w.t.connected && w.t.power == Up && w.t.hold.None? && w.t.disconnectedAt.None? && w.t.deadline.None?
    ensures R(v) && v == w.(phase := AtWithdraw, now := w.clock, grace := 0)
  {
    v := NothingToSettle(R, allowed, w);
    v := Take(R, allowed, v, Sweep(StampAll));
    v := Take(R, allowed, v, Sweep(UnstampAll));
    v := Take(R, allowed, v, Sweep(Deadlines(0)));
    v := Take(R, allowed, v, Sweep(GraceStop(false)));
  }

  /** A minute after 0 the row is warned and the student answers, at once. */
  lemma AnsweredOnce(R: World -> bool) returns (w: World)
    requires Closed(R, AnyStep) && R(Fresh(true))
    ensures R(w) && w.phase == Resting && w.clock == 60_000 && w.idle == 1 && w.claimed == Some(60_000) && w.landing == multiset{60_000}
    ensures w.t == Timers(Up, true, None, 0, Some(360_000), None, None)
  {
    w := Take(R, AnyStep, Fresh(true), Tick(60_000));
    w := SweepOfConnected(R, AnyStep, w);
    w := Take(R, AnyStep, w, Sweep(WithdrawAll(1)));
    w := Take(R, AnyStep, w, Sweep(WarnAll(1)));
    w := Take(R, AnyStep, w, Abandon);
    w := Take(R, AnyStep, w, Claim);
  }

  lemma StoppedUnheard(R: World -> bool, w: World) returns (v: World)
    requires Closed(R, Unheard) && R(w) && w.phase == Resting && w.clock == 60_000 && w.landing == multiset{60_000}
    requires w.t == Timers(Up, true, None, 0, Some(360_000), None, None)
    ensures R(v) && SameWarning(w, v) && v.phase == AtIdle && IdleStops(v.t, v.now, false)
  {
    v := Take(R, Unheard, w, Fail(60_000));
    v := Take(R, Unheard, v, Tick(300_000));
    v := SweepOfConnected(R, Unheard, v);
    v := Take(R, Unheard, v, Sweep(WithdrawAll(1)));
    v := Take(R, Unheard, v, Sweep(WarnAll(1)));
  }

  // ---- An answer swallowed after its write had landed ----

  /** Half a minute after a write that landed, with the activity recorded half a minute before it. */
  lemma ComesBackdated(R: World -> bool) returns (w: World)
    requires Closed(R, AnyStep) && R(Fresh(true))
    ensures R(w) && w.phase == Resting && w.clock == 60_000 && w.claimed == Some(30_000) && w.landing == multiset{}
    ensures w.t == Timers(Up, true, None, 0, None, None, None)
  {
    w := Take(R, AnyStep, Fresh(true), Hold(7_200_000, 12));
    w := Take(R, AnyStep, w, Begin);
    w := Take(R, AnyStep, w, Tick(30_000));
    w := Take(R, AnyStep, w, Claim);
    w := IsBackdated(R, w);
  }

  lemma IsBackdated(R: World -> bool, v: World) returns (w: World)
    requires Closed(R, AnyStep) && R(v) && v.phase == AtOff && v.clock == 30_000 && v.now == 0 && v.claimed == Some(30_000)
    requires v.landing == multiset{30_000} && v.t == Timers(Up, true, Some(7_200_000), 0, None, None, None)
    ensures R(w) && w.phase == Resting && w.clock == 60_000 && w.claimed == Some(30_000) && w.landing == multiset{}
    ensures w.t == Timers(Up, true, None, 0, None, None, None)
  {
    w := Take(R, AnyStep, v, Land(30_000));
    w := Take(R, AnyStep, w, Sweep(Off(0)));
    w := Take(R, AnyStep, w, Abandon);
    w := Take(R, AnyStep, w, Tick(30_000));
  }

  lemma WarnedEarly(R: World -> bool) returns (v: World)
    requires Closed(R, AnyStep) && R(Fresh(true))
    ensures R(v) && v.t.idleStopAt.Some? && v.landing == multiset{} && Swallowed(v.claimed, v.clock) && Next(v, Claim) == v
  {
    v := ComesBackdated(R);
    v := SweepOfConnected(R, AnyStep, v);
    v := Take(R, AnyStep, v, Sweep(WithdrawAll(1)));
    v := Take(R, AnyStep, v, Sweep(WarnAll(1)));
  }

  /**
   A sweep begun before an activity write ends a hold because the cap became 0, and so moves
   the recorded activity back.  The next warning then comes early enough that the answer to it
   is swallowed, although the write that swallows it landed long ago.
   */
  lemma BackdatedAnswerIsSwallowed() returns (v: World)
    ensures Reached(v) && v.t.idleStopAt.Some? && v.landing == multiset{} && Swallowed(v.claimed, v.clock) && Next(v, Claim) == v
  {
    var R := StartReached(true);
    v := WarnedEarly(R);
  }
}
