/**
 Wrong second-factor codes: a try is counted in ten minutes first and, only if allowed there,
 in the day.  A try the day refuses gives its ten-minute count back.  Requests interleave
 between any two database statements.
 */
module SecondFactor {
  import opened Wrappers
  import opened StoredCounter

  const SHORT_RULE := Rule(10, 10 * 60_000)
  const DAILY_RULE := Rule(30, 24 * 60 * 60_000)

  /** How far one request has got; i and j are its tries on the two counts. */
  datatype Request =
    | Unanswered(i: nat) // a hit of its own was counted, and its reply lost
    | ShortRefused(i: nat)
    | Asking(i: nat)
    | DayRefused(i: nat, j: nat)
    | Returned(i: nat, j: nat)
    | Counted(i: nat, j: nat)
    | HalfBack(i: nat, j: nat)
    | Back(i: nat, j: nat)

  datatype System = System(short: World, daily: World, requests: seq<Request>)

  datatype Move =
    | Arrive(at: int, heard: bool)
    | AskDay(k: nat, at: int, heard: bool)
    | ReturnShort(k: nat, writeFails: bool)
    | GiveBackShort(k: nat, writeFails: bool)
    | GiveBackDaily(k: nat, writeFails: bool)
    | ReportShort(i: nat, heard: bool)
    | ReportDaily(i: nat, heard: bool)
    | PruneAll(at: int)

  function Next(s: System, m: Move): System {
    match m
    case Arrive(at, heard) =>
      var w := AfterHit(SHORT_RULE, s.short, at, heard);
      var i := |s.short.tries|;
      var r := if !heard then Unanswered(i) else if w.tries[i].allowed then Asking(i) else ShortRefused(i);
      s.(short := w, requests := s.requests + [r])
    case AskDay(k, at, heard) =>
      if k < |s.requests| && s.requests[k].Asking? then
        var w := AfterHit(DAILY_RULE, s.daily, at, heard);
        var i, j := s.requests[k].i, |s.daily.tries|;
        var r := if !heard then Unanswered(i) else if w.tries[j].allowed then Counted(i, j) else DayRefused(i, j);
        s.(daily := w, requests := s.requests[k := r])
      else s
    case ReturnShort(k, fails) =>
      if k < |s.requests| && s.requests[k].DayRefused? then
        var r := s.requests[k];
        s.(short := AfterGiveBack(s.short, r.i, fails), requests := s.requests[k := Returned(r.i, r.j)])
      else s
    case GiveBackShort(k, fails) =>
      if k < |s.requests| && s.requests[k].Counted? then
        var r := s.requests[k];
        s.(short := AfterGiveBack(s.short, r.i, fails), requests := s.requests[k := HalfBack(r.i, r.j)])
      else s
    case GiveBackDaily(k, fails) =>
      if k < |s.requests| && s.requests[k].HalfBack? then
        var r := s.requests[k];
        s.(daily := AfterGiveBack(s.daily, r.j, fails), requests := s.requests[k := Back(r.i, r.j)])
      else s
    case ReportShort(i, heard) => s.(short := AfterReport(s.short, i, heard))
    case ReportDaily(i, heard) => s.(daily := AfterReport(s.daily, i, heard))
    case PruneAll(at) => s.(short := AfterPrune(s.short, at), daily := AfterPrune(s.daily, at))
  }

  predicate Timely(s: System, m: Move) {
    match m
    case Arrive(at, _) => s.short.now <= at
    case AskDay(_, at, _) => s.daily.now <= at
    case PruneAll(at) => s.short.now <= at && s.daily.now <= at
    case _ => true
  }

  predicate GoodRun(s: System, ms: seq<Move>)
    decreases |ms|
  {
    ms == [] || (Timely(s, ms[0]) && GoodRun(Next(s, ms[0]), ms[1..]))
  }

  function Run(s: System, ms: seq<Move>): System
    decreases |ms|
  {
    if ms == [] then s else Run(Next(s, ms[0]), ms[1..])
  }

  function Fresh(now: int): System {
    System(StoredCounter.Fresh(now), StoredCounter.Fresh(now), [])
  }

  /** Each request owns the ten-minute try with its own number, and its stage fixes that try's receipt. */
  predicate Owns(s: System, k: nat)
    requires k < |s.requests|
  {
    var r := s.requests[k];
    && r.i == k && k < |s.short.tries|
    && (r.Asking? || r.DayRefused? || r.Counted? ==> s.short.tries[k].allowed && s.short.tries[k].status == Held)
    && (r.Returned? || r.HalfBack? || r.Back? ==> s.short.tries[k].allowed && s.short.tries[k].status != Held)
    && (r.ShortRefused? ==> !s.short.tries[k].allowed)
    && (r.DayRefused? || r.Returned? ==> r.j < |s.daily.tries| && !s.daily.tries[r.j].allowed)
    && (r.Counted? || r.HalfBack? || r.Back? ==> r.j < |s.daily.tries| && s.daily.tries[r.j].allowed)
  }

  ghost predicate Inv(s: System) {
    && StoredCounter.Inv(SHORT_RULE, s.short)
    && StoredCounter.Inv(DAILY_RULE, s.daily)
    && |s.requests| == |s.short.tries|
    && forall k :: 0 <= k < |s.requests| ==> Owns(s, k)
  }

  lemma MoveKeepsOwner(s: System, m: Move, q: nat)
    requires Inv(s) && q < |Next(s, m).requests|
    ensures |Next(s, m).requests| == |Next(s, m).short.tries| && Owns(Next(s, m), q)
  {
    if q < |s.requests| {
      assert Owns(s, q);
    }
    if (m.ReturnShort? || m.GiveBackShort?) && m.k < |s.requests| {
      assert Owns(s, m.k);
    }
  }

  lemma MoveKeepsInv(s: System, m: Move)
    requires Inv(s) && Timely(s, m)
    ensures Inv(Next(s, m))
  {
    var v := Next(s, m);
    forall q | 0 <= q < |v.requests| ensures Owns(v, q) {
      MoveKeepsOwner(s, m, q);
    }
    match m
    case Arrive(at, heard) => StepKeepsInv(SHORT_RULE, s.short, Hit(at, heard));
    case AskDay(k, at, heard) =>
      StepKeepsInv(DAILY_RULE, s.daily, Hit(at, heard));
    case ReturnShort(k, fails) =>
      if k < |s.requests| { StepKeepsInv(SHORT_RULE, s.short, GiveBack(s.requests[k].i, fails)); }
    case GiveBackShort(k, fails) =>
      if k < |s.requests| { StepKeepsInv(SHORT_RULE, s.short, GiveBack(s.requests[k].i, fails)); }
    case GiveBackDaily(k, fails) =>
      if k < |s.requests| && s.requests[k].HalfBack? {
        StepKeepsInv(DAILY_RULE, s.daily, GiveBack(s.requests[k].j, fails));
      }
    case ReportShort(i, heard) => StepKeepsInv(SHORT_RULE, s.short, Report(i, heard));
    case ReportDaily(i, heard) => StepKeepsInv(DAILY_RULE, s.daily, Report(i, heard));
    case PruneAll(at) =>
      StepKeepsInv(SHORT_RULE, s.short, Prune(at));
      StepKeepsInv(DAILY_RULE, s.daily, Prune(at));
  }

  lemma {:induction false} RunKeepsInv(s: System, ms: seq<Move>)
    requires Inv(s) && GoodRun(s, ms)
    ensures Inv(Run(s, ms))
    decreases |ms|
  {
    if ms != [] {
      MoveKeepsInv(s, ms[0]);
      RunKeepsInv(Next(s, ms[0]), ms[1..]);
    }
  }

  /** The live ten-minute window's tries, without try k. */
  function Others(tries: seq<Try>, k: nat): seq<Try>
    requires k < |tries|
  {
    tries[..k] + tries[k + 1..]
  }

  lemma {:induction false} UnreturnedConcat(a: seq<Try>, b: seq<Try>, start: int)
    ensures Unreturned(a + b, start) == Unreturned(a, start) + Unreturned(b, start)
    decreases |b|
  {
    if b == [] {
      assert a + b == a;
    } else {
      assert (a + b)[..|a + b| - 1] == a + b[..|b| - 1];
      UnreturnedConcat(a, b[..|b| - 1], start);
    }
  }

  lemma WithoutReturned(t: seq<Try>, k: nat, start: int)
    requires k < |t| && t[k].status == GivenBack
    ensures Unreturned(Others(t, k), start) == Unreturned(t, start)
  {
    var one := [t[k]];
    assert t == t[..k] + (one + t[k + 1..]);
    UnreturnedConcat(t[..k], one + t[k + 1..], start);
    UnreturnedConcat(one, t[k + 1..], start);
    UnreturnedConcat(t[..k], t[k + 1..], start);
    assert one[..0] == [];
  }

  /**
   Under any interleaving, once a try the day refused has been handled and its write did not
   fail, then while its ten-minute window lasts the count is what the other tries alone make it.
   */
  lemma DayRefusalCostsNothing(now: int, ms: seq<Move>, k: nat)
    requires GoodRun(Fresh(now), ms)
    requires var s := Run(Fresh(now), ms);
      && k < |s.requests| && s.requests[k].Returned?
      && k < |s.short.tries| && s.short.tries[k].status != Lost
      && s.short.row.Some? && s.short.row.value.start == s.short.tries[k].start
    ensures var s := Run(Fresh(now), ms);
      && s.short.tries[k].status == GivenBack
      && s.short.row.value.count == Unreturned(Others(s.short.tries, k), s.short.row.value.start)
  {
    RunKeepsInv(Fresh(now), ms);
    var s := Run(Fresh(now), ms);
    assert Owns(s, k);
    WithoutReturned(s.short.tries, k, s.short.row.value.start);
  }

  /** A request goes on to its check only within both limits: ten unreturned in ten minutes, thirty in a day. */
  lemma BothLimitsHold(now: int, ms: seq<Move>, start: int)
    requires GoodRun(Fresh(now), ms)
    ensures HeldIn(Run(Fresh(now), ms).short.tries, start) <= 10
    ensures HeldIn(Run(Fresh(now), ms).daily.tries, start) <= 30
  {
    RunKeepsInv(Fresh(now), ms);
  }

  /** The ten minutes and the day, in milliseconds, and the tries that weigh on each. */
  function InTenMinutes(s: System, at: int): nat {
    if s.short.row.Some? && at < s.short.row.value.start + 600_000 then Unreturned(s.short.tries, s.short.row.value.start) else 0
  }

  function InDay(s: System, at: int): nat {
    if s.daily.row.Some? && at < s.daily.row.value.start + 86_400_000 then Unreturned(s.daily.tries, s.daily.row.value.start) else 0
  }

  /** A try whose reply is heard goes on to the day exactly when fewer than ten weigh on its ten minutes. */
  lemma GoesOnIff(now: int, ms: seq<Move>, at: int)
    requires GoodRun(Fresh(now), ms) && Timely(Run(Fresh(now), ms), Arrive(at, true))
    ensures var s := Run(Fresh(now), ms);
      var i := |s.requests|;
      Next(s, Arrive(at, true)).requests == s.requests + [if InTenMinutes(s, at) < 10 then Asking(i) else ShortRefused(i)]
    ensures Next(Run(Fresh(now), ms), Arrive(at, true)).daily == Run(Fresh(now), ms).daily
  {
    RunKeepsInv(Fresh(now), ms);
    HitIsAllowedIff(SHORT_RULE, Run(Fresh(now), ms).short, at, true);
  }

  /** And it is allowed its check exactly when fewer than thirty weigh on its day. */
  lemma AllowedItsCheckIff(now: int, ms: seq<Move>, k: nat, at: int)
    requires GoodRun(Fresh(now), ms) && Timely(Run(Fresh(now), ms), AskDay(k, at, true))
    requires k < |Run(Fresh(now), ms).requests| && Run(Fresh(now), ms).requests[k].Asking?
    ensures var s := Run(Fresh(now), ms);
      var v := Next(s, AskDay(k, at, true));
      && v.requests == s.requests[k := if InDay(s, at) < 30 then Counted(k, |s.daily.tries|) else DayRefused(k, |s.daily.tries|)]
      && v.short == s.short && |v.daily.tries| == |s.daily.tries| + 1
  {
    RunKeepsInv(Fresh(now), ms);
    assert Owns(Run(Fresh(now), ms), k);
    HitIsAllowedIff(DAILY_RULE, Run(Fresh(now), ms).daily, at, true);
  }

  predicate HasDay(r: Request) {
    r.DayRefused? || r.Returned? || r.Counted? || r.HalfBack? || r.Back?
  }

  /** A request that has asked for the day has a try there, whose receipt it holds until it gives it back. */
  predicate OwnsDay(s: System, k: nat)
    requires k < |s.requests|
  {
    var r := s.requests[k];
    && (HasDay(r) ==> r.j < |s.daily.tries|)
    && (r.Counted? || r.HalfBack? ==> s.daily.tries[r.j].status == Held && s.daily.tries[r.j].allowed)
  }

  /** No two requests have the same one. */
  predicate Apart(s: System, k: nat, l: nat)
    requires k < |s.requests| && l < |s.requests|
  {
    k != l && HasDay(s.requests[k]) && HasDay(s.requests[l]) ==> s.requests[k].j != s.requests[l].j
  }

  predicate DayOwned(s: System) {
    && (forall k :: 0 <= k < |s.requests| ==> OwnsDay(s, k))
    && (forall k, l :: 0 <= k < |s.requests| && 0 <= l < |s.requests| ==> Apart(s, k, l))
  }

  lemma MoveKeepsOwnDay(s: System, m: Move, k: nat)
    requires DayOwned(s) && k < |Next(s, m).requests|
    ensures OwnsDay(Next(s, m), k)
  {
    if k < |s.requests| {
      assert OwnsDay(s, k);
      if m.GiveBackDaily? && m.k < |s.requests| {
        assert Apart(s, k, m.k);
      }
    }
  }

  lemma MoveKeepsApart(s: System, m: Move, k: nat, l: nat)
    requires DayOwned(s) && k < |Next(s, m).requests| && l < |Next(s, m).requests|
    ensures Apart(Next(s, m), k, l)
  {
    if k < |s.requests| && l < |s.requests| {
      assert OwnsDay(s, k) && OwnsDay(s, l) && Apart(s, k, l);
    }
  }

  lemma MoveKeepsDay(s: System, m: Move)
    requires DayOwned(s)
    ensures DayOwned(Next(s, m))
  {
    var v := Next(s, m);
    forall k | 0 <= k < |v.requests| ensures OwnsDay(v, k) {
      MoveKeepsOwnDay(s, m, k);
    }
    forall k, l | 0 <= k < |v.requests| && 0 <= l < |v.requests| ensures Apart(v, k, l) {
      MoveKeepsApart(s, m, k, l);
    }
  }

  lemma {:induction false} RunKeepsDay(s: System, ms: seq<Move>)
    requires DayOwned(s)
    ensures DayOwned(Run(s, ms))
    decreases |ms|
  {
    if ms != [] {
      MoveKeepsDay(s, ms[0]);
      RunKeepsDay(Next(s, ms[0]), ms[1..]);
    }
  }

  /** A right code gives both counts one back, while their windows last; a give-back after that finds the request done with. */
  lemma RightCodeGivesBoth(now: int, ms: seq<Move>, k: nat)
    requires GoodRun(Fresh(now), ms)
    requires var s := Run(Fresh(now), ms);
      && k < |s.requests| && s.requests[k].Counted?
      && k < |s.short.tries| && s.short.row.Some? && s.short.row.value.start == s.short.tries[k].start
      && s.requests[k].j < |s.daily.tries| && s.daily.row.Some? && s.daily.row.value.start == s.daily.tries[s.requests[k].j].start
    ensures var s := Run(Fresh(now), ms);
      var v := Next(Next(s, GiveBackShort(k, false)), GiveBackDaily(k, false));
      && v.short.row == Some(s.short.row.value.(count := s.short.row.value.count - 1))
      && v.daily.row == Some(s.daily.row.value.(count := s.daily.row.value.count - 1))
      && Next(v, GiveBackShort(k, false)) == v && Next(v, GiveBackDaily(k, false)) == v
  {
    RunKeepsInv(Fresh(now), ms);
    var s := Run(Fresh(now), ms);
    assert Owns(s, k);
    RunKeepsDay(Fresh(now), ms);
    assert OwnsDay(s, k);
    TallyPositive(s.short.tries, k);
    TallyPositive(s.daily.tries, s.requests[k].j);
  }

  /** A report is one on its own count, and a prune one on both. */
  lemma ReportsAndPrunes(s: System, i: nat, heard: bool, at: int)
    ensures Next(s, ReportShort(i, heard)) == s.(short := StoredCounter.Next(SHORT_RULE, s.short, Report(i, heard)))
    ensures Next(s, ReportDaily(i, heard)) == s.(daily := StoredCounter.Next(DAILY_RULE, s.daily, Report(i, heard)))
    ensures var v := Next(s, PruneAll(at));
      && v.requests == s.requests
      && (v.short.row.Some? <==> s.short.row.Some? && at < s.short.row.value.expires)
      && (v.daily.row.Some? <==> s.daily.row.Some? && at < s.daily.row.value.expires)
  {
  }

  /* ---------- The counts themselves ---------- */

  function LiveCount(rows: map<string, Row>, key: string, at: int): int {
    if key in rows && rows[key].expires > at then rows[key].count else 0
  }

  datatype Verdict = Verdict(allowed: bool, audit: bool, daily: bool)

  class SecondFactorCounts {
    const short: Counter
    const daily: Counter

    constructor ()
      ensures fresh(short) && fresh(daily) && short != daily
      ensures short.rule == SHORT_RULE && daily.rule == DAILY_RULE && short.rows == map[] && daily.rows == map[]
    {
      short := new Counter("second-factor", SHORT_RULE);
      daily := new Counter("second-factor-daily", DAILY_RULE);
    }

    ghost predicate Valid()
      reads this, short, daily
    {
      && short != daily && short.rule == SHORT_RULE && daily.rule == DAILY_RULE
      && (forall k :: k in short.rows ==> short.rows[k].count >= 0)
    }

    /** Count one try before it is checked. A day that refuses it leaves the ten-minute count as it was. */
    method Attempt(user: string, at: int, dayAt: int, writeFails: bool)
      returns (verdict: Verdict, shortReceipt: Receipt?, dailyReceipt: Receipt?)
      requires Valid() && at <= dayAt
      modifies short, daily
      ensures Valid()
      ensures verdict.allowed <==> shortReceipt != null && dailyReceipt != null
      ensures verdict.allowed ==>
        LiveCount(short.rows, user, at) == LiveCount(old(short.rows), user, at) + 1 <= SHORT_RULE.limit
        && LiveCount(daily.rows, user, dayAt) == LiveCount(old(daily.rows), user, dayAt) + 1 <= DAILY_RULE.limit
      ensures verdict.daily && !writeFails ==> LiveCount(short.rows, user, at) == LiveCount(old(short.rows), user, at)
      ensures !verdict.allowed && !verdict.daily ==> daily.rows == old(daily.rows)
      ensures forall k :: k != user ==> LiveCount(short.rows, k, at) == LiveCount(old(short.rows), k, at)
    {
      var d, receipt := short.Attempt(user, at);
      if receipt == null {
        return Verdict(false, d.audit, false), null, null;
      }
      var day, dayReceipt := daily.Attempt(user, dayAt);
      if dayReceipt == null {
        short.GiveBackReceipt(receipt, writeFails);
        return Verdict(false, day.audit, true), null, null;
      }
      return Verdict(true, false, false), receipt, dayReceipt;
    }
  }
}
