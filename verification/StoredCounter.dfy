/**
 The stored sign-in counter: one row per key, one atomic upsert per try, one receipt per
 allowed try.  A World is one key's row together with the history of its tries; every
 database statement is one Step, so any interleaving of requests is some sequence of Steps.
 */
module StoredCounter {
  import opened Wrappers

  datatype Row = Row(start: int, expires: int, count: int, reported: bool)

  /** A counter's limit and window length. */
  datatype Rule = Rule(limit: nat, window: int)

  ghost predicate Sound(rule: Rule) {
    rule.window > 0
  }

  /** The upsert: every column reads the old row, so all agree on whether its window had ended. */
  function Upsert(rule: Rule, row: Option<Row>, at: int): Row {
    if row.None? || row.value.expires <= at then Row(at, at + rule.window, 1, false)
    else row.value.(count := row.value.count + 1)
  }

  /** What became of an allowed try's receipt: unspent, returned, its write failed, or its window was gone. */
  datatype Status = Held | GivenBack | Lost | Late

  /** One counted try: the window it fell in, when, whether it asked and was allowed, and its receipt. */
  datatype Try = Try(start: int, at: int, asked: bool, allowed: bool, told: bool, status: Status)

  datatype World = World(row: Option<Row>, tries: seq<Try>, audits: seq<int>, now: int)

  /**
   A statement may commit while its reply is lost.  A hit then counts with no receipt, as one that
   did not ask does; a give-back is the one that succeeds, since the receipt is spent either way;
   and a report marks the row while its caller is not told.
   */
  datatype Step =
    | Hit(at: int, asked: bool)
    | Report(try_: nat, heard: bool)
    | GiveBack(try_: nat, writeFails: bool)
    | Prune(at: int)

  function AfterHit(rule: Rule, w: World, at: int, asked: bool): World {
    var row := Upsert(rule, w.row, at);
    var allowed := asked && row.count <= rule.limit;
    w.(row := Some(row), now := at, tries := w.tries + [Try(row.start, at, asked, allowed, false, Held)])
  }

  /** A refused try asks to be the one that reports its window, once. */
  function AfterReport(w: World, i: nat, heard: bool): World {
    if i < |w.tries| && w.tries[i].asked && !w.tries[i].allowed && !w.tries[i].told then
      var told := w.(tries := w.tries[i := w.tries[i].(told := true)]);
      if w.row.Some? && w.row.value.start == w.tries[i].start && !w.row.value.reported
      then told.(row := Some(w.row.value.(reported := true)), audits := w.audits + if heard then [w.tries[i].start] else [])
      else told
    else w
  }

  /** The receipt is spent first; then the row is decremented while it is still that window's. */
  function AfterGiveBack(w: World, i: nat, writeFails: bool): World {
    if i < |w.tries| && w.tries[i].allowed && w.tries[i].status == Held then
      var t := w.tries[i];
      if writeFails then w.(tries := w.tries[i := t.(status := Lost)])
      else if w.row.Some? && w.row.value.start == t.start && w.row.value.count > 0
      then w.(row := Some(w.row.value.(count := w.row.value.count - 1)), tries := w.tries[i := t.(status := GivenBack)])
      else w.(tries := w.tries[i := t.(status := Late)])
    else w
  }

  function AfterPrune(w: World, at: int): World {
    w.(now := at, row := if w.row.Some? && w.row.value.expires <= at then None else w.row)
  }

  function Next(rule: Rule, w: World, s: Step): World {
    match s
    case Hit(at, asked) => AfterHit(rule, w, at, asked)
    case Report(i, heard) => AfterReport(w, i, heard)
    case GiveBack(i, fails) => AfterGiveBack(w, i, fails)
    case Prune(at) => AfterPrune(w, at)
  }

  /** The clock never runs back between statements that read it. */
  predicate Monotone(w: World, s: Step) {
    match s
    case Hit(at, _) => w.now <= at
    case Prune(at) => w.now <= at
    case _ => true
  }

  predicate GoodRun(rule: Rule, w: World, ss: seq<Step>)
    decreases |ss|
  {
    ss == [] || (Monotone(w, ss[0]) && GoodRun(rule, Next(rule, w, ss[0]), ss[1..]))
  }

  function Run(rule: Rule, w: World, ss: seq<Step>): World
    decreases |ss|
  {
    if ss == [] then w else Run(rule, Next(rule, w, ss[0]), ss[1..])
  }

  function Fresh(now: int): World {
    World(None, [], [], now)
  }

  /* ---------- Tallies ---------- */

  /** Tries of window `start` that still weigh on its count. */
  function Unreturned(tries: seq<Try>, start: int): nat
    decreases |tries|
  {
    if tries == [] then 0
    else Unreturned(tries[..|tries| - 1], start)
         + (var t := tries[|tries| - 1]; if t.start == start && t.status != GivenBack then 1 else 0)
  }

  /** Allowed tries of window `start` whose receipt has not been spent. */
  function HeldIn(tries: seq<Try>, start: int): nat
    decreases |tries|
  {
    if tries == [] then 0
    else HeldIn(tries[..|tries| - 1], start)
         + (var t := tries[|tries| - 1]; if t.start == start && t.allowed && t.status == Held then 1 else 0)
  }

  predicate InInterval(t: Try, a: int, length: int) {
    t.allowed && t.status == Held && a <= t.at < a + length
  }

  /** Allowed and unreturned tries made from `a` on, before `a + length`. */
  function HeldDuring(tries: seq<Try>, a: int, length: int): nat
    decreases |tries|
  {
    if tries == [] then 0
    else HeldDuring(tries[..|tries| - 1], a, length)
         + (if InInterval(tries[|tries| - 1], a, length) then 1 else 0)
  }

  lemma {:induction false} TallyUpdate(tries: seq<Try>, i: nat, t: Try, start: int)
    requires i < |tries| && t.start == tries[i].start && t.allowed == tries[i].allowed
    ensures Unreturned(tries[i := t], start) == Unreturned(tries, start)
      + (if t.start == start && t.status != GivenBack then 1 else 0)
      - (if t.start == start && tries[i].status != GivenBack then 1 else 0)
    ensures HeldIn(tries[i := t], start) == HeldIn(tries, start)
      + (if t.start == start && t.allowed && t.status == Held then 1 else 0)
      - (if t.start == start && t.allowed && tries[i].status == Held then 1 else 0)
    decreases |tries|
  {
    var n := |tries| - 1;
    if i < n {
      TallyUpdate(tries[..n], i, t, start);
      assert tries[i := t][..n] == tries[..n][i := t];
    } else {
      assert tries[i := t][..n] == tries[..n];
    }
  }

  lemma TallyAppend(tries: seq<Try>, t: Try, start: int)
    ensures Unreturned(tries + [t], start) == Unreturned(tries, start) + (if t.start == start && t.status != GivenBack then 1 else 0)
    ensures HeldIn(tries + [t], start) == HeldIn(tries, start)
      + (if t.start == start && t.allowed && t.status == Held then 1 else 0)
  {
    assert (tries + [t])[..|tries|] == tries;
  }

  lemma {:induction false} HeldIsUnreturned(tries: seq<Try>, start: int)
    ensures HeldIn(tries, start) <= Unreturned(tries, start)
    decreases |tries|
  {
    if tries != [] {
      HeldIsUnreturned(tries[..|tries| - 1], start);
    }
  }

  lemma {:induction false} TallyPositive(tries: seq<Try>, i: nat)
    requires i < |tries| && tries[i].status != GivenBack
    ensures Unreturned(tries, tries[i].start) > 0
    decreases |tries|
  {
    if i < |tries| - 1 {
      TallyPositive(tries[..|tries| - 1], i);
    }
  }

  lemma {:induction false} TallyEmpty(tries: seq<Try>, start: int)
    requires forall i :: 0 <= i < |tries| ==> tries[i].start != start
    ensures Unreturned(tries, start) == 0 && HeldIn(tries, start) == 0
    decreases |tries|
  {
    if tries != [] {
      TallyEmpty(tries[..|tries| - 1], start);
    }
  }

  /* ---------- What every statement keeps ---------- */

  /** Window `a` ended before window `b` began, or they are the same window. */
  predicate Ordered(rule: Rule, a: int, b: int) {
    a == b || a + rule.window <= b
  }

  /** A start that has been seen is the live window's, or its window is over. */
  predicate Past(rule: Rule, w: World, start: int) {
    if w.row.Some? then Ordered(rule, start, w.row.value.start) && start <= w.now else start + rule.window <= w.now
  }

  predicate WindowsOrdered(rule: Rule, w: World) {
    && (forall i :: 0 <= i < |w.tries| ==> Past(rule, w, w.tries[i].start))
    && (forall i :: 0 <= i < |w.tries| ==> w.tries[i].start <= w.tries[i].at < w.tries[i].start + rule.window)
    && (forall i, j :: 0 <= i < j < |w.tries| ==> Ordered(rule, w.tries[i].start, w.tries[j].start))
    && (w.row.Some? ==> w.row.value.expires == w.row.value.start + rule.window && w.row.value.start <= w.now)
  }

  predicate CountHolds(w: World) {
    && (w.row.Some? ==> w.row.value.count == Unreturned(w.tries, w.row.value.start))
    && (forall i :: 0 <= i < |w.tries| && w.row.Some? && w.tries[i].start == w.row.value.start ==> w.tries[i].status != Late)
  }

  ghost predicate LimitHolds(rule: Rule, w: World) {
    forall start :: HeldIn(w.tries, start) <= rule.limit
  }

  predicate AuditsHold(rule: Rule, w: World) {
    && (forall i :: 0 <= i < |w.audits| ==> Past(rule, w, w.audits[i]))
    && (forall i, j :: 0 <= i < j < |w.audits| ==> w.audits[i] != w.audits[j])
    && (forall i :: 0 <= i < |w.audits| && w.row.Some? && w.row.value.start == w.audits[i] ==> w.row.value.reported)
  }

  ghost predicate Inv(rule: Rule, w: World) {
    WindowsOrdered(rule, w) && CountHolds(w) && LimitHolds(rule, w) && AuditsHold(rule, w)
  }

  lemma HitKeepsWindows(rule: Rule, w: World, at: int, asked: bool)
    requires Sound(rule) && Inv(rule, w) && w.now <= at
    ensures WindowsOrdered(rule, AfterHit(rule, w, at, asked)) && AuditsHold(rule, AfterHit(rule, w, at, asked))
  {
  }

  lemma HitKeepsCount(rule: Rule, w: World, at: int, asked: bool)
    requires Sound(rule) && Inv(rule, w) && w.now <= at
    ensures CountHolds(AfterHit(rule, w, at, asked)) && LimitHolds(rule, AfterHit(rule, w, at, asked))
  {
    var v := AfterHit(rule, w, at, asked);
    var row := v.row.value;
    var t := v.tries[|w.tries|];
    TallyAppend(w.tries, t, row.start);
    if w.row.None? || w.row.value.expires <= at {
      TallyEmpty(w.tries, row.start);
    }
    assert row.count == Unreturned(v.tries, row.start);
    HeldIsUnreturned(v.tries, row.start);
    forall start ensures HeldIn(v.tries, start) <= rule.limit {
      TallyAppend(w.tries, t, start);
    }
  }

  lemma ReportKeepsInv(rule: Rule, w: World, i: nat, heard: bool)
    requires Sound(rule) && Inv(rule, w)
    ensures Inv(rule, AfterReport(w, i, heard))
  {
    if i < |w.tries| && w.tries[i].asked && !w.tries[i].allowed && !w.tries[i].told {
      var v := AfterReport(w, i, heard);
      forall start ensures Unreturned(v.tries, start) == Unreturned(w.tries, start)
                           && HeldIn(v.tries, start) <= rule.limit {
        TallyUpdate(w.tries, i, w.tries[i].(told := true), start);
      }
    }
  }

  lemma GiveBackKeepsInv(rule: Rule, w: World, i: nat, fails: bool)
    requires Sound(rule) && Inv(rule, w)
    ensures Inv(rule, AfterGiveBack(w, i, fails))
  {
    if i < |w.tries| && w.tries[i].allowed && w.tries[i].status == Held {
      var v := AfterGiveBack(w, i, fails);
      var t := v.tries[i];
      TallyPositive(w.tries, i);
      forall start ensures HeldIn(v.tries, start) <= HeldIn(w.tries, start) {
        TallyUpdate(w.tries, i, t, start);
      }
      if w.row.Some? {
        TallyUpdate(w.tries, i, t, w.row.value.start);
      }
    }
  }

  lemma StepKeepsInv(rule: Rule, w: World, s: Step)
    requires Sound(rule) && Inv(rule, w) && Monotone(w, s)
    ensures Inv(rule, Next(rule, w, s))
  {
    match s
    case Hit(at, asked) => HitKeepsWindows(rule, w, at, asked); HitKeepsCount(rule, w, at, asked);
    case Report(i, heard) => ReportKeepsInv(rule, w, i, heard);
    case GiveBack(i, fails) => GiveBackKeepsInv(rule, w, i, fails);
    case Prune(at) =>
  }

  lemma {:induction false} RunKeepsInv(rule: Rule, w: World, ss: seq<Step>)
    requires Sound(rule) && Inv(rule, w) && GoodRun(rule, w, ss)
    ensures Inv(rule, Run(rule, w, ss))
    decreases |ss|
  {
    if ss != [] {
      StepKeepsInv(rule, w, ss[0]);
      RunKeepsInv(rule, Next(rule, w, ss[0]), ss[1..]);
    }
  }

  /* ---------- What the counter promises ---------- */

  /** Conservation: a live window's count is its hits less those given back, and at least its unspent receipts. */
  lemma CountIsConserved(rule: Rule, now: int, ss: seq<Step>)
    requires Sound(rule) && GoodRun(rule, Fresh(now), ss)
    ensures var w := Run(rule, Fresh(now), ss);
      w.row.Some? ==>
        && w.row.value.count == Unreturned(w.tries, w.row.value.start)
        && w.row.value.count >= HeldIn(w.tries, w.row.value.start)
  {
    RunKeepsInv(rule, Fresh(now), ss);
    var w := Run(rule, Fresh(now), ss);
    if w.row.Some? {
      HeldIsUnreturned(w.tries, w.row.value.start);
    }
  }

  /** In every window, however requests interleave, no more unreturned tries are allowed than the limit. */
  lemma WindowLimit(rule: Rule, now: int, ss: seq<Step>, start: int)
    requires Sound(rule) && GoodRun(rule, Fresh(now), ss)
    ensures HeldIn(Run(rule, Fresh(now), ss).tries, start) <= rule.limit
  {
    RunKeepsInv(rule, Fresh(now), ss);
  }

  /** At most one caller per window is told to audit. */
  lemma AuditOncePerWindow(rule: Rule, now: int, ss: seq<Step>)
    requires Sound(rule) && GoodRun(rule, Fresh(now), ss)
    ensures var a := Run(rule, Fresh(now), ss).audits;
      forall i, j :: 0 <= i < j < |a| ==> a[i] != a[j]
  {
    RunKeepsInv(rule, Fresh(now), ss);
  }

  /** The tries that weigh on the window in which a try made now falls. */
  function Weighing(rule: Rule, w: World, at: int): nat {
    if w.row.Some? && at < w.row.value.start + rule.window then Unreturned(w.tries, w.row.value.start) else 0
  }

  lemma HitIsAllowedIff(rule: Rule, w: World, at: int, asked: bool)
    requires Sound(rule) && Inv(rule, w) && w.now <= at
    ensures var v := Next(rule, w, Hit(at, asked));
      var live := w.row.Some? && at < w.row.value.start + rule.window;
      var start := if live then w.row.value.start else at;
      && v.tries == w.tries + [Try(start, at, asked, asked && Weighing(rule, w, at) < rule.limit, false, Held)]
      && v.now == at && v.audits == w.audits
  {
  }

  /**
   Who is allowed: a try that asks is, if and only if fewer tries than the limit weigh on its
   window; and the window is the live one while that lasts, a window's length from its first hit,
   and a new one from then on.
   */
  lemma AllowedIff(rule: Rule, now: int, ss: seq<Step>, at: int, asked: bool)
    requires Sound(rule) && GoodRun(rule, Fresh(now), ss) && Run(rule, Fresh(now), ss).now <= at
    ensures var w := Run(rule, Fresh(now), ss);
      var v := Next(rule, w, Hit(at, asked));
      var live := w.row.Some? && at < w.row.value.start + rule.window;
      |v.tries| == |w.tries| + 1 && v.tries[..|w.tries|] == w.tries &&
      var t := v.tries[|w.tries|];
      && t.start == (if live then w.row.value.start else at) && t.at == at && !t.told && t.status == Held
      && (t.allowed <==> asked && (if live then Unreturned(w.tries, t.start) else 0) < rule.limit)
  {
    RunKeepsInv(rule, Fresh(now), ss);
    HitIsAllowedIff(rule, Run(rule, Fresh(now), ss), at, asked);
  }

  /** The row is marked exactly when some refused try of its window has reported. */
  predicate SomeTold(w: World, start: int) {
    exists t <- w.tries :: t.told && t.start == start
  }

  predicate MarkHolds(w: World) {
    w.row.Some? ==> (w.row.value.reported <==> SomeTold(w, w.row.value.start))
  }

  predicate Heard(s: Step) {
    s.Report? ==> s.heard
  }

  predicate AllHeard(ss: seq<Step>) {
    forall i :: 0 <= i < |ss| ==> Heard(ss[i])
  }

  /** And its window is audited once it is marked. */
  predicate AuditHolds(w: World) {
    w.row.Some? ==> (w.row.value.reported <==> w.row.value.start in w.audits)
  }

  lemma NoneBefore(rule: Rule, w: World, at: int)
    requires Sound(rule) && Inv(rule, w) && w.now <= at && (w.row.None? || w.row.value.expires <= at)
    ensures !SomeTold(w, at) && at !in w.audits
  {
    forall i | 0 <= i < |w.tries| ensures w.tries[i].start < at {
      assert Past(rule, w, w.tries[i].start);
    }
    forall i | 0 <= i < |w.audits| ensures w.audits[i] < at {
      assert Past(rule, w, w.audits[i]);
    }
  }

  lemma TellsAfter(w: World, i: nat, t: Try, start: int)
    requires i < |w.tries| && t.start == w.tries[i].start && (w.tries[i].told ==> t.told)
    ensures SomeTold(w.(tries := w.tries[i := t]), start) <==> SomeTold(w, start) || (t.told && t.start == start)
  {
    var v := w.(tries := w.tries[i := t]);
    if SomeTold(w, start) {
      var s :| s in w.tries && s.told && s.start == start;
      var k :| 0 <= k < |w.tries| && w.tries[k] == s;
      assert v.tries[k].told && v.tries[k] in v.tries;
    }
    assert v.tries[i] == t && t in v.tries;
    if SomeTold(v, start) {
      var s :| s in v.tries && s.told && s.start == start;
      var k :| 0 <= k < |v.tries| && v.tries[k] == s;
      assert k != i ==> w.tries[k] == s && s in w.tries;
    }
  }

  lemma HitKeepsMark(rule: Rule, w: World, at: int, asked: bool)
    requires Sound(rule) && Inv(rule, w) && w.now <= at && MarkHolds(w)
    ensures MarkHolds(AfterHit(rule, w, at, asked))
    ensures AuditHolds(w) ==> AuditHolds(AfterHit(rule, w, at, asked))
  {
    var v := AfterHit(rule, w, at, asked);
    var t := v.tries[|w.tries|];
    assert v.tries == w.tries + [t];
    if w.row.None? || w.row.value.expires <= at {
      NoneBefore(rule, w, at);
    }
    assert forall s :: s in v.tries && s.told <==> s in w.tries && s.told;
  }

  lemma StepKeepsMark(rule: Rule, w: World, s: Step)
    requires Sound(rule) && Inv(rule, w) && Monotone(w, s) && MarkHolds(w)
    ensures MarkHolds(Next(rule, w, s))
    ensures AuditHolds(w) && Heard(s) ==> AuditHolds(Next(rule, w, s))
  {
    match s
    case Hit(at, asked) => HitKeepsMark(rule, w, at, asked);
    case Report(i, heard) =>
      if i < |w.tries| && w.row.Some? {
        TellsAfter(w, i, w.tries[i].(told := true), w.row.value.start);
      }
    case GiveBack(i, fails) =>
      var v := Next(rule, w, s);
      if v != w && w.row.Some? {
        TellsAfter(w, i, v.tries[i], w.row.value.start);
      }
    case Prune(at) =>
  }

  lemma {:induction false} RunKeepsMark(rule: Rule, w: World, ss: seq<Step>)
    requires Sound(rule) && Inv(rule, w) && GoodRun(rule, w, ss) && MarkHolds(w)
    ensures MarkHolds(Run(rule, w, ss))
    ensures AuditHolds(w) && AllHeard(ss) ==> AuditHolds(Run(rule, w, ss))
    decreases |ss|
  {
    if ss != [] {
      StepKeepsInv(rule, w, ss[0]);
      StepKeepsMark(rule, w, ss[0]);
      RunKeepsMark(rule, Next(rule, w, ss[0]), ss[1..]);
    }
  }

  /**
   The audit is not lost either: while its window lasts, the window has been audited if and only if
   a refused try of it has asked to report and heard the reply, whichever of them came first.
   */
  lemma AuditedIffReported(rule: Rule, now: int, ss: seq<Step>)
    requires Sound(rule) && GoodRun(rule, Fresh(now), ss) && AllHeard(ss)
    ensures var w := Run(rule, Fresh(now), ss);
      w.row.Some? ==> (w.row.value.start in w.audits <==> exists t <- w.tries :: t.told && t.start == w.row.value.start)
  {
    RunKeepsMark(rule, Fresh(now), ss);
  }

  /** A refused try that reports is marked as having done so; nothing else ever marks one. */
  lemma TellsIff(rule: Rule, w: World, s: Step, i: nat)
    requires i < |w.tries|
    ensures var v := Next(rule, w, s);
      i < |v.tries| && (v.tries[i].told <==> w.tries[i].told || (s.Report? && s.try_ == i && w.tries[i].asked && !w.tries[i].allowed))
  {
  }

  /** The tries numbered i and j are in the interval, and so are no windows but theirs before n. */
  predicate Spanned(rule: Rule, w: World, a: int, n: nat, i: nat, j: nat) {
    && i <= j < n <= |w.tries|
    && InInterval(w.tries[i], a, rule.window) && InInterval(w.tries[j], a, rule.window)
    && forall k :: 0 <= k < n && InInterval(w.tries[k], a, rule.window) ==>
         w.tries[k].start == w.tries[i].start || w.tries[k].start == w.tries[j].start
  }

  predicate Nothing(rule: Rule, w: World, a: int, n: nat) {
    n <= |w.tries| && forall k :: 0 <= k < n ==> !InInterval(w.tries[k], a, rule.window)
  }

  /** Tries inside one interval of a window's length fall in at most two windows. */
  lemma {:induction false} TwoWindows(rule: Rule, w: World, a: int, n: nat) returns (i: nat, j: nat)
    requires Sound(rule) && WindowsOrdered(rule, w) && n <= |w.tries|
    ensures Nothing(rule, w, a, n) || Spanned(rule, w, a, n, i, j)
    decreases n
  {
    i, j := 0, 0;
    if n > 0 {
      i, j := TwoWindows(rule, w, a, n - 1);
      if InInterval(w.tries[n - 1], a, rule.window) {
        if Nothing(rule, w, a, n - 1) {
          i := n - 1;
        }
        j := n - 1;
      }
    }
  }

  lemma {:induction false} HeldDuringAtMost(tries: seq<Try>, a: int, length: int, first: int, last: int)
    requires forall k :: 0 <= k < |tries| && InInterval(tries[k], a, length) ==> tries[k].start == first || tries[k].start == last
    ensures HeldDuring(tries, a, length) <= HeldIn(tries, first) + HeldIn(tries, last)
    decreases |tries|
  {
    if tries != [] {
      HeldDuringAtMost(tries[..|tries| - 1], a, length, first, last);
    }
  }

  /** In any rolling interval of one window's length, at most twice the limit is allowed and not returned. */
  lemma RollingLimit(rule: Rule, now: int, ss: seq<Step>, a: int)
    requires Sound(rule) && GoodRun(rule, Fresh(now), ss)
    ensures HeldDuring(Run(rule, Fresh(now), ss).tries, a, rule.window) <= 2 * rule.limit
  {
    RunKeepsInv(rule, Fresh(now), ss);
    var w := Run(rule, Fresh(now), ss);
    var i, j := TwoWindows(rule, w, a, |w.tries|);
    var first := if i < |w.tries| then w.tries[i].start else 0;
    var last := if j < |w.tries| then w.tries[j].start else 0;
    HeldDuringAtMost(w.tries, a, rule.window, first, last);
  }

  /* ---------- The counter itself ---------- */

  /** Proof that one request's hit was counted, good for one give-back. */
  class Receipt {
    const scope: string
    const key: string
    const start: int
    var spent: bool

    constructor (scope: string, key: string, start: int)
      ensures this.scope == scope && this.key == key && this.start == start && !spent
    {
      this.scope, this.key, this.start, spent := scope, key, start, false;
    }
  }

  datatype Decision = Decision(allowed: bool, audit: bool)

  function RowOf(rows: map<string, Row>, key: string): Option<Row> {
    if key in rows then Some(rows[key]) else None
  }

  /** The rows after a refused try of this window has asked to report it. */
  function RowsReported(rows: map<string, Row>, key: string, start: int): map<string, Row> {
    if key in rows && rows[key].start == start && !rows[key].reported
    then rows[key := rows[key].(reported := true)] else rows
  }

  /** The rows after a count of this window has been given back. */
  function RowsReturned(rows: map<string, Row>, key: string, start: int): map<string, Row> {
    if key in rows && rows[key].start == start && rows[key].count > 0
    then rows[key := rows[key].(count := rows[key].count - 1)] else rows
  }

  class Counter {
    const scope: string
    const rule: Rule
    var rows: map<string, Row>

    constructor (scope: string, rule: Rule)
      ensures this.scope == scope && this.rule == rule && rows == map[]
    {
      this.scope, this.rule, rows := scope, rule, map[];
    }

    method HitKey(key: string, at: int) returns (count: int, start: int)
      modifies this
      ensures rows == old(rows)[key := Upsert(rule, RowOf(old(rows), key), at)]
      ensures count == rows[key].count && start == rows[key].start
    {
      var row := if key !in rows || rows[key].expires <= at then Row(at, at + rule.window, 1, false)
                 else rows[key].(count := rows[key].count + 1);
      rows := rows[key := row];
      count, start := row.count, row.start;
    }

    method FirstRefusal(key: string, start: int) returns (first: bool)
      modifies this
      ensures first == (key in old(rows) && old(rows)[key].start == start && !old(rows)[key].reported)
      ensures rows == RowsReported(old(rows), key, start)
    {
      first := key in rows && rows[key].start == start && !rows[key].reported;
      if first {
        rows := rows[key := rows[key].(reported := true)];
      }
    }

    /** An uninterrupted try: its decision and receipt are those the Hit and Report steps describe. */
    method Attempt(key: string, at: int) returns (decision: Decision, receipt: Receipt?)
      modifies this
      ensures var row := Upsert(rule, RowOf(old(rows), key), at);
        && decision.allowed == (row.count <= rule.limit)
        && (receipt != null <==> decision.allowed)
        && (receipt != null ==> fresh(receipt) && receipt.scope == scope && receipt.key == key && receipt.start == row.start && !receipt.spent)
        && decision.audit == (!decision.allowed && !row.reported)
        && rows == old(rows)[key := row.(reported := row.reported || decision.audit)]
    {
      var count, start := HitKey(key, at);
      if count <= rule.limit {
        receipt := new Receipt(scope, key, start);
        return Decision(true, false), receipt;
      }
      var audit := FirstRefusal(key, start);
      return Decision(false, audit), null;
    }

    method Add(key: string, at: int)
      modifies this
      ensures rows == old(rows)[key := Upsert(rule, RowOf(old(rows), key), at)]
    {
      var _, _ := HitKey(key, at);
    }

    /** Returns a counted try of this counter once, and only to the window it was counted in. */
    method GiveBackReceipt(receipt: Receipt, writeFails: bool)
      modifies this, receipt
      ensures receipt.spent == (old(receipt.spent) || receipt.scope == scope)
      ensures rows == if !old(receipt.spent) && receipt.scope == scope && !writeFails
                      then RowsReturned(old(rows), receipt.key, receipt.start) else old(rows)
    {
      if receipt.spent || receipt.scope != scope { return; }
      receipt.spent := true;
      if !writeFails && receipt.key in rows && rows[receipt.key].start == receipt.start && rows[receipt.key].count > 0 {
        rows := rows[receipt.key := rows[receipt.key].(count := rows[receipt.key].count - 1)];
      }
    }

    /** Deletes exactly the rows whose window has ended. */
    method PruneEnded(now: int)
      modifies this
      ensures rows == map key | key in old(rows) && old(rows)[key].expires > now :: old(rows)[key]
    {
      rows := map key | key in rows && rows[key].expires > now :: rows[key];
    }
  }

  /** Each step of a World leaves the row that the counter's method for it leaves, and no other key's. */
  lemma CounterFollowsSteps(rule: Rule, rows: map<string, Row>, key: string, w: World, at: int, i: nat, writeFails: bool)
    requires RowOf(rows, key) == w.row && i < |w.tries|
    ensures RowOf(rows[key := Upsert(rule, RowOf(rows, key), at)], key) == AfterHit(rule, w, at, true).row
    ensures RowOf(map k | k in rows && rows[k].expires > at :: rows[k], key) == AfterPrune(w, at).row
    ensures var t := w.tries[i];
      && (t.asked && !t.allowed && !t.told ==>
            RowOf(RowsReported(rows, key, t.start), key) == AfterReport(w, i, true).row
            && (RowsReported(rows, key, t.start) != rows <==> AfterReport(w, i, true).audits == w.audits + [t.start]))
      && (t.allowed && t.status == Held ==>
            RowOf(if writeFails then rows else RowsReturned(rows, key, t.start), key) == AfterGiveBack(w, i, writeFails).row)
    ensures forall other :: other != key ==>
      && RowOf(RowsReported(rows, key, w.tries[i].start), other) == RowOf(rows, other)
      && RowOf(RowsReturned(rows, key, w.tries[i].start), other) == RowOf(rows, other)
  {
    var t := w.tries[i];
    if key in rows && rows[key].start == t.start && !rows[key].reported {
      assert RowsReported(rows, key, t.start)[key] != rows[key];
    } else {
      assert |w.audits + [t.start]| != |w.audits|;
    }
  }
}
