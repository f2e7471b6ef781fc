/**
 Why a pending rebuild stops waiting: each recovery sweep of a workspace tries its projects
 least recently tried first and stamps each project it tries, whatever comes of it, so that
 every sweep leaves at least one fewer project untried.
 */
module RebuildWait {
  import opened Wrappers

  /** When each active project was last tried for a point; None for never. */
  type Checked = seq<Option<int>>

  predicate Untried(c: Option<int>, since: int) {
    c.None? || c.value < since
  }

  function UntriedCount(c: Checked, since: int): (n: nat)
    ensures n <= |c|
  {
    if c == [] then 0 else UntriedCount(c[..|c| - 1], since) + if Untried(c[|c| - 1], since) then 1 else 0
  }

  /** rebuildPointsDone: no active project is untried since the request. */
  predicate PointsDone(c: Checked, since: int) {
    UntriedCount(c, since) == 0
  }

  predicate Before(a: Option<int>, b: Option<int>) {
    a.None? || (b.Some? && a.value <= b.value)
  }

  /** An answer of the query: every project once, never-tried ones first, then by the time of the last try. */
  predicate LeastRecentFirst(c: Checked, order: seq<nat>) {
    && (forall i :: 0 <= i < |order| ==> order[i] < |c|)
    && (forall p :: 0 <= p < |c| ==> p in order)
    && (forall i, j :: 0 <= i < j < |order| ==> order[i] != order[j] && Before(c[order[i]], c[order[j]]))
  }

  datatype Outcome = Created | Nothing | Unreachable

  /** How many projects one sweep tries: up to and with the first that finds the agent unreachable. */
  function Tries(order: seq<nat>, outcome: nat -> Outcome): (k: nat)
    ensures k <= |order| && (order != [] ==> k > 0)
  {
    if order == [] then 0
    else if outcome(order[0]) == Unreachable then 1
    else 1 + Tries(order[1..], outcome)
  }

  predicate InRange(order: seq<nat>, n: nat) {
    forall i :: 0 <= i < |order| ==> order[i] < n
  }

  function Stamped(c: Checked, tried: seq<nat>, now: int): (r: Checked)
    requires InRange(tried, |c|)
    ensures |r| == |c|
  {
    if tried == [] then c else Stamped(c, tried[..|tried| - 1], now)[tried[|tried| - 1] := Some(now)]
  }

  lemma {:induction false} StampedAt(c: Checked, tried: seq<nat>, now: int, p: nat)
    requires InRange(tried, |c|) && p < |c|
    ensures Stamped(c, tried, now)[p] == if p in tried then Some(now) else c[p]
  {
    if tried != [] {
      StampedAt(c, tried[..|tried| - 1], now, p);
      assert tried == tried[..|tried| - 1] + [tried[|tried| - 1]];
    }
  }

  /** Fewer or equal untried projects, and strictly fewer when one of them has been tried. */
  lemma {:induction false} CountFalls(c: Checked, d: Checked, since: int, p: nat)
    requires |c| == |d| && (forall i :: 0 <= i < |c| ==> Untried(d[i], since) ==> Untried(c[i], since))
    ensures UntriedCount(d, since) <= UntriedCount(c, since)
    ensures p < |c| && Untried(c[p], since) && !Untried(d[p], since) ==> UntriedCount(d, since) < UntriedCount(c, since)
  {
    if c != [] {
      var n := |c| - 1;
      CountFalls(c[..n], d[..n], since, p);
      if p < n {
        assert c[..n][p] == c[p] && d[..n][p] == d[p];
      }
    }
  }

  lemma {:induction false} SomeUntried(c: Checked, since: int) returns (p: nat)
    requires UntriedCount(c, since) > 0
    ensures p < |c| && Untried(c[p], since)
  {
    var n := |c| - 1;
    if Untried(c[n], since) {
      p := n;
    } else {
      p := SomeUntried(c[..n], since);
    }
  }

  /** The first project in the order is untried whenever any is. */
  lemma FirstIsUntried(c: Checked, order: seq<nat>, since: int)
    requires LeastRecentFirst(c, order) && UntriedCount(c, since) > 0
    ensures order != [] && Untried(c[order[0]], since)
  {
    var p := SomeUntried(c, since);
    assert p in order;
    var i :| 0 <= i < |order| && order[i] == p;
    if i > 0 {
      assert Before(c[order[0]], c[order[i]]);
    }
  }

  /** One sweep of the workspace that runs to its end. */
  function Swept(c: Checked, order: seq<nat>, outcome: nat -> Outcome, now: int): (r: Checked)
    requires LeastRecentFirst(c, order)
    ensures |r| == |c|
  {
    Stamped(c, order[..Tries(order, outcome)], now)
  }

  /** Whatever the agent does, a sweep begun since the request leaves at least one fewer project untried. */
  lemma SweepMakesProgress(c: Checked, order: seq<nat>, outcome: nat -> Outcome, now: int, since: int)
    requires LeastRecentFirst(c, order) && since <= now
    ensures var d := Swept(c, order, outcome, now);
      UntriedCount(d, since) <= UntriedCount(c, since) - (if UntriedCount(c, since) > 0 then 1 else 0)
  {
    var tried := order[..Tries(order, outcome)];
    var d := Swept(c, order, outcome, now);
    forall p | 0 <= p < |c| ensures d[p] == if p in tried then Some(now) else c[p] {
      StampedAt(c, tried, now, p);
    }
    if UntriedCount(c, since) > 0 {
      FirstIsUntried(c, order, since);
      assert tried[0] == order[0];
      CountFalls(c, d, since, order[0]);
    } else {
      CountFalls(c, d, since, 0);
    }
  }

  /** A completed sweep: the order its query gave, what the agent did, and when it began. */
  datatype Sweep = Sweep(order: seq<nat>, outcome: nat -> Outcome, now: int)

  /** The states that completed sweeps pass through, each querying the state it finds. */
  predicate Sweeps(states: seq<Checked>, sweeps: seq<Sweep>) {
    && |states| == |sweeps| + 1
    && forall i :: 0 <= i < |sweeps| ==>
      LeastRecentFirst(states[i], sweeps[i].order)
      && states[i + 1] == Swept(states[i], sweeps[i].order, sweeps[i].outcome, sweeps[i].now)
  }

  lemma {:induction false} UntriedAfter(states: seq<Checked>, sweeps: seq<Sweep>, since: int, k: nat)
    requires Sweeps(states, sweeps) && k <= |sweeps|
    requires forall i :: 0 <= i < |sweeps| ==> since <= sweeps[i].now
    ensures |states[k]| == |states[0]|
    ensures UntriedCount(states[k], since) <= if k < |states[0]| then |states[0]| - k else 0
  {
    if k > 0 {
      UntriedAfter(states, sweeps, since, k - 1);
      SweepMakesProgress(states[k - 1], sweeps[k - 1].order, sweeps[k - 1].outcome, sweeps[k - 1].now, since);
    }
  }

  /** The wait ends: n active projects, n completed sweeps begun since the request, even if the agent is never reached. */
  lemma WaitEnds(states: seq<Checked>, sweeps: seq<Sweep>, since: int)
    requires Sweeps(states, sweeps) && |sweeps| >= |states[0]|
    requires forall i :: 0 <= i < |sweeps| ==> since <= sweeps[i].now
    ensures PointsDone(states[|sweeps|], since)
    ensures forall p :: 0 <= p < |states[|sweeps|]| ==> !Untried(states[|sweeps|][p], since)
  {
    UntriedAfter(states, sweeps, since, |sweeps|);
    NoneUntried(states[|sweeps|], since);
  }

  lemma {:induction false} NoneUntried(c: Checked, since: int)
    ensures PointsDone(c, since) <==> forall p :: 0 <= p < |c| ==> !Untried(c[p], since)
  {
    if c != [] {
      var n := |c| - 1;
      NoneUntried(c[..n], since);
      if forall p :: 0 <= p < n ==> !Untried(c[..n][p], since) {
        forall p | 0 <= p < n ensures !Untried(c[p], since) {
          assert c[..n][p] == c[p];
        }
      } else {
        var p :| 0 <= p < n && Untried(c[..n][p], since);
        assert c[p] == c[..n][p];
      }
    }
  }

  /** n sweeps are needed: while no project is reached, fewer leave one untried. */
  lemma {:induction false} NoFewerWillDo(states: seq<Checked>, sweeps: seq<Sweep>, since: int, k: nat)
    requires Sweeps(states, sweeps) && k <= |sweeps| && k <= |states[0]|
    requires forall p :: 0 <= p < |states[0]| ==> states[0][p].None?
    requires forall i, p :: 0 <= i < |sweeps| ==> sweeps[i].outcome(p) == Unreachable
    ensures |states[k]| == |states[0]| && UntriedCount(states[k], since) >= |states[0]| - k
  {
    if k == 0 {
      AllUntried(states[0], since);
    } else {
      NoFewerWillDo(states, sweeps, since, k - 1);
      var c, s := states[k - 1], sweeps[k - 1];
      if s.order == [] {
        assert Stamped(c, s.order[..0], s.now) == c;
      } else {
        assert s.order[..1] == [s.order[0]];
        assert [s.order[0]][..0] == [];
        assert Stamped(c, [s.order[0]], s.now) == c[s.order[0] := Some(s.now)];
        OneStampCountsOnce(c, since, s.order[0], s.now);
      }
    }
  }

  lemma {:induction false} AllUntried(c: Checked, since: int)
    requires forall p :: 0 <= p < |c| ==> c[p].None?
    ensures UntriedCount(c, since) == |c|
  {
    if c != [] {
      AllUntried(c[..|c| - 1], since);
    }
  }

  lemma {:induction false} OneStampCountsOnce(c: Checked, since: int, p: nat, now: int)
    requires p < |c|
    ensures UntriedCount(c[p := Some(now)], since) >= UntriedCount(c, since) - 1
  {
    var n := |c| - 1;
    var d := c[p := Some(now)];
    if p < n {
      OneStampCountsOnce(c[..n], since, p, now);
      assert d[..n] == c[..n][p := Some(now)];
    } else {
      assert d[..n] == c[..n];
    }
  }

  /** The loop of one sweep over the projects the query returned. */
  method SweepOne(c: Checked, order: seq<nat>, outcome: nat -> Outcome, now: int) returns (d: Checked, created: nat, unreachable: bool)
    requires LeastRecentFirst(c, order)
    ensures d == Swept(c, order, outcome, now)
    ensures unreachable <==> exists p <- order :: outcome(p) == Unreachable
    ensures created <= Tries(order, outcome)
  {
    d, created, unreachable := c, 0, false;
    var i := 0;
    while i < |order|
      invariant 0 <= i <= |order| && created <= i && |d| == |c|
      invariant d == Stamped(c, order[..i], now)
      invariant Tries(order, outcome) == i + Tries(order[i..], outcome)
      invariant forall j :: 0 <= j < i ==> outcome(order[j]) != Unreachable
    {
      var p := order[i];
      assert order[..i + 1][..i] == order[..i];
      assert order[i..][1..] == order[i + 1..];
      d := d[p := Some(now)];
      i := i + 1;
      match outcome(p)
      case Created => created := created + 1;
      case Nothing =>
      case Unreachable => return d, created, true;
    }
    assert order[i..] == [];
  }

  // ---- The lanes of a sweep ----

  /** Lanes share one index into the list of running workspaces. */
  datatype Lanes = Lanes(next: nat, busy: seq<Option<nat>>, swept: seq<nat>)

  datatype LaneStep = TakeNext(lane: nat) | Finish(lane: nat)

  predicate CanStep(s: Lanes, n: nat, step: LaneStep) {
    step.lane < |s.busy|
    && match step
       case TakeNext(l) => s.busy[l].None? && s.next < n
       case Finish(l) => s.busy[l].Some?
  }

  /** A workspace whose sweep throws is finished like any other. */
  function LaneAfter(s: Lanes, n: nat, step: LaneStep): Lanes
    requires CanStep(s, n, step)
  {
    match step
    case TakeNext(l) => s.(next := s.next + 1, busy := s.busy[l := Some(s.next)])
    case Finish(l) => s.(busy := s.busy[l := None], swept := s.swept + [s.busy[l].value])
  }

  predicate Held(s: Lanes, i: nat) {
    i in s.swept || Some(i) in s.busy
  }

  /** Every index handed out is being swept or has been, once; none other is. */
  ghost predicate LanesInv(s: Lanes, n: nat) {
    && s.next <= n
    && (forall i: nat :: i < s.next <==> Held(s, i))
    && (forall i, j :: 0 <= i < j < |s.swept| ==> s.swept[i] != s.swept[j])
    && (forall i, l :: 0 <= i < |s.swept| && 0 <= l < |s.busy| ==> s.busy[l] != Some(s.swept[i]))
    && (forall l, m :: 0 <= l < m < |s.busy| && s.busy[l].Some? ==> s.busy[l] != s.busy[m])
  }

  lemma LaneStepKeepsInv(s: Lanes, n: nat, step: LaneStep)
    requires LanesInv(s, n) && CanStep(s, n, step)
    ensures LanesInv(LaneAfter(s, n, step), n)
  {
    var t := LaneAfter(s, n, step);
    var l := step.lane;
    match step
    case TakeNext(_) =>
      assert !Held(s, s.next);
      assert t.busy[l] == Some(s.next);
      forall i: nat ensures Held(t, i) <==> i < t.next {
        if Some(i) in s.busy {
          var m :| 0 <= m < |s.busy| && s.busy[m] == Some(i);
          assert t.busy[m] == Some(i);
        }
        if Some(i) in t.busy && i != s.next {
          var m :| 0 <= m < |t.busy| && t.busy[m] == Some(i);
          assert s.busy[m] == Some(i);
        }
        assert Held(s, i) <==> i < s.next;
      }
    case Finish(_) =>
      var v := s.busy[l].value;
      assert t.swept[|s.swept|] == v;
      forall i: nat ensures Held(t, i) <==> Held(s, i) {
        if Some(i) in s.busy && i != v {
          var m :| 0 <= m < |s.busy| && s.busy[m] == Some(i);
          assert t.busy[m] == Some(i);
        }
      }
  }

  function Idle(lanes: nat): Lanes {
    Lanes(0, seq(lanes, _ => None), [])
  }

  predicate LaneRun(states: seq<Lanes>, steps: seq<LaneStep>, n: nat, lanes: nat) {
    && |states| == |steps| + 1 && states[0] == Idle(lanes)
    && forall i :: 0 <= i < |steps| ==> CanStep(states[i], n, steps[i]) && states[i + 1] == LaneAfter(states[i], n, steps[i])
  }

  lemma {:induction false} LaneRunKeepsInv(states: seq<Lanes>, steps: seq<LaneStep>, n: nat, lanes: nat, k: nat)
    requires LaneRun(states, steps, n, lanes) && k <= |steps|
    ensures LanesInv(states[k], n) && |states[k].busy| == lanes
  {
    if k == 0 {
      forall i: nat ensures !Held(Idle(lanes), i) {
      }
    } else {
      LaneRunKeepsInv(states, steps, n, lanes, k - 1);
      LaneStepKeepsInv(states[k - 1], n, steps[k - 1]);
    }
  }

  /** However the lanes interleave, once none can go on each running workspace was swept exactly once. */
  lemma EveryWorkspaceOnce(states: seq<Lanes>, steps: seq<LaneStep>, n: nat, lanes: nat)
    requires LaneRun(states, steps, n, lanes) && lanes > 0
    requires forall l :: 0 <= l < lanes ==> !CanStep(states[|steps|], n, TakeNext(l)) && !CanStep(states[|steps|], n, Finish(l))
    ensures var s := states[|steps|];
      && (forall i: nat :: i < n <==> i in s.swept)
      && (forall i, j :: 0 <= i < j < |s.swept| ==> s.swept[i] != s.swept[j])
  {
    var s := states[|steps|];
    LaneRunKeepsInv(states, steps, n, lanes, |steps|);
    assert forall l :: 0 <= l < lanes ==> !CanStep(s, n, Finish(l)) && s.busy[l].None?;
    assert !CanStep(s, n, TakeNext(0));
    forall i: nat ensures i < n <==> i in s.swept {
      assert Held(s, i) <==> i in s.swept;
    }
  }
}
