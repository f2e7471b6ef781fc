/**
 Retention of recovery points: one greedy pass over a workspace's points in creation order,
 against the rule it stands for, "all expired points, then the oldest until the workspace is at
 or below three quarters of its allowance, and never a project's newest".
 */
module Retention {
  import opened Wrappers

  type Id = nat
  type Project = nat

  datatype Point = Point(id: Id, project: Project, size: nat, expires: int)

  /** A point's size on disk, in whole blocks. */
  function Allocated(size: nat): (r: nat)
    ensures size <= r < size + 4096 && r % 4096 == 0
  {
    (size + 4095) / 4096 * 4096
  }

  function Total(ps: seq<Point>): nat {
    if ps == [] then 0 else Allocated(ps[0].size) + Total(ps[1..])
  }

  /** More than 75% of the allowance is used. */
  predicate Over(total: int, quota: nat) {
    4 * total > 3 * quota
  }

  predicate Expired(p: Point, now: int) { p.expires <= now }

  // ---- The newest point of each project ----

  function NewestOf(ps: seq<Point>): map<Project, Id> {
    if ps == [] then map[] else NewestOf(ps[..|ps| - 1])[ps[|ps| - 1].project := ps[|ps| - 1].id]
  }

  predicate Spared(p: Point, newest: map<Project, Id>) {
    p.project in newest && newest[p.project] == p.id
  }

  /** The points retention may delete, in the order it meets them. */
  function Expendable(ps: seq<Point>, newest: map<Project, Id>): seq<Point> {
    if ps == [] then []
    else if Spared(ps[0], newest) then Expendable(ps[1..], newest)
    else [ps[0]] + Expendable(ps[1..], newest)
  }

  predicate DistinctIds(ps: seq<Point>) {
    forall i, j :: 0 <= i < j < |ps| ==> ps[i].id != ps[j].id
  }

  /** No later point of the same project. */
  predicate IsNewest(ps: seq<Point>, i: nat)
    requires i < |ps|
  {
    forall j :: i < j < |ps| ==> ps[j].project != ps[i].project
  }

  /** The loop's map spares exactly the last point of every project. */
  lemma {:induction false} SparedIffNewest(ps: seq<Point>, i: nat)
    requires DistinctIds(ps) && i < |ps|
    ensures Spared(ps[i], NewestOf(ps)) <==> IsNewest(ps, i)
    decreases |ps|
  {
    var n := |ps| - 1;
    if i < n {
      SparedIffNewest(ps[..n], i);
      assert ps[..n][i] == ps[i];
      if ps[n].project != ps[i].project && IsNewest(ps[..n], i) {
        forall j | i < j < |ps| ensures ps[j].project != ps[i].project {
          if j < n { assert ps[..n][j] == ps[j]; }
        }
      }
    }
  }

  // ---- The pass and the rule ----

  /** What the pass deletes, from the expendable points and the bytes in use. */
  function Greedy(e: seq<Point>, total: int, quota: nat, now: int): seq<Point> {
    if e == [] then []
    else if Expired(e[0], now) || Over(total, quota)
      then [e[0]] + Greedy(e[1..], total - Allocated(e[0].size), quota, now)
    else Greedy(e[1..], total, quota, now)
  }

  /** What the pass keeps of them. */
  function GreedyKept(e: seq<Point>, total: int, quota: nat, now: int): seq<Point> {
    if e == [] then []
    else if Expired(e[0], now) || Over(total, quota)
      then GreedyKept(e[1..], total - Allocated(e[0].size), quota, now)
    else [e[0]] + GreedyKept(e[1..], total, quota, now)
  }

  function AllExpired(e: seq<Point>, now: int): seq<Point> {
    if e == [] then []
    else if Expired(e[0], now) then [e[0]] + AllExpired(e[1..], now)
    else AllExpired(e[1..], now)
  }

  function Unexpired(e: seq<Point>, now: int): seq<Point> {
    if e == [] then []
    else if Expired(e[0], now) then Unexpired(e[1..], now)
    else [e[0]] + Unexpired(e[1..], now)
  }

  /** The shortest oldest prefix that must go until the total is no longer over. */
  function Trimmed(u: seq<Point>, total: int, quota: nat): seq<Point> {
    if u == [] || !Over(total, quota) then [] else [u[0]] + Trimmed(u[1..], total - Allocated(u[0].size), quota)
  }

  /** What is left behind it. */
  function TrimKept(u: seq<Point>, total: int, quota: nat): (r: seq<Point>)
    ensures |r| <= |u|
  {
    if u == [] || !Over(total, quota) then u else TrimKept(u[1..], total - Allocated(u[0].size), quota)
  }

  /** The rule: every expired point, then the oldest of the rest while the total is over. */
  function Rule(e: seq<Point>, total: int, quota: nat, now: int): seq<Point> {
    AllExpired(e, now) + Trimmed(Unexpired(e, now), total - Total(AllExpired(e, now)), quota)
  }

  function RuleKept(e: seq<Point>, total: int, quota: nat, now: int): seq<Point> {
    TrimKept(Unexpired(e, now), total - Total(AllExpired(e, now)), quota)
  }

  lemma Cons(p: Point, r: seq<Point>)
    ensures ([p] + r)[0] == p && ([p] + r)[1..] == r && [p] + r != []
    ensures Total([p] + r) == Allocated(p.size) + Total(r)
  {
    assert ([p] + r)[1..] == r;
  }

  lemma ConsAssoc(p: Point, a: seq<Point>, b: seq<Point>)
    ensures [p] + a + b == [p] + (a + b)
  {
  }

  /** The rule on a point and the points after it. */
  lemma RuleStep(p: Point, r: seq<Point>, total: int, quota: nat, now: int)
    ensures var e := [p] + r;
      var less := total - Allocated(p.size);
      if Expired(p, now) then
        Rule(e, total, quota, now) == [p] + Rule(r, less, quota, now) && RuleKept(e, total, quota, now) == RuleKept(r, less, quota, now)
      else if Over(total - Total(AllExpired(r, now)), quota) then
        RuleKept(e, total, quota, now) == RuleKept(r, less, quota, now)
      else RuleKept(e, total, quota, now) == [p] + Unexpired(r, now)
  {
    Cons(p, r);
    Cons(p, AllExpired(r, now));
    Cons(p, Unexpired(r, now));
    ConsAssoc(p, AllExpired(r, now), Trimmed(Unexpired(r, now), total - Allocated(p.size) - Total(AllExpired(r, now)), quota));
  }

  /** Expiry dates follow creation order. */
  predicate ExpiryFollowsCreation(e: seq<Point>) {
    forall i, j :: 0 <= i < j < |e| ==> e[i].expires <= e[j].expires
  }

  lemma {:induction false} NoneExpired(e: seq<Point>, now: int)
    requires forall i :: 0 <= i < |e| ==> !Expired(e[i], now)
    ensures AllExpired(e, now) == [] && Unexpired(e, now) == e
  {
    if e != [] {
      NoneExpired(e[1..], now);
    }
  }

  lemma {:induction false} GreedyTrims(e: seq<Point>, total: int, quota: nat, now: int)
    requires forall i :: 0 <= i < |e| ==> !Expired(e[i], now)
    ensures Greedy(e, total, quota, now) == Trimmed(e, total, quota)
  {
    if e != [] {
      if Over(total, quota) {
        GreedyTrims(e[1..], total - Allocated(e[0].size), quota, now);
      } else {
        GreedyTrims(e[1..], total, quota, now);
      }
    }
  }

  /** When expiry follows creation the single pass deletes just what the rule does, in the same order. */
  lemma {:induction false} PassFollowsRule(e: seq<Point>, total: int, quota: nat, now: int)
    requires ExpiryFollowsCreation(e)
    ensures Greedy(e, total, quota, now) == Rule(e, total, quota, now)
    decreases |e|
  {
    if e != [] {
      if Expired(e[0], now) {
        PassFollowsRule(e[1..], total - Allocated(e[0].size), quota, now);
        assert [e[0]] + e[1..] == e;
        RuleStep(e[0], e[1..], total, quota, now);
      } else {
        YoungerAreUnexpired(e, now);
        NoneExpired(e, now);
        GreedyTrims(e, total, quota, now);
        assert [] + Trimmed(e, total, quota) == Trimmed(e, total, quota);
      }
    }
  }

  lemma YoungerAreUnexpired(e: seq<Point>, now: int)
    requires ExpiryFollowsCreation(e) && e != [] && !Expired(e[0], now)
    ensures forall i :: 0 <= i < |e| ==> !Expired(e[i], now)
  {
  }

  lemma {:induction false} UnderKeepsAll(e: seq<Point>, total: int, quota: nat, now: int)
    requires !Over(total, quota)
    ensures GreedyKept(e, total, quota, now) == Unexpired(e, now)
  {
    if e != [] {
      UnderKeepsAll(e[1..], if Expired(e[0], now) then total - Allocated(e[0].size) else total, quota, now);
    }
  }

  lemma {:induction false} KeepsEndOfUnexpired(e: seq<Point>, total: int, quota: nat, now: int)
    ensures IsEnd(GreedyKept(e, total, quota, now), Unexpired(e, now))
  {
    if e != [] {
      if Expired(e[0], now) || Over(total, quota) {
        KeepsEndOfUnexpired(e[1..], total - Allocated(e[0].size), quota, now);
        EndStays(GreedyKept(e, total, quota, now), e[0], Unexpired(e[1..], now));
      } else {
        UnderKeepsAll(e, total, quota, now);
      }
    }
  }

  predicate IsEnd(a: seq<Point>, b: seq<Point>) {
    |a| <= |b| && a == b[|b| - |a|..]
  }

  lemma EndStays(a: seq<Point>, p: Point, b: seq<Point>)
    requires IsEnd(a, b)
    ensures IsEnd(a, [p] + b)
  {
    assert ([p] + b)[|b| + 1 - |a|..] == b[|b| - |a|..];
  }

  /** Where the first point that the rule keeps stands. */
  function FirstKept(e: seq<Point>, total: int, quota: nat, now: int): (k: nat)
    ensures k <= |e|
  {
    if e == [] then 0
    else if Expired(e[0], now) || Over(total - Total(AllExpired(e[1..], now)), quota)
      then 1 + FirstKept(e[1..], total - Allocated(e[0].size), quota, now)
    else 0
  }

  /**
   For any expiry dates: the pass keeps the same points as the rule exactly when the total is no
   longer over once everything expendable before the rule's first kept point is gone.
   */
  lemma {:induction false} PassFollowsRuleIff(e: seq<Point>, total: int, quota: nat, now: int)
    ensures GreedyKept(e, total, quota, now) == RuleKept(e, total, quota, now) <==>
      var k := FirstKept(e, total, quota, now);
      k == |e| || !Over(total - Total(e[..k]), quota)
    decreases |e|
  {
    if e != [] {
      var less := total - Allocated(e[0].size);
      var k := FirstKept(e, total, quota, now);
      assert [e[0]] + e[1..] == e;
      RuleStep(e[0], e[1..], total, quota, now);
      if k > 0 {
        PassFollowsRuleIff(e[1..], less, quota, now);
        assert e[..k] == [e[0]] + e[1..][..k - 1];
        Cons(e[0], e[1..][..k - 1]);
      } else {
        IffAtHead(e, total, quota, now);
      }
    }
  }

  lemma IffAtHead(e: seq<Point>, total: int, quota: nat, now: int)
    requires e != [] && FirstKept(e, total, quota, now) == 0
    ensures GreedyKept(e, total, quota, now) == Unexpired(e, now) <==> !Over(total, quota)
  {
    if Over(total, quota) {
      KeepsEndOfUnexpired(e[1..], total - Allocated(e[0].size), quota, now);
    } else {
      UnderKeepsAll(e, total, quota, now);
    }
  }

  /** The pass never keeps a point the rule deletes: what it keeps is an end part of what the rule keeps. */
  lemma {:induction false} PassKeepsNoMore(e: seq<Point>, total: int, quota: nat, now: int)
    ensures IsEnd(GreedyKept(e, total, quota, now), RuleKept(e, total, quota, now))
    decreases |e|
  {
    if e != [] {
      var less := total - Allocated(e[0].size);
      assert [e[0]] + e[1..] == e;
      RuleStep(e[0], e[1..], total, quota, now);
      if FirstKept(e, total, quota, now) > 0 {
        PassKeepsNoMore(e[1..], less, quota, now);
      } else {
        KeepsEndOfUnexpired(e, total, quota, now);
      }
    }
  }

  /** An old point that expires late and a younger one already expired: the pass deletes both, the rule only the second. */
  lemma LateExpiryDeletesMore()
    ensures var e := [Point(1, 0, 4096, 10), Point(2, 0, 4096, 0)];
      Total(e) == 8192 && Greedy(e, 8192, 8192, 5) == e && RuleKept(e, 8192, 8192, 5) == [e[0]]
  {
    var a, b := Point(1, 0, 4096, 10), Point(2, 0, 4096, 0);
    assert [a, b] == [a] + [b] && [b] == [b] + [];
    Cons(a, [b]);
    Cons(b, []);
    RuleStep(a, [b], 8192, 8192, 5);
    assert AllExpired([b], 5) == [b] + [];
    assert Unexpired([b], 5) == [];
    assert Greedy([b], 4096, 8192, 5) == [b] + [];
  }

  lemma {:induction false} KeptAndDeleted(e: seq<Point>, total: int, quota: nat, now: int)
    ensures Total(Greedy(e, total, quota, now)) + Total(GreedyKept(e, total, quota, now)) == Total(e)
  {
    if e != [] {
      var gone := Expired(e[0], now) || Over(total, quota);
      KeptAndDeleted(e[1..], if gone then total - Allocated(e[0].size) else total, quota, now);
      if gone {
        assert Greedy(e, total, quota, now)[1..] == Greedy(e[1..], total - Allocated(e[0].size), quota, now);
      } else {
        assert GreedyKept(e, total, quota, now)[1..] == GreedyKept(e[1..], total, quota, now);
      }
    }
  }

  /** A pass that completes ends at or below the target, or has no point left that it may delete. */
  lemma {:induction false} CompletedPassIsEnough(e: seq<Point>, total: int, quota: nat, now: int)
    ensures GreedyKept(e, total, quota, now) == []
      || 100 * (total - Total(Greedy(e, total, quota, now))) <= 75 * quota
  {
    if e != [] {
      var gone := Expired(e[0], now) || Over(total, quota);
      CompletedPassIsEnough(e[1..], if gone then total - Allocated(e[0].size) else total, quota, now);
      if gone {
        assert Greedy(e, total, quota, now)[1..] == Greedy(e[1..], total - Allocated(e[0].size), quota, now);
      }
    }
  }

  lemma {:induction false} GreedyDeletesFrom(e: seq<Point>, total: int, quota: nat, now: int, p: Point)
    requires p in Greedy(e, total, quota, now)
    ensures p in e
  {
    if e != [] && p != e[0] {
      GreedyDeletesFrom(e[1..], if Expired(e[0], now) || Over(total, quota) then total - Allocated(e[0].size) else total, quota, now, p);
    }
  }

  lemma {:induction false} ExpendableIsUnspared(ps: seq<Point>, newest: map<Project, Id>, p: Point)
    ensures p in Expendable(ps, newest) <==> p in ps && !Spared(p, newest)
  {
    if ps != [] {
      ExpendableIsUnspared(ps[1..], newest, p);
    }
  }

  /** Whatever the quota and the clock, the pass deletes no project's newest point. */
  lemma NewestSurvive(ps: seq<Point>, quota: nat, now: int, i: nat)
    requires DistinctIds(ps) && i < |ps| && IsNewest(ps, i)
    ensures ps[i] !in Greedy(Expendable(ps, NewestOf(ps)), Total(ps), quota, now)
  {
    SparedIffNewest(ps, i);
    ExpendableIsUnspared(ps, NewestOf(ps), ps[i]);
    if ps[i] in Greedy(Expendable(ps, NewestOf(ps)), Total(ps), quota, now) {
      GreedyDeletesFrom(Expendable(ps, NewestOf(ps)), Total(ps), quota, now, ps[i]);
    }
  }

  lemma {:induction false} IdsInPass(e: seq<Point>, total: int, quota: nat, now: int, p: Point)
    requires DistinctIds(e) && e != [] && p in Greedy(e[1..], total, quota, now)
    ensures p != e[0]
  {
    GreedyDeletesFrom(e[1..], total, quota, now, p);
    var i :| 0 <= i < |e| - 1 && e[1..][i] == p;
    assert e[i + 1] == p;
  }

  /**
   Exactly which points the pass deletes, in numbers: one that has expired, and one that it meets
   with more than 75 per cent of the allowance still in use once those deleted before it are gone.
   */
  lemma {:induction false} PassDeletesIff(e: seq<Point>, total: int, quota: nat, now: int, k: nat)
    requires DistinctIds(e) && k < |e|
    ensures e[k] in Greedy(e, total, quota, now) <==>
      e[k].expires <= now || 100 * (total - Total(Greedy(e[..k], total, quota, now))) > 75 * quota
    decreases |e|
  {
    var p := e[0];
    var gone := Expired(p, now) || Over(total, quota);
    var less := if gone then total - Allocated(p.size) else total;
    if k == 0 {
      if p in Greedy(e[1..], less, quota, now) {
        IdsInPass(e, less, quota, now, p);
      }
    } else {
      PassDeletesIff(e[1..], less, quota, now, k - 1);
      assert e[..k][1..] == e[1..][..k - 1];
      if gone {
        Cons(p, Greedy(e[..k][1..], less, quota, now));
      }
    }
  }

  /** So of a workspace's points every expired one goes but a project's newest, and none goes that need not. */
  lemma EveryExpiredGoes(ps: seq<Point>, quota: nat, now: int, i: nat)
    requires DistinctIds(ps) && i < |ps| && !IsNewest(ps, i) && ps[i].expires <= now
    ensures ps[i] in Greedy(Expendable(ps, NewestOf(ps)), Total(ps), quota, now)
  {
    var e := Expendable(ps, NewestOf(ps));
    SparedIffNewest(ps, i);
    ExpendableIsUnspared(ps, NewestOf(ps), ps[i]);
    ExpendableDistinct(ps, NewestOf(ps));
    var k :| 0 <= k < |e| && e[k] == ps[i];
    PassDeletesIff(e, Total(ps), quota, now, k);
  }

  lemma {:induction false} ExpendableDistinct(ps: seq<Point>, newest: map<Project, Id>)
    requires DistinctIds(ps)
    ensures DistinctIds(Expendable(ps, newest))
  {
    if ps != [] {
      ExpendableDistinct(ps[1..], newest);
      var rest := Expendable(ps[1..], newest);
      forall j | 0 <= j < |rest| ensures rest[j].id != ps[0].id {
        ExpendableIsUnspared(ps[1..], newest, rest[j]);
        var i :| 0 <= i < |ps| - 1 && ps[1..][i] == rest[j];
        assert ps[i + 1] == rest[j];
      }
    }
  }

  // ---- The pass as the worker runs it ----

  /** What becomes of one delete: an agent error may leave the archive or not, and the row delete may not happen. */
  datatype Fate = Fine | AgentFails(gone: bool) | RowFails

  predicate IsPrefix(a: seq<Point>, b: seq<Point>) {
    |a| <= |b| && a == b[..|a|]
  }

  function IdsOf(ps: seq<Point>): set<Id> {
    set p <- ps :: p.id
  }

  /** A recorded archive that still exists has a row. */
  predicate Accounted(recorded: set<Id>, rows: set<Id>, archives: set<Id>) {
    recorded * archives <= rows
  }

  class Store {
    var rows: set<Id>          // recovery_points
    var archives: set<Id>      // files the agent holds

    constructor (rows: set<Id>, archives: set<Id>)
      ensures this.rows == rows && this.archives == archives
    {
      this.rows, this.archives := rows, archives;
    }

    /** Archive first, then row: whatever fails, a recorded archive that still exists keeps its row. */
    method DeletePoint(id: Id, fate: Fate) returns (ok: bool)
      modifies this
      ensures ok <==> fate.Fine?
      ensures rows == (if ok then old(rows) - {id} else old(rows))
      ensures archives == (if fate.AgentFails? && !fate.gone then old(archives) else old(archives) - {id})
    {
      if fate.AgentFails? {
        if fate.gone {
          archives := archives - {id};
        }
        return false;
      }
      archives := archives - {id};
      if fate.RowFails? {
        return false;
      }
      rows := rows - {id};
      ok := true;
    }

    /**
     The deleted points are the first ones of the greedy list, all of them when nothing fails;
     only they lose their rows, and every archive that had a row and still exists has one.
     */
    method ApplyRetention(points: seq<Point>, quota: nat, now: int, fate: Id -> Fate) returns (ghost deleted: seq<Point>, completed: bool)
      requires DistinctIds(points)
      modifies this
      ensures IsPrefix(deleted, Greedy(Expendable(points, NewestOf(points)), Total(points), quota, now))
      ensures completed ==> deleted == Greedy(Expendable(points, NewestOf(points)), Total(points), quota, now)
      ensures (forall id :: fate(id).Fine?) ==> completed
      ensures rows == old(rows) - IdsOf(deleted)
      ensures Accounted(old(rows), rows, archives)
    {
      var newest := CollectNewest(points);
      var total := SumAllocated(points);
      assert points[0..] == points;
      ghost var rest;
      deleted, rest, completed := Pass(points, newest, total, quota, now, fate);
      IsPart(deleted, rest);
    }

    /** The loop over the points; rest is what it would still have deleted. */
    method Pass(points: seq<Point>, newest: map<Project, Id>, inUse: nat, quota: nat, now: int, fate: Id -> Fate)
      returns (ghost deleted: seq<Point>, ghost rest: seq<Point>, completed: bool)
      modifies this
      ensures deleted + rest == Ahead(points, 0, newest, inUse, quota, now) && (completed ==> rest == [])
      ensures (forall id :: fate(id).Fine?) ==> completed
      ensures rows == old(rows) - IdsOf(deleted) && Accounted(old(rows), rows, archives)
    {
      var total: int := inUse;
      deleted := [];
      ghost var all := Ahead(points, 0, newest, inUse, quota, now);
      rest := all;
      assert [] + all == all;
      var i := 0;
      while i < |points|
        invariant 0 <= i <= |points|
        invariant deleted + rest == all && rest == Ahead(points, i, newest, total, quota, now)
        invariant rows == old(rows) - IdsOf(deleted) && Accounted(old(rows), rows, archives)
      {
        var p := points[i];
        OneMore(points, i, newest, total, quota, now);
        if !Spared(p, newest) && (Expired(p, now) || Over(total, quota)) {
          var ok := DeletePoint(p.id, fate(p.id));
          if !ok {
            return deleted, rest, false;
          }
          total := total - Allocated(p.size);
          rest := Ahead(points, i + 1, newest, total, quota, now);
          Took(deleted, p, rest);
          deleted := deleted + [p];
        }
        i := i + 1;
      }
      completed := true;
    }
  }

  lemma IsPart(a: seq<Point>, b: seq<Point>)
    ensures IsPrefix(a, a + b) && (b == [] ==> a + b == a)
  {
  }

  /** What the pass has yet to delete when it comes to the point at i. */
  function Ahead(points: seq<Point>, i: nat, newest: map<Project, Id>, total: int, quota: nat, now: int): seq<Point>
    requires i <= |points|
  {
    Greedy(Expendable(points[i..], newest), total, quota, now)
  }

  lemma OneMore(points: seq<Point>, i: nat, newest: map<Project, Id>, total: int, quota: nat, now: int)
    requires i < |points|
    ensures var p := points[i];
      Ahead(points, i, newest, total, quota, now) ==
      if !Spared(p, newest) && (Expired(p, now) || Over(total, quota))
      then [p] + Ahead(points, i + 1, newest, total - Allocated(p.size), quota, now)
      else Ahead(points, i + 1, newest, total, quota, now)
  {
    assert points[i..][1..] == points[i + 1..];
    Cons(points[i], Expendable(points[i + 1..], newest));
  }

  lemma Took(deleted: seq<Point>, p: Point, rest: seq<Point>)
    ensures deleted + ([p] + rest) == deleted + [p] + rest
    ensures IdsOf(deleted + [p]) == IdsOf(deleted) + {p.id}
  {
  }

  method CollectNewest(points: seq<Point>) returns (newest: map<Project, Id>)
    requires DistinctIds(points)
    ensures newest == NewestOf(points)
    ensures forall i :: 0 <= i < |points| ==> (Spared(points[i], newest) <==> IsNewest(points, i))
  {
    newest := map[];
    for i := 0 to |points|
      invariant newest == NewestOf(points[..i])
    {
      assert points[..i + 1][..i] == points[..i];
      newest := newest[points[i].project := points[i].id];
    }
    assert points[..|points|] == points;
    forall i | 0 <= i < |points| ensures Spared(points[i], newest) <==> IsNewest(points, i) {
      SparedIffNewest(points, i);
    }
  }

  method SumAllocated(points: seq<Point>) returns (total: nat)
    ensures total == Total(points)
  {
    total := 0;
    var i := |points|;
    while i > 0
      invariant 0 <= i <= |points| && total == Total(points[i..])
    {
      i := i - 1;
      assert points[i..][1..] == points[i + 1..];
      total := total + Allocated(points[i].size);
    }
    assert points[0..] == points;
  }
}
