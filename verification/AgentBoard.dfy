/**
 The board of what each terminal's coding agent is doing.  Hooks post in the background, so
 posts arrive in any order; the board keeps the time of each terminal's latest accepted post,
 and a mark for removed terminals, to ignore the late ones.  The maps keep insertion order and
 drop their oldest entries past a cap, so they are sequences of pairs here.
 */
module AgentBoard {
  import opened Wrappers

  type Terminal = nat
  type Agent = nat
  type State = nat

  datatype Pair<V> = Pair(key: Terminal, value: V)

  function Without<V>(s: seq<Pair<V>>, t: Terminal): (r: seq<Pair<V>>)
    ensures |r| <= |s|
  {
    if s == [] then [] else if s[0].key == t then Without(s[1..], t) else [s[0]] + Without(s[1..], t)
  }

  function Get<V>(s: seq<Pair<V>>, t: Terminal): Option<V> {
    if s == [] then None else if s[0].key == t then Some(s[0].value) else Get(s[1..], t)
  }

  function Keys<V>(s: seq<Pair<V>>): set<Terminal> {
    if s == [] then {} else {s[0].key} + Keys(s[1..])
  }

  predicate Distinct<V>(s: seq<Pair<V>>) {
    s == [] || (s[0].key !in Keys(s[1..]) && Distinct(s[1..]))
  }

  /** The newest n pairs. */
  function Newest<V>(s: seq<Pair<V>>, n: nat): (r: seq<Pair<V>>)
    ensures |r| <= n && (|s| <= n ==> r == s)
  {
    if |s| > n then s[|s| - n..] else s
  }

  lemma {:induction false} WithoutFacts<V>(s: seq<Pair<V>>, t: Terminal, u: Terminal)
    requires Distinct(s)
    ensures Get(Without(s, t), u) == if u == t then None else Get(s, u)
    ensures Keys(Without(s, t)) == Keys(s) - {t} && Distinct(Without(s, t))
  {
    if s != [] {
      WithoutFacts(s[1..], t, u);
      var w := Without(s[1..], t);
      assert ([s[0]] + w)[1..] == w;
    }
  }

  lemma {:induction false} AppendFacts<V>(s: seq<Pair<V>>, p: Pair<V>, u: Terminal)
    requires Distinct(s) && p.key !in Keys(s)
    ensures Get(s + [p], u) == if u == p.key then Some(p.value) else Get(s, u)
    ensures Keys(s + [p]) == Keys(s) + {p.key} && Distinct(s + [p])
  {
    if s != [] {
      AppendFacts(s[1..], p, u);
      assert (s + [p])[1..] == s[1..] + [p];
    }
  }

  lemma {:induction false} NewestFacts<V>(s: seq<Pair<V>>, n: nat)
    requires Distinct(s)
    ensures Distinct(Newest(s, n)) && Keys(Newest(s, n)) <= Keys(s)
  {
    if |s| > n {
      NewestFacts(s[1..], n);
      assert Newest(s, n) == Newest(s[1..], n);
    }
  }

  /** Moving a key to the newest end with a new value, when nothing is dropped. */
  lemma PutFacts<V>(s: seq<Pair<V>>, t: Terminal, v: V, u: Terminal)
    requires Distinct(s)
    ensures var r := Without(s, t) + [Pair(t, v)];
      Get(r, u) == (if u == t then Some(v) else Get(s, u)) && Keys(r) == Keys(s) + {t} && Distinct(r)
  {
    WithoutFacts(s, t, u);
    AppendFacts(Without(s, t), Pair(t, v), u);
  }

  /** Distinct keys out of a set are no more than its members. */
  lemma {:induction false} KeysFit<V>(s: seq<Pair<V>>, all: set<Terminal>)
    requires Distinct(s) && Keys(s) <= all
    ensures |s| <= |all|
    decreases |s|
  {
    if s != [] {
      KeysFit(s[1..], all - {s[0].key});
    }
  }

  // ---- The board ----

  datatype Status = Status(agent: Agent, state: State, since: int)
  datatype Mark = Mark(at: int, removed: bool)

  datatype Board = Board(entries: seq<Pair<Status>>, fired: seq<Pair<Mark>>)

  datatype Event =
    | Post(t: Terminal, agent: Agent, state: State, at: int)
    | Clear(t: Terminal, at: int)
    | Remove(t: Terminal)

  function Accepts(b: Board, t: Terminal, at: int): bool {
    var last := Get(b.fired, t);
    last.None? || (!last.value.removed && last.value.at <= at)
  }

  function Remembered(b: Board, t: Terminal, at: int, removed: bool, max: nat): Board {
    b.(fired := Newest(Without(b.fired, t) + [Pair(t, Mark(at, removed))], 2 * max))
  }

  /** What a terminal shows: agent and state, whatever the time beside them. */
  function Shown(b: Board, t: Terminal): Option<(Agent, State)> {
    var e := Get(b.entries, t);
    if e.None? then None else Some((e.value.agent, e.value.state))
  }

  function After(b: Board, e: Event, now: int, max: nat): Board
    requires max > 0
  {
    match e
    case Post(t, agent, state, at) =>
      if !Accepts(b, t, at) then b
      else
        var r := Remembered(b, t, at, false, max);
        if Shown(b, t) == Some((agent, state)) then r
        else r.(entries := Newest(Without(b.entries, t), max - 1) + [Pair(t, Status(agent, state, now))])
    case Clear(t, at) =>
      if !Accepts(b, t, at) then b
      else Remembered(b, t, at, false, max).(entries := Without(b.entries, t))
    case Remove(t) =>
      var last := Get(b.fired, t);
      Remembered(b, t, if last.None? then 0 else last.value.at, true, max).(entries := Without(b.entries, t))
  }

  /** The clock reads now(i) when the i-th event arrives. */
  function Run(events: seq<Event>, now: nat -> int, max: nat): Board
    requires max > 0
  {
    if events == [] then Board([], [])
    else After(Run(events[..|events| - 1], now, max), events[|events| - 1], now(|events| - 1), max)
  }

  // ---- Bounds, for any input ----

  predicate Bounded(b: Board, max: nat) {
    |b.entries| <= max && |b.fired| <= 2 * max && Distinct(b.entries) && Distinct(b.fired)
  }

  lemma NewestPut<V>(s: seq<Pair<V>>, t: Terminal, v: V, n: nat, m: nat)
    requires Distinct(s)
    ensures Distinct(Without(s, t)) && Distinct(Newest(Without(s, t), n) + [Pair(t, v)]) && Distinct(Newest(Without(s, t) + [Pair(t, v)], m))
  {
    PutFacts(s, t, v, t);
    WithoutFacts(s, t, t);
    NewestFacts(Without(s, t), n);
    NewestFacts(Without(s, t) + [Pair(t, v)], m);
    AppendFacts(Newest(Without(s, t), n), Pair(t, v), t);
  }

  lemma {:induction false} AlwaysBounded(events: seq<Event>, now: nat -> int, max: nat)
    requires max > 0
    ensures Bounded(Run(events, now, max), max)
    decreases |events|
  {
    if events != [] {
      var n := |events| - 1;
      AlwaysBounded(events[..n], now, max);
      StepBounded(Run(events[..n], now, max), events[n], now(n), max);
    }
  }

  lemma RememberedBounded(b: Board, t: Terminal, at: int, removed: bool, max: nat)
    requires Bounded(b, max)
    ensures Bounded(Remembered(b, t, at, removed, max), max)
  {
    NewestPut(b.fired, t, Mark(at, removed), 2 * max, 2 * max);
  }

  lemma EntriesBounded(b: Board, t: Terminal, s: Status, max: nat)
    requires max > 0 && Bounded(b, max)
    ensures Bounded(b.(entries := Without(b.entries, t)), max)
    ensures Bounded(b.(entries := Newest(Without(b.entries, t), max - 1) + [Pair(t, s)]), max)
  {
    NewestPut(b.entries, t, s, max - 1, max);
  }

  lemma StepBounded(b: Board, e: Event, now: int, max: nat)
    requires max > 0 && Bounded(b, max)
    ensures Bounded(After(b, e, now, max), max)
  {
    var last := Get(b.fired, e.t);
    var at := if e.Remove? then (if last.None? then 0 else last.value.at) else e.at;
    RememberedBounded(b, e.t, at, e.Remove?, max);
    EntriesBounded(Remembered(b, e.t, at, e.Remove?, max), e.t, if e.Post? then Status(e.agent, e.state, now) else Status(0, 0, 0), max);
  }

  // ---- One terminal at a time ----

  /** What the board holds of one terminal. */
  datatype Cell = Cell(mark: Option<Mark>, shown: Option<(Agent, State)>)

  function CellOf(b: Board, t: Terminal): Cell {
    Cell(Get(b.fired, t), Shown(b, t))
  }

  function CellAfter(c: Cell, e: Event): Cell {
    if e.Remove? then Cell(Some(Mark(if c.mark.None? then 0 else c.mark.value.at, true)), None)
    else if c.mark.Some? && (c.mark.value.removed || e.at < c.mark.value.at) then c
    else Cell(Some(Mark(e.at, false)), if e.Post? then Some((e.agent, e.state)) else None)
  }

  function Terminals(events: seq<Event>): set<Terminal> {
    set e <- events :: e.t
  }

  /** While nothing is dropped, an event changes its own terminal's cell and no other. */
  lemma StepIsCellwise(b: Board, e: Event, now: int, max: nat, all: set<Terminal>, u: Terminal)
    requires max > 0 && Bounded(b, max) && Keys(b.entries) <= all && Keys(b.fired) <= all && e.t in all && |all| <= max
    ensures var r := After(b, e, now, max);
      CellOf(r, u) == (if u == e.t then CellAfter(CellOf(b, u), e) else CellOf(b, u)) && Keys(r.entries) <= all && Keys(r.fired) <= all
  {
    var t := e.t;
    var last := Get(b.fired, t);
    var mark := Mark(if e.Remove? then (if last.None? then 0 else last.value.at) else e.at, e.Remove?);
    PutFits(b.fired, t, mark, u, all);
    PutFits(b.entries, t, if e.Post? then Status(e.agent, e.state, now) else Status(0, 0, 0), u, all);
    WithoutFacts(b.entries, t, u);
  }

  lemma PutFits<V>(s: seq<Pair<V>>, t: Terminal, v: V, u: Terminal, all: set<Terminal>)
    requires Distinct(s) && Keys(s) <= all && t in all
    ensures var r := Without(s, t) + [Pair(t, v)];
      Get(r, u) == (if u == t then Some(v) else Get(s, u)) && Keys(r) <= all && |Without(s, t)| <= |all| - 1
  {
    PutFacts(s, t, v, u);
    KeysFit(Without(s, t) + [Pair(t, v)], all);
  }

  function CellRun(events: seq<Event>, t: Terminal): Cell {
    if events == [] then Cell(None, None)
    else
      var c := CellRun(events[..|events| - 1], t);
      var e := events[|events| - 1];
      if e.t == t then CellAfter(c, e) else c
  }

  lemma {:induction false} RunIsCellwise(events: seq<Event>, now: nat -> int, max: nat, all: set<Terminal>, t: Terminal)
    requires max > 0 && Terminals(events) <= all && |all| <= max
    ensures var b := Run(events, now, max);
      CellOf(b, t) == CellRun(events, t) && Keys(b.entries) <= all && Keys(b.fired) <= all
    decreases |events|
  {
    if events != [] {
      var n := |events| - 1;
      assert events[n] in events && events[n].t in Terminals(events);
      assert Terminals(events[..n]) <= Terminals(events);
      RunIsCellwise(events[..n], now, max, all, t);
      AlwaysBounded(events[..n], now, max);
      StepIsCellwise(Run(events[..n], now, max), events[n], now(n), max, all, t);
    }
  }

  // ---- What the events alone decide ----

  predicate IsPost(e: Event, t: Terminal) {
    e.t == t && !e.Remove?
  }

  /** No two different posts of a terminal fired at the same time. */
  predicate DistinctTimes(events: seq<Event>) {
    forall d, e :: d in events && e in events && IsPost(d, d.t) && IsPost(e, d.t) && d.at == e.at ==> d == e
  }

  function ShownBy(e: Event): Option<(Agent, State)> {
    if e.Post? then Some((e.agent, e.state)) else None
  }

  predicate FiredLast(e: Event, events: seq<Event>, t: Terminal) {
    e in events && IsPost(e, t) && forall d :: d in events && IsPost(d, t) ==> d.at <= e.at
  }

  /** A removed terminal shows nothing; any other what its post that fired last says. */
  ghost predicate Decides(events: seq<Event>, t: Terminal, shown: Option<(Agent, State)>) {
    if Remove(t) in events then shown == None
    else if exists e :: e in events && IsPost(e, t) then exists e :: FiredLast(e, events, t) && shown == ShownBy(e)
    else shown == None
  }

  /** The cell's mark tells whether the terminal was removed and when its latest post fired. */
  ghost predicate Tells(events: seq<Event>, t: Terminal, c: Cell) {
    && (Remove(t) in events ==> c.mark.Some? && c.mark.value.removed && c.shown == None)
    && (Remove(t) !in events && c.mark.None? ==> c.shown == None && forall e :: e in events ==> !IsPost(e, t))
    && (Remove(t) !in events && c.mark.Some? ==>
          !c.mark.value.removed && exists e :: FiredLast(e, events, t) && e.at == c.mark.value.at && c.shown == ShownBy(e))
  }

  lemma {:induction false} CellTells(events: seq<Event>, t: Terminal)
    requires DistinctTimes(events)
    ensures Tells(events, t, CellRun(events, t))
    decreases |events|
  {
    if events != [] {
      var n := |events| - 1;
      var before, e := events[..n], events[n];
      assert events == before + [e];
      CellTells(before, t);
      OneMoreTells(before, e, t, CellRun(before, t));
    }
  }

  lemma OneMoreTells(before: seq<Event>, e: Event, t: Terminal, c: Cell)
    requires DistinctTimes(before + [e]) && Tells(before, t, c)
    ensures Tells(before + [e], t, if e.t == t then CellAfter(c, e) else c)
  {
    var events := before + [e];
    assert forall d :: d in events <==> d in before || d == e;
    if Remove(t) !in events && e.t == t {
      if c.mark.None? || c.mark.value.at <= e.at {
        assert FiredLast(e, events, t);
      } else {
        var l :| FiredLast(l, before, t) && l.at == c.mark.value.at && c.shown == ShownBy(l);
        assert FiredLast(l, events, t);
      }
    } else if Remove(t) !in events && c.mark.Some? {
      var l :| FiredLast(l, before, t) && l.at == c.mark.value.at && c.shown == ShownBy(l);
      assert FiredLast(l, events, t);
    }
  }

  /** Over few enough terminals, in whatever order the events came, every terminal shows what the events decide. */
  lemma BoardShowsLatest(events: seq<Event>, now: nat -> int, max: nat, t: Terminal)
    requires max > 0 && |Terminals(events)| <= max && DistinctTimes(events)
    ensures Decides(events, t, Shown(Run(events, now, max), t))
  {
    RunIsCellwise(events, now, max, Terminals(events), t);
    CellTells(events, t);
    var c := CellRun(events, t);
    if Remove(t) !in events && c.mark.Some? {
      var l :| FiredLast(l, events, t) && l.at == c.mark.value.at && c.shown == ShownBy(l);
    }
  }

  lemma DecidedOnce(events: seq<Event>, other: seq<Event>, t: Terminal, a: Option<(Agent, State)>, b: Option<(Agent, State)>)
    requires DistinctTimes(events) && (forall e :: e in events <==> e in other) && Decides(events, t, a) && Decides(other, t, b)
    ensures a == b
  {
    if Remove(t) !in events && exists e :: e in events && IsPost(e, t) {
      var d :| FiredLast(d, events, t) && a == ShownBy(d);
      var e :| FiredLast(e, other, t) && b == ShownBy(e);
      assert d.at == e.at;
    }
  }

  /** Every arrival order of the same events, with any repeats, gives the same agent and state for each terminal. */
  lemma ArrivalOrderDoesNotMatter(events: seq<Event>, other: seq<Event>, now: nat -> int, then_: nat -> int, max: nat, t: Terminal)
    requires max > 0 && |Terminals(events)| <= max && DistinctTimes(events)
    requires forall e :: e in events <==> e in other
    ensures Shown(Run(events, now, max), t) == Shown(Run(other, then_, max), t)
  {
    assert Terminals(events) == Terminals(other);
    BoardShowsLatest(events, now, max, t);
    BoardShowsLatest(other, then_, max, t);
    DecidedOnce(events, other, t, Shown(Run(events, now, max), t), Shown(Run(other, then_, max), t));
  }

  // ---- Past the cap ----

  function PostOf(t: Terminal): Event { Post(t, 0, 0, 0) }

  /** One post each of terminals 0 to n - 1, and the same in the opposite order. */
  function Upwards(n: nat): (r: seq<Event>)
    ensures |r| == n && forall i :: 0 <= i < n ==> r[i] == PostOf(i)
  {
    if n == 0 then [] else Upwards(n - 1) + [PostOf(n - 1)]
  }

  function Downwards(n: nat): (r: seq<Event>)
    ensures |r| == n && forall i :: 0 <= i < n ==> r[i] == PostOf(n - 1 - i)
  {
    if n == 0 then [] else [PostOf(n - 1)] + Downwards(n - 1)
  }

  predicate Below<V>(s: seq<Pair<V>>, k: nat) {
    forall i :: 0 <= i < |s| ==> s[i].key < k
  }

  lemma {:induction false} NewKey<V>(s: seq<Pair<V>>, k: Terminal)
    requires Below(s, k)
    ensures k !in Keys(s) && Without(s, k) == s && Get(s, k) == None
  {
    if s != [] {
      NewKey(s[1..], k);
    }
  }

  lemma {:induction false} GoneKey<V>(s: seq<Pair<V>>, t: Terminal)
    requires forall i :: 0 <= i < |s| ==> s[i].key != t
    ensures Get(s, t) == None
  {
    if s != [] {
      GoneKey(s[1..], t);
    }
  }

  /** The newest of the keys 0 to n - 1, in that order, as many as fit. */
  predicate NewestKeys<V>(s: seq<Pair<V>>, n: nat, max: nat) {
    && |s| == (if n < max then n else max)
    && forall i :: 0 <= i < |s| ==> s[i].key == n - |s| + i
  }

  /** What posts of terminals 0 to n - 1 in that order leave. */
  predicate NewestLeft(b: Board, n: nat, max: nat) {
    Below(b.fired, n) && NewestKeys(b.entries, n, max)
  }

  lemma OneMoreKey<V>(s: seq<Pair<V>>, p: Pair<V>, n: nat, max: nat)
    requires max > 0 && NewestKeys(s, n, max) && p.key == n
    ensures Below(s, n) && NewestKeys(Newest(s, max - 1) + [p], n + 1, max)
  {
    var kept := Newest(s, max - 1);
    var gone := |s| - |kept|;
    var r := kept + [p];
    forall i | 0 <= i < |r| ensures r[i].key == n + 1 - |r| + i {
      if i < |kept| {
        assert r[i] == kept[i] == s[gone + i];
      }
    }
  }

  lemma NewPost(b: Board, n: nat, now: int, max: nat)
    requires max > 0 && Below(b.fired, n) && Below(b.entries, n)
    ensures After(b, PostOf(n), now, max) ==
      Board(Newest(b.entries, max - 1) + [Pair(n, Status(0, 0, now))], Newest(b.fired + [Pair(n, Mark(0, false))], 2 * max))
  {
    NewKey(b.fired, n);
    NewKey(b.entries, n);
  }

  lemma NewestBelow<V>(s: seq<Pair<V>>, p: Pair<V>, n: nat, m: nat)
    requires Below(s, n) && p.key == n
    ensures Below(Newest(s + [p], m), n + 1)
  {
  }

  lemma NewPostDropsOldest(b: Board, n: nat, now: int, max: nat)
    requires max > 0 && NewestLeft(b, n, max)
    ensures NewestLeft(After(b, PostOf(n), now, max), n + 1, max)
  {
    OneMoreKey(b.entries, Pair(n, Status(0, 0, now)), n, max);
    NewestBelow(b.fired, Pair(n, Mark(0, false)), n, 2 * max);
    NewPost(b, n, now, max);
  }

  lemma {:induction false} UpwardsLeavesNewest(n: nat, now: nat -> int, max: nat)
    requires max > 0
    ensures NewestLeft(Run(Upwards(n), now, max), n, max)
  {
    if n > 0 {
      assert Upwards(n)[..n - 1] == Upwards(n - 1);
      UpwardsLeavesNewest(n - 1, now, max);
      NewPostDropsOldest(Run(Upwards(n - 1), now, max), n - 1, now(n - 1), max);
    }
  }

  predicate Without0<V>(s: seq<Pair<V>>) {
    forall i :: 0 <= i < |s| ==> s[i].key > 0
  }

  lemma {:induction false} WithoutKeepsFrom0<V>(s: seq<Pair<V>>, t: Terminal)
    requires Without0(s)
    ensures Without0(Without(s, t))
  {
    if s != [] {
      WithoutKeepsFrom0(s[1..], t);
    }
  }

  lemma {:induction false} OthersOnly(events: seq<Event>, now: nat -> int, max: nat)
    requires max > 0 && forall i :: 0 <= i < |events| ==> events[i].Post? && events[i].t > 0
    ensures var b := Run(events, now, max); Without0(b.entries) && Without0(b.fired)
    decreases |events|
  {
    if events != [] {
      var n := |events| - 1;
      OthersOnly(events[..n], now, max);
      var b := Run(events[..n], now, max);
      WithoutKeepsFrom0(b.entries, events[n].t);
      WithoutKeepsFrom0(b.fired, events[n].t);
    }
  }

  /** Posted last, terminal 0 is shown. */
  lemma DownwardsShowsFirst(n: nat, now: nat -> int, max: nat)
    requires max > 0 && n > 0
    ensures Shown(Run(Downwards(n), now, max), 0) == Some((0, 0))
  {
    var events := Downwards(n);
    var b := Run(events[..n - 1], now, max);
    OthersOnly(events[..n - 1], now, max);
    GoneKey(b.fired, 0);
    GoneKey(b.entries, 0);
    WithoutKeepsFrom0(b.entries, 0);
    LastIsShown(Newest(Without(b.entries, 0), max - 1), Status(0, 0, now(n - 1)));
    assert events[n - 1] == PostOf(0);
  }

  lemma {:induction false} LastIsShown(s: seq<Pair<Status>>, v: Status)
    requires Without0(s)
    ensures Get(s + [Pair(0, v)], 0) == Some(v)
  {
    if s != [] {
      LastIsShown(s[1..], v);
      assert (s + [Pair(0, v)])[1..] == s[1..] + [Pair(0, v)];
    }
  }

  function Numbers(n: nat): set<Terminal> {
    if n == 0 then {} else Numbers(n - 1) + {n - 1}
  }

  lemma {:induction false} NumbersCount(n: nat)
    ensures |Numbers(n)| == n && forall t: Terminal :: t in Numbers(n) <==> t < n
  {
    if n > 0 {
      NumbersCount(n - 1);
    }
  }

  lemma UpwardsCovers(n: nat)
    ensures |Terminals(Upwards(n))| == n
    ensures forall e :: e in Upwards(n) <==> e == PostOf(e.t) && e.t < n
  {
    forall e ensures e in Upwards(n) <==> e == PostOf(e.t) && e.t < n {
      if e == PostOf(e.t) && e.t < n {
        assert Upwards(n)[e.t] == e;
      }
    }
    NumbersCount(n);
    forall t: Terminal ensures t in Terminals(Upwards(n)) <==> t in Numbers(n) {
      if t < n {
        assert PostOf(t) in Upwards(n) && PostOf(t).t == t;
      }
    }
    assert Terminals(Upwards(n)) == Numbers(n);
  }

  lemma SameEvents(n: nat)
    ensures DistinctTimes(Upwards(n)) && forall e :: e in Upwards(n) <==> e in Downwards(n)
  {
    UpwardsCovers(n);
    forall e | e in Upwards(n) ensures e in Downwards(n) {
      assert Downwards(n)[n - 1 - e.t] == e;
    }
    forall e | e in Downwards(n) ensures e in Upwards(n) {
      var i :| 0 <= i < n && Downwards(n)[i] == e;
      assert Upwards(n)[n - 1 - i] == e;
    }
  }

  /** Past any cap the order does matter: of more terminals than fit, the one posted first is gone, and posted last is shown. */
  lemma PastTheCapOrderMatters(n: nat, now: nat -> int, max: nat)
    requires 0 < max < n
    ensures |Terminals(Upwards(n))| == n && DistinctTimes(Upwards(n)) && forall e :: e in Upwards(n) <==> e in Downwards(n)
    ensures Shown(Run(Upwards(n), now, max), 0) == None && Shown(Run(Downwards(n), now, max), 0) == Some((0, 0))
  {
    UpwardsCovers(n);
    SameEvents(n);
    UpwardsLeavesNewest(n, now, max);
    GoneKey(Run(Upwards(n), now, max).entries, 0);
    DownwardsShowsFirst(n, now, max);
  }

  /** Two arrivals of the same events over n terminals. */
  ghost predicate Rearranged(events: seq<Event>, other: seq<Event>, n: nat) {
    |Terminals(events)| == n && DistinctTimes(events) && forall e :: e in events <==> e in other
  }

  predicate ShowAlike(events: seq<Event>, other: seq<Event>, now: nat -> int, then_: nat -> int, max: nat, t: Terminal)
    requires max > 0
  {
    Shown(Run(events, now, max), t) == Shown(Run(other, then_, max), t)
  }

  ghost predicate OrderNeverMatters(n: nat, max: nat)
    requires max > 0
  {
    forall events: seq<Event>, other: seq<Event>, now: nat -> int, then_: nat -> int, t: Terminal ::
      Rearranged(events, other, n) ==> ShowAlike(events, other, now, then_, max, t)
  }

  lemma UpwardsShowsOtherwise(n: nat, now: nat -> int, max: nat)
    requires 0 < max < n
    ensures Rearranged(Upwards(n), Downwards(n), n) && !ShowAlike(Upwards(n), Downwards(n), now, now, max, 0)
  {
    PastTheCapOrderMatters(n, now, max);
  }

  /** The order of arrival never matters over n terminals if and only if n is at most the cap. */
  lemma OrderNeverMattersIff(n: nat, max: nat)
    requires max > 0
    ensures OrderNeverMatters(n, max) <==> n <= max
  {
    if n <= max {
      forall events: seq<Event>, other: seq<Event>, now: nat -> int, then_: nat -> int, t: Terminal | Rearranged(events, other, n)
        ensures ShowAlike(events, other, now, then_, max, t)
      {
        ArrivalOrderDoesNotMatter(events, other, now, then_, max, t);
      }
    } else {
      UpwardsShowsOtherwise(n, (i: nat) => 0, max);
    }
  }

  // ---- The board as the agent keeps it ----

  class CodingAgentBoard {
    const max: nat
    var entries: seq<Pair<Status>>
    var fired: seq<Pair<Mark>>

    ghost function State(): Board
      reads this
    {
      Board(entries, fired)
    }

    constructor (max: nat)
      requires max > 0
      ensures this.max == max && State() == Board([], [])
    {
      this.max := max;
      entries, fired := [], [];
    }

    method Remember(t: Terminal, at: int, removed: bool)
      modifies this
      ensures State() == Remembered(old(State()), t, at, removed, max)
    {
      fired := Without(fired, t) + [Pair(t, Mark(at, removed))];
      ghost var all := fired;
      while |fired| > 2 * max
        invariant entries == old(entries) && Newest(fired, 2 * max) == Newest(all, 2 * max)
        decreases |fired|
      {
        assert Newest(fired[1..], 2 * max) == Newest(fired, 2 * max);
        fired := fired[1..];
      }
    }

    method Accept(t: Terminal, at: int) returns (ok: bool)
      modifies this
      ensures ok == Accepts(old(State()), t, at)
      ensures State() == if ok then Remembered(old(State()), t, at, false, max) else old(State())
    {
      var last := Get(fired, t);
      if last.Some? && (last.value.removed || at < last.value.at) {
        return false;
      }
      Remember(t, at, false);
      ok := true;
    }

    method DropOldest()
      requires max > 0
      modifies this
      ensures fired == old(fired) && entries == Newest(old(entries), max - 1)
    {
      while |entries| >= max
        invariant fired == old(fired) && Newest(entries, max - 1) == Newest(old(entries), max - 1)
        decreases |entries|
      {
        assert Newest(entries[1..], max - 1) == Newest(entries, max - 1);
        entries := entries[1..];
      }
    }

    /** Listeners are told exactly when what the terminal shows has changed. */
    method Set(t: Terminal, agent: Agent, state: State, at: int, now: int) returns (told: bool)
      requires max > 0
      modifies this
      ensures State() == After(old(State()), Post(t, agent, state, at), now, max)
      ensures told <==> Accepts(old(State()), t, at) && Shown(old(State()), t) != Some((agent, state))
    {
      var ok := Accept(t, at);
      if !ok {
        return false;
      }
      var existing := Get(entries, t);
      if existing.Some? && existing.value.agent == agent && existing.value.state == state {
        return false;
      }
      entries := Without(entries, t);
      DropOldest();
      entries := entries + [Pair(t, Status(agent, state, now))];
      told := true;
    }

    method ClearTerminal(t: Terminal, at: int) returns (told: bool)
      requires max > 0
      modifies this
      ensures State() == After(old(State()), Clear(t, at), 0, max)
      ensures told <==> Accepts(old(State()), t, at) && Shown(old(State()), t).Some?
    {
      var ok := Accept(t, at);
      if !ok {
        return false;
      }
      told := Get(entries, t).Some?;
      entries := Without(entries, t);
    }

    method RemoveTerminal(t: Terminal) returns (told: bool)
      requires max > 0
      modifies this
      ensures State() == After(old(State()), Remove(t), 0, max)
      ensures told <==> Shown(old(State()), t).Some?
    {
      var last := Get(fired, t);
      Remember(t, if last.None? then 0 else last.value.at, true);
      told := Get(entries, t).Some?;
      entries := Without(entries, t);
    }
  }
}
