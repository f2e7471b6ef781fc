/**
 The blocked-name counter: the buffer between flushes, and the flush that adds it to the table one day at a time, with a cap on distinct names at both
 places and one overflow bucket.  A JavaScript Map keeps insertion order, so tallies are
 sequences with one entry per key.
 */
module BlockedNames {
  import opened Wrappers
  import opened CountableNames

  const BLOCKED_NAMES_PER_DAY: nat := 2000

  // ---- Tallies ----

  datatype Source = Dns | Tls

  datatype Key = Key(day: int, source: Source, name: string)

  datatype Entry = Entry(key: Key, n: nat)

  type Tally = seq<Entry>

  predicate Has(t: Tally, key: Key) {
    exists e <- t :: e.key == key
  }

  function Add(t: Tally, key: Key, n: nat): Tally {
    if t == [] then [Entry(key, n)]
    else if t[0].key == key then [Entry(key, t[0].n + n)] + t[1..]
    else [t[0]] + Add(t[1..], key, n)
  }

  function AddAll(t: Tally, more: Tally): Tally {
    if more == [] then t else Add(AddAll(t, more[..|more| - 1]), more[|more| - 1].key, more[|more| - 1].n)
  }

  predicate At(key: Key, day: int, source: Source) {
    key.day == day && key.source == source
  }

  /** All that a day and source have been counted. */
  function Sum(t: Tally, day: int, source: Source): nat {
    if t == [] then 0 else (if At(t[0].key, day, source) then t[0].n else 0) + Sum(t[1..], day, source)
  }

  /** What one key has been counted. */
  function CountOf(t: Tally, key: Key): nat {
    if t == [] then 0 else (if t[0].key == key then t[0].n else 0) + CountOf(t[1..], key)
  }

  /** The distinct names of a day, the overflow bucket apart. */
  function Names(t: Tally, day: int): set<string> {
    if t == [] then {}
    else Names(t[1..], day) + if t[0].key.day == day && t[0].key.name != OTHER_NAMES then {t[0].key.name} else {}
  }

  lemma {:induction false} AddCounts(t: Tally, key: Key, n: nat, day: int, source: Source, other: Key)
    ensures Sum(Add(t, key, n), day, source) == Sum(t, day, source) + if At(key, day, source) then n else 0
    ensures CountOf(Add(t, key, n), other) == CountOf(t, other) + if key == other then n else 0
    ensures Names(Add(t, key, n), day) == Names(t, day) + if key.day == day && key.name != OTHER_NAMES then {key.name} else {}
  {
    if t != [] && t[0].key != key {
      AddCounts(t[1..], key, n, day, source, other);
      assert ([t[0]] + Add(t[1..], key, n))[1..] == Add(t[1..], key, n);
    }
  }

  lemma {:induction false} AddAllCounts(t: Tally, more: Tally, day: int, source: Source, other: Key)
    ensures Sum(AddAll(t, more), day, source) == Sum(t, day, source) + Sum(more, day, source)
    ensures CountOf(AddAll(t, more), other) == CountOf(t, other) + CountOf(more, other)
    ensures Names(AddAll(t, more), day) == Names(t, day) + Names(more, day)
    decreases |more|
  {
    if more != [] {
      var n := |more| - 1;
      AddAllCounts(t, more[..n], day, source, other);
      AddCounts(AddAll(t, more[..n]), more[n].key, more[n].n, day, source, other);
      Snoc(more[..n], more[n], day, source, other);
      assert more[..n] + [more[n]] == more;
    }
  }

  lemma {:induction false} Snoc(t: Tally, e: Entry, day: int, source: Source, other: Key)
    ensures Sum(t + [e], day, source) == Sum(t, day, source) + if At(e.key, day, source) then e.n else 0
    ensures CountOf(t + [e], other) == CountOf(t, other) + if e.key == other then e.n else 0
    ensures Names(t + [e], day) == Names(t, day) + if e.key.day == day && e.key.name != OTHER_NAMES then {e.key.name} else {}
  {
    if t != [] {
      Snoc(t[1..], e, day, source, other);
      assert (t + [e])[1..] == t[1..] + [e];
    }
  }

  // ---- Folding a day's rows under the cap ----

  /** The name a row is stored under, given the names the day already has. */
  function StoredName(name: string, known: set<string>): string {
    if name != OTHER_NAMES && name !in known && |known| >= BLOCKED_NAMES_PER_DAY then OTHER_NAMES else name
  }

  datatype Merge = Merge(merged: Tally, known: set<string>)

  function MergeOne(m: Merge, r: Entry): Merge {
    var name := StoredName(r.key.name, m.known);
    Merge(Add(m.merged, r.key.(name := name), r.n), if name == OTHER_NAMES then m.known else m.known + {name})
  }

  function Merged(rows: Tally, known: set<string>): Merge {
    if rows == [] then Merge([], known) else MergeOne(Merged(rows[..|rows| - 1], known), rows[|rows| - 1])
  }

  predicate OnDay(rows: Tally, day: int) {
    forall i :: 0 <= i < |rows| ==> rows[i].key.day == day
  }

  lemma MergeOneConserves(m: Merge, r: Entry, on: int, source: Source, key: Key)
    ensures var t := MergeOne(m, r);
      && Sum(t.merged, on, source) == Sum(m.merged, on, source) + (if At(r.key, on, source) then r.n else 0)
      && (key.name != OTHER_NAMES ==> CountOf(t.merged, key) <= CountOf(m.merged, key) + (if r.key == key then r.n else 0))
      && Names(t.merged, on) <= Names(m.merged, on) + (if r.key.day == on then t.known else {})
      && m.known <= t.known && (|m.known| <= BLOCKED_NAMES_PER_DAY ==> |t.known| <= BLOCKED_NAMES_PER_DAY)
  {
    var name := StoredName(r.key.name, m.known);
    AddCounts(m.merged, r.key.(name := name), r.n, on, source, key);
  }

  /** Merging keeps every day's and source's sum, gives no name more than it had, and respects the cap. */
  lemma {:induction false} MergeConserves(rows: Tally, known: set<string>, day: int, on: int, source: Source, key: Key)
    requires OnDay(rows, day)
    ensures var m := Merged(rows, known);
      && Sum(m.merged, on, source) == Sum(rows, on, source)
      && (key.name != OTHER_NAMES ==> CountOf(m.merged, key) <= CountOf(rows, key))
      && Names(m.merged, on) <= (if on == day then m.known else {})
      && known <= m.known && (|known| <= BLOCKED_NAMES_PER_DAY ==> |m.known| <= BLOCKED_NAMES_PER_DAY)
    decreases |rows|
  {
    if rows != [] {
      var n := |rows| - 1;
      var m, r := Merged(rows[..n], known), rows[n];
      MergeConserves(rows[..n], known, day, on, source, key);
      MergeOneConserves(m, r, on, source, key);
      Snoc(rows[..n], r, on, source, key);
      assert rows[..n] + [r] == rows;
    }
  }

  /** The entries whose day p holds of. */
  function Pick(t: Tally, p: int -> bool): (r: Tally)
    ensures |r| <= |t| && forall i :: 0 <= i < |r| ==> p(r[i].key.day)
  {
    if t == [] then []
    else if p(t[0].key.day) then [t[0]] + Pick(t[1..], p)
    else Pick(t[1..], p)
  }

  function OfDay(t: Tally, day: int): (r: Tally)
    ensures OnDay(r, day)
  {
    Pick(t, d => d == day)
  }

  function NotOfDay(t: Tally, day: int): (r: Tally)
    ensures |r| <= |t| && (t != [] && t[0].key.day == day ==> |r| < |t|)
  {
    Pick(t, d => d != day)
  }

  lemma Cons(e: Entry, t: Tally, day: int, source: Source, key: Key)
    ensures Sum([e] + t, day, source) == (if At(e.key, day, source) then e.n else 0) + Sum(t, day, source)
    ensures CountOf([e] + t, key) == (if e.key == key then e.n else 0) + CountOf(t, key)
    ensures Names([e] + t, day) == Names(t, day) + if e.key.day == day && e.key.name != OTHER_NAMES then {e.key.name} else {}
  {
    assert ([e] + t)[1..] == t;
  }

  /** Picking the days p holds of and those it does not parts a tally in two. */
  lemma {:induction false} PickSplits(t: Tally, p: int -> bool, q: int -> bool, on: int, source: Source, key: Key)
    requires forall d :: q(d) == !p(d)
    ensures Sum(Pick(t, p), on, source) + Sum(Pick(t, q), on, source) == Sum(t, on, source)
    ensures CountOf(Pick(t, p), key) + CountOf(Pick(t, q), key) == CountOf(t, key)
    ensures Names(Pick(t, q), on) <= Names(t, on)
    ensures !p(on) ==> Sum(Pick(t, p), on, source) == 0
  {
    if t != [] {
      PickSplits(t[1..], p, q, on, source, key);
      Cons(t[0], if p(t[0].key.day) then Pick(t[1..], p) else Pick(t[1..], q), on, source, key);
    }
  }

  lemma {:induction false} ConcatCounts(a: Tally, b: Tally, day: int, source: Source, key: Key)
    ensures Sum(a + b, day, source) == Sum(a, day, source) + Sum(b, day, source)
    ensures CountOf(a + b, key) == CountOf(a, key) + CountOf(b, key)
  {
    if a == [] {
      assert a + b == b;
    } else {
      ConcatCounts(a[1..], b, day, source, key);
      assert (a + b)[1..] == a[1..] + b;
    }
  }

  // ---- Whole runs ----

  datatype World = World(
    pending: Tally,     // counted since the last flush began
    flushes: seq<Tally>, // what each flush has taken and not yet written; a new one may begin before another ends
    stored: Tally,      // the table
    lost: Tally,        // dropped by a flush that failed
    pruned: Tally,      // deleted by age
    seen: Tally)        // every countable name that came, once each

  /** What becomes of a day's transaction, and whether its flush hears of it. */
  datatype Outcome = Committed | CommittedUnheard | Failed

  datatype Step = Count(raw: string, source: Source, day: int) | StartFlush | WriteDay(flush: nat, outcome: Outcome) | Prune(before: int)

  predicate Enabled(w: World, s: Step) {
    match s
    case WriteDay(k, _) => k < |w.flushes| && w.flushes[k] != []
    case _ => true
  }

  /** The key a name is buffered under. */
  function BufferKey(pending: Tally, key: Key): Key {
    if !Has(pending, key) && |pending| >= BLOCKED_NAMES_PER_DAY then key.(name := OTHER_NAMES) else key
  }

  function Counted(w: World, raw: string, source: Source, day: int): World {
    var name := CountableName(raw);
    if name.None? then w
    else
      var key := Key(day, source, name.value);
      w.(pending := Add(w.pending, BufferKey(w.pending, key), 1), seen := w.seen + [Entry(key, 1)])
  }

  /**
   One day's transaction of one flush, under the day's lock: all of its rows or none.  An error,
   even one that hides a commit, ends that flush and drops what it has left.
   */
  function Written(w: World, k: nat, outcome: Outcome): World
    requires k < |w.flushes| && w.flushes[k] != []
  {
    var batch := w.flushes[k];
    var day := batch[0].key.day;
    var rest := NotOfDay(batch, day);
    var after := AddAll(w.stored, Merged(OfDay(batch, day), Names(w.stored, day)).merged);
    match outcome
    case Committed => w.(stored := after, flushes := w.flushes[k := rest])
    case CommittedUnheard => w.(stored := after, lost := w.lost + rest, flushes := w.flushes[k := []])
    case Failed => w.(lost := w.lost + batch, flushes := w.flushes[k := []])
  }

  function Older(t: Tally, before: int): Tally {
    Pick(t, d => d < before)
  }

  function Younger(t: Tally, before: int): Tally {
    Pick(t, d => d >= before)
  }

  lemma AgesSplit(t: Tally, before: int, on: int, source: Source, key: Key)
    ensures Sum(Older(t, before), on, source) + Sum(Younger(t, before), on, source) == Sum(t, on, source)
    ensures CountOf(Older(t, before), key) + CountOf(Younger(t, before), key) == CountOf(t, key)
    ensures Names(Younger(t, before), on) <= Names(t, on)
    ensures before <= on ==> Sum(Older(t, before), on, source) == 0
  {
    PickSplits(t, d => d < before, d => d >= before, on, source, key);
  }

  function Next(w: World, s: Step): World
    requires Enabled(w, s)
  {
    match s
    case Count(raw, source, day) => Counted(w, raw, source, day)
    case StartFlush => if w.pending == [] then w else w.(flushes := w.flushes + [w.pending], pending := [])
    case WriteDay(k, outcome) => Written(w, k, outcome)
    case Prune(before) => w.(stored := Younger(w.stored, before), pruned := w.pruned + Older(w.stored, before))
  }

  function SumEach(ts: seq<Tally>, day: int, source: Source): nat {
    if ts == [] then 0 else Sum(ts[0], day, source) + SumEach(ts[1..], day, source)
  }

  function CountEach(ts: seq<Tally>, key: Key): nat {
    if ts == [] then 0 else CountOf(ts[0], key) + CountEach(ts[1..], key)
  }

  lemma {:induction false} EachUpdates(ts: seq<Tally>, k: nat, t: Tally, day: int, source: Source, key: Key)
    requires k < |ts|
    ensures SumEach(ts[k := t], day, source) + Sum(ts[k], day, source) == SumEach(ts, day, source) + Sum(t, day, source)
    ensures CountEach(ts[k := t], key) + CountOf(ts[k], key) == CountEach(ts, key) + CountOf(t, key)
  {
    if k > 0 {
      EachUpdates(ts[1..], k - 1, t, day, source, key);
      assert ts[k := t][1..] == ts[1..][k - 1 := t];
    } else {
      assert ts[0 := t][1..] == ts[1..];
    }
  }

  lemma {:induction false} EachAppends(ts: seq<Tally>, t: Tally, day: int, source: Source, key: Key)
    ensures SumEach(ts + [t], day, source) == SumEach(ts, day, source) + Sum(t, day, source)
    ensures CountEach(ts + [t], key) == CountEach(ts, key) + CountOf(t, key)
  {
    if ts == [] {
      assert ts + [t] == [t] && [t][1..] == [];
    } else {
      EachAppends(ts[1..], t, day, source, key);
      assert (ts + [t])[1..] == ts[1..] + [t];
    }
  }

  function SumAll(w: World, day: int, source: Source): nat {
    Sum(w.pending, day, source) + SumEach(w.flushes, day, source) + Sum(w.stored, day, source) + Sum(w.lost, day, source) + Sum(w.pruned, day, source)
  }

  function CountAll(w: World, key: Key): nat {
    CountOf(w.pending, key) + CountEach(w.flushes, key) + CountOf(w.stored, key) + CountOf(w.lost, key) + CountOf(w.pruned, key)
  }

  /** Entries that are not an overflow bucket. */
  function Named(t: Tally): nat {
    if t == [] then 0 else (if t[0].key.name == OTHER_NAMES then 0 else 1) + Named(t[1..])
  }

  lemma {:induction false} NamedAtMost(t: Tally)
    ensures Named(t) <= |t|
  {
    if t != [] { NamedAtMost(t[1..]); }
  }

  lemma {:induction false} AddNames(t: Tally, key: Key, n: nat)
    ensures Named(Add(t, key, n)) == Named(t) + if Has(t, key) || key.name == OTHER_NAMES then 0 else 1
  {
    if t != [] && t[0].key != key {
      AddNames(t[1..], key, n);
      assert ([t[0]] + Add(t[1..], key, n))[1..] == Add(t[1..], key, n);
      assert Has(t, key) <==> Has(t[1..], key);
    } else if t != [] {
      assert ([Entry(key, t[0].n + n)] + t[1..])[1..] == t[1..];
      assert t[0] in t;
    }
  }

  /** For one day, source and key: sums agree, no name is over-counted, and the caps hold. */
  predicate Kept(w: World, day: int, source: Source, key: Key) {
    && SumAll(w, day, source) == Sum(w.seen, day, source)
    && (key.name != OTHER_NAMES ==> CountAll(w, key) <= CountOf(w.seen, key))
    && |Names(w.stored, day)| <= BLOCKED_NAMES_PER_DAY
    && Named(w.pending) <= BLOCKED_NAMES_PER_DAY
  }

  lemma CountKeeps(w: World, raw: string, source: Source, day: int, on: int, of: Source, key: Key)
    requires Kept(w, on, of, key)
    ensures Kept(Counted(w, raw, source, day), on, of, key)
  {
    if CountableName(raw).Some? {
      CountedAsItself(raw);
      var k := Key(day, source, CountableName(raw).value);
      AddCounts(w.pending, BufferKey(w.pending, k), 1, on, of, key);
      Snoc(w.seen, Entry(k, 1), on, of, key);
      AddNames(w.pending, BufferKey(w.pending, k), 1);
      NamedAtMost(w.pending);
    }
  }

  /** What one day's transaction moves from the batch to the table. */
  lemma DayMoves(stored: Tally, batch: Tally, day: int, on: int, of: Source, key: Key)
    requires |Names(stored, on)| <= BLOCKED_NAMES_PER_DAY
    ensures var after := AddAll(stored, Merged(OfDay(batch, day), Names(stored, day)).merged);
      var rest := NotOfDay(batch, day);
      && Sum(after, on, of) + Sum(rest, on, of) == Sum(stored, on, of) + Sum(batch, on, of)
      && (key.name != OTHER_NAMES ==> CountOf(after, key) + CountOf(rest, key) <= CountOf(stored, key) + CountOf(batch, key))
      && |Names(after, on)| <= BLOCKED_NAMES_PER_DAY
  {
    var rows := OfDay(batch, day);
    var m := Merged(rows, Names(stored, day));
    PickSplits(batch, d => d == day, d => d != day, on, of, key);
    MergeConserves(rows, Names(stored, day), day, on, of, key);
    AddAllCounts(stored, m.merged, on, of, key);
    if on == day {
      Smaller(Names(stored, on) + Names(m.merged, on), m.known);
    } else {
      assert Names(stored, on) + Names(m.merged, on) == Names(stored, on);
    }
  }

  lemma WriteKeeps(w: World, k: nat, outcome: Outcome, on: int, of: Source, key: Key)
    requires k < |w.flushes| && w.flushes[k] != [] && Kept(w, on, of, key)
    ensures Kept(Written(w, k, outcome), on, of, key)
  {
    var batch := w.flushes[k];
    var rest := NotOfDay(batch, batch[0].key.day);
    DayMoves(w.stored, batch, batch[0].key.day, on, of, key);
    match outcome
    case Committed => EachUpdates(w.flushes, k, rest, on, of, key);
    case CommittedUnheard =>
      ConcatCounts(w.lost, rest, on, of, key);
      EachUpdates(w.flushes, k, [], on, of, key);
    case Failed =>
      ConcatCounts(w.lost, batch, on, of, key);
      EachUpdates(w.flushes, k, [], on, of, key);
  }

  lemma {:induction false} Smaller(a: set<string>, b: set<string>)
    requires a <= b
    ensures |a| <= |b|
    decreases |a|
  {
    if a != {} {
      var x :| x in a;
      Smaller(a - {x}, b - {x});
    }
  }

  lemma StepKeeps(w: World, s: Step, day: int, source: Source, key: Key)
    requires Enabled(w, s) && Kept(w, day, source, key)
    ensures Kept(Next(w, s), day, source, key)
  {
    match s
    case Count(raw, from, on) => CountKeeps(w, raw, from, on, day, source, key);
    case StartFlush => EachAppends(w.flushes, w.pending, day, source, key);
    case WriteDay(k, outcome) => WriteKeeps(w, k, outcome, day, source, key);
    case Prune(before) =>
      AgesSplit(w.stored, before, day, source, key);
      ConcatCounts(w.pruned, Older(w.stored, before), day, source, key);
      Smaller(Names(Younger(w.stored, before), day), Names(w.stored, day));
  }

  predicate Legal(states: seq<World>, steps: seq<Step>) {
    && |states| == |steps| + 1 && states[0] == World([], [], [], [], [], [])
    && forall i :: 0 <= i < |steps| ==> Enabled(states[i], steps[i]) && states[i + 1] == Next(states[i], steps[i])
  }

  lemma {:induction false} RunKeeps(states: seq<World>, steps: seq<Step>, i: nat, day: int, source: Source, key: Key)
    requires Legal(states, steps) && i <= |steps|
    ensures Kept(states[i], day, source, key)
  {
    if i > 0 {
      RunKeeps(states, steps, i - 1, day, source, key);
      StepKeeps(states[i - 1], steps[i - 1], day, source, key);
    }
  }

  predicate AllWritten(steps: seq<Step>) {
    forall i :: 0 <= i < |steps| ==> (steps[i].WriteDay? ==> steps[i].outcome == Committed)
  }

  lemma {:induction false} NothingLost(states: seq<World>, steps: seq<Step>, i: nat)
    requires Legal(states, steps) && AllWritten(steps) && i <= |steps|
    ensures states[i].lost == []
  {
    if i > 0 {
      NothingLost(states, steps, i - 1);
    }
  }

  lemma {:induction false} NotYetPruned(states: seq<World>, steps: seq<Step>, i: nat, day: int, source: Source)
    requires Legal(states, steps) && i <= |steps|
    requires forall j :: 0 <= j < |steps| && steps[j].Prune? ==> steps[j].before <= day
    ensures Sum(states[i].pruned, day, source) == 0
  {
    if i > 0 {
      NotYetPruned(states, steps, i - 1, day, source);
      if steps[i - 1].Prune? {
        var key := Key(day, source, "");
        AgesSplit(states[i - 1].stored, steps[i - 1].before, day, source, key);
        ConcatCounts(states[i - 1].pruned, Older(states[i - 1].stored, steps[i - 1].before), day, source, key);
      }
    }
  }

  /**
   Over any run in which the writes succeed, for each source of a day not yet pruned, what is
   stored and what is still buffered is exactly what was seen; no name is stored more often than
   it came; and no day stores more distinct names than its cap, besides the overflow bucket.
   */
  lemma EveryNameIsAccounted(states: seq<World>, steps: seq<Step>, i: nat, day: int, source: Source, key: Key)
    requires Legal(states, steps) && AllWritten(steps) && i <= |steps|
    requires forall j :: 0 <= j < |steps| && steps[j].Prune? ==> steps[j].before <= day
    ensures var w := states[i];
      && Sum(w.stored, day, source) + SumEach(w.flushes, day, source) + Sum(w.pending, day, source) == Sum(w.seen, day, source)
      && (key.name != OTHER_NAMES ==> CountOf(w.stored, key) <= CountOf(w.seen, key))
      && |Names(w.stored, day)| <= 2000
      && Named(w.pending) <= 2000
  {
    RunKeeps(states, steps, i, day, source, key);
    NothingLost(states, steps, i);
    NotYetPruned(states, steps, i, day, source);
  }

  /** Whatever writes fail: what is missing from a day and source is what failed flushes and prunes took, and no name is counted more often than it came. */
  lemma NeverOverCounted(states: seq<World>, steps: seq<Step>, i: nat, day: int, source: Source, key: Key)
    requires Legal(states, steps) && i <= |steps|
    ensures var w := states[i];
      && Sum(w.stored, day, source) + SumEach(w.flushes, day, source) + Sum(w.pending, day, source)
         == Sum(w.seen, day, source) - Sum(w.lost, day, source) - Sum(w.pruned, day, source)
      && (key.name != OTHER_NAMES ==>
            CountOf(w.stored, key) + CountEach(w.flushes, key) + CountOf(w.pending, key)
            <= CountOf(w.seen, key) - CountOf(w.lost, key) - CountOf(w.pruned, key))
      && |Names(w.stored, day)| <= 2000
  {
    RunKeeps(states, steps, i, day, source, key);
  }

  // ---- Below the cap every name is counted as itself ----

  function Keys(t: Tally): set<Key> {
    if t == [] then {} else {t[0].key} + Keys(t[1..])
  }

  lemma {:induction false} AddKeys(t: Tally, key: Key, n: nat)
    ensures Keys(Add(t, key, n)) == Keys(t) + {key}
    ensures |Add(t, key, n)| == |t| + if key in Keys(t) then 0 else 1
  {
    if t != [] && t[0].key != key {
      AddKeys(t[1..], key, n);
      assert ([t[0]] + Add(t[1..], key, n))[1..] == Add(t[1..], key, n);
    } else if t != [] {
      assert ([Entry(key, t[0].n + n)] + t[1..])[1..] == t[1..];
    }
  }

  lemma {:induction false} HasKey(t: Tally, key: Key)
    ensures Has(t, key) <==> key in Keys(t)
  {
    if t != [] {
      HasKey(t[1..], key);
      assert t == [t[0]] + t[1..];
      if Has(t[1..], key) {
        var e :| e in t[1..] && e.key == key;
        assert e in t;
      }
    }
  }

  lemma {:induction false} ConcatKeys(a: Tally, b: Tally)
    ensures Keys(a + b) == Keys(a) + Keys(b)
  {
    if a == [] {
      assert a + b == b;
    } else {
      ConcatKeys(a[1..], b);
      assert (a + b)[1..] == a[1..] + b;
    }
  }

  lemma {:induction false} AddAllKeys(t: Tally, more: Tally)
    ensures Keys(AddAll(t, more)) == Keys(t) + Keys(more)
    decreases |more|
  {
    if more != [] {
      var n := |more| - 1;
      AddAllKeys(t, more[..n]);
      AddKeys(AddAll(t, more[..n]), more[n].key, more[n].n);
      ConcatKeys(more[..n], [more[n]]);
      assert more[..n] + [more[n]] == more && [more[n]][1..] == [];
    }
  }

  lemma {:induction false} PickKeys(t: Tally, p: int -> bool)
    ensures Keys(Pick(t, p)) <= Keys(t)
  {
    if t != [] {
      PickKeys(t[1..], p);
      assert ([t[0]] + Pick(t[1..], p))[1..] == Pick(t[1..], p);
    }
  }

  /** The names that these keys count on a day. */
  function NamesIn(all: set<Key>, day: int): set<string> {
    set k | k in all && k.day == day :: k.name
  }

  lemma {:induction false} NoMoreNamesThanKeys(all: set<Key>, day: int)
    ensures |NamesIn(all, day)| <= |all|
    decreases |all|
  {
    if all != {} {
      var k :| k in all;
      NoMoreNamesThanKeys(all - {k}, day);
      var rest := NamesIn(all - {k}, day);
      assert NamesIn(all, day) <= rest + {k.name};
      Smaller(NamesIn(all, day), rest + {k.name});
    }
  }

  lemma {:induction false} NamesOfKeys(t: Tally, all: set<Key>, day: int)
    requires Keys(t) <= all
    ensures Names(t, day) <= NamesIn(all, day)
  {
    if t != [] {
      NamesOfKeys(t[1..], all, day);
      assert t[0].key in all;
    }
  }

  /** Few enough keys to leave room for each, none of them the overflow bucket's. */
  predicate RoomForAll(all: set<Key>) {
    |all| <= BLOCKED_NAMES_PER_DAY && forall k :: k in all ==> k.name != OTHER_NAMES
  }

  lemma StoredAsItself(known: set<string>, name: string, all: set<Key>, day: int)
    requires RoomForAll(all) && known <= NamesIn(all, day) && name in NamesIn(all, day)
    ensures StoredName(name, known) == name
  {
    NoMoreNamesThanKeys(all, day);
    if name !in known {
      Smaller(known + {name}, NamesIn(all, day));
    }
  }

  lemma {:induction false} MergeIsExact(rows: Tally, known: set<string>, all: set<Key>, day: int, key: Key)
    requires RoomForAll(all) && OnDay(rows, day) && Keys(rows) <= all && known <= NamesIn(all, day)
    ensures var m := Merged(rows, known);
      CountOf(m.merged, key) == CountOf(rows, key) && Keys(m.merged) <= all && m.known <= NamesIn(all, day)
    decreases |rows|
  {
    if rows != [] {
      var n := |rows| - 1;
      var r := rows[n];
      assert rows == rows[..n] + [r] && [r][1..] == [];
      ConcatKeys(rows[..n], [r]);
      MergeIsExact(rows[..n], known, all, day, key);
      var m := Merged(rows[..n], known);
      assert r.key in all;
      StoredAsItself(m.known, r.key.name, all, day);
      assert r.key.(name := r.key.name) == r.key;
      AddKeys(m.merged, r.key, r.n);
      AddCounts(m.merged, r.key, r.n, day, Dns, key);
      Snoc(rows[..n], r, day, Dns, key);
    }
  }

  predicate EachWithin(ts: seq<Tally>, all: set<Key>) {
    forall i :: 0 <= i < |ts| ==> Keys(ts[i]) <= all
  }

  /** Every tally counts only these keys, the buffer each once, and together they count each as often as it was seen. */
  ghost predicate Exact(w: World, all: set<Key>) {
    && Keys(w.pending) <= all && |w.pending| == |Keys(w.pending)|
    && EachWithin(w.flushes, all) && Keys(w.stored) <= all
    && forall key :: CountAll(w, key) == CountOf(w.seen, key)
  }

  lemma CountIsExact(w: World, raw: string, source: Source, day: int, all: set<Key>)
    requires RoomForAll(all) && Exact(w, all) && Keys(Counted(w, raw, source, day).seen) <= all
    ensures Exact(Counted(w, raw, source, day), all)
  {
    if CountableName(raw).Some? {
      var k := Key(day, source, CountableName(raw).value);
      ConcatKeys(w.seen, [Entry(k, 1)]);
      HasKey(w.pending, k);
      if k !in Keys(w.pending) {
        assert k in Keys([Entry(k, 1)]);
        SmallerKeys(Keys(w.pending) + {k}, all);
      }
      assert BufferKey(w.pending, k) == k;
      AddKeys(w.pending, k, 1);
      forall key ensures CountAll(Counted(w, raw, source, day), key) == CountOf(w.seen + [Entry(k, 1)], key) {
        AddCounts(w.pending, k, 1, day, source, key);
        Snoc(w.seen, Entry(k, 1), day, source, key);
      }
    }
  }

  lemma {:induction false} SmallerKeys(a: set<Key>, b: set<Key>)
    requires a <= b
    ensures |a| <= |b|
    decreases |a|
  {
    if a != {} {
      var x :| x in a;
      SmallerKeys(a - {x}, b - {x});
    }
  }

  lemma DayMovesExactly(stored: Tally, batch: Tally, day: int, all: set<Key>, key: Key)
    requires RoomForAll(all) && Keys(stored) <= all && Keys(batch) <= all
    ensures var after := AddAll(stored, Merged(OfDay(batch, day), Names(stored, day)).merged);
      && CountOf(after, key) + CountOf(NotOfDay(batch, day), key) == CountOf(stored, key) + CountOf(batch, key)
      && Keys(after) <= all && Keys(NotOfDay(batch, day)) <= all
  {
    var rows := OfDay(batch, day);
    PickKeys(batch, d => d == day);
    PickKeys(batch, d => d != day);
    PickSplits(batch, d => d == day, d => d != day, day, Dns, key);
    NamesOfKeys(stored, all, day);
    MergeIsExact(rows, Names(stored, day), all, day, key);
    AddAllCounts(stored, Merged(rows, Names(stored, day)).merged, day, Dns, key);
    AddAllKeys(stored, Merged(rows, Names(stored, day)).merged);
  }

  lemma WriteIsExact(w: World, k: nat, outcome: Outcome, all: set<Key>)
    requires RoomForAll(all) && Exact(w, all) && k < |w.flushes| && w.flushes[k] != []
    ensures Exact(Written(w, k, outcome), all)
  {
    var batch := w.flushes[k];
    var day := batch[0].key.day;
    var rest := NotOfDay(batch, day);
    var v := Written(w, k, outcome);
    forall key ensures CountAll(v, key) == CountOf(w.seen, key) && Keys(v.stored) <= all && Keys(rest) <= all {
      DayMovesExactly(w.stored, batch, day, all, key);
      EachUpdates(w.flushes, k, if outcome == Committed then rest else [], day, Dns, key);
      ConcatCounts(w.lost, if outcome == Failed then batch else rest, day, Dns, key);
      assert CountAll(w, key) == CountOf(w.seen, key);
    }
    var any := Key(0, Dns, "");
    assert CountAll(v, any) == CountOf(w.seen, any);
  }

  lemma StepIsExact(w: World, s: Step, all: set<Key>)
    requires RoomForAll(all) && Exact(w, all) && Enabled(w, s) && Keys(Next(w, s).seen) <= all
    ensures Exact(Next(w, s), all)
  {
    match s
    case Count(raw, source, day) => CountIsExact(w, raw, source, day, all);
    case StartFlush =>
      forall key ensures CountAll(Next(w, s), key) == CountOf(w.seen, key) {
        EachAppends(w.flushes, w.pending, 0, Dns, key);
        assert CountAll(w, key) == CountOf(w.seen, key);
      }
    case WriteDay(k, outcome) => WriteIsExact(w, k, outcome, all);
    case Prune(before) =>
      PickKeys(w.stored, d => d >= before);
      forall key ensures CountAll(Next(w, s), key) == CountOf(w.seen, key) {
        AgesSplit(w.stored, before, 0, Dns, key);
        ConcatCounts(w.pruned, Older(w.stored, before), 0, Dns, key);
        assert CountAll(w, key) == CountOf(w.seen, key);
      }
  }

  lemma SeenGrows(w: World, s: Step)
    requires Enabled(w, s)
    ensures Keys(w.seen) <= Keys(Next(w, s).seen)
  {
    if s.Count? && CountableName(s.raw).Some? {
      ConcatKeys(w.seen, [Entry(Key(s.day, s.source, CountableName(s.raw).value), 1)]);
    }
  }

  lemma {:induction false} RunIsExact(states: seq<World>, steps: seq<Step>, i: nat, all: set<Key>)
    requires Legal(states, steps) && i <= |steps| && RoomForAll(all) && Keys(states[i].seen) <= all
    ensures Exact(states[i], all)
  {
    if i > 0 {
      SeenGrows(states[i - 1], steps[i - 1]);
      RunIsExact(states, steps, i - 1, all);
      StepIsExact(states[i - 1], steps[i - 1], all);
    }
  }

  lemma {:induction false} SeenAreNames(states: seq<World>, steps: seq<Step>, i: nat, k: Key)
    requires Legal(states, steps) && i <= |steps| && k in Keys(states[i].seen)
    ensures k.name != OTHER_NAMES
  {
    if i > 0 {
      var w, s := states[i - 1], steps[i - 1];
      if k in Keys(w.seen) {
        SeenAreNames(states, steps, i - 1, k);
      } else {
        CountedAsItself(s.raw);
        ConcatKeys(w.seen, [Entry(Key(s.day, s.source, CountableName(s.raw).value), 1)]);
      }
    }
  }

  /**
   Over any run in which no more names were seen than the cap, counting a name apart for each day
   and source: every name, overflow never being used, is stored, buffered, dropped or pruned
   exactly as often as it came.
   */
  lemma EveryNameIsExact(states: seq<World>, steps: seq<Step>, i: nat, key: Key)
    requires Legal(states, steps) && i <= |steps| && |Keys(states[i].seen)| <= 2000
    ensures CountAll(states[i], key) == CountOf(states[i].seen, key)
    ensures key.name == OTHER_NAMES ==> CountAll(states[i], key) == 0
  {
    var all := Keys(states[i].seen);
    forall k | k in all ensures k.name != OTHER_NAMES {
      SeenAreNames(states, steps, i, k);
    }
    RunIsExact(states, steps, i, all);
    if key.name == OTHER_NAMES {
      NoCountWithoutKey(states[i].seen, key);
    }
  }

  lemma {:induction false} NoCountWithoutKey(t: Tally, key: Key)
    requires key !in Keys(t)
    ensures CountOf(t, key) == 0
  {
    if t != [] {
      NoCountWithoutKey(t[1..], key);
    }
  }

  // ---- A whole flush ----

  /** A flush takes all that is buffered and leaves the buffer empty; with nothing buffered it does nothing. */
  lemma FlushTakesAll(w: World)
    ensures var v := Next(w, StartFlush);
      && v.pending == [] && v.stored == w.stored && v.lost == w.lost && v.seen == w.seen
      && v.flushes == w.flushes + if w.pending == [] then [] else [w.pending]
  {
  }

  /** A flush of a batch as the steps of the machine above would do it. */
  function Flushed(stored: Tally, batch: Tally, outcome: int -> Outcome): (Tally, bool)
    decreases |batch|
  {
    if batch == [] then (stored, true)
    else
      var day := batch[0].key.day;
      var w := Written(World([], [batch], stored, [], [], []), 0, outcome(day));
      if outcome(day).Committed? then Flushed(w.stored, w.flushes[0], outcome) else (w.stored, false)
  }

  /** Every day of the batch commits, and is heard to. */
  predicate AllCommit(batch: Tally, outcome: int -> Outcome) {
    forall i :: 0 <= i < |batch| ==> outcome(batch[i].key.day).Committed?
  }

  lemma RestCommits(batch: Tally, day: int, outcome: int -> Outcome)
    requires batch != [] && day == batch[0].key.day && outcome(day).Committed?
    ensures AllCommit(NotOfDay(batch, day), outcome) <==> AllCommit(batch, outcome)
  {
    PickHas(batch, d => d != day);
  }

  lemma {:induction false} PickHas(t: Tally, p: int -> bool)
    ensures forall e :: e in Pick(t, p) <==> e in t && p(e.key.day)
  {
    if t != [] {
      PickHas(t[1..], p);
      assert t == [t[0]] + t[1..];
    }
  }

  /** A flush completes if and only if every day of its batch commits, and then the table has counted all of it. */
  lemma {:induction false} FlushCompletesIff(stored: Tally, batch: Tally, outcome: int -> Outcome, on: int, of: Source)
    requires |Names(stored, on)| <= BLOCKED_NAMES_PER_DAY
    ensures Flushed(stored, batch, outcome).1 <==> AllCommit(batch, outcome)
    ensures Flushed(stored, batch, outcome).1 ==>
      Sum(Flushed(stored, batch, outcome).0, on, of) == Sum(stored, on, of) + Sum(batch, on, of)
    decreases |batch|
  {
    if batch != [] {
      var day := batch[0].key.day;
      if outcome(day).Committed? {
        var w := Written(World([], [batch], stored, [], [], []), 0, Committed);
        DayMoves(stored, batch, day, on, of, Key(on, of, OTHER_NAMES));
        RestCommits(batch, day, outcome);
        FlushCompletesIff(w.stored, w.flushes[0], outcome, on, of);
      }
    }
  }

  // ---- The counter as the worker runs it ----

  class BlockedCounter {
    var pending: Tally
    var stored: Tally

    constructor ()
      ensures pending == [] && stored == []
    {
      pending, stored := [], [];
    }

    method CountName(raw: string, source: Source, day: int)
      modifies this
      ensures stored == old(stored)
      ensures forall w: World :: w.pending == old(pending) ==> pending == Counted(w, raw, source, day).pending
    {
      var name := CountableName(raw);
      if name.None? {
        return;
      }
      var key := Key(day, source, name.value);
      if !Has(pending, key) && |pending| >= BLOCKED_NAMES_PER_DAY {
        key := Key(day, source, OTHER_NAMES);
      }
      pending := Add(pending, key, 1);
    }

    /** One transaction per day, in the order the days first appear, until all are written or one fails. */
    method Flush(outcome: int -> Outcome) returns (completed: bool)
      modifies this
      ensures pending == []
      ensures (stored, completed) == Flushed(old(stored), old(pending), outcome)
    {
      var batch := pending;
      pending := [];
      while batch != []
        invariant pending == []
        invariant Flushed(stored, batch, outcome) == Flushed(old(stored), old(pending), outcome)
        decreases |batch|
      {
        var day := batch[0].key.day;
        if outcome(day).Failed? {
          return false;
        }
        WriteRows(OfDay(batch, day), day);
        if outcome(day).CommittedUnheard? {
          return false;
        }
        batch := NotOfDay(batch, day);
      }
      completed := true;
    }

    method WriteRows(rows: Tally, day: int)
      modifies this
      ensures pending == old(pending)
      ensures stored == AddAll(old(stored), Merged(rows, Names(old(stored), day)).merged)
    {
      var merged, known := [], Names(stored, day);
      for i := 0 to |rows|
        invariant Merge(merged, known) == Merged(rows[..i], Names(old(stored), day))
        invariant stored == old(stored) && pending == old(pending)
      {
        assert rows[..i + 1][..i] == rows[..i];
        var name := rows[i].key.name;
        if name != OTHER_NAMES && name !in known {
          if |known| >= BLOCKED_NAMES_PER_DAY {
            name := OTHER_NAMES;
          } else {
            known := known + {name};
          }
        }
        assert known == MergeOne(Merged(rows[..i], Names(old(stored), day)), rows[i]).known;
        merged := Add(merged, rows[i].key.(name := name), rows[i].n);
      }
      assert rows[..|rows|] == rows;
      for i := 0 to |merged|
        invariant stored == AddAll(old(stored), merged[..i]) && pending == old(pending)
      {
        assert merged[..i + 1][..i] == merged[..i];
        stored := Add(stored, merged[i].key, merged[i].n);
      }
      assert merged[..|merged|] == merged;
    }
  }
}
