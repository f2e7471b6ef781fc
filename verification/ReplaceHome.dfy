/**
 Replacing a home with an imported backup: the worker's repeated calls, the controller's swap
 of volumes one Incus request at a time, and the host's import, under lost replies, timeouts
 and restarts on either side.  An Incus request takes effect before it ends or not at all, the
 controller runs one swap of an instance at a time, and nothing is deleted meanwhile.
 */
module ReplaceHome {
  import opened Wrappers

  type Volume = nat

  /** A home kept under a name that ends in the second it was kept. */
  datatype KeptHome = KeptHome(at: nat, volume: Volume)

  datatype Volumes = Volumes(home: Option<Volume>, imported: Option<Volume>, kept: seq<KeptHome>, attached: bool)

  /** The newest kept home dated at or after floor, from a listing in any order. */
  function Newest(kept: seq<KeptHome>, floor: nat): (r: Option<KeptHome>)
    ensures r.Some? ==> r.value in kept && r.value.at >= floor
    ensures forall k :: k in kept && k.at >= floor ==> r.Some? && k.at <= r.value.at
  {
    if kept == [] then None else
    var n := |kept| - 1;
    var rest := Newest(kept[..n], floor);
    assert kept == kept[..n] + [kept[n]];
    if kept[n].at >= floor && (rest.None? || kept[n].at > rest.value.at) then Some(kept[n]) else rest
  }

  // ---- The controller's swap ----

  /** The Incus request a swap under way makes next. */
  datatype Stage = Look | Detach | Keep | Swap | Attach | Answer

  /** What the worker can tell apart: Retry covers a timeout and an unreachable Incus. */
  datatype Reply = Kept(at: nat) | Retry | NotFound | Failed

  datatype Progress = Onward(v: Volumes, stage: Stage) | Over(v: Volumes, reply: Reply)

  /** One request that Incus carries out and answers. */
  function Request(v: Volumes, stage: Stage, clock: nat): Progress {
    match stage
    case Look =>
      if v.imported.None? then (if v.attached then Over(v, NotFound) else Onward(v, Attach))
      else Onward(v, if v.attached then Detach else Keep)
    case Detach => Onward(v.(attached := false), Keep)
    case Keep =>
      if v.home.None? then Onward(v, Swap)
      else if exists k <- v.kept :: k.at == clock then Over(v, Failed)
      else Onward(v.(home := None, kept := v.kept + [KeptHome(clock, v.home.value)]), Swap)
    case Swap =>
      if v.imported.None? || v.home.Some? then Over(v, Failed)
      else Onward(v.(home := v.imported, imported := None), Attach)
    case Attach =>
      if v.home.None? then Over(v, Failed) else Onward(v.(attached := true), Answer)
    case Answer =>
      var newest := Newest(v.kept, 0);
      Over(v, if newest.Some? then Kept(newest.value.at) else Failed)
  }

  /** The request put the import in the home's place. */
  predicate Swaps(v: Volumes, stage: Stage) {
    stage == Swap && v.imported.Some? && v.home.None?
  }

  /**
   Which requests are refused: keeping the home under a name already taken, putting no import or
   putting one where a home stands, attaching no home; and a look at an attached home with no import.
   A refused request leaves the volumes as they are, and every other leads on.
   */
  lemma RefusedIff(v: Volumes, stage: Stage, clock: nat)
    requires stage != Answer
    ensures var p := Request(v, stage, clock);
      && (p.Over? <==>
            match stage
            case Look => v.attached && v.imported.None?
            case Detach => false
            case Keep => v.home.Some? && exists k <- v.kept :: k.at == clock
            case Swap => v.imported.None? || v.home.Some?
            case Attach => v.home.None?)
      && (p.Over? ==> p.v == v && p.reply == if stage == Look then NotFound else Failed)
  {
  }

  /** What the others change, one volume or device at a time, and which request comes next. */
  lemma RequestChanges(v: Volumes, stage: Stage, clock: nat)
    requires stage != Answer && Request(v, stage, clock).Onward?
    ensures var p := Request(v, stage, clock);
      match stage
      case Look => p.v == v && p.stage == if v.imported.None? then Attach else if v.attached then Detach else Keep
      case Detach => p.v == v.(attached := false) && p.stage == Keep
      case Keep => p.stage == Swap && p.v.home.None? && p.v.imported == v.imported && p.v.attached == v.attached
        && p.v.kept == v.kept + if v.home.Some? then [KeptHome(clock, v.home.value)] else []
      case Swap => p.v == v.(home := v.imported, imported := None) && p.stage == Attach
      case Attach => p.v == v.(attached := true) && p.stage == Answer
  {
  }

  // ---- Whole runs of one operation ----

  datatype ImportState = NotAsked | Pending | Claimed | Done | ImportFailed

  datatype Outcome = Open | Replaced(kept: nat) | Unchanged | Touched

  datatype Worker = Idle | Calling | Listing

  datatype World = World(
    v: Volumes,
    flight: Option<Stage>,
    worker: Worker,
    reply: Option<Reply>,       // the controller's answer on its way to a worker that still waits
    request: ImportState,
    outcome: Outcome,
    restore: bool,              // the restore request the operation names still exists
    since: nat,                 // the second the operation began
    clock: nat,
    called: bool,               // the controller was asked to swap
    requests: nat,              // import requests made
    swaps: nat,                 // imports put in the home's place
    arrived: Option<Volume>)    // the import that came last

  datatype Step =
    | Tick(seconds: nat)
    | SweepTurn
    | Arrive                          // a call made earlier reaches the controller
    | Go                              // the swap's next request is carried out and answered
    | Cut(applied: bool, other: bool) // it is carried out or not, and the swap ends in an error
    | Receive
    | Listed(ok: bool)
    | GiveUp                          // the worker times out or restarts
    | HostClaims | HostImports(volume: Volume) | HostReports(ok: bool)

  predicate Enabled(w: World, s: Step) {
    match s
    case Tick(_) => true
    case SweepTurn => w.worker == Idle && w.outcome == Open
    case Arrive => w.called && w.flight.None?
    case Go => w.flight.Some?
    case Cut(_, _) => w.flight.Some?
    case Receive => w.worker == Calling && w.reply.Some?
    case Listed(_) => w.worker == Listing
    case GiveUp => true
    case HostClaims => w.request == Pending
    case HostImports(_) => w.request == Claimed || w.request == ImportFailed
    case HostReports(ok) => w.request == Claimed || (!ok && w.request == Pending)
  }

  /** Time passes, the worker gives up, a request under way is carried out or cut, and a call made comes, whenever they may. */
  lemma OutsideIsFree(w: World, seconds: nat, applied: bool, other: bool)
    ensures Enabled(w, Tick(seconds)) && Enabled(w, GiveUp)
    ensures w.flight.Some? ==> Enabled(w, Go) && Enabled(w, Cut(applied, other))
    ensures w.called && w.flight.None? ==> Enabled(w, Arrive)
    ensures w.request == Pending ==> Enabled(w, HostClaims)
    ensures forall volume :: w.request == Claimed || w.request == ImportFailed ==> Enabled(w, HostImports(volume))
    ensures w.request == Claimed ==> Enabled(w, HostReports(true)) && Enabled(w, HostReports(false))
    ensures w.request == Pending ==> Enabled(w, HostReports(false))
    ensures Next(w, Tick(seconds)) == w.(clock := w.clock + seconds) && Next(w, GiveUp) == w.(worker := Idle, reply := None)
  {
  }

  /** The worker's turn on the pending operation, up to its call. */
  function Turn(w: World): World {
    if !w.restore then w.(outcome := Unchanged)
    else match w.request
      case NotAsked => w.(request := Pending, requests := w.requests + 1)
      case Pending => w
      case Claimed => w
      case ImportFailed => w.(outcome := Unchanged)
      case Done => w.(worker := Calling, reply := None, called := true)
  }

  /** The worker has the controller's answer. */
  function Received(w: World): World
    requires w.reply.Some?
  {
    var back := w.(worker := Idle, reply := None);
    match w.reply.value
    case Kept(at) => back.(outcome := Replaced(at))
    case Retry => back
    case NotFound => back.(worker := Listing)
    case Failed => back.(outcome := Touched)
  }

  /** The worker has listed the kept homes after a "not found". */
  function AfterListing(w: World, ok: bool): World {
    var back := w.(worker := Idle);
    if !ok then back
    else
      var newest := Newest(w.v.kept, w.since);
      back.(outcome := if newest.Some? then Replaced(newest.value.at) else Unchanged)
  }

  function Ended(w: World, reply: Reply): World {
    w.(flight := None, reply := if w.worker == Calling then Some(reply) else None)
  }

  function Gone(w: World): World
    requires w.flight.Some?
  {
    var f := w.flight.value;
    var more := if Swaps(w.v, f) then 1 else 0;
    match Request(w.v, f, w.clock)
    case Onward(v, g) => w.(v := v, flight := Some(g), swaps := w.swaps + more)
    case Over(v, reply) => Ended(w.(v := v), reply)
  }

  function Next(w: World, s: Step): World
    requires Enabled(w, s)
  {
    match s
    case Tick(n) => w.(clock := w.clock + n)
    case SweepTurn => Turn(w)
    case Arrive => w.(flight := Some(Look))
    case Go => Gone(w)
    case Cut(applied, other) => Ended(if applied then Gone(w) else w, if other then Failed else Retry)
    case Receive => Received(w)
    case Listed(ok) => AfterListing(w, ok)
    case GiveUp => w.(worker := Idle, reply := None)
    case HostClaims => w.(request := Claimed)
    case HostImports(volume) => w.(v := w.v.(imported := Some(volume)), arrived := Some(volume))
    case HostReports(ok) => w.(request := if ok then Done else ImportFailed)
  }

  /**
   A home volume to keep, attached unless an import waits or no earlier home could be taken for
   it, and every earlier kept home dated before the operation.
   */
  predicate SoundStart(w: World) {
    && w.v.home.Some? && (w.v.attached || w.v.imported.Some? || w.v.kept == [])
    && DatedBefore(w)
  }

  /** Every home kept earlier is dated before the operation. */
  predicate DatedBefore(w: World) {
    forall k :: k in w.v.kept ==> k.at < w.since
  }

  predicate Init(w: World) {
    && w.flight.None? && w.worker == Idle && w.reply.None? && w.request == NotAsked && w.outcome == Open
    && !w.called && w.requests == 0 && w.swaps == 0 && w.since <= w.clock && w.arrived == w.v.imported
  }

  ghost predicate Leads(w: World, steps: seq<Step>, v: World)
    decreases |steps|
  {
    if steps == [] then v == w
    else exists u: World {:trigger Leads(w, steps[..|steps| - 1], u)} ::
      Leads(w, steps[..|steps| - 1], u) && Enabled(u, steps[|steps| - 1]) && v == Next(u, steps[|steps| - 1])
  }

  ghost predicate Reached(start: World, w: World) {
    exists steps: seq<Step> :: Leads(start, steps, w)
  }

  /** A set of states that no step leaves. */
  ghost predicate Closed(R: World -> bool) {
    forall w, s :: R(w) && Enabled(w, s) ==> R(Next(w, s))
  }

  lemma ReachedIsClosed(start: World)
    ensures Closed(w => Reached(start, w)) && Reached(start, start)
  {
    assert Leads(start, [], start);
    forall w, s | Reached(start, w) && Enabled(w, s) ensures Reached(start, Next(w, s)) {
      var steps: seq<Step> :| Leads(start, steps, w);
      assert (steps + [s])[..|steps|] == steps;
      assert Leads(start, steps + [s], Next(w, s));
    }
  }

  lemma Take(R: World -> bool, w: World, s: Step) returns (v: World)
    requires Closed(R) && R(w) && Enabled(w, s)
    ensures v == Next(w, s) && R(v)
  {
    v := Next(w, s);
  }

  // ---- The invariant, by where the volumes stand ----

  /** The home is where it was. */
  predicate Before(v: Volumes, start: Volumes, arrived: Option<Volume>) {
    v.home == start.home && v.kept == start.kept && (v.attached || v.imported.Some? || v.kept == []) && v.imported == arrived
  }

  /** No import came, the home stands detached, and there is no kept home to name. */
  predicate NothingToName(v: Volumes, start: Volumes, arrived: Option<Volume>) {
    Before(v, start, arrived) && v.imported.None? && v.kept == []
  }

  /** The old home has been kept under its new name. */
  predicate KeptAway(v: Volumes, start: Volumes, since: nat) {
    |v.kept| == |start.kept| + 1 && v.kept[..|start.kept|] == start.kept
    && start.home == Some(v.kept[|start.kept|].volume) && v.kept[|start.kept|].at >= since
  }

  predicate Between(v: Volumes, start: Volumes, since: nat, arrived: Option<Volume>) {
    v.home.None? && v.imported.Some? && v.imported == arrived && !v.attached && KeptAway(v, start, since)
  }

  predicate Swapped(v: Volumes, start: Volumes, since: nat, arrived: Option<Volume>) {
    v.home.Some? && v.home == arrived && v.imported.None? && KeptAway(v, start, since)
  }

  /** The volumes, the swaps so far and a swap under way agree. */
  predicate Coherent(v: Volumes, f: Option<Stage>, swaps: nat, start: Volumes, since: nat, arrived: Option<Volume>) {
    match f
    case None => Standing(v, swaps, start, since, arrived)
    case Some(stage) =>
      match stage
      case Look => Standing(v, swaps, start, since, arrived)
      case Detach => Before(v, start, arrived) && swaps == 0 && v.imported.Some?
      case Keep => Standing(v, swaps, start, since, arrived) && v.imported.Some? && !v.attached
      case Swap => Between(v, start, since, arrived) && swaps == 0
      case Attach => Renamed(v, swaps, start, since, arrived)
      case Answer => Renamed(v, swaps, start, since, arrived) && v.attached
  }

  /** The home is in its place again, or was never away. */
  predicate Renamed(v: Volumes, swaps: nat, start: Volumes, since: nat, arrived: Option<Volume>) {
    || (swaps == 1 && Swapped(v, start, since, arrived))
    || (swaps == 0 && NothingToName(v, start, arrived))
  }

  predicate Standing(v: Volumes, swaps: nat, start: Volumes, since: nat, arrived: Option<Volume>) {
    || (swaps == 0 && Before(v, start, arrived))
    || (swaps == 0 && Between(v, start, since, arrived))
    || (swaps == 1 && Swapped(v, start, since, arrived))
  }

  /** The import is gone and the home attached, so that no swap can change anything any more. */
  predicate Still(w: World) {
    w.v.attached && w.v.imported.None? && w.request == Done && (w.flight.Some? ==> w.flight.value == Look)
  }

  predicate Inv(w: World, start: World) {
    && w.since == start.since <= w.clock
    && Coherent(w.v, w.flight, w.swaps, start.v, w.since, w.arrived)
    && (w.called ==> w.request == Done && w.restore)
    && (!w.called ==> w.swaps == 0 && Before(w.v, start.v, w.arrived))
    && (w.flight.Some? || w.worker != Idle ==> w.called)
    && w.requests == (if w.request == NotAsked then 0 else 1)
    && (w.reply.Some? ==> w.worker == Calling)
    && (w.worker != Idle ==> w.outcome == Open)
    && (w.reply == Some(NotFound) || w.worker == Listing ==> Still(w))
    && (w.reply.Some? && w.reply.value.Kept? ==> FinishedAs(w, start, w.reply.value.at))
    && (w.outcome.Unchanged? ==> w.swaps == 0 && Before(w.v, start.v, w.arrived) && (w.called ==> Still(w)))
    && (w.outcome.Replaced? ==> w.request == Done && FinishedAs(w, start, w.outcome.kept))
    && (w.outcome.Touched? ==> w.request == Done)
  }

  /** Swapped once, with the old home kept as named. */
  predicate FinishedAs(w: World, start: World, at: nat) {
    w.swaps == 1 && Still(w) && Swapped(w.v, start.v, w.since, w.arrived) && w.v.kept[|start.v.kept|].at == at
  }

  /** With the earlier ones dated before, the newest kept home is the one this operation made. */
  lemma NewestIsMine(v: Volumes, start: World, floor: nat)
    requires DatedBefore(start) && KeptAway(v, start.v, start.since) && floor <= start.since
    ensures Newest(v.kept, floor) == Some(v.kept[|start.v.kept|])
  {
    var mine := v.kept[|start.v.kept|];
    var r := Newest(v.kept, floor);
    assert mine in v.kept;
    forall i | 0 <= i < |start.v.kept| ensures v.kept[i].at < start.since {
      assert v.kept[..|start.v.kept|][i] == v.kept[i];
      assert start.v.kept[i] in start.v.kept;
    }
  }

  lemma FreeName(v: Volumes, start: World, clock: nat)
    requires DatedBefore(start) && v.kept == start.v.kept && start.since <= clock
    ensures !exists k <- v.kept :: k.at == clock
  {
  }

  /** What an answered request does to a coherent state. */
  lemma RequestKeepsCoherent(v: Volumes, f: Stage, swaps: nat, clock: nat, start: World, arrived: Option<Volume>)
    requires SoundStart(start) && start.since <= clock && Coherent(v, Some(f), swaps, start.v, start.since, arrived)
    ensures var more := if Swaps(v, f) then 1 else 0;
      var p := Request(v, f, clock);
      && (p.Onward? ==> Coherent(p.v, Some(p.stage), swaps + more, start.v, start.since, arrived))
      && (p.Over? ==> p.v == v && more == 0 && !p.reply.Retry? && (p.reply == Failed ==> swaps == 0 && v.imported.None?))
      && (p.Over? && p.reply.NotFound? ==> f == Look && v.attached && v.imported.None?)
      && (p.Over? && p.reply.Kept? ==> f == Answer && swaps == 1 && p.reply.at == v.kept[|start.v.kept|].at)
  {
    match f
    case Keep =>
      if v.kept == start.v.kept {
        FreeName(v, start, clock);
      }
      KeepKeepsCoherent(v, f, swaps, clock, start, arrived);
    case Answer =>
      if swaps == 1 {
        NewestIsMine(v, start, 0);
      }
    case _ =>
  }

  lemma KeepKeepsCoherent(v: Volumes, f: Stage, swaps: nat, clock: nat, start: World, arrived: Option<Volume>)
    requires SoundStart(start) && start.since <= clock && f == Keep && Coherent(v, Some(f), swaps, start.v, start.since, arrived)
    ensures var p := Request(v, f, clock);
      p.Onward? && Coherent(p.v, Some(p.stage), swaps, start.v, start.since, arrived)
  {
    var p := Request(v, f, clock);
    if v.home.Some? {
      assert Before(v, start.v, arrived);
      FreeName(v, start, clock);
      assert p.v.kept[..|start.v.kept|] == start.v.kept;
    }
  }

  /** A swap cut short leaves the volumes where another can take over. */
  lemma CutStands(v: Volumes, f: Stage, swaps: nat, start: World, arrived: Option<Volume>)
    requires Coherent(v, Some(f), swaps, start.v, start.since, arrived)
    ensures Standing(v, swaps, start.v, start.since, arrived)
  {
  }

  lemma GoKeepsInv(w: World, start: World)
    requires SoundStart(start) && Inv(w, start) && w.flight.Some?
    ensures Inv(Gone(w), start)
    ensures Standing(Gone(w).v, Gone(w).swaps, start.v, start.since, w.arrived)
  {
    RequestKeepsCoherent(w.v, w.flight.value, w.swaps, w.clock, start, w.arrived);
    CutStands(w.v, w.flight.value, w.swaps, start, w.arrived);
    if Gone(w).flight.Some? {
      CutStands(Gone(w).v, Gone(w).flight.value, Gone(w).swaps, start, w.arrived);
    }
  }

  lemma CutKeepsInv(w: World, start: World, reply: Reply)
    requires SoundStart(start) && Inv(w, start) && (reply == Retry || reply == Failed)
    requires Standing(w.v, w.swaps, start.v, start.since, w.arrived)
    ensures Inv(Ended(w, reply), start)
  {
  }

  lemma ListedKeepsInv(w: World, start: World, ok: bool)
    requires SoundStart(start) && Inv(w, start) && w.worker == Listing
    ensures Inv(AfterListing(w, ok), start)
  {
    if w.swaps == 1 {
      NewestIsMine(w.v, start, w.since);
    } else {
      assert Before(w.v, start.v, w.arrived);
    }
  }

  lemma StepKeepsInv(w: World, start: World, s: Step)
    requires SoundStart(start) && Inv(w, start) && Enabled(w, s)
    ensures Inv(Next(w, s), start)
  {
    match s
    case Go => GoKeepsInv(w, start);
    case Cut(applied, other) =>
      CutStands(w.v, w.flight.value, w.swaps, start, w.arrived);
      GoKeepsInv(w, start);
      CutKeepsInv(if applied then Gone(w) else w, start, if other then Failed else Retry);
    case Listed(ok) => ListedKeepsInv(w, start, ok);
    case _ =>
  }

  lemma {:induction false} RunKeepsInv(start: World, steps: seq<Step>, w: World)
    requires Init(start) && SoundStart(start) && Leads(start, steps, w)
    ensures Inv(w, start)
    decreases |steps|
  {
    if steps != [] {
      var before := steps[..|steps| - 1];
      var s := steps[|steps| - 1];
      var u: World :| Leads(start, before, u) && Enabled(u, s) && w == Next(u, s);
      RunKeepsInv(start, before, u);
      StepKeepsInv(u, start, s);
    }
  }

  /**
   In every run: the import takes the home's place at most once and at most one import request
   is made.  "Replaced" means exactly one swap and names the volume that holds the old home;
   "unchanged" means no swap, and the same home under the same name, for good.
   */
  lemma ExactlyOnce(start: World, steps: seq<Step>, w: World)
    requires Init(start) && SoundStart(start) && Leads(start, steps, w)
    ensures w.swaps <= 1 && w.requests <= 1
    ensures w.outcome.Replaced? ==> w.swaps == 1 && w.requests == 1 && w.v.home.Some? && w.v.home == w.arrived && w.v.attached
    ensures w.outcome.Replaced? ==>
      KeptHome(w.outcome.kept, start.v.home.value) in w.v.kept && (forall k :: k in w.v.kept ==> k.at <= w.outcome.kept)
    ensures w.outcome.Unchanged? ==> w.swaps == 0 && w.v.home == start.v.home && w.v.kept == start.v.kept
    ensures w.outcome.Touched? ==> w.requests == 1
    ensures w.v.home == start.v.home || exists k :: k in w.v.kept && Some(k.volume) == start.v.home
  {
    RunKeepsInv(start, steps, w);
    assert Standing(w.v, w.swaps, start.v, start.since, w.arrived) by {
      if w.flight.Some? { CutStands(w.v, w.flight.value, w.swaps, start, w.arrived); }
    }
    if !Before(w.v, start.v, w.arrived) {
      assert w.v.kept[|start.v.kept|] in w.v.kept;
    }
    if w.outcome.Replaced? {
      NewestIsMine(w.v, start, 0);
    }
  }

  // ---- When an operation ends ----

  /**
   One turn of the worker: with the restore request gone or the import failed it ends with the
   home untouched; a pending or claimed import leaves everything as it was; with none asked for
   yet it asks for one, and with one done it calls the controller.
   */
  lemma TurnDecides(w: World)
    requires Enabled(w, SweepTurn)
    ensures var v := Next(w, SweepTurn);
      && (!w.restore || w.request == ImportFailed ==> v == w.(outcome := Unchanged))
      && (w.restore && (w.request == Pending || w.request == Claimed) ==> v == w)
      && (w.restore && w.request == NotAsked ==> v == w.(request := Pending, requests := w.requests + 1))
      && (w.restore && w.request == Done ==> v == w.(worker := Calling, reply := None, called := true))
  {
  }

  /**
   What the controller's answer decides: a kept home ends the operation as replaced, an error
   other than "not found" as touched; a timeout or an unreachable Incus leaves it to the next
   turn, and "not found" to the listing.
   */
  lemma AnswerDecides(w: World)
    requires Enabled(w, Receive)
    ensures var v := Next(w, Receive);
      && v == w.(reply := None, worker := v.worker, outcome := v.outcome)
      && (v.worker == if w.reply == Some(NotFound) then Listing else Idle)
      && (w.reply == Some(Failed) ==> v.outcome == Touched)
      && (w.reply == Some(Retry) || w.reply == Some(NotFound) ==> v.outcome == w.outcome)
      && (w.reply.value.Kept? ==> v.outcome == Replaced(w.reply.value.at))
  {
  }

  /** The listing ends it with the newest kept home of the operation's own time, or untouched when there is none. */
  lemma ListingEnds(w: World, ok: bool)
    requires Enabled(w, Listed(ok))
    ensures var v := Next(w, Listed(ok));
      && v == w.(worker := Idle, outcome := v.outcome)
      && (!ok ==> v.outcome == w.outcome)
      && (ok && v.outcome.Replaced? ==> exists k <- w.v.kept :: k.at == v.outcome.kept)
      && (ok && v.outcome.Replaced? ==> v.outcome.kept >= w.since && forall k :: k in w.v.kept ==> k.at <= v.outcome.kept)
      && (ok && !v.outcome.Replaced? ==> v.outcome == Unchanged && forall k :: k in w.v.kept ==> k.at < w.since)
  {
    var newest := Newest(w.v.kept, w.since);
    if newest.Some? {
      assert newest.value in w.v.kept;
    }
  }

  /** Nothing else ends an operation, and no step but the worker's own three does. */
  lemma OnlyTheseEnd(w: World, s: Step)
    requires Enabled(w, s) && Next(w, s).outcome != w.outcome
    ensures s == SweepTurn || s == Receive || s.Listed?
  {
  }

  /** The worker is at work on open operations alone, and calls follow a finished import. */
  predicate InOrder(w: World) {
    && (w.worker != Idle ==> w.outcome == Open && w.called)
    && (w.flight.Some? ==> w.called) && (w.called ==> w.request == Done && w.restore)
  }

  lemma StepInOrder(w: World, s: Step)
    requires InOrder(w) && Enabled(w, s)
    ensures InOrder(Next(w, s))
  {
  }

  lemma {:induction false} RunInOrder(start: World, steps: seq<Step>, w: World)
    requires Init(start) && Leads(start, steps, w)
    ensures InOrder(w)
    decreases |steps|
  {
    if steps != [] {
      var before := steps[..|steps| - 1];
      var s := steps[|steps| - 1];
      var u: World :| Leads(start, before, u) && Enabled(u, s) && w == Next(u, s);
      RunInOrder(start, before, u);
      StepInOrder(u, s);
    }
  }

  /** What is reported is reported for good, from any start. */
  lemma ReportIsFinal(start: World, steps: seq<Step>, w: World, s: Step)
    requires Init(start) && Leads(start, steps, w) && w.outcome != Open && Enabled(w, s)
    ensures Next(w, s).outcome == w.outcome
  {
    RunInOrder(start, steps, w);
  }

  /** The operation can come to nothing more: its restore request is gone or its import has failed. */
  predicate Hopeless(w: World) {
    !w.restore || w.request == ImportFailed
  }

  lemma HopelessStep(w: World, s: Step)
    requires Hopeless(w) && w.worker == Idle && w.flight.None? && !w.called && (w.outcome == Open || w.outcome == Unchanged) && Enabled(w, s)
    ensures var v := Next(w, s);
      && Hopeless(v) && v.worker == Idle && v.flight.None? && !v.called
      && v.outcome == if s == SweepTurn then Unchanged else w.outcome
  {
  }

  /**
   Whatever happens once an import has failed or the restore request is gone, the first turn of
   the worker ends the operation with the home untouched, and it stays ended so.
   */
  lemma {:induction false} HopelessEndsAtNextTurn(start: World, before: seq<Step>, w: World, after: seq<Step>, v: World)
    requires Init(start) && Leads(start, before, w) && w.outcome == Open && Hopeless(w) && Leads(w, after, v)
    ensures v.outcome == if SweepTurn in after then Unchanged else Open
    ensures Hopeless(v) && v.worker == Idle && v.flight.None? && !v.called
    decreases |after|
  {
    if after == [] {
      RunInOrder(start, before, w);
    } else {
      var n := |after| - 1;
      var u: World :| Leads(w, after[..n], u) && Enabled(u, after[n]) && v == Next(u, after[n]);
      HopelessEndsAtNextTurn(start, before, w, after[..n], u);
      HopelessStep(u, after[n]);
      assert after == after[..n] + [after[n]];
    }
  }

  // ---- A half-done swap is finished by a retry ----

  function Left(stage: Stage): nat {
    match stage
    case Look => 5
    case Detach => 4
    case Keep => 3
    case Swap => 2
    case Attach => 1
    case Answer => 0
  }

  function Goes(k: nat): seq<Step> {
    seq(k, _ => Go)
  }

  /** A turn of the worker whose call's k requests are all answered. */
  function TurnSteps(k: nat): seq<Step> {
    [SweepTurn, Arrive] + Goes(k) + [Receive]
  }

  /** One undisturbed turn: at most six requests, and the listing where the import is gone. */
  ghost predicate OneTurn(steps: seq<Step>) {
    exists k: nat :: k <= 6 && (steps == TurnSteps(k) || steps == TurnSteps(k) + [Listed(true)])
  }

  lemma Extend(w: World, steps: seq<Step>, u: World, s: Step) returns (v: World)
    requires Leads(w, steps, u) && Enabled(u, s)
    ensures v == Next(u, s) && Leads(w, steps + [s], v)
  {
    v := Next(u, s);
    assert (steps + [s])[..|steps|] == steps;
  }

  /** A swap that nothing disturbs ends with the kept home's name, after at most a request for each stage. */
  lemma {:induction false} UndisturbedSwapAnswers(w0: World, before: seq<Step>, start: World, w: World) returns (v: World, k: nat)
    requires Leads(w0, before, w) && SoundStart(start) && Inv(w, start)
    requires w.worker == Calling && w.reply.None? && w.flight.Some?
    requires w.flight == Some(Look) ==> !w.v.attached || w.v.imported.Some?
    requires w.v.imported.Some? || w.swaps == 1
    ensures k <= 1 + Left(w.flight.value) && Leads(w0, before + Goes(k), v)
    ensures Inv(v, start) && v.worker == Calling && v.reply.Some? && v.reply.value.Kept?
    decreases Left(w.flight.value)
  {
    v := Extend(w0, before, w, Go);
    k := 1;
    assert Goes(1) == [Go];
    StepKeepsInv(w, start, Go);
    RequestKeepsCoherent(w.v, w.flight.value, w.swaps, w.clock, start, w.arrived);
    if v.flight.Some? {
      var more: nat;
      v, more := UndisturbedSwapAnswers(w0, before + [Go], start, v);
      k := 1 + more;
      assert before + [Go] + Goes(more) == before + Goes(k);
    }
  }

  /** The retry that finds the swap made and only its answer lost. */
  lemma RetryLists(start: World, w0: World, w: World) returns (v: World)
    requires SoundStart(start) && Inv(w, start) && Leads(w0, [SweepTurn, Arrive], w)
    requires w.worker == Calling && w.reply.None? && w.flight == Some(Look) && w.v.attached && w.v.imported.None? && w.swaps == 1
    ensures Leads(w0, TurnSteps(1) + [Listed(true)], v) && v.outcome.Replaced? && v.swaps == 1
  {
    var c := Extend(w0, [SweepTurn, Arrive], w, Go);
    assert [SweepTurn, Arrive] + Goes(1) == [SweepTurn, Arrive] + [Go];
    var d := Extend(w0, [SweepTurn, Arrive] + Goes(1), c, Receive);
    v := Extend(w0, TurnSteps(1), d, Listed(true));
    NewestIsMine(d.v, start, d.since);
  }

  lemma TurnBegins(start: World, w: World) returns (b: World)
    requires SoundStart(start) && Inv(w, start)
    requires w.outcome == Open && w.worker == Idle && w.flight.None? && w.restore && w.request == Done
    ensures Leads(w, [SweepTurn, Arrive], b) && Inv(b, start)
    ensures b == w.(worker := Calling, reply := None, called := true, flight := Some(Look))
  {
    assert Leads(w, [], w);
    var a := Extend(w, [], w, SweepTurn);
    assert [] + [SweepTurn] == [SweepTurn] && [SweepTurn] + [Arrive] == [SweepTurn, Arrive];
    StepKeepsInv(w, start, SweepTurn);
    b := Extend(w, [SweepTurn], a, Arrive);
    StepKeepsInv(a, start, Arrive);
  }

  lemma RetrySucceeds(start: World, w: World) returns (steps: seq<Step>, v: World)
    requires SoundStart(start) && Inv(w, start)
    requires w.outcome == Open && w.worker == Idle && w.flight.None? && w.restore && w.request == Done
    requires w.v.imported.Some? || w.swaps == 1
    ensures OneTurn(steps) && Leads(w, steps, v) && v.outcome.Replaced? && v.swaps == 1
  {
    var b := TurnBegins(start, w);
    if b.v.attached && b.v.imported.None? {
      v := RetryLists(start, w, b);
      steps := TurnSteps(1) + [Listed(true)];
      assert 1 <= 6 && steps == TurnSteps(1) + [Listed(true)];
    } else {
      var c, k := UndisturbedSwapAnswers(w, [SweepTurn, Arrive], start, b);
      v := Extend(w, [SweepTurn, Arrive] + Goes(k), c, Receive);
      steps := TurnSteps(k);
      assert k <= 6 && steps == TurnSteps(k);
    }
  }

  /**
   Wherever lost replies, timeouts and restarts have left an open operation whose import
   arrived, one more undisturbed turn of the worker, taken from there, ends it as replaced.
   */
  lemma HalfDoneSwapIsFinished(start: World, w: World) returns (steps: seq<Step>, v: World)
    requires Init(start) && SoundStart(start) && Reached(start, w)
    requires w.outcome == Open && w.worker == Idle && w.flight.None? && w.restore && w.request == Done
    requires w.v.imported.Some? || w.swaps == 1
    ensures OneTurn(steps) && Leads(w, steps, v) && v.outcome.Replaced? && v.swaps == 1
  {
    var before: seq<Step> :| Leads(start, before, w);
    RunKeepsInv(start, before, w);
    steps, v := RetrySucceeds(start, w);
  }

  // ---- Exactly which starts are reported on truly ----

  /** What is reported is what happened. */
  predicate Truthful(w: World) {
    (w.outcome.Replaced? ==> w.swaps == 1) && (w.outcome.Unchanged? ==> w.swaps == 0)
  }

  /**
   With a home volume: an import waits already, or the home is attached and every earlier kept
   home is dated before, or it is detached and there is no earlier one.  Without a home volume: an
   earlier one is dated into the operation, and an attached device has an import waiting.
   */
  predicate TellsTruth(start: World) {
    if start.v.home.Some? then
      start.v.imported.Some? || (if start.v.attached then DatedBefore(start) else start.v.kept == [])
    else !DatedBefore(start) && (!start.v.attached || start.v.imported.Some?)
  }

  predicate Recent(kept: seq<KeptHome>, floor: nat) {
    exists k <- kept :: k.at >= floor
  }

  /** The volumes and the request under way, as far as the reports depend on them. */
  predicate TruthStands(v: Volumes, flight: Option<Stage>, swaps: nat, since: nat) {
    if swaps == 0 && v.imported.Some? then
      && flight != Some(Attach) && flight != Some(Answer)
      && (v.home.None? ==> Recent(v.kept, since)) && (flight == Some(Swap) ==> v.home.None?)
    else
      && flight != Some(Detach) && flight != Some(Keep) && flight != Some(Swap) && swaps <= 1 && v.imported.None?
      && if swaps == 1 then v.home.Some? && Recent(v.kept, since)
         else
           && (if v.home.Some? then (v.attached && !Recent(v.kept, since)) || v.kept == [] else !v.attached && Recent(v.kept, since))
           && (flight == Some(Attach) && v.home.Some? ==> v.kept == []) && (flight == Some(Answer) ==> v.home.Some? && v.kept == [])
  }

  predicate TruthInv(w: World) {
    && w.since <= w.clock && TruthStands(w.v, w.flight, w.swaps, w.since)
    && (w.called ==> w.request == Done && w.restore)
    && (w.flight.Some? || w.worker != Idle ==> w.called)
    && (w.reply.Some? ==> w.worker == Calling) && (w.worker != Idle ==> w.outcome == Open)
    && (w.reply == Some(NotFound) || w.worker == Listing || (w.outcome.Unchanged? && w.called) ==> Still(w))
    && (w.reply.Some? && w.reply.value.Kept? ==> w.swaps == 1)
    && (!w.called ==> w.swaps == 0)
    && Truthful(w)
  }

  lemma RequestTellsTruth(v: Volumes, f: Stage, swaps: nat, since: nat, clock: nat)
    requires since <= clock && TruthStands(v, Some(f), swaps, since)
    ensures var more := if Swaps(v, f) then 1 else 0;
      var p := Request(v, f, clock);
      && (p.Onward? ==> TruthStands(p.v, Some(p.stage), swaps + more, since))
      && (p.Over? ==> p.v == v && more == 0 && !p.reply.Retry?)
      && (p.Over? && p.reply.NotFound? ==> f == Look && v.attached && v.imported.None?)
      && (p.Over? && p.reply.Kept? ==> swaps == 1)
  {
    if f == Keep && v.home.Some? {
      var mine := KeptHome(clock, v.home.value);
      assert (v.kept + [mine])[|v.kept|] == mine;
      assert mine in v.kept + [mine];
    }
  }

  lemma AloneStands(v: Volumes, f: Stage, swaps: nat, since: nat)
    requires TruthStands(v, Some(f), swaps, since)
    ensures TruthStands(v, None, swaps, since)
  {
  }

  lemma GoTellsTruth(w: World)
    requires TruthInv(w) && w.flight.Some?
    ensures TruthInv(Gone(w)) && TruthStands(Gone(w).v, None, Gone(w).swaps, w.since)
  {
    RequestTellsTruth(w.v, w.flight.value, w.swaps, w.since, w.clock);
    AloneStands(w.v, w.flight.value, w.swaps, w.since);
    if Gone(w).flight.Some? {
      AloneStands(Gone(w).v, Gone(w).flight.value, Gone(w).swaps, w.since);
    }
  }

  lemma CutTellsTruth(w: World, reply: Reply)
    requires TruthInv(w) && TruthStands(w.v, None, w.swaps, w.since) && (reply == Retry || reply == Failed)
    ensures TruthInv(Ended(w, reply))
  {
  }

  lemma StepTellsTruth(w: World, s: Step)
    requires TruthInv(w) && Enabled(w, s)
    ensures TruthInv(Next(w, s))
  {
    match s
    case Go => GoTellsTruth(w);
    case Cut(applied, other) =>
      GoTellsTruth(w);
      AloneStands(w.v, w.flight.value, w.swaps, w.since);
      CutTellsTruth(if applied then Gone(w) else w, if other then Failed else Retry);
    case _ =>
  }

  lemma {:induction false} RunTellsTruth(start: World, steps: seq<Step>, w: World)
    requires Init(start) && TellsTruth(start) && Leads(start, steps, w)
    ensures TruthInv(w)
    decreases |steps|
  {
    if steps != [] {
      var before := steps[..|steps| - 1];
      var s := steps[|steps| - 1];
      var u: World :| Leads(start, before, u) && Enabled(u, s) && w == Next(u, s);
      RunTellsTruth(start, before, u);
      StepTellsTruth(u, s);
    } else {
      assert DatedBefore(start) <==> !Recent(start.v.kept, start.since);
    }
  }

  /** The worker asks for the import, the host reports it done, with or without a volume, and the call is made. */
  lemma CallIsMade(R: World -> bool, start: World, volume: Option<Volume>) returns (w: World)
    requires Closed(R) && R(start) && Init(start) && start.restore
    ensures R(w) && w == start.(request := Done, requests := 1, worker := Calling, called := true, flight := Some(Look),
                                arrived := if volume.Some? then volume else start.arrived,
                                v := if volume.Some? then start.v.(imported := volume) else start.v)
  {
    w := Take(R, start, SweepTurn);
    w := Take(R, w, HostClaims);
    if volume.Some? {
      w := Take(R, w, HostImports(volume.value));
    }
    w := Take(R, w, HostReports(true));
    w := Take(R, w, SweepTurn);
    w := Take(R, w, Arrive);
  }

  predicate JustCalled(w: World) {
    w.worker == Calling && w.reply.None? && w.flight == Some(Look) && w.outcome == Open && w.restore && w.request == Done && w.called
  }

  /** The swap is made and its answer lost; the retry finds no import. */
  lemma AnswerIsLost(R: World -> bool, w: World) returns (v: World)
    requires Closed(R) && R(w) && JustCalled(w) && w.v.home.None? && w.v.imported.Some?
    ensures R(v) && v == w.(v := w.v.(home := w.v.imported, imported := None, attached := true), swaps := w.swaps + 1)
  {
    v := Take(R, w, Go);
    if w.v.attached {
      v := Take(R, v, Go);
    }
    v := Take(R, v, Go);
    v := Take(R, v, Go);
    v := Take(R, v, Cut(true, false));
    v := Take(R, v, Receive);
    v := Take(R, v, SweepTurn);
    v := Take(R, v, Arrive);
  }

  lemma ListingDecides(R: World -> bool, w: World) returns (v: World)
    requires Closed(R) && R(w) && w.worker == Calling && w.reply.None? && w.flight == Some(Look) && w.v.attached && w.v.imported.None?
    ensures R(v) && v.swaps == w.swaps
      && v.outcome == (var newest := Newest(w.v.kept, w.since); if newest.Some? then Replaced(newest.value.at) else Unchanged)
  {
    var a := Take(R, w, Go);
    var b := Take(R, a, Receive);
    v := Take(R, b, Listed(true));
  }

  /** Without a home volume to keep, as after a swap that stopped halfway, every such start has a run that swaps and reports "unchanged". */
  lemma NoHomeIsMisreported(start: World) returns (w: World)
    requires Init(start) && start.restore && DatedBefore(start) && start.v.home.None?
    ensures Reached(start, w) && w.outcome == Unchanged && w.swaps == 1
  {
    ReachedIsClosed(start);
    var R := x => Reached(start, x);
    var a := CallIsMade(R, start, Some(0));
    var b := AnswerIsLost(R, a);
    w := ListingDecides(R, b);
  }

  /** With an earlier home dated into the operation and no import volume, every such start has a run that reports "replaced" with no swap. */
  lemma LateDateIsMisreported(start: World) returns (w: World)
    requires Init(start) && start.restore && start.v.attached && start.v.imported.None? && !DatedBefore(start)
    ensures Reached(start, w) && w.outcome.Replaced? && w.swaps == 0
  {
    ReachedIsClosed(start);
    var R := x => Reached(start, x);
    var a := CallIsMade(R, start, None);
    w := ListingDecides(R, a);
  }

  /** With the home detached, no import volume and any earlier kept home, every such start has a run that names that one as the result of no swap. */
  lemma DetachedIsMisreported(start: World) returns (w: World)
    requires Init(start) && start.restore && start.v.home.Some? && !start.v.attached && start.v.imported.None? && start.v.kept != []
    ensures Reached(start, w) && w.outcome.Replaced? && w.swaps == 0
  {
    ReachedIsClosed(start);
    var R := x => Reached(start, x);
    var a := CallIsMade(R, start, None);
    var b := Take(R, a, Go);
    var c := Take(R, b, Go);
    assert start.v.kept[0] in start.v.kept;
    var d := Take(R, c, Go);
    w := Take(R, d, Receive);
  }

  lemma SomeReportIsFalse(start: World) returns (w: World)
    requires Init(start) && start.restore && !TellsTruth(start)
    ensures Reached(start, w) && !Truthful(w)
  {
    if start.v.home.Some? {
      if start.v.attached {
        w := LateDateIsMisreported(start);
      } else {
        w := DetachedIsMisreported(start);
      }
    } else if DatedBefore(start) {
      w := NoHomeIsMisreported(start);
    } else {
      w := LateDateIsMisreported(start);
    }
  }

  /**
   For every start whose restore request exists: in all of its runs "replaced" is reported only
   after exactly one swap and "unchanged" only after none, if and only if the start is as named.
   */
  lemma ReportsTrulyIff(start: World)
    requires Init(start) && start.restore
    ensures (forall w :: Reached(start, w) ==> Truthful(w)) <==> TellsTruth(start)
  {
    if TellsTruth(start) {
      forall w | Reached(start, w) ensures Truthful(w) {
        var steps: seq<Step> :| Leads(start, steps, w);
        RunTellsTruth(start, steps, w);
      }
    } else {
      var w := SomeReportIsFalse(start);
    }
  }

  // ---- The controller and the worker as they run ----

  /** What becomes of one Incus request. */
  datatype Fate = Fine | Cut_(applied: bool, other: bool)

  /** A whole call of the swap: its requests in turn, until one is cut or it ends. */
  function Attempt(v: Volumes, stage: Stage, fate: Stage -> Fate, clock: nat): (Volumes, Reply)
    decreases Left(stage)
  {
    var p := Request(v, stage, clock);
    match fate(stage)
    case Cut_(applied, other) => (if applied then p.v else v, if other then Failed else Retry)
    case Fine => if p.Over? then (p.v, p.reply) else Attempt(p.v, p.stage, fate, clock)
  }

  /** Every such call is a run of the machine above, and its answer is the one a waiting worker gets. */
  lemma {:induction false} AttemptIsARun(R: World -> bool, w: World, fate: Stage -> Fate) returns (v: World)
    requires Closed(R) && R(w) && w.flight.Some?
    ensures R(v) && v.flight.None? && v.worker == w.worker && v.outcome == w.outcome
    ensures var (volumes, reply) := Attempt(w.v, w.flight.value, fate, w.clock);
      v.v == volumes && (w.worker == Calling ==> v.reply == Some(reply))
    decreases Left(w.flight.value)
  {
    match fate(w.flight.value)
    case Cut_(applied, other) =>
      v := Take(R, w, Cut(applied, other));
    case Fine =>
      v := Take(R, w, Go);
      if v.flight.Some? {
        v := AttemptIsARun(R, v, fate);
      }
  }

  /** The answer to a cut request. */
  function CutReply(fate: Fate): Reply {
    if fate.Cut_? && fate.other then Failed else Retry
  }

  class Controller {
    var v: Volumes

    constructor (v: Volumes)
      ensures this.v == v
    {
      this.v := v;
    }

    /** The requests of one swap in order; a cut one may or may not have been carried out. */
    method ReplaceHome(fate: Stage -> Fate, clock: nat) returns (reply: Reply)
      modifies this
      ensures (v, reply) == Attempt(old(v), Look, fate, clock)
    {
      if fate(Look).Cut_? { return CutReply(fate(Look)); }
      var importExists := v.imported.Some?;
      if v.attached && !importExists { return NotFound; }
      if v.attached {
        if fate(Detach) != Cut_(false, true) && fate(Detach) != Cut_(false, false) {
          v := v.(attached := false);
        }
        if fate(Detach).Cut_? { return CutReply(fate(Detach)); }
      }
      if importExists {
        var refused := RenameHome(fate(Keep), clock);
        if fate(Keep).Cut_? { return CutReply(fate(Keep)); }
        if refused { return Failed; }
        refused := RenameImport(fate(Swap));
        if fate(Swap).Cut_? { return CutReply(fate(Swap)); }
        if refused { return Failed; }
      }
      reply := AttachAndAnswer(fate, clock);
    }

    method RenameHome(fate: Fate, clock: nat) returns (refused: bool)
      modifies this
      ensures var p := Request(old(v), Keep, clock);
        refused == p.Over? && v == if fate.Fine? || fate.applied then p.v else old(v)
    {
      refused := v.home.Some? && exists k <- v.kept :: k.at == clock;
      if (fate.Fine? || fate.applied) && v.home.Some? && !refused {
        v := v.(home := None, kept := v.kept + [KeptHome(clock, v.home.value)]);
      }
    }

    method RenameImport(fate: Fate) returns (refused: bool)
      modifies this
      ensures var p := Request(old(v), Swap, 0);
        refused == p.Over? && v == if fate.Fine? || fate.applied then p.v else old(v)
    {
      refused := v.imported.None? || v.home.Some?;
      if (fate.Fine? || fate.applied) && !refused {
        v := v.(home := v.imported, imported := None);
      }
    }

    method AttachAndAnswer(fate: Stage -> Fate, clock: nat) returns (reply: Reply)
      modifies this
      ensures (v, reply) == Attempt(old(v), Attach, fate, clock)
    {
      if v.home.Some? && (fate(Attach).Fine? || fate(Attach).applied) {
        v := v.(attached := true);
      }
      if fate(Attach).Cut_? { return CutReply(fate(Attach)); }
      if v.home.None? { return Failed; }
      if fate(Answer).Cut_? { return CutReply(fate(Answer)); }
      var newest := NewestKeptHome(v.kept, 0);
      reply := if newest.Some? then Kept(newest.value.at) else Failed;
    }
  }

  /** One pass over the listing finds the newest kept home dated at or after floor, or that there is none. */
  method NewestKeptHome(kept: seq<KeptHome>, floor: nat) returns (newest: Option<KeptHome>)
    ensures newest == Newest(kept, floor)
    ensures newest.Some? ==> newest.value in kept && newest.value.at >= floor
    ensures forall k :: k in kept && k.at >= floor ==> newest.Some? && k.at <= newest.value.at
  {
    newest := None;
    for i := 0 to |kept|
      invariant newest == Newest(kept[..i], floor)
    {
      assert kept[..i + 1][..i] == kept[..i];
      if kept[i].at >= floor && (newest.None? || kept[i].at > newest.value.at) {
        newest := Some(kept[i]);
      }
    }
    assert kept[..|kept|] == kept;
  }

  /** What the worker keeps of the pending operation. */
  class Operation {
    var outcome: Outcome
    var asked: bool
    var requests: nat

    constructor ()
      ensures outcome == Open && !asked && requests == 0
    {
      outcome, asked, requests := Open, false, 0;
    }

    /**
     One turn, given what the database, the controller and its listing answer.  It is the turn
     of the machine above, followed by the receipt and the listing where the call is made.
     */
    method RunReplaceHome(restore: bool, imported: ImportState, answer: Reply, listing: Option<seq<KeptHome>>, since: nat, ghost w: World)
      requires outcome == Open && w.outcome == Open && w.worker == Idle
      requires w.restore == restore && w.request == imported && w.requests == requests && asked == (imported != NotAsked)
      requires w.since == since && (listing.Some? ==> listing.value == w.v.kept)
      modifies this
      ensures var t := Turn(w);
        && requests == t.requests && asked == (t.request != NotAsked)
        && (t.worker == Idle ==> outcome == t.outcome)
        && (t.worker == Calling ==>
              var r := Received(t.(reply := Some(answer)));
              outcome == if r.worker == Listing then AfterListing(r, listing.Some?).outcome else r.outcome)
      ensures requests == old(requests) + (if restore && imported == NotAsked then 1 else 0)
      ensures outcome ==
        if !restore || imported == ImportFailed then Unchanged
        else if imported != Done || answer == Retry || (answer == NotFound && listing.None?) then Open
        else if answer.Kept? then Replaced(answer.at)
        else if answer == Failed then Touched
        else if Newest(listing.value, since).Some? then Replaced(Newest(listing.value, since).value.at) else Unchanged
    {
      if !restore {
        outcome := Unchanged;
        return;
      }
      if !asked {
        requests, asked := requests + 1, true;
        return;
      }
      if imported == Pending || imported == Claimed {
        return;
      }
      if imported == ImportFailed {
        outcome := Unchanged;
        return;
      }
      match answer
      case Kept(at) => outcome := Replaced(at);
      case Retry =>
      case Failed => outcome := Touched;
      case NotFound =>
        if listing.Some? {
          var kept := NewestKeptHome(listing.value, since);
          outcome := if kept.Some? then Replaced(kept.value.at) else Unchanged;
        }
    }
  }
}
