/**
 The check runner's output: a ring of the newest bytes of a run, replayed to every browser that
 attaches, and the list of runs remembered for replay, from which old finished runs are dropped.
 */
module CheckRuns {
  import opened Wrappers
  import opened Texts

  function Flat(chunks: seq<Bytes>): Bytes {
    if chunks == [] then [] else chunks[0] + Flat(chunks[1..])
  }

  /** The last n bytes, or all of them when there are fewer. */
  function LastBytes(b: Bytes, n: nat): (r: Bytes)
    ensures |r| <= n && |r| <= |b|
  {
    if |b| > n then b[|b| - n..] else b
  }

  // ---- The ring ----

  /** Drop over bytes from the front: whole chunks, then a part of the first one left. */
  function DropFront(chunks: seq<Bytes>, over: nat): seq<Bytes> {
    if over == 0 || chunks == [] then chunks
    else if |chunks[0]| <= over then DropFront(chunks[1..], over - |chunks[0]|)
    else [chunks[0][over..]] + chunks[1..]
  }

  function Appended(chunks: seq<Bytes>, chunk: Bytes, max: nat): seq<Bytes> {
    var all := chunks + [chunk];
    DropFront(all, if |Flat(all)| > max then |Flat(all)| - max else 0)
  }

  lemma {:induction false} FlatAppend(chunks: seq<Bytes>, chunk: Bytes)
    ensures Flat(chunks + [chunk]) == Flat(chunks) + chunk
  {
    if chunks == [] {
      assert chunks + [chunk] == [chunk] && [chunk][1..] == [];
      assert Flat([chunk]) == chunk + [];
    } else {
      FlatAppend(chunks[1..], chunk);
      assert (chunks + [chunk])[1..] == chunks[1..] + [chunk];
      Assoc(chunks[0], Flat(chunks[1..]), chunk);
    }
  }

  lemma Assoc(a: Bytes, b: Bytes, c: Bytes)
    ensures a + b + c == a + (b + c)
  {
  }

  lemma {:induction false} DropFrontDrops(chunks: seq<Bytes>, over: nat)
    requires over <= |Flat(chunks)|
    ensures Flat(DropFront(chunks, over)) == Flat(chunks)[over..]
  {
    if over > 0 && chunks != [] {
      var c, rest := chunks[0], chunks[1..];
      if |c| <= over {
        DropFrontDrops(rest, over - |c|);
        assert (c + Flat(rest))[over..] == Flat(rest)[over - |c|..];
      } else {
        assert ([c[over..]] + rest)[1..] == rest;
        assert (c + Flat(rest))[over..] == c[over..] + Flat(rest);
      }
    }
  }

  /** Keeping the last bytes as they come keeps the last bytes of the whole. */
  lemma LastOfLast(out: Bytes, chunk: Bytes, max: nat)
    ensures LastBytes(LastBytes(out, max) + chunk, max) == LastBytes(out + chunk, max)
  {
  }

  lemma AppendedIsLast(chunks: seq<Bytes>, chunk: Bytes, out: Bytes, max: nat)
    requires Flat(chunks) == LastBytes(out, max)
    ensures Flat(Appended(chunks, chunk, max)) == LastBytes(out + chunk, max)
  {
    var all := chunks + [chunk];
    FlatAppend(chunks, chunk);
    DropFrontDrops(all, if |Flat(all)| > max then |Flat(all)| - max else 0);
    LastOfLast(out, chunk, max);
  }

  // ---- One run and its watchers ----

  datatype Frame = Output(data: Bytes) | Ending(code: int)

  /** One browser socket: what it was sent, from and up to where in the output, and whether it is still open. */
  datatype Socket = Socket(frames: seq<Frame>, open: bool, from: int, upto: int, dropped: bool)

  type SocketId = nat

  datatype Run = Run(
    chunks: seq<Bytes>,
    ending: Option<Frame>,
    watchers: set<SocketId>,
    sockets: map<SocketId, Socket>,
    out: Bytes)                   // everything the run has written

  function Send(s: Socket, frames: seq<Frame>): Socket {
    if s.open then s.(frames := s.frames + frames) else s
  }

  function OutputFrames(chunks: seq<Bytes>): (r: seq<Frame>)
    ensures |r| == |chunks|
  {
    if chunks == [] then [] else [Output(chunks[0])] + OutputFrames(chunks[1..])
  }

  datatype Event =
    | Data(chunk: Bytes)
    | Exit(code: int)
    | Attach(socket: SocketId)
    | Leave(socket: SocketId)       // the browser closes or loses the connection
    | Closed(socket: SocketId)      // and the server hears of it

  predicate Enabled(r: Run, e: Event) {
    match e
    case Data(_) => true
    case Exit(_) => r.ending.None?
    case Attach(s) => s !in r.sockets
    case Leave(s) => s in r.sockets
    case Closed(s) => s in r.sockets && !r.sockets[s].open
  }

  function SendAll(sockets: map<SocketId, Socket>, to: set<SocketId>, f: Frame): map<SocketId, Socket> {
    map s | s in sockets :: if s in to then Send(sockets[s], [f]) else sockets[s]
  }

  /** Closed by the server, with the output complete up to here. */
  function Hung(s: Socket, upto: int): Socket { s.(open := false, upto := upto) }

  function After(r: Run, e: Event, max: nat): Run
    requires Enabled(r, e)
  {
    match e
    case Data(chunk) =>
      r.(chunks := Appended(r.chunks, chunk, max), sockets := SendAll(r.sockets, r.watchers, Output(chunk)), out := r.out + chunk)
    case Exit(code) =>
      var sent := SendAll(r.sockets, r.watchers, Ending(code));
      r.(ending := Some(Ending(code)), watchers := {},
         sockets := map s | s in sent :: if s in r.watchers then Hung(sent[s], |r.out|) else sent[s])
    case Attach(s) =>
      var replayed := Socket(OutputFrames(r.chunks), true, |r.out| - |Flat(r.chunks)|, 0, false);
      if r.ending.Some? then r.(sockets := r.sockets[s := Hung(Send(replayed, [r.ending.value]), |r.out|)])
      else r.(sockets := r.sockets[s := replayed], watchers := r.watchers + {s})
    case Leave(s) => r.(sockets := r.sockets[s := r.sockets[s].(open := false, dropped := r.sockets[s].dropped || r.sockets[s].open)])
    case Closed(s) => r.(watchers := r.watchers - {s})
  }

  /** The output a list of frames carries. */
  function DataOf(frames: seq<Frame>): Bytes {
    if frames == [] then []
    else DataOf(frames[..|frames| - 1]) + if frames[|frames| - 1].Output? then frames[|frames| - 1].data else []
  }

  predicate OnlyOutput(frames: seq<Frame>) {
    forall i :: 0 <= i < |frames| ==> frames[i].Output?
  }

  lemma DataOfAppend(frames: seq<Frame>, f: Frame)
    ensures DataOf(frames + [f]) == DataOf(frames) + if f.Output? then f.data else []
  {
    assert (frames + [f])[..|frames|] == frames;
  }

  lemma {:induction false} ReplayCarries(chunks: seq<Bytes>)
    ensures OnlyOutput(OutputFrames(chunks)) && DataOf(OutputFrames(chunks)) == Flat(chunks)
    decreases |chunks|
  {
    if chunks != [] {
      var n := |chunks| - 1;
      assert chunks == chunks[..n] + [chunks[n]];
      ReplayAppend(chunks[..n], chunks[n]);
      ReplayCarries(chunks[..n]);
      FlatAppend(chunks[..n], chunks[n]);
      DataOfAppend(OutputFrames(chunks[..n]), Output(chunks[n]));
    }
  }

  lemma {:induction false} ReplayAppend(chunks: seq<Bytes>, c: Bytes)
    ensures OutputFrames(chunks + [c]) == OutputFrames(chunks) + [Output(c)]
  {
    if chunks == [] {
      assert chunks + [c] == [c] && [c][1..] == [];
    } else {
      ReplayAppend(chunks[1..], c);
      assert (chunks + [c])[1..] == chunks[1..] + [c];
    }
  }

  /** What a socket has been sent: the output from one place on with nothing missing or twice, then the ending, once. */
  predicate Followed(s: Socket, out: Bytes, ending: Option<Frame>) {
    0 <= s.from <= |out|
    && match ending
       case None => s.open && OnlyOutput(s.frames) && DataOf(s.frames) == out[s.from..]
       case Some(f) =>
         && !s.open && s.frames != [] && s.frames[|s.frames| - 1] == f && s.from <= s.upto <= |out|
         && OnlyOutput(s.frames[..|s.frames| - 1]) && DataOf(s.frames[..|s.frames| - 1]) == out[s.from..s.upto]
  }

  predicate SocketInv(r: Run, id: SocketId)
    requires id in r.sockets
  {
    !r.sockets[id].dropped ==> Followed(r.sockets[id], r.out, r.ending) && (r.ending.None? <==> id in r.watchers)
  }

  predicate Inv(r: Run, max: nat) {
    && Flat(r.chunks) == LastBytes(r.out, max)
    && (r.ending.Some? ==> r.ending.value.Ending? && r.watchers == {})
    && (forall id :: id in r.sockets ==> SocketInv(r, id))
  }

  lemma DataKeepsSocket(s: Socket, out: Bytes, chunk: Bytes)
    requires Followed(s, out, None)
    ensures Followed(Send(s, [Output(chunk)]), out + chunk, None)
  {
    DataOfAppend(s.frames, Output(chunk));
    assert (out + chunk)[s.from..] == out[s.from..] + chunk;
  }

  lemma ExitEndsSocket(s: Socket, out: Bytes, code: int)
    requires Followed(s, out, None)
    ensures Followed(Hung(Send(s, [Ending(code)]), |out|), out, Some(Ending(code)))
  {
    assert (s.frames + [Ending(code)])[..|s.frames|] == s.frames;
    assert out[s.from..|out|] == out[s.from..];
  }

  /** Output after the end is kept for later, and sent to nobody. */
  lemma LateDataKeepsSocket(s: Socket, out: Bytes, chunk: Bytes, ending: Frame)
    requires Followed(s, out, Some(ending))
    ensures Followed(s, out + chunk, Some(ending))
  {
    assert (out + chunk)[s.from..s.upto] == out[s.from..s.upto];
  }

  lemma DataKeepsInv(r: Run, chunk: Bytes, max: nat)
    requires Inv(r, max)
    ensures Inv(After(r, Data(chunk), max), max)
  {
    var t := After(r, Data(chunk), max);
    AppendedIsLast(r.chunks, chunk, r.out, max);
    forall id | id in t.sockets ensures SocketInv(t, id) {
      if !r.sockets[id].dropped {
        assert SocketInv(r, id);
        if r.ending.None? {
          DataKeepsSocket(r.sockets[id], r.out, chunk);
        } else {
          LateDataKeepsSocket(r.sockets[id], r.out, chunk, r.ending.value);
        }
      }
    }
  }

  lemma ExitKeepsInv(r: Run, code: int, max: nat)
    requires Inv(r, max) && r.ending.None?
    ensures Inv(After(r, Exit(code), max), max)
  {
    var t := After(r, Exit(code), max);
    forall id | id in t.sockets ensures SocketInv(t, id) {
      if !r.sockets[id].dropped {
        assert SocketInv(r, id);
        ExitEndsSocket(r.sockets[id], r.out, code);
      }
    }
  }

  /** The kept chunks as frames are the output from where they start. */
  lemma ReplayFollows(chunks: seq<Bytes>, out: Bytes, max: nat)
    requires Flat(chunks) == LastBytes(out, max)
    ensures Followed(Socket(OutputFrames(chunks), true, |out| - |Flat(chunks)|, 0, false), out, None)
  {
    ReplayCarries(chunks);
    var kept := LastBytes(out, max);
    assert out[|out| - |kept|..] == kept;
  }

  lemma AttachKeepsInv(r: Run, id: SocketId, max: nat)
    requires Inv(r, max) && id !in r.sockets
    ensures Inv(After(r, Attach(id), max), max)
  {
    var t := After(r, Attach(id), max);
    ReplayFollows(r.chunks, r.out, max);
    if r.ending.Some? {
      ExitEndsSocket(Socket(OutputFrames(r.chunks), true, |r.out| - |Flat(r.chunks)|, 0, false), r.out, r.ending.value.code);
    }
    assert SocketInv(t, id);
    forall o | o in t.sockets && o != id ensures SocketInv(t, o) {
      assert SocketInv(r, o);
    }
  }

  lemma LeavingKeepsInv(r: Run, e: Event, max: nat)
    requires Inv(r, max) && Enabled(r, e) && (e.Leave? || e.Closed?)
    ensures Inv(After(r, e, max), max)
  {
    var t := After(r, e, max);
    forall o | o in t.sockets ensures SocketInv(t, o) {
      assert SocketInv(r, o);
    }
  }

  lemma EventKeepsInv(r: Run, e: Event, max: nat)
    requires Inv(r, max) && Enabled(r, e)
    ensures Inv(After(r, e, max), max)
  {
    match e
    case Data(chunk) => DataKeepsInv(r, chunk, max);
    case Exit(code) => ExitKeepsInv(r, code, max);
    case Attach(id) => AttachKeepsInv(r, id, max);
    case Leave(_) => LeavingKeepsInv(r, e, max);
    case Closed(_) => LeavingKeepsInv(r, e, max);
  }

  predicate History(states: seq<Run>, events: seq<Event>, max: nat) {
    && |states| == |events| + 1 && states[0] == Run([], None, {}, map[], [])
    && forall i :: 0 <= i < |events| ==> Enabled(states[i], events[i]) && states[i + 1] == After(states[i], events[i], max)
  }

  lemma {:induction false} HistoryKeepsInv(states: seq<Run>, events: seq<Event>, max: nat, k: nat)
    requires History(states, events, max) && k <= |events|
    ensures Inv(states[k], max)
  {
    if k > 0 {
      HistoryKeepsInv(states, events, max, k - 1);
      EventKeepsInv(states[k - 1], events[k - 1], max);
    }
  }

  /** At every moment of every run the chunks kept are the newest bytes written. */
  lemma RingIsNewest(states: seq<Run>, events: seq<Event>, max: nat, k: nat)
    requires History(states, events, max) && k <= |events|
    ensures Flat(states[k].chunks) == LastBytes(states[k].out, max)
  {
    HistoryKeepsInv(states, events, max, k);
  }

  lemma LeftStep(r: Run, e: Event, max: nat, id: SocketId)
    requires Enabled(r, e) && id in r.sockets && !r.sockets[id].open
    ensures var v := After(r, e, max);
      && id in v.sockets && !v.sockets[id].open && v.sockets[id].frames == r.sockets[id].frames
      && (id !in r.watchers || e == Closed(id) ==> id !in v.watchers)
  {
  }

  /** A socket that has left is sent nothing more, and once the server has heard of it, it is no watcher any more. */
  lemma {:induction false} LeftGetsNothing(states: seq<Run>, events: seq<Event>, max: nat, i: nat, k: nat, id: SocketId)
    requires History(states, events, max) && i < k <= |events| && events[i] == Leave(id)
    ensures id in states[i].sockets && id in states[k].sockets
    ensures !states[k].sockets[id].open && states[k].sockets[id].frames == states[i].sockets[id].frames
    ensures (exists j :: i <= j < k && events[j] == Closed(id)) ==> id !in states[k].watchers
    decreases k
  {
    if i + 1 < k {
      LeftGetsNothing(states, events, max, i, k - 1, id);
      LeftStep(states[k - 1], events[k - 1], max, id);
    }
  }

  /** The socket's starting place never moves, nor does what was written go away. */
  lemma {:induction false} StartStays(states: seq<Run>, events: seq<Event>, max: nat, i: nat, k: nat, id: SocketId)
    requires History(states, events, max) && i <= k <= |events| && id in states[i].sockets
    ensures id in states[k].sockets && states[k].sockets[id].from == states[i].sockets[id].from
    ensures |states[i].out| <= |states[k].out| && states[k].out[..|states[i].out|] == states[i].out
    decreases k - i
  {
    if i < k {
      StartStays(states, events, max, i, k - 1, id);
    }
  }

  /** After the end nothing moves the ending, nor where a socket's output is complete. */
  lemma EndedStep(r: Run, e: Event, max: nat, id: SocketId)
    requires Enabled(r, e) && id in r.sockets && r.ending.Some?
    ensures var v := After(r, e, max); id in v.sockets && v.ending == r.ending && v.sockets[id].upto == r.sockets[id].upto
  {
  }

  lemma {:induction false} UptoStays(states: seq<Run>, events: seq<Event>, max: nat, m: nat, k: nat, id: SocketId)
    requires History(states, events, max) && m <= k <= |events| && id in states[m].sockets && states[m].ending.Some?
    ensures id in states[k].sockets && states[k].ending == states[m].ending && states[k].sockets[id].upto == states[m].sockets[id].upto
    decreases k - m
  {
    if m < k {
      UptoStays(states, events, max, m, k - 1, id);
      EndedStep(states[k - 1], events[k - 1], max, id);
    }
  }

  lemma EndingStep(r: Run, e: Event, max: nat)
    requires Enabled(r, e)
    ensures r.ending.None? && After(r, e, max).ending.Some? ==> e.Exit?
  {
  }

  /** The exit of a run that ends between two of its states. */
  lemma {:induction false} ExitBetween(states: seq<Run>, events: seq<Event>, max: nat, m: nat, k: nat) returns (j: nat)
    requires History(states, events, max) && m <= k <= |events| && states[m].ending.None? && states[k].ending.Some?
    ensures m <= j < k && events[j].Exit? && states[j].ending.None?
    decreases k - m
  {
    EndingStep(states[k - 1], events[k - 1], max);
    if states[k - 1].ending.Some? {
      j := ExitBetween(states, events, max, m, k - 1);
    } else {
      j := k - 1;
    }
  }

  lemma DropStep(r: Run, e: Event, max: nat, id: SocketId)
    requires Enabled(r, e) && id in r.sockets
    ensures var v := After(r, e, max); id in v.sockets && (r.sockets[id].dropped ==> v.sockets[id].dropped)
  {
  }

  lemma {:induction false} DroppedStays(states: seq<Run>, events: seq<Event>, max: nat, m: nat, k: nat, id: SocketId)
    requires History(states, events, max) && m <= k <= |events| && id in states[m].sockets
    ensures id in states[k].sockets && (states[m].sockets[id].dropped ==> states[k].sockets[id].dropped)
    decreases k - m
  {
    if m < k {
      DroppedStays(states, events, max, m, k - 1, id);
      DropStep(states[k - 1], events[k - 1], max, id);
    }
  }

  lemma ExitCompletes(r: Run, e: Event, max: nat, id: SocketId)
    requires Enabled(r, e) && e.Exit? && id in r.sockets && SocketInv(r, id) && !r.sockets[id].dropped
    ensures var v := After(r, e, max); id in v.sockets && v.ending.Some? && v.sockets[id].upto == |r.out|
  {
  }

  lemma AttachStep(r: Run, e: Event, max: nat, id: SocketId)
    requires Enabled(r, e) && e == Attach(id)
    ensures var v := After(r, e, max); id in v.sockets && v.ending == r.ending && (r.ending.Some? ==> v.sockets[id].upto == |r.out|)
  {
  }

  /** Where the output of a socket attached at step i is complete: at the run's exit, or at once when it had ended. */
  lemma CompleteUpTo(states: seq<Run>, events: seq<Event>, max: nat, i: nat, k: nat, id: SocketId) returns (j: nat)
    requires History(states, events, max) && i < k <= |events| && events[i] == Attach(id) && states[k].ending.Some?
    requires id in states[k].sockets && !states[k].sockets[id].dropped
    ensures i <= j < k && states[k].sockets[id].upto == |states[j].out|
    ensures if states[i].ending.Some? then j == i else events[j].Exit?
  {
    AttachStep(states[i], events[i], max, id);
    if states[i].ending.Some? {
      j := i;
    } else {
      j := ExitBetween(states, events, max, i + 1, k);
      DroppedStays(states, events, max, i + 1, j, id);
      DroppedStays(states, events, max, j, k, id);
      HistoryKeepsInv(states, events, max, j);
      ExitCompletes(states[j], events[j], max, id);
    }
    UptoStays(states, events, max, j + 1, k, id);
  }

  /** The socket attached at step i does not leave before the run has ended. */
  predicate Stays(states: seq<Run>, events: seq<Event>, i: nat, k: nat, id: SocketId)
    requires |states| == |events| + 1 && i < k <= |events|
  {
    forall j :: i < j < k && events[j] == Leave(id) ==> states[j].ending.Some?
  }

  lemma StayStep(r: Run, e: Event, max: nat, id: SocketId)
    requires Enabled(r, e) && id in r.sockets && SocketInv(r, id) && !r.sockets[id].dropped && (e == Leave(id) ==> r.ending.Some?)
    ensures var v := After(r, e, max); id in v.sockets && !v.sockets[id].dropped
  {
  }

  lemma {:induction false} StayingIsKept(states: seq<Run>, events: seq<Event>, max: nat, i: nat, k: nat, id: SocketId)
    requires History(states, events, max) && i < k <= |events| && events[i] == Attach(id) && Stays(states, events, i, k, id)
    ensures id in states[k].sockets && !states[k].sockets[id].dropped
    decreases k
  {
    if i + 1 < k {
      StayingIsKept(states, events, max, i, k - 1, id);
      HistoryKeepsInv(states, events, max, k - 1);
      assert SocketInv(states[k - 1], id);
      StayStep(states[k - 1], events[k - 1], max, id);
    }
  }

  /**
   A socket attached at step i that does not leave before the run ends has, at every later moment, been
   sent exactly the run's output from the start of what was then kept.  Once the run has ended,
   that is the output up to its exit, or up to step i when it had ended before, followed by the
   ending frame, once and last; and the socket is closed.
   */
  lemma WatcherSeesAll(states: seq<Run>, events: seq<Event>, max: nat, i: nat, k: nat, id: SocketId) returns (j: nat)
    requires History(states, events, max) && i < k <= |events| && events[i] == Attach(id) && Stays(states, events, i, k, id)
    ensures id in states[k].sockets
    ensures var s := states[k].sockets[id];
      && Followed(s, states[k].out, states[k].ending)
      && s.from == |states[i].out| - |LastBytes(states[i].out, max)|
      && (states[k].ending.Some? ==>
            i <= j < k && s.upto == |states[j].out| && if states[i].ending.Some? then j == i else events[j].Exit?)
  {
    StayingIsKept(states, events, max, i, k, id);
    StartStays(states, events, max, i + 1, k, id);
    HistoryKeepsInv(states, events, max, k);
    HistoryKeepsInv(states, events, max, i);
    assert SocketInv(states[k], id);
    j := 0;
    if states[k].ending.Some? {
      j := CompleteUpTo(states, events, max, i, k, id);
    }
  }

  /** A run as the agent keeps it in memory. */
  class LiveRun {
    const max: nat
    var chunks: seq<Bytes>
    var bytes: nat
    var ending: Option<Frame>
    var watchers: set<SocketId>
    var sockets: map<SocketId, Socket>
    var written: nat              // all bytes so far, kept to say where a replay starts
    ghost var out: Bytes

    ghost function State(): Run
      reads this
    {
      Run(chunks, ending, watchers, sockets, out)
    }

    ghost predicate Valid()
      reads this
    {
      bytes == |Flat(chunks)| && written == |out| && watchers <= sockets.Keys
    }

    constructor (max: nat)
      ensures Valid() && this.max == max && State() == Run([], None, {}, map[], [])
    {
      this.max := max;
      chunks, bytes, ending, watchers, sockets, written, out := [], 0, None, {}, map[], 0, [];
    }

    /** The loop drops whole chunks from the front and cuts the last one it reaches. */
    method Append(chunk: Bytes)
      requires Valid()
      modifies this`chunks, this`bytes
      ensures Valid() && chunks == Appended(old(chunks), chunk, max)
    {
      chunks := chunks + [chunk];
      bytes := bytes + |chunk|;
      FlatAppend(old(chunks), chunk);
      ghost var all := chunks;
      while bytes > max && |chunks| > 0
        invariant bytes == |Flat(chunks)|
        invariant DropFront(chunks, Over(bytes, max)) == DropFront(all, Over(|Flat(all)|, max))
        decreases bytes, |chunks|
      {
        var oldest := chunks[0];
        var over := bytes - max;
        if |oldest| <= over {
          chunks := chunks[1..];
          bytes := bytes - |oldest|;
        } else {
          DropFrontDrops(chunks, over);
          chunks := [oldest[over..]] + chunks[1..];
          bytes := bytes - over;
        }
      }
    }

    method OnData(chunk: Bytes)
      requires Valid()
      modifies this
      ensures Valid() && State() == After(old(State()), Data(chunk), max)
    {
      Append(chunk);
      written, out := written + |chunk|, out + chunk;
      SendToWatchers(Output(chunk));
    }

    /** Replay what is kept, then follow the run, or end and close at once when it has ended. */
    method AttachSocket(id: SocketId)
      requires Valid() && id !in sockets
      modifies this
      ensures Valid() && State() == After(old(State()), Attach(id), max)
    {
      var frames := Replay(chunks);
      var socket := Socket(frames, true, written - bytes, 0, false);
      if ending.Some? {
        socket := Hung(Send(socket, [ending.value]), written);
      } else {
        watchers := watchers + {id};
      }
      sockets := sockets[id := socket];
    }

    /** Every watcher gets the ending frame and is closed; none is left. */
    method Finish(code: int)
      requires Valid() && ending.None?
      modifies this
      ensures Valid() && State() == After(old(State()), Exit(code), max)
    {
      ending := Some(Ending(code));
      SendToWatchers(Ending(code));
      sockets := map s | s in sockets :: if s in watchers then Hung(sockets[s], written) else sockets[s];
      watchers := {};
    }

    /** One send per watcher, in any order. */
    method SendToWatchers(f: Frame)
      requires Valid()
      modifies this`sockets
      ensures Valid() && sockets == SendAll(old(sockets), watchers, f)
    {
      var left := watchers;
      while left != {}
        invariant left <= watchers && sockets.Keys == old(sockets).Keys
        invariant sockets == SendAll(old(sockets), watchers - left, f)
        decreases left
      {
        var s :| s in left;
        assert sockets[s] == old(sockets)[s];
        sockets := sockets[s := Send(sockets[s], [f])];
        left := left - {s};
      }
      assert watchers - {} == watchers;
    }
  }

  method Replay(chunks: seq<Bytes>) returns (frames: seq<Frame>)
    ensures frames == OutputFrames(chunks)
  {
    frames := [];
    for i := 0 to |chunks|
      invariant frames == OutputFrames(chunks[..i])
    {
      assert chunks[..i + 1] == chunks[..i] + [chunks[i]];
      ReplayAppend(chunks[..i], chunks[i]);
      frames := frames + [Output(chunks[i])];
    }
    assert chunks[..|chunks|] == chunks;
  }

  function Over(bytes: nat, max: nat): nat {
    if bytes > max then bytes - max else 0
  }

  // ---- Remembered runs ----

  type Check = nat

  datatype Remembered = Remembered(check: Check, live: bool)

  function Lives(runs: seq<Remembered>): seq<Remembered> {
    if runs == [] then [] else (if runs[0].live then [runs[0]] else []) + Lives(runs[1..])
  }

  function Finished(runs: seq<Remembered>): seq<Remembered> {
    if runs == [] then [] else (if runs[0].live then [] else [runs[0]]) + Finished(runs[1..])
  }

  /** Without its oldest finished run. */
  function WithoutOldest(runs: seq<Remembered>): seq<Remembered> {
    if runs == [] then [] else if !runs[0].live then runs[1..] else [runs[0]] + WithoutOldest(runs[1..])
  }

  function Evicted(runs: seq<Remembered>, max: nat): seq<Remembered>
    decreases |runs|
  {
    OldestGoes(runs);
    if |runs| <= max || Finished(runs) == [] then runs else Evicted(WithoutOldest(runs), max)
  }

  lemma {:induction false} OldestGoes(runs: seq<Remembered>)
    ensures Lives(WithoutOldest(runs)) == Lives(runs)
    ensures Finished(runs) != [] ==> Finished(WithoutOldest(runs)) == Finished(runs)[1..] && |WithoutOldest(runs)| == |runs| - 1
    ensures |runs| == |Lives(runs)| + |Finished(runs)|
  {
    if runs != [] {
      OldestGoes(runs[1..]);
      var w := WithoutOldest(runs[1..]);
      assert ([runs[0]] + w)[1..] == w;
    }
  }

  /** Eviction keeps every live run, and of the finished ones just the newest that still fit. */
  lemma {:induction false} EvictionSparesLive(runs: seq<Remembered>, max: nat)
    ensures var r := Evicted(runs, max);
      var gone := |runs| - |r|;
      && Lives(r) == Lives(runs)
      && 0 <= gone <= |Finished(runs)| && Finished(r) == Finished(runs)[gone..]
      && (|r| <= max || Finished(r) == []) && (gone > 0 ==> |r| >= max)
    decreases |runs|
  {
    OldestGoes(runs);
    if |runs| > max && Finished(runs) != [] {
      EvictionSparesLive(WithoutOldest(runs), max);
    }
  }

  method EvictOldFinishedRuns(runs: seq<Remembered>, max: nat) returns (kept: seq<Remembered>)
    ensures kept == Evicted(runs, max)
  {
    kept := runs;
    while |kept| > max
      invariant Evicted(kept, max) == Evicted(runs, max)
      decreases |kept|
    {
      OldestGoes(kept);
      var i := 0;
      while i < |kept| && kept[i].live
        invariant 0 <= i <= |kept|
        invariant forall j :: 0 <= j < i ==> kept[j].live
      {
        i := i + 1;
      }
      OldestAt(kept, i);
      if i == |kept| {
        return;
      }
      kept := kept[..i] + kept[i + 1..];
    }
  }

  lemma {:induction false} OldestAt(runs: seq<Remembered>, i: nat)
    requires i <= |runs| && (forall j :: 0 <= j < i ==> runs[j].live) && (i < |runs| ==> !runs[i].live)
    ensures i == |runs| ==> Finished(runs) == []
    ensures i < |runs| ==> Finished(runs) != [] && WithoutOldest(runs) == runs[..i] + runs[i + 1..]
    decreases i
  {
    if i > 0 {
      OldestAt(runs[1..], i - 1);
      if i < |runs| {
        assert runs[1..][..i - 1] == runs[1..i] && runs[1..][i..] == runs[i + 1..];
        assert [runs[0]] + (runs[1..i] + runs[i + 1..]) == runs[..i] + runs[i + 1..];
      }
    }
  }

  // ---- Starting and ending checks ----

  datatype Job = Start(check: Check) | End(check: Check)

  function Remove(runs: seq<Remembered>, check: Check): seq<Remembered> {
    if runs == [] then [] else (if runs[0].check == check then [] else [runs[0]]) + Remove(runs[1..], check)
  }

  function MarkEnded(runs: seq<Remembered>, check: Check): (r: seq<Remembered>)
    ensures |r| == |runs|
  {
    seq(|runs|, i requires 0 <= i < |runs| => if runs[i].check == check then Remembered(check, false) else runs[i])
  }

  predicate IsLive(runs: seq<Remembered>, check: Check) {
    Remembered(check, true) in runs
  }

  /** A start is refused while the check runs. */
  function AfterJob(runs: seq<Remembered>, job: Job, max: nat): seq<Remembered> {
    match job
    case Start(check) => if IsLive(runs, check) then runs else Evicted(Remove(runs, check) + [Remembered(check, true)], max)
    case End(check) => MarkEnded(runs, check)
  }

  lemma {:induction false} LivesHasLive(runs: seq<Remembered>, check: Check)
    ensures Remembered(check, true) in Lives(runs) <==> IsLive(runs, check)
  {
    if runs != [] {
      LivesHasLive(runs[1..], check);
    }
  }

  lemma {:induction false} RemoveKeepsOthers(runs: seq<Remembered>, check: Check, other: Check)
    requires other != check
    ensures IsLive(Remove(runs, check), other) <==> IsLive(runs, other)
  {
    if runs != [] {
      RemoveKeepsOthers(runs[1..], check, other);
    }
  }

  /** Whatever starts or ends elsewhere, a live run is remembered until it ends itself; a start makes its check live. */
  lemma LiveRunStays(runs: seq<Remembered>, job: Job, max: nat, check: Check)
    ensures IsLive(runs, check) && job != End(check) ==> IsLive(AfterJob(runs, job, max), check)
    ensures job == Start(check) ==> IsLive(AfterJob(runs, job, max), check)
  {
    match job
    case Start(c) =>
      if !IsLive(runs, c) {
        var started := Remove(runs, c) + [Remembered(c, true)];
        EvictionSparesLive(started, max);
        LivesHasLive(started, check);
        LivesHasLive(Evicted(started, max), check);
        if check != c {
          RemoveKeepsOthers(runs, c, check);
        }
      }
    case End(c) =>
      if IsLive(runs, check) && c != check {
        var i :| 0 <= i < |runs| && runs[i] == Remembered(check, true);
        assert MarkEnded(runs, c)[i] == runs[i];
      }
  }

  function JobsRun(jobs: seq<Job>, max: nat): seq<Remembered> {
    if jobs == [] then [] else AfterJob(JobsRun(jobs[..|jobs| - 1], max), jobs[|jobs| - 1], max)
  }

  lemma {:induction false} RemovedIsGone(runs: seq<Remembered>, check: Check, other: Check)
    ensures IsLive(Remove(runs, check), other) <==> other != check && IsLive(runs, other)
  {
    if runs != [] {
      RemovedIsGone(runs[1..], check, other);
    }
  }

  /** Just which checks are live after a job: a start makes its own so and an end ends it, whatever is evicted. */
  lemma LiveAfterJob(runs: seq<Remembered>, job: Job, max: nat, check: Check)
    ensures IsLive(AfterJob(runs, job, max), check) <==> job == Start(check) || (job != End(check) && IsLive(runs, check))
  {
    match job
    case Start(c) =>
      if !IsLive(runs, c) {
        var started := Remove(runs, c) + [Remembered(c, true)];
        RemovedIsGone(runs, c, check);
        EvictionSparesLive(started, max);
        LivesHasLive(started, check);
        LivesHasLive(Evicted(started, max), check);
      }
    case End(c) =>
      var ended := MarkEnded(runs, c);
      if IsLive(runs, check) && c != check {
        var i :| 0 <= i < |runs| && runs[i] == Remembered(check, true);
        assert ended[i] == runs[i];
      }
      if IsLive(ended, check) {
        var i :| 0 <= i < |ended| && ended[i] == Remembered(check, true);
        assert ended[i] == runs[i] && runs[i] in runs;
      }
  }

  /** The last job about a check was its start. */
  predicate Started(jobs: seq<Job>, check: Check) {
    jobs != [] && (jobs[|jobs| - 1] == Start(check) || (jobs[|jobs| - 1] != End(check) && Started(jobs[..|jobs| - 1], check)))
  }

  /** Over any sequence of starts and ends the live checks are just those started and not ended since, so just those refuse another start. */
  lemma {:induction false} LiveIffStarted(jobs: seq<Job>, max: nat, check: Check)
    ensures IsLive(JobsRun(jobs, max), check) <==> Started(jobs, check)
    decreases |jobs|
  {
    if jobs != [] {
      LiveIffStarted(jobs[..|jobs| - 1], max, check);
      LiveAfterJob(JobsRun(jobs[..|jobs| - 1], max), jobs[|jobs| - 1], max, check);
    }
  }

  /** A run that has started and not ended since is remembered, and live. */
  lemma {:induction false} NeverEvictedAlive(jobs: seq<Job>, max: nat, i: nat, check: Check)
    requires i < |jobs| && jobs[i] == Start(check) && (forall j :: i < j < |jobs| ==> jobs[j] != End(check))
    ensures IsLive(JobsRun(jobs, max), check)
    decreases |jobs|
  {
    var n := |jobs| - 1;
    LiveRunStays(JobsRun(jobs[..n], max), jobs[n], max, check);
    if i < n {
      NeverEvictedAlive(jobs[..n], max, i, check);
    }
  }
}
