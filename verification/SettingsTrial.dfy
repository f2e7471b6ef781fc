/**
 The trial of an address or sign-in change: snapshot, apply, keep or put back.

 Every file the protocol touches is part of a Host.  Each atomic file write or removal is
 one Op, a job is the list of Ops it performs, and a job that is cut short performs a
 prefix of that list.  All jobs hold one lock, so jobs never interleave.
 */
module SettingsTrial {
  import opened Wrappers

  const MAX_FILE_BYTES: nat := 512 * 1024

  type Text = string

  /** portikus.yaml, secrets.yaml and the Google service-account key. */
  datatype Files = Files(answers: Option<Text>, secrets: Option<Text>, key: Option<Text>)

  datatype Phase = Running | Open

  /** The "config" member of trial.json: absent, or the hash of portikus.yaml, modelled by its contents. */
  datatype Config = NotRecorded | Recorded(answers: Option<Text>)

  datatype Trial = Trial(id: nat, phase: Phase, config: Config, endsAt: Option<int>)

  /** The state directory: trial.json, the two snapshots, the earlier key, and the mark that there was no key. */
  datatype StateDir = StateDir(
    trial: Option<Trial>, answers: Option<Text>, secrets: Option<Text>, key: Option<Text>, noKey: bool)

  datatype Host = Host(files: Files, dir: StateDir)

  datatype Op =
    | PutAnswers(text: Text) | PutSecrets(text: Text) | DropSecrets | PutKey(text: Text) | DropKey
    | PutTrial(trial: Trial) | DropTrial
    | PutOldAnswers(text: Text) | DropOldAnswers | PutOldSecrets(text: Text) | DropOldSecrets
    | PutOldKey(text: Text) | DropOldKey | PutNoKey | DropNoKey

  function Do(h: Host, op: Op): Host {
    match op
    case PutAnswers(t) => h.(files := h.files.(answers := Some(t)))
    case PutSecrets(t) => h.(files := h.files.(secrets := Some(t)))
    case DropSecrets => h.(files := h.files.(secrets := None))
    case PutKey(t) => h.(files := h.files.(key := Some(t)))
    case DropKey => h.(files := h.files.(key := None))
    case PutTrial(t) => h.(dir := h.dir.(trial := Some(t)))
    case DropTrial => h.(dir := h.dir.(trial := None))
    case PutOldAnswers(t) => h.(dir := h.dir.(answers := Some(t)))
    case DropOldAnswers => h.(dir := h.dir.(answers := None))
    case PutOldSecrets(t) => h.(dir := h.dir.(secrets := Some(t)))
    case DropOldSecrets => h.(dir := h.dir.(secrets := None))
    case PutOldKey(t) => h.(dir := h.dir.(key := Some(t)))
    case DropOldKey => h.(dir := h.dir.(key := None))
    case PutNoKey => h.(dir := h.dir.(noKey := true))
    case DropNoKey => h.(dir := h.dir.(noKey := false))
  }

  function DoAll(h: Host, ops: seq<Op>): Host
    decreases |ops|
  {
    if ops == [] then h else DoAll(Do(h, ops[0]), ops[1..])
  }

  /** A file read back: a file over the size limit reads as no file at all. */
  function Read(file: Option<Text>): Option<Text> {
    if file.Some? && |file.value| <= MAX_FILE_BYTES then file else None
  }

  /** That limit is half a mebibyte. */
  lemma ReadLimit(file: Option<Text>)
    ensures Read(file) == if file.Some? && |file.value| > 524_288 then None else file
  {
  }

  predicate Readable(f: Files) {
    f.answers.Some? && Read(f.answers) == f.answers && Read(f.secrets) == f.secrets && Read(f.key) == f.key
  }

  /* ---------- The parts of a job ---------- */

  function SnapshotOps(f: Files): seq<Op> {
    [DropOldAnswers]
    + (if Read(f.answers).Some? then [PutOldAnswers(f.answers.value)] else [])
    + [DropOldSecrets]
    + (if Read(f.secrets).Some? then [PutOldSecrets(f.secrets.value)] else [])
  }

  function SnapshotKeyOps(f: Files): seq<Op> {
    [DropOldKey, DropNoKey] + (if Read(f.key).Some? then [PutOldKey(f.key.value)] else [PutNoKey])
  }

  function RestoreOps(d: StateDir): seq<Op> {
    (if Read(d.answers).Some? then [PutAnswers(d.answers.value)] else [])
    + (if Read(d.secrets).Some? then [PutSecrets(d.secrets.value)] else [DropSecrets])
    + (if Read(d.key).Some? then [PutKey(d.key.value)] else if d.noKey then [DropKey] else [])
  }

  const FORGET_OPS: seq<Op> := [DropTrial, DropOldAnswers, DropOldSecrets, DropOldKey, DropNoKey]

  /** Someone else's answers now hold: the recorded contents are no longer portikus.yaml's. */
  predicate Superseded(h: Host, t: Trial) {
    t.config.Recorded? && t.config.answers != Read(h.files.answers)
  }

  function RevertOps(h: Host, t: Trial): seq<Op> {
    if Superseded(h, t) then FORGET_OPS else RestoreOps(h.dir) + FORGET_OPS
  }

  /* ---------- Opening a trial ---------- */

  /** What a checked request will write: both settings files, and a key when the request carries one. */
  datatype Plan = Plan(answers: Text, secrets: Text, key: Option<Text>)

  /** The outcomes of everything outside the files: other processes, commands and the clock. */
  datatype OpenEnv = OpenEnv(
    id: nat, lockFree: bool, setupRunning: bool, plan: Option<Plan>, armSetup: bool,
    failsAfter: Option<nat>, setupOk: bool, healthy: bool, armTrial: bool, endsAt: int)

  predicate Refused(h: Host, env: OpenEnv) {
    h.files.answers.None? || !env.lockFree || h.dir.trial.Some? || env.setupRunning || env.plan.None?
  }

  function FirstTrial(env: OpenEnv): Trial {
    Trial(env.id, Running, NotRecorded, None)
  }

  function RecordedTrial(env: OpenEnv, p: Plan): Trial {
    Trial(env.id, Running, Recorded(Read(Some(p.answers))), None)
  }

  function OpenTrial(env: OpenEnv, p: Plan): Trial {
    RecordedTrial(env, p).(phase := Open, endsAt := Some(env.endsAt))
  }

  function PrologueOps(f: Files, env: OpenEnv, p: Plan): seq<Op> {
    SnapshotOps(f) + (if p.key.Some? then SnapshotKeyOps(f) else []) + [PutTrial(FirstTrial(env))]
  }

  /** write-settings writes the two files, then the key follows, then the hash is recorded. */
  function ChangeOps(env: OpenEnv, p: Plan): seq<Op> {
    [PutAnswers(p.answers), PutSecrets(p.secrets)]
    + (if p.key.Some? then [PutKey(p.key.value)] else [])
    + [PutTrial(RecordedTrial(env, p))]
  }

  /** The changes that were made before one of them failed, or all of them. */
  function MadeOps(env: OpenEnv, p: Plan): seq<Op> {
    if env.failsAfter.Some? && env.failsAfter.value < |ChangeOps(env, p)|
    then ChangeOps(env, p)[..env.failsAfter.value] else ChangeOps(env, p)
  }

  predicate ChangeFails(env: OpenEnv, p: Plan) {
    env.failsAfter.Some? && env.failsAfter.value < |ChangeOps(env, p)|
  }

  /** Everything an opening job does up to the point where a revert could begin. */
  function ForwardOps(h: Host, env: OpenEnv): seq<Op> {
    if Refused(h, env) then [] else
    var p := env.plan.value;
    var prologue := PrologueOps(h.files, env, p);
    if !env.armSetup then prologue + FORGET_OPS else
    var made := prologue + MadeOps(env, p);
    if ChangeFails(env, p) then made + (RestoreOps(DoAll(h, made).dir) + FORGET_OPS)
    else if !env.setupOk || !env.healthy then made
    else made + [PutTrial(OpenTrial(env, p))]
  }

  /** The revert an opening job ends with when setup, health or the timer fails. */
  function BackOps(h: Host, env: OpenEnv): seq<Op> {
    if Refused(h, env) || !env.armSetup || ChangeFails(env, env.plan.value) then [] else
    var p := env.plan.value;
    if !env.setupOk || !env.healthy then RevertOps(DoAll(h, ForwardOps(h, env)), RecordedTrial(env, p))
    else if !env.armTrial then RevertOps(DoAll(h, ForwardOps(h, env)), OpenTrial(env, p))
    else []
  }

  /* ---------- Jobs and runs ---------- */

  datatype Event =
    | OpenJob(env: OpenEnv, stop: Option<nat>)
    | KeepJob(id: nat)
    | RollbackJob(id: nat)
    | ExpireJob(id: nat, now: int)
    | RecoverJob(lockFree: bool, now: int)

  predicate IsOpen(h: Host, id: nat) {
    h.dir.trial.Some? && h.dir.trial.value.id == id && h.dir.trial.value.phase == Open
  }

  /** The trial is cut short or its deadline is within five seconds. */
  predicate Overdue(t: Trial, now: int) {
    t.phase != Open || t.endsAt.None? || t.endsAt.value <= now + 5
  }

  function EndOverdueOps(h: Host, t: Trial, now: int): seq<Op> {
    if Overdue(t, now) then RevertOps(h, t) else []
  }

  function JobOps(h: Host, e: Event): seq<Op> {
    match e
    case OpenJob(env, stop) =>
      var forward := ForwardOps(h, env);
      if stop.Some? && stop.value <= |forward| then forward[..stop.value] else forward + BackOps(h, env)
    case KeepJob(id) => if IsOpen(h, id) then FORGET_OPS else []
    case RollbackJob(id) => if IsOpen(h, id) then RevertOps(h, h.dir.trial.value) else []
    case ExpireJob(id, now) =>
      if h.dir.trial.Some? && h.dir.trial.value.id == id then EndOverdueOps(h, h.dir.trial.value, now) else []
    case RecoverJob(lockFree, now) =>
      if lockFree && h.dir.trial.Some? then EndOverdueOps(h, h.dir.trial.value, now) else []
  }

  function After(h: Host, e: Event): Host {
    DoAll(h, JobOps(h, e))
  }

  /** The files that hold once no trial is open: those of the last kept trial. */
  function Kept(h: Host, kept: Files, e: Event): Files {
    if e.KeepJob? && IsOpen(h, e.id) then h.files else kept
  }

  function Run(h: Host, kept: Files, es: seq<Event>): (Host, Files)
    decreases |es|
  {
    if es == [] then (h, kept) else Run(After(h, es[0]), Kept(h, kept, es[0]), es[1..])
  }

  /** Every file a request writes is small enough to be read back. */
  predicate Fits(e: Event) {
    e.OpenJob? && e.env.plan.Some? ==>
      var p := e.env.plan.value;
      Readable(Files(Some(p.answers), Some(p.secrets), p.key))
  }

  predicate AllFit(es: seq<Event>) {
    forall e :: e in es ==> Fits(e)
  }

  /* ---------- What every step keeps ---------- */

  /** Putting the key marks back, where there are any, would leave this key file. */
  predicate KeyMarksAgree(d: StateDir, key: Option<Text>) {
    if Read(d.key).Some? then d.key == key else d.noKey ==> key.None?
  }

  predicate Inv(h: Host, kept: Files) {
    && Readable(kept)
    && Readable(h.files)
    && (h.dir.key.Some? ==> !h.dir.noKey && h.dir.key == kept.key)
    && (h.dir.noKey ==> kept.key.None?)
    && match h.dir.trial
       case None => h.files == kept
       case Some(t) =>
         && h.dir.answers == kept.answers
         && h.dir.secrets == kept.secrets
         && (h.dir.key.Some? || h.dir.noKey || h.files.key == kept.key)
         && !Superseded(h, t)
  }

  lemma {:induction false} DoAllConcat(h: Host, a: seq<Op>, b: seq<Op>)
    ensures DoAll(h, a + b) == DoAll(DoAll(h, a), b)
    decreases |a|
  {
    if a == [] {
      assert a + b == b;
    } else {
      assert (a + b)[1..] == a[1..] + b;
      DoAllConcat(Do(h, a[0]), a[1..], b);
    }
  }

  /** The invariant at every prefix of a list of file operations. */
  predicate AllAlong(h: Host, ops: seq<Op>, kept: Files)
    decreases |ops|
  {
    Inv(h, kept) && (ops != [] ==> AllAlong(Do(h, ops[0]), ops[1..], kept))
  }

  lemma {:induction false} AllAlongConcat(h: Host, a: seq<Op>, b: seq<Op>, kept: Files)
    requires AllAlong(h, a, kept) && AllAlong(DoAll(h, a), b, kept)
    ensures AllAlong(h, a + b, kept)
    decreases |a|
  {
    if a == [] {
      assert a + b == b;
    } else {
      assert (a + b)[1..] == a[1..] + b;
      AllAlongConcat(Do(h, a[0]), a[1..], b, kept);
    }
  }

  lemma {:induction false} AllAlongAt(h: Host, ops: seq<Op>, n: nat, kept: Files)
    requires AllAlong(h, ops, kept) && n <= |ops|
    ensures Inv(DoAll(h, ops[..n]), kept)
    ensures AllAlong(h, ops[..n], kept)
    decreases n
  {
    if n > 0 {
      assert ops[..n][1..] == ops[1..][..n - 1];
      AllAlongAt(Do(h, ops[0]), ops[1..], n - 1, kept);
    }
  }

  lemma {:induction false} DoOne(h: Host, a: seq<Op>, op: Op)
    ensures DoAll(h, a + [op]) == Do(DoAll(h, a), op)
  {
    DoAllConcat(h, a, [op]);
    assert DoAll(DoAll(h, a), [op]) == DoAll(Do(DoAll(h, a), op), [op][1..]);
  }

  /** One more operation that keeps the invariant. */
  lemma {:induction false} One(h: Host, a: seq<Op>, op: Op, kept: Files)
    requires AllAlong(h, a, kept) && Inv(Do(DoAll(h, a), op), kept)
    ensures DoAll(h, a + [op]) == Do(DoAll(h, a), op)
    ensures AllAlong(h, a + [op], kept)
  {
    DoOne(h, a, op);
    AllAlongAt(h, a, |a|, kept);
    assert a[..|a|] == a;
    var g := DoAll(h, a);
    assert [op][1..] == [];
    assert AllAlong(Do(g, op), [], kept);
    assert AllAlong(g, [op], kept);
    AllAlongConcat(h, a, [op], kept);
  }

  lemma SnapshotSafe(h: Host, kept: Files)
    requires Inv(h, kept) && h.dir.trial.None?
    ensures AllAlong(h, SnapshotOps(h.files), kept)
    ensures DoAll(h, SnapshotOps(h.files)) == h.(dir := h.dir.(answers := kept.answers, secrets := kept.secrets))
  {
    var a := [DropOldAnswers];
    One(h, [], DropOldAnswers, kept);
    assert [] + a == a;
    var b := a + [PutOldAnswers(h.files.answers.value)];
    One(h, a, PutOldAnswers(h.files.answers.value), kept);
    One(h, b, DropOldSecrets, kept);
    if Read(h.files.secrets).Some? {
      One(h, b + [DropOldSecrets], PutOldSecrets(h.files.secrets.value), kept);
    } else {
      assert SnapshotOps(h.files) == b + [DropOldSecrets];
    }
  }

  lemma SnapshotKeySafe(h: Host, kept: Files)
    requires Inv(h, kept) && h.dir.trial.None?
    ensures AllAlong(h, SnapshotKeyOps(h.files), kept)
    ensures DoAll(h, SnapshotKeyOps(h.files)) == h.(dir := h.dir.(key := kept.key, noKey := kept.key.None?))
  {
    One(h, [], DropOldKey, kept);
    assert [] + [DropOldKey] == [DropOldKey];
    One(h, [DropOldKey], DropNoKey, kept);
    assert [DropOldKey] + [DropNoKey] == [DropOldKey, DropNoKey];
    One(h, [DropOldKey, DropNoKey],
        if Read(h.files.key).Some? then PutOldKey(h.files.key.value) else PutNoKey, kept);
  }

  lemma {:induction false} Five(h: Host, a: Op, b: Op, c: Op, d: Op, e: Op)
    ensures DoAll(h, [a, b, c, d, e]) == Do(Do(Do(Do(Do(h, a), b), c), d), e)
  {
    DoOne(h, [a, b, c, d], e);
    DoOne(h, [a, b, c], d);
    DoOne(h, [a, b], c);
    DoOne(h, [a], b);
    assert [a, b, c, d] + [e] == [a, b, c, d, e] && [a, b, c] + [d] == [a, b, c, d];
    assert [a, b] + [c] == [a, b, c] && [a] + [b] == [a, b];
    assert [a][1..] == [];
  }

  lemma ForgetResult(h: Host)
    ensures DoAll(h, FORGET_OPS) == Host(h.files, StateDir(None, None, None, None, false))
  {
    Five(h, DropTrial, DropOldAnswers, DropOldSecrets, DropOldKey, DropNoKey);
  }

  lemma {:induction false} FiveAlong(h: Host, a: Op, b: Op, c: Op, d: Op, e: Op, kept: Files)
    requires Inv(h, kept) && Inv(Do(h, a), kept) && Inv(Do(Do(h, a), b), kept) && Inv(Do(Do(Do(h, a), b), c), kept)
    requires Inv(Do(Do(Do(Do(h, a), b), c), d), kept) && Inv(Do(Do(Do(Do(Do(h, a), b), c), d), e), kept)
    ensures AllAlong(h, [a, b, c, d, e], kept)
  {
    assert [] + [a] == [a] && [a] + [b] == [a, b] && [a, b] + [c] == [a, b, c];
    assert [a, b, c] + [d] == [a, b, c, d] && [a, b, c, d] + [e] == [a, b, c, d, e];
    One(h, [], a, kept);
    One(h, [a], b, kept);
    One(h, [a, b], c, kept);
    One(h, [a, b, c], d, kept);
    One(h, [a, b, c, d], e, kept);
  }

  lemma ForgetSafe(h: Host, kept: Files)
    requires Inv(h, kept) && h.files == kept
    ensures AllAlong(h, FORGET_OPS, kept)
  {
    FiveAlong(h, DropTrial, DropOldAnswers, DropOldSecrets, DropOldKey, DropNoKey, kept);
  }

  /** What restoring leaves, from any state directory at all. */
  lemma RestoreResult(h: Host)
    ensures var d := h.dir;
      DoAll(h, RestoreOps(d)) == h.(files := Files(
        if Read(d.answers).Some? then d.answers else h.files.answers,
        Read(d.secrets),
        if Read(d.key).Some? then d.key else if d.noKey then None else h.files.key))
  {
    var d := h.dir;
    var a := if Read(d.answers).Some? then [PutAnswers(d.answers.value)] else [];
    var b := if Read(d.secrets).Some? then [PutSecrets(d.secrets.value)] else [DropSecrets];
    var c := if Read(d.key).Some? then [PutKey(d.key.value)] else if d.noKey then [DropKey] else [];
    DoAllConcat(h, a + b, c);
    DoAllConcat(h, a, b);
  }

  /** A trial cut short before its hash was recorded may even be cut short again while it is put back. */
  lemma RestoreSafe(h: Host, kept: Files)
    requires Inv(h, kept) && h.dir.trial.Some? && h.dir.trial.value.config.NotRecorded?
    ensures AllAlong(h, RestoreOps(h.dir), kept)
  {
    var d := h.dir;
    var a := [PutAnswers(d.answers.value)];
    One(h, [], PutAnswers(d.answers.value), kept);
    assert [] + a == a;
    var op := if Read(d.secrets).Some? then PutSecrets(d.secrets.value) else DropSecrets;
    One(h, a, op, kept);
    if Read(d.key).Some? || d.noKey {
      One(h, a + [op], if Read(d.key).Some? then PutKey(d.key.value) else DropKey, kept);
    } else {
      assert RestoreOps(d) == a + [op];
    }
  }

  /** A revert that is not superseded ends with the kept files and an empty state directory. */
  lemma RevertResult(h: Host, kept: Files)
    requires Inv(h, kept) && h.dir.trial.Some?
    ensures DoAll(h, RevertOps(h, h.dir.trial.value)) == Host(kept, StateDir(None, None, None, None, false))
  {
    DoAllConcat(h, RestoreOps(h.dir), FORGET_OPS);
    RestoreResult(h);
    ForgetResult(h.(files := kept));
  }

  lemma PrologueSafe(h: Host, env: OpenEnv, p: Plan, kept: Files)
    requires Inv(h, kept) && h.dir.trial.None?
    ensures AllAlong(h, PrologueOps(h.files, env, p), kept)
    ensures var g := DoAll(h, PrologueOps(h.files, env, p));
      && g.files == kept
      && g.dir.trial == Some(FirstTrial(env))
      && (p.key.Some? ==> g.dir.key.Some? || g.dir.noKey)
  {
    var a := SnapshotOps(h.files);
    SnapshotSafe(h, kept);
    var g := DoAll(h, a);
    AllAlongAt(h, a, |a|, kept);
    assert a[..|a|] == a;
    var b := if p.key.Some? then SnapshotKeyOps(h.files) else [];
    if p.key.Some? {
      SnapshotKeySafe(g, kept);
    }
    AllAlongConcat(h, a, b, kept);
    DoAllConcat(h, a, b);
    One(h, a + b, PutTrial(FirstTrial(env)), kept);
  }

  lemma ChangesSafe(g: Host, env: OpenEnv, p: Plan, kept: Files)
    requires Inv(g, kept) && g.dir.trial == Some(FirstTrial(env))
    requires Readable(Files(Some(p.answers), Some(p.secrets), p.key))
    requires p.key.Some? ==> g.dir.key.Some? || g.dir.noKey
    ensures AllAlong(g, ChangeOps(env, p), kept)
    ensures DoAll(g, ChangeOps(env, p)).dir.trial == Some(RecordedTrial(env, p))
    ensures DoAll(g, ChangeOps(env, p)).files.answers == Some(p.answers)
  {
    var a := [PutAnswers(p.answers)];
    One(g, [], PutAnswers(p.answers), kept);
    assert [] + a == a;
    One(g, a, PutSecrets(p.secrets), kept);
    var b := a + [PutSecrets(p.secrets)];
    assert b == [PutAnswers(p.answers), PutSecrets(p.secrets)];
    if p.key.Some? {
      One(g, b, PutKey(p.key.value), kept);
      One(g, b + [PutKey(p.key.value)], PutTrial(RecordedTrial(env, p)), kept);
    } else {
      One(g, b, PutTrial(RecordedTrial(env, p)), kept);
      assert ChangeOps(env, p) == b + [PutTrial(RecordedTrial(env, p))];
    }
  }

  /** Before the hash is recorded the trial on disk is still the first one. */
  lemma FailedChangesUnrecorded(g: Host, env: OpenEnv, p: Plan, n: nat)
    requires g.dir.trial == Some(FirstTrial(env)) && n < |ChangeOps(env, p)|
    ensures DoAll(g, ChangeOps(env, p)[..n]).dir.trial == Some(FirstTrial(env))
  {
    var ops := ChangeOps(env, p);
    if n > 0 {
      FailedChangesUnrecorded(g, env, p, n - 1);
      assert ops[..n - 1] + [ops[n - 1]] == ops[..n];
      DoOne(g, ops[..n - 1], ops[n - 1]);
    }
  }

  /** An opening job that is cut short anywhere before a revert begins keeps the invariant. */
  lemma ForwardSafe(h: Host, env: OpenEnv, kept: Files)
    requires Inv(h, kept) && Fits(OpenJob(env, None))
    ensures AllAlong(h, ForwardOps(h, env), kept)
    ensures BackOps(h, env) != [] ==>
      var g := DoAll(h, ForwardOps(h, env));
      Inv(g, kept) && g.dir.trial.Some? && BackOps(h, env) == RevertOps(g, g.dir.trial.value)
  {
    if !Refused(h, env) {
      var p := env.plan.value;
      var prologue := PrologueOps(h.files, env, p);
      PrologueSafe(h, env, p, kept);
      var g := DoAll(h, prologue);
      AllAlongAt(h, prologue, |prologue|, kept);
      assert prologue[..|prologue|] == prologue;
      if !env.armSetup {
        ForgetSafe(g, kept);
        AllAlongConcat(h, prologue, FORGET_OPS, kept);
      } else {
        var all, made := ChangeOps(env, p), MadeOps(env, p);
        ChangesSafe(g, env, p, kept);
        AllAlongAt(g, all, |made|, kept);
        assert made == all[..|made|];
        AllAlongConcat(h, prologue, made, kept);
        DoAllConcat(h, prologue, made);
        var m := DoAll(h, prologue + made);
        if ChangeFails(env, p) {
          FailedChangesUnrecorded(g, env, p, |made|);
          RestoreSafe(m, kept);
          RestoreResult(m);
          var r := DoAll(m, RestoreOps(m.dir));
          AllAlongAt(m, RestoreOps(m.dir), |RestoreOps(m.dir)|, kept);
          assert RestoreOps(m.dir)[..|RestoreOps(m.dir)|] == RestoreOps(m.dir);
          ForgetSafe(r, kept);
          AllAlongConcat(m, RestoreOps(m.dir), FORGET_OPS, kept);
          AllAlongConcat(h, prologue + made, RestoreOps(m.dir) + FORGET_OPS, kept);
        } else {
          assert made == all;
          if env.setupOk && env.healthy {
            One(h, prologue + made, PutTrial(OpenTrial(env, p)), kept);
          }
        }
      }
    }
  }

  /** Every job keeps the invariant, against the files that are kept after it. */
  lemma JobKeepsInv(h: Host, kept: Files, e: Event)
    requires Inv(h, kept) && Fits(e)
    ensures Inv(After(h, e), Kept(h, kept, e))
  {
    match e
    case OpenJob(env, stop) =>
      ForwardSafe(h, env, kept);
      var forward := ForwardOps(h, env);
      if stop.Some? && stop.value <= |forward| {
        AllAlongAt(h, forward, stop.value, kept);
      } else {
        AllAlongAt(h, forward, |forward|, kept);
        assert forward[..|forward|] == forward;
        var g := DoAll(h, forward);
        DoAllConcat(h, forward, BackOps(h, env));
        if BackOps(h, env) != [] {
          RevertResult(g, kept);
        }
      }
    case KeepJob(id) =>
      ForgetResult(h);
    case RollbackJob(id) =>
      if IsOpen(h, id) { RevertResult(h, kept); }
    case ExpireJob(id, now) =>
      if JobOps(h, e) != [] { RevertResult(h, kept); }
    case RecoverJob(lockFree, now) =>
      if JobOps(h, e) != [] { RevertResult(h, kept); }
  }

  /**
   Whole-run safety: over every sequence of jobs, opening jobs cut short included, whenever no
   trial is open the three files are those of the last kept trial, or the initial ones.
   */
  lemma {:induction false} WholeRunSafe(h: Host, kept: Files, es: seq<Event>)
    requires Inv(h, kept) && AllFit(es)
    ensures var (g, k) := Run(h, kept, es);
      Inv(g, k) && (g.dir.trial.None? ==> g.files == k)
    decreases |es|
  {
    if es != [] {
      JobKeepsInv(h, kept, es[0]);
      WholeRunSafe(After(h, es[0]), Kept(h, kept, es[0]), es[1..]);
    }
  }

  /** A request while a trial is open is refused and touches nothing, so at most one trial is ever open. */
  lemma OneTrialAtATime(h: Host, env: OpenEnv, stop: Option<nat>)
    requires h.dir.trial.Some?
    ensures After(h, OpenJob(env, stop)) == h
  {
  }

  predicate NotReopened(id: nat, es: seq<Event>) {
    forall e :: e in es && e.OpenJob? ==> e.env.id != id
  }

  predicate IdGone(h: Host, id: nat) {
    h.dir.trial.Some? ==> h.dir.trial.value.id != id
  }

  /** No operation of the list writes a trial with this id. */
  predicate Avoids(ops: seq<Op>, id: nat) {
    forall i :: 0 <= i < |ops| && ops[i].PutTrial? ==> ops[i].trial.id != id
  }

  lemma ForwardAvoids(h: Host, env: OpenEnv, id: nat)
    requires env.id != id
    ensures Avoids(ForwardOps(h, env), id)
  {
    if !Refused(h, env) {
      var p := env.plan.value;
      var prologue := PrologueOps(h.files, env, p);
      assert Avoids(SnapshotOps(h.files), id) && Avoids(SnapshotKeyOps(h.files), id);
      assert Avoids(prologue, id) && Avoids(FORGET_OPS, id);
      assert Avoids(ChangeOps(env, p), id) && Avoids(MadeOps(env, p), id);
      assert Avoids(RestoreOps(DoAll(h, prologue + MadeOps(env, p)).dir), id);
    }
  }

  lemma JobAvoids(h: Host, e: Event, id: nat)
    requires e.OpenJob? ==> e.env.id != id
    ensures Avoids(JobOps(h, e), id)
  {
    assert Avoids(FORGET_OPS, id);
    if e.OpenJob? {
      ForwardAvoids(h, e.env, id);
      var g := DoAll(h, ForwardOps(h, e.env));
      assert Avoids(RestoreOps(g.dir), id);
      assert Avoids(BackOps(h, e.env), id);
    } else {
      assert Avoids(RestoreOps(h.dir), id);
    }
  }

  lemma {:induction false} OpsKeepIdGone(h: Host, ops: seq<Op>, id: nat)
    requires IdGone(h, id) && Avoids(ops, id)
    ensures IdGone(DoAll(h, ops), id)
    decreases |ops|
  {
    if ops != [] {
      OpsKeepIdGone(Do(h, ops[0]), ops[1..], id);
    }
  }

  lemma {:induction false} IdStaysGone(h: Host, kept: Files, es: seq<Event>, id: nat)
    requires IdGone(h, id) && NotReopened(id, es)
    ensures IdGone(Run(h, kept, es).0, id)
    decreases |es|
  {
    if es != [] {
      JobAvoids(h, es[0], id);
      OpsKeepIdGone(h, JobOps(h, es[0]), id);
      IdStaysGone(After(h, es[0]), Kept(h, kept, es[0]), es[1..], id);
    }
  }

  /** A kept trial is never undone: its later expiry and any later rollback of it do nothing at all. */
  lemma KeptIsFinal(h: Host, kept: Files, id: nat, es: seq<Event>, now: int)
    requires IsOpen(h, id) && NotReopened(id, es)
    ensures var g := Run(After(h, KeepJob(id)), h.files, es).0;
      After(g, ExpireJob(id, now)) == g && After(g, RollbackJob(id)) == g
  {
    ForgetResult(h);
    IdStaysGone(After(h, KeepJob(id)), h.files, es, id);
  }

  /** An open trial is this request's, with its deadline. */
  predicate OpenFrom(t: Trial, env: OpenEnv) {
    t.phase == Open ==> t.id == env.id && t.endsAt == Some(env.endsAt)
  }

  predicate OpensOnly(ops: seq<Op>, env: OpenEnv) {
    forall i :: 0 <= i < |ops| && ops[i].PutTrial? ==> OpenFrom(ops[i].trial, env)
  }

  lemma ForwardOpensOnly(h: Host, env: OpenEnv)
    ensures OpensOnly(ForwardOps(h, env), env)
  {
    if !Refused(h, env) {
      var p := env.plan.value;
      var prologue := PrologueOps(h.files, env, p);
      assert OpensOnly(SnapshotOps(h.files), env) && OpensOnly(SnapshotKeyOps(h.files), env);
      assert OpensOnly(prologue, env) && OpensOnly(FORGET_OPS, env);
      assert OpensOnly(ChangeOps(env, p), env) && OpensOnly(MadeOps(env, p), env);
      assert OpensOnly(RestoreOps(DoAll(h, prologue + MadeOps(env, p)).dir), env);
    }
  }

  lemma {:induction false} OpenedByOps(h: Host, ops: seq<Op>, env: OpenEnv)
    requires OpensOnly(ops, env) && (h.dir.trial.Some? ==> OpenFrom(h.dir.trial.value, env))
    ensures DoAll(h, ops).dir.trial.Some? ==> OpenFrom(DoAll(h, ops).dir.trial.value, env)
    decreases |ops|
  {
    if ops != [] {
      OpenedByOps(Do(h, ops[0]), ops[1..], env);
    }
  }

  /**
   Recovery: an opening job cut short at any step before a revert begins is followed by one
   completed recovery, which puts the three files back or leaves an unexpired open trial alone.
   */
  lemma RecoveryAfterCut(h: Host, kept: Files, env: OpenEnv, stop: nat, now: int)
    requires Inv(h, kept) && h.dir.trial.None? && Fits(OpenJob(env, None)) && stop <= |ForwardOps(h, env)|
    ensures var cut := After(h, OpenJob(env, Some(stop)));
      var g := After(cut, RecoverJob(true, now));
      || (g.dir.trial.None? && g.files == h.files)
      || (g == cut && IsOpen(cut, env.id) && cut.dir.trial.value.endsAt == Some(env.endsAt) && env.endsAt > now + 5)
  {
    JobKeepsInv(h, kept, OpenJob(env, Some(stop)));
    var cut := After(h, OpenJob(env, Some(stop)));
    ForwardOpensOnly(h, env);
    OpenedByOps(h, ForwardOps(h, env)[..stop], env);
    if cut.dir.trial.Some? {
      DeadlineDecides(cut, kept, cut.dir.trial.value, env.id, now);
    }
  }

  /** Everything an opening job needs for its trial to open, from the request to the timer. */
  predicate AllGoesWell(h: Host, env: OpenEnv) {
    && h.files.answers.Some? && env.lockFree && !env.setupRunning && env.plan.Some? && env.armSetup
    && (env.failsAfter.Some? ==> env.failsAfter.value >= if env.plan.value.key.Some? then 4 else 3)
    && env.setupOk && env.healthy && env.armTrial
  }

  /**
   What an opening job comes to: with no trial open before, it opens its own, with the planned
   files in force, if and only if all goes well; otherwise the files are as they were, with no trial.
   */
  lemma OpensIff(h: Host, kept: Files, env: OpenEnv)
    requires Inv(h, kept) && h.dir.trial.None? && Fits(OpenJob(env, None))
    ensures var g := After(h, OpenJob(env, None));
      if AllGoesWell(h, env) then
        var p := env.plan.value;
        && g.files == Files(Some(p.answers), Some(p.secrets), if p.key.Some? then p.key else h.files.key)
        && g.dir.trial == Some(Trial(env.id, Open, Recorded(Some(p.answers)), Some(env.endsAt)))
      else g.dir.trial.None? && g.files == h.files
  {
    var g := After(h, OpenJob(env, None));
    if AllGoesWell(h, env) {
      var p := env.plan.value;
      assert |ChangeOps(env, p)| == if p.key.Some? then 4 else 3;
      OpenedAnyhow(h, env);
      OpenedHost(h, env.(failsAfter := None));
    } else if !Refused(h, env) {
      FailedOpenLeavesNone(h, kept, env);
      JobKeepsInv(h, kept, OpenJob(env, None));
    }
  }

  lemma OpenedAnyhow(h: Host, env: OpenEnv)
    requires Readable(h.files) && !Refused(h, env) && env.armSetup && !ChangeFails(env, env.plan.value)
    requires env.setupOk && env.healthy && env.armTrial
    ensures After(h, OpenJob(env, None)) == After(h, OpenJob(env.(failsAfter := None), None))
  {
    var calm := env.(failsAfter := None);
    assert ForwardOps(h, env) == ForwardOps(h, calm);
    OpenedHost(h, calm);
  }

  lemma FailedOpenLeavesNone(h: Host, kept: Files, env: OpenEnv)
    requires Inv(h, kept) && h.dir.trial.None? && Fits(OpenJob(env, None)) && !Refused(h, env)
    requires !env.armSetup || ChangeFails(env, env.plan.value) || !env.setupOk || !env.healthy || !env.armTrial
    ensures After(h, OpenJob(env, None)).dir.trial.None?
  {
    var p := env.plan.value;
    var prologue := PrologueOps(h.files, env, p);
    var forward := ForwardOps(h, env);
    DoAllConcat(h, forward, BackOps(h, env));
    if !env.armSetup {
      DoAllConcat(h, prologue, FORGET_OPS);
      ForgetResult(DoAll(h, prologue));
    } else if ChangeFails(env, p) {
      var made := prologue + MadeOps(env, p);
      var restore := RestoreOps(DoAll(h, made).dir);
      DoAllConcat(h, made, restore + FORGET_OPS);
      DoAllConcat(DoAll(h, made), restore, FORGET_OPS);
      ForgetResult(DoAll(DoAll(h, made), restore));
    } else {
      RevertForgets(DoAll(h, forward), if env.setupOk && env.healthy then OpenTrial(env, p) else RecordedTrial(env, p));
    }
  }

  lemma RevertForgets(h: Host, t: Trial)
    ensures DoAll(h, RevertOps(h, t)).dir == StateDir(None, None, None, None, false)
  {
    ForgetResult(h);
    DoAllConcat(h, RestoreOps(h.dir), FORGET_OPS);
    ForgetResult(DoAll(h, RestoreOps(h.dir)));
  }

  /** A keep and a rollback end the trial they name while it is open, with its files or with the kept ones; any other request changes nothing. */
  lemma KeepOrRollback(h: Host, kept: Files, id: nat)
    requires Inv(h, kept)
    ensures var named := h.dir.trial.Some? && h.dir.trial.value.id == id && h.dir.trial.value.phase == Open;
      && After(h, KeepJob(id)) == (if named then Host(h.files, NO_TRIAL) else h)
      && After(h, RollbackJob(id)) == (if named then Host(kept, NO_TRIAL) else h)
  {
    ForgetResult(h);
    if h.dir.trial.Some? {
      RevertResult(h, kept);
    }
  }

  /**
   What ends a trial no job is working on, in numbers: one whose changes or setup were cut short,
   at once; an open one with deadline e from five seconds before e on, and not before.
   */
  predicate EndsAt(t: Trial, now: int) {
    match (t.phase, t.endsAt)
    case (Open, Some(e)) => e - now <= 5
    case _ => true
  }

  const NO_TRIAL: StateDir := StateDir(None, None, None, None, false)

  /**
   The deadline decides: an expiry of the trial's own, or a recovery that finds the lock free,
   leaves the kept files and no trial if and only if the trial ends by then; otherwise, and for
   any other trial's expiry, it touches nothing.
   */
  lemma DeadlineDecides(h: Host, kept: Files, t: Trial, id: nat, now: int)
    requires Inv(h, kept) && h.dir.trial == Some(t)
    ensures After(h, ExpireJob(id, now)) == if t.id == id && EndsAt(t, now) then Host(kept, NO_TRIAL) else h
    ensures After(h, RecoverJob(true, now)) == if EndsAt(t, now) then Host(kept, NO_TRIAL) else h
    ensures After(h, RecoverJob(false, now)) == h
  {
    RevertResult(h, kept);
  }

  /** An open trial ends at its deadline, neither sooner than five seconds before nor later. */
  lemma OpenTrialEndsIff(h: Host, kept: Files, id: nat, e: int, now: int)
    requires Inv(h, kept) && IsOpen(h, id) && h.dir.trial.value.endsAt == Some(e)
    ensures After(h, ExpireJob(id, now)).dir.trial.None? <==> e <= now + 5
    ensures After(h, RecoverJob(true, now)).dir.trial.None? <==> e <= now + 5
    ensures e > now + 5 ==> After(h, ExpireJob(id, now)) == h && After(h, RecoverJob(true, now)) == h
  {
    DeadlineDecides(h, kept, h.dir.trial.value, id, now);
  }

  /** Once the hash is recorded, an outside change of portikus.yaml means no job ends the trial by writing settings. */
  lemma OutsideEditRespected(h: Host, e: Event)
    requires h.dir.trial.Some? && Superseded(h, h.dir.trial.value)
    ensures After(h, e).files == h.files
  {
    ForgetResult(h);
    if e.OpenJob? {
      OneTrialAtATime(h, e.env, e.stop);
    }
  }

  /**
   A stop after n writes of a revert of a recorded trial.  The next recovery finds the hash
   changed by the revert itself and forgets the trial, so the files end as kept exactly when no
   write was made, the answers needed none, or each write still to come would have changed nothing.
   */
  lemma CutRevertIff(h: Host, kept: Files, n: nat, now: int)
    requires Inv(h, kept) && h.dir.trial.Some? && h.dir.trial.value.config.Recorded?
    requires EndsAt(h.dir.trial.value, now) && n <= |RestoreOps(h.dir)|
    ensures var cut := DoAll(h, RestoreOps(h.dir)[..n]);
      var g := After(cut, RecoverJob(true, now));
      g.files == kept <==>
        || n == 0 || h.files.answers == kept.answers
        || ((n >= 2 || h.files.secrets == kept.secrets) && (n >= |RestoreOps(h.dir)| || h.files.key == kept.key))
  {
    var cut := DoAll(h, RestoreOps(h.dir)[..n]);
    CutRestoreKeepsDir(h, RestoreOps(h.dir), n);
    CutRestoreFiles(h, kept, n);
    var t := h.dir.trial.value;
    if Superseded(cut, t) {
      ForgetResult(cut);
    } else {
      RestoreResult(cut);
      ForgetResult(DoAll(cut, RestoreOps(cut.dir)));
      DoAllConcat(cut, RestoreOps(cut.dir), FORGET_OPS);
    }
  }

  /** Such a stop, after the answers and before the secrets: the trial's secrets stay beside the earlier answers. */
  lemma CutRevertKeepsTrialSecrets() returns (h: Host, kept: Files)
    ensures Inv(h, kept) && h.dir.trial.Some? && EndsAt(h.dir.trial.value, 0)
    ensures var g := After(DoAll(h, RestoreOps(h.dir)[..1]), RecoverJob(true, 0));
      g.dir.trial.None? && g.files == Files(Some("old"), Some("new"), None) && kept == Files(Some("old"), Some("old"), None)
  {
    kept := Files(Some("old"), Some("old"), None);
    var t := Trial(1, Running, Recorded(Some("new")), None);
    h := Host(Files(Some("new"), Some("new"), None), StateDir(Some(t), Some("old"), Some("old"), None, false));
    var ops := RestoreOps(h.dir);
    assert ops == [PutAnswers("old"), PutSecrets("old")];
    assert ops[..1] == [PutAnswers("old")] && ops[..1][1..] == [];
    ForgetResult(DoAll(h, ops[..1]));
  }

  lemma {:induction false} CutRestoreKeepsDir(h: Host, ops: seq<Op>, n: nat)
    requires n <= |ops|
    requires ops == RestoreOps(h.dir)
    ensures DoAll(h, ops[..n]).dir == h.dir
    ensures Read(h.dir.key).None? && !h.dir.noKey ==> DoAll(h, ops[..n]).files.key == h.files.key
    decreases n
  {
    if n > 0 {
      CutRestoreKeepsDir(h, ops, n - 1);
      assert ops[..n - 1] + [ops[n - 1]] == ops[..n];
      DoOne(h, ops[..n - 1], ops[n - 1]);
    }
  }

  /** The files after the first n writes of a restore. */
  lemma {:induction false} CutRestoreFiles(h: Host, kept: Files, n: nat)
    requires Inv(h, kept) && h.dir.trial.Some? && n <= |RestoreOps(h.dir)|
    ensures DoAll(h, RestoreOps(h.dir)[..n]).files == Files(
      if n >= 1 then kept.answers else h.files.answers,
      if n >= 2 then kept.secrets else h.files.secrets,
      if n >= |RestoreOps(h.dir)| then kept.key else h.files.key)
    decreases n
  {
    var ops := RestoreOps(h.dir);
    if n > 0 {
      assert ops[..n - 1] + [ops[n - 1]] == ops[..n];
      DoOne(h, ops[..n - 1], ops[n - 1]);
      CutRestoreFiles(h, kept, n - 1);
    } else {
      assert ops[..0] == [];
    }
  }

  /**
   From an arbitrary leftover state directory, a trial that opens and is rolled back restores
   every file exactly when it carries its own key or the leftover key marks agree with the key file.
   */
  lemma RollbackExactIff(h: Host, env: OpenEnv)
    requires Readable(h.files) && !Refused(h, env) && Fits(OpenJob(env, None))
    requires env.armSetup && env.failsAfter.None? && env.setupOk && env.healthy && env.armTrial
    ensures var g := After(After(h, OpenJob(env, None)), RollbackJob(env.id));
      g.files == h.files <==> env.plan.value.key.Some? || KeyMarksAgree(h.dir, h.files.key)
  {
    var p := env.plan.value;
    var o := After(h, OpenJob(env, None));
    OpenedHost(h, env);
    RestoreResult(o);
    ForgetResult(DoAll(o, RestoreOps(o.dir)));
    DoAllConcat(o, RestoreOps(o.dir), FORGET_OPS);
  }

  /** A keep cut short after the trial record has gone and before the earlier key has. */
  function CutKeep(h: Host, n: nat): Host
    requires n <= 5
  {
    DoAll(h, FORGET_OPS[..n])
  }

  lemma CutKeepLeavesKey(h: Host, n: nat)
    requires 1 <= n <= 3
    ensures var c := CutKeep(h, n); c.files == h.files && c.dir.trial.None? && c.dir.key == h.dir.key && c.dir.noKey == h.dir.noKey
  {
    assert FORGET_OPS[..1] == [DropTrial] && FORGET_OPS[..2] == [DropTrial, DropOldAnswers];
    assert FORGET_OPS[..3] == [DropTrial, DropOldAnswers, DropOldSecrets];
    DoOne(h, [], DropTrial);
    assert [] + [DropTrial] == [DropTrial] && [DropTrial] + [DropOldAnswers] == [DropTrial, DropOldAnswers];
    assert [DropTrial, DropOldAnswers] + [DropOldSecrets] == [DropTrial, DropOldAnswers, DropOldSecrets];
    DoOne(h, [DropTrial], DropOldAnswers);
    DoOne(h, [DropTrial, DropOldAnswers], DropOldSecrets);
  }

  /**
   Such a leftover is real: whenever a kept trial replaced the key and its keep is cut there, the
   next trial without a key of its own, opened and rolled back, puts the replaced key back.
   */
  lemma CutKeepBringsKeyBack(h: Host, id: nat, n: nat, env: OpenEnv)
    requires IsOpen(h, id) && 1 <= n <= 3 && Readable(h.files) && Read(h.dir.key).Some? && h.dir.key != h.files.key
    requires !Refused(CutKeep(h, n), env) && Fits(OpenJob(env, None)) && env.plan.value.key.None?
    requires env.armSetup && env.failsAfter.None? && env.setupOk && env.healthy && env.armTrial
    ensures JobOps(h, KeepJob(id))[..n] == FORGET_OPS[..n]
    ensures var g := After(After(CutKeep(h, n), OpenJob(env, None)), RollbackJob(env.id));
      g.dir.trial.None? && g.files.key == h.dir.key && g.files != h.files
  {
    CutKeepLeavesKey(h, n);
    var c := CutKeep(h, n);
    OpenedHost(c, env);
    var o := After(c, OpenJob(env, None));
    RestoreResult(o);
    ForgetResult(DoAll(o, RestoreOps(o.dir)));
    DoAllConcat(o, RestoreOps(o.dir), FORGET_OPS);
  }

  /** The host once a trial has opened, from any leftover state directory. */
  lemma OpenedHost(h: Host, env: OpenEnv)
    requires Readable(h.files) && !Refused(h, env)
    requires env.armSetup && env.failsAfter.None? && env.setupOk && env.healthy && env.armTrial
    ensures var p := env.plan.value;
      After(h, OpenJob(env, None)) == Host(
        Files(Some(p.answers), Some(p.secrets), if p.key.Some? then p.key else h.files.key),
        StateDir(Some(OpenTrial(env, p)), h.files.answers, h.files.secrets,
                 if p.key.Some? then h.files.key else h.dir.key,
                 if p.key.Some? then h.files.key.None? else h.dir.noKey))
  {
    var p := env.plan.value;
    var keyOps := if p.key.Some? then SnapshotKeyOps(h.files) else [];
    var a := SnapshotOps(h.files);
    var clean := h.(dir := h.dir.(key := None, noKey := false));
    SnapshotFrom(h);
    var g := DoAll(h, a);
    SnapshotKeyFrom(g);
    DoAllConcat(h, a, keyOps);
    DoOne(h, a + keyOps, PutTrial(FirstTrial(env)));
    var prologue := PrologueOps(h.files, env, p);
    ChangesFrom(DoAll(h, prologue), env, p);
    DoAllConcat(h, prologue, ChangeOps(env, p));
    DoOne(h, prologue + ChangeOps(env, p), PutTrial(OpenTrial(env, p)));
    assert ForwardOps(h, env) + BackOps(h, env) == ForwardOps(h, env);
  }

  lemma SnapshotFrom(h: Host)
    requires Readable(h.files)
    ensures DoAll(h, SnapshotOps(h.files)) == h.(dir := h.dir.(answers := h.files.answers, secrets := h.files.secrets))
  {
    var a := [DropOldAnswers] + [PutOldAnswers(h.files.answers.value)];
    DoOne(h, [], DropOldAnswers);
    assert [] + [DropOldAnswers] == [DropOldAnswers];
    DoOne(h, [DropOldAnswers], PutOldAnswers(h.files.answers.value));
    DoOne(h, a, DropOldSecrets);
    if h.files.secrets.Some? {
      DoOne(h, a + [DropOldSecrets], PutOldSecrets(h.files.secrets.value));
    } else {
      assert SnapshotOps(h.files) == a + [DropOldSecrets];
    }
  }

  lemma SnapshotKeyFrom(h: Host)
    requires Readable(h.files)
    ensures DoAll(h, SnapshotKeyOps(h.files)) == h.(dir := h.dir.(key := h.files.key, noKey := h.files.key.None?))
  {
    DoOne(h, [], DropOldKey);
    assert [] + [DropOldKey] == [DropOldKey];
    DoOne(h, [DropOldKey], DropNoKey);
    assert [DropOldKey] + [DropNoKey] == [DropOldKey, DropNoKey];
    DoOne(h, [DropOldKey, DropNoKey], if h.files.key.Some? then PutOldKey(h.files.key.value) else PutNoKey);
  }

  lemma ChangesFrom(h: Host, env: OpenEnv, p: Plan)
    ensures DoAll(h, ChangeOps(env, p)) == Host(
      Files(Some(p.answers), Some(p.secrets), if p.key.Some? then p.key else h.files.key),
      h.dir.(trial := Some(RecordedTrial(env, p))))
  {
    var a := [PutAnswers(p.answers)];
    DoOne(h, [], PutAnswers(p.answers));
    assert [] + a == a;
    DoOne(h, a, PutSecrets(p.secrets));
    var b := a + [PutSecrets(p.secrets)];
    assert b == [PutAnswers(p.answers), PutSecrets(p.secrets)];
    if p.key.Some? {
      DoOne(h, b, PutKey(p.key.value));
      DoOne(h, b + [PutKey(p.key.value)], PutTrial(RecordedTrial(env, p)));
    } else {
      DoOne(h, b, PutTrial(RecordedTrial(env, p)));
      assert ChangeOps(env, p) == b + [PutTrial(RecordedTrial(env, p))];
    }
  }

  /* ---------- The jobs themselves ---------- */

  datatype Outcome =
    | NotAptInstall | Busy | TrialOpen | BadRequest | NoOpenTrial
    | WriteFailed | PutBack | SetupFailedAgain | SupersededOutside
    | Opened(endsAt: int) | Done | Rearmed

  /** What an opening job does once its changes are recorded. */
  function SettleOps(g: Host, env: OpenEnv, p: Plan): seq<Op> {
    if !env.setupOk || !env.healthy then RevertOps(g, RecordedTrial(env, p)) else
    var trial := OpenTrial(env, p);
    [PutTrial(trial)] + (if env.armTrial then [] else RevertOps(Do(g, PutTrial(trial)), trial))
  }

  /** What an opening job does once trial.json is first written. */
  function ProceedOps(g: Host, env: OpenEnv, p: Plan): seq<Op> {
    if !env.armSetup then FORGET_OPS else
    var m := DoAll(g, MadeOps(env, p));
    MadeOps(env, p) + (if ChangeFails(env, p) then RestoreOps(m.dir) + FORGET_OPS else SettleOps(m, env, p))
  }

  lemma Assoc(a: seq<Op>, b: seq<Op>, c: seq<Op>)
    ensures a + (b + c) == (a + b) + c
  {
  }

  lemma SettleIsRest(h: Host, env: OpenEnv, p: Plan, made: seq<Op>)
    requires !Refused(h, env) && env.armSetup && p == env.plan.value && !ChangeFails(env, p)
    requires made == PrologueOps(h.files, env, p) + MadeOps(env, p)
    ensures ForwardOps(h, env) + BackOps(h, env) == made + SettleOps(DoAll(h, made), env, p)
  {
    if env.setupOk && env.healthy {
      DoOne(h, made, PutTrial(OpenTrial(env, p)));
      Assoc(made, [PutTrial(OpenTrial(env, p))], BackOps(h, env));
    }
  }

  /** The step-by-step account of an opening job and the account by forward and back parts agree. */
  lemma ProceedIsRest(h: Host, env: OpenEnv, p: Plan, prologue: seq<Op>)
    requires !Refused(h, env) && p == env.plan.value && prologue == PrologueOps(h.files, env, p)
    ensures ForwardOps(h, env) + BackOps(h, env) == prologue + ProceedOps(DoAll(h, prologue), env, p)
  {
    if env.armSetup {
      var made := MadeOps(env, p);
      DoAllConcat(h, prologue, made);
      var m := DoAll(h, prologue + made);
      if ChangeFails(env, p) {
        Assoc(prologue, made, RestoreOps(m.dir) + FORGET_OPS);
      } else {
        SettleIsRest(h, env, p, prologue + made);
        Assoc(prologue, made, SettleOps(m, env, p));
      }
    }
  }

  class TrialRunner {
    var files: Files
    var dir: StateDir
    /** Every file operation since the start, in order: what a stop leaves is a prefix of it. */
    ghost var log: seq<Op>
    ghost var start: Host

    ghost function View(): Host
      reads this
    {
      Host(files, dir)
    }

    ghost predicate Valid()
      reads this
    {
      View() == DoAll(start, log)
    }

    constructor (files: Files, dir: StateDir)
      ensures Valid() && View() == Host(files, dir) && log == []
    {
      this.files, this.dir := files, dir;
      log, start := [], Host(files, dir);
    }

    method Write(op: Op)
      requires Valid()
      modifies this
      ensures Valid() && start == old(start)
      ensures log == old(log) + [op] && View() == Do(old(View()), op)
    {
      DoOne(start, log, op);
      var h := Do(Host(files, dir), op);
      files, dir := h.files, h.dir;
      log := log + [op];
    }

    method Snapshot()
      requires Valid()
      modifies this
      ensures Valid() && start == old(start) && files == old(files) && dir.trial == old(dir.trial)
      ensures log == old(log) + SnapshotOps(old(files))
    {
      var data := Read(files.answers);
      Write(DropOldAnswers);
      if data.Some? {
        Write(PutOldAnswers(data.value));
      }
      data := Read(files.secrets);
      Write(DropOldSecrets);
      if data.Some? {
        Write(PutOldSecrets(data.value));
      }
    }

    method SnapshotKey()
      requires Valid()
      modifies this
      ensures Valid() && start == old(start) && files == old(files) && dir.trial == old(dir.trial)
      ensures log == old(log) + SnapshotKeyOps(old(files))
    {
      Write(DropOldKey);
      Write(DropNoKey);
      var data := Read(files.key);
      if data.None? {
        Write(PutNoKey);
      } else {
        Write(PutOldKey(data.value));
      }
    }

    method Restore()
      requires Valid()
      modifies this
      ensures Valid() && start == old(start) && dir == old(dir)
      ensures log == old(log) + RestoreOps(old(dir))
    {
      var data := Read(dir.answers);
      if data.Some? {
        Write(PutAnswers(data.value));
      }
      data := Read(dir.secrets);
      if data.Some? {
        Write(PutSecrets(data.value));
      } else {
        Write(DropSecrets);
      }
      var key := Read(dir.key);
      if key.Some? {
        Write(PutKey(key.value));
      } else if dir.noKey {
        Write(DropKey);
      }
    }

    method Forget()
      requires Valid()
      modifies this
      ensures Valid() && start == old(start) && files == old(files)
      ensures dir == StateDir(None, None, None, None, false)
      ensures log == old(log) + FORGET_OPS
    {
      Write(DropTrial);
      Write(DropOldAnswers);
      Write(DropOldSecrets);
      Write(DropOldKey);
      Write(DropNoKey);
    }

    /** Puts the earlier answers back and reruns setup, or forgets a superseded trial. */
    method Revert(trial: Trial, rerunOk: bool) returns (outcome: Outcome)
      requires Valid()
      modifies this
      ensures Valid() && start == old(start) && dir.trial.None?
      ensures log == old(log) + RevertOps(old(View()), trial)
      ensures outcome == if Superseded(old(View()), trial) then SupersededOutside
                         else if rerunOk then PutBack else SetupFailedAgain
      ensures outcome.SupersededOutside? ==> files == old(files)
    {
      if trial.config.Recorded? && trial.config.answers != Read(files.answers) {
        Forget();
        return SupersededOutside;
      }
      Restore();
      Forget();
      outcome := if rerunOk then PutBack else SetupFailedAgain;
    }

    /** Writes the planned changes one file at a time; the step numbered failsAfter, if any, raises. */
    method Change(env: OpenEnv, p: Plan) returns (ok: bool)
      requires Valid()
      modifies this
      ensures Valid() && start == old(start)
      ensures log == old(log) + MadeOps(env, p)
      ensures ok == !ChangeFails(env, p)
      ensures ok ==> dir.trial == Some(RecordedTrial(env, p))
    {
      var left := if env.failsAfter.Some? then env.failsAfter.value else 4;
      if left == 0 { return false; }
      Write(PutAnswers(p.answers));
      if left == 1 { return false; }
      Write(PutSecrets(p.secrets));
      if left == 2 { return false; }
      if p.key.Some? {
        Write(PutKey(p.key.value));
        if left == 3 { return false; }
      }
      Write(PutTrial(RecordedTrial(env, p)));
      ok := true;
    }

    method Prologue(env: OpenEnv, p: Plan)
      requires Valid()
      modifies this
      ensures Valid() && start == old(start)
      ensures log == old(log) + PrologueOps(old(files), env, p)
      ensures dir.trial == Some(FirstTrial(env))
    {
      Snapshot();
      if p.key.Some? {
        SnapshotKey();
      }
      Write(PutTrial(FirstTrial(env)));
    }

    /** Puts the files back after a change that failed. */
    method Undo()
      requires Valid()
      modifies this
      ensures Valid() && start == old(start) && dir.trial.None?
      ensures log == old(log) + (RestoreOps(old(dir)) + FORGET_OPS)
    {
      Restore();
      Forget();
    }

    /** From recorded changes on: setup, health, the open trial and its timer. */
    method Settle(env: OpenEnv, p: Plan, rerunOk: bool) returns (outcome: Outcome)
      requires Valid() && dir.trial.Some?
      modifies this
      ensures Valid() && start == old(start)
      ensures log == old(log) + SettleOps(old(View()), env, p)
      ensures outcome.Opened? <==> dir.trial.Some?
      ensures outcome.Opened? ==> dir.trial.value.phase == Phase.Open
      ensures outcome.Opened? || outcome in {PutBack, SetupFailedAgain, SupersededOutside}
    {
      if !env.setupOk || !env.healthy {
        outcome := Revert(RecordedTrial(env, p), rerunOk);
        return;
      }
      var trial := OpenTrial(env, p);
      ghost var before := log;
      Write(PutTrial(trial));
      if !env.armTrial {
        Assoc(before, [PutTrial(trial)], RevertOps(View(), trial));
        outcome := Revert(trial, rerunOk);
        return;
      }
      Assoc(before, [PutTrial(trial)], []);
      outcome := Opened(env.endsAt);
    }

    /** From trial.json's first write on. */
    method Proceed(env: OpenEnv, p: Plan, rerunOk: bool) returns (outcome: Outcome)
      requires Valid() && dir.trial == Some(FirstTrial(env))
      modifies this
      ensures Valid() && start == old(start)
      ensures log == old(log) + ProceedOps(old(View()), env, p)
      ensures outcome.Opened? <==> dir.trial.Some?
      ensures outcome.Opened? ==> dir.trial.value.phase == Phase.Open
      ensures outcome.Opened? || outcome in {WriteFailed, PutBack, SetupFailedAgain, SupersededOutside}
    {
      ghost var h, before := View(), log;
      if !env.armSetup {
        Forget();
        return WriteFailed;
      }
      var ok := Change(env, p);
      DoAllConcat(start, before, MadeOps(env, p));
      ghost var m := View();
      assert m == DoAll(h, MadeOps(env, p));
      if !ok {
        Undo();
        outcome := WriteFailed;
        Assoc(before, MadeOps(env, p), RestoreOps(m.dir) + FORGET_OPS);
      } else {
        outcome := Settle(env, p, rerunOk);
        Assoc(before, MadeOps(env, p), SettleOps(m, env, p));
      }
    }

    /** The whole opening job: its file operations are exactly the specified ones, whatever fails outside. */
    method Open(env: OpenEnv, rerunOk: bool) returns (outcome: Outcome)
      requires Valid()
      modifies this
      ensures Valid() && start == old(start)
      ensures log == old(log) + (ForwardOps(old(View()), env) + BackOps(old(View()), env))
      ensures outcome.Opened? <==> dir.trial.Some? && old(dir.trial).None? && dir.trial.value.phase == Phase.Open
      ensures Refused(old(View()), env) ==> log == old(log) && View() == old(View())
      ensures var apt, free, none := old(files).answers.Some?, env.lockFree, old(dir.trial).None?;
        && (outcome == NotAptInstall <==> !apt)
        && (outcome == Busy <==> apt && (!free || (none && env.setupRunning)))
        && (outcome == TrialOpen <==> apt && free && !none)
        && (outcome == BadRequest <==> apt && free && none && !env.setupRunning && env.plan.None?)
    {
      if files.answers.None? { return NotAptInstall; }
      if !env.lockFree { return Busy; }
      if dir.trial.Some? { return TrialOpen; }
      if env.setupRunning { return Busy; }
      if env.plan.None? { return BadRequest; }
      ghost var h, before, p := View(), log, env.plan.value;
      Prologue(env, env.plan.value);
      ghost var prologue := PrologueOps(h.files, env, p);
      DoAllConcat(start, before, prologue);
      outcome := Proceed(env, env.plan.value, rerunOk);
      ProceedIsRest(h, env, p, prologue);
      Assoc(before, prologue, ProceedOps(DoAll(h, prologue), env, p));
    }

    method Keep(id: nat) returns (outcome: Outcome)
      requires Valid()
      modifies this
      ensures Valid() && start == old(start) && files == old(files)
      ensures log == old(log) + JobOps(old(View()), KeepJob(id))
      ensures outcome == if IsOpen(old(View()), id) then Done else NoOpenTrial
    {
      if dir.trial.None? || dir.trial.value.id != id || dir.trial.value.phase != Phase.Open {
        return NoOpenTrial;
      }
      Forget();
      outcome := Done;
    }

    method Rollback(id: nat, rerunOk: bool) returns (outcome: Outcome)
      requires Valid()
      modifies this
      ensures Valid() && start == old(start)
      ensures log == old(log) + JobOps(old(View()), RollbackJob(id))
      ensures outcome.NoOpenTrial? <==> !IsOpen(old(View()), id)
    {
      if dir.trial.None? || dir.trial.value.id != id || dir.trial.value.phase != Phase.Open {
        return NoOpenTrial;
      }
      outcome := Revert(dir.trial.value, rerunOk);
    }

    method EndOverdue(trial: Trial, now: int, rerunOk: bool) returns (outcome: Outcome)
      requires Valid()
      modifies this
      ensures Valid() && start == old(start)
      ensures log == old(log) + EndOverdueOps(old(View()), trial, now)
      ensures outcome.Rearmed? <==> trial.phase == Phase.Open && trial.endsAt.Some? && trial.endsAt.value - now > 5
      ensures outcome in {Rearmed, PutBack, SetupFailedAgain, SupersededOutside}
    {
      if trial.phase != Phase.Open {
        outcome := Revert(trial, rerunOk);
      } else if trial.endsAt.None? || trial.endsAt.value <= now + 5 {
        outcome := Revert(trial, rerunOk);
      } else {
        outcome := Rearmed;
      }
    }

    method Expire(id: nat, now: int, rerunOk: bool) returns (outcome: Outcome)
      requires Valid()
      modifies this
      ensures Valid() && start == old(start)
      ensures log == old(log) + JobOps(old(View()), ExpireJob(id, now))
      ensures outcome.NoOpenTrial? <==> old(dir.trial).None? || old(dir.trial).value.id != id
      ensures outcome.Rearmed? <==> IsOpen(old(View()), id) && old(dir.trial).value.endsAt.Some? && old(dir.trial).value.endsAt.value - now > 5
    {
      if dir.trial.None? || dir.trial.value.id != id {
        return NoOpenTrial;
      }
      outcome := EndOverdue(dir.trial.value, now, rerunOk);
    }

    method Recover(lockFree: bool, now: int, rerunOk: bool) returns (outcome: Outcome)
      requires Valid()
      modifies this
      ensures Valid() && start == old(start)
      ensures log == old(log) + JobOps(old(View()), RecoverJob(lockFree, now))
      ensures outcome.Busy? <==> !lockFree
      ensures outcome.NoOpenTrial? <==> lockFree && old(dir.trial).None?
      ensures outcome.Rearmed? <==> lockFree && old(dir.trial).Some? && !EndsAt(old(dir.trial).value, now)
    {
      if !lockFree { return Busy; }
      if dir.trial.None? { return NoOpenTrial; }
      outcome := EndOverdue(dir.trial.value, now, rerunOk);
    }
  }

}
