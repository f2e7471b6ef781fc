/**
 The checks on a zip's entries before it is extracted: what an entry that passes is kept from, and
 exactly which entries and which zips pass.
 */
module ZipChecks {
  import opened Texts
  import opened Wrappers
  import opened ZipDirectory

  /** The parts of a name between slashes. */
  function Parts(name: Bytes): (r: seq<Bytes>)
    ensures r != []
  {
    if name == [] then [[]]
    else
      var rest := Parts(name[1..]);
      if name[0] == SLASH then [[]] + rest else [[name[0]] + rest[0]] + rest[1..]
  }

  predicate Letter(b: byte) {
    65 <= b <= 90 || 97 <= b <= 122
  }

  const UP: Bytes := [DOT, DOT]

  predicate SafeEntryName(name: Bytes) {
    && name != [] && 0 !in name && name[0] != SLASH
    && !(|name| >= 2 && Letter(name[0]) && name[1] == 58)
    && UP !in Parts(name)
  }

  function LowerByte(b: byte): byte {
    if 65 <= b <= 90 then b + 32 else b
  }

  /** The part is ".git" in some case. */
  predicate IsGit(part: Bytes) {
    |part| == 4 && part[0] == DOT && LowerByte(part[1]) == 103 && LowerByte(part[2]) == 105 && LowerByte(part[3]) == 116
  }

  /** How a file system follows a path from a directory, one part at a time. */
  function Walk(dir: seq<Bytes>, parts: seq<Bytes>): seq<Bytes> {
    if parts == [] then dir
    else
      var before := Walk(dir, parts[..|parts| - 1]);
      var p := parts[|parts| - 1];
      if p == [] || p == [DOT] then before
      else if p == UP then (if before == [] then [] else before[..|before| - 1])
      else before + [p]
  }

  function Resolve(dir: seq<Bytes>, name: Bytes): seq<Bytes> {
    Walk(if name != [] && name[0] == SLASH then [] else dir, Parts(name))
  }

  /** A path at or below a directory. */
  predicate Inside(dir: seq<Bytes>, path: seq<Bytes>) {
    |dir| <= |path| && path[..|dir|] == dir
  }

  /** Below the directory, no part climbs or is a ".git". */
  predicate Clean(dir: seq<Bytes>, path: seq<Bytes>) {
    Inside(dir, path) && forall i :: |dir| <= i < |path| ==> path[i] != UP && !IsGit(path[i])
  }

  lemma {:induction false} WalkStaysInside(dir: seq<Bytes>, parts: seq<Bytes>, k: nat)
    requires k <= |parts| && UP !in parts && (forall i :: 0 <= i < |parts| ==> !IsGit(parts[i]))
    ensures Clean(dir, Walk(dir, parts[..k]))
  {
    if k > 0 {
      WalkStaysInside(dir, parts, k - 1);
      assert parts[..k][..k - 1] == parts[..k - 1];
      assert parts[k - 1] in parts;
    }
  }

  datatype Check = Passed | TooMany | UnsafePath | Encrypted | SymbolicLink | GitFolder | TooLarge

  predicate NoGit(name: Bytes) {
    forall i :: 0 <= i < |Parts(name)| ==> !IsGit(Parts(name)[i])
  }

  function CheckEntry(e: Entry): Check {
    if !SafeEntryName(e.name) then UnsafePath
    else if e.encrypted then Encrypted
    else if e.isSymlink then SymbolicLink
    else if !NoGit(e.name) then GitFolder
    else Passed
  }

  function TotalSize(entries: seq<Entry>): nat {
    if entries == [] then 0 else TotalSize(entries[..|entries| - 1]) + entries[|entries| - 1].size
  }

  /** The total is a sum: nothing for no entry, an entry's own size for one, and adding up over the parts of a list. */
  lemma {:induction false} TotalAddsUp(a: seq<Entry>, b: seq<Entry>, e: Entry)
    ensures TotalSize([]) == 0 && TotalSize([e]) == e.size && TotalSize(a + b) == TotalSize(a) + TotalSize(b)
    decreases |b|
  {
    assert [e][..0] == [];
    if b == [] {
      assert a + b == a;
    } else {
      TotalAddsUp(a, b[..|b| - 1], e);
      assert (a + b)[..|a + b| - 1] == a + b[..|b| - 1];
    }
  }

  /** The first entry refused decides. */
  method FirstRefused(entries: seq<Entry>, check: Entry -> Check) returns (r: Check, total: nat)
    ensures r == Passed <==> forall i :: 0 <= i < |entries| ==> check(entries[i]) == Passed
    ensures r == Passed ==> total == TotalSize(entries)
    ensures r != Passed ==>
      exists i :: 0 <= i < |entries| && check(entries[i]) == r && forall j :: 0 <= j < i ==> check(entries[j]) == Passed
  {
    total := 0;
    for i := 0 to |entries|
      invariant total == TotalSize(entries[..i])
      invariant forall j :: 0 <= j < i ==> check(entries[j]) == Passed
    {
      r := check(entries[i]);
      if r != Passed {
        return;
      }
      assert entries[..i + 1][..i] == entries[..i];
      total := total + entries[i].size;
    }
    assert entries[..|entries|] == entries;
    r := Passed;
  }

  predicate AllPass(entries: seq<Entry>) {
    forall i :: 0 <= i < |entries| ==> CheckEntry(entries[i]) == Passed
  }

  /** A zip passes exactly when it has few enough entries, each passes, and the declared sizes together are small enough. */
  method CheckEntries(entries: seq<Entry>) returns (r: Check)
    ensures r == Passed <==>
      |entries| <= 10_000 && AllPass(entries) && TotalSize(entries) <= 1024 * 1024 * 1024
    ensures r == TooMany <==> |entries| > 10_000
    ensures r !in {Passed, TooMany, TooLarge} ==>
      exists i :: 0 <= i < |entries| && CheckEntry(entries[i]) == r && forall j :: 0 <= j < i ==> CheckEntry(entries[j]) == Passed
    ensures r == TooLarge <==> |entries| <= 10_000 && AllPass(entries) && TotalSize(entries) > 1024 * 1024 * 1024
  {
    if |entries| > MAX_EXTRACT_ENTRIES {
      return TooMany;
    }
    var first, total := FirstRefused(entries, CheckEntry);
    r := if first != Passed then first else if total > MAX_EXTRACT_BYTES then TooLarge else Passed;
  }

  // ---- Exactly which entries pass ----

  /** From i up to j the name has one whole part, with a slash, byte 47, or an end of the name at both sides. */
  predicate PartAt(name: Bytes, i: nat, j: nat) {
    && i <= j <= |name| && (forall k :: i <= k < j ==> name[k] != 47)
    && (i == 0 || name[i - 1] == 47) && (j == |name| || name[j] == 47)
  }

  ghost predicate HasPart(name: Bytes, part: Bytes) {
    exists i: nat, j: nat :: PartAt(name, i, j) && name[i..j] == part
  }

  lemma PartStands(name: Bytes, i: nat, j: nat)
    requires PartAt(name, i, j)
    ensures HasPart(name, name[i..j])
  {
  }

  /** The first part ends at n, at the first slash or the end; the parts behind it are those of the rest. */
  predicate FirstPartEndsAt(name: Bytes, n: nat) {
    && PartAt(name, 0, n) && Parts(name)[0] == name[..n]
    && if n < |name| then Parts(name)[1..] == Parts(name[n + 1..]) else |Parts(name)| == 1
  }

  lemma FirstPartGrows(name: Bytes, m: nat)
    requires name != [] && name[0] != SLASH && FirstPartEndsAt(name[1..], m)
    ensures FirstPartEndsAt(name, m + 1)
  {
    var rest := Parts(name[1..]);
    assert Parts(name) == [[name[0]] + rest[0]] + rest[1..];
    assert name[..m + 1] == [name[0]] + name[1..][..m];
    if m + 1 < |name| {
      assert name[1..][m + 1..] == name[m + 2..];
    }
  }

  lemma {:induction false} FirstPartEnds(name: Bytes) returns (n: nat)
    ensures FirstPartEndsAt(name, n)
  {
    n := 0;
    if name != [] {
      if name[0] != SLASH {
        var m := FirstPartEnds(name[1..]);
        FirstPartGrows(name, m);
        n := m + 1;
      } else {
        assert Parts(name) == [[]] + Parts(name[1..]);
      }
    }
  }

  lemma BehindFirst(name: Bytes, n: nat, i: nat, j: nat)
    requires n < |name| && name[n] == SLASH && PartAt(name[n + 1..], i, j)
    ensures HasPart(name, name[n + 1..][i..j])
  {
    assert name[n + 1 + i..n + 1 + j] == name[n + 1..][i..j];
    PartStands(name, n + 1 + i, n + 1 + j);
  }

  lemma PartIsFirst(name: Bytes, n: nat, i: nat, j: nat)
    requires PartAt(name, i, j) && i <= n && PartAt(name, 0, n)
    ensures i == 0 && j == n && name[i..j] == name[..n]
  {
  }

  lemma PartIsBehind(name: Bytes, n: nat, i: nat, j: nat)
    requires PartAt(name, i, j) && n < i
    ensures HasPart(name[n + 1..], name[i..j])
  {
    assert name[n + 1..][i - n - 1..j - n - 1] == name[i..j];
    PartStands(name[n + 1..], i - n - 1, j - n - 1);
  }

  lemma {:induction false} PartsStand(name: Bytes, part: Bytes)
    requires part in Parts(name)
    ensures HasPart(name, part)
    decreases |name|
  {
    var n := FirstPartEnds(name);
    if part == Parts(name)[0] {
      assert name[..n] == name[0..n];
      PartStands(name, 0, n);
    } else {
      assert part in Parts(name)[1..];
      PartsStand(name[n + 1..], part);
      var i: nat, j: nat :| PartAt(name[n + 1..], i, j) && name[n + 1..][i..j] == part;
      BehindFirst(name, n, i, j);
    }
  }

  lemma {:induction false} StandingIsPart(name: Bytes, i: nat, j: nat)
    requires PartAt(name, i, j)
    ensures name[i..j] in Parts(name)
    decreases |name|
  {
    var n := FirstPartEnds(name);
    if i <= n {
      PartIsFirst(name, n, i, j);
    } else {
      PartIsBehind(name, n, i, j);
      var k: nat, l: nat :| PartAt(name[n + 1..], k, l) && name[n + 1..][k..l] == name[i..j];
      StandingIsPart(name[n + 1..], k, l);
      assert name[i..j] in Parts(name)[1..];
    }
  }

  /** The parts are exactly what stands between the slashes. */
  lemma PartsAreBetweenSlashes(name: Bytes, part: Bytes)
    ensures part in Parts(name) <==> HasPart(name, part)
  {
    if part in Parts(name) {
      PartsStand(name, part);
    }
    if HasPart(name, part) {
      var i: nat, j: nat :| PartAt(name, i, j) && name[i..j] == part;
      StandingIsPart(name, i, j);
    }
  }

  /** The part is ".git" however its letters are written. */
  predicate SpellsGit(part: Bytes) {
    |part| == 4 && part[0] == 46 && part[1] in {71, 103} && part[2] in {73, 105} && part[3] in {84, 116}
  }

  predicate DriveLetter(name: Bytes) {
    |name| >= 2 && name[1] == 58 && (65 <= name[0] <= 90 || 97 <= name[0] <= 122)
  }

  /** What a record must not be: a link, encrypted, or named so as to leave its folder or to reach a ".git". */
  ghost predicate Dangerous(r: Record) {
    UnsafeName(r) || r.flags % 2 == 1 || LinkType(r) || ReachesGit(r)
  }

  lemma GitPartIff(name: Bytes)
    ensures NoGit(name) <==> !exists part: Bytes :: HasPart(name, part) && SpellsGit(part)
  {
    if !NoGit(name) {
      var i :| 0 <= i < |Parts(name)| && IsGit(Parts(name)[i]);
      PartsAreBetweenSlashes(name, Parts(name)[i]);
      assert SpellsGit(Parts(name)[i]);
    }
    if part: Bytes :| HasPart(name, part) && SpellsGit(part) {
      PartsAreBetweenSlashes(name, part);
      var i :| 0 <= i < |Parts(name)| && Parts(name)[i] == part;
      assert IsGit(Parts(name)[i]);
    }
  }

  lemma SameFirstBytes(path: Bytes, name: Bytes)
    requires WithSlashes(path, name)
    ensures (0 in path <==> 0 in name) && (DriveLetter(path) <==> DriveLetter(name))
    ensures path != [] ==> (path[0] == SLASH <==> name[0] in {SLASH, BACKSLASH})
  {
    if 0 in path {
      var i :| 0 <= i < |path| && path[i] == 0;
      assert name[i] == 0;
    }
    if 0 in name {
      var i :| 0 <= i < |name| && name[i] == 0;
      assert path[i] == 0;
    }
  }

  predicate LinkType(r: Record) {
    S_IFLNK <= r.external / 65536 < S_IFLNK + FILE_TYPES_APART
  }

  /** The name leaves its folder, or says nothing. */
  ghost predicate UnsafeName(r: Record) {
    r.name == [] || 0 in r.name || r.name[0] in {47, 92} || DriveLetter(r.name) || HasPart(Slashes(r.name), [46, 46])
  }

  ghost predicate ReachesGit(r: Record) {
    exists part: Bytes :: HasPart(Slashes(r.name), part) && SpellsGit(part)
  }

  /** What a written record's entry is refused for: its name, then encryption, then being a link, then a ".git". */
  lemma RecordRefusedAs(r: Record)
    requires Writable(r)
    ensures CheckEntry(EntryOf(r)) ==
      if UnsafeName(r) then UnsafePath else if r.flags % 2 == 1 then Encrypted else if LinkType(r) then SymbolicLink
      else if ReachesGit(r) then GitFolder else Passed
  {
    var path := Slashes(r.name);
    EntrySays(r);
    SameFirstBytes(path, r.name);
    PartsAreBetweenSlashes(path, UP);
    GitPartIff(path);
  }

  /** A zip written from these records, read and checked entry by entry, passes exactly when none of them is dangerous. */
  lemma WrittenZipPassesIff(data: Bytes, rs: seq<Record>)
    requires FitsLimits(data, rs)
    ensures ReadZip(WriteZip(data, rs)).Ok?
    ensures AllPass(ReadZip(WriteZip(data, rs)).value) <==> forall i :: 0 <= i < |rs| ==> !Dangerous(rs[i])
  {
    ReadsWhatIsWritten(data, rs);
    forall i | 0 <= i < |rs| ensures CheckEntry(EntriesOf(rs)[i]) == Passed <==> !Dangerous(rs[i]) {
      EntryAt(rs, i);
      RecordRefusedAs(rs[i]);
    }
  }

  /** Whatever folder it is extracted into, a checked entry stays inside it at every part of its path, and out of ".git". */
  lemma CheckedStaysInside(dir: seq<Bytes>, e: Entry, k: nat)
    requires CheckEntry(e) == Passed && k <= |Parts(e.name)|
    ensures Clean(dir, Walk(dir, Parts(e.name)[..k])) && Clean(dir, Resolve(dir, e.name))
    ensures !e.isSymlink && !e.encrypted
  {
    var parts := Parts(e.name);
    WalkStaysInside(dir, parts, k);
    WalkStaysInside(dir, parts, |parts|);
    assert parts[..|parts|] == parts;
  }

  /** A name that climbs out of its folder at some part of its path is refused. */
  lemma EscapeIsRefused(dir: seq<Bytes>, e: Entry, k: nat)
    requires k <= |Parts(e.name)| && (!Inside(dir, Walk(dir, Parts(e.name)[..k])) || (dir != [] && !Inside(dir, Resolve(dir, e.name))))
    ensures CheckEntry(e) != Passed
  {
    if CheckEntry(e) == Passed {
      CheckedStaysInside(dir, e, k);
    }
  }
}
