/**
 The zip central directory reader and the checks on its entries (sections 4.3.12 and 4.3.16 of
 the PKWARE APPNOTE).  What it accepts is exactly tiled by the records it returns, what a plain
 writer writes is read back, and an entry that passes the checks stays inside its folder.
 */
module ZipDirectory {
  import opened Wrappers
  import opened Texts

  const EOCD_SIGNATURE: Bytes := [0x50, 0x4b, 5, 6]       // 0x06054b50
  const CENTRAL_SIGNATURE: Bytes := [0x50, 0x4b, 1, 2]    // 0x02014b50
  const EOCD_BYTES: nat := 22
  const MAX_COMMENT_BYTES: nat := 0xffff
  const MAX_CENTRAL_BYTES: nat := 67_108_864
  const MAX_EXTRACT_ENTRIES: nat := 10_000
  const MAX_EXTRACT_BYTES: nat := 1_073_741_824
  const UNICODE_PATH_EXTRA: int := 0x7075

  const SLASH: byte := 47
  const BACKSLASH: byte := 92
  const DOT: byte := 46

  datatype Failure = NotAZip | Zip64 | TooManyEntries | Damaged | TwoNames

  datatype Result<T> = Ok(value: T) | Err(error: Failure)

  // ---- Little-endian numbers ----

  function U16(b: Bytes, at: nat): (r: nat)
    requires at + 2 <= |b|
    ensures r < 65536
  {
    b[at] as int + b[at + 1] as int * 256
  }

  function U32(b: Bytes, at: nat): (r: nat)
    requires at + 4 <= |b|
    ensures r < 0x1_0000_0000
  {
    U16(b, at) + U16(b, at + 2) * 65536
  }

  function Le16(n: nat): (r: Bytes)
    requires n < 65536
    ensures |r| == 2 && U16(r, 0) == n
  {
    [n % 256, n / 256]
  }

  function Le32(n: nat): (r: Bytes)
    requires n < 0x1_0000_0000
    ensures |r| == 4 && U32(r, 0) == n
  {
    var low, high := Le16(n % 65536), Le16(n / 65536);
    assert (low + high)[2..] == high;
    low + high
  }

  /** A signature stands here, compared byte by byte. */
  predicate Signed(b: Bytes, at: nat, signature: Bytes)
    requires at + 4 <= |b| && |signature| == 4
  {
    b[at] == signature[0] && b[at + 1] == signature[1] && b[at + 2] == signature[2] && b[at + 3] == signature[3]
  }

  /** That is the same as comparing the little-endian number. */
  lemma SignatureIsNumber(b: Bytes, at: nat, signature: Bytes)
    requires at + 4 <= |b| && |signature| == 4
    ensures Signed(b, at, signature) <==> U32(b, at) == U32(signature, 0)
    ensures U32(EOCD_SIGNATURE, 0) == 0x06054b50 && U32(CENTRAL_SIGNATURE, 0) == 0x02014b50
  {
    if U32(b, at) == U32(signature, 0) {
      SamePair(U16(b, at), U16(b, at + 2), U16(signature, 0), U16(signature, 2), 65536);
      SamePair(b[at], b[at + 1], signature[0], signature[1], 256);
      SamePair(b[at + 2], b[at + 3], signature[2], signature[3], 256);
    }
  }

  lemma SamePair(a: nat, b: nat, c: nat, d: nat, base: nat)
    requires (base == 256 || base == 65536) && a < base && c < base && a + b * base == c + d * base
    ensures a == c && b == d
  {
  }

  // ---- Records ----

  datatype Entry = Entry(name: Bytes, size: nat, isDir: bool, isSymlink: bool, encrypted: bool)

  function Slashes(name: Bytes): (r: Bytes)
    ensures |r| == |name|
  {
    seq(|name|, i requires 0 <= i < |name| => if name[i] == BACKSLASH then SLASH else name[i])
  }

  /** What the fields of a record say about its entry. */
  function Decoded(name: Bytes, size: nat, flags: nat, external: nat): Entry {
    var path := Slashes(name);
    Entry(path, size, path != [] && path[|path| - 1] == SLASH, external / 0x1000_0000 % 16 == 10, flags % 2 == 1)
  }

  /** Clamped like a buffer's subarray. */
  function Sub(b: Bytes, from: nat, to: nat): Bytes {
    if from >= to || from >= |b| then [] else if to > |b| then b[from..] else b[from..to]
  }

  /** The block at this place is a Unicode path that names something else. */
  predicate NamesAnother(extra: Bytes, name: Bytes, at: nat)
    requires at + 4 <= |extra|
  {
    U16(extra, at) == UNICODE_PATH_EXTRA && Sub(extra, at + 4 + 5, at + 4 + U16(extra, at + 2)) != name
  }

  /** Some block of the extra field is a Unicode path that names something else. */
  function UnicodePathDiffers(extra: Bytes, name: Bytes, at: nat): bool
    decreases if at <= |extra| then |extra| - at else 0
  {
    if at + 4 > |extra| then false
    else NamesAnother(extra, name, at) || UnicodePathDiffers(extra, name, at + 4 + U16(extra, at + 2))
  }

  /** A record's own length: header, name, extra field and comment. */
  function RecordLength(c: Bytes, at: nat): nat
    requires at + 46 <= |c|
  {
    46 + U16(c, at + 28) + U16(c, at + 30) + U16(c, at + 32)
  }

  /** A record starts here, and its name and extra field lie within the directory. */
  predicate RecordFits(c: Bytes, at: nat) {
    && at + 46 <= |c| && Signed(c, at, CENTRAL_SIGNATURE)
    && at + 46 + U16(c, at + 28) + U16(c, at + 30) <= |c|
  }

  function NameField(c: Bytes, at: nat): Bytes
    requires RecordFits(c, at)
  {
    c[at + 46..at + 46 + U16(c, at + 28)]
  }

  function ExtraField(c: Bytes, at: nat): Bytes
    requires RecordFits(c, at)
  {
    var end := at + 46 + U16(c, at + 28);
    c[end..end + U16(c, at + 30)]
  }

  function ReadRecord(c: Bytes, at: nat): (r: Result<Entry>)
    ensures r.Ok? ==> at + 46 <= |c|
  {
    if !RecordFits(c, at) then Err(Damaged)
    else if UnicodePathDiffers(ExtraField(c, at), NameField(c, at), 0) then Err(TwoNames)
    else if U32(c, at + 24) == 0xffff_ffff then Err(Zip64)
    else Ok(Decoded(NameField(c, at), U32(c, at + 24), U16(c, at + 8), U32(c, at + 38)))
  }

  /** A record's entry and where the next record would start. */
  datatype Found = Found(entry: Entry, next: nat)

  /** What stands at each place of a directory. */
  type Reader = nat -> Result<Found>

  function FoundAt(c: Bytes, at: nat): Result<Found> {
    var r := ReadRecord(c, at);
    if r.Err? then Err(r.error) else Ok(Found(r.value, at + RecordLength(c, at)))
  }

  function ReaderOf(c: Bytes): Reader {
    (at: nat) => FoundAt(c, at)
  }

  datatype Records = Records(entries: seq<Entry>, end: nat)

  /** Read count records from at on, behind the entries already read. */
  function ReadRecords(read: Reader, at: nat, count: nat, done: seq<Entry>): Result<Records>
    decreases count
  {
    if count == 0 then Ok(Records(done, at))
    else
      var first := read(at);
      if first.Err? then Err(first.error)
      else ReadRecords(read, first.value.next, count - 1, done + [first.value.entry])
  }

  // ---- The end record ----

  /** The last place from low to at where the end record's signature stands. */
  function FindEnd(b: Bytes, at: int, low: nat): (r: Option<nat>)
    requires at + EOCD_BYTES <= |b|
    ensures r.Some? ==> low <= r.value <= at && Signed(b, r.value, EOCD_SIGNATURE)
    ensures forall i :: low <= i <= at && (r.Some? ==> r.value < i) ==> !Signed(b, i, EOCD_SIGNATURE)
    decreases at + 1
  {
    if at < low then None
    else if Signed(b, at, EOCD_SIGNATURE) then Some(at)
    else FindEnd(b, at - 1, low)
  }

  function TailLength(size: nat): nat {
    if size < EOCD_BYTES + MAX_COMMENT_BYTES then size else EOCD_BYTES + MAX_COMMENT_BYTES
  }

  datatype EndRecord = EndRecord(count: nat, size: nat, offset: nat)

  function ReadEnd(b: Bytes, at: nat): EndRecord
    requires at + EOCD_BYTES <= |b|
  {
    EndRecord(U16(b, at + 10), U32(b, at + 12), U32(b, at + 16))
  }

  /** Why an end record is refused before its directory is read. */
  function Refused(d: EndRecord, fileSize: nat): Option<Failure> {
    if d.count == 0xffff || d.size == 0xffff_ffff || d.offset == 0xffff_ffff then Some(Zip64)
    else if d.count > MAX_EXTRACT_ENTRIES then Some(TooManyEntries)
    else if d.size > MAX_CENTRAL_BYTES || d.offset + d.size > fileSize then Some(Damaged)
    else None
  }

  /** Nothing may be left over, in the directory or between it and the end record. */
  function Closed(read: Result<Records>, d: EndRecord, eocd: nat): Result<seq<Entry>> {
    if read.Err? then Err(read.error)
    else if read.value.end != d.size || d.offset + d.size != eocd then Err(Damaged)
    else Ok(read.value.entries)
  }

  /** Read the directory an end record points at, with the reader its bytes give. */
  function ReadDirectory(reader: Bytes -> Reader, file: Bytes, d: EndRecord, eocd: nat): Result<seq<Entry>> {
    var refused := Refused(d, |file|);
    if refused.Some? then Err(refused.value)
    else Closed(ReadRecords(reader(file[d.offset..d.offset + d.size]), 0, d.count, []), d, eocd)
  }

  /** Where the end record is taken to stand: as far back as a comment can push it, the last signature. */
  function EndOf(file: Bytes): (r: Option<nat>)
    ensures r.Some? ==> r.value + EOCD_BYTES <= |file| && Signed(file, r.value, EOCD_SIGNATURE)
  {
    FindEnd(file, |file| - EOCD_BYTES, |file| - TailLength(|file|))
  }

  function ReadWith(reader: Bytes -> Reader, file: Bytes): Result<seq<Entry>> {
    var eocd := EndOf(file);
    if eocd.None? then Err(NotAZip) else ReadDirectory(reader, file, ReadEnd(file, eocd.value), eocd.value)
  }

  function ReadZip(file: Bytes): Result<seq<Entry>> {
    ReadWith(ReaderOf, file)
  }

  // ---- Success means the records tile the directory ----

  /** The entries' records stand one after another from at to the very end. */
  predicate Tiles(read: Reader, size: nat, at: nat, entries: seq<Entry>)
    decreases |entries|
  {
    if entries == [] then at == size
    else read(at).Ok? && read(at).value.entry == entries[0] && Tiles(read, size, read(at).value.next, entries[1..])
  }

  lemma OneMoreTile(read: Reader, size: nat, at: nat, rest: seq<Entry>)
    requires read(at).Ok? && Tiles(read, size, read(at).value.next, rest)
    ensures Tiles(read, size, at, [read(at).value.entry] + rest)
  {
    assert ([read(at).value.entry] + rest)[1..] == rest;
  }

  lemma {:induction false} ReadingTiles(read: Reader, at: nat, count: nat, done: seq<Entry>) returns (e: seq<Entry>)
    requires ReadRecords(read, at, count, done).Ok?
    ensures var r := ReadRecords(read, at, count, done).value;
      r.entries == done + e && |e| == count && Tiles(read, r.end, at, e)
    decreases count
  {
    e := [];
    if count > 0 {
      var first := read(at).value;
      var rest := ReadingTiles(read, first.next, count - 1, done + [first.entry]);
      OneMoreTile(read, ReadRecords(read, at, count, done).value.end, at, rest);
      Assoc(done, first.entry, rest);
      e := [first.entry] + rest;
    }
  }

  lemma Assoc(done: seq<Entry>, e: Entry, rest: seq<Entry>)
    ensures done + [e] + rest == done + ([e] + rest)
  {
  }

  lemma {:induction false} TilingReads(read: Reader, size: nat, at: nat, entries: seq<Entry>, done: seq<Entry>)
    requires Tiles(read, size, at, entries)
    ensures ReadRecords(read, at, |entries|, done) == Ok(Records(done + entries, size))
    decreases |entries|
  {
    if entries == [] {
      assert done + entries == done;
    } else {
      TilingReads(read, size, read(at).value.next, entries[1..], done + [entries[0]]);
      Assoc(done, entries[0], entries[1..]);
      assert [entries[0]] + entries[1..] == entries;
    }
  }

  function Concat(parts: seq<Bytes>): Bytes {
    if parts == [] then [] else parts[0] + Concat(parts[1..])
  }

  lemma SubSlice(c: Bytes, at: nat, n: nat, i: nat, j: nat)
    requires at + n <= |c| && i <= j <= n
    ensures c[at..at + n][i..j] == c[at + i..at + j]
  {
    var p, q := c[at..at + n][i..j], c[at + i..at + j];
    forall m | 0 <= m < j - i ensures p[m] == q[m] {
      assert p[m] == c[at..at + n][i + m] == c[at + i + m];
    }
  }

  lemma SubFields(c: Bytes, at: nat, n: nat, k: nat)
    requires at + n <= |c| && k + 2 <= n
    ensures U16(c[at..at + n], k) == U16(c, at + k)
  {
  }

  lemma SubLongFields(c: Bytes, at: nat, n: nat, k: nat)
    requires at + n <= |c| && k + 4 <= n
    ensures U32(c[at..at + n], k) == U32(c, at + k)
  {
    var p := c[at..at + n];
    assert p[k] == c[at + k] && p[k + 1] == c[at + k + 1] && p[k + 2] == c[at + k + 2] && p[k + 3] == c[at + k + 3];
  }

  /** A record cut out of the directory has the same fields. */
  lemma SameFields(c: Bytes, at: nat)
    requires RecordFits(c, at) && at + RecordLength(c, at) <= |c|
    ensures var p := c[at..at + RecordLength(c, at)];
      RecordFits(p, 0) && RecordLength(p, 0) == |p| && NameField(p, 0) == NameField(c, at) && ExtraField(p, 0) == ExtraField(c, at)
  {
    var n := RecordLength(c, at);
    var p := c[at..at + n];
    SubFields(c, at, n, 28);
    SubFields(c, at, n, 30);
    SubFields(c, at, n, 32);
    var l, m := U16(c, at + 28), U16(c, at + 30);
    SubSlice(c, at, n, 46, 46 + l);
    SubSlice(c, at, n, 46 + l, 46 + l + m);
  }

  /** And so is read as the same entry on its own. */
  lemma PieceReads(c: Bytes, at: nat)
    requires ReadRecord(c, at).Ok? && at + RecordLength(c, at) <= |c|
    ensures var p := c[at..at + RecordLength(c, at)];
      |p| >= 46 && ReadRecord(p, 0) == ReadRecord(c, at) && RecordLength(p, 0) == |p|
  {
    SameFields(c, at);
    var n := RecordLength(c, at);
    SubFields(c, at, n, 8);
    SubLongFields(c, at, n, 24);
    SubLongFields(c, at, n, 38);
  }

  /** The piece is a whole record, of this entry. */
  predicate IsRecordOf(p: Bytes, e: Entry) {
    ReadRecord(p, 0) == Ok(e) && RecordLength(p, 0) == |p|
  }

  /** A reader that only goes forward, and finds records that c holds. */
  ghost predicate ReadsFrom(read: Reader, c: Bytes) {
    forall at: nat :: read(at).Ok? ==>
      var f := read(at).value;
      at <= f.next && (f.next <= |c| ==> IsRecordOf(c[at..f.next], f.entry))
  }

  lemma PieceIs(c: Bytes, at: nat, f: Found)
    requires ReadRecord(c, at) == Ok(f.entry) && f.next == at + RecordLength(c, at)
    ensures at <= f.next && (f.next <= |c| ==> IsRecordOf(c[at..f.next], f.entry))
  {
    if f.next <= |c| {
      PieceReads(c, at);
    }
  }

  lemma ReaderReadsFrom(c: Bytes)
    ensures ReadsFrom(ReaderOf(c), c)
  {
    forall at: nat | ReaderOf(c)(at).Ok?
      ensures var f := ReaderOf(c)(at).value; at <= f.next && (f.next <= |c| ==> IsRecordOf(c[at..f.next], f.entry))
    {
      PieceIs(c, at, ReaderOf(c)(at).value);
    }
  }

  lemma {:induction false} TilesMakePieces(read: Reader, c: Bytes, at: nat, entries: seq<Entry>) returns (pieces: seq<Bytes>)
    requires ReadsFrom(read, c) && Tiles(read, |c|, at, entries)
    ensures at <= |c| && |pieces| == |entries| && Concat(pieces) == c[at..]
    ensures forall i :: 0 <= i < |pieces| ==> IsRecordOf(pieces[i], entries[i])
    decreases |entries|
  {
    pieces := [];
    if entries != [] {
      var f := read(at).value;
      var rest := TilesMakePieces(read, c, f.next, entries[1..]);
      pieces := OneMorePiece(c[at..f.next], entries[0], rest, entries[1..]);
      assert [entries[0]] + entries[1..] == entries;
      assert c[at..f.next] + c[f.next..] == c[at..];
    }
  }

  /** The tiling as one piece of the directory per entry, each a record of it, none left over and none shared. */
  lemma TilesArePieces(c: Bytes, at: nat, entries: seq<Entry>) returns (pieces: seq<Bytes>)
    requires Tiles(ReaderOf(c), |c|, at, entries)
    ensures at <= |c| && |pieces| == |entries| && Concat(pieces) == c[at..]
    ensures forall i :: 0 <= i < |pieces| ==> IsRecordOf(pieces[i], entries[i])
  {
    ReaderReadsFrom(c);
    pieces := TilesMakePieces(ReaderOf(c), c, at, entries);
  }

  lemma OneMorePiece(p: Bytes, e: Entry, rest: seq<Bytes>, entries: seq<Entry>) returns (pieces: seq<Bytes>)
    requires IsRecordOf(p, e) && |rest| == |entries| && forall i :: 0 <= i < |rest| ==> IsRecordOf(rest[i], entries[i])
    ensures pieces == [p] + rest && Concat(pieces) == p + Concat(rest)
    ensures forall i :: 0 <= i < |pieces| ==> IsRecordOf(pieces[i], ([e] + entries)[i])
  {
    pieces := [p] + rest;
    assert pieces[1..] == rest;
  }

  /**
   For every byte string: reading succeeds only when there is an end record whose directory runs
   right up to it and is tiled exactly by as many records as it counts, which are the result.
   */
  lemma SuccessTiles(file: Bytes) returns (d: EndRecord, eocd: nat)
    requires ReadZip(file).Ok?
    ensures eocd + EOCD_BYTES <= |file| && Signed(file, eocd, EOCD_SIGNATURE) && ReadEnd(file, eocd) == d
    ensures d.offset + d.size == eocd
    ensures var entries := ReadZip(file).value;
      |entries| == d.count <= 10_000 && Tiles(ReaderOf(file[d.offset..eocd]), d.size, 0, entries)
  {
    d, eocd := DirectoryTiles(ReaderOf, file);
  }

  lemma DirectoryTiles(reader: Bytes -> Reader, file: Bytes) returns (d: EndRecord, eocd: nat)
    requires ReadWith(reader, file).Ok?
    ensures eocd + EOCD_BYTES <= |file| && Signed(file, eocd, EOCD_SIGNATURE) && ReadEnd(file, eocd) == d
    ensures d.offset + d.size == eocd
    ensures var entries := ReadWith(reader, file).value;
      |entries| == d.count <= 10_000 && Tiles(reader(file[d.offset..eocd]), d.size, 0, entries)
  {
    eocd := EndOf(file).value;
    d := ReadEnd(file, eocd);
    CentralTiles(reader(file[d.offset..d.offset + d.size]), d, eocd);
  }

  lemma CentralTiles(read: Reader, d: EndRecord, eocd: nat)
    requires Closed(ReadRecords(read, 0, d.count, []), d, eocd).Ok?
    ensures d.offset + d.size == eocd
    ensures var entries := Closed(ReadRecords(read, 0, d.count, []), d, eocd).value;
      |entries| == d.count && Tiles(read, d.size, 0, entries)
  {
    var e := ReadingTiles(read, 0, d.count, []);
    assert [] + e == e;
  }

  lemma CentralReads(c: Bytes, d: EndRecord, entries: seq<Entry>)
    requires d.count == |entries| && d.size == |c| && Tiles(ReaderOf(c), |c|, 0, entries)
    ensures Closed(ReadRecords(ReaderOf(c), 0, d.count, []), d, d.offset + d.size) == Ok(entries)
  {
    TilingReads(ReaderOf(c), |c|, 0, entries, []);
    assert [] + entries == entries;
  }

  // ---- Exactly which files are read, and as what ----

  /** The last place in the file where the end record's signature stands, no further back than a comment reaches. */
  predicate LastEnd(file: Bytes, e: nat) {
    && e + 22 <= |file| <= e + 22 + 65535 && U32(file, e) == 0x06054b50
    && forall i :: e < i <= |file| - 22 ==> U32(file, i) != 0x06054b50
  }

  lemma EndOfIff(file: Bytes, e: nat)
    ensures EndOf(file) == Some(e) <==> LastEnd(file, e)
  {
    forall i | 0 <= i <= |file| - 22 ensures Signed(file, i, EOCD_SIGNATURE) <==> U32(file, i) == 0x06054b50 {
      SignatureIsNumber(file, i, EOCD_SIGNATURE);
    }
  }

  /** What the end record at e says is within the limits, and its directory runs up to it as just these records. */
  ghost predicate Describes(reader: Bytes -> Reader, file: Bytes, e: nat, entries: seq<Entry>)
    requires e + 22 <= |file|
  {
    var count, size, offset := U16(file, e + 10), U32(file, e + 12), U32(file, e + 16);
    && count <= 10_000 && size <= 64 * 1024 * 1024 && offset != 0xffff_ffff && offset + size == e
    && |entries| == count && Tiles(reader(file[offset..e]), size, 0, entries)
  }

  lemma ClosedIff(read: Reader, d: EndRecord, eocd: nat, entries: seq<Entry>)
    ensures Closed(ReadRecords(read, 0, d.count, []), d, eocd) == Ok(entries) <==>
      d.offset + d.size == eocd && |entries| == d.count && Tiles(read, d.size, 0, entries)
  {
    if Closed(ReadRecords(read, 0, d.count, []), d, eocd).Ok? {
      CentralTiles(read, d, eocd);
    }
    if |entries| == d.count && Tiles(read, d.size, 0, entries) {
      TilingReads(read, d.size, 0, entries, []);
      assert [] + entries == entries;
    }
  }

  lemma DirectoryIff(reader: Bytes -> Reader, file: Bytes, e: nat, entries: seq<Entry>)
    requires e + 22 <= |file|
    ensures ReadDirectory(reader, file, ReadEnd(file, e), e) == Ok(entries) <==> Describes(reader, file, e, entries)
  {
    var d := ReadEnd(file, e);
    if Refused(d, |file|).None? {
      ClosedIff(reader(file[d.offset..d.offset + d.size]), d, e, entries);
    }
  }

  lemma WithIff(reader: Bytes -> Reader, file: Bytes, entries: seq<Entry>)
    ensures ReadWith(reader, file) == Ok(entries) <==> exists e: nat :: LastEnd(file, e) && Describes(reader, file, e, entries)
  {
    var end := EndOf(file);
    if end.Some? {
      EndOfIff(file, end.value);
      DirectoryIff(reader, file, end.value, entries);
    }
    forall e: nat | LastEnd(file, e) ensures end == Some(e) {
      EndOfIff(file, e);
    }
  }

  /**
   A file is read as these entries if and only if the last end record that a comment can leave room
   for is within the limits and its directory runs right up to it as one record for each of them.
   */
  lemma ReadsIff(file: Bytes, entries: seq<Entry>)
    ensures ReadZip(file) == Ok(entries) <==> exists e: nat :: LastEnd(file, e) && Describes(ReaderOf, file, e, entries)
  {
    WithIff(ReaderOf, file, entries);
  }

  /** What makes a record at a place of the directory readable, and where the next one begins. */
  lemma RecordReadsIff(c: Bytes, at: nat)
    ensures ReadRecord(c, at).Ok? <==>
      && at + 46 <= |c| && U32(c, at) == 0x02014b50
      && at + 46 + U16(c, at + 28) + U16(c, at + 30) <= |c| && U32(c, at + 24) != 0xffff_ffff
      && !UnicodePathDiffers(ExtraField(c, at), NameField(c, at), 0)
    ensures ReadRecord(c, at).Ok? ==>
      && ReaderOf(c)(at).Ok? && ReaderOf(c)(at).value.entry == ReadRecord(c, at).value
      && ReaderOf(c)(at).value.next == at + 46 + U16(c, at + 28) + U16(c, at + 30) + U16(c, at + 32)
  {
    if at + 46 <= |c| {
      SignatureIsNumber(c, at, CENTRAL_SIGNATURE);
    }
  }

  /** Why a record cannot be read. */
  lemma RecordFailsAs(c: Bytes, at: nat)
    requires ReadRecord(c, at).Err?
    ensures var fits := at + 46 <= |c| && U32(c, at) == 0x02014b50 && at + 46 + U16(c, at + 28) + U16(c, at + 30) <= |c|;
      ReadRecord(c, at).error ==
        if !fits then Damaged else if UnicodePathDiffers(ExtraField(c, at), NameField(c, at), 0) then TwoNames else Zip64
  {
    if at + 46 <= |c| {
      SignatureIsNumber(c, at, CENTRAL_SIGNATURE);
    }
  }

  /** The first record that cannot be read decides. */
  lemma {:induction false} FailsAtFirst(read: Reader, at: nat, count: nat, done: seq<Entry>) returns (n: nat, place: nat)
    requires ReadRecords(read, at, count, done).Err?
    ensures n < count && ReadRecords(read, at, n, done).Ok? && ReadRecords(read, at, n, done).value.end == place
    ensures read(place).Err? && read(place).error == ReadRecords(read, at, count, done).error
    decreases count
  {
    if read(at).Err? {
      n, place := 0, at;
    } else {
      var m: nat;
      m, place := FailsAtFirst(read, read(at).value.next, count - 1, done + [read(at).value.entry]);
      n := m + 1;
    }
  }

  /** A file with no end record is no zip; with one, the marks of a zip64, the count and the sizes are looked at in turn. */
  lemma RefusedAs(reader: Bytes -> Reader, file: Bytes)
    ensures ReadWith(reader, file) == Err(NotAZip) || exists e: nat :: LastEnd(file, e)
    ensures forall e: nat :: LastEnd(file, e) ==>
      var count, size, offset := U16(file, e + 10), U32(file, e + 12), U32(file, e + 16);
      && (count == 65535 || size == 0xffff_ffff || offset == 0xffff_ffff ==> ReadWith(reader, file) == Err(Zip64))
      && (10_000 < count < 65535 && size != 0xffff_ffff && offset != 0xffff_ffff ==> ReadWith(reader, file) == Err(TooManyEntries))
      && (count <= 10_000 && size != 0xffff_ffff && offset != 0xffff_ffff && (size > 64 * 1024 * 1024 || offset + size > |file|)
          ==> ReadWith(reader, file) == Err(Damaged))
  {
    if EndOf(file).Some? {
      EndOfIff(file, EndOf(file).value);
    }
    forall e: nat | LastEnd(file, e) ensures EndOf(file) == Some(e) {
      EndOfIff(file, e);
    }
  }

  /** Within the limits, the first record that cannot be read decides, and after the last nothing may be left over. */
  lemma DirectoryFailsAs(reader: Bytes -> Reader, file: Bytes, d: EndRecord, e: nat)
    requires Refused(d, |file|).None? && d.offset + d.size <= |file|
    ensures var read := ReadRecords(reader(file[d.offset..d.offset + d.size]), 0, d.count, []);
      && (read.Err? ==> ReadDirectory(reader, file, d, e) == Err(read.error))
      && (read.Ok? && (read.value.end != d.size || d.offset + d.size != e) ==> ReadDirectory(reader, file, d, e) == Err(Damaged))
  {
  }

  // ---- What a plain writer writes is read back ----

  /** A block of an extra field. */
  datatype Block = Block(tag: nat, body: Bytes)

  predicate GoodBlocks(bs: seq<Block>) {
    forall i :: 0 <= i < |bs| ==> bs[i].tag < 65536 && |bs[i].body| < 65536
  }

  function WriteBlocks(bs: seq<Block>): Bytes
    requires GoodBlocks(bs)
  {
    if bs == [] then [] else Le16(bs[0].tag) + Le16(|bs[0].body|) + bs[0].body + WriteBlocks(bs[1..])
  }

  /** The name that a Unicode path block holds behind its version and checksum. */
  function PathName(body: Bytes): Bytes {
    if |body| <= 5 then [] else body[5..]
  }

  /** Some block is a Unicode path with another name. */
  predicate SecondName(bs: seq<Block>, name: Bytes) {
    exists i :: 0 <= i < |bs| && bs[i].tag == 0x7075 && PathName(bs[i].body) != name
  }

  /** A directory record; the fields the reader skips are arbitrary bytes. */
  datatype Record = Record(
    name: Bytes, size: nat, flags: nat, external: nat, versions: Bytes, data: Bytes, disk: Bytes, place: Bytes,
    blocks: seq<Block>, comment: Bytes)

  predicate WellFormed(r: Record) {
    && |r.name| < 65536 && r.size < 0xffff_ffff && r.flags < 65536 && r.external < 0x1_0000_0000
    && |r.versions| == 4 && |r.data| == 14 && |r.disk| == 4 && |r.place| == 4
    && GoodBlocks(r.blocks) && |WriteBlocks(r.blocks)| < 65536 && |r.comment| < 65536
  }

  /** And its entry has one name alone. */
  predicate Writable(r: Record) {
    WellFormed(r) && !SecondName(r.blocks, r.name)
  }

  function Front(r: Record): (h: Bytes)
    requires WellFormed(r)
    ensures |h| == 28
  {
    CENTRAL_SIGNATURE + r.versions + Le16(r.flags) + r.data + Le32(r.size)
  }

  function Back(r: Record): (h: Bytes)
    requires WellFormed(r)
    ensures |h| == 18
  {
    Le16(|r.name|) + Le16(|WriteBlocks(r.blocks)|) + Le16(|r.comment|) + r.disk + Le32(r.external) + r.place
  }

  function WriteRecord(r: Record): (b: Bytes)
    requires WellFormed(r)
    ensures |b| == 46 + |r.name| + |WriteBlocks(r.blocks)| + |r.comment|
  {
    Front(r) + (Back(r) + (r.name + (WriteBlocks(r.blocks) + r.comment)))
  }

  function EntryOf(r: Record): Entry {
    Decoded(r.name, r.size, r.flags, r.external)
  }

  predicate AllWritable(rs: seq<Record>) {
    forall i :: 0 <= i < |rs| ==> Writable(rs[i])
  }

  function WriteRecords(rs: seq<Record>): Bytes
    requires AllWritable(rs)
  {
    if rs == [] then [] else WriteRecord(rs[0]) + WriteRecords(rs[1..])
  }

  function EntriesOf(rs: seq<Record>): (r: seq<Entry>)
    ensures |r| == |rs|
  {
    if rs == [] then [] else [EntryOf(rs[0])] + EntriesOf(rs[1..])
  }

  /** The end record, without a comment. */
  function WriteEnd(count: nat, size: nat, offset: nat): (b: Bytes)
    requires count < 65536 && size < 0x1_0000_0000 && offset < 0x1_0000_0000
    ensures |b| == EOCD_BYTES
  {
    EOCD_SIGNATURE + Le16(0) + Le16(0) + Le16(count) + Le16(count) + Le32(size) + Le32(offset) + Le16(0)
  }

  /** The files' data, the directory and the end record. */
  predicate FitsLimits(data: Bytes, rs: seq<Record>) {
    && AllWritable(rs) && |rs| <= 10_000
    && |WriteRecords(rs)| <= 64 * 1024 * 1024 && |data| < 0xffff_ffff
  }

  function WriteZip(data: Bytes, rs: seq<Record>): Bytes
    requires FitsLimits(data, rs)
  {
    data + WriteRecords(rs) + WriteEnd(|rs|, |WriteRecords(rs)|, |data|)
  }

  /** The bytes of b from at on begin with part. */
  predicate Holds(b: Bytes, at: nat, part: Bytes) {
    at + |part| <= |b| && b[at..at + |part|] == part
  }

  lemma HoldsParts(b: Bytes, at: nat, x: Bytes, y: Bytes)
    requires Holds(b, at, x + y)
    ensures Holds(b, at, x) && Holds(b, at + |x|, y)
  {
    assert b[at..at + |x|] == (x + y)[..|x|];
    assert b[at + |x|..at + |x| + |y|] == (x + y)[|x|..];
  }

  lemma HoldsU16(b: Bytes, at: nat, n: nat)
    requires n < 65536 && Holds(b, at, Le16(n))
    ensures U16(b, at) == n
  {
    assert b[at] == b[at..at + 2][0] && b[at + 1] == b[at..at + 2][1];
  }

  lemma HoldsU32(b: Bytes, at: nat, n: nat)
    requires n < 0x1_0000_0000 && Holds(b, at, Le32(n))
    ensures U32(b, at) == n
  {
    assert Le32(n) == Le16(n % 65536) + Le16(n / 65536);
    HoldsParts(b, at, Le16(n % 65536), Le16(n / 65536));
    HoldsU16(b, at, n % 65536);
    HoldsU16(b, at + 2, n / 65536);
  }

  lemma HoldsSignature(b: Bytes, at: nat, signature: Bytes)
    requires |signature| == 4 && Holds(b, at, signature)
    ensures Signed(b, at, signature)
  {
    assert b[at..at + 4] == [b[at], b[at + 1], b[at + 2], b[at + 3]];
  }

  /** The header's first fields. */
  lemma FrontFields(c: Bytes, at: nat, r: Record)
    requires WellFormed(r) && Holds(c, at, Front(r))
    ensures Signed(c, at, CENTRAL_SIGNATURE) && U16(c, at + 8) == r.flags && U32(c, at + 24) == r.size
  {
    var a := CENTRAL_SIGNATURE;
    var b := a + r.versions;
    var d := b + Le16(r.flags);
    var e := d + r.data;
    HoldsParts(c, at, e, Le32(r.size));
    HoldsParts(c, at, d, r.data);
    HoldsParts(c, at, b, Le16(r.flags));
    HoldsParts(c, at, a, r.versions);
    HoldsSignature(c, at, CENTRAL_SIGNATURE);
    HoldsU16(c, at + 8, r.flags);
    HoldsU32(c, at + 24, r.size);
  }

  /** Its last fields. */
  lemma BackFields(c: Bytes, at: nat, r: Record)
    requires WellFormed(r) && Holds(c, at, Back(r))
    ensures U16(c, at) == |r.name| && U16(c, at + 2) == |WriteBlocks(r.blocks)| && U16(c, at + 4) == |r.comment| && U32(c, at + 10) == r.external
  {
    var n, x, y := |r.name|, |WriteBlocks(r.blocks)|, |r.comment|;
    var a := Le16(n);
    var b := a + Le16(x);
    var d := b + Le16(y);
    var e := d + r.disk;
    var f := e + Le32(r.external);
    HoldsParts(c, at, f, r.place);
    HoldsParts(c, at, e, Le32(r.external));
    HoldsParts(c, at, d, r.disk);
    HoldsParts(c, at, b, Le16(y));
    HoldsParts(c, at, a, Le16(x));
    HoldsU16(c, at, n);
    HoldsU16(c, at + 2, x);
    HoldsU16(c, at + 4, y);
    HoldsU32(c, at + 10, r.external);
  }

  lemma RecordParts(c: Bytes, at: nat, r: Record)
    requires WellFormed(r) && Holds(c, at, WriteRecord(r))
    ensures Holds(c, at, Front(r)) && Holds(c, at + 28, Back(r)) && Holds(c, at + 46, r.name)
    ensures Holds(c, at + 46 + |r.name|, WriteBlocks(r.blocks)) && at + |WriteRecord(r)| <= |c|
  {
    var extra := WriteBlocks(r.blocks);
    HoldsParts(c, at, Front(r), Back(r) + (r.name + (extra + r.comment)));
    HoldsParts(c, at + 28, Back(r), r.name + (extra + r.comment));
    HoldsParts(c, at + 46, r.name, extra + r.comment);
    HoldsParts(c, at + 46 + |r.name|, extra, r.comment);
  }

  /** A written record's fields, its name, its extra field and its comment where they stand. */
  lemma FieldsReadBack(c: Bytes, at: nat, r: Record)
    requires WellFormed(r) && Holds(c, at, WriteRecord(r))
    ensures RecordFits(c, at) && NameField(c, at) == r.name && ExtraField(c, at) == WriteBlocks(r.blocks)
    ensures U16(c, at + 8) == r.flags && U32(c, at + 24) == r.size && U32(c, at + 38) == r.external
    ensures RecordLength(c, at) == |WriteRecord(r)|
  {
    RecordParts(c, at, r);
    FrontFields(c, at, r);
    BackFields(c, at + 28, r);
  }

  // ---- The extra field ----

  lemma BlockHead(extra: Bytes, at: nat, b: Block, rest: Bytes)
    requires b.tag < 65536 && |b.body| < 65536 && Holds(extra, at, Le16(b.tag) + Le16(|b.body|) + b.body + rest)
    ensures at + 4 + |b.body| <= |extra| && U16(extra, at) == b.tag && U16(extra, at + 2) == |b.body|
    ensures extra[at + 4..at + 4 + |b.body|] == b.body && Holds(extra, at + 4 + |b.body|, rest)
  {
    var t, l := Le16(b.tag), Le16(|b.body|);
    HoldsParts(extra, at, t + l + b.body, rest);
    HoldsParts(extra, at, t + l, b.body);
    HoldsParts(extra, at, t, l);
    HoldsU16(extra, at, b.tag);
    HoldsU16(extra, at + 2, |b.body|);
  }

  lemma BlockNames(extra: Bytes, at: nat, b: Block, name: Bytes)
    requires at + 4 + |b.body| <= |extra| && U16(extra, at) == b.tag && U16(extra, at + 2) == |b.body|
    requires extra[at + 4..at + 4 + |b.body|] == b.body
    ensures NamesAnother(extra, name, at) <==> b.tag == 0x7075 && PathName(b.body) != name
  {
    if |b.body| > 5 {
      assert extra[at + 9..at + 4 + |b.body|] == b.body[5..];
    }
  }

  /** Whatever blocks an extra field is written with, the walk over it finds a second name exactly when one of them has it. */
  lemma {:induction false} SecondNameIsFound(extra: Bytes, at: nat, bs: seq<Block>, name: Bytes)
    requires GoodBlocks(bs) && Holds(extra, at, WriteBlocks(bs)) && at + |WriteBlocks(bs)| == |extra|
    ensures UnicodePathDiffers(extra, name, at) <==> SecondName(bs, name)
    decreases |bs|
  {
    if bs != [] {
      var next := at + 4 + |bs[0].body|;
      BlockHead(extra, at, bs[0], WriteBlocks(bs[1..]));
      BlockNames(extra, at, bs[0], name);
      SecondNameIsFound(extra, next, bs[1..], name);
      DiffersStep(extra, name, at, next);
      SecondNameFirst(bs, name);
    }
  }

  lemma DiffersStep(extra: Bytes, name: Bytes, at: nat, next: nat)
    requires at + 4 <= |extra| && next == at + 4 + U16(extra, at + 2)
    ensures UnicodePathDiffers(extra, name, at) <==> NamesAnother(extra, name, at) || UnicodePathDiffers(extra, name, next)
  {
  }

  lemma SecondNameFirst(bs: seq<Block>, name: Bytes)
    requires bs != []
    ensures SecondName(bs, name) <==> (bs[0].tag == 0x7075 && PathName(bs[0].body) != name) || SecondName(bs[1..], name)
  {
    if SecondName(bs, name) {
      var i :| 0 <= i < |bs| && bs[i].tag == 0x7075 && PathName(bs[i].body) != name;
      assert i > 0 ==> bs[1..][i - 1] == bs[i];
    }
    if SecondName(bs[1..], name) {
      var i :| 0 <= i < |bs| - 1 && bs[1..][i].tag == 0x7075 && PathName(bs[1..][i].body) != name;
      assert bs[i + 1] == bs[1..][i];
    }
  }

  lemma ExtraReadBack(bs: seq<Block>, name: Bytes)
    requires GoodBlocks(bs)
    ensures UnicodePathDiffers(WriteBlocks(bs), name, 0) <==> SecondName(bs, name)
  {
    var extra := WriteBlocks(bs);
    assert extra[0..0 + |extra|] == extra;
    SecondNameIsFound(extra, 0, bs, name);
  }

  /** A written record is read as its entry, or refused for a second name in its extra field. */
  lemma RecordReadBack(c: Bytes, at: nat, r: Record)
    requires WellFormed(r) && Holds(c, at, WriteRecord(r))
    ensures ReadRecord(c, at) == if SecondName(r.blocks, r.name) then Err(TwoNames) else Ok(EntryOf(r))
    ensures at + 46 <= |c| && RecordLength(c, at) == |WriteRecord(r)|
  {
    FieldsReadBack(c, at, r);
    ExtraReadBack(r.blocks, r.name);
  }

  lemma FindsRecord(c: Bytes, at: nat, r: Record)
    requires Writable(r) && Holds(c, at, WriteRecord(r))
    ensures ReaderOf(c)(at) == Ok(Found(EntryOf(r), at + |WriteRecord(r)|))
  {
    RecordReadBack(c, at, r);
    assert FoundAt(c, at) == Ok(Found(EntryOf(r), at + |WriteRecord(r)|));
  }

  /** The written records stand one after another from at to the very end of c. */
  predicate StandFrom(c: Bytes, at: nat, rs: seq<Record>) {
    AllWritable(rs) && Holds(c, at, WriteRecords(rs)) && at + |WriteRecords(rs)| == |c|
  }

  lemma FirstStands(c: Bytes, at: nat, rs: seq<Record>)
    requires StandFrom(c, at, rs) && rs != []
    ensures Holds(c, at, WriteRecord(rs[0])) && StandFrom(c, at + |WriteRecord(rs[0])|, rs[1..])
  {
    HoldsParts(c, at, WriteRecord(rs[0]), WriteRecords(rs[1..]));
  }

  lemma FirstEntry(rs: seq<Record>)
    requires rs != []
    ensures EntriesOf(rs) == [EntryOf(rs[0])] + EntriesOf(rs[1..])
  {
  }

  /** At p the reader finds the first entry of q and, by next, the place of the others; with none left, p is the end. */
  ghost predicate FirstFound<R>(read: Reader, size: nat, p: nat, q: seq<R>, stand: (nat, seq<R>) -> bool, entries: seq<R> -> seq<Entry>) {
    if q == [] then p == size && entries(q) == []
    else read(p).Ok? && stand(read(p).value.next, q[1..]) && entries(q) == [read(p).value.entry] + entries(q[1..])
  }

  lemma {:induction false} FoundInTurn<R>(read: Reader, size: nat, at: nat, rs: seq<R>, stand: (nat, seq<R>) -> bool, entries: seq<R> -> seq<Entry>)
    requires stand(at, rs)
    requires forall p: nat, q: seq<R> :: stand(p, q) ==> FirstFound(read, size, p, q, stand, entries)
    ensures Tiles(read, size, at, entries(rs))
    decreases |rs|
  {
    assert FirstFound(read, size, at, rs, stand, entries);
    if rs != [] {
      FoundInTurn(read, size, read(at).value.next, rs[1..], stand, entries);
      OneMoreTile(read, size, at, entries(rs[1..]));
    }
  }

  lemma FirstIsFound(read: Reader, c: Bytes, at: nat, rs: seq<Record>, next: nat)
    requires if rs == [] then at == |c| else read(at) == Ok(Found(EntryOf(rs[0]), next)) && StandFrom(c, next, rs[1..])
    ensures FirstFound(read, |c|, at, rs, (p: nat, q: seq<Record>) => StandFrom(c, p, q), EntriesOf)
  {
    if rs != [] {
      FirstEntry(rs);
    }
  }

  lemma FirstHolds(c: Bytes, at: nat, rs: seq<Record>) returns (r: Record)
    requires StandFrom(c, at, rs) && rs != []
    ensures r == rs[0] && Writable(r) && Holds(c, at, WriteRecord(r))
  {
    FirstStands(c, at, rs);
    r := rs[0];
  }

  /** The first of the records is read where they stand. */
  lemma FirstIsRead(c: Bytes, at: nat, rs: seq<Record>)
    requires StandFrom(c, at, rs) && rs != []
    ensures ReaderOf(c)(at) == Ok(Found(EntryOf(rs[0]), at + |WriteRecord(rs[0])|))
  {
    var r := FirstHolds(c, at, rs);
    FindsRecord(c, at, r);
  }

  lemma NoneStands(c: Bytes, at: nat)
    requires StandFrom(c, at, [])
    ensures at == |c|
  {
  }

  lemma NextStands(c: Bytes, at: nat, rs: seq<Record>, next: nat)
    requires StandFrom(c, at, rs) && rs != [] && next == at + |WriteRecord(rs[0])|
    ensures StandFrom(c, next, rs[1..])
  {
    FirstStands(c, at, rs);
  }

  /** Behind the first of the records, read where it stands, stand the others. */
  lemma ReadAndNext(read: Reader, c: Bytes, at: nat, rs: seq<Record>) returns (next: nat)
    requires StandFrom(c, at, rs) && rs != [] && read(at) == Ok(Found(EntryOf(rs[0]), at + |WriteRecord(rs[0])|))
    ensures read(at) == Ok(Found(EntryOf(rs[0]), next)) && StandFrom(c, next, rs[1..])
  {
    next := at + |WriteRecord(rs[0])|;
    NextStands(c, at, rs, next);
  }

  lemma PlaceIsFound(c: Bytes, at: nat, rs: seq<Record>)
    requires StandFrom(c, at, rs)
    ensures FirstFound(ReaderOf(c), |c|, at, rs, (p: nat, q: seq<Record>) => StandFrom(c, p, q), EntriesOf)
  {
    var next := at;
    if rs == [] {
      NoneStands(c, at);
    } else {
      FirstIsRead(c, at, rs);
      next := ReadAndNext(ReaderOf(c), c, at, rs);
    }
    FirstIsFound(ReaderOf(c), c, at, rs, next);
  }

  lemma RecordsTile(c: Bytes, at: nat, rs: seq<Record>)
    requires StandFrom(c, at, rs)
    ensures Tiles(ReaderOf(c), |c|, at, EntriesOf(rs))
  {
    var stand := (p: nat, q: seq<Record>) => StandFrom(c, p, q);
    forall p: nat, q: seq<Record> | stand(p, q)
      ensures FirstFound(ReaderOf(c), |c|, p, q, stand, EntriesOf)
    {
      PlaceIsFound(c, p, q);
    }
    FoundInTurn(ReaderOf(c), |c|, at, rs, stand, EntriesOf);
  }

  lemma EndReadBack(b: Bytes, at: nat, count: nat, size: nat, offset: nat)
    requires count < 65536 && size < 0x1_0000_0000 && offset < 0x1_0000_0000
    requires Holds(b, at, WriteEnd(count, size, offset))
    ensures Signed(b, at, EOCD_SIGNATURE) && ReadEnd(b, at) == EndRecord(count, size, offset)
  {
    var p1 := EOCD_SIGNATURE;
    var p2 := p1 + Le16(0);
    var p3 := p2 + Le16(0);
    var p4 := p3 + Le16(count);
    var p5 := p4 + Le16(count);
    var p6 := p5 + Le32(size);
    HoldsParts(b, at, p6 + Le32(offset), Le16(0));
    HoldsParts(b, at, p6, Le32(offset));
    HoldsParts(b, at, p5, Le32(size));
    HoldsParts(b, at, p4, Le16(count));
    HoldsParts(b, at, p3, Le16(count));
    HoldsParts(b, at, p2, Le16(0));
    HoldsParts(b, at, p1, Le16(0));
    HoldsSignature(b, at, EOCD_SIGNATURE);
    HoldsU16(b, at + 10, count);
    HoldsU32(b, at + 12, size);
    HoldsU32(b, at + 16, offset);
  }

  /** The end record of a file without a comment is the first place looked at. */
  lemma EndIsFound(file: Bytes, eocd: nat, count: nat, size: nat, offset: nat)
    requires count < 65536 && size < 0x1_0000_0000 && offset < 0x1_0000_0000
    requires |file| == eocd + EOCD_BYTES && Holds(file, eocd, WriteEnd(count, size, offset))
    ensures EndOf(file) == Some(eocd) && ReadEnd(file, eocd) == EndRecord(count, size, offset)
  {
    EndReadBack(file, eocd, count, size, offset);
  }

  lemma ThreeParts(a: Bytes, b: Bytes, c: Bytes)
    ensures var f := a + b + c; f[|a|..|a| + |b|] == b && Holds(f, |a| + |b|, c)
  {
  }

  lemma WholeTiles(rs: seq<Record>)
    requires AllWritable(rs)
    ensures Tiles(ReaderOf(WriteRecords(rs)), |WriteRecords(rs)|, 0, EntriesOf(rs))
  {
    var c := WriteRecords(rs);
    assert c[0..0 + |c|] == c;
    RecordsTile(c, 0, rs);
  }

  lemma ReadsAround(reader: Bytes -> Reader, file: Bytes, data: Bytes, central: Bytes, count: nat)
    requires count <= MAX_EXTRACT_ENTRIES && |central| <= MAX_CENTRAL_BYTES && |data| < 0xffff_ffff
    requires file == data + central + WriteEnd(count, |central|, |data|)
    ensures ReadWith(reader, file) == Closed(ReadRecords(reader(central), 0, count, []), EndRecord(count, |central|, |data|), |data| + |central|)
  {
    var eocd := |data| + |central|;
    ThreeParts(data, central, WriteEnd(count, |central|, |data|));
    EndIsFound(file, eocd, count, |central|, |data|);
  }

  /** Every entry list within the limits, whatever extra fields and comments its records have, is read back. */
  lemma ReadsWhatIsWritten(data: Bytes, rs: seq<Record>)
    requires FitsLimits(data, rs)
    ensures ReadZip(WriteZip(data, rs)) == Ok(EntriesOf(rs))
  {
    WholeTiles(rs);
    CentralReads(WriteRecords(rs), EndRecord(|rs|, |WriteRecords(rs)|, |data|), EntriesOf(rs));
    ReadsAround(ReaderOf, WriteZip(data, rs), data, WriteRecords(rs), |rs|);
  }

  // ---- What an entry says, byte by byte ----

  /** The file type of a symbolic link in the upper half of the external attributes. */
  const S_IFLNK: nat := 0xA000
  const FILE_TYPES_APART: nat := 0x1000

  /** The name with each backslash replaced by a slash. */
  predicate WithSlashes(path: Bytes, name: Bytes) {
    |path| == |name| && forall j :: 0 <= j < |name| ==> path[j] == if name[j] == 92 then 47 else name[j]
  }

  predicate Says(e: Entry, r: Record) {
    && WithSlashes(e.name, r.name) && e.size == r.size
    && (e.isDir <==> r.name != [] && r.name[|r.name| - 1] in {47, 92})
    && (e.isSymlink <==> S_IFLNK <= r.external / 65536 < S_IFLNK + FILE_TYPES_APART)
    && (e.encrypted <==> r.flags % 2 == 1)
  }

  lemma EntrySays(r: Record)
    requires Writable(r)
    ensures Says(EntryOf(r), r)
  {
  }

  lemma {:induction false} EntryAt(rs: seq<Record>, i: nat)
    requires i < |rs|
    ensures EntriesOf(rs)[i] == EntryOf(rs[i])
  {
    FirstEntry(rs);
    if i > 0 {
      EntryAt(rs[1..], i - 1);
    }
  }

  /** A written zip is read as one entry for each record, and each says what was written. */
  lemma ReadEntriesSay(data: Bytes, rs: seq<Record>, i: nat)
    requires FitsLimits(data, rs) && i < |rs|
    ensures var read := ReadZip(WriteZip(data, rs));
      read.Ok? && |read.value| == |rs| && Says(read.value[i], rs[i])
  {
    ReadsWhatIsWritten(data, rs);
    EntryAt(rs, i);
    EntrySays(rs[i]);
  }

  /** In any file at all, whatever a record is read as stands in its bytes. */
  lemma RecordSaysItsBytes(c: Bytes, at: nat)
    requires ReadRecord(c, at).Ok?
    ensures at + 46 + U16(c, at + 28) <= |c|
    ensures var e := ReadRecord(c, at).value;
      && WithSlashes(e.name, c[at + 46..at + 46 + U16(c, at + 28)]) && e.size == U32(c, at + 24) != 0xffff_ffff
      && (e.isSymlink <==> c[at + 41] / 16 == 10) && (e.encrypted <==> c[at + 8] % 2 == 1)
  {
    TopNibble(c, at + 38);
    LowBit(c, at + 8);
  }

  lemma TopNibble(c: Bytes, at: nat)
    requires at + 4 <= |c|
    ensures U32(c, at) / 0x1000_0000 % 16 == c[at + 3] / 16
  {
    var top: int, rest: int := c[at + 3], U16(c, at) + c[at + 2] as int * 65536;
    assert U32(c, at) == rest + top * 0x100_0000;
    assert top == top / 16 * 16 + top % 16;
  }

  lemma LowBit(c: Bytes, at: nat)
    requires at + 2 <= |c|
    ensures U16(c, at) % 2 == c[at] % 2
  {
    assert U16(c, at) == c[at] as int + 2 * (c[at + 1] as int * 128);
  }

  // ---- The reader's loops ----

  method FindsSecondName(extra: Bytes, name: Bytes) returns (differs: bool)
    ensures differs == UnicodePathDiffers(extra, name, 0)
  {
    var at := 0;
    while at + 4 <= |extra|
      invariant UnicodePathDiffers(extra, name, 0) == UnicodePathDiffers(extra, name, at)
      decreases |extra| - at
    {
      if NamesAnother(extra, name, at) {
        return true;
      }
      at := at + 4 + U16(extra, at + 2);
    }
    return false;
  }

  /** The search runs backwards over the last bytes of the file and stops at the first signature it meets. */
  method SearchEnd(file: Bytes) returns (eocd: Option<nat>)
    ensures eocd == EndOf(file)
  {
    var low := |file| - TailLength(|file|);
    var at := |file| - EOCD_BYTES;
    while at >= low
      invariant at + EOCD_BYTES <= |file|
      invariant FindEnd(file, |file| - EOCD_BYTES, low) == FindEnd(file, at, low)
      decreases at + 1
    {
      if Signed(file, at, EOCD_SIGNATURE) {
        return Some(at);
      }
      at := at - 1;
    }
    return None;
  }

  /** The loop over the records the end record counts. */
  method ReadAll(read: Reader, count: nat) returns (r: Result<Records>)
    ensures r == ReadRecords(read, 0, count, [])
  {
    var entries: seq<Entry> := [];
    var at: nat := 0;
    for index := 0 to count
      invariant ReadRecords(read, 0, count, []) == ReadRecords(read, at, count - index, entries)
    {
      var one := read(at);
      if one.Err? {
        return Err(one.error);
      }
      entries := entries + [one.value.entry];
      at := one.value.next;
    }
    r := Ok(Records(entries, at));
  }

  method ReadCentral(reader: Bytes -> Reader, file: Bytes, d: EndRecord, eocd: nat) returns (r: Result<seq<Entry>>)
    ensures r == ReadDirectory(reader, file, d, eocd)
  {
    var refused := Refused(d, |file|);
    if refused.Some? {
      return Err(refused.value);
    }
    var read := ReadAll(reader(file[d.offset..d.offset + d.size]), d.count);
    r := Closed(read, d, eocd);
  }

  method ReadZipEntries(file: Bytes) returns (r: Result<seq<Entry>>)
    ensures r == ReadZip(file)
  {
    var eocd := SearchEnd(file);
    if eocd.None? {
      return Err(NotAZip);
    }
    r := ReadCentral(ReaderOf, file, ReadEnd(file, eocd.value), eocd.value);
  }
}
