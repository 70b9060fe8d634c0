/**
 The crash-safe write-ahead log on files.  `meta` holds term and vote and is replaced atomically;
 `wal` is a record log, appended to in normal operation and replaced atomically by a snapshot.
 */
module FileWal {
  import opened ByteStrings
  import opened Records
  import opened MemFileSystem
  import opened RaftTypes
  import opened RaftNode
  import opened WalModel

  datatype Meta = Meta(term: nat, vote: Option<NodeId>)
  datatype Header = Header(index: nat, sentinelTerm: nat, snapshot: ServiceState)

  /** The serialisation the files use; only that decoding inverts encoding is known of it. */
  datatype Codec = Codec(
    crc: Checksum,
    putMeta: Meta -> Bytes, getMeta: Bytes -> Meta,
    putHeader: Header -> Bytes, getHeader: Bytes -> Header,
    putEntry: Entry -> Bytes, getEntry: Bytes -> Entry,
    putCut: nat -> Bytes, getCut: Bytes -> nat)

  ghost predicate Lawful(c: Codec) {
    && (forall m :: c.getMeta(c.putMeta(m)) == m && c.putMeta(m) != [])
    && (forall h :: c.getHeader(c.putHeader(h)) == h)
    && (forall e :: c.getEntry(c.putEntry(e)) == e)
    && (forall k :: c.getCut(c.putCut(k)) == k)
  }

  const HEADER_TAG: byte := 1
  const ENTRY_TAG: byte := 2
  const CUT_TAG: byte := 3

  function HeaderRecord(c: Codec, h: Header): Bytes {
    [HEADER_TAG] + c.putHeader(h)
  }

  function EntryRecord(c: Codec, e: Entry): Bytes {
    [ENTRY_TAG] + c.putEntry(e)
  }

  function CutRecord(c: Codec, k: nat): Bytes {
    [CUT_TAG] + c.putCut(k)
  }

  // ----- What the records mean -------------------------------------------------------------

  /** Record p can follow a log that starts at base and has come out as logs. */
  predicate Sound(c: Codec, base: nat, logs: Log, p: Bytes) {
    && p != []
    && (p[0] == ENTRY_TAG || p[0] == CUT_TAG)
    && (p[0] == CUT_TAG ==> base <= c.getCut(p[1..]) <= base + |logs|)
  }

  function Taken(c: Codec, base: nat, logs: Log, p: Bytes): Log
    requires Sound(c, base, logs, p)
  {
    if p[0] == ENTRY_TAG then logs + [c.getEntry(p[1..])] else logs[..c.getCut(p[1..]) - base]
  }

  /** The records after the header, read in order, never step outside the log. */
  predicate AllSound(c: Codec, base: nat, sentinel: Entry, recs: seq<Bytes>)
    decreases |recs|, 1
  {
    recs == [] ||
    (AllSound(c, base, sentinel, recs[..|recs| - 1]) &&
     Sound(c, base, LogOf(c, base, sentinel, recs[..|recs| - 1]), recs[|recs| - 1]))
  }

  function LogOf(c: Codec, base: nat, sentinel: Entry, recs: seq<Bytes>): Log
    requires AllSound(c, base, sentinel, recs)
    decreases |recs|, 2
  {
    if recs == [] then [sentinel]
    else Taken(c, base, LogOf(c, base, sentinel, recs[..|recs| - 1]), recs[|recs| - 1])
  }

  predicate HasHeader(recs: seq<Bytes>) {
    recs != [] && recs[0] != [] && recs[0][0] == HEADER_TAG
  }

  function HeaderOf(c: Codec, recs: seq<Bytes>): Header {
    if HasHeader(recs) then c.getHeader(recs[0][1..]) else Header(0, 0, [])
  }

  function Body(recs: seq<Bytes>): seq<Bytes> {
    if HasHeader(recs) then recs[1..] else recs
  }

  /** The record log is one that this code can have written. */
  predicate Readable(c: Codec, recs: seq<Bytes>) {
    var h := HeaderOf(c, recs);
    AllSound(c, h.index, Entry([], h.sentinelTerm), Body(recs))
  }

  function MetaOf(c: Codec, meta: Bytes): Meta {
    if meta == [] then Meta(0, None) else c.getMeta(meta)
  }

  /** The state a restart reads from the two files. */
  function Recovered(c: Codec, meta: Bytes, recs: seq<Bytes>): Durable
    requires Readable(c, recs)
  {
    var h := HeaderOf(c, recs);
    var m := MetaOf(c, meta);
    Durable(m.term, m.vote, LogOf(c, h.index, Entry([], h.sentinelTerm), Body(recs)), h.index, h.snapshot)
  }

  // ----- Growing the record log ------------------------------------------------------------

  /** Appending a record that fits adds exactly its own effect. */
  lemma RecordAdded(c: Codec, meta: Bytes, recs: seq<Bytes>, p: Bytes)
    requires Readable(c, recs) && (recs == [] ==> !HasHeader([p]))
    requires var d := Recovered(c, meta, recs); Sound(c, d.snapshotIndex, d.logs, p)
    ensures Readable(c, recs + [p])
    ensures var d := Recovered(c, meta, recs);
            Recovered(c, meta, recs + [p]) == d.(logs := Taken(c, d.snapshotIndex, d.logs, p))
  {
    var h := HeaderOf(c, recs);
    assert HasHeader(recs + [p]) == HasHeader(recs);
    assert HeaderOf(c, recs + [p]) == h;
    assert Body(recs + [p]) == Body(recs) + [p];
    var body := Body(recs) + [p];
    assert body[..|body| - 1] == Body(recs);
  }

  lemma EntryAdded(c: Codec, meta: Bytes, recs: seq<Bytes>, e: Entry)
    requires Lawful(c) && Readable(c, recs)
    ensures Readable(c, recs + [EntryRecord(c, e)])
    ensures var d := Recovered(c, meta, recs);
            Recovered(c, meta, recs + [EntryRecord(c, e)]) == d.(logs := d.logs + [e])
  {
    var p := EntryRecord(c, e);
    assert p[1..] == c.putEntry(e);
    RecordAdded(c, meta, recs, p);
  }

  lemma CutAdded(c: Codec, meta: Bytes, recs: seq<Bytes>, k: nat)
    requires Lawful(c) && Readable(c, recs)
    requires var d := Recovered(c, meta, recs); d.snapshotIndex <= k <= d.snapshotIndex + |d.logs|
    ensures Readable(c, recs + [CutRecord(c, k)])
    ensures var d := Recovered(c, meta, recs);
            Recovered(c, meta, recs + [CutRecord(c, k)]) == d.(logs := d.logs[..k - d.snapshotIndex])
  {
    var p := CutRecord(c, k);
    assert p[1..] == c.putCut(k);
    RecordAdded(c, meta, recs, p);
  }

  function EntryRecords(c: Codec, es: seq<Entry>): (recs: seq<Bytes>)
    ensures |recs| == |es|
  {
    if es == [] then [] else EntryRecords(c, es[..|es| - 1]) + [EntryRecord(c, es[|es| - 1])]
  }

  lemma {:induction false} EntriesAdded(c: Codec, meta: Bytes, recs: seq<Bytes>, es: seq<Entry>)
    requires Lawful(c) && Readable(c, recs)
    ensures Readable(c, recs + EntryRecords(c, es))
    ensures var d := Recovered(c, meta, recs);
            Recovered(c, meta, recs + EntryRecords(c, es)) == d.(logs := d.logs + es)
    decreases |es|
  {
    hide Recovered, Readable, EntryRecord, Lawful;
    var d := Recovered(c, meta, recs);
    if es == [] {
      assert recs + EntryRecords(c, es) == recs;
      assert d.logs + es == d.logs;
    } else {
      var z := |es| - 1;
      var before := recs + EntryRecords(c, es[..z]);
      EntriesAdded(c, meta, recs, es[..z]);
      EntryAdded(c, meta, before, es[z]);
      assert recs + EntryRecords(c, es) == before + [EntryRecord(c, es[z])];
      assert d.logs + es[..z] + [es[z]] == d.logs + es;
    }
  }

  /** A rewritten log holds the snapshot and the entries after it. */
  lemma SnapshotWritten(c: Codec, meta: Bytes, h: Header, suffix: seq<Entry>)
    requires Lawful(c)
    ensures var recs := [HeaderRecord(c, h)] + EntryRecords(c, suffix);
            && Readable(c, recs)
            && var d := Recovered(c, meta, recs);
               d.logs == [Entry([], h.sentinelTerm)] + suffix && d.snapshotIndex == h.index && d.snapshot == h.snapshot
  {
    var start := [HeaderRecord(c, h)];
    assert start[0][1..] == c.putHeader(h);
    assert Body(start) == [];
    EntriesAdded(c, meta, start, suffix);
  }

  // ----- The two files ---------------------------------------------------------------------

  function MetaPath(dir: string): string {
    dir + "/meta"
  }

  function WalPath(dir: string): string {
    dir + "/wal"
  }

  function DiskRecords(c: Codec, files: map<string, Bytes>, dir: string): seq<Bytes> {
    Parse(c.crc, ContentOf(files, WalPath(dir)))
  }

  predicate GoodDisk(c: Codec, files: map<string, Bytes>, dir: string) {
    Readable(c, DiskRecords(c, files, dir))
  }

  /** What opening the log and loading it would return. */
  function DiskState(c: Codec, files: map<string, Bytes>, dir: string): Durable
    requires GoodDisk(c, files, dir)
  {
    Recovered(c, ContentOf(files, MetaPath(dir)), DiskRecords(c, files, dir))
  }

  /** No torn tail: the file is exactly its records. */
  predicate Clean(c: Codec, files: map<string, Bytes>, dir: string) {
    ContentOf(files, WalPath(dir)) == Encode(c.crc, DiskRecords(c, files, dir))
  }

  /** Only the record log differs between the two disks, apart from temporary files. */
  predicate WalMoved(files: map<string, Bytes>, files': map<string, Bytes>, dir: string, content: Bytes) {
    && ContentOf(files', WalPath(dir)) == content
    && ContentOf(files', MetaPath(dir)) == ContentOf(files, MetaPath(dir))
  }

  lemma RecordOnDisk(c: Codec, files: map<string, Bytes>, files': map<string, Bytes>, dir: string, p: Bytes)
    requires Clean(c, files, dir) && Fits(p)
    requires WalMoved(files, files', dir, ContentOf(files, WalPath(dir)) + Frame(c.crc, p))
    ensures DiskRecords(c, files', dir) == DiskRecords(c, files, dir) + [p] && Clean(c, files', dir)
  {
    var recs := DiskRecords(c, files, dir);
    ParsedIsPrefix(c.crc, ContentOf(files, WalPath(dir)));
    EncodeAppend(c.crc, recs, p);
    ParseClean(c.crc, recs + [p]);
  }

  lemma TornOnDisk(c: Codec, files: map<string, Bytes>, files': map<string, Bytes>, dir: string, p: Bytes, torn: Bytes)
    requires Clean(c, files, dir) && Fits(p) && torn < Frame(c.crc, p)
    requires WalMoved(files, files', dir, ContentOf(files, WalPath(dir)) + torn)
    ensures DiskRecords(c, files', dir) == DiskRecords(c, files, dir)
  {
    ParsedIsPrefix(c.crc, ContentOf(files, WalPath(dir)));
    TornTail(c.crc, DiskRecords(c, files, dir), p, torn);
  }

  // ----- The objects -----------------------------------------------------------------------

  /** A file positioned at its end, to which records are appended. */
  class RecordLog {
    const f: MemFile

    constructor (f: MemFile)
      ensures this.f == f
    {
      this.f := f;
    }

    /** Write one record; a crash leaves a strict prefix of it behind. */
    method Append(crc: Checksum, payload: Bytes) returns (ok: bool)
      requires !f.fs.crashed && f.off == |f.fs.Content(f.name)|
      modifies f, f.fs
      ensures f.fs.crashed == !ok && (old(f.fs.Calm()) ==> ok && f.fs.Calm())
      ensures ok ==> f.off == |f.fs.Content(f.name)|
      ensures ok ==> f.fs.files == old(f.fs.files)[f.name := old(f.fs.Content(f.name)) + Frame(crc, payload)]
      ensures !ok ==> exists torn :: torn < Frame(crc, payload) &&
                        f.fs.files == old(f.fs.files)[f.name := old(f.fs.Content(f.name)) + torn]
    {
      var rec := PutWord(|payload| % WORD_LIMIT) + PutWord(crc(payload)) + payload;
      ok := f.Write(rec);
      if !ok {
        ghost var k: nat :| k < |rec| && f.fs.files == old(f.fs.files)[f.name := WriteAt(old(f.fs.Content(f.name)), old(f.off), rec[..k])];
        assert rec[..k] < Frame(crc, payload);
      }
    }
  }

  /** Read the log back, cut off a torn tail, and position a handle at the end. */
  method OpenRecordLog(fs: MemFs, name: string, crc: Checksum) returns (rl: RecordLog, records: seq<Bytes>)
    requires !fs.crashed
    modifies fs
    ensures !fs.crashed && fresh(rl) && fresh(rl.f) && rl.f.fs == fs && rl.f.name == name
    ensures records == Parse(crc, ContentOf(old(fs.files), name)) && fs.Content(name) == Encode(crc, records)
    ensures rl.f.off == |fs.Content(name)|
    ensures forall m :: m != name ==> fs.Content(m) == ContentOf(old(fs.files), m)
  {
    var read, data := fs.ReadFile(name);
    var validLen;
    records, validLen := ReplayRecords(crc, data);
    if validLen != |data| {
      var cut := fs.Truncate(name, validLen);
      assert fs.Content(name) == data[..validLen];
    } else {
      assert data[..validLen] == data;
    }
    var done, f := fs.OpenAppend(name);
    rl := new RecordLog(f);
  }

  /** The payload bytes counted against the size limit: everything but the header. */
  function LogBytes(recs: seq<Bytes>): nat {
    if recs == [] then 0
    else LogBytes(recs[..|recs| - 1]) + (var p := recs[|recs| - 1]; if p != [] && p[0] != HEADER_TAG then |p| else 0)
  }

  lemma LogBytesGrow(recs: seq<Bytes>, p: Bytes)
    requires p != [] && p[0] != HEADER_TAG
    ensures LogBytes(recs + [p]) == LogBytes(recs) + |p|
  {
    assert (recs + [p])[..|recs|] == recs;
  }

  /** Every record the operation would write is below the length a frame can state. */
  predicate Storable(c: Codec, op: WalOp) {
    match op
    case SaveMeta(term, vote) => true
    case AppendLog(entries) => forall e :: e in entries ==> Fits(EntryRecord(c, e))
    case TruncateSuffix(from) => Fits(CutRecord(c, from))
    case SaveSnapshot(index, sentinelTerm, snapshot, suffix) =>
      Fits(HeaderRecord(c, Header(index, sentinelTerm, snapshot))) && forall e :: e in suffix ==> Fits(EntryRecord(c, e))
  }

  class FileWAL {
    const fs: MemFs
    const dir: string
    const codec: Codec
    var rl: RecordLog

    /** The records as they were when the log was opened, for the one load that follows. */
    var records: seq<Bytes>
    var logBytes: nat

    constructor Open(fs: MemFs, dir: string, codec: Codec)
      requires !fs.crashed && Lawful(codec) && GoodDisk(codec, fs.files, dir)
      modifies fs
      ensures this.fs == fs && this.dir == dir && this.codec == codec
      ensures Valid() && fresh(rl) && fresh(rl.f)
      ensures records == DiskRecords(codec, fs.files, dir) && logBytes == LogBytes(records)
      ensures DiskState(codec, fs.files, dir) == DiskState(codec, old(fs.files), dir)
    {
      hide Readable, Lawful;
      ghost var before := fs.files;
      var log, recs := OpenRecordLog(fs, WalPath(dir), codec.crc);
      var total := 0;
      for i := 0 to |recs|
        invariant total == LogBytes(recs[..i])
      {
        assert recs[..i + 1][..i] == recs[..i];
        if |recs[i]| > 0 && recs[i][0] != HEADER_TAG {
          total := total + |recs[i]|;
        }
      }
      assert recs[..|recs|] == recs;
      this.fs, this.dir, this.codec := fs, dir, codec;
      rl, records, logBytes := log, recs, total;
      PathsDiffer(dir);
      HealedIsFixed(codec.crc, ContentOf(before, WalPath(dir)));
    }

    ghost predicate Valid()
      reads this, fs, rl.f
    {
      && Lawful(codec)
      && !fs.crashed
      && Clean(codec, fs.files, dir)
      && GoodDisk(codec, fs.files, dir)
      && rl.f.fs == fs && rl.f.name == WalPath(dir) && rl.f.off == |fs.Content(WalPath(dir))|
      && logBytes == LogBytes(DiskRecords(codec, fs.files, dir))
    }

    /** Append one record and keep the books. */
    method Log(p: Bytes) returns (ok: bool)
      requires Valid() && Fits(p)
      requires Readable(codec, DiskRecords(codec, fs.files, dir) + [p]) && p != [] && p[0] != HEADER_TAG
      modifies this`logBytes, fs, rl.f
      ensures fs.crashed == !ok && (old(fs.Calm()) ==> ok && fs.Calm()) && GoodDisk(codec, fs.files, dir)
      ensures ok ==> Valid() && DiskRecords(codec, fs.files, dir) == DiskRecords(codec, old(fs.files), dir) + [p]
      ensures !ok ==> DiskRecords(codec, fs.files, dir) == DiskRecords(codec, old(fs.files), dir)
      ensures fs.Content(MetaPath(dir)) == ContentOf(old(fs.files), MetaPath(dir))
    {
      hide Readable, LogBytes, Lawful, Clean, Fits;
      ghost var before := fs.files;
      PathsDiffer(dir);
      ok := rl.Append(codec.crc, p);
      if ok {
        RecordOnDisk(codec, before, fs.files, dir, p);
        LogBytesGrow(DiskRecords(codec, before, dir), p);
        logBytes := logBytes + |p|;
      } else {
        ghost var torn :| torn < Frame(codec.crc, p) && fs.files == before[WalPath(dir) := ContentOf(before, WalPath(dir)) + torn];
        TornOnDisk(codec, before, fs.files, dir, p, torn);
      }
    }

    /** Replace term and vote; atomic even against a crash. */
    method SaveMeta(term: nat, vote: Option<NodeId>) returns (ok: bool)
      requires Valid()
      modifies fs
      ensures fs.crashed == !ok && (old(fs.Calm()) ==> ok && fs.Calm()) && GoodDisk(codec, fs.files, dir)
      ensures ok ==> Valid()
      ensures var was, d := DiskState(codec, old(fs.files), dir), DiskState(codec, fs.files, dir);
              d == was.(term := term, vote := vote) || (!ok && d == was)
    {
      PathsDiffer(dir);
      ok := AtomicWrite(fs, MetaPath(dir), codec.putMeta(Meta(term, vote)));
    }

    method AppendOne(e: Entry) returns (ok: bool)
      requires Valid() && Fits(EntryRecord(codec, e))
      modifies this`logBytes, fs, rl.f
      ensures fs.crashed == !ok && (old(fs.Calm()) ==> ok && fs.Calm()) && GoodDisk(codec, fs.files, dir)
      ensures ok ==> Valid()
      ensures var was, d := DiskState(codec, old(fs.files), dir), DiskState(codec, fs.files, dir);
              d == if ok then was.(logs := was.logs + [e]) else was
    {
      EntryAdded(codec, fs.Content(MetaPath(dir)), DiskRecords(codec, fs.files, dir), e);
      ok := Log(EntryRecord(codec, e));
    }

    /** Append the entries one record each; a crash lets a prefix of them through. */
    method AppendLog(entries: seq<Entry>) returns (ok: bool, ghost through: nat)
      requires Valid() && forall e :: e in entries ==> Fits(EntryRecord(codec, e))
      modifies this`logBytes, fs, rl.f
      ensures fs.crashed == !ok && (old(fs.Calm()) ==> ok && fs.Calm()) && GoodDisk(codec, fs.files, dir)
      ensures ok ==> Valid() && through == |entries|
      ensures through <= |entries|
      ensures var was := DiskState(codec, old(fs.files), dir);
              DiskState(codec, fs.files, dir) == was.(logs := was.logs + entries[..through])
    {
      hide Clean, Lawful, GoodDisk, DiskState, Fits, EntryRecord;
      ghost var was := DiskState(codec, fs.files, dir);
      ok, through := true, 0;
      assert was.logs + entries[..0] == was.logs;
      for i := 0 to |entries|
        invariant ok && Valid() && through == i && (old(fs.Calm()) ==> fs.Calm())
        invariant DiskState(codec, fs.files, dir) == was.(logs := was.logs + entries[..i])
      {
        assert was.logs + entries[..i] + [entries[i]] == was.logs + entries[..i + 1];
        ok := AppendOne(entries[i]);
        if !ok {
          return;
        }
        through := i + 1;
      }
    }

    /** Record a truncation; nothing written before is touched. */
    method TruncateSuffix(from: nat) returns (ok: bool)
      requires Valid() && Fits(CutRecord(codec, from)) && Applicable(DiskState(codec, fs.files, dir), WalOp.TruncateSuffix(from))
      modifies this`logBytes, fs, rl.f
      ensures fs.crashed == !ok && (old(fs.Calm()) ==> ok && fs.Calm()) && GoodDisk(codec, fs.files, dir)
      ensures ok ==> Valid()
      ensures var was, d := DiskState(codec, old(fs.files), dir), DiskState(codec, fs.files, dir);
              d == if ok then was.(logs := was.logs[..from - was.snapshotIndex]) else was
    {
      hide Readable, LogBytes, Lawful, Clean, Fits, Recovered;
      CutAdded(codec, fs.Content(MetaPath(dir)), DiskRecords(codec, fs.files, dir), from);
      ok := Log(CutRecord(codec, from));
    }

    /** The bytes of a fresh log holding a snapshot and the entries after it. */
    method Compose(h: Header, suffix: seq<Entry>) returns (content: Bytes, suffixBytes: nat)
      ensures var recs := [HeaderRecord(codec, h)] + EntryRecords(codec, suffix);
              content == Encode(codec.crc, recs) && suffixBytes == LogBytes(recs)
    {
      var crc := codec.crc;
      EncodeAppend(crc, [], HeaderRecord(codec, h));
      assert [] + [HeaderRecord(codec, h)] == [HeaderRecord(codec, h)];
      content, suffixBytes := Frame(crc, HeaderRecord(codec, h)), 0;
      for i := 0 to |suffix|
        invariant content == Encode(crc, [HeaderRecord(codec, h)] + EntryRecords(codec, suffix[..i]))
        invariant suffixBytes == LogBytes([HeaderRecord(codec, h)] + EntryRecords(codec, suffix[..i]))
      {
        var p := EntryRecord(codec, suffix[i]);
        EncodeAppend(crc, [HeaderRecord(codec, h)] + EntryRecords(codec, suffix[..i]), p);
        assert suffix[..i + 1][..i] == suffix[..i];
        assert [HeaderRecord(codec, h)] + EntryRecords(codec, suffix[..i + 1]) ==
               [HeaderRecord(codec, h)] + EntryRecords(codec, suffix[..i]) + [p];
        LogBytesGrow([HeaderRecord(codec, h)] + EntryRecords(codec, suffix[..i]), p);
        content := content + Frame(crc, p);
        suffixBytes := suffixBytes + |p|;
      }
      assert suffix[..|suffix|] == suffix;
    }

    /** Replace the whole log by a snapshot and a suffix in one atomic step, and move the handle to its end. */
    method SaveSnapshot(index: nat, sentinelTerm: nat, snapshot: ServiceState, suffix: seq<Entry>) returns (ok: bool)
      requires Valid() && Fits(HeaderRecord(codec, Header(index, sentinelTerm, snapshot)))
      requires forall e :: e in suffix ==> Fits(EntryRecord(codec, e))
      modifies this`logBytes, this`rl, fs
      ensures fs.crashed == !ok && (old(fs.Calm()) ==> ok && fs.Calm()) && GoodDisk(codec, fs.files, dir)
      ensures ok ==> Valid() && fresh(rl) && fresh(rl.f)
      ensures !ok ==> rl == old(rl)
      ensures var was, d := DiskState(codec, old(fs.files), dir), DiskState(codec, fs.files, dir);
              || d == was.(logs := [Entry([], sentinelTerm)] + suffix, snapshotIndex := index, snapshot := snapshot)
              || (!ok && d == was)
    {
      hide Readable, LogBytes, Lawful, Fits, EntryRecords, HeaderRecord, EntryRecord;
      ghost var before := fs.files;
      var h := Header(index, sentinelTerm, snapshot);
      var content, suffixBytes := Compose(h, suffix);
      ghost var recs := [HeaderRecord(codec, h)] + EntryRecords(codec, suffix);
      PathsDiffer(dir);
      RecordsFit(codec, h, suffix);
      ParseClean(codec.crc, recs);
      SnapshotWritten(codec, fs.Content(MetaPath(dir)), h, suffix);
      ok := AtomicWrite(fs, WalPath(dir), content);
      if !ok {
        return;
      }
      logBytes := suffixBytes;
      var done, f := fs.OpenAppend(WalPath(dir));
      rl := new RecordLog(f);
    }

    /** Any one operation: it takes effect wholly, or the crash has let a conceivable part of it through. */
    method Perform(op: WalOp) returns (ok: bool, ghost effect: Effect)
      requires Valid() && Storable(codec, op) && Applicable(DiskState(codec, fs.files, dir), op)
      modifies this`logBytes, this`rl, fs, rl.f
      ensures fs.crashed == !ok && (old(fs.Calm()) ==> ok && fs.Calm()) && GoodDisk(codec, fs.files, dir)
      ensures ok ==> Valid() && effect == Whole
      ensures rl == old(rl) || (fresh(rl) && fresh(rl.f))
      ensures Conceivable(op, effect)
      ensures DiskState(codec, fs.files, dir) == Effected(DiskState(codec, old(fs.files), dir), op, effect)
    {
      hide Clean, Lawful, GoodDisk, DiskState, Fits, EntryRecord;
      ghost var was := DiskState(codec, fs.files, dir);
      match op
      case SaveMeta(term, vote) =>
        ok := SaveMeta(term, vote);
        effect := if DiskState(codec, fs.files, dir) == Applied(was, op) then Whole else Absent;
      case AppendLog(entries) =>
        ghost var through;
        ok, through := AppendLog(entries);
        assert entries[..|entries|] == entries;
        effect := if ok then Whole else Part(through);
      case TruncateSuffix(from) =>
        ok := TruncateSuffix(from);
        effect := if ok then Whole else Absent;
      case SaveSnapshot(index, sentinelTerm, snapshot, suffix) =>
        ok := SaveSnapshot(index, sentinelTerm, snapshot, suffix);
        effect := if DiskState(codec, fs.files, dir) == Applied(was, op) then Whole else Absent;
    }

    /** The log bytes since the last snapshot, which is not counted itself. */
    method Size() returns (n: nat)
      requires Valid()
      ensures n == LogBytes(DiskRecords(codec, fs.files, dir))
    {
      n := logBytes;
    }

    /** Read entry and truncation records in order, starting from the sentinel. */
    method Parsed(base: nat, sentinel: Entry, recs: seq<Bytes>) returns (logs: Log)
      requires AllSound(codec, base, sentinel, recs)
      ensures logs == LogOf(codec, base, sentinel, recs)
    {
      logs := [sentinel];
      for i := 0 to |recs|
        invariant AllSound(codec, base, sentinel, recs[..i]) && logs == LogOf(codec, base, sentinel, recs[..i])
      {
        SoundPrefix(codec, base, sentinel, recs, i + 1);
        assert recs[..i + 1][..i] == recs[..i];
        var p := recs[i];
        if p[0] == ENTRY_TAG {
          logs := logs + [codec.getEntry(p[1..])];
        } else {
          logs := logs[..codec.getCut(p[1..]) - base];
        }
      }
      assert recs[..|recs|] == recs;
    }

    /** Rebuild the state from the two files; meant to be called once, right after opening. */
    method Load() returns (st: Durable, found: bool)
      requires Valid() && records == DiskRecords(codec, fs.files, dir)
      ensures st == DiskState(codec, fs.files, dir)
      ensures !found ==> st == BLANK
    {
      hide LogBytes, Lawful, Clean, Parse;
      var read, metaBytes := fs.ReadFile(MetaPath(dir));
      var meta := Meta(0, None);
      if metaBytes != [] {
        meta := codec.getMeta(metaBytes);
      }
      var h := Header(0, 0, []);
      var recs := records;
      if |recs| > 0 && HasHeader(recs) {
        h := codec.getHeader(recs[0][1..]);
        recs := recs[1..];
      }
      var logs := Parsed(h.index, Entry([], h.sentinelTerm), recs);
      st := Durable(meta.term, meta.vote, logs, h.index, h.snapshot);
      found := metaBytes != [] || |records| > 0;
    }
  }

  lemma {:induction false} SoundPrefix(c: Codec, base: nat, sentinel: Entry, recs: seq<Bytes>, i: nat)
    requires AllSound(c, base, sentinel, recs) && i <= |recs|
    ensures AllSound(c, base, sentinel, recs[..i])
    decreases |recs|
  {
    if i < |recs| {
      SoundPrefix(c, base, sentinel, recs[..|recs| - 1], i);
      assert recs[..|recs| - 1][..i] == recs[..i];
    } else {
      assert recs[..i] == recs;
    }
  }

  lemma {:induction false} EntryRecordsFit(c: Codec, es: seq<Entry>)
    requires forall e :: e in es ==> Fits(EntryRecord(c, e))
    ensures AllFit(EntryRecords(c, es))
    decreases |es|
  {
    if es != [] {
      EntryRecordsFit(c, es[..|es| - 1]);
    }
  }

  lemma RecordsFit(c: Codec, h: Header, suffix: seq<Entry>)
    requires Fits(HeaderRecord(c, h)) && forall e :: e in suffix ==> Fits(EntryRecord(c, e))
    ensures AllFit([HeaderRecord(c, h)] + EntryRecords(c, suffix))
  {
    EntryRecordsFit(c, suffix);
  }

  lemma PathsDiffer(dir: string)
    ensures |MetaPath(dir)| == |dir| + 5 && |WalPath(dir)| == |dir| + 4
    ensures |MetaPath(dir) + ".tmp"| == |dir| + 9 && |WalPath(dir) + ".tmp"| == |dir| + 8
  {
  }
}
