/** Framed records: [length][checksum][payload], both words big-endian.  The checksum is any function of the payload. */
module Records {
  import opened ByteStrings

  type Checksum = Bytes -> Word

  const HEADER_SIZE := 8

  function Frame(crc: Checksum, payload: Bytes): (b: Bytes)
    ensures |b| == HEADER_SIZE + |payload|
  {
    PutWord(|payload| % WORD_LIMIT) + PutWord(crc(payload)) + payload
  }

  /** The bytes of a clean log holding recs. */
  function Encode(crc: Checksum, recs: seq<Bytes>): Bytes {
    if recs == [] then [] else Frame(crc, recs[0]) + Encode(crc, recs[1..])
  }

  /** The data starts with a whole record whose checksum is right. */
  predicate Starts(crc: Checksum, data: Bytes) {
    && |data| >= HEADER_SIZE
    && GetWord(data[..4]) <= |data| - HEADER_SIZE
    && crc(First(data)) == GetWord(data[4..8])
  }

  /** The payload of the record the data starts with. */
  function First(data: Bytes): (p: Bytes)
    requires |data| >= HEADER_SIZE && GetWord(data[..4]) <= |data| - HEADER_SIZE
    ensures |p| == GetWord(data[..4]) < WORD_LIMIT
  {
    data[HEADER_SIZE..HEADER_SIZE + GetWord(data[..4])]
  }

  /** The records recovered from data: those before the first torn or damaged one. */
  function Parse(crc: Checksum, data: Bytes): seq<Bytes>
    decreases |data|
  {
    if Starts(crc, data) then [First(data)] + Parse(crc, data[HEADER_SIZE + |First(data)|..]) else []
  }

  /** The length field of the record can hold the payload's length. */
  predicate Fits(payload: Bytes) {
    |payload| < WORD_LIMIT
  }

  predicate AllFit(recs: seq<Bytes>) {
    forall p :: p in recs ==> Fits(p)
  }

  // ----- One record ------------------------------------------------------------------------

  lemma FirstReframed(crc: Checksum, data: Bytes)
    requires Starts(crc, data)
    ensures Frame(crc, First(data)) == data[..HEADER_SIZE + |First(data)|]
  {
    ByteRoundTrip(data[..4]);
    ByteRoundTrip(data[4..8]);
    assert data[..HEADER_SIZE + |First(data)|] == data[..4] + data[4..8] + First(data);
  }

  lemma FramedStarts(crc: Checksum, p: Bytes, rest: Bytes)
    requires Fits(p)
    ensures Starts(crc, Frame(crc, p) + rest) && First(Frame(crc, p) + rest) == p
    ensures (Frame(crc, p) + rest)[HEADER_SIZE + |p|..] == rest
  {
    var data := Frame(crc, p) + rest;
    WordRoundTrip(|p| % WORD_LIMIT);
    WordRoundTrip(crc(p));
    assert data[..4] == PutWord(|p| % WORD_LIMIT) && data[4..8] == PutWord(crc(p));
    assert data[HEADER_SIZE..HEADER_SIZE + |p|] == p;
  }

  /** A record cut short is never taken for a record: its intact length says more than is there. */
  lemma TornIsNothing(crc: Checksum, p: Bytes, torn: Bytes)
    requires Fits(p) && torn < Frame(crc, p)
    ensures Parse(crc, torn) == []
  {
    if |torn| >= HEADER_SIZE {
      WordRoundTrip(|p| % WORD_LIMIT);
      assert torn[..4] == PutWord(|p| % WORD_LIMIT);
    }
  }

  // ----- Whole logs ------------------------------------------------------------------------

  /** Re-encoding what was recovered gives exactly a prefix of the data. */
  lemma {:induction false} ParsedIsPrefix(crc: Checksum, data: Bytes)
    ensures Encode(crc, Parse(crc, data)) <= data && AllFit(Parse(crc, data))
    decreases |data|
  {
    if Starts(crc, data) {
      var n := HEADER_SIZE + |First(data)|;
      FirstReframed(crc, data);
      ParsedIsPrefix(crc, data[n..]);
      assert data == data[..n] + data[n..];
    }
  }

  lemma ParseFramed(crc: Checksum, p: Bytes, rest: Bytes)
    requires Fits(p)
    ensures Parse(crc, Frame(crc, p) + rest) == [p] + Parse(crc, rest)
  {
    hide Frame, Starts, First;
    FramedStarts(crc, p, rest);
  }

  /** Replay inverts encoding, whatever follows. */
  lemma {:induction false} ParseEncoded(crc: Checksum, recs: seq<Bytes>, rest: Bytes)
    requires AllFit(recs)
    ensures Parse(crc, Encode(crc, recs) + rest) == recs + Parse(crc, rest)
    decreases |recs|
  {
    hide Frame, Starts, First, Parse;
    if recs == [] {
      assert Encode(crc, recs) + rest == rest;
    } else {
      var tail := Encode(crc, recs[1..]) + rest;
      assert Encode(crc, recs) + rest == Frame(crc, recs[0]) + tail;
      ParseFramed(crc, recs[0], tail);
      ParseEncoded(crc, recs[1..], rest);
      assert recs == [recs[0]] + recs[1..];
    }
  }

  lemma ParseClean(crc: Checksum, recs: seq<Bytes>)
    requires AllFit(recs)
    ensures Parse(crc, Encode(crc, recs)) == recs
  {
    ParseEncoded(crc, recs, []);
    assert Encode(crc, recs) + [] == Encode(crc, recs);
  }

  /** Healing changes nothing: the valid prefix recovers the same records. */
  lemma HealedIsFixed(crc: Checksum, data: Bytes)
    ensures Parse(crc, Encode(crc, Parse(crc, data))) == Parse(crc, data)
  {
    ParsedIsPrefix(crc, data);
    ParseClean(crc, Parse(crc, data));
  }

  /** A torn append loses only itself. */
  lemma TornTail(crc: Checksum, recs: seq<Bytes>, p: Bytes, torn: Bytes)
    requires AllFit(recs) && Fits(p) && torn < Frame(crc, p)
    ensures Parse(crc, Encode(crc, recs) + torn) == recs
  {
    ParseEncoded(crc, recs, torn);
    TornIsNothing(crc, p, torn);
  }

  lemma {:induction false} EncodeAppend(crc: Checksum, recs: seq<Bytes>, p: Bytes)
    ensures Encode(crc, recs + [p]) == Encode(crc, recs) + Frame(crc, p)
    decreases |recs|
  {
    if recs == [] {
      assert recs + [p] == [p] && [p][1..] == [];
      assert Encode(crc, [p]) == Frame(crc, p) + Encode(crc, []);
    } else {
      assert (recs + [p])[1..] == recs[1..] + [p];
      EncodeAppend(crc, recs[1..], p);
    }
  }

  // ----- The replay loop -------------------------------------------------------------------

  /** The scan has turned the first `off` bytes into records. */
  ghost predicate Scanned(crc: Checksum, data: Bytes, off: nat, records: seq<Bytes>) {
    off <= |data| && data[..off] == Encode(crc, records) && Parse(crc, data) == records + Parse(crc, data[off..])
  }

  lemma ScanOne(crc: Checksum, data: Bytes, off: nat, records: seq<Bytes>)
    requires Scanned(crc, data, off, records) && Starts(crc, data[off..])
    ensures var p := First(data[off..]);
            Scanned(crc, data, off + HEADER_SIZE + |p|, records + [p])
  {
    hide First, GetWord, Frame, Encode;
    var rest := data[off..];
    var p := First(rest);
    var n := HEADER_SIZE + |p|;
    FirstReframed(crc, rest);
    EncodeAppend(crc, records, p);
    assert |Frame(crc, p)| == n;
    assert rest[n..] == data[off + n..];
    assert data[..off] + rest[..n] == data[..off + n];
    assert records + ([p] + Parse(crc, rest[n..])) == (records + [p]) + Parse(crc, rest[n..]);
  }

  /** Scan the data record by record; `validLen` is where a damaged file is to be cut. */
  method ReplayRecords(crc: Checksum, data: Bytes) returns (records: seq<Bytes>, validLen: nat)
    ensures records == Parse(crc, data)
    ensures validLen <= |data| && data[..validLen] == Encode(crc, records)
  {
    hide Encode;
    records, validLen := [], 0;
    var off := 0;
    ScanNone(crc, data);
    while off + HEADER_SIZE <= |data|
      invariant Scanned(crc, data, off, records) && validLen == off
      decreases |data| - off
    {
      var n := GetWord(data[off..off + 4]);
      var sum := GetWord(data[off + 4..off + 8]);
      ghost var rest := data[off..];
      assert rest[..4] == data[off..off + 4] && rest[4..8] == data[off + 4..off + 8];
      if n > |data| - off - HEADER_SIZE {
        break;
      }
      var payload := data[off + HEADER_SIZE..off + HEADER_SIZE + n];
      assert First(rest) == payload;
      if crc(payload) != sum {
        break;
      }
      ScanOne(crc, data, off, records);
      records := records + [payload];
      off := off + HEADER_SIZE + n;
      validLen := off;
    }
  }

  lemma ScanNone(crc: Checksum, data: Bytes)
    ensures Scanned(crc, data, 0, [])
  {
    assert data[0..] == data;
  }
}
