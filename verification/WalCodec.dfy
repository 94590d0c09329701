/** The record format of the write-ahead log: pkg/storage/wal.go and types.go. */
module WalCodec {
  import opened RaftTypes
  import BE = BigEndian

  const LOG_RECORD: byte := 1
  const METADATA_RECORD: byte := 2
  const SNAPSHOT_RECORD: byte := 3

  datatype WalEntry = WalEntry(kind: byte, index: u64, term: u64, timestamp: u64, data: Bytes, checksum: u32)

  /** CRC32 is a parameter: any function of the bytes it is fed. */
  type Crc = Bytes -> u32

  function Checksum(crc: Crc, e: WalEntry): u32 {
    crc([e.kind] + BE.Put(e.index, 8) + BE.Put(e.term, 8) + e.data)
  }

  /** The size fields are uint32: a record of 4 GiB or more does not fit its own header. */
  predicate Fits(e: WalEntry) {
    33 + |e.data| < 0x1_0000_0000
  }

  predicate Sealed(crc: Crc, e: WalEntry) {
    Fits(e) && e.checksum == Checksum(crc, e)
  }

  // ---------------------------------------------------------------- writing

  /** Everything after the size field. */
  function Body(e: WalEntry): (b: Bytes)
    ensures |b| == 33 + |e.data|
  {
    [e.kind] + BE.Put(e.index, 8) + BE.Put(e.term, 8) + BE.Put(e.timestamp, 8) + BE.Put(|e.data|, 4)
    + e.data + BE.Put(e.checksum, 4)
  }

  /** The bytes of a record. */
  function Encode(e: WalEntry): (b: Bytes)
    ensures |b| == 37 + |e.data|
  {
    BE.Put(33 + |e.data|, 4) + Body(e)
  }

  function EncodeAll(es: seq<WalEntry>): Bytes {
    if es == [] then [] else Encode(es[0]) + EncodeAll(es[1..])
  }

  lemma {:induction false} EncodeAllConcat(a: seq<WalEntry>, b: seq<WalEntry>)
    ensures EncodeAll(a + b) == EncodeAll(a) + EncodeAll(b)
  {
    if a == [] {
      assert a + b == b;
    } else {
      assert (a + b)[1..] == a[1..] + b;
      EncodeAllConcat(a[1..], b);
    }
  }

  /** binary.BigEndian.PutUint32 and PutUint64 into a buffer, with everything before offset already filled. */
  method PutAt(buf: array<byte>, offset: nat, v: nat, n: nat) returns (next: nat)
    requires offset + n <= buf.Length
    modifies buf
    ensures next == offset + n && buf[..next] == old(buf[..offset]) + BE.Put(v, n)
  {
    var rest, i := v, n;
    while i > 0
      invariant 0 <= i <= n
      invariant BE.Put(v, n) == BE.Put(rest, i) + buf[offset + i..offset + n]
      invariant buf[..offset] == old(buf[..offset])
    {
      ghost var tail := buf[offset + i..offset + n];
      i := i - 1;
      buf[offset + i] := (rest % 256) as byte;
      rest := rest / 256;
      assert buf[offset + i..offset + n] == [buf[offset + i]] + tail;
    }
    next := offset + n;
    assert buf[..next] == buf[..offset] + buf[offset..next];
  }

  /** The fields before the data: size, record type, numbers and data length. */
  method PutHeader(buf: array<byte>, e: WalEntry) returns (offset: nat)
    requires buf.Length == 37 + |e.data|
    modifies buf
    ensures offset == 33 && buf[..33] + e.data + BE.Put(e.checksum, 4) == Encode(e)
  {
    offset := PutAt(buf, 0, 1 + 8 + 8 + 8 + 4 + |e.data| + 4, 4);
    buf[offset] := e.kind;
    offset := offset + 1;
    assert buf[..5] == BE.Put(33 + |e.data|, 4) + [e.kind];
    offset := PutNumbers(buf, offset, e.index, e.term, e.timestamp);
    offset := PutAt(buf, offset, |e.data|, 4);
    HeaderIs(e);
  }

  method PutNumbers(buf: array<byte>, offset: nat, index: nat, term: nat, timestamp: nat) returns (next: nat)
    requires offset + 24 <= buf.Length
    modifies buf
    ensures next == offset + 24
    ensures buf[..next] == old(buf[..offset]) + BE.Put(index, 8) + BE.Put(term, 8) + BE.Put(timestamp, 8)
  {
    next := PutAt(buf, offset, index, 8);
    next := PutAt(buf, next, term, 8);
    next := PutAt(buf, next, timestamp, 8);
  }

  lemma HeaderIs(e: WalEntry)
    ensures BE.Put(33 + |e.data|, 4) + [e.kind] + BE.Put(e.index, 8) + BE.Put(e.term, 8) + BE.Put(e.timestamp, 8)
            + BE.Put(|e.data|, 4) + e.data + BE.Put(e.checksum, 4) == Encode(e)
  {
    var h, k, a, b, c, d, z := BE.Put(33 + |e.data|, 4), [e.kind], BE.Put(e.index, 8), BE.Put(e.term, 8),
      BE.Put(e.timestamp, 8), BE.Put(|e.data|, 4), BE.Put(e.checksum, 4);
    Reassociate(h, k, a, b, c + d + e.data + z);
    Reassociate(h + k + a + b, c, d, e.data, z);
    Reassociate(k + a + b, c, d, e.data, z);
    assert h + (k + a + b + (c + d + e.data + z)) == h + k + a + b + (c + d + e.data + z);
  }

  lemma Reassociate(p: Bytes, q: Bytes, r: Bytes, s: Bytes, t: Bytes)
    ensures p + q + r + s + t == p + (q + r + s + t)
  {
  }

  /** serializeEntry fills a fresh buffer field by field at a moving offset. */
  method SerializeEntry(e: WalEntry) returns (buf: array<byte>)
    ensures fresh(buf) && buf[..] == Encode(e)
  {
    buf := new byte[37 + |e.data|];
    var offset := PutHeader(buf, e);
    ghost var header := buf[..33];
    forall i | 0 <= i < |e.data| {
      buf[offset + i] := e.data[i];
    }
    assert buf[..33 + |e.data|] == header + e.data;
    offset := PutAt(buf, offset + |e.data|, e.checksum, 4);
    assert buf[..] == buf[..offset];
  }

  // ---------------------------------------------------------------- reading

  /** What one deserializeEntry does: io.EOF, another read error, an index panic, or a record. */
  datatype Decoded = End | Torn | Panics | Got(entry: WalEntry, rest: Bytes)

  /** The fields of a record body; a body too short for its own lengths is an out-of-range slice. */
  function DecodeBody(d: Bytes, rest: Bytes): Decoded {
    if |d| < 29 then Panics
    else
      var dataLen := BE.Get(d[25..29]);
      if 29 + dataLen + 4 > |d| then Panics
      else
        Number(d[1..9]);
        Number(d[9..17]);
        Number(d[17..25]);
        Number(d[29 + dataLen..33 + dataLen]);
        Got(WalEntry(d[0], BE.Get(d[1..9]), BE.Get(d[9..17]), BE.Get(d[17..25]), d[29..29 + dataLen],
                     BE.Get(d[29 + dataLen..33 + dataLen])), rest)
  }

  lemma Number(b: Bytes)
    ensures |b| == 4 ==> BE.Get(b) < 0x1_0000_0000
    ensures |b| == 8 ==> BE.Get(b) < 0x1_0000_0000_0000_0000
  {
    BE.Widths();
    BE.GetBound(b);
  }

  /** io.ReadFull reports EOF only when it could read nothing at all. */
  function Decode(b: Bytes): (r: Decoded)
    ensures r.Got? ==> |r.rest| < |b|
  {
    if b == [] then End
    else if |b| < 4 then Torn
    else
      var size := BE.Get(b[..4]);
      var body := b[4..];
      if |body| < size then (if body == [] then End else Torn)
      else DecodeBody(body[..size], body[size..])
  }

  lemma BodyFields(e: WalEntry)
    ensures var d, n := Body(e), |e.data|;
            && d[0] == e.kind && d[1..9] == BE.Put(e.index, 8) && d[9..17] == BE.Put(e.term, 8)
            && d[17..25] == BE.Put(e.timestamp, 8) && d[25..29] == BE.Put(n, 4) && d[29..29 + n] == e.data
            && d[29 + n..33 + n] == BE.Put(e.checksum, 4)
  {
    var n := |e.data|;
    var p1 := [e.kind] + BE.Put(e.index, 8);
    var p2 := p1 + BE.Put(e.term, 8);
    var p3 := p2 + BE.Put(e.timestamp, 8);
    var p4 := p3 + BE.Put(n, 4);
    var p5 := p4 + e.data;
    var d := p5 + BE.Put(e.checksum, 4);
    assert Body(e) == d;
    assert d[..29 + n] == p5;
    assert d[..29] == p4 && d[..25] == p3 && d[..17] == p2 && d[..9] == p1;
    assert d[1..9] == d[..9][1..] && d[9..17] == d[..17][9..] && d[17..25] == d[..25][17..]
        && d[25..29] == d[..29][25..];
    assert d[29..29 + n] == d[..29 + n][29..];
  }

  lemma DecodeBodyIs(e: WalEntry, rest: Bytes)
    requires Fits(e)
    ensures DecodeBody(Body(e), rest) == Got(e, rest)
  {
    BE.Widths();
    BodyFields(e);
    BE.GetPut(e.index, 8);
    BE.GetPut(e.term, 8);
    BE.GetPut(e.timestamp, 8);
    BE.GetPut(|e.data|, 4);
    BE.GetPut(e.checksum, 4);
  }

  /** Reading back a record followed by anything gives that record, exactly when it fits its header. */
  lemma CodecRoundTrip(e: WalEntry, rest: Bytes)
    ensures Decode(Encode(e) + rest) == Got(e, rest) <==> Fits(e)
  {
    BE.Widths();
    var b := Encode(e) + rest;
    BE.GetPut(33 + |e.data|, 4);
    assert b[..4] == BE.Put(33 + |e.data|, 4);
    assert b[4..] == Body(e) + rest;
    if Fits(e) {
      assert b[4..][..33 + |e.data|] == Body(e) && b[4..][33 + |e.data|..] == rest;
      DecodeBodyIs(e, rest);
    } else {
      BE.GetBound(b[..4]);
    }
  }

  /** The outcome of reading a segment: its records, or the error that stops it. */
  datatype Segment = Records(entries: seq<WalEntry>) | TornTail | BadChecksum | Crash

  /** readSegment. */
  function ReadSegment(crc: Crc, b: Bytes): Segment
    decreases |b|
  {
    match Decode(b)
    case End => Records([])
    case Torn => TornTail
    case Panics => Crash
    case Got(e, rest) =>
      if e.checksum != Checksum(crc, e) then BadChecksum
      else
        var r := ReadSegment(crc, rest);
        if r.Records? then Records([e] + r.entries) else r
  }

  /** Whatever is decoded fits its header, which told its size. */
  lemma DecodedFits(b: Bytes)
    ensures Decode(b).Got? ==> Fits(Decode(b).entry)
  {
    if |b| >= 4 {
      Number(b[..4]);
    }
  }

  lemma {:induction false} ReadSegmentFits(crc: Crc, b: Bytes)
    ensures var r := ReadSegment(crc, b); r.Records? ==> forall e :: e in r.entries ==> Fits(e)
    decreases |b|
  {
    DecodedFits(b);
    var d := Decode(b);
    if d.Got? {
      ReadSegmentFits(crc, d.rest);
    }
  }

  /** The bytes the checksum of a record covers: its kind, index and term, and its data. */
  function Covered(e: WalEntry): Bytes {
    [e.kind] + BE.Put(e.index, 8) + BE.Put(e.term, 8) + e.data
  }

  /** Whatever bytes a segment holds, every record read from it has the checksum of what it says. */
  lemma {:induction false} ReadSegmentChecked(crc: Crc, b: Bytes)
    ensures var r := ReadSegment(crc, b); r.Records? ==> forall e :: e in r.entries ==> e.checksum == crc(Covered(e))
    decreases |b|
  {
    var d := Decode(b);
    if d.Got? {
      ReadSegmentChecked(crc, d.rest);
    }
  }

  /** Sound records, then one whose stored checksum is not its own, then anything: the read reports it. */
  lemma {:induction false} CorruptionReported(crc: Crc, es: seq<WalEntry>, bad: WalEntry, rest: Bytes)
    requires (forall e :: e in es ==> Sealed(crc, e)) && Fits(bad) && bad.checksum != crc(Covered(bad))
    ensures ReadSegment(crc, EncodeAll(es) + (Encode(bad) + rest)) == BadChecksum
  {
    var tail := Encode(bad) + rest;
    if es == [] {
      assert EncodeAll(es) + tail == tail;
      CodecRoundTrip(bad, rest);
    } else {
      assert es[0] in es;
      CorruptionReported(crc, es[1..], bad, rest);
      assert EncodeAll(es) + tail == Encode(es[0]) + (EncodeAll(es[1..]) + tail);
      ReadRecord(crc, es[0], EncodeAll(es[1..]) + tail);
    }
  }

  /** A body too short for its fields, or for the data length it declares, is an out-of-range slice. */
  lemma MalformedCrashes(crc: Crc, body: Bytes, rest: Bytes)
    requires |body| < 0x1_0000_0000
    ensures |body| < 29 && |body + rest| > 0 ==> ReadSegment(crc, BE.Put(|body|, 4) + (body + rest)) == Crash
    ensures |body| >= 29 && BE.Get(body[25..29]) + 33 > |body| ==>
              ReadSegment(crc, BE.Put(|body|, 4) + (body + rest)) == Crash
  {
    BE.Widths();
    BE.GetPut(|body|, 4);
    var b := BE.Put(|body|, 4) + (body + rest);
    assert b[..4] == BE.Put(|body|, 4) && b[4..] == body + rest && (body + rest)[..|body|] == body;
  }

  /** The layout of a record: size, kind, index, term, time, data length, data, checksum, numbers big-endian. */
  lemma Layout(e: WalEntry)
    ensures var b, n := Encode(e), |e.data|;
            && b[..4] == BE.Put(33 + n, 4) && b[4] == e.kind && b[5..13] == BE.Put(e.index, 8)
            && b[13..21] == BE.Put(e.term, 8) && b[21..29] == BE.Put(e.timestamp, 8) && b[29..33] == BE.Put(n, 4)
            && b[33..33 + n] == e.data && b[33 + n..] == BE.Put(e.checksum, 4)
  {
    var b, d, n := Encode(e), Body(e), |e.data|;
    BodyFields(e);
    assert b[4..] == d;
    assert b[5..13] == d[1..9] && b[13..21] == d[9..17] && b[21..29] == d[17..25] && b[29..33] == d[25..29];
    assert b[33..33 + n] == d[29..29 + n] && b[33 + n..] == d[29 + n..33 + n];
  }

  /** The reading loop of readSegment. */
  method ReadSegmentLoop(crc: Crc, b: Bytes) returns (r: Segment)
    ensures r == ReadSegment(crc, b)
    ensures r.Records? ==> forall e :: e in r.entries ==> e.checksum == crc(Covered(e))
  {
    ReadSegmentChecked(crc, b);
    var entries: seq<WalEntry> := [];
    var rest := b;
    while true
      invariant var r := ReadSegment(crc, rest); ReadSegment(crc, b) == if r.Records? then Records(entries + r.entries)
                else r
      decreases |rest|
    {
      match Decode(rest)
      case End =>
        assert entries + [] == entries;
        return Records(entries);
      case Torn => return TornTail;
      case Panics => return Crash;
      case Got(e, after) =>
        if e.checksum != Checksum(crc, e) {
          return BadChecksum;
        }
        ghost var t := ReadSegment(crc, after);
        assert t.Records? ==> entries + ([e] + t.entries) == entries + [e] + t.entries;
        entries := entries + [e];
        rest := after;
    }
  }

  // ---------------------------------------------------------------- whole and torn segments

  /** How many whole records the first k bytes of a segment contain. */
  function WholeRecords(es: seq<WalEntry>, k: nat): (j: nat)
    ensures j <= |es|
  {
    if es == [] || k < |Encode(es[0])| then 0 else 1 + WholeRecords(es[1..], k - |Encode(es[0])|)
  }

  /** The bytes left over after them. */
  function Leftover(es: seq<WalEntry>, k: nat): nat {
    if es == [] || k < |Encode(es[0])| then k else Leftover(es[1..], k - |Encode(es[0])|)
  }

  lemma {:induction false} WholeRecordsIs(es: seq<WalEntry>, k: nat)
    requires k <= |EncodeAll(es)|
    ensures var j := WholeRecords(es, k);
            && |EncodeAll(es[..j])| + Leftover(es, k) == k
            && (j < |es| ==> Leftover(es, k) < |Encode(es[j])|) && (j == |es| ==> Leftover(es, k) == 0)
  {
    if es != [] && k >= |Encode(es[0])| {
      WholeRecordsIs(es[1..], k - |Encode(es[0])|);
      var j := WholeRecords(es[1..], k - |Encode(es[0])|);
      assert es[..j + 1][1..] == es[1..][..j];
    } else {
      assert es[..0] == [];
    }
  }

  /** A record cut short is a torn tail, except just after its size field, where it looks like the end. */
  lemma CutRecord(e: WalEntry, k: nat)
    requires Fits(e) && k < |Encode(e)|
    ensures Decode(Encode(e)[..k]) == if k == 0 || k == 4 then End else Torn
  {
    BE.Widths();
    BE.GetPut(33 + |e.data|, 4);
    if k >= 4 {
      assert Encode(e)[..k][..4] == BE.Put(33 + |e.data|, 4);
    }
  }

  /**
   * Torn-tail safety: any byte prefix of a well-formed segment reads as an error or as a prefix
   * of the records written, and as the latter exactly when it is cut between records or just
   * after a size field.
   */
  lemma {:induction false} PrefixReads(crc: Crc, es: seq<WalEntry>, k: nat)
    requires (forall e :: e in es ==> Sealed(crc, e)) && k <= |EncodeAll(es)|
    ensures ReadSegment(crc, EncodeAll(es)[..k]) ==
              if Leftover(es, k) == 0 || Leftover(es, k) == 4 then Records(es[..WholeRecords(es, k)]) else TornTail
  {
    if es != [] {
      assert es[0] in es;
      if k < |Encode(es[0])| {
        assert EncodeAll(es)[..k] == Encode(es[0])[..k];
        CutRecord(es[0], k);
      } else {
        PrefixReads(crc, es[1..], k - |Encode(es[0])|);
        PastRecord(crc, es, k);
      }
    }
  }

  lemma PastRecord(crc: Crc, es: seq<WalEntry>, k: nat)
    requires es != [] && Sealed(crc, es[0]) && |Encode(es[0])| <= k <= |EncodeAll(es)|
    ensures var rest := k - |Encode(es[0])|;
            var t, j := ReadSegment(crc, EncodeAll(es[1..])[..rest]), WholeRecords(es[1..], rest);
            && ReadSegment(crc, EncodeAll(es)[..k]) == (if t.Records? then Records([es[0]] + t.entries) else t)
            && es[..j + 1] == [es[0]] + es[1..][..j]
  {
    var rest := EncodeAll(es[1..])[..k - |Encode(es[0])|];
    CutPast(Encode(es[0]), EncodeAll(es[1..]), k);
    ReadRecord(crc, es[0], rest);
    OneMore(es, WholeRecords(es[1..], k - |Encode(es[0])|));
  }

  lemma CutPast(a: Bytes, b: Bytes, k: nat)
    requires |a| <= k <= |a + b|
    ensures (a + b)[..k] == a + b[..k - |a|]
  {
  }

  lemma OneMore(es: seq<WalEntry>, j: nat)
    requires j < |es|
    ensures es[..j + 1] == [es[0]] + es[1..][..j]
  {
  }

  lemma ReadRecord(crc: Crc, e: WalEntry, rest: Bytes)
    requires Sealed(crc, e)
    ensures var t := ReadSegment(crc, rest);
            ReadSegment(crc, Encode(e) + rest) == if t.Records? then Records([e] + t.entries) else t
  {
    CodecRoundTrip(e, rest);
  }

  /** A whole segment reads back as exactly its records. */
  lemma WholeReads(crc: Crc, es: seq<WalEntry>)
    requires forall e :: e in es ==> Sealed(crc, e)
    ensures ReadSegment(crc, EncodeAll(es)) == Records(es)
  {
    var b := EncodeAll(es);
    assert b[..|b|] == b;
    PrefixReads(crc, es, |b|);
    WholeIsAll(es);
    assert es[..|es|] == es;
  }

  lemma {:induction false} WholeIsAll(es: seq<WalEntry>)
    ensures WholeRecords(es, |EncodeAll(es)|) == |es| && Leftover(es, |EncodeAll(es)|) == 0
  {
    if es != [] { WholeIsAll(es[1..]); }
  }
}
