/** Durable state written twice, to the store and to the write-ahead log: pkg/raft/persistence.go. */
module Persistence {
  import opened RaftTypes
  import opened WalCodec
  import opened Wal
  import opened Store

  /** What is kept: term, vote and the log by index. */
  datatype Image = Image(term: nat, vote: Bytes, log: map<nat, Entry>)

  const EMPTY := Image(0, [], map[])

  // ---------------------------------------------------------------- replaying the write-ahead log

  function ReplayOne(json: Json, m: Image, w: WalEntry): Image {
    if w.kind == LOG_RECORD then
      match json.unmarshal(w.data)
      case Some(e) => m.(log := m.log[w.index := e])
      case None => m
    else if w.kind == METADATA_RECORD then m.(term := w.term, vote := w.data)
    else m
  }

  /** Replays the records in order, so that the last write of a key wins. */
  function ReplayWal(json: Json, ws: seq<WalEntry>): Image {
    if ws == [] then EMPTY else ReplayOne(json, ReplayWal(json, ws[..|ws| - 1]), ws[|ws| - 1])
  }

  function MetaRecord(term: u64, vote: Bytes): WalEntry {
    WalEntry(METADATA_RECORD, 0, term, 0, vote, 0)
  }

  function LogRecord(json: Json, e: Entry): WalEntry
    requires InRange(e)
  {
    WalEntry(LOG_RECORD, e.index, e.term, 0, json.marshal(e), 0)
  }

  function SnapshotRecord(index: u64, term: u64, data: Bytes): WalEntry {
    WalEntry(SNAPSHOT_RECORD, index, term, 0, data, 0)
  }

  /** The entries' numbers are of the source's integer width. */
  predicate AllInRange(es: Log) {
    forall i :: 0 <= i < |es| ==> InRange(es[i])
  }

  function LogRecords(json: Json, es: Log): (ws: seq<WalEntry>)
    requires AllInRange(es)
    ensures |ws| == |es|
  {
    seq(|es|, i requires 0 <= i < |es| => LogRecord(json, es[i]))
  }

  /** Metadata records carry index 0, which no truncation removes. */
  predicate MetaAtZero(ws: seq<WalEntry>) {
    forall w :: w in ws && w.kind == METADATA_RECORD ==> w.index == 0
  }

  lemma ReplayAppend(json: Json, ws: seq<WalEntry>, w: WalEntry)
    ensures ReplayWal(json, ws + [w]) == ReplayOne(json, ReplayWal(json, ws), w)
  {
    assert (ws + [w])[..|ws|] == ws;
  }

  lemma ReplayStamp(json: Json, crc: Crc, m: Image, w: WalEntry, now: u64)
    ensures ReplayOne(json, m, Stamp(crc, w, now)) == ReplayOne(json, m, w)
  {
  }

  lemma {:induction false} ReplayStamped(json: Json, crc: Crc, es: seq<WalEntry>, clock: Clock)
    ensures ReplayWal(json, StampAll(crc, es, clock)) == ReplayWal(json, es)
  {
    if es != [] {
      var n := |es| - 1;
      StampSplit(crc, es, clock);
      ReplayStamped(json, crc, es[..n], clock);
      ReplayAppend(json, StampAll(crc, es[..n], clock), Stamp(crc, es[n], clock(n)));
      ReplayStamp(json, crc, ReplayWal(json, es[..n]), es[n], clock(n));
    }
  }

  lemma StampSplit(crc: Crc, es: seq<WalEntry>, clock: Clock)
    requires es != []
    ensures var n := |es| - 1; StampAll(crc, es, clock) == StampAll(crc, es[..n], clock) + [Stamp(crc, es[n], clock(n))]
  {
  }

  /** Writing a batch of log records replays as putting the entries under their indices. */
  lemma {:induction false} ReplayBatch(json: Json, crc: Crc, ws: seq<WalEntry>, es: Log, clock: Clock)
    requires Lossless(json) && AllInRange(es)
    ensures ReplayWal(json, ws + StampAll(crc, LogRecords(json, es), clock)) == PutLogs(ReplayWal(json, ws), es)
  {
    var records := LogRecords(json, es);
    if es == [] {
      assert ws + StampAll(crc, records, clock) == ws;
    } else {
      var n := |es| - 1;
      ReplayBatch(json, crc, ws, es[..n], clock);
      assert records[..n] == LogRecords(json, es[..n]);
      ReplayLast(json, crc, ws, records, clock);
      ReplayLog(json, ReplayWal(json, ws + StampAll(crc, records[..n], clock)), es[n]);
    }
  }

  lemma ReplayLast(json: Json, crc: Crc, ws: seq<WalEntry>, records: seq<WalEntry>, clock: Clock)
    requires records != []
    ensures var n := |records| - 1;
            ReplayWal(json, ws + StampAll(crc, records, clock)) ==
              ReplayOne(json, ReplayWal(json, ws + StampAll(crc, records[..n], clock)), records[n])
  {
    var n := |records| - 1;
    StampSplit(crc, records, clock);
    var shorter, last := StampAll(crc, records[..n], clock), Stamp(crc, records[n], clock(n));
    assert ws + StampAll(crc, records, clock) == ws + shorter + [last];
    ReplayAppend(json, ws + shorter, last);
    ReplayStamp(json, crc, ReplayWal(json, ws + shorter), records[n], clock(n));
  }

  lemma ReplayLog(json: Json, m: Image, e: Entry)
    requires Lossless(json) && InRange(e)
    ensures ReplayOne(json, m, LogRecord(json, e)) == m.(log := m.log[e.index := e])
  {
  }

  function PutLogs(m: Image, es: Log): Image {
    m.(log := PutAll(m.log, es))
  }

  function KeepLogs(m: Image, index: nat): Image {
    m.(log := Keep(m.log, index))
  }

  /** Keeping the records up to an index replays as forgetting the entries above it, and nothing else. */
  lemma {:induction false} ReplayUpto(json: Json, ws: seq<WalEntry>, index: nat)
    requires MetaAtZero(ws)
    ensures ReplayWal(json, Upto(ws, index)) == KeepLogs(ReplayWal(json, ws), index + 1)
  {
    if ws == [] {
      assert Keep(EMPTY.log, index + 1) == EMPTY.log;
    } else {
      var n := |ws| - 1;
      var w := ws[n];
      ReplayUpto(json, ws[..n], index);
      assert w in ws;
      KeepOne(json, ReplayWal(json, ws[..n]), w, index);
      if w.index <= index {
        ReplayAppend(json, Upto(ws[..n], index), w);
      } else {
        assert Upto(ws, index) == Upto(ws[..n], index);
      }
    }
  }

  lemma KeepOne(json: Json, m: Image, w: WalEntry, index: nat)
    requires w.kind == METADATA_RECORD ==> w.index == 0
    ensures KeepLogs(ReplayOne(json, m, w), index + 1) ==
              if w.index <= index then ReplayOne(json, KeepLogs(m, index + 1), w) else KeepLogs(m, index + 1)
  {
    if w.kind == LOG_RECORD && json.unmarshal(w.data).Some? {
      var e := json.unmarshal(w.data).value;
      KeepPut(m.log, w.index, e, index + 1);
    }
  }

  lemma KeepPut(m: map<nat, Entry>, i: nat, e: Entry, index: nat)
    ensures Keep(m[i := e], index) == if i < index then Keep(m, index)[i := e] else Keep(m, index)
  {
    var l, r := Keep(m[i := e], index), if i < index then Keep(m, index)[i := e] else Keep(m, index);
    assert l.Keys == r.Keys;
  }

  // ---------------------------------------------------------------- the layer

  /** The conversion loop of PersistLogEntries. */
  method ToRecords(json: Json, es: Log) returns (ws: seq<WalEntry>)
    requires AllInRange(es)
    ensures ws == LogRecords(json, es) && |ws| == |es|
    ensures forall i :: 0 <= i < |es| ==>
              && ws[i].kind == LOG_RECORD && ws[i].index == es[i].index && ws[i].term == es[i].term
              && ws[i].data == json.marshal(es[i])
  {
    ws := [];
    for i := 0 to |es|
      invariant ws == LogRecords(json, es)[..i]
    {
      ws := ws + [LogRecord(json, es[i])];
    }
  }

  /** The record holds the entry under its index and term, written at this time. */
  predicate RecordOf(json: Json, w: WalEntry, e: Entry, now: u64) {
    && w.kind == LOG_RECORD && w.index == e.index && w.term == e.term && w.timestamp == now && w.data == json.marshal(e)
  }

  /** A batch is one record for each entry, in order. */
  lemma BatchRecords(json: Json, crc: Crc, es: Log, clock: Clock)
    requires AllInRange(es)
    ensures var batch := StampAll(crc, LogRecords(json, es), clock);
            |batch| == |es| && forall i :: 0 <= i < |es| ==> RecordOf(json, batch[i], es[i], clock(i))
  {
  }

  class PersistenceLayer {
    const store: BoltStore
    const wal: FileWal

    constructor (json: Json, crc: Crc, segmentSize: nat)
      requires Lossless(json)
      ensures Ready() && Agrees() && StoreImage() == EMPTY && wal.Contents() == []
      ensures store.json == json && fresh(store) && fresh(wal)
    {
      store := new BoltStore(json);
      wal := new FileWal(crc, segmentSize);
    }

    /** Both sides are well-formed and the write-ahead log has been synced. */
    ghost predicate Ready()
      reads this, store, wal
    {
      store.Valid() && wal.Valid() && wal.open && wal.buffer == []
    }

    ghost function StoreImage(): Image
      reads this, store
    {
      Image(store.Term(), store.Vote(), store.entries)
    }

    /** Replaying the write-ahead log gives what the store holds. */
    ghost predicate Agrees()
      reads this, store, wal
    {
      ReplayWal(store.json, wal.Contents()) == StoreImage() && MetaAtZero(wal.Contents())
    }

    /** LoadLogEntries. */
    method LoadLogEntries() returns (es: Log)
      requires Ready()
      ensures Increasing(es) && (forall e :: e in es <==> e.index in store.entries && store.entries[e.index] == e)
      ensures forall i :: i in store.entries ==> store.entries[i].index == i
    {
      es := store.LoadAllLogEntries();
    }

    /** PersistMetadata. */
    method PersistMetadata(term: u64, vote: Bytes, now: u64)
      requires Ready()
      modifies store, wal
      ensures Ready() && StoreImage() == old(StoreImage()).(term := term, vote := vote) && (old(Agrees()) ==> Agrees())
      ensures store.snapshot == old(store.snapshot)
      ensures |wal.Contents()| == |old(wal.Contents())| + 1 && old(wal.Contents()) <= wal.Contents()
      ensures var w := wal.Contents()[|old(wal.Contents())|];
              w.kind == METADATA_RECORD && w.index == 0 && w.term == term && w.timestamp == now && w.data == vote
      ensures old(AllFit(wal.Contents())) && Fits(MetaRecord(term, vote)) ==> AllFit(wal.Contents())
    {
      store.SaveMetadata(term, vote);
      wal.Append(MetaRecord(term, vote), now);
      wal.Sync();
      ReplayAppend(store.json, old(wal.Contents()), Stamp(wal.crc, MetaRecord(term, vote), now));
    }

    /** PersistLogEntries. */
    method PersistLogEntries(es: Log, clock: Clock)
      requires Ready() && AllInRange(es)
      modifies store, wal
      ensures Ready() && StoreImage() == PutLogs(old(StoreImage()), es) && (old(Agrees()) ==> Agrees())
      ensures store.snapshot == old(store.snapshot)
      ensures wal.Contents() == old(wal.Contents()) + StampAll(wal.crc, LogRecords(store.json, es), clock)
      ensures old(AllFit(wal.Contents())) && AllFit(LogRecords(store.json, es)) ==> AllFit(wal.Contents())
    {
      store.SaveLogEntries(es);
      AppendRecords(es, clock);
    }

    method AppendRecords(es: Log, clock: Clock)
      requires wal.Valid() && wal.open && wal.buffer == [] && Lossless(store.json) && AllInRange(es)
      modifies wal
      ensures wal.Valid() && wal.open && wal.buffer == []
      ensures ReplayWal(store.json, wal.Contents()) == PutLogs(old(ReplayWal(store.json, wal.Contents())), es)
      ensures old(MetaAtZero(wal.Contents())) ==> MetaAtZero(wal.Contents())
      ensures old(AllFit(wal.Contents())) && AllFit(LogRecords(store.json, es)) ==> AllFit(wal.Contents())
      ensures wal.Contents() == old(wal.Contents()) + StampAll(wal.crc, LogRecords(store.json, es), clock)
    {
      var ws := ToRecords(store.json, es);
      wal.AppendBatch(ws, clock);
      wal.Sync();
      BatchReplay(store.json, wal.crc, old(wal.Contents()), es, clock);
      StampedFit(wal.crc, ws, clock);
    }

    /** PersistSnapshot: neither the log nor the metadata of the two copies changes. */
    method PersistSnapshot(index: u64, term: u64, data: Bytes, now: u64)
      requires Ready()
      modifies store, wal
      ensures Ready() && StoreImage() == old(StoreImage()) && store.snapshot == Some(data)
              && (old(Agrees()) ==> Agrees())
      ensures |wal.Contents()| == |old(wal.Contents())| + 1 && old(wal.Contents()) <= wal.Contents()
      ensures var w := wal.Contents()[|old(wal.Contents())|];
              && w.kind == SNAPSHOT_RECORD && w.index == index && w.term == term && w.timestamp == now && w.data == data
      ensures old(AllFit(wal.Contents())) && Fits(SnapshotRecord(index, term, data)) ==> AllFit(wal.Contents())
    {
      store.SaveSnapshot(data);
      wal.Append(SnapshotRecord(index, term, data), now);
      wal.Sync();
      ReplayAppend(store.json, old(wal.Contents()), Stamp(wal.crc, SnapshotRecord(index, term, data), now));
    }

    /**
     * DeleteLogEntriesFrom. The index handed to the write-ahead log is a uint64 difference, so
     * that deleting from 0 empties the store and truncates nothing. The log is read back for it,
     * which takes records that fit their headers.
     */
    method DeleteLogEntriesFrom(index: u64, clock: Clock) returns (ok: bool)
      requires Ready()
      modifies store, wal
      ensures Ready() && StoreImage() == KeepLogs(old(StoreImage()), index)
      ensures old(Agrees() && AllFit(wal.Contents())) ==>
                ok && AllFit(wal.Contents()) && (Agrees() <==> index >= 1 || old(store.entries) == map[])
      ensures old(Agrees() && AllFit(wal.Contents())) && index == 0 ==>
                store.entries == map[] && ReplayWal(store.json, wal.Contents()).log == old(store.entries)
    {
      store.DeleteLogEntriesFrom(index);
      var last: u64 := if index == 0 then 0xFFFF_FFFF_FFFF_FFFF else index - 1;
      ok := TruncateWal(last, clock);
      DeletedImages(old(StoreImage()), index, last);
    }

    method TruncateWal(last: u64, clock: Clock) returns (ok: bool)
      requires wal.Valid() && wal.open && wal.buffer == []
      modifies wal
      ensures wal.Valid() && wal.open && wal.buffer == []
      ensures old(AllFit(wal.Contents()) && MetaAtZero(wal.Contents())) ==>
                && ok && MetaAtZero(wal.Contents()) && AllFit(wal.Contents())
                && ReplayWal(store.json, wal.Contents()) ==
                   KeepLogs(old(ReplayWal(store.json, wal.Contents())), last + 1)
    {
      ok := wal.Truncate(last, clock);
      wal.Sync();
      TruncatedReplay(store.json, wal.crc, old(wal.Contents()), last, clock);
    }
  }

  lemma StampedFit(crc: Crc, es: seq<WalEntry>, clock: Clock)
    ensures AllFit(es) ==> AllFit(StampAll(crc, es, clock))
  {
    var stamped := StampAll(crc, es, clock);
    forall w | AllFit(es) && w in stamped ensures Fits(w) {
      var i :| 0 <= i < |stamped| && w == stamped[i];
      assert es[i] in es;
    }
  }

  lemma TruncatedFit(crc: Crc, ws: seq<WalEntry>, index: nat, clock: Clock)
    requires AllFit(ws)
    ensures AllFit(StampAll(crc, Upto(ws, index), clock))
  {
    forall w | w in Upto(ws, index) ensures Fits(w) {
      UptoMembers(ws, index, w);
    }
    StampedFit(crc, Upto(ws, index), clock);
  }

  lemma BatchReplay(json: Json, crc: Crc, ws: seq<WalEntry>, es: Log, clock: Clock)
    requires Lossless(json) && AllInRange(es)
    ensures ReplayWal(json, ws + StampAll(crc, LogRecords(json, es), clock)) == PutLogs(ReplayWal(json, ws), es)
    ensures MetaAtZero(ws) ==> MetaAtZero(ws + StampAll(crc, LogRecords(json, es), clock))
  {
    ReplayBatch(json, crc, ws, es, clock);
    var batch := StampAll(crc, LogRecords(json, es), clock);
    assert forall w :: w in batch ==> w.kind == LOG_RECORD;
  }

  lemma TruncatedReplay(json: Json, crc: Crc, ws: seq<WalEntry>, index: nat, clock: Clock)
    ensures MetaAtZero(ws) && AllFit(ws) ==>
              var kept := StampAll(crc, Upto(ws, index), clock);
              ReplayWal(json, kept) == KeepLogs(ReplayWal(json, ws), index + 1) && MetaAtZero(kept) && AllFit(kept)
  {
    if MetaAtZero(ws) && AllFit(ws) {
      ReplayStamped(json, crc, Upto(ws, index), clock);
      ReplayUpto(json, ws, index);
      StampedMetaAtZero(crc, ws, index, clock);
      TruncatedFit(crc, ws, index, clock);
    }
  }

  /** The two deletions give the same unless the index wraps around and there is something to delete. */
  lemma DeletedImages(m: Image, index: nat, last: nat)
    requires last == if index == 0 then 0xFFFF_FFFF_FFFF_FFFF else index - 1
    requires forall i :: i in m.log ==> i < 0x1_0000_0000_0000_0000
    ensures KeepLogs(m, last + 1) == KeepLogs(m, index) <==> index >= 1 || m.log == map[]
    ensures index == 0 ==> KeepLogs(m, index).log == map[] && KeepLogs(m, last + 1).log == m.log
  {
    DeletedFromZero(m.log);
  }

  lemma DeletedFromZero(m: map<nat, Entry>)
    requires forall i :: i in m ==> i < 0x1_0000_0000_0000_0000
    ensures Keep(m, 0) == map[] && Keep(m, 0x1_0000_0000_0000_0000) == m
  {
  }

  lemma StampedMetaAtZero(crc: Crc, ws: seq<WalEntry>, index: nat, clock: Clock)
    requires MetaAtZero(ws)
    ensures MetaAtZero(StampAll(crc, Upto(ws, index), clock))
  {
    var kept := Upto(ws, index);
    var stamped := StampAll(crc, kept, clock);
    forall w | w in stamped && w.kind == METADATA_RECORD ensures w.index == 0 {
      var i :| 0 <= i < |stamped| && w == stamped[i];
      assert kept[i] in kept;
      UptoMembers(ws, index, kept[i]);
    }
  }

  // ---------------------------------------------------------------- whole runs

  datatype Op =
    | SetMeta(term: u64, vote: Bytes, now: u64)
    | PutLog(es: Log, clock: Clock)
    | SetSnapshot(index: u64, term: u64, data: Bytes, now: u64)
    | DeleteFrom(index: u64, clock: Clock)

  predicate OpOk(op: Op) {
    match op
    case PutLog(es, _) => AllInRange(es)
    case DeleteFrom(index, _) => index >= 1
    case _ => true
  }

  /** The records an operation writes fit their headers. */
  predicate OpFits(json: Json, op: Op)
    requires OpOk(op)
  {
    match op
    case SetMeta(term, vote, _) => Fits(MetaRecord(term, vote))
    case PutLog(es, _) => AllFit(LogRecords(json, es))
    case SetSnapshot(index, term, data, _) => Fits(SnapshotRecord(index, term, data))
    case DeleteFrom(_, _) => true
  }

  /** What an operation means. */
  function Apply(m: Image, op: Op): Image {
    match op
    case SetMeta(term, vote, _) => m.(term := term, vote := vote)
    case PutLog(es, _) => PutLogs(m, es)
    case SetSnapshot(_, _, _, _) => m
    case DeleteFrom(index, _) => KeepLogs(m, index)
  }

  function ApplyAll(ops: seq<Op>): Image {
    if ops == [] then EMPTY else Apply(ApplyAll(ops[..|ops| - 1]), ops[|ops| - 1])
  }

  method Perform(p: PersistenceLayer, op: Op)
    requires p.Ready() && OpOk(op)
    modifies p.store, p.wal
    ensures p.Ready() && p.StoreImage() == Apply(old(p.StoreImage()), op)
    ensures old(p.Agrees() && AllFit(p.wal.Contents())) && OpFits(p.store.json, op) ==>
            p.Agrees() && AllFit(p.wal.Contents())
  {
    match op
    case SetMeta(t, v, now) => p.PersistMetadata(t, v, now);
    case PutLog(entries, clock) => p.PersistLogEntries(entries, clock);
    case SetSnapshot(index, t, data, now) => p.PersistSnapshot(index, t, data, now);
    case DeleteFrom(index, clock) => var _ := p.DeleteLogEntriesFrom(index, clock);
  }

  predicate RunFits(json: Json, ops: seq<Op>)
    requires forall k :: 0 <= k < |ops| ==> OpOk(ops[k])
  {
    forall k :: 0 <= k < |ops| ==> OpFits(json, ops[k])
  }

  /**
   * After any run of persists and deletes from index 1 on the store loads what the run means,
   * and if the records fit their headers, those read back from disk replay to the same.
   */
  method TwoCopies(json: Json, crc: Crc, segmentSize: nat, ops: seq<Op>)
      returns (term: nat, vote: Bytes, es: Log, records: Segment)
    requires Lossless(json) && forall k :: 0 <= k < |ops| ==> OpOk(ops[k])
    ensures term == ApplyAll(ops).term && vote == ApplyAll(ops).vote && Increasing(es)
    ensures forall e :: e in es <==> e.index in ApplyAll(ops).log && ApplyAll(ops).log[e.index] == e
    ensures RunFits(json, ops) ==> records.Records? && ReplayWal(json, records.entries) == ApplyAll(ops)
  {
    var p := new PersistenceLayer(json, crc, segmentSize);
    for k := 0 to |ops|
      invariant p.Ready() && p.store.json == json && fresh(p.store) && fresh(p.wal)
      invariant p.StoreImage() == ApplyAll(ops[..k])
      invariant RunFits(json, ops) ==> p.Agrees() && AllFit(p.wal.Contents())
    {
      assert ops[..k + 1][..k] == ops[..k];
      Perform(p, ops[k]);
    }
    assert ops[..|ops|] == ops;
    term, vote := p.store.Term(), p.store.Vote();
    es := p.store.LoadAllLogEntries();
    records := p.wal.ReadAll();
  }

  /**
   * Deleting from index 0 is where the two copies part: one entry persisted, then deleted, is gone
   * from the store only.
   */
  method DeleteFromZero(json: Json, crc: Crc, segmentSize: nat, e: Entry, clock: Clock)
      returns (es: Log, records: Segment)
    requires Lossless(json) && InRange(e) && Fits(LogRecord(json, e))
    ensures (forall x :: x !in es) && records.Records? && ReplayWal(json, records.entries).log == map[e.index := e]
  {
    var p := new PersistenceLayer(json, crc, segmentSize);
    p.PersistLogEntries([e], clock);
    PutOne(e);
    DeleteZero(p, e, clock);
    es := p.store.LoadAllLogEntries();
    records := p.wal.ReadAll();
  }

  lemma PutOne(e: Entry)
    ensures PutAll(map[], [e]) == map[e.index := e]
  {
    assert PutAll(map[], []) == map[];
  }

  method DeleteZero(p: PersistenceLayer, e: Entry, clock: Clock)
    requires p.Ready() && p.Agrees() && AllFit(p.wal.Contents()) && p.store.entries == map[e.index := e] && InRange(e)
    modifies p.store, p.wal
    ensures p.Ready() && AllFit(p.wal.Contents()) && p.store.entries == map[]
    ensures ReplayWal(p.store.json, p.wal.Contents()).log == map[e.index := e]
  {
    var _ := p.DeleteLogEntriesFrom(0, clock);
    DeletedFromZero(map[e.index := e]);
  }
}
