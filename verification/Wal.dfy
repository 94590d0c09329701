/** The segmented, buffered write-ahead log: pkg/storage/wal.go. */
module Wal {
  import opened RaftTypes
  import opened WalCodec

  const SEGMENT_SIZE: nat := 64 * 1024 * 1024
  /** bufio.NewWriter's default capacity. */
  const BUFFER_SIZE: nat := 4096

  // ---------------------------------------------------------------- what the log means

  /** appendEntry sets the checksum and then the time of writing, which the checksum does not cover. */
  function Stamp(crc: Crc, e: WalEntry, now: u64): (s: WalEntry)
    ensures Stamped(crc, s) && (Fits(s) <==> Fits(e))
  {
    e.(checksum := Checksum(crc, e), timestamp := now)
  }

  /** The time at which each record of a batch is written. */
  type Clock = nat -> u64

  function StampAll(crc: Crc, es: seq<WalEntry>, clock: Clock): (s: seq<WalEntry>)
    ensures |s| == |es| && forall i :: 0 <= i < |s| ==> s[i] == Stamp(crc, es[i], clock(i))
  {
    seq(|es|, i requires 0 <= i < |es| => Stamp(crc, es[i], clock(i)))
  }

  predicate AllFit(es: seq<WalEntry>) {
    forall e :: e in es ==> Fits(e)
  }

  /** The checksum is the record's own; every record on its way to disk has it. */
  predicate Stamped(crc: Crc, e: WalEntry) {
    e.checksum == Checksum(crc, e)
  }

  predicate AllStamped(crc: Crc, es: seq<WalEntry>) {
    forall e :: e in es ==> Stamped(crc, e)
  }

  function Upto(es: seq<WalEntry>, index: nat): seq<WalEntry> {
    if es == [] then [] else Upto(es[..|es| - 1], index) + if es[|es| - 1].index <= index then [es[|es| - 1]] else []
  }

  function From(es: seq<WalEntry>, start: nat): seq<WalEntry> {
    if es == [] then [] else From(es[..|es| - 1], start) + if es[|es| - 1].index >= start then [es[|es| - 1]] else []
  }

  function Flatten(s: seq<seq<WalEntry>>): seq<WalEntry> {
    if s == [] then [] else Flatten(s[..|s| - 1]) + s[|s| - 1]
  }

  /** Reads segment after segment, stopping at the first that fails. */
  function ReadFiles(crc: Crc, files: seq<Bytes>): Segment {
    if files == [] then Records([])
    else
      var before := ReadFiles(crc, files[..|files| - 1]);
      var last := ReadSegment(crc, files[|files| - 1]);
      if !before.Records? then before
      else if !last.Records? then last
      else Records(before.entries + last.entries)
  }

  /** The loop over all segments in Read and Truncate. */
  method ReadEach(crc: Crc, files: seq<Bytes>) returns (r: Segment)
    ensures r == ReadFiles(crc, files)
  {
    var all: seq<WalEntry> := [];
    for k := 0 to |files|
      invariant ReadFiles(crc, files[..k]) == Records(all)
    {
      assert files[..k + 1][..k] == files[..k];
      var s := ReadSegmentLoop(crc, files[k]);
      if !s.Records? {
        FailureStays(crc, files, k + 1);
        return s;
      }
      all := all + s.entries;
    }
    assert files[..|files|] == files;
    return Records(all);
  }

  lemma {:induction false} FailureStays(crc: Crc, files: seq<Bytes>, k: nat)
    requires k <= |files| && !ReadFiles(crc, files[..k]).Records?
    ensures ReadFiles(crc, files) == ReadFiles(crc, files[..k])
  {
    if k < |files| {
      assert files[..|files| - 1][..k] == files[..k];
      FailureStays(crc, files[..|files| - 1], k);
    } else {
      assert files[..k] == files;
    }
  }

  lemma {:induction false} FromAll(es: seq<WalEntry>)
    ensures From(es, 0) == es
  {
    if es != [] {
      FromAll(es[..|es| - 1]);
      assert es == es[..|es| - 1] + [es[|es| - 1]];
    }
  }

  lemma {:induction false} UptoMembers(es: seq<WalEntry>, index: nat, e: WalEntry)
    ensures e in Upto(es, index) <==> e in es && e.index <= index
  {
    if es != [] {
      UptoMembers(es[..|es| - 1], index, e);
      assert es == es[..|es| - 1] + [es[|es| - 1]];
    }
  }

  /** The records kept are those with index at least the start, each at the place its turn gives it. */
  lemma {:induction false} FromKeeps(es: seq<WalEntry>, start: nat, i: nat)
    requires i < |es|
    ensures |From(es[..i + 1], start)| == |From(es[..i], start)| + if es[i].index >= start then 1 else 0
    ensures From(es[..i], start) <= From(es, start)
    ensures es[i].index >= start ==>
              |From(es[..i], start)| < |From(es, start)| && From(es, start)[|From(es[..i], start)|] == es[i]
  {
    var n := |es| - 1;
    assert es[..i + 1][..i] == es[..i];
    if i < n {
      FromKeeps(es[..n], start, i);
      assert es[..n][..i] == es[..i];
    }
  }

  /** Likewise for those with index at most the bound. */
  lemma {:induction false} UptoKeeps(es: seq<WalEntry>, index: nat, i: nat)
    requires i < |es|
    ensures |Upto(es[..i + 1], index)| == |Upto(es[..i], index)| + if es[i].index <= index then 1 else 0
    ensures Upto(es[..i], index) <= Upto(es, index)
    ensures es[i].index <= index ==>
              |Upto(es[..i], index)| < |Upto(es, index)| && Upto(es, index)[|Upto(es[..i], index)|] == es[i]
  {
    var n := |es| - 1;
    assert es[..i + 1][..i] == es[..i];
    if i < n {
      UptoKeeps(es[..n], index, i);
      assert es[..n][..i] == es[..i];
    }
  }

  predicate AllChecked(crc: Crc, es: seq<WalEntry>) {
    forall e :: e in es ==> e.checksum == crc(Covered(e))
  }

  /** Whatever the files hold, every record read from them has the checksum of what it says. */
  lemma {:induction false} ReadFilesChecked(crc: Crc, files: seq<Bytes>)
    ensures ReadFiles(crc, files).Records? ==> AllChecked(crc, ReadFiles(crc, files).entries)
  {
    if files != [] {
      ReadFilesChecked(crc, files[..|files| - 1]);
      ReadSegmentChecked(crc, files[|files| - 1]);
    }
  }

  /** A record with a wrong checksum in some file, after files and records that read, fails the whole read. */
  lemma CorruptFileFails(crc: Crc, files: seq<Bytes>, k: nat, es: seq<WalEntry>, bad: WalEntry, rest: Bytes)
    requires k < |files| && ReadFiles(crc, files[..k]).Records? && (forall e :: e in es ==> Sealed(crc, e))
    requires Fits(bad) && bad.checksum != crc(Covered(bad)) && files[k] == EncodeAll(es) + (Encode(bad) + rest)
    ensures ReadFiles(crc, files) == BadChecksum
  {
    CorruptionReported(crc, es, bad, rest);
    assert files[..k + 1][..k] == files[..k];
    FailureStays(crc, files, k + 1);
  }

  lemma {:induction false} FromChecked(crc: Crc, es: seq<WalEntry>, start: nat)
    requires AllChecked(crc, es)
    ensures AllChecked(crc, From(es, start))
  {
    if es != [] {
      FromChecked(crc, es[..|es| - 1], start);
    }
  }

  /** Whatever can be read fits its header. */
  lemma {:induction false} ReadFilesFit(crc: Crc, files: seq<Bytes>)
    ensures ReadFiles(crc, files).Records? ==> AllFit(ReadFiles(crc, files).entries)
  {
    if files != [] {
      ReadFilesFit(crc, files[..|files| - 1]);
      ReadSegmentFits(crc, files[|files| - 1]);
    }
  }

  /** Stamping stored records again changes nothing but their times. */
  lemma StampKeeps(crc: Crc, es: seq<WalEntry>, clock: Clock, i: nat)
    requires AllStamped(crc, es) && i < |es|
    ensures StampAll(crc, es, clock)[i] == es[i].(timestamp := clock(i))
  {
    assert es[i] in es;
  }

  // ---------------------------------------------------------------- the log

  class FileWal {
    const crc: Crc
    const segmentSize: nat
    /** The segment files in the order of their numbers, which are 0, 1, 2 and so on without gaps. */
    var files: seq<Bytes>
    var currentIndex: nat
    /** Whether currentFile and writer are set. */
    var open: bool
    /** The bytes the writer holds that are not in the current file yet. */
    var buffer: Bytes
    /** The records written to each segment. */
    ghost var written: seq<seq<WalEntry>>

    /** What holds of the fields whatever the files contain. */
    predicate Shaped()
      reads this
    {
      |files| == currentIndex + 1 && |buffer| <= BUFFER_SIZE && (!open ==> buffer == [])
    }

    ghost predicate Valid()
      reads this
    {
      && Shaped() && |written| == currentIndex + 1
      && (forall k :: 0 <= k < currentIndex ==> files[k] == EncodeAll(written[k]))
      && files[currentIndex] + buffer == EncodeAll(written[currentIndex])
      && (forall k :: 0 <= k < |written| ==> AllStamped(crc, written[k]))
    }

    /** The plain list the log stands for. */
    ghost function Contents(): seq<WalEntry>
      reads this
    {
      Flatten(written)
    }

    /** What reading all files gives. */
    ghost function Found(): Segment
      reads this
    {
      ReadFiles(crc, files)
    }

    /** The records whose last byte has reached a file. */
    ghost function OnDisk(): seq<WalEntry>
      requires Valid()
      reads this
    {
      var last := written[currentIndex];
      Flatten(written[..currentIndex]) + last[..WholeRecords(last, |files[currentIndex]|)]
    }

    /** NewWAL on an empty directory. */
    constructor (crc: Crc, segmentSize: nat)
      ensures Valid() && open && Contents() == [] && buffer == [] && this.crc == crc && this.segmentSize == segmentSize
    {
      this.crc := crc;
      this.segmentSize := segmentSize;
      files, currentIndex, open, buffer := [[]], 0, true, [];
      written := [[]];
      new;
      assert written[..0] == [];
    }

    /** bufio.Writer.Flush into the current file, which was opened to append. */
    method Flush()
      requires Shaped()
      modifies this`files, this`buffer
      ensures Shaped() && buffer == [] && (old(Valid()) ==> Valid())
    {
      files := files[currentIndex := files[currentIndex] + buffer];
      buffer := [];
      assert files[currentIndex] + buffer == files[currentIndex];
    }

    /** bufio.Writer.Write: fills the buffer, flushes it when full, and writes around an empty one. */
    method Write(p: Bytes)
      requires |files| == currentIndex + 1 && |buffer| <= BUFFER_SIZE
      modifies this`files, this`buffer
      ensures |files| == currentIndex + 1 && |buffer| <= BUFFER_SIZE
      ensures files[..currentIndex] == old(files[..currentIndex])
      ensures files[currentIndex] + buffer == old(files[currentIndex] + buffer) + p
    {
      var rest := p;
      while |rest| > BUFFER_SIZE - |buffer|
        invariant |files| == currentIndex + 1 && |buffer| <= BUFFER_SIZE
        invariant files[..currentIndex] == old(files[..currentIndex])
        invariant files[currentIndex] + buffer + rest == old(files[currentIndex] + buffer) + p
        decreases |rest|, |buffer|
      {
        var n := if buffer == [] then |rest| else BUFFER_SIZE - |buffer|;
        assert rest == rest[..n] + rest[n..];
        files := files[currentIndex := files[currentIndex] + (buffer + rest[..n])];
        buffer := [];
        rest := rest[n..];
      }
      buffer := buffer + rest;
    }

    /** closeCurrentFile. */
    method Close()
      requires Shaped()
      modifies this`files, this`buffer, this`open
      ensures Shaped() && !open && (old(Valid()) ==> Valid())
    {
      if open {
        Flush();
        open := false;
      }
    }

    /** createSegment for the next free number. */
    method CreateSegment()
      requires Valid() && !open
      modifies this
      ensures Valid() && open && Contents() == old(Contents())
      ensures currentIndex == old(currentIndex) + 1 && files == old(files) + [[]] && buffer == []
    {
      files := files + [[]];
      currentIndex := currentIndex + 1;
      open, buffer := true, [];
      written := written + [[]];
      assert written[..|written| - 1] == old(written);
      assert Contents() == old(Contents()) + [];
    }

    /** NewWAL on a directory that already holds segments appends to the last one. */
    method Reopen()
      requires Valid() && !open
      modifies this`open
      ensures Valid() && open
    {
      open := true;
    }

    /** The process dies: what the writer holds is lost. The files are a log again if they end between records. */
    method Crash()
      requires Valid()
      modifies this
      ensures files == old(files) && buffer == [] && !open
      ensures old(Leftover(written[currentIndex], |files[currentIndex]|)) == 0 ==>
              Valid() && Contents() == old(OnDisk())
    {
      ghost var last := written[currentIndex];
      ghost var k := |files[currentIndex]|;
      ghost var whole := last[..WholeRecords(last, k)];
      CutAtRecord(last, k);
      FlattenLast(written, whole);
      if Leftover(last, k) == 0 {
        assert EncodeAll(last)[..k] == files[currentIndex];
      }
      buffer, open := [], false;
      written := written[currentIndex := whole];
    }

    /** appendEntry: rotate if the file, not counting the buffer, would grow past the segment size. */
    method Append(e: WalEntry, now: u64)
      requires Valid() && open
      modifies this
      ensures Valid() && open && Contents() == old(Contents()) + [Stamp(crc, e, now)]
      ensures Contents() == old(Contents()) + [e.(checksum := crc(Covered(e)), timestamp := now)]
      ensures currentIndex == old(currentIndex) + if old(|files[currentIndex]|) + |Encode(e)| > segmentSize then 1
              else 0
    {
      var sealed := Stamp(crc, e, now);
      var data := SerializeEntry(sealed);
      if |files[currentIndex]| + data.Length > segmentSize {
        Close();
        CreateSegment();
      }
      WriteRecord(sealed, data[..]);
    }

    method WriteRecord(ghost e: WalEntry, data: Bytes)
      requires Valid() && open && Stamped(crc, e) && data == Encode(e)
      modifies this`files, this`buffer, this`written
      ensures Valid() && Contents() == old(Contents()) + [e]
    {
      ghost var before, last := written, written[currentIndex];
      Write(data);
      EncodeAppended(last, e);
      assert forall k :: 0 <= k < currentIndex ==> files[k] == files[..currentIndex][k];
      written := before[currentIndex := last + [e]];
      FlattenLast(before, last + [e]);
    }

    /** AppendBatch. */
    method AppendBatch(es: seq<WalEntry>, clock: Clock)
      requires Valid() && open
      modifies this
      ensures Valid() && open && buffer == []
      ensures Contents() == old(Contents()) + StampAll(crc, es, clock)
    {
      AppendEach(es, clock);
      Flush();
    }

    /** The loop that AppendBatch and Truncate share. */
    method AppendEach(es: seq<WalEntry>, clock: Clock)
      requires Valid() && open
      modifies this
      ensures Valid() && open
      ensures Contents() == old(Contents()) + StampAll(crc, es, clock)
    {
      ghost var done: seq<WalEntry> := [];
      for i := 0 to |es|
        invariant Valid() && open
        invariant done == StampAll(crc, es, clock)[..i]
        invariant Contents() == old(Contents()) + done
      {
        Append(es[i], clock(i));
        ghost var all := StampAll(crc, es, clock);
        assert all[..i + 1] == done + [all[i]];
        done := all[..i + 1];
      }
    }

    /** Sync. */
    method Sync()
      requires Valid()
      modifies this`files, this`buffer
      ensures Valid() && buffer == []
    {
      if open {
        Flush();
      }
    }

    /** Whether what is on disk of the current segment ends between records or just after a size field. */
    ghost predicate TailReads()
      requires Valid()
      reads this
    {
      var left := Leftover(written[currentIndex], |files[currentIndex]|);
      left == 0 || left == 4
    }

    lemma SegmentsFit(k: nat)
      requires k <= |written| && AllFit(Flatten(written[..k]))
      ensures forall i :: 0 <= i < k ==> AllFit(written[i])
    {
      if k > 0 {
        assert written[..k][..k - 1] == written[..k - 1];
        SegmentsFit(k - 1);
      }
    }

    /** Every record of every segment fits, if the list does. */
    lemma Readable()
      requires Valid() && AllFit(Contents())
      ensures forall i :: 0 <= i < |written| ==> forall e :: e in written[i] ==> Sealed(crc, e)
    {
      assert written[..|written|] == written;
      SegmentsFit(|written|);
    }

    lemma WholeFiles(k: nat)
      requires Valid() && k <= currentIndex && forall i :: 0 <= i < k ==> forall e :: e in written[i] ==> Sealed(crc, e)
      ensures ReadFiles(crc, files[..k]) == Records(Flatten(written[..k]))
    {
      if k > 0 {
        WholeFiles(k - 1);
        assert files[..k][..k - 1] == files[..k - 1] && written[..k][..k - 1] == written[..k - 1];
        WholeReads(crc, written[k - 1]);
      }
    }

    lemma LastFile()
      requires Valid() && forall e :: e in written[currentIndex] ==> Sealed(crc, e)
      ensures var last, k := written[currentIndex], |files[currentIndex]|;
              ReadSegment(crc, files[currentIndex]) == if TailReads() then Records(last[..WholeRecords(last, k)])
                  else TornTail
    {
      var whole, k := EncodeAll(written[currentIndex]), |files[currentIndex]|;
      assert whole[..k] == files[currentIndex];
      PrefixReads(crc, written[currentIndex], k);
    }

    /** If every record fits, what is found is what is on disk, or a torn tail. */
    lemma FilesRead()
      requires Valid() && AllFit(Contents())
      ensures Found() == if TailReads() then Records(OnDisk()) else TornTail
    {
      Readable();
      WholeFiles(currentIndex);
      LastFile();
      assert files[..|files| - 1] == files[..currentIndex];
    }

    lemma SyncedOnDisk()
      requires Valid() && buffer == []
      ensures TailReads() && OnDisk() == Contents()
    {
      var last := written[currentIndex];
      assert files[currentIndex] == EncodeAll(last);
      WholeIsAll(last);
      assert last[..|last|] == last;
      assert written[..|written| - 1] == written[..currentIndex];
    }

    /** A synced log is found as the list it stands for exactly when every record fits its header. */
    lemma FoundIsContents()
      requires Valid() && buffer == []
      ensures Found() == Records(Contents()) <==> AllFit(Contents())
    {
      SyncedOnDisk();
      ReadFilesFit(crc, files);
      if AllFit(Contents()) {
        FilesRead();
      }
    }

    /**
     * Read: the records found, from the start index on, whatever the files hold; all of them have
     * their own checksums. If the log's records fit their headers, a synced log gives exactly its
     * records; an unsynced one may miss a tail or fail.
     */
    method Read(start: u64) returns (r: Segment)
      ensures r == if Found().Records? then Records(From(Found().entries, start)) else Found()
      ensures r.Records? ==> AllChecked(crc, r.entries)
      ensures Valid() && AllFit(Contents()) ==> r == if TailReads() then Records(From(OnDisk(), start)) else TornTail
      ensures Valid() && AllFit(Contents()) && buffer == [] ==> r == Records(From(Contents(), start))
    {
      r := ReadEach(crc, files);
      ReadFilesChecked(crc, files);
      if r.Records? {
        FromChecked(crc, r.entries, start);
        var kept := KeepFrom(r.entries, start);
        r := Records(kept);
      }
      if Valid() { ReadMeans(); }
    }

    lemma ReadMeans()
      requires Valid()
      ensures AllFit(Contents()) ==> Found() == if TailReads() then Records(OnDisk()) else TornTail
      ensures buffer == [] ==> TailReads() && OnDisk() == Contents()
    {
      if AllFit(Contents()) {
        FilesRead();
      }
      if buffer == [] {
        SyncedOnDisk();
      }
    }

    method KeepFrom(all: seq<WalEntry>, start: u64) returns (kept: seq<WalEntry>)
      ensures kept == From(all, start)
    {
      kept := [];
      for i := 0 to |all|
        invariant kept == From(all[..i], start)
      {
        assert all[..i + 1][..i] == all[..i];
        if all[i].index >= start {
          kept := kept + [all[i]];
        }
      }
      assert all[..|all|] == all;
    }

    /** ReadAll: a synced log reads back as its list exactly when every record fits its header. */
    method ReadAll() returns (r: Segment)
      requires Valid()
      ensures buffer == [] ==> (r == Records(Contents()) <==> AllFit(Contents()))
      ensures AllFit(Contents()) ==> if r.Records? then r.entries <= Contents() else r == TornTail
    {
      r := Read(0);
      if Found().Records? { FromAll(Found().entries); }
      if buffer == [] { FoundIsContents(); }
      OnDiskIsPrefix();
      ReadMeans();
    }

    lemma OnDiskIsPrefix()
      requires Valid()
      ensures OnDisk() <= Contents()
    {
      assert written[..|written| - 1] == written[..currentIndex];
    }

    /** Truncate: rewrites the records found with an index up to the given one, or reports the read error. */
    method Truncate(index: u64, clock: Clock) returns (ok: bool)
      requires Shaped()
      modifies this
      ensures ok == old(Found()).Records? && (old(Valid()) || ok ==> Valid())
      ensures ok ==> open && buffer == [] && Contents() == StampAll(crc, Upto(old(Found()).entries, index), clock)
      ensures ok ==> old(AllChecked(crc, Found().entries))
      ensures !ok ==> Contents() == old(Contents()) && open == old(open) && buffer == old(buffer) && files == old(files)
      ensures old(Valid() && AllFit(Contents())) ==> ok == old(TailReads())
      ensures old(Valid() && AllFit(Contents())) && ok ==>
              Contents() == StampAll(crc, Upto(old(OnDisk()), index), clock)
      ensures old(Valid() && AllFit(Contents()) && buffer == []) ==>
                ok && Contents() == StampAll(crc, Upto(old(Contents()), index), clock)
    {
      if Valid() { ReadMeans(); }
      ReadFilesChecked(crc, files);
      var all := ReadEach(crc, files);
      if !all.Records? {
        return false;
      }
      var keep := KeepUpto(all.entries, index);
      Rewrite(keep, clock);
      return true;
    }

    /** Closing, removing every segment, and writing the records to keep into new ones. */
    method Rewrite(keep: seq<WalEntry>, clock: Clock)
      requires Shaped()
      modifies this
      ensures Valid() && open && buffer == [] && Contents() == StampAll(crc, keep, clock)
    {
      Close();
      RemoveSegments();
      AppendEach(keep, clock);
      Flush();
    }

    /** Removing every segment and creating segment 0 again. */
    method RemoveSegments()
      modifies this
      ensures Valid() && open && buffer == [] && Contents() == []
    {
      files, currentIndex, open, buffer := [[]], 0, true, [];
      written := [[]];
      assert written[..0] == [];
    }

    method KeepUpto(all: seq<WalEntry>, index: u64) returns (keep: seq<WalEntry>)
      ensures keep == Upto(all, index)
    {
      keep := [];
      for i := 0 to |all|
        invariant keep == Upto(all[..i], index)
      {
        assert all[..i + 1][..i] == all[..i];
        if all[i].index <= index {
          keep := keep + [all[i]];
        }
      }
      assert all[..|all|] == all;
    }
  }

  lemma EncodeAppended(es: seq<WalEntry>, e: WalEntry)
    ensures EncodeAll(es + [e]) == EncodeAll(es) + Encode(e)
  {
    EncodeAllConcat(es, [e]);
    assert EncodeAll([e]) == Encode(e);
  }

  lemma FlattenLast(s: seq<seq<WalEntry>>, last: seq<WalEntry>)
    requires s != []
    ensures Flatten(s[|s| - 1 := last]) == Flatten(s[..|s| - 1]) + last
  {
    var t := s[|s| - 1 := last];
    assert t[..|t| - 1] == s[..|s| - 1];
  }

  /** The bytes up to the end of a record encode the records before it. */
  lemma CutAtRecord(es: seq<WalEntry>, k: nat)
    requires k <= |EncodeAll(es)|
    ensures Leftover(es, k) == 0 ==> EncodeAll(es)[..k] == EncodeAll(es[..WholeRecords(es, k)])
  {
    var j := WholeRecords(es, k);
    WholeRecordsIs(es, k);
    assert es == es[..j] + es[j..];
    EncodeAllConcat(es[..j], es[j..]);
  }

  // ---------------------------------------------------------------- whole runs

  datatype Op =
    | OpAppend(e: WalEntry, now: u64)
    | OpBatch(es: seq<WalEntry>, clock: Clock)
    | OpSync
    | OpReopen
    | OpTruncate(index: u64, clock: Clock)

  /** What an operation does to a plain list; a truncation is asked for only after a sync. */
  function ListOp(crc: Crc, l: seq<WalEntry>, op: Op): seq<WalEntry> {
    match op
    case OpAppend(e, now) => l + [Stamp(crc, e, now)]
    case OpBatch(es, clock) => l + StampAll(crc, es, clock)
    case OpSync => l
    case OpReopen => l
    case OpTruncate(index, clock) => StampAll(crc, Upto(l, index), clock)
  }

  function ListRun(crc: Crc, ops: seq<Op>): seq<WalEntry> {
    if ops == [] then [] else ListOp(crc, ListRun(crc, ops[..|ops| - 1]), ops[|ops| - 1])
  }

  method Perform(w: FileWal, op: Op)
    requires w.Valid() && w.open
    modifies w
    ensures w.Valid() && w.open
    ensures (op.OpTruncate? ==> old(AllFit(w.Contents()))) ==> w.Contents() == ListOp(w.crc, old(w.Contents()), op)
  {
    match op
    case OpAppend(e, now) => w.Append(e, now);
    case OpBatch(es, clock) => w.AppendBatch(es, clock);
    case OpSync => w.Sync();
    case OpReopen =>
      w.Close();
      w.Reopen();
    case OpTruncate(index, clock) =>
      w.Sync();
      var _ := w.Truncate(index, clock);
  }

  /** Truncations, which read everything back, are asked for while every record fits its header. */
  predicate TruncatesReadable(crc: Crc, ops: seq<Op>) {
    forall k :: 0 <= k < |ops| && ops[k].OpTruncate? ==> AllFit(ListRun(crc, ops[..k]))
  }

  /**
   * Any run of the segmented log, whatever its segment size, reads back as the plain list it
   * stands for, exactly when every record in that list fits its header.
   */
  method ReadBack(crc: Crc, segmentSize: nat, ops: seq<Op>) returns (r: Segment)
    ensures TruncatesReadable(crc, ops) ==> (r == Records(ListRun(crc, ops)) <==> AllFit(ListRun(crc, ops)))
  {
    var w := new FileWal(crc, segmentSize);
    for k := 0 to |ops|
      invariant w.Valid() && w.open && fresh(w) && w.crc == crc
      invariant TruncatesReadable(crc, ops) ==> w.Contents() == ListRun(crc, ops[..k])
    {
      assert ops[..k + 1][..k] == ops[..k];
      Perform(w, ops[k]);
    }
    w.Sync();
    assert ops[..|ops|] == ops;
    r := w.ReadAll();
  }
}
