/** Operations on a node's log: pkg/raft/types.go, append_entries.go, heartbeat.go and log.go. */
module Logs {
  import opened RaftTypes

  // ---------------------------------------------------------------- lookups

  /** ServerState.LastLogIndexAndTerm reads both fields of the last entry. */
  function LastIndex(l: Log): nat {
    if l == [] then 0 else l[|l| - 1].index
  }

  function LastTerm(l: Log): nat {
    if l == [] then 0 else l[|l| - 1].term
  }

  /** ServerState.GetTermAtIndex: by position, 0 when out of bounds. */
  function TermAt(l: Log, i: nat): nat {
    if i == 0 || i > |l| then 0 else l[i - 1].term
  }

  /** ServerState.GetEntriesFrom. */
  function EntriesFrom(l: Log, start: nat): Log {
    if start == 0 || start > |l| then [] else l[start - 1..]
  }

  /** ServerState.TruncateLogAfter. */
  function TruncateAfter(l: Log, i: nat): Log {
    if i == 0 then [] else if i >= |l| then l else l[..i]
  }

  /** Entries carry the indices 1..n in order. */
  predicate WellIndexed(l: Log) {
    forall i :: 0 <= i < |l| ==> l[i].index == i + 1
  }

  // ---------------------------------------------------------------- the wire

  function KindToWire(k: EntryKind): WireKind {
    match k
    case EntryNormal => WireNormal
    case EntryConfig => WireConfiguration
    case EntryNoOp => WireNoOp
    case EntryBatch => WireNormal
  }

  function KindFromWire(k: WireKind): EntryKind {
    match k
    case WireNormal => EntryNormal
    case WireConfiguration => EntryConfig
    case WireNoOp => EntryNoOp
    case WireUnknown => EntryNormal
  }

  function ToWire(e: Entry): WireEntry {
    WireEntry(e.term, e.index, e.data, KindToWire(e.kind))
  }

  function FromWire(e: WireEntry): Entry {
    Entry(e.term, e.index, e.data, KindFromWire(e.kind))
  }

  /** ConvertToProto. */
  function ToWireAll(l: Log): seq<WireEntry> {
    seq(|l|, i requires 0 <= i < |l| => ToWire(l[i]))
  }

  /** What is left of an entry after a trip over the wire: a batch arrives as a normal entry. */
  function Canon(e: Entry): Entry {
    FromWire(ToWire(e))
  }

  function CanonAll(l: Log): (r: Log)
    ensures |r| == |l|
  {
    seq(|l|, i requires 0 <= i < |l| => Canon(l[i]))
  }

  /**
   * The wire changes the kind of a batch and nothing else, and only once:
   * a received entry survives every later trip unchanged.
   */
  lemma WireTrip(e: Entry)
    ensures Canon(e).term == e.term && Canon(e).index == e.index && Canon(e).data == e.data
    ensures Canon(e) == e <==> e.kind != EntryBatch
    ensures Canon(Canon(e)) == Canon(e)
    ensures Canon(e).kind == EntryNoOp <==> e.kind == EntryNoOp
  {
  }

  lemma CanonPrefix(l: Log, j: nat)
    requires j <= |l|
    ensures CanonAll(l[..j]) == CanonAll(l)[..j]
  {
  }

  // ---------------------------------------------------------------- merging received entries

  /**
   * One round of applyLogEntries. For index 0 the source computes index - 1 on a uint64,
   * which wraps, so its truncation is a no-op and the entry is appended.
   */
  function ApplyOne(l: Log, e: WireEntry): Log {
    if e.index <= |l| then
      if TermAt(l, e.index) != e.term then
        (if e.index == 0 then l else TruncateAfter(l, e.index - 1)) + [FromWire(e)]
      else
        l
    else
      l + [FromWire(e)]
  }

  /** applyLogEntries, as the state after each prefix of the request's entries. */
  function ApplyEntries(l: Log, es: seq<WireEntry>): Log {
    if es == [] then l else ApplyOne(ApplyEntries(l, es[..|es| - 1]), es[|es| - 1])
  }

  /** The entries of a request continue a log at `prev`: their indices are prev+1, prev+2, ... */
  predicate Consecutive(es: seq<WireEntry>, prev: nat) {
    forall i :: 0 <= i < |es| ==> es[i].index == prev + i + 1
  }

  function Received(es: seq<WireEntry>): Log {
    seq(|es|, i requires 0 <= i < |es| => FromWire(es[i]))
  }

  /** Both logs hold an entry at position k, the same up to the wire's renaming of batches. */
  predicate SameEntry(a: Log, b: Log, k: nat) {
    k < |a| && k < |b| && Canon(a[k]) == Canon(b[k])
  }

  /** How many of the entries that follow `prev` the log holds already, term by term. */
  function Held(l: Log, es: seq<WireEntry>, prev: nat): (k: nat)
    ensures k <= |es|
  {
    if es == [] then 0
    else
      var k := Held(l, es[..|es| - 1], prev);
      if k == |es| - 1 && prev + k < |l| && l[prev + k].term == es[k].term then k + 1 else k
  }

  lemma {:induction false} HeldIs(l: Log, es: seq<WireEntry>, prev: nat)
    requires prev <= |l|
    ensures var k := Held(l, es, prev);
            && prev + k <= |l|
            && (forall i :: 0 <= i < k ==> l[prev + i].term == es[i].term)
            && (k < |es| && prev + k < |l| ==> l[prev + k].term != es[k].term)
  {
    if es != [] {
      HeldIs(l, es[..|es| - 1], prev);
    }
  }

  /**
   * What the merge amounts to: nothing when the log holds every entry already; otherwise
   * the log up to the first missing or conflicting entry, continued by the request.
   */
  function Merge(l: Log, es: seq<WireEntry>, prev: nat): Log
    requires prev <= |l|
  {
    var k := Held(l, es, prev);
    HeldIs(l, es, prev);
    if k == |es| then l else l[..prev + k] + Received(es[k..])
  }

  lemma {:induction false} ApplyEntriesIsMerge(l: Log, es: seq<WireEntry>, prev: nat)
    requires prev <= |l| && Consecutive(es, prev)
    ensures ApplyEntries(l, es) == Merge(l, es, prev)
  {
    if es != [] {
      var n := |es| - 1;
      ApplyEntriesIsMerge(l, es[..n], prev);
      if Held(l, es[..n], prev) == n {
        LastRound(l, es[n], prev + n);
        assert Received(es[n..]) == [FromWire(es[n])];
      } else {
        MergeContinues(l, es, prev);
      }
    }
  }

  lemma MergeContinues(l: Log, es: seq<WireEntry>, prev: nat)
    requires prev <= |l| && es != [] && Consecutive(es, prev) && Held(l, es[..|es| - 1], prev) < |es| - 1
    ensures Merge(l, es, prev) == ApplyOne(Merge(l, es[..|es| - 1], prev), es[|es| - 1])
  {
    var n := |es| - 1;
    var k := Held(l, es[..n], prev);
    HeldIs(l, es[..n], prev);
    ReceivedSplit(es, k);
    assert |Merge(l, es[..n], prev)| == prev + n;
    LastRound(Merge(l, es[..n], prev), es[n], prev + n);
  }

  lemma ReceivedSplit(es: seq<WireEntry>, k: nat)
    requires k < |es|
    ensures Received(es[k..]) == Received(es[..|es| - 1][k..]) + [FromWire(es[|es| - 1])]
  {
  }

  lemma LastRound(l: Log, e: WireEntry, i: nat)
    requires i <= |l| && e.index == i + 1
    ensures ApplyOne(l, e) == if i < |l| && l[i].term == e.term then l else l[..i] + [FromWire(e)]
  {
  }

  /** Merging keeps the indices 1..n and reaches the end of the request. */
  lemma MergeWellIndexed(l: Log, es: seq<WireEntry>, prev: nat)
    requires prev <= |l| && Consecutive(es, prev) && WellIndexed(l)
    ensures WellIndexed(Merge(l, es, prev)) && |Merge(l, es, prev)| >= prev + |es|
  {
    HeldIs(l, es, prev);
  }

  // ---------------------------------------------------------------- conflict hint

  /** The loop of processAppendEntries: walk back over the entries of term t. */
  function WalkBack(l: Log, i: nat, t: nat): nat {
    if i > 0 && TermAt(l, i) == t then WalkBack(l, i - 1, t) else i
  }

  /**
   * The hint is the first index of the run of entries of the conflicting term that ends
   * at i: the run starts there, and the entry before it belongs to another term.
   */
  lemma {:induction false} WalkBackFindsRun(l: Log, i: nat, t: nat)
    requires i <= |l|
    ensures WalkBack(l, i, t) <= i
    ensures forall j :: WalkBack(l, i, t) < j <= i ==> TermAt(l, j) == t
    ensures WalkBack(l, i, t) > 0 ==> TermAt(l, WalkBack(l, i, t)) != t
  {
    if i > 0 && TermAt(l, i) == t {
      WalkBackFindsRun(l, i - 1, t);
    }
  }
}
