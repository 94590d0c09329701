/** Checkpoints and crash recovery: pkg/raft/recovery.go. */
module Recovery {
  import opened RaftTypes
  import opened Logs
  import opened Wal
  import opened Store
  import opened Persistence

  /** The persistent part of a node. */
  class ServerState {
    var currentTerm: nat
    var votedFor: Bytes
    var log: Log

    constructor ()
    {
      currentTerm, votedFor, log := 0, [], [];
    }

    method Restore(term: nat, vote: Bytes, entries: Log)
      modifies this
      ensures currentTerm == term && votedFor == vote && log == entries
    {
      currentTerm, votedFor, log := term, vote, entries;
    }
  }

  // ---------------------------------------------------------------- which stores recover

  /** The stored indices are 1..n for some n. */
  predicate Gapless(m: map<nat, Entry>) {
    0 !in m && forall i :: i in m && i > 1 ==> i - 1 in m
  }

  /** The entries of the map in increasing order of index. */
  ghost predicate Lists(m: map<nat, Entry>, l: Log) {
    && Increasing(l)
    && (forall e :: e in l <==> e.index in m && m[e.index] == e)
  }

  predicate Keyed(m: map<nat, Entry>) {
    forall i :: i in m ==> m[i].index == i
  }

  /** A store whose indices have no gap is listed with the indices 1..n. */
  lemma {:induction false} GaplessPrefix(m: map<nat, Entry>, l: Log, n: nat)
    requires Lists(m, l) && Keyed(m) && Gapless(m) && n <= |l|
    ensures forall i :: 0 <= i < n ==> l[i].index == i + 1
  {
    if n > 0 {
      GaplessPrefix(m, l, n - 1);
      var e := l[n - 1];
      assert e in l;
      assert n > 1 ==> l[n - 2].index < e.index;
      if e.index > n {
        NoRoom(m, l, n);
      }
    }
  }

  lemma NoRoom(m: map<nat, Entry>, l: Log, n: nat)
    requires Lists(m, l) && Keyed(m) && 0 < n <= |l| && l[n - 1].index > n
    requires forall i :: 0 <= i < n - 1 ==> l[i].index == i + 1
    ensures !Gapless(m)
  {
    var e := l[n - 1];
    assert e in l;
    forall i | i in m ensures i != e.index - 1 {
      assert m[i] in l;
    }
    assert e.index in m && e.index - 1 !in m;
  }

  /** The validation of a recovered log accepts exactly the stores whose indices are 1..n. */
  lemma AcceptedIffGapless(m: map<nat, Entry>, l: Log)
    requires Lists(m, l) && Keyed(m)
    ensures WellIndexed(l) <==> Gapless(m)
  {
    if Gapless(m) {
      GaplessPrefix(m, l, |l|);
    }
    if WellIndexed(l) {
      forall i | i in m ensures i > 0 && (i > 1 ==> i - 1 in m) {
        assert m[i] in l;
        var j :| 0 <= j < |l| && l[j] == m[i];
        assert j > 0 ==> l[j - 1] in l;
      }
    }
  }

  // ---------------------------------------------------------------- what a checkpoint leaves in the store

  /** The store held nothing but the indices of a log of this length. */
  predicate Within(m: map<nat, Entry>, n: nat) {
    forall i :: i in m ==> 1 <= i <= n
  }

  lemma {:induction false} PutAllGrows(m: map<nat, Entry>, l: Log)
    ensures m.Keys <= PutAll(m, l).Keys
  {
    if l != [] { PutAllGrows(m, l[..|l| - 1]); }
  }

  lemma {:induction false} PutAllKeyed(m: map<nat, Entry>, l: Log)
    requires Keyed(m)
    ensures Keyed(PutAll(m, l))
  {
    if l != [] { PutAllKeyed(m, l[..|l| - 1]); }
  }

  lemma {:induction false} PutAllIs(m: map<nat, Entry>, l: Log, i: nat)
    requires WellIndexed(l)
    ensures i in PutAll(m, l) <==> i in m || 1 <= i <= |l|
    ensures 1 <= i <= |l| ==> PutAll(m, l)[i] == l[i - 1]
  {
    if l != [] { PutAllIs(m, l[..|l| - 1], i); }
  }

  /** What recovery finds after a checkpoint is the log exactly when the log is 1..n and nothing else was stored. */
  lemma CheckpointRestores(m: map<nat, Entry>, l: Log, found: Log)
    requires Keyed(m) && Lists(PutAll(m, l), found)
    ensures WellIndexed(found) && found == l <==> WellIndexed(l) && Within(m, |l|)
  {
    if WellIndexed(found) && found == l {
      RestoredWithin(m, l);
    }
    if WellIndexed(l) && Within(m, |l|) {
      ListedIsLog(m, l);
      IncreasingUnique(found, l);
    }
  }

  lemma RestoredWithin(m: map<nat, Entry>, l: Log)
    requires Keyed(m) && Lists(PutAll(m, l), l) && WellIndexed(l)
    ensures Within(m, |l|)
  {
    PutAllGrows(m, l);
    PutAllKeyed(m, l);
    forall i | i in m ensures 1 <= i <= |l| {
      assert PutAll(m, l)[i] in l;
    }
  }

  lemma ListedIsLog(m: map<nat, Entry>, l: Log)
    requires WellIndexed(l) && Within(m, |l|)
    ensures Lists(PutAll(m, l), l)
  {
    forall e: Entry ensures e in l <==> e.index in PutAll(m, l) && PutAll(m, l)[e.index] == e {
      PutAllIs(m, l, e.index);
    }
  }

  // ---------------------------------------------------------------- the operations

  /** CreateCheckpoint. */
  method CreateCheckpoint(p: PersistenceLayer, node: ServerState, now: u64, clock: Clock)
    requires p.Ready() && node.currentTerm < 0x1_0000_0000_0000_0000
    requires AllInRange(node.log)
    modifies p.store, p.wal
    ensures p.Ready() && (old(p.Agrees()) ==> p.Agrees()) && p.store.snapshot == old(p.store.snapshot)
    ensures p.StoreImage() == Image(node.currentTerm, node.votedFor, PutAll(old(p.store.entries), node.log))
  {
    p.PersistMetadata(node.currentTerm, node.votedFor, now);
    if |node.log| > 0 {
      p.PersistLogEntries(node.log, clock);
    }
    p.wal.Sync();
  }

  /**
   * RecoverState: loads into the node first and checks afterwards; ok exactly when the snapshot
   * metadata, if there is any, decodes and the stored indices are 1..n. What the metadata says
   * has no effect.
   */
  method RecoverState(p: PersistenceLayer, node: ServerState) returns (ok: bool)
    requires p.Ready()
    modifies node
    ensures node.currentTerm == p.store.Term() && node.votedFor == p.store.Vote() && Lists(p.store.entries, node.log)
    ensures ok <==> p.store.SnapshotLoads() && Gapless(p.store.entries)
    ensures ok <==> p.store.SnapshotLoads() && WellIndexed(node.log)
  {
    var term, vote, es := Load(p);
    var loads := p.store.SnapshotLoads();
    node.Restore(term, vote, es);
    if !loads {
      return false;
    }
    ok := ValidateRecoveredState(es);
  }

  method Load(p: PersistenceLayer) returns (term: nat, vote: Bytes, es: Log)
    requires p.Ready()
    ensures term == p.store.Term() && vote == p.store.Vote() && Lists(p.store.entries, es)
    ensures WellIndexed(es) <==> Gapless(p.store.entries)
  {
    term, vote := p.store.Term(), p.store.Vote();
    es := p.LoadLogEntries();
    AcceptedIffGapless(p.store.entries, es);
  }

  /** The loop of validateRecoveredState. */
  method ValidateRecoveredState(log: Log) returns (ok: bool)
    ensures ok <==> WellIndexed(log)
  {
    var expected := 1;
    for i := 0 to |log|
      invariant expected == i + 1
      invariant forall j :: 0 <= j < i ==> log[j].index == j + 1
    {
      if log[i].index != expected {
        return false;
      }
      expected := expected + 1;
    }
    return true;
  }

  /**
   * A node checkpointed and recovered into a new one has its term and vote back, and its log exactly
   * on the stated condition.
   */
  method CheckpointThenRecover(p: PersistenceLayer, node: ServerState, now: u64, clock: Clock)
      returns (ok: bool, restored: ServerState)
    requires p.Ready() && node.currentTerm < 0x1_0000_0000_0000_0000
    requires AllInRange(node.log)
    modifies p.store, p.wal
    ensures restored.currentTerm == node.currentTerm && restored.votedFor == node.votedFor
    ensures ok && restored.log == node.log <==>
              WellIndexed(node.log) && Within(old(p.store.entries), |node.log|) && old(p.store.SnapshotLoads())
    ensures ok <==> Gapless(PutAll(old(p.store.entries), node.log)) && old(p.store.SnapshotLoads())
  {
    ghost var before := p.store.entries;
    CreateCheckpoint(p, node, now, clock);
    restored := new ServerState();
    ok := RecoverState(p, restored);
    CheckpointRestores(before, node.log, restored.log);
  }
}
