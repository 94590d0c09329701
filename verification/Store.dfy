/** The keyed store of pkg/storage/store.go: metadata and a log bucket ordered by its byte keys. */
module Store {
  import opened RaftTypes
  import BE = BigEndian

  /** encoding/json: log entries to bytes and back, and whether bytes decode as snapshot metadata. */
  datatype Json = Json(marshal: Entry -> Bytes, unmarshal: Bytes -> Option<Entry>, isSnapshot: Bytes -> bool)

  /** What is asked of it: decoding undoes encoding. */
  ghost predicate Lossless(json: Json) {
    forall e :: json.unmarshal(json.marshal(e)) == Some(e)
  }

  predicate InRange(e: Entry) {
    e.index < 0x1_0000_0000_0000_0000 && e.term < 0x1_0000_0000_0000_0000
  }

  // ---------------------------------------------------------------- keys

  function Key(i: nat): (k: Bytes)
    ensures |k| == 8
  {
    BE.Put(i, 8)
  }

  lemma KeyReads(i: u64)
    ensures BE.Get(Key(i)) == i
  {
    BE.Widths();
    BE.GetPut(i, 8);
  }

  lemma KeyOf(k: Bytes)
    requires |k| == 8
    ensures Key(BE.Get(k)) == k
  {
    BE.PutGet(k);
  }

  lemma LaterKey(k: Bytes, x: Bytes)
    requires |k| == 8 && |x| == 8 && BE.Get(k) <= BE.Get(x) && k != x
    ensures BE.Get(k) < BE.Get(x)
  {
    KeyOf(k);
    KeyOf(x);
  }

  predicate EightBytes(keys: set<Bytes>) {
    forall k :: k in keys ==> |k| == 8
  }

  /** A cursor's First, and its Next once the keys already visited are taken away: the least key. */
  method Least(keys: set<Bytes>) returns (k: Bytes)
    requires keys != {} && EightBytes(keys)
    ensures k in keys && forall x :: x in keys ==> BE.Get(k) <= BE.Get(x)
  {
    k :| k in keys;
    var rest := keys - {k};
    while rest != {}
      invariant rest <= keys && k in keys
      invariant forall x :: x in keys && x !in rest ==> BE.Get(k) <= BE.Get(x)
      decreases rest
    {
      var x :| x in rest;
      rest := rest - {x};
      BE.BelowIsLess(x, k);
      if BE.Below(x, k) {
        k := x;
      }
    }
  }

  // ---------------------------------------------------------------- the bucket

  /** The bucket holds the encoding of each of these entries under its index, and nothing else. */
  ghost predicate Holds(json: Json, log: map<Bytes, Bytes>, entries: map<nat, Entry>) {
    && (forall i {:trigger entries[i]} :: i in entries ==>
          InRange(entries[i]) && entries[i].index == i && Key(i) in log && log[Key(i)] == json.marshal(entries[i]))
    && (forall k {:trigger k in log} :: k in log ==> |k| == 8 && BE.Get(k) in entries)
  }

  /** Writes entries one after the other, a later one replacing an earlier one. */
  function PutAll(m: map<nat, Entry>, es: Log): map<nat, Entry> {
    if es == [] then m else PutAll(m, es[..|es| - 1])[es[|es| - 1].index := es[|es| - 1]]
  }

  /** Entry i of the list is the last one with its index. */
  predicate LastAt(es: Log, index: nat, i: nat) {
    i < |es| && es[i].index == index && forall j :: i < j < |es| ==> es[j].index != index
  }

  /** Under an index is the last entry of the list that has it. */
  lemma {:induction false} PutAllLast(m: map<nat, Entry>, es: Log, index: nat, i: nat)
    requires LastAt(es, index, i)
    ensures index in PutAll(m, es) && PutAll(m, es)[index] == es[i]
  {
    var n := |es| - 1;
    if i < n {
      assert es[..n][i] == es[i] && LastAt(es[..n], index, i);
      PutAllLast(m, es[..n], index, i);
    }
  }

  /** If none has it, what was there stays. */
  lemma {:induction false} PutAllOthers(m: map<nat, Entry>, es: Log, index: nat)
    requires forall j :: 0 <= j < |es| ==> es[j].index != index
    ensures index in PutAll(m, es) <==> index in m
    ensures index in m ==> PutAll(m, es)[index] == m[index]
  {
    if es != [] {
      PutAllOthers(m, es[..|es| - 1], index);
    }
  }

  /** Exactly the entries below the index are kept. */
  lemma KeepIs(m: map<nat, Entry>, index: nat, i: nat)
    ensures i in Keep(m, index) <==> i in m && i < index
    ensures i in Keep(m, index) ==> Keep(m, index)[i] == m[i]
  {
  }

  function Keep(m: map<nat, Entry>, index: nat): map<nat, Entry> {
    map i | i in m && i < index :: m[i]
  }

  predicate Increasing(es: Log) {
    forall i, j :: 0 <= i < j < |es| ==> es[i].index < es[j].index
  }

  lemma IncreasingAppend(es: Log, e: Entry)
    requires Increasing(es) && forall x :: x in es ==> x.index < e.index
    ensures Increasing(es + [e])
  {
  }

  lemma HoldsPut(json: Json, log: map<Bytes, Bytes>, entries: map<nat, Entry>, e: Entry)
    requires Holds(json, log, entries) && InRange(e)
    ensures Holds(json, log[Key(e.index) := json.marshal(e)], entries[e.index := e])
  {
    var log', entries' := log[Key(e.index) := json.marshal(e)], entries[e.index := e];
    KeyReads(e.index);
    forall i | i in entries'
      ensures InRange(entries'[i]) && entries'[i].index == i && Key(i) in log'
              && log'[Key(i)] == json.marshal(entries'[i])
    {
      KeyReads(i);
    }
    forall k | k in log' ensures |k| == 8 && BE.Get(k) in entries' {
      assert k == Key(e.index) || k in log;
    }
  }

  lemma HoldsKeep(json: Json, log: map<Bytes, Bytes>, entries: map<nat, Entry>, index: nat, less: map<Bytes, Bytes>)
    requires Holds(json, log, entries)
    requires forall k :: k in less <==> k in log && BE.Get(k) < index
    requires forall k :: k in less ==> less[k] == log[k]
    ensures Holds(json, less, Keep(entries, index))
  {
    forall i | i in entries ensures BE.Get(Key(i)) == i {
      KeyReads(i);
    }
  }

  class BoltStore {
    const json: Json
    var termBytes: Option<Bytes>
    var voteBytes: Option<Bytes>
    /** The encoded metadata of the latest snapshot. */
    var snapshot: Option<Bytes>
    var log: map<Bytes, Bytes>
    /** The entries the bucket stands for. */
    ghost var entries: map<nat, Entry>

    ghost predicate Valid()
      reads this
    {
      Lossless(json) && Holds(json, log, entries)
    }

    /** Whether LoadSnapshot succeeds: there is none, or it decodes. */
    predicate SnapshotLoads()
      reads this
    {
      snapshot.Some? ==> json.isSnapshot(snapshot.value)
    }

    /** The term and vote a load would find. */
    function Term(): nat
      reads this
    {
      if termBytes.Some? then BE.Get(termBytes.value) else 0
    }

    function Vote(): Bytes
      reads this
    {
      if voteBytes.Some? then voteBytes.value else []
    }

    constructor (json: Json)
      requires Lossless(json)
      ensures Valid() && this.json == json && entries == map[] && Term() == 0 && Vote() == []
    {
      this.json := json;
      termBytes, voteBytes, snapshot, log := None, None, None, map[];
      entries := map[];
    }

    /** SaveMetadata: what was saved is what a load finds. */
    method SaveMetadata(term: u64, vote: Bytes)
      modifies this`termBytes, this`voteBytes
      ensures Term() == term && Vote() == vote
    {
      termBytes := Some(BE.Put(term, 8));
      voteBytes := Some(vote);
      BE.Widths();
      BE.GetPut(term, 8);
    }

    /** SaveSnapshot. */
    method SaveSnapshot(data: Bytes)
      modifies this`snapshot
      ensures snapshot == Some(data)
    {
      snapshot := Some(data);
    }

    /** SaveLogEntries. */
    method SaveLogEntries(es: Log)
      requires Valid() && forall i :: 0 <= i < |es| ==> InRange(es[i])
      modifies this`log, this`entries
      ensures Valid() && entries == PutAll(old(entries), es)
    {
      for i := 0 to |es|
        invariant Valid() && entries == PutAll(old(entries), es[..i])
      {
        assert es[..i + 1][..i] == es[..i];
        HoldsPut(json, log, entries, es[i]);
        log := log[Key(es[i].index) := json.marshal(es[i])];
        entries := entries[es[i].index := es[i]];
      }
      assert es[..|es|] == es;
    }

    /** LoadAllLogEntries: every stored entry once, in increasing order of index. */
    method LoadAllLogEntries() returns (es: Log)
      requires Valid()
      ensures Increasing(es)
      ensures forall e :: e in es <==> e.index in entries && entries[e.index] == e
    {
      es := [];
      var rest := log.Keys;
      while rest != {}
        invariant Loaded(rest, es)
        decreases rest
      {
        var k := Least(rest);
        var e := Decoded(k);
        NextIs(rest, k, e, es);
        es := es + [e];
        rest := rest - {k};
      }
    }

    /** The cursor has read everything but the keys in rest, all of which come later. */
    ghost predicate Loaded(rest: set<Bytes>, es: Log)
      reads this
    {
      && rest <= log.Keys && Increasing(es)
      && (forall e :: e in es <==> e.index in entries && entries[e.index] == e && Key(e.index) !in rest)
      && (forall e, k :: e in es && k in rest ==> e.index < BE.Get(k))
    }

    /** json.Unmarshal of the value under a key of the bucket. */
    method Decoded(k: Bytes) returns (e: Entry)
      requires Valid() && k in log
      ensures e.index == BE.Get(k) && e.index in entries && entries[e.index] == e && Key(e.index) == k
    {
      KeyOf(k);
      e := json.unmarshal(log[k]).value;
    }

    lemma NextIs(rest: set<Bytes>, k: Bytes, e: Entry, es: Log)
      requires Valid() && Loaded(rest, es) && k in rest && (forall x :: x in rest ==> BE.Get(k) <= BE.Get(x))
      requires e.index == BE.Get(k) && e.index in entries && entries[e.index] == e && Key(e.index) == k
      ensures Loaded(rest - {k}, es + [e])
    {
      forall x: Entry ensures x in es + [e] <==>
          x.index in entries && entries[x.index] == x && Key(x.index) !in rest - {k} {
        NextMember(rest, k, e, es, x);
      }
      NextOrder(rest, k, e, es);
    }

    lemma NextOrder(rest: set<Bytes>, k: Bytes, e: Entry, es: Log)
      requires Valid() && Loaded(rest, es) && k in rest && e.index == BE.Get(k)
               && (forall x :: x in rest ==> BE.Get(k) <= BE.Get(x))
      ensures Increasing(es + [e]) && (forall x, y :: x in es + [e] && y in rest - {k} ==> x.index < BE.Get(y))
    {
      assert forall x :: x in es ==> x.index < BE.Get(k);
      IncreasingAppend(es, e);
      forall y | y in rest - {k} ensures e.index < BE.Get(y) {
        LaterKey(k, y);
      }
    }

    lemma NextMember(rest: set<Bytes>, k: Bytes, e: Entry, es: Log, x: Entry)
      requires Valid() && Loaded(rest, es) && k in rest
      requires e.index == BE.Get(k) && e.index in entries && entries[e.index] == e && Key(e.index) == k
      ensures x in es + [e] <==> x.index in entries && entries[x.index] == x && Key(x.index) !in rest - {k}
    {
      if x.index in entries && entries[x.index] == x && Key(x.index) == k {
        KeyReads(x.index);
      }
    }

    /** DeleteLogEntriesFrom: collects the keys from the start key on, then deletes them. */
    method DeleteLogEntriesFrom(index: u64)
      requires Valid()
      modifies this`log, this`entries
      ensures Valid() && entries == Keep(old(entries), index)
    {
      var doomed := KeysFrom(Key(index));
      KeyReads(index);
      DeleteKeys(doomed);
      HoldsKeep(json, old(log), entries, index, log);
      entries := Keep(entries, index);
    }

    method DeleteKeys(doomed: seq<Bytes>)
      modifies this`log
      ensures forall k :: k in log <==> k in old(log) && k !in doomed
      ensures forall k :: k in log ==> log[k] == old(log)[k]
    {
      for i := 0 to |doomed|
        invariant forall k :: k in log <==> k in old(log) && k !in doomed[..i]
        invariant forall k :: k in log ==> log[k] == old(log)[k]
      {
        assert doomed[..i + 1] == doomed[..i] + [doomed[i]];
        log := log - {doomed[i]};
      }
      assert doomed[..|doomed|] == doomed;
    }

    method KeysFrom(start: Bytes) returns (keys: seq<Bytes>)
      requires Valid() && |start| == 8
      ensures forall k :: k in keys <==> k in log && BE.Get(start) <= BE.Get(k)
    {
      var rest := set k | k in log && !BE.Below(k, start);
      keys := [];
      forall k | k in log ensures BE.Below(k, start) <==> BE.Get(k) < BE.Get(start) {
        BE.BelowIsLess(k, start);
      }
      while rest != {}
        invariant rest <= log.Keys
        invariant forall k :: k in keys || k in rest <==> k in log && BE.Get(start) <= BE.Get(k)
        decreases rest
      {
        var k := Least(rest);
        keys := keys + [k];
        rest := rest - {k};
      }
    }
  }

  lemma SameLast(a: Log, b: Log)
    requires a != [] && b != [] && Increasing(a) && Increasing(b) && forall e :: e in a <==> e in b
    ensures a[|a| - 1] == b[|b| - 1]
  {
    var x, y := a[|a| - 1], b[|b| - 1];
    assert x in b && y in a;
  }

  /** All entries but the last are those that differ from it. */
  lemma ButLast(a: Log)
    requires a != [] && Increasing(a)
    ensures Increasing(a[..|a| - 1])
    ensures var a', x := a[..|a| - 1], a[|a| - 1]; forall e :: e in a' <==> e in a && e != x
  {
    var n := |a| - 1;
    assert a == a[..n] + [a[n]];
    assert a[n] !in a[..n];
  }

  lemma SameButLast(a: Log, b: Log)
    requires a != [] && Increasing(a) && Increasing(b) && forall e :: e in a <==> e in b
    ensures b != [] && a[|a| - 1] == b[|b| - 1]
    ensures Increasing(a[..|a| - 1]) && Increasing(b[..|b| - 1])
    ensures var a', b' := a[..|a| - 1], b[..|b| - 1]; forall e :: e in a' <==> e in b'
  {
    assert a[0] in b;
    SameLast(a, b);
    ButLast(a);
    ButLast(b);
    var a', b' := a[..|a| - 1], b[..|b| - 1];
    forall e ensures e in a' <==> e in b' {
      assert e in a' <==> e in a && e != a[|a| - 1];
      assert e in b' <==> e in b && e != b[|b| - 1];
    }
  }

  /** The order of loading determines the list: two increasing lists of the same entries are equal. */
  lemma {:induction false} IncreasingUnique(a: Log, b: Log)
    requires Increasing(a) && Increasing(b) && forall e :: e in a <==> e in b
    ensures a == b
  {
    if b != [] { assert b[0] in a; }
    if a != [] {
      SameButLast(a, b);
      IncreasingUnique(a[..|a| - 1], b[..|b| - 1]);
    }
  }
}
