/** The replicated key-value store: pkg/statemachine/kv.go. */
module StateMachine {
  import opened RaftTypes
  import opened Logs

  datatype CommandType = CommandPut | CommandDelete | CommandGet | CommandOther

  datatype Command = Command(kind: CommandType, key: string, value: Bytes)

  datatype Response = Response(success: bool, value: Option<Bytes>)

  datatype Result<+T> = Ok(value: T) | Err

  type Store = map<string, Bytes>

  /** JSON decoding is a parameter: it either yields a command or fails. */
  type Decoder = Bytes -> Option<Command>

  /** The store after a decoded command; undecodable and unknown commands change nothing. */
  function Effect(store: Store, cmd: Option<Command>): Store {
    if cmd.None? then store
    else match cmd.value.kind
      case CommandPut => store[cmd.value.key := cmd.value.value]
      case CommandDelete => store - {cmd.value.key}
      case CommandGet => store
      case CommandOther => store
  }

  /** What Apply answers: an error exactly for undecodable and unknown commands. */
  function Answer(store: Store, cmd: Option<Command>): Result<Response> {
    if cmd.None? then Err
    else match cmd.value.kind
      case CommandPut => Ok(Response(true, Some(cmd.value.value)))
      case CommandDelete => Ok(Response(true, None))
      case CommandGet =>
        if cmd.value.key in store then Ok(Response(true, Some(store[cmd.value.key]))) else Ok(Response(false, None))
      case CommandOther => Err
  }

  /** applyCommittedEntries skips no-op entries and carries on after errors. */
  function ApplyEntry(decode: Decoder, store: Store, e: Entry): Store {
    if e.kind == EntryNoOp then store else Effect(store, decode(e.data))
  }

  /** The store that the entries of a log produce, applied in order. */
  function Replay(decode: Decoder, l: Log): Store {
    if l == [] then map[] else ApplyEntry(decode, Replay(decode, l[..|l| - 1]), l[|l| - 1])
  }

  /** Replicas replay the same store although batches reach followers as normal entries. */
  lemma {:induction false} ReplayCanon(decode: Decoder, l: Log)
    ensures Replay(decode, CanonAll(l)) == Replay(decode, l)
  {
    if l != [] {
      var n := |l| - 1;
      ReplayCanon(decode, l[..n]);
      CanonPrefix(l, n);
      WireTrip(l[n]);
    }
  }

  // ---------------------------------------------------------------- what a log means

  /** The entry carries a put or a delete of the key. */
  predicate Writes(decode: Decoder, e: Entry, key: string) {
    e.kind != EntryNoOp && decode(e.data).Some? &&
    var c := decode(e.data).value;
    c.key == key && (c.kind == CommandPut || c.kind == CommandDelete)
  }

  predicate Puts(decode: Decoder, e: Entry, key: string, v: Bytes) {
    Writes(decode, e, key) && decode(e.data).value.kind == CommandPut && decode(e.data).value.value == v
  }

  /** Entry i puts v under the key and no later entry writes the key. */
  predicate LastPut(decode: Decoder, l: Log, key: string, v: Bytes, i: nat) {
    i < |l| && Puts(decode, l[i], key, v) && forall j :: i < j < |l| ==> !Writes(decode, l[j], key)
  }

  /** A replayed log holds v under a key exactly when the last entry that writes the key puts v. */
  lemma {:induction false} LastWriteWins(decode: Decoder, l: Log, key: string, v: Bytes)
    ensures key in Replay(decode, l) && Replay(decode, l)[key] == v <==> exists i :: LastPut(decode, l, key, v, i)
  {
    if l != [] {
      var n := |l| - 1;
      LastWriteWins(decode, l[..n], key, v);
      if Writes(decode, l[n], key) {
        assert Puts(decode, l[n], key, v) ==> LastPut(decode, l, key, v, n);
      } else {
        forall i: nat ensures LastPut(decode, l, key, v, i) <==> LastPut(decode, l[..n], key, v, i) {
          LastPutSkips(decode, l, key, v, i);
        }
      }
    }
  }

  lemma LastPutSkips(decode: Decoder, l: Log, key: string, v: Bytes, i: nat)
    requires l != [] && !Writes(decode, l[|l| - 1], key)
    ensures LastPut(decode, l, key, v, i) <==> LastPut(decode, l[..|l| - 1], key, v, i)
  {
    var k := l[..|l| - 1];
    assert forall j :: 0 <= j < |k| ==> k[j] == l[j];
  }

  /** The two stores hold the same under every key but one. */
  predicate SameBut(a: Store, b: Store, key: string) {
    (a.Keys - {key} == b.Keys - {key}) && forall k :: k in a && k in b && k != key ==> a[k] == b[k]
  }

  class KVStateMachine {
    const decode: Decoder
    var store: Store

    constructor (decode: Decoder)
      ensures this.decode == decode && store == map[]
    {
      this.decode := decode;
      store := map[];
    }

    /**
     * Apply: a put sets its key, a delete removes it, and nothing else changes the store; puts
     * and deletes succeed, a get finds what is there, other commands are errors.
     */
    method Apply(entry: Bytes) returns (r: Result<Response>)
      modifies this
      ensures store == Effect(old(store), decode(entry)) && r == Answer(old(store), decode(entry))
      ensures decode(entry).None? || decode(entry).value.kind == CommandOther ==> r == Err && store == old(store)
      ensures decode(entry).Some? && decode(entry).value.kind == CommandPut ==>
                var c := decode(entry).value;
                && r == Ok(Response(true, Some(c.value))) && c.key in store && store[c.key] == c.value
                && SameBut(old(store), store, c.key)
      ensures decode(entry).Some? && decode(entry).value.kind == CommandDelete ==>
                var c := decode(entry).value;
                && r == Ok(Response(true, None)) && c.key !in store
                && SameBut(old(store), store, c.key)
      ensures decode(entry).Some? && decode(entry).value.kind == CommandGet ==>
                var c := decode(entry).value;
                && store == old(store) && r.Ok? && (r.value.success <==> c.key in store)
                && r.value.value == (if c.key in store then Some(store[c.key]) else None)
    {
      var cmd := decode(entry);
      if cmd.None? {
        return Err;
      }
      var c := cmd.value;
      match c.kind
      case CommandPut =>
        store := store[c.key := c.value];
        r := Ok(Response(true, Some(c.value)));
      case CommandDelete =>
        store := store - {c.key};
        r := Ok(Response(true, None));
      case CommandGet =>
        if c.key in store {
          r := Ok(Response(true, Some(store[c.key])));
        } else {
          r := Ok(Response(false, None));
        }
      case CommandOther =>
        r := Err;
    }

    method Get(key: string) returns (value: Bytes, ok: bool)
      ensures ok <==> key in store
      ensures ok ==> value == store[key]
    {
      ok := key in store;
      value := if ok then store[key] else [];
    }
  }
}
