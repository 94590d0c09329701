/** Data model shared by the Raft modules: entries, roles, wire messages. */
module RaftTypes {

  /** Node identifiers. The source uses distinct non-empty strings and "" for "nobody". */
  type NodeId = nat

  newtype byte = x: int | 0 <= x < 256

  type Bytes = seq<byte>

  type u32 = x: nat | x < 0x1_0000_0000

  type u64 = x: nat | x < 0x1_0000_0000_0000_0000

  datatype Option<+T> = None | Some(value: T)

  /** pkg/raft/types.go EntryType. */
  datatype EntryKind = EntryNormal | EntryConfig | EntryNoOp | EntryBatch

  /** The entry types the protobuf schema knows: there is no batch type on the wire. */
  datatype WireKind = WireNormal | WireConfiguration | WireNoOp | WireUnknown

  datatype Entry = Entry(term: nat, index: nat, data: Bytes, kind: EntryKind)

  datatype WireEntry = WireEntry(term: nat, index: nat, data: Bytes, kind: WireKind)

  type Log = seq<Entry>

  datatype Role = Follower | Candidate | Leader

  predicate Distinct(s: seq<NodeId>) {
    forall i, j :: 0 <= i < j < |s| ==> s[i] != s[j]
  }

  function Min(a: nat, b: nat): nat { if a < b then a else b }

  function Max(a: nat, b: nat): nat { if a > b then a else b }
}
