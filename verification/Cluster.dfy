/**
 * A cluster of nodes as a step system. Messages stay in the network for ever, so they may be
 * delivered late, in any order, repeatedly or never; a timeout is always possible.
 */
module Cluster {
  import opened RaftTypes
  import opened StateMachine
  import opened NodeSpec

  /** Replies carry the request they answer, as the paired RPC response does. */
  datatype Msg =
    | VoteAsk(to: NodeId, vreq: VoteRequest)
    | VoteTell(from: NodeId, vreq: VoteRequest, vresp: VoteReply)
    | AppendAsk(to: NodeId, areq: AppendRequest, heartbeat: bool)
    | AppendTell(from: NodeId, areq: AppendRequest, heartbeat: bool, aresp: AppendReply)

  datatype State = State(nodes: map<NodeId, NodeState>, net: set<Msg>)

  datatype Step =
    | Timeout(v: NodeId)
    | Submit(v: NodeId, data: Bytes, kind: EntryKind)
    | Send(v: NodeId, p: NodeId, maxEntries: nat)
    | Beat(v: NodeId, p: NodeId)
    | Deliver(m: Msg)
    | Apply(v: NodeId)

  // ---------------------------------------------------------------- initial states

  /** `peers` lists every other server once. */
  predicate PeersOk(servers: set<NodeId>, v: NodeId, peers: seq<NodeId>) {
    Distinct(peers) && v !in peers && v in servers && (forall p :: p in peers ==> p in servers)
    && |peers| + 1 == |servers|
  }

  predicate Init(c: State) {
    && c.net == {}
    && forall v :: v in c.nodes ==>
       c.nodes[v] == NewNode(v, c.nodes[v].peers) && PeersOk(c.nodes.Keys, v, c.nodes[v].peers)
  }

  // ---------------------------------------------------------------- steps

  function Recipient(m: Msg): NodeId {
    match m
    case VoteAsk(to, _) => to
    case VoteTell(_, req, _) => req.cand
    case AppendAsk(to, _, _) => to
    case AppendTell(_, req, _, _) => req.leader
  }

  /** Leaders send to their peers; being leader is checked together with building the request. */
  predicate MaySend(c: State, v: NodeId, p: NodeId) {
    v in c.nodes && c.nodes[v].role == Leader && p in c.nodes[v].peers
  }

  predicate Enabled(c: State, st: Step) {
    match st
    case Timeout(v) => v in c.nodes
    case Submit(v, _, _) => v in c.nodes
    case Send(v, p, maxEntries) => MaySend(c, v, p) && maxEntries >= 1
    case Beat(v, p) => MaySend(c, v, p)
    case Deliver(m) => m in c.net && Recipient(m) in c.nodes
    case Apply(v) => v in c.nodes
  }

  /** The node that moves, its new state, and what it sends. */
  function Move(rules: Rules, decode: Decoder, c: State, st: Step): (NodeId, NodeState, set<Msg>)
    requires Enabled(c, st)
  {
    match st
    case Timeout(v) =>
      var s := BecomeCandidate(c.nodes[v]);
      (v, s, set p | p in s.peers :: VoteAsk(p, AskForVote(s)))
    case Submit(v, data, kind) => (v, AppendLocal(c.nodes[v], data, kind), {})
    case Send(v, p, maxEntries) => (v, c.nodes[v], {AppendAsk(p, BuildAppend(c.nodes[v], p, maxEntries), false)})
    case Beat(v, p) => (v, c.nodes[v], {AppendAsk(p, BuildHeartbeat(c.nodes[v], p), true)})
    case Apply(v) => (v, ApplyCommitted(decode, c.nodes[v]), {})
    case Deliver(m) =>
      var v := Recipient(m);
      var s := c.nodes[v];
      match m
      case VoteAsk(_, req) =>
        var (s', resp) := HandleVoteRequest(s, req);
        (v, s', {VoteTell(v, req, resp)})
      case VoteTell(from, req, resp) => (v, HandleVoteReply(rules, s, req, from, resp), {})
      case AppendAsk(_, req, heartbeat) =>
        var (s', resp) := HandleAppend(rules, s, req);
        (v, s', {AppendTell(v, req, heartbeat, resp)})
      case AppendTell(from, req, heartbeat, resp) =>
        (v, if heartbeat then HandleHeartbeatReply(s, from, req.term, resp)
            else HandleAppendReply(s, from, req, resp), {})
  }

  function Moved(c: State, v: NodeId, s: NodeState, out: set<Msg>): State {
    State(c.nodes[v := s], c.net + out)
  }

  lemma MovedTwice(c: State, v: NodeId, s1: NodeState, s2: NodeState, out: set<Msg>)
    requires v in c.nodes
    ensures Moved(Moved(c, v, s1, {}), v, s2, out) == Moved(c, v, s2, out)
    ensures Moved(c, v, s1, {}).nodes.Keys == c.nodes.Keys && Moved(c, v, s1, {}).net == c.net
    ensures Moved(c, v, c.nodes[v], {}) == c
  {
    assert c.nodes[v := s1][v := s2] == c.nodes[v := s2];
    assert c.nodes[v := c.nodes[v]] == c.nodes;
  }

  /** A step that is not enabled changes nothing. */
  function Do(rules: Rules, decode: Decoder, c: State, st: Step): State {
    if !Enabled(c, st) then c
    else
      var (v, s, out) := Move(rules, decode, c, st);
      Moved(c, v, s, out)
  }

  lemma DoKeepsServers(rules: Rules, decode: Decoder, c: State, st: Step)
    ensures Do(rules, decode, c, st).nodes.Keys == c.nodes.Keys
  {
  }

  /** The state after a run. */
  function Exec(rules: Rules, decode: Decoder, c: State, run: seq<Step>): State {
    if run == [] then c else Do(rules, decode, Exec(rules, decode, c, run[..|run| - 1]), run[|run| - 1])
  }

  lemma {:induction false} ExecSplit(rules: Rules, decode: Decoder, c: State, run: seq<Step>, i: nat)
    requires i <= |run|
    ensures Exec(rules, decode, c, run) == Exec(rules, decode, Exec(rules, decode, c, run[..i]), run[i..])
  {
    if i == |run| {
      assert run[..i] == run;
    } else {
      var n := |run| - 1;
      ExecSplit(rules, decode, c, run[..n], i);
      assert run[..n][..i] == run[..i] && run[..n][i..] == run[i..][..n - i];
      assert run[i..][n - i] == run[n];
    }
  }

  /** Messages stay in the network. */
  lemma {:induction false} ExecKeepsNet(rules: Rules, decode: Decoder, c: State, run: seq<Step>, i: nat)
    requires i <= |run|
    ensures Exec(rules, decode, c, run[..i]).net <= Exec(rules, decode, c, run).net
  {
    if i == |run| {
      assert run[..i] == run;
    } else {
      assert run[..|run| - 1][..i] == run[..i];
      ExecKeepsNet(rules, decode, c, run[..|run| - 1], i);
    }
  }

  lemma {:induction false} ExecKeepsServers(rules: Rules, decode: Decoder, c: State, run: seq<Step>)
    ensures Exec(rules, decode, c, run).nodes.Keys == c.nodes.Keys
  {
    if run != [] {
      ExecKeepsServers(rules, decode, c, run[..|run| - 1]);
      DoKeepsServers(rules, decode, Exec(rules, decode, c, run[..|run| - 1]), run[|run| - 1]);
    }
  }
}
