/**
 * No step of a node takes back its term, its vote, or what it has committed or applied.
 *
 * This holds in every state that has the invariant and for every choice of rules: each handler is
 * looked at by itself, and only accepting entries needs the protocol, which shows that a merge
 * keeps what is known to be committed.
 */
module Progress {
  import opened RaftTypes
  import opened Logs
  import opened CommitRule
  import opened StateMachine
  import opened NodeSpec
  import opened Cluster
  import opened Protocol
  import opened ProtocolSteps
  import opened Refinement
  import opened RefinementAppend

  /** From a to b the term and both indices only rise, and a's committed entries are untouched. */
  ghost predicate Advances(a: NodeState, b: NodeState) {
    && a.term <= b.term && a.commitIndex <= b.commitIndex && a.lastApplied <= b.lastApplied
    && (a.term == b.term && a.votedFor.Some? ==> b.votedFor == a.votedFor)
    && a.commitIndex <= |a.log| && a.commitIndex <= |b.log| && a.log[..a.commitIndex] == b.log[..a.commitIndex]
  }

  lemma AdvancesChain(a: NodeState, b: NodeState, c: NodeState)
    requires Advances(a, b) && Advances(b, c)
    ensures Advances(a, c)
  {
    assert b.log[..a.commitIndex] == b.log[..b.commitIndex][..a.commitIndex];
    assert c.log[..a.commitIndex] == c.log[..b.commitIndex][..a.commitIndex];
  }

  lemma ReplyAdvances(s: NodeState, p: NodeId, req: AppendRequest, resp: AppendReply)
    requires s.commitIndex <= |s.log|
    ensures Advances(s, HandleAppendReply(s, p, req, resp))
  {
    if s.leader.Some? && req.entries != [] {
      var s1 := SetMatch(SetNext(s, p, req.entries[|req.entries| - 1].index + 1), p,
          req.entries[|req.entries| - 1].index);
      ScanDownIs(s.log, s.term, s.commitIndex, MajorityMatch(MatchIndices(s1)));
    }
  }

  lemma ApplyAdvances(decode: Decoder, s: NodeState)
    requires s.lastApplied <= s.commitIndex <= |s.log| && s.store == Replay(decode, s.log[..s.lastApplied])
    ensures Advances(s, ApplyCommitted(decode, s))
  {
    ApplyUpToIs(decode, s, s.commitIndex);
  }

  /** A merge that keeps the view of the first k entries keeps the entries themselves. */
  lemma MergeKeepsEntries(l: Log, es: seq<WireEntry>, prev: nat, k: nat)
    requires prev <= |l| && Consecutive(es, prev) && k <= |l|
    requires AgreeTo(CanonAll(Merge(l, es, prev)), CanonAll(l), k)
    ensures Merge(l, es, prev)[..k] == l[..k]
  {
    var r, n := Merge(l, es, prev), Held(l, es, prev);
    HeldIs(l, es, prev);
    if n < |es| {
      assert r[prev + n] == FromWire(es[n]);
      assert prev + n < |l| ==> CanonAll(r)[prev + n] != CanonAll(l)[prev + n];
      assert k <= prev + n;
    }
  }

  lemma VoteRequestAdvances(s: NodeState, req: VoteRequest)
    requires s.commitIndex <= |s.log|
    ensures Advances(s, HandleVoteRequest(s, req).0)
  {
  }

  lemma VoteReplyAdvances(rules: Rules, s: NodeState, req: VoteRequest, from: NodeId, resp: VoteReply)
    requires s.commitIndex <= |s.log|
    ensures Advances(s, HandleVoteReply(rules, s, req, from, resp))
  {
  }

  lemma HeartbeatReplyAdvances(s: NodeState, p: NodeId, term: nat, resp: AppendReply)
    requires s.commitIndex <= |s.log|
    ensures Advances(s, HandleHeartbeatReply(s, p, term, resp))
  {
  }

  lemma RejectAdvances(rules: Rules, s: NodeState, req: AppendRequest)
    requires s.commitIndex <= |s.log| && !HandleAppend(rules, s, req).1.success
    ensures Advances(s, HandleAppend(rules, s, req).0)
  {
  }

  /** Accepting a request advances the node if the merge keeps its committed entries. */
  lemma AcceptAdvances(rules: Rules, s: NodeState, req: AppendRequest)
    requires s.commitIndex <= |s.log| && HandleAppend(rules, s, req).1.success
    requires var l := ApplyEntries(s.log, req.entries);
             s.commitIndex <= |l| && l[..s.commitIndex] == s.log[..s.commitIndex] && LastIndex(l) == |l|
    ensures Advances(s, HandleAppend(rules, s, req).0)
  {
  }

  lemma AppendAdvances(decode: Decoder, c: State, h: History, rules: Rules, v: NodeId, req: AppendRequest)
    requires CInv(decode, c, h) && v in c.nodes && AppendOk(c.nodes.Keys, h, v, req)
    ensures Advances(c.nodes[v], HandleAppend(rules, c.nodes[v], req).0)
  {
    var s := c.nodes[v];
    LogIsWellIndexed(decode, c, h, v);
    if HandleAppend(rules, s, req).1.success {
      AcceptedState(rules, s, req);
      AcceptedKeepsCommitted(decode, c, h, v, req);
      MergeWellIndexed(s.log, req.entries, req.prevIndex);
      CanonLast(Merge(s.log, req.entries, req.prevIndex));
      AcceptAdvances(rules, s, req);
    } else {
      RejectAdvances(rules, s, req);
    }
  }

  lemma AcceptedKeepsCommitted(decode: Decoder, c: State, h: History, v: NodeId, req: AppendRequest)
    requires CInv(decode, c, h) && v in c.nodes && AppendOk(c.nodes.Keys, h, v, req) && c.nodes[v].term <= req.term
    requires req.prevIndex <= |c.nodes[v].log|
             && (req.prevIndex > 0 ==> TermAt(c.nodes[v].log, req.prevIndex) == req.prevTerm)
    ensures c.nodes[v].commitIndex <= |c.nodes[v].log|
    ensures var l, k := c.nodes[v].log, c.nodes[v].commitIndex;
            k <= |Merge(l, req.entries, req.prevIndex)| && Merge(l, req.entries, req.prevIndex)[..k] == l[..k]
  {
    var l, k := c.nodes[v].log, c.nodes[v].commitIndex;
    NodeIs(decode, c, h, v);
    assert Known(h, req.term, CanonAll(l), k) by {
      GrowsRefl(h);
      KnownGrows(h, h, c.nodes[v].term, req.term, CanonAll(l), k);
    }
    MergeKeepsCommitted(QuorumsFor(c.nodes.Keys), AbsNodes(c), c.nodes.Keys, h, v, l, req, k);
  }

  lemma MergeKeepsCommitted(q: Quorums, n: Nodes, servers: set<NodeId>, h: History, v: NodeId, l: Log,
      req: AppendRequest, k: nat)
    requires Inv(q, n, h) && AppendOk(servers, h, v, req) && Grounded(h, CanonAll(l))
             && Known(h, req.term, CanonAll(l), k) && k <= |l|
    requires req.prevIndex <= |l| && (req.prevIndex > 0 ==> TermAt(l, req.prevIndex) == req.prevTerm)
    ensures k <= |Merge(l, req.entries, req.prevIndex)| && Merge(l, req.entries, req.prevIndex)[..k] == l[..k]
  {
    var r := Merge(l, req.entries, req.prevIndex);
    RequestMerges(q, n, servers, h, v, l, req);
    MergedKeepsKnown(q, n, h, req.term, CanonAll(l), req.prevIndex + |req.entries|, CanonAll(r), k);
    MergeKeepsEntries(l, req.entries, req.prevIndex, k);
  }

  lemma DeliverAdvances(decode: Decoder, c: State, h: History, rules: Rules, m: Msg)
    requires CInv(decode, c, h) && Enabled(c, Deliver(m))
    ensures Advances(c.nodes[Recipient(m)], Move(rules, decode, c, Deliver(m)).1)
  {
    var v := Recipient(m);
    var s := c.nodes[v];
    assert s.commitIndex <= |s.log| by { NodeIs(decode, c, h, v); }
    match m
    case VoteAsk(_, req) => VoteRequestAdvances(s, req);
    case VoteTell(from, req, resp) => VoteReplyAdvances(rules, s, req, from, resp);
    case AppendAsk(_, req, _) =>
      AppendAdvances(decode, c, h, rules, v, req) by { assert MsgOk(c.nodes.Keys, h, m); }
    case AppendTell(from, req, heartbeat, resp) =>
      ReplyAdvances(s, from, req, resp);
      HeartbeatReplyAdvances(s, from, req.term, resp);
  }

  lemma StepAdvances(decode: Decoder, c: State, h: History, rules: Rules, st: Step, v: NodeId)
    requires CInv(decode, c, h) && v in c.nodes
    ensures v in Do(rules, decode, c, st).nodes && Advances(c.nodes[v], Do(rules, decode, c, st).nodes[v])
  {
    NodeIs(decode, c, h, v);
    if Enabled(c, st) && Move(rules, decode, c, st).0 == v {
      match st
      case Timeout(_) =>
      case Submit(_, _, _) =>
      case Send(_, _, _) =>
      case Beat(_, _) =>
      case Deliver(m) => DeliverAdvances(decode, c, h, rules, m);
      case Apply(_) => ApplyAdvances(decode, c.nodes[v]);
    }
  }
}
