/**
 * Every step of the cluster is a sequence of protocol steps: the view of a state, what the
 * concrete parts of it keep besides, and the steps of elections.
 *
 * The view forgets nextIndex, the vote keys and the store, and sees entries as the wire does.
 */
module Refinement {
  import opened RaftTypes
  import Sets
  import opened Logs
  import opened StateMachine
  import opened NodeSpec
  import opened Cluster
  import opened Protocol
  import opened ProtocolSteps

  // ---------------------------------------------------------------- abstraction

  ghost function Abs(s: NodeState): PNode {
    PNode(s.term, s.votedFor, s.role, CanonAll(s.log), s.commitIndex, s.voters,
          if s.leader.Some? then s.leader.value.matchIndex else map[])
  }

  ghost function AbsNodes(c: State): Nodes {
    map v | v in c.nodes :: Abs(c.nodes[v])
  }

  /** How many nodes vote for a winner among n nodes: it wins on a peer's vote, never on its own alone. */
  function WinSize(n: nat): nat { Max(2, (n + 1) / 2) }

  function CommitSize(n: nat): nat { (n + 1) / 2 }

  /** The cluster sizes for which winning and committing sets always meet. */
  predicate SafeSize(n: nat) {
    n % 2 == 1 || n <= 2
  }

  /** With the code's vote keys a tally is at most two, so that from five nodes on nobody wins. */
  predicate Safe(rules: Rules, n: nat) {
    SafeSize(n) || (!rules.votesByVoter && n >= 5)
  }

  function ElectSize(n: nat): nat { if SafeSize(n) then WinSize(n) else n + 1 }

  ghost function QuorumsFor(servers: set<NodeId>): Quorums {
    Quorums(servers, ElectSize(|servers|), CommitSize(|servers|))
  }

  lemma QuorumsForOk(servers: set<NodeId>)
    ensures QuorumsOk(QuorumsFor(servers))
  {
  }

  // ---------------------------------------------------------------- invariants of the concrete parts

  ghost predicate LeaderStateOk(s: NodeState) {
    && s.leader.Some?
    && forall p :: p in s.peers ==>
         && p in s.leader.value.nextIndex && 1 <= s.leader.value.nextIndex[p] <= |s.log| + 1
         && p in s.leader.value.matchIndex
  }

  ghost predicate LocalOk(decode: Decoder, servers: set<NodeId>, v: NodeId, s: NodeState) {
    && s.id == v && PeersOk(servers, v, s.peers) && WellIndexed(s.log)
    && (if s.role == Leader then LeaderStateOk(s) else s.leader.None?)
    && s.lastApplied <= s.commitIndex <= |s.log|
    && s.store == Replay(decode, s.log[..s.lastApplied])
    && s.votes <= {Some(v), None}
    && (s.role == Candidate ==> v in s.voters && s.voters <= servers)
  }

  ghost predicate AppendOk(servers: set<NodeId>, h: History, to: NodeId, req: AppendRequest) {
    && to in servers && to != req.leader
    && req.term in h.elections && h.elections[req.term].leader == req.leader
    && var lead := h.elections[req.term].log;
    && req.prevIndex + |req.entries| <= |lead|
    && req.prevTerm == TermAt(lead, req.prevIndex)
    && Consecutive(req.entries, req.prevIndex)
    && (forall i :: 0 <= i < |req.entries| ==> FromWire(req.entries[i]) == lead[req.prevIndex + i])
    && Known(h, req.term, lead, req.leaderCommit)
  }

  ghost predicate MsgOk(servers: set<NodeId>, h: History, m: Msg) {
    match m
    case VoteAsk(to, req) =>
      && to != req.cand && (req.cand, req.term) in h.campaigns
      && req.lastIndex == |h.campaigns[(req.cand, req.term)]|
         && req.lastTerm == LastTerm(h.campaigns[(req.cand, req.term)])
    case VoteTell(from, req, resp) =>
      && from in servers && from != req.cand
      && (resp.granted ==>
            resp.term == req.term && (from, req.term) in h.ballots && h.ballots[(from, req.term)].cand == req.cand)
    case AppendAsk(to, req, _) => AppendOk(servers, h, to, req)
    case AppendTell(from, req, _, resp) =>
      && AppendOk(servers, h, from, req)
      && (resp.success ==> Acked(h, from, req.term, req.prevIndex + |req.entries|))
      && (!resp.success ==> resp.conflictIndex <= req.prevIndex)
  }

  ghost predicate NetOk(servers: set<NodeId>, h: History, net: set<Msg>) {
    forall m {:trigger MsgOk(servers, h, m)} :: m in net ==> MsgOk(servers, h, m)
  }

  ghost predicate AllLocalOk(decode: Decoder, c: State) {
    forall v {:trigger LocalOk(decode, c.nodes.Keys, v, c.nodes[v])} :: v in c.nodes ==>
        LocalOk(decode, c.nodes.Keys, v, c.nodes[v])
  }

  ghost predicate CInv(decode: Decoder, c: State, h: History) {
    && Inv(QuorumsFor(c.nodes.Keys), AbsNodes(c), h)
    && AllLocalOk(decode, c)
    && NetOk(c.nodes.Keys, h, c.net)
  }

  // ---------------------------------------------------------------- framing

  lemma AppendOkGrows(servers: set<NodeId>, h: History, h': History, to: NodeId, req: AppendRequest)
    requires Grows(h, h') && AppendOk(servers, h, to, req)
    ensures AppendOk(servers, h', to, req)
  {
    assert ElectionGrows(h, h', req.term);
    KnownGrows(h, h', req.term, req.term, h.elections[req.term].log, req.leaderCommit);
    KnownExtends(h', req.term, h.elections[req.term].log, h'.elections[req.term].log, req.leaderCommit);
  }

  lemma MsgOkGrows(servers: set<NodeId>, h: History, h': History, m: Msg)
    requires Grows(h, h') && MsgOk(servers, h, m)
    ensures MsgOk(servers, h', m)
  {
    match m
    case VoteAsk(_, _) =>
    case VoteTell(_, _, _) =>
    case AppendAsk(to, req, _) => AppendOkGrows(servers, h, h', to, req);
    case AppendTell(from, req, _, _) => AppendOkGrows(servers, h, h', from, req);
  }

  lemma MovedNet(servers: set<NodeId>, net: set<Msg>, out: set<Msg>, h: History, h': History)
    requires NetOk(servers, h, net) && Grows(h, h')
    requires forall m :: m in out ==> MsgOk(servers, h', m)
    ensures NetOk(servers, h', net + out)
  {
    forall m | m in net + out ensures MsgOk(servers, h', m) {
      if m in net { MsgOkGrows(servers, h, h', m); }
    }
  }

  lemma MovedLocal(decode: Decoder, c: State, v: NodeId, s: NodeState, out: set<Msg>)
    requires AllLocalOk(decode, c) && v in c.nodes && LocalOk(decode, c.nodes.Keys, v, s)
    ensures AllLocalOk(decode, Moved(c, v, s, out))
  {
    var c' := Moved(c, v, s, out);
    assert c'.nodes.Keys == c.nodes.Keys;
    forall u | u in c'.nodes ensures LocalOk(decode, c'.nodes.Keys, u, c'.nodes[u]) {
      if u != v { assert LocalOk(decode, c.nodes.Keys, u, c.nodes[u]); }
    }
  }

  lemma MovedView(c: State, v: NodeId, s: NodeState, out: set<Msg>)
    requires v in c.nodes
    ensures AbsNodes(Moved(c, v, s, out)) == AbsNodes(c)[v := Abs(s)]
    ensures Moved(c, v, s, out).nodes.Keys == c.nodes.Keys
  {
  }

  lemma AssembleState(decode: Decoder, c: State, h: History, v: NodeId, s: NodeState, out: set<Msg>, h': History)
    requires CInv(decode, c, h) && v in c.nodes && Grows(h, h')
    requires Inv(QuorumsFor(c.nodes.Keys), AbsNodes(c)[v := Abs(s)], h')
    requires LocalOk(decode, c.nodes.Keys, v, s)
    requires forall m :: m in out ==> MsgOk(c.nodes.Keys, h', m)
    ensures CInv(decode, Moved(c, v, s, out), h')
  {
    MovedView(c, v, s, out);
    MovedNet(c.nodes.Keys, c.net, out, h, h');
    MovedLocal(decode, c, v, s, out);
  }

  lemma GrowsRefl(h: History)
    ensures Grows(h, h)
  {
    forall t | t in h.elections ensures ElectionGrows(h, h, t) {}
  }

  /** Steps that leave the protocol view of the node, and the history, unchanged. */
  lemma QuietStep(decode: Decoder, c: State, h: History, v: NodeId, s: NodeState, out: set<Msg>)
    requires CInv(decode, c, h) && v in c.nodes && Abs(s) == Abs(c.nodes[v])
    requires LocalOk(decode, c.nodes.Keys, v, s)
    requires forall m :: m in out ==> MsgOk(c.nodes.Keys, h, m)
    ensures CInv(decode, Moved(c, v, s, out), h)
  {
    assert AbsNodes(c)[v := Abs(s)] == AbsNodes(c);
    GrowsRefl(h);
    AssembleState(decode, c, h, v, s, out, h);
  }

  lemma NodeIs(decode: Decoder, c: State, h: History, v: NodeId)
    requires CInv(decode, c, h) && v in c.nodes
    ensures LocalOk(decode, c.nodes.Keys, v, c.nodes[v]) && NodeOk(h, v, Abs(c.nodes[v]))
  {
    assert LocalOk(decode, c.nodes.Keys, v, c.nodes[v]);
    assert NodeOk(h, v, AbsNodes(c)[v]);
  }

  // ---------------------------------------------------------------- elections

  lemma CanonLast(l: Log)
    requires WellIndexed(l)
    ensures LastIndex(l) == |l| && LastTerm(CanonAll(l)) == LastTerm(l)
  {
  }

  lemma TimeoutStep(decode: Decoder, c: State, h: History, v: NodeId, s: NodeState) returns (h': History)
    requires CInv(decode, c, h) && v in c.nodes && s == BecomeCandidate(c.nodes[v])
    ensures CInv(decode, Moved(c, v, s, set p | p in s.peers :: VoteAsk(p, AskForVote(s))), h') && Grows(h, h')
  {
    var p := Abs(s);
    NodeIs(decode, c, h, v);
    h' := Campaigning(h, v, p.term, p.log);
    var out := set p | p in s.peers :: VoteAsk(p, AskForVote(s));
    CandidateLocal(decode, c.nodes.Keys, v, c.nodes[v], h);
    StartCampaign(QuorumsFor(c.nodes.Keys), AbsNodes(c), h, v, p);
    AssembleState(decode, c, h, v, s, out, h');
  }

  lemma CandidateLocal(decode: Decoder, servers: set<NodeId>, v: NodeId, was: NodeState, h: History)
    requires LocalOk(decode, servers, v, was)
    ensures var s := BecomeCandidate(was);
            && LocalOk(decode, servers, v, s)
            && forall p :: p in s.peers ==>
               MsgOk(servers, Campaigning(h, v, s.term, CanonAll(s.log)), VoteAsk(p, AskForVote(s)))
  {
    CanonLast(was.log);
  }

  /** The first thing any message with a higher term does. */
  lemma StepDownStep(decode: Decoder, c: State, h: History, v: NodeId, t: nat)
    requires CInv(decode, c, h) && v in c.nodes && t > c.nodes[v].term
    ensures CInv(decode, Moved(c, v, NodeSpec.StepDown(c.nodes[v], t), {}), h)
  {
    var s := NodeSpec.StepDown(c.nodes[v], t);
    NodeIs(decode, c, h, v);
    ProtocolSteps.StepDown(QuorumsFor(c.nodes.Keys), AbsNodes(c), h, v, Abs(s));
    GrowsRefl(h);
    AssembleState(decode, c, h, v, s, {}, h);
  }

  lemma FirstGrantStep(decode: Decoder, c: State, h: History, v: NodeId, req: VoteRequest, s: NodeState)
      returns (h': History)
    requires CInv(decode, c, h) && v in c.nodes && c.nodes[v].term == req.term
    requires MsgOk(c.nodes.Keys, h, VoteAsk(v, req)) && LogUpToDate(req, c.nodes[v].log)
    requires c.nodes[v].votedFor == None && s == c.nodes[v].(votedFor := Some(req.cand))
    ensures CInv(decode, Moved(c, v, s, {VoteTell(v, req, VoteReply(req.term, true))}), h') && Grows(h, h')
  {
    var p := Abs(s);
    assert LocalOk(decode, c.nodes.Keys, v, s) by { NodeIs(decode, c, h, v); }
    assert UpToDate(h.campaigns[(req.cand, p.term)], p.log) by { CanonLast(s.log); }
    h' := Granting(h, v, p.term, Ballot(req.cand, p.log));
    assert MsgOk(c.nodes.Keys, h', VoteTell(v, req, VoteReply(req.term, true)));
    GrantVote(QuorumsFor(c.nodes.Keys), AbsNodes(c), h, v, req.cand, p);
    AssembleState(decode, c, h, v, s, {VoteTell(v, req, VoteReply(req.term, true))}, h');
  }

  /** Voting again for the same candidate changes nothing and promises nothing new. */
  lemma RepeatGrantStep(decode: Decoder, c: State, h: History, v: NodeId, req: VoteRequest)
    requires CInv(decode, c, h) && v in c.nodes && c.nodes[v].term == req.term
    requires v != req.cand && c.nodes[v].votedFor == Some(req.cand)
    ensures CInv(decode, Moved(c, v, c.nodes[v], {VoteTell(v, req, VoteReply(req.term, true))}), h)
  {
    NodeIs(decode, c, h, v);
    QuietStep(decode, c, h, v, c.nodes[v], {VoteTell(v, req, VoteReply(req.term, true))});
  }

  lemma VoteAskStep(decode: Decoder, c: State, h: History, v: NodeId, req: VoteRequest) returns (h': History)
    requires CInv(decode, c, h) && VoteAsk(v, req) in c.net && v in c.nodes
    ensures CInv(decode, Moved(c, v, HandleVoteRequest(c.nodes[v], req).0,
            {VoteTell(v, req, HandleVoteRequest(c.nodes[v], req).1)}), h')
    ensures Grows(h, h')
  {
    assert MsgOk(c.nodes.Keys, h, VoteAsk(v, req));
    var s1 := if req.term > c.nodes[v].term then NodeSpec.StepDown(c.nodes[v], req.term) else c.nodes[v];
    if req.term > c.nodes[v].term {
      StepDownStep(decode, c, h, v, req.term);
    }
    var (s', resp) := HandleVoteRequest(c.nodes[v], req);
    MovedTwice(c, v, s1, s', {VoteTell(v, req, resp)});
    h' := AnswerVoteStep(decode, Moved(c, v, s1, {}), h, v, req);
  }

  /** The answer once the voter is in the request's term or beyond it. */
  lemma AnswerVoteStep(decode: Decoder, c: State, h: History, v: NodeId, req: VoteRequest) returns (h': History)
    requires CInv(decode, c, h) && MsgOk(c.nodes.Keys, h, VoteAsk(v, req)) && v in c.nodes
             && req.term <= c.nodes[v].term
    ensures CInv(decode, Moved(c, v, HandleVoteRequest(c.nodes[v], req).0,
            {VoteTell(v, req, HandleVoteRequest(c.nodes[v], req).1)}), h')
    ensures Grows(h, h')
  {
    var (s', resp) := HandleVoteRequest(c.nodes[v], req);
    GrowsRefl(h);
    h' := h;
    if !resp.granted {
      NodeIs(decode, c, h, v);
      QuietStep(decode, c, h, v, c.nodes[v], {VoteTell(v, req, resp)});
    } else if c.nodes[v].votedFor == None {
      h' := FirstGrantStep(decode, c, h, v, req, s');
    } else {
      RepeatGrantStep(decode, c, h, v, req);
    }
  }

  /**
   * A winning tally is backed by that many distinct voters, and with the code's vote keys
   * there is none from five nodes on.
   */
  lemma TallyIsSound(rules: Rules, v: NodeId, s: NodeState, from: NodeId)
    requires s.votes <= {Some(v), None} && v in s.voters && from in s.voters && from != v
    ensures Tally(rules, s) >= VotesNeeded(|s.peers|) ==> |s.voters| >= WinSize(|s.peers| + 1)
    ensures !rules.votesByVoter && |s.peers| >= 4 ==> Tally(rules, s) < VotesNeeded(|s.peers|)
  {
    assert {v, from} <= s.voters;
    Sets.SubsetSize({v, from}, s.voters);
    SubsetOfTwo(s.votes, Some(v), None);
  }

  lemma SubsetOfTwo(a: set<Option<NodeId>>, x: Option<NodeId>, y: Option<NodeId>)
    requires a <= {x, y}
    ensures |a| <= 2
  {
    assert a == (if x in a then {x} else {}) + (if y in a then {y} else {});
  }

  lemma CollectStep(decode: Decoder, c: State, h: History, v: NodeId, from: NodeId, s: NodeState)
    requires CInv(decode, c, h) && v in c.nodes && c.nodes[v].role == Candidate && from in c.nodes
    requires s == c.nodes[v].(votes := c.nodes[v].votes + {None}, voters := c.nodes[v].voters + {from})
    requires (from, s.term) in h.ballots && h.ballots[(from, s.term)].cand == v
    ensures CInv(decode, Moved(c, v, s, {}), h)
  {
    NodeIs(decode, c, h, v);
    CollectVote(QuorumsFor(c.nodes.Keys), AbsNodes(c), h, v, from, Abs(s));
    GrowsRefl(h);
    AssembleState(decode, c, h, v, s, {}, h);
  }

  lemma WinStep(decode: Decoder, c: State, h: History, v: NodeId, s: NodeState) returns (h': History)
    requires CInv(decode, c, h) && v in c.nodes && c.nodes[v].role == Candidate
    requires |c.nodes[v].voters| >= ElectSize(|c.nodes.Keys|) && s == SetRole(c.nodes[v], Leader)
    ensures CInv(decode, Moved(c, v, s, {}), h') && Grows(h, h')
  {
    NodeIs(decode, c, h, v);
    CanonLast(s.log);
    WinElection(QuorumsFor(c.nodes.Keys), AbsNodes(c), h, v, Abs(s));
    h' := Electing(h, v, Abs(s));
    AssembleState(decode, c, h, v, s, {}, h');
  }

  lemma EnoughVoters(decode: Decoder, servers: set<NodeId>, rules: Rules, v: NodeId, s: NodeState, from: NodeId,
      s1: NodeState)
    requires LocalOk(decode, servers, v, s) && s.role == Candidate && from != v
    requires s1 == s.(votes := s.votes + {None}, voters := s.voters + {from})
    requires Tally(rules, s1) >= VotesNeeded(|s.peers|) && Safe(rules, |servers|)
    ensures |s1.voters| >= ElectSize(|servers|)
  {
    TallyIsSound(rules, v, s1, from);
  }

  lemma CountedVoteStep(decode: Decoder, c: State, h: History, rules: Rules, v: NodeId, req: VoteRequest, from: NodeId,
      resp: VoteReply)
      returns (h': History)
    requires CInv(decode, c, h) && v in c.nodes && c.nodes[v].role == Candidate && v == req.cand
    requires MsgOk(c.nodes.Keys, h, VoteTell(from, req, resp)) && resp.granted && req.term == c.nodes[v].term
    requires Safe(rules, |c.nodes.Keys|)
    ensures CInv(decode, Moved(c, v, HandleVoteReply(rules, c.nodes[v], req, from, resp), {}), h') && Grows(h, h')
  {
    var s := c.nodes[v];
    var s1 := s.(votes := s.votes + {None}, voters := s.voters + {from});
    CollectStep(decode, c, h, v, from, s1);
    GrowsRefl(h);
    h' := h;
    if Tally(rules, s1) >= VotesNeeded(|s.peers|) {
      MovedTwice(c, v, s1, SetRole(s1, Leader), {});
      EnoughVoters(decode, c.nodes.Keys, rules, v, s, from, s1) by { NodeIs(decode, c, h, v); }
      h' := WinStep(decode, Moved(c, v, s1, {}), h, v, SetRole(s1, Leader));
    }
  }

  lemma VoteTellStep(decode: Decoder, c: State, h: History, rules: Rules, v: NodeId, req: VoteRequest, from: NodeId,
      resp: VoteReply)
      returns (h': History)
    requires CInv(decode, c, h) && VoteTell(from, req, resp) in c.net && v in c.nodes && v == req.cand
    requires Safe(rules, |c.nodes.Keys|)
    ensures CInv(decode, Moved(c, v, HandleVoteReply(rules, c.nodes[v], req, from, resp), {}), h') && Grows(h, h')
  {
    var s := c.nodes[v];
    assert MsgOk(c.nodes.Keys, h, VoteTell(from, req, resp));
    NodeIs(decode, c, h, v);
    GrowsRefl(h);
    h' := h;
    if resp.term > s.term {
      StepDownStep(decode, c, h, v, resp.term);
    } else if resp.term >= req.term && resp.granted && s.role == Candidate && s.term == req.term {
      h' := CountedVoteStep(decode, c, h, rules, v, req, from, resp);
    } else {
      QuietStep(decode, c, h, v, HandleVoteReply(rules, s, req, from, resp), {});
    }
  }
}
