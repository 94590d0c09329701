/**
 * Each atomic protocol step keeps the invariant and only extends the history.
 *
 * The steps are: adopting a later term, starting a campaign, granting a vote, collecting it,
 * winning, appending as leader, accepting entries, committing as leader, learning a commit
 * index and recording an acknowledgement. Framing lemmas carry the records a step does not
 * touch, so that each proof is about the one node that moves.
 */
module ProtocolSteps {
  import opened RaftTypes
  import opened Protocol
  import opened LeaderCompleteness

  // ---------------------------------------------------------------- framing

  /** A step of node v: only v changes, and the history only gains what v may add. */
  ghost predicate Local(n: Nodes, h: History, v: NodeId, p: PNode, h': History) {
    && v in n && Grows(h, h')
    && n[v].term <= p.term
    && (p.term == n[v].term && n[v].vote.Some? ==> p.vote == n[v].vote)
    && (forall t :: t in h'.elections ==>
          || (t in h.elections && h'.elections[t].log == h.elections[t].log)
          || (h'.elections[t].leader == v && t == p.term && t == n[v].term))
    && (forall x :: x in h'.acks ==>
          || (x in h.acks && h'.acks[x] == h.acks[x])
          || (x == (v, p.term) && p.term == n[v].term))
  }

  lemma OtherNodesKeep(q: Quorums, n: Nodes, h: History, v: NodeId, p: PNode, h': History, u: NodeId)
    requires Inv(q, n, h) && Local(n, h, v, p, h') && u in n && u != v
    ensures NodeOk(h', u, n[u])
  {
    assert NodeOk(h, u, n[u]);
    GroundedGrows(h, h', n[u].log);
    KnownGrows(h, h', n[u].term, n[u].term, n[u].log, n[u].commit);
    if n[u].term in h.elections {
      assert ElectionGrows(h, h', n[u].term);
    }
  }

  lemma KeptAllGrows(n: Nodes, h: History, v: NodeId, p: PNode, h': History, l: Log, u: NodeId, s: nat, bound: int,
      bound': int)
    requires Local(n, h, v, p, h') && s in h.elections && KeptAll(h, l, u, s, bound) && bound <= bound'
    requires u != v || s < n[v].term || h'.acks == h.acks
    ensures s in h'.elections && KeptAll(h', l, u, s, bound')
  {
    assert ElectionGrows(h, h', s);
    forall k: nat | Acked(h', u, s, k) ensures Kept(h', l, s, k, bound') {
      assert Acked(h, u, s, k);
      KeptGrows(h, h', l, s, k, bound, bound');
    }
  }

  lemma OldBallotKeeps(q: Quorums, n: Nodes, h: History, v: NodeId, p: PNode, h': History, u: NodeId, t: nat)
    requires Inv(q, n, h) && Local(n, h, v, p, h') && (u, t) in h.ballots
    ensures BallotOk(n[v := p], h', u, t)
  {
    assert BallotOk(n, h, u, t);
    var b := h.ballots[(u, t)];
    GroundedGrows(h, h', b.log);
    forall s: nat | s < t && (u, s) in h'.acks && s in h'.elections ensures KeptAll(h', b.log, u, s, t) {
      assert AckOk(n, h, u, s);
      KeptAllGrows(n, h, v, p, h', b.log, u, s, t, t);
    }
  }

  lemma OldVotersKeep(q: Quorums, n: Nodes, h: History, v: NodeId, p: PNode, h': History, t: nat)
    requires Inv(q, n, h) && Local(n, h, v, p, h') && t in h.elections
    ensures t in h'.elections && VotersOk(h', t)
  {
    assert ElectionGrows(h, h', t) && VotersOk(h, t);
    forall u | u in h'.elections[t].voters ensures (u, t) in h'.ballots && VoterOk(h', u, t) {
      assert VoterOk(h, u, t) && BallotOk(n, h, u, t);
      var b := h.ballots[(u, t)];
      forall s: nat | s < t && (u, s) in h'.acks && s in h'.elections ensures KeptAll(h', b.log, u, s, t - 1) {
        assert AckOk(n, h, u, s);
        KeptAllGrows(n, h, v, p, h', b.log, u, s, t - 1, t - 1);
      }
    }
  }

  lemma OldCampaignKeeps(q: Quorums, n: Nodes, h: History, v: NodeId, p: PNode, h': History, c: NodeId, t: nat)
    requires Inv(q, n, h) && Local(n, h, v, p, h') && (c, t) in h.campaigns
    ensures CampaignOk(n[v := p], h', c, t)
  {
    assert CampaignOk(n, h, c, t);
    GroundedGrows(h, h', h.campaigns[(c, t)]);
  }

  lemma OldCommitKeeps(q: Quorums, n: Nodes, h: History, v: NodeId, p: PNode, h': History, c: Commit)
    requires Inv(q, n, h) && Local(n, h, v, p, h') && c in h.commits
    ensures CommitOk(q, h', c)
  {
    assert CommitOk(q, h, c);
    assert ElectionGrows(h, h', c.term);
    forall u | u in c.quorum ensures Acked(h', u, c.term, c.index) {
      assert Acked(h, u, c.term, c.index);
    }
  }

  lemma OldAckKeeps(q: Quorums, n: Nodes, h: History, v: NodeId, p: PNode, h': History, u: NodeId, t: nat)
    requires Inv(q, n, h) && Local(n, h, v, p, h') && (u, t) in h.acks
    requires u != v || (p.log == n[v].log && h'.acks == h.acks)
    ensures AckOk(n[v := p], h', u, t)
  {
    assert AckOk(n, h, u, t);
    assert ElectionGrows(h, h', t);
    KeptAllGrows(n, h, v, p, h', n[u].log, u, t, n[u].term, n[v := p][u].term);
  }

  /** Everything recorded before a local step is still in order after it. */
  lemma Frame(q: Quorums, n: Nodes, h: History, v: NodeId, p: PNode, h': History)
    requires Inv(q, n, h) && Local(n, h, v, p, h')
    ensures forall u :: u in n && u != v ==> NodeOk(h', u, n[u])
    ensures forall u, t :: (u, t) in h.ballots ==> BallotOk(n[v := p], h', u, t)
    ensures forall t :: t in h.elections ==> t in h'.elections && VotersOk(h', t)
    ensures forall c, t :: (c, t) in h.campaigns ==> CampaignOk(n[v := p], h', c, t)
    ensures forall c :: c in h.commits ==> CommitOk(q, h', c)
    ensures forall u, t :: (u, t) in h.acks && (u != v || (p.log == n[v].log && h'.acks == h.acks)) ==>
            AckOk(n[v := p], h', u, t)
  {
    forall u | u in n && u != v ensures NodeOk(h', u, n[u]) { OtherNodesKeep(q, n, h, v, p, h', u); }
    forall u, t | (u, t) in h.ballots ensures BallotOk(n[v := p], h', u, t) { OldBallotKeeps(q, n, h, v, p, h', u, t); }
    forall t | t in h.elections ensures t in h'.elections && VotersOk(h', t) { OldVotersKeep(q, n, h, v, p, h', t); }
    forall c, t | (c, t) in h.campaigns ensures CampaignOk(n[v := p], h', c, t) {
      OldCampaignKeeps(q, n, h, v, p, h', c, t);
    }
    forall c | c in h.commits ensures CommitOk(q, h', c) { OldCommitKeeps(q, n, h, v, p, h', c); }
    forall u, t | (u, t) in h.acks && (u != v || (p.log == n[v].log && h'.acks == h.acks))
      ensures AckOk(n[v := p], h', u, t)
    {
      OldAckKeeps(q, n, h, v, p, h', u, t);
    }
  }

  /** The invariant after a local step, from what is new: v itself and the added records. */
  lemma Assemble(q: Quorums, n: Nodes, h: History, v: NodeId, p: PNode, h': History)
    requires Inv(q, n, h) && Local(n, h, v, p, h')
    requires NodeOk(h', v, p) && ElectionsOk(q, h')
    requires forall t :: t in h'.elections && t !in h.elections ==> VotersOk(h', t)
    requires forall c, t :: (c, t) in h'.campaigns && (c, t) !in h.campaigns ==> CampaignOk(n[v := p], h', c, t)
    requires forall u, t :: (u, t) in h'.ballots && (u, t) !in h.ballots ==> BallotOk(n[v := p], h', u, t)
    requires forall c :: c in h'.commits && c !in h.commits ==> CommitOk(q, h', c)
    requires (p.log == n[v].log && h'.acks == h.acks) || forall s :: (v, s) in h'.acks ==> AckOk(n[v := p], h', v, s)
    ensures Inv(q, n[v := p], h')
  {
    Frame(q, n, h, v, p, h');
  }

  /** Steps that add nothing to the history and leave v's log alone. */
  lemma Quiet(q: Quorums, n: Nodes, h: History, v: NodeId, p: PNode)
    requires Inv(q, n, h) && v in n && p.log == n[v].log && n[v].term <= p.term
    requires p.term == n[v].term && n[v].vote.Some? ==> p.vote == n[v].vote
    requires NodeOk(h, v, p)
    ensures Inv(q, n[v := p], h)
  {
    forall t | t in h.elections ensures ElectionGrows(h, h, t) {}
    Assemble(q, n, h, v, p, h);
  }

  // ---------------------------------------------------------------- steps

  /** Leaving candidacy or leadership, possibly for a higher term. */
  lemma StepDown(q: Quorums, n: Nodes, h: History, v: NodeId, p: PNode)
    requires Inv(q, n, h) && v in n && n[v].term <= p.term
    requires p.role == Follower && p.log == n[v].log && p.commit == n[v].commit
    requires p.vote == if n[v].term < p.term then None else n[v].vote
    ensures Inv(q, n[v := p], h)
  {
    assert NodeOk(h, v, n[v]);
    forall t | t in h.elections ensures ElectionGrows(h, h, t) {}
    KnownGrows(h, h, n[v].term, p.term, p.log, p.commit);
    Quiet(q, n, h, v, p);
  }

  ghost function Campaigning(h: History, v: NodeId, t: nat, l: Log): History {
    h.(campaigns := h.campaigns[(v, t) := l], ballots := h.ballots[(v, t) := Ballot(v, l)])
  }

  /** A node has cast no ballot, stood in no election and led nothing beyond its term. */
  lemma NothingBeyondTerm(q: Quorums, n: Nodes, h: History, v: NodeId, t: nat)
    requires Inv(q, n, h) && v in n && n[v].term < t
    ensures (v, t) !in h.ballots && (v, t) !in h.campaigns && (v, t) !in h.acks
    ensures t in h.elections ==> h.elections[t].leader != v
  {
    assert (v, t) in h.ballots ==> BallotOk(n, h, v, t);
    assert (v, t) in h.campaigns ==> CampaignOk(n, h, v, t);
    assert (v, t) in h.acks ==> AckOk(n, h, v, t);
    if t in h.elections { assert ElectionOk(q, h, t); }
  }

  /** A ballot cast now respects everything its voter acknowledged in earlier terms. */
  lemma FreshBallotKeeps(q: Quorums, n: Nodes, h: History, v: NodeId, p: PNode, h': History)
    requires Inv(q, n, h) && Local(n, h, v, p, h') && p.log == n[v].log && h'.acks == h.acks
    ensures forall s: nat :: s < p.term && (v, s) in h'.acks && s in h'.elections ==> KeptAll(h', p.log, v, s, p.term)
  {
    forall s: nat | s < p.term && (v, s) in h'.acks && s in h'.elections ensures KeptAll(h', p.log, v, s, p.term) {
      assert AckOk(n, h, v, s);
      KeptAllGrows(n, h, v, p, h', p.log, v, s, n[v].term, p.term);
    }
  }

  lemma StartCampaign(q: Quorums, n: Nodes, h: History, v: NodeId, p: PNode)
    requires Inv(q, n, h) && v in n
    requires p.term == n[v].term + 1 && p.vote == Some(v) && p.role == Candidate
    requires p.log == n[v].log && p.commit == n[v].commit && p.voters == {v}
    ensures Inv(q, n[v := p], Campaigning(h, v, p.term, p.log))
    ensures Grows(h, Campaigning(h, v, p.term, p.log))
  {
    var h', t := Campaigning(h, v, p.term, p.log), p.term;
    NothingBeyondTerm(q, n, h, v, t);
    CampaignIsLocal(n, h, v, p);
    CampaignNodeOk(h, v, n[v], p) by { assert NodeOk(h, v, n[v]); }
    assert BallotOk(n[v := p], h', v, t) by { FreshBallotKeeps(q, n, h, v, p, h'); }
    assert CampaignOk(n[v := p], h', v, t);
    SameElections(q, h, h');
    Assemble(q, n, h, v, p, h');
  }

  lemma CampaignIsLocal(n: Nodes, h: History, v: NodeId, p: PNode)
    requires v in n && n[v].term < p.term && (v, p.term) !in h.ballots && (v, p.term) !in h.campaigns
    ensures Local(n, h, v, p, Campaigning(h, v, p.term, p.log))
  {
    forall s | s in h.elections ensures ElectionGrows(h, Campaigning(h, v, p.term, p.log), s) {}
  }

  lemma CampaignNodeOk(h: History, v: NodeId, was: PNode, p: PNode)
    requires NodeOk(h, v, was) && Grows(h, Campaigning(h, v, p.term, p.log))
    requires p.term == was.term + 1 && p.vote == Some(v) && p.role == Candidate
    requires p.log == was.log && p.commit == was.commit && p.voters == {v}
    requires p.term in h.elections ==> h.elections[p.term].leader != v
    ensures NodeOk(Campaigning(h, v, p.term, p.log), v, p)
    ensures TermsBelow(p.log, p.term)
  {
    var h' := Campaigning(h, v, p.term, p.log);
    GroundedGrows(h, h', p.log);
    KnownGrows(h, h', was.term, p.term, p.log, p.commit);
  }

  lemma SameElections(q: Quorums, h: History, h': History)
    requires ElectionsOk(q, h) && Grows(h, h') && h'.elections == h.elections
    ensures ElectionsOk(q, h')
  {
    forall t | t in h'.elections ensures ElectionOk(q, h', t) { assert ElectionOk(q, h, t); }
  }

  ghost function Granting(h: History, v: NodeId, t: nat, b: Ballot): History {
    h.(ballots := h.ballots[(v, t) := b])
  }

  lemma GrantVote(q: Quorums, n: Nodes, h: History, v: NodeId, cand: NodeId, p: PNode)
    requires Inv(q, n, h) && v in n && n[v].vote == None && p == n[v].(vote := Some(cand))
    requires (cand, p.term) in h.campaigns && UpToDate(h.campaigns[(cand, p.term)], p.log)
    ensures Inv(q, n[v := p], Granting(h, v, p.term, Ballot(cand, p.log)))
    ensures Grows(h, Granting(h, v, p.term, Ballot(cand, p.log)))
  {
    var h', t := Granting(h, v, p.term, Ballot(cand, p.log)), p.term;
    assert (v, t) in h.ballots ==> BallotOk(n, h, v, t);
    GrantIsLocal(n, h, v, p, Ballot(cand, p.log));
    GrantNodeOk(h, v, n[v], p, Ballot(cand, p.log)) by { assert NodeOk(h, v, n[v]); }
    assert BallotOk(n[v := p], h', v, t) by { FreshBallotKeeps(q, n, h, v, p, h'); }
    SameElections(q, h, h');
    Assemble(q, n, h, v, p, h');
  }

  lemma GrantIsLocal(n: Nodes, h: History, v: NodeId, p: PNode, b: Ballot)
    requires v in n && n[v].vote == None && p == n[v].(vote := p.vote) && (v, p.term) !in h.ballots
    ensures Local(n, h, v, p, Granting(h, v, p.term, b))
  {
    forall s | s in h.elections ensures ElectionGrows(h, Granting(h, v, p.term, b), s) {}
  }

  lemma GrantNodeOk(h: History, v: NodeId, was: PNode, p: PNode, b: Ballot)
    requires NodeOk(h, v, was) && p == was.(vote := Some(b.cand)) && Grows(h, Granting(h, v, p.term, b))
    ensures NodeOk(Granting(h, v, p.term, b), v, p)
  {
    var h' := Granting(h, v, p.term, b);
    GroundedGrows(h, h', p.log);
    KnownGrows(h, h', p.term, p.term, p.log, p.commit);
  }

  lemma CollectVote(q: Quorums, n: Nodes, h: History, v: NodeId, u: NodeId, p: PNode)
    requires Inv(q, n, h) && v in n && n[v].role == Candidate && p == n[v].(voters := n[v].voters + {u})
    requires (u, p.term) in h.ballots && h.ballots[(u, p.term)].cand == v
    ensures Inv(q, n[v := p], h)
  {
    assert NodeOk(h, v, n[v]);
    Quiet(q, n, h, v, p);
  }

  /** Election safety: a candidate with a winning vote set is the first winner of its term. */
  lemma FirstWinner(q: Quorums, n: Nodes, h: History, v: NodeId)
    requires Inv(q, n, h) && v in n && n[v].role == Candidate
    requires n[v].voters <= q.servers && |n[v].voters| >= q.elect
    ensures n[v].term !in h.elections
  {
    assert NodeOk(h, v, n[v]);
    if n[v].term in h.elections {
      assert ElectionOk(q, h, n[v].term);
      var u := Overlap(q, n[v].voters, h.elections[n[v].term].voters);
      assert false;
    }
  }

  ghost function Electing(h: History, v: NodeId, p: PNode): History {
    h.(elections := h.elections[p.term := Election(v, p.voters, p.log, p.log)], acks := h.acks[(v, p.term) := |p.log|])
  }

  lemma WinElection(q: Quorums, n: Nodes, h: History, v: NodeId, p: PNode)
    requires Inv(q, n, h) && v in n && n[v].role == Candidate
    requires n[v].voters <= q.servers && |n[v].voters| >= q.elect
    requires p == n[v].(role := Leader, matched := p.matched)
    requires forall u :: u in p.matched ==> p.matched[u] == 0
    ensures Inv(q, n[v := p], Electing(h, v, p))
    ensures Grows(h, Electing(h, v, p))
  {
    FirstWinner(q, n, h, v);
    var h', t := Electing(h, v, p), p.term;
    assert (v, t) in h.acks ==> AckOk(n, h, v, t);
    ElectIsLocal(n, h, v, p);
    ElectNodeOk(q, n, h, v, p);
    NewVoters(q, n, h, v, p);
    forall s | (v, s) in h'.acks ensures AckOk(n[v := p], h', v, s) { LeaderKeepsAck(q, n, h, v, p, h', s); }
    Assemble(q, n, h, v, p, h');
  }

  lemma ElectIsLocal(n: Nodes, h: History, v: NodeId, p: PNode)
    requires v in n && p == n[v].(role := Leader, matched := p.matched)
    requires p.term !in h.elections && (v, p.term) !in h.acks
    ensures Local(n, h, v, p, Electing(h, v, p))
  {
    forall s | s in h.elections ensures ElectionGrows(h, Electing(h, v, p), s) {}
  }

  lemma ElectNodeOk(q: Quorums, n: Nodes, h: History, v: NodeId, p: PNode)
    requires ElectionsOk(q, h) && CampaignsOk(n, h) && v in n && NodeOk(h, v, n[v]) && n[v].role == Candidate
    requires n[v].voters <= q.servers && |n[v].voters| >= q.elect
    requires p == n[v].(role := Leader, matched := p.matched)
    requires forall u :: u in p.matched ==> p.matched[u] == 0
    requires p.term !in h.elections && Grows(h, Electing(h, v, p))
    ensures NodeOk(Electing(h, v, p), v, p) && ElectionsOk(q, Electing(h, v, p))
  {
    var h', t := Electing(h, v, p), p.term;
    GroundedGrows(h, h', p.log);
    KnownGrows(h, h', t, t, p.log, p.commit);
    assert CampaignOk(n, h, v, t);
    forall s | s in h'.elections ensures ElectionOk(q, h', s) {
      if s != t { assert ElectionOk(q, h, s); }
    }
  }

  /** The votes of a fresh election were cast when no leader of its term existed. */
  lemma NewVoters(q: Quorums, n: Nodes, h: History, v: NodeId, p: PNode)
    requires Inv(q, n, h) && v in n && n[v].role == Candidate
    requires p == n[v].(role := Leader, matched := p.matched)
    requires p.term !in h.elections && Local(n, h, v, p, Electing(h, v, p))
    ensures VotersOk(Electing(h, v, p), p.term)
  {
    var h', t := Electing(h, v, p), p.term;
    assert NodeOk(h, v, n[v]);
    forall u | u in p.voters ensures (u, t) in h'.ballots && VoterOk(h', u, t) {
      assert BallotOk(n, h, u, t);
      var b := h.ballots[(u, t)];
      forall s: nat | s < t && (u, s) in h'.acks && s in h'.elections ensures KeptAll(h', b.log, u, s, t - 1) {
        StrictlyBefore(h, b.log, u, s, t);
        KeptAllGrows(n, h, v, p, h', b.log, u, s, t - 1, t - 1);
      }
    }
  }

  lemma StrictlyBefore(h: History, l: Log, u: NodeId, s: nat, t: nat)
    requires s in h.elections && t !in h.elections && KeptAll(h, l, u, s, t)
    ensures KeptAll(h, l, u, s, t - 1)
  {
    forall k: nat | Acked(h, u, s, k) ensures Kept(h, l, s, k, t - 1) {
      assert Kept(h, l, s, k, t);
    }
  }

  /** A leader's log only grows, so it keeps what it acknowledged, and it holds its own log. */
  lemma LeaderKeepsAck(q: Quorums, n: Nodes, h: History, v: NodeId, p: PNode, h': History, s: nat)
    requires Inv(q, n, h) && Local(n, h, v, p, h') && n[v].log <= p.log && p.term == n[v].term
    requires p.term in h'.elections && h'.elections[p.term].log == p.log
    requires (v, p.term) in h'.acks && h'.acks[(v, p.term)] == |p.log| && (v, s) in h'.acks
    ensures AckOk(n[v := p], h', v, s)
  {
    if s != p.term {
      assert AckOk(n, h, v, s);
      KeptAllExtends(h, n[v].log, p.log, v, s, p.term);
      KeptAllGrows(n, h, v, p, h', p.log, v, s, p.term, p.term);
      assert ElectionGrows(h, h', s);
    }
  }

  ghost function Appending(h: History, v: NodeId, t: nat, l: Log): History
    requires t in h.elections
  {
    h.(elections := h.elections[t := h.elections[t].(log := l)], acks := h.acks[(v, t) := |l|])
  }

  lemma LeaderAppend(q: Quorums, n: Nodes, h: History, v: NodeId, e: Entry, p: PNode)
    requires Inv(q, n, h) && v in n && n[v].role == Leader && e.term == n[v].term
    requires p == n[v].(log := n[v].log + [e])
    ensures p.term in h.elections
    ensures Inv(q, n[v := p], Appending(h, v, p.term, p.log))
    ensures Grows(h, Appending(h, v, p.term, p.log))
  {
    assert LeaderOk(h, v, n[v]) by { assert NodeOk(h, v, n[v]); }
    var h', t := Appending(h, v, p.term, p.log), p.term;
    assert (v, t) in h.acks ==> h.acks[(v, t)] <= |p.log| by {
      assert (v, t) in h.acks ==> AckOk(n, h, v, t);
    }
    AppendIsLocal(n, h, v, e, p);
    AppendElections(q, h, v, t, e);
    AppendNodeOk(h, v, e, n[v], p) by { assert NodeOk(h, v, n[v]); }
    forall s | (v, s) in h'.acks ensures AckOk(n[v := p], h', v, s) { LeaderKeepsAck(q, n, h, v, p, h', s); }
    Assemble(q, n, h, v, p, h');
  }

  lemma AppendIsLocal(n: Nodes, h: History, v: NodeId, e: Entry, p: PNode)
    requires v in n && LeaderOk(h, v, n[v]) && p == n[v].(log := n[v].log + [e])
    requires (v, p.term) in h.acks ==> h.acks[(v, p.term)] <= |p.log|
    ensures Local(n, h, v, p, Appending(h, v, p.term, p.log))
  {
    var h' := Appending(h, v, p.term, p.log);
    forall s | s in h.elections ensures ElectionGrows(h, h', s) {}
  }

  lemma AppendElections(q: Quorums, h: History, v: NodeId, t: nat, e: Entry)
    requires ElectionsOk(q, h) && t in h.elections && e.term == t
    ensures ElectionsOk(q, Appending(h, v, t, h.elections[t].log + [e]))
  {
    var h' := Appending(h, v, t, h.elections[t].log + [e]);
    forall s | s in h'.elections ensures ElectionOk(q, h', s) { assert ElectionOk(q, h, s); }
  }

  lemma AppendNodeOk(h: History, v: NodeId, e: Entry, was: PNode, p: PNode)
    requires NodeOk(h, v, was) && was.role == Leader && e.term == was.term && p == was.(log := was.log + [e])
    requires p.term in h.elections && Grows(h, Appending(h, v, p.term, p.log))
    ensures NodeOk(Appending(h, v, p.term, p.log), v, p)
  {
    var h' := Appending(h, v, p.term, p.log);
    GroundedAppend(h, h', was.log, e);
    KnownExtends(h, p.term, was.log, p.log, p.commit);
    KnownGrows(h, h', p.term, p.term, p.log, p.commit);
  }

  lemma GroundedAppend(h: History, h': History, l: Log, e: Entry)
    requires Grows(h, h') && Grounded(h, l)
    requires e.term in h'.elections && h'.elections[e.term].log == l + [e]
    ensures Grounded(h', l + [e])
  {
    GroundedGrows(h, h', l);
    forall i | 0 <= i < |l + [e]| ensures GroundedAt(h', l + [e], i) {
      if i < |l| {
        assert GroundedAt(h', l, i);
        assert (l + [e])[..i + 1] == l[..i + 1];
      }
    }
  }

  lemma KnownExtends(h: History, bound: nat, l: Log, l': Log, k: nat)
    requires Known(h, bound, l, k) && l <= l'
    ensures Known(h, bound, l', k)
  {
    if k != 0 {
      var c :| Backs(h, c, bound, l, k);
      assert l'[..k] == l[..k];
      assert Backs(h, c, bound, l', k);
    }
  }

  lemma KeptAllExtends(h: History, l: Log, l': Log, v: NodeId, s: nat, bound: int)
    requires s in h.elections && KeptAll(h, l, v, s, bound) && l <= l'
    ensures KeptAll(h, l', v, s, bound)
  {
    forall k: nat | Acked(h, v, s, k) ensures Kept(h, l', s, k, bound) {
      assert Kept(h, l, s, k, bound);
      if AgreeTo(l, h.elections[s].log, k) {
        assert l'[..k] == l[..k];
      }
    }
  }

  // ---------------------------------------------------------------- accepting entries

  /**
   * What merging the leader's entries up to m into a log may do: keep it, when it already
   * has them, or cut it back to exactly them, when it is no longer or differs somewhere.
   */
  ghost predicate Merged(mine: Log, lead: Log, m: nat, res: Log) {
    && m <= |lead|
    && (if AgreeTo(mine, lead, m) && m <= |mine| then res == mine
        else res == lead[..m] && (|mine| <= m || Conflict(lead, mine, m)))
  }

  lemma MergedKeeps(mine: Log, lead: Log, m: nat, res: Log, good: Log, k: nat)
    requires Merged(mine, lead, m, res) && AgreeTo(mine, good, k)
    ensures AgreeTo(res, good, k) || Conflict(lead, good, k)
  {
    if res != mine && !Conflict(lead, good, k) {
      if |mine| > m && m < k {
        var i :| 0 <= i < m && i < |lead| && i < |mine| && lead[i] != mine[i];
        AgreeAt(mine, good, k, i);
        assert false;
      } else if m < k {
        assert false;
      } else {
        assert forall i :: 0 <= i < k ==> lead[i] == good[i];
        assert res[..k] == good[..k];
      }
    }
  }

  lemma MergedGrounded(h: History, mine: Log, lead: Log, m: nat, res: Log)
    requires Merged(mine, lead, m, res) && Grounded(h, mine) && Grounded(h, lead)
    ensures Grounded(h, res)
  {
    if res != mine {
      forall i | 0 <= i < |res| ensures GroundedAt(h, res, i) {
        assert GroundedAt(h, lead, i);
        assert res[..i + 1] == lead[..i + 1];
      }
    }
  }

  ghost function Accepting(h: History, v: NodeId, t: nat, m: nat): History {
    h.(acks := h.acks[(v, t) := if (v, t) in h.acks then Max(h.acks[(v, t)], m) else m])
  }

  /** Committed prefix stability: merging never touches what the node knows committed. */
  lemma MergedKeepsKnown(q: Quorums, n: Nodes, h: History, t: nat, mine: Log, m: nat, res: Log, k: nat)
    requires Inv(q, n, h) && t in h.elections && Merged(mine, h.elections[t].log, m, res)
    requires Known(h, t, mine, k)
    ensures Known(h, t, res, k)
    ensures k <= |mine| && AgreeTo(res, mine, k)
  {
    if k != 0 {
      var c :| Backs(h, c, t, mine, k);
      CommittedInLog(q, n, h, c, t);
      var good := h.elections[c.term].log;
      AgreeLess(h.elections[t].log, good, c.index, k);
      AgreeRefutesConflict(h.elections[t].log, good, k);
      MergedKeeps(mine, h.elections[t].log, m, res, good, k);
      assert Backs(h, c, t, res, k);
    }
  }

  lemma AcceptEntries(q: Quorums, n: Nodes, h: History, v: NodeId, m: nat, p: PNode)
    requires Inv(q, n, h) && v in n && n[v].role == Follower && n[v].term in h.elections
    requires p == n[v].(log := p.log) && Merged(n[v].log, h.elections[p.term].log, m, p.log)
    requires AgreeTo(p.log, h.elections[p.term].log, m)
    ensures Inv(q, n[v := p], Accepting(h, v, p.term, m))
    ensures Grows(h, Accepting(h, v, p.term, m))
    ensures p.commit <= |n[v].log| && AgreeTo(p.log, n[v].log, p.commit)
  {
    var h', t := Accepting(h, v, p.term, m), p.term;
    AcceptIsLocal(n, h, v, m, p);
    AcceptNodeOk(q, n, h, v, m, p);
    SameElections(q, h, h');
    forall s | (v, s) in h'.acks ensures AckOk(n[v := p], h', v, s) {
      AcceptKeepsAck(q, n, h, v, m, p, s);
    }
    Assemble(q, n, h, v, p, h');
  }

  lemma AcceptIsLocal(n: Nodes, h: History, v: NodeId, m: nat, p: PNode)
    requires v in n && p == n[v].(log := p.log)
    ensures Local(n, h, v, p, Accepting(h, v, p.term, m))
  {
    forall s | s in h.elections ensures ElectionGrows(h, Accepting(h, v, p.term, m), s) {}
  }

  lemma AcceptNodeOk(q: Quorums, n: Nodes, h: History, v: NodeId, m: nat, p: PNode)
    requires Inv(q, n, h) && v in n && n[v].role == Follower && n[v].term in h.elections
    requires p == n[v].(log := p.log) && Merged(n[v].log, h.elections[p.term].log, m, p.log)
    requires Grows(h, Accepting(h, v, p.term, m))
    ensures NodeOk(Accepting(h, v, p.term, m), v, p)
    ensures p.commit <= |n[v].log| && AgreeTo(p.log, n[v].log, p.commit)
  {
    var h', t := Accepting(h, v, p.term, m), p.term;
    assert NodeOk(h, v, n[v]);
    MergedKeepsKnown(q, n, h, t, n[v].log, m, p.log, p.commit);
    ElectionLog(q, n, h, t);
    MergedGrounded(h, n[v].log, h.elections[t].log, m, p.log);
    GroundedGrows(h, h', p.log);
    KnownGrows(h, h', t, t, p.log, p.commit);
  }

  lemma AcceptKeepsAck(q: Quorums, n: Nodes, h: History, v: NodeId, m: nat, p: PNode, s: nat)
    requires Inv(q, n, h) && v in n && n[v].role == Follower && n[v].term in h.elections
    requires p == n[v].(log := p.log) && Merged(n[v].log, h.elections[p.term].log, m, p.log)
    requires AgreeTo(p.log, h.elections[p.term].log, m)
    requires Local(n, h, v, p, Accepting(h, v, p.term, m)) && (v, s) in Accepting(h, v, p.term, m).acks
    ensures AckOk(n[v := p], Accepting(h, v, p.term, m), v, s)
  {
    var h', t := Accepting(h, v, p.term, m), p.term;
    var lead := h.elections[t].log;
    if (v, s) in h.acks { assert AckOk(n, h, v, s); }
    forall k: nat | Acked(h', v, s, k) ensures Kept(h', p.log, s, k, t) {
      if Acked(h, v, s, k) {
        assert Kept(h, n[v].log, s, k, t);
        if AgreeTo(n[v].log, h.elections[s].log, k) {
          MergedKeeps(n[v].log, lead, m, p.log, h.elections[s].log, k);
          if s == t { AgreeRefutesConflict(lead, lead, k); }
          assert Kept(h, p.log, s, k, t);
        }
        KeptGrows(h, h', p.log, s, k, t, t);
      } else {
        AgreeLess(p.log, lead, m, k);
      }
    }
  }

  // ---------------------------------------------------------------- commit

  ghost function Committing(h: History, c: Commit): History {
    h.(commits := h.commits + {c})
  }

  lemma LeaderCommit(q: Quorums, n: Nodes, h: History, v: NodeId, k: nat, quorum: set<NodeId>, p: PNode)
    requires Inv(q, n, h) && v in n && n[v].role == Leader && p == n[v].(commit := k)
    requires 1 <= k <= |p.log| && p.log[k - 1].term == p.term
    requires quorum <= q.servers && |quorum| >= q.commit
    requires forall u :: u in quorum ==> Acked(h, u, p.term, k)
    ensures Inv(q, n[v := p], Committing(h, Commit(p.term, k, quorum)))
    ensures Grows(h, Committing(h, Commit(p.term, k, quorum)))
  {
    var c := Commit(p.term, k, quorum);
    var h' := Committing(h, c);
    CommitIsLocal(n, h, v, c, p);
    CommitNodeOk(h, v, c, n[v], p) by { assert NodeOk(h, v, n[v]); }
    SameElections(q, h, h');
    NewCommitOk(q, h, v, c, n[v]) by { assert NodeOk(h, v, n[v]); }
    assert forall d :: d in h'.commits && d !in h.commits ==> d == c;
    Assemble(q, n, h, v, p, h');
  }

  lemma CommitIsLocal(n: Nodes, h: History, v: NodeId, c: Commit, p: PNode)
    requires v in n && p == n[v].(commit := p.commit)
    ensures Local(n, h, v, p, Committing(h, c))
  {
    forall s | s in h.elections ensures ElectionGrows(h, Committing(h, c), s) {}
  }

  lemma NewCommitOk(q: Quorums, h: History, v: NodeId, c: Commit, p: PNode)
    requires LeaderOk(h, v, p) && c.term == p.term
    requires 1 <= c.index <= |p.log| && p.log[c.index - 1].term == p.term
    requires c.quorum <= q.servers && |c.quorum| >= q.commit
    requires forall u :: u in c.quorum ==> Acked(h, u, p.term, c.index)
    ensures CommitOk(q, Committing(h, c), c)
  {
    forall u | u in c.quorum ensures Acked(Committing(h, c), u, c.term, c.index) {
      assert Acked(h, u, p.term, c.index);
    }
  }

  lemma CommitNodeOk(h: History, v: NodeId, c: Commit, was: PNode, p: PNode)
    requires NodeOk(h, v, was) && was.role == Leader && p == was.(commit := c.index)
    requires c.term == p.term && c.index <= |p.log| && Grows(h, Committing(h, c))
    ensures NodeOk(Committing(h, c), v, p)
  {
    GroundedGrows(h, Committing(h, c), p.log);
    assert Backs(Committing(h, c), c, p.term, p.log, c.index);
  }

  lemma CommitOkGrows(q: Quorums, h: History, h': History, c: Commit)
    requires CommitOk(q, h, c) && Grows(h, h')
    ensures CommitOk(q, h', c) && AgreeTo(h.elections[c.term].log, h'.elections[c.term].log, c.index)
  {
    assert ElectionGrows(h, h', c.term);
    forall u | u in c.quorum ensures Acked(h', u, c.term, c.index) {
      assert Acked(h, u, c.term, c.index);
    }
  }

  /** A commit that a quorum backs may be recorded although no node has adopted it. */
  lemma RecordCommit(q: Quorums, n: Nodes, h: History, c: Commit)
    requires Inv(q, n, h) && CommitOk(q, h, c) && n != map[]
    ensures Inv(q, n, Committing(h, c))
  {
    var h' := Committing(h, c);
    var v :| v in n;
    CommitIsLocal(n, h, v, c, n[v]);
    CommitOkGrows(q, h, h', c);
    SameElections(q, h, h');
    assert NodeOk(h, v, n[v]);
    GroundedGrows(h, h', n[v].log);
    KnownGrows(h, h', n[v].term, n[v].term, n[v].log, n[v].commit);
    assert forall d :: d in h'.commits && d !in h.commits ==> d == c;
    Assemble(q, n, h, v, n[v], h');
    assert n[v := n[v]] == n;
  }

  lemma LearnCommit(q: Quorums, n: Nodes, h: History, v: NodeId, k: nat, p: PNode)
    requires Inv(q, n, h) && v in n && p == n[v].(commit := k) && Known(h, p.term, p.log, k)
    ensures Inv(q, n[v := p], h)
  {
    assert NodeOk(h, v, n[v]);
    Quiet(q, n, h, v, p);
  }

  lemma RecordMatch(q: Quorums, n: Nodes, h: History, v: NodeId, u: NodeId, m: nat, p: PNode)
    requires Inv(q, n, h) && v in n && n[v].role == Leader && p == n[v].(matched := n[v].matched[u := m])
    requires Acked(h, u, p.term, m)
    ensures Inv(q, n[v := p], h)
  {
    assert NodeOk(h, v, n[v]);
    Quiet(q, n, h, v, p);
  }

  /** Nothing recorded, every node fresh: the invariant holds at the start. */
  lemma InitInv(q: Quorums, n: Nodes)
    requires QuorumsOk(q) && n.Keys == q.servers
    requires forall v :: v in n ==>
             n[v].term == 0 && n[v].vote == None && n[v].role == Follower && n[v].log == [] && n[v].commit == 0
    ensures Inv(q, n, History(map[], map[], map[], map[], {}))
  {
  }
}
