/**
 * Raft at protocol level: what each node knows, plus the history of the run.
 *
 * Every invariant below speaks about one node, one record of the history, or one
 * pair of records. Leader completeness is then not an invariant of its own: it
 * follows, in any one state, by induction over terms (see LeaderCompleteness).
 */
module Protocol {
  import opened RaftTypes
  import opened Logs

  /** The winner of a term: who voted, the log it was elected with, its log so far. */
  datatype Election = Election(leader: NodeId, voters: set<NodeId>, base: Log, log: Log)

  /** A vote, with the voter's log at the moment it was cast. */
  datatype Ballot = Ballot(cand: NodeId, log: Log)

  /** A leader of `term` advanced its commit index to `index`, backed by `quorum`. */
  datatype Commit = Commit(term: nat, index: nat, quorum: set<NodeId>)

  datatype History = History(
    campaigns: map<(NodeId, nat), Log>,    // (candidate, term) -> its log when it stood
    ballots: map<(NodeId, nat), Ballot>,   // (voter, term)
    elections: map<nat, Election>,         // term
    acks: map<(NodeId, nat), nat>,         // (node, term) -> length it matched the leader of term
    commits: set<Commit>
  )

  datatype PNode = PNode(
    term: nat, vote: Option<NodeId>, role: Role, log: Log, commit: nat,
    voters: set<NodeId>, matched: map<NodeId, nat>)

  /** The servers and the sizes of a winning vote set and of a committing ack set. */
  datatype Quorums = Quorums(servers: set<NodeId>, elect: nat, commit: nat)

  type Nodes = map<NodeId, PNode>

  ghost predicate QuorumsOk(q: Quorums) {
    && q.elect + q.elect > |q.servers|
    && q.elect + q.commit > |q.servers|
  }

  // ---------------------------------------------------------------- logs

  ghost predicate AgreeTo(a: Log, b: Log, k: nat) {
    k <= |a| && k <= |b| && a[..k] == b[..k]
  }

  ghost predicate Conflict(a: Log, b: Log, k: nat) {
    exists i :: 0 <= i < k && i < |a| && i < |b| && a[i] != b[i]
  }

  lemma AgreeLess(a: Log, b: Log, k: nat, j: nat)
    requires AgreeTo(a, b, k) && j <= k
    ensures AgreeTo(a, b, j)
  {
    assert a[..j] == a[..k][..j];
    assert b[..j] == b[..k][..j];
  }

  lemma AgreeChain(a: Log, b: Log, c: Log, k: nat)
    requires AgreeTo(a, b, k) && AgreeTo(b, c, k)
    ensures AgreeTo(a, c, k) && AgreeTo(b, a, k)
  {
  }

  lemma AgreeExtends(a: Log, a': Log, b: Log, k: nat)
    requires AgreeTo(a, b, k) && a <= a'
    ensures AgreeTo(a', b, k)
  {
    assert a'[..k] == a[..k];
  }

  lemma AgreeAt(a: Log, b: Log, k: nat, i: nat)
    requires AgreeTo(a, b, k) && i < k
    ensures a[i] == b[i]
  {
    assert a[i] == a[..k][i];
  }

  lemma AgreeRefutesConflict(a: Log, b: Log, k: nat)
    requires AgreeTo(a, b, k)
    ensures !Conflict(a, b, k)
  {
    forall i | 0 <= i < k ensures a[i] == b[i] {
      AgreeAt(a, b, k, i);
    }
  }

  ghost predicate TermsBelow(l: Log, t: nat) {
    forall i :: 0 <= i < |l| ==> l[i].term < t
  }

  /** `a` is at least as up-to-date as `b` (section 5.4.1 of the Raft paper). */
  predicate UpToDate(a: Log, b: Log) {
    LastTerm(a) > LastTerm(b) || (LastTerm(a) == LastTerm(b) && |a| >= |b|)
  }

  ghost predicate GroundedAt(h: History, l: Log, i: nat)
    requires i < |l|
  {
    && l[i].term in h.elections
    && i < |h.elections[l[i].term].log|
    && l[..i + 1] == h.elections[l[i].term].log[..i + 1]
  }

  /** Every prefix of `l` is a prefix of the log of the leader that created its last entry. */
  ghost predicate Grounded(h: History, l: Log) {
    forall i {:trigger GroundedAt(h, l, i)} :: 0 <= i < |l| ==> GroundedAt(h, l, i)
  }

  // ---------------------------------------------------------------- history records

  ghost predicate ElectionOk(q: Quorums, h: History, t: nat)
    requires t in h.elections
  {
    var e := h.elections[t];
    && 1 <= t
    && e.base <= e.log
    && (e.leader, t) in h.campaigns && h.campaigns[(e.leader, t)] == e.base
    && (forall i :: |e.base| <= i < |e.log| ==> e.log[i].term == t)
    && e.voters <= q.servers && |e.voters| >= q.elect
    && (forall u :: u in e.voters ==> (u, t) in h.ballots && h.ballots[(u, t)].cand == e.leader)
  }

  /** Some leader of a term in (t, bound] contradicts the first k entries of the leader of t. */
  ghost predicate Overridden(h: History, t: nat, k: nat, bound: int)
    requires t in h.elections
  {
    exists u :: u in h.elections && t < u <= bound && Conflict(h.elections[u].log, h.elections[t].log, k)
  }

  /** `l` still has the first k entries of the leader of t, or a later leader removed them. */
  ghost predicate Kept(h: History, l: Log, t: nat, k: nat, bound: int)
    requires t in h.elections
  {
    AgreeTo(l, h.elections[t].log, k) || Overridden(h, t, k, bound)
  }

  ghost predicate Acked(h: History, v: NodeId, t: nat, k: nat) {
    (v, t) in h.acks && k <= h.acks[(v, t)]
  }

  ghost predicate KeptAll(h: History, l: Log, v: NodeId, t: nat, bound: int)
    requires t in h.elections
  {
    forall k: nat :: Acked(h, v, t, k) ==> Kept(h, l, t, k, bound)
  }

  ghost predicate AckOk(n: Nodes, h: History, v: NodeId, t: nat)
    requires (v, t) in h.acks
  {
    && v in n && t in h.elections && t <= n[v].term
    && h.acks[(v, t)] <= |h.elections[t].log|
    && KeptAll(h, n[v].log, v, t, n[v].term)
  }

  ghost predicate BallotOk(n: Nodes, h: History, v: NodeId, t: nat)
    requires (v, t) in h.ballots
  {
    var b := h.ballots[(v, t)];
    && v in n && t <= n[v].term
    && (t == n[v].term ==> n[v].vote == Some(b.cand))
    && (b.cand, t) in h.campaigns && UpToDate(h.campaigns[(b.cand, t)], b.log)
    && Grounded(h, b.log)
    && (forall s: nat :: s < t && (v, s) in h.acks && s in h.elections ==> KeptAll(h, b.log, v, s, t))
  }

  /** A counted vote was cast before its election was won. */
  ghost predicate VoterOk(h: History, u: NodeId, t: nat)
    requires (u, t) in h.ballots
  {
    forall s: nat :: s < t && (u, s) in h.acks && s in h.elections ==> KeptAll(h, h.ballots[(u, t)].log, u, s, t - 1)
  }

  ghost predicate VotersOk(h: History, t: nat)
    requires t in h.elections
  {
    forall u :: u in h.elections[t].voters ==> (u, t) in h.ballots && VoterOk(h, u, t)
  }

  ghost predicate CampaignOk(n: Nodes, h: History, c: NodeId, t: nat)
    requires (c, t) in h.campaigns
  {
    c in n && 1 <= t <= n[c].term && Grounded(h, h.campaigns[(c, t)]) && TermsBelow(h.campaigns[(c, t)], t)
  }

  ghost predicate CommitOk(q: Quorums, h: History, c: Commit) {
    && c.term in h.elections
    && 1 <= c.index <= |h.elections[c.term].log|
    && h.elections[c.term].log[c.index - 1].term == c.term
    && c.quorum <= q.servers && |c.quorum| >= q.commit
    && (forall u :: u in c.quorum ==> Acked(h, u, c.term, c.index))
  }

  ghost predicate Backs(h: History, c: Commit, bound: nat, l: Log, k: nat) {
    && c in h.commits && c.term <= bound && c.term in h.elections
    && k <= c.index && AgreeTo(l, h.elections[c.term].log, k)
  }

  /** The first k entries of `l` are known committed by a leader of a term at most `bound`. */
  ghost predicate Known(h: History, bound: nat, l: Log, k: nat) {
    k == 0 || exists c :: Backs(h, c, bound, l, k)
  }

  // ---------------------------------------------------------------- nodes

  ghost predicate LeaderOk(h: History, v: NodeId, p: PNode) {
    && p.term in h.elections
    && h.elections[p.term].leader == v
    && h.elections[p.term].log == p.log
    && Acked(h, v, p.term, |p.log|)
    && (forall u :: u in p.matched ==> p.matched[u] == 0 || Acked(h, u, p.term, p.matched[u]))
  }

  ghost predicate CandidateOk(h: History, v: NodeId, p: PNode) {
    && (v, p.term) in h.campaigns && h.campaigns[(v, p.term)] == p.log
    && (p.term in h.elections ==> h.elections[p.term].leader != v)
    && (forall u :: u in p.voters ==> (u, p.term) in h.ballots && h.ballots[(u, p.term)].cand == v)
  }

  ghost predicate NodeOk(h: History, v: NodeId, p: PNode) {
    && Grounded(h, p.log)
    && TermsBelow(p.log, p.term + 1)
    && (p.vote.Some? ==> (v, p.term) in h.ballots && h.ballots[(v, p.term)].cand == p.vote.value)
    && (p.role == Leader ==> LeaderOk(h, v, p))
    && (p.role == Candidate ==> CandidateOk(h, v, p))
    && Known(h, p.term, p.log, p.commit)
  }

  // ---------------------------------------------------------------- the invariant

  ghost predicate ElectionsOk(q: Quorums, h: History) {
    forall t {:trigger ElectionOk(q, h, t)} :: t in h.elections ==> ElectionOk(q, h, t)
  }
  ghost predicate AllVotersOk(h: History) {
    forall t {:trigger VotersOk(h, t)} :: t in h.elections ==> VotersOk(h, t)
  }
  ghost predicate CampaignsOk(n: Nodes, h: History) {
    forall c, t {:trigger CampaignOk(n, h, c, t)} :: (c, t) in h.campaigns ==> CampaignOk(n, h, c, t)
  }
  ghost predicate BallotsOk(n: Nodes, h: History) {
    forall v, t {:trigger BallotOk(n, h, v, t)} :: (v, t) in h.ballots ==> BallotOk(n, h, v, t)
  }
  ghost predicate AcksOk(n: Nodes, h: History) {
    forall v, t {:trigger AckOk(n, h, v, t)} :: (v, t) in h.acks ==> AckOk(n, h, v, t)
  }
  ghost predicate CommitsOk(q: Quorums, h: History) {
    forall c {:trigger CommitOk(q, h, c)} :: c in h.commits ==> CommitOk(q, h, c)
  }
  ghost predicate NodesOk(n: Nodes, h: History) {
    forall v {:trigger NodeOk(h, v, n[v])} :: v in n ==> NodeOk(h, v, n[v])
  }

  ghost predicate Inv(q: Quorums, n: Nodes, h: History) {
    && QuorumsOk(q) && n.Keys == q.servers
    && ElectionsOk(q, h) && AllVotersOk(h) && CampaignsOk(n, h)
    && BallotsOk(n, h) && AcksOk(n, h) && CommitsOk(q, h) && NodesOk(n, h)
  }

  // ---------------------------------------------------------------- growth of the history

  ghost predicate ElectionGrows(h: History, h': History, t: nat)
    requires t in h.elections
  {
    && t in h'.elections
    && h'.elections[t].leader == h.elections[t].leader
    && h'.elections[t].voters == h.elections[t].voters
    && h'.elections[t].base == h.elections[t].base
    && h.elections[t].log <= h'.elections[t].log
  }

  /** `h'` extends `h`: nothing recorded is ever withdrawn. */
  ghost predicate Grows(h: History, h': History) {
    && (forall x :: x in h.campaigns ==> x in h'.campaigns && h'.campaigns[x] == h.campaigns[x])
    && (forall x :: x in h.ballots ==> x in h'.ballots && h'.ballots[x] == h.ballots[x])
    && (forall t {:trigger ElectionGrows(h, h', t)} :: t in h.elections ==> ElectionGrows(h, h', t))
    && (forall x :: x in h.acks ==> x in h'.acks && h.acks[x] <= h'.acks[x])
    && h.commits <= h'.commits
  }

  lemma GrowsTransitive(a: History, b: History, c: History)
    requires Grows(a, b) && Grows(b, c)
    ensures Grows(a, c)
  {
    forall t | t in a.elections ensures ElectionGrows(a, c, t) {
      assert ElectionGrows(a, b, t) && ElectionGrows(b, c, t);
    }
  }

  lemma GroundedGrows(h: History, h': History, l: Log)
    requires Grows(h, h') && Grounded(h, l)
    ensures Grounded(h', l)
  {
    forall i | 0 <= i < |l| ensures GroundedAt(h', l, i) {
      assert GroundedAt(h, l, i);
      assert ElectionGrows(h, h', l[i].term);
    }
  }

  lemma OverriddenGrows(h: History, h': History, t: nat, k: nat, bound: int, bound': int)
    requires Grows(h, h') && t in h.elections && Overridden(h, t, k, bound) && bound <= bound'
    ensures t in h'.elections && Overridden(h', t, k, bound')
  {
    var u :| u in h.elections && t < u <= bound && Conflict(h.elections[u].log, h.elections[t].log, k);
    assert ElectionGrows(h, h', t) && ElectionGrows(h, h', u);
    assert Conflict(h'.elections[u].log, h'.elections[t].log, k);
  }

  lemma KeptGrows(h: History, h': History, l: Log, t: nat, k: nat, bound: int, bound': int)
    requires Grows(h, h') && t in h.elections && Kept(h, l, t, k, bound) && bound <= bound'
    ensures t in h'.elections && Kept(h', l, t, k, bound')
  {
    assert ElectionGrows(h, h', t);
    if !AgreeTo(l, h.elections[t].log, k) {
      OverriddenGrows(h, h', t, k, bound, bound');
    }
  }

  lemma KnownGrows(h: History, h': History, bound: nat, bound': nat, l: Log, k: nat)
    requires Grows(h, h') && Known(h, bound, l, k) && bound <= bound'
    ensures Known(h', bound', l, k)
  {
    if k != 0 {
      var c :| Backs(h, c, bound, l, k);
      assert ElectionGrows(h, h', c.term);
      assert Backs(h', c, bound', l, k);
    }
  }

  // ---------------------------------------------------------------- consequences for single logs

  lemma ElectionLog(q: Quorums, n: Nodes, h: History, t: nat)
    requires ElectionsOk(q, h) && CampaignsOk(n, h) && t in h.elections
    ensures Grounded(h, h.elections[t].log)
    ensures TermsBelow(h.elections[t].base, t) && TermsBelow(h.elections[t].log, t + 1)
  {
    var e := h.elections[t];
    assert ElectionOk(q, h, t);
    assert CampaignOk(n, h, e.leader, t);
    forall i | 0 <= i < |e.log| ensures GroundedAt(h, e.log, i) && e.log[i].term < t + 1 {
      if i < |e.base| {
        assert GroundedAt(h, e.base, i);
        assert e.log[..i + 1] == e.base[..i + 1];
      }
    }
  }

  /** Terms never decrease along a grounded log. */
  lemma TermsSorted(q: Quorums, n: Nodes, h: History, l: Log, i: nat, j: nat)
    requires ElectionsOk(q, h) && CampaignsOk(n, h) && Grounded(h, l) && i <= j < |l|
    ensures l[i].term <= l[j].term
  {
    assert GroundedAt(h, l, j);
    var e := h.elections[l[j].term].log;
    ElectionLog(q, n, h, l[j].term);
    assert l[i] == l[..j + 1][i] == e[..j + 1][i] == e[i];
  }

  /** Log matching: same index and term in two grounded logs means identical prefixes. */
  lemma LogMatching(h: History, a: Log, b: Log, i: nat)
    requires Grounded(h, a) && Grounded(h, b)
    requires i < |a| && i < |b| && a[i].term == b[i].term
    ensures a[..i + 1] == b[..i + 1]
  {
    assert GroundedAt(h, a, i) && GroundedAt(h, b, i);
  }
}
