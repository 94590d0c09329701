/** What every handler of a node does, told by its outcome instead of its branches. */
module Answers {
  import opened RaftTypes
  import opened Logs
  import opened CommitRule
  import opened NodeSpec

  // ---------------------------------------------------------------- roles

  /** Becoming leader starts every peer after the last entry, with nothing matched; any other change drops that. */
  lemma RoleChanges(s: NodeState, role: Role)
    ensures var r := SetRole(s, role);
            && r == s.(role := role, leader := r.leader)
            && (s.role == role ==> r.leader == s.leader)
            && (s.role != role && role != Leader ==> r.leader.None?)
            && (s.role != role && role == Leader ==> r.leader.Some? && forall p :: p in s.peers ==>
                  && p in r.leader.value.nextIndex && r.leader.value.nextIndex[p] == LastIndex(s.log) + 1
                  && p in r.leader.value.matchIndex && r.leader.value.matchIndex[p] == 0)
  {
  }

  /** A node that steps down follows, in the later of the two terms, and has a vote only if it cast it in that term. */
  lemma StepsDown(s: NodeState, t: nat)
    ensures var r := StepDown(s, t);
            && r == s.(role := Follower, term := Max(s.term, t), votedFor := r.votedFor, leader := r.leader)
            && r.votedFor == (if t > s.term then None else s.votedFor)
            && (s.role != Follower ==> r.leader.None?)
  {
  }

  /** A candidacy is in the next term, and the candidate has its own vote and no other. */
  lemma Stands(s: NodeState)
    ensures var r := BecomeCandidate(s);
            && r.term == s.term + 1 && r.role == Candidate && r.votedFor == Some(s.id)
            && r.votes == {Some(s.id)} && r.voters == {s.id}
            && r.log == s.log && r.commitIndex == s.commitIndex && r.lastApplied == s.lastApplied && r.store == s.store
            && r.id == s.id && r.peers == s.peers
  {
  }

  // ---------------------------------------------------------------- votes

  /** The (term, index) of a log's last entry is at most the pair given; an empty log has the least. */
  predicate NoLaterThan(l: Log, term: nat, index: nat) {
    l != [] ==>
      var e := l[|l| - 1];
      e.term < term || (e.term == term && e.index <= index)
  }

  /**
   * A vote is granted exactly when the request is not stale, the vote of its term is free or is the
   * candidate's already, and the voter's last entry is no later than the candidate's; the voter
   * then holds it for the candidate, and otherwise keeps the vote it had in that term.
   */
  lemma GrantsExactly(s: NodeState, req: VoteRequest)
    ensures var (r, resp) := HandleVoteRequest(s, req);
            && (resp.granted <==>
                  && req.term >= s.term
                  && (req.term > s.term || s.votedFor == None || s.votedFor == Some(req.cand))
                  && NoLaterThan(s.log, req.lastTerm, req.lastIndex))
            && r.votedFor == (if resp.granted then Some(req.cand) else if req.term > s.term then None else s.votedFor)
            && r.term == Max(s.term, req.term) && (req.term > s.term ==> r.role == Follower)
            && (req.term <= s.term ==> r.role == s.role && r.leader == s.leader)
            && r.log == s.log && r.commitIndex == s.commitIndex && r.lastApplied == s.lastApplied && r.store == s.store
  {
  }

  /** A request names the candidate's last entry. */
  lemma AsksWithLast(s: NodeState)
    ensures var req := AskForVote(s);
            && req.term == s.term && req.cand == s.id
            && (if s.log == [] then req.lastTerm == 0 && req.lastIndex == 0
                else req.lastTerm == s.log[|s.log| - 1].term && req.lastIndex == s.log[|s.log| - 1].index)
  {
  }

  /** Of any two nodes that have not voted in a term, one at least grants its vote to the other. */
  lemma OneGrantsTheOther(a: NodeState, b: NodeState, t: nat)
    requires t > a.term && t > b.term
    ensures var toB, toA := AskForVote(a.(term := t)), AskForVote(b.(term := t));
            HandleVoteRequest(b, toB).1.granted || HandleVoteRequest(a, toA).1.granted
  {
    GrantsExactly(b, AskForVote(a.(term := t)));
    GrantsExactly(a, AskForVote(b.(term := t)));
    AsksWithLast(a.(term := t));
    AsksWithLast(b.(term := t));
  }

  /**
   * A reply makes its receiver leader exactly when it is a vote for the candidacy it is still in
   * and the votes then reach half the cluster; a reply of a later term makes it a follower there.
   */
  lemma WinsExactly(rules: Rules, s: NodeState, req: VoteRequest, from: NodeId, resp: VoteReply)
    ensures var r := HandleVoteReply(rules, s, req, from, resp);
            && (s.role != Leader ==>
                  (r.role == Leader <==>
                     && resp.term <= s.term && resp.term >= req.term && resp.granted
                     && s.role == Candidate && s.term == req.term
                     && 2 * (if rules.votesByVoter then |s.voters + {from}| else |s.votes + {None}|)
                        >= |s.peers| + 1))
            && (s.role == Leader && resp.term <= s.term ==> r.role == Leader && r.leader == s.leader)
            && r.term == Max(s.term, resp.term) && (resp.term > s.term ==> r.role == Follower)
            && r.log == s.log && r.commitIndex == s.commitIndex && r.lastApplied == s.lastApplied && r.store == s.store
            && (resp.term <= s.term && r.role != Leader ==> r.role == s.role && r.votedFor == s.votedFor)
            && (var counted := resp.term <= s.term && resp.term >= req.term && resp.granted;
                && r.votes == (if counted then s.votes + {None} else s.votes)
                && r.voters == (if counted && s.role == Candidate && s.term == req.term then s.voters + {from}
                   else s.voters))
  {
    assert VotesNeeded(|s.peers|) == (|s.peers| + 2) / 2;
  }

  // ---------------------------------------------------------------- leading

  /** A leader's log gains exactly the entry submitted, in its term at the next index; nobody else's log changes. */
  lemma AppendsExactly(s: NodeState, data: Bytes, kind: EntryKind)
    ensures var r := AppendLocal(s, data, kind);
            && r == s.(log := r.log)
            && (s.role != Leader ==> r.log == s.log)
            && (s.role == Leader ==>
                  && |r.log| == |s.log| + 1 && r.log[..|s.log|] == s.log
                  && r.log[|s.log|].data == data && r.log[|s.log|].kind == kind && r.log[|s.log|].term == s.term
                  && (WellIndexed(s.log) ==> r.log[|s.log|].index == |s.log| + 1))
  {
  }

  /** A request to a peer whose nextIndex lies in the log, or just past it, carries what follows the entry before it. */
  lemma SendsExactly(s: NodeState, p: NodeId, maxEntries: nat)
    requires WellIndexed(s.log) && 1 <= NextFor(s, p) <= |s.log| + 1
    ensures var req := BuildAppend(s, p, maxEntries);
            && req.term == s.term && req.leader == s.id && req.leaderCommit == s.commitIndex
            && req.prevIndex == NextFor(s, p) - 1
            && req.prevTerm == (if req.prevIndex == 0 then 0 else s.log[req.prevIndex - 1].term)
            && |req.entries| == Min(|s.log| - req.prevIndex, maxEntries)
            && forall i :: 0 <= i < |req.entries| ==>
                 var e := s.log[req.prevIndex + i];
                 && req.entries[i].term == e.term && req.entries[i].index == e.index && req.entries[i].data == e.data
                 && req.entries[i].kind == KindToWire(e.kind)
  {
  }

  /** A heartbeat is that request without entries. */
  lemma BeatsExactly(s: NodeState, p: NodeId, maxEntries: nat)
    ensures BuildHeartbeat(s, p) == BuildAppend(s, p, maxEntries).(entries := [])
  {
  }

  /** The entry kinds on the wire. */
  lemma KindsOnWire(k: EntryKind)
    ensures KindToWire(k) == WireConfiguration <==> k == EntryConfig
    ensures KindToWire(k) == WireNoOp <==> k == EntryNoOp
    ensures KindToWire(k) == WireNormal <==> k == EntryNormal || k == EntryBatch
    ensures KindFromWire(WireUnknown) == EntryNormal
  {
  }

  // ---------------------------------------------------------------- following

  /** Every reply to an append or vote request carries the replier's term after the step, the later of the two. */
  lemma RepliesInOwnTerm(rules: Rules, s: NodeState, areq: AppendRequest, vreq: VoteRequest)
    ensures var (r, resp) := HandleAppend(rules, s, areq); resp.term == r.term == Max(s.term, areq.term)
    ensures var (r, resp) := HandleVoteRequest(s, vreq); resp.term == r.term == Max(s.term, vreq.term)
  {
  }

  /** The receiver has the entry before the request's, or there is none. */
  predicate HasPrevious(s: NodeState, req: AppendRequest) {
    req.prevIndex > 0 ==> req.prevIndex <= |s.log| && s.log[req.prevIndex - 1].term == req.prevTerm
  }

  /**
   * A request is accepted exactly when it is not stale and the receiver has the entry before its
   * own. A stale one changes nothing. A rejection leaves the log and the commit index alone, and
   * points past a log that is too short, or else to the first entry of the run of the term that is
   * in the way, which it names.
   */
  lemma AnswersExactly(rules: Rules, s: NodeState, req: AppendRequest)
    requires WellIndexed(s.log)
    ensures var (r, resp) := HandleAppend(rules, s, req); var prev := req.prevIndex;
            && (resp.success <==> req.term >= s.term && HasPrevious(s, req))
            && (req.term < s.term ==> r == s && resp.conflictIndex == 0 && resp.conflictTerm == 0)
            && (req.term >= s.term && s.role != Leader ==> r.role == Follower)
            && (req.term > s.term ==> r.role == Follower && r.votedFor == None)
            && (req.term <= s.term ==> r.votedFor == s.votedFor)
            && (!resp.success ==> r.log == s.log && r.commitIndex == s.commitIndex)
            && r.lastApplied == s.lastApplied && r.store == s.store && r.id == s.id && r.peers == s.peers
            && (!resp.success && req.term >= s.term && prev > |s.log| ==>
                  resp.conflictIndex == |s.log| + 1 && resp.conflictTerm == 0)
            && (!resp.success && req.term >= s.term && prev <= |s.log| ==>
                  && resp.conflictTerm == s.log[prev - 1].term && 1 <= resp.conflictIndex <= prev
                  && (forall j :: resp.conflictIndex - 1 <= j < prev ==> s.log[j].term == resp.conflictTerm)
                  && (resp.conflictIndex > 1 ==> s.log[resp.conflictIndex - 2].term != resp.conflictTerm))
  {
    LastIsLength(s.log);
    var prev := req.prevIndex;
    if 0 < prev <= |s.log| {
      WalkBackFindsRun(s.log, prev, TermAt(s.log, prev));
      WalkBackMoves(s.log, prev, TermAt(s.log, prev));
      RunOf(s.log, prev, TermAt(s.log, prev), WalkBack(s.log, prev, TermAt(s.log, prev)));
    }
  }

  lemma RunOf(l: Log, prev: nat, t: nat, w: nat)
    requires w <= prev <= |l| && forall j :: w < j <= prev ==> TermAt(l, j) == t
    ensures forall j :: w <= j < prev ==> l[j].term == t
  {
    forall j | w <= j < prev ensures l[j].term == t {
      assert TermAt(l, j + 1) == t;
    }
  }

  lemma LastIsLength(l: Log)
    requires WellIndexed(l)
    ensures LastIndex(l) == |l|
  {
  }

  lemma {:induction false} WalkBackMoves(l: Log, i: nat, t: nat)
    ensures WalkBack(l, i, t) <= i && (i > 0 && TermAt(l, i) == t ==> WalkBack(l, i, t) < i)
  {
    if i > 0 && TermAt(l, i) == t { WalkBackMoves(l, i - 1, t); }
  }

  /**
   * An accepted request leaves the merge of its entries, and a commit index that reaches x exactly
   * when it did before or the leader's does and, for the documented bound, x is within what the
   * request covers, for the code's own, within the log.
   */
  lemma AcceptsExactly(rules: Rules, s: NodeState, req: AppendRequest, x: nat)
    requires WellIndexed(s.log) && Consecutive(req.entries, req.prevIndex) && HandleAppend(rules, s, req).1.success
    requires s.commitIndex <= |Merge(s.log, req.entries, req.prevIndex)|
    ensures req.prevIndex <= |s.log| && HandleAppend(rules, s, req).0.log == Merge(s.log, req.entries, req.prevIndex)
    ensures var r := HandleAppend(rules, s, req).0;
            x <= r.commitIndex <==>
              || x <= s.commitIndex
              || (x <= req.leaderCommit && x <= if rules.documentedCommit then req.prevIndex + |req.entries|
                 else |r.log|)
  {
    AnswersExactly(rules, s, req);
    ApplyEntriesIsMerge(s.log, req.entries, req.prevIndex);
    MergeWellIndexed(s.log, req.entries, req.prevIndex);
    LastIsLength(Merge(s.log, req.entries, req.prevIndex));
  }

  // ---------------------------------------------------------------- a stale leader or candidate learns

  /** It follows in this later term, with its vote free and its log as it was. */
  predicate Deposed(was: NodeState, r: NodeState, term: nat) {
    && r.role == Follower && r.term == term && r.votedFor == None && r.leader == None
    && r.log == was.log && r.commitIndex == was.commitIndex
  }

  /** A leader whose append or heartbeat reaches a node of a later term follows in that term once the reply arrives. */
  lemma StaleLeaderFollows(rules: Rules, l: NodeState, f: NodeState, req: AppendRequest)
    requires l.role != Follower && l.term == req.term < f.term
    ensures var (f', resp) := HandleAppend(rules, f, req);
            && f' == f && !resp.success
            && Deposed(l, HandleAppendReply(l, f.id, req, resp), f.term)
            && Deposed(l, HandleHeartbeatReply(l, f.id, req.term, resp), f.term)
  {
    RepliesInOwnTerm(rules, f, req, AskForVote(l));
  }

  /** So does a candidate whose request for a vote reaches one. */
  lemma StaleCandidateFollows(rules: Rules, c: NodeState, v: NodeState)
    requires c.role != Follower && c.term < v.term
    ensures var (v', resp) := HandleVoteRequest(v, AskForVote(c));
            v' == v && !resp.granted && Deposed(c, HandleVoteReply(rules, c, AskForVote(c), v.id, resp), v.term)
  {
    GrantsExactly(v, AskForVote(c));
  }

  // ---------------------------------------------------------------- committing

  ghost function Reaching(m: map<NodeId, nat>, peers: seq<NodeId>, x: nat): set<NodeId> {
    set p | p in peers && Get(m, p) >= x
  }

  lemma ReachingSplit(m: map<NodeId, nat>, p: NodeId, rest: seq<NodeId>, x: nat)
    ensures Reaching(m, [p] + rest, x) == if Get(m, p) >= x then Reaching(m, rest, x) + {p} else Reaching(m, rest, x)
  {
  }

  /** Counting match indices counts distinct peers. */
  lemma {:induction false} CountIsPeers(m: map<NodeId, nat>, peers: seq<NodeId>, x: nat)
    requires Distinct(peers)
    ensures CountAtLeast(PeerMatches(m, peers), x) == |Reaching(m, peers, x)|
  {
    if peers != [] {
      var p, rest := peers[0], peers[1..];
      assert peers == [p] + rest;
      CountIsPeers(m, rest, x);
      assert PeerMatches(m, peers)[1..] == PeerMatches(m, rest);
      assert p !in Reaching(m, rest, x);
      ReachingSplit(m, p, rest, x);
    }
  }

  /** The leader holds an entry of its own term at x, and with the peers that match x that makes half the cluster. */
  ghost predicate MayCommit(s: NodeState, x: nat)
    requires s.leader.Some?
  {
    && 1 <= x <= |s.log| && s.log[x - 1].term == s.term
    && 2 * (1 + |Reaching(s.leader.value.matchIndex, s.peers, x)|) >= |s.peers| + 1
  }

  /**
   * From s to r the commit index moves to the largest index the leader may commit, if any is above it,
   * and nothing else.
   */
  ghost predicate CommitsLargest(s: NodeState, r: NodeState)
    requires s.leader.Some?
  {
    && r == s.(commitIndex := r.commitIndex)
    && (r.commitIndex == s.commitIndex || (r.commitIndex > s.commitIndex && MayCommit(s, r.commitIndex)))
    && forall x: nat :: MayCommit(s, x) ==> x <= Max(s.commitIndex, r.commitIndex)
  }

  /** A leader as the runs have it. */
  predicate Leading(s: NodeState) {
    s.role == Leader && s.leader.Some? && s.term >= 1 && WellIndexed(s.log) && Distinct(s.peers)
  }

  lemma MayCommitIs(s: NodeState, x: nat)
    requires Leading(s)
    ensures x > s.commitIndex ==>
              (MayCommit(s, x) <==> Committable(s.log, s.term, s.commitIndex, MatchIndices(s), x))
  {
    LastIsLength(s.log);
    CountIsPeers(s.leader.value.matchIndex, s.peers, x);
    assert MatchIndices(s)[1..] == PeerMatches(s.leader.value.matchIndex, s.peers);
  }

  /** tryAdvanceCommitIndex picks the largest index that may be committed. */
  lemma AdvancesExactly(s: NodeState)
    requires Leading(s)
    ensures CommitsLargest(s, TryAdvance(s))
  {
    var r := TryAdvance(s);
    LastIsLength(s.log);
    AdvanceIsLargestCommittable(s.log, s.term, s.commitIndex, MatchIndices(s));
    MayCommitIs(s, r.commitIndex);
    forall x: nat | MayCommit(s, x) ensures x <= Max(s.commitIndex, r.commitIndex) {
      MayCommitIs(s, x);
    }
  }

  /**
   * A current reply to a request with entries records exactly that the peer has them, if it
   * succeeded, and commits what that allows; otherwise it moves the peer's nextIndex, to the hint
   * if there is one and else one back. It changes nothing for other peers.
   */
  lemma ReactsExactly(s: NodeState, p: NodeId, req: AppendRequest, resp: AppendReply)
    requires Leading(s) && resp.term <= s.term == req.term
    ensures var r := HandleAppendReply(s, p, req, resp); var ls := s.leader.value;
            if resp.success && req.entries != [] then
              var sent := req.entries[|req.entries| - 1].index;
              var s1 := s.(leader := Some(LeaderState(ls.nextIndex[p := sent + 1], ls.matchIndex[p := sent])));
              CommitsLargest(s1, r)
            else
              && r == s.(leader := r.leader) && r.leader.Some? && r.leader.value.matchIndex == ls.matchIndex
              && NextFor(r, p) == (if resp.success then NextFor(s, p)
                 else if resp.conflictIndex > 0 then resp.conflictIndex
                                   else if NextFor(s, p) > 1 then NextFor(s, p) - 1 else NextFor(s, p))
              && forall q :: q != p ==> NextFor(r, q) == NextFor(s, q)
  {
    if resp.success && req.entries != [] {
      var sent := req.entries[|req.entries| - 1].index;
      AdvancesExactly(SetMatch(SetNext(s, p, sent + 1), p, sent));
    }
  }

  /** After such a success nothing the leader may commit is left above its commit index. */
  lemma LeavesNothing(s: NodeState, p: NodeId, req: AppendRequest, resp: AppendReply, x: nat)
    requires Leading(s) && resp.term <= s.term == req.term && resp.success && req.entries != []
    ensures var r := HandleAppendReply(s, p, req, resp);
            r.leader.Some? && (MayCommit(r, x) ==> x <= r.commitIndex)
  {
    ReactsExactly(s, p, req, resp);
    var r, ls, sent := HandleAppendReply(s, p, req, resp), s.leader.value, req.entries[|req.entries| - 1].index;
    var s1 := s.(leader := Some(LeaderState(ls.nextIndex[p := sent + 1], ls.matchIndex[p := sent])));
    assert MayCommit(r, x) ==> MayCommit(s1, x);
  }

  /**
   * A reply to a request of another term, or to a node that no longer leads, changes nothing unless
   * its term is later.
   */
  lemma IgnoresOthers(s: NodeState, p: NodeId, req: AppendRequest, resp: AppendReply)
    requires resp.term <= s.term && (s.role != Leader || s.term != req.term)
    ensures HandleAppendReply(s, p, req, resp) == s && HandleHeartbeatReply(s, p, req.term, resp) == s
  {
  }

  /**
   * A current heartbeat reply moves the peer's nextIndex one back if it failed, not below 1, and
   * changes nothing else.
   */
  lemma BeatReactsExactly(s: NodeState, p: NodeId, resp: AppendReply)
    requires s.role == Leader && s.leader.Some? && resp.term <= s.term
    ensures var r := HandleHeartbeatReply(s, p, s.term, resp);
            && r == s.(leader := r.leader) && r.leader.Some? && r.leader.value.matchIndex == s.leader.value.matchIndex
            && NextFor(r, p) == (if resp.success || NextFor(s, p) <= 1 then NextFor(s, p) else NextFor(s, p) - 1)
            && forall q :: q != p ==> NextFor(r, q) == NextFor(s, q)
  {
  }

  /** Failed heartbeats one after the other bring nextIndex down to 1. */
  function Beaten(s: NodeState, p: NodeId, resp: AppendReply, n: nat): NodeState {
    if n == 0 then s else HandleHeartbeatReply(Beaten(s, p, resp, n - 1), p, s.term, resp)
  }

  lemma {:induction false} BeatsReachTheStart(s: NodeState, p: NodeId, resp: AppendReply, n: nat)
    requires s.role == Leader && s.leader.Some? && resp.term <= s.term && !resp.success && NextFor(s, p) >= 1
    ensures var r := Beaten(s, p, resp, n);
            && r == s.(leader := r.leader) && r.leader.Some?
            && NextFor(r, p) == if NextFor(s, p) > n then NextFor(s, p) - n else 1
  {
    if n > 0 {
      BeatsReachTheStart(s, p, resp, n - 1);
      BeatReactsExactly(Beaten(s, p, resp, n - 1), p, resp);
    }
  }
}
