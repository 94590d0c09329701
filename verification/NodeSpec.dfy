/**
 * The state of one Raft node and its atomic steps: what each lock-held section of
 * pkg/raft (node.go, election.go, append_entries.go, commit.go, heartbeat.go,
 * replication.go) does to it.
 */
module NodeSpec {
  import opened RaftTypes
  import opened Logs
  import opened CommitRule
  import opened StateMachine

  datatype VoteRequest = VoteRequest(term: nat, cand: NodeId, lastIndex: nat, lastTerm: nat)

  datatype VoteReply = VoteReply(term: nat, granted: bool)

  datatype AppendRequest = AppendRequest(
    term: nat, leader: NodeId, prevIndex: nat, prevTerm: nat, entries: seq<WireEntry>, leaderCommit: nat)

  datatype AppendReply = AppendReply(term: nat, success: bool, conflictIndex: nat, conflictTerm: nat)

  datatype LeaderState = LeaderState(nextIndex: map<NodeId, nat>, matchIndex: map<NodeId, nat>)

  /**
   * `votes` is VotesReceived, keyed as the source keys it: Some(self) for its own vote and
   * None for the empty string under which it files every peer's vote. `voters` names the
   * nodes whose votes for the current term arrived, which the source does not keep.
   */
  datatype NodeState = NodeState(
    id: NodeId, peers: seq<NodeId>,
    term: nat, votedFor: Option<NodeId>, log: Log,
    commitIndex: nat, lastApplied: nat,
    role: Role, leader: Option<LeaderState>,
    votes: set<Option<NodeId>>, voters: set<NodeId>,
    store: Store)

  /**
   * Two places where the code and its own comments part. Votes are counted by key, all peers
   * sharing one, or by voter; followers bound their commit index by their own last entry
   * (append_entries.go:247) or by the last entry the request covers (the comment at line 244).
   */
  datatype Rules = Rules(votesByVoter: bool, documentedCommit: bool)

  const AS_WRITTEN := Rules(false, false)

  function NewNode(id: NodeId, peers: seq<NodeId>): NodeState {
    NodeState(id, peers, 0, None, [], 0, 0, Follower, None, {}, {}, map[])
  }

  /** A Go map read: absent keys give 0. */
  function Get(m: map<NodeId, nat>, p: NodeId): nat {
    if p in m then m[p] else 0
  }

  // ---------------------------------------------------------------- roles

  /** NewLeaderState. */
  function FreshLeader(peers: seq<NodeId>, lastIndex: nat): LeaderState {
    LeaderState(map p | p in peers :: lastIndex + 1, map p | p in peers :: 0)
  }

  function SetRole(s: NodeState, r: Role): NodeState {
    if s.role == r then s
    else s.(role := r, leader := if r == Leader then Some(FreshLeader(s.peers, LastIndex(s.log))) else None)
  }

  function StepDown(s: NodeState, t: nat): NodeState {
    SetRole(if t > s.term then s.(term := t, votedFor := None) else s, Follower)
  }

  function BecomeCandidate(s: NodeState): NodeState {
    SetRole(s, Candidate).(
      term := s.term + 1, votedFor := Some(s.id), votes := {Some(s.id)}, voters := {s.id})
  }

  // ---------------------------------------------------------------- elections

  /** election.go:46, for a node with this many peers. */
  function VotesNeeded(peers: nat): nat {
    (peers + 1 + 1) / 2
  }

  function AskForVote(s: NodeState): VoteRequest {
    VoteRequest(s.term, s.id, LastIndex(s.log), LastTerm(s.log))
  }

  /** The comparison in requestVote. */
  predicate LogUpToDate(req: VoteRequest, l: Log) {
    req.lastTerm > LastTerm(l) || (req.lastTerm == LastTerm(l) && req.lastIndex >= LastIndex(l))
  }

  function HandleVoteRequest(s: NodeState, req: VoteRequest): (NodeState, VoteReply) {
    if req.term < s.term then
      (s, VoteReply(s.term, false))
    else
      var s1 := if req.term > s.term then StepDown(s, req.term) else s;
      if s1.votedFor.Some? && s1.votedFor != Some(req.cand) then
        (s1, VoteReply(req.term, false))
      else if !LogUpToDate(req, s1.log) then
        (s1, VoteReply(req.term, false))
      else
        (s1.(votedFor := Some(req.cand)), VoteReply(req.term, true))
  }

  function Tally(rules: Rules, s: NodeState): nat {
    if rules.votesByVoter then |s.voters| else |s.votes|
  }

  /** sendRequestVote's filter, then one round of startElection's counting loop. */
  function HandleVoteReply(rules: Rules, s: NodeState, req: VoteRequest, from: NodeId, resp: VoteReply): NodeState {
    if resp.term > s.term then StepDown(s, resp.term)
    else if resp.term < req.term || !resp.granted then s
    else
      var current := s.role == Candidate && s.term == req.term;
      var s1 := s.(votes := s.votes + {None}, voters := if current then s.voters + {from} else s.voters);
      if current && Tally(rules, s1) >= VotesNeeded(|s.peers|) then SetRole(s1, Leader) else s1
  }

  // ---------------------------------------------------------------- leading

  /** AppendLogEntry and appendNoOpEntry. */
  function AppendLocal(s: NodeState, data: Bytes, kind: EntryKind): NodeState {
    if s.role != Leader then s
    else s.(log := s.log + [Entry(s.term, LastIndex(s.log) + 1, data, kind)])
  }

  /** The nextIndex a request to p starts from: 1 when there is no leader state. */
  function NextFor(s: NodeState, p: NodeId): nat {
    if s.leader.Some? then Get(s.leader.value.nextIndex, p) else 1
  }

  function PrevTerm(l: Log, prev: nat): nat {
    if prev > 0 then TermAt(l, prev) else 0
  }

  /** The uint64 before an index; a peer the leader does not know has nextIndex 0, which wraps around. */
  function Before(next: nat): nat {
    if next == 0 then 0xFFFF_FFFF_FFFF_FFFF else next - 1
  }

  /** buildAppendEntriesRequest. */
  function BuildAppend(s: NodeState, p: NodeId, maxEntries: nat): AppendRequest {
    var next := NextFor(s, p);
    AppendRequest(s.term, s.id, Before(next), PrevTerm(s.log, Before(next)),
                  ToWireAll(ToSend(s.log, next, maxEntries)), s.commitIndex)
  }

  /** The entries a request carries: those from the next index on, up to the limit. */
  function ToSend(l: Log, next: nat, maxEntries: nat): Log {
    var pending := EntriesFrom(l, next);
    if next > LastIndex(l) then [] else if |pending| > maxEntries then pending[..maxEntries] else pending
  }

  /** The request of sendHeartbeatToPeer. */
  function BuildHeartbeat(s: NodeState, p: NodeId): AppendRequest {
    var prev := Before(NextFor(s, p));
    AppendRequest(s.term, s.id, prev, PrevTerm(s.log, prev), [], s.commitIndex)
  }

  // ---------------------------------------------------------------- following

  /** The follower's new commit index, given its log after the merge. */
  function FollowerCommit(rules: Rules, commit: nat, l: Log, req: AppendRequest): nat {
    if req.leaderCommit <= commit then commit
    else if rules.documentedCommit then Max(commit, Min(req.leaderCommit, req.prevIndex + |req.entries|))
    else Min(req.leaderCommit, LastIndex(l))
  }

  /** Steps 1 and 2 of processAppendEntries: adopt the term and leave candidacy. */
  function Defer(s: NodeState, t: nat): NodeState {
    var s1 := if t > s.term then StepDown(s, t) else s;
    if s1.role == Candidate then SetRole(s1, Follower) else s1
  }

  function HandleAppend(rules: Rules, s: NodeState, req: AppendRequest): (NodeState, AppendReply) {
    if req.term < s.term then
      (s, AppendReply(s.term, false, 0, 0))
    else
      var s1 := Defer(s, req.term);
      var mine := TermAt(s1.log, req.prevIndex);
      if req.prevIndex > 0 && req.prevIndex > LastIndex(s1.log) then
        (s1, AppendReply(req.term, false, LastIndex(s1.log) + 1, 0))
      else if req.prevIndex > 0 && mine != req.prevTerm then
        (s1, AppendReply(req.term, false, WalkBack(s1.log, req.prevIndex, mine) + 1, mine))
      else
        var l := ApplyEntries(s1.log, req.entries);
        (s1.(log := l, commitIndex := FollowerCommit(rules, s1.commitIndex, l, req)), AppendReply(req.term, true, 0, 0))
  }

  // ---------------------------------------------------------------- replies to the leader

  function PeerMatches(m: map<NodeId, nat>, peers: seq<NodeId>): seq<nat> {
    seq(|peers|, i requires 0 <= i < |peers| => Get(m, peers[i]))
  }

  /** The leader's own last index, then the match index of each peer. */
  function MatchIndices(s: NodeState): seq<nat>
    requires s.leader.Some?
  {
    [LastIndex(s.log)] + PeerMatches(s.leader.value.matchIndex, s.peers)
  }

  /** tryAdvanceCommitIndex. */
  function TryAdvance(s: NodeState): NodeState {
    if s.role != Leader || s.leader.None? || LastIndex(s.log) <= s.commitIndex then s
    else s.(commitIndex := ScanDown(s.log, s.term, s.commitIndex, MajorityMatch(MatchIndices(s))))
  }

  function SetNext(s: NodeState, p: NodeId, next: nat): NodeState
    requires s.leader.Some?
  {
    s.(leader := Some(s.leader.value.(nextIndex := s.leader.value.nextIndex[p := next])))
  }

  function SetMatch(s: NodeState, p: NodeId, m: nat): NodeState
    requires s.leader.Some?
  {
    s.(leader := Some(s.leader.value.(matchIndex := s.leader.value.matchIndex[p := m])))
  }

  /** A peer confirmed the entries up to `sent`. */
  function Replicated(s: NodeState, p: NodeId, sent: nat): NodeState
    requires s.leader.Some?
  {
    TryAdvance(SetMatch(SetNext(s, p, sent + 1), p, sent))
  }

  /** handleAppendEntriesResponse. */
  function HandleAppendReply(s: NodeState, p: NodeId, req: AppendRequest, resp: AppendReply): NodeState {
    if resp.term > s.term then StepDown(s, resp.term)
    else if s.role != Leader || s.term != req.term || s.leader.None? then s
    else if resp.success then
      if req.entries == [] then s
      else Replicated(s, p, req.entries[|req.entries| - 1].index)
    else if resp.conflictIndex > 0 then SetNext(s, p, resp.conflictIndex)
    else if NextFor(s, p) > 1 then SetNext(s, p, NextFor(s, p) - 1)
    else s
  }

  /** The reply handling of sendHeartbeatToPeer, which ignores conflict hints. */
  function HandleHeartbeatReply(s: NodeState, p: NodeId, term: nat, resp: AppendReply): NodeState {
    if resp.term > s.term then StepDown(s, resp.term)
    else if s.role != Leader || s.term != term then s
    else if !resp.success && s.leader.Some? && NextFor(s, p) > 1 then SetNext(s, p, NextFor(s, p) - 1)
    else s
  }

  // ---------------------------------------------------------------- applying

  /** applyCommittedEntries: one entry at a time up to `upTo`, stopping at the end of the log. */
  function ApplyUpTo(decode: Decoder, s: NodeState, upTo: nat): NodeState
    decreases upTo - s.lastApplied
  {
    if s.lastApplied >= upTo || s.lastApplied >= |s.log| then s
    else
      ApplyUpTo(decode, s.(store := ApplyEntry(decode, s.store, s.log[s.lastApplied]),
          lastApplied := s.lastApplied + 1), upTo)
  }

  function ApplyCommitted(decode: Decoder, s: NodeState): NodeState {
    ApplyUpTo(decode, s, s.commitIndex)
  }

  /** Applying reaches the commit index and keeps the store equal to the replay of the applied prefix. */
  lemma {:induction false} ApplyUpToIs(decode: Decoder, s: NodeState, upTo: nat)
    requires s.lastApplied <= upTo <= |s.log| && s.store == Replay(decode, s.log[..s.lastApplied])
    ensures ApplyUpTo(decode, s, upTo) == s.(lastApplied := upTo, store := Replay(decode, s.log[..upTo]))
    decreases upTo - s.lastApplied
  {
    if s.lastApplied < upTo {
      var i := s.lastApplied;
      assert s.log[..i + 1][..i] == s.log[..i];
      ApplyUpToIs(decode, s.(store := ApplyEntry(decode, s.store, s.log[i]), lastApplied := i + 1), upTo);
    }
  }
}
