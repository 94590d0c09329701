/** A Raft node as the source writes it: fields updated in place, one method per lock-held section. */
module RaftNode {
  // Each method is tied to its step in NodeSpec under the rules AS_WRITTEN. What is proved about
  // runs for every choice of rules is therefore about this code; what is proved for careful runs
  // is about its runs with harmless deliveries.

  import opened RaftTypes
  import opened Logs
  import opened CommitRule
  import opened StateMachine
  import opened NodeSpec
  import opened Answers

  class Node {
    const id: NodeId
    const peers: seq<NodeId>
    const stateMachine: KVStateMachine

    // ServerState
    var currentTerm: nat
    var votedFor: Option<NodeId>
    var log: Log

    // VolatileState
    var commitIndex: nat
    var lastApplied: nat

    var role: Role
    var leaderState: Option<LeaderState>

    // ElectionState
    var votesReceived: set<Option<NodeId>>
    var voteCount: nat

    /** Whose votes have been counted in this term; the source does not keep this. */
    ghost var voters: set<NodeId>

    ghost predicate Valid()
      reads this
    {
      voteCount == |votesReceived|
    }

    ghost function State(): NodeState
      reads this, stateMachine
    {
      NodeState(id, peers, currentTerm, votedFor, log, commitIndex, lastApplied, role, leaderState,
                votesReceived, voters, stateMachine.store)
    }

    constructor (id: NodeId, peers: seq<NodeId>, decode: Decoder)
      ensures Valid() && State() == NewNode(id, peers) && stateMachine.decode == decode && fresh(stateMachine)
    {
      this.id := id;
      this.peers := peers;
      currentTerm, votedFor, log := 0, None, [];
      commitIndex, lastApplied := 0, 0;
      role, leaderState := Follower, None;
      votesReceived, voteCount, voters := {}, 0, {};
      stateMachine := new KVStateMachine(decode);
    }

    // -------------------------------------------------------------- roles

    /** LastLogIndexAndTerm. */
    method LastLogIndexAndTerm() returns (index: nat, term: nat)
      ensures index == LastIndex(log) && term == LastTerm(log)
    {
      if |log| == 0 {
        return 0, 0;
      }
      var last := log[|log| - 1];
      return last.index, last.term;
    }

    method SetState(r: Role)
      requires Valid()
      modifies this`role, this`leaderState
      ensures Valid() && State() == SetRole(old(State()), r)
    {
      var oldRole := role;
      role := r;
      if oldRole != r {
        if r == Leader {
          var lastLogIndex, _ := LastLogIndexAndTerm();
          leaderState := Some(FreshLeader(peers, lastLogIndex));
        } else {
          leaderState := None;
        }
      }
    }

    method StepDown(newTerm: nat)
      requires Valid()
      modifies this`role, this`leaderState, this`currentTerm, this`votedFor
      ensures Valid() && State() == NodeSpec.StepDown(old(State()), newTerm)
    {
      if newTerm > currentTerm {
        currentTerm := newTerm;
        votedFor := None;
      }
      SetState(Follower);
    }

    /** ElectionState.AddVote: a key counts once. */
    method AddVote(key: Option<NodeId>) returns (added: bool)
      requires Valid()
      modifies this`votesReceived, this`voteCount
      ensures Valid() && votesReceived == old(votesReceived) + {key}
      ensures added <==> key !in old(votesReceived)
    {
      if key in votesReceived {
        assert votesReceived + {key} == votesReceived;
        return false;
      }
      votesReceived := votesReceived + {key};
      voteCount := voteCount + 1;
      return true;
    }

    method BecomeCandidate()
      requires Valid()
      modifies this
      ensures Valid() && State() == NodeSpec.BecomeCandidate(old(State()))
    {
      SetState(Candidate);
      currentTerm := currentTerm + 1;
      votedFor := Some(id);
      votesReceived, voteCount, voters := {}, 0, {id};
      var _ := AddVote(Some(id));
      assert {} + {Some(id)} == {Some(id)};
    }

    // -------------------------------------------------------------- elections

    /** Grants exactly the votes that are due, and always answers in its own term. */
    method RequestVote(req: VoteRequest) returns (resp: VoteReply)
      requires Valid()
      modifies this
      ensures Valid() && (State(), resp) == HandleVoteRequest(old(State()), req)
      ensures resp.term == currentTerm == Max(old(currentTerm), req.term)
      ensures resp.granted <==>
                && req.term >= old(currentTerm)
                && (req.term > old(currentTerm) || old(votedFor) == None || old(votedFor) == Some(req.cand))
                && NoLaterThan(log, req.lastTerm, req.lastIndex)
    {
      GrantsExactly(State(), req);
      if req.term < currentTerm {
        return VoteReply(currentTerm, false);
      }
      if req.term > currentTerm {
        StepDown(req.term);
      }
      if votedFor.Some? && votedFor.value != req.cand {
        return VoteReply(currentTerm, false);
      }
      var lastLogIndex, lastLogTerm := LastLogIndexAndTerm();
      var logIsUpToDate := false;
      if req.lastTerm > lastLogTerm {
        logIsUpToDate := true;
      } else if req.lastTerm == lastLogTerm && req.lastIndex >= lastLogIndex {
        logIsUpToDate := true;
      }
      if !logIsUpToDate {
        return VoteReply(currentTerm, false);
      }
      votedFor := Some(req.cand);
      return VoteReply(currentTerm, true);
    }

    /** The filter of sendRequestVote and one round of the counting loop of startElection. */
    method CountVote(req: VoteRequest, from: NodeId, resp: VoteReply)
      requires Valid()
      modifies this
      ensures Valid() && State() == HandleVoteReply(AS_WRITTEN, old(State()), req, from, resp)
    {
      if resp.term > currentTerm {
        StepDown(resp.term);
        return;
      }
      if resp.term < req.term || !resp.granted {
        return;
      }
      var votesNeeded := (|peers| + 1 + 1) / 2;
      var _ := AddVote(None);
      if role == Candidate && currentTerm == req.term {
        voters := voters + {from};
        if voteCount >= votesNeeded {
          SetState(Leader);
        }
      }
    }

    // -------------------------------------------------------------- leading

    method AppendLogEntry(data: Bytes, kind: EntryKind) returns (index: nat, isLeader: bool)
      requires Valid()
      modifies this`log
      ensures Valid() && State() == AppendLocal(old(State()), data, kind)
      ensures isLeader <==> role == Leader
      ensures isLeader ==>
                && |log| == old(|log|) + 1 && log[..old(|log|)] == old(log)
                && log[old(|log|)].index == index && log[old(|log|)].data == data
                && log[old(|log|)].kind == kind && log[old(|log|)].term == currentTerm
    {
      if role != Leader {
        return 0, false;
      }
      var lastLogIndex, _ := LastLogIndexAndTerm();
      index := lastLogIndex + 1;
      log := log + [Entry(currentTerm, index, data, kind)];
      isLeader := true;
    }

    /** ConvertToProto. */
    method ConvertToProto(es: Log) returns (ws: seq<WireEntry>)
      ensures ws == ToWireAll(es)
    {
      ws := [];
      for i := 0 to |es|
        invariant ws == ToWireAll(es[..i])
      {
        ws := ws + [ToWire(es[i])];
      }
      assert es[..|es|] == es;
    }

    method EntriesToSend(nextIndex: nat, maxEntries: nat) returns (entries: seq<WireEntry>)
      ensures entries == ToWireAll(ToSend(log, nextIndex, maxEntries))
    {
      entries := [];
      var lastLogIndex, _ := LastLogIndexAndTerm();
      if nextIndex <= lastLogIndex {
        var logEntries := EntriesFrom(log, nextIndex);
        if |logEntries| > maxEntries {
          logEntries := logEntries[..maxEntries];
        }
        entries := ConvertToProto(logEntries);
      }
    }

    /** buildAppendEntriesRequest. */
    method BuildAppendEntriesRequest(p: NodeId, maxEntries: nat) returns (req: AppendRequest)
      requires Valid()
      ensures req == BuildAppend(State(), p, maxEntries)
    {
      var nextIndex := 1;
      if leaderState.Some? {
        nextIndex := Get(leaderState.value.nextIndex, p);
      }
      var prevLogIndex: nat := if nextIndex == 0 then 0xFFFF_FFFF_FFFF_FFFF else nextIndex - 1;
      var prevLogTerm := 0;
      if prevLogIndex > 0 {
        prevLogTerm := TermAt(log, prevLogIndex);
      }
      var entries := EntriesToSend(nextIndex, maxEntries);
      req := AppendRequest(currentTerm, id, prevLogIndex, prevLogTerm, entries, commitIndex);
    }

    // -------------------------------------------------------------- following

    method TruncateLogAfter(index: nat)
      modifies this`log
      ensures log == TruncateAfter(old(log), index)
    {
      if index == 0 {
        log := [];
      } else if index < |log| {
        log := log[..index];
      }
    }

    method ApplyLogEntries(entries: seq<WireEntry>)
      modifies this`log
      ensures log == ApplyEntries(old(log), entries)
    {
      var i := 0;
      while i < |entries|
        invariant 0 <= i <= |entries|
        invariant log == ApplyEntries(old(log), entries[..i])
      {
        var entry := entries[i];
        assert entries[..i + 1][..i] == entries[..i];
        if entry.index <= |log| {
          var existingTerm := TermAt(log, entry.index);
          if existingTerm != entry.term {
            if entry.index > 0 {
              TruncateLogAfter(entry.index - 1);
            }
            log := log + [FromWire(entry)];
          }
        } else {
          log := log + [FromWire(entry)];
        }
        i := i + 1;
      }
      assert entries[..i] == entries;
    }

    /** Steps 1 and 2 of processAppendEntries for a request that is not stale. */
    method AdoptTerm(term: nat)
      requires Valid() && currentTerm <= term
      modifies this`role, this`leaderState, this`currentTerm, this`votedFor
      ensures Valid() && State() == Defer(old(State()), term)
    {
      if term > currentTerm {
        StepDown(term);
      }
      if role == Candidate {
        SetState(Follower);
      }
    }

    /** The loop that looks for the first index of the conflicting term. */
    method BeforeRun(prev: nat, term: nat) returns (conflictIndex: nat)
      ensures conflictIndex == WalkBack(log, prev, term)
    {
      conflictIndex := prev;
      while conflictIndex > 0 && TermAt(log, conflictIndex) == term
        invariant WalkBack(log, prev, term) == WalkBack(log, conflictIndex, term)
      {
        conflictIndex := conflictIndex - 1;
      }
    }

    /** Accepts exactly what is not stale and fits its log, and always answers in its own term. */
    method ProcessAppendEntries(req: AppendRequest) returns (resp: AppendReply)
      requires Valid()
      modifies this
      ensures Valid() && (State(), resp) == HandleAppend(AS_WRITTEN, old(State()), req)
      ensures resp.term == currentTerm == Max(old(currentTerm), req.term)
      ensures WellIndexed(old(log)) ==>
              (resp.success <==> req.term >= old(currentTerm) && HasPrevious(old(State()), req))
    {
      RepliesInOwnTerm(AS_WRITTEN, State(), req, VoteRequest(0, 0, 0, 0));
      if WellIndexed(log) { AnswersExactly(AS_WRITTEN, State(), req); }
      if req.term < currentTerm {
        return AppendReply(currentTerm, false, 0, 0);
      }
      AdoptTerm(req.term);
      var rejection := CheckPrevious(req);
      if rejection.Some? {
        return rejection.value;
      }
      AcceptEntries(req);
      return AppendReply(req.term, true, 0, 0);
    }

    /** Step 3: the log must hold the entry before the request's, or the reply says where it departs. */
    method CheckPrevious(req: AppendRequest) returns (rejection: Option<AppendReply>)
      ensures rejection ==
                if req.prevIndex > 0 && req.prevIndex > LastIndex(log) then
                  Some(AppendReply(req.term, false, LastIndex(log) + 1, 0))
                else if req.prevIndex > 0 && TermAt(log, req.prevIndex) != req.prevTerm then
                  var mine := TermAt(log, req.prevIndex);
                  Some(AppendReply(req.term, false, WalkBack(log, req.prevIndex, mine) + 1, mine))
                else None
    {
      if req.prevIndex > 0 {
        var lastLogIndex, _ := LastLogIndexAndTerm();
        if req.prevIndex > lastLogIndex {
          return Some(AppendReply(req.term, false, lastLogIndex + 1, 0));
        }
        var termAtPrevIndex := TermAt(log, req.prevIndex);
        if termAtPrevIndex != req.prevTerm {
          var conflictIndex := BeforeRun(req.prevIndex, termAtPrevIndex);
          return Some(AppendReply(req.term, false, conflictIndex + 1, termAtPrevIndex));
        }
      }
      return None;
    }

    /** Steps 4 and 5: merge the entries, then move the commit index. */
    method AcceptEntries(req: AppendRequest)
      modifies this`log, this`commitIndex
      ensures log == ApplyEntries(old(log), req.entries)
      ensures commitIndex == FollowerCommit(AS_WRITTEN, old(commitIndex), log, req)
    {
      if |req.entries| > 0 {
        ApplyLogEntries(req.entries);
      }
      if req.leaderCommit > commitIndex {
        var lastLogIndex, _ := LastLogIndexAndTerm();
        commitIndex := Min(req.leaderCommit, lastLogIndex);
      }
    }

    // -------------------------------------------------------------- replies to the leader

    method TryAdvanceCommitIndex()
      requires Valid()
      modifies this`commitIndex
      ensures Valid() && State() == TryAdvance(old(State()))
      ensures Leading(old(State())) ==> CommitsLargest(old(State()), State())
    {
      if Leading(State()) { AdvancesExactly(State()); }
      if role != Leader || leaderState.None? {
        return;
      }
      var lastLogIndex, _ := LastLogIndexAndTerm();
      if lastLogIndex <= commitIndex {
        return;
      }
      var matchIndices := [lastLogIndex];
      var i := 0;
      while i < |peers|
        invariant 0 <= i <= |peers|
        invariant matchIndices == [lastLogIndex] + PeerMatches(leaderState.value.matchIndex, peers[..i])
      {
        matchIndices := matchIndices + [Get(leaderState.value.matchIndex, peers[i])];
        i := i + 1;
      }
      assert peers[..i] == peers;
      SortDescendingIs(matchIndices, 0);
      var sorted := SortDescending(matchIndices);
      var quorumIndex := (|peers| + 1 - 1) / 2;
      var n: nat := sorted[quorumIndex];
      ghost var before := commitIndex;
      while n > commitIndex
        invariant commitIndex == before
        invariant ScanDown(log, currentTerm, before, sorted[quorumIndex]) == ScanDown(log, currentTerm, before, n)
      {
        if TermAt(log, n) == currentTerm {
          commitIndex := n;
          return;
        }
        n := n - 1;
      }
    }

    method HandleAppendEntriesResponse(p: NodeId, req: AppendRequest, resp: AppendReply) returns (ok: bool)
      requires Valid()
      modifies this
      ensures Valid() && State() == HandleAppendReply(old(State()), p, req, resp)
      ensures ok <==>
                && resp.success && resp.term <= old(currentTerm) == req.term
                && old(role) == Leader && old(leaderState).Some?
    {
      if resp.term > currentTerm {
        StepDown(resp.term);
        return false;
      }
      if role != Leader || currentTerm != req.term {
        return false;
      }
      if leaderState.None? {
        return false;
      }
      var ls := leaderState.value;
      if resp.success {
        if |req.entries| > 0 {
          var lastSentIndex := req.entries[|req.entries| - 1].index;
          leaderState := Some(LeaderState(ls.nextIndex[p := lastSentIndex + 1], ls.matchIndex[p := lastSentIndex]));
          TryAdvanceCommitIndex();
        }
        return true;
      }
      var nextIndex := Get(ls.nextIndex, p);
      if resp.conflictIndex > 0 {
        leaderState := Some(ls.(nextIndex := ls.nextIndex[p := resp.conflictIndex]));
      } else if nextIndex > 1 {
        leaderState := Some(ls.(nextIndex := ls.nextIndex[p := nextIndex - 1]));
      }
      return false;
    }

    /** The reply handling at the end of sendHeartbeatToPeer. */
    method HandleHeartbeatResponse(p: NodeId, term: nat, resp: AppendReply)
      requires Valid()
      modifies this
      ensures Valid() && State() == HandleHeartbeatReply(old(State()), p, term, resp)
    {
      if resp.term > currentTerm {
        StepDown(resp.term);
        return;
      }
      if role != Leader || currentTerm != term {
        return;
      }
      if !resp.success && leaderState.Some? {
        var ls := leaderState.value;
        var nextIndex := Get(ls.nextIndex, p);
        if nextIndex > 1 {
          leaderState := Some(ls.(nextIndex := ls.nextIndex[p := nextIndex - 1]));
        }
      }
    }

    // -------------------------------------------------------------- applying

    method ApplyCommittedEntries()
      requires Valid()
      modifies this`lastApplied, stateMachine
      ensures Valid() && State() == ApplyCommitted(stateMachine.decode, old(State()))
    {
      var i := lastApplied + 1;
      while i <= commitIndex
        invariant i == lastApplied + 1
        invariant ApplyUpTo(stateMachine.decode, old(State()), commitIndex) ==
                  ApplyUpTo(stateMachine.decode, State(), commitIndex)
        invariant State() == old(State()).(lastApplied := lastApplied, store := stateMachine.store)
        decreases commitIndex + 1 - i
      {
        if i == 0 || i > |log| {
          break;
        }
        var entry := log[i - 1];
        if entry.kind != EntryNoOp {
          var _ := stateMachine.Apply(entry.data);
        }
        lastApplied := i;
        i := i + 1;
      }
    }
  }
}
