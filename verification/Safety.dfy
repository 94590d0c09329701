/** Raft's safety properties over whole runs of the cluster. */
module Safety {
  // Every theorem is about a run from an initial state and compares any two moments of it. The
  // first part holds for the code as it is, and for each of its rules: it speaks of terms, votes
  // and logs, which the follower's commit bound does not reach. The second part is about what
  // nodes take as committed, and holds for runs that are careful: followers use the documented
  // bound, or every delivery is harmless. LiteralRuns shows that the code needs the latter.

  import opened RaftTypes
  import opened Logs
  import opened StateMachine
  import opened NodeSpec
  import opened Answers
  import opened Cluster
  import opened Protocol
  import opened ProtocolSteps
  import opened Refinement
  import opened RefinementAppend
  import opened Runs
  import opened Erasure
  import LC = LeaderCompleteness

  // ---------------------------------------------------------------- what one moment shows at a later one

  /** A node's view, remembered: its log is grounded and its committed prefix known. */
  ghost predicate Seen(h: History, s: NodeState) {
    && Grounded(h, CanonAll(s.log)) && Known(h, s.term, CanonAll(s.log), s.commitIndex)
    && s.commitIndex <= |s.log|
  }

  lemma SeenLater(decode: Decoder, c: State, h: History, h': History, v: NodeId)
    requires CInv(decode, c, h) && Grows(h, h') && v in c.nodes
    ensures Seen(h', c.nodes[v])
  {
    NodeIs(decode, c, h, v);
    GroundedGrows(h, h', CanonAll(c.nodes[v].log));
    KnownGrows(h, h', c.nodes[v].term, c.nodes[v].term, CanonAll(c.nodes[v].log), c.nodes[v].commitIndex);
  }

  /** Two nodes at two moments, with the histories then and one that extends both. */
  lemma BothMoments(rules: Rules, decode: Decoder, c: State, run: seq<Step>, i: nat, j: nat)
      returns (hi: History, hj: History, h: History, last: State)
    requires Setting(rules, c) && Careful(rules, decode, c, run) && i <= |run| && j <= |run|
    ensures CInv(decode, At(rules, decode, c, run, i), hi) && CInv(decode, At(rules, decode, c, run, j), hj)
    ensures CInv(decode, last, h) && Grows(hi, h) && Grows(hj, h)
    ensures last == if i <= j then At(rules, decode, c, run, j) else At(rules, decode, c, run, i)
  {
    if i <= j {
      hi, hj := TwoMoments(rules, decode, c, run, i, j);
      h, last := hj, At(rules, decode, c, run, j);
    } else {
      hj, hi := TwoMoments(rules, decode, c, run, j, i);
      h, last := hi, At(rules, decode, c, run, i);
    }
    GrowsRefl(h);
  }

  /** Two nodes at two moments, both remembered in one state that has the invariant. */
  lemma BothSeen(rules: Rules, decode: Decoder, c: State, run: seq<Step>, i: nat, u: NodeId, j: nat, v: NodeId)
      returns (last: State, h: History)
    requires Setting(rules, c) && Careful(rules, decode, c, run) && i <= |run| && j <= |run|
    requires u in At(rules, decode, c, run, i).nodes && v in At(rules, decode, c, run, j).nodes
    ensures CInv(decode, last, h)
    ensures Seen(h, At(rules, decode, c, run, i).nodes[u]) && Seen(h, At(rules, decode, c, run, j).nodes[v])
  {
    var hi, hj;
    hi, hj, h, last := BothMoments(rules, decode, c, run, i, j);
    SeenLater(decode, At(rules, decode, c, run, i), hi, h, u);
    SeenLater(decode, At(rules, decode, c, run, j), hj, h, v);
  }

  /** The same counting of votes with the documented commit bound. */
  function Documented(rules: Rules): Rules {
    rules.(documentedCommit := true)
  }

  // ---------------------------------------------------------------- the code and all its rules

  /** Log matching: entries with the same index and term, anywhere in the run, end identical prefixes. */
  lemma LogMatchingOverRuns(
      rules: Rules, decode: Decoder, c: State, run: seq<Step>, i: nat, u: NodeId, j: nat, v: NodeId, k: nat)
    requires Setting(rules, c) && i <= |run| && j <= |run|
    requires u in At(rules, decode, c, run, i).nodes && v in At(rules, decode, c, run, j).nodes
    requires var a, b := At(rules, decode, c, run, i).nodes[u].log, At(rules, decode, c, run, j).nodes[v].log;
             k < |a| && k < |b| && a[k].term == b[k].term
    ensures var a, b := At(rules, decode, c, run, i).nodes[u].log, At(rules, decode, c, run, j).nodes[v].log;
            CanonAll(a[..k + 1]) == CanonAll(b[..k + 1])
  {
    var rules' := Documented(rules);
    var run' := RunAlike(rules, rules', decode, c, run);
    var a, b := At(rules, decode, c, run, i).nodes[u].log, At(rules, decode, c, run, j).nodes[v].log;
    assert a == At(rules', decode, c, run', i).nodes[u].log && b == At(rules', decode, c, run', j).nodes[v].log;
    MatchingWhenCareful(rules', decode, c, run', i, u, j, v, k);
    CanonPrefix(a, k + 1);
    CanonPrefix(b, k + 1);
  }

  lemma MatchingWhenCareful(
      rules: Rules, decode: Decoder, c: State, run: seq<Step>, i: nat, u: NodeId, j: nat, v: NodeId, k: nat)
    requires Setting(rules, c) && Careful(rules, decode, c, run) && i <= |run| && j <= |run|
    requires u in At(rules, decode, c, run, i).nodes && v in At(rules, decode, c, run, j).nodes
    requires var a, b := At(rules, decode, c, run, i).nodes[u].log, At(rules, decode, c, run, j).nodes[v].log;
             k < |a| && k < |b| && a[k].term == b[k].term
    ensures var a, b := At(rules, decode, c, run, i).nodes[u].log, At(rules, decode, c, run, j).nodes[v].log;
            CanonAll(a)[..k + 1] == CanonAll(b)[..k + 1]
  {
    var a, b := At(rules, decode, c, run, i).nodes[u].log, At(rules, decode, c, run, j).nodes[v].log;
    var last, h := BothSeen(rules, decode, c, run, i, u, j, v);
    LogMatching(h, CanonAll(a), CanonAll(b), k);
  }

  /** Logs carry the indices 1..n in order, and terms never decrease along a log. */
  lemma LogShape(rules: Rules, decode: Decoder, c: State, run: seq<Step>, v: NodeId, i: nat, j: nat)
    requires Setting(rules, c) && v in Exec(rules, decode, c, run).nodes
    requires i <= j < |Exec(rules, decode, c, run).nodes[v].log|
    ensures var l := Exec(rules, decode, c, run).nodes[v].log;
            l[i].index == i + 1 && l[i].term <= l[j].term <= Exec(rules, decode, c, run).nodes[v].term
  {
    var rules' := Documented(rules);
    var run' := RunAlike(rules, rules', decode, c, run);
    AtEnd(rules, decode, c, run);
    var s := At(rules', decode, c, run', |run|);
    assert Erase(Exec(rules, decode, c, run).nodes[v]) == Erase(s.nodes[v]);
    var h, _ := TwoMoments(rules', decode, c, run', |run|, |run|);
    ShapeOf(decode, s, h, v, i, j);
  }

  lemma ShapeOf(decode: Decoder, s: State, h: History, v: NodeId, i: nat, j: nat)
    requires CInv(decode, s, h) && v in s.nodes && i <= j < |s.nodes[v].log|
    ensures var l := s.nodes[v].log; l[i].index == i + 1 && l[i].term <= l[j].term <= s.nodes[v].term
  {
    NodeIs(decode, s, h, v);
    TermsSorted(QuorumsFor(s.nodes.Keys), AbsNodes(s), h, CanonAll(s.nodes[v].log), i, j);
    assert CanonAll(s.nodes[v].log)[j].term < s.nodes[v].term + 1;
  }

  /** Election safety: over a whole run at most one node is ever leader in a term. */
  lemma ElectionSafety(rules: Rules, decode: Decoder, c: State, run: seq<Step>, i: nat, u: NodeId, j: nat, v: NodeId)
    requires Setting(rules, c) && i <= |run| && j <= |run|
    requires u in At(rules, decode, c, run, i).nodes && v in At(rules, decode, c, run, j).nodes
    requires var a, b := At(rules, decode, c, run, i).nodes[u], At(rules, decode, c, run, j).nodes[v];
             a.role == Leader && b.role == Leader && a.term == b.term
    ensures u == v
  {
    var rules' := Documented(rules);
    var run' := RunAlike(rules, rules', decode, c, run);
    var hi, hj, h, _ := BothMoments(rules', decode, c, run', i, j);
    var a, b := At(rules', decode, c, run', i).nodes[u], At(rules', decode, c, run', j).nodes[v];
    assert Erase(At(rules, decode, c, run, i).nodes[u]) == Erase(a);
    assert Erase(At(rules, decode, c, run, j).nodes[v]) == Erase(b);
    ElectedOf(decode, At(rules', decode, c, run', i), hi, h, u);
    ElectedOf(decode, At(rules', decode, c, run', j), hj, h, v);
  }

  lemma ElectedOf(decode: Decoder, c: State, h: History, h': History, v: NodeId)
    requires CInv(decode, c, h) && Grows(h, h') && v in c.nodes && c.nodes[v].role == Leader
    ensures c.nodes[v].term in h'.elections && h'.elections[c.nodes[v].term].leader == v
  {
    NodeIs(decode, c, h, v);
    assert ElectionGrows(h, h', c.nodes[v].term);
  }

  /**
   * Match-index soundness: while a leader and a peer share a term, the peer's log agrees
   * with the leader's through the recorded match index, however late the replies came.
   */
  lemma MatchIndexSound(rules: Rules, decode: Decoder, c: State, run: seq<Step>, u: NodeId, p: NodeId)
    requires Setting(rules, c)
    requires var s := Exec(rules, decode, c, run);
             && u in s.nodes && p in s.nodes && s.nodes[u].role == Leader && s.nodes[u].leader.Some?
             && s.nodes[u].term == s.nodes[p].term
    ensures var s := Exec(rules, decode, c, run);
            var m := Get(s.nodes[u].leader.value.matchIndex, p);
            && m <= |s.nodes[u].log| && m <= |s.nodes[p].log|
            && CanonAll(s.nodes[u].log[..m]) == CanonAll(s.nodes[p].log[..m])
  {
    var rules' := Documented(rules);
    var run' := RunAlike(rules, rules', decode, c, run);
    AtEnd(rules, decode, c, run);
    var s, d := Exec(rules, decode, c, run), At(rules', decode, c, run', |run|);
    assert Erase(s.nodes[u]) == Erase(d.nodes[u]) && Erase(s.nodes[p]) == Erase(d.nodes[p]);
    var h, _ := TwoMoments(rules', decode, c, run', |run|, |run|);
    MatchedAgrees(decode, d, h, u, p);
    var m := Get(s.nodes[u].leader.value.matchIndex, p);
    CanonPrefix(s.nodes[u].log, m);
    CanonPrefix(s.nodes[p].log, m);
  }

  lemma MatchedAgrees(decode: Decoder, c: State, h: History, u: NodeId, p: NodeId)
    requires CInv(decode, c, h) && u in c.nodes && p in c.nodes
    requires c.nodes[u].role == Leader && c.nodes[u].leader.Some? && c.nodes[u].term == c.nodes[p].term
    ensures AgreeTo(CanonAll(c.nodes[p].log), CanonAll(c.nodes[u].log), Get(c.nodes[u].leader.value.matchIndex, p))
  {
    NodeIs(decode, c, h, u);
    var m, t := Get(c.nodes[u].leader.value.matchIndex, p), c.nodes[u].term;
    if m > 0 {
      assert Acked(h, p, t, m);
      assert AckOk(AbsNodes(c), h, p, t);
      assert Kept(h, CanonAll(c.nodes[p].log), t, m, t);
    }
  }

  /**
   * Leader completeness, for what leaders commit by counting: an entry that a leader of some
   * term may commit is in the log of every node that leads a later term, whichever of the two
   * moments comes first.
   */
  lemma CountedIsKept(rules: Rules, decode: Decoder, c: State, run: seq<Step>, i: nat, u: NodeId, j: nat, v: NodeId,
      k: nat)
    requires Setting(rules, c) && i <= |run| && j <= |run|
    requires u in At(rules, decode, c, run, i).nodes && v in At(rules, decode, c, run, j).nodes
    requires Counted(At(rules, decode, c, run, i).nodes[u], k) && At(rules, decode, c, run, j).nodes[v].role == Leader
    requires At(rules, decode, c, run, i).nodes[u].term < At(rules, decode, c, run, j).nodes[v].term
    ensures var a, b := At(rules, decode, c, run, i).nodes[u].log, At(rules, decode, c, run, j).nodes[v].log;
            k <= |b| && CanonAll(a[..k]) == CanonAll(b[..k])
  {
    var rules' := Documented(rules);
    var run' := RunAlike(rules, rules', decode, c, run);
    var ci, cj := At(rules', decode, c, run', i), At(rules', decode, c, run', j);
    assert Erase(At(rules, decode, c, run, i).nodes[u]) == Erase(ci.nodes[u]);
    assert Erase(At(rules, decode, c, run, j).nodes[v]) == Erase(cj.nodes[v]);
    CountedErases(At(rules, decode, c, run, i).nodes[u], ci.nodes[u], k);
    CountedWhenCareful(rules', decode, c, run', i, u, j, v, k);
    CanonPrefix(ci.nodes[u].log, k);
    CanonPrefix(cj.nodes[v].log, k);
  }

  lemma CountedWhenCareful(
      rules: Rules, decode: Decoder, c: State, run: seq<Step>, i: nat, u: NodeId, j: nat, v: NodeId, k: nat)
    requires Setting(rules, c) && Careful(rules, decode, c, run) && i <= |run| && j <= |run|
    requires u in At(rules, decode, c, run, i).nodes && v in At(rules, decode, c, run, j).nodes
    requires Counted(At(rules, decode, c, run, i).nodes[u], k) && At(rules, decode, c, run, j).nodes[v].role == Leader
    requires At(rules, decode, c, run, i).nodes[u].term < At(rules, decode, c, run, j).nodes[v].term
    ensures var a, b := At(rules, decode, c, run, i).nodes[u].log, At(rules, decode, c, run, j).nodes[v].log;
            AgreeTo(CanonAll(b), CanonAll(a), k)
  {
    var ci, cj := At(rules, decode, c, run, i), At(rules, decode, c, run, j);
    ExecKeepsServers(rules, decode, c, run[..i]);
    ExecKeepsServers(rules, decode, c, run[..j]);
    var hi, hj, h, last := BothMoments(rules, decode, c, run, i, j);
    LeaderSince(decode, cj, hj, h, v);
    CountedHolds(decode, ci, hi, last, h, u, k, cj.nodes[v]);
  }

  lemma CountedErases(s: NodeState, t: NodeState, k: nat)
    requires Erase(s) == Erase(t) && Counted(s, k)
    ensures Counted(t, k)
  {
    assert MatchIndices(s) == MatchIndices(Erase(s)) && MatchIndices(t) == MatchIndices(Erase(t));
  }

  /** A leader's log starts with the log it was elected with. */
  ghost predicate Led(h: History, s: NodeState) {
    s.term in h.elections && h.elections[s.term].base <= CanonAll(s.log)
  }

  lemma LeaderSince(decode: Decoder, c: State, h: History, h': History, v: NodeId)
    requires CInv(decode, c, h) && Grows(h, h') && v in c.nodes && c.nodes[v].role == Leader
    ensures Led(h', c.nodes[v])
  {
    NodeIs(decode, c, h, v);
    assert ElectionOk(QuorumsFor(c.nodes.Keys), h, c.nodes[v].term);
    assert ElectionGrows(h, h', c.nodes[v].term);
  }

  lemma CountedHolds(decode: Decoder, c: State, h: History, last: State, h': History, u: NodeId, k: nat, b: NodeState)
    requires CInv(decode, c, h) && CInv(decode, last, h') && Grows(h, h') && last.nodes.Keys == c.nodes.Keys
    requires u in c.nodes && Counted(c.nodes[u], k) && Led(h', b) && c.nodes[u].term < b.term
    ensures AgreeTo(CanonAll(b.log), CanonAll(c.nodes[u].log), k)
  {
    var q, d := QuorumsFor(c.nodes.Keys), Commit(c.nodes[u].term, k, Backers(c.nodes[u], k));
    CountedCommit(decode, c, h, u, k);
    LeaderIs(decode, c, h, u);
    CommitOkGrows(q, h, h', d);
    RecordCommit(q, AbsNodes(last), h', d);
    RecordedHolds(q, AbsNodes(last), h', d, CanonAll(c.nodes[u].log), CanonAll(b.log), b.term);
  }

  lemma RecordedHolds(q: Quorums, n: Nodes, h: History, d: Commit, a: Log, b: Log, t: nat)
    requires Inv(q, n, Committing(h, d)) && d.term < t && t in h.elections && h.elections[t].base <= b
    requires d.term in h.elections && AgreeTo(a, h.elections[d.term].log, d.index)
    ensures AgreeTo(b, a, d.index)
  {
    var lead, base := h.elections[d.term].log, h.elections[t].base;
    LC.CommittedInBase(q, n, Committing(h, d), d, t);
    AgreeExtends(base, b, lead, d.index);
    AgreeChain(a, lead, b, d.index);
  }

  /** A leader that stays one raises its commit index only by counting, whatever the rules. */
  lemma RaisedByCounting(rules: Rules, decode: Decoder, c: State, run: seq<Step>, i: nat, u: NodeId)
    requires Setting(rules, c) && i < |run| && u in At(rules, decode, c, run, i).nodes
    requires u in At(rules, decode, c, run, i + 1).nodes
    requires var a, b := At(rules, decode, c, run, i).nodes[u], At(rules, decode, c, run, i + 1).nodes[u];
             a.role == Leader && b.role == Leader && a.commitIndex < b.commitIndex
    ensures var b := At(rules, decode, c, run, i + 1).nodes[u]; Counted(b, b.commitIndex)
  {
    var rules' := Documented(rules);
    var run' := RunAlike(rules, rules', decode, c, run);
    var h, _ := TwoMoments(rules', decode, c, run', i, i);
    AtNext(rules, decode, c, run, i);
    RaisingStep(rules, decode, At(rules, decode, c, run, i), At(rules', decode, c, run', i), h, run[i], u);
  }

  lemma RaisingStep(rules: Rules, decode: Decoder, c: State, d: State, h: History, st: Step, u: NodeId)
    requires Alike(c, d) && CInv(decode, d, h) && u in c.nodes && u in Do(rules, decode, c, st).nodes
    requires var a, b := c.nodes[u], Do(rules, decode, c, st).nodes[u];
             a.role == Leader && b.role == Leader && a.commitIndex < b.commitIndex
    ensures var b := Do(rules, decode, c, st).nodes[u]; Counted(b, b.commitIndex)
  {
    assert Erase(c.nodes[u]) == Erase(d.nodes[u]);
    LeaderIs(decode, d, h, u);
    match st
    case Timeout(_) =>
    case Submit(_, _, _) =>
    case Send(_, _, _) =>
    case Beat(_, _) =>
    case Apply(_) => ApplyKeepsCommit(decode, c.nodes[u], c.nodes[u].commitIndex);
    case Deliver(m) => RaisingDelivery(rules, decode, c, d, h, m, u);
  }

  lemma RaisingDelivery(rules: Rules, decode: Decoder, c: State, d: State, h: History, m: Msg, u: NodeId)
    requires Alike(c, d) && CInv(decode, d, h) && u in c.nodes && u in Do(rules, decode, c, Deliver(m)).nodes
    requires var a, b := c.nodes[u], Do(rules, decode, c, Deliver(m)).nodes[u];
             a.role == Leader && b.role == Leader && a.commitIndex < b.commitIndex && a.term >= 1
    ensures var b := Do(rules, decode, c, Deliver(m)).nodes[u]; Counted(b, b.commitIndex)
  {
    match m
    case VoteAsk(_, req) => VotesKeepCommit(rules, c.nodes[u], req, 0, VoteReply(0, false));
    case VoteTell(from, req, resp) => VotesKeepCommit(rules, c.nodes[u], req, from, resp);
    case AppendAsk(to, req, _) =>
      if to == u && Enabled(c, Deliver(m)) {
        NotAskedInTerm(decode, c, d, h, m);
        LeaderDefers(rules, c.nodes[u], req);
      }
    case AppendTell(from, req, _, resp) =>
      ReplyRaises(c.nodes[u], from, req, resp);
      HeartbeatKeepsCommit(c.nodes[u], from, req.term, resp);
  }

  lemma VotesKeepCommit(rules: Rules, s: NodeState, req: VoteRequest, from: NodeId, resp: VoteReply)
    ensures HandleVoteRequest(s, req).0.commitIndex == s.commitIndex
    ensures HandleVoteReply(rules, s, req, from, resp).commitIndex == s.commitIndex
  {
  }

  lemma HeartbeatKeepsCommit(s: NodeState, p: NodeId, term: nat, resp: AppendReply)
    ensures HandleHeartbeatReply(s, p, term, resp).commitIndex == s.commitIndex
  {
  }

  /** No leader is sent a request of its own term, whatever the rules. */
  lemma NotAskedInTerm(decode: Decoder, c: State, d: State, h: History, m: Msg)
    requires Alike(c, d) && CInv(decode, d, h) && m in c.net && m.AppendAsk? && m.to in c.nodes
    ensures c.nodes[m.to].role == Leader ==> c.nodes[m.to].term != m.areq.term
  {
    assert Erase(c.nodes[m.to]) == Erase(d.nodes[m.to]);
    assert Echoed(m, d.net);
    var e :| e in d.net && EraseMsg(e) == EraseMsg(m);
    assert MsgOk(d.nodes.Keys, h, e);
    NotLeading(decode, d, h, m.to, e.areq);
  }

  lemma ReplyRaises(s: NodeState, p: NodeId, req: AppendRequest, resp: AppendReply)
    requires s.role == Leader && s.term >= 1
    ensures var b := HandleAppendReply(s, p, req, resp);
            b.role == Leader && b.commitIndex > s.commitIndex ==> Counted(b, b.commitIndex)
  {
    if s.leader.Some? && req.entries != [] {
      var sent := req.entries[|req.entries| - 1].index;
      var s1 := SetMatch(SetNext(s, p, sent + 1), p, sent);
      AdvancePicks(s1);
      assert MatchIndices(TryAdvance(s1)) == MatchIndices(s1);
    }
  }

  lemma LeaderDefers(rules: Rules, s: NodeState, req: AppendRequest)
    requires s.role == Leader && req.term != s.term
    ensures var b := HandleAppend(rules, s, req).0; b.role == Leader ==> b == s
  {
  }

  lemma {:induction false} ApplyKeepsCommit(decode: Decoder, s: NodeState, upTo: nat)
    ensures ApplyUpTo(decode, s, upTo).commitIndex == s.commitIndex
    decreases upTo - s.lastApplied
  {
    if s.lastApplied < upTo && s.lastApplied < |s.log| {
      var s1 := s.(store := ApplyEntry(decode, s.store, s.log[s.lastApplied]), lastApplied := s.lastApplied + 1);
      ApplyKeepsCommit(decode, s1, upTo);
    }
  }

  /** So whatever a leader commits, at the moment it does, stays in the logs of all later leaders. */
  lemma LeaderCommitsForGood(rules: Rules, decode: Decoder, c: State, run: seq<Step>, i: nat, u: NodeId, j: nat,
      v: NodeId)
    requires Setting(rules, c) && i < |run| && j <= |run|
    requires u in At(rules, decode, c, run, i).nodes && u in At(rules, decode, c, run, i + 1).nodes
    requires v in At(rules, decode, c, run, j).nodes
    requires var a, b := At(rules, decode, c, run, i).nodes[u], At(rules, decode, c, run, i + 1).nodes[u];
             a.role == Leader && b.role == Leader && a.commitIndex < b.commitIndex
    requires At(rules, decode, c, run, j).nodes[v].role == Leader
    requires At(rules, decode, c, run, i + 1).nodes[u].term < At(rules, decode, c, run, j).nodes[v].term
    ensures var a, l := At(rules, decode, c, run, i + 1).nodes[u], At(rules, decode, c, run, j).nodes[v].log;
            && a.commitIndex <= |a.log| && a.commitIndex <= |l|
            && CanonAll(a.log[..a.commitIndex]) == CanonAll(l[..a.commitIndex])
  {
    RaisedByCounting(rules, decode, c, run, i, u);
    CountedIsKept(rules, decode, c, run, i + 1, u, j, v, At(rules, decode, c, run, i + 1).nodes[u].commitIndex);
  }

  // ---------------------------------------------------------------- careful runs

  /**
   * State machine safety: whatever two nodes hold as committed, at any two moments, is the
   * same wherever both reach, up to the wire's renaming of batches.
   */
  lemma StateMachineSafety(
      rules: Rules, decode: Decoder, c: State, run: seq<Step>, i: nat, u: NodeId, j: nat, v: NodeId, k: nat)
    requires Setting(rules, c) && Careful(rules, decode, c, run) && i <= |run| && j <= |run|
    requires u in At(rules, decode, c, run, i).nodes && v in At(rules, decode, c, run, j).nodes
    requires k < At(rules, decode, c, run, i).nodes[u].commitIndex
             && k < At(rules, decode, c, run, j).nodes[v].commitIndex
    ensures k < |At(rules, decode, c, run, i).nodes[u].log| && k < |At(rules, decode, c, run, j).nodes[v].log|
    ensures Canon(At(rules, decode, c, run, i).nodes[u].log[k]) == Canon(At(rules, decode, c, run, j).nodes[v].log[k])
  {
    var last, h := BothSeen(rules, decode, c, run, i, u, j, v);
    CommittedAgree(decode, last, h, At(rules, decode, c, run, i).nodes[u], At(rules, decode, c, run, j).nodes[v], k);
  }

  lemma CommittedAgree(decode: Decoder, c: State, h: History, a: NodeState, b: NodeState, k: nat)
    requires CInv(decode, c, h) && Seen(h, a) && Seen(h, b) && k < a.commitIndex && k < b.commitIndex
    ensures Canon(a.log[k]) == Canon(b.log[k])
  {
    LC.KnownAgree(QuorumsFor(c.nodes.Keys), AbsNodes(c), h,
                  a.term, CanonAll(a.log), a.commitIndex, b.term, CanonAll(b.log), b.commitIndex);
    AgreeAt(CanonAll(a.log), CanonAll(b.log), Min(a.commitIndex, b.commitIndex), k);
  }

  /**
   * Leader completeness: what a node holds as committed is in the log of every node that
   * leads a later term, whichever of the two moments comes first.
   */
  lemma LeaderCompletenessOverRuns(rules: Rules, decode: Decoder, c: State, run: seq<Step>, i: nat, u: NodeId, j: nat,
      v: NodeId)
    requires Setting(rules, c) && Careful(rules, decode, c, run) && i <= |run| && j <= |run|
    requires u in At(rules, decode, c, run, i).nodes && v in At(rules, decode, c, run, j).nodes
    requires At(rules, decode, c, run, j).nodes[v].role == Leader
    requires At(rules, decode, c, run, i).nodes[u].term < At(rules, decode, c, run, j).nodes[v].term
    ensures var a, b := At(rules, decode, c, run, i).nodes[u], At(rules, decode, c, run, j).nodes[v];
            && a.commitIndex <= |a.log| && a.commitIndex <= |b.log|
            && CanonAll(a.log[..a.commitIndex]) == CanonAll(b.log[..a.commitIndex])
  {
    var a, b := At(rules, decode, c, run, i).nodes[u], At(rules, decode, c, run, j).nodes[v];
    var hi, hj, h, last := BothMoments(rules, decode, c, run, i, j);
    SeenLater(decode, At(rules, decode, c, run, i), hi, h, u);
    LeaderSince(decode, At(rules, decode, c, run, j), hj, h, v);
    LeaderHolds(decode, last, h, a, b);
    CanonPrefix(a.log, a.commitIndex);
    CanonPrefix(b.log, a.commitIndex);
  }

  lemma LeaderHolds(decode: Decoder, c: State, h: History, a: NodeState, b: NodeState)
    requires CInv(decode, c, h) && Seen(h, a) && Led(h, b) && a.term < b.term
    ensures AgreeTo(CanonAll(b.log), CanonAll(a.log), a.commitIndex)
  {
    if a.commitIndex > 0 {
      var x, l, k := CanonAll(b.log), CanonAll(a.log), a.commitIndex;
      var d :| Backs(h, d, a.term, l, k);
      LC.CommittedInBase(QuorumsFor(c.nodes.Keys), AbsNodes(c), h, d, b.term);
      AgreeLess(h.elections[b.term].base, h.elections[d.term].log, d.index, k);
      AgreeExtends(h.elections[b.term].base, x, h.elections[d.term].log, k);
      AgreeChain(l, h.elections[d.term].log, x, k);
    }
  }

  /**
   * Replica agreement: a node's store is the in-order replay of its log up to lastApplied,
   * and two nodes that have applied equally far, at any two moments, have the same store.
   */
  lemma ReplicaAgreement(rules: Rules, decode: Decoder, c: State, run: seq<Step>, i: nat, u: NodeId, j: nat, v: NodeId)
    requires Setting(rules, c) && Careful(rules, decode, c, run) && i <= |run| && j <= |run|
    requires u in At(rules, decode, c, run, i).nodes && v in At(rules, decode, c, run, j).nodes
    ensures var a := At(rules, decode, c, run, i).nodes[u];
            a.lastApplied <= a.commitIndex <= |a.log| && a.store == Replay(decode, a.log[..a.lastApplied])
    ensures var a, b := At(rules, decode, c, run, i).nodes[u], At(rules, decode, c, run, j).nodes[v];
            a.lastApplied == b.lastApplied ==> a.store == b.store
  {
    var a, b := At(rules, decode, c, run, i).nodes[u], At(rules, decode, c, run, j).nodes[v];
    var hi, hj, h, last := BothMoments(rules, decode, c, run, i, j);
    StoreOf(decode, At(rules, decode, c, run, i), hi, u);
    StoreOf(decode, At(rules, decode, c, run, j), hj, v);
    if a.lastApplied == b.lastApplied {
      SeenLater(decode, At(rules, decode, c, run, i), hi, h, u);
      SeenLater(decode, At(rules, decode, c, run, j), hj, h, v);
      SameReplay(decode, last, h, a, b, a.lastApplied);
    }
  }

  lemma StoreOf(decode: Decoder, c: State, h: History, v: NodeId)
    requires CInv(decode, c, h) && v in c.nodes
    ensures var a := c.nodes[v];
            a.lastApplied <= a.commitIndex <= |a.log| && a.store == Replay(decode, a.log[..a.lastApplied])
  {
    NodeIs(decode, c, h, v);
  }

  lemma SameReplay(decode: Decoder, c: State, h: History, a: NodeState, b: NodeState, k: nat)
    requires CInv(decode, c, h) && Seen(h, a) && Seen(h, b) && k <= a.commitIndex && k <= b.commitIndex
    ensures Replay(decode, a.log[..k]) == Replay(decode, b.log[..k])
  {
    forall i | 0 <= i < k ensures CanonAll(a.log[..k])[i] == CanonAll(b.log[..k])[i] {
      CommittedAgree(decode, c, h, a, b, i);
    }
    assert CanonAll(a.log[..k]) == CanonAll(b.log[..k]);
    ReplayCanon(decode, a.log[..k]);
    ReplayCanon(decode, b.log[..k]);
  }

  /** In every careful run a node's store holds v under a key exactly when the last applied write of the key puts v. */
  lemma StoreIsLastWrites(
      rules: Rules, decode: Decoder, c: State, run: seq<Step>, i: nat, u: NodeId, key: string, v: Bytes)
    requires Setting(rules, c) && Careful(rules, decode, c, run) && i <= |run|
             && u in At(rules, decode, c, run, i).nodes
    ensures var a := At(rules, decode, c, run, i).nodes[u];
            a.lastApplied <= |a.log| &&
            (key in a.store && a.store[key] == v <==> exists k :: LastPut(decode, a.log[..a.lastApplied], key, v, k))
  {
    ReplicaAgreement(rules, decode, c, run, i, u, i, u);
    var a := At(rules, decode, c, run, i).nodes[u];
    LastWriteWins(decode, a.log[..a.lastApplied], key, v);
  }

  /** In every careful run, once a node has taken its apply step it has applied all it has committed. */
  lemma AppliesAll(rules: Rules, decode: Decoder, c: State, run: seq<Step>, i: nat, u: NodeId)
    requires Setting(rules, c) && Careful(rules, decode, c, run) && i < |run| && run[i] == Apply(u)
    requires u in At(rules, decode, c, run, i).nodes
    ensures var a, b := At(rules, decode, c, run, i).nodes[u], At(rules, decode, c, run, i + 1).nodes;
            && u in b && a.commitIndex <= |a.log|
            && b[u] == a.(lastApplied := a.commitIndex, store := Replay(decode, a.log[..a.commitIndex]))
  {
    var h, _ := TwoMoments(rules, decode, c, run, i, i);
    StoreOf(decode, At(rules, decode, c, run, i), h, u);
    AtNext(rules, decode, c, run, i);
    var a := At(rules, decode, c, run, i).nodes[u];
    ApplyUpToIs(decode, a, a.commitIndex);
  }

  /**
   * In every run, whatever the rules: a leader that hears in its term that a peer has entries
   * leaves nothing uncommitted that it may commit.
   */
  lemma CommitsPromptly(rules: Rules, decode: Decoder, c: State, run: seq<Step>, i: nat, m: Msg, x: nat)
    requires Setting(rules, c) && i < |run| && run[i] == Deliver(m) && m in At(rules, decode, c, run, i).net
    requires m.AppendTell? && !m.heartbeat && m.aresp.success && m.areq.entries != []
    requires m.areq.leader in At(rules, decode, c, run, i).nodes
    requires var a := At(rules, decode, c, run, i).nodes[m.areq.leader];
             a.role == Leader && m.aresp.term <= a.term == m.areq.term
    ensures m.areq.leader in At(rules, decode, c, run, i + 1).nodes
    ensures var b := At(rules, decode, c, run, i + 1).nodes[m.areq.leader];
            b.leader.Some? && (MayCommit(b, x) ==> x <= b.commitIndex)
  {
    var u := m.areq.leader;
    var a := At(rules, decode, c, run, i).nodes[u];
    AtNext(rules, decode, c, run, i);
    LeadersLead(rules, decode, c, run, i, u);
    LeavesNothing(a, m.from, m.areq, m.aresp, x);
  }

  /** Every leader of every run is one as the handlers take it. */
  lemma LeadersLead(rules: Rules, decode: Decoder, c: State, run: seq<Step>, i: nat, u: NodeId)
    requires Setting(rules, c) && i <= |run| && u in At(rules, decode, c, run, i).nodes
    requires At(rules, decode, c, run, i).nodes[u].role == Leader
    ensures Leading(At(rules, decode, c, run, i).nodes[u])
  {
    var rules' := Documented(rules);
    var run' := RunAlike(rules, rules', decode, c, run);
    var d := At(rules', decode, c, run', i);
    assert Erase(At(rules, decode, c, run, i).nodes[u]) == Erase(d.nodes[u]);
    var h, _ := TwoMoments(rules', decode, c, run', i, i);
    LeaderIs(decode, d, h, u);
    LogIsWellIndexed(decode, d, h, u);
  }
}
