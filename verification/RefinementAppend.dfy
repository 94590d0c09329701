/**
 * The replication half of the refinement, and the invariant for every step.
 *
 * A step that defers, merges and learns in one go is taken apart into protocol steps, each
 * of which keeps the invariant of the state in between.
 */
module RefinementAppend {
  import opened RaftTypes
  import Sets
  import opened Logs
  import opened CommitRule
  import opened StateMachine
  import opened NodeSpec
  import opened Answers
  import opened Cluster
  import opened Protocol
  import opened ProtocolSteps
  import opened Refinement

  // ---------------------------------------------------------------- leading

  lemma SubmitStep(decode: Decoder, c: State, h: History, v: NodeId, data: Bytes, kind: EntryKind) returns (h': History)
    requires CInv(decode, c, h) && v in c.nodes
    ensures CInv(decode, Moved(c, v, AppendLocal(c.nodes[v], data, kind), {}), h') && Grows(h, h')
  {
    var s := AppendLocal(c.nodes[v], data, kind);
    NodeIs(decode, c, h, v);
    if c.nodes[v].role == Leader {
      var e := s.log[|c.nodes[v].log|];
      assert CanonAll(s.log) == CanonAll(c.nodes[v].log) + [Canon(e)];
      assert s.log[..s.lastApplied] == c.nodes[v].log[..s.lastApplied];
      LeaderAppend(QuorumsFor(c.nodes.Keys), AbsNodes(c), h, v, Canon(e), Abs(s));
      h' := Appending(h, v, s.term, CanonAll(s.log));
      AssembleState(decode, c, h, v, s, {}, h');
    } else {
      GrowsRefl(h);
      h' := h;
      QuietStep(decode, c, h, v, s, {});
    }
  }

  /** A slice of a log, sent over the wire, is the same slice of the protocol's view of it. */
  lemma SentSlice(l: Log, prev: nat, sent: Log)
    requires WellIndexed(l) && prev + |sent| <= |l| && sent == l[prev..prev + |sent|]
    ensures Consecutive(ToWireAll(sent), prev)
    ensures forall i :: 0 <= i < |sent| ==> FromWire(ToWireAll(sent)[i]) == CanonAll(l)[prev + i]
  {
  }

  /** What buildAppendEntriesRequest sends is the slice that follows prevIndex. */
  lemma BuildAppendSlice(s: NodeState, p: NodeId, maxEntries: nat)
    requires WellIndexed(s.log) && 1 <= NextFor(s, p) <= |s.log| + 1
    ensures var req := BuildAppend(s, p, maxEntries);
            && req.prevIndex == NextFor(s, p) - 1 && req.prevIndex + |req.entries| <= |s.log|
            && req.entries == ToWireAll(s.log[req.prevIndex..req.prevIndex + |req.entries|])
  {
    ToSendSlice(s.log, NextFor(s, p), maxEntries);
  }

  lemma ToSendSlice(l: Log, next: nat, maxEntries: nat)
    requires WellIndexed(l) && 1 <= next <= |l| + 1
    ensures var sent := ToSend(l, next, maxEntries);
            && |sent| == Min(|l| + 1 - next, maxEntries) && sent == l[next - 1..next - 1 + |sent|]
  {
    CanonLast(l);
  }

  lemma RequestOk(servers: set<NodeId>, h: History, v: NodeId, s: NodeState, p: NodeId, req: AppendRequest)
    requires WellIndexed(s.log) && PeersOk(servers, v, s.peers) && p in s.peers
    requires NodeOk(h, v, Abs(s)) && s.role == Leader
    requires req.term == s.term && req.leader == v && req.leaderCommit == s.commitIndex
    requires req.prevIndex + |req.entries| <= |s.log| && req.prevTerm == PrevTerm(s.log, req.prevIndex)
    requires req.entries == ToWireAll(s.log[req.prevIndex..req.prevIndex + |req.entries|])
    ensures AppendOk(servers, h, p, req)
  {
    SentSlice(s.log, req.prevIndex, s.log[req.prevIndex..req.prevIndex + |req.entries|]);
  }

  lemma BuildAppendOk(servers: set<NodeId>, h: History, v: NodeId, s: NodeState, p: NodeId, maxEntries: nat)
    requires WellIndexed(s.log) && LeaderStateOk(s) && PeersOk(servers, v, s.peers) && s.id == v && p in s.peers
    requires NodeOk(h, v, Abs(s)) && s.role == Leader
    ensures AppendOk(servers, h, p, BuildAppend(s, p, maxEntries))
    ensures AppendOk(servers, h, p, BuildHeartbeat(s, p))
  {
    BuildAppendSlice(s, p, maxEntries);
    RequestOk(servers, h, v, s, p, BuildAppend(s, p, maxEntries));
    RequestOk(servers, h, v, s, p, BuildHeartbeat(s, p));
  }

  lemma SendStep(decode: Decoder, c: State, h: History, v: NodeId, p: NodeId, m: Msg)
    requires CInv(decode, c, h) && MaySend(c, v, p)
    requires m == AppendAsk(p, BuildHeartbeat(c.nodes[v], p), true)
             || exists k :: m == AppendAsk(p, BuildAppend(c.nodes[v], p, k), false)
    ensures CInv(decode, Moved(c, v, c.nodes[v], {m}), h)
  {
    NodeIs(decode, c, h, v);
    if m.heartbeat {
      BuildAppendOk(c.nodes.Keys, h, v, c.nodes[v], p, 0);
    } else {
      var k :| m == AppendAsk(p, BuildAppend(c.nodes[v], p, k), false);
      BuildAppendOk(c.nodes.Keys, h, v, c.nodes[v], p, k);
    }
    QuietStep(decode, c, h, v, c.nodes[v], {m});
  }

  // ---------------------------------------------------------------- following

  lemma DeferStep(decode: Decoder, c: State, h: History, v: NodeId, req: AppendRequest)
    requires CInv(decode, c, h) && v in c.nodes && AppendOk(c.nodes.Keys, h, v, req) && c.nodes[v].term <= req.term
    ensures CInv(decode, Moved(c, v, Defer(c.nodes[v], req.term), {}), h)
    ensures Defer(c.nodes[v], req.term).role == Follower && Defer(c.nodes[v], req.term).term == req.term
    ensures Defer(c.nodes[v], req.term).log == c.nodes[v].log
    ensures Defer(c.nodes[v], req.term).commitIndex == c.nodes[v].commitIndex
  {
    NotLeading(decode, c, h, v, req);
    if c.nodes[v].term < req.term {
      StepDownStep(decode, c, h, v, req.term);
    } else {
      SameTermDefer(decode, c, h, v, Defer(c.nodes[v], req.term));
    }
  }

  /** A node that receives a request of its own term is not the leader of that term. */
  lemma NotLeading(decode: Decoder, c: State, h: History, v: NodeId, req: AppendRequest)
    requires CInv(decode, c, h) && v in c.nodes && AppendOk(c.nodes.Keys, h, v, req)
    ensures c.nodes[v].term == req.term ==> c.nodes[v].role != Leader
  {
    NodeIs(decode, c, h, v);
  }

  lemma SameTermDefer(decode: Decoder, c: State, h: History, v: NodeId, s: NodeState)
    requires CInv(decode, c, h) && v in c.nodes && c.nodes[v].role != Leader
    requires s == Defer(c.nodes[v], c.nodes[v].term)
    ensures CInv(decode, Moved(c, v, s, {}), h)
  {
    NodeIs(decode, c, h, v);
    ProtocolSteps.StepDown(QuorumsFor(c.nodes.Keys), AbsNodes(c), h, v, Abs(s));
    GrowsRefl(h);
    AssembleState(decode, c, h, v, s, {}, h);
  }

  /** The merge of the code is a merge in the protocol's sense, given log matching. */
  lemma MergeRefines(l: Log, es: seq<WireEntry>, prev: nat, lead: Log)
    requires prev <= |l| && prev + |es| <= |lead| && Consecutive(es, prev)
    requires forall i :: 0 <= i < |es| ==> FromWire(es[i]) == lead[prev + i]
    requires AgreeTo(CanonAll(l), lead, prev)
    requires forall i :: 0 <= i < |CanonAll(l)| && i < |lead| && CanonAll(l)[i].term == lead[i].term ==>
             AgreeTo(CanonAll(l), lead, i + 1)
    ensures Merged(CanonAll(l), lead, prev + |es|, CanonAll(Merge(l, es, prev)))
    ensures AgreeTo(CanonAll(Merge(l, es, prev)), lead, prev + |es|)
  {
    var k := Held(l, es, prev);
    var m := prev + |es|;
    HeldIs(l, es, prev);
    HeldAgrees(l, es, prev, lead, k);
    if k < |es| {
      MergeCuts(l, es, prev, lead, k);
      if prev + k < |l| {
        ConflictDisagrees(l, es, prev, lead, k);
      }
    }
  }

  lemma HeldAgrees(l: Log, es: seq<WireEntry>, prev: nat, lead: Log, k: nat)
    requires prev + k <= |l| && k <= |es| && prev + |es| <= |lead| && AgreeTo(CanonAll(l), lead, prev)
    requires forall i :: 0 <= i < |es| ==> FromWire(es[i]) == lead[prev + i]
    requires forall i :: 0 <= i < |CanonAll(l)| && i < |lead| && CanonAll(l)[i].term == lead[i].term ==>
             AgreeTo(CanonAll(l), lead, i + 1)
    requires k > 0 ==> l[prev + k - 1].term == es[k - 1].term
    ensures AgreeTo(CanonAll(l), lead, prev + k)
  {
    if k > 0 {
      assert FromWire(es[k - 1]).term == es[k - 1].term;
      assert CanonAll(l)[prev + k - 1].term == lead[prev + k - 1].term;
    }
  }

  /** An entry in conflict with the request is one where the log departs from the leader's. */
  lemma ConflictDisagrees(l: Log, es: seq<WireEntry>, prev: nat, lead: Log, k: nat)
    requires k < |es| && prev + k < |l| && prev + |es| <= |lead| && FromWire(es[k]) == lead[prev + k]
    requires l[prev + k].term != es[k].term
    ensures !AgreeTo(CanonAll(l), lead, prev + |es|)
  {
    assert FromWire(es[k]).term == es[k].term;
    assert CanonAll(l)[prev + k].term == l[prev + k].term;
    AgreeIf(CanonAll(l), lead, prev + |es|, prev + k);
  }

  lemma AgreeIf(a: Log, b: Log, m: nat, i: nat)
    requires i < m && i < |a| && i < |b|
    ensures AgreeTo(a, b, m) ==> a[i] == b[i]
  {
    if AgreeTo(a, b, m) {
      AgreeAt(a, b, m, i);
    }
  }

  lemma MergeCuts(l: Log, es: seq<WireEntry>, prev: nat, lead: Log, k: nat)
    requires prev + k <= |l| && k <= |es| && prev + |es| <= |lead|
    requires forall i :: 0 <= i < |es| ==> FromWire(es[i]) == lead[prev + i]
    requires AgreeTo(CanonAll(l), lead, prev + k)
    ensures CanonAll(l[..prev + k] + Received(es[k..])) == lead[..prev + |es|]
  {
    var r := CanonAll(l[..prev + k] + Received(es[k..]));
    forall i | 0 <= i < prev + |es| ensures r[i] == lead[i] {
      if i < prev + k {
        AgreeAt(CanonAll(l), lead, prev + k, i);
      }
    }
  }

  /** Passing the consistency check means agreeing with the leader up to prevIndex. */
  lemma CheckMeansAgreement(q: Quorums, n: Nodes, h: History, l: Log, t: nat, prev: nat)
    requires ElectionsOk(q, h) && CampaignsOk(n, h) && t in h.elections && Grounded(h, l)
    requires prev <= |l| && prev <= |h.elections[t].log|
    requires prev > 0 ==> l[prev - 1].term == h.elections[t].log[prev - 1].term
    ensures AgreeTo(l, h.elections[t].log, prev)
    ensures forall i :: 0 <= i < |l| && i < |h.elections[t].log| && l[i].term == h.elections[t].log[i].term ==>
            AgreeTo(l, h.elections[t].log, i + 1)
  {
    var lead := h.elections[t].log;
    ElectionLog(q, n, h, t);
    if prev > 0 { LogMatching(h, l, lead, prev - 1); }
    forall i | 0 <= i < |l| && i < |lead| && l[i].term == lead[i].term ensures AgreeTo(l, lead, i + 1) {
      LogMatching(h, l, lead, i);
    }
  }

  lemma AcceptMerges(q: Quorums, n: Nodes, h: History, l: Log, t: nat, prev: nat, es: seq<WireEntry>)
    requires ElectionsOk(q, h) && CampaignsOk(n, h) && t in h.elections && Grounded(h, CanonAll(l))
    requires prev <= |l| && prev + |es| <= |h.elections[t].log| && Consecutive(es, prev)
    requires prev > 0 ==> TermAt(l, prev) == TermAt(h.elections[t].log, prev)
    requires forall i :: 0 <= i < |es| ==> FromWire(es[i]) == h.elections[t].log[prev + i]
    ensures Merged(CanonAll(l), h.elections[t].log, prev + |es|, CanonAll(Merge(l, es, prev)))
    ensures AgreeTo(CanonAll(Merge(l, es, prev)), h.elections[t].log, prev + |es|)
  {
    SameTermAt(l, h.elections[t].log, prev);
    CheckMeansAgreement(q, n, h, CanonAll(l), t, prev);
    MergeRefines(l, es, prev, h.elections[t].log);
  }

  lemma RequestMerges(q: Quorums, n: Nodes, servers: set<NodeId>, h: History, to: NodeId, l: Log, req: AppendRequest)
    requires ElectionsOk(q, h) && CampaignsOk(n, h) && AppendOk(servers, h, to, req) && Grounded(h, CanonAll(l))
    requires req.prevIndex <= |l| && (req.prevIndex > 0 ==> TermAt(l, req.prevIndex) == req.prevTerm)
    ensures Merged(CanonAll(l), h.elections[req.term].log, req.prevIndex + |req.entries|,
            CanonAll(Merge(l, req.entries, req.prevIndex)))
    ensures AgreeTo(CanonAll(Merge(l, req.entries, req.prevIndex)), h.elections[req.term].log,
            req.prevIndex + |req.entries|)
  {
    AcceptMerges(q, n, h, l, req.term, req.prevIndex, req.entries);
  }

  lemma SameTermAt(l: Log, lead: Log, prev: nat)
    requires prev <= |l| && prev <= |lead| && (prev > 0 ==> TermAt(l, prev) == TermAt(lead, prev))
    ensures prev > 0 ==> CanonAll(l)[prev - 1].term == lead[prev - 1].term
  {
    if prev > 0 { assert CanonAll(l)[prev - 1] == Canon(l[prev - 1]); }
  }

  lemma AcceptStep(decode: Decoder, c: State, h: History, v: NodeId, req: AppendRequest, s: NodeState)
      returns (h': History)
    requires CInv(decode, c, h) && v in c.nodes && AppendOk(c.nodes.Keys, h, v, req)
    requires c.nodes[v].role == Follower && c.nodes[v].term == req.term && req.prevIndex <= |c.nodes[v].log|
    requires req.prevIndex > 0 ==> TermAt(c.nodes[v].log, req.prevIndex) == req.prevTerm
    requires s == c.nodes[v].(log := Merge(c.nodes[v].log, req.entries, req.prevIndex))
    ensures CInv(decode, Moved(c, v, s, {}), h') && Grows(h, h')
    ensures Acked(h', v, req.term, req.prevIndex + |req.entries|) && h'.elections == h.elections
  {
    ReceiverMerges(decode, c, h, v, req);
    AcceptView(c, h, v, req, s);
    h' := Accepting(h, v, req.term, req.prevIndex + |req.entries|);
    ReceiverLocal(decode, c, h, v, req, s);
    AssembleState(decode, c, h, v, s, {}, h');
  }

  lemma ReceiverMerges(decode: Decoder, c: State, h: History, v: NodeId, req: AppendRequest)
    requires CInv(decode, c, h) && v in c.nodes && AppendOk(c.nodes.Keys, h, v, req)
    requires req.prevIndex <= |c.nodes[v].log|
    requires req.prevIndex > 0 ==> TermAt(c.nodes[v].log, req.prevIndex) == req.prevTerm
    ensures var l, m := c.nodes[v].log, req.prevIndex + |req.entries|;
            var r, lead := CanonAll(Merge(l, req.entries, req.prevIndex)), h.elections[req.term].log;
            Merged(CanonAll(l), lead, m, r) && AgreeTo(r, lead, m)
  {
    NodeIs(decode, c, h, v);
    RequestMerges(QuorumsFor(c.nodes.Keys), AbsNodes(c), c.nodes.Keys, h, v, c.nodes[v].log, req);
  }

  lemma ReceiverLocal(decode: Decoder, c: State, h: History, v: NodeId, req: AppendRequest, s: NodeState)
    requires CInv(decode, c, h) && v in c.nodes && AppendOk(c.nodes.Keys, h, v, req)
    requires c.nodes[v].role == Follower && req.prevIndex <= |c.nodes[v].log|
    requires s == c.nodes[v].(log := Merge(c.nodes[v].log, req.entries, req.prevIndex))
    requires AgreeTo(CanonAll(s.log), CanonAll(c.nodes[v].log), s.commitIndex)
    ensures LocalOk(decode, c.nodes.Keys, v, s)
  {
    NodeIs(decode, c, h, v);
    AcceptedLocal(decode, c.nodes.Keys, v, c.nodes[v], req, s);
  }

  lemma AcceptView(c: State, h: History, v: NodeId, req: AppendRequest, s: NodeState)
    requires Inv(QuorumsFor(c.nodes.Keys), AbsNodes(c), h) && v in c.nodes && req.term in h.elections
    requires c.nodes[v].role == Follower && c.nodes[v].term == req.term && s == c.nodes[v].(log := s.log)
    requires var m, lead := req.prevIndex + |req.entries|, h.elections[req.term].log;
             Merged(CanonAll(c.nodes[v].log), lead, m, CanonAll(s.log)) && AgreeTo(CanonAll(s.log), lead, m)
    ensures var h' := Accepting(h, v, req.term, req.prevIndex + |req.entries|);
            && Inv(QuorumsFor(c.nodes.Keys), AbsNodes(c)[v := Abs(s)], h') && Grows(h, h')
    ensures AgreeTo(CanonAll(s.log), CanonAll(c.nodes[v].log), s.commitIndex)
  {
    assert AbsNodes(c)[v] == Abs(c.nodes[v]);
    AcceptEntries(QuorumsFor(c.nodes.Keys), AbsNodes(c), h, v, req.prevIndex + |req.entries|, Abs(s));
  }

  lemma AcceptedLocal(decode: Decoder, servers: set<NodeId>, v: NodeId, was: NodeState, req: AppendRequest,
      s: NodeState)
    requires LocalOk(decode, servers, v, was) && was.role == Follower
    requires req.prevIndex <= |was.log| && Consecutive(req.entries, req.prevIndex)
    requires s == was.(log := Merge(was.log, req.entries, req.prevIndex))
    requires AgreeTo(CanonAll(s.log), CanonAll(was.log), s.commitIndex)
    ensures LocalOk(decode, servers, v, s)
  {
    MergeWellIndexed(was.log, req.entries, req.prevIndex);
    var k := s.lastApplied;
    AgreeLess(CanonAll(s.log), CanonAll(was.log), s.commitIndex, k);
    CanonPrefix(s.log, k);
    CanonPrefix(was.log, k);
    ReplayCanon(decode, s.log[..k]);
    ReplayCanon(decode, was.log[..k]);
  }

  /** The log, as merged, agrees with the leader's up to the new commit index, or that is the old one. */
  ghost predicate Learnable(h: History, req: AppendRequest, l: Log, was: nat, k: nat) {
    || k == was
    || (k <= req.leaderCommit && req.term in h.elections && AgreeTo(CanonAll(l), h.elections[req.term].log, k)
        && (was <= k || k == |l|))
  }

  /** Adopting such a commit index is learning a committed prefix. */
  lemma LearnStep(decode: Decoder, c: State, h: History, v: NodeId, req: AppendRequest, k: nat, out: set<Msg>)
    requires CInv(decode, c, h) && v in c.nodes && AppendOk(c.nodes.Keys, h, v, req) && c.nodes[v].term == req.term
    requires Learnable(h, req, c.nodes[v].log, c.nodes[v].commitIndex, k)
    requires forall m :: m in out ==> MsgOk(c.nodes.Keys, h, m)
    ensures CInv(decode, Moved(c, v, c.nodes[v].(commitIndex := k), out), h)
  {
    var s := c.nodes[v].(commitIndex := k);
    NodeIs(decode, c, h, v);
    assert Known(h, req.term, CanonAll(s.log), k) by {
      if k != c.nodes[v].commitIndex {
        KnownTransfers(h, req.term, h.elections[req.term].log, req.leaderCommit, CanonAll(s.log), k);
      }
    }
    LearnCommit(QuorumsFor(c.nodes.Keys), AbsNodes(c), h, v, k, Abs(s));
    GrowsRefl(h);
    AssembleState(decode, c, h, v, s, out, h);
  }

  lemma KnownTransfers(h: History, bound: nat, lead: Log, j: nat, l: Log, k: nat)
    requires Known(h, bound, lead, j) && AgreeTo(l, lead, k) && k <= j
    ensures Known(h, bound, l, k)
  {
    if k > 0 {
      var c :| Backs(h, c, bound, lead, j);
      AgreeLess(lead, h.elections[c.term].log, j, k);
      assert Backs(h, c, bound, l, k);
    }
  }

  lemma RejectStep(decode: Decoder, c: State, h: History, v: NodeId, req: AppendRequest, heartbeat: bool,
      resp: AppendReply)
    requires CInv(decode, c, h) && v in c.nodes && AppendOk(c.nodes.Keys, h, v, req)
    requires !resp.success && resp.conflictIndex <= req.prevIndex
    ensures CInv(decode, Moved(c, v, c.nodes[v], {AppendTell(v, req, heartbeat, resp)}), h)
  {
    NodeIs(decode, c, h, v);
    QuietStep(decode, c, h, v, c.nodes[v], {AppendTell(v, req, heartbeat, resp)});
  }

  /** A conflict hint never points past the index it answers. */
  lemma HintIsBounded(s: NodeState, req: AppendRequest, rules: Rules)
    requires WellIndexed(s.log) && !HandleAppend(rules, s, req).1.success
    ensures HandleAppend(rules, s, req).1.conflictIndex <= req.prevIndex
  {
    CanonLast(s.log);
    if req.prevIndex <= |s.log| {
      WalkBackFindsRun(s.log, req.prevIndex, TermAt(s.log, req.prevIndex));
      WalkBackMoves(s.log, req.prevIndex, TermAt(s.log, req.prevIndex));
    }
  }

  /** Up to the commit index offered, the receiver's log after the merge agrees with the leader's. */
  ghost predicate TailAgrees(h: History, s: NodeState, req: AppendRequest) {
    var l := ApplyEntries(s.log, req.entries);
    req.term in h.elections && AgreeTo(CanonAll(l), h.elections[req.term].log, Min(req.leaderCommit, |l|))
  }

  /** What the code's own commit bound needs, and the documented one does not. */
  ghost predicate Backed(rules: Rules, h: History, s: NodeState, req: AppendRequest) {
    rules.documentedCommit ||
    (HandleAppend(rules, s, req).1.success && s.commitIndex < req.leaderCommit ==> TailAgrees(h, s, req))
  }

  lemma AppendAskStep(decode: Decoder, c: State, h: History, rules: Rules, v: NodeId, req: AppendRequest,
      heartbeat: bool)
      returns (h': History)
    requires CInv(decode, c, h) && AppendAsk(v, req, heartbeat) in c.net && v in c.nodes
    requires Backed(rules, h, c.nodes[v], req)
    ensures var (s', resp) := HandleAppend(rules, c.nodes[v], req);
            CInv(decode, Moved(c, v, s', {AppendTell(v, req, heartbeat, resp)}), h')
    ensures Grows(h, h')
  {
    assert MsgOk(c.nodes.Keys, h, AppendAsk(v, req, heartbeat));
    if HandleAppend(rules, c.nodes[v], req).1.success {
      h' := AcceptedStep(decode, c, h, rules, v, req, heartbeat);
    } else {
      GrowsRefl(h);
      h' := h;
      RejectedStep(decode, c, h, rules, v, req, heartbeat);
    }
  }

  lemma RejectedStep(decode: Decoder, c: State, h: History, rules: Rules, v: NodeId, req: AppendRequest,
      heartbeat: bool)
    requires CInv(decode, c, h) && AppendOk(c.nodes.Keys, h, v, req) && v in c.nodes
    requires !HandleAppend(rules, c.nodes[v], req).1.success
    ensures var (s', resp) := HandleAppend(rules, c.nodes[v], req);
            CInv(decode, Moved(c, v, s', {AppendTell(v, req, heartbeat, resp)}), h)
  {
    var (s', resp) := HandleAppend(rules, c.nodes[v], req);
    LogIsWellIndexed(decode, c, h, v);
    HintIsBounded(c.nodes[v], req, rules);
    RejectedState(rules, c.nodes[v], req);
    if req.term < c.nodes[v].term {
      RejectStep(decode, c, h, v, req, heartbeat, resp);
    } else {
      DeferThenRejectStep(decode, c, h, v, req, heartbeat, resp);
    }
  }

  lemma RejectedState(rules: Rules, s: NodeState, req: AppendRequest)
    requires !HandleAppend(rules, s, req).1.success
    ensures HandleAppend(rules, s, req).0 == if req.term < s.term then s else Defer(s, req.term)
  {
  }

  lemma DeferThenRejectStep(
      decode: Decoder, c: State, h: History, v: NodeId, req: AppendRequest, heartbeat: bool, resp: AppendReply)
    requires CInv(decode, c, h) && AppendOk(c.nodes.Keys, h, v, req) && v in c.nodes && c.nodes[v].term <= req.term
    requires !resp.success && resp.conflictIndex <= req.prevIndex
    ensures CInv(decode, Moved(c, v, Defer(c.nodes[v], req.term), {AppendTell(v, req, heartbeat, resp)}), h)
  {
    var s' := Defer(c.nodes[v], req.term);
    DeferStep(decode, c, h, v, req);
    MovedTwice(c, v, s', s', {AppendTell(v, req, heartbeat, resp)});
    RejectStep(decode, Moved(c, v, s', {}), h, v, req, heartbeat, resp);
  }

  lemma LogIsWellIndexed(decode: Decoder, c: State, h: History, v: NodeId)
    requires CInv(decode, c, h) && v in c.nodes
    ensures WellIndexed(c.nodes[v].log) && LastIndex(c.nodes[v].log) == |c.nodes[v].log|
    ensures c.nodes[v].lastApplied <= c.nodes[v].commitIndex <= |c.nodes[v].log|
  {
    NodeIs(decode, c, h, v);
    CanonLast(c.nodes[v].log);
  }

  /** What an accepted request leaves, in terms of the node once it has deferred to the sender. */
  lemma AcceptedState(rules: Rules, s: NodeState, req: AppendRequest)
    requires WellIndexed(s.log) && Consecutive(req.entries, req.prevIndex) && HandleAppend(rules, s, req).1.success
    ensures var s1, r := Defer(s, req.term), HandleAppend(rules, s, req).0;
            && s1.log == s.log && s1.commitIndex == s.commitIndex && s.term <= req.term
            && req.prevIndex <= |s.log| && (req.prevIndex > 0 ==> TermAt(s.log, req.prevIndex) == req.prevTerm)
            && r == s1.(log := Merge(s.log, req.entries, req.prevIndex), commitIndex := r.commitIndex)
            && r.log == ApplyEntries(s.log, req.entries)
            && r.commitIndex == FollowerCommit(rules, s.commitIndex, r.log, req)
  {
    CanonLast(s.log);
    ApplyEntriesIsMerge(s.log, req.entries, req.prevIndex);
  }

  /** Either commit bound is one the receiver may learn. */
  lemma BoundIsLearnable(rules: Rules, h: History, s: NodeState, req: AppendRequest)
    requires WellIndexed(s.log) && Consecutive(req.entries, req.prevIndex) && HandleAppend(rules, s, req).1.success
    requires Backed(rules, h, s, req) && req.term in h.elections
    requires var l := HandleAppend(rules, s, req).0.log;
             WellIndexed(l) && AgreeTo(CanonAll(l), h.elections[req.term].log, req.prevIndex + |req.entries|)
    ensures var r := HandleAppend(rules, s, req).0; Learnable(h, req, r.log, s.commitIndex, r.commitIndex)
  {
    AcceptedState(rules, s, req);
    var r := HandleAppend(rules, s, req).0;
    CanonLast(r.log);
    if rules.documentedCommit && r.commitIndex != s.commitIndex {
      AgreeLess(CanonAll(r.log), h.elections[req.term].log, req.prevIndex + |req.entries|, r.commitIndex);
    }
  }

  lemma AcceptedStep(decode: Decoder, c: State, h: History, rules: Rules, v: NodeId, req: AppendRequest,
      heartbeat: bool)
      returns (h': History)
    requires CInv(decode, c, h) && AppendOk(c.nodes.Keys, h, v, req) && v in c.nodes
    requires HandleAppend(rules, c.nodes[v], req).1.success && Backed(rules, h, c.nodes[v], req)
    ensures var (s', resp) := HandleAppend(rules, c.nodes[v], req);
            CInv(decode, Moved(c, v, s', {AppendTell(v, req, heartbeat, resp)}), h')
    ensures Grows(h, h')
  {
    var (s', resp) := HandleAppend(rules, c.nodes[v], req);
    LogIsWellIndexed(decode, c, h, v);
    AcceptedState(rules, c.nodes[v], req);
    AcceptedLearns(decode, c, h, rules, v, req);
    var s1 := Defer(c.nodes[v], req.term);
    DeferStep(decode, c, h, v, req);
    MovedTwice(c, v, s1, s', {AppendTell(v, req, heartbeat, resp)});
    h' := MergeThenLearnStep(decode, Moved(c, v, s1, {}), h, v, req, s', AppendTell(v, req, heartbeat, resp));
  }

  lemma AcceptedLearns(decode: Decoder, c: State, h: History, rules: Rules, v: NodeId, req: AppendRequest)
    requires CInv(decode, c, h) && AppendOk(c.nodes.Keys, h, v, req) && v in c.nodes
    requires HandleAppend(rules, c.nodes[v], req).1.success && Backed(rules, h, c.nodes[v], req)
    ensures var r := HandleAppend(rules, c.nodes[v], req).0;
            Learnable(h, req, r.log, c.nodes[v].commitIndex, r.commitIndex)
  {
    LogIsWellIndexed(decode, c, h, v);
    AcceptedState(rules, c.nodes[v], req);
    ReceiverMerges(decode, c, h, v, req);
    MergeWellIndexed(c.nodes[v].log, req.entries, req.prevIndex);
    BoundIsLearnable(rules, h, c.nodes[v], req);
  }

  lemma MergeThenLearnStep(decode: Decoder, c: State, h: History, v: NodeId, req: AppendRequest, s': NodeState, m: Msg)
      returns (h': History)
    requires CInv(decode, c, h) && v in c.nodes && AppendOk(c.nodes.Keys, h, v, req)
    requires c.nodes[v].role == Follower && c.nodes[v].term == req.term && req.prevIndex <= |c.nodes[v].log|
    requires req.prevIndex > 0 ==> TermAt(c.nodes[v].log, req.prevIndex) == req.prevTerm
    requires s' == c.nodes[v].(log := Merge(c.nodes[v].log, req.entries, req.prevIndex), commitIndex := s'.commitIndex)
    requires Learnable(h, req, s'.log, c.nodes[v].commitIndex, s'.commitIndex)
    requires m.AppendTell? && m.from == v && m.areq == req && m.aresp.success
    ensures CInv(decode, Moved(c, v, s', {m}), h') && Grows(h, h')
  {
    var s := c.nodes[v].(log := Merge(c.nodes[v].log, req.entries, req.prevIndex));
    h' := AcceptStep(decode, c, h, v, req, s);
    AppendOkGrows(c.nodes.Keys, h, h', v, req);
    MovedTwice(c, v, s, s', {m});
    LearnStep(decode, Moved(c, v, s, {}), h', v, req, s'.commitIndex, {m});
  }

  // ---------------------------------------------------------------- replies

  /** The nodes that back an index: the leader and the peers whose match index reaches it. */
  ghost function Backers(s: NodeState, k: nat): set<NodeId>
    requires s.leader.Some?
  {
    {s.id} + Reaching(s.leader.value.matchIndex, s.peers, k)
  }

  lemma BackersAreEnough(servers: set<NodeId>, s: NodeState, k: nat)
    requires PeersOk(servers, s.id, s.peers) && s.leader.Some?
    requires CountAtLeast(MatchIndices(s), k) >= |s.peers| / 2 + 1
    ensures Backers(s, k) <= servers && |Backers(s, k)| >= CommitSize(|servers|)
  {
    var m := s.leader.value.matchIndex;
    CountIsPeers(m, s.peers, k);
    assert MatchIndices(s)[1..] == PeerMatches(m, s.peers);
    assert |Backers(s, k)| == 1 + |Reaching(m, s.peers, k)|;
  }

  /** A leader raises its commit index only to what it has counted. */
  lemma AdvancePicks(s: NodeState)
    requires s.leader.Some? && s.role == Leader && s.term >= 1
    ensures var k := TryAdvance(s).commitIndex;
            k >= s.commitIndex && (k > s.commitIndex ==> Counted(s, k))
  {
    AdvanceIsLargestCommittable(s.log, s.term, s.commitIndex, MatchIndices(s));
  }

  lemma BackersAcked(h: History, v: NodeId, s: NodeState, k: nat)
    requires LeaderOk(h, v, Abs(s)) && s.id == v && s.leader.Some? && 1 <= k <= |s.log|
    ensures forall u :: u in Backers(s, k) ==> Acked(h, u, s.term, k)
  {
    forall u | u in Backers(s, k) ensures Acked(h, u, s.term, k) {
      if u == v {
        assert Acked(h, v, s.term, |CanonAll(s.log)|);
      } else {
        assert Acked(h, u, s.term, s.leader.value.matchIndex[u]);
      }
    }
  }

  lemma AdvanceStep(decode: Decoder, c: State, h: History, v: NodeId) returns (h': History)
    requires CInv(decode, c, h) && v in c.nodes && c.nodes[v].role == Leader
    ensures CInv(decode, Moved(c, v, TryAdvance(c.nodes[v]), {}), h') && Grows(h, h')
  {
    var s := TryAdvance(c.nodes[v]);
    LeaderAdvances(decode, c, h, v);
    if s.commitIndex == c.nodes[v].commitIndex {
      GrowsRefl(h);
      h' := h;
      IdleStep(decode, c, h, v);
    } else {
      h' := LeaderCommitStep(decode, c, h, v, s.commitIndex);
    }
  }

  /** What a leader in its term may take as committed: an entry of its term that enough nodes match. */
  ghost predicate Counted(s: NodeState, k: nat) {
    && s.role == Leader && s.leader.Some? && 1 <= k <= |s.log| && s.log[k - 1].term == s.term
    && CountAtLeast(MatchIndices(s), k) >= |s.peers| / 2 + 1
  }

  lemma LeaderAdvances(decode: Decoder, c: State, h: History, v: NodeId)
    requires CInv(decode, c, h) && v in c.nodes && c.nodes[v].role == Leader
    ensures var s := TryAdvance(c.nodes[v]);
            && s == c.nodes[v].(commitIndex := s.commitIndex) && s.commitIndex >= c.nodes[v].commitIndex
            && (s.commitIndex > c.nodes[v].commitIndex ==> Counted(c.nodes[v], s.commitIndex))
  {
    LeaderIs(decode, c, h, v);
    AdvancePicks(c.nodes[v]);
  }

  lemma LeaderIs(decode: Decoder, c: State, h: History, v: NodeId)
    requires CInv(decode, c, h) && v in c.nodes && c.nodes[v].role == Leader
    ensures c.nodes[v].leader.Some? && c.nodes[v].term >= 1 && LeaderOk(h, v, Abs(c.nodes[v])) && c.nodes[v].id == v
    ensures PeersOk(c.nodes.Keys, v, c.nodes[v].peers)
  {
    NodeIs(decode, c, h, v);
    assert ElectionOk(QuorumsFor(c.nodes.Keys), h, c.nodes[v].term);
  }

  /** Counting gives a commit record: the nodes counted have all acknowledged the entry. */
  lemma CountedCommit(decode: Decoder, c: State, h: History, v: NodeId, k: nat)
    requires CInv(decode, c, h) && v in c.nodes && Counted(c.nodes[v], k)
    ensures CommitOk(QuorumsFor(c.nodes.Keys), h, Commit(c.nodes[v].term, k, Backers(c.nodes[v], k)))
  {
    LeaderIs(decode, c, h, v);
    CountedRecord(c.nodes.Keys, h, v, c.nodes[v], k);
  }

  lemma CountedRecord(servers: set<NodeId>, h: History, v: NodeId, s: NodeState, k: nat)
    requires LeaderOk(h, v, Abs(s)) && s.id == v && PeersOk(servers, v, s.peers) && Counted(s, k)
    ensures CommitOk(QuorumsFor(servers), h, Commit(s.term, k, Backers(s, k)))
  {
    BackersAreEnough(servers, s, k);
    BackersAcked(h, v, s, k);
    assert CanonAll(s.log)[k - 1].term == s.term;
  }

  lemma LeaderCommitStep(decode: Decoder, c: State, h: History, v: NodeId, k: nat) returns (h': History)
    requires CInv(decode, c, h) && v in c.nodes && Counted(c.nodes[v], k) && c.nodes[v].commitIndex <= k
    ensures CInv(decode, Moved(c, v, c.nodes[v].(commitIndex := k), {}), h') && Grows(h, h')
  {
    var s, Q := c.nodes[v].(commitIndex := k), Backers(c.nodes[v], k);
    CountedCommit(decode, c, h, v, k);
    h' := Committing(h, Commit(s.term, k, Q));
    LeaderCommit(QuorumsFor(c.nodes.Keys), AbsNodes(c), h, v, k, Q, Abs(s));
    LocalCommits(decode, c, h, v, k);
    AssembleState(decode, c, h, v, s, {}, h');
  }

  lemma LocalCommits(decode: Decoder, c: State, h: History, v: NodeId, k: nat)
    requires CInv(decode, c, h) && v in c.nodes && c.nodes[v].commitIndex <= k <= |c.nodes[v].log|
    ensures LocalOk(decode, c.nodes.Keys, v, c.nodes[v].(commitIndex := k))
  {
    NodeIs(decode, c, h, v);
  }

  lemma MatchStep(decode: Decoder, c: State, h: History, v: NodeId, p: NodeId, m: nat, s: NodeState)
    requires CInv(decode, c, h) && v in c.nodes && c.nodes[v].role == Leader && c.nodes[v].leader.Some?
    requires Acked(h, p, c.nodes[v].term, m) && m <= |c.nodes[v].log|
    requires s == SetMatch(SetNext(c.nodes[v], p, m + 1), p, m)
    ensures CInv(decode, Moved(c, v, s, {}), h)
  {
    NodeIs(decode, c, h, v);
    RecordMatch(QuorumsFor(c.nodes.Keys), AbsNodes(c), h, v, p, m, Abs(s));
    GrowsRefl(h);
    AssembleState(decode, c, h, v, s, {}, h);
  }

  lemma NextStep(decode: Decoder, c: State, h: History, v: NodeId, p: NodeId, next: nat)
    requires CInv(decode, c, h) && v in c.nodes && c.nodes[v].role == Leader && c.nodes[v].leader.Some?
    requires 1 <= next <= |c.nodes[v].log| + 1
    ensures CInv(decode, Moved(c, v, SetNext(c.nodes[v], p, next), {}), h)
  {
    NodeIs(decode, c, h, v);
    QuietStep(decode, c, h, v, SetNext(c.nodes[v], p, next), {});
  }

  lemma IdleStep(decode: Decoder, c: State, h: History, v: NodeId)
    requires CInv(decode, c, h) && v in c.nodes
    ensures CInv(decode, Moved(c, v, c.nodes[v], {}), h)
  {
    NodeIs(decode, c, h, v);
    QuietStep(decode, c, h, v, c.nodes[v], {});
  }

  /** In the term of a request, its leader's log still reaches as far as the request did. */
  lemma RequestWithinLog(decode: Decoder, c: State, h: History, v: NodeId, from: NodeId, req: AppendRequest)
    requires CInv(decode, c, h) && v in c.nodes && c.nodes[v].role == Leader && c.nodes[v].term == req.term
    requires AppendOk(c.nodes.Keys, h, from, req)
    ensures c.nodes[v].leader.Some? && req.prevIndex + |req.entries| <= |c.nodes[v].log|
    ensures req.entries != [] ==> req.entries[|req.entries| - 1].index == req.prevIndex + |req.entries|
  {
    NodeIs(decode, c, h, v);
  }

  lemma AppendTellStep(decode: Decoder, c: State, h: History, v: NodeId, from: NodeId, req: AppendRequest,
      resp: AppendReply)
      returns (h': History)
    requires CInv(decode, c, h) && AppendTell(from, req, false, resp) in c.net && v in c.nodes && v == req.leader
    ensures CInv(decode, Moved(c, v, HandleAppendReply(c.nodes[v], from, req, resp), {}), h') && Grows(h, h')
  {
    var s := c.nodes[v];
    GrowsRefl(h);
    h' := h;
    if resp.term > s.term {
      StepDownStep(decode, c, h, v, resp.term);
    } else if s.role == Leader && s.term == req.term && s.leader.Some? && (!resp.success || req.entries != []) {
      h' := CurrentReplyStep(decode, c, h, v, from, req, resp) by {
        assert MsgOk(c.nodes.Keys, h, AppendTell(from, req, false, resp));
      }
    } else {
      IdleStep(decode, c, h, v);
    }
  }

  lemma CurrentReplyStep(decode: Decoder, c: State, h: History, v: NodeId, from: NodeId, req: AppendRequest,
      resp: AppendReply)
      returns (h': History)
    requires CInv(decode, c, h) && MsgOk(c.nodes.Keys, h, AppendTell(from, req, false, resp)) && v in c.nodes
             && v == req.leader
    requires resp.term <= c.nodes[v].term == req.term && c.nodes[v].role == Leader && c.nodes[v].leader.Some?
    requires !resp.success || req.entries != []
    ensures CInv(decode, Moved(c, v, HandleAppendReply(c.nodes[v], from, req, resp), {}), h') && Grows(h, h')
  {
    RequestWithinLog(decode, c, h, v, from, req);
    var sent := req.prevIndex + |req.entries|;
    if resp.success {
      assert HandleAppendReply(c.nodes[v], from, req, resp) == Replicated(c.nodes[v], from, sent);
      h' := MatchThenAdvanceStep(decode, c, h, v, from, sent);
    } else {
      GrowsRefl(h);
      h' := h;
      BackoffStep(decode, c, h, v, from, req, resp);
    }
  }

  lemma MatchThenAdvanceStep(decode: Decoder, c: State, h: History, v: NodeId, from: NodeId, sent: nat)
      returns (h': History)
    requires CInv(decode, c, h) && v in c.nodes && c.nodes[v].role == Leader && c.nodes[v].leader.Some?
    requires Acked(h, from, c.nodes[v].term, sent) && sent <= |c.nodes[v].log|
    ensures CInv(decode, Moved(c, v, Replicated(c.nodes[v], from, sent), {}), h') && Grows(h, h')
  {
    var s1 := SetMatch(SetNext(c.nodes[v], from, sent + 1), from, sent);
    MatchStep(decode, c, h, v, from, sent, s1);
    MovedTwice(c, v, s1, TryAdvance(s1), {});
    h' := AdvanceStep(decode, Moved(c, v, s1, {}), h, v);
  }

  lemma BackoffStep(decode: Decoder, c: State, h: History, v: NodeId, from: NodeId, req: AppendRequest,
      resp: AppendReply)
    requires CInv(decode, c, h) && v in c.nodes && c.nodes[v].role == Leader && c.nodes[v].leader.Some?
    requires resp.term <= c.nodes[v].term == req.term && !resp.success
    requires resp.conflictIndex <= req.prevIndex <= |c.nodes[v].log| && from in c.nodes && from != v
    ensures CInv(decode, Moved(c, v, HandleAppendReply(c.nodes[v], from, req, resp), {}), h)
  {
    var s := c.nodes[v];
    if resp.conflictIndex > 0 {
      NextStep(decode, c, h, v, from, resp.conflictIndex);
    } else if NextFor(s, from) > 1 {
      PeerNext(decode, c, h, v, from);
      NextStep(decode, c, h, v, from, NextFor(s, from) - 1);
    } else {
      IdleStep(decode, c, h, v);
    }
  }

  lemma PeerNext(decode: Decoder, c: State, h: History, v: NodeId, p: NodeId)
    requires CInv(decode, c, h) && v in c.nodes && c.nodes[v].role == Leader && p in c.nodes && p != v
    ensures p in c.nodes[v].peers && 1 <= NextFor(c.nodes[v], p) <= |c.nodes[v].log| + 1
  {
    NodeIs(decode, c, h, v);
    PeersCover(c.nodes.Keys, v, c.nodes[v].peers, p);
  }

  /** A list of |servers| - 1 distinct servers other than v has all of them. */
  lemma PeersCover(servers: set<NodeId>, v: NodeId, peers: seq<NodeId>, p: NodeId)
    requires PeersOk(servers, v, peers) && p in servers && p != v
    ensures p in peers
  {
    var have := Elements(peers);
    DistinctSize(peers);
    if p !in have {
      assert |have + {v}| == |have| + 1;
      assert |have + {v} + {p}| == |have| + 2;
      Sets.SubsetSize(have + {v} + {p}, servers);
      assert false;
    }
  }

  ghost function Elements(s: seq<NodeId>): set<NodeId> {
    set x | x in s
  }

  lemma {:induction false} DistinctSize(s: seq<NodeId>)
    requires Distinct(s)
    ensures |Elements(s)| == |s|
  {
    if s != [] {
      DistinctSize(s[1..]);
      assert s[0] !in Elements(s[1..]);
      assert Elements(s) == Elements(s[1..]) + {s[0]} by { assert s == [s[0]] + s[1..]; }
    }
  }

  lemma HeartbeatTellStep(decode: Decoder, c: State, h: History, v: NodeId, from: NodeId, req: AppendRequest,
      resp: AppendReply)
    requires CInv(decode, c, h) && AppendTell(from, req, true, resp) in c.net && v in c.nodes && v == req.leader
    ensures CInv(decode, Moved(c, v, HandleHeartbeatReply(c.nodes[v], from, req.term, resp), {}), h)
  {
    var s := c.nodes[v];
    assert MsgOk(c.nodes.Keys, h, AppendTell(from, req, true, resp));
    if resp.term > s.term {
      StepDownStep(decode, c, h, v, resp.term);
    } else if s.role == Leader && s.term == req.term && !resp.success && s.leader.Some? && NextFor(s, from) > 1 {
      PeerNext(decode, c, h, v, from);
      NextStep(decode, c, h, v, from, NextFor(s, from) - 1);
    } else {
      IdleStep(decode, c, h, v);
    }
  }

  lemma ApplyStep(decode: Decoder, c: State, h: History, v: NodeId)
    requires CInv(decode, c, h) && v in c.nodes
    ensures CInv(decode, Moved(c, v, ApplyCommitted(decode, c.nodes[v]), {}), h)
  {
    NodeIs(decode, c, h, v);
    ApplyUpToIs(decode, c.nodes[v], c.nodes[v].commitIndex);
    QuietStep(decode, c, h, v, ApplyCommitted(decode, c.nodes[v]), {});
  }

  // ---------------------------------------------------------------- every step, every run

  /** The commit bound of an append delivered by this step, if it delivers one, is backed. */
  ghost predicate StepBacked(rules: Rules, h: History, c: State, st: Step) {
    st.Deliver? && st.m.AppendAsk? && Enabled(c, st) ==> Backed(rules, h, c.nodes[st.m.to], st.m.areq)
  }

  lemma DeliverStep(decode: Decoder, c: State, h: History, rules: Rules, m: Msg) returns (h': History)
    requires CInv(decode, c, h) && Safe(rules, |c.nodes.Keys|) && Enabled(c, Deliver(m))
             && StepBacked(rules, h, c, Deliver(m))
    ensures CInv(decode, Do(rules, decode, c, Deliver(m)), h') && Grows(h, h')
  {
    GrowsRefl(h);
    match m
    case VoteAsk(to, req) => h' := VoteAskStep(decode, c, h, to, req);
    case VoteTell(from, req, resp) => h' := VoteTellStep(decode, c, h, rules, req.cand, req, from, resp);
    case AppendAsk(to, req, heartbeat) => h' := AppendAskStep(decode, c, h, rules, to, req, heartbeat);
    case AppendTell(from, req, heartbeat, resp) =>
      if heartbeat {
        HeartbeatTellStep(decode, c, h, req.leader, from, req, resp);
        h' := h;
      } else {
        h' := AppendTellStep(decode, c, h, req.leader, from, req, resp);
      }
  }

  /** Every step of the cluster keeps the invariant, for some extension of the history. */
  lemma AnyStep(decode: Decoder, c: State, h: History, rules: Rules, st: Step) returns (h': History)
    requires CInv(decode, c, h) && Safe(rules, |c.nodes.Keys|) && StepBacked(rules, h, c, st)
    ensures CInv(decode, Do(rules, decode, c, st), h') && Grows(h, h')
  {
    if !Enabled(c, st) {
      GrowsRefl(h);
      h' := h;
    } else if st.Deliver? {
      h' := DeliverStep(decode, c, h, rules, st.m);
    } else {
      h' := OwnStep(decode, c, h, rules, st);
    }
  }

  lemma OwnStep(decode: Decoder, c: State, h: History, rules: Rules, st: Step) returns (h': History)
    requires CInv(decode, c, h) && Enabled(c, st) && !st.Deliver?
    ensures CInv(decode, Do(rules, decode, c, st), h') && Grows(h, h')
  {
    GrowsRefl(h);
    h' := h;
    match st
    case Timeout(v) => h' := TimeoutStep(decode, c, h, v, BecomeCandidate(c.nodes[v]));
    case Submit(v, data, kind) => h' := SubmitStep(decode, c, h, v, data, kind);
    case Send(v, p, maxEntries) =>
      SendStep(decode, c, h, v, p, AppendAsk(p, BuildAppend(c.nodes[v], p, maxEntries), false));
    case Beat(v, p) => SendStep(decode, c, h, v, p, AppendAsk(p, BuildHeartbeat(c.nodes[v], p), true));
    case Apply(v) => ApplyStep(decode, c, h, v);
  }

  ghost const EMPTY := History(map[], map[], map[], map[], {})

  lemma InitCInv(decode: Decoder, c: State)
    requires Init(c)
    ensures CInv(decode, c, EMPTY)
  {
    QuorumsForOk(c.nodes.Keys);
    InitAbs(c);
    InitInv(QuorumsFor(c.nodes.Keys), AbsNodes(c));
    forall v | v in c.nodes ensures LocalOk(decode, c.nodes.Keys, v, c.nodes[v]) {
      NewNodeOk(decode, c.nodes.Keys, v, c.nodes[v].peers);
    }
  }

  lemma InitAbs(c: State)
    requires Init(c)
    ensures AbsNodes(c).Keys == c.nodes.Keys
    ensures forall v :: v in AbsNodes(c) ==>
              var p := AbsNodes(c)[v];
              p.term == 0 && p.vote == None && p.role == Follower && p.log == [] && p.commit == 0
  {
  }

  lemma NewNodeOk(decode: Decoder, servers: set<NodeId>, v: NodeId, peers: seq<NodeId>)
    requires PeersOk(servers, v, peers)
    ensures LocalOk(decode, servers, v, NewNode(v, peers))
  {
  }
}
