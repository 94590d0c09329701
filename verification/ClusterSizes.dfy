/** Exactly which cluster sizes the thresholds and vote keys of election.go:46-55 keep safe. */
module ClusterSizes {
  import opened RaftTypes
  import opened StateMachine
  import opened NodeSpec
  import opened Cluster
  import opened Refinement
  import opened RefinementAppend
  import opened Runs
  import opened Safety
  import Sets

  // ---------------------------------------------------------------- thresholds

  /** As many nodes as it takes to win an election, or to commit an entry. */
  ghost predicate Wins(a: set<NodeId>, servers: set<NodeId>) {
    a <= servers && |a| >= WinSize(|servers|)
  }

  ghost predicate Commits(b: set<NodeId>, servers: set<NodeId>) {
    b <= servers && |b| >= CommitSize(|servers|)
  }

  /** Every winning set shares a node with every winning and every committing set exactly for the safe sizes. */
  lemma SafeSizeIs(servers: set<NodeId>)
    ensures (forall a, b :: Wins(a, servers) && (Wins(b, servers) || Commits(b, servers)) ==> a * b != {}) <==>
            SafeSize(|servers|)
  {
    var n := |servers|;
    if SafeSize(n) {
      forall a, b | Wins(a, servers) && (Wins(b, servers) || Commits(b, servers)) ensures a * b != {} {
        assert |a + b| == |a| + |b| - |a * b|;
        Sets.SubsetSize(a + b, servers);
      }
    } else {
      var a := Sets.PickSome(servers, n / 2);
      var b := servers - a;
      assert |b| == n - n / 2;
      assert Wins(a, servers) && Wins(b, servers) && a * b == {};
    }
  }

  // ---------------------------------------------------------------- exactly when elections are safe

  /** At most one node ever leads a term. */
  ghost predicate OneLeaderATerm(rules: Rules, decode: Decoder, c: State, run: seq<Step>) {
    forall i, u, j, v {:trigger At(rules, decode, c, run, i).nodes[u], At(rules, decode, c, run, j).nodes[v]} ::
      && 0 <= i <= |run| && 0 <= j <= |run|
      && u in At(rules, decode, c, run, i).nodes && v in At(rules, decode, c, run, j).nodes
      && At(rules, decode, c, run, i).nodes[u].role == Leader && At(rules, decode, c, run, j).nodes[v].role == Leader
      && At(rules, decode, c, run, i).nodes[u].term == At(rules, decode, c, run, j).nodes[v].term
      ==> u == v
  }

  /**
   * Election safety, exactly: every run of the cluster has at most one leader a term if and only
   * if the size is safe for the rules, which for the code's own vote keys means any size but four.
   */
  lemma ElectionSafetyExactly(rules: Rules, decode: Decoder, c: State)
    requires Init(c)
    ensures (forall run :: OneLeaderATerm(rules, decode, c, run)) <==> Safe(rules, |c.nodes|)
    ensures !rules.votesByVoter ==> (Safe(rules, |c.nodes|) <==> |c.nodes| != 4)
  {
    if Safe(rules, |c.nodes|) {
      forall run ensures OneLeaderATerm(rules, decode, c, run) {
        SafeSizeElectsOne(rules, decode, c, run);
      }
    } else {
      var run, a, b := EvenClusterHasTwoLeaders(rules, decode, c);
      AtEnd(rules, decode, c, run);
      var last := At(rules, decode, c, run, |run|);
      assert last.nodes[a].role == Leader && last.nodes[b].role == Leader && last.nodes[a].term == last.nodes[b].term;
      assert !OneLeaderATerm(rules, decode, c, run);
    }
  }

  lemma SafeSizeElectsOne(rules: Rules, decode: Decoder, c: State, run: seq<Step>)
    requires Setting(rules, c)
    ensures OneLeaderATerm(rules, decode, c, run)
  {
    forall i, u, j, v |
      && 0 <= i <= |run| && 0 <= j <= |run|
      && u in At(rules, decode, c, run, i).nodes && v in At(rules, decode, c, run, j).nodes
      && At(rules, decode, c, run, i).nodes[u].role == Leader && At(rules, decode, c, run, j).nodes[v].role == Leader
      && At(rules, decode, c, run, i).nodes[u].term == At(rules, decode, c, run, j).nodes[v].term
      ensures u == v
    {
      ElectionSafety(rules, decode, c, run, i, u, j, v);
    }
  }

  // ---------------------------------------------------------------- two leaders

  function Ask(a: NodeId): VoteRequest { VoteRequest(1, a, 0, 0) }

  function Yes(u: NodeId, a: NodeId): Msg { VoteTell(u, Ask(a), VoteReply(1, true)) }

  ghost predicate Untouched(s: NodeState) {
    s == NewNode(s.id, s.peers)
  }

  /** `a` stands in term 1 with an empty log and has the votes of itself and of V. */
  ghost predicate Standing(s: NodeState, a: NodeId, V: set<NodeId>) {
    && s.id == a && s.role == Candidate && s.term == 1 && s.log == []
    && s.voters == {a} + V && a !in V && Some(a) in s.votes
  }

  ghost predicate Asked(c: State, a: NodeId) {
    forall u :: u in c.nodes && u != a ==> VoteAsk(u, Ask(a)) in c.net
  }

  /** From c to c' only nodes of `who` changed, and messages were only added. */
  ghost predicate Only(c: State, c': State, who: set<NodeId>) {
    c'.nodes.Keys == c.nodes.Keys && c.net <= c'.net && forall v :: v in c.nodes && v !in who ==>
        c'.nodes[v] == c.nodes[v]
  }

  lemma ExecConcat(rules: Rules, decode: Decoder, c: State, r: seq<Step>, r': seq<Step>)
    ensures Exec(rules, decode, c, r + r') == Exec(rules, decode, Exec(rules, decode, c, r), r')
  {
    ExecSplit(rules, decode, c, r + r', |r|);
    assert (r + r')[..|r|] == r && (r + r')[|r|..] == r';
  }

  lemma ExecOne(rules: Rules, decode: Decoder, c: State, st: Step)
    ensures Exec(rules, decode, c, [st]) == Do(rules, decode, c, st)
  {
    assert [st][..0] == [];
  }

  lemma Stand(rules: Rules, decode: Decoder, c: State, a: NodeId)
    requires a in c.nodes && Untouched(c.nodes[a]) && c.nodes[a].id == a && PeersOk(c.nodes.Keys, a, c.nodes[a].peers)
    ensures var c' := Do(rules, decode, c, Timeout(a));
            Only(c, c', {a}) && Standing(c'.nodes[a], a, {}) && c'.nodes[a].peers == c.nodes[a].peers && Asked(c', a)
  {
    forall u | u in c.nodes && u != a ensures u in c.nodes[a].peers {
      PeersCover(c.nodes.Keys, a, c.nodes[a].peers, u);
    }
    var s := BecomeCandidate(c.nodes[a]);
    assert {a} + {} == {a};
    assert AskForVote(s) == Ask(a);
  }

  /** An untouched node votes for whoever asks first. */
  lemma Grants(rules: Rules, decode: Decoder, c: State, a: NodeId, u: NodeId)
    requires u in c.nodes && c.nodes[u].id == u && Untouched(c.nodes[u]) && VoteAsk(u, Ask(a)) in c.net
    ensures var c' := Do(rules, decode, c, Deliver(VoteAsk(u, Ask(a))));
            Only(c, c', {u}) && Yes(u, a) in c'.net
  {
  }

  /** A delivered vote is counted; it elects exactly when the tally reaches half the cluster. */
  lemma Counts(rules: Rules, decode: Decoder, c: State, a: NodeId, V: set<NodeId>, u: NodeId)
    requires a in c.nodes && Standing(c.nodes[a], a, V) && u != a && u !in V && Yes(u, a) in c.net
    requires |V| + 2 <= |c.nodes[a].peers|
    requires rules.votesByVoter || |c.nodes[a].peers| == 3
    ensures var c' := Do(rules, decode, c, Deliver(Yes(u, a)));
            && Only(c, c', {a}) && c'.nodes[a].term == 1 && c'.nodes[a].peers == c.nodes[a].peers
            && (if |V| + 2 >= VotesNeeded(|c.nodes[a].peers|) then c'.nodes[a].role == Leader
                else Standing(c'.nodes[a], a, V + {u}))
  {
    TallyOf(c.nodes[a], a, V, u);
  }

  lemma TallyOf(s: NodeState, a: NodeId, V: set<NodeId>, u: NodeId)
    requires Standing(s, a, V) && u != a && u !in V
    ensures s.voters + {u} == {a} + (V + {u}) && |{a} + (V + {u})| == |V| + 2 && |s.votes + {None}| >= 2
  {
    TwoKeys(s.votes + {None}, a);
  }

  lemma TwoKeys(k: set<Option<NodeId>>, a: NodeId)
    requires {Some(a), None} <= k
    ensures |k| >= 2
  {
    var rest := k - {Some(a)};
    assert None in rest && k == rest + {Some(a)};
    assert rest != {};
  }

  lemma OneVote(rules: Rules, decode: Decoder, c: State, a: NodeId, V: set<NodeId>, u: NodeId) returns (run: seq<Step>)
    requires a in c.nodes && Standing(c.nodes[a], a, V) && u in c.nodes && u != a && u !in V
    requires c.nodes[u].id == u && Untouched(c.nodes[u]) && Asked(c, a)
    requires |V| + 2 <= |c.nodes[a].peers| && (rules.votesByVoter || |c.nodes[a].peers| == 3)
    ensures var c' := Exec(rules, decode, c, run);
            && Only(c, c', {a, u}) && c'.nodes[a].term == 1 && c'.nodes[a].peers == c.nodes[a].peers
            && (if |V| + 2 >= VotesNeeded(|c.nodes[a].peers|) then c'.nodes[a].role == Leader
                else Standing(c'.nodes[a], a, V + {u}))
  {
    var st, st' := Deliver(VoteAsk(u, Ask(a))), Deliver(Yes(u, a));
    Grants(rules, decode, c, a, u);
    Counts(rules, decode, Do(rules, decode, c, st), a, V, u);
    ExecOne(rules, decode, c, st);
    ExecOne(rules, decode, Do(rules, decode, c, st), st');
    ExecConcat(rules, decode, c, [st], [st']);
    run := [st] + [st'];
  }

  /** `a` stands with the votes of V and may ask the untouched nodes of W. */
  ghost predicate Ready(rules: Rules, c: State, a: NodeId, V: set<NodeId>, W: set<NodeId>) {
    && a in c.nodes && Standing(c.nodes[a], a, V) && Asked(c, a)
    && W <= c.nodes.Keys && a !in W && W !! V
    && (forall u :: u in W ==> c.nodes[u].id == u && Untouched(c.nodes[u]))
    && (rules.votesByVoter || |c.nodes[a].peers| == 3)
  }

  lemma OnlyChain(c: State, c1: State, c2: State, x: set<NodeId>, y: set<NodeId>)
    requires Only(c, c1, x) && Only(c1, c2, y)
    ensures Only(c, c2, x + y)
  {
    forall v | v in c.nodes && v !in x + y ensures c2.nodes[v] == c.nodes[v] {
      assert c1.nodes[v] == c.nodes[v];
    }
  }

  /** Steps of other nodes leave a campaign ready for the voters they did not touch. */
  lemma StaysReady(rules: Rules, c: State, c': State, who: set<NodeId>, a: NodeId, V: set<NodeId>, W: set<NodeId>)
    requires Ready(rules, c, a, V, W) && Only(c, c', who) && a !in who && W !! who
    ensures Ready(rules, c', a, V, W)
  {
    assert c'.nodes[a] == c.nodes[a];
    forall u | u in W ensures c'.nodes[u].id == u && Untouched(c'.nodes[u]) {
      assert c'.nodes[u] == c.nodes[u];
    }
  }

  lemma ReadyForNext(rules: Rules, c: State, c': State, a: NodeId, V: set<NodeId>, W: set<NodeId>, u: NodeId)
    requires Ready(rules, c, a, V, W) && u in W && Only(c, c', {a, u})
    requires Standing(c'.nodes[a], a, V + {u}) && c'.nodes[a].peers == c.nodes[a].peers
    ensures Ready(rules, c', a, V + {u}, W - {u})
  {
    forall x | x in W - {u} ensures c'.nodes[x].id == x && Untouched(c'.nodes[x]) {
      assert c'.nodes[x] == c.nodes[x];
    }
  }

  lemma OneVoteMore(rules: Rules, decode: Decoder, c: State, a: NodeId, V: set<NodeId>, W: set<NodeId>, u: NodeId)
      returns (run: seq<Step>)
    requires Ready(rules, c, a, V, W) && u in W
    requires |V| + 2 < VotesNeeded(|c.nodes[a].peers|) && |V| + 2 <= |c.nodes[a].peers|
    ensures var c' := Exec(rules, decode, c, run);
            Only(c, c', {a, u}) && Ready(rules, c', a, V + {u}, W - {u}) && c'.nodes[a].peers == c.nodes[a].peers
  {
    run := OneVote(rules, decode, c, a, V, u);
    ReadyForNext(rules, c, Exec(rules, decode, c, run), a, V, W, u);
  }

  /** Collecting the votes of W, too few to win. */
  lemma {:induction false} Gather(rules: Rules, decode: Decoder, c: State, a: NodeId, V: set<NodeId>, W: set<NodeId>)
      returns (run: seq<Step>)
    requires Ready(rules, c, a, V, W)
    requires |V| + |W| + 1 < VotesNeeded(|c.nodes[a].peers|) && |V| + |W| + 1 <= |c.nodes[a].peers|
    ensures var c' := Exec(rules, decode, c, run);
            Only(c, c', W + {a}) && Standing(c'.nodes[a], a, V + W) && c'.nodes[a].peers == c.nodes[a].peers
    decreases |W|
  {
    if W == {} {
      run := [];
      assert V + W == V;
    } else {
      var u :| u in W;
      VoteSizes(V, W, u, a);
      var r := OneVoteMore(rules, decode, c, a, V, W, u);
      var c1 := Exec(rules, decode, c, r);
      var r' := Gather(rules, decode, c1, a, V + {u}, W - {u});
      ExecConcat(rules, decode, c, r, r');
      run := r + r';
      OnlyChain(c, c1, Exec(rules, decode, c1, r'), {a, u}, W - {u} + {a});
    }
  }

  lemma VoteSizes(V: set<NodeId>, W: set<NodeId>, u: NodeId, a: NodeId)
    requires u in W && W !! V
    ensures |W - {u}| == |W| - 1 && |V + {u}| == |V| + 1 && V + {u} + (W - {u}) == V + W
    ensures {a, u} + (W - {u} + {a}) == W + {a} == W - {u} + {a} + {a, u}
  {
  }

  /** With the votes of half the cluster, itself included, a standing node leads. */
  lemma WinWithHalf(rules: Rules, decode: Decoder, c: State, a: NodeId, W: set<NodeId>) returns (run: seq<Step>)
    requires Ready(rules, c, a, {}, W)
    requires |c.nodes[a].peers| >= 3 && |W| >= 1 && |W| + 1 == VotesNeeded(|c.nodes[a].peers|)
    ensures var c' := Exec(rules, decode, c, run);
            Only(c, c', W + {a}) && c'.nodes[a].role == Leader && c'.nodes[a].term == 1
  {
    var u :| u in W;
    var W1 := W - {u};
    VoteSizes({}, W, u, a);
    ReadyForFewer(rules, c, a, W, u);
    var r := Gather(rules, decode, c, a, {}, W1);
    var c1 := Exec(rules, decode, c, r);
    var r' := LastVote(rules, decode, c, c1, a, W, u);
    ExecConcat(rules, decode, c, r, r');
    run := r + r';
  }

  lemma ReadyForFewer(rules: Rules, c: State, a: NodeId, W: set<NodeId>, u: NodeId)
    requires Ready(rules, c, a, {}, W)
    ensures Ready(rules, c, a, {}, W - {u}) && {} + (W - {u}) == W - {u}
  {
  }

  /** The vote that decides, after those of all the others in W. */
  lemma LastVote(rules: Rules, decode: Decoder, c: State, c1: State, a: NodeId, W: set<NodeId>, u: NodeId)
      returns (run: seq<Step>)
    requires Ready(rules, c, a, {}, W) && u in W && Only(c, c1, W - {u} + {a})
    requires Standing(c1.nodes[a], a, W - {u}) && c1.nodes[a].peers == c.nodes[a].peers
    requires |c.nodes[a].peers| >= 3 && |W| + 1 == VotesNeeded(|c.nodes[a].peers|)
    ensures var c' := Exec(rules, decode, c1, run);
            Only(c, c', W + {a}) && c'.nodes[a].role == Leader && c'.nodes[a].term == 1
  {
    VoteSizes({}, W, u, a);
    assert c1.nodes[u] == c.nodes[u];
    assert Asked(c1, a);
    run := OneVote(rules, decode, c1, a, W - {u}, u);
    OnlyChain(c, c1, Exec(rules, decode, c1, run), W - {u} + {a}, {a, u});
  }

  /**
   * Election safety fails for every even cluster size from four on: some run has two nodes
   * leading term 1. For exactly four nodes this is so with the code's own vote keys too.
   */
  lemma EvenClusterHasTwoLeaders(rules: Rules, decode: Decoder, c: State) returns (run: seq<Step>, a: NodeId, b: NodeId)
    requires Init(c) && |c.nodes| % 2 == 0 && |c.nodes| >= 4 && (rules.votesByVoter || |c.nodes| == 4)
    ensures var c' := Exec(rules, decode, c, run);
            && a in c'.nodes && b in c'.nodes && a != b
            && c'.nodes[a].role == Leader && c'.nodes[b].role == Leader && c'.nodes[a].term == 1
               && c'.nodes[b].term == 1
  {
    var all := c.nodes.Keys;
    assert |all| == |c.nodes|;
    var half := |all| / 2;
    a :| a in all;
    assert |all - {a}| == |all| - 1;
    b :| b in all - {a};
    var rest := all - {a} - {b};
    assert |rest| == |all| - 2;
    var W := Sets.PickSome(rest, half - 1);
    var W' := rest - W;
    assert |W'| == half - 1;
    run := SplitVote(rules, decode, c, a, W, b, W');
  }

  lemma BothStand(rules: Rules, decode: Decoder, c: State, a: NodeId, W: set<NodeId>, b: NodeId, W': set<NodeId>)
      returns (run: seq<Step>)
    requires Init(c) && (rules.votesByVoter || |c.nodes| == 4)
    requires a in c.nodes && b in c.nodes && a != b && W + W' <= c.nodes.Keys - {a, b} && W !! W'
    ensures var c' := Exec(rules, decode, c, run);
            && Ready(rules, c', a, {}, W) && Ready(rules, c', b, {}, W') && c'.nodes.Keys == c.nodes.Keys
            && |c'.nodes[a].peers| + 1 == |c.nodes| && |c'.nodes[b].peers| + 1 == |c.nodes|
  {
    assert |c.nodes.Keys| == |c.nodes|;
    var c1 := Do(rules, decode, c, Timeout(a));
    Stand(rules, decode, c, a);
    assert Ready(rules, c1, a, {}, W) by {
      forall u | u in W ensures c1.nodes[u].id == u && Untouched(c1.nodes[u]) { assert c1.nodes[u] == c.nodes[u]; }
    }
    assert c1.nodes[b] == c.nodes[b];
    var c2 := Do(rules, decode, c1, Timeout(b));
    Stand(rules, decode, c1, b);
    StaysReady(rules, c1, c2, {b}, a, {}, W);
    assert c2.nodes[a] == c1.nodes[a];
    assert Ready(rules, c2, b, {}, W') by {
      forall u | u in W' ensures c2.nodes[u].id == u && Untouched(c2.nodes[u]) {
        assert c2.nodes[u] == c1.nodes[u] == c.nodes[u];
      }
    }
    ExecOne(rules, decode, c, Timeout(a));
    ExecOne(rules, decode, c1, Timeout(b));
    ExecConcat(rules, decode, c, [Timeout(a)], [Timeout(b)]);
    run := [Timeout(a)] + [Timeout(b)];
  }

  lemma SplitVote(rules: Rules, decode: Decoder, c: State, a: NodeId, W: set<NodeId>, b: NodeId, W': set<NodeId>)
      returns (run: seq<Step>)
    requires Init(c) && |c.nodes| % 2 == 0 && |c.nodes| >= 4 && (rules.votesByVoter || |c.nodes| == 4)
    requires a in c.nodes && b in c.nodes && a != b && W + W' <= c.nodes.Keys - {a, b} && W !! W'
    requires |W| == |W'| == |c.nodes| / 2 - 1
    ensures var c' := Exec(rules, decode, c, run);
            && a in c'.nodes && b in c'.nodes
            && c'.nodes[a].role == Leader && c'.nodes[b].role == Leader && c'.nodes[a].term == 1
               && c'.nodes[b].term == 1
  {
    var r0 := BothStand(rules, decode, c, a, W, b, W');
    var c2 := Exec(rules, decode, c, r0);
    var r := WinWithHalf(rules, decode, c2, a, W);
    var c3 := Exec(rules, decode, c2, r);
    StaysReady(rules, c2, c3, W + {a}, b, {}, W');
    assert c3.nodes[b] == c2.nodes[b];
    var r' := WinWithHalf(rules, decode, c3, b, W');
    assert Exec(rules, decode, c3, r').nodes[a] == c3.nodes[a];
    ExecConcat(rules, decode, c, r0, r);
    ExecConcat(rules, decode, c, r0 + r, r');
    run := r0 + r + r';
  }

  // ---------------------------------------------------------------- no leader at all

  ghost predicate Leaderless(c: State) {
    forall v :: v in c.nodes ==>
      && c.nodes[v].id == v && c.nodes[v].role != Leader
      && c.nodes[v].votes <= {Some(v), None} && |c.nodes[v].peers| >= 4
  }

  /** Under the code's vote keys the tally is at most two, which is too few for five nodes. */
  lemma StepStaysLeaderless(documented: bool, decode: Decoder, c: State, st: Step)
    requires Leaderless(c)
    ensures Leaderless(Do(Rules(false, documented), decode, c, st))
  {
    if Enabled(c, st) {
      var (v, s, out) := Move(Rules(false, documented), decode, c, st);
      match st
      case Timeout(_) =>
      case Submit(_, _, _) =>
      case Send(_, _, _) =>
      case Beat(_, _) =>
      case Apply(_) => ApplyKeepsRole(decode, c.nodes[v], c.nodes[v].commitIndex);
      case Deliver(m) => DeliverStaysLeaderless(documented, decode, c, m);
    }
  }

  lemma DeliverStaysLeaderless(documented: bool, decode: Decoder, c: State, m: Msg)
    requires Leaderless(c) && Enabled(c, Deliver(m))
    ensures var (v, s, _) := Move(Rules(false, documented), decode, c, Deliver(m));
            v in c.nodes && s.id == v && s.role != Leader && s.votes <= {Some(v), None} && |s.peers| >= 4
  {
    match m
    case VoteAsk(_, _) =>
    case VoteTell(from, req, resp) => VoteLeavesLeaderless(documented, c.nodes[req.cand], req, from, resp);
    case AppendAsk(to, req, _) => AppendLeavesLeaderless(documented, c.nodes[to], req);
    case AppendTell(_, _, _, _) =>
  }

  lemma AppendLeavesLeaderless(documented: bool, s: NodeState, req: AppendRequest)
    requires s.role != Leader
    ensures var r := HandleAppend(Rules(false, documented), s, req).0;
            r.id == s.id && r.role != Leader && r.votes == s.votes && r.peers == s.peers
  {
  }

  lemma VoteLeavesLeaderless(documented: bool, s: NodeState, req: VoteRequest, from: NodeId, resp: VoteReply)
    requires s.role != Leader && s.votes <= {Some(s.id), None} && |s.peers| >= 4
    ensures var r := HandleVoteReply(Rules(false, documented), s, req, from, resp);
            r.id == s.id && r.role != Leader && r.votes <= {Some(s.id), None} && r.peers == s.peers
  {
    SubsetOfTwo(s.votes + {None}, Some(s.id), None);
  }

  lemma {:induction false} ApplyKeepsRole(decode: Decoder, s: NodeState, upTo: nat)
    ensures var r := ApplyUpTo(decode, s, upTo);
            r.id == s.id && r.role == s.role && r.votes == s.votes && r.peers == s.peers
    decreases upTo - s.lastApplied
  {
    if s.lastApplied < upTo && s.lastApplied < |s.log| {
      ApplyKeepsRole(decode, s.(store := ApplyEntry(decode, s.store, s.log[s.lastApplied]),
          lastApplied := s.lastApplied + 1), upTo);
    }
  }

  /** With the code's vote keys no run of a cluster of five or more nodes ever has a leader. */
  lemma {:induction false} LargeClustersNeverElect(documented: bool, decode: Decoder, c: State, run: seq<Step>)
    requires Init(c) && |c.nodes| >= 5
    ensures Leaderless(Exec(Rules(false, documented), decode, c, run))
  {
    if run == [] {
      assert |c.nodes.Keys| == |c.nodes|;
    } else {
      LargeClustersNeverElect(documented, decode, c, run[..|run| - 1]);
      StepStaysLeaderless(documented, decode, Exec(Rules(false, documented), decode, c, run[..|run| - 1]),
          run[|run| - 1]);
    }
  }
}
