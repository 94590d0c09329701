/** Runs of the cluster, and the invariant at every moment of them. */
module Runs {
  import opened RaftTypes
  import opened Logs
  import opened StateMachine
  import opened NodeSpec
  import opened Cluster
  import opened Protocol
  import opened Refinement
  import opened RefinementAppend
  import opened Progress
  import LC = LeaderCompleteness

  /** The state after the first i steps of a run. */
  function At(rules: Rules, decode: Decoder, c: State, run: seq<Step>, i: nat): State
    requires i <= |run|
  {
    Exec(rules, decode, c, run[..i])
  }

  lemma AtNext(rules: Rules, decode: Decoder, c: State, run: seq<Step>, i: nat)
    requires i < |run|
    ensures At(rules, decode, c, run, i + 1) == Do(rules, decode, At(rules, decode, c, run, i), run[i])
    ensures At(rules, decode, c, run, i + 1).nodes.Keys == At(rules, decode, c, run, i).nodes.Keys
  {
    assert run[..i + 1][..i] == run[..i];
    DoKeepsServers(rules, decode, At(rules, decode, c, run, i), run[i]);
  }

  lemma AtPrefix(rules: Rules, decode: Decoder, c: State, run: seq<Step>, n: nat, i: nat)
    requires i <= n <= |run|
    ensures At(rules, decode, c, run[..n], i) == At(rules, decode, c, run, i)
  {
    assert run[..n][..i] == run[..i];
  }

  lemma AtEnd(rules: Rules, decode: Decoder, c: State, run: seq<Step>)
    ensures At(rules, decode, c, run, |run|) == Exec(rules, decode, c, run)
  {
    assert run[..|run|] == run;
  }

  // ---------------------------------------------------------------- deliveries that do no harm

  /** Whether a node accepts an append request. */
  predicate Accepts(s: NodeState, req: AppendRequest) {
    && s.term <= req.term
    && (req.prevIndex > 0 ==> req.prevIndex <= LastIndex(s.log) && TermAt(s.log, req.prevIndex) == req.prevTerm)
  }

  lemma AcceptsIs(rules: Rules, s: NodeState, req: AppendRequest)
    ensures HandleAppend(rules, s, req).1.success <==> Accepts(s, req)
  {
  }

  /**
   * The receiver of a request it accepts keeps, above the request's end, no entry up to the
   * commit index offered that differs from what the sender has committed there.
   */
  predicate Harmless(c: State, v: NodeId, req: AppendRequest)
    requires v in c.nodes
  {
    var s := c.nodes[v];
    Accepts(s, req) && s.commitIndex < req.leaderCommit && Held(s.log, req.entries, req.prevIndex) == |req.entries| ==>
      && req.leader in c.nodes
      && forall k :: req.prevIndex + |req.entries| <= k < Min(req.leaderCommit, |s.log|) ==>
           SameEntry(s.log, c.nodes[req.leader].log, k)
  }

  predicate StepHarmless(c: State, st: Step) {
    st.Deliver? && st.m.AppendAsk? && Enabled(c, st) ==> Harmless(c, st.m.to, st.m.areq)
  }

  ghost predicate RunHarmless(rules: Rules, decode: Decoder, c: State, run: seq<Step>) {
    forall k {:trigger StepHarmless(At(rules, decode, c, run, k), run[k])} :: 0 <= k < |run| ==>
      StepHarmless(At(rules, decode, c, run, k), run[k])
  }

  /** Followers use the documented commit bound, or the run has only harmless deliveries. */
  ghost predicate Careful(rules: Rules, decode: Decoder, c: State, run: seq<Step>) {
    rules.documentedCommit || RunHarmless(rules, decode, c, run)
  }

  /** The cluster starts afresh with a size at which the rules elect at most one leader a term. */
  predicate Setting(rules: Rules, c: State) {
    Init(c) && Safe(rules, |c.nodes|)
  }

  // ---------------------------------------------------------------- the invariant

  /** No request offers more than its sender has committed by now. */
  ghost predicate Sent(c: State) {
    forall m {:trigger m in c.net} :: m in c.net && m.AppendAsk? ==>
      m.areq.leader in c.nodes && m.areq.leaderCommit <= c.nodes[m.areq.leader].commitIndex
  }

  ghost predicate RInv(decode: Decoder, c: State, h: History) {
    CInv(decode, c, h) && Sent(c)
  }

  lemma StepKeepsSent(decode: Decoder, c: State, h: History, rules: Rules, st: Step)
    requires RInv(decode, c, h)
    ensures Sent(Do(rules, decode, c, st))
  {
    var c' := Do(rules, decode, c, st);
    forall m | m in c'.net && m.AppendAsk?
      ensures m.areq.leader in c'.nodes && m.areq.leaderCommit <= c'.nodes[m.areq.leader].commitIndex
    {
      if m in c.net {
        StepAdvances(decode, c, h, rules, st, m.areq.leader);
      } else {
        NewRequest(decode, c, h, rules, st, m);
      }
    }
  }

  lemma NewRequest(decode: Decoder, c: State, h: History, rules: Rules, st: Step, m: Msg)
    requires CInv(decode, c, h) && m in Do(rules, decode, c, st).net && m !in c.net && m.AppendAsk?
    ensures m.areq.leader in c.nodes && m.areq.leaderCommit == c.nodes[m.areq.leader].commitIndex
    ensures Do(rules, decode, c, st).nodes == c.nodes
  {
    match st
    case Send(v, p, maxEntries) => SenderIs(decode, c, h, v);
    case Beat(v, p) => SenderIs(decode, c, h, v);
    case Timeout(_) =>
    case Submit(_, _, _) =>
    case Deliver(_) =>
    case Apply(_) =>
  }

  lemma SenderIs(decode: Decoder, c: State, h: History, v: NodeId)
    requires CInv(decode, c, h) && v in c.nodes
    ensures c.nodes[v].id == v && c.nodes[v := c.nodes[v]] == c.nodes
  {
    NodeIs(decode, c, h, v);
  }

  /** What a sender offers as committed it still holds, as the leader of the request's term did. */
  lemma SenderHolds(decode: Decoder, c: State, h: History, m: Msg)
    requires RInv(decode, c, h) && m in c.net && m.AppendAsk?
    ensures m.areq.leader in c.nodes && m.areq.term in h.elections
    ensures AgreeTo(CanonAll(c.nodes[m.areq.leader].log), h.elections[m.areq.term].log, m.areq.leaderCommit)
  {
    var req, s := m.areq, c.nodes[m.areq.leader];
    assert MsgOk(c.nodes.Keys, h, m);
    NodeIs(decode, c, h, req.leader);
    if req.leaderCommit > 0 {
      var lead := h.elections[req.term].log;
      LC.KnownAgree(QuorumsFor(c.nodes.Keys), AbsNodes(c), h, s.term, CanonAll(s.log), s.commitIndex, req.term, lead,
          req.leaderCommit);
    }
  }

  /** A harmless delivery is backed by the leader's log as far as the receiver will commit. */
  lemma HarmlessBacks(decode: Decoder, c: State, h: History, rules: Rules, m: Msg)
    requires RInv(decode, c, h) && m in c.net && m.AppendAsk? && m.to in c.nodes && Harmless(c, m.to, m.areq)
    ensures Backed(rules, h, c.nodes[m.to], m.areq)
  {
    var s, req := c.nodes[m.to], m.areq;
    assert MsgOk(c.nodes.Keys, h, m);
    AcceptsIs(rules, s, req);
    if Accepts(s, req) && s.commitIndex < req.leaderCommit {
      LogIsWellIndexed(decode, c, h, m.to);
      AcceptedState(rules, s, req);
      ReceiverMerges(decode, c, h, m.to, req);
      SenderHolds(decode, c, h, m);
      TailFollows(s.log, req, c.nodes[req.leader].log, h.elections[req.term].log);
    }
  }

  lemma TailFollows(l: Log, req: AppendRequest, sender: Log, lead: Log)
    requires req.prevIndex <= |l| && req.prevIndex + |req.entries| <= |lead|
    requires AgreeTo(CanonAll(sender), lead, req.leaderCommit)
    requires AgreeTo(CanonAll(Merge(l, req.entries, req.prevIndex)), lead, req.prevIndex + |req.entries|)
    requires Held(l, req.entries, req.prevIndex) == |req.entries| ==>
               forall k :: req.prevIndex + |req.entries| <= k < Min(req.leaderCommit, |l|) ==> SameEntry(l, sender, k)
    ensures var r := Merge(l, req.entries, req.prevIndex); AgreeTo(CanonAll(r), lead, Min(req.leaderCommit, |r|))
  {
    var r, m := Merge(l, req.entries, req.prevIndex), req.prevIndex + |req.entries|;
    var x := Min(req.leaderCommit, |r|);
    if x <= m {
      AgreeLess(CanonAll(r), lead, m, x);
    } else {
      HeldIs(l, req.entries, req.prevIndex);
      forall k | 0 <= k < x ensures CanonAll(r)[k] == lead[k] {
        if k < m {
          AgreeAt(CanonAll(r), lead, m, k);
        } else {
          assert SameEntry(l, sender, k);
          AgreeAt(CanonAll(sender), lead, req.leaderCommit, k);
        }
      }
    }
  }

  lemma StepIsBacked(decode: Decoder, c: State, h: History, rules: Rules, st: Step)
    requires RInv(decode, c, h) && (rules.documentedCommit || StepHarmless(c, st))
    ensures StepBacked(rules, h, c, st)
  {
    if st.Deliver? && st.m.AppendAsk? && Enabled(c, st) && !rules.documentedCommit {
      HarmlessBacks(decode, c, h, rules, st.m);
    }
  }

  lemma CarefulStep(decode: Decoder, c: State, h: History, rules: Rules, st: Step) returns (h': History)
    requires RInv(decode, c, h) && Safe(rules, |c.nodes.Keys|) && (rules.documentedCommit || StepHarmless(c, st))
    ensures RInv(decode, Do(rules, decode, c, st), h') && Grows(h, h')
  {
    StepIsBacked(decode, c, h, rules, st);
    StepKeepsSent(decode, c, h, rules, st);
    h' := AnyStep(decode, c, h, rules, st);
  }

  lemma InitRInv(decode: Decoder, c: State)
    requires Init(c)
    ensures RInv(decode, c, EMPTY)
  {
    InitCInv(decode, c);
  }

  /** Each step of a careful run meets what `CarefulStep` asks. */
  lemma MomentCareful(rules: Rules, decode: Decoder, c: State, run: seq<Step>, i: nat) returns (c1: State, c2: State)
    requires Setting(rules, c) && Careful(rules, decode, c, run) && i < |run|
    ensures c1 == At(rules, decode, c, run, i) && c2 == At(rules, decode, c, run, i + 1)
    ensures Safe(rules, |c1.nodes.Keys|) && (rules.documentedCommit || StepHarmless(c1, run[i]))
    ensures c2 == Do(rules, decode, c1, run[i])
  {
    c1, c2 := At(rules, decode, c, run, i), At(rules, decode, c, run, i + 1);
    ExecKeepsServers(rules, decode, c, run[..i]);
    assert |c.nodes.Keys| == |c.nodes|;
    AtNext(rules, decode, c, run, i);
  }

  lemma KeepsGrowing(decode: Decoder, c: State, c': State, h: History, h1: History, rules: Rules, st: Step)
      returns (h': History)
    requires RInv(decode, c, h1) && Safe(rules, |c.nodes.Keys|) && (rules.documentedCommit || StepHarmless(c, st))
    requires c' == Do(rules, decode, c, st) && Grows(h, h1)
    ensures RInv(decode, c', h') && Grows(h, h')
  {
    h' := CarefulStep(decode, c, h1, rules, st);
    GrowsTransitive(h, h1, h');
  }

  /** The invariant carries from any moment of a careful run to any later one. */
  lemma {:induction false} RunKeeps(rules: Rules, decode: Decoder, c: State, run: seq<Step>, i: nat, j: nat, h: History)
      returns (h': History)
    requires Setting(rules, c) && Careful(rules, decode, c, run) && i <= j <= |run|
    requires RInv(decode, At(rules, decode, c, run, i), h)
    ensures RInv(decode, At(rules, decode, c, run, j), h') && Grows(h, h')
    decreases j
  {
    if i == j {
      GrowsRefl(h);
      h' := h;
    } else {
      var h1 := RunKeeps(rules, decode, c, run, i, j - 1, h);
      var c1, c2 := MomentCareful(rules, decode, c, run, j - 1);
      h' := KeepsGrowing(decode, c1, c2, h, h1, rules, run[j - 1]);
    }
  }

  /** Histories for two moments, the later extending the earlier. */
  lemma TwoMoments(rules: Rules, decode: Decoder, c: State, run: seq<Step>, i: nat, j: nat)
      returns (h: History, h': History)
    requires Setting(rules, c) && Careful(rules, decode, c, run) && i <= j <= |run|
    ensures RInv(decode, At(rules, decode, c, run, i), h) && RInv(decode, At(rules, decode, c, run, j), h')
            && Grows(h, h')
  {
    InitRInv(decode, c);
    h := RunKeeps(rules, decode, c, run, 0, i, EMPTY);
    h' := RunKeeps(rules, decode, c, run, i, j, h);
  }
}
