/** Which runs the follower's commit bound of append_entries.go:247 keeps safe. */
module LiteralRuns {
  import opened RaftTypes
  import opened Logs
  import opened StateMachine
  import opened NodeSpec
  import opened Cluster
  import opened Protocol
  import opened Refinement
  import opened RefinementAppend
  import opened Progress
  import opened Runs
  import opened Safety

  // ---------------------------------------------------------------- state machine safety, exactly

  /** Where both nodes reach, they hold the same entries as committed. */
  ghost predicate SameCommitted(a: NodeState, b: NodeState) {
    forall k :: 0 <= k < a.commitIndex && k < b.commitIndex ==> SameEntry(a.log, b.log, k)
  }

  /** State machine safety of a run: any two nodes at any two moments. */
  ghost predicate SafeRun(rules: Rules, decode: Decoder, c: State, run: seq<Step>) {
    forall i, u, j, v {:trigger At(rules, decode, c, run, i).nodes[u], At(rules, decode, c, run, j).nodes[v]} ::
      0 <= i <= |run| && 0 <= j <= |run| && u in At(rules, decode, c, run, i).nodes
          && v in At(rules, decode, c, run, j).nodes ==>
      SameCommitted(At(rules, decode, c, run, i).nodes[u], At(rules, decode, c, run, j).nodes[v])
  }

  /** The code's bound keeps a run safe if and only if every delivery in it is harmless. */
  lemma SafeIffHarmless(rules: Rules, decode: Decoder, c: State, run: seq<Step>)
    requires Setting(rules, c) && !rules.documentedCommit
    ensures SafeRun(rules, decode, c, run) <==> RunHarmless(rules, decode, c, run)
  {
    if RunHarmless(rules, decode, c, run) {
      CarefulIsSafe(rules, decode, c, run);
    }
    if SafeRun(rules, decode, c, run) {
      SafeIsHarmless(rules, decode, c, run, |run|);
      assert run[..|run|] == run;
    }
  }

  lemma CarefulIsSafe(rules: Rules, decode: Decoder, c: State, run: seq<Step>)
    requires Setting(rules, c) && Careful(rules, decode, c, run)
    ensures SafeRun(rules, decode, c, run)
  {
    forall i, u, j, v | 0 <= i <= |run| && 0 <= j <= |run|
        && u in At(rules, decode, c, run, i).nodes && v in At(rules, decode, c, run, j).nodes
      ensures SameCommitted(At(rules, decode, c, run, i).nodes[u], At(rules, decode, c, run, j).nodes[v])
    {
      forall k | 0 <= k < At(rules, decode, c, run, i).nodes[u].commitIndex
          && k < At(rules, decode, c, run, j).nodes[v].commitIndex
        ensures SameEntry(At(rules, decode, c, run, i).nodes[u].log, At(rules, decode, c, run, j).nodes[v].log, k)
      {
        StateMachineSafety(rules, decode, c, run, i, u, j, v, k);
      }
    }
  }

  /** Up to the first harmful delivery the invariant holds, and that delivery sets two nodes at odds. */
  lemma {:induction false} SafeIsHarmless(rules: Rules, decode: Decoder, c: State, run: seq<Step>, n: nat)
    requires Setting(rules, c) && !rules.documentedCommit && SafeRun(rules, decode, c, run) && n <= |run|
    ensures RunHarmless(rules, decode, c, run[..n])
  {
    if n > 0 {
      SafeIsHarmless(rules, decode, c, run, n - 1);
      NextIsHarmless(rules, decode, c, run, n - 1);
      HarmlessExtends(rules, decode, c, run, n);
    }
  }

  lemma NextIsHarmless(rules: Rules, decode: Decoder, c: State, run: seq<Step>, n: nat)
    requires Setting(rules, c) && !rules.documentedCommit && SafeRun(rules, decode, c, run) && n < |run|
    requires RunHarmless(rules, decode, c, run[..n])
    ensures StepHarmless(At(rules, decode, c, run, n), run[n])
  {
    var h, _ := TwoMoments(rules, decode, c, run[..n], n, n);
    AtPrefix(rules, decode, c, run, n, n);
    AtNext(rules, decode, c, run, n);
    AllAgreeAt(rules, decode, c, run, n + 1);
    SafeStepIsHarmless(rules, decode, At(rules, decode, c, run, n), h, run[n]);
  }

  ghost predicate AllAgree(c: State) {
    forall u, v {:trigger c.nodes[u], c.nodes[v]} :: u in c.nodes && v in c.nodes ==>
        SameCommitted(c.nodes[u], c.nodes[v])
  }

  lemma AllAgreeAt(rules: Rules, decode: Decoder, c: State, run: seq<Step>, n: nat)
    requires SafeRun(rules, decode, c, run) && n <= |run|
    ensures AllAgree(At(rules, decode, c, run, n))
  {
  }

  lemma HarmlessExtends(rules: Rules, decode: Decoder, c: State, run: seq<Step>, n: nat)
    requires 0 < n <= |run| && RunHarmless(rules, decode, c, run[..n - 1])
    requires StepHarmless(At(rules, decode, c, run, n - 1), run[n - 1])
    ensures RunHarmless(rules, decode, c, run[..n])
  {
    forall k | 0 <= k < n ensures StepHarmless(At(rules, decode, c, run[..n], k), run[..n][k]) {
      AtPrefix(rules, decode, c, run, n, k);
      if k < n - 1 {
        AtPrefix(rules, decode, c, run, n - 1, k);
        assert StepHarmless(At(rules, decode, c, run[..n - 1], k), run[..n - 1][k]);
      }
    }
  }

  lemma SafeStepIsHarmless(rules: Rules, decode: Decoder, c: State, h: History, st: Step)
    requires RInv(decode, c, h) && !rules.documentedCommit && AllAgree(Do(rules, decode, c, st))
    ensures StepHarmless(c, st)
  {
    if st.Deliver? && st.m.AppendAsk? && Enabled(c, st) {
      var v, req := st.m.to, st.m.areq;
      assert MsgOk(c.nodes.Keys, h, st.m);
      var c' := Do(rules, decode, c, st);
      assert c'.nodes[req.leader] == c.nodes[req.leader];
      assert c'.nodes[v] == HandleAppend(rules, c.nodes[v], req).0;
      assert SameCommitted(c'.nodes[v], c'.nodes[req.leader]);
      LogIsWellIndexed(decode, c, h, v);
      AgreementIsHarmless(rules, c.nodes[v], c.nodes[req.leader], req);
    }
  }

  /** If receiver and sender agree on what is committed afterwards, the delivery was harmless. */
  lemma AgreementIsHarmless(rules: Rules, s: NodeState, sender: NodeState, req: AppendRequest)
    requires !rules.documentedCommit && WellIndexed(s.log) && Consecutive(req.entries, req.prevIndex)
    requires req.leaderCommit <= sender.commitIndex && SameCommitted(HandleAppend(rules, s, req).0, sender)
    ensures Accepts(s, req) && s.commitIndex < req.leaderCommit
            && Held(s.log, req.entries, req.prevIndex) == |req.entries| ==>
              forall k :: req.prevIndex + |req.entries| <= k < Min(req.leaderCommit, |s.log|) ==>
                SameEntry(s.log, sender.log, k)
  {
    AcceptsIs(rules, s, req);
    if Accepts(s, req) && s.commitIndex < req.leaderCommit && Held(s.log, req.entries, req.prevIndex) == |req.entries| {
      AcceptedState(rules, s, req);
      CanonLast(s.log);
      assert HandleAppend(rules, s, req).0.log == s.log;
    }
  }

  // ---------------------------------------------------------------- a condition the receiver can check

  /**
   * Decidable by the receiver before the call: no commit is offered, or the request covers it,
   * or the log does not continue past both the request and what was committed already, or the
   * merge is going to cut it at the end of the request.
   */
  predicate CoversTail(s: NodeState, req: AppendRequest) {
    var m := req.prevIndex + |req.entries|;
    || req.leaderCommit <= s.commitIndex || req.leaderCommit <= m
    || |s.log| <= Max(m, s.commitIndex) || Held(s.log, req.entries, req.prevIndex) < |req.entries|
  }

  /** The code's bound and the documented one agree on an accepted request exactly when it covers the tail. */
  lemma LiteralCommitCoincides(byVoter: bool, s: NodeState, req: AppendRequest)
    requires WellIndexed(s.log) && Consecutive(req.entries, req.prevIndex) && Accepts(s, req)
    requires s.commitIndex <= |Merge(s.log, req.entries, req.prevIndex)|
    ensures HandleAppend(Rules(byVoter, false), s, req) == HandleAppend(Rules(byVoter, true), s, req) <==>
            CoversTail(s, req)
  {
    AcceptsIs(Rules(byVoter, false), s, req);
    AcceptsIs(Rules(byVoter, true), s, req);
    AcceptedState(Rules(byVoter, false), s, req);
    AcceptedState(Rules(byVoter, true), s, req);
    BoundsCoincide(byVoter, s, req);
  }

  lemma BoundsCoincide(byVoter: bool, s: NodeState, req: AppendRequest)
    requires WellIndexed(s.log) && Consecutive(req.entries, req.prevIndex) && req.prevIndex <= |s.log|
    requires s.commitIndex <= |Merge(s.log, req.entries, req.prevIndex)|
    ensures var l := Merge(s.log, req.entries, req.prevIndex);
            FollowerCommit(Rules(byVoter, false), s.commitIndex, l, req) ==
                FollowerCommit(Rules(byVoter, true), s.commitIndex, l, req)
            <==> CoversTail(s, req)
  {
    MergeWellIndexed(s.log, req.entries, req.prevIndex);
    CanonLast(Merge(s.log, req.entries, req.prevIndex));
    HeldIs(s.log, req.entries, req.prevIndex);
  }

  predicate StepCovers(c: State, st: Step) {
    st.Deliver? && st.m.AppendAsk? && Enabled(c, st) ==> CoversTail(c.nodes[st.m.to], st.m.areq)
  }

  /** Every delivery of an append in the run covers its receiver's tail. */
  ghost predicate RunCovers(rules: Rules, decode: Decoder, c: State, run: seq<Step>) {
    forall k {:trigger StepCovers(At(rules, decode, c, run, k), run[k])} :: 0 <= k < |run| ==>
      StepCovers(At(rules, decode, c, run, k), run[k])
  }

  /** A request that covers its receiver's tail is harmless. */
  lemma CoveredIsHarmless(decode: Decoder, c: State, h: History, m: Msg)
    requires RInv(decode, c, h) && m in c.net && m.AppendAsk? && m.to in c.nodes && CoversTail(c.nodes[m.to], m.areq)
    ensures Harmless(c, m.to, m.areq)
  {
    var s, req := c.nodes[m.to], m.areq;
    assert MsgOk(c.nodes.Keys, h, m);
    GrowsRefl(h);
    SeenLater(decode, c, h, h, m.to);
    SeenLater(decode, c, h, h, req.leader);
    var t := c.nodes[req.leader];
    forall k | 0 <= k < Min(s.commitIndex, req.leaderCommit) ensures SameEntry(s.log, t.log, k) {
      CommittedAgree(decode, c, h, s, t, k);
    }
  }

  /** So is a run whose deliveries all do, and it is then safe. */
  lemma {:induction false} CoveredRunIsHarmless(rules: Rules, decode: Decoder, c: State, run: seq<Step>, n: nat)
    requires Setting(rules, c) && n <= |run| && RunCovers(rules, decode, c, run)
    ensures RunHarmless(rules, decode, c, run[..n])
  {
    if n > 0 {
      CoveredRunIsHarmless(rules, decode, c, run, n - 1);
      NextCoveredIsHarmless(rules, decode, c, run, n - 1);
      HarmlessExtends(rules, decode, c, run, n);
    }
  }

  lemma NextCoveredIsHarmless(rules: Rules, decode: Decoder, c: State, run: seq<Step>, n: nat)
    requires Setting(rules, c) && n < |run| && RunCovers(rules, decode, c, run)
    requires RunHarmless(rules, decode, c, run[..n])
    ensures StepHarmless(At(rules, decode, c, run, n), run[n])
  {
    var h, _ := TwoMoments(rules, decode, c, run[..n], n, n);
    AtPrefix(rules, decode, c, run, n, n);
    CoveredStepIsHarmless(decode, At(rules, decode, c, run, n), h, run[n]);
  }

  lemma CoveredStepIsHarmless(decode: Decoder, c: State, h: History, st: Step)
    requires RInv(decode, c, h) && StepCovers(c, st)
    ensures StepHarmless(c, st)
  {
    if st.Deliver? && st.m.AppendAsk? && Enabled(c, st) {
      CoveredIsHarmless(decode, c, h, st.m);
    }
  }

  /** State machine safety of the code for runs whose deliveries all cover their receivers' tails. */
  lemma CoveredStateMachineSafety(rules: Rules, decode: Decoder, c: State, run: seq<Step>)
    requires Setting(rules, c) && RunCovers(rules, decode, c, run)
    ensures SafeRun(rules, decode, c, run)
  {
    CoveredRunIsHarmless(rules, decode, c, run, |run|);
    assert run[..|run|] == run;
    CarefulIsSafe(rules, decode, c, run);
  }

  // ---------------------------------------------------------------- where the bound makes no difference

  lemma AppendCoincides(byVoter: bool, decode: Decoder, c: State, h: History, v: NodeId, req: AppendRequest)
    requires CInv(decode, c, h) && v in c.nodes && AppendOk(c.nodes.Keys, h, v, req) && CoversTail(c.nodes[v], req)
    ensures HandleAppend(Rules(byVoter, false), c.nodes[v], req) == HandleAppend(Rules(byVoter, true), c.nodes[v], req)
  {
    var s := c.nodes[v];
    AcceptsIs(Rules(byVoter, false), s, req);
    if Accepts(s, req) {
      LogIsWellIndexed(decode, c, h, v);
      AcceptedState(Rules(byVoter, false), s, req);
      AcceptedKeepsCommitted(decode, c, h, v, req);
      LiteralCommitCoincides(byVoter, s, req);
    } else {
      RejectionsCoincide(byVoter, s, req);
    }
  }

  lemma RejectionsCoincide(byVoter: bool, s: NodeState, req: AppendRequest)
    requires !Accepts(s, req)
    ensures HandleAppend(Rules(byVoter, false), s, req) == HandleAppend(Rules(byVoter, true), s, req)
  {
  }

  lemma StepCoincides(byVoter: bool, decode: Decoder, c: State, h: History, st: Step)
    requires CInv(decode, c, h) && StepCovers(c, st)
    ensures Do(Rules(byVoter, false), decode, c, st) == Do(Rules(byVoter, true), decode, c, st)
  {
    if Enabled(c, st) && st.Deliver? && st.m.AppendAsk? {
      assert MsgOk(c.nodes.Keys, h, st.m);
      AppendCoincides(byVoter, decode, c, h, st.m.to, st.m.areq);
    } else {
      OtherStepsCoincide(byVoter, decode, c, st);
    }
  }

  lemma OtherStepsCoincide(byVoter: bool, decode: Decoder, c: State, st: Step)
    requires Enabled(c, st) ==> !(st.Deliver? && st.m.AppendAsk?)
    ensures Do(Rules(byVoter, false), decode, c, st) == Do(Rules(byVoter, true), decode, c, st)
  {
  }

  /** A run of the code whose deliveries all cover their receivers' tails is a run with the documented bound. */
  lemma {:induction false} CoveredRunsCoincide(byVoter: bool, decode: Decoder, c: State, run: seq<Step>, n: nat)
    requires Setting(Rules(byVoter, false), c) && RunCovers(Rules(byVoter, false), decode, c, run) && n <= |run|
    ensures At(Rules(byVoter, false), decode, c, run, n) == At(Rules(byVoter, true), decode, c, run, n)
  {
    if n > 0 {
      CoveredRunsCoincide(byVoter, decode, c, run, n - 1);
      var h, _ := TwoMoments(Rules(byVoter, true), decode, c, run, n - 1, n - 1);
      StepCoincides(byVoter, decode, At(Rules(byVoter, true), decode, c, run, n - 1), h, run[n - 1]);
      AtNext(Rules(byVoter, false), decode, c, run, n - 1);
      AtNext(Rules(byVoter, true), decode, c, run, n - 1);
    }
  }
}
