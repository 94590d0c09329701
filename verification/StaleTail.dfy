/** A run of the code as written in which two nodes commit different entries at index 1. */
module StaleTail {
  // Node 1 leads term 1 and appends an entry nobody receives. Node 2 wins term 2 with node 3's
  // vote, replicates its own entry to node 3 and commits it. Its next heartbeat to node 1 checks
  // index 0 only and carries no entries, yet its commit index reaches node 1's stale entry.

  import opened RaftTypes
  import opened Logs
  import opened CommitRule
  import opened StateMachine
  import opened NodeSpec
  import opened Cluster
  import opened Runs
  import opened LiteralRuns

  /** The three nodes, and messages known to be in the network. */
  ghost predicate Snap(c: State, a: NodeState, b: NodeState, d: NodeState, known: set<Msg>) {
    c.nodes == map[1 := a, 2 := b, 3 := d] && known <= c.net
  }

  function Stale(): Entry { Entry(1, 1, [], EntryNormal) }

  function Fresh(): Entry { Entry(2, 1, [], EntryNormal) }

  // Node 1.
  function A0(): NodeState { NewNode(1, [2, 3]) }
  function A1(): NodeState { A0().(term := 1, votedFor := Some(1), role := Candidate, votes := {Some(1)},
      voters := {1}) }
  function A2(): NodeState { A1().(role := Leader, leader := Some(FreshLeader([2, 3], 0)), votes := {Some(1), None},
      voters := {1, 2}) }
  function A3(): NodeState { A2().(log := [Stale()]) }
  function A4(): NodeState { A3().(term := 2, votedFor := None, role := Follower, leader := None, commitIndex := 1) }

  // Node 2.
  function B0(): NodeState { NewNode(2, [1, 3]) }
  function B1(): NodeState { B0().(term := 1, votedFor := Some(1)) }
  function B2(): NodeState { B0().(term := 2, votedFor := Some(2), role := Candidate, votes := {Some(2)},
      voters := {2}) }
  function B3(): NodeState { B2().(role := Leader, leader := Some(FreshLeader([1, 3], 0)), votes := {Some(2), None},
      voters := {2, 3}) }
  function B4(): NodeState { B3().(log := [Fresh()]) }
  function B5(): NodeState {
    B4().(commitIndex := 1, leader := Some(LeaderState(map[1 := 1, 3 := 2], map[1 := 0, 3 := 1])))
  }

  // Node 3.
  function D0(): NodeState { NewNode(3, [1, 2]) }
  function D1(): NodeState { D0().(term := 2, votedFor := Some(2)) }
  function D2(): NodeState { D1().(log := [Fresh()]) }

  function Ask1(): VoteRequest { VoteRequest(1, 1, 0, 0) }
  function Ask2(): VoteRequest { VoteRequest(2, 2, 0, 0) }
  function Append2(): AppendRequest { AppendRequest(2, 2, 0, 0, [WireEntry(2, 1, [], WireNormal)], 0) }
  function Beat2(): AppendRequest { AppendRequest(2, 2, 0, 0, [], 1) }

  function Start(): State { State(map[1 := A0(), 2 := B0(), 3 := D0()], {}) }

  lemma StartIsInit()
    ensures Init(Start())
  {
    assert Start().nodes.Keys == {1, 2, 3};
  }

  /** After this run the nodes are as given and the messages have been sent. */
  ghost predicate After(rules: Rules, decode: Decoder, run: seq<Step>, a: NodeState, b: NodeState, d: NodeState,
      known: set<Msg>) {
    Snap(Exec(rules, decode, Start(), run), a, b, d, known)
  }

  lemma Extend(rules: Rules, decode: Decoder, run: seq<Step>, st: Step, a: NodeState, b: NodeState, d: NodeState,
      known: set<Msg>,
               v: NodeId, s: NodeState, out: set<Msg>)
    requires After(rules, decode, run, a, b, d, known) && v in {1, 2, 3}
    requires var c := Exec(rules, decode, Start(), run); Enabled(c, st) && Move(rules, decode, c, st) == (v, s, out)
    ensures After(rules, decode, run + [st],
                  if v == 1 then s else a, if v == 2 then s else b, if v == 3 then s else d, out)
  {
    assert (run + [st])[..|run|] == run;
    Replaced(a, b, d, v, s);
  }

  lemma Replaced(a: NodeState, b: NodeState, d: NodeState, v: NodeId, s: NodeState)
    requires v in {1, 2, 3}
    ensures map[1 := a, 2 := b, 3 := d][v := s] ==
              map[1 := if v == 1 then s else a, 2 := if v == 2 then s else b, 3 := if v == 3 then s else d]
  {
  }

  // ---------------------------------------------------------------- what the nodes compute

  lemma Wins(rules: Rules, was: NodeState, s: NodeState, req: VoteRequest, from: NodeId)
    requires was.role == Candidate && |was.peers| == 2 && was.votes == {Some(was.id)} && was.term == req.term
    requires was.voters == {was.id} && from != was.id
    requires s == SetRole(was.(votes := {Some(was.id), None}, voters := was.voters + {from}), Leader)
    ensures HandleVoteReply(rules, was, req, from, VoteReply(req.term, true)) == s
  {
    assert was.votes + {None} == {Some(was.id), None};
    assert |{Some(was.id), None}| == 2 && |{was.id} + {from}| == 2;
  }

  lemma Appends()
    ensures AppendLocal(A2(), [], EntryNormal) == A3() && AppendLocal(B3(), [], EntryNormal) == B4()
  {
    assert [] + [Stale()] == [Stale()];
    assert [] + [Fresh()] == [Fresh()];
  }

  lemma SentByTwo()
    ensures 3 in B4().peers && NextFor(B4(), 3) == 1 && BuildAppend(B4(), 3, 1) == Append2()
  {
    assert EntriesFrom([Fresh()], 1) == [Fresh()];
    assert ToWireAll([Fresh()]) == [WireEntry(2, 1, [], WireNormal)];
  }

  lemma AcceptedByThree(rules: Rules)
    ensures HandleAppend(rules, D1(), Append2()) == (D2(), AppendReply(2, true, 0, 0))
  {
    var es := Append2().entries;
    assert es[..0] == [] && ApplyEntries([], []) == [];
    assert ApplyEntries([], es) == [Fresh()];
  }

  lemma CommittedByTwo()
    ensures Replicated(B4(), 3, 1) == B5()
  {
    var s := SetMatch(SetNext(B4(), 3, 2), 3, 1);
    Matched();
    MajorityOfThree();
    assert ScanDown(s.log, 2, 0, 1) == 1;
    assert TryAdvance(s) == B5();
  }

  lemma Matched()
    ensures var s := SetMatch(SetNext(B4(), 3, 2), 3, 1);
            s == B5().(commitIndex := 0) && MatchIndices(s) == [1, 0, 1]
  {
    FreshOfTwo();
    TwoMatches();
    assert map[1 := 1, 3 := 1][3 := 2] == map[1 := 1, 3 := 2];
    assert map[1 := 0, 3 := 0][3 := 1] == map[1 := 0, 3 := 1];
  }

  lemma FreshOfTwo()
    ensures FreshLeader([1, 3], 0) == LeaderState(map[1 := 1, 3 := 1], map[1 := 0, 3 := 0])
  {
  }

  lemma TwoMatches()
    ensures PeerMatches(map[1 := 0, 3 := 1], [1, 3]) == [0, 1]
  {
    assert [1, 3][1..] == [3];
    assert PeerMatches(map[1 := 0, 3 := 1], [3]) == [1];
  }

  lemma MajorityOfThree()
    ensures MajorityMatch([1, 0, 1]) == 1
  {
    assert CountAtLeast([1], 1) == 1 && CountAtLeast([1], 2) == 0;
    assert [0, 1][1..] == [1] && [1, 0, 1][1..] == [0, 1];
    assert CountAtLeast([0, 1], 1) == 1 && CountAtLeast([0, 1], 2) == 0;
    MajorityMatchIs([1, 0, 1], 1);
    MajorityMatchIs([1, 0, 1], 2);
  }

  /** The heartbeat's check passes at index 0 and the bound is node 1's own stale entry. */
  lemma CommittedByOne(rules: Rules)
    requires !rules.documentedCommit
    ensures HandleAppend(rules, A3(), Beat2()) == (A4(), AppendReply(2, true, 0, 0))
  {
    assert StepDown(A3(), 2) == A4().(commitIndex := 0);
  }

  // ---------------------------------------------------------------- the run, one step at a time

  function R1(): seq<Step> { [Timeout(1)] }

  lemma Run1(rules: Rules, decode: Decoder)
    ensures After(rules, decode, R1(), A1(), B0(), D0(), {VoteAsk(2, Ask1())})
  {
    assert [] + [Timeout(1)] == R1();
    assert BecomeCandidate(A0()) == A1();
    assert 2 in A1().peers;
    Extend(rules, decode, [], Timeout(1), A0(), B0(), D0(), {}, 1, A1(), set p | p in A1().peers ::
        VoteAsk(p, AskForVote(A1())));
  }

  function R2(): seq<Step> { R1() + [Deliver(VoteAsk(2, Ask1()))] }

  lemma Run2(rules: Rules, decode: Decoder)
    ensures After(rules, decode, R2(), A1(), B1(), D0(), {VoteTell(2, Ask1(), VoteReply(1, true))})
  {
    Run1(rules, decode);
    Extend(rules, decode, R1(), Deliver(VoteAsk(2, Ask1())), A1(), B0(), D0(), {VoteAsk(2, Ask1())}, 2, B1(),
        {VoteTell(2, Ask1(), VoteReply(1, true))});
  }

  function R3(): seq<Step> { R2() + [Deliver(VoteTell(2, Ask1(), VoteReply(1, true)))] }

  lemma Run3(rules: Rules, decode: Decoder)
    ensures After(rules, decode, R3(), A2(), B1(), D0(), {})
  {
    Run2(rules, decode);
    Wins(rules, A1(), A2(), Ask1(), 2);
    Extend(rules, decode, R2(), Deliver(VoteTell(2, Ask1(), VoteReply(1, true))), A1(), B1(), D0(),
        {VoteTell(2, Ask1(), VoteReply(1, true))}, 1, A2(), {});
  }

  function R4(): seq<Step> { R3() + [Submit(1, [], EntryNormal)] }

  lemma Run4(rules: Rules, decode: Decoder)
    ensures After(rules, decode, R4(), A3(), B1(), D0(), {})
  {
    Run3(rules, decode);
    Appends();
    Extend(rules, decode, R3(), Submit(1, [], EntryNormal), A2(), B1(), D0(), {}, 1, A3(), {});
  }

  function R5(): seq<Step> { R4() + [Timeout(2)] }

  lemma Run5(rules: Rules, decode: Decoder)
    ensures After(rules, decode, R5(), A3(), B2(), D0(), {VoteAsk(3, Ask2())})
  {
    Run4(rules, decode);
    assert BecomeCandidate(B1()) == B2();
    assert 3 in B2().peers;
    Extend(rules, decode, R4(), Timeout(2), A3(), B1(), D0(), {}, 2, B2(), set p | p in B2().peers ::
        VoteAsk(p, AskForVote(B2())));
  }

  function R6(): seq<Step> { R5() + [Deliver(VoteAsk(3, Ask2()))] }

  lemma Run6(rules: Rules, decode: Decoder)
    ensures After(rules, decode, R6(), A3(), B2(), D1(), {VoteTell(3, Ask2(), VoteReply(2, true))})
  {
    Run5(rules, decode);
    Extend(rules, decode, R5(), Deliver(VoteAsk(3, Ask2())), A3(), B2(), D0(), {VoteAsk(3, Ask2())}, 3, D1(),
        {VoteTell(3, Ask2(), VoteReply(2, true))});
  }

  function R7(): seq<Step> { R6() + [Deliver(VoteTell(3, Ask2(), VoteReply(2, true)))] }

  lemma Run7(rules: Rules, decode: Decoder)
    ensures After(rules, decode, R7(), A3(), B3(), D1(), {})
  {
    Run6(rules, decode);
    Wins(rules, B2(), B3(), Ask2(), 3);
    Extend(rules, decode, R6(), Deliver(VoteTell(3, Ask2(), VoteReply(2, true))), A3(), B2(), D1(),
        {VoteTell(3, Ask2(), VoteReply(2, true))}, 2, B3(), {});
  }

  function R8(): seq<Step> { R7() + [Submit(2, [], EntryNormal)] }

  lemma Run8(rules: Rules, decode: Decoder)
    ensures After(rules, decode, R8(), A3(), B4(), D1(), {})
  {
    Run7(rules, decode);
    Appends();
    Extend(rules, decode, R7(), Submit(2, [], EntryNormal), A3(), B3(), D1(), {}, 2, B4(), {});
  }

  function R9(): seq<Step> { R8() + [Send(2, 3, 1)] }

  lemma Run9(rules: Rules, decode: Decoder)
    ensures After(rules, decode, R9(), A3(), B4(), D1(), {AppendAsk(3, Append2(), false)})
  {
    Run8(rules, decode);
    SentByTwo();
    Extend(rules, decode, R8(), Send(2, 3, 1), A3(), B4(), D1(), {}, 2, B4(), {AppendAsk(3, Append2(), false)});
  }

  function R10(): seq<Step> { R9() + [Deliver(AppendAsk(3, Append2(), false))] }

  lemma Run10(rules: Rules, decode: Decoder)
    ensures After(rules, decode, R10(), A3(), B4(), D2(), {AppendTell(3, Append2(), false, AppendReply(2, true, 0, 0))})
  {
    Run9(rules, decode);
    AcceptedByThree(rules);
    Extend(rules, decode, R9(), Deliver(AppendAsk(3, Append2(), false)),
           A3(), B4(), D1(), {AppendAsk(3, Append2(), false)}, 3, D2(), {AppendTell(3, Append2(), false,
               AppendReply(2, true, 0, 0))});
  }

  function R11(): seq<Step> { R10() + [Deliver(AppendTell(3, Append2(), false, AppendReply(2, true, 0, 0)))] }

  lemma Run11(rules: Rules, decode: Decoder)
    ensures After(rules, decode, R11(), A3(), B5(), D2(), {})
  {
    Run10(rules, decode);
    ReplyToTwo();
    CommittedByTwo();
    DeliverToTwo(rules, decode, R10());
  }

  lemma ReplyToTwo()
    ensures HandleAppendReply(B4(), 3, Append2(), AppendReply(2, true, 0, 0)) == Replicated(B4(), 3, 1)
  {
  }

  lemma DeliverToTwo(rules: Rules, decode: Decoder, run: seq<Step>)
    requires After(rules, decode, run, A3(), B4(), D2(), {AppendTell(3, Append2(), false, AppendReply(2, true, 0, 0))})
    ensures After(rules, decode, run + [Deliver(AppendTell(3, Append2(), false, AppendReply(2, true, 0, 0)))],
                  A3(), HandleAppendReply(B4(), 3, Append2(), AppendReply(2, true, 0, 0)), D2(), {})
  {
    Extend(rules, decode, run, Deliver(AppendTell(3, Append2(), false, AppendReply(2, true, 0, 0))), A3(), B4(), D2(),
           {AppendTell(3, Append2(), false, AppendReply(2, true, 0, 0))}, 2,
           HandleAppendReply(B4(), 3, Append2(), AppendReply(2, true, 0, 0)), {});
  }

  function R12(): seq<Step> { R11() + [Beat(2, 1)] }

  lemma Run12(rules: Rules, decode: Decoder)
    ensures After(rules, decode, R12(), A3(), B5(), D2(), {AppendAsk(1, Beat2(), true)})
  {
    Run11(rules, decode);
    assert 1 in B5().peers;
    Extend(rules, decode, R11(), Beat(2, 1), A3(), B5(), D2(), {}, 2, B5(), {AppendAsk(1, Beat2(), true)});
  }

  function R13(): seq<Step> { R12() + [Deliver(AppendAsk(1, Beat2(), true))] }

  lemma Run13(rules: Rules, decode: Decoder)
    requires !rules.documentedCommit
    ensures After(rules, decode, R13(), A4(), B5(), D2(), {})
  {
    Run12(rules, decode);
    CommittedByOne(rules);
    Extend(rules, decode, R12(), Deliver(AppendAsk(1, Beat2(), true)),
           A3(), B5(), D2(), {AppendAsk(1, Beat2(), true)}, 1, A4(), {AppendTell(1, Beat2(), true,
               AppendReply(2, true, 0, 0))});
  }

  /**
   * State machine safety fails for the code as written in a cluster of three: nodes 1 and 2
   * both hold index 1 as committed, with entries of different terms. The delivery that does it
   * is the last one, and it is not harmless.
   */
  lemma SafetyFailsAsWritten(rules: Rules, decode: Decoder)
    requires !rules.documentedCommit
    ensures Init(Start()) && |Start().nodes| == 3
    ensures var s := Exec(rules, decode, Start(), R13());
            && 1 in s.nodes && 2 in s.nodes && s.nodes[1].commitIndex == 1 && s.nodes[2].commitIndex == 1
            && |s.nodes[1].log| == 1 && |s.nodes[2].log| == 1
            && s.nodes[1].log[0].term == 1 && s.nodes[2].log[0].term == 2
    ensures !StepHarmless(Exec(rules, decode, Start(), R12()), R13()[12])
  {
    StartIsInit();
    assert Start().nodes.Keys == {1, 2, 3};
    Run13(rules, decode);
    Run12(rules, decode);
    LastDeliveryHarms(Exec(rules, decode, Start(), R12()));
  }

  lemma LastDeliveryHarms(c: State)
    requires Snap(c, A3(), B5(), D2(), {AppendAsk(1, Beat2(), true)})
    ensures !StepHarmless(c, Deliver(AppendAsk(1, Beat2(), true)))
  {
    assert !SameEntry(A3().log, B5().log, 0);
  }

  // ---------------------------------------------------------------- sending after stepping down

  // The leader check of replicateToPeer and the building of the request take the lock separately,
  // so that a node may pass the check as leader and build the request after stepping down.

  /** Building and sending a request without asking again whether the node leads. */
  function LateSend(c: State, v: NodeId, p: NodeId, maxEntries: nat): State
    requires v in c.nodes
  {
    Moved(c, v, c.nodes[v], {AppendAsk(p, BuildAppend(c.nodes[v], p, maxEntries), false)})
  }

  function A5(): NodeState { A3().(term := 2, votedFor := None, role := Follower, leader := None) }
  function D3(): NodeState { D2().(commitIndex := 1) }
  function D4(): NodeState { D3().(log := [Stale()]) }
  function Beat3(): AppendRequest { AppendRequest(2, 2, 1, 2, [], 1) }
  function Late(): AppendRequest { AppendRequest(2, 1, 0, 0, [WireEntry(1, 1, [], WireNormal)], 0) }

  function S12(): seq<Step> { R11() + [Beat(2, 3)] }
  function S13(): seq<Step> { S12() + [Deliver(AppendAsk(3, Beat3(), true))] }

  /** After the run of eleven steps, node 2's heartbeat tells node 3 that the entry is committed. */
  lemma ThreeCommits(rules: Rules, decode: Decoder)
    ensures After(rules, decode, S13(), A3(), B5(), D3(), {})
  {
    Run11(rules, decode);
    assert 3 in B5().peers && NextFor(B5(), 3) == 2;
    Extend(rules, decode, R11(), Beat(2, 3), A3(), B5(), D2(), {}, 2, B5(), {AppendAsk(3, Beat3(), true)});
    LearnedByThree(rules);
    Extend(rules, decode, S12(), Deliver(AppendAsk(3, Beat3(), true)), A3(), B5(), D2(), {AppendAsk(3, Beat3(), true)},
           3, D3(), {AppendTell(3, Beat3(), true, AppendReply(2, true, 0, 0))});
  }

  lemma LearnedByThree(rules: Rules)
    ensures HandleAppend(rules, D2(), Beat3()) == (D3(), AppendReply(2, true, 0, 0))
  {
    assert ApplyEntries(D2().log, []) == D2().log;
  }

  lemma OneStepsDown()
    ensures HandleVoteRequest(A3(), Ask2()) == (A5(), VoteReply(2, false))
  {
  }

  lemma BuiltLate()
    ensures NextFor(A5(), 3) == 1 && BuildAppend(A5(), 3, 1) == Late()
  {
    assert EntriesFrom([Stale()], 1) == [Stale()];
    assert ToWireAll([Stale()]) == [WireEntry(1, 1, [], WireNormal)];
  }

  lemma OverwrittenByThree(rules: Rules)
    ensures HandleAppend(rules, D3(), Late()) == (D4(), AppendReply(2, true, 0, 0))
  {
    var es := Late().entries;
    assert es[..0] == [] && ApplyEntries([Fresh()], []) == [Fresh()];
    assert TruncateAfter([Fresh()], 0) == [];
    assert FromWire(es[0]) == Stale() && [] + [Stale()] == [Stale()];
    assert ApplyEntries([Fresh()], es) == [Stale()];
  }

  /**
   * Without the guard state machine safety fails under every rule: node 1 passes the check while
   * it leads term 1, steps down to term 2, and sends its stale entry under that term; node 3
   * gives up for it the entry that it and node 2, the leader, hold as committed.
   */
  lemma LateSendIsUnsafe(rules: Rules, decode: Decoder)
    ensures var c1 := Exec(rules, decode, Start(), S13());
            MaySend(c1, 1, 3) && Enabled(c1, Deliver(VoteAsk(1, Ask2()))) &&
            var c2 := Do(rules, decode, c1, Deliver(VoteAsk(1, Ask2())));
            1 in c2.nodes && c2.nodes[1].role == Follower &&
            var c3 := LateSend(c2, 1, 3, 1);
            var c4 := Do(rules, decode, c3, Deliver(AppendAsk(3, Late(), false)));
            && 2 in c4.nodes && 3 in c4.nodes && c4.nodes[2].role == Leader
            && c4.nodes[2].commitIndex == 1 && c4.nodes[3].commitIndex == 1
            && !SameCommitted(c4.nodes[2], c4.nodes[3])
  {
    var c1 := Exec(rules, decode, Start(), S13());
    ThreeCommits(rules, decode);
    AskedByTwo(rules, decode);
    StepsDown(rules, decode, c1);
    var c2 := Do(rules, decode, c1, Deliver(VoteAsk(1, Ask2())));
    SendsLate(c2);
    Overwrites(rules, decode, LateSend(c2, 1, 3, 1));
    assert !SameEntry(B5().log, D4().log, 0);
  }

  lemma StepsDown(rules: Rules, decode: Decoder, c: State)
    requires Snap(c, A3(), B5(), D3(), {VoteAsk(1, Ask2())})
    ensures MaySend(c, 1, 3) && Enabled(c, Deliver(VoteAsk(1, Ask2())))
    ensures Snap(Do(rules, decode, c, Deliver(VoteAsk(1, Ask2()))), A5(), B5(), D3(), {})
  {
    assert 3 in A3().peers && NextFor(A3(), 3) == 1;
    OneStepsDown();
    Replaced(A3(), B5(), D3(), 1, A5());
  }

  lemma SendsLate(c: State)
    requires Snap(c, A5(), B5(), D3(), {})
    ensures NextFor(c.nodes[1], 3) == 1 && Snap(LateSend(c, 1, 3, 1), A5(), B5(), D3(), {AppendAsk(3, Late(), false)})
  {
    BuiltLate();
    Replaced(A5(), B5(), D3(), 1, A5());
  }

  lemma Overwrites(rules: Rules, decode: Decoder, c: State)
    requires Snap(c, A5(), B5(), D3(), {AppendAsk(3, Late(), false)})
    ensures Snap(Do(rules, decode, c, Deliver(AppendAsk(3, Late(), false))), A5(), B5(), D4(), {})
  {
    OverwrittenByThree(rules);
    Replaced(A5(), B5(), D3(), 3, D4());
  }

  /** Node 2's request for node 1's vote is still under way. */
  lemma AskedByTwo(rules: Rules, decode: Decoder)
    ensures VoteAsk(1, Ask2()) in Exec(rules, decode, Start(), S13()).net
  {
    Run4(rules, decode);
    assert BecomeCandidate(B1()) == B2();
    assert 1 in B2().peers;
    Extend(rules, decode, R4(), Timeout(2), A3(), B1(), D0(), {}, 2, B2(), set p | p in B2().peers ::
        VoteAsk(p, AskForVote(B2())));
    assert VoteAsk(1, Ask2()) in Exec(rules, decode, Start(), R5()).net;
    var rest := [
      Deliver(VoteAsk(3, Ask2())), Deliver(VoteTell(3, Ask2(), VoteReply(2, true))), Submit(2, [], EntryNormal),
      Send(2, 3, 1), Deliver(AppendAsk(3, Append2(), false)),
      Deliver(AppendTell(3, Append2(), false, AppendReply(2, true, 0, 0))),
      Beat(2, 3), Deliver(AppendAsk(3, Beat3(), true))];
    assert S13() == R5() + rest;
    assert S13()[..|R5()|] == R5();
    ExecKeepsNet(rules, decode, Start(), S13(), |R5()|);
  }
}
