/** Committed prefix stability: what a node has committed or applied it never changes. */
module Stability {
  import opened RaftTypes
  import opened StateMachine
  import opened NodeSpec
  import opened Cluster
  import opened RefinementAppend
  import opened Progress
  import opened Runs
  import opened Erasure
  import opened Safety

  lemma {:induction false} RunAdvances(rules: Rules, decode: Decoder, c: State, run: seq<Step>, i: nat, j: nat,
      v: NodeId)
    requires Setting(rules, c) && Careful(rules, decode, c, run) && i <= j <= |run|
    requires v in At(rules, decode, c, run, i).nodes
    ensures v in At(rules, decode, c, run, j).nodes
    ensures Advances(At(rules, decode, c, run, i).nodes[v], At(rules, decode, c, run, j).nodes[v])
    decreases j
  {
    if i == j {
      CommitsWithinLog(rules, decode, c, run, i, v);
    } else {
      RunAdvances(rules, decode, c, run, i, j - 1, v);
      NextAdvances(rules, decode, c, run, j - 1, v);
      AdvancesChain(At(rules, decode, c, run, i).nodes[v], At(rules, decode, c, run, j - 1).nodes[v],
                    At(rules, decode, c, run, j).nodes[v]);
    }
  }

  lemma CommitsWithinLog(rules: Rules, decode: Decoder, c: State, run: seq<Step>, i: nat, v: NodeId)
    requires Setting(rules, c) && Careful(rules, decode, c, run) && i <= |run|
    requires v in At(rules, decode, c, run, i).nodes
    ensures var s := At(rules, decode, c, run, i).nodes[v]; s.commitIndex <= |s.log|
  {
    var h, _ := TwoMoments(rules, decode, c, run, i, i);
    LogIsWellIndexed(decode, At(rules, decode, c, run, i), h, v);
  }

  lemma NextAdvances(rules: Rules, decode: Decoder, c: State, run: seq<Step>, i: nat, v: NodeId)
    requires Setting(rules, c) && Careful(rules, decode, c, run) && i < |run|
    requires v in At(rules, decode, c, run, i).nodes
    ensures v in At(rules, decode, c, run, i + 1).nodes
    ensures Advances(At(rules, decode, c, run, i).nodes[v], At(rules, decode, c, run, i + 1).nodes[v])
  {
    var h, _ := TwoMoments(rules, decode, c, run, i, i);
    StepAdvances(decode, At(rules, decode, c, run, i), h, rules, run[i], v);
    AtNext(rules, decode, c, run, i);
  }

  /**
   * Over a whole careful run: commitIndex, lastApplied and the term never decrease, a vote in a
   * term is never changed, and no entry at or below a node's commitIndex is truncated or replaced.
   */
  lemma CommittedPrefixStable(rules: Rules, decode: Decoder, c: State, run: seq<Step>, i: nat, j: nat, v: NodeId)
    requires Setting(rules, c) && Careful(rules, decode, c, run) && i <= j <= |run|
    requires v in At(rules, decode, c, run, i).nodes
    ensures v in At(rules, decode, c, run, j).nodes
    ensures var a, b := At(rules, decode, c, run, i).nodes[v], At(rules, decode, c, run, j).nodes[v];
            && a.term <= b.term && (a.term == b.term && a.votedFor.Some? ==> b.votedFor == a.votedFor)
            && a.commitIndex <= b.commitIndex && a.lastApplied <= b.lastApplied
            && a.commitIndex <= |a.log| && a.commitIndex <= |b.log| && a.log[..a.commitIndex] == b.log[..a.commitIndex]
  {
    RunAdvances(rules, decode, c, run, i, j, v);
  }

  /** In every run, whatever the rules, a node's term never decreases and its vote in a term never changes. */
  lemma VotesStable(rules: Rules, decode: Decoder, c: State, run: seq<Step>, i: nat, j: nat, v: NodeId)
    requires Setting(rules, c) && i <= j <= |run| && v in At(rules, decode, c, run, i).nodes
    ensures v in At(rules, decode, c, run, j).nodes
    ensures var a, b := At(rules, decode, c, run, i).nodes[v], At(rules, decode, c, run, j).nodes[v];
            a.term <= b.term && (a.term == b.term && a.votedFor.Some? ==> b.votedFor == a.votedFor)
  {
    var rules' := Documented(rules);
    var run' := RunAlike(rules, rules', decode, c, run);
    var a, b := At(rules', decode, c, run', i), At(rules', decode, c, run', j);
    assert Erase(At(rules, decode, c, run, i).nodes[v]) == Erase(a.nodes[v]);
    RunAdvances(rules', decode, c, run', i, j, v);
    assert Erase(At(rules, decode, c, run, j).nodes[v]) == Erase(b.nodes[v]);
  }
}
