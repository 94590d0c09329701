/** Single-server membership changes: pkg/cluster/types.go. */
module Configuration {
  import opened RaftTypes
  import Sets

  datatype MemberType = Voter | Learner

  /** A member without the time it was added. */
  datatype Member = Member(address: string, kind: MemberType)

  datatype Config = Config(members: map<NodeId, Member>, index: nat, term: nat)

  datatype ChangeType = AddLearnerNode | PromoteNode | RemoveNode | DemoteNode | UnknownChange

  datatype Change = Change(kind: ChangeType, node: NodeId, address: string, index: nat, term: nat)

  function Voters(c: Config): set<NodeId> {
    set id | id in c.members && c.members[id].kind == Voter
  }

  function Learners(c: Config): set<NodeId> {
    set id | id in c.members && c.members[id].kind == Learner
  }

  function Quorum(c: Config): nat {
    |Voters(c)| / 2 + 1
  }

  /** The counting loop of VoterCount. */
  method VoterCount(c: Config) returns (count: nat)
    ensures count == |Voters(c)|
  {
    count := 0;
    var rest := c.members.Keys;
    ghost var seen: set<NodeId> := {};
    while rest != {}
      invariant rest <= c.members.Keys && count == |seen|
      invariant seen == set id | id in c.members && id !in rest && c.members[id].kind == Voter
      decreases rest
    {
      var id :| id in rest;
      rest := rest - {id};
      if c.members[id].kind == Voter {
        count := count + 1;
        assert id !in seen;
        seen := seen + {id};
      }
    }
    assert seen == Voters(c);
  }

  // ---------------------------------------------------------------- one change

  /** validateChange. */
  predicate Validate(c: Config, ch: Change) {
    match ch.kind
    case AddLearnerNode => ch.node !in c.members && ch.address != ""
    case PromoteNode => ch.node in c.members && ch.node !in Voters(c)
    case RemoveNode => ch.node in c.members && !(ch.node in Voters(c) && |Voters(c)| <= 1)
    case DemoteNode => ch.node in Voters(c) && |Voters(c)| > 1
    case UnknownChange => false
  }

  /** applyChangeToConfig: fewer checks than validation makes. */
  function ApplyChange(c: Config, ch: Change): Option<Config> {
    match ch.kind
    case AddLearnerNode =>
      if ch.node in c.members then None else Some(c.(members := c.members[ch.node := Member(ch.address, Learner)]))
    case PromoteNode =>
      if ch.node in c.members && c.members[ch.node].kind == Learner
      then Some(c.(members := c.members[ch.node := c.members[ch.node].(kind := Voter)])) else None
    case RemoveNode =>
      if ch.node in c.members then Some(c.(members := c.members - {ch.node})) else None
    case DemoteNode =>
      if ch.node in c.members
      then Some(c.(members := c.members[ch.node := c.members[ch.node].(kind := Learner)])) else None
    case UnknownChange => None
  }

  /** What a successful change does to the two groups of members. */
  lemma ChangeEffect(c: Config, ch: Change)
    requires ApplyChange(c, ch).Some?
    ensures var after := ApplyChange(c, ch).value; var n := {ch.node};
            && after.index == c.index && after.term == c.term
            && Voters(after) == (if ch.kind == PromoteNode then Voters(c) + n
               else if ch.kind == AddLearnerNode then Voters(c) else Voters(c) - n)
            && Learners(after) == (if ch.kind == AddLearnerNode || ch.kind == DemoteNode then Learners(c) + n
               else Learners(c) - n)
  {
  }

  /** It touches no other member, and keeps the address of the one it does not add. */
  lemma ChangeTouchesOne(c: Config, ch: Change, id: NodeId)
    requires ApplyChange(c, ch).Some?
    ensures var after := ApplyChange(c, ch).value;
            if id != ch.node then
              (id in after.members <==> id in c.members) && (id in c.members ==> after.members[id] == c.members[id])
            else
              && (id in after.members <==> ch.kind != RemoveNode)
              && (id in after.members && id in c.members ==> after.members[id].address == c.members[id].address)
              && (id !in c.members ==> after.members[id].address == ch.address)
  {
  }

  /** Every change that passes validation can be applied. */
  lemma ValidApplies(c: Config, ch: Change)
    requires Validate(c, ch)
    ensures ApplyChange(c, ch).Some?
  {
    if ch.kind == PromoteNode {
      assert ch.node !in Voters(c);
    }
  }

  // ---------------------------------------------------------------- quorum overlap

  /** The voter sets differ in at most one member. */
  predicate Adjacent(a: set<NodeId>, b: set<NodeId>) {
    |a - b| + |b - a| <= 1
  }

  ghost predicate IsQuorum(q: set<NodeId>, c: Config) {
    q <= Voters(c) && |q| >= Quorum(c)
  }

  /** Any quorum of one configuration meets any quorum of the other. */
  ghost predicate QuorumsMeet(a: Config, b: Config) {
    forall p, q :: IsQuorum(p, a) && IsQuorum(q, b) ==> p * q != {}
  }

  lemma AdjacentMeet(a: Config, b: Config)
    requires Adjacent(Voters(a), Voters(b))
    ensures QuorumsMeet(a, b)
  {
    forall p, q | IsQuorum(p, a) && IsQuorum(q, b) ensures p * q != {} {
      MajoritiesMeet(Voters(a), Voters(b), p, q);
    }
  }

  lemma MajoritiesMeet(v: set<NodeId>, w: set<NodeId>, p: set<NodeId>, q: set<NodeId>)
    requires Adjacent(v, w) && p <= v && q <= w && |p| > |v| / 2 && |q| > |w| / 2
    ensures p * q != {}
  {
    UnionSize(v, w);
    UnionSize(w, v);
    assert v + w == w + v;
    assert |p + q| == |p| + |q| - |p * q|;
    Sets.SubsetSize(p + q, v + w);
  }

  lemma UnionSize(v: set<NodeId>, w: set<NodeId>)
    ensures |v + w| == |v| + |w - v|
  {
    assert v + w == v + (w - v);
  }

  /** The quorum is the least size at which any two sets of voters meet. */
  lemma QuorumIsLeast(c: Config, k: nat)
    ensures (forall p, q :: p <= Voters(c) && q <= Voters(c) && |p| >= k && |q| >= k ==> p * q != {}) <==>
            k >= Quorum(c)
  {
    var v := Voters(c);
    if k >= Quorum(c) {
      forall p, q | p <= v && q <= v && |p| >= k && |q| >= k ensures p * q != {} {
        assert v - v == {};
        MajoritiesMeet(v, v, p, q);
      }
    } else {
      var p := Sets.PickSome(v, k);
      assert |v - p| == |v| - k;
      var q := Sets.PickSome(v - p, k);
      assert p * q == {};
    }
  }

  /**
   * Validation lets through exactly the changes that apply, do not lose the last voter, name an
   * address to add, and demote voters.
   */
  lemma ValidateExactly(c: Config, ch: Change)
    ensures Validate(c, ch) <==>
              && ApplyChange(c, ch).Some? && (Voters(c) != {} ==> Voters(ApplyChange(c, ch).value) != {})
              && (ch.kind == AddLearnerNode ==> ch.address != "") && (ch.kind == DemoteNode ==> ch.node in Voters(c))
  {
    if Validate(c, ch) {
      ValidApplies(c, ch);
      if Voters(c) != {} { AcceptedChange(c, ch); }
    } else if ApplyChange(c, ch).Some? && Voters(c) != {} {
      ReplayLosesVoters(c, ch);
      OnlyVoter(Voters(c), ch.node);
    }
  }

  lemma OnlyVoter(v: set<NodeId>, n: NodeId)
    ensures n in v && |v| <= 1 ==> v == {n}
  {
    if n in v && |v| <= 1 {
      assert |v - {n}| == 0;
    }
  }

  /** A change applies exactly to an absent node to add, a learner to promote, a member to remove or demote. */
  lemma AppliesExactly(c: Config, ch: Change)
    ensures ApplyChange(c, ch).Some? <==>
              match ch.kind
              case AddLearnerNode => ch.node !in c.members
              case PromoteNode => ch.node in Learners(c)
              case RemoveNode => ch.node in c.members
              case DemoteNode => ch.node in c.members
              case UnknownChange => false
  {
  }

  /** An accepted change moves to an adjacent voter set that is not empty, so that old and new quorums meet. */
  lemma AcceptedChange(c: Config, ch: Change)
    requires Validate(c, ch) && Voters(c) != {}
    ensures ApplyChange(c, ch).Some?
    ensures var after := ApplyChange(c, ch).value;
            Adjacent(Voters(c), Voters(after)) && QuorumsMeet(c, after) && Voters(after) != {}
  {
    ValidApplies(c, ch);
    ChangeEffect(c, ch);
    var after := ApplyChange(c, ch).value;
    var v, w, n := Voters(c), Voters(after), {ch.node};
    Sets.SubsetSize(v - w, n);
    Sets.SubsetSize(w - v, n);
    assert v <= w || w <= v;
    assert v <= w ==> v - w == {};
    assert w <= v ==> w - v == {};
    AdjacentMeet(c, after);
    if w == {} {
      Sets.SubsetSize(v, n);
    }
  }

  /** Applying without validation, as log replay does, loses the last voter exactly by removing or demoting it. */
  lemma ReplayLosesVoters(c: Config, ch: Change)
    requires Voters(c) != {} && ApplyChange(c, ch).Some?
    ensures Voters(ApplyChange(c, ch).value) == {} <==>
            (ch.kind == RemoveNode || ch.kind == DemoteNode) && Voters(c) == {ch.node}
  {
    ChangeEffect(c, ch);
    var after := ApplyChange(c, ch).value;
    assert Voters(after) == {} && ch.kind != PromoteNode ==> Voters(c) <= {ch.node};
  }

  // ---------------------------------------------------------------- the manager

  datatype Manager = Manager(
    current: Config,
    pending: Option<Change>,
    pendingConfig: Option<Config>,
    changeInProgress: bool,
    lastChangeIndex: nat)

  function Start(members: map<NodeId, string>): Manager {
    Manager(Config(map id | id in members :: Member(members[id], Voter), 0, 0), None, None, false, 0)
  }

  predicate Accepts(m: Manager, ch: Change) {
    !m.changeInProgress && Validate(m.current, ch) && ApplyChange(m.current, ch).Some?
  }

  function Propose(m: Manager, ch: Change): Manager {
    if Accepts(m, ch)
    then m.(pending := Some(ch), pendingConfig := ApplyChange(m.current, ch), changeInProgress := true) else m
  }

  predicate CanCommit(m: Manager) {
    m.changeInProgress && m.pending.Some?
  }

  function Settled(c: Config, index: nat, term: nat): Manager {
    Manager(c.(index := index, term := term), None, None, false, index)
  }

  function Commit(m: Manager, index: nat, term: nat): Manager
    requires m.pendingConfig.Some? <== CanCommit(m)
  {
    if CanCommit(m) then Settled(m.pendingConfig.value, index, term) else m
  }

  function Abort(m: Manager): Manager {
    m.(pending := None, pendingConfig := None, changeInProgress := false)
  }

  /** ApplyConfigChange. */
  function Replay(m: Manager, ch: Change, index: nat, term: nat): Manager {
    match ApplyChange(m.current, ch)
    case Some(c) => Settled(c, index, term)
    case None => m
  }

  function SetConfiguration(c: Config): Manager {
    Settled(c, c.index, c.term)
  }

  /** At most one change is pending, and its outcome is what would be committed. */
  ghost predicate Coherent(m: Manager) {
    && m.changeInProgress == m.pending.Some? == m.pendingConfig.Some?
    && (m.pending.Some? ==>
          Validate(m.current, m.pending.value) && m.pendingConfig == ApplyChange(m.current, m.pending.value))
    && m.lastChangeIndex == m.current.index
  }

  lemma StepsCoherent(m: Manager, ch: Change, index: nat, term: nat)
    requires Coherent(m)
    ensures Coherent(Propose(m, ch)) && Coherent(Commit(m, index, term)) && Coherent(Abort(m))
            && Coherent(Replay(m, ch, index, term))
  {
  }

  class ConfigurationManager {
    var current: Config
    var pending: Option<Change>
    var pendingConfig: Option<Config>
    var changeInProgress: bool
    var lastChangeIndex: nat

    function State(): Manager
      reads this
    {
      Manager(current, pending, pendingConfig, changeInProgress, lastChangeIndex)
    }

    /** NewConfigurationManager: every initial member is a voter. */
    constructor (initial: map<NodeId, string>)
      ensures State() == Start(initial) && Coherent(State()) && Voters(current) == initial.Keys
      ensures forall id :: id in current.members <==> id in initial
      ensures forall id :: id in initial ==> current.members[id].address == initial[id]
      ensures current.index == 0 && current.term == 0 && pending == None
    {
      current := Config(map id | id in initial :: Member(initial[id], Voter), 0, 0);
      pending, pendingConfig, changeInProgress, lastChangeIndex := None, None, false, 0;
    }

    method ProposeChange(ch: Change) returns (ok: bool)
      requires Coherent(State())
      modifies this
      ensures State() == Propose(old(State()), ch) && ok == old(Accepts(State(), ch)) && Coherent(State())
      ensures ok <==> !old(changeInProgress) && Validate(old(current), ch)
      ensures current == old(current) && lastChangeIndex == old(lastChangeIndex)
      ensures ok ==> pending == Some(ch) && pendingConfig == ApplyChange(current, ch) && changeInProgress
      ensures !ok ==> State() == old(State())
    {
      if Validate(current, ch) { ValidApplies(current, ch); }
      if changeInProgress {
        return false;
      }
      var valid := ValidateChange(current, ch);
      if !valid {
        return false;
      }
      var newConfig := ApplyChange(current, ch);
      if newConfig.None? {
        return false;
      }
      pending, pendingConfig, changeInProgress := Some(ch), newConfig, true;
      return true;
    }

    method CommitChange(index: nat, term: nat) returns (ok: bool)
      requires Coherent(State())
      modifies this
      ensures State() == Commit(old(State()), index, term) && ok == old(CanCommit(State())) && Coherent(State())
      ensures ok <==> old(pending).Some?
      ensures if ok then
                && current.members == old(pendingConfig).value.members && current.index == index && current.term == term
                && lastChangeIndex == index && pending == None && !changeInProgress
              else current == old(current) && lastChangeIndex == old(lastChangeIndex)
    {
      if !changeInProgress || pending.None? {
        return false;
      }
      current := pendingConfig.value;
      current := current.(index := index);
      current := current.(term := term);
      lastChangeIndex := index;
      pending, pendingConfig, changeInProgress := None, None, false;
      return true;
    }

    method AbortChange()
      requires Coherent(State())
      modifies this
      ensures State() == Abort(old(State())) && Coherent(State())
      ensures pending == None && current == old(current) && lastChangeIndex == old(lastChangeIndex)
    {
      pending, pendingConfig, changeInProgress := None, None, false;
    }

    method ApplyConfigChange(ch: Change, index: nat, term: nat) returns (ok: bool)
      requires Coherent(State())
      modifies this
      ensures State() == Replay(old(State()), ch, index, term) && Coherent(State())
      ensures ok == old(ApplyChange(current, ch).Some?)
      ensures if ok then
                && current.members == old(ApplyChange(current, ch)).value.members
                && current.index == index && current.term == term && lastChangeIndex == index && pending == None
              else current == old(current) && pending == old(pending)
    {
      var newConfig := ApplyChange(current, ch);
      if newConfig.None? {
        return false;
      }
      current := newConfig.value.(index := index, term := term);
      lastChangeIndex := index;
      pending, pendingConfig, changeInProgress := None, None, false;
      return true;
    }

    method SetCurrent(c: Config)
      modifies this
      ensures State() == SetConfiguration(c) && Coherent(State())
      ensures current == c && pending == None && lastChangeIndex == c.index
    {
      current := c;
      pending, pendingConfig, changeInProgress := None, None, false;
      lastChangeIndex := c.index;
    }
  }

  method ValidateChange(c: Config, ch: Change) returns (ok: bool)
    ensures ok == Validate(c, ch)
  {
    var isVoter := ch.node in c.members && c.members[ch.node].kind == Voter;
    var voters := VoterCount(c);
    match ch.kind
    case AddLearnerNode => return ch.node !in c.members && ch.address != "";
    case PromoteNode => return ch.node in c.members && !isVoter;
    case RemoveNode => return ch.node in c.members && !(isVoter && voters <= 1);
    case DemoteNode => return ch.node in c.members && isVoter && voters > 1;
    case UnknownChange => return false;
  }

  // ---------------------------------------------------------------- runs

  datatype Op = OpPropose(ch: Change) | OpCommit(index: nat, term: nat) | OpAbort

  function Step(m: Manager, op: Op): (r: Manager)
    requires Coherent(m)
    ensures Coherent(r)
  {
    match op
    case OpPropose(ch) => Propose(m, ch)
    case OpCommit(index, term) => Commit(m, index, term)
    case OpAbort => Abort(m)
  }

  function Run(m: Manager, ops: seq<Op>): (r: Manager)
    requires Coherent(m)
    ensures Coherent(r)
  {
    if ops == [] then m else Step(Run(m, ops[..|ops| - 1]), ops[|ops| - 1])
  }

  /** Every run keeps a voter, and every single step moves between configurations whose quorums meet. */
  lemma {:induction false} RunsKeepQuorums(m: Manager, ops: seq<Op>)
    requires Coherent(m) && Voters(m.current) != {}
    ensures Voters(Run(m, ops).current) != {}
    ensures ops != [] ==> QuorumsMeet(Run(m, ops[..|ops| - 1]).current, Run(m, ops).current)
    ensures var r := Run(m, ops); r.pending.Some? ==>
            Voters(r.pendingConfig.value) != {} && QuorumsMeet(r.current, r.pendingConfig.value)
  {
    if ops != [] {
      var before := Run(m, ops[..|ops| - 1]);
      RunsKeepQuorums(m, ops[..|ops| - 1]);
      StepKeepsQuorums(before, ops[|ops| - 1]);
    }
    var r := Run(m, ops);
    if r.pending.Some? {
      AcceptedChange(r.current, r.pending.value);
    }
  }

  lemma StepKeepsQuorums(m: Manager, op: Op)
    requires Coherent(m) && Voters(m.current) != {}
    ensures Voters(Step(m, op).current) != {} && QuorumsMeet(m.current, Step(m, op).current)
  {
    var after := Step(m, op);
    if op.OpCommit? && CanCommit(m) {
      AcceptedChange(m.current, m.pending.value);
      assert Voters(after.current) == Voters(m.pendingConfig.value);
      AdjacentMeet(m.current, after.current);
    } else {
      AdjacentMeet(m.current, after.current);
    }
  }

  /** The changes a run commits, each with the index and term it was committed at. */
  datatype Committed = Committed(ch: Change, index: nat, term: nat)

  function Log(m: Manager, ops: seq<Op>): seq<Committed>
    requires Coherent(m)
  {
    if ops == [] then [] else
      var before, op := Run(m, ops[..|ops| - 1]), ops[|ops| - 1];
      Log(m, ops[..|ops| - 1])
      + if op.OpCommit? && CanCommit(before) then [Committed(before.pending.value, op.index, op.term)] else []
  }

  function ReplayAll(m: Manager, log: seq<Committed>): Manager {
    if log == [] then m else
      var c := log[|log| - 1];
      Replay(ReplayAll(m, log[..|log| - 1]), c.ch, c.index, c.term)
  }

  /**
   * Replaying the committed changes reaches the configuration the run committed, whatever was proposed
   * and aborted between.
   */
  lemma {:induction false} ReplayIsChain(m: Manager, ops: seq<Op>)
    requires Coherent(m) && m.pending.None?
    ensures ReplayAll(m, Log(m, ops)) == Abort(Run(m, ops))
    ensures Run(m, ops).lastChangeIndex == Run(m, ops).current.index
  {
    if ops != [] {
      var op, shorter := ops[|ops| - 1], ops[..|ops| - 1];
      ReplayIsChain(m, shorter);
      var before := Run(m, shorter);
      if op.OpCommit? && CanCommit(before) {
        var c := Committed(before.pending.value, op.index, op.term);
        assert Log(m, ops) == Log(m, shorter) + [c];
        assert (Log(m, shorter) + [c])[..|Log(m, shorter)|] == Log(m, shorter);
      } else {
        assert Log(m, ops) == Log(m, shorter);
      }
    }
  }
}
