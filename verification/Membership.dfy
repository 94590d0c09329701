/** Learner tracking on top of the configuration manager: pkg/cluster/membership.go. */
module Membership {
  import opened RaftTypes
  import opened Configuration

  const DEFAULT_GAP: u64 := 100

  /** A learner's progress, without the times of contact. */
  datatype Status = Status(matchIndex: u64, catchUpThreshold: u64, caughtUp: bool, bytesReplicated: u64)

  const FRESH := Status(0, 0, false, 0)

  datatype Members = Members(config: Manager, statuses: map<NodeId, Status>, gap: u64)

  function U64(x: int): u64 {
    x % 0x1_0000_0000_0000_0000
  }

  function Create(initial: map<NodeId, string>, gap: u64): Members {
    Members(Start(initial), map[], if gap == 0 then DEFAULT_GAP else gap)
  }

  // ---------------------------------------------------------------- the operations

  /** AddLearner starts tracking as soon as the addition is accepted as a proposal. */
  function AddLearner(m: Members, node: NodeId, address: string, index: nat, term: nat): Members {
    var ch := Change(AddLearnerNode, node, address, index, term);
    if Accepts(m.config, ch) then m.(config := Propose(m.config, ch), statuses := m.statuses[node := FRESH]) else m
  }

  /** CommitAddLearner does not look at the node it is given. */
  function CommitAdd(m: Members, index: nat, term: nat): Members
    requires Coherent(m.config)
  {
    m.(config := Commit(m.config, index, term))
  }

  /** CommitPromoteLearner and CommitRemoveNode: commit whatever is pending and forget the named node. */
  function CommitAndForget(m: Members, node: NodeId, index: nat, term: nat): Members
    requires Coherent(m.config)
  {
    if CanCommit(m.config) then m.(config := Commit(m.config, index, term), statuses := m.statuses - {node}) else m
  }

  function Progressed(s: Status, matchIndex: u64, leaderLast: u64, bytes: u64, gap: u64): Status {
    Status(matchIndex, if s.catchUpThreshold == 0 then leaderLast else s.catchUpThreshold,
           U64(leaderLast - matchIndex) <= gap, U64(s.bytesReplicated + bytes))
  }

  function Progress(m: Members, node: NodeId, matchIndex: u64, leaderLast: u64, bytes: u64): Members {
    if node in m.statuses
    then m.(statuses := m.statuses[node := Progressed(m.statuses[node], matchIndex, leaderLast, bytes, m.gap)])
    else m
  }

  predicate AcceptsPromotion(m: Members, node: NodeId, index: nat, term: nat) {
    node in m.statuses && m.statuses[node].caughtUp && Accepts(m.config, Change(PromoteNode, node, "", index, term))
  }

  function Promote(m: Members, node: NodeId, index: nat, term: nat): Members {
    if AcceptsPromotion(m, node, index, term)
    then m.(config := Propose(m.config, Change(PromoteNode, node, "", index, term))) else m
  }

  function Remove(m: Members, node: NodeId, index: nat, term: nat): Members {
    m.(config := Propose(m.config, Change(RemoveNode, node, "", index, term)))
  }

  /** The node of a pending addition. */
  function Joining(c: Manager): set<NodeId> {
    if c.pending.Some? && c.pending.value.kind == AddLearnerNode then {c.pending.value.node} else {}
  }

  function AbortPending(m: Members): Members {
    m.(config := Abort(m.config), statuses := m.statuses - Joining(m.config))
  }

  function ReplayChange(m: Members, ch: Change, index: nat, term: nat): Members {
    if ApplyChange(m.config.current, ch).None? then m
    else m.(config := Replay(m.config, ch, index, term),
            statuses := match ch.kind
                        case AddLearnerNode => m.statuses[ch.node := FRESH]
                        case PromoteNode => m.statuses - {ch.node}
                        case RemoveNode => m.statuses - {ch.node}
                        case _ => m.statuses)
  }

  function Restore(m: Members, c: Config): Members {
    m.(config := SetConfiguration(c), statuses := map id | id in Learners(c) :: FRESH)
  }

  datatype Op =
    | OpAdd(node: NodeId, address: string, index: nat, term: nat)
    | OpCommitAdd(node: NodeId, index: nat, term: nat)
    | OpProgress(node: NodeId, matchIndex: u64, leaderLast: u64, bytes: u64)
    | OpPromote(node: NodeId, index: nat, term: nat)
    | OpCommitPromote(node: NodeId, index: nat, term: nat)
    | OpRemove(node: NodeId, index: nat, term: nat)
    | OpCommitRemove(node: NodeId, index: nat, term: nat)
    | OpAbortPending
    | OpReplay(ch: Change, index: nat, term: nat)
    | OpRestore(c: Config)

  function Act(m: Members, op: Op): (r: Members)
    requires Coherent(m.config)
    ensures Coherent(r.config) && r.gap == m.gap
  {
    match op
    case OpAdd(node, address, index, term) => AddLearner(m, node, address, index, term)
    case OpCommitAdd(_, index, term) => CommitAdd(m, index, term)
    case OpProgress(node, matchIndex, leaderLast, bytes) => Progress(m, node, matchIndex, leaderLast, bytes)
    case OpPromote(node, index, term) => Promote(m, node, index, term)
    case OpCommitPromote(node, index, term) => CommitAndForget(m, node, index, term)
    case OpRemove(node, index, term) => Remove(m, node, index, term)
    case OpCommitRemove(node, index, term) => CommitAndForget(m, node, index, term)
    case OpAbortPending => AbortPending(m)
    case OpReplay(ch, index, term) => ReplayChange(m, ch, index, term)
    case OpRestore(c) => Restore(m, c)
  }

  function After(m: Members, ops: seq<Op>): (r: Members)
    requires Coherent(m.config)
    ensures Coherent(r.config) && r.gap == m.gap
  {
    if ops == [] then m else Act(After(m, ops[..|ops| - 1]), ops[|ops| - 1])
  }

  // ---------------------------------------------------------------- learner tracking

  /** The tracked nodes are the current learners and the one being added. */
  ghost predicate Tracked(m: Members) {
    m.statuses.Keys == Learners(m.config.current) + Joining(m.config)
  }

  /** A commit made for an addition keeps the tracking exactly when what is pending does not retire a learner. */
  lemma CommitAddTracks(m: Members, index: nat, term: nat)
    requires Coherent(m.config) && Tracked(m) && m.config.pending.Some?
    ensures var ch := m.config.pending.value;
            Tracked(CommitAdd(m, index, term)) <==>
              ch.kind == AddLearnerNode || (ch.kind != DemoteNode && ch.node !in Learners(m.config.current))
  {
    ChangeEffect(m.config.current, m.config.pending.value);
    LearnersSettle(m.config, index, term);
  }

  /**
   * A commit made for a promotion or removal keeps it exactly when it names the learner leaving, if
   * there is one, and no learner staying.
   */
  lemma CommitAndForgetTracks(m: Members, node: NodeId, index: nat, term: nat)
    requires Coherent(m.config) && Tracked(m) && m.config.pending.Some?
    ensures var ch := m.config.pending.value;
            Tracked(CommitAndForget(m, node, index, term)) <==>
              if ch.kind == AddLearnerNode then node !in m.statuses
              else ch.kind != DemoteNode && m.statuses.Keys * {node} == m.statuses.Keys * {ch.node}
  {
    var ch := m.config.pending.value;
    ChangeEffect(m.config.current, ch);
    LearnersSettle(m.config, index, term);
    var after := CommitAndForget(m, node, index, term);
    var l := m.statuses.Keys;
    assert after.statuses.Keys == l - {node};
    if ch.kind == AddLearnerNode {
      assert Learners(after.config.current) == l;
    } else if ch.kind == DemoteNode {
      assert ch.node !in l && ch.node in Learners(after.config.current);
    } else {
      assert Learners(after.config.current) == l - {ch.node};
      SameLoss(l, node, ch.node);
    }
  }

  lemma SameLoss(l: set<NodeId>, a: NodeId, b: NodeId)
    ensures l - {a} == l - {b} <==> l * {a} == l * {b}
  {
    assert l - {a} == l - l * {a} && l - {b} == l - l * {b};
    assert l * {a} == l - (l - {a}) && l * {b} == l - (l - {b});
  }

  lemma LearnersSettle(c: Manager, index: nat, term: nat)
    requires Coherent(c) && CanCommit(c)
    ensures Learners(Commit(c, index, term).current) == Learners(c.pendingConfig.value)
    ensures Joining(Commit(c, index, term)) == {}
  {
  }

  /**
   * A replayed change keeps it exactly when it does not demote a voter and does not drop another
   * node's pending addition.
   */
  lemma ReplayTracks(m: Members, ch: Change, index: nat, term: nat)
    requires Coherent(m.config) && Tracked(m) && ApplyChange(m.config.current, ch).Some?
    ensures Tracked(ReplayChange(m, ch, index, term)) <==>
              && !(ch.kind == DemoteNode && ch.node in Voters(m.config.current))
              && (Joining(m.config) == {} || (ch.kind == AddLearnerNode && Joining(m.config) == {ch.node}))
  {
    ReplayKeys(m, ch, index, term);
    Apart(m.config, ch);
    var c := m.config.current;
    ReplaySets(Learners(c), Voters(c), Joining(m.config), ch.node, ch.kind,
               ReplayChange(m, ch, index, term).statuses.Keys, m.statuses.Keys);
  }

  lemma ReplayKeys(m: Members, ch: Change, index: nat, term: nat)
    requires ApplyChange(m.config.current, ch).Some?
    ensures var after := ReplayChange(m, ch, index, term); var n := {ch.node}; var l := Learners(m.config.current);
            && Joining(after.config) == {}
            && Learners(after.config.current) ==
               (if ch.kind == AddLearnerNode || ch.kind == DemoteNode then l + n else l - n)
            && after.statuses.Keys ==
                 (if ch.kind == AddLearnerNode then m.statuses.Keys + n
                     else if ch.kind == DemoteNode then m.statuses.Keys else m.statuses.Keys - n)
  {
    ChangeEffect(m.config.current, ch);
    assert Learners(ReplayChange(m, ch, index, term).config.current) ==
        Learners(ApplyChange(m.config.current, ch).value);
  }

  lemma Apart(c: Manager, ch: Change)
    requires Coherent(c) && ApplyChange(c.current, ch).Some?
    ensures Learners(c.current) !! Voters(c.current) && Joining(c) !! Learners(c.current)
            && Joining(c) !! Voters(c.current)
    ensures ch.kind != AddLearnerNode ==> ch.node in Learners(c.current) + Voters(c.current)
    ensures forall x, y :: x in Joining(c) && y in Joining(c) ==> x == y
  {
  }

  lemma ReplaySets(l: set<NodeId>, v: set<NodeId>, j: set<NodeId>, n: NodeId, kind: ChangeType, after: set<NodeId>,
      before: set<NodeId>)
    requires before == l + j && l !! v && j !! l && j !! v
    requires after == if kind == AddLearnerNode then before + {n} else if kind == DemoteNode then before
             else before - {n}
    requires kind != AddLearnerNode ==> n in l + v
    requires forall x, y :: x in j && y in j ==> x == y
    ensures after == (if kind == AddLearnerNode || kind == DemoteNode then l + {n} else l - {n}) <==>
              !(kind == DemoteNode && n in v) && (j == {} || (kind == AddLearnerNode && j == {n}))
  {
    var want := if kind == AddLearnerNode || kind == DemoteNode then l + {n} else l - {n};
    if after == want {
      forall x | x in j ensures kind == AddLearnerNode && x == n {
        assert x in before && x !in l;
        assert x != n ==> x !in want;
      }
    }
  }

  /** Each commit names the pending change; a replay neither demotes nor interrupts a pending addition. */
  predicate Orderly(m: Members, op: Op) {
    match op
    case OpCommitAdd(node, _, _) => Pends(m, AddLearnerNode, node)
    case OpCommitPromote(node, _, _) => Pends(m, PromoteNode, node)
    case OpCommitRemove(node, _, _) => Pends(m, RemoveNode, node)
    case OpReplay(ch, _, _) => ch.kind != DemoteNode && Joining(m.config) == {}
    case _ => true
  }

  predicate Pends(m: Members, kind: ChangeType, node: NodeId) {
    m.config.pending.Some? ==> m.config.pending.value.kind == kind && m.config.pending.value.node == node
  }

  lemma StepTracks(m: Members, op: Op)
    requires Coherent(m.config) && Tracked(m) && Orderly(m, op)
    ensures Tracked(Act(m, op))
  {
    match op
    case OpAdd(node, address, index, term) => AddTracks(m, node, address, index, term);
    case OpCommitAdd(_, index, term) =>
      if CanCommit(m.config) { CommitAddTracks(m, index, term); }
    case OpCommitPromote(node, index, term) =>
      if CanCommit(m.config) { CommitAndForgetTracks(m, node, index, term); }
    case OpCommitRemove(node, index, term) =>
      if CanCommit(m.config) { CommitAndForgetTracks(m, node, index, term); }
    case OpAbortPending => AbortTracks(m);
    case OpReplay(ch, index, term) =>
      if ApplyChange(m.config.current, ch).Some? { ReplayTracks(m, ch, index, term); }
    case OpProgress(node, a, b, c) => assert Progress(m, node, a, b, c).statuses.Keys == m.statuses.Keys;
    case OpPromote(_, _, _) =>
    case OpRemove(_, _, _) =>
    case OpRestore(c) => assert Restore(m, c).statuses.Keys == Learners(c);
  }

  lemma AddTracks(m: Members, node: NodeId, address: string, index: nat, term: nat)
    requires Coherent(m.config) && Tracked(m)
    ensures Tracked(AddLearner(m, node, address, index, term))
  {
    var after := AddLearner(m, node, address, index, term);
    if Accepts(m.config, Change(AddLearnerNode, node, address, index, term)) {
      assert after.statuses.Keys == m.statuses.Keys + {node};
      assert Joining(after.config) == {node} && Joining(m.config) == {};
    }
  }

  lemma AbortTracks(m: Members)
    requires Coherent(m.config) && Tracked(m)
    ensures Tracked(AbortPending(m))
  {
    var j := Joining(m.config);
    assert AbortPending(m).statuses.Keys == m.statuses.Keys - j;
    assert j !! Learners(m.config.current);
  }

  ghost predicate OrderlyRun(m: Members, ops: seq<Op>)
    requires Coherent(m.config)
  {
    forall k {:trigger ops[k]} :: 0 <= k < |ops| ==> Orderly(After(m, ops[..k]), ops[k])
  }

  /** Over every orderly run the tracked nodes are exactly the current learners and the pending one. */
  lemma {:induction false} LearnersTracked(initial: map<NodeId, string>, gap: u64, ops: seq<Op>)
    requires OrderlyRun(Create(initial, gap), ops)
    ensures Tracked(After(Create(initial, gap), ops))
  {
    var m := Create(initial, gap);
    if ops == [] {
      assert Learners(m.config.current) == {};
    } else {
      var shorter := ops[..|ops| - 1];
      forall k | 0 <= k < |shorter| ensures Orderly(After(m, shorter[..k]), shorter[k]) {
        assert shorter[..k] == ops[..k];
        assert ops[k] == shorter[k];
      }
      LearnersTracked(initial, gap, shorter);
      StepTracks(After(m, shorter), ops[|ops| - 1]);
    }
  }

  // ---------------------------------------------------------------- promotion

  datatype Report = Report(matchIndex: u64, leaderLast: u64)

  /** The latest report about a node since it was last put under tracking. */
  function LastReport(m: Members, ops: seq<Op>, node: NodeId): Option<Report>
    requires Coherent(m.config)
  {
    if ops == [] then None
    else
      var shorter := ops[..|ops| - 1];
      NextReport(After(m, shorter), ops[|ops| - 1], node, LastReport(m, shorter, node))
  }

  function NextReport(before: Members, op: Op, node: NodeId, earlier: Option<Report>): Option<Report> {
    match op
    case OpProgress(n, matchIndex, leaderLast, _) =>
      if n == node && n in before.statuses then Some(Report(matchIndex, leaderLast)) else earlier
    case OpAdd(n, address, index, term) =>
      if n == node && Accepts(before.config, Change(AddLearnerNode, n, address, index, term)) then None else earlier
    case OpReplay(ch, _, _) =>
      if ch.node == node && ch.kind == AddLearnerNode && ApplyChange(before.config.current, ch).Some?
      then None else earlier
    case OpRestore(_) => None
    case _ => earlier
  }

  predicate Near(r: Option<Report>, gap: u64) {
    r.Some? && U64(r.value.leaderLast - r.value.matchIndex) <= gap
  }

  /** The status is what this report made it. */
  predicate Shows(s: Status, r: Option<Report>, gap: u64) {
    (s.caughtUp <==> Near(r, gap)) && s.matchIndex == if r.Some? then r.value.matchIndex else 0
  }

  lemma StepShows(m: Members, op: Op, node: NodeId, earlier: Option<Report>)
    requires Coherent(m.config) && node in Act(m, op).statuses
    requires node in m.statuses ==> Shows(m.statuses[node], earlier, m.gap)
    ensures Shows(Act(m, op).statuses[node], NextReport(m, op, node, earlier), m.gap)
  {
  }

  /**
   * A tracked node is marked as caught up exactly when its latest report was within the gap, and shows
   * that report's index.
   */
  lemma {:induction false} CaughtUpIsLastReport(initial: map<NodeId, string>, gap: u64, ops: seq<Op>, node: NodeId)
    requires node in After(Create(initial, gap), ops).statuses
    ensures var m := Create(initial, gap);
            var s, r := After(m, ops).statuses[node], LastReport(m, ops, node);
            (s.caughtUp <==> Near(r, m.gap)) && s.matchIndex == (if r.Some? then r.value.matchIndex else 0)
  {
    var m := Create(initial, gap);
    if ops != [] {
      var shorter := ops[..|ops| - 1];
      if node in After(m, shorter).statuses {
        CaughtUpIsLastReport(initial, gap, shorter, node);
      }
      StepShows(After(m, shorter), ops[|ops| - 1], node, LastReport(m, shorter, node));
    }
  }

  /**
   * A promotion is accepted only for a current learner whose latest report was within the gap of the
   * leader's last index.
   */
  lemma PromotionNeedsCatchUp(initial: map<NodeId, string>, gap: u64, ops: seq<Op>, node: NodeId, index: nat, term: nat)
    requires AcceptsPromotion(After(Create(initial, gap), ops), node, index, term)
    ensures var m := Create(initial, gap); var r := LastReport(m, ops, node);
            && node in Learners(After(m, ops).config.current)
            && r.Some? && (r.value.matchIndex <= r.value.leaderLast ==>
               r.value.leaderLast - r.value.matchIndex <= m.gap)
  {
    CaughtUpIsLastReport(initial, gap, ops, node);
    var m := After(Create(initial, gap), ops);
    assert node !in Voters(m.config.current);
  }

  /** The difference is a uint64: a report ahead of the leader counts as caught up only from 2^64 - gap entries on. */
  lemma AheadWrapsAround(s: Status, matchIndex: u64, leaderLast: u64, bytes: u64, gap: u64)
    requires matchIndex > leaderLast
    ensures Progressed(s, matchIndex, leaderLast, bytes, gap).caughtUp <==>
            matchIndex - leaderLast >= 0x1_0000_0000_0000_0000 - gap
  {
    assert (leaderLast - matchIndex) % 0x1_0000_0000_0000_0000 == leaderLast - matchIndex + 0x1_0000_0000_0000_0000;
  }

  // ---------------------------------------------------------------- the manager

  class MembershipManager {
    const configManager: ConfigurationManager
    const catchUpIndexGap: u64
    var learnerStatuses: map<NodeId, Status>
    /** Whether a promotion callback is set. */
    var callbackSet: bool

    function State(): Members
      reads this, configManager
    {
      Members(configManager.State(), learnerStatuses, catchUpIndexGap)
    }

    constructor (initial: map<NodeId, string>, gap: u64)
      ensures State() == Create(initial, gap) && fresh(configManager)
      ensures learnerStatuses == map[] && catchUpIndexGap == (if gap == 0 then 100 else gap) && !callbackSet
    {
      catchUpIndexGap := if gap == 0 then DEFAULT_GAP else gap;
      configManager := new ConfigurationManager(initial);
      learnerStatuses, callbackSet := map[], false;
    }

    method SetPromotionCallback(isSet: bool)
      modifies this`callbackSet
      ensures callbackSet == isSet
    {
      callbackSet := isSet;
    }

    method AddLearner(node: NodeId, address: string, index: nat, term: nat) returns (ok: bool)
      requires Coherent(State().config)
      modifies this, configManager
      ensures State() == Act(old(State()), OpAdd(node, address, index, term))
      ensures ok == old(Accepts(State().config, Change(AddLearnerNode, node, address, index, term)))
      ensures ok <==>
                !old(configManager.changeInProgress) && node !in old(configManager.current.members) && address != ""
      ensures learnerStatuses == if ok then old(learnerStatuses)[node := Status(0, 0, false, 0)]
              else old(learnerStatuses)
      ensures ok ==> configManager.pending == Some(Change(AddLearnerNode, node, address, index, term))
    {
      ok := configManager.ProposeChange(Change(AddLearnerNode, node, address, index, term));
      if ok {
        learnerStatuses := learnerStatuses[node := FRESH];
      }
    }

    method CommitAddLearner(node: NodeId, index: nat, term: nat) returns (ok: bool)
      requires Coherent(State().config)
      modifies configManager
      ensures State() == Act(old(State()), OpCommitAdd(node, index, term)) && ok == old(CanCommit(State().config))
      ensures ok ==> configManager.current == old(configManager.pendingConfig).value.(index := index, term := term)
      ensures learnerStatuses == old(learnerStatuses)
    {
      ok := configManager.CommitChange(index, term);
    }

    /** UpdateLearnerProgress; `called` says whether the promotion callback is started for the node. */
    method UpdateLearnerProgress(node: NodeId, matchIndex: u64, leaderLast: u64, bytes: u64) returns (called: bool)
      requires Coherent(State().config)
      modifies this`learnerStatuses
      ensures State() == Act(old(State()), OpProgress(node, matchIndex, leaderLast, bytes))
      ensures learnerStatuses.Keys == old(learnerStatuses.Keys)
      ensures forall n :: n in learnerStatuses && n != node ==> learnerStatuses[n] == old(learnerStatuses)[n]
      ensures node in learnerStatuses ==>
              Reported(old(learnerStatuses)[node], learnerStatuses[node], matchIndex, leaderLast, bytes)
      ensures called <==>
                && callbackSet && node in learnerStatuses
                && learnerStatuses[node].caughtUp && !old(learnerStatuses)[node].caughtUp
    {
      if node !in learnerStatuses {
        return false;
      }
      var status := learnerStatuses[node];
      status := status.(matchIndex := matchIndex, bytesReplicated := U64(status.bytesReplicated + bytes));
      if status.catchUpThreshold == 0 {
        status := status.(catchUpThreshold := leaderLast);
      }
      if matchIndex > leaderLast { AheadWrapsAround(status, matchIndex, leaderLast, bytes, catchUpIndexGap); }
      var indexGap := U64(leaderLast - matchIndex);
      var wasCaughtUp := status.caughtUp;
      status := status.(caughtUp := indexGap <= catchUpIndexGap);
      learnerStatuses := learnerStatuses[node := status];
      called := !wasCaughtUp && status.caughtUp && callbackSet;
    }

    /** A status after a report: the index told, the first leader index seen, the gap judged, the bytes added up. */
    predicate Reported(was: Status, s: Status, matchIndex: u64, leaderLast: u64, bytes: u64)
    {
      && s.matchIndex == matchIndex
      && s.catchUpThreshold == (if was.catchUpThreshold == 0 then leaderLast else was.catchUpThreshold)
      && s.bytesReplicated == (was.bytesReplicated + bytes) % 0x1_0000_0000_0000_0000
      && (s.caughtUp <==>
            if matchIndex <= leaderLast then leaderLast - matchIndex <= catchUpIndexGap
            else matchIndex - leaderLast >= 0x1_0000_0000_0000_0000 - catchUpIndexGap)
    }

    method PromoteLearner(node: NodeId, index: nat, term: nat) returns (ok: bool)
      requires Coherent(State().config)
      modifies configManager
      ensures State() == Act(old(State()), OpPromote(node, index, term))
      ensures ok == old(AcceptsPromotion(State(), node, index, term))
      ensures ok <==>
                && node in learnerStatuses && learnerStatuses[node].caughtUp
                && !old(configManager.changeInProgress) && node in Learners(old(configManager.current))
      ensures ok ==> configManager.pending == Some(Change(PromoteNode, node, "", index, term))
    {
      if node !in learnerStatuses || !learnerStatuses[node].caughtUp {
        return false;
      }
      ok := configManager.ProposeChange(Change(PromoteNode, node, "", index, term));
    }

    method CommitPromoteLearner(node: NodeId, index: nat, term: nat) returns (ok: bool)
      requires Coherent(State().config)
      modifies this, configManager
      ensures State() == Act(old(State()), OpCommitPromote(node, index, term)) && ok == old(CanCommit(State().config))
      ensures ok ==> configManager.current == old(configManager.pendingConfig).value.(index := index, term := term)
      ensures learnerStatuses == if ok then old(learnerStatuses) - {node} else old(learnerStatuses)
    {
      ok := configManager.CommitChange(index, term);
      if ok {
        learnerStatuses := learnerStatuses - {node};
      }
    }

    method RemoveNode(node: NodeId, index: nat, term: nat) returns (ok: bool)
      requires Coherent(State().config)
      modifies configManager
      ensures State() == Act(old(State()), OpRemove(node, index, term))
      ensures ok == old(Accepts(State().config, Change(ChangeType.RemoveNode, node, "", index, term)))
      ensures ok ==> configManager.pending == Some(Change(ChangeType.RemoveNode, node, "", index, term))
    {
      ok := configManager.ProposeChange(Change(ChangeType.RemoveNode, node, "", index, term));
    }

    method CommitRemoveNode(node: NodeId, index: nat, term: nat) returns (ok: bool)
      requires Coherent(State().config)
      modifies this, configManager
      ensures State() == Act(old(State()), OpCommitRemove(node, index, term)) && ok == old(CanCommit(State().config))
      ensures ok ==> configManager.current == old(configManager.pendingConfig).value.(index := index, term := term)
      ensures learnerStatuses == if ok then old(learnerStatuses) - {node} else old(learnerStatuses)
    {
      ok := configManager.CommitChange(index, term);
      if ok {
        learnerStatuses := learnerStatuses - {node};
      }
    }

    method AbortChange()
      requires Coherent(State().config)
      modifies this, configManager
      ensures State() == Act(old(State()), OpAbortPending)
      ensures configManager.pending == None && configManager.current == old(configManager.current)
    {
      var pending := configManager.pending;
      if pending.Some? && pending.value.kind == AddLearnerNode {
        learnerStatuses := learnerStatuses - {pending.value.node};
      }
      configManager.AbortChange();
    }

    method ApplyConfigChange(ch: Change, index: nat, term: nat) returns (ok: bool)
      requires Coherent(State().config)
      modifies this, configManager
      ensures State() == Act(old(State()), OpReplay(ch, index, term))
      ensures ok == old(ApplyChange(configManager.current, ch).Some?)
    {
      ok := configManager.ApplyConfigChange(ch, index, term);
      if !ok {
        return;
      }
      match ch.kind
      case AddLearnerNode => learnerStatuses := learnerStatuses[ch.node := FRESH];
      case PromoteNode => learnerStatuses := learnerStatuses - {ch.node};
      case RemoveNode => learnerStatuses := learnerStatuses - {ch.node};
      case _ =>
    }

    /** SetConfiguration: resets the statuses and rebuilds them from the members. */
    method SetConfiguration(c: Config)
      requires Coherent(State().config)
      modifies this, configManager
      ensures State() == Act(old(State()), OpRestore(c))
      ensures configManager.current == c && configManager.pending == None && learnerStatuses.Keys == Learners(c)
      ensures forall id :: id in learnerStatuses ==> learnerStatuses[id] == Status(0, 0, false, 0)
    {
      configManager.SetCurrent(c);
      learnerStatuses := map[];
      var rest := c.members.Keys;
      while rest != {}
        invariant rest <= c.members.Keys && configManager.State() == Configuration.SetConfiguration(c)
        invariant learnerStatuses == map id | id in Learners(c) - rest :: FRESH
        decreases rest
      {
        var id :| id in rest;
        rest := rest - {id};
        if c.members[id].kind == Learner {
          learnerStatuses := learnerStatuses[id := FRESH];
        }
        assert Learners(c) - rest == if c.members[id].kind == Learner then Learners(c) - (rest + {id}) + {id}
            else Learners(c) - (rest + {id});
      }
    }
  }
}
