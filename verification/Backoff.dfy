/**
 * How a leader finds the point where a follower's log agrees with its own: the exchange that
 * replicateToPeer retries, over a network that loses nothing, and why it ends soon.
 */
module Backoff {
  import opened RaftTypes
  import opened Logs
  import opened NodeSpec
  import opened Protocol
  import opened ProtocolSteps
  import opened Refinement
  import opened RefinementAppend
  import ClusterRuns = Runs

  /** l leads, f is one of its peers and no further on in terms; both logs are well indexed. */
  ghost predicate Paired(l: NodeState, f: NodeState) {
    && l.role == Leader && l.leader.Some? && l.term >= f.term && (f.role == Leader ==> f.term < l.term)
    && WellIndexed(l.log) && WellIndexed(f.log)
    && 1 <= NextFor(l, f.id) <= |l.log| + 1
  }

  /** One attempt: build the request, let the follower answer, let the leader react. */
  function Probe(l: NodeState, f: NodeState, maxEntries: nat): (NodeState, NodeState, AppendReply)
    requires NextFor(l, f.id) >= 1
  {
    var req := BuildAppend(l, f.id, maxEntries);
    var (f', resp) := HandleAppend(AS_WRITTEN, f, req);
    (HandleAppendReply(l, f.id, req, resp), f', resp)
  }

  // ---------------------------------------------------------------- runs of equal terms

  /** The number of maximal runs of equal terms among the first k entries. */
  function Runs(f: Log, k: nat): nat
    requires k <= |f|
  {
    if k == 0 then 0
    else Runs(f, k - 1) + if k > 1 && f[k - 1].term == f[k - 2].term then 0 else 1
  }

  /** Walking back from p to before its run drops exactly one run. */
  lemma {:induction false} RunsDrop(f: Log, p: nat, t: nat)
    requires 1 <= p <= |f| && TermAt(f, p) == t
    ensures WalkBack(f, p, t) < p && Runs(f, WalkBack(f, p, t)) + 1 == Runs(f, p)
  {
    if p > 1 && TermAt(f, p - 1) == t {
      RunsDrop(f, p - 1, t);
    }
  }

  predicate Sorted(f: Log) {
    forall i, j :: 0 <= i < j < |f| ==> f[i].term <= f[j].term
  }

  ghost function Terms(f: Log, k: nat): set<nat>
    requires k <= |f|
  {
    set i | 0 <= i < k :: f[i].term
  }

  /** In a log with non-decreasing terms, runs and distinct terms are the same number. */
  lemma {:induction false} RunsAreTerms(f: Log, k: nat)
    requires k <= |f| && Sorted(f)
    ensures Runs(f, k) == |Terms(f, k)|
  {
    if k > 0 {
      RunsAreTerms(f, k - 1);
      var t := f[k - 1].term;
      if k > 1 && f[k - 2].term == t {
        assert Terms(f, k) == Terms(f, k - 1);
      } else {
        assert t !in Terms(f, k - 1);
        assert Terms(f, k) == Terms(f, k - 1) + {t};
      }
    }
  }

  // ---------------------------------------------------------------- rejections

  /** What is left to try: the attempt past the follower's end, and the runs below nextIndex. */
  function Budget(l: NodeState, f: NodeState): nat
    requires NextFor(l, f.id) >= 1
  {
    BudgetAt(f.log, NextFor(l, f.id) - 1)
  }

  function BudgetAt(f: Log, prev: nat): nat {
    if prev > |f| then 1 + Runs(f, |f|) else Runs(f, prev)
  }

  lemma BudgetDrops(f: Log, prev: nat, next: nat)
    requires prev > 0 && next == if prev > |f| then |f| + 1 else WalkBack(f, prev, TermAt(f, prev)) + 1
    ensures 1 <= next <= prev && BudgetAt(f, next - 1) + 1 == BudgetAt(f, prev)
  {
    if prev <= |f| {
      RunsDrop(f, prev, TermAt(f, prev));
    }
  }

  /**
   * A rejection changes neither log, leaves the leader in charge, strictly lowers nextIndex
   * but not below 1, and uses up one unit of the budget.
   */
  lemma RejectionProgress(l: NodeState, f: NodeState, maxEntries: nat)
    requires Paired(l, f) && !Probe(l, f, maxEntries).2.success
    ensures var (l', f', _) := Probe(l, f, maxEntries);
            && Paired(l', f') && f'.id == f.id && f'.log == f.log && l'.log == l.log
            && 1 <= NextFor(l', f.id) < NextFor(l, f.id)
            && Budget(l', f') + 1 == Budget(l, f)
  {
    var req := BuildAppend(l, f.id, maxEntries);
    var (l', f', resp) := Probe(l, f, maxEntries);
    RejectionHint(f, req);
    LeaderLowers(l, f.id, req, resp);
    Lowered(l, f, l', f', resp.conflictIndex);
  }

  lemma Lowered(l: NodeState, f: NodeState, l': NodeState, f': NodeState, next: nat)
    requires Paired(l, f) && NextFor(l, f.id) > 1
    requires f'.id == f.id && f'.log == f.log && f'.term == l.term && f'.role == Follower
    requires l'.role == Leader && l'.leader.Some? && l'.term == l.term && l'.log == l.log && NextFor(l', f.id) == next
    requires var prev := NextFor(l, f.id) - 1;
             next == if prev > |f.log| then |f.log| + 1 else WalkBack(f.log, prev, TermAt(f.log, prev)) + 1
    ensures Paired(l', f') && 1 <= next < NextFor(l, f.id) && Budget(l', f') + 1 == Budget(l, f)
  {
    BudgetDrops(f.log, NextFor(l, f.id) - 1, next);
  }

  lemma LeaderLowers(l: NodeState, p: NodeId, req: AppendRequest, resp: AppendReply)
    requires l.role == Leader && l.leader.Some? && resp.term == req.term == l.term && !resp.success
             && resp.conflictIndex > 0
    ensures var l' := HandleAppendReply(l, p, req, resp);
            && l'.role == Leader && l'.leader.Some? && l'.term == l.term && l'.log == l.log
               && NextFor(l', p) == resp.conflictIndex
  {
  }

  /** Where a rejection sends the leader: past the follower's end, or to the start of the run that disagrees. */
  lemma RejectionHint(f: NodeState, req: AppendRequest)
    requires req.term >= f.term && (f.role == Leader ==> f.term < req.term) && WellIndexed(f.log)
    requires !HandleAppend(AS_WRITTEN, f, req).1.success
    ensures var (f', resp) := HandleAppend(AS_WRITTEN, f, req); var prev := req.prevIndex;
            && f'.id == f.id && f'.log == f.log && f'.term == req.term && f'.role == Follower && resp.term == req.term
            && prev > 0
            && resp.conflictIndex == if prev > |f.log| then |f.log| + 1
               else WalkBack(f.log, prev, TermAt(f.log, prev)) + 1
  {
    CanonLast(f.log);
  }

  /** How many attempts are rejected before one succeeds. */
  function Rejections(l: NodeState, f: NodeState, maxEntries: nat): nat
    requires Paired(l, f)
    decreases NextFor(l, f.id)
  {
    if Probe(l, f, maxEntries).2.success then 0
    else
      RejectionProgress(l, f, maxEntries);
      1 + Rejections(Probe(l, f, maxEntries).0, Probe(l, f, maxEntries).1, maxEntries)
  }

  /** Whatever the two logs hold, the rejections are at most one more than the runs in the follower's log. */
  lemma RejectionsBounded(l: NodeState, f: NodeState, maxEntries: nat)
    requires Paired(l, f)
    ensures Rejections(l, f, maxEntries) <= Budget(l, f) <= 1 + Runs(f.log, |f.log|)
  {
    RejectionsInBudget(l, f, maxEntries);
    BudgetBounded(f.log, NextFor(l, f.id) - 1);
  }

  lemma {:induction false} RejectionsInBudget(l: NodeState, f: NodeState, maxEntries: nat)
    requires Paired(l, f)
    ensures Rejections(l, f, maxEntries) <= Budget(l, f)
    decreases NextFor(l, f.id)
  {
    var p := Probe(l, f, maxEntries);
    if !p.2.success {
      RejectionProgress(l, f, maxEntries);
      RejectionsInBudget(p.0, p.1, maxEntries);
    }
  }

  lemma BudgetBounded(f: Log, prev: nat)
    ensures BudgetAt(f, prev) <= 1 + Runs(f, |f|)
  {
    if prev <= |f| {
      RunsMonotone(f, prev, |f|);
    }
  }

  lemma {:induction false} RunsMonotone(f: Log, i: nat, j: nat)
    requires i <= j <= |f|
    ensures Runs(f, i) <= Runs(f, j)
  {
    if i < j { RunsMonotone(f, i, j - 1); }
  }

  /** For the logs Raft produces, whose terms never decrease, that is one more than its distinct terms. */
  lemma RejectionsWithinTerms(l: NodeState, f: NodeState, maxEntries: nat)
    requires Paired(l, f) && Sorted(f.log)
    ensures Rejections(l, f, maxEntries) <= 1 + |Terms(f.log, |f.log|)|
  {
    RejectionsBounded(l, f, maxEntries);
    RunsAreTerms(f.log, |f.log|);
  }

  // ---------------------------------------------------------------- success

  /** Same term at the same index means the same prefix, in the wire's view of the entries. */
  ghost predicate Matching(f: Log, l: Log) {
    forall i {:trigger MatchesAt(CanonAll(f), CanonAll(l), i)} :: MatchesAt(CanonAll(f), CanonAll(l), i)
  }

  ghost predicate MatchesAt(a: Log, b: Log, i: nat) {
    i < |a| && i < |b| && a[i].term == b[i].term ==> AgreeTo(a, b, i + 1)
  }

  lemma LeaderLearns(l: NodeState, p: NodeId, req: AppendRequest, resp: AppendReply)
    requires l.role == Leader && l.leader.Some? && resp.term == req.term == l.term && resp.success && req.entries != []
    ensures var l' := HandleAppendReply(l, p, req, resp);
            var sent := req.entries[|req.entries| - 1].index;
            l'.leader.Some? && Get(l'.leader.value.matchIndex, p) == sent && NextFor(l', p) == sent + 1
  {
  }

  /** An accepted request from a node of at least the follower's term leaves the merge as its log. */
  lemma AcceptedLog(f: NodeState, req: AppendRequest)
    requires WellIndexed(f.log) && Consecutive(req.entries, req.prevIndex) && HandleAppend(AS_WRITTEN, f, req).1.success
    ensures req.prevIndex <= |f.log| && (req.prevIndex > 0 ==> TermAt(f.log, req.prevIndex) == req.prevTerm)
    ensures HandleAppend(AS_WRITTEN, f, req).1.term == req.term
    ensures HandleAppend(AS_WRITTEN, f, req).0.log == Merge(f.log, req.entries, req.prevIndex)
  {
    CanonLast(f.log);
    ApplyEntriesIsMerge(f.log, req.entries, req.prevIndex);
  }

  /**
   * The first non-empty success leaves the follower equal to the leader through the last
   * entry sent, and the leader knowing exactly that, provided the logs satisfy log matching.
   */
  lemma SuccessSynchronises(l: NodeState, f: NodeState, maxEntries: nat)
    requires Paired(l, f) && Matching(f.log, l.log)
    requires Probe(l, f, maxEntries).2.success && BuildAppend(l, f.id, maxEntries).entries != []
    ensures var (l', f', _) := Probe(l, f, maxEntries);
            var sent := NextFor(l, f.id) - 1 + |BuildAppend(l, f.id, maxEntries).entries|;
            && sent <= |f'.log| && sent <= |l.log| && CanonAll(f'.log[..sent]) == CanonAll(l.log[..sent])
            && l'.leader.Some? && Get(l'.leader.value.matchIndex, f.id) == sent && NextFor(l', f.id) == sent + 1
  {
    FollowerCatchesUp(l, f, maxEntries);
    LeaderSeesIt(l, f, maxEntries);
  }

  lemma FollowerCatchesUp(l: NodeState, f: NodeState, maxEntries: nat)
    requires Paired(l, f) && Matching(f.log, l.log) && Probe(l, f, maxEntries).2.success
    ensures var f', req := Probe(l, f, maxEntries).1, BuildAppend(l, f.id, maxEntries);
            var sent := NextFor(l, f.id) - 1 + |req.entries|;
            sent <= |f'.log| && sent <= |l.log| && CanonAll(f'.log[..sent]) == CanonAll(l.log[..sent])
  {
    var req := BuildAppend(l, f.id, maxEntries);
    SentRequest(l, f.id, maxEntries);
    SuccessKeepsPaired(l, f, maxEntries);
    SuccessInStep(l, f, maxEntries);
    CaughtUpLog(f.log, l.log, req.prevIndex, req.entries);
  }

  lemma CaughtUpLog(f: Log, l: Log, prev: nat, es: seq<WireEntry>)
    requires WellIndexed(l) && Matching(f, l) && prev + |es| <= |l| && es == ToWireAll(l[prev..prev + |es|])
    requires prev <= |f| && AgreeTo(CanonAll(f), CanonAll(l), prev)
    ensures var r := Merge(f, es, prev);
            prev + |es| <= |r| && CanonAll(r[..prev + |es|]) == CanonAll(l[..prev + |es|])
  {
    MergedStaysMatching(f, l, prev, es);
    CanonPrefix(Merge(f, es, prev), prev + |es|);
    CanonPrefix(l, prev + |es|);
  }

  lemma LeaderSeesIt(l: NodeState, f: NodeState, maxEntries: nat)
    requires Paired(l, f) && Probe(l, f, maxEntries).2.success && BuildAppend(l, f.id, maxEntries).entries != []
    ensures var l', req := Probe(l, f, maxEntries).0, BuildAppend(l, f.id, maxEntries);
            var sent := NextFor(l, f.id) - 1 + |req.entries|;
            l'.leader.Some? && Get(l'.leader.value.matchIndex, f.id) == sent && NextFor(l', f.id) == sent + 1
  {
    var req := BuildAppend(l, f.id, maxEntries);
    SentRequest(l, f.id, maxEntries);
    AcceptedFollows(f, req);
    LeaderLearns(l, f.id, req, HandleAppend(AS_WRITTEN, f, req).1);
  }

  /** A request is a slice of the leader's log, and its entries carry the indices of that slice. */
  lemma SentRequest(l: NodeState, p: NodeId, maxEntries: nat)
    requires l.leader.Some? && WellIndexed(l.log) && 1 <= NextFor(l, p) <= |l.log| + 1
    ensures var req := BuildAppend(l, p, maxEntries); var prev, n := req.prevIndex, |req.entries|;
            && prev == NextFor(l, p) - 1 && prev + n <= |l.log| && req.entries == ToWireAll(l.log[prev..prev + n])
            && Consecutive(req.entries, prev) && (n > 0 ==> req.entries[n - 1].index == prev + n)
            && req.prevTerm == PrevTerm(l.log, prev) && req.term == l.term
  {
    var req := BuildAppend(l, p, maxEntries);
    BuildAppendSlice(l, p, maxEntries);
    SentSlice(l.log, req.prevIndex, l.log[req.prevIndex..req.prevIndex + |req.entries|]);
  }

  lemma PrefixChecked(f: Log, l: Log, prev: nat)
    requires prev <= |f| && prev <= |l| && (prev > 0 ==> TermAt(f, prev) == PrevTerm(l, prev))
    requires Matching(f, l)
    ensures AgreeTo(CanonAll(f), CanonAll(l), prev)
  {
    if prev > 0 {
      assert MatchesAt(CanonAll(f), CanonAll(l), prev - 1);
    }
  }

  // ---------------------------------------------------------------- the whole exchange

  datatype Pair = Pair(l: NodeState, f: NodeState)

  /** One attempt takes the leader and the follower from a to b. */
  predicate Attempted(a: Pair, b: Pair, maxEntries: nat) {
    NextFor(a.l, a.f.id) >= 1 && b.l == Probe(a.l, a.f, maxEntries).0 && b.f == Probe(a.l, a.f, maxEntries).1
  }

  /** Attempt after attempt. */
  ghost predicate Exchange(t: seq<Pair>, maxEntries: nat) {
    forall i {:trigger Attempted(t[i], t[i + 1], maxEntries)} :: 0 <= i < |t| - 1 ==>
        Attempted(t[i], t[i + 1], maxEntries)
  }

  lemma SuccessKeepsPaired(l: NodeState, f: NodeState, maxEntries: nat)
    requires Paired(l, f) && Probe(l, f, maxEntries).2.success
    ensures var (l', f', _) := Probe(l, f, maxEntries);
            && Paired(l', f') && f'.id == f.id && l'.log == l.log
            && NextFor(l', f.id) == NextFor(l, f.id) + |BuildAppend(l, f.id, maxEntries).entries|
            && f'.log == Merge(f.log, BuildAppend(l, f.id, maxEntries).entries, NextFor(l, f.id) - 1)
  {
    var req := BuildAppend(l, f.id, maxEntries);
    SentRequest(l, f.id, maxEntries);
    AcceptedLog(f, req);
    MergeWellIndexed(f.log, req.entries, req.prevIndex);
    AcceptedFollows(f, req);
    LeaderKeepsLeading(l, f.id, req, HandleAppend(AS_WRITTEN, f, req).1);
  }

  lemma AcceptedFollows(f: NodeState, req: AppendRequest)
    requires HandleAppend(AS_WRITTEN, f, req).1.success && (f.role == Leader ==> f.term < req.term)
    ensures var (r, resp) := HandleAppend(AS_WRITTEN, f, req);
            r.id == f.id && r.term == req.term && r.role == Follower && resp.term == req.term
  {
  }

  lemma LeaderKeepsLeading(l: NodeState, p: NodeId, req: AppendRequest, resp: AppendReply)
    requires l.role == Leader && l.leader.Some? && resp.term == req.term == l.term && resp.success
    ensures var l' := HandleAppendReply(l, p, req, resp);
            && l'.role == Leader && l'.leader.Some? && l'.term == l.term && l'.log == l.log
            && NextFor(l', p) == if req.entries == [] then NextFor(l, p) else req.entries[|req.entries| - 1].index + 1
  {
  }

  /** The follower agrees with the leader as far as the leader will not send again. */
  ghost predicate InStep(l: NodeState, f: NodeState) {
    && Paired(l, f) && Matching(f.log, l.log) && NextFor(l, f.id) - 1 <= |f.log|
    && AgreeTo(CanonAll(f.log), CanonAll(l.log), NextFor(l, f.id) - 1)
  }

  /** A success shows that they were in step. */
  lemma SuccessInStep(l: NodeState, f: NodeState, maxEntries: nat)
    requires Paired(l, f) && Matching(f.log, l.log) && Probe(l, f, maxEntries).2.success
    ensures InStep(l, f)
  {
    var req := BuildAppend(l, f.id, maxEntries);
    SentRequest(l, f.id, maxEntries);
    AcceptedLog(f, req);
    PrefixChecked(f.log, l.log, req.prevIndex);
  }

  /** From then on every attempt succeeds and brings the follower maxEntries further, or to the end. */
  lemma InStepAdvances(t: seq<Pair>, maxEntries: nat, i: nat)
    requires Exchange(t, maxEntries) && i + 1 < |t| && InStep(t[i].l, t[i].f)
    ensures InStep(t[i + 1].l, t[i + 1].f) && t[i + 1].f.id == t[i].f.id && t[i + 1].l.log == t[i].l.log
    ensures NextFor(t[i + 1].l, t[i].f.id) == Min(NextFor(t[i].l, t[i].f.id) + maxEntries, |t[i].l.log| + 1)
  {
    var es := Delivered(t, maxEntries, i);
    StillInStep(t[i], t[i + 1], NextFor(t[i].l, t[i].f.id) - 1, es);
  }

  lemma Delivered(t: seq<Pair>, maxEntries: nat, i: nat) returns (es: seq<WireEntry>)
    requires Exchange(t, maxEntries) && i + 1 < |t| && InStep(t[i].l, t[i].f)
    ensures var a, b := t[i], t[i + 1]; var prev := NextFor(a.l, a.f.id) - 1;
            && Paired(b.l, b.f) && b.f.id == a.f.id && b.l.log == a.l.log && NextFor(b.l, a.f.id) == prev + |es| + 1
            && |es| == Min(|a.l.log| - prev, maxEntries) && es == ToWireAll(a.l.log[prev..prev + |es|])
            && b.f.log == Merge(a.f.log, es, prev)
  {
    var a := t[i];
    assert Attempted(a, t[i + 1], maxEntries);
    var req := BuildAppend(a.l, a.f.id, maxEntries);
    es := req.entries;
    SentRequest(a.l, a.f.id, maxEntries);
    InStepAccepts(a.l, a.f, req);
    SuccessKeepsPaired(a.l, a.f, maxEntries);
    ToSendSlice(a.l.log, NextFor(a.l, a.f.id), maxEntries);
  }

  lemma StillInStep(a: Pair, b: Pair, prev: nat, es: seq<WireEntry>)
    requires InStep(a.l, a.f) && Paired(b.l, b.f) && b.f.id == a.f.id && b.l.log == a.l.log
    requires prev == NextFor(a.l, a.f.id) - 1 && NextFor(b.l, a.f.id) == prev + |es| + 1
    requires prev + |es| <= |a.l.log| && es == ToWireAll(a.l.log[prev..prev + |es|])
             && b.f.log == Merge(a.f.log, es, prev)
    ensures InStep(b.l, b.f)
  {
    MergedStaysMatching(a.f.log, a.l.log, prev, es);
  }

  lemma InStepAccepts(l: NodeState, f: NodeState, req: AppendRequest)
    requires InStep(l, f) && req.term == l.term && req.prevIndex == NextFor(l, f.id) - 1
    requires req.prevTerm == PrevTerm(l.log, req.prevIndex)
    ensures HandleAppend(AS_WRITTEN, f, req).1.success
  {
    ClusterRuns.AcceptsIs(AS_WRITTEN, f, req);
    CanonLast(f.log);
    if req.prevIndex > 0 {
      AgreeAt(CanonAll(f.log), CanonAll(l.log), req.prevIndex, req.prevIndex - 1);
    }
  }

  lemma MergedStaysMatching(f: Log, l: Log, prev: nat, es: seq<WireEntry>)
    requires WellIndexed(l) && Matching(f, l) && prev + |es| <= |l| && es == ToWireAll(l[prev..prev + |es|])
    requires prev <= |f| && AgreeTo(CanonAll(f), CanonAll(l), prev)
    ensures var r := Merge(f, es, prev);
            Matching(r, l) && prev + |es| <= |r| && AgreeTo(CanonAll(r), CanonAll(l), prev + |es|)
  {
    SentSlice(l, prev, l[prev..prev + |es|]);
    MergeMatching(f, es, prev, CanonAll(l));
    MergedMatches(CanonAll(f), CanonAll(l), prev + |es|, CanonAll(Merge(f, es, prev)));
  }

  lemma MergeMatching(f: Log, es: seq<WireEntry>, prev: nat, lead: Log)
    requires prev <= |f| && prev + |es| <= |lead| && Consecutive(es, prev) && AgreeTo(CanonAll(f), lead, prev)
    requires forall i :: 0 <= i < |es| ==> FromWire(es[i]) == lead[prev + i]
    requires forall i {:trigger MatchesAt(CanonAll(f), lead, i)} :: MatchesAt(CanonAll(f), lead, i)
    ensures Merged(CanonAll(f), lead, prev + |es|, CanonAll(Merge(f, es, prev)))
    ensures AgreeTo(CanonAll(Merge(f, es, prev)), lead, prev + |es|)
  {
    forall i | 0 <= i < |CanonAll(f)| && i < |lead| && CanonAll(f)[i].term == lead[i].term
      ensures AgreeTo(CanonAll(f), lead, i + 1)
    {
      assert MatchesAt(CanonAll(f), lead, i);
    }
    MergeRefines(f, es, prev, lead);
  }

  lemma MergedMatches(f: Log, l: Log, m: nat, r: Log)
    requires Merged(f, l, m, r)
    requires forall i {:trigger MatchesAt(f, l, i)} :: MatchesAt(f, l, i)
    ensures forall i {:trigger MatchesAt(r, l, i)} :: MatchesAt(r, l, i)
  {
    forall i: nat ensures MatchesAt(r, l, i) {
      assert MatchesAt(f, l, i);
      assert r != f && i < |r| && i < |l| ==> r == l[..m] && l[..m][..i + 1] == l[..i + 1];
    }
  }

  /** The follower holds the whole of this log. */
  predicate Completed(f: Log, l: Log) {
    |l| <= |f| && CanonAll(f[..|l|]) == CanonAll(l)
  }

  /** Going up by k, n times, from `prev` reaches `length`. */
  predicate Reaches(prev: nat, length: nat, k: nat, n: nat)
    decreases n
  {
    if n == 0 then prev >= length else Reaches(Min(prev + k, length), length, k, n - 1)
  }

  lemma {:induction false} ReachesIs(prev: nat, length: nat, k: nat, n: nat)
    requires prev <= length && prev + n * k >= length
    ensures Reaches(prev, length, k, n)
    decreases n
  {
    if n > 0 {
      assert n * k == k + (n - 1) * k;
      ReachesIs(Min(prev + k, length), length, k, n - 1);
    }
  }

  lemma {:induction false} InStepCompletes(t: seq<Pair>, maxEntries: nat, i: nat, k: nat)
    requires Exchange(t, maxEntries) && i <= k < |t| && InStep(t[i].l, t[i].f)
    requires Reaches(NextFor(t[i].l, t[i].f.id) - 1, |t[i].l.log|, maxEntries, k - i)
    ensures Completed(t[k].f.log, t[i].l.log)
    decreases k - i
  {
    if i == k {
      AtTheEnd(t[i].f.log, t[i].l.log);
    } else {
      InStepAdvances(t, maxEntries, i);
      InStepCompletes(t, maxEntries, i + 1, k);
    }
  }

  lemma AtTheEnd(f: Log, l: Log)
    requires AgreeTo(CanonAll(f), CanonAll(l), |l|)
    ensures Completed(f, l)
  {
    CanonPrefix(f, |l|);
    assert CanonAll(l)[..|l|] == CanonAll(l);
  }

  /** How many requests of at most maxEntries entries carry a log of this length. */
  function Rounds(length: nat, maxEntries: nat): nat
    requires maxEntries >= 1
  {
    (length + maxEntries - 1) / maxEntries
  }

  lemma RoundsEnough(length: nat, maxEntries: nat, n: nat)
    requires maxEntries >= 1 && n >= Rounds(length, maxEntries)
    ensures n * maxEntries >= length
  {
    var r := Rounds(length, maxEntries);
    assert r * maxEntries > length - 1;
    assert n * maxEntries >= r * maxEntries;
  }

  lemma RejectedFirst(a: Pair, b: Pair, maxEntries: nat)
    requires Paired(a.l, a.f) && Attempted(a, b, maxEntries) && !Probe(a.l, a.f, maxEntries).2.success
    ensures Paired(b.l, b.f) && b.f.id == a.f.id && b.f.log == a.f.log && b.l.log == a.l.log
    ensures NextFor(b.l, a.f.id) < NextFor(a.l, a.f.id)
    ensures Rejections(a.l, a.f, maxEntries) == 1 + Rejections(b.l, b.f, maxEntries)
  {
    RejectionProgress(a.l, a.f, maxEntries);
  }

  /**
   * Given log matching, the exchange leaves the follower with the leader's whole log after as
   * many attempts as there are rejections, plus the requests it takes to carry the log, and keeps it so.
   */
  lemma ExchangeCompletes(t: seq<Pair>, maxEntries: nat, n: nat)
    requires Exchange(t, maxEntries) && n < |t| && maxEntries >= 1
    requires Paired(t[0].l, t[0].f) && Matching(t[0].f.log, t[0].l.log)
    requires n >= Rejections(t[0].l, t[0].f, maxEntries) + Rounds(|t[0].l.log|, maxEntries)
    ensures Completed(t[n].f.log, t[0].l.log)
  {
    var r := Rounds(|t[0].l.log|, maxEntries);
    RoundsEnough(|t[0].l.log|, maxEntries, r);
    ReachesIs(0, |t[0].l.log|, maxEntries, r);
    ExchangeReaches(t, maxEntries, 0, n, r);
  }

  lemma {:induction false} ExchangeReaches(t: seq<Pair>, maxEntries: nat, i: nat, k: nat, r: nat)
    requires Exchange(t, maxEntries) && i <= k < |t| && Paired(t[i].l, t[i].f) && Matching(t[i].f.log, t[i].l.log)
    requires Reaches(0, |t[i].l.log|, maxEntries, r) && k - i >= Rejections(t[i].l, t[i].f, maxEntries) + r
    ensures Completed(t[k].f.log, t[i].l.log)
    decreases k - i
  {
    if Probe(t[i].l, t[i].f, maxEntries).2.success {
      ReachesFromHere(t[i].l, t[i].f, maxEntries, r, k - i);
      InStepCompletes(t, maxEntries, i, k);
    } else {
      assert Attempted(t[i], t[i + 1], maxEntries);
      RejectedFirst(t[i], t[i + 1], maxEntries);
      ExchangeReaches(t, maxEntries, i + 1, k, r);
    }
  }

  lemma ReachesFromHere(l: NodeState, f: NodeState, maxEntries: nat, r: nat, n: nat)
    requires Paired(l, f) && Matching(f.log, l.log) && Probe(l, f, maxEntries).2.success
    requires Reaches(0, |l.log|, maxEntries, r) && r <= n
    ensures InStep(l, f) && Reaches(NextFor(l, f.id) - 1, |l.log|, maxEntries, n)
  {
    SuccessInStep(l, f, maxEntries);
    ReachesMore(0, NextFor(l, f.id) - 1, |l.log|, maxEntries, r, n);
  }

  lemma {:induction false} ReachesMore(prev: nat, prev': nat, length: nat, k: nat, n: nat, n': nat)
    requires Reaches(prev, length, k, n) && prev <= prev' && n <= n'
    ensures Reaches(Min(prev', length), length, k, n')
    decreases n'
  {
    if n > 0 {
      ReachesMore(Min(prev + k, length), Min(prev' + k, length), length, k, n - 1, n' - 1);
    } else if n' > 0 {
      ReachesMore(prev, prev' + k, length, k, 0, n' - 1);
    }
  }
}
