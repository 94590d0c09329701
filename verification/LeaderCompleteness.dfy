/** Leader completeness and state machine safety, read off the invariant of one state. */
module LeaderCompleteness {
  import opened RaftTypes
  import Sets
  import opened Logs
  import opened Protocol

  lemma Overlap(q: Quorums, a: set<NodeId>, b: set<NodeId>) returns (x: NodeId)
    requires a <= q.servers && b <= q.servers && |a| + |b| > |q.servers|
    ensures x in a && x in b
  {
    if a !! b {
      assert |a + b| == |a| + |b|;
      Sets.SubsetSize(a + b, q.servers);
      assert false;
    }
    x :| x in a && x in b;
  }

  /** The voter's log at its ballot still holds the committed prefix. */
  lemma VoterHolds(q: Quorums, n: Nodes, h: History, c: Commit, t: nat, u: NodeId)
    requires Inv(q, n, h) && c in h.commits && t in h.elections && c.term < t
    requires u in c.quorum && u in h.elections[t].voters && c.term in h.elections
    requires forall s :: s in h.elections && c.term < s < t ==>
             AgreeTo(h.elections[s].log, h.elections[c.term].log, c.index)
    ensures (u, t) in h.ballots
    ensures AgreeTo(h.ballots[(u, t)].log, h.elections[c.term].log, c.index)
  {
    assert CommitOk(q, h, c);
    assert Acked(h, u, c.term, c.index);
    assert VotersOk(h, t) && VoterOk(h, u, t);
    var l := h.ballots[(u, t)].log;
    assert KeptAll(h, l, u, c.term, t - 1);
    assert Kept(h, l, c.term, c.index, t - 1);
    if Overridden(h, c.term, c.index, t - 1) {
      var s :| s in h.elections && c.term < s <= t - 1
          && Conflict(h.elections[s].log, h.elections[c.term].log, c.index);
      AgreeRefutesConflict(h.elections[s].log, h.elections[c.term].log, c.index);
      assert false;
    }
  }

  /** Case 1: the winner's last entry has the voter's last term, and its log is as long. */
  lemma WinnerSameTerm(h: History, b: Log, l: Log, good: Log, k: nat)
    requires Grounded(h, b) && Grounded(h, l) && AgreeTo(l, good, k)
    requires 1 <= |l| <= |b| && LastTerm(b) == LastTerm(l)
    ensures AgreeTo(b, good, k)
  {
    assert GroundedAt(h, b, |b| - 1) && GroundedAt(h, l, |l| - 1);
    var e := h.elections[LastTerm(b)].log;
    assert b[..|b|] == b && l[..|l|] == l;
    assert AgreeTo(b, e, |b|) && AgreeTo(l, e, |l|);
    AgreeLess(b, e, |b|, |l|);
    AgreeChain(l, e, b, |l|);
    AgreeLess(l, b, |l|, k);
    AgreeChain(b, l, good, k);
  }

  /** Case 2: the winner's last entry comes from a leader whose base already had the prefix. */
  lemma WinnerLaterTerm(q: Quorums, n: Nodes, h: History, b: Log, good: Log, k: nat)
    requires ElectionsOk(q, h) && CampaignsOk(n, h) && Grounded(h, b) && |b| >= 1
    requires LastTerm(b) in h.elections && AgreeTo(h.elections[LastTerm(b)].base, good, k)
    ensures AgreeTo(b, good, k)
  {
    var s := LastTerm(b);
    var e := h.elections[s];
    assert GroundedAt(h, b, |b| - 1);
    assert ElectionOk(q, h, s);
    ElectionLog(q, n, h, s);
    assert b[..|b|] == b;
    assert AgreeTo(b, e.log, |b|);
    AgreeAt(b, e.log, |b|, |b| - 1);
    assert |b| > |e.base|;
    assert e.log[..k] == e.base[..k];
    AgreeLess(b, e.log, |b|, k);
  }

  /** A log at least as up-to-date as a holder of the prefix holds it too. */
  lemma WinnerHolds(q: Quorums, n: Nodes, h: History, b: Log, l: Log, good: Log, k: nat, t: nat)
    requires ElectionsOk(q, h) && CampaignsOk(n, h)
    requires Grounded(h, b) && TermsBelow(b, t) && Grounded(h, l) && UpToDate(b, l)
    requires 1 <= k && AgreeTo(l, good, k) && 1 <= good[k - 1].term
    requires forall s :: s in h.elections && good[k - 1].term < s < t ==> AgreeTo(h.elections[s].base, good, k)
    ensures AgreeTo(b, good, k)
  {
    AgreeAt(l, good, k, k - 1);
    TermsSorted(q, n, h, l, k - 1, |l| - 1);
    if LastTerm(b) == LastTerm(l) {
      WinnerSameTerm(h, b, l, good, k);
    } else {
      assert GroundedAt(h, b, |b| - 1);
      WinnerLaterTerm(q, n, h, b, good, k);
    }
  }

  /**
   * Leader completeness: whatever a leader of a term committed is in the log with
   * which every leader of every later term was elected.
   */
  lemma {:induction false} CommittedInBase(q: Quorums, n: Nodes, h: History, c: Commit, t: nat)
    requires Inv(q, n, h) && c in h.commits && t in h.elections && c.term < t
    ensures c.term in h.elections && AgreeTo(h.elections[t].base, h.elections[c.term].log, c.index)
    decreases t
  {
    assert CommitOk(q, h, c);
    forall s | s in h.elections && c.term < s < t
      ensures AgreeTo(h.elections[s].base, h.elections[c.term].log, c.index)
      ensures AgreeTo(h.elections[s].log, h.elections[c.term].log, c.index)
    {
      CommittedInBase(q, n, h, c, s);
      assert ElectionOk(q, h, s);
      AgreeExtends(h.elections[s].base, h.elections[s].log, h.elections[c.term].log, c.index);
    }
    assert ElectionOk(q, h, t);
    var u := Overlap(q, h.elections[t].voters, c.quorum);
    VoterHolds(q, n, h, c, t, u);
    assert BallotOk(n, h, u, t);
    assert CampaignOk(n, h, h.elections[t].leader, t) && ElectionOk(q, h, c.term);
    WinnerHolds(q, n, h, h.elections[t].base, h.ballots[(u, t)].log, h.elections[c.term].log, c.index, t);
  }

  /** The same for the whole log of every leader of the same or a later term. */
  lemma CommittedInLog(q: Quorums, n: Nodes, h: History, c: Commit, t: nat)
    requires Inv(q, n, h) && c in h.commits && t in h.elections && c.term <= t
    ensures c.term in h.elections && AgreeTo(h.elections[t].log, h.elections[c.term].log, c.index)
  {
    assert CommitOk(q, h, c);
    var good := h.elections[c.term].log;
    if c.term < t {
      CommittedInBase(q, n, h, c, t);
      assert h.elections[t].base <= h.elections[t].log by { assert ElectionOk(q, h, t); }
      AgreeExtends(h.elections[t].base, h.elections[t].log, good, c.index);
    } else {
      assert AgreeTo(good, good, c.index);
    }
  }

  /** Two committed points agree wherever both reach. */
  lemma CommitsAgree(q: Quorums, n: Nodes, h: History, c: Commit, d: Commit, m: nat)
    requires Inv(q, n, h) && c in h.commits && d in h.commits && m <= c.index && m <= d.index
    ensures c.term in h.elections && d.term in h.elections
    ensures AgreeTo(h.elections[c.term].log, h.elections[d.term].log, m)
  {
    assert CommitOk(q, h, c) && CommitOk(q, h, d);
    var x, y := h.elections[c.term].log, h.elections[d.term].log;
    if c.term <= d.term {
      CommittedInLog(q, n, h, c, d.term);
      AgreeLess(y, x, c.index, m);
    } else {
      CommittedInLog(q, n, h, d, c.term);
      AgreeLess(x, y, d.index, m);
    }
  }

  /** Two prefixes known committed agree wherever both reach. */
  lemma KnownAgree(q: Quorums, n: Nodes, h: History, bound: nat, a: Log, j: nat, bound': nat, b: Log, k: nat)
    requires Inv(q, n, h) && Known(h, bound, a, j) && Known(h, bound', b, k)
    requires 1 <= j && 1 <= k
    ensures AgreeTo(a, b, Min(j, k))
  {
    var c :| Backs(h, c, bound, a, j);
    var d :| Backs(h, d, bound', b, k);
    var m := Min(j, k);
    CommitsAgree(q, n, h, c, d, m);
    AgreeLess(a, h.elections[c.term].log, j, m);
    AgreeLess(b, h.elections[d.term].log, k, m);
  }
}
