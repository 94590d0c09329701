/** How a leader picks its commit index: the arithmetic of pkg/raft/commit.go. */
module CommitRule {
  import opened RaftTypes
  import opened Logs

  // ---------------------------------------------------------------- descending sort

  function InsertDescending(s: seq<nat>, x: nat): seq<nat> {
    if s == [] then [x]
    else if x >= s[0] then [x] + s
    else [s[0]] + InsertDescending(s[1..], x)
  }

  /** sort.Slice with the order reversed. */
  function SortDescending(s: seq<nat>): seq<nat> {
    if s == [] then [] else InsertDescending(SortDescending(s[1..]), s[0])
  }

  predicate Descending(s: seq<nat>) {
    forall i, j :: 0 <= i < j < |s| ==> s[i] >= s[j]
  }

  function CountAtLeast(s: seq<nat>, x: nat): nat {
    if s == [] then 0 else (if s[0] >= x then 1 else 0) + CountAtLeast(s[1..], x)
  }

  lemma {:induction false} InsertDescendingSorted(s: seq<nat>, x: nat)
    requires Descending(s)
    ensures var r := InsertDescending(s, x);
            |r| == |s| + 1 && Descending(r) && r[0] == if s == [] then x else Max(x, s[0])
  {
    if s != [] && x < s[0] {
      InsertDescendingSorted(s[1..], x);
      var t := InsertDescending(s[1..], x);
      assert forall j :: 0 <= j < |t| ==> t[j] <= t[0];
    }
  }

  lemma {:induction false} InsertDescendingCount(s: seq<nat>, x: nat, y: nat)
    ensures CountAtLeast(InsertDescending(s, x), y) == CountAtLeast(s, y) + if x >= y then 1 else 0
  {
    if s != [] && x < s[0] {
      InsertDescendingCount(s[1..], x, y);
    }
  }

  /** Sorting orders the sequence and keeps, for every bound, how many elements reach it. */
  lemma {:induction false} SortDescendingIs(s: seq<nat>, y: nat)
    ensures var r := SortDescending(s);
            Descending(r) && |r| == |s| && CountAtLeast(r, y) == CountAtLeast(s, y)
  {
    if s != [] {
      SortDescendingIs(s[1..], y);
      InsertDescendingSorted(SortDescending(s[1..]), s[0]);
      InsertDescendingCount(SortDescending(s[1..]), s[0], y);
    }
  }

  /** In a descending sequence, position k is at least x exactly when k+1 elements are. */
  lemma {:induction false} CountDescending(s: seq<nat>, k: nat, x: nat)
    requires Descending(s) && k < |s|
    ensures s[k] >= x <==> CountAtLeast(s, x) >= k + 1
  {
    if k > 0 {
      CountDescending(s[1..], k - 1, x);
    }
    if s[0] < x {
      NoneAtLeast(s, x);
    }
  }

  lemma {:induction false} NoneAtLeast(s: seq<nat>, x: nat)
    requires forall i :: 0 <= i < |s| ==> s[i] < x
    ensures CountAtLeast(s, x) == 0
  {
    if s != [] {
      NoneAtLeast(s[1..], x);
    }
  }

  // ---------------------------------------------------------------- majority match

  /** Position (n-1)/2 of the match indices of the n nodes, sorted downwards. */
  function MajorityMatch(matches: seq<nat>): nat
    requires matches != []
  {
    SortDescendingIs(matches, 0);
    SortDescending(matches)[(|matches| - 1) / 2]
  }

  /**
   * The order statistic: an index is at or below the majority match exactly when at least
   * (n-1)/2 + 1 nodes have reached it.
   */
  lemma MajorityMatchIs(matches: seq<nat>, x: nat)
    requires matches != []
    ensures x <= MajorityMatch(matches) <==> CountAtLeast(matches, x) >= (|matches| - 1) / 2 + 1
  {
    SortDescendingIs(matches, x);
    CountDescending(SortDescending(matches), (|matches| - 1) / 2, x);
  }

  /** That threshold is the documented quorum n/2 + 1 exactly for odd n. */
  lemma CommitThreshold(n: nat)
    requires n >= 1
    ensures (n - 1) / 2 + 1 == n / 2 + 1 <==> n % 2 == 1
    ensures n % 2 == 0 ==> (n - 1) / 2 + 1 == n / 2
  {
  }

  // ---------------------------------------------------------------- the scan

  /** The downward loop of tryAdvanceCommitIndex. */
  function ScanDown(l: Log, term: nat, commit: nat, n: nat): nat {
    if n > commit then
      if TermAt(l, n) == term then n else ScanDown(l, term, commit, n - 1)
    else
      commit
  }

  /** The scan finds the largest index in (commit, n] with an entry of `term`, or keeps `commit`. */
  lemma {:induction false} ScanDownIs(l: Log, term: nat, commit: nat, n: nat)
    ensures var r := ScanDown(l, term, commit, n);
            && commit <= r
            && (r > commit ==> r <= n && TermAt(l, r) == term)
            && (forall k :: r < k <= n ==> TermAt(l, k) != term)
  {
    if n > commit && TermAt(l, n) != term {
      ScanDownIs(l, term, commit, n - 1);
    }
  }

  /** May a leader of `term` commit x? The condition stated at the head of commit.go. */
  predicate Committable(l: Log, term: nat, commit: nat, matches: seq<nat>, x: nat) {
    && x > commit && TermAt(l, x) == term
    && CountAtLeast(matches, x) >= (|matches| - 1) / 2 + 1
  }

  /** The leader's new commit index is the largest committable one, or the old one if none is. */
  lemma AdvanceIsLargestCommittable(l: Log, term: nat, commit: nat, matches: seq<nat>)
    requires matches != []
    ensures var r := ScanDown(l, term, commit, MajorityMatch(matches));
            && (r == commit || Committable(l, term, commit, matches, r))
            && (forall x: nat :: Committable(l, term, commit, matches, x) ==> x <= r)
  {
    var m := MajorityMatch(matches);
    var r := ScanDown(l, term, commit, m);
    ScanDownIs(l, term, commit, m);
    MajorityMatchIs(matches, r);
    forall x: nat | Committable(l, term, commit, matches, x) ensures x <= r {
      MajorityMatchIs(matches, x);
    }
  }
}
