/** Counting subsets, for quorum arguments. */
module Sets {
  import opened RaftTypes

  lemma {:induction false} SubsetSize(a: set<NodeId>, b: set<NodeId>)
    requires a <= b
    ensures |a| <= |b|
  {
    if a != {} {
      var x :| x in a;
      SubsetSize(a - {x}, b - {x});
    }
  }

  lemma {:induction false} PickSome(s: set<NodeId>, m: nat) returns (t: set<NodeId>)
    requires m <= |s|
    ensures t <= s && |t| == m
  {
    if m == 0 {
      t := {};
    } else {
      var x :| x in s;
      var t' := PickSome(s - {x}, m - 1);
      t := t' + {x};
    }
  }
}
