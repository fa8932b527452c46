/** Majorities of the peers 0..n. */
module Quorums {
  predicate Majority(q: set<nat>, n: nat) {
    |q| > n / 2 && forall v :: v in q ==> v < n
  }

  lemma {:induction false} BoundedSize(q: set<nat>, n: nat)
    requires forall v :: v in q ==> v < n
    ensures |q| <= n
  {
    if n == 0 {
      assert q == {};
    } else {
      BoundedSize(q - {n - 1}, n - 1);
      assert q <= (q - {n - 1}) + {n - 1};
      assert |q| <= |q - {n - 1}| + 1;
    }
  }

  /** Two majorities share a member. */
  lemma Intersect(a: set<nat>, b: set<nat>, n: nat) returns (v: nat)
    requires Majority(a, n) && Majority(b, n)
    ensures v in a && v in b && v < n
  {
    BoundedSize(a + b, n);
    assert |a + b| + |a * b| == |a| + |b|;
    assert a * b != {};
    v :| v in a * b;
  }

  lemma SubsetSize(a: set<nat>, b: set<nat>)
    requires a <= b
    ensures |a| <= |b|
  {
    assert b == a + (b - a);
  }
}
