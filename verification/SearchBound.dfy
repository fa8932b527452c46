/** Two more facts about the search state: the pairs it can ever enter are finitely many, and
    the operations on its stack are a real partial linearization. */
module SearchBound {
  import opened Linearizability
  import opened Search

  /** Any function from pairs to pairs that keeps them and adds what one more operation
      makes of each. */
  ghost predicate Widens<S(!new)>(f: set<(set<nat>, S)> -> set<(set<nat>, S)>, effect: (S, nat) -> S, n: nat) {
    && (forall s {:trigger f(s)} :: s <= f(s))
    && (forall s: set<(set<nat>, S)>, p: (set<nat>, S), i: nat {:trigger f(s), p in s, effect(p.1, i)} ::
          p in s && i < n ==> (p.0 + {i}, effect(p.1, i)) in f(s))
  }

  lemma SomeWidens<S(!new)>(effect: (S, nat) -> S, n: nat) returns (f: set<(set<nat>, S)> -> set<(set<nat>, S)>)
    ensures Widens(f, effect, n)
  {
    f := (s: set<(set<nat>, S)>) => s + set p, i | p in s && i in Ids(n) :: (p.0 + {i}, effect(p.1, i));
    forall s: set<(set<nat>, S)>, p: (set<nat>, S), i: nat | p in s && i < n ensures (p.0 + {i}, effect(p.1, i)) in f(s) {
      assert i in Ids(n);
    }
  }

  ghost function Iterate<T(!new)>(f: set<T> -> set<T>, start: set<T>, k: nat): set<T> {
    if k == 0 then start else f(Iterate(f, start, k - 1))
  }

  lemma {:induction false} IterateGrows<T(!new)>(f: set<T> -> set<T>, start: set<T>, a: nat, b: nat)
    requires a <= b && forall s {:trigger f(s)} :: s <= f(s)
    ensures Iterate(f, start, a) <= Iterate(f, start, b)
  {
    if a < b {
      IterateGrows(f, start, a, b - 1);
      assert Iterate(f, start, b - 1) <= f(Iterate(f, start, b - 1));
    }
  }

  /** The state after operation i, allowed or not. */
  ghost function Effect<S, V>(m: Model<S, V>, hist: seq<Entry<V>>, n: nat, s: S, i: nat): S
    requires WellFormed(hist, n)
  {
    if i < n then Perform(m, hist, s, i).1 else s
  }

  /** Level j of the search is among the pairs widened j times. */
  lemma {:induction false} LevelReached<S(!new), V>(m: Model<S, V>, hist: seq<Entry<V>>, n: nat, d: Dfs<S>, j: nat,
                                                     effect: (S, nat) -> S, f: set<(set<nat>, S)> -> set<(set<nat>, S)>)
    requires WellFormed(hist, n) && StackOk(m, hist, n, d) && j <= |d.stack|
    requires Widens(f, effect, n) && forall s, i: nat :: effect(s, i) == Effect(m, hist, n, s, i)
    ensures Level(d, j) in Iterate(f, {({}, m.init)}, j)
  {
    if j == 0 {
      assert Level(d, 0) == ({}, m.init);
    } else {
      LevelReached(m, hist, n, d, j - 1, effect, f);
      assert FrameOk(m, hist, n, d, j - 1);
      var p, i := Level(d, j - 1), d.stack[j - 1].op;
      assert effect(p.1, i) == Perform(m, hist, p.1, i).1;
    }
  }

  lemma StackFits<S, V>(m: Model<S, V>, hist: seq<Entry<V>>, n: nat, d: Dfs<S>)
    requires WellFormed(hist, n) && StackOk(m, hist, n, d) && d.done <= Ids(n)
    ensures |d.stack| <= n && (d.done != Ids(n) ==> |d.stack| < n)
  {
    IdsSize(n);
    assert |Level(d, |d.stack|).0| == |d.stack|;
    assert |Ids(n) - d.done| == |Ids(n)| - |d.done|;
  }

  ghost predicate Enters<S, V>(m: Model<S, V>, hist: seq<Entry<V>>, n: nat, d: Dfs<S>, i: nat)
    requires WellFormed(hist, n)
  {
    StackOk(m, hist, n, d) && d.done <= Ids(n) && i < n && i !in d.done
  }

  /** `all` has every pair that any push of the search can enter. */
  ghost predicate HasEvery<S(!new), V>(m: Model<S, V>, hist: seq<Entry<V>>, n: nat, all: set<(set<nat>, S)>)
    requires WellFormed(hist, n)
  {
    forall d: Dfs<S>, i: nat {:trigger Enters(m, hist, n, d, i)} :: Enters(m, hist, n, d, i) ==>
      (d.done + {i}, Perform(m, hist, d.state, i).1) in all
  }

  /** The pairs the search can ever enter are finitely many. */
  lemma FinitelyMany<S(!new), V(!new)>(m: Model<S, V>, hist: seq<Entry<V>>, n: nat) returns (all: set<(set<nat>, S)>)
    requires WellFormed(hist, n)
    ensures HasEvery(m, hist, n, all)
  {
    var effect: (S, nat) -> S := (s: S, i: nat) => if WellFormed(hist, n) then Effect(m, hist, n, s, i) else s;
    var f := SomeWidens(effect, n);
    var start := {({}, m.init)};
    all := Iterate(f, start, n);
    forall d: Dfs<S>, i: nat | Enters(m, hist, n, d, i) ensures (d.done + {i}, Perform(m, hist, d.state, i).1) in all {
      assert i in Ids(n);
      StackFits(m, hist, n, d);
      LevelReached(m, hist, n, d, |d.stack|, effect, f);
      var p := Level(d, |d.stack|);
      assert (p.0 + {i}, effect(p.1, i)) in f(Iterate(f, start, |d.stack|));
      IterateGrows(f, start, |d.stack| + 1, n);
    }
  }

  // ---------------------------------------------------------------- the stack

  lemma {:induction false} LevelsGrow<S, V>(m: Model<S, V>, hist: seq<Entry<V>>, n: nat, d: Dfs<S>, a: nat, b: nat)
    requires WellFormed(hist, n) && StackOk(m, hist, n, d) && a <= b <= |d.stack|
    ensures Level(d, a).0 <= Level(d, b).0
    decreases b
  {
    if a < b {
      LevelsGrow(m, hist, n, d, a, b - 1);
      assert FrameOk(m, hist, n, d, b - 1);
    }
  }

  /** Each operation on the stack was left to do below, and is done above. */
  lemma OpDone<S, V>(m: Model<S, V>, hist: seq<Entry<V>>, n: nat, d: Dfs<S>, j: nat, b: nat)
    requires WellFormed(hist, n) && StackOk(m, hist, n, d) && j < b <= |d.stack|
    ensures d.stack[j].op < n && d.stack[j].op !in d.stack[j].done && d.stack[j].op in Level(d, b).0
  {
    assert FrameOk(m, hist, n, d, j);
    LevelsGrow(m, hist, n, d, j + 1, b);
  }

  /** A partial linearization through operation i: legal from the first state, and closed
      under what came before in time. */
  ghost predicate IsPartial<S, V>(m: Model<S, V>, hist: seq<Entry<V>>, n: nat, i: nat, order: seq<nat>)
    requires WellFormed(hist, n)
  {
    && i in order && Distinct(order) && (forall k :: 0 <= k < |order| ==> order[k] < n)
    && (forall b, x: nat :: 0 <= b < |order| && Before(hist, n, x, order[b]) ==> x in order[..b])
    && Known(hist, order) && Legal(m, hist, m.init, order)
  }

  lemma {:induction false} LevelDone<S, V>(m: Model<S, V>, hist: seq<Entry<V>>, n: nat, d: Dfs<S>, j: nat)
    requires WellFormed(hist, n) && StackOk(m, hist, n, d) && j <= |d.stack|
    ensures Level(d, j).0 == Elements(Ops(d.stack)[..j])
  {
    if j > 0 {
      LevelDone(m, hist, n, d, j - 1);
      assert FrameOk(m, hist, n, d, j - 1);
      assert Ops(d.stack)[..j] == Ops(d.stack)[..j - 1] + [d.stack[j - 1].op];
    }
  }

  lemma StackKnown<S, V>(m: Model<S, V>, hist: seq<Entry<V>>, n: nat, d: Dfs<S>, j: nat)
    requires WellFormed(hist, n) && StackOk(m, hist, n, d) && j <= |d.stack|
    ensures Known(hist, Ops(d.stack)[j..])
  {
    forall k | 0 <= k < |d.stack| - j ensures Paired(hist, Ops(d.stack)[j..][k]) {
      assert FrameOk(m, hist, n, d, j + k);
    }
  }

  lemma {:induction false} StackLegal<S, V>(m: Model<S, V>, hist: seq<Entry<V>>, n: nat, d: Dfs<S>, j: nat)
    requires WellFormed(hist, n) && StackOk(m, hist, n, d) && j <= |d.stack|
    ensures Known(hist, Ops(d.stack)[j..]) && Legal(m, hist, Level(d, j).1, Ops(d.stack)[j..])
    decreases |d.stack| - j
  {
    StackKnown(m, hist, n, d, j);
    if j < |d.stack| {
      StackLegal(m, hist, n, d, j + 1);
      assert FrameOk(m, hist, n, d, j);
      assert Ops(d.stack)[j..][1..] == Ops(d.stack)[j + 1..];
    }
  }

  /** What the search records of its stack is a real partial linearization. */
  lemma StackIsPartial<S, V>(m: Model<S, V>, hist: seq<Entry<V>>, n: nat, d: Dfs<S>, i: nat)
    requires WellFormed(hist, n) && StackOk(m, hist, n, d) && i in Ops(d.stack)
    ensures IsPartial(m, hist, n, i, Ops(d.stack))
  {
    var order := Ops(d.stack);
    StackLegal(m, hist, n, d, 0);
    assert order[0..] == order;
    forall b | 0 <= b < |order| ensures order[b] < n && order[b] !in order[..b] {
      assert FrameOk(m, hist, n, d, b);
      LevelDone(m, hist, n, d, b);
      assert order[b] !in Elements(order[..b]);
    }
    forall a, b | 0 <= a < b < |order| ensures order[a] != order[b] {
      assert order[..b][a] == order[a];
    }
    forall b, x: nat | 0 <= b < |order| && Before(hist, n, x, order[b]) ensures x in order[..b] {
      assert FrameOk(m, hist, n, d, b);
      LevelDone(m, hist, n, d, b);
      assert x in Elements(order[..b]);
    }
  }
}
