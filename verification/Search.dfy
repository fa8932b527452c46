/** The backtracking search for a linearization, on values: which partial orders lead on,
    and the invariant that makes pruning by memory sound.  `CheckSingle` runs it on linked
    entries. */
module Search {
  import opened Linearizability

  /** Operation i may come next: it is not done, and nothing left to do precedes it. */
  ghost predicate Minimal<V>(hist: seq<Entry<V>>, n: nat, done: set<nat>, i: nat)
    requires WellFormed(hist, n)
  {
    i < n && i !in done && forall x: nat :: x < n && x !in done ==> !Before(hist, n, x, i)
  }

  ghost predicate Before<V>(hist: seq<Entry<V>>, n: nat, a: nat, b: nat)
    requires WellFormed(hist, n)
  {
    a < n && b < n && Precedes(hist, a, b)
  }

  /** `order` finishes what `done` has left, from `state`. */
  ghost predicate Finishes<S, V>(m: Model<S, V>, hist: seq<Entry<V>>, n: nat, done: set<nat>, state: S, order: seq<nat>)
    requires WellFormed(hist, n)
    decreases |order|
  {
    if |order| == 0 then forall i: nat :: i < n ==> i in done
    else
      && Minimal(hist, n, done, order[0])
      && Perform(m, hist, state, order[0]).0
      && Finishes(m, hist, n, done + {order[0]}, Perform(m, hist, state, order[0]).1, order[1..])
  }

  /** No order finishes what is left. */
  ghost predicate Dead<S, V>(m: Model<S, V>, hist: seq<Entry<V>>, n: nat, done: set<nat>, state: S)
    requires WellFormed(hist, n)
  {
    forall order :: !Finishes(m, hist, n, done, state, order)
  }

  /** Taking operation i next leads nowhere. */
  ghost predicate Failed<S, V>(m: Model<S, V>, hist: seq<Entry<V>>, n: nat, done: set<nat>, state: S, i: nat)
    requires WellFormed(hist, n) && i < n
  {
    var (ok, next) := Perform(m, hist, state, i);
    ok ==> Dead(m, hist, n, done + {i}, next)
  }

  /** If every operation that may come next leads nowhere, and something is left, all is lost. */
  lemma AllFailed<S, V>(m: Model<S, V>, hist: seq<Entry<V>>, n: nat, done: set<nat>, state: S, left: nat)
    requires WellFormed(hist, n) && left < n && left !in done
    requires forall i: nat :: Minimal(hist, n, done, i) ==> Failed(m, hist, n, done, state, i)
    ensures Dead(m, hist, n, done, state)
  {
    forall order ensures !Finishes(m, hist, n, done, state, order) {
      if |order| > 0 && Minimal(hist, n, done, order[0]) {
        assert Failed(m, hist, n, done, state, order[0]);
      }
    }
  }

  // ---------------------------------------------------------------- the two readings agree

  /** The declarative form of Finishes. */
  ghost predicate Rest<S, V>(m: Model<S, V>, hist: seq<Entry<V>>, n: nat, done: set<nat>, state: S, order: seq<nat>)
    requires WellFormed(hist, n)
  {
    && Distinct(order)
    && (forall k :: 0 <= k < |order| ==> order[k] < n && order[k] !in done)
    && (forall i: nat :: i < n ==> i in done || i in order)
    && (forall a, b :: 0 <= a < b < |order| ==> !Before(hist, n, order[b], order[a]))
    && Known(hist, order)
    && Legal(m, hist, state, order)
  }

  lemma {:induction false} RestFinishes<S, V>(m: Model<S, V>, hist: seq<Entry<V>>, n: nat, done: set<nat>, state: S, order: seq<nat>)
    requires WellFormed(hist, n) && Rest(m, hist, n, done, state, order)
    ensures Finishes(m, hist, n, done, state, order)
    decreases |order|
  {
    if |order| > 0 {
      var i := order[0];
      forall x: nat | x < n && x !in done ensures !Before(hist, n, x, i) {
        var b :| 0 <= b < |order| && order[b] == x;
      }
      forall x: nat | x < n ensures x in done + {i} || x in order[1..] {
        if x !in done && x != i {
          var b :| 0 <= b < |order| && order[b] == x;
          assert order[1..][b - 1] == x;
        }
      }
      RestFinishes(m, hist, n, done + {i}, Perform(m, hist, state, i).1, order[1..]);
    }
  }

  lemma {:induction false} FinishesRest<S, V>(m: Model<S, V>, hist: seq<Entry<V>>, n: nat, done: set<nat>, state: S, order: seq<nat>)
    requires WellFormed(hist, n) && Finishes(m, hist, n, done, state, order)
    ensures Rest(m, hist, n, done, state, order)
    decreases |order|
  {
    if |order| > 0 {
      var i, tail := order[0], order[1..];
      FinishesRest(m, hist, n, done + {i}, Perform(m, hist, state, i).1, tail);
      assert forall k :: 1 <= k < |order| ==> order[k] == tail[k - 1];
      forall a, b | 0 <= a < b < |order| ensures !Before(hist, n, order[b], order[a]) && order[a] != order[b] {
        assert order[b] == tail[b - 1];
        if a > 0 {
          assert order[a] == tail[a - 1];
        }
      }
      forall x: nat | x < n ensures x in done || x in order {
        if x in tail {
          var b :| 0 <= b < |tail| && tail[b] == x;
          assert order[b + 1] == x;
        }
      }
    }
  }

  ghost function Ids(n: nat): (ids: set<nat>)
    ensures forall i: nat :: i in ids <==> i < n
  {
    if n == 0 then {} else Ids(n - 1) + {n - 1}
  }

  lemma {:induction false} IdsSize(n: nat)
    ensures |Ids(n)| == n
  {
    if n > 0 {
      IdsSize(n - 1);
    }
  }

  ghost function Elements(order: seq<nat>): set<nat> { set x | x in order }

  lemma {:induction false} DistinctSize(order: seq<nat>)
    requires Distinct(order)
    ensures |Elements(order)| == |order|
  {
    if |order| > 0 {
      var last := |order| - 1;
      DistinctSize(order[..last]);
      assert order == order[..last] + [order[last]];
      assert Elements(order) == Elements(order[..last]) + {order[last]};
    }
  }

  lemma SubsetOfSameSize(a: set<nat>, b: set<nat>)
    requires a <= b && |a| == |b|
    ensures a == b
  {
    assert |b - a| == |b| - |a|;
  }

  lemma CoversAll(n: nat, order: seq<nat>)
    requires |order| == n && Distinct(order) && forall k :: 0 <= k < n ==> order[k] < n
    ensures forall i: nat :: i < n ==> i in order
  {
    IdsSize(n);
    DistinctSize(order);
    SubsetOfSameSize(Elements(order), Ids(n));
    forall i: nat | i < n ensures i in order {
      assert i in Ids(n);
    }
  }

  lemma LinearizationFinishes<S, V>(m: Model<S, V>, hist: seq<Entry<V>>, n: nat, order: seq<nat>)
    requires WellFormed(hist, n) && IsLinearization(m, hist, n, order)
    ensures Finishes(m, hist, n, {}, m.init, order)
  {
    CoversAll(n, order);
    forall a, b | 0 <= a < b < |order| ensures !Before(hist, n, order[b], order[a]) {
      assert !Precedes(hist, order[b], order[a]);
    }
    assert Rest(m, hist, n, {}, m.init, order);
    RestFinishes(m, hist, n, {}, m.init, order);
  }

  lemma FinishIsLinearization<S, V>(m: Model<S, V>, hist: seq<Entry<V>>, n: nat, order: seq<nat>)
    requires WellFormed(hist, n) && Finishes(m, hist, n, {}, m.init, order)
    ensures IsLinearization(m, hist, n, order)
  {
    IdsSize(n);
    FinishesRest(m, hist, n, {}, m.init, order);
    DistinctSize(order);
    assert Elements(order) == Ids(n);
    forall a, b | 0 <= a < b < n ensures !Precedes(hist, order[b], order[a]) {
      assert !Before(hist, n, order[b], order[a]);
    }
  }

  /** A linearization is exactly an order that finishes everything from the start. */
  lemma LinearizationIsFinish<S, V>(m: Model<S, V>, hist: seq<Entry<V>>, n: nat, order: seq<nat>)
    requires WellFormed(hist, n)
    ensures IsLinearization(m, hist, n, order) <==> Finishes(m, hist, n, {}, m.init, order)
  {
    if IsLinearization(m, hist, n, order) {
      LinearizationFinishes(m, hist, n, order);
    }
    if Finishes(m, hist, n, {}, m.init, order) {
      FinishIsLinearization(m, hist, n, order);
    }
  }

  lemma DeadIsNotLinearizable<S, V>(m: Model<S, V>, hist: seq<Entry<V>>, n: nat)
    requires WellFormed(hist, n)
    ensures Dead(m, hist, n, {}, m.init) <==> !Linearizable(m, hist, n)
  {
    forall order ensures IsLinearization(m, hist, n, order) <==> Finishes(m, hist, n, {}, m.init, order) {
      LinearizationIsFinish(m, hist, n, order);
    }
    if !Dead(m, hist, n, {}, m.init) {
      var order :| Finishes(m, hist, n, {}, m.init, order);
      assert IsLinearization(m, hist, n, order);
    }
    if Linearizable(m, hist, n) {
      var order :| IsLinearization(m, hist, n, order);
      assert Finishes(m, hist, n, {}, m.init, order);
    }
  }

  // ---------------------------------------------------------------- the search state

  /** One choice on the stack: what was done, the state then, and the operation taken. */
  datatype Frame<S> = Frame(done: set<nat>, state: S, op: nat)

  /** The search: choices made, what they have done and the state they led to, the pairs
      ever entered, and the position of the entry looked at. */
  datatype Dfs<S(==)> = Dfs(stack: seq<Frame<S>>, done: set<nat>, state: S, memo: set<(set<nat>, S)>, at: nat)

  ghost function Level<S>(d: Dfs<S>, j: nat): (set<nat>, S)
    requires j <= |d.stack|
  {
    if j < |d.stack| then (d.stack[j].done, d.stack[j].state) else (d.done, d.state)
  }

  ghost predicate OnPath<S>(d: Dfs<S>, p: (set<nat>, S)) {
    exists j :: 0 <= j <= |d.stack| && p == Level(d, j)
  }

  /** Choice j is allowed and leads to the next level. */
  ghost predicate FrameOk<S, V>(m: Model<S, V>, hist: seq<Entry<V>>, n: nat, d: Dfs<S>, j: nat)
    requires WellFormed(hist, n) && j < |d.stack|
  {
    var f := d.stack[j];
    && Minimal(hist, n, f.done, f.op)
    && Perform(m, hist, f.state, f.op).0
    && Level(d, j + 1) == (f.done + {f.op}, Perform(m, hist, f.state, f.op).1)
  }

  /** Every operation called before position `at` that may come next has led nowhere. */
  ghost predicate Tried<S, V>(m: Model<S, V>, hist: seq<Entry<V>>, n: nat, done: set<nat>, state: S, at: int)
    requires WellFormed(hist, n)
  {
    forall i: nat :: Minimal(hist, n, done, i) && CallPos(hist, i) < at ==> Failed(m, hist, n, done, state, i)
  }

  ghost predicate FrameTried<S, V>(m: Model<S, V>, hist: seq<Entry<V>>, n: nat, f: Frame<S>)
    requires WellFormed(hist, n) && f.op < n
  {
    Tried(m, hist, n, f.done, f.state, CallPos(hist, f.op))
  }

  /** No operation left to do returns before position `at`. */
  ghost predicate NoReturnBefore<V>(hist: seq<Entry<V>>, n: nat, done: set<nat>, at: int)
    requires WellFormed(hist, n)
  {
    forall x: nat :: x < n && x !in done ==> ReturnPos(hist, x) >= at
  }

  ghost predicate Live<V>(hist: seq<Entry<V>>, done: set<nat>, p: int) {
    0 <= p < |hist| && hist[p].id !in done
  }

  ghost predicate StackOk<S, V>(m: Model<S, V>, hist: seq<Entry<V>>, n: nat, d: Dfs<S>)
    requires WellFormed(hist, n)
  {
    && Level(d, 0) == ({}, m.init)
    && (forall j {:trigger FrameOk(m, hist, n, d, j)} :: 0 <= j < |d.stack| ==> FrameOk(m, hist, n, d, j) && FrameTried(m, hist, n, d.stack[j]))
    && (forall j {:trigger Level(d, j)} :: 0 <= j <= |d.stack| ==> |Level(d, j).0| == j)
  }

  /** Whatever was entered before and is not on the path leads nowhere. */
  ghost predicate MemoOk<S, V>(m: Model<S, V>, hist: seq<Entry<V>>, n: nat, d: Dfs<S>)
    requires WellFormed(hist, n)
  {
    forall p :: p in d.memo ==> OnPath(d, p) || Dead(m, hist, n, p.0, p.1)
  }

  ghost predicate DfsOk<S, V>(m: Model<S, V>, hist: seq<Entry<V>>, n: nat, d: Dfs<S>)
    requires WellFormed(hist, n)
  {
    && StackOk(m, hist, n, d)
    && d.done <= Ids(n)
    && MemoOk(m, hist, n, d)
    && Tried(m, hist, n, d.done, d.state, d.at)
    && NoReturnBefore(hist, n, d.done, d.at)
  }

  ghost function Start<S, V>(m: Model<S, V>, at: nat): Dfs<S> { Dfs([], {}, m.init, {}, at) }

  lemma StartOk<S, V>(m: Model<S, V>, hist: seq<Entry<V>>, n: nat)
    requires WellFormed(hist, n)
    ensures DfsOk(m, hist, n, Start(m, 0))
  {
  }

  /** The next entry of the remaining list. */
  ghost predicate IsNext<V>(hist: seq<Entry<V>>, done: set<nat>, from: nat, next: nat) {
    from <= next && forall p :: from <= p < next && p < |hist| ==> !Live(hist, done, p)
  }

  /** The call looked at may come next. */
  lemma CallIsMinimal<S, V>(m: Model<S, V>, hist: seq<Entry<V>>, n: nat, d: Dfs<S>)
    requires WellFormed(hist, n) && DfsOk(m, hist, n, d)
    requires Live(hist, d.done, d.at) && hist[d.at].kind == CallEntry
    ensures Minimal(hist, n, d.done, hist[d.at].id) && CallPos(hist, hist[d.at].id) == d.at
  {
    PosUnique(hist, hist[d.at].id, d.at);
  }

  /** Passing over a call that leads nowhere. */
  lemma Skip<S, V>(m: Model<S, V>, hist: seq<Entry<V>>, n: nat, d: Dfs<S>, next: nat)
    requires WellFormed(hist, n) && DfsOk(m, hist, n, d)
    requires Live(hist, d.done, d.at) && hist[d.at].kind == CallEntry
    requires Failed(m, hist, n, d.done, d.state, hist[d.at].id)
    requires IsNext(hist, d.done, d.at + 1, next)
    ensures DfsOk(m, hist, n, d.(at := next))
  {
    CallIsMinimal(m, hist, n, d);
    MovesOn(m, hist, n, d, hist[d.at].id, next);
    SameStack(m, hist, n, d, d.(at := next));
    SameMemo(m, hist, n, d, d.(at := next));
  }

  lemma SameStack<S, V>(m: Model<S, V>, hist: seq<Entry<V>>, n: nat, d: Dfs<S>, e: Dfs<S>)
    requires WellFormed(hist, n) && StackOk(m, hist, n, d)
    requires e.stack == d.stack && e.done == d.done && e.state == d.state
    ensures StackOk(m, hist, n, e)
  {
    assert Level(d, 0) == Level(e, 0);
    forall j | 0 <= j < |e.stack| ensures FrameOk(m, hist, n, e, j) && FrameTried(m, hist, n, e.stack[j]) {
      assert FrameOk(m, hist, n, d, j);
      assert Level(d, j + 1) == Level(e, j + 1);
    }
    forall j | 0 <= j <= |e.stack| ensures |Level(e, j).0| == j {
      assert Level(d, j) == Level(e, j);
    }
  }

  /** What is known before a call, and of the call, is known up to the next entry. */
  lemma MovesOn<S, V>(m: Model<S, V>, hist: seq<Entry<V>>, n: nat, d: Dfs<S>, op: nat, next: nat)
    requires WellFormed(hist, n) && op < n && CallPos(hist, op) == d.at
    requires Tried(m, hist, n, d.done, d.state, d.at) && NoReturnBefore(hist, n, d.done, d.at)
    requires Failed(m, hist, n, d.done, d.state, op)
    requires IsNext(hist, d.done, d.at + 1, next)
    ensures Tried(m, hist, n, d.done, d.state, next) && NoReturnBefore(hist, n, d.done, next)
  {
    forall i: nat | Minimal(hist, n, d.done, i) && CallPos(hist, i) < next ensures Failed(m, hist, n, d.done, d.state, i) {
      if CallPos(hist, i) >= d.at {
        assert Live(hist, d.done, CallPos(hist, i));
        assert i == op;
      }
    }
    forall x: nat | x < n && x !in d.done ensures ReturnPos(hist, x) >= next {
      assert Live(hist, d.done, ReturnPos(hist, x));
    }
  }

  lemma SameMemo<S, V>(m: Model<S, V>, hist: seq<Entry<V>>, n: nat, d: Dfs<S>, e: Dfs<S>)
    requires WellFormed(hist, n) && MemoOk(m, hist, n, d)
    requires e.memo == d.memo && e.stack == d.stack && e.done == d.done && e.state == d.state
    ensures MemoOk(m, hist, n, e)
  {
    forall p | p in e.memo ensures OnPath(e, p) || Dead(m, hist, n, p.0, p.1) {
      if OnPath(d, p) {
        var j :| 0 <= j <= |d.stack| && p == Level(d, j);
        assert p == Level(e, j);
      }
    }
  }

  /** A remembered pair with more done than anything on the path leads nowhere. */
  lemma HitFails<S, V>(m: Model<S, V>, hist: seq<Entry<V>>, n: nat, d: Dfs<S>, i: nat)
    requires WellFormed(hist, n) && DfsOk(m, hist, n, d) && i < n && i !in d.done
    requires (d.done + {i}, Perform(m, hist, d.state, i).1) in d.memo
    ensures Failed(m, hist, n, d.done, d.state, i)
  {
    var p := (d.done + {i}, Perform(m, hist, d.state, i).1);
    assert |Level(d, |d.stack|).0| == |d.stack|;
    assert |p.0| == |d.stack| + 1;
    assert !OnPath(d, p);
  }

  ghost function Pushed<S, V>(m: Model<S, V>, hist: seq<Entry<V>>, n: nat, d: Dfs<S>, i: nat, at: nat): Dfs<S>
    requires WellFormed(hist, n) && i < n
  {
    var next := Perform(m, hist, d.state, i).1;
    Dfs(d.stack + [Frame(d.done, d.state, i)], d.done + {i}, next, d.memo + {(d.done + {i}, next)}, at)
  }

  lemma PushLevels<S, V>(m: Model<S, V>, hist: seq<Entry<V>>, n: nat, d: Dfs<S>, i: nat, at: nat, j: nat)
    requires WellFormed(hist, n) && i < n && j <= |d.stack|
    ensures Level(Pushed(m, hist, n, d, i, at), j) == Level(d, j)
  {
  }

  lemma PushStack<S, V>(m: Model<S, V>, hist: seq<Entry<V>>, n: nat, d: Dfs<S>, i: nat, at: nat)
    requires WellFormed(hist, n) && StackOk(m, hist, n, d) && i < n
    requires Minimal(hist, n, d.done, i) && Perform(m, hist, d.state, i).0
    requires Tried(m, hist, n, d.done, d.state, CallPos(hist, i))
    ensures StackOk(m, hist, n, Pushed(m, hist, n, d, i, at))
  {
    var e := Pushed(m, hist, n, d, i, at);
    PushLevels(m, hist, n, d, i, at, 0);
    forall j | 0 <= j < |e.stack| ensures FrameOk(m, hist, n, e, j) && FrameTried(m, hist, n, e.stack[j]) {
      if j < |d.stack| {
        assert FrameOk(m, hist, n, d, j);
        PushLevels(m, hist, n, d, i, at, j + 1);
      }
    }
    forall j | 0 <= j <= |e.stack| ensures |Level(e, j).0| == j {
      if j <= |d.stack| {
        PushLevels(m, hist, n, d, i, at, j);
      } else {
        assert |Level(d, |d.stack|).0| == |d.stack|;
      }
    }
  }

  /** Taking an allowed operation, and starting again from the first remaining entry. */
  lemma Push<S, V>(m: Model<S, V>, hist: seq<Entry<V>>, n: nat, d: Dfs<S>, i: nat, at: nat)
    requires WellFormed(hist, n) && DfsOk(m, hist, n, d) && i < n
    requires Minimal(hist, n, d.done, i) && CallPos(hist, i) == d.at && Perform(m, hist, d.state, i).0
    requires IsNext(hist, d.done + {i}, 0, at)
    ensures DfsOk(m, hist, n, Pushed(m, hist, n, d, i, at))
  {
    var e := Pushed(m, hist, n, d, i, at);
    PushStack(m, hist, n, d, i, at);
    forall p | p in e.memo ensures OnPath(e, p) || Dead(m, hist, n, p.0, p.1) {
      if p in d.memo && OnPath(d, p) {
        var j :| 0 <= j <= |d.stack| && p == Level(d, j);
        PushLevels(m, hist, n, d, i, at, j);
      } else if p !in d.memo {
        assert p == Level(e, |e.stack|);
      }
    }
    forall x: nat | Minimal(hist, n, e.done, x) ensures CallPos(hist, x) >= at {
      assert Live(hist, e.done, CallPos(hist, x));
    }
    forall x: nat | x < n && x !in e.done ensures ReturnPos(hist, x) >= at {
      assert Live(hist, e.done, ReturnPos(hist, x));
    }
  }

  /** On reaching a return, every operation that may come next has been tried. */
  lemma ReturnIsDead<S, V>(m: Model<S, V>, hist: seq<Entry<V>>, n: nat, d: Dfs<S>)
    requires WellFormed(hist, n) && DfsOk(m, hist, n, d)
    requires Live(hist, d.done, d.at) && hist[d.at].kind == ReturnEntry
    ensures Dead(m, hist, n, d.done, d.state)
  {
    var x := hist[d.at].id;
    PosUnique(hist, x, d.at);
    forall i: nat | Minimal(hist, n, d.done, i) ensures Failed(m, hist, n, d.done, d.state, i) {
      assert !Before(hist, n, x, i);
      assert CallPos(hist, i) != d.at by { PosUnique(hist, i, d.at); }
    }
    AllFailed(m, hist, n, d.done, d.state, x);
  }

  ghost function Popped<S>(d: Dfs<S>, at: nat): Dfs<S>
    requires |d.stack| > 0
  {
    var f := d.stack[|d.stack| - 1];
    Dfs(d.stack[..|d.stack| - 1], f.done, f.state, d.memo, at)
  }

  lemma PopLevels<S>(d: Dfs<S>, at: nat, j: nat)
    requires |d.stack| > 0 && j < |d.stack|
    ensures Level(Popped(d, at), j) == Level(d, j)
  {
  }

  lemma PopStack<S, V>(m: Model<S, V>, hist: seq<Entry<V>>, n: nat, d: Dfs<S>, at: nat)
    requires WellFormed(hist, n) && StackOk(m, hist, n, d) && |d.stack| > 0
    ensures StackOk(m, hist, n, Popped(d, at))
  {
    var e := Popped(d, at);
    PopLevels(d, at, 0);
    forall j | 0 <= j < |e.stack| ensures FrameOk(m, hist, n, e, j) && FrameTried(m, hist, n, e.stack[j]) {
      assert FrameOk(m, hist, n, d, j);
      PopLevels(d, at, j + 1);
    }
    forall j | 0 <= j <= |e.stack| ensures |Level(e, j).0| == j {
      PopLevels(d, at, j);
    }
  }

  lemma PopMemo<S, V>(m: Model<S, V>, hist: seq<Entry<V>>, n: nat, d: Dfs<S>, at: nat)
    requires WellFormed(hist, n) && MemoOk(m, hist, n, d) && |d.stack| > 0
    requires Dead(m, hist, n, d.done, d.state)
    ensures MemoOk(m, hist, n, Popped(d, at))
  {
    var e := Popped(d, at);
    forall p | p in e.memo ensures OnPath(e, p) || Dead(m, hist, n, p.0, p.1) {
      if OnPath(d, p) {
        var j :| 0 <= j <= |d.stack| && p == Level(d, j);
        if j < |d.stack| {
          PopLevels(d, at, j);
        }
      }
    }
  }

  /** Going back: the last choice led nowhere, and the search goes on after its call. */
  lemma Pop<S, V>(m: Model<S, V>, hist: seq<Entry<V>>, n: nat, d: Dfs<S>, at: nat)
    requires WellFormed(hist, n) && DfsOk(m, hist, n, d) && |d.stack| > 0
    requires Dead(m, hist, n, d.done, d.state)
    requires d.stack[|d.stack| - 1].op < n
    requires IsNext(hist, d.stack[|d.stack| - 1].done, CallPos(hist, d.stack[|d.stack| - 1].op) + 1, at)
    ensures DfsOk(m, hist, n, Popped(d, at))
  {
    var top := |d.stack| - 1;
    var f := d.stack[top];
    assert FrameOk(m, hist, n, d, top);
    PopStack(m, hist, n, d, at);
    PopMemo(m, hist, n, d, at);
    assert f.done <= d.done by { assert Level(d, top + 1) == (d.done, d.state); }
    var e := Popped(d, CallPos(hist, f.op));
    forall x: nat | x < n && x !in f.done ensures ReturnPos(hist, x) >= CallPos(hist, f.op) {
      assert !Before(hist, n, x, f.op);
    }
    MovesOn(m, hist, n, e, f.op, at);
  }

  // ---------------------------------------------------------------- the verdict

  lemma NoneLeft<V>(hist: seq<Entry<V>>, n: nat, done: set<nat>)
    requires WellFormed(hist, n)
    requires forall p :: 0 <= p < |hist| ==> !Live(hist, done, p)
    ensures forall i: nat :: i < n ==> i in done
  {
    forall i: nat | i < n ensures i in done {
      assert !Live(hist, done, CallPos(hist, i));
    }
  }

  function Ops<S>(stack: seq<Frame<S>>): seq<nat> {
    seq(|stack|, j requires 0 <= j < |stack| => stack[j].op)
  }

  /** The operations on the stack finish whatever the order built above them finishes. */
  lemma {:induction false} StackFinishes<S, V>(m: Model<S, V>, hist: seq<Entry<V>>, n: nat, d: Dfs<S>, j: nat)
    requires WellFormed(hist, n) && StackOk(m, hist, n, d) && j <= |d.stack|
    requires forall i: nat :: i < n ==> i in d.done
    ensures Finishes(m, hist, n, Level(d, j).0, Level(d, j).1, Ops(d.stack)[j..])
    decreases |d.stack| - j
  {
    if j < |d.stack| {
      assert FrameOk(m, hist, n, d, j);
      StackFinishes(m, hist, n, d, j + 1);
      assert Ops(d.stack)[j..][1..] == Ops(d.stack)[j + 1..];
    }
  }

  /** When no entry is left, the operations on the stack are a linearization. */
  lemma StackIsLinearization<S, V>(m: Model<S, V>, hist: seq<Entry<V>>, n: nat, d: Dfs<S>)
    requires WellFormed(hist, n) && DfsOk(m, hist, n, d)
    requires forall p :: 0 <= p < |hist| ==> !Live(hist, d.done, p)
    ensures IsLinearization(m, hist, n, Ops(d.stack))
  {
    NoneLeft(hist, n, d.done);
    StackFinishes(m, hist, n, d, 0);
    assert Ops(d.stack)[0..] == Ops(d.stack);
    LinearizationIsFinish(m, hist, n, Ops(d.stack));
  }

  /** When a return is reached with nothing on the stack, there is no linearization. */
  lemma EmptyStackFails<S, V>(m: Model<S, V>, hist: seq<Entry<V>>, n: nat, d: Dfs<S>)
    requires WellFormed(hist, n) && DfsOk(m, hist, n, d) && |d.stack| == 0
    requires Live(hist, d.done, d.at) && hist[d.at].kind == ReturnEntry
    ensures !Linearizable(m, hist, n)
  {
    ReturnIsDead(m, hist, n, d);
    assert Level(d, 0) == ({}, m.init);
    DeadIsNotLinearizable(m, hist, n);
  }
}
