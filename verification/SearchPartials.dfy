/** What the search misses: nothing.  Every pair that a partial linearization reaches is
    entered before the search gives up. */
module SearchPartials {
  import opened Linearizability
  import opened Search
  import opened SearchBound

  /** If operation i is allowed, the pair it leads to has been entered. */
  ghost predicate Entered<S, V>(m: Model<S, V>, hist: seq<Entry<V>>, n: nat, memo: set<(set<nat>, S)>, done: set<nat>, state: S, i: nat)
    requires WellFormed(hist, n) && i < n
  {
    var (ok, next) := Perform(m, hist, state, i);
    ok ==> (done + {i}, next) in memo
  }

  /** Every operation called before position `at` that may come next has been entered. */
  ghost predicate SeenTo<S, V>(m: Model<S, V>, hist: seq<Entry<V>>, n: nat, memo: set<(set<nat>, S)>, done: set<nat>, state: S, at: int)
    requires WellFormed(hist, n)
  {
    forall i: nat :: Minimal(hist, n, done, i) && CallPos(hist, i) < at ==> Entered(m, hist, n, memo, done, state, i)
  }

  /** Every operation that may come next has been entered. */
  ghost predicate Closed<S, V>(m: Model<S, V>, hist: seq<Entry<V>>, n: nat, memo: set<(set<nat>, S)>, done: set<nat>, state: S)
    requires WellFormed(hist, n)
  {
    forall i: nat :: Minimal(hist, n, done, i) ==> Entered(m, hist, n, memo, done, state, i)
  }

  ghost predicate FrameSeen<S, V>(m: Model<S, V>, hist: seq<Entry<V>>, n: nat, memo: set<(set<nat>, S)>, f: Frame<S>)
    requires WellFormed(hist, n)
  {
    f.op < n && SeenTo(m, hist, n, memo, f.done, f.state, CallPos(hist, f.op) + 1)
  }

  /** A pair that was entered is not the first, and is on the path or left with nothing out. */
  ghost predicate PairSeen<S, V>(m: Model<S, V>, hist: seq<Entry<V>>, n: nat, d: Dfs<S>, p: (set<nat>, S))
    requires WellFormed(hist, n)
  {
    p.0 != {} && (OnPath(d, p) || Closed(m, hist, n, d.memo, p.0, p.1))
  }

  ghost predicate ExploredOk<S, V>(m: Model<S, V>, hist: seq<Entry<V>>, n: nat, d: Dfs<S>)
    requires WellFormed(hist, n)
  {
    && SeenTo(m, hist, n, d.memo, d.done, d.state, d.at)
    && (forall j {:trigger d.stack[j]} :: 0 <= j < |d.stack| ==> FrameSeen(m, hist, n, d.memo, d.stack[j]))
    && (forall p {:trigger PairSeen(m, hist, n, d, p)} :: p in d.memo ==> PairSeen(m, hist, n, d, p))
  }

  lemma StartExplored<S, V>(m: Model<S, V>, hist: seq<Entry<V>>, n: nat)
    requires WellFormed(hist, n)
    ensures ExploredOk(m, hist, n, Start(m, 0))
  {
  }

  // ---------------------------------------------------------------- steps

  /** What has been seen up to a call, and the call itself, is seen up to the next entry. */
  lemma SeenOn<S, V>(m: Model<S, V>, hist: seq<Entry<V>>, n: nat, memo: set<(set<nat>, S)>, done: set<nat>, state: S, op: nat, next: nat)
    requires WellFormed(hist, n) && op < n && SeenTo(m, hist, n, memo, done, state, CallPos(hist, op) + 1)
    requires IsNext(hist, done, CallPos(hist, op) + 1, next)
    ensures SeenTo(m, hist, n, memo, done, state, next)
  {
    forall i: nat | Minimal(hist, n, done, i) && CallPos(hist, i) < next ensures Entered(m, hist, n, memo, done, state, i) {
      assert Live(hist, done, CallPos(hist, i));
    }
  }

  lemma SeenCall<S, V>(m: Model<S, V>, hist: seq<Entry<V>>, n: nat, memo: set<(set<nat>, S)>, done: set<nat>, state: S, op: nat)
    requires WellFormed(hist, n) && op < n && SeenTo(m, hist, n, memo, done, state, CallPos(hist, op))
    requires Entered(m, hist, n, memo, done, state, op)
    ensures SeenTo(m, hist, n, memo, done, state, CallPos(hist, op) + 1)
  {
    forall i: nat | Minimal(hist, n, done, i) && CallPos(hist, i) < CallPos(hist, op) + 1 ensures Entered(m, hist, n, memo, done, state, i) {
      if CallPos(hist, i) == CallPos(hist, op) {
        assert i == op;
      }
    }
  }

  lemma SkipExplored<S, V>(m: Model<S, V>, hist: seq<Entry<V>>, n: nat, d: Dfs<S>, op: nat, next: nat)
    requires WellFormed(hist, n) && ExploredOk(m, hist, n, d) && op < n && CallPos(hist, op) == d.at
    requires Entered(m, hist, n, d.memo, d.done, d.state, op) && IsNext(hist, d.done, d.at + 1, next)
    ensures ExploredOk(m, hist, n, d.(at := next))
  {
    SeenCall(m, hist, n, d.memo, d.done, d.state, op);
    SeenOn(m, hist, n, d.memo, d.done, d.state, op, next);
    var e := d.(at := next);
    forall p | p in e.memo ensures PairSeen(m, hist, n, e, p) {
      assert PairSeen(m, hist, n, d, p);
      SamePath(d, e, p);
    }
  }

  lemma SamePath<S>(d: Dfs<S>, e: Dfs<S>, p: (set<nat>, S))
    requires e.stack == d.stack && e.done == d.done && e.state == d.state
    ensures OnPath(e, p) <==> OnPath(d, p)
  {
    forall j | 0 <= j <= |d.stack| ensures Level(d, j) == Level(e, j) {
    }
  }

  lemma ClosedGrows<S, V>(m: Model<S, V>, hist: seq<Entry<V>>, n: nat, memo: set<(set<nat>, S)>, more: set<(set<nat>, S)>, done: set<nat>, state: S, at: int)
    requires WellFormed(hist, n) && memo <= more
    ensures SeenTo(m, hist, n, memo, done, state, at) ==> SeenTo(m, hist, n, more, done, state, at)
    ensures Closed(m, hist, n, memo, done, state) ==> Closed(m, hist, n, more, done, state)
  {
    forall i: nat | i < n && Entered(m, hist, n, memo, done, state, i) ensures Entered(m, hist, n, more, done, state, i) {
    }
  }

  /** What was on the path stays on it, and so does what is pushed. */
  lemma PushPath<S, V>(m: Model<S, V>, hist: seq<Entry<V>>, n: nat, d: Dfs<S>, i: nat, at: nat, p: (set<nat>, S))
    requires WellFormed(hist, n) && i < n
    ensures var e := Pushed(m, hist, n, d, i, at); (OnPath(d, p) ==> OnPath(e, p)) && OnPath(e, (e.done, e.state))
  {
    var e := Pushed(m, hist, n, d, i, at);
    assert Level(e, |e.stack|) == (e.done, e.state);
    if OnPath(d, p) {
      var j :| 0 <= j <= |d.stack| && p == Level(d, j);
      PushLevels(m, hist, n, d, i, at, j);
    }
  }

  lemma PushExplored<S, V>(m: Model<S, V>, hist: seq<Entry<V>>, n: nat, d: Dfs<S>, i: nat, at: nat)
    requires WellFormed(hist, n) && ExploredOk(m, hist, n, d) && i < n && CallPos(hist, i) == d.at
    requires Perform(m, hist, d.state, i).0 && IsNext(hist, d.done + {i}, 0, at)
    ensures ExploredOk(m, hist, n, Pushed(m, hist, n, d, i, at))
  {
    hide OnPath;
    var e := Pushed(m, hist, n, d, i, at);
    ClosedGrows(m, hist, n, d.memo, e.memo, d.done, d.state, d.at);
    SeenCall(m, hist, n, e.memo, d.done, d.state, i);
    forall j | 0 <= j < |e.stack| ensures FrameSeen(m, hist, n, e.memo, e.stack[j]) {
      if j < |d.stack| {
        assert FrameSeen(m, hist, n, d.memo, d.stack[j]);
        ClosedGrows(m, hist, n, d.memo, e.memo, d.stack[j].done, d.stack[j].state, CallPos(hist, d.stack[j].op) + 1);
      }
    }
    forall x: nat | Minimal(hist, n, e.done, x) ensures CallPos(hist, x) >= at {
      assert Live(hist, e.done, CallPos(hist, x));
    }
    forall p | p in e.memo ensures PairSeen(m, hist, n, e, p) {
      PushPath(m, hist, n, d, i, at, p);
      if p in d.memo {
        assert PairSeen(m, hist, n, d, p);
        ClosedGrows(m, hist, n, d.memo, e.memo, p.0, p.1, 0);
      } else {
        assert i in p.0;
      }
    }
  }

  /** At a return, every operation that may come next has been entered. */
  lemma ReturnCloses<S, V>(m: Model<S, V>, hist: seq<Entry<V>>, n: nat, memo: set<(set<nat>, S)>, done: set<nat>, state: S, at: int)
    requires WellFormed(hist, n) && SeenTo(m, hist, n, memo, done, state, at)
    requires Live(hist, done, at) && hist[at].kind == ReturnEntry
    ensures Closed(m, hist, n, memo, done, state)
  {
    var x := hist[at].id;
    PosUnique(hist, x, at);
    forall i: nat | Minimal(hist, n, done, i) ensures Entered(m, hist, n, memo, done, state, i) {
      assert !Before(hist, n, x, i);
      assert CallPos(hist, i) != at by { PosUnique(hist, i, at); }
    }
  }

  /** Off the path goes only the last pair. */
  lemma PopPath<S>(d: Dfs<S>, at: nat, p: (set<nat>, S))
    requires |d.stack| > 0 && OnPath(d, p)
    ensures OnPath(Popped(d, at), p) || p == (d.done, d.state)
  {
    var j :| 0 <= j <= |d.stack| && p == Level(d, j);
    if j < |d.stack| {
      PopLevels(d, at, j);
    }
  }

  lemma PopExplored<S, V>(m: Model<S, V>, hist: seq<Entry<V>>, n: nat, d: Dfs<S>, at: nat)
    requires WellFormed(hist, n) && ExploredOk(m, hist, n, d) && |d.stack| > 0
    requires Live(hist, d.done, d.at) && hist[d.at].kind == ReturnEntry
    requires d.stack[|d.stack| - 1].op < n
    requires IsNext(hist, d.stack[|d.stack| - 1].done, CallPos(hist, d.stack[|d.stack| - 1].op) + 1, at)
    ensures ExploredOk(m, hist, n, Popped(d, at))
  {
    hide OnPath;
    var f, e := d.stack[|d.stack| - 1], Popped(d, at);
    assert FrameSeen(m, hist, n, d.memo, f);
    SeenOn(m, hist, n, d.memo, f.done, f.state, f.op, at);
    ReturnCloses(m, hist, n, d.memo, d.done, d.state, d.at);
    forall j | 0 <= j < |e.stack| ensures FrameSeen(m, hist, n, e.memo, e.stack[j]) {
      assert e.stack[j] == d.stack[j] && FrameSeen(m, hist, n, d.memo, d.stack[j]);
    }
    forall p | p in e.memo ensures PairSeen(m, hist, n, e, p) {
      assert PairSeen(m, hist, n, d, p);
      if OnPath(d, p) {
        PopPath(d, at, p);
      }
    }
  }

  /** What leaves the path, from d to e, is nothing, or the last pair of d. */
  ghost predicate PathKept<S>(d: Dfs<S>, e: Dfs<S>, last: bool) {
    forall p {:trigger OnPath(e, p)} :: p in e.memo ==>
      OnPath(e, p) || (p in d.memo && (!OnPath(d, p) || (last && p == (d.done, d.state))))
  }

  lemma SkipKeepsPath<S>(d: Dfs<S>, at: nat)
    ensures PathKept(d, d.(at := at), false)
  {
    var e := d.(at := at);
    forall p | p in e.memo ensures OnPath(e, p) <==> OnPath(d, p) {
      SamePath(d, e, p);
    }
  }

  lemma PushKeepsPath<S, V>(m: Model<S, V>, hist: seq<Entry<V>>, n: nat, d: Dfs<S>, i: nat, at: nat)
    requires WellFormed(hist, n) && i < n
    ensures PathKept(d, Pushed(m, hist, n, d, i, at), false)
  {
    hide OnPath;
    var e := Pushed(m, hist, n, d, i, at);
    forall p | p in e.memo && !OnPath(e, p) ensures p in d.memo && !OnPath(d, p) {
      PushPath(m, hist, n, d, i, at, p);
    }
  }

  lemma PopKeepsPath<S>(d: Dfs<S>, at: nat)
    requires |d.stack| > 0
    ensures PathKept(d, Popped(d, at), true)
  {
    hide OnPath;
    var e := Popped(d, at);
    forall p | p in e.memo && !OnPath(e, p) ensures !OnPath(d, p) || p == (d.done, d.state) {
      if OnPath(d, p) {
        PopPath(d, at, p);
      }
    }
  }

  // ---------------------------------------------------------------- the end

  /** The search has given up: nothing is on the stack, and a return is reached. */
  ghost predicate GivenUp<S, V>(m: Model<S, V>, hist: seq<Entry<V>>, n: nat, d: Dfs<S>)
    requires WellFormed(hist, n)
  {
    && ExploredOk(m, hist, n, d) && |d.stack| == 0 && d.done == {} && d.state == m.init
    && Live(hist, d.done, d.at) && hist[d.at].kind == ReturnEntry
  }

  lemma AllClosed<S, V>(m: Model<S, V>, hist: seq<Entry<V>>, n: nat, d: Dfs<S>, done: set<nat>, state: S)
    requires WellFormed(hist, n) && GivenUp(m, hist, n, d)
    requires (done, state) in d.memo || (done, state) == ({}, m.init)
    ensures Closed(m, hist, n, d.memo, done, state)
  {
    ReturnCloses(m, hist, n, d.memo, d.done, d.state, d.at);
    if (done, state) in d.memo {
      assert PairSeen(m, hist, n, d, (done, state));
      assert Level(d, 0).0 == {};
    }
  }

  /** `rest` goes on legally, and in time, from a pair. */
  ghost predicate GoesOn<S, V>(m: Model<S, V>, hist: seq<Entry<V>>, n: nat, done: set<nat>, state: S, rest: seq<nat>)
    requires WellFormed(hist, n)
  {
    && Distinct(rest) && (forall k :: 0 <= k < |rest| ==> rest[k] < n && rest[k] !in done)
    && (forall b, x: nat :: 0 <= b < |rest| && Before(hist, n, x, rest[b]) ==> x in done || x in rest[..b])
    && Known(hist, rest) && Legal(m, hist, state, rest)
  }

  lemma GoesOnNext<S, V>(m: Model<S, V>, hist: seq<Entry<V>>, n: nat, done: set<nat>, state: S, rest: seq<nat>)
    requires WellFormed(hist, n) && GoesOn(m, hist, n, done, state, rest) && |rest| > 0
    ensures Minimal(hist, n, done, rest[0]) && Perform(m, hist, state, rest[0]).0
    ensures GoesOn(m, hist, n, done + {rest[0]}, Perform(m, hist, state, rest[0]).1, rest[1..])
  {
    var tail := rest[1..];
    forall x: nat | x < n && x !in done ensures !Before(hist, n, x, rest[0]) {
      assert x !in rest[..0];
    }
    forall b, x: nat | 0 <= b < |tail| && Before(hist, n, x, tail[b]) ensures x in done + {rest[0]} || x in tail[..b] {
      assert Before(hist, n, x, rest[b + 1]);
      assert rest[..b + 1] == [rest[0]] + tail[..b];
    }
  }

  /** Every pair that can be reached was entered. */
  lemma {:induction false} ReachedEntered<S, V>(m: Model<S, V>, hist: seq<Entry<V>>, n: nat, d: Dfs<S>, done: set<nat>, state: S, rest: seq<nat>)
    returns (last: S)
    requires WellFormed(hist, n) && GivenUp(m, hist, n, d) && GoesOn(m, hist, n, done, state, rest)
    requires (done, state) in d.memo || (done, state) == ({}, m.init)
    ensures |rest| > 0 ==> (done + Elements(rest), last) in d.memo
    ensures |rest| == 0 ==> last == state
    decreases |rest|
  {
    last := state;
    if |rest| > 0 {
      hide GoesOn, GivenUp, Minimal;
      AllClosed(m, hist, n, d, done, state);
      GoesOnNext(m, hist, n, done, state, rest);
      var i, next := rest[0], Perform(m, hist, state, rest[0]).1;
      assert Entered(m, hist, n, d.memo, done, state, i);
      last := ReachedEntered(m, hist, n, d, done + {i}, next, rest[1..]);
      OneMore(done, rest);
    }
  }

  lemma OneMore(done: set<nat>, rest: seq<nat>)
    requires |rest| > 0
    ensures done + Elements(rest) == done + {rest[0]} + Elements(rest[1..])
    ensures |rest| == 1 ==> done + Elements(rest) == done + {rest[0]}
  {
    assert rest == [rest[0]] + rest[1..];
  }

  /** Every partial linearization was on the stack, in this order or another. */
  lemma PartialEntered<S, V>(m: Model<S, V>, hist: seq<Entry<V>>, n: nat, d: Dfs<S>, i: nat, order: seq<nat>) returns (last: S)
    requires WellFormed(hist, n) && GivenUp(m, hist, n, d) && IsPartial(m, hist, n, i, order)
    ensures (Elements(order), last) in d.memo && |Elements(order)| == |order|
  {
    last := ReachedEntered(m, hist, n, d, {}, m.init, order);
    assert {} + Elements(order) == Elements(order);
    DistinctSize(order);
  }
}
