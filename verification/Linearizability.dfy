/** Concurrent histories and what it means for one to be linearizable. */
module Linearizability {
  /** A sequential specification: its first state, and whether an operation with this input
      may give this output in a state, and which state follows. */
  datatype Model<!S, !V> = Model(init: S, step: (S, V, V) -> (bool, S))

  datatype Kind = CallEntry | ReturnEntry

  datatype Entry<V> = Entry(kind: Kind, value: V, id: nat, time: int, clientId: int)

  predicate CallAt<V>(hist: seq<Entry<V>>, i: nat, p: int) {
    0 <= p < |hist| && hist[p].kind == CallEntry && hist[p].id == i
  }

  predicate ReturnAt<V>(hist: seq<Entry<V>>, i: nat, p: int) {
    0 <= p < |hist| && hist[p].kind == ReturnEntry && hist[p].id == i
  }

  /** Operation i is called once and then returns once. */
  ghost predicate Paired<V>(hist: seq<Entry<V>>, i: nat) {
    exists c, r :: CallAt(hist, i, c) && ReturnAt(hist, i, r) && c < r
      && (forall p :: CallAt(hist, i, p) ==> p == c)
      && (forall p :: ReturnAt(hist, i, p) ==> p == r)
  }

  /** The operations 0..n, each called once and then returning once. */
  ghost predicate WellFormed<V>(hist: seq<Entry<V>>, n: nat) {
    && |hist| == 2 * n
    && (forall p :: 0 <= p < |hist| ==> hist[p].id < n)
    && (forall i: nat :: i < n ==> Paired(hist, i))
  }

  ghost function CallPos<V>(hist: seq<Entry<V>>, i: nat): (c: nat)
    requires Paired(hist, i)
    ensures CallAt(hist, i, c)
  {
    var c, r :| CallAt(hist, i, c) && ReturnAt(hist, i, r) && c < r
      && (forall p :: CallAt(hist, i, p) ==> p == c)
      && (forall p :: ReturnAt(hist, i, p) ==> p == r);
    c
  }

  ghost function ReturnPos<V>(hist: seq<Entry<V>>, i: nat): (r: nat)
    requires Paired(hist, i)
    ensures ReturnAt(hist, i, r) && CallPos(hist, i) < r
  {
    var c, r :| CallAt(hist, i, c) && ReturnAt(hist, i, r) && c < r
      && (forall p :: CallAt(hist, i, p) ==> p == c)
      && (forall p :: ReturnAt(hist, i, p) ==> p == r);
    r
  }

  lemma PosUnique<V>(hist: seq<Entry<V>>, i: nat, p: int)
    requires Paired(hist, i)
    ensures CallAt(hist, i, p) <==> p == CallPos(hist, i)
    ensures ReturnAt(hist, i, p) <==> p == ReturnPos(hist, i)
  {
  }

  /** Operation a returned before operation b was called. */
  ghost predicate Precedes<V>(hist: seq<Entry<V>>, a: nat, b: nat)
    requires Paired(hist, a) && Paired(hist, b)
  {
    ReturnPos(hist, a) < CallPos(hist, b)
  }

  /** Whether operation i is allowed in `state`, and the state after it. */
  ghost function Perform<S, V>(m: Model<S, V>, hist: seq<Entry<V>>, state: S, i: nat): (bool, S)
    requires Paired(hist, i)
  {
    m.step(state, hist[CallPos(hist, i)].value, hist[ReturnPos(hist, i)].value)
  }

  ghost predicate Known<V>(hist: seq<Entry<V>>, order: seq<nat>) {
    forall k :: 0 <= k < |order| ==> Paired(hist, order[k])
  }

  /** The operations of `order`, one after the other, are all allowed. */
  ghost predicate Legal<S, V>(m: Model<S, V>, hist: seq<Entry<V>>, state: S, order: seq<nat>)
    requires Known(hist, order)
    decreases |order|
  {
    if |order| == 0 then true
    else
      assert Known(hist, order[1..]);
      var (ok, next) := Perform(m, hist, state, order[0]);
      ok && Legal(m, hist, next, order[1..])
  }

  predicate Distinct(order: seq<nat>) {
    forall a, b :: 0 <= a < b < |order| ==> order[a] != order[b]
  }

  /** A total order of all n operations that the specification allows and that keeps the
      order of operations which do not overlap in time. */
  ghost predicate IsLinearization<S, V>(m: Model<S, V>, hist: seq<Entry<V>>, n: nat, order: seq<nat>) {
    && |order| == n && Distinct(order)
    && (forall k :: 0 <= k < n ==> order[k] < n)
    && Known(hist, order)
    && (forall a, b :: 0 <= a < b < n ==> !Precedes(hist, order[b], order[a]))
    && Legal(m, hist, m.init, order)
  }

  ghost predicate Linearizable<S, V>(m: Model<S, V>, hist: seq<Entry<V>>, n: nat) {
    exists order :: IsLinearization(m, hist, n, order)
  }
}
