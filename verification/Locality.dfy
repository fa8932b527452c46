/** Why a history may be checked key by key: it is linearizable for the whole map exactly when
    the operations on each key are linearizable for that key alone. */
module Locality {
  import opened Linearizability
  import opened Operations
  import Search

  type Key = string

  /** The specification of the whole map: an operation acts on the state of its own key. */
  function Whole<S, V>(m: Model<S, V>, key: V -> Key): Model<map<Key, S>, V> {
    Model(map[], (state: map<Key, S>, input: V, output: V) => WholeStep(m, key, state, input, output))
  }

  function StateOf<S, V>(m: Model<S, V>, state: map<Key, S>, k: Key): S { if k in state then state[k] else m.init }

  function WholeStep<S, V>(m: Model<S, V>, key: V -> Key, state: map<Key, S>, input: V, output: V): (bool, map<Key, S>) {
    var (ok, next) := m.step(StateOf(m, state, key(input)), input, output);
    (ok, state[key(input) := next])
  }

  function KeyOf<V>(key: V -> Key, ops: seq<Operation<V>>, i: nat): Key
    requires i < |ops|
  {
    key(ops[i].input)
  }

  /** The operations on key k. */
  ghost function On<V>(key: V -> Key, ops: seq<Operation<V>>, k: Key): set<nat> {
    set i: nat | i < |ops| && KeyOf(key, ops, i) == k
  }

  // ---------------------------------------------------------------- from the whole to one key

  function Only<V>(key: V -> Key, ops: seq<Operation<V>>, order: seq<nat>, k: Key): (r: seq<nat>)
    requires InRange(ops, order)
    ensures InRange(ops, r) && forall i :: i in r <==> i in order && KeyOf(key, ops, i) == k
    decreases |order|
  {
    if |order| == 0 then []
    else
      assert InRange(ops, order[1..]);
      (if KeyOf(key, ops, order[0]) == k then [order[0]] else []) + Only(key, ops, order[1..], k)
  }

  lemma {:induction false} OnlyDistinct<V>(key: V -> Key, ops: seq<Operation<V>>, order: seq<nat>, k: Key)
    requires InRange(ops, order) && Distinct(order)
    ensures Distinct(Only(key, ops, order, k))
    decreases |order|
  {
    if |order| > 0 {
      OnlyDistinct(key, ops, order[1..], k);
      assert order[0] !in order[1..];
    }
  }

  lemma {:induction false} OnlyKeepsTime<V>(key: V -> Key, ops: seq<Operation<V>>, order: seq<nat>, k: Key)
    requires InRange(ops, order) && KeepsTime(ops, order)
    ensures KeepsTime(ops, Only(key, ops, order, k))
    decreases |order|
  {
    if |order| > 0 {
      OnlyKeepsTime(key, ops, order[1..], k);
      var tail := Only(key, ops, order[1..], k);
      forall i | i in tail ensures ops[order[0]].call <= ops[i].ret {
        var b :| 0 <= b < |order| - 1 && order[1..][b] == i;
        assert order[b + 1] == i;
      }
    }
  }

  lemma {:induction false} OnlyAllowed<S, V>(m: Model<S, V>, key: V -> Key, ops: seq<Operation<V>>, state: map<Key, S>, order: seq<nat>, k: Key)
    requires InRange(ops, order) && Allowed(Whole(m, key), ops, state, order)
    ensures Allowed(m, ops, StateOf(m, state, k), Only(key, ops, order, k))
    decreases |order|
  {
    if |order| > 0 {
      var op := ops[order[0]];
      var next := WholeStep(m, key, state, op.input, op.output).1;
      OnlyAllowed(m, key, ops, next, order[1..], k);
      var rest := Only(key, ops, order[1..], k);
      if KeyOf(key, ops, order[0]) == k {
        assert Only(key, ops, order, k)[1..] == rest;
      } else {
        assert Only(key, ops, order, k) == rest;
      }
    }
  }

  lemma WholeToKey<S, V>(m: Model<S, V>, key: V -> Key, ops: seq<Operation<V>>, order: seq<nat>, k: Key)
    requires Orders(Whole(m, key), ops, Search.Ids(|ops|), order)
    ensures Orders(m, ops, On(key, ops, k), Only(key, ops, order, k))
  {
    OnlyDistinct(key, ops, order, k);
    OnlyKeepsTime(key, ops, order, k);
    OnlyAllowed(m, key, ops, map[], order, k);
    forall i: nat ensures i in On(key, ops, k) <==> i in Search.Elements(Only(key, ops, order, k)) {
      assert i in Search.Ids(|ops|) <==> i in Search.Elements(order);
    }
  }

  // ---------------------------------------------------------------- from the keys to the whole

  /** What is left of each key's order. */
  type Queues = map<Key, seq<nat>>

  /** Operation i is left. */
  ghost predicate Left<V>(key: V -> Key, ops: seq<Operation<V>>, q: Queues, i: nat) {
    i < |ops| && KeyOf(key, ops, i) in q && i in q[KeyOf(key, ops, i)]
  }

  ghost predicate QueueOk<S, V>(m: Model<S, V>, key: V -> Key, ops: seq<Operation<V>>, state: map<Key, S>, q: Queues, k: Key)
    requires k in q
  {
    && Distinct(q[k]) && InRange(ops, q[k]) && KeepsTime(ops, q[k])
    && (forall i :: i in q[k] ==> KeyOf(key, ops, i) == k)
    && Allowed(m, ops, StateOf(m, state, k), q[k])
  }

  ghost predicate QueuesOk<S, V>(m: Model<S, V>, key: V -> Key, ops: seq<Operation<V>>, state: map<Key, S>, q: Queues) {
    forall k :: k in q ==> QueueOk(m, key, ops, state, q, k)
  }

  /** Of the operations left, one that returns first. */
  lemma {:induction false} Earliest<V>(ops: seq<Operation<V>>, left: set<nat>) returns (e: nat)
    requires left != {} && forall i :: i in left ==> i < |ops|
    ensures e in left && forall i :: i in left ==> ops[e].ret <= ops[i].ret
    decreases |left|
  {
    e :| e in left;
    if left != {e} {
      var f := Earliest(ops, left - {e});
      if ops[f].ret < ops[e].ret {
        e := f;
      }
      forall i | i in left ensures ops[e].ret <= ops[i].ret {
        assert i == e || i in left - {e} || i !in left - {e};
      }
    }
  }

  /** The head of the order whose key owns the operation left that returns first: it may come
      next, for nothing left returned before it was called. */
  lemma HeadMayComeNext<S, V>(m: Model<S, V>, key: V -> Key, ops: seq<Operation<V>>, state: map<Key, S>, q: Queues, left: set<nat>)
    returns (k: Key)
    requires QueuesOk(m, key, ops, state, q) && Timely(ops) && left != {} && forall i: nat :: i in left <==> Left(key, ops, q, i)
    ensures k in q && |q[k]| > 0 && q[k][0] in left
    ensures forall i :: i in left ==> i < |ops| && q[k][0] < |ops| && ops[q[k][0]].call <= ops[i].ret
  {
    var e := Earliest(ops, left);
    assert Left(key, ops, q, e);
    k := KeyOf(key, ops, e);
    assert QueueOk(m, key, ops, state, q, k);
    var h := q[k][0];
    assert h in q[k] && KeyOf(key, ops, h) == k;
    assert Left(key, ops, q, h);
    var b :| 0 <= b < |q[k]| && q[k][b] == e;
    assert ops[h].call <= ops[e].ret;
  }

  lemma TailKeepsTime<V>(ops: seq<Operation<V>>, order: seq<nat>)
    requires InRange(ops, order) && KeepsTime(ops, order) && Distinct(order) && |order| > 0
    ensures InRange(ops, order[1..]) && KeepsTime(ops, order[1..]) && Distinct(order[1..])
  {
  }

  lemma TailOk<S, V>(m: Model<S, V>, key: V -> Key, ops: seq<Operation<V>>, state: map<Key, S>, q: Queues, k: Key)
    requires QueuesOk(m, key, ops, state, q) && k in q && |q[k]| > 0
    ensures var op := ops[q[k][0]];
            && WholeStep(m, key, state, op.input, op.output).0
            && QueuesOk(m, key, ops, WholeStep(m, key, state, op.input, op.output).1, q[k := q[k][1..]])
  {
    hide KeepsTime;
    assert QueueOk(m, key, ops, state, q, k);
    var h := q[k][0];
    assert h in q[k];
    TailKeepsTime(ops, q[k]);
    var next, q' := WholeStep(m, key, state, ops[h].input, ops[h].output).1, q[k := q[k][1..]];
    forall j | j in q' ensures QueueOk(m, key, ops, next, q', j) {
      assert QueueOk(m, key, ops, state, q, j);
    }
  }

  lemma LeftAfter<V>(key: V -> Key, ops: seq<Operation<V>>, q: Queues, k: Key, i: nat)
    requires k in q && |q[k]| > 0 && Distinct(q[k]) && InRange(ops, q[k]) && forall j :: j in q[k] ==> KeyOf(key, ops, j) == k
    ensures Left(key, ops, q[k := q[k][1..]], i) <==> Left(key, ops, q, i) && i != q[k][0]
  {
    var s := q[k];
    assert s[0] in s;
    assert s == [s[0]] + s[1..];
    assert s[0] !in s[1..];
  }

  /** Merging the orders of the keys into one order of everything left. */
  lemma {:induction false} MergeQueues<S, V>(m: Model<S, V>, key: V -> Key, ops: seq<Operation<V>>, state: map<Key, S>, q: Queues, left: set<nat>)
    returns (order: seq<nat>)
    requires QueuesOk(m, key, ops, state, q) && Timely(ops) && forall i: nat :: i in left <==> Left(key, ops, q, i)
    ensures Distinct(order) && InRange(ops, order) && Search.Elements(order) == left
    ensures KeepsTime(ops, order) && Allowed(Whole(m, key), ops, state, order)
    decreases |left|
  {
    if left == {} {
      order := [];
    } else {
      var k := HeadMayComeNext(m, key, ops, state, q, left);
      var h := q[k][0];
      TailOk(m, key, ops, state, q, k);
      assert QueueOk(m, key, ops, state, q, k);
      forall i: nat ensures i in left - {h} <==> Left(key, ops, q[k := q[k][1..]], i) {
        LeftAfter(key, ops, q, k, i);
      }
      var next := WholeStep(m, key, state, ops[h].input, ops[h].output).1;
      var rest := MergeQueues(m, key, ops, next, q[k := q[k][1..]], left - {h});
      order := Prepend(m, key, ops, state, h, rest, left);
    }
  }

  lemma Prepend<S, V>(m: Model<S, V>, key: V -> Key, ops: seq<Operation<V>>, state: map<Key, S>, h: nat, rest: seq<nat>, left: set<nat>)
    returns (order: seq<nat>)
    requires h < |ops| && h in left && forall i :: i in left ==> i < |ops| && ops[h].call <= ops[i].ret
    requires Distinct(rest) && InRange(ops, rest) && Search.Elements(rest) == left - {h} && KeepsTime(ops, rest)
    requires WholeStep(m, key, state, ops[h].input, ops[h].output).0
    requires Allowed(Whole(m, key), ops, WholeStep(m, key, state, ops[h].input, ops[h].output).1, rest)
    ensures order == [h] + rest && Distinct(order) && InRange(ops, order) && Search.Elements(order) == left
    ensures KeepsTime(ops, order) && Allowed(Whole(m, key), ops, state, order)
  {
    order := [h] + rest;
    assert order[1..] == rest;
    assert forall b :: 0 <= b < |rest| ==> rest[b] in Search.Elements(rest);
    forall a, b | 0 <= a < b < |order| ensures order[a] != order[b] && ops[order[a]].call <= ops[order[b]].ret {
      assert order[b] == rest[b - 1] && (a > 0 ==> order[a] == rest[a - 1]);
    }
    forall i: nat ensures i in Search.Elements(order) <==> i in left {
      assert i in order <==> i == h || i in rest;
      assert i in rest <==> i in Search.Elements(rest);
    }
  }

  ghost predicate KeyOrders<S, V>(m: Model<S, V>, key: V -> Key, ops: seq<Operation<V>>, k: Key) {
    exists order :: Orders(m, ops, On(key, ops, k), order)
  }

  ghost function OrderOf<S, V>(m: Model<S, V>, key: V -> Key, ops: seq<Operation<V>>, k: Key): (order: seq<nat>)
    requires KeyOrders(m, key, ops, k)
    ensures Orders(m, ops, On(key, ops, k), order)
  {
    var order :| Orders(m, ops, On(key, ops, k), order);
    order
  }

  lemma KeysToWhole<S, V>(m: Model<S, V>, key: V -> Key, ops: seq<Operation<V>>, keys: set<Key>) returns (order: seq<nat>)
    requires Timely(ops) && (forall k :: k in keys ==> KeyOrders(m, key, ops, k))
    requires forall i: nat :: i < |ops| ==> KeyOf(key, ops, i) in keys
    ensures Orders(Whole(m, key), ops, Search.Ids(|ops|), order)
  {
    var q: Queues := map k | k in keys :: OrderOf(m, key, ops, k);
    forall k | k in q ensures QueueOk(m, key, ops, map[], q, k) {
      forall i | i in q[k] ensures KeyOf(key, ops, i) == k {
        assert i in Search.Elements(q[k]);
      }
    }
    forall i: nat ensures i in Search.Ids(|ops|) <==> Left(key, ops, q, i) {
      if i < |ops| {
        var k := KeyOf(key, ops, i);
        assert i in On(key, ops, k) && Search.Elements(q[k]) == On(key, ops, k);
      }
    }
    order := MergeQueues(m, key, ops, map[], q, Search.Ids(|ops|));
  }

  /** Locality, over the operations of one history. */
  lemma Local<S, V>(m: Model<S, V>, key: V -> Key, ops: seq<Operation<V>>, keys: set<Key>)
    requires Timely(ops) && forall i: nat :: i < |ops| ==> KeyOf(key, ops, i) in keys
    ensures OpsLinearizable(Whole(m, key), ops) <==> forall k :: k in keys ==> KeyOrders(m, key, ops, k)
  {
    if OpsLinearizable(Whole(m, key), ops) {
      var order :| Orders(Whole(m, key), ops, Search.Ids(|ops|), order);
      forall k | k in keys ensures KeyOrders(m, key, ops, k) {
        WholeToKey(m, key, ops, order, k);
      }
    }
    if forall k :: k in keys ==> KeyOrders(m, key, ops, k) {
      var order := KeysToWhole(m, key, ops, keys);
    }
  }
}
