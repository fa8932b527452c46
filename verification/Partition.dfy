/** Splitting a history into the sub-histories of its keys. */
module Partition {
  import opened Linearizability
  import opened Operations
  import opened Locality
  import Search

  /** The positions of the operations on key k, in order. */
  function Positions<V>(key: V -> Key, ops: seq<Operation<V>>, k: Key): (r: seq<nat>)
    ensures InRange(ops, r)
  {
    if |ops| == 0 then []
    else Positions(key, ops[..|ops| - 1], k) + (if key(ops[|ops| - 1].input) == k then [|ops| - 1] else [])
  }

  lemma {:induction false} PositionsAre<V>(key: V -> Key, ops: seq<Operation<V>>, k: Key)
    ensures Distinct(Positions(key, ops, k)) && Search.Elements(Positions(key, ops, k)) == On(key, ops, k)
  {
    if |ops| > 0 {
      var before := ops[..|ops| - 1];
      PositionsAre(key, before, k);
      forall i: nat ensures i in Positions(key, ops, k) <==> i in On(key, ops, k) {
        assert i in Positions(key, before, k) <==> i in Search.Elements(Positions(key, before, k));
      }
    }
  }

  lemma {:induction false} PositionsAscend<V>(key: V -> Key, ops: seq<Operation<V>>, k: Key)
    ensures forall a, b :: 0 <= a < b < |Positions(key, ops, k)| ==> Positions(key, ops, k)[a] < Positions(key, ops, k)[b]
  {
    if |ops| > 0 {
      PositionsAscend(key, ops[..|ops| - 1], k);
    }
  }

  /** The sub-history of key k. */
  function Group<V>(key: V -> Key, ops: seq<Operation<V>>, k: Key): (r: seq<Operation<V>>)
    ensures |r| == |Positions(key, ops, k)|
    ensures forall j :: 0 <= j < |r| ==> r[j] == ops[Positions(key, ops, k)[j]]
  {
    var p := Positions(key, ops, k);
    seq(|p|, j requires 0 <= j < |p| => ops[p[j]])
  }

  lemma GroupGrows<V>(key: V -> Key, ops: seq<Operation<V>>, n: nat, k: Key)
    requires n < |ops|
    ensures Group(key, ops[..n + 1], k) == Group(key, ops[..n], k) + if key(ops[n].input) == k then [ops[n]] else []
  {
    assert ops[..n + 1][..n] == ops[..n];
  }

  // ---------------------------------------------------------------- a group is its own history

  /** Orders of equal operations are allowed alike and keep time alike. */
  lemma {:induction false} SameOps<S, V>(m: Model<S, V>, a: seq<Operation<V>>, r: seq<nat>, b: seq<Operation<V>>, s: seq<nat>, state: S)
    requires InRange(a, r) && InRange(b, s) && |r| == |s| && forall j :: 0 <= j < |r| ==> a[r[j]] == b[s[j]]
    ensures Allowed(m, a, state, r) <==> Allowed(m, b, state, s)
    decreases |r|
  {
    if |r| > 0 {
      SameOps(m, a, r[1..], b, s[1..], m.step(state, a[r[0]].input, a[r[0]].output).1);
    }
  }

  lemma SameTimes<V>(a: seq<Operation<V>>, r: seq<nat>, b: seq<Operation<V>>, s: seq<nat>)
    requires InRange(a, r) && InRange(b, s) && |r| == |s| && forall j :: 0 <= j < |r| ==> a[r[j]] == b[s[j]]
    requires KeepsTime(a, r)
    ensures KeepsTime(b, s)
  {
    forall i, j | 0 <= i < j < |s| ensures b[s[i]].call <= b[s[j]].ret {
      assert a[r[i]].call <= a[r[j]].ret;
    }
  }

  /** An order of the group, read as an order of the history. */
  lemma GroupToHistory<S, V>(m: Model<S, V>, ops: seq<Operation<V>>, at: seq<nat>, group: seq<Operation<V>>, order: seq<nat>)
    returns (r: seq<nat>)
    requires InRange(ops, at) && Distinct(at) && |group| == |at| && forall j :: 0 <= j < |at| ==> group[j] == ops[at[j]]
    requires Orders(m, group, Search.Ids(|group|), order)
    ensures Orders(m, ops, Search.Elements(at), r)
  {
    r := seq(|order|, a requires 0 <= a < |order| => at[order[a]]);
    SameOps(m, group, order, ops, r, m.init);
    SameTimes(group, order, ops, r);
    forall a, b | 0 <= a < b < |r| ensures r[a] != r[b] {
      assert order[a] != order[b];
    }
    hide KeepsTime, Allowed;
    MappedElements(at, order, r);
  }

  /** An order of all places of `at`, read as an order of what is there. */
  lemma MappedElements(at: seq<nat>, order: seq<nat>, r: seq<nat>)
    requires Search.Elements(order) == Search.Ids(|at|) && |r| == |order|
    requires forall a :: 0 <= a < |r| ==> order[a] < |at| && r[a] == at[order[a]]
    ensures Search.Elements(r) == Search.Elements(at)
  {
    forall i: nat ensures i in Search.Elements(r) <==> i in Search.Elements(at) {
      if i in at {
        var j :| 0 <= j < |at| && at[j] == i;
        assert j in Search.Ids(|at|) && j in Search.Elements(order);
        var a :| 0 <= a < |order| && order[a] == j;
        assert r[a] == i;
      }
    }
  }

  function IndexIn(at: seq<nat>, i: nat): (j: nat)
    requires i in at
    ensures j < |at| && at[j] == i
  {
    if at[0] == i then 0 else IndexIn(at[1..], i) + 1
  }

  /** An order of the history's operations on a key, read as an order of the group. */
  lemma HistoryToGroup<S, V>(m: Model<S, V>, ops: seq<Operation<V>>, at: seq<nat>, group: seq<Operation<V>>, order: seq<nat>)
    returns (r: seq<nat>)
    requires InRange(ops, at) && Distinct(at) && |group| == |at| && forall j :: 0 <= j < |at| ==> group[j] == ops[at[j]]
    requires Orders(m, ops, Search.Elements(at), order)
    ensures Orders(m, group, Search.Ids(|group|), r)
  {
    forall a | 0 <= a < |order| ensures order[a] in at {
      assert order[a] in Search.Elements(order);
    }
    r := seq(|order|, a requires 0 <= a < |order| => IndexIn(at, order[a]));
    SameOps(m, ops, order, group, r, m.init);
    SameTimes(ops, order, group, r);
    forall a, b | 0 <= a < b < |r| ensures r[a] != r[b] {
      assert order[a] != order[b];
    }
    forall j: nat ensures j in Search.Elements(r) <==> j in Search.Ids(|group|) {
      if j < |at| {
        assert at[j] in Search.Elements(at) && at[j] in Search.Elements(order);
        var a :| 0 <= a < |order| && order[a] == at[j];
        assert r[a] == j;
      }
    }
  }

  lemma GroupIsKey<S, V>(m: Model<S, V>, key: V -> Key, ops: seq<Operation<V>>, k: Key)
    ensures OpsLinearizable(m, Group(key, ops, k)) <==> KeyOrders(m, key, ops, k)
  {
    var at, group := Positions(key, ops, k), Group(key, ops, k);
    PositionsAre(key, ops, k);
    if OpsLinearizable(m, group) {
      var order :| Orders(m, group, Search.Ids(|group|), order);
      var r := GroupToHistory(m, ops, at, group, order);
    }
    if KeyOrders(m, key, ops, k) {
      var order :| Orders(m, ops, On(key, ops, k), order);
      var r := HistoryToGroup(m, ops, at, group, order);
    }
  }

  /** `groups` are the sub-histories of `keys`, which are all the keys of the history. */
  ghost predicate IsPartition<V>(key: V -> Key, ops: seq<Operation<V>>, keys: seq<Key>, groups: seq<seq<Operation<V>>>) {
    && |groups| == |keys| && (forall a, b :: 0 <= a < b < |keys| ==> keys[a] != keys[b])
    && (forall i: nat :: i < |ops| ==> KeyOf(key, ops, i) in keys)
    && (forall g :: 0 <= g < |keys| ==> groups[g] == Group(key, ops, keys[g]) && |groups[g]| > 0)
  }

  /** The contract of a partition function: a history is linearizable exactly when each of
      its groups is. */
  lemma PartitionIsLocal<S, V>(m: Model<S, V>, key: V -> Key, ops: seq<Operation<V>>, keys: seq<Key>, groups: seq<seq<Operation<V>>>)
    requires Timely(ops) && IsPartition(key, ops, keys, groups)
    ensures OpsLinearizable(Whole(m, key), ops) <==> forall g :: 0 <= g < |groups| ==> OpsLinearizable(m, groups[g])
  {
    var all := set k | k in keys;
    Local(m, key, ops, all);
    forall k ensures KeyOrders(m, key, ops, k) <==> OpsLinearizable(m, Group(key, ops, k)) {
      GroupIsKey(m, key, ops, k);
    }
    if forall g :: 0 <= g < |groups| ==> OpsLinearizable(m, groups[g]) {
      forall k | k in all ensures KeyOrders(m, key, ops, k) {
        var g :| 0 <= g < |keys| && keys[g] == k;
        assert OpsLinearizable(m, groups[g]);
      }
    }
    if forall k :: k in all ==> KeyOrders(m, key, ops, k) {
      forall g | 0 <= g < |groups| ensures OpsLinearizable(m, groups[g]) {
        assert keys[g] in all;
      }
    }
  }

  lemma GroupsTimely<V>(key: V -> Key, ops: seq<Operation<V>>, k: Key)
    requires Timely(ops)
    ensures Timely(Group(key, ops, k))
  {
  }

  function Lookup<V>(m: map<Key, seq<Operation<V>>>, k: Key): seq<Operation<V>> { if k in m then m[k] else [] }

  lemma GroupHas<V>(key: V -> Key, ops: seq<Operation<V>>, i: nat)
    requires i < |ops|
    ensures |Group(key, ops, KeyOf(key, ops, i))| > 0
  {
    var k := KeyOf(key, ops, i);
    PositionsAre(key, ops, k);
    assert i in On(key, ops, k) && i in Search.Elements(Positions(key, ops, k));
  }

  method GroupByKey<V>(key: V -> Key, history: seq<Operation<V>>) returns (m: map<Key, seq<Operation<V>>>)
    ensures forall k :: k in m ==> m[k] == Group(key, history, k) && |m[k]| > 0
    ensures forall i: nat :: i < |history| ==> KeyOf(key, history, i) in m
  {
    hide Group;
    m := map[];
    for i := 0 to |history|
      invariant forall k :: Lookup(m, k) == Group(key, history[..i], k)
      invariant forall k :: k in m ==> |m[k]| > 0
    {
      var k := key(history[i].input);
      ghost var before := m;
      m := m[k := Lookup(m, k) + [history[i]]];
      forall x ensures Lookup(m, x) == Group(key, history[..i + 1], x) {
        GroupGrows(key, history, i, x);
        assert Lookup(before, x) == Group(key, history[..i], x);
      }
    }
    assert history[..|history|] == history;
    forall i: nat | i < |history| ensures KeyOf(key, history, i) in m {
      GroupHas(key, history, i);
      assert Lookup(m, KeyOf(key, history, i)) == Group(key, history, KeyOf(key, history, i));
    }
    forall k | k in m ensures m[k] == Group(key, history, k) {
      assert Lookup(m, k) == Group(key, history, k);
    }
  }

  // ---------------------------------------------------------------- the order of the groups

  /** The order of strings. */
  predicate Before(a: Key, b: Key) {
    |b| > 0 && (|a| == 0 || a[0] < b[0] || (a[0] == b[0] && Before(a[1..], b[1..])))
  }

  /** They agree up to i, and there a ends or has the smaller character. */
  predicate DifferAt(a: Key, b: Key, i: nat) {
    i <= |a| && i < |b| && a[..i] == b[..i] && (i == |a| || a[i] < b[i])
  }

  /** The order is that of the first characters that differ, and a prefix comes first. */
  lemma {:induction false} BeforeExactly(a: Key, b: Key)
    ensures Before(a, b) <==> exists i: nat :: DifferAt(a, b, i)
  {
    if Before(a, b) {
      if |a| == 0 || a[0] < b[0] {
        assert DifferAt(a, b, 0);
      } else {
        BeforeExactly(a[1..], b[1..]);
        var i: nat :| DifferAt(a[1..], b[1..], i);
        assert a[..i + 1] == [a[0]] + a[1..][..i] && b[..i + 1] == [b[0]] + b[1..][..i];
        assert DifferAt(a, b, i + 1);
      }
    } else if i: nat :| DifferAt(a, b, i) {
      if i > 0 {
        assert a[0] == a[..i][0] == b[..i][0] == b[0];
        assert a[1..][..i - 1] == a[..i][1..] && b[1..][..i - 1] == b[..i][1..];
        assert DifferAt(a[1..], b[1..], i - 1);
        BeforeExactly(a[1..], b[1..]);
      }
      assert false;
    }
  }

  lemma {:induction false} BeforeTotal(a: Key, b: Key)
    ensures a == b || Before(a, b) || Before(b, a)
    ensures Before(a, b) ==> a != b && !Before(b, a)
  {
    if |a| > 0 && |b| > 0 && a[0] == b[0] {
      BeforeTotal(a[1..], b[1..]);
      assert a == [a[0]] + a[1..] && b == [b[0]] + b[1..];
    }
  }

  lemma {:induction false} BeforeTrans(a: Key, b: Key, c: Key)
    requires Before(a, b) && Before(b, c)
    ensures Before(a, c)
  {
    if |a| > 0 && a[0] == b[0] == c[0] {
      BeforeTrans(a[1..], b[1..], c[1..]);
    }
  }

  predicate InOrder(keys: seq<Key>) { forall a, b :: 0 <= a < b < |keys| ==> Before(keys[a], keys[b]) }

  lemma InsertInOrder(keys: seq<Key>, at: nat, k: Key)
    requires InOrder(keys) && at <= |keys| && k !in keys
    requires at > 0 ==> !Before(k, keys[at - 1])
    requires at < |keys| ==> Before(k, keys[at])
    ensures InOrder(keys[..at] + [k] + keys[at..])
  {
    forall a | 0 <= a < |keys| ensures if a < at then Before(keys[a], k) else Before(k, keys[a]) {
      if a < at {
        BeforeTotal(keys[at - 1], k);
        if a < at - 1 {
          BeforeTrans(keys[a], keys[at - 1], k);
        }
      } else if a > at {
        BeforeTrans(k, keys[at], keys[a]);
      }
    }
  }

  /** Sorting as the library does it. */
  method SortKeys(keys: seq<Key>) returns (r: seq<Key>)
    requires forall a, b :: 0 <= a < b < |keys| ==> keys[a] != keys[b]
    ensures InOrder(r) && |r| == |keys| && forall k :: k in r <==> k in keys
  {
    r := [];
    for i := 0 to |keys|
      invariant InOrder(r) && |r| == i && forall k :: k in r <==> k in keys[..i]
    {
      var k := keys[i];
      var at := i;
      while at > 0 && Before(k, r[at - 1])
        invariant 0 <= at <= i && (at < i ==> Before(k, r[at]))
      {
        at := at - 1;
      }
      InsertInOrder(r, at, k);
      ghost var before := r;
      r := r[..at] + [k] + r[at..];
      forall x ensures x in r <==> x in keys[..i + 1] {
        assert before == before[..at] + before[at..];
        assert keys[..i + 1] == keys[..i] + [k];
      }
    }
    assert keys[..|keys|] == keys;
  }

  lemma FirstIn(a: seq<Key>)
    requires |a| > 0
    ensures a[0] in a
  {
  }

  lemma {:induction false} InOrderUnique(a: seq<Key>, b: seq<Key>)
    requires InOrder(a) && InOrder(b) && forall k :: k in a <==> k in b
    ensures a == b
    decreases |a|
  {
    if |a| == 0 {
      assert b == [] by {
        if |b| > 0 {
          FirstIn(b);
          assert false;
        }
      }
    } else {
      FirstIn(a);
      FirstIn(b);
      BeforeTotal(a[0], b[0]);
      forall k ensures k in a[1..] <==> k in b[1..] {
        TailHas(a, k);
        TailHas(b, k);
      }
      InOrderUnique(a[1..], b[1..]);
      assert a == [a[0]] + a[1..] && b == [b[0]] + b[1..];
    }
  }

  lemma TailHas(a: seq<Key>, k: Key)
    requires InOrder(a) && |a| > 0
    ensures k in a[1..] <==> k in a && k != a[0]
  {
    forall i | 0 < i < |a| ensures a[i] != a[0] {
      BeforeTotal(a[0], a[i]);
    }
  }

  /** A partition in the order of its keys is the only one of its history. */
  lemma PartitionUnique<V>(key: V -> Key, ops: seq<Operation<V>>, keys: seq<Key>, groups: seq<seq<Operation<V>>>,
                           keys': seq<Key>, groups': seq<seq<Operation<V>>>)
    requires IsPartition(key, ops, keys, groups) && IsPartition(key, ops, keys', groups') && InOrder(keys) && InOrder(keys')
    ensures keys == keys' && groups == groups'
  {
    forall k ensures k in keys <==> k in keys' {
      OccursExactly(key, ops, keys, groups, k);
      OccursExactly(key, ops, keys', groups', k);
    }
    InOrderUnique(keys, keys');
  }

  lemma OccursExactly<V>(key: V -> Key, ops: seq<Operation<V>>, keys: seq<Key>, groups: seq<seq<Operation<V>>>, k: Key)
    requires IsPartition(key, ops, keys, groups)
    ensures k in keys <==> exists i: nat :: i < |ops| && KeyOf(key, ops, i) == k
  {
    if k in keys {
      var g :| 0 <= g < |keys| && keys[g] == k;
      assert |groups[g]| > 0;
      PositionsAre(key, ops, k);
      var i := Positions(key, ops, k)[0];
      assert i in Search.Elements(Positions(key, ops, k));
      assert KeyOf(key, ops, i) == k;
    }
  }

  /** The groups of a history, one for each key that occurs, in the order of the keys. */
  method Split<V>(key: V -> Key, history: seq<Operation<V>>) returns (ret: seq<seq<Operation<V>>>, keys: seq<Key>)
    ensures IsPartition(key, history, keys, ret) && InOrder(keys)
  {
    var m := GroupByKey(key, history);
    var rest := m.Keys;
    keys := [];
    while rest != {}
      invariant rest <= m.Keys && forall k :: k in m <==> k in rest || k in keys
      invariant forall a, b :: 0 <= a < b < |keys| ==> keys[a] != keys[b]
      invariant forall k :: k in keys ==> k in m && k !in rest
      decreases |rest|
    {
      var k :| k in rest;
      keys := keys + [k];
      rest := rest - {k};
    }
    keys := SortKeys(keys);
    forall a, b | 0 <= a < b < |keys| ensures keys[a] != keys[b] {
      BeforeTotal(keys[a], keys[b]);
    }
    ret := [];
    for g := 0 to |keys|
      invariant |ret| == g && forall i :: 0 <= i < g ==> keys[i] in m && ret[i] == m[keys[i]]
    {
      assert keys[g] in keys;
      ret := ret + [m[keys[g]]];
    }
  }
}
