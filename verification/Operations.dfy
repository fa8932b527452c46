/** Histories of operations with call and return times, and the sorted list of entries the
    checker makes of one. */
module Operations {
  import opened Linearizability
  import Search

  datatype Operation<V> = Operation(clientId: int, input: V, call: int, output: V, ret: int)

  /** No operation returns before it is called. */
  ghost predicate Timely<V>(ops: seq<Operation<V>>) {
    forall i :: 0 <= i < |ops| ==> ops[i].call <= ops[i].ret
  }

  ghost predicate InRange<V>(ops: seq<Operation<V>>, order: seq<nat>) {
    forall k :: 0 <= k < |order| ==> order[k] < |ops|
  }

  /** The operations of `order`, one after the other from `state`, are all allowed. */
  ghost predicate Allowed<S, V>(m: Model<S, V>, ops: seq<Operation<V>>, state: S, order: seq<nat>)
    requires InRange(ops, order)
    decreases |order|
  {
    if |order| == 0 then true
    else
      assert InRange(ops, order[1..]);
      var (ok, next) := m.step(state, ops[order[0]].input, ops[order[0]].output);
      ok && Allowed(m, ops, next, order[1..])
  }

  /** Whenever one operation returned before another was called, it comes first. */
  ghost predicate KeepsTime<V>(ops: seq<Operation<V>>, order: seq<nat>)
    requires InRange(ops, order)
  {
    forall a, b :: 0 <= a < b < |order| ==> ops[order[a]].call <= ops[order[b]].ret
  }

  /** `order` lists each of the operations `ids` once, keeps their time and is allowed. */
  ghost predicate Orders<S, V>(m: Model<S, V>, ops: seq<Operation<V>>, ids: set<nat>, order: seq<nat>) {
    && Distinct(order) && InRange(ops, order) && Search.Elements(order) == ids
    && KeepsTime(ops, order) && Allowed(m, ops, m.init, order)
  }

  ghost predicate OpsLinearizable<S, V>(m: Model<S, V>, ops: seq<Operation<V>>) {
    exists order :: Orders(m, ops, Search.Ids(|ops|), order)
  }

  // ---------------------------------------------------------------- entries

  predicate Less<V>(a: Entry<V>, b: Entry<V>) {
    if a.time != b.time then a.time < b.time else a.kind == CallEntry && b.kind == ReturnEntry
  }

  ghost predicate Sorted<V>(entries: seq<Entry<V>>) {
    forall i, j :: 0 <= i < j < |entries| ==> !Less(entries[j], entries[i])
  }

  /** r is s in another order: entry p of r is entry perm[p] of s. */
  ghost predicate Permutes<V>(s: seq<Entry<V>>, r: seq<Entry<V>>, perm: seq<nat>) {
    && |r| == |s| == |perm| && Distinct(perm)
    && forall p :: 0 <= p < |r| ==> perm[p] < |s| && r[p] == s[perm[p]]
  }

  function Inserted<T>(s: seq<T>, at: nat, x: T): (r: seq<T>)
    requires at <= |s|
    ensures |r| == |s| + 1
    ensures forall p :: 0 <= p < |r| ==> r[p] == if p < at then s[p] else if p == at then x else s[p - 1]
  {
    s[..at] + [x] + s[at..]
  }

  lemma InsertSorts<V>(r: seq<Entry<V>>, at: nat, e: Entry<V>)
    requires Sorted(r) && at <= |r| && forall p :: at <= p < |r| ==> Less(e, r[p])
    requires at > 0 ==> !Less(e, r[at - 1])
    ensures Sorted(Inserted(r, at, e))
  {
    var r' := Inserted(r, at, e);
    forall i, j | 0 <= i < j < |r'| ensures !Less(r'[j], r'[i]) {
      if j == at {
        assert i < at - 1 ==> !Less(r[at - 1], r[i]);
      } else {
        assert i != at ==> !Less(r[if j < at then j else j - 1], r[if i < at then i else i - 1]);
      }
    }
  }

  lemma InsertPermutes<V>(s: seq<Entry<V>>, n: nat, r: seq<Entry<V>>, perm: seq<nat>, at: nat)
    requires n < |s| && Permutes(s[..n], r, perm) && at <= n
    ensures Permutes(s[..n + 1], Inserted(r, at, s[n]), Inserted(perm, at, n))
  {
    var perm' := Inserted(perm, at, n);
    forall i, j | 0 <= i < j < |perm'| ensures perm'[i] != perm'[j] {
      assert i != at && j != at ==> perm[if j < at then j else j - 1] != perm[if i < at then i else i - 1];
    }
  }

  /** Sorting as the library does it: nothing more is used than that the result is sorted and
      a permutation. */
  method Sort<V>(s: seq<Entry<V>>) returns (r: seq<Entry<V>>, ghost perm: seq<nat>)
    ensures Sorted(r) && Permutes(s, r, perm)
  {
    r, perm := [], [];
    for i := 0 to |s|
      invariant Sorted(r) && Permutes(s[..i], r, perm)
    {
      var at := i;
      while at > 0 && Less(s[i], r[at - 1])
        invariant 0 <= at <= i && forall p :: at <= p < i ==> Less(s[i], r[p])
      {
        at := at - 1;
      }
      InsertSorts(r, at, s[i]);
      InsertPermutes(s, i, r, perm, at);
      r := Inserted(r, at, s[i]);
      perm := Inserted(perm, at, i);
    }
    assert s[..|s|] == s;
  }

  function CallOf<V>(op: Operation<V>, id: nat): Entry<V> { Entry(CallEntry, op.input, id, op.call, op.clientId) }

  function ReturnOf<V>(op: Operation<V>, id: nat): Entry<V> { Entry(ReturnEntry, op.output, id, op.ret, op.clientId) }

  /** `entries` are the calls and returns of `ops`, sorted by time. */
  ghost predicate AreEntries<V>(ops: seq<Operation<V>>, entries: seq<Entry<V>>, perm: seq<nat>) {
    && |entries| == |perm| == 2 * |ops| && Distinct(perm) && Sorted(entries)
    && forall p :: 0 <= p < |entries| ==> IsEntryOf(ops, entries[p], perm[p])
  }

  ghost predicate IsEntryOf<V>(ops: seq<Operation<V>>, e: Entry<V>, j: nat) {
    && j / 2 < |ops|
    && e == if j % 2 == 0 then CallOf(ops[j / 2], j / 2) else ReturnOf(ops[j / 2], j / 2)
  }

  method MakeEntries<V>(history: seq<Operation<V>>) returns (entries: seq<Entry<V>>, ghost perm: seq<nat>)
    ensures AreEntries(history, entries, perm) && exists p :: AreEntries(history, entries, p)
  {
    entries := [];
    var id := 0;
    for i := 0 to |history|
      invariant id == i && |entries| == 2 * i
      invariant forall j :: 0 <= j < |entries| ==> IsEntryOf(history, entries[j], j)
    {
      entries := entries + [CallOf(history[i], id)];
      entries := entries + [ReturnOf(history[i], id)];
      id := id + 1;
    }
    ghost var unsorted := entries;
    entries, perm := Sort(entries);
    forall p | 0 <= p < |entries| ensures IsEntryOf(history, entries[p], perm[p]) {
      assert IsEntryOf(history, unsorted[perm[p]], perm[p]);
    }
  }

  /** Where the call and the return of operation i are in the entries. */
  lemma EntriesPaired<V>(ops: seq<Operation<V>>, entries: seq<Entry<V>>, perm: seq<nat>, i: nat)
    requires AreEntries(ops, entries, perm) && Timely(ops) && i < |ops|
    ensures Paired(entries, i)
    ensures entries[CallPos(entries, i)] == CallOf(ops[i], i) && entries[ReturnPos(entries, i)] == ReturnOf(ops[i], i)
  {
    forall p | 0 <= p < |perm| ensures perm[p] < 2 * |ops| {
      assert IsEntryOf(ops, entries[p], perm[p]);
    }
    Search.CoversAll(2 * |ops|, perm);
    assert 2 * i in perm && 2 * i + 1 in perm;
    var c :| 0 <= c < |perm| && perm[c] == 2 * i;
    var r :| 0 <= r < |perm| && perm[r] == 2 * i + 1;
    assert IsEntryOf(ops, entries[c], perm[c]) && IsEntryOf(ops, entries[r], perm[r]);
    assert c < r by {
      assert Less(entries[c], entries[r]);
    }
    forall p ensures (CallAt(entries, i, p) ==> p == c) && (ReturnAt(entries, i, p) ==> p == r) {
      if 0 <= p < |entries| && entries[p].id == i {
        assert IsEntryOf(ops, entries[p], perm[p]);
        assert perm[p] == if entries[p].kind == CallEntry then 2 * i else 2 * i + 1;
      }
    }
    assert CallAt(entries, i, c) && ReturnAt(entries, i, r);
  }

  /** The checker's history of any timely operations is well formed. */
  lemma EntriesWellFormed<V>(ops: seq<Operation<V>>, entries: seq<Entry<V>>, perm: seq<nat>)
    requires AreEntries(ops, entries, perm) && Timely(ops)
    ensures WellFormed(entries, |ops|)
  {
    forall p | 0 <= p < |entries| ensures entries[p].id < |ops| {
      assert IsEntryOf(ops, entries[p], perm[p]);
    }
    forall i: nat | i < |ops| ensures Paired(entries, i) {
      EntriesPaired(ops, entries, perm, i);
    }
  }

  /** Sorted with calls first, one operation precedes another in the list exactly when it
      returned at an earlier time than the other was called. */
  lemma PrecedesByTime<V>(ops: seq<Operation<V>>, entries: seq<Entry<V>>, perm: seq<nat>, a: nat, b: nat)
    requires AreEntries(ops, entries, perm) && Timely(ops) && a < |ops| && b < |ops|
    ensures Paired(entries, a) && Paired(entries, b)
    ensures Precedes(entries, a, b) <==> ops[a].ret < ops[b].call
  {
    EntriesPaired(ops, entries, perm, a);
    EntriesPaired(ops, entries, perm, b);
    var r, c := ReturnPos(entries, a), CallPos(entries, b);
    assert r != c;
    if ops[a].ret < ops[b].call {
      assert Less(entries[r], entries[c]);
    } else {
      assert Less(entries[c], entries[r]);
    }
  }

  lemma {:induction false} SameAllowed<S, V>(m: Model<S, V>, ops: seq<Operation<V>>, entries: seq<Entry<V>>, perm: seq<nat>,
                                             state: S, order: seq<nat>)
    requires AreEntries(ops, entries, perm) && Timely(ops) && InRange(ops, order) && Known(entries, order)
    ensures Legal(m, entries, state, order) <==> Allowed(m, ops, state, order)
    decreases |order|
  {
    if |order| > 0 {
      var i := order[0];
      EntriesPaired(ops, entries, perm, i);
      SameAllowed(m, ops, entries, perm, Perform(m, entries, state, i).1, order[1..]);
    }
  }

  lemma SameTime<V>(ops: seq<Operation<V>>, entries: seq<Entry<V>>, perm: seq<nat>, order: seq<nat>)
    requires AreEntries(ops, entries, perm) && Timely(ops) && InRange(ops, order) && Known(entries, order)
    ensures (forall a, b :: 0 <= a < b < |order| ==> !Precedes(entries, order[b], order[a])) <==> KeepsTime(ops, order)
  {
    hide AreEntries, Timely;
    forall a, b | 0 <= a < b < |order| ensures Precedes(entries, order[b], order[a]) <==> ops[order[b]].ret < ops[order[a]].call {
      PrecedesByTime(ops, entries, perm, order[b], order[a]);
    }
    if KeepsTime(ops, order) {
      forall a, b | 0 <= a < b < |order| ensures !Precedes(entries, order[b], order[a]) {
        assert ops[order[a]].call <= ops[order[b]].ret;
      }
    }
  }

  lemma AllIds(n: nat, order: seq<nat>)
    requires Distinct(order) && forall k :: 0 <= k < |order| ==> order[k] < n
    ensures |order| == n <==> Search.Elements(order) == Search.Ids(n)
  {
    Search.IdsSize(n);
    Search.DistinctSize(order);
    if |order| == n {
      Search.CoversAll(n, order);
    }
  }

  lemma SameOrders<S, V>(m: Model<S, V>, ops: seq<Operation<V>>, entries: seq<Entry<V>>, perm: seq<nat>, order: seq<nat>)
    requires AreEntries(ops, entries, perm) && Timely(ops)
    ensures IsLinearization(m, entries, |ops|, order) <==> Orders(m, ops, Search.Ids(|ops|), order)
  {
    hide AreEntries, Timely, Distinct, KeepsTime, Legal, Allowed;
    if Distinct(order) && InRange(ops, order) {
      EntriesWellFormed(ops, entries, perm);
      SameAllowed(m, ops, entries, perm, m.init, order);
      SameTime(ops, entries, perm, order);
      AllIds(|ops|, order);
    }
  }

  /** A history is linearizable to the checker exactly when it is by its times. */
  lemma EntriesLinearizable<S, V>(m: Model<S, V>, ops: seq<Operation<V>>, entries: seq<Entry<V>>, perm: seq<nat>)
    requires AreEntries(ops, entries, perm) && Timely(ops)
    ensures Linearizable(m, entries, |ops|) <==> OpsLinearizable(m, ops)
  {
    forall order ensures IsLinearization(m, entries, |ops|, order) <==> Orders(m, ops, Search.Ids(|ops|), order) {
      SameOrders(m, ops, entries, perm, order);
    }
    if Linearizable(m, entries, |ops|) {
      var order :| IsLinearization(m, entries, |ops|, order);
      assert Orders(m, ops, Search.Ids(|ops|), order);
    }
    if OpsLinearizable(m, ops) {
      var order :| Orders(m, ops, Search.Ids(|ops|), order);
      assert IsLinearization(m, entries, |ops|, order);
    }
  }
}
