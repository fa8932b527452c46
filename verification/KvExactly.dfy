/** For which rules and which sizes of cluster the service is linearizable in every run. */
module KvExactly {
  import opened Commands
  import opened KvState
  import opened KvService
  import opened KvTheorem
  import opened KvUnsafe
  import opened KvReordered
  import opened KvSilent
  import opened Linearizability
  import opened Operations
  import opened Locality
  import RaftElectable
  import RaftExactly
  import RaftPeer
  import RaftRuns
  import Search
  import KvModel

  type History = seq<Operation<Value>>

  /** A history that explains what the callers in run r saw. */
  ghost predicate Explains(h: History, of: seq<nat>, r: ServiceRun)
    requires |r.services| == |r.steps| + 1
  {
    && Completes(h, of, r.services[|r.steps|].records, |r.steps|) && Timely(h)
    && OpsLinearizable(Whole(KvModel.MODEL, KvModel.KeyOf), h)
  }

  ghost predicate SeenLinearizable(r: ServiceRun)
    requires |r.services| == |r.steps| + 1
  {
    exists h, of :: Explains(h, of, r)
  }

  // ---------------------------------------------------------------- reads that nothing explains

  /** The operation only reads or appends. */
  predicate Grows(o: Operation<Value>) { o.input.KvInput? && (o.input.op == KvModel.GET || o.input.op == KvModel.APPEND) }

  predicate Reads(o: Operation<Value>, value: string) {
    o.input.KvInput? && o.input.op == KvModel.GET && o.output == KvModel.KvOutput(value)
  }

  /** Where nothing is overwritten the first character stays. */
  lemma {:induction false} FirstStays(ops: History, state: string, order: seq<nat>, i: nat, value: string)
    requires InRange(ops, order) && Allowed(KvModel.MODEL, ops, state, order) && |state| > 0
    requires (forall k :: 0 <= k < |order| ==> Grows(ops[order[k]])) && i in order && Reads(ops[i], value)
    ensures |value| > 0 && value[0] == state[0]
    decreases |order|
  {
    if order[0] != i {
      FirstStays(ops, KvModel.Step(state, ops[order[0]].input, ops[order[0]].output).1, order[1..], i, value);
    }
  }

  /** So two reads of something begin alike. */
  lemma {:induction false} ReadsBeginAlike(ops: History, state: string, order: seq<nat>, i: nat, a: string, j: nat, b: string)
    requires InRange(ops, order) && Allowed(KvModel.MODEL, ops, state, order)
    requires (forall k :: 0 <= k < |order| ==> Grows(ops[order[k]])) && i in order && j in order
    requires Reads(ops[i], a) && Reads(ops[j], b) && |a| > 0 && |b| > 0
    ensures a[0] == b[0]
    decreases |order|
  {
    var next := KvModel.Step(state, ops[order[0]].input, ops[order[0]].output).1;
    if order[0] == i == j {
      assert a == b;
    } else if order[0] == i {
      FirstStays(ops, next, order[1..], j, b);
    } else if order[0] == j {
      FirstStays(ops, next, order[1..], i, a);
    } else {
      ReadsBeginAlike(ops, next, order[1..], i, a, j, b);
    }
  }

  /** On the key of the reads nothing is overwritten. */
  lemma OnKeyGrows(h: History, of: seq<nat>, records: seq<Record>, end: nat, j: nat)
    requires Completes(h, of, records, end) && SeenApart(records) && j < |h|
    ensures KvModel.KeyOf(h[j].input) == KEY ==> Grows(h[j])
  {
    assert IsOperation(h[j], records[of[j]], end);
    assert of[j] == 0 || of[j] == 1 || of[j] == 2 || of[j] == 3 || of[j] == 4;
  }

  lemma ReadSeen(h: History, of: seq<nat>, records: seq<Record>, end: nat, s: nat) returns (j: nat)
    requires Completes(h, of, records, end) && SeenApart(records) && s < 2
    ensures j < |h| && Reads(h[j], records[3 + s].output) && KvModel.KeyOf(h[j].input) == KEY
    ensures Begins(records[3 + s].output, s)
  {
    var mark := Mark(s);
    assert records[3 + s].done && Begins(records[3 + s].output, s);
    j :| 0 <= j < |of| && of[j] == 3 + s;
    assert IsOperation(h[j], records[of[j]], end);
    assert OPS[3 + s] == Read(s);
  }

  /** What the callers saw is not linearizable, however it is completed. */
  lemma NothingExplains(h: History, of: seq<nat>, records: seq<Record>, end: nat)
    requires Completes(h, of, records, end) && SeenApart(records) && Timely(h)
    ensures !OpsLinearizable(Whole(KvModel.MODEL, KvModel.KeyOf), h)
  {
    if OpsLinearizable(Whole(KvModel.MODEL, KvModel.KeyOf), h) {
      var keys := set j: nat | j < |h| :: KeyOf(KvModel.KeyOf, h, j);
      Local(KvModel.MODEL, KvModel.KeyOf, h, keys);
      var a := ReadSeen(h, of, records, end, 0);
      var b := ReadSeen(h, of, records, end, 1);
      assert KeyOf(KvModel.KeyOf, h, a) in keys;
      assert KeyOrders(KvModel.MODEL, KvModel.KeyOf, h, KEY);
      var order :| Orders(KvModel.MODEL, h, On(KvModel.KeyOf, h, KEY), order);
      OnlyKey(h, order, a);
      OnlyKey(h, order, b);
      forall k | 0 <= k < |order| ensures Grows(h[order[k]]) {
        assert order[k] in Search.Elements(order);
        OnKeyGrows(h, of, records, end, order[k]);
      }
      ReadsBeginAlike(h, "", order, a, records[3].output, b, records[4].output);
    }
  }

  lemma OnlyKey(h: History, order: seq<nat>, j: nat)
    requires Search.Elements(order) == On(KvModel.KeyOf, h, KEY) && j < |h| && KvModel.KeyOf(h[j].input) == KEY
    ensures j in order
  {
    assert j in On(KvModel.KeyOf, h, KEY);
  }

  // ---------------------------------------------------------------- the theorem

  /** One applier and a safe cluster, or nothing ever returns. */
  predicate ServiceSafe(rules: RaftPeer.Rules, n: nat, k: nat) {
    n <= 1 || k == 0 || (k == 1 && RaftExactly.CommitsSafe(rules, n))
  }

  /** A run of an unsafe service that is not linearizable. */
  lemma UnsafeRun(rules: RaftPeer.Rules, n: nat, k: nat) returns (r: ServiceRun)
    requires !ServiceSafe(rules, n, k)
    ensures IsServiceRun(rules, n, k, CLIENTS, r) && SeenApart(r.services[|r.steps|].records)
  {
    if k >= 2 {
      r := ReadsReordered(rules, n, k);
    } else {
      var run := RaftExactly.Diverges(rules, n, CMDS, Kv(FILLER), Own(0), Own(1));
      RaftElectable.Sized(rules, n, run);
      r := ReadsApart(rules, n, k, run, RaftExactly.Before(rules, Kv(FILLER)));
    }
  }

  lemma SafeRunExplained(rules: RaftPeer.Rules, n: nat, k: nat, clients: set<int>, r: ServiceRun)
    returns (h: History, of: seq<nat>)
    requires IsServiceRun(rules, n, k, clients, r) && ServiceSafe(rules, n, k)
    ensures Explains(h, of, r)
  {
    if n <= 1 || k == 0 {
      SilentAlways(rules, n, k, clients, r, |r.steps|);
      h, of := [], [];
      SilentExplained(r, k);
    } else {
      hide OpsLinearizable, Completes;
      RaftExactly.SafeRunsAreBenign(rules, n, r.raft);
      h, of := ServiceLinearizable(rules, n, clients, r);
    }
  }

  lemma SilentExplained(r: ServiceRun, k: nat)
    requires |r.services| == |r.steps| + 1 && Silent(r.services[|r.steps|], k)
    ensures Explains([], [], r)
  {
    hide OpsLinearizable;
    NothingSeen([]);
  }

  lemma NothingSeen(h: History)
    requires h == []
    ensures OpsLinearizable(Whole(KvModel.MODEL, KvModel.KeyOf), h)
  {
    assert Orders(Whole(KvModel.MODEL, KvModel.KeyOf), h, Search.Ids(0), []);
  }

  /** The service of n servers with k appliers each is linearizable in every run exactly when it
      has one applier for each server and a safe cluster, or nothing in it ever returns. */
  lemma LinearizableExactly(rules: RaftPeer.Rules, n: nat, k: nat)
    ensures (forall clients, r :: IsServiceRun(rules, n, k, clients, r) ==> SeenLinearizable(r)) <==> ServiceSafe(rules, n, k)
  {
    if ServiceSafe(rules, n, k) {
      forall clients, r | IsServiceRun(rules, n, k, clients, r) ensures SeenLinearizable(r) {
        var h, of := SafeRunExplained(rules, n, k, clients, r);
      }
    } else {
      var r := UnsafeRun(rules, n, k);
      if SeenLinearizable(r) {
        var h, of :| Explains(h, of, r);
        NothingExplains(h, of, r.services[|r.steps|].records, |r.steps|);
      }
    }
  }
}
