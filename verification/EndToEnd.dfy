/** The three components together: what the checker may say of the service over Raft. */
module EndToEnd {
  import opened Linearizability
  import opened Operations
  import opened Locality
  import opened Partition
  import opened KvService
  import opened KvTheorem
  import opened KvExactly
  import opened CheckParallel
  import KvModel
  import KvUnsafe
  import RaftPeer

  /** No run of the service over a benign run of the cluster, judged by the checker on what its
      callers saw, is ever Illegal. */
  lemma ServiceNeverIllegal(rules: RaftPeer.Rules, n: nat, clients: set<int>, r: ServiceRun)
    returns (h: History, of: seq<nat>)
    requires BenignServiceRun(rules, n, clients, r)
    ensures Completes(h, of, r.services[|r.steps|].records, |r.steps|) && Timely(h) && Passes(h)
  {
    h, of := ServiceLinearizable(rules, n, clients, r);
    LinearizablePasses(h);
  }

  lemma LinearizablePasses(h: History)
    requires Timely(h) && OpsLinearizable(Whole(KvModel.MODEL, KvModel.KeyOf), h)
    ensures Passes(h)
  {
    forall j: Judgement<Value> ensures !Judges(j, h, Illegal) {
      if Judges(j, h, Illegal) {
        KvJudgedRightly(j, h, Illegal);
      }
    }
  }

  /** The checker cannot find the history illegal, in whatever order its workers answer. */
  ghost predicate Passes(h: History) { forall j: Judgement<Value> :: !Judges(j, h, Illegal) }

  lemma {:induction false} Listed(keys: set<Key>) returns (list: seq<Key>)
    ensures forall a, b :: 0 <= a < b < |list| ==> list[a] != list[b]
    ensures forall k :: k in list <==> k in keys
  {
    list := [];
    if keys != {} {
      var k :| k in keys;
      list := Listed(keys - {k});
      list := [k] + list;
    }
  }

  lemma PartitionExists(h: History) returns (keys: seq<Key>, groups: seq<seq<Operation<Value>>>)
    ensures IsPartition(KvModel.KeyOf, h, keys, groups)
  {
    keys := Listed(set i: nat | i < |h| :: Locality.KeyOf(KvModel.KeyOf, h, i));
    var list := keys;
    groups := seq(|list|, g requires 0 <= g < |list| => Group(KvModel.KeyOf, h, list[g]));
    forall g | 0 <= g < |keys| ensures |groups[g]| > 0 {
      assert keys[g] in keys;
      var i: nat :| i < |h| && Locality.KeyOf(KvModel.KeyOf, h, i) == keys[g];
      GroupHas(KvModel.KeyOf, h, i);
    }
  }

  /** Which partitions are linearizable. */
  ghost function Verdicts(groups: seq<seq<Operation<Value>>>): (r: seq<bool>)
    ensures Exact(KvModel.MODEL, groups, r)
  {
    seq(|groups|, g requires 0 <= g < |groups| => OpsLinearizable(KvModel.MODEL, groups[g]))
  }

  /** The worker of a bad partition is the first to answer. */
  lemma BadFirst(partitions: seq<bool>, g: nat) returns (states: seq<Check>, events: seq<Event>)
    requires g < |partitions| && !partitions[g]
    ensures CheckParallel.IsRun(partitions, false, states, events) && |states| == 3
    ensures !states[2].looping && Verdict(states[2]) == Illegal
  {
    var c0 := CheckParallel.Start(|partitions|);
    var c1 := CheckParallel.Do(partitions, false, c0, Finish(g, false));
    states, events := [c0, c1, CheckParallel.Do(partitions, false, c1, Receive(g))], [Finish(g, false), Receive(g)];
  }

  /** What is not linearizable can be found illegal. */
  lemma IllegalFound(h: History) returns (j: Judgement<Value>)
    requires Timely(h) && !OpsLinearizable(Whole(KvModel.MODEL, KvModel.KeyOf), h)
    ensures Judges(j, h, Illegal)
  {
    var keys, groups := PartitionExists(h);
    PartitionIsLocal(KvModel.MODEL, KvModel.KeyOf, h, keys, groups);
    hide IsPartition, OpsLinearizable;
    var g :| 0 <= g < |groups| && !OpsLinearizable(KvModel.MODEL, groups[g]);
    var states, events := BadFirst(Verdicts(groups), g);
    j := Judgement(keys, groups, Verdicts(groups), false, states, events, 2);
  }

  /** Some completion of what the callers saw passes the checker. */
  ghost predicate NeverIllegal(r: ServiceRun)
    requires |r.services| == |r.steps| + 1
  {
    exists h, of :: Completes(h, of, r.services[|r.steps|].records, |r.steps|) && Timely(h) && Passes(h)
  }

  /** The checker has nothing to complain of, in any run of the service, exactly when all runs
      are linearizable. */
  lemma NeverIllegalExactly(rules: RaftPeer.Rules, n: nat, k: nat)
    ensures (forall clients, r :: IsServiceRun(rules, n, k, clients, r) ==> NeverIllegal(r)) <==> ServiceSafe(rules, n, k)
  {
    if ServiceSafe(rules, n, k) {
      forall clients, r | IsServiceRun(rules, n, k, clients, r) ensures NeverIllegal(r) {
        var h, of := SafeRunExplained(rules, n, k, clients, r);
        LinearizablePasses(h);
      }
    } else {
      var r := UnsafeRun(rules, n, k);
      if NeverIllegal(r) {
        var h, of :| Completes(h, of, r.services[|r.steps|].records, |r.steps|) && Timely(h) && Passes(h);
        NothingExplains(h, of, r.services[|r.steps|].records, |r.steps|);
        var j := IllegalFound(h);
      }
    }
  }
}
