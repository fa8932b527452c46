/** Services in which nothing ever returns: with one peer no entry is ever committed, since the
    commit index moves only on replies, and without an applier none is ever delivered. */
module KvSilent {
  import opened KvState
  import opened KvService
  import RaftPeer
  import RaftCluster
  import RaftAppliers

  /** Nothing is committed, and there is nobody to send entries to. */
  ghost predicate Alone(c: RaftCluster.Cluster, n: nat) {
    && |c.peers| == n <= 1 && (n == 1 ==> c.peers[0].me == 0 && c.peers[0].commitIndex == 0)
    && forall m :: m in c.msgs ==> !m.Append? && !m.AppendReply?
  }

  lemma AloneStays(rules: RaftPeer.Rules, n: nat, c: RaftCluster.Cluster, step: RaftCluster.Step)
    requires Alone(c, n) && RaftCluster.Enabled(c, step)
    ensures Alone(RaftCluster.Do(rules, c, step), n)
  {
    hide RaftPeer.HandleAppend, RaftPeer.HandleReplicateReply;
  }

  lemma {:induction false} AloneAlways(rules: RaftPeer.Rules, n: nat, run: RaftCluster.Run, i: nat)
    requires RaftCluster.IsRun(rules, n, run) && n <= 1 && i < |run.states|
    ensures Alone(run.states[i], n)
  {
    if i > 0 {
      AloneAlways(rules, n, run, i - 1);
      assert RaftCluster.IsStep(rules, run, i - 1);
      AloneStays(rules, n, run.states[i - 1], run.steps[i - 1]);
    }
  }

  /** No server has applied anything, and no operation has returned. */
  ghost predicate Silent(v: Service, k: nat) {
    && (forall s {:trigger v.servers[s]} :: 0 <= s < |v.servers| ==> v.servers[s] == NewServer(k))
    && v.replies == {} && forall j :: 0 <= j < |v.records| ==> !v.records[j].done
  }

  lemma SilentStays(c: RaftCluster.Cluster, v: Service, step: Step, now: nat, k: nat)
    requires Silent(v, k) && Enabled(c, v, step) && !step.Take?
    ensures Silent(Do(c, v, step, now), k)
  {
  }

  lemma NothingToTake(n: nat, k: nat, c: RaftCluster.Cluster, v: Service, step: Step)
    requires Silent(v, k) && Enabled(c, v, step) && (k == 0 || Alone(c, n))
    ensures !step.Take?
  {
  }

  lemma {:induction false} SilentAlways(rules: RaftPeer.Rules, n: nat, k: nat, clients: set<int>, r: ServiceRun, i: nat)
    requires IsServiceRun(rules, n, k, clients, r) && (n <= 1 || k == 0) && i < |r.services|
    ensures Silent(r.services[i], k)
  {
    if i > 0 {
      SilentAlways(rules, n, k, clients, r, i - 1);
      if n <= 1 {
        AloneAlways(rules, n, r.raft, i - 1);
      }
      assert IsServiceStep(r, i - 1);
      NothingToTake(n, k, r.raft.states[i - 1], r.services[i - 1], r.steps[i - 1]);
      SilentStays(r.raft.states[i - 1], r.services[i - 1], r.steps[i - 1], i - 1, k);
    }
  }
}
