/** What the service takes from the cluster: one common committed log for the whole run, made
    of submitted operations only. */
module KvCommon {
  import opened Commands
  import opened RaftPeer
  import opened RaftCluster
  import opened RaftInvariant
  import opened RaftTheorems

  // ---------------------------------------------------------------- the common log

  function Commit(run: Run, i: nat, s: nat): nat
    requires i < |run.states| && s < |run.states[i].peers|
  {
    run.states[i].peers[s].commitIndex
  }

  ghost predicate Sized(n: nat, run: Run) { forall i :: 0 <= i < |run.states| ==> |run.states[i].peers| == n }

  /** A peer with the highest commit index of one state. */
  lemma {:induction false} HighestAt(n: nat, run: Run, i: nat, m: nat) returns (s: nat)
    requires Sized(n, run) && i < |run.states| && 0 < m <= n
    ensures s < m && forall t :: 0 <= t < m ==> Commit(run, i, t) <= Commit(run, i, s)
  {
    if m == 1 {
      s := 0;
    } else {
      s := HighestAt(n, run, i, m - 1);
      if Commit(run, i, s) < Commit(run, i, m - 1) {
        s := m - 1;
      }
    }
  }

  /** A state and a peer with the highest commit index of the run. */
  lemma {:induction false} Highest(n: nat, run: Run, k: nat) returns (i: nat, s: nat)
    requires Sized(n, run) && 0 < k <= |run.states| && n > 0
    ensures i < k && s < n && forall j, t :: 0 <= j < k && 0 <= t < n ==> Commit(run, j, t) <= Commit(run, i, s)
  {
    var t := HighestAt(n, run, k - 1, n);
    i, s := k - 1, t;
    if k > 1 {
      var i', s' := Highest(n, run, k - 1);
      if Commit(run, k - 1, t) < Commit(run, i', s') {
        i, s := i', s';
      }
    }
  }

  /** The committed prefix of a peer is a prefix of `log`. */
  ghost predicate Fits(log: seq<Entry>, p: Peer) {
    p.lastApplied <= p.commitIndex && SameUpTo(p.log, log, p.commitIndex + 1)
  }

  ghost predicate AllFit(n: nat, run: Run, log: seq<Entry>) {
    && Sized(n, run)
    && forall i, s {:trigger Fits(log, run.states[i].peers[s])} ::
         0 <= i < |run.states| && 0 <= s < n ==> Fits(log, run.states[i].peers[s])
  }

  lemma RunSized(rules: Rules, n: nat, run: Run)
    requires BenignRun(rules, n, run)
    ensures Sized(n, run)
  {
    var hs := ExplainRun(rules, n, run);
    forall i | 0 <= i < |run.states| ensures |run.states[i].peers| == n {
      StateAt(rules, n, run, hs, i);
    }
  }

  /** All that any peer ever holds committed is a prefix of one log, itself once held
      committed. */
  lemma CommonLog(rules: Rules, n: nat, run: Run) returns (log: Log, i: nat, s: nat)
    requires BenignRun(rules, n, run)
    ensures AllFit(n, run, log)
    ensures n == 0 ==> log == [SENTINEL]
    ensures n > 0 ==> i < |run.states| && s < |run.states[i].peers| && |log| == Commit(run, i, s) + 1 <= |run.states[i].peers[s].log|
                      && forall k :: 0 <= k < |log| ==> log[k] == run.states[i].peers[s].log[k]
  {
    RunSized(rules, n, run);
    if n == 0 {
      log, i, s := [SENTINEL], 0, 0;
    } else {
      i, s := Highest(n, run, |run.states|);
      AppliedInRange(rules, n, run, i, s);
      log := run.states[i].peers[s].log[..Commit(run, i, s) + 1];
      forall j, t | 0 <= j < |run.states| && 0 <= t < n ensures Fits(log, run.states[j].peers[t]) {
        AppliedInRange(rules, n, run, j, t);
        assert Commit(run, j, t) <= Commit(run, i, s);
        StateMachineSafety(rules, n, run, j, i, t, s, Commit(run, j, t));
      }
    }
  }

  // ---------------------------------------------------------------- only what was submitted

  ghost predicate Ours(e: Entry, ops: set<Op>) { e.command.Kv? ==> e.command.op in ops }

  ghost predicate LogOurs(log: seq<Entry>, ops: set<Op>) { forall e :: e in log ==> Ours(e, ops) }

  ghost predicate PeerOurs(p: Peer, ops: set<Op>) {
    LogOurs(p.log, ops) && (p.stored.Saved? ==> LogOurs(p.stored.log, ops))
  }

  ghost predicate MessageOurs(m: Message, ops: set<Op>) { m.Append? ==> LogOurs(m.entries, ops) }

  /** Every operation in a log, in storage or on its way is one of `ops`. */
  ghost predicate AllOurs(c: Cluster, ops: set<Op>) {
    && (forall s {:trigger PeerOurs(c.peers[s], ops)} :: 0 <= s < |c.peers| ==> PeerOurs(c.peers[s], ops))
    && (forall m :: m in c.msgs ==> MessageOurs(m, ops))
  }

  lemma OursGrows(c: Cluster, ops: set<Op>, more: set<Op>)
    requires AllOurs(c, ops) && ops <= more
    ensures AllOurs(c, more)
  {
    forall s | 0 <= s < |c.peers| ensures PeerOurs(c.peers[s], more) {
      assert PeerOurs(c.peers[s], ops);
    }
    forall m | m in c.msgs ensures MessageOurs(m, more) {
      assert MessageOurs(m, ops);
    }
  }

  lemma MergeOurs(log: Log, prev: nat, entries: seq<Entry>, ops: set<Op>)
    requires prev < |log| && LogOurs(log, ops) && LogOurs(entries, ops)
    ensures LogOurs(Merge(log, prev, entries), ops)
  {
    forall e | e in Merge(log, prev, entries) ensures Ours(e, ops) {
      assert e in log || e in entries;
    }
  }

  lemma AppendOurs(rules: Rules, p: Peer, m: Message, ops: set<Op>)
    requires m.Append? && PeerOurs(p, ops) && MessageOurs(m, ops)
    ensures PeerOurs(HandleAppend(rules, p, m).0, ops)
  {
    if m.term >= p.currentTerm && PrevMatches(p.log, m.prevLogIndex, m.prevLogTerm) {
      MergeOurs(p.log, m.prevLogIndex, m.entries, ops);
    }
  }

  lemma PeerStepOurs(rules: Rules, c: Cluster, step: Step, ops: set<Op>)
    requires AllOurs(c, ops) && step != Idle && Enabled(c, step)
    requires step.Submit? ==> Ours(Entry(0, step.command), ops)
    ensures step.s < |Do(rules, c, step).peers| && PeerOurs(Do(rules, c, step).peers[step.s], ops)
    ensures forall m :: m in Do(rules, c, step).msgs ==> m in c.msgs || MessageOurs(m, ops)
  {
    var p := c.peers[step.s];
    assert PeerOurs(p, ops);
    match step
    case OnAppend(s, m) => AppendOurs(rules, p, m, ops);
    case Submit(s, command) =>
      forall e | e in p.log + [Entry(p.currentTerm, command)] ensures Ours(e, ops) {
        assert e in p.log || e == Entry(p.currentTerm, command);
      }
    case SendBatch(s, dest) =>
      var m := Batch(p, dest);
      forall e | e in m.entries ensures Ours(e, ops) {
        assert e in p.log;
      }
    case _ =>
  }

  lemma StepOurs(rules: Rules, c: Cluster, step: Step, ops: set<Op>)
    requires AllOurs(c, ops) && Enabled(c, step)
    requires step.Submit? ==> Ours(Entry(0, step.command), ops)
    ensures AllOurs(Do(rules, c, step), ops)
  {
    if step != Idle {
      PeerStepOurs(rules, c, step, ops);
      var d := Do(rules, c, step);
      forall t | 0 <= t < |d.peers| ensures PeerOurs(d.peers[t], ops) {
        if t != step.s {
          assert PeerOurs(c.peers[t], ops);
        }
      }
    }
  }

  /** Only a delivery and a restart change what a peer has applied. */
  lemma AppliedStays(rules: Rules, c: Cluster, step: Step, t: nat)
    requires Enabled(c, step) && t < |c.peers| && step != Deliver(t) && step != Reboot(t) && !(step.Interrupted? && step.s == t)
    ensures |Do(rules, c, step).peers| == |c.peers|
    ensures Do(rules, c, step).peers[t].lastApplied == c.peers[t].lastApplied
  {
  }
}
