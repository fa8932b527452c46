/** What Raft promises, over whole runs: any number of peers, any interleaving, loss,
    duplication and reordering of messages, crashes and restarts.

    What concerns votes and logs is stated for runs in which no peer votes twice in a term; what
    concerns commit indices, for those in which, besides, no follower commits past the entries
    that a request verified; what concerns storage, for all runs.  Every run of the intended
    rules meets both conditions (`IntendedRunsAreBenign`).  `RaftExactly` says for which rules
    and which sizes of cluster all runs are safe. */
module RaftTheorems {
  import opened Commands
  import opened RaftPeer
  import opened RaftCluster
  import opened RaftInvariant
  import opened RaftMoves
  import opened RaftSteps
  import opened RaftReplication
  import opened RaftCommits

  lemma IntendedRunsAreBenign(n: nat, run: Run)
    requires IsRun(INTENDED, n, run)
    ensures BenignRun(INTENDED, n, run)
  {
    forall i | 0 <= i < |run.steps|
      ensures IsStep(INTENDED, run, i)
      ensures VotesOnce(INTENDED, run.states[i], run.steps[i]) && CommitsVerified(INTENDED, run.states[i], run.steps[i])
    {
      assert IsStep(INTENDED, run, i);
    }
  }

  /** A run with a history for each of its states. */
  ghost predicate Explained(rules: Rules, n: nat, run: Run, hs: seq<History>) {
    && |hs| == |run.states|
    && (forall i {:trigger Inv(rules, n, hs[i], run.states[i])} :: 0 <= i < |hs| ==> Inv(rules, n, hs[i], run.states[i]))
    && (forall i, j {:trigger Grows(hs[i], hs[j])} :: 0 <= i <= j < |hs| ==> Grows(hs[i], hs[j]))
  }

  /** Every reachable state has a history under which the invariant holds. */
  lemma {:induction false} Explain(rules: Rules, n: nat, run: Run, k: nat) returns (hs: seq<History>)
    requires OneVoteRun(rules, n, run) && k <= |run.steps|
    ensures |hs| == k + 1
    ensures forall i :: 0 <= i <= k ==> Inv(rules, n, hs[i], run.states[i])
    ensures forall i, j :: 0 <= i <= j <= k ==> Grows(hs[i], hs[j])
  {
    if k == 0 {
      InitInv(rules, n);
      GrowsRefl(NO_HISTORY);
      hs := [NO_HISTORY];
    } else {
      var before := Explain(rules, n, run, k - 1);
      assert IsStep(rules, run, k - 1) && VotesOnce(rules, run.states[k - 1], run.steps[k - 1]);
      var h := StepKeeps(rules, n, before[k - 1], run.states[k - 1], run.steps[k - 1]);
      hs := Append(rules, n, run, k - 1, before, h);
    }
  }

  lemma Append(rules: Rules, n: nat, run: Run, k: nat, before: seq<History>, h: History) returns (hs: seq<History>)
    requires k + 1 < |run.states| && |before| == k + 1
    requires forall i :: 0 <= i <= k ==> Inv(rules, n, before[i], run.states[i])
    requires forall i, j :: 0 <= i <= j <= k ==> Grows(before[i], before[j])
    requires Grows(before[k], h) && Inv(rules, n, h, run.states[k + 1])
    ensures hs == before + [h]
    ensures forall i :: 0 <= i <= k + 1 ==> Inv(rules, n, hs[i], run.states[i])
    ensures forall i, j :: 0 <= i <= j <= k + 1 ==> Grows(hs[i], hs[j])
  {
    hs := before + [h];
    forall i, j | 0 <= i <= j <= k + 1 ensures Grows(hs[i], hs[j]) {
      if j == k + 1 {
        GrowsRefl(h);
        if i <= k {
          assert Grows(before[i], before[k]);
          GrowsTrans(before[i], before[k], h);
        }
      } else {
        assert Grows(before[i], before[j]);
      }
    }
    forall i | 0 <= i <= k + 1 ensures Inv(rules, n, hs[i], run.states[i]) {
      if i <= k {
        assert Inv(rules, n, before[i], run.states[i]);
      }
    }
  }

  lemma ExplainRun(rules: Rules, n: nat, run: Run) returns (hs: seq<History>)
    requires OneVoteRun(rules, n, run)
    ensures Explained(rules, n, run, hs)
  {
    hs := Explain(rules, n, run, |run.steps|);
  }

  /** The facts about one peer of one state, carried to the history of a later state. */
  lemma PeerAt(rules: Rules, n: nat, run: Run, hs: seq<History>, i: nat, j: nat, s: nat) returns (p: Peer)
    requires Explained(rules, n, run, hs) && i <= j < |hs| && s < |run.states[i].peers|
    ensures |run.states[i].peers| == n && s < n && p == run.states[i].peers[s]
    ensures PeerOk(n, hs[i], s, p) && Grows(hs[i], hs[j])
    ensures LogOk(hs[j], p.log)
    ensures p.role == Leader ==>
              && p.currentTerm in hs[i].reigns && p.currentTerm in hs[j].reigns
              && hs[i].reigns[p.currentTerm].log == p.log
              && hs[j].reigns[p.currentTerm].leader == s
              && SameUpTo(p.log, hs[j].reigns[p.currentTerm].log, |p.log|)
              && hs[j].reigns[p.currentTerm].elected == hs[i].reigns[p.currentTerm].elected
  {
    assert Inv(rules, n, hs[i], run.states[i]);
    assert Grows(hs[i], hs[j]);
    p := run.states[i].peers[s];
    assert PeerOk(n, hs[i], s, p);
    LogOkGrows(hs[i], hs[j], p.log);
    if p.role == Leader {
      assert ReignGrows(hs[i].reigns[p.currentTerm], hs[j].reigns[p.currentTerm], p.currentTerm);
    }
  }

  /** In every state what is held committed is backed. */
  ghost predicate Backed(n: nat, run: Run, hs: seq<History>) {
    |hs| == |run.states| && forall i {:trigger CommitsOk(n, hs[i], run.states[i])} :: 0 <= i < |hs| ==> CommitsOk(n, hs[i], run.states[i])
  }

  lemma {:induction false} BackedAt(rules: Rules, n: nat, run: Run, hs: seq<History>, i: nat)
    requires BenignRun(rules, n, run) && Explained(rules, n, run, hs) && i < |hs|
    ensures CommitsOk(n, hs[i], run.states[i])
  {
    if i == 0 {
      StartBacked(n, hs[0]);
    } else {
      BackedAt(rules, n, run, hs, i - 1);
      assert IsStep(rules, run, i - 1) && CommitsVerified(rules, run.states[i - 1], run.steps[i - 1]);
      assert Inv(rules, n, hs[i - 1], run.states[i - 1]) && Inv(rules, n, hs[i], run.states[i]);
      assert Grows(hs[i - 1], hs[i]);
      CommitsKept(rules, n, hs[i - 1], hs[i], run.states[i - 1], run.steps[i - 1]);
    }
  }

  lemma StartBacked(n: nat, h: History)
    ensures CommitsOk(n, h, Init(n))
  {
  }

  lemma BackRun(rules: Rules, n: nat, run: Run) returns (hs: seq<History>)
    requires BenignRun(rules, n, run)
    ensures Explained(rules, n, run, hs) && Backed(n, run, hs)
  {
    hs := ExplainRun(rules, n, run);
    forall i | 0 <= i < |hs| ensures CommitsOk(n, hs[i], run.states[i]) {
      BackedAt(rules, n, run, hs, i);
    }
  }

  /** What one peer of one state holds committed, by the history of a later state. */
  lemma CommitAt(rules: Rules, n: nat, run: Run, hs: seq<History>, i: nat, j: nat, s: nat) returns (p: Peer)
    requires Explained(rules, n, run, hs) && Backed(n, run, hs) && i <= j < |hs| && s < |run.states[i].peers|
    ensures p == run.states[i].peers[s] && p.lastApplied <= p.commitIndex < |p.log|
    ensures CommitOk(n, hs[j], p.log, p.commitIndex, p.currentTerm)
  {
    p := run.states[i].peers[s];
    assert CommitsOk(n, hs[i], run.states[i]);
    assert PeerCommitOk(n, hs[i], run.states[i].peers[s]);
    assert Grows(hs[i], hs[j]);
    CommitOkGrows(n, hs[i], hs[j], p.log, p.commitIndex, p.currentTerm, p.currentTerm);
  }

  lemma StateAt(rules: Rules, n: nat, run: Run, hs: seq<History>, i: nat)
    requires Explained(rules, n, run, hs) && i < |hs|
    ensures |run.states[i].peers| == n
    ensures ReignsOk(n, hs[i]) && BallotsOk(hs[i], run.states[i]) && AcksOk(hs[i], run.states[i])
  {
    assert Inv(rules, n, hs[i], run.states[i]);
  }

  /** Election safety: over the whole run, one term never has two leaders. */
  lemma ElectionSafety(rules: Rules, n: nat, run: Run, i: nat, j: nat, s: nat, t: nat)
    requires OneVoteRun(rules, n, run) && i < |run.states| && j < |run.states|
    requires s < |run.states[i].peers| && t < |run.states[j].peers|
    requires run.states[i].peers[s].role == Leader && run.states[j].peers[t].role == Leader
    requires run.states[i].peers[s].currentTerm == run.states[j].peers[t].currentTerm
    ensures s == t
  {
    var hs := ExplainRun(rules, n, run);
    var last := |hs| - 1;
    var p := PeerAt(rules, n, run, hs, i, last, s);
    var q := PeerAt(rules, n, run, hs, j, last, t);
  }

  /** Log matching: two logs, of any peers at any times of the run, that hold an entry of
      the same term at one index are identical up to it. */
  lemma LogsMatch(rules: Rules, n: nat, run: Run, i: nat, j: nat, s: nat, t: nat, k: nat)
    requires OneVoteRun(rules, n, run) && i < |run.states| && j < |run.states|
    requires s < |run.states[i].peers| && t < |run.states[j].peers|
    requires k < |run.states[i].peers[s].log| && k < |run.states[j].peers[t].log|
    requires run.states[i].peers[s].log[k].term == run.states[j].peers[t].log[k].term
    ensures SameUpTo(run.states[i].peers[s].log, run.states[j].peers[t].log, k + 1)
  {
    var hs := ExplainRun(rules, n, run);
    var last := |hs| - 1;
    var p := PeerAt(rules, n, run, hs, i, last, s);
    var q := PeerAt(rules, n, run, hs, j, last, t);
    LogMatching(hs[last], p.log, q.log, k);
  }

  /** Leader completeness: what a peer holds committed is in the log of every leader of a
      later term, whenever it reigns, and of its own term from then on. */
  lemma LeadersHoldCommitted(rules: Rules, n: nat, run: Run, i: nat, j: nat, s: nat, t: nat)
    requires BenignRun(rules, n, run) && i < |run.states| && j < |run.states|
    requires s < |run.states[i].peers| && t < |run.states[j].peers|
    requires run.states[j].peers[t].role == Leader
    requires run.states[j].peers[t].currentTerm > run.states[i].peers[s].currentTerm
             || (i <= j && run.states[j].peers[t].currentTerm == run.states[i].peers[s].currentTerm)
    ensures run.states[i].peers[s].commitIndex < |run.states[i].peers[s].log|
    ensures SameUpTo(run.states[j].peers[t].log, run.states[i].peers[s].log, run.states[i].peers[s].commitIndex + 1)
  {
    var hs := BackRun(rules, n, run);
    var top := if i <= j then j else i;
    StateAt(rules, n, run, hs, top);
    var p := PeerAt(rules, n, run, hs, i, top, s);
    var q := PeerAt(rules, n, run, hs, j, top, t);
    p := CommitAt(rules, n, run, hs, i, top, s);
    LeaderLog(rules, n, run, hs, j, t);
    LeaderHolds(n, hs[top], run.states[top], p.log, p.commitIndex, p.currentTerm, q.currentTerm, q.log,
                q.currentTerm == p.currentTerm);
  }

  lemma LeaderLog(rules: Rules, n: nat, run: Run, hs: seq<History>, j: nat, t: nat)
    requires Explained(rules, n, run, hs) && j < |hs| && t < |run.states[j].peers|
    requires run.states[j].peers[t].role == Leader
    ensures run.states[j].peers[t].currentTerm in hs[j].reigns
    ensures |hs[j].reigns[run.states[j].peers[t].currentTerm].elected| <= |run.states[j].peers[t].log|
  {
    StateAt(rules, n, run, hs, j);
    var p := PeerAt(rules, n, run, hs, j, j, t);
    assert ReignOk(n, hs[j], p.currentTerm, hs[j].reigns[p.currentTerm]);
  }

  lemma LeaderHolds(n: nat, h: History, c: Cluster, log: Log, commit: nat, bound: nat, u: nat, leaderLog: Log, whole: bool)
    requires |c.peers| == n && ReignsOk(n, h) && BallotsOk(h, c) && AcksOk(h, c)
    requires LogOk(h, log) && commit < |log| && CommitOk(n, h, log, commit, bound)
    requires u in h.reigns && SameUpTo(leaderLog, h.reigns[u].log, |leaderLog|) && |leaderLog| >= |h.reigns[u].elected|
    requires bound <= u && (whole ==> leaderLog == h.reigns[u].log) && (!whole ==> bound < u)
    ensures SameUpTo(leaderLog, log, commit + 1)
  {
    var r := h.reigns[u];
    assert ReignOk(n, h, u, r);
    CommittedPrefixAgrees(n, h, c, log, commit, bound, u);
    if commit > 0 {
      var t, k :| Backs(n, h, log, commit, bound, t, k);
      if !whole {
        var v, vlog := Elector(n, h, c, t, k, u);
        ElectedHolds(n, h, c, t, k, u, vlog);
      }
    }
    forall x | 0 <= x < commit + 1 ensures leaderLog[x] == log[x] {
      assert leaderLog[x] == r.log[x] && log[x] == r.log[x];
    }
  }

  lemma Backing(n: nat, h: History, log: Log, commit: nat, bound: nat) returns (t: nat, k: nat)
    requires CommitOk(n, h, log, commit, bound) && commit > 0
    ensures Committed(n, h, t, k) && commit <= k && SameUpTo(log, h.reigns[t].log, commit + 1)
  {
    t, k :| Backs(n, h, log, commit, bound, t, k);
  }

  /** Two committed prefixes agree as far as both reach. */
  lemma CommittedAgree(n: nat, h: History, c: Cluster, a: Log, ca: nat, ta: nat, b: Log, cb: nat, tb: nat, k: nat)
    requires |c.peers| == n && ReignsOk(n, h) && BallotsOk(h, c) && AcksOk(h, c)
    requires a[0] == b[0]
    requires CommitOk(n, h, a, ca, ta) && CommitOk(n, h, b, cb, tb)
    requires k <= ca < |a| && k <= cb < |b|
    ensures SameUpTo(a, b, k + 1)
  {
    if k > 0 {
      var t, x := Backing(n, h, a, ca, ta);
      var u, y := Backing(n, h, b, cb, tb);
      if t <= u {
        BackedAgree(n, h, c, a, ca, t, x, b, cb, u, k);
      } else {
        BackedAgree(n, h, c, b, cb, u, y, a, ca, t, k);
        SameSym(b, a, k + 1);
      }
    }
  }

  lemma SameSym(a: seq<Entry>, b: seq<Entry>, k: nat)
    requires SameUpTo(a, b, k)
    ensures SameUpTo(b, a, k)
  {
  }

  lemma BackedAgree(n: nat, h: History, c: Cluster, a: Log, ca: nat, t: nat, x: nat, b: Log, cb: nat, u: nat, k: nat)
    requires |c.peers| == n && ReignsOk(n, h) && BallotsOk(h, c) && AcksOk(h, c)
    requires Committed(n, h, t, x) && ca <= x && SameUpTo(a, h.reigns[t].log, ca + 1)
    requires u in h.reigns && SameUpTo(b, h.reigns[u].log, cb + 1)
    requires t <= u && k <= ca && k <= cb
    ensures SameUpTo(a, b, k + 1)
  {
    LeaderCompleteness(n, h, c, t, x, u);
    forall j | 0 <= j < k + 1 ensures a[j] == b[j] {
      assert a[j] == h.reigns[t].log[j] && b[j] == h.reigns[u].log[j];
    }
  }

  /** State machine safety: no two peers ever hold different entries committed at one index. */
  lemma StateMachineSafety(rules: Rules, n: nat, run: Run, i: nat, j: nat, s: nat, t: nat, k: nat)
    requires BenignRun(rules, n, run) && i < |run.states| && j < |run.states|
    requires s < |run.states[i].peers| && t < |run.states[j].peers|
    requires k <= run.states[i].peers[s].commitIndex && k <= run.states[j].peers[t].commitIndex
    ensures k < |run.states[i].peers[s].log| && k < |run.states[j].peers[t].log|
    ensures SameUpTo(run.states[i].peers[s].log, run.states[j].peers[t].log, k + 1)
  {
    var hs := BackRun(rules, n, run);
    var top := if i <= j then j else i;
    StateAt(rules, n, run, hs, top);
    var p := PeerAt(rules, n, run, hs, i, top, s);
    var q := PeerAt(rules, n, run, hs, j, top, t);
    p := CommitAt(rules, n, run, hs, i, top, s);
    q := CommitAt(rules, n, run, hs, j, top, t);
    CommittedAgree(n, hs[top], run.states[top], p.log, p.commitIndex, p.currentTerm, q.log, q.commitIndex, q.currentTerm, k);
  }

  /** No two deliveries at one index, by any peers at any times, carry different commands:
      what the tester compares. */
  lemma DeliveriesAgree(rules: Rules, n: nat, run: Run, i: nat, j: nat, s: nat, t: nat)
    requires BenignRun(rules, n, run) && i < |run.steps| && j < |run.steps|
    requires run.steps[i] == Deliver(s) && run.steps[j] == Deliver(t)
    requires s < |run.states[i].peers| && t < |run.states[j].peers|
    requires CanApply(run.states[i].peers[s]) && CanApply(run.states[j].peers[t])
    requires run.states[i].peers[s].lastApplied == run.states[j].peers[t].lastApplied
    ensures Apply(run.states[i].peers[s]).1 == Apply(run.states[j].peers[t]).1
  {
    var k := run.states[i].peers[s].lastApplied + 1;
    StateMachineSafety(rules, n, run, i, j, s, t, k);
  }

  /** The indices never cross, so the log is never read out of range. */
  lemma AppliedInRange(rules: Rules, n: nat, run: Run, i: nat, s: nat)
    requires BenignRun(rules, n, run) && i < |run.states| && s < |run.states[i].peers|
    ensures var p := run.states[i].peers[s];
            0 <= p.lastApplied <= p.commitIndex <= LastLogIndex(p.log)
  {
    var hs := BackRun(rules, n, run);
    var p := CommitAt(rules, n, run, hs, i, i, s);
  }

  /** What is stored is what is in memory, in every state of every run. */
  lemma {:induction false} StoredAt(rules: Rules, n: nat, run: Run, i: nat, s: nat)
    requires IsRun(rules, n, run) && i < |run.states| && s < n
    ensures |run.states[i].peers| == n && StoredOk(run.states[i].peers[s])
    ensures run.states[i].peers[s].me == s && run.states[i].peers[s].peers == n
  {
    if i > 0 {
      StoredAt(rules, n, run, i - 1, s);
      assert IsStep(rules, run, i - 1);
      StepStored(rules, run.states[i - 1], run.steps[i - 1], s);
    }
  }

  lemma StepStored(rules: Rules, c: Cluster, step: Step, s: nat)
    requires Enabled(c, step) && s < |c.peers| && StoredOk(c.peers[s])
    ensures |Do(rules, c, step).peers| == |c.peers|
    ensures var q := Do(rules, c, step).peers[s];
            StoredOk(q) && q.me == c.peers[s].me && q.peers == c.peers[s].peers
  {
    if step != Idle && step.s == s {
      PeerStored(rules, c, step, c.peers[s]);
    }
  }

  lemma PeerStored(rules: Rules, c: Cluster, step: Step, p: Peer)
    requires step != Idle && step.s < |c.peers| && p == c.peers[step.s] && PeerEnabled(c, p, step) && StoredOk(p)
    ensures var q := Do(rules, c, step).peers[step.s];
            StoredOk(q) && q.me == p.me && q.peers == p.peers
  {
    hide CommitPoint;
    match step
    case OnAppend(s, m) => AppendStored(rules, p, m);
    case OnBatchReply(s, m) =>
    case _ =>
  }

  lemma AppendStored(rules: Rules, p: Peer, m: Message)
    requires m.Append? && StoredOk(p)
    ensures var q := HandleAppend(rules, p, m).0; StoredOk(q) && q.me == p.me && q.peers == p.peers
  {
    hide Merge;
    if m.term >= p.currentTerm && |m.entries| == 0 && PrevMatches(p.log, m.prevLogIndex, m.prevLogTerm) {
      NothingMerged(p.log, m.prevLogIndex, m.entries);
    }
  }

  lemma NothingMerged(log: Log, prev: nat, entries: seq<Entry>)
    requires prev < |log| && |entries| == 0
    ensures Merge(log, prev, entries) == log
  {
  }

  /** Crash at any point, in any run: what is stored rebuilds the triple in memory. */
  lemma CrashLosesNothing(rules: Rules, n: nat, run: Run, i: nat, s: nat)
    requires IsRun(rules, n, run) && i < |run.states| && s < n
    ensures s < |run.states[i].peers|
    ensures var p := run.states[i].peers[s];
            var q := RaftPeer.Restart(p);
            && q.currentTerm == p.currentTerm && q.votedFor == p.votedFor && q.log == p.log
            && q.me == p.me && q.peers == p.peers && q.stored == p.stored
  {
    StoredAt(rules, n, run, i, s);
  }
}
