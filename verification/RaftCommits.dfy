/** Commit indices: what a peer holds committed is backed by a majority, as long as no follower
    commits past the entries a request verified. */
module RaftCommits {
  import opened RaftPeer
  import opened RaftCluster
  import opened RaftInvariant
  import opened RaftMoves
  import opened RaftSteps
  import opened RaftReplication
  import opened Quorums

  predicate Restarts(step: Step, s: nat) {
    step == Reboot(s) || (step.Interrupted? && step.s == s)
  }

  /** How one step can change one peer: only an append request may shorten or rewrite its
      log, and only a restart may lower its commit index otherwise. */
  ghost predicate Moves(rules: Rules, step: Step, s: nat, p: Peer, q: Peer) {
    if step.OnAppend? && step.s == s then step.m.Append? && q == HandleAppend(rules, p, step.m).0
    else
      && p.currentTerm <= q.currentTerm && SameUpTo(q.log, p.log, |p.log|)
      && (Restarts(step, s) || p.commitIndex <= q.commitIndex)
  }

  lemma StepMoves(rules: Rules, c: Cluster, step: Step, s: nat)
    requires Enabled(c, step) && s < |c.peers| && StoredOk(c.peers[s])
    ensures |Do(rules, c, step).peers| == |c.peers|
    ensures Moves(rules, step, s, c.peers[s], Do(rules, c, step).peers[s])
  {
    if step != Idle && step.s == s {
      PeerMoves(rules, c, step, c.peers[s]);
    }
  }

  lemma PeerMoves(rules: Rules, c: Cluster, step: Step, p: Peer)
    requires step != Idle && step.s < |c.peers| && p == c.peers[step.s] && PeerEnabled(c, p, step) && StoredOk(p)
    ensures Moves(rules, step, step.s, p, Do(rules, c, step).peers[step.s])
  {
    match step
    case OnBatchReply(s, m) => ReplyMoves(p, m);
    case _ =>
  }

  lemma ReplyMoves(p: Peer, m: Message)
    requires m.AppendReply?
    ensures var q := HandleReplicateReply(p, m);
            p.currentTerm <= q.currentTerm && q.log == p.log && p.commitIndex <= q.commitIndex
  {
  }

  /** An append request keeps every committed prefix, and never lowers the commit index. */
  lemma AppendKeepsCommitted(rules: Rules, n: nat, h: History, c: Cluster, s: nat, m: Message, k: nat, r: Peer, verified: nat)
    requires |c.peers| == n && s < n && ReignsOk(n, h) && BallotsOk(h, c) && AcksOk(h, c)
    requires m.Append? && m.term in h.reigns && m.term >= c.peers[s].currentTerm
    requires LogOk(h, c.peers[s].log) && k < |c.peers[s].log| && CommitOk(n, h, c.peers[s].log, k, c.peers[s].currentTerm)
    requires Merges(c.peers[s].log, h.reigns[m.term].log, verified, r.log)
    ensures SameUpTo(r.log, c.peers[s].log, k + 1)
  {
    CommittedPrefixAgrees(n, h, c, c.peers[s].log, k, c.peers[s].currentTerm, m.term);
  }

  /** The append handler either leaves the log alone or merges it with the sender's reign. */
  lemma AppendMerges(rules: Rules, n: nat, h: History, c: Cluster, s: nat, m: Message, r: Peer)
    requires |c.peers| == n && s < n && PeersOk(n, h, c) && ReignsOk(n, h) && MessagesOk(n, h, c)
    requires m in c.msgs && m.Append? && r == HandleAppend(rules, c.peers[s], m).0
    ensures c.peers[s].currentTerm <= r.currentTerm && m.term in h.reigns
    ensures (r.log == c.peers[s].log && r.commitIndex == c.peers[s].commitIndex)
            || (&& m.term >= c.peers[s].currentTerm
                && PrevMatches(c.peers[s].log, m.prevLogIndex, m.prevLogTerm)
                && r.log == Merge(c.peers[s].log, m.prevLogIndex, m.entries)
                && r.commitIndex == FollowerCommit(rules, c.peers[s].commitIndex, m.leaderCommit, m.prevLogIndex + |m.entries|, r.log)
                && Merges(c.peers[s].log, h.reigns[m.term].log, m.prevLogIndex + |m.entries|, r.log))
  {
    var p := c.peers[s];
    AppendCases(rules, p, m, r, HandleAppend(rules, p, m).1);
    assert MessageOk(n, h, c.peers, m);
    if m.term >= p.currentTerm {
      AcceptLeaderShape(rules, p, m, AcceptLeader(rules, p, m.term));
      if PrevMatches(p.log, m.prevLogIndex, m.prevLogTerm) {
        assert PeerOk(n, h, s, p) && ReignOk(n, h, m.term, h.reigns[m.term]);
        MergeMerges(h, p.log, h.reigns[m.term].log, m.prevLogIndex, m.prevLogTerm, m.entries);
      }
    }
  }

  /** One step leaves a committed prefix of every peer's log as it is. */
  lemma StepKeepsCommitted(rules: Rules, n: nat, h: History, c: Cluster, step: Step, s: nat, k: nat, q: Peer)
    requires Inv(rules, n, h, c) && Enabled(c, step)
    requires s < n && k < |c.peers[s].log| && CommitOk(n, h, c.peers[s].log, k, c.peers[s].currentTerm)
    requires Moves(rules, step, s, c.peers[s], q)
    ensures c.peers[s].currentTerm <= q.currentTerm && SameUpTo(q.log, c.peers[s].log, k + 1)
  {
    if step.OnAppend? && step.s == s {
      AppendMerges(rules, n, h, c, s, step.m, q);
      PeerIsItself(n, h, c, s);
      if q.log != c.peers[s].log {
        AppendKeepsCommitted(rules, n, h, c, s, step.m, k, q, step.m.prevLogIndex + |step.m.entries|);
      }
    }
  }

  // ---------------------------------------------------------------- the follower's commit index

  /** Where a follower's commit index can go: nowhere, or up within what was verified. */
  lemma FollowerCommitBound(rules: Rules, commit: nat, leaderCommit: nat, verified: nat, merged: Log)
    requires verified < |merged|
    requires rules.capAtVerified || leaderCommit <= commit || leaderCommit <= verified || LastLogIndex(merged) <= Max(verified, commit)
    requires commit < |merged|
    ensures var commit' := FollowerCommit(rules, commit, leaderCommit, verified, merged);
            commit' == commit || (commit < commit' <= leaderCommit && commit' <= verified)
  {
  }

  /** The commit index a follower had still covers only committed entries after the merge. */
  lemma MergedOldCommit(n: nat, h: History, c: Cluster, log: Log, commit: nat, t: nat, verified: nat, merged: Log)
    requires |c.peers| == n && ReignsOk(n, h) && BallotsOk(h, c) && AcksOk(h, c)
    requires LogOk(h, log) && CommitOk(n, h, log, commit, t) && t in h.reigns && commit < |log|
    requires Merges(log, h.reigns[t].log, verified, merged)
    ensures commit < |merged| && CommitOk(n, h, merged, commit, t)
  {
    CommittedPrefixAgrees(n, h, c, log, commit, t, t);
    assert SameUpTo(merged, log, commit + 1);
    CommitOkMoves(n, h, log, merged, commit, t, t);
  }

  /** The follower's commit index after an accepted request covers only committed entries. */
  lemma MergedCommit(rules: Rules, n: nat, h: History, t: nat, merged: Log, commit: nat, leaderCommit: nat, verified: nat)
    requires t in h.reigns && verified < |merged| && commit < |merged|
    requires CommitOk(n, h, merged, commit, t) && CommitOk(n, h, h.reigns[t].log, leaderCommit, t)
    requires SameUpTo(merged, h.reigns[t].log, verified + 1)
    requires rules.capAtVerified || leaderCommit <= commit || leaderCommit <= verified || LastLogIndex(merged) <= Max(verified, commit)
    ensures var commit' := FollowerCommit(rules, commit, leaderCommit, verified, merged);
            commit <= commit' < |merged| && CommitOk(n, h, merged, commit', t)
  {
    var commit' := FollowerCommit(rules, commit, leaderCommit, verified, merged);
    FollowerCommitBound(rules, commit, leaderCommit, verified, merged);
    if commit' > commit {
      CommitOkShrinks(n, h, h.reigns[t].log, leaderCommit, commit', t);
      CommitOkMoves(n, h, h.reigns[t].log, merged, commit', t, t);
    }
  }

  /** With two peers at most, everybody is in every majority. */
  lemma SmallMajority(q: set<nat>, n: nat, v: nat)
    requires Majority(q, n) && n <= 2 && v < n
    ensures v in q
  {
    var others: set<nat> := if n == 1 then {} else {1 - v};
    assert q - {v} <= others;
    SubsetSize(q - {v}, others);
  }

  /** What a majority has acknowledged, an acknowledger still holds. */
  lemma AckerHolds(n: nat, h: History, c: Cluster, t: nat, k: nat, v: nat)
    requires |c.peers| == n && ReignsOk(n, h) && BallotsOk(h, c) && AcksOk(h, c)
    requires Committed(n, h, t, k) && v < n && (t, v) in h.acks && h.acks[(t, v)] >= k
    ensures SameUpTo(c.peers[v].log, h.reigns[t].log, k + 1)
  {
    assert AckOk(h, c.peers, t, v);
    assert Kept(h, t, k, c.peers[v].log, c.peers[v].currentTerm);
    if Supplanted(h, t, k, c.peers[v].currentTerm) {
      var u :| u in h.reigns && t < u <= c.peers[v].currentTerm && !SameUpTo(h.reigns[u].log, h.reigns[t].log, k + 1);
      LeaderCompleteness(n, h, c, t, k, u);
    }
  }

  /** With two peers at most, what a request says is committed the follower has already. */
  lemma SmallCommit(rules: Rules, n: nat, h: History, c: Cluster, s: nat, t: nat, merged: Log, leaderCommit: nat, verified: nat)
    requires |c.peers| == n && n <= 2 && s < n && ReignsOk(n, h) && BallotsOk(h, c) && AcksOk(h, c)
    requires t in h.reigns && CommitOk(n, h, h.reigns[t].log, leaderCommit, t)
    requires Merges(c.peers[s].log, h.reigns[t].log, verified, merged)
    ensures leaderCommit < |merged| && CommitOk(n, h, merged, leaderCommit, t)
  {
    if leaderCommit > 0 {
      var t0, k :| Backs(n, h, h.reigns[t].log, leaderCommit, t, t0, k);
      var q :| Majority(q, n) && AckQuorum(h, t0, k, q);
      SmallMajority(q, n, s);
      AckerHolds(n, h, c, t0, k, s);
      var log, leaderLog := c.peers[s].log, h.reigns[t].log;
      forall j | 0 <= j < leaderCommit + 1 ensures log[j] == leaderLog[j] {
        assert log[j] == h.reigns[t0].log[j] && leaderLog[j] == h.reigns[t0].log[j];
      }
      assert SameUpTo(log, leaderLog, leaderCommit + 1);
      assert SameUpTo(merged, log, leaderCommit + 1);
      CommitOkMoves(n, h, leaderLog, merged, leaderCommit, t, t);
    }
  }

  // ---------------------------------------------------------------- every step

  /** The follower after an append request. */
  lemma AppendCommit(rules: Rules, n: nat, h: History, c: Cluster, s: nat, m: Message, r: Peer)
    requires Inv(rules, n, h, c) && CommitsOk(n, h, c) && s < n && m in c.msgs && m.Append?
    requires rules.capAtVerified || n <= 2 || CapIsVerified(c.peers[s], m)
    requires r == HandleAppend(rules, c.peers[s], m).0
    ensures PeerCommitOk(n, h, r) && c.peers[s].commitIndex <= r.commitIndex
  {
    hide HandleAppend, Merge;
    var p := c.peers[s];
    PeerIsItself(n, h, c, s);
    assert PeerCommitOk(n, h, p) && MessageCommitOk(n, h, m);
    AppendMerges(rules, n, h, c, s, m, r);
    AppendApplied(rules, p, m);
    if r.log == p.log && r.commitIndex == p.commitIndex {
      GrowsRefl(h);
      CommitOkGrows(n, h, h, p.log, p.commitIndex, p.currentTerm, r.currentTerm);
    } else {
      MergedCommits(rules, n, h, c, s, m, r);
    }
  }

  lemma AppendApplied(rules: Rules, p: Peer, m: Message)
    requires m.Append?
    ensures HandleAppend(rules, p, m).0.lastApplied == p.lastApplied
    ensures m.term >= p.currentTerm ==> HandleAppend(rules, p, m).0.currentTerm == m.term
  {
  }

  lemma MergedCommits(rules: Rules, n: nat, h: History, c: Cluster, s: nat, m: Message, r: Peer)
    requires |c.peers| == n && s < n && PeersOk(n, h, c) && ReignsOk(n, h) && BallotsOk(h, c) && AcksOk(h, c)
    requires m.Append? && PeerCommitOk(n, h, c.peers[s]) && MessageCommitOk(n, h, m)
    requires rules.capAtVerified || n <= 2 || CapIsVerified(c.peers[s], m)
    requires c.peers[s].currentTerm <= m.term && r.currentTerm == m.term && r.lastApplied == c.peers[s].lastApplied
    requires PrevMatches(c.peers[s].log, m.prevLogIndex, m.prevLogTerm) && r.log == Merge(c.peers[s].log, m.prevLogIndex, m.entries)
    requires r.commitIndex == FollowerCommit(rules, c.peers[s].commitIndex, m.leaderCommit, m.prevLogIndex + |m.entries|, r.log)
    requires Merges(c.peers[s].log, h.reigns[m.term].log, m.prevLogIndex + |m.entries|, r.log)
    ensures PeerCommitOk(n, h, r) && c.peers[s].commitIndex <= r.commitIndex
  {
    hide Merge;
    var p, t, verified := c.peers[s], m.term, m.prevLogIndex + |m.entries|;
    PeerIsItself(n, h, c, s);
    GrowsRefl(h);
    CommitOkGrows(n, h, h, p.log, p.commitIndex, p.currentTerm, t);
    MergedOldCommit(n, h, c, p.log, p.commitIndex, t, verified, r.log);
    if rules.capAtVerified || CapIsVerified(p, m) {
      MergedCommit(rules, n, h, t, r.log, p.commitIndex, m.leaderCommit, verified);
    } else {
      SmallCommit(rules, n, h, c, s, t, r.log, m.leaderCommit, verified);
    }
  }

  /** The leader after a reply that may advance its commit index. */
  lemma AdvancedCommit(n: nat, h: History, s: nat, p: Peer, q: Peer)
    requires s < n && PeerOk(n, h, s, q) && q.role == Leader && PeerCommitOk(n, h, p)
    requires q == TryAdvanceCommit(q.(commitIndex := p.commitIndex)) && q.log == p.log && q.currentTerm == p.currentTerm
    requires q.lastApplied == p.lastApplied
    ensures PeerCommitOk(n, h, q)
  {
    var k := q.commitIndex;
    if k != p.commitIndex {
      var before := q.(commitIndex := p.commitIndex);
      assert Committable(before, k);
      assert Holders(before, k) == Holders(q, k);
      HoldersAcknowledge(n, h, q, k);
      assert Backs(n, h, q.log, k, q.currentTerm, q.currentTerm, k);
    }
  }

  lemma ReplyCommit(n: nat, h: History, s: nat, p: Peer, m: Message, q: Peer)
    requires s < n && PeerOk(n, h, s, q) && PeerCommitOk(n, h, p) && m.AppendReply? && q == HandleReplicateReply(p, m)
    ensures PeerCommitOk(n, h, q)
  {
    hide HandleReplicateReply, PeerOk, CommitOk;
    ReplyMoves(p, m);
    ReplyKeepsApplied(p, m);
    if q.commitIndex != p.commitIndex {
      ReplyAdvances(p, m, q);
      AdvancedCommit(n, h, s, p, q);
    } else {
      SameCommit(n, h, h, p, q);
    }
  }

  lemma ReplyKeepsApplied(p: Peer, m: Message)
    requires m.AppendReply?
    ensures HandleReplicateReply(p, m).lastApplied == p.lastApplied
  {
  }

  lemma ReplyAdvances(p: Peer, m: Message, q: Peer)
    requires m.AppendReply? && q == HandleReplicateReply(p, m) && q.commitIndex != p.commitIndex
    ensures q == TryAdvanceCommit(q.(commitIndex := p.commitIndex)) && q.role == Leader
    ensures q.log == p.log && q.currentTerm == p.currentTerm && q.lastApplied == p.lastApplied
  {
  }

  /** A commit index that stays is as well backed as before. */
  lemma SameCommit(n: nat, h: History, h': History, p: Peer, q: Peer)
    requires PeerCommitOk(n, h, p) && (Grows(h, h') || h' == h)
    requires p.currentTerm <= q.currentTerm && SameUpTo(q.log, p.log, |p.log|)
    requires q.commitIndex == p.commitIndex && q.lastApplied <= q.commitIndex
    ensures PeerCommitOk(n, h', q)
  {
    GrowsRefl(h);
    CommitOkGrows(n, h, h', p.log, p.commitIndex, p.currentTerm, q.currentTerm);
    CommitOkMoves(n, h', p.log, q.log, p.commitIndex, q.currentTerm, q.currentTerm);
  }

  /** A peer that only changes its log by extending it, and commits nothing, in one step. */
  predicate Quiet(step: Step) {
    !step.Idle? && !step.OnAppend? && !step.OnBatchReply? && !step.Reboot? && !step.Interrupted?
  }

  lemma QuietCommit(rules: Rules, c: Cluster, step: Step, p: Peer)
    requires Quiet(step) && step.s < |c.peers| && p == c.peers[step.s] && PeerEnabled(c, p, step)
    ensures var q := Do(rules, c, step).peers[step.s];
            q.commitIndex == p.commitIndex && (q.lastApplied <= p.lastApplied || q.lastApplied <= q.commitIndex)
  {
  }

  lemma RestartCommit(n: nat, h: History, rules: Rules, c: Cluster, step: Step)
    requires step.Reboot? || step.Interrupted?
    requires Enabled(c, step)
    ensures Do(rules, c, step).peers[step.s].commitIndex == 0 && Do(rules, c, step).peers[step.s].lastApplied == 0
  {
  }

  /** Every peer's commit index after a step. */
  lemma PeerCommitStep(rules: Rules, n: nat, h: History, h': History, c: Cluster, step: Step, s: nat)
    requires Inv(rules, n, h, c) && CommitsOk(n, h, c) && Enabled(c, step) && CommitsVerified(rules, c, step) && s < n
    requires Grows(h, h') && |Do(rules, c, step).peers| == n && Inv(rules, n, h', Do(rules, c, step))
    ensures PeerCommitOk(n, h', Do(rules, c, step).peers[s])
  {
    hide Do, HandleAppend, HandleReplicateReply, CommitOk, Merge;
    var d := Do(rules, c, step);
    var p, q := c.peers[s], d.peers[s];
    assert PeerCommitOk(n, h, p);
    PeerIsItself(n, h, c, s);
    PeerIsItself(n, h', d, s);
    OtherPeers(rules, c, step, s);
    StepMoves(rules, c, step, s);
    if step == Idle || step.s != s {
      SameCommit(n, h, h', p, q);
    } else if step.OnAppend? {
      AppendPeer(rules, c, step);
      AppendCommit(rules, n, h, c, s, step.m, q);
      SameCommit(n, h, h', q, q);
    } else if step.OnBatchReply? {
      BatchReplyPeer(rules, c, step);
      SameCommit(n, h, h', p, p);
      ReplyCommit(n, h', s, p, step.m, q);
    } else if step.Reboot? || step.Interrupted? {
      RestartCommit(n, h, rules, c, step);
      NoCommit(n, h', q);
    } else {
      QuietCommit(rules, c, step, p);
      SameCommit(n, h, h', p, q);
    }
  }

  lemma NoCommit(n: nat, h: History, q: Peer)
    requires q.commitIndex == 0 && q.lastApplied == 0
    ensures PeerCommitOk(n, h, q)
  {
  }

  lemma OtherPeers(rules: Rules, c: Cluster, step: Step, s: nat)
    requires Enabled(c, step) && s < |c.peers|
    ensures |Do(rules, c, step).peers| == |c.peers|
    ensures step == Idle || step.s != s ==> Do(rules, c, step).peers[s] == c.peers[s]
  {
  }

  lemma AppendPeer(rules: Rules, c: Cluster, step: Step)
    requires step.OnAppend? && Enabled(c, step)
    ensures step.m in c.msgs && step.m.Append? && step.s < |Do(rules, c, step).peers|
    ensures Do(rules, c, step).peers[step.s] == HandleAppend(rules, c.peers[step.s], step.m).0
  {
    hide HandleAppend;
  }

  lemma BatchReplyPeer(rules: Rules, c: Cluster, step: Step)
    requires step.OnBatchReply? && Enabled(c, step)
    ensures step.m.AppendReply? && step.s < |Do(rules, c, step).peers|
    ensures Do(rules, c, step).peers[step.s] == HandleReplicateReply(c.peers[step.s], step.m)
  {
    hide HandleReplicateReply;
  }

  /** A request in flight keeps its backing, and a new one has that of its sender. */
  lemma MessageCommitStep(rules: Rules, n: nat, h: History, h': History, c: Cluster, step: Step, m: Message)
    requires Inv(rules, n, h, c) && CommitsOk(n, h, c) && Enabled(c, step) && Grows(h, h')
    requires m in Do(rules, c, step).msgs
    ensures MessageCommitOk(n, h', m)
  {
    if m.Append? {
      if m in c.msgs {
        assert MessageCommitOk(n, h, m);
      } else {
        NewRequest(rules, c, step, m);
        PeerIsItself(n, h, c, step.s);
        assert PeerCommitOk(n, h, c.peers[step.s]);
      }
      MessageCommitGrows(n, h, h', m);
    }
  }

  lemma MessageCommitGrows(n: nat, h: History, h': History, m: Message)
    requires m.Append? && MessageCommitOk(n, h, m) && Grows(h, h')
    ensures MessageCommitOk(n, h', m)
  {
    var t := m.term;
    assert ReignGrows(h.reigns[t], h'.reigns[t], t);
    CommitOkGrows(n, h, h', h.reigns[t].log, m.leaderCommit, t, t);
    if m.leaderCommit > 0 {
      CommitOkMoves(n, h', h.reigns[t].log, h'.reigns[t].log, m.leaderCommit, t, t);
    }
  }

  lemma NewRequest(rules: Rules, c: Cluster, step: Step, m: Message)
    requires Enabled(c, step) && m in Do(rules, c, step).msgs && m.Append? && m !in c.msgs
    ensures step != Idle && step.s < |c.peers| && c.peers[step.s].role == Leader
    ensures m.term == c.peers[step.s].currentTerm && m.leaderCommit == c.peers[step.s].commitIndex
  {
  }

  /** The invariant on commit indices is inductive too, for steps that commit nothing past the
      verified entries. */
  lemma CommitsKept(rules: Rules, n: nat, h: History, h': History, c: Cluster, step: Step)
    requires Inv(rules, n, h, c) && CommitsOk(n, h, c) && Enabled(c, step) && CommitsVerified(rules, c, step)
    requires Grows(h, h') && Inv(rules, n, h', Do(rules, c, step))
    ensures CommitsOk(n, h', Do(rules, c, step))
  {
    hide Do, Inv, CommitsVerified, Grows;
    var d := Do(rules, c, step);
    StepSized(rules, n, h', d);
    forall s | 0 <= s < |d.peers| ensures PeerCommitOk(n, h', d.peers[s]) {
      PeerCommitStep(rules, n, h, h', c, step, s);
    }
    forall m | m in d.msgs ensures MessageCommitOk(n, h', m) {
      MessageCommitStep(rules, n, h, h', c, step, m);
    }
  }

  lemma StepSized(rules: Rules, n: nat, h: History, c: Cluster)
    requires Inv(rules, n, h, c)
    ensures |c.peers| == n
  {
  }
}
