/** Replication steps: merging, proposing, sending and committing entries. */
module RaftReplication {
  import opened RaftPeer
  import opened RaftCluster
  import opened RaftInvariant
  import opened RaftMoves
  import opened RaftSteps
  import opened Quorums
  import opened Commands

  // ---------------------------------------------------------------- merging logs

  /** `merged` is what a follower's log becomes on meeting a leader's log up to `verified`:
      it holds the leader's entries up to there, it is either the old log or ends there, and
      it cuts nothing on which the two already agreed. */
  ghost predicate Merges(log: Log, leaderLog: Log, verified: nat, merged: Log) {
    && SameUpTo(merged, leaderLog, verified + 1)
    && (merged == log || |merged| == verified + 1)
    && (forall k: nat :: SameUpTo(log, leaderLog, k) ==> SameUpTo(merged, log, k))
  }

  /** The merge loop of the append handler does that, given log matching. */
  lemma MergeMerges(h: History, log: Log, leaderLog: Log, prev: nat, prevTerm: nat, entries: seq<Entry>)
    requires LogOk(h, log) && LogOk(h, leaderLog)
    requires PrevMatches(log, prev, prevTerm) && SliceOf(leaderLog, prev, prevTerm, entries)
    ensures Merges(log, leaderLog, prev + |entries|, Merge(log, prev, entries))
  {
    var n := Overlap(log, prev + 1, entries);
    var merged := Merge(log, prev, entries);
    OverlapAgrees(h, log, leaderLog, prev, prevTerm, entries);
    OverlapMeets(log, prev + 1, entries);
    forall j | 0 <= j < prev + 1 + |entries| ensures merged[j] == leaderLog[j] {
      if j >= prev + 1 + n {
        assert merged[j] == entries[n..][j - (prev + 1 + n)] == entries[j - (prev + 1)];
        assert entries[j - (prev + 1)] == leaderLog[prev + 1 + (j - (prev + 1))];
      }
    }
    forall k: nat | SameUpTo(log, leaderLog, k) ensures SameUpTo(merged, log, k) {
      if n < |entries| {
        assert entries[n] == leaderLog[prev + 1 + n];
        assert prev + 1 + n >= k;
      }
    }
  }

  lemma OverlapAgrees(h: History, log: Log, leaderLog: Log, prev: nat, prevTerm: nat, entries: seq<Entry>)
    requires LogOk(h, log) && LogOk(h, leaderLog)
    requires PrevMatches(log, prev, prevTerm) && SliceOf(leaderLog, prev, prevTerm, entries)
    ensures SameUpTo(log, leaderLog, prev + 1 + Overlap(log, prev + 1, entries))
  {
    var n := Overlap(log, prev + 1, entries);
    OverlapMeets(log, prev + 1, entries);
    if n > 0 {
      assert log[prev + 1 + (n - 1)].term == entries[n - 1].term;
      assert entries[n - 1] == leaderLog[prev + 1 + (n - 1)];
    }
    LogMatching(h, log, leaderLog, prev + n);
  }

  lemma MergeLogOk(h: History, log: Log, leaderLog: Log, verified: nat, merged: Log, t: int)
    requires LogOk(h, log) && LogOk(h, leaderLog) && TermsAtMost(log, t) && TermsAtMost(leaderLog, t)
    requires Merges(log, leaderLog, verified, merged)
    ensures LogOk(h, merged) && TermsAtMost(merged, t)
  {
    if merged != log {
      PrefixLogOk(h, leaderLog, merged);
      forall i | 0 <= i < |merged| ensures merged[i].term <= t {
        assert merged[i] == leaderLog[i];
      }
    }
  }

  /** What a peer had acknowledged survives a merge with the log of reign t, its own term. */
  lemma MergeRetains(h: History, log: Log, t: nat, verified: nat, merged: Log, t0: nat, a: nat)
    requires t0 in h.reigns && t in h.reigns && t0 <= t
    requires Merges(log, h.reigns[t].log, verified, merged)
    requires Retains(h, t0, a, log, t)
    ensures Retains(h, t0, a, merged, t)
  {
    forall k | 0 <= k <= a ensures Kept(h, t0, k, merged, t) {
      assert Kept(h, t0, k, log, t);
      MergeKeepsOne(h, log, t, verified, merged, t0, k);
    }
  }

  lemma MergeKeepsOne(h: History, log: Log, t: nat, verified: nat, merged: Log, t0: nat, k: nat)
    requires t0 in h.reigns && t in h.reigns && t0 <= t
    requires Merges(log, h.reigns[t].log, verified, merged)
    requires Kept(h, t0, k, log, t)
    ensures Kept(h, t0, k, merged, t)
  {
    var l, l0 := h.reigns[t].log, h.reigns[t0].log;
    if SameUpTo(log, l0, k + 1) {
      if SameUpTo(l, l0, k + 1) {
        forall j | 0 <= j < k + 1 ensures log[j] == l[j] {
          assert log[j] == l0[j] && l[j] == l0[j];
        }
        assert SameUpTo(merged, log, k + 1);
        forall j | 0 <= j < k + 1 ensures merged[j] == l0[j] {
          assert merged[j] == log[j] == l0[j];
        }
      } else {
        assert t0 < t;
        assert Supplanted(h, t0, k, t);
      }
    }
  }

  /** No committed entry is ever cut: a follower's committed prefix agrees with the log of
      every reign it can hear from. */
  lemma CommittedPrefixAgrees(n: nat, h: History, c: Cluster, log: Log, commit: nat, bound: nat, t: nat)
    requires |c.peers| == n && ReignsOk(n, h) && BallotsOk(h, c) && AcksOk(h, c)
    requires LogOk(h, log) && CommitOk(n, h, log, commit, bound) && t in h.reigns && bound <= t
    ensures SameUpTo(log, h.reigns[t].log, commit + 1)
  {
    assert ReignOk(n, h, t, h.reigns[t]);
    if commit > 0 {
      var t0, k :| Backs(n, h, log, commit, bound, t0, k);
      LeaderCompleteness(n, h, c, t0, k, t);
      forall j | 0 <= j < commit + 1 ensures log[j] == h.reigns[t].log[j] {
        assert log[j] == h.reigns[t0].log[j];
      }
    }
  }

  // ---------------------------------------------------------------- the append handler

  /** A peer that has accepted the sender of an append request as leader of its term. */
  lemma AcceptKeeps(rules: Rules, n: nat, h: History, c: Cluster, s: nat, t: nat)
    requires Inv(rules, n, h, c) && s < n && t >= c.peers[s].currentTerm
    ensures Inv(rules, n, h, Set(c, s, AcceptLeader(rules, c.peers[s], t)))
  {
    var p := c.peers[s];
    if t > p.currentTerm {
      RaiseTerm(rules, n, h, c, s, t);
    } else {
      assert PeerOk(n, h, s, p);
      var q := AcceptLeader(rules, p, t);
      PeerKept(n, h, s, p, q);
      if rules.keepVote {
        QuietPeer(rules, n, h, c, s, q);
      } else {
        SameLogRetains(rules, n, h, c, s, t);
        ReplacePeer(rules, n, h, c, s, q);
      }
    }
  }

  /** How an append request changes a follower of its term: the log, the commit index, and
      what is stored. */
  ghost predicate Accepts(rules: Rules, q: Peer, leaderCommit: nat, verified: nat, r: Peer) {
    && r == q.(log := r.log, commitIndex := FollowerCommit(rules, q.commitIndex, leaderCommit, verified, r.log), stored := r.stored)
    && (r.stored == Saved(q.currentTerm, q.votedFor, r.log) || (r.log == q.log && r.stored == q.stored))
  }

  lemma AcceptedPeer(rules: Rules, n: nat, h: History, c: Cluster, s: nat, leaderCommit: nat, verified: nat, r: Peer)
    requires |c.peers| == n && s < n && ReignsOk(n, h) && BallotsOk(h, c) && AcksOk(h, c)
    requires PeerOk(n, h, s, c.peers[s]) && c.peers[s].role == Follower
    requires c.peers[s].currentTerm in h.reigns
    requires Merges(c.peers[s].log, h.reigns[c.peers[s].currentTerm].log, verified, r.log)
    requires Accepts(rules, c.peers[s], leaderCommit, verified, r)
    ensures PeerOk(n, h, s, r)
  {
    var q := c.peers[s];
    var t := q.currentTerm;
    assert ReignOk(n, h, t, h.reigns[t]);
    MergeLogOk(h, q.log, h.reigns[t].log, verified, r.log, t);
  }

  lemma AcceptedAcks(h: History, c: Cluster, s: nat, verified: nat, merged: Log)
    requires AcksOk(h, c) && s < |c.peers| && c.peers[s].currentTerm in h.reigns
    requires Merges(c.peers[s].log, h.reigns[c.peers[s].currentTerm].log, verified, merged)
    ensures forall t :: (t, s) in h.acks && t in h.reigns ==> Retains(h, t, h.acks[(t, s)], merged, c.peers[s].currentTerm)
  {
    forall t | (t, s) in h.acks && t in h.reigns ensures Retains(h, t, h.acks[(t, s)], merged, c.peers[s].currentTerm) {
      assert AckOk(h, c.peers, t, s);
      MergeRetains(h, c.peers[s].log, c.peers[s].currentTerm, verified, merged, t, h.acks[(t, s)]);
    }
  }

  /** Follower q may become r: r merges q's log with that of the reign of q's term, and its commit index follows the rules. */
  ghost predicate MergeReady(rules: Rules, n: nat, h: History, q: Peer, leaderCommit: nat, verified: nat, r: Peer) {
    && q.role == Follower && q.currentTerm in h.reigns
    && Merges(q.log, h.reigns[q.currentTerm].log, verified, r.log)
    && Accepts(rules, q, leaderCommit, verified, r)
  }

  lemma AcceptReplace(rules: Rules, n: nat, h: History, c: Cluster, s: nat, leaderCommit: nat, verified: nat, r: Peer)
    requires Inv(rules, n, h, c) && s < n && MergeReady(rules, n, h, c.peers[s], leaderCommit, verified, r)
    ensures Inv(rules, n, h, Set(c, s, r))
  {
    assert PeerOk(n, h, s, c.peers[s]);
    AcceptedPeer(rules, n, h, c, s, leaderCommit, verified, r);
    AcceptedAcks(h, c, s, verified, r.log);
    if rules.keepVote {
      VoteStays(h, c, s, r);
    }
    ReplacePeer(rules, n, h, c, s, r);
  }

  lemma AcceptStep(rules: Rules, n: nat, h: History, c: Cluster, s: nat, leaderCommit: nat, verified: nat, r: Peer, m: Message) returns (h': History)
    requires Inv(rules, n, h, c) && s < n && MergeReady(rules, n, h, c.peers[s], leaderCommit, verified, r)
    requires m.AppendReply? && m.term == c.peers[s].currentTerm && m.follower == s && m.prevLogIndex + m.count == verified
    ensures Grows(h, h') && Inv(rules, n, h', Send(Set(c, s, r), m))
  {
    AcceptReplace(rules, n, h, c, s, leaderCommit, verified, r);
    h' := AckStep(rules, n, h, Set(c, s, r), s, r.currentTerm, verified);
    AddMessage(rules, n, h', Set(c, s, r), m);
  }

  /** Having merged, the follower acknowledges the entries the request verified. */
  lemma AckStep(rules: Rules, n: nat, h: History, c: Cluster, s: nat, t: nat, a: nat) returns (h': History)
    requires Inv(rules, n, h, c) && s < n && t in h.reigns
    requires c.peers[s].currentTerm == t && c.peers[s].role == Follower
    requires SameUpTo(c.peers[s].log, h.reigns[t].log, a + 1)
    ensures Grows(h, h') && h'.reigns == h.reigns && Inv(rules, n, h', c)
    ensures (t, s) in h'.acks && h'.acks[(t, s)] >= a
  {
    if (t, s) in h.acks && h.acks[(t, s)] >= a {
      GrowsRefl(h);
      h' := h;
    } else {
      h' := Acknowledge(rules, n, h, c, t, s, a);
    }
  }

  /** What the append handler returns, case by case. */
  lemma AppendCases(rules: Rules, p: Peer, m: Message, r: Peer, reply: Message)
    requires m.Append? && (r, reply) == HandleAppend(rules, p, m)
    ensures reply.AppendReply? && reply.term == m.term && reply.follower == p.me
    ensures reply.prevLogIndex == m.prevLogIndex && reply.count == |m.entries|
    ensures m.term < p.currentTerm ==> r == p && !reply.success
    ensures m.term >= p.currentTerm ==> AppendOutcome(rules, AcceptLeader(rules, p, m.term), m, r, reply)
  {
    if m.term >= p.currentTerm {
      var q := AcceptLeader(rules, p, m.term);
      if PrevMatches(q.log, m.prevLogIndex, m.prevLogTerm) && |m.entries| == 0 {
        assert Merge(q.log, m.prevLogIndex, m.entries) == q.log;
      }
    }
  }

  ghost predicate AppendOutcome(rules: Rules, q: Peer, m: Message, r: Peer, reply: Message)
    requires m.Append? && reply.AppendReply?
  {
    if PrevMatches(q.log, m.prevLogIndex, m.prevLogTerm) then
      && r.log == Merge(q.log, m.prevLogIndex, m.entries)
      && Accepts(rules, q, m.leaderCommit, m.prevLogIndex + |m.entries|, r)
    else r == q && !reply.success
  }

  lemma AppendKeeps(rules: Rules, n: nat, h: History, c: Cluster, s: nat, m: Message, r: Peer, reply: Message) returns (h': History)
    requires Inv(rules, n, h, c) && s < n && m in c.msgs && m.Append? && m.dest == s
    requires (r, reply) == HandleAppend(rules, c.peers[s], m)
    ensures Grows(h, h') && Inv(rules, n, h', Send(Set(c, s, r), reply))
  {
    AppendCases(rules, c.peers[s], m, r, reply);
    PeerIsItself(n, h, c, s);
    if m.term < c.peers[s].currentTerm {
      RefusedAppend(rules, n, h, c, s, r, reply);
      GrowsRefl(h);
      h' := h;
    } else {
      h' := CurrentAppend(rules, n, h, c, s, m, r, reply);
    }
  }

  lemma PeerIsItself(n: nat, h: History, c: Cluster, s: nat)
    requires |c.peers| == n && PeersOk(n, h, c) && s < n
    ensures c.peers[s].me == s && PeerOk(n, h, s, c.peers[s])
  {
    assert PeerOk(n, h, s, c.peers[s]);
  }

  lemma RefusedAppend(rules: Rules, n: nat, h: History, c: Cluster, s: nat, r: Peer, reply: Message)
    requires Inv(rules, n, h, c) && s < n && r == c.peers[s]
    requires reply.AppendReply? && reply.follower == s && !reply.success
    ensures Inv(rules, n, h, Send(Set(c, s, r), reply))
  {
    assert c.peers[s := r] == c.peers;
    AddMessage(rules, n, h, c, reply);
  }

  lemma AcceptLeaderShape(rules: Rules, p: Peer, m: Message, q: Peer)
    requires m.Append? && m.term >= p.currentTerm && q == AcceptLeader(rules, p, m.term)
    ensures q.log == p.log && q.commitIndex == p.commitIndex && q.currentTerm == m.term && q.role == Follower
    ensures CapIsVerified(q, m) == CapIsVerified(p, m)
  {
  }

  ghost predicate Answers(m: Message, s: nat, reply: Message)
    requires m.Append?
  {
    && reply.AppendReply? && reply.term == m.term && reply.follower == s
    && reply.prevLogIndex == m.prevLogIndex && reply.count == |m.entries|
  }

  lemma CurrentAppend(rules: Rules, n: nat, h: History, c: Cluster, s: nat, m: Message, r: Peer, reply: Message) returns (h': History)
    requires Inv(rules, n, h, c) && s < n && m in c.msgs
    requires m.Append? && m.term >= c.peers[s].currentTerm && Answers(m, s, reply)
    requires AppendOutcome(rules, AcceptLeader(rules, c.peers[s], m.term), m, r, reply)
    ensures Grows(h, h') && Inv(rules, n, h', Send(Set(c, s, r), reply))
  {
    var q := AcceptLeader(rules, c.peers[s], m.term);
    AcceptKeeps(rules, n, h, c, s, m.term);
    AcceptLeaderShape(rules, c.peers[s], m, q);
    SetTwice(c, s, q, r);
    h' := AcceptedOrNot(rules, n, h, Set(c, s, q), s, m, r, reply);
  }

  lemma MergedAppend(rules: Rules, n: nat, h: History, c: Cluster, s: nat, m: Message, r: Peer, reply: Message) returns (h': History)
    requires Inv(rules, n, h, c) && s < n && m in c.msgs
    requires m.Append? && m.term == c.peers[s].currentTerm && c.peers[s].role == Follower && Answers(m, s, reply)
    requires PrevMatches(c.peers[s].log, m.prevLogIndex, m.prevLogTerm) && AppendOutcome(rules, c.peers[s], m, r, reply)
    ensures Grows(h, h') && Inv(rules, n, h', Send(Set(c, s, r), reply))
  {
    AppendReady(rules, n, h, c, s, m, r, reply);
    h' := AcceptStep(rules, n, h, c, s, m.leaderCommit, m.prevLogIndex + |m.entries|, r, reply);
  }

  lemma AcceptedOrNot(rules: Rules, n: nat, h: History, c: Cluster, s: nat, m: Message, r: Peer, reply: Message) returns (h': History)
    requires Inv(rules, n, h, c) && s < n && m in c.msgs
    requires m.Append? && m.term == c.peers[s].currentTerm && c.peers[s].role == Follower && Answers(m, s, reply)
    requires AppendOutcome(rules, c.peers[s], m, r, reply)
    ensures Grows(h, h') && Inv(rules, n, h', Send(Set(c, s, r), reply))
  {
    if PrevMatches(c.peers[s].log, m.prevLogIndex, m.prevLogTerm) {
      h' := MergedAppend(rules, n, h, c, s, m, r, reply);
    } else {
      RefusedAppend(rules, n, h, c, s, r, reply);
      GrowsRefl(h);
      h' := h;
    }
  }

  lemma AppendReady(rules: Rules, n: nat, h: History, c: Cluster, s: nat, m: Message, r: Peer, reply: Message)
    requires |c.peers| == n && s < n && MessagesOk(n, h, c) && PeersOk(n, h, c) && ReignsOk(n, h)
    requires m in c.msgs && m.Append? && m.term == c.peers[s].currentTerm && c.peers[s].role == Follower
    requires PrevMatches(c.peers[s].log, m.prevLogIndex, m.prevLogTerm)
    requires Answers(m, s, reply) && AppendOutcome(rules, c.peers[s], m, r, reply)
    ensures MergeReady(rules, n, h, c.peers[s], m.leaderCommit, m.prevLogIndex + |m.entries|, r)
  {
    assert MessageOk(n, h, c.peers, m);
    assert PeerOk(n, h, s, c.peers[s]) && ReignOk(n, h, m.term, h.reigns[m.term]);
    MergeMerges(h, c.peers[s].log, h.reigns[m.term].log, m.prevLogIndex, m.prevLogTerm, m.entries);
  }

  // ---------------------------------------------------------------- proposing

  lemma LeaderIsAlone(n: nat, h: History, c: Cluster, s: nat)
    requires |c.peers| == n && PeersOk(n, h, c) && s < n && c.peers[s].role == Leader
    ensures Unled(Set(c, s, c.peers[s].(role := Follower)), c.peers[s].currentTerm)
  {
    assert PeerOk(n, h, s, c.peers[s]);
    forall p | 0 <= p < n && p != s && c.peers[p].currentTerm == c.peers[s].currentTerm ensures c.peers[p].role != Leader {
      assert PeerOk(n, h, p, c.peers[p]);
    }
  }

  lemma TakenPeer(n: nat, h: History, s: nat, p: Peer, e: Entry, q: Peer)
    requires PeerOk(n, h, s, p) && p.role == Follower && e.term == p.currentTerm
    requires e.term in h.reigns && LogOk(h, h.reigns[e.term].log) && h.reigns[e.term].log == q.log
    requires q == Persist(p.(log := p.log + [e]))
    ensures PeerOk(n, h, s, q)
  {
  }

  lemma TakenAcks(h: History, c: Cluster, s: nat, e: Entry)
    requires AcksOk(h, c) && s < |c.peers|
    ensures forall t :: (t, s) in h.acks && t in h.reigns ==>
                          Retains(h, t, h.acks[(t, s)], c.peers[s].log + [e], c.peers[s].currentTerm)
  {
    forall t | (t, s) in h.acks && t in h.reigns
      ensures Retains(h, t, h.acks[(t, s)], c.peers[s].log + [e], c.peers[s].currentTerm)
    {
      assert AckOk(h, c.peers, t, s);
      LongerRetains(h, t, h.acks[(t, s)], c.peers[s].log, e, c.peers[s].currentTerm);
    }
  }

  /** A former leader, its reign's log one entry ahead, takes the entry into its own log. */
  lemma TakeEntry(rules: Rules, n: nat, h: History, c: Cluster, s: nat, e: Entry, q: Peer)
    requires Inv(rules, n, h, c) && s < n && c.peers[s].role == Follower
    requires c.peers[s].currentTerm in h.reigns && e.term == c.peers[s].currentTerm
    requires h.reigns[e.term].log == c.peers[s].log + [e]
    requires q == Persist(c.peers[s].(log := c.peers[s].log + [e]))
    ensures Inv(rules, n, h, Set(c, s, q))
  {
    PeerIsItself(n, h, c, s);
    assert ReignOk(n, h, e.term, h.reigns[e.term]);
    TakenPeer(n, h, s, c.peers[s], e, q);
    TakenAcks(h, c, s, e);
    if rules.keepVote {
      VoteStays(h, c, s, q);
    }
    ReplacePeer(rules, n, h, c, s, q);
  }

  lemma LongerRetains(h: History, t: nat, a: nat, log: Log, e: Entry, bound: nat)
    requires t in h.reigns && Retains(h, t, a, log, bound)
    ensures Retains(h, t, a, log + [e], bound)
  {
    forall k | 0 <= k <= a ensures Kept(h, t, k, log + [e], bound) {
      assert Kept(h, t, k, log, bound);
    }
  }

  lemma ProposedPeer(n: nat, h: History, s: nat, p: Peer, command: Command, q: Peer)
    requires PeerOk(n, h, s, p.(role := Follower, log := q.log, stored := q.stored))
    requires |p.nextIndex| == n && |p.matchIndex| == n
    requires forall i :: 0 <= i < n ==> p.nextIndex[i] >= 1 && MatchOk(h, p.currentTerm, p, i)
    requires q == Propose(p, command) && p.role == Leader
    requires p.currentTerm in h.reigns && h.reigns[p.currentTerm].leader == s && h.reigns[p.currentTerm].log == q.log
    requires (p.currentTerm, s) in h.acks && h.acks[(p.currentTerm, s)] == |q.log| - 1
    ensures PeerOk(n, h, s, q)
  {
    forall i | 0 <= i < n ensures MatchOk(h, q.currentTerm, q, i) {
      assert MatchOk(h, p.currentTerm, p, i);
    }
  }

  /** First half of a proposal: the leader's reign gains the entry. */
  lemma SubmitBegins(rules: Rules, n: nat, h: History, c: Cluster, s: nat, e: Entry, p': Peer) returns (h': History)
    requires Inv(rules, n, h, c) && s < n && c.peers[s].role == Leader && e.term == c.peers[s].currentTerm
    requires p' == c.peers[s].(role := Follower)
    ensures Grows(h, h') && Inv(rules, n, h', Set(c, s, p')) && h'.acks == h.acks
    ensures e.term in h.reigns && e.term in h'.reigns && h.reigns[e.term].log == c.peers[s].log
    ensures h'.reigns[e.term] == OneMore(h.reigns[e.term], e)
  {
    PeerIsItself(n, h, c, s);
    LeaderIsAlone(n, h, c, s);
    StepDown(rules, n, h, c, s);
    h' := ExtendReign(rules, n, h, Set(c, s, p'), e.term, e);
  }

  /** Second half: the leader takes the entry and acknowledges it. */
  lemma SubmitContinues(rules: Rules, n: nat, h: History, c: Cluster, s: nat, e: Entry, q: Peer) returns (h': History)
    requires Inv(rules, n, h, c) && s < n && c.peers[s].role == Follower
    requires c.peers[s].currentTerm in h.reigns && e.term == c.peers[s].currentTerm
    requires h.reigns[e.term].log == c.peers[s].log + [e]
    requires q == Persist(c.peers[s].(log := c.peers[s].log + [e]))
    ensures Grows(h, h') && h'.reigns == h.reigns && Inv(rules, n, h', Set(c, s, q))
    ensures (e.term, s) in h'.acks && h'.acks[(e.term, s)] >= |q.log| - 1
  {
    TakeEntry(rules, n, h, c, s, e, q);
    h' := AckStep(rules, n, h, Set(c, s, q), s, e.term, |q.log| - 1);
  }

  lemma SubmitKeeps(rules: Rules, n: nat, h: History, c: Cluster, s: nat, command: Command) returns (h': History)
    requires Inv(rules, n, h, c) && s < n && c.peers[s].role == Leader
    ensures Grows(h, h') && Inv(rules, n, h', Set(c, s, Propose(c.peers[s], command)))
  {
    var p := c.peers[s];
    var e := Entry(p.currentTerm, command);
    var p' := p.(role := Follower);
    PeerIsItself(n, h, c, s);
    var h1 := SubmitBegins(rules, n, h, c, s, e, p');
    var q := Persist(p'.(log := p'.log + [e]));
    h' := SubmitContinues(rules, n, h1, Set(c, s, p'), s, e, q);
    GrowsTrans(h, h1, h');
    SubmitEnds(rules, n, h, h', c, s, command, q);
  }

  lemma SubmitEnds(rules: Rules, n: nat, h: History, h': History, c: Cluster, s: nat, command: Command, q: Peer)
    requires |c.peers| == n && s < n && PeerOk(n, h, s, c.peers[s]) && c.peers[s].role == Leader
    requires q == Persist(c.peers[s].(role := Follower, log := c.peers[s].log + [Entry(c.peers[s].currentTerm, command)]))
    requires Grows(h, h')
    requires c.peers[s].currentTerm in h'.reigns
    requires h'.reigns[c.peers[s].currentTerm] == OneMore(h.reigns[c.peers[s].currentTerm], Entry(c.peers[s].currentTerm, command))
    requires (c.peers[s].currentTerm, s) in h'.acks && h'.acks[(c.peers[s].currentTerm, s)] >= |c.peers[s].log|
    requires Inv(rules, n, h', Set(Set(c, s, c.peers[s].(role := Follower)), s, q))
    ensures Inv(rules, n, h', Set(c, s, Propose(c.peers[s], command)))
  {
    var p := c.peers[s];
    var c2 := Set(Set(c, s, p.(role := Follower)), s, q);
    var r := Propose(p, command);
    PeerIsItself(n, h', c2, s);
    assert AckOk(h', c2.peers, p.currentTerm, s);
    forall i | 0 <= i < n ensures p.nextIndex[i] >= 1 && MatchOk(h', p.currentTerm, p, i) {
      assert MatchOk(h, p.currentTerm, p, i);
    }
    ProposedPeer(n, h', s, p, command, r);
    QuietPeer(rules, n, h', c2, s, r);
    SetTwice(Set(c, s, p.(role := Follower)), s, q, r);
    SetTwice(c, s, p.(role := Follower), r);
  }

  // ---------------------------------------------------------------- sending

  lemma HeartbeatOk(n: nat, h: History, c: Cluster, s: nat, dest: nat)
    requires |c.peers| == n && s < n && dest < n && dest != s && PeerOk(n, h, s, c.peers[s]) && c.peers[s].role == Leader
    ensures MessageOk(n, h, c.peers, Heartbeat(c.peers[s], dest))
  {
  }

  lemma BatchOk(n: nat, h: History, c: Cluster, s: nat, dest: nat)
    requires |c.peers| == n && s < n && dest < n && PeerOk(n, h, s, c.peers[s]) && HasBatch(c.peers[s], dest)
    ensures MessageOk(n, h, c.peers, Batch(c.peers[s], dest))
  {
  }

  // ---------------------------------------------------------------- counting and committing

  /** A majority of holders is a quorum of acknowledgements. */
  lemma HoldersAcknowledge(n: nat, h: History, p: Peer, index: nat)
    requires p.peers == n && p.me < n && LeaderOk(n, h, p) && TermsAtMost(p.log, p.currentTerm)
    requires index > 0 && Committable(p, index)
    ensures Committed(n, h, p.currentTerm, index)
  {
    var q := Holders(p, index);
    forall v | v in q ensures (p.currentTerm, v) in h.acks && h.acks[(p.currentTerm, v)] >= index {
      if v != p.me {
        assert MatchOk(h, p.currentTerm, p, v);
      }
    }
    assert Majority(q, n) && AckQuorum(h, p.currentTerm, index, q);
  }

  lemma AdvancedPeer(n: nat, h: History, s: nat, p: Peer)
    requires PeerOk(n, h, s, p) && p.role == Leader && s < n
    ensures PeerOk(n, h, s, TryAdvanceCommit(p))
  {
    var q := TryAdvanceCommit(p);
    forall i | 0 <= i < n ensures MatchOk(h, p.currentTerm, q, i) {
      assert MatchOk(h, p.currentTerm, p, i);
    }
    assert LeaderOk(n, h, q);
  }

  lemma MatchedPeer(n: nat, h: History, s: nat, p: Peer, v: nat, matched: int, next: int)
    requires PeerOk(n, h, s, p) && p.role == Leader && v < n && next >= 1
    requires matched == p.matchIndex[v] || ((p.currentTerm, v) in h.acks && matched <= h.acks[(p.currentTerm, v)])
    ensures PeerOk(n, h, s, p.(matchIndex := p.matchIndex[v := matched], nextIndex := p.nextIndex[v := next]))
  {
    var q := p.(matchIndex := p.matchIndex[v := matched], nextIndex := p.nextIndex[v := next]);
    forall i | 0 <= i < n ensures MatchOk(h, q.currentTerm, q, i) {
      assert MatchOk(h, p.currentTerm, p, i);
    }
  }

  /** The peer after a replication reply it takes into account. */
  lemma RepliedPeer(n: nat, h: History, c: Cluster, s: nat, m: Message, q: Peer)
    requires |c.peers| == n && s < n && PeerOk(n, h, s, c.peers[s]) && c.peers[s].role == Leader
    requires m.AppendReply? && m.term == c.peers[s].currentTerm && m.replyTerm <= m.term && MessageOk(n, h, c.peers, m)
    requires q == HandleReplicateReply(c.peers[s], m)
    ensures PeerOk(n, h, s, q) && q.log == c.peers[s].log && q.role == Leader
    ensures q.currentTerm == c.peers[s].currentTerm && q.votedFor == c.peers[s].votedFor
  {
    var p := c.peers[s];
    if m.success {
      var matched := Max(m.prevLogIndex + m.count, p.matchIndex[m.follower]);
      MatchedPeer(n, h, s, p, m.follower, matched, matched + 1);
      AdvancedPeer(n, h, s, p.(matchIndex := p.matchIndex[m.follower := matched], nextIndex := p.nextIndex[m.follower := matched + 1]));
    } else if p.nextIndex[m.follower] > 1 {
      MatchedPeer(n, h, s, p, m.follower, p.matchIndex[m.follower], p.nextIndex[m.follower] - 1);
      assert p.matchIndex[m.follower := p.matchIndex[m.follower]] == p.matchIndex;
    }
  }

  lemma BatchReplyKeeps(rules: Rules, n: nat, h: History, c: Cluster, s: nat, m: Message, q: Peer)
    requires Inv(rules, n, h, c) && s < n && m in c.msgs && m.AppendReply?
    requires q == HandleReplicateReply(c.peers[s], m)
    ensures Inv(rules, n, h, Set(c, s, q))
  {
    var p := c.peers[s];
    if p.role != Leader || p.currentTerm != m.term {
      assert c.peers[s := p] == c.peers;
    } else if m.replyTerm > p.currentTerm {
      RaiseTerm(rules, n, h, c, s, m.replyTerm);
    } else {
      LeaderReply(rules, n, h, c, s, m, q);
    }
  }

  lemma LeaderReply(rules: Rules, n: nat, h: History, c: Cluster, s: nat, m: Message, q: Peer)
    requires Inv(rules, n, h, c) && s < n && m in c.msgs && m.AppendReply?
    requires c.peers[s].role == Leader && c.peers[s].currentTerm == m.term && m.replyTerm <= m.term
    requires q == HandleReplicateReply(c.peers[s], m)
    ensures Inv(rules, n, h, Set(c, s, q))
  {
    PeerIsItself(n, h, c, s);
    assert MessageOk(n, h, c.peers, m);
    RepliedPeer(n, h, c, s, m, q);
    QuietPeer(rules, n, h, c, s, q);
  }

  // ---------------------------------------------------------------- every step

  /** The invariant on votes and logs is inductive: every step keeps it that makes no second
      grant in a term. */
  lemma StepKeeps(rules: Rules, n: nat, h: History, c: Cluster, step: Step) returns (h': History)
    requires Inv(rules, n, h, c) && Enabled(c, step) && VotesOnce(rules, c, step)
    ensures Grows(h, h') && Inv(rules, n, h', Do(rules, c, step))
  {
    GrowsRefl(h);
    h' := h;
    match step
    case Idle =>
    case Timeout(s) => h' := TimeoutKeeps(rules, n, h, c, s);
    case AskVotes(s) => AskVotesKeeps(rules, n, h, c, s);
    case OnVoteRequest(s, m) => h' := VoteRequestKeeps(rules, n, h, c, s, m);
    case OnVoteRefused(s, m) => SeeTermKeeps(rules, n, h, c, s, m.replyTerm);
    case Win(s) => h' := WinKeeps(rules, n, h, c, s);
    case Submit(s, command) => h' := SubmitKeeps(rules, n, h, c, s, command);
    case SendHeartbeat(s, dest) =>
      PeerIsItself(n, h, c, s);
      HeartbeatOk(n, h, c, s, dest);
      AddMessage(rules, n, h, c, Heartbeat(c.peers[s], dest));
    case SendBatch(s, dest) =>
      PeerIsItself(n, h, c, s);
      BatchOk(n, h, c, s, dest);
      AddMessage(rules, n, h, c, Batch(c.peers[s], dest));
    case OnAppend(s, m) =>
      h' := AppendKeeps(rules, n, h, c, s, m, HandleAppend(rules, c.peers[s], m).0, HandleAppend(rules, c.peers[s], m).1);
    case OnHeartbeatReply(s, m) => SeeTermKeeps(rules, n, h, c, s, m.replyTerm);
    case OnBatchReply(s, m) => BatchReplyKeeps(rules, n, h, c, s, m, HandleReplicateReply(c.peers[s], m));
    case Deliver(s) => DeliverKeeps(rules, n, h, c, s);
    case Reboot(s) => RebootKeeps(rules, n, h, c, s);
    case Interrupted(s, m) =>
      if m.VoteRequest? {
        SeeTermKeeps(rules, n, h, c, s, m.term);
        InterruptedKeeps(rules, n, h, c, s, SeeTerm(c.peers[s], m.term));
      } else if m.term >= c.peers[s].currentTerm {
        AcceptKeeps(rules, n, h, c, s, m.term);
        InterruptedKeeps(rules, n, h, c, s, AcceptLeader(rules, c.peers[s], m.term));
      } else {
        RebootKeeps(rules, n, h, c, s);
      }
  }
}
