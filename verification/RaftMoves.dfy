/** The elementary moves of cluster and history, each shown to keep the invariant.
    `RaftSteps` composes every step of the protocol from them. */
module RaftMoves {
  import opened RaftPeer
  import opened RaftCluster
  import opened RaftInvariant
  import opened Quorums

  /** The history only grows: reigns keep their past, acknowledgements never fall. */
  ghost predicate Grows(h: History, h': History) {
    && (forall t :: t in h.reigns ==> t in h'.reigns && ReignGrows(h.reigns[t], h'.reigns[t], t))
    && (forall t, v :: (t, v) in h.acks ==> (t, v) in h'.acks && h.acks[(t, v)] <= h'.acks[(t, v)])
  }

  ghost predicate ReignGrows(r: Reign, r': Reign, t: nat) {
    && r'.leader == r.leader && r'.elected == r.elected && r'.quorum == r.quorum
    && SameUpTo(r.log, r'.log, |r.log|)
    && forall i :: |r.log| <= i < |r'.log| ==> r'.log[i].term == t
  }

  lemma GrowsRefl(h: History)
    ensures Grows(h, h)
  {
  }

  lemma GrowsTrans(a: History, b: History, c: History)
    requires Grows(a, b) && Grows(b, c)
    ensures Grows(a, c)
  {
    forall t | t in a.reigns ensures t in c.reigns && ReignGrows(a.reigns[t], c.reigns[t], t) {
      assert ReignGrows(a.reigns[t], b.reigns[t], t) && ReignGrows(b.reigns[t], c.reigns[t], t);
      var x, y, z := a.reigns[t].log, b.reigns[t].log, c.reigns[t].log;
      forall i | 0 <= i < |x| ensures x[i] == z[i] {
        assert x[i] == y[i] && y[i] == z[i];
      }
      forall i | |x| <= i < |z| ensures z[i].term == t {
        if i < |y| {
          assert y[i] == z[i];
        }
      }
    }
    forall t, v | (t, v) in a.acks ensures (t, v) in c.acks && a.acks[(t, v)] <= c.acks[(t, v)] {
      assert (t, v) in b.acks;
    }
  }

  lemma LogOkGrows(h: History, h': History, log: Log)
    requires Grows(h, h') && LogOk(h, log)
    ensures LogOk(h', log)
  {
    forall i | 1 <= i < |log| ensures Grounded(h', log, i) {
      assert Grounded(h, log, i);
      var t := log[i].term;
      assert ReignGrows(h.reigns[t], h'.reigns[t], t);
      forall j | 0 <= j < i + 1 ensures log[j] == h'.reigns[t].log[j] {
        assert log[j] == h.reigns[t].log[j];
      }
    }
  }

  lemma CommittedGrows(n: nat, h: History, h': History, t: nat, k: nat)
    requires Grows(h, h') && Committed(n, h, t, k)
    ensures Committed(n, h', t, k)
  {
    var q :| Majority(q, n) && AckQuorum(h, t, k, q);
    assert ReignGrows(h.reigns[t], h'.reigns[t], t);
    assert h'.reigns[t].log[k] == h.reigns[t].log[k];
    forall v | v in q ensures (t, v) in h'.acks && h'.acks[(t, v)] >= k {
      assert (t, v) in h.acks;
    }
    assert AckQuorum(h', t, k, q);
  }

  lemma BacksGrows(n: nat, h: History, h': History, log: Log, commit: nat, bound: nat, t: nat, k: nat)
    requires Grows(h, h') && Backs(n, h, log, commit, bound, t, k)
    ensures Backs(n, h', log, commit, bound, t, k)
  {
    CommittedGrows(n, h, h', t, k);
    assert ReignGrows(h.reigns[t], h'.reigns[t], t);
    forall j | 0 <= j < commit + 1 ensures log[j] == h'.reigns[t].log[j] {
      assert log[j] == h.reigns[t].log[j];
    }
  }

  lemma CommitOkGrows(n: nat, h: History, h': History, log: Log, commit: nat, bound: nat, bound': nat)
    requires Grows(h, h') && CommitOk(n, h, log, commit, bound) && bound <= bound'
    ensures CommitOk(n, h', log, commit, bound')
  {
    if commit > 0 {
      var t, k :| Backs(n, h, log, commit, bound, t, k);
      BacksGrows(n, h, h', log, commit, bound, t, k);
      assert Backs(n, h', log, commit, bound', t, k);
    }
  }

  /** CommitOk carries over to a log that agrees up to the commit index. */
  lemma CommitOkMoves(n: nat, h: History, a: Log, b: Log, commit: nat, bound: nat, bound': nat)
    requires CommitOk(n, h, a, commit, bound) && SameUpTo(a, b, commit + 1) && bound <= bound'
    ensures CommitOk(n, h, b, commit, bound')
  {
    if commit > 0 {
      var t, k :| Backs(n, h, a, commit, bound, t, k);
      forall j | 0 <= j < commit + 1 ensures b[j] == h.reigns[t].log[j] {
        assert a[j] == b[j];
      }
      assert Backs(n, h, b, commit, bound', t, k);
    }
  }

  /** A lower commit index needs no more backing. */
  lemma CommitOkShrinks(n: nat, h: History, log: Log, commit: nat, commit': nat, bound: nat)
    requires CommitOk(n, h, log, commit, bound) && commit' <= commit
    ensures CommitOk(n, h, log, commit', bound)
  {
    if commit' > 0 {
      var t, k :| Backs(n, h, log, commit, bound, t, k);
      assert Backs(n, h, log, commit', bound, t, k);
    }
  }

  lemma SupplantedGrows(n: nat, h: History, h': History, t: nat, k: nat, bound: nat, bound': nat)
    requires ReignsOk(n, h) && Grows(h, h')
    requires t in h.reigns && k < |h.reigns[t].log| && Supplanted(h, t, k, bound) && bound <= bound'
    ensures Supplanted(h', t, k, bound')
  {
    var u :| u in h.reigns && t < u <= bound && !SameUpTo(h.reigns[u].log, h.reigns[t].log, k + 1);
    var x, x', l, l' := h.reigns[u].log, h'.reigns[u].log, h.reigns[t].log, h'.reigns[t].log;
    assert ReignGrows(h.reigns[u], h'.reigns[u], u) && ReignGrows(h.reigns[t], h'.reigns[t], t);
    assert ReignOk(n, h, t, h.reigns[t]);
    if SameUpTo(x', l', k + 1) {
      assert forall j :: 0 <= j < k + 1 ==> x'[j].term == l[j].term <= t;
      assert |x| < |x'| ==> x'[|x|].term == u;
      assert k + 1 <= |x|;
      forall j | 0 <= j < k + 1 ensures x[j] == l[j] {
        assert x'[j] == l'[j] && x[j] == x'[j] && l[j] == l'[j];
      }
      assert false;
    }
  }

  lemma KeptGrows(n: nat, h: History, h': History, t: nat, k: nat, log: Log, bound: nat, bound': nat)
    requires ReignsOk(n, h) && Grows(h, h')
    requires t in h.reigns && k < |h.reigns[t].log| && Kept(h, t, k, log, bound) && bound <= bound'
    ensures Kept(h', t, k, log, bound')
  {
    assert ReignGrows(h.reigns[t], h'.reigns[t], t);
    if SameUpTo(log, h.reigns[t].log, k + 1) {
      forall j | 0 <= j < k + 1 ensures log[j] == h'.reigns[t].log[j] {
        assert log[j] == h.reigns[t].log[j];
      }
    } else {
      SupplantedGrows(n, h, h', t, k, bound, bound');
    }
  }

  lemma RetainsGrows(n: nat, h: History, h': History, t: nat, a: nat, log: Log, bound: nat, bound': nat)
    requires ReignsOk(n, h) && Grows(h, h')
    requires t in h.reigns && a < |h.reigns[t].log| && Retains(h, t, a, log, bound) && bound <= bound'
    ensures Retains(h', t, a, log, bound')
  {
    forall k | 0 <= k <= a ensures Kept(h', t, k, log, bound') {
      assert Kept(h, t, k, log, bound);
      KeptGrows(n, h, h', t, k, log, bound, bound');
    }
  }

  /** While a peer is still in the reign's term, what it acknowledged is in its log. */
  lemma RetainedNow(h: History, t: nat, a: nat, log: Log)
    requires t in h.reigns && Retains(h, t, a, log, t)
    ensures SameUpTo(log, h.reigns[t].log, a + 1)
  {
    assert Kept(h, t, a, log, t);
  }

  /** A log that holds the reign's log up to `a` retains it whole. */
  lemma RetainsPrefix(h: History, t: nat, a: nat, log: Log, bound: nat)
    requires t in h.reigns && SameUpTo(log, h.reigns[t].log, a + 1)
    ensures Retains(h, t, a, log, bound)
  {
    forall k | 0 <= k <= a ensures Kept(h, t, k, log, bound) {
    }
  }

  // ---------------------------------------------------------------- moves of the cluster

  /** How peer s may be replaced: its term never falls, and a candidate of the same term
      keeps the log it stands on. */
  ghost predicate Replaces(c: Cluster, s: nat, q: Peer) {
    && s < |c.peers|
    && q.currentTerm >= c.peers[s].currentTerm
    && (q.role == Candidate ==>
          q.currentTerm > c.peers[s].currentTerm || (c.peers[s].role == Candidate && q.log == c.peers[s].log))
  }

  lemma AcksAfterReplace(h: History, c: Cluster, s: nat, q: Peer)
    requires AcksOk(h, c) && Replaces(c, s, q)
    requires forall t :: (t, s) in h.acks && t in h.reigns ==> Retains(h, t, h.acks[(t, s)], q.log, q.currentTerm)
    ensures AcksOk(h, Set(c, s, q))
  {
    forall t, v | (t, v) in h.acks ensures AckOk(h, Set(c, s, q).peers, t, v) {
      assert AckOk(h, c.peers, t, v);
    }
  }

  lemma BallotsAfterReplace(h: History, c: Cluster, s: nat, q: Peer)
    requires BallotsOk(h, c) && Replaces(c, s, q)
    ensures BallotsOk(h, Set(c, s, q))
  {
    forall t, v | (t, v) in h.ballots ensures BallotOk(h, Set(c, s, q), t, v) {
      assert BallotOk(h, c, t, v);
    }
  }

  lemma MessagesAfterReplace(n: nat, h: History, c: Cluster, s: nat, q: Peer)
    requires |c.peers| == n && MessagesOk(n, h, c) && Replaces(c, s, q)
    ensures MessagesOk(n, h, Set(c, s, q))
  {
    forall m | m in c.msgs ensures MessageOk(n, h, Set(c, s, q).peers, m) {
      assert MessageOk(n, h, c.peers, m);
    }
  }

  lemma VotesAfterReplace(h: History, c: Cluster, s: nat, q: Peer)
    requires VotesKept(h, c) && Replaces(c, s, q)
    requires forall t :: (t, s) in h.ballots && t == q.currentTerm ==> q.votedFor == h.ballots[(t, s)].candidate
    ensures VotesKept(h, Set(c, s, q))
  {
    forall t, v | (t, v) in h.ballots ensures VoteKept(h, Set(c, s, q).peers, t, v) {
      assert VoteKept(h, c.peers, t, v);
    }
  }

  /** Peer s becomes q.  Its log may change as long as it keeps what s acknowledged. */
  lemma ReplacePeer(rules: Rules, n: nat, h: History, c: Cluster, s: nat, q: Peer)
    requires Inv(rules, n, h, c) && s < n
    requires PeerOk(n, h, s, q) && Replaces(c, s, q)
    requires forall t :: (t, s) in h.acks && t in h.reigns ==> Retains(h, t, h.acks[(t, s)], q.log, q.currentTerm)
    requires rules.keepVote ==> forall t :: (t, s) in h.ballots && t == q.currentTerm ==> q.votedFor == h.ballots[(t, s)].candidate
    ensures Inv(rules, n, h, Set(c, s, q))
  {
    AcksAfterReplace(h, c, s, q);
    BallotsAfterReplace(h, c, s, q);
    MessagesAfterReplace(n, h, c, s, q);
    if rules.keepVote {
      VotesAfterReplace(h, c, s, q);
    }
  }

  /** The obligations of ReplacePeer on acknowledgements, when the log stays the same. */
  lemma SameLogRetains(rules: Rules, n: nat, h: History, c: Cluster, s: nat, bound: nat)
    requires Inv(rules, n, h, c) && s < n && bound >= c.peers[s].currentTerm
    ensures forall t :: (t, s) in h.acks && t in h.reigns ==> Retains(h, t, h.acks[(t, s)], c.peers[s].log, bound)
  {
    GrowsRefl(h);
    forall t | (t, s) in h.acks && t in h.reigns ensures Retains(h, t, h.acks[(t, s)], c.peers[s].log, bound) {
      assert AckOk(h, c.peers, t, s);
      RetainsGrows(n, h, h, t, h.acks[(t, s)], c.peers[s].log, c.peers[s].currentTerm, bound);
    }
  }

  lemma BallotsAfterMessage(h: History, c: Cluster, m: Message)
    requires BallotsOk(h, c)
    ensures BallotsOk(h, Send(c, m))
  {
    forall t, v | (t, v) in h.ballots ensures BallotOk(h, Send(c, m), t, v) {
      assert BallotOk(h, c, t, v);
      var r :| VoteReply(t, h.ballots[(t, v)].candidate, v, true, r) in c.msgs;
      assert VoteReply(t, h.ballots[(t, v)].candidate, v, true, r) in Send(c, m).msgs;
    }
  }

  lemma AddMessage(rules: Rules, n: nat, h: History, c: Cluster, m: Message)
    requires Inv(rules, n, h, c)
    requires MessageOk(n, h, c.peers, m)
    ensures Inv(rules, n, h, Send(c, m))
  {
    BallotsAfterMessage(h, c, m);
  }

  /** Voter v, now in term t, casts its first ballot there, on its present log. */
  lemma AddBallot(rules: Rules, n: nat, h: History, c: Cluster, t: nat, v: nat, candidate: nat, r: nat) returns (h': History)
    requires Inv(rules, n, h, c) && v < n && candidate < n
    requires (t, v) !in h.ballots
    requires c.peers[v].currentTerm == t <= c.peers[candidate].currentTerm
    requires FitCandidate(c, t, candidate, c.peers[v].log)
    requires rules.keepVote ==> c.peers[v].votedFor == candidate
    ensures h' == h.(ballots := h.ballots[(t, v) := Ballot(candidate, c.peers[v].log)])
    ensures Inv(rules, n, h', Send(c, VoteReply(t, candidate, v, true, r)))
  {
    h' := h.(ballots := h.ballots[(t, v) := Ballot(candidate, c.peers[v].log)]);
    var m := VoteReply(t, candidate, v, true, r);
    var c' := Send(c, m);
    GrowsRefl(h);
    ReignsAfterBallot(n, h, h');
    AcksAfterBallot(n, h, h', c, c');
    assert PeerOk(n, h, v, c.peers[v]);
    BallotsAfterBallot(n, h, h', c, t, v, m);
    MessagesAfterBallot(n, h, h', c, m);
    forall p | 0 <= p < n ensures PeerOk(n, h', p, c'.peers[p]) {
      PeerAfterBallot(n, h, h', p, c.peers[p]);
    }
    if rules.keepVote {
      forall u, w | (u, w) in h'.ballots ensures VoteKept(h', c'.peers, u, w) {
        assert (u, w) in h.ballots ==> VoteKept(h, c.peers, u, w);
      }
    }
  }

  /** Should the candidate still be standing in term t, its log is not behind `log`. */
  ghost predicate FitCandidate(c: Cluster, t: nat, candidate: nat, log: Log)
    requires candidate < |c.peers|
  {
    var p := c.peers[candidate];
    p.currentTerm == t && p.role == Candidate ==> UpToDate(LastLogTerm(p.log), LastLogIndex(p.log), log)
  }

  ghost predicate BallotsExtend(h: History, h': History) {
    && h'.reigns == h.reigns && h'.acks == h.acks
    && forall b :: b in h.ballots ==> b in h'.ballots && h'.ballots[b] == h.ballots[b]
  }

  lemma ReignsAfterBallot(n: nat, h: History, h': History)
    requires ReignsOk(n, h) && BallotsExtend(h, h')
    ensures ReignsOk(n, h')
  {
    forall u | u in h'.reigns ensures ReignOk(n, h', u, h'.reigns[u]) {
      assert ReignOk(n, h, u, h.reigns[u]);
      GrowsRefl(h);
      LogOkGrows(h, h', h.reigns[u].log);
      forall w | w in h.reigns[u].quorum ensures Elected(h', u, h.reigns[u], w) {
        assert Elected(h, u, h.reigns[u], w);
      }
    }
  }

  lemma PeerAfterBallot(n: nat, h: History, h': History, s: nat, p: Peer)
    requires PeerOk(n, h, s, p) && BallotsExtend(h, h')
    ensures PeerOk(n, h', s, p)
  {
    GrowsRefl(h);
    LogOkGrows(h, h', p.log);
    if p.role == Leader {
      forall i | 0 <= i < n ensures MatchOk(h', p.currentTerm, p, i) {
        assert MatchOk(h, p.currentTerm, p, i);
      }
    }
  }

  lemma AcksAfterBallot(n: nat, h: History, h': History, c: Cluster, c': Cluster)
    requires ReignsOk(n, h) && AcksOk(h, c) && BallotsExtend(h, h') && c'.peers == c.peers
    ensures AcksOk(h', c')
  {
    GrowsRefl(h);
    forall t, v | (t, v) in h'.acks ensures AckOk(h', c'.peers, t, v) {
      assert AckOk(h, c.peers, t, v);
      RetainsGrows(n, h, h', t, h.acks[(t, v)], c.peers[v].log, c.peers[v].currentTerm, c.peers[v].currentTerm);
    }
  }

  lemma MessagesAfterBallot(n: nat, h: History, h': History, c: Cluster, m: Message)
    requires |c.peers| == n && MessagesOk(n, h, c) && BallotsExtend(h, h')
    requires MessageOk(n, h', c.peers, m)
    ensures MessagesOk(n, h', Send(c, m))
  {
    GrowsRefl(h);
    forall x | x in Send(c, m).msgs ensures MessageOk(n, h', c.peers, x) {
      if x != m {
        assert MessageOk(n, h, c.peers, x);
        MessageAfterHistory(n, h, h', c.peers, x);
      }
    }
  }

  lemma BallotsAfterBallot(n: nat, h: History, h': History, c: Cluster, t: nat, v: nat, m: Message)
    requires |c.peers| == n && v < n
    requires ReignsOk(n, h) && AcksOk(h, c) && BallotsOk(h, c) && LogOk(h, c.peers[v].log)
    requires m.VoteReply? && m.candidate < n && m == VoteReply(t, m.candidate, v, true, m.replyTerm)
    requires (t, v) !in h.ballots && h' == h.(ballots := h.ballots[(t, v) := Ballot(m.candidate, c.peers[v].log)])
    requires c.peers[v].currentTerm == t <= c.peers[m.candidate].currentTerm
    requires FitCandidate(c, t, m.candidate, c.peers[v].log)
    ensures BallotsOk(h', Send(c, m))
  {
    var c' := Send(c, m);
    forall u, w | (u, w) in h'.ballots ensures BallotOk(h', c', u, w) {
      if (u, w) == (t, v) {
        GrowsRefl(h);
        LogOkGrows(h, h', c.peers[v].log);
        assert m in c'.msgs;
        assert Witnessed(c'.msgs, t, v, m.candidate);
        if t !in h.reigns || v in h.reigns[t].quorum {
          NewBallotRetains(n, h, h', c, t, v);
        }
      } else {
        BallotAfterBallot(n, h, h', c, c', u, w);
      }
    }
  }

  lemma BallotAfterBallot(n: nat, h: History, h': History, c: Cluster, c': Cluster, u: nat, w: nat)
    requires ReignsOk(n, h) && AcksOk(h, c) && BallotsExtend(h, h')
    requires c'.peers == c.peers && c.msgs <= c'.msgs
    requires (u, w) in h.ballots && BallotOk(h, c, u, w)
    ensures BallotOk(h', c', u, w)
  {
    GrowsRefl(h);
    var log := h.ballots[(u, w)].log;
    LogOkGrows(h, h', log);
    var r :| VoteReply(u, h.ballots[(u, w)].candidate, w, true, r) in c.msgs;
    assert VoteReply(u, h.ballots[(u, w)].candidate, w, true, r) in c'.msgs;
    if u !in h.reigns || w in h.reigns[u].quorum {
      forall t0 | (t0, w) in h'.acks && t0 < u && t0 in h'.reigns ensures Retains(h', t0, h'.acks[(t0, w)], log, u - 1) {
        assert AckOk(h, c.peers, t0, w);
        RetainsGrows(n, h, h', t0, h.acks[(t0, w)], log, u - 1, u - 1);
      }
    }
  }

  lemma NewBallotRetains(n: nat, h: History, h': History, c: Cluster, t: nat, v: nat)
    requires ReignsOk(n, h) && AcksOk(h, c) && v < |c.peers| && BallotsExtend(h, h')
    requires c.peers[v].currentTerm == t
    requires (t, v) !in h.ballots && (t !in h.reigns || v in h.reigns[t].quorum)
    ensures BallotRetains(h', t, v, c.peers[v].log)
  {
    assert t in h.reigns ==> ReignOk(n, h, t, h.reigns[t]);
    assert t !in h.reigns;
    GrowsRefl(h);
    forall t0 | (t0, v) in h'.acks && t0 < t && t0 in h'.reigns ensures Retains(h', t0, h'.acks[(t0, v)], c.peers[v].log, t - 1) {
      assert AckOk(h, c.peers, t0, v);
      BoundLowers(h, t0, h.acks[(t0, v)], c.peers[v].log, t, t - 1);
      RetainsGrows(n, h, h', t0, h.acks[(t0, v)], c.peers[v].log, t - 1, t - 1);
    }
  }

  lemma BoundLowers(h: History, t0: nat, a: nat, log: Log, t: nat, b: nat)
    requires t0 in h.reigns && Retains(h, t0, a, log, t) && t == b + 1 && t !in h.reigns
    ensures Retains(h, t0, a, log, b)
  {
    forall k | 0 <= k <= a ensures Kept(h, t0, k, log, b) {
      assert Kept(h, t0, k, log, t);
      if !SameUpTo(log, h.reigns[t0].log, k + 1) {
        var u :| u in h.reigns && t0 < u <= t && !SameUpTo(h.reigns[u].log, h.reigns[t0].log, k + 1);
        assert u <= b;
      }
    }
  }

  lemma MessageAfterHistory(n: nat, h: History, h': History, peers: seq<Peer>, m: Message)
    requires |peers| == n && MessageOk(n, h, peers, m)
    requires Grows(h, h')
    requires forall b :: b in h.ballots ==> b in h'.ballots && h'.ballots[b] == h.ballots[b]
    ensures MessageOk(n, h', peers, m)
  {
    if m.Append? {
      var t, l, l' := m.term, h.reigns[m.term].log, h'.reigns[m.term].log;
      assert ReignGrows(h.reigns[t], h'.reigns[t], t);
      forall i | 0 <= i < |m.entries| ensures m.entries[i] == l'[m.prevLogIndex + 1 + i] {
        assert l[m.prevLogIndex + 1 + i] == l'[m.prevLogIndex + 1 + i];
      }
      if m.prevLogIndex > 0 {
        assert l[m.prevLogIndex] == l'[m.prevLogIndex];
      }
    }
  }

  // ---------------------------------------------------------------- moves of the history

  lemma PeerFollows(n: nat, h: History, h': History, s: nat, p: Peer)
    requires PeerOk(n, h, s, p) && Grows(h, h')
    requires p.role == Leader ==>
               && h'.reigns[p.currentTerm] == h.reigns[p.currentTerm]
               && (p.currentTerm, p.me) in h'.acks && h'.acks[(p.currentTerm, p.me)] == h.acks[(p.currentTerm, p.me)]
    requires p.currentTerm in h'.reigns && h'.reigns[p.currentTerm].leader == s ==> p.role != Candidate
    ensures PeerOk(n, h', s, p)
  {
    LogOkGrows(h, h', p.log);
    if p.role == Leader {
      forall i | 0 <= i < n ensures MatchOk(h', p.currentTerm, p, i) {
        assert MatchOk(h, p.currentTerm, p, i);
      }
    }
  }

  lemma AckFollows(n: nat, h: History, h': History, c: Cluster, t: nat, v: nat)
    requires ReignsOk(n, h) && Grows(h, h')
    requires (t, v) in h.acks && AckOk(h, c.peers, t, v)
    requires (t, v) in h'.acks && h'.acks[(t, v)] == h.acks[(t, v)]
    ensures AckOk(h', c.peers, t, v)
  {
    assert ReignGrows(h.reigns[t], h'.reigns[t], t);
    RetainsGrows(n, h, h', t, h.acks[(t, v)], c.peers[v].log, c.peers[v].currentTerm, c.peers[v].currentTerm);
  }

  /** Acknowledgements of the earlier reigns, by a voter of term t, have not changed. */
  ghost predicate OldAcksSame(h: History, h': History, t: nat, v: nat) {
    forall t0 :: (t0, v) in h'.acks && t0 < t ==> (t0, v) in h.acks && h'.acks[(t0, v)] == h.acks[(t0, v)]
  }

  lemma BallotFollows(n: nat, h: History, h': History, c: Cluster, t: nat, v: nat)
    requires ReignsOk(n, h) && AcksOk(h, c) && Grows(h, h') && h'.ballots == h.ballots
    requires (t, v) in h.ballots && BallotOk(h, c, t, v)
    requires OldAcksSame(h, h', t, v)
    ensures BallotOk(h', c, t, v)
  {
    var log := h.ballots[(t, v)].log;
    LogOkGrows(h, h', log);
    assert t in h.reigns ==> ReignGrows(h.reigns[t], h'.reigns[t], t);
    if t !in h'.reigns || v in h'.reigns[t].quorum {
      forall t0 | (t0, v) in h'.acks && t0 < t && t0 in h'.reigns ensures Retains(h', t0, h'.acks[(t0, v)], log, t - 1) {
        assert AckOk(h, c.peers, t0, v);
        RetainsGrows(n, h, h', t0, h.acks[(t0, v)], log, t - 1, t - 1);
      }
    }
  }

  lemma BallotsFollow(n: nat, h: History, h': History, c: Cluster)
    requires ReignsOk(n, h) && AcksOk(h, c) && BallotsOk(h, c) && Grows(h, h') && h'.ballots == h.ballots
    requires forall t, v :: (t, v) in h.ballots ==> OldAcksSame(h, h', t, v)
    ensures BallotsOk(h', c)
  {
    forall t, v | (t, v) in h'.ballots ensures BallotOk(h', c, t, v) {
      assert BallotOk(h, c, t, v);
      BallotFollows(n, h, h', c, t, v);
    }
  }

  lemma MessagesFollow(n: nat, h: History, h': History, c: Cluster)
    requires |c.peers| == n && MessagesOk(n, h, c) && Grows(h, h') && h'.ballots == h.ballots
    ensures MessagesOk(n, h', c)
  {
    forall m | m in c.msgs ensures MessageOk(n, h', c.peers, m) {
      assert MessageOk(n, h, c.peers, m);
      MessageAfterHistory(n, h, h', c.peers, m);
    }
  }

  lemma ReignFollows(n: nat, h: History, h': History, t: nat)
    requires t in h.reigns && ReignOk(n, h, t, h.reigns[t])
    requires Grows(h, h') && h'.ballots == h.ballots && h'.reigns[t] == h.reigns[t]
    ensures ReignOk(n, h', t, h'.reigns[t])
  {
    var r := h.reigns[t];
    LogOkGrows(h, h', r.log);
    forall v | v in r.quorum ensures Elected(h', t, r, v) {
      assert Elected(h, t, r, v);
    }
  }

  lemma ReignsFollow(n: nat, h: History, h': History)
    requires ReignsOk(n, h) && Grows(h, h') && h'.ballots == h.ballots && h'.reigns == h.reigns
    ensures ReignsOk(n, h')
  {
    forall u | u in h'.reigns ensures ReignOk(n, h', u, h'.reigns[u]) {
      ReignFollows(n, h, h', u);
    }
  }

  lemma VotesFollow(h: History, h': History, c: Cluster)
    requires VotesKept(h, c) && h'.ballots == h.ballots
    ensures VotesKept(h', c)
  {
    forall u, w | (u, w) in h'.ballots ensures VoteKept(h', c.peers, u, w) {
      assert VoteKept(h, c.peers, u, w);
    }
  }

  ghost predicate AcksOneMore(h: History, h': History, t: nat, v: nat, a: nat) {
    h' == h.(acks := h.acks[(t, v) := a]) && ((t, v) in h.acks ==> h.acks[(t, v)] <= a)
  }

  lemma OneAckGrows(h: History, h': History, t: nat, v: nat, a: nat)
    requires AcksOneMore(h, h', t, v, a)
    ensures Grows(h, h')
  {
  }

  lemma PeersAfterAck(n: nat, h: History, h': History, c: Cluster, t: nat, v: nat, a: nat)
    requires |c.peers| == n && PeersOk(n, h, c) && v < n && AcksOneMore(h, h', t, v, a) && Grows(h, h')
    requires c.peers[v].currentTerm == t && c.peers[v].role != Leader
    ensures PeersOk(n, h', c)
  {
    forall p | 0 <= p < n ensures PeerOk(n, h', p, c.peers[p]) {
      assert PeerOk(n, h, p, c.peers[p]);
      PeerFollows(n, h, h', p, c.peers[p]);
    }
  }

  lemma AcksAfterAck(n: nat, h: History, h': History, c: Cluster, t: nat, v: nat, a: nat)
    requires ReignsOk(n, h) && AcksOk(h, c) && AcksOneMore(h, h', t, v, a) && Grows(h, h')
    requires v < |c.peers| && t in h.reigns && t == c.peers[v].currentTerm
    requires SameUpTo(c.peers[v].log, h.reigns[t].log, a + 1)
    ensures AcksOk(h', c)
  {
    RetainsPrefix(h', t, a, c.peers[v].log, t);
    forall u, w | (u, w) in h'.acks ensures AckOk(h', c.peers, u, w) {
      if (u, w) != (t, v) {
        assert AckOk(h, c.peers, u, w);
        AckFollows(n, h, h', c, u, w);
      }
    }
  }

  lemma BallotsAfterAck(n: nat, h: History, h': History, c: Cluster, t: nat, v: nat, a: nat)
    requires ReignsOk(n, h) && AcksOk(h, c) && BallotsOk(h, c) && AcksOneMore(h, h', t, v, a) && Grows(h, h')
    requires v < |c.peers| && c.peers[v].currentTerm == t
    ensures BallotsOk(h', c)
  {
    forall u, w | (u, w) in h.ballots ensures OldAcksSame(h, h', u, w) {
      assert BallotOk(h, c, u, w);
    }
    BallotsFollow(n, h, h', c);
  }

  /** Peer v, in term t and not leading it, acknowledges reign t up to index a. */
  lemma Acknowledge(rules: Rules, n: nat, h: History, c: Cluster, t: nat, v: nat, a: nat) returns (h': History)
    requires Inv(rules, n, h, c) && v < n && t in h.reigns
    requires c.peers[v].currentTerm == t && c.peers[v].role != Leader
    requires SameUpTo(c.peers[v].log, h.reigns[t].log, a + 1)
    requires (t, v) in h.acks ==> h.acks[(t, v)] <= a
    ensures AcksOneMore(h, h', t, v, a)
    ensures Grows(h, h') && Inv(rules, n, h', c)
  {
    h' := h.(acks := h.acks[(t, v) := a]);
    OneAckGrows(h, h', t, v, a);
    ReignsFollow(n, h, h');
    PeersAfterAck(n, h, h', c, t, v, a);
    AcksAfterAck(n, h, h', c, t, v, a);
    BallotsAfterAck(n, h, h', c, t, v, a);
    MessagesFollow(n, h, h', c);
    if rules.keepVote {
      VotesFollow(h, h', c);
    }
  }

  ghost predicate Unled(c: Cluster, t: nat) {
    forall s :: 0 <= s < |c.peers| && c.peers[s].currentTerm == t ==> c.peers[s].role != Leader
  }

  ghost predicate Uncontested(c: Cluster, t: nat, leader: nat) {
    leader < |c.peers| && c.peers[leader].currentTerm == t ==> c.peers[leader].role != Candidate
  }

  /** Only reign t differs; no peer holds its leadership, and its leader does not stand again. */
  ghost predicate ReignMove(h: History, h': History, c: Cluster, t: nat, r: Reign) {
    && h' == h.(reigns := h.reigns[t := r])
    && (t in h.reigns ==> ReignGrows(h.reigns[t], r, t))
    && Unled(c, t) && Uncontested(c, t, r.leader)
  }

  lemma ReignMoveGrows(h: History, h': History, c: Cluster, t: nat, r: Reign)
    requires ReignMove(h, h', c, t, r)
    ensures Grows(h, h')
  {
  }

  lemma NoReignNoLeader(n: nat, h: History, c: Cluster, t: nat)
    requires |c.peers| == n && PeersOk(n, h, c) && t !in h.reigns
    ensures Unled(c, t)
  {
    forall p | 0 <= p < n && c.peers[p].currentTerm == t ensures c.peers[p].role != Leader {
      assert PeerOk(n, h, p, c.peers[p]);
    }
  }

  lemma PeersAfterReign(n: nat, h: History, h': History, c: Cluster, t: nat, r: Reign)
    requires |c.peers| == n && PeersOk(n, h, c) && Grows(h, h') && ReignMove(h, h', c, t, r)
    ensures PeersOk(n, h', c)
  {
    forall p | 0 <= p < n ensures PeerOk(n, h', p, c.peers[p]) {
      assert PeerOk(n, h, p, c.peers[p]);
      assert c.peers[p].role == Leader ==> c.peers[p].currentTerm != t;
      PeerFollows(n, h, h', p, c.peers[p]);
    }
  }

  lemma AcksAfterReign(n: nat, h: History, h': History, c: Cluster)
    requires ReignsOk(n, h) && AcksOk(h, c) && Grows(h, h') && h'.acks == h.acks
    ensures AcksOk(h', c)
  {
    forall u, w | (u, w) in h'.acks ensures AckOk(h', c.peers, u, w) {
      assert AckOk(h, c.peers, u, w);
      AckFollows(n, h, h', c, u, w);
    }
  }

  lemma ReignsAfterReign(n: nat, h: History, h': History, c: Cluster, t: nat, r: Reign)
    requires ReignsOk(n, h) && Grows(h, h') && ReignMove(h, h', c, t, r)
    requires ReignOk(n, h', t, r)
    ensures ReignsOk(n, h')
  {
    forall u | u in h'.reigns ensures ReignOk(n, h', u, h'.reigns[u]) {
      if u != t {
        ReignFollows(n, h, h', u);
      }
    }
  }

  lemma ReignChanges(rules: Rules, n: nat, h: History, h': History, c: Cluster, t: nat, r: Reign)
    requires Inv(rules, n, h, c) && Grows(h, h') && ReignMove(h, h', c, t, r)
    requires ReignOk(n, h', t, r) && r.leader < n && t <= c.peers[r.leader].currentTerm
    ensures Inv(rules, n, h', c)
  {
    ReignsAfterReign(n, h, h', c, t, r);
    PeersAfterReign(n, h, h', c, t, r);
    AcksAfterReign(n, h, h', c);
    BallotsFollow(n, h, h', c);
    MessagesFollow(n, h, h', c);
    if rules.keepVote {
      VotesFollow(h, h', c);
    }
  }

  function OneMore(r: Reign, e: Entry): Reign {
    r.(log := r.log + [e])
  }

  lemma OneMoreGrows(r: Reign, e: Entry)
    ensures ReignGrows(r, OneMore(r, e), e.term)
  {
  }

  /** Reign t's log gains an entry of term t, at a moment when no peer holds its leadership. */
  lemma ExtendReign(rules: Rules, n: nat, h: History, c: Cluster, t: nat, e: Entry) returns (h': History)
    requires Inv(rules, n, h, c) && t in h.reigns && e.term == t && Unled(c, t)
    requires Uncontested(c, t, h.reigns[t].leader)
    ensures h' == h.(reigns := h.reigns[t := OneMore(h.reigns[t], e)])
    ensures Grows(h, h') && Inv(rules, n, h', c)
  {
    var r := OneMore(h.reigns[t], e);
    h' := h.(reigns := h.reigns[t := r]);
    OneMoreGrows(h.reigns[t], e);
    ReignMoveGrows(h, h', c, t, r);
    ExtendedReignOk(n, h, h', t, e);
    ReignChanges(rules, n, h, h', c, t, r);
  }

  lemma ExtendedReignOk(n: nat, h: History, h': History, t: nat, e: Entry)
    requires ReignsOk(n, h) && t in h.reigns && e.term == t
    requires h' == h.(reigns := h.reigns[t := OneMore(h.reigns[t], e)])
    requires Grows(h, h')
    ensures ReignOk(n, h', t, h'.reigns[t])
  {
    var r, r' := h.reigns[t], h'.reigns[t];
    assert ReignOk(n, h, t, r);
    LogOkGrows(h, h', r.log);
    forall i | 1 <= i < |r'.log| ensures Grounded(h', r'.log, i) {
      if i < |r.log| {
        assert Grounded(h', r.log, i);
      }
    }
    forall v | v in r.quorum ensures Elected(h', t, r', v) {
      assert Elected(h, t, r, v);
    }
  }

  /** Peer s, whose log is older than its term t, opens reign t with the votes of q. */
  lemma AddReign(rules: Rules, n: nat, h: History, c: Cluster, s: nat, t: nat, q: set<nat>) returns (h': History)
    requires Inv(rules, n, h, c) && s < n && t > 0 && t !in h.reigns
    requires c.peers[s].currentTerm == t && c.peers[s].role == Follower
    requires TermsAtMost(c.peers[s].log, t - 1)
    requires Majority(q, n)
    requires forall v :: v in q ==> Elected(h, t, Reign(s, c.peers[s].log, c.peers[s].log, q), v)
    ensures h' == h.(reigns := h.reigns[t := Reign(s, c.peers[s].log, c.peers[s].log, q)])
    ensures Grows(h, h') && Inv(rules, n, h', c)
  {
    var log := c.peers[s].log;
    var r := Reign(s, log, log, q);
    h' := h.(reigns := h.reigns[t := r]);
    NoReignNoLeader(n, h, c, t);
    ReignMoveGrows(h, h', c, t, r);
    assert PeerOk(n, h, s, c.peers[s]);
    NewReignOk(n, h, h', t, r);
    ReignChanges(rules, n, h, h', c, t, r);
  }

  lemma NewReignOk(n: nat, h: History, h': History, t: nat, r: Reign)
    requires t > 0 && t !in h.reigns && h' == h.(reigns := h.reigns[t := r]) && Grows(h, h')
    requires r.leader < n && r.log == r.elected && LogOk(h, r.log) && TermsAtMost(r.log, t - 1)
    requires Majority(r.quorum, n) && forall v :: v in r.quorum ==> Elected(h, t, r, v)
    ensures ReignOk(n, h', t, r)
  {
    LogOkGrows(h, h', r.log);
    forall v | v in r.quorum ensures Elected(h', t, r, v) {
      assert Elected(h, t, r, v);
    }
  }
}
