/** Every step of the protocol keeps the invariant, for a history that grows with it. */
module RaftSteps {
  import opened RaftPeer
  import opened RaftCluster
  import opened RaftInvariant
  import opened RaftMoves
  import opened Quorums

  lemma SetTwice(c: Cluster, s: nat, p: Peer, q: Peer)
    requires s < |c.peers|
    ensures Set(Set(c, s, p), s, q) == Set(c, s, q)
  {
    assert c.peers[s := p][s := q] == c.peers[s := q];
  }

  /** Replacing a peer by one with the same log. */
  lemma QuietPeer(rules: Rules, n: nat, h: History, c: Cluster, s: nat, q: Peer)
    requires Inv(rules, n, h, c) && s < n
    requires PeerOk(n, h, s, q) && Replaces(c, s, q) && q.log == c.peers[s].log
    requires q.currentTerm > c.peers[s].currentTerm || q.votedFor == c.peers[s].votedFor
    ensures Inv(rules, n, h, Set(c, s, q))
  {
    SameLogRetains(rules, n, h, c, s, q.currentTerm);
    if rules.keepVote {
      VoteStays(h, c, s, q);
    }
    ReplacePeer(rules, n, h, c, s, q);
  }

  lemma VoteStays(h: History, c: Cluster, s: nat, q: Peer)
    requires VotesKept(h, c) && BallotsOk(h, c) && Replaces(c, s, q)
    requires q.currentTerm > c.peers[s].currentTerm || q.votedFor == c.peers[s].votedFor
    ensures forall t :: (t, s) in h.ballots && t == q.currentTerm ==> q.votedFor == h.ballots[(t, s)].candidate
  {
    forall t | (t, s) in h.ballots && t == q.currentTerm ensures q.votedFor == h.ballots[(t, s)].candidate {
      assert BallotOk(h, c, t, s);
      assert VoteKept(h, c.peers, t, s);
    }
  }

  lemma PeerKept(n: nat, h: History, s: nat, p: Peer, q: Peer)
    requires PeerOk(n, h, s, p)
    requires q.me == p.me && q.peers == p.peers && q.log == p.log
    requires q.currentTerm >= p.currentTerm && StoredOk(q)
    requires q.role == Follower
    ensures PeerOk(n, h, s, q)
  {
  }

  /** Seeing a higher term. */
  lemma RaiseTerm(rules: Rules, n: nat, h: History, c: Cluster, s: nat, t: nat)
    requires Inv(rules, n, h, c) && s < n && t > c.peers[s].currentTerm
    ensures Inv(rules, n, h, Set(c, s, BecomeFollower(c.peers[s], t)))
  {
    var p := c.peers[s];
    var q := BecomeFollower(p, t);
    assert PeerOk(n, h, s, p);
    PeerKept(n, h, s, p, q);
    QuietPeer(rules, n, h, c, s, q);
  }

  /** Stepping down inside the same term, and keeping the vote. */
  lemma StepDown(rules: Rules, n: nat, h: History, c: Cluster, s: nat)
    requires Inv(rules, n, h, c) && s < n
    ensures Inv(rules, n, h, Set(c, s, c.peers[s].(role := Follower)))
  {
    var p := c.peers[s];
    var q := p.(role := Follower);
    assert PeerOk(n, h, s, p);
    PeerKept(n, h, s, p, q);
    QuietPeer(rules, n, h, c, s, q);
  }

  lemma SeeTermKeeps(rules: Rules, n: nat, h: History, c: Cluster, s: nat, t: nat)
    requires Inv(rules, n, h, c) && s < n
    ensures Inv(rules, n, h, Set(c, s, SeeTerm(c.peers[s], t)))
  {
    if t > c.peers[s].currentTerm {
      RaiseTerm(rules, n, h, c, s, t);
    } else {
      assert c.peers[s := c.peers[s]] == c.peers;
    }
  }

  lemma DeliverKeeps(rules: Rules, n: nat, h: History, c: Cluster, s: nat)
    requires Inv(rules, n, h, c) && s < n && CanApply(c.peers[s])
    ensures Inv(rules, n, h, Set(c, s, Apply(c.peers[s]).0))
  {
    var q := AppliedPeer(n, h, s, c.peers[s]);
    QuietPeer(rules, n, h, c, s, q);
  }

  lemma AppliedPeer(n: nat, h: History, s: nat, p: Peer) returns (q: Peer)
    requires PeerOk(n, h, s, p) && CanApply(p)
    ensures q == Apply(p).0 && PeerOk(n, h, s, q)
    ensures q.log == p.log && q.currentTerm == p.currentTerm && q.votedFor == p.votedFor && q.role == p.role
  {
    q := Apply(p).0;
    if p.role == Leader {
      assert forall i :: 0 <= i < n ==> MatchOk(h, p.currentTerm, p, i) ==> MatchOk(h, q.currentTerm, q, i);
    }
  }

  /** Crash and restart: the stored triple is the one in memory, so nothing durable is lost. */
  lemma RebootKeeps(rules: Rules, n: nat, h: History, c: Cluster, s: nat)
    requires Inv(rules, n, h, c) && s < n
    ensures Inv(rules, n, h, Set(c, s, RaftPeer.Restart(c.peers[s])))
  {
    var p := c.peers[s];
    assert PeerOk(n, h, s, p);
    var q := RaftPeer.Restart(p);
    QuietPeer(rules, n, h, c, s, q);
  }

  /** Crash and restart after the first thing stored in a critical section. */
  lemma InterruptedKeeps(rules: Rules, n: nat, h: History, c: Cluster, s: nat, q: Peer)
    requires s < |c.peers| && s < n && Inv(rules, n, h, Set(c, s, q))
    ensures Inv(rules, n, h, Set(c, s, RaftPeer.Restart(q)))
  {
    RebootKeeps(rules, n, h, Set(c, s, q), s);
    SetTwice(c, s, q, RaftPeer.Restart(q));
  }

  // ---------------------------------------------------------------- elections

  /** No peer has voted in a term it has not reached. */
  lemma BallotsReached(h: History, c: Cluster, t: nat, s: nat)
    requires BallotsOk(h, c)
    ensures (t, s) in h.ballots ==> s < |c.peers| && t <= c.peers[s].currentTerm
  {
    if (t, s) in h.ballots {
      assert BallotOk(h, c, t, s);
    }
  }

  lemma TimeoutKeeps(rules: Rules, n: nat, h: History, c: Cluster, s: nat) returns (h': History)
    requires Inv(rules, n, h, c) && s < n
    ensures Grows(h, h') && Inv(rules, n, h', Do(rules, c, Timeout(s)))
  {
    var p := c.peers[s];
    var q := BecomeCandidate(p);
    assert PeerOk(n, h, s, p);
    GrowsRefl(h);
    assert q.currentTerm in h.reigns ==> h.reigns[q.currentTerm].leader != s;
    assert PeerOk(n, h, s, q);
    QuietPeer(rules, n, h, c, s, q);
    BallotsReached(h, c, q.currentTerm, s);
    h' := AddBallot(rules, n, h, Set(c, s, q), q.currentTerm, s, s, q.currentTerm);
  }

  lemma AskVotesKeeps(rules: Rules, n: nat, h: History, c: Cluster, s: nat)
    requires Inv(rules, n, h, c) && s < n
    ensures Inv(rules, n, h, Send(c, VoteRequest(c.peers[s].currentTerm, s, LastLogIndex(c.peers[s].log), LastLogTerm(c.peers[s].log))))
  {
    AddMessage(rules, n, h, c, VoteRequest(c.peers[s].currentTerm, s, LastLogIndex(c.peers[s].log), LastLogTerm(c.peers[s].log)));
  }

  /** The grant: peer s, already in term t and free to vote for the candidate, does so. */
  lemma GrantKeeps(rules: Rules, n: nat, h: History, c: Cluster, s: nat, m: Message, reply: Message) returns (h': History)
    requires Inv(rules, n, h, c) && s < n && m in c.msgs && m.VoteRequest? && m.candidate != s
    requires c.peers[s].currentTerm == m.term
    requires c.peers[s].votedFor == NOBODY || c.peers[s].votedFor == m.candidate
    requires UpToDate(m.lastLogTerm, m.lastLogIndex, c.peers[s].log)
    requires rules.keepVote || NoOtherGrant(c.msgs, m.term, s, m.candidate)
    requires reply.VoteReply? && reply == VoteReply(m.term, m.candidate, s, true, reply.replyTerm)
    ensures Grows(h, h') && Inv(rules, n, h', Send(Set(c, s, Persist(c.peers[s].(votedFor := m.candidate))), reply))
  {
    var p := c.peers[s];
    var q := Persist(p.(votedFor := m.candidate));
    var c1 := Set(c, s, q);
    assert PeerOk(n, h, s, p);
    assert MessageOk(n, h, c.peers, m);
    GrowsRefl(h);
    OnlyThisCandidate(rules, n, h, c, s, m);
    VotedPeer(n, h, s, p, q);
    SameLogRetains(rules, n, h, c, s, q.currentTerm);
    ReplacePeer(rules, n, h, c, s, q);
    if (m.term, s) in h.ballots {
      h' := h;
      AddMessage(rules, n, h, c1, reply);
    } else {
      h' := AddBallot(rules, n, h, c1, m.term, s, m.candidate, reply.replyTerm);
    }
  }

  /** Any earlier ballot of s in this term was for the same candidate. */
  lemma OnlyThisCandidate(rules: Rules, n: nat, h: History, c: Cluster, s: nat, m: Message)
    requires s < |c.peers| && BallotsOk(h, c) && (rules.keepVote ==> VotesKept(h, c))
    requires m.VoteRequest? && c.peers[s].currentTerm == m.term
    requires c.peers[s].votedFor == NOBODY || c.peers[s].votedFor == m.candidate
    requires rules.keepVote || NoOtherGrant(c.msgs, m.term, s, m.candidate)
    ensures (m.term, s) in h.ballots ==> h.ballots[(m.term, s)].candidate == m.candidate
  {
    if (m.term, s) in h.ballots {
      assert BallotOk(h, c, m.term, s);
      if rules.keepVote {
        assert VoteKept(h, c.peers, m.term, s);
      } else {
        var r :| VoteReply(m.term, h.ballots[(m.term, s)].candidate, s, true, r) in c.msgs;
      }
    }
  }

  lemma VotedPeer(n: nat, h: History, s: nat, p: Peer, q: Peer)
    requires PeerOk(n, h, s, p) && q == Persist(p.(votedFor := q.votedFor))
    ensures PeerOk(n, h, s, q)
  {
    if p.role == Leader {
      assert forall i :: 0 <= i < n ==> MatchOk(h, p.currentTerm, p, i) ==> MatchOk(h, q.currentTerm, q, i);
    }
  }

  lemma VoteRequestKeeps(rules: Rules, n: nat, h: History, c: Cluster, s: nat, m: Message) returns (h': History)
    requires Inv(rules, n, h, c) && s < n && m in c.msgs && m.VoteRequest? && m.candidate != s
    requires rules.keepVote || (HandleVoteRequest(c.peers[s], m).1.granted ==> NoOtherGrant(c.msgs, m.term, s, m.candidate))
    ensures Grows(h, h') && Inv(rules, n, h', Do(rules, c, OnVoteRequest(s, m)))
  {
    var p := c.peers[s];
    var (q, reply) := HandleVoteRequest(p, m);
    h' := h;
    GrowsRefl(h);
    assert PeerOk(n, h, s, p);
    assert c.peers[s := p] == c.peers;
    var c1 := c;
    if m.term > p.currentTerm {
      RaiseTerm(rules, n, h, c, s, m.term);
      c1 := Set(c, s, BecomeFollower(p, m.term));
      SetTwice(c, s, BecomeFollower(p, m.term), q);
    }
    if reply.granted {
      h' := GrantKeeps(rules, n, h, c1, s, m, reply);
    } else {
      AddMessage(rules, n, h, c1, reply);
    }
  }

  /** A candidate's voters are a quorum whose ballots elect it. */
  lemma VotersElect(n: nat, h: History, c: Cluster, s: nat, q: set<nat>)
    requires |c.peers| == n && s < n && PeersOk(n, h, c) && BallotsOk(h, c) && MessagesOk(n, h, c)
    requires c.peers[s].role == Candidate && q == Voters(c.msgs, c.peers[s].currentTerm, s) && |q| > n / 2
    ensures Majority(q, n)
    ensures forall v :: v in q ==> Elected(h, c.peers[s].currentTerm, Reign(s, c.peers[s].log, c.peers[s].log, q), v)
  {
    var t := c.peers[s].currentTerm;
    forall v | v in q ensures v < n && Elected(h, t, Reign(s, c.peers[s].log, c.peers[s].log, q), v) {
      var m :| m in c.msgs && IsGrant(m, t, s) && m.voter == v;
      assert MessageOk(n, h, c.peers, m);
      assert BallotOk(h, c, t, v);
    }
  }

  /** Two quorums of one term elect the same leader. */
  lemma OneLeader(n: nat, h: History, t: nat, a: Reign, b: Reign)
    requires Majority(a.quorum, n) && Majority(b.quorum, n)
    requires forall v :: v in a.quorum ==> Elected(h, t, a, v)
    requires forall v :: v in b.quorum ==> Elected(h, t, b, v)
    ensures a.leader == b.leader
  {
    var v := Intersect(a.quorum, b.quorum, n);
    assert Elected(h, t, a, v) && Elected(h, t, b, v);
  }

  /** Election safety, at the moment of a win: the term has had no leader yet. */
  lemma TermIsFree(n: nat, h: History, c: Cluster, s: nat, q: set<nat>)
    requires |c.peers| == n && s < n && PeersOk(n, h, c) && ReignsOk(n, h)
    requires c.peers[s].role == Candidate && Majority(q, n)
    requires forall v :: v in q ==> Elected(h, c.peers[s].currentTerm, Reign(s, c.peers[s].log, c.peers[s].log, q), v)
    ensures c.peers[s].currentTerm !in h.reigns
  {
    var t := c.peers[s].currentTerm;
    assert PeerOk(n, h, s, c.peers[s]);
    if t in h.reigns {
      assert ReignOk(n, h, t, h.reigns[t]);
      OneLeader(n, h, t, h.reigns[t], Reign(s, c.peers[s].log, c.peers[s].log, q));
    }
  }

  lemma WinKeeps(rules: Rules, n: nat, h: History, c: Cluster, s: nat) returns (h': History)
    requires Inv(rules, n, h, c) && s < n && c.peers[s].role == Candidate
    requires |Voters(c.msgs, c.peers[s].currentTerm, s)| > n / 2
    ensures Grows(h, h') && Inv(rules, n, h', Set(c, s, BecomeLeader(c.peers[s])))
  {
    var p := c.peers[s];
    var t := p.currentTerm;
    var q := Voters(c.msgs, t, s);
    VotersElect(n, h, c, s, q);
    TermIsFree(n, h, c, s, q);
    StepDown(rules, n, h, c, s);
    var c1 := Set(c, s, p.(role := Follower));
    assert PeerOk(n, h, s, p);
    assert t > 0 by { assert p.log[0].term <= t - 1; }
    var h1 := AddReign(rules, n, h, c1, s, t, q);
    NoAckYet(h, c, t, s);
    h' := Acknowledge(rules, n, h1, c1, t, s, |p.log| - 1);
    GrowsTrans(h, h1, h');
    LeaderPeer(n, h', s, p, BecomeLeader(p), c1);
    QuietPeer(rules, n, h', c1, s, BecomeLeader(p));
    SetTwice(c, s, p.(role := Follower), BecomeLeader(p));
  }

  lemma NoAckYet(h: History, c: Cluster, t: nat, s: nat)
    requires AcksOk(h, c) && t !in h.reigns
    ensures (t, s) !in h.acks
  {
    assert (t, s) in h.acks ==> AckOk(h, c.peers, t, s);
  }

  lemma LeaderPeer(n: nat, h: History, s: nat, p: Peer, q: Peer, c: Cluster)
    requires |c.peers| == n && s < n && PeersOk(n, h, c) && c.peers[s] == p.(role := Follower) && q == BecomeLeader(p)
    requires p.currentTerm in h.reigns && h.reigns[p.currentTerm].leader == s && h.reigns[p.currentTerm].log == p.log
    requires (p.currentTerm, s) in h.acks && h.acks[(p.currentTerm, s)] == |p.log| - 1
    ensures PeerOk(n, h, s, q)
  {
    assert PeerOk(n, h, s, c.peers[s]);
  }
}
