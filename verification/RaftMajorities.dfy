/** How votes and replies of all peers but one or two add up. */
module RaftMajorities {
  import opened RaftPeer
  import opened RaftCluster
  import opened RaftRuns
  import opened Quorums

  function Range(lo: nat, hi: nat): (r: set<nat>)
    requires lo <= hi
    ensures forall i: nat :: i in r <==> lo <= i < hi
    decreases hi
  {
    if lo == hi then {} else Range(lo, hi - 1) + {hi - 1}
  }

  lemma {:induction false} RangeSize(lo: nat, hi: nat)
    requires lo <= hi
    ensures |Range(lo, hi)| == hi - lo
    decreases hi
  {
    if lo < hi {
      RangeSize(lo, hi - 1);
    }
  }

  /** One peer and all from `lo` on are a majority. */
  predicate EnoughWithout(lo: nat, n: nat) { lo < n && (lo == 1 || (lo == 2 && n >= 3)) }

  lemma MostAreMany(q: set<nat>, k: nat, lo: nat, n: nat)
    requires k < lo && EnoughWithout(lo, n) && k in q && forall j: nat :: lo <= j < n ==> j in q
    ensures |q| > n / 2
  {
    RangeSize(lo, n);
    assert |Range(lo, n) + {k}| == n - lo + 1;
    SubsetSize(Range(lo, n) + {k}, q);
  }

  /** A candidate with its own vote and those of the peers lo..n wins. */
  lemma VotesWin(c: Cluster, t: nat, s: nat, lo: nat, n: nat, own: Message, grant: nat -> Message)
    requires s < lo && EnoughWithout(lo, n)
    requires own in c.msgs && IsGrant(own, t, s) && own.voter == s
    requires forall j {:trigger grant(j)} :: lo <= j < n ==> grant(j) in c.msgs && IsGrant(grant(j), t, s) && grant(j).voter == j
    ensures |Voters(c.msgs, t, s)| > n / 2
  {
    var q := Voters(c.msgs, t, s);
    assert own.voter in q;
    forall j: nat | lo <= j < n ensures j in q {
      assert grant(j).voter in q;
    }
    MostAreMany(q, s, lo, n);
  }

  /** A leader of n peers whose last entry is of its own term. */
  ghost predicate Leads(p: Peer, k: nat, n: nat) {
    && p.role == Leader && p.me == k && p.peers == n && |p.nextIndex| == n && |p.matchIndex| == n
    && LastLogTerm(p.log) == p.currentTerm && p.commitIndex <= LastLogIndex(p.log)
    && forall i :: 0 <= i < n ==> p.matchIndex[i] <= LastLogIndex(p.log)
  }

  /** A reply that acknowledges the whole log of leader p. */
  ghost predicate AcksAll(p: Peer, m: Message, j: nat) {
    && m.AppendReply? && m.follower == j && m.success && m.term == p.currentTerm && m.replyTerm <= p.currentTerm
    && m.prevLogIndex + m.count == LastLogIndex(p.log)
  }

  /** The leader after some of those replies. */
  ghost predicate Counted(p: Peer, q: Peer, lo: nat, hi: nat, n: nat) {
    && |p.nextIndex| == |q.nextIndex| == n && |p.matchIndex| == |q.matchIndex| == n
    && q == p.(commitIndex := q.commitIndex, nextIndex := q.nextIndex, matchIndex := q.matchIndex)
    && p.commitIndex <= q.commitIndex <= LastLogIndex(p.log)
    && (forall i :: 0 <= i < n && i != p.me ==> q.matchIndex[i] == if lo <= i < hi then LastLogIndex(p.log) else p.matchIndex[i])
    && (forall i :: 0 <= i < n ==> q.nextIndex[i] == if lo <= i < hi then LastLogIndex(p.log) + 1 else p.nextIndex[i])
  }

  lemma OneReply(p: Peer, q: Peer, m: Message, k: nat, lo: nat, hi: nat, n: nat)
    requires Leads(p, k, n) && k < lo <= hi < n && Counted(p, q, lo, hi, n) && AcksAll(p, m, hi)
    ensures Counted(p, HandleReplicateReply(q, m), lo, hi + 1, n)
    ensures EnoughWithout(lo, n) && hi + 1 == n ==> HandleReplicateReply(q, m).commitIndex == LastLogIndex(p.log)
  {
    var top := LastLogIndex(p.log);
    var r := q.(matchIndex := q.matchIndex[hi := top], nextIndex := q.nextIndex[hi := top + 1]);
    assert Max(m.prevLogIndex + m.count, q.matchIndex[hi]) == top;
    assert HandleReplicateReply(q, m) == TryAdvanceCommit(r);
    if EnoughWithout(lo, n) && hi + 1 == n && r.commitIndex < top {
      MostAreMany(Holders(r, top), k, lo, n);
      assert Committable(r, top);
    }
  }

  /** When all peers from lo on have acknowledged everything, everything is committed. */
  lemma {:induction false} RepliesCommit(p: Peer, k: nat, reply: nat -> Message, lo: nat, hi: nat, n: nat)
    requires Leads(p, k, n) && k < lo <= hi <= n
    requires forall j {:trigger reply(j)} :: lo <= j < hi ==> reply(j).AppendReply? && AcksAll(p, reply(j), j)
    ensures Counted(p, AfterReplies(p, reply, lo, hi), lo, hi, n)
    ensures EnoughWithout(lo, n) && hi == n ==> AfterReplies(p, reply, lo, hi).commitIndex == LastLogIndex(p.log)
    decreases hi
  {
    if lo < hi {
      RepliesCommit(p, k, reply, lo, hi - 1, n);
      assert AcksAll(p, reply(hi - 1), hi - 1);
      OneReply(p, AfterReplies(p, reply, lo, hi - 1), reply(hi - 1), k, lo, hi - 1, n);
    }
  }

  /** A refusal handled again and again takes the next index down to 1. */
  lemma {:induction false} RefusalsStepBack(p: Peer, m: Message, j: nat, count: nat)
    requires m.AppendReply? && m.follower == j && !m.success && m.replyTerm <= p.currentTerm == m.term
    requires p.role == Leader && j < |p.nextIndex| && j < |p.matchIndex| && count < p.nextIndex[j]
    ensures AfterReplies(p, _ => m, 0, count) == p.(nextIndex := p.nextIndex[j := p.nextIndex[j] - count])
    decreases count
  {
    if count > 0 {
      RefusalsStepBack(p, m, j, count - 1);
    } else {
      assert p.nextIndex[j := p.nextIndex[j]] == p.nextIndex;
    }
  }
}
