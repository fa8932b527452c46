/** Where the written handlers leave the protocol they follow: the exact inputs on which they
    do.  What goes wrong then is in RaftLostVote and RaftStaleSuffix. */
module RaftDeviations {
  import opened RaftPeer
  import opened RaftCluster

  // ---------------------------------------------------------------- the vote

  /** The written append handler differs from the intended one exactly when the request is of
      the peer's own term and the peer has already voted in it. */
  lemma VoteLostExactly(cap: bool, p: Peer, m: Message)
    requires m.Append?
    ensures HandleAppend(Rules(false, cap), p, m) == HandleAppend(Rules(true, cap), p, m)
            <==> m.term != p.currentTerm || p.votedFor == NOBODY
  {
    var q, r := AcceptLeader(Rules(false, cap), p, m.term), AcceptLeader(Rules(true, cap), p, m.term);
    if m.term == p.currentTerm {
      assert q.votedFor == NOBODY && r.votedFor == p.votedFor;
      assert HandleAppend(Rules(false, cap), p, m).0.votedFor == NOBODY;
      assert HandleAppend(Rules(true, cap), p, m).0.votedFor == p.votedFor;
      if p.votedFor == NOBODY {
        assert q == r;
      }
    }
  }

  // ---------------------------------------------------------------- the commit index

  /** An accepted request moves the commit index as intended exactly when everything the
      written rule commits was verified by the request. */
  lemma CapDiffersExactly(keep: bool, p: Peer, m: Message)
    requires m.Append? && m.term >= p.currentTerm && PrevMatches(p.log, m.prevLogIndex, m.prevLogTerm)
    requires p.commitIndex <= LastLogIndex(Merge(p.log, m.prevLogIndex, m.entries))
    ensures HandleAppend(Rules(keep, false), p, m) == HandleAppend(Rules(keep, true), p, m) <==> CapIsVerified(p, m)
  {
    var log := Merge(p.log, m.prevLogIndex, m.entries);
    var verified := m.prevLogIndex + |m.entries|;
    MergeLength(p.log, m.prevLogIndex, m.entries);
    CapArithmetic(keep, p.commitIndex, m.leaderCommit, verified, log);
    var written, intended := HandleAppend(Rules(keep, false), p, m), HandleAppend(Rules(keep, true), p, m);
    assert written.0.commitIndex == FollowerCommit(Rules(keep, false), p.commitIndex, m.leaderCommit, verified, log);
    assert intended.0.commitIndex == FollowerCommit(Rules(keep, true), p.commitIndex, m.leaderCommit, verified, log);
    assert written.0 == intended.0.(commitIndex := written.0.commitIndex) && written.1 == intended.1;
  }

  lemma CapArithmetic(keep: bool, commit: nat, leaderCommit: nat, verified: nat, log: Log)
    requires commit <= LastLogIndex(log) && verified <= LastLogIndex(log)
    ensures FollowerCommit(Rules(keep, false), commit, leaderCommit, verified, log)
            == FollowerCommit(Rules(keep, true), commit, leaderCommit, verified, log)
            <==> leaderCommit <= commit || leaderCommit <= verified || LastLogIndex(log) <= Max(verified, commit)
  {
  }

  lemma MergeLength(log: Log, prev: nat, entries: seq<Entry>)
    requires prev < |log|
    ensures prev + |entries| <= LastLogIndex(Merge(log, prev, entries))
  {
  }

  /** A request can carry a commit index past its own last entry only when its batch was cut
      at the size limit below the leader's commit index; a heartbeat never can. */
  lemma OnlyCutBatches(p: Peer, dest: nat)
    requires p.commitIndex <= LastLogIndex(p.log)
    ensures var m := Heartbeat(p, dest); m.leaderCommit <= m.prevLogIndex + |m.entries|
    ensures HasBatch(p, dest) ==>
              (var m := Batch(p, dest);
               m.leaderCommit > m.prevLogIndex + |m.entries| <==> p.commitIndex >= p.nextIndex[dest] + 100)
              && |Batch(p, dest).entries| <= 100
  {
  }
}
