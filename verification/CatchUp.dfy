/** One replicator at work while its leader stays leader, nothing is proposed and every reply
    is delivered: how soon the follower holds the leader's whole log. */
module CatchUp {
  import opened Commands
  import opened RaftPeer
  import opened RaftNode
  import opened RaftInvariant

  /** Log matching between two logs. */
  ghost predicate Matching(a: Log, b: Log) {
    a[0] == b[0] && forall k {:trigger SameUpTo(a, b, k + 1)} :: 0 <= k < |a| && k < |b| && a[k].term == b[k].term ==> SameUpTo(a, b, k + 1)
  }

  /** A request cut out of `log`. */
  ghost predicate CutFrom(log: Log, m: Message) {
    && m.Append? && m.prevLogIndex + |m.entries| < |log|
    && (m.prevLogIndex > 0 ==> m.prevLogTerm == log[m.prevLogIndex].term)
    && forall i :: 0 <= i < |m.entries| ==> m.entries[i] == log[m.prevLogIndex + 1 + i]
  }

  lemma BatchIsCut(p: Peer, dest: nat)
    requires HasBatch(p, dest)
    ensures CutFrom(p.log, Batch(p, dest)) && |Batch(p, dest).entries| > 0
    ensures |Batch(p, dest).entries| == Min(MAX_BATCH, |p.log| - p.nextIndex[dest]) && Batch(p, dest).prevLogIndex == p.nextIndex[dest] - 1
  {
  }

  /** An accepted request: as far as the terms meet, the logs are the same. */
  lemma OverlapSame(mine: Log, theirs: Log, m: Message) returns (n: nat)
    requires Matching(mine, theirs) && CutFrom(theirs, m) && PrevMatches(mine, m.prevLogIndex, m.prevLogTerm)
    ensures n == Overlap(mine, m.prevLogIndex + 1, m.entries) && SameUpTo(mine, theirs, m.prevLogIndex + n + 1)
    ensures n < |m.entries| && m.prevLogIndex + 1 + n < |mine| ==>
              mine[m.prevLogIndex + 1 + n].term != theirs[m.prevLogIndex + 1 + n].term
  {
    var prev := m.prevLogIndex;
    n := Overlap(mine, prev + 1, m.entries);
    OverlapMeets(mine, prev + 1, m.entries);
    assert SameUpTo(mine, theirs, prev + 1);
    if n > 0 {
      assert mine[prev + 1 + (n - 1)].term == m.entries[n - 1].term == theirs[prev + n].term;
      var k := prev + n;
      assert mine[k].term == theirs[k].term;
      assert SameUpTo(mine, theirs, k + 1);
    }
  }

  /** The follower's log then holds the leader's up to the last entry sent, and still matches. */
  lemma MergeMatches(mine: Log, theirs: Log, m: Message)
    requires Matching(mine, theirs) && CutFrom(theirs, m) && PrevMatches(mine, m.prevLogIndex, m.prevLogTerm)
    ensures SameUpTo(Merge(mine, m.prevLogIndex, m.entries), theirs, m.prevLogIndex + |m.entries| + 1)
    ensures Matching(Merge(mine, m.prevLogIndex, m.entries), theirs)
  {
    var prev, count := m.prevLogIndex, |m.entries|;
    var n := OverlapSame(mine, theirs, m);
    var merged := Merge(mine, prev, m.entries);
    if n < count {
      assert |merged| == prev + count + 1;
      forall j | 0 <= j < |merged| ensures merged[j] == theirs[j] {
        if j > prev + n {
          assert merged[j] == m.entries[j - prev - 1];
        }
      }
      assert SameUpTo(merged, theirs, |merged|);
    } else {
      assert merged == mine;
    }
  }

  /** Requests after index 0 are never refused for the log. */
  lemma SentinelAccepted(log: Log, prevTerm: nat)
    ensures PrevMatches(log, 0, prevTerm)
  {
  }

  function Blocks(entries: int): int { (entries + MAX_BATCH - 1) / MAX_BATCH }

  lemma OneBlock(entries: nat)
    requires entries > 0
    ensures Blocks(entries) == Blocks(entries - Min(MAX_BATCH, entries)) + 1
  {
  }

  /** The leader and follower between two rounds. */
  ghost predicate Ready(leader: Raft, follower: Raft, term: nat)
    reads leader, follower
  {
    && leader.Valid() && follower.Valid() && leader.state == Leader && leader.currentTerm == term
    && follower.currentTerm <= term && follower.me < leader.peers && follower.me != leader.me
    && Matching(follower.log, leader.log)
    && 0 <= leader.matchIndex[follower.me] < leader.nextIndex[follower.me] <= |leader.log|
    && SameUpTo(follower.log, leader.log, leader.matchIndex[follower.me] + 1)
  }

  /** What the follower does with one batch. */
  lemma Delivered(leader: Peer, follower: Peer, term: nat)
    requires HasBatch(leader, follower.me) && leader.currentTerm == term >= follower.currentTerm
    requires Matching(follower.log, leader.log)
    ensures var m := Batch(leader, follower.me);
            var (q, reply) := HandleAppend(WRITTEN, follower, m);
            && reply.replyTerm <= term && q.currentTerm == term && q.me == follower.me
            && reply.success == PrevMatches(follower.log, m.prevLogIndex, m.prevLogTerm)
            && (reply.success ==> SameUpTo(q.log, leader.log, m.prevLogIndex + |m.entries| + 1) && Matching(q.log, leader.log))
            && (!reply.success ==> q.log == follower.log)
  {
    var m := Batch(leader, follower.me);
    BatchIsCut(leader, follower.me);
    if PrevMatches(follower.log, m.prevLogIndex, m.prevLogTerm) {
      MergeMatches(follower.log, leader.log, m);
    }
  }

  /** A request that starts right after the match index is never refused. */
  lemma NeverRefusedAtMatch(leader: Peer, follower: Log, dest: nat)
    requires HasBatch(leader, dest) && leader.nextIndex[dest] == leader.matchIndex[dest] + 1
    requires 0 <= leader.matchIndex[dest] && SameUpTo(follower, leader.log, leader.matchIndex[dest] + 1)
    ensures PrevMatches(follower, Batch(leader, dest).prevLogIndex, Batch(leader, dest).prevLogTerm)
  {
    if leader.matchIndex[dest] == 0 {
      SentinelAccepted(follower, Batch(leader, dest).prevLogTerm);
    }
  }

  /** The two logs have an entry of the same term at index k; the sentinels always do. */
  ghost predicate Meet(mine: Log, theirs: Log, k: int) {
    k == 0 || (0 < k < |mine| && k < |theirs| && mine[k].term == theirs[k].term)
  }

  lemma AcceptedWhereTheyMeet(p: Peer, follower: Log, dest: nat)
    requires HasBatch(p, dest)
    ensures PrevMatches(follower, Batch(p, dest).prevLogIndex, Batch(p, dest).prevLogTerm)
            <==> Meet(follower, p.log, p.nextIndex[dest] - 1)
  {
  }

  /** Going back from index `first`, the logs do not meet before `down`. */
  ghost predicate Apart(mine: Log, theirs: Log, down: int, first: int) {
    forall k {:trigger Meet(mine, theirs, k)} :: down < k < first ==> !Meet(mine, theirs, k)
  }

  /** How `mine`, the follower's log at the start, is known to relate to the leader's. */
  ghost predicate Found(mine: Log, now: Log, p: Peer, peer: nat, first: int, synced: bool, met: nat) {
    && peer < |p.nextIndex|
    && if synced then Meet(mine, p.log, met) && Apart(mine, p.log, met, first)
       else now == mine && Apart(mine, p.log, p.nextIndex[peer] - 1, first)
  }

  lemma MovesFound(mine: Log, now: Log, later: Log, p: Peer, q: Peer, peer: nat, accepted: bool, first: int, synced: bool, met: nat)
    requires Moved(p, q, peer, accepted) && Found(mine, now, p, peer, first, synced, met)
    requires accepted == Meet(now, p.log, p.nextIndex[peer] - 1) && (!accepted ==> later == now)
    requires !accepted ==> !synced
    ensures Found(mine, later, q, peer, first, synced || accepted, if accepted && !synced then p.nextIndex[peer] - 1 else met)
  {
  }

  ghost predicate Progress(p: Peer, peer: nat, first: int, synced: bool, met: nat, failures: nat, successes: nat) {
    && peer < |p.nextIndex| && peer < |p.matchIndex|
    && if synced then
         && p.nextIndex[peer] == p.matchIndex[peer] + 1
         && met < first && failures == first - 1 - met && p.nextIndex[peer] - 1 >= met
         && successes + Blocks(|p.log| - p.nextIndex[peer]) == Blocks(|p.log| - 1 - met)
       else
         successes == 0 && failures == first - p.nextIndex[peer] && p.nextIndex[peer] < |p.log|
  }

  /** One round, as the leader sees it: forward by a batch, or back by one. */
  ghost predicate Moved(p: Peer, q: Peer, peer: nat, accepted: bool) {
    && HasBatch(p, peer) && peer < |q.nextIndex| && peer < |q.matchIndex| && q.log == p.log
    && if accepted then
         && q.matchIndex[peer] == p.nextIndex[peer] - 1 + Min(MAX_BATCH, |p.log| - p.nextIndex[peer])
         && q.nextIndex[peer] == q.matchIndex[peer] + 1
       else
         q.nextIndex[peer] == p.nextIndex[peer] - 1 && q.matchIndex == p.matchIndex && q.nextIndex[peer] > p.matchIndex[peer]
  }

  lemma ReplyMoves(p: Peer, m: Message, reply: Message)
    requires m.Append? && reply.AppendReply? && HasBatch(p, reply.follower) && m == Batch(p, reply.follower)
    requires reply.term == p.currentTerm && reply.replyTerm <= p.currentTerm && reply.prevLogIndex == m.prevLogIndex && reply.count == |m.entries|
    requires 0 <= p.matchIndex[reply.follower] < p.nextIndex[reply.follower]
    requires !reply.success ==> p.nextIndex[reply.follower] > p.matchIndex[reply.follower] + 1
    ensures var q := HandleReplicateReply(p, reply);
            Moved(p, q, reply.follower, reply.success) && q.role == p.role && q.currentTerm == p.currentTerm
            && |q.nextIndex| == |p.nextIndex| && |q.matchIndex| == |p.matchIndex|
  {
    BatchIsCut(p, reply.follower);
  }

  /** One batch sent, handled and answered. */
  method Exchange(leader: Raft, follower: Raft, args: Message, ghost term: nat) returns (success: bool)
    requires leader != follower && Ready(leader, follower, term)
    requires HasBatch(leader.Abs(), follower.me) && args == Batch(leader.Abs(), follower.me)
    modifies leader, follower
    ensures Ready(leader, follower, term) && Moved(old(leader.Abs()), leader.Abs(), follower.me, success)
    ensures success == Meet(old(follower.log), leader.log, old(leader.nextIndex[follower.me]) - 1)
    ensures !success ==> follower.log == old(follower.log)
  {
    hide HandleAppend, HandleReplicateReply, PrevMatches, CutFrom;
    ghost var p := leader.Abs();
    BatchIsCut(p, follower.me);
    if p.nextIndex[follower.me] == p.matchIndex[follower.me] + 1 {
      NeverRefusedAtMatch(p, follower.log, follower.me);
    }
    Delivered(p, follower.Abs(), term);
    AcceptedWhereTheyMeet(p, follower.log, follower.me);
    var replyTerm;
    replyTerm, success := follower.AppendEntries(args);
    var reply := AppendReply(args.term, args.leader, follower.me, args.prevLogIndex, |args.entries|, success, replyTerm);
    ReplyMoves(p, args, reply);
    leader.OnReply(reply);
  }

  lemma MovesProgress(p: Peer, q: Peer, peer: nat, accepted: bool, first: int, synced: bool, met: nat, failures: nat, successes: nat)
    requires Moved(p, q, peer, accepted) && Progress(p, peer, first, synced, met, failures, successes)
    ensures !accepted ==> !synced
    ensures if accepted then Progress(q, peer, first, true, if synced then met else p.nextIndex[peer] - 1, failures, successes + 1)
            else Progress(q, peer, first, false, met, failures + 1, successes)
    ensures accepted ==> q.nextIndex[peer] > p.nextIndex[peer]
  {
    OneBlock(|p.log| - p.nextIndex[peer]);
  }

  /** Catching up.  `met` is the first index, going back from the last one before the next to be
      sent, at which the two logs meet: the replicator is refused once for each index it steps
      back to it, and then accepted once for each started block of entries after it. */
  method ReplicateToPeer(leader: Raft, follower: Raft) returns (failures: nat, successes: nat, ghost met: nat)
    requires leader != follower && Ready(leader, follower, leader.currentTerm)
    modifies leader, follower
    ensures Ready(leader, follower, old(leader.currentTerm)) && leader.log == old(leader.log)
    ensures var first := old(leader.nextIndex[follower.me]);
            if first < |leader.log| then
              && SameUpTo(follower.log, leader.log, |leader.log|)
              && met < first && Meet(old(follower.log), leader.log, met) && Apart(old(follower.log), leader.log, met, first)
              && failures == first - 1 - met && successes == Blocks(|leader.log| - 1 - met)
            else
              failures == 0 && successes == 0 && leader.Abs() == old(leader.Abs()) && follower.Abs() == old(follower.Abs())
  {
    assert Blocks(0) == 0;
    hide Matching, Blocks, Meet;
    failures, successes, met := 0, 0, 0;
    var peer, termStarted := follower.me, leader.currentTerm;
    ghost var first := leader.nextIndex[peer];
    ghost var synced := false;
    while true
      invariant peer == follower.me && Ready(leader, follower, termStarted) && leader.log == old(leader.log)
      invariant if first < |leader.log| then Progress(leader.Abs(), peer, first, synced, met, failures, successes)
                else failures == 0 && successes == 0 && leader.Abs() == old(leader.Abs()) && follower.Abs() == old(follower.Abs())
      invariant Found(old(follower.log), follower.log, leader.Abs(), peer, first, synced, met)
      decreases !synced, if synced then |leader.log| - leader.nextIndex[peer] else leader.nextIndex[peer]
    {
      var some, args := leader.NextBatch(peer, termStarted);
      if !some {
        break;
      }
      ghost var p, now := leader.Abs(), follower.log;
      var success := Exchange(leader, follower, args, termStarted);
      MovesProgress(p, leader.Abs(), peer, success, first, synced, met, failures, successes);
      MovesFound(old(follower.log), now, follower.log, p, leader.Abs(), peer, success, first, synced, met);
      if success {
        met := if synced then met else args.prevLogIndex;
        synced := true;
        successes := successes + 1;
      } else {
        failures := failures + 1;
      }
    }
  }
}
