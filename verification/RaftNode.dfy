/** A Raft peer as the object it is: fields updated in place by handlers with loops.  Each
    handler is proved to do to the object what `RaftPeer` says it does to a peer. */
module RaftNode {
  import opened Commands
  import opened RaftPeer

  class Raft {
    const me: nat
    const peers: nat
    var currentTerm: nat
    var votedFor: int
    var log: seq<Entry>
    var commitIndex: nat
    var lastApplied: nat
    var nextIndex: seq<int>
    var matchIndex: seq<int>
    var state: Role
    var persister: Stored

    ghost predicate Valid()
      reads this
    {
      && me < peers && |log| > 0
      && (state == Leader ==> |nextIndex| == peers && |matchIndex| == peers)
    }

    /** The peer as a value. */
    ghost function Abs(): Peer
      reads this
      requires Valid()
    {
      Peer(me, peers, currentTerm, votedFor, log, commitIndex, lastApplied, state, nextIndex, matchIndex, persister)
    }

    // -------------------------------------------------------------- starting and stopping

    /** `Make` over what an earlier instance stored, if anything. */
    constructor (peers: nat, me: nat, stored: Stored)
      requires me < peers
      ensures Valid() && this.me == me && this.peers == peers
      ensures Abs() == RaftPeer.ReadPersist(Fresh(me, peers).(stored := stored))
    {
      this.me, this.peers, this.persister := me, peers, stored;
      state := Follower;
      currentTerm, votedFor := 0, NOBODY;
      log := [SENTINEL];
      commitIndex, lastApplied := 0, 0;
      nextIndex, matchIndex := [], [];
      new;
      ReadPersist(stored);
    }

    method ReadPersist(data: Stored)
      requires Valid() && persister == data
      modifies this
      ensures Valid() && Abs() == RaftPeer.ReadPersist(old(Abs()))
    {
      if data.Empty? {
        return;
      }
      currentTerm := data.term;
      votedFor := data.vote;
      log := data.log;
      if |log| == 0 {
        log := [SENTINEL];
      }
    }

    method Persist()
      requires Valid()
      modifies this`persister
      ensures Valid() && Abs() == RaftPeer.Persist(old(Abs()))
    {
      persister := Saved(currentTerm, votedFor, log);
    }

    // -------------------------------------------------------------- roles

    method BecomeFollower(term: nat)
      requires Valid()
      modifies this
      ensures Valid() && Abs() == RaftPeer.BecomeFollower(old(Abs()), term)
    {
      if state != Follower {
        state := Follower;
      }
      currentTerm := term;
      votedFor := NOBODY;
      Persist();
    }

    method BecomeCandidate()
      requires Valid()
      modifies this
      ensures Valid() && Abs() == RaftPeer.BecomeCandidate(old(Abs()))
    {
      state := Candidate;
      currentTerm := currentTerm + 1;
      votedFor := me;
      Persist();
    }

    method BecomeLeader()
      requires Valid()
      modifies this
      ensures Valid() && Abs() == RaftPeer.BecomeLeader(old(Abs()))
    {
      var li := LastLogIndex(log);
      var next, matched := [], [];
      for i := 0 to peers
        invariant next == seq(i, _ => li + 1) && matched == seq(i, _ => 0)
      {
        next := next + [li + 1];
        matched := matched + [0];
      }
      state := Leader;
      nextIndex, matchIndex := next, matched;
    }

    // -------------------------------------------------------------- elections

    method CandidateUpToDate(args: Message) returns (ok: bool)
      requires Valid() && args.VoteRequest?
      ensures ok == UpToDate(args.lastLogTerm, args.lastLogIndex, log)
    {
      var myLastTerm := LastLogTerm(log);
      if args.lastLogTerm != myLastTerm {
        return args.lastLogTerm > myLastTerm;
      }
      return args.lastLogIndex >= LastLogIndex(log);
    }

    method RequestVote(args: Message) returns (replyTerm: nat, granted: bool)
      requires Valid() && args.VoteRequest?
      modifies this
      ensures Valid()
      ensures (Abs(), VoteReply(args.term, args.candidate, me, granted, replyTerm)) == HandleVoteRequest(old(Abs()), args)
    {
      replyTerm := currentTerm;
      granted := false;
      if args.term < currentTerm {
        return;
      }
      if args.term > currentTerm {
        BecomeFollower(args.term);
      }
      if votedFor != NOBODY && votedFor != args.candidate {
        return;
      }
      var upToDate := CandidateUpToDate(args);
      if !upToDate {
        return;
      }
      votedFor := args.candidate;
      Persist();
      granted := true;
    }

    // -------------------------------------------------------------- following

    method AppendEntries(args: Message) returns (replyTerm: nat, success: bool)
      requires Valid() && args.Append?
      modifies this
      ensures Valid()
      ensures (Abs(), AppendReply(args.term, args.leader, me, args.prevLogIndex, |args.entries|, success, replyTerm))
              == HandleAppend(WRITTEN, old(Abs()), args)
    {
      replyTerm := currentTerm;
      success := false;
      if args.term < currentTerm {
        return;
      }
      BecomeFollower(args.term);
      if args.prevLogIndex > LastLogIndex(log) {
        return;
      }
      if args.prevLogIndex > 0 {
        if args.prevLogIndex >= |log| || log[args.prevLogIndex].term != args.prevLogTerm {
          return;
        }
      }
      success := true;
      if |args.entries| > 0 {
        MergeEntries(args.prevLogIndex, args.entries);
        Persist();
      } else {
        assert Merge(log, args.prevLogIndex, args.entries) == log;
      }
      if args.leaderCommit > commitIndex {
        commitIndex := Min(args.leaderCommit, LastLogIndex(log));
      }
    }

    /** Cut the log at the first conflict with `entries`, then append those it lacks. */
    method MergeEntries(prev: nat, entries: seq<Entry>)
      requires Valid() && prev < |log|
      modifies this`log
      ensures Valid() && log == Merge(old(log), prev, entries)
    {
      ghost var before: Log := log;
      var insertIndex := prev + 1;
      var newEntriesIndex := 0;
      ghost var conflict := false;
      while insertIndex < |log| && newEntriesIndex < |entries|
        invariant newEntriesIndex <= |entries| && insertIndex == prev + 1 + newEntriesIndex <= |before|
        invariant log == before
        invariant Overlap(before, prev + 1, entries) == newEntriesIndex + Overlap(before, insertIndex, entries[newEntriesIndex..])
        decreases |entries| - newEntriesIndex
      {
        assert entries[newEntriesIndex..][0] == entries[newEntriesIndex];
        assert entries[newEntriesIndex..][1..] == entries[newEntriesIndex + 1..];
        if log[insertIndex].term != entries[newEntriesIndex].term {
          log := log[..insertIndex];
          conflict := true;
          break;
        }
        insertIndex := insertIndex + 1;
        newEntriesIndex := newEntriesIndex + 1;
      }
      assert Overlap(before, prev + 1, entries) == newEntriesIndex;
      if newEntriesIndex < |entries| {
        assert log == before[..insertIndex];
        log := log + entries[newEntriesIndex..];
      }
    }

    // -------------------------------------------------------------- leading

    method Start(command: Command) returns (index: int, term: nat, isLeader: bool)
      requires Valid()
      modifies this
      ensures Valid() && isLeader == (old(state) == Leader) && term == old(currentTerm)
      ensures isLeader ==> index == |old(log)| && Abs() == Propose(old(Abs()), command)
      ensures !isLeader ==> index == -1 && Abs() == old(Abs())
    {
      term := currentTerm;
      if state != Leader {
        return -1, term, false;
      }
      index := LastLogIndex(log) + 1;
      log := log + [Entry(term, command)];
      Persist();
      if me < |matchIndex| && matchIndex[me] < index {
        matchIndex := matchIndex[me := index];
      }
      if me < |nextIndex| && nextIndex[me] < index + 1 {
        nextIndex := nextIndex[me := index + 1];
      }
      isLeader := true;
    }

    /** The heartbeat a leader sends to `dest`. */
    method HeartbeatFor(dest: nat) returns (args: Message)
      requires Valid() && state == Leader
      ensures args == Heartbeat(Abs(), dest)
    {
      var prevIndex := LastLogIndex(log);
      var prevTerm := 0;
      if prevIndex > 0 {
        prevTerm := log[prevIndex].term;
      }
      args := Append(currentTerm, me, dest, prevIndex, prevTerm, [], commitIndex);
    }

    /** What a reply does by its term alone. */
    method SeeReplyTerm(term: nat)
      requires Valid()
      modifies this
      ensures Valid() && Abs() == SeeTerm(old(Abs()), term)
    {
      if term > currentTerm {
        BecomeFollower(term);
      }
    }

    /** The sending half of one replication round: a batch, unless there is nothing to send or
        the term is over. */
    method NextBatch(peer: nat, termStarted: nat) returns (some: bool, args: Message)
      requires Valid() && peer < peers && (peer < |nextIndex| ==> nextIndex[peer] >= 1)
      ensures some <==> currentTerm == termStarted && HasBatch(Abs(), peer)
      ensures some ==> args == Batch(Abs(), peer)
    {
      args := Append(0, 0, 0, 0, 0, [], 0);
      if state != Leader || currentTerm != termStarted {
        return false, args;
      }
      if peer == me {
        return false, args;
      }
      var nextIdx := nextIndex[peer];
      var lastIdx := LastLogIndex(log);
      if nextIdx > lastIdx {
        return false, args;
      }
      var prevIndex := nextIdx - 1;
      var prevTerm := 0;
      if prevIndex > 0 && prevIndex < |log| {
        prevTerm := log[prevIndex].term;
      }
      var maxEntries := Min(MAX_BATCH, lastIdx - nextIdx + 1);
      args := Append(currentTerm, me, peer, prevIndex, prevTerm, log[nextIdx..nextIdx + maxEntries], commitIndex);
      return true, args;
    }

    /** The receiving half of one replication round. */
    method OnReply(m: Message)
      requires Valid() && m.AppendReply? && m.follower < peers && m.count > 0
      modifies this
      ensures Valid() && Abs() == HandleReplicateReply(old(Abs()), m)
    {
      if state != Leader || currentTerm != m.term {
        return;
      }
      if m.replyTerm > currentTerm {
        BecomeFollower(m.replyTerm);
        return;
      }
      var peer := m.follower;
      if m.success {
        var newMatch := m.prevLogIndex + m.count;
        if newMatch > matchIndex[peer] {
          matchIndex := matchIndex[peer := newMatch];
        }
        nextIndex := nextIndex[peer := matchIndex[peer] + 1];
        assert Abs() == old(Abs()).(
          matchIndex := old(matchIndex)[peer := Max(newMatch, old(matchIndex)[peer])],
          nextIndex := old(nextIndex)[peer := Max(newMatch, old(matchIndex)[peer]) + 1]);
        TryAdvanceCommit();
      } else if nextIndex[peer] > 1 {
        nextIndex := nextIndex[peer := nextIndex[peer] - 1];
      }
    }

    /** How many peers hold index `n`, counting the leader itself. */
    method CountHolders(n: nat) returns (cnt: nat)
      requires Valid() && state == Leader
      ensures cnt == |Holders(Abs(), n)|
    {
      cnt := 1;
      ghost var seen: set<nat> := {me};
      for i := 0 to peers
        invariant cnt == |seen|
        invariant forall j: nat :: j in seen <==> j == me || (j < i && j < |matchIndex| && matchIndex[j] >= n)
      {
        if i != me && matchIndex[i] >= n {
          cnt := cnt + 1;
          seen := seen + {i};
        }
      }
      forall j: nat ensures j in seen <==> j in Holders(Abs(), n) {
      }
      assert seen == Holders(Abs(), n);
    }

    method TryAdvanceCommit()
      requires Valid()
      modifies this`commitIndex
      ensures Valid() && Abs() == RaftPeer.TryAdvanceCommit(old(Abs()))
    {
      if state != Leader {
        return;
      }
      ghost var p := Abs();
      var n: nat := LastLogIndex(log);
      while n > commitIndex
        invariant n <= LastLogIndex(log) && Abs() == p
        invariant CommitPoint(p, LastLogIndex(log)) == CommitPoint(p, n)
      {
        if log[n].term == currentTerm {
          var cnt := CountHolders(n);
          if cnt > peers / 2 {
            commitIndex := n;
            return;
          }
        }
        n := n - 1;
      }
    }

    /** One round of the applier: the next committed entry, if any. */
    method TakeCommitted() returns (some: bool, index: nat, command: Command)
      requires Valid() && (lastApplied < commitIndex ==> lastApplied + 1 < |log|)
      modifies this`lastApplied
      ensures Valid() && some == CanApply(old(Abs()))
      ensures some ==> index == old(lastApplied) + 1 && (Abs(), command) == Apply(old(Abs()))
      ensures !some ==> Abs() == old(Abs())
    {
      if lastApplied >= commitIndex {
        return false, 0, Nil;
      }
      index := lastApplied + 1;
      command := log[index].command;
      lastApplied := index;
      some := true;
    }
  }
}
