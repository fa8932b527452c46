/** One Raft peer as a value: its fields and what each critical section under the
    peer's mutex does to them.  `RaftNode` proves that the imperative handlers
    compute exactly these functions. */
module RaftPeer {
  import opened Commands

  datatype Entry = Entry(term: nat, command: Command)

  /** The placeholder kept at index 0; real entries start at index 1. */
  const SENTINEL := Entry(0, Nil)

  /** A log always holds at least the sentinel. */
  type Log = entries: seq<Entry> | |entries| > 0 witness [SENTINEL]

  const NOBODY := -1

  /** The longest batch one replication request may carry. */
  const MAX_BATCH: nat := 100

  datatype Role = Follower | Candidate | Leader

  datatype Stored = Empty | Saved(term: nat, vote: int, log: seq<Entry>)

  datatype Peer = Peer(
    me: nat,
    peers: nat,
    currentTerm: nat,
    votedFor: int,
    log: Log,
    commitIndex: nat,
    lastApplied: nat,
    role: Role,
    nextIndex: seq<int>,
    matchIndex: seq<int>,
    stored: Stored)

  /** Requests and replies.  A reply also names the request it answers, because the
      caller pairs each reply with its own call. */
  datatype Message =
    | VoteRequest(term: nat, candidate: nat, lastLogIndex: nat, lastLogTerm: nat)
    | VoteReply(term: nat, candidate: nat, voter: nat, granted: bool, replyTerm: nat)
    | Append(term: nat, leader: nat, dest: nat, prevLogIndex: nat, prevLogTerm: nat,
             entries: seq<Entry>, leaderCommit: nat)
    | AppendReply(term: nat, leader: nat, follower: nat, prevLogIndex: nat, count: nat,
                  success: bool, replyTerm: nat)

  /** Which of two rules the peers follow.

      keepVote: on an append request of the peer's own term, keep the vote already cast
      in that term.  The written handler clears it.

      capAtVerified: a follower's commit index stops at the last entry the request has
      verified.  The written handler stops at the end of its own log. */
  datatype Rules = Rules(keepVote: bool, capAtVerified: bool)

  const WRITTEN := Rules(false, false)
  const INTENDED := Rules(true, true)

  function Min(a: int, b: int): int { if a < b then a else b }

  function Max(a: int, b: int): int { if a > b then a else b }

  function LastLogIndex(log: Log): nat { |log| - 1 }

  function LastLogTerm(log: Log): nat { log[|log| - 1].term }

  /** The election restriction: a log ending at (index, term) is not behind `mine`. */
  predicate UpToDate(lastTerm: nat, lastIndex: nat, mine: Log) {
    if lastTerm != LastLogTerm(mine) then lastTerm > LastLogTerm(mine) else lastIndex >= LastLogIndex(mine)
  }

  function Fresh(me: nat, peers: nat): Peer {
    Peer(me, peers, 0, NOBODY, [SENTINEL], 0, 0, Follower, [], [], Empty)
  }

  function Persist(p: Peer): Peer {
    p.(stored := Saved(p.currentTerm, p.votedFor, p.log))
  }

  function ReadPersist(p: Peer): Peer {
    match p.stored
    case Empty => p
    case Saved(term, vote, log) =>
      p.(currentTerm := term, votedFor := vote, log := if |log| == 0 then [SENTINEL] else log)
  }

  /** A new instance built over what the crashed one had stored. */
  function Restart(p: Peer): Peer {
    ReadPersist(Fresh(p.me, p.peers).(stored := p.stored))
  }

  function BecomeFollower(p: Peer, term: nat): Peer {
    Persist(p.(role := Follower, currentTerm := term, votedFor := NOBODY))
  }

  function BecomeCandidate(p: Peer): Peer {
    Persist(p.(role := Candidate, currentTerm := p.currentTerm + 1, votedFor := p.me))
  }

  function BecomeLeader(p: Peer): Peer {
    p.(role := Leader,
       nextIndex := seq(p.peers, i => LastLogIndex(p.log) + 1),
       matchIndex := seq(p.peers, i => 0))
  }

  function HandleVoteRequest(p: Peer, m: Message): (Peer, Message)
    requires m.VoteRequest?
  {
    var refusal := VoteReply(m.term, m.candidate, p.me, false, p.currentTerm);
    if m.term < p.currentTerm then (p, refusal)
    else
      var q := if m.term > p.currentTerm then BecomeFollower(p, m.term) else p;
      if q.votedFor != NOBODY && q.votedFor != m.candidate then (q, refusal)
      else if !UpToDate(m.lastLogTerm, m.lastLogIndex, q.log) then (q, refusal)
      else (Persist(q.(votedFor := m.candidate)), refusal.(granted := true))
  }

  /** What a peer does on recognising the sender of an append request as leader. */
  function AcceptLeader(rules: Rules, p: Peer, term: nat): Peer {
    if rules.keepVote && term == p.currentTerm then Persist(p.(role := Follower)) else BecomeFollower(p, term)
  }

  predicate PrevMatches(log: Log, prev: nat, prevTerm: nat) {
    prev < |log| && (prev > 0 ==> log[prev].term == prevTerm)
  }

  /** How many of `entries`, laid over `log` from index `at`, meet an entry of the same term. */
  function Overlap(log: seq<Entry>, at: nat, entries: seq<Entry>): (n: nat)
    ensures n <= |entries| && (at <= |log| ==> at + n <= |log|)
    decreases |entries|
  {
    if |entries| == 0 || at >= |log| || log[at].term != entries[0].term then 0
    else 1 + Overlap(log, at + 1, entries[1..])
  }

  /** The overlap is exactly the longest stretch of equal terms. */
  lemma {:induction false} OverlapMeets(log: seq<Entry>, at: nat, entries: seq<Entry>)
    ensures var n := Overlap(log, at, entries);
            && (forall i :: 0 <= i < n ==> at + i < |log| && log[at + i].term == entries[i].term)
            && (n < |entries| && at + n < |log| ==> log[at + n].term != entries[n].term)
    decreases |entries|
  {
    if |entries| != 0 && at < |log| && log[at].term == entries[0].term {
      OverlapMeets(log, at + 1, entries[1..]);
      var n := Overlap(log, at, entries);
      forall i | 0 <= i < n ensures at + i < |log| && log[at + i].term == entries[i].term {
        if i > 0 {
          assert entries[i] == entries[1..][i - 1];
          assert log[at + 1 + (i - 1)].term == entries[1..][i - 1].term;
        }
      }
      if n < |entries| {
        assert entries[n] == entries[1..][n - 1];
      }
    }
  }

  /** The log after an accepted append request: cut at the first conflict, then extended. */
  function Merge(log: Log, prev: nat, entries: seq<Entry>): Log
    requires prev < |log|
  {
    var n := Overlap(log, prev + 1, entries);
    if n < |entries| then log[..prev + 1 + n] + entries[n..] else log
  }

  /** The log after an accepted request keeps everything up to the previous entry and meets
      every new entry.  It is the old log exactly when that held all of them already; otherwise
      it ends with the last of them. */
  lemma MergeExact(log: Log, prev: nat, entries: seq<Entry>)
    requires prev < |log|
    ensures var r := Merge(log, prev, entries);
            && |r| > prev + |entries| && (forall i :: 0 <= i <= prev ==> r[i] == log[i])
            && (forall i :: 0 <= i < |entries| ==> r[prev + 1 + i].term == entries[i].term)
            && (r == log <==> forall i :: 0 <= i < |entries| ==> prev + 1 + i < |log| && log[prev + 1 + i].term == entries[i].term)
            && (r != log ==> |r| == prev + 1 + |entries|)
  {
    hide Overlap;
    OverlapMeets(log, prev + 1, entries);
    var n, r := Overlap(log, prev + 1, entries), Merge(log, prev, entries);
    if n < |entries| {
      assert r[prev + 1 + n] == entries[n];
      forall i | 0 <= i < |entries| ensures r[prev + 1 + i].term == entries[i].term {
        if i >= n {
          assert r[prev + 1 + i] == entries[i];
        }
      }
    }
  }

  function FollowerCommit(rules: Rules, commitIndex: nat, leaderCommit: nat, verified: nat, log: Log): nat {
    if leaderCommit <= commitIndex then commitIndex
    else if rules.capAtVerified then Max(commitIndex, Min(leaderCommit, verified))
    else Min(leaderCommit, LastLogIndex(log))
  }

  function HandleAppend(rules: Rules, p: Peer, m: Message): (Peer, Message)
    requires m.Append?
  {
    var refusal := AppendReply(m.term, m.leader, p.me, m.prevLogIndex, |m.entries|, false, p.currentTerm);
    if m.term < p.currentTerm then (p, refusal)
    else
      var q := AcceptLeader(rules, p, m.term);
      if !PrevMatches(q.log, m.prevLogIndex, m.prevLogTerm) then (q, refusal)
      else
        var log := Merge(q.log, m.prevLogIndex, m.entries);
        var verified := m.prevLogIndex + |m.entries|;
        var r := if |m.entries| > 0 then Persist(q.(log := log)) else q;
        (r.(commitIndex := FollowerCommit(rules, q.commitIndex, m.leaderCommit, verified, log)),
         refusal.(success := true))
  }

  /** `Start`: the leader appends the command to its own log. */
  function Propose(p: Peer, command: Command): Peer {
    var index := LastLogIndex(p.log) + 1;
    var q := Persist(p.(log := p.log + [Entry(p.currentTerm, command)]));
    q.(matchIndex := if p.me < |q.matchIndex| && q.matchIndex[p.me] < index then q.matchIndex[p.me := index] else q.matchIndex,
       nextIndex := if p.me < |q.nextIndex| && q.nextIndex[p.me] < index + 1 then q.nextIndex[p.me := index + 1] else q.nextIndex)
  }

  function Heartbeat(p: Peer, dest: nat): Message {
    var prev := LastLogIndex(p.log);
    Append(p.currentTerm, p.me, dest, prev, if prev > 0 then p.log[prev].term else 0, [], p.commitIndex)
  }

  /** A replication batch exists for `dest` while the leader has entries it has not sent. */
  predicate HasBatch(p: Peer, dest: nat) {
    && p.role == Leader && dest != p.me
    && dest < |p.nextIndex| && dest < |p.matchIndex|
    && 1 <= p.nextIndex[dest] <= LastLogIndex(p.log)
  }

  function Batch(p: Peer, dest: nat): Message
    requires HasBatch(p, dest)
  {
    var next := p.nextIndex[dest];
    var prev := next - 1;
    var count := Min(MAX_BATCH, LastLogIndex(p.log) - next + 1);
    Append(p.currentTerm, p.me, dest, prev, if prev > 0 then p.log[prev].term else 0,
           p.log[next..next + count], p.commitIndex)
  }

  /** The peers known to hold index `index`: the leader itself and every matching follower. */
  function Holders(p: Peer, index: nat): set<nat> {
    set i: nat | i < p.peers && (i == p.me || (i < |p.matchIndex| && p.matchIndex[i] >= index))
  }

  predicate Committable(p: Peer, index: nat) {
    index < |p.log| && p.log[index].term == p.currentTerm && |Holders(p, index)| > p.peers / 2
  }

  /** The highest committable index in (commitIndex, top], else the commit index itself. */
  function CommitPoint(p: Peer, top: nat): (n: nat)
    ensures n == p.commitIndex || (p.commitIndex < n <= top && Committable(p, n))
    ensures forall k {:trigger Committable(p, k)} :: Max(n, p.commitIndex) < k <= top ==> !Committable(p, k)
  {
    if top <= p.commitIndex then p.commitIndex
    else if Committable(p, top) then top
    else CommitPoint(p, top - 1)
  }

  function TryAdvanceCommit(p: Peer): Peer {
    if p.role == Leader then p.(commitIndex := CommitPoint(p, LastLogIndex(p.log))) else p
  }

  /** The reply half of one replication round. */
  function HandleReplicateReply(p: Peer, m: Message): Peer
    requires m.AppendReply?
  {
    if p.role != Leader || p.currentTerm != m.term then p
    else if m.replyTerm > p.currentTerm then BecomeFollower(p, m.replyTerm)
    else if m.follower >= |p.nextIndex| || m.follower >= |p.matchIndex| then p
    else if m.success then
      var matched := Max(m.prevLogIndex + m.count, p.matchIndex[m.follower]);
      TryAdvanceCommit(p.(matchIndex := p.matchIndex[m.follower := matched],
                          nextIndex := p.nextIndex[m.follower := matched + 1]))
    else if p.nextIndex[m.follower] > 1 then
      p.(nextIndex := p.nextIndex[m.follower := p.nextIndex[m.follower] - 1])
    else p
  }

  /** The reply half of a heartbeat or of a refused vote: only a higher term matters. */
  function SeeTerm(p: Peer, term: nat): Peer {
    if term > p.currentTerm then BecomeFollower(p, term) else p
  }

  predicate CanApply(p: Peer) {
    p.lastApplied < p.commitIndex
  }

  /** Take the next committed entry and hand it to the service.  The log is read without
      a bounds check; `RaftTheorems.AppliedInRange` shows that none is needed. */
  function Apply(p: Peer): (Peer, Command)
    requires CanApply(p)
  {
    var index := p.lastApplied + 1;
    (p.(lastApplied := index), if index < |p.log| then p.log[index].command else Nil)
  }
}
