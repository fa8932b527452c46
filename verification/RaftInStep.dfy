/** Runs in which nothing goes wrong: one leader, whom all others follow, under any rules. */
module RaftInStep {
  import opened Commands
  import opened RaftPeer
  import opened RaftCluster
  import opened RaftRuns
  import opened RaftMajorities
  import opened RaftElections

  function LogOf(list: seq<Command>): Log { [SENTINEL] + Entries(1, list) }

  /** Peer 0 leads term 1 with this log; the others are known to hold `held` of it. */
  ghost predicate LeadsWith(p: Peer, n: nat, list: seq<Command>, held: nat, done: nat) {
    && p.role == Leader && p.me == 0 && p.peers == n && p.currentTerm == 1 && p.log == LogOf(list)
    && p.lastApplied == 0 && p.commitIndex == done <= |list| && held <= |list| && |p.nextIndex| == n && |p.matchIndex| == n
    && (forall j {:trigger p.nextIndex[j]} :: 1 <= j < n ==> p.nextIndex[j] == held + 1)
    && (forall j :: 0 <= j < n ==> p.matchIndex[j] <= |list|)
  }

  /** Peer j follows with this log. */
  ghost predicate Follows(p: Peer, j: nat, list: seq<Command>, done: nat) {
    p.me == j && p.currentTerm == 1 && p.log == LogOf(list) && p.lastApplied == 0 && p.commitIndex == done
  }

  ghost predicate AllFollow(c: Cluster, n: nat, list: seq<Command>, done: nat) {
    |c.peers| == n && forall j: nat {:trigger c.peers[j]} :: 1 <= j < n ==> Follows(c.peers[j], j, list, done)
  }

  /** All hold the same entries, committed and not applied. */
  ghost predicate InStep(c: Cluster, n: nat, list: seq<Command>) {
    AllFollow(c, n, list, |list|) && n >= 2 && LeadsWith(c.peers[0], n, list, |list|, |list|)
  }

  lemma FirstInStep(rules: Rules, n: nat, cmds: set<Command>) returns (run: Run)
    requires n >= 2
    ensures PlainRun(rules, n, cmds, run) && InStep(Last(run), n, [])
  {
    hide BecomeLeader, Standing;
    run := FirstLeader(rules, n, cmds);
    ElectedIs(0, n);
    assert LogOf([]) == [SENTINEL];
  }

  // ---------------------------------------------------------------- entries

  function Next(list: seq<Command>, more: seq<Command>, j: nat): Message {
    Append(1, 0, j, |list|, if |list| > 0 then 1 else 0, Entries(1, more), |list|)
  }

  function Holds(list: seq<Command>, more: seq<Command>, j: nat): Message { AppendReply(1, 0, j, |list|, |more|, true, 1) }

  lemma Proposes(p: Peer, n: nat, list: seq<Command>, more: seq<Command>)
    requires LeadsWith(p, n, list, |list|, |list|) && n >= 2
    ensures LeadsWith(AfterProposals(p, more), n, list + more, |list|, |list|)
  {
    hide AfterProposals;
    ProposalsAppend(p, more);
    assert LogOf(list + more) == LogOf(list) + Entries(1, more);
    assert LastLogIndex(p.log) == |list|;
    forall j | 1 <= j < n ensures AfterProposals(p, more).nextIndex[j] == |list| + 1 {
      assert p.nextIndex[j] == |list| + 1;
    }
  }

  lemma NextBatch(p: Peer, n: nat, list: seq<Command>, more: seq<Command>, j: nat)
    requires LeadsWith(p, n, list + more, |list|, |list|) && 1 <= j < n && 0 < |more| <= MAX_BATCH
    ensures HasBatch(p, j) && Batch(p, j) == Next(list, more, j)
  {
    assert p.nextIndex[j] == |list| + 1;
    assert p.log[|list| + 1..|list| + 1 + |more|] == Entries(1, more);
  }

  lemma NextAccepted(rules: Rules, p: Peer, j: nat, list: seq<Command>, more: seq<Command>)
    requires Follows(p, j, list, |list|) && |more| > 0
    ensures var (q, reply) := HandleAppend(rules, p, Next(list, more, j));
            Follows(q, j, list + more, |list|) && reply == Holds(list, more, j)
  {
    assert Overlap(p.log, |list| + 1, Entries(1, more)) == 0;
    assert Entries(1, more)[0..] == Entries(1, more);
    assert Merge(p.log, |list|, Entries(1, more)) == LogOf(list + more);
  }

  lemma LeadsEnough(p: Peer, n: nat, list: seq<Command>, held: nat, done: nat)
    requires LeadsWith(p, n, list, held, done) && |list| > 0
    ensures Leads(p, 0, n) && LastLogIndex(p.log) == |list|
  {
    assert p.log[|list|] == Entries(1, list)[|list| - 1];
  }

  lemma LeadsOn(p: Peer, q: Peer, n: nat, list: seq<Command>, held: nat, done: nat)
    requires LeadsWith(p, n, list, held, done) && Counted(p, q, 1, n, n) && q.commitIndex == |list| && p.me == 0
    requires n > 0 && q.matchIndex[0] <= |list|
    ensures LeadsWith(q, n, list, |list|, |list|)
  {
  }

  // ---------------------------------------------------------------- one round

  /** The leader is given more entries and all others store them. */
  lemma Replicates(rules: Rules, n: nat, cmds: set<Command>, run: Run, list: seq<Command>, more: seq<Command>) returns (run': Run)
    requires PlainRun(rules, n, cmds, run) && InStep(Last(run), n, list)
    requires 0 < |more| <= MAX_BATCH && forall i :: 0 <= i < |more| ==> more[i] in cmds
    ensures PlainRun(rules, n, cmds, run') && AllFollow(Last(run'), n, list + more, |list|)
    ensures LeadsWith(Last(run').peers[0], n, list + more, |list|, |list|)
    ensures forall j: nat {:trigger Holds(list, more, j)} :: 1 <= j < n ==> Holds(list, more, j) in Last(run').msgs
  {
    hide HandleAppend, HasBatch, Batch, AfterProposals, Follows;
    var r := SubmitSweep(rules, n, cmds, run, 0, more);
    var p := Last(r).peers[0];
    Proposes(Last(run).peers[0], n, list, more);
    forall j: nat | 1 <= j < n ensures HasBatch(p, j) && Batch(p, j) == Next(list, more, j) {
      NextBatch(p, n, list, more, j);
    }
    var r1 := SendSweep(rules, n, cmds, r, 0, 1, n);
    run' := AppendSweep(rules, n, cmds, r1, (j: nat) => Next(list, more, j), 1, n);
    forall j: nat | 1 <= j < n ensures Follows(Last(run').peers[j], j, list + more, |list|) && Holds(list, more, j) in Last(run').msgs {
      assert Last(r1).peers[j] == Last(run).peers[j] && Follows(Last(run).peers[j], j, list, |list|);
      NextAccepted(rules, Last(r1).peers[j], j, list, more);
    }
  }

  function Beat(list: seq<Command>, j: nat): Message { Append(1, 0, j, |list|, if |list| > 0 then 1 else 0, [], |list|) }

  lemma LeaderBeats(p: Peer, n: nat, list: seq<Command>, j: nat)
    requires LeadsWith(p, n, list, |list|, |list|)
    ensures Heartbeat(p, j) == Beat(list, j)
  {
    assert |list| > 0 ==> p.log[|list|] == Entries(1, list)[|list| - 1];
  }

  lemma BeatCommits(rules: Rules, p: Peer, j: nat, list: seq<Command>, done: nat)
    requires Follows(p, j, list, done) && done <= |list|
    ensures Follows(HandleAppend(rules, p, Beat(list, j)).0, j, list, |list|)
  {
    assert |list| > 0 ==> p.log[|list|] == Entries(1, list)[|list| - 1];
  }

  /** The leader commits, and tells the others. */
  lemma CommitsAll(rules: Rules, n: nat, cmds: set<Command>, run: Run, list: seq<Command>, more: seq<Command>) returns (run': Run)
    requires PlainRun(rules, n, cmds, run) && n >= 2 && |more| > 0 && AllFollow(Last(run), n, list + more, |list|)
    requires LeadsWith(Last(run).peers[0], n, list + more, |list|, |list|)
    requires forall j: nat {:trigger Holds(list, more, j)} :: 1 <= j < n ==> Holds(list, more, j) in Last(run).msgs
    ensures PlainRun(rules, n, cmds, run') && InStep(Last(run'), n, list + more)
  {
    hide HandleAppend, HandleReplicateReply, Follows, Counted, LeadsWith;
    var p, reply, all := Last(run).peers[0], (j: nat) => Holds(list, more, j), list + more;
    LeadsEnough(p, n, all, |list|, |list|);
    LeadsFacts(p, n, all, |list|, |list|);
    var r := ReplySweep(rules, n, cmds, run, 0, reply, 1, n);
    RepliesCommit(p, 0, reply, 1, n, n);
    RepliesKeepOwn(p, reply, 1, n, n);
    LeadsOn(p, Last(r).peers[0], n, all, |list|, |list|);
    run' := TellsAll(rules, n, cmds, r, all, |list|);
  }

  lemma LeadsFacts(p: Peer, n: nat, list: seq<Command>, held: nat, done: nat)
    requires LeadsWith(p, n, list, held, done)
    ensures p.role == Leader && p.me == 0 && p.currentTerm == 1 && |p.matchIndex| == |p.nextIndex| == n
    ensures n > 0 ==> p.matchIndex[0] <= |list|
  {
  }

  /** What the leader knows of itself does not change. */
  lemma {:induction false} RepliesKeepOwn(p: Peer, reply: nat -> Message, lo: nat, hi: nat, n: nat)
    requires 1 <= lo <= hi <= n && |p.matchIndex| == |p.nextIndex| == n
    requires forall j {:trigger reply(j)} :: lo <= j < hi ==> reply(j).AppendReply? && reply(j).follower == j
    ensures var q := AfterReplies(p, reply, lo, hi); |q.matchIndex| == n && |q.nextIndex| == n && q.matchIndex[0] == p.matchIndex[0]
    decreases hi
  {
    if lo < hi {
      hide CommitPoint;
      RepliesKeepOwn(p, reply, lo, hi - 1, n);
      assert reply(hi - 1).follower == hi - 1;
    }
  }

  lemma TellsAll(rules: Rules, n: nat, cmds: set<Command>, run: Run, list: seq<Command>, done: nat) returns (run': Run)
    requires PlainRun(rules, n, cmds, run) && n >= 2 && done <= |list| && AllFollow(Last(run), n, list, done)
    requires LeadsWith(Last(run).peers[0], n, list, |list|, |list|)
    ensures PlainRun(rules, n, cmds, run') && InStep(Last(run'), n, list)
  {
    hide HandleAppend, Follows;
    var r := HeartbeatSweep(rules, n, cmds, run, 0, 1, n);
    forall j: nat | 1 <= j < n ensures Beat(list, j) in Last(r).msgs {
      LeaderBeats(Last(run).peers[0], n, list, j);
    }
    run' := AppendSweep(rules, n, cmds, r, (j: nat) => Beat(list, j), 1, n);
    forall j: nat | 1 <= j < n ensures Follows(Last(run').peers[j], j, list, |list|) {
      assert Last(r).peers[j] == Last(run).peers[j] && Follows(Last(run).peers[j], j, list, done);
      BeatCommits(rules, Last(r).peers[j], j, list, done);
    }
  }

  /** All peers commit these entries: the first of them, and later, by a second rise of the
      commit index, the others. */
  lemma CommitsTwice(rules: Rules, n: nat, cmds: set<Command>, first: Command, more: seq<Command>) returns (run: Run)
    requires n >= 2 && 0 < |more| <= MAX_BATCH && first in cmds && forall i :: 0 <= i < |more| ==> more[i] in cmds
    ensures PlainRun(rules, n, cmds, run) && |Last(run).peers| == n
    ensures forall s: nat {:trigger Last(run).peers[s]} :: s < n ==> HasCommitted(Last(run).peers[s], [first] + more)
  {
    hide InStep, LeadsWith, AllFollow;
    run := FirstInStep(rules, n, cmds);
    run := Replicates(rules, n, cmds, run, [], [first]) by { SizedInStep(Last(run), n, []); }
    assert [] + [first] == [first];
    run := CommitsAll(rules, n, cmds, run, [], [first]);
    run := Replicates(rules, n, cmds, run, [first], more) by { SizedInStep(Last(run), n, [first]); }
    run := CommitsAll(rules, n, cmds, run, [first], more);
    InStepCommitted(Last(run), n, [first] + more);
  }

  lemma SizedInStep(c: Cluster, n: nat, list: seq<Command>)
    requires InStep(c, n, list)
    ensures |c.peers| == n >= 2
  {
  }

  lemma InStepCommitted(c: Cluster, n: nat, list: seq<Command>)
    requires InStep(c, n, list)
    ensures |c.peers| == n && forall s: nat {:trigger c.peers[s]} :: s < n ==> HasCommitted(c.peers[s], list)
  {
    forall s: nat | s < n ensures HasCommitted(c.peers[s], list) {
      assert c.peers[s].log == LogOf(list);
    }
  }
}
