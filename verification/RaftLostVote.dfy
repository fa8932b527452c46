/** What the lost vote leads to, in a cluster of any size from three up: two leaders of one
    term, and then two commands at one index. */
module RaftLostVote {
  import opened Commands
  import opened RaftPeer
  import opened RaftCluster
  import opened RaftRuns
  import opened RaftMajorities
  import opened RaftElections

  function Forgetful(cap: bool): Rules { Rules(false, cap) }

  /** The others are as `other` says. */
  ghost predicate Others(c: Cluster, n: nat, other: nat -> Peer) {
    |c.peers| == n >= 3 && forall j: nat {:trigger c.peers[j]} :: 2 <= j < n ==> c.peers[j] == other(j)
  }

  /** Peers 0 and 1 stand in term 1 and have asked for votes. */
  ghost predicate BothStand(c: Cluster, n: nat) {
    && Others(c, n, (j: nat) => Fresh(j, n)) && c.peers[0] == Standing(0, n) && c.peers[1] == Standing(1, n)
    && {OwnVote(0), OwnVote(1), Request(0), Request(1)} <= c.msgs
  }

  lemma ReachBothStand(cap: bool, n: nat, cmds: set<Command>) returns (run: Run)
    requires n >= 3
    ensures PlainRun(Forgetful(cap), n, cmds, run) && BothStand(Last(run), n)
  {
    run := StartRun(Forgetful(cap), n, cmds);
    run := Stands(Forgetful(cap), n, cmds, run, 0);
    run := Stands(Forgetful(cap), n, cmds, run, 1);
  }

  lemma FreedVotes(j: nat, n: nat, s: nat)
    requires j != s
    ensures HandleVoteRequest(Voted(j, n, NOBODY), Request(s)) == (Voted(j, n, s), Grant(s, j, 1))
  {
  }

  function Beat(j: nat): Message { Append(1, 0, j, 0, 0, [], 0) }

  /** A heartbeat of the term clears the vote. */
  lemma BeatFrees(cap: bool, j: nat, n: nat)
    ensures HandleAppend(Forgetful(cap), Voted(j, n, 0), Beat(j)).0 == Voted(j, n, NOBODY)
  {
  }

  /** Peer 0 leads term 1; the vote of the others is free again. */
  ghost predicate OneLeads(c: Cluster, n: nat) {
    && Others(c, n, (j: nat) => Voted(j, n, NOBODY)) && c.peers[0] == BecomeLeader(Standing(0, n)) && c.peers[1] == Standing(1, n)
    && {OwnVote(1), Request(1)} <= c.msgs
  }

  lemma ReachOneLeads(cap: bool, n: nat, cmds: set<Command>) returns (run: Run)
    requires n >= 3
    ensures PlainRun(Forgetful(cap), n, cmds, run) && OneLeads(Last(run), n)
  {
    hide HandleVoteRequest, HandleAppend;
    run := ReachBothStand(cap, n, cmds);
    var c := Last(run);
    run := VoteSweep(Forgetful(cap), n, cmds, run, Request(0), 2, n);
    forall j: nat | 2 <= j < n ensures Last(run).peers[j] == Voted(j, n, 0) && Grant(0, j, 0) in Last(run).msgs {
      assert c.peers[j] == Fresh(j, n);
      FreshVotes(j, n, 0);
    }
    run := Elects(Forgetful(cap), n, cmds, run, 0, 2, 0);
    run := HeartbeatSweep(Forgetful(cap), n, cmds, run, 0, 2, n);
    forall j: nat | 2 <= j < n ensures Beat(j) in Last(run).msgs {
      assert Heartbeat(BecomeLeader(Standing(0, n)), j) == Beat(j);
    }
    c := Last(run);
    run := AppendSweep(Forgetful(cap), n, cmds, run, Beat, 2, n);
    forall j: nat | 2 <= j < n ensures Last(run).peers[j] == Voted(j, n, NOBODY) {
      assert c.peers[j] == Voted(j, n, 0);
      BeatFrees(cap, j, n);
    }
  }

  /** Peers 0 and 1 both lead term 1. */
  ghost predicate BothLead(c: Cluster, n: nat) {
    && Others(c, n, (j: nat) => Voted(j, n, 1)) && c.peers[0] == BecomeLeader(Standing(0, n)) && c.peers[1] == BecomeLeader(Standing(1, n))
  }

  /** Where a vote can be lost, two peers can lead one term. */
  lemma TwoLeaders(cap: bool, n: nat, cmds: set<Command>) returns (run: Run)
    requires n >= 3
    ensures PlainRun(Forgetful(cap), n, cmds, run) && BothLead(Last(run), n)
    ensures Last(run).peers[0].role == Leader && Last(run).peers[1].role == Leader
    ensures Last(run).peers[0].currentTerm == Last(run).peers[1].currentTerm
  {
    hide HandleVoteRequest;
    run := ReachOneLeads(cap, n, cmds);
    var c := Last(run);
    run := VoteSweep(Forgetful(cap), n, cmds, run, Request(1), 2, n);
    forall j: nat | 2 <= j < n ensures Last(run).peers[j] == Voted(j, n, 1) && Grant(1, j, 1) in Last(run).msgs {
      assert c.peers[j] == Voted(j, n, NOBODY);
      FreedVotes(j, n, 1);
    }
    run := Elects(Forgetful(cap), n, cmds, run, 1, 2, 1);
  }

  // ---------------------------------------------------------------- two logs

  function Proposed(list: seq<Command>): Log { [SENTINEL] + Entries(1, list) }

  /** Leader s of term 1 once it has been given these commands. */
  ghost predicate HasProposed(p: Peer, s: nat, n: nat, list: seq<Command>) {
    && Leads(p, s, n) && p.currentTerm == 1 && p.log == Proposed(list) && p.lastApplied == 0 && p.commitIndex == 0
    && forall j: nat {:trigger p.nextIndex[j]} :: j < n && j != s ==> p.nextIndex[j] == 1
  }

  lemma ProposedLog(s: nat, n: nat, list: seq<Command>)
    requires s < n && |list| > 0
    ensures HasProposed(AfterProposals(BecomeLeader(Standing(s, n)), list), s, n, list)
  {
    hide BecomeLeader, AfterProposals, Standing;
    ElectedIs(s, n);
    ProposalsAppend(BecomeLeader(Standing(s, n)), list);
    var q := AfterProposals(BecomeLeader(Standing(s, n)), list);
    assert q.log[|list|] == Entries(1, list)[|list| - 1];
    forall j: nat | j < n && j != s ensures q.nextIndex[j] == 1 {
      assert BecomeLeader(Standing(s, n)).nextIndex[j] == 1;
    }
  }

  /** Two logs with entries of one term at index 1 that differ. */
  lemma TwoLogs(cap: bool, n: nat, x: Command, y: Command) returns (run: Run)
    requires n >= 3
    ensures IsRun(Forgetful(cap), n, run) && |Last(run).peers| == n
    ensures Last(run).peers[0].log == Proposed([x]) && Last(run).peers[1].log == Proposed([y])
  {
    hide BecomeLeader, AfterProposals;
    run := TwoLeaders(cap, n, {x, y});
    ElectedIs(0, n);
    ElectedIs(1, n);
    run := SubmitSweep(Forgetful(cap), n, {x, y}, run, 0, [x]);
    run := SubmitSweep(Forgetful(cap), n, {x, y}, run, 1, [y]);
    ProposedLog(0, n, [x]);
    ProposedLog(1, n, [y]);
  }

  // ---------------------------------------------------------------- two commands at one index

  function First(s: nat, list: seq<Command>, j: nat): Message { Append(1, s, j, 0, 0, Entries(1, list), 0) }

  function Accepted(s: nat, count: nat, j: nat): Message { AppendReply(1, s, j, 0, count, true, 1) }

  function Holding(j: nat, n: nat, list: seq<Command>): Peer {
    Persist(Fresh(j, n).(currentTerm := 1, log := Proposed(list)))
  }

  lemma FirstBatch(p: Peer, s: nat, n: nat, list: seq<Command>, j: nat)
    requires HasProposed(p, s, n, list) && 0 < |list| <= MAX_BATCH && s < n && j < n && j != s
    ensures HasBatch(p, j) && Batch(p, j) == First(s, list, j)
  {
    assert p.nextIndex[j] == 1;
    assert p.log[1..1 + |list|] == Entries(1, list);
  }

  lemma AcceptsOnEmpty(cap: bool, s: nat, j: nat, n: nat, list: seq<Command>)
    requires |list| > 0
    ensures HandleAppend(Forgetful(cap), Voted(j, n, 1), First(s, list, j)) == (Holding(j, n, list), Accepted(s, |list|, j))
  {
    assert Entries(1, list)[0..] == Entries(1, list);
    assert Merge([SENTINEL], 0, Entries(1, list)) == Proposed(list);
  }

  /** Entries of the same term are taken for the same entries. */
  lemma AcceptsOnOther(cap: bool, s: nat, j: nat, n: nat, x: seq<Command>, y: seq<Command>)
    ensures HandleAppend(Forgetful(cap), Holding(j, n, x), First(s, y, j)).1 == Accepted(s, |y|, j)
  {
  }

  /** Leader s is given its commands and sends them to the others. */
  lemma ProposesFirst(cap: bool, n: nat, cmds: set<Command>, run: Run, s: nat, list: seq<Command>) returns (run': Run)
    requires PlainRun(Forgetful(cap), n, cmds, run) && s < 2 && |Last(run).peers| == n >= 3
    requires 0 < |list| <= MAX_BATCH && forall i :: 0 <= i < |list| ==> list[i] in cmds
    requires Last(run).peers[s] == BecomeLeader(Standing(s, n))
    ensures PlainRun(Forgetful(cap), n, cmds, run') && OnlyThese(Last(run), Last(run'), s, s + 1)
    ensures HasProposed(Last(run').peers[s], s, n, list)
    ensures forall j: nat {:trigger First(s, list, j)} :: 2 <= j < n ==> First(s, list, j) in Last(run').msgs
  {
    hide HasBatch, Batch, BecomeLeader, AfterProposals, HasProposed;
    ElectedIs(s, n);
    var r := SubmitSweep(Forgetful(cap), n, cmds, run, s, list);
    ProposedLog(s, n, list);
    forall j: nat | 2 <= j < n ensures HasBatch(Last(r).peers[s], j) && Batch(Last(r).peers[s], j) == First(s, list, j) {
      FirstBatch(Last(r).peers[s], s, n, list, j);
    }
    run' := SendSweep(Forgetful(cap), n, cmds, r, s, 2, n);
  }

  /** Leader s of term 1 has committed its commands. */
  ghost predicate LeadsCommitted(p: Peer, list: seq<Command>) {
    p.role == Leader && p.currentTerm == 1 && HasCommitted(p, list)
  }

  /** Once the others have accepted them, leader s commits its commands. */
  lemma CommitsFirst(cap: bool, n: nat, cmds: set<Command>, run: Run, s: nat, list: seq<Command>) returns (run': Run)
    requires PlainRun(Forgetful(cap), n, cmds, run) && s < 2 && |Last(run).peers| == n >= 3
    requires HasProposed(Last(run).peers[s], s, n, list) && |list| > 0
    requires forall j: nat {:trigger Accepted(s, |list|, j)} :: 2 <= j < n ==> Accepted(s, |list|, j) in Last(run).msgs
    ensures PlainRun(Forgetful(cap), n, cmds, run') && OnlyThese(Last(run), Last(run'), s, s + 1)
    ensures LeadsCommitted(Last(run').peers[s], list)
  {
    hide HandleReplicateReply, HasProposed, Counted, LeadsCommitted;
    var p, reply := Last(run).peers[s], (j: nat) => Accepted(s, |list|, j);
    ProposedAcks(p, s, n, list);
    run' := ReplySweep(Forgetful(cap), n, cmds, run, s, reply, 2, n);
    RepliesCommit(p, s, reply, 2, n, n);
    CountedCommits(p, Last(run').peers[s], s, n, list);
  }

  lemma ProposedAcks(p: Peer, s: nat, n: nat, list: seq<Command>)
    requires HasProposed(p, s, n, list)
    ensures Leads(p, s, n) && LastLogIndex(p.log) == |list| && p.currentTerm == 1
  {
  }

  lemma CountedCommits(p: Peer, q: Peer, s: nat, n: nat, list: seq<Command>)
    requires HasProposed(p, s, n, list) && Counted(p, q, 2, n, n) && q.commitIndex == |list|
    ensures LeadsCommitted(q, list)
  {
  }

  lemma FirstCommands(cap: bool, n: nat, cmds: set<Command>, list: seq<Command>) returns (run: Run)
    requires n >= 3 && 0 < |list| <= MAX_BATCH && forall i :: 0 <= i < |list| ==> list[i] in cmds
    ensures PlainRun(Forgetful(cap), n, cmds, run)
    ensures Others(Last(run), n, (j: nat) => Holding(j, n, list)) && Last(run).peers[1] == BecomeLeader(Standing(1, n))
    ensures LeadsCommitted(Last(run).peers[0], list)
  {
    hide HandleAppend, BecomeLeader, Holding, Voted, HasProposed, LeadsCommitted;
    run := TwoLeaders(cap, n, cmds);
    run := ProposesFirst(cap, n, cmds, run, 0, list);
    var c := Last(run);
    run := AppendSweep(Forgetful(cap), n, cmds, run, (j: nat) => First(0, list, j), 2, n);
    forall j: nat | 2 <= j < n ensures Last(run).peers[j] == Holding(j, n, list) && Accepted(0, |list|, j) in Last(run).msgs {
      assert c.peers[j] == Voted(j, n, 1);
      AcceptsOnEmpty(cap, 0, j, n, list);
    }
    run := CommitsFirst(cap, n, cmds, run, 0, list);
  }

  /** Where a vote can be lost, two peers can commit different commands from index 1 on. */
  lemma TwoCommitted(cap: bool, n: nat, cmds: set<Command>, x: seq<Command>, y: seq<Command>) returns (run: Run)
    requires n >= 3 && 0 < |x| == |y| <= MAX_BATCH && forall i :: 0 <= i < |x| ==> x[i] in cmds && y[i] in cmds
    ensures PlainRun(Forgetful(cap), n, cmds, run) && Diverged(Last(run), x, y)
  {
    hide HandleAppend, BecomeLeader, Holding, HasProposed;
    var r0 := FirstCommands(cap, n, cmds, x);
    var r1 := ProposesFirst(cap, n, cmds, r0, 1, y);
    var c := Last(r1);
    var r2 := AppendSweep(Forgetful(cap), n, cmds, r1, (k: nat) => First(1, y, k), 2, n);
    forall k: nat | 2 <= k < n ensures Accepted(1, |y|, k) in Last(r2).msgs {
      assert c.peers[k] == Holding(k, n, x);
      assert Last(r2).peers[k] == HandleAppend(Forgetful(cap), c.peers[k], First(1, y, k)).0;
      AcceptsOnOther(cap, 1, k, n, x, y);
    }
    run := CommitsFirst(cap, n, cmds, r2, 1, y);
    assert LeadsCommitted(Last(run).peers[0], x) by {
      assert Last(r0).peers[0] == Last(r1).peers[0] == Last(r2).peers[0];
    }
  }
}
