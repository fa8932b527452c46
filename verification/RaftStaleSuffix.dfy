/** What the commit cap leads to, in a cluster of any size from three up: a follower commits a
    stale entry past a batch that was cut at its limit, where others have committed another. */
module RaftStaleSuffix {
  import opened Commands
  import opened RaftPeer
  import opened RaftCluster
  import opened RaftRuns
  import opened RaftMajorities
  import opened RaftElections

  function Uncapped(keep: bool): Rules { Rules(keep, false) }

  /** The entries that everybody holds: one full batch. */
  function Fill(f: Command): (r: seq<Command>)
    ensures |r| == MAX_BATCH && forall i :: 0 <= i < MAX_BATCH ==> r[i] == f
  {
    seq(MAX_BATCH, _ => f)
  }

  function Common(f: Command): (r: Log)
    ensures |r| == MAX_BATCH + 1 && r[0] == SENTINEL && forall i :: 1 <= i <= MAX_BATCH ==> r[i] == Entry(1, f)
  {
    [SENTINEL] + Entries(1, Fill(f))
  }

  /** Follower j in term t with this log, and nothing committed. */
  ghost predicate Holds(p: Peer, j: nat, n: nat, t: nat, log: Log) {
    && p.me == j && p.peers == n && p.role == Follower && p.currentTerm == t && p.log == log
    && p.commitIndex == 0 && p.lastApplied == 0
  }

  ghost predicate AllHold(c: Cluster, lo: nat, n: nat, t: nat, log: Log) {
    |c.peers| == n && forall j: nat {:trigger c.peers[j]} :: lo <= j < n ==> Holds(c.peers[j], j, n, t, log)
  }

  // ---------------------------------------------------------------- term 1: the common entries, and a stale one

  function FillRequest(f: Command, j: nat): Message { Append(1, 0, j, 0, 0, Entries(1, Fill(f)), 0) }

  lemma FillBatch(n: nat, p: Peer, f: Command, j: nat)
    requires p == AfterProposals(BecomeLeader(Standing(0, n)), Fill(f)) && 1 <= j < n
    ensures p.role == Leader && p.me == 0 && p.peers == n && p.currentTerm == 1 && p.log == Common(f)
    ensures p.commitIndex == 0 && p.lastApplied == 0
    ensures HasBatch(p, j) && Batch(p, j) == FillRequest(f, j)
  {
    hide AfterProposals;
    ProposalsAppend(BecomeLeader(Standing(0, n)), Fill(f));
    assert p.log == Common(f);
    assert p.log[1..1 + MAX_BATCH] == Entries(1, Fill(f));
  }

  lemma FillAccepted(keep: bool, j: nat, n: nat, f: Command)
    ensures Holds(HandleAppend(Uncapped(keep), Voted(j, n, 0), FillRequest(f, j)).0, j, n, 1, Common(f))
  {
    assert Merge([SENTINEL], 0, Entries(1, Fill(f))) == Common(f) by {
      assert Overlap([SENTINEL], 1, Entries(1, Fill(f))) == 0;
      assert Entries(1, Fill(f))[0..] == Entries(1, Fill(f));
    }
  }

  /** Peer 0 in term 1 with last entries that nobody else has. */
  ghost predicate Stale(p: Peer, n: nat, f: Command, x: seq<Command>) {
    && p.me == 0 && p.peers == n && p.currentTerm == 1 && p.log == Common(f) + Entries(1, x)
    && p.commitIndex == 0 && p.lastApplied == 0
  }

  lemma StaleEntries(keep: bool, n: nat, cmds: set<Command>, f: Command, x: seq<Command>) returns (run: Run)
    requires n >= 3 && f in cmds && forall i :: 0 <= i < |x| ==> x[i] in cmds
    ensures PlainRun(Uncapped(keep), n, cmds, run) && AllHold(Last(run), 1, n, 1, Common(f)) && Stale(Last(run).peers[0], n, f, x)
  {
    hide HandleAppend, AfterProposals, HasBatch, Batch, Voted, BecomeLeader;
    run := FirstLeader(Uncapped(keep), n, cmds);
    ElectedIs(0, n);
    run := SubmitSweep(Uncapped(keep), n, cmds, run, 0, Fill(f));
    var c := Last(run);
    var p := c.peers[0];
    FillBatch(n, p, f, 1);
    forall j: nat | 1 <= j < n ensures HasBatch(p, j) && Batch(p, j) == FillRequest(f, j) {
      FillBatch(n, p, f, j);
    }
    run := SendSweep(Uncapped(keep), n, cmds, run, 0, 1, n);
    run := AppendSweep(Uncapped(keep), n, cmds, run, (j: nat) => FillRequest(f, j), 1, n);
    forall j: nat | 1 <= j < n ensures Holds(Last(run).peers[j], j, n, 1, Common(f)) {
      assert c.peers[j] == Voted(j, n, 0);
      FillAccepted(keep, j, n, f);
    }
    run := SubmitSweep(Uncapped(keep), n, cmds, run, 0, x);
    ProposalsAppend(p, x);
  }

  // ---------------------------------------------------------------- peer 1 is elected, twice

  /** Peer 1 between elections. */
  ghost predicate Ready(p: Peer, n: nat, t: nat, log: Log, done: nat) {
    p.me == 1 && p.peers == n && p.currentTerm == t && p.log == log && p.commitIndex == done && p.lastApplied == 0
  }

  function Elect(p: Peer): Peer { BecomeLeader(BecomeCandidate(p)) }

  function GrantForOne(t: nat, j: nat): Message { VoteReply(t + 1, 1, j, true, t) }

  lemma GrantsPeerOne(p: Peer, j: nat, n: nat, t: nat, log: Log)
    requires Holds(p, j, n, t, log) && j >= 2
    ensures var (q, reply) := HandleVoteRequest(p, VoteRequest(t + 1, 1, LastLogIndex(log), LastLogTerm(log)));
            Holds(q, j, n, t + 1, log) && reply == GrantForOne(t, j)
  {
  }

  lemma ElectsPeerOne(keep: bool, n: nat, cmds: set<Command>, run: Run, t: nat, log: Log, done: nat) returns (run': Run)
    requires PlainRun(Uncapped(keep), n, cmds, run) && n >= 3 && AllHold(Last(run), 2, n, t, log) && Ready(Last(run).peers[1], n, t, log, done)
    ensures PlainRun(Uncapped(keep), n, cmds, run') && AllHold(Last(run'), 2, n, t + 1, log)
    ensures Last(run').peers[0] == Last(run).peers[0] && Last(run').peers[1] == Elect(Last(run).peers[1])
  {
    hide HandleVoteRequest, Holds;
    var m := VoteRequest(t + 1, 1, LastLogIndex(log), LastLogTerm(log));
    var r := Extend(Uncapped(keep), n, cmds, run, Timeout(1));
    r := Extend(Uncapped(keep), n, cmds, r, AskVotes(1));
    var c := Last(r);
    var r2 := VoteSweep(Uncapped(keep), n, cmds, r, m, 2, n);
    forall j: nat | 2 <= j < n ensures Holds(Last(r2).peers[j], j, n, t + 1, log) && GrantForOne(t, j) in Last(r2).msgs {
      assert Holds(Last(run).peers[j], j, n, t, log) && c.peers[j] == Last(run).peers[j];
      GrantsPeerOne(c.peers[j], j, n, t, log);
    }
    assert VoteReply(t + 1, 1, 1, true, t + 1) in Last(r).msgs;
    VotesWin(Last(r2), t + 1, 1, 2, n, VoteReply(t + 1, 1, 1, true, t + 1), (j: nat) => GrantForOne(t, j));
    run' := Extend(Uncapped(keep), n, cmds, r2, Win(1));
  }

  // ---------------------------------------------------------------- term 2: other entries are committed

  function Second(f: Command, y: seq<Command>): Log { Common(f) + Entries(2, y) }

  function NewRequest(y: seq<Command>, j: nat): Message { Append(2, 1, j, MAX_BATCH, 1, Entries(2, y), 0) }

  function NewReply(y: seq<Command>, j: nat): Message { AppendReply(2, 1, j, MAX_BATCH, |y|, true, 2) }

  /** Peer 1 leading term 2 with its own entries. */
  ghost predicate LeadsSecond(q: Peer, n: nat, f: Command, y: seq<Command>) {
    q.log == Second(f, y) && Leads(q, 1, n) && q.lastApplied == 0 && q.commitIndex == 0 && q.currentTerm == 2
  }

  lemma SecondLeader(n: nat, p: Peer, f: Command, y: seq<Command>)
    requires Ready(p, n, 1, Common(f), 0) && n >= 3 && |y| > 0
    ensures var q := AfterProposals(Elect(p), y);
            && LeadsSecond(q, n, f, y) && |q.nextIndex| == n
            && forall j: nat {:trigger q.nextIndex[j]} :: 2 <= j < n ==> q.nextIndex[j] == MAX_BATCH + 1
  {
    hide AfterProposals;
    ProposalsAppend(Elect(p), y);
  }

  lemma NewBatch(n: nat, q: Peer, f: Command, y: seq<Command>, j: nat)
    requires LeadsSecond(q, n, f, y) && 0 < |y| <= MAX_BATCH && 2 <= j < n == |q.nextIndex| && q.nextIndex[j] == MAX_BATCH + 1
    ensures HasBatch(q, j) && Batch(q, j) == NewRequest(y, j)
  {
    assert q.log[MAX_BATCH + 1..MAX_BATCH + 1 + |y|] == Entries(2, y);
  }

  lemma NewAccepted(keep: bool, p: Peer, j: nat, n: nat, f: Command, y: seq<Command>)
    requires Holds(p, j, n, 2, Common(f)) && |y| > 0
    ensures var (q, reply) := HandleAppend(Uncapped(keep), p, NewRequest(y, j));
            Holds(q, j, n, 2, Second(f, y)) && reply == NewReply(y, j)
  {
    assert Merge(Common(f), MAX_BATCH, Entries(2, y)) == Second(f, y) by {
      assert Overlap(Common(f), MAX_BATCH + 1, Entries(2, y)) == 0;
      assert Entries(2, y)[0..] == Entries(2, y);
    }
  }

  /** Peer 1 leads term 2 and commits its own entries at the indices of the stale ones. */
  lemma OtherCommitted(keep: bool, n: nat, cmds: set<Command>, run: Run, f: Command, y: seq<Command>) returns (run': Run)
    requires PlainRun(Uncapped(keep), n, cmds, run) && n >= 3 && AllHold(Last(run), 1, n, 1, Common(f))
    requires 0 < |y| <= MAX_BATCH && forall i :: 0 <= i < |y| ==> y[i] in cmds
    ensures PlainRun(Uncapped(keep), n, cmds, run')
    ensures AllHold(Last(run'), 2, n, 2, Second(f, y)) && Ready(Last(run').peers[1], n, 2, Second(f, y), MAX_BATCH + |y|)
    ensures Last(run').peers[0] == Last(run).peers[0]
  {
    hide HandleAppend, HasBatch, Batch, Elect, Holds, HandleReplicateReply, AfterProposals, LeadsSecond;
    assert Holds(Last(run).peers[1], 1, n, 1, Common(f));
    HoldsReady(Last(run).peers[1], n, 1, Common(f));
    var r := ElectsPeerOne(keep, n, cmds, run, 1, Common(f), 0);
    ElectLeads(Last(run).peers[1]);
    var r1 := SubmitSweep(Uncapped(keep), n, cmds, r, 1, y);
    var q := Last(r1).peers[1];
    SecondLeader(n, Last(run).peers[1], f, y);
    forall j: nat | 2 <= j < n ensures HasBatch(q, j) && Batch(q, j) == NewRequest(y, j) {
      assert q.nextIndex[j] == MAX_BATCH + 1;
      NewBatch(n, q, f, y, j);
    }
    var r2 := SendSweep(Uncapped(keep), n, cmds, r1, 1, 2, n);
    var r3 := AppendSweep(Uncapped(keep), n, cmds, r2, (j: nat) => NewRequest(y, j), 2, n);
    forall j: nat | 2 <= j < n ensures Holds(Last(r3).peers[j], j, n, 2, Second(f, y)) && NewReply(y, j) in Last(r3).msgs {
      assert Holds(Last(r).peers[j], j, n, 2, Common(f)) && Last(r2).peers[j] == Last(r).peers[j];
      NewAccepted(keep, Last(r2).peers[j], j, n, f, y);
    }
    run' := CountsReplies(keep, n, cmds, r3, q, f, y);
  }

  lemma HoldsReady(p: Peer, n: nat, t: nat, log: Log)
    requires Holds(p, 1, n, t, log)
    ensures Ready(p, n, t, log, 0)
  {
  }

  lemma ElectLeads(p: Peer)
    ensures Elect(p).role == Leader
  {
  }

  lemma CountsReplies(keep: bool, n: nat, cmds: set<Command>, run: Run, q: Peer, f: Command, y: seq<Command>) returns (run': Run)
    requires PlainRun(Uncapped(keep), n, cmds, run) && n >= 3 && AllHold(Last(run), 2, n, 2, Second(f, y)) && Last(run).peers[1] == q
    requires LeadsSecond(q, n, f, y) && |y| > 0
    requires forall j: nat {:trigger NewReply(y, j)} :: 2 <= j < n ==> NewReply(y, j) in Last(run).msgs
    ensures PlainRun(Uncapped(keep), n, cmds, run')
    ensures AllHold(Last(run'), 2, n, 2, Second(f, y)) && Ready(Last(run').peers[1], n, 2, Second(f, y), MAX_BATCH + |y|)
    ensures Last(run').peers[0] == Last(run).peers[0]
  {
    hide HandleReplicateReply, Holds;
    var reply := (j: nat) => NewReply(y, j);
    run' := ReplySweep(Uncapped(keep), n, cmds, run, 1, reply, 2, n);
    RepliesCommit(q, 1, reply, 2, n, n);
    forall j: nat | 2 <= j < n ensures Holds(Last(run').peers[j], j, n, 2, Second(f, y)) {
      assert Holds(Last(run).peers[j], j, n, 2, Second(f, y));
    }
  }

  // ---------------------------------------------------------------- term 3: the stale entries are committed too

  function Third(f: Command, y: seq<Command>): Log { Second(f, y) + [Entry(3, f)] }

  function TooFar(f: Command, y: seq<Command>): Message {
    Append(3, 1, 0, MAX_BATCH + |y|, 2, [Entry(3, f)], MAX_BATCH + |y|)
  }

  function Refusal(count: nat): Message { AppendReply(3, 1, 0, MAX_BATCH + count, 1, false, 1) }

  /** A batch cut at its limit, whose commit index lies past its end. */
  function Cut(f: Command, count: nat): Message { Append(3, 1, 0, 0, 0, Entries(1, Fill(f)), MAX_BATCH + count) }

  /** Peer 1 leading term 3. */
  ghost predicate LeadsThird(q: Peer, n: nat, f: Command, y: seq<Command>, next: nat) {
    && q.log == Third(f, y) && q.role == Leader && q.currentTerm == 3 && q.me == 1 && q.commitIndex == MAX_BATCH + |y|
    && q.lastApplied == 0 && |q.nextIndex| == n && |q.matchIndex| == n && n >= 3 && q.nextIndex[0] == next
  }

  /** It has not replicated its own entry yet. */
  ghost predicate NotSent(q: Peer, n: nat, y: seq<Command>) {
    Leads(q, 1, n) && forall j: nat {:trigger q.nextIndex[j]} :: 2 <= j < n ==> q.nextIndex[j] == MAX_BATCH + |y| + 1
  }

  lemma ThirdLeader(n: nat, p: Peer, q: Peer, f: Command, y: seq<Command>)
    requires n >= 3 && |y| > 0 && Ready(p, n, 2, Second(f, y), MAX_BATCH + |y|) && q == Propose(Elect(p), f)
    ensures LeadsThird(q, n, f, y, MAX_BATCH + |y| + 1) && NotSent(q, n, y) && HasBatch(q, 0) && Batch(q, 0) == TooFar(f, y)
  {
    assert q.log[MAX_BATCH + |y| + 1..MAX_BATCH + |y| + 2] == [Entry(3, f)];
  }

  lemma SteppedBack(n: nat, q: Peer, f: Command, y: seq<Command>)
    requires LeadsThird(q, n, f, y, 1)
    ensures HasBatch(q, 0) && Batch(q, 0) == Cut(f, |y|)
  {
    assert q.log[1..1 + MAX_BATCH] == Entries(1, Fill(f));
  }

  /** Peer 0 in term 3, still with its stale entries. */
  ghost predicate StaleThird(p: Peer, f: Command, x: seq<Command>, done: nat) {
    p.log == Common(f) + Entries(1, x) && p.currentTerm == 3 && p.commitIndex == done && p.lastApplied == 0
  }

  lemma RefusesTooFar(keep: bool, p: Peer, n: nat, f: Command, x: seq<Command>, y: seq<Command>)
    requires Stale(p, n, f, x) && |x| == |y| > 0
    ensures var (q, reply) := HandleAppend(Uncapped(keep), p, TooFar(f, y));
            reply == Refusal(|y|) && StaleThird(q, f, x, 0)
  {
  }

  lemma CommitsStale(keep: bool, p: Peer, f: Command, x: seq<Command>)
    requires StaleThird(p, f, x, 0)
    ensures StaleThird(HandleAppend(Uncapped(keep), p, Cut(f, |x|)).0, f, x, MAX_BATCH + |x|)
  {
    MergeExact(p.log, 0, Entries(1, Fill(f)));
    hide Merge;
  }

  lemma DivergedThird(c: Cluster, n: nat, f: Command, x: seq<Command>, y: seq<Command>, next: nat)
    requires |c.peers| == n >= 3 && |x| == |y|
    requires StaleThird(c.peers[0], f, x, MAX_BATCH + |x|) && LeadsThird(c.peers[1], n, f, y, next)
    ensures Diverged(c, Fill(f) + x, Fill(f) + y)
  {
  }

  /** Peer 1 leads term 3 and peer 0 has refused its first batch. */
  ghost predicate AtThird(c: Cluster, n: nat, f: Command, x: seq<Command>, y: seq<Command>) {
    && AllHold(c, 2, n, 3, Second(f, y)) && n >= 3 && StaleThird(c.peers[0], f, x, 0)
    && LeadsThird(c.peers[1], n, f, y, MAX_BATCH + |y| + 1) && NotSent(c.peers[1], n, y) && Refusal(|y|) in c.msgs
  }

  lemma ReachesThird(keep: bool, n: nat, cmds: set<Command>, run: Run, f: Command, x: seq<Command>, y: seq<Command>) returns (run': Run)
    requires PlainRun(Uncapped(keep), n, cmds, run) && n >= 3 && AllHold(Last(run), 2, n, 2, Second(f, y)) && f in cmds
    requires Ready(Last(run).peers[1], n, 2, Second(f, y), MAX_BATCH + |y|) && Stale(Last(run).peers[0], n, f, x) && |x| == |y| > 0
    ensures PlainRun(Uncapped(keep), n, cmds, run') && AtThird(Last(run'), n, f, x, y)
  {
    hide HandleAppend, HasBatch, Batch, Elect, Propose, Holds, LeadsThird, StaleThird, NotSent;
    var r := ElectsPeerOne(keep, n, cmds, run, 2, Second(f, y), MAX_BATCH + |y|);
    ElectLeads(Last(run).peers[1]);
    var r1 := Extend(Uncapped(keep), n, cmds, r, Submit(1, f));
    ThirdLeader(n, Last(run).peers[1], Last(r1).peers[1], f, y);
    var r2 := Extend(Uncapped(keep), n, cmds, r1, SendBatch(1, 0));
    RefusesTooFar(keep, Last(r2).peers[0], n, f, x, y);
    run' := Extend(Uncapped(keep), n, cmds, r2, OnAppend(0, TooFar(f, y)));
  }

  lemma StepsBackAndCommits(keep: bool, n: nat, cmds: set<Command>, run: Run, f: Command, x: seq<Command>, y: seq<Command>) returns (run': Run)
    requires PlainRun(Uncapped(keep), n, cmds, run) && AtThird(Last(run), n, f, x, y) && |x| == |y| > 0
    ensures PlainRun(Uncapped(keep), n, cmds, run') && Diverged(Last(run'), Fill(f) + x, Fill(f) + y)
  {
    hide HandleAppend, HasBatch, Batch, HandleReplicateReply, StaleThird;
    var q := Last(run).peers[1];
    var r := ReplySweep(Uncapped(keep), n, cmds, run, 1, _ => Refusal(|y|), 0, MAX_BATCH + |y|);
    RefusalsStepBack(q, Refusal(|y|), 0, MAX_BATCH + |y|);
    SteppedBack(n, Last(r).peers[1], f, y);
    var r1 := Extend(Uncapped(keep), n, cmds, r, SendBatch(1, 0));
    CommitsStale(keep, Last(r1).peers[0], f, x);
    run' := Extend(Uncapped(keep), n, cmds, r1, OnAppend(0, Cut(f, |x|)));
    DivergedThird(Last(run'), n, f, x, y, 1);
  }

  /** A run up to there. */
  lemma ThirdTerm(keep: bool, n: nat, cmds: set<Command>, f: Command, x: seq<Command>, y: seq<Command>) returns (run: Run)
    requires n >= 3 && 0 < |x| == |y| <= MAX_BATCH && f in cmds && forall i :: 0 <= i < |x| ==> x[i] in cmds && y[i] in cmds
    ensures PlainRun(Uncapped(keep), n, cmds, run) && AtThird(Last(run), n, f, x, y)
  {
    hide Holds, Stale, AtThird;
    run := StaleEntries(keep, n, cmds, f, x);
    run := OtherCommitted(keep, n, cmds, run, f, y);
    run := ReachesThird(keep, n, cmds, run, f, x, y);
  }

  /** Where the commit index is not capped at the verified entries, two peers can commit
      different commands after a full batch of common ones. */
  lemma TwoCommitted(keep: bool, n: nat, cmds: set<Command>, f: Command, x: seq<Command>, y: seq<Command>) returns (run: Run)
    requires n >= 3 && 0 < |x| == |y| <= MAX_BATCH && f in cmds && forall i :: 0 <= i < |x| ==> x[i] in cmds && y[i] in cmds
    ensures PlainRun(Uncapped(keep), n, cmds, run) && Diverged(Last(run), Fill(f) + x, Fill(f) + y)
  {
    hide AtThird, Diverged;
    run := ThirdTerm(keep, n, cmds, f, x, y);
    run := StepsBackAndCommits(keep, n, cmds, run, f, x, y);
  }
}
