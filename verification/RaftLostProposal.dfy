/** What else the lost vote leads to: two leaders of one term, whose logs differ before that
    term, so that one overwrites what the other has proposed, and even committed. */
module RaftLostProposal {
  import opened Commands
  import opened RaftPeer
  import opened RaftCluster
  import opened RaftRuns
  import opened RaftMajorities
  import opened RaftElections
  import opened RaftLostVote

  // ---------------------------------------------------------------- two leaders of term 2

  /** Peer 0 leading term 2 with an empty log. */
  function Empty(n: nat): Peer { BecomeLeader(BecomeCandidate(Standing(0, n))) }

  /** Peer 1 leading term 2 with an entry of term 1. */
  function Older(n: nat, x: Command): Peer { BecomeLeader(BecomeCandidate(Propose(BecomeLeader(Standing(1, n)), x))) }

  lemma EmptyIs(n: nat)
    ensures var p := Empty(n);
            && p.role == Leader && p.me == 0 && p.peers == n && p.currentTerm == 2 && p.log == [SENTINEL]
            && p.commitIndex == 0 && p.lastApplied == 0 && |p.nextIndex| == n && |p.matchIndex| == n
            && (forall j :: 0 <= j < n ==> p.nextIndex[j] == 1) && (forall j :: 0 <= j < n ==> p.matchIndex[j] == 0)
  {
  }

  /** Peer j in term 2, having voted for v. */
  function Seat(j: nat, n: nat, v: int): Peer { Persist(Fresh(j, n).(currentTerm := 2, votedFor := v)) }

  function Ask(s: nat): Message { VoteRequest(2, s, s, s) }

  function Own(s: nat): Message { VoteReply(2, s, s, true, 2) }

  function Gives(s: nat, j: nat): Message { VoteReply(2, s, j, true, 1 + s) }

  lemma SeatVotes(j: nat, n: nat)
    requires j >= 2
    ensures HandleVoteRequest(Voted(j, n, 1), Ask(0)) == (Seat(j, n, 0), Gives(0, j))
    ensures HandleVoteRequest(Seat(j, n, NOBODY), Ask(1)) == (Seat(j, n, 1), Gives(1, j))
  {
  }

  function Beat2(j: nat): Message { Append(2, 0, j, 0, 0, [], 0) }

  lemma BeatFreesSeat(cap: bool, j: nat, n: nat)
    ensures HandleAppend(Forgetful(cap), Seat(j, n, 0), Beat2(j)).0 == Seat(j, n, NOBODY)
  {
  }

  /** Peer 1 leads term 1 and keeps its entry to itself. */
  lemma FirstReign(cap: bool, n: nat, cmds: set<Command>, x: Command) returns (run: Run)
    requires n >= 3 && x in cmds
    ensures PlainRun(Forgetful(cap), n, cmds, run) && Others(Last(run), n, (j: nat) => Voted(j, n, 1))
    ensures Last(run).peers[0] == Fresh(0, n) && Last(run).peers[1] == Propose(BecomeLeader(Standing(1, n)), x)
  {
    hide HandleVoteRequest;
    run := StartRun(Forgetful(cap), n, cmds);
    run := Stands(Forgetful(cap), n, cmds, run, 1);
    var c := Last(run);
    run := VoteSweep(Forgetful(cap), n, cmds, run, Request(1), 2, n);
    forall j: nat | 2 <= j < n ensures Last(run).peers[j] == Voted(j, n, 1) && Grant(1, j, 0) in Last(run).msgs {
      assert c.peers[j] == Fresh(j, n);
      FreshVotes(j, n, 1);
    }
    run := Elects(Forgetful(cap), n, cmds, run, 1, 2, 0);
    run := Extend(Forgetful(cap), n, cmds, run, Submit(1, x));
  }

  /** A candidate of term 2 that the others vote for. */
  lemma WinsTwo(cap: bool, n: nat, cmds: set<Command>, run: Run, s: nat) returns (run': Run)
    requires PlainRun(Forgetful(cap), n, cmds, run) && |Last(run).peers| == n >= 3 && s < 2
    requires Last(run).peers[s].role == Candidate && Last(run).peers[s].currentTerm == 2 && Own(s) in Last(run).msgs
    requires forall j: nat {:trigger Gives(s, j)} :: 2 <= j < n ==> Gives(s, j) in Last(run).msgs
    ensures PlainRun(Forgetful(cap), n, cmds, run') && Last(run') == Set(Last(run), s, BecomeLeader(Last(run).peers[s]))
  {
    VotesWin(Last(run), 2, s, 2, n, Own(s), (j: nat) => Gives(s, j));
    run' := Extend(Forgetful(cap), n, cmds, run, Win(s));
  }

  lemma SecondVote(cap: bool, n: nat, cmds: set<Command>, x: Command) returns (run: Run)
    requires n >= 3 && x in cmds
    ensures PlainRun(Forgetful(cap), n, cmds, run) && Others(Last(run), n, (j: nat) => Seat(j, n, 0))
    ensures Last(run).peers[0] == Empty(n) && Last(run).peers[1] == Propose(BecomeLeader(Standing(1, n)), x)
  {
    hide HandleVoteRequest, Propose, BecomeLeader, Voted, Seat;
    run := FirstReign(cap, n, cmds, x);
    run := Extend(Forgetful(cap), n, cmds, run, Timeout(0));
    run := Extend(Forgetful(cap), n, cmds, run, Timeout(0));
    run := Extend(Forgetful(cap), n, cmds, run, AskVotes(0));
    var c := Last(run);
    run := VoteSweep(Forgetful(cap), n, cmds, run, Ask(0), 2, n);
    forall j: nat | 2 <= j < n ensures Last(run).peers[j] == Seat(j, n, 0) && Gives(0, j) in Last(run).msgs {
      assert c.peers[j] == Voted(j, n, 1);
      SeatVotes(j, n);
    }
    run := WinsTwo(cap, n, cmds, run, 0);
  }

  /** Peer 0 leads term 2, and the votes of the others are free again. */
  lemma SecondReign(cap: bool, n: nat, cmds: set<Command>, x: Command) returns (run: Run)
    requires n >= 3 && x in cmds
    ensures PlainRun(Forgetful(cap), n, cmds, run) && Others(Last(run), n, (j: nat) => Seat(j, n, NOBODY))
    ensures Last(run).peers[0] == Empty(n) && Last(run).peers[1] == Propose(BecomeLeader(Standing(1, n)), x)
  {
    hide HandleAppend, Propose, BecomeLeader, Seat, Empty;
    run := SecondVote(cap, n, cmds, x);
    EmptyIs(n);
    run := HeartbeatSweep(Forgetful(cap), n, cmds, run, 0, 2, n);
    var c := Last(run);
    forall j: nat | 2 <= j < n ensures Beat2(j) in Last(run).msgs {
      assert Heartbeat(Empty(n), j) == Beat2(j);
    }
    run := AppendSweep(Forgetful(cap), n, cmds, run, Beat2, 2, n);
    forall j: nat | 2 <= j < n ensures Last(run).peers[j] == Seat(j, n, NOBODY) {
      assert c.peers[j] == Seat(j, n, 0);
      BeatFreesSeat(cap, j, n);
    }
  }

  /** Both lead term 2. */
  ghost predicate BothReign(c: Cluster, n: nat, x: Command) {
    Others(c, n, (j: nat) => Seat(j, n, 1)) && c.peers[0] == Empty(n) && c.peers[1] == Older(n, x)
  }

  lemma TwoReigns(cap: bool, n: nat, cmds: set<Command>, x: Command) returns (run: Run)
    requires n >= 3 && x in cmds
    ensures PlainRun(Forgetful(cap), n, cmds, run) && BothReign(Last(run), n, x)
  {
    hide HandleVoteRequest;
    run := SecondReign(cap, n, cmds, x);
    run := Extend(Forgetful(cap), n, cmds, run, Timeout(1));
    run := Extend(Forgetful(cap), n, cmds, run, AskVotes(1));
    var c := Last(run);
    run := VoteSweep(Forgetful(cap), n, cmds, run, Ask(1), 2, n);
    forall j: nat | 2 <= j < n ensures Last(run).peers[j] == Seat(j, n, 1) && Gives(1, j) in Last(run).msgs {
      assert c.peers[j] == Seat(j, n, NOBODY);
      SeatVotes(j, n);
    }
    run := WinsTwo(cap, n, cmds, run, 1);
  }

  // ---------------------------------------------------------------- peer 1 overwrites peer 0

  /** Peer 0 in term 2 with its own entries. */
  ghost predicate Holds(p: Peer, list: seq<Command>, done: nat) {
    p.me == 0 && p.currentTerm == 2 && p.log == [SENTINEL] + Entries(2, list) && p.commitIndex == done && p.lastApplied == 0
  }

  /** Peer 0 in term 2 with the log of peer 1. */
  ghost predicate Overwritten(p: Peer, x: Command, y: Command, done: nat) {
    p.currentTerm == 2 && p.log == [SENTINEL, Entry(1, x), Entry(2, y)] && p.commitIndex == done && p.lastApplied == 0
  }

  function Newest(y: Command): Message { Append(2, 1, 0, 1, 1, [Entry(2, y)], 0) }

  function Refused(): Message { AppendReply(2, 1, 0, 1, 1, false, 2) }

  function Whole(x: Command, y: Command): Message { Append(2, 1, 0, 0, 0, [Entry(1, x), Entry(2, y)], 0) }

  /** Peer 1 has proposed in term 2. */
  function Newer(n: nat, x: Command, y: Command): Peer { Propose(Older(n, x), y) }

  lemma NewerLog(n: nat, x: Command, y: Command)
    requires n >= 3
    ensures Older(n, x).role == Leader
    ensures HasBatch(Newer(n, x, y), 0) && Batch(Newer(n, x, y), 0) == Newest(y)
    ensures var q := HandleReplicateReply(Newer(n, x, y), Refused()); HasBatch(q, 0) && Batch(q, 0) == Whole(x, y)
  {
    var p := Newer(n, x, y);
    assert p.log == [SENTINEL, Entry(1, x), Entry(2, y)];
    assert p.log[2..3] == [Entry(2, y)] && p.log[1..3] == [Entry(1, x), Entry(2, y)];
  }

  lemma RefusesNewest(cap: bool, p: Peer, list: seq<Command>, done: nat, y: Command)
    requires Holds(p, list, done) && |list| > 0
    ensures var (q, reply) := HandleAppend(Forgetful(cap), p, Newest(y));
            Holds(q, list, done) && reply == Refused()
  {
  }

  lemma TakesWhole(cap: bool, p: Peer, list: seq<Command>, done: nat, x: Command, y: Command)
    requires Holds(p, list, done) && |list| > 0
    ensures Overwritten(HandleAppend(Forgetful(cap), p, Whole(x, y)).0, x, y, done)
  {
    var entries := [Entry(1, x), Entry(2, y)];
    assert Overlap(p.log, 1, entries) == 0;
    assert entries[0..] == entries && p.log[..1] == [SENTINEL];
    assert Merge(p.log, 0, entries) == [SENTINEL, Entry(1, x), Entry(2, y)];
  }

  /** Peer 0 refuses the newest entry of peer 1. */
  lemma GetsRefused(cap: bool, n: nat, cmds: set<Command>, run: Run, list: seq<Command>, done: nat, x: Command, y: Command) returns (run': Run)
    requires PlainRun(Forgetful(cap), n, cmds, run) && |Last(run).peers| == n >= 3 && y in cmds && |list| > 0
    requires Holds(Last(run).peers[0], list, done) && Last(run).peers[1] == Older(n, x)
    ensures PlainRun(Forgetful(cap), n, cmds, run') && Continues(run, run') && |run'.steps| > |run.steps|
    ensures |Last(run').peers| == n && Holds(Last(run').peers[0], list, done) && Last(run').peers[1] == Newer(n, x, y)
    ensures Refused() in Last(run').msgs
  {
    hide HandleAppend, HasBatch, Batch, Older, Propose, Holds;
    NewerLog(n, x, y);
    var r1 := Extend(Forgetful(cap), n, cmds, run, Submit(1, y));
    var r2 := Extend(Forgetful(cap), n, cmds, r1, SendBatch(1, 0));
    RefusesNewest(cap, Last(r2).peers[0], list, done, y);
    run' := Extend(Forgetful(cap), n, cmds, r2, OnAppend(0, Newest(y)));
    ContinuesTrans(run, r1, r2);
    ContinuesTrans(run, r2, run');
  }

  /** Then it is sent the whole log. */
  lemma SendsWhole(cap: bool, n: nat, cmds: set<Command>, run: Run, list: seq<Command>, done: nat, x: Command, y: Command) returns (run': Run)
    requires PlainRun(Forgetful(cap), n, cmds, run) && |Last(run).peers| == n >= 3 && y in cmds && |list| > 0
    requires Holds(Last(run).peers[0], list, done) && Last(run).peers[1] == Older(n, x)
    ensures PlainRun(Forgetful(cap), n, cmds, run') && Continues(run, run') && |run'.steps| > |run.steps|
    ensures |Last(run').peers| == n && Holds(Last(run').peers[0], list, done) && Whole(x, y) in Last(run').msgs
  {
    hide HandleReplicateReply, HasBatch, Batch, Older, Propose, Holds;
    NewerLog(n, x, y);
    var r := GetsRefused(cap, n, cmds, run, list, done, x, y);
    var r1 := Extend(Forgetful(cap), n, cmds, r, OnBatchReply(1, Refused()));
    run' := Extend(Forgetful(cap), n, cmds, r1, SendBatch(1, 0));
    ContinuesTrans(run, r, r1);
    ContinuesTrans(run, r1, run');
  }

  /** The last step of the run overwrites what peer 0 held before it. */
  lemma Overwrites(cap: bool, n: nat, cmds: set<Command>, run: Run, list: seq<Command>, done: nat, x: Command, y: Command) returns (run': Run)
    requires PlainRun(Forgetful(cap), n, cmds, run) && |Last(run).peers| == n >= 3 && y in cmds && |list| > 0
    requires Holds(Last(run).peers[0], list, done) && Last(run).peers[1] == Older(n, x)
    ensures PlainRun(Forgetful(cap), n, cmds, run') && Continues(run, run') && |run'.steps| > |run.steps|
    ensures |Last(run').peers| == n && Overwritten(Last(run').peers[0], x, y, done)
    ensures |run'.states| > 1 && |run'.states[|run'.states| - 2].peers| == n && Holds(run'.states[|run'.states| - 2].peers[0], list, done)
  {
    hide HandleAppend, Older, Overwritten, Holds;
    var r := SendsWhole(cap, n, cmds, run, list, done, x, y);
    TakesWhole(cap, Last(r).peers[0], list, done, x, y);
    run' := Extend(Forgetful(cap), n, cmds, r, OnAppend(0, Whole(x, y)));
    ContinuesTrans(run, r, run');
  }

  /** A proposal that its leader loses within the term. */
  lemma ProposalLost(cap: bool, n: nat, x: Command, y: Command, d: Command) returns (run: Run, i: nat)
    requires n >= 3
    ensures IsRun(Forgetful(cap), n, run) && i < |run.steps| && run.steps[i] == Submit(0, d)
    ensures |run.states[i].peers| == n && run.states[i].peers[0].currentTerm == 2 && run.states[i].peers[0].log == [SENTINEL]
    ensures |Last(run).peers| == n && Overwritten(Last(run).peers[0], x, y, 0)
  {
    hide Overwritten, Holds, Empty, Older, Propose;
    EmptyIs(n);
    var cmds := {x, y, d};
    var r := TwoReigns(cap, n, cmds, x);
    i := |r.steps|;
    var r1 := Extend(Forgetful(cap), n, cmds, r, Submit(0, d));
    HoldsOne(Empty(n), d);
    run := Overwrites(cap, n, cmds, r1, [d], 0, x, y);
    assert run.states[i] == r1.states[i] == Last(r);
  }

  lemma HoldsOne(p: Peer, d: Command)
    requires p.me == 0 && p.currentTerm == 2 && p.log == [SENTINEL] && p.commitIndex == 0 && p.lastApplied == 0
    ensures Holds(Propose(p, d), [d], 0)
  {
  }

  // ---------------------------------------------------------------- what is lost can be committed

  function Sent(list: seq<Command>, j: nat): Message { Append(2, 0, j, 0, 0, Entries(2, list), 0) }

  function Acked(count: nat, j: nat): Message { AppendReply(2, 0, j, 0, count, true, 2) }

  ghost predicate Proposes(p: Peer, n: nat, list: seq<Command>) {
    && Leads(p, 0, n) && Holds(p, list, 0)
    && forall j: nat {:trigger p.nextIndex[j]} :: 2 <= j < n ==> p.nextIndex[j] == 1
  }

  lemma EmptyProposes(n: nat, list: seq<Command>)
    requires n >= 3 && |list| > 0
    ensures Proposes(AfterProposals(Empty(n), list), n, list)
  {
    hide AfterProposals, Empty;
    EmptyIs(n);
    ProposalsAppend(Empty(n), list);
    var q := AfterProposals(Empty(n), list);
    assert q.log == [SENTINEL] + Entries(2, list);
    assert q.log[|list|] == Entries(2, list)[|list| - 1];
    forall j: nat | 2 <= j < n ensures q.nextIndex[j] == 1 {
      assert j != q.me && Empty(n).nextIndex[j] == 1;
    }
  }

  lemma SentBatch(p: Peer, n: nat, list: seq<Command>, j: nat)
    requires Proposes(p, n, list) && 0 < |list| <= MAX_BATCH && 2 <= j < n
    ensures HasBatch(p, j) && Batch(p, j) == Sent(list, j)
  {
    assert p.nextIndex[j] == 1;
    assert p.log[1..1 + |list|] == Entries(2, list);
  }

  lemma SeatAccepts(cap: bool, j: nat, n: nat, list: seq<Command>)
    requires |list| > 0
    ensures HandleAppend(Forgetful(cap), Seat(j, n, 1), Sent(list, j)).1 == Acked(|list|, j)
  {
  }

  lemma Commits(cap: bool, n: nat, cmds: set<Command>, run: Run, list: seq<Command>) returns (run': Run)
    requires PlainRun(Forgetful(cap), n, cmds, run) && |Last(run).peers| == n >= 3 && Proposes(Last(run).peers[0], n, list) && |list| > 0
    requires forall j: nat {:trigger Acked(|list|, j)} :: 2 <= j < n ==> Acked(|list|, j) in Last(run).msgs
    ensures PlainRun(Forgetful(cap), n, cmds, run') && OnlyThese(Last(run), Last(run'), 0, 1)
    ensures Holds(Last(run').peers[0], list, |list|)
  {
    hide HandleReplicateReply;
    var reply := (j: nat) => Acked(|list|, j);
    run' := ReplySweep(Forgetful(cap), n, cmds, run, 0, reply, 2, n);
    RepliesCommit(Last(run).peers[0], 0, reply, 2, n, n);
  }

  /** Committed entries that are overwritten, and a commit index left beyond the end of its
      log. */
  lemma CommittedLost(cap: bool, n: nat, x: Command, y: Command, list: seq<Command>) returns (run: Run)
    requires n >= 3 && 0 < |list| <= MAX_BATCH
    ensures IsRun(Forgetful(cap), n, run) && |run.states| > 1
    ensures |Last(run).peers| == n && Overwritten(Last(run).peers[0], x, y, |list|)
    ensures |run.states[|run.states| - 2].peers| == n && Holds(run.states[|run.states| - 2].peers[0], list, |list|)
  {
    hide HandleAppend, HasBatch, Batch, Empty, Older, AfterProposals, Overwritten, Proposes, Holds;
    var cmds := {x, y} + set d | d in list;
    var r := TwoReigns(cap, n, cmds, x);
    EmptyIs(n);
    EmptyProposes(n, list);
    var r1 := SubmitSweep(Forgetful(cap), n, cmds, r, 0, list);
    forall j: nat | 2 <= j < n ensures HasBatch(Last(r1).peers[0], j) && Batch(Last(r1).peers[0], j) == Sent(list, j) {
      SentBatch(Last(r1).peers[0], n, list, j);
    }
    var r2 := SendSweep(Forgetful(cap), n, cmds, r1, 0, 2, n);
    var r3 := AppendSweep(Forgetful(cap), n, cmds, r2, (j: nat) => Sent(list, j), 2, n);
    forall j: nat | 2 <= j < n ensures Acked(|list|, j) in Last(r3).msgs {
      assert Last(r).peers[j] == Last(r2).peers[j] == Seat(j, n, 1);
      assert Last(r3).peers[j] == HandleAppend(Forgetful(cap), Last(r2).peers[j], Sent(list, j)).0;
      SeatAccepts(cap, j, n, list);
    }
    var r4 := Commits(cap, n, cmds, r3, list);
    assert Last(r4).peers[1] == Last(r3).peers[1] == Older(n, x);
    run := Overwrites(cap, n, cmds, r4, list, |list|, x, y);
  }
}
