/** What follows a stale commit: the leader's entries overwrite the committed ones, the commit
    index is left beyond the end of the log, and then falls. */
module RaftStaleLost {
  import opened Commands
  import opened RaftPeer
  import opened RaftCluster
  import opened RaftRuns
  import opened RaftMajorities
  import opened RaftStaleSuffix

  /** A batch one entry further on: its last entry is the first that peer 0 does not have. */
  function Further(f: Command, y: seq<Command>): Message
    requires |y| > 0
  {
    Append(3, 1, 0, 1, 1, Entries(1, Fill(f))[1..] + [Entry(2, y[0])], MAX_BATCH + |y|)
  }

  lemma FurtherBatch(n: nat, q: Peer, f: Command, y: seq<Command>)
    requires LeadsThird(q, n, f, y, 2) && |y| > 0
    ensures HasBatch(q, 0) && Batch(q, 0) == Further(f, y)
  {
    assert q.log[2..2 + MAX_BATCH] == Entries(1, Fill(f))[1..] + [Entry(2, y[0])];
  }

  /** Peer 1 leading term 3 with this commit index. */
  ghost predicate ThirdAt(q: Peer, n: nat, f: Command, y: seq<Command>, next: nat, done: nat) {
    && LeadsThird(q.(commitIndex := MAX_BATCH + |y|), n, f, y, next) && q.commitIndex == done
  }

  lemma CutBatch(n: nat, q: Peer, f: Command, y: seq<Command>, more: nat)
    requires ThirdAt(q, n, f, y, 1, MAX_BATCH + more)
    ensures HasBatch(q, 0) && Batch(q, 0) == Cut(f, more)
  {
    assert q.log[1..1 + MAX_BATCH] == Entries(1, Fill(f));
  }

  /** The leader steps back, and both batches are on their way. */
  ghost predicate BothSent(c: Cluster, n: nat, f: Command, x: seq<Command>, y: seq<Command>)
    requires |y| > 0
  {
    && AllHold(c, 2, n, 3, Second(f, y)) && n >= 3 && StaleThird(c.peers[0], f, x, 0)
    && LeadsThird(c.peers[1], n, f, y, 1) && NotSent(c.peers[1], n, y) && {Further(f, y), Cut(f, |y|)} <= c.msgs
  }

  lemma SendsBoth(keep: bool, n: nat, cmds: set<Command>, run: Run, f: Command, x: seq<Command>, y: seq<Command>) returns (run': Run)
    requires PlainRun(Uncapped(keep), n, cmds, run) && AtThird(Last(run), n, f, x, y) && |y| > 0
    ensures PlainRun(Uncapped(keep), n, cmds, run') && BothSent(Last(run'), n, f, x, y)
  {
    hide HasBatch, Batch, HandleReplicateReply, StaleThird, Holds;
    var q, down := Last(run).peers[1], MAX_BATCH + |y| - 1;
    var r := ReplySweep(Uncapped(keep), n, cmds, run, 1, _ => Refusal(|y|), 0, down);
    RefusalsStepBack(q, Refusal(|y|), 0, down);
    var p := Last(r).peers[1];
    FurtherBatch(n, p, f, y);
    var r1 := Extend(Uncapped(keep), n, cmds, r, SendBatch(1, 0));
    var r2 := ReplySweep(Uncapped(keep), n, cmds, r1, 1, _ => Refusal(|y|), 0, 1);
    RefusalsStepBack(p, Refusal(|y|), 0, 1);
    SteppedBack(n, Last(r2).peers[1], f, y);
    run' := Extend(Uncapped(keep), n, cmds, r2, SendBatch(1, 0));
  }

  // ---------------------------------------------------------------- the leader commits its own entry

  function Tail(f: Command, y: seq<Command>, j: nat): Message {
    Append(3, 1, j, MAX_BATCH + |y|, 2, [Entry(3, f)], MAX_BATCH + |y|)
  }

  function TailReply(y: seq<Command>, j: nat): Message { AppendReply(3, 1, j, MAX_BATCH + |y|, 1, true, 3) }

  lemma TailBatch(n: nat, q: Peer, f: Command, y: seq<Command>, j: nat)
    requires LeadsThird(q, n, f, y, 1) && NotSent(q, n, y) && 2 <= j < n && |y| > 0
    ensures HasBatch(q, j) && Batch(q, j) == Tail(f, y, j)
  {
    assert q.nextIndex[j] == MAX_BATCH + |y| + 1;
    assert q.log[MAX_BATCH + |y| + 1..MAX_BATCH + |y| + 2] == [Entry(3, f)];
  }

  lemma TailAccepted(keep: bool, p: Peer, j: nat, n: nat, f: Command, y: seq<Command>)
    requires Holds(p, j, n, 3, Second(f, y)) && |y| > 0
    ensures HandleAppend(Uncapped(keep), p, Tail(f, y, j)).1 == TailReply(y, j)
  {
  }

  /** All that is needed is on its way to peer 0. */
  ghost predicate AllSent(c: Cluster, n: nat, f: Command, x: seq<Command>, y: seq<Command>)
    requires |y| > 0
  {
    && |c.peers| == n >= 3 && StaleThird(c.peers[0], f, x, 0)
    && {Further(f, y), Cut(f, |y|), Cut(f, |y| + 1)} <= c.msgs
  }

  lemma CommitsTail(keep: bool, n: nat, cmds: set<Command>, run: Run, f: Command, x: seq<Command>, y: seq<Command>) returns (run': Run)
    requires |y| > 0 && PlainRun(Uncapped(keep), n, cmds, run) && BothSent(Last(run), n, f, x, y)
    ensures PlainRun(Uncapped(keep), n, cmds, run') && AllSent(Last(run'), n, f, x, y)
  {
    hide HandleAppend, HasBatch, Batch, HandleReplicateReply, StaleThird, Holds, LeadsThird, NotSent;
    var q := Last(run).peers[1];
    forall j: nat | 2 <= j < n ensures HasBatch(q, j) && Batch(q, j) == Tail(f, y, j) {
      TailBatch(n, q, f, y, j);
    }
    var r := SendSweep(Uncapped(keep), n, cmds, run, 1, 2, n);
    var r1 := AppendSweep(Uncapped(keep), n, cmds, r, (j: nat) => Tail(f, y, j), 2, n);
    forall j: nat | 2 <= j < n ensures TailReply(y, j) in Last(r1).msgs {
      assert Last(r1).peers[j] == HandleAppend(Uncapped(keep), Last(r).peers[j], Tail(f, y, j)).0;
      assert Holds(Last(run).peers[j], j, n, 3, Second(f, y)) && Last(r).peers[j] == Last(run).peers[j];
      TailAccepted(keep, Last(r).peers[j], j, n, f, y);
    }
    run' := TailCommitted(keep, n, cmds, r1, q, f, y);
  }

  lemma TailCommitted(keep: bool, n: nat, cmds: set<Command>, run: Run, q: Peer, f: Command, y: seq<Command>) returns (run': Run)
    requires |y| > 0 && PlainRun(Uncapped(keep), n, cmds, run) && |Last(run).peers| == n >= 3
    requires Last(run).peers[1] == q && LeadsThird(q, n, f, y, 1) && NotSent(q, n, y)
    requires forall j: nat {:trigger TailReply(y, j)} :: 2 <= j < n ==> TailReply(y, j) in Last(run).msgs
    ensures PlainRun(Uncapped(keep), n, cmds, run') && OnlyThese(Last(run), Last(run'), 1, 2) && Cut(f, |y| + 1) in Last(run').msgs
  {
    hide HandleReplicateReply, HasBatch, Batch;
    var reply := (j: nat) => TailReply(y, j);
    var r := ReplySweep(Uncapped(keep), n, cmds, run, 1, reply, 2, n);
    RepliesCommit(q, 1, reply, 2, n, n);
    CutBatch(n, Last(r).peers[1], f, y, |y| + 1);
    run' := Extend(Uncapped(keep), n, cmds, r, SendBatch(1, 0));
  }

  // ---------------------------------------------------------------- peer 0 loses what it committed

  /** Peer 0 with the first of the leader's entries in place of its own. */
  ghost predicate Overwritten(p: Peer, f: Command, y: seq<Command>, done: nat) {
    |y| > 0 && p.log == Common(f) + [Entry(2, y[0])] && p.currentTerm == 3 && p.commitIndex == done && p.lastApplied == 0
  }

  lemma TakesFurther(keep: bool, p: Peer, f: Command, x: seq<Command>, y: seq<Command>)
    requires StaleThird(p, f, x, MAX_BATCH + |x|) && |x| == |y| > 0
    ensures Overwritten(HandleAppend(Uncapped(keep), p, Further(f, y)).0, f, y, MAX_BATCH + |x|)
  {
    var entries := Further(f, y).entries;
    OverlapMeets(p.log, 2, entries);
    assert p.log[MAX_BATCH + 1] == Entry(1, x[0]) && entries[MAX_BATCH - 1] == Entry(2, y[0]);
    assert Overlap(p.log, 2, entries) == MAX_BATCH - 1;
    assert p.log[..MAX_BATCH + 1] == Common(f) && entries[MAX_BATCH - 1..] == [Entry(2, y[0])];
    hide Overlap;
    assert Merge(p.log, 1, entries) == Common(f) + [Entry(2, y[0])];
  }

  lemma FallsBack(keep: bool, p: Peer, f: Command, y: seq<Command>)
    requires Overwritten(p, f, y, MAX_BATCH + |y|)
    ensures Overwritten(HandleAppend(Uncapped(keep), p, Cut(f, |y| + 1)).0, f, y, MAX_BATCH + 1)
  {
    MergeExact(p.log, 0, Entries(1, Fill(f)));
    hide Merge;
  }

  lemma ReachesAllSent(keep: bool, n: nat, cmds: set<Command>, f: Command, x: seq<Command>, y: seq<Command>) returns (run: Run)
    requires n >= 3 && 0 < |x| == |y| <= MAX_BATCH && f in cmds && forall i :: 0 <= i < |x| ==> x[i] in cmds && y[i] in cmds
    ensures PlainRun(Uncapped(keep), n, cmds, run) && AllSent(Last(run), n, f, x, y)
  {
    hide AtThird, BothSent, AllSent;
    run := ThirdTerm(keep, n, cmds, f, x, y);
    run := SendsBoth(keep, n, cmds, run, f, x, y);
    run := CommitsTail(keep, n, cmds, run, f, x, y);
  }

  /** The last three steps of a run commit a stale entry, overwrite it, and lower the commit
      index. */
  ghost predicate CommitsAndLoses(run: Run, n: nat, f: Command, x: seq<Command>, y: seq<Command>) {
    var k := |run.steps|;
    && |run.states| == k + 1 > 2 && n > 0
    && |run.states[k - 2].peers| == |run.states[k - 1].peers| == |run.states[k].peers| == n
    && StaleThird(run.states[k - 2].peers[0], f, x, MAX_BATCH + |x|)
    && Overwritten(run.states[k - 1].peers[0], f, y, MAX_BATCH + |x|)
    && Overwritten(run.states[k].peers[0], f, y, MAX_BATCH + 1) && run.steps[k - 1].OnAppend?
  }

  lemma LastThree(keep: bool, n: nat, cmds: set<Command>, run: Run, f: Command, x: seq<Command>, y: seq<Command>) returns (run': Run)
    requires |x| == |y| > 0 && PlainRun(Uncapped(keep), n, cmds, run) && AllSent(Last(run), n, f, x, y)
    ensures IsRun(Uncapped(keep), n, run') && CommitsAndLoses(run', n, f, x, y)
  {
    hide HandleAppend, StaleThird, Overwritten, Cut, Further;
    CommitsStale(keep, Last(run).peers[0], f, x);
    var r1 := Extend(Uncapped(keep), n, cmds, run, OnAppend(0, Cut(f, |y|))) by {
      SentToZero(f, y);
    }
    TakesFurther(keep, Last(r1).peers[0], f, x, y);
    SentToZero(f, y);
    var r2 := Extend(Uncapped(keep), n, cmds, r1, OnAppend(0, Further(f, y)));
    FallsBack(keep, Last(r2).peers[0], f, y);
    run' := Extend(Uncapped(keep), n, cmds, r2, OnAppend(0, Cut(f, |y| + 1)));
  }

  lemma SentToZero(f: Command, y: seq<Command>)
    requires |y| > 0
    ensures Further(f, y).Append? && Further(f, y).dest == 0
    ensures forall count :: Cut(f, count).Append? && Cut(f, count).dest == 0
  {
  }

  /** Where the commit index is not capped at the verified entries, what is committed can be
      lost. */
  lemma CommittedLost(keep: bool, n: nat, f: Command, x: seq<Command>, y: seq<Command>) returns (run: Run)
    requires n >= 3 && 0 < |x| == |y| <= MAX_BATCH
    ensures IsRun(Uncapped(keep), n, run) && CommitsAndLoses(run, n, f, x, y)
  {
    hide AllSent, CommitsAndLoses;
    var cmds := {f} + (set d | d in x) + (set d | d in y);
    run := ReachesAllSent(keep, n, cmds, f, x, y);
    run := LastThree(keep, n, cmds, run, f, x, y);
  }
}
