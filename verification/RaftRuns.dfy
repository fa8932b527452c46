/** Building runs step by step, and sweeping one kind of step over many peers. */
module RaftRuns {
  import opened Commands
  import opened RaftPeer
  import opened RaftCluster

  function Last(run: Run): Cluster
    requires |run.states| > 0
  {
    run.states[|run.states| - 1]
  }

  /** run' goes on from run. */
  ghost predicate Continues(run: Run, run': Run) {
    run.states <= run'.states && run.steps <= run'.steps
  }

  lemma Advance(rules: Rules, n: nat, run: Run, step: Step) returns (run': Run)
    requires IsRun(rules, n, run) && Enabled(Last(run), step)
    ensures IsRun(rules, n, run') && Last(run') == Do(rules, Last(run), step) && Continues(run, run')
    ensures run' == Run(run.states + [Do(rules, Last(run), step)], run.steps + [step])
  {
    run' := Run(run.states + [Do(rules, Last(run), step)], run.steps + [step]);
    forall i | 0 <= i < |run'.steps| ensures IsStep(rules, run', i) {
      if i < |run.steps| {
        assert IsStep(rules, run, i);
      }
    }
  }

  lemma ContinuesTrans(a: Run, b: Run, c: Run)
    requires Continues(a, b) && Continues(b, c)
    ensures Continues(a, c)
  {
  }

  /** Step i of the run delivers command d at index k on peer s. */
  ghost predicate DeliversAt(run: Run, i: nat, s: nat, k: nat, d: Command) {
    && i < |run.steps| && i < |run.states| && run.steps[i] == Deliver(s)
    && s < |run.states[i].peers| && CanApply(run.states[i].peers[s])
    && run.states[i].peers[s].lastApplied + 1 == k && Apply(run.states[i].peers[s]).1 == d
  }

  lemma StillDelivers(run: Run, run': Run, i: nat, s: nat, k: nat, d: Command)
    requires DeliversAt(run, i, s, k, d) && Continues(run, run')
    ensures DeliversAt(run', i, s, k, d)
  {
  }

  // ---------------------------------------------------------------- without deliveries and crashes

  /** No crash, no delivery yet, and only these commands are submitted. */
  predicate Plain(step: Step, cmds: set<Command>) {
    !step.Deliver? && !step.Reboot? && !step.Interrupted? && (step.Submit? ==> step.command in cmds)
  }

  ghost predicate PlainRun(rules: Rules, n: nat, cmds: set<Command>, run: Run) {
    IsRun(rules, n, run) && forall i {:trigger run.steps[i]} :: 0 <= i < |run.steps| ==> Plain(run.steps[i], cmds)
  }

  lemma Extend(rules: Rules, n: nat, cmds: set<Command>, run: Run, step: Step) returns (run': Run)
    requires PlainRun(rules, n, cmds, run) && Enabled(Last(run), step) && Plain(step, cmds)
    ensures PlainRun(rules, n, cmds, run') && Last(run') == Do(rules, Last(run), step) && Continues(run, run')
    ensures run' == Run(run.states + [Do(rules, Last(run), step)], run.steps + [step])
  {
    run' := Advance(rules, n, run, step);
  }

  /** The peer has these commands committed from index 1 on, and has delivered nothing. */
  ghost predicate HasCommitted(p: Peer, list: seq<Command>) {
    && p.lastApplied == 0 && |list| <= p.commitIndex && |list| < |p.log|
    && forall i {:trigger list[i]} :: 0 <= i < |list| ==> p.log[i + 1].command == list[i]
  }

  /** Peers 0 and 1 have reached one term, in which peer 1 leads, and hold these commands
      committed. */
  ghost predicate Diverged(c: Cluster, x: seq<Command>, y: seq<Command>) {
    && |c.peers| >= 2 && c.peers[1].role == Leader && c.peers[0].currentTerm == c.peers[1].currentTerm
    && HasCommitted(c.peers[0], x) && HasCommitted(c.peers[1], y)
  }

  /** From c to d only the peers lo..hi have changed, and no message is lost. */
  ghost predicate OnlyThese(c: Cluster, d: Cluster, lo: nat, hi: nat) {
    && |d.peers| == |c.peers| && c.msgs <= d.msgs
    && forall j {:trigger d.peers[j]} {:trigger c.peers[j]} :: 0 <= j < |c.peers| && !(lo <= j < hi) ==> d.peers[j] == c.peers[j]
  }

  /** The peers lo..hi handle the same vote request. */
  lemma {:induction false} VoteSweep(rules: Rules, n: nat, cmds: set<Command>, run: Run, m: Message, lo: nat, hi: nat) returns (run': Run)
    requires PlainRun(rules, n, cmds, run) && lo <= hi <= |Last(run).peers|
    requires m.VoteRequest? && m in Last(run).msgs && !(lo <= m.candidate < hi)
    ensures PlainRun(rules, n, cmds, run') && OnlyThese(Last(run), Last(run'), lo, hi)
    ensures forall j {:trigger Last(run').peers[j]} {:trigger Last(run).peers[j]} :: lo <= j < hi ==>
              && Last(run').peers[j] == HandleVoteRequest(Last(run).peers[j], m).0
              && HandleVoteRequest(Last(run).peers[j], m).1 in Last(run').msgs
    decreases hi
  {
    hide HandleVoteRequest;
    run' := run;
    if lo < hi {
      var before := VoteSweep(rules, n, cmds, run, m, lo, hi - 1);
      assert Last(before).peers[hi - 1] == Last(run).peers[hi - 1];
      run' := Extend(rules, n, cmds, before, OnVoteRequest(hi - 1, m));
    }
  }

  /** The peers lo..hi each handle the append request meant for them. */
  lemma {:induction false} AppendSweep(rules: Rules, n: nat, cmds: set<Command>, run: Run, req: nat -> Message, lo: nat, hi: nat) returns (run': Run)
    requires PlainRun(rules, n, cmds, run) && lo <= hi <= |Last(run).peers|
    requires forall j {:trigger req(j)} :: lo <= j < hi ==> req(j).Append? && req(j).dest == j && req(j) in Last(run).msgs
    ensures PlainRun(rules, n, cmds, run') && OnlyThese(Last(run), Last(run'), lo, hi)
    ensures forall j {:trigger Last(run').peers[j]} {:trigger Last(run).peers[j]} :: lo <= j < hi ==>
              && req(j).Append?
              && Last(run').peers[j] == HandleAppend(rules, Last(run).peers[j], req(j)).0
              && HandleAppend(rules, Last(run).peers[j], req(j)).1 in Last(run').msgs
    decreases hi
  {
    hide HandleAppend;
    run' := run;
    if lo < hi {
      var before := AppendSweep(rules, n, cmds, run, req, lo, hi - 1);
      assert Last(before).peers[hi - 1] == Last(run).peers[hi - 1];
      assert req(hi - 1) in Last(before).msgs;
      run' := Extend(rules, n, cmds, before, OnAppend(hi - 1, req(hi - 1)));
    }
  }

  /** Leader k sends its next batch to each of the peers lo..hi. */
  lemma {:induction false} SendSweep(rules: Rules, n: nat, cmds: set<Command>, run: Run, k: nat, lo: nat, hi: nat) returns (run': Run)
    requires PlainRun(rules, n, cmds, run) && k < |Last(run).peers| && lo <= hi <= |Last(run).peers|
    requires forall j :: lo <= j < hi ==> HasBatch(Last(run).peers[k], j)
    ensures PlainRun(rules, n, cmds, run')
    ensures Last(run').peers == Last(run).peers && Last(run).msgs <= Last(run').msgs
    ensures forall j :: lo <= j < hi ==> Batch(Last(run).peers[k], j) in Last(run').msgs
    decreases hi
  {
    hide HasBatch;
    run' := run;
    if lo < hi {
      var before := SendSweep(rules, n, cmds, run, k, lo, hi - 1);
      assert HasBatch(Last(run).peers[k], hi - 1);
      run' := Extend(rules, n, cmds, before, SendBatch(k, hi - 1));
    }
  }

  /** Leader k sends a heartbeat to each of the peers lo..hi. */
  lemma {:induction false} HeartbeatSweep(rules: Rules, n: nat, cmds: set<Command>, run: Run, k: nat, lo: nat, hi: nat) returns (run': Run)
    requires PlainRun(rules, n, cmds, run) && k < |Last(run).peers| && lo <= hi <= |Last(run).peers|
    requires Last(run).peers[k].role == Leader && !(lo <= k < hi)
    ensures PlainRun(rules, n, cmds, run')
    ensures Last(run').peers == Last(run).peers && Last(run).msgs <= Last(run').msgs
    ensures forall j :: lo <= j < hi ==> Heartbeat(Last(run).peers[k], j) in Last(run').msgs
    decreases hi
  {
    run' := run;
    if lo < hi {
      var before := HeartbeatSweep(rules, n, cmds, run, k, lo, hi - 1);
      run' := Extend(rules, n, cmds, before, SendHeartbeat(k, hi - 1));
    }
  }

  /** A leader after it has handled the replies lo..hi. */
  ghost function AfterReplies(p: Peer, reply: nat -> Message, lo: nat, hi: nat): Peer
    requires lo <= hi && forall j :: lo <= j < hi ==> reply(j).AppendReply?
    decreases hi
  {
    if hi == lo then p else HandleReplicateReply(AfterReplies(p, reply, lo, hi - 1), reply(hi - 1))
  }

  lemma {:induction false} ReplySweep(rules: Rules, n: nat, cmds: set<Command>, run: Run, k: nat, reply: nat -> Message, lo: nat, hi: nat) returns (run': Run)
    requires PlainRun(rules, n, cmds, run) && k < |Last(run).peers| && lo <= hi
    requires forall j {:trigger reply(j)} :: lo <= j < hi ==>
               reply(j).AppendReply? && reply(j).leader == k && reply(j).count > 0 && reply(j) in Last(run).msgs
    ensures PlainRun(rules, n, cmds, run') && Last(run').msgs == Last(run).msgs
    ensures OnlyThese(Last(run), Last(run'), k, k + 1)
    ensures Last(run').peers[k] == AfterReplies(Last(run).peers[k], reply, lo, hi)
    decreases hi
  {
    hide HandleReplicateReply;
    run' := run;
    if lo < hi {
      var before := ReplySweep(rules, n, cmds, run, k, reply, lo, hi - 1);
      assert reply(hi - 1) in Last(before).msgs;
      run' := Extend(rules, n, cmds, before, OnBatchReply(k, reply(hi - 1)));
    }
  }

  /** A leader after it has been given these commands. */
  ghost function AfterProposals(p: Peer, list: seq<Command>): Peer {
    if |list| == 0 then p else Propose(AfterProposals(p, list[..|list| - 1]), list[|list| - 1])
  }

  function Entries(term: nat, list: seq<Command>): (r: seq<Entry>)
    ensures |r| == |list| && forall i :: 0 <= i < |list| ==> r[i] == Entry(term, list[i])
  {
    seq(|list|, i requires 0 <= i < |list| => Entry(term, list[i]))
  }

  lemma {:induction false} ProposalsAppend(p: Peer, list: seq<Command>)
    ensures var q := AfterProposals(p, list);
            && q.log == p.log + Entries(p.currentTerm, list)
            && q == p.(log := q.log, stored := q.stored, matchIndex := q.matchIndex, nextIndex := q.nextIndex)
            && |q.matchIndex| == |p.matchIndex| && |q.nextIndex| == |p.nextIndex|
            && (forall i :: 0 <= i < |p.nextIndex| && i != p.me ==> q.nextIndex[i] == p.nextIndex[i])
            && (forall i :: 0 <= i < |p.matchIndex| && i != p.me ==> q.matchIndex[i] == p.matchIndex[i])
            && ((forall i :: 0 <= i < |p.matchIndex| ==> p.matchIndex[i] <= LastLogIndex(p.log))
                ==> forall i :: 0 <= i < |q.matchIndex| ==> q.matchIndex[i] <= LastLogIndex(q.log))
  {
    if |list| > 0 {
      var before := list[..|list| - 1];
      ProposalsAppend(p, before);
      assert p.log + Entries(p.currentTerm, list)
             == (p.log + Entries(p.currentTerm, before)) + [Entry(p.currentTerm, list[|list| - 1])];
    } else {
      assert p.log + Entries(p.currentTerm, list) == p.log;
    }
  }

  /** Leader k is given these commands. */
  lemma {:induction false} SubmitSweep(rules: Rules, n: nat, cmds: set<Command>, run: Run, k: nat, list: seq<Command>) returns (run': Run)
    requires PlainRun(rules, n, cmds, run) && k < |Last(run).peers| && Last(run).peers[k].role == Leader
    requires forall i :: 0 <= i < |list| ==> list[i] in cmds
    ensures PlainRun(rules, n, cmds, run') && Last(run').msgs == Last(run).msgs
    ensures OnlyThese(Last(run), Last(run'), k, k + 1)
    ensures Last(run').peers[k] == AfterProposals(Last(run).peers[k], list)
    decreases |list|
  {
    run' := run;
    if |list| > 0 {
      var before := SubmitSweep(rules, n, cmds, run, k, list[..|list| - 1]);
      ProposalsAppend(Last(run).peers[k], list[..|list| - 1]);
      run' := Extend(rules, n, cmds, before, Submit(k, list[|list| - 1]));
    }
  }

  // ---------------------------------------------------------------- deliveries

  /** Peer k delivers up to index `top`. */
  lemma {:induction false} DeliverSweep(rules: Rules, n: nat, run: Run, k: nat, top: nat) returns (run': Run)
    requires IsRun(rules, n, run) && k < |Last(run).peers|
    requires Last(run).peers[k].lastApplied <= top <= Last(run).peers[k].commitIndex
    ensures IsRun(rules, n, run') && Continues(run, run') && Last(run').msgs == Last(run).msgs
    ensures OnlyThese(Last(run), Last(run'), k, k + 1)
    ensures Last(run').peers[k] == Last(run).peers[k].(lastApplied := top)
    decreases top
  {
    run' := run;
    if Last(run).peers[k].lastApplied < top {
      var before := DeliverSweep(rules, n, run, k, top - 1);
      run' := Advance(rules, n, before, Deliver(k));
      ContinuesTrans(run, before, run');
    }
  }

  /** The last of the deliveries up to index `top`. */
  lemma DeliversLast(rules: Rules, n: nat, run: Run, k: nat, top: nat) returns (run': Run, i: nat)
    requires IsRun(rules, n, run) && k < |Last(run).peers|
    requires Last(run).peers[k].lastApplied < top <= Last(run).peers[k].commitIndex && top < |Last(run).peers[k].log|
    ensures IsRun(rules, n, run') && Continues(run, run') && Last(run').msgs == Last(run).msgs
    ensures OnlyThese(Last(run), Last(run'), k, k + 1)
    ensures Last(run').peers[k] == Last(run).peers[k].(lastApplied := top)
    ensures DeliversAt(run', i, k, top, Last(run).peers[k].log[top].command)
  {
    var before := DeliverSweep(rules, n, run, k, top - 1);
    run' := Advance(rules, n, before, Deliver(k));
    ContinuesTrans(run, before, run');
    i := |before.steps|;
  }
}
