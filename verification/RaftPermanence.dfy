/** What never changes once it is there: committed prefixes, and a leader's own proposals
    for as long as it stays in its term. */
module RaftPermanence {
  import opened Commands
  import opened RaftPeer
  import opened RaftCluster
  import opened RaftInvariant
  import opened RaftMoves
  import opened RaftSteps
  import opened RaftReplication
  import opened RaftCommits
  import opened RaftTheorems

  /** A state, the step taken from it and one peer before and after. */
  lemma StepAt(rules: Rules, n: nat, run: Run, hs: seq<History>, i: nat, s: nat)
    requires IsRun(rules, n, run) && Explained(rules, n, run, hs) && i + 1 < |run.states| && s < |run.states[i].peers|
    ensures |run.states[i].peers| == n && |run.states[i + 1].peers| == n
    ensures Inv(rules, n, hs[i], run.states[i]) && Enabled(run.states[i], run.steps[i]) && Grows(hs[i], hs[i + 1])
    ensures Moves(rules, run.steps[i], s, run.states[i].peers[s], run.states[i + 1].peers[s])
  {
    assert Inv(rules, n, hs[i], run.states[i]) && Inv(rules, n, hs[i + 1], run.states[i + 1]);
    assert Grows(hs[i], hs[i + 1]);
    assert IsStep(rules, run, i);
    PeerIsItself(n, hs[i], run.states[i], s);
    StepMoves(rules, run.states[i], run.steps[i], s);
  }

  lemma NextCommitted(rules: Rules, n: nat, run: Run, hs: seq<History>, i: nat, s: nat, k: nat)
    requires BenignRun(rules, n, run) && Explained(rules, n, run, hs) && i + 1 < |run.states|
    requires s < |run.states[i].peers| && k < |run.states[i].peers[s].log|
    requires CommitOk(n, hs[i], run.states[i].peers[s].log, k, run.states[i].peers[s].currentTerm)
    ensures |run.states[i + 1].peers| == |run.states[i].peers|
    ensures var p, q := run.states[i].peers[s], run.states[i + 1].peers[s];
            SameUpTo(q.log, p.log, k + 1) && CommitOk(n, hs[i + 1], q.log, k, q.currentTerm)
  {
    var p := run.states[i].peers[s];
    StepAt(rules, n, run, hs, i, s);
    var q := run.states[i + 1].peers[s];
    StepKeepsCommitted(rules, n, hs[i], run.states[i], run.steps[i], s, k, q);
    CommitOkGrows(n, hs[i], hs[i + 1], p.log, k, p.currentTerm, q.currentTerm);
    SameSym(q.log, p.log, k + 1);
    CommitOkMoves(n, hs[i + 1], p.log, q.log, k, q.currentTerm, q.currentTerm);
  }

  lemma SameTrans(a: seq<Entry>, b: seq<Entry>, d: seq<Entry>, k: nat)
    requires SameUpTo(a, b, k) && SameUpTo(b, d, k)
    ensures SameUpTo(a, d, k)
  {
  }

  lemma {:induction false} StillCommitted(rules: Rules, n: nat, run: Run, hs: seq<History>, i: nat, j: nat, s: nat)
    requires BenignRun(rules, n, run) && Explained(rules, n, run, hs) && Backed(n, run, hs)
    requires i <= j < |run.states| && s < |run.states[i].peers|
    ensures |run.states[j].peers| == |run.states[i].peers|
    ensures var p, q := run.states[i].peers[s], run.states[j].peers[s];
            && p.commitIndex < |p.log| && SameUpTo(q.log, p.log, p.commitIndex + 1)
            && CommitOk(n, hs[j], q.log, p.commitIndex, q.currentTerm)
    decreases j
  {
    var p := PeerAt(rules, n, run, hs, i, i, s);
    p := CommitAt(rules, n, run, hs, i, i, s);
    if i < j {
      StillCommitted(rules, n, run, hs, i, j - 1, s);
      NextCommitted(rules, n, run, hs, j - 1, s, p.commitIndex);
      SameTrans(run.states[j].peers[s].log, run.states[j - 1].peers[s].log, p.log, p.commitIndex + 1);
    }
  }

  /** Committed prefixes are permanent: what a peer held committed once stays at the front of
      its log for the rest of the run, across truncations, new terms, crashes and restarts. */
  lemma CommittedForever(rules: Rules, n: nat, run: Run, i: nat, j: nat, s: nat)
    requires BenignRun(rules, n, run) && i <= j < |run.states| && s < |run.states[i].peers|
    ensures s < |run.states[j].peers| && run.states[i].peers[s].commitIndex < |run.states[i].peers[s].log|
    ensures SameUpTo(run.states[j].peers[s].log, run.states[i].peers[s].log, run.states[i].peers[s].commitIndex + 1)
  {
    var hs := BackRun(rules, n, run);
    StillCommitted(rules, n, run, hs, i, j, s);
  }

  /** The commit index of a peer falls only when it restarts. */
  lemma CommitGrows(rules: Rules, n: nat, run: Run, i: nat, s: nat)
    requires BenignRun(rules, n, run) && i < |run.steps| && s < |run.states[i].peers|
    ensures s < |run.states[i + 1].peers|
    ensures Restarts(run.steps[i], s) || run.states[i].peers[s].commitIndex <= run.states[i + 1].peers[s].commitIndex
  {
    var hs := BackRun(rules, n, run);
    StepAt(rules, n, run, hs, i, s);
    if run.steps[i].OnAppend? && run.steps[i].s == s {
      assert IsStep(rules, run, i) && CommitsVerified(rules, run.states[i], run.steps[i]);
      assert CommitsOk(n, hs[i], run.states[i]);
      AppendPeer(rules, run.states[i], run.steps[i]);
      AppendCommit(rules, n, hs[i], run.states[i], s, run.steps[i].m, run.states[i + 1].peers[s]);
    }
  }

  /** Right after a proposal, the proposer has acknowledged it to its own reign. */
  lemma ProposalAcked(rules: Rules, n: nat, run: Run, hs: seq<History>, i: nat, s: nat)
    requires OneVoteRun(rules, n, run) && Explained(rules, n, run, hs) && i + 1 < |run.states|
    requires run.steps[i].Submit? && run.steps[i].s == s && s < |run.states[i].peers|
    ensures s < |run.states[i + 1].peers|
    ensures var p, h := run.states[i].peers[s], hs[i + 1];
            && p.currentTerm in h.reigns && |p.log| < |h.reigns[p.currentTerm].log|
            && h.reigns[p.currentTerm].log[|p.log|] == Entry(p.currentTerm, run.steps[i].command)
            && (p.currentTerm, s) in h.acks && h.acks[(p.currentTerm, s)] >= |p.log|
  {
    assert IsStep(rules, run, i);
    assert Inv(rules, n, hs[i + 1], run.states[i + 1]);
    PeerIsItself(n, hs[i + 1], run.states[i + 1], s);
  }

  /** What a peer acknowledged to the reign of the term it is still in, it still holds. */
  lemma AckedHeld(n: nat, h: History, c: Cluster, s: nat, t: nat, k: nat)
    requires AcksOk(h, c) && s < |c.peers| && c.peers[s].currentTerm == t
    requires (t, s) in h.acks && k <= h.acks[(t, s)]
    ensures t in h.reigns && SameUpTo(c.peers[s].log, h.reigns[t].log, k + 1)
  {
    assert AckOk(h, c.peers, t, s);
    RetainedNow(h, t, h.acks[(t, s)], c.peers[s].log);
  }

  /** A proposal keeps its place: while the proposer's term is still the one in which it
      proposed, its log holds that entry at that index. */
  lemma ProposalHolds(rules: Rules, n: nat, run: Run, i: nat, j: nat, s: nat)
    requires OneVoteRun(rules, n, run) && i < j < |run.states|
    requires run.steps[i].Submit? && run.steps[i].s == s && s < |run.states[i].peers| && s < |run.states[j].peers|
    requires run.states[i].peers[s].currentTerm == run.states[j].peers[s].currentTerm
    ensures |run.states[i].peers[s].log| < |run.states[j].peers[s].log|
    ensures run.states[j].peers[s].log[|run.states[i].peers[s].log|] == Entry(run.states[i].peers[s].currentTerm, run.steps[i].command)
  {
    var hs := ExplainRun(rules, n, run);
    ProposalAcked(rules, n, run, hs, i, s);
    var t, k := run.states[i].peers[s].currentTerm, |run.states[i].peers[s].log|;
    var h, h' := hs[i + 1], hs[j];
    assert Grows(h, h') && ReignGrows(h.reigns[t], h'.reigns[t], t);
    assert (t, s) in h'.acks;
    StateAt(rules, n, run, hs, j);
    AckedHeld(n, h', run.states[j], s, t, k);
    assert h'.reigns[t].log[k] == h.reigns[t].log[k];
  }
}
