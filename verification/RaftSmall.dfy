/** Clusters of at most two peers: there the written rules do no harm. */
module RaftSmall {
  import opened RaftPeer
  import opened RaftCluster
  import opened RaftInvariant
  import opened RaftSteps
  import opened RaftReplication
  import opened RaftCommits
  import opened RaftTheorems

  /** A vote of the voter's own term is kept, or it was cleared and went to somebody else. */
  ghost predicate SmallVote(c: Cluster, m: Message) {
    m.VoteReply? && m.granted && m.voter < |c.peers| && c.peers[m.voter].currentTerm == m.term ==>
      || c.peers[m.voter].votedFor == m.candidate
      || (c.peers[m.voter].votedFor == NOBODY && m.candidate != m.voter)
  }

  ghost predicate SmallVotes(c: Cluster) {
    forall m {:trigger SmallVote(c, m)} :: m in c.msgs ==> SmallVote(c, m)
  }

  /** How a step changes the vote of a peer that stays in its term. */
  ghost predicate VoteChange(step: Step, p: Peer, q: Peer) {
    || q.currentTerm > p.currentTerm
    || (q.currentTerm == p.currentTerm && q.votedFor == p.votedFor)
    || (q.currentTerm == p.currentTerm && p.votedFor == NOBODY
        && step.OnVoteRequest? && step.m.VoteRequest? && q.votedFor == step.m.candidate && step.m.candidate != step.s)
    || (q.currentTerm == p.currentTerm && q.votedFor == NOBODY
        && (step.OnAppend? || step.Interrupted?) && step.m.Append? && step.m.dest == step.s && step.m.term == p.currentTerm)
  }

  lemma StepVoteChange(rules: Rules, c: Cluster, step: Step, p: Peer)
    requires step != Idle && step.s < |c.peers| && p == c.peers[step.s] && PeerEnabled(c, p, step) && StoredOk(p)
    ensures VoteChange(step, p, Do(rules, c, step).peers[step.s])
  {
    hide CommitPoint, Merge;
    match step
    case OnBatchReply(s, m) =>
    case OnAppend(s, m) =>
    case _ =>
  }

  /** A leader is not among those who hear from it, and no ballot of its voters is for another. */
  lemma HearerVotedForOther(n: nat, h: History, c: Cluster, m: Message, vote: Message)
    requires |c.peers| == n && n <= 2 && ReignsOk(n, h) && MessagesOk(n, h, c) && BallotsOk(h, c)
    requires m in c.msgs && m.Append? && vote in c.msgs && vote.VoteReply? && vote.granted
    requires vote.term == m.term && vote.voter == m.dest
    ensures vote.candidate != vote.voter
  {
    assert MessageOk(n, h, c.peers, m) && MessageOk(n, h, c.peers, vote);
    var r := h.reigns[m.term];
    assert ReignOk(n, h, m.term, r);
    SmallMajority(r.quorum, n, m.dest);
    assert Elected(h, m.term, r, m.dest);
  }

  /** A vote seen is one that was cast, by a peer that has reached its term. */
  lemma VoteCast(n: nat, h: History, c: Cluster, vote: Message)
    requires |c.peers| == n && MessagesOk(n, h, c) && BallotsOk(h, c)
    requires vote in c.msgs && vote.VoteReply? && vote.granted
    ensures vote.voter < n && vote.candidate < n && vote.term <= c.peers[vote.voter].currentTerm
  {
    assert MessageOk(n, h, c.peers, vote);
    assert BallotOk(h, c, vote.term, vote.voter);
  }

  /** With two peers at most, no peer ever votes twice in a term for different candidates. */
  lemma SmallVotesOnce(rules: Rules, n: nat, h: History, c: Cluster, step: Step)
    requires Inv(rules, n, h, c) && n <= 2 && SmallVotes(c) && Enabled(c, step)
    ensures VotesOnce(rules, c, step)
  {
    if step.OnVoteRequest? && HandleVoteRequest(c.peers[step.s], step.m).1.granted {
      var s, m := step.s, step.m;
      assert MessageOk(n, h, c.peers, m);
      forall x | x in c.msgs && x.VoteReply? && x.granted && x.term == m.term && x.voter == s ensures x.candidate == m.candidate {
        VoteCast(n, h, c, x);
        assert SmallVote(c, x);
      }
    }
  }

  lemma OldVoteStaysSmall(rules: Rules, n: nat, h: History, c: Cluster, step: Step, vote: Message)
    requires Inv(rules, n, h, c) && n <= 2 && SmallVotes(c) && Enabled(c, step) && vote in c.msgs
    ensures SmallVote(Do(rules, c, step), vote)
  {
    hide Do;
    if vote.VoteReply? && vote.granted {
      assert SmallVote(c, vote);
      VoteCast(n, h, c, vote);
      OtherPeers(rules, c, step, vote.voter);
      if step != Idle && step.s == vote.voter {
        var p := c.peers[step.s];
        PeerIsItself(n, h, c, step.s);
        StepVoteChange(rules, c, step, p);
        if step.OnVoteRequest? {
          assert MessageOk(n, h, c.peers, step.m);
        } else if (step.OnAppend? || step.Interrupted?) && step.m.Append? && step.m.term == vote.term {
          HearerVotedForOther(n, h, c, step.m, vote);
        }
      }
    }
  }

  lemma NewVoteSmall(rules: Rules, c: Cluster, step: Step, vote: Message)
    requires Enabled(c, step) && vote in Do(rules, c, step).msgs && vote !in c.msgs
    requires step.Timeout? || step.OnVoteRequest? ==> c.peers[step.s].me == step.s
    ensures SmallVote(Do(rules, c, step), vote)
  {
  }

  lemma SmallVotesKept(rules: Rules, n: nat, h: History, c: Cluster, step: Step)
    requires Inv(rules, n, h, c) && n <= 2 && SmallVotes(c) && Enabled(c, step)
    ensures SmallVotes(Do(rules, c, step))
  {
    hide Do;
    forall vote | vote in Do(rules, c, step).msgs ensures SmallVote(Do(rules, c, step), vote) {
      if vote in c.msgs {
        OldVoteStaysSmall(rules, n, h, c, step, vote);
      } else {
        if step != Idle {
          PeerIsItself(n, h, c, step.s);
        }
        NewVoteSmall(rules, c, step, vote);
      }
    }
  }

  function Prefix(run: Run, k: nat): Run
    requires k <= |run.steps| < |run.states|
  {
    Run(run.states[..k + 1], run.steps[..k])
  }

  lemma PrefixRun(rules: Rules, n: nat, run: Run, k: nat)
    requires IsRun(rules, n, run) && k <= |run.steps|
    ensures IsRun(rules, n, Prefix(run, k))
  {
    forall i | 0 <= i < k ensures IsStep(rules, Prefix(run, k), i) {
      assert IsStep(rules, run, i);
    }
  }

  lemma {:induction false} SmallPrefix(rules: Rules, n: nat, run: Run, k: nat)
    requires IsRun(rules, n, run) && n <= 2 && k <= |run.steps|
    ensures OneVoteRun(rules, n, Prefix(run, k)) && SmallVotes(run.states[k])
  {
    PrefixRun(rules, n, run, k);
    if k > 0 {
      SmallPrefix(rules, n, run, k - 1);
      var before := Prefix(run, k - 1);
      var hs := ExplainRun(rules, n, before);
      assert Inv(rules, n, hs[k - 1], before.states[k - 1]);
      assert IsStep(rules, run, k - 1);
      SmallVotesOnce(rules, n, hs[k - 1], run.states[k - 1], run.steps[k - 1]);
      SmallVotesKept(rules, n, hs[k - 1], run.states[k - 1], run.steps[k - 1]);
      forall i | 0 <= i < k
        ensures IsStep(rules, Prefix(run, k), i)
        ensures VotesOnce(rules, Prefix(run, k).states[i], Prefix(run, k).steps[i])
      {
        if i < k - 1 {
          assert IsStep(rules, before, i) && VotesOnce(rules, before.states[i], before.steps[i]);
        }
      }
    }
  }

  /** Every run with at most two peers is benign, whatever the rules. */
  lemma SmallRunsAreBenign(rules: Rules, n: nat, run: Run)
    requires IsRun(rules, n, run) && n <= 2
    ensures BenignRun(rules, n, run)
  {
    SmallPrefix(rules, n, run, |run.steps|);
    assert Prefix(run, |run.steps|) == run;
    var hs := ExplainRun(rules, n, run);
    forall i | 0 <= i < |run.steps| ensures IsStep(rules, run, i) && CommitsVerified(rules, run.states[i], run.steps[i]) {
      assert IsStep(rules, run, i);
      StateAt(rules, n, run, hs, i);
    }
  }

  /** Under the rule that keeps the vote no run needs a side condition for votes and logs. */
  lemma KeptVotesAreOnce(rules: Rules, n: nat, run: Run)
    requires IsRun(rules, n, run) && rules.keepVote
    ensures OneVoteRun(rules, n, run)
  {
    forall i | 0 <= i < |run.steps| ensures IsStep(rules, run, i) && VotesOnce(rules, run.states[i], run.steps[i]) {
      assert IsStep(rules, run, i);
    }
  }
}
