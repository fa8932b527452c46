/** For which rules and which sizes of cluster every run is safe. */
module RaftExactly {
  import opened Commands
  import opened RaftPeer
  import opened RaftCluster
  import opened RaftInvariant
  import opened RaftRuns
  import opened RaftLostVote
  import opened RaftTheorems
  import opened RaftSmall
  import opened RaftPermanence
  import Stale = RaftStaleSuffix
  import StaleLost = RaftStaleLost
  import Lost = RaftLostProposal
  import RaftCommits

  /** No vote is lost, or a lost vote does no harm. */
  predicate VotesSafe(rules: Rules, n: nat) { rules.keepVote || n <= 2 }

  /** The same of votes and commit indices. */
  predicate CommitsSafe(rules: Rules, n: nat) { (rules.keepVote && rules.capAtVerified) || n <= 2 }

  lemma SafeVotesAreOnce(rules: Rules, n: nat, run: Run)
    requires IsRun(rules, n, run) && VotesSafe(rules, n)
    ensures OneVoteRun(rules, n, run)
  {
    if rules.keepVote {
      KeptVotesAreOnce(rules, n, run);
    } else {
      SmallRunsAreBenign(rules, n, run);
    }
  }

  lemma SafeRunsAreBenign(rules: Rules, n: nat, run: Run)
    requires IsRun(rules, n, run) && CommitsSafe(rules, n)
    ensures BenignRun(rules, n, run)
  {
    if n <= 2 {
      SmallRunsAreBenign(rules, n, run);
    } else {
      assert rules == INTENDED;
      IntendedRunsAreBenign(n, run);
    }
  }

  /** What both peers have committed before they differ. */
  function Before(rules: Rules, f: Command): seq<Command> {
    if rules.keepVote then Stale.Fill(f) else []
  }

  /** A run of an unsafe cluster in which two peers commit different commands: any two lists of
      up to 100. */
  lemma Diverges(rules: Rules, n: nat, cmds: set<Command>, f: Command, x: seq<Command>, y: seq<Command>) returns (run: Run)
    requires !CommitsSafe(rules, n)
    requires 0 < |x| == |y| <= MAX_BATCH && f in cmds && forall i :: 0 <= i < |x| ==> x[i] in cmds && y[i] in cmds
    ensures PlainRun(rules, n, cmds, run) && Diverged(Last(run), Before(rules, f) + x, Before(rules, f) + y)
  {
    if rules.keepVote {
      assert rules == Stale.Uncapped(true);
      run := Stale.TwoCommitted(true, n, cmds, f, x, y);
    } else {
      assert rules == Forgetful(rules.capAtVerified);
      run := RaftLostVote.TwoCommitted(rules.capAtVerified, n, cmds, x, y);
      assert [] + x == x && [] + y == y;
    }
  }

  /** The same for one command each. */
  lemma DivergesAt(rules: Rules, n: nat, b: Command, d: Command) returns (run: Run, k: nat)
    requires !CommitsSafe(rules, n)
    ensures IsRun(rules, n, run) && |Last(run).peers| >= 2 && k > 0
    ensures Last(run).peers[1].role == Leader && Last(run).peers[0].currentTerm == Last(run).peers[1].currentTerm
    ensures forall s :: 0 <= s < 2 ==>
              var p := Last(run).peers[s];
              p.lastApplied == 0 && k <= p.commitIndex && k < |p.log| && p.log[k].command == if s == 0 then b else d
  {
    run := Diverges(rules, n, {Nil, b, d}, Nil, [b], [d]);
    var before := Before(rules, Nil);
    k := |before| + 1;
    assert (before + [b])[k - 1] == b && (before + [d])[k - 1] == d;
  }

  // ---------------------------------------------------------------- leaders

  /** Peer s leads term t in state i of the run. */
  ghost predicate LeadsAt(run: Run, i: nat, s: nat, t: nat) {
    && i < |run.states| && s < |run.states[i].peers|
    && run.states[i].peers[s].role == Leader && run.states[i].peers[s].currentTerm == t
  }

  ghost predicate OneLeaderPerTerm(run: Run) {
    forall i: nat, j: nat, s: nat, u: nat, t: nat :: LeadsAt(run, i, s, t) && LeadsAt(run, j, u, t) ==> s == u
  }

  /** One term never has two leaders, in any run, exactly when the vote is kept or there are
      two peers at most. */
  lemma OneLeaderExactly(rules: Rules, n: nat)
    ensures (forall run :: IsRun(rules, n, run) ==> OneLeaderPerTerm(run)) <==> VotesSafe(rules, n)
  {
    if VotesSafe(rules, n) {
      forall run | IsRun(rules, n, run) ensures OneLeaderPerTerm(run) {
        SafeVotesAreOnce(rules, n, run);
        forall i: nat, j: nat, s: nat, u: nat, t: nat | LeadsAt(run, i, s, t) && LeadsAt(run, j, u, t) ensures s == u {
          ElectionSafety(rules, n, run, i, j, s, u);
        }
      }
    } else {
      var run := TwoLeaders(rules.capAtVerified, n, {});
      var last, t := |run.states| - 1, Last(run).peers[0].currentTerm;
      assert LeadsAt(run, last, 0, t) && LeadsAt(run, last, 1, t);
    }
  }

  // ---------------------------------------------------------------- logs

  ghost predicate EntryAt(run: Run, i: nat, s: nat, k: nat) {
    i < |run.states| && s < |run.states[i].peers| && k < |run.states[i].peers[s].log|
  }

  /** Entries of one term at one index have the same log up to them. */
  ghost predicate LogsAgree(run: Run) {
    forall i: nat, j: nat, s: nat, u: nat, k: nat ::
      && EntryAt(run, i, s, k) && EntryAt(run, j, u, k)
      && run.states[i].peers[s].log[k].term == run.states[j].peers[u].log[k].term
      ==> SameUpTo(run.states[i].peers[s].log, run.states[j].peers[u].log, k + 1)
  }

  /** Logs match, in any run, exactly when the vote is kept or there are two peers at most. */
  lemma LogsMatchExactly(rules: Rules, n: nat)
    ensures (forall run :: IsRun(rules, n, run) ==> LogsAgree(run)) <==> VotesSafe(rules, n)
  {
    if VotesSafe(rules, n) {
      forall run | IsRun(rules, n, run) ensures LogsAgree(run) {
        SafeVotesAreOnce(rules, n, run);
        forall i: nat, j: nat, s: nat, u: nat, k: nat |
          && EntryAt(run, i, s, k) && EntryAt(run, j, u, k)
          && run.states[i].peers[s].log[k].term == run.states[j].peers[u].log[k].term
          ensures SameUpTo(run.states[i].peers[s].log, run.states[j].peers[u].log, k + 1)
        {
          LogsMatch(rules, n, run, i, j, s, u, k);
        }
      }
    } else {
      var run := TwoLogs(rules.capAtVerified, n, Foreign(0), Foreign(1));
      var last := |run.states| - 1;
      assert EntryAt(run, last, 0, 1) && EntryAt(run, last, 1, 1);
      assert Last(run).peers[0].log[1] != Last(run).peers[1].log[1];
    }
  }

  // ---------------------------------------------------------------- what is committed

  ghost predicate CommittedAt(run: Run, i: nat, s: nat, k: nat) {
    i < |run.states| && s < |run.states[i].peers| && k <= run.states[i].peers[s].commitIndex
  }

  /** What two peers hold committed at one index, at any times, is the same. */
  ghost predicate CommittedAgrees(run: Run) {
    forall i: nat, j: nat, s: nat, u: nat, k: nat :: CommittedAt(run, i, s, k) && CommittedAt(run, j, u, k) ==>
      && EntryAt(run, i, s, k) && EntryAt(run, j, u, k)
      && SameUpTo(run.states[i].peers[s].log, run.states[j].peers[u].log, k + 1)
  }

  /** State machine safety holds in every run exactly when both rules are as intended or there
      are two peers at most. */
  lemma CommittedAgreesExactly(rules: Rules, n: nat)
    ensures (forall run :: IsRun(rules, n, run) ==> CommittedAgrees(run)) <==> CommitsSafe(rules, n)
  {
    if CommitsSafe(rules, n) {
      forall run | IsRun(rules, n, run) ensures CommittedAgrees(run) {
        SafeRunsAreBenign(rules, n, run);
        forall i: nat, j: nat, s: nat, u: nat, k: nat | CommittedAt(run, i, s, k) && CommittedAt(run, j, u, k)
          ensures EntryAt(run, i, s, k) && EntryAt(run, j, u, k)
          ensures SameUpTo(run.states[i].peers[s].log, run.states[j].peers[u].log, k + 1)
        {
          StateMachineSafety(rules, n, run, i, j, s, u, k);
        }
      }
    } else {
      var run, k := DivergesAt(rules, n, Foreign(0), Foreign(1));
      var last := |run.states| - 1;
      assert CommittedAt(run, last, 0, k) && CommittedAt(run, last, 1, k);
    }
  }

  /** A leader holds what peers of earlier terms have committed, and what peers of its own term
      have by then. */
  ghost predicate LeadersComplete(run: Run) {
    forall i: nat, j: nat, s: nat, u: nat, k: nat, t: nat ::
      && CommittedAt(run, i, s, k) && LeadsAt(run, j, u, t)
      && (t > run.states[i].peers[s].currentTerm || (i <= j && t == run.states[i].peers[s].currentTerm))
      ==> EntryAt(run, i, s, k) && SameUpTo(run.states[j].peers[u].log, run.states[i].peers[s].log, k + 1)
  }

  /** Leader completeness holds in every run exactly when both rules are as intended or there
      are two peers at most. */
  lemma LeadersCompleteExactly(rules: Rules, n: nat)
    ensures (forall run :: IsRun(rules, n, run) ==> LeadersComplete(run)) <==> CommitsSafe(rules, n)
  {
    if CommitsSafe(rules, n) {
      forall run | IsRun(rules, n, run) ensures LeadersComplete(run) {
        SafeRunsAreBenign(rules, n, run);
        forall i: nat, j: nat, s: nat, u: nat, k: nat, t: nat |
          && CommittedAt(run, i, s, k) && LeadsAt(run, j, u, t)
          && (t > run.states[i].peers[s].currentTerm || (i <= j && t == run.states[i].peers[s].currentTerm))
          ensures EntryAt(run, i, s, k) && SameUpTo(run.states[j].peers[u].log, run.states[i].peers[s].log, k + 1)
        {
          LeadersHoldCommitted(rules, n, run, i, j, s, u);
        }
      }
    } else {
      var run, k := DivergesAt(rules, n, Foreign(0), Foreign(1));
      var last, t := |run.states| - 1, Last(run).peers[1].currentTerm;
      assert CommittedAt(run, last, 0, k) && LeadsAt(run, last, 1, t);
    }
  }

  // ---------------------------------------------------------------- what is delivered

  /** No two deliveries at one index carry different commands. */
  ghost predicate DeliveredAgrees(run: Run) {
    forall i: nat, j: nat, s: nat, u: nat, k: nat, b, d :: DeliversAt(run, i, s, k, b) && DeliversAt(run, j, u, k, d) ==> b == d
  }

  /** All deliveries agree, in every run, exactly when both rules are as intended or there are
      two peers at most. */
  lemma DeliveriesAgreeExactly(rules: Rules, n: nat)
    ensures (forall run :: IsRun(rules, n, run) ==> DeliveredAgrees(run)) <==> CommitsSafe(rules, n)
  {
    if CommitsSafe(rules, n) {
      forall run | IsRun(rules, n, run) ensures DeliveredAgrees(run) {
        SafeRunsAreBenign(rules, n, run);
        forall i: nat, j: nat, s: nat, u: nat, k: nat, b, d | DeliversAt(run, i, s, k, b) && DeliversAt(run, j, u, k, d) ensures b == d {
          DeliveriesAgree(rules, n, run, i, j, s, u);
        }
      }
    } else {
      var r, k := DivergesAt(rules, n, Foreign(0), Foreign(1));
      var r0, i := DeliversLast(rules, n, r, 0, k);
      var run, j := DeliversLast(rules, n, r0, 1, k);
      StillDelivers(r0, run, i, 0, k, Foreign(0));
      assert DeliversAt(run, i, 0, k, Foreign(0)) && DeliversAt(run, j, 1, k, Foreign(1));
    }
  }

  // ---------------------------------------------------------------- what stays

  /** A proposal is still in its place at state j, if its term is still the proposer's. */
  ghost predicate ProposalKept(run: Run, i: nat, j: nat, s: nat)
    requires i < |run.steps| < |run.states| && j < |run.states|
  {
    run.steps[i].Submit? && run.steps[i].s == s && s < |run.states[i].peers| && s < |run.states[j].peers|
    && run.states[i].peers[s].currentTerm == run.states[j].peers[s].currentTerm
    ==> var k := |run.states[i].peers[s].log|;
        k < |run.states[j].peers[s].log|
        && run.states[j].peers[s].log[k] == Entry(run.states[i].peers[s].currentTerm, run.steps[i].command)
  }

  ghost predicate ProposalsKept(run: Run)
    requires |run.steps| < |run.states|
  {
    forall i: nat, j: nat, s: nat {:trigger ProposalKept(run, i, j, s)} :: i < j < |run.states| && i < |run.steps| ==> ProposalKept(run, i, j, s)
  }

  /** No proposal moves within its term, in any run, exactly when the vote is kept or there are
      two peers at most. */
  lemma ProposalsKeptExactly(rules: Rules, n: nat)
    ensures (forall run :: IsRun(rules, n, run) ==> ProposalsKept(run)) <==> VotesSafe(rules, n)
  {
    if VotesSafe(rules, n) {
      forall run | IsRun(rules, n, run) ensures ProposalsKept(run) {
        SafeVotesAreOnce(rules, n, run);
        forall i: nat, j: nat, s: nat | i < j < |run.states| && i < |run.steps| ensures ProposalKept(run, i, j, s) {
          if !ProposalKept(run, i, j, s) {
            ProposalHolds(rules, n, run, i, j, s);
          }
        }
      }
    } else {
      var run, i := Lost.ProposalLost(rules.capAtVerified, n, Foreign(0), Foreign(1), Foreign(2));
      assert !ProposalKept(run, i, |run.steps|, 0);
    }
  }

  /** From state i to state j peer s keeps what it held committed. */
  ghost predicate CommittedKept(run: Run, i: nat, j: nat, s: nat)
    requires i <= j < |run.states|
  {
    s < |run.states[i].peers| ==>
      && s < |run.states[j].peers| && run.states[i].peers[s].commitIndex < |run.states[i].peers[s].log|
      && SameUpTo(run.states[j].peers[s].log, run.states[i].peers[s].log, run.states[i].peers[s].commitIndex + 1)
  }

  /** Peer s has its indices in order. */
  ghost predicate InRangeAt(run: Run, i: nat, s: nat)
    requires i < |run.states|
  {
    s < |run.states[i].peers| ==>
      var p := run.states[i].peers[s];
      0 <= p.lastApplied <= p.commitIndex <= LastLogIndex(p.log)
  }

  ghost predicate AllKept(run: Run) {
    forall i: nat, j: nat, s: nat {:trigger CommittedKept(run, i, j, s)} :: i <= j < |run.states| ==> CommittedKept(run, i, j, s)
  }

  ghost predicate AllInRange(run: Run) {
    forall i: nat, s: nat {:trigger InRangeAt(run, i, s)} :: i < |run.states| ==> InRangeAt(run, i, s)
  }

  /** A run of an unsafe cluster that loses what it has committed, and leaves a commit index
      beyond the end of its log. */
  lemma Loses(rules: Rules, n: nat) returns (run: Run)
    requires !CommitsSafe(rules, n)
    ensures IsRun(rules, n, run) && !AllKept(run) && !AllInRange(run)
  {
    if rules.keepVote {
      run := StaleLost.CommittedLost(true, n, Nil, [Nil, Nil], [Nil, Nil]);
      var k := |run.steps|;
      assert run.states[k - 2].peers[0].log[MAX_BATCH + 1] != run.states[k - 1].peers[0].log[MAX_BATCH + 1];
      assert !CommittedKept(run, k - 2, k - 1, 0) && !InRangeAt(run, k - 1, 0);
    } else {
      run := Lost.CommittedLost(rules.capAtVerified, n, Nil, Nil, [Nil, Nil, Nil]);
      var k := |run.steps|;
      assert run.states[k - 1].peers[0].log[1] != run.states[k].peers[0].log[1];
      assert !CommittedKept(run, k - 1, k, 0) && !InRangeAt(run, k, 0);
    }
  }

  /** What is committed stays, in every run, exactly when both rules are as intended or there
      are two peers at most. */
  lemma CommittedForeverExactly(rules: Rules, n: nat)
    ensures (forall run :: IsRun(rules, n, run) ==> AllKept(run)) <==> CommitsSafe(rules, n)
  {
    if CommitsSafe(rules, n) {
      forall run | IsRun(rules, n, run) ensures AllKept(run) {
        SafeRunsAreBenign(rules, n, run);
        forall i: nat, j: nat, s: nat | i <= j < |run.states| ensures CommittedKept(run, i, j, s) {
          if s < |run.states[i].peers| {
            CommittedForever(rules, n, run, i, j, s);
          }
        }
      }
    } else {
      var run := Loses(rules, n);
    }
  }

  /** The same of the indices, and so of reading the log at the applied index. */
  lemma InRangeExactly(rules: Rules, n: nat)
    ensures (forall run :: IsRun(rules, n, run) ==> AllInRange(run)) <==> CommitsSafe(rules, n)
  {
    if CommitsSafe(rules, n) {
      forall run | IsRun(rules, n, run) ensures AllInRange(run) {
        SafeRunsAreBenign(rules, n, run);
        forall i: nat, s: nat | i < |run.states| ensures InRangeAt(run, i, s) {
          if s < |run.states[i].peers| {
            AppliedInRange(rules, n, run, i, s);
          }
        }
      }
    } else {
      var run := Loses(rules, n);
    }
  }

  // ---------------------------------------------------------------- commit indices

  /** The commit index of peer s does not fall in step i, unless it restarts. */
  ghost predicate CommitRises(run: Run, i: nat, s: nat)
    requires i < |run.steps| < |run.states|
  {
    s < |run.states[i].peers| && s < |run.states[i + 1].peers| && !RaftCommits.Restarts(run.steps[i], s)
    ==> run.states[i].peers[s].commitIndex <= run.states[i + 1].peers[s].commitIndex
  }

  ghost predicate AllRise(run: Run)
    requires |run.steps| < |run.states|
  {
    forall i: nat, s: nat {:trigger CommitRises(run, i, s)} :: i < |run.steps| ==> CommitRises(run, i, s)
  }

  /** With the cap at the verified entries no step of any run lowers a commit index. */
  lemma CappedRises(rules: Rules, c: Cluster, step: Step, s: nat)
    requires rules.capAtVerified && Enabled(c, step) && s < |c.peers| && !RaftCommits.Restarts(step, s)
    ensures s < |Do(rules, c, step).peers| && c.peers[s].commitIndex <= Do(rules, c, step).peers[s].commitIndex
  {
    hide CommitPoint, Merge;
  }

  /** Commit indices never fall but at a restart, in any run, exactly when they are capped at
      the verified entries or there are two peers at most. */
  lemma CommitRisesExactly(rules: Rules, n: nat)
    ensures (forall run :: IsRun(rules, n, run) ==> AllRise(run)) <==> rules.capAtVerified || n <= 2
  {
    if rules.capAtVerified || n <= 2 {
      forall run | IsRun(rules, n, run) ensures AllRise(run) {
        forall i: nat, s: nat | i < |run.steps| ensures CommitRises(run, i, s) {
          assert IsStep(rules, run, i);
          if s < |run.states[i].peers| && !RaftCommits.Restarts(run.steps[i], s) {
            if rules.capAtVerified {
              CappedRises(rules, run.states[i], run.steps[i], s);
            } else {
              SmallRunsAreBenign(rules, n, run);
              CommitGrows(rules, n, run, i, s);
            }
          }
        }
      }
    } else {
      var run := StaleLost.CommittedLost(rules.keepVote, n, Nil, [Nil, Nil], [Nil, Nil]);
      assert rules == Stale.Uncapped(rules.keepVote);
      assert !CommitRises(run, |run.steps| - 1, 0);
    }
  }
}
