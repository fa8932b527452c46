/** What peers learn of each other's terms and progress, under any rules. */
module RaftTerms {
  import opened Commands
  import opened RaftPeer
  import opened RaftCluster
  import opened RaftInvariant
  import opened RaftRuns
  import opened RaftTheorems

  // ---------------------------------------------------------------- terms

  /** A request of an earlier term changes nothing, and is refused with the newer term. */
  lemma EarlierRefused(rules: Rules, q: Peer, m: Message)
    requires (m.VoteRequest? || m.Append?) && m.term < q.currentTerm
    ensures m.VoteRequest? ==>
              HandleVoteRequest(q, m) == (q, VoteReply(m.term, m.candidate, q.me, false, q.currentTerm))
    ensures m.Append? ==>
              var (r, reply) := HandleAppend(rules, q, m);
              r == q && reply.AppendReply? && !reply.success && reply.term == m.term && reply.leader == m.leader
              && reply.follower == q.me && reply.replyTerm == q.currentTerm
  {
  }

  /** A peer that has followed a newer term: it has not voted in it, and has stored so. */
  ghost predicate SteppedDown(p: Peer, r: Peer, term: nat) {
    && r.role == Follower && r.currentTerm == term && r.votedFor == NOBODY && r.log == p.log
    && r.stored == Saved(term, NOBODY, p.log) && r.commitIndex == p.commitIndex && r.lastApplied == p.lastApplied
  }

  /** Whoever sent it, leads or stands, steps down when it sees that refusal; a term that is not
      newer changes nothing. */
  lemma SenderStepsDown(p: Peer, term: nat)
    ensures term > p.currentTerm ==> SteppedDown(p, SeeTerm(p, term), term)
    ensures term <= p.currentTerm ==> SeeTerm(p, term) == p
  {
  }

  lemma LeaderStepsDown(rules: Rules, p: Peer, q: Peer, m: Message)
    requires m.Append? && p.role == Leader && p.currentTerm == m.term < q.currentTerm
    ensures var reply := HandleAppend(rules, q, m).1;
            reply.AppendReply? && SteppedDown(p, HandleReplicateReply(p, reply), q.currentTerm)
  {
    EarlierRefused(rules, q, m);
  }

  lemma StepTerm(rules: Rules, c: Cluster, step: Step, s: nat)
    requires Enabled(c, step) && s < |c.peers| && StoredOk(c.peers[s])
    ensures s < |Do(rules, c, step).peers| && c.peers[s].currentTerm <= Do(rules, c, step).peers[s].currentTerm
  {
    hide CommitPoint, Merge;
  }

  /** The term of a peer never falls, over crashes and restarts. */
  lemma {:induction false} TermsRise(rules: Rules, n: nat, run: Run, i: nat, j: nat, s: nat)
    requires IsRun(rules, n, run) && i <= j < |run.states| && s < n
    ensures |run.states[i].peers| == |run.states[j].peers| == n
    ensures run.states[i].peers[s].currentTerm <= run.states[j].peers[s].currentTerm
    decreases j
  {
    StoredAt(rules, n, run, i, s);
    if i < j {
      TermsRise(rules, n, run, i, j - 1, s);
      StoredAt(rules, n, run, j - 1, s);
      assert IsStep(rules, run, j - 1);
      StepTerm(rules, run.states[j - 1], run.steps[j - 1], s);
    }
  }

  /** A leader that has fallen behind another peer's term can always be told by a heartbeat. */
  lemma OldLeaderFalls(rules: Rules, n: nat, run: Run, s: nat, j: nat) returns (run': Run)
    requires IsRun(rules, n, run) && s < n && j < n && s < |Last(run).peers| && j < |Last(run).peers|
    requires Last(run).peers[s].role == Leader && Last(run).peers[s].currentTerm < Last(run).peers[j].currentTerm
    ensures IsRun(rules, n, run') && Continues(run, run')
    ensures var p, q := Last(run).peers[s], Last(run).peers[j];
            exists r :: Last(run').peers == Last(run).peers[s := r] && SteppedDown(p, r, q.currentTerm)
  {
    var p, q := Last(run).peers[s], Last(run).peers[j];
    StoredAt(rules, n, run, |run.steps|, s);
    StoredAt(rules, n, run, |run.steps|, j);
    var m := Heartbeat(p, j);
    EarlierRefused(rules, q, m);
    SenderStepsDown(p, q.currentTerm);
    hide HandleAppend, SeeTerm;
    var reply := HandleAppend(rules, q, m).1;
    var r := Advance(rules, n, run, SendHeartbeat(s, j));
    var r1 := Advance(rules, n, r, OnAppend(j, m));
    assert Last(r1).peers == Last(run).peers && reply in Last(r1).msgs;
    run' := Advance(rules, n, r1, OnHeartbeatReply(s, reply));
    ContinuesTrans(run, r, r1);
    ContinuesTrans(run, r1, run');
    assert Last(run').peers == Last(run).peers[s := SeeTerm(p, q.currentTerm)];
  }

  /** So can a candidate, by its own request for a vote. */
  lemma OldCandidateFalls(rules: Rules, n: nat, run: Run, s: nat, j: nat) returns (run': Run)
    requires IsRun(rules, n, run) && s < n && j < n && s < |Last(run).peers| && j < |Last(run).peers|
    requires Last(run).peers[s].role == Candidate && Last(run).peers[s].currentTerm < Last(run).peers[j].currentTerm
    ensures IsRun(rules, n, run') && Continues(run, run')
    ensures var p, q := Last(run).peers[s], Last(run).peers[j];
            exists r :: Last(run').peers == Last(run).peers[s := r] && SteppedDown(p, r, q.currentTerm)
  {
    var p, q := Last(run).peers[s], Last(run).peers[j];
    var m := VoteRequest(p.currentTerm, s, LastLogIndex(p.log), LastLogTerm(p.log));
    EarlierRefused(rules, q, m);
    SenderStepsDown(p, q.currentTerm);
    hide HandleVoteRequest, SeeTerm;
    var reply := HandleVoteRequest(q, m).1;
    var r := Advance(rules, n, run, AskVotes(s));
    var r1 := Advance(rules, n, r, OnVoteRequest(j, m));
    assert Last(r1).peers == Last(run).peers && reply in Last(r1).msgs;
    run' := Advance(rules, n, r1, OnVoteRefused(s, reply));
    ContinuesTrans(run, r, r1);
    ContinuesTrans(run, r1, run');
    assert Last(run').peers == Last(run).peers[s := SeeTerm(p, q.currentTerm)];
  }

  // ---------------------------------------------------------------- crashes

  /** Any peer can crash in any state: it comes back with what was in memory of its term, vote
      and log, follows, and has committed and applied nothing. */
  lemma CanCrash(rules: Rules, n: nat, run: Run, s: nat) returns (run': Run)
    requires IsRun(rules, n, run) && s < n
    ensures IsRun(rules, n, run') && Continues(run, run') && s < |Last(run).peers|
    ensures var p := Last(run).peers[s];
            Last(run').peers == Last(run).peers[s := p.(role := Follower, commitIndex := 0, lastApplied := 0, nextIndex := [], matchIndex := [])]
  {
    StoredAt(rules, n, run, |run.steps|, s);
    run' := Advance(rules, n, run, Reboot(s));
  }

  /** And it can crash when the handler of a newer request has stored the new term and nothing
      else: it comes back in that term without a vote, and with its log. */
  lemma CanCrashInside(rules: Rules, n: nat, run: Run, s: nat, m: Message) returns (run': Run)
    requires IsRun(rules, n, run) && s < n && s < |Last(run).peers| && m in Last(run).msgs && m.term > Last(run).peers[s].currentTerm
    requires (m.VoteRequest? && m.candidate != s) || (m.Append? && m.dest == s)
    ensures IsRun(rules, n, run') && Continues(run, run') && Last(run').msgs == Last(run).msgs
    ensures exists r :: Last(run').peers == Last(run).peers[s := r] && r.currentTerm == m.term && r.votedFor == NOBODY
                        && r.log == Last(run).peers[s].log && r.role == Follower && r.commitIndex == 0
  {
    StoredAt(rules, n, run, |run.steps|, s);
    run' := Advance(rules, n, run, Interrupted(s, m));
    var r := Last(run').peers[s];
    assert Last(run').peers == Last(run).peers[s := r];
  }

  // ---------------------------------------------------------------- votes

  /** A vote that was granted is granted again to the same candidate, and nothing more changes. */
  lemma VoteRepeats(p: Peer, m: Message)
    requires m.VoteRequest? && HandleVoteRequest(p, m).1.granted
    ensures var q := HandleVoteRequest(p, m).0;
            && q.currentTerm == m.term && q.votedFor == m.candidate && q.stored == Saved(m.term, m.candidate, p.log) && q.log == p.log
            && HandleVoteRequest(q, m) == (q, VoteReply(m.term, m.candidate, p.me, true, m.term))
  {
  }

  /** A vote is granted exactly to a candidate of no earlier term whose log passes, by a peer
      that has not voted for another in that term. */
  lemma GrantedExactly(p: Peer, m: Message)
    requires m.VoteRequest?
    ensures HandleVoteRequest(p, m).1.granted <==>
              && UpToDate(m.lastLogTerm, m.lastLogIndex, p.log)
              && (m.term > p.currentTerm || (m.term == p.currentTerm && (p.votedFor == NOBODY || p.votedFor == m.candidate)))
  {
  }

  // ---------------------------------------------------------------- progress of a follower

  /** While it leads, a leader never thinks less of a follower for a late reply, and after a
      success it sends the very next entry. */
  lemma ReplyTeaches(p: Peer, m: Message)
    requires m.AppendReply? && p.role == Leader && p.currentTerm == m.term >= m.replyTerm
    requires m.follower < |p.nextIndex| && m.follower < |p.matchIndex|
    ensures var q := HandleReplicateReply(p, m);
            && q.role == Leader && q.currentTerm == p.currentTerm && q.log == p.log && q.stored == p.stored
            && |q.matchIndex| == |p.matchIndex| && |q.nextIndex| == |p.nextIndex| && q.commitIndex >= p.commitIndex
            && (forall i :: 0 <= i < |p.matchIndex| ==> q.matchIndex[i] >= p.matchIndex[i])
            && (m.success ==> q.matchIndex[m.follower] >= m.prevLogIndex + m.count && q.nextIndex[m.follower] == q.matchIndex[m.follower] + 1)
            && (!m.success ==> q.matchIndex == p.matchIndex && q.commitIndex == p.commitIndex
                               && q.nextIndex[m.follower] == if p.nextIndex[m.follower] > 1 then p.nextIndex[m.follower] - 1
                                                             else p.nextIndex[m.follower])
  {
  }

  /** A reply of another term than the leader's, or to a peer that no longer leads, is ignored. */
  lemma LateReplyIgnored(p: Peer, m: Message)
    requires m.AppendReply? && (p.role != Leader || p.currentTerm != m.term)
    ensures HandleReplicateReply(p, m) == p
  {
  }

  /** After a proposal the leader knows of its own log what it has. */
  lemma ProposerKnowsItself(p: Peer, command: Command)
    requires p.me < |p.matchIndex| && p.me < |p.nextIndex|
    requires p.matchIndex[p.me] <= LastLogIndex(p.log) && p.nextIndex[p.me] <= |p.log|
    ensures var q := Propose(p, command);
            && |q.matchIndex| == |p.matchIndex| && |q.nextIndex| == |p.nextIndex|
            && q.matchIndex[p.me] == LastLogIndex(q.log) == LastLogIndex(p.log) + 1 && q.nextIndex[p.me] == |q.log|
            && (forall i :: 0 <= i < |p.matchIndex| && i != p.me ==> q.matchIndex[i] == p.matchIndex[i])
            && (forall i :: 0 <= i < |p.nextIndex| && i != p.me ==> q.nextIndex[i] == p.nextIndex[i])
  {
  }
}
