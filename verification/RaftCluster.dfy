/** The whole cluster: every peer, and the set of every message ever sent.  Messages are
    never removed, which covers loss, delay, reordering and duplication. */
module RaftCluster {
  import opened Commands
  import opened RaftPeer

  datatype Cluster = Cluster(peers: seq<Peer>, msgs: set<Message>)

  /** One step is one critical section of one peer. */
  datatype Step =
    | Idle
    | Timeout(s: nat)
    | AskVotes(s: nat)
    | OnVoteRequest(s: nat, m: Message)
    | OnVoteRefused(s: nat, m: Message)
    | Win(s: nat)
    | Submit(s: nat, command: Command)
    | SendHeartbeat(s: nat, dest: nat)
    | SendBatch(s: nat, dest: nat)
    | OnAppend(s: nat, m: Message)
    | OnHeartbeatReply(s: nat, m: Message)
    | OnBatchReply(s: nat, m: Message)
    | Deliver(s: nat)
    | Reboot(s: nat)
    | Interrupted(s: nat, m: Message)

  function Init(n: nat): Cluster {
    Cluster(seq(n, i requires 0 <= i => Fresh(i, n)), {})
  }

  predicate IsGrant(m: Message, term: nat, candidate: nat) {
    m.VoteReply? && m.granted && m.term == term && m.candidate == candidate
  }

  /** The peers that granted `s` their vote in `term`.  A candidate's own vote is cast as a
      message to itself when it times out. */
  function Voters(msgs: set<Message>, term: nat, s: nat): set<nat> {
    set m | m in msgs && IsGrant(m, term, s) :: m.voter
  }

  predicate Enabled(c: Cluster, step: Step) {
    step == Idle || (step.s < |c.peers| && PeerEnabled(c, c.peers[step.s], step))
  }

  predicate PeerEnabled(c: Cluster, p: Peer, step: Step)
    requires step != Idle
  {
    match step
    case Timeout(s) => true
    case AskVotes(s) => p.role == Candidate
    case OnVoteRequest(s, m) => m in c.msgs && m.VoteRequest? && m.candidate != s
    case OnVoteRefused(s, m) => m in c.msgs && m.VoteReply? && m.candidate == s && !m.granted && m.replyTerm > m.term
    case Win(s) => p.role == Candidate && |Voters(c.msgs, p.currentTerm, s)| > |c.peers| / 2
    case Submit(s, command) => p.role == Leader
    case SendHeartbeat(s, dest) => p.role == Leader && dest < |c.peers| && dest != s
    case SendBatch(s, dest) => dest < |c.peers| && HasBatch(p, dest)
    case OnAppend(s, m) => m in c.msgs && m.Append? && m.dest == s
    case OnHeartbeatReply(s, m) => m in c.msgs && m.AppendReply? && m.leader == s && m.count == 0
    case OnBatchReply(s, m) => m in c.msgs && m.AppendReply? && m.leader == s && m.count > 0
    case Deliver(s) => CanApply(p)
    case Reboot(s) => true
    case Interrupted(s, m) =>
      m in c.msgs && ((m.VoteRequest? && m.candidate != s) || (m.Append? && m.dest == s))
  }

  function Set(c: Cluster, s: nat, p: Peer): Cluster
    requires s < |c.peers|
  {
    c.(peers := c.peers[s := p])
  }

  function Send(c: Cluster, m: Message): Cluster {
    c.(msgs := c.msgs + {m})
  }

  /** The peer once the handler of `m` has stored the new term, and nothing after it.  A crash
      there is the step Interrupted; a crash before anything is stored is Reboot. */
  function FirstStored(rules: Rules, p: Peer, m: Message): Peer
    requires m.VoteRequest? || m.Append?
  {
    if m.VoteRequest? then SeeTerm(p, m.term)
    else if m.term >= p.currentTerm then AcceptLeader(rules, p, m.term)
    else p
  }

  function Do(rules: Rules, c: Cluster, step: Step): Cluster
    requires Enabled(c, step)
  {
    if step == Idle then c
    else
      var p := c.peers[step.s];
      match step
      case Timeout(s) =>
        var q := BecomeCandidate(p);
        Send(Set(c, s, q), VoteReply(q.currentTerm, s, s, true, q.currentTerm))
      case AskVotes(s) => Send(c, VoteRequest(p.currentTerm, s, LastLogIndex(p.log), LastLogTerm(p.log)))
      case OnVoteRequest(s, m) =>
        var (q, reply) := HandleVoteRequest(p, m);
        Send(Set(c, s, q), reply)
      case OnVoteRefused(s, m) => Set(c, s, SeeTerm(p, m.replyTerm))
      case Win(s) => Set(c, s, BecomeLeader(p))
      case Submit(s, command) => Set(c, s, Propose(p, command))
      case SendHeartbeat(s, dest) => Send(c, Heartbeat(p, dest))
      case SendBatch(s, dest) => Send(c, Batch(p, dest))
      case OnAppend(s, m) =>
        var (q, reply) := HandleAppend(rules, p, m);
        Send(Set(c, s, q), reply)
      case OnHeartbeatReply(s, m) => Set(c, s, SeeTerm(p, m.replyTerm))
      case OnBatchReply(s, m) => Set(c, s, HandleReplicateReply(p, m))
      case Deliver(s) => Set(c, s, Apply(p).0)
      case Reboot(s) => Set(c, s, RaftPeer.Restart(p))
      case Interrupted(s, m) => Set(c, s, RaftPeer.Restart(FirstStored(rules, p, m)))
  }

  /** A run: a first state, and after each step the state it leads to. */
  datatype Run = Run(states: seq<Cluster>, steps: seq<Step>)

  predicate IsRun(rules: Rules, n: nat, run: Run) {
    && |run.states| == |run.steps| + 1
    && run.states[0] == Init(n)
    && forall i {:trigger IsStep(rules, run, i)} :: 0 <= i < |run.steps| ==> IsStep(rules, run, i)
  }

  predicate IsStep(rules: Rules, run: Run, i: nat)
    requires i < |run.steps| < |run.states|
  {
    && Enabled(run.states[i], run.steps[i])
    && run.states[i + 1] == Do(rules, run.states[i], run.steps[i])
  }

  /** No grant by `voter` in `term` to anyone but `candidate` has been sent. */
  predicate NoOtherGrant(msgs: set<Message>, term: nat, voter: nat, candidate: nat) {
    forall m :: m in msgs && m.VoteReply? && m.granted && m.term == term && m.voter == voter ==> m.candidate == candidate
  }

  /** The request verified every entry over which the written rule moves the commit index. */
  predicate CapIsVerified(p: Peer, m: Message)
    requires m.Append?
  {
    var verified := m.prevLogIndex + |m.entries|;
    m.leaderCommit <= p.commitIndex || m.leaderCommit <= verified
    || (m.prevLogIndex < |p.log| && LastLogIndex(Merge(p.log, m.prevLogIndex, m.entries)) <= Max(verified, p.commitIndex))
  }

  /** The step is no second grant in one term.  The written append handler makes one possible. */
  predicate VotesOnce(rules: Rules, c: Cluster, step: Step)
    requires Enabled(c, step)
  {
    step.OnVoteRequest? ==>
      rules.keepVote
      || (HandleVoteRequest(c.peers[step.s], step.m).1.granted ==> NoOtherGrant(c.msgs, step.m.term, step.s, step.m.candidate))
  }

  /** The step commits nothing past the verified entries.  The written cap makes that possible,
      but with two peers at most it does no harm. */
  predicate CommitsVerified(rules: Rules, c: Cluster, step: Step)
    requires Enabled(c, step)
  {
    step.OnAppend? ==> rules.capAtVerified || |c.peers| <= 2 || CapIsVerified(c.peers[step.s], step.m)
  }

  /** A run in which no peer votes twice in one term. */
  predicate OneVoteRun(rules: Rules, n: nat, run: Run) {
    && IsRun(rules, n, run)
    && forall i {:trigger IsStep(rules, run, i)} :: 0 <= i < |run.steps| ==> IsStep(rules, run, i) && VotesOnce(rules, run.states[i], run.steps[i])
  }

  /** A run in which, besides, no follower commits past the entries a request verified. */
  predicate BenignRun(rules: Rules, n: nat, run: Run) {
    && OneVoteRun(rules, n, run)
    && forall i {:trigger IsStep(rules, run, i)} :: 0 <= i < |run.steps| ==> IsStep(rules, run, i) && CommitsVerified(rules, run.states[i], run.steps[i])
  }
}
