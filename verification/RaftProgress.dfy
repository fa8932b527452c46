/** Progress is possible: from any state that can be reached, under any rules, any majority of
    two peers or more can elect a leader that commits whatever it is given. */
module RaftProgress {
  import opened Commands
  import opened RaftPeer
  import opened RaftCluster
  import opened RaftRuns
  import opened RaftElectable
  import opened RaftTheorems
  import opened Quorums

  /** Peer s leads term t with this log. */
  ghost predicate LeadsTerm(p: Peer, s: nat, n: nat, t: nat, log: Log) {
    && p.role == Leader && p.me == s && p.peers == n && p.currentTerm == t && p.log == log
    && |p.nextIndex| == n && |p.matchIndex| == n
  }

  /** What an index needs is done: if a majority holds it, it is committed. */
  ghost predicate Settled(p: Peer, top: nat) { |Holders(p, top)| > p.peers / 2 ==> p.commitIndex >= top }

  // ---------------------------------------------------------------- one round

  /** A batch is sent to peer j, handled there, and its reply handled here. */
  lemma Round(rules: Rules, n: nat, run: Run, s: nat, j: nat) returns (run': Run)
    requires IsRun(rules, n, run) && s < |Last(run).peers| && j < |Last(run).peers| && j != s
    requires var p := Last(run).peers[s]; HasBatch(p, j) && p.me == s && Last(run).peers[j].me == j
    ensures IsRun(rules, n, run') && Continues(run, run')
    ensures var p := Last(run).peers[s];
            var (q, reply) := HandleAppend(rules, Last(run).peers[j], Batch(p, j));
            Last(run').peers == Last(run).peers[j := q][s := HandleReplicateReply(p, reply)]
  {
    var p, m := Last(run).peers[s], Batch(Last(run).peers[s], j);
    assert m.Append? && m.dest == j && m.leader == s && |m.entries| > 0;
    ReplyNames(rules, Last(run).peers[j], m);
    hide Batch, HasBatch, HandleAppend, HandleReplicateReply;
    var r := Advance(rules, n, run, SendBatch(s, j));
    var r1 := Advance(rules, n, r, OnAppend(j, m));
    run' := Advance(rules, n, r1, OnBatchReply(s, HandleAppend(rules, Last(run).peers[j], m).1));
    ContinuesTrans(run, r, r1);
    ContinuesTrans(run, r1, run');
  }

  lemma ReplyNames(rules: Rules, p: Peer, m: Message)
    requires m.Append?
    ensures var reply := HandleAppend(rules, p, m).1;
            reply.AppendReply? && reply.leader == m.leader && reply.follower == p.me && reply.count == |m.entries|
  {
  }

  /** The follower's log meets the leader's right before the next entry to be sent. */
  ghost predicate Meets(p: Peer, mine: Log, j: nat)
    requires j < |p.nextIndex| && 1 <= p.nextIndex[j] <= |p.log|
  {
    PrevMatches(mine, p.nextIndex[j] - 1, p.log[p.nextIndex[j] - 1].term)
  }

  /** Peer j can be sent entries: the leader knows less of it than it has left to send. */
  ghost predicate Sendable(p: Peer, j: nat) {
    j < |p.nextIndex| && j < |p.matchIndex| && j != p.me && 0 <= p.matchIndex[j] < p.nextIndex[j] <= LastLogIndex(p.log)
  }

  /** Only what concerns peer j, and the commit index, has changed. */
  ghost predicate OnlyOf(p: Peer, q: Peer, j: nat) {
    && |q.matchIndex| == |p.matchIndex| && |q.nextIndex| == |p.nextIndex|
    && forall i {:trigger q.matchIndex[i]} {:trigger q.nextIndex[i]} :: 0 <= i < |p.matchIndex| && i < |p.nextIndex| && i != j ==>
         q.matchIndex[i] == p.matchIndex[i] && q.nextIndex[i] == p.nextIndex[i]
  }

  lemma Refused(rules: Rules, p: Peer, f: Peer, s: nat, n: nat, t: nat, log: Log)
    requires LeadsTerm(p, s, n, t, log) && Sendable(p, f.me) && f.currentTerm <= t
    requires !Meets(p, f.log, f.me)
    ensures var (g, reply) := HandleAppend(rules, f, Batch(p, f.me));
            var q := HandleReplicateReply(p, reply);
            && g.log == f.log && g.currentTerm <= t && g.me == f.me
            && LeadsTerm(q, s, n, t, log) && OnlyOf(p, q, f.me)
            && q.matchIndex[f.me] == p.matchIndex[f.me] && q.nextIndex[f.me] == p.nextIndex[f.me] - 1 >= 1
  {
  }

  lemma AcceptedThere(rules: Rules, p: Peer, f: Peer, s: nat, n: nat, t: nat, log: Log)
    requires LeadsTerm(p, s, n, t, log) && Sendable(p, f.me) && f.currentTerm <= t
    requires Meets(p, f.log, f.me)
    ensures HasBatch(p, f.me) && Batch(p, f.me).Append?
    ensures var m := Batch(p, f.me);
            var (g, reply) := HandleAppend(rules, f, m);
            var top := m.prevLogIndex + |m.entries|;
            && m.prevLogIndex == p.nextIndex[f.me] - 1 && |m.entries| > 0 && top < |log|
            && reply == AppendReply(t, s, f.me, m.prevLogIndex, |m.entries|, true, f.currentTerm)
            && g.currentTerm == t && g.me == f.me && PrevMatches(g.log, top, log[top].term)
  {
    hide Merge, FollowerCommit;
    var m := Batch(p, f.me);
    MergedMeets(f.log, m.prevLogIndex, m.entries);
    assert m.entries[|m.entries| - 1] == log[m.prevLogIndex + |m.entries|];
  }

  lemma MergedMeets(log: Log, prev: nat, entries: seq<Entry>)
    requires prev < |log| && |entries| > 0
    ensures PrevMatches(Merge(log, prev, entries), prev + |entries|, entries[|entries| - 1].term)
  {
    MergeExact(log, prev, entries);
    hide Merge;
    assert Merge(log, prev, entries)[prev + 1 + (|entries| - 1)].term == entries[|entries| - 1].term;
  }

  lemma AcceptedHere(p: Peer, reply: Message, s: nat, n: nat, t: nat, log: Log)
    requires LeadsTerm(p, s, n, t, log) && reply.AppendReply? && Sendable(p, reply.follower)
    requires reply.success && reply.term == t >= reply.replyTerm && reply.count > 0
    requires reply.prevLogIndex == p.nextIndex[reply.follower] - 1 && log[LastLogIndex(log)].term == t
    ensures var q, j := HandleReplicateReply(p, reply), reply.follower;
            && LeadsTerm(q, s, n, t, log) && OnlyOf(p, q, j) && Settled(q, LastLogIndex(log))
            && q.matchIndex[j] == reply.prevLogIndex + reply.count && q.nextIndex[j] == q.matchIndex[j] + 1
  {
    var j, top := reply.follower, LastLogIndex(log);
    var matched := reply.prevLogIndex + reply.count;
    var r := p.(matchIndex := p.matchIndex[j := matched], nextIndex := p.nextIndex[j := matched + 1]);
    assert HandleReplicateReply(p, reply) == TryAdvanceCommit(r);
    assert Holders(TryAdvanceCommit(r), top) == Holders(r, top);
    if |Holders(r, top)| > n / 2 {
      assert Committable(r, top);
    }
  }

  /** What an accepted batch makes of both. */
  lemma Accepted(rules: Rules, p: Peer, f: Peer, s: nat, n: nat, t: nat, log: Log)
    requires LeadsTerm(p, s, n, t, log) && Sendable(p, f.me) && f.currentTerm <= t
    requires Meets(p, f.log, f.me) && log[LastLogIndex(log)].term == t
    ensures var (g, reply) := HandleAppend(rules, f, Batch(p, f.me));
            var q := HandleReplicateReply(p, reply);
            && g.currentTerm == t && g.me == f.me && LeadsTerm(q, s, n, t, log) && OnlyOf(p, q, f.me) && Settled(q, LastLogIndex(log))
            && p.nextIndex[f.me] < q.nextIndex[f.me] == q.matchIndex[f.me] + 1 <= |log| && Meets(q, g.log, f.me)
  {
    hide HandleAppend, HandleReplicateReply, Batch, Settled, OnlyOf, PrevMatches;
    AcceptedThere(rules, p, f, s, n, t, log);
    AcceptedHere(p, HandleAppend(rules, f, Batch(p, f.me)).1, s, n, t, log);
  }

  // ---------------------------------------------------------------- one follower

  /** The cluster but for leader s and follower j is as before. */
  ghost predicate Apart(c: Cluster, d: Cluster, s: nat, j: nat) {
    && |d.peers| == |c.peers| && s < |c.peers| && j < |c.peers|
    && (forall x {:trigger d.peers[x]} :: 0 <= x < |c.peers| && x != s && x != j ==> d.peers[x] == c.peers[x])
    && d.peers[j].me == c.peers[j].me && OnlyOf(c.peers[s], d.peers[s], j)
  }

  /** What the rounds between s and j start from. */
  ghost predicate Between(c: Cluster, n: nat, s: nat, j: nat, t: nat, log: Log) {
    && |c.peers| == n && s < n && j < n && j != s && c.peers[j].me == j && c.peers[j].currentTerm <= t
    && LeadsTerm(c.peers[s], s, n, t, log) && log[LastLogIndex(log)].term == t
  }

  /** A round that goes forward by a batch. */
  lemma Forward(rules: Rules, n: nat, run: Run, s: nat, j: nat, t: nat, log: Log) returns (run': Run)
    requires IsRun(rules, n, run) && Between(Last(run), n, s, j, t, log)
    requires Sendable(Last(run).peers[s], j) && Meets(Last(run).peers[s], Last(run).peers[j].log, j)
    ensures IsRun(rules, n, run') && Continues(run, run') && Apart(Last(run), Last(run'), s, j) && Between(Last(run'), n, s, j, t, log)
    ensures var p, q := Last(run).peers[s], Last(run').peers[s];
            && Settled(q, LastLogIndex(log)) && p.nextIndex[j] < q.nextIndex[j] == q.matchIndex[j] + 1 <= |log|
            && Meets(q, Last(run').peers[j].log, j)
  {
    Accepted(rules, Last(run).peers[s], Last(run).peers[j], s, n, t, log);
    hide HandleAppend, HandleReplicateReply, Batch, Settled, Meets, OnlyOf;
    run' := Round(rules, n, run, s, j);
  }

  /** A round that goes back by one. */
  lemma Backward(rules: Rules, n: nat, run: Run, s: nat, j: nat, t: nat, log: Log) returns (run': Run)
    requires IsRun(rules, n, run) && Between(Last(run), n, s, j, t, log)
    requires Sendable(Last(run).peers[s], j) && !Meets(Last(run).peers[s], Last(run).peers[j].log, j)
    ensures IsRun(rules, n, run') && Continues(run, run') && Apart(Last(run), Last(run'), s, j) && Between(Last(run'), n, s, j, t, log)
    ensures var p, q := Last(run).peers[s], Last(run').peers[s];
            q.matchIndex[j] == p.matchIndex[j] && q.nextIndex[j] == p.nextIndex[j] - 1 >= 1
  {
    Refused(rules, Last(run).peers[s], Last(run).peers[j], s, n, t, log);
    hide HandleAppend, HandleReplicateReply, Batch, Meets;
    run' := Round(rules, n, run, s, j);
  }

  lemma ApartTrans(a: Cluster, b: Cluster, c: Cluster, s: nat, j: nat)
    requires Apart(a, b, s, j) && Apart(b, c, s, j)
    ensures Apart(a, c, s, j)
  {
    forall i | 0 <= i < |a.peers[s].matchIndex| && i < |a.peers[s].nextIndex| && i != j
      ensures c.peers[s].matchIndex[i] == a.peers[s].matchIndex[i] && c.peers[s].nextIndex[i] == a.peers[s].nextIndex[i]
    {
      assert b.peers[s].matchIndex[i] == a.peers[s].matchIndex[i];
    }
  }

  /** In round after round peer j comes to hold the leader's whole log, and the leader knows. */
  lemma {:induction false} Reaches(rules: Rules, n: nat, run: Run, s: nat, j: nat, t: nat, log: Log) returns (run': Run)
    requires IsRun(rules, n, run) && Between(Last(run), n, s, j, t, log) && Sendable(Last(run).peers[s], j)
    requires Last(run).peers[s].matchIndex[j] == 0 || Meets(Last(run).peers[s], Last(run).peers[j].log, j)
    ensures IsRun(rules, n, run') && Continues(run, run') && Apart(Last(run), Last(run'), s, j) && Between(Last(run'), n, s, j, t, log)
    ensures Last(run').peers[s].matchIndex[j] == LastLogIndex(log) && Settled(Last(run').peers[s], LastLogIndex(log))
    decreases !Meets(Last(run).peers[s], Last(run).peers[j].log, j),
              if Meets(Last(run).peers[s], Last(run).peers[j].log, j) then |log| - Last(run).peers[s].nextIndex[j]
              else Last(run).peers[s].nextIndex[j]
  {
    hide Settled, Apart, Meets;
    var r;
    if Meets(Last(run).peers[s], Last(run).peers[j].log, j) {
      r := Forward(rules, n, run, s, j, t, log);
    } else {
      r := Backward(rules, n, run, s, j, t, log);
    }
    run' := r;
    if Last(r).peers[s].nextIndex[j] <= LastLogIndex(log) {
      run' := Reaches(rules, n, r, s, j, t, log);
      ContinuesTrans(run, r, run');
      ApartTrans(Last(run), Last(r), Last(run'), s, j);
    }
  }

  // ---------------------------------------------------------------- all followers

  /** The leader still has everything to learn of peer j. */
  ghost predicate Unknown(c: Cluster, s: nat, j: nat, t: nat) {
    s < |c.peers| && j < |c.peers| && j != s && c.peers[j].me == j && c.peers[j].currentTerm <= t
    && Sendable(c.peers[s], j) && c.peers[s].matchIndex[j] == 0
  }

  lemma {:induction false} AllReach(rules: Rules, n: nat, run: Run, s: nat, q: set<nat>, t: nat, log: Log) returns (run': Run)
    requires IsRun(rules, n, run) && |Last(run).peers| == n && s < n && LeadsTerm(Last(run).peers[s], s, n, t, log)
    requires log[LastLogIndex(log)].term == t && forall j :: j in q ==> Unknown(Last(run), s, j, t)
    ensures IsRun(rules, n, run') && Continues(run, run') && |Last(run').peers| == n
    ensures LeadsTerm(Last(run').peers[s], s, n, t, log) && (q == {} ==> run' == run) && (q != {} ==> Settled(Last(run').peers[s], LastLogIndex(log)))
    ensures forall j: nat {:trigger Last(run').peers[s].matchIndex[j]} :: j < n ==>
              Last(run').peers[s].matchIndex[j] == if j in q then LastLogIndex(log) else Last(run).peers[s].matchIndex[j]
    decreases |q|
  {
    run' := run;
    if q != {} {
      var j :| j in q;
      hide Settled, IsRun;
      assert Unknown(Last(run), s, j, t);
      var r := Reaches(rules, n, run, s, j, t, log);
      forall x | x in q - {j} ensures Unknown(Last(r), s, x, t) {
        assert Unknown(Last(run), s, x, t);
        assert Last(r).peers[s].matchIndex[x] == Last(run).peers[s].matchIndex[x];
      }
      run' := AllReach(rules, n, r, s, q - {j}, t, log);
      ContinuesTrans(run, r, run');
      forall x: nat | x < n
        ensures Last(run').peers[s].matchIndex[x] == if x in q then LastLogIndex(log) else Last(run).peers[s].matchIndex[x]
      {
        assert x != j ==> Last(r).peers[s].matchIndex[x] == Last(run).peers[s].matchIndex[x];
      }
    }
  }

  /** From every state of every run, under any rules, any majority of two or more can commit any
      command: the member that it elects appends it to its log, and commits it there. */
  lemma AnyMajorityCommits(rules: Rules, n: nat, run: Run, q: set<nat>, d: Command) returns (run': Run, s: nat)
    requires IsRun(rules, n, run) && Majority(q, n) && n >= 2
    ensures IsRun(rules, n, run') && Continues(run, run') && |Last(run).peers| == |Last(run').peers| == n && s in q && s < n
    ensures Last(run').peers[s].role == Leader
    ensures Last(run').peers[s].log == Last(run).peers[s].log + [Entry(Last(run').peers[s].currentTerm, d)]
    ensures Last(run').peers[s].commitIndex >= |Last(run).peers[s].log|
  {
    var r;
    r, s := AnyMajorityElects(rules, n, run, q);
    Sized(rules, n, r);
    var p := Last(r).peers[s];
    var t, log := p.currentTerm, p.log + [Entry(p.currentTerm, d)];
    hide Majority, Best, JustElected, Propose, IsRun;
    ElectedProposes(Last(r), n, s, d);
    var r1 := Advance(rules, n, r, Submit(s, d));
    ContinuesTrans(run, r, r1);
    InMajority(q, n);
    run' := AllReach(rules, n, r1, s, q - {s}, t, log);
    ContinuesTrans(run, r1, run');
    assert q - {s} != {} by {
      assert |q| > 1;
      assert |q - {s}| == |q| - 1;
    }
    MajorityHolds(Last(run').peers[s], q, s, n, t, log);
  }

  lemma InMajority(q: set<nat>, n: nat)
    requires Majority(q, n)
    ensures (forall j :: j in q ==> j < n) && |q| > n / 2
  {
  }

  /** Having proposed, the new leader has everything to learn of all others. */
  lemma ElectedProposes(c: Cluster, n: nat, s: nat, d: Command)
    requires JustElected(c, n, s) && forall j :: 0 <= j < n ==> c.peers[j].me == j
    ensures var p := c.peers[s];
            var q := Propose(p, d);
            && p.role == Leader && LeadsTerm(q, s, n, p.currentTerm, p.log + [Entry(p.currentTerm, d)])
            && forall j: nat :: j < n && j != s ==> Unknown(Set(c, s, q), s, j, p.currentTerm)
  {
    var q := Propose(c.peers[s], d);
    forall j: nat | j < n && j != s ensures Unknown(Set(c, s, q), s, j, c.peers[s].currentTerm) {
      assert c.peers[j].currentTerm <= c.peers[s].currentTerm;
    }
  }

  lemma MajorityHolds(p: Peer, q: set<nat>, s: nat, n: nat, t: nat, log: Log)
    requires LeadsTerm(p, s, n, t, log) && Majority(q, n) && Settled(p, LastLogIndex(log))
    requires forall j: nat {:trigger p.matchIndex[j]} :: j in q && j != s ==> j < n && p.matchIndex[j] == LastLogIndex(log)
    ensures p.commitIndex >= LastLogIndex(log)
  {
    var top := LastLogIndex(log);
    forall j | j in q ensures j in Holders(p, top) {
      assert j != s ==> p.matchIndex[j] == top;
    }
    SubsetSize(q, Holders(p, top));
  }
}
