/** Votes are not withheld: from any state that can be reached, under any rules, any majority
    of the peers can elect one of its members. */
module RaftElectable {
  import opened Commands
  import opened RaftPeer
  import opened RaftCluster
  import opened RaftRuns
  import opened RaftTheorems
  import opened Quorums

  /** A candidate with log a passes the check of a voter with log b. */
  predicate Passes(a: Log, b: Log) { UpToDate(LastLogTerm(a), LastLogIndex(a), b) }

  /** Of any two logs one passes for the other, and what passes for one that passes, passes. */
  lemma PassesOrders(a: Log, b: Log, c: Log)
    ensures Passes(a, b) || Passes(b, a)
    ensures Passes(a, b) && Passes(b, c) ==> Passes(a, c)
    ensures Passes(a, b) && Passes(b, a) <==> LastLogTerm(a) == LastLogTerm(b) && |a| == |b|
  {
  }

  /** The last term alone decides, unless it is the same. */
  lemma LaterTermPasses(a: Log, b: Log)
    requires LastLogTerm(a) != LastLogTerm(b)
    ensures Passes(a, b) <==> LastLogTerm(a) > LastLogTerm(b)
  {
  }

  ghost predicate Best(c: Cluster, q: set<nat>, s: nat) {
    s in q && forall j :: j in q ==> j < |c.peers| && s < |c.peers| && Passes(c.peers[s].log, c.peers[j].log)
  }

  /** Some member of any set of peers passes for all of them. */
  lemma {:induction false} SomeBest(c: Cluster, q: set<nat>) returns (s: nat)
    requires q != {} && forall j :: j in q ==> j < |c.peers|
    ensures Best(c, q, s)
  {
    var j :| j in q;
    var rest := q - {j};
    s := j;
    if rest != {} {
      var r := SomeBest(c, rest);
      if Passes(c.peers[r].log, c.peers[j].log) {
        s := r;
      } else {
        forall x | x in q ensures Passes(c.peers[j].log, c.peers[x].log) {
          PassesOrders(c.peers[j].log, c.peers[r].log, c.peers[x].log);
        }
      }
    } else {
      forall x | x in q ensures x == j {
        assert x !in rest;
      }
    }
  }

  /** A term that no peer has passed. */
  lemma {:induction false} SomeTerm(peers: seq<Peer>) returns (t: nat)
    ensures forall j :: 0 <= j < |peers| ==> peers[j].currentTerm <= t
  {
    t := 0;
    if |peers| > 0 {
      var last := |peers| - 1;
      var r := SomeTerm(peers[..last]);
      t := Max(r, peers[last].currentTerm);
      forall j | 0 <= j < |peers| ensures peers[j].currentTerm <= t {
        assert j < last ==> peers[..last][j].currentTerm <= r;
      }
    }
  }

  /** Peer s stands again and again, up to term t. */
  lemma {:induction false} StandsUpTo(rules: Rules, n: nat, run: Run, s: nat, t: nat) returns (run': Run)
    requires IsRun(rules, n, run) && s < |Last(run).peers| && Last(run).peers[s].currentTerm < t
    ensures IsRun(rules, n, run') && Continues(run, run') && OnlyThese(Last(run), Last(run'), s, s + 1)
    ensures var p := Last(run').peers[s];
            && p.role == Candidate && p.currentTerm == t && p.log == Last(run).peers[s].log
            && p.me == Last(run).peers[s].me && p.peers == Last(run).peers[s].peers
            && VoteReply(t, s, s, true, t) in Last(run').msgs
    decreases t - Last(run).peers[s].currentTerm
  {
    var r := Advance(rules, n, run, Timeout(s));
    run' := r;
    if Last(r).peers[s].currentTerm < t {
      run' := StandsUpTo(rules, n, r, s, t);
      ContinuesTrans(run, r, run');
    }
  }

  /** A peer of an earlier term that the candidate passes for grants its vote. */
  lemma Grants(p: Peer, m: Message)
    requires m.VoteRequest? && p.currentTerm < m.term && UpToDate(m.lastLogTerm, m.lastLogIndex, p.log)
    ensures HandleVoteRequest(p, m).1 == VoteReply(m.term, m.candidate, p.me, true, p.currentTerm)
    ensures HandleVoteRequest(p, m).0.currentTerm == m.term
  {
  }

  /** Peer j has not seen the election yet, and has a log that the candidate passes for. */
  ghost predicate Open(c: Cluster, m: Message, j: nat) {
    && m.VoteRequest? && j < |c.peers| && j != m.candidate && c.peers[j].me == j && c.peers[j].currentTerm < m.term
    && UpToDate(m.lastLogTerm, m.lastLogIndex, c.peers[j].log)
  }

  /** All members of q vote for the candidate. */
  lemma {:induction false} AllGrant(rules: Rules, n: nat, run: Run, m: Message, q: set<nat>) returns (run': Run)
    requires IsRun(rules, n, run) && m.VoteRequest? && m in Last(run).msgs
    requires forall j :: j in q ==> Open(Last(run), m, j)
    ensures IsRun(rules, n, run') && Continues(run, run') && Last(run).msgs <= Last(run').msgs
    ensures |Last(run').peers| == |Last(run).peers|
    ensures forall j: nat {:trigger Last(run').peers[j]} :: j < |Last(run).peers| && j !in q ==> Last(run').peers[j] == Last(run).peers[j]
    ensures forall j: nat :: j in q ==> j in Voters(Last(run').msgs, m.term, m.candidate)
    ensures forall j: nat {:trigger Last(run').peers[j]} :: j in q && j < |Last(run).peers| ==> Last(run').peers[j].currentTerm == m.term
    decreases |q|
  {
    run' := run;
    if q != {} {
      var j :| j in q;
      hide HandleVoteRequest;
      Grants(Last(run).peers[j], m);
      assert Open(Last(run), m, j);
      var r := Advance(rules, n, run, OnVoteRequest(j, m));
      var grant := VoteReply(m.term, m.candidate, j, true, Last(run).peers[j].currentTerm);
      assert grant in Last(r).msgs;
      forall x | x in q - {j} ensures Open(Last(r), m, x) {
        assert Open(Last(run), m, x);
      }
      run' := AllGrant(rules, n, r, m, q - {j});
      ContinuesTrans(run, r, run');
      assert Last(run').peers[j] == Last(r).peers[j];
      assert grant in Last(run').msgs && IsGrant(grant, m.term, m.candidate) && grant.voter == j;
    }
  }

  /** Peer s has just become leader, in a term that nobody has passed. */
  ghost predicate JustElected(c: Cluster, n: nat, s: nat) {
    && |c.peers| == n && s < n
    && (exists p :: c.peers[s] == BecomeLeader(p) && p.me == s && p.peers == n)
    && forall j: nat {:trigger c.peers[j]} :: j < n ==> c.peers[j].currentTerm <= c.peers[s].currentTerm
  }

  /** From every state of every run, under any rules, any majority can elect the member whose
      log passes for all of it. */
  lemma AnyMajorityElects(rules: Rules, n: nat, run: Run, q: set<nat>) returns (run': Run, s: nat)
    requires IsRun(rules, n, run) && Majority(q, n)
    ensures IsRun(rules, n, run') && Continues(run, run') && |Last(run).peers| == |Last(run').peers| == n
    ensures Best(Last(run), q, s) && Last(run').peers[s].role == Leader && Last(run').peers[s].log == Last(run).peers[s].log
    ensures forall j: nat {:trigger Last(run).peers[j]} :: j < n ==> Last(run').peers[s].currentTerm > Last(run).peers[j].currentTerm
    ensures JustElected(Last(run'), n, s)
  {
    Sized(rules, n, run);
    s := SomeBest(Last(run), q);
    var t := SomeTerm(Last(run).peers);
    var c := Last(run);
    var r, m := StandsAndAsks(rules, n, run, s, t + 1);
    var p := Last(r).peers[s];
    forall j | j in q - {s} ensures Open(Last(r), m, j) {
      assert Last(r).peers[j] == c.peers[j] && Passes(c.peers[s].log, c.peers[j].log);
    }
    hide Open, Best, Passes;
    var r1 := AllGrant(rules, n, r, m, q - {s});
    ContinuesTrans(run, r, r1);
    assert Last(r1).peers[s] == p;
    EnoughVotes(Last(r1), q, s, t + 1, n);
    run' := Advance(rules, n, r1, Win(s));
    ContinuesTrans(run, r1, run');
    assert Last(run').peers[s] == BecomeLeader(p) && p.me == s && p.peers == n;
  }

  /** Peer s stands in term t and asks for votes. */
  lemma StandsAndAsks(rules: Rules, n: nat, run: Run, s: nat, t: nat) returns (run': Run, m: Message)
    requires IsRun(rules, n, run) && s < |Last(run).peers| && Last(run).peers[s].currentTerm < t
    ensures IsRun(rules, n, run') && Continues(run, run') && OnlyThese(Last(run), Last(run'), s, s + 1)
    ensures var p := Last(run').peers[s];
            && p.role == Candidate && p.currentTerm == t && p.log == Last(run).peers[s].log
            && p.me == Last(run).peers[s].me && p.peers == Last(run).peers[s].peers
            && VoteReply(t, s, s, true, t) in Last(run').msgs
            && m == VoteRequest(t, s, LastLogIndex(p.log), LastLogTerm(p.log)) && m in Last(run').msgs
  {
    var r := StandsUpTo(rules, n, run, s, t);
    run' := Advance(rules, n, r, AskVotes(s));
    ContinuesTrans(run, r, run');
    m := VoteRequest(t, s, LastLogIndex(Last(r).peers[s].log), LastLogTerm(Last(r).peers[s].log));
  }

  lemma Sized(rules: Rules, n: nat, run: Run)
    requires IsRun(rules, n, run)
    ensures |Last(run).peers| == n
    ensures forall j :: 0 <= j < n ==> Last(run).peers[j].me == j && Last(run).peers[j].peers == n
  {
    SizedAt(rules, n, run, |run.steps|);
    forall j | 0 <= j < n ensures Last(run).peers[j].me == j && Last(run).peers[j].peers == n {
      StoredAt(rules, n, run, |run.steps|, j);
    }
  }

  lemma {:induction false} SizedAt(rules: Rules, n: nat, run: Run, i: nat)
    requires IsRun(rules, n, run) && i < |run.states|
    ensures |run.states[i].peers| == n
  {
    if i > 0 {
      SizedAt(rules, n, run, i - 1);
      assert IsStep(rules, run, i - 1);
    }
  }

  lemma EnoughVotes(c: Cluster, q: set<nat>, s: nat, t: nat, n: nat)
    requires Majority(q, n) && VoteReply(t, s, s, true, t) in c.msgs
    requires forall j: nat :: j in q - {s} ==> j in Voters(c.msgs, t, s)
    ensures |Voters(c.msgs, t, s)| > n / 2
  {
    var own := VoteReply(t, s, s, true, t);
    assert IsGrant(own, t, s) && own.voter in Voters(c.msgs, t, s);
    SubsetSize(q, Voters(c.msgs, t, s));
  }
}
