/** The first election, in term 1, under any rules. */
module RaftElections {
  import opened Commands
  import opened RaftPeer
  import opened RaftCluster
  import opened RaftRuns
  import opened RaftMajorities

  /** Peer s standing in term 1. */
  function Standing(s: nat, n: nat): Peer { BecomeCandidate(Fresh(s, n)) }

  function Request(s: nat): Message { VoteRequest(1, s, 0, 0) }

  function OwnVote(s: nat): Message { VoteReply(1, s, s, true, 1) }

  /** Peer j in term 1, having voted for s. */
  function Voted(j: nat, n: nat, s: int): Peer { Persist(Fresh(j, n).(currentTerm := 1, votedFor := s)) }

  function Grant(s: nat, j: nat, seen: nat): Message { VoteReply(1, s, j, true, seen) }

  lemma StartRun(rules: Rules, n: nat, cmds: set<Command>) returns (run: Run)
    ensures PlainRun(rules, n, cmds, run) && Last(run) == Init(n)
  {
    run := Run([Init(n)], []);
  }

  /** A fresh peer stands and asks for votes. */
  lemma Stands(rules: Rules, n: nat, cmds: set<Command>, run: Run, s: nat) returns (run': Run)
    requires PlainRun(rules, n, cmds, run) && s < |Last(run).peers| && Last(run).peers[s] == Fresh(s, n)
    ensures PlainRun(rules, n, cmds, run') && Last(run').peers == Last(run).peers[s := Standing(s, n)]
    ensures Last(run').msgs == Last(run).msgs + {OwnVote(s), Request(s)}
  {
    run' := Extend(rules, n, cmds, run, Timeout(s));
    run' := Extend(rules, n, cmds, run', AskVotes(s));
  }

  lemma FreshVotes(j: nat, n: nat, s: nat)
    requires j != s
    ensures HandleVoteRequest(Fresh(j, n), Request(s)) == (Voted(j, n, s), Grant(s, j, 0))
  {
  }

  lemma Elects(rules: Rules, n: nat, cmds: set<Command>, run: Run, s: nat, lo: nat, seen: nat) returns (run': Run)
    requires PlainRun(rules, n, cmds, run) && |Last(run).peers| == n && s < lo <= 2 && EnoughWithout(lo, n) && Last(run).peers[s] == Standing(s, n)
    requires OwnVote(s) in Last(run).msgs && forall j: nat {:trigger Grant(s, j, seen)} :: lo <= j < n ==> Grant(s, j, seen) in Last(run).msgs
    ensures PlainRun(rules, n, cmds, run') && Last(run') == Set(Last(run), s, BecomeLeader(Standing(s, n)))
  {
    VotesWin(Last(run), 1, s, lo, n, OwnVote(s), (j: nat) => Grant(s, j, seen));
    run' := Extend(rules, n, cmds, run, Win(s));
  }

  /** The leader of term 1 when it is elected. */
  lemma ElectedIs(s: nat, n: nat)
    ensures var p := BecomeLeader(Standing(s, n));
            && p.role == Leader && p.me == s && p.peers == n && p.currentTerm == 1 && p.log == [SENTINEL]
            && p.commitIndex == 0 && p.lastApplied == 0 && |p.nextIndex| == n && |p.matchIndex| == n
            && (forall j :: 0 <= j < n ==> p.nextIndex[j] == 1) && (forall j :: 0 <= j < n ==> p.matchIndex[j] == 0)
  {
  }

  /** Peer 0 is elected by all others. */
  lemma FirstLeader(rules: Rules, n: nat, cmds: set<Command>) returns (run: Run)
    requires n >= 2
    ensures PlainRun(rules, n, cmds, run) && |Last(run).peers| == n && Last(run).peers[0] == BecomeLeader(Standing(0, n))
    ensures forall j: nat {:trigger Last(run).peers[j]} :: 1 <= j < n ==> Last(run).peers[j] == Voted(j, n, 0)
  {
    hide HandleVoteRequest;
    run := StartRun(rules, n, cmds);
    run := Stands(rules, n, cmds, run, 0);
    var c := Last(run);
    run := VoteSweep(rules, n, cmds, run, Request(0), 1, n);
    forall j: nat | 1 <= j < n ensures Last(run).peers[j] == Voted(j, n, 0) && Grant(0, j, 0) in Last(run).msgs {
      assert c.peers[j] == Fresh(j, n);
      FreshVotes(j, n, 0);
    }
    run := Elects(rules, n, cmds, run, 0, 1, 0);
  }
}
