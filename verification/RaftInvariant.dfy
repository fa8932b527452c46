/** The inductive invariant behind Raft's safety.  It speaks of a history that no peer
    stores: who reigned in each term and with which log, what each ballot was cast on,
    and how far each peer has acknowledged each reign. */
module RaftInvariant {
  import opened RaftPeer
  import opened RaftCluster
  import opened Quorums

  /** One elected term: its leader, the log it was elected on, the log it has written
      since, and the voters that elected it. */
  datatype Reign = Reign(leader: nat, elected: Log, log: Log, quorum: set<nat>)

  /** A vote: for whom, and the voter's log when it was cast. */
  datatype Ballot = Ballot(candidate: nat, log: Log)

  /** reigns: by term.  ballots: by (term, voter).  acks: by (term, peer), the last index
      of that reign's log which the peer has acknowledged. */
  datatype History = History(
    reigns: map<nat, Reign>,
    ballots: map<(nat, nat), Ballot>,
    acks: map<(nat, nat), nat>)

  const NO_HISTORY := History(map[], map[], map[])

  ghost predicate SameUpTo(a: seq<Entry>, b: seq<Entry>, k: int) {
    k <= |a| && k <= |b| && forall j :: 0 <= j < k ==> a[j] == b[j]
  }

  /** Entry i comes from the reign of its term, together with everything before it. */
  ghost predicate Grounded(h: History, log: Log, i: nat)
    requires i < |log|
  {
    log[i].term in h.reigns && SameUpTo(log, h.reigns[log[i].term].log, i + 1)
  }

  ghost predicate LogOk(h: History, log: Log) {
    log[0] == SENTINEL && forall i :: 1 <= i < |log| ==> Grounded(h, log, i)
  }

  ghost predicate TermsAtMost(log: seq<Entry>, t: int) {
    forall i :: 0 <= i < |log| ==> log[i].term <= t
  }

  ghost predicate Elected(h: History, t: nat, r: Reign, v: nat) {
    (t, v) in h.ballots && h.ballots[(t, v)].candidate == r.leader
    && UpToDate(LastLogTerm(r.elected), LastLogIndex(r.elected), h.ballots[(t, v)].log)
  }

  ghost predicate ReignOk(n: nat, h: History, t: nat, r: Reign) {
    && t > 0 && r.leader < n
    && LogOk(h, r.log) && TermsAtMost(r.log, t)
    && SameUpTo(r.elected, r.log, |r.elected|) && TermsAtMost(r.elected, t - 1)
    && (forall i :: |r.elected| <= i < |r.log| ==> r.log[i].term == t)
    && Majority(r.quorum, n)
    && (forall v :: v in r.quorum ==> Elected(h, t, r, v))
  }

  ghost predicate AckQuorum(h: History, t: nat, k: nat, q: set<nat>) {
    forall v :: v in q ==> (t, v) in h.acks && h.acks[(t, v)] >= k
  }

  /** A majority has acknowledged index k of reign t, and the entry there is of term t. */
  ghost predicate Committed(n: nat, h: History, t: nat, k: nat) {
    && t in h.reigns && 0 < k < |h.reigns[t].log| && h.reigns[t].log[k].term == t
    && exists q :: Majority(q, n) && AckQuorum(h, t, k, q)
  }

  ghost predicate Backs(n: nat, h: History, log: Log, commit: nat, bound: nat, t: nat, k: nat) {
    Committed(n, h, t, k) && t <= bound && commit <= k && SameUpTo(log, h.reigns[t].log, commit + 1)
  }

  /** Everything in `log` up to `commit` is committed, by a reign no later than `bound`. */
  ghost predicate CommitOk(n: nat, h: History, log: Log, commit: nat, bound: nat) {
    commit == 0 || exists t, k :: Backs(n, h, log, commit, bound, t, k)
  }

  /** A later reign, up to `bound`, does not continue reign t up to index k. */
  ghost predicate Supplanted(h: History, t: nat, k: nat, bound: nat)
    requires t in h.reigns
  {
    exists u :: u in h.reigns && t < u <= bound && !SameUpTo(h.reigns[u].log, h.reigns[t].log, k + 1)
  }

  ghost predicate Kept(h: History, t: nat, k: nat, log: Log, bound: nat)
    requires t in h.reigns
  {
    SameUpTo(log, h.reigns[t].log, k + 1) || Supplanted(h, t, k, bound)
  }

  ghost predicate Retains(h: History, t: nat, a: nat, log: Log, bound: nat)
    requires t in h.reigns
  {
    forall k :: 0 <= k <= a ==> Kept(h, t, k, log, bound)
  }

  ghost predicate StoredOk(p: Peer) {
    p.stored == Saved(p.currentTerm, p.votedFor, p.log)
    || (p.stored == Empty && p.currentTerm == 0 && p.votedFor == NOBODY && p.log == [SENTINEL])
  }

  ghost predicate MatchOk(h: History, t: nat, p: Peer, i: nat)
    requires i < |p.matchIndex|
  {
    i != p.me && p.matchIndex[i] > 0 ==> (t, i) in h.acks && p.matchIndex[i] <= h.acks[(t, i)]
  }

  ghost predicate LeaderOk(n: nat, h: History, p: Peer) {
    && p.currentTerm in h.reigns
    && h.reigns[p.currentTerm].leader == p.me
    && h.reigns[p.currentTerm].log == p.log
    && (p.currentTerm, p.me) in h.acks && h.acks[(p.currentTerm, p.me)] == |p.log| - 1
    && |p.nextIndex| == n && |p.matchIndex| == n
    && (forall i :: 0 <= i < n ==> p.nextIndex[i] >= 1)
    && (forall i :: 0 <= i < n ==> MatchOk(h, p.currentTerm, p, i))
  }

  ghost predicate PeerOk(n: nat, h: History, s: nat, p: Peer) {
    && p.me == s && p.peers == n
    && StoredOk(p)
    && LogOk(h, p.log) && TermsAtMost(p.log, p.currentTerm)
    && (p.role == Leader ==> LeaderOk(n, h, p))
    && (p.role == Candidate ==> TermsAtMost(p.log, p.currentTerm - 1))
    && (p.currentTerm in h.reigns && h.reigns[p.currentTerm].leader == s ==> p.role != Candidate)
  }

  ghost predicate AckOk(h: History, peers: seq<Peer>, t: nat, v: nat)
    requires (t, v) in h.acks
  {
    && v < |peers| && t in h.reigns && h.acks[(t, v)] < |h.reigns[t].log|
    && t <= peers[v].currentTerm
    && Retains(h, t, h.acks[(t, v)], peers[v].log, peers[v].currentTerm)
  }

  ghost predicate BallotRetains(h: History, t: nat, v: nat, log: Log) {
    forall t0 :: (t0, v) in h.acks && t0 < t && t0 in h.reigns ==> Retains(h, t0, h.acks[(t0, v)], log, t - 1)
  }

  ghost predicate Witnessed(msgs: set<Message>, t: nat, v: nat, candidate: nat) {
    exists r :: VoteReply(t, candidate, v, true, r) in msgs
  }

  ghost predicate BallotOk(h: History, c: Cluster, t: nat, v: nat)
    requires (t, v) in h.ballots
  {
    var b := h.ballots[(t, v)];
    && v < |c.peers| && b.candidate < |c.peers|
    && t <= c.peers[v].currentTerm
    && t <= c.peers[b.candidate].currentTerm
    && (c.peers[b.candidate].currentTerm == t && c.peers[b.candidate].role == Candidate ==>
          UpToDate(LastLogTerm(c.peers[b.candidate].log), LastLogIndex(c.peers[b.candidate].log), b.log))
    && LogOk(h, b.log)
    && (t !in h.reigns || v in h.reigns[t].quorum ==> BallotRetains(h, t, v, b.log))
    && Witnessed(c.msgs, t, v, b.candidate)
  }

  ghost predicate SliceOf(log: Log, prev: nat, prevTerm: nat, entries: seq<Entry>) {
    && prev + |entries| < |log|
    && (prev > 0 ==> prevTerm == log[prev].term)
    && forall i :: 0 <= i < |entries| ==> entries[i] == log[prev + 1 + i]
  }

  ghost predicate MessageOk(n: nat, h: History, peers: seq<Peer>, m: Message)
    requires |peers| == n
  {
    match m
    case VoteRequest(t, c, lastIndex, lastTerm) =>
      && c < n && t <= peers[c].currentTerm
      && (t == peers[c].currentTerm && peers[c].role == Candidate ==>
            lastIndex == LastLogIndex(peers[c].log) && lastTerm == LastLogTerm(peers[c].log))
    case VoteReply(t, c, v, granted, _) =>
      granted ==> (t, v) in h.ballots && h.ballots[(t, v)].candidate == c
    case Append(t, leader, dest, prev, prevTerm, entries, _) =>
      && dest < n && t in h.reigns && leader == h.reigns[t].leader && dest != leader
      && SliceOf(h.reigns[t].log, prev, prevTerm, entries)
    case AppendReply(t, _, v, prev, count, success, _) =>
      && v < n
      && (success ==> (t, v) in h.acks && prev + count <= h.acks[(t, v)])
  }

  ghost predicate VoteKept(h: History, peers: seq<Peer>, t: nat, v: nat)
    requires (t, v) in h.ballots
  {
    v < |peers| && peers[v].currentTerm == t ==> peers[v].votedFor == h.ballots[(t, v)].candidate
  }

  ghost predicate ReignsOk(n: nat, h: History) {
    forall t {:trigger ReignOk(n, h, t, h.reigns[t])} :: t in h.reigns ==> ReignOk(n, h, t, h.reigns[t])
  }

  ghost predicate PeersOk(n: nat, h: History, c: Cluster)
    requires |c.peers| == n
  {
    forall s {:trigger PeerOk(n, h, s, c.peers[s])} :: 0 <= s < n ==> PeerOk(n, h, s, c.peers[s])
  }

  /** A reign's leader has reached that term. */
  ghost predicate LeadersReached(h: History, c: Cluster) {
    forall t :: t in h.reigns ==> h.reigns[t].leader < |c.peers| && t <= c.peers[h.reigns[t].leader].currentTerm
  }

  ghost predicate AcksOk(h: History, c: Cluster) {
    forall t, v {:trigger AckOk(h, c.peers, t, v)} :: (t, v) in h.acks ==> AckOk(h, c.peers, t, v)
  }

  ghost predicate BallotsOk(h: History, c: Cluster) {
    forall t, v {:trigger BallotOk(h, c, t, v)} :: (t, v) in h.ballots ==> BallotOk(h, c, t, v)
  }

  ghost predicate MessagesOk(n: nat, h: History, c: Cluster)
    requires |c.peers| == n
  {
    forall m {:trigger MessageOk(n, h, c.peers, m)} :: m in c.msgs ==> MessageOk(n, h, c.peers, m)
  }

  ghost predicate VotesKept(h: History, c: Cluster) {
    forall t, v {:trigger VoteKept(h, c.peers, t, v)} :: (t, v) in h.ballots ==> VoteKept(h, c.peers, t, v)
  }

  /** The half of the invariant that concerns votes and logs. */
  ghost predicate Inv(rules: Rules, n: nat, h: History, c: Cluster) {
    && |c.peers| == n
    && ReignsOk(n, h)
    && LeadersReached(h, c)
    && PeersOk(n, h, c)
    && AcksOk(h, c)
    && BallotsOk(h, c)
    && MessagesOk(n, h, c)
    && (rules.keepVote ==> VotesKept(h, c))
  }

  /** The half that concerns commit indices: what a peer holds committed is backed by a
      majority, and so is what a request says is committed. */
  ghost predicate PeerCommitOk(n: nat, h: History, p: Peer) {
    p.lastApplied <= p.commitIndex < |p.log| && CommitOk(n, h, p.log, p.commitIndex, p.currentTerm)
  }

  ghost predicate MessageCommitOk(n: nat, h: History, m: Message) {
    m.Append? ==> m.term in h.reigns && CommitOk(n, h, h.reigns[m.term].log, m.leaderCommit, m.term)
  }

  ghost predicate CommitsOk(n: nat, h: History, c: Cluster) {
    && (forall s {:trigger PeerCommitOk(n, h, c.peers[s])} :: 0 <= s < |c.peers| ==> PeerCommitOk(n, h, c.peers[s]))
    && (forall m {:trigger MessageCommitOk(n, h, m)} :: m in c.msgs ==> MessageCommitOk(n, h, m))
  }

  lemma InitInv(rules: Rules, n: nat)
    ensures Inv(rules, n, NO_HISTORY, Init(n)) && CommitsOk(n, NO_HISTORY, Init(n))
  {
  }

  // ---------------------------------------------------------------- logs

  /** Terms never fall along a log. */
  lemma TermsRise(n: nat, h: History, log: Log, i: nat, j: nat)
    requires ReignsOk(n, h) && LogOk(h, log)
    requires i <= j < |log|
    ensures log[i].term <= log[j].term
  {
    if 1 <= j {
      assert Grounded(h, log, j);
      assert ReignOk(n, h, log[j].term, h.reigns[log[j].term]);
      assert log[i] == h.reigns[log[j].term].log[i];
    }
  }

  /** Log matching: equal terms at one index mean equal logs up to it. */
  lemma LogMatching(h: History, a: Log, b: Log, i: nat)
    requires LogOk(h, a) && LogOk(h, b)
    requires i < |a| && i < |b| && a[i].term == b[i].term
    ensures SameUpTo(a, b, i + 1)
  {
    if i > 0 {
      assert Grounded(h, a, i) && Grounded(h, b, i);
      var l := h.reigns[a[i].term].log;
      forall j | 0 <= j < i + 1 ensures a[j] == b[j] {
        assert a[j] == l[j] && b[j] == l[j];
      }
    }
  }

  lemma PrefixLogOk(h: History, log: Log, prefix: Log)
    requires LogOk(h, log) && SameUpTo(prefix, log, |prefix|)
    ensures LogOk(h, prefix)
  {
    forall i | 1 <= i < |prefix| ensures Grounded(h, prefix, i) {
      assert Grounded(h, log, i);
    }
  }

  // ---------------------------------------------------------------- leader completeness

  /** Leader completeness: a committed entry is in the log of every later reign. */
  lemma {:induction false} LeaderCompleteness(n: nat, h: History, c: Cluster, t: nat, k: nat, u: nat)
    requires |c.peers| == n && ReignsOk(n, h) && BallotsOk(h, c) && AcksOk(h, c)
    requires Committed(n, h, t, k)
    requires u in h.reigns && t <= u
    ensures SameUpTo(h.reigns[u].log, h.reigns[t].log, k + 1)
    decreases u
  {
    if t < u {
      assert ReignOk(n, h, u, h.reigns[u]);
      var v, vlog := Elector(n, h, c, t, k, u);
      ElectedHolds(n, h, c, t, k, u, vlog);
      var r := h.reigns[u];
      forall j | 0 <= j < k + 1 ensures r.log[j] == h.reigns[t].log[j] {
        assert r.elected[j] == r.log[j];
      }
    }
  }

  /** A voter of reign u that had acknowledged (t, k), and still held it when it voted. */
  lemma {:induction false} Elector(n: nat, h: History, c: Cluster, t: nat, k: nat, u: nat) returns (v: nat, vlog: Log)
    requires |c.peers| == n && ReignsOk(n, h) && BallotsOk(h, c) && AcksOk(h, c)
    requires Committed(n, h, t, k)
    requires u in h.reigns && t < u
    ensures LogOk(h, vlog) && SameUpTo(vlog, h.reigns[t].log, k + 1)
    ensures UpToDate(LastLogTerm(h.reigns[u].elected), LastLogIndex(h.reigns[u].elected), vlog)
    decreases u, 0
  {
    var q :| Majority(q, n) && AckQuorum(h, t, k, q);
    assert ReignOk(n, h, u, h.reigns[u]);
    v := Intersect(q, h.reigns[u].quorum, n);
    assert Elected(h, u, h.reigns[u], v);
    assert BallotOk(h, c, u, v);
    vlog := h.ballots[(u, v)].log;
    assert (t, v) in h.acks && t in h.reigns;
    assert Retains(h, t, h.acks[(t, v)], vlog, u - 1);
    assert Kept(h, t, k, vlog, u - 1);
    if !SameUpTo(vlog, h.reigns[t].log, k + 1) {
      var w :| w in h.reigns && t < w <= u - 1 && !SameUpTo(h.reigns[w].log, h.reigns[t].log, k + 1);
      LeaderCompleteness(n, h, c, t, k, w);
      assert false;
    }
  }

  /** The log a reign was elected on holds every entry committed before. */
  lemma {:induction false} ElectedHolds(n: nat, h: History, c: Cluster, t: nat, k: nat, u: nat, vlog: Log)
    requires |c.peers| == n && ReignsOk(n, h) && BallotsOk(h, c) && AcksOk(h, c)
    requires Committed(n, h, t, k)
    requires u in h.reigns && t < u
    requires LogOk(h, vlog) && SameUpTo(vlog, h.reigns[t].log, k + 1)
    requires UpToDate(LastLogTerm(h.reigns[u].elected), LastLogIndex(h.reigns[u].elected), vlog)
    ensures SameUpTo(h.reigns[u].elected, h.reigns[t].log, k + 1)
    decreases u, 1
  {
    var e, l := h.reigns[u].elected, h.reigns[t].log;
    var last := |e| - 1;
    assert ReignOk(n, h, u, h.reigns[u]) && ReignOk(n, h, t, h.reigns[t]);
    assert vlog[k] == l[k];
    TermsRise(n, h, vlog, k, |vlog| - 1);
    assert t <= LastLogTerm(vlog) <= LastLogTerm(e) < u;
    PrefixLogOk(h, h.reigns[u].log, e);
    assert last > 0;
    assert Grounded(h, e, last);
    var w := e[last].term;
    LeaderCompleteness(n, h, c, t, k, w);
    if w == t {
      assert last >= |vlog| - 1 >= k;
    } else {
      assert e[last] == h.reigns[w].log[last];
      assert forall j :: 0 <= j < k + 1 ==> h.reigns[w].log[j].term <= t;
    }
    forall j | 0 <= j < k + 1 ensures e[j] == l[j] {
      assert e[j] == h.reigns[w].log[j];
    }
  }
}
