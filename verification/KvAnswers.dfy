/** That clerks get their answers: what a server makes of an operation always ends it, and a
    handler whose entry is applied in its own term can return at once. */
module KvAnswers {
  import opened Commands
  import opened KvState
  import opened KvService
  import RaftCluster
  import RaftPeer

  /** Executing what a clerk sends gives an answer that it takes. */
  lemma ExecutionEnds(store: map<string, string>, op: Op)
    requires ClerkOp(op)
    ensures Accepted(op, ExecuteOperation(store, op).1)
    ensures Outcome(op, ExecuteOperation(store, op).1, ExecuteOperation(store, op).2) == ExecuteOperation(store, op).2
  {
  }

  /** So does applying an entry for the first time, whether it is executed or not. */
  lemma AppliedEnds(kv: Replica, index: nat, op: Op)
    requires ClerkOp(op)
    ensures var result := ApplyCommand(kv, index, Kv(op)).1;
            if kv.index < index then result.Result? && Accepted(op, result.err) else result.NoResult?
  {
  }

  /** The clerk of an operation waits for it. */
  ghost predicate Awaited(v: Service, op: Op) {
    && op.clientId in v.clerks && v.clerks[op.clientId].waiting && v.clerks[op.clientId].current < |v.records|
    && v.records[v.clerks[op.clientId].current].op == op
  }

  /** When the entry that a handler waits for is applied in the term in which it was proposed,
      its operation can return. */
  lemma AppliedReturns(c: RaftCluster.Cluster, v: Service, p: Pending, now: nat) returns (reply: Reply)
    requires Enabled(c, v, Apply(p.server)) && p in v.pendings && Awaited(v, p.op) && ClerkOp(p.op)
    requires p.server < |c.peers| && p.term == c.peers[p.server].currentTerm
    requires v.servers[p.server].appliers.sent[0] == Delivery(p.index, Kv(p.op)) && v.servers[p.server].kv.index < p.index
    ensures reply.op == p.op && Enabled(c, Do(c, v, Apply(p.server), now), Return(reply))
  {
    var result := ApplyCommand(v.servers[p.server].kv, p.index, Kv(p.op)).1;
    AppliedEnds(v.servers[p.server].kv, p.index, p.op);
    reply := Reply(p.op, result.err, result.value);
    assert reply in Told(v.pendings, p.server, p.index, p.term, result);
  }

  /** When it is applied in another term, nobody is told. */
  lemma OtherTermSilent(pendings: set<Pending>, s: nat, index: nat, term: nat, result: Result)
    requires forall p :: p in pendings && p.server == s && p.index == index ==> p.term != term
    ensures Told(pendings, s, index, term, result) == {}
  {
  }

  /** A request that a server has executed before can return from it at once. */
  lemma DuplicateReturns(c: RaftCluster.Cluster, v: Service, s: nat, op: Op, now: nat) returns (reply: Reply)
    requires s < |v.servers| && op in v.requests && IsDuplicate(v.servers[s].kv, op) && Awaited(v, op)
    ensures reply.op == op && Enabled(c, v, AnswerDuplicate(s, op))
    ensures Enabled(c, Do(c, v, AnswerDuplicate(s, op), now), Return(reply))
  {
    reply := Reply(op, OK, if op.opType == "Get" then CachedResult(v.servers[s].kv, op.clientId) else "");
  }

  /** A server can crash at any time.  It loses its tables and its handlers, and no other does. */
  lemma ServerCrashes(c: RaftCluster.Cluster, v: Service, s: nat, now: nat)
    requires s < |v.servers| && s < |c.peers|
    ensures Enabled(c, v, Reboot(s))
    ensures var w := Do(c, v, Reboot(s), now);
            && w.servers == v.servers[s := NewServer(|v.servers[s].appliers.hands|)] && w.servers[s].kv == EMPTY
            && (forall p :: p in w.pendings <==> p in v.pendings && p.server != s)
            && w.requests == v.requests && w.replies == v.replies && w.clerks == v.clerks && w.records == v.records
  {
  }

  /** A proposal of a leader makes its handler wait at the index and term of the entry. */
  lemma ProposalWaits(c: RaftCluster.Cluster, v: Service, s: nat, op: Op, now: nat)
    requires s < |c.peers| && c.peers[s].role == RaftPeer.Leader && op in v.requests
    ensures Enabled(c, v, Propose(s, op))
    ensures Pending(s, |c.peers[s].log|, c.peers[s].currentTerm, op, now) in Do(c, v, Propose(s, op), now).pendings
  {
  }
}
