/** What holds in every state of a run of the service, given the common committed log of the
    whole run. */
module KvInvariant {
  import opened Commands
  import opened KvState
  import opened KvService
  import opened KvCommon
  import RaftAppliers
  import RaftPeer
  import RaftCluster
  import RaftInvariant
  import RaftTheorems
  import RaftPermanence

  // ---------------------------------------------------------------- servers

  /** The server has replayed the common log up to its index, and what is in flight to it is the
      log's next entries, up to what its applier has taken. */
  ghost predicate ServerOk(cmds: seq<Command>, server: Server, applied: nat) {
    && |server.appliers.hands| == 1
    && var flight := RaftAppliers.InFlight(server.appliers);
       && server.kv.index + |flight| == applied < |cmds|
       && server.kv == Replay(cmds, server.kv.index)
       && forall j :: 0 <= j < |flight| ==> flight[j] == Delivery(server.kv.index + 1 + j, cmds[server.kv.index + 1 + j])
  }

  ghost predicate ServersOk(n: nat, cmds: seq<Command>, c: RaftCluster.Cluster, v: Service) {
    && |c.peers| == |v.servers| == n
    && forall s {:trigger v.servers[s]} :: 0 <= s < n ==> ServerOk(cmds, v.servers[s], c.peers[s].lastApplied)
  }

  // ---------------------------------------------------------------- clerks

  ghost predicate SameRequest(a: Op, b: Op) { a.clientId == b.clientId && a.seqNum == b.seqNum }

  /** The operation was called before step t. */
  ghost predicate CalledBefore(records: seq<Record>, op: Op, t: nat) {
    exists j :: 0 <= j < |records| && records[j].op == op && records[j].call < t
  }

  ghost predicate RecordKept(v: Service, j: nat, now: nat)
    requires j < |v.records|
  {
    var rec := v.records[j];
    && rec.op in v.requests && rec.op.clientId in v.clerks && ClerkOp(rec.op)
    && rec.op.seqNum <= v.clerks[rec.op.clientId].seqNum && rec.call < now
    && (rec.done ==> rec.ret < now)
    && (!rec.done ==> v.clerks[rec.op.clientId] == Clerk(rec.op.seqNum, true, j))
  }

  /** Requests are the operations called; a clerk has one outstanding at a time and numbers
      them upward. */
  ghost predicate ClerksOk(v: Service, now: nat) {
    && (forall op :: op in v.requests ==> CalledBefore(v.records, op, now))
    && (forall j {:trigger RecordKept(v, j, now)} :: 0 <= j < |v.records| ==> RecordKept(v, j, now))
    && (forall j, k :: 0 <= j < k < |v.records| ==> !SameRequest(v.records[j].op, v.records[k].op))
    && (forall id :: id in v.clerks && v.clerks[id].waiting ==>
          v.clerks[id].current < |v.records| && v.records[v.clerks[id].current].op.clientId == id && !v.records[v.clerks[id].current].done)
  }

  // ---------------------------------------------------------------- answers

  /** Everything the log holds up to index f was requested. */
  ghost predicate Covered(cmds: seq<Command>, f: nat, requests: set<Op>) {
    f < |cmds| && forall g :: 1 <= g <= f && cmds[g].Kv? ==> cmds[g].op in requests
  }

  /** The operation is first executed at index f, with this outcome. */
  ghost predicate ExecutedAt(cmds: seq<Command>, f: nat, op: Op, outcome: string) {
    FirstOfItsKind(cmds, f) && cmds[f] == Kv(op) && outcome == AnswerAt(cmds, f).1
  }

  /** The right outcome, and an execution already covered by requests. */
  ghost predicate Right(cmds: seq<Command>, op: Op, outcome: string, requests: set<Op>) {
    exists f :: ExecutedAt(cmds, f, op, outcome) && Covered(cmds, f, requests)
  }

  /** The reply is to a request, and right for as long as its clerk may still wait for it. */
  ghost predicate ReplyOk(cmds: seq<Command>, v: Service, reply: Reply) {
    && reply.op in v.requests && reply.op.clientId in v.clerks
    && (reply.op.seqNum == v.clerks[reply.op.clientId].seqNum && Accepted(reply.op, reply.err) ==>
          Right(cmds, reply.op, Outcome(reply.op, reply.err, reply.value), v.requests))
  }

  ghost predicate RepliesOk(cmds: seq<Command>, v: Service) {
    forall reply :: reply in v.replies ==> ReplyOk(cmds, v, reply)
  }

  /** Everything the log holds up to f was called before step t. */
  ghost predicate CalledUpTo(cmds: seq<Command>, f: nat, records: seq<Record>, t: nat) {
    f < |cmds| && forall g :: 1 <= g <= f && cmds[g].Kv? ==> CalledBefore(records, cmds[g].op, t)
  }

  ghost predicate DoneOk(cmds: seq<Command>, records: seq<Record>, j: nat)
    requires j < |records|
  {
    records[j].done ==>
      exists f :: ExecutedAt(cmds, f, records[j].op, records[j].output) && CalledUpTo(cmds, f, records, records[j].ret)
  }

  ghost predicate RecordsOk(cmds: seq<Command>, v: Service) {
    forall j {:trigger DoneOk(cmds, v.records, j)} :: 0 <= j < |v.records| ==> DoneOk(cmds, v.records, j)
  }

  // ---------------------------------------------------------------- handlers

  /** The handler proposed its operation at an earlier step. */
  ghost predicate PendingOk(r: RaftCluster.Run, now: nat, p: Pending, requests: set<Op>) {
    && p.op in requests && p.at < now && p.at < |r.steps| && p.at < |r.states|
    && r.steps[p.at] == RaftCluster.Submit(p.server, Kv(p.op))
    && p.server < |r.states[p.at].peers|
    && r.states[p.at].peers[p.server].currentTerm == p.term && |r.states[p.at].peers[p.server].log| == p.index
  }

  ghost predicate PendingsOk(r: RaftCluster.Run, now: nat, v: Service) {
    forall p :: p in v.pendings ==> PendingOk(r, now, p, v.requests)
  }

  ghost predicate Inv(n: nat, cmds: seq<Command>, r: RaftCluster.Run, v: Service, now: nat) {
    && now < |r.states| && ServersOk(n, cmds, r.states[now], v)
    && AllOurs(r.states[now], v.requests)
    && ClerksOk(v, now) && RepliesOk(cmds, v) && RecordsOk(cmds, v) && PendingsOk(r, now, v)
  }

  function CommandsOf(log: seq<RaftPeer.Entry>): (cmds: seq<Command>)
    ensures |cmds| == |log| && forall j :: 0 <= j < |cmds| ==> cmds[j] == log[j].command
  {
    seq(|log|, j requires 0 <= j < |log| => log[j].command)
  }

  // ---------------------------------------------------------------- the cluster's part

  /** What a peer has committed in this state is covered by the requests so far. */
  lemma CommittedCovered(log: seq<RaftPeer.Entry>, p: RaftPeer.Peer, requests: set<Op>, k: nat)
    requires Fits(log, p) && PeerOurs(p, requests) && k <= p.commitIndex
    ensures Covered(CommandsOf(log), k, requests)
  {
    forall g | 1 <= g <= k && CommandsOf(log)[g].Kv? ensures CommandsOf(log)[g].op in requests {
      assert log[g] == p.log[g] && p.log[g] in p.log;
      assert Ours(p.log[g], requests);
    }
  }

  /** What a peer delivers next is the common log's next entry. */
  lemma DeliversCommon(log: seq<RaftPeer.Entry>, p: RaftPeer.Peer)
    requires Fits(log, p) && RaftPeer.CanApply(p)
    ensures p.lastApplied + 1 < |log|
    ensures RaftPeer.Apply(p).1 == CommandsOf(log)[p.lastApplied + 1]
  {
    var k := p.lastApplied + 1;
    assert p.log[k] == log[k];
  }

  /** A handler told of the result at its index in its own term is told of its own operation. */
  lemma EqualTerm(rules: RaftPeer.Rules, n: nat, run: RaftCluster.Run, log: seq<RaftPeer.Entry>, now: nat, p: Pending, requests: set<Op>)
    requires RaftCluster.BenignRun(rules, n, run) && AllFit(n, run, log) && now < |run.states|
    requires PendingOk(run, now, p, requests) && p.server < n
    requires run.states[now].peers[p.server].currentTerm == p.term && p.index <= run.states[now].peers[p.server].lastApplied
    ensures p.index < |log| && CommandsOf(log)[p.index] == Kv(p.op)
  {
    RaftPermanence.ProposalHolds(rules, n, run, p.at, now, p.server);
    var q := run.states[now].peers[p.server];
    assert Fits(log, q);
    assert q.log[p.index] == log[p.index];
  }

  // ---------------------------------------------------------------- the tables' part

  /** A client's requests so far have numbers up to its clerk's. */
  lemma NumbersBounded(v: Service, now: nat, op: Op)
    requires ClerksOk(v, now) && op in v.requests
    ensures op.clientId in v.clerks && op.seqNum <= v.clerks[op.clientId].seqNum && ClerkOp(op)
  {
    assert CalledBefore(v.records, op, now);
    var j :| 0 <= j < |v.records| && v.records[j].op == op && v.records[j].call < now;
    assert RecordKept(v, j, now);
  }

  /** A request is known by its client and number. */
  lemma SameRequestSameOp(v: Service, now: nat, a: Op, b: Op)
    requires ClerksOk(v, now) && a in v.requests && b in v.requests && SameRequest(a, b)
    ensures a == b
  {
    assert CalledBefore(v.records, a, now) && CalledBefore(v.records, b, now);
    var j :| 0 <= j < |v.records| && v.records[j].op == a && v.records[j].call < now;
    var k :| 0 <= k < |v.records| && v.records[k].op == b && v.records[k].call < now;
  }

  lemma PutsAnswerNothing(cmds: seq<Command>, f: nat)
    requires 1 <= f < |cmds| && cmds[f].Kv? && ClerkOp(cmds[f].op)
    ensures AnswerAt(cmds, f).0 == ErrNoKey ==> cmds[f].op.opType == "Get" && AnswerAt(cmds, f).1 == ""
    ensures cmds[f].op.opType != "Get" ==> AnswerAt(cmds, f).1 == ""
    ensures AnswerAt(cmds, f).0 == OK || AnswerAt(cmds, f).0 == ErrNoKey
  {
  }

  /** What the tables answer to a duplicate is right, if its clerk is still at it. */
  lemma DuplicateRight(cmds: seq<Command>, v: Service, now: nat, k: nat, op: Op)
    requires ClerksOk(v, now) && op in v.requests && Covered(cmds, k, v.requests)
    requires IsDuplicate(Replay(cmds, k), op)
    requires op.clientId in v.clerks && op.seqNum == v.clerks[op.clientId].seqNum
    ensures Right(cmds, op, Outcome(op, OK, CachedResult(Replay(cmds, k), op.clientId)), v.requests)
  {
    var f := TablesTell(cmds, k, op.clientId);
    NumbersBounded(v, now, cmds[f].op);
    SameRequestSameOp(v, now, cmds[f].op, op);
    NumbersBounded(v, now, op);
    PutsAnswerNothing(cmds, f);
    assert ExecutedAt(cmds, f, op, Outcome(op, OK, CachedResult(Replay(cmds, k), op.clientId)));
    assert Covered(cmds, f, v.requests);
  }

  /** What applying an entry answers: what the tables remember, or what executing it gives. */
  lemma ResultIs(kv: Replica, k: nat, op: Op)
    requires kv.index < k
    ensures var result := ApplyCommand(kv, k, Kv(op)).1;
            && result.Result?
            && (IsDuplicate(kv, op) ==>
                  result.err == OK && Outcome(op, OK, result.value) == Outcome(op, OK, CachedResult(kv, op.clientId)))
            && (!IsDuplicate(kv, op) ==>
                  result.err == ExecuteOperation(kv.store, op).1 && result.value == ExecuteOperation(kv.store, op).2)
  {
  }

  /** The result of applying a request is right, if its clerk is still at it. */
  lemma ResultRight(cmds: seq<Command>, v: Service, now: nat, k: nat, op: Op)
    requires ClerksOk(v, now) && op in v.requests && 1 <= k && Covered(cmds, k, v.requests) && cmds[k] == Kv(op)
    requires op.clientId in v.clerks && op.seqNum == v.clerks[op.clientId].seqNum
    ensures var result := ApplyCommand(Replay(cmds, k - 1), k, cmds[k]).1;
            result.Result? && (Accepted(op, result.err) ==> Right(cmds, op, Outcome(op, result.err, result.value), v.requests))
  {
    hide ApplyCommand, ApplyOp, IsDuplicate, ExecuteOperation, CachedResult, Replay, ClerksOk, FirstOfItsKind;
    ReplayIndex(cmds, k - 1);
    var kv := Replay(cmds, k - 1);
    ResultIs(kv, k, op);
    if IsDuplicate(kv, op) {
      DuplicateRight(cmds, v, now, k - 1, op);
    } else {
      ExecutedExactly(cmds, k);
      NumbersBounded(v, now, op);
      PutsAnswerNothing(cmds, k);
      var result := ApplyCommand(kv, k, cmds[k]).1;
      assert (result.err, result.value) == AnswerAt(cmds, k);
      assert ExecutedAt(cmds, k, op, Outcome(op, result.err, result.value));
    }
  }
}
