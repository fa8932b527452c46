/** Every step of the service keeps its invariant. */
module KvSteps {
  import opened Commands
  import opened KvState
  import opened KvService
  import opened KvCommon
  import opened KvInvariant
  import RaftAppliers
  import RaftPeer
  import RaftCluster

  // ---------------------------------------------------------------- servers

  lemma TakeKeepsServer(log: seq<RaftPeer.Entry>, server: Server, a: nat, p: RaftPeer.Peer)
    requires Fits(log, p) && RaftAppliers.CanTake(server.appliers, a, p) && ServerOk(CommandsOf(log), server, p.lastApplied)
    ensures var (q, x) := RaftAppliers.Take(server.appliers, a, p);
            q == RaftPeer.Apply(p).0 && ServerOk(CommandsOf(log), server.(appliers := x), q.lastApplied)
  {
    DeliversCommon(log, p);
    RaftAppliers.TakeFlies(server.appliers, a, p);
  }

  lemma SendKeepsServer(cmds: seq<Command>, server: Server, a: nat, applied: nat)
    requires RaftAppliers.CanSend(server.appliers, a) && ServerOk(cmds, server, applied)
    ensures ServerOk(cmds, server.(appliers := RaftAppliers.Send(server.appliers, a)), applied)
  {
    RaftAppliers.SendFlies(server.appliers, a);
  }

  lemma ApplyKeepsServer(cmds: seq<Command>, server: Server, applied: nat)
    requires ServerOk(cmds, server, applied) && |server.appliers.sent| > 0
    ensures var x := server.appliers;
            && x.sent[0] == Delivery(server.kv.index + 1, cmds[server.kv.index + 1])
            && ServerOk(cmds, Server(ApplyCommand(server.kv, x.sent[0].index, x.sent[0].command).0, x.(sent := x.sent[1..])), applied)
  {
    var k, x := server.kv.index, server.appliers;
    var flight, next := RaftAppliers.InFlight(x), RaftAppliers.InFlight(x.(sent := x.sent[1..]));
    assert flight[0] == x.sent[0] && next == flight[1..];
    assert flight[0] == Delivery(k + 1 + 0, cmds[k + 1 + 0]);
    ReplayIndex(cmds, k + 1);
    forall j | 0 <= j < |next| ensures next[j] == Delivery(k + 2 + j, cmds[k + 2 + j]) {
      assert flight[j + 1] == Delivery(k + 1 + (j + 1), cmds[k + 1 + (j + 1)]);
    }
  }

  lemma NewServerOk(cmds: seq<Command>)
    requires |cmds| > 0
    ensures ServerOk(cmds, NewServer(1), 0)
  {
  }

  lemma OneApplier(cmds: seq<Command>, server: Server, applied: nat)
    requires ServerOk(cmds, server, applied)
    ensures |server.appliers.hands| == 1
  {
  }

  lemma ServersKept(rules: RaftPeer.Rules, n: nat, log: seq<RaftPeer.Entry>, c: RaftCluster.Cluster, d: RaftCluster.Cluster,
                    v: Service, step: Step, now: nat)
    requires ServersOk(n, CommandsOf(log), c, v) && Enabled(c, v, step) && d == RaftCluster.Do(rules, c, RaftStep(step))
    requires |d.peers| == n && |log| > 0 && forall s :: 0 <= s < n ==> Fits(log, c.peers[s])
    ensures ServersOk(n, CommandsOf(log), d, Do(c, v, step, now))
  {
    hide ServerOk, Fits, ApplyCommand, IsDuplicate, Told, CachedResult, NewServer, RaftAppliers.Take, RaftAppliers.Send;
    var w := Do(c, v, step, now);
    NewServerOk(CommandsOf(log));
    forall s | 0 <= s < n ensures ServerOk(CommandsOf(log), w.servers[s], d.peers[s].lastApplied) {
      assert ServerOk(CommandsOf(log), v.servers[s], c.peers[s].lastApplied);
      OneApplier(CommandsOf(log), v.servers[s], c.peers[s].lastApplied);
      if step.Take? && step.s == s {
        TakeKeepsServer(log, v.servers[s], step.a, c.peers[s]);
      } else if step == Reboot(s) || (step.Interrupted? && step.s == s) {
      } else {
        AppliedStays(rules, c, RaftStep(step), s);
        if step == Apply(s) {
          ApplyKeepsServer(CommandsOf(log), v.servers[s], c.peers[s].lastApplied);
        } else if step.Send? && step.s == s {
          SendKeepsServer(CommandsOf(log), v.servers[s], step.a, c.peers[s].lastApplied);
        }
      }
    }
  }

  // ---------------------------------------------------------------- clerks

  /** Records are never lost: each keeps its operation and call. */
  ghost predicate RecordsGrow(a: seq<Record>, b: seq<Record>) {
    |a| <= |b| && forall j :: 0 <= j < |a| ==> b[j].op == a[j].op && b[j].call == a[j].call
  }

  lemma CalledStays(a: seq<Record>, b: seq<Record>, op: Op, t: nat, u: nat)
    requires RecordsGrow(a, b) && CalledBefore(a, op, t) && t <= u
    ensures CalledBefore(b, op, u)
  {
    var j :| 0 <= j < |a| && a[j].op == op && a[j].call < t;
    assert b[j].op == op && b[j].call < u;
  }

  lemma CallKeepsClerks(v: Service, op: Op, now: nat, w: Service)
    requires ClerksOk(v, now) && op.clientId in v.clerks && !v.clerks[op.clientId].waiting
    requires op.seqNum == v.clerks[op.clientId].seqNum + 1 && ClerkOp(op)
    requires w == v.(clerks := v.clerks[op.clientId := Clerk(op.seqNum, true, |v.records|)],
                     records := v.records + [Record(op, now, false, "", 0)], requests := v.requests + {op})
    ensures ClerksOk(w, now + 1)
  {
    forall x | x in w.requests ensures CalledBefore(w.records, x, now + 1) {
      if x in v.requests {
        CalledStays(v.records, w.records, x, now, now + 1);
      } else {
        assert w.records[|v.records|].op == x;
      }
    }
    var after := now + 1;
    forall j | 0 <= j < |w.records| ensures RecordKept(w, j, after) {
      if j < |v.records| {
        assert RecordKept(v, j, now);
      }
    }
    forall j, k | 0 <= j < k < |w.records| ensures !SameRequest(w.records[j].op, w.records[k].op) {
      assert RecordKept(v, j, now);
    }
  }

  lemma ReturnKeepsClerks(v: Service, op: Op, output: string, now: nat, w: Service)
    requires ClerksOk(v, now) && op.clientId in v.clerks && v.clerks[op.clientId].waiting
    requires v.clerks[op.clientId].current < |v.records| && v.records[v.clerks[op.clientId].current].op == op
    requires var clerk := v.clerks[op.clientId];
             w == v.(clerks := v.clerks[op.clientId := clerk.(waiting := false)],
                     records := v.records[clerk.current := v.records[clerk.current].(done := true, output := output, ret := now)])
    ensures ClerksOk(w, now + 1)
  {
    var i := v.clerks[op.clientId].current;
    forall x | x in w.requests ensures CalledBefore(w.records, x, now + 1) {
      CalledStays(v.records, w.records, x, now, now + 1);
    }
    var after := now + 1;
    forall j | 0 <= j < |w.records| ensures RecordKept(w, j, after) {
      assert RecordKept(v, j, now) && RecordKept(v, i, now);
    }
    forall j, k | 0 <= j < k < |w.records| ensures !SameRequest(w.records[j].op, w.records[k].op) {
      assert !SameRequest(v.records[j].op, v.records[k].op);
    }
  }

  lemma LaterClerks(v: Service, now: nat)
    requires ClerksOk(v, now)
    ensures ClerksOk(v, now + 1)
  {
    forall x | x in v.requests ensures CalledBefore(v.records, x, now + 1) {
      CalledStays(v.records, v.records, x, now, now + 1);
    }
    var after := now + 1;
    forall j | 0 <= j < |v.records| ensures RecordKept(v, j, after) {
      assert RecordKept(v, j, now);
    }
  }

  lemma SameClerks(v: Service, w: Service, now: nat)
    requires ClerksOk(v, now) && w.requests == v.requests && w.clerks == v.clerks && w.records == v.records
    ensures ClerksOk(w, now)
  {
    forall j | 0 <= j < |w.records| ensures RecordKept(w, j, now) {
      assert RecordKept(v, j, now);
    }
  }

  lemma ClerksKept(c: RaftCluster.Cluster, v: Service, step: Step, now: nat)
    requires ClerksOk(v, now) && Enabled(c, v, step)
    ensures ClerksOk(Do(c, v, step, now), now + 1)
    ensures v.requests <= Do(c, v, step, now).requests && RecordsGrow(v.records, Do(c, v, step, now).records)
  {
    var w := Do(c, v, step, now);
    match step
    case Call(op) => CallKeepsClerks(v, op, now, w);
    case Return(reply) => ReturnKeepsClerks(v, reply.op, Outcome(reply.op, reply.err, reply.value), now, w);
    case _ =>
      LaterClerks(v, now);
      SameClerks(v, w, now + 1);
  }

  // ---------------------------------------------------------------- replies

  lemma RightStays(cmds: seq<Command>, op: Op, outcome: string, requests: set<Op>, more: set<Op>)
    requires Right(cmds, op, outcome, requests) && requests <= more
    ensures Right(cmds, op, outcome, more)
  {
    var f :| ExecutedAt(cmds, f, op, outcome) && Covered(cmds, f, requests);
    assert Covered(cmds, f, more);
  }

  /** A reply stays right, or its clerk has moved on. */
  lemma ReplyStays(cmds: seq<Command>, v: Service, w: Service, now: nat, reply: Reply)
    requires ClerksOk(v, now) && ReplyOk(cmds, v, reply) && v.requests <= w.requests
    requires reply.op.clientId in w.clerks
    requires v.clerks[reply.op.clientId].seqNum <= w.clerks[reply.op.clientId].seqNum
    ensures ReplyOk(cmds, w, reply)
  {
    NumbersBounded(v, now, reply.op);
    if reply.op.seqNum == w.clerks[reply.op.clientId].seqNum && Accepted(reply.op, reply.err) {
      RightStays(cmds, reply.op, Outcome(reply.op, reply.err, reply.value), v.requests, w.requests);
    }
  }

  lemma NewDuplicateReply(cmds: seq<Command>, v: Service, now: nat, k: nat, op: Op, reply: Reply)
    requires ClerksOk(v, now) && op in v.requests && Covered(cmds, k, v.requests) && IsDuplicate(Replay(cmds, k), op)
    requires reply == Reply(op, OK, if op.opType == "Get" then CachedResult(Replay(cmds, k), op.clientId) else "")
    ensures ReplyOk(cmds, v, reply)
  {
    NumbersBounded(v, now, op);
    if op.seqNum == v.clerks[op.clientId].seqNum {
      DuplicateRight(cmds, v, now, k, op);
    }
  }

  lemma NewResultReply(cmds: seq<Command>, v: Service, now: nat, k: nat, op: Op, reply: Reply)
    requires ClerksOk(v, now) && op in v.requests && 1 <= k && Covered(cmds, k, v.requests) && cmds[k] == Kv(op)
    requires var result := ApplyCommand(Replay(cmds, k - 1), k, cmds[k]).1;
             result.Result? && reply == Reply(op, result.err, result.value)
    ensures ReplyOk(cmds, v, reply)
  {
    NumbersBounded(v, now, op);
    if op.seqNum == v.clerks[op.clientId].seqNum {
      ResultRight(cmds, v, now, k, op);
    }
  }

  /** The handler behind a reply that an applied entry sends. */
  lemma WhoIsTold(pendings: set<Pending>, s: nat, index: nat, term: nat, result: Result, reply: Reply) returns (p: Pending)
    requires reply in Told(pendings, s, index, term, result)
    ensures p in pendings && p.server == s && p.index == index && p.term == term && result.Result?
    ensures reply == Reply(p.op, result.err, result.value)
  {
    p :| p in pendings && p.server == s && p.index == index && p.term == term && reply == Reply(p.op, result.err, result.value);
  }

  /** The replies that an applied entry sends. */
  lemma ToldRight(rules: RaftPeer.Rules, n: nat, run: RaftCluster.Run, log: seq<RaftPeer.Entry>, v: Service, now: nat, s: nat, reply: Reply)
    requires RaftCluster.BenignRun(rules, n, run) && AllFit(n, run, log) && now < |run.states| && s < n
    requires |v.servers| == n && ServerOk(CommandsOf(log), v.servers[s], run.states[now].peers[s].lastApplied)
    requires ClerksOk(v, now) && PendingsOk(run, now, v) && PeerOurs(run.states[now].peers[s], v.requests)
    requires |v.servers[s].appliers.sent| > 0
    requires var head := v.servers[s].appliers.sent[0];
             reply in Told(v.pendings, s, head.index, run.states[now].peers[s].currentTerm,
                           ApplyCommand(v.servers[s].kv, head.index, head.command).1)
    ensures ReplyOk(CommandsOf(log), v, reply)
  {
    hide ClerksOk, RaftCluster.BenignRun, ReplyOk, Covered, Told, ApplyCommand, PeerOurs;
    var cmds := CommandsOf(log);
    var server, peer := v.servers[s], run.states[now].peers[s];
    ApplyKeepsServer(cmds, server, peer.lastApplied);
    var head := server.appliers.sent[0];
    var result := ApplyCommand(server.kv, head.index, head.command).1;
    var p := WhoIsTold(v.pendings, s, head.index, peer.currentTerm, result, reply);
    assert PendingOk(run, now, p, v.requests);
    EqualTerm(rules, n, run, log, now, p, v.requests);
    assert Fits(log, peer);
    CommittedCovered(log, peer, v.requests, head.index);
    NewResultReply(cmds, v, now, head.index, p.op, reply);
  }

  lemma RepliesKept(rules: RaftPeer.Rules, n: nat, run: RaftCluster.Run, log: seq<RaftPeer.Entry>, v: Service, step: Step, now: nat)
    requires RaftCluster.BenignRun(rules, n, run) && AllFit(n, run, log)
    requires Inv(n, CommandsOf(log), run, v, now) && Enabled(run.states[now], v, step)
    ensures RepliesOk(CommandsOf(log), Do(run.states[now], v, step, now))
  {
    var cmds := CommandsOf(log);
    var w := Do(run.states[now], v, step, now);
    forall reply | reply in w.replies ensures ReplyOk(cmds, w, reply) {
      if reply !in v.replies {
        if step.Apply? {
          assert ServerOk(cmds, v.servers[step.s], run.states[now].peers[step.s].lastApplied);
          assert PeerOurs(run.states[now].peers[step.s], v.requests);
          ToldRight(rules, n, run, log, v, now, step.s, reply);
        } else {
          var s := step.s;
          var peer := run.states[now].peers[s];
          assert ServerOk(cmds, v.servers[s], peer.lastApplied);
          assert Fits(log, peer) && PeerOurs(peer, v.requests);
          CommittedCovered(log, peer, v.requests, v.servers[s].kv.index);
          NewDuplicateReply(cmds, v, now, v.servers[s].kv.index, step.op, reply);
        }
      }
      ReplyStays(cmds, v, w, now, reply);
    }
  }

  // ---------------------------------------------------------------- records

  lemma CalledUpToStays(cmds: seq<Command>, f: nat, a: seq<Record>, b: seq<Record>, t: nat)
    requires CalledUpTo(cmds, f, a, t) && RecordsGrow(a, b)
    ensures CalledUpTo(cmds, f, b, t)
  {
    forall g | 1 <= g <= f && cmds[g].Kv? ensures CalledBefore(b, cmds[g].op, t) {
      CalledStays(a, b, cmds[g].op, t, t);
    }
  }

  lemma DoneStays(cmds: seq<Command>, a: seq<Record>, b: seq<Record>, j: nat)
    requires RecordsGrow(a, b) && j < |a| && b[j] == a[j] && DoneOk(cmds, a, j)
    ensures DoneOk(cmds, b, j)
  {
    if a[j].done {
      var f :| ExecutedAt(cmds, f, a[j].op, a[j].output) && CalledUpTo(cmds, f, a, a[j].ret);
      CalledUpToStays(cmds, f, a, b, a[j].ret);
    }
  }

  /** A right reply completes its operation rightly. */
  lemma ReturnDone(cmds: seq<Command>, v: Service, now: nat, reply: Reply, b: seq<Record>, i: nat)
    requires ClerksOk(v, now) && Right(cmds, reply.op, Outcome(reply.op, reply.err, reply.value), v.requests)
    requires RecordsGrow(v.records, b) && i < |b|
    requires b[i].op == reply.op && b[i].output == Outcome(reply.op, reply.err, reply.value) && b[i].ret == now
    ensures DoneOk(cmds, b, i)
  {
    var f :| ExecutedAt(cmds, f, reply.op, b[i].output) && Covered(cmds, f, v.requests);
    forall g | 1 <= g <= f && cmds[g].Kv? ensures CalledBefore(b, cmds[g].op, now) {
      CalledStays(v.records, b, cmds[g].op, now, now);
    }
    assert CalledUpTo(cmds, f, b, b[i].ret);
  }

  lemma RecordsKept(cmds: seq<Command>, c: RaftCluster.Cluster, v: Service, step: Step, now: nat)
    requires ClerksOk(v, now) && RepliesOk(cmds, v) && RecordsOk(cmds, v) && Enabled(c, v, step)
    ensures RecordsOk(cmds, Do(c, v, step, now))
  {
    var w := Do(c, v, step, now);
    ClerksKept(c, v, step, now);
    forall j | 0 <= j < |w.records| ensures DoneOk(cmds, w.records, j) {
      if step.Return? && j == v.clerks[step.reply.op.clientId].current {
        var op := step.reply.op;
        assert ReplyOk(cmds, v, step.reply) && RecordKept(v, j, now);
        ReturnDone(cmds, v, now, step.reply, w.records, j);
      } else if j < |v.records| {
        assert DoneOk(cmds, v.records, j);
        DoneStays(cmds, v.records, w.records, j);
      }
    }
  }

  // ---------------------------------------------------------------- the whole step

  lemma PendingsKept(run: RaftCluster.Run, v: Service, step: Step, now: nat)
    requires PendingsOk(run, now, v) && now < |run.states| && now < |run.steps| && Enabled(run.states[now], v, step)
    requires run.steps[now] == RaftStep(step)
    ensures PendingsOk(run, now + 1, Do(run.states[now], v, step, now))
  {
    var w := Do(run.states[now], v, step, now);
    forall p | p in w.pendings ensures PendingOk(run, now + 1, p, w.requests) {
      if p in v.pendings {
        assert PendingOk(run, now, p, v.requests);
      }
    }
  }

  lemma OursKept(rules: RaftPeer.Rules, c: RaftCluster.Cluster, v: Service, step: Step, now: nat)
    requires AllOurs(c, v.requests) && Enabled(c, v, step)
    ensures AllOurs(RaftCluster.Do(rules, c, RaftStep(step)), Do(c, v, step, now).requests)
  {
    StepOurs(rules, c, RaftStep(step), v.requests);
    OursGrows(RaftCluster.Do(rules, c, RaftStep(step)), v.requests, Do(c, v, step, now).requests);
  }

  lemma StepKeeps(rules: RaftPeer.Rules, n: nat, log: seq<RaftPeer.Entry>, r: ServiceRun, clients: set<int>, now: nat)
    requires BenignServiceRun(rules, n, clients, r) && AllFit(n, r.raft, log) && |log| > 0 && now < |r.steps|
    requires Inv(n, CommandsOf(log), r.raft, r.services[now], now)
    ensures Inv(n, CommandsOf(log), r.raft, r.services[now + 1], now + 1)
  {
    var c, d, v, step := r.raft.states[now], r.raft.states[now + 1], r.services[now], r.steps[now];
    assert IsServiceStep(r, now) && RaftCluster.IsStep(rules, r.raft, now);
    forall s | 0 <= s < n ensures Fits(log, c.peers[s]) {
      assert Fits(log, r.raft.states[now].peers[s]);
    }
    ServersKept(rules, n, log, c, d, v, step, now);
    OursKept(rules, c, v, step, now);
    ClerksKept(c, v, step, now);
    RepliesKept(rules, n, r.raft, log, v, step, now);
    RecordsKept(CommandsOf(log), c, v, step, now);
    PendingsKept(r.raft, v, step, now);
  }

  lemma StartInv(rules: RaftPeer.Rules, n: nat, log: seq<RaftPeer.Entry>, r: ServiceRun, clients: set<int>)
    requires BenignServiceRun(rules, n, clients, r) && |log| > 0
    ensures Inv(n, CommandsOf(log), r.raft, r.services[0], 0)
  {
    var c := r.raft.states[0];
    forall s | 0 <= s < |c.peers| ensures PeerOurs(c.peers[s], {}) {
    }
  }

  /** The invariant holds in every state of every run. */
  lemma {:induction false} RunKeeps(rules: RaftPeer.Rules, n: nat, log: seq<RaftPeer.Entry>, r: ServiceRun, clients: set<int>, now: nat)
    requires BenignServiceRun(rules, n, clients, r) && AllFit(n, r.raft, log) && |log| > 0 && now < |r.services|
    ensures Inv(n, CommandsOf(log), r.raft, r.services[now], now)
  {
    if now == 0 {
      StartInv(rules, n, log, r, clients);
    } else {
      RunKeeps(rules, n, log, r, clients, now - 1);
      StepKeeps(rules, n, log, r, clients, now - 1);
    }
  }
}
